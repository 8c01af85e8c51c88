/**
 * The staged trainer of a stacked autoencoder: its control state (which machine and criterion
 * the base trainer sees, the mode flags, the weight and rate arrays) and the phase methods that
 * set that state up, hand it to the base trainer, and restore it.
 *
 * The base trainer's own `train`, the coders' forward and backward passes and the generic
 * parameter update are calls into code outside the model: `train` appends the state it was
 * handed to a trace, and the forward/backward routine and the update return the list of calls
 * they make.
 */
module Trainer {
  import opened Wrappers
  import opened Graph
  import opened Topology

  /** The machine the base trainer works on: the stacked autoencoder itself or one of its views. */
  datatype MachineRef =
    | Sae
    | MesdMachine(layer: nat)
    | UnsupMachine
    | SupUnsupMachine
    | Selective(graph: Graph)

  /** The criterion the base trainer minimises; a concatenation optionally weights its parts. */
  datatype Crit =
    | SupCriterion
    | UnsupCriterion(layer: nat)
    | Concat(parts: seq<Crit>, weights: Option<seq<real>>)

  /** A data set: the unsupervised set of one layer, or the supervised set a caller supplies. */
  datatype DataRef = UnsupDataset(layer: nat) | SupervisedDataset

  /** Everything the trainer's state decides about one call of the base trainer. */
  datatype Control = Control(
    machine: MachineRef,
    criterion: Crit,
    layerwiseTraining: bool,
    layerwiseLayer: nat,
    topKTraining: bool,
    topKLayers: int,
    isFinetuning: bool,
    profileGradients: bool,
    criterionsWeights: seq<real>,
    finetuningLearningRates: seq<real>,
    partialBackprop: set<Module>,
    supDataset: Option<DataRef>,
    learningRate: real,
    maxIter: int)

  /** One call of the base trainer: the data it ran on and the state it saw. */
  datatype Event = Trained(data: DataRef, control: Control)

  /** What a backward call reads: the data, an encoder's outputs or betas, or the criterion's beta. */
  datatype Signal = DataInputs | EncoderOutputs(index: int) | EncoderBeta(index: int) | OutputerBeta | CriterionBeta

  /** The calls one forward/backward pass or one update makes. */
  datatype Step =
    | BaseFpropBprop
    | ForwardMachine(machine: MachineRef)
    | ForwardCriterion
    | BackwardCriterion
    | Backward(coder: Module, input: Signal, gradient: Signal)
    | ProfiledBackward
    | BaseUpdate(target: MachineRef, rate: real)
    | UpdateCoder(coder: Module, rate: real)

  /** A signal names an existing encoder when it names one at all. */
  predicate SignalExists(n: nat, s: Signal)
  {
    (s.EncoderOutputs? ==> 0 <= s.index < n) && (s.EncoderBeta? ==> 0 <= s.index < n)
  }

  // ---- Top-K training: the backward calls below the outputer ----

  /** The gradient encoder i of n receives: the outputer's beta on top, else encoder i+1's. */
  function TopKGradient(n: nat, i: nat): Signal
  {
    if i == n - 1 then OutputerBeta else EncoderBeta(i + 1)
  }

  /** The input encoder i reads: the data for the first encoder, else the encoder below. */
  function TopKInput(i: nat): Signal
  {
    if i == 0 then DataInputs else EncoderOutputs(i - 1)
  }

  /** The input as the loop picks it: the `i == n-1` test comes before the `i == 0` test. */
  function TopKInputAsWritten(n: nat, i: nat): Signal
  {
    if i == n - 1 then EncoderOutputs(i - 1) else if i == 0 then DataInputs else EncoderOutputs(i - 1)
  }

  /** Backward calls on encoders n-1 down to n-k+1, the top k layers being these and the outputer. */
  function TopKSteps(n: nat, k: int): (s: seq<Step>)
    requires k <= n + 1
    ensures |s| == if k > 1 then k - 1 else 0
  {
    var count := if k > 1 then k - 1 else 0;
    seq(count, j requires 0 <= j < count => Backward(Encoder(n - 1 - j), TopKInput(n - 1 - j), TopKGradient(n, n - 1 - j)))
  }

  /** One more layer of top-K training adds one more backward call, on the next encoder down. */
  lemma TopKStepsSnoc(n: nat, k: int)
    requires 1 <= k <= n
    ensures TopKSteps(n, k + 1) == TopKSteps(n, k) + [Backward(Encoder(n - k), TopKInput(n - k), TopKGradient(n, n - k))]
  {
    var a, b := TopKSteps(n, k + 1), TopKSteps(n, k);
    assert |a| == |b| + 1;
    forall j | 0 <= j < |b| ensures a[j] == b[j] {
    }
  }

  /** The same calls with the inputs the loop as written hands them. */
  function TopKStepsAsWritten(n: nat, k: int): (s: seq<Step>)
    requires k <= n + 1
    ensures |s| == if k > 1 then k - 1 else 0
  {
    var count := if k > 1 then k - 1 else 0;
    seq(count, j requires 0 <= j < count =>
      Backward(Encoder(n - 1 - j), TopKInputAsWritten(n, n - 1 - j), TopKGradient(n, n - 1 - j)))
  }

  /**
   * Top-K backward calls go to encoders only, in strictly descending layer order, exactly to
   * the layers n-k+1 .. n-1, and every signal they read belongs to an existing encoder.
   */
  lemma TopKOrder(n: nat, k: int)
    requires 0 < k <= n + 1
    ensures forall a :: 0 <= a < |TopKSteps(n, k)| ==>
      TopKSteps(n, k)[a].Backward? && TopKSteps(n, k)[a].coder.Encoder? &&
      n - k + 1 <= TopKSteps(n, k)[a].coder.layer < n &&
      SignalExists(n, TopKSteps(n, k)[a].input) && SignalExists(n, TopKSteps(n, k)[a].gradient)
    ensures forall a, b :: 0 <= a < b < |TopKSteps(n, k)| ==>
      TopKSteps(n, k)[a].coder.layer > TopKSteps(n, k)[b].coder.layer
    ensures forall i: nat :: n - k + 1 <= i < n ==> TopKSteps(n, k)[n - 1 - i].coder == Encoder(i)
  {
    var s := TopKSteps(n, k);
    forall a | 0 <= a < |s|
      ensures s[a].Backward? && s[a].coder == Encoder(n - 1 - a) && n - k + 1 <= n - 1 - a < n
      ensures SignalExists(n, s[a].input) && SignalExists(n, s[a].gradient)
    {
      var i := n - 1 - a;
      assert s[a] == Backward(Encoder(i), TopKInput(i), TopKGradient(n, i));
    }
  }

  /**
   * The loop as written reads a missing encoder: with one hidden layer and k = 2 the only
   * encoder's backward is handed the outputs of encoder -1.
   */
  lemma TopKAsWrittenReadsMissingEncoder()
    ensures TopKStepsAsWritten(1, 2) == [Backward(Encoder(0), EncoderOutputs(-1), OutputerBeta)]
    ensures !SignalExists(1, TopKStepsAsWritten(1, 2)[0].input)
  {
    assert TopKStepsAsWritten(1, 2)[0] == Backward(Encoder(0), EncoderOutputs(-1), OutputerBeta);
  }

  /** The loop as written makes the intended calls in every other case. */
  lemma TopKAsWrittenAgrees(n: nat, k: int)
    requires 0 < k <= n + 1
    ensures TopKStepsAsWritten(n, k) == TopKSteps(n, k) <==> !(n == 1 && k == 2)
  {
    if n == 1 && k == 2 {
      TopKAsWrittenReadsMissingEncoder();
      assert TopKSteps(1, 2)[0].input == DataInputs;
    } else {
      var s, w := TopKSteps(n, k), TopKStepsAsWritten(n, k);
      forall a | 0 <= a < |s| ensures s[a] == w[a] {
        var i := n - 1 - a;
        assert TopKInputAsWritten(n, i) == TopKInput(i);
      }
    }
  }

  // ---- Fine-tuning updates ----

  /** The per-encoder updates of fine-tuning: encoder j, j < i, with rate j when that rate is positive. */
  function EncoderUpdates(rates: seq<real>, i: nat): seq<Step>
    requires i <= |rates|
  {
    if i == 0 then []
    else EncoderUpdates(rates, i - 1) + (if rates[i - 1] > 0.0 then [UpdateCoder(Encoder(i - 1), rates[i - 1])] else [])
  }

  /** Fine-tuning updates the n encoders in order, then the outputer with the last rate if positive. */
  function FinetuneUpdates(rates: seq<real>, n: nat): seq<Step>
    requires |rates| == n + 1
  {
    EncoderUpdates(rates, n) + (if rates[n] > 0.0 then [UpdateCoder(Outputer, rates[n])] else [])
  }

  /** Encoder j < i is updated, with rate j, exactly when rate j is positive; nothing else is. */
  lemma {:induction false} EncoderUpdatesReach(rates: seq<real>, i: nat, s: Step)
    requires i <= |rates|
    ensures s in EncoderUpdates(rates, i) <==>
      s.UpdateCoder? && s.coder.Encoder? && s.coder.layer < i &&
      rates[s.coder.layer] > 0.0 && s.rate == rates[s.coder.layer]
  {
    if i > 0 {
      EncoderUpdatesReach(rates, i - 1, s);
    }
  }

  /** The updates of fine-tuning come in increasing layer order. */
  lemma {:induction false} EncoderUpdatesAscending(rates: seq<real>, i: nat)
    requires i <= |rates|
    ensures forall a :: 0 <= a < |EncoderUpdates(rates, i)| ==>
      EncoderUpdates(rates, i)[a].UpdateCoder? && EncoderUpdates(rates, i)[a].coder.Encoder? &&
      EncoderUpdates(rates, i)[a].coder.layer < i
    ensures forall a, b :: 0 <= a < b < |EncoderUpdates(rates, i)| ==>
      EncoderUpdates(rates, i)[a].coder.layer < EncoderUpdates(rates, i)[b].coder.layer
  {
    if i > 0 {
      EncoderUpdatesAscending(rates, i - 1);
    }
  }

  /** The outputer is updated, with the last rate, exactly when that rate is positive. */
  lemma FinetuneUpdatesOutputer(rates: seq<real>, n: nat, r: real)
    requires |rates| == n + 1
    ensures UpdateCoder(Outputer, r) in FinetuneUpdates(rates, n) <==> rates[n] > 0.0 && r == rates[n]
  {
    EncoderUpdatesReach(rates, n, UpdateCoder(Outputer, r));
  }

  // ---- Selective pretraining: which layers are flagged ----

  /** The layers i < n whose flag is 1, in increasing order. */
  function SelectedLayers(flags: seq<int>, n: nat): seq<nat>
    requires n <= |flags|
  {
    if n == 0 then []
    else SelectedLayers(flags, n - 1) + (if flags[n - 1] == 1 then [n - 1] else [])
  }

  /** The topmost flagged layer below n, or -1 when none is flagged. */
  function Topmost(flags: seq<int>, n: nat): int
    requires n <= |flags|
  {
    var sel := SelectedLayers(flags, n);
    if |sel| == 0 then -1 else sel[|sel| - 1]
  }

  /** Exactly the flagged layers below n are selected, each once, in increasing order. */
  lemma {:induction false} SelectedLayersSpec(flags: seq<int>, n: nat)
    requires n <= |flags|
    ensures forall i :: i in SelectedLayers(flags, n) <==> 0 <= i < n && flags[i] == 1
    ensures forall a, b :: 0 <= a < b < |SelectedLayers(flags, n)| ==>
      SelectedLayers(flags, n)[a] < SelectedLayers(flags, n)[b]
  {
    if n > 0 {
      SelectedLayersSpec(flags, n - 1);
      var prev := SelectedLayers(flags, n - 1);
      assert forall a :: 0 <= a < |prev| ==> prev[a] in prev;
    }
  }

  /** The topmost flagged layer is flagged, and no layer above it below n is; -1 means none is. */
  lemma TopmostSpec(flags: seq<int>, n: nat)
    requires n <= |flags|
    ensures Topmost(flags, n) == -1 <==> forall i :: 0 <= i < n ==> flags[i] != 1
    ensures Topmost(flags, n) >= 0 ==>
      Topmost(flags, n) < n && flags[Topmost(flags, n)] == 1 &&
      forall i :: Topmost(flags, n) < i < n ==> flags[i] != 1
  {
    SelectedLayersSpec(flags, n);
    var sel := SelectedLayers(flags, n);
    if |sel| > 0 {
      assert sel[|sel| - 1] in sel;
    }
  }

  /** One more flagged layer leaves room for one more selected criterion. */
  lemma {:induction false} SelectedLayersGrow(flags: seq<int>, i: nat, n: nat)
    requires i < n <= |flags| && flags[i] == 1
    ensures |SelectedLayers(flags, i)| < |SelectedLayers(flags, n)|
  {
    if n > i + 1 {
      SelectedLayersGrow(flags, i, n - 1);
    }
  }

  /** The unsupervised criteria of the given layers, in the same order. */
  function UnsupCriteria(ls: seq<nat>): (cs: seq<Crit>)
    ensures |cs| == |ls| && forall t :: 0 <= t < |ls| ==> cs[t] == UnsupCriterion(ls[t])
  {
    seq(|ls|, t requires 0 <= t < |ls| => UnsupCriterion(ls[t]))
  }

  /** The encoders the selective machine stacks: up to the topmost flagged layer, one fewer with noise. */
  function SelectiveEncoderCount(flags: seq<int>, n: nat, noisy: bool): nat
    requires n <= |flags|
  {
    var k := if noisy then Topmost(flags, n) - 1 else Topmost(flags, n);
    if k < 0 then 0 else k + 1
  }

  /** The input handle is stacked only in noisy mode and only when layer 0 is flagged. */
  function SelectiveHandle(flags: seq<int>, n: nat, noisy: bool): bool
    requires 1 <= n <= |flags|
  {
    noisy && flags[0] == 1
  }

  /** The selective machine: the encoder stack, then a branch for every flagged layer. */
  function SelectiveGraph(flags: seq<int>, n: nat, noisy: bool): Graph
    requires 1 <= n <= |flags|
  {
    WithBranches(Stacked(Empty, SelectiveEncoderCount(flags, n, noisy), SelectiveHandle(flags, n, noisy)),
                 SelectedLayers(flags, n), noisy)
  }

  /** Every flagged layer's branch source is a member of the selective machine's encoder stack. */
  lemma SelectiveSourcesStacked(flags: seq<int>, n: nat, noisy: bool)
    requires 1 <= n <= |flags|
    ensures forall i :: 0 <= i < n && flags[i] == 1 ==>
      InLayers(EncoderStack(SelectiveEncoderCount(flags, n, noisy), SelectiveHandle(flags, n, noisy)),
               BranchSource(i, noisy))
  {
    TopmostSpec(flags, n);
    forall i | 0 <= i < n && flags[i] == 1
      ensures InLayers(EncoderStack(SelectiveEncoderCount(flags, n, noisy), SelectiveHandle(flags, n, noisy)),
                       BranchSource(i, noisy))
    {
      EncoderStackMembers(SelectiveEncoderCount(flags, n, noisy), SelectiveHandle(flags, n, noisy), BranchSource(i, noisy));
    }
  }

  /** The encoders 0..n-1, and the autoencoders of the given layers. */
  function EncoderSet(n: nat): set<Module>
  {
    set i: nat | i < n :: Encoder(i)
  }

  function AutoencoderSet(ls: seq<nat>): set<Module>
  {
    set t | 0 <= t < |ls| :: Autoencoder(ls[t])
  }

  /** The partial-backprop flags while the selective machine trains. */
  function SelectivePartial(p: set<Module>, flags: seq<int>, n: nat, noisy: bool, on: bool): set<Module>
    requires n <= |flags|
  {
    var touched := EncoderSet(n) + (if noisy then AutoencoderSet(SelectedLayers(flags, n)) else {});
    if on then p + touched else p - touched
  }

  /** A constant weight table. */
  function Constant(n: nat, v: real): (s: seq<real>)
    ensures |s| == n && forall t :: 0 <= t < n ==> s[t] == v
  {
    seq(n, t => v)
  }

  /** The state every phase leaves behind: the stacked autoencoder and its supervised criterion. */
  function Restored(c: Control): Control
  {
    c.(machine := Sae, criterion := SupCriterion)
  }

  /** The call of the base trainer that trains layer i on its own. */
  function LayerEvent(c: Control, i: nat): Event
  {
    Trained(UnsupDataset(i), c.(machine := MesdMachine(i), criterion := UnsupCriterion(i),
                                layerwiseTraining := true, layerwiseLayer := i))
  }

  /** Layer-wise training of the layers `ls`: one call of the base trainer per layer, in order. */
  function LayerwiseEvents(c: Control, ls: seq<nat>): (es: seq<Event>)
    ensures |es| == |ls| && forall t :: 0 <= t < |ls| ==> es[t] == LayerEvent(c, ls[t])
  {
    seq(|ls|, t requires 0 <= t < |ls| => LayerEvent(c, ls[t]))
  }

  /** The state layer-wise training leaves: the last trained layer, or nothing changed but the flag. */
  function AfterLayerwise(c: Control, ls: seq<nat>): Control
  {
    if |ls| == 0 then c.(layerwiseTraining := false)
    else Restored(c).(layerwiseTraining := false, layerwiseLayer := ls[|ls| - 1])
  }

  /** Training one more layer extends the events by that layer's and leaves the state it leaves. */
  lemma LayerwiseSnoc(c: Control, ls: seq<nat>, i: nat)
    ensures LayerwiseEvents(c, ls + [i]) == LayerwiseEvents(c, ls) + [LayerEvent(c, i)]
    ensures LayerEvent(AfterLayerwise(c, ls).(layerwiseTraining := true), i) == LayerEvent(c, i)
    ensures Restored(AfterLayerwise(c, ls).(layerwiseTraining := true)).(layerwiseLayer := i) ==
            AfterLayerwise(c, ls + [i]).(layerwiseTraining := true)
  {
    assert (ls + [i])[..|ls|] == ls;
  }

  /** The closed layers of a stack built on the empty machine are the stack itself. */
  lemma StackedClosed(count: nat, handle: bool)
    ensures |Stacked(Empty, count, handle).layers| >= 1
    ensures Closed(Stacked(Empty, count, handle)) == EncoderStack(count, handle)
  {
    if count > 0 || handle {
      StackedEmpty(count, handle);
    } else {
      assert |EncoderStack(0, false)| == 0;
    }
  }

  /** Toggling encoder i, and autoencoder i when it is flagged in noisy mode, extends the toggled set by layer i. */
  lemma SelectivePartialStep(p: set<Module>, flags: seq<int>, i: nat, noisy: bool, on: bool)
    requires i < |flags|
    ensures var q := if on then SelectivePartial(p, flags, i, noisy, on) + {Encoder(i)}
                     else SelectivePartial(p, flags, i, noisy, on) - {Encoder(i)};
      SelectivePartial(p, flags, i + 1, noisy, on) ==
        if noisy && flags[i] == 1 then (if on then q + {Autoencoder(i)} else q - {Autoencoder(i)}) else q
  {
    assert EncoderSet(i + 1) == EncoderSet(i) + {Encoder(i)};
    var sel := SelectedLayers(flags, i);
    if flags[i] == 1 {
      assert SelectedLayers(flags, i + 1) == sel + [i];
      assert AutoencoderSet(sel + [i]) == AutoencoderSet(sel) + {Autoencoder(i)} by {
        forall m | m in AutoencoderSet(sel + [i]) ensures m in AutoencoderSet(sel) + {Autoencoder(i)} {
          var t :| 0 <= t < |sel| + 1 && m == Autoencoder((sel + [i])[t]);
          if t < |sel| {
            assert m == Autoencoder(sel[t]);
          }
        }
        forall m | m in AutoencoderSet(sel) ensures m in AutoencoderSet(sel + [i]) {
          var t :| 0 <= t < |sel| && m == Autoencoder(sel[t]);
          assert (sel + [i])[t] == sel[t];
        }
        assert (sel + [i])[|sel|] == i;
      }
    } else {
      assert SelectedLayers(flags, i + 1) == sel;
    }
  }

  /** Every autoencoder a selective run toggles is one of the autoencoders of all n layers. */
  lemma SelectedAutoencodersAmongAll(flags: seq<int>, n: nat)
    requires n <= |flags|
    ensures AutoencoderSet(SelectedLayers(flags, n)) <= AutoencoderSet(AllLayers(n))
  {
    SelectedLayersSpec(flags, n);
    var sel := SelectedLayers(flags, n);
    forall m | m in AutoencoderSet(sel) ensures m in AutoencoderSet(AllLayers(n)) {
      var t :| 0 <= t < |sel| && m == Autoencoder(sel[t]);
      assert sel[t] in sel;
      assert AllLayers(n)[sel[t]] == sel[t];
    }
  }

  /** One more layer adds its encoder and its autoencoder to the sets of layers 0..i-1. */
  lemma LayerSetsSnoc(i: nat)
    ensures EncoderSet(i + 1) == EncoderSet(i) + {Encoder(i)}
    ensures AutoencoderSet(AllLayers(i + 1)) == AutoencoderSet(AllLayers(i)) + {Autoencoder(i)}
  {
    var a, b := AllLayers(i + 1), AllLayers(i);
    forall m | m in AutoencoderSet(a) ensures m in AutoencoderSet(b) + {Autoencoder(i)} {
      var t :| 0 <= t < |a| && m == Autoencoder(a[t]);
      if t < i {
        assert m == Autoencoder(b[t]);
      }
    }
    forall m | m in AutoencoderSet(b) ensures m in AutoencoderSet(a) {
      var t :| 0 <= t < |b| && m == Autoencoder(b[t]);
      assert m == Autoencoder(a[t]);
    }
    assert Autoencoder(a[i]) in AutoencoderSet(a);
  }

  /** The flags a selective run resets: all encoders, and all autoencoders in noisy mode. */
  function ResetSet(n: nat, noisy: bool): set<Module>
  {
    EncoderSet(n) + (if noisy then AutoencoderSet(AllLayers(n)) else {})
  }

  /**
   * Resetting every encoder (and every autoencoder in noisy mode) after a selective run undoes
   * whatever the run switched: the result depends only on the flags before the run.
   */
  lemma SelectiveResetForgets(p: set<Module>, flags: seq<int>, n: nat, noisy: bool, on: bool)
    requires n <= |flags|
    ensures SelectivePartial(p, flags, n, noisy, on) - ResetSet(n, noisy) == p - ResetSet(n, noisy)
  {
    SelectedAutoencodersAmongAll(flags, n);
  }

  // ---- What each whole-stack phase hands the base trainer and leaves behind ----

  /** The call of the base trainer a selective run makes: the selective machine on the flagged criteria. */
  function SelectiveEvent(c: Control, flags: seq<int>, n: nat, noisy: bool, partial: bool): Event
    requires 1 <= n <= |flags|
  {
    Trained(UnsupDataset(0), c.(machine := Selective(SelectiveGraph(flags, n, noisy)),
                                criterion := Concat(UnsupCriteria(SelectedLayers(flags, n)), None),
                                partialBackprop := SelectivePartial(c.partialBackprop, flags, n, noisy, partial)))
  }

  /** After a selective run: the defaults back, and the reset flags off. */
  function AfterSelective(c: Control, n: nat, noisy: bool): Control
  {
    Restored(c).(partialBackprop := c.partialBackprop - ResetSet(n, noisy))
  }

  /** After unsupervised training without the outputer: every unsupervised weight is 1. */
  function AfterNotOutput(c: Control, n: nat): Control
    requires |c.criterionsWeights| >= 1
  {
    Restored(c).(criterionsWeights := [c.criterionsWeights[0]] + Constant(n, 1.0))
  }

  /** The unsupervised machine on every layer's reconstruction criterion, each weighted 1. */
  function NotOutputEvent(c: Control, n: nat): Event
    requires |c.criterionsWeights| >= 1
  {
    Trained(UnsupDataset(0), AfterNotOutput(c, n).(machine := UnsupMachine,
                                                   criterion := Concat(UnsupCriteria(AllLayers(n)), Some(Constant(n, 1.0)))))
  }

  /** After combined training: weight 1 for the supervised criterion, `w` for the others, and the data kept. */
  function AfterSupUnsup(c: Control, n: nat, data: DataRef, w: real): Control
  {
    Restored(c).(criterionsWeights := [1.0] + Constant(n, w), supDataset := Some(data))
  }

  /** The combined machine on the current criterion, weighted 1, and every reconstruction criterion, weighted `w`. */
  function SupUnsupEvent(c: Control, n: nat, data: DataRef, w: real): Event
  {
    Trained(UnsupDataset(0), AfterSupUnsup(c, n, data, w).(machine := SupUnsupMachine,
                                                           criterion := Concat([c.criterion] + UnsupCriteria(AllLayers(n)),
                                                                               Some([1.0] + Constant(n, w)))))
  }

  /** Combined training with every weight 1, the outputer doing partial backprop for the run. */
  function UnsupEvent(c: Control, n: nat, data: DataRef): Event
  {
    SupUnsupEvent(c.(partialBackprop := c.partialBackprop + {Outputer}), n, data, 1.0)
  }

  /** After it, the outputer's partial-backprop flag is off. */
  function AfterUnsup(c: Control, n: nat, data: DataRef): Control
  {
    AfterSupUnsup(c, n, data, 1.0).(partialBackprop := c.partialBackprop - {Outputer})
  }

  /** Zeroes every frame of a sequence of frames. */
  method ClearSequence(frames: array2<real>)
    modifies frames
    ensures forall i, j :: 0 <= i < frames.Length0 && 0 <= j < frames.Length1 ==> frames[i, j] == 0.0
  {
    for i := 0 to frames.Length0
      invariant forall a, b :: 0 <= a < i && 0 <= b < frames.Length1 ==> frames[a, b] == 0.0
    {
      for j := 0 to frames.Length1
        invariant forall a, b :: 0 <= a < i && 0 <= b < frames.Length1 ==> frames[a, b] == 0.0
        invariant forall b :: 0 <= b < j ==> frames[i, b] == 0.0
      {
        frames[i, j] := 0.0;
      }
    }
  }

  class StackedAutoencoderTrainer {
    const sae: StackedAutoencoder
    /** What the base trainer trains and minimises; the stacked autoencoder and its criterion between phases. */
    var machine: MachineRef
    var criterion: Crit
    var layerwiseTraining: bool
    var layerwiseLayer: nat
    var topKTraining: bool
    var topKLayers: int
    var isFinetuning: bool
    var profileGradients: bool
    /** Index 0 weights the supervised criterion, index 1 + i layer i's unsupervised criterion. */
    const criterionsWeights: array<real>
    /** Index i is encoder i's fine-tuning rate, index N the outputer's. */
    const finetuningLearningRates: array<real>
    var supDataset: Option<DataRef>
    /** The base trainer's "learning rate" and "max iter" options. */
    var learningRate: real
    var maxIter: int
    /** The calls of the base trainer so far. */
    var trace: seq<Event>

    ghost predicate Valid()
      reads this`layerwiseLayer, this`topKTraining, this`topKLayers
    {
      sae.N >= 1 &&
      criterionsWeights.Length == sae.N + 1 && finetuningLearningRates.Length == sae.N + 1 &&
      criterionsWeights != finetuningLearningRates &&
      layerwiseLayer < sae.N &&
      (topKTraining ==> 0 < topKLayers <= sae.N + 1)
    }

    /** The whole control state, as the base trainer sees it. */
    function Snapshot(): Control
      reads this`machine, this`criterion, this`layerwiseTraining, this`layerwiseLayer, this`topKTraining,
            this`topKLayers, this`isFinetuning, this`profileGradients, this`supDataset,
            this`learningRate, this`maxIter, criterionsWeights, finetuningLearningRates, sae`partialBackprop
    {
      Control(machine, criterion, layerwiseTraining, layerwiseLayer, topKTraining, topKLayers,
              isFinetuning, profileGradients, criterionsWeights[..], finetuningLearningRates[..],
              sae.partialBackprop, supDataset, learningRate, maxIter)
    }

    /**
     * Both weight arrays hold N+1 zeros, every mode is off, and the trainer trains the whole stack;
     * the base trainer's options start at its own defaults, given here.
     */
    constructor (sae: StackedAutoencoder, learningRate: real, maxIter: int)
      requires sae.N >= 1
      ensures this.sae == sae && Valid() && trace == []
      ensures fresh(criterionsWeights) && fresh(finetuningLearningRates)
      ensures Snapshot() == Control(Sae, SupCriterion, false, 0, false, 0, false, false,
                                    Constant(sae.N + 1, 0.0), Constant(sae.N + 1, 0.0), sae.partialBackprop, None,
                                    learningRate, maxIter)
    {
      this.sae := sae;
      var weights := new real[sae.N + 1];
      var rates := new real[sae.N + 1];
      for i := 0 to sae.N + 1
        invariant forall j :: 0 <= j < i ==> weights[j] == 0.0 && rates[j] == 0.0
      {
        weights[i] := 0.0;
        rates[i] := 0.0;
      }
      criterionsWeights, finetuningLearningRates := weights, rates;
      machine, criterion := Sae, SupCriterion;
      layerwiseTraining, layerwiseLayer := false, 0;
      topKTraining, topKLayers := false, 0;
      isFinetuning, profileGradients := false, false;
      supDataset := None;
      this.learningRate, this.maxIter := learningRate, maxIter;
      trace := [];
      new;
      assert criterionsWeights[..] == Constant(sae.N + 1, 0.0);
      assert finetuningLearningRates[..] == Constant(sae.N + 1, 0.0);
    }

    /** The base trainer's `train`, outside the model: it records the data and the state it saw. */
    method Train(data: DataRef)
      modifies this`trace
      ensures trace == old(trace) + [Trained(data, Snapshot())]
    {
      trace := trace + [Trained(data, Snapshot())];
    }

    /**
     * One example's forward and backward pass: the base trainer's own unless a mode is on;
     * layer-wise training beats top-K training, which beats gradient profiling.
     */
    method FpropBprop() returns (steps: seq<Step>)
      requires Valid()
      ensures (!profileGradients && !layerwiseTraining && !topKTraining) <==> steps == [BaseFpropBprop]
      ensures layerwiseTraining ==>
        steps == [ForwardMachine(MesdMachine(layerwiseLayer)), ForwardCriterion, BackwardCriterion,
                  Backward(Autoencoder(layerwiseLayer), DataInputs, CriterionBeta)]
      ensures !layerwiseTraining && topKTraining ==>
        steps == [ForwardMachine(machine), ForwardCriterion, BackwardCriterion,
                  Backward(Outputer, EncoderOutputs(sae.N - 1), CriterionBeta)] + TopKSteps(sae.N, topKLayers)
      ensures !layerwiseTraining && !topKTraining && profileGradients ==>
        steps == [ForwardMachine(machine), ForwardCriterion, BackwardCriterion, ProfiledBackward]
    {
      if !profileGradients && !layerwiseTraining && !topKTraining {
        steps := [BaseFpropBprop];
      } else if layerwiseTraining {
        steps := [ForwardMachine(MesdMachine(layerwiseLayer)), ForwardCriterion, BackwardCriterion,
                  Backward(Autoencoder(layerwiseLayer), DataInputs, CriterionBeta)];
      } else if topKTraining {
        var n := sae.N;
        steps := [ForwardMachine(machine), ForwardCriterion, BackwardCriterion,
                  Backward(Outputer, EncoderOutputs(n - 1), CriterionBeta)];
        ghost var head := steps;
        var i := n - 1;
        while i > n - topKLayers
          invariant n - topKLayers <= i <= n - 1
          invariant steps == head + TopKSteps(n, n - i)
        {
          var input := if i == 0 then DataInputs else EncoderOutputs(i - 1);
          var gradient := if i == n - 1 then OutputerBeta else EncoderBeta(i + 1);
          TopKStepsSnoc(n, n - i);
          steps := steps + [Backward(Encoder(i), input, gradient)];
          i := i - 1;
        }
      } else {
        steps := [ForwardMachine(machine), ForwardCriterion, BackwardCriterion, ProfiledBackward];
      }
    }

    /**
     * One parameter update: the base trainer's own, or when fine-tuning the stack, one update per
     * encoder and for the outputer, each with its own rate and only when that rate is positive.
     */
    method UpdateMachine(gm: MachineRef, currentLearningRate: real) returns (steps: seq<Step>)
      requires Valid()
      requires isFinetuning ==> gm == Sae
      ensures !isFinetuning ==> steps == [BaseUpdate(gm, currentLearningRate)]
      ensures isFinetuning ==> steps == FinetuneUpdates(finetuningLearningRates[..], sae.N)
    {
      if !isFinetuning {
        steps := [BaseUpdate(gm, currentLearningRate)];
      } else {
        var n := sae.N;
        steps := [];
        for i := 0 to n
          invariant steps == EncoderUpdates(finetuningLearningRates[..], i)
        {
          if finetuningLearningRates[i] > 0.0 {
            steps := steps + [UpdateCoder(Encoder(i), finetuningLearningRates[i])];
          }
        }
        if finetuningLearningRates[n] > 0.0 {
          steps := steps + [UpdateCoder(Outputer, finetuningLearningRates[n])];
        }
      }
    }

    /** The base trainer's setROption("learning rate", ·). */
    method SetLearningRate(r: real)
      modifies this`learningRate
      ensures Snapshot() == old(Snapshot()).(learningRate := r)
    {
      learningRate := r;
    }

    /** The base trainer's setIOption("max iter", ·). */
    method SetMaxIter(n: int)
      modifies this`maxIter
      ensures Snapshot() == old(Snapshot()).(maxIter := n)
    {
      maxIter := n;
    }

    /**
     * ProfileGradientsInitialize, for its effect on the trainer: gradient profiling is on. It is
     * a fatal error (`ok` false, nothing changed) on a noisy stack, whose decoders read the noisy
     * encoders rather than the encoders whose gradients would be profiled.
     */
    method ProfileGradientsInitialize() returns (ok: bool)
      modifies this`profileGradients
      ensures ok <==> !sae.isNoisy
      ensures Snapshot() == if ok then old(Snapshot()).(profileGradients := true) else old(Snapshot())
    {
      if sae.isNoisy {
        return false;
      }
      profileGradients := true;
      ok := true;
    }

    // ---- Phases ----

    /** Trains the current layer's mesd machine on its own criterion, then restores the defaults. */
    method TrainUnsupLayer()
      requires Valid() && layerwiseTraining
      modifies this`machine, this`criterion, this`trace
      ensures Valid()
      ensures trace == old(trace) + [LayerEvent(old(Snapshot()), layerwiseLayer)]
      ensures Snapshot() == Restored(old(Snapshot()))
    {
      machine := MesdMachine(layerwiseLayer);
      criterion := UnsupCriterion(layerwiseLayer);
      Train(UnsupDataset(layerwiseLayer));
      machine := Sae;
      criterion := SupCriterion;
    }

    /** One step of layer-wise training: points the layer-wise state at layer i and trains it. */
    method TrainLayer(i: nat)
      requires Valid() && layerwiseTraining && i < sae.N
      modifies this`machine, this`criterion, this`layerwiseLayer, this`trace
      ensures Valid()
      ensures trace == old(trace) + [LayerEvent(old(Snapshot()), i)]
      ensures Snapshot() == Restored(old(Snapshot())).(layerwiseLayer := i)
    {
      layerwiseLayer := i;
      TrainUnsupLayer();
    }

    /** Points the base trainer at machine `m` and criterion `c` and trains them on `data`. */
    method TrainOn(m: MachineRef, c: Crit, data: DataRef)
      modifies this`machine, this`criterion, this`trace
      ensures machine == m && criterion == c
      ensures trace == old(trace) + [Trained(data, old(Snapshot()).(machine := m, criterion := c))]
    {
      machine := m;
      criterion := c;
      Train(data);
    }

    /** One step of a layer-wise loop that has trained the layers `done` so far: trains layer i too. */
    method TrainNextLayer(ghost c0: Control, ghost before: seq<Event>, ghost done: seq<nat>, i: nat)
      requires Valid() && layerwiseTraining && i < sae.N
      requires trace == before + LayerwiseEvents(c0, done)
      requires Snapshot() == AfterLayerwise(c0, done).(layerwiseTraining := true)
      modifies this`machine, this`criterion, this`layerwiseLayer, this`trace
      ensures Valid() && layerwiseTraining
      ensures trace == before + LayerwiseEvents(c0, done + [i])
      ensures Snapshot() == AfterLayerwise(c0, done + [i]).(layerwiseTraining := true)
    {
      LayerwiseSnoc(c0, done, i);
      TrainLayer(i);
    }

    /** Trains every layer on its own, from the bottom up. */
    method TrainUnsupLayerwise()
      requires Valid()
      modifies this`machine, this`criterion, this`layerwiseTraining, this`layerwiseLayer, this`trace
      ensures Valid()
      ensures trace == old(trace) + LayerwiseEvents(old(Snapshot()), AllLayers(sae.N))
      ensures Snapshot() == AfterLayerwise(old(Snapshot()), AllLayers(sae.N))
    {
      ghost var c0, before := Snapshot(), trace;
      layerwiseTraining := true;
      for i := 0 to sae.N
        invariant Valid() && layerwiseTraining
        invariant trace == before + LayerwiseEvents(c0, AllLayers(i))
        invariant Snapshot() == AfterLayerwise(c0, AllLayers(i)).(layerwiseTraining := true)
      {
        assert AllLayers(i) + [i] == AllLayers(i + 1);
        TrainNextLayer(c0, before, AllLayers(i), i);
      }
      layerwiseTraining := false;
    }

    /** Trains on its own every layer whose flag is 1, from the bottom up. */
    method TrainSelectiveUnsupLayerwise(pretrainList: seq<int>)
      requires Valid() && |pretrainList| >= sae.N
      modifies this`machine, this`criterion, this`layerwiseTraining, this`layerwiseLayer, this`trace
      ensures Valid()
      ensures trace == old(trace) + LayerwiseEvents(old(Snapshot()), SelectedLayers(pretrainList, sae.N))
      ensures Snapshot() == AfterLayerwise(old(Snapshot()), SelectedLayers(pretrainList, sae.N))
    {
      ghost var c0, before := Snapshot(), trace;
      layerwiseTraining := true;
      for i := 0 to sae.N
        invariant Valid() && layerwiseTraining
        invariant trace == before + LayerwiseEvents(c0, SelectedLayers(pretrainList, i))
        invariant Snapshot() == AfterLayerwise(c0, SelectedLayers(pretrainList, i)).(layerwiseTraining := true)
      {
        TrainIfFlagged(c0, before, pretrainList, i);
      }
      layerwiseTraining := false;
    }

    /** One step of selective layer-wise training: trains layer i when its flag is 1. */
    method TrainIfFlagged(ghost c0: Control, ghost before: seq<Event>, pretrainList: seq<int>, i: nat)
      requires Valid() && layerwiseTraining && i < sae.N <= |pretrainList|
      requires trace == before + LayerwiseEvents(c0, SelectedLayers(pretrainList, i))
      requires Snapshot() == AfterLayerwise(c0, SelectedLayers(pretrainList, i)).(layerwiseTraining := true)
      modifies this`machine, this`criterion, this`layerwiseLayer, this`trace
      ensures Valid() && layerwiseTraining
      ensures trace == before + LayerwiseEvents(c0, SelectedLayers(pretrainList, i + 1))
      ensures Snapshot() == AfterLayerwise(c0, SelectedLayers(pretrainList, i + 1)).(layerwiseTraining := true)
    {
      if pretrainList[i] == 1 {
        TrainNextLayer(c0, before, SelectedLayers(pretrainList, i), i);
      }
    }

    /** Trains the whole stack on the supervised criterion, back-propagating through the top k layers only. */
    method TrainSupervisedTopKLayers(data: DataRef, topK: int)
      requires Valid() && 0 < topK <= sae.N + 1
      modifies this
      ensures Valid()
      ensures trace == old(trace) + [Trained(data, Restored(old(Snapshot())).(topKTraining := true, topKLayers := topK))]
      ensures Snapshot() == Restored(old(Snapshot())).(topKTraining := false, topKLayers := topK)
    {
      topKTraining := true;
      topKLayers := topK;
      machine := Sae;
      criterion := SupCriterion;
      Train(data);
      topKTraining := false;
    }

    // ---- Selective unsupervised training ----

    /** The topmost flagged layer below n (-1 when none) and the number of flagged layers. */
    static method CountFlagged(pretrainList: seq<int>, n: nat) returns (topmost: int, count: nat)
      requires n <= |pretrainList|
      ensures topmost == Topmost(pretrainList, n) && count == |SelectedLayers(pretrainList, n)|
    {
      topmost, count := -1, 0;
      for i := 0 to n
        invariant topmost == Topmost(pretrainList, i) && count == |SelectedLayers(pretrainList, i)|
      {
        if pretrainList[i] == 1 {
          topmost := i;
          count := count + 1;
        }
      }
    }

    /** The unsupervised criteria of the flagged layers, packed in layer order into `count` slots. */
    static method SelectedCriteria(pretrainList: seq<int>, n: nat, count: nat) returns (criteria: array<Crit>)
      requires n <= |pretrainList| && count == |SelectedLayers(pretrainList, n)|
      ensures fresh(criteria) && criteria[..] == UnsupCriteria(SelectedLayers(pretrainList, n))
    {
      criteria := new Crit[count](_ => SupCriterion);
      var offset := 0;
      for i := 0 to n
        invariant offset == |SelectedLayers(pretrainList, i)| <= count
        invariant criteria[..offset] == UnsupCriteria(SelectedLayers(pretrainList, i))
      {
        if pretrainList[i] == 1 {
          SelectedLayersGrow(pretrainList, i, n);
          criteria[offset] := UnsupCriterion(i);
          assert criteria[..offset + 1] == criteria[..offset] + [UnsupCriterion(i)];
          offset := offset + 1;
        }
      }
      assert criteria[..] == criteria[..offset];
    }

    /**
     * Switches partial backprop of every encoder (and, in noisy mode, of every flagged layer's
     * autoencoder) to `partial`, and adds a reconstruction branch on `mch` for every flagged layer.
     */
    method AddSelectiveMachines(mch: ConnectedMachine, pretrainList: seq<int>, partial: bool)
      requires |pretrainList| >= sae.N
      requires mch.Valid() && !mch.built
      requires forall i :: 0 <= i < sae.N && pretrainList[i] == 1 ==>
        InLayers(Closed(mch.Value()), BranchSource(i, sae.isNoisy))
      modifies mch, sae`partialBackprop
      ensures mch.Valid() && !mch.built
      ensures mch.Value() == WithBranches(old(mch.Value()), SelectedLayers(pretrainList, sae.N), sae.isNoisy)
      ensures sae.partialBackprop == SelectivePartial(old(sae.partialBackprop), pretrainList, sae.N, sae.isNoisy, partial)
    {
      ghost var g0, p0 := mch.Value(), sae.partialBackprop;
      WithBranchesNone(g0, sae.isNoisy);
      for i := 0 to sae.N
        invariant mch.Valid() && !mch.built
        invariant mch.Value() == WithBranches(g0, SelectedLayers(pretrainList, i), sae.isNoisy)
        invariant sae.partialBackprop == SelectivePartial(p0, pretrainList, i, sae.isNoisy, partial)
      {
        AddSelectiveLayer(mch, g0, p0, pretrainList, i, partial);
      }
    }

    /** One layer of `AddSelectiveMachines`: its partial-backprop flags, then its branch when flagged. */
    method AddSelectiveLayer(mch: ConnectedMachine, ghost g0: Graph, ghost p0: set<Module>,
                             pretrainList: seq<int>, i: nat, partial: bool)
      requires i < sae.N <= |pretrainList| && |g0.layers| >= 1
      requires forall j :: 0 <= j < sae.N && pretrainList[j] == 1 ==>
        InLayers(Closed(g0), BranchSource(j, sae.isNoisy))
      requires mch.Valid() && !mch.built
      requires mch.Value() == WithBranches(g0, SelectedLayers(pretrainList, i), sae.isNoisy)
      requires sae.partialBackprop == SelectivePartial(p0, pretrainList, i, sae.isNoisy, partial)
      modifies mch, sae`partialBackprop
      ensures mch.Valid() && !mch.built
      ensures mch.Value() == WithBranches(g0, SelectedLayers(pretrainList, i + 1), sae.isNoisy)
      ensures sae.partialBackprop == SelectivePartial(p0, pretrainList, i + 1, sae.isNoisy, partial)
    {
      var noisy := sae.isNoisy;
      ghost var done := SelectedLayers(pretrainList, i);
      SelectivePartialStep(p0, pretrainList, i, noisy, partial);
      sae.SetPartialBackprop(Encoder(i), partial);
      if pretrainList[i] == 1 {
        assert SelectedLayers(pretrainList, i + 1) == done + [i];
        WithBranchesSnoc(g0, done, i, noisy);
        assert Closed(mch.Value()) == Closed(g0);
        if !noisy {
          mch.AddMachine(Decoder(i));
          mch.ConnectOn(Encoder(i));
        } else {
          sae.SetPartialBackprop(Autoencoder(i), partial);
          mch.AddMachine(Autoencoder(i));
          if i > 0 {
            mch.ConnectOn(Encoder(i - 1));
          } else {
            mch.ConnectOn(InputHandle);
          }
        }
      } else {
        assert SelectedLayers(pretrainList, i + 1) == done;
      }
    }

    /** The selective machine: the encoders the flagged branches read, then those branches. */
    method BuildSelectiveMachine(pretrainList: seq<int>, topmost: int, partial: bool) returns (g: Graph)
      requires Valid() && |pretrainList| >= sae.N && topmost == Topmost(pretrainList, sae.N)
      modifies sae`partialBackprop
      ensures g == SelectiveGraph(pretrainList, sae.N, sae.isNoisy) && WellFormed(g)
      ensures sae.partialBackprop == SelectivePartial(old(sae.partialBackprop), pretrainList, sae.N, sae.isNoisy, partial)
    {
      TopmostSpec(pretrainList, sae.N);
      var mch := new ConnectedMachine();
      if !sae.isNoisy {
        sae.AddEncodersUpToIncluded(mch, topmost, false);
      } else if pretrainList[0] == 1 {
        sae.AddEncodersUpToIncluded(mch, topmost - 1, true);
      } else {
        sae.AddEncodersUpToIncluded(mch, topmost - 1, false);
      }
      ghost var count, handle := SelectiveEncoderCount(pretrainList, sae.N, sae.isNoisy),
                                 SelectiveHandle(pretrainList, sae.N, sae.isNoisy);
      StackedClosed(count, handle);
      SelectiveSourcesStacked(pretrainList, sae.N, sae.isNoisy);
      AddSelectiveMachines(mch, pretrainList, partial);
      mch.Build();
      g := mch.Value();
    }

    /**
     * The set-up of a selective run: finds the flagged layers, builds the selective machine
     * (switching partial backprop as it goes) and packs the flagged layers' criteria.
     */
    method PrepareSelective(pretrainList: seq<int>, partial: bool) returns (g: Graph, parts: seq<Crit>)
      requires Valid() && |pretrainList| >= sae.N
      modifies sae`partialBackprop
      ensures g == SelectiveGraph(pretrainList, sae.N, sae.isNoisy) && WellFormed(g)
      ensures parts == UnsupCriteria(SelectedLayers(pretrainList, sae.N))
      ensures sae.partialBackprop == SelectivePartial(old(sae.partialBackprop), pretrainList, sae.N, sae.isNoisy, partial)
    {
      var topmost, count := CountFlagged(pretrainList, sae.N);
      g := BuildSelectiveMachine(pretrainList, topmost, partial);
      var criteria := SelectedCriteria(pretrainList, sae.N, count);
      parts := criteria[..];
    }

    /** Switches partial backprop off on every encoder, and on every autoencoder in noisy mode. */
    method ResetPartialBackprop()
      modifies sae`partialBackprop
      ensures sae.partialBackprop == old(sae.partialBackprop) - ResetSet(sae.N, sae.isNoisy)
    {
      ghost var p0 := sae.partialBackprop;
      for i := 0 to sae.N
        invariant sae.partialBackprop == p0 - ResetSet(i, sae.isNoisy)
      {
        LayerSetsSnoc(i);
        sae.SetPartialBackprop(Encoder(i), false);
        if sae.isNoisy {
          sae.SetPartialBackprop(Autoencoder(i), false);
        }
      }
    }

    /**
     * Trains, in one run of the base trainer, the reconstruction criteria of the flagged layers
     * on a machine holding just what those criteria need; partial backprop is switched to
     * `partial` for the run, then off on every encoder (and autoencoder when noisy).
     */
    method TrainSelectiveUnsup(pretrainList: seq<int>, partial: bool)
      requires Valid() && |pretrainList| >= sae.N
      modifies this`machine, this`criterion, this`trace, sae`partialBackprop
      ensures Valid()
      ensures trace == old(trace) + [SelectiveEvent(old(Snapshot()), pretrainList, sae.N, sae.isNoisy, partial)]
      ensures Snapshot() == AfterSelective(old(Snapshot()), sae.N, sae.isNoisy)
    {
      ghost var p0 := sae.partialBackprop;
      var g, parts := PrepareSelective(pretrainList, partial);
      TrainOn(Selective(g), Concat(parts, None), UnsupDataset(0));
      ResetPartialBackprop();
      SelectiveResetForgets(p0, pretrainList, sae.N, sae.isNoisy, partial);
      machine := Sae;
      criterion := SupCriterion;
    }

    // ---- Unsupervised and combined training of the whole stack ----

    /** The parts of a concatenated criterion: those of `head`, then every layer's unsupervised criterion. */
    static method ConcatParts(head: seq<Crit>, n: nat) returns (parts: array<Crit>)
      ensures fresh(parts) && parts[..] == head + UnsupCriteria(AllLayers(n))
    {
      parts := new Crit[|head| + n](_ => SupCriterion);
      for t := 0 to |head|
        invariant forall j :: 0 <= j < t ==> parts[j] == head[j]
      {
        parts[t] := head[t];
      }
      for i := 0 to n
        invariant forall j :: 0 <= j < |head| ==> parts[j] == head[j]
        invariant forall j :: 0 <= j < i ==> parts[|head| + j] == UnsupCriterion(j)
      {
        parts[|head| + i] := UnsupCriterion(i);
      }
      assert parts[..] == head + UnsupCriteria(AllLayers(n));
    }

    /** Writes `w` into the weight of every unsupervised criterion, leaving the supervised weight. */
    method SetUnsupWeights(w: real)
      requires Valid()
      modifies criterionsWeights
      ensures criterionsWeights[..] == [old(criterionsWeights[0])] + Constant(sae.N, w)
    {
      for i := 0 to sae.N
        invariant criterionsWeights[0] == old(criterionsWeights[0])
        invariant forall j :: 1 <= j <= i ==> criterionsWeights[j] == w
      {
        criterionsWeights[1 + i] := w;
      }
      assert criterionsWeights[..] == [old(criterionsWeights[0])] + Constant(sae.N, w);
    }

    /** The set-up of combined training: the data kept, weight 1 for the supervised criterion and `w` for the others. */
    method SetSupUnsupWeights(data: DataRef, w: real)
      requires Valid()
      modifies this`supDataset, criterionsWeights
      ensures Snapshot() == old(Snapshot()).(supDataset := Some(data), criterionsWeights := [1.0] + Constant(sae.N, w))
    {
      supDataset := Some(data);
      criterionsWeights[0] := 1.0;
      SetUnsupWeights(w);
    }

    /**
     * Trains the unsupervised machine on every layer's reconstruction criterion, each weighted
     * 1, the weights being those after the supervised one; the outputer is not trained.
     */
    method TrainUnsupNotOutput()
      requires Valid()
      modifies this`machine, this`criterion, this`trace, criterionsWeights
      ensures Valid()
      ensures trace == old(trace) + [NotOutputEvent(old(Snapshot()), sae.N)]
      ensures Snapshot() == AfterNotOutput(old(Snapshot()), sae.N)
    {
      var parts := ConcatParts([], sae.N);
      var cs := parts[..];
      assert cs == UnsupCriteria(AllLayers(sae.N));
      SetUnsupWeights(1.0);
      var weights := criterionsWeights[1..];
      assert weights == Constant(sae.N, 1.0);
      TrainOn(UnsupMachine, Concat(cs, Some(weights)), UnsupDataset(0));
      machine := Sae;
      criterion := SupCriterion;
    }

    /**
     * Trains the supervised+unsupervised machine on the current criterion, weighted 1, together
     * with every layer's reconstruction criterion, each weighted `unsupWeight`.
     */
    method TrainSupUnsup(data: DataRef, unsupWeight: real)
      requires Valid()
      modifies this`supDataset, this`machine, this`criterion, this`trace, criterionsWeights
      ensures Valid()
      ensures trace == old(trace) + [SupUnsupEvent(old(Snapshot()), sae.N, data, unsupWeight)]
      ensures Snapshot() == AfterSupUnsup(old(Snapshot()), sae.N, data, unsupWeight)
    {
      var parts := ConcatParts([criterion], sae.N);
      var cs := parts[..];
      SetSupUnsupWeights(data, unsupWeight);
      var weights := criterionsWeights[..];
      TrainOn(SupUnsupMachine, Concat(cs, Some(weights)), UnsupDataset(0));
      machine := Sae;
      criterion := SupCriterion;
    }

    /**
     * Combined training with every criterion weighted 1 while the outputer does partial backprop,
     * so that the supervised cost trains the outputer alone; the outputer's flag is then cleared.
     */
    method TrainUnsup(data: DataRef)
      requires Valid()
      modifies this`supDataset, this`machine, this`criterion, this`trace, criterionsWeights, sae`partialBackprop
      ensures Valid()
      ensures trace == old(trace) + [UnsupEvent(old(Snapshot()), sae.N, data)]
      ensures Snapshot() == AfterUnsup(old(Snapshot()), sae.N, data)
    {
      sae.SetPartialBackprop(Outputer, true);
      TrainSupUnsup(data, 1.0);
      sae.SetPartialBackprop(Outputer, false);
      assert old(sae.partialBackprop) + {Outputer} - {Outputer} == old(sae.partialBackprop) - {Outputer};
    }
  }
}
