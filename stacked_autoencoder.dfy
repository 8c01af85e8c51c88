/**
 * The stacked autoencoder: its coders, built from a layer-width table, and the graph views
 * assembled over those shared coders (per-layer autoencoders, cumulative "mesd" machines, the
 * supervised, unsupervised and supervised+unsupervised machines, partial encoder stacks), plus
 * the option setters that decide which coders receive which regularisation option.
 */
module Topology {
  import opened Wrappers
  import opened Graph

  /**
   * A coder as the graph sees it: its widths, whether it is the noisy (destructive) variant,
   * the coder whose weights it shares, whether it is transposed and reparametrised, its
   * nonlinearity and whether its linear layer is the smoothed one.
   */
  datatype Coder = Coder(
    nInputs: int,
    nOutputs: int,
    noisy: bool,
    sharesWith: Option<Module>,
    transposed: bool,
    reparametrized: bool,
    nonlinearity: string,
    smoothed: bool)

  /** The regularisation options the setters write into a coder's layers. */
  datatype OptionName =
    | L1WeightDecay
    | WeightDecay
    | BiasDecay
    | DestructionProbability
    | DestructionValue
    | L1SmoothingDecay
    | L2SmoothingDecay

  /** Option `option` of the coder `target`. */
  datatype Setting = Setting(target: Module, option: OptionName)

  // ---- The graph views, as values ----

  /** Encoders 0..n-1. */
  function Encoders(n: nat): (ms: seq<Module>)
    ensures |ms| == n && forall j :: 0 <= j < n ==> ms[j] == Encoder(j)
  {
    seq(n, j requires 0 <= j < n => Encoder(j))
  }

  /** The coder that reads the input of layer `i`'s reconstruction: the noisy encoder in noisy mode. */
  function Front(i: nat, noisy: bool): Module
  {
    if noisy then NoisyEncoder(i) else Encoder(i)
  }

  function AutoencoderGraph(i: nat, noisy: bool): Graph
  {
    Chain([Front(i, noisy), Decoder(i)])
  }

  function MesdGraph(i: nat, noisy: bool): Graph
  {
    Chain(Encoders(i) + [Front(i, noisy), Decoder(i)])
  }

  function SupGraph(n: nat): Graph
  {
    Chain(Encoders(n) + [Outputer])
  }

  /**
   * The layers of a partial encoder stack of `count` encoders, one per layer, with the input
   * handle beside encoder 0 when `handle` (alone in one layer when there is no encoder).
   */
  function EncoderStack(count: nat, handle: bool): seq<seq<Module>>
  {
    var n := if count == 0 && handle then 1 else count;
    seq(n, j requires 0 <= j < n =>
      (if j < count then [Encoder(j)] else []) + (if j == 0 && handle then [InputHandle] else []))
  }

  /** Encoder j+1 reads encoder j, for every consecutive pair of the stack. */
  function StackLinks(count: nat): seq<Link>
  {
    if count == 0 then []
    else seq(count - 1, j requires 0 <= j < count - 1 => Link(Encoder(j + 1), Encoder(j)))
  }

  /** The reconstruction module of layer `i` in an unsupervised graph. */
  function Branch(i: nat, noisy: bool): Module
  {
    if noisy then Autoencoder(i) else Decoder(i)
  }

  /** The module that branch `i` reads: encoder i, or in noisy mode the layer below it. */
  function BranchSource(i: nat, noisy: bool): Module
  {
    if !noisy then Encoder(i) else if i == 0 then InputHandle else Encoder(i - 1)
  }

  function Branches(ls: seq<nat>, noisy: bool): seq<Module>
  {
    seq(|ls|, t requires 0 <= t < |ls| => Branch(ls[t], noisy))
  }

  function BranchLinks(ls: seq<nat>, noisy: bool): seq<Link>
  {
    seq(|ls|, t requires 0 <= t < |ls| => Link(Branch(ls[t], noisy), BranchSource(ls[t], noisy)))
  }

  /** The layers 0..n-1 in order. */
  function AllLayers(n: nat): (ls: seq<nat>)
    ensures |ls| == n && forall t :: 0 <= t < n ==> ls[t] == t
  {
    seq(n, t requires 0 <= t < n => t)
  }

  /** `g` with the branches of `ls` added to its open layer, each connected on its source. */
  function WithBranches(g: Graph, ls: seq<nat>, noisy: bool): Graph
    requires |g.layers| >= 1
  {
    Graph(Closed(g) + [Open(g) + Branches(ls, noisy)], g.links + BranchLinks(ls, noisy))
  }

  /** `g` with encoders 0..count-1 stacked on it from its open layer on, then a fresh layer. */
  function Stacked(g: Graph, count: nat, handle: bool): Graph
    requires |g.layers| >= 1
  {
    var s := EncoderStack(count, handle);
    if |s| == 0 then g
    else Graph(Closed(g) + [Open(g) + s[0]] + s[1..] + [[]], g.links + StackLinks(count))
  }

  /** The number of encoders the unsupervised machine holds: the last is dropped in noisy mode. */
  function UnsupEncoderCount(n: nat, noisy: bool): nat
  {
    if noisy && n > 0 then n - 1 else n
  }

  /** The unsupervised machine: the encoder stack, then every layer's reconstruction branch. */
  function UnsupGraph(n: nat, noisy: bool): Graph
  {
    var count := UnsupEncoderCount(n, noisy);
    Graph(EncoderStack(count, noisy) + [Branches(AllLayers(n), noisy)],
          StackLinks(count) + BranchLinks(AllLayers(n), noisy))
  }

  /** The supervised+unsupervised machine: all encoders, then the outputer beside every branch. */
  function SupUnsupGraph(n: nat, noisy: bool): Graph
    requires n >= 1
  {
    Graph(EncoderStack(n, noisy) + [[Outputer] + Branches(AllLayers(n), noisy)],
          StackLinks(n) + [Link(Outputer, Encoder(n - 1))] + BranchLinks(AllLayers(n), noisy))
  }

  // ---- Properties of the views ----

  lemma InLayersAppend(a: seq<seq<Module>>, b: seq<seq<Module>>, m: Module)
    ensures InLayers(a + b, m) <==> InLayers(a, m) || InLayers(b, m)
  {
    if InLayers(a + b, m) {
      var j :| 0 <= j < |a + b| && m in (a + b)[j];
      if j >= |a| {
        assert m in b[j - |a|];
      }
    }
    if InLayers(a, m) {
      var j :| 0 <= j < |a| && m in a[j];
      assert m in (a + b)[j];
    }
    if InLayers(b, m) {
      var j :| 0 <= j < |b| && m in b[j];
      assert m in (a + b)[|a| + j];
    }
  }

  /** A partial stack holds exactly encoders 0..count-1, and the input handle exactly when asked. */
  lemma EncoderStackMembers(count: nat, handle: bool, m: Module)
    ensures InLayers(EncoderStack(count, handle), m) <==>
      (m.Encoder? && m.layer < count) || (m == InputHandle && handle)
  {
    var s := EncoderStack(count, handle);
    if m.Encoder? && m.layer < count {
      assert m in s[m.layer];
    }
    if m == InputHandle && handle {
      assert m in s[0];
    }
  }

  /** Encoder j sits in layer j of the stack, the input handle in layer 0, nothing else anywhere. */
  lemma EncoderStackLayers(count: nat, handle: bool)
    ensures |EncoderStack(count, handle)| == (if count == 0 && handle then 1 else count)
    ensures forall j :: 0 <= j < count ==> Encoder(j) in EncoderStack(count, handle)[j]
    ensures handle ==> InputHandle in EncoderStack(count, handle)[0]
    ensures count == 0 && handle ==> EncoderStack(count, handle) == [[InputHandle]]
    ensures forall j :: 1 <= j < count ==> EncoderStack(count, handle)[j] == [Encoder(j)]
  {
    var s := EncoderStack(count, handle);
    if count == 0 && handle {
      assert s[0] == [] + [InputHandle] == [InputHandle];
      assert |s| == 1 && s == [s[0]];
    }
    forall j | 1 <= j < count ensures s[j] == [Encoder(j)] {
      assert s[j] == [Encoder(j)] + [];
    }
  }

  lemma Branches0(noisy: bool)
    ensures Branches([], noisy) == [] && BranchLinks([], noisy) == []
  {
    assert |Branches([], noisy)| == 0 && |BranchLinks([], noisy)| == 0;
  }

  lemma WithBranchesSnoc(g: Graph, ls: seq<nat>, i: nat, noisy: bool)
    requires |g.layers| >= 1
    ensures |Open(WithMachine(WithBranches(g, ls, noisy), Branch(i, noisy)))| > 0
    ensures WithBranches(g, ls + [i], noisy) ==
      WithLink(WithMachine(WithBranches(g, ls, noisy), Branch(i, noisy)), BranchSource(i, noisy))
  {
    var w := WithBranches(g, ls, noisy);
    var b := Branch(i, noisy);
    assert Closed(w) == Closed(g) && Open(w) == Open(g) + Branches(ls, noisy);
    assert Branches(ls + [i], noisy) == Branches(ls, noisy) + [b];
    assert Open(g) + Branches(ls + [i], noisy) == Open(w) + [b];
    assert BranchLinks(ls + [i], noisy) == BranchLinks(ls, noisy) + [Link(Branch(i, noisy), BranchSource(i, noisy))];
  }

  lemma StackedEmpty(count: nat, handle: bool)
    requires count > 0 || handle
    ensures Stacked(Empty, count, handle) == Graph(EncoderStack(count, handle) + [[]], StackLinks(count))
  {
    var s := EncoderStack(count, handle);
    assert [] + s[0] == s[0];
    assert [s[0]] + s[1..] == s;
  }

  lemma EncoderStackSnoc(count: nat, handle: bool)
    requires count >= 1
    ensures EncoderStack(count + 1, handle) == EncoderStack(count, handle) + [[Encoder(count)]]
    ensures StackLinks(count + 1) == StackLinks(count) + [Link(Encoder(count), Encoder(count - 1))]
  {
    var s, s' := EncoderStack(count, handle), EncoderStack(count + 1, handle);
    assert |s'| == |s| + 1;
    forall j | 0 <= j < |s'| ensures s'[j] == (s + [[Encoder(count)]])[j] {
      if j == count {
        assert s'[j] == [Encoder(count)] + [];
      }
    }
  }

  /**
   * In noisy mode the unsupervised machine leaves out the last encoder, whose output nothing
   * would read, and holds every other encoder and the input handle; with one hidden layer its
   * first layer is the input handle alone.
   */
  lemma UnsupNoisyMembers(n: nat)
    requires n >= 1
    ensures !Member(UnsupGraph(n, true), Encoder(n - 1))
    ensures Member(UnsupGraph(n, true), InputHandle)
    ensures forall j :: 0 <= j < n - 1 ==> Member(UnsupGraph(n, true), Encoder(j))
    ensures n == 1 ==> UnsupGraph(n, true).layers[0] == [InputHandle]
  {
    var g := UnsupGraph(n, true);
    var s := EncoderStack(n - 1, true);
    var b := [Branches(AllLayers(n), true)];
    EncoderStackMembers(n - 1, true, Encoder(n - 1));
    InLayersAppend(s, b, Encoder(n - 1));
    assert !InLayers(b, Encoder(n - 1));
    EncoderStackMembers(n - 1, true, InputHandle);
    InLayersAppend(s, b, InputHandle);
    forall j | 0 <= j < n - 1 ensures Member(g, Encoder(j)) {
      EncoderStackMembers(n - 1, true, Encoder(j));
      InLayersAppend(s, b, Encoder(j));
    }
  }

  /** Without noise the unsupervised machine holds every encoder and every decoder, and no handle. */
  lemma UnsupPlainMembers(n: nat)
    ensures forall j :: 0 <= j < n ==> Member(UnsupGraph(n, false), Encoder(j))
    ensures forall j :: 0 <= j < n ==> Member(UnsupGraph(n, false), Decoder(j))
    ensures !Member(UnsupGraph(n, false), InputHandle)
  {
    var g := UnsupGraph(n, false);
    var s := EncoderStack(n, false);
    var b := [Branches(AllLayers(n), false)];
    forall j | 0 <= j < n ensures Member(g, Encoder(j)) && Member(g, Decoder(j)) {
      EncoderStackMembers(n, false, Encoder(j));
      InLayersAppend(s, b, Encoder(j));
      assert |s| == n && Branches(AllLayers(n), false)[j] == Decoder(j);
      assert Decoder(j) in g.layers[n];
    }
    EncoderStackMembers(n, false, InputHandle);
    InLayersAppend(s, b, InputHandle);
    assert !InLayers(b, InputHandle);
  }

  /**
   * In each unsupervised machine branch i reads encoder i (decoder) or, in noisy mode, encoder
   * i-1 or the input handle for i = 0 (autoencoder); the outputer reads encoder N-1 only.
   */
  lemma BranchWiring(n: nat, noisy: bool, i: nat)
    requires n >= 1 && i < n
    ensures Link(Branch(i, noisy), BranchSource(i, noisy)) in UnsupGraph(n, noisy).links
    ensures Link(Branch(i, noisy), BranchSource(i, noisy)) in SupUnsupGraph(n, noisy).links
    ensures !noisy ==> Link(Decoder(i), Encoder(i)) in UnsupGraph(n, noisy).links
    ensures noisy && i > 0 ==> Link(Autoencoder(i), Encoder(i - 1)) in UnsupGraph(n, noisy).links
    ensures noisy && i == 0 ==> Link(Autoencoder(0), InputHandle) in UnsupGraph(n, noisy).links
  {
    var l := Link(Branch(i, noisy), BranchSource(i, noisy));
    assert BranchLinks(AllLayers(n), noisy)[i] == l;
    var c := UnsupEncoderCount(n, noisy);
    assert UnsupGraph(n, noisy).links[|StackLinks(c)| + i] == l;
    assert SupUnsupGraph(n, noisy).links[|StackLinks(n)| + 1 + i] == l;
  }

  lemma OutputerWiring(n: nat, noisy: bool)
    requires n >= 1
    ensures Link(Outputer, Encoder(n - 1)) in SupUnsupGraph(n, noisy).links
    ensures forall k :: 0 <= k < |SupUnsupGraph(n, noisy).links| ==>
      (SupUnsupGraph(n, noisy).links[k].consumer == Outputer ==>
       SupUnsupGraph(n, noisy).links[k].producer == Encoder(n - 1))
  {
    var g := SupUnsupGraph(n, noisy);
    var sl := StackLinks(n);
    assert g.links[|sl|] == Link(Outputer, Encoder(n - 1));
    forall k | 0 <= k < |g.links|
      ensures g.links[k].consumer == Outputer ==> g.links[k].producer == Encoder(n - 1)
    {
      if k < |sl| {
        assert g.links[k] == sl[k];
      } else if k > |sl| {
        assert g.links[k] == BranchLinks(AllLayers(n), noisy)[k - |sl| - 1];
      }
    }
  }

  lemma WithBranchesNone(g: Graph, noisy: bool)
    requires |g.layers| >= 1
    ensures WithBranches(g, [], noisy) == g
  {
    Branches0(noisy);
    assert Open(g) + [] == Open(g);
    assert Closed(g) + [Open(g)] == g.layers;
  }

  /** The first step of a stack: encoder 0, the handle beside it if asked, then a fresh layer. */
  lemma StackedFirst(g: Graph, handle: bool)
    requires |g.layers| >= 1
    ensures Stacked(g, 1, handle) ==
      WithLayer(if handle then WithMachine(WithMachine(g, Encoder(0)), InputHandle) else WithMachine(g, Encoder(0)))
  {
    var s := EncoderStack(1, handle);
    assert s[0] == [Encoder(0)] + (if handle then [InputHandle] else []);
    assert s[1..] == [];
    assert StackLinks(1) == [];
    var g1 := WithMachine(g, Encoder(0));
    assert Closed(g1) == Closed(g) && Open(g1) == Open(g) + [Encoder(0)];
    if handle {
      var g2 := WithMachine(g1, InputHandle);
      assert Open(g2) == Open(g) + [Encoder(0)] + [InputHandle] == Open(g) + s[0];
      assert Closed(g2) == Closed(g);
    } else {
      assert Open(g1) == Open(g) + s[0];
    }
  }

  /** With no encoder to stack, the handle alone goes in the open layer, which is then closed. */
  lemma StackedHandleOnly(g: Graph)
    requires |g.layers| >= 1
    ensures Stacked(g, 0, true) == WithLayer(WithMachine(g, InputHandle))
  {
    EncoderStackLayers(0, true);
    assert StackLinks(0) == [];
  }

  /** One more encoder on a stack of at least one: it goes in a fresh layer, reading the one below. */
  lemma StackedStep(g: Graph, count: nat, handle: bool)
    requires |g.layers| >= 1 && count >= 1
    ensures |Stacked(g, count, handle).layers| >= 1
    ensures var g1 := WithMachine(Stacked(g, count, handle), Encoder(count));
      |Open(g1)| > 0 && InLayers(Closed(g1), Encoder(count - 1)) &&
      WithLayer(WithLink(g1, Encoder(count - 1))) == Stacked(g, count + 1, handle)
  {
    var g0 := Stacked(g, count, handle);
    StackedGrow(g, count, handle);
    StackedTop(g, count, handle);
    var g1 := WithMachine(g0, Encoder(count));
    assert Closed(g1) == Closed(g0);
    assert Open(g1) == [Encoder(count)];
  }

  /** A stack of at least one encoder ends in an empty open layer, its top encoder alone below it. */
  lemma StackedTop(g: Graph, count: nat, handle: bool)
    requires |g.layers| >= 1 && count >= 1
    ensures var g0 := Stacked(g, count, handle);
      |g0.layers| >= 2 && Open(g0) == [] && Encoder(count - 1) in Closed(g0)[|Closed(g0)| - 1] &&
      InLayers(Closed(g0), Encoder(count - 1))
  {
    var s := EncoderStack(count, handle);
    EncoderStackLayers(count, handle);
    var g0 := Stacked(g, count, handle);
    var head := Closed(g) + [Open(g) + s[0]];
    assert g0.layers == head + s[1..] + [[]];
    assert Closed(g0) == head + s[1..];
    if count == 1 {
      assert Closed(g0)[|Closed(g0)| - 1] == Open(g) + s[0];
    } else {
      assert Closed(g0)[|Closed(g0)| - 1] == s[count - 1];
    }
  }

  /** Stacking one more encoder adds its layer above the stack and its link onto the encoder below. */
  lemma StackedGrow(g: Graph, count: nat, handle: bool)
    requires |g.layers| >= 1 && count >= 1
    ensures |Stacked(g, count, handle).layers| >= 1
    ensures Stacked(g, count + 1, handle).layers == Closed(Stacked(g, count, handle)) + [[Encoder(count)], []]
    ensures Stacked(g, count + 1, handle).links ==
      Stacked(g, count, handle).links + [Link(Encoder(count), Encoder(count - 1))]
  {
    var s, s' := EncoderStack(count, handle), EncoderStack(count + 1, handle);
    EncoderStackSnoc(count, handle);
    var head := Closed(g) + [Open(g) + s[0]];
    assert Closed(Stacked(g, count, handle)) == head + s[1..];
    assert s'[0] == s[0];
    assert s'[1..] == s[1..] + [[Encoder(count)]];
  }

  // ---- Which options each setter reaches ----

  function EncoderSettings(n: nat, option: OptionName): set<Setting>
  {
    set i: nat | i < n :: Setting(Encoder(i), option)
  }

  function DecoderSettings(n: nat, option: OptionName): set<Setting>
  {
    set i: nat | i < n :: Setting(Decoder(i), option)
  }

  function NoisyEncoderSettings(n: nat, option: OptionName): set<Setting>
  {
    set i: nat | i < n :: Setting(NoisyEncoder(i), option)
  }

  /** The coders an L1 or L2 weight decay is written to: tied decoders share the encoders' weights. */
  function DecayTargets(n: nat, tied: bool, option: OptionName): set<Setting>
  {
    EncoderSettings(n, option) + {Setting(Outputer, option)} + (if tied then {} else DecoderSettings(n, option))
  }

  function DestructionTargets(n: nat, noisy: bool, option: OptionName): set<Setting>
  {
    if noisy then NoisyEncoderSettings(n, option) else {}
  }

  /** The smoothing decays live on encoder 0's layer alone, and only when that layer is smoothed. */
  function SmoothingTargets(smoothed: bool, option: OptionName): set<Setting>
  {
    if smoothed then {Setting(Encoder(0), option)} else {}
  }

  /** The same value written to every setting of `targets`. */
  function Assign(targets: set<Setting>, v: real): (m: map<Setting, real>)
    ensures m.Keys == targets && forall s :: s in targets ==> m[s] == v
  {
    map s | s in targets :: v
  }

  lemma AssignOne(m: map<Setting, real>, done: set<Setting>, s: Setting, v: real)
    ensures (m + Assign(done, v))[s := v] == m + Assign(done + {s}, v)
  {
  }

  /** Two assignments of the same value in a row are one assignment to both sets of targets. */
  lemma AssignUnion(m: map<Setting, real>, d1: set<Setting>, d2: set<Setting>, v: real)
    ensures m + Assign(d1, v) + Assign(d2, v) == m + Assign(d1 + d2, v)
  {
  }

  /** Two writes of different options extend two assignments at once. */
  lemma AssignTwo(m: map<Setting, real>, d1: set<Setting>, d2: set<Setting>, s1: Setting, s2: Setting, v1: real, v2: real)
    requires s1.option != s2.option
    requires forall s :: s in d1 ==> s.option == s1.option
    requires forall s :: s in d2 ==> s.option == s2.option
    ensures (m + Assign(d1, v1) + Assign(d2, v2))[s1 := v1][s2 := v2] ==
            m + Assign(d1 + {s1}, v1) + Assign(d2 + {s2}, v2)
  {
  }

  lemma EncoderSettingsSnoc(n: nat, option: OptionName)
    ensures EncoderSettings(n + 1, option) == EncoderSettings(n, option) + {Setting(Encoder(n), option)}
    ensures DecoderSettings(n + 1, option) == DecoderSettings(n, option) + {Setting(Decoder(n), option)}
    ensures NoisyEncoderSettings(n + 1, option) == NoisyEncoderSettings(n, option) + {Setting(NoisyEncoder(n), option)}
  {
  }

  /**
   * A weight decay reaches every encoder and the outputer, and the decoders only when their
   * weights are not tied; no other coder and no other option.
   */
  lemma DecayReach(n: nat, tied: bool, option: OptionName, s: Setting)
    ensures s in DecayTargets(n, tied, option) <==>
      s.option == option &&
      ((s.target.Encoder? && s.target.layer < n) || s.target == Outputer ||
       (!tied && s.target.Decoder? && s.target.layer < n))
  {
    if s.option == option && s.target.Encoder? && s.target.layer < n {
      assert s == Setting(Encoder(s.target.layer), option);
    }
    if s.option == option && !tied && s.target.Decoder? && s.target.layer < n {
      assert s == Setting(Decoder(s.target.layer), option);
    }
  }

  /** Destruction options reach the noisy encoders only, and nothing at all without noise. */
  lemma DestructionReach(n: nat, noisy: bool, option: OptionName, s: Setting)
    ensures s in DestructionTargets(n, noisy, option) <==>
      noisy && s.option == option && s.target.NoisyEncoder? && s.target.layer < n
  {
    if noisy && s.option == option && s.target.NoisyEncoder? && s.target.layer < n {
      assert s == Setting(NoisyEncoder(s.target.layer), option);
    }
  }

  // ---- The stacked autoencoder ----

  /** Every view graph of a stack of n coders is well formed. */
  ghost predicate ViewsWellFormed(n: nat, noisy: bool)
    requires n >= 1
  {
    (forall i :: 0 <= i < n ==> WellFormed(AutoencoderGraph(i, noisy)) && WellFormed(MesdGraph(i, noisy))) &&
    WellFormed(SupGraph(n)) && WellFormed(UnsupGraph(n, noisy)) && WellFormed(SupUnsupGraph(n, noisy))
  }

  /**
   * The coders built from a width table: encoder i maps width i to width i+1 (only encoder 0 may be
   * smoothed), noisy encoder i shares encoder i's parameters, decoder i maps back (tied to encoder i
   * when weights are tied), and the outputer maps the last hidden width to the output width.
   */
  ghost predicate CodersFit(widths: seq<int>, n: nat, noisy: bool, tied: bool, reparametrize: bool,
                            nonlinearity: string, smoothed: bool,
                            encoders: seq<Coder>, noisyEncoders: seq<Coder>, decoders: seq<Coder>, outputer: Coder)
  {
    |widths| == n + 2 &&
    |encoders| == n && |decoders| == n && |noisyEncoders| == (if noisy then n else 0) &&
    (forall i :: 0 <= i < n ==>
      encoders[i] == Coder(widths[i], widths[i + 1], false, None, false, false,
                           nonlinearity, i == 0 && smoothed)) &&
    (forall i :: 0 <= i < |noisyEncoders| ==>
      noisyEncoders[i] == Coder(encoders[i].nInputs, encoders[i].nOutputs, true, Some(Encoder(i)),
                                false, false, nonlinearity, false)) &&
    (forall i :: 0 <= i < n ==>
      decoders[i] == Coder(encoders[i].nOutputs, encoders[i].nInputs, false,
                           if tied then Some(Encoder(i)) else None,
                           tied, tied && reparametrize, nonlinearity, false)) &&
    outputer == Coder(widths[n], widths[n + 1], false, None, false, false, "logsoftmax", false)
  }

  /** Autoencoder i and mesd machine i hold the graphs their builders promise, for every layer i < n. */
  ghost predicate LayerViewsFit(n: nat, noisy: bool, autoencoders: seq<Graph>, mesdMachines: seq<Graph>)
  {
    |autoencoders| == n && |mesdMachines| == n &&
    (forall i :: 0 <= i < n ==> autoencoders[i] == AutoencoderGraph(i, noisy)) &&
    (forall i :: 0 <= i < n ==> mesdMachines[i] == MesdGraph(i, noisy))
  }

  class StackedAutoencoder {
    const N: nat
    const isNoisy: bool
    const tiedWeights: bool
    const reparametrizeTied: bool
    const nonlinearity: string
    const firstLayerSmoothed: bool
    /** The input width, the N hidden widths and the output width. */
    const nUnitsPerLayer: seq<int>

    var encoders: seq<Coder>
    /** Empty without noise. */
    var noisyEncoders: seq<Coder>
    var decoders: seq<Coder>
    var outputer: Coder
    /** The built views, each the value its machine holds once built. */
    var autoencoders: seq<Graph>
    var mesdMachines: seq<Graph>
    var supMachine: Graph
    var unsupMachine: Graph
    var supUnsupMachine: Graph
    /** The options written into the coders' layers so far. */
    var options: map<Setting, real>
    /** The coders whose backward pass stops at their own input (partial backprop). */
    var partialBackprop: set<Module>

    constructor (nonlinearity: string, tiedWeights: bool, reparametrizeTied: bool, nInputs: int,
                 nHiddenLayers: nat, nUnitsPerHiddenLayer: seq<int>, nOutputs: int,
                 isNoisy: bool, firstLayerSmoothed: bool)
      requires nHiddenLayers >= 1 && |nUnitsPerHiddenLayer| >= nHiddenLayers
      ensures N == nHiddenLayers && this.isNoisy == isNoisy && this.tiedWeights == tiedWeights
      ensures this.reparametrizeTied == reparametrizeTied && this.nonlinearity == nonlinearity
      ensures this.firstLayerSmoothed == firstLayerSmoothed
      ensures nUnitsPerLayer == [nInputs] + nUnitsPerHiddenLayer[..nHiddenLayers] + [nOutputs]
      ensures CodersFit(nUnitsPerLayer, N, isNoisy, tiedWeights, reparametrizeTied, nonlinearity, firstLayerSmoothed,
                        encoders, noisyEncoders, decoders, outputer)
      ensures LayerViewsFit(N, isNoisy, autoencoders, mesdMachines)
      ensures supMachine == SupGraph(N) && unsupMachine == UnsupGraph(N, isNoisy)
      ensures supUnsupMachine == SupUnsupGraph(N, isNoisy)
      ensures ViewsWellFormed(N, isNoisy)
      ensures options == map[] && partialBackprop == {}
    {
      N := nHiddenLayers;
      this.isNoisy := isNoisy;
      this.tiedWeights := tiedWeights;
      this.reparametrizeTied := reparametrizeTied;
      this.nonlinearity := nonlinearity;
      this.firstLayerSmoothed := firstLayerSmoothed;
      var table := WidthTable(nInputs, nUnitsPerHiddenLayer[..nHiddenLayers], nOutputs);
      nUnitsPerLayer := table[..];
      options, partialBackprop := map[], {};
      new;
      BuildCoders();
      BuildLayerMachines();
      BuildNetworkMachines();
    }

    /** The width table: the input width, then each hidden width in order, then the output width. */
    static method WidthTable(nInputs: int, hidden: seq<int>, nOutputs: int) returns (table: array<int>)
      ensures fresh(table) && table[..] == [nInputs] + hidden + [nOutputs]
    {
      var n := |hidden|;
      table := new int[n + 2];
      table[0] := nInputs;
      for i := 0 to n
        invariant table[0] == nInputs
        invariant forall j :: 0 <= j < i ==> table[j + 1] == hidden[j]
      {
        table[i + 1] := hidden[i];
      }
      table[n + 1] := nOutputs;
    }

    /** The per-layer views: the autoencoders and the mesd machines. */
    method BuildLayerMachines()
      requires N >= 1
      modifies this`autoencoders, this`mesdMachines
      ensures LayerViewsFit(N, isNoisy, autoencoders, mesdMachines)
      ensures forall i :: 0 <= i < N ==> WellFormed(AutoencoderGraph(i, isNoisy)) && WellFormed(MesdGraph(i, isNoisy))
    {
      BuildAutoencoders();
      BuildMesdMachines();
    }

    /** The whole-network views: supervised, unsupervised and both. */
    method BuildNetworkMachines()
      requires N >= 1
      modifies this`supMachine, this`unsupMachine, this`supUnsupMachine
      ensures supMachine == SupGraph(N) && unsupMachine == UnsupGraph(N, isNoisy)
      ensures supUnsupMachine == SupUnsupGraph(N, isNoisy)
      ensures WellFormed(SupGraph(N)) && WellFormed(UnsupGraph(N, isNoisy)) && WellFormed(SupUnsupGraph(N, isNoisy))
    {
      BuildSupMachine();
      BuildUnsupMachine();
      BuildSupUnsupMachine();
    }

    method BuildCoders()
      requires |nUnitsPerLayer| == N + 2
      modifies this`encoders, this`noisyEncoders, this`decoders, this`outputer
      ensures CodersFit(nUnitsPerLayer, N, isNoisy, tiedWeights, reparametrizeTied, nonlinearity, firstLayerSmoothed,
                        encoders, noisyEncoders, decoders, outputer)
    {
      var es: seq<Coder> := [];
      for i := 0 to N
        invariant |es| == i
        invariant forall j :: 0 <= j < i ==>
          es[j] == Coder(nUnitsPerLayer[j], nUnitsPerLayer[j + 1], false, None, false, false,
                         nonlinearity, j == 0 && firstLayerSmoothed)
      {
        var e;
        if i == 0 && firstLayerSmoothed {
          e := Coder(nUnitsPerLayer[i], nUnitsPerLayer[i + 1], false, None, false, false, nonlinearity, true);
        } else {
          e := Coder(nUnitsPerLayer[i], nUnitsPerLayer[i + 1], false, None, false, false, nonlinearity, false);
        }
        es := es + [e];
      }

      var ns: seq<Coder> := [];
      if isNoisy {
        for i := 0 to N
          invariant |ns| == i
          invariant forall j :: 0 <= j < i ==>
            ns[j] == Coder(es[j].nInputs, es[j].nOutputs, true, Some(Encoder(j)), false, false, nonlinearity, false)
        {
          ns := ns + [Coder(es[i].nInputs, es[i].nOutputs, true, Some(Encoder(i)), false, false, nonlinearity, false)];
        }
      }

      var ds: seq<Coder> := [];
      for i := 0 to N
        invariant |ds| == i
        invariant forall j :: 0 <= j < i ==>
          ds[j] == Coder(es[j].nOutputs, es[j].nInputs, false,
                         if tiedWeights then Some(Encoder(j)) else None,
                         tiedWeights, tiedWeights && reparametrizeTied, nonlinearity, false)
      {
        var d;
        if tiedWeights {
          d := Coder(es[i].nOutputs, es[i].nInputs, false, Some(Encoder(i)), true, reparametrizeTied, nonlinearity, false);
        } else {
          d := Coder(es[i].nOutputs, es[i].nInputs, false, None, false, false, nonlinearity, false);
        }
        ds := ds + [d];
      }

      encoders, noisyEncoders, decoders := es, ns, ds;
      outputer := Coder(nUnitsPerLayer[N], nUnitsPerLayer[N + 1], false, None, false, false, "logsoftmax", false);
    }

    method BuildAutoencoders()
      modifies this`autoencoders
      ensures |autoencoders| == N && forall i :: 0 <= i < N ==> autoencoders[i] == AutoencoderGraph(i, isNoisy)
      ensures forall i :: 0 <= i < N ==> WellFormed(AutoencoderGraph(i, isNoisy))
    {
      var views: seq<Graph> := [];
      for i := 0 to N
        invariant |views| == i
        invariant forall j :: 0 <= j < i ==> views[j] == AutoencoderGraph(j, isNoisy) && WellFormed(views[j])
      {
        var g := NewAutoencoder(i, isNoisy);
        views := views + [g];
      }
      autoencoders := views;
    }

    /** Builds autoencoder i on a fresh machine: the noisy-or-plain encoder i, then decoder i. */
    static method NewAutoencoder(i: nat, noisy: bool) returns (g: Graph)
      ensures g == AutoencoderGraph(i, noisy) && WellFormed(g)
    {
      var m := new ConnectedMachine();
      if noisy {
        m.AddFCL(NoisyEncoder(i));
      } else {
        m.AddFCL(Encoder(i));
      }
      ChainSnoc([], Front(i, noisy));
      assert [] + [Front(i, noisy)] == [Front(i, noisy)];
      m.AddFCL(Decoder(i));
      ChainSnoc([Front(i, noisy)], Decoder(i));
      assert [Front(i, noisy)] + [Decoder(i)] == [Front(i, noisy), Decoder(i)];
      m.Build();
      g := m.Value();
    }

    method BuildMesdMachines()
      modifies this`mesdMachines
      ensures |mesdMachines| == N && forall i :: 0 <= i < N ==> mesdMachines[i] == MesdGraph(i, isNoisy)
      ensures forall i :: 0 <= i < N ==> WellFormed(MesdGraph(i, isNoisy))
    {
      var views: seq<Graph> := [];
      for i := 0 to N
        invariant |views| == i
        invariant forall j :: 0 <= j < i ==> views[j] == MesdGraph(j, isNoisy) && WellFormed(views[j])
      {
        var g := NewMesdMachine(i, noisy := isNoisy);
        views := views + [g];
      }
      mesdMachines := views;
    }

    /** Builds mesd machine i on a fresh machine: encoders 0..i-1, the noisy-or-plain encoder i, decoder i. */
    static method NewMesdMachine(i: nat, noisy: bool) returns (g: Graph)
      ensures g == MesdGraph(i, noisy) && WellFormed(g)
    {
      var m := NewEncoderChain(i);
      if noisy {
        m.AddFCL(NoisyEncoder(i));
      } else {
        m.AddFCL(Encoder(i));
      }
      ChainSnoc(Encoders(i), Front(i, noisy));
      m.AddFCL(Decoder(i));
      ChainSnoc(Encoders(i) + [Front(i, noisy)], Decoder(i));
      assert Encoders(i) + [Front(i, noisy)] + [Decoder(i)] == Encoders(i) + [Front(i, noisy), Decoder(i)];
      m.Build();
      g := m.Value();
    }

    /** A fresh open machine holding encoders 0..n-1, one per layer. */
    static method NewEncoderChain(n: nat) returns (m: ConnectedMachine)
      ensures fresh(m) && m.Valid() && !m.built && m.Value() == Chain(Encoders(n))
    {
      m := new ConnectedMachine();
      for j := 0 to n
        invariant fresh(m) && m.Valid() && !m.built && m.Value() == Chain(Encoders(j))
      {
        m.AddFCL(Encoder(j));
        ChainSnoc(Encoders(j), Encoder(j));
        assert Encoders(j) + [Encoder(j)] == Encoders(j + 1);
      }
    }

    /** The supervised machine: the encoders and the outputer chained layer after layer. */
    method BuildSupMachine()
      modifies this`supMachine
      ensures supMachine == SupGraph(N) && WellFormed(SupGraph(N))
    {
      var m := NewEncoderChain(N);
      m.AddFCL(Outputer);
      ChainSnoc(Encoders(N), Outputer);
      m.Build();
      supMachine := m.Value();
    }

    /** Stacks all encoders on `mch`, with the input handle beside encoder 0 in noisy mode. */
    method AddCoreMachines(mch: ConnectedMachine)
      requires mch.Valid() && !mch.built
      modifies mch
      ensures mch.Valid() && !mch.built
      ensures mch.Value() == Stacked(old(mch.Value()), N, isNoisy) || (N == 0 && mch.Value() == old(mch.Value()))
    {
      ghost var g0 := mch.Value();
      for i := 0 to N
        invariant mch.Valid() && !mch.built
        invariant i == 0 ==> mch.Value() == g0
        invariant i > 0 ==> mch.Value() == Stacked(g0, i, isNoisy)
      {
        if i > 0 {
          StackedStep(g0, i, isNoisy);
        }
        mch.AddMachine(Encoder(i));
        if i > 0 {
          mch.ConnectOn(Encoder(i - 1));
        }
        if i == 0 && isNoisy {
          mch.AddMachine(InputHandle);
        }
        mch.AddLayer();
        if i == 0 {
          StackedFirst(g0, isNoisy);
        }
      }
    }

    /**
     * Stacks encoders 0..k on `mch` with the input handle beside encoder 0 when `handle`; with no
     * encoder to stack (k < 0) the handle, if asked for, goes alone in one layer.
     */
    method AddEncodersUpToIncluded(mch: ConnectedMachine, k: int, handle: bool)
      requires mch.Valid() && !mch.built
      requires k < N
      modifies mch
      ensures mch.Valid() && !mch.built
      ensures mch.Value() == Stacked(old(mch.Value()), if k < 0 then 0 else k + 1, handle)
    {
      ghost var g0 := mch.Value();
      var i := 0;
      while i < k + 1
        invariant 0 <= i && (k >= 0 ==> i <= k + 1) && (k < 0 ==> i == 0)
        invariant mch.Valid() && !mch.built
        invariant i == 0 ==> mch.Value() == g0
        invariant i > 0 ==> mch.Value() == Stacked(g0, i, handle)
      {
        if i > 0 {
          StackedStep(g0, i, handle);
        }
        mch.AddMachine(Encoder(i));
        if i > 0 {
          mch.ConnectOn(Encoder(i - 1));
        }
        if i == 0 && handle {
          mch.AddMachine(InputHandle);
        }
        mch.AddLayer();
        if i == 0 {
          StackedFirst(g0, handle);
        }
        i := i + 1;
      }
      if k < 0 && handle {
        mch.AddMachine(InputHandle);
        mch.AddLayer();
        StackedHandleOnly(g0);
      } else if k < 0 {
        assert |EncoderStack(0, false)| == 0;
      }
    }

    /** Adds every layer's reconstruction branch to the open layer of `mch`, each on its source. */
    method AddUnsupMachines(mch: ConnectedMachine)
      requires mch.Valid() && !mch.built
      requires forall i :: 0 <= i < N ==> InLayers(Closed(mch.Value()), BranchSource(i, isNoisy))
      modifies mch
      ensures mch.Valid() && !mch.built
      ensures mch.Value() == WithBranches(old(mch.Value()), AllLayers(N), isNoisy)
    {
      ghost var g0 := mch.Value();
      WithBranchesNone(g0, isNoisy);
      for i := 0 to N
        invariant mch.Valid() && !mch.built
        invariant mch.Value() == WithBranches(g0, AllLayers(i), isNoisy)
      {
        WithBranchesSnoc(g0, AllLayers(i), i, isNoisy);
        assert AllLayers(i) + [i] == AllLayers(i + 1);
        if !isNoisy {
          mch.AddMachine(Decoder(i));
          mch.ConnectOn(Encoder(i));
        } else if i > 0 {
          mch.AddMachine(Autoencoder(i));
          mch.ConnectOn(Encoder(i - 1));
        } else {
          mch.AddMachine(Autoencoder(i));
          mch.ConnectOn(InputHandle);
        }
      }
    }

    /** Every branch source is a member of the stack of `count` encoders this machine sits on. */
    lemma SourcesInStack(count: nat)
      requires count == UnsupEncoderCount(N, isNoisy) || count == N
      ensures forall i :: 0 <= i < N ==> InLayers(EncoderStack(count, isNoisy), BranchSource(i, isNoisy))
    {
      forall i | 0 <= i < N ensures InLayers(EncoderStack(count, isNoisy), BranchSource(i, isNoisy)) {
        EncoderStackMembers(count, isNoisy, BranchSource(i, isNoisy));
      }
    }

    /**
     * The unsupervised machine: the encoders, except the last one in noisy mode, whose output
     * no branch reads; the input handle beside encoder 0 in noisy mode; then the branches.
     */
    method BuildUnsupMachine()
      requires N >= 1
      modifies this`unsupMachine
      ensures unsupMachine == UnsupGraph(N, isNoisy) && WellFormed(UnsupGraph(N, isNoisy))
    {
      var m := new ConnectedMachine();
      AddUnsupEncoders(m);
      var count := UnsupEncoderCount(N, isNoisy);
      StackedEmpty(count, isNoisy);
      SourcesInStack(count);
      AddUnsupMachines(m);
      assert [] + Branches(AllLayers(N), isNoisy) == Branches(AllLayers(N), isNoisy);
      m.Build();
      unsupMachine := m.Value();
    }

    /** The encoder layers of the unsupervised machine, stacked on the empty machine `mch`. */
    method AddUnsupEncoders(mch: ConnectedMachine)
      requires N >= 1
      requires mch.Valid() && !mch.built && mch.Value() == Empty
      modifies mch
      ensures mch.Valid() && !mch.built
      ensures mch.Value() == Stacked(Empty, UnsupEncoderCount(N, isNoisy), isNoisy)
    {
      var count := UnsupEncoderCount(N, isNoisy);
      for i := 0 to N
        invariant mch.Valid() && !mch.built
        invariant i == 0 ==> mch.Value() == Empty
        invariant i > 0 ==> mch.Value() == Stacked(Empty, if i < count then i else count, isNoisy)
      {
        if 0 < i < count {
          StackedStep(Empty, i, isNoisy);
        }
        if i < N - 1 || !isNoisy {
          mch.AddMachine(Encoder(i));
          if i > 0 {
            mch.ConnectOn(Encoder(i - 1));
          }
        }
        if i == 0 && isNoisy {
          mch.AddMachine(InputHandle);
        }
        if i < N - 1 || !isNoisy {
          mch.AddLayer();
        } else if i == 0 && isNoisy {
          mch.AddLayer();
        }
        if i == 0 && count > 0 {
          StackedFirst(Empty, isNoisy);
        } else if i == 0 {
          StackedHandleOnly(Empty);
        }
      }
    }

    /**
     * The supervised+unsupervised machine: all encoders, then in one last layer the outputer,
     * connected on the last encoder alone (never on the input handle), and every branch.
     */
    method BuildSupUnsupMachine()
      requires N >= 1
      modifies this`supUnsupMachine
      ensures supUnsupMachine == SupUnsupGraph(N, isNoisy) && WellFormed(SupUnsupGraph(N, isNoisy))
    {
      var m := new ConnectedMachine();
      AddCoreMachines(m);
      StackedEmpty(N, isNoisy);
      var stack := EncoderStack(N, isNoisy);
      assert m.Value() == Graph(stack + [[]], StackLinks(N));
      EncoderStackMembers(N, isNoisy, Encoder(N - 1));
      assert Closed(m.Value()) == stack && Open(m.Value()) + [Outputer] == [Outputer];
      m.AddMachine(Outputer);
      assert m.layers == stack + [[Outputer]];
      m.ConnectOn(Encoder(N - 1));
      SourcesInStack(N);
      ghost var g := m.Value();
      assert Closed(g) == stack && Open(g) == [Outputer];
      AddUnsupMachines(m);
      m.Build();
      supUnsupMachine := m.Value();
    }

    // ---- Option setters ----

    /** Writes an L1 weight decay to every coder that owns its weights. */
    method SetL1WeightDecay(weightDecay: real)
      modifies this`options
      ensures options == old(options) + Assign(DecayTargets(N, tiedWeights, L1WeightDecay), weightDecay)
    {
      SetDecay(L1WeightDecay, weightDecay);
    }

    /** Writes an L2 weight decay to every coder that owns its weights. */
    method SetL2WeightDecay(weightDecay: real)
      modifies this`options
      ensures options == old(options) + Assign(DecayTargets(N, tiedWeights, WeightDecay), weightDecay)
    {
      SetDecay(WeightDecay, weightDecay);
    }

    /** The encoders, then the outputer, then the decoders unless their weights are tied. */
    method SetDecay(option: OptionName, v: real)
      modifies this`options
      ensures options == old(options) + Assign(DecayTargets(N, tiedWeights, option), v)
    {
      ghost var m0, done := options, EncoderSettings(N, option) + {Setting(Outputer, option)};
      SetOnEncoders(option, v);
      AssignOne(m0, EncoderSettings(N, option), Setting(Outputer, option), v);
      options := options[Setting(Outputer, option) := v];
      if !tiedWeights {
        SetOnDecoders(option, v);
        AssignUnion(m0, done, DecoderSettings(N, option), v);
      } else {
        assert done + {} == done;
      }
    }

    /** Writes one option to every encoder. */
    method SetOnEncoders(option: OptionName, v: real)
      modifies this`options
      ensures options == old(options) + Assign(EncoderSettings(N, option), v)
    {
      ghost var m0 := options;
      for i := 0 to N
        invariant options == m0 + Assign(EncoderSettings(i, option), v)
      {
        AssignOne(m0, EncoderSettings(i, option), Setting(Encoder(i), option), v);
        EncoderSettingsSnoc(i, option);
        options := options[Setting(Encoder(i), option) := v];
      }
    }

    /** Writes one option to every decoder. */
    method SetOnDecoders(option: OptionName, v: real)
      modifies this`options
      ensures options == old(options) + Assign(DecoderSettings(N, option), v)
    {
      ghost var m0 := options;
      for i := 0 to N
        invariant options == m0 + Assign(DecoderSettings(i, option), v)
      {
        AssignOne(m0, DecoderSettings(i, option), Setting(Decoder(i), option), v);
        EncoderSettingsSnoc(i, option);
        options := options[Setting(Decoder(i), option) := v];
      }
    }

    /** Bias decay goes to the encoders only. */
    method SetBiasDecay(biasDecay: real)
      modifies this`options
      ensures options == old(options) + Assign(EncoderSettings(N, BiasDecay), biasDecay)
    {
      SetOnEncoders(BiasDecay, biasDecay);
    }

    /** In noisy mode, both destruction options go to every noisy encoder; otherwise nothing changes. */
    method SetDestructionOptions(destructProb: real, destructValue: real)
      modifies this`options
      ensures options == old(options) + Assign(DestructionTargets(N, isNoisy, DestructionProbability), destructProb)
                                      + Assign(DestructionTargets(N, isNoisy, DestructionValue), destructValue)
    {
      if isNoisy {
        ghost var m0 := options;
        for i := 0 to N
          invariant options == m0 + Assign(NoisyEncoderSettings(i, DestructionProbability), destructProb)
                                  + Assign(NoisyEncoderSettings(i, DestructionValue), destructValue)
        {
          AssignTwo(m0, NoisyEncoderSettings(i, DestructionProbability), NoisyEncoderSettings(i, DestructionValue),
                    Setting(NoisyEncoder(i), DestructionProbability), Setting(NoisyEncoder(i), DestructionValue),
                    destructProb, destructValue);
          EncoderSettingsSnoc(i, DestructionProbability);
          EncoderSettingsSnoc(i, DestructionValue);
          options := options[Setting(NoisyEncoder(i), DestructionProbability) := destructProb];
          options := options[Setting(NoisyEncoder(i), DestructionValue) := destructValue];
        }
      } else {
        assert options == options + Assign({}, destructProb) + Assign({}, destructValue);
      }
    }

    /** With a smoothed first layer, both smoothing decays go to encoder 0; otherwise nothing changes. */
    method SetSmoothingDecay(l1SmoothingDecay: real, l2SmoothingDecay: real)
      modifies this`options
      ensures options == old(options) + Assign(SmoothingTargets(firstLayerSmoothed, L1SmoothingDecay), l1SmoothingDecay)
                                      + Assign(SmoothingTargets(firstLayerSmoothed, L2SmoothingDecay), l2SmoothingDecay)
    {
      if firstLayerSmoothed {
        AssignTwo(options, {}, {}, Setting(Encoder(0), L1SmoothingDecay), Setting(Encoder(0), L2SmoothingDecay),
                  l1SmoothingDecay, l2SmoothingDecay);
        options := options[Setting(Encoder(0), L1SmoothingDecay) := l1SmoothingDecay];
        options := options[Setting(Encoder(0), L2SmoothingDecay) := l2SmoothingDecay];
      } else {
        assert options == options + Assign({}, l1SmoothingDecay) + Assign({}, l2SmoothingDecay);
      }
    }

    /** Switches partial backprop on or off for one coder (the substrate's setPartialBackprop). */
    method SetPartialBackprop(m: Module, on: bool)
      modifies this`partialBackprop
      ensures partialBackprop == if on then old(partialBackprop) + {m} else old(partialBackprop) - {m}
    {
      if on {
        partialBackprop := partialBackprop + {m};
      } else {
        partialBackprop := partialBackprop - {m};
      }
    }
  }
}
