/**
 * The training driver of the stacked autoencoder: the checks it makes on its options before
 * building anything, and the schedule of phases it runs the trainer through — layer-wise
 * (or selective) pretraining, unsupervised training, combined training and supervised
 * training, each only when its iteration cap is nonzero and each with its own learning rate
 * and cap.
 */
module Schedule {
  import opened Wrappers
  import opened Graph
  import opened Topology
  import opened Trainer

  /** The options the checks and the schedule read. An iteration cap of 0 skips its phase. */
  datatype Config = Config(
    nLayers: int,
    reconsCost: string,
    nonlinearity: string,
    corruptProb: real,
    initFromBinners: bool,
    maxIterLwu: int,
    maxIterUc: int,
    maxIterAc: int,
    maxIterSc: int,
    lrLwu: real,
    lrUnsup: real,
    lrSupunsup: real,
    lrSup: real,
    selectiveLayerwisePretraining: bool,
    pretrainLayer1: int,
    pretrainLayer2: int,
    pretrainLayer3: int,
    pretrainLayer4: int,
    partialBackprop: bool,
    unsupTrainsOutputer: bool,
    unsupWeight: real,
    finetuningLayerSpecific: bool,
    lrFtLayer0: real,
    lrFtLayer1: real,
    lrFtLayer2: real,
    lrFtLayer3: real,
    lrFtLayer4: real,
    profileGradients: bool)

  // ---- The checks made before anything is built ----

  /** The fatal errors of the checks, one per check, and the trainer's refusal to profile a noisy stack. */
  datatype ConfigError =
    | XentropyOutOfRange
    | PhaseBeforeBinners
    | LayerSpecificTooDeep
    | ProfilingNoisy

  /**
   * The checks in the order the driver makes them; the first that fails stops the run. A run
   * that passes and fine-tunes layer by layer has at most 4 layers, so its N+1 rates fit the
   * 5-entry rate table.
   */
  function CheckConfig(c: Config): (r: Outcome<ConfigError>)
    ensures r == Fail(XentropyOutOfRange) <==>
      c.reconsCost == "xentropy" && c.nonlinearity != "nonlinear" && c.nonlinearity != "sigmoid"
    ensures r == Fail(PhaseBeforeBinners) <==>
      (c.reconsCost != "xentropy" || c.nonlinearity == "nonlinear" || c.nonlinearity == "sigmoid") &&
      c.initFromBinners && (c.maxIterLwu != 0 || c.maxIterUc != 0 || c.maxIterAc != 0)
    ensures r.Pass? <==>
      (c.reconsCost == "xentropy" ==> c.nonlinearity == "nonlinear" || c.nonlinearity == "sigmoid") &&
      (c.initFromBinners ==> c.maxIterLwu == 0 && c.maxIterUc == 0 && c.maxIterAc == 0) &&
      (c.nLayers > 4 ==> !c.finetuningLayerSpecific)
    ensures r.Pass? && c.finetuningLayerSpecific ==> c.nLayers + 1 <= 5
  {
    if c.reconsCost == "xentropy" && c.nonlinearity != "nonlinear" && c.nonlinearity != "sigmoid" then
      Fail(XentropyOutOfRange)
    else if c.initFromBinners && (c.maxIterLwu != 0 || c.maxIterUc != 0 || c.maxIterAc != 0) then
      Fail(PhaseBeforeBinners)
    else if c.nLayers > 4 && c.finetuningLayerSpecific then
      Fail(LayerSpecificTooDeep)
    else
      Pass
  }

  /** The autoencoders are noisy exactly when inputs are corrupted with positive probability
   *  (main.cc:254-256); the stack that Run is given is built with this setting. */
  function IsNoisy(c: Config): bool
  {
    c.corruptProb > 0.0
  }

  // ---- The selective run's flag table ----

  /** The four per-layer pretraining options, layer 0 first. */
  function PretrainOptions(c: Config): (o: seq<int>)
    ensures |o| == 4
  {
    [c.pretrainLayer1, c.pretrainLayer2, c.pretrainLayer3, c.pretrainLayer4]
  }

  /**
   * The n-entry flag table the selective run reads: its first four slots (those that exist)
   * hold the options; the driver never writes the slots beyond the fourth, and `stale` stands
   * for what they hold.
   */
  function PretrainTable(c: Config, n: nat, stale: seq<int>): (flags: seq<int>)
    requires n <= |stale|
    ensures |flags| == n
  {
    seq(n, i requires 0 <= i < n => if i < 4 then PretrainOptions(c)[i] else stale[i])
  }

  /** With at most four layers, the selective run trains exactly the layers whose option is 1. */
  lemma PretrainSelection(c: Config, n: nat, stale: seq<int>)
    requires n <= 4 && n <= |stale|
    ensures forall i :: i in SelectedLayers(PretrainTable(c, n, stale), n) <==>
      0 <= i < n && PretrainOptions(c)[i] == 1
  {
    var flags := PretrainTable(c, n, stale);
    SelectedLayersSpec(flags, n);
    forall i | 0 <= i < n ensures flags[i] == PretrainOptions(c)[i] {
    }
  }

  /** Writes `v` into slot i of the table; None when the table has no slot i. */
  function WriteSlot(table: Option<seq<int>>, i: nat, v: int): (r: Option<seq<int>>)
    ensures r.Some? <==> table.Some? && i < |table.value|
    ensures r.Some? ==> r.value == table.value[i := v]
  {
    match table
    case None => None
    case Some(t) => if i < |t| then Some(t[i := v]) else None
  }

  /** The table as the driver fills it: the four options written into slots 0..3 whatever n is. */
  function PretrainTableAsWritten(c: Config, n: nat, stale: seq<int>): Option<seq<int>>
    requires n <= |stale|
  {
    var o := PretrainOptions(c);
    WriteSlot(WriteSlot(WriteSlot(WriteSlot(Some(stale[..n]), 0, o[0]), 1, o[1]), 2, o[2]), 3, o[3])
  }

  /**
   * The writes as made fall outside the table exactly when there are fewer than four layers
   * (with the default of two, slots 2 and 3 do not exist); otherwise they fill it as intended.
   */
  lemma PretrainTableOverrun(c: Config, n: nat, stale: seq<int>)
    requires n <= |stale|
    ensures PretrainTableAsWritten(c, n, stale).None? <==> n < 4
    ensures n >= 4 ==> PretrainTableAsWritten(c, n, stale) == Some(PretrainTable(c, n, stale))
  {
    if n >= 4 {
      var o := PretrainOptions(c);
      var t := stale[..n][0 := o[0]][1 := o[1]][2 := o[2]][3 := o[3]];
      assert PretrainTableAsWritten(c, n, stale) == Some(t);
      var u := PretrainTable(c, n, stale);
      forall i | 0 <= i < n ensures t[i] == u[i] {
        if i >= 4 {
          assert t[i] == stale[i];
        }
      }
      assert t == u;
    }
  }

  /** Fills the flag table, writing only the slots it has. */
  method FillPretrainFlags(c: Config, n: nat, stale: seq<int>) returns (flags: array<int>)
    requires n <= |stale|
    ensures fresh(flags) && flags[..] == PretrainTable(c, n, stale)
  {
    ghost var o := PretrainOptions(c);
    flags := new int[n](i requires 0 <= i < n => stale[i]);
    if 0 < n {
      flags[0] := c.pretrainLayer1;
    }
    assert forall i :: 0 <= i < n ==> flags[i] == if i < 1 then o[i] else stale[i];
    if 1 < n {
      flags[1] := c.pretrainLayer2;
    }
    assert forall i :: 0 <= i < n ==> flags[i] == if i < 2 then o[i] else stale[i];
    if 2 < n {
      flags[2] := c.pretrainLayer3;
    }
    assert forall i :: 0 <= i < n ==> flags[i] == if i < 3 then o[i] else stale[i];
    if 3 < n {
      flags[3] := c.pretrainLayer4;
    }
    assert forall i :: 0 <= i < n ==> flags[i] == if i < 4 then o[i] else stale[i];
  }

  // ---- The phases, as effects on the trainer's control state ----

  /** The calls of the base trainer a phase makes, and the state it leaves. */
  datatype Progress = Progress(events: seq<Event>, state: Control)

  /** The five layer-specific fine-tuning rates, layer 0 first, the last for the outputer of a 4-layer stack. */
  function LayerRates(c: Config): (r: seq<real>)
    ensures |r| == 5
  {
    [c.lrFtLayer0, c.lrFtLayer1, c.lrFtLayer2, c.lrFtLayer3, c.lrFtLayer4]
  }

  /** A phase's learning rate and iteration cap, set on the trainer before it runs. */
  function WithOptions(s: Control, rate: real, iters: int): Control
  {
    s.(learningRate := rate, maxIter := iters)
  }

  /** How many calls of the base trainer the pretraining phase makes. */
  function PretrainCount(c: Config, n: nat): nat
  {
    if c.maxIterLwu == 0 then 0 else if c.selectiveLayerwisePretraining then 1 else n
  }

  /** Gradient profiling, switched on before pretraining when asked for. */
  function ProfileOn(c: Config, s: Control): Control
  {
    if c.profileGradients then s.(profileGradients := true) else s
  }

  /** Layer-wise pretraining of every layer, or one selective run on the flagged layers. */
  function PretrainPhase(c: Config, n: nat, noisy: bool, flags: seq<int>, s: Control): Progress
    requires 1 <= n <= |flags|
  {
    if c.maxIterLwu == 0 then Progress([], s)
    else
      var s' := WithOptions(s, c.lrLwu, c.maxIterLwu);
      if !c.selectiveLayerwisePretraining then Progress(LayerwiseEvents(s', AllLayers(n)), AfterLayerwise(s', AllLayers(n)))
      else Progress([SelectiveEvent(s', flags, n, noisy, c.partialBackprop)], AfterSelective(s', n, noisy))
  }

  /** Unsupervised training, with the outputer trained on the supervised cost or not at all. */
  function UnsupPhase(c: Config, n: nat, s: Control): Progress
    requires |s.criterionsWeights| >= 1
  {
    if c.maxIterUc == 0 then Progress([], s)
    else
      var s' := WithOptions(s, c.lrUnsup, c.maxIterUc);
      if c.unsupTrainsOutputer then Progress([UnsupEvent(s', n, SupervisedDataset)], AfterUnsup(s', n, SupervisedDataset))
      else Progress([NotOutputEvent(s', n)], AfterNotOutput(s', n))
  }

  /** Combined training of all the criteria at once. */
  function SupUnsupPhase(c: Config, n: nat, s: Control): Progress
  {
    if c.maxIterAc == 0 then Progress([], s)
    else
      var s' := WithOptions(s, c.lrSupunsup, c.maxIterAc);
      Progress([SupUnsupEvent(s', n, SupervisedDataset, c.unsupWeight)], AfterSupUnsup(s', n, SupervisedDataset, c.unsupWeight))
  }

  /** Gradient profiling, switched off before supervised training when it was switched on. */
  function ProfileOff(c: Config, s: Control): Control
  {
    if c.profileGradients then s.(profileGradients := false) else s
  }

  /** Supervised training, fine-tuning with the layer-specific rates when asked for. */
  function SupervisedPhase(c: Config, n: nat, s: Control): Progress
    requires c.finetuningLayerSpecific ==> n + 1 <= 5
  {
    if c.maxIterSc == 0 then Progress([], s)
    else
      var s' := WithOptions(s, c.lrSup, c.maxIterSc);
      var s'' := if c.finetuningLayerSpecific then s'.(isFinetuning := true, finetuningLearningRates := LayerRates(c)[..n + 1]) else s';
      Progress([Trained(SupervisedDataset, s'')], s'')
  }

  /** The schedule up to supervised training: the first three phases. */
  function Pretraining(c: Config, n: nat, noisy: bool, stale: seq<int>, s: Control): Progress
    requires 1 <= n <= |stale| && |s.criterionsWeights| >= 1
  {
    var p1 := PretrainPhase(c, n, noisy, PretrainTable(c, n, stale), s);
    var p2 := UnsupPhase(c, n, p1.state);
    var p3 := SupUnsupPhase(c, n, p2.state);
    Progress(p1.events + p2.events + p3.events, p3.state)
  }

  /**
   * The whole schedule: profiling on when asked for, the first three phases, profiling off
   * again, then supervised training.
   */
  function Schedule(c: Config, n: nat, noisy: bool, stale: seq<int>, s: Control): Progress
    requires 1 <= n <= |stale| && |s.criterionsWeights| >= 1
    requires c.finetuningLayerSpecific ==> n + 1 <= 5
  {
    var p := Pretraining(c, n, noisy, stale, ProfileOn(c, s));
    var q := SupervisedPhase(c, n, ProfileOff(c, p.state));
    Progress(p.events + q.events, q.state)
  }

  /** The learning rate the first three phases leave: that of the last that ran. */
  function PretrainingRate(c: Config, r: real): real
  {
    if c.maxIterAc != 0 then c.lrSupunsup else if c.maxIterUc != 0 then c.lrUnsup
    else if c.maxIterLwu != 0 then c.lrLwu else r
  }

  /** How many calls of the base trainer the whole schedule makes. */
  function ScheduleCount(c: Config, n: nat): nat
  {
    PretrainCount(c, n) + (if c.maxIterUc != 0 then 1 else 0) + (if c.maxIterAc != 0 then 1 else 0) +
    (if c.maxIterSc != 0 then 1 else 0)
  }

  /** A call of a pretraining or unsupervised phase: on unsupervised data, with the phase's options. */
  predicate UnsupRun(e: Event, rate: real, iters: int, profiling: bool, finetuning: bool)
  {
    e.data.UnsupDataset? && e.control.learningRate == rate && e.control.maxIter == iters &&
    e.control.profileGradients == profiling && e.control.isFinetuning == finetuning
  }

  /** Every call a phase makes is an unsupervised run with the phase's options. */
  predicate AllUnsupRuns(es: seq<Event>, rate: real, iters: int, profiling: bool, finetuning: bool)
  {
    forall k :: 0 <= k < |es| ==> UnsupRun(es[k], rate, iters, profiling, finetuning)
  }

  /** The calls at positions lo..hi-1 are unsupervised runs with the given options. */
  predicate UnsupRunsBetween(es: seq<Event>, lo: int, hi: int, rate: real, iters: int, profiling: bool, finetuning: bool)
  {
    forall k :: 0 <= lo <= k < hi <= |es| ==> UnsupRun(es[k], rate, iters, profiling, finetuning)
  }

  /** Three phases' calls, one after the other, each keep their options in their own positions. */
  lemma UnsupRunsPlaced(xs: seq<Event>, ys: seq<Event>, zs: seq<Event>, x: (real, int), y: (real, int), z: (real, int),
                        profiling: bool, finetuning: bool)
    requires AllUnsupRuns(xs, x.0, x.1, profiling, finetuning)
    requires AllUnsupRuns(ys, y.0, y.1, profiling, finetuning)
    requires AllUnsupRuns(zs, z.0, z.1, profiling, finetuning)
    ensures var es := xs + ys + zs;
      UnsupRunsBetween(es, 0, |xs|, x.0, x.1, profiling, finetuning) &&
      UnsupRunsBetween(es, |xs|, |xs| + |ys|, y.0, y.1, profiling, finetuning) &&
      UnsupRunsBetween(es, |xs| + |ys|, |es|, z.0, z.1, profiling, finetuning) &&
      forall k :: 0 <= k < |es| ==> es[k].data.UnsupDataset?
  {
    var es := xs + ys + zs;
    forall k | 0 <= k < |xs| ensures es[k] == xs[k] {
    }
    forall k | |xs| <= k < |xs| + |ys| ensures es[k] == ys[k - |xs|] {
    }
    forall k | |xs| + |ys| <= k < |es| ensures es[k] == zs[k - |xs| - |ys|] {
    }
  }

  /**
   * What a phase leaves of the state it starts from: profiling and fine-tuning as they were,
   * layer-wise training not switched on, and, when the phase ran, the stacked autoencoder and
   * its supervised criterion back with the phase's options; when it did not, the state untouched.
   */
  predicate Leaves(s: Control, f: Control, ran: bool, rate: real, iters: int)
  {
    f.profileGradients == s.profileGradients && f.isFinetuning == s.isFinetuning &&
    (f.layerwiseTraining ==> s.layerwiseTraining) &&
    if ran then f.machine == Sae && f.criterion == SupCriterion && f.learningRate == rate && f.maxIter == iters
    else f == s
  }

  /** Pretraining makes PretrainCount calls, each with the pretraining options, and keeps the weights. */
  lemma PretrainPhaseRuns(c: Config, n: nat, noisy: bool, flags: seq<int>, s: Control)
    requires 1 <= n <= |flags|
    ensures var p := PretrainPhase(c, n, noisy, flags, s);
      |p.events| == PretrainCount(c, n) &&
      AllUnsupRuns(p.events, c.lrLwu, c.maxIterLwu, s.profileGradients, s.isFinetuning) &&
      p.state.criterionsWeights == s.criterionsWeights &&
      Leaves(s, p.state, c.maxIterLwu != 0, c.lrLwu, c.maxIterLwu)
  {
    var p := PretrainPhase(c, n, noisy, flags, s);
    if c.maxIterLwu != 0 && !c.selectiveLayerwisePretraining {
      var s' := WithOptions(s, c.lrLwu, c.maxIterLwu);
      forall k | 0 <= k < |p.events| ensures UnsupRun(p.events[k], c.lrLwu, c.maxIterLwu, s.profileGradients, s.isFinetuning) {
        assert p.events[k] == LayerEvent(s', AllLayers(n)[k]);
      }
    }
  }

  /** Unsupervised training makes one call, when it runs, with its own options. */
  lemma UnsupPhaseRuns(c: Config, n: nat, s: Control)
    requires |s.criterionsWeights| >= 1
    ensures var p := UnsupPhase(c, n, s);
      |p.events| == (if c.maxIterUc != 0 then 1 else 0) &&
      AllUnsupRuns(p.events, c.lrUnsup, c.maxIterUc, s.profileGradients, s.isFinetuning) &&
      Leaves(s, p.state, c.maxIterUc != 0, c.lrUnsup, c.maxIterUc)
  {
  }

  /** Combined training makes one call, when it runs, with its own options. */
  lemma SupUnsupPhaseRuns(c: Config, n: nat, s: Control)
    ensures var p := SupUnsupPhase(c, n, s);
      |p.events| == (if c.maxIterAc != 0 then 1 else 0) &&
      AllUnsupRuns(p.events, c.lrSupunsup, c.maxIterAc, s.profileGradients, s.isFinetuning) &&
      Leaves(s, p.state, c.maxIterAc != 0, c.lrSupunsup, c.maxIterAc)
  {
  }

  /** Supervised training makes one call, when it runs, on the supervised data and with the state it leaves. */
  lemma SupervisedPhaseRuns(c: Config, n: nat, s: Control)
    requires c.finetuningLayerSpecific ==> n + 1 <= 5
    ensures var p := SupervisedPhase(c, n, s);
      |p.events| == (if c.maxIterSc != 0 then 1 else 0) &&
      (c.maxIterSc != 0 ==>
        p.events[0] == Trained(SupervisedDataset, p.state) &&
        p.state.learningRate == c.lrSup && p.state.maxIter == c.maxIterSc &&
        p.state.isFinetuning == (c.finetuningLayerSpecific || s.isFinetuning) &&
        (c.finetuningLayerSpecific ==> p.state.finetuningLearningRates == LayerRates(c)[..n + 1])) &&
      (c.maxIterSc == 0 ==> p.state == s) &&
      p.state.machine == s.machine && p.state.criterion == s.criterion &&
      p.state.layerwiseTraining == s.layerwiseTraining && p.state.profileGradients == s.profileGradients
  {
  }

  /**
   * The first three phases make their calls in order: the pretraining calls, then the
   * unsupervised call, then the combined call, each with its own phase's rate and cap, and
   * with profiling and fine-tuning as they were.
   */
  lemma PretrainingEvents(c: Config, n: nat, noisy: bool, stale: seq<int>, s: Control)
    requires 1 <= n <= |stale| && |s.criterionsWeights| >= 1
    ensures var es := Pretraining(c, n, noisy, stale, s).events;
      var prof := s.profileGradients;
      var a := PretrainCount(c, n);
      var b := a + (if c.maxIterUc != 0 then 1 else 0);
      var d := b + (if c.maxIterAc != 0 then 1 else 0);
      |es| == d && (forall k :: 0 <= k < |es| ==> es[k].data.UnsupDataset?) &&
      UnsupRunsBetween(es, 0, a, c.lrLwu, c.maxIterLwu, prof, s.isFinetuning) &&
      UnsupRunsBetween(es, a, b, c.lrUnsup, c.maxIterUc, prof, s.isFinetuning) &&
      UnsupRunsBetween(es, b, d, c.lrSupunsup, c.maxIterAc, prof, s.isFinetuning)
  {
    var prof := s.profileGradients;
    var p1 := PretrainPhase(c, n, noisy, PretrainTable(c, n, stale), s);
    PretrainPhaseRuns(c, n, noisy, PretrainTable(c, n, stale), s);
    var p2 := UnsupPhase(c, n, p1.state);
    UnsupPhaseRuns(c, n, p1.state);
    var p3 := SupUnsupPhase(c, n, p2.state);
    SupUnsupPhaseRuns(c, n, p2.state);
    UnsupRunsPlaced(p1.events, p2.events, p3.events, (c.lrLwu, c.maxIterLwu), (c.lrUnsup, c.maxIterUc),
                    (c.lrSupunsup, c.maxIterAc), prof, s.isFinetuning);
  }

  /**
   * The first three phases leave profiling and fine-tuning as they were, layer-wise
   * training off, the learning rate of the last phase that ran, and, when any ran, the stacked
   * autoencoder and its supervised criterion.
   */
  lemma PretrainingState(c: Config, n: nat, noisy: bool, stale: seq<int>, s: Control)
    requires 1 <= n <= |stale| && |s.criterionsWeights| >= 1
    ensures var f := Pretraining(c, n, noisy, stale, s).state;
      f.profileGradients == s.profileGradients && f.isFinetuning == s.isFinetuning &&
      (f.layerwiseTraining ==> s.layerwiseTraining) && f.learningRate == PretrainingRate(c, s.learningRate) &&
      (c.maxIterLwu != 0 || c.maxIterUc != 0 || c.maxIterAc != 0 ==> f.machine == Sae && f.criterion == SupCriterion) &&
      (c.maxIterLwu == 0 && c.maxIterUc == 0 && c.maxIterAc == 0 ==> f.machine == s.machine && f.criterion == s.criterion)
  {
    var p1 := PretrainPhase(c, n, noisy, PretrainTable(c, n, stale), s);
    PretrainPhaseRuns(c, n, noisy, PretrainTable(c, n, stale), s);
    var p2 := UnsupPhase(c, n, p1.state);
    UnsupPhaseRuns(c, n, p1.state);
    var p3 := SupUnsupPhase(c, n, p2.state);
    SupUnsupPhaseRuns(c, n, p2.state);
  }

  lemma UnsupRunsExtended(xs: seq<Event>, ys: seq<Event>, lo: int, hi: int, rate: real, iters: int, profiling: bool, finetuning: bool)
    requires hi <= |xs| && UnsupRunsBetween(xs, lo, hi, rate, iters, profiling, finetuning)
    ensures UnsupRunsBetween(xs + ys, lo, hi, rate, iters, profiling, finetuning)
  {
    forall k | 0 <= lo <= k < hi ensures (xs + ys)[k] == xs[k] {
    }
  }

  /**
   * The whole schedule makes its calls in phase order: first the pretraining calls, then the
   * unsupervised call, then the combined call, each with its own phase's rate and cap and with
   * profiling as asked for, and last the supervised call.
   */
  lemma ScheduleOrder(c: Config, n: nat, noisy: bool, stale: seq<int>, s: Control)
    requires 1 <= n <= |stale| && |s.criterionsWeights| >= 1
    requires c.finetuningLayerSpecific ==> n + 1 <= 5
    requires !s.profileGradients && !s.isFinetuning
    ensures var es := Schedule(c, n, noisy, stale, s).events;
      var a := PretrainCount(c, n);
      var b := a + (if c.maxIterUc != 0 then 1 else 0);
      var d := b + (if c.maxIterAc != 0 then 1 else 0);
      |es| == ScheduleCount(c, n) &&
      UnsupRunsBetween(es, 0, a, c.lrLwu, c.maxIterLwu, c.profileGradients, false) &&
      UnsupRunsBetween(es, a, b, c.lrUnsup, c.maxIterUc, c.profileGradients, false) &&
      UnsupRunsBetween(es, b, d, c.lrSupunsup, c.maxIterAc, c.profileGradients, false)
  {
    var p := Pretraining(c, n, noisy, stale, ProfileOn(c, s));
    PretrainingEvents(c, n, noisy, stale, ProfileOn(c, s));
    var q := SupervisedPhase(c, n, ProfileOff(c, p.state));
    SupervisedPhaseRuns(c, n, ProfileOff(c, p.state));
    var a := PretrainCount(c, n);
    var b := a + (if c.maxIterUc != 0 then 1 else 0);
    UnsupRunsExtended(p.events, q.events, 0, a, c.lrLwu, c.maxIterLwu, c.profileGradients, false);
    UnsupRunsExtended(p.events, q.events, a, b, c.lrUnsup, c.maxIterUc, c.profileGradients, false);
    UnsupRunsExtended(p.events, q.events, b, |p.events|, c.lrSupunsup, c.maxIterAc, c.profileGradients, false);
  }

  /**
   * The supervised call, when there is one, comes last, on the supervised data, with its own
   * rate and cap, profiling off and, when asked for, layer-by-layer fine-tuning with the
   * layer-specific rates; no call before it trains on the supervised data.
   */
  lemma SupervisedLast(c: Config, n: nat, noisy: bool, stale: seq<int>, s: Control)
    requires 1 <= n <= |stale| && |s.criterionsWeights| >= 1
    requires c.finetuningLayerSpecific ==> n + 1 <= 5
    requires !s.profileGradients && !s.isFinetuning
    ensures var es := Schedule(c, n, noisy, stale, s).events;
      (forall k :: 0 <= k < |es| ==> (es[k].data == SupervisedDataset <==> c.maxIterSc != 0 && k == |es| - 1)) &&
      (c.maxIterSc != 0 ==>
        es[|es| - 1].control.learningRate == c.lrSup && es[|es| - 1].control.maxIter == c.maxIterSc &&
        !es[|es| - 1].control.profileGradients &&
        es[|es| - 1].control.isFinetuning == c.finetuningLayerSpecific &&
        (c.finetuningLayerSpecific ==> es[|es| - 1].control.finetuningLearningRates == LayerRates(c)[..n + 1]))
  {
    var p := Pretraining(c, n, noisy, stale, ProfileOn(c, s));
    PretrainingEvents(c, n, noisy, stale, ProfileOn(c, s));
    PretrainingState(c, n, noisy, stale, ProfileOn(c, s));
    var q := SupervisedPhase(c, n, ProfileOff(c, p.state));
    SupervisedPhaseRuns(c, n, ProfileOff(c, p.state));
    var es := p.events + q.events;
    forall k | 0 <= k < |es| ensures es[k].data == SupervisedDataset <==> c.maxIterSc != 0 && k == |es| - 1 {
      if k < |p.events| {
        assert es[k] == p.events[k];
      } else {
        assert es[k] == q.events[0];
      }
    }
  }

  /**
   * After the schedule the trainer is back on the stacked autoencoder and its supervised
   * criterion with the learning rate of the last phase run, layer-wise training and profiling
   * are off, and fine-tuning is on exactly when supervised training fine-tuned layer by layer.
   */
  lemma ScheduleFinalState(c: Config, n: nat, noisy: bool, stale: seq<int>, s: Control)
    requires 1 <= n <= |stale| && |s.criterionsWeights| >= 1
    requires c.finetuningLayerSpecific ==> n + 1 <= 5
    requires s.machine == Sae && s.criterion == SupCriterion && !s.layerwiseTraining
    requires !s.profileGradients && !s.isFinetuning
    ensures var f := Schedule(c, n, noisy, stale, s).state;
      f.machine == Sae && f.criterion == SupCriterion && !f.layerwiseTraining && !f.profileGradients &&
      f.learningRate == (if c.maxIterSc != 0 then c.lrSup else PretrainingRate(c, s.learningRate)) &&
      (f.isFinetuning <==> c.maxIterSc != 0 && c.finetuningLayerSpecific)
  {
    var p := Pretraining(c, n, noisy, stale, ProfileOn(c, s));
    PretrainingState(c, n, noisy, stale, ProfileOn(c, s));
    SupervisedPhaseRuns(c, n, ProfileOff(c, p.state));
  }

  // ---- The driver ----

  /** Pretraining, set up as the driver sets it up. */
  method PretrainStage(c: Config, t: StackedAutoencoderTrainer, stale: seq<int>)
    requires t.Valid() && t.sae.N <= |stale|
    modifies t`machine, t`criterion, t`layerwiseTraining, t`layerwiseLayer, t`trace, t`learningRate, t`maxIter
    modifies t.sae`partialBackprop
    ensures t.Valid()
    ensures t.trace == old(t.trace) + PretrainPhase(c, t.sae.N, t.sae.isNoisy, PretrainTable(c, t.sae.N, stale), old(t.Snapshot())).events
    ensures t.Snapshot() == PretrainPhase(c, t.sae.N, t.sae.isNoisy, PretrainTable(c, t.sae.N, stale), old(t.Snapshot())).state
  {
    if c.maxIterLwu != 0 && !c.selectiveLayerwisePretraining {
      t.SetLearningRate(c.lrLwu);
      t.SetMaxIter(c.maxIterLwu);
      t.TrainUnsupLayerwise();
    }
    if c.maxIterLwu != 0 && c.selectiveLayerwisePretraining {
      t.SetLearningRate(c.lrLwu);
      t.SetMaxIter(c.maxIterLwu);
      var flags := FillPretrainFlags(c, t.sae.N, stale);
      t.TrainSelectiveUnsup(flags[..], c.partialBackprop);
    }
  }

  /** Unsupervised training, set up as the driver sets it up. */
  method UnsupStage(c: Config, t: StackedAutoencoderTrainer)
    requires t.Valid()
    modifies t`supDataset, t`machine, t`criterion, t`trace, t`learningRate, t`maxIter, t.criterionsWeights
    modifies t.sae`partialBackprop
    ensures t.Valid()
    ensures t.trace == old(t.trace) + UnsupPhase(c, t.sae.N, old(t.Snapshot())).events
    ensures t.Snapshot() == UnsupPhase(c, t.sae.N, old(t.Snapshot())).state
  {
    if c.maxIterUc != 0 {
      t.SetLearningRate(c.lrUnsup);
      t.SetMaxIter(c.maxIterUc);
      if c.unsupTrainsOutputer {
        t.TrainUnsup(SupervisedDataset);
      } else {
        t.TrainUnsupNotOutput();
      }
    }
  }

  /** Combined training, set up as the driver sets it up. */
  method SupUnsupStage(c: Config, t: StackedAutoencoderTrainer)
    requires t.Valid()
    modifies t`supDataset, t`machine, t`criterion, t`trace, t`learningRate, t`maxIter, t.criterionsWeights
    ensures t.Valid()
    ensures t.trace == old(t.trace) + SupUnsupPhase(c, t.sae.N, old(t.Snapshot())).events
    ensures t.Snapshot() == SupUnsupPhase(c, t.sae.N, old(t.Snapshot())).state
  {
    if c.maxIterAc != 0 {
      t.SetLearningRate(c.lrSupunsup);
      t.SetMaxIter(c.maxIterAc);
      t.TrainSupUnsup(SupervisedDataset, c.unsupWeight);
    }
  }

  /** Copies the first N+1 layer-specific rates into the trainer's fine-tuning rates. */
  method CopyLayerRates(c: Config, t: StackedAutoencoderTrainer)
    requires t.Valid() && t.sae.N + 1 <= 5
    modifies t.finetuningLearningRates
    ensures t.finetuningLearningRates[..] == LayerRates(c)[..t.sae.N + 1]
  {
    var tmp := new real[5];
    tmp[0], tmp[1], tmp[2], tmp[3], tmp[4] := c.lrFtLayer0, c.lrFtLayer1, c.lrFtLayer2, c.lrFtLayer3, c.lrFtLayer4;
    assert tmp[..] == LayerRates(c);
    for i := 0 to t.sae.N + 1
      invariant tmp[..] == LayerRates(c)
      invariant forall j :: 0 <= j < i ==> t.finetuningLearningRates[j] == LayerRates(c)[j]
    {
      t.finetuningLearningRates[i] := tmp[i];
    }
  }

  /** Supervised training, set up as the driver sets it up. */
  method SupervisedStage(c: Config, t: StackedAutoencoderTrainer)
    requires t.Valid() && (c.finetuningLayerSpecific ==> t.sae.N + 1 <= 5)
    modifies t`isFinetuning, t`trace, t`learningRate, t`maxIter, t.finetuningLearningRates
    ensures t.Valid()
    ensures t.trace == old(t.trace) + SupervisedPhase(c, t.sae.N, old(t.Snapshot())).events
    ensures t.Snapshot() == SupervisedPhase(c, t.sae.N, old(t.Snapshot())).state
  {
    if c.maxIterSc != 0 {
      t.SetLearningRate(c.lrSup);
      t.SetMaxIter(c.maxIterSc);
      if c.finetuningLayerSpecific {
        t.isFinetuning := true;
        CopyLayerRates(c, t);
      }
      t.Train(SupervisedDataset);
    }
  }

  /**
   * Profiling on when asked for; `ok` is false, and nothing has changed, when the trainer
   * refuses to profile a noisy stack.
   */
  method ProfileOnStage(c: Config, t: StackedAutoencoderTrainer) returns (ok: bool)
    modifies t`profileGradients
    ensures ok <==> !(c.profileGradients && t.sae.isNoisy)
    ensures t.Snapshot() == if ok then ProfileOn(c, old(t.Snapshot())) else old(t.Snapshot())
  {
    ok := true;
    if c.profileGradients {
      ok := t.ProfileGradientsInitialize();
    }
  }

  /** The first three phases, as the driver runs them. */
  method PretrainingStages(c: Config, t: StackedAutoencoderTrainer, stale: seq<int>)
    requires t.Valid() && t.sae.N <= |stale|
    modifies t`machine, t`criterion, t`layerwiseTraining, t`layerwiseLayer, t`trace, t`learningRate, t`maxIter
    modifies t`supDataset, t.criterionsWeights, t.sae`partialBackprop
    ensures t.Valid()
    ensures t.trace == old(t.trace) + Pretraining(c, t.sae.N, t.sae.isNoisy, stale, old(t.Snapshot())).events
    ensures t.Snapshot() == Pretraining(c, t.sae.N, t.sae.isNoisy, stale, old(t.Snapshot())).state
  {
    ghost var s0, trace0 := t.Snapshot(), t.trace;
    ghost var p1 := PretrainPhase(c, t.sae.N, t.sae.isNoisy, PretrainTable(c, t.sae.N, stale), s0);
    PretrainStage(c, t, stale);
    ghost var p2 := UnsupPhase(c, t.sae.N, p1.state);
    UnsupStage(c, t);
    assert t.trace == trace0 + p1.events + p2.events;
    ghost var p3 := SupUnsupPhase(c, t.sae.N, p2.state);
    SupUnsupStage(c, t);
    assert t.trace == trace0 + p1.events + p2.events + p3.events;
    assert t.Snapshot() == p3.state;
  }

  /** Profiling off again before supervised training, when it was switched on. */
  method ProfileOffStage(c: Config, t: StackedAutoencoderTrainer)
    modifies t`profileGradients
    ensures t.Snapshot() == ProfileOff(c, old(t.Snapshot()))
  {
    if c.profileGradients {
      t.profileGradients := false;
    }
  }

  /** What the driver ends with: the first failing check, else the refusal to profile a noisy stack. */
  function RunOutcome(c: Config): (r: Outcome<ConfigError>)
    ensures CheckConfig(c).Fail? ==> r == CheckConfig(c)
    ensures r == Fail(ProfilingNoisy) <==> CheckConfig(c).Pass? && c.profileGradients && IsNoisy(c)
    ensures r.Pass? <==> CheckConfig(c).Pass? && !(c.profileGradients && c.corruptProb > 0.0)
  {
    if CheckConfig(c).Fail? then CheckConfig(c)
    else if c.profileGradients && IsNoisy(c) then Fail(ProfilingNoisy)
    else Pass
  }

  /**
   * The driver: the checks, then, when they pass, profiling on when asked for, the first three
   * phases, profiling off again, and supervised training. The trainer must have been built for
   * the configured number of layers and noise.
   */
  method Run(c: Config, t: StackedAutoencoderTrainer, stale: seq<int>) returns (outcome: Outcome<ConfigError>)
    requires t.Valid() && c.nLayers == t.sae.N && t.sae.isNoisy == IsNoisy(c) && t.sae.N <= |stale|
    modifies t, t.criterionsWeights, t.finetuningLearningRates, t.sae`partialBackprop
    ensures outcome == RunOutcome(c)
    ensures outcome.Fail? ==> t.trace == old(t.trace) && t.Snapshot() == old(t.Snapshot())
    ensures outcome.Pass? ==>
      t.trace == old(t.trace) + Schedule(c, t.sae.N, t.sae.isNoisy, stale, old(t.Snapshot())).events &&
      t.Snapshot() == Schedule(c, t.sae.N, t.sae.isNoisy, stale, old(t.Snapshot())).state
  {
    outcome := CheckConfig(c);
    if outcome.Fail? {
      return;
    }
    ghost var s0, trace0 := t.Snapshot(), t.trace;
    var ok := ProfileOnStage(c, t);
    if !ok {
      outcome := Fail(ProfilingNoisy);
      return;
    }
    ghost var p := Pretraining(c, t.sae.N, t.sae.isNoisy, stale, ProfileOn(c, s0));
    PretrainingStages(c, t, stale);
    ProfileOffStage(c, t);
    ghost var q := SupervisedPhase(c, t.sae.N, ProfileOff(c, p.state));
    SupervisedStage(c, t);
    assert t.trace == trace0 + p.events + q.events;
  }
}
