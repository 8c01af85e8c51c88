/**
 * The graph substrate of Torch (ConnectedMachine), as the stacked autoencoder uses it.
 *
 * A machine is a sequence of layers, the last of which is still open: `addMachine` puts a
 * module in the open layer, `addLayer` closes it, `connectOn` makes the module added last
 * read the output of a module of an earlier layer, and `build` freezes the topology. The
 * substrate itself is not part of the modelled repository; the preconditions below are its
 * structural errors (connecting on a module that is not there, mutating a built machine),
 * which abort the run, so that every builder of the repository has to prove it never makes one.
 */
module Graph {
  /** The modules a stacked autoencoder can place in a graph. */
  datatype Module =
    | Encoder(layer: nat)
    | NoisyEncoder(layer: nat)
    | Decoder(layer: nat)
    | Autoencoder(layer: nat)
    | InputHandle
    | Outputer

  /** `consumer` reads the output of `producer`. */
  datatype Link = Link(consumer: Module, producer: Module)

  /** The value of a machine: its layers (the last one open) and its connections in the order made. */
  datatype Graph = Graph(layers: seq<seq<Module>>, links: seq<Link>)

  /** The empty machine a fresh ConnectedMachine holds. */
  const Empty := Graph([[]], [])

  predicate InLayers(layers: seq<seq<Module>>, m: Module)
  {
    exists j :: 0 <= j < |layers| && m in layers[j]
  }

  predicate Member(g: Graph, m: Module)
  {
    InLayers(g.layers, m)
  }

  /** The layers that are closed: every layer but the open one. */
  function Closed(g: Graph): seq<seq<Module>>
    requires |g.layers| >= 1
  {
    g.layers[..|g.layers| - 1]
  }

  function Open(g: Graph): seq<Module>
    requires |g.layers| >= 1
  {
    g.layers[|g.layers| - 1]
  }

  /** A link whose producer sits in a strictly earlier layer than its consumer. */
  predicate Ordered(layers: seq<seq<Module>>, l: Link)
  {
    exists a, b :: 0 <= a < b < |layers| && l.producer in layers[a] && l.consumer in layers[b]
  }

  /** Every connection reads a module that is a member of an earlier layer. */
  predicate WellFormed(g: Graph)
  {
    |g.layers| >= 1 && forall k :: 0 <= k < |g.links| ==> Ordered(g.layers, g.links[k])
  }

  /** Every module of `small` sits in the same-numbered layer of `big`. */
  predicate Covers(small: seq<seq<Module>>, big: seq<seq<Module>>)
  {
    |small| <= |big| && forall j, m :: 0 <= j < |small| && m in small[j] ==> m in big[j]
  }

  lemma OrderedCovered(small: seq<seq<Module>>, big: seq<seq<Module>>, l: Link)
    requires Covers(small, big) && Ordered(small, l)
    ensures Ordered(big, l)
  {
    var a, b :| 0 <= a < b < |small| && l.producer in small[a] && l.consumer in small[b];
    assert l.producer in big[a] && l.consumer in big[b];
  }

  lemma InLayersCovered(small: seq<seq<Module>>, big: seq<seq<Module>>, m: Module)
    requires Covers(small, big) && InLayers(small, m)
    ensures InLayers(big, m)
  {
    var j :| 0 <= j < |small| && m in small[j];
    assert m in big[j];
  }

  // ---- The effect of each substrate operation on the machine's value ----

  function WithMachine(g: Graph, m: Module): Graph
    requires |g.layers| >= 1
  {
    Graph(Closed(g) + [Open(g) + [m]], g.links)
  }

  function WithLayer(g: Graph): Graph
  {
    Graph(g.layers + [[]], g.links)
  }

  function WithLink(g: Graph, target: Module): Graph
    requires |g.layers| >= 1 && |Open(g)| > 0
  {
    Graph(g.layers, g.links + [Link(Open(g)[|Open(g)| - 1], target)])
  }

  /** Connections from `m` onto every module of `producers`, in their order. */
  function FanIn(m: Module, producers: seq<Module>): seq<Link>
  {
    seq(|producers|, t requires 0 <= t < |producers| => Link(m, producers[t]))
  }

  /** addFCL: `m` alone in a fresh layer, fully connected to the layer before it. */
  function WithFCL(g: Graph, m: Module): Graph
    requires |g.layers| >= 1
  {
    var closed := if |Open(g)| == 0 then Closed(g) else g.layers;
    Graph(closed + [[m]], g.links + (if |closed| == 0 then [] else FanIn(m, closed[|closed| - 1])))
  }

  /** A chain: one module per layer, each connected on the one before it. */
  function Chain(ms: seq<Module>): Graph
  {
    if |ms| == 0 then Empty
    else Graph(seq(|ms|, j requires 0 <= j < |ms| => [ms[j]]),
               seq(|ms| - 1, j requires 0 <= j < |ms| - 1 => Link(ms[j + 1], ms[j])))
  }

  /** Adding modules with addFCL one after the other builds their chain. */
  lemma ChainSnoc(ms: seq<Module>, m: Module)
    ensures WithFCL(Chain(ms), m) == Chain(ms + [m])
  {
    var g, h := WithFCL(Chain(ms), m), Chain(ms + [m]);
    if |ms| > 0 {
      assert |Open(Chain(ms))| == 1;
      assert g.layers == h.layers;
      assert g.links == h.links by {
        assert FanIn(m, Chain(ms).layers[|ms| - 1]) == [Link(m, ms[|ms| - 1])];
      }
    }
  }

  lemma ChainWellFormed(ms: seq<Module>)
    ensures WellFormed(Chain(ms))
  {
    var g := Chain(ms);
    forall k | 0 <= k < |g.links| ensures Ordered(g.layers, g.links[k]) {
      assert ms[k] in g.layers[k] && ms[k + 1] in g.layers[k + 1];
    }
  }

  /** The substrate's ConnectedMachine, with the operations the repository calls. */
  class ConnectedMachine {
    var layers: seq<seq<Module>>
    var links: seq<Link>
    var built: bool

    function Value(): Graph
      reads this
    {
      Graph(layers, links)
    }

    ghost predicate Valid()
      reads this
    {
      WellFormed(Value())
    }

    constructor ()
      ensures Valid() && !built && Value() == Empty
    {
      layers, links, built := [[]], [], false;
    }

    method AddMachine(m: Module)
      requires Valid() && !built
      modifies this
      ensures Valid() && !built
      ensures Value() == WithMachine(old(Value()), m)
    {
      ghost var before := layers;
      layers := Closed(Value()) + [Open(Value()) + [m]];
      assert Covers(before, layers);
      forall k | 0 <= k < |links| ensures Ordered(layers, links[k]) {
        OrderedCovered(before, layers, links[k]);
      }
    }

    method AddLayer()
      requires Valid() && !built
      modifies this
      ensures Valid() && !built
      ensures Value() == WithLayer(old(Value()))
    {
      ghost var before := layers;
      layers := layers + [[]];
      assert Covers(before, layers);
      forall k | 0 <= k < |links| ensures Ordered(layers, links[k]) {
        OrderedCovered(before, layers, links[k]);
      }
    }

    /** Connects the module added last on `target`, which must sit in a closed layer. */
    method ConnectOn(target: Module)
      requires Valid() && !built
      requires |Open(Value())| > 0
      requires InLayers(Closed(Value()), target)
      modifies this
      ensures Valid() && !built
      ensures Value() == WithLink(old(Value()), target)
    {
      var open := Open(Value());
      var l := Link(open[|open| - 1], target);
      var a :| 0 <= a < |layers| - 1 && target in layers[a];
      assert l.consumer in layers[|layers| - 1];
      links := links + [l];
    }

    method AddFCL(m: Module)
      requires Valid() && !built
      modifies this
      ensures Valid() && !built
      ensures Value() == WithFCL(old(Value()), m)
    {
      ghost var g0 := Value();
      ghost var closed := if |Open(g0)| == 0 then Closed(g0) else g0.layers;
      if |Open(Value())| > 0 {
        AddLayer();
      }
      assert layers == closed + [[]];
      ghost var mid := Value();
      assert Closed(mid) == closed && Open(mid) == [];
      assert Open(mid) + [m] == [m];
      AddMachine(m);
      assert layers == closed + [[m]];
      if |layers| > 1 {
        var previous := layers[|layers| - 2];
        assert previous == closed[|closed| - 1];
        forall t | 0 <= t < |previous| ensures InLayers(Closed(Value()), previous[t]) {
          assert previous[t] in Closed(Value())[|closed| - 1];
        }
        ConnectOnEach(previous);
      }
    }

    /** Connects the module added last on each of `producers`, in order. */
    method ConnectOnEach(producers: seq<Module>)
      requires Valid() && !built
      requires |Open(Value())| > 0
      requires forall t :: 0 <= t < |producers| ==> InLayers(Closed(Value()), producers[t])
      modifies this
      ensures Valid() && !built
      ensures layers == old(layers)
      ensures links == old(links) + FanIn(Open(old(Value()))[|Open(old(Value()))| - 1], producers)
    {
      ghost var m := Open(Value())[|Open(Value())| - 1];
      var t := 0;
      while t < |producers|
        invariant 0 <= t <= |producers|
        invariant Valid() && !built
        invariant layers == old(layers)
        invariant links == old(links) + FanIn(m, producers[..t])
      {
        ConnectOn(producers[t]);
        assert producers[..t + 1] == producers[..t] + [producers[t]];
        t := t + 1;
      }
      assert producers[..t] == producers;
    }

    method Build()
      requires Valid() && !built
      modifies this
      ensures Valid() && built && Value() == old(Value())
    {
      built := true;
    }
  }
}
