/**
 * Flat indexing over the parameter groups of a gradient machine, as the analysis tools use it.
 *
 * A Torch `Parameters` object holds its reals in groups, group `g` being a buffer of `size[g]`
 * entries. The analysis tools see the groups as one flat vector: group `g` starts at the sum of
 * the sizes of the groups before it. The functions below are that flat view (`Sum`, `Offset`,
 * `Flatten`) and what the operations compute on it; the methods are the operations themselves,
 * working in place on the group buffers.
 *
 * The machine's forward and backward passes are external: what the backward pass of one example
 * adds to the derivatives is given as that example's gradient, one sequence per group.
 */
module ParameterSpace {
  import opened Wrappers

  // ---- The flat view of a list of groups ----

  function Sum(sizes: seq<nat>): nat
  {
    if |sizes| == 0 then 0 else Sum(sizes[..|sizes| - 1]) + sizes[|sizes| - 1]
  }

  /** Where group `g` starts in the flat vector: the sizes of the groups before it, added up. */
  function Offset(sizes: seq<nat>, g: nat): nat
    requires g <= |sizes|
  {
    Sum(sizes[..g])
  }

  function Shape(groups: seq<seq<real>>): seq<nat>
  {
    seq(|groups|, g requires 0 <= g < |groups| => |groups[g]|)
  }

  /** The groups laid end to end. */
  function Flatten(groups: seq<seq<real>>): seq<real>
  {
    if |groups| == 0 then [] else Flatten(groups[..|groups| - 1]) + groups[|groups| - 1]
  }

  function Zeros(n: nat): seq<real>
  {
    seq(n, _ => 0.0)
  }

  function ZeroGroups(sizes: seq<nat>): (z: seq<seq<real>>)
    ensures Shape(z) == sizes
  {
    seq(|sizes|, g requires 0 <= g < |sizes| => Zeros(sizes[g]))
  }

  /** Two lists of groups of one shape, added entry by entry. */
  function AddGroups(a: seq<seq<real>>, b: seq<seq<real>>): (c: seq<seq<real>>)
    requires Shape(a) == Shape(b)
    ensures Shape(c) == Shape(a)
  {
    seq(|a|, g requires 0 <= g < |a| =>
      assert Shape(a)[g] == Shape(b)[g];
      seq(|a[g]|, k requires 0 <= k < |a[g]| => a[g][k] + b[g][k]))
  }

  /** The derivatives accumulated over `examples`, starting from cleared ones. */
  function Accumulated(sizes: seq<nat>, examples: seq<seq<seq<real>>>): (acc: seq<seq<real>>)
    requires forall e :: 0 <= e < |examples| ==> Shape(examples[e]) == sizes
    ensures Shape(acc) == sizes
  {
    if |examples| == 0 then ZeroGroups(sizes)
    else AddGroups(Accumulated(sizes, examples[..|examples| - 1]), examples[|examples| - 1])
  }

  function Scaled(v: seq<real>, divisor: real): seq<real>
    requires divisor != 0.0
  {
    seq(|v|, i requires 0 <= i < |v| => v[i] / divisor)
  }

  /** The vector `a + stepsize * b`, over the length of `a`. */
  function Axpy(a: seq<real>, b: seq<real>, stepsize: real): seq<real>
    requires |a| <= |b|
  {
    seq(|a|, i requires 0 <= i < |a| => a[i] + stepsize * b[i])
  }

  /** Every entry of group `g` moved by `stepsize` times the entry of `direction` at its flat index. */
  function Stepped(groups: seq<seq<real>>, direction: seq<real>, stepsize: real): (s: seq<seq<real>>)
    requires Sum(Shape(groups)) <= |direction|
    ensures Shape(s) == Shape(groups)
  {
    seq(|groups|, g requires 0 <= g < |groups| =>
      OffsetBound(Shape(groups), g);
      seq(|groups[g]|, k requires 0 <= k < |groups[g]| =>
        groups[g][k] + stepsize * direction[Offset(Shape(groups), g) + k]))
  }

  function Dot(a: seq<real>, b: seq<real>): real
    requires |a| == |b|
  {
    if |a| == 0 then 0.0 else Dot(a[..|a| - 1], b[..|b| - 1]) + a[|a| - 1] * b[|b| - 1]
  }

  // ---- Lemmas on offsets ----

  lemma OffsetNext(sizes: seq<nat>, g: nat)
    requires g < |sizes|
    ensures Offset(sizes, g + 1) == Offset(sizes, g) + sizes[g]
  {
    assert sizes[..g + 1][..g] == sizes[..g];
  }

  lemma {:induction false} OffsetMonotone(sizes: seq<nat>, g: nat, h: nat)
    requires g <= h <= |sizes|
    ensures Offset(sizes, g) <= Offset(sizes, h)
    decreases h - g
  {
    if g < h {
      OffsetNext(sizes, g);
      OffsetMonotone(sizes, g + 1, h);
    }
  }

  /** Group `g` lies entirely inside the flat vector. */
  lemma OffsetBound(sizes: seq<nat>, g: nat)
    requires g < |sizes|
    ensures Offset(sizes, g) + sizes[g] <= Sum(sizes)
  {
    OffsetNext(sizes, g);
    OffsetMonotone(sizes, g + 1, |sizes|);
    assert sizes[..|sizes|] == sizes;
  }

  /** Two slots of the flat vector that come from different groups, or from different entries of
   *  one group, are different slots: no slot is written twice. */
  lemma OffsetsDisjoint(sizes: seq<nat>, g: nat, k: nat, h: nat, l: nat)
    requires g < |sizes| && k < sizes[g] && h < |sizes| && l < sizes[h]
    requires Offset(sizes, g) + k == Offset(sizes, h) + l
    ensures g == h && k == l
  {
    if g < h {
      OffsetNext(sizes, g);
      OffsetMonotone(sizes, g + 1, h);
    } else if h < g {
      OffsetNext(sizes, h);
      OffsetMonotone(sizes, h + 1, g);
    }
  }

  /** Offsets within the first `n` groups do not depend on the groups after them. */
  lemma OffsetPrefix(sizes: seq<nat>, n: nat, g: nat)
    requires g <= n <= |sizes|
    ensures Offset(sizes[..n], g) == Offset(sizes, g)
  {
    assert sizes[..n][..g] == sizes[..g];
  }

  /** The group and the entry a slot of the flat vector comes from: every slot has one, so no
   *  slot is left unwritten. */
  function Locate(sizes: seq<nat>, i: nat): (slot: (nat, nat))
    requires i < Sum(sizes)
    ensures slot.0 < |sizes| && slot.1 < sizes[slot.0] && Offset(sizes, slot.0) + slot.1 == i
  {
    var n := |sizes| - 1;
    assert sizes[..n + 1] == sizes;
    if i >= Sum(sizes[..n]) then (n, i - Sum(sizes[..n]))
    else
      var slot := Locate(sizes[..n], i);
      OffsetPrefix(sizes, n, slot.0);
      slot
  }

  lemma ShapePrefix(groups: seq<seq<real>>, g: nat)
    requires g <= |groups|
    ensures Shape(groups[..g]) == Shape(groups)[..g]
  {
  }

  lemma {:induction false} FlattenLength(groups: seq<seq<real>>)
    ensures |Flatten(groups)| == Sum(Shape(groups))
  {
    if |groups| > 0 {
      var n := |groups| - 1;
      FlattenLength(groups[..n]);
      ShapePrefix(groups, n);
    }
  }

  /** Entry `k` of group `g` sits at flat index `Offset(g) + k`. */
  lemma {:induction false} FlattenAt(groups: seq<seq<real>>, g: nat, k: nat)
    requires g < |groups| && k < |groups[g]|
    ensures Offset(Shape(groups), g) + k < |Flatten(groups)|
    ensures Flatten(groups)[Offset(Shape(groups), g) + k] == groups[g][k]
  {
    var n := |groups| - 1;
    FlattenLength(groups[..n]);
    ShapePrefix(groups, n);
    if g == n {
      ShapePrefix(groups, g);
    } else {
      FlattenAt(groups[..n], g, k);
      ShapePrefix(groups, g);
      ShapePrefix(groups[..n], g);
      assert groups[..n][..g] == groups[..g];
    }
  }

  // ---- Lemmas connecting the group operations with the flat vector ----

  /** Adding groups entry by entry adds their flat vectors entry by entry. */
  lemma {:induction false} FlattenAdd(a: seq<seq<real>>, b: seq<seq<real>>)
    requires Shape(a) == Shape(b)
    ensures |Flatten(a)| == |Flatten(b)|
    ensures Flatten(AddGroups(a, b)) == Axpy(Flatten(a), Flatten(b), 1.0)
  {
    FlattenLength(a);
    FlattenLength(b);
    if |a| > 0 {
      var n := |a| - 1;
      ShapePrefix(a, n);
      ShapePrefix(b, n);
      assert AddGroups(a, b)[..n] == AddGroups(a[..n], b[..n]);
      FlattenAdd(a[..n], b[..n]);
    }
  }

  /** The step of the first `n` groups is the step of those groups alone. */
  lemma SteppedPrefix(groups: seq<seq<real>>, direction: seq<real>, stepsize: real, n: nat)
    requires Sum(Shape(groups)) <= |direction| && n <= |groups|
    ensures Sum(Shape(groups[..n])) <= |direction|
    ensures Stepped(groups, direction, stepsize)[..n] == Stepped(groups[..n], direction, stepsize)
  {
    var sizes := Shape(groups);
    ShapePrefix(groups, n);
    OffsetMonotone(sizes, n, |sizes|);
    assert sizes[..|sizes|] == sizes;
    forall g | 0 <= g < n
      ensures Stepped(groups, direction, stepsize)[..n][g] == Stepped(groups[..n], direction, stepsize)[g]
    {
      OffsetPrefix(sizes, n, g);
    }
  }

  /** A step in parameter space moves the flat parameter vector by `stepsize * direction`. */
  lemma {:induction false} FlattenStepped(groups: seq<seq<real>>, direction: seq<real>, stepsize: real)
    requires Sum(Shape(groups)) <= |direction|
    ensures |Flatten(groups)| <= |direction|
    ensures Flatten(Stepped(groups, direction, stepsize)) == Axpy(Flatten(groups), direction, stepsize)
  {
    FlattenLength(groups);
    if |groups| > 0 {
      var n := |groups| - 1;
      var s := Stepped(groups, direction, stepsize);
      SteppedPrefix(groups, direction, stepsize, n);
      FlattenStepped(groups[..n], direction, stepsize);
      FlattenLength(groups[..n]);
      ShapePrefix(groups, n);
      var t := |Flatten(groups[..n])|;
      assert t == Offset(Shape(groups), n);
      AxpySnoc(Flatten(groups[..n]), groups[n], s[n], direction, stepsize);
    }
  }

  /** Axpy over a vector split in two, where the second part is stepped from offset `|a|` on. */
  lemma AxpySnoc(a: seq<real>, b: seq<real>, c: seq<real>, direction: seq<real>, stepsize: real)
    requires |a| + |b| <= |direction| && |c| == |b|
    requires forall k :: 0 <= k < |b| ==> c[k] == b[k] + stepsize * direction[|a| + k]
    ensures Axpy(a, direction, stepsize) + c == Axpy(a + b, direction, stepsize)
  {
    var x, y := Axpy(a, direction, stepsize) + c, Axpy(a + b, direction, stepsize);
    forall i | 0 <= i < |y| ensures x[i] == y[i] {
      if i >= |a| {
        assert x[i] == c[i - |a|];
      }
    }
  }

  /** The accumulated derivatives, flattened, are the sum of the flattened per-example gradients. */
  lemma {:induction false} FlattenAccumulated(sizes: seq<nat>, examples: seq<seq<seq<real>>>, i: nat)
    requires forall e :: 0 <= e < |examples| ==> Shape(examples[e]) == sizes
    requires i < Sum(sizes)
    ensures forall e :: 0 <= e < |examples| ==> i < |Flatten(examples[e])|
    ensures i < |Flatten(Accumulated(sizes, examples))|
    ensures Flatten(Accumulated(sizes, examples))[i] == AccumulatedAt(examples, i)
  {
    forall e | 0 <= e < |examples| ensures i < |Flatten(examples[e])| {
      FlattenLength(examples[e]);
    }
    FlattenLength(Accumulated(sizes, examples));
    if |examples| == 0 {
      FlattenZero(sizes, i);
    } else {
      var n := |examples| - 1;
      FlattenAccumulated(sizes, examples[..n], i);
      FlattenAdd(Accumulated(sizes, examples[..n]), examples[n]);
    }
  }

  /** Entry `i` of the flattened gradients of `examples`, added up. */
  function AccumulatedAt(examples: seq<seq<seq<real>>>, i: nat): real
    requires forall e :: 0 <= e < |examples| ==> i < |Flatten(examples[e])|
  {
    if |examples| == 0 then 0.0
    else AccumulatedAt(examples[..|examples| - 1], i) + Flatten(examples[|examples| - 1])[i]
  }

  lemma {:induction false} FlattenZero(sizes: seq<nat>, i: nat)
    requires i < Sum(sizes)
    ensures i < |Flatten(ZeroGroups(sizes))| && Flatten(ZeroGroups(sizes))[i] == 0.0
  {
    FlattenLength(ZeroGroups(sizes));
    var n := |sizes| - 1;
    assert sizes[..n + 1] == sizes;
    assert ZeroGroups(sizes)[..n] == ZeroGroups(sizes[..n]);
    FlattenLength(ZeroGroups(sizes[..n]));
    if i < Sum(sizes[..n]) {
      FlattenZero(sizes[..n], i);
    }
  }

  // ---- The projected variance ----

  function SumOf(xs: seq<real>): real
  {
    if |xs| == 0 then 0.0 else SumOf(xs[..|xs| - 1]) + xs[|xs| - 1]
  }

  /** The squares of `xs`, taken about `center` when `centered` holds and about 0 otherwise, added up. */
  function Squares(xs: seq<real>, center: real, centered: bool): real
  {
    if |xs| == 0 then 0.0
    else
      var x := if centered then xs[|xs| - 1] - center else xs[|xs| - 1];
      Squares(xs[..|xs| - 1], center, centered) + x * x
  }

  function Mean(xs: seq<real>): real
  {
    if |xs| == 0 then 0.0 else SumOf(xs) / |xs| as real
  }

  /** The sample variance of `xs` (divided by one less than their number); `None` for a single
   *  value, where the division by zero gives a value that is not a finite number. With no value
   *  at all the sum of squares is empty and the quotient is zero. */
  function Variance(xs: seq<real>, centered: bool): Option<real>
  {
    if |xs| == 1 then None else Some(Squares(xs, Mean(xs), centered) / (|xs| - 1) as real)
  }

  /** The gradient of each example, flattened, projected on `direction`. */
  function Projections(examples: seq<seq<seq<real>>>, direction: seq<real>): (p: seq<real>)
    requires forall e :: 0 <= e < |examples| ==> |Flatten(examples[e])| == |direction|
    ensures |p| == |examples|
  {
    seq(|examples|, e requires 0 <= e < |examples| => Dot(direction, Flatten(examples[e])))
  }

  lemma {:induction false} SquaresNonNegative(xs: seq<real>, center: real, centered: bool)
    ensures Squares(xs, center, centered) >= 0.0
  {
    if |xs| > 0 {
      SquaresNonNegative(xs[..|xs| - 1], center, centered);
    }
  }

  /** The variance is never negative, and it is zero for an empty dataset. */
  lemma VarianceNonNegative(xs: seq<real>, centered: bool)
    ensures Variance(xs, centered).Some? ==> Variance(xs, centered).value >= 0.0
    ensures |xs| == 0 ==> Variance(xs, centered) == Some(0.0)
  {
    SquaresNonNegative(xs, Mean(xs), centered);
  }

  // ---- Directions read from a file ----

  /** Why loading stopped, with the 0-based line it stopped on. */
  datatype LoadError =
    | TooManyTokens(line: nat)
    | WrongTokenCount(line: nat, loaded: nat)

  /** A directions file, already split into lines of tokens, and whether its last line is
   *  ended by a newline. */
  datatype DirectionsFile = DirectionsFile(lines: seq<seq<real>>, endsWithNewline: bool)

  /** The line that the `i`-th `getline` yields. Past the end of the file `getline` fails without
   *  erasing its buffer once the end of the stream has been hit: after a last line ended by a
   *  newline (or in an empty file) the buffer was left empty by the read that hit the end, and
   *  after a last line with no newline the buffer still holds that line. */
  function LineAt(file: DirectionsFile, i: nat): seq<real>
  {
    if i < |file.lines| then file.lines[i]
    else if !file.endsWithNewline && |file.lines| > 0 then file.lines[|file.lines| - 1]
    else []
  }

  /** A line is accepted when it has exactly `n` tokens. */
  function CheckLine(line: seq<real>, i: nat, n: nat): Outcome<LoadError>
  {
    if |line| > n then Fail(TooManyTokens(i))
    else if |line| != n then Fail(WrongTokenCount(i, |line|))
    else Pass
  }

  /** The outcome of checking the first `k` lines, stopping at the first bad one. */
  function CheckDirections(file: DirectionsFile, k: nat, n: nat): Outcome<LoadError>
  {
    if k == 0 then Pass
    else if CheckDirections(file, k - 1, n).Fail? then CheckDirections(file, k - 1, n)
    else CheckLine(LineAt(file, k - 1), k - 1, n)
  }

  /** Loading passes exactly when every one of the `k` lines has `n` tokens, and a failure names
   *  the first line that does not, with the right error. */
  lemma {:induction false} CheckDirectionsMeaning(file: DirectionsFile, k: nat, n: nat)
    ensures CheckDirections(file, k, n).Pass? <==> forall i :: 0 <= i < k ==> |LineAt(file, i)| == n
    ensures CheckDirections(file, k, n).Fail? ==>
      var i := CheckDirections(file, k, n).error.line;
      i < k && |LineAt(file, i)| != n &&
      (forall j :: 0 <= j < i ==> |LineAt(file, j)| == n) &&
      CheckDirections(file, k, n).error == CheckLine(LineAt(file, i), i, n).error
  {
    if k > 0 {
      CheckDirectionsMeaning(file, k - 1, n);
    }
  }

  /** Once a line fails, checking more lines keeps that failure. */
  lemma {:induction false} CheckDirectionsSticky(file: DirectionsFile, k: nat, m: nat, n: nat)
    requires k <= m && CheckDirections(file, k, n).Fail?
    ensures CheckDirections(file, m, n) == CheckDirections(file, k, n)
    decreases m - k
  {
    if k < m {
      CheckDirectionsSticky(file, k, m - 1, n);
    }
  }

  // ---- Parameter groups ----

  /** A Torch `Parameters` object: `data[g]` is the buffer of group `g`, `size[g]` its length. */
  class Parameters {
    const data: seq<array<real>>

    constructor (data: seq<array<real>>)
      ensures this.data == data
    {
      this.data := data;
    }

    /** Different groups never share a buffer. */
    predicate Valid()
    {
      forall g, h :: 0 <= g < h < |data| ==> data[g] != data[h]
    }

    function Sizes(): (sizes: seq<nat>)
      ensures |sizes| == |data|
    {
      seq(|data|, g requires 0 <= g < |data| => data[g].Length)
    }

    function Values(): (v: seq<seq<real>>)
      reads data
      ensures Shape(v) == Sizes()
    {
      seq(|data|, g requires 0 <= g < |data| reads data => data[g][..])
    }

    /** Part way through a pass over the groups: the first `i` groups hold `front`, the others
     *  still hold `back`. */
    ghost predicate Holds(front: seq<seq<real>>, back: seq<seq<real>>, i: nat)
      requires Shape(front) == Sizes() && Shape(back) == Sizes()
      reads data
    {
      (forall g, k :: 0 <= g < i && g < |data| && 0 <= k < data[g].Length ==>
         assert Shape(front)[g] == Sizes()[g];
         data[g][k] == front[g][k]) &&
      (forall g, k :: i <= g < |data| && 0 <= k < data[g].Length ==>
         assert Shape(back)[g] == Sizes()[g];
         data[g][k] == back[g][k])
    }

    lemma HoldsStart(front: seq<seq<real>>, back: seq<seq<real>>)
      requires Shape(front) == Sizes() && Values() == back
      ensures Holds(front, back, 0)
    {
      forall g, k | 0 <= g < |data| && 0 <= k < data[g].Length ensures data[g][k] == back[g][k] {
        assert back[g] == data[g][..];
      }
    }

    lemma HoldsEnd(front: seq<seq<real>>, back: seq<seq<real>>)
      requires Shape(front) == Sizes() && Shape(back) == Sizes()
      requires Holds(front, back, |data|)
      ensures Values() == front
    {
      forall g | 0 <= g < |data| ensures Values()[g] == front[g] {
        assert Shape(front)[g] == Sizes()[g];
      }
    }
  }

  // ---- The operations ----

  /** GetNParams: the number of parameters of all groups together. */
  method GetNParams(params: Parameters) returns (n: nat)
    ensures n == Sum(params.Sizes())
  {
    var sizes := params.Sizes();
    n := 0;
    var i := 0;
    while i < |params.data|
      invariant 0 <= i <= |params.data|
      invariant n == Sum(sizes[..i])
    {
      assert sizes[..i + 1][..i] == sizes[..i];
      n := n + params.data[i].Length;
      i := i + 1;
    }
    assert sizes[..i] == sizes;
  }

  /** Sets every entry of one buffer to zero (the memset of a group). */
  method ClearGroup(a: array<real>)
    modifies a
    ensures forall k :: 0 <= k < a.Length ==> a[k] == 0.0
  {
    var j := 0;
    while j < a.Length
      invariant 0 <= j <= a.Length
      invariant forall k :: 0 <= k < j ==> a[k] == 0.0
    {
      a[j] := 0.0;
      j := j + 1;
    }
  }

  /** ClearDerivatives: every entry of every derivative group becomes zero. */
  method ClearDerivatives(der: Parameters)
    requires der.Valid()
    modifies der.data
    ensures der.Values() == ZeroGroups(der.Sizes())
  {
    ghost var before := der.Values();
    ghost var zero := ZeroGroups(der.Sizes());
    der.HoldsStart(zero, before);
    var i := 0;
    while i < |der.data|
      invariant 0 <= i <= |der.data|
      invariant der.Holds(zero, before, i)
    {
      ClearGroupAt(der, before, i);
      i := i + 1;
    }
    der.HoldsEnd(zero, before);
  }

  /** Group `i` of ClearDerivatives. */
  method ClearGroupAt(der: Parameters, ghost before: seq<seq<real>>, i: nat)
    requires der.Valid() && Shape(before) == der.Sizes() && i < |der.data|
    requires der.Holds(ZeroGroups(der.Sizes()), before, i)
    modifies der.data[i]
    ensures der.Holds(ZeroGroups(der.Sizes()), before, i + 1)
  {
    ClearGroup(der.data[i]);
  }

  /** Adds `x` to one buffer, entry by entry. */
  method AddGroup(a: array<real>, x: seq<real>)
    requires |x| == a.Length
    modifies a
    ensures forall k :: 0 <= k < a.Length ==> a[k] == old(a[k]) + x[k]
  {
    var j := 0;
    while j < a.Length
      invariant 0 <= j <= a.Length
      invariant forall k :: 0 <= k < j ==> a[k] == old(a[k]) + x[k]
      invariant forall k :: j <= k < a.Length ==> a[k] == old(a[k])
    {
      a[j] := a[j] + x[j];
      j := j + 1;
    }
  }

  /** The effect of the machine's backward pass on one example: the example's gradient is added
   *  to the derivatives. */
  method Backward(der: Parameters, example: seq<seq<real>>)
    requires der.Valid() && Shape(example) == der.Sizes()
    modifies der.data
    ensures der.Values() == AddGroups(old(der.Values()), example)
  {
    ghost var before := der.Values();
    ghost var after := AddGroups(before, example);
    der.HoldsStart(after, before);
    var i := 0;
    while i < |der.data|
      invariant 0 <= i <= |der.data|
      invariant der.Holds(after, before, i)
    {
      BackwardGroup(der, example, before, i);
      i := i + 1;
    }
    der.HoldsEnd(after, before);
  }

  /** Group `i` of one backward pass. */
  method BackwardGroup(der: Parameters, example: seq<seq<real>>, ghost before: seq<seq<real>>, i: nat)
    requires der.Valid() && Shape(example) == der.Sizes() && Shape(before) == der.Sizes()
    requires i < |der.data| && der.Holds(AddGroups(before, example), before, i)
    modifies der.data[i]
    ensures der.Holds(AddGroups(before, example), before, i + 1)
  {
    assert Shape(example)[i] == der.Sizes()[i];
    AddGroup(der.data[i], example[i]);
  }

  /** Writes one group, each entry divided by `divisor`, at `offset` of the flat vector `v`. */
  method CopyNormalizedGroup(a: array<real>, v: array<real>, offset: nat, divisor: real)
    requires a != v && divisor != 0.0 && offset + a.Length <= v.Length
    modifies v
    ensures v[..] == old(v[..offset]) + Scaled(a[..], divisor) + old(v[offset + a.Length..])
  {
    var i := 0;
    while i < a.Length
      invariant 0 <= i <= a.Length
      invariant forall k :: 0 <= k < v.Length && !(offset <= k < offset + i) ==> v[k] == old(v[k])
      invariant forall k :: 0 <= k < i ==> v[offset + k] == a[k] / divisor
    {
      v[offset + i] := a[i] / divisor;
      i := i + 1;
    }
    ghost var w := old(v[..offset]) + Scaled(a[..], divisor) + old(v[offset + a.Length..]);
    forall k | 0 <= k < v.Length ensures v[k] == w[k] {
      if offset <= k < offset + a.Length {
        assert v[offset + (k - offset)] == a[k - offset] / divisor;
      }
    }
  }

  /** Writes one group as it is at `offset` of the flat vector `v`. */
  method CopyGroup(a: array<real>, v: array<real>, offset: nat)
    requires a != v && offset + a.Length <= v.Length
    modifies v
    ensures v[..] == old(v[..offset]) + a[..] + old(v[offset + a.Length..])
  {
    var i := 0;
    while i < a.Length
      invariant 0 <= i <= a.Length
      invariant forall k :: 0 <= k < v.Length && !(offset <= k < offset + i) ==> v[k] == old(v[k])
      invariant forall k :: 0 <= k < i ==> v[offset + k] == a[k]
    {
      v[offset + i] := a[i];
      i := i + 1;
    }
    ghost var w := old(v[..offset]) + a[..] + old(v[offset + a.Length..]);
    forall k | 0 <= k < v.Length ensures v[k] == w[k] {
      if offset <= k < offset + a.Length {
        assert v[offset + (k - offset)] == a[k - offset];
      }
    }
  }

  lemma ScaledAppend(a: seq<real>, b: seq<real>, divisor: real)
    requires divisor != 0.0
    ensures Scaled(a + b, divisor) == Scaled(a, divisor) + Scaled(b, divisor)
  {
  }

  /** The flat offset reached after group `pg`, and the length of the groups before it laid flat. */
  lemma FlatPrefix(values: seq<seq<real>>, pg: nat)
    requires pg < |values|
    ensures |Flatten(values[..pg])| == Offset(Shape(values), pg)
    ensures Offset(Shape(values), pg + 1) == Offset(Shape(values), pg) + |values[pg]|
    ensures Offset(Shape(values), pg + 1) <= Sum(Shape(values))
    ensures Flatten(values[..pg + 1]) == Flatten(values[..pg]) + values[pg]
  {
    var sizes := Shape(values);
    OffsetNext(sizes, pg);
    OffsetMonotone(sizes, pg + 1, |sizes|);
    assert sizes[..|sizes|] == sizes;
    assert values[..pg + 1][..pg] == values[..pg];
    FlattenLength(values[..pg]);
    ShapePrefix(values, pg);
  }

  /** The copy-and-normalize loop of EvaluateGradient: group `pg` goes, divided by `divisor`, to
   *  offset `Offset(pg)` of `gradient`; the slots past the last group are left alone. */
  method CopyNormalized(der: Parameters, gradient: array<real>, divisor: real)
    requires divisor != 0.0 && gradient !in der.data
    requires Sum(der.Sizes()) <= gradient.Length
    modifies gradient
    ensures gradient[..] ==
      Scaled(Flatten(der.Values()), divisor) + old(gradient[Sum(der.Sizes())..])
  {
    ghost var values := der.Values();
    ghost var rest := gradient[..];
    var offset := 0;
    var pg := 0;
    while pg < |der.data|
      invariant 0 <= pg <= |der.data|
      invariant offset == Offset(der.Sizes(), pg) <= gradient.Length
      invariant gradient[..] == Scaled(Flatten(values[..pg]), divisor) + rest[offset..]
    {
      CopyNormalizedAt(der, gradient, divisor, values, rest, pg, offset);
      offset := offset + der.data[pg].Length;
      pg := pg + 1;
    }
    assert values[..pg] == values;
    assert der.Sizes()[..pg] == der.Sizes();
  }

  /** Group `pg` of the copy-and-normalize loop. */
  method CopyNormalizedAt(der: Parameters, gradient: array<real>, divisor: real,
                          ghost values: seq<seq<real>>, ghost rest: seq<real>, pg: nat, offset: nat)
    requires divisor != 0.0 && gradient !in der.data && values == der.Values()
    requires pg < |der.data| && offset == Offset(der.Sizes(), pg)
    requires Sum(der.Sizes()) <= gradient.Length == |rest| && offset <= |rest|
    requires gradient[..] == Scaled(Flatten(values[..pg]), divisor) + rest[offset..]
    modifies gradient
    ensures Offset(der.Sizes(), pg + 1) == offset + der.data[pg].Length <= |rest|
    ensures gradient[..] == Scaled(Flatten(values[..pg + 1]), divisor) + rest[offset + der.data[pg].Length..]
  {
    FlatPrefix(values, pg);
    var a := der.data[pg];
    assert a[..] == values[pg];
    ghost var before := gradient[..];
    assert before[..offset] == Scaled(Flatten(values[..pg]), divisor);
    assert before[offset + a.Length..] == rest[offset + a.Length..];
    CopyNormalizedGroup(a, gradient, offset, divisor);
    ScaledAppend(Flatten(values[..pg]), values[pg], divisor);
  }

  /** Adding a gradient to cleared derivatives gives that gradient. */
  lemma AddToZero(sizes: seq<nat>, x: seq<seq<real>>)
    requires Shape(x) == sizes
    ensures AddGroups(ZeroGroups(sizes), x) == x
  {
    var z := AddGroups(ZeroGroups(sizes), x);
    forall g | 0 <= g < |x| ensures z[g] == x[g] {
      assert Shape(x)[g] == sizes[g];
    }
  }

  /** Sets every entry of a vector to zero. */
  method ZeroVector(v: array<real>)
    modifies v
    ensures v[..] == Zeros(v.Length)
  {
    var i := 0;
    while i < v.Length
      invariant 0 <= i <= v.Length
      invariant v[..i] == Zeros(i)
    {
      v[i] := 0.0;
      assert v[..i + 1] == v[..i] + [0.0];
      i := i + 1;
    }
    assert v[..] == v[..i];
  }

  /** The pass over the dataset: the backward pass of every example, in order, starting from
   *  cleared derivatives. */
  method AccumulateExamples(der: Parameters, examples: seq<seq<seq<real>>>)
    requires der.Valid()
    requires forall e :: 0 <= e < |examples| ==> Shape(examples[e]) == der.Sizes()
    requires der.Values() == ZeroGroups(der.Sizes())
    modifies der.data
    ensures der.Values() == Accumulated(der.Sizes(), examples)
  {
    var sizes := der.Sizes();
    var e := 0;
    while e < |examples|
      invariant 0 <= e <= |examples|
      invariant der.Values() == Accumulated(sizes, examples[..e])
    {
      Backward(der, examples[e]);
      assert examples[..e + 1][..e] == examples[..e];
      e := e + 1;
    }
    assert examples[..e] == examples;
  }

  /** EvaluateGradient: the gradient averaged over the dataset, laid out flat in `gradient`, with
   *  the slots past the parameters zeroed; the derivatives are left cleared. */
  method EvaluateGradient(der: Parameters, examples: seq<seq<seq<real>>>, gradient: array<real>)
    requires der.Valid() && gradient !in der.data
    requires forall e :: 0 <= e < |examples| ==> Shape(examples[e]) == der.Sizes()
    requires |examples| > 0
    requires Sum(der.Sizes()) <= gradient.Length
    modifies der.data, gradient
    ensures gradient[..] ==
      Scaled(Flatten(Accumulated(der.Sizes(), examples)), |examples| as real)
      + Zeros(gradient.Length - Sum(der.Sizes()))
    ensures der.Values() == ZeroGroups(der.Sizes())
  {
    ZeroVector(gradient);
    ClearDerivatives(der);
    AccumulateExamples(der, examples);
    ghost var total := Sum(der.Sizes());
    assert gradient[total..] == Zeros(gradient.Length - total);
    CopyNormalized(der, gradient, |examples| as real);
    ClearDerivatives(der);
  }

  /** The copy loop of EvaluateGradientVarianceInDirection: each group goes to its offset of `v`
   *  and is cleared right after, so that the derivatives are zero again once it is done. */
  method FlattenAndClear(der: Parameters, v: array<real>)
    requires der.Valid() && v !in der.data
    requires Sum(der.Sizes()) <= v.Length
    modifies der.data, v
    ensures v[..] == Flatten(old(der.Values())) + old(v[Sum(der.Sizes())..])
    ensures der.Values() == ZeroGroups(der.Sizes())
  {
    ghost var values := der.Values();
    ghost var zero := ZeroGroups(der.Sizes());
    ghost var rest := v[..];
    der.HoldsStart(zero, values);
    var offset := 0;
    var pg := 0;
    while pg < |der.data|
      invariant 0 <= pg <= |der.data|
      invariant offset == Offset(der.Sizes(), pg) <= v.Length
      invariant v[..] == Flatten(values[..pg]) + rest[offset..]
      invariant der.Holds(zero, values, pg)
    {
      FlattenAndClearAt(der, v, values, rest, pg, offset);
      offset := offset + der.data[pg].Length;
      pg := pg + 1;
    }
    assert values[..pg] == values;
    assert der.Sizes()[..pg] == der.Sizes();
    der.HoldsEnd(zero, values);
  }

  /** Group `pg` of the copy loop: copied, then cleared. */
  method FlattenAndClearAt(der: Parameters, v: array<real>, ghost values: seq<seq<real>>,
                           ghost rest: seq<real>, pg: nat, offset: nat)
    requires der.Valid() && v !in der.data && Shape(values) == der.Sizes()
    requires pg < |der.data| && offset == Offset(der.Sizes(), pg)
    requires Sum(der.Sizes()) <= v.Length == |rest| && offset <= |rest|
    requires v[..] == Flatten(values[..pg]) + rest[offset..]
    requires der.Holds(ZeroGroups(der.Sizes()), values, pg)
    modifies der.data[pg], v
    ensures Offset(der.Sizes(), pg + 1) == offset + der.data[pg].Length <= |rest|
    ensures v[..] == Flatten(values[..pg + 1]) + rest[offset + der.data[pg].Length..]
    ensures der.Holds(ZeroGroups(der.Sizes()), values, pg + 1)
  {
    FlatPrefix(values, pg);
    var a := der.data[pg];
    assert Shape(values)[pg] == a.Length;
    assert a[..] == values[pg];
    ghost var before := v[..];
    assert before[..offset] == Flatten(values[..pg]);
    assert before[offset + a.Length..] == rest[offset + a.Length..];
    CopyGroup(a, v, offset);
    ClearGroup(a);
  }

  /** Vec::iP: the inner product of two vectors of one length. */
  method InnerProduct(a: array<real>, b: array<real>) returns (r: real)
    requires a.Length == b.Length
    ensures r == Dot(a[..], b[..])
  {
    r := 0.0;
    var i := 0;
    while i < a.Length
      invariant 0 <= i <= a.Length
      invariant r == Dot(a[..i], b[..i])
    {
      assert a[..i + 1][..i] == a[..i] && b[..i + 1][..i] == b[..i];
      r := r + a[i] * b[i];
      i := i + 1;
    }
    assert a[..] == a[..i] && b[..] == b[..i];
  }

  /** The pass over the dataset of EvaluateGradientVarianceInDirection: the backward pass of each
   *  example, its gradient flattened and projected on `direction`. The sum of the projections
   *  comes along. */
  method ProjectExamples(der: Parameters, examples: seq<seq<seq<real>>>, direction: array<real>)
    returns (projections: array<real>, total: real)
    requires der.Valid() && direction !in der.data
    requires forall e :: 0 <= e < |examples| ==> Shape(examples[e]) == der.Sizes()
    requires forall e :: 0 <= e < |examples| ==> |Flatten(examples[e])| == direction.Length
    requires direction.Length == Sum(der.Sizes())
    requires der.Values() == ZeroGroups(der.Sizes())
    modifies der.data
    ensures fresh(projections)
    ensures projections[..] == Projections(examples, direction[..])
    ensures total == SumOf(projections[..])
    ensures der.Values() == ZeroGroups(der.Sizes())
  {
    var n := GetNParams(der);
    var exampleGradient := new real[n](_ => 0.0);
    projections := new real[|examples|](_ => 0.0);
    ghost var goal := Projections(examples, direction[..]);
    total := 0.0;
    var e := 0;
    while e < |examples|
      invariant 0 <= e <= |examples|
      invariant der.Values() == ZeroGroups(der.Sizes())
      invariant projections[..e] == goal[..e]
      invariant total == SumOf(goal[..e])
    {
      total := ProjectAt(der, examples[e], direction, exampleGradient, projections, e, total, goal);
      e := e + 1;
    }
    assert projections[..] == projections[..e];
  }

  /** Example `e` of the pass: its projection on `direction` is recorded as `goal[e]` and added
   *  to the running sum. */
  method ProjectAt(der: Parameters, example: seq<seq<real>>, direction: array<real>, v: array<real>,
                   projections: array<real>, e: nat, total: real, ghost goal: seq<real>)
    returns (total': real)
    requires der.Valid() && v !in der.data && direction !in der.data && projections !in der.data
    requires direction != v && projections != v && projections != direction
    requires Shape(example) == der.Sizes() && |Flatten(example)| == direction.Length
    requires direction.Length == v.Length == Sum(der.Sizes())
    requires e < |goal| == projections.Length && goal[e] == Dot(direction[..], Flatten(example))
    requires der.Values() == ZeroGroups(der.Sizes())
    requires projections[..e] == goal[..e] && total == SumOf(goal[..e])
    modifies der.data, v, projections
    ensures der.Values() == ZeroGroups(der.Sizes())
    ensures projections[..e + 1] == goal[..e + 1] && total' == SumOf(goal[..e + 1])
  {
    ghost var d := direction[..];
    ghost var done := projections[..e];
    ProjectExample(der, example, direction, v);
    var p := InnerProduct(direction, v);
    assert direction[..] == d && projections[..e] == done;
    assert p == goal[e];
    projections[e] := p;
    assert projections[..e + 1] == projections[..e] + [p];
    assert goal[..e + 1] == goal[..e] + [goal[e]];
    assert goal[..e + 1][..e] == goal[..e];
    total' := total + p;
  }

  /** One example: its backward pass on cleared derivatives, then the copy that clears them again. */
  method ProjectExample(der: Parameters, example: seq<seq<real>>, direction: array<real>, v: array<real>)
    requires der.Valid() && v !in der.data && direction != v
    requires Shape(example) == der.Sizes()
    requires v.Length == Sum(der.Sizes())
    requires der.Values() == ZeroGroups(der.Sizes())
    modifies der.data, v
    ensures v[..] == Flatten(example)
    ensures der.Values() == ZeroGroups(der.Sizes())
  {
    Backward(der, example);
    AddToZero(der.Sizes(), example);
    FlattenAndClear(der, v);
    assert v[..] == Flatten(example) + [];
  }

  /** The second pass of EvaluateGradientVarianceInDirection: the squares, centered or not. */
  method SumSquares(xs: array<real>, mean: real, isCentered: bool) returns (sum: real)
    ensures sum == Squares(xs[..], mean, isCentered)
  {
    sum := 0.0;
    var e := 0;
    while e < xs.Length
      invariant 0 <= e <= xs.Length
      invariant sum == Squares(xs[..e], mean, isCentered)
    {
      assert xs[..e + 1][..e] == xs[..e];
      if isCentered {
        var centered := xs[e] - mean;
        sum := sum + centered * centered;
      } else {
        sum := sum + xs[e] * xs[e];
      }
      e := e + 1;
    }
    assert xs[..] == xs[..e];
  }

  /** EvaluateGradientVarianceInDirection: the variance over the dataset of the gradient of each
   *  example projected on `direction`. Each example's gradient is read from derivatives that
   *  hold that example's contribution alone. */
  method EvaluateGradientVarianceInDirection(der: Parameters, examples: seq<seq<seq<real>>>,
                                             direction: array<real>, isCentered: bool)
    returns (variance: Option<real>)
    requires der.Valid() && direction !in der.data
    requires forall e :: 0 <= e < |examples| ==> Shape(examples[e]) == der.Sizes()
    requires direction.Length == Sum(der.Sizes())
    modifies der.data
    ensures forall e :: 0 <= e < |examples| ==> |Flatten(examples[e])| == direction.Length
    ensures variance == Variance(Projections(examples, direction[..]), isCentered)
    ensures der.Values() == ZeroGroups(der.Sizes())
  {
    forall e | 0 <= e < |examples| ensures |Flatten(examples[e])| == direction.Length {
      FlattenLength(examples[e]);
    }
    ClearDerivatives(der);
    var projections, mean := ProjectExamples(der, examples, direction);
    // With no example the mean is not a number, but it is then never used.
    if |examples| > 0 {
      mean := mean / |examples| as real;
    }
    var sum := SumSquares(projections, mean, isCentered);
    if |examples| == 1 {
      variance := None;
    } else {
      variance := Some(sum / (|examples| - 1) as real);
    }
  }

  /** StepInParameterSpace: every parameter moves by `stepsize` times the entry of `direction` at
   *  its flat index; `direction` is not changed. */
  method StepInParameterSpace(params: Parameters, direction: array<real>, stepsize: real)
    requires params.Valid() && direction !in params.data
    requires Sum(params.Sizes()) <= direction.Length
    modifies params.data
    ensures params.Values() == Stepped(old(params.Values()), direction[..], stepsize)
  {
    ghost var values := params.Values();
    ghost var goal := Stepped(values, direction[..], stepsize);
    params.HoldsStart(goal, values);
    var offset := 0;
    var i := 0;
    while i < |params.data|
      invariant 0 <= i <= |params.data|
      invariant offset == Offset(params.Sizes(), i)
      invariant params.Holds(goal, values, i)
    {
      StepGroupAt(params, direction, stepsize, values, goal, i, offset);
      OffsetNext(params.Sizes(), i);
      offset := offset + params.data[i].Length;
      i := i + 1;
    }
    params.HoldsEnd(goal, values);
  }

  /** Group `i` of StepInParameterSpace. */
  method StepGroupAt(params: Parameters, direction: array<real>, stepsize: real,
                     ghost values: seq<seq<real>>, ghost goal: seq<seq<real>>, i: nat, offset: nat)
    requires params.Valid() && direction !in params.data && Shape(values) == params.Sizes()
    requires Sum(params.Sizes()) <= direction.Length
    requires goal == Stepped(values, direction[..], stepsize)
    requires i < |params.data| && offset == Offset(params.Sizes(), i)
    requires params.Holds(goal, values, i)
    modifies params.data[i]
    ensures params.Holds(goal, values, i + 1)
  {
    OffsetBound(params.Sizes(), i);
    var a := params.data[i];
    assert Shape(values)[i] == a.Length;
    assert forall k :: 0 <= k < a.Length ==> a[k] == values[i][k];
    StepGroup(a, direction, offset, stepsize);
    assert forall k :: 0 <= k < a.Length ==> a[k] == goal[i][k];
  }

  /** Moves one group by `stepsize` times the entries of `direction` from `offset` on. */
  method StepGroup(a: array<real>, direction: array<real>, offset: nat, stepsize: real)
    requires a != direction && offset + a.Length <= direction.Length
    modifies a
    ensures forall k :: 0 <= k < a.Length ==> a[k] == old(a[k]) + stepsize * direction[offset + k]
  {
    var j := 0;
    while j < a.Length
      invariant 0 <= j <= a.Length
      invariant forall k :: 0 <= k < j ==> a[k] == old(a[k]) + stepsize * direction[offset + k]
      invariant forall k :: j <= k < a.Length ==> a[k] == old(a[k])
    {
      a[j] := a[j] + stepsize * direction[offset + j];
      j := j + 1;
    }
  }

  /** Asking for more directions than the file has lines: when the last line has no newline it is
   *  read again for every extra direction, which adds no failure; otherwise the first extra
   *  direction is an empty line, which fails with no token loaded unless rows are empty. */
  lemma {:induction false} CheckPastEnd(file: DirectionsFile, k: nat, n: nat)
    requires |file.lines| <= k
    ensures !file.endsWithNewline && |file.lines| > 0 ==>
      CheckDirections(file, k, n) == CheckDirections(file, |file.lines|, n)
    ensures (file.endsWithNewline || |file.lines| == 0) && |file.lines| < k && n > 0 ==>
      CheckDirections(file, k, n) ==
        if CheckDirections(file, |file.lines|, n).Fail? then CheckDirections(file, |file.lines|, n)
        else Fail(WrongTokenCount(|file.lines|, 0))
    decreases k
  {
    var m := |file.lines|;
    if k > m {
      CheckPastEnd(file, k - 1, n);
      if !file.endsWithNewline && m > 0 && CheckDirections(file, m, n).Pass? {
        CheckDirectionsMeaning(file, m, n);
        assert |LineAt(file, m - 1)| == n;
      }
    }
  }

  /** A one-line file `1 2` without a final newline loads two directions of two entries: the
   *  second is the first line again. With a final newline the second direction is empty. */
  lemma UnterminatedLineReread()
    ensures CheckDirections(DirectionsFile([[1.0, 2.0]], false), 2, 2) == Pass
    ensures CheckDirections(DirectionsFile([[1.0, 2.0]], true), 2, 2) == Fail(WrongTokenCount(1, 0))
  {
  }

  /** LoadDirections over a file already split into lines of tokens: the `i`-th line read fills
   *  row `i` of `directions`, which must then hold exactly `directions.Length1` tokens. */
  method LoadDirections(file: DirectionsFile, nDirections: nat, directions: array2<real>)
    returns (outcome: Outcome<LoadError>)
    requires nDirections <= directions.Length0
    modifies directions
    ensures outcome == CheckDirections(file, nDirections, directions.Length1)
    ensures outcome.Pass? ==> forall i, j :: 0 <= i < nDirections && 0 <= j < directions.Length1 ==>
      j < |LineAt(file, i)| && directions[i, j] == LineAt(file, i)[j]
  {
    var n := directions.Length1;
    var i := 0;
    while i < nDirections
      invariant 0 <= i <= nDirections
      invariant CheckDirections(file, i, n) == Pass
      invariant forall r :: 0 <= r < i ==> |LineAt(file, r)| == n
      invariant forall r, j :: 0 <= r < i && 0 <= j < n ==> directions[r, j] == LineAt(file, r)[j]
    {
      var line := LineAt(file, i);
      label head:
      outcome := LoadLine(line, i, directions);
      if outcome.Fail? {
        CheckDirectionsSticky(file, i + 1, nDirections, n);
        return;
      }
      assert |line| == n;
      forall r, j | 0 <= r <= i && 0 <= j < n
        ensures directions[r, j] == LineAt(file, r)[j]
      {
        if r < i {
          assert directions[r, j] == old@head(directions[r, j]);
        }
      }
      i := i + 1;
    }
    outcome := Pass;
  }

  /** The token loop of LoadDirections for line `i`. */
  method LoadLine(line: seq<real>, i: nat, directions: array2<real>) returns (outcome: Outcome<LoadError>)
    requires i < directions.Length0
    modifies directions
    ensures outcome == CheckLine(line, i, directions.Length1)
    ensures forall r, j :: 0 <= r < directions.Length0 && r != i && 0 <= j < directions.Length1 ==>
      directions[r, j] == old(directions[r, j])
    ensures outcome.Pass? ==> forall j :: 0 <= j < directions.Length1 ==> directions[i, j] == line[j]
  {
    var count := 0;
    while count < |line|
      invariant 0 <= count <= |line| && count <= directions.Length1
      invariant forall r, j :: 0 <= r < directions.Length0 && r != i && 0 <= j < directions.Length1 ==>
        directions[r, j] == old(directions[r, j])
      invariant forall j :: 0 <= j < count ==> directions[i, j] == line[j]
    {
      if count >= directions.Length1 {
        return Fail(TooManyTokens(i));
      }
      directions[i, count] := line[count];
      count := count + 1;
    }
    if count != directions.Length1 {
      return Fail(WrongTokenCount(i, count));
    }
    outcome := Pass;
  }
}
