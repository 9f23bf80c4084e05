/** Packing ragged rows into one flat row, as a varlen batch does, and finding them again. */
module Packing {
  function Flat<T>(ss: seq<seq<T>>): seq<T> {
    if ss == [] then [] else Flat(ss[..|ss| - 1]) + ss[|ss| - 1]
  }

  /** Where the rows of `ss[i]` start: the cumulative lengths of the batch. */
  function Start<T>(ss: seq<seq<T>>, i: nat): nat
    requires i <= |ss|
  {
    |Flat(ss[..i])|
  }

  lemma FlatSnoc<T>(ss: seq<seq<T>>, x: seq<T>)
    ensures Flat(ss + [x]) == Flat(ss) + x
  {
    assert (ss + [x])[..|ss|] == ss;
  }

  lemma StartSnoc<T>(ss: seq<seq<T>>, x: seq<T>, j: nat)
    requires j <= |ss|
    ensures Start(ss + [x], j) == Start(ss, j)
    ensures Start(ss, |ss|) == |Flat(ss)|
  {
    assert (ss + [x])[..j] == ss[..j] && ss[..|ss|] == ss;
  }

  lemma StartStep<T>(ss: seq<seq<T>>, i: nat)
    requires i < |ss|
    ensures Flat(ss[..i + 1]) == Flat(ss[..i]) + ss[i]
    ensures Start(ss, i + 1) == Start(ss, i) + |ss[i]|
  {
    assert ss[..i + 1][..i] == ss[..i];
  }

  /** The packed rows of `ss[i]` are a contiguous slice. */
  lemma {:induction false} FlatSlice<T>(ss: seq<seq<T>>, i: nat)
    requires i < |ss|
    ensures Start(ss, i) + |ss[i]| <= |Flat(ss)|
    ensures Flat(ss)[Start(ss, i)..Start(ss, i) + |ss[i]|] == ss[i]
    decreases |ss|
  {
    var last := |ss| - 1;
    if i < last {
      FlatSlice(ss[..last], i);
      assert ss[..last][..i] == ss[..i];
    }
  }

  lemma FlatAt<T>(ss: seq<seq<T>>, i: nat, t: nat)
    requires i < |ss| && t < |ss[i]|
    ensures Start(ss, i) + t < |Flat(ss)| && Flat(ss)[Start(ss, i) + t] == ss[i][t]
  {
    FlatSlice(ss, i);
    assert Flat(ss)[Start(ss, i)..Start(ss, i) + |ss[i]|][t] == ss[i][t];
  }

  /** Every packed row belongs to one ragged row. */
  lemma {:induction false} FlatFind<T>(ss: seq<seq<T>>, a: nat) returns (i: nat, t: nat)
    requires a < |Flat(ss)|
    ensures i < |ss| && t < |ss[i]| && a == Start(ss, i) + t
    decreases |ss|
  {
    var last := |ss| - 1;
    if a < |Flat(ss[..last])| {
      i, t := FlatFind(ss[..last], a);
      assert ss[..last][..i] == ss[..i];
    } else {
      i, t := last, a - |Flat(ss[..last])|;
    }
  }

  ghost predicate SameShape<T, U>(xs: seq<seq<T>>, ys: seq<seq<U>>) {
    |xs| == |ys| && forall i :: 0 <= i < |xs| ==> |xs[i]| == |ys[i]|
  }

  lemma {:induction false} SameStarts<T, U>(xs: seq<seq<T>>, ys: seq<seq<U>>, i: nat)
    requires SameShape(xs, ys) && i <= |xs|
    ensures Start(xs, i) == Start(ys, i)
  {
    if i > 0 {
      SameStarts(xs, ys, i - 1);
      StartStep(xs, i - 1);
      StartStep(ys, i - 1);
    }
  }

  lemma SameFlatLength<T, U>(xs: seq<seq<T>>, ys: seq<seq<U>>)
    requires SameShape(xs, ys)
    ensures |Flat(xs)| == |Flat(ys)|
  {
    SameStarts(xs, ys, |xs|);
    assert xs[..|xs|] == xs && ys[..|ys|] == ys;
  }

  /** Rows packed in the same shape are found at the same place. */
  lemma SliceAlike<T, U>(xs: seq<seq<T>>, ys: seq<seq<U>>, i: nat)
    requires SameShape(xs, ys) && i < |xs|
    ensures Start(ys, i) + |ys[i]| <= |Flat(xs)|
    ensures Flat(xs)[Start(ys, i)..Start(ys, i) + |ys[i]|] == xs[i]
  {
    SameStarts(xs, ys, i);
    FlatSlice(xs, i);
  }
}
