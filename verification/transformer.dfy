/** A transformer stack over abstract rows, and the facts about causal rows that every
    key/value cache of the runtime relies on.

    A row, a query, an attention output and a key/value pair are all values of the abstract
    type `Vec`.  Projections, normalisation, feed-forward and modulation act row by row and are
    uninterpreted; attention is an uninterpreted function of one query and the ordered sequence
    of the key/value pairs that query may see.  A mask is therefore a filter on indices.
 */
module Transformer {
  type Vec(!new, ==)

  type Mask = (nat, nat) -> bool

  /** The row-wise parts of a stack at one fixed condition (time step and global condition). */
  datatype Stack = Stack(
    depth: nat,
    input: Vec -> Vec,
    query: (nat, Vec, nat) -> Vec,      // layer, hidden row, rotary position
    keyValue: (nat, Vec, nat) -> Vec,   // layer, hidden row, rotary position
    attend: (Vec, seq<Vec>) -> Vec,     // query, visible key/value pairs in order
    merge: (nat, Vec, Vec) -> Vec,      // layer, hidden row, attention output
    output: Vec -> Vec)

  predicate Causal(i: nat, j: nat) {
    j <= i
  }

  /** Positions start, start + 1, ..., start + n - 1. */
  function Positions(start: nat, n: nat): (p: seq<nat>)
    ensures |p| == n && forall i :: 0 <= i < n ==> p[i] == start + i
  {
    seq(n, i requires 0 <= i => start + i)
  }

  function MapRows(f: Vec -> Vec, x: seq<Vec>): (r: seq<Vec>)
    ensures |r| == |x| && forall i :: 0 <= i < |x| ==> r[i] == f(x[i])
  {
    seq(|x|, i requires 0 <= i < |x| => f(x[i]))
  }

  /** The key/value pairs of the hidden rows `h` entering layer `l`. */
  function KeyValues(s: Stack, l: nat, h: seq<Vec>, pos: seq<nat>): (kv: seq<Vec>)
    requires |h| == |pos|
    ensures |kv| == |h| && forall i :: 0 <= i < |h| ==> kv[i] == s.keyValue(l, h[i], pos[i])
  {
    seq(|h|, i requires 0 <= i < |h| => s.keyValue(l, h[i], pos[i]))
  }

  lemma MapRowsSlice(f: Vec -> Vec, x: seq<Vec>, from: nat, to: nat)
    requires from <= to <= |x|
    ensures MapRows(f, x)[from..to] == MapRows(f, x[from..to])
  {
  }

  lemma KeyValuesSlice(s: Stack, l: nat, h: seq<Vec>, pos: seq<nat>, from: nat, to: nat)
    requires |h| == |pos| && from <= to <= |h|
    ensures KeyValues(s, l, h, pos)[from..to] == KeyValues(s, l, h[from..to], pos[from..to])
  {
  }

  /** The key/value pairs that row `i` sees, in order. */
  function Visible(kv: seq<Vec>, sees: Mask, i: nat): seq<Vec> {
    if kv == [] then []
    else
      var last := |kv| - 1;
      Visible(kv[..last], sees, i) + if sees(i, last) then [kv[last]] else []
  }

  /** What one layer makes of hidden row `h` at position `p` that sees the pairs `seen`. */
  function LayerRow(s: Stack, l: nat, h: Vec, p: nat, seen: seq<Vec>): Vec {
    s.merge(l, h, s.attend(s.query(l, h, p), seen))
  }

  /** A stack whose layers are nothing but their query, what they see, or their residual. */
  function Only(s: Stack, query: bool, attend: bool): Stack {
    s.(attend := if query then (q, seen) => q else s.attend,
       merge := if query || attend then (l, h, o) => o else (l, h, o) => h)
  }

  /** A layer's row depends on the hidden row, on its position and on what it sees, and on each by itself. */
  lemma RowReads(s: Stack, l: nat, h: Vec, p: nat, seen: seq<Vec>)
    ensures LayerRow(Only(s, true, false), l, h, p, seen) == s.query(l, h, p)
    ensures LayerRow(Only(s, false, true), l, h, p, seen) == s.attend(s.query(l, h, p), seen)
    ensures LayerRow(Only(s, false, false), l, h, p, seen) == h
  {
  }

  /** So some stack tells two positions apart. */
  lemma PositionMatters(s: Stack, l: nat, h: Vec, p: nat, p': nat, seen: seq<Vec>, a: Vec, b: Vec)
    requires p != p' && a != b
    ensures exists s': Stack :: s'.depth == s.depth && LayerRow(s', l, h, p, seen) != LayerRow(s', l, h, p', seen)
  {
    var s' := Only(s, true, false).(query := (l, h, i) => if i == p then a else b);
    assert LayerRow(s', l, h, p, seen) == a && LayerRow(s', l, h, p', seen) == b;
  }

  function Layer(s: Stack, l: nat, h: seq<Vec>, pos: seq<nat>, sees: Mask): (r: seq<Vec>)
    requires |h| == |pos|
    ensures |r| == |h|
  {
    var kv := KeyValues(s, l, h, pos);
    seq(|h|, i requires 0 <= i < |h| => LayerRow(s, l, h[i], pos[i], Visible(kv, sees, i)))
  }

  /** The hidden rows entering layer `l` of the full masked forward pass. */
  function Hidden(s: Stack, x: seq<Vec>, pos: seq<nat>, sees: Mask, l: nat): (h: seq<Vec>)
    requires |x| == |pos|
    ensures |h| == |x|
  {
    if l == 0 then MapRows(s.input, x)
    else Layer(s, l - 1, Hidden(s, x, pos, sees, l - 1), pos, sees)
  }

  lemma HiddenStep(s: Stack, x: seq<Vec>, pos: seq<nat>, sees: Mask, l: nat, i: nat)
    requires |x| == |pos| && i < |x|
    ensures var h := Hidden(s, x, pos, sees, l);
            Hidden(s, x, pos, sees, l + 1)[i] == LayerRow(s, l, h[i], pos[i], Visible(KeyValues(s, l, h, pos), sees, i))
  {
    hide Visible, LayerRow;
  }

  /** The full masked forward pass. */
  function Forward(s: Stack, x: seq<Vec>, pos: seq<nat>, sees: Mask): (y: seq<Vec>)
    requires |x| == |pos|
    ensures |y| == |x|
  {
    MapRows(s.output, Hidden(s, x, pos, sees, s.depth))
  }

  function CausalHidden(s: Stack, x: seq<Vec>, l: nat): (h: seq<Vec>)
    ensures |h| == |x|
  {
    Hidden(s, x, Positions(0, |x|), Causal, l)
  }

  /** The key/value pairs that layer `l` of the full causal pass computes for the rows `x`. */
  function CausalKV(s: Stack, x: seq<Vec>, l: nat): (kv: seq<Vec>)
    ensures |kv| == |x|
  {
    KeyValues(s, l, CausalHidden(s, x, l), Positions(0, |x|))
  }

  // ---------------------------------------------------------------- visible rows

  lemma {:induction false} VisibleAll(kv: seq<Vec>, sees: Mask, i: nat)
    requires forall j :: 0 <= j < |kv| ==> sees(i, j)
    ensures Visible(kv, sees, i) == kv
  {
    if kv != [] {
      var last := |kv| - 1;
      VisibleAll(kv[..last], sees, i);
      assert kv == kv[..last] + [kv[last]];
    }
  }

  lemma {:induction false} VisibleNone(kv: seq<Vec>, from: nat, sees: Mask, i: nat)
    requires from <= |kv|
    requires forall j :: from <= j < |kv| ==> !sees(i, j)
    ensures Visible(kv, sees, i) == Visible(kv[..from], sees, i)
    decreases |kv|
  {
    if from < |kv| {
      var last := |kv| - 1;
      VisibleNone(kv[..last], from, sees, i);
      assert kv[..last][..from] == kv[..from];
    } else {
      assert kv[..from] == kv;
    }
  }

  /** Rows visible from `from` on are appended to what is visible before. */
  lemma {:induction false} VisibleTail(kv: seq<Vec>, from: nat, sees: Mask, i: nat)
    requires from <= |kv|
    requires forall j :: from <= j < |kv| ==> sees(i, j)
    ensures Visible(kv, sees, i) == Visible(kv[..from], sees, i) + kv[from..]
    decreases |kv|
  {
    if from < |kv| {
      var last := |kv| - 1;
      VisibleTail(kv[..last], from, sees, i);
      assert kv[..last][..from] == kv[..from];
      assert kv[from..] == kv[..last][from..] + [kv[last]];
    } else {
      assert kv[..from] == kv && kv[from..] == [];
    }
  }

  /** A row that sees exactly the rows up to itself sees a prefix. */
  lemma VisiblePrefix(kv: seq<Vec>, sees: Mask, i: nat)
    requires i < |kv|
    requires forall j :: 0 <= j < |kv| ==> (sees(i, j) <==> j <= i)
    ensures Visible(kv, sees, i) == kv[..i + 1]
  {
    VisibleNone(kv, i + 1, sees, i);
    VisibleAll(kv[..i + 1], sees, i);
  }

  // ---------------------------------------------------------------- causal prefixes

  /** Rows that are causal in any mask, at their natural positions, are computed exactly as by
      the causal pass over those rows alone: nothing after them, and no other row, matters. */
  lemma {:induction false} PrefixIsCausal(s: Stack, x: seq<Vec>, pos: seq<nat>, sees: Mask, n: nat, l: nat)
    requires n <= |x| == |pos|
    requires forall i :: 0 <= i < n ==> pos[i] == i
    requires forall i, j :: 0 <= i < n && 0 <= j < |x| ==> (sees(i, j) <==> j <= i)
    ensures Hidden(s, x, pos, sees, l)[..n] == CausalHidden(s, x[..n], l)
    ensures KeyValues(s, l, Hidden(s, x, pos, sees, l), pos)[..n] == CausalKV(s, x[..n], l)
  {
    hide Visible, Layer, LayerRow;
    if l > 0 {
      PrefixIsCausal(s, x, pos, sees, n, l - 1);
      PrefixLayer(s, l - 1, Hidden(s, x, pos, sees, l - 1), pos, sees, n);
    }
    KeyValuesSlice(s, l, Hidden(s, x, pos, sees, l), pos, 0, n);
    assert pos[..n] == Positions(0, n);
  }

  /** One layer acts on causal rows as if they were alone. */
  lemma PrefixLayer(s: Stack, l: nat, h: seq<Vec>, pos: seq<nat>, sees: Mask, n: nat)
    requires n <= |h| == |pos|
    requires forall i :: 0 <= i < n ==> pos[i] == i
    requires forall i, j :: 0 <= i < n && 0 <= j < |h| ==> (sees(i, j) <==> j <= i)
    ensures Layer(s, l, h, pos, sees)[..n] == Layer(s, l, h[..n], Positions(0, n), Causal)
  {
    hide Visible, LayerRow;
    var kv := KeyValues(s, l, h, pos);
    var short := KeyValues(s, l, h[..n], Positions(0, n));
    forall i | 0 <= i < n
      ensures Layer(s, l, h, pos, sees)[i] == Layer(s, l, h[..n], Positions(0, n), Causal)[i]
    {
      VisiblePrefix(kv, sees, i);
      VisiblePrefix(short, Causal, i);
      assert kv[..i + 1] == short[..i + 1];
    }
  }

  /** The cached pairs of a causal prefix do not depend on what follows it. */
  lemma CausalPrefix(s: Stack, a: seq<Vec>, b: seq<Vec>, l: nat)
    ensures CausalHidden(s, a + b, l)[..|a|] == CausalHidden(s, a, l)
    ensures CausalKV(s, a + b, l)[..|a|] == CausalKV(s, a, l)
  {
    hide Hidden, Visible, Layer;
    assert (a + b)[..|a|] == a;
    PrefixIsCausal(s, a + b, Positions(0, |a + b|), Causal, |a|, l);
  }

  /** The hidden rows of `b` in the causal pass over `a + b`. */
  function TailHidden(s: Stack, a: seq<Vec>, b: seq<Vec>, l: nat): (h: seq<Vec>)
    ensures |h| == |b|
  {
    CausalHidden(s, a + b, l)[|a|..]
  }

  /** The pairs of `a + b` are the ones cached for `a` followed by those of the new rows. */
  lemma CausalKVSplit(s: Stack, a: seq<Vec>, b: seq<Vec>, l: nat)
    ensures CausalKV(s, a + b, l)
            == CausalKV(s, a, l) + KeyValues(s, l, TailHidden(s, a, b, l), Positions(|a|, |b|))
  {
    hide CausalHidden, Hidden, Visible, Layer, LayerRow;
    CausalPrefix(s, a, b, l);
    var full := CausalKV(s, a + b, l);
    assert full[|a|..] == KeyValues(s, l, TailHidden(s, a, b, l), Positions(|a|, |b|));
    assert full == full[..|a|] + full[|a|..];
  }

  /** One layer of one new row, from the pairs of the rows up to itself. */
  lemma CausalStep(s: Stack, a: seq<Vec>, b: seq<Vec>, l: nat, i: nat)
    requires i < |b|
    ensures TailHidden(s, a, b, l + 1)[i]
            == LayerRow(s, l, TailHidden(s, a, b, l)[i], |a| + i, CausalKV(s, a + b, l)[..|a| + i + 1])
  {
    hide Visible, LayerRow;
    VisiblePrefix(CausalKV(s, a + b, l), Causal, |a| + i);
  }

  /** All new rows of one layer, from the pairs of the rows up to each. */
  lemma CausalRows(s: Stack, prefix: seq<Vec>, rows: seq<Vec>, l: nat, next: seq<Vec>)
    requires |next| == |rows|
    requires forall i :: 0 <= i < |rows| ==>
                           next[i] == LayerRow(s, l, TailHidden(s, prefix, rows, l)[i], |prefix| + i,
                                               CausalKV(s, prefix + rows, l)[..|prefix| + i + 1])
    ensures next == TailHidden(s, prefix, rows, l + 1)
  {
    hide TailHidden, CausalKV, LayerRow;
    forall i | 0 <= i < |rows| ensures next[i] == TailHidden(s, prefix, rows, l + 1)[i] {
      CausalStep(s, prefix, rows, l, i);
    }
  }

  // ---------------------------------------------------------------- attention of new rows

  /** The pairs of rows `h` with the causal bias: row `i` sees the cache and the new rows up to itself. */
  method AttendCausal(s: Stack, l: nat, h: seq<Vec>, pos: seq<nat>, kvFull: seq<Vec>, cached: nat) returns (r: seq<Vec>)
    requires |h| == |pos| && |kvFull| == cached + |h|
    ensures |r| == |h|
    ensures forall i :: 0 <= i < |h| ==> r[i] == LayerRow(s, l, h[i], pos[i], kvFull[..cached + i + 1])
  {
    r := [];
    for i := 0 to |h|
      invariant |r| == i
      invariant forall j :: 0 <= j < i ==> r[j] == LayerRow(s, l, h[j], pos[j], kvFull[..cached + j + 1])
    {
      r := r + [LayerRow(s, l, h[i], pos[i], kvFull[..cached + i + 1])];
    }
  }

  /** Every row of `h` sees every pair. */
  method AttendAll(s: Stack, l: nat, h: seq<Vec>, pos: seq<nat>, kvFull: seq<Vec>) returns (r: seq<Vec>)
    requires |h| == |pos|
    ensures |r| == |h| && forall i :: 0 <= i < |h| ==> r[i] == LayerRow(s, l, h[i], pos[i], kvFull)
  {
    r := [];
    for i := 0 to |h|
      invariant |r| == i && forall j :: 0 <= j < i ==> r[j] == LayerRow(s, l, h[j], pos[j], kvFull)
    {
      r := r + [LayerRow(s, l, h[i], pos[i], kvFull)];
    }
  }

  // ---------------------------------------------------------------- cache snapshots

  /** The pairs of every layer for the causal prefix `x`: what a cache must hold. */
  function Snapshot(s: Stack, x: seq<Vec>): (c: seq<seq<Vec>>)
    ensures |c| == s.depth && forall l :: 0 <= l < s.depth ==> c[l] == CausalKV(s, x, l)
  {
    seq(s.depth, l requires 0 <= l < s.depth => CausalKV(s, x, l))
  }
}
