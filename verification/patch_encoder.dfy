/** The causal patch encoder: a strided causal convolution, a causal transformer over its tokens, and
    embeddings of groups of tokens.  Fed patch by patch through its tail and its caches it yields the
    embeddings of one pass over everything.
 */
module PatchEncoder {
  import opened Arithmetic
  import opened Outcomes
  import opened Packing
  import opened Transformer

  datatype EncodeError = NotWholePatches | UnexpectedTokens | CapacityExceeded | WrongPatchLength

  /** `conv` makes a token of two neighbouring frames; the stack's own input map is the projection. */
  datatype Encoder = Encoder(s: Stack, zero: Vec, conv: (Vec, Vec) -> Vec, patchSize: nat, project: seq<Vec> -> Vec) {
    function Rate(): nat { patchSize / 2 }

    /** Frames of whole patches. */
    predicate Whole(x: seq<Vec>)
      requires patchSize > 0
    {
      |x| % patchSize == 0
    }

    /** Tokens of that many whole patches. */
    function Expected(n: nat): nat
      requires patchSize > 0
    {
      n / patchSize * Rate()
    }

    /** Token `t` reads frames 2t - 1 and 2t, the one before the first being `tail`. */
    function Down(tail: Vec, x: seq<Vec>): (r: seq<Vec>)
      ensures |r| == (|x| + 1) / 2
    {
      seq((|x| + 1) / 2, t requires 0 <= t < (|x| + 1) / 2 => conv(if t == 0 then tail else x[2 * t - 1], x[2 * t]))
    }

    /** Groups of `Rate` tokens to embeddings. */
    function Regroup(z: seq<Vec>): (r: seq<Vec>)
      requires Rate() > 0
    {
      if |z| < Rate() then [] else [project(z[..Rate()])] + Regroup(z[Rate()..])
    }

    function Encode(tokens: seq<Vec>): seq<Vec>
      requires Rate() > 0
    {
      Regroup(CausalHidden(s, tokens, s.depth))
    }

    /** The embeddings of one pass over `frames`. */
    function Embeddings(frames: seq<Vec>): seq<Vec>
      requires Rate() > 0
    {
      Encode(Down(zero, frames))
    }
  }

  function Last(tail: Vec, x: seq<Vec>): Vec {
    if x == [] then tail else x[|x| - 1]
  }

  // ---------------------------------------------------------------- the convolution and its tail

  /** Frames may be cut at any even place if the tail is carried over. */
  lemma DownSplit(e: Encoder, tail: Vec, a: seq<Vec>, b: seq<Vec>)
    requires |a| % 2 == 0
    ensures e.Down(tail, a + b) == e.Down(tail, a) + e.Down(Last(tail, a), b)
  {
    var x, n := a + b, |a| / 2;
    forall t | 0 <= t < (|x| + 1) / 2
      ensures e.Down(tail, x)[t] == (e.Down(tail, a) + e.Down(Last(tail, a), b))[t]
    {
      if t > n {
        assert x[2 * t - 1] == b[2 * (t - n) - 1] && x[2 * t] == b[2 * (t - n)];
      }
    }
  }

  /** A pass over whole patches makes `Rate` tokens of each exactly when the patch size is even. */
  lemma TokenCount(patchSize: nat, patches: nat)
    requires patches > 0
    ensures (patches * patchSize + 1) / 2 == patches * (patchSize / 2) <==> patchSize % 2 == 0
  {
    var h := patchSize / 2;
    if patchSize % 2 == 0 {
      assert patchSize == 2 * h;
      assert patches * patchSize == 2 * (patches * h);
    } else {
      assert patchSize == 2 * h + 1;
      assert patches * patchSize == 2 * (patches * h) + patches;
    }
  }

  /** Token `t` is made of two neighbouring frames, the tail coming before the first. */
  lemma DownReads(e: Encoder, tail: Vec, x: seq<Vec>, t: nat)
    requires 2 * t < |x|
    ensures e.(conv := (a, b) => a).Down(tail, x)[t] == ([tail] + x)[2 * t]
    ensures e.(conv := (a, b) => b).Down(tail, x)[t] == ([tail] + x)[2 * t + 1]
  {
  }

  /** Embedding `i` is made of the `i`-th `Rate` tokens; tokens short of a group make none. */
  lemma {:induction false} RegroupAt(e: Encoder, z: seq<Vec>, i: nat)
    requires e.Rate() > 0
    ensures var r := e.Rate();
            && |e.Regroup(z)| == |z| / r
            && (i < |z| / r ==> 0 <= i * r <= (i + 1) * r <= |z|
                                && e.Regroup(z)[i] == e.project(z[i * r..(i + 1) * r]))
    decreases |z|
  {
    var r := e.Rate();
    if |z| < r {
      QuotientIs(|z|, r, 0);
    } else {
      GroupsLeft(|z|, r);
      RegroupAt(e, z[r..], if i == 0 then 0 else i - 1);
      if 0 < i < |z| / r { GroupOfRest(z, r, i); }
    }
  }

  lemma GroupsLeft(n: nat, r: nat)
    requires 0 < r <= n
    ensures n / r == (n - r) / r + 1
  {
    var q := (n - r) / r;
    assert q * r <= n - r < q * r + r by { Quotient(n - r, r); }
    MulAdd(q, 1, r);
    QuotientIs(n, r, q + 1);
  }

  /** Group `i` is group `i - 1` of all but the first. */
  lemma GroupOfRest(z: seq<Vec>, r: nat, i: nat)
    requires 0 < r <= |z| && 0 < i < |z| / r
    ensures 0 <= (i - 1) * r <= i * r <= |z| - r && (i + 1) * r <= |z|
    ensures z[r..][(i - 1) * r..i * r] == z[i * r..(i + 1) * r]
  {
    assert |z| / r * r <= |z| by { Quotient(|z|, r); }
    MulLe(i + 1, |z| / r, r);
    MulLe(0, i - 1, r);
    MulAdd(i, 1, r);
    MulAdd(i - 1, 1, r);
  }

  lemma {:induction false} RegroupSplit(e: Encoder, a: seq<Vec>, b: seq<Vec>, n: nat)
    requires e.Rate() > 0 && |a| == n * e.Rate()
    ensures e.Regroup(a + b) == e.Regroup(a) + e.Regroup(b)
    decreases n
  {
    var r := e.Rate();
    if n == 0 {
      assert a + b == b;
    } else {
      MulAdd(n - 1, 1, r);
      MulLe(0, n - 1, r);
      RegroupSplit(e, a[r..], b, n - 1);
      assert (a + b)[..r] == a[..r] && (a + b)[r..] == a[r..] + b;
    }
  }

  /** Encoding on from `a`: what the new tokens see of the old ones is what is cached. */
  lemma EncodeSplit(e: Encoder, a: seq<Vec>, b: seq<Vec>, n: nat)
    requires e.Rate() > 0 && |a| == n * e.Rate()
    ensures e.Encode(a + b) == e.Encode(a) + e.Regroup(TailHidden(e.s, a, b, e.s.depth))
  {
    hide CausalHidden;
    CausalPrefix(e.s, a, b, e.s.depth);
    var h := CausalHidden(e.s, a + b, e.s.depth);
    assert h == h[..|a|] + h[|a|..];
    RegroupSplit(e, h[..|a|], h[|a|..], n);
  }

  /** The embeddings that `patch` adds after `frames`. */
  function NextEmbeddings(e: Encoder, frames: seq<Vec>, patch: seq<Vec>): seq<Vec>
    requires e.Rate() > 0
  {
    Fed(e, e.Down(e.zero, frames), e.Down(Last(e.zero, frames), patch))
  }

  /** The embeddings of the tokens `rows` after `tokens`. */
  function Fed(e: Encoder, tokens: seq<Vec>, rows: seq<Vec>): seq<Vec>
    requires e.Rate() > 0
  {
    e.Regroup(TailHidden(e.s, tokens, rows, e.s.depth))
  }

  lemma EvenPatches(p: nat, n: nat)
    requires p > 0 && p % 2 == 0 && n % p == 0
    ensures n % 2 == 0 && (n + 1) / 2 == n / p * (p / 2)
  {
    assert n == n / p * p;
    var k, h := n / p, p / 2;
    assert p == 2 * h;
    assert k * p == 2 * (k * h);
  }

  /** Patch by patch is all at once. */
  lemma EmbeddingsSplit(e: Encoder, frames: seq<Vec>, patch: seq<Vec>)
    requires e.patchSize > 0 && e.patchSize % 2 == 0 && e.Whole(frames)
    ensures e.Embeddings(frames + patch) == e.Embeddings(frames) + NextEmbeddings(e, frames, patch)
  {
    hide TailHidden;
    EvenPatches(e.patchSize, |frames|);
    DownSplit(e, e.zero, frames, patch);
    EncodeSplit(e, e.Down(e.zero, frames), e.Down(Last(e.zero, frames), patch), |frames| / e.patchSize);
  }

  // ---------------------------------------------------------------- the decode state

  /** Convolution tail, key/value caches and length of one stream. */
  class DecodeState {
    const e: Encoder
    var tail: Vec
    var kv: array2<Vec>   // layer, position
    var seqLen: nat
    ghost var frames: seq<Vec>
    ghost var tokens: seq<Vec>   // what the convolution made of the frames, call by call

    ghost predicate Shaped()
      reads this
    {
      kv.Length0 == e.s.depth && e.patchSize >= 2 && e.patchSize % 2 == 0
    }

    /** The tokens are those of one pass over all frames. */
    ghost predicate Streamed()
      reads this
    {
      tokens == e.Down(e.zero, frames)
    }

    /** Layer `l` holds `pairs` at its first positions. */
    ghost predicate Holds(l: nat, pairs: seq<Vec>)
      requires l < kv.Length0
      reads this, kv
    {
      |pairs| <= kv.Length1 && forall j :: 0 <= j < |pairs| ==> kv[l, j] == pairs[j]
    }

    /** The caches hold the pairs of one pass over all tokens so far, the tail the last frame. */
    ghost predicate Valid()
      reads this, kv
    {
      && Shaped() && e.Whole(frames)
      && seqLen == |tokens| == |frames| / 2 <= kv.Length1 && tail == Last(e.zero, frames)
      && forall l :: 0 <= l < e.s.depth ==> Holds(l, CausalKV(e.s, tokens, l))
    }

    lemma WholePatches()
      requires Valid()
      ensures e.patchSize > 0 && e.Whole(frames)
    {
    }

    constructor (e: Encoder, maxPatches: nat)
      requires e.patchSize >= 2 && e.patchSize % 2 == 0
      ensures Valid() && Streamed() && this.e == e && frames == [] && fresh(kv) && kv.Length1 == maxPatches * e.Rate()
    {
      hide CausalKV, Encoder.Rate, Encoder.Whole;
      NothingIsWhole(e);
      MulLe(0, maxPatches, e.Rate());
      this.e := e;
      tail, seqLen, frames, tokens := e.zero, 0, [], [];
      kv := new Vec[e.s.depth, maxPatches * e.Rate()]((_, _) => e.zero);
    }

    /** All positions of one layer's cache, stale ones included. */
    method ReadAll(l: nat) returns (r: seq<Vec>)
      requires l < kv.Length0
      ensures |r| == kv.Length1 && forall j :: 0 <= j < |r| ==> r[j] == kv[l, j]
    {
      r := [];
      for j := 0 to kv.Length1
        invariant |r| == j && forall i :: 0 <= i < j ==> r[i] == kv[l, i]
      {
        r := r + [kv[l, j]];
      }
    }

    /** index_copy: rows at consecutive positions of one layer. */
    method CopyIn(l: nat, rows: seq<Vec>, start: nat, ghost cached: seq<Vec>)
      requires l < kv.Length0 && |cached| == start && start + |rows| <= kv.Length1 && Holds(l, cached)
      modifies kv
      ensures Holds(l, cached + rows)
      ensures forall l', j :: 0 <= l' < kv.Length0 && 0 <= j < kv.Length1 && (l' != l || j < start) ==>
                kv[l', j] == old(kv[l', j])
    {
      forall i | 0 <= i < |rows| {
        kv[l, start + i] := rows[i];
      }
      ghost var full := cached + rows;
      forall j | 0 <= j < |full| ensures kv[l, j] == full[j] {
        if j >= start { assert kv[l, start + (j - start)] == rows[j - start]; }
      }
    }

    /** One layer of a decode step over its whole capacity: the new pairs are copied in at their positions,
        everything later is masked out. */
    method LayerStep(l: nat, h: seq<Vec>, start: nat, ghost old': seq<Vec>, ghost rows: seq<Vec>)
      returns (next: seq<Vec>)
      requires l < e.s.depth == kv.Length0 && |old'| == start && start + |rows| <= kv.Length1 && rows != []
      requires Holds(l, CausalKV(e.s, old', l)) && h == TailHidden(e.s, old', rows, l)
      modifies kv
      ensures Holds(l, CausalKV(e.s, old' + rows, l)) && next == TailHidden(e.s, old', rows, l + 1)
      ensures forall l', j :: 0 <= l' < kv.Length0 && 0 <= j < kv.Length1 && (l' != l || j < start) ==>
                kv[l', j] == old(kv[l', j])
    {
      hide TailHidden, CausalKV, LayerRow, Visible;
      CausalKVSplit(e.s, old', rows, l);
      ghost var full := CausalKV(e.s, old' + rows, l);
      CopyIn(l, KeyValues(e.s, l, h, Positions(start, |h|)), start, CausalKV(e.s, old', l));
      var all := ReadAll(l);
      assert all[..|full|] == full;
      next := MaskedAttend(e.s, l, h, start, all, full);
      CausalRows(e.s, old', rows, l, next);
    }

    /** All layers over new tokens at positions from `start` on. */
    method DecodeStep(rows: seq<Vec>, start: nat, ghost old': seq<Vec>) returns (h: seq<Vec>)
      requires Shaped() && |old'| == start && start + |rows| <= kv.Length1 && rows != []
      requires forall l :: 0 <= l < e.s.depth ==> Holds(l, CausalKV(e.s, old', l))
      modifies kv
      ensures forall l :: 0 <= l < e.s.depth ==> Holds(l, CausalKV(e.s, old' + rows, l))
      ensures h == TailHidden(e.s, old', rows, e.s.depth)
    {
      h := MapRows(e.s.input, rows);
      assert h == TailHidden(e.s, old', rows, 0);
      hide TailHidden, CausalKV;
      for l := 0 to e.s.depth
        invariant h == TailHidden(e.s, old', rows, l)
        invariant forall j :: l <= j < e.s.depth ==> Holds(j, CausalKV(e.s, old', j))
        invariant forall j :: 0 <= j < l ==> Holds(j, CausalKV(e.s, old' + rows, j))
      {
        h := LayerStep(l, h, start, old', rows);
      }
    }

    /** New tokens, made of frames `x`, go through all layers and into the caches. */
    method Feed(rows: seq<Vec>, x: seq<Vec>) returns (z: seq<Vec>)
      requires Valid() && rows != [] && x != [] && seqLen + |rows| <= kv.Length1
      requires |frames + x| / 2 == seqLen + |rows| && e.Whole(frames + x)
      modifies this`tail, this`seqLen, this`frames, this`tokens, kv
      ensures Valid() && frames == old(frames) + x && tokens == old(tokens) + rows
      ensures z == Fed(e, old(tokens), rows)
    {
      hide TailHidden, CausalKV, Encoder.Down, Encoder.Regroup;
      var h := DecodeStep(rows, seqLen, tokens);
      z := e.Regroup(h);
      tail := x[|x| - 1];
      seqLen := seqLen + |rows|;
      frames, tokens := frames + x, tokens + rows;
    }

    /** One pass over a prompt, padded with silence whatever the stream has heard before: its tokens join
        those of the stream, and it goes on from the stream only if the convolution cannot tell the carried
        frame from silence. */
    method Prefill(x: seq<Vec>) returns (r: Result<seq<Vec>, EncodeError>)
      requires Valid()
      modifies this`tail, this`seqLen, this`frames, this`tokens, kv
      ensures Valid()
      ensures r == Err(NotWholePatches) <==> !e.Whole(x)
      ensures r == Err(CapacityExceeded) <==> e.Whole(x) && x != [] && |old(frames) + x| / 2 > kv.Length1
      ensures r.Ok? || r == Err(NotWholePatches) || r == Err(CapacityExceeded)
      ensures r.Err? || x == [] ==> frames == old(frames) && tokens == old(tokens) && Streamed() == old(Streamed())
      ensures r.Ok? && x == [] ==> r == Ok([])
      ensures r.Ok? && x != [] ==> frames == old(frames) + x && tokens == old(tokens) + e.Down(e.zero, x)
      ensures r.Ok? && x != [] ==> r == Ok(Fed(e, old(tokens), e.Down(e.zero, x)))
      ensures r.Ok? && x != [] && old(Streamed()) ==>
                (Streamed() <==> e.conv(Last(e.zero, old(frames)), x[0]) == e.conv(e.zero, x[0]))
      ensures r.Ok? && x != [] && old(Streamed()) && Streamed() ==> r == Ok(NextEmbeddings(e, old(frames), x))
    {
      hide TailHidden, CausalKV, Encoder.Down, Encoder.Regroup, Encoder.Whole, Encoder.Expected, Encoder.Rate, Holds;
      NothingIsWhole(e);
      if !e.Whole(x) {
        return Err(NotWholePatches);
      }
      if |x| == 0 {
        return Ok([]);
      }
      var rows := e.Down(e.zero, x);
      PatchCounts(e, frames, x);
      if |rows| != e.Expected(|x|) {
        return Err(UnexpectedTokens);
      }
      if seqLen + |rows| > kv.Length1 {
        return Err(CapacityExceeded);
      }
      SameDown(e, tail, x);
      DownSplit(e, e.zero, frames, x);
      SameEnd(tokens, rows, e.Down(tail, x));
      var z := Feed(rows, x);
      r := Ok(z);
    }

    /** Regrows the caches to whole patches when they are too short; what is cached moves along. */
    method EnsureCapacity(required: nat)
      requires Valid() && required > 0 && seqLen <= required
      modifies this`kv
      ensures Valid() && kv.Length1 >= required && (kv == old(kv) || fresh(kv))
    {
      hide CausalKV;
      if kv.Length1 >= required {
        return;
      }
      var patches := CeilPatches(required, e.Rate());
      var grown := new Vec[e.s.depth, patches * e.Rate()]((_, _) => e.zero);
      var from := kv;
      forall l, j | 0 <= l < e.s.depth && 0 <= j < seqLen {
        grown[l, j] := from[l, j];
      }
      kv := grown;
    }

    /** One patch: its tokens from the carried tail, its pairs cached, its embedding returned. */
    method DecodePatch(patch: seq<Vec>) returns (r: Result<seq<Vec>, EncodeError>)
      requires Valid()
      modifies this, kv
      ensures Valid() && (kv == old(kv) || fresh(kv))
      ensures |patch| != e.patchSize ==> r == Err(WrongPatchLength) && frames == old(frames) && tokens == old(tokens)
      ensures |patch| == e.patchSize ==> frames == old(frames) + patch
      ensures |patch| == e.patchSize ==> tokens == old(tokens) + e.Down(old(tail), patch)
      ensures |patch| == e.patchSize ==> r == Ok(Fed(e, old(tokens), e.Down(old(tail), patch)))
      ensures |patch| == e.patchSize && old(Streamed()) ==> Streamed() && r == Ok(NextEmbeddings(e, old(frames), patch))
    {
      hide TailHidden, CausalKV, Encoder.Down, Encoder.Regroup, Holds;
      PatchCounts(e, frames, patch);
      EnsureCapacity(seqLen + e.Rate());
      if |patch| != e.patchSize {
        return Err(WrongPatchLength);
      }
      OnePatch(e, patch);
      var rows := e.Down(tail, patch);
      if |rows| != e.Rate() {
        return Err(UnexpectedTokens);
      }
      DownSplit(e, e.zero, frames, patch);
      var z := Feed(rows, patch);
      r := Ok(z);
    }
  }

  method CeilPatches(n: nat, rate: nat) returns (k: nat)
    requires rate > 0
    ensures k * rate >= n
  {
    k := (n + rate - 1) / rate;
    assert n + rate - 1 == k * rate + (n + rate - 1) % rate;
  }

  lemma PatchCounts(e: Encoder, frames: seq<Vec>, x: seq<Vec>)
    requires e.patchSize >= 2 && e.patchSize % 2 == 0 && e.Whole(frames)
    ensures |frames| % 2 == 0 && |e.Down(e.zero, frames)| == |frames| / 2
    ensures e.Whole(x) ==>
              && |x| % 2 == 0 && |e.Down(e.zero, x)| == |x| / 2 == e.Expected(|x|)
              && e.Whole(frames + x) && |frames + x| / 2 == |frames| / 2 + |x| / 2
  {
    EvenPatches(e.patchSize, |frames|);
    if e.Whole(x) {
      EvenPatches(e.patchSize, |x|);
      WholeSum(|frames|, |x|, e.patchSize);
    }
  }

  lemma WholeSum(a: nat, b: nat, p: nat)
    requires p > 0 && a % p == 0 && b % p == 0
    ensures (a + b) % p == 0
  {
    MulAdd(a / p, b / p, p);
    ModIs(a + b, p, a / p + b / p, 0);
  }

  lemma OnePatch(e: Encoder, patch: seq<Vec>)
    requires e.patchSize >= 2 && e.patchSize % 2 == 0 && |patch| == e.patchSize
    ensures e.Whole(patch) && |e.Down(Last(e.zero, patch), patch)| == e.Rate() && (|patch| + 1) / 2 == e.Rate()
  {
  }

  /** The convolution that cannot tell the tail from silence. */
  lemma SameDown(e: Encoder, tail: Vec, x: seq<Vec>)
    requires x != []
    ensures e.Down(tail, x) == e.Down(e.zero, x) <==> e.conv(tail, x[0]) == e.conv(e.zero, x[0])
  {
    assert e.Down(tail, x)[0] == e.conv(tail, x[0]) && e.Down(e.zero, x)[0] == e.conv(e.zero, x[0]);
    if e.conv(tail, x[0]) == e.conv(e.zero, x[0]) {
      forall t | 0 <= t < (|x| + 1) / 2 ensures e.Down(tail, x)[t] == e.Down(e.zero, x)[t] {
      }
    }
  }

  lemma SameEnd(a: seq<Vec>, b: seq<Vec>, c: seq<Vec>)
    ensures a + b == a + c <==> b == c
  {
    if a + b == a + c {
      assert b == (a + b)[|a|..] && c == (a + c)[|a|..];
    }
  }

  /** A prefill of `x` after `frames` gives the embeddings of the stream. */
  ghost predicate GoesOn(e: Encoder, frames: seq<Vec>, x: seq<Vec>)
    requires e.Rate() > 0
  {
    Fed(e, e.Down(e.zero, frames), e.Down(e.zero, x)) == NextEmbeddings(e, frames, x)
  }

  /** Every encoder goes on from `frames` exactly if the frame carried over is silence, as it is before the
      first frame: the tail a caller finds in the state decides, whatever the weights. */
  lemma PrefillGoesOn(zero: Vec, patchSize: nat, frames: seq<Vec>, x: seq<Vec>)
    requires patchSize >= 2 && patchSize % 2 == 0 && x != [] && |x| % patchSize == 0
    ensures (forall e: Encoder :: e.zero == zero && e.patchSize == patchSize ==> GoesOn(e, frames, x))
            <==> Last(zero, frames) == zero
  {
    hide TailHidden, Encoder.Regroup;
    var s := Stack(0, v => v, (_, v, _) => v, (_, v, _) => v, (v, _) => v, (_, v, _) => v, v => v);
    var e := Encoder(s, zero, (a, b) => a, patchSize, z => if z == [] then zero else z[0]);
    if GoesOn(e, frames, x) {
      FirstOnly(e, e.Down(zero, frames), e.Down(zero, x));
      FirstOnly(e, e.Down(zero, frames), e.Down(Last(zero, frames), x));
    }
  }

  /** Without layers the first embedding depends on its own tokens alone. */
  lemma FirstOnly(e: Encoder, tokens: seq<Vec>, rows: seq<Vec>)
    requires e.s.depth == 0 && 0 < e.Rate() <= |rows|
    ensures Fed(e, tokens, rows) != [] && Fed(e, tokens, rows)[0] == e.project(MapRows(e.s.input, rows)[..e.Rate()])
  {
    assert TailHidden(e.s, tokens, rows, 0) == MapRows(e.s.input, rows);
  }

  /** Attention over a whole cache row under the bias `key position <= query position <= last position`. */
  method MaskedAttend(s: Stack, l: nat, h: seq<Vec>, start: nat, all: seq<Vec>, ghost full: seq<Vec>)
    returns (next: seq<Vec>)
    requires h != [] && |full| == start + |h| <= |all| && all[..|full|] == full
    ensures |next| == |h|
    ensures forall i :: 0 <= i < |h| ==> next[i] == LayerRow(s, l, h[i], start + i, full[..start + i + 1])
  {
    hide Visible, LayerRow;
    var last := start + |h| - 1;
    var sees := (p: nat, j: nat) => j <= p && j <= last;
    next := [];
    for i := 0 to |h|
      invariant |next| == i
      invariant forall k :: 0 <= k < i ==> next[k] == LayerRow(s, l, h[k], start + k, full[..start + k + 1])
    {
      VisiblePrefix(all, sees, start + i);
      assert all[..start + i + 1] == full[..start + i + 1];
      next := next + [LayerRow(s, l, h[i], start + i, Visible(all, sees, start + i))];
    }
  }

  lemma NothingIsWhole(e: Encoder)
    requires e.patchSize > 0
    ensures e.Whole([])
  {
  }

  lemma NothingEmbeds(e: Encoder)
    requires e.Rate() > 0
    ensures e.Embeddings([]) == []
  {
  }

  /** A prompt in one pass, then patches one by one: the embeddings of one pass over everything. */
  method EncodeStream(e: Encoder, maxPatches: nat, prompt: seq<Vec>, patches: seq<seq<Vec>>)
    returns (r: Result<seq<Vec>, EncodeError>)
    requires e.patchSize >= 2 && e.patchSize % 2 == 0
    ensures !e.Whole(prompt) ==> r == Err(NotWholePatches)
    ensures e.Whole(prompt) && |prompt| / 2 > maxPatches * e.Rate() ==> r == Err(CapacityExceeded)
    ensures e.Whole(prompt) && |prompt| / 2 <= maxPatches * e.Rate() ==>
              if forall i :: 0 <= i < |patches| ==> |patches[i]| == e.patchSize
              then r == Ok(e.Embeddings(prompt + Flat(patches)))
              else r == Err(WrongPatchLength)
  {
    hide TailHidden, CausalKV, Encoder.Down, Encoder.Regroup, Encoder.Embeddings, NextEmbeddings, DecodeState.Valid,
         DecodeState.Streamed, Fed, Flat, Start;
    MulLe(0, maxPatches, e.Rate());
    var st := new DecodeState(e, maxPatches);
    assert [] + prompt == prompt;
    r := st.Prefill(prompt);
    if r.Err? {
      return;
    }
    NothingEmbeds(e);
    EmbeddingsSplit(e, [], prompt);
    var out := r.value;
    FlatStart(patches, prompt);
    for i := 0 to |patches|
      invariant fresh(st) && fresh(st.kv) && st.Valid() && st.Streamed() && st.e == e
      invariant forall j :: 0 <= j < i ==> |patches[j]| == e.patchSize
      invariant st.frames == prompt + Flat(patches[..i]) && out == e.Embeddings(st.frames)
    {
      ghost var frames := st.frames;
      st.WholePatches();
      r := st.DecodePatch(patches[i]);
      if r.Err? {
        return;
      }
      EmbeddingsSplit(e, frames, patches[i]);
      StartStep(patches, i);
      assert prompt + Flat(patches[..i]) + patches[i] == prompt + (Flat(patches[..i]) + patches[i]);
      out := out + r.value;
    }
    assert patches[..|patches|] == patches;
    r := Ok(out);
  }

  lemma FlatStart(patches: seq<seq<Vec>>, prompt: seq<Vec>)
    ensures prompt + Flat(patches[..0]) == prompt
  {
  }
}
