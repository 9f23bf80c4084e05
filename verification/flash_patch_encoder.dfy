/** The batched patch encoder: every request has its own row of one buffer, and one call serves rows of
    different lengths.  Each row gets what an encoder of its own would give it.
 */
module FlashPatchEncoder {
  import opened FlashFmCache
  import opened PatchEncoder
  import opened Transformer

  class FlashEncoder {
    const e: Encoder
    const maxBatch: nat
    const cache: FlashFMCache
    var tails: seq<Vec>
    var seqlens: seq<nat>
    ghost var frames: seq<seq<Vec>>

    ghost predicate Shaped()
      reads this
    {
      && cache.Shaped() && cache.bufRows == maxBatch == |tails| == |seqlens| == |frames|
      && cache.numLayers == e.s.depth && e.patchSize >= 2 && e.patchSize % 2 == 0
    }

    /** Row `r` stands exactly where an encoder of its own would after the row's frames. */
    ghost predicate RowOk(r: nat)
      requires Shaped() && r < maxBatch
      reads this, cache.buf
    {
      && e.Whole(frames[r])
      && seqlens[r] == |e.Down(e.zero, frames[r])| && tails[r] == Last(e.zero, frames[r])
      && cache.HoldsPrefix(r, e.s, e.Down(e.zero, frames[r]))
    }

    ghost predicate Valid()
      reads this, cache.buf
    {
      Shaped() && forall r :: 0 <= r < maxBatch ==> RowOk(r)
    }

    constructor (e: Encoder, maxBatch: nat, maxSeqLen: nat)
      requires e.patchSize >= 2 && e.patchSize % 2 == 0
      ensures Valid() && this.e == e && this.maxBatch == maxBatch && cache.cap == maxSeqLen
      ensures frames == seq(maxBatch, _ => []) && fresh(cache.buf)
    {
      hide CausalKV;
      this.e, this.maxBatch := e, maxBatch;
      cache := new FlashFMCache.Rows(maxBatch, e.s.depth, maxSeqLen, e.zero);
      tails := seq(maxBatch, _ => e.zero);
      seqlens := seq(maxBatch, _ => 0);
      frames := seq(maxBatch, _ => []);
    }

    /** A claimed row starts from nothing, whatever its last owner left. */
    method ResetRow(r: nat)
      requires Valid() && r < maxBatch
      modifies this, cache.buf
      ensures Valid() && frames == old(frames)[r := []]
    {
      hide CausalKV;
      seqlens := seqlens[r := 0];
      tails := tails[r := e.zero];
      forall l, j | 0 <= l < cache.numLayers && 0 <= j < cache.cap {
        cache.buf[l, r, j] := e.zero;
      }
      frames := frames[r := []];
      assert e.Down(e.zero, frames[r]) == [] && RowOk(r);
      RowsStay(r);
    }

    /** Rows other than `r` are as they were. */
    twostate lemma RowsStay(r: nat)
      requires old(Valid()) && Shaped() && r < maxBatch && frames == old(frames)[r := frames[r]]
      requires forall k :: 0 <= k < maxBatch && k != r ==> tails[k] == old(tails[k]) && seqlens[k] == old(seqlens[k])
      requires forall l, k, j :: 0 <= l < cache.numLayers && 0 <= k < cache.bufRows && 0 <= j < cache.cap && k != r ==>
                 cache.buf[l, k, j] == old(cache.buf[l, k, j])
      ensures forall k :: 0 <= k < maxBatch && k != r ==> RowOk(k)
    {
      hide CausalKV, Encoder.Down;
      forall k | 0 <= k < maxBatch && k != r
        ensures RowOk(k)
      {
        assert old(RowOk(k));
      }
    }

    /** The layers over new tokens of row `r`; no other row notices. */
    method EncodeAt(r: nat, rows: seq<Vec>, start: nat, ghost tokens: seq<Vec>) returns (h: seq<Vec>)
      requires Valid() && r < maxBatch && start + |rows| <= cache.cap && |tokens| == start
      requires cache.HoldsPrefix(r, e.s, tokens)
      modifies cache.buf
      ensures cache.HoldsPrefix(r, e.s, tokens + rows) && h == TailHidden(e.s, tokens, rows, e.s.depth)
      ensures forall k :: 0 <= k < maxBatch && k != r ==> RowOk(k)
    {
      hide CausalKV, TailHidden, Encoder.Down, RowOk;
      h := cache.EncodeRow(r, rows, Positions(start, |rows|), start, e.s, tokens);
      assert frames == frames[r := frames[r]];
      RowsStay(r);
    }

    /** New tokens at the end of what row `r` holds. */
    method FeedRow(r: nat, rows: seq<Vec>, start: nat, x: seq<Vec>, ghost before: seq<Vec>) returns (z: seq<Vec>)
      requires Valid() && r < maxBatch && x != [] && rows != [] && start + |rows| <= cache.cap
      requires |e.Down(e.zero, before)| == start && cache.HoldsPrefix(r, e.s, e.Down(e.zero, before))
      requires e.Down(e.zero, before + x) == e.Down(e.zero, before) + rows && e.Whole(before + x)
      modifies this, cache.buf
      ensures Valid() && frames == old(frames)[r := before + x]
      ensures forall k :: 0 <= k < maxBatch && k != r ==> seqlens[k] == old(seqlens)[k]
      ensures z == e.Regroup(TailHidden(e.s, e.Down(e.zero, before), rows, e.s.depth))
    {
      hide CausalKV, TailHidden, Encoder.Down, Encoder.Regroup, RowOk, FlashFMCache.HoldsPrefix;
      ghost var tokens := e.Down(e.zero, before);
      var h := EncodeAt(r, rows, start, tokens);
      z := e.Regroup(h);
      Advance(r, start + |rows|, x[|x| - 1], before + x);
    }

    /** The row's tail and length move on. */
    method Advance(r: nat, length: nat, last: Vec, ghost now: seq<Vec>)
      requires Shaped() && r < maxBatch
      requires e.Whole(now) && length == |e.Down(e.zero, now)| && last == Last(e.zero, now)
      requires cache.HoldsPrefix(r, e.s, e.Down(e.zero, now))
      requires forall k :: 0 <= k < maxBatch && k != r ==> RowOk(k)
      modifies this
      ensures Valid() && frames == old(frames)[r := now]
      ensures forall k :: 0 <= k < maxBatch && k != r ==> seqlens[k] == old(seqlens)[k]
    {
      hide CausalKV, Encoder.Down;
      tails := tails[r := last];
      seqlens := seqlens[r := length];
      frames := frames[r := now];
      assert RowOk(r);
      assert forall k :: 0 <= k < maxBatch && k != r ==> old(RowOk(k)) ==> RowOk(k);
    }

    /** A whole prompt into one row, in one pass from an empty history. */
    method Prefill(x: seq<Vec>, r: nat) returns (ok: bool, z: seq<Vec>)
      requires Valid() && r < maxBatch && x != [] && e.Whole(x)
      modifies this, cache.buf
      ensures ok <==> |x| / 2 <= cache.cap
      ensures !ok ==> Valid() && frames == old(frames)
      ensures ok ==> Valid() && frames == old(frames)[r := x] && z == e.Embeddings(x)
    {
      hide CausalKV, TailHidden, Encoder.Down, Encoder.Regroup, RowOk, Encoder.Embeddings;
      var rows := e.Down(e.zero, x);
      PatchCounts(e, [], x);
      EvenPatches(e.patchSize, |x|);
      if |rows| > cache.cap {
        return false, [];
      }
      DownSplit(e, e.zero, [], x);
      assert [] + x == x;
      HoldsNothing(r);
      NothingEmbeds(e);
      EmbeddingsSplit(e, [], x);
      z := FeedRow(r, rows, 0, x, []);
      ok := true;
    }

    lemma HoldsNothing(r: nat)
      requires Shaped() && r < maxBatch
      ensures e.Down(e.zero, []) == [] && cache.HoldsPrefix(r, e.s, [])
    {
      hide CausalKV;
    }

    /** One patch for each of several distinct rows, whatever their lengths: every row gets the embedding an
        encoder of its own would give, and no other row changes. */
    method DecodePatch(patches: seq<seq<Vec>>, rows: seq<nat>) returns (z: seq<seq<Vec>>)
      requires Valid() && |patches| == |rows|
      requires forall i :: 0 <= i < |rows| ==>
                 rows[i] < maxBatch && |patches[i]| == e.patchSize && seqlens[rows[i]] + e.Rate() <= cache.cap
      requires forall i, j :: 0 <= i < j < |rows| ==> rows[i] != rows[j]
      modifies this, cache.buf
      ensures Valid() && |z| == |rows|
      ensures forall i :: 0 <= i < |rows| ==>
                z[i] == NextEmbeddings(e, old(frames[rows[i]]), patches[i])
                  && frames[rows[i]] == old(frames[rows[i]]) + patches[i]
      ensures forall r :: 0 <= r < maxBatch && r !in rows ==> frames[r] == old(frames[r])
    {
      hide NextEmbeddings, RowOk, CausalKV, Encoder.Down;
      z := [];
      for i := 0 to |rows|
        invariant Valid() && |z| == i
        invariant forall k :: 0 <= k < i ==>
                    z[k] == NextEmbeddings(e, old(frames[rows[k]]), patches[k])
                      && frames[rows[k]] == old(frames[rows[k]]) + patches[k]
        invariant forall r :: 0 <= r < maxBatch && r !in rows[..i] ==>
                    frames[r] == old(frames[r]) && seqlens[r] == old(seqlens[r])
      {
        assert rows[i] !in rows[..i];
        var one := DecodeRow(patches[i], rows[i]);
        assert rows[..i + 1] == rows[..i] + [rows[i]];
        z := z + [one];
      }
      assert rows[..|rows|] == rows;
    }

    method DecodeRow(patch: seq<Vec>, r: nat) returns (z: seq<Vec>)
      requires Valid() && r < maxBatch && |patch| == e.patchSize && seqlens[r] + e.Rate() <= cache.cap
      modifies this, cache.buf
      ensures Valid() && frames == old(frames)[r := old(frames)[r] + patch]
      ensures z == NextEmbeddings(e, old(frames)[r], patch)
      ensures forall k :: 0 <= k < maxBatch && k != r ==> seqlens[k] == old(seqlens)[k]
    {
      hide CausalKV, TailHidden, Encoder.Down, Encoder.Regroup;
      assert RowOk(r);
      PatchCounts(e, frames[r], patch);
      OnePatch(e, patch);
      var rows := e.Down(tails[r], patch);
      DownSplit(e, e.zero, frames[r], patch);
      z := FeedRow(r, rows, seqlens[r], patch, frames[r]);
    }
  }
}
