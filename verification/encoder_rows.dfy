/** The pool of encoder rows: rows are claimed by requests, on arrival or at their first patch, and recycled
    when a request finishes or is cancelled.  A claimed row always starts empty, and a batched step gives
    every request what an encoder of its own would.
 */
module EncoderRows {
  import opened FlashPatchEncoder
  import opened PatchEncoder
  import opened Transformer

  /** Free rows and rows held by requests are a duplicate-free partition of the rows below `n`. */
  ghost predicate Partition(free: seq<nat>, rowOf: map<nat, nat>, n: nat) {
    && (forall i, j :: 0 <= i < j < |free| ==> free[i] != free[j])
    && (forall a, b :: a in rowOf && b in rowOf && a != b ==> rowOf[a] != rowOf[b])
    && (forall a :: a in rowOf ==> rowOf[a] !in free && rowOf[a] < n)
    && (forall r :: r in free ==> r < n)
    && (forall r :: 0 <= r < n ==> r in free || Held(rowOf, r))
  }

  ghost predicate Held(rowOf: map<nat, nat>, r: nat) {
    exists a :: a in rowOf && rowOf[a] == r
  }

  lemma NewPartition(n: nat)
    ensures Partition(seq(n, i requires 0 <= i => i), map[], n)
  {
    var free := seq(n, i requires 0 <= i => i);
    forall r: nat | r < n ensures r in free {
      assert free[r] == r;
    }
  }

  lemma ClaimKeeps(free: seq<nat>, rowOf: map<nat, nat>, n: nat, id: nat)
    requires Partition(free, rowOf, n) && free != [] && id !in rowOf
    ensures Partition(free[..|free| - 1], rowOf[id := free[|free| - 1]], n)
  {
    var front, r, now := free[..|free| - 1], free[|free| - 1], rowOf[id := free[|free| - 1]];
    assert free == front + [r] && r in free && r !in front;
    assert forall x :: x in front ==> x in free;
    assert forall a :: a in now && a != id ==> a in rowOf && now[a] == rowOf[a];
    forall x | 0 <= x < n
      ensures x in front || Held(now, x)
    {
      if x == r {
        assert now[id] == x;
      } else if x !in free {
        var a :| a in rowOf && rowOf[a] == x;
        assert a in now && now[a] == x;
      }
    }
  }

  lemma ReleaseKeeps(free: seq<nat>, rowOf: map<nat, nat>, n: nat, id: nat)
    requires Partition(free, rowOf, n) && id in rowOf
    ensures Partition(free + [rowOf[id]], rowOf - {id}, n)
  {
    var r, now := rowOf[id], rowOf - {id};
    forall x | 0 <= x < n
      ensures x in free + [r] || Held(now, x)
    {
      if x != r && x !in free {
        var a :| a in rowOf && rowOf[a] == x;
        assert a in now && now[a] == x;
      }
    }
  }

  class RowPool {
    const enc: FlashEncoder
    var free: seq<nat>
    var rowOf: map<nat, nat>

    ghost predicate Valid()
      reads this, enc, enc.cache.buf
    {
      enc.Valid() && Partition(free, rowOf, enc.maxBatch)
    }

    /** The frames a request has in its row, none if it has no row. */
    ghost function History(id: nat): seq<Vec>
      reads this, enc
    {
      if id in rowOf && rowOf[id] < |enc.frames| then enc.frames[rowOf[id]] else []
    }

    constructor (e: Encoder, maxBatch: nat, maxSeqLen: nat)
      requires e.patchSize >= 2 && e.patchSize % 2 == 0
      ensures Valid() && rowOf == map[] && enc.e == e && enc.maxBatch == maxBatch && enc.cache.cap == maxSeqLen
    {
      enc := new FlashEncoder(e, maxBatch, maxSeqLen);
      free := seq(maxBatch, i requires 0 <= i => i);
      rowOf := map[];
      NewPartition(maxBatch);
    }

    /** A request claims the last free row, which is wiped; if no row is left, none is claimed. */
    method Claim(id: nat) returns (ok: bool)
      requires Valid() && id !in rowOf
      modifies this, enc, enc.cache.buf
      ensures Valid() && (ok <==> old(free) != [])
      ensures !ok ==> rowOf == old(rowOf) && free == old(free) && enc.frames == old(enc.frames)
      ensures ok ==> free == old(free)[..|old(free)| - 1] && rowOf == old(rowOf)[id := old(free)[|old(free)| - 1]]
      ensures forall a :: History(a) == old(History(a))
    {
      hide FlashEncoder.RowOk, Partition;
      if free == [] {
        return false;
      }
      LastFree(free, rowOf, enc.maxBatch);
      ClaimKeeps(free, rowOf, enc.maxBatch, id);
      var r := free[|free| - 1];
      free := free[..|free| - 1];
      rowOf := rowOf[id := r];
      enc.ResetRow(r);
      ok := true;
    }

    /** A cloned prompt is encoded in a row of its own on arrival; if no row is left or the prompt does not fit,
        nothing is claimed. */
    method AddClone(id: nat, prompt: seq<Vec>) returns (ok: bool, z: seq<Vec>)
      requires Valid() && id !in rowOf && prompt != [] && enc.e.Whole(prompt)
      modifies this, enc, enc.cache.buf
      ensures Valid() && (ok <==> old(free) != [] && |prompt| / 2 <= enc.cache.cap)
      ensures !ok ==> rowOf == old(rowOf) && free == old(free)
      ensures ok ==> History(id) == prompt && z == enc.e.Embeddings(prompt)
      ensures ok ==> free == old(free)[..|old(free)| - 1] && rowOf == old(rowOf)[id := old(free)[|old(free)| - 1]]
      ensures forall a :: a != id ==> History(a) == old(History(a))
    {
      hide FlashEncoder.RowOk, Partition, Encoder.Embeddings;
      z := [];
      ok := Claim(id);
      if !ok {
        return;
      }
      RowsApart(free, rowOf, enc.maxBatch, id);
      ok, z := enc.Prefill(prompt, rowOf[id]);
      if !ok {
        Release(id);
        assert rowOf == old(rowOf) && free == old(free);
      }
    }

    /** A request that leaves gives its row back, if it has one. */
    method Release(id: nat)
      requires Valid()
      modifies this
      ensures Valid() && rowOf == old(rowOf) - {id}
      ensures free == old(free) + (if id in old(rowOf) then [old(rowOf)[id]] else [])
      ensures forall a :: a != id ==> History(a) == old(History(a))
    {
      hide FlashEncoder.RowOk, Partition;
      if id in rowOf {
        ReleaseKeeps(free, rowOf, enc.maxBatch, id);
        free := free + [rowOf[id]];
        rowOf := rowOf - {id};
      } else {
        assert rowOf - {id} == rowOf;
      }
    }

    /** Everybody in a batch has a row, claimed now if need be; histories do not change by it. */
    method ClaimRows(ids: seq<nat>) returns (ok: bool, rows: seq<nat>)
      requires Valid()
      modifies this, enc, enc.cache.buf
      ensures Valid() && (!ok ==> free == [])
      ensures forall a :: History(a) == old(History(a))
      ensures ok ==> |rows| == |ids| && forall i :: 0 <= i < |ids| ==> ids[i] in rowOf && rows[i] == rowOf[ids[i]]
    {
      hide FlashEncoder.Valid, FlashEncoder.RowOk, Partition;
      ok, rows := true, [];
      for i := 0 to |ids|
        invariant Valid() && |rows| == i
        invariant forall a :: History(a) == old(History(a))
        invariant forall k :: 0 <= k < i ==> ids[k] in rowOf && rows[k] == rowOf[ids[k]]
      {
        if ids[i] !in rowOf {
          ok := Claim(ids[i]);
          if !ok {
            return;
          }
        }
        rows := rows + [rowOf[ids[i]]];
      }
    }

    /** One batched step: rows are claimed where needed, then every patch is encoded in its request's row.
        Each request gets what an encoder of its own would give it, at whatever length, and nobody else's
        history changes; the only failure is a pool without free rows. */
    method StepBatch(ids: seq<nat>, patches: seq<seq<Vec>>) returns (ok: bool, z: seq<seq<Vec>>)
      requires Valid() && |ids| == |patches| && (forall i, j :: 0 <= i < j < |ids| ==> ids[i] != ids[j])
      requires forall i :: 0 <= i < |ids| ==> |patches[i]| == enc.e.patchSize && RoomFor(ids[i])
      modifies this, enc, enc.cache.buf
      ensures Valid() && (!ok ==> free == [])
      ensures ok ==> |z| == |ids| && forall i :: 0 <= i < |ids| ==>
                z[i] == NextEmbeddings(enc.e, old(History(ids[i])), patches[i])
                  && History(ids[i]) == old(History(ids[i])) + patches[i]
      ensures ok ==> forall a :: a !in ids ==> History(a) == old(History(a))
    {
      hide NextEmbeddings, FlashEncoder.RowOk, Partition;
      var rows;
      ok, rows := ClaimRows(ids);
      if !ok {
        return false, [];
      }
      RowsDistinct(free, rowOf, enc.maxBatch, ids, rows);
      forall i | 0 <= i < |ids|
        ensures enc.seqlens[rows[i]] + enc.e.Rate() <= enc.cache.cap && History(ids[i]) == enc.frames[rows[i]]
      {
        assert old(RoomFor(ids[i])) && History(ids[i]) == old(History(ids[i]));
        RowLength(rows[i]);
      }
      z := enc.DecodePatch(patches, rows);
      forall a | a !in ids
        ensures History(a) == old(History(a))
      {
        OtherRow(free, rowOf, enc.maxBatch, ids, rows, a);
      }
    }

    /** The encoder cache has room for another patch of that request. */
    ghost predicate RoomFor(id: nat)
      reads this, enc
    {
      (|History(id)| + 1) / 2 + enc.e.Rate() <= enc.cache.cap
    }

    lemma RowLength(r: nat)
      requires enc.Valid() && r < enc.maxBatch
      ensures enc.seqlens[r] == (|enc.frames[r]| + 1) / 2
    {
      assert enc.RowOk(r);
    }
  }

  lemma RowsDistinct(free: seq<nat>, rowOf: map<nat, nat>, n: nat, ids: seq<nat>, rows: seq<nat>)
    requires Partition(free, rowOf, n) && |rows| == |ids| && (forall i, j :: 0 <= i < j < |ids| ==> ids[i] != ids[j])
    requires forall i :: 0 <= i < |ids| ==> ids[i] in rowOf && rows[i] == rowOf[ids[i]]
    ensures (forall i, j :: 0 <= i < j < |rows| ==> rows[i] != rows[j]) && forall i :: 0 <= i < |rows| ==> rows[i] < n
  {
  }

  lemma OtherRow(free: seq<nat>, rowOf: map<nat, nat>, n: nat, ids: seq<nat>, rows: seq<nat>, a: nat)
    requires Partition(free, rowOf, n) && |rows| == |ids| && a !in ids
    requires forall i :: 0 <= i < |ids| ==> ids[i] in rowOf && rows[i] == rowOf[ids[i]]
    ensures a in rowOf ==> rowOf[a] !in rows && rowOf[a] < n
  {
    if a in rowOf {
      forall i | 0 <= i < |rows|
        ensures rows[i] != rowOf[a]
      {
        assert ids[i] in ids;
      }
    }
  }

  lemma RowsApart(free: seq<nat>, rowOf: map<nat, nat>, n: nat, id: nat)
    requires Partition(free, rowOf, n) && id in rowOf
    ensures rowOf[id] < n && forall a :: a in rowOf && a != id ==> rowOf[a] != rowOf[id] && rowOf[a] < n
  {
  }

  lemma LastFree(free: seq<nat>, rowOf: map<nat, nat>, n: nat)
    requires Partition(free, rowOf, n) && free != []
    ensures free[|free| - 1] < n && forall a :: a in rowOf ==> rowOf[a] != free[|free| - 1] && rowOf[a] < n
  {
    assert free[|free| - 1] in free;
  }
}
