/** How much one call of `schedule` takes on: never more than the limits allow, and never less than they and the
    pool force.  Everything is said of the batch, the queues and the pool that come out.
 */
module ScheduleLimits {
  import opened BlockPool
  import opened Outcomes
  import opened Scheduling

  /** Tokens a prefill batch computes. */
  function ToCompute(batch: seq<SeqState>): int {
    if batch == [] then 0
    else ToCompute(batch[..|batch| - 1]) + |batch[|batch| - 1].tokens| - batch[|batch| - 1].cached
  }

  lemma ToComputeSnoc(batch: seq<SeqState>, s: SeqState)
    ensures ToCompute(batch + [s]) == ToCompute(batch) + |s.tokens| - s.cached
  {
    assert (batch + [s])[..|batch|] == batch;
  }

  /** Within both limits. */
  predicate Within(cfg: Config, batch: seq<SeqState>) {
    |batch| <= cfg.maxSeqs && ToCompute(batch) <= cfg.maxTokens
  }

  /** Why nobody more was admitted: nobody waits, the batch is full, the head would break the token budget, or
      the pool is short of blocks for it. */
  predicate Exhausted(e: Env, cfg: Config, p: Pool, waiting: seq<SeqState>, batch: seq<SeqState>)
    requires e.blockSize > 0
  {
    || waiting == [] || |batch| == cfg.maxSeqs
    || ToCompute(batch) + |waiting[0].tokens| > cfg.maxTokens
    || |p.free| * e.blockSize < |waiting[0].tokens|
  }

  /** The pass keeps the limits, counts what it says, and stops only when it must. */
  lemma {:induction false} PrefillLimits(e: Env, cfg: Config, st: Prefill)
    requires e.blockSize > 0 && PrefillLoop(e, cfg, st).Some?
    requires Within(cfg, st.batch) && st.tokens == ToCompute(st.batch)
    ensures var r := PrefillLoop(e, cfg, st).value;
            && Within(cfg, r.batch) && r.tokens == ToCompute(r.batch)
            && Exhausted(e, cfg, r.pool, r.waiting, r.batch)
    decreases |st.waiting|
  {
    hide Allocate, NumBlocks;
    if Admissible(e, cfg, st) {
      var next := Admit(e, st).value;
      var t := Allocate(e, st.pool, st.waiting[0]).value.1;
      AllocateKeepsTokens(e, st.pool, st.waiting[0]);
      ToComputeSnoc(st.batch, t);
      PrefillLimits(e, cfg, next);
    } else if st.waiting != [] {
      BlocksNeeded(|st.waiting[0].tokens|, |st.pool.free|, e.blockSize);
    }
  }

  lemma AllocateKeepsTokens(e: Env, p: Pool, s: SeqState)
    requires e.blockSize > 0 && Allocate(e, p, s).Some?
    ensures Allocate(e, p, s).value.1.tokens == s.tokens
  {
    hide AllocUpto, NumBlocks;
  }

  /** `n` tokens fit in `k` blocks exactly if the blocks are that long together. */
  lemma BlocksNeeded(n: nat, k: nat, size: nat)
    requires size > 0
    ensures NumBlocks(n, size) <= k <==> n <= k * size
  {
    var q, r := (n + size - 1) / size, (n + size - 1) % size;
    assert n + size - 1 == q * size + r;
    if q <= k {
      assert q * size <= k * size;
    } else {
      assert (k + 1) * size <= q * size;
      assert (k + 1) * size == k * size + size;
    }
  }

  /** A decode pass batches everybody who runs, or as many as a batch holds. */
  lemma {:induction false} DecodeLimits(e: Env, cfg: Config, st: Decode)
    requires e.blockSize > 0 && DecodeLoop(e, cfg, st).Some? && |st.batch| <= cfg.maxSeqs
    ensures var r := DecodeLoop(e, cfg, st).value;
            |r.batch| <= cfg.maxSeqs && (r.running == [] || |r.batch| == cfg.maxSeqs)
    decreases |st.running|
  {
    hide MakeRoom, MayAppend;
    if st.running != [] && |st.batch| < cfg.maxSeqs {
      var cur := st.running[0];
      var room := MakeRoom(e, st.pool, st.waiting, st.running[1..], cur);
      RoomShrinks(e, st.pool, st.waiting, st.running[1..], cur);
      if room.ok {
        var r := MayAppend(e, room.pool, cur).value;
        DecodeLimits(e, cfg, Decode(r.0, room.waiting, room.running, st.batch + [r.1]));
      } else {
        NobodyLeft(e, st.pool, st.waiting, st.running[1..], cur);
      }
    }
  }

  lemma {:induction false} NobodyLeft(e: Env, p: Pool, waiting: seq<SeqState>, running: seq<SeqState>, cur: SeqState)
    requires e.blockSize > 0 && !MakeRoom(e, p, waiting, running, cur).ok
    ensures MakeRoom(e, p, waiting, running, cur).running == []
    decreases |running|
  {
    hide CanAppend, DropAll, Released;
    if running != [] {
      var last := running[|running| - 1];
      NobodyLeft(e, DropAll(p, last.table), [Released(last)] + waiting, running[..|running| - 1], cur);
    }
  }

  /** Both limits of a batch that `schedule` returns; a prefill that took on less than it could is forced to, and
      a decode batch leaves nobody out but for its size. */
  lemma ScheduleWithinLimits(e: Env, cfg: Config, st: Sched)
    requires e.blockSize > 0 && Schedule(e, cfg, st).Some?
    ensures var r := Schedule(e, cfg, st).value;
            && |r.batch| <= cfg.maxSeqs
            && (r.prefill ==> ToCompute(r.batch) <= cfg.maxTokens
                              && Exhausted(e, cfg, r.sched.pool, r.sched.waiting, r.batch))
            && (!r.prefill ==> r.batch == r.sched.running || |r.batch| == cfg.maxSeqs)
  {
    hide PrefillLoop, DecodeLoop;
    PrefillLimits(e, cfg, Prefill(st.pool, st.waiting, st.running, [], 0));
    var pre := PrefillLoop(e, cfg, Prefill(st.pool, st.waiting, st.running, [], 0)).value;
    if pre.batch == [] {
      DecodeLimits(e, cfg, Decode(pre.pool, pre.waiting, pre.running, []));
    }
  }

  /** Prefill comes first: a head that fits and has something to compute is batched. */
  lemma PrefillFirst(e: Env, cfg: Config, st: Sched)
    requires e.blockSize > 0 && Schedule(e, cfg, st).Some? && st.waiting != [] && cfg.maxSeqs > 0
    requires |st.waiting[0].tokens| <= cfg.maxTokens && |st.waiting[0].tokens| <= |st.pool.free| * e.blockSize
    requires Allocate(e, st.pool, st.waiting[0]).Some? && Allocate(e, st.pool, st.waiting[0]).value.1.pending
    ensures var r := Schedule(e, cfg, st).value;
            r.prefill && r.batch != [] && r.batch[0] == Allocate(e, st.pool, st.waiting[0]).value.1
  {
    hide NumBlocks, Allocate, DecodeLoop;
    BlocksNeeded(|st.waiting[0].tokens|, |st.pool.free|, e.blockSize);
    PendingComputes(e, st.pool, st.waiting[0]);
    var start := Prefill(st.pool, st.waiting, st.running, [], 0);
    var next := Admit(e, start).value;
    BatchGrows(e, cfg, next);
  }

  lemma PendingComputes(e: Env, p: Pool, s: SeqState)
    requires e.blockSize > 0 && Allocate(e, p, s).Some?
    ensures var t := Allocate(e, p, s).value.1; t.pending <==> t.cached < |t.tokens|
  {
    hide AllocUpto, NumBlocks;
  }

  lemma {:induction false} BatchGrows(e: Env, cfg: Config, st: Prefill)
    requires e.blockSize > 0 && PrefillLoop(e, cfg, st).Some?
    ensures st.batch <= PrefillLoop(e, cfg, st).value.batch
    decreases |st.waiting|
  {
    hide Allocate, CanAllocate;
    if Admissible(e, cfg, st) {
      BatchGrows(e, cfg, Admit(e, st).value);
    }
  }

  // ---------------------------------------------------------------- preemption

  /** The pool after the `j` youngest gave their blocks back. */
  function Evicted(p: Pool, running: seq<SeqState>, j: nat): Pool
    requires j <= |running|
  {
    if j == 0 then p else DropAll(Evicted(p, running, j - 1), running[|running| - j].table)
  }

  lemma {:induction false} EvictedFirst(p: Pool, running: seq<SeqState>, j: nat)
    requires running != [] && j < |running|
    ensures var n := |running| - 1;
            Evicted(DropAll(p, running[n].table), running[..n], j) == Evicted(p, running, j + 1)
    decreases j
  {
    hide DropAll;
    if j > 0 {
      EvictedFirst(p, running, j - 1);
    } else {
      assert Evicted(p, running, 1) == DropAll(Evicted(p, running, 0), running[|running| - 1].table);
    }
  }

  /** The next token of `s` is the first of a block, and there is none. */
  predicate Short(e: Env, p: Pool, s: SeqState)
    requires e.blockSize > 0
  {
    p.free == [] && |s.tokens| % e.blockSize == 1
  }

  /** Room is made by preempting the youngest, as many as are needed and no more. */
  lemma {:induction false} RoomIsLeast(e: Env, p: Pool, waiting: seq<SeqState>, running: seq<SeqState>, cur: SeqState)
    returns (j: nat)
    requires e.blockSize > 0
    ensures j <= |running| && forall i :: 0 <= i < j ==> Short(e, Evicted(p, running, i), cur)
    ensures var r := MakeRoom(e, p, waiting, running, cur);
            && r.running == running[..|running| - j] && (r.ok <==> !Short(e, Evicted(p, running, j), cur))
            && (r.ok ==> r.pool == Evicted(p, running, j))
            && (!r.ok ==> j == |running| && r.pool == DropAll(Evicted(p, running, j), cur.table))
    decreases |running|
  {
    hide DropAll, Released;
    if CanAppend(e, p, cur) || running == [] {
      j := 0;
    } else {
      var n := |running| - 1;
      var q := DropAll(p, running[n].table);
      var k := RoomIsLeast(e, q, [Released(running[n])] + waiting, running[..n], cur);
      j := k + 1;
      forall i | 0 <= i < j
        ensures Short(e, Evicted(p, running, i), cur)
      {
        if i > 0 { EvictedFirst(p, running, i - 1); }
      }
      EvictedFirst(p, running, k);
    }
  }
}
