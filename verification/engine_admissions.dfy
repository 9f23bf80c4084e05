/** Which admissions the engine can serve, the ones after a preemption included.  A request that is not wholly
    cached is prefilled, which happens once only; one that is wholly cached goes on to decode, for which it must
    have been prefilled before.  So an admission fits exactly if the one coincides with the other.
 */
module EngineAdmissions {
  import opened Arithmetic
  import opened BlockAccounting
  import opened BlockPool
  import opened Drive
  import opened EngineDrive
  import opened Outcomes
  import opened PrefixCache
  import opened ScheduleRuns
  import opened ScheduleSteps
  import opened Scheduling

  // ---------------------------------------------------------------- wholly cached, as the pool shows it

  /** Block `i` is full, and the index offers a block with its tokens under its chain. */
  predicate CachedBlock(e: Env, p: Pool, tokens: seq<Token>, i: nat) {
    var h := ChainHash(e, tokens, i + 1);
    && |BlockTokens(e, tokens, i)| == e.blockSize
    && h in p.index && p.index[h] < |p.blocks| && p.blocks[p.index[h]].tokens == BlockTokens(e, tokens, i)
  }

  predicate WhollyCached(e: Env, p: Pool, tokens: seq<Token>)
    requires e.blockSize > 0
  {
    forall i :: 0 <= i < NumBlocks(|tokens|, e.blockSize) ==> CachedBlock(e, p, tokens, i)
  }

  predicate SameLookups(p: Pool, q: Pool) {
    && q.index == p.index && |q.blocks| == |p.blocks|
    && forall id :: 0 <= id < |p.blocks| ==> q.blocks[id].tokens == p.blocks[id].tokens
  }

  /** After `i` blocks: no miss exactly if they are all in the cache of the pool it started from. */
  predicate Looked(e: Env, p: Pool, tokens: seq<Token>, i: nat, st: Alloc) {
    && (!st.miss <==> forall j :: 0 <= j < i ==> CachedBlock(e, p, tokens, j))
    && (!st.miss ==> st.cached == i * e.blockSize && st.h == ChainHash(e, tokens, i) && SameLookups(p, st.pool))
    && (st.miss ==> st.cached + e.blockSize <= i * e.blockSize)
  }

  lemma LookedNext(e: Env, p: Pool, tokens: seq<Token>, i: nat, st: Alloc, all: multiset<nat>, r: Alloc)
    requires EnvOk(e) && Looked(e, p, tokens, i, st)
    requires Accounted(st.pool, all) && BlockTokens(e, tokens, i) != []
    requires AllocStep(e, st, BlockTokens(e, tokens, i), false) == Some(r)
    ensures Looked(e, p, tokens, i + 1, r)
  {
    hide BlockTokens, Take, HeldBefore, AllocStep, Accounted;
    MulAdd(i, 1, e.blockSize);
    var toks, h := BlockTokens(e, tokens, i), ChainHash(e, tokens, i + 1);
    if !st.miss && CachedBlock(e, p, tokens, i) {
      HitKeepsLookups(e, st, toks, h, r);
    } else {
      if !Misses(e, st.pool, toks, false, st.h) {
        HitIsRegistered(e, st.pool, all, toks, false, st.h);
      }
      MissStays(e, st, toks, r);
      assert !(forall j :: 0 <= j < i + 1 ==> CachedBlock(e, p, tokens, j));
    }
  }

  lemma MissStays(e: Env, st: Alloc, toks: seq<Token>, r: Alloc)
    requires st.miss || Misses(e, st.pool, toks, false, st.h)
    requires AllocStep(e, st, toks, false) == Some(r)
    ensures r.miss && r.cached == st.cached
  {
    hide Misses, Take, HeldBefore;
  }

  lemma HitKeepsLookups(e: Env, st: Alloc, toks: seq<Token>, h: int, r: Alloc)
    requires EnvOk(e) && !st.miss && |toks| == e.blockSize && h == e.hash(toks, st.h) && h in st.pool.index
    requires st.pool.index[h] < |st.pool.blocks| && st.pool.blocks[st.pool.index[h]].tokens == toks
    requires AllocStep(e, st, toks, false) == Some(r)
    ensures !r.miss && r.cached == st.cached + e.blockSize && r.h == h && SameLookups(st.pool, r.pool)
  {
    hide HeldBefore, RemoveFirst;
    var id := st.pool.index[h];
    assert st.pool.index[h := id] == st.pool.index;
  }

  lemma {:induction false} LookedUpto(e: Env, p: Pool, refs: multiset<nat>, s: SeqState, i: nat) returns (st: Alloc)
    requires EnvOk(e) && Accounted(p, refs) && !s.noCache && s.cached == 0
    requires i <= NumBlocks(|s.tokens|, e.blockSize) <= |p.free|
    ensures AllocUpto(e, p, s, i) == Some(st) && Looked(e, p, s.tokens, i, st)
    decreases i
  {
    hide Accounted, NumBlocks, AllocStep, BlockTokens, Allocated, CachedBlock;
    var hits;
    st, hits := AllocUptoAccounted(e, p, refs, s, i);
    if i > 0 {
      var before := LookedUpto(e, p, refs, s, i - 1);
      var again, hits' := AllocUptoAccounted(e, p, refs, s, i - 1);
      AllocatedFacts(e, p, refs, s, i - 1, hits', before);
      LookedNext(e, p, s.tokens, i - 1, before, refs + multiset(before.table), st);
    }
  }

  /** An allocation is served by the cache alone exactly if every block is found in the pool as it stands. */
  lemma AllocateWhollyCached(e: Env, p: Pool, refs: multiset<nat>, s: SeqState)
    requires EnvOk(e) && e.blockSize > 1 && Accounted(p, refs) && CanAllocate(e, p, s)
    requires s.tokens != [] && s.cached == 0 && !s.noCache
    ensures Allocate(e, p, s).Some?
    ensures Allocate(e, p, s).value.1.pending <==> !WhollyCached(e, p, s.tokens)
  {
    hide Accounted, NumBlocks, AllocUpto, CachedBlock, BlockTokens;
    var n := NumBlocks(|s.tokens|, e.blockSize);
    var st := LookedUpto(e, p, refs, s, n);
    LastBlockSpan(|s.tokens|, e.blockSize, n);
    MulAdd(n - 1, 1, e.blockSize);
    if WhollyCached(e, p, s.tokens) {
      FullBlockEnds(e, p, s.tokens, n - 1);
    }
  }

  lemma FullBlockEnds(e: Env, p: Pool, tokens: seq<Token>, i: nat)
    requires e.blockSize > 0 && CachedBlock(e, p, tokens, i)
    ensures i * e.blockSize + e.blockSize <= |tokens|
  {
  }

  // ---------------------------------------------------------------- admissions the engine can serve

  /** Every request that the call admits is prefilled if and only if it never was. */
  predicate Fitting(e: Env, cfg: Config, g: Engine)
    requires e.blockSize > 0
  {
    var pre := PrefillOf(e, cfg, g.sched);
    pre.Some? ==>
      forall i :: |g.sched.running| <= i < |pre.value.running| ==>
        (pre.value.running[i].pending <==> pre.value.running[i].id !in g.done)
  }

  /** Everybody who was prefilled has an embedding, and nobody else. */
  predicate Paired(g: Engine) {
    g.embedded == g.done
  }

  lemma DecodeIds(e: Env, cfg: Config, st: Decode)
    requires e.blockSize > 0 && DecodeLoop(e, cfg, st).Some? && st.batch == []
    ensures var r := DecodeLoop(e, cfg, st).value; forall x :: x in Ids(r.batch + r.running) ==> x in Ids(st.running)
  {
    hide DecodeLoop, Requests;
    var preempted := DecodeOrder(e, cfg, st);
    var r := DecodeLoop(e, cfg, st).value;
    assert [] + st.running == st.running;
    SameIds(r.batch + r.running, r.waiting, st.running, st.waiting);
    NoLonger(r.batch + r.running, preempted + st.waiting, st.running, st.waiting);
  }

  lemma NoLonger(a: seq<SeqState>, b: seq<SeqState>, c: seq<SeqState>, d: seq<SeqState>)
    requires Ids(a) + Ids(b) == Ids(c) + Ids(d) && |b| >= |d|
    ensures forall x :: x in Ids(a) ==> x in Ids(c)
  {
    assert |Ids(a) + Ids(b)| == |a| + |b| && |Ids(c) + Ids(d)| == |c| + |d|;
    forall x | x in Ids(a)
      ensures x in Ids(c)
    {
      var i :| 0 <= i < |a| && Ids(a)[i] == x;
      assert (Ids(a) + Ids(b))[i] == x && (Ids(c) + Ids(d))[i] == Ids(c)[i];
    }
  }

  /** What a call does to those it admits, whoever it preempts. */
  ghost predicate Admits(e: Env, cfg: Config, st: Sched, moved: seq<SeqState>)
    requires e.blockSize > 0 && Schedule(e, cfg, st).Some?
  {
    var pre, r := PrefillOf(e, cfg, st), Schedule(e, cfg, st).value;
    && pre.Some? && pre.value.running == st.running + moved && r.batch == Pending(r.sched.running)
    && (r.prefill ==> r.sched.running == st.running + moved)
    && (!r.prefill ==> forall s :: s in moved ==> !s.pending)
    && (!r.prefill ==> forall x :: x in Ids(r.sched.running) ==> x in Ids(st.running + moved))
  }

  lemma CallAdmits(e: Env, cfg: Config, st: Sched) returns (moved: seq<SeqState>)
    requires EnvOk(e) && e.blockSize > 1 && SchedOk(e, st) && Schedule(e, cfg, st).Some?
    ensures Admits(e, cfg, st, moved)
  {
    hide PrefillLoop, DecodeLoop, PrefillOk, SchedOk, Good, FaultyStep, WritesApart, OwnLasts, Refs, Pending, Ids;
    var start := Prefill(st.pool, st.waiting, st.running, [], 0);
    ScheduleGood(e, cfg, st);
    StartOk(e, st);
    PrefillStaysOk(e, cfg, Refs(st.running), start);
    moved := PrefillOrder(e, cfg, start);
    var pre := PrefillLoop(e, cfg, start).value;
    PrefilledOk(e, Refs(st.running), pre);
    BatchIsPending(e, st, Schedule(e, cfg, st).value);
    if pre.batch == [] {
      PendingNone(pre.running);
      NoneIsPending(st.running, moved, pre.running);
      DecodeIds(e, cfg, Decode(pre.pool, pre.waiting, pre.running, []));
    }
  }

  lemma FittingMoved(e: Env, cfg: Config, g: Engine, moved: seq<SeqState>)
    requires e.blockSize > 0 && Fitting(e, cfg, g)
    requires PrefillOf(e, cfg, g.sched).Some? && PrefillOf(e, cfg, g.sched).value.running == g.sched.running + moved
    ensures forall s :: s in moved ==> (s.pending <==> s.id !in g.done)
  {
    hide PrefillLoop;
    var all := PrefillOf(e, cfg, g.sched).value.running;
    forall s | s in moved
      ensures s.pending <==> s.id !in g.done
    {
      var i :| 0 <= i < |moved| && moved[i] == s;
      assert all[|g.sched.running| + i] == s;
    }
  }

  /** Who is batched: of those running before, nobody in a prefill; of those admitted, the pending ones. */
  lemma BatchedIds(e: Env, cfg: Config, g: Engine, moved: seq<SeqState>)
    requires e.blockSize > 1 && SchedOk(e, g.sched) && Schedule(e, cfg, g.sched).Some?
    requires Admits(e, cfg, g.sched, moved) && Clean(g) && Paired(g) && Fitting(e, cfg, g)
    ensures var r := Schedule(e, cfg, g.sched).value;
            && (r.prefill ==> IdSet(r.batch) !! g.done) && (!r.prefill ==> IdSet(r.batch) <= g.embedded)
            && forall x :: x in Ids(r.sched.running) ==> x in g.embedded || (r.prefill && x in IdSet(r.batch))
  {
    hide Schedule, PrefillLoop, Good, Pending, Ids, Fitting;
    var r := Schedule(e, cfg, g.sched).value;
    FittingMoved(e, cfg, g, moved);
    IdsSplit(g.sched.running, moved);
    forall x | x in Ids(r.sched.running)
      ensures x in g.embedded || (r.prefill && x in IdSet(r.batch))
    {
      assert x in Ids(g.sched.running) || x in Ids(moved);
      if x in Ids(moved) {
        InIds(moved, x);
        var s :| s in moved && s.id == x;
        if s.pending { PendingHas(r.sched.running, s); }
      }
    }
    forall x | x in IdSet(r.batch)
      ensures r.prefill ==> x !in g.done
      ensures !r.prefill ==> x in g.embedded
    {
      BatchRuns(r, x);
      var s :| s in r.batch && s.id == x;
      var i :| 0 <= i < |r.sched.running| && r.sched.running[i] == s;
      if r.prefill {
        assert i >= |g.sched.running|;
        assert s == moved[i - |g.sched.running|];
      }
    }
  }

  lemma AdvanceIds(e: Env, cfg: Config, st: Sched, r: Scheduled, tok: nat -> Token, cap: Caps)
    requires EnvOk(e) && e.blockSize > 1 && SchedOk(e, st) && Schedule(e, cfg, st) == Some(r)
    ensures forall x :: x in Ids(Advance(r, tok, cap).running) ==> x in Ids(r.sched.running)
  {
    hide Schedule, SchedOk, Good, FaultyStep, WritesApart, OwnLasts, Ids, Full, LeaveAll;
    ScheduleGood(e, cfg, st);
    BatchIsGood(e, st, r);
    TokensGood(e, r.sched.pool, r.sched.waiting, r.sched.running, tok);
    TokensKeepTables(r.sched.running, tok);
    var mid, full := r.sched.(running := AllWithToken(r.sched.running, tok)), Full(r.batch, cap);
    LeaveAllOk(e, mid, full);
    forall x | x in Ids(LeaveAll(mid, full).running)
      ensures x in Ids(r.sched.running)
    {
      SubIds(LeaveAll(mid, full).running, mid.running, x);
    }
  }

  /** A turn whose admissions fit is not refused, whoever it preempts, unless the assertion is reached. */
  lemma FittingTurn(e: Env, cfg: Config, g: Engine, tok: nat -> Token, cap: Caps)
    requires EnvOk(e) && e.blockSize > 1 && Ready(e, cfg, g.sched, cap) && Busy(g.sched) && Clean(g) && Paired(g)
    requires Fitting(e, cfg, g) && !FaultyStep(e, cfg, g.sched)
    ensures var r := EngineStep(e, cfg, g, tok, cap);
            r.Ok? && Ready(e, cfg, r.value.sched, cap) && Clean(r.value) && Paired(r.value)
  {
    hide Schedule, SchedOk, FaultyStep, Advance, Ids, IdSet, Fitting, Capped, NoDup;
    ReadyTurn(e, cfg, g, tok, cap);
    ScheduleGood(e, cfg, g.sched);
    var moved := CallAdmits(e, cfg, g.sched);
    BatchedIds(e, cfg, g, moved);
    AdvanceIds(e, cfg, g.sched, Schedule(e, cfg, g.sched).value, tok, cap);
  }

  /** A turn that would prefill a request once more is refused. */
  lemma PrefilledOnce(e: Env, cfg: Config, g: Engine, tok: nat -> Token, cap: Caps, i: nat)
    requires EnvOk(e) && e.blockSize > 1 && SchedOk(e, g.sched) && Schedule(e, cfg, g.sched).Some?
    requires var pre := PrefillOf(e, cfg, g.sched);
             && pre.Some? && |g.sched.running| <= i < |pre.value.running|
             && pre.value.running[i].pending && pre.value.running[i].id in g.done
    ensures EngineStep(e, cfg, g, tok, cap) == Err(PrefilledAgain)
  {
    hide Schedule, SchedOk, Advance, Ids, PrefillLoop, Pending;
    var moved := CallAdmits(e, cfg, g.sched);
    var s := PrefillOf(e, cfg, g.sched).value.running[i];
    assert s == moved[i - |g.sched.running|] && s in moved;
    var r := Schedule(e, cfg, g.sched).value;
    assert s in r.sched.running;
    PendingHas(r.sched.running, s);
    assert s.id in IdSet(r.batch);
  }

  // ---------------------------------------------------------------- the whole loop

  /** Up to turn `n`, every admission fits and the assertion is not reached. */
  ghost predicate AllFit(e: Env, cfg: Config, g: Engine, tok: (nat, nat) -> Token, cap: Caps, n: nat)
    requires e.blockSize > 1
  {
    forall k :: 0 <= k < n && StillBusy(DriveFor(e, cfg, g, tok, cap, k)) ==>
      var now := DriveFor(e, cfg, g, tok, cap, k).value; Fitting(e, cfg, now) && !FaultyStep(e, cfg, now.sched)
  }

  lemma {:induction false} DriveFits(e: Env, cfg: Config, g: Engine, tok: (nat, nat) -> Token, cap: Caps, n: nat)
    requires EnvOk(e) && e.blockSize > 1 && Ready(e, cfg, g.sched, cap) && Clean(g) && Paired(g)
    requires AllFit(e, cfg, g, tok, cap, n)
    ensures var r := DriveFor(e, cfg, g, tok, cap, n);
            r.Ok? && Ready(e, cfg, r.value.sched, cap) && Clean(r.value) && Paired(r.value)
    decreases n
  {
    hide Ready, Clean, Fitting, FaultyStep, EngineStep, Schedule;
    if n > 0 {
      DriveFits(e, cfg, g, tok, cap, n - 1);
      var before := DriveFor(e, cfg, g, tok, cap, n - 1).value;
      if Busy(before.sched) {
        assert StillBusy(DriveFor(e, cfg, g, tok, cap, n - 1));
        FittingTurn(e, cfg, before, TokensAt(tok, n - 1), cap);
      }
    }
  }

  /** With any preemptions: the loop completes if every admission, at every turn, is of a request that is
      wholly cached exactly if it was prefilled before. */
  lemma CompletesIfAllFit(e: Env, cfg: Config, g: Engine, tok: (nat, nat) -> Token, cap: Caps, n: nat)
    requires EnvOk(e) && e.blockSize > 1 && Ready(e, cfg, g.sched, cap) && Clean(g) && Paired(g)
    requires AllFit(e, cfg, g, tok, cap, n) && n > Remaining(g.sched, cap)
    ensures DriveFor(e, cfg, g, tok, cap, n).Ok? && !Busy(DriveFor(e, cfg, g, tok, cap, n).value.sched)
  {
    hide Ready, Clean, AllFit, DriveFor, Remaining, NothingRefused;
    DriveFits(e, cfg, g, tok, cap, n);
    CompletesUnlessRefused(e, cfg, g, tok, cap, n);
  }
}
