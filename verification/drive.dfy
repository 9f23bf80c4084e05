/** One turn of the drive loop: one token per batched sequence, requests finishing at their cap, and less left
    to do. */
module Drive {
  import BlockAccounting
  import opened BlockPool
  import opened ScheduleProgress
  import opened ScheduleRuns
  import opened ScheduleSteps
  import opened Scheduling

  type Caps = nat -> nat

  type Weight = Request -> nat

  function Total(rs: seq<Request>, w: Weight): nat {
    if rs == [] then 0 else Total(rs[..|rs| - 1], w) + w(rs[|rs| - 1])
  }

  /** The weights of everybody in the scheduler. */
  function Everybody(st: Sched, w: Weight): nat {
    Total(Requests(st.running), w) + Total(Requests(st.waiting), w)
  }

  /** Tokens a request has still to come. */
  function ToGo(cap: Caps): Weight {
    (r: Request) => if |r.tokens| < cap(r.id) then cap(r.id) - |r.tokens| else 0
  }

  function Remaining(st: Sched, cap: Caps): nat {
    Everybody(st, ToGo(cap))
  }

  /** Batched sequences whose next token is their last. */
  function Full(batch: seq<SeqState>, cap: Caps): seq<nat> {
    if batch == [] then []
    else if |batch[0].tokens| + 1 >= cap(batch[0].id) then [batch[0].id] + Full(batch[1..], cap)
    else Full(batch[1..], cap)
  }

  /** After a step: tokens appended, full requests gone. */
  function Advance(r: Scheduled, tok: nat -> Token, cap: Caps): Sched {
    LeaveAll(r.sched.(running := AllWithToken(r.sched.running, tok)), Full(r.batch, cap))
  }

  /** A request can run to its cap: below it, within the token budget and, alone, within the pool. */
  predicate Capped(e: Env, cfg: Config, n: nat, r: Request, cap: Caps)
    requires e.blockSize > 0
  {
    |r.tokens| < cap(r.id) <= cfg.maxTokens && NumBlocks(cap(r.id), e.blockSize) <= n
  }

  ghost predicate Ready(e: Env, cfg: Config, st: Sched, cap: Caps)
    requires e.blockSize > 1
  {
    && SchedOk(e, st) && NoDup(Order(st)) && cfg.maxSeqs >= 1
    && (forall r :: r in Requests(st.running) + Requests(st.waiting) ==> Capped(e, cfg, |st.pool.blocks|, r, cap))
  }

  // ---------------------------------------------------------------- the measure

  lemma TotalSnoc(rs: seq<Request>, r: Request, w: Weight)
    ensures Total(rs + [r], w) == Total(rs, w) + w(r)
  {
    assert (rs + [r])[..|rs|] == rs;
  }

  lemma {:induction false} TotalSplit(a: seq<Request>, b: seq<Request>, w: Weight)
    ensures Total(a + b, w) == Total(a, w) + Total(b, w)
    decreases |b|
  {
    hide Total;
    if b == [] {
      assert a + b == a;
      TotalNothing(w);
    } else {
      var front, r := b[..|b| - 1], b[|b| - 1];
      assert b == front + [r] && a + b == a + front + [r];
      TotalSplit(a, front, w);
      TotalSnoc(a + front, r, w);
      TotalSnoc(front, r, w);
    }
  }

  lemma TotalNothing(w: Weight)
    ensures Total([], w) == 0
  {
  }

  /** Scheduling changes nothing about the total. */
  lemma SameTotal(a: Sched, b: Sched, w: Weight)
    requires Requests(b.running) + Requests(b.waiting) == Requests(a.running) + Requests(a.waiting)
    ensures Everybody(b, w) == Everybody(a, w)
  {
    hide Total, Requests;
    TotalSplit(Requests(a.running), Requests(a.waiting), w);
    TotalSplit(Requests(b.running), Requests(b.waiting), w);
  }

  /** Appending takes one off for every batched sequence. */
  lemma {:induction false} TokensTake(ss: seq<SeqState>, tok: nat -> Token, cap: Caps)
    requires forall i :: 0 <= i < |ss| ==> |ss[i].tokens| < cap(ss[i].id)
    ensures Total(Requests(AllWithToken(ss, tok)), ToGo(cap)) + |Pending(ss)| == Total(Requests(ss), ToGo(cap))
    decreases |ss|
  {
    hide Total, Pending, Requests;
    if ss == [] {
      NonePending(ss);
      RequestsNothing();
      assert AllWithToken(ss, tok) == [];
    } else {
      var front, s := ss[..|ss| - 1], ss[|ss| - 1];
      assert ss == front + [s];
      TokensTake(front, tok, cap);
      PendingSnoc(front, s);
      assert AllWithToken(ss, tok) == AllWithToken(front, tok) + [WithToken(s, tok)];
      RequestsSnoc(AllWithToken(front, tok), WithToken(s, tok));
      RequestsSnoc(front, s);
      TotalSnoc(Requests(AllWithToken(front, tok)), Who(WithToken(s, tok)), ToGo(cap));
      TotalSnoc(Requests(front), Who(s), ToGo(cap));
    }
  }

  lemma RequestsSnoc(ss: seq<SeqState>, s: SeqState)
    ensures Requests(ss + [s]) == Requests(ss) + [Who(s)]
  {
  }

  lemma RequestsNothing()
    ensures Requests([]) == []
  {
  }

  lemma {:induction false} WithoutTotal(ss: seq<SeqState>, id: nat, w: Weight)
    ensures Total(Requests(Without(ss, id)), w) <= Total(Requests(ss), w)
    decreases |ss|
  {
    hide Total, Requests;
    if ss != [] {
      var s, rest := ss[0], ss[1..];
      assert ss == [s] + rest;
      RequestsSplit([s], rest);
      TotalSplit(Requests([s]), Requests(rest), w);
      if s.id != id {
        WithoutTotal(rest, id, w);
        RequestsSplit([s], Without(rest, id));
        TotalSplit(Requests([s]), Requests(Without(rest, id)), w);
      }
    }
  }

  lemma {:induction false} LeaveAllTotal(st: Sched, ids: seq<nat>, w: Weight)
    ensures Everybody(LeaveAll(st, ids), w) <= Everybody(st, w)
    decreases |ids|
  {
    hide Total, Requests, DropAll, Find, Without;
    if ids != [] {
      WithoutTotal(st.running, ids[0], w);
      WithoutTotal(st.waiting, ids[0], w);
      LeaveAllTotal(Leave(st, ids[0]), ids[1..], w);
    }
  }

  // ---------------------------------------------------------------- who stays

  lemma {:induction false} RemoveFirstNoDup(s: seq<nat>, x: nat)
    requires NoDup(s)
    ensures NoDup(RemoveFirst(s, x)) && forall y :: y in RemoveFirst(s, x) <==> y in s && y != x
    decreases |s|
  {
    if x in s { RemovedFirst(s, x); } else { NothingToRemove(s, x); }
  }

  lemma {:induction false} RemoveAllGone(order: seq<nat>, ids: seq<nat>)
    requires NoDup(order)
    ensures NoDup(RemoveAll(order, ids)) && forall x :: x in ids ==> x !in RemoveAll(order, ids)
    ensures forall x :: x in RemoveAll(order, ids) ==> x in order
    decreases |ids|
  {
    if ids != [] {
      RemoveFirstNoDup(order, ids[0]);
      RemoveAllGone(RemoveFirst(order, ids[0]), ids[1..]);
    }
  }

  lemma {:induction false} LeaveAllKeepsSize(st: Sched, ids: seq<nat>)
    ensures |LeaveAll(st, ids).pool.blocks| == |st.pool.blocks|
    decreases |ids|
  {
    hide DropAll, Without;
    if ids != [] {
      var found := Find(st.running, ids[0]);
      if found.Some? { DropAllKeepsSize(st.pool, found.value.table); }
      LeaveAllKeepsSize(Leave(st, ids[0]), ids[1..]);
    }
  }

  lemma {:induction false} FullHas(batch: seq<SeqState>, cap: Caps, s: SeqState)
    requires s in batch && |s.tokens| + 1 >= cap(s.id)
    ensures s.id in Full(batch, cap)
    decreases |batch|
  {
    if batch[0] != s { FullHas(batch[1..], cap, s); }
  }

  lemma {:induction false} PendingHas(ss: seq<SeqState>, s: SeqState)
    requires s in ss && s.pending
    ensures s in Pending(ss)
    decreases |ss|
  {
    if ss[|ss| - 1] != s { PendingHas(ss[..|ss| - 1], s); }
  }

  // ---------------------------------------------------------------- one step of the loop

  lemma {:induction false} RoomKeepsSize(e: Env, p: Pool, waiting: seq<SeqState>, running: seq<SeqState>, cur: SeqState)
    requires e.blockSize > 0
    ensures |MakeRoom(e, p, waiting, running, cur).pool.blocks| == |p.blocks|
    decreases |running|
  {
    hide CanAppend, DropAll, Released;
    if !CanAppend(e, p, cur) {
      if running != [] {
        var last := running[|running| - 1];
        DropAllKeepsSize(p, last.table);
        RoomKeepsSize(e, DropAll(p, last.table), [Released(last)] + waiting, running[..|running| - 1], cur);
      } else {
        DropAllKeepsSize(p, cur.table);
      }
    }
  }

  lemma {:induction false} DecodeKeepsSize(e: Env, cfg: Config, st: Decode)
    requires e.blockSize > 0 && DecodeLoop(e, cfg, st).Some?
    ensures |DecodeLoop(e, cfg, st).value.pool.blocks| == |st.pool.blocks|
    decreases |st.running|
  {
    hide MakeRoom, MayAppend;
    if st.running != [] && |st.batch| < cfg.maxSeqs {
      var cur, rest := st.running[0], st.running[1..];
      RoomKeepsSize(e, st.pool, st.waiting, rest, cur);
      var room := MakeRoom(e, st.pool, st.waiting, rest, cur);
      RoomShrinks(e, st.pool, st.waiting, rest, cur);
      if room.ok {
        AppendKeepsTokens(e, room.pool, cur);
        var r := MayAppend(e, room.pool, cur).value;
        DecodeKeepsSize(e, cfg, Decode(r.0, room.waiting, room.running, st.batch + [r.1]));
      }
    }
  }

  lemma ScheduleKeepsSize(e: Env, cfg: Config, st: Sched)
    requires EnvOk(e) && e.blockSize > 1 && SchedOk(e, st) && Schedule(e, cfg, st).Some?
    ensures |Schedule(e, cfg, st).value.sched.pool.blocks| == |st.pool.blocks|
  {
    hide PrefillLoop, DecodeLoop, Good;
    var start := Prefill(st.pool, st.waiting, st.running, [], 0);
    PrefillKeepsNeed(e, cfg, start);
    var pre := PrefillLoop(e, cfg, start).value;
    if pre.batch == [] {
      DecodeKeepsSize(e, cfg, Decode(pre.pool, pre.waiting, pre.running, []));
    }
  }

  lemma NumBlocksMonotone(a: nat, b: nat, size: nat)
    requires size > 0 && a <= b
    ensures NumBlocks(a, size) <= NumBlocks(b, size)
    decreases b
  {
    if a < b {
      NumBlocksMonotone(a, b - 1, size);
      BlockAccounting.NumBlocksNext(b - 1, size);
    }
  }

  /** The loop's requests fit now because they fit at their caps. */
  lemma ReadyFits(e: Env, cfg: Config, st: Sched, cap: Caps)
    requires e.blockSize > 1 && Ready(e, cfg, st, cap)
    ensures forall i :: 0 <= i < |st.running| ==> Fits(e, cfg, st.pool, st.running[i])
    ensures forall i :: 0 <= i < |st.waiting| ==> Fits(e, cfg, st.pool, st.waiting[i])
  {
    hide SchedOk, NumBlocks, NoDup;
    var rs := Requests(st.running) + Requests(st.waiting);
    forall i | 0 <= i < |st.running| ensures Fits(e, cfg, st.pool, st.running[i]) {
      assert rs[i] == Who(st.running[i]) && rs[i] in rs;
      NumBlocksMonotone(|st.running[i].tokens|, cap(st.running[i].id), e.blockSize);
    }
    forall i | 0 <= i < |st.waiting| ensures Fits(e, cfg, st.pool, st.waiting[i]) {
      assert rs[|st.running| + i] == Who(st.waiting[i]) && rs[|st.running| + i] in rs;
      NumBlocksMonotone(|st.waiting[i].tokens|, cap(st.waiting[i].id), e.blockSize);
    }
  }

  /** Whoever is left after a step is still below its cap. */
  lemma StillCapped(e: Env, cfg: Config, r: Scheduled, tok: nat -> Token, cap: Caps)
    requires e.blockSize > 1 && r.batch == Pending(r.sched.running) && NoDup(Order(r.sched))
    requires SchedOk(e, r.sched.(running := AllWithToken(r.sched.running, tok)))
    requires forall q :: q in Requests(r.sched.running) + Requests(r.sched.waiting) ==>
               Capped(e, cfg, |r.sched.pool.blocks|, q, cap)
    ensures var st := Advance(r, tok, cap);
            && |st.pool.blocks| == |r.sched.pool.blocks|
            && forall q :: q in Requests(st.running) + Requests(st.waiting) ==> Capped(e, cfg, |st.pool.blocks|, q, cap)
  {
    hide SchedOk, NumBlocks, LeaveAll, RemoveAll, NoDup, Pending, Full;
    var ids := Full(r.batch, cap);
    var mid := r.sched.(running := AllWithToken(r.sched.running, tok));
    LeaveAllOk(e, mid, ids);
    LeaveAllKeepsSize(mid, ids);
    TokensKeepTables(r.sched.running, tok);
    RemoveAllGone(Order(mid), ids);
    var st := LeaveAll(mid, ids);
    forall i | 0 <= i < |st.running|
      ensures Capped(e, cfg, |st.pool.blocks|, Who(st.running[i]), cap)
    {
      InOrder(st, st.running[i]);
      RunningCapped(e, cfg, r, tok, cap, st.running[i]);
    }
    forall i | 0 <= i < |st.waiting|
      ensures Capped(e, cfg, |st.pool.blocks|, Who(st.waiting[i]), cap)
    {
      assert st.waiting[i] in r.sched.waiting;
      var j :| 0 <= j < |r.sched.waiting| && r.sched.waiting[j] == st.waiting[i];
      assert (Requests(r.sched.running) + Requests(r.sched.waiting))[|r.sched.running| + j] == Who(st.waiting[i]);
    }
  }

  lemma RunningCapped(e: Env, cfg: Config, r: Scheduled, tok: nat -> Token, cap: Caps, s: SeqState)
    requires e.blockSize > 1 && r.batch == Pending(r.sched.running)
    requires forall q :: q in Requests(r.sched.running) + Requests(r.sched.waiting) ==>
               Capped(e, cfg, |r.sched.pool.blocks|, q, cap)
    requires s in AllWithToken(r.sched.running, tok) && s.id !in Full(r.batch, cap)
    ensures Capped(e, cfg, |r.sched.pool.blocks|, Who(s), cap)
  {
    hide NumBlocks, Pending;
    var j :| 0 <= j < |r.sched.running| && AllWithToken(r.sched.running, tok)[j] == s;
    var was := r.sched.running[j];
    assert (Requests(r.sched.running) + Requests(r.sched.waiting))[j] == Who(was);
    assert Who(was) in Requests(r.sched.running) + Requests(r.sched.waiting);
    assert Who(was).tokens == was.tokens && Who(was).id == was.id;
    if was.pending {
      PendingHas(r.sched.running, was);
      if |was.tokens| + 1 >= cap(was.id) {
        FullHas(r.batch, cap, was);
      }
    }
  }

  lemma InOrder(st: Sched, s: SeqState)
    requires s in st.running || s in st.waiting
    ensures s.id in Order(st)
  {
    if s in st.running {
      var i :| 0 <= i < |st.running| && st.running[i] == s;
      assert Order(st)[i] == s.id;
    } else {
      var i :| 0 <= i < |st.waiting| && st.waiting[i] == s;
      assert Order(st)[|st.running| + i] == s.id;
    }
  }

  /** One turn of the loop: a batch, less left to do, and ready for the next turn; the one way to fail is the
      assertion of `may_append`. */
  lemma TurnDecreases(e: Env, cfg: Config, st: Sched, tok: nat -> Token, cap: Caps)
    requires EnvOk(e) && e.blockSize > 1 && Ready(e, cfg, st, cap) && (st.running != [] || st.waiting != [])
    ensures Schedule(e, cfg, st).None? <==> FaultyStep(e, cfg, st)
    ensures Schedule(e, cfg, st).Some? ==> Schedule(e, cfg, st).value.batch != []
    ensures Schedule(e, cfg, st).Some? ==>
              var next := Advance(Schedule(e, cfg, st).value, tok, cap);
              Ready(e, cfg, next, cap) && Remaining(next, cap) < Remaining(st, cap)
  {
    hide SchedOk, Schedule, LeaveAll, NoDup, Good, Refs, OwnLasts, WritesApart, FaultyStep, Full, Capped, Total,
      Pending, RemoveAll;
    ReadyFits(e, cfg, st, cap);
    ScheduleGood(e, cfg, st);
    SchedulerProgresses(e, cfg, st);
    if Schedule(e, cfg, st).Some? {
      ScheduleKeepsSize(e, cfg, st);
      var moved := ScheduleIsFcfs(e, cfg, st);
      var r := Schedule(e, cfg, st).value;
      SameIds(r.sched.running, r.sched.waiting, st.running, st.waiting);
      SameTotal(st, r.sched, ToGo(cap));
      TokensGood(e, r.sched.pool, r.sched.waiting, r.sched.running, tok);
      StillCapped(e, cfg, r, tok, cap);
      var mid, ids := r.sched.(running := AllWithToken(r.sched.running, tok)), Full(r.batch, cap);
      LeaveAllOk(e, mid, ids);
      TokensKeepTables(r.sched.running, tok);
      RemoveAllGone(Order(mid), ids);
      BelowCaps(e, cfg, |st.pool.blocks|, r.sched, cap);
      TokensTake(r.sched.running, tok, cap);
      LeaveAllTotal(mid, ids, ToGo(cap));
    }
  }

  lemma BelowCaps(e: Env, cfg: Config, n: nat, st: Sched, cap: Caps)
    requires e.blockSize > 0
    requires forall q :: q in Requests(st.running) + Requests(st.waiting) ==> Capped(e, cfg, n, q, cap)
    ensures forall i :: 0 <= i < |st.running| ==> |st.running[i].tokens| < cap(st.running[i].id)
  {
    forall i | 0 <= i < |st.running| ensures |st.running[i].tokens| < cap(st.running[i].id) {
      var q := Who(st.running[i]);
      assert (Requests(st.running) + Requests(st.waiting))[i] == q;
      assert q in Requests(st.running) + Requests(st.waiting);
    }
  }

  lemma {:induction false} FullAre(batch: seq<SeqState>, cap: Caps, x: nat)
    ensures x in Full(batch, cap) <==> exists s :: s in batch && s.id == x && |s.tokens| + 1 >= cap(x)
    decreases |batch|
  {
    if batch != [] {
      FullAre(batch[1..], cap, x);
      if s :| s in batch && s.id == x && |s.tokens| + 1 >= cap(x) { assert s == batch[0] || s in batch[1..]; }
    }
  }

  /** Nobody leaves before its cap: every running request is still there after the turn, with one token more if it
      was in the batch, unless that token brings it to its cap. */
  lemma TurnServes(e: Env, cfg: Config, st: Sched, tok: nat -> Token, cap: Caps, i: nat)
    requires EnvOk(e) && e.blockSize > 1 && Ready(e, cfg, st, cap) && Schedule(e, cfg, st).Some?
    requires i < |Schedule(e, cfg, st).value.sched.running|
    ensures var r := Schedule(e, cfg, st).value;
            var s := r.sched.running[i];
            (s in r.batch && |s.tokens| + 1 >= cap(s.id))
            || Served(s, r.batch, tok) in Advance(r, tok, cap).running
  {
    hide SchedOk, Schedule, LeaveAll, Good, Refs, OwnLasts, WritesApart, FaultyStep, Full, Capped, Total, Pending;
    ScheduleGood(e, cfg, st);
    var moved := ScheduleIsFcfs(e, cfg, st);
    var r := Schedule(e, cfg, st).value;
    SameIds(r.sched.running, r.sched.waiting, st.running, st.waiting);
    var s, mid := r.sched.running[i], r.sched.(running := AllWithToken(r.sched.running, tok));
    ServedIsWithToken(r.sched.running, i, tok);
    assert mid.running[i] == WithToken(s, tok);
    NobodyTwice(r, i);
    FullAre(r.batch, cap, s.id);
    if s.id !in Full(r.batch, cap) { RunnerStays(mid, Full(r.batch, cap), WithToken(s, tok)); }
  }
}
