/** Progress: when every request fits the token budget and, alone, the pool, each call of `schedule`
    returns a batch as long as work remains; with a pool that covers everybody, nobody is preempted.
 */
module ScheduleProgress {
  import opened BlockAccounting
  import opened BlockPool
  import opened ScheduleRuns
  import opened Scheduling

  // ---------------------------------------------------------------- counting blocks

  lemma {:induction false} SupportSize(u: set<nat>, m: multiset<nat>)
    requires forall x :: x in u ==> x in m
    ensures |u| <= |m|
    decreases |u|
  {
    if x :| x in u {
      SupportSize(u - {x}, m - multiset{x});
    }
  }

  function Below(n: nat): (r: set<nat>)
    ensures forall x: nat :: x in r <==> x < n
    ensures |r| == n
  {
    if n == 0 then {} else Below(n - 1) + {n - 1}
  }

  /** A pool that is accounted for has at least as many free blocks as its tables leave. */
  lemma FreeCount(p: Pool, refs: multiset<nat>)
    requires Accounted(p, refs)
    ensures |p.free| + |refs| >= |p.blocks|
  {
    SupportSize(Below(|p.blocks|), multiset(p.free) + refs);
  }

  // ---------------------------------------------------------------- a batch whenever work remains

  /** The sequence fits the token budget and, alone, the pool. */
  predicate Fits(e: Env, cfg: Config, p: Pool, s: SeqState)
    requires e.blockSize > 0
  {
    |s.tokens| <= cfg.maxTokens && NumBlocks(|s.tokens|, e.blockSize) <= |p.blocks|
  }

  /** Alone in the pool, a sequence that fits it can always append. */
  lemma AloneCanAppend(e: Env, p: Pool, s: SeqState)
    requires e.blockSize > 1 && Accounted(p, multiset(s.table)) && Live(e, p, s, |s.tokens|)
    requires NumBlocks(|s.tokens|, e.blockSize) <= |p.blocks|
    ensures CanAppend(e, p, s)
  {
    hide Accounted, NumBlocks;
    FreeCount(p, multiset(s.table));
    NumBlocksNext(|s.tokens| - 1, e.blockSize);
    NextMod(|s.tokens| - 1, e.blockSize);
  }

  lemma {:induction false} DropAllKeepsSize(p: Pool, table: seq<nat>)
    ensures |DropAll(p, table).blocks| == |p.blocks|
    decreases |table|
  {
    if table != [] {
      var last := |table| - 1;
      DropAllKeepsSize(if table[last] < |p.blocks| then Drop(p, table[last]) else p, table[..last]);
    }
  }

  /** The oldest running sequence is never preempted. */
  lemma {:induction false} OldestHasRoom(e: Env, p: Pool, waiting: seq<SeqState>, running: seq<SeqState>, cur: SeqState)
    requires e.blockSize > 1 && Accounted(p, multiset(cur.table) + Refs(running)) && Live(e, p, cur, |cur.tokens|)
    requires NumBlocks(|cur.tokens|, e.blockSize) <= |p.blocks|
    ensures MakeRoom(e, p, waiting, running, cur).ok
    decreases |running|
  {
    hide Accounted, Refs, Live, Kept, DropAll, CanAppend, Untouched;
    if CanAppend(e, p, cur) {
    } else if running != [] {
      var last, rest := running[|running| - 1], running[..|running| - 1];
      assert running == rest + [last];
      RefsSnoc(rest, last);
      var others := multiset(cur.table) + Refs(rest);
      assert multiset(cur.table) + Refs(running) == others + multiset(last.table);
      DropAllAccounted(p, others, last.table);
      DropAllKeepsSize(p, last.table);
      LiveOneStays(e, p, DropAll(p, last.table), others, cur, |cur.tokens|);
      OldestHasRoom(e, DropAll(p, last.table), [Released(last)] + waiting, rest, cur);
    } else {
      RefsNone();
      assert multiset(cur.table) + Refs(running) == multiset(cur.table);
      AloneCanAppend(e, p, cur);
    }
  }

  lemma {:induction false} DecodeGrows(e: Env, cfg: Config, st: Decode)
    requires e.blockSize > 0 && DecodeLoop(e, cfg, st).Some?
    ensures |DecodeLoop(e, cfg, st).value.batch| >= |st.batch|
    decreases |st.running|
  {
    hide MakeRoom, MayAppend;
    if st.running != [] && |st.batch| < cfg.maxSeqs {
      var cur := st.running[0];
      var room := MakeRoom(e, st.pool, st.waiting, st.running[1..], cur);
      RoomShrinks(e, st.pool, st.waiting, st.running[1..], cur);
      if room.ok {
        var r := MayAppend(e, room.pool, cur).value;
        DecodeGrows(e, cfg, Decode(r.0, room.waiting, room.running, st.batch + [r.1]));
      }
    }
  }

  lemma DecodeProgress(e: Env, cfg: Config, st: Decode)
    requires EnvOk(e) && e.blockSize > 1 && DecodeOk(e, st) && Settled(st.running) && cfg.maxSeqs >= 1
    requires st.batch == [] && st.running != [] && NumBlocks(|st.running[0].tokens|, e.blockSize) <= |st.pool.blocks|
    ensures DecodeLoop(e, cfg, st).Some? ==> DecodeLoop(e, cfg, st).value.batch != []
  {
    hide Accounted, Refs, Live, MayAppend, MakeRoom, OwnLasts, IdleAll, Faulty, NumBlocks;
    var cur, rest := st.running[0], st.running[1..];
    assert st.running == [cur] + rest;
    RefsCons(cur, rest);
    RefsNone();
    assert Refs(st.batch) + Refs(st.running) == multiset(cur.table) + Refs(rest);
    assert Live(e, st.pool, cur, Due(cur));
    OldestHasRoom(e, st.pool, st.waiting, rest, cur);
    var room := MakeRoom(e, st.pool, st.waiting, rest, cur);
    RoomShrinks(e, st.pool, st.waiting, rest, cur);
    var r := MayAppend(e, room.pool, cur);
    if DecodeLoop(e, cfg, st).Some? {
      DecodeGrows(e, cfg, Decode(r.value.0, room.waiting, room.running, st.batch + [r.value.1]));
    }
  }

  /** Prefill stops only when the head cannot be admitted; no token is counted without a batch. */
  lemma {:induction false} PrefillStops(e: Env, cfg: Config, st: Prefill)
    requires e.blockSize > 0 && PrefillLoop(e, cfg, st).Some? && (st.batch == [] ==> st.tokens == 0)
    ensures var r := PrefillLoop(e, cfg, st).value;
            && !Admissible(e, cfg, r) && (r.batch == [] ==> r.tokens == 0)
               && |r.running| + |r.waiting| == |st.running| + |st.waiting|
    decreases |st.waiting|
  {
    hide Allocate, CanAllocate;
    if Admissible(e, cfg, st) {
      PrefillStops(e, cfg, Admit(e, st).value);
    }
  }

  /** Nothing runs: the whole pool is free. */
  lemma EmptyPoolAllocates(e: Env, p: Pool, s: SeqState)
    requires e.blockSize > 0 && Accounted(p, Refs([])) && NumBlocks(|s.tokens|, e.blockSize) <= |p.blocks|
    ensures CanAllocate(e, p, s)
  {
    RefsNone();
    FreeCount(p, multiset{});
  }

  lemma AdmittedSize(e: Env, p: Pool, refs: multiset<nat>, s: SeqState, q: Pool, t: SeqState)
    requires e.blockSize > 1 && AllocatedFor(e, p, refs, s, q, t)
    ensures |q.blocks| == |p.blocks|
  {
  }

  /** The tokens of running sequences do not change while scheduling. */
  lemma {:induction false} PrefillKeepsTokens(e: Env, cfg: Config, st: Prefill)
    requires EnvOk(e) && e.blockSize > 1 && Good(e, st.pool, st.waiting, st.running)
    requires forall i :: 0 <= i < |st.running| ==> Fits(e, cfg, st.pool, st.running[i])
    requires forall i :: 0 <= i < |st.waiting| ==> Fits(e, cfg, st.pool, st.waiting[i])
    ensures PrefillLoop(e, cfg, st).Some?
    ensures var r := PrefillLoop(e, cfg, st).value;
            && (forall i :: 0 <= i < |r.running| ==> Fits(e, cfg, r.pool, r.running[i]))
            && (forall i :: 0 <= i < |r.waiting| ==> Fits(e, cfg, r.pool, r.waiting[i]))
    decreases |st.waiting|
  {
    hide Good, Admit, NumBlocks;
    if Admissible(e, cfg, st) {
      var t := AdmitGood(e, st);
      AdmittedSize(e, st.pool, Refs(st.running), st.waiting[0], Admit(e, st).value.pool, t);
      AdmittedTokens(e, st.pool, Refs(st.running), st.waiting[0], Admit(e, st).value.pool, t);
      PrefillKeepsTokens(e, cfg, Admit(e, st).value);
    }
  }

  lemma AdmittedTokens(e: Env, p: Pool, refs: multiset<nat>, s: SeqState, q: Pool, t: SeqState)
    requires e.blockSize > 1 && AllocatedFor(e, p, refs, s, q, t)
    ensures t.tokens == s.tokens && t.id == s.id && t.noCache == s.noCache
  {
  }

  /** As long as work remains, `schedule` returns a batch, or fails in the one way it can. */
  lemma SchedulerProgresses(e: Env, cfg: Config, st: Sched)
    requires EnvOk(e) && e.blockSize > 1 && SchedOk(e, st) && cfg.maxSeqs >= 1
    requires st.running != [] || st.waiting != []
    requires forall i :: 0 <= i < |st.running| ==> Fits(e, cfg, st.pool, st.running[i])
    requires forall i :: 0 <= i < |st.waiting| ==> Fits(e, cfg, st.pool, st.waiting[i])
    ensures Schedule(e, cfg, st).None? <==> FaultyStep(e, cfg, st)
    ensures Schedule(e, cfg, st).Some? ==> Schedule(e, cfg, st).value.batch != []
  {
    hide PrefillLoop, DecodeLoop, PrefillOk, DecodeOk, FaultyStep, Settled, Good, Refs, NumBlocks, CanAllocate;
    ScheduleGood(e, cfg, st);
    var start := Prefill(st.pool, st.waiting, st.running, [], 0);
    StartOk(e, st);
    PrefillStaysOk(e, cfg, Refs(st.running), start);
    PrefillKeepsTokens(e, cfg, start);
    PrefillStops(e, cfg, start);
    var pre := PrefillLoop(e, cfg, start).value;
    PrefilledOk(e, Refs(st.running), pre);
    if pre.batch == [] {
      if pre.running == [] {
        NothingRuns(e, cfg, pre);
      }
      TurnToDecode(e, Refs(st.running), pre);
      var turn := Decode(pre.pool, pre.waiting, pre.running, []);
      assert Fits(e, cfg, pre.pool, pre.running[0]);
      DecodeProgress(e, cfg, turn);
    }
  }

  /** With nothing running and nothing batched, the head of the queue is admissible. */
  lemma NothingRuns(e: Env, cfg: Config, st: Prefill)
    requires e.blockSize > 1 && Good(e, st.pool, st.waiting, st.running) && st.running == [] && st.waiting != []
    requires st.batch == [] && st.tokens == 0 && cfg.maxSeqs >= 1 && Fits(e, cfg, st.pool, st.waiting[0])
    ensures Admissible(e, cfg, st)
  {
    hide Accounted, Refs, NumBlocks, CanAllocate;
    EmptyPoolAllocates(e, st.pool, st.waiting[0]);
  }

  // ---------------------------------------------------------------- a pool for everybody

  /** Blocks everyone in `ss` needs at most at this length. */
  function Need(e: Env, ss: seq<SeqState>): nat
    requires e.blockSize > 0
  {
    if ss == [] then 0 else Need(e, ss[..|ss| - 1]) + NumBlocks(|ss[|ss| - 1].tokens|, e.blockSize)
  }

  lemma NeedSnoc(e: Env, ss: seq<SeqState>, s: SeqState)
    requires e.blockSize > 0
    ensures Need(e, ss + [s]) == Need(e, ss) + NumBlocks(|s.tokens|, e.blockSize)
  {
    assert (ss + [s])[..|ss|] == ss;
  }

  lemma {:induction false} NeedSplit(e: Env, a: seq<SeqState>, b: seq<SeqState>)
    requires e.blockSize > 0
    ensures Need(e, a + b) == Need(e, a) + Need(e, b)
    decreases |b|
  {
    hide NumBlocks;
    if b == [] {
      assert a + b == a;
    } else {
      var front, s := b[..|b| - 1], b[|b| - 1];
      assert b == front + [s] && a + b == a + front + [s];
      NeedSplit(e, a, front);
      NeedSnoc(e, a + front, s);
      NeedSnoc(e, front, s);
    }
  }

  /** Tables are never larger than the need. */
  lemma {:induction false} TablesWithinNeed(e: Env, p: Pool, ss: seq<SeqState>)
    requires e.blockSize > 1 && LiveAll(e, p, ss)
    ensures |Refs(ss)| <= Need(e, ss)
    decreases |ss|
  {
    hide NumBlocks, Live;
    if ss != [] {
      var s := ss[|ss| - 1];
      LiveFront(e, p, ss);
      TablesWithinNeed(e, p, ss[..|ss| - 1]);
      assert Live(e, p, s, Due(s));
      TableWithinNeed(e, p, s);
    }
  }

  lemma TableWithinNeed(e: Env, p: Pool, s: SeqState)
    requires e.blockSize > 1 && Live(e, p, s, Due(s))
    ensures |s.table| <= NumBlocks(|s.tokens|, e.blockSize)
    ensures !s.pending && |s.tokens| % e.blockSize == 1 ==> |s.table| + 1 == NumBlocks(|s.tokens|, e.blockSize)
  {
    hide NumBlocks;
    if !s.pending {
      NumBlocksNext(|s.tokens| - 1, e.blockSize);
      NextMod(|s.tokens| - 1, e.blockSize);
    }
  }

  /** The next sequence of a decode pass can append without preempting anyone. */
  lemma RoomAtOnce(e: Env, st: Decode)
    requires e.blockSize > 1 && DecodeOk(e, st) && st.running != [] && !st.running[0].pending
    requires Need(e, st.batch) + Need(e, st.running) <= |st.pool.blocks|
    ensures CanAppend(e, st.pool, st.running[0])
  {
    hide Accounted, NumBlocks, Live, Refs, OwnLasts, IdleAll;
    var cur, rest := st.running[0], st.running[1..];
    assert st.running == [cur] + rest;
    RefsCons(cur, rest);
    NeedSplit(e, [cur], rest);
    assert Need(e, [cur])
      == NumBlocks(|cur.tokens|, e.blockSize) by { NeedSnoc(e, [], cur); assert [] + [cur] == [cur]; }
    TablesWithinNeed(e, st.pool, st.batch);
    LiveFront(e, st.pool, st.running);
    TablesWithinNeed(e, st.pool, rest);
    TableWithinNeed(e, st.pool, cur);
    FreeCount(st.pool, Refs(st.batch) + Refs(st.running));
  }

  lemma {:induction false} DecodeKeepsEverybody(e: Env, cfg: Config, st: Decode)
    requires EnvOk(e) && e.blockSize > 1 && DecodeOk(e, st) && Settled(st.running)
    requires Need(e, st.batch) + Need(e, st.running) <= |st.pool.blocks|
    ensures DecodeLoop(e, cfg, st).Some? ==> DecodeLoop(e, cfg, st).value.waiting == st.waiting
    decreases |st.running|
  {
    hide Accounted, Refs, Live, MayAppend, CanAppend, OwnLasts, IdleAll, Faulty, Need, Kept, LiveAll;
    if st.running != [] && |st.batch| < cfg.maxSeqs {
      var cur, rest := st.running[0], st.running[1..];
      assert st.running == [cur] + rest;
      RoomAtOnce(e, st);
      LiveFront(e, st.pool, st.running);
      RefsCons(cur, rest);
      assert Refs(st.batch) + Refs(st.running) == Refs(st.batch) + multiset(cur.table) + Refs(rest);
      KeptSelf(st.pool, Refs(st.batch) + multiset(cur.table));
      AppendGood(e, st, st.pool, st.waiting, rest);
      if MayAppend(e, st.pool, cur).Some? {
        var r := MayAppend(e, st.pool, cur).value;
        AppendKeepsTokens(e, st.pool, cur);
        NeedSnoc(e, st.batch, r.1);
        NeedSplit(e, [cur], rest);
        NeedOne(e, cur);
        DecodeKeepsEverybody(e, cfg, Decode(r.0, st.waiting, rest, st.batch + [r.1]));
      }
    }
  }

  lemma NeedOne(e: Env, s: SeqState)
    requires e.blockSize > 0
    ensures Need(e, [s]) == NumBlocks(|s.tokens|, e.blockSize)
  {
    NeedSnoc(e, [], s);
    assert [] + [s] == [s];
  }

  lemma AppendKeepsTokens(e: Env, p: Pool, s: SeqState)
    requires e.blockSize > 0 && MayAppend(e, p, s).Some?
    ensures var r := MayAppend(e, p, s).value;
            r.1.tokens == s.tokens && r.1.id == s.id && r.1.noCache == s.noCache && r.1.admitted == s.admitted
              && r.1.cached == s.cached
            && |r.0.blocks| == |p.blocks|
  {
  }

  lemma {:induction false} PrefillKeepsNeed(e: Env, cfg: Config, st: Prefill)
    requires EnvOk(e) && e.blockSize > 1 && Good(e, st.pool, st.waiting, st.running)
    ensures PrefillLoop(e, cfg, st).Some?
    ensures var r := PrefillLoop(e, cfg, st).value;
            Need(e, r.running) + Need(e, r.waiting) == Need(e, st.running) + Need(e, st.waiting)
              && |r.pool.blocks| == |st.pool.blocks|
    decreases |st.waiting|
  {
    hide Good, Admit, NumBlocks, Need;
    if Admissible(e, cfg, st) {
      var t := AdmitGood(e, st);
      var next := Admit(e, st).value;
      AdmittedSize(e, st.pool, Refs(st.running), st.waiting[0], next.pool, t);
      AdmittedTokens(e, st.pool, Refs(st.running), st.waiting[0], next.pool, t);
      NeedSnoc(e, st.running, t);
      assert st.waiting == [st.waiting[0]] + st.waiting[1..];
      NeedSplit(e, [st.waiting[0]], st.waiting[1..]);
      NeedOne(e, st.waiting[0]);
      PrefillKeepsNeed(e, cfg, next);
    }
  }

  /** With a pool that covers everybody at once, no call of `schedule` preempts: nobody who runs ever
      waits again, so a request is prefilled once. */
  lemma NobodyIsPreempted(e: Env, cfg: Config, st: Sched) returns (admitted: nat)
    requires EnvOk(e) && e.blockSize > 1 && SchedOk(e, st)
    requires Need(e, st.running) + Need(e, st.waiting) <= |st.pool.blocks|
    ensures admitted <= |st.waiting|
    ensures var pre := PrefillLoop(e, cfg, Prefill(st.pool, st.waiting, st.running, [], 0));
            pre.Some? && |pre.value.running| == |st.running| + admitted
    ensures Schedule(e, cfg, st).Some? ==> Schedule(e, cfg, st).value.sched.waiting == st.waiting[admitted..]
  {
    hide PrefillLoop, DecodeLoop, PrefillOk, DecodeOk, Settled, Good, Refs, NumBlocks, Need;
    var start := Prefill(st.pool, st.waiting, st.running, [], 0);
    StartOk(e, st);
    PrefillStaysOk(e, cfg, Refs(st.running), start);
    PrefillKeepsNeed(e, cfg, start);
    var moved := PrefillOrder(e, cfg, start);
    admitted := |moved|;
    var pre := PrefillLoop(e, cfg, start).value;
    if pre.batch == [] {
      TurnToDecode(e, Refs(st.running), pre);
      NeedNone(e);
      DecodeKeepsEverybody(e, cfg, Decode(pre.pool, pre.waiting, pre.running, []));
    }
  }

  lemma NeedNone(e: Env)
    requires e.blockSize > 0
    ensures Need(e, []) == 0
  {
  }
}
