/** When the assertion of `may_append` is reached: never in a run whose uncached admissions leave a block
    unfinished, and always for an uncached prompt of whole blocks that has the pool to itself.
 */
module ScheduleFaults {
  import opened BlockAccounting
  import opened BlockPool
  import opened Outcomes
  import opened ScheduleProgress
  import opened ScheduleRuns
  import opened ScheduleSteps
  import opened Scheduling

  // ---------------------------------------------------------------- admissions that cannot fail later

  /** Cached, or not a whole number of blocks long. */
  predicate Plain(e: Env, s: SeqState)
    requires e.blockSize > 0
  {
    !s.noCache || |s.tokens| % e.blockSize != 0
  }

  /** Every admission of a prefill pass is. */
  predicate PrefillPlain(e: Env, cfg: Config, st: Prefill)
    requires e.blockSize > 0
    decreases |st.waiting|
  {
    Admissible(e, cfg, st) ==>
      && Plain(e, st.waiting[0])
      && (Admit(e, st).Some? ==> PrefillPlain(e, cfg, Admit(e, st).value))
  }

  predicate StepPlain(e: Env, cfg: Config, st: Sched)
    requires e.blockSize > 0
  {
    PrefillPlain(e, cfg, Prefill(st.pool, st.waiting, st.running, [], 0))
  }

  /** No uncached request of the run is admitted, or admitted again, at a multiple of the block size. */
  predicate RunPlain(e: Env, cfg: Config, w: World, evs: seq<Event>)
    requires e.blockSize > 0
    decreases |evs|
  {
    evs == [] || (
      && (evs[0].Step? ==> StepPlain(e, cfg, w.sched))
      && (Happen(e, cfg, w, evs[0]).Some? ==> RunPlain(e, cfg, Happen(e, cfg, w, evs[0]).value, evs[1..])))
  }

  /** Those running were admitted that way. */
  predicate AdmittedPlain(e: Env, ss: seq<SeqState>)
    requires e.blockSize > 0
  {
    forall s :: s in ss ==> s.noCache ==> s.admitted % e.blockSize != 0
  }

  /** The assertion is reached only by one of the oldest sequences, as many as a batch may hold. */
  lemma {:induction false} FaultyTurnIsNear(e: Env, cfg: Config, st: Decode) returns (k: nat)
    requires e.blockSize > 1 && FaultyTurn(e, cfg, st)
    ensures k < |st.running| && |st.batch| + k < cfg.maxSeqs && Faulty(e, st.running[k])
    decreases |st.running|
  {
    hide MakeRoom, MayAppend, Faulty;
    var cur := st.running[0];
    var room := MakeRoom(e, st.pool, st.waiting, st.running[1..], cur);
    if Faulty(e, cur) {
      k := 0;
    } else {
      var preempted := RoomOrder(e, st.pool, st.waiting, st.running[1..], cur);
      k := FaultyTurnIsNear(e, cfg, AfterTurn(e, room, cur, st.batch).value);
      assert room.running[k] == st.running[1..][k] == st.running[k + 1];
      k := k + 1;
    }
  }

  lemma AdmitStaysPlain(e: Env, st: Prefill)
    requires e.blockSize > 0 && st.waiting != [] && Plain(e, st.waiting[0]) && AdmittedPlain(e, st.running)
    requires Admit(e, st).Some?
    ensures AdmittedPlain(e, Admit(e, st).value.running)
  {
    hide AllocUpto, NumBlocks;
  }

  lemma {:induction false} PrefillStaysPlain(e: Env, cfg: Config, st: Prefill)
    requires e.blockSize > 0 && PrefillLoop(e, cfg, st).Some?
    requires PrefillPlain(e, cfg, st) && AdmittedPlain(e, st.running)
    ensures AdmittedPlain(e, PrefillLoop(e, cfg, st).value.running)
    decreases |st.waiting|
  {
    hide Admit, Plain;
    if Admissible(e, cfg, st) {
      var t := AdmitMoves(e, st);
      AdmitStaysPlain(e, st);
      PrefillStaysPlain(e, cfg, Admit(e, st).value);
    }
  }

  lemma {:induction false} DecodeStaysPlain(e: Env, cfg: Config, st: Decode)
    requires e.blockSize > 0 && DecodeLoop(e, cfg, st).Some?
    requires AdmittedPlain(e, st.batch) && AdmittedPlain(e, st.running)
    ensures var r := DecodeLoop(e, cfg, st).value; AdmittedPlain(e, r.batch) && AdmittedPlain(e, r.running)
    decreases |st.running|
  {
    hide MakeRoom, MayAppend;
    if st.running != [] && |st.batch| < cfg.maxSeqs {
      var cur := st.running[0];
      var room := MakeRoom(e, st.pool, st.waiting, st.running[1..], cur);
      var preempted := RoomOrder(e, st.pool, st.waiting, st.running[1..], cur);
      if room.ok {
        AppendKeepsTokens(e, room.pool, cur);
        DecodeStaysPlain(e, cfg, AfterTurn(e, room, cur, st.batch).value);
      }
    }
  }

  lemma PlainIsNotFaulty(e: Env, cfg: Config, st: Decode)
    requires e.blockSize > 1 && AdmittedPlain(e, st.running)
    ensures !FaultyTurn(e, cfg, st)
  {
    NobodyFaulty(e, st.running);
    if FaultyTurn(e, cfg, st) {
      var k := FaultyTurnIsNear(e, cfg, st);
    }
  }

  lemma NobodyFaulty(e: Env, ss: seq<SeqState>)
    requires e.blockSize > 1 && AdmittedPlain(e, ss)
    ensures forall i :: 0 <= i < |ss| ==> !Faulty(e, ss[i])
  {
    forall i | 0 <= i < |ss| ensures !Faulty(e, ss[i]) {
      assert ss[i] in ss;
    }
  }

  /** A call of `schedule` over plain admissions cannot fail and keeps them plain. */
  lemma ScheduleStaysPlain(e: Env, cfg: Config, st: Sched)
    requires EnvOk(e) && e.blockSize > 1 && SchedOk(e, st)
    requires AdmittedPlain(e, st.running) && StepPlain(e, cfg, st)
    ensures !FaultyStep(e, cfg, st) && Schedule(e, cfg, st).Some?
    ensures AdmittedPlain(e, Schedule(e, cfg, st).value.sched.running)
  {
    hide PrefillLoop, DecodeLoop, SchedOk, FaultyTurn, PrefillPlain;
    ScheduleGood(e, cfg, st);
    var start := Prefill(st.pool, st.waiting, st.running, [], 0);
    if PrefillLoop(e, cfg, start).Some? {
      PrefillStaysPlain(e, cfg, start);
      var pre := PrefillLoop(e, cfg, start).value;
      var turn := Decode(pre.pool, pre.waiting, pre.running, []);
      PlainIsNotFaulty(e, cfg, turn);
      if pre.batch == [] && DecodeLoop(e, cfg, turn).Some? {
        DecodeStaysPlain(e, cfg, turn);
      }
    }
  }

  lemma HappenStaysPlain(e: Env, cfg: Config, w: World, ev: Event)
    requires EnvOk(e) && e.blockSize > 1 && WorldOk(e, w) && AdmittedPlain(e, w.sched.running)
    requires ev.Step? ==> StepPlain(e, cfg, w.sched)
    ensures ev.Step? ==> !FaultyStep(e, cfg, w.sched)
    ensures Happen(e, cfg, w, ev).Some? ==> AdmittedPlain(e, Happen(e, cfg, w, ev).value.sched.running)
  {
    hide SchedOk, Schedule, LeaveAll, Leave, Good, Keep, NoDup, Order, Stopping, SetOf, FaultyStep, StepPlain;
    match ev {
      case Arrive(id, prompt, noCache) =>
      case Cancel(id) => LeaveOk(e, w.sched, id);
      case Step(tok, stops) =>
        ScheduleStaysPlain(e, cfg, w.sched);
        ScheduleGood(e, cfg, w.sched);
        var r := Schedule(e, cfg, w.sched).value;
        BatchIsGood(e, w.sched, r);
        TokensGood(e, r.sched.pool, r.sched.waiting, r.sched.running, tok);
        TokensStayPlain(e, r.sched.running, tok);
        LeaveAllOk(e, r.sched.(running := AllWithToken(r.sched.running, tok)), Stopping(r.batch, stops));
    }
  }

  lemma TokensStayPlain(e: Env, ss: seq<SeqState>, tok: nat -> Token)
    requires e.blockSize > 0 && AdmittedPlain(e, ss)
    ensures AdmittedPlain(e, AllWithToken(ss, tok))
  {
    forall s | s in AllWithToken(ss, tok)
      ensures s.noCache ==> s.admitted % e.blockSize != 0
    {
      var i :| 0 <= i < |ss| && AllWithToken(ss, tok)[i] == s;
      assert ss[i] in ss;
    }
  }

  /** No run fails in which no uncached request is admitted at a multiple of the block size. */
  lemma {:induction false} PlainRunNeverFails(e: Env, cfg: Config, w: World, evs: seq<Event>)
    requires EnvOk(e) && e.blockSize > 1 && WorldOk(e, w) && AdmittedPlain(e, w.sched.running)
    requires Proper(w.arrived, evs) && RunPlain(e, cfg, w, evs)
    ensures Run(e, cfg, w, evs).Some? && WorldOk(e, Run(e, cfg, w, evs).value)
    decreases |evs|
  {
    hide WorldOk, Happen, FaultyStep, StepPlain, AdmittedPlain;
    if evs != [] {
      OneEvent(e, cfg, w, evs);
      HappenStaysPlain(e, cfg, w, evs[0]);
      PlainRunNeverFails(e, cfg, Happen(e, cfg, w, evs[0]).value, evs[1..]);
    }
  }

  // ---------------------------------------------------------------- cache-enabled runs

  /** It is enough that those waiting now are. */
  lemma {:induction false} PlainQueue(e: Env, cfg: Config, st: Prefill)
    requires e.blockSize > 0 && forall s :: s in st.waiting ==> Plain(e, s)
    ensures PrefillPlain(e, cfg, st)
    decreases |st.waiting|
  {
    hide Admit, Plain;
    if Admissible(e, cfg, st) && Admit(e, st).Some? {
      var t := AdmitMoves(e, st);
      PlainQueue(e, cfg, Admit(e, st).value);
    }
  }

  /** A call of `schedule` over cache-enabled requests does not fail. */
  lemma CachedStepIsPlain(e: Env, cfg: Config, st: Sched)
    requires EnvOk(e) && e.blockSize > 1 && SchedOk(e, st) && CacheEnabled(st)
    ensures AdmittedPlain(e, st.running) && StepPlain(e, cfg, st)
    ensures !FaultyStep(e, cfg, st) && Schedule(e, cfg, st).Some?
  {
    hide SchedOk, Schedule, PrefillPlain, FaultyStep;
    PlainQueue(e, cfg, Prefill(st.pool, st.waiting, st.running, [], 0));
    ScheduleStaysPlain(e, cfg, st);
  }

  /** A run of cache-enabled requests never fails. */
  lemma {:induction false} CachedRunNeverFails(e: Env, cfg: Config, w: World, evs: seq<Event>)
    requires EnvOk(e) && e.blockSize > 1 && WorldOk(e, w) && CacheEnabled(w.sched)
    requires Proper(w.arrived, evs) && NoneUncached(evs)
    ensures Run(e, cfg, w, evs).Some? && WorldOk(e, Run(e, cfg, w, evs).value)
    ensures CacheEnabled(Run(e, cfg, w, evs).value.sched)
    decreases |evs|
  {
    hide SchedOk, Happen, FaultyStep, StepPlain, AdmittedPlain, CacheEnabled, NoDup, Keep, Order;
    if evs != [] {
      OneEvent(e, cfg, w, evs);
      CachedStepIsPlain(e, cfg, w.sched);
      CacheStaysEnabled(e, cfg, w, evs[0]);
      CachedRunNeverFails(e, cfg, Happen(e, cfg, w, evs[0]).value, evs[1..]);
    }
  }

  // ---------------------------------------------------------------- the failing run

  /** One uncached prompt of whole blocks, alone on a new pool with a block to spare. */
  predicate WholeUncached(e: Env, cfg: Config, n: nat, prompt: seq<Token>)
    requires e.blockSize > 0
  {
    && prompt != [] && |prompt| % e.blockSize == 0 && NumBlocks(|prompt|, e.blockSize) < n
    && cfg.maxSeqs > 0 && |prompt| <= cfg.maxTokens
  }

  function NewWorld(n: nat): World {
    World(Sched(NewPool(n), [], []), [], {})
  }

  lemma NewWorldOk(e: Env, n: nat)
    requires e.blockSize > 1
    ensures WorldOk(e, NewWorld(n))
  {
    var p := NewPool(n);
    forall id: nat | id < n
      ensures id in p.free
    {
      assert p.free[id] == id;
    }
    RefsNone();
  }

  /** Its prefill: the only waiting request is admitted and batched. */
  lemma AloneIsAdmitted(e: Env, cfg: Config, p: Pool, s: SeqState) returns (q: Pool, t: SeqState)
    requires EnvOk(e) && e.blockSize > 1 && Accounted(p, multiset{}) && Idle(s) && s.noCache
    requires CanAllocate(e, p, s) && cfg.maxSeqs > 0 && |s.tokens| <= cfg.maxTokens
    ensures AllocatedFor(e, p, multiset{}, s, q, t) && t.cached == 0
    ensures Schedule(e, cfg, Sched(p, [s], [])) == Some(Scheduled(Sched(q, [], [t]), [t], true))
  {
    hide Accounted, NumBlocks, Allocate, CanAllocate, Live, Kept, Untouched;
    q, t := AllocateAccountedFor(e, p, multiset{}, s);
    UncachedHitsNothing(e, p, s);
    var start := Prefill(p, [s], [], [], 0);
    var next := Admit(e, start).value;
    assert next.waiting == [] && next.running == [t] && next.batch == [t];
    assert PrefillLoop(e, cfg, start) == PrefillLoop(e, cfg, next) == Some(next);
  }

  lemma {:induction false} UncachedUpto(e: Env, p: Pool, s: SeqState, i: nat)
    requires s.noCache && AllocUpto(e, p, s, i).Some?
    ensures AllocUpto(e, p, s, i).value.cached == s.cached
    decreases i
  {
    hide BlockTokens, Take, Compute, Register;
    if i > 0 { UncachedUpto(e, p, s, i - 1); }
  }

  lemma UncachedHitsNothing(e: Env, p: Pool, s: SeqState)
    requires e.blockSize > 0 && s.noCache && Allocate(e, p, s).Some?
    ensures Allocate(e, p, s).value.1.cached == s.cached
  {
    hide AllocUpto, NumBlocks;
    UncachedUpto(e, p, s, NumBlocks(|s.tokens|, e.blockSize));
  }

  lemma SpareBlock(e: Env, n: nat, prompt: seq<Token>, s: SeqState, q: Pool, t: SeqState, u: SeqState)
    requires e.blockSize > 1 && NumBlocks(|prompt|, e.blockSize) < n && s.tokens == prompt
    requires AllocatedFor(e, NewPool(n), multiset{}, s, q, t)
    ensures CanAppend(e, q, u)
  {
    hide Accounted, Kept, Untouched, Live, NumBlocks;
  }

  lemma OwedIsFaulty(e: Env, p: Pool, s: SeqState, q: Pool, t: SeqState, tok: nat -> Token)
    requires e.blockSize > 1 && AllocatedFor(e, p, multiset{}, s, q, t) && t.cached == 0
    requires s.tokens != [] && s.noCache && |s.tokens| % e.blockSize == 0
    ensures t.pending && Faulty(e, WithToken(t, tok))
  {
    hide Accounted, Kept, Untouched, Live, NumBlocks;
  }

  /** The assertion is reached from a new pool: any uncached prompt of whole blocks arrives, is stepped once,
      and the next call of `schedule` fails. */
  lemma UncachedPromptFails(e: Env, cfg: Config, n: nat, id: nat, prompt: seq<Token>, tok: nat -> Token,
                            stops: nat -> bool)
    returns (w: World)
    requires EnvOk(e) && e.blockSize > 1 && WholeUncached(e, cfg, n, prompt) && !stops(id)
    ensures Run(e, cfg, NewWorld(n), [Arrive(id, prompt, true), Step(tok, stops)]) == Some(w)
    ensures WorldOk(e, w) && Schedule(e, cfg, w.sched).None?
  {
    hide WorldOk, Schedule, AllocatedFor, CanAppend, Faulty, NumBlocks;
    NewWorldOk(e, n);
    var s := Arrived(id, prompt, true);
    NewPoolFits(e, n, s);
    var q, t := AloneIsAdmitted(e, cfg, NewPool(n), s);
    AdmittedTokens(e, NewPool(n), multiset{}, s, q, t);
    var evs := [Arrive(id, prompt, true), Step(tok, stops)];
    OwedIsFaulty(e, NewPool(n), s, q, t, tok);
    SpareBlock(e, n, prompt, s, q, t, WithToken(t, tok));
    assert evs[1..] == [evs[1]] && evs[1..][1..] == [];
    var mid := Happen(e, cfg, NewWorld(n), evs[0]).value;
    assert mid.sched == Sched(NewPool(n), [s], []);
    w := World(Sched(q, [], [WithToken(t, tok)]), [id], {});
    assert mid == World(Sched(NewPool(n), [s], []), [id], {});
    StepOfOne(e, cfg, mid, q, t, tok, stops);
    assert Run(e, cfg, w, []) == Some(w);
    assert Proper([id], evs[1..]);
    RunKeeps(e, cfg, NewWorld(n), evs);
    WorldIsOk(e, w);
    FaultyHeadFails(e, cfg, w.sched);
  }

  /** A step that batches a single request and does not stop it. */
  lemma StepOfOne(e: Env, cfg: Config, w: World, q: Pool, t: SeqState, tok: nat -> Token, stops: nat -> bool)
    requires e.blockSize > 0 && !stops(t.id) && w.gone == {}
    requires Schedule(e, cfg, w.sched) == Some(Scheduled(Sched(q, [], [t]), [t], true))
    ensures Happen(e, cfg, w, Step(tok, stops)) == Some(w.(sched := Sched(q, [], [WithToken(t, tok)])))
  {
    hide Schedule;
    assert AllWithToken([t], tok) == [WithToken(t, tok)];
    assert [t][1..] == [];
    assert Stopping([t], stops) == Stopping([], stops) == [];
    assert w.gone + SetOf([]) == {};
  }

  lemma NewPoolFits(e: Env, n: nat, s: SeqState)
    requires e.blockSize > 1 && NumBlocks(|s.tokens|, e.blockSize) < n
    ensures Accounted(NewPool(n), multiset{}) && CanAllocate(e, NewPool(n), s)
  {
    hide NumBlocks;
    NewWorldOk(e, n);
    RefsNone();
  }

  lemma WorldIsOk(e: Env, w: World)
    requires e.blockSize > 1 && WorldOk(e, w)
    ensures SchedOk(e, w.sched)
  {
  }
}
