/** The drive loop over the engine's step, with the refusals of that step: a request that was prefilled before
    may not be prefilled again, and one that never was has no embedding to decode from.  Without preemption the
    loop completes if and only if no request is wholly cached when it is admitted; a pool that covers
    everybody at their caps excludes preemption.
 */
module EngineDrive {
  import opened BlockAccounting
  import opened BlockPool
  import opened Drive
  import opened Outcomes
  import opened ScheduleFaults
  import opened ScheduleProgress
  import opened ScheduleRuns
  import opened ScheduleSteps
  import opened Scheduling

  /** The scheduler, the requests prefilled so far and those with an embedding for their next decode. */
  datatype Engine = Engine(sched: Sched, done: set<nat>, embedded: set<nat>)

  datatype Refusal = AssertionFailed | NothingScheduled | PrefilledAgain | NoEmbedding

  function IdSet(ss: seq<SeqState>): set<nat> {
    set s | s in ss :: s.id
  }

  /** One turn of the loop, with everything that may raise in it. */
  function EngineStep(e: Env, cfg: Config, g: Engine, tok: nat -> Token, cap: Caps): Result<Engine, Refusal>
    requires e.blockSize > 0
  {
    var r := Schedule(e, cfg, g.sched);
    if r.None? then Err(AssertionFailed)
    else
      var ids := IdSet(r.value.batch);
      if r.value.batch == [] then Err(NothingScheduled)
      else if r.value.prefill && ids !! g.done then
        Ok(Engine(Advance(r.value, tok, cap), g.done + ids, g.embedded + ids))
      else if r.value.prefill then Err(PrefilledAgain)
      else if ids <= g.embedded then Ok(Engine(Advance(r.value, tok, cap), g.done, g.embedded + ids))
      else Err(NoEmbedding)
  }

  predicate Busy(st: Sched) {
    st.running != [] || st.waiting != []
  }

  predicate StillBusy(r: Result<Engine, Refusal>) {
    r.Ok? && Busy(r.value.sched)
  }

  /** The tokens of turn `n`. */
  function TokensAt(tok: (nat, nat) -> Token, n: nat): nat -> Token {
    (id: nat) => tok(id, n)
  }

  /** The loop after at most `n` turns: it stops when nothing is left, or when a turn raises. */
  function DriveFor(e: Env, cfg: Config, g: Engine, tok: (nat, nat) -> Token, cap: Caps, n: nat)
    : Result<Engine, Refusal>
    requires e.blockSize > 0
  {
    if n == 0 then Ok(g)
    else
      var before := DriveFor(e, cfg, g, tok, cap, n - 1);
      if before.Err? || !Busy(before.value.sched) then before
      else EngineStep(e, cfg, before.value, TokensAt(tok, n - 1), cap)
  }

  /** The prefill pass of a call of `schedule`. */
  function PrefillOf(e: Env, cfg: Config, st: Sched): Option<Prefill>
    requires e.blockSize > 0
  {
    PrefillLoop(e, cfg, Prefill(st.pool, st.waiting, st.running, [], 0))
  }

  /** It admits a request of which every block is cached. */
  predicate AdmitsCached(e: Env, cfg: Config, st: Sched)
    requires e.blockSize > 0
  {
    var pre := PrefillOf(e, cfg, st);
    pre.Some? && exists i :: |st.running| <= i < |pre.value.running| && !pre.value.running[i].pending
  }

  /** The call takes somebody off the running queue. */
  predicate Preempts(e: Env, cfg: Config, st: Sched)
    requires e.blockSize > 0
  {
    var pre, r := PrefillOf(e, cfg, st), Schedule(e, cfg, st);
    pre.Some? && r.Some? && |r.value.sched.running| < |pre.value.running|
  }

  // ---------------------------------------------------------------- one call of schedule without preemption

  /** What a call that preempts nobody does: `moved` are the requests it admits. */
  ghost predicate Calls(e: Env, cfg: Config, st: Sched, moved: seq<SeqState>)
    requires e.blockSize > 0 && Schedule(e, cfg, st).Some?
  {
    var r := Schedule(e, cfg, st).value;
    && |moved| <= |st.waiting| && Ids(moved) == Ids(st.waiting[..|moved|])
    && Ids(r.sched.running) == Ids(st.running) + Ids(moved) && r.sched.waiting == st.waiting[|moved|..]
    && r.batch == Pending(r.sched.running)
    && (r.prefill ==> r.sched.running == st.running + moved)
    && (!r.prefill ==> forall s :: s in moved ==> !s.pending)
    && (AdmitsCached(e, cfg, st) <==> exists s :: s in moved && !s.pending)
  }

  lemma CallFacts(e: Env, cfg: Config, st: Sched) returns (moved: seq<SeqState>)
    requires EnvOk(e) && e.blockSize > 1 && SchedOk(e, st) && Schedule(e, cfg, st).Some? && !Preempts(e, cfg, st)
    ensures Calls(e, cfg, st, moved)
  {
    hide PrefillLoop, DecodeLoop, PrefillOk, SchedOk, Good, FaultyStep, WritesApart, OwnLasts, Refs, Pending;
    var start := Prefill(st.pool, st.waiting, st.running, [], 0);
    ScheduleGood(e, cfg, st);
    StartOk(e, st);
    PrefillStaysOk(e, cfg, Refs(st.running), start);
    moved := PrefillOrder(e, cfg, start);
    var pre := PrefillLoop(e, cfg, start).value;
    PrefilledOk(e, Refs(st.running), pre);
    CachedAmong(st.running, moved, pre.running);
    AdmittedIds(st, moved, pre.running, pre.waiting);
    assert AdmitsCached(e, cfg, st) <==> exists s :: s in moved && !s.pending;
    BatchIsPending(e, st, Schedule(e, cfg, st).value);
    if pre.batch == [] {
      PendingNone(pre.running);
      NoneIsPending(st.running, moved, pre.running);
      var turn := Decode(pre.pool, pre.waiting, pre.running, []);
      var preempted := DecodeOrder(e, cfg, turn);
      assert [] + pre.running == pre.running;
      var dec := DecodeLoop(e, cfg, turn).value;
      SamePlaces(pre.running, pre.waiting, dec.batch + dec.running, dec.waiting, preempted);
    }
  }

  lemma BatchIsPending(e: Env, st: Sched, r: Scheduled)
    requires e.blockSize > 1 && BatchOk(e, st, r)
    ensures r.batch == Pending(r.sched.running)
  {
  }

  lemma NoneIsPending(running: seq<SeqState>, moved: seq<SeqState>, all: seq<SeqState>)
    requires all == running + moved && forall i :: 0 <= i < |all| ==> !all[i].pending
    ensures forall s :: s in moved ==> !s.pending
  {
    forall s | s in moved
      ensures !s.pending
    {
      var i :| 0 <= i < |moved| && moved[i] == s;
      assert all[|running| + i] == s;
    }
  }

  lemma CachedAmong(running: seq<SeqState>, moved: seq<SeqState>, all: seq<SeqState>)
    requires all == running + moved
    ensures (exists i :: |running| <= i < |all| && !all[i].pending) <==> exists s :: s in moved && !s.pending
  {
    if i :| |running| <= i < |all| && !all[i].pending {
      assert all[i] == moved[i - |running|];
    }
    if s :| s in moved && !s.pending {
      var i :| 0 <= i < |moved| && moved[i] == s;
      assert all[|running| + i] == s;
    }
  }

  lemma AdmittedIds(st: Sched, moved: seq<SeqState>, running: seq<SeqState>, waiting: seq<SeqState>)
    requires running == st.running + moved && |moved| <= |st.waiting| && waiting == st.waiting[|moved|..]
    requires Requests(running) + Requests(waiting) == Requests(st.running) + Requests(st.waiting)
    ensures Ids(moved) == Ids(st.waiting[..|moved|]) && Ids(running) == Ids(st.running) + Ids(moved)
  {
    SameIds(running, waiting, st.running, st.waiting);
    IdsSplit(st.running, moved);
    var all := Ids(running) + Ids(waiting);
    forall i | 0 <= i < |moved|
      ensures Ids(moved)[i] == Ids(st.waiting[..|moved|])[i]
    {
      assert all[|st.running| + i] == Ids(running)[|st.running| + i] == moved[i].id;
      assert (Ids(st.running) + Ids(st.waiting))[|st.running| + i] == st.waiting[i].id;
    }
  }

  /** If the running queue does not get shorter, everybody keeps their place. */
  lemma SamePlaces(running: seq<SeqState>, waiting: seq<SeqState>, running': seq<SeqState>, waiting': seq<SeqState>,
                   preempted: seq<SeqState>)
    requires Requests(running') + Requests(waiting') == Requests(running) + Requests(waiting)
    requires waiting' == preempted + waiting && |running'| >= |running|
    ensures waiting' == waiting && Ids(running') == Ids(running)
  {
    var x, y := Requests(running') + Requests(waiting'), Requests(running) + Requests(waiting);
    assert |x| == |running'| + |waiting'| && |y| == |running| + |waiting|;
    forall i | 0 <= i < |running|
      ensures Ids(running')[i] == Ids(running)[i]
    {
      assert x[i] == Who(running'[i]) && y[i] == Who(running[i]);
    }
  }

  // ---------------------------------------------------------------- who is where after a turn

  lemma InIds(ss: seq<SeqState>, x: nat)
    ensures x in Ids(ss) <==> exists s :: s in ss && s.id == x
  {
    if x in Ids(ss) {
      var i :| 0 <= i < |ss| && Ids(ss)[i] == x;
      assert ss[i] in ss;
    }
    if s :| s in ss && s.id == x {
      var i :| 0 <= i < |ss| && ss[i] == s;
      assert Ids(ss)[i] == x;
    }
  }

  lemma {:induction false} FullIsBatched(batch: seq<SeqState>, cap: Caps, x: nat)
    requires x in Full(batch, cap)
    ensures x in IdSet(batch)
    decreases |batch|
  {
    if !(|batch[0].tokens| + 1 >= cap(batch[0].id) && batch[0].id == x) {
      FullIsBatched(batch[1..], cap, x);
    }
  }

  lemma {:induction false} StaysRunning(st: Sched, ids: seq<nat>, x: nat)
    requires x in Ids(st.running) && x !in ids
    ensures x in Ids(LeaveAll(st, ids).running)
    decreases |ids|
  {
    hide Ids, DropAll;
    if ids != [] {
      WithoutIds(st.running, ids[0]);
      OthersStay(Ids(st.running), ids[0], x);
      StaysRunning(Leave(st, ids[0]), ids[1..], x);
    }
  }

  lemma {:induction false} OthersStay(s: seq<nat>, x: nat, y: nat)
    requires y in s && y != x
    ensures y in RemoveFirst(s, x)
    decreases |s|
  {
    if s[0] != x && s[0] != y {
      OthersStay(s[1..], x, y);
    }
  }

  /** Who runs and who waits after the turn, by id. */
  ghost predicate Turned(st: Sched, moved: seq<SeqState>, r: Scheduled, next: Sched)
    requires |moved| <= |st.waiting|
  {
    && (forall x :: x in Ids(next.running) ==> x in Ids(st.running) || x in Ids(moved))
    && (forall x :: (x in Ids(st.running) || x in Ids(moved)) && x !in IdSet(r.batch) ==> x in Ids(next.running))
    && (forall s :: s in next.waiting ==> s in st.waiting && s.id !in Ids(st.running) && s.id !in Ids(moved))
    && (forall x :: x in IdSet(r.batch) ==> x in Ids(st.running) || x in Ids(moved))
    && (r.prefill ==> forall x :: x in IdSet(r.batch) ==> x in Ids(moved) && x !in Ids(st.running))
    && (forall s :: s in moved ==> s.id !in Ids(st.running))
    && (r.prefill ==> forall s :: s in moved ==> (s.pending <==> s.id in IdSet(r.batch)))
  }

  lemma TurnIds(e: Env, cfg: Config, st: Sched, moved: seq<SeqState>, tok: nat -> Token, cap: Caps)
    requires EnvOk(e) && e.blockSize > 1 && SchedOk(e, st) && Schedule(e, cfg, st).Some? && NoDup(Order(st))
    requires Calls(e, cfg, st, moved)
    ensures var r := Schedule(e, cfg, st).value; Turned(st, moved, r, Advance(r, tok, cap))
  {
    hide Schedule, SchedOk, Good, FaultyStep, WritesApart, OwnLasts, AdmitsCached, Ids, Pending, Full, LeaveAll,
      IdSet;
    ScheduleGood(e, cfg, st);
    var r := Schedule(e, cfg, st).value;
    BatchIsGood(e, st, r);
    TokensGood(e, r.sched.pool, r.sched.waiting, r.sched.running, tok);
    TokensKeepTables(r.sched.running, tok);
    var mid, full := r.sched.(running := AllWithToken(r.sched.running, tok)), Full(r.batch, cap);
    LeaveAllOk(e, mid, full);
    var next := LeaveAll(mid, full);
    Apart(st, moved);
    WhoRuns(mid, r, full, next, cap);
    if r.prefill {
      PrefillBatch(e, st, moved, r);
    }
  }

  lemma WhoRuns(mid: Sched, r: Scheduled, full: seq<nat>, next: Sched, cap: Caps)
    requires full == Full(r.batch, cap) && next == LeaveAll(mid, full)
    requires forall s :: s in next.running ==> s in mid.running
    requires r.batch == Pending(r.sched.running) && Ids(r.sched.running) == Ids(mid.running)
    ensures forall x :: x in Ids(next.running) ==> x in Ids(mid.running)
    ensures forall x :: x in Ids(mid.running) && x !in IdSet(r.batch) ==> x in Ids(next.running)
    ensures forall x :: x in IdSet(r.batch) ==> x in Ids(mid.running)
  {
    hide Ids, Pending, Full, LeaveAll, IdSet;
    forall x | x in Ids(next.running)
      ensures x in Ids(mid.running)
    {
      SubIds(next.running, mid.running, x);
    }
    forall x | x in Ids(mid.running) && x !in IdSet(r.batch)
      ensures x in Ids(next.running)
    {
      if x in full { FullIsBatched(r.batch, cap, x); }
      StaysRunning(mid, full, x);
    }
    forall x | x in IdSet(r.batch)
      ensures x in Ids(mid.running)
    {
      BatchRuns(r, x);
    }
  }

  lemma SubIds(a: seq<SeqState>, b: seq<SeqState>, x: nat)
    requires x in Ids(a) && forall s :: s in a ==> s in b
    ensures x in Ids(b)
  {
    InIds(a, x);
    InIds(b, x);
  }

  lemma BatchRuns(r: Scheduled, x: nat)
    requires r.batch == Pending(r.sched.running) && x in IdSet(r.batch)
    ensures x in Ids(r.sched.running)
  {
    hide Pending;
    InIds(r.sched.running, x);
  }

  /** Running, admitted and waiting requests have different ids. */
  lemma Apart(st: Sched, moved: seq<SeqState>)
    requires NoDup(Order(st)) && |moved| <= |st.waiting| && Ids(moved) == Ids(st.waiting[..|moved|])
    ensures forall s :: s in moved ==> s.id !in Ids(st.running)
    ensures forall s :: s in st.waiting[|moved|..] ==>
              s in st.waiting && s.id !in Ids(st.running) && s.id !in Ids(moved)
    ensures forall i, j :: 0 <= i < j < |moved| ==> moved[i].id != moved[j].id
  {
    var n := |moved|;
    var a, b, c := Ids(st.running), Ids(moved), Ids(st.waiting[n..]);
    assert st.waiting == st.waiting[..n] + st.waiting[n..];
    IdsSplit(st.waiting[..n], st.waiting[n..]);
    assert Order(st) == a + (b + c);
    NoDupParts(a, b + c);
    NoDupParts(b, c);
    forall s | s in moved
      ensures s.id !in Ids(st.running)
    {
      InIds(moved, s.id);
    }
    forall s | s in st.waiting[n..]
      ensures s in st.waiting && s.id !in Ids(st.running) && s.id !in Ids(moved)
    {
      InIds(st.waiting[n..], s.id);
    }
    forall i, j | 0 <= i < j < n
      ensures moved[i].id != moved[j].id
    {
      assert b[i] == moved[i].id && b[j] == moved[j].id;
    }
  }

  lemma NoDupParts(a: seq<nat>, b: seq<nat>)
    requires NoDup(a + b)
    ensures NoDup(a) && NoDup(b) && forall x :: x in a ==> x !in b
  {
    var all := a + b;
    assert forall i :: 0 <= i < |a| ==> all[i] == a[i];
    assert forall i :: 0 <= i < |b| ==> all[|a| + i] == b[i];
  }

  lemma PrefillBatch(e: Env, st: Sched, moved: seq<SeqState>, r: Scheduled)
    requires e.blockSize > 1 && SchedOk(e, st) && r.sched.running == st.running + moved
    requires r.batch == Pending(r.sched.running)
    requires forall s :: s in moved ==> s.id !in Ids(st.running)
    requires forall i, j :: 0 <= i < j < |moved| ==> moved[i].id != moved[j].id
    ensures forall x :: x in IdSet(r.batch) ==> x in Ids(moved) && x !in Ids(st.running)
    ensures forall s :: s in moved ==> (s.pending <==> s.id in IdSet(r.batch))
  {
    hide Good, Pending;
    forall x | x in IdSet(r.batch)
      ensures exists s :: s in moved && s.pending && s.id == x
    {
      var s :| s in r.batch && s.id == x;
      var i :| 0 <= i < |r.sched.running| && r.sched.running[i] == s;
      assert s.pending && i >= |st.running|;
      assert moved[i - |st.running|] == s;
    }
    forall s | s in moved
      ensures s.id in Ids(moved)
      ensures s.pending ==> s.id in IdSet(r.batch)
    {
      InIds(moved, s.id);
      if s.pending { PendingHas(r.sched.running, s); }
    }
    forall s | s in moved && s.id in IdSet(r.batch)
      ensures s.pending
    {
      var t :| t in moved && t.pending && t.id == s.id;
      var i :| 0 <= i < |moved| && moved[i] == s;
      var j :| 0 <= j < |moved| && moved[j] == t;
    }
  }

  // ---------------------------------------------------------------- one turn

  /** Nobody who waits was ever batched. */
  ghost predicate Unborn(g: Engine) {
    forall x :: x in Ids(g.sched.waiting) ==> x !in g.done && x !in g.embedded
  }

  /** Everybody who runs has an embedding. */
  ghost predicate Clean(g: Engine) {
    forall x :: x in Ids(g.sched.running) ==> x in g.embedded
  }

  /** Between turns: the loop's requests are ready, and none of them can reach the assertion. */
  ghost predicate Sane(e: Env, cfg: Config, g: Engine, cap: Caps)
    requires e.blockSize > 1
  {
    && Ready(e, cfg, g.sched, cap) && Unborn(g)
    && AdmittedPlain(e, g.sched.running) && forall s :: s in g.sched.waiting ==> Plain(e, s)
  }

  /** A turn that preempts nobody: it is refused exactly for want of an embedding; otherwise less is left to
      do and everything stays sane. */
  lemma SaneTurn(e: Env, cfg: Config, g: Engine, tok: nat -> Token, cap: Caps) returns (moved: seq<SeqState>)
    requires EnvOk(e) && e.blockSize > 1 && Sane(e, cfg, g, cap) && Busy(g.sched) && !Preempts(e, cfg, g.sched)
    ensures Schedule(e, cfg, g.sched).Some? && Calls(e, cfg, g.sched, moved)
    ensures var r := Schedule(e, cfg, g.sched).value; Turned(g.sched, moved, r, Advance(r, tok, cap))
    ensures var r, next := Schedule(e, cfg, g.sched).value, EngineStep(e, cfg, g, tok, cap);
            && (next == Err(NoEmbedding) <==> !r.prefill && !(IdSet(r.batch) <= g.embedded))
            && (next.Err? ==> next == Err(NoEmbedding))
            && (next.Ok? ==> Sane(e, cfg, next.value, cap) && next.value.sched == Advance(r, tok, cap)
                             && Remaining(next.value.sched, cap) < Remaining(g.sched, cap)
                             && next.value.embedded == g.embedded + IdSet(r.batch))
  {
    hide Schedule, SchedOk, FaultyStep, AdmitsCached, Preempts, Advance, Remaining, Ids, IdSet, AdmittedPlain, Plain,
      NoDup, Capped, PrefillPlain;
    PlainQueue(e, cfg, Prefill(g.sched.pool, g.sched.waiting, g.sched.running, [], 0));
    ScheduleStaysPlain(e, cfg, g.sched);
    TurnDecreases(e, cfg, g.sched, tok, cap);
    moved := CallFacts(e, cfg, g.sched);
    TurnIds(e, cfg, g.sched, moved, tok, cap);
    var r := Schedule(e, cfg, g.sched).value;
    var next := Advance(r, tok, cap);
    AdvancedPlain(e, cfg, g.sched, r, tok, cap);
    if r.prefill {
      PrefillsNew(g, moved, r);
    }
    forall x | x in Ids(next.waiting)
      ensures x !in g.done && x !in g.embedded && x !in IdSet(r.batch)
    {
      WaitsApart(g.sched, moved, r, next, x);
    }
  }

  lemma PrefillsNew(g: Engine, moved: seq<SeqState>, r: Scheduled)
    requires Unborn(g) && |moved| <= |g.sched.waiting| && Ids(moved) == Ids(g.sched.waiting[..|moved|])
    requires forall x :: x in IdSet(r.batch) ==> x in Ids(moved)
    ensures IdSet(r.batch) !! g.done
  {
    forall x | x in IdSet(r.batch)
      ensures x !in g.done
    {
      SubIds(g.sched.waiting[..|moved|], g.sched.waiting, x);
    }
  }

  lemma WaitsApart(st: Sched, moved: seq<SeqState>, r: Scheduled, next: Sched, x: nat)
    requires |moved| <= |st.waiting| && Turned(st, moved, r, next) && x in Ids(next.waiting)
    ensures x in Ids(st.waiting) && x !in IdSet(r.batch) && x !in Ids(st.running) && x !in Ids(moved)
  {
    hide Ids, IdSet;
    InIds(next.waiting, x);
    var s :| s in next.waiting && s.id == x;
    InIds(st.waiting, x);
  }

  lemma AdvancedPlain(e: Env, cfg: Config, st: Sched, r: Scheduled, tok: nat -> Token, cap: Caps)
    requires EnvOk(e) && e.blockSize > 1 && SchedOk(e, st) && Schedule(e, cfg, st) == Some(r)
    requires AdmittedPlain(e, r.sched.running)
    ensures AdmittedPlain(e, Advance(r, tok, cap).running)
  {
    hide Schedule, SchedOk, FaultyStep, LeaveAll, Full, Good;
    ScheduleGood(e, cfg, st);
    BatchIsGood(e, st, r);
    TokensGood(e, r.sched.pool, r.sched.waiting, r.sched.running, tok);
    TokensStayPlain(e, r.sched.running, tok);
    LeaveAllOk(e, r.sched.(running := AllWithToken(r.sched.running, tok)), Full(r.batch, cap));
  }

  /** From a clean state, a turn that admits nothing wholly cached is not refused and leaves a clean state. */
  lemma CleanTurn(e: Env, cfg: Config, g: Engine, tok: nat -> Token, cap: Caps)
    requires EnvOk(e) && e.blockSize > 1 && Sane(e, cfg, g, cap) && Busy(g.sched) && !Preempts(e, cfg, g.sched)
    requires Clean(g) && !AdmitsCached(e, cfg, g.sched)
    ensures EngineStep(e, cfg, g, tok, cap).Ok? && Clean(EngineStep(e, cfg, g, tok, cap).value)
  {
    hide Schedule, Sane, AdmitsCached, Preempts, Advance, Ids, IdSet, EngineStep;
    var moved := SaneTurn(e, cfg, g, tok, cap);
    var r := Schedule(e, cfg, g.sched).value;
    var next := Advance(r, tok, cap);
    forall x | x in Ids(moved)
      ensures r.prefill && x in IdSet(r.batch)
    {
      InIds(moved, x);
      var s :| s in moved && s.id == x;
      assert s.pending;
    }
  }

  /** A turn that admits something wholly cached, or already has such a request running, is refused or leaves
      one running. */
  lemma StuckTurn(e: Env, cfg: Config, g: Engine, tok: nat -> Token, cap: Caps)
    requires EnvOk(e) && e.blockSize > 1 && Sane(e, cfg, g, cap) && Busy(g.sched) && !Preempts(e, cfg, g.sched)
    requires !Clean(g) || AdmitsCached(e, cfg, g.sched)
    ensures EngineStep(e, cfg, g, tok, cap).Ok? ==> !Clean(EngineStep(e, cfg, g, tok, cap).value)
  {
    hide Schedule, Sane, AdmitsCached, Preempts, Advance, Ids, IdSet, EngineStep;
    var moved := SaneTurn(e, cfg, g, tok, cap);
    var r := Schedule(e, cfg, g.sched).value;
    var next := Advance(r, tok, cap);
    if EngineStep(e, cfg, g, tok, cap).Ok? {
      var x: nat;
      if !Clean(g) {
        x :| x in Ids(g.sched.running) && x !in g.embedded;
      } else {
        var s :| s in moved && !s.pending;
        x := s.id;
        InIds(moved, x);
        NewIds(e, cfg, g, cap, moved, x);
      }
      assert x !in IdSet(r.batch);
      assert x in Ids(next.running);
    }
  }

  lemma NewIds(e: Env, cfg: Config, g: Engine, cap: Caps, moved: seq<SeqState>, x: nat)
    requires e.blockSize > 1 && Sane(e, cfg, g, cap) && |moved| <= |g.sched.waiting|
    requires Ids(moved) == Ids(g.sched.waiting[..|moved|]) && x in Ids(moved)
    ensures x !in g.embedded
  {
    hide Ready, AdmittedPlain, Plain;
    SubIds(g.sched.waiting[..|moved|], g.sched.waiting, x);
  }

  // ---------------------------------------------------------------- the whole loop

  /** Up to turn `n`, nobody is preempted. */
  ghost predicate NoPreemption(e: Env, cfg: Config, g: Engine, tok: (nat, nat) -> Token, cap: Caps, n: nat)
    requires e.blockSize > 0
  {
    forall k :: 0 <= k < n && DriveFor(e, cfg, g, tok, cap, k).Ok? ==>
      !Preempts(e, cfg, DriveFor(e, cfg, g, tok, cap, k).value.sched)
  }

  /** Up to turn `n`, no request is wholly cached when it is admitted. */
  ghost predicate NothingCached(e: Env, cfg: Config, g: Engine, tok: (nat, nat) -> Token, cap: Caps, n: nat)
    requires e.blockSize > 0
  {
    forall k :: 0 <= k < n && StillBusy(DriveFor(e, cfg, g, tok, cap, k)) ==>
      !AdmitsCached(e, cfg, DriveFor(e, cfg, g, tok, cap, k).value.sched)
  }

  /** While nobody is preempted, the loop can only be refused for want of an embedding, and it stands clean
      exactly as long as nothing wholly cached was admitted. */
  lemma {:induction false} DriveSane(e: Env, cfg: Config, g: Engine, tok: (nat, nat) -> Token, cap: Caps, n: nat)
    requires EnvOk(e) && e.blockSize > 1 && Sane(e, cfg, g, cap) && Clean(g)
    requires NoPreemption(e, cfg, g, tok, cap, n)
    ensures var r := DriveFor(e, cfg, g, tok, cap, n);
            && (r.Err? ==> r == Err(NoEmbedding) && !NothingCached(e, cfg, g, tok, cap, n))
            && (r.Ok? ==> Sane(e, cfg, r.value, cap)
                          && (Clean(r.value) <==> NothingCached(e, cfg, g, tok, cap, n))
                          && (Busy(r.value.sched) ==> Remaining(r.value.sched, cap) + n <= Remaining(g.sched, cap)))
    decreases n
  {
    hide Sane, Clean, AdmitsCached, Preempts, EngineStep, Remaining, Schedule, Advance, Ids, IdSet, Calls, Turned;
    if n > 0 {
      DriveSane(e, cfg, g, tok, cap, n - 1);
      var before := DriveFor(e, cfg, g, tok, cap, n - 1);
      if before.Ok? && Busy(before.value.sched) {
        var moved := SaneTurn(e, cfg, before.value, TokensAt(tok, n - 1), cap);
        if Clean(before.value) && !AdmitsCached(e, cfg, before.value.sched) {
          CleanTurn(e, cfg, before.value, TokensAt(tok, n - 1), cap);
        } else {
          StuckTurn(e, cfg, before.value, TokensAt(tok, n - 1), cap);
        }
      }
    }
  }

  /** If nobody is preempted, the loop completes if and only if no request is wholly cached when it is
      admitted; if it does not complete, what raises is the missing embedding. */
  lemma CompletesUnlessCached(e: Env, cfg: Config, g: Engine, tok: (nat, nat) -> Token, cap: Caps, n: nat)
    requires EnvOk(e) && e.blockSize > 1 && Sane(e, cfg, g, cap) && Clean(g)
    requires NoPreemption(e, cfg, g, tok, cap, n) && n > Remaining(g.sched, cap)
    ensures var r := DriveFor(e, cfg, g, tok, cap, n);
            && (r.Ok? <==> NothingCached(e, cfg, g, tok, cap, n))
            && (r.Ok? ==> !Busy(r.value.sched)) && (r.Err? ==> r == Err(NoEmbedding))
  {
    hide Sane, NothingCached, DriveFor, Remaining;
    DriveSane(e, cfg, g, tok, cap, n);
    var r := DriveFor(e, cfg, g, tok, cap, n);
    if r.Ok? {
      assert r.value.sched.running == [];
    }
  }

  // ---------------------------------------------------------------- a pool for everybody at their caps

  /** Blocks a request takes at most. */
  function CapBlocks(e: Env, cap: Caps): Weight
    requires e.blockSize > 0
  {
    (r: Request) => NumBlocks(cap(r.id), e.blockSize)
  }

  /** The pool holds everybody at their caps at once. */
  predicate Covers(e: Env, st: Sched, cap: Caps)
    requires e.blockSize > 0
  {
    Everybody(st, CapBlocks(e, cap)) <= |st.pool.blocks|
  }

  lemma {:induction false} NeedWithinCaps(e: Env, ss: seq<SeqState>, cap: Caps)
    requires e.blockSize > 0 && forall s :: s in ss ==> |s.tokens| <= cap(s.id)
    ensures Need(e, ss) <= Total(Requests(ss), CapBlocks(e, cap))
    decreases |ss|
  {
    hide NumBlocks, Requests, Total;
    if ss == [] {
    } else {
      var front, s := ss[..|ss| - 1], ss[|ss| - 1];
      assert ss == front + [s];
      NeedWithinCaps(e, front, cap);
      RequestsSnoc(front, s);
      TotalSnoc(Requests(front), Who(s), CapBlocks(e, cap));
      NumBlocksMonotone(|s.tokens|, cap(s.id), e.blockSize);
    }
  }

  lemma {:induction false} TokensKeepCaps(e: Env, ss: seq<SeqState>, tok: nat -> Token, cap: Caps)
    requires e.blockSize > 0
    ensures Total(Requests(AllWithToken(ss, tok)), CapBlocks(e, cap)) == Total(Requests(ss), CapBlocks(e, cap))
    decreases |ss|
  {
    hide NumBlocks, Requests, Total;
    if ss == [] {
      assert AllWithToken(ss, tok) == ss;
    } else {
      var front, s := ss[..|ss| - 1], ss[|ss| - 1];
      assert ss == front + [s];
      TokensKeepCaps(e, front, tok, cap);
      assert AllWithToken(ss, tok) == AllWithToken(front, tok) + [WithToken(s, tok)];
      RequestsSnoc(AllWithToken(front, tok), WithToken(s, tok));
      RequestsSnoc(front, s);
      TotalSnoc(Requests(AllWithToken(front, tok)), Who(WithToken(s, tok)), CapBlocks(e, cap));
      TotalSnoc(Requests(front), Who(s), CapBlocks(e, cap));
    }
  }

  lemma BelowTheirCaps(e: Env, cfg: Config, st: Sched, cap: Caps)
    requires e.blockSize > 1 && Ready(e, cfg, st, cap)
    ensures forall s :: s in st.running || s in st.waiting ==> |s.tokens| < cap(s.id)
  {
    hide SchedOk, NumBlocks, NoDup;
    var rs := Requests(st.running) + Requests(st.waiting);
    forall s | s in st.running || s in st.waiting
      ensures |s.tokens| < cap(s.id)
    {
      if s in st.running {
        var i :| 0 <= i < |st.running| && st.running[i] == s;
        assert rs[i] == Who(s) && rs[i] in rs;
      } else {
        var i :| 0 <= i < |st.waiting| && st.waiting[i] == s;
        assert rs[|st.running| + i] == Who(s) && rs[|st.running| + i] in rs;
      }
    }
  }

  /** A pool that covers everybody is never short, and covers whoever is left. */
  lemma CoveredTurn(e: Env, cfg: Config, st: Sched, tok: nat -> Token, cap: Caps)
    requires EnvOk(e) && e.blockSize > 1 && Ready(e, cfg, st, cap) && Covers(e, st, cap)
    ensures !Preempts(e, cfg, st)
    ensures Schedule(e, cfg, st).Some? ==> Covers(e, Advance(Schedule(e, cfg, st).value, tok, cap), cap)
  {
    hide Schedule, SchedOk, Need, Total, LeaveAll, Full, Capped, NoDup, Requests, PrefillLoop, CapBlocks;
    BelowTheirCaps(e, cfg, st, cap);
    NeedWithinCaps(e, st.running, cap);
    NeedWithinCaps(e, st.waiting, cap);
    var admitted := NobodyIsPreempted(e, cfg, st);
    if Schedule(e, cfg, st).Some? {
      var r, w := Schedule(e, cfg, st).value, CapBlocks(e, cap);
      var moved := ScheduleIsFcfs(e, cfg, st);
      SameCount(st, r.sched);
      SameTotal(st, r.sched, w);
      ScheduleKeepsSize(e, cfg, st);
      TokensKeepCaps(e, r.sched.running, tok, cap);
      var mid := r.sched.(running := AllWithToken(r.sched.running, tok));
      LeaveAllTotal(mid, Full(r.batch, cap), w);
      LeaveAllKeepsSize(mid, Full(r.batch, cap));
    }
  }

  lemma SameCount(a: Sched, b: Sched)
    requires Requests(b.running) + Requests(b.waiting) == Requests(a.running) + Requests(a.waiting)
    ensures |b.running| + |b.waiting| == |a.running| + |a.waiting|
  {
    var x, y := Requests(a.running) + Requests(a.waiting), Requests(b.running) + Requests(b.waiting);
    assert |x| == |a.running| + |a.waiting| && |y| == |b.running| + |b.waiting|;
  }

  lemma {:induction false} DriveStaysCovered(e: Env, cfg: Config, g: Engine, tok: (nat, nat) -> Token, cap: Caps,
                                             n: nat)
    requires EnvOk(e) && e.blockSize > 1 && Ready(e, cfg, g.sched, cap) && Covers(e, g.sched, cap)
    ensures var r := DriveFor(e, cfg, g, tok, cap, n);
            r.Ok? ==> Ready(e, cfg, r.value.sched, cap) && Covers(e, r.value.sched, cap)
    decreases n
  {
    hide Ready, Covers, Schedule, Advance, Remaining;
    if n > 0 {
      DriveStaysCovered(e, cfg, g, tok, cap, n - 1);
      var before := DriveFor(e, cfg, g, tok, cap, n - 1);
      if before.Ok? && Busy(before.value.sched) {
        TurnDecreases(e, cfg, before.value.sched, TokensAt(tok, n - 1), cap);
        CoveredTurn(e, cfg, before.value.sched, TokensAt(tok, n - 1), cap);
      }
    }
  }

  /** With a pool that covers the sum of everybody's maximal block counts nobody is ever preempted, in the
      whole loop. */
  lemma NobodyIsEverPreempted(e: Env, cfg: Config, g: Engine, tok: (nat, nat) -> Token, cap: Caps, n: nat)
    requires EnvOk(e) && e.blockSize > 1 && Ready(e, cfg, g.sched, cap) && Covers(e, g.sched, cap)
    ensures NoPreemption(e, cfg, g, tok, cap, n)
  {
    hide Ready, Covers, Preempts, DriveFor;
    forall k | 0 <= k < n && DriveFor(e, cfg, g, tok, cap, k).Ok?
      ensures !Preempts(e, cfg, DriveFor(e, cfg, g, tok, cap, k).value.sched)
    {
      DriveStaysCovered(e, cfg, g, tok, cap, k);
      CoveredTurn(e, cfg, DriveFor(e, cfg, g, tok, cap, k).value.sched, TokensAt(tok, 0), cap);
    }
  }

  /** So with such a pool the loop completes if and only if no request is wholly cached at admission. */
  lemma CoveredCompletesUnlessCached(e: Env, cfg: Config, g: Engine, tok: (nat, nat) -> Token, cap: Caps, n: nat)
    requires EnvOk(e) && e.blockSize > 1 && Sane(e, cfg, g, cap) && Clean(g) && Covers(e, g.sched, cap)
    requires n > Remaining(g.sched, cap)
    ensures var r := DriveFor(e, cfg, g, tok, cap, n);
            && (r.Ok? <==> NothingCached(e, cfg, g, tok, cap, n))
            && (r.Ok? ==> !Busy(r.value.sched)) && (r.Err? ==> r == Err(NoEmbedding))
  {
    hide Ready, Covers, NoPreemption, NothingCached, DriveFor, Remaining;
    NobodyIsEverPreempted(e, cfg, g, tok, cap, n);
    CompletesUnlessCached(e, cfg, g, tok, cap, n);
  }

  // ---------------------------------------------------------------- what a caller sees at the start

  /** No cache-enabled prompt of whole blocks waits. */
  predicate NoneWhole(e: Env, st: Sched)
    requires e.blockSize > 0
  {
    forall s :: s in st.waiting && !s.noCache ==> |s.tokens| % e.blockSize != 0
  }

  /** The cache serves whole blocks, so a prompt that is not of whole blocks is left something to compute. */
  lemma {:induction false} AdmissionsPend(e: Env, cfg: Config, st: Prefill)
    requires EnvOk(e) && e.blockSize > 1 && Good(e, st.pool, st.waiting, st.running)
    requires forall s :: s in st.waiting ==> |s.tokens| % e.blockSize != 0
    ensures PrefillLoop(e, cfg, st).Some? && |st.running| <= |PrefillLoop(e, cfg, st).value.running|
    ensures var r := PrefillLoop(e, cfg, st).value.running; forall i :: |st.running| <= i < |r| ==> r[i].pending
    decreases |st.waiting|
  {
    hide Good, Admit, CanAllocate, Refs, Accounted, Live, Kept, Untouched, NumBlocks;
    if Admissible(e, cfg, st) {
      var t := AdmitGood(e, st);
      assert t.pending;
      AdmissionsPend(e, cfg, Admit(e, st).value);
      PrefillKeepsRunning(e, cfg, Admit(e, st).value);
    }
  }

  /** A prefill pass only adds to those running. */
  lemma PrefillKeepsRunning(e: Env, cfg: Config, st: Prefill)
    requires e.blockSize > 0 && PrefillLoop(e, cfg, st).Some?
    ensures st.running <= PrefillLoop(e, cfg, st).value.running
  {
    hide PrefillLoop;
    var moved := PrefillOrder(e, cfg, st);
  }

  lemma NoneWholeAdmitsNoneCached(e: Env, cfg: Config, g: Engine, cap: Caps)
    requires EnvOk(e) && e.blockSize > 1 && Sane(e, cfg, g, cap) && NoneWhole(e, g.sched)
    ensures !AdmitsCached(e, cfg, g.sched)
  {
    hide PrefillLoop, Good, NoDup, Capped, AdmittedPlain;
    AdmissionsPend(e, cfg, Prefill(g.sched.pool, g.sched.waiting, g.sched.running, [], 0));
  }

  lemma {:induction false} DriveNoneWhole(e: Env, cfg: Config, g: Engine, tok: (nat, nat) -> Token, cap: Caps, n: nat)
    requires EnvOk(e) && e.blockSize > 1 && Sane(e, cfg, g, cap) && Clean(g) && Covers(e, g.sched, cap)
    requires NoneWhole(e, g.sched)
    ensures var r := DriveFor(e, cfg, g, tok, cap, n);
            && r.Ok? && Sane(e, cfg, r.value, cap) && Clean(r.value)
            && (forall s :: s in r.value.sched.waiting ==> s in g.sched.waiting)
    ensures NothingCached(e, cfg, g, tok, cap, n)
    decreases n
  {
    hide Sane, Clean, Covers, AdmitsCached, Preempts, Schedule, Advance, Ids, IdSet, Remaining, EngineStep, Ready;
    if n > 0 {
      DriveNoneWhole(e, cfg, g, tok, cap, n - 1);
      var before := DriveFor(e, cfg, g, tok, cap, n - 1).value;
      NoneWholeAdmitsNoneCached(e, cfg, before, cap);
      if Busy(before.sched) {
        SaneIsReady(e, cfg, g, cap);
        SaneIsReady(e, cfg, before, cap);
        DriveStaysCovered(e, cfg, g, tok, cap, n - 1);
        CoveredTurn(e, cfg, before.sched, TokensAt(tok, n - 1), cap);
        CleanTurn(e, cfg, before, TokensAt(tok, n - 1), cap);
        var moved := SaneTurn(e, cfg, before, TokensAt(tok, n - 1), cap);
      }
    }
  }

  lemma SaneIsReady(e: Env, cfg: Config, g: Engine, cap: Caps)
    requires e.blockSize > 1 && Sane(e, cfg, g, cap)
    ensures Ready(e, cfg, g.sched, cap)
  {
  }

  /** With such a pool the loop completes if, when it starts, no cache-enabled prompt of whole blocks waits. */
  lemma CoveredCompletesUnlessWhole(e: Env, cfg: Config, g: Engine, tok: (nat, nat) -> Token, cap: Caps, n: nat)
    requires EnvOk(e) && e.blockSize > 1 && Sane(e, cfg, g, cap) && Clean(g) && Covers(e, g.sched, cap)
    requires NoneWhole(e, g.sched) && n > Remaining(g.sched, cap)
    ensures DriveFor(e, cfg, g, tok, cap, n).Ok? && !Busy(DriveFor(e, cfg, g, tok, cap, n).value.sched)
  {
    hide Sane, Clean, Covers, NothingCached, DriveFor, Remaining, NoneWhole;
    DriveNoneWhole(e, cfg, g, tok, cap, n);
    CoveredCompletesUnlessCached(e, cfg, g, tok, cap, n);
  }

  // ---------------------------------------------------------------- the loop itself

  lemma {:induction false} DriveStable(e: Env, cfg: Config, g: Engine, tok: (nat, nat) -> Token, cap: Caps, n: nat,
                                       m: nat)
    requires e.blockSize > 0 && n <= m
    requires var r := DriveFor(e, cfg, g, tok, cap, n); r.Err? || !Busy(r.value.sched)
    ensures DriveFor(e, cfg, g, tok, cap, m) == DriveFor(e, cfg, g, tok, cap, n)
    decreases m
  {
    hide EngineStep;
    if n < m {
      DriveStable(e, cfg, g, tok, cap, n, m - 1);
    }
  }

  lemma BusyHasLeft(e: Env, cfg: Config, st: Sched, cap: Caps)
    requires e.blockSize > 1 && Ready(e, cfg, st, cap) && Busy(st)
    ensures Remaining(st, cap) > 0
  {
    hide SchedOk, NumBlocks, NoDup, Total;
    BelowTheirCaps(e, cfg, st, cap);
    var ss := if st.running != [] then st.running else st.waiting;
    var front, s := ss[..|ss| - 1], ss[|ss| - 1];
    assert ss == front + [s];
    RequestsSnoc(front, s);
    TotalSnoc(Requests(front), Who(s), ToGo(cap));
  }

  lemma ReadyTurn(e: Env, cfg: Config, g: Engine, tok: nat -> Token, cap: Caps)
    requires EnvOk(e) && e.blockSize > 1 && Ready(e, cfg, g.sched, cap) && Busy(g.sched)
    ensures var r := EngineStep(e, cfg, g, tok, cap);
            && r != Err(NothingScheduled)
            && (r.Ok? ==> Ready(e, cfg, r.value.sched, cap)
                          && Remaining(r.value.sched, cap) < Remaining(g.sched, cap))
  {
    hide Ready, Schedule, Advance, Remaining, FaultyStep;
    TurnDecreases(e, cfg, g.sched, tok, cap);
  }

  /** A turn the engine refuses: the assertion is reached, a request that was prefilled before is prefilled, or
      one that never was gets its decode turn. */
  predicate Refuses(e: Env, cfg: Config, g: Engine)
    requires e.blockSize > 1
  {
    FaultyStep(e, cfg, g.sched) || (
      var r := Schedule(e, cfg, g.sched);
      r.Some? && if r.value.prefill then !(IdSet(r.value.batch) !! g.done) else !(IdSet(r.value.batch) <= g.embedded))
  }

  /** Up to turn `n`, none is. */
  ghost predicate NothingRefused(e: Env, cfg: Config, g: Engine, tok: (nat, nat) -> Token, cap: Caps, n: nat)
    requires e.blockSize > 1
  {
    forall k :: 0 <= k < n && StillBusy(DriveFor(e, cfg, g, tok, cap, k)) ==>
      !Refuses(e, cfg, DriveFor(e, cfg, g, tok, cap, k).value)
  }

  /** With preemption too: the loop completes if and only if no turn is refused.  It never stalls. */
  lemma {:induction false} CompletesUnlessRefused(e: Env, cfg: Config, g: Engine, tok: (nat, nat) -> Token, cap: Caps,
                                                  n: nat)
    requires EnvOk(e) && e.blockSize > 1 && Ready(e, cfg, g.sched, cap)
    ensures var r := DriveFor(e, cfg, g, tok, cap, n);
            && (r.Ok? <==> NothingRefused(e, cfg, g, tok, cap, n))
            && (r.Ok? ==> Ready(e, cfg, r.value.sched, cap))
            && (r.Ok? && n > Remaining(g.sched, cap) ==> !Busy(r.value.sched))
            && (r.Ok? && Busy(r.value.sched) ==> Remaining(r.value.sched, cap) + n <= Remaining(g.sched, cap))
    decreases n
  {
    hide Ready, Schedule, Advance, Remaining, FaultyStep, IdSet;
    if n > 0 {
      CompletesUnlessRefused(e, cfg, g, tok, cap, n - 1);
      var before := DriveFor(e, cfg, g, tok, cap, n - 1);
      if before.Ok? && Busy(before.value.sched) {
        TurnDecreases(e, cfg, before.value.sched, TokensAt(tok, n - 1), cap);
      }
    }
  }

  /** Drives the engine until nothing is left or a turn raises.  It never stalls, ends after at most as many
      turns as there are tokens to come, and its outcome is the one the loop has for good. */
  method RunAll(e: Env, cfg: Config, start: Engine, tok: (nat, nat) -> Token, cap: Caps)
    returns (r: Result<Engine, Refusal>, steps: nat)
    requires EnvOk(e) && e.blockSize > 1 && Ready(e, cfg, start.sched, cap)
    ensures steps <= Remaining(start.sched, cap)
    ensures forall n :: n >= steps ==> DriveFor(e, cfg, start, tok, cap, n) == r
    ensures r.Ok? ==> !Busy(r.value.sched) && SchedOk(e, r.value.sched)
    ensures r != Err(NothingScheduled)
  {
    hide Ready, EngineStep, Remaining;
    var g := start;
    r, steps := Ok(g), 0;
    while Busy(g.sched)
      invariant Ready(e, cfg, g.sched, cap) && r == Ok(g) == DriveFor(e, cfg, start, tok, cap, steps)
      invariant steps + Remaining(g.sched, cap) <= Remaining(start.sched, cap)
      decreases Remaining(g.sched, cap)
    {
      ReadyTurn(e, cfg, g, TokensAt(tok, steps), cap);
      BusyHasLeft(e, cfg, g.sched, cap);
      r := EngineStep(e, cfg, g, TokensAt(tok, steps), cap);
      steps := steps + 1;
      if r.Err? {
        break;
      }
      g := r.value;
    }
    forall n | n >= steps
      ensures DriveFor(e, cfg, start, tok, cap, n) == r
    {
      DriveStable(e, cfg, start, tok, cap, steps, n);
    }
    ReadyIsOk(e, cfg, g.sched, cap);
  }

  lemma ReadyIsOk(e: Env, cfg: Config, st: Sched, cap: Caps)
    requires e.blockSize > 1 && Ready(e, cfg, st, cap)
    ensures SchedOk(e, st)
  {
  }

  /** The loop may start on a new pool with any queue of distinct prompts that fit at their caps, uncached ones
      not of whole blocks. */
  lemma NewEngineSane(e: Env, cfg: Config, n: nat, waiting: seq<SeqState>, cap: Caps)
    requires EnvOk(e) && e.blockSize > 1 && cfg.maxSeqs >= 1 && IdleAll(waiting) && NoDup(Ids(waiting))
    requires forall s :: s in waiting ==> Plain(e, s) && Capped(e, cfg, n, Who(s), cap)
    ensures var g := Engine(Sched(NewPool(n), waiting, []), {}, {}); Sane(e, cfg, g, cap) && Clean(g)
  {
    hide NumBlocks, NoDup;
    NewWorldOk(e, n);
    RefsNone();
    assert [] + Ids(waiting) == Ids(waiting) && Requests([]) + Requests(waiting) == Requests(waiting);
    forall q | q in Requests(waiting)
      ensures Capped(e, cfg, n, q, cap)
    {
      var i :| 0 <= i < |waiting| && Requests(waiting)[i] == q;
      assert waiting[i] in waiting;
    }
  }
}
