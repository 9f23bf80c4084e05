/** The drive loop once somebody is preempted: a request that was prefilled waits again, and the turn that
    admits it raises.  While nothing is wholly cached at admission, the loop completes if and only if nobody is
    preempted.
 */
module EnginePreempted {
  import opened BlockPool
  import opened Drive
  import opened EngineDrive
  import opened Outcomes
  import opened ScheduleFaults
  import opened ScheduleRuns
  import opened ScheduleSteps
  import opened Scheduling

  /** A call that admits nothing wholly cached batches everybody it admits, or admits nobody and may put some
      of those running, the `preempted`, in front of those waiting. */
  ghost predicate Uncached(e: Env, cfg: Config, st: Sched, moved: seq<SeqState>, preempted: seq<SeqState>)
    requires e.blockSize > 0 && Schedule(e, cfg, st).Some?
  {
    var r := Schedule(e, cfg, st).value;
    && r.batch == Pending(r.sched.running)
    && Requests(r.sched.running) + Requests(r.sched.waiting) == Requests(st.running) + Requests(st.waiting)
    && |moved| <= |st.waiting| && Ids(moved) == Ids(st.waiting[..|moved|])
    && (r.prefill ==> !Preempts(e, cfg, st) && r.sched.running == st.running + moved
                      && r.sched.waiting == st.waiting[|moved|..] && forall s :: s in moved ==> s.pending)
    && (!r.prefill ==> r.sched.waiting == preempted + st.waiting)
    && (!r.prefill ==> (Preempts(e, cfg, st) <==> |r.sched.running| < |st.running|))
  }

  lemma CallUncached(e: Env, cfg: Config, st: Sched) returns (moved: seq<SeqState>, preempted: seq<SeqState>)
    requires EnvOk(e) && e.blockSize > 1 && SchedOk(e, st) && Schedule(e, cfg, st).Some? && !AdmitsCached(e, cfg, st)
    ensures Uncached(e, cfg, st, moved, preempted)
  {
    hide PrefillLoop, DecodeLoop, PrefillOk, SchedOk, Good, FaultyStep, WritesApart, OwnLasts, Refs, Pending;
    var start := Prefill(st.pool, st.waiting, st.running, [], 0);
    ScheduleGood(e, cfg, st);
    StartOk(e, st);
    PrefillStaysOk(e, cfg, Refs(st.running), start);
    moved := PrefillOrder(e, cfg, start);
    var pre := PrefillLoop(e, cfg, start).value;
    PrefilledOk(e, Refs(st.running), pre);
    CachedAmong(st.running, moved, pre.running);
    AdmittedIds(st, moved, pre.running, pre.waiting);
    BatchIsPending(e, st, Schedule(e, cfg, st).value);
    preempted := [];
    if pre.batch == [] {
      PendingNone(pre.running);
      NoneIsPending(st.running, moved, pre.running);
      Inhabited(moved);
      assert pre.running == st.running && pre.waiting == st.waiting;
      preempted := DecodeOrder(e, cfg, Decode(pre.pool, pre.waiting, pre.running, []));
      assert [] + pre.running == pre.running;
    }
  }

  lemma Inhabited(ss: seq<SeqState>)
    ensures ss == [] || exists s :: s in ss
  {
    if ss != [] { assert ss[0] in ss; }
  }

  /** Whoever waits goes on waiting, or is prefilled. */
  lemma WaitersStay(e: Env, cfg: Config, st: Sched, moved: seq<SeqState>, preempted: seq<SeqState>, x: nat)
    requires e.blockSize > 1 && Schedule(e, cfg, st).Some? && Uncached(e, cfg, st, moved, preempted)
    requires x in Ids(st.waiting)
    ensures var r := Schedule(e, cfg, st).value; x in Ids(r.sched.waiting) || (r.prefill && x in IdSet(r.batch))
  {
    hide Schedule, Pending, Preempts, Requests, Ids, IdSet;
    var r := Schedule(e, cfg, st).value;
    if r.prefill {
      var n := |moved|;
      assert st.waiting == st.waiting[..n] + st.waiting[n..];
      IdsSplit(st.waiting[..n], st.waiting[n..]);
      if x in Ids(moved) {
        InIds(moved, x);
        var s :| s in moved && s.id == x;
        PendingHas(r.sched.running, s);
        InIdSet(r.batch, s);
      }
    } else {
      IdsSplit(preempted, st.waiting);
    }
  }

  lemma InIdSet(ss: seq<SeqState>, s: SeqState)
    requires s in ss
    ensures s.id in IdSet(ss)
  {
  }

  /** A preempting call makes somebody wait who was running. */
  lemma Victim(e: Env, cfg: Config, st: Sched, moved: seq<SeqState>, preempted: seq<SeqState>) returns (x: nat)
    requires e.blockSize > 1 && Schedule(e, cfg, st).Some? && Uncached(e, cfg, st, moved, preempted)
    requires Preempts(e, cfg, st)
    ensures var r := Schedule(e, cfg, st).value; !r.prefill && x in Ids(st.running) && x in Ids(r.sched.waiting)
  {
    hide Schedule, Pending, Preempts, Requests;
    var r := Schedule(e, cfg, st).value;
    SameIds(r.sched.running, r.sched.waiting, st.running, st.waiting);
    var n := |r.sched.running|;
    var before, after := Ids(st.running) + Ids(st.waiting), Ids(r.sched.running) + Ids(r.sched.waiting);
    assert |r.sched.running| + |r.sched.waiting| == |after| == |before|;
    x := st.running[n].id;
    assert before[n] == Ids(st.running)[n] == x && after[n] == Ids(r.sched.waiting)[0];
  }

  lemma {:induction false} StaysWaiting(st: Sched, ids: seq<nat>, x: nat)
    requires x in Ids(st.waiting) && x !in ids
    ensures x in Ids(LeaveAll(st, ids).waiting)
    decreases |ids|
  {
    hide Ids, DropAll;
    if ids != [] {
      WithoutIds(st.waiting, ids[0]);
      OthersStay(Ids(st.waiting), ids[0], x);
      StaysWaiting(Leave(st, ids[0]), ids[1..], x);
    }
  }

  /** Appending tokens and finishing requests of the batch makes nobody stop waiting. */
  lemma StillWaits(st: Sched, r: Scheduled, tok: nat -> Token, cap: Caps, x: nat)
    requires NoDup(Order(st)) && Order(r.sched) == Order(st) && r.batch == Pending(r.sched.running)
    requires x in Ids(r.sched.waiting)
    ensures x in Ids(Advance(r, tok, cap).waiting)
  {
    hide Ids, Pending, Full, IdSet;
    var full := Full(r.batch, cap);
    NoDupParts(Ids(r.sched.running), Ids(r.sched.waiting));
    if x in full {
      FullIsBatched(r.batch, cap, x);
      BatchRuns(r, x);
    }
    StaysWaiting(r.sched.(running := AllWithToken(r.sched.running, tok)), full, x);
  }

  // ---------------------------------------------------------------- turns

  /** A request that was prefilled waits again. */
  ghost predicate Doomed(g: Engine) {
    exists x :: x in Ids(g.sched.waiting) && x in g.done
  }

  /** Once so, every turn raises or leaves it so. */
  lemma DoomedTurn(e: Env, cfg: Config, g: Engine, tok: nat -> Token, cap: Caps)
    requires EnvOk(e) && e.blockSize > 1 && Ready(e, cfg, g.sched, cap) && !AdmitsCached(e, cfg, g.sched)
    requires Doomed(g)
    ensures EngineStep(e, cfg, g, tok, cap).Ok? ==> Doomed(EngineStep(e, cfg, g, tok, cap).value)
  {
    hide Schedule, SchedOk, AdmitsCached, Advance, Ids, IdSet, Capped, NoDup;
    if EngineStep(e, cfg, g, tok, cap).Ok? {
      var x :| x in Ids(g.sched.waiting) && x in g.done;
      var moved, preempted := CallUncached(e, cfg, g.sched);
      var r := Schedule(e, cfg, g.sched).value;
      WaitersStay(e, cfg, g.sched, moved, preempted, x);
      SameIds(r.sched.running, r.sched.waiting, g.sched.running, g.sched.waiting);
      StillWaits(g.sched, r, tok, cap, x);
    }
  }

  /** A turn that preempts somebody raises or leaves it so. */
  lemma PreemptingTurn(e: Env, cfg: Config, g: Engine, tok: nat -> Token, cap: Caps)
    requires EnvOk(e) && e.blockSize > 1 && Ready(e, cfg, g.sched, cap) && !AdmitsCached(e, cfg, g.sched)
    requires Clean(g) && g.embedded <= g.done && Preempts(e, cfg, g.sched)
    ensures EngineStep(e, cfg, g, tok, cap).Ok? ==> Doomed(EngineStep(e, cfg, g, tok, cap).value)
  {
    hide Schedule, SchedOk, AdmitsCached, Preempts, Advance, Ids, IdSet, Capped, NoDup;
    if EngineStep(e, cfg, g, tok, cap).Ok? {
      var moved, preempted := CallUncached(e, cfg, g.sched);
      var r := Schedule(e, cfg, g.sched).value;
      var x := Victim(e, cfg, g.sched, moved, preempted);
      SameIds(r.sched.running, r.sched.waiting, g.sched.running, g.sched.waiting);
      StillWaits(g.sched, r, tok, cap, x);
    }
  }

  lemma IdleIsNotPreempted(e: Env, cfg: Config, st: Sched)
    requires e.blockSize > 0 && !Busy(st)
    ensures !Preempts(e, cfg, st)
  {
    var start := Prefill(st.pool, st.waiting, st.running, [], 0);
    assert PrefillLoop(e, cfg, start) == Some(start);
  }

  // ---------------------------------------------------------------- the whole loop

  /** The loop stands well if and only if nobody was preempted; otherwise it raised, or will. */
  lemma {:induction false} DrivePreempted(e: Env, cfg: Config, g: Engine, tok: (nat, nat) -> Token, cap: Caps, n: nat)
    requires EnvOk(e) && e.blockSize > 1 && Sane(e, cfg, g, cap) && Clean(g) && g.embedded <= g.done
    requires NothingCached(e, cfg, g, tok, cap, n)
    ensures var r := DriveFor(e, cfg, g, tok, cap, n);
            if NoPreemption(e, cfg, g, tok, cap, n)
            then r.Ok? && Sane(e, cfg, r.value, cap) && Clean(r.value) && r.value.embedded <= r.value.done
            else r.Err? || (Ready(e, cfg, r.value.sched, cap) && Busy(r.value.sched) && Doomed(r.value))
    decreases n
  {
    hide Ready, Clean, AdmitsCached, Preempts, AdmittedPlain, Plain, Unborn, Schedule, Advance, Ids, IdSet, Remaining;
    if n > 0 {
      DrivePreempted(e, cfg, g, tok, cap, n - 1);
      var before := DriveFor(e, cfg, g, tok, cap, n - 1);
      if before.Ok? {
        LastTurn(e, cfg, before.value, TokensAt(tok, n - 1), cap);
      }
    }
  }

  /** One turn of either kind. */
  lemma LastTurn(e: Env, cfg: Config, g: Engine, tok: nat -> Token, cap: Caps)
    requires EnvOk(e) && e.blockSize > 1 && (Busy(g.sched) ==> !AdmitsCached(e, cfg, g.sched))
    ensures !Busy(g.sched) ==> !Preempts(e, cfg, g.sched)
    ensures Busy(g.sched) && Sane(e, cfg, g, cap) && Clean(g) && g.embedded <= g.done ==>
              var r := EngineStep(e, cfg, g, tok, cap);
              if Preempts(e, cfg, g.sched)
              then r.Err? || (Ready(e, cfg, r.value.sched, cap) && Busy(r.value.sched) && Doomed(r.value))
              else r.Ok? && Sane(e, cfg, r.value, cap) && Clean(r.value) && r.value.embedded <= r.value.done
    ensures Busy(g.sched) && Ready(e, cfg, g.sched, cap) && Doomed(g) ==>
              var r := EngineStep(e, cfg, g, tok, cap);
              r.Err? || (Ready(e, cfg, r.value.sched, cap) && Busy(r.value.sched) && Doomed(r.value))
  {
    hide Ready, Clean, AdmitsCached, Preempts, AdmittedPlain, Plain, Unborn, Schedule, Advance, IdSet, Remaining;
    if !Busy(g.sched) {
      IdleIsNotPreempted(e, cfg, g.sched);
    } else if Ready(e, cfg, g.sched, cap) {
      ReadyTurn(e, cfg, g, tok, cap);
      if Doomed(g) {
        DoomedTurn(e, cfg, g, tok, cap);
      }
      if Sane(e, cfg, g, cap) && Clean(g) && g.embedded <= g.done {
        if Preempts(e, cfg, g.sched) {
          PreemptingTurn(e, cfg, g, tok, cap);
        } else {
          CleanTurn(e, cfg, g, tok, cap);
          var moved := SaneTurn(e, cfg, g, tok, cap);
        }
      }
    }
  }

  /** While nothing is wholly cached when it is admitted, the loop completes if and only if nobody is
      preempted. */
  lemma CompletesUnlessPreempted(e: Env, cfg: Config, g: Engine, tok: (nat, nat) -> Token, cap: Caps, n: nat)
    requires EnvOk(e) && e.blockSize > 1 && Sane(e, cfg, g, cap) && Clean(g) && g.embedded <= g.done
    requires NothingCached(e, cfg, g, tok, cap, n) && n > Remaining(g.sched, cap)
    ensures var r := DriveFor(e, cfg, g, tok, cap, n);
            && (r.Ok? <==> NoPreemption(e, cfg, g, tok, cap, n))
            && (r.Ok? ==> !Busy(r.value.sched))
  {
    hide Ready, Clean, NothingCached, NoPreemption, NothingRefused, DriveFor, Remaining, Doomed;
    DrivePreempted(e, cfg, g, tok, cap, n);
    CompletesUnlessRefused(e, cfg, g, tok, cap, n);
  }
}
