/** Whole runs of the scheduler: requests arrive, are cancelled, and are driven by steps in which every
    batched sequence gets one token and some of them finish.
 */
module ScheduleSteps {
  import opened BlockAccounting
  import opened BlockPool
  import opened Outcomes
  import opened ScheduleRuns
  import opened Scheduling

  // ---------------------------------------------------------------- appending tokens

  function WithToken(s: SeqState, tok: nat -> Token): SeqState {
    if s.pending then s.(tokens := s.tokens + [tok(s.id)], pending := false) else s
  }

  /** Every batched sequence gets its token. */
  function AllWithToken(ss: seq<SeqState>, tok: nat -> Token): (r: seq<SeqState>)
    ensures |r| == |ss| && forall i :: 0 <= i < |ss| ==> r[i] == WithToken(ss[i], tok)
  {
    seq(|ss|, i requires 0 <= i < |ss| => WithToken(ss[i], tok))
  }

  lemma {:induction false} TokensKeepTables(ss: seq<SeqState>, tok: nat -> Token)
    ensures Refs(AllWithToken(ss, tok)) == Refs(ss) && Ids(AllWithToken(ss, tok)) == Ids(ss)
    decreases |ss|
  {
    hide Refs;
    if ss == [] {
      assert AllWithToken(ss, tok) == ss;
    } else {
      var front, last := ss[..|ss| - 1], ss[|ss| - 1];
      assert ss == front + [last];
      TokensKeepTables(front, tok);
      assert AllWithToken(ss, tok) == AllWithToken(front, tok) + [WithToken(last, tok)];
      RefsSnoc(AllWithToken(front, tok), WithToken(last, tok));
      RefsSnoc(front, last);
    }
  }

  /** A token appended is the token the sequence was made ready for. */
  lemma TokensGood(e: Env, p: Pool, waiting: seq<SeqState>, running: seq<SeqState>, tok: nat -> Token)
    requires e.blockSize > 1 && Good(e, p, waiting, running)
    ensures SchedOk(e, Sched(p, waiting, AllWithToken(running, tok)))
  {
    hide Accounted, Refs;
    TokensKeepTables(running, tok);
    var r := AllWithToken(running, tok);
    forall i | 0 <= i < |r|
      ensures Live(e, p, r[i], Due(r[i])) && !r[i].pending
    {
      assert Live(e, p, running[i], Due(running[i]));
    }
  }

  // ---------------------------------------------------------------- a request leaves

  function Without(ss: seq<SeqState>, id: nat): seq<SeqState> {
    if ss == [] then [] else if ss[0].id == id then ss[1..] else [ss[0]] + Without(ss[1..], id)
  }

  function Find(ss: seq<SeqState>, id: nat): Option<SeqState> {
    if ss == [] then None else if ss[0].id == id then Some(ss[0]) else Find(ss[1..], id)
  }

  /** Cancelling or finishing: the request's blocks go back and it leaves its queue. */
  function Leave(st: Sched, id: nat): Sched {
    var found := Find(st.running, id);
    if found.Some? then Sched(DropAll(st.pool, found.value.table), st.waiting, Without(st.running, id))
    else Sched(st.pool, Without(st.waiting, id), st.running)
  }

  lemma {:induction false} WithoutRefs(ss: seq<SeqState>, id: nat)
    requires Find(ss, id).Some?
    ensures Refs(ss) == Refs(Without(ss, id)) + multiset(Find(ss, id).value.table)
    decreases |ss|
  {
    hide Refs;
    var s, rest := ss[0], ss[1..];
    assert ss == [s] + rest;
    RefsCons(s, rest);
    if s.id != id {
      WithoutRefs(rest, id);
      RefsCons(s, Without(rest, id));
    }
  }

  lemma {:induction false} WithoutIn(ss: seq<SeqState>, id: nat)
    ensures forall s :: s in Without(ss, id) ==> s in ss
    decreases |ss|
  {
    if ss != [] && ss[0].id != id { WithoutIn(ss[1..], id); }
  }

  lemma {:induction false} WithoutIds(ss: seq<SeqState>, id: nat)
    ensures Ids(Without(ss, id)) == RemoveFirst(Ids(ss), id) && (Find(ss, id).Some? <==> id in Ids(ss))
    decreases |ss|
  {
    if ss != [] {
      var rest := ss[1..];
      WithoutIds(rest, id);
      assert Ids(ss)[1..] == Ids(rest);
      assert Ids(ss) == [ss[0].id] + Ids(rest);
      if ss[0].id != id {
        assert Ids([ss[0]] + Without(rest, id)) == [ss[0].id] + Ids(Without(rest, id));
      }
    }
  }

  lemma {:induction false} RemoveFirstOfSum(a: seq<nat>, b: seq<nat>, x: nat)
    ensures RemoveFirst(a + b, x) == if x in a then RemoveFirst(a, x) + b else a + RemoveFirst(b, x)
    decreases |a|
  {
    if a == [] {
      assert a + b == b;
    } else {
      assert (a + b)[1..] == a[1..] + b && (a + b)[0] == a[0];
      if a[0] != x {
        var rest := a[1..];
        RemoveFirstOfSum(rest, b, x);
        assert a == [a[0]] + rest;
        if x in rest {
          assert [a[0]] + (RemoveFirst(rest, x) + b) == [a[0]] + RemoveFirst(rest, x) + b;
        } else {
          assert [a[0]] + (rest + RemoveFirst(b, x)) == [a[0]] + rest + RemoveFirst(b, x);
        }
      }
    }
  }

  /** Whoever leaves, the others keep their blocks, their state and their order. */
  lemma LeaveOk(e: Env, st: Sched, id: nat)
    requires e.blockSize > 1 && SchedOk(e, st)
    ensures SchedOk(e, Leave(st, id)) && Order(Leave(st, id)) == RemoveFirst(Order(st), id)
    ensures forall s :: s in Leave(st, id).running ==> s in st.running
    ensures forall s :: s in Leave(st, id).waiting ==> s in st.waiting
  {
    hide Accounted, Refs, Live, DropAll, Kept, Untouched, Idle;
    WithoutIn(st.running, id);
    WithoutIn(st.waiting, id);
    WithoutIds(st.running, id);
    WithoutIds(st.waiting, id);
    RemoveFirstOfSum(Ids(st.running), Ids(st.waiting), id);
    var found, left := Find(st.running, id), Without(st.running, id);
    if found.Some? {
      WithoutRefs(st.running, id);
      DropAllAccounted(st.pool, Refs(left), found.value.table);
      LiveSub(e, st.pool, left, st.running);
      LiveStays(e, st.pool, DropAll(st.pool, found.value.table), Refs(left), left);
      assert forall i :: 0 <= i < |left| ==> left[i] in st.running;
    } else {
      IdleSub(Without(st.waiting, id), st.waiting);
    }
  }

  lemma LiveSub(e: Env, p: Pool, a: seq<SeqState>, b: seq<SeqState>)
    requires e.blockSize > 1 && LiveAll(e, p, b) && forall s :: s in a ==> s in b
    ensures LiveAll(e, p, a)
  {
    hide Live;
    forall i | 0 <= i < |a| ensures Live(e, p, a[i], Due(a[i])) {
      assert a[i] in b;
    }
  }

  lemma IdleSub(a: seq<SeqState>, b: seq<SeqState>)
    requires IdleAll(b) && forall s :: s in a ==> s in b
    ensures IdleAll(a)
  {
    forall i | 0 <= i < |a| ensures Idle(a[i]) {
      assert a[i] in b;
    }
  }

  /** Running requests first, then waiting ones. */
  function Order(st: Sched): seq<nat> {
    Ids(st.running) + Ids(st.waiting)
  }

  /** Several requests leave. */
  function LeaveAll(st: Sched, ids: seq<nat>): Sched
    decreases |ids|
  {
    if ids == [] then st else LeaveAll(Leave(st, ids[0]), ids[1..])
  }

  function RemoveAll(order: seq<nat>, ids: seq<nat>): seq<nat>
    decreases |ids|
  {
    if ids == [] then order else RemoveAll(RemoveFirst(order, ids[0]), ids[1..])
  }

  lemma {:induction false} LeaveAllOk(e: Env, st: Sched, ids: seq<nat>)
    requires e.blockSize > 1 && SchedOk(e, st)
    ensures SchedOk(e, LeaveAll(st, ids)) && Order(LeaveAll(st, ids)) == RemoveAll(Order(st), ids)
    ensures forall s :: s in LeaveAll(st, ids).running ==> s in st.running
    ensures forall s :: s in LeaveAll(st, ids).waiting ==> s in st.waiting
    decreases |ids|
  {
    hide SchedOk, Leave, Order;
    if ids != [] {
      LeaveOk(e, st, ids[0]);
      LeaveAllOk(e, Leave(st, ids[0]), ids[1..]);
    }
  }

  // ---------------------------------------------------------------- runs

  /** What happens to the scheduler: a request arrives, is cancelled, or one step is driven, appending
      `tok` to every batched sequence and finishing those of the batch that stop. */
  datatype Event =
    | Arrive(id: nat, prompt: seq<Token>, noCache: bool)
    | Cancel(who: nat)
    | Step(tok: nat -> Token, stops: nat -> bool)

  /** The scheduler, every request that ever arrived, and those gone. */
  datatype World = World(sched: Sched, arrived: seq<nat>, gone: set<nat>)

  function Stopping(batch: seq<SeqState>, stops: nat -> bool): (r: seq<nat>) {
    if batch == [] then []
    else if stops(batch[0].id) then [batch[0].id] + Stopping(batch[1..], stops)
    else Stopping(batch[1..], stops)
  }

  lemma {:induction false} StoppingAre(batch: seq<SeqState>, stops: nat -> bool, x: nat)
    ensures x in Stopping(batch, stops) <==> stops(x) && exists s :: s in batch && s.id == x
    decreases |batch|
  {
    if batch != [] {
      StoppingAre(batch[1..], stops, x);
      if s :| s in batch && s.id == x { assert s == batch[0] || s in batch[1..]; }
    }
  }

  function SetOf(s: seq<nat>): set<nat> {
    set x | x in s
  }

  /** A request as it joins the queue. */
  function Arrived(id: nat, prompt: seq<Token>, noCache: bool): SeqState {
    SeqState(id, prompt, noCache, [], 0, 0, false)
  }

  function Happen(e: Env, cfg: Config, w: World, ev: Event): Option<World>
    requires e.blockSize > 0
  {
    match ev
    case Arrive(id, prompt, noCache) =>
      Some(World(w.sched.(waiting := w.sched.waiting + [Arrived(id, prompt, noCache)]), w.arrived + [id], w.gone))
    case Cancel(id) =>
      Some(w.(sched := Leave(w.sched, id), gone := w.gone + (if id in Order(w.sched) then {id} else {})))
    case Step(tok, stops) =>
      var r := Schedule(e, cfg, w.sched);
      if r.None? then None
      else
        var s := r.value.sched.(running := AllWithToken(r.value.sched.running, tok));
        var ids := Stopping(r.value.batch, stops);
        Some(w.(sched := LeaveAll(s, ids), gone := w.gone + SetOf(ids)))
  }

  function Run(e: Env, cfg: Config, w: World, evs: seq<Event>): Option<World>
    requires e.blockSize > 0
    decreases |evs|
  {
    if evs == [] then Some(w)
    else
      var next := Happen(e, cfg, w, evs[0]);
      if next.None? then None else Run(e, cfg, next.value, evs[1..])
  }

  /** Requests bring a prompt and a new id. */
  predicate Proper(arrived: seq<nat>, evs: seq<Event>)
    decreases |evs|
  {
    evs == [] || (
      var ev := evs[0];
      && (ev.Arrive? ==> ev.prompt != [] && ev.id !in arrived)
      && Proper(if ev.Arrive? then arrived + [ev.id] else arrived, evs[1..]))
  }

  /** Those of `arrived` that are not gone, in order. */
  function Keep(arrived: seq<nat>, gone: set<nat>): seq<nat> {
    if arrived == [] then []
    else if arrived[0] in gone then Keep(arrived[1..], gone) else [arrived[0]] + Keep(arrived[1..], gone)
  }

  lemma {:induction false} KeepOut(arrived: seq<nat>, gone: set<nat>, id: nat)
    requires id !in arrived
    ensures Keep(arrived, gone + {id}) == Keep(arrived, gone) && id !in Keep(arrived, gone)
    decreases |arrived|
  {
    if arrived != [] { KeepOut(arrived[1..], gone, id); }
  }

  lemma {:induction false} KeepWithout(arrived: seq<nat>, gone: set<nat>, id: nat)
    requires NoDup(arrived)
    ensures Keep(arrived, gone + {id}) == RemoveFirst(Keep(arrived, gone), id)
    decreases |arrived|
  {
    if arrived != [] {
      var rest := arrived[1..];
      if arrived[0] == id {
        assert id !in rest;
        KeepOut(rest, gone, id);
        if id in gone { NothingToRemove(Keep(rest, gone), id); }
      } else {
        KeepWithout(rest, gone, id);
      }
    }
  }

  lemma {:induction false} NothingToRemove(s: seq<nat>, id: nat)
    requires id !in s
    ensures RemoveFirst(s, id) == s
    decreases |s|
  {
    if s != [] { NothingToRemove(s[1..], id); }
  }

  lemma {:induction false} KeepSnoc(arrived: seq<nat>, gone: set<nat>, id: nat)
    requires id !in gone
    ensures Keep(arrived + [id], gone) == Keep(arrived, gone) + [id]
    decreases |arrived|
  {
    if arrived == [] {
      assert [id][1..] == [];
    } else {
      assert (arrived + [id])[1..] == arrived[1..] + [id];
      KeepSnoc(arrived[1..], gone, id);
    }
  }

  lemma {:induction false} KeepWithoutAll(arrived: seq<nat>, gone: set<nat>, ids: seq<nat>)
    requires NoDup(arrived)
    ensures Keep(arrived, gone + SetOf(ids)) == RemoveAll(Keep(arrived, gone), ids)
    decreases |ids|
  {
    if ids == [] {
      assert gone + SetOf(ids) == gone;
    } else {
      KeepWithout(arrived, gone, ids[0]);
      KeepWithoutAll(arrived, gone + {ids[0]}, ids[1..]);
      assert gone + {ids[0]} + SetOf(ids[1..]) == gone + SetOf(ids);
    }
  }

  /** What holds between events: everything good, and the requests in the order they arrived. */
  ghost predicate WorldOk(e: Env, w: World)
    requires e.blockSize > 1
  {
    && SchedOk(e, w.sched)
    && NoDup(w.arrived) && (forall x :: x in w.gone ==> x in w.arrived)
    && Order(w.sched) == Keep(w.arrived, w.gone)
  }

  predicate CacheEnabled(st: Sched) {
    (forall s :: s in st.running ==> !s.noCache) && (forall s :: s in st.waiting ==> !s.noCache)
  }

  /** The requests are the same, so they are as cache-enabled as they were. */
  lemma ScheduleKeepsCache(a: Sched, b: Sched)
    requires CacheEnabled(a) && Requests(b.running) + Requests(b.waiting) == Requests(a.running) + Requests(a.waiting)
    ensures CacheEnabled(b)
  {
    var x, y := Requests(a.running) + Requests(a.waiting), Requests(b.running) + Requests(b.waiting);
    forall i | 0 <= i < |x|
      ensures !x[i].noCache
    {
      if i < |a.running| { assert a.running[i] in a.running; } else { assert a.waiting[i - |a.running|] in a.waiting; }
    }
    forall s | s in b.running ensures !s.noCache {
      var i :| 0 <= i < |b.running| && b.running[i] == s;
      assert y[i] == Who(s);
    }
    forall s | s in b.waiting ensures !s.noCache {
      var i :| 0 <= i < |b.waiting| && b.waiting[i] == s;
      assert y[|b.running| + i] == Who(s);
    }
  }

  // ---------------------------------------------------------------- every event keeps it

  lemma {:induction false} KeepIn(arrived: seq<nat>, gone: set<nat>, x: nat)
    requires x in Keep(arrived, gone)
    ensures x in arrived
    decreases |arrived|
  {
    if arrived[0] in gone || x != arrived[0] { KeepIn(arrived[1..], gone, x); }
  }

  lemma NoDupSnoc(s: seq<nat>, x: nat)
    requires NoDup(s) && x !in s
    ensures NoDup(s + [x])
  {
  }

  lemma ArriveOk(e: Env, w: World, s: SeqState)
    requires e.blockSize > 1 && WorldOk(e, w) && Idle(s) && s.id !in w.arrived
    ensures WorldOk(e, World(w.sched.(waiting := w.sched.waiting + [s]), w.arrived + [s.id], w.gone))
  {
    hide Accounted, LiveAll, Refs, Ids, NoDup;
    var id := s.id;
    NoDupSnoc(w.arrived, id);
    KeepSnoc(w.arrived, w.gone, id);
    IdsSplit(w.sched.waiting, [s]);
    IdsOne(s);
    assert Ids(w.sched.running) + (Ids(w.sched.waiting) + [id]) == Ids(w.sched.running) + Ids(w.sched.waiting) + [id];
  }

  lemma IdsOne(s: SeqState)
    ensures Ids([s]) == [s.id]
  {
  }

  lemma CancelOk(e: Env, w: World, id: nat)
    requires e.blockSize > 1 && WorldOk(e, w)
    ensures WorldOk(e, w.(sched := Leave(w.sched, id), gone := w.gone + (if id in Order(w.sched) then {id} else {})))
  {
    hide SchedOk, Order, Leave, NoDup, Keep;
    LeaveOk(e, w.sched, id);
    if id in Order(w.sched) {
      KeepIn(w.arrived, w.gone, id);
      KeepWithout(w.arrived, w.gone, id);
    } else {
      NothingToRemove(Order(w.sched), id);
      assert w.gone + {} == w.gone;
    }
  }

  /** One engine step: it fails exactly if the turn comes to a sequence `may_append` asserts against, and
      otherwise keeps everything. */
  lemma StepOk(e: Env, cfg: Config, w: World, tok: nat -> Token, stops: nat -> bool)
    requires EnvOk(e) && e.blockSize > 1 && WorldOk(e, w)
    ensures Happen(e, cfg, w, Step(tok, stops)).None? <==> FaultyStep(e, cfg, w.sched)
    ensures Happen(e, cfg, w, Step(tok, stops)).Some? ==> WorldOk(e, Happen(e, cfg, w, Step(tok, stops)).value)
  {
    hide SchedOk, Schedule, LeaveAll, NoDup, Keep, Good, Accounted, Refs, OwnLasts, WritesApart, FaultyStep,
      Stopping, SetOf;
    ScheduleGood(e, cfg, w.sched);
    if Schedule(e, cfg, w.sched).Some? {
      var moved := ScheduleIsFcfs(e, cfg, w.sched);
      var r := Schedule(e, cfg, w.sched).value;
      SameIds(r.sched.running, r.sched.waiting, w.sched.running, w.sched.waiting);
      TokensGood(e, r.sched.pool, r.sched.waiting, r.sched.running, tok);
      TokensKeepTables(r.sched.running, tok);
      var s := r.sched.(running := AllWithToken(r.sched.running, tok));
      var ids := Stopping(r.batch, stops);
      LeaveAllOk(e, s, ids);
      KeepWithoutAll(w.arrived, w.gone, ids);
      GoneArrived(w, r, stops);
    }
  }

  lemma {:induction false} RunnerStays(st: Sched, ids: seq<nat>, s: SeqState)
    requires s in st.running && s.id !in ids
    ensures s in LeaveAll(st, ids).running
    decreases |ids|
  {
    if ids != [] {
      WithoutOther(st.running, ids[0], s);
      RunnerStays(Leave(st, ids[0]), ids[1..], s);
    }
  }

  lemma {:induction false} WithoutOther(ss: seq<SeqState>, id: nat, s: SeqState)
    requires s in ss && s.id != id
    ensures s in Without(ss, id)
    decreases |ss|
  {
    if ss[0].id != id && ss[0] != s { WithoutOther(ss[1..], id, s); }
  }

  /** Who a step serves: those of the batch that stop are gone, and nobody else; whoever stays has one token more
      if it was in the batch, and is as it was if not. */
  lemma StepServes(e: Env, cfg: Config, w: World, tok: nat -> Token, stops: nat -> bool)
    requires EnvOk(e) && e.blockSize > 1 && WorldOk(e, w) && Happen(e, cfg, w, Step(tok, stops)).Some?
    ensures var r, next := Schedule(e, cfg, w.sched), Happen(e, cfg, w, Step(tok, stops)).value;
            && r.Some?
            && (forall x :: x in next.gone <==>
                  x in w.gone || (stops(x) && exists s :: s in r.value.batch && s.id == x))
            && (forall i :: 0 <= i < |r.value.sched.running| ==>
                  var s := r.value.sched.running[i];
                  (s in r.value.batch && stops(s.id)) || Served(s, r.value.batch, tok) in next.sched.running)
  {
    hide SchedOk, Schedule, LeaveAll, NoDup, Keep, Good, Accounted, Refs, OwnLasts, WritesApart, FaultyStep, Stopping;
    ScheduleGood(e, cfg, w.sched);
    var r := Schedule(e, cfg, w.sched).value;
    var ids := Stopping(r.batch, stops);
    forall x ensures x in SetOf(ids) <==> stops(x) && exists s :: s in r.batch && s.id == x {
      StoppingAre(r.batch, stops, x);
    }
    var s' := r.sched.(running := AllWithToken(r.sched.running, tok));
    var moved := ScheduleIsFcfs(e, cfg, w.sched);
    SameIds(r.sched.running, r.sched.waiting, w.sched.running, w.sched.waiting);
    forall i | 0 <= i < |r.sched.running| && !(r.sched.running[i] in r.batch && stops(r.sched.running[i].id))
      ensures Served(r.sched.running[i], r.batch, tok) in LeaveAll(s', ids).running
    {
      var s := r.sched.running[i];
      ServedIsWithToken(r.sched.running, i, tok);
      assert s'.running[i] == WithToken(s, tok);
      KeepNoDup(w.arrived, w.gone);
      NobodyTwice(r, i);
      StoppingAre(r.batch, stops, s.id);
      RunnerStays(s', ids, WithToken(s, tok));
    }
  }

  function Served(s: SeqState, batch: seq<SeqState>, tok: nat -> Token): SeqState {
    if s in batch then s.(tokens := s.tokens + [tok(s.id)], pending := false) else s
  }

  lemma ServedIsWithToken(running: seq<SeqState>, i: nat, tok: nat -> Token)
    requires i < |running|
    ensures Served(running[i], Pending(running), tok) == WithToken(running[i], tok)
  {
    PendingIn(running, running[i]);
  }

  lemma {:induction false} PendingIn(ss: seq<SeqState>, s: SeqState)
    ensures s in Pending(ss) <==> s in ss && s.pending
    decreases |ss|
  {
    if ss != [] { PendingIn(ss[..|ss| - 1], s); }
  }

  lemma NobodyTwice(r: Scheduled, i: nat)
    requires i < |r.sched.running| && r.batch == Pending(r.sched.running) && NoDup(Order(r.sched))
    ensures forall s :: s in r.batch && s.id == r.sched.running[i].id ==> s == r.sched.running[i]
  {
    forall s | s in r.batch && s.id == r.sched.running[i].id ensures s == r.sched.running[i] {
      PendingIn(r.sched.running, s);
      var j :| 0 <= j < |r.sched.running| && r.sched.running[j] == s;
      assert Order(r.sched)[i] == r.sched.running[i].id && Order(r.sched)[j] == s.id;
    }
  }

  lemma {:induction false} KeepNoDup(arrived: seq<nat>, gone: set<nat>)
    requires NoDup(arrived)
    ensures NoDup(Keep(arrived, gone))
    decreases |arrived|
  {
    if arrived != [] {
      KeepNoDup(arrived[1..], gone);
      if arrived[0] !in gone {
        assert arrived[0] !in arrived[1..];
        if arrived[0] in Keep(arrived[1..], gone) { KeepIn(arrived[1..], gone, arrived[0]); }
      }
    }
  }

  lemma CacheStays(a: Sched, b: Sched, c: Sched, tok: nat -> Token)
    requires CacheEnabled(a) && b == a.(running := AllWithToken(a.running, tok))
    requires (forall s :: s in c.running ==> s in b.running) && (forall s :: s in c.waiting ==> s in b.waiting)
    ensures CacheEnabled(c)
  {
    forall s | s in b.running ensures !s.noCache {
      var i :| 0 <= i < |b.running| && b.running[i] == s;
      assert a.running[i] in a.running;
    }
  }

  lemma GoneArrived(w: World, r: Scheduled, stops: nat -> bool)
    requires Order(r.sched) == Keep(w.arrived, w.gone) && r.batch == Pending(r.sched.running)
    ensures forall x :: x in SetOf(Stopping(r.batch, stops)) ==> x in w.arrived
  {
    forall x | x in SetOf(Stopping(r.batch, stops)) ensures x in w.arrived {
      StoppingAre(r.batch, stops, x);
      var s :| s in r.batch && s.id == x;
      var i :| 0 <= i < |r.sched.running| && r.sched.running[i] == s;
      assert Ids(r.sched.running)[i] == x;
      assert Order(r.sched)[i] == x;
      KeepIn(w.arrived, w.gone, x);
    }
  }

  lemma OneEvent(e: Env, cfg: Config, w: World, evs: seq<Event>)
    requires EnvOk(e) && e.blockSize > 1 && WorldOk(e, w) && evs != [] && Proper(w.arrived, evs)
    ensures Happen(e, cfg, w, evs[0]).None? <==> evs[0].Step? && FaultyStep(e, cfg, w.sched)
    ensures Happen(e, cfg, w, evs[0]).Some? ==>
              var next := Happen(e, cfg, w, evs[0]).value; WorldOk(e, next) && Proper(next.arrived, evs[1..])
  {
    hide WorldOk, Schedule, LeaveAll, Leave, Order, AllWithToken, Stopping, SetOf, FaultyStep;
    match evs[0] {
      case Arrive(id, prompt, noCache) => ArriveOk(e, w, Arrived(id, prompt, noCache));
      case Cancel(id) => CancelOk(e, w, id);
      case Step(tok, stops) => StepOk(e, cfg, w, tok, stops);
    }
  }

  /** The run goes well up to event `k`, a step, in which the turn comes to a sequence `may_append` asserts
      against. */
  predicate FailsAt(e: Env, cfg: Config, w: World, evs: seq<Event>, k: nat)
    requires e.blockSize > 1
  {
    && k < |evs| && evs[k].Step? && Run(e, cfg, w, evs[..k]).Some?
    && FaultyStep(e, cfg, Run(e, cfg, w, evs[..k]).value.sched)
  }

  /** Every run of cached and uncached requests: it fails exactly where the turn comes to a sequence that
      `may_append` asserts against; until then the blocks stay accounted for by the running tables, and the
      requests are served in arrival order, those gone left out. */
  lemma {:induction false} RunKeeps(e: Env, cfg: Config, w: World, evs: seq<Event>)
    requires EnvOk(e) && e.blockSize > 1 && WorldOk(e, w) && Proper(w.arrived, evs)
    ensures Run(e, cfg, w, evs).Some? ==> WorldOk(e, Run(e, cfg, w, evs).value)
    ensures Run(e, cfg, w, evs).None? <==> exists k: nat :: FailsAt(e, cfg, w, evs, k)
    decreases |evs|
  {
    hide WorldOk, Happen, FaultyStep;
    if evs == [] {
      assert forall k: nat :: !FailsAt(e, cfg, w, evs, k);
    } else {
      OneEvent(e, cfg, w, evs);
      FailsFirst(e, cfg, w, evs);
      var next := Happen(e, cfg, w, evs[0]);
      if next.Some? {
        RunKeeps(e, cfg, next.value, evs[1..]);
        if k: nat :| FailsAt(e, cfg, next.value, evs[1..], k) {
          FailsNext(e, cfg, w, evs, k);
        }
        forall k: nat | FailsAt(e, cfg, w, evs, k) && Run(e, cfg, next.value, evs[1..]).Some?
          ensures false
        {
          if k > 0 { FailsNext(e, cfg, w, evs, k - 1); }
        }
      } else {
        assert FailsAt(e, cfg, w, evs, 0);
      }
    }
  }

  lemma FailsFirst(e: Env, cfg: Config, w: World, evs: seq<Event>)
    requires e.blockSize > 1 && evs != []
    ensures FailsAt(e, cfg, w, evs, 0) <==> evs[0].Step? && FaultyStep(e, cfg, w.sched)
  {
    hide FaultyStep;
    assert evs[..0] == [];
  }

  lemma FailsNext(e: Env, cfg: Config, w: World, evs: seq<Event>, k: nat)
    requires e.blockSize > 1 && evs != [] && Happen(e, cfg, w, evs[0]).Some?
    ensures FailsAt(e, cfg, w, evs, k + 1) <==> FailsAt(e, cfg, Happen(e, cfg, w, evs[0]).value, evs[1..], k)
  {
    hide FaultyStep, Happen;
    if k + 1 < |evs| {
      assert evs[..k + 1][0] == evs[0] && evs[..k + 1][1..] == evs[1..][..k];
    }
  }

  // ---------------------------------------------------------------- cache-enabled requests only

  /** No uncached request arrives. */
  predicate NoneUncached(evs: seq<Event>) {
    forall i :: 0 <= i < |evs| && evs[i].Arrive? ==> !evs[i].noCache
  }

  lemma CacheStaysEnabled(e: Env, cfg: Config, w: World, ev: Event)
    requires EnvOk(e) && e.blockSize > 1 && WorldOk(e, w) && CacheEnabled(w.sched) && (ev.Arrive? ==> !ev.noCache)
    requires Happen(e, cfg, w, ev).Some?
    ensures CacheEnabled(Happen(e, cfg, w, ev).value.sched)
  {
    hide SchedOk, Schedule, LeaveAll, Leave, Good, Keep, NoDup, Order, Stopping, SetOf, FaultyStep;
    match ev {
      case Arrive(id, prompt, noCache) =>
      case Cancel(id) =>
        LeaveOk(e, w.sched, id);
      case Step(tok, stops) =>
        ScheduleGood(e, cfg, w.sched);
        var moved := ScheduleIsFcfs(e, cfg, w.sched);
        var r := Schedule(e, cfg, w.sched).value;
        ScheduleKeepsCache(w.sched, r.sched);
        BatchIsGood(e, w.sched, r);
        TokensGood(e, r.sched.pool, r.sched.waiting, r.sched.running, tok);
        var s := r.sched.(running := AllWithToken(r.sched.running, tok));
        var ids := Stopping(r.batch, stops);
        LeaveAllOk(e, s, ids);
        CacheStays(r.sched, s, LeaveAll(s, ids), tok);
    }
  }

  lemma BatchIsGood(e: Env, st: Sched, r: Scheduled)
    requires e.blockSize > 1 && BatchOk(e, st, r)
    ensures Good(e, r.sched.pool, r.sched.waiting, r.sched.running)
  {
  }
}
