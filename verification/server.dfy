/** The protocol between the clients of the server and the worker that owns the engine, step by step and in
    any interleaving.
 */
module Server {
  import opened Outcomes

  datatype Kind = Audio(chunk: nat) | Done | Error

  datatype Event = Event(id: nat, kind: Kind)

  datatype Item = Req(id: nat) | Cancel(id: nat)

  /** Where a client is: not started, subscribed, reading, having read its last event, disconnected,
      unsubscribed with its cancel still to be queued, gone. */
  datatype Phase = Idle | Subscribed | Reading | Ended | Leaving | Cancelling | Gone

  /** `out` is what the worker has yet to dispatch of its last step; `posted` all a client was ever sent.
      `failed` is bookkeeping of the model: who was sent the exception of a step. */
  datatype State = State(phase: map<nat, Phase>, subs: set<nat>, intake: seq<Item>, engine: set<nat>, out: seq<Event>,
                         posted: map<nat, seq<Kind>>, failed: set<nat>) {
    function PhaseOf(id: nat): Phase { if id in phase then phase[id] else Idle }

    function Posted(id: nat): seq<Kind> { if id in posted then posted[id] else [] }
  }

  datatype Action =
    | Subscribe(id: nat) | Submit(id: nat) | ReadLast(id: nat)
    | Disconnect(id: nat) | Unsubscribe(id: nat) | SendCancel(id: nat)
    | Handle(fails: bool) | Step(events: seq<Event>, finished: set<nat>) | Dispatch | StepFails

  const INIT := State(map[], {}, [], {}, [], map[], {})

  predicate Terminal(k: Kind) { !k.Audio? }

  predicate HasTerminal(ks: seq<Kind>) {
    exists i :: 0 <= i < |ks| && Terminal(ks[i])
  }

  /** What a step of the engine returns: events of requests it holds, one `Done` for each that finishes and
      nothing of a request after its `Done`. */
  predicate StepEvents(engine: set<nat>, events: seq<Event>, finished: set<nat>) {
    && finished <= engine
    && (forall i :: 0 <= i < |events| ==>
        events[i].id in engine && events[i].kind != Error && (events[i].kind == Done ==> events[i].id in finished))
    && (forall id :: id in finished ==> Event(id, Done) in events)
    && DoneLast(events)
  }

  predicate DoneLast(events: seq<Event>) {
    forall i, j :: 0 <= i < j < |events| && events[i].kind == Done ==> events[j].id != events[i].id
  }

  /** Posting to a client that is subscribed; a last event ends the subscription. */
  function Deliver(s: State, id: nat, k: Kind): State {
    s.(subs := if Terminal(k) then s.subs - {id} else s.subs,
       posted := if id in s.subs then s.posted[id := s.Posted(id) + [k]] else s.posted)
  }

  /** The exception of a step goes to everybody subscribed; the engine keeps what it holds. */
  function FailAll(s: State): State {
    s.(subs := {}, failed := s.failed + s.subs,
       posted := map id | id in s.posted.Keys + s.subs :: if id in s.subs then s.Posted(id) + [Error] else s.Posted(id))
  }

  /** One atomic step, if it is enabled. */
  function Act(s: State, a: Action): Option<State> {
    match a
    case Subscribe(id) =>
      if s.PhaseOf(id) == Idle then Some(s.(phase := s.phase[id := Subscribed], subs := s.subs + {id})) else None
    case Submit(id) =>
      if s.PhaseOf(id) == Subscribed then Some(s.(phase := s.phase[id := Reading], intake := s.intake + [Req(id)]))
        else None
    case ReadLast(id) =>
      if s.PhaseOf(id) == Reading && HasTerminal(s.Posted(id)) then Some(s.(phase := s.phase[id := Ended])) else None
    case Disconnect(id) =>
      if s.PhaseOf(id) == Reading then Some(s.(phase := s.phase[id := Leaving])) else None
    case Unsubscribe(id) =>
      if s.PhaseOf(id) == Ended then Some(s.(phase := s.phase[id := Gone], subs := s.subs - {id}))
      else if s.PhaseOf(id) == Leaving then Some(s.(phase := s.phase[id := Cancelling], subs := s.subs - {id}))
      else None
    case SendCancel(id) =>
      if s.PhaseOf(id) == Cancelling then Some(s.(phase := s.phase[id := Gone], intake := s.intake + [Cancel(id)]))
        else None
    case Handle(fails) =>
      if s.out != [] || s.intake == [] then None
      else
        var t, item := s.(intake := s.intake[1..]), s.intake[0];
        if item.Cancel? then Some(t.(engine := t.engine - {item.id}))
        else Some(if fails then Deliver(t, item.id, Error) else t.(engine := t.engine + {item.id}))
    case Step(events, finished) =>
      if s.out == [] && StepEvents(s.engine, events, finished)
        then Some(s.(out := events, engine := s.engine - finished)) else None
    case Dispatch =>
      if s.out == [] then None else Some(Deliver(s.(out := s.out[1..]), s.out[0].id, s.out[0].kind))
    case StepFails =>
      if s.out == [] && s.engine != {} then Some(FailAll(s)) else None
  }

  // ---------------------------------------------------------------- the invariant

  /** Nothing about a request precedes it in the intake queue. */
  predicate ReqFirst(intake: seq<Item>) {
    forall i, j :: 0 <= i < j < |intake| && intake[j].Req? ==> intake[i].id != intake[j].id
  }

  predicate Pending(out: seq<Event>, id: nat) {
    exists i :: 0 <= i < |out| && out[i].id == id
  }

  predicate PendingDone(out: seq<Event>, id: nat) {
    Event(id, Done) in out
  }

  /** At most one last event, and nothing after it. */
  predicate OneTerminal(ks: seq<Kind>) {
    forall i :: 0 <= i < |ks| - 1 ==> !Terminal(ks[i])
  }

  /** Not known to the worker in any way. */
  predicate Unknown(s: State, id: nat) {
    id !in s.engine && Req(id) !in s.intake && !Pending(s.out, id)
  }

  /** Nobody listens for a request that was failed; whatever of it is still under way is dropped. */
  predicate FailedOk(s: State, id: nat) {
    var ph, ks := s.PhaseOf(id), s.Posted(id);
    && ph != Idle && id !in s.subs && OneTerminal(ks) && HasTerminal(ks)
    && (ph == Subscribed ==> Req(id) !in s.intake)
    && (Cancel(id) in s.intake ==> ph == Gone)
  }

  predicate ClientOk(s: State, id: nat) {
    if id in s.failed then FailedOk(s, id) else ServedOk(s, id)
  }

  predicate ServedOk(s: State, id: nat) {
    var ph, ks := s.PhaseOf(id), s.Posted(id);
    && OneTerminal(ks)
    && (ph == Idle ==> id !in s.subs)
    && (ph == Subscribed ==> id in s.subs)
    && (ph == Idle || ph == Subscribed ==> Unknown(s, id) && ks == [])
    && (ph == Reading || ph == Leaving ==> id in s.subs || HasTerminal(ks))
    && (ph == Ended ==> HasTerminal(ks))
    && (ph == Cancelling || ph == Gone ==> id !in s.subs)
    && (Cancel(id) in s.intake ==> ph == Gone)
    && (ph == Gone && (id in s.engine || Req(id) in s.intake) ==> Cancel(id) in s.intake)
    && (HasTerminal(ks) ==> id !in s.subs && Unknown(s, id))
    && (Req(id) in s.intake ==> id !in s.engine && !Pending(s.out, id) && ks == [])
    && (PendingDone(s.out, id) ==> id !in s.engine)
    && (ph == Reading && !HasTerminal(ks) ==> Req(id) in s.intake || id in s.engine || PendingDone(s.out, id))
  }

  ghost predicate Inv(s: State) {
    ReqFirst(s.intake) && DoneLast(s.out) && (forall i :: 0 <= i < |s.out| ==> s.out[i].kind != Error)
      && forall id: nat :: ClientOk(s, id)
  }

  lemma ClientSteps(s: State, a: Action)
    requires Inv(s) && Act(s, a).Some? && !a.Handle? && !a.Step? && !a.Dispatch? && !a.StepFails?
    ensures Inv(Act(s, a).value)
  {
    assert ClientOk(s, a.id);
    forall id: nat ensures ClientOk(Act(s, a).value, id) {
      ClientStep(s, a, id);
    }
  }

  lemma ClientStep(s: State, a: Action, id: nat)
    requires Inv(s) && Act(s, a).Some? && !a.Handle? && !a.Step? && !a.Dispatch? && !a.StepFails?
    ensures ClientOk(Act(s, a).value, id)
  {
    assert ClientOk(s, a.id) && ClientOk(s, id);
    hide Inv, OneTerminal, HasTerminal, DoneLast, ReqFirst, Pending;
    if a.id == id {
      OwnStep(s, a);
    } else {
      hide FailedOk, ServedOk;
      OtherStep(s, a, id);
      ClientSame(s, Act(s, a).value, id);
    }
  }

  /** Nothing that is said of the client changed. */
  predicate SameClient(s: State, t: State, id: nat) {
    && t.PhaseOf(id) == s.PhaseOf(id) && t.Posted(id) == s.Posted(id) && (id in t.subs <==> id in s.subs)
    && (id in t.failed <==> id in s.failed) && t.engine == s.engine && t.out == s.out
    && (Req(id) in t.intake <==> Req(id) in s.intake) && (Cancel(id) in t.intake <==> Cancel(id) in s.intake)
  }

  lemma ClientSame(s: State, t: State, id: nat)
    requires SameClient(s, t, id) && ClientOk(s, id)
    ensures ClientOk(t, id)
  {
    hide OneTerminal, HasTerminal, Pending, PendingDone;
  }

  lemma OtherStep(s: State, a: Action, id: nat)
    requires Act(s, a).Some? && !a.Handle? && !a.Step? && !a.Dispatch? && !a.StepFails? && a.id != id
    ensures SameClient(s, Act(s, a).value, id)
  {
    hide HasTerminal;
  }

  lemma OwnStep(s: State, a: Action)
    requires Act(s, a).Some? && !a.Handle? && !a.Step? && !a.Dispatch? && !a.StepFails? && ClientOk(s, a.id)
    ensures ClientOk(Act(s, a).value, a.id)
  {
    NothingEnds();
    hide OneTerminal, HasTerminal, Pending, PendingDone;
  }

  lemma NothingEnds()
    ensures !HasTerminal([])
  {
  }

  lemma Appended(ks: seq<Kind>, k: Kind)
    requires OneTerminal(ks) && !HasTerminal(ks)
    ensures OneTerminal(ks + [k]) && (HasTerminal(ks + [k]) <==> Terminal(k))
  {
    if Terminal(k) { assert Terminal((ks + [k])[|ks|]); }
  }

  lemma HandleStep(s: State, fails: bool)
    requires Inv(s) && Act(s, Handle(fails)).Some?
    ensures Inv(Act(s, Handle(fails)).value)
  {
    hide Inv;
    if s.intake[0].Cancel? {
      HandleCancel(s, fails);
    } else if fails {
      HandleFailure(s);
    } else {
      HandleRequest(s);
    }
  }

  lemma HandleCancel(s: State, fails: bool)
    requires Inv(s) && Act(s, Handle(fails)).Some? && s.intake[0].Cancel?
    ensures Inv(Act(s, Handle(fails)).value)
  {
    hide OneTerminal, HasTerminal;
    var t, item := Act(s, Handle(fails)).value, s.intake[0];
    assert s.intake == [item] + t.intake;
    forall id: nat ensures ClientOk(t, id) {
      assert ClientOk(s, id);
    }
  }

  lemma HandleRequest(s: State)
    requires Inv(s) && Act(s, Handle(false)).Some? && s.intake[0].Req?
    ensures Inv(Act(s, Handle(false)).value)
  {
    hide OneTerminal, HasTerminal;
    var t, item := Act(s, Handle(false)).value, s.intake[0];
    assert s.intake == [item] + t.intake;
    forall id: nat ensures ClientOk(t, id) {
      assert ClientOk(s, id);
    }
  }

  lemma HandleFailure(s: State)
    requires Inv(s) && Act(s, Handle(true)).Some? && s.intake[0].Req?
    ensures Inv(Act(s, Handle(true)).value)
  {
    hide ClientOk;
    forall id: nat ensures ClientOk(Act(s, Handle(true)).value, id) {
      ClientFails(s, id);
    }
  }

  lemma ClientFails(s: State, id: nat)
    requires Inv(s) && Act(s, Handle(true)).Some? && s.intake[0].Req?
    ensures ClientOk(Act(s, Handle(true)).value, id)
  {
    var t, item := Act(s, Handle(true)).value, s.intake[0];
    assert s.intake == [item] + t.intake;
    assert ClientOk(s, item.id) && ClientOk(s, id);
    AppendedIfOpen(s.Posted(item.id), Error);
    hide OneTerminal, HasTerminal, DoneLast, ReqFirst;
  }

  lemma EngineStep(s: State, events: seq<Event>, finished: set<nat>)
    requires Inv(s) && Act(s, Step(events, finished)).Some?
    ensures Inv(Act(s, Step(events, finished)).value)
  {
    var t := Act(s, Step(events, finished)).value;
    forall id: nat ensures ClientOk(t, id) {
      assert ClientOk(s, id);
    }
  }

  lemma DispatchStep(s: State)
    requires Inv(s) && Act(s, Dispatch).Some?
    ensures Inv(Act(s, Dispatch).value)
  {
    var t, ev := Act(s, Dispatch).value, s.out[0];
    assert s.out == [ev] + t.out;
    assert forall i :: 0 <= i < |t.out| ==> t.out[i] == s.out[i + 1];
    hide ClientOk;
    forall id: nat ensures ClientOk(t, id) {
      DispatchClient(s, id);
    }
  }

  lemma DispatchClient(s: State, id: nat)
    requires Inv(s) && Act(s, Dispatch).Some?
    ensures ClientOk(Act(s, Dispatch).value, id)
  {
    var t, ev := Act(s, Dispatch).value, s.out[0];
    assert s.out == [ev] + t.out;
    assert s.out[0].id == ev.id;
    assert Pending(s.out, ev.id) && ClientOk(s, ev.id) && ClientOk(s, id);
    AppendedIfOpen(s.Posted(ev.id), ev.kind);
    PendingTail(s.out, id);
    hide OneTerminal, HasTerminal, ReqFirst, Pending;
  }

  lemma PendingTail(out: seq<Event>, id: nat)
    requires out != []
    ensures Pending(out, id) <==> out[0].id == id || Pending(out[1..], id)
    ensures PendingDone(out, id) <==> out[0] == Event(id, Done) || PendingDone(out[1..], id)
    ensures DoneLast(out) && out[0] == Event(id, Done) ==> !Pending(out[1..], id)
  {
    var rest := out[1..];
    assert forall i :: 0 <= i < |rest| ==> rest[i] == out[i + 1];
    assert out == [out[0]] + rest;
    if i :| 0 <= i < |out| && out[i].id == id && i > 0 {
      assert rest[i - 1].id == id;
    }
  }

  lemma FailStep(s: State)
    requires Inv(s) && Act(s, StepFails).Some?
    ensures Inv(Act(s, StepFails).value)
  {
    hide ClientOk;
    forall id: nat ensures ClientOk(Act(s, StepFails).value, id) {
      FailClient(s, id);
    }
  }

  lemma FailClient(s: State, id: nat)
    requires Inv(s) && Act(s, StepFails).Some?
    ensures ClientOk(Act(s, StepFails).value, id)
  {
    assert ClientOk(s, id);
    AppendedIfOpen(s.Posted(id), Error);
    hide OneTerminal, HasTerminal;
  }

  lemma AppendedIfOpen(ks: seq<Kind>, k: Kind)
    requires OneTerminal(ks)
    ensures !HasTerminal(ks) ==> OneTerminal(ks + [k]) && (HasTerminal(ks + [k]) <==> Terminal(k))
  {
    if !HasTerminal(ks) { Appended(ks, k); }
  }

  /** Any interleaving of clients and worker. */
  function Run(s: State, acts: seq<Action>): Option<State>
    decreases |acts|
  {
    if acts == [] then Some(s)
    else
      var t := Act(s, acts[0]);
      if t.None? then None else Run(t.value, acts[1..])
  }

  lemma {:induction false} RunInv(s: State, acts: seq<Action>)
    requires Inv(s)
    ensures Run(s, acts).Some? ==> Inv(Run(s, acts).value)
    decreases |acts|
  {
    hide Inv, Act;
    if acts != [] && Act(s, acts[0]).Some? {
      match acts[0] {
        case Handle(fails) => HandleStep(s, fails);
        case Step(events, finished) => EngineStep(s, events, finished);
        case Dispatch => DispatchStep(s);
        case StepFails => FailStep(s);
        case _ => ClientSteps(s, acts[0]);
      }
      RunInv(Act(s, acts[0]).value, acts[1..]);
    }
  }

  /** In every reachable state each request the engine holds has a subscriber, or its cancel is queued, or
      its client is about to queue it, or it was sent the exception of a step. */
  lemma NoZombies(acts: seq<Action>, id: nat)
    requires Run(INIT, acts).Some? && id in Run(INIT, acts).value.engine
    ensures var s := Run(INIT, acts).value;
            id in s.subs || Cancel(id) in s.intake || s.PhaseOf(id) == Cancelling || id in s.failed
  {
    RunInv(INIT, acts);
    var s := Run(INIT, acts).value;
    assert ClientOk(s, id);
  }

  /** In every run each client is posted at most one last event and nothing after it, and by then the engine
      has let the request go, unless that event was the exception of a step. */
  lemma OneLastEvent(acts: seq<Action>, id: nat)
    requires Run(INIT, acts).Some?
    ensures var s := Run(INIT, acts).value;
            && OneTerminal(s.Posted(id))
            && (HasTerminal(s.Posted(id)) ==> id !in s.subs && (id !in s.engine || id in s.failed))
  {
    RunInv(INIT, acts);
    var s := Run(INIT, acts).value;
    assert ClientOk(s, id);
  }

  /** A client that disconnects before its last event leaves nothing behind once the intake is drained. */
  lemma DisconnectedIsFreed(acts: seq<Action>, id: nat)
    requires Run(INIT, acts).Some? && Run(INIT, acts).value.PhaseOf(id) == Gone && Run(INIT, acts).value.intake == []
    ensures id !in Run(INIT, acts).value.engine || id in Run(INIT, acts).value.failed
  {
    RunInv(INIT, acts);
    var s := Run(INIT, acts).value;
    assert ClientOk(s, id);
  }

  /** Nobody is forgotten: a client that still waits for its last event has its request in the intake or in the
      engine, or its `Done` about to be dispatched. */
  lemma NobodyForgotten(acts: seq<Action>, id: nat)
    requires Run(INIT, acts).Some?
    requires var s := Run(INIT, acts).value; s.PhaseOf(id) == Reading && !HasTerminal(s.Posted(id))
    ensures var s := Run(INIT, acts).value;
            && (Req(id) in s.intake || id in s.engine || Event(id, Done) in s.out)
            && id in s.subs && id !in s.failed
  {
    RunInv(INIT, acts);
    var s := Run(INIT, acts).value;
    assert ClientOk(s, id);
  }

  // ---------------------------------------------------------------- failed steps

  /** Only the exception of a step fails anybody. */
  lemma {:induction false} FailedAre(s: State, acts: seq<Action>)
    requires Run(s, acts).Some? && StepFails !in acts
    ensures Run(s, acts).value.failed == s.failed
    decreases |acts|
  {
    hide Act;
    if acts != [] {
      assert acts[0] in acts && forall a :: a in acts[1..] ==> a in acts;
      FailsNobody(s, acts[0]);
      FailedAre(Act(s, acts[0]).value, acts[1..]);
    }
  }

  lemma FailsNobody(s: State, a: Action)
    requires Act(s, a).Some? && a != StepFails
    ensures Act(s, a).value.failed == s.failed
  {
    hide HasTerminal;
  }

  /** After the exception of a step the engine holds a request that nobody listens to and nobody will cancel. */
  lemma FailureLeavesZombie(id: nat)
    ensures var acts := [Subscribe(id), Submit(id), Handle(false), StepFails, ReadLast(id), Unsubscribe(id)];
            && Run(INIT, acts).Some?
            && var s := Run(INIT, acts).value;
               id in s.engine && id !in s.subs && s.intake == [] && s.out == [] && s.PhaseOf(id) == Gone
  {
    var first, after := [Subscribe(id), Submit(id), Handle(false)], [StepFails, ReadLast(id), Unsubscribe(id)];
    var s := Taken(id);
    FailedAndLeft(s, id);
    assert first + after == [Subscribe(id), Submit(id), Handle(false), StepFails, ReadLast(id), Unsubscribe(id)];
    RunSum(INIT, first, after);
  }

  predicate Held(s: State, id: nat) {
    && s.engine == {id} && s.subs == {id} && s.intake == [] && s.out == []
    && s.PhaseOf(id) == Reading && s.Posted(id) == []
  }

  lemma Taken(id: nat) returns (s: State)
    ensures Run(INIT, [Subscribe(id), Submit(id), Handle(false)]) == Some(s) && Held(s, id)
  {
    var acts := [Subscribe(id), Submit(id), Handle(false)];
    var s1 := Act(INIT, acts[0]).value;
    var s2 := Act(s1, acts[1]).value;
    assert s2.intake == [Req(id)];
    s := Act(s2, acts[2]).value;
    RunThree(INIT, acts, s1, s2, s);
  }

  lemma FailedAndLeft(s: State, id: nat)
    requires Held(s, id)
    ensures Run(s, [StepFails, ReadLast(id), Unsubscribe(id)]).Some?
    ensures var t := Run(s, [StepFails, ReadLast(id), Unsubscribe(id)]).value;
            id in t.engine && id !in t.subs && t.intake == [] && t.out == [] && t.PhaseOf(id) == Gone
  {
    var acts := [StepFails, ReadLast(id), Unsubscribe(id)];
    var s1 := Act(s, acts[0]).value;
    assert s1.Posted(id) == [Error] && Terminal([Error][0]);
    var s2 := Act(s1, acts[1]).value;
    RunThree(s, acts, s1, s2, Act(s2, acts[2]).value);
  }

  lemma RunThree(s: State, acts: seq<Action>, s1: State, s2: State, s3: State)
    requires |acts| == 3 && Act(s, acts[0]) == Some(s1) && Act(s1, acts[1]) == Some(s2) && Act(s2, acts[2]) == Some(s3)
    ensures Run(s, acts) == Some(s3)
  {
    hide Act;
    assert acts[1..][1..] == acts[2..] && acts[2..][1..] == [];
    assert Run(s3, []) == Some(s3) && Run(s2, acts[2..]) == Some(s3) && Run(s1, acts[1..]) == Some(s3);
  }

  lemma {:induction false} RunSum(s: State, a: seq<Action>, b: seq<Action>)
    requires Run(s, a).Some?
    ensures Run(s, a + b) == Run(Run(s, a).value, b)
    decreases |a|
  {
    hide Act;
    if a == [] {
      assert a + b == b;
    } else {
      assert (a + b)[1..] == a[1..] + b && (a + b)[0] == a[0];
      RunSum(Act(s, a[0]).value, a[1..], b);
    }
  }

  // ---------------------------------------------------------------- delivery

  /** The events of one request, in order. */
  function OfId(events: seq<Event>, id: nat): seq<Kind> {
    if events == [] then []
    else (if events[0].id == id then [events[0].kind] else []) + OfId(events[1..], id)
  }

  lemma {:induction false} NothingOfId(events: seq<Event>, id: nat)
    requires !Pending(events, id)
    ensures OfId(events, id) == []
    decreases |events|
  {
    if events != [] {
      assert events[0].id != id;
      assert forall i :: 0 <= i < |events[1..]| ==> events[1..][i] == events[i + 1];
      NothingOfId(events[1..], id);
    }
  }

  /** What one action produces for a request: the events of a step, or an error. */
  function Produces(s: State, a: Action, id: nat): seq<Kind> {
    match a
    case Step(events, finished) => OfId(events, id)
    case Handle(fails) => if fails && s.intake != [] && s.intake[0] == Req(id) then [Error] else []
    case StepFails => if id in s.subs then [Error] else []
    case _ => []
  }

  /** And a whole run, in order. */
  function Produced(s: State, acts: seq<Action>, id: nat): seq<Kind>
    decreases |acts|
  {
    if acts == [] || Act(s, acts[0]).None? then []
    else Produces(s, acts[0], id) + Produced(Act(s, acts[0]).value, acts[1..], id)
  }

  /** A listening client, or one that has its last event from the engine, was posted all of it but what is still
      to be dispatched; one that left early or was failed was posted the beginning. */
  ghost predicate Delivered(s: State, id: nat, all: seq<Kind>) {
    if id in s.subs || (HasTerminal(s.Posted(id)) && id !in s.failed) then all == s.Posted(id) + OfId(s.out, id)
    else s.Posted(id) <= all && (s.PhaseOf(id) == Idle ==> all == [])
  }

  lemma DeliversOn(s: State, a: Action, id: nat, all: seq<Kind>)
    requires Inv(s) && Act(s, a).Some? && Inv(Act(s, a).value) && Delivered(s, id, all)
    ensures Delivered(Act(s, a).value, id, all + Produces(s, a, id))
  {
    hide Inv;
    ClientOf(s, id);
    ClientOf(Act(s, a).value, id);
    if !Pending(s.out, id) { NothingOfId(s.out, id); }
    match a {
      case Handle(fails) => HandleDelivers(s, fails, id, all);
      case Step(events, finished) => StepDelivers(s, events, finished, id, all);
      case Dispatch => DispatchDelivers(s, id, all);
      case StepFails => FailDelivers(s, id, all);
      case _ => assert all + [] == all; QuietDelivers(s, a, id, all);
    }
  }

  lemma ClientOf(s: State, id: nat)
    requires Inv(s)
    ensures ClientOk(s, id)
  {
  }

  lemma QuietDelivers(s: State, a: Action, id: nat, all: seq<Kind>)
    requires Act(s, a).Some? && !a.Handle? && !a.Step? && !a.Dispatch? && !a.StepFails?
    requires ClientOk(s, id) && Delivered(s, id, all) && (!Pending(s.out, id) ==> OfId(s.out, id) == [])
    ensures Delivered(Act(s, a).value, id, all)
  {
    hide OneTerminal, HasTerminal, OfId;
  }

  lemma HandleDelivers(s: State, fails: bool, id: nat, all: seq<Kind>)
    requires Act(s, Handle(fails)).Some? && ClientOk(s, id) && Delivered(s, id, all)
    requires ClientOk(Act(s, Handle(fails)).value, id)
    ensures Delivered(Act(s, Handle(fails)).value, id, all + Produces(s, Handle(fails), id))
  {
    hide OneTerminal, HasTerminal, Pending;
    assert s.intake[0] in s.intake && OfId([], id) == [];
    assert s.Posted(id) + [] == s.Posted(id) && all + [] == all;
    if s.intake[0] != Req(id) {
      assert Act(s, Handle(fails)).value.Posted(id) == s.Posted(id);
    }
  }

  lemma StepDelivers(s: State, events: seq<Event>, finished: set<nat>, id: nat, all: seq<Kind>)
    requires Act(s, Step(events, finished)).Some? && ClientOk(s, id) && Delivered(s, id, all)
    requires ClientOk(Act(s, Step(events, finished)).value, id)
    ensures Delivered(Act(s, Step(events, finished)).value, id, all + Produces(s, Step(events, finished), id))
  {
    hide OneTerminal, HasTerminal, OfId;
    NothingOfId([], id);
    if !Pending(events, id) { NothingOfId(events, id); }
    assert s.Posted(id) + [] == s.Posted(id);
  }

  lemma DispatchDelivers(s: State, id: nat, all: seq<Kind>)
    requires Act(s, Dispatch).Some? && ClientOk(s, id) && Delivered(s, id, all)
    requires ClientOk(Act(s, Dispatch).value, id)
    ensures Delivered(Act(s, Dispatch).value, id, all + Produces(s, Dispatch, id))
  {
    var ev := s.out[0];
    OfIdStep(s.out, id);
    assert all + [] == all;
    if ev.id == id {
      assert Pending(s.out, id);
      DispatchOwn(s, id, all);
    } else {
      hide ClientOk, OneTerminal, HasTerminal, OfId;
      assert [] + OfId(s.out[1..], id) == OfId(s.out[1..], id);
      assert Act(s, Dispatch).value.Posted(id) == s.Posted(id);
    }
  }

  lemma OfIdStep(out: seq<Event>, id: nat)
    requires out != []
    ensures OfId(out, id) == (if out[0].id == id then [out[0].kind] else []) + OfId(out[1..], id)
  {
  }

  /** The event at the head is the client's: it was not its last one before. */
  lemma DispatchOwn(s: State, id: nat, all: seq<Kind>)
    requires Act(s, Dispatch).Some? && s.out[0].id == id && Pending(s.out, id) && ClientOk(s, id)
    requires Delivered(s, id, all) && ClientOk(Act(s, Dispatch).value, id)
    requires OfId(s.out, id) == [s.out[0].kind] + OfId(s.out[1..], id)
    ensures Delivered(Act(s, Dispatch).value, id, all)
  {
    hide OneTerminal, HasTerminal, OfId, Pending, PendingDone;
    var k, rest := s.out[0].kind, OfId(s.out[1..], id);
    assert s.Posted(id) + ([k] + rest) == s.Posted(id) + [k] + rest;
  }

  lemma FailDelivers(s: State, id: nat, all: seq<Kind>)
    requires Act(s, StepFails).Some? && ClientOk(s, id) && Delivered(s, id, all)
    requires ClientOk(Act(s, StepFails).value, id)
    ensures Delivered(Act(s, StepFails).value, id, all + Produces(s, StepFails, id))
  {
    hide OneTerminal, HasTerminal;
    assert OfId([], id) == [] && all + [] == all && s.Posted(id) + [] == s.Posted(id);
  }

  lemma {:induction false} RunDelivers(s: State, acts: seq<Action>, id: nat, all: seq<Kind>)
    requires Inv(s) && Run(s, acts).Some? && Delivered(s, id, all)
    ensures Delivered(Run(s, acts).value, id, all + Produced(s, acts, id))
    decreases |acts|
  {
    hide Inv, Act, Delivered, Produces;
    if acts == [] {
      assert all + [] == all;
    } else {
      var t := Act(s, acts[0]).value;
      RunInv(s, acts[..1]);
      assert acts[..1][1..] == [] && Run(t, []) == Some(t);
      DeliversOn(s, acts[0], id, all);
      RunDelivers(t, acts[1..], id, all + Produces(s, acts[0], id));
      assert all + Produces(s, acts[0], id) + Produced(t, acts[1..], id) == all + Produced(s, acts, id);
    }
  }

  /** Delivery: in every run, what a subscribed client, or one that has its last event from the engine, was posted
      is everything the engine produced for it, in order, up to what the worker is still dispatching; and nobody
      is ever posted anything else. */
  lemma Delivery(acts: seq<Action>, id: nat)
    requires Run(INIT, acts).Some?
    ensures var s, all := Run(INIT, acts).value, Produced(INIT, acts, id);
            && s.Posted(id) <= all
            && (id in s.subs || (HasTerminal(s.Posted(id)) && id !in s.failed) ==>
                  all == s.Posted(id) + OfId(s.out, id))
  {
    hide Act, Produced, Run;
    RunDelivers(INIT, acts, id, []);
    assert [] + Produced(INIT, acts, id) == Produced(INIT, acts, id);
  }
}
