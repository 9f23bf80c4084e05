/** The two-phase scheduling policy as a function on queues and pool. */
module Scheduling {
  import opened BlockPool
  import opened Outcomes

  datatype Config = Config(maxSeqs: nat, maxTokens: nat)

  datatype Sched = Sched(pool: Pool, waiting: seq<SeqState>, running: seq<SeqState>)

  /** A batch and the state behind it; `batch` are the scheduled sequences as they now stand. */
  datatype Scheduled = Scheduled(sched: Sched, batch: seq<SeqState>, prefill: bool)

  // ---------------------------------------------------------------- prefill

  datatype Prefill = Prefill(pool: Pool, waiting: seq<SeqState>, running: seq<SeqState>, batch: seq<SeqState>,
                             tokens: nat)

  /** The head of the queue can be admitted. */
  function Admissible(e: Env, cfg: Config, st: Prefill): bool
    requires e.blockSize > 0
  {
    && st.waiting != [] && |st.batch| < cfg.maxSeqs
    && st.tokens + |st.waiting[0].tokens| <= cfg.maxTokens && CanAllocate(e, st.pool, st.waiting[0])
  }

  /** Admits the head: it runs, and is batched unless the cache covers it all. */
  function Admit(e: Env, st: Prefill): Option<Prefill>
    requires e.blockSize > 0 && st.waiting != []
  {
    var r := Allocate(e, st.pool, st.waiting[0]);
    if r.None? then None
    else
      var t := r.value.1;
      Some(Prefill(r.value.0, st.waiting[1..], st.running + [t],
                   if |t.tokens| > t.cached then st.batch + [t] else st.batch,
                   st.tokens + if |t.tokens| > t.cached then |t.tokens| - t.cached else 0))
  }

  function PrefillLoop(e: Env, cfg: Config, st: Prefill): Option<Prefill>
    requires e.blockSize > 0
    decreases |st.waiting|
  {
    if !Admissible(e, cfg, st) then Some(st)
    else
      var next := Admit(e, st);
      if next.None? then None else PrefillLoop(e, cfg, next.value)
  }

  // ---------------------------------------------------------------- decode

  datatype Room = Room(pool: Pool, waiting: seq<SeqState>, running: seq<SeqState>, ok: bool)

  /** Preempts the youngest running sequences until `cur` can append; at last `cur` itself. */
  function MakeRoom(e: Env, p: Pool, waiting: seq<SeqState>, running: seq<SeqState>, cur: SeqState): Room
    requires e.blockSize > 0
    decreases |running|
  {
    if CanAppend(e, p, cur) then Room(p, waiting, running, true)
    else if running != [] then
      var last := running[|running| - 1];
      MakeRoom(e, DropAll(p, last.table), [Released(last)] + waiting, running[..|running| - 1], cur)
    else Room(DropAll(p, cur.table), [Released(cur)] + waiting, [], false)
  }

  lemma RoomShrinks(e: Env, p: Pool, waiting: seq<SeqState>, running: seq<SeqState>, cur: SeqState)
    requires e.blockSize > 0
    ensures |MakeRoom(e, p, waiting, running, cur).running| <= |running|
    decreases |running|
  {
  }

  datatype Decode = Decode(pool: Pool, waiting: seq<SeqState>, running: seq<SeqState>, batch: seq<SeqState>)

  /** Round-robin over the running sequences, oldest first. */
  function DecodeLoop(e: Env, cfg: Config, st: Decode): Option<Decode>
    requires e.blockSize > 0
    decreases |st.running|
  {
    if st.running == [] || |st.batch| >= cfg.maxSeqs then Some(st)
    else
      var cur := st.running[0];
      var room := MakeRoom(e, st.pool, st.waiting, st.running[1..], cur);
      RoomShrinks(e, st.pool, st.waiting, st.running[1..], cur);
      if !room.ok then Some(Decode(room.pool, room.waiting, room.running, st.batch))
      else
        var r := MayAppend(e, room.pool, cur);
        if r.None? then None
        else DecodeLoop(e, cfg, Decode(r.value.0, room.waiting, room.running, st.batch + [r.value.1]))
  }

  /** One call of `schedule`; fails where an assertion in it would. */
  function Schedule(e: Env, cfg: Config, st: Sched): Option<Scheduled>
    requires e.blockSize > 0
  {
    var pre := PrefillLoop(e, cfg, Prefill(st.pool, st.waiting, st.running, [], 0));
    if pre.None? then None
    else if pre.value.batch != [] then
      Some(Scheduled(Sched(pre.value.pool, pre.value.waiting, pre.value.running), pre.value.batch, true))
    else
      var dec := DecodeLoop(e, cfg, Decode(pre.value.pool, pre.value.waiting, pre.value.running, []));
      if dec.None? then None
      else Some(Scheduled(Sched(dec.value.pool, dec.value.waiting, dec.value.batch + dec.value.running),
                          dec.value.batch, false))
  }

  // ---------------------------------------------------------------- first come, first served

  /** What scheduling must not change about a sequence. */
  datatype Request = Request(id: nat, tokens: seq<Token>, noCache: bool)

  function Who(s: SeqState): Request {
    Request(s.id, s.tokens, s.noCache)
  }

  function Requests(ss: seq<SeqState>): (r: seq<Request>)
    ensures |r| == |ss|
  {
    seq(|ss|, i requires 0 <= i < |ss| => Who(ss[i]))
  }

  function Ids(ss: seq<SeqState>): (r: seq<nat>)
    ensures |r| == |ss|
  {
    seq(|ss|, i requires 0 <= i < |ss| => ss[i].id)
  }

  lemma IdsSplit(a: seq<SeqState>, b: seq<SeqState>)
    ensures Ids(a + b) == Ids(a) + Ids(b)
  {
  }

  lemma RequestsSplit(a: seq<SeqState>, b: seq<SeqState>)
    ensures Requests(a + b) == Requests(a) + Requests(b)
  {
  }

  lemma AdmitMoves(e: Env, st: Prefill) returns (t: SeqState)
    requires e.blockSize > 0 && st.waiting != [] && Admit(e, st).Some?
    ensures var next := Admit(e, st).value;
            && Who(t) == Who(st.waiting[0]) && next.running == st.running + [t] && next.waiting == st.waiting[1..]
            && (forall s :: s in next.batch ==> s in st.batch || s == t)
  {
    hide AllocUpto, NumBlocks;
    t := Allocate(e, st.pool, st.waiting[0]).value.1;
  }

  /** Prefill moves the oldest waiting sequences to the end of the running ones. */
  lemma {:induction false} PrefillOrder(e: Env, cfg: Config, st: Prefill) returns (admitted: seq<SeqState>)
    requires e.blockSize > 0 && PrefillLoop(e, cfg, st).Some?
    ensures var r := PrefillLoop(e, cfg, st).value;
            && r.running == st.running + admitted
            && Requests(r.running) + Requests(r.waiting) == Requests(st.running) + Requests(st.waiting)
            && |admitted| <= |st.waiting| && r.waiting == st.waiting[|admitted|..]
            && (forall s :: s in r.batch ==> s in st.batch || s in admitted)
    decreases |st.waiting|
  {
    hide Admit, Requests;
    if !Admissible(e, cfg, st) {
      admitted := [];
    } else {
      var next := Admit(e, st).value;
      var t := AdmitMoves(e, st);
      var more := PrefillOrder(e, cfg, next);
      admitted := [t] + more;
      AdmitOrder(st.running, st.waiting, t, more);
    }
  }

  lemma AdmitOrder(running: seq<SeqState>, waiting: seq<SeqState>, t: SeqState, more: seq<SeqState>)
    requires waiting != [] && Who(t) == Who(waiting[0]) && |more| < |waiting|
    ensures Requests(running + [t]) + Requests(waiting[1..]) == Requests(running) + Requests(waiting)
    ensures running + [t] + more == running + ([t] + more)
    ensures waiting[1..][|more|..] == waiting[|more| + 1..]
  {
  }

  /** Preemption moves the youngest running sequences to the front of the waiting ones. */
  lemma {:induction false} RoomOrder(e: Env, p: Pool, waiting: seq<SeqState>, running: seq<SeqState>, cur: SeqState)
    returns (preempted: seq<SeqState>)
    requires e.blockSize > 0
    ensures var r := MakeRoom(e, p, waiting, running, cur);
            && r.waiting == preempted + waiting
            && (if r.ok
                then Requests(r.running) + Requests(r.waiting) == Requests(running) + Requests(waiting)
                  && r.running <= running
                else r.running == [] && Requests(r.waiting) == [Who(cur)] + Requests(running) + Requests(waiting))
    decreases |running|
  {
    hide CanAppend, DropAll, Requests, Released, Who;
    if CanAppend(e, p, cur) {
      preempted := [];
    } else if running != [] {
      var last := running[|running| - 1];
      var more := RoomOrder(e, DropAll(p, last.table), [Released(last)] + waiting, running[..|running| - 1], cur);
      preempted := more + [Released(last)];
      PreemptOrder(running, waiting, last, cur);
      assert more + ([Released(last)] + waiting) == preempted + waiting;
    } else {
      preempted := [Released(cur)];
      AloneOrder(waiting, cur);
    }
  }

  lemma PreemptOrder(running: seq<SeqState>, waiting: seq<SeqState>, last: SeqState, cur: SeqState)
    requires running != [] && running[|running| - 1] == last
    ensures Requests(running[..|running| - 1]) + Requests([Released(last)] + waiting)
            == Requests(running) + Requests(waiting)
    ensures [Who(cur)] + Requests(running[..|running| - 1]) + Requests([Released(last)] + waiting)
            == [Who(cur)] + Requests(running) + Requests(waiting)
    ensures running[..|running| - 1] <= running
  {
    var a, b := Requests(running[..|running| - 1]), Requests([Released(last)] + waiting);
    assert Requests([Released(last)] + waiting) == [Who(last)] + Requests(waiting);
    assert Requests(running) == a + [Who(last)];
    assert [Who(cur)] + a + b == [Who(cur)] + (a + b);
    assert [Who(cur)] + Requests(running) + Requests(waiting) == [Who(cur)] + (Requests(running) + Requests(waiting));
  }

  lemma AloneOrder(waiting: seq<SeqState>, cur: SeqState)
    ensures Requests([Released(cur)] + waiting) == [Who(cur)] + Requests([]) + Requests(waiting)
  {
  }

  lemma MayAppendKeepsRequest(e: Env, p: Pool, s: SeqState)
    requires e.blockSize > 0 && MayAppend(e, p, s).Some?
    ensures Who(MayAppend(e, p, s).value.1) == Who(s)
  {
  }

  /** A decode pass batches the oldest running sequences and preempts the youngest. */
  lemma {:induction false} DecodeOrder(e: Env, cfg: Config, st: Decode) returns (preempted: seq<SeqState>)
    requires e.blockSize > 0 && DecodeLoop(e, cfg, st).Some?
    ensures var r := DecodeLoop(e, cfg, st).value;
            && Requests(r.batch + r.running) + Requests(r.waiting)
               == Requests(st.batch + st.running) + Requests(st.waiting)
            && r.waiting == preempted + st.waiting
            && |r.batch| <= (if |st.batch| > cfg.maxSeqs then |st.batch| else cfg.maxSeqs)
    decreases |st.running|
  {
    hide MakeRoom, MayAppend;
    if st.running == [] || |st.batch| >= cfg.maxSeqs {
      preempted := [];
    } else {
      var cur := st.running[0];
      var room := MakeRoom(e, st.pool, st.waiting, st.running[1..], cur);
      RoomShrinks(e, st.pool, st.waiting, st.running[1..], cur);
      preempted := RoomOrder(e, st.pool, st.waiting, st.running[1..], cur);
      assert st.running == [cur] + st.running[1..];
      RequestsSplit(st.batch, st.running);
      if !room.ok {
        RequestsSplit(st.batch, room.running);
        assert Requests(st.batch) + ([Who(cur)] + Requests(st.running[1..]) + Requests(st.waiting))
          == Requests(st.batch + st.running) + Requests(st.waiting);
      } else {
        MayAppendKeepsRequest(e, room.pool, cur);
        var t := MayAppend(e, room.pool, cur).value.1;
        var next := Decode(MayAppend(e, room.pool, cur).value.0, room.waiting, room.running, st.batch + [t]);
        var more := DecodeOrder(e, cfg, next);
        assert more + (preempted + st.waiting) == more + preempted + st.waiting;
        OrderStep(st.batch, t, cur, st.running, room.running, room.waiting, st.waiting);
        preempted := more + preempted;
      }
    }
  }

  lemma OrderStep(batch: seq<SeqState>, t: SeqState, cur: SeqState, running: seq<SeqState>, left: seq<SeqState>,
                  waiting': seq<SeqState>, waiting: seq<SeqState>)
    requires Who(t) == Who(cur) && running != [] && running[0] == cur
    requires Requests(left) + Requests(waiting') == Requests(running[1..]) + Requests(waiting)
    ensures Requests(batch + [t] + left) + Requests(waiting') == Requests(batch + running) + Requests(waiting)
  {
    RequestsSplit(batch + [t], left);
    RequestsSplit(batch, [t]);
    RequestsSplit(batch, running);
    assert Requests(running) == [Who(cur)] + Requests(running[1..]);
    assert Requests(batch + [t] + left) + Requests(waiting')
      == Requests(batch) + [Who(t)] + (Requests(left) + Requests(waiting'));
  }

  /** Global FCFS: every call of `schedule`, through prefill, decode and any number of preemptions,
      leaves the list of running, then waiting, requests as it was, with all their tokens; a decode batch is a
      prefix of the running requests, and what is preempted goes, in order, in front of what was waiting. */
  lemma ScheduleIsFcfs(e: Env, cfg: Config, st: Sched) returns (moved: seq<SeqState>)
    requires e.blockSize > 0 && Schedule(e, cfg, st).Some?
    ensures var r := Schedule(e, cfg, st).value;
            && Requests(r.sched.running) + Requests(r.sched.waiting) == Requests(st.running) + Requests(st.waiting)
            && (r.prefill ==>
                r.batch != [] && r.sched.running == st.running + moved && (forall s :: s in r.batch ==> s in moved)
                              && |moved| <= |st.waiting| && r.sched.waiting == st.waiting[|moved|..])
            && (!r.prefill ==> r.batch <= r.sched.running && |r.batch| <= cfg.maxSeqs
                               && exists k: nat :: k <= |st.waiting| && r.sched.waiting == moved + st.waiting[k..])
  {
    hide PrefillLoop, DecodeLoop;
    var start := Prefill(st.pool, st.waiting, st.running, [], 0);
    var admitted := PrefillOrder(e, cfg, start);
    var pre := PrefillLoop(e, cfg, start).value;
    if pre.batch != [] {
      moved := admitted;
    } else {
      moved := DecodeOrder(e, cfg, Decode(pre.pool, pre.waiting, pre.running, []));
      assert [] + pre.running == pre.running;
    }
  }

  /** Equal requests have equal ids. */
  lemma SameIds(a: seq<SeqState>, b: seq<SeqState>, c: seq<SeqState>, d: seq<SeqState>)
    requires Requests(a) + Requests(b) == Requests(c) + Requests(d)
    ensures Ids(a) + Ids(b) == Ids(c) + Ids(d)
  {
    var x, y := Requests(a) + Requests(b), Requests(c) + Requests(d);
    assert |a| + |b| == |c| + |d|;
    forall i | 0 <= i < |a| + |b|
      ensures (Ids(a) + Ids(b))[i] == x[i].id && (Ids(c) + Ids(d))[i] == y[i].id
    {
    }
  }
}
