/** The scheduler itself: queues of sequence objects over a block manager.  `Schedule` does to the objects
    exactly what `Scheduling.Schedule` does to their values.
 */
module Schedulers {
  import BlockAccounting
  import opened BlockManagers
  import opened BlockPool
  import opened Outcomes
  import opened ScheduleRuns
  import ScheduleSteps
  import opened Scheduling

  ghost function Views(ss: seq<Sequence>): (r: seq<SeqState>)
    reads ss
    ensures |r| == |ss| && forall i :: 0 <= i < |ss| ==> r[i] == ss[i].View()
  {
    seq(|ss|, i requires 0 <= i < |ss| reads ss => ss[i].View())
  }

  ghost predicate Distinct(ss: seq<Sequence>) {
    forall i, j :: 0 <= i < j < |ss| ==> ss[i] != ss[j]
  }

  /** A running sequence's table lies inside the pool. */
  predicate InPool(s: SeqState, n: nat) {
    s.tokens != [] && s.table != [] && forall k :: 0 <= k < |s.table| ==> s.table[k] < n
  }

  predicate AllInPool(ss: seq<SeqState>, n: nat) {
    forall i :: 0 <= i < |ss| ==> InPool(ss[i], n)
  }

  lemma DistinctLast(running: seq<Sequence>, waiting: seq<Sequence>)
    requires running != [] && Distinct(running + waiting)
    ensures var last, front := running[|running| - 1], running[..|running| - 1];
            last !in front && last !in waiting && front + ([last] + waiting) == running + waiting
  {
    var last, front := running[|running| - 1], running[..|running| - 1];
    assert front + ([last] + waiting) == running + waiting && last in [last] + waiting;
    DistinctParts(front, [last] + waiting);
    DistinctParts([last], waiting);
    assert last in [last];
  }

  lemma {:induction false} ViewsSplit(a: seq<Sequence>, b: seq<Sequence>)
    ensures Views(a + b) == Views(a) + Views(b)
  {
  }

  class Scheduler {
    const cfg: Config
    const bm: BlockManager
    var waiting: seq<Sequence>
    var running: seq<Sequence>

    constructor (cfg: Config, e: Env, numBlocks: nat)
      requires e.blockSize > 0
      ensures this.cfg == cfg && bm.e == e && Valid() && View() == Sched(NewPool(numBlocks), [], [])
      ensures fresh(bm) && forall i :: 0 <= i < |bm.blocks| ==> fresh(bm.blocks[i])
    {
      this.cfg := cfg;
      bm := new BlockManager(e, numBlocks);
      waiting, running := [], [];
    }

    ghost predicate Valid()
      reads this
    {
      bm.Valid() && Distinct(running + waiting)
    }

    ghost function View(): Sched
      reads this, bm, bm.blocks, waiting, running
    {
      Sched(bm.View(), Views(waiting), Views(running))
    }

    method Add(s: Sequence)
      requires Valid() && s !in running + waiting
      modifies this`waiting
      ensures Valid() && waiting == old(waiting) + [s]
      ensures View() == old(View()).(waiting := old(View()).waiting + [s.View()])
    {
      waiting := waiting + [s];
      assert running + waiting == old(running + waiting) + [s];
      ViewsSplit(old(waiting), [s]);
    }

    /** Back to the front of the queue, blocks released. */
    method Preempt(s: Sequence)
      requires bm.Valid() && forall k :: 0 <= k < |s.table| ==> s.table[k] < |bm.blocks|
      requires s !in waiting
      modifies this`waiting, bm`free, bm`used, bm.blocks, s
      ensures waiting == [s] + old(waiting) && bm.View() == DropAll(old(bm.View()), old(s.table))
      ensures s.View() == Released(old(s.View()))
    {
      bm.Deallocate(s);
      waiting := [s] + waiting;
    }

    /** The youngest running sequence is preempted. */
    method PreemptYoungest()
      requires Valid() && running != [] && AllInPool(Views(running), |bm.blocks|)
      modifies this`waiting, this`running, bm`free, bm`used, bm.blocks, running[|running| - 1]
      ensures running == old(running)[..|old(running)| - 1] && running + waiting == old(running + waiting)
      ensures Views(running) == old(Views(running))[..|running|]
      ensures var last := old(running[|running| - 1].View());
              Views(waiting) == [Released(last)] + old(Views(waiting))
                && bm.View() == DropAll(old(bm.View()), last.table)
    {
      hide DropAll, Released, Distinct;
      var last, front := running[|running| - 1], running[..|running| - 1];
      DistinctLast(running, waiting);
      assert InPool(Views(running)[|running| - 1], |bm.blocks|);
      assert Views(front) == Views(running)[..|front|];
      running := front;
      Preempt(last);
      ViewsCons(last, old(waiting));
    }

    /** The state a search for room is in, as its outcome. */
    ghost function RoomFor(c: SeqState): Room
      requires bm.e.blockSize > 0
      reads this, bm, bm.blocks, waiting, running
    {
      Scheduling.MakeRoom(bm.e, bm.View(), Views(waiting), Views(running), c)
    }

    /** One turn of the search: the youngest goes. */
    method RoomTurn(cur: Sequence) returns (ok: bool)
      requires Valid() && running != [] && cur !in running + waiting && AllInPool(Views(running), |bm.blocks|)
      requires !BlockPool.CanAppend(bm.e, bm.View(), cur.View())
      modifies this`waiting, this`running, bm`free, bm`used, bm.blocks, running[|running| - 1]
      ensures ok == BlockPool.CanAppend(bm.e, bm.View(), cur.View()) && cur.View() == old(cur.View())
      ensures RoomFor(cur.View()) == old(RoomFor(cur.View())) && AllInPool(Views(running), |bm.blocks|)
      ensures running == old(running)[..|old(running)| - 1] && running + waiting == old(running + waiting)
    {
      hide DropAll, Released, BlockPool.CanAppend, Views, InPool, Distinct;
      ghost var p, w, r, c := bm.View(), Views(waiting), Views(running), cur.View();
      assert running[|running| - 1] in running + waiting;
      assert r[|r| - 1] == running[|running| - 1].View();
      PreemptYoungest();
      ok := bm.CanAppend(cur);
      assert Scheduling.MakeRoom(bm.e, p, w, r, c)
        == Scheduling.MakeRoom(bm.e, bm.View(), Views(waiting), Views(running), c);
    }

    /** Preempts the youngest until `cur` can append or nobody is left. */
    method SearchRoom(cur: Sequence) returns (ok: bool)
      requires Valid() && cur !in running + waiting && AllInPool(Views(running), |bm.blocks|)
      modifies this`waiting, this`running, bm`free, bm`used, bm.blocks, running
      ensures Valid() && cur.View() == old(cur.View()) && RoomFor(cur.View()) == old(RoomFor(cur.View()))
      ensures ok == BlockPool.CanAppend(bm.e, bm.View(), cur.View()) && (!ok ==> running == [])
      ensures running <= old(running) && running + waiting == old(running + waiting)
      ensures AllInPool(Views(running), |bm.blocks|)
    {
      hide DropAll, Released, BlockPool.CanAppend, Views, InPool, Distinct, Scheduling.MakeRoom, AllInPool, RoomFor;
      ok := bm.CanAppend(cur);
      while !ok && running != []
        invariant Valid() && cur.View() == old(cur.View()) && AllInPool(Views(running), |bm.blocks|)
        invariant ok == BlockPool.CanAppend(bm.e, bm.View(), cur.View())
        invariant RoomFor(cur.View()) == old(RoomFor(cur.View()))
        invariant running <= old(running) && running + waiting == old(running + waiting)
        decreases |running|
      {
        ok := RoomTurn(cur);
      }
    }

    /** Makes room for `cur`, at last by preempting it. */
    method MakeRoom(cur: Sequence) returns (ok: bool)
      requires Valid() && cur !in running + waiting && AllInPool(Views(running), |bm.blocks|)
      requires InPool(cur.View(), |bm.blocks|)
      modifies this`waiting, this`running, bm`free, bm`used, bm.blocks, running, cur
      ensures Room(bm.View(), Views(waiting), Views(running), ok) == old(RoomFor(cur.View()))
      ensures ok ==>
                cur.View() == old(cur.View()) && running <= old(running)
                  && running + waiting == old(running + waiting)
      ensures ok ==> AllInPool(Views(running), |bm.blocks|)
      ensures !ok ==> running == [] && waiting == [cur] + old(running + waiting)
    {
      hide DropAll, Released, BlockPool.CanAppend, Views, InPool, Distinct, Scheduling.MakeRoom, AllInPool, RoomFor;
      hide BlockManager.View;
      ok := SearchRoom(cur);
      RoomAtEnd(cur.View());
      if !ok {
        PreemptLast(cur);
      }
    }

    /** Nobody else is left: `cur` itself goes. */
    method PreemptLast(cur: Sequence)
      requires bm.Valid() && cur !in waiting && InPool(cur.View(), |bm.blocks|)
      modifies this`waiting, bm`free, bm`used, bm.blocks, cur
      ensures waiting == [cur] + old(waiting) && bm.View() == DropAll(old(bm.View()), old(cur.View()).table)
      ensures Views(waiting) == [Released(old(cur.View()))] + old(Views(waiting))
    {
      hide DropAll, Released, Views, InPool, BlockManager.View;
      InPoolTable(cur.View(), |bm.blocks|);
      Preempt(cur);
      ViewsCons(cur, waiting[1..]);
    }

    lemma RoomAtEnd(c: SeqState)
      requires bm.e.blockSize > 0 && (running == [] || BlockPool.CanAppend(bm.e, bm.View(), c))
      ensures RoomFor(c) == if BlockPool.CanAppend(bm.e, bm.View(), c)
              then Room(bm.View(), Views(waiting), Views(running), true)
                            else Room(DropAll(bm.View(), c.table), [Released(c)] + Views(waiting), [], false)
    {
      hide BlockPool.CanAppend, DropAll;
    }

    /** The head of the queue is given its blocks and runs. */
    method AdmitHead() returns (ok: bool, s: Sequence)
      requires Valid() && waiting != [] && waiting[0].table == []
      modifies this`waiting, this`running, bm`free, bm`used, bm`index, bm.blocks, waiting[0]
      ensures s == old(waiting)[0] && running == old(running) + [s] && waiting == old(waiting)[1..]
      ensures var r := BlockPool.Allocate(bm.e, old(bm.View()), old(Views(waiting))[0]);
              && (ok <==> r.Some?)
              && (ok ==> bm.View() == r.value.0 && s.View() == r.value.1
                         && Views(running) == old(Views(running)) + [s.View()])
      ensures Views(waiting) == old(Views(waiting))[1..]
    {
      hide BlockPool.Allocate, Distinct, Views, BlockManager.View;
      s := waiting[0];
      var rest := waiting[1..];
      ghost var r := running;
      DistinctHead(r, waiting);
      ViewsTail(waiting);
      waiting := rest;
      ok := bm.Allocate(s);
      running := running + [s];
      ViewsSplit(r, [s]);
      ViewsOne(s);
    }

    ghost function Prefilling(batch: seq<Sequence>, tokens: nat): Prefill
      reads this, bm, bm.blocks, waiting, running, batch
    {
      Prefill(bm.View(), Views(waiting), Views(running), Views(batch), tokens)
    }

    /** One admission, batched unless the cache covers it all. */
    method PrefillTurn(batch: seq<Sequence>, tokens: nat) returns (ok: bool, batch': seq<Sequence>, tokens': nat)
      requires Valid() && waiting != [] && waiting[0].table == [] && forall b :: b in batch ==> b in running
      modifies this`waiting, this`running, bm`free, bm`used, bm`index, bm.blocks, waiting[0]
      ensures ok ==> Valid() && running + waiting == old(running + waiting) && waiting == old(waiting)[1..]
      ensures Views(waiting) == old(Views(waiting))[1..]
      ensures ok ==> forall b :: b in batch' ==> b in running
      ensures var r := Admit(bm.e, old(Prefilling(batch, tokens)));
              (ok <==> r.Some?) && (ok ==> r.value == Prefilling(batch', tokens'))
    {
      hide BlockPool.Allocate, BlockPool.CanAllocate, Distinct, Admit, Views;
      batch', tokens' := batch, tokens;
      ghost var all, st := running + waiting, Prefilling(batch, tokens);
      DistinctHead(running, waiting);
      AdmitIs(bm.e, st);
      var s;
      ok, s := AdmitHead();
      if !ok {
        return;
      }
      assert running + waiting == all;
      var compute := |s.tokens| - s.cached;
      if compute > 0 {
        ViewsSplit(batch, [s]);
        batch' := batch + [s];
        tokens' := tokens + compute;
      }
    }

    lemma AdmitIs(e: Env, st: Prefill)
      requires e.blockSize > 0 && st.waiting != []
      ensures var r := BlockPool.Allocate(e, st.pool, st.waiting[0]);
              && (Admit(e, st).None? <==> r.None?)
              && (r.Some? ==>
                    var t := r.value.1;
                    var more := if |t.tokens| > t.cached then [t] else [];
                    var count := if |t.tokens| > t.cached then |t.tokens| - t.cached else 0;
                    Admit(e, st) == Some(Prefill(r.value.0, st.waiting[1..], st.running + [t], st.batch + more,
                                                 st.tokens + count)))
    {
      hide BlockPool.Allocate;
      assert st.batch + [] == st.batch;
    }

    /** Admits from the head of the queue while the limits allow it. */
    method PrefillPass() returns (ok: bool, batch: seq<Sequence>, ghost tokens: nat)
      requires Valid() && IdleAll(Views(waiting))
      modifies this`waiting, this`running, bm`free, bm`used, bm`index, bm.blocks, waiting
      ensures var r := PrefillLoop(bm.e, cfg, old(Prefilling([], 0)));
              (ok <==> r.Some?) && (ok ==> r.value == Prefilling(batch, tokens))
      ensures ok ==> Valid() && running + waiting == old(running + waiting)
    {
      hide Admit, BlockPool.CanAllocate, Views, Idle, IdleAll, Distinct, BlockManager.View;
      batch, tokens := [], 0;
      var count: nat := 0;
      ok := true;
      assert Prefilling([], 0) == Prefilling(batch, count);
      while waiting != [] && |batch| < cfg.maxSeqs
        invariant Valid() && IdleAll(Views(waiting)) && ok && forall b :: b in batch ==> b in running
        invariant running + waiting == old(running + waiting) && forall s :: s in waiting ==> s in old(waiting)
        invariant PrefillLoop(bm.e, cfg, old(Prefilling([], 0))) == PrefillLoop(bm.e, cfg, Prefilling(batch, count))
        decreases |waiting|
      {
        var head := waiting[0];
        assert head in waiting;
        IdleHead(waiting);
        var can := bm.CanAllocate(head);
        if count + |head.tokens| > cfg.maxTokens || !can {
          break;
        }
        ok, batch, count := PrefillTurn(batch, count);
        if !ok {
          return;
        }
      }
      tokens := count;
    }

    ghost function Decoding(batch: seq<Sequence>): Decode
      reads this, bm, bm.blocks, waiting, running, batch
    {
      Decode(bm.View(), Views(waiting), Views(running), Views(batch))
    }

    /** Room is made for the oldest running sequence, which leaves the queue. */
    method TakeOldest(ghost batch: seq<Sequence>) returns (cur: Sequence, room: bool)
      requires bm.Valid() && Distinct(batch + (running + waiting)) && running != []
      requires AllInPool(Views(running), |bm.blocks|)
      modifies this`waiting, this`running, bm`free, bm`used, bm.blocks, running
      ensures cur == old(running)[0] && |running| < |old(running)| && running <= old(running)[1..]
      ensures room ==> running + waiting == old(running)[1..] + old(waiting) && AllInPool(Views(running), |bm.blocks|)
                       && cur.View() == old(cur.View()) && InPool(cur.View(), |bm.blocks|)
      ensures !room ==> running == [] && waiting == [cur] + (old(running)[1..] + old(waiting))
      ensures Views(batch) == old(Views(batch))
      ensures Room(bm.View(), Views(waiting), Views(running), room) ==
              Scheduling.MakeRoom(bm.e, old(bm.View()), old(Views(waiting)), old(Views(running))[1..],
                                  old(Views(running))[0])
    {
      hide Distinct, InPool, Scheduling.MakeRoom, Views, BlockManager.View;
      cur := running[0];
      var rest := running[1..];
      DistinctOldest(batch, running, waiting);
      ViewsTail(running);
      assert forall j :: 0 <= j < |batch| ==> batch[j] in batch && batch[j] !in running;
      assert forall i :: 0 <= i < |rest| ==> rest[i] == running[i + 1];
      running := rest;
      room := MakeRoom(cur);
    }

    /** One turn of a decode pass: the oldest running sequence joins the batch, or is the last to go. */
    method DecodeTurn(batch: seq<Sequence>) returns (ok: bool, room: bool, batch': seq<Sequence>)
      requires bm.Valid() && Distinct(batch + (running + waiting)) && running != []
      requires AllInPool(Views(running), |bm.blocks|)
      modifies this`waiting, this`running, bm`free, bm`used, bm`index, bm.blocks, running
      ensures ok ==> batch' + (running + waiting) == old(batch + (running + waiting))
      ensures |running| < |old(running)| && (forall i :: 0 <= i < |running| ==> running[i] in old(running))
      ensures ok && room ==> AllInPool(Views(running), |bm.blocks|) && |batch'| == |batch| + 1
      ensures !room ==> ok && running == []
      ensures var st := old(Decoding(batch));
              var rm := Scheduling.MakeRoom(bm.e, st.pool, st.waiting, st.running[1..], st.running[0]);
              && room == rm.ok
              && (!room ==> Decoding(batch') == Decode(rm.pool, rm.waiting, rm.running, st.batch))
              && (room ==> var r := BlockPool.MayAppend(bm.e, rm.pool, st.running[0]);
                           && (ok <==> r.Some?)
                           && (ok ==>
                                 Decoding(batch') == Decode(r.value.0, rm.waiting, rm.running, st.batch + [r.value.1])))
    {
      hide Distinct, InPool, Scheduling.MakeRoom, BlockPool.MayAppend, AllInPool, BlockManager.View, Views;
      ghost var r0, w0 := running, waiting;
      DistinctOldest(batch, r0, w0);
      var cur;
      cur, room := TakeOldest(batch);
      ok, batch' := true, batch;
      if room {
        ok, batch' := Join(batch, cur);
      } else {
        assert batch + ([] + waiting) == batch + [cur] + (r0[1..] + w0);
      }
    }

    /** `cur` appends and joins the batch. */
    method Join(batch: seq<Sequence>, cur: Sequence) returns (ok: bool, batch': seq<Sequence>)
      requires bm.Valid() && InPool(cur.View(), |bm.blocks|) && cur !in batch && cur !in running + waiting
      modifies bm`free, bm`used, bm`index, bm.blocks, cur
      ensures batch' == batch + [cur] && Views(running) == old(Views(running)) && Views(waiting) == old(Views(waiting))
      ensures var r := BlockPool.MayAppend(bm.e, old(bm.View()), old(cur.View()));
              (ok <==> r.Some?) && (ok ==> bm.View() == r.value.0 && Views(batch') == old(Views(batch)) + [r.value.1])
    {
      hide InPool, BlockPool.MayAppend;
      InPoolTable(cur.View(), |bm.blocks|);
      NotQueued(cur, running, waiting);
      ok := bm.MayAppend(cur);
      ViewsSplit(batch, [cur]);
      batch' := batch + [cur];
    }

    /** One decode pass. */
    method DecodePass() returns (ok: bool, batch: seq<Sequence>)
      requires Valid() && AllInPool(Views(running), |bm.blocks|)
      modifies this`waiting, this`running, bm`free, bm`used, bm`index, bm.blocks, running
      ensures var r := DecodeLoop(bm.e, cfg, old(Decoding([])));
              (ok <==> r.Some?) && (ok ==> r.value == Decoding(batch))
      ensures ok ==> batch + (running + waiting) == old(running + waiting)
    {
      hide BlockPool.MayAppend, Scheduling.MakeRoom, Views, InPool, Distinct, AllInPool;
      batch, ok := [], true;
      var room := true;
      while room && running != [] && |batch| < cfg.maxSeqs
        invariant ok && bm.Valid() && (room ==> AllInPool(Views(running), |bm.blocks|)) && (!room ==> running == [])
        invariant batch + (running + waiting) == old(running + waiting)
        invariant forall i :: 0 <= i < |running| ==> running[i] in old(running)
        invariant DecodeLoop(bm.e, cfg, old(Decoding([]))) == DecodeLoop(bm.e, cfg, Decoding(batch))
        decreases |running|
      {
        ok, room, batch := DecodeTurn(batch);
        if !ok {
          return;
        }
      }
    }

    /** A decode pass whose batch goes back to the front of the running queue. */
    method DecodeAll() returns (ok: bool, batch: seq<Sequence>)
      requires Valid() && AllInPool(Views(running), |bm.blocks|)
      modifies this`waiting, this`running, bm`free, bm`used, bm`index, bm.blocks, running
      ensures var r := DecodeLoop(bm.e, cfg, Decode(old(bm.View()), old(Views(waiting)), old(Views(running)), []));
              && (ok <==> r.Some?)
              && (ok ==> View() == Sched(r.value.pool, r.value.waiting, r.value.batch + r.value.running))
              && (ok ==> Views(batch) == r.value.batch)
      ensures ok ==> running + waiting == old(running + waiting)
    {
      hide DecodeLoop, Views, Distinct, InPool, AllInPool, BlockManager.Valid, BlockManager.View;
      ViewsNothing();
      ok, batch := DecodePass();
      if ok {
        Rejoin(batch);
      }
    }

    method Rejoin(batch: seq<Sequence>)
      modifies this`running
      ensures running + waiting == old(batch + (running + waiting)) && bm.View() == old(bm.View())
      ensures Views(running) == old(Views(batch) + Views(running)) && Views(waiting) == old(Views(waiting))
      ensures Views(batch) == old(Views(batch))
    {
      hide Views, BlockManager.View;
      ViewsSplit(batch, running);
      assert batch + running + waiting == batch + (running + waiting);
      running := batch + running;
    }

    /** One call of `schedule`: a prefill pass and, if it batched nothing, a decode pass. */
    method Schedule() returns (ok: bool, batch: seq<Sequence>, prefill: bool)
      requires Valid() && EnvOk(bm.e) && bm.e.blockSize > 1 && SchedOk(bm.e, View())
      modifies this`waiting, this`running, bm`free, bm`used, bm`index, bm.blocks, waiting, running
      ensures var r := Scheduling.Schedule(bm.e, cfg, old(View()));
              && (ok <==> r.Some?)
              && (ok ==> View() == r.value.sched && Views(batch) == r.value.batch && prefill == r.value.prefill)
      ensures ok ==> Valid() && running + waiting == old(running + waiting)
    {
      hide PrefillLoop, DecodeLoop, Views, Distinct, Good, IdleAll, SchedOk, InPool;
      ghost var start := View();
      StartParts(bm.e, start);
      ViewsNothing();
      ghost var tokens;
      ok, batch, tokens := PrefillPass();
      prefill := true;
      if !ok || batch != [] {
        return;
      }
      PrefillGood(bm.e, cfg, Prefill(start.pool, start.waiting, start.running, [], 0));
      GoodInPool(bm.e, bm.View(), Views(waiting), Views(running));
      SameObjects(running, waiting, old(running), old(waiting));
      ok, batch := DecodeAll();
      prefill := false;
    }

    /** Takes the `j`-th running sequence off its queue, its blocks returned. */
    method RemoveRunning(j: nat)
      requires Valid() && j < |running| && forall k :: 0 <= k < |running[j].table| ==> running[j].table[k] < |bm.blocks|
      modifies this`running, bm`free, bm`used, bm.blocks, running[j]
      ensures Valid() && Views(waiting) == old(Views(waiting))
      ensures bm.View() == DropAll(old(bm.View()), old(running[j].table))
      ensures Views(running) == old(Views(running))[..j] + old(Views(running))[j + 1..]
    {
      hide DropAll, Released, Distinct;
      var s, rest := running[j], running[..j] + running[j + 1..];
      DistinctMiddle(running, waiting, j);
      assert Views(rest) == Views(running)[..j] + Views(running)[j + 1..];
      bm.Deallocate(s);
      running := rest;
    }

    /** A finished sequence returns its blocks and leaves the running queue. */
    method Finish(s: Sequence)
      requires Valid() && NoDup(Ids(Views(running))) && s in running
      requires forall k :: 0 <= k < |s.table| ==> s.table[k] < |bm.blocks|
      modifies this`running, bm`free, bm`used, bm.blocks, s
      ensures Valid() && View() == ScheduleSteps.Leave(old(View()), s.id)
    {
      hide DropAll, Distinct, NoDup, ScheduleSteps.Without, ScheduleSteps.Find;
      var j := IndexOf(running, s);
      WithoutAt(Views(running), j);
      RemoveRunning(j);
    }

    /** Aborts a request by id, wherever it is; an unknown id is ignored. */
    method Cancel(id: nat)
      requires Valid() && NoDup(Ids(Views(running)) + Ids(Views(waiting))) && IdleAll(Views(waiting))
      requires AllInPool(Views(running), |bm.blocks|)
      modifies this`waiting, this`running, bm`free, bm`used, bm.blocks, waiting, running
      ensures Valid() && View() == ScheduleSteps.Leave(old(View()), id)
    {
      hide DropAll, Released, Distinct, InPool, Idle, NoDup, Views, BlockManager.View, ScheduleSteps.Find,
           ScheduleSteps.Without;
      IdsNoDup(Views(running), Views(waiting));
      var i := FindId(running, id);
      if i < |running| {
        InPoolTable(Views(running)[i], |bm.blocks|);
        FoundIn(Views(running), i, id);
        Finish(running[i]);
        return;
      }
      NotFound(Views(running), id);
      var j := FindId(waiting, id);
      if j < |waiting| {
        CancelWaiting(j);
      } else {
        NotFound(Views(waiting), id);
      }
    }

    /** A waiting request leaves its queue; it has no blocks to return. */
    method CancelWaiting(j: nat)
      requires Valid() && j < |waiting| && Idle(Views(waiting)[j]) && NoDup(Ids(Views(waiting)))
      modifies this`waiting, bm`free, bm`used, bm.blocks, waiting[j]
      ensures Valid() && running == old(running) && bm.View() == old(bm.View()) && Views(running) == old(Views(running))
      ensures Views(waiting) == ScheduleSteps.Without(old(Views(waiting)), old(waiting[j].id))
    {
      hide Distinct, NoDup, ScheduleSteps.Without, ScheduleSteps.Find;
      var s, rest := waiting[j], waiting[..j] + waiting[j + 1..];
      WithoutAt(Views(waiting), j);
      DistinctWaiting(running, waiting, j);
      assert Views(rest) == Views(waiting)[..j] + Views(waiting)[j + 1..];
      bm.Deallocate(s);
      waiting := rest;
    }
  }

  /** The same objects, however they are split. */
  lemma SameObjects(a: seq<Sequence>, b: seq<Sequence>, c: seq<Sequence>, d: seq<Sequence>)
    requires a + b == c + d
    ensures forall i :: 0 <= i < |a| ==> a[i] in c || a[i] in d
  {
    forall i | 0 <= i < |a| ensures a[i] in c || a[i] in d {
      assert a[i] == (a + b)[i] == (c + d)[i];
    }
  }

  lemma ViewsNothing()
    ensures Views([]) == []
  {
  }

  method IndexOf(ss: seq<Sequence>, s: Sequence) returns (j: nat)
    requires s in ss
    ensures j < |ss| && ss[j] == s
  {
    j := 0;
    while ss[j] != s
      invariant j < |ss| && s in ss[j..]
      decreases |ss| - j
    {
      j := j + 1;
    }
  }

  /** The place of the first sequence with that id, or past the end. */
  method FindId(ss: seq<Sequence>, id: nat) returns (j: nat)
    ensures j <= |ss| && (j < |ss| ==> ss[j].id == id) && forall k :: 0 <= k < j ==> ss[k].id != id
  {
    j := 0;
    while j < |ss| && ss[j].id != id
      invariant j <= |ss| && forall k :: 0 <= k < j ==> ss[k].id != id
    {
      j := j + 1;
    }
  }

  /** Removing the first with an id is removing at its place. */
  lemma {:induction false} WithoutAt(ss: seq<SeqState>, j: nat)
    requires j < |ss| && NoDup(Ids(ss))
    ensures ScheduleSteps.Without(ss, ss[j].id) == ss[..j] + ss[j + 1..]
    ensures ScheduleSteps.Find(ss, ss[j].id) == Some(ss[j])
    decreases |ss|
  {
    if j > 0 {
      assert Ids(ss)[0] != Ids(ss)[j];
      assert Ids(ss[1..]) == Ids(ss)[1..];
      WithoutAt(ss[1..], j - 1);
      assert [ss[0]] + (ss[1..][..j - 1] + ss[1..][j..]) == ss[..j] + ss[j + 1..];
    }
  }

  lemma FoundIn(ss: seq<SeqState>, i: nat, id: nat)
    requires i < |ss| && ss[i].id == id && NoDup(Ids(ss))
    ensures ScheduleSteps.Find(ss, id) == Some(ss[i])
  {
    WithoutAt(ss, i);
  }

  lemma {:induction false} NotFound(ss: seq<SeqState>, id: nat)
    requires forall k :: 0 <= k < |ss| ==> ss[k].id != id
    ensures ScheduleSteps.Find(ss, id).None? && ScheduleSteps.Without(ss, id) == ss
    decreases |ss|
  {
    if ss != [] { NotFound(ss[1..], id); }
  }

  lemma IdsNoDup(a: seq<SeqState>, b: seq<SeqState>)
    requires NoDup(Ids(a) + Ids(b))
    ensures NoDup(Ids(a)) && NoDup(Ids(b))
  {
    var all := Ids(a) + Ids(b);
    assert forall i :: 0 <= i < |a| ==> all[i] == Ids(a)[i];
    assert forall i :: 0 <= i < |b| ==> all[|a| + i] == Ids(b)[i];
  }

  lemma DistinctMiddle(running: seq<Sequence>, waiting: seq<Sequence>, j: nat)
    requires j < |running| && Distinct(running + waiting)
    ensures running[j] !in running[..j] && running[j] !in running[j + 1..] && running[j] !in waiting
    ensures Distinct(running[..j] + running[j + 1..] + waiting)
  {
    var all, left := running + waiting, running[..j] + running[j + 1..] + waiting;
    assert forall i :: 0 <= i < |left| ==> left[i] == all[if i < j then i else i + 1];
    assert all[j] == running[j];
    assert forall i :: 0 <= i < |running| ==> all[i] == running[i];
    assert forall i :: 0 <= i < |waiting| ==> all[|running| + i] == waiting[i];
  }

  lemma DistinctWaiting(running: seq<Sequence>, waiting: seq<Sequence>, j: nat)
    requires j < |waiting| && Distinct(running + waiting)
    ensures waiting[j] !in waiting[..j] && waiting[j] !in waiting[j + 1..] && waiting[j] !in running
    ensures Distinct(running + (waiting[..j] + waiting[j + 1..]))
  {
    var all, left, n := running + waiting, running + (waiting[..j] + waiting[j + 1..]), |running| + j;
    assert forall i :: 0 <= i < |left| ==> left[i] == all[if i < n then i else i + 1];
    assert all[n] == waiting[j];
    assert forall i :: 0 <= i < |running| ==> all[i] == running[i];
    assert forall i :: 0 <= i < |waiting| ==> all[|running| + i] == waiting[i];
  }

  lemma StartParts(e: Env, st: Sched)
    requires e.blockSize > 1 && SchedOk(e, st)
    ensures Good(e, st.pool, st.waiting, st.running) && IdleAll(st.waiting)
  {
  }

  lemma GoodInPool(e: Env, p: Pool, waiting: seq<SeqState>, running: seq<SeqState>)
    requires e.blockSize > 1 && Good(e, p, waiting, running)
    ensures AllInPool(running, |p.blocks|)
  {
    forall i | 0 <= i < |running|
      ensures InPool(running[i], |p.blocks|)
    {
      assert BlockAccounting.Live(e, p, running[i], Due(running[i]));
    }
  }

  lemma DistinctOldest(batch: seq<Sequence>, running: seq<Sequence>, waiting: seq<Sequence>)
    requires running != [] && Distinct(batch + (running + waiting))
    ensures var cur, rest := running[0], running[1..];
            && Distinct(rest + waiting) && cur !in rest + waiting && cur !in batch
            && (forall s :: s in batch ==> s !in running && s !in waiting)
               && batch + [cur] + (rest + waiting) == batch + (running + waiting)
  {
    var queue, rest := running + waiting, running[1..] + waiting;
    assert queue == [running[0]] + rest && batch + [running[0]] + rest == batch + queue;
    DistinctParts(batch, queue);
    DistinctParts([running[0]], rest);
    assert running[0] in [running[0]];
    forall s | s in batch
      ensures s !in running && s !in waiting
    {
      assert s !in queue;
    }
  }

  lemma NotQueued(cur: Sequence, running: seq<Sequence>, waiting: seq<Sequence>)
    requires cur !in running + waiting
    ensures cur !in running && cur !in waiting
  {
  }

  lemma DistinctParts(a: seq<Sequence>, b: seq<Sequence>)
    requires Distinct(a + b)
    ensures Distinct(b) && forall s :: s in a ==> s !in b
  {
    var all := a + b;
    assert forall i :: 0 <= i < |a| ==> all[i] == a[i];
    assert forall i :: 0 <= i < |b| ==> all[|a| + i] == b[i];
  }

  lemma IdleHead(waiting: seq<Sequence>)
    requires waiting != [] && IdleAll(Views(waiting))
    ensures waiting[0].table == [] && IdleAll(Views(waiting)[1..])
  {
    assert Idle(Views(waiting)[0]);
  }

  lemma DistinctHead(running: seq<Sequence>, waiting: seq<Sequence>)
    requires waiting != [] && Distinct(running + waiting)
    ensures waiting[0] !in running && waiting[0] !in waiting[1..]
    ensures running + [waiting[0]] + waiting[1..] == running + waiting
  {
    var head, rest := waiting[0], waiting[1..];
    assert [head] + rest == waiting && head in waiting && head in [head];
    DistinctParts(running, waiting);
    DistinctParts([head], rest);
  }

  lemma InPoolTable(s: SeqState, n: nat)
    requires InPool(s, n)
    ensures s.tokens != [] && s.table != [] && forall k :: 0 <= k < |s.table| ==> s.table[k] < n
  {
  }

  lemma ViewsTail(ss: seq<Sequence>)
    requires ss != []
    ensures Views(ss)[0] == ss[0].View() && Views(ss[1..]) == Views(ss)[1..]
  {
  }

  lemma ViewsOne(s: Sequence)
    ensures Views([s]) == [s.View()]
  {
  }

  lemma ViewsCons(s: Sequence, ss: seq<Sequence>)
    ensures Views([s] + ss) == [s.View()] + Views(ss)
  {
  }
}
