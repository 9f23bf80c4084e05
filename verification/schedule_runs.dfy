/** What every step of the scheduler keeps: the pool accounted for by the running tables, each running
    sequence ready for its next token, each waiting one without blocks, and no failed assertion.
 */
module ScheduleRuns {
  import opened BlockAccounting
  import opened BlockPool
  import opened Outcomes
  import opened Scheduling

  // ---------------------------------------------------------------- tables of many sequences

  /** How many times each block occurs in the tables of `ss`. */
  function Refs(ss: seq<SeqState>): multiset<nat> {
    if ss == [] then multiset{} else Refs(ss[..|ss| - 1]) + multiset(ss[|ss| - 1].table)
  }

  lemma RefsSnoc(ss: seq<SeqState>, s: SeqState)
    ensures Refs(ss + [s]) == Refs(ss) + multiset(s.table)
  {
    assert (ss + [s])[..|ss|] == ss;
  }

  lemma {:induction false} RefsSplit(a: seq<SeqState>, b: seq<SeqState>)
    ensures Refs(a + b) == Refs(a) + Refs(b)
    decreases |b|
  {
    hide Refs;
    if b == [] {
      assert a + b == a;
      RefsNone();
    } else {
      var b', s := b[..|b| - 1], b[|b| - 1];
      assert b == b' + [s] && a + b == a + b' + [s];
      RefsSplit(a, b');
      RefsSnoc(a + b', s);
      RefsSnoc(b', s);
    }
  }

  lemma RefsNone()
    ensures Refs([]) == multiset{}
  {
  }

  lemma RefsCons(s: SeqState, ss: seq<SeqState>)
    ensures Refs([s] + ss) == multiset(s.table) + Refs(ss)
  {
    RefsSplit([s], ss);
    assert [s][..0] == [];
  }

  lemma {:induction false} RefsContain(ss: seq<SeqState>, i: nat)
    requires i < |ss|
    ensures multiset(ss[i].table) <= Refs(ss)
    decreases |ss|
  {
    if i < |ss| - 1 { RefsContain(ss[..|ss| - 1], i); }
  }

  // ---------------------------------------------------------------- the invariant

  /** Length at the next decode step. */
  function Due(s: SeqState): nat {
    |s.tokens| + if s.pending then 1 else 0
  }

  ghost predicate LiveAll(e: Env, p: Pool, ss: seq<SeqState>)
    requires e.blockSize > 1
  {
    forall i :: 0 <= i < |ss| ==> Live(e, p, ss[i], Due(ss[i]))
  }

  /** A waiting sequence has a prompt and no blocks. */
  predicate Idle(s: SeqState) {
    s.tokens != [] && s.table == [] && s.cached == 0 && !s.pending
  }

  predicate IdleAll(ss: seq<SeqState>) {
    forall i :: 0 <= i < |ss| ==> Idle(ss[i])
  }

  ghost predicate Good(e: Env, p: Pool, waiting: seq<SeqState>, running: seq<SeqState>)
    requires e.blockSize > 1
  {
    Accounted(p, Refs(running)) && LiveAll(e, p, running) && IdleAll(waiting)
  }

  lemma LiveStays(e: Env, p: Pool, q: Pool, refs: multiset<nat>, ss: seq<SeqState>)
    requires e.blockSize > 1 && LiveAll(e, p, ss) && Kept(p, q, refs) && Refs(ss) <= refs
    ensures LiveAll(e, q, ss)
  {
    forall i | 0 <= i < |ss|
      ensures Live(e, q, ss[i], Due(ss[i]))
    {
      RefsContain(ss, i);
      LiveOneStays(e, p, q, refs, ss[i], Due(ss[i]));
    }
  }

  lemma LiveOneStays(e: Env, p: Pool, q: Pool, refs: multiset<nat>, s: SeqState, n: nat)
    requires e.blockSize > 1 && Live(e, p, s, n) && Kept(p, q, refs) && multiset(s.table) <= refs
    ensures Live(e, q, s, n)
  {
    var last := s.table[|s.table| - 1];
    assert last in multiset(s.table);
  }

  // ---------------------------------------------------------------- prefill

  /** One admission cannot fail and keeps everything good. */
  lemma AdmitGood(e: Env, st: Prefill) returns (t: SeqState)
    requires EnvOk(e) && e.blockSize > 1 && st.waiting != [] && CanAllocate(e, st.pool, st.waiting[0])
    requires Good(e, st.pool, st.waiting, st.running)
    ensures Admit(e, st).Some? && AllocatedFor(e, st.pool, Refs(st.running), st.waiting[0], Admit(e, st).value.pool, t)
    ensures var next := Admit(e, st).value;
            && Good(e, next.pool, next.waiting, next.running) && next.running == st.running + [t]
            && next.waiting == st.waiting[1..]
            && next.batch == (if t.pending then st.batch + [t] else st.batch)
            && next.tokens == st.tokens + (|t.tokens| - t.cached)
  {
    hide Accounted, Kept, Untouched, Refs, Live, CanAllocate, NumBlocks, Allocate;
    var s := st.waiting[0];
    assert Idle(s);
    var q;
    q, t := AllocateAccountedFor(e, st.pool, Refs(st.running), s);
    RefsSnoc(st.running, t);
    LiveStays(e, st.pool, q, Refs(st.running), st.running);
    var next := Admit(e, st).value;
    assert next.running == st.running + [t];
    assert Due(t) == if t.cached == |s.tokens| then |s.tokens| else |s.tokens| + 1;
  }

  /** Prefill cannot fail. */
  lemma {:induction false} PrefillGood(e: Env, cfg: Config, st: Prefill)
    requires EnvOk(e) && e.blockSize > 1 && Good(e, st.pool, st.waiting, st.running)
    ensures PrefillLoop(e, cfg, st).Some?
    ensures var r := PrefillLoop(e, cfg, st).value; Good(e, r.pool, r.waiting, r.running)
    decreases |st.waiting|
  {
    hide Good, Admit;
    if Admissible(e, cfg, st) {
      var t := AdmitGood(e, st);
      PrefillGood(e, cfg, Admit(e, st).value);
    }
  }

  // ---------------------------------------------------------------- decode

  /** Preempting a sequence: its blocks go back, it waits again. */
  lemma PreemptGood(e: Env, p: Pool, refs: multiset<nat>, waiting: seq<SeqState>, running: seq<SeqState>,
                    last: SeqState)
    requires e.blockSize > 1 && Accounted(p, refs + multiset(last.table) + Refs(running)) && LiveAll(e, p, running)
    requires IdleAll(waiting) && last.tokens != []
    ensures var q := DropAll(p, last.table);
            && Accounted(q, refs + Refs(running)) && LiveAll(e, q, running) && Kept(p, q, refs + Refs(running))
            && IdleAll([Released(last)] + waiting) && |q.free| >= |p.free|
  {
    hide Accounted, Refs, LiveAll, Kept, DropAll;
    assert refs + multiset(last.table) + Refs(running) == refs + Refs(running) + multiset(last.table);
    DropAllAccounted(p, refs + Refs(running), last.table);
    LiveStays(e, p, DropAll(p, last.table), refs + Refs(running), running);
  }

  /** Making room keeps everything good, `refs` being the tables of the sequences decoded before. */
  lemma {:induction false} RoomGood(e: Env, p: Pool, refs: multiset<nat>, waiting: seq<SeqState>,
                                    running: seq<SeqState>, cur: SeqState)
    requires e.blockSize > 1 && Accounted(p, refs + multiset(cur.table) + Refs(running)) && LiveAll(e, p, running)
    requires IdleAll(waiting) && cur.tokens != [] && forall i :: 0 <= i < |running| ==> running[i].tokens != []
    ensures var r := MakeRoom(e, p, waiting, running, cur);
            var front := if r.ok then refs + multiset(cur.table) else refs;
            && Accounted(r.pool, front + Refs(r.running)) && LiveAll(e, r.pool, r.running) && IdleAll(r.waiting)
            && Kept(p, r.pool, front) && (r.ok ==> CanAppend(e, r.pool, cur)) && (!r.ok ==> r.running == [])
               && r.running <= running
    decreases |running|
  {
    hide Accounted, Refs, LiveAll, Kept, DropAll, CanAppend, IdleAll, Released;
    var front := refs + multiset(cur.table);
    if CanAppend(e, p, cur) {
      KeptSelf(p, front);
    } else if running != [] {
      var last, rest := running[|running| - 1], running[..|running| - 1];
      assert running == rest + [last];
      RefsSnoc(rest, last);
      LiveFront(e, p, running);
      assert front + Refs(running) == front + multiset(last.table) + Refs(rest);
      PreemptGood(e, p, front, waiting, rest, last);
      var q := DropAll(p, last.table);
      RoomGood(e, q, refs, [Released(last)] + waiting, rest, cur);
      KeptLess(p, q, front, Refs(rest));
      KeptBoth(p, q, MakeRoom(e, q, [Released(last)] + waiting, rest, cur).pool, refs, multiset(cur.table));
    } else {
      RefsNone();
      assert refs + multiset(cur.table) + Refs(running) == refs + multiset(cur.table) + Refs([]);
      PreemptGood(e, p, refs, waiting, [], cur);
      KeptLess(p, DropAll(p, cur.table), refs, Refs([]));
    }
  }

  lemma KeptSelf(p: Pool, refs: multiset<nat>)
    ensures Kept(p, p, refs)
  {
  }

  lemma LiveFront(e: Env, p: Pool, ss: seq<SeqState>)
    requires e.blockSize > 1 && ss != [] && LiveAll(e, p, ss)
    ensures LiveAll(e, p, ss[..|ss| - 1]) && LiveAll(e, p, ss[1..]) && Live(e, p, ss[0], Due(ss[0]))
  {
    hide Live;
  }

  lemma KeptLess(p: Pool, q: Pool, refs: multiset<nat>, more: multiset<nat>)
    requires Kept(p, q, refs + more)
    ensures Kept(p, q, refs)
  {
  }

  lemma KeptBoth(p: Pool, q: Pool, r: Pool, refs: multiset<nat>, more: multiset<nat>)
    requires Kept(p, q, refs + more)
    ensures Kept(q, r, refs + more) ==> Kept(p, r, refs + more)
    ensures Kept(q, r, refs) ==> Kept(p, r, refs)
  {
  }

  /** The block each batched sequence writes its token to is in no other table, unless its prompt came
      entirely from the cache. */
  ghost predicate OwnLasts(refs: multiset<nat>, batch: seq<SeqState>) {
    forall i :: 0 <= i < |batch| && |batch[i].tokens| > batch[i].admitted ==>
      batch[i].table != [] && Own(refs, batch[i].table[|batch[i].table| - 1])
  }

  /** Multiplicities of blocks already in use do not grow. */
  ghost predicate NoMore(refs: multiset<nat>, refs': multiset<nat>) {
    forall id: nat :: id in refs ==> refs'[id] <= refs[id]
  }

  lemma OwnStays(refs: multiset<nat>, refs': multiset<nat>, batch: seq<SeqState>)
    requires OwnLasts(refs, batch) && NoMore(refs, refs') && Refs(batch) <= refs'
    ensures OwnLasts(refs', batch)
  {
    forall i | 0 <= i < |batch| && |batch[i].tokens| > batch[i].admitted
      ensures Own(refs', batch[i].table[|batch[i].table| - 1])
    {
      RefsContain(batch, i);
      assert batch[i].table[|batch[i].table| - 1] in multiset(batch[i].table);
    }
  }

  /** The state of a decode pass: the batch has its blocks, the rest are as they were. */
  ghost predicate DecodeOk(e: Env, st: Decode)
    requires e.blockSize > 1
  {
    && Accounted(st.pool, Refs(st.batch) + Refs(st.running))
    && LiveAll(e, st.pool, st.batch) && LiveAll(e, st.pool, st.running) && IdleAll(st.waiting)
    && (forall i :: 0 <= i < |st.batch| ==> st.batch[i].pending)
    && OwnLasts(Refs(st.batch) + Refs(st.running), st.batch)
  }

  /** No token is owed to anybody. */
  predicate Settled(ss: seq<SeqState>) {
    forall i :: 0 <= i < |ss| ==> !ss[i].pending
  }

  /** In this decode pass the turn comes to a sequence that `may_append` asserts against. */
  predicate FaultyTurn(e: Env, cfg: Config, st: Decode)
    requires e.blockSize > 1
    decreases |st.running|
  {
    if st.running == [] || |st.batch| >= cfg.maxSeqs then false
    else
      var cur := st.running[0];
      var room := MakeRoom(e, st.pool, st.waiting, st.running[1..], cur);
      RoomShrinks(e, st.pool, st.waiting, st.running[1..], cur);
      if !room.ok then false
      else if Faulty(e, cur) then true
      else
        var next := AfterTurn(e, room, cur, st.batch);
        next.Some? && FaultyTurn(e, cfg, next.value)
  }

  /** The pass after the turn of `cur`. */
  function AfterTurn(e: Env, room: Room, cur: SeqState, batch: seq<SeqState>): (r: Option<Decode>)
    requires e.blockSize > 0
    ensures r.Some? ==> r.value.running == room.running
  {
    var r := MayAppend(e, room.pool, cur);
    if r.None? then None else Some(Decode(r.value.0, room.waiting, room.running, batch + [r.value.1]))
  }

  lemma RefsPrefix(a: seq<SeqState>, b: seq<SeqState>)
    requires a <= b
    ensures Refs(a) <= Refs(b)
  {
    hide Refs;
    assert b == a + b[|a|..];
    RefsSplit(a, b[|a|..]);
  }

  /** A table that grew by a block nobody held, while others only shrank. */
  lemma GrownNoMore(front: multiset<nat>, rest: multiset<nat>, left: multiset<nat>, table: seq<nat>, table': seq<nat>)
    requires left <= rest
    requires table' == table
             || (table' != [] && table'[..|table'| - 1] == table
                 && table'[|table'| - 1] !in front + left + multiset(table))
    ensures NoMore(front + (multiset(table) + rest), front + multiset(table') + left)
  {
    if table' != table {
      assert table' == table + [table'[|table'| - 1]];
    }
  }

  /** One sequence of a decode pass, room made for it. */
  lemma AppendGood(e: Env, st: Decode, p: Pool, waiting: seq<SeqState>, left: seq<SeqState>)
    requires EnvOk(e) && e.blockSize > 1 && DecodeOk(e, st) && st.running != [] && !st.running[0].pending
    requires Accounted(p, Refs(st.batch) + multiset(st.running[0].table) + Refs(left)) && left <= st.running[1..]
    requires LiveAll(e, p, left) && IdleAll(waiting) && Kept(st.pool, p, Refs(st.batch) + multiset(st.running[0].table))
    requires CanAppend(e, p, st.running[0])
    ensures MayAppend(e, p, st.running[0]).None? <==> Faulty(e, st.running[0])
    ensures MayAppend(e, p, st.running[0]).Some? ==>
              var r := MayAppend(e, p, st.running[0]).value; DecodeOk(e, Decode(r.0, waiting, left, st.batch + [r.1]))
  {
    hide Accounted, Refs, Live, Kept, CanAppend, Idle, Faulty, MayAppend, OwnLasts, NoMore;
    var cur, front, others := st.running[0], Refs(st.batch), Refs(st.batch) + Refs(left);
    LiveOneStays(e, st.pool, p, front + multiset(cur.table), cur, |cur.tokens|);
    LiveStays(e, st.pool, p, front + multiset(cur.table), st.batch);
    assert front + multiset(cur.table) + Refs(left) == others + multiset(cur.table);
    MayAppendAccounted(e, p, others, cur);
    if MayAppend(e, p, cur).Some? {
      var q, t := MayAppend(e, p, cur).value.0, MayAppend(e, p, cur).value.1;
      LiveStays(e, p, q, others, st.batch);
      LiveStays(e, p, q, others, left);
      RefsSnoc(st.batch, t);
      assert others + multiset(t.table) == Refs(st.batch + [t]) + Refs(left);
      OwnGrows(e, st, others, cur, t, left);
    }
  }

  lemma OwnGrows(e: Env, st: Decode, others: multiset<nat>, cur: SeqState, t: SeqState, left: seq<SeqState>)
    requires st.running != [] && cur == st.running[0] && left <= st.running[1..]
    requires others == Refs(st.batch) + Refs(left)
    requires OwnLasts(Refs(st.batch) + Refs(st.running), st.batch)
    requires t.table != []
    requires (t.table == cur.table
              || (t.table[..|t.table| - 1] == cur.table && t.table[|t.table| - 1] !in others + multiset(cur.table)))
    requires |t.tokens| > t.admitted ==> Own(others + multiset(t.table), t.table[|t.table| - 1])
    ensures OwnLasts(Refs(st.batch + [t]) + Refs(left), st.batch + [t])
  {
    hide Refs, NoMore, Own, OwnLasts;
    var front, rest := Refs(st.batch), Refs(st.running[1..]);
    assert st.running == [cur] + st.running[1..];
    RefsCons(cur, st.running[1..]);
    RefsPrefix(left, st.running[1..]);
    assert others + multiset(cur.table) == front + Refs(left) + multiset(cur.table);
    GrownNoMore(front, rest, Refs(left), cur.table, t.table);
    RefsSnoc(st.batch, t);
    var all' := front + multiset(t.table) + Refs(left);
    assert all' == others + multiset(t.table);
    OwnStays(front + (multiset(cur.table) + rest), all', st.batch);
    OwnSnoc(all', st.batch, t);
  }

  lemma OwnSnoc(all: multiset<nat>, batch: seq<SeqState>, t: SeqState)
    requires OwnLasts(all, batch)
    requires |t.tokens| > t.admitted ==> t.table != [] && Own(all, t.table[|t.table| - 1])
    ensures OwnLasts(all, batch + [t])
  {
  }

  /** A decode pass fails exactly if the turn comes to a sequence `may_append` asserts against; otherwise it
      keeps everything good. */
  lemma {:induction false} DecodeGood(e: Env, cfg: Config, st: Decode)
    requires EnvOk(e) && e.blockSize > 1 && DecodeOk(e, st) && Settled(st.running)
    ensures DecodeLoop(e, cfg, st).None? <==> FaultyTurn(e, cfg, st)
    ensures DecodeLoop(e, cfg, st).Some? ==>
              DecodeOk(e, DecodeLoop(e, cfg, st).value) && Settled(DecodeLoop(e, cfg, st).value.running)
    decreases |st.running|
  {
    hide Accounted, Refs, Live, Kept, CanAppend, Idle, IdleAll, Faulty, MayAppend, OwnLasts, MakeRoom, Own;
    if st.running != [] && |st.batch| < cfg.maxSeqs {
      var cur, rest := st.running[0], st.running[1..];
      assert st.running == [cur] + rest;
      LiveFront(e, st.pool, st.running);
      RefsCons(cur, rest);
      assert Refs(st.batch) + Refs(st.running) == Refs(st.batch) + multiset(cur.table) + Refs(rest);
      LiveHaveTokens(e, st.pool, st.running);
      RoomGood(e, st.pool, Refs(st.batch), st.waiting, rest, cur);
      var room := MakeRoom(e, st.pool, st.waiting, rest, cur);
      if room.ok {
        AppendGood(e, st, room.pool, room.waiting, room.running);
        if MayAppend(e, room.pool, cur).Some? {
          DecodeGood(e, cfg, AfterTurn(e, room, cur, st.batch).value);
        }
      } else {
        NotOkGood(e, st, room);
      }
    }
  }

  lemma LiveHaveTokens(e: Env, p: Pool, ss: seq<SeqState>)
    requires e.blockSize > 1 && LiveAll(e, p, ss)
    ensures forall i :: 0 <= i < |ss| ==> ss[i].tokens != []
  {
    forall i | 0 <= i < |ss| ensures ss[i].tokens != [] {
      assert Live(e, p, ss[i], Due(ss[i]));
    }
  }

  lemma NotOkGood(e: Env, st: Decode, room: Room)
    requires e.blockSize > 1 && DecodeOk(e, st) && room.running == []
    requires Accounted(room.pool, Refs(st.batch) + Refs([])) && Kept(st.pool, room.pool, Refs(st.batch))
    requires IdleAll(room.waiting)
    ensures DecodeOk(e, Decode(room.pool, room.waiting, room.running, st.batch))
  {
    hide Accounted, Refs, Live, Kept, Idle, IdleAll, NoMore;
    RefsNone();
    LiveStays(e, st.pool, room.pool, Refs(st.batch), st.batch);
    assert NoMore(Refs(st.batch) + Refs(st.running),
                  Refs(st.batch) + Refs([])) by { LessNoMore(Refs(st.batch), Refs(st.running)); }
    OwnStays(Refs(st.batch) + Refs(st.running), Refs(st.batch) + Refs([]), st.batch);
  }

  lemma LessNoMore(refs: multiset<nat>, more: multiset<nat>)
    ensures NoMore(refs + more, refs + multiset{})
  {
  }

  // ---------------------------------------------------------------- the batch

  /** The sequences whose next token is being computed. */
  function Pending(ss: seq<SeqState>): (r: seq<SeqState>)
    ensures forall s :: s in r ==> s in ss && s.pending
  {
    if ss == [] then []
    else Pending(ss[..|ss| - 1]) + if ss[|ss| - 1].pending then [ss[|ss| - 1]] else []
  }

  lemma PendingSnoc(ss: seq<SeqState>, s: SeqState)
    ensures Pending(ss + [s]) == if s.pending then Pending(ss) + [s] else Pending(ss)
  {
    assert (ss + [s])[..|ss|] == ss;
  }

  lemma {:induction false} PendingRefs(ss: seq<SeqState>)
    ensures Refs(Pending(ss)) <= Refs(ss)
    decreases |ss|
  {
    hide Refs, Pending;
    if ss == [] {
      NonePending(ss);
    } else {
      var front, s := ss[..|ss| - 1], ss[|ss| - 1];
      assert ss == front + [s];
      PendingRefs(front);
      PendingSnoc(front, s);
      RefsSnoc(Pending(front), s);
      RefsSnoc(front, s);
    }
  }

  lemma {:induction false} AllPending(batch: seq<SeqState>, rest: seq<SeqState>)
    requires forall i :: 0 <= i < |batch| ==> batch[i].pending
    requires forall i :: 0 <= i < |rest| ==> !rest[i].pending
    ensures Pending(batch + rest) == batch
    decreases |batch| + |rest|
  {
    hide Pending;
    if rest != [] {
      var front, s := rest[..|rest| - 1], rest[|rest| - 1];
      assert batch + rest == batch + front + [s];
      AllPending(batch, front);
      PendingSnoc(batch + front, s);
    } else if batch != [] {
      var front, s := batch[..|batch| - 1], batch[|batch| - 1];
      assert front + [] == front && batch + rest == front + [s];
      AllPending(front, []);
      PendingSnoc(front, s);
    } else {
      NonePending([]);
    }
  }

  // ---------------------------------------------------------------- write isolation of a prefill

  /** Block `b` of the `k`-th batched sequence is written by it alone: no table from before the batch has
      it, it is once in the sequence's own table, and in no earlier table of the batch. */
  ghost predicate WriteApart(refs: multiset<nat>, batch: seq<SeqState>, k: nat, b: nat)
    requires k < |batch| && b < |batch[k].table|
  {
    var id := batch[k].table[b];
    && id !in refs
    && (forall j :: 0 <= j < |batch[k].table| && j != b ==> batch[k].table[j] != id)
    && (forall i :: 0 <= i < k ==> id !in batch[i].table)
  }

  ghost predicate WritesApart(e: Env, refs: multiset<nat>, batch: seq<SeqState>)
    requires e.blockSize > 0
  {
    forall k, b :: 0 <= k < |batch| && batch[k].cached / e.blockSize <= b < |batch[k].table| ==>
      WriteApart(refs, batch, k, b)
  }

  lemma OwnIsOnce(refs: multiset<nat>, table: seq<nat>, b: nat)
    requires b < |table| && Own(refs + multiset(table), table[b])
    ensures table[b] !in refs && forall j :: 0 <= j < |table| && j != b ==> table[j] != table[b]
  {
    var id := table[b];
    assert id in multiset(table);
    forall j | 0 <= j < |table| && j != b
      ensures table[j] != id
    {
      TwiceCounts(table, if j < b then j else b, if j < b then b else j);
    }
  }

  lemma TwiceCounts(table: seq<nat>, lo: nat, hi: nat)
    requires lo < hi < |table|
    ensures table[lo] == table[hi] ==> multiset(table)[table[hi]] >= 2
  {
    var id := table[hi];
    assert table == table[..hi] + [id] + table[hi + 1..];
    assert multiset(table) == multiset(table[..hi]) + multiset{id} + multiset(table[hi + 1..]);
    assert table[lo] in table[..hi];
  }

  lemma WritesApartNext(e: Env, refs: multiset<nat>, running: seq<SeqState>, batch: seq<SeqState>, t: SeqState)
    requires e.blockSize > 0 && refs <= Refs(running) && Refs(batch) <= Refs(running) && WritesApart(e, refs, batch)
    requires forall b :: t.cached / e.blockSize <= b < |t.table| ==> Own(Refs(running) + multiset(t.table), t.table[b])
    ensures WritesApart(e, refs, batch + [t])
  {
    hide Refs;
    var batch' := batch + [t];
    forall k, b | 0 <= k < |batch'| && batch'[k].cached / e.blockSize <= b < |batch'[k].table|
      ensures WriteApart(refs, batch', k, b)
    {
      if k < |batch| {
        assert WriteApart(refs, batch, k, b);
      } else {
        OwnIsOnce(Refs(running), t.table, b);
        forall i | 0 <= i < k
          ensures t.table[b] !in batch[i].table
        {
          RefsContain(batch, i);
          assert t.table[b] !in multiset(batch[i].table);
        }
      }
    }
  }

  /** What a prefill pass has scheduled, on top of the tables `refs` there were. */
  ghost predicate PrefillOk(e: Env, refs: multiset<nat>, st: Prefill)
    requires e.blockSize > 1
  {
    && Good(e, st.pool, st.waiting, st.running) && refs <= Refs(st.running)
    && st.batch == Pending(st.running) && WritesApart(e, refs, st.batch)
  }

  lemma AdmitOk(e: Env, refs: multiset<nat>, st: Prefill)
    requires EnvOk(e) && e.blockSize > 1 && st.waiting != [] && CanAllocate(e, st.pool, st.waiting[0])
    requires PrefillOk(e, refs, st)
    ensures Admit(e, st).Some? && PrefillOk(e, refs, Admit(e, st).value)
  {
    hide Good, Refs, Admit, Live, Accounted, Kept, Untouched, CanAllocate, WritesApart, Own, NumBlocks;
    var t := AdmitGood(e, st);
    RefsSnoc(st.running, t);
    PendingSnoc(st.running, t);
    PendingRefs(st.running);
    WritesApartNext(e, refs, st.running, st.batch, t);
  }

  lemma {:induction false} PrefillStaysOk(e: Env, cfg: Config, refs: multiset<nat>, st: Prefill)
    requires EnvOk(e) && e.blockSize > 1 && PrefillOk(e, refs, st)
    ensures PrefillLoop(e, cfg, st).Some? && PrefillOk(e, refs, PrefillLoop(e, cfg, st).value)
    decreases |st.waiting|
  {
    hide PrefillOk, Admit;
    if Admissible(e, cfg, st) {
      AdmitOk(e, refs, st);
      var t := AdmitMoves(e, st);
      PrefillStaysOk(e, cfg, refs, Admit(e, st).value);
    }
  }

  // ---------------------------------------------------------------- one call of schedule

  /** Between steps: everything good, and no token owed. */
  ghost predicate SchedOk(e: Env, st: Sched)
    requires e.blockSize > 1
  {
    Good(e, st.pool, st.waiting, st.running) && Settled(st.running)
  }

  /** A scheduled batch: exactly the sequences whose token is being computed, every block they write
      theirs alone. */
  ghost predicate BatchOk(e: Env, st: Sched, r: Scheduled)
    requires e.blockSize > 1
  {
    && Good(e, r.sched.pool, r.sched.waiting, r.sched.running) && r.batch == Pending(r.sched.running)
    && if r.prefill then WritesApart(e, Refs(st.running), r.batch) else OwnLasts(Refs(r.sched.running), r.batch)
  }

  lemma {:induction false} NonePending(ss: seq<SeqState>)
    requires forall i :: 0 <= i < |ss| ==> !ss[i].pending
    ensures Pending(ss) == []
    decreases |ss|
  {
    if ss != [] { NonePending(ss[..|ss| - 1]); }
  }

  lemma {:induction false} PendingNone(ss: seq<SeqState>)
    requires Pending(ss) == []
    ensures forall i :: 0 <= i < |ss| ==> !ss[i].pending
    decreases |ss|
  {
    if ss != [] { PendingNone(ss[..|ss| - 1]); }
  }

  lemma StartOk(e: Env, st: Sched)
    requires e.blockSize > 1 && SchedOk(e, st)
    ensures PrefillOk(e, Refs(st.running), Prefill(st.pool, st.waiting, st.running, [], 0))
  {
    hide Good, Refs;
    NonePending(st.running);
  }

  lemma TurnToDecode(e: Env, refs: multiset<nat>, st: Prefill)
    requires e.blockSize > 1 && PrefillOk(e, refs, st) && st.batch == []
    ensures DecodeOk(e, Decode(st.pool, st.waiting, st.running, [])) && Settled(st.running)
  {
    hide Accounted, Refs, Live;
    PendingNone(st.running);
    RefsNone();
    assert Refs([]) + Refs(st.running) == Refs(st.running);
  }

  lemma DecodedOk(e: Env, st: Decode)
    requires e.blockSize > 1 && DecodeOk(e, st) && Settled(st.running)
    ensures Good(e, st.pool, st.waiting, st.batch + st.running) && Pending(st.batch + st.running) == st.batch
    ensures OwnLasts(Refs(st.batch + st.running), st.batch)
  {
    hide Accounted, Refs, Live;
    RefsSplit(st.batch, st.running);
    AllPending(st.batch, st.running);
  }

  /** In this call of `schedule` the turn comes to a sequence that `may_append` asserts against: prefill
      batches nobody and the decode pass gets to it. */
  predicate FaultyStep(e: Env, cfg: Config, st: Sched)
    requires e.blockSize > 1
  {
    var pre := PrefillLoop(e, cfg, Prefill(st.pool, st.waiting, st.running, [], 0));
    && pre.Some? && pre.value.batch == []
    && FaultyTurn(e, cfg, Decode(pre.value.pool, pre.value.waiting, pre.value.running, []))
  }

  /** A call of `schedule` fails exactly if the turn comes to a sequence that `may_append` asserts against.
      Otherwise it keeps the blocks accounted for, and schedules sequences each of whose written blocks is
      nobody else's. */
  lemma ScheduleGood(e: Env, cfg: Config, st: Sched)
    requires EnvOk(e) && e.blockSize > 1 && SchedOk(e, st)
    ensures Schedule(e, cfg, st).None? <==> FaultyStep(e, cfg, st)
    ensures Schedule(e, cfg, st).Some? ==> BatchOk(e, st, Schedule(e, cfg, st).value)
  {
    hide PrefillLoop, DecodeLoop, PrefillOk, DecodeOk, FaultyTurn, SchedOk, Good, WritesApart, OwnLasts, Refs, Pending;
    var start := Prefill(st.pool, st.waiting, st.running, [], 0);
    StartOk(e, st);
    PrefillStaysOk(e, cfg, Refs(st.running), start);
    var pre := PrefillLoop(e, cfg, start).value;
    PrefilledOk(e, Refs(st.running), pre);
    if pre.batch == [] {
      TurnToDecode(e, Refs(st.running), pre);
      var turn := Decode(pre.pool, pre.waiting, pre.running, []);
      DecodeGood(e, cfg, turn);
      if DecodeLoop(e, cfg, turn).Some? {
        DecodedOk(e, DecodeLoop(e, cfg, turn).value);
      }
    }
  }

  lemma PrefilledOk(e: Env, refs: multiset<nat>, st: Prefill)
    requires e.blockSize > 1 && PrefillOk(e, refs, st)
    ensures Good(e, st.pool, st.waiting, st.running) && st.batch == Pending(st.running)
    ensures WritesApart(e, refs, st.batch)
  {
  }

  /** The assertion is reached: an uncached prompt of whole blocks fails at its first decode. */
  lemma FaultyHeadFails(e: Env, cfg: Config, st: Sched)
    requires EnvOk(e) && e.blockSize > 1 && SchedOk(e, st) && st.waiting == [] && st.running != [] && cfg.maxSeqs > 0
    requires Faulty(e, st.running[0]) && CanAppend(e, st.pool, st.running[0])
    ensures Schedule(e, cfg, st).None?
  {
    hide Accounted, MayAppend, CanAppend, Refs, Live;
    var cur, rest := st.running[0], st.running[1..];
    assert st.running == [cur] + rest;
    RefsCons(cur, rest);
    assert Refs(st.running) == Refs(rest) + multiset(cur.table);
    assert Live(e, st.pool, cur, Due(cur));
    MayAppendAccounted(e, st.pool, Refs(rest), cur);
    var start := Prefill(st.pool, st.waiting, st.running, [], 0);
    assert PrefillLoop(e, cfg, start) == Some(start);
    assert MakeRoom(e, st.pool, st.waiting, rest, cur).ok;
  }
}
