/** Write isolation: the physical slots one batch writes are pairwise different, each inside its sequence's
    table, and in no block of anybody else's table.
 */
module WriteIsolation {
  import opened Arithmetic
  import opened BlockAccounting
  import opened BlockPool
  import PagedLlm
  import opened ScheduleRuns
  import opened Scheduling

  /** Logical block of position `p`. */
  function BlockOf(e: Env, p: nat): nat
    requires e.blockSize > 0
  {
    p / e.blockSize
  }

  /** Physical slot of position `p` of a sequence. */
  function SlotOf(e: Env, s: SeqState, p: nat): nat
    requires e.blockSize > 0 && BlockOf(e, p) < |s.table|
  {
    PagedLlm.Slot(s.table, e.blockSize, p)
  }

  /** Equal slots are equal blocks and equal offsets; in equal logical blocks, equal positions. */
  lemma SlotsApart(e: Env, a: SeqState, p: nat, b: SeqState, q: nat)
    requires e.blockSize > 0 && BlockOf(e, p) < |a.table| && BlockOf(e, q) < |b.table|
    ensures SlotOf(e, a, p) == SlotOf(e, b, q) ==>
              a.table[BlockOf(e, p)] == b.table[BlockOf(e, q)] && (BlockOf(e, p) == BlockOf(e, q) ==> p == q)
  {
    var size, x, y := e.blockSize, a.table[p / e.blockSize], b.table[q / e.blockSize];
    ModIs(x * size + p % size, size, x, p % size);
    ModIs(y * size + q % size, size, y, q % size);
    QuotientIs(x * size + p % size, size, x);
    QuotientIs(y * size + q % size, size, y);
    assert p == p / size * size + p % size && q == q / size * size + q % size;
  }

  // ---------------------------------------------------------------- tables

  lemma BatchTables(e: Env, st: Sched, r: Scheduled, i: nat)
    requires e.blockSize > 1 && BatchOk(e, st, r) && i < |r.batch|
    ensures r.batch[i].tokens != [] && |r.batch[i].table| == NumBlocks(|r.batch[i].tokens|, e.blockSize)
  {
    hide Accounted, Refs, WritesApart, OwnLasts, NumBlocks;
    var s := r.batch[i];
    assert s in Pending(r.sched.running);
    var j :| 0 <= j < |r.sched.running| && r.sched.running[j] == s;
    assert Live(e, r.sched.pool, s, Due(s));
  }

  /** A batched sequence's table covers all its tokens: the runner never finds it too short. */
  lemma TableCovers(e: Env, st: Sched, r: Scheduled, i: nat, p: nat)
    requires e.blockSize > 1 && BatchOk(e, st, r) && i < |r.batch| && p < |r.batch[i].tokens|
    ensures |r.batch[i].tokens| <= |r.batch[i].table| * e.blockSize && BlockOf(e, p) < |r.batch[i].table|
  {
    hide BatchOk;
    BatchTables(e, st, r, i);
    var n, size := |r.batch[i].tokens|, e.blockSize;
    Quotient(n + size - 1, size);
    PagedLlm.InTable(r.batch[i].table, size, p);
  }

  /** The block of a written prefill position is one of those allocated for it. */
  lemma PrefillBlock(e: Env, p: nat, cached: nat)
    requires e.blockSize > 0 && cached <= p
    ensures cached / e.blockSize <= BlockOf(e, p)
  {
    var size := e.blockSize;
    Quotient(cached, size);
    Quotient(p, size);
    if p / size < cached / size { MulLe(p / size + 1, cached / size, size); }
    assert (p / size + 1) * size == p / size * size + size;
  }

  /** The last token is in the last block. */
  lemma LastBlock(e: Env, st: Sched, r: Scheduled, i: nat)
    requires e.blockSize > 1 && BatchOk(e, st, r) && i < |r.batch|
    ensures r.batch[i].tokens != [] && BlockOf(e, |r.batch[i].tokens| - 1) == |r.batch[i].table| - 1
  {
    hide BatchOk;
    BatchTables(e, st, r, i);
    var n, size := |r.batch[i].tokens|, e.blockSize;
    var k := NumBlocks(n, size);
    Quotient(n + size - 1, size);
    assert (k - 1) * size + size == k * size;
    QuotientIs(n - 1, size, k - 1);
  }

  lemma ApartAt(e: Env, refs: multiset<nat>, batch: seq<SeqState>, k: nat, b: nat)
    requires e.blockSize > 0 && WritesApart(e, refs, batch) && k < |batch|
    requires batch[k].cached / e.blockSize <= b < |batch[k].table|
    ensures WriteApart(refs, batch, k, b)
  {
  }

  // ---------------------------------------------------------------- isolation

  lemma {:induction false} HeldTwice(ss: seq<SeqState>, i: nat, j: nat, id: nat)
    requires i < j < |ss| && id in ss[i].table && id in ss[j].table
    ensures Refs(ss)[id] >= 2
    decreases |ss|
  {
    var front, last := ss[..|ss| - 1], ss[|ss| - 1];
    if j < |front| {
      HeldTwice(front, i, j, id);
    } else {
      RefsContain(front, i);
      assert id in multiset(front[i].table) && id in multiset(last.table);
    }
  }

  /** In a decode batch, the block written for one sequence is in no other running table. */
  lemma DecodeBlockIsOwn(e: Env, st: Sched, r: Scheduled, i: nat, j: nat)
    requires e.blockSize > 1 && BatchOk(e, st, r) && !r.prefill && r.batch <= r.sched.running
    requires i < |r.batch| && j < |r.sched.running| && i != j && |r.batch[i].tokens| > r.batch[i].admitted
    ensures r.batch[i].table != [] && r.batch[i].table[|r.batch[i].table| - 1] !in r.sched.running[j].table
  {
    hide Good, Pending;
    var id := r.batch[i].table[|r.batch[i].table| - 1];
    assert r.sched.running[i] == r.batch[i];
    if id in r.sched.running[j].table {
      HeldTwice(r.sched.running, if i < j then i else j, if i < j then j else i, id);
    }
  }

  lemma PrefillBlocksDiffer(e: Env, refs: multiset<nat>, batch: seq<SeqState>, i: nat, x: nat, k: nat, y: nat)
    requires e.blockSize > 0 && WritesApart(e, refs, batch) && i <= k < |batch| && x < |batch[i].table|
    requires batch[k].cached / e.blockSize <= y < |batch[k].table| && batch[i].table[x] == batch[k].table[y]
    ensures i == k && x == y
  {
    hide WritesApart;
    ApartAt(e, refs, batch, k, y);
  }

  lemma BatchApart(e: Env, st: Sched, r: Scheduled)
    requires e.blockSize > 1 && BatchOk(e, st, r) && r.prefill
    ensures WritesApart(e, Refs(st.running), r.batch)
  {
  }

  /** The slots a prefill writes are pairwise different. */
  lemma PrefillSlotsDiffer(e: Env, st: Sched, r: Scheduled, i: nat, p: nat, k: nat, q: nat)
    requires e.blockSize > 1 && BatchOk(e, st, r) && r.prefill && i <= k < |r.batch|
    requires r.batch[i].cached <= p < |r.batch[i].tokens| && r.batch[k].cached <= q < |r.batch[k].tokens|
    ensures BlockOf(e, p) < |r.batch[i].table| && BlockOf(e, q) < |r.batch[k].table|
    ensures SlotOf(e, r.batch[i], p) == SlotOf(e, r.batch[k], q) ==> i == k && p == q
  {
    hide BatchOk, SlotOf, BlockOf, WritesApart;
    TableCovers(e, st, r, i, p);
    TableCovers(e, st, r, k, q);
    BatchApart(e, st, r);
    PrefillBlock(e, q, r.batch[k].cached);
    SlotsApart(e, r.batch[i], p, r.batch[k], q);
    if SlotOf(e, r.batch[i], p) == SlotOf(e, r.batch[k], q) {
      PrefillBlocksDiffer(e, Refs(st.running), r.batch, i, BlockOf(e, p), k, BlockOf(e, q));
    }
  }

  /** No slot a prefill writes is a slot of a sequence that was already running. */
  lemma PrefillSparesRunning(e: Env, st: Sched, r: Scheduled, i: nat, p: nat, j: nat, q: nat)
    requires e.blockSize > 1 && BatchOk(e, st, r) && r.prefill && i < |r.batch|
    requires r.batch[i].cached <= p < |r.batch[i].tokens|
    requires j < |st.running| && BlockOf(e, q) < |st.running[j].table|
    ensures BlockOf(e, p) < |r.batch[i].table| && SlotOf(e, r.batch[i], p) != SlotOf(e, st.running[j], q)
  {
    hide BatchOk, SlotOf, BlockOf, WritesApart, Refs;
    TableCovers(e, st, r, i, p);
    BatchApart(e, st, r);
    PrefillBlock(e, p, r.batch[i].cached);
    ApartAt(e, Refs(st.running), r.batch, i, BlockOf(e, p));
    RefsContain(st.running, j);
    assert st.running[j].table[BlockOf(e, q)] in multiset(st.running[j].table);
    SlotsApart(e, r.batch[i], p, st.running[j], q);
  }

  /** No slot a decode batch writes is a slot of another running sequence, batched or not, unless the
      writer's prompt came entirely from the cache. */
  lemma DecodeSparesRunning(e: Env, st: Sched, r: Scheduled, i: nat, j: nat, q: nat)
    requires e.blockSize > 1 && BatchOk(e, st, r) && !r.prefill && r.batch <= r.sched.running && i < |r.batch|
    requires j < |r.sched.running| && i != j
    requires |r.batch[i].tokens| > r.batch[i].admitted && BlockOf(e, q) < |r.sched.running[j].table|
    ensures BlockOf(e, |r.batch[i].tokens| - 1) < |r.batch[i].table|
    ensures SlotOf(e, r.batch[i], |r.batch[i].tokens| - 1) != SlotOf(e, r.sched.running[j], q)
  {
    hide BatchOk, SlotOf, BlockOf;
    LastBlock(e, st, r, i);
    DecodeBlockIsOwn(e, st, r, i, j);
    SlotsApart(e, r.batch[i], |r.batch[i].tokens| - 1, r.sched.running[j], q);
  }
}
