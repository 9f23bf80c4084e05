/** Runs of the paged language model: a lone sequence, and any run of batched appends in which every row that is
    read was last written for the same rows.  Both give every sequence `LoneHidden` of its own history.
 */
module PagedRuns {
  import opened Outcomes
  import opened PagedLlm
  import opened Transformer

  // ---------------------------------------------------------------- isolation is enough

  /** No slot that one sequence writes is any other position of any sequence of the batch. */
  ghost predicate Isolated(parts: seq<Part>) {
    forall i, p, j, q :: 0 <= i < |parts| && 0 <= j < |parts| && 0 <= p < |parts[i].slots|
                         && |parts[j].history| <= q < |parts[j].slots|
                         && parts[i].slots[p] == parts[j].slots[q]
                         ==> i == j && p == q
  }

  lemma IsolatedIsCoherent(m: BatchedPagedLLM, parts: seq<Part>)
    requires m.Shaped() && m.Fit(parts) && Isolated(parts)
    requires forall i :: 0 <= i < |parts| ==>
               |parts[i].history| <= |parts[i].slots| && m.Resident(parts[i].history, parts[i].slots)
    ensures m.Coherent(parts)
  {
    hide KvAt;
    forall i, p | 0 <= i < |parts| && 0 <= p < |parts[i].history|
      ensures m.Means(parts[i].slots[p], Upto(parts[i], p))
    {
      assert parts[i].Full()[..p + 1] == parts[i].history[..p + 1];
    }
  }

  /** After a batch, each of its sequences is resident with its new rows. */
  lemma DoneIsResident(m: BatchedPagedLLM, parts: seq<Part>, i: nat)
    requires m.Shaped() && m.Fit(parts) && i < |parts| && m.LayersDone(parts, m.s.depth)
    ensures m.Resident(parts[i].Full(), parts[i].slots)
  {
    hide KvAt;
    forall p | 0 <= p < |parts[i].Full()|
      ensures m.Means(parts[i].slots[p], parts[i].Full()[..p + 1])
    {
      assert parts[i].Fits(m.mem.Length1) && Upto(parts[i], p) == parts[i].Full()[..p + 1];
      forall l | 0 <= l < m.s.depth
        ensures m.HoldsPair(l, parts[i].slots[p], Upto(parts[i], p))
      {
        assert m.LayerDone(parts, l);
      }
    }
  }

  lemma SlotsInPool(table: seq<nat>, blockSize: nat, numBlocks: nat, n: nat)
    requires blockSize > 0 && n <= |table| * blockSize && InPool(table, numBlocks)
    ensures forall p :: 0 <= p < n ==> Slots(table, blockSize, n)[p] < numBlocks * blockSize
  {
    forall p | 0 <= p < n ensures Slots(table, blockSize, n)[p] < numBlocks * blockSize {
      InTable(table, blockSize, p);
      SlotInPool(table, blockSize, numBlocks, p);
    }
  }

  /** Tables that share no block, within or across. */
  ghost predicate DisjointTables(tables: seq<seq<nat>>) {
    forall i, a, j, b :: 0 <= i < |tables| && 0 <= j < |tables| && 0 <= a < |tables[i]| && 0 <= b < |tables[j]|
                         && tables[i][a] == tables[j][b]
                         ==> i == j && a == b
  }

  lemma SlotsDisjoint(tables: seq<seq<nat>>, blockSize: nat, i: nat, n: nat, p: nat, j: nat, m: nat, q: nat)
    requires DisjointTables(tables) && blockSize > 0 && i < |tables| && j < |tables|
    requires p < n <= |tables[i]| * blockSize && q < m <= |tables[j]| * blockSize
    requires Slots(tables[i], blockSize, n)[p] == Slots(tables[j], blockSize, m)[q]
    ensures i == j && p == q
  {
    SlotsEqual(tables[i], n, p, tables[j], m, q, blockSize);
    SamePosition(p, q, blockSize);
  }

  /** Block index and offset of position `p`. */
  lemma SlotsElement(table: seq<nat>, blockSize: nat, n: nat, p: nat) returns (a: nat, o: nat)
    requires blockSize > 0 && p < n <= |table| * blockSize
    ensures a == p / blockSize < |table| && o == p % blockSize < blockSize
    ensures Slots(table, blockSize, n)[p] == table[a] * blockSize + o
  {
    a, o := p / blockSize, p % blockSize;
    InTable(table, blockSize, p);
  }

  lemma SlotsEqual(t: seq<nat>, n: nat, p: nat, u: seq<nat>, m: nat, q: nat, blockSize: nat)
    requires blockSize > 0 && p < n <= |t| * blockSize && q < m <= |u| * blockSize
    requires Slots(t, blockSize, n)[p] == Slots(u, blockSize, m)[q]
    ensures p / blockSize < |t| && q / blockSize < |u|
    ensures t[p / blockSize] == u[q / blockSize] && p % blockSize == q % blockSize
  {
    hide Slots;
    var a, o := SlotsElement(t, blockSize, n, p);
    var b, r := SlotsElement(u, blockSize, m, q);
    SlotInjective(t[a], o, u[b], r, blockSize);
  }

  lemma SamePosition(p: nat, q: nat, blockSize: nat)
    requires blockSize > 0 && p / blockSize == q / blockSize && p % blockSize == q % blockSize
    ensures p == q
  {
    assert p == p / blockSize * blockSize + p % blockSize && q == q / blockSize * blockSize + q % blockSize;
  }

  // ---------------------------------------------------------------- one sequence

  /** One resident sequence over physical blocks 0, 1, 2, ... */
  class PagedLLMRunner {
    const llm: BatchedPagedLLM
    const blockTable: seq<nat>
    var pastLen: nat
    ghost var history: seq<Vec>

    ghost predicate Valid()
      reads this, llm, llm.mem
    {
      && llm.Shaped() && blockTable == Positions(0, llm.numBlocks)
      && pastLen == |history| <= |blockTable| * llm.blockSize
      && llm.Resident(history, Slots(blockTable, llm.blockSize, pastLen))
    }

    constructor (s: Stack, blockSize: nat, maxSeqLen: nat, blank: Vec)
      requires blockSize > 0
      ensures Valid() && fresh(llm) && fresh(llm.mem) && history == [] && llm.s == s
      ensures llm.blockSize == blockSize && llm.numBlocks == (maxSeqLen + blockSize - 1) / blockSize
    {
      var numBlocks := (maxSeqLen + blockSize - 1) / blockSize;
      llm := new BatchedPagedLLM(s, numBlocks, blockSize, blank);
      blockTable := Positions(0, numBlocks);
      pastLen, history := 0, [];
    }

    method Reset()
      requires Valid()
      modifies this
      ensures Valid() && history == []
    {
      pastLen, history := 0, [];
    }

    /** Appends a chunk; raises (None) exactly when the cache is too small. */
    method Append(chunk: seq<Vec>) returns (r: Option<seq<Vec>>)
      requires Valid()
      modifies this, llm.mem
      ensures r.Some? <==> old(pastLen) + |chunk| <= llm.numBlocks * llm.blockSize
      ensures r.None? ==> Valid() && history == old(history)
      ensures r.Some? ==>
                Valid() && history == old(history) + chunk && r.value == LoneHidden(llm.s, old(history), chunk)
    {
      hide KvAt, LoneHidden, Slots;
      var total := pastLen + |chunk|;
      if total > llm.numBlocks * llm.blockSize {
        return None;
      }
      var h := AppendItem(Item(chunk, blockTable, pastLen));
      r := Some(h);
      pastLen, history := total, history + chunk;
    }

    method AppendItem(it: Item) returns (h: seq<Vec>)
      requires Valid() && it.table == blockTable && it.cached == pastLen
      requires pastLen + |it.chunk| <= |blockTable| * llm.blockSize
      modifies llm.mem
      ensures h == LoneHidden(llm.s, history, it.chunk)
      ensures llm.Resident(history + it.chunk, Slots(blockTable, llm.blockSize, pastLen + |it.chunk|))
    {
      hide KvAt, LoneHidden;
      SingleCoherent(it);
      var out := llm.VarlenBatch([it], [history]);
      ghost var parts := llm.PartsOf([it], [history]);
      DoneIsResident(llm, parts, 0);
      h := out.value[0];
    }

    lemma SingleCoherent(it: Item)
      requires Valid() && it.table == blockTable && it.cached == pastLen
      requires pastLen + |it.chunk| <= |blockTable| * llm.blockSize
      ensures llm.Aligned([it], [history]) && llm.Covered([it]) && llm.Coherent(llm.PartsOf([it], [history]))
    {
      hide KvAt;
      var q := llm.PartOf(it, history);
      var parts := llm.PartsOf([it], [history]);
      assert parts == [q];
      SlotsInPool(blockTable, llm.blockSize, llm.numBlocks, |q.slots|);
      IdentityIsolated(q);
      assert llm.Resident(history, q.slots) by {
        var slots := Slots(blockTable, llm.blockSize, pastLen);
        forall p | 0 <= p < |history| ensures llm.Means(q.slots[p], history[..p + 1]) {
          assert q.slots[p] == slots[p];
        }
      }
      IsolatedIsCoherent(llm, parts);
    }

    lemma IdentityIsolated(q: Part)
      requires llm.Shaped() && blockTable == Positions(0, llm.numBlocks)
      requires |q.history| + |q.chunk| <= |blockTable| * llm.blockSize
      requires q.slots == Slots(blockTable, llm.blockSize, |q.history| + |q.chunk|)
      ensures Isolated([q])
    {
      assert DisjointTables([blockTable]);
      forall p, r | 0 <= p < |q.slots| && |q.history| <= r < |q.slots| && q.slots[p] == q.slots[r]
        ensures p == r
      {
        SlotsDisjoint([blockTable], llm.blockSize, 0, |q.slots|, p, 0, |q.slots|, r);
      }
    }
  }

  // ---------------------------------------------------------------- what was last written where

  /** The rows each slot was last written for, up to and with the row in the slot. */
  type Ledger = imap<nat, seq<Vec>>

  ghost predicate WriterAt(parts: seq<Part>, j: nat, q: nat, x: nat) {
    j < |parts| && |parts[j].history| <= q < |parts[j].slots| && parts[j].slots[q] == x
  }

  ghost predicate HasWriter(parts: seq<Part>, x: nat) {
    exists j: nat, q: nat :: WriterAt(parts, j, q, x)
  }

  lemma WriterIsWritten(m: BatchedPagedLLM, parts: seq<Part>, x: nat)
    ensures m.Written(parts, x) <==> HasWriter(parts, x)
  {
    if m.Written(parts, x) {
      var j :| 0 <= j < |parts| && Writes(parts[j], x);
      var q :| |parts[j].history| <= q < |parts[j].slots| && parts[j].slots[q] == x;
      assert WriterAt(parts, j, q, x);
    }
    if j: nat, q: nat :| WriterAt(parts, j, q, x) {
      assert Writes(parts[j], x);
    }
  }

  /** The ledger after a batch. */
  ghost function After(c: Ledger, parts: seq<Part>): Ledger
    requires Slotted(parts)
  {
    imap x: nat | x in c || HasWriter(parts, x) ::
      if HasWriter(parts, x) then
        var j: nat, q: nat :| WriterAt(parts, j, q, x);
        Upto(parts[j], q)
      else c[x]
  }

  lemma AfterAt(c: Ledger, parts: seq<Part>, x: nat) returns (j: nat, q: nat)
    requires Slotted(parts) && HasWriter(parts, x)
    ensures WriterAt(parts, j, q, x) && x in After(c, parts) && After(c, parts)[x] == Upto(parts[j], q)
  {
    j, q :| WriterAt(parts, j, q, x) && After(c, parts)[x] == Upto(parts[j], q);
  }

  lemma AfterElse(c: Ledger, parts: seq<Part>, x: nat)
    requires Slotted(parts) && !HasWriter(parts, x)
    ensures x in After(c, parts) <==> x in c
    ensures x in c ==> After(c, parts)[x] == c[x]
  {
  }

  /** The memory holds what the ledger says. */
  ghost predicate Remembers(m: BatchedPagedLLM, c: Ledger)
    requires m.Shaped()
    reads m.mem
  {
    forall x :: x in c ==> c[x] != [] && m.Means(x, c[x])
  }

  /** Going by the ledger alone, every row the batch reads was last written with the same rows up to it. */
  ghost predicate Traced(m: BatchedPagedLLM, c: Ledger, parts: seq<Part>)
    requires m.Shaped()
  {
    && m.Fit(parts) && m.Agree(parts)
    && forall i, p :: 0 <= i < |parts| && 0 <= p < |parts[i].history| && !m.Written(parts, parts[i].slots[p]) ==>
         parts[i].slots[p] in c && c[parts[i].slots[p]] == Upto(parts[i], p)
  }

  lemma TracedIsCoherent(m: BatchedPagedLLM, c: Ledger, parts: seq<Part>)
    requires m.Shaped() && Remembers(m, c) && Traced(m, c, parts)
    ensures m.Coherent(parts)
  {
    hide KvAt;
  }

  /** After the batch the memory holds what the ledger then says. */
  lemma StillRemembers(m: BatchedPagedLLM, c: Ledger, before: iset<(nat, seq<Vec>)>, parts: seq<Part>)
    requires m.Shaped() && m.Fit(parts) && m.LayersDone(parts, m.s.depth) && m.Keeps(before, parts)
    requires forall x :: x in c ==> c[x] != [] && (x, c[x]) in before
    ensures Remembers(m, After(c, parts))
  {
    hide KvAt, After, BatchedPagedLLM.Means, BatchedPagedLLM.LayersDone, HasWriter;
    var d := After(c, parts);
    forall x | x in d
      ensures d[x] != [] && m.Means(x, d[x])
    {
      WriterIsWritten(m, parts, x);
      if HasWriter(parts, x) {
        var j, q := AfterAt(c, parts, x);
        WrittenMeans(m, parts, j, q);
      } else {
        AfterElse(c, parts, x);
      }
    }
  }

  lemma WrittenMeans(m: BatchedPagedLLM, parts: seq<Part>, j: nat, q: nat)
    requires m.Shaped() && m.Fit(parts) && m.LayersDone(parts, m.s.depth) && j < |parts| && q < |parts[j].slots|
    ensures q < |parts[j].history| + |parts[j].chunk| && m.Means(parts[j].slots[q], Upto(parts[j], q))
  {
    hide KvAt, BatchedPagedLLM.Means, BatchedPagedLLM.LayersDone;
    DoneIsResident(m, parts, j);
    assert parts[j].Fits(m.mem.Length1);
    assert m.Means(parts[j].slots[q], parts[j].Full()[..q + 1]);
  }

  // ---------------------------------------------------------------- any run of batches

  /** A run of batches, each with its own block tables, in which every row read is traced.  A batch whose tables
      are too short changes nothing. */
  ghost predicate TracedRun(m: BatchedPagedLLM, c: Ledger, run: seq<seq<Item>>, hs: seq<seq<seq<Vec>>>)
    requires m.Shaped()
    decreases |run|
  {
    && |hs| == |run|
    && (run == [] || (
          && m.Aligned(run[0], hs[0])
          && (m.Covered(run[0]) ==> Traced(m, c, m.PartsOf(run[0], hs[0])))
          && TracedRun(m, NextLedger(m, c, run[0], hs[0]), run[1..], hs[1..])))
  }

  ghost function NextLedger(m: BatchedPagedLLM, c: Ledger, items: seq<Item>, histories: seq<seq<Vec>>): Ledger
    requires m.Shaped() && m.Aligned(items, histories)
  {
    if m.Covered(items) then After(c, m.PartsOf(items, histories)) else c
  }

  /** What one batch should return: nothing if a table is too short, else everybody's lone hidden states. */
  ghost predicate LoneOutputs(m: BatchedPagedLLM, items: seq<Item>, histories: seq<seq<Vec>>,
                              out: Option<seq<seq<Vec>>>)
    requires m.blockSize > 0 && |items| == |histories|
  {
    && (out.Some? <==> m.Covered(items))
    && (out.Some? ==> |out.value| == |items| && forall i :: 0 <= i < |items| ==>
                        out.value[i] == LoneHidden(m.s, histories[i], items[i].chunk))
  }

  method TracedBatch(m: BatchedPagedLLM, items: seq<Item>, ghost histories: seq<seq<Vec>>, ghost c: Ledger)
    returns (out: Option<seq<seq<Vec>>>)
    requires m.Shaped() && m.Aligned(items, histories) && Remembers(m, c)
    requires m.Covered(items) ==> Traced(m, c, m.PartsOf(items, histories))
    modifies m.mem
    ensures LoneOutputs(m, items, histories, out) && Remembers(m, NextLedger(m, c, items, histories))
  {
    hide KvAt, LoneHidden;
    ghost var before := m.Meanings();
    if m.Covered(items) {
      TracedIsCoherent(m, c, m.PartsOf(items, histories));
    }
    out := m.AppendBatch(items, histories);
    if out.Some? {
      StillRemembers(m, c, before, m.PartsOf(items, histories));
    }
  }

  /** For every run of batches whose reads are traced, every sequence gets at every append exactly the hidden
      states a lone runner computes from its own history. */
  method RunBatches(m: BatchedPagedLLM, run: seq<seq<Item>>, ghost hs: seq<seq<seq<Vec>>>, ghost c: Ledger)
    returns (outs: seq<Option<seq<seq<Vec>>>>)
    requires m.Shaped() && Remembers(m, c) && TracedRun(m, c, run, hs)
    modifies m.mem
    ensures |outs| == |run| == |hs|
    ensures forall k :: 0 <= k < |run| ==> |run[k]| == |hs[k]| && LoneOutputs(m, run[k], hs[k], outs[k])
  {
    hide KvAt, LoneHidden, LoneOutputs, Traced, NextLedger;
    outs := [];
    ghost var ledger := c;
    for k := 0 to |run|
      invariant |outs| == k && Remembers(m, ledger) && TracedRun(m, ledger, run[k..], hs[k..])
      invariant forall j :: 0 <= j < k ==> |run[j]| == |hs[j]| && LoneOutputs(m, run[j], hs[j], outs[j])
    {
      assert run[k..][0] == run[k] && run[k..][1..] == run[k + 1..];
      assert hs[k..][0] == hs[k] && hs[k..][1..] == hs[k + 1..];
      var out := TracedBatch(m, run[k], hs[k], ledger);
      ledger := NextLedger(m, ledger, run[k], hs[k]);
      outs := outs + [out];
    }
  }

  // ---------------------------------------------------------------- live sequences

  /** A sequence as it stands after a batch: everything is history. */
  function Settle(a: Part): Part {
    Part(a.history + a.chunk, [], a.slots)
  }

  function SettleAll(parts: seq<Part>): (r: seq<Part>)
    ensures |r| == |parts| && forall i :: 0 <= i < |parts| ==> r[i] == Settle(parts[i])
  {
    seq(|parts|, i requires 0 <= i < |parts| => Settle(parts[i]))
  }

  /** Row `p` of `a` was live: it stood in the same slot, after the same rows. */
  ghost predicate WasLive(live: seq<Part>, a: Part, p: nat)
    requires p < |a.history| <= |a.slots| && Slotted(live)
  {
    exists j: nat, q: nat :: LiveAt(live, j, q, a.slots[p]) && Upto(live[j], q) == a.history[..p + 1]
  }

  ghost predicate LiveAt(live: seq<Part>, j: nat, q: nat, x: nat) {
    j < |live| && q < |live[j].slots| && live[j].slots[q] == x
  }

  /** One turn over live sequences, those of the batch and the `others`: tables may grow, shrink, be given back
      and be issued again, and may share blocks.  Every row a sequence counts on was live before, and a slot that
      is written is no live row of another sequence, or means the same rows there. */
  ghost predicate LiveTurn(m: BatchedPagedLLM, live: seq<Part>, items: seq<Item>, histories: seq<seq<Vec>>,
                           others: seq<Part>)
    requires m.Shaped()
  {
    && Slotted(live) && m.Aligned(items, histories) && m.Covered(items)
    && var all := m.PartsOf(items, histories) + others;
       && m.Fit(all) && m.Agree(all)
       && (forall i :: 0 <= i < |others| ==> others[i].chunk == [])
       && forall i, p :: 0 <= i < |all| && 0 <= p < |all[i].history| ==> WasLive(live, all[i], p)
  }

  ghost predicate LiveRun(m: BatchedPagedLLM, live: seq<Part>, run: seq<seq<Item>>, hs: seq<seq<seq<Vec>>>,
                          others: seq<seq<Part>>)
    requires m.Shaped()
    decreases |run|
  {
    && |hs| == |others| == |run|
    && (run == [] || (
          && LiveTurn(m, live, run[0], hs[0], others[0])
          && LiveRun(m, SettleAll(m.PartsOf(run[0], hs[0]) + others[0]), run[1..], hs[1..], others[1..])))
  }

  /** The ledger knows the live rows. */
  ghost predicate Knows(c: Ledger, live: seq<Part>) {
    && Slotted(live)
    && forall i, p :: 0 <= i < |live| && 0 <= p < |live[i].slots| ==>
         live[i].slots[p] in c && c[live[i].slots[p]] == Upto(live[i], p)
  }

  lemma KnownHistory(c: Ledger, live: seq<Part>, a: Part, p: nat)
    requires Knows(c, live) && |a.slots| == |a.history| + |a.chunk| && p < |a.history| && WasLive(live, a, p)
    ensures a.slots[p] in c && c[a.slots[p]] == Upto(a, p)
  {
    var j: nat, q: nat :| LiveAt(live, j, q, a.slots[p]) && Upto(live[j], q) == a.history[..p + 1];
    assert live[j].slots[q] == a.slots[p];
    assert a.Full()[..p + 1] == a.history[..p + 1];
  }

  lemma PartsFirst(m: BatchedPagedLLM, parts: seq<Part>, others: seq<Part>)
    requires m.Shaped() && m.Fit(parts + others) && m.Agree(parts + others)
    requires forall i :: 0 <= i < |others| ==> others[i].chunk == []
    ensures m.Fit(parts) && m.Agree(parts)
    ensures forall x :: HasWriter(parts, x) <==> HasWriter(parts + others, x)
  {
    var all := parts + others;
    forall i | 0 <= i < |parts| ensures parts[i].Fits(m.mem.Length1) {
      assert all[i].Fits(m.mem.Length1);
    }
    forall i, p, j, q | 0 <= i < |parts| && 0 <= j < |parts| && 0 <= p < |parts[i].slots|
                        && |parts[j].history| <= q < |parts[j].slots| && parts[i].slots[p] == parts[j].slots[q]
      ensures SameMeaning(parts[i], p, parts[j], q)
    {
      assert SameMeaning(all[i], p, all[j], q);
    }
    forall x
      ensures HasWriter(parts, x) <==> HasWriter(all, x)
    {
      if j: nat, q: nat :| WriterAt(parts, j, q, x) {
        assert WriterAt(all, j, q, x);
      }
      if j: nat, q: nat :| WriterAt(all, j, q, x) {
        assert all[j].Fits(m.mem.Length1) && j < |parts|;
        assert WriterAt(parts, j, q, x);
      }
    }
  }

  lemma LiveIsTraced(m: BatchedPagedLLM, c: Ledger, live: seq<Part>, items: seq<Item>, histories: seq<seq<Vec>>,
                     others: seq<Part>)
    requires m.Shaped() && Knows(c, live) && LiveTurn(m, live, items, histories, others)
    ensures var parts := m.PartsOf(items, histories);
            Traced(m, c, parts) && Knows(After(c, parts), SettleAll(parts + others))
  {
    hide After;
    var parts := m.PartsOf(items, histories);
    var all := parts + others;
    PartsFirst(m, parts, others);
    forall i, p | 0 <= i < |all| && 0 <= p < |all[i].history|
      ensures all[i].slots[p] in c && c[all[i].slots[p]] == Upto(all[i], p)
    {
      assert all[i].Fits(m.mem.Length1) && WasLive(live, all[i], p);
      KnownHistory(c, live, all[i], p);
    }
    assert forall i :: 0 <= i < |parts| ==> all[i] == parts[i];
    var d, settled := After(c, parts), SettleAll(all);
    forall i, p | 0 <= i < |settled| && 0 <= p < |settled[i].slots|
      ensures settled[i].slots[p] in d && d[settled[i].slots[p]] == Upto(settled[i], p)
    {
      AfterIsLive(m, c, parts, others, i, p);
    }
    assert forall i :: 0 <= i < |all| ==> all[i].Fits(m.mem.Length1);
  }

  lemma AfterIsLive(m: BatchedPagedLLM, c: Ledger, parts: seq<Part>, others: seq<Part>, i: nat, p: nat)
    requires m.Shaped() && m.Fit(parts + others) && m.Agree(parts + others) && Slotted(parts)
    requires forall x :: HasWriter(parts, x) <==> HasWriter(parts + others, x)
    requires i < |parts + others| && p < |(parts + others)[i].slots|
    requires var a := (parts + others)[i]; p < |a.history| ==> a.slots[p] in c && c[a.slots[p]] == Upto(a, p)
    ensures var a, d := (parts + others)[i], After(c, parts); a.slots[p] in d && d[a.slots[p]] == Upto(a, p)
  {
    hide After;
    var all := parts + others;
    var a := all[i];
    var x := a.slots[p];
    assert a.Fits(m.mem.Length1);
    if p >= |a.history| { assert WriterAt(all, i, p, x); }
    if HasWriter(parts, x) {
      var j, q := AfterAt(c, parts, x);
      assert all[j] == parts[j];
      assert SameMeaning(a, p, all[j], q);
    } else {
      AfterElse(c, parts, x);
    }
  }

  lemma {:induction false} LiveRunIsTraced(m: BatchedPagedLLM, c: Ledger, live: seq<Part>, run: seq<seq<Item>>,
                                           hs: seq<seq<seq<Vec>>>, others: seq<seq<Part>>)
    requires m.Shaped() && Knows(c, live) && LiveRun(m, live, run, hs, others)
    ensures TracedRun(m, c, run, hs) && forall k :: 0 <= k < |run| ==> m.Covered(run[k])
    decreases |run|
  {
    hide LiveTurn, Knows, Traced, After;
    if run != [] {
      LiveTurnIsCovered(m, live, run[0], hs[0], others[0]);
      LiveIsTraced(m, c, live, run[0], hs[0], others[0]);
      var parts := m.PartsOf(run[0], hs[0]);
      LiveRunIsTraced(m, After(c, parts), SettleAll(parts + others[0]), run[1..], hs[1..], others[1..]);
      forall k | 0 <= k < |run|
        ensures m.Covered(run[k])
      {
        if k > 0 { assert run[k] == run[1..][k - 1]; }
      }
    }
  }

  lemma LiveTurnIsCovered(m: BatchedPagedLLM, live: seq<Part>, items: seq<Item>, histories: seq<seq<Vec>>,
                          others: seq<Part>)
    requires m.Shaped() && LiveTurn(m, live, items, histories, others)
    ensures m.Aligned(items, histories) && m.Covered(items)
  {
  }

  /** For every interleaving of batched appends over tables that grow, are given back and issued again, and share
      blocks, every sequence gets at every append exactly the hidden states a lone runner computes from its own
      history, as long as no write hits a live row that means something else. */
  method Interleave(m: BatchedPagedLLM, run: seq<seq<Item>>, ghost hs: seq<seq<seq<Vec>>>, ghost others: seq<seq<Part>>)
    returns (outs: seq<seq<seq<Vec>>>)
    requires m.Shaped() && LiveRun(m, [], run, hs, others)
    modifies m.mem
    ensures |outs| == |run| == |hs|
    ensures forall k :: 0 <= k < |run| ==> |outs[k]| == |run[k]| == |hs[k]|
    ensures forall k, i :: 0 <= k < |run| && 0 <= i < |run[k]| ==>
                             outs[k][i] == LoneHidden(m.s, hs[k][i], run[k][i].chunk)
  {
    hide KvAt, LoneHidden, LiveRun, TracedRun;
    LiveRunIsTraced(m, imap[], [], run, hs, others);
    var out := RunBatches(m, run, hs, imap[]);
    outs := [];
    for k := 0 to |run|
      invariant |outs| == k && forall j :: 0 <= j < k ==> out[j] == Some(outs[j])
    {
      outs := outs + [out[k].value];
    }
  }
}
