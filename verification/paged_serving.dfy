/** Serving through the scheduler: the memory of the paged language model holds, block by block, what the pool
    says it holds, so every batch of a trusted run gives each request the hidden states of a lone runner on its
    own tokens.
 */
module PagedServing {
  import opened Arithmetic
  import opened BlockAccounting
  import opened BlockPool
  import opened Outcomes
  import PagedLlm
  import PagedRuns
  import opened PrefixCache
  import opened PrefixRuns
  import opened ScheduleFaults
  import opened ScheduleRuns
  import opened ScheduleSteps
  import opened Scheduling
  import opened Transformer
  import opened WriteIsolation

  // ---------------------------------------------------------------- rows of a token history

  /** The input row of a token, given the tokens up to it: a text embedding, or the encoding of all patches so
      far. */
  type Embedding = seq<Token> -> Vec

  function Rows(emb: Embedding, tokens: seq<Token>): (r: seq<Vec>)
    ensures |r| == |tokens| && forall p :: 0 <= p < |tokens| ==> r[p] == emb(tokens[..p + 1])
  {
    seq(|tokens|, p requires 0 <= p < |tokens| => emb(tokens[..p + 1]))
  }

  lemma RowsPrefix(emb: Embedding, tokens: seq<Token>, n: nat)
    requires n <= |tokens|
    ensures Rows(emb, tokens)[..n] == Rows(emb, tokens[..n])
  {
    forall p | 0 <= p < n
      ensures Rows(emb, tokens)[p] == Rows(emb, tokens[..n])[p]
    {
      assert tokens[..n][..p + 1] == tokens[..p + 1];
    }
  }

  // ---------------------------------------------------------------- what a block is labelled with

  function OffsetOf(e: Env, p: nat): nat
    requires e.blockSize > 0
  {
    p % e.blockSize
  }

  /** Position `x` of history `held` lies in its last block. */
  predicate InLast(e: Env, held: seq<Token>, x: nat)
    requires e.blockSize > 0
  {
    x < |held| && BlockOf(e, x) == BlockOf(e, |held| - 1)
  }

  lemma SamePlace(e: Env, p: nat, q: nat)
    requires e.blockSize > 0 && BlockOf(e, p) == BlockOf(e, q) && OffsetOf(e, p) == OffsetOf(e, q)
    ensures p == q
  {
    PagedRuns.SamePosition(p, q, e.blockSize);
  }

  lemma BlockIs(e: Env, p: nat, j: nat)
    requires e.blockSize > 0 && j * e.blockSize <= p < (j + 1) * e.blockSize
    ensures BlockOf(e, p) == j
  {
    MulAdd(j, 1, e.blockSize);
    QuotientIs(p, e.blockSize, j);
  }

  lemma BlockSpan(e: Env, p: nat)
    requires e.blockSize > 0
    ensures BlockOf(e, p) * e.blockSize <= p < (BlockOf(e, p) + 1) * e.blockSize
  {
    Quotient(p, e.blockSize);
  }

  /** A block of a sound table is labelled, at every position in it, with the sequence's own tokens. */
  lemma SoundLabel(e: Env, p: Pool, tokens: seq<Token>, table: seq<nat>, x: nat)
    requires e.blockSize > 0 && Sound(e, p, tokens, table) && x < |tokens| && BlockOf(e, x) < |table|
    ensures var b := table[BlockOf(e, x)];
            b < |p.blocks| && InLast(e, p.blocks[b].held, x) && p.blocks[b].held[..x + 1] == tokens[..x + 1]
  {
    hide BlockOf;
    var j := BlockOf(e, x);
    BlockSpan(e, x);
    var held := p.blocks[table[j]].held;
    assert held == Prefix(e, tokens, j + 1);
    BlockIs(e, |held| - 1, j);
    assert held[..x + 1] == tokens[..x + 1];
  }

  // ---------------------------------------------------------------- the memory

  /** Physical slot of position `x` in block `b`. */
  function SlotIn(e: Env, b: nat, x: nat): nat
    requires e.blockSize > 0
  {
    b * e.blockSize + OffsetOf(e, x)
  }

  ghost predicate Matches(m: PagedLlm.BatchedPagedLLM, e: Env, p: Pool) {
    m.Shaped() && m.blockSize == e.blockSize && m.numBlocks == |p.blocks|
  }

  /** Every slot of every block means the block's history up to it. */
  ghost predicate Stores(m: PagedLlm.BatchedPagedLLM, e: Env, emb: Embedding, p: Pool)
    requires Matches(m, e, p)
    reads m.mem
  {
    forall b, x :: 0 <= b < |p.blocks| && 0 <= x && InLast(e, p.blocks[b].held, x) ==>
      m.Means(SlotIn(e, b, x), Rows(emb, p.blocks[b].held[..x + 1]))
  }

  lemma StoresStays(m: PagedLlm.BatchedPagedLLM, e: Env, emb: Embedding, p: Pool, q: Pool)
    requires Matches(m, e, p) && Stores(m, e, emb, p) && SameHeld(p, q)
    ensures Matches(m, e, q) && Stores(m, e, emb, q)
  {
    hide PagedLlm.BatchedPagedLLM.Means, InLast, SlotIn;
  }

  // ---------------------------------------------------------------- what a batch writes

  /** Rows of a sequence that are resident when its batch runs. */
  function From(prefill: bool, s: SeqState): nat {
    if prefill then s.cached else if |s.tokens| > 0 then |s.tokens| - 1 else 0
  }

  ghost predicate WriterOf(e: Env, batch: seq<SeqState>, prefill: bool, k: nat, b: nat, x: nat, prefix: seq<Token>)
    requires e.blockSize > 0
  {
    && k < |batch| && From(prefill, batch[k]) <= x < |batch[k].tokens|
    && BlockOf(e, x) < |batch[k].table| && batch[k].table[BlockOf(e, x)] == b && batch[k].tokens[..x + 1] == prefix
  }

  /** The batch writes position `x` of block `b`, for tokens `prefix`. */
  ghost predicate WritesAt(e: Env, batch: seq<SeqState>, prefill: bool, b: nat, x: nat, prefix: seq<Token>)
    requires e.blockSize > 0
  {
    exists k: nat :: WriterOf(e, batch, prefill, k, b, x, prefix)
  }

  /** Position `x` of block `b` is labelled in `q` as it was in `p`, or the batch writes what it is labelled. */
  ghost predicate LabelFrom(e: Env, p: Pool, q: Pool, batch: seq<SeqState>, prefill: bool, b: nat, x: nat)
    requires e.blockSize > 0 && b < |p.blocks| && b < |q.blocks| && x < |q.blocks[b].held|
  {
    || (InLast(e, p.blocks[b].held, x) && p.blocks[b].held[..x + 1] == q.blocks[b].held[..x + 1])
    || WritesAt(e, batch, prefill, b, x, q.blocks[b].held[..x + 1])
  }

  /** So it is at every labelled position. */
  ghost predicate Relabelled(e: Env, p: Pool, q: Pool, batch: seq<SeqState>, prefill: bool)
    requires e.blockSize > 0
  {
    && |q.blocks| == |p.blocks|
    && forall b, x :: 0 <= b < |q.blocks| && 0 <= x && InLast(e, q.blocks[b].held, x) ==>
         LabelFrom(e, p, q, batch, prefill, b, x)
  }

  ghost predicate SameHeld(p: Pool, q: Pool) {
    |q.blocks| == |p.blocks| && forall b :: 0 <= b < |p.blocks| ==> q.blocks[b].held == p.blocks[b].held
  }

  lemma SameIsRelabelled(e: Env, p: Pool, q: Pool, batch: seq<SeqState>, prefill: bool)
    requires e.blockSize > 0 && SameHeld(p, q)
    ensures Relabelled(e, p, q, batch, prefill)
  {
    hide WritesAt;
  }

  lemma RelabelledTwice(e: Env, p: Pool, q: Pool, r: Pool, batch: seq<SeqState>, more: seq<SeqState>, prefill: bool)
    requires e.blockSize > 0 && Relabelled(e, p, q, batch, prefill) && Relabelled(e, q, r, more, prefill)
    ensures Relabelled(e, p, r, batch + more, prefill)
  {
    hide BlockOf;
    forall b, x | 0 <= b < |r.blocks| && 0 <= x && InLast(e, r.blocks[b].held, x)
      ensures LabelFrom(e, p, r, batch + more, prefill, b, x)
    {
      InLastIsWithin(e, r.blocks[b].held, x);
      var prefix := r.blocks[b].held[..x + 1];
      assert LabelFrom(e, q, r, more, prefill, b, x);
      if WritesAt(e, more, prefill, b, x, prefix) {
        var k: nat :| WriterOf(e, more, prefill, k, b, x, prefix);
        WriterAmong(e, batch, more, prefill, |batch| + k, b, x, prefix);
      } else {
        InLastIsWithin(e, q.blocks[b].held, x);
        assert LabelFrom(e, p, q, batch, prefill, b, x);
        if WritesAt(e, batch, prefill, b, x, prefix) {
          var k: nat :| WriterOf(e, batch, prefill, k, b, x, prefix);
          WriterAmong(e, batch, more, prefill, k, b, x, prefix);
        }
      }
    }
  }

  lemma InLastIsWithin(e: Env, held: seq<Token>, x: nat)
    requires e.blockSize > 0 && InLast(e, held, x)
    ensures x < |held|
  {
  }

  lemma WriterAmong(e: Env, batch: seq<SeqState>, more: seq<SeqState>, prefill: bool, k: nat, b: nat, x: nat,
                    prefix: seq<Token>)
    requires e.blockSize > 0 && k < |batch| + |more|
    requires if k < |batch| then WriterOf(e, batch, prefill, k, b, x, prefix)
             else WriterOf(e, more, prefill, k - |batch|, b, x, prefix)
    ensures WriterOf(e, batch + more, prefill, k, b, x, prefix)
  {
  }

  // ---------------------------------------------------------------- releasing keeps the labels

  lemma {:induction false} DropAllHeld(p: Pool, table: seq<nat>)
    ensures SameHeld(p, DropAll(p, table))
    decreases |table|
  {
    hide Drop;
    if table != [] {
      var last := |table| - 1;
      if table[last] < |p.blocks| { DropKeeps(p, table[last]); }
      DropAllHeld(if table[last] < |p.blocks| then Drop(p, table[last]) else p, table[..last]);
    }
  }

  lemma {:induction false} RoomHeld(e: Env, p: Pool, waiting: seq<SeqState>, running: seq<SeqState>, cur: SeqState)
    requires e.blockSize > 0
    ensures SameHeld(p, MakeRoom(e, p, waiting, running, cur).pool)
    decreases |running|
  {
    hide CanAppend, DropAll, Released;
    if !CanAppend(e, p, cur) {
      if running != [] {
        var last := running[|running| - 1];
        DropAllHeld(p, last.table);
        RoomHeld(e, DropAll(p, last.table), [Released(last)] + waiting, running[..|running| - 1], cur);
      } else {
        DropAllHeld(p, cur.table);
      }
    }
  }

  lemma {:induction false} LeaveAllHeld(st: Sched, ids: seq<nat>)
    ensures SameHeld(st.pool, LeaveAll(st, ids).pool)
    decreases |ids|
  {
    hide DropAll, Without, Find;
    if ids != [] {
      var found := Find(st.running, ids[0]);
      if found.Some? { DropAllHeld(st.pool, found.value.table); }
      LeaveAllHeld(Leave(st, ids[0]), ids[1..]);
    }
  }

  // ---------------------------------------------------------------- a prefill relabels what it writes

  /** Only blocks of the table from the cached ones on got another history. */
  ghost predicate HeldUpto(e: Env, p: Pool, st: Alloc) {
    && |st.pool.blocks| == |p.blocks|
    && (st.miss || st.cached == |st.table| * e.blockSize) && st.cached <= |st.table| * e.blockSize
    && forall b :: 0 <= b < |p.blocks| && st.pool.blocks[b].held != p.blocks[b].held ==>
         exists j :: 0 <= j < |st.table| && st.cached <= j * e.blockSize && st.table[j] == b
  }

  lemma HeldStep(e: Env, p: Pool, st: Alloc, toks: seq<Token>, noCache: bool)
    requires e.blockSize > 0 && HeldUpto(e, p, st) && AllocStep(e, st, toks, noCache).Some?
    requires forall h :: h in st.pool.index ==> st.pool.index[h] < |st.pool.blocks|
    requires forall id :: id in st.pool.free ==> id < |st.pool.blocks|
    ensures HeldUpto(e, p, AllocStep(e, st, toks, noCache).value)
  {
    hide HeldBefore, RemoveFirst;
    var r := AllocStep(e, st, toks, noCache).value;
    MulAdd(|st.table|, 1, e.blockSize);
    assert r.table[..|st.table|] == st.table;
    forall b | 0 <= b < |p.blocks| && r.pool.blocks[b].held != p.blocks[b].held
      ensures exists j :: 0 <= j < |r.table| && r.cached <= j * e.blockSize && r.table[j] == b
    {
      if st.pool.blocks[b].held != p.blocks[b].held {
        var j :| 0 <= j < |st.table| && st.cached <= j * e.blockSize && st.table[j] == b;
        CachedEarlier(e, st, r, j);
        assert r.table[j] == b;
      } else {
        assert r.miss && r.table[|st.table|] == b;
      }
    }
  }

  lemma CachedEarlier(e: Env, st: Alloc, r: Alloc, j: nat)
    requires e.blockSize > 0 && (st.miss || st.cached == |st.table| * e.blockSize) && j < |st.table|
    requires st.cached <= j * e.blockSize && (st.miss ==> r.cached == st.cached)
    ensures r.cached <= j * e.blockSize
  {
    MulAdd(j, 1, e.blockSize);
    MulLe(j + 1, |st.table|, e.blockSize);
  }

  lemma {:induction false} HeldAllocated(e: Env, p: Pool, refs: multiset<nat>, s: SeqState, i: nat)
    requires EnvOk(e) && Accounted(p, refs) && s.cached == 0 && i <= NumBlocks(|s.tokens|, e.blockSize) <= |p.free|
    ensures AllocUpto(e, p, s, i).Some? && HeldUpto(e, p, AllocUpto(e, p, s, i).value)
    decreases i
  {
    hide AllocStep, BlockTokens, NumBlocks, HeldUpto, Accounted, Allocated;
    var st, hits := AllocUptoAccounted(e, p, refs, s, i);
    if i > 0 {
      HeldAllocated(e, p, refs, s, i - 1);
      var before, hits' := AllocUptoAccounted(e, p, refs, s, i - 1);
      PoolIsClosed(e, p, refs, s, i - 1, hits', before);
      HeldStep(e, p, before, BlockTokens(e, s.tokens, i - 1), s.noCache);
    } else {
      HeldNothing(e, p, s);
    }
  }

  lemma HeldNothing(e: Env, p: Pool, s: SeqState)
    requires s.cached == 0
    ensures AllocUpto(e, p, s, 0).Some? && HeldUpto(e, p, AllocUpto(e, p, s, 0).value)
  {
  }

  lemma PoolIsClosed(e: Env, p: Pool, refs: multiset<nat>, s: SeqState, i: nat, hits: nat, st: Alloc)
    requires Allocated(e, p, refs, s, i, hits, st)
    ensures forall h :: h in st.pool.index ==> st.pool.index[h] < |st.pool.blocks|
    ensures forall id :: id in st.pool.free ==> id < |st.pool.blocks|
  {
  }

  /** One admission relabels only what its batch will write. */
  lemma AdmitRelabels(e: Env, p: Pool, refs: multiset<nat>, s: SeqState, q: Pool, t: SeqState)
    requires EnvOk(e) && e.blockSize > 1 && Accounted(p, refs) && CanAllocate(e, p, s) && s.tokens != []
    requires s.cached == 0
    requires Allocate(e, p, s) == Some((q, t)) && AllocatedFor(e, p, refs, s, q, t) && Sound(e, q, s.tokens, t.table)
    ensures Relabelled(e, p, q, if |t.tokens| > t.cached then [t] else [], true)
  {
    hide Accounted, AllocUpto, NumBlocks, Sound, Live, Kept, Untouched, BlockOf;
    HeldAllocated(e, p, refs, s, NumBlocks(|s.tokens|, e.blockSize));
    var batch := if |t.tokens| > t.cached then [t] else [];
    forall b, x | 0 <= b < |q.blocks| && 0 <= x && InLast(e, q.blocks[b].held, x)
      ensures LabelFrom(e, p, q, batch, true, b, x)
    {
      if q.blocks[b].held != p.blocks[b].held {
        var j :| 0 <= j < |t.table| && t.cached <= j * e.blockSize && t.table[j] == b;
        WrittenLabel(e, q, s, t, j, x);
        assert WriterOf(e, batch, true, 0, b, x, q.blocks[b].held[..x + 1]);
      }
    }
  }

  lemma WrittenLabel(e: Env, q: Pool, s: SeqState, t: SeqState, j: nat, x: nat)
    requires e.blockSize > 1 && t.tokens == s.tokens && s.tokens != []
    requires |t.table| == NumBlocks(|s.tokens|, e.blockSize)
    requires Sound(e, q, s.tokens, t.table) && j < |t.table| && t.cached <= j * e.blockSize
    requires t.table[j] < |q.blocks| && InLast(e, q.blocks[t.table[j]].held, x)
    ensures t.cached <= x < |t.tokens| && BlockOf(e, x) == j
    ensures t.tokens[..x + 1] == q.blocks[t.table[j]].held[..x + 1]
  {
    hide BlockOf, NumBlocks;
    var held, n := q.blocks[t.table[j]].held, |s.tokens|;
    assert held == Prefix(e, s.tokens, j + 1);
    LastBlockSpan(n, e.blockSize, |t.table|);
    MulLe(j, |t.table| - 1, e.blockSize);
    MulAdd(j, 1, e.blockSize);
    BlockIs(e, |held| - 1, j);
    BlockSpan(e, x);
    assert held[..x + 1] == s.tokens[..x + 1];
  }

  lemma {:induction false} PrefillRelabels(e: Env, made: Made, cfg: Config, p: Pool, st: Prefill)
    requires EnvOk(e) && Injective(e) && e.blockSize > 1 && PrefillSound(e, made, st)
    requires PrefillTrusted(e, made, cfg, st)
    requires Relabelled(e, p, st.pool, st.batch, true)
    ensures PrefillLoop(e, cfg, st).Some?
    ensures var r := PrefillLoop(e, cfg, st).value; Relabelled(e, p, r.pool, r.batch, true)
    decreases |st.waiting|
  {
    hide PrefillSound, Admit, Injective, EnvOk, Relabelled, TrustedAdmission;
    if Admissible(e, cfg, st) {
      AdmitSound(e, made, st);
      AdmitMovesLabels(e, made, p, st);
      var t := AdmitMoves(e, st);
      PrefillRelabels(e, made, cfg, p, Admit(e, st).value);
    }
  }

  lemma AdmitMovesLabels(e: Env, made: Made, p: Pool, st: Prefill)
    requires EnvOk(e) && Injective(e) && e.blockSize > 1 && PrefillSound(e, made, st)
    requires Relabelled(e, p, st.pool, st.batch, true)
    requires st.waiting != [] && CanAllocate(e, st.pool, st.waiting[0])
    requires TrustedAdmission(e, made, st.pool, st.waiting[0]) && Admit(e, st).Some?
    ensures Relabelled(e, p, Admit(e, st).value.pool, Admit(e, st).value.batch, true)
  {
    hide *;
    var s := st.waiting[0];
    PrefillSoundIs(e, made, st);
    var q, t := AllocateTrusted(e, made, st.pool, Refs(st.running), s);
    AdmitRelabels(e, st.pool, Refs(st.running), s, q, t);
    var more := if |t.tokens| > t.cached then [t] else [];
    RelabelledTwice(e, p, st.pool, q, st.batch, more, true);
    AdmittedBatch(e, st, q, t);
    assert st.batch + [] == st.batch;
  }

  lemma AdmittedBatch(e: Env, st: Prefill, q: Pool, t: SeqState)
    requires e.blockSize > 0 && st.waiting != [] && Allocate(e, st.pool, st.waiting[0]) == Some((q, t))
    ensures Admit(e, st).Some?
    ensures Admit(e, st).value.pool == q
    ensures Admit(e, st).value.batch == if |t.tokens| > t.cached then st.batch + [t] else st.batch
  {
    hide Allocate;
  }

  // ---------------------------------------------------------------- a decode relabels what it writes

  lemma MayAppendHeld(e: Env, p: Pool, s: SeqState)
    requires e.blockSize > 0 && MayAppend(e, p, s).Some?
    ensures var q, t := MayAppend(e, p, s).value.0, MayAppend(e, p, s).value.1;
            && t.tokens == s.tokens && |q.blocks| == |p.blocks| && t.table != []
            && forall b :: 0 <= b < |p.blocks| && b != t.table[|t.table| - 1] ==> q.blocks[b].held == p.blocks[b].held
  {
    hide HeldBefore, LastHistory, BlockTokens, RemoveFirst;
  }

  /** One decode step relabels only the position it writes. */
  lemma AppendRelabels(e: Env, made: Made, p: Pool, refs: multiset<nat>, s: SeqState)
    requires EnvOk(e) && e.blockSize > 1 && Accounted(p, refs + multiset(s.table)) && Honest(e, made, p)
    requires Live(e, p, s, |s.tokens|) && CanAppend(e, p, s) && !Faulty(e, s) && SoundSeq(e, p, s, Computed(s))
    requires s.noCache ==> EndsMade(made, s.tokens)
    ensures MayAppend(e, p, s).Some?
    ensures Relabelled(e, p, MayAppend(e, p, s).value.0, [MayAppend(e, p, s).value.1], false)
  {
    hide Accounted, Honest, MayAppend, CanAppend, SoundSeq, EnvOk, BlockOf, Live, NumBlocks;
    MayAppendSound(e, made, p, refs, s);
    MayAppendHeld(e, p, s);
    MayAppendAccounted(e, p, refs, s);
    var q, t := MayAppend(e, p, s).value.0, MayAppend(e, p, s).value.1;
    var id, n := t.table[|t.table| - 1], |s.tokens|;
    AppendedTable(e, p, refs, s, q, t);
    LastIsWhole(e, q, t);
    forall b, x | 0 <= b < |q.blocks| && 0 <= x && InLast(e, q.blocks[b].held, x)
      ensures LabelFrom(e, p, q, [t], false, b, x)
    {
      if b == id {
        if x == n - 1 {
          assert t.tokens[..n] == t.tokens;
          assert WriterOf(e, [t], false, 0, b, x, q.blocks[b].held[..x + 1]);
        } else {
          EarlierLabel(e, p, s, t, x);
        }
      }
    }
  }

  lemma AppendedTable(e: Env, p: Pool, refs: multiset<nat>, s: SeqState, q: Pool, t: SeqState)
    requires e.blockSize > 1 && Appended(e, p, refs, s, q, t) && Live(e, p, s, |s.tokens|)
    ensures |s.tokens| >= 2 && |t.table| == NumBlocks(|s.tokens|, e.blockSize) && t.tokens == s.tokens
    ensures |s.table| == NumBlocks(|s.tokens| - 1, e.blockSize) && (t.table == s.table || |t.table| == |s.table| + 1)
    ensures s.admitted <= |s.tokens| && (|s.tokens| == s.admitted ==> |s.tokens| % e.blockSize == 0)
  {
    hide Accounted, Kept, Untouched, NumBlocks, Own;
    if t.table != s.table {
      assert |t.table[..|t.table| - 1]| == |s.table|;
    }
  }

  /** The last block of a sound table holds the whole history; the last token is in it. */
  lemma LastIsWhole(e: Env, q: Pool, t: SeqState)
    requires e.blockSize > 1 && SoundSeq(e, q, t, |t.tokens|) && t.tokens != []
    requires |t.table| == NumBlocks(|t.tokens|, e.blockSize)
    ensures t.table != [] && t.table[|t.table| - 1] < |q.blocks| && q.blocks[t.table[|t.table| - 1]].held == t.tokens
    ensures BlockOf(e, |t.tokens| - 1) == |t.table| - 1
  {
    hide BlockOf, NumBlocks;
    var n, k := |t.tokens|, |t.table|;
    LastBlockSpan(n, e.blockSize, k);
    BlockIs(e, n - 1, k - 1);
    assert t.tokens[..n] == t.tokens;
    assert q.blocks[t.table[k - 1]].held == Prefix(e, t.tokens, k);
  }

  /** Positions before the last one were there before. */
  lemma EarlierLabel(e: Env, p: Pool, s: SeqState, t: SeqState, x: nat)
    requires e.blockSize > 1 && SoundSeq(e, p, s, Computed(s)) && t.tokens == s.tokens && |s.tokens| >= 2
    requires |t.table| == NumBlocks(|s.tokens|, e.blockSize) && |s.table| == NumBlocks(|s.tokens| - 1, e.blockSize)
    requires t.table == s.table || |t.table| == |s.table| + 1
    requires InLast(e, s.tokens, x) && x < |s.tokens| - 1
    requires s.admitted <= |s.tokens|
    ensures t.table != [] && var b := t.table[|t.table| - 1];
            b < |p.blocks| && InLast(e, p.blocks[b].held, x) && p.blocks[b].held[..x + 1] == s.tokens[..x + 1]
  {
    hide BlockOf, NumBlocks;
    var n, k, c := |s.tokens|, |t.table|, Computed(s);
    LastBlockSpan(n, e.blockSize, k);
    LastBlockSpan(n - 1, e.blockSize, |s.table|);
    BlockIs(e, n - 1, k - 1);
    BlockSpan(e, x);
    if |t.table| == |s.table| + 1 {
      assert false;
    } else {
      BlockIs(e, n - 2, k - 1);
      var b := s.table[k - 1];
      var held := p.blocks[b].held;
      assert held == Prefix(e, s.tokens[..c], k);
      assert held == s.tokens[..c];
      assert held[..x + 1] == s.tokens[..x + 1];
      BlockIs(e, |held| - 1, k - 1);
    }
  }

  lemma {:induction false} DecodeRelabels(e: Env, made: Made, cfg: Config, p: Pool, st: Decode)
    requires EnvOk(e) && e.blockSize > 1 && DecodeSound(e, made, st)
    requires Relabelled(e, p, st.pool, st.batch, false)
    ensures DecodeLoop(e, cfg, st).Some? ==>
              var r := DecodeLoop(e, cfg, st).value; Relabelled(e, p, r.pool, r.batch, false)
    decreases |st.running|
  {
    hide MayAppend, MakeRoom, EnvOk, DecodeSound, Relabelled, Faulty;
    if st.running != [] && |st.batch| < cfg.maxSeqs {
      TurnSound(e, made, st);
      var cur := st.running[0];
      var room := MakeRoom(e, st.pool, st.waiting, st.running[1..], cur);
      RoomHeld(e, st.pool, st.waiting, st.running[1..], cur);
      SameIsRelabelled(e, st.pool, room.pool, [], false);
      RelabelledTwice(e, p, st.pool, room.pool, st.batch, [], false);
      assert st.batch + [] == st.batch;
      if room.ok && !Faulty(e, cur) {
        AppendRelabels(e, made, room.pool, Refs(st.batch) + Refs(room.running), cur);
        var r := MayAppend(e, room.pool, cur).value;
        RelabelledTwice(e, p, room.pool, r.0, st.batch, [r.1], false);
        DecodeRelabels(e, made, cfg, p, AfterTurn(e, room, cur, st.batch).value);
      }
    }
  }

  /** One call of `schedule` relabels only what its batch will write. */
  lemma ScheduleRelabels(e: Env, made: Made, cfg: Config, st: Sched)
    requires EnvOk(e) && Injective(e) && e.blockSize > 1 && SchedOk(e, st)
    requires Honest(e, made, st.pool) && SoundAll(e, made, st.pool, st.running)
    requires PrefillTrusted(e, made, cfg, Prefill(st.pool, st.waiting, st.running, [], 0))
    ensures Schedule(e, cfg, st).Some? ==>
              var r := Schedule(e, cfg, st).value; Relabelled(e, st.pool, r.sched.pool, r.batch, r.prefill)
  {
    hide PrefillLoop, DecodeLoop, PrefillOk, Good, Honest, SoundAll, Refs, Injective, EnvOk, PrefillTrusted, Relabelled;
    var start := Prefill(st.pool, st.waiting, st.running, [], 0);
    SameIsRelabelled(e, st.pool, st.pool, [], true);
    StartOk(e, st);
    PrefillStaysOk(e, cfg, Refs(st.running), start);
    PrefillRelabels(e, made, cfg, st.pool, start);
    PrefillStaysSound(e, made, cfg, start);
    var pre := PrefillLoop(e, cfg, start).value;
    if pre.batch == [] {
      TurnToDecode(e, Refs(st.running), pre);
      SoundNobody(e, made, pre.pool);
      NobodyWrites(e, st.pool, pre.pool);
      DecodeRelabels(e, made, cfg, st.pool, Decode(pre.pool, pre.waiting, pre.running, []));
    }
  }

  lemma NobodyWrites(e: Env, p: Pool, q: Pool)
    requires e.blockSize > 0 && Relabelled(e, p, q, [], true)
    ensures Relabelled(e, p, q, [], false)
  {
    hide BlockOf;
    forall b, x | 0 <= b < |q.blocks| && 0 <= x && InLast(e, q.blocks[b].held, x)
      ensures LabelFrom(e, p, q, [], false, b, x)
    {
      InLastIsWithin(e, q.blocks[b].held, x);
      assert LabelFrom(e, p, q, [], true, b, x);
    }
  }

  // ---------------------------------------------------------------- the batch as the model runs it

  /** Every batched table is sound and long enough. */
  ghost predicate BatchSound(e: Env, q: Pool, batch: seq<SeqState>, prefill: bool)
    requires e.blockSize > 0
  {
    forall i :: 0 <= i < |batch| ==>
      && Sound(e, q, batch[i].tokens, batch[i].table)
      && From(prefill, batch[i]) <= |batch[i].tokens| <= |batch[i].table| * e.blockSize
  }

  /** A sequence's part of the batch: its rows from the first that is not resident, and its block table. */
  function ItemOf(emb: Embedding, s: SeqState, prefill: bool): PagedLlm.Item
    requires From(prefill, s) <= |s.tokens|
  {
    PagedLlm.Item(Rows(emb, s.tokens)[From(prefill, s)..], s.table, From(prefill, s))
  }

  function ItemsOf(emb: Embedding, batch: seq<SeqState>, prefill: bool): (r: seq<PagedLlm.Item>)
    requires forall i :: 0 <= i < |batch| ==> From(prefill, batch[i]) <= |batch[i].tokens|
    ensures |r| == |batch| && forall i :: 0 <= i < |batch| ==> r[i] == ItemOf(emb, batch[i], prefill)
  {
    seq(|batch|, i requires 0 <= i < |batch| => ItemOf(emb, batch[i], prefill))
  }

  function ResidentOf(emb: Embedding, batch: seq<SeqState>, prefill: bool): (r: seq<seq<Vec>>)
    requires forall i :: 0 <= i < |batch| ==> From(prefill, batch[i]) <= |batch[i].tokens|
    ensures |r| == |batch|
    ensures forall i :: 0 <= i < |batch| ==> r[i] == Rows(emb, batch[i].tokens)[..From(prefill, batch[i])]
  {
    seq(|batch|, i requires 0 <= i < |batch| => Rows(emb, batch[i].tokens)[..From(prefill, batch[i])])
  }

  lemma BatchAligned(m: PagedLlm.BatchedPagedLLM, e: Env, emb: Embedding, q: Pool, batch: seq<SeqState>, prefill: bool)
    requires Matches(m, e, q) && e.blockSize > 0 && BatchSound(e, q, batch, prefill)
    ensures var items, histories := ItemsOf(emb, batch, prefill), ResidentOf(emb, batch, prefill);
            m.Aligned(items, histories) && m.Covered(items)
  {
    hide From;
    forall i | 0 <= i < |batch|
      ensures PagedLlm.InPool(batch[i].table, m.numBlocks)
    {
      assert Sound(e, q, batch[i].tokens, batch[i].table);
    }
  }

  ghost function PartsOf(m: PagedLlm.BatchedPagedLLM, e: Env, emb: Embedding, q: Pool, batch: seq<SeqState>,
                         prefill: bool)
    : seq<PagedLlm.Part>
    requires Matches(m, e, q) && e.blockSize > 0 && BatchSound(e, q, batch, prefill)
  {
    BatchAligned(m, e, emb, q, batch, prefill);
    m.PartsOf(ItemsOf(emb, batch, prefill), ResidentOf(emb, batch, prefill))
  }

  /** What the part of a sequence says about its position `x`. */
  lemma PartAt(m: PagedLlm.BatchedPagedLLM, e: Env, emb: Embedding, q: Pool, batch: seq<SeqState>, prefill: bool,
               i: nat, x: nat)
    requires Matches(m, e, q) && e.blockSize > 0 && BatchSound(e, q, batch, prefill)
    requires i < |batch| && x < |batch[i].tokens|
    ensures var s, part := batch[i], PartsOf(m, e, emb, q, batch, prefill)[i];
            && |part.history| == From(prefill, s) && |part.slots| == |s.tokens| == |part.history| + |part.chunk|
            && BlockOf(e, x) < |s.table| && s.table[BlockOf(e, x)] < |q.blocks|
            && part.slots[x] == SlotIn(e, s.table[BlockOf(e, x)], x) < m.mem.Length1
            && PagedLlm.Upto(part, x) == Rows(emb, s.tokens[..x + 1])
  {
    hide From;
    var s := batch[i];
    BatchAligned(m, e, emb, q, batch, prefill);
    assert Sound(e, q, s.tokens, s.table);
    PagedLlm.InTable(s.table, e.blockSize, x);
    PagedLlm.SlotInPool(s.table, e.blockSize, m.numBlocks, x);
    RowsPrefix(emb, s.tokens, x + 1);
    var rows := Rows(emb, s.tokens);
    assert rows[..From(prefill, s)] + rows[From(prefill, s)..] == rows;
  }

  lemma PartsFit(m: PagedLlm.BatchedPagedLLM, e: Env, emb: Embedding, q: Pool, batch: seq<SeqState>, prefill: bool)
    requires Matches(m, e, q) && e.blockSize > 0 && BatchSound(e, q, batch, prefill)
    ensures |PartsOf(m, e, emb, q, batch, prefill)| == |batch| && m.Fit(PartsOf(m, e, emb, q, batch, prefill))
    ensures forall i :: 0 <= i < |batch| ==> |PartsOf(m, e, emb, q, batch, prefill)[i].slots| == |batch[i].tokens|
    ensures forall i :: 0 <= i < |batch| ==>
              |PartsOf(m, e, emb, q, batch, prefill)[i].history| == From(prefill, batch[i])
  {
    hide From, BatchSound, SlotIn, BlockOf;
    BatchAligned(m, e, emb, q, batch, prefill);
    var parts := PartsOf(m, e, emb, q, batch, prefill);
    forall i | 0 <= i < |batch|
      ensures parts[i].Fits(m.mem.Length1) && |parts[i].slots| == |batch[i].tokens|
      ensures |parts[i].history| == From(prefill, batch[i])
    {
      PartSizes(m, e, emb, q, batch, prefill, i);
      forall x | 0 <= x < |parts[i].slots|
        ensures parts[i].slots[x] < m.mem.Length1
      {
        PartAt(m, e, emb, q, batch, prefill, i, x);
      }
    }
  }

  lemma PartSizes(m: PagedLlm.BatchedPagedLLM, e: Env, emb: Embedding, q: Pool, batch: seq<SeqState>, prefill: bool,
                  i: nat)
    requires Matches(m, e, q) && e.blockSize > 0 && BatchSound(e, q, batch, prefill) && i < |batch|
    ensures var part := PartsOf(m, e, emb, q, batch, prefill)[i];
            |part.slots| == |batch[i].tokens| == |part.history| + |part.chunk|
              && |part.history| == From(prefill, batch[i])
  {
    hide From;
    BatchAligned(m, e, emb, q, batch, prefill);
  }

  /** Equal slots of sound tables are equal positions of equal prefixes. */
  lemma SlotsMeanTheSame(e: Env, q: Pool, b: nat, x: nat, s: SeqState, y: nat)
    requires e.blockSize > 0 && Sound(e, q, s.tokens, s.table) && y < |s.tokens| && BlockOf(e, y) < |s.table|
    requires b < |q.blocks| && InLast(e, q.blocks[b].held, x) && SlotIn(e, b, x) == SlotIn(e, s.table[BlockOf(e, y)], y)
    ensures x == y && b == s.table[BlockOf(e, y)] && q.blocks[b].held[..x + 1] == s.tokens[..y + 1]
  {
    PagedLlm.SlotInjective(b, OffsetOf(e, x), s.table[BlockOf(e, y)], OffsetOf(e, y), e.blockSize);
    SoundLabel(e, q, s.tokens, s.table, y);
    SamePlace(e, x, y);
  }

  /** The slot is written exactly by a sequence whose own position it is. */
  lemma WrittenIsOwn(m: PagedLlm.BatchedPagedLLM, e: Env, emb: Embedding, q: Pool, batch: seq<SeqState>,
                     prefill: bool, z: nat)
    returns (j: nat, y: nat)
    requires Matches(m, e, q) && e.blockSize > 0 && BatchSound(e, q, batch, prefill)
    requires m.Written(PartsOf(m, e, emb, q, batch, prefill), z)
    ensures j < |batch| && From(prefill, batch[j]) <= y < |batch[j].tokens| && BlockOf(e, y) < |batch[j].table|
    ensures z == SlotIn(e, batch[j].table[BlockOf(e, y)], y)
    ensures Sound(e, q, batch[j].tokens, batch[j].table)
    ensures y < |PartsOf(m, e, emb, q, batch, prefill)[j].slots|
    ensures PartsOf(m, e, emb, q, batch, prefill)[j].slots[y] == z
  {
    hide From, SlotIn, BlockOf;
    var parts := PartsOf(m, e, emb, q, batch, prefill);
    PartsFit(m, e, emb, q, batch, prefill);
    j :| 0 <= j < |parts| && PagedLlm.Writes(parts[j], z);
    y :| |parts[j].history| <= y < |parts[j].slots| && parts[j].slots[y] == z;
    PartAt(m, e, emb, q, batch, prefill, j, y);
  }

  lemma BatchAgrees(m: PagedLlm.BatchedPagedLLM, e: Env, emb: Embedding, q: Pool, batch: seq<SeqState>, prefill: bool)
    requires Matches(m, e, q) && e.blockSize > 0 && BatchSound(e, q, batch, prefill)
    ensures m.Fit(PartsOf(m, e, emb, q, batch, prefill)) && m.Agree(PartsOf(m, e, emb, q, batch, prefill))
  {
    hide From, BatchSound, SlotIn, BlockOf, PartsOf;
    PartsFit(m, e, emb, q, batch, prefill);
    var parts := PartsOf(m, e, emb, q, batch, prefill);
    forall i, x, j, y | 0 <= i < |parts| && 0 <= j < |parts| && 0 <= x < |parts[i].slots|
                        && |parts[j].history| <= y < |parts[j].slots| && parts[i].slots[x] == parts[j].slots[y]
      ensures PagedLlm.SameMeaning(parts[i], x, parts[j], y)
    {
      TwoPositions(m, e, emb, q, batch, prefill, i, x, j, y);
    }
  }

  lemma TwoPositions(m: PagedLlm.BatchedPagedLLM, e: Env, emb: Embedding, q: Pool, batch: seq<SeqState>, prefill: bool,
                     i: nat, x: nat, j: nat, y: nat)
    requires Matches(m, e, q) && e.blockSize > 0 && BatchSound(e, q, batch, prefill)
    requires i < |batch| && x < |batch[i].tokens| && j < |batch| && y < |batch[j].tokens|
    requires var parts := PartsOf(m, e, emb, q, batch, prefill);
             && |parts| == |batch| && x < |parts[i].slots| && y < |parts[j].slots|
             && x < |parts[i].history| + |parts[i].chunk| && y < |parts[j].history| + |parts[j].chunk|
             && parts[i].slots[x] == parts[j].slots[y]
    ensures var parts := PartsOf(m, e, emb, q, batch, prefill); PagedLlm.SameMeaning(parts[i], x, parts[j], y)
  {
    hide From, SlotIn, BlockOf, PartsOf;
    PartAt(m, e, emb, q, batch, prefill, i, x);
    PartAt(m, e, emb, q, batch, prefill, j, y);
    assert Sound(e, q, batch[i].tokens, batch[i].table) && Sound(e, q, batch[j].tokens, batch[j].table);
    SoundLabel(e, q, batch[i].tokens, batch[i].table, x);
    SlotsMeanTheSame(e, q, batch[i].table[BlockOf(e, x)], x, batch[j], y);
  }

  /** A memory that stores what the pool held before the call can run the batch of the call. */
  lemma BatchCoherent(m: PagedLlm.BatchedPagedLLM, e: Env, emb: Embedding, p: Pool, q: Pool, batch: seq<SeqState>,
                      prefill: bool)
    requires Matches(m, e, p) && e.blockSize > 0 && Stores(m, e, emb, p)
    requires Relabelled(e, p, q, batch, prefill) && BatchSound(e, q, batch, prefill)
    ensures Matches(m, e, q) && m.Coherent(PartsOf(m, e, emb, q, batch, prefill))
  {
    hide From, BatchSound, SlotIn, BlockOf, PartsOf, Relabelled, Stores, PagedLlm.BatchedPagedLLM.Means;
    RelabelledSize(e, p, q, batch, prefill);
    BatchAgrees(m, e, emb, q, batch, prefill);
    PartsFit(m, e, emb, q, batch, prefill);
    var parts := PartsOf(m, e, emb, q, batch, prefill);
    forall i, x | 0 <= i < |parts| && 0 <= x < |parts[i].history| && !m.Written(parts, parts[i].slots[x])
      ensures m.Means(parts[i].slots[x], PagedLlm.Upto(parts[i], x))
    {
      assert parts[i].Fits(m.mem.Length1);
      UnwrittenIsStored(m, e, emb, p, q, batch, prefill, i, x);
    }
  }

  lemma RelabelledSize(e: Env, p: Pool, q: Pool, batch: seq<SeqState>, prefill: bool)
    requires e.blockSize > 0 && Relabelled(e, p, q, batch, prefill)
    ensures |q.blocks| == |p.blocks|
  {
  }

  lemma UnwrittenIsStored(m: PagedLlm.BatchedPagedLLM, e: Env, emb: Embedding, p: Pool, q: Pool, batch: seq<SeqState>,
                          prefill: bool, i: nat, x: nat)
    requires Matches(m, e, p) && Matches(m, e, q) && e.blockSize > 0 && Stores(m, e, emb, p)
    requires Relabelled(e, p, q, batch, prefill) && BatchSound(e, q, batch, prefill)
    requires i < |batch| && x < |batch[i].tokens|
    requires var parts := PartsOf(m, e, emb, q, batch, prefill);
             |parts| == |batch| && x < |parts[i].slots| && x < |parts[i].history| + |parts[i].chunk|
             && !m.Written(parts, parts[i].slots[x])
    ensures var part := PartsOf(m, e, emb, q, batch, prefill)[i]; m.Means(part.slots[x], PagedLlm.Upto(part, x))
  {
    hide SlotIn, BlockOf, PartsOf, PagedLlm.BatchedPagedLLM.Means;
    var s := batch[i];
    PartAt(m, e, emb, q, batch, prefill, i, x);
    assert Sound(e, q, s.tokens, s.table);
    SoundLabel(e, q, s.tokens, s.table, x);
    var b := s.table[BlockOf(e, x)];
    assert LabelFrom(e, p, q, batch, prefill, b, x);
    var prefix := q.blocks[b].held[..x + 1];
    if WritesAt(e, batch, prefill, b, x, prefix) {
      var k: nat :| WriterOf(e, batch, prefill, k, b, x, prefix);
      WriterWrites(m, e, emb, q, batch, prefill, k, b, x, prefix);
    }
  }

  lemma WriterWrites(m: PagedLlm.BatchedPagedLLM, e: Env, emb: Embedding, q: Pool, batch: seq<SeqState>, prefill: bool,
                     k: nat, b: nat, x: nat, prefix: seq<Token>)
    requires Matches(m, e, q) && e.blockSize > 0 && BatchSound(e, q, batch, prefill)
    requires WriterOf(e, batch, prefill, k, b, x, prefix)
    ensures var parts := PartsOf(m, e, emb, q, batch, prefill);
            && k < |parts| && x < |parts[k].slots| && parts[k].slots[x] == SlotIn(e, b, x)
            && x < |parts[k].history| + |parts[k].chunk| && PagedLlm.Upto(parts[k], x) == Rows(emb, prefix)
            && m.Written(parts, SlotIn(e, b, x))
  {
    hide From, SlotIn, BlockOf, PartsOf, BatchSound;
    PartsFit(m, e, emb, q, batch, prefill);
    PartAt(m, e, emb, q, batch, prefill, k, x);
    var parts := PartsOf(m, e, emb, q, batch, prefill);
    assert PagedLlm.Writes(parts[k], SlotIn(e, b, x));
  }

  /** After the batch the memory stores what the pool holds after the call. */
  lemma BatchStores(m: PagedLlm.BatchedPagedLLM, e: Env, emb: Embedding, p: Pool, q: Pool, batch: seq<SeqState>,
                    prefill: bool, before: iset<(nat, seq<Vec>)>)
    requires Matches(m, e, q) && e.blockSize > 0 && Relabelled(e, p, q, batch, prefill)
    requires BatchSound(e, q, batch, prefill)
    requires StoredBefore(e, emb, p, before)
    requires var parts := PartsOf(m, e, emb, q, batch, prefill);
             m.Fit(parts) && m.LayersDone(parts, m.s.depth) && m.Keeps(before, parts)
    ensures Stores(m, e, emb, q)
  {
    hide SlotIn, BlockOf, PartsOf, PagedLlm.BatchedPagedLLM.Means, PagedLlm.BatchedPagedLLM.LayersDone, StoredBefore,
      PagedLlm.BatchedPagedLLM.Keeps, BatchSound, InLast;
    forall b, x | 0 <= b < |q.blocks| && 0 <= x && InLast(e, q.blocks[b].held, x)
      ensures x < |q.blocks[b].held| && m.Means(SlotIn(e, b, x), Rows(emb, q.blocks[b].held[..x + 1]))
    {
      LabelStored(m, e, emb, p, q, batch, prefill, before, b, x);
    }
  }

  /** What the memory meant when it stored what the pool held. */
  ghost predicate StoredBefore(e: Env, emb: Embedding, p: Pool, before: iset<(nat, seq<Vec>)>)
    requires e.blockSize > 0
  {
    forall b, x :: 0 <= b < |p.blocks| && 0 <= x && InLast(e, p.blocks[b].held, x) ==>
      (SlotIn(e, b, x), Rows(emb, p.blocks[b].held[..x + 1])) in before
  }

  lemma StoresBefore(m: PagedLlm.BatchedPagedLLM, e: Env, emb: Embedding, p: Pool)
    requires Matches(m, e, p) && e.blockSize > 0 && Stores(m, e, emb, p)
    ensures StoredBefore(e, emb, p, m.Meanings())
  {
    hide SlotIn, BlockOf, PagedLlm.BatchedPagedLLM.Means;
    forall b, x | 0 <= b < |p.blocks| && 0 <= x && InLast(e, p.blocks[b].held, x)
      ensures (SlotIn(e, b, x), Rows(emb, p.blocks[b].held[..x + 1])) in m.Meanings()
    {
      assert m.Means(SlotIn(e, b, x), Rows(emb, p.blocks[b].held[..x + 1]));
    }
  }

  lemma LabelStored(m: PagedLlm.BatchedPagedLLM, e: Env, emb: Embedding, p: Pool, q: Pool, batch: seq<SeqState>,
                    prefill: bool, before: iset<(nat, seq<Vec>)>, b: nat, x: nat)
    requires Matches(m, e, q) && e.blockSize > 0 && Relabelled(e, p, q, batch, prefill)
    requires BatchSound(e, q, batch, prefill)
    requires StoredBefore(e, emb, p, before) && b < |q.blocks| && InLast(e, q.blocks[b].held, x)
    requires var parts := PartsOf(m, e, emb, q, batch, prefill);
             m.Fit(parts) && m.LayersDone(parts, m.s.depth) && m.Keeps(before, parts)
    ensures x < |q.blocks[b].held| && m.Means(SlotIn(e, b, x), Rows(emb, q.blocks[b].held[..x + 1]))
  {
    hide From, SlotIn, BlockOf, PartsOf, BatchSound, PagedLlm.BatchedPagedLLM.Means,
         PagedLlm.BatchedPagedLLM.LayersDone,
      PagedLlm.BatchedPagedLLM.Written;
    var parts, prefix, z := PartsOf(m, e, emb, q, batch, prefill), q.blocks[b].held[..x + 1], SlotIn(e, b, x);
    assert LabelFrom(e, p, q, batch, prefill, b, x);
    if WritesAt(e, batch, prefill, b, x, prefix) {
      var k: nat :| WriterOf(e, batch, prefill, k, b, x, prefix);
      WriterWrites(m, e, emb, q, batch, prefill, k, b, x, prefix);
      PagedRuns.WrittenMeans(m, parts, k, x);
    } else if m.Written(parts, z) {
      var j, y := WrittenIsOwn(m, e, emb, q, batch, prefill, z);
      SlotsMeanTheSame(e, q, b, x, batch[j], y);
      PartsFit(m, e, emb, q, batch, prefill);
      PartAt(m, e, emb, q, batch, prefill, j, y);
      PagedRuns.WrittenMeans(m, parts, j, y);
    } else {
      assert (z, Rows(emb, prefix)) in before;
    }
  }

  // ---------------------------------------------------------------- whole runs

  /** What each request of a batch should get: the hidden states of a lone runner on its own tokens. */
  ghost predicate LoneBatch(s: Stack, emb: Embedding, r: Scheduled, out: seq<seq<Vec>>) {
    && |out| == |r.batch|
    && forall i :: 0 <= i < |r.batch| ==>
         && From(r.prefill, r.batch[i]) < |r.batch[i].tokens|
         && var rows, from := Rows(emb, r.batch[i].tokens), From(r.prefill, r.batch[i]);
            out[i] == PagedLlm.LoneHidden(s, rows[..from], rows[from..])
  }

  lemma ScheduledSound(e: Env, made: Made, cfg: Config, st: Sched)
    requires EnvOk(e) && Injective(e) && e.blockSize > 1 && SchedOk(e, st) && Schedule(e, cfg, st).Some?
    requires Honest(e, made, st.pool) && SoundAll(e, made, st.pool, st.running)
    requires PrefillTrusted(e, made, cfg, Prefill(st.pool, st.waiting, st.running, [], 0))
    ensures var r := Schedule(e, cfg, st).value;
            && BatchSound(e, r.sched.pool, r.batch, r.prefill)
            && forall i :: 0 <= i < |r.batch| ==> From(r.prefill, r.batch[i]) < |r.batch[i].tokens|
  {
    hide Schedule, SchedOk, Honest, SoundAll, Injective, PrefillTrusted, FaultyStep, BatchOk, Sound;
    ScheduleSound(e, made, cfg, st);
    ScheduleGood(e, cfg, st);
    var r := Schedule(e, cfg, st).value;
    forall i | 0 <= i < |r.batch|
      ensures Sound(e, r.sched.pool, r.batch[i].tokens, r.batch[i].table)
      ensures From(r.prefill, r.batch[i]) < |r.batch[i].tokens| <= |r.batch[i].table| * e.blockSize
    {
      BatchedSound(e, made, st, r, i);
      TableCovers(e, st, r, i, |r.batch[i].tokens| - 1);
      PrefillComputes(e, cfg, st, i);
    }
  }

  lemma BatchedSound(e: Env, made: Made, st: Sched, r: Scheduled, i: nat)
    requires e.blockSize > 1 && BatchOk(e, st, r) && SoundAll(e, made, r.sched.pool, r.sched.running) && i < |r.batch|
    ensures r.batch[i].tokens != [] && Sound(e, r.sched.pool, r.batch[i].tokens, r.batch[i].table)
  {
    hide Good, Sound, WritesApart, OwnLasts;
    var s := r.batch[i];
    assert s in r.batch && s.pending;
    var j :| 0 <= j < |r.sched.running| && r.sched.running[j] == s;
    assert SoundSeq(e, r.sched.pool, s, Done(s));
    assert s.tokens[..|s.tokens|] == s.tokens;
    BatchTables(e, st, r, i);
  }

  /** A prefill batches only sequences with something left to compute. */
  lemma {:induction false} BatchedHaveRows(e: Env, cfg: Config, st: Prefill)
    requires e.blockSize > 0 && PrefillLoop(e, cfg, st).Some? && forall s :: s in st.batch ==> s.cached < |s.tokens|
    ensures forall s :: s in PrefillLoop(e, cfg, st).value.batch ==> s.cached < |s.tokens|
    decreases |st.waiting|
  {
    hide Allocate, CanAllocate;
    if Admissible(e, cfg, st) {
      var t := AdmitMoves(e, st);
      BatchedHaveRows(e, cfg, Admit(e, st).value);
    }
  }

  lemma PrefillComputes(e: Env, cfg: Config, st: Sched, i: nat)
    requires e.blockSize > 0 && Schedule(e, cfg, st).Some? && i < |Schedule(e, cfg, st).value.batch|
    ensures var r := Schedule(e, cfg, st).value; r.prefill ==> r.batch[i].cached < |r.batch[i].tokens|
  {
    hide PrefillLoop, DecodeLoop;
    var start := Prefill(st.pool, st.waiting, st.running, [], 0);
    BatchedHaveRows(e, cfg, start);
    var r := Schedule(e, cfg, st).value;
    assert r.batch[i] in r.batch;
  }

  /** Runs the batch of one call of `schedule` through the model. */
  method ServeBatch(e: Env, made: Made, cfg: Config, m: PagedLlm.BatchedPagedLLM, emb: Embedding, st: Sched,
                    r: Scheduled)
    returns (out: seq<seq<Vec>>)
    requires EnvOk(e) && Injective(e) && e.blockSize > 1 && SchedOk(e, st)
    requires Honest(e, made, st.pool) && SoundAll(e, made, st.pool, st.running)
    requires PrefillTrusted(e, made, cfg, Prefill(st.pool, st.waiting, st.running, [], 0))
    requires Schedule(e, cfg, st) == Some(r) && Matches(m, e, st.pool) && Stores(m, e, emb, st.pool)
    modifies m.mem
    ensures LoneBatch(m.s, emb, r, out) && Matches(m, e, r.sched.pool) && Stores(m, e, emb, r.sched.pool)
  {
    hide Schedule, SchedOk, Honest, SoundAll, Injective, PrefillTrusted, Stores, Relabelled,
      PagedLlm.LoneHidden, PagedLlm.BatchedPagedLLM.Means, PagedLlm.BatchedPagedLLM.LayersDone, From, StoredBefore,
      PagedLlm.BatchedPagedLLM.Keeps, PagedLlm.BatchedPagedLLM.Coherent;
    ScheduledSound(e, made, cfg, st);
    ScheduleRelabels(e, made, cfg, st);
    ghost var before := m.Meanings();
    StoresBefore(m, e, emb, st.pool);
    BatchCoherent(m, e, emb, st.pool, r.sched.pool, r.batch, r.prefill);
    BatchAligned(m, e, emb, r.sched.pool, r.batch, r.prefill);
    PartsFit(m, e, emb, r.sched.pool, r.batch, r.prefill);
    var items := ItemsOf(emb, r.batch, r.prefill);
    var got := m.AppendBatch(items, ResidentOf(emb, r.batch, r.prefill));
    BatchStores(m, e, emb, st.pool, r.sched.pool, r.batch, r.prefill, before);
    out := got.value;
  }

  /** What event `k` of the run should put out: nothing, unless it is a step. */
  ghost predicate Served(e: Env, cfg: Config, s: Stack, emb: Embedding, w: World, evs: seq<Event>, k: nat,
                         out: seq<seq<Vec>>)
    requires e.blockSize > 0 && k < |evs|
  {
    var now := Run(e, cfg, w, evs[..k]);
    && now.Some?
    && if evs[k].Step? then
         var r := Schedule(e, cfg, now.value.sched);
         r.Some? && LoneBatch(s, emb, r.value, out)
       else out == []
  }

  lemma {:induction false} RunSnoc(e: Env, cfg: Config, w: World, evs: seq<Event>, ev: Event)
    requires e.blockSize > 0 && Run(e, cfg, w, evs).Some?
    ensures Run(e, cfg, w, evs + [ev]) == Happen(e, cfg, Run(e, cfg, w, evs).value, ev)
    decreases |evs|
  {
    hide Happen;
    if evs == [] {
      assert ([] + [ev])[1..] == [];
      if Happen(e, cfg, w, ev).Some? {
        assert Run(e, cfg, Happen(e, cfg, w, ev).value, []) == Happen(e, cfg, w, ev);
      }
    } else {
      assert (evs + [ev])[1..] == evs[1..] + [ev] && (evs + [ev])[0] == evs[0];
      RunSnoc(e, cfg, Happen(e, cfg, w, evs[0]).value, evs[1..], ev);
    }
  }

  /** Events other than steps, and the end of a step, leave every block's history alone. */
  lemma EventHeld(e: Env, cfg: Config, w: World, ev: Event)
    requires e.blockSize > 0 && Happen(e, cfg, w, ev).Some?
    ensures var before := if ev.Step? then Schedule(e, cfg, w.sched).value.sched.pool else w.sched.pool;
            SameHeld(before, Happen(e, cfg, w, ev).value.sched.pool)
  {
    hide Schedule, DropAll;
    match ev {
      case Arrive(id, prompt, noCache) =>
      case Cancel(id) =>
        var found := Find(w.sched.running, id);
        if found.Some? { DropAllHeld(w.sched.pool, found.value.table); }
      case Step(tok, stops) =>
        var r := Schedule(e, cfg, w.sched).value;
        LeaveAllHeld(r.sched.(running := AllWithToken(r.sched.running, tok)), Stopping(r.batch, stops));
    }
  }

  /** One event: a step runs its batch through the model.  It fails where `schedule` does. */
  method ServeEvent(e: Env, made: Made, cfg: Config, m: PagedLlm.BatchedPagedLLM, emb: Embedding, w: World,
                    ghost evs: seq<Event>, ev: Event)
    returns (next: Option<World>, out: seq<seq<Vec>>)
    requires EnvOk(e) && Injective(e) && e.blockSize > 1 && WorldSound(e, made, w) && evs != [] && ev == evs[0]
    requires Proper(w.arrived, evs) && RunTrusted(e, made, cfg, w, evs)
    requires Matches(m, e, w.sched.pool) && Stores(m, e, emb, w.sched.pool)
    modifies m.mem
    ensures next == Happen(e, cfg, w, ev)
    ensures next.Some? ==>
              && WorldSound(e, made, next.value) && Proper(next.value.arrived, evs[1..])
              && RunTrusted(e, made, cfg, next.value, evs[1..])
              && Matches(m, e, next.value.sched.pool) && Stores(m, e, emb, next.value.sched.pool)
    ensures next.None? ==> Matches(m, e, w.sched.pool) && Stores(m, e, emb, w.sched.pool)
    ensures next.Some? && ev.Step? ==>
              Schedule(e, cfg, w.sched).Some? && LoneBatch(m.s, emb, Schedule(e, cfg, w.sched).value, out)
    ensures !ev.Step? ==> out == []
  {
    hide WorldSound, Schedule, Stores, Injective, EnvOk, PrefillTrusted, LoneBatch, Happen, SameHeld;
    OneEventSound(e, made, cfg, w, evs);
    next, out := Happen(e, cfg, w, ev), [];
    if next.None? {
      return;
    }
    EventHeld(e, cfg, w, ev);
    if ev.Step? {
      SoundWorld(e, made, w);
      StepSchedules(e, cfg, w, ev);
      var r := Schedule(e, cfg, w.sched).value;
      out := ServeBatch(e, made, cfg, m, emb, w.sched, r);
      StoresStays(m, e, emb, r.sched.pool, next.value.sched.pool);
    } else {
      StoresStays(m, e, emb, w.sched.pool, next.value.sched.pool);
    }
  }

  lemma SoundWorld(e: Env, made: Made, w: World)
    requires e.blockSize > 1 && WorldSound(e, made, w)
    ensures SchedOk(e, w.sched) && Honest(e, made, w.sched.pool) && SoundAll(e, made, w.sched.pool, w.sched.running)
  {
  }

  lemma StepSchedules(e: Env, cfg: Config, w: World, ev: Event)
    requires e.blockSize > 0 && ev.Step? && Happen(e, cfg, w, ev).Some?
    ensures Schedule(e, cfg, w.sched).Some?
  {
  }

  /** Every run of arrivals, cancels and steps of cached and uncached requests whose lookups may be trusted: at
      every step each batched request gets the hidden states of a lone runner on its own tokens, however blocks
      were shared, given back and issued again, and at every moment the memory holds what the pool says.  The run
      ends early exactly where `schedule` fails. */
  method ServeRun(e: Env, made: Made, cfg: Config, m: PagedLlm.BatchedPagedLLM, emb: Embedding, start: World,
                  evs: seq<Event>)
    returns (w: World, outs: seq<seq<seq<Vec>>>)
    requires EnvOk(e) && Injective(e) && e.blockSize > 1 && WorldSound(e, made, start)
    requires Proper(start.arrived, evs) && RunTrusted(e, made, cfg, start, evs)
    requires Matches(m, e, start.sched.pool) && Stores(m, e, emb, start.sched.pool)
    modifies m.mem
    ensures |outs| <= |evs| && Run(e, cfg, start, evs[..|outs|]) == Some(w) && WorldSound(e, made, w)
    ensures |outs| == |evs| || Happen(e, cfg, w, evs[|outs|]).None?
    ensures Matches(m, e, w.sched.pool) && Stores(m, e, emb, w.sched.pool)
    ensures forall k :: 0 <= k < |outs| ==> Served(e, cfg, m.s, emb, start, evs, k, outs[k])
  {
    hide WorldSound, Schedule, Stores, Injective, EnvOk, PrefillTrusted, LoneBatch, Happen, Proper, RunTrusted,
      Matches;
    w, outs := start, [];
    assert evs[..0] == [] && evs[0..] == evs;
    for k := 0 to |evs|
      invariant Run(e, cfg, start, evs[..k]) == Some(w) && WorldSound(e, made, w) && |outs| == k
      invariant Proper(w.arrived, evs[k..]) && RunTrusted(e, made, cfg, w, evs[k..])
      invariant Matches(m, e, w.sched.pool) && Stores(m, e, emb, w.sched.pool)
      invariant forall j :: 0 <= j < k ==> Served(e, cfg, m.s, emb, start, evs, j, outs[j])
    {
      assert evs[k..][0] == evs[k] && evs[k..][1..] == evs[k + 1..] && evs[..k + 1] == evs[..k] + [evs[k]];
      RunSnoc(e, cfg, start, evs[..k], evs[k]);
      var next, out := ServeEvent(e, made, cfg, m, emb, w, evs[k..], evs[k]);
      if next.None? {
        return;
      }
      w, outs := next.value, outs + [out];
    }
  }

  /** The run can start: a new pool holds nothing. */
  lemma NewPoolStores(m: PagedLlm.BatchedPagedLLM, e: Env, emb: Embedding, n: nat)
    requires m.Shaped() && m.blockSize == e.blockSize > 1 && m.numBlocks == n
    ensures forall made :: WorldSound(e, made, NewWorld(n))
    ensures Matches(m, e, NewWorld(n).sched.pool) && Stores(m, e, emb, NewWorld(n).sched.pool)
  {
    forall made: Made ensures WorldSound(e, made, NewWorld(n)) {
      NewWorldSound(e, made, n);
    }
  }
}
