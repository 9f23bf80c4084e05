/** Every operation of the block manager keeps the pool accounted for, and which of its assertions can
    fail: none for cache-enabled sequences, and exactly one, in exactly one situation, for the others.
 */
module BlockAccounting {
  import opened Arithmetic
  import opened BlockPool
  import opened Outcomes

  /** Blocks held by `refs` are still registered, or still not. */
  ghost predicate Kept(p: Pool, q: Pool, refs: multiset<nat>) {
    && |q.blocks| == |p.blocks|
    && forall id :: 0 <= id < |p.blocks| && id in refs ==> (q.blocks[id].hash == NONE <==> p.blocks[id].hash == NONE)
  }

  /** The memory of blocks held by `refs` is unchanged. */
  ghost predicate Untouched(p: Pool, q: Pool, refs: multiset<nat>) {
    && |q.blocks| == |p.blocks|
    && forall id :: 0 <= id < |p.blocks| && id in refs ==> q.blocks[id].held == p.blocks[id].held
  }

  lemma KeptTrans(p: Pool, q: Pool, r: Pool, refs: multiset<nat>, more: multiset<nat>)
    requires Kept(p, q, refs) && Kept(q, r, refs + more)
    ensures Kept(p, r, refs)
  {
  }

  lemma UntouchedTrans(p: Pool, q: Pool, r: Pool, refs: multiset<nat>, more: multiset<nat>)
    requires Untouched(p, q, refs) && Untouched(q, r, refs + more)
    ensures Untouched(p, r, refs)
  {
  }

  // ---------------------------------------------------------------- allocate

  /** The pool after a miss took block `id`. */
  function MissPool(p: Pool, id: nat, h: int, toks: seq<Token>, history: seq<Token>): Pool
    requires id < |p.blocks|
  {
    var q := Compute(AllocateBlock(p, id), id, history);
    if h != NONE then Register(q, id, h, toks) else q
  }

  lemma MissAccounted(p: Pool, all: multiset<nat>, h: int, toks: seq<Token>, history: seq<Token>)
    requires Accounted(p, all) && p.free != [] && h >= NONE
    ensures var id := p.free[0];
            && id < |p.blocks| && Take(p, id) == Some(AllocateBlock(p, id)) && id !in all
            && var q := MissPool(p, id, h, toks, history);
            && id < |q.blocks| && Accounted(q, all + multiset{id}) && q.blocks[id].hash == h
            && q.blocks[id].held == history
            && Kept(p, q, all) && Untouched(p, q, all) && |q.free| == |p.free| - 1
  {
    hide Accounted;
    var id := p.free[0];
    FreeIsUnused(p, all, id);
    AllocateAccounted(p, all, id);
    var q := AllocateBlock(p, id);
    ComputeAccounted(q, all + multiset{id}, id, history);
    if h != NONE { RegisterAccounted(Compute(q, id, history), all + multiset{id}, id, h, toks); }
  }

  lemma FreeIsUnused(p: Pool, all: multiset<nat>, id: nat)
    requires Accounted(p, all) && id in p.free
    ensures id < |p.blocks| && p.blocks[id].refCount == 0 && id !in all
  {
  }

  /** The pool after a hit on block `id`. */
  function HitPool(p: Pool, id: nat, h: int, toks: seq<Token>): Pool
    requires id < |p.blocks|
  {
    Register(if id in p.used then Share(p, id) else AllocateBlock(p, id), id, h, toks)
  }

  lemma HitAccounted(p: Pool, all: multiset<nat>, id: nat, h: int, toks: seq<Token>)
    requires Accounted(p, all) && id < |p.blocks| && p.blocks[id].hash != NONE && h >= 0
    ensures id !in p.used ==> Take(p, id) == Some(AllocateBlock(p, id))
    ensures var q := HitPool(p, id, h, toks);
            && id < |q.blocks| && Accounted(q, all + multiset{id}) && q.blocks[id].hash == h
            && q.blocks[id].held == p.blocks[id].held
            && Kept(p, q, all) && Untouched(p, q, all) && |p.free| - 1 <= |q.free| <= |p.free|
  {
    if id in p.used {
      ShareAccounted(p, all, id);
      RegisterAccounted(Share(p, id), all + multiset{id}, id, h, toks);
    } else {
      AllocateAccounted(p, all, id);
      RegisterAccounted(AllocateBlock(p, id), all + multiset{id}, id, h, toks);
    }
  }

  /** A hit is on a registered block of the pool. */
  lemma HitIsRegistered(e: Env, p: Pool, all: multiset<nat>, toks: seq<Token>, noCache: bool, h: int)
    requires EnvOk(e) && Accounted(p, all) && toks != [] && !Misses(e, p, toks, noCache, h)
    ensures var g := RollingHash(e, toks, noCache, h);
            g >= 0 && g in p.index && p.index[g] < |p.blocks| && p.blocks[p.index[g]].hash != NONE
              && p.blocks[p.index[g]].tokens == toks
    ensures !noCache && |toks| == e.blockSize
  {
  }

  /** What one step of the allocation loop does to the pool. */
  ghost predicate Stepped(e: Env, st: Alloc, refs: multiset<nat>, toks: seq<Token>, noCache: bool, r: Alloc) {
    && |r.table| == |st.table| + 1 && r.table[..|st.table|] == st.table
    && Accounted(r.pool, refs + multiset(r.table)) && Kept(st.pool, r.pool, refs + multiset(st.table))
    && Untouched(st.pool, r.pool, refs + multiset(st.table))
    && r.table[|st.table|] < |r.pool.blocks|
    && (r.miss ==> r.table[|st.table|] !in refs + multiset(st.table))
    && (r.pool.blocks[r.table[|st.table|]].hash == NONE <==> noCache || |toks| != e.blockSize)
    && |r.pool.free| >= |st.pool.free| - 1
    && (!r.miss ==> !noCache && |toks| == e.blockSize)
    && (st.miss ==> r.miss) && r.cached == if r.miss then st.cached else st.cached + e.blockSize
  }

  lemma StepMiss(e: Env, st: Alloc, toks: seq<Token>, noCache: bool)
    requires st.pool.free != [] && (st.miss || Misses(e, st.pool, toks, noCache, st.h))
    ensures var id, h := st.pool.free[0], RollingHash(e, toks, noCache, st.h);
            id < |st.pool.blocks| && Take(st.pool, id) == Some(AllocateBlock(st.pool, id)) ==>
              AllocStep(e, st, toks, noCache) ==
              Some(Alloc(MissPool(st.pool, id, h, toks, HeldBefore(st.pool, st.table) + toks), st.table + [id],
                         st.cached, h, true))
  {
    hide Misses, RollingHash, Register, Compute, HeldBefore;
  }

  lemma StepHit(e: Env, st: Alloc, toks: seq<Token>, noCache: bool)
    requires !st.miss && !Misses(e, st.pool, toks, noCache, st.h)
    ensures var h := RollingHash(e, toks, noCache, st.h);
            h in st.pool.index && var id := st.pool.index[h];
            && id < |st.pool.blocks|
            && (id !in st.pool.used ==> Take(st.pool, id) == Some(AllocateBlock(st.pool, id))) ==>
              AllocStep(e, st, toks, noCache)
                == Some(Alloc(HitPool(st.pool, id, h, toks), st.table + [id], st.cached + e.blockSize, h, false))
  {
    hide Register, Share;
  }

  /** One step of the allocation loop on a pool that is accounted for cannot fail. */
  lemma StepAccounted(e: Env, st: Alloc, refs: multiset<nat>, toks: seq<Token>, noCache: bool) returns (r: Alloc)
    requires EnvOk(e) && Accounted(st.pool, refs + multiset(st.table)) && st.pool.free != [] && toks != []
    ensures AllocStep(e, st, toks, noCache) == Some(r) && Stepped(e, st, refs, toks, noCache, r)
  {
    hide *;
    if st.miss || Misses(e, st.pool, toks, noCache, st.h) {
      r := MissStepAccounted(e, st, refs, toks, noCache);
    } else {
      r := HitStepAccounted(e, st, refs, toks, noCache);
    }
  }

  lemma MissStepAccounted(e: Env, st: Alloc, refs: multiset<nat>, toks: seq<Token>, noCache: bool) returns (r: Alloc)
    requires EnvOk(e) && Accounted(st.pool, refs + multiset(st.table)) && st.pool.free != []
    requires st.miss || Misses(e, st.pool, toks, noCache, st.h)
    ensures AllocStep(e, st, toks, noCache) == Some(r) && Stepped(e, st, refs, toks, noCache, r)
  {
    hide Accounted, Misses, Kept, Untouched, Take, AllocateBlock, AllocStep, MissPool;
    var p, h, all, id := st.pool, RollingHash(e, toks, noCache, st.h), refs + multiset(st.table), st.pool.free[0];
    var history := HeldBefore(p, st.table) + toks;
    MissAccounted(p, all, h, toks, history);
    StepMiss(e, st, toks, noCache);
    r := Alloc(MissPool(p, id, h, toks, history), st.table + [id], st.cached, h, true);
    assert refs + multiset(r.table) == all + multiset{id};
  }

  lemma HitStepAccounted(e: Env, st: Alloc, refs: multiset<nat>, toks: seq<Token>, noCache: bool) returns (r: Alloc)
    requires EnvOk(e) && Accounted(st.pool, refs + multiset(st.table)) && st.pool.free != [] && toks != []
    requires !st.miss && !Misses(e, st.pool, toks, noCache, st.h)
    ensures AllocStep(e, st, toks, noCache) == Some(r) && Stepped(e, st, refs, toks, noCache, r)
  {
    hide Accounted, Misses, Kept, Untouched, Take, AllocateBlock, AllocStep, HitPool;
    var p, h, all := st.pool, RollingHash(e, toks, noCache, st.h), refs + multiset(st.table);
    HitIsRegistered(e, p, all, toks, noCache, st.h);
    var id := p.index[h];
    StepHit(e, st, toks, noCache);
    HitAccounted(p, all, id, h, toks);
    r := Alloc(HitPool(p, id, h, toks), st.table + [id], st.cached + e.blockSize, h, false);
    assert refs + multiset(r.table) == all + multiset{id};
  }

  lemma DivLess(i: nat, n: nat, size: nat)
    requires size > 0 && i < NumBlocks(n, size)
    ensures i * size < n
  {
    Quotient(n + size - 1, size);
    var k := NumBlocks(n, size);
    assert k * size <= n + size - 1;
    assert (i + 1) * size <= k * size by { MulLe(i + 1, k, size); }
    assert (i + 1) * size == i * size + size;
  }

  lemma BlockLength(e: Env, tokens: seq<Token>, i: nat)
    ensures |BlockTokens(e, tokens, i)| == e.blockSize
            <==> i * e.blockSize + e.blockSize <= |tokens| || e.blockSize == 0
  {
  }

  /** The last block is full exactly when the length is a multiple of the block size. */
  lemma LastBlockLength(e: Env, tokens: seq<Token>)
    requires e.blockSize > 0 && tokens != []
    ensures |BlockTokens(e, tokens, NumBlocks(|tokens|, e.blockSize) - 1)| == e.blockSize
            <==> |tokens| % e.blockSize == 0
  {
    var n, size := |tokens|, e.blockSize;
    var k := NumBlocks(n, size);
    Quotient(n + size - 1, size);
    BlockLength(e, tokens, k - 1);
    assert (k - 1) * size + size == k * size;
    if k * size == n { ModIs(n, size, k, 0); }
    if n % size == 0 {
      assert n == n / size * size;
      assert (n / size) * size + size - 1 == n + size - 1;
      QuotientIs(n + size - 1, size, n / size);
    }
  }

  /** Block `id` is in the tables once. */
  predicate Own(all: multiset<nat>, id: nat) {
    all[id] == 1
  }

  /** The table after `i` blocks: hits first, then blocks of its own; full blocks of a cache-enabled
      sequence are registered, the others are not. */
  ghost predicate Allocated(e: Env, p: Pool, refs: multiset<nat>, s: SeqState, i: nat, hits: nat, st: Alloc) {
    && |st.table| == i && hits <= i && (!st.miss ==> hits == i) && Hits(e, s, hits, st.cached)
    && Accounted(st.pool, refs + multiset(st.table)) && Kept(p, st.pool, refs) && Untouched(p, st.pool, refs)
    && |st.pool.free| + i >= |p.free|
    && (forall j :: hits <= j < i ==> Own(refs + multiset(st.table), st.table[j]))
    && Registered(e, st.pool, s, st.table)
  }

  /** `cached` tokens were found in the cache, in whole blocks. */
  predicate Hits(e: Env, s: SeqState, hits: nat, cached: nat) {
    cached == s.cached + hits * e.blockSize && hits * e.blockSize <= |s.tokens| && (hits > 0 ==> !s.noCache)
  }

  lemma HitsNext(e: Env, s: SeqState, hits: nat, cached: nat)
    requires Hits(e, s, hits, cached) && !s.noCache && |BlockTokens(e, s.tokens, hits)| == e.blockSize
    ensures Hits(e, s, hits + 1, cached + e.blockSize)
  {
    MulAdd(hits, 1, e.blockSize);
    BlockLength(e, s.tokens, hits);
  }

  /** The full blocks of a cache-enabled sequence's table, and only they, are registered. */
  ghost predicate Registered(e: Env, p: Pool, s: SeqState, table: seq<nat>) {
    forall j :: 0 <= j < |table| ==>
      table[j] < |p.blocks|
        && (p.blocks[table[j]].hash == NONE <==> s.noCache || |BlockTokens(e, s.tokens, j)| != e.blockSize)
  }

  lemma RegisteredStep(e: Env, p: Pool, q: Pool, refs: multiset<nat>, s: SeqState, table: seq<nat>, id: nat)
    requires Registered(e, p, s, table) && Kept(p, q, refs + multiset(table)) && id < |q.blocks|
    requires q.blocks[id].hash == NONE <==> s.noCache || |BlockTokens(e, s.tokens, |table|)| != e.blockSize
    ensures Registered(e, q, s, table + [id])
  {
    hide BlockTokens;
    forall j | 0 <= j < |table|
      ensures table[j] in refs + multiset(table)
    {
    }
  }

  lemma OwnStep(refs: multiset<nat>, table: seq<nat>, id: nat, hits: nat, hits': nat)
    requires hits <= |table| && hits <= hits'
    requires hits' <= |table| ==> id !in refs + multiset(table)
    requires forall j :: hits <= j < |table| ==> Own(refs + multiset(table), table[j])
    requires hits' == hits || hits == |table|
    ensures forall j :: hits' <= j < |table| + 1 ==> Own(refs + multiset(table + [id]), (table + [id])[j])
  {
    var all := refs + multiset(table);
    assert refs + multiset(table + [id]) == all + multiset{id};
    forall j | hits' <= j < |table| + 1
      ensures Own(refs + multiset(table + [id]), (table + [id])[j])
    {
      if j < |table| {
        assert Own(all, table[j]) && table[j] in all;
      }
    }
  }

  lemma AllocatedStep(e: Env, p: Pool, refs: multiset<nat>, s: SeqState, i: nat, hits: nat, st: Alloc, r: Alloc)
    requires Allocated(e, p, refs, s, i, hits, st)
    requires Stepped(e, st, refs, BlockTokens(e, s.tokens, i), s.noCache, r)
    ensures Allocated(e, p, refs, s, i + 1, if r.miss then hits else hits + 1, r)
  {
    hide Accounted, BlockTokens, Own, Kept, Untouched, Registered, Hits;
    var id := r.table[i];
    assert r.table == st.table + [id];
    KeptTrans(p, st.pool, r.pool, refs, multiset(st.table));
    UntouchedTrans(p, st.pool, r.pool, refs, multiset(st.table));
    RegisteredStep(e, st.pool, r.pool, refs, s, st.table, id);
    OwnStep(refs, st.table, id, hits, if r.miss then hits else hits + 1);
    if !r.miss { HitsNext(e, s, hits, st.cached); }
  }

  lemma AllocatedNothing(e: Env, p: Pool, refs: multiset<nat>, s: SeqState)
    requires Accounted(p, refs)
    ensures Allocated(e, p, refs, s, 0, 0, Alloc(p, [], s.cached, NONE, false))
  {
    hide Accounted;
    assert refs + multiset([]) == refs;
  }

  lemma AllocatedNext(e: Env, p: Pool, refs: multiset<nat>, s: SeqState, i: nat, hits: nat, st: Alloc)
    returns (r: Alloc)
    requires EnvOk(e) && i < NumBlocks(|s.tokens|, e.blockSize) <= |p.free| && Allocated(e, p, refs, s, i, hits, st)
    ensures AllocStep(e, st, BlockTokens(e, s.tokens, i), s.noCache) == Some(r)
    ensures Allocated(e, p, refs, s, i + 1, if r.miss then hits else hits + 1, r)
  {
    hide Accounted, NumBlocks, Stepped, Kept, Untouched, AllocStep, Own;
    DivLess(i, |s.tokens|, e.blockSize);
    r := StepAccounted(e, st, refs, BlockTokens(e, s.tokens, i), s.noCache);
    AllocatedStep(e, p, refs, s, i, hits, st, r);
  }

  /** Allocation on a pool with enough free blocks never fails, and keeps the pool accounted for. */
  lemma {:induction false} AllocUptoAccounted(e: Env, p: Pool, refs: multiset<nat>, s: SeqState, i: nat)
    returns (st: Alloc, hits: nat)
    requires EnvOk(e) && Accounted(p, refs) && i <= NumBlocks(|s.tokens|, e.blockSize) <= |p.free|
    ensures AllocUpto(e, p, s, i) == Some(st) && Allocated(e, p, refs, s, i, hits, st)
    decreases i
  {
    hide Accounted, BlockTokens, NumBlocks, Allocated, AllocStep;
    if i == 0 {
      st, hits := Alloc(p, [], s.cached, NONE, false), 0;
      AllocatedNothing(e, p, refs, s);
    } else {
      var before, h := AllocUptoAccounted(e, p, refs, s, i - 1);
      st := AllocatedNext(e, p, refs, s, i - 1, h, before);
      hits := if st.miss then h else h + 1;
    }
  }

  // ---------------------------------------------------------------- deallocate

  lemma {:induction false} DropAllAccounted(p: Pool, refs: multiset<nat>, table: seq<nat>)
    requires Accounted(p, refs + multiset(table))
    ensures Accounted(DropAll(p, table), refs)
    ensures Kept(p, DropAll(p, table), refs) && Untouched(p, DropAll(p, table), refs)
    ensures |DropAll(p, table).free| >= |p.free|
    decreases |table|
  {
    hide Accounted, Drop;
    if table == [] {
      assert refs + multiset(table) == refs;
    } else {
      var last := |table| - 1;
      var rest := refs + multiset(table[..last]);
      assert table == table[..last] + [table[last]];
      assert refs + multiset(table) == rest + multiset{table[last]};
      DropAccounted(p, rest, table[last]);
      DropKeeps(p, table[last]);
      DropAllAccounted(Drop(p, table[last]), refs, table[..last]);
    }
  }

  lemma DropKeeps(p: Pool, id: nat)
    requires id < |p.blocks|
    ensures var q := Drop(p, id);
            && |q.blocks| == |p.blocks| && q.index == p.index
            && forall k :: 0 <= k < |p.blocks| ==> q.blocks[k] == p.blocks[k].(refCount := q.blocks[k].refCount)
  {
  }

  // ---------------------------------------------------------------- append

  /** A running sequence that will be `n` tokens long at its next decode step: its table covers what is
      computed, and its last block is registered just when the assertions of `may_append` expect it.
      The exception is a sequence that opted out of the cache with a prompt of whole blocks. */
  ghost predicate Live(e: Env, p: Pool, s: SeqState, n: nat)
    requires e.blockSize > 1
  {
    && n >= 2 && |s.table| == NumBlocks(n - 1, e.blockSize)
    && s.admitted <= |s.tokens| <= n
    && (forall j :: 0 <= j < |s.table| ==> s.table[j] < |p.blocks|)
    && var unregistered := p.blocks[s.table[|s.table| - 1]].hash == NONE;
       && (n == s.admitted ==> !s.noCache && n % e.blockSize == 0 && !unregistered)
       && (n % e.blockSize == 1 ==> (unregistered <==> s.noCache && n - 1 == s.admitted))
       && (n % e.blockSize == 0 && n > s.admitted ==> unregistered)
       && (n % e.blockSize > 1 ==> unregistered)
  }

  /** `may_append` fails on the first token after an uncached prompt of whole blocks. */
  predicate Faulty(e: Env, s: SeqState)
    requires e.blockSize > 1
  {
    s.noCache && |s.tokens| == s.admitted + 1 && s.admitted % e.blockSize == 0
  }

  lemma NumBlocksNext(n: nat, size: nat)
    requires size > 0
    ensures NumBlocks(n + 1, size) == NumBlocks(n, size) + if n % size == 0 then 1 else 0
  {
    var q, r := n / size, n % size;
    assert n == q * size + r;
    MulAdd(q, 1, size);
    if r == 0 {
      QuotientIs(n + size - 1, size, q);
      QuotientIs(n + size, size, q + 1);
    } else {
      QuotientIs(n + size - 1, size, q + 1);
      QuotientIs(n + size, size, q + 1);
    }
  }

  lemma NextMod(n: nat, d: nat)
    requires d > 1
    ensures (n + 1) % d == if n % d == d - 1 then 0 else n % d + 1
  {
    var q, r := n / d, n % d;
    assert n == q * d + r;
    if r == d - 1 {
      assert n + 1 == (q + 1) * d + 0;
      ModIs(n + 1, d, q + 1, 0);
    } else {
      ModIs(n + 1, d, q, r + 1);
    }
  }

  /** What `may_append` leaves: the pool accounted for, the table covering the new token, and the block
      the token goes to in no other table. */
  ghost predicate Appended(e: Env, p: Pool, refs: multiset<nat>, s: SeqState, q: Pool, t: SeqState)
    requires e.blockSize > 1
  {
    var n := |s.tokens|;
    && t == s.(table := t.table, pending := true) && s.table <= t.table && |t.table| == NumBlocks(n, e.blockSize)
    && t.table != []
    && (t.table == s.table || (t.table[..|t.table| - 1] == s.table && t.table[|s.table|] !in refs + multiset(s.table)))
    && Accounted(q, refs + multiset(t.table)) && Kept(p, q, refs)
    && Live(e, q, t, n + 1)
    && |q.free| == |p.free| - (if n % e.blockSize == 1 then 1 else 0)
    && (n > s.admitted ==>
        Own(refs + multiset(t.table), t.table[|t.table| - 1])
          && Untouched(p, q, refs + multiset(t.table[..|t.table| - 1])))
  }

  lemma GrowIs(e: Env, p: Pool, s: SeqState)
    requires s.table != [] && s.table[|s.table| - 1] < |p.blocks| && p.free != [] && p.free[0] < |p.blocks|
    requires Take(p, p.free[0]) == Some(AllocateBlock(p, p.free[0]))
    ensures Grow(e, p, s) ==
            if p.blocks[s.table[|s.table| - 1]].hash == NONE then None
            else Some((MissPool(p, p.free[0], NONE, [], HeldBefore(p, s.table) + BlockTokens(e, s.tokens, |s.table|)),
                       s.(table := s.table + [p.free[0]], pending := true)))
  {
    hide BlockTokens, HeldBefore, AllocateBlock;
  }

  /** A table with a new block at its end is live for the next token. */
  lemma GrownIsLive(e: Env, p: Pool, q: Pool, s: SeqState, id: nat)
    requires e.blockSize > 1 && Live(e, p, s, |s.tokens|) && |s.tokens| % e.blockSize == 1
    requires |q.blocks| == |p.blocks| && id < |q.blocks| && q.blocks[id].hash == NONE
    ensures |s.table| + 1 == NumBlocks(|s.tokens|, e.blockSize)
    ensures Live(e, q, s.(table := s.table + [id], pending := true), |s.tokens| + 1)
  {
    NumBlocksNext(|s.tokens| - 1, e.blockSize);
    NextMod(|s.tokens| - 1, e.blockSize);
    NextMod(|s.tokens|, e.blockSize);
  }

  lemma GrowAccounted(e: Env, p: Pool, refs: multiset<nat>, s: SeqState)
    requires EnvOk(e) && e.blockSize > 1 && Accounted(p, refs + multiset(s.table)) && Live(e, p, s, |s.tokens|)
    requires |s.tokens| % e.blockSize == 1 && CanAppend(e, p, s)
    ensures Grow(e, p, s).None? <==> Faulty(e, s)
    ensures Grow(e, p, s).Some? ==> Appended(e, p, refs, s, Grow(e, p, s).value.0, Grow(e, p, s).value.1)
  {
    hide Accounted, BlockTokens, HeldBefore, AllocateBlock, Take, Grow, MissPool, NumBlocks;
    var all, id := refs + multiset(s.table), p.free[0];
    var history := HeldBefore(p, s.table) + BlockTokens(e, s.tokens, |s.table|);
    MissAccounted(p, all, NONE, [], history);
    GrowIs(e, p, s);
    NextMod(|s.tokens| - 1, e.blockSize);
    var t, q := s.(table := s.table + [id], pending := true), MissPool(p, id, NONE, [], history);
    GrownIsLive(e, p, q, s, id);
    assert t.table[..|s.table|] == s.table;
    assert refs + multiset(t.table) == all + multiset{id};
  }

  /** A block without a hash is in one table only, and only once. */
  lemma UnregisteredIsOwn(p: Pool, refs: multiset<nat>, table: seq<nat>)
    requires Accounted(p, refs + multiset(table)) && table != [] && table[|table| - 1] < |p.blocks|
    requires p.blocks[table[|table| - 1]].hash == NONE
    ensures Own(refs + multiset(table), table[|table| - 1])
    ensures table[|table| - 1] !in refs + multiset(table[..|table| - 1])
  {
    var id := table[|table| - 1];
    assert table == table[..|table| - 1] + [id];
    assert refs + multiset(table) == refs + multiset(table[..|table| - 1]) + multiset{id};
    assert id in refs + multiset(table);
  }

  lemma WriteLastAppended(e: Env, p: Pool, refs: multiset<nat>, s: SeqState)
    requires EnvOk(e) && e.blockSize > 1 && Accounted(p, refs + multiset(s.table)) && Live(e, p, s, |s.tokens|)
    requires |s.tokens| % e.blockSize > 1
    ensures s.table != [] && s.table[|s.table| - 1] < |p.blocks| && p.blocks[s.table[|s.table| - 1]].hash == NONE
    ensures Appended(e, p, refs, s, WriteLast(p, s), s.(pending := true))
  {
    hide Accounted, BlockTokens, LastHistory, Own;
    var id, n := s.table[|s.table| - 1], |s.tokens|;
    UnregisteredIsOwn(p, refs, s.table);
    ComputeAccounted(p, refs + multiset(s.table), id, LastHistory(p, s));
    NumBlocksNext(n - 1, e.blockSize);
    NextMod(n - 1, e.blockSize);
    NextMod(n, e.blockSize);
  }

  /** What completing a block changes. */
  lemma CloseEffect(e: Env, p: Pool, all: multiset<nat>, s: SeqState)
    requires EnvOk(e) && Accounted(p, all) && s.table != [] && s.table[|s.table| - 1] < |p.blocks| && s.tokens != []
    ensures var q, id := Close(e, p, s), s.table[|s.table| - 1];
            && Accounted(q, all) && |q.blocks| == |p.blocks| && q.free == p.free && q.blocks[id].hash != NONE
            && forall k :: 0 <= k < |p.blocks| && k != id ==> q.blocks[k] == p.blocks[k]
  {
    hide Accounted, BlockTokens, LastHistory;
    var id := s.table[|s.table| - 1];
    ComputeAccounted(p, all, id, LastHistory(p, s));
    var q := WriteLast(p, s);
    if p.blocks[id].hash == NONE {
      var k := |s.table|;
      var prefix := if k > 1 && s.table[k - 2] < |p.blocks| then p.blocks[s.table[k - 2]].hash else NONE;
      var toks := BlockTokens(e, s.tokens, NumBlocks(|s.tokens|, e.blockSize) - 1);
      RegisterAccounted(q, all, id, e.hash(toks, prefix), toks);
    }
  }

  lemma CloseAppended(e: Env, p: Pool, refs: multiset<nat>, s: SeqState)
    requires EnvOk(e) && e.blockSize > 1 && Accounted(p, refs + multiset(s.table)) && Live(e, p, s, |s.tokens|)
    requires |s.tokens| % e.blockSize == 0
    ensures s.table != [] && s.table[|s.table| - 1] < |p.blocks| && s.tokens != []
    ensures Appended(e, p, refs, s, Close(e, p, s), s.(pending := true))
  {
    hide Accounted, Own, Close, NumBlocks;
    var n := |s.tokens|;
    NumBlocksNext(n - 1, e.blockSize);
    NextMod(n - 1, e.blockSize);
    NextMod(n, e.blockSize);
    CloseEffect(e, p, refs + multiset(s.table), s);
    if p.blocks[s.table[|s.table| - 1]].hash == NONE {
      UnregisteredIsOwn(p, refs, s.table);
    }
  }

  /** `may_append` fails exactly for an uncached prompt of whole blocks at its first token; otherwise it
      leaves room for the token, in a block of the sequence's own unless the prompt was all cached. */
  lemma MayAppendAccounted(e: Env, p: Pool, refs: multiset<nat>, s: SeqState)
    requires EnvOk(e) && e.blockSize > 1 && Accounted(p, refs + multiset(s.table)) && Live(e, p, s, |s.tokens|)
    requires CanAppend(e, p, s)
    ensures MayAppend(e, p, s).None? <==> Faulty(e, s)
    ensures MayAppend(e, p, s).Some? ==> Appended(e, p, refs, s, MayAppend(e, p, s).value.0, MayAppend(e, p, s).value.1)
  {
    hide Accounted, BlockTokens, LastHistory, Own, Close, Grow, WriteLast, Appended;
    var n := |s.tokens|;
    NextMod(n - 1, e.blockSize);
    if n % e.blockSize == 1 {
      GrowAccounted(e, p, refs, s);
    } else if n % e.blockSize == 0 {
      CloseAppended(e, p, refs, s);
    } else {
      WriteLastAppended(e, p, refs, s);
    }
  }

  /** After allocation, the sequence is live for one more token, or as it stands if every block hit. */
  lemma AllocateAccountedFor(e: Env, p: Pool, refs: multiset<nat>, s: SeqState) returns (q: Pool, t: SeqState)
    requires EnvOk(e) && e.blockSize > 1 && Accounted(p, refs) && CanAllocate(e, p, s)
    requires s.tokens != [] && s.cached == 0
    ensures Allocate(e, p, s) == Some((q, t)) && AllocatedFor(e, p, refs, s, q, t)
  {
    hide Accounted, BlockTokens, Own, NumBlocks, AllocUpto;
    var st, hits := AllocUptoAccounted(e, p, refs, s, NumBlocks(|s.tokens|, e.blockSize));
    q, t := st.pool,
      s.(table := st.table, cached := st.cached, admitted := |s.tokens|, pending := st.cached < |s.tokens|);
    AllocatedIsLive(e, p, refs, s, hits, st, t);
  }

  /** What `allocate` leaves: cached blocks first, the rest of the table the sequence's own. */
  ghost predicate AllocatedFor(e: Env, p: Pool, refs: multiset<nat>, s: SeqState, q: Pool, t: SeqState)
    requires e.blockSize > 1
  {
    && t == s.(table := t.table, cached := t.cached, admitted := |s.tokens|, pending := t.cached < |s.tokens|)
    && |t.table| == NumBlocks(|s.tokens|, e.blockSize)
    && Accounted(q, refs + multiset(t.table)) && Kept(p, q, refs) && Untouched(p, q, refs)
    && t.cached % e.blockSize == 0 && t.cached <= |s.tokens|
    && (forall j :: t.cached / e.blockSize <= j < |t.table| ==> Own(refs + multiset(t.table), t.table[j]))
    && Live(e, q, t, if t.cached == |s.tokens| then |s.tokens| else |s.tokens| + 1)
    && (!s.noCache ==> forall j :: 0 <= j < |t.table| - 1 ==> q.blocks[t.table[j]].hash != NONE)
    && |q.free| + |t.table| >= |p.free|
  }

  lemma AllocatedIsLive(e: Env, p: Pool, refs: multiset<nat>, s: SeqState, hits: nat, st: Alloc, t: SeqState)
    requires EnvOk(e) && e.blockSize > 1 && s.tokens != [] && s.cached == 0
    requires Allocated(e, p, refs, s, NumBlocks(|s.tokens|, e.blockSize), hits, st)
    requires t == s.(table := st.table, cached := st.cached, admitted := |s.tokens|, pending := st.cached < |s.tokens|)
    ensures AllocatedFor(e, p, refs, s, st.pool, t)
  {
    hide Accounted, Own, Kept, Untouched, BlockTokens, NumBlocks;
    var n, size := |s.tokens|, e.blockSize;
    LastBlockLength(e, s.tokens);
    ModIs(hits * size, size, hits, 0);
    QuotientIs(hits * size, size, hits);
    NextMod(n - 1, size);
    NextMod(n, size);
    NumBlocksNext(n - 1, size);
    forall j | 0 <= j < |t.table| - 1 && !s.noCache
      ensures st.pool.blocks[t.table[j]].hash != NONE
    {
      BlockLength(e, s.tokens, j);
      DivLess(j + 1, n, size);
      assert (j + 1) * size == j * size + size;
    }
  }
}
