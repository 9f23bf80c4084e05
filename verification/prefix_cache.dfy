/** When the prefix cache is right.  A block found by the rolling hash holds the keys and values of the
    sequence's own prefix if and only if the hash it is registered under is the one looked up: the code
    compares only the block's own tokens, and a block that was reused leaves its old entry behind.
 */
module PrefixCache {
  import opened Arithmetic
  import opened BlockAccounting
  import opened BlockPool
  import opened Outcomes

  /** The hash chain is injective: equal hashes mean equal content and equal prefix. */
  ghost predicate Injective(e: Env) {
    forall a, b, p, q :: e.hash(a, p) == e.hash(b, q) ==> a == b && p == q
  }

  /** The hash of the first `i` blocks of `tokens`. */
  function ChainHash(e: Env, tokens: seq<Token>, i: nat): int {
    if i == 0 then NONE else e.hash(BlockTokens(e, tokens, i - 1), ChainHash(e, tokens, i - 1))
  }

  /** The first `i` blocks. */
  function Prefix(e: Env, tokens: seq<Token>, i: nat): seq<Token> {
    tokens[..Min(i * e.blockSize, |tokens|)]
  }

  lemma PrefixNext(e: Env, tokens: seq<Token>, i: nat)
    ensures Prefix(e, tokens, i) + BlockTokens(e, tokens, i) == Prefix(e, tokens, i + 1)
  {
    assert (i + 1) * e.blockSize == i * e.blockSize + e.blockSize;
  }

  lemma PrefixNone(e: Env, tokens: seq<Token>)
    ensures Prefix(e, tokens, 0) == []
  {
  }

  lemma {:induction false} ChainInjective(e: Env, s: seq<Token>, t: seq<Token>, i: nat, j: nat)
    requires EnvOk(e) && Injective(e) && ChainHash(e, s, i) == ChainHash(e, t, j)
    ensures i == j && Prefix(e, s, i) == Prefix(e, t, j)
    decreases i
  {
    hide BlockTokens, Prefix;
    if i == 0 || j == 0 {
      assert i == 0 && j == 0;
      PrefixNone(e, s);
      PrefixNone(e, t);
    } else {
      ChainInjective(e, s, t, i - 1, j - 1);
      PrefixNext(e, s, i - 1);
      PrefixNext(e, t, j - 1);
    }
  }

  /** The chain depends on the prefix only. */
  lemma {:induction false} ChainOfPrefix(e: Env, s: seq<Token>, t: seq<Token>, i: nat)
    requires i * e.blockSize <= |s| && i * e.blockSize <= |t| && s[..i * e.blockSize] == t[..i * e.blockSize]
    ensures ChainHash(e, s, i) == ChainHash(e, t, i)
    decreases i
  {
    hide BlockTokens;
    if i > 0 {
      var a, b := (i - 1) * e.blockSize, i * e.blockSize;
      MulAdd(i - 1, 1, e.blockSize);
      assert s[..a] == s[..b][..a] && t[..a] == t[..b][..a];
      ChainOfPrefix(e, s, t, i - 1);
      FullBlock(e, s, i - 1, a);
      FullBlock(e, t, i - 1, a);
    }
  }

  lemma FullBlock(e: Env, s: seq<Token>, i: nat, a: nat)
    requires a == i * e.blockSize && a + e.blockSize <= |s|
    ensures BlockTokens(e, s, i) == s[..a + e.blockSize][a..]
  {
  }

  /** Which tokens the engine makes itself: the patches appended, as opposed to the ids of a prompt. */
  type Made = Token -> bool

  predicate EndsMade(made: Made, toks: seq<Token>) {
    toks != [] && made(toks[|toks| - 1])
  }

  /** The block was computed from a history whose chain is its hash and whose last block is its tokens. */
  ghost predicate OwnChain(e: Env, b: Block) {
    exists k: nat :: k > 0 && |b.held| == k * e.blockSize && b.hash == ChainHash(e, b.held, k)
                     && b.tokens == BlockTokens(e, b.held, k - 1)
  }

  /** A registered block is under its own chain, unless it ends with a token the engine made: a block completed
      after an uncached prompt is chained to a block that was never registered. */
  ghost predicate HonestBlock(e: Env, made: Made, b: Block) {
    b.hash != NONE ==> OwnChain(e, b) || EndsMade(made, b.tokens)
  }

  ghost predicate Honest(e: Env, made: Made, p: Pool) {
    forall id :: 0 <= id < |p.blocks| ==> HonestBlock(e, made, p.blocks[id])
  }

  /** No full block of the tokens ends with one that the engine made, as in a prompt. */
  predicate Unmade(e: Env, made: Made, tokens: seq<Token>)
    requires e.blockSize > 0
  {
    forall i :: 0 <= i < NumBlocks(|tokens|, e.blockSize) && |BlockTokens(e, tokens, i)| == e.blockSize ==>
      !EndsMade(made, BlockTokens(e, tokens, i))
  }

  /** Blocks in use keep the hash they are registered under. */
  predicate SameHash(p: Pool, q: Pool, refs: multiset<nat>) {
    && |q.blocks| == |p.blocks|
    && forall id :: 0 <= id < |p.blocks| && id in refs ==> q.blocks[id].hash == p.blocks[id].hash
  }

  /** Every block of the table is registered under the chain of the history, the last one perhaps not yet. */
  predicate Linked(e: Env, p: Pool, history: seq<Token>, table: seq<nat>) {
    forall j :: 0 <= j < |table| ==>
      && table[j] < |p.blocks|
      && (p.blocks[table[j]].hash == ChainHash(e, history, j + 1)
          || (j == |table| - 1 && p.blocks[table[j]].hash == NONE))
  }

  /** Every block of the table holds exactly the sequence's own history up to there. */
  ghost predicate Sound(e: Env, p: Pool, history: seq<Token>, table: seq<nat>) {
    forall j :: 0 <= j < |table| ==> table[j] < |p.blocks| && p.blocks[table[j]].held == Prefix(e, history, j + 1)
  }

  // ---------------------------------------------------------------- one hit

  /** A hit on block `i` is right if and only if the block is registered under the hash looked up. */
  lemma HitIsSound(e: Env, b: Block, tokens: seq<Token>, i: nat)
    requires EnvOk(e) && Injective(e) && OwnChain(e, b) && (i + 1) * e.blockSize <= |tokens|
    ensures b.held == Prefix(e, tokens, i + 1) <==> b.hash == ChainHash(e, tokens, i + 1)
  {
    hide BlockTokens, ChainHash;
    var k: nat :| k > 0 && |b.held| == k * e.blockSize && b.hash == ChainHash(e, b.held, k)
                  && b.tokens == BlockTokens(e, b.held, k - 1);
    assert Prefix(e, b.held, k) == b.held;
    if b.hash == ChainHash(e, tokens, i + 1) {
      ChainInjective(e, b.held, tokens, k, i + 1);
    }
    if b.held == Prefix(e, tokens, i + 1) {
      var n := (i + 1) * e.blockSize;
      assert k * e.blockSize == n;
      SameFactor(k, i + 1, e.blockSize);
      assert b.held[..n] == tokens[..n];
      ChainOfPrefix(e, b.held, tokens, k);
    }
  }

  lemma SameFactor(a: nat, b: nat, c: nat)
    requires c > 0 && a * c == b * c
    ensures a == b
  {
    if a < b { MulLe(a + 1, b, c); }
    if b < a { MulLe(b + 1, a, c); }
  }

  // ---------------------------------------------------------------- one allocation

  /** A lookup that hits finds a block registered under the very hash looked up. */
  predicate TrustedStep(e: Env, st: Alloc, toks: seq<Token>) {
    var h := RollingHash(e, toks, false, st.h);
    st.miss || Misses(e, st.pool, toks, false, st.h) || st.pool.blocks[Lookup(st.pool, h)].hash == h
  }

  predicate TrustedAt(e: Env, p: Pool, s: SeqState, i: nat) {
    var st := AllocUpto(e, p, s, i);
    st.Some? && TrustedStep(e, st.value, BlockTokens(e, s.tokens, i))
  }

  /** Registered, as far as the blocks are full, under the chain. */
  predicate LinkedSoFar(e: Env, p: Pool, tokens: seq<Token>, table: seq<nat>) {
    forall j :: 0 <= j < |table| ==>
      && table[j] < |p.blocks|
      && p.blocks[table[j]].hash == if (j + 1) * e.blockSize <= |tokens| then ChainHash(e, tokens, j + 1) else NONE
  }

  /** State of the allocation loop after `i` blocks, all of them right so far. */
  ghost predicate SoundSoFar(e: Env, made: Made, st: Alloc, tokens: seq<Token>, i: nat) {
    && |st.table| == i && Honest(e, made, st.pool) && Sound(e, st.pool, tokens, st.table)
    && LinkedSoFar(e, st.pool, tokens, st.table)
    && (i * e.blockSize <= |tokens| ==> st.h == ChainHash(e, tokens, i))
  }

  lemma HonestAfter(e: Env, made: Made, p: Pool, q: Pool, id: nat)
    requires Honest(e, made, p) && |q.blocks| == |p.blocks| && id < |p.blocks|
    requires HonestBlock(e, made, q.blocks[id])
    requires forall k :: 0 <= k < |p.blocks| && k != id ==> q.blocks[k] == p.blocks[k]
    ensures Honest(e, made, q)
  {
    hide HonestBlock;
  }

  lemma SoundSnoc(e: Env, p: Pool, q: Pool, refs: multiset<nat>, tokens: seq<Token>, table: seq<nat>, id: nat)
    requires Sound(e, p, tokens, table) && Untouched(p, q, refs + multiset(table)) && id < |q.blocks|
    ensures Sound(e, q, tokens, table + [id]) <==> q.blocks[id].held == Prefix(e, tokens, |table| + 1)
  {
    hide Prefix;
    forall j | 0 <= j < |table|
      ensures table[j] in refs + multiset(table)
    {
    }
    var t := table + [id];
    assert t[|table|] == id;
  }

  /** One more block at the end, those before registered as they were. */
  lemma LinkedSnoc(e: Env, p: Pool, q: Pool, refs: multiset<nat>, tokens: seq<Token>, table: seq<nat>, id: nat)
    requires LinkedSoFar(e, p, tokens, table) && SameHash(p, q, refs + multiset(table)) && id < |q.blocks|
    requires q.blocks[id].hash
             == if (|table| + 1) * e.blockSize <= |tokens| then ChainHash(e, tokens, |table| + 1) else NONE
    ensures LinkedSoFar(e, q, tokens, table + [id])
  {
    hide ChainHash;
    var t := table + [id];
    forall j | 0 <= j < |t|
      ensures t[j] < |q.blocks|
      ensures q.blocks[t[j]].hash == if (j + 1) * e.blockSize <= |tokens| then ChainHash(e, tokens, j + 1) else NONE
    {
      if j < |table| { assert t[j] == table[j] && table[j] in refs + multiset(table); }
    }
  }

  lemma OthersSame(p: Pool, q: Pool, refs: multiset<nat>, id: nat)
    requires |q.blocks| == |p.blocks| && id < |p.blocks|
    requires forall k :: 0 <= k < |p.blocks| && k != id ==> q.blocks[k] == p.blocks[k]
    requires id !in refs || q.blocks[id].hash == p.blocks[id].hash
    ensures SameHash(p, q, refs)
  {
  }

  lemma HeldIsPrefix(e: Env, st: Alloc, tokens: seq<Token>)
    requires Sound(e, st.pool, tokens, st.table)
    ensures HeldBefore(st.pool, st.table) == Prefix(e, tokens, |st.table|)
  {
    if st.table != [] { assert st.pool.blocks[st.table[|st.table| - 1]].held == Prefix(e, tokens, |st.table|); }
  }

  /** The hash of a step is the chain's, when the block is full. */
  lemma StepHash(e: Env, made: Made, st: Alloc, tokens: seq<Token>, i: nat)
    requires EnvOk(e) && i * e.blockSize < |tokens| && SoundSoFar(e, made, st, tokens, i)
    ensures RollingHash(e, BlockTokens(e, tokens, i), false, st.h) ==
            if (i + 1) * e.blockSize <= |tokens| then ChainHash(e, tokens, i + 1) else NONE
    ensures (i + 1) * e.blockSize <= |tokens| ==> |Prefix(e, tokens, i + 1)| == (i + 1) * e.blockSize
    ensures (i + 1) * e.blockSize <= |tokens| ==>
              BlockTokens(e, Prefix(e, tokens, i + 1), i) == BlockTokens(e, tokens, i)
    ensures (i + 1) * e.blockSize <= |tokens| ==>
              ChainHash(e, Prefix(e, tokens, i + 1), i + 1) == ChainHash(e, tokens, i + 1)
  {
    hide Honest, Sound, Misses, LinkedSoFar;
    var n := (i + 1) * e.blockSize;
    assert n == i * e.blockSize + e.blockSize;
    if n <= |tokens| { PrefixHash(e, tokens, i, n); }
  }

  lemma PrefixHash(e: Env, tokens: seq<Token>, i: nat, n: nat)
    requires n == (i + 1) * e.blockSize == i * e.blockSize + e.blockSize <= |tokens|
    ensures |Prefix(e, tokens, i + 1)| == n
    ensures BlockTokens(e, Prefix(e, tokens, i + 1), i) == BlockTokens(e, tokens, i)
    ensures ChainHash(e, Prefix(e, tokens, i + 1), i + 1) == ChainHash(e, tokens, i + 1)
  {
    hide ChainHash;
    var p := Prefix(e, tokens, i + 1);
    assert p == tokens[..n];
    ChainOfPrefix(e, p, tokens, i + 1);
  }

  lemma MissIsSound(e: Env, made: Made, st: Alloc, refs: multiset<nat>, tokens: seq<Token>, i: nat, r: Alloc)
    requires EnvOk(e) && i * e.blockSize < |tokens| && SoundSoFar(e, made, st, tokens, i)
    requires Accounted(st.pool, refs + multiset(st.table)) && st.pool.free != []
    requires st.miss || Misses(e, st.pool, BlockTokens(e, tokens, i), false, st.h)
    requires AllocStep(e, st, BlockTokens(e, tokens, i), false) == Some(r)
    ensures SoundSoFar(e, made, r, tokens, i + 1) && SameHash(st.pool, r.pool, refs + multiset(st.table))
  {
    hide Misses, Accounted, ChainHash, BlockTokens, Prefix, AllocStep, LinkedSoFar, Sound, SameHash, Kept, Untouched,
         HonestBlock;
    var p, toks := st.pool, BlockTokens(e, tokens, i);
    var h, history := RollingHash(e, toks, false, st.h), HeldBefore(st.pool, st.table) + toks;
    StepHash(e, made, st, tokens, i);
    HeldIsPrefix(e, st, tokens);
    PrefixNext(e, tokens, i);
    MissAccounted(p, refs + multiset(st.table), h, toks, history);
    StepMiss(e, st, toks, false);
    var id := p.free[0];
    SoundSnoc(e, p, r.pool, refs, tokens, st.table, id);
    OthersSame(p, r.pool, refs + multiset(st.table), id);
    LinkedSnoc(e, p, r.pool, refs, tokens, st.table, id);
    ChainedIsHonest(e, made, r.pool.blocks[id], tokens, i);
    HonestAfter(e, made, p, r.pool, id);
  }

  lemma ChainedIsHonest(e: Env, made: Made, b: Block, tokens: seq<Token>, i: nat)
    requires b.hash != NONE ==>
               && (i + 1) * e.blockSize <= |tokens| && b.hash == ChainHash(e, tokens, i + 1)
               && b.held == Prefix(e, tokens, i + 1) && b.tokens == BlockTokens(e, tokens, i)
    ensures HonestBlock(e, made, b)
  {
    hide ChainHash, BlockTokens, Prefix;
    if b.hash != NONE {
      MulAdd(i, 1, e.blockSize);
      PrefixHash(e, tokens, i, (i + 1) * e.blockSize);
    }
  }

  lemma HitIsSoundIff(e: Env, made: Made, st: Alloc, refs: multiset<nat>, tokens: seq<Token>, i: nat, r: Alloc)
    requires EnvOk(e) && Injective(e) && i * e.blockSize < |tokens| && SoundSoFar(e, made, st, tokens, i)
    requires |BlockTokens(e, tokens, i)| == e.blockSize ==> !EndsMade(made, BlockTokens(e, tokens, i))
    requires Accounted(st.pool, refs + multiset(st.table)) && BlockTokens(e, tokens, i) != []
    requires !st.miss && !Misses(e, st.pool, BlockTokens(e, tokens, i), false, st.h)
    requires AllocStep(e, st, BlockTokens(e, tokens, i), false) == Some(r)
    ensures if TrustedStep(e, st, BlockTokens(e, tokens, i))
            then SoundSoFar(e, made, r, tokens, i + 1) && SameHash(st.pool, r.pool, refs + multiset(st.table))
            else !Sound(e, r.pool, tokens, r.table)
  {
    hide Accounted, ChainHash, BlockTokens, Prefix, AllocStep, LinkedSoFar, OwnChain;
    var p, toks := st.pool, BlockTokens(e, tokens, i);
    var h := RollingHash(e, toks, false, st.h);
    StepHash(e, made, st, tokens, i);
    HitIsRegistered(e, p, refs + multiset(st.table), toks, false, st.h);
    var id := p.index[h];
    HitAccounted(p, refs + multiset(st.table), id, h, toks);
    StepHit(e, st, toks, false);
    assert HonestBlock(e, made, p.blocks[id]);
    HitIsSound(e, p.blocks[id], tokens, i);
    SoundSnoc(e, p, r.pool, refs, tokens, st.table, id);
    if p.blocks[id].hash == h {
      OthersSame(p, r.pool, refs + multiset(st.table), id);
      LinkedSnoc(e, p, r.pool, refs, tokens, st.table, id);
      SameRecord(e, made, p.blocks[id], r.pool.blocks[id]);
      HonestAfter(e, made, p, r.pool, id);
    }
  }

  lemma SameRecord(e: Env, made: Made, b: Block, c: Block)
    requires HonestBlock(e, made, b) && c.hash == b.hash && c.tokens == b.tokens && c.held == b.held
    ensures HonestBlock(e, made, c)
  {
  }

  lemma UnsoundStays(e: Env, st: Alloc, refs: multiset<nat>, tokens: seq<Token>, toks: seq<Token>, r: Alloc)
    requires !Sound(e, st.pool, tokens, st.table) && Stepped(e, st, refs, toks, false, r)
    requires InRange(st.pool, st.table)
    ensures !Sound(e, r.pool, tokens, r.table)
  {
    hide Accounted, Kept, Prefix;
    var j :| 0 <= j < |st.table| && st.pool.blocks[st.table[j]].held != Prefix(e, tokens, j + 1);
    assert r.table[j] == r.table[..|st.table|][j] == st.table[j];
    assert st.table[j] in refs + multiset(st.table);
  }

  /** Every lookup among the first `i` that hits finds the hash it looked for. */
  predicate TrustedTo(e: Env, p: Pool, s: SeqState, i: nat) {
    i == 0 || (TrustedTo(e, p, s, i - 1) && TrustedAt(e, p, s, i - 1))
  }

  lemma AllocatedFacts(e: Env, p: Pool, refs: multiset<nat>, s: SeqState, i: nat, hits: nat, st: Alloc)
    requires Allocated(e, p, refs, s, i, hits, st) && e.blockSize > 0
    requires i < NumBlocks(|s.tokens|, e.blockSize) <= |p.free|
    ensures |st.table| == i && Accounted(st.pool, refs + multiset(st.table)) && st.pool.free != []
    ensures BlockTokens(e, s.tokens, i) != [] && InRange(st.pool, st.table)
  {
    hide Accounted, Own, Kept, Untouched, NumBlocks;
    DivLess(i, |s.tokens|, e.blockSize);
  }

  predicate InRange(p: Pool, table: seq<nat>) {
    forall j :: 0 <= j < |table| ==> table[j] < |p.blocks|
  }

  lemma AllocUptoNext(e: Env, p: Pool, s: SeqState, i: nat)
    requires AllocUpto(e, p, s, i).Some?
    ensures AllocUpto(e, p, s, i + 1)
            == AllocStep(e, AllocUpto(e, p, s, i).value, BlockTokens(e, s.tokens, i), s.noCache)
  {
    hide AllocStep, BlockTokens;
  }

  lemma TrustedAtIs(e: Env, p: Pool, s: SeqState, i: nat, st: Alloc)
    requires AllocUpto(e, p, s, i) == Some(st)
    ensures TrustedAt(e, p, s, i) <==> TrustedStep(e, st, BlockTokens(e, s.tokens, i))
  {
  }

  lemma SoundNothing(e: Env, p: Pool, tokens: seq<Token>)
    ensures Sound(e, p, tokens, [])
  {
  }

  lemma SoundNext(e: Env, made: Made, p: Pool, refs: multiset<nat>, s: SeqState, i: nat, hits: nat, before: Alloc)
    returns (st: Alloc)
    requires e.blockSize > 0 && EnvOk(e) && Injective(e) && !s.noCache && Unmade(e, made, s.tokens)
    requires i < NumBlocks(|s.tokens|, e.blockSize) <= |p.free|
    requires AllocUpto(e, p, s, i) == Some(before) && Allocated(e, p, refs, s, i, hits, before)
    ensures AllocUpto(e, p, s, i + 1) == Some(st)
    ensures SoundSoFar(e, made, before, s.tokens, i) ==>
              if TrustedAt(e, p, s, i)
              then SoundSoFar(e, made, st, s.tokens, i + 1) && SameHash(before.pool, st.pool, refs)
              else !Sound(e, st.pool, s.tokens, st.table)
    ensures !Sound(e, before.pool, s.tokens, before.table) ==> !Sound(e, st.pool, s.tokens, st.table)
  {
    hide *;
    TrustedAtIs(e, p, s, i, before);
    var toks := BlockTokens(e, s.tokens, i);
    DivLess(i, |s.tokens|, e.blockSize);
    AllocatedFacts(e, p, refs, s, i, hits, before);
    AllocUptoNext(e, p, s, i);
    st := StepAccounted(e, before, refs, toks, false);
    UnmadeAt(e, made, s.tokens, i);
    if SoundSoFar(e, made, before, s.tokens, i) {
      SoundOrNot(e, made, before, refs, s.tokens, i, st);
      if TrustedAt(e, p, s, i) { SameHashLess(before.pool, st.pool, refs, multiset(before.table)); }
    }
    if !Sound(e, before.pool, s.tokens, before.table) {
      UnsoundStays(e, before, refs, s.tokens, toks, st);
    }
  }

  lemma UnmadeAt(e: Env, made: Made, tokens: seq<Token>, i: nat)
    requires e.blockSize > 0 && Unmade(e, made, tokens) && i < NumBlocks(|tokens|, e.blockSize)
    ensures |BlockTokens(e, tokens, i)| == e.blockSize ==> !EndsMade(made, BlockTokens(e, tokens, i))
  {
  }

  lemma SameHashLess(p: Pool, q: Pool, refs: multiset<nat>, more: multiset<nat>)
    requires SameHash(p, q, refs + more)
    ensures SameHash(p, q, refs)
  {
  }

  lemma SameHashTrans(p: Pool, q: Pool, r: Pool, refs: multiset<nat>)
    requires SameHash(p, q, refs) && SameHash(q, r, refs)
    ensures SameHash(p, r, refs)
  {
  }

  /** After `i` blocks the table is right if and only if every hit so far was trusted. */
  lemma {:induction false} SoundUpto(e: Env, made: Made, p: Pool, refs: multiset<nat>, s: SeqState, i: nat)
    returns (st: Alloc)
    requires EnvOk(e) && Injective(e) && Accounted(p, refs) && Honest(e, made, p) && !s.noCache
    requires Unmade(e, made, s.tokens) && i <= NumBlocks(|s.tokens|, e.blockSize) <= |p.free|
    ensures AllocUpto(e, p, s, i) == Some(st)
    ensures if TrustedTo(e, p, s, i) then SoundSoFar(e, made, st, s.tokens, i) && SameHash(p, st.pool, refs)
            else !Sound(e, st.pool, s.tokens, st.table)
    decreases i
  {
    hide Accounted, Honest, NumBlocks, AllocStep, TrustedAt, Injective, BlockTokens, Allocated, Sound, Unmade;
    if i == 0 {
      st := Alloc(p, [], s.cached, NONE, false);
      SoundNothing(e, p, s.tokens);
    } else {
      var before := SoundUpto(e, made, p, refs, s, i - 1);
      var again, hits := AllocUptoAccounted(e, p, refs, s, i - 1);
      st := SoundNext(e, made, p, refs, s, i - 1, hits, before);
      if TrustedTo(e, p, s, i) { SameHashTrans(p, before.pool, st.pool, refs); }
    }
  }

  lemma SoundOrNot(e: Env, made: Made, st: Alloc, refs: multiset<nat>, tokens: seq<Token>, i: nat, r: Alloc)
    requires EnvOk(e) && Injective(e) && i * e.blockSize < |tokens| && SoundSoFar(e, made, st, tokens, i)
    requires |BlockTokens(e, tokens, i)| == e.blockSize ==> !EndsMade(made, BlockTokens(e, tokens, i))
    requires Accounted(st.pool, refs + multiset(st.table)) && BlockTokens(e, tokens, i) != [] && st.pool.free != []
    requires AllocStep(e, st, BlockTokens(e, tokens, i), false) == Some(r)
    ensures if TrustedStep(e, st, BlockTokens(e, tokens, i))
            then SoundSoFar(e, made, r, tokens, i + 1) && SameHash(st.pool, r.pool, refs + multiset(st.table))
            else !Sound(e, r.pool, tokens, r.table)
  {
    hide Accounted, SoundSoFar, Sound, Misses, AllocStep, BlockTokens, Injective, EnvOk, SameHash;
    if st.miss || Misses(e, st.pool, BlockTokens(e, tokens, i), false, st.h) {
      MissIsSound(e, made, st, refs, tokens, i, r);
    } else {
      HitIsSoundIff(e, made, st, refs, tokens, i, r);
    }
  }

  /** Every lookup of an allocation that hits finds the hash it looked for. */
  predicate Trusted(e: Env, p: Pool, s: SeqState)
    requires e.blockSize > 0
  {
    TrustedTo(e, p, s, NumBlocks(|s.tokens|, e.blockSize))
  }

  /** Prefix-cache soundness: the new table holds exactly the sequence's own history if and only if no
      lookup resolved to a block registered under another hash; then the pool stays honest. */
  lemma AllocateSound(e: Env, made: Made, p: Pool, refs: multiset<nat>, s: SeqState) returns (q: Pool, t: SeqState)
    requires EnvOk(e) && Injective(e) && e.blockSize > 1 && Accounted(p, refs) && Honest(e, made, p)
    requires CanAllocate(e, p, s) && s.tokens != [] && s.cached == 0 && !s.noCache && Unmade(e, made, s.tokens)
    ensures Allocate(e, p, s) == Some((q, t)) && AllocatedFor(e, p, refs, s, q, t)
    ensures Trusted(e, p, s) <==> Sound(e, q, s.tokens, t.table)
    ensures Trusted(e, p, s) ==> Honest(e, made, q) && Linked(e, q, s.tokens, t.table) && SameHash(p, q, refs)
  {
    hide Accounted, Honest, NumBlocks, TrustedTo, Sound, AllocatedFor, AllocUpto, Injective, EnvOk, LinkedSoFar, Linked;
    hide SameHash;
    q, t := AllocateAccountedFor(e, p, refs, s);
    var n := NumBlocks(|s.tokens|, e.blockSize);
    var st := SoundUpto(e, made, p, refs, s, n);
    if Trusted(e, p, s) {
      LinkedWhole(e, q, s.tokens, t.table);
    }
  }

  lemma LinkedWhole(e: Env, p: Pool, tokens: seq<Token>, table: seq<nat>)
    requires e.blockSize > 0 && tokens != [] && |table| == NumBlocks(|tokens|, e.blockSize)
    requires LinkedSoFar(e, p, tokens, table)
    ensures Linked(e, p, tokens, table)
  {
    hide ChainHash, NumBlocks;
    LastBlockSpan(|tokens|, e.blockSize, |table|);
    forall j | 0 <= j < |table|
      ensures table[j] < |p.blocks|
      ensures j < |table| - 1 ==> p.blocks[table[j]].hash == ChainHash(e, tokens, j + 1)
    {
      if j < |table| - 1 { MulLe(j + 1, |table| - 1, e.blockSize); }
    }
  }

  // ---------------------------------------------------------------- uncached prompts

  /** Without the cache the loop only fills blocks of its own. */
  ghost predicate FilledSoFar(e: Env, made: Made, p: Pool, refs: multiset<nat>, st: Alloc, tokens: seq<Token>) {
    Honest(e, made, st.pool) && Sound(e, st.pool, tokens, st.table) && SameHash(p, st.pool, refs)
  }

  lemma FillStep(e: Env, made: Made, p: Pool, refs: multiset<nat>, st: Alloc, tokens: seq<Token>, r: Alloc)
    requires EnvOk(e) && FilledSoFar(e, made, p, refs, st, tokens)
    requires Accounted(st.pool, refs + multiset(st.table)) && st.pool.free != []
    requires AllocStep(e, st, BlockTokens(e, tokens, |st.table|), true) == Some(r)
    ensures FilledSoFar(e, made, p, refs, r, tokens)
  {
    hide Accounted, BlockTokens, Prefix, AllocStep;
    var i, toks := |st.table|, BlockTokens(e, tokens, |st.table|);
    var history, id := HeldBefore(st.pool, st.table) + toks, st.pool.free[0];
    HeldIsPrefix(e, st, tokens);
    PrefixNext(e, tokens, i);
    MissAccounted(st.pool, refs + multiset(st.table), NONE, toks, history);
    StepMiss(e, st, toks, true);
    SoundSnoc(e, st.pool, r.pool, refs, tokens, st.table, id);
    OthersSame(st.pool, r.pool, refs, id);
    SameHashTrans(p, st.pool, r.pool, refs);
    HonestAfter(e, made, st.pool, r.pool, id);
  }

  lemma {:induction false} FillUpto(e: Env, made: Made, p: Pool, refs: multiset<nat>, s: SeqState, i: nat)
    returns (st: Alloc)
    requires EnvOk(e) && Accounted(p, refs) && Honest(e, made, p) && s.noCache
    requires i <= NumBlocks(|s.tokens|, e.blockSize) <= |p.free|
    ensures AllocUpto(e, p, s, i) == Some(st) && FilledSoFar(e, made, p, refs, st, s.tokens)
    decreases i
  {
    hide Accounted, Honest, NumBlocks, AllocStep, BlockTokens, Allocated, Sound;
    if i == 0 {
      st := Alloc(p, [], s.cached, NONE, false);
      SoundNothing(e, p, s.tokens);
    } else {
      var before := FillUpto(e, made, p, refs, s, i - 1);
      var again, hits := AllocUptoAccounted(e, p, refs, s, i - 1);
      var now, hits' := AllocUptoAccounted(e, p, refs, s, i);
      AllocatedFacts(e, p, refs, s, i - 1, hits, before);
      FillStep(e, made, p, refs, before, s.tokens, now);
      st := now;
    }
  }

  /** The table of an uncached prompt is always right. */
  lemma AllocateUncached(e: Env, made: Made, p: Pool, refs: multiset<nat>, s: SeqState) returns (q: Pool, t: SeqState)
    requires EnvOk(e) && e.blockSize > 1 && Accounted(p, refs) && Honest(e, made, p)
    requires CanAllocate(e, p, s) && s.tokens != [] && s.cached == 0 && s.noCache
    ensures Allocate(e, p, s) == Some((q, t)) && AllocatedFor(e, p, refs, s, q, t)
    ensures Sound(e, q, s.tokens, t.table) && Honest(e, made, q) && SameHash(p, q, refs)
  {
    hide Accounted, Honest, NumBlocks, Sound, AllocatedFor, AllocUpto, EnvOk;
    q, t := AllocateAccountedFor(e, p, refs, s);
    var st := FillUpto(e, made, p, refs, s, NumBlocks(|s.tokens|, e.blockSize));
  }

  // ---------------------------------------------------------------- everything else keeps it

  /** Releasing blocks keeps the pool honest. */
  lemma {:induction false} DropAllHonest(e: Env, made: Made, p: Pool, refs: multiset<nat>, table: seq<nat>)
    requires Accounted(p, refs + multiset(table)) && Honest(e, made, p)
    ensures Honest(e, made, DropAll(p, table)) && SameHash(p, DropAll(p, table), refs)
    decreases |table|
  {
    hide Accounted, Drop, HonestBlock;
    if table != [] {
      var last := |table| - 1;
      var rest := refs + multiset(table[..last]);
      assert table == table[..last] + [table[last]];
      assert refs + multiset(table) == rest + multiset{table[last]};
      DropAccounted(p, rest, table[last]);
      DropKeeps(p, table[last]);
      DropHonest(e, made, p, Drop(p, table[last]));
      DropAllHonest(e, made, Drop(p, table[last]), refs, table[..last]);
    }
  }

  lemma DropHonest(e: Env, made: Made, p: Pool, q: Pool)
    requires Honest(e, made, p) && |q.blocks| == |p.blocks|
    requires forall k :: 0 <= k < |p.blocks| ==> q.blocks[k] == p.blocks[k].(refCount := q.blocks[k].refCount)
    ensures Honest(e, made, q)
  {
    hide OwnChain;
    forall k | 0 <= k < |q.blocks|
      ensures HonestBlock(e, made, q.blocks[k])
    {
      SameRecord(e, made, p.blocks[k], q.blocks[k]);
    }
  }

  /** The tables of other sequences stay right. */
  lemma SoundElsewhere(e: Env, p: Pool, q: Pool, refs: multiset<nat>, history: seq<Token>, table: seq<nat>)
    requires Sound(e, p, history, table) && Untouched(p, q, refs) && multiset(table) <= refs
    ensures Sound(e, q, history, table)
  {
    hide Prefix;
    forall j | 0 <= j < |table|
      ensures table[j] in refs
    {
      assert table[j] in multiset(table);
    }
  }

  // ---------------------------------------------------------------- one decode step

  /** How many of the sequence's tokens are computed before its next decode step. */
  function Computed(s: SeqState): nat {
    if |s.tokens| > s.admitted then |s.tokens| - 1 else |s.tokens|
  }

  /** The table is right for the first `c` tokens, and linked unless the prompt was uncached. */
  ghost predicate SoundSeq(e: Env, p: Pool, s: SeqState, c: nat) {
    && c <= |s.tokens| && Sound(e, p, s.tokens[..c], s.table)
    && (!s.noCache ==> Linked(e, p, s.tokens[..c], s.table))
  }

  /** A longer history has the same full blocks. */
  lemma SamePrefix(e: Env, tokens: seq<Token>, c: nat, d: nat, j: nat)
    requires c <= d <= |tokens| && j * e.blockSize <= c
    ensures Prefix(e, tokens[..c], j) == Prefix(e, tokens[..d], j)
  {
  }

  /** The block in progress starts before the last token and ends at or after it. */
  lemma LastBlockSpan(n: nat, size: nat, k: nat)
    requires size > 0 && n > 0 && k == NumBlocks(n, size)
    ensures k > 0 && (k - 1) * size <= n - 1 < n <= k * size
    ensures n % size == 0 ==> k * size == n
    ensures n % size == 1 && size > 1 ==> (k - 1) * size == n - 1
  {
    Quotient(n + size - 1, size);
    assert (k - 1) * size + size == k * size;
    if n % size == 0 {
      assert n == n / size * size;
      QuotientIs(n + size - 1, size, n / size);
    }
    if n % size == 1 && size > 1 {
      assert n == n / size * size + 1;
      assert (n / size + 1) * size == n / size * size + size;
      QuotientIs(n + size - 1, size, n / size + 1);
    }
  }

  /** The blocks before the last are registered under the chain of the first tokens. */
  predicate FrontLinked(e: Env, p: Pool, tokens: seq<Token>, front: seq<nat>)
    requires tokens != []
  {
    forall j :: 0 <= j < |front| ==>
      front[j] < |p.blocks| && p.blocks[front[j]].hash == ChainHash(e, tokens[..|tokens| - 1], j + 1)
  }

  lemma LinkedFront(e: Env, p: Pool, q: Pool, tokens: seq<Token>, front: seq<nat>, id: nat)
    requires e.blockSize > 0 && tokens != [] && |front| * e.blockSize <= |tokens| - 1
    requires FrontLinked(e, p, tokens, front) && id !in front
    requires |q.blocks| == |p.blocks| && id < |q.blocks| && q.blocks[id].hash == NONE
    requires forall k :: 0 <= k < |p.blocks| && k != id ==> q.blocks[k] == p.blocks[k]
    ensures Linked(e, q, tokens, front + [id])
  {
    hide ChainHash;
    var t, n := front + [id], |tokens|;
    assert tokens[..n] == tokens;
    forall j | 0 <= j < |front|
      ensures q.blocks[t[j]].hash == ChainHash(e, tokens, j + 1)
    {
      MulLe(j + 1, |front|, e.blockSize);
      assert tokens[..n - 1][..(j + 1) * e.blockSize] == tokens[..(j + 1) * e.blockSize];
      ChainOfPrefix(e, tokens[..n - 1], tokens, j + 1);
    }
  }

  /** One block, in no earlier place of the table, now holds the whole of `tokens`. */
  lemma RewrittenSound(e: Env, made: Made, p: Pool, q: Pool, tokens: seq<Token>, front: seq<nat>, id: nat)
    requires e.blockSize > 0 && tokens != []
    requires |front| * e.blockSize <= |tokens| - 1 < |tokens| <= (|front| + 1) * e.blockSize
    requires Honest(e, made, p) && Sound(e, p, tokens[..|tokens| - 1], front)
    requires |q.blocks| == |p.blocks| && id < |q.blocks| && id !in front
    requires forall k :: 0 <= k < |p.blocks| && k != id ==> q.blocks[k] == p.blocks[k]
    requires q.blocks[id].hash == NONE && q.blocks[id].held == tokens
    ensures Honest(e, made, q) && Sound(e, q, tokens, front + [id])
  {
    hide HonestBlock;
    var t, n := front + [id], |tokens|;
    assert tokens[..n] == tokens;
    forall j | 0 <= j < |t|
      ensures t[j] < |q.blocks| && q.blocks[t[j]].held == Prefix(e, tokens, j + 1)
    {
      if j < |front| {
        MulLe(j + 1, |front|, e.blockSize);
        SamePrefix(e, tokens, n - 1, n, j + 1);
      }
    }
    HonestUnregistered(e, made, p, q, id);
  }

  lemma HonestUnregistered(e: Env, made: Made, p: Pool, q: Pool, id: nat)
    requires Honest(e, made, p) && |q.blocks| == |p.blocks| && id < |q.blocks| && q.blocks[id].hash == NONE
    requires forall k :: 0 <= k < |p.blocks| && k != id ==> q.blocks[k] == p.blocks[k]
    ensures Honest(e, made, q)
  {
    assert HonestBlock(e, made, q.blocks[id]);
    HonestAfter(e, made, p, q, id);
  }

  /** A block that was full is followed by a new one. */
  lemma GrowEffect(e: Env, p: Pool, refs: multiset<nat>, s: SeqState) returns (q: Pool, id: nat)
    requires EnvOk(e) && e.blockSize > 1 && Accounted(p, refs + multiset(s.table)) && Live(e, p, s, |s.tokens|)
    requires |s.tokens| % e.blockSize == 1 && CanAppend(e, p, s) && !Faulty(e, s)
    ensures Grow(e, p, s) == Some((q, s.(table := s.table + [id], pending := true)))
    ensures |q.blocks| == |p.blocks| && id < |q.blocks| && id !in refs + multiset(s.table)
    ensures forall k :: 0 <= k < |p.blocks| && k != id ==> q.blocks[k] == p.blocks[k]
    ensures q.blocks[id].hash == NONE
    ensures q.blocks[id].held == HeldBefore(p, s.table) + BlockTokens(e, s.tokens, |s.table|)
    ensures p.blocks[s.table[|s.table| - 1]].hash != NONE
  {
    hide Accounted, Counted, Hashed, BlockTokens, RemoveFirst;
    MissAccounted(p, refs + multiset(s.table), NONE, [], HeldBefore(p, s.table) + BlockTokens(e, s.tokens, |s.table|));
    NextMod(|s.tokens| - 1, e.blockSize);
    id := p.free[0];
    q := MissPool(p, id, NONE, [], HeldBefore(p, s.table) + BlockTokens(e, s.tokens, |s.table|));
  }

  lemma GrowSound(e: Env, made: Made, p: Pool, refs: multiset<nat>, s: SeqState)
    requires EnvOk(e) && e.blockSize > 1 && Accounted(p, refs + multiset(s.table)) && Live(e, p, s, |s.tokens|)
    requires |s.tokens| % e.blockSize == 1 && CanAppend(e, p, s)
    requires Honest(e, made, p) && !Faulty(e, s) && SoundSeq(e, p, s, |s.tokens| - 1)
    ensures Grow(e, p, s).Some?
    ensures var q, t := Grow(e, p, s).value.0, Grow(e, p, s).value.1;
            Honest(e, made, q) && SoundSeq(e, q, t, |s.tokens|) && SameHash(p, q, refs)
  {
    hide Accounted, Grow, Honest, Prefix, CanAppend, ChainHash, Live, NumBlocks, Sound, Linked, SameHash, Faulty;
    var n, k := |s.tokens|, |s.table|;
    LiveHasBlocks(e, p, s);
    var q, id := GrowEffect(e, p, refs, s);
    NumBlocksNext(n - 1, e.blockSize);
    NextMod(n - 1, e.blockSize);
    LastBlockSpan(n, e.blockSize, k + 1);
    WholeHistory(e, s.tokens, k);
    LastHeld(e, p, s.tokens[..n - 1], s.table);
    RewrittenSound(e, made, p, q, s.tokens, s.table, id);
    OthersSame(p, q, refs, id);
    assert s.tokens[..n] == s.tokens;
    if !s.noCache {
      LinkedAll(e, p, s.tokens, s.table);
      LinkedFront(e, p, q, s.tokens, s.table, id);
    }
  }

  lemma LastHeld(e: Env, p: Pool, history: seq<Token>, table: seq<nat>)
    requires table != [] && Sound(e, p, history, table)
    ensures table[|table| - 1] < |p.blocks|
    ensures p.blocks[table[|table| - 1]].held == Prefix(e, history, |table|)
  {
    hide Prefix;
  }

  lemma LinkedAll(e: Env, p: Pool, tokens: seq<Token>, table: seq<nat>)
    requires tokens != [] && table != [] && Linked(e, p, tokens[..|tokens| - 1], table)
    requires p.blocks[table[|table| - 1]].hash != NONE
    ensures FrontLinked(e, p, tokens, table)
  {
    hide ChainHash;
  }

  lemma LiveHasBlocks(e: Env, p: Pool, s: SeqState)
    requires e.blockSize > 1 && Live(e, p, s, |s.tokens|)
    ensures |s.tokens| >= 2 && |s.table| == NumBlocks(|s.tokens| - 1, e.blockSize) && s.table != []
    ensures forall j :: 0 <= j < |s.table| ==> s.table[j] < |p.blocks|
  {
  }

  lemma WholeHistory(e: Env, tokens: seq<Token>, k: nat)
    requires tokens != [] && k * e.blockSize == |tokens| - 1 && e.blockSize > 0
    ensures Prefix(e, tokens[..|tokens| - 1], k) + BlockTokens(e, tokens, k) == tokens
  {
  }

  /** Writing into a block of one's own. */
  lemma WriteSound(e: Env, made: Made, p: Pool, refs: multiset<nat>, s: SeqState)
    requires EnvOk(e) && e.blockSize > 1 && Accounted(p, refs + multiset(s.table)) && Live(e, p, s, |s.tokens|)
    requires |s.tokens| % e.blockSize != 1 && p.blocks[s.table[|s.table| - 1]].hash == NONE
    requires Honest(e, made, p) && SoundSeq(e, p, s, |s.tokens| - 1)
    ensures var q := WriteLast(p, s);
            Honest(e, made, q) && SoundSeq(e, q, s, |s.tokens|) && SameHash(p, q, refs + multiset(s.table))
    ensures |WriteLast(p, s).blocks| == |p.blocks|
    ensures WriteLast(p, s).blocks[s.table[|s.table| - 1]].held == s.tokens
    ensures s.table[|s.table| - 1] !in refs
  {
    hide Accounted, HonestBlock, Prefix, LastHistory, ChainHash, Live, NumBlocks, Linked, SameHash;
    LiveHasBlocks(e, p, s);
    var n, k, id := |s.tokens|, |s.table|, s.table[|s.table| - 1];
    var q := WriteLast(p, s);
    UnregisteredIsOwn(p, refs, s.table);
    NumBlocksNext(n - 1, e.blockSize);
    NextMod(n - 1, e.blockSize);
    LastBlockSpan(n, e.blockSize, k);
    var front := s.table[..k - 1];
    assert front + [id] == s.table;
    LastWritten(e, p, s, k);
    NotBefore(refs, front, id);
    RewrittenSound(e, made, p, q, s.tokens, front, id);
    OthersSame(p, q, refs + multiset(s.table), id);
    assert s.tokens[..n] == s.tokens;
    if !s.noCache {
      LinkedBefore(e, p, s.tokens, front, id);
      LinkedFront(e, p, q, s.tokens, front, id);
    }
  }

  lemma LinkedBefore(e: Env, p: Pool, tokens: seq<Token>, front: seq<nat>, id: nat)
    requires tokens != [] && Linked(e, p, tokens[..|tokens| - 1], front + [id])
    ensures FrontLinked(e, p, tokens, front)
  {
    hide ChainHash;
    var t := front + [id];
    assert forall j :: 0 <= j < |front| ==> front[j] == t[j];
  }

  lemma NotBefore(refs: multiset<nat>, front: seq<nat>, id: nat)
    requires id !in refs + multiset(front)
    ensures id !in front
  {
  }

  lemma LastWritten(e: Env, p: Pool, s: SeqState, k: nat)
    requires s.tokens != [] && k == |s.table| > 0 && |s.tokens| <= k * e.blockSize && s.table[k - 1] < |p.blocks|
    requires p.blocks[s.table[k - 1]].held == Prefix(e, s.tokens[..|s.tokens| - 1], k)
    ensures LastHistory(p, s) == s.tokens
  {
  }

  /** All blocks of a table but the last are registered under the chain of the sequence itself. */
  lemma PriorHash(e: Env, p: Pool, tokens: seq<Token>, table: seq<nat>, c: nat, j: nat)
    requires c <= |tokens| && Linked(e, p, tokens[..c], table)
    requires j < |table| - 1 && (j + 1) * e.blockSize <= c
    ensures p.blocks[table[j]].hash == ChainHash(e, tokens, j + 1)
  {
    hide ChainHash;
    assert tokens[..c][..(j + 1) * e.blockSize] == tokens[..(j + 1) * e.blockSize];
    ChainOfPrefix(e, tokens[..c], tokens, j + 1);
  }

  /** The hash a completed block is registered under. */
  function CloseHash(e: Env, p: Pool, s: SeqState): int
    requires e.blockSize > 0 && s.tokens != []
  {
    var k := |s.table|;
    e.hash(BlockTokens(e, s.tokens, NumBlocks(|s.tokens|, e.blockSize) - 1),
           if k > 1 && s.table[k - 2] < |p.blocks| then p.blocks[s.table[k - 2]].hash else NONE)
  }

  lemma CloseHashIsChain(e: Env, p: Pool, s: SeqState)
    requires EnvOk(e) && e.blockSize > 1 && s.tokens != [] && |s.tokens| % e.blockSize == 0
    requires |s.table| == NumBlocks(|s.tokens|, e.blockSize) && SoundSeq(e, p, s, |s.tokens| - 1)
    ensures CloseHash(e, p, s) != NONE
    ensures !s.noCache ==> CloseHash(e, p, s) == ChainHash(e, s.tokens, |s.table|)
  {
    hide Prefix, NumBlocks, BlockTokens, Sound;
    var n, k := |s.tokens|, |s.table|;
    LastBlockSpan(n, e.blockSize, k);
    if k > 1 && !s.noCache {
      PriorHash(e, p, s.tokens, s.table, n - 1, k - 2);
    }
  }

  /** Registered under its own chain, or with a last token that the engine made. */
  lemma RegisterSound(e: Env, made: Made, q: Pool, tokens: seq<Token>, table: seq<nat>, h: int)
    requires e.blockSize > 0 && tokens != [] && table != [] && |tokens| == |table| * e.blockSize
    requires Honest(e, made, q) && Sound(e, q, tokens, table) && q.blocks[table[|table| - 1]].held == tokens
    requires h == ChainHash(e, tokens, |table|) || made(tokens[|tokens| - 1])
    ensures var r := Register(q, table[|table| - 1], h, BlockTokens(e, tokens, |table| - 1));
            Honest(e, made, r) && Sound(e, r, tokens, table)
  {
    hide ChainHash, Prefix;
    var id, toks := table[|table| - 1], BlockTokens(e, tokens, |table| - 1);
    var r := Register(q, id, h, toks);
    MulAdd(|table| - 1, 1, e.blockSize);
    assert toks != [] && toks[|toks| - 1] == tokens[|tokens| - 1];
    assert HonestBlock(e, made, r.blocks[id]);
    HonestAfter(e, made, q, r, id);
  }

  lemma RegisterLinked(e: Env, q: Pool, tokens: seq<Token>, table: seq<nat>, h: int, toks: seq<Token>)
    requires table != [] && table[|table| - 1] < |q.blocks| && Linked(e, q, tokens, table)
    requires h == ChainHash(e, tokens, |table|) && table[|table| - 1] !in table[..|table| - 1]
    ensures Linked(e, Register(q, table[|table| - 1], h, toks), tokens, table)
  {
    hide ChainHash;
    assert forall j :: 0 <= j < |table| - 1 ==> table[j] in table[..|table| - 1];
  }

  lemma CloseIs(e: Env, p: Pool, s: SeqState)
    requires s.table != [] && s.table[|s.table| - 1] < |p.blocks| && e.blockSize > 0 && s.tokens != []
    requires NumBlocks(|s.tokens|, e.blockSize) == |s.table|
    ensures Close(e, p, s) ==
            if p.blocks[s.table[|s.table| - 1]].hash == NONE
            then Register(WriteLast(p, s), s.table[|s.table| - 1], CloseHash(e, p, s),
                          BlockTokens(e, s.tokens, |s.table| - 1))
            else WriteLast(p, s)
  {
    hide BlockTokens, WriteLast, NumBlocks;
  }

  /** A token that completes a block: the block is registered, under the sequence's own chain unless its
      prompt was uncached. */
  lemma CloseSound(e: Env, made: Made, p: Pool, refs: multiset<nat>, s: SeqState)
    requires EnvOk(e) && e.blockSize > 1 && Accounted(p, refs + multiset(s.table)) && Live(e, p, s, |s.tokens|)
    requires |s.tokens| % e.blockSize == 0 && Honest(e, made, p) && SoundSeq(e, p, s, Computed(s))
    requires s.noCache ==> made(s.tokens[|s.tokens| - 1])
    ensures s.table != [] && s.table[|s.table| - 1] < |p.blocks| && s.tokens != []
    ensures var q := Close(e, p, s); Honest(e, made, q) && SoundSeq(e, q, s, |s.tokens|) && SameHash(p, q, refs)
  {
    hide Accounted, Honest, Sound, Linked, Close, SameHash, EnvOk, NumBlocks, EndsMade;
    LiveHasBlocks(e, p, s);
    if p.blocks[s.table[|s.table| - 1]].hash == NONE {
      CloseRegisters(e, made, p, refs, s);
    } else {
      CloseIsNothing(e, p, s);
      SameHashSame(p, refs);
      assert s.tokens[..|s.tokens|] == s.tokens;
    }
  }

  /** A last block of whole length that is registered already was cached whole, and stays as it is. */
  lemma CloseIsNothing(e: Env, p: Pool, s: SeqState)
    requires e.blockSize > 1 && Live(e, p, s, |s.tokens|) && |s.tokens| % e.blockSize == 0
    requires SoundSeq(e, p, s, Computed(s)) && p.blocks[s.table[|s.table| - 1]].hash != NONE
    ensures Computed(s) == |s.tokens| && Close(e, p, s) == p
  {
    hide Sound, Linked, WriteLast;
    var n := |s.tokens|;
    NumBlocksNext(n - 1, e.blockSize);
    NextMod(n - 1, e.blockSize);
    LastBlockSpan(n, e.blockSize, |s.table|);
    CloseIs(e, p, s);
    assert s.tokens[..n] == s.tokens;
    RewriteIsNothing(e, p, s);
  }

  lemma CloseRegisters(e: Env, made: Made, p: Pool, refs: multiset<nat>, s: SeqState)
    requires EnvOk(e) && e.blockSize > 1 && Accounted(p, refs + multiset(s.table)) && Live(e, p, s, |s.tokens|)
    requires |s.tokens| % e.blockSize == 0 && Honest(e, made, p) && SoundSeq(e, p, s, Computed(s))
    requires p.blocks[s.table[|s.table| - 1]].hash == NONE && (s.noCache ==> made(s.tokens[|s.tokens| - 1]))
    ensures var q := Close(e, p, s); Honest(e, made, q) && SoundSeq(e, q, s, |s.tokens|) && SameHash(p, q, refs)
  {
    hide Accounted, Honest, Sound, Prefix, Close, WriteLast, CloseHash, BlockTokens, ChainHash, EnvOk, Linked, SameHash;
    hide NumBlocks;
    var n, k, id := |s.tokens|, |s.table|, s.table[|s.table| - 1];
    NumBlocksNext(n - 1, e.blockSize);
    NextMod(n - 1, e.blockSize);
    LastBlockSpan(n, e.blockSize, k);
    CloseIs(e, p, s);
    assert s.tokens[..n] == s.tokens;
    WriteSound(e, made, p, refs, s);
    CloseHashIsChain(e, p, s);
    var h, toks := CloseHash(e, p, s), BlockTokens(e, s.tokens, k - 1);
    RegisterSound(e, made, WriteLast(p, s), s.tokens, s.table, h);
    RegisteredElsewhere(p, WriteLast(p, s), refs, s.table, h, toks);
    if !s.noCache {
      UnregisteredIsOwn(p, refs, s.table);
      NotBefore(refs, s.table[..k - 1], id);
      RegisterLinked(e, WriteLast(p, s), s.tokens, s.table, h, toks);
    }
  }

  lemma SameHashSame(p: Pool, refs: multiset<nat>)
    ensures SameHash(p, p, refs)
  {
  }

  lemma RegisteredElsewhere(p: Pool, q: Pool, refs: multiset<nat>, table: seq<nat>, h: int, toks: seq<Token>)
    requires table != [] && table[|table| - 1] < |q.blocks| && table[|table| - 1] !in refs
    requires SameHash(p, q, refs + multiset(table))
    ensures SameHash(p, Register(q, table[|table| - 1], h, toks), refs)
  {
  }

  /** Recomputing the last token of a history that is all there changes nothing. */
  lemma RewriteIsNothing(e: Env, p: Pool, s: SeqState)
    requires s.tokens != [] && s.table != [] && e.blockSize > 0 && |s.tokens| == |s.table| * e.blockSize
    requires Sound(e, p, s.tokens, s.table)
    ensures WriteLast(p, s) == p
  {
    var id := s.table[|s.table| - 1];
    assert p.blocks[id].held == s.tokens;
    assert LastHistory(p, s) == s.tokens;
    assert p.blocks[id := p.blocks[id]] == p.blocks;
  }

  /** A decode step keeps the table right, whatever it was admitted with, and keeps the hashes of everybody
      else's blocks. */
  lemma MayAppendSound(e: Env, made: Made, p: Pool, refs: multiset<nat>, s: SeqState)
    requires EnvOk(e) && e.blockSize > 1 && Accounted(p, refs + multiset(s.table)) && Live(e, p, s, |s.tokens|)
    requires CanAppend(e, p, s) && Honest(e, made, p) && SoundSeq(e, p, s, Computed(s)) && !Faulty(e, s)
    requires s.noCache ==> made(s.tokens[|s.tokens| - 1])
    ensures MayAppend(e, p, s).Some?
    ensures var r := MayAppend(e, p, s).value;
            Honest(e, made, r.0) && SoundSeq(e, r.0, r.1, |s.tokens|) && SameHash(p, r.0, refs)
  {
    hide Accounted, HonestBlock, Sound, Close, WriteLast, Grow, Linked, SameHash;
    var n := |s.tokens|;
    NextMod(n - 1, e.blockSize);
    if n % e.blockSize == 1 {
      GrowSound(e, made, p, refs, s);
    } else if n % e.blockSize == 0 {
      CloseSound(e, made, p, refs, s);
    } else {
      WriteSound(e, made, p, refs, s);
      SameHashLess(p, WriteLast(p, s), refs, multiset(s.table));
    }
  }

  // ---------------------------------------------------------------- the hypothesis is needed

  function Prompt(tokens: seq<Token>): SeqState {
    SeqState(0, tokens, false, [], 0, 0, false)
  }

  /** A request that comes, is served alone and goes. */
  function Serve(e: Env, p: Pool, tokens: seq<Token>): Option<Pool>
    requires e.blockSize > 0
  {
    var r := Allocate(e, p, Prompt(tokens));
    if r.None? then None else Some(DropAll(r.value.0, r.value.1.table))
  }

  /** Requests one after the other. */
  function ServeAll(e: Env, p: Pool, prompts: seq<seq<Token>>): Option<Pool>
    requires e.blockSize > 0
    decreases |prompts|
  {
    if prompts == [] then Some(p)
    else
      var q := Serve(e, p, prompts[0]);
      if q.None? then None else ServeAll(e, q.value, prompts[1..])
  }

  lemma NewPoolIsHonest(e: Env, made: Made, n: nat)
    ensures Accounted(NewPool(n), multiset{}) && Honest(e, made, NewPool(n))
  {
    var p := NewPool(n);
    forall id: nat | id < n
      ensures id in p.free
    {
      assert p.free[id] == id;
    }
  }

  /** Two blocks' worth of tokens, block by block. */
  lemma TwoBlocks(e: Env, a: seq<Token>, b: seq<Token>)
    requires e.blockSize > 0 && |a| == |b| == e.blockSize
    ensures NumBlocks(|a + b|, e.blockSize) == 2 && BlockTokens(e, a + b, 0) == a && BlockTokens(e, a + b, 1) == b
  {
    QuotientIs(|a + b| + e.blockSize - 1, e.blockSize, 2);
  }

  lemma AllocTwo(e: Env, p: Pool, a: seq<Token>, b: seq<Token>)
    requires e.blockSize > 0 && |a| == |b| == e.blockSize
    ensures var first := AllocStep(e, Alloc(p, [], 0, NONE, false), a, false);
            var second := if first.None? then None else AllocStep(e, first.value, b, false);
            Allocate(e, p, Prompt(a + b)) == if second.None? then None
              else Some((second.value.pool,
                         SeqState(0, a + b, false, second.value.table, second.value.cached, 2 * e.blockSize,
                                  second.value.cached < 2 * e.blockSize)))
  {
    hide AllocStep, BlockTokens;
    TwoBlocks(e, a, b);
    var s := Prompt(a + b);
    assert AllocUpto(e, p, s, 1) == AllocStep(e, Alloc(p, [], 0, NONE, false), a, false);
  }

  /** The hashes of the run below are pairwise different, whatever the (injective) hash is. */
  lemma RunHashes(e: Env, a: seq<Token>, b: seq<Token>, c: seq<Token>)
    requires EnvOk(e) && Injective(e) && a != c
    ensures var ha, hc := e.hash(a, NONE), e.hash(c, NONE);
            var hab, hcb := e.hash(b, ha), e.hash(b, hc);
            && ha >= 0 && hc >= 0 && hab >= 0 && hcb >= 0
            && ha != hc && ha != hab && ha != hcb && hc != hab && hc != hcb && hab != hcb
  {
  }

  /** The pool of the run: three unused blocks that hold these histories. */
  function RunPool(b0: Block, b1: Block, b2: Block, free: seq<nat>, used: set<nat>, index: map<int, nat>): Pool {
    Pool([b0, b1, b2], free, used, index)
  }

  const UNUSED := Block(0, NONE, [], [])

  lemma MissStep(e: Env, st: Alloc, toks: seq<Token>, h: int, id: nat)
    requires |toks| == e.blockSize && h == e.hash(toks, st.h) >= 0
    requires st.miss || h !in st.pool.index
    requires st.pool.free != [] && id == st.pool.free[0] < |st.pool.blocks| && st.pool.blocks[id].refCount == 0
    ensures AllocStep(e, st, toks, false) ==
            Some(Alloc(Pool(st.pool.blocks[id := Block(1, h, toks, HeldBefore(st.pool, st.table) + toks)],
                            st.pool.free[1..],
                            st.pool.used + {id}, st.pool.index[h := id]), st.table + [id], st.cached, h, true))
  {
    var p, history := st.pool, HeldBefore(st.pool, st.table) + toks;
    assert id in p.free && RemoveFirst(p.free, id) == p.free[1..];
    assert MissPool(p, id, h, toks, history).blocks == p.blocks[id := Block(1, h, toks, history)];
    StepMiss(e, st, toks, false);
  }

  lemma HitStep(e: Env, st: Alloc, toks: seq<Token>, h: int, id: nat)
    requires |toks| == e.blockSize && h == e.hash(toks, st.h) >= 0
    requires !st.miss && h in st.pool.index && st.pool.index[h] == id
    requires st.pool.free != [] && id == st.pool.free[0] < |st.pool.blocks| && st.pool.blocks[id].refCount == 0
    requires id !in st.pool.used && st.pool.blocks[id].tokens == toks
    ensures AllocStep(e, st, toks, false) ==
            Some(Alloc(Pool(st.pool.blocks[id := Block(1, h, toks, st.pool.blocks[id].held)], st.pool.free[1..],
                            st.pool.used + {id}, st.pool.index[h := id]), st.table + [id], st.cached + e.blockSize, h,
                              false))
  {
    var p := st.pool;
    assert id in p.free && RemoveFirst(p.free, id) == p.free[1..];
    assert HitPool(p, id, h, toks).blocks == p.blocks[id := Block(1, h, toks, p.blocks[id].held)];
    StepHit(e, st, toks, false);
  }

  lemma ServeIs(e: Env, p: Pool, tokens: seq<Token>, q: Pool, table: seq<nat>, cached: nat)
    requires e.blockSize > 0
    requires Allocate(e, p, Prompt(tokens))
             == Some((q, SeqState(0, tokens, false, table, cached, |tokens|, cached < |tokens|)))
    ensures Serve(e, p, tokens) == Some(DropAll(q, table))
  {
  }

  /** Releasing a table of two blocks nobody else holds. */
  lemma DropTwo(p: Pool, x: nat, y: nat)
    requires x < |p.blocks| && y < |p.blocks| && x != y && p.blocks[x].refCount == 1 && p.blocks[y].refCount == 1
    ensures DropAll(p, [x, y]) ==
            Pool(p.blocks[y := p.blocks[y].(refCount := 0)][x := p.blocks[x].(refCount := 0)], p.free + [y] + [x],
                 p.used - {y} - {x}, p.index)
  {
    var q := Drop(p, y);
    assert [x, y][..1] == [x] && [x][..0] == [];
    assert DropAll(q, [x]) == DropAll(Drop(q, x), []) == Drop(q, x);
    assert DropAll(p, [x, y]) == DropAll(q, [x]);
  }

  /** First request `a b` on a new pool of three blocks. */
  lemma FirstRequest(e: Env, a: seq<Token>, b: seq<Token>, c: seq<Token>)
    requires EnvOk(e) && Injective(e) && a != c && |a| == |b| == e.blockSize
    ensures var ha := e.hash(a, NONE);
            var hab := e.hash(b, ha);
            Serve(e, NewPool(3), a + b) ==
            Some(RunPool(Block(0, ha, a, a), Block(0, hab, b, a + b), UNUSED, [2, 1, 0], {}, map[ha := 0, hab := 1]))
  {
    hide Allocate, AllocStep, DropAll, Injective;
    var ha := e.hash(a, NONE);
    var hab := e.hash(b, ha);
    RunHashes(e, a, b, c);
    AllocTwo(e, NewPool(3), a, b);
    var st0 := Alloc(NewPool(3), [], 0, NONE, false);
    MissStep(e, st0, a, ha, 0);
    assert [] + a == a;
    var st1 := AllocStep(e, st0, a, false).value;
    MissStep(e, st1, b, hab, 1);
    var st2 := AllocStep(e, st1, b, false).value;
    assert st2.table == [0, 1];
    var held := RunPool(Block(1, ha, a, a), Block(1, hab, b, a + b), UNUSED, [2], {0, 1}, map[ha := 0, hab := 1]);
    assert st2.pool.blocks == held.blocks;
    assert st2.pool == held;
    DropTwo(held, 0, 1);
    assert DropAll(held, [0, 1]).blocks == [Block(0, ha, a, a), Block(0, hab, b, a + b), UNUSED];
    assert DropAll(held, [0, 1]).free == [2, 1, 0] && DropAll(held, [0, 1]).used == {};
    ServeIs(e, NewPool(3), a + b, held, [0, 1], 0);
  }

  /** Second request `c b`: its `b` goes to the block the first `b` was in. */
  lemma SecondRequest(e: Env, a: seq<Token>, b: seq<Token>, c: seq<Token>)
    requires EnvOk(e) && Injective(e) && a != c && |c| == |b| == e.blockSize
    ensures var ha, hc := e.hash(a, NONE), e.hash(c, NONE);
            var hab, hcb := e.hash(b, ha), e.hash(b, hc);
            Serve(e, RunPool(Block(0, ha, a, a), Block(0, hab, b, a + b), UNUSED, [2, 1, 0], {},
                             map[ha := 0, hab := 1]), c + b) ==
            Some(RunPool(Block(0, ha, a, a), Block(0, hcb, b, c + b), Block(0, hc, c, c), [0, 1, 2], {},
                         map[ha := 0, hab := 1, hc := 2, hcb := 1]))
  {
    hide Allocate, AllocStep, DropAll, Injective;
    var ha, hc := e.hash(a, NONE), e.hash(c, NONE);
    var hab, hcb := e.hash(b, ha), e.hash(b, hc);
    RunHashes(e, a, b, c);
    var p := RunPool(Block(0, ha, a, a), Block(0, hab, b, a + b), UNUSED, [2, 1, 0], {}, map[ha := 0, hab := 1]);
    AllocTwo(e, p, c, b);
    var st0 := Alloc(p, [], 0, NONE, false);
    MissStep(e, st0, c, hc, 2);
    assert [] + c == c;
    var st1 := AllocStep(e, st0, c, false).value;
    MissStep(e, st1, b, hcb, 1);
    var st2 := AllocStep(e, st1, b, false).value;
    assert st2.table == [2, 1];
    var held := RunPool(Block(0, ha, a, a), Block(1, hcb, b, c + b), Block(1, hc, c, c), [0], {1, 2},
                        map[ha := 0, hab := 1, hc := 2, hcb := 1]);
    assert st2.pool.blocks == held.blocks;
    assert st2.pool == held;
    DropTwo(held, 2, 1);
    assert DropAll(held, [2, 1]).blocks == [Block(0, ha, a, a), Block(0, hcb, b, c + b), Block(0, hc, c, c)];
    assert DropAll(held, [2, 1]).free == [0, 1, 2] && DropAll(held, [2, 1]).used == {};
    ServeIs(e, p, c + b, held, [2, 1], 0);
  }

  /** Three blocks, the last of them not full. */
  lemma ThreeBlocks(e: Env, a: seq<Token>, b: seq<Token>, z: seq<Token>)
    requires e.blockSize > 0 && |a| == |b| == e.blockSize && 0 < |z| < e.blockSize
    ensures NumBlocks(|a + b + z|, e.blockSize) == 3
    ensures BlockTokens(e, a + b + z, 0) == a && BlockTokens(e, a + b + z, 1) == b && BlockTokens(e, a + b + z, 2) == z
  {
    QuotientIs(|a + b + z| + e.blockSize - 1, e.blockSize, 3);
  }

  lemma AllocThree(e: Env, p: Pool, a: seq<Token>, b: seq<Token>, z: seq<Token>, st1: Alloc, st2: Alloc, st3: Alloc)
    requires e.blockSize > 0 && |a| == |b| == e.blockSize && 0 < |z| < e.blockSize
    requires AllocStep(e, Alloc(p, [], 0, NONE, false), a, false) == Some(st1)
    requires AllocStep(e, st1, b, false) == Some(st2) && AllocStep(e, st2, z, false) == Some(st3)
    ensures var s, n := Prompt(a + b + z), |a + b + z|;
            && AllocUpto(e, p, s, 1) == Some(st1)
            && Allocate(e, p, s) == Some((st3.pool, s.(table := st3.table, cached := st3.cached, admitted := n,
                                                       pending := st3.cached < n)))
  {
    hide AllocStep, BlockTokens;
    ThreeBlocks(e, a, b, z);
    var s := Prompt(a + b + z);
    assert AllocUpto(e, p, s, 1) == Some(st1);
    assert AllocUpto(e, p, s, 2) == Some(st2);
  }

  /** A block that is not full is never looked up and not registered. */
  lemma TailStep(e: Env, st: Alloc, toks: seq<Token>, id: nat)
    requires EnvOk(e) && 0 < |toks| < e.blockSize && NONE !in st.pool.index
    requires st.pool.free != [] && id == st.pool.free[0] < |st.pool.blocks| && st.pool.blocks[id].refCount == 0
    ensures AllocStep(e, st, toks, false).Some?
    ensures var r := AllocStep(e, st, toks, false).value;
            && r.table == st.table + [id] && r.cached == st.cached && |r.pool.blocks| == |st.pool.blocks|
            && forall k :: 0 <= k < |st.pool.blocks| && k != id ==> r.pool.blocks[k] == st.pool.blocks[k]
  {
    assert id in st.pool.free;
    StepMiss(e, st, toks, false);
  }

  /** Three requests one after the other, `a b`, `c b` and `a b z` with a tail: the third is prefilled from its
      tail on, over the second's keys and values for its second block, whatever the hash function. */
  lemma StaleEntry(e: Env, a: seq<Token>, b: seq<Token>, c: seq<Token>, z: seq<Token>)
    returns (p: Pool, q: Pool, t: SeqState)
    requires EnvOk(e) && Injective(e) && a != c && |a| == |b| == |c| == e.blockSize && 0 < |z| < e.blockSize
    ensures ServeAll(e, NewPool(3), [a + b, c + b]) == Some(p)
    ensures Allocate(e, p, Prompt(a + b + z)) == Some((q, t)) && t.table == [0, 1, 2]
    ensures t.cached == |a + b| < |t.tokens| && t.pending
    ensures |q.blocks| == 3 && q.blocks[1].held == c + b != a + b
    ensures !Sound(e, q, a + b + z, t.table) && !Trusted(e, p, Prompt(a + b + z))
  {
    hide AllocStep, DropAll, Injective, Serve, AllocUpto, Allocate, Trusted, Sound;
    var ha, hc := e.hash(a, NONE), e.hash(c, NONE);
    var hab, hcb := e.hash(b, ha), e.hash(b, hc);
    RunHashes(e, a, b, c);
    FirstRequest(e, a, b, c);
    SecondRequest(e, a, b, c);
    p := RunPool(Block(0, ha, a, a), Block(0, hcb, b, c + b), Block(0, hc, c, c), [0, 1, 2], {},
                 map[ha := 0, hab := 1, hc := 2, hcb := 1]);
    ServeTwo(e, NewPool(3), Serve(e, NewPool(3), a + b).value, p, a + b, c + b);
    var st0 := Alloc(p, [], 0, NONE, false);
    HitStep(e, st0, a, ha, 0);
    var st1 := AllocStep(e, st0, a, false).value;
    HitStep(e, st1, b, hab, 1);
    var st2 := AllocStep(e, st1, b, false).value;
    TailStep(e, st2, z, 2);
    var st3 := AllocStep(e, st2, z, false).value;
    AllocThree(e, p, a, b, z, st1, st2, st3);
    q, t := st3.pool, Allocate(e, p, Prompt(a + b + z)).value.1;
    Differ(a, b, c);
    StaleIsUnsound(e, p, q, a, b, z);
    StaleIsUntrusted(e, p, a, b, z, st1);
  }

  lemma ServeTwo(e: Env, p: Pool, q: Pool, r: Pool, first: seq<Token>, second: seq<Token>)
    requires e.blockSize > 0 && Serve(e, p, first) == Some(q) && Serve(e, q, second) == Some(r)
    ensures ServeAll(e, p, [first, second]) == Some(r)
  {
    hide Serve;
    assert [first, second][1..] == [second] && [second][1..] == [];
    assert ServeAll(e, q, [second]) == ServeAll(e, r, []);
  }

  lemma StaleIsUntrusted(e: Env, p: Pool, a: seq<Token>, b: seq<Token>, z: seq<Token>, st: Alloc)
    requires EnvOk(e) && |a| == |b| == e.blockSize && 0 < |z| < e.blockSize
    requires AllocUpto(e, p, Prompt(a + b + z), 1) == Some(st)
    requires !st.miss && !Misses(e, st.pool, b, false, st.h)
    requires st.pool.blocks[Lookup(st.pool, RollingHash(e, b, false, st.h))].hash != RollingHash(e, b, false, st.h)
    ensures !Trusted(e, p, Prompt(a + b + z))
  {
    hide AllocUpto, BlockTokens, Misses, NumBlocks;
    ThreeBlocks(e, a, b, z);
    assert !TrustedAt(e, p, Prompt(a + b + z), 1);
    assert !TrustedTo(e, p, Prompt(a + b + z), 2);
  }

  lemma Differ(a: seq<Token>, b: seq<Token>, c: seq<Token>)
    requires |a| == |c| && a != c
    ensures c + b != a + b
  {
    assert (c + b)[..|a|] == c && (a + b)[..|a|] == a;
  }

  lemma StaleIsUnsound(e: Env, p: Pool, q: Pool, a: seq<Token>, b: seq<Token>, z: seq<Token>)
    requires e.blockSize > 0 && |a| == |b| == e.blockSize && |q.blocks| == 3 && q.blocks[1].held != a + b
    ensures !Sound(e, q, a + b + z, [0, 1, 2])
  {
    assert Prefix(e, a + b + z, 2) == a + b;
    assert [0, 1, 2][1] == 1;
  }
}
