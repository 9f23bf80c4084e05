/** The KV block pool as a value: reference-counted blocks, a free list, a used set and a rolling-hash
    index, with the exact effect of every operation on them.

    `held` is not a field of the source's block: it says which token history the keys and values in
    the block's memory were computed from.
 */
module BlockPool {
  import opened Arithmetic
  import opened Outcomes

  type Token(!new, ==)

  /** A block id or hash that is not there. */
  const NONE := -1

  datatype Env = Env(blockSize: nat, hash: (seq<Token>, int) -> int)

  ghost predicate EnvOk(e: Env) {
    e.blockSize > 0 && forall toks, prefix :: e.hash(toks, prefix) >= 0
  }

  datatype Block = Block(refCount: int, hash: int, tokens: seq<Token>, held: seq<Token>)

  datatype Pool = Pool(blocks: seq<Block>, free: seq<nat>, used: set<nat>, index: map<int, nat>)

  /** A sequence: its tokens and its block table.  Two fields are bookkeeping of the model: how long it
      was when the table was allocated, and whether it is in a batch whose token is not appended yet. */
  datatype SeqState = SeqState(id: nat, tokens: seq<Token>, noCache: bool, table: seq<nat>, cached: nat,
                               admitted: nat, pending: bool)

  function NumBlocks(n: nat, size: nat): (r: nat)
    requires size > 0
    ensures n > 0 ==> r > 0
  {
    Quotient(n + size - 1, size);
    (n + size - 1) / size
  }

  function Min(a: nat, b: nat): nat {
    if a <= b then a else b
  }

  /** Tokens of logical block `i`. */
  function BlockTokens(e: Env, tokens: seq<Token>, i: nat): seq<Token> {
    tokens[Min(i * e.blockSize, |tokens|)..Min(i * e.blockSize + e.blockSize, |tokens|)]
  }

  // ---------------------------------------------------------------- one block

  function RemoveFirst(s: seq<nat>, x: nat): seq<nat> {
    if s == [] then [] else if s[0] == x then s[1..] else [s[0]] + RemoveFirst(s[1..], x)
  }

  function AllocateBlock(p: Pool, id: nat): Pool
    requires id < |p.blocks|
  {
    p.(blocks := p.blocks[id := p.blocks[id].(refCount := 1, hash := NONE, tokens := [])],
       free := RemoveFirst(p.free, id), used := p.used + {id})
  }

  function Share(p: Pool, id: nat): Pool
    requires id < |p.blocks|
  {
    p.(blocks := p.blocks[id := p.blocks[id].(refCount := p.blocks[id].refCount + 1)])
  }

  function Register(p: Pool, id: nat, h: int, toks: seq<Token>): Pool
    requires id < |p.blocks|
  {
    p.(blocks := p.blocks[id := p.blocks[id].(hash := h, tokens := toks)], index := p.index[h := id])
  }

  /** The model computes the keys and values of the block from `history`. */
  function Compute(p: Pool, id: nat, history: seq<Token>): Pool
    requires id < |p.blocks|
  {
    p.(blocks := p.blocks[id := p.blocks[id].(held := history)])
  }

  function Drop(p: Pool, id: nat): Pool
    requires id < |p.blocks|
  {
    var b := p.blocks[id].(refCount := p.blocks[id].refCount - 1);
    if b.refCount == 0 then p.(blocks := p.blocks[id := b], used := p.used - {id}, free := p.free + [id])
    else p.(blocks := p.blocks[id := b])
  }

  /** A pool as it is made. */
  function NewPool(n: nat): Pool {
    Pool(seq(n, _ => Block(0, NONE, [], [])), seq(n, i requires 0 <= i => i), {}, map[])
  }

  // ---------------------------------------------------------------- accounting

  predicate NoDup(s: seq<nat>) {
    forall i, j :: 0 <= i < j < |s| ==> s[i] != s[j]
  }

  /** The free list is duplicate-free and with the used set partitions the pool, and the reference
      count of a block is its multiplicity in `refs`. */
  ghost predicate Counted(p: Pool, refs: multiset<nat>) {
    && NoDup(p.free)
    && (forall id :: id in p.free ==> id < |p.blocks|)
    && (forall id :: id in p.used ==> id < |p.blocks|)
    && (forall id :: id in refs ==> id < |p.blocks|)
    && (forall id :: 0 <= id < |p.blocks| ==>
          p.blocks[id].refCount == refs[id] && (id in p.free <==> refs[id] == 0) && (id in p.used <==> refs[id] > 0))
  }

  /** The index points into the pool, a block without a hash has no tokens, and is nobody's but one's. */
  ghost predicate Hashed(p: Pool, refs: multiset<nat>) {
    && (forall h :: h in p.index ==> h >= 0 && p.index[h] < |p.blocks|)
    && (forall id :: 0 <= id < |p.blocks| ==>
        p.blocks[id].hash >= NONE && (p.blocks[id].hash == NONE ==> p.blocks[id].tokens == []))
    && (forall id :: 0 <= id < |p.blocks| && p.blocks[id].hash == NONE ==> refs[id] <= 1)
  }

  ghost predicate Accounted(p: Pool, refs: multiset<nat>) {
    Counted(p, refs) && Hashed(p, refs)
  }

  lemma {:induction false} RemovedFirst(s: seq<nat>, x: nat)
    requires NoDup(s) && x in s
    ensures var r := RemoveFirst(s, x);
            NoDup(r) && |r| == |s| - 1 && forall y :: y in r <==> y in s && y != x
    decreases |s|
  {
    if s[0] == x {
      forall y ensures y in s[1..] <==> y in s && y != x {
        if y in s && y != x {
          var i :| 0 <= i < |s| && s[i] == y;
          assert s[1..][i - 1] == y;
        }
      }
    } else {
      var t := s[1..];
      assert x in t;
      RemovedFirst(t, x);
      var r := RemoveFirst(t, x);
      assert s[0] !in t;
      forall y ensures y in [s[0]] + r <==> y in s && y != x {
      }
    }
  }

  lemma AllocateAccounted(p: Pool, refs: multiset<nat>, id: nat)
    requires Accounted(p, refs) && id in p.free
    ensures Accounted(AllocateBlock(p, id), refs + multiset{id})
    ensures |AllocateBlock(p, id).free| == |p.free| - 1
  {
    RemovedFirst(p.free, id);
  }

  lemma ShareAccounted(p: Pool, refs: multiset<nat>, id: nat)
    requires Accounted(p, refs) && id in p.used && p.blocks[id].hash != NONE
    ensures Accounted(Share(p, id), refs + multiset{id})
  {
  }

  lemma RegisterAccounted(p: Pool, refs: multiset<nat>, id: nat, h: int, toks: seq<Token>)
    requires Accounted(p, refs) && id < |p.blocks| && h >= 0
    ensures Accounted(Register(p, id, h, toks), refs)
  {
  }

  lemma ComputeAccounted(p: Pool, refs: multiset<nat>, id: nat, history: seq<Token>)
    requires Accounted(p, refs) && id < |p.blocks|
    ensures Accounted(Compute(p, id, history), refs)
  {
  }

  lemma DropAccounted(p: Pool, refs: multiset<nat>, id: nat)
    requires Accounted(p, refs + multiset{id})
    ensures id < |p.blocks| && Accounted(Drop(p, id), refs)
    ensures |p.free| <= |Drop(p, id).free| <= |p.free| + 1
  {
    var all := refs + multiset{id};
    assert all[id] == refs[id] + 1;
    forall k: nat ensures k in refs ==> k in all {
    }
  }

  // ---------------------------------------------------------------- allocate

  /** Takes a block off the free list; fails where the source's assertion or `remove` would. */
  function Take(p: Pool, id: nat): Option<Pool> {
    if id < |p.blocks| && p.blocks[id].refCount == 0 && id in p.free then Some(AllocateBlock(p, id)) else None
  }

  /** The state of the allocation loop. */
  datatype Alloc = Alloc(pool: Pool, table: seq<nat>, cached: nat, h: int, miss: bool)

  /** The block the index offers for hash `h`. */
  function Lookup(p: Pool, h: int): int {
    if h in p.index then p.index[h] else NONE
  }

  function RollingHash(e: Env, toks: seq<Token>, noCache: bool, h: int): int {
    if !noCache && |toks| == e.blockSize then e.hash(toks, h) else NONE
  }

  /** Whether block content `toks` after hash `h` misses the cache. */
  function Misses(e: Env, p: Pool, toks: seq<Token>, noCache: bool, h: int): bool {
    var id := Lookup(p, RollingHash(e, toks, noCache, h));
    noCache || id < 0 || id >= |p.blocks| || p.blocks[id].tokens != toks
  }

  /** History of the keys and values in the last block of a table. */
  function HeldBefore(p: Pool, table: seq<nat>): seq<Token> {
    if table != [] && table[|table| - 1] < |p.blocks| then p.blocks[table[|table| - 1]].held else []
  }

  /** One iteration: a miss takes the first free block, a hit shares or revives the block found. */
  function AllocStep(e: Env, st: Alloc, toks: seq<Token>, noCache: bool): Option<Alloc> {
    var p, h := st.pool, RollingHash(e, toks, noCache, st.h);
    var miss := st.miss || Misses(e, p, toks, noCache, st.h);
    if miss then
      if p.free == [] then None
      else
        var id := p.free[0];
        var q := Take(p, id);
        if q.None? then None
        else
          var r := Compute(q.value, id, HeldBefore(p, st.table) + toks);
          Some(Alloc(if h != NONE then Register(r, id, h, toks) else r, st.table + [id], st.cached, h, true))
    else
      var id := p.index[h];
      var q := if id in p.used then Some(Share(p, id)) else Take(p, id);
      if q.None? then None
      else Some(Alloc(Register(q.value, id, h, toks), st.table + [id], st.cached + e.blockSize, h, false))
  }

  function AllocUpto(e: Env, p: Pool, s: SeqState, i: nat): Option<Alloc> {
    if i == 0 then Some(Alloc(p, [], s.cached, NONE, false))
    else
      var st := AllocUpto(e, p, s, i - 1);
      if st.None? then None else AllocStep(e, st.value, BlockTokens(e, s.tokens, i - 1), s.noCache)
  }

  function CanAllocate(e: Env, p: Pool, s: SeqState): bool
    requires e.blockSize > 0
  {
    |p.free| >= NumBlocks(|s.tokens|, e.blockSize)
  }

  /** The whole of `allocate`. */
  function Allocate(e: Env, p: Pool, s: SeqState): Option<(Pool, SeqState)>
    requires e.blockSize > 0
  {
    var st := AllocUpto(e, p, s, NumBlocks(|s.tokens|, e.blockSize));
    if st.None? then None
    else Some((st.value.pool, s.(table := st.value.table, cached := st.value.cached, admitted := |s.tokens|,
                                       pending := st.value.cached < |s.tokens|)))
  }

  // ---------------------------------------------------------------- deallocate, append

  /** Drops a table's blocks from its last to its first. */
  function DropAll(p: Pool, table: seq<nat>): Pool
    decreases |table|
  {
    if table == [] then p
    else
      var last := |table| - 1;
      DropAll(if table[last] < |p.blocks| then Drop(p, table[last]) else p, table[..last])
  }

  function Released(s: SeqState): SeqState {
    s.(table := [], cached := 0, pending := false)
  }

  /** A decode step needs a new block exactly when its token is the first of one. */
  function CanAppend(e: Env, p: Pool, s: SeqState): bool
    requires e.blockSize > 0
  {
    |p.free| >= if |s.tokens| % e.blockSize == 1 then 1 else 0
  }

  /** A new block for a last token that starts one; the block before must be registered. */
  function Grow(e: Env, p: Pool, s: SeqState): Option<(Pool, SeqState)>
    requires s.table != [] && s.table[|s.table| - 1] < |p.blocks|
  {
    if p.blocks[s.table[|s.table| - 1]].hash == NONE || p.free == [] then None
    else
      var id := p.free[0];
      var q := Take(p, id);
      if q.None? then None
      else Some((Compute(q.value, id, HeldBefore(p, s.table) + BlockTokens(e, s.tokens, |s.table|)),
                 s.(table := s.table + [id], pending := true)))
  }

  /** What the last block holds once the last token is computed on top of what is there before it. */
  function LastHistory(p: Pool, s: SeqState): seq<Token>
    requires s.tokens != []
  {
    var held := HeldBefore(p, s.table);
    held[..Min(|s.tokens| - 1, |held|)] + [s.tokens[|s.tokens| - 1]]
  }

  /** The step computes the last token into the last block of the table. */
  function WriteLast(p: Pool, s: SeqState): Pool
    requires s.table != [] && s.table[|s.table| - 1] < |p.blocks| && s.tokens != []
  {
    Compute(p, s.table[|s.table| - 1], LastHistory(p, s))
  }

  /** A last token that completes its block: the block is registered under the hash chain. */
  function Close(e: Env, p: Pool, s: SeqState): Pool
    requires s.table != [] && s.table[|s.table| - 1] < |p.blocks| && e.blockSize > 0 && s.tokens != []
  {
    var k, last := |s.table|, s.table[|s.table| - 1];
    var q := WriteLast(p, s);
    if p.blocks[last].hash == NONE then
      var prefix := if k > 1 && s.table[k - 2] < |p.blocks| then p.blocks[s.table[k - 2]].hash else NONE;
      var toks := BlockTokens(e, s.tokens, NumBlocks(|s.tokens|, e.blockSize) - 1);
      Register(q, last, e.hash(toks, prefix), toks)
    else q
  }

  /** Makes room for the last token.  Fails where the source's assertions do. */
  function MayAppend(e: Env, p: Pool, s: SeqState): Option<(Pool, SeqState)>
    requires e.blockSize > 0
  {
    var n := |s.tokens|;
    if n == 0 || s.table == [] || s.table[|s.table| - 1] >= |p.blocks| then None
    else if n % e.blockSize == 1 then Grow(e, p, s)
    else if n % e.blockSize == 0 then Some((Close(e, p, s), s.(pending := true)))
    else if p.blocks[s.table[|s.table| - 1]].hash != NONE then None
    else Some((WriteLast(p, s), s.(pending := true)))
  }
}
