/** The block manager itself: blocks and sequences are objects, updated in place.  Every method does to the
    objects exactly what its function in `BlockPool` does to their value.
 */
module BlockManagers {
  import opened BlockPool
  import opened Outcomes

  class KvBlock {
    const id: nat
    var refCount: int
    var hash: int
    var tokens: seq<Token>
    ghost var held: seq<Token>

    constructor (id: nat)
      ensures this.id == id && View() == BlockPool.Block(0, NONE, [], [])
    {
      this.id := id;
      refCount, hash, tokens := 0, NONE, [];
      held := [];
    }

    ghost function View(): BlockPool.Block
      reads this
    {
      BlockPool.Block(refCount, hash, tokens, held)
    }

    method Update(h: int, toks: seq<Token>)
      modifies this
      ensures View() == old(View()).(hash := h, tokens := toks)
    {
      hash, tokens := h, toks;
    }

    method Reset()
      modifies this
      ensures View() == old(View()).(refCount := 1, hash := NONE, tokens := [])
    {
      refCount, hash, tokens := 1, NONE, [];
    }
  }

  class Sequence {
    const id: nat
    const noCache: bool
    var tokens: seq<Token>
    var table: seq<nat>
    var cached: nat
    ghost var admitted: nat
    ghost var pending: bool

    constructor (id: nat, tokens: seq<Token>, noCache: bool)
      ensures View() == SeqState(id, tokens, noCache, [], 0, 0, false)
    {
      this.id, this.noCache, this.tokens := id, noCache, tokens;
      table, cached := [], 0;
      admitted, pending := 0, false;
    }

    ghost function View(): SeqState
      reads this
    {
      SeqState(id, tokens, noCache, table, cached, admitted, pending)
    }

    /** The token computed for the last one joins the sequence. */
    method AppendToken(tok: Token)
      modifies this
      ensures View() == old(View()).(tokens := old(tokens) + [tok], pending := false)
    {
      tokens := tokens + [tok];
      pending := false;
    }
  }

  class BlockManager {
    const e: Env
    const blocks: seq<KvBlock>
    var free: seq<nat>
    var used: set<nat>
    var index: map<int, nat>

    constructor (e: Env, numBlocks: nat)
      requires e.blockSize > 0
      ensures this.e == e && Valid() && View() == NewPool(numBlocks)
      ensures forall i :: 0 <= i < |blocks| ==> fresh(blocks[i])
    {
      var bs: seq<KvBlock> := [];
      for i := 0 to numBlocks
        invariant |bs| == i
        invariant forall j :: 0 <= j < i ==> fresh(bs[j]) && bs[j].View() == BlockPool.Block(0, NONE, [], [])
        invariant forall j, k :: 0 <= j < k < i ==> bs[j] != bs[k]
      {
        var b := new KvBlock(i);
        bs := bs + [b];
      }
      this.e, blocks := e, bs;
      free, used, index := seq(numBlocks, i requires 0 <= i => i), {}, map[];
    }

    ghost predicate Valid() {
      e.blockSize > 0 && forall i, j :: 0 <= i < j < |blocks| ==> blocks[i] != blocks[j]
    }

    ghost function Blocks(): (r: seq<BlockPool.Block>)
      reads blocks
      ensures |r| == |blocks|
    {
      seq(|blocks|, i requires 0 <= i < |blocks| reads blocks => blocks[i].View())
    }

    ghost function View(): (p: Pool)
      reads this, blocks
      ensures |p.blocks| == |blocks|
    {
      Pool(Blocks(), free, used, index)
    }

    /** A block taken off the free list; fails where the assertion or the removal would. */
    method AllocateBlock(id: nat) returns (ok: bool)
      requires Valid()
      modifies this`free, this`used, blocks
      ensures ok <==> Take(old(View()), id).Some?
      ensures ok ==> View() == Take(old(View()), id).value
      ensures !ok ==> View() == old(View())
    {
      if id >= |blocks| || blocks[id].refCount != 0 || id !in free {
        return false;
      }
      blocks[id].Reset();
      free := RemoveFirst(free, id);
      used := used + {id};
      assert Blocks() == BlockPool.AllocateBlock(old(View()), id).blocks;
      ok := true;
    }

    method Register(id: nat, h: int, toks: seq<Token>)
      requires Valid() && id < |blocks|
      modifies this`index, blocks
      ensures View() == BlockPool.Register(old(View()), id, h, toks)
    {
      blocks[id].Update(h, toks);
      index := index[h := id];
      assert Blocks() == BlockPool.Register(old(View()), id, h, toks).blocks;
    }

    /** The model will compute the block from `history`. */
    ghost method Compute(id: nat, history: seq<Token>)
      requires Valid() && id < |blocks|
      modifies blocks
      ensures View() == BlockPool.Compute(old(View()), id, history)
    {
      blocks[id].held := history;
      assert Blocks() == BlockPool.Compute(old(View()), id, history).blocks;
    }

    method Share(id: nat)
      requires Valid() && id < |blocks|
      modifies blocks
      ensures View() == BlockPool.Share(old(View()), id)
    {
      blocks[id].refCount := blocks[id].refCount + 1;
      assert Blocks() == BlockPool.Share(old(View()), id).blocks;
    }

    method Drop(id: nat)
      requires Valid() && id < |blocks|
      modifies this`free, this`used, blocks
      ensures View() == BlockPool.Drop(old(View()), id)
    {
      blocks[id].refCount := blocks[id].refCount - 1;
      if blocks[id].refCount == 0 {
        used := used - {id};
        free := free + [id];
      }
      assert Blocks() == BlockPool.Drop(old(View()), id).blocks;
    }

    method CanAllocate(s: Sequence) returns (ok: bool)
      requires Valid()
      ensures ok == BlockPool.CanAllocate(e, View(), s.View())
    {
      ok := |free| >= NumBlocks(|s.tokens|, e.blockSize);
    }

    method CanAppend(s: Sequence) returns (ok: bool)
      requires Valid()
      ensures ok == BlockPool.CanAppend(e, View(), s.View())
    {
      ok := |free| >= if |s.tokens| % e.blockSize == 1 then 1 else 0;
    }

    /** Takes the first free block and fills it in: a cache miss. */
    method TakeMiss(h: int, toks: seq<Token>, ghost history: seq<Token>) returns (ok: bool, id: nat)
      requires Valid()
      modifies this`free, this`used, this`index, blocks
      ensures ok <==> old(free) != [] && Take(old(View()), old(free)[0]).Some?
      ensures ok ==> id == old(free)[0]
                     && View() == (var q := BlockPool.Compute(Take(old(View()), id).value, id, history);
                                   if h != NONE then BlockPool.Register(q, id, h, toks) else q)
    {
      if free == [] {
        return false, 0;
      }
      id := free[0];
      ok := AllocateBlock(id);
      if ok {
        Compute(id, history);
        if h != NONE {
          Register(id, h, toks);
        }
      }
    }

    /** Shares or revives the block found: a cache hit. */
    method TakeHit(h: int, toks: seq<Token>, id: nat) returns (ok: bool)
      requires Valid() && id < |blocks|
      modifies this`free, this`used, this`index, blocks
      ensures var q := if id in old(used) then Some(BlockPool.Share(old(View()), id)) else Take(old(View()), id);
              && (ok <==> q.Some?) && (ok ==> View() == BlockPool.Register(q.value, id, h, toks))
    {
      ok := true;
      if id in used {
        Share(id);
      } else {
        ok := AllocateBlock(id);
      }
      if ok {
        Register(id, h, toks);
      }
    }

    /** One turn of the allocation loop. */
    method AllocateNext(s: Sequence, i: nat, h: int, miss: bool) returns (ok: bool, h': int, miss': bool)
      requires Valid()
      modifies this`free, this`used, this`index, blocks, s`table, s`cached
      ensures var st :=
              AllocStep(e, Alloc(old(View()), old(s.table), old(s.cached), h, miss), BlockTokens(e, s.tokens, i),
                        s.noCache);
              && (ok <==> st.Some?) && (ok ==> st.value == Alloc(View(), s.table, s.cached, h', miss'))
    {
      hide BlockTokens, Take, Misses, RollingHash;
      var toks := BlockTokens(e, s.tokens, i);
      var missed, id;
      h', missed, id := LookUp(s, toks, h);
      miss' := miss || missed;
      if miss' {
        ghost var history := HeldBefore(View(), s.table) + toks;
        ok, id := TakeMiss(h', toks, history);
      } else {
        ok := TakeHit(h', toks, id);
        s.cached := s.cached + e.blockSize;
      }
      if ok {
        s.table := s.table + [id];
      }
    }

    /** The rolling hash and the block registered under it, if that holds these tokens. */
    method LookUp(s: Sequence, toks: seq<Token>, h: int) returns (h': int, missed: bool, id: int)
      requires Valid()
      ensures h' == RollingHash(e, toks, s.noCache, h) && missed == Misses(e, View(), toks, s.noCache, h)
      ensures !missed ==> h' in index && id == index[h'] && 0 <= id < |blocks|
    {
      h', id, missed := NONE, NONE, true;
      if !s.noCache {
        h' := if |toks| == e.blockSize then e.hash(toks, h) else NONE;
        id := if h' in index then index[h'] else NONE;
        missed := id == NONE || id >= |blocks| || blocks[id].tokens != toks;
      }
    }

    /** Maps the whole sequence to blocks. */
    method Allocate(s: Sequence) returns (ok: bool)
      requires Valid() && s.table == []
      modifies this`free, this`used, this`index, blocks, s
      ensures var r := BlockPool.Allocate(e, old(View()), old(s.View()));
              && (ok <==> r.Some?) && (ok ==> View() == r.value.0 && s.View() == r.value.1)
    {
      hide AllocStep;
      ghost var was, p := s.View(), View();
      var h, miss := NONE, false;
      var n := NumBlocks(|s.tokens|, e.blockSize);
      ok := true;
      var i := 0;
      while i < n
        invariant 0 <= i <= n && ok
        invariant s.View() == was.(table := s.table, cached := s.cached)
        invariant AllocUpto(e, p, was, i) == Some(Alloc(View(), s.table, s.cached, h, miss))
      {
        ok, h, miss := AllocateNext(s, i, h, miss);
        if !ok {
          NoneStays(e, p, was, i + 1, n);
          return;
        }
        i := i + 1;
      }
      s.admitted := |s.tokens|;
      s.pending := s.cached < |s.tokens|;
    }

    /** Gives the blocks back, last first. */
    method Deallocate(s: Sequence)
      requires Valid() && forall k :: 0 <= k < |s.table| ==> s.table[k] < |blocks|
      modifies this`free, this`used, blocks, s
      ensures View() == DropAll(old(View()), old(s.table)) && s.View() == Released(old(s.View()))
    {
      hide BlockPool.Drop;
      ghost var was, p := s.View(), View();
      var i := |s.table|;
      assert was.table[..i] == was.table;
      while i > 0
        invariant 0 <= i <= |was.table| && s.View() == was
        invariant DropAll(p, was.table) == DropAll(View(), was.table[..i])
        invariant forall k :: 0 <= k < |was.table| ==> was.table[k] < |blocks|
      {
        i := i - 1;
        assert was.table[..i + 1][..i] == was.table[..i];
        Drop(s.table[i]);
      }
      assert was.table[..0] == [];
      s.cached := 0;
      s.table := [];
      s.pending := false;
    }

    /** A new block for a token that starts one. */
    method Grow(s: Sequence) returns (ok: bool)
      requires Valid() && s.table != [] && s.table[|s.table| - 1] < |blocks|
      modifies this`free, this`used, this`index, blocks, s
      ensures var r := BlockPool.Grow(e, old(View()), old(s.View()));
              && (ok <==> r.Some?) && (ok ==> View() == r.value.0 && s.View() == r.value.1)
    {
      hide BlockTokens, Take;
      if blocks[s.table[|s.table| - 1]].hash == NONE {
        return false;
      }
      ghost var history := HeldBefore(View(), s.table) + BlockTokens(e, s.tokens, |s.table|);
      var id;
      ok, id := TakeMiss(NONE, [], history);
      if ok {
        s.table := s.table + [id];
        s.pending := true;
      }
    }

    /** A token that completes its block registers it. */
    method Close(s: Sequence)
      requires Valid() && s.table != [] && s.table[|s.table| - 1] < |blocks| && s.tokens != []
      requires |s.table| > 1 ==> s.table[|s.table| - 2] < |blocks|
      modifies this`index, blocks
      ensures View() == BlockPool.Close(e, old(View()), s.View())
    {
      hide BlockTokens, LastHistory, NumBlocks;
      var k, last := |s.table|, s.table[|s.table| - 1];
      var closed := blocks[last].hash == NONE;
      ghost var history := LastHistory(View(), s.View());
      var prefix := if k > 1 then blocks[s.table[k - 2]].hash else NONE;
      Compute(last, history);
      if closed {
        var toks := BlockTokens(e, s.tokens, NumBlocks(|s.tokens|, e.blockSize) - 1);
        Register(last, e.hash(toks, prefix), toks);
      }
    }

    /** Makes room for the last token of a running sequence. */
    method MayAppend(s: Sequence) returns (ok: bool)
      requires Valid() && s.tokens != [] && s.table != [] && forall k :: 0 <= k < |s.table| ==> s.table[k] < |blocks|
      modifies this`free, this`used, this`index, blocks, s
      ensures var r := BlockPool.MayAppend(e, old(View()), old(s.View()));
              && (ok <==> r.Some?) && (ok ==> View() == r.value.0 && s.View() == r.value.1)
    {
      hide BlockPool.Grow, BlockPool.Close, LastHistory;
      var n, last := |s.tokens|, s.table[|s.table| - 1];
      ok := true;
      if n % e.blockSize == 1 {
        ok := Grow(s);
      } else if n % e.blockSize == 0 {
        Close(s);
        s.pending := true;
      } else {
        if blocks[last].hash != NONE {
          return false;
        }
        ghost var history := LastHistory(View(), s.View());
        Compute(last, history);
        s.pending := true;
      }
    }
  }

  lemma {:induction false} NoneStays(e: Env, p: Pool, s: SeqState, i: nat, n: nat)
    requires i <= n && AllocUpto(e, p, s, i).None?
    ensures AllocUpto(e, p, s, n).None?
    decreases n - i
  {
    hide AllocStep;
    if i < n { NoneStays(e, p, s, i + 1, n); }
  }
}
