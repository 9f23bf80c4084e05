/** A run of the scheduler in which a cached prompt gets a block completed after an uncached one, although the
    block is registered under the very hash looked up: the prompt holds a token that the engine made.
 */
module PrefixMixed {
  import opened Arithmetic
  import opened BlockAccounting
  import opened BlockPool
  import opened Outcomes
  import opened PrefixCache
  import opened ScheduleFaults
  import opened ScheduleSteps
  import opened Scheduling

  /** Two blocks, the second perhaps not full. */
  lemma HalfBlocks(e: Env, a: seq<Token>, b: seq<Token>)
    requires e.blockSize > 0 && |a| == e.blockSize && 0 < |b| <= e.blockSize
    ensures NumBlocks(|a + b|, e.blockSize) == 2 && BlockTokens(e, a + b, 0) == a && BlockTokens(e, a + b, 1) == b
  {
    QuotientIs(|a + b| + e.blockSize - 1, e.blockSize, 2);
  }

  lemma AllocateHalf(e: Env, p: Pool, s: SeqState, a: seq<Token>, b: seq<Token>, st1: Alloc, st2: Alloc)
    requires e.blockSize > 0 && |a| == e.blockSize && 0 < |b| <= e.blockSize && s.tokens == a + b && s.cached == 0
    requires AllocStep(e, Alloc(p, [], 0, NONE, false), a, s.noCache) == Some(st1)
    requires AllocStep(e, st1, b, s.noCache) == Some(st2)
    ensures AllocUpto(e, p, s, 1) == Some(st1)
    ensures Allocate(e, p, s) == Some((st2.pool, s.(table := st2.table, cached := st2.cached, admitted := |s.tokens|,
                                                    pending := st2.cached < |s.tokens|)))
  {
    hide AllocStep, BlockTokens;
    HalfBlocks(e, a, b);
    assert AllocUpto(e, p, s, 1) == Some(st1);
  }

  /** An uncached step fills the first free block and registers nothing. */
  lemma PlainStep(e: Env, st: Alloc, toks: seq<Token>, id: nat)
    requires st.pool.free != [] && id == st.pool.free[0] < |st.pool.blocks| && st.pool.blocks[id].refCount == 0
    ensures AllocStep(e, st, toks, true) ==
            Some(Alloc(Pool(st.pool.blocks[id := Block(1, NONE, [], HeldBefore(st.pool, st.table) + toks)],
                            st.pool.free[1..], st.pool.used + {id}, st.pool.index),
                       st.table + [id], st.cached, NONE, true))
  {
    var p, history := st.pool, HeldBefore(st.pool, st.table) + toks;
    assert id in p.free && RemoveFirst(p.free, id) == p.free[1..];
    assert MissPool(p, id, NONE, toks, history).blocks == p.blocks[id := Block(1, NONE, [], history)];
    StepMiss(e, st, toks, true);
  }

  /** A hit on a block in use shares it. */
  lemma ShareStep(e: Env, st: Alloc, toks: seq<Token>, h: int, id: nat)
    requires |toks| == e.blockSize && h == e.hash(toks, st.h) >= 0
    requires !st.miss && h in st.pool.index && st.pool.index[h] == id
    requires id < |st.pool.blocks| && id in st.pool.used && st.pool.blocks[id].tokens == toks
    requires st.pool.blocks[id].hash == h
    ensures !Misses(e, st.pool, toks, false, st.h) && TrustedStep(e, st, toks)
    ensures AllocStep(e, st, toks, false).Some?
    ensures var r := AllocStep(e, st, toks, false).value;
            && r.table == st.table + [id] && r.cached == st.cached + e.blockSize && r.h == h && !r.miss
            && r.pool.free == st.pool.free && r.pool.index == st.pool.index && |r.pool.blocks| == |st.pool.blocks|
            && (forall k :: 0 <= k < |st.pool.blocks| && k != id ==> r.pool.blocks[k] == st.pool.blocks[k])
            && r.pool.blocks[id].held == st.pool.blocks[id].held
  {
    assert st.pool.index[h := id] == st.pool.index;
  }

  // ---------------------------------------------------------------- the run

  /** `u` is a full block, `v` and a token one, `z` shorter. */
  predicate Sizes(e: Env, cfg: Config, u: seq<Token>, v: seq<Token>, z: seq<Token>) {
    && e.blockSize > 1 && |u| == e.blockSize && |v| == e.blockSize - 1 && 0 < |z| < e.blockSize
    && cfg.maxSeqs > 0 && cfg.maxTokens >= 2 * e.blockSize
  }

  function Used(b0: Block, b1: Block, index: map<int, nat>): Pool {
    Pool([b0, b1, UNUSED, UNUSED], [2, 3], {0, 1}, index)
  }

  /** The uncached request while it runs. */
  function First(e: Env, tokens: seq<Token>, pending: bool): SeqState
    requires e.blockSize > 0
  {
    SeqState(0, tokens, true, [0, 1], 0, 2 * e.blockSize - 1, pending)
  }

  function AfterPrefill(e: Env, u: seq<Token>, v: seq<Token>): Pool {
    Used(Block(1, NONE, [], u), Block(1, NONE, [], u + v), map[])
  }

  /** Its first decode completes the second block, under a hash that knows nothing of the first. */
  function AfterDecode(e: Env, u: seq<Token>, b: seq<Token>): Pool {
    Used(Block(1, NONE, [], u), Block(1, e.hash(b, NONE), b, u + b), map[e.hash(b, NONE) := 1])
  }

  lemma PrefillFirst(e: Env, cfg: Config, u: seq<Token>, v: seq<Token>, z: seq<Token>)
    requires EnvOk(e) && Sizes(e, cfg, u, v, z)
    ensures var t := First(e, u + v, true);
            Schedule(e, cfg, Sched(NewPool(4), [Arrived(0, u + v, true)], []))
            == Some(Scheduled(Sched(AfterPrefill(e, u, v), [], [t]), [t], true))
  {
    hide Allocate, AllocStep;
    var p, s := NewPool(4), Arrived(0, u + v, true);
    var st0 := Alloc(p, [], 0, NONE, false);
    PlainStep(e, st0, u, 0);
    var st1 := AllocStep(e, st0, u, true).value;
    assert [] + u == u && st1.table == [0];
    PlainStep(e, st1, v, 1);
    var st2 := AllocStep(e, st1, v, true).value;
    assert st2.table == [0, 1];
    AllocateHalf(e, p, s, u, v, st1, st2);
    assert st2.pool.blocks == AfterPrefill(e, u, v).blocks && st2.pool.free == [2, 3];
    assert st2.pool == AfterPrefill(e, u, v);
    HalfBlocks(e, u, v);
    var start, t := Prefill(p, [s], [], [], 0), First(e, u + v, true);
    assert [s][1..] == [] && [] + [t] == [t];
    var next := Admit(e, start).value;
    assert next.waiting == [] && next.running == [t] && next.batch == [t];
    assert PrefillLoop(e, cfg, start) == PrefillLoop(e, cfg, next) == Some(next);
  }

  lemma CloseFirst(e: Env, u: seq<Token>, v: seq<Token>, t: Token)
    requires EnvOk(e) && e.blockSize > 1 && |u| == e.blockSize && |v| == e.blockSize - 1
    ensures var b := v + [t];
            MayAppend(e, AfterPrefill(e, u, v), First(e, u + b, false))
            == Some((AfterDecode(e, u, b), First(e, u + b, true)))
  {
    var b, p := v + [t], AfterPrefill(e, u, v);
    var s := First(e, u + b, false);
    HalfBlocks(e, u, b);
    assert |s.tokens| == 2 * e.blockSize && |s.tokens| % e.blockSize == 0 by { ModIs(|s.tokens|, e.blockSize, 2, 0); }
    assert (u + v)[..|u + v|] == u + v && u + v + [t] == u + b;
    assert LastHistory(p, s) == u + b;
    var q := AfterDecode(e, u, b);
    assert Close(e, p, s).blocks == q.blocks;
  }

  lemma DecodeFirst(e: Env, cfg: Config, u: seq<Token>, v: seq<Token>, z: seq<Token>, t: Token)
    requires EnvOk(e) && Sizes(e, cfg, u, v, z)
    ensures var s, d := First(e, u + (v + [t]), false), First(e, u + (v + [t]), true);
            Schedule(e, cfg, Sched(AfterPrefill(e, u, v), [], [s]))
            == Some(Scheduled(Sched(AfterDecode(e, u, v + [t]), [], [d]), [d], false))
  {
    hide MayAppend;
    var p, s, d := AfterPrefill(e, u, v), First(e, u + (v + [t]), false), First(e, u + (v + [t]), true);
    CloseFirst(e, u, v, t);
    var start := Prefill(p, [], [s], [], 0);
    assert PrefillLoop(e, cfg, start) == Some(start);
    var turn := Decode(p, [], [s], []);
    assert [s][1..] == [];
    assert MakeRoom(e, p, [], [], s) == Room(p, [], [], true);
    var next := Decode(AfterDecode(e, u, v + [t]), [], [], [] + [d]);
    assert DecodeLoop(e, cfg, turn) == DecodeLoop(e, cfg, next) == Some(next);
    assert [] + [d] == [d] && [d] + [] == [d];
    assert next.batch + next.running == [d];
  }

  /** The cached prompt is given that block. */
  lemma PrefillSecond(e: Env, cfg: Config, u: seq<Token>, v: seq<Token>, z: seq<Token>, t: Token, s: SeqState)
    returns (r: Scheduled)
    requires EnvOk(e) && Sizes(e, cfg, u, v, z)
    ensures var b, st := v + [t], Sched(AfterDecode(e, u, v + [t]), [Arrived(1, v + [t] + z, false)], [s]);
            && Schedule(e, cfg, st) == Some(r) && r.prefill && |r.batch| == 1 && r.batch[0].tokens == b + z
            && r.batch[0].cached == e.blockSize < |b + z| && r.batch[0].table == [1, 2]
            && |r.sched.pool.blocks| == 4 && r.sched.pool.blocks[1].held == u + b
            && Trusted(e, st.pool, st.waiting[0])
  {
    hide Allocate, AllocStep, Trusted;
    var b := v + [t];
    var p, w, h := AfterDecode(e, u, b), Arrived(1, b + z, false), e.hash(b, NONE);
    var st0 := Alloc(p, [], 0, NONE, false);
    ShareStep(e, st0, b, h, 1);
    var st1 := AllocStep(e, st0, b, false).value;
    assert st1.table == [1];
    TailStep(e, st1, z, 2);
    var st2 := AllocStep(e, st1, z, false).value;
    assert st2.table == [1, 2];
    AllocateHalf(e, p, w, b, z, st1, st2);
    HalfBlocks(e, b, z);
    TailIsTrusted(e, p, w, b, z, st0, st1);
    var start, a := Prefill(p, [w], [s], [], 0), Allocate(e, p, w).value.1;
    assert [w][1..] == [] && [] + [a] == [a];
    var next := Admit(e, start).value;
    assert next.waiting == [] && next.batch == [a];
    assert PrefillLoop(e, cfg, start) == PrefillLoop(e, cfg, next) == Some(next);
    r := Scheduled(Sched(next.pool, next.waiting, next.running), next.batch, true);
  }

  lemma TailIsTrusted(e: Env, p: Pool, s: SeqState, b: seq<Token>, z: seq<Token>, st0: Alloc, st1: Alloc)
    requires EnvOk(e) && |b| == e.blockSize && 0 < |z| < e.blockSize && s.tokens == b + z
    requires AllocUpto(e, p, s, 0) == Some(st0) && TrustedStep(e, st0, b)
    requires AllocUpto(e, p, s, 1) == Some(st1) && NONE !in st1.pool.index
    ensures Trusted(e, p, s)
  {
    hide AllocUpto, BlockTokens, NumBlocks, TrustedStep;
    HalfBlocks(e, b, z);
    NotLookedUp(e, st1, z);
    assert TrustedAt(e, p, s, 0) && TrustedAt(e, p, s, 1);
    assert TrustedTo(e, p, s, 0) && TrustedTo(e, p, s, 1) && TrustedTo(e, p, s, 2);
  }

  lemma NotLookedUp(e: Env, st: Alloc, toks: seq<Token>)
    requires |toks| != e.blockSize && NONE !in st.pool.index
    ensures TrustedStep(e, st, toks)
  {
  }

  lemma StepIs(e: Env, cfg: Config, w: World, st: Sched, d: SeqState, prefill: bool, tok: nat -> Token,
               stops: nat -> bool)
    requires e.blockSize > 0 && !stops(d.id) && w.gone == {} && st.running == [d] && st.waiting == []
    requires Schedule(e, cfg, w.sched) == Some(Scheduled(st, [d], prefill))
    ensures Happen(e, cfg, w, Step(tok, stops)) == Some(w.(sched := Sched(st.pool, [], [WithToken(d, tok)])))
  {
    hide Schedule;
    assert AllWithToken([d], tok) == [WithToken(d, tok)];
    assert [d][1..] == [];
    assert Stopping([d], stops) == Stopping([], stops) == [];
    assert w.gone + SetOf([]) == {};
  }

  /** An uncached prompt `u v` is served two steps, the first of which makes token `t`; then a cached prompt
      `v t z` arrives.  Its lookup finds what it asked for, and the block holds the keys and values of `v t`
      after `u`. */
  lemma MadeTokenInPrompt(e: Env, cfg: Config, u: seq<Token>, v: seq<Token>, z: seq<Token>, tok: nat -> Token,
                          stops: nat -> bool)
    returns (w: World, r: Scheduled)
    requires EnvOk(e) && Sizes(e, cfg, u, v, z) && !stops(0)
    ensures var b := v + [tok(0)];
            && Run(e, cfg, NewWorld(4), [Arrive(0, u + v, true), Step(tok, stops), Step(tok, stops),
                                         Arrive(1, b + z, false)]) == Some(w)
            && Schedule(e, cfg, w.sched) == Some(r) && w.sched.waiting != [] && r.prefill
            && |r.batch| == 1 && r.batch[0].tokens == b + z && r.batch[0].cached < |b + z|
            && Trusted(e, w.sched.pool, w.sched.waiting[0])
            && !Sound(e, r.sched.pool, b + z, r.batch[0].table)
  {
    hide Schedule, Trusted, Happen;
    var t, b := tok(0), v + [tok(0)];
    var evs := [Arrive(0, u + v, true), Step(tok, stops), Step(tok, stops), Arrive(1, b + z, false)];
    var s0 := Arrived(0, u + v, true);
    var w1 := World(Sched(NewPool(4), [s0], []), [0], {});
    ArriveFirst(e, cfg, u + v);
    PrefillFirst(e, cfg, u, v, z);
    var d1 := First(e, u + v, true);
    StepIs(e, cfg, w1, Sched(AfterPrefill(e, u, v), [], [d1]), d1, true, tok, stops);
    assert u + v + [t] == u + b;
    var w2 := World(Sched(AfterPrefill(e, u, v), [], [First(e, u + b, false)]), [0], {});
    DecodeFirst(e, cfg, u, v, z, t);
    var d2 := First(e, u + b, true);
    StepIs(e, cfg, w2, Sched(AfterDecode(e, u, b), [], [d2]), d2, false, tok, stops);
    var w3 := World(Sched(AfterDecode(e, u, b), [], [WithToken(d2, tok)]), [0], {});
    w := World(Sched(AfterDecode(e, u, b), [Arrived(1, b + z, false)], [WithToken(d2, tok)]), [0, 1], {});
    ArriveSecond(e, cfg, w3, b + z);
    RunFour(e, cfg, NewWorld(4), evs, w1, w2, w3, w);
    r := PrefillSecond(e, cfg, u, v, z, t, WithToken(d2, tok));
    assert Prefix(e, b + z, 1) == b && |u + b| != |b|;
    assert r.sched.pool.blocks[r.batch[0].table[0]].held != Prefix(e, b + z, 1);
  }

  lemma ArriveFirst(e: Env, cfg: Config, prompt: seq<Token>)
    requires e.blockSize > 0
    ensures Happen(e, cfg, NewWorld(4), Arrive(0, prompt, true))
            == Some(World(Sched(NewPool(4), [Arrived(0, prompt, true)], []), [0], {}))
  {
    assert [] + [0] == [0] && [] + [Arrived(0, prompt, true)] == [Arrived(0, prompt, true)];
  }

  lemma ArriveSecond(e: Env, cfg: Config, w: World, prompt: seq<Token>)
    requires e.blockSize > 0 && w.sched.waiting == [] && w.arrived == [0]
    ensures Happen(e, cfg, w, Arrive(1, prompt, false))
            == Some(World(Sched(w.sched.pool, [Arrived(1, prompt, false)], w.sched.running), [0, 1], w.gone))
  {
    assert [0] + [1] == [0, 1] && [] + [Arrived(1, prompt, false)] == [Arrived(1, prompt, false)];
  }

  lemma RunFour(e: Env, cfg: Config, w0: World, evs: seq<Event>, w1: World, w2: World, w3: World, w4: World)
    requires e.blockSize > 0 && |evs| == 4
    requires Happen(e, cfg, w0, evs[0]) == Some(w1) && Happen(e, cfg, w1, evs[1]) == Some(w2)
    requires Happen(e, cfg, w2, evs[2]) == Some(w3) && Happen(e, cfg, w3, evs[3]) == Some(w4)
    ensures Run(e, cfg, w0, evs) == Some(w4)
  {
    hide Happen;
    assert evs[1..][1..] == evs[2..] && evs[2..][1..] == evs[3..] && evs[3..][1..] == [];
    assert Run(e, cfg, w4, []) == Some(w4);
    assert Run(e, cfg, w3, evs[3..]) == Some(w4);
    assert Run(e, cfg, w2, evs[2..]) == Some(w4);
    assert Run(e, cfg, w1, evs[1..]) == Some(w4);
  }
}
