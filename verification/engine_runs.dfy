/** Two runs of the drive loop.  Two equal prompts of one whole block raise, whatever the pool.  And a request
    that was wholly cached, then preempted before its turn came, is served in the end: so without the
    hypothesis that nobody is preempted, a completed loop says neither that nobody was wholly cached nor that
    nobody was preempted.
 */
module EngineRuns {
  import opened Arithmetic
  import opened BlockAccounting
  import opened BlockPool
  import opened Drive
  import opened EngineDrive
  import opened Outcomes
  import opened PrefixCache
  import opened ScheduleFaults
  import opened ScheduleProgress
  import opened ScheduleRuns
  import opened ScheduleSteps
  import opened Scheduling

  // ---------------------------------------------------------------- prompts of one block

  lemma OneBlock(e: Env, u: seq<Token>)
    requires e.blockSize > 1 && |u| == e.blockSize
    ensures NumBlocks(|u|, e.blockSize) == 1 && BlockTokens(e, u, 0) == u
  {
    QuotientIs(|u| + e.blockSize - 1, e.blockSize, 1);
  }

  lemma AllocOne(e: Env, p: Pool, s: SeqState)
    requires e.blockSize > 1 && |s.tokens| == e.blockSize && !s.noCache && s.cached == 0
    ensures var st := AllocStep(e, Alloc(p, [], 0, NONE, false), s.tokens, false);
            Allocate(e, p, s) == if st.None? then None
              else Some((st.value.pool, s.(table := st.value.table, cached := st.value.cached,
                                           admitted := e.blockSize, pending := st.value.cached < e.blockSize)))
  {
    hide AllocStep, BlockTokens, NumBlocks;
    OneBlock(e, s.tokens);
    assert AllocUpto(e, p, s, 0) == Some(Alloc(p, [], 0, NONE, false));
  }

  /** A prompt of one block that misses takes the first free block. */
  lemma AllocMiss(e: Env, p: Pool, s: SeqState, h: int, id: nat)
    requires e.blockSize > 1 && |s.tokens| == e.blockSize && !s.noCache && s.cached == 0
    requires h == e.hash(s.tokens, NONE) >= 0
    requires h in p.index ==> p.index[h] < |p.blocks| && p.blocks[p.index[h]].tokens != s.tokens
    requires p.free != [] && id == p.free[0] < |p.blocks| && p.blocks[id].refCount == 0
    ensures Allocate(e, p, s) ==
            Some((Pool(p.blocks[id := Block(1, h, s.tokens, s.tokens)], p.free[1..], p.used + {id}, p.index[h := id]),
                  s.(table := [id], admitted := e.blockSize, pending := true)))
  {
    AllocOne(e, p, s);
    var st := Alloc(p, [], 0, NONE, false);
    assert id in p.free && RemoveFirst(p.free, id) == p.free[1..];
    assert HeldBefore(p, []) + s.tokens == s.tokens;
    StepMiss(e, st, s.tokens, false);
    var q := MissPool(p, id, h, s.tokens, s.tokens);
    assert q.blocks == p.blocks[id := Block(1, h, s.tokens, s.tokens)];
    assert [] + [id] == [id];
  }

  /** Whether it is cached is decided by one look at the index. */
  lemma AllocOneCached(e: Env, p: Pool, s: SeqState)
    requires e.blockSize > 1 && |s.tokens| == e.blockSize && !s.noCache && s.cached == 0
    requires Allocate(e, p, s).Some? && !Misses(e, p, s.tokens, false, NONE)
    ensures !Allocate(e, p, s).value.1.pending
  {
    hide Misses;
    AllocOne(e, p, s);
  }

  lemma AdmitBatched(e: Env, st: Prefill, q: Pool, t: SeqState)
    requires e.blockSize > 0 && st.waiting != [] && Allocate(e, st.pool, st.waiting[0]) == Some((q, t))
    requires t.cached < |t.tokens|
    ensures Admit(e, st) == Some(Prefill(q, st.waiting[1..], st.running + [t], st.batch + [t],
                                         st.tokens + (|t.tokens| - t.cached)))
  {
    hide Allocate;
  }

  // ---------------------------------------------------------------- equal prompts

  function Waiting(id: nat, prompt: seq<Token>): SeqState {
    Arrived(id, prompt, false)
  }

  /** Two requests with the same prompt, of one block, and a configuration that admits both at once. */
  ghost predicate Twins(e: Env, cfg: Config, n: nat, u: seq<Token>, a: nat, b: nat, cap: Caps)
    requires e.blockSize > 1
  {
    && |u| == e.blockSize && a != b && cfg.maxSeqs >= 2 && 2 * e.blockSize <= cfg.maxTokens
    && e.blockSize < cap(a) <= cfg.maxTokens && e.blockSize < cap(b) <= cfg.maxTokens
    && NumBlocks(cap(a), e.blockSize) + NumBlocks(cap(b), e.blockSize) <= n
  }

  function TwinEngine(n: nat, u: seq<Token>, a: nat, b: nat): Engine {
    Engine(Sched(NewPool(n), [Waiting(a, u), Waiting(b, u)], []), {}, {})
  }

  lemma TwinsAreSane(e: Env, cfg: Config, n: nat, u: seq<Token>, a: nat, b: nat, cap: Caps)
    requires EnvOk(e) && e.blockSize > 1 && Twins(e, cfg, n, u, a, b, cap)
    ensures var g := TwinEngine(n, u, a, b); Sane(e, cfg, g, cap) && Clean(g) && Covers(e, g.sched, cap)
  {
    hide NumBlocks, Sane, Total;
    var ss := [Waiting(a, u), Waiting(b, u)];
    assert Ids(ss) == [a, b];
    NewEngineSane(e, cfg, n, ss, cap);
    var w := CapBlocks(e, cap);
    assert ss == [ss[0]] + [ss[1]];
    RequestsSnoc([], ss[0]);
    RequestsSnoc([ss[0]], ss[1]);
    assert [] + [ss[0]] == [ss[0]] && Requests([]) == [] && [] + [Who(ss[0])] == [Who(ss[0])];
    TotalNothing(w);
    TotalSnoc([], Who(ss[0]), w);
    TotalSnoc([Who(ss[0])], Who(ss[1]), w);
  }

  /** The state of the prefill pass after the first twin. */
  function AfterFirst(e: Env, n: nat, u: seq<Token>, a: nat, b: nat): Prefill
    requires n > 0
  {
    var h := e.hash(u, NONE);
    var p, t := NewPool(n), Waiting(a, u).(table := [0], admitted := e.blockSize, pending := true);
    Prefill(Pool(p.blocks[0 := Block(1, h, u, u)], p.free[1..], {0}, map[h := 0]), [Waiting(b, u)], [t], [t],
            e.blockSize)
  }

  lemma FirstTwin(e: Env, cfg: Config, n: nat, u: seq<Token>, a: nat, b: nat, cap: Caps)
    requires EnvOk(e) && e.blockSize > 1 && Twins(e, cfg, n, u, a, b, cap)
    ensures n >= 2
    ensures var st, next := TwinEngine(n, u, a, b).sched, AfterFirst(e, n, u, a, b);
            && PrefillOf(e, cfg, st) == PrefillLoop(e, cfg, next)
            && Good(e, next.pool, next.waiting, next.running)
            && CanAllocate(e, next.pool, next.waiting[0]) && Admissible(e, cfg, next)
  {
    hide NumBlocks, Good, Allocate;
    TwinsGood(e, cfg, n, u, a, b, cap);
    var st, h, first := TwinEngine(n, u, a, b).sched, e.hash(u, NONE), Waiting(a, u);
    OneBlock(e, u);
    BlocksForTwo(e, cap(a), cap(b));
    AllocMiss(e, st.pool, first, h, 0);
    assert st.pool.used + {0} == {0} && st.pool.index[h := 0] == map[h := 0];
    var start, next := Prefill(st.pool, st.waiting, [], [], 0), AfterFirst(e, n, u, a, b);
    AdmitBatched(e, start, next.pool, next.running[0]);
    assert st.waiting[1..] == next.waiting && [] + next.running == next.running;
    var t := AdmitGood(e, start);
  }

  /** The first prefill pass admits both, the second of them wholly cached. */
  lemma SecondTwinIsCached(e: Env, cfg: Config, n: nat, u: seq<Token>, a: nat, b: nat, cap: Caps)
    requires EnvOk(e) && e.blockSize > 1 && Twins(e, cfg, n, u, a, b, cap)
    ensures AdmitsCached(e, cfg, TwinEngine(n, u, a, b).sched)
  {
    hide NumBlocks, Allocate, Good, CanAllocate, Twins;
    FirstTwin(e, cfg, n, u, a, b, cap);
    TwinsAreBlocks(e, cfg, n, u, a, b, cap);
    var next := AfterFirst(e, n, u, a, b);
    var t := AdmitGood(e, next);
    AllocOneCached(e, next.pool, Waiting(b, u));
    var last := Admit(e, next).value;
    assert last.waiting == [] && last.running == [next.running[0], t] && !last.running[1].pending;
    assert PrefillLoop(e, cfg, next) == PrefillLoop(e, cfg, last) == Some(last);
  }

  lemma TwinsAreBlocks(e: Env, cfg: Config, n: nat, u: seq<Token>, a: nat, b: nat, cap: Caps)
    requires e.blockSize > 1 && Twins(e, cfg, n, u, a, b, cap)
    ensures |u| == e.blockSize
  {
  }

  lemma TwinsGood(e: Env, cfg: Config, n: nat, u: seq<Token>, a: nat, b: nat, cap: Caps)
    requires EnvOk(e) && e.blockSize > 1 && Twins(e, cfg, n, u, a, b, cap)
    ensures var st := TwinEngine(n, u, a, b).sched; Good(e, st.pool, st.waiting, [])
  {
    hide NumBlocks;
    TwinsAreSane(e, cfg, n, u, a, b, cap);
  }

  lemma BlocksForTwo(e: Env, m: nat, k: nat)
    requires e.blockSize > 1 && m > 0 && k > 0
    ensures NumBlocks(m, e.blockSize) + NumBlocks(k, e.blockSize) >= 2
  {
    hide NumBlocks;
  }

  /** Two equal prompts raise: the second has no embedding to decode from, however large the pool. */
  lemma EqualPromptsRaise(e: Env, cfg: Config, n: nat, u: seq<Token>, a: nat, b: nat, tok: (nat, nat) -> Token,
                          cap: Caps)
    requires EnvOk(e) && e.blockSize > 1 && Twins(e, cfg, n, u, a, b, cap)
    ensures var g := TwinEngine(n, u, a, b);
            forall m :: m > Remaining(g.sched, cap) ==> DriveFor(e, cfg, g, tok, cap, m) == Err(NoEmbedding)
  {
    hide Sane, Clean, Covers, AdmitsCached, Remaining;
    var g := TwinEngine(n, u, a, b);
    TwinsAreSane(e, cfg, n, u, a, b, cap);
    SecondTwinIsCached(e, cfg, n, u, a, b, cap);
    assert DriveFor(e, cfg, g, tok, cap, 0) == Ok(g);
    forall m | m > Remaining(g.sched, cap)
      ensures DriveFor(e, cfg, g, tok, cap, m) == Err(NoEmbedding)
    {
      CoveredCompletesUnlessCached(e, cfg, g, tok, cap, m);
    }
  }

  // ---------------------------------------------------------------- cached, preempted and served

  /** Three requests on a pool of two blocks, one at a time: the first and the last with the same prompt. */
  ghost predicate Trio(e: Env, cfg: Config, u: seq<Token>, x: seq<Token>, cap: Caps)
    requires e.blockSize > 1
  {
    && |u| == |x| == e.blockSize && e.hash(u, NONE) != e.hash(x, NONE)
    && cfg.maxSeqs == 1 && e.blockSize + 2 <= cfg.maxTokens
    && cap(0) == e.blockSize + 1 && cap(1) == e.blockSize + 2 && cap(2) == e.blockSize + 1
  }

  /** A prefill that batches its only candidate. */
  lemma SoloPrefill(e: Env, cfg: Config, p: Pool, s: SeqState, rest: seq<SeqState>, q: Pool, t: SeqState)
    requires e.blockSize > 1 && cfg.maxSeqs == 1 && |s.tokens| <= cfg.maxTokens && CanAllocate(e, p, s)
    requires Allocate(e, p, s) == Some((q, t)) && t.cached < |t.tokens|
    ensures Schedule(e, cfg, Sched(p, [s] + rest, [])) == Some(Scheduled(Sched(q, rest, [t]), [t], true))
  {
    hide Allocate, CanAllocate;
    var start := Prefill(p, [s] + rest, [], [], 0);
    AdmitBatched(e, start, q, t);
    var next := Admit(e, start).value;
    assert next.waiting == rest && next.running == [t] && next.batch == [t];
    assert PrefillLoop(e, cfg, start) == PrefillLoop(e, cfg, next) == Some(next);
  }

  /** The only sequence of a batch gets its token and leaves, or stays. */
  lemma AdvanceOne(r: Scheduled, t: SeqState, tok: nat -> Token, cap: Caps)
    requires r.batch == [t] && r.sched.running == [t] && t.pending
    ensures Advance(r, tok, cap) ==
            if |t.tokens| + 1 >= cap(t.id) then Sched(DropAll(r.sched.pool, t.table), r.sched.waiting, [])
            else r.sched.(running := [WithToken(t, tok)])
  {
    hide DropAll;
    assert [t][1..] == [];
    assert AllWithToken([t], tok) == [WithToken(t, tok)];
    var mid := r.sched.(running := [WithToken(t, tok)]);
    assert Find(mid.running, t.id) == Some(WithToken(t, tok));
    if |t.tokens| + 1 >= cap(t.id) {
      assert Full(r.batch, cap) == [t.id] + Full([], cap) == [t.id];
      assert [t.id][1..] == [];
      assert LeaveAll(mid, [t.id]) == LeaveAll(Leave(mid, t.id), []);
    } else {
      assert Full(r.batch, cap) == Full([], cap) == [];
    }
  }

  lemma DropOne(p: Pool, x: nat)
    requires x < |p.blocks| && p.blocks[x].refCount == 1
    ensures DropAll(p, [x]) ==
            Pool(p.blocks[x := p.blocks[x].(refCount := 0)], p.free + [x], p.used - {x}, p.index)
  {
    assert [x][..0] == [];
    assert DropAll(p, [x]) == DropAll(Drop(p, x), []);
  }

  lemma OneFree(e: Env, p: Pool, s: SeqState)
    requires e.blockSize > 1 && |s.tokens| == e.blockSize && p.free != []
    ensures CanAllocate(e, p, s)
  {
    OneBlock(e, s.tokens);
  }

  /** A request of one block that misses and is served alone: batched, given its one token, and gone. */
  lemma ServedAtOnce(e: Env, cfg: Config, g: Engine, s: SeqState, rest: seq<SeqState>, id: nat, tok: nat -> Token,
                     cap: Caps)
    returns (next: Engine)
    requires EnvOk(e) && e.blockSize > 1 && cfg.maxSeqs == 1 && e.blockSize <= cfg.maxTokens
    requires g.sched.waiting == [s] + rest && g.sched.running == [] && s.id !in g.done && cap(s.id) == e.blockSize + 1
    requires |s.tokens| == e.blockSize && !s.noCache && s.cached == 0
    requires var p, h := g.sched.pool, e.hash(s.tokens, NONE);
             && (h in p.index ==> p.index[h] < |p.blocks| && p.blocks[p.index[h]].tokens != s.tokens)
             && p.free != [] && id == p.free[0] < |p.blocks| && p.blocks[id].refCount == 0
    ensures EngineStep(e, cfg, g, tok, cap) == Ok(next)
    ensures var p, h := g.sched.pool, e.hash(s.tokens, NONE);
            && next.sched == Sched(Pool(p.blocks[id := Block(0, h, s.tokens, s.tokens)], p.free[1..] + [id],
                                        p.used + {id} - {id}, p.index[h := id]), rest, [])
            && next.done == g.done + {s.id} && next.embedded == g.embedded + {s.id}
  {
    hide Allocate, CanAllocate, DropAll, Schedule, Advance;
    var p, h := g.sched.pool, e.hash(s.tokens, NONE);
    AllocMiss(e, p, s, h, id);
    OneFree(e, p, s);
    var q, t := Allocate(e, p, s).value.0, Allocate(e, p, s).value.1;
    SoloPrefill(e, cfg, p, s, rest, q, t);
    var r := Scheduled(Sched(q, rest, [t]), [t], true);
    assert g.sched == Sched(p, [s] + rest, []);
    AdvanceOne(r, t, tok, cap);
    DropOne(q, id);
    assert IdSet([t]) == {s.id};
    assert q.blocks[id := q.blocks[id].(refCount := 0)] == p.blocks[id := Block(0, h, s.tokens, s.tokens)];
    next := EngineStep(e, cfg, g, tok, cap).value;
  }

  /** The state before each turn of the run. */
  function Trio0(u: seq<Token>, x: seq<Token>): Engine {
    Engine(Sched(NewPool(2), [Waiting(0, u), Waiting(1, x), Waiting(2, u)], []), {}, {})
  }

  function Trio1(e: Env, u: seq<Token>, x: seq<Token>): Engine {
    var hu := e.hash(u, NONE);
    Engine(Sched(Pool([Block(0, hu, u, u), UNUSED], [1, 0], {}, map[hu := 0]), [Waiting(1, x), Waiting(2, u)], []),
           {0}, {0})
  }

  function Trio2(e: Env, u: seq<Token>, x: seq<Token>, next: Token): Engine {
    var hu, hx := e.hash(u, NONE), e.hash(x, NONE);
    Engine(Sched(Pool([Block(0, hu, u, u), Block(1, hx, x, x)], [0], {1}, map[hu := 0, hx := 1]), [Waiting(2, u)],
                 [SeqState(1, x + [next], false, [1], 0, e.blockSize, false)]),
           {0, 1}, {0, 1})
  }

  function Trio3(e: Env, u: seq<Token>, x: seq<Token>, next: Token): Engine {
    var hu, hx := e.hash(u, NONE), e.hash(x, NONE);
    Engine(Sched(Pool([Block(0, NONE, [], x + [next]), Block(0, hx, x, x)], [0, 1], {}, map[hu := 0, hx := 1]),
                 [Waiting(2, u).(admitted := e.blockSize)], []),
           {0, 1}, {0, 1})
  }

  lemma TrioTurn0(e: Env, cfg: Config, u: seq<Token>, x: seq<Token>, tok: nat -> Token, cap: Caps)
    requires EnvOk(e) && e.blockSize > 1 && Trio(e, cfg, u, x, cap)
    ensures EngineStep(e, cfg, Trio0(u, x), tok, cap) == Ok(Trio1(e, u, x))
  {
    hide EngineStep;
    var g := Trio0(u, x);
    var rest := [Waiting(1, x), Waiting(2, u)];
    assert g.sched.waiting == [Waiting(0, u)] + rest;
    var next := ServedAtOnce(e, cfg, g, Waiting(0, u), rest, 0, tok, cap);
    var p, q := next.sched.pool, Trio1(e, u, x).sched.pool;
    assert p.blocks == q.blocks && p.free == q.free && p.used == q.used && p.index == q.index;
    assert {} + {0} == {0};
  }

  lemma TrioTurn1(e: Env, cfg: Config, u: seq<Token>, x: seq<Token>, tok: nat -> Token, cap: Caps)
    requires EnvOk(e) && e.blockSize > 1 && Trio(e, cfg, u, x, cap)
    ensures EngineStep(e, cfg, Trio1(e, u, x), tok, cap) == Ok(Trio2(e, u, x, tok(1)))
  {
    hide Allocate, CanAllocate, DropAll, Schedule, Advance;
    var g, s, rest, h := Trio1(e, u, x), Waiting(1, x), [Waiting(2, u)], e.hash(x, NONE);
    var p := g.sched.pool;
    AllocMiss(e, p, s, h, 1);
    OneFree(e, p, s);
    var q, t := Allocate(e, p, s).value.0, Allocate(e, p, s).value.1;
    SoloPrefill(e, cfg, p, s, rest, q, t);
    assert g.sched == Sched(p, [s] + rest, []);
    var r := Scheduled(Sched(q, rest, [t]), [t], true);
    AdvanceOne(r, t, tok, cap);
    assert IdSet([t]) == {1};
    var want := Trio2(e, u, x, tok(1));
    assert q.blocks == want.sched.pool.blocks && q.free == want.sched.pool.free && q.used == want.sched.pool.used;
    assert q.index == want.sched.pool.index && {0} + {1} == {0, 1};
  }

  // ---------------------------------------------------------------- the turn that preempts

  /** The oldest sequence of the third turn, with and without its second block. */
  function Old(e: Env, x: seq<Token>, next: Token): SeqState {
    SeqState(1, x + [next], false, [1], 0, e.blockSize, false)
  }

  function Grown(e: Env, x: seq<Token>, next: Token): SeqState {
    Old(e, x, next).(table := [1, 0], pending := true)
  }

  /** The last request, wholly cached. */
  function Cached(e: Env, u: seq<Token>): SeqState {
    Waiting(2, u).(table := [0], cached := e.blockSize, admitted := e.blockSize)
  }

  /** The pools of the third turn: the cached block taken, given back, and taken again. */
  function TakenPool(e: Env, u: seq<Token>, x: seq<Token>): Pool {
    var hu, hx := e.hash(u, NONE), e.hash(x, NONE);
    Pool([Block(1, hu, u, u), Block(1, hx, x, x)], [], {0, 1}, map[hu := 0, hx := 1])
  }

  function BackPool(e: Env, u: seq<Token>, x: seq<Token>): Pool {
    var hu, hx := e.hash(u, NONE), e.hash(x, NONE);
    Pool([Block(0, hu, u, u), Block(1, hx, x, x)], [0], {1}, map[hu := 0, hx := 1])
  }

  function GrownPool(e: Env, u: seq<Token>, x: seq<Token>, next: Token): Pool {
    var hu, hx := e.hash(u, NONE), e.hash(x, NONE);
    Pool([Block(1, NONE, [], x + [next]), Block(1, hx, x, x)], [], {0, 1}, map[hu := 0, hx := 1])
  }

  lemma CachedIsAdmitted(e: Env, cfg: Config, u: seq<Token>, x: seq<Token>, next: Token, cap: Caps)
    requires EnvOk(e) && e.blockSize > 1 && Trio(e, cfg, u, x, cap)
    ensures PrefillOf(e, cfg, Trio2(e, u, x, next).sched) ==
            Some(Prefill(TakenPool(e, u, x), [], [Old(e, x, next), Cached(e, u)], [], 0))
  {
    hide AllocStep, CanAllocate, Allocate;
    var p, s, hu := BackPool(e, u, x), Waiting(2, u), e.hash(u, NONE);
    var st := Alloc(p, [], 0, NONE, false);
    HitStep(e, st, u, hu, 0);
    var q := AllocStep(e, st, u, false).value.pool;
    var want := TakenPool(e, u, x);
    assert q.blocks == want.blocks && q.free == want.free && q.used == want.used && q.index == want.index;
    assert p.used + {0} == {0, 1};
    assert AllocStep(e, st, u, false).value == Alloc(want, [0], e.blockSize, hu, false);
    AllocOne(e, p, s);
    OneFree(e, p, s);
    var start, last := Prefill(p, [s], [Old(e, x, next)], [], 0),
      Prefill(want, [], [Old(e, x, next), Cached(e, u)], [], 0);
    assert Allocate(e, p, s) == Some((want, Cached(e, u)));
    assert Admit(e, start) == Some(last) by {
      assert [s][1..] == [] && [Old(e, x, next)] + [Cached(e, u)] == last.running;
    }
    assert PrefillLoop(e, cfg, start) == PrefillLoop(e, cfg, last) == Some(last);
  }

  lemma CachedMakesRoom(e: Env, u: seq<Token>, x: seq<Token>, next: Token)
    requires e.blockSize > 1 && |x| == e.blockSize
    ensures MakeRoom(e, TakenPool(e, u, x), [], [Cached(e, u)], Old(e, x, next)) ==
            Room(BackPool(e, u, x), [Waiting(2, u).(admitted := e.blockSize)], [], true)
  {
    hide DropAll;
    var p, q, cur := TakenPool(e, u, x), BackPool(e, u, x), Old(e, x, next);
    ModIs(|cur.tokens|, e.blockSize, 1, 1);
    DropOne(p, 0);
    var d := DropAll(p, [0]);
    assert d.blocks == q.blocks && d.free == q.free && d.used == q.used;
    assert [Cached(e, u)][..0] == [];
    assert !CanAppend(e, p, cur) && CanAppend(e, q, cur);
    assert [Released(Cached(e, u))] + [] == [Waiting(2, u).(admitted := e.blockSize)];
    assert MakeRoom(e, p, [], [Cached(e, u)], cur) == MakeRoom(e, q, [Released(Cached(e, u))] + [], [], cur);
  }

  lemma OldGrows(e: Env, u: seq<Token>, x: seq<Token>, next: Token)
    requires EnvOk(e) && e.blockSize > 1 && |x| == e.blockSize
    ensures MayAppend(e, BackPool(e, u, x), Old(e, x, next)) == Some((GrownPool(e, u, x, next), Grown(e, x, next)))
  {
    var p, cur := BackPool(e, u, x), Old(e, x, next);
    ModIs(|cur.tokens|, e.blockSize, 1, 1);
    assert BlockTokens(e, cur.tokens, 1) == [next];
    assert HeldBefore(p, cur.table) == x && RemoveFirst(p.free, 0) == [];
    var q, want := Compute(AllocateBlock(p, 0), 0, x + [next]), GrownPool(e, u, x, next);
    assert q.blocks == want.blocks && q.free == want.free && q.used == want.used;
    assert cur.table + [0] == [1, 0];
  }

  lemma TrioSchedule(e: Env, cfg: Config, u: seq<Token>, x: seq<Token>, next: Token, cap: Caps)
    requires EnvOk(e) && e.blockSize > 1 && Trio(e, cfg, u, x, cap)
    ensures Schedule(e, cfg, Trio2(e, u, x, next).sched) ==
            Some(Scheduled(Sched(GrownPool(e, u, x, next), [Waiting(2, u).(admitted := e.blockSize)],
                                 [Grown(e, x, next)]), [Grown(e, x, next)], false))
  {
    hide PrefillLoop, MakeRoom, MayAppend;
    CachedIsAdmitted(e, cfg, u, x, next, cap);
    CachedMakesRoom(e, u, x, next);
    OldGrows(e, u, x, next);
    var old', cached := Old(e, x, next), Cached(e, u);
    var turn := Decode(TakenPool(e, u, x), [], [old', cached], []);
    assert [old', cached][1..] == [cached];
    var last := Decode(GrownPool(e, u, x, next), [Waiting(2, u).(admitted := e.blockSize)], [], [Grown(e, x, next)]);
    assert [] + [Grown(e, x, next)] == [Grown(e, x, next)];
    assert DecodeLoop(e, cfg, turn) == DecodeLoop(e, cfg, last) == Some(last);
    assert [Grown(e, x, next)] + [] == [Grown(e, x, next)];
  }

  /** The third turn admits the last request wholly cached and preempts it at once, for the sake of the older
      one, which gets its last token and goes. */
  lemma TrioTurn2(e: Env, cfg: Config, u: seq<Token>, x: seq<Token>, next: Token, tok: nat -> Token, cap: Caps)
    requires EnvOk(e) && e.blockSize > 1 && Trio(e, cfg, u, x, cap)
    ensures var g := Trio2(e, u, x, next);
            && AdmitsCached(e, cfg, g.sched) && Preempts(e, cfg, g.sched)
            && EngineStep(e, cfg, g, tok, cap) == Ok(Trio3(e, u, x, next))
  {
    hide Schedule, Advance, DropAll, PrefillLoop;
    var g, t := Trio2(e, u, x, next), Grown(e, x, next);
    TrioSchedule(e, cfg, u, x, next, cap);
    CachedIsAdmitted(e, cfg, u, x, next, cap);
    assert !PrefillOf(e, cfg, g.sched).value.running[1].pending;
    var r := Schedule(e, cfg, g.sched).value;
    AdvanceOne(r, t, tok, cap);
    DropTwo(r.sched.pool, 1, 0);
    var p, want := DropAll(r.sched.pool, [1, 0]), Trio3(e, u, x, next).sched.pool;
    assert p.blocks == want.blocks && p.free == want.free && p.used == want.used;
    assert IdSet([t]) == {1} && g.embedded + {1} == {0, 1};
  }

  /** A run that completes although one of its requests was wholly cached when it was admitted, and was
      preempted. */
  lemma ServedAfterAll(e: Env, cfg: Config, u: seq<Token>, x: seq<Token>, tok: (nat, nat) -> Token, cap: Caps)
    requires EnvOk(e) && e.blockSize > 1 && Trio(e, cfg, u, x, cap)
    ensures var g := Trio0(u, x);
            && Sane(e, cfg, g, cap) && Clean(g)
            && !NothingCached(e, cfg, g, tok, cap, 4) && !NoPreemption(e, cfg, g, tok, cap, 4)
            && DriveFor(e, cfg, g, tok, cap, 4).Ok? && !Busy(DriveFor(e, cfg, g, tok, cap, 4).value.sched)
  {
    hide EngineStep, Sane, Clean, AdmitsCached, Preempts;
    TrioIsSane(e, cfg, u, x, cap);
    var g, next := Trio0(u, x), tok(1, 1);
    TrioTurn0(e, cfg, u, x, TokensAt(tok, 0), cap);
    TrioTurn1(e, cfg, u, x, TokensAt(tok, 1), cap);
    TrioTurn2(e, cfg, u, x, next, TokensAt(tok, 2), cap);
    TrioTurn3(e, cfg, u, x, next, TokensAt(tok, 3), cap);
    assert DriveFor(e, cfg, g, tok, cap, 0) == Ok(g);
    assert DriveFor(e, cfg, g, tok, cap, 1) == Ok(Trio1(e, u, x));
    assert DriveFor(e, cfg, g, tok, cap, 2) == Ok(Trio2(e, u, x, next));
    assert DriveFor(e, cfg, g, tok, cap, 3) == Ok(Trio3(e, u, x, next));
  }

  lemma TrioIsSane(e: Env, cfg: Config, u: seq<Token>, x: seq<Token>, cap: Caps)
    requires EnvOk(e) && e.blockSize > 1 && Trio(e, cfg, u, x, cap)
    ensures Sane(e, cfg, Trio0(u, x), cap) && Clean(Trio0(u, x))
  {
    hide Sane;
    var ss := [Waiting(0, u), Waiting(1, x), Waiting(2, u)];
    assert Ids(ss) == [0, 1, 2];
    QuotientIs(e.blockSize + 1 + e.blockSize - 1, e.blockSize, 2);
    QuotientIs(e.blockSize + 2 + e.blockSize - 1, e.blockSize, 2);
    NewEngineSane(e, cfg, 2, ss, cap);
  }

  /** The last turn: the block the waiting request was once cached in is another's, so it is prefilled and
      served. */
  lemma TrioTurn3(e: Env, cfg: Config, u: seq<Token>, x: seq<Token>, next: Token, tok: nat -> Token, cap: Caps)
    requires EnvOk(e) && e.blockSize > 1 && Trio(e, cfg, u, x, cap)
    ensures var r := EngineStep(e, cfg, Trio3(e, u, x, next), tok, cap); r.Ok? && !Busy(r.value.sched)
  {
    hide EngineStep;
    var g := Trio3(e, u, x, next);
    var s := g.sched.waiting[0];
    assert g.sched.waiting == [s] + [];
    var last := ServedAtOnce(e, cfg, g, s, [], 0, tok, cap);
  }
}
