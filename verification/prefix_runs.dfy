/** Prefix-cache soundness over whole runs of cached and uncached requests: as long as no lookup resolves to a
    block registered under another hash, nor asks for a block that ends with a token the engine made, every
    block of every running sequence holds exactly that sequence's own history.
 */
module PrefixRuns {
  import opened BlockAccounting
  import opened BlockPool
  import opened Outcomes
  import opened PrefixCache
  import opened ScheduleFaults
  import opened ScheduleRuns
  import opened ScheduleSteps
  import opened Scheduling

  /** Tokens of a running sequence whose keys and values are in its blocks once its batch has run. */
  function Done(s: SeqState): nat {
    if s.pending then |s.tokens| else Computed(s)
  }

  /** What an uncached request takes its decode turn with is a token the engine made. */
  predicate LastMade(made: Made, s: SeqState) {
    s.noCache && !s.pending ==> EndsMade(made, s.tokens)
  }

  ghost predicate SoundAll(e: Env, made: Made, p: Pool, ss: seq<SeqState>) {
    forall i :: 0 <= i < |ss| ==> SoundSeq(e, p, ss[i], Done(ss[i])) && LastMade(made, ss[i])
  }

  lemma SoundSeqStays(e: Env, p: Pool, q: Pool, refs: multiset<nat>, s: SeqState, c: nat)
    requires SoundSeq(e, p, s, c) && Untouched(p, q, refs) && SameHash(p, q, refs) && multiset(s.table) <= refs
    ensures SoundSeq(e, q, s, c)
  {
    hide Sound, ChainHash;
    SoundElsewhere(e, p, q, refs, s.tokens[..c], s.table);
    InRangeOf(e, p, s.tokens[..c], s.table);
    forall j | 0 <= j < |s.table|
      ensures q.blocks[s.table[j]].hash == p.blocks[s.table[j]].hash
    {
      assert s.table[j] in multiset(s.table);
    }
  }

  lemma InRangeOf(e: Env, p: Pool, history: seq<Token>, table: seq<nat>)
    requires Sound(e, p, history, table)
    ensures forall j :: 0 <= j < |table| ==> table[j] < |p.blocks|
  {
  }

  lemma SoundStays(e: Env, made: Made, p: Pool, q: Pool, refs: multiset<nat>, ss: seq<SeqState>)
    requires SoundAll(e, made, p, ss) && Untouched(p, q, refs) && SameHash(p, q, refs) && Refs(ss) <= refs
    ensures SoundAll(e, made, q, ss)
  {
    hide SoundSeq, Untouched, SameHash, Refs, LastMade;
    forall i | 0 <= i < |ss|
      ensures SoundSeq(e, q, ss[i], Done(ss[i]))
    {
      RefsContain(ss, i);
      SoundSeqStays(e, p, q, refs, ss[i], Done(ss[i]));
    }
  }

  lemma SoundSub(e: Env, made: Made, p: Pool, a: seq<SeqState>, b: seq<SeqState>)
    requires SoundAll(e, made, p, b) && forall s :: s in a ==> s in b
    ensures SoundAll(e, made, p, a)
  {
    hide SoundSeq, LastMade;
    forall i | 0 <= i < |a| ensures SoundSeq(e, p, a[i], Done(a[i])) && LastMade(made, a[i]) {
      assert a[i] in b;
    }
  }

  // ---------------------------------------------------------------- prefill

  /** A cached request finds what it looks up, and looks up only blocks that end as prompts do. */
  predicate TrustedAdmission(e: Env, made: Made, p: Pool, s: SeqState)
    requires e.blockSize > 0
  {
    s.noCache || (Trusted(e, p, s) && Unmade(e, made, s.tokens))
  }

  /** So does every admission of a prefill pass. */
  predicate PrefillTrusted(e: Env, made: Made, cfg: Config, st: Prefill)
    requires e.blockSize > 0
    decreases |st.waiting|
  {
    Admissible(e, cfg, st) ==>
      && TrustedAdmission(e, made, st.pool, st.waiting[0])
      && (Admit(e, st).Some? ==> PrefillTrusted(e, made, cfg, Admit(e, st).value))
  }

  ghost predicate PrefillSound(e: Env, made: Made, st: Prefill)
    requires e.blockSize > 1
  {
    Good(e, st.pool, st.waiting, st.running) && Honest(e, made, st.pool) && SoundAll(e, made, st.pool, st.running)
  }

  /** The table of an admission that may be trusted is right, cached or not. */
  lemma AllocateTrusted(e: Env, made: Made, p: Pool, refs: multiset<nat>, s: SeqState) returns (q: Pool, t: SeqState)
    requires EnvOk(e) && Injective(e) && e.blockSize > 1 && Accounted(p, refs) && Honest(e, made, p)
    requires CanAllocate(e, p, s) && s.tokens != [] && s.cached == 0 && TrustedAdmission(e, made, p, s)
    ensures Allocate(e, p, s) == Some((q, t)) && AllocatedFor(e, p, refs, s, q, t)
    ensures Sound(e, q, s.tokens, t.table) && Honest(e, made, q) && SameHash(p, q, refs)
    ensures !s.noCache ==> Linked(e, q, s.tokens, t.table)
    ensures s.noCache ==> t.cached == 0
  {
    hide Accounted, Honest, CanAllocate, AllocatedFor, Sound, Linked, SameHash, Allocate, Trusted, Unmade, Injective;
    if s.noCache {
      q, t := AllocateUncached(e, made, p, refs, s);
      UncachedHitsNothing(e, p, s);
    } else {
      q, t := AllocateSound(e, made, p, refs, s);
    }
  }

  lemma AdmitSound(e: Env, made: Made, st: Prefill)
    requires EnvOk(e) && Injective(e) && e.blockSize > 1 && PrefillSound(e, made, st)
    requires st.waiting != [] && CanAllocate(e, st.pool, st.waiting[0])
    requires TrustedAdmission(e, made, st.pool, st.waiting[0])
    ensures Admit(e, st).Some? && PrefillSound(e, made, Admit(e, st).value)
  {
    hide *;
    var s, p := st.waiting[0], st.pool;
    PrefillSoundIs(e, made, st);
    var t' := AdmitGood(e, st);
    var q, t := AllocateTrusted(e, made, p, Refs(st.running), s);
    AdmitIs(e, st, q, t);
    AllocatedForKeeps(e, p, Refs(st.running), s, q, t);
    SoundStays(e, made, p, q, Refs(st.running), st.running);
    AdmittedIsSound(e, made, p, Refs(st.running), s, q, t);
    PrefillSoundNext(e, made, st, q, t);
  }

  lemma PrefillSoundIs(e: Env, made: Made, st: Prefill)
    requires e.blockSize > 1 && PrefillSound(e, made, st)
    ensures Good(e, st.pool, st.waiting, st.running) && Honest(e, made, st.pool)
    ensures SoundAll(e, made, st.pool, st.running) && Accounted(st.pool, Refs(st.running))
    ensures st.waiting != [] ==> st.waiting[0].tokens != [] && st.waiting[0].cached == 0
  {
    hide Accounted, Honest, SoundAll, LiveAll, Refs;
  }

  lemma AdmitIs(e: Env, st: Prefill, q: Pool, t: SeqState)
    requires e.blockSize > 0 && st.waiting != [] && Allocate(e, st.pool, st.waiting[0]) == Some((q, t))
    ensures Admit(e, st).Some? && var next := Admit(e, st).value;
            next.pool == q && next.waiting == st.waiting[1..] && next.running == st.running + [t]
  {
    hide Allocate;
  }

  lemma AllocatedForKeeps(e: Env, p: Pool, refs: multiset<nat>, s: SeqState, q: Pool, t: SeqState)
    requires e.blockSize > 1 && AllocatedFor(e, p, refs, s, q, t)
    ensures Kept(p, q, refs) && Untouched(p, q, refs)
  {
  }

  lemma PrefillSoundNext(e: Env, made: Made, st: Prefill, q: Pool, t: SeqState)
    requires e.blockSize > 1 && st.waiting != [] && Honest(e, made, q) && SoundAll(e, made, q, st.running)
    requires SoundSeq(e, q, t, Done(t)) && LastMade(made, t) && Good(e, q, st.waiting[1..], st.running + [t])
    ensures forall next: Prefill :: next.pool == q && next.waiting == st.waiting[1..]
                                    && next.running == st.running + [t] ==>
              PrefillSound(e, made, next)
  {
    hide Good, Honest, SoundSeq, Done, LastMade;
  }

  lemma AdmittedIsSound(e: Env, made: Made, p: Pool, refs: multiset<nat>, s: SeqState, q: Pool, t: SeqState)
    requires e.blockSize > 1 && AllocatedFor(e, p, refs, s, q, t) && Sound(e, q, s.tokens, t.table) && s.tokens != []
    requires (!s.noCache ==> Linked(e, q, s.tokens, t.table)) && (s.noCache ==> t.cached == 0)
    ensures SoundSeq(e, q, t, Done(t)) && LastMade(made, t)
  {
    hide Accounted, Kept, Untouched, Sound, Live, NumBlocks, Linked;
    assert t.tokens[..|t.tokens|] == s.tokens;
  }

  lemma {:induction false} PrefillStaysSound(e: Env, made: Made, cfg: Config, st: Prefill)
    requires EnvOk(e) && Injective(e) && e.blockSize > 1 && PrefillSound(e, made, st)
    requires PrefillTrusted(e, made, cfg, st)
    ensures PrefillLoop(e, cfg, st).Some? && PrefillSound(e, made, PrefillLoop(e, cfg, st).value)
    decreases |st.waiting|
  {
    hide PrefillSound, Admit, Injective, EnvOk, TrustedAdmission;
    if Admissible(e, cfg, st) {
      AdmitSound(e, made, st);
      var t := AdmitMoves(e, st);
      PrefillStaysSound(e, made, cfg, Admit(e, st).value);
    }
  }

  // ---------------------------------------------------------------- decode

  lemma {:induction false} RoomSound(e: Env, made: Made, p: Pool, refs: multiset<nat>, waiting: seq<SeqState>,
                                     running: seq<SeqState>, cur: SeqState)
    requires e.blockSize > 1 && Accounted(p, refs + multiset(cur.table) + Refs(running)) && Honest(e, made, p)
    ensures var r := MakeRoom(e, p, waiting, running, cur);
            var left := if r.ok then refs + multiset(cur.table) + Refs(r.running) else refs;
            && Honest(e, made, r.pool) && Untouched(p, r.pool, left) && r.running <= running
            && Kept(p, r.pool, left) && SameHash(p, r.pool, left)
    decreases |running|
  {
    hide Accounted, Honest, Kept, Untouched, SameHash, Refs, DropAll, CanAppend;
    var front := refs + multiset(cur.table);
    if CanAppend(e, p, cur) {
      SameIsKept(p, front + Refs(running));
      SameHashSame(p, front + Refs(running));
    } else if running != [] {
      var last, rest := running[|running| - 1], running[..|running| - 1];
      assert running == rest + [last];
      RefsSnoc(rest, last);
      assert front + Refs(running) == front + Refs(rest) + multiset(last.table);
      DropAllAccounted(p, front + Refs(rest), last.table);
      DropAllHonest(e, made, p, front + Refs(rest), last.table);
      var q := DropAll(p, last.table);
      RoomSound(e, made, q, refs, [Released(last)] + waiting, rest, cur);
      var r := MakeRoom(e, q, [Released(last)] + waiting, rest, cur);
      RefsPrefix(r.running, rest);
      KeptAcross(p, q, r.pool, front + Refs(rest), if r.ok then front + Refs(r.running) else refs);
    } else {
      RefsNone();
      assert front + Refs(running) == refs + multiset(cur.table);
      DropAllAccounted(p, refs, cur.table);
      DropAllHonest(e, made, p, refs, cur.table);
    }
  }

  lemma SameIsKept(p: Pool, refs: multiset<nat>)
    ensures Kept(p, p, refs) && Untouched(p, p, refs)
  {
  }

  lemma KeptAcross(p: Pool, q: Pool, r: Pool, more: multiset<nat>, refs: multiset<nat>)
    requires Kept(p, q, more) && Untouched(p, q, more) && SameHash(p, q, more) && refs <= more
    requires Kept(q, r, refs) && Untouched(q, r, refs) && SameHash(q, r, refs)
    ensures Kept(p, r, refs) && Untouched(p, r, refs) && SameHash(p, r, refs)
  {
  }

  /** A decode step touches no block of another sequence. */
  lemma MayAppendTouchesOwn(e: Env, p: Pool, refs: multiset<nat>, s: SeqState)
    requires EnvOk(e) && e.blockSize > 1 && Accounted(p, refs + multiset(s.table)) && Live(e, p, s, |s.tokens|)
    requires CanAppend(e, p, s) && !Faulty(e, s) && SoundSeq(e, p, s, Computed(s))
    ensures MayAppend(e, p, s).Some? && Untouched(p, MayAppend(e, p, s).value.0, refs)
    ensures Kept(p, MayAppend(e, p, s).value.0, refs)
  {
    hide Accounted, Live, MayAppend, CanAppend, Appended, Kept, Untouched, SoundSeq;
    MayAppendAccounted(e, p, refs, s);
    AdmittedWithin(e, p, s);
    if |s.tokens| > s.admitted {
      var q, t := MayAppend(e, p, s).value.0, MayAppend(e, p, s).value.1;
      AppendedKeeps(e, p, refs, s, q, t);
      UntouchedLess(p, q, refs, multiset(t.table[..|t.table| - 1]));
    } else {
      CachedStepIsNothing(e, p, s);
      SameIsKept(p, refs);
    }
  }

  lemma AdmittedWithin(e: Env, p: Pool, s: SeqState)
    requires e.blockSize > 1 && Live(e, p, s, |s.tokens|)
    ensures s.admitted <= |s.tokens|
  {
  }

  lemma AppendedKeeps(e: Env, p: Pool, refs: multiset<nat>, s: SeqState, q: Pool, t: SeqState)
    requires e.blockSize > 1 && Appended(e, p, refs, s, q, t)
    ensures t.table != [] && Kept(p, q, refs)
    ensures |s.tokens| > s.admitted ==> Untouched(p, q, refs + multiset(t.table[..|t.table| - 1]))
  {
    hide Accounted, Live, Kept, Untouched;
  }

  lemma UntouchedLess(p: Pool, q: Pool, refs: multiset<nat>, more: multiset<nat>)
    requires Untouched(p, q, refs + more)
    ensures Untouched(p, q, refs)
  {
  }

  /** The first decode step of a fully cached prompt recomputes what is there. */
  lemma CachedStepIsNothing(e: Env, p: Pool, s: SeqState)
    requires e.blockSize > 1 && Live(e, p, s, |s.tokens|) && |s.tokens| == s.admitted && SoundSeq(e, p, s, |s.tokens|)
    ensures MayAppend(e, p, s) == Some((p, s.(pending := true)))
  {
    hide Sound, WriteLast;
    var n := |s.tokens|;
    NumBlocksNext(n - 1, e.blockSize);
    NextMod(n - 1, e.blockSize);
    LastBlockSpan(n, e.blockSize, |s.table|);
    assert s.tokens[..n] == s.tokens;
    RewriteIsNothing(e, p, s);
  }

  ghost predicate DecodeSound(e: Env, made: Made, st: Decode)
    requires e.blockSize > 1
  {
    && DecodeOk(e, st) && Honest(e, made, st.pool)
    && SoundAll(e, made, st.pool, st.batch) && SoundAll(e, made, st.pool, st.running)
    && forall i :: 0 <= i < |st.running| ==> !st.running[i].pending
  }

  lemma AppendSound(e: Env, made: Made, st: Decode, p: Pool, waiting: seq<SeqState>, left: seq<SeqState>)
    requires EnvOk(e) && e.blockSize > 1 && DecodeSound(e, made, st) && st.running != []
    requires Accounted(p, Refs(st.batch) + multiset(st.running[0].table) + Refs(left)) && left <= st.running[1..]
    requires LiveAll(e, p, left) && IdleAll(waiting) && Honest(e, made, p)
    requires var all := Refs(st.batch) + multiset(st.running[0].table) + Refs(left);
             Kept(st.pool, p, all) && Untouched(st.pool, p, all) && SameHash(st.pool, p, all)
    requires CanAppend(e, p, st.running[0]) && !Faulty(e, st.running[0])
    ensures MayAppend(e, p, st.running[0]).Some?
    ensures var r := MayAppend(e, p, st.running[0]).value;
            DecodeOk(e, Decode(r.0, waiting, left, st.batch + [r.1])) ==>
              DecodeSound(e, made, Decode(r.0, waiting, left, st.batch + [r.1]))
  {
    hide Accounted, Honest, Kept, Untouched, SameHash, Refs, Live, CanAppend, MayAppend, SoundSeq, DecodeOk, EnvOk,
         IdleAll, Faulty;
    var cur, rest, others := st.running[0], st.running[1..], Refs(st.batch) + Refs(left);
    var all := Refs(st.batch) + multiset(cur.table) + Refs(left);
    assert all == others + multiset(cur.table);
    SoundSub(e, made, st.pool, left, st.running);
    SoundStays(e, made, st.pool, p, all, st.batch);
    SoundStays(e, made, st.pool, p, all, left);
    SoundSeqStays(e, st.pool, p, all, cur, Done(cur));
    LiveHead(e, st, p, all);
    MayAppendSound(e, made, p, others, cur);
    MayAppendTouchesOwn(e, p, others, cur);
    AppendKeepsFields(e, p, cur);
    var q, t := MayAppend(e, p, cur).value.0, MayAppend(e, p, cur).value.1;
    SoundStays(e, made, p, q, others, st.batch);
    SoundStays(e, made, p, q, others, left);
  }

  lemma LiveHead(e: Env, st: Decode, p: Pool, all: multiset<nat>)
    requires e.blockSize > 1 && DecodeOk(e, st) && st.running != [] && !st.running[0].pending
    requires Kept(st.pool, p, all) && multiset(st.running[0].table) <= all
    ensures Live(e, p, st.running[0], |st.running[0].tokens|)
  {
    hide Accounted, Refs, Live, Kept;
    LiveFront(e, st.pool, st.running);
    LiveOneStays(e, st.pool, p, all, st.running[0], |st.running[0].tokens|);
  }

  lemma AppendKeepsFields(e: Env, p: Pool, s: SeqState)
    requires e.blockSize > 0 && MayAppend(e, p, s).Some?
    ensures MayAppend(e, p, s).value.1 == s.(table := MayAppend(e, p, s).value.1.table, pending := true)
  {
  }

  /** One turn of a decode pass: the room made for the oldest, and its step. */
  lemma TurnSound(e: Env, made: Made, st: Decode)
    requires EnvOk(e) && e.blockSize > 1 && DecodeSound(e, made, st) && st.running != []
    ensures var cur := st.running[0];
            var room := MakeRoom(e, st.pool, st.waiting, st.running[1..], cur);
            && room.running <= st.running[1..] && Honest(e, made, room.pool)
            && (!room.ok ==> room.running == [] && SoundAll(e, made, room.pool, st.batch))
            && (room.ok ==> Accounted(room.pool, Refs(st.batch) + Refs(room.running) + multiset(cur.table))
                            && CanAppend(e, room.pool, cur) && Live(e, room.pool, cur, |cur.tokens|)
                            && SoundSeq(e, room.pool, cur, Computed(cur))
                            && (cur.noCache ==> EndsMade(made, cur.tokens))
                            && (AfterTurn(e, room, cur, st.batch).None? <==> Faulty(e, cur)))
            && (room.ok && !Faulty(e, cur) ==> DecodeSound(e, made, AfterTurn(e, room, cur, st.batch).value))
  {
    hide Accounted, Refs, Live, Kept, CanAppend, IdleAll, Faulty, MayAppend, OwnLasts, MakeRoom, Honest, Untouched,
      LiveAll, SoundSeq, SameHash;
    var cur, rest := st.running[0], st.running[1..];
    assert st.running == [cur] + rest;
    LiveFront(e, st.pool, st.running);
    RefsCons(cur, rest);
    assert Refs(st.batch) + Refs(st.running) == Refs(st.batch) + multiset(cur.table) + Refs(rest);
    LiveHaveTokens(e, st.pool, st.running);
    RoomGood(e, st.pool, Refs(st.batch), st.waiting, rest, cur);
    RoomSound(e, made, st.pool, Refs(st.batch), st.waiting, rest, cur);
    var room := MakeRoom(e, st.pool, st.waiting, rest, cur);
    if room.ok {
      var all := Refs(st.batch) + multiset(cur.table) + Refs(room.running);
      assert all == Refs(st.batch) + Refs(room.running) + multiset(cur.table);
      KeptLess(st.pool, room.pool, Refs(st.batch) + multiset(cur.table), Refs(room.running));
      AppendGood(e, st, room.pool, room.waiting, room.running);
      if !Faulty(e, cur) {
        AppendSound(e, made, st, room.pool, room.waiting, room.running);
      }
      SoundSeqStays(e, st.pool, room.pool, all, cur, Done(cur));
      LiveHead(e, st, room.pool, all);
    } else {
      SoundStays(e, made, st.pool, room.pool, Refs(st.batch), st.batch);
    }
  }

  lemma {:induction false} DecodeStaysSound(e: Env, made: Made, cfg: Config, st: Decode)
    requires EnvOk(e) && e.blockSize > 1 && DecodeSound(e, made, st)
    ensures DecodeLoop(e, cfg, st).Some? ==>
              var r := DecodeLoop(e, cfg, st).value;
              && Honest(e, made, r.pool)
              && SoundAll(e, made, r.pool, r.batch) && SoundAll(e, made, r.pool, r.running)
    decreases |st.running|
  {
    hide MayAppend, MakeRoom, Honest, SoundAll, EnvOk, SoundSeq, DecodeOk, CanAppend, Live, Accounted, Faulty;
    if st.running != [] && |st.batch| < cfg.maxSeqs {
      TurnSound(e, made, st);
      var room := MakeRoom(e, st.pool, st.waiting, st.running[1..], st.running[0]);
      if room.ok {
        if !Faulty(e, st.running[0]) {
          DecodeStaysSound(e, made, cfg, AfterTurn(e, room, st.running[0], st.batch).value);
        }
      } else {
        SoundNobody(e, made, room.pool);
      }
    }
  }

  lemma SoundNobody(e: Env, made: Made, p: Pool)
    ensures SoundAll(e, made, p, [])
  {
  }

  // ---------------------------------------------------------------- whole runs

  lemma SoundJoin(e: Env, made: Made, p: Pool, a: seq<SeqState>, b: seq<SeqState>)
    requires SoundAll(e, made, p, a) && SoundAll(e, made, p, b)
    ensures SoundAll(e, made, p, a + b)
  {
    hide SoundSeq, LastMade;
  }

  /** One call of `schedule` keeps every table right, if its admissions may be trusted. */
  lemma ScheduleSound(e: Env, made: Made, cfg: Config, st: Sched)
    requires EnvOk(e) && Injective(e) && e.blockSize > 1 && SchedOk(e, st)
    requires Honest(e, made, st.pool) && SoundAll(e, made, st.pool, st.running)
    requires PrefillTrusted(e, made, cfg, Prefill(st.pool, st.waiting, st.running, [], 0))
    ensures Schedule(e, cfg, st).Some? ==>
              var r := Schedule(e, cfg, st).value;
              Honest(e, made, r.sched.pool) && SoundAll(e, made, r.sched.pool, r.sched.running)
  {
    hide PrefillLoop, DecodeLoop, PrefillOk, Good, Honest, SoundAll, Refs, Injective, EnvOk, PrefillTrusted;
    var start := Prefill(st.pool, st.waiting, st.running, [], 0);
    StartOk(e, st);
    PrefillStaysOk(e, cfg, Refs(st.running), start);
    PrefillStaysSound(e, made, cfg, start);
    var pre := PrefillLoop(e, cfg, start).value;
    if pre.batch == [] {
      TurnToDecode(e, Refs(st.running), pre);
      SoundNobody(e, made, pre.pool);
      var turn := Decode(pre.pool, pre.waiting, pre.running, []);
      NotPending(e, turn);
      DecodeStaysSound(e, made, cfg, turn);
      if DecodeLoop(e, cfg, turn).Some? {
        var dec := DecodeLoop(e, cfg, turn).value;
        SoundJoin(e, made, dec.pool, dec.batch, dec.running);
      }
    }
  }

  lemma NotPending(e: Env, st: Decode)
    requires e.blockSize > 1 && Settled(st.running)
    ensures forall i :: 0 <= i < |st.running| ==> !st.running[i].pending
  {
  }

  /** Appending the token that was computed, one that the engine made if the request is uncached. */
  lemma TokensSound(e: Env, made: Made, p: Pool, running: seq<SeqState>, tok: nat -> Token)
    requires e.blockSize > 1 && SoundAll(e, made, p, running) && LiveAll(e, p, running)
    requires forall s :: s in running && s.noCache ==> made(tok(s.id))
    ensures SoundAll(e, made, p, AllWithToken(running, tok))
  {
    hide Sound, Linked;
    var r := AllWithToken(running, tok);
    forall i | 0 <= i < |r|
      ensures SoundSeq(e, p, r[i], Done(r[i])) && LastMade(made, r[i])
    {
      assert SoundSeq(e, p, running[i], Done(running[i])) && Live(e, p, running[i], Due(running[i]));
      if running[i].pending {
        assert r[i].tokens[..|running[i].tokens|] == running[i].tokens == running[i].tokens[..|running[i].tokens|];
      }
    }
  }

  lemma {:induction false} LeaveAllSound(e: Env, made: Made, st: Sched, ids: seq<nat>)
    requires e.blockSize > 1 && SchedOk(e, st) && Honest(e, made, st.pool) && SoundAll(e, made, st.pool, st.running)
    ensures var next := LeaveAll(st, ids); Honest(e, made, next.pool) && SoundAll(e, made, next.pool, next.running)
    decreases |ids|
  {
    hide SchedOk, Leave, Honest, SoundAll;
    if ids != [] {
      LeaveSound(e, made, st, ids[0]);
      LeaveOk(e, st, ids[0]);
      LeaveAllSound(e, made, Leave(st, ids[0]), ids[1..]);
    }
  }

  lemma LeaveSound(e: Env, made: Made, st: Sched, id: nat)
    requires e.blockSize > 1 && SchedOk(e, st) && Honest(e, made, st.pool) && SoundAll(e, made, st.pool, st.running)
    ensures Honest(e, made, Leave(st, id).pool) && SoundAll(e, made, Leave(st, id).pool, Leave(st, id).running)
  {
    hide Accounted, Refs, LiveAll, DropAll, Kept, Untouched, SameHash, IdleAll, Honest, SoundAll;
    var found, left := Find(st.running, id), Without(st.running, id);
    WithoutIn(st.running, id);
    if found.Some? {
      WithoutRefs(st.running, id);
      DropAllAccounted(st.pool, Refs(left), found.value.table);
      DropAllHonest(e, made, st.pool, Refs(left), found.value.table);
      SoundSub(e, made, st.pool, left, st.running);
      SoundStays(e, made, st.pool, DropAll(st.pool, found.value.table), Refs(left), left);
    }
  }

  ghost predicate WorldSound(e: Env, made: Made, w: World)
    requires e.blockSize > 1
  {
    WorldOk(e, w) && Honest(e, made, w.sched.pool) && SoundAll(e, made, w.sched.pool, w.sched.running)
  }

  /** A step appends tokens the engine made, to uncached requests at least, and its admissions may be trusted. */
  predicate StepTrusted(e: Env, made: Made, cfg: Config, st: Sched, tok: nat -> Token)
    requires e.blockSize > 0
  {
    && PrefillTrusted(e, made, cfg, Prefill(st.pool, st.waiting, st.running, [], 0))
    && (forall s :: s in st.running && s.noCache ==> made(tok(s.id)))
    && (forall s :: s in st.waiting && s.noCache ==> made(tok(s.id)))
  }

  /** No lookup of the run resolves to a block registered under another hash, or is of a block that ends with a
      token the engine makes. */
  predicate RunTrusted(e: Env, made: Made, cfg: Config, w: World, evs: seq<Event>)
    requires e.blockSize > 0
    decreases |evs|
  {
    evs == [] || (
      && (evs[0].Step? ==> StepTrusted(e, made, cfg, w.sched, evs[0].tok))
      && (Happen(e, cfg, w, evs[0]).Some? ==> RunTrusted(e, made, cfg, Happen(e, cfg, w, evs[0]).value, evs[1..])))
  }

  /** Scheduling changes nobody's id, and nobody's use of the cache. */
  lemma UncachedSame(e: Env, cfg: Config, st: Sched, made: Made, tok: nat -> Token)
    requires e.blockSize > 0 && Schedule(e, cfg, st).Some?
    requires forall s :: s in st.running && s.noCache ==> made(tok(s.id))
    requires forall s :: s in st.waiting && s.noCache ==> made(tok(s.id))
    ensures forall s :: s in Schedule(e, cfg, st).value.sched.running && s.noCache ==> made(tok(s.id))
  {
    hide Schedule;
    var moved := ScheduleIsFcfs(e, cfg, st);
    var r := Schedule(e, cfg, st).value.sched;
    var before, after := Requests(st.running) + Requests(st.waiting), Requests(r.running) + Requests(r.waiting);
    forall s | s in r.running && s.noCache
      ensures made(tok(s.id))
    {
      var i :| 0 <= i < |r.running| && r.running[i] == s;
      assert Who(s) == Requests(r.running)[i] == after[i] == before[i];
      if i < |st.running| {
        assert before[i] == Who(st.running[i]) && st.running[i] in st.running;
      } else {
        assert before[i] == Who(st.waiting[i - |st.running|]) && st.waiting[i - |st.running|] in st.waiting;
      }
    }
  }

  lemma HappenSound(e: Env, made: Made, cfg: Config, w: World, ev: Event)
    requires EnvOk(e) && Injective(e) && e.blockSize > 1 && WorldSound(e, made, w)
    requires ev.Step? ==> StepTrusted(e, made, cfg, w.sched, ev.tok)
    ensures Happen(e, cfg, w, ev).Some? ==>
              var next := Happen(e, cfg, w, ev).value.sched;
              Honest(e, made, next.pool) && SoundAll(e, made, next.pool, next.running)
  {
    hide SchedOk, Schedule, LeaveAll, Honest, SoundAll, Leave, Stopping, SetOf, Keep, NoDup, Order, PrefillTrusted,
         Injective, EnvOk;
    match ev {
      case Arrive(id, prompt, noCache) =>
      case Cancel(id) => LeaveSound(e, made, w.sched, id);
      case Step(tok, stops) =>
        ScheduleGood(e, cfg, w.sched);
        ScheduleSound(e, made, cfg, w.sched);
        if Schedule(e, cfg, w.sched).Some? {
          var r := Schedule(e, cfg, w.sched).value;
          GoodIsLive(e, w.sched, r);
          UncachedSame(e, cfg, w.sched, made, tok);
          TokensSound(e, made, r.sched.pool, r.sched.running, tok);
          TokensGood(e, r.sched.pool, r.sched.waiting, r.sched.running, tok);
          LeaveAllSound(e, made, r.sched.(running := AllWithToken(r.sched.running, tok)), Stopping(r.batch, stops));
        }
    }
  }

  lemma GoodIsLive(e: Env, st: Sched, r: Scheduled)
    requires e.blockSize > 1 && BatchOk(e, st, r)
    ensures LiveAll(e, r.sched.pool, r.sched.running) && Good(e, r.sched.pool, r.sched.waiting, r.sched.running)
  {
  }

  /** One event of a trusted run. */
  lemma OneEventSound(e: Env, made: Made, cfg: Config, w: World, evs: seq<Event>)
    requires EnvOk(e) && Injective(e) && e.blockSize > 1 && WorldSound(e, made, w) && evs != []
    requires Proper(w.arrived, evs) && RunTrusted(e, made, cfg, w, evs)
    ensures Happen(e, cfg, w, evs[0]).Some? ==>
              var next := Happen(e, cfg, w, evs[0]).value;
              && WorldSound(e, made, next) && Proper(next.arrived, evs[1..])
              && RunTrusted(e, made, cfg, next, evs[1..])
  {
    hide WorldOk, SchedOk, Honest, SoundAll, StepTrusted, Happen, FaultyStep, Injective, EnvOk;
    OneEvent(e, cfg, w, evs);
    HappenSound(e, made, cfg, w, evs[0]);
  }

  /** Prefix-cache soundness in every run of cached and uncached requests: if the hash chain is injective and
      the lookups may be trusted, then at every moment each block of each running sequence holds what was
      computed from exactly that sequence's own tokens. */
  lemma {:induction false} RunSound(e: Env, made: Made, cfg: Config, w: World, evs: seq<Event>)
    requires EnvOk(e) && Injective(e) && e.blockSize > 1 && WorldSound(e, made, w)
    requires Proper(w.arrived, evs) && RunTrusted(e, made, cfg, w, evs)
    ensures Run(e, cfg, w, evs).Some? ==> WorldSound(e, made, Run(e, cfg, w, evs).value)
    decreases |evs|
  {
    hide WorldSound, RunTrusted, Happen, Injective, EnvOk;
    if evs != [] {
      OneEventSound(e, made, cfg, w, evs);
      if Happen(e, cfg, w, evs[0]).Some? {
        RunSound(e, made, cfg, Happen(e, cfg, w, evs[0]).value, evs[1..]);
      }
    }
  }

  /** Every lookup of a prefill pass that hits finds the hash it looked for. */
  predicate PrefillFinds(e: Env, cfg: Config, st: Prefill)
    requires e.blockSize > 0
    decreases |st.waiting|
  {
    Admissible(e, cfg, st) ==>
      && (st.waiting[0].noCache || Trusted(e, st.pool, st.waiting[0]))
      && (Admit(e, st).Some? ==> PrefillFinds(e, cfg, Admit(e, st).value))
  }

  /** The engine's own runs: those who wait have only prompt ids, what is appended is made by the engine, and every
      lookup that hits finds the hash it looked for. */
  ghost predicate EngineRun(e: Env, made: Made, cfg: Config, w: World, evs: seq<Event>)
    requires e.blockSize > 0
    decreases |evs|
  {
    evs == [] || (
      && (evs[0].Step? ==>
            && PrefillFinds(e, cfg, Prefill(w.sched.pool, w.sched.waiting, w.sched.running, [], 0))
            && (forall s, t :: s in w.sched.waiting && t in s.tokens ==> !made(t))
            && (forall id :: made(evs[0].tok(id))))
      && (Happen(e, cfg, w, evs[0]).Some? ==> EngineRun(e, made, cfg, Happen(e, cfg, w, evs[0]).value, evs[1..])))
  }

  lemma {:induction false} PromptsTrusted(e: Env, made: Made, cfg: Config, st: Prefill)
    requires e.blockSize > 0 && PrefillFinds(e, cfg, st)
    requires forall s, t :: s in st.waiting && t in s.tokens ==> !made(t)
    ensures PrefillTrusted(e, made, cfg, st)
    decreases |st.waiting|
  {
    hide Admit, Trusted;
    if Admissible(e, cfg, st) {
      assert st.waiting[0] in st.waiting;
      if Admit(e, st).Some? {
        var t := AdmitMoves(e, st);
        PromptsTrusted(e, made, cfg, Admit(e, st).value);
      }
    }
  }

  lemma {:induction false} EngineRunTrusted(e: Env, made: Made, cfg: Config, w: World, evs: seq<Event>)
    requires e.blockSize > 0 && EngineRun(e, made, cfg, w, evs)
    ensures RunTrusted(e, made, cfg, w, evs)
    decreases |evs|
  {
    hide Happen, PrefillFinds, PrefillTrusted;
    if evs != [] {
      if evs[0].Step? {
        PromptsTrusted(e, made, cfg, Prefill(w.sched.pool, w.sched.waiting, w.sched.running, [], 0));
      }
      if Happen(e, cfg, w, evs[0]).Some? {
        EngineRunTrusted(e, made, cfg, Happen(e, cfg, w, evs[0]).value, evs[1..]);
      }
    }
  }

  /** Mixed runs of the engine need no more than that lookups find the hash they looked for. */
  lemma EngineRunSound(e: Env, made: Made, cfg: Config, w: World, evs: seq<Event>)
    requires EnvOk(e) && Injective(e) && e.blockSize > 1 && WorldSound(e, made, w)
    requires Proper(w.arrived, evs) && EngineRun(e, made, cfg, w, evs)
    ensures Run(e, cfg, w, evs).Some? ==> WorldSound(e, made, Run(e, cfg, w, evs).value)
  {
    hide WorldSound, Injective, EnvOk, EngineRun, RunTrusted, Run, Proper;
    EngineRunTrusted(e, made, cfg, w, evs);
    RunSound(e, made, cfg, w, evs);
  }

  /** No token counts as made: then nothing is asked of what is looked up, and no request may be uncached. */
  function NoneMade(t: Token): bool { false }

  /** A trusted run of cache-enabled requests never fails and is sound. */
  lemma CachedRunSound(e: Env, cfg: Config, w: World, evs: seq<Event>)
    requires EnvOk(e) && Injective(e) && e.blockSize > 1 && WorldSound(e, NoneMade, w) && CacheEnabled(w.sched)
    requires Proper(w.arrived, evs) && NoneUncached(evs) && RunTrusted(e, NoneMade, cfg, w, evs)
    ensures Run(e, cfg, w, evs).Some? && WorldSound(e, NoneMade, Run(e, cfg, w, evs).value)
  {
    hide RunTrusted, Honest, SoundAll, WorldOk, CacheEnabled, Run;
    RunSound(e, NoneMade, cfg, w, evs);
    CachedRunNeverFails(e, cfg, w, evs);
  }

  /** What soundness says of one full block. */
  lemma FullBlockHolds(e: Env, made: Made, w: World, i: nat, j: nat)
    requires e.blockSize > 1 && WorldSound(e, made, w) && i < |w.sched.running| && j < |w.sched.running[i].table|
    requires (j + 1) * e.blockSize <= |w.sched.running[i].tokens| - 1
    ensures var s := w.sched.running[i];
            s.table[j] < |w.sched.pool.blocks|
              && w.sched.pool.blocks[s.table[j]].held == s.tokens[..(j + 1) * e.blockSize]
  {
    hide WorldOk, Honest, Linked;
    var s := w.sched.running[i];
    assert SoundSeq(e, w.sched.pool, s, Done(s));
    assert w.sched.pool.blocks[s.table[j]].held == Prefix(e, s.tokens[..Done(s)], j + 1);
  }

  /** The run can start: a new scheduler is sound. */
  lemma NewWorldSound(e: Env, made: Made, n: nat)
    requires e.blockSize > 1
    ensures WorldSound(e, made, World(Sched(NewPool(n), [], []), [], {}))
  {
    NewPoolIsHonest(e, made, n);
    RefsNone();
  }
}
