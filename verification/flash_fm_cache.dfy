/** The preallocated flow-matching cache: pairs are written in place, active rows land in scratch
    slots past the prefix, and captured passes are replayed.  It always holds the list cache.

    Buffer row 2 * k is the conditioned branch at time step k, row 2 * k + 1 the unconditioned one.
 */
module FlashFmCache {
  import opened FmCache
  import opened FmMask
  import opened FmSolver
  import opened Transformer

  lemma TransientRows(s: Stack, prefix: seq<Vec>, last: Vec, zp: seq<Vec>, l: nat, next: seq<Vec>)
    requires |next| == 1 + |zp|
    requires forall i :: 0 <= i < |next| ==>
                           next[i] == LayerRow(s, l, ActiveHidden(s, prefix, last, zp, l)[i], |prefix| + i,
                                               ActiveSeen(s, prefix, last, zp, l))
    ensures next == ActiveHidden(s, prefix, last, zp, l + 1)
  {
    hide ActiveHidden, ActiveSeen, LayerRow;
    forall i | 0 <= i < |next| ensures next[i] == ActiveHidden(s, prefix, last, zp, l + 1)[i] {
      ActiveStep(s, prefix, last, zp, l, i);
    }
  }

  class FlashFMCache {
    const numLayers: nat
    const bufRows: nat
    const cap: nat
    const buf: array3<Vec>   // layer, buffer row, slot
    var seqlens: nat         // shared prefix length

    constructor (numSteps: nat, numLayers: nat, cap: nat, blank: Vec)
      ensures this.numLayers == numLayers && this.cap == cap && bufRows == 2 * numSteps
      ensures fresh(buf) && Shaped() && seqlens == 0
    {
      seqlens := 0;
      this.numLayers, this.cap, this.bufRows := numLayers, cap, 2 * numSteps;
      buf := new Vec[numLayers, 2 * numSteps, cap]((_, _, _) => blank);
    }

    /** The same buffers with `rows` independent rows. */
    constructor Rows(rows: nat, numLayers: nat, cap: nat, blank: Vec)
      ensures this.numLayers == numLayers && this.cap == cap && bufRows == rows
      ensures fresh(buf) && Shaped()
    {
      seqlens := 0;
      this.numLayers, this.cap, this.bufRows := numLayers, cap, rows;
      buf := new Vec[numLayers, rows, cap]((_, _, _) => blank);
    }

    predicate Shaped() {
      buf.Length0 == numLayers && buf.Length1 == bufRows && buf.Length2 == cap
    }

    ghost predicate HoldsKV(l: nat, r: nat, kv: seq<Vec>)
      requires Shaped() && l < numLayers && r < bufRows
      reads buf
    {
      |kv| <= cap && forall i :: 0 <= i < |kv| ==> buf[l, r, i] == kv[i]
    }

    /** Row `r` holds, at every layer, the pairs of the full causal pass over `prefix`. */
    ghost predicate HoldsPrefix(r: nat, s: Stack, prefix: seq<Vec>)
      requires Shaped() && r < bufRows
      reads buf
    {
      s.depth == numLayers && forall l :: 0 <= l < numLayers ==> HoldsKV(l, r, CausalKV(s, prefix, l))
    }

    method ReadSlots(l: nat, r: nat, n: nat) returns (kv: seq<Vec>)
      requires Shaped() && l < numLayers && r < bufRows && n <= cap
      ensures |kv| == n && HoldsKV(l, r, kv)
    {
      kv := [];
      for i := 0 to n
        invariant |kv| == i && forall j :: 0 <= j < i ==> buf[l, r, j] == kv[j]
      {
        kv := kv + [buf[l, r, i]];
      }
    }

    /** Everything but slots from `from` on of row `r` at layer `l` (at every layer if `everyLayer`) is as it was. */
    twostate predicate OnlyScratch(l: nat, everyLayer: bool, r: nat, from: nat)
      requires Shaped()
      reads buf
    {
      forall l', r', i :: 0 <= l' < numLayers && 0 <= r' < bufRows && 0 <= i < cap ==>
                            (!everyLayer && l' != l) || r' != r || i < from ==>
                              buf[l', r', i] == old(buf[l', r', i])
    }

    /** flash_attn_with_kvcache for one buffer row: append the new pairs at `seqlen`, then attend. */
    method Attend(l: nat, r: nat, s: Stack, h: seq<Vec>, pos: seq<nat>, seqlen: nat, causal: bool,
                  ghost slot: seq<Vec>, ghost full: seq<Vec>)
      returns (next: seq<Vec>)
      requires Shaped() && l < numLayers && r < bufRows
      requires |h| == |pos| && |slot| == seqlen && seqlen + |h| <= cap && HoldsKV(l, r, slot)
      requires full == slot + KeyValues(s, l, h, pos)
      modifies buf
      ensures HoldsKV(l, r, full)
      ensures OnlyScratch(l, false, r, seqlen)
      ensures |next| == |h|
      ensures causal ==> forall i :: 0 <= i < |h| ==>
                            next[i] == LayerRow(s, l, h[i], pos[i], full[..seqlen + i + 1])
      ensures !causal ==> forall i :: 0 <= i < |h| ==>
                            next[i] == LayerRow(s, l, h[i], pos[i], full)
    {
      var kvNew := KeyValues(s, l, h, pos);
      forall i | 0 <= i < |h| {
        buf[l, r, seqlen + i] := kvNew[i];
      }
      forall i | 0 <= i < |full| ensures buf[l, r, i] == full[i] {
        if i >= seqlen { assert buf[l, r, seqlen + (i - seqlen)] == kvNew[i - seqlen]; }
      }
      var kv := ReadSlots(l, r, seqlen + |h|);
      assert kv == full;
      if causal {
        next := AttendCausal(s, l, h, pos, kv, seqlen);
      } else {
        next := AttendAll(s, l, h, pos, kv);
      }
    }

    /** One layer of an extension for one buffer row: the new pairs persist. */
    method PersistRow(l: nat, r: nat, h: seq<Vec>, pos: seq<nat>, seqlen: nat, s: Stack,
                      ghost prefix: seq<Vec>, ghost rows: seq<Vec>)
      returns (next: seq<Vec>)
      requires Shaped() && l < numLayers && r < bufRows
      requires |prefix| == seqlen && seqlen + |rows| <= cap && HoldsKV(l, r, CausalKV(s, prefix, l))
      requires h == TailHidden(s, prefix, rows, l) && pos == Positions(seqlen, |rows|)
      modifies buf
      ensures HoldsKV(l, r, CausalKV(s, prefix + rows, l))
      ensures OnlyScratch(l, false, r, seqlen)
      ensures next == TailHidden(s, prefix, rows, l + 1)
    {
      hide TailHidden, CausalKV, LayerRow;
      CausalKVSplit(s, prefix, rows, l);
      next := Attend(l, r, s, h, pos, seqlen, true, CausalKV(s, prefix, l), CausalKV(s, prefix + rows, l));
      CausalRows(s, prefix, rows, l, next);
    }

    /** One layer of an active pass for one buffer row: its pairs land past the prefix. */
    method ScratchRow(l: nat, r: nat, h: seq<Vec>, pos: seq<nat>, seqlen: nat, s: Stack,
                      ghost prefix: seq<Vec>, ghost last: Vec, ghost zp: seq<Vec>)
      returns (next: seq<Vec>)
      requires Shaped() && l < numLayers && r < bufRows
      requires |prefix| == seqlen && seqlen + 1 + |zp| <= cap && HoldsKV(l, r, CausalKV(s, prefix, l))
      requires h == ActiveHidden(s, prefix, last, zp, l) && pos == Positions(seqlen, 1 + |zp|)
      modifies buf
      ensures OnlyScratch(l, false, r, seqlen)
      ensures next == ActiveHidden(s, prefix, last, zp, l + 1)
    {
      hide ActiveHidden, CausalKV, LayerRow;
      next := Attend(l, r, s, h, pos, seqlen, false, CausalKV(s, prefix, l), ActiveSeen(s, prefix, last, zp, l));
      TransientRows(s, prefix, last, zp, l, next);
    }

    /** All layers of an extension of one buffer row.  Rows of a batched pass never touch each other's
        buffer rows, so a pass over many rows is this, row by row. */
    method EncodeRow(r: nat, rows: seq<Vec>, pos: seq<nat>, seqlen: nat, s: Stack, ghost prefix: seq<Vec>)
      returns (h: seq<Vec>)
      requires Shaped() && r < bufRows && |prefix| == seqlen && seqlen + |rows| <= cap
      requires HoldsPrefix(r, s, prefix) && pos == Positions(seqlen, |rows|)
      modifies buf
      ensures HoldsPrefix(r, s, prefix + rows)
      ensures OnlyScratch(0, true, r, seqlen)
      ensures h == TailHidden(s, prefix, rows, s.depth)
    {
      h := MapRows(s.input, rows);
      assert h == TailHidden(s, prefix, rows, 0);
      hide TailHidden, CausalKV;
      for l := 0 to s.depth
        invariant h == TailHidden(s, prefix, rows, l)
        invariant forall j :: l <= j < numLayers ==> HoldsKV(j, r, CausalKV(s, prefix, j))
        invariant forall j :: 0 <= j < l ==> HoldsKV(j, r, CausalKV(s, prefix + rows, j))
        invariant OnlyScratch(0, true, r, seqlen)
      {
        h := PersistRow(l, r, h, pos, seqlen, s, prefix, rows);
      }
    }

    /** An extension of which only the cached pairs are wanted. */
    method ExtendRow(r: nat, rows: seq<Vec>, pos: seq<nat>, seqlen: nat, s: Stack, ghost prefix: seq<Vec>)
      requires Shaped() && r < bufRows && |prefix| == seqlen && seqlen + |rows| <= cap
      requires HoldsPrefix(r, s, prefix) && pos == Positions(seqlen, |rows|)
      modifies buf
      ensures HoldsPrefix(r, s, prefix + rows)
      ensures OnlyScratch(0, true, r, seqlen)
    {
      var h := EncodeRow(r, rows, pos, seqlen, s, prefix);
    }

    /** All layers of an active pass of one buffer row: the prefix slots are left alone. */
    method ActiveRow(r: nat, last: Vec, zp: seq<Vec>, pos: seq<nat>, seqlen: nat, s: Stack, ghost prefix: seq<Vec>)
      returns (v: seq<Vec>)
      requires Shaped() && r < bufRows && |prefix| == seqlen && seqlen + 1 + |zp| <= cap
      requires HoldsPrefix(r, s, prefix) && pos == Positions(seqlen, 1 + |zp|)
      modifies buf
      ensures OnlyScratch(0, true, r, seqlen)
      ensures |v| == 1 + |zp| && v[1..] == FmVelocity(s, prefix + [last], [], zp)
    {
      hide ActiveHidden, CausalKV, FmVelocity;
      var h := MapRows(s.input, [last] + zp);
      ActiveInput(s, prefix, last, zp);
      for l := 0 to s.depth
        invariant h == ActiveHidden(s, prefix, last, zp, l)
        invariant forall j :: l <= j < numLayers ==> HoldsKV(j, r, CausalKV(s, prefix, j))
        invariant OnlyScratch(0, true, r, seqlen)
      {
        h := ScratchRow(l, r, h, pos, seqlen, s, prefix, last, zp);
      }
      v := MapRows(s.output, h);
      ActiveOutput(s, prefix, last, zp, v);
    }
  }

  // ---------------------------------------------------------------- the heads

  /** Per-stream head over the in-place cache.  `ExtendForPatchEager` is the eager head; `PrimeTo`,
      `ExtendForPatch` and `DecodePatch` are the graphed one.  Conditions are constant over a stream. */
  class FlashFmHead {
    const flow: FlowHead
    const cache: FlashFMCache
    const stride: nat
    const fmCapacity: nat
    const warmup: nat
    var cachedP: nat
    var hidC: Vec
    var hidU: Vec
    var posAct: nat
    var extendCaptured: bool
    var activeCaptured: set<nat>
    ghost var prefixC: seq<Vec>
    ghost var prefixU: seq<Vec>

    ghost predicate Sized()
      reads this
    {
      && cache.Shaped() && cache.bufRows == 2 * flow.numSteps
      && (forall k :: 0 <= k < flow.numSteps ==> flow.cond(k).depth == flow.uncond(k).depth == cache.numLayers)
      && stride > 0 && cache.cap == (fmCapacity / stride + 1) * stride + stride
    }

    /** The buffer holds, for both branches and every time step, exactly what the list cache holds. */
    ghost predicate Held(pc: seq<Vec>, pu: seq<Vec>)
      requires Sized()
      reads this, cache.buf
    {
      forall k :: 0 <= k < flow.numSteps ==>
                    cache.HoldsPrefix(2 * k, flow.cond(k), pc) && cache.HoldsPrefix(2 * k + 1, flow.uncond(k), pu)
    }

    ghost predicate Valid()
      reads this, cache, cache.buf
    {
      && Sized()
      && |prefixC| == |prefixU| == cachedP == cache.seqlens
      && Held(prefixC, prefixU)
    }

    /** `cap` leaves room for the active block after any prefix the history buffer can hold. */
    lemma RoomForActive(len: nat)
      requires Sized() && 0 < len <= fmCapacity
      ensures len - 1 + stride <= cache.cap
    {
      assert fmCapacity == fmCapacity / stride * stride + fmCapacity % stride;
      assert (fmCapacity / stride + 1) * stride == fmCapacity / stride * stride + stride;
    }

    constructor (flow: FlowHead, numLayers: nat, stride: nat, fmCapacity: nat, warmup: nat, blank: Vec)
      requires stride > 0
      requires forall k :: 0 <= k < flow.numSteps ==> flow.cond(k).depth == flow.uncond(k).depth == numLayers
      ensures Valid() && fresh(cache) && fresh(cache.buf) && prefixC == prefixU == []
      ensures this.flow == flow && this.stride == stride && this.fmCapacity == fmCapacity
    {
      this.flow, this.stride, this.fmCapacity, this.warmup := flow, stride, fmCapacity, warmup;
      var maxPatches := fmCapacity / stride + 1;
      cache := new FlashFMCache(flow.numSteps, numLayers, maxPatches * stride + stride, blank);
      cachedP, hidC, hidU, posAct := 0, blank, blank, 0;
      extendCaptured, activeCaptured := false, {};
      prefixC, prefixU := [], [];
    }

    /** One extension of every time step and branch at `seqlen`, whatever lies past it.  Running it
        again changes nothing. */
    method ExtendAll(rowsC: seq<Vec>, rowsU: seq<Vec>, seqlen: nat, ghost pc: seq<Vec>, ghost pu: seq<Vec>)
      requires Sized() && Held(pc, pu)
      requires |pc| == |pu| == seqlen && |rowsC| == |rowsU| && seqlen + |rowsC| <= cache.cap
      modifies cache.buf
      ensures Held(pc, pu) && Held(pc + rowsC, pu + rowsU)
    {
      hide CausalKV;
      var pos := Positions(seqlen, |rowsC|);
      for k := 0 to flow.numSteps
        invariant Held(pc, pu)
        invariant forall j :: 0 <= j < k ==> cache.HoldsPrefix(2 * j, flow.cond(j), pc + rowsC)
                                             && cache.HoldsPrefix(2 * j + 1, flow.uncond(j), pu + rowsU)
      {
        ExtendStep(k, rowsC, rowsU, pos, seqlen, pc, pu);
      }
    }

    method ExtendStep(k: nat, rowsC: seq<Vec>, rowsU: seq<Vec>, pos: seq<nat>, seqlen: nat,
                      ghost pc: seq<Vec>, ghost pu: seq<Vec>)
      requires Sized() && Held(pc, pu) && k < flow.numSteps
      requires |pc| == |pu| == seqlen && |rowsC| == |rowsU| && seqlen + |rowsC| <= cache.cap
      requires pos == Positions(seqlen, |rowsC|)
      modifies cache.buf
      ensures Held(pc, pu)
      ensures cache.HoldsPrefix(2 * k, flow.cond(k), pc + rowsC)
      ensures cache.HoldsPrefix(2 * k + 1, flow.uncond(k), pu + rowsU)
      ensures forall l, r, i :: 0 <= l < cache.numLayers && 0 <= r < cache.bufRows && 0 <= i < cache.cap ==>
                                  r != 2 * k && r != 2 * k + 1 ==> cache.buf[l, r, i] == old(cache.buf[l, r, i])
    {
      hide CausalKV;
      cache.ExtendRow(2 * k, rowsC, pos, seqlen, flow.cond(k), pc);
      cache.ExtendRow(2 * k + 1, rowsU, pos, seqlen, flow.uncond(k), pu);
    }

    method ExtendForPatchEager(seqC: seq<Vec>, seqU: seq<Vec>)
      requires Valid() && cachedP < |seqC| == |seqU| <= fmCapacity
      requires prefixC <= seqC && prefixU <= seqU
      modifies this, cache, cache.buf
      ensures Primed(seqC, seqU) && Loaded(seqC, seqU)
    {
      RoomForActive(|seqC|);
      var e := |seqC| - 1;
      if e > cachedP {
        ExtendAll(seqC[cachedP..e], seqU[cachedP..e], cachedP, prefixC, prefixU);
        Persist(seqC, seqU, e);
      }
      LoadActive(seqC, seqU);
    }

    /** The whole prefix of the history is cached. */
    ghost predicate Primed(seqC: seq<Vec>, seqU: seq<Vec>)
      reads this, cache, cache.buf
    {
      && Valid() && |seqC| == |seqU| == cachedP + 1
      && prefixC == seqC[..cachedP] && prefixU == seqU[..cachedP]
    }

    ghost predicate Loaded(seqC: seq<Vec>, seqU: seq<Vec>)
      requires |seqC| == |seqU| > 0
      reads this
    {
      hidC == seqC[|seqC| - 1] && hidU == seqU[|seqU| - 1] && posAct == |seqC| - 1
    }

    method Persist(seqC: seq<Vec>, seqU: seq<Vec>, e: nat)
      requires Sized() && cachedP <= e < |seqC| == |seqU| && |prefixC| == |prefixU| == cachedP
      requires prefixC <= seqC && prefixU <= seqU
      requires Held(prefixC + seqC[cachedP..e], prefixU + seqU[cachedP..e])
      modifies this, cache
      ensures Valid() && cachedP == e && prefixC == seqC[..e] && prefixU == seqU[..e]
    {
      assert prefixC + seqC[cachedP..e] == seqC[..e] && prefixU + seqU[cachedP..e] == seqU[..e];
      cache.seqlens := e;
      cachedP := e;
      prefixC, prefixU := seqC[..e], seqU[..e];
    }

    method LoadActive(seqC: seq<Vec>, seqU: seq<Vec>)
      requires Primed(seqC, seqU)
      modifies this
      ensures Primed(seqC, seqU) && Loaded(seqC, seqU)
    {
      hidC, hidU, posAct := seqC[|seqC| - 1], seqU[|seqU| - 1], |seqC| - 1;
    }

    /** Bulk-extends to the whole current prefix in one pass: the switch into the cache mid-generation. */
    method PrimeTo(seqC: seq<Vec>, seqU: seq<Vec>)
      requires Valid() && cachedP < |seqC| == |seqU| <= fmCapacity
      requires prefixC <= seqC && prefixU <= seqU
      modifies this, cache, cache.buf
      ensures Primed(seqC, seqU)
    {
      RoomForActive(|seqC|);
      var e := |seqC| - 1;
      if e <= cachedP {
        return;
      }
      ExtendAll(seqC[cachedP..e], seqU[cachedP..e], cachedP, prefixC, prefixU);
      Persist(seqC, seqU, e);
    }

    /** The graphed extension: capture runs the same extension `warmup` times before the replay; it
        raises (returns false) when the new rows are not exactly one stride. */
    method ExtendForPatch(seqC: seq<Vec>, seqU: seq<Vec>) returns (ok: bool)
      requires Valid() && cachedP < |seqC| == |seqU| <= fmCapacity
      requires prefixC <= seqC && prefixU <= seqU
      modifies this, cache, cache.buf
      ensures ok == (|seqC| - 1 - old(cachedP) == 0 || |seqC| - 1 - old(cachedP) == stride)
      ensures Valid()
      ensures ok ==> Primed(seqC, seqU) && Loaded(seqC, seqU)
    {
      RoomForActive(|seqC|);
      var s, e := cachedP, |seqC| - 1;
      if e > s {
        if e - s != stride {
          return false;
        }
        var rowsC, rowsU := seqC[s..e], seqU[s..e];
        if !extendCaptured {
          for _ := 0 to warmup
            invariant Sized() && Held(prefixC, prefixU)
            invariant cache.seqlens == s && cachedP == s && prefixC == old(prefixC) && prefixU == old(prefixU)
          {
            ExtendAll(rowsC, rowsU, s, prefixC, prefixU);
          }
          extendCaptured := true;
        }
        ExtendAll(rowsC, rowsU, s, prefixC, prefixU);
        Persist(seqC, seqU, e);
      }
      LoadActive(seqC, seqU);
      return true;
    }

    /** The active rows of one branch at one time step. */
    method ActiveBranch(k: nat, cond: bool, zp: seq<Vec>) returns (v: seq<Vec>)
      requires Valid() && k < flow.numSteps && posAct == cachedP < fmCapacity && 1 + |zp| == stride
      modifies cache.buf
      ensures Valid()
      ensures v == if cond then FmVelocity(flow.cond(k), prefixC + [hidC], [], zp)
                   else FmVelocity(flow.uncond(k), prefixU + [hidU], [], zp)
    {
      hide CausalKV, FmVelocity;
      RoomForActive(cachedP + 1);
      var pos := Positions(posAct, 1 + |zp|);
      var rows: seq<Vec>;
      if cond {
        rows := cache.ActiveRow(2 * k, hidC, zp, pos, cache.seqlens, flow.cond(k), prefixC);
      } else {
        rows := cache.ActiveRow(2 * k + 1, hidU, zp, pos, cache.seqlens, flow.uncond(k), prefixU);
      }
      v := rows[1..];
    }

    /** One guided evaluation: both branches read the prefix and their scratch slots. */
    method Velocity(z: seq<Vec>, k: nat) returns (v: seq<Vec>)
      requires Valid() && k < flow.numSteps && posAct == cachedP < fmCapacity && 1 + |z| == stride
      modifies cache.buf
      ensures Valid()
      ensures v == SoloVelocity(flow, prefixC + [hidC], prefixU + [hidU], z, k)
    {
      hide CausalKV, FmVelocity;
      var zp := MapRows(flow.coordinate, z);
      var vc := ActiveBranch(k, true, zp);
      var vu := ActiveBranch(k, false, zp);
      v := Zip(flow.guide, vc, vu);
    }

    /** The side-stream runs before recording: their writes stay in scratch. */
    method WarmUpActive(z: seq<Vec>, k: nat)
      requires Valid() && k < flow.numSteps && posAct == cachedP < fmCapacity && 1 + |z| == stride
      modifies cache.buf
      ensures Valid()
    {
      for _ := 0 to warmup
        invariant Valid()
      {
        var _ := Velocity(z, k);
      }
    }

    /** The active rows of the histories `hc`, `hu` are loaded over their cached prefixes. */
    ghost predicate Ready(hc: seq<Vec>, hu: seq<Vec>, patch: nat)
      reads this, cache, cache.buf
    {
      && Valid() && posAct == cachedP < fmCapacity && 1 + patch == stride
      && hc == prefixC + [hidC] && hu == prefixU + [hidU]
    }

    /** One Euler step: capture the active pass if this time step has none yet, then run it. */
    method EulerStep(z: seq<Vec>, k: nat, ghost noise: seq<Vec>, ghost hc: seq<Vec>, ghost hu: seq<Vec>)
      returns (next: seq<Vec>)
      requires Ready(hc, hu, |noise|) && k < flow.numSteps
      requires z == SoloFlow(flow, hc, hu, noise, k)
      modifies cache.buf, `activeCaptured
      ensures Ready(hc, hu, |noise|)
      ensures next == SoloFlow(flow, hc, hu, noise, k + 1)
    {
      hide CausalKV, FmVelocity;
      if k !in activeCaptured {
        WarmUpActive(z, k);
        activeCaptured := activeCaptured + {k};
      }
      var v := Velocity(z, k);
      next := Advanced(flow, k, z, v);
    }

    method Integrate(noise: seq<Vec>, ghost hc: seq<Vec>, ghost hu: seq<Vec>) returns (z: seq<Vec>)
      requires Ready(hc, hu, |noise|)
      modifies cache.buf, `activeCaptured
      ensures Ready(hc, hu, |noise|)
      ensures z == SoloFlow(flow, hc, hu, noise, flow.numSteps)
    {
      z := noise;
      for k := 0 to flow.numSteps
        invariant Ready(hc, hu, |noise|)
        invariant z == SoloFlow(flow, hc, hu, noise, k)
      {
        z := EulerStep(z, k, noise, hc, hu);
      }
    }

    method DecodePatch(seqC: seq<Vec>, seqU: seq<Vec>, noise: seq<Vec>) returns (ok: bool, z: seq<Vec>)
      requires Valid() && cachedP < |seqC| == |seqU| <= fmCapacity && 1 + |noise| == stride
      requires prefixC <= seqC && prefixU <= seqU
      modifies this, cache, cache.buf
      ensures Valid()
      ensures ok == (|seqC| - 1 - old(cachedP) == 0 || |seqC| - 1 - old(cachedP) == stride)
      ensures ok ==> Primed(seqC, seqU) && z == SoloFlow(flow, seqC, seqU, noise, flow.numSteps)
    {
      ok := ExtendForPatch(seqC, seqU);
      if !ok {
        return false, noise;
      }
      assert prefixC + [hidC] == seqC && prefixU + [hidU] == seqU;
      z := Integrate(noise, seqC, seqU);
    }

    /** The eager head has no stride restriction. */
    method DecodePatchEager(seqC: seq<Vec>, seqU: seq<Vec>, noise: seq<Vec>) returns (z: seq<Vec>)
      requires Valid() && cachedP < |seqC| == |seqU| <= fmCapacity && 1 + |noise| == stride
      requires prefixC <= seqC && prefixU <= seqU
      modifies this, cache, cache.buf
      ensures Primed(seqC, seqU) && z == SoloFlow(flow, seqC, seqU, noise, flow.numSteps)
    {
      ExtendForPatchEager(seqC, seqU);
      assert prefixC + [hidC] == seqC && prefixU + [hidU] == seqU;
      z := Integrate(noise, seqC, seqU);
    }
  }

  // ---------------------------------------------------------------- switching in mid-generation

  /** One request's flow-matching state in the engine: its cached head, once it has one. */
  class FmStream {
    const flow: FlowHead
    const numLayers: nat
    const stride: nat
    const fmCapacity: nat
    const warmup: nat
    const blank: Vec
    const prime: bool        // hybrid: full-history batch first, cache from `threshold` rows on
    const threshold: nat
    var fmHead: FlashFmHead?

    constructor (flow: FlowHead, numLayers: nat, stride: nat, fmCapacity: nat, warmup: nat, blank: Vec,
                 prime: bool, threshold: nat)
      ensures this.flow == flow && this.numLayers == numLayers && this.stride == stride && this.fmCapacity == fmCapacity
      ensures this.prime == prime && this.threshold == threshold && fmHead == null
    {
      this.flow, this.numLayers, this.stride, this.fmCapacity := flow, numLayers, stride, fmCapacity;
      this.warmup, this.blank, this.prime, this.threshold := warmup, blank, prime, threshold;
      fmHead := null;
    }

    ghost function Repr(): set<object>
      reads this, fmHead
    {
      {this} + if fmHead == null then {} else {fmHead, fmHead.cache, fmHead.cache.buf}
    }

    /** Between patches: the head, if any, has cached the prefix of the history decoded so far. */
    ghost predicate Valid(seqC: seq<Vec>, seqU: seq<Vec>)
      reads this, fmHead, if fmHead == null then {} else {fmHead.cache, fmHead.cache.buf}
    {
      && stride > 0
      && (forall k :: 0 <= k < flow.numSteps ==> flow.cond(k).depth == flow.uncond(k).depth == numLayers)
      && |seqC| == |seqU|
      && (fmHead != null ==> fmHead.flow == flow && fmHead.stride == stride && fmHead.fmCapacity == fmCapacity
                             && fmHead.Primed(seqC, seqU))
      && (!prime ==> (fmHead == null <==> seqC == []))
    }

    /** One patch of the stream after `newC`/`newU` rows joined the history. */
    method NextPatch(oldC: seq<Vec>, oldU: seq<Vec>, newC: seq<Vec>, newU: seq<Vec>, noise: seq<Vec>)
      returns (ok: bool, z: seq<Vec>)
      requires Valid(oldC, oldU) && |newC| == |newU| > 0 && 1 + |noise| == stride
      requires |oldC + newC| <= fmCapacity
      requires oldC != [] ==> |newC| == stride
      modifies Repr()
      ensures ok <==> prime || oldC != [] || |newC| == 1 || |newC| == 1 + stride
      ensures ok ==> Valid(oldC + newC, oldU + newU) && fresh(Repr() - old(Repr()))
      ensures ok ==> z == SoloFlow(flow, oldC + newC, oldU + newU, noise, flow.numSteps)
    {
      hide CausalKV, SoloFlow;
      var seqC, seqU := oldC + newC, oldU + newU;
      if prime && fmHead == null && |seqC| < threshold {
        var q := FmRequest(flow, seqC, seqU, noise);
        var r := FullFm([q], stride - 1, 0, false, blank);
        assert Uniform([q], 1, false) && NonEmpty([q], 1);
        return true, r.value[0];
      }
      if fmHead == null {
        fmHead := new FlashFmHead(flow, numLayers, stride, fmCapacity, warmup, blank);
        if prime {
          fmHead.PrimeTo(seqC, seqU);
        }
      }
      ok, z := fmHead.DecodePatch(seqC, seqU, noise);
    }
  }

  /** Each patch decoded so far is the one decoded over the whole history at that point. */
  ghost predicate AllFullHistory(zs: seq<seq<Vec>>, flow: FlowHead, ps: seq<PatchInput>) {
    |zs| <= |ps| && forall i :: 0 <= i < |zs| ==> zs[i] == FullHistoryPatch(flow, ps, i)
  }

  /** A stream decoded through the graphed cache, from its first patch or by switching over at a
      threshold: every patch is the full-history one.  The only failure is an unprimed first
      extension that is neither empty nor one stride long. */
  method KvCacheRun(st: FmStream, ps: seq<PatchInput>) returns (ok: bool, zs: seq<seq<Vec>>)
    requires st.Valid([], []) && st.fmHead == null
    requires forall i :: 0 <= i < |ps| ==> |ps[i].rows| == |ps[i].cfgRows| > 0 && 1 + |ps[i].noise| == st.stride
    requires forall i :: 1 <= i < |ps| ==> |ps[i].rows| == st.stride
    requires |HistoryAfter(ps)| <= st.fmCapacity
    modifies st
    ensures ok <==> st.prime || |ps| == 0 || |ps[0].rows| == 1 || |ps[0].rows| == 1 + st.stride
    ensures ok ==> |zs| == |ps| && AllFullHistory(zs, st.flow, ps)
  {
    hide CausalKV, SoloFlow, FmStream.Valid, AllFullHistory, HistoryAfter, CfgHistoryAfter;
    zs := [];
    var seqC, seqU: seq<Vec> := [], [];
    NoHistory(st.flow, ps);
    for i := 0 to |ps|
      invariant |zs| == i && st.Valid(seqC, seqU) && fresh(st.Repr() - {st})
      invariant seqC == HistoryAfter(ps[..i]) && seqU == CfgHistoryAfter(ps[..i])
      invariant i == 0 <==> seqC == []
      invariant i > 0 ==> st.prime || |ps[0].rows| == 1 || |ps[0].rows| == 1 + st.stride
      invariant AllFullHistory(zs, st.flow, ps)
    {
      HistoryJoins(ps, i);
      HistoryGrows(ps, i + 1);
      var z;
      ok, z := st.NextPatch(seqC, seqU, ps[i].rows, ps[i].cfgRows, ps[i].noise);
      if !ok {
        return;
      }
      seqC, seqU := seqC + ps[i].rows, seqU + ps[i].cfgRows;
      OnePatchMore(zs, z, st.flow, ps);
      zs := zs + [z];
    }
    return true, zs;
  }

  lemma NoHistory(flow: FlowHead, ps: seq<PatchInput>)
    ensures HistoryAfter(ps[..0]) == [] && CfgHistoryAfter(ps[..0]) == [] && AllFullHistory([], flow, ps)
  {
  }

  lemma HistoryJoins(ps: seq<PatchInput>, i: nat)
    requires i < |ps|
    ensures HistoryAfter(ps[..i + 1]) == HistoryAfter(ps[..i]) + ps[i].rows
    ensures CfgHistoryAfter(ps[..i + 1]) == CfgHistoryAfter(ps[..i]) + ps[i].cfgRows
  {
    assert ps[..i + 1][..i] == ps[..i];
  }

  lemma OnePatchMore(zs: seq<seq<Vec>>, z: seq<Vec>, flow: FlowHead, ps: seq<PatchInput>)
    requires AllFullHistory(zs, flow, ps) && |zs| < |ps| && z == FullHistoryPatch(flow, ps, |zs|)
    ensures AllFullHistory(zs + [z], flow, ps)
  {
    hide SoloFlow;
  }

  lemma {:induction false} HistoryGrows(ps: seq<PatchInput>, n: nat)
    requires n <= |ps|
    ensures |HistoryAfter(ps[..n])| <= |HistoryAfter(ps)|
    decreases |ps|
  {
    if n < |ps| {
      HistoryGrows(ps[..|ps| - 1], n);
      assert ps[..|ps| - 1][..n] == ps[..n];
    } else {
      assert ps[..n] == ps;
    }
  }
}
