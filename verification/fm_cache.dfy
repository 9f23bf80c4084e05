/** The per-time-step key/value cache of the flow-matching head: only the rows that became final
    since the last patch and the active rows are recomputed, and the result is the one over the
    whole history.
 */
module FmCache {
  import opened FmMask
  import opened FmSolver
  import opened Transformer

  // ---------------------------------------------------------------- active rows over a cached prefix

  /** Hidden rows of the active block (last hidden and latents) in the full forward pass. */
  function ActiveHidden(s: Stack, prefix: seq<Vec>, last: Vec, zp: seq<Vec>, l: nat): (h: seq<Vec>)
    ensures |h| == 1 + |zp|
  {
    Hidden(s, prefix + [last] + zp, FmPositions(|prefix| + 1, 0, |zp|), HistoryMask(|prefix| + 1, |prefix| + 1),
           l)[|prefix|..]
  }

  lemma FmPositionsUnpadded(len: nat, latents: nat)
    ensures FmPositions(len, 0, latents) == Positions(0, len + latents)
  {
  }

  /** The pairs the active block sees: the causal pairs of the prefix, then its own. */
  function ActiveSeen(s: Stack, prefix: seq<Vec>, last: Vec, zp: seq<Vec>, l: nat): seq<Vec> {
    CausalKV(s, prefix, l) + KeyValues(s, l, ActiveHidden(s, prefix, last, zp, l), Positions(|prefix|, 1 + |zp|))
  }

  lemma ActiveSeenIsAll(s: Stack, prefix: seq<Vec>, last: Vec, zp: seq<Vec>, l: nat)
    ensures var n := |prefix| + 1;
            var x, pos := prefix + [last] + zp, FmPositions(n, 0, |zp|);
            KeyValues(s, l, Hidden(s, x, pos, HistoryMask(n, n), l), pos) == ActiveSeen(s, prefix, last, zp, l)
  {
    hide Hidden, CausalHidden, LayerRow, Visible;
    var n := |prefix| + 1;
    var x, pos, sees := prefix + [last] + zp, FmPositions(n, 0, |zp|), HistoryMask(n, n);
    FmPositionsUnpadded(n, |zp|);
    assert x[..|prefix|] == prefix;
    PrefixIsCausal(s, x, pos, sees, |prefix|, l);
    var kv := KeyValues(s, l, Hidden(s, x, pos, sees, l), pos);
    assert kv[|prefix|..] == KeyValues(s, l, ActiveHidden(s, prefix, last, zp, l), Positions(|prefix|, 1 + |zp|));
    assert kv == kv[..|prefix|] + kv[|prefix|..];
  }

  /** One layer of one active row from those pairs, unmasked. */
  lemma ActiveStep(s: Stack, prefix: seq<Vec>, last: Vec, zp: seq<Vec>, l: nat, i: nat)
    requires i < 1 + |zp|
    ensures ActiveHidden(s, prefix, last, zp, l + 1)[i]
            == LayerRow(s, l, ActiveHidden(s, prefix, last, zp, l)[i], |prefix| + i, ActiveSeen(s, prefix, last, zp, l))
  {
    hide Hidden, ActiveSeen, HistoryMask, FmPositions, LayerRow, Visible;
    var n := |prefix| + 1;
    var x, pos := prefix + [last] + zp, FmPositions(n, 0, |zp|);
    HiddenStep(s, x, pos, HistoryMask(n, n), l, |prefix| + i);
    ActiveSeenIsAll(s, prefix, last, zp, l);
    var kv := KeyValues(s, l, Hidden(s, x, pos, HistoryMask(n, n), l), pos);
    ActiveRowSees(kv, n, n, |prefix| + i);
    assert kv[..n] + kv[n..] == kv;
    FmPositionsUnpadded(n, |zp|);
  }

  /** The first `n` slots are those of `after`, the others still those of `before`. */
  ghost predicate PartlyReplaced(slots: seq<seq<Vec>>, before: seq<seq<Vec>>, after: seq<seq<Vec>>, n: nat) {
    && |slots| == |before| == |after| >= n
    && (forall j :: 0 <= j < n ==> slots[j] == after[j])
    && (forall j :: n <= j < |slots| ==> slots[j] == before[j])
  }

  /** One layer for the new rows of a causal prefix, from the pairs cached at that layer. */
  method ExtendLayer(s: Stack, l: nat, h: seq<Vec>, posNew: seq<nat>, slot: seq<Vec>, cached: nat,
                     ghost prefix: seq<Vec>, ghost xNew: seq<Vec>)
    returns (kvFull: seq<Vec>, next: seq<Vec>)
    requires h == TailHidden(s, prefix, xNew, l)
    requires posNew == Positions(|prefix|, |xNew|)
    requires slot == CausalKV(s, prefix, l) && cached == |prefix|
    ensures kvFull == CausalKV(s, prefix + xNew, l)
    ensures next == TailHidden(s, prefix, xNew, l + 1)
  {
    hide TailHidden, CausalKV, LayerRow;
    CausalKVSplit(s, prefix, xNew, l);
    kvFull := slot + KeyValues(s, l, h, posNew);
    next := AttendCausal(s, l, h, posNew, kvFull, cached);
    CausalRows(s, prefix, xNew, l, next);
  }

  /** One layer for the active rows, from the pairs cached at that layer. */
  method ActiveLayer(s: Stack, l: nat, h: seq<Vec>, pos: seq<nat>, slot: seq<Vec>,
                     ghost prefix: seq<Vec>, ghost last: Vec, ghost zp: seq<Vec>)
    returns (next: seq<Vec>)
    requires h == ActiveHidden(s, prefix, last, zp, l)
    requires pos == Positions(|prefix|, |h|)
    requires slot == CausalKV(s, prefix, l)
    ensures next == ActiveHidden(s, prefix, last, zp, l + 1)
  {
    hide ActiveHidden, CausalKV, LayerRow;
    next := AttendAll(s, l, h, pos, slot + KeyValues(s, l, h, pos));
    forall i | 0 <= i < |h|
      ensures next[i] == ActiveHidden(s, prefix, last, zp, l + 1)[i]
    {
      ActiveStep(s, prefix, last, zp, l, i);
    }
  }

  lemma ActiveInput(s: Stack, prefix: seq<Vec>, last: Vec, zp: seq<Vec>)
    ensures ActiveHidden(s, prefix, last, zp, 0) == MapRows(s.input, [last] + zp)
  {
    assert prefix + [last] + zp == prefix + ([last] + zp);
  }

  lemma ActiveOutput(s: Stack, prefix: seq<Vec>, last: Vec, zp: seq<Vec>, v: seq<Vec>)
    requires v == MapRows(s.output, ActiveHidden(s, prefix, last, zp, s.depth))
    ensures |v| == 1 + |zp| && v[1..] == FmVelocity(s, prefix + [last], [], zp)
  {
    hide Hidden, HistoryMask, FmPositions;
    assert prefix + [last] + [] + zp == prefix + [last] + zp;
  }

  // ---------------------------------------------------------------- the list cache

  /** Per-(time step, layer) prefix pairs of one guidance branch; an empty slot is []. */
  class FMCache {
    const numSteps: nat
    const numLayers: nat
    var kv: seq<seq<seq<Vec>>>

    constructor (numSteps: nat, numLayers: nat)
      ensures this.numSteps == numSteps && this.numLayers == numLayers
      ensures kv == seq(numSteps, _ => seq(numLayers, _ => []))
    {
      this.numSteps, this.numLayers := numSteps, numLayers;
      kv := seq(numSteps, _ => seq(numLayers, _ => []));
    }

    predicate Shaped()
      reads this
    {
      numLayers > 0 && |kv| == numSteps && forall k :: 0 <= k < numSteps ==> |kv[k]| == numLayers
    }

    function LengthAt(k: nat): nat
      requires Shaped() && k < numSteps
      reads this
    {
      |kv[k][0]|
    }

    /** The cache holds, at every time step and layer, the pairs of the full pass over `prefix`. */
    ghost predicate Holds(stack: nat -> Stack, prefix: seq<Vec>)
      reads this
    {
      && numLayers > 0 && |kv| == numSteps
      && forall k :: 0 <= k < numSteps ==> stack(k).depth == numLayers && kv[k] == Snapshot(stack(k), prefix)
    }

    /** Appends the rows `xNew` at time step `k`, running them causally through all layers. */
    method Extend(s: Stack, xNew: seq<Vec>, posNew: seq<nat>, k: nat, ghost prefix: seq<Vec>)
      requires Shaped() && k < numSteps && s.depth == numLayers
      requires kv[k] == Snapshot(s, prefix)
      requires posNew == Positions(|prefix|, |xNew|)
      modifies this
      ensures kv == old(kv)[k := Snapshot(s, prefix + xNew)]
    {
      var h := MapRows(s.input, xNew);
      var cached := LengthAt(k);
      ghost var before, after := kv, Snapshot(s, prefix + xNew);
      for l := 0 to s.depth
        invariant |kv| == numSteps && kv == before[k := kv[k]]
        invariant PartlyReplaced(kv[k], before[k], after, l)
        invariant h == TailHidden(s, prefix, xNew, l)
      {
        var slots := kv[k];
        var kvFull, next := ExtendLayer(s, l, h, posNew, slots[l], cached, prefix, xNew);
        h := next;
        kv := kv[k := slots[l := kvFull]];
      }
      assert kv[k] == after;
    }

    /** Velocity input of the active rows: they see the cached prefix and each other, unmasked, and
        leave the cache alone. */
    method ActiveForward(s: Stack, last: Vec, zp: seq<Vec>, posActive: seq<nat>, k: nat, ghost prefix: seq<Vec>)
      returns (v: seq<Vec>)
      requires Shaped() && k < numSteps && s.depth == numLayers
      requires kv[k] == Snapshot(s, prefix)
      requires posActive == Positions(|prefix|, 1 + |zp|)
      ensures |v| == 1 + |zp| && v[1..] == FmVelocity(s, prefix + [last], [], zp)
    {
      hide ActiveHidden, CausalKV, FmVelocity;
      var h := MapRows(s.input, [last] + zp);
      ActiveInput(s, prefix, last, zp);
      for l := 0 to s.depth
        invariant h == ActiveHidden(s, prefix, last, zp, l)
      {
        h := ActiveLayer(s, l, h, posActive, kv[k][l], prefix, last, zp);
      }
      v := MapRows(s.output, h);
      ActiveOutput(s, prefix, last, zp, v);
    }
  }

  // ---------------------------------------------------------------- the cached head

  /** Per-stream cached head: one prefix cache per guidance branch. */
  class CachedFmHead {
    const flow: FlowHead
    const cc: FMCache
    const uc: FMCache
    var cachedP: nat
    var hidC: Vec
    var hidU: Vec
    var posAct: nat
    ghost var prefixC: seq<Vec>   // rows the caches cover
    ghost var prefixU: seq<Vec>

    ghost predicate Valid()
      reads this, cc, uc
    {
      && cc != uc
      && cc.numSteps == uc.numSteps == flow.numSteps
      && |prefixC| == |prefixU| == cachedP
      && cc.Holds(flow.cond, prefixC)
      && uc.Holds(flow.uncond, prefixU)
    }

    constructor (flow: FlowHead, numLayers: nat, blank: Vec)
      requires numLayers > 0
      requires forall k :: 0 <= k < flow.numSteps ==> flow.cond(k).depth == flow.uncond(k).depth == numLayers
      ensures Valid() && this.flow == flow && fresh(cc) && fresh(uc)
      ensures prefixC == prefixU == []
    {
      this.flow := flow;
      cc := new FMCache(flow.numSteps, numLayers);
      uc := new FMCache(flow.numSteps, numLayers);
      cachedP := 0;
      hidC, hidU, posAct := blank, blank, 0;
      prefixC, prefixU := [], [];
      new;
      forall k | 0 <= k < flow.numSteps
        ensures cc.kv[k] == Snapshot(flow.cond(k), []) && uc.kv[k] == Snapshot(flow.uncond(k), [])
      {
        assert forall s: Stack, l: nat :: CausalKV(s, [], l) == [];
      }
    }

    /** Extends both caches by new rows, at every time step. */
    method ExtendSteps(newC: seq<Vec>, newU: seq<Vec>)
      requires Valid() && |newC| == |newU|
      modifies cc, uc
      ensures cc.Holds(flow.cond, prefixC + newC) && uc.Holds(flow.uncond, prefixU + newU)
    {
      hide Snapshot;
      var posNew := Positions(cachedP, |newC|);
      for k := 0 to flow.numSteps
        invariant |cc.kv| == |uc.kv| == flow.numSteps
        invariant forall j :: 0 <= j < k ==> cc.kv[j] == Snapshot(flow.cond(j), prefixC + newC)
        invariant forall j :: 0 <= j < k ==> uc.kv[j] == Snapshot(flow.uncond(j), prefixU + newU)
        invariant forall j :: k <= j < flow.numSteps ==> cc.kv[j] == Snapshot(flow.cond(j), prefixC)
        invariant forall j :: k <= j < flow.numSteps ==> uc.kv[j] == Snapshot(flow.uncond(j), prefixU)
      {
        cc.Extend(flow.cond(k), newC, posNew, k, prefixC);
        uc.Extend(flow.uncond(k), newU, posNew, k, prefixU);
      }
    }

    /** Extends both caches by the rows that became final since the last patch, and loads the active rows. */
    method ExtendForPatch(seqC: seq<Vec>, seqU: seq<Vec>)
      requires Valid() && |seqC| == |seqU| > cachedP
      requires prefixC <= seqC && prefixU <= seqU
      modifies this, cc, uc
      ensures Valid() && cachedP == |seqC| - 1
      ensures prefixC == seqC[..|seqC| - 1] && prefixU == seqU[..|seqU| - 1]
      ensures hidC == seqC[|seqC| - 1] && hidU == seqU[|seqU| - 1] && posAct == |seqC| - 1
    {
      var len := |seqC|;
      if len - 1 > cachedP {
        var s, e := cachedP, len - 1;
        assert prefixC + seqC[s..e] == seqC[..e] && prefixU + seqU[s..e] == seqU[..e];
        ExtendSteps(seqC[s..e], seqU[s..e]);
        cachedP := e;
        prefixC, prefixU := seqC[..e], seqU[..e];
      }
      hidC, hidU, posAct := seqC[len - 1], seqU[len - 1], len - 1;
    }

    /** One guided evaluation from the caches. */
    method Velocity(z: seq<Vec>, k: nat) returns (v: seq<Vec>)
      requires Valid() && k < flow.numSteps && posAct == cachedP
      ensures v == SoloVelocity(flow, prefixC + [hidC], prefixU + [hidU], z, k)
    {
      var zp := MapRows(flow.coordinate, z);
      var pos := Positions(posAct, 1 + |z|);
      var vc := cc.ActiveForward(flow.cond(k), hidC, zp, pos, k, prefixC);
      var vu := uc.ActiveForward(flow.uncond(k), hidU, zp, pos, k, prefixU);
      v := Zip(flow.guide, vc[1..], vu[1..]);
    }

    /** One patch: exactly the full-history Euler integration on the same grid. */
    method DecodePatch(seqC: seq<Vec>, seqU: seq<Vec>, noise: seq<Vec>) returns (z: seq<Vec>)
      requires Valid() && |seqC| == |seqU| > cachedP
      requires prefixC <= seqC && prefixU <= seqU
      modifies this, cc, uc
      ensures Valid() && cachedP == |seqC| - 1
      ensures prefixC == seqC[..|seqC| - 1] && prefixU == seqU[..|seqU| - 1]
      ensures z == SoloFlow(flow, seqC, seqU, noise, flow.numSteps)
    {
      ExtendForPatch(seqC, seqU);
      assert prefixC + [hidC] == seqC && prefixU + [hidU] == seqU;
      z := Integrate(noise);
    }

    /** The Euler loop of one patch over the extended caches. */
    method Integrate(noise: seq<Vec>) returns (z: seq<Vec>)
      requires Valid() && posAct == cachedP
      ensures z == SoloFlow(flow, prefixC + [hidC], prefixU + [hidU], noise, flow.numSteps)
    {
      z := noise;
      for k := 0 to flow.numSteps
        invariant z == SoloFlow(flow, prefixC + [hidC], prefixU + [hidU], noise, k)
      {
        var v := Velocity(z, k);
        z := Advanced(flow, k, z, v);
      }
    }
  }

  // ---------------------------------------------------------------- whole runs

  /** What one patch adds to the two histories before it is decoded, and its noise. */
  datatype PatchInput = PatchInput(rows: seq<Vec>, cfgRows: seq<Vec>, noise: seq<Vec>)

  function HistoryAfter(ps: seq<PatchInput>): seq<Vec> {
    if ps == [] then [] else HistoryAfter(ps[..|ps| - 1]) + ps[|ps| - 1].rows
  }

  function CfgHistoryAfter(ps: seq<PatchInput>): seq<Vec> {
    if ps == [] then [] else CfgHistoryAfter(ps[..|ps| - 1]) + ps[|ps| - 1].cfgRows
  }

  /** Patch `i` decoded over the whole history at that point. */
  function FullHistoryPatch(flow: FlowHead, ps: seq<PatchInput>, i: nat): seq<Vec>
    requires i < |ps|
  {
    SoloFlow(flow, HistoryAfter(ps[..i + 1]), CfgHistoryAfter(ps[..i + 1]), ps[i].noise, flow.numSteps)
  }

  /** For every run of patches, every patch decoded from the caches is the one decoded over the whole
      history at that point, however the history grew. */
  method DecodeRun(head: CachedFmHead, ps: seq<PatchInput>) returns (zs: seq<seq<Vec>>)
    requires head.Valid() && head.cachedP == 0
    requires forall i :: 0 <= i < |ps| ==> |ps[i].rows| == |ps[i].cfgRows| > 0
    modifies head, head.cc, head.uc
    ensures |zs| == |ps|
    ensures forall i :: 0 <= i < |ps| ==> zs[i] == FullHistoryPatch(head.flow, ps, i)
  {
    hide SoloFlow;
    zs := [];
    var seqC, seqU: seq<Vec> := [], [];
    for i := 0 to |ps|
      invariant |zs| == i && head.Valid()
      invariant seqC == HistoryAfter(ps[..i]) && seqU == CfgHistoryAfter(ps[..i])
      invariant |seqC| == |seqU| >= head.cachedP && head.prefixC <= seqC && head.prefixU <= seqU
      invariant forall j :: 0 <= j < i ==> zs[j] == FullHistoryPatch(head.flow, ps, j)
    {
      assert ps[..i + 1][..i] == ps[..i];
      seqC, seqU := seqC + ps[i].rows, seqU + ps[i].cfgRows;
      var z := head.DecodePatch(seqC, seqU, ps[i].noise);
      assert z == FullHistoryPatch(head.flow, ps, i);
      zs := zs + [z];
    }
  }
}
