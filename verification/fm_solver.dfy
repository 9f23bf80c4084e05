/** The flow-matching head: one request on its own over its full history (the specification), and
    the padded batch solver over many requests.
 */
module FmSolver {
  import opened Arithmetic
  import opened FmMask
  import opened Outcomes
  import opened Transformer

  /** What all requests of an engine share: the network at a condition, a time and a duration, and the
      arithmetic of rows. */
  datatype FmCore = FmCore(
    stackAt: (Vec, real, real) -> Stack,        // condition, time, duration
    nullCond: Vec,                              // condition of the unguided branch
    coordinate: Vec -> Vec,                     // latent row to model row
    plus: (Vec, Vec) -> Vec,
    minus: (Vec, Vec) -> Vec,
    times: (real, Vec) -> Vec)

  /** Point `k` of the even grid of `n` steps over [0, 1]. */
  function Time(n: nat, k: nat): real {
    if n == 0 then 0.0 else k as real / n as real
  }

  function Gap(n: nat, k: nat): real {
    Time(n, k + 1) - Time(n, k)
  }

  /** One request's own parameters: its grid, its guidance scale and its condition. */
  datatype FlowHead = FlowHead(core: FmCore, numSteps: nat, guidance: real, gCond: Vec) {
    function cond(k: nat): Stack { core.stackAt(gCond, Time(numSteps, k), Gap(numSteps, k)) }
    function uncond(k: nat): Stack { core.stackAt(core.nullCond, Time(numSteps, k), Gap(numSteps, k)) }
    function coordinate(x: Vec): Vec { core.coordinate(x) }
    function guide(vc: Vec, vu: Vec): Vec { core.plus(vc, core.times(guidance, core.minus(vc, vu))) }
    function advance(k: nat, z: Vec, v: Vec): Vec { core.plus(z, core.times(Gap(numSteps, k), v)) }
  }

  function Zip(f: (Vec, Vec) -> Vec, a: seq<Vec>, b: seq<Vec>): (r: seq<Vec>)
    requires |a| == |b|
    ensures |r| == |a| && forall i :: 0 <= i < |a| ==> r[i] == f(a[i], b[i])
  {
    seq(|a|, i requires 0 <= i < |a| => f(a[i], b[i]))
  }

  function Advanced(f: FlowHead, k: nat, z: seq<Vec>, v: seq<Vec>): (r: seq<Vec>)
    requires |z| == |v|
    ensures |r| == |z| && forall i :: 0 <= i < |z| ==> r[i] == f.advance(k, z[i], v[i])
  {
    seq(|z|, i requires 0 <= i < |z| => f.advance(k, z[i], v[i]))
  }

  /** One guided evaluation over the whole unpadded history. */
  function SoloVelocity(f: FlowHead, history: seq<Vec>, cfgHistory: seq<Vec>, z: seq<Vec>, k: nat): (v: seq<Vec>)
    ensures |v| == |z|
  {
    var zp := MapRows(f.coordinate, z);
    Zip(f.guide, FmVelocity(f.cond(k), history, [], zp), FmVelocity(f.uncond(k), cfgHistory, [], zp))
  }

  /** `z` after the first `k` Euler steps over the whole unpadded history. */
  function SoloFlow(f: FlowHead, history: seq<Vec>, cfgHistory: seq<Vec>, noise: seq<Vec>, k: nat): (z: seq<Vec>)
    ensures |z| == |noise|
  {
    if k == 0 then noise
    else
      var z := SoloFlow(f, history, cfgHistory, noise, k - 1);
      Advanced(f, k - 1, z, SoloVelocity(f, history, cfgHistory, z, k - 1))
  }

  /** The single-branch MeanFlow integrator (guidance is distilled into the stack). */
  function SoloMeanFlow(f: FlowHead, history: seq<Vec>, noise: seq<Vec>, k: nat): (z: seq<Vec>)
    ensures |z| == |noise|
  {
    if k == 0 then noise
    else
      var z := SoloMeanFlow(f, history, noise, k - 1);
      Advanced(f, k - 1, z, FmVelocity(f.cond(k - 1), history, [], MapRows(f.coordinate, z)))
  }

  // ---------------------------------------------------------------- what guidance and the grid amount to

  /** What the arithmetic of rows is assumed to satisfy here, as that of vectors does. */
  ghost predicate Linear(c: FmCore) {
    && (forall a, b :: c.plus(a, c.times(0.0, b)) == a)
    && (forall a, b :: c.plus(a, c.times(-1.0, c.minus(a, b))) == b)
    && (forall a, b :: c.minus(c.plus(a, b), a) == b)
    && (forall a, b, s, t, u :: u == s + t ==>
          c.plus(c.plus(a, c.times(s, b)), c.times(t, b)) == c.plus(a, c.times(u, b)))
  }

  /** Without guidance an evaluation is the pass over the history under the request's condition; at guidance -1
      it is the pass over the unguided history under the null condition. */
  lemma GuidanceEnds(f: FlowHead, history: seq<Vec>, cfgHistory: seq<Vec>, z: seq<Vec>, k: nat)
    requires Linear(f.core) && k < f.numSteps
    ensures var t, d := k as real / f.numSteps as real, 1.0 / f.numSteps as real;
            var zp, v := MapRows(f.core.coordinate, z), SoloVelocity(f, history, cfgHistory, z, k);
            && (f.guidance == 0.0 ==> v == FmVelocity(f.core.stackAt(f.gCond, t, d), history, [], zp))
            && (f.guidance == -1.0 ==> v == FmVelocity(f.core.stackAt(f.core.nullCond, t, d), cfgHistory, [], zp))
  {
    hide FmVelocity;
    SameCoordinates(f, z);
    GridIsEven(f.numSteps, k);
  }

  /** Whatever its scale, guidance moves a velocity by so many times the way from the unguided branch to the
      guided one. */
  lemma GuidanceMoves(f: FlowHead, history: seq<Vec>, cfgHistory: seq<Vec>, z: seq<Vec>, k: nat, i: nat)
    requires Linear(f.core) && i < |z|
    ensures var zp := MapRows(f.coordinate, z);
            var vc, vu := FmVelocity(f.cond(k), history, [], zp)[i], FmVelocity(f.uncond(k), cfgHistory, [], zp)[i];
            f.core.minus(SoloVelocity(f, history, cfgHistory, z, k)[i], vc)
            == f.core.times(f.guidance, f.core.minus(vc, vu))
  {
    hide FmVelocity;
  }

  /** The grid runs from 0 to 1 in equal steps. */
  lemma GridIsEven(n: nat, k: nat)
    requires k < n
    ensures Time(n, 0) == 0.0 && Time(n, n) == 1.0 && Gap(n, k) == 1.0 / n as real
  {
    var a, b := k as real, n as real;
    assert (a + 1.0) / b == a / b + 1.0 / b;
  }

  /** `z` after `k` steps along one and the same velocity. */
  function Drift(f: FlowHead, z: Vec, v: Vec, k: nat): Vec {
    if k == 0 then z else f.advance(k - 1, Drift(f, z, v, k - 1), v)
  }

  /** Along a constant velocity the integrator covers exactly the time that has passed. */
  lemma {:induction false} ConstantDrift(f: FlowHead, z: Vec, v: Vec, k: nat)
    requires Linear(f.core) && k <= f.numSteps
    ensures Drift(f, z, v, k) == f.core.plus(z, f.core.times(Time(f.numSteps, k), v))
    ensures k > 0 && k == f.numSteps ==> Drift(f, z, v, k) == f.core.plus(z, f.core.times(1.0, v))
    decreases k
  {
    hide Linear, Time;
    if k == 0 {
      NoStep(f, z, v);
    } else {
      ConstantDrift(f, z, v, k - 1);
      TwoSteps(f.core, z, v, Time(f.numSteps, k - 1), Gap(f.numSteps, k - 1));
      if k == f.numSteps { GridIsEven(k, 0); }
    }
  }

  /** A network whose velocity does not depend on anything carries every latent row straight to its end. */
  lemma {:induction false} StraightFlow(f: FlowHead, history: seq<Vec>, cfgHistory: seq<Vec>, noise: seq<Vec>,
                                        vc: Vec, vu: Vec, k: nat, i: nat)
    requires i < |noise|
    requires forall j: nat, x :: j < k ==> f.cond(j).output(x) == vc && f.uncond(j).output(x) == vu
    ensures SoloFlow(f, history, cfgHistory, noise, k)[i] == Drift(f, noise[i], f.guide(vc, vu), k)
    ensures SoloMeanFlow(f, history, noise, k)[i] == Drift(f, noise[i], vc, k)
    decreases k
  {
    hide FmVelocity;
    if k > 0 {
      StraightFlow(f, history, cfgHistory, noise, vc, vu, k - 1, i);
      var z := MapRows(f.coordinate, SoloFlow(f, history, cfgHistory, noise, k - 1));
      SameVelocity(f.cond(k - 1), history, z, vc, i);
      SameVelocity(f.uncond(k - 1), cfgHistory, z, vu, i);
      SameVelocity(f.cond(k - 1), history, MapRows(f.coordinate, SoloMeanFlow(f, history, noise, k - 1)), vc, i);
    }
  }

  lemma SameVelocity(s: Stack, history: seq<Vec>, z: seq<Vec>, v: Vec, i: nat)
    requires i < |z| && forall x :: s.output(x) == v
    ensures FmVelocity(s, history, [], z)[i] == v
  {
    hide Hidden, FmPositions, HistoryMask;
  }

  /** So a whole decode adds just that velocity, guided as `GuidanceMoves` says. */
  lemma StraightDecode(f: FlowHead, history: seq<Vec>, cfgHistory: seq<Vec>, noise: seq<Vec>, vc: Vec, vu: Vec, i: nat)
    requires Linear(f.core) && i < |noise| && f.numSteps > 0
    requires forall j: nat, x :: j < f.numSteps ==> f.cond(j).output(x) == vc && f.uncond(j).output(x) == vu
    ensures var c := f.core;
            && SoloMeanFlow(f, history, noise, f.numSteps)[i] == c.plus(noise[i], c.times(1.0, vc))
            && SoloFlow(f, history, cfgHistory, noise, f.numSteps)[i]
               == c.plus(noise[i], c.times(1.0, c.plus(vc, c.times(f.guidance, c.minus(vc, vu)))))
  {
    hide Linear, SoloFlow, SoloMeanFlow, Drift;
    StraightFlow(f, history, cfgHistory, noise, vc, vu, f.numSteps, i);
    ConstantDrift(f, noise[i], f.guide(vc, vu), f.numSteps);
    ConstantDrift(f, noise[i], vc, f.numSteps);
  }

  lemma NoStep(f: FlowHead, z: Vec, v: Vec)
    requires Linear(f.core)
    ensures z == f.core.plus(z, f.core.times(Time(f.numSteps, 0), v))
  {
    assert Time(f.numSteps, 0) == 0.0;
  }

  lemma TwoSteps(c: FmCore, a: Vec, b: Vec, s: real, t: real)
    requires Linear(c)
    ensures c.plus(c.plus(a, c.times(s, b)), c.times(t, b)) == c.plus(a, c.times(s + t, b))
  {
  }

  lemma SameCoordinates(f: FlowHead, z: seq<Vec>)
    ensures MapRows(f.coordinate, z) == MapRows(f.core.coordinate, z)
  {
  }

  // ---------------------------------------------------------------- the DiT on a mask buffer

  ghost predicate HoldsMask(mask: array2<bool>, sees: Mask)
    reads mask
  {
    forall i, j :: 0 <= i < mask.Length0 && 0 <= j < mask.Length1 ==> mask[i, j] == sees(i, j)
  }

  method SeenRow(kv: seq<Vec>, mask: array2<bool>, i: nat, ghost sees: Mask) returns (seen: seq<Vec>)
    requires i < mask.Length0 && |kv| == mask.Length1 && HoldsMask(mask, sees)
    ensures seen == Visible(kv, sees, i)
  {
    seen := [];
    for j := 0 to |kv|
      invariant seen == Visible(kv[..j], sees, i)
    {
      assert kv[..j + 1][..j] == kv[..j];
      if mask[i, j] {
        seen := seen + [kv[j]];
      }
    }
    assert kv[..|kv|] == kv;
  }

  method RunBlock(s: Stack, l: nat, h: seq<Vec>, pos: seq<nat>, mask: array2<bool>, ghost sees: Mask)
    returns (r: seq<Vec>)
    requires |h| == |pos| == mask.Length0 == mask.Length1 && HoldsMask(mask, sees)
    ensures r == Layer(s, l, h, pos, sees)
  {
    var kv := KeyValues(s, l, h, pos);
    r := [];
    for i := 0 to |h|
      invariant |r| == i
      invariant forall j :: 0 <= j < i ==> r[j] == Layer(s, l, h, pos, sees)[j]
    {
      var seen := SeenRow(kv, mask, i, sees);
      r := r + [LayerRow(s, l, h[i], pos[i], seen)];
    }
  }

  /** The DiT forward pass over one batch row. */
  method RunDit(s: Stack, x: seq<Vec>, pos: seq<nat>, mask: array2<bool>, ghost sees: Mask) returns (y: seq<Vec>)
    requires |x| == |pos| == mask.Length0 == mask.Length1 && HoldsMask(mask, sees)
    ensures y == Forward(s, x, pos, sees)
  {
    var h := MapRows(s.input, x);
    for l := 0 to s.depth
      invariant h == Hidden(s, x, pos, sees, l)
    {
      h := RunBlock(s, l, h, pos, mask, sees);
    }
    y := MapRows(s.output, h);
  }

  // ---------------------------------------------------------------- the padded batch

  datatype FmRequest = FmRequest(head: FlowHead, history: seq<Vec>, cfgHistory: seq<Vec>, noise: seq<Vec>)

  datatype FmError = MismatchedParams | EmptyHistory

  predicate Mismatched(a: FlowHead, b: FlowHead, meanflow: bool) {
    if meanflow then a.numSteps != b.numSteps else a.numSteps != b.numSteps || a.guidance != b.guidance
  }

  /** One row of the padded batch. */
  datatype BatchRow = BatchRow(input: seq<Vec>, cfg: seq<Vec>, mask: array2<bool>, pos: seq<nat>, gCond: Vec)

  function Zeros(zero: Vec, n: nat): (r: seq<Vec>)
    ensures |r| == n
  {
    seq(n, _ => zero)
  }

  ghost predicate WellShaped(reqs: seq<FmRequest>, patch: nat) {
    forall i :: 0 <= i < |reqs| ==> |reqs[i].cfgHistory| == |reqs[i].history| && |reqs[i].noise| == patch
  }

  /** The requests of one engine run on one network. */
  ghost predicate OneCore(reqs: seq<FmRequest>) {
    forall i :: 0 <= i < |reqs| ==> reqs[i].head.core == reqs[0].head.core
  }

  /** The batch shares one grid, and one guidance scale unless guidance is in the network. */
  ghost predicate Uniform(reqs: seq<FmRequest>, n: nat, meanflow: bool)
    requires 0 < |reqs| && n <= |reqs|
  {
    && (forall i :: 0 <= i < n ==> reqs[i].head.numSteps == reqs[0].head.numSteps)
    && (meanflow || forall i :: 0 <= i < n ==> reqs[i].head.guidance == reqs[0].head.guidance)
  }

  ghost predicate NonEmpty(reqs: seq<FmRequest>, n: nat)
    requires n <= |reqs|
  {
    forall i :: 0 <= i < n ==> reqs[i].history != []
  }

  ghost predicate IsRow(b: BatchRow, q: FmRequest, maxLen: nat, patch: nat, zero: Vec)
    reads b.mask
  {
    && 0 < |q.history| == |q.cfgHistory| <= maxLen
    && b.input == q.history + Zeros(zero, maxLen - |q.history|) + Zeros(zero, patch)
    && b.cfg == q.cfgHistory + Zeros(zero, maxLen - |q.history|) + Zeros(zero, patch)
    && b.mask.Length0 == b.mask.Length1 == maxLen + patch
    && HoldsMask(b.mask, HistoryMask(|q.history|, maxLen))
    && b.pos == FmPositions(|q.history|, maxLen - |q.history|, patch)
    && b.gCond == q.head.gCond
  }

  ghost predicate IsBatch(batch: seq<BatchRow>, reqs: seq<FmRequest>, maxLen: nat, patch: nat, zero: Vec)
    reads set i | 0 <= i < |batch| :: batch[i].mask
  {
    && |batch| <= |reqs|
    && forall i :: 0 <= i < |batch| ==> IsRow(batch[i], reqs[i], maxLen, patch, zero)
  }

  method PackRow(q: FmRequest, maxLen: nat, patch: nat, zero: Vec) returns (ok: bool, b: BatchRow)
    requires |q.history| == |q.cfgHistory| <= maxLen
    ensures ok == (q.history != [])
    ensures fresh(b.mask)
    ensures ok ==> IsRow(b, q, maxLen, patch, zero)
  {
    var gap := maxLen - |q.history|;
    var mask := new bool[maxLen + patch, maxLen + patch];
    var pos := new nat[maxLen + patch];
    ok := BuildFmAttnMask(|q.history|, patch, mask);
    if ok {
      ok := BuildFmPosIds(|q.history|, patch, pos);
    }
    b := BatchRow(q.history + Zeros(zero, gap) + Zeros(zero, patch),
                  q.cfgHistory + Zeros(zero, gap) + Zeros(zero, patch), mask, pos[..], q.head.gCond);
  }

  /** The least length, of whole buckets if there are buckets, that every history fits in. */
  ghost predicate Fits(reqs: seq<FmRequest>, bucket: nat, maxLen: nat) {
    && (forall i :: 0 <= i < |reqs| ==> |reqs[i].history| <= maxLen)
    && (bucket > 0 ==> maxLen % bucket == 0)
    && (reqs != [] ==> exists i :: 0 <= i < |reqs| && |reqs[i].history| > maxLen - (if bucket > 0 then bucket else 1))
  }

  method CommonLength(reqs: seq<FmRequest>, bucket: nat) returns (maxLen: nat)
    ensures Fits(reqs, bucket, maxLen)
  {
    maxLen := 0;
    for i := 0 to |reqs|
      invariant forall j :: 0 <= j < i ==> |reqs[j].history| <= maxLen
      invariant if i == 0 then maxLen == 0 else exists j :: 0 <= j < i && |reqs[j].history| == maxLen
    {
      if |reqs[i].history| > maxLen {
        maxLen := |reqs[i].history|;
      }
    }
    if bucket > 0 {
      RoundUpAtLeast(maxLen, bucket);
      maxLen := (maxLen + bucket - 1) / bucket * bucket;
    }
  }

  lemma RoundUpAtLeast(n: nat, b: nat)
    requires b > 0
    ensures n <= (n + b - 1) / b * b < n + b && (n + b - 1) / b * b % b == 0
  {
    var q := (n + b - 1) / b;
    assert n + b - 1 == q * b + (n + b - 1) % b;
    ModIs(q * b, b, q, 0);
  }

  method CheckUniform(reqs: seq<FmRequest>, meanflow: bool) returns (ok: bool)
    requires |reqs| > 0
    ensures ok <==> Uniform(reqs, |reqs|, meanflow)
  {
    for i := 0 to |reqs|
      invariant Uniform(reqs, i, meanflow)
    {
      if Mismatched(reqs[i].head, reqs[0].head, meanflow) {
        return false;
      }
    }
    return true;
  }

  method PackFmInputs(reqs: seq<FmRequest>, patch: nat, bucket: nat, meanflow: bool, zero: Vec)
    returns (r: Result<seq<BatchRow>, FmError>, maxLen: nat)
    requires |reqs| > 0 && WellShaped(reqs, patch)
    ensures r == Err(MismatchedParams) <==> !Uniform(reqs, |reqs|, meanflow)
    ensures r == Err(EmptyHistory) <==> Uniform(reqs, |reqs|, meanflow) && !NonEmpty(reqs, |reqs|)
    ensures r.Ok? ==> |r.value| == |reqs| && IsBatch(r.value, reqs, maxLen, patch, zero) && Fits(reqs, bucket, maxLen)
  {
    hide FmPositions, HistoryMask;
    maxLen := CommonLength(reqs, bucket);
    var uniform := CheckUniform(reqs, meanflow);
    if !uniform {
      return Err(MismatchedParams), maxLen;
    }
    var ok, batch := PackBatch(reqs, maxLen, patch, zero);
    r := if ok then Ok(batch) else Err(EmptyHistory);
  }

  method PackBatch(reqs: seq<FmRequest>, maxLen: nat, patch: nat, zero: Vec) returns (ok: bool, batch: seq<BatchRow>)
    requires WellShaped(reqs, patch) && forall i :: 0 <= i < |reqs| ==> |reqs[i].history| <= maxLen
    ensures ok <==> NonEmpty(reqs, |reqs|)
    ensures ok ==> |batch| == |reqs| && IsBatch(batch, reqs, maxLen, patch, zero)
  {
    hide FmPositions, HistoryMask;
    batch := [];
    for i := 0 to |reqs|
      invariant |batch| == i && NonEmpty(reqs, i)
      invariant IsBatch(batch, reqs, maxLen, patch, zero)
    {
      var b;
      ok, b := PackRow(reqs[i], maxLen, patch, zero);
      if !ok {
        return;
      }
      batch := batch + [b];
    }
    ok := true;
  }

  /** One evaluation for one branch of one batch row: overwrite the latent slot, run, read it. */
  method BranchVelocity(s: Stack, row: seq<Vec>, latentStart: nat, zp: seq<Vec>, pos: seq<nat>, mask: array2<bool>,
                        ghost history: seq<Vec>, ghost pad: seq<Vec>)
    returns (v: seq<Vec>)
    requires history != [] && latentStart == |history| + |pad|
    requires |row| == latentStart + |zp| && row[..latentStart] == history + pad
    requires pos == FmPositions(|history|, |pad|, |zp|)
    requires mask.Length0 == mask.Length1 == |row| && HoldsMask(mask, HistoryMask(|history|, latentStart))
    ensures v == FmVelocity(s, history, [], zp)
  {
    hide Hidden, HistoryMask, FmPositions;
    var z := row[..latentStart] + zp;
    var y := RunDit(s, z, pos, mask, HistoryMask(|history|, latentStart));
    v := y[latentStart..];
    VelocityIgnoresPadding(s, history, pad, zp);
  }

  /** What request `q` gets on its own and unpadded after `k` steps. */
  function Solo(q: FmRequest, meanflow: bool, k: nat): (z: seq<Vec>)
    ensures |z| == |q.noise|
  {
    if meanflow then SoloMeanFlow(q.head, q.history, q.noise, k)
    else SoloFlow(q.head, q.history, q.cfgHistory, q.noise, k)
  }

  ghost predicate AllSolo(z: seq<seq<Vec>>, reqs: seq<FmRequest>, meanflow: bool, k: nat) {
    && |z| <= |reqs|
    && forall i :: 0 <= i < |z| ==> z[i] == Solo(reqs[i], meanflow, k)
  }

  /** The padded batch, integrated together, gives every request exactly what it gets alone and
      unpadded; it raises exactly on mixed decode parameters or an empty history. */
  method FullFm(reqs: seq<FmRequest>, patch: nat, bucket: nat, meanflow: bool, zero: Vec)
    returns (r: Result<seq<seq<Vec>>, FmError>)
    requires |reqs| > 0 && WellShaped(reqs, patch) && OneCore(reqs)
    ensures r.Ok? <==> Uniform(reqs, |reqs|, meanflow) && NonEmpty(reqs, |reqs|)
    ensures r.Ok? ==> |r.value| == |reqs|
    ensures r.Ok? ==> forall i :: 0 <= i < |reqs| ==> r.value[i] == Solo(reqs[i], meanflow, reqs[i].head.numSteps)
  {
    var packed, maxLen := PackFmInputs(reqs, patch, bucket, meanflow, zero);
    if packed.Err? {
      assert packed.error == MismatchedParams || packed.error == EmptyHistory;
      return Err(packed.error);
    }
    forall i | 0 <= i < |reqs|
      ensures SharesParams(reqs[i].head, reqs[0].head, meanflow)
    {
      assert !Mismatched(reqs[i].head, reqs[0].head, meanflow);
    }
    forall i | 0 <= i < |reqs|
      ensures reqs[i].history != []
    {
      assert IsRow(packed.value[i], reqs[i], maxLen, patch, zero);
    }
    var z: seq<seq<Vec>>;
    if meanflow {
      z := BatchedMeanFlow(reqs[0].head, packed.value, Noises(reqs), maxLen, patch, reqs, zero);
    } else {
      z := BatchedFlowMatching(reqs[0].head, packed.value, Noises(reqs), maxLen, patch, reqs, zero);
    }
    r := Ok(z);
  }

  /** `q` decodes as `p` would but for its condition; the guidance of MeanFlow is in the network. */
  ghost predicate SharesParams(q: FlowHead, p: FlowHead, meanflow: bool) {
    q.core == p.core && !Mismatched(q, p, meanflow)
  }

  /** The padded batch `batch` of `reqs`, all of which share the parameters of `p`. */
  ghost predicate SharedBatch(p: FlowHead, batch: seq<BatchRow>, reqs: seq<FmRequest>, maxLen: nat, patch: nat,
                              zero: Vec, meanflow: bool)
    reads set i | 0 <= i < |batch| :: batch[i].mask
  {
    && |batch| == |reqs| && WellShaped(reqs, patch)
    && IsBatch(batch, reqs, maxLen, patch, zero)
    && forall i :: 0 <= i < |reqs| ==> SharesParams(reqs[i].head, p, meanflow)
  }

  function Noises(reqs: seq<FmRequest>): (z: seq<seq<Vec>>)
    ensures |z| == |reqs| && forall i :: 0 <= i < |reqs| ==> z[i] == reqs[i].noise
  {
    if reqs == [] then [] else Noises(reqs[..|reqs| - 1]) + [reqs[|reqs| - 1].noise]
  }

  /** The MeanFlow loop: one grid, that of `p`, for every row of the batch. */
  method BatchedMeanFlow(p: FlowHead, batch: seq<BatchRow>, noise: seq<seq<Vec>>, maxLen: nat, patch: nat,
                         ghost reqs: seq<FmRequest>, ghost zero: Vec)
    returns (z: seq<seq<Vec>>)
    requires SharedBatch(p, batch, reqs, maxLen, patch, zero, true)
    requires noise == Noises(reqs)
    ensures |z| == |reqs| && AllSolo(z, reqs, true, p.numSteps)
  {
    z := noise;
    for k := 0 to p.numSteps
      invariant |z| == |reqs| && AllSolo(z, reqs, true, k)
    {
      z := MeanFlowStep(p, batch, z, maxLen, patch, k, reqs, zero);
    }
  }

  method MeanFlowStep(p: FlowHead, batch: seq<BatchRow>, z: seq<seq<Vec>>, maxLen: nat, patch: nat, k: nat,
                      ghost reqs: seq<FmRequest>, ghost zero: Vec)
    returns (next: seq<seq<Vec>>)
    requires SharedBatch(p, batch, reqs, maxLen, patch, zero, true)
    requires |z| == |reqs| && AllSolo(z, reqs, true, k)
    ensures |next| == |reqs| && AllSolo(next, reqs, true, k + 1)
  {
    hide SoloFlow, SoloMeanFlow, Solo, FmPositions, HistoryMask;
    next := [];
    for i := 0 to |batch|
      invariant |next| == i && AllSolo(next, reqs, true, k + 1)
    {
      var zi := MeanFlowRow(p, batch[i], z[i], maxLen, patch, k, reqs[i], zero);
      next := next + [zi];
    }
  }

  method MeanFlowRow(p: FlowHead, b: BatchRow, z: seq<Vec>, maxLen: nat, patch: nat, k: nat,
                     ghost q: FmRequest, ghost zero: Vec)
    returns (next: seq<Vec>)
    requires IsRow(b, q, maxLen, patch, zero) && SharesParams(q.head, p, true)
    requires |q.noise| == patch && z == Solo(q, true, k)
    ensures next == Solo(q, true, k + 1)
  {
    ghost var pad := Zeros(zero, maxLen - |q.history|);
    assert b.input[..maxLen] == q.history + pad;
    var zp := MapRows(p.core.coordinate, z);
    SameCoordinates(q.head, z);
    var net := p.core.stackAt(b.gCond, Time(p.numSteps, k), Gap(p.numSteps, k));
    var v := BranchVelocity(net, b.input, maxLen, zp, b.pos, b.mask, q.history, pad);
    next := Advanced(p, k, z, v);
    assert next == Advanced(q.head, k, z, v);
  }

  /** The guided Euler loop: one grid and one guidance scale, those of `p`, for every row of the batch. */
  method BatchedFlowMatching(p: FlowHead, batch: seq<BatchRow>, noise: seq<seq<Vec>>, maxLen: nat, patch: nat,
                             ghost reqs: seq<FmRequest>, ghost zero: Vec)
    returns (z: seq<seq<Vec>>)
    requires SharedBatch(p, batch, reqs, maxLen, patch, zero, false)
    requires noise == Noises(reqs)
    ensures |z| == |reqs| && AllSolo(z, reqs, false, p.numSteps)
  {
    z := noise;
    for k := 0 to p.numSteps
      invariant |z| == |reqs| && AllSolo(z, reqs, false, k)
    {
      z := FlowStep(p, batch, z, maxLen, patch, k, reqs, zero);
    }
  }

  method FlowStep(p: FlowHead, batch: seq<BatchRow>, z: seq<seq<Vec>>, maxLen: nat, patch: nat, k: nat,
                  ghost reqs: seq<FmRequest>, ghost zero: Vec)
    returns (next: seq<seq<Vec>>)
    requires SharedBatch(p, batch, reqs, maxLen, patch, zero, false)
    requires |z| == |reqs| && AllSolo(z, reqs, false, k)
    ensures |next| == |reqs| && AllSolo(next, reqs, false, k + 1)
  {
    hide SoloFlow, SoloMeanFlow, Solo, FmVelocity;
    var vt := StackedVelocities(p, batch, z, maxLen, patch, k, reqs, zero);
    next := [];
    for i := 0 to |batch|
      invariant |next| == i && AllSolo(next, reqs, false, k + 1)
    {
      var zi := GuidedStep(p, z[i], vt[i], vt[|batch| + i], k, reqs[i]);
      next := next + [zi];
    }
  }

  /** The Euler update of one request from its two branch velocities. */
  method GuidedStep(p: FlowHead, z: seq<Vec>, vc: seq<Vec>, vu: seq<Vec>, k: nat, ghost q: FmRequest)
    returns (next: seq<Vec>)
    requires SharesParams(q.head, p, false)
    requires IsBranch(vc, q, z, k, true) && IsBranch(vu, q, z, k, false)
    ensures z == Solo(q, false, k) ==> next == Solo(q, false, k + 1)
  {
    var v := Zip(p.guide, vc, vu);
    assert v == Zip(q.head.guide, vc, vu);
    next := Advanced(p, k, z, v);
    assert next == Advanced(q.head, k, z, v);
  }

  /** `v` is the full unpadded velocity of one guidance branch of `q` at step `k`. */
  ghost predicate IsBranch(v: seq<Vec>, q: FmRequest, z: seq<Vec>, k: nat, cond: bool) {
    v == if cond then FmVelocity(q.head.cond(k), q.history, [], MapRows(q.head.coordinate, z))
    else FmVelocity(q.head.uncond(k), q.cfgHistory, [], MapRows(q.head.coordinate, z))
  }

  method RowVelocity(p: FlowHead, b: BatchRow, z: seq<Vec>, maxLen: nat, k: nat, cond: bool,
                     ghost q: FmRequest, ghost zero: Vec)
    returns (v: seq<Vec>)
    requires IsRow(b, q, maxLen, |z|, zero) && SharesParams(q.head, p, false)
    ensures IsBranch(v, q, z, k, cond)
  {
    ghost var pad := Zeros(zero, maxLen - |q.history|);
    var zp := MapRows(p.core.coordinate, z);
    SameCoordinates(q.head, z);
    var net := p.core.stackAt(if cond then b.gCond else p.core.nullCond, Time(p.numSteps, k), Gap(p.numSteps, k));
    if cond {
      assert b.input[..maxLen] == q.history + pad;
      v := BranchVelocity(net, b.input, maxLen, zp, b.pos, b.mask, q.history, pad);
    } else {
      assert b.cfg[..maxLen] == q.cfgHistory + pad;
      v := BranchVelocity(net, b.cfg, maxLen, zp, b.pos, b.mask, q.cfgHistory, pad);
    }
  }

  /** One evaluation of the doubled batch: conditioned rows first, then unconditioned ones. */
  method StackedVelocities(p: FlowHead, batch: seq<BatchRow>, z: seq<seq<Vec>>, maxLen: nat, patch: nat, k: nat,
                           ghost reqs: seq<FmRequest>, ghost zero: Vec)
    returns (vt: seq<seq<Vec>>)
    requires SharedBatch(p, batch, reqs, maxLen, patch, zero, false)
    requires |z| == |reqs| && forall i :: 0 <= i < |z| ==> |z[i]| == patch
    ensures |vt| == 2 * |reqs|
    ensures forall i :: 0 <= i < |reqs| ==> IsBranch(vt[i], reqs[i], z[i], k, true)
    ensures forall i :: 0 <= i < |reqs| ==> IsBranch(vt[|reqs| + i], reqs[i], z[i], k, false)
  {
    hide FmVelocity, FmPositions, HistoryMask;
    var vc := BranchVelocities(p, batch, z, maxLen, patch, k, true, reqs, zero);
    var vu := BranchVelocities(p, batch, z, maxLen, patch, k, false, reqs, zero);
    vt := vc + vu;
  }

  method BranchVelocities(p: FlowHead, batch: seq<BatchRow>, z: seq<seq<Vec>>, maxLen: nat, patch: nat, k: nat,
                          cond: bool, ghost reqs: seq<FmRequest>, ghost zero: Vec)
    returns (vs: seq<seq<Vec>>)
    requires SharedBatch(p, batch, reqs, maxLen, patch, zero, false)
    requires |z| == |reqs| && forall i :: 0 <= i < |z| ==> |z[i]| == patch
    ensures |vs| == |reqs| && forall i :: 0 <= i < |reqs| ==> IsBranch(vs[i], reqs[i], z[i], k, cond)
  {
    hide FmVelocity, FmPositions, HistoryMask;
    vs := [];
    for i := 0 to |batch|
      invariant |vs| == i && forall j :: 0 <= j < i ==> IsBranch(vs[j], reqs[j], z[j], k, cond)
    {
      var v := RowVelocity(p, batch[i], z[i], maxLen, k, cond, reqs[i], zero);
      vs := vs + [v];
    }
  }
}
