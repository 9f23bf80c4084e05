/** The causal vocoder decoder over abstract samples: what each layer reads, and that a window of the
    input gives the same samples as the whole input wherever the left context is inside the window.
 */
module Decoder {
  import opened ReceptiveField

  type Sample(!new, ==)

  /** Sample `i`, or `zero` outside the signal (zero padding). */
  function At(zero: Sample, x: seq<Sample>, i: int): Sample {
    if 0 <= i < |x| then x[i] else zero
  }

  // ---------------------------------------------------------------- layers

  /** A stride-1 convolution: its taps and what it makes of them. */
  datatype Conv = Conv(kernel: nat, dilation: nat, mix: seq<Sample> -> Sample) {
    function Causal(): nat
      requires kernel > 0
    {
      dilation * (kernel - 1)
    }
  }

  /** A transposed convolution with kernel 2 * stride, its last stride of samples cut off. */
  datatype UpConv = UpConv(stride: nat, mix: (nat, Sample, Sample) -> Sample)

  /** An alias-free activation: transposed filter up, pointwise, replicate-padded filter down. */
  datatype Activation = Activation(ratio: nat, upKernel: nat, downKernel: nat,
                                   up: (nat, seq<Sample>) -> Sample, act: Sample -> Sample, down: seq<Sample> -> Sample)

  datatype Elem = Act(a: Activation) | Cnv(c: Conv)

  /** Residual branches one after the other: x + branch(x). */
  datatype AmpBlock = AmpBlock(branches: seq<seq<Elem>>, add: (Sample, Sample) -> Sample)

  /** Upsampling layers, then blocks in parallel, averaged. */
  datatype Stage = Stage(ups: seq<UpConv>, blocks: seq<AmpBlock>, mean: seq<Sample> -> Sample)

  datatype Net = Net(zero: Sample, pre: Conv, stages: seq<Stage>, postAct: Activation, postConv: Conv,
                     bound: Sample -> Sample)

  predicate ElemOk(e: Elem) {
    match e
    case Act(a) => 0 < a.ratio < a.upKernel && 0 < a.downKernel
    case Cnv(c) => c.kernel > 0
  }

  predicate BlockOk(b: AmpBlock) {
    forall i, j :: 0 <= i < |b.branches| && 0 <= j < |b.branches[i]| ==> ElemOk(b.branches[i][j])
  }

  predicate StageOk(st: Stage) {
    && (forall i :: 0 <= i < |st.ups| ==> st.ups[i].stride > 0)
    && st.blocks != [] && forall i :: 0 <= i < |st.blocks| ==> BlockOk(st.blocks[i])
  }

  predicate NetOk(d: Net) {
    && d.pre.kernel % 2 == 1 && d.pre.dilation == 1
    && (forall i :: 0 <= i < |d.stages| ==> StageOk(d.stages[i]))
    && ElemOk(Act(d.postAct)) && d.postConv.kernel == 7 && d.postConv.dilation == 1
  }

  // ---------------------------------------------------------------- forward

  function ConvSample(zero: Sample, c: Conv, left: int, x: seq<Sample>, t: int): Sample {
    c.mix(seq(c.kernel, j requires 0 <= j => At(zero, x, t + j * c.dilation - left)))
  }

  function RunConv(zero: Sample, c: Conv, left: int, x: seq<Sample>): (y: seq<Sample>)
    ensures |y| == |x|
  {
    seq(|x|, t requires 0 <= t => ConvSample(zero, c, left, x, t))
  }

  function UpSample(zero: Sample, u: UpConv, x: seq<Sample>, n: nat): Sample
    requires u.stride > 0
  {
    u.mix(n % u.stride, At(zero, x, n / u.stride - 1), At(zero, x, n / u.stride))
  }

  function RunUp(zero: Sample, u: UpConv, x: seq<Sample>): (y: seq<Sample>)
    requires u.stride > 0
    ensures |y| == |x| * u.stride
  {
    seq(|x| * u.stride, n requires 0 <= n => UpSample(zero, u, x, n))
  }

  /** How many inputs reach upsampled position of phase `phase`. */
  function UpTaps(a: Activation, phase: nat): nat
    requires 0 < a.ratio < a.upKernel && phase < a.ratio
  {
    (a.upKernel - 1 - phase) / a.ratio + 1
  }

  function UpRead(zero: Sample, x: seq<Sample>, q: int, n: nat): (r: seq<Sample>)
    ensures |r| == n
  {
    seq(n, j requires 0 <= j => At(zero, x, q - j))
  }

  function ActUpSample(zero: Sample, a: Activation, x: seq<Sample>, m: nat): Sample
    requires 0 < a.ratio < a.upKernel
  {
    a.act(a.up(m % a.ratio, UpRead(zero, x, m / a.ratio, UpTaps(a, m % a.ratio))))
  }

  function ActUp(zero: Sample, a: Activation, x: seq<Sample>): (y: seq<Sample>)
    requires 0 < a.ratio < a.upKernel
    ensures |y| == |x| * a.ratio
  {
    seq(|x| * a.ratio, m requires 0 <= m => ActUpSample(zero, a, x, m))
  }

  function Max(a: int, b: int): int {
    if a >= b then a else b
  }

  /** What the filter reads at position `at`: replicate padding on the left. */
  function DownRead(zero: Sample, a: Activation, y: seq<Sample>, at: int): (r: seq<Sample>)
    ensures |r| == a.downKernel
  {
    seq(a.downKernel, j requires 0 <= j => At(zero, y, Max(0, at + j - (a.downKernel - 1))))
  }

  /** Output `t` of the lowpass filter with stride `ratio`. */
  function ActDownSample(zero: Sample, a: Activation, y: seq<Sample>, t: int): Sample {
    a.down(DownRead(zero, a, y, t * a.ratio))
  }

  function RunAct(zero: Sample, a: Activation, x: seq<Sample>): (y: seq<Sample>)
    requires 0 < a.ratio < a.upKernel
    ensures |y| == |x|
  {
    var up := ActUp(zero, a, x);
    seq(|x|, t requires 0 <= t => ActDownSample(zero, a, up, t))
  }

  function RunElem(zero: Sample, e: Elem, x: seq<Sample>): (y: seq<Sample>)
    requires ElemOk(e)
    ensures |y| == |x|
  {
    match e
    case Act(a) => RunAct(zero, a, x)
    case Cnv(c) => RunConv(zero, c, c.Causal(), x)
  }

  function RunBranch(zero: Sample, es: seq<Elem>, x: seq<Sample>): (y: seq<Sample>)
    requires forall i :: 0 <= i < |es| ==> ElemOk(es[i])
    ensures |y| == |x|
  {
    if es == [] then x else RunBranch(zero, es[1..], RunElem(zero, es[0], x))
  }

  function Added(add: (Sample, Sample) -> Sample, a: seq<Sample>, b: seq<Sample>): (y: seq<Sample>)
    requires |a| == |b|
    ensures |y| == |a|
  {
    seq(|a|, i requires 0 <= i < |a| => add(a[i], b[i]))
  }

  function RunBranches(zero: Sample, add: (Sample, Sample) -> Sample, bs: seq<seq<Elem>>,
                       x: seq<Sample>): (y: seq<Sample>)
    requires forall i, j :: 0 <= i < |bs| && 0 <= j < |bs[i]| ==> ElemOk(bs[i][j])
    ensures |y| == |x|
  {
    if bs == [] then x else RunBranches(zero, add, bs[1..], Added(add, RunBranch(zero, bs[0], x), x))
  }

  function RunBlock(zero: Sample, b: AmpBlock, x: seq<Sample>): (y: seq<Sample>)
    requires BlockOk(b)
    ensures |y| == |x|
  {
    RunBranches(zero, b.add, b.branches, x)
  }

  function RunUps(zero: Sample, us: seq<UpConv>, x: seq<Sample>): seq<Sample>
    requires forall i :: 0 <= i < |us| ==> us[i].stride > 0
  {
    if us == [] then x else RunUps(zero, us[1..], RunUp(zero, us[0], x))
  }

  /** The mean over the blocks, sample by sample. */
  function RunBlocks(zero: Sample, st: Stage, x: seq<Sample>): (y: seq<Sample>)
    requires StageOk(st)
    ensures |y| == |x|
  {
    seq(|x|, i requires 0 <= i < |x| =>
      st.mean(seq(|st.blocks|, j requires 0 <= j < |st.blocks| => assert BlockOk(st.blocks[j]);
                  RunBlock(zero, st.blocks[j], x)[i])))
  }

  function RunStages(zero: Sample, sts: seq<Stage>, x: seq<Sample>): seq<Sample>
    requires forall i :: 0 <= i < |sts| ==> StageOk(sts[i])
  {
    if sts == [] then x
    else
      assert StageOk(sts[0]);
      RunStages(zero, sts[1..], RunBlocks(zero, sts[0], RunUps(zero, sts[0].ups, x)))
  }

  function Mapped(f: Sample -> Sample, x: seq<Sample>): (y: seq<Sample>)
    ensures |y| == |x| && forall i :: 0 <= i < |x| ==> y[i] == f(x[i])
  {
    seq(|x|, i requires 0 <= i < |x| => f(x[i]))
  }

  function Lookahead(d: Net): nat
    requires d.pre.kernel > 0
  {
    (d.pre.kernel - 1) / 2
  }

  /** The decoder's forward pass. */
  function Decode(d: Net, z: seq<Sample>): seq<Sample>
    requires NetOk(d)
  {
    var x := RunConv(d.zero, d.pre, Lookahead(d), z);
    var y := RunStages(d.zero, d.stages, x);
    Mapped(d.bound, RunConv(d.zero, d.postConv, d.postConv.Causal(), RunAct(d.zero, d.postAct, y)))
  }

  // ---------------------------------------------------------------- left contexts

  /** How far back an activation is taken to read. */
  type Context = Activation -> nat

  /** What the decoder computes for an activation: both filters, rounded up to whole samples. */
  function ActContext(a: Activation): nat {
    if a.ratio > 0 && a.upKernel > 0 && a.downKernel > 0 then
      (a.upKernel - 1 + (a.downKernel - 1) + a.ratio - 1) / a.ratio
    else 0
  }

  /** What an activation reads: both filters, in whole samples. */
  function ActReach(a: Activation): nat {
    if a.ratio > 0 && a.upKernel > 0 && a.downKernel > 0 then (a.upKernel - 1 + (a.downKernel - 1)) / a.ratio else 0
  }

  function ElemContext(ctx: Context, e: Elem): nat
    requires ElemOk(e)
  {
    match e
    case Act(a) => ctx(a)
    case Cnv(c) => c.Causal()
  }

  function BranchContext(ctx: Context, es: seq<Elem>): nat
    requires forall i :: 0 <= i < |es| ==> ElemOk(es[i])
  {
    if es == [] then 0 else ElemContext(ctx, es[0]) + BranchContext(ctx, es[1..])
  }

  function BranchesContext(ctx: Context, bs: seq<seq<Elem>>): nat
    requires forall i, j :: 0 <= i < |bs| && 0 <= j < |bs[i]| ==> ElemOk(bs[i][j])
  {
    if bs == [] then 0 else BranchContext(ctx, bs[0]) + BranchesContext(ctx, bs[1..])
  }

  function BlockContext(ctx: Context, b: AmpBlock): nat
    requires BlockOk(b)
  {
    BranchesContext(ctx, b.branches)
  }

  /** The largest context of the blocks, which one of them has. */
  function StageContext(ctx: Context, blocks: seq<AmpBlock>): (c: nat)
    requires blocks != [] && forall i :: 0 <= i < |blocks| ==> BlockOk(blocks[i])
    ensures forall i :: 0 <= i < |blocks| ==> BlockContext(ctx, blocks[i]) <= c
    ensures exists i :: 0 <= i < |blocks| && BlockContext(ctx, blocks[i]) == c
  {
    if |blocks| == 1 then BlockContext(ctx, blocks[0])
    else Max(BlockContext(ctx, blocks[0]), StageContext(ctx, blocks[1..]))
  }

  // ---------------------------------------------------------------- the decoder as a list of reaches

  function UpReaches(us: seq<UpConv>): (r: seq<Reach>)
    requires forall i :: 0 <= i < |us| ==> us[i].stride > 0
    ensures Proper(r)
  {
    if us == [] then [] else [Upsample(us[0].stride)] + UpReaches(us[1..])
  }

  function StageReaches(ctx: Context, sts: seq<Stage>): (r: seq<Reach>)
    requires forall i :: 0 <= i < |sts| ==> StageOk(sts[i])
    ensures Proper(r)
  {
    if sts == [] then []
    else
      assert StageOk(sts[0]);
      UpReaches(sts[0].ups) + [Shift(StageContext(ctx, sts[0].blocks))] + StageReaches(ctx, sts[1..])
  }

  function PostReaches(ctx: Context, d: Net): (r: seq<Reach>)
    requires NetOk(d)
    ensures Proper(r)
  {
    [Shift(ctx(d.postAct)), Shift(d.postConv.Causal())]
  }

  function ReachesBy(ctx: Context, d: Net): (r: seq<Reach>)
    requires NetOk(d)
    ensures Proper(r)
  {
    [Shift(Lookahead(d))] + (StageReaches(ctx, d.stages) + PostReaches(ctx, d))
  }

  /** As the decoder computes them. */
  function Reaches(d: Net): (r: seq<Reach>)
    requires NetOk(d)
    ensures Proper(r)
  {
    ReachesBy(ActContext, d)
  }

  /** As its layers read. */
  function ExactReaches(d: Net): (r: seq<Reach>)
    requires NetOk(d)
    ensures Proper(r)
  {
    ReachesBy(ActReach, d)
  }

  /** The left context in frames, accumulated as an exact fraction with one final ceiling. */
  method StreamLeftContext(d: Net) returns (c: int)
    requires NetOk(d)
    ensures c == LeftContext(Reaches(d))
  {
    var left := Fraction(0, 1).Add(Fraction(1, 1).Times(Lookahead(d)));
    var scale := Fraction(1, 1);
    ghost var rs, post := Reaches(d), PostReaches(ActContext, d);
    ghost var first, rest := Fraction(0, 1), StageReaches(ActContext, d.stages) + post;
    AccumulateShift(Lookahead(d), rest, first, scale);
    for i := 0 to |d.stages|
      invariant Accumulate(rs, first, Fraction(1, 1))
                == Accumulate(StageReaches(ActContext, d.stages[i..]) + post, left, scale)
    {
      assert d.stages[i..][1..] == d.stages[i + 1..] && StageOk(d.stages[i]);
      StageReachesStep(d.stages[i..], post);
      left, scale := AddStage(d.stages[i], left, scale, StageReaches(ActContext, d.stages[i + 1..]) + post);
    }
    assert StageReaches(ActContext, d.stages[|d.stages|..]) + post == post;
    AccumulateShift(ActContext(d.postAct), [Shift(d.postConv.Causal())], left, scale);
    left := left.Add(scale.Times(ActContext(d.postAct)));
    AccumulateShift(d.postConv.Causal(), [], left, scale);
    left := left.Add(scale.Times(d.postConv.Causal()));
    SingleCeilingIsNested(rs, 0);
    c := left.Ceil();
  }

  lemma AccumulateShift(c: nat, rest: seq<Reach>, left: Fraction, scale: Fraction)
    ensures Accumulate([Shift(c)] + rest, left, scale) == Accumulate(rest, left.Add(scale.Times(c)), scale)
  {
    assert ([Shift(c)] + rest)[1..] == rest;
  }

  lemma StageReachesStep(sts: seq<Stage>, after: seq<Reach>)
    requires sts != [] && forall i :: 0 <= i < |sts| ==> StageOk(sts[i])
    ensures StageOk(sts[0])
    ensures StageReaches(ActContext, sts) + after
            == UpReaches(sts[0].ups) + ([Shift(StageContext(ActContext, sts[0].blocks))]
                                        + (StageReaches(ActContext, sts[1..]) + after))
  {
    hide UpReaches, StageContext, Proper;
    Regroup(UpReaches(sts[0].ups), [Shift(StageContext(ActContext, sts[0].blocks))],
            StageReaches(ActContext, sts[1..]), after);
  }

  lemma Regroup<T>(a: seq<T>, b: seq<T>, c: seq<T>, d: seq<T>)
    ensures a + b + c + d == a + (b + (c + d))
  {
  }

  method AddStage(st: Stage, left: Fraction, scale: Fraction, ghost after: seq<Reach>)
    returns (left': Fraction, scale': Fraction)
    requires StageOk(st)
    ensures Accumulate(UpReaches(st.ups) + ([Shift(StageContext(ActContext, st.blocks))] + after), left, scale)
            == Accumulate(after, left', scale')
  {
    left', scale' := AddUps(st.ups, left, scale, [Shift(StageContext(ActContext, st.blocks))] + after);
    AccumulateShift(StageContext(ActContext, st.blocks), after, left', scale');
    left' := left'.Add(scale'.Times(StageContext(ActContext, st.blocks)));
  }

  method AddUps(us: seq<UpConv>, left: Fraction, scale: Fraction, ghost after: seq<Reach>)
    returns (left': Fraction, scale': Fraction)
    requires forall i :: 0 <= i < |us| ==> us[i].stride > 0
    ensures Accumulate(UpReaches(us) + after, left, scale) == Accumulate(after, left', scale')
  {
    left', scale' := left, scale;
    for i := 0 to |us|
      invariant Accumulate(UpReaches(us) + after, left, scale) == Accumulate(UpReaches(us[i..]) + after, left', scale')
    {
      ghost var rs := UpReaches(us[i..]) + after;
      assert us[i..][1..] == us[i + 1..];
      assert rs[1..] == UpReaches(us[i + 1..]) + after;
      left' := left'.Add(scale'.Times(1));
      scale' := scale'.DivideBy(us[i].stride);
    }
    assert UpReaches(us[|us|..]) + after == after;
  }
}
