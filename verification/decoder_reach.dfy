/** The streamed decoder needs all of its left context and all of its lookahead.  Whatever the weights, a window of
    that size decodes to the right samples; and there are weights, for every decoder shape, that pass on just the
    oldest sample every layer reads, or just the newest, so no smaller window does.
 */
module DecoderReach {
  import opened Arithmetic
  import opened Decoder
  import opened DecoderLocality
  import opened ReceptiveField

  // ---------------------------------------------------------------- decoders of one shape

  type Relation = (Activation, Activation) -> bool

  predicate SameFilters(a: Activation, a': Activation) {
    a.ratio == a'.ratio && a.upKernel == a'.upKernel && a.downKernel == a'.downKernel
  }

  /** The same filters, which together are whole samples long. */
  predicate WholeFilters(a: Activation, a': Activation) {
    SameFilters(a, a') && a.ratio > 0 && (a.upKernel - 1 + (a.downKernel - 1)) % a.ratio == 0
  }

  predicate SameConv(c: Conv, c': Conv) {
    c.kernel == c'.kernel && c.dilation == c'.dilation
  }

  predicate AlikeElem(same: Relation, e: Elem, e': Elem) {
    match (e, e')
    case (Act(a), Act(a')) => same(a, a')
    case (Cnv(c), Cnv(c')) => SameConv(c, c')
    case _ => false
  }

  predicate AlikeBranch(same: Relation, es: seq<Elem>, es': seq<Elem>) {
    |es| == |es'| && forall i :: 0 <= i < |es| ==> AlikeElem(same, es[i], es'[i])
  }

  predicate AlikeBranches(same: Relation, bs: seq<seq<Elem>>, bs': seq<seq<Elem>>) {
    |bs| == |bs'| && forall i :: 0 <= i < |bs| ==> AlikeBranch(same, bs[i], bs'[i])
  }

  predicate AlikeStage(same: Relation, st: Stage, st': Stage) {
    && |st.ups| == |st'.ups| && (forall i :: 0 <= i < |st.ups| ==> st.ups[i].stride == st'.ups[i].stride)
    && |st.blocks| == |st'.blocks|
    && forall i :: 0 <= i < |st.blocks| ==> AlikeBranches(same, st.blocks[i].branches, st'.blocks[i].branches)
  }

  predicate AlikeStages(same: Relation, sts: seq<Stage>, sts': seq<Stage>) {
    |sts| == |sts'| && forall i :: 0 <= i < |sts| ==> AlikeStage(same, sts[i], sts'[i])
  }

  predicate Alike(same: Relation, d: Net, d': Net) {
    && SameConv(d.pre, d'.pre) && AlikeStages(same, d.stages, d'.stages)
    && same(d.postAct, d'.postAct) && SameConv(d.postConv, d'.postConv)
  }

  /** The same layers with any weights. */
  predicate SameShape(d: Net, d': Net) {
    Alike(SameFilters, d, d')
  }

  ghost predicate Equates(same: Relation, c: Context, c': Context) {
    forall a: Activation, a': Activation :: same(a, a') ==> c(a) == c'(a')
  }

  lemma {:induction false} AlikeBranchContext(same: Relation, c: Context, c': Context, es: seq<Elem>, es': seq<Elem>)
    requires Equates(same, c, c') && AlikeBranch(same, es, es')
    requires forall i :: 0 <= i < |es| ==> ElemOk(es[i]) && ElemOk(es'[i])
    ensures BranchContext(c, es) == BranchContext(c', es')
    decreases |es|
  {
    if es != [] {
      assert AlikeElem(same, es[0], es'[0]);
      AlikeBranchContext(same, c, c', es[1..], es'[1..]);
    }
  }

  lemma {:induction false} AlikeBranchesContext(same: Relation, c: Context, c': Context, bs: seq<seq<Elem>>,
                                                bs': seq<seq<Elem>>)
    requires Equates(same, c, c') && AlikeBranches(same, bs, bs')
    requires forall i, j :: 0 <= i < |bs| && 0 <= j < |bs[i]| ==> ElemOk(bs[i][j])
    requires forall i, j :: 0 <= i < |bs'| && 0 <= j < |bs'[i]| ==> ElemOk(bs'[i][j])
    ensures BranchesContext(c, bs) == BranchesContext(c', bs')
    decreases |bs|
  {
    hide Equates, BranchContext, AlikeElem, ElemOk;
    if bs != [] {
      assert AlikeBranch(same, bs[0], bs'[0]);
      AlikeBranchContext(same, c, c', bs[0], bs'[0]);
      AlikeBranchesContext(same, c, c', bs[1..], bs'[1..]);
    }
  }

  lemma AlikeStageContext(same: Relation, c: Context, c': Context, st: Stage, st': Stage)
    requires Equates(same, c, c') && AlikeStage(same, st, st') && StageOk(st) && StageOk(st')
    ensures StageContext(c, st.blocks) == StageContext(c', st'.blocks)
  {
    hide Equates, StageContext, BranchesContext, AlikeBranches, ElemOk;
    forall i | 0 <= i < |st.blocks|
      ensures BlockContext(c, st.blocks[i]) == BlockContext(c', st'.blocks[i])
    {
      AlikeBranchesContext(same, c, c', st.blocks[i].branches, st'.blocks[i].branches);
    }
  }

  lemma {:induction false} AlikeUps(us: seq<UpConv>, us': seq<UpConv>)
    requires |us| == |us'| && forall i :: 0 <= i < |us| ==> us[i].stride == us'[i].stride > 0
    ensures UpReaches(us) == UpReaches(us')
    decreases |us|
  {
    if us != [] { AlikeUps(us[1..], us'[1..]); }
  }

  lemma {:induction false} AlikeStageReaches(same: Relation, c: Context, c': Context, sts: seq<Stage>,
                                             sts': seq<Stage>)
    requires Equates(same, c, c') && AlikeStages(same, sts, sts')
    requires forall i :: 0 <= i < |sts| ==> StageOk(sts[i]) && StageOk(sts'[i])
    ensures StageReaches(c, sts) == StageReaches(c', sts')
    decreases |sts|
  {
    hide Equates, StageContext, UpReaches, AlikeBranches, BlockOk;
    if sts != [] {
      assert AlikeStage(same, sts[0], sts'[0]) && StageOk(sts[0]) && StageOk(sts'[0]);
      AlikeUps(sts[0].ups, sts'[0].ups);
      AlikeStageContext(same, c, c', sts[0], sts'[0]);
      AlikeStageReaches(same, c, c', sts[1..], sts'[1..]);
    }
  }

  /** The reaches are a matter of the shape. */
  lemma AlikeReaches(same: Relation, c: Context, c': Context, d: Net, d': Net)
    requires NetOk(d) && NetOk(d') && Alike(same, d, d') && Equates(same, c, c')
    ensures ReachesBy(c, d) == ReachesBy(c', d') && Lookahead(d) == Lookahead(d')
  {
    hide StageReaches, StageOk, AlikeStage;
    AlikeStageReaches(same, c, c', d.stages, d'.stages);
  }

  lemma SameShapeReaches(d: Net, d': Net)
    requires NetOk(d) && NetOk(d') && SameShape(d, d')
    ensures ExactReaches(d) == ExactReaches(d') && Reaches(d) == Reaches(d') && Lookahead(d) == Lookahead(d')
  {
    hide ReachesBy, Alike, NetOk;
    AlikeReaches(SameFilters, ActReach, ActReach, d, d');
    AlikeReaches(SameFilters, ActContext, ActContext, d, d');
  }

  /** What is computed is what is read, if every activation's filters are whole samples long. */
  lemma WholeReaches(d: Net)
    requires NetOk(d) && Alike(WholeFilters, d, d)
    ensures Reaches(d) == ExactReaches(d)
  {
    hide ReachesBy, Alike, NetOk, ActReach, ActContext;
    forall a, a' | WholeFilters(a, a') ensures ActContext(a) == ActReach(a') {
      WholeContext(a, a');
    }
    AlikeReaches(WholeFilters, ActContext, ActReach, d, d);
  }

  lemma WholeContext(a: Activation, a': Activation)
    requires WholeFilters(a, a')
    ensures ActContext(a) == ActReach(a')
  {
    if a.upKernel > 0 && a.downKernel > 0 { RoundedUp(a.upKernel - 1 + (a.downKernel - 1), a.ratio); }
  }

  // ---------------------------------------------------------------- layers that pass one sample on

  function Tap(zero: Sample, oldest: bool, s: seq<Sample>): Sample {
    if s == [] then zero else if oldest then s[0] else s[|s| - 1]
  }

  function WiredConv(zero: Sample, c: Conv, oldest: bool): Conv {
    c.(mix := s => Tap(zero, oldest, s))
  }

  function WiredUp(u: UpConv, oldest: bool): UpConv {
    u.(mix := (phase, previous, current) => if oldest then previous else current)
  }

  /** The upsampling filter is given its newest read first, the lowpass filter its oldest. */
  function WiredAct(zero: Sample, a: Activation, oldest: bool): Activation {
    a.(up := (phase, s) => Tap(zero, !oldest, s), down := s => Tap(zero, oldest, s))
  }

  function Silenced(a: Activation): Activation {
    a.(act := s => s)
  }

  function WiredElem(zero: Sample, e: Elem, oldest: bool): Elem {
    match e
    case Act(a) => Act(WiredAct(zero, Silenced(a), oldest))
    case Cnv(c) => Cnv(WiredConv(zero, c, oldest))
  }

  function WiredBranch(zero: Sample, es: seq<Elem>, oldest: bool): (r: seq<Elem>)
    ensures |r| == |es|
  {
    seq(|es|, i requires 0 <= i < |es| => WiredElem(zero, es[i], oldest))
  }

  function WiredBranches(zero: Sample, bs: seq<seq<Elem>>, oldest: bool): (r: seq<seq<Elem>>) {
    seq(|bs|, i requires 0 <= i < |bs| => WiredBranch(zero, bs[i], oldest))
  }

  /** The branch without the residual. */
  function BranchOnly(y: Sample, x: Sample): Sample {
    y
  }

  function WiredBlock(zero: Sample, b: AmpBlock, oldest: bool): AmpBlock {
    AmpBlock(WiredBranches(zero, b.branches, oldest), BranchOnly)
  }

  /** A block that reads as far back as any. */
  ghost function Deepest(blocks: seq<AmpBlock>): (k: nat)
    requires blocks != [] && forall i :: 0 <= i < |blocks| ==> BlockOk(blocks[i])
    ensures k < |blocks| && BlockContext(ActReach, blocks[k]) == StageContext(ActReach, blocks)
  {
    var k :| 0 <= k < |blocks| && BlockContext(ActReach, blocks[k]) == StageContext(ActReach, blocks);
    k
  }

  function Pick(zero: Sample, k: nat): seq<Sample> -> Sample {
    s => if k < |s| then s[k] else zero
  }

  ghost function WiredStage(zero: Sample, st: Stage, oldest: bool): Stage
    requires StageOk(st)
  {
    Stage(seq(|st.ups|, i requires 0 <= i < |st.ups| => WiredUp(st.ups[i], oldest)),
          seq(|st.blocks|, i requires 0 <= i < |st.blocks| => WiredBlock(zero, st.blocks[i], oldest)),
          Pick(zero, Deepest(st.blocks)))
  }

  ghost function WiredStages(zero: Sample, sts: seq<Stage>, oldest: bool): seq<Stage>
    requires forall i :: 0 <= i < |sts| ==> StageOk(sts[i])
  {
    seq(|sts|, i requires 0 <= i < |sts| => assert StageOk(sts[i]); WiredStage(zero, sts[i], oldest))
  }

  /** The decoder of this shape that passes on the oldest, or the newest, sample that every layer reads. */
  ghost function Wired(d: Net, oldest: bool): Net
    requires NetOk(d)
  {
    Net(d.zero, WiredConv(d.zero, d.pre, oldest), WiredStages(d.zero, d.stages, oldest),
        WiredAct(d.zero, Silenced(d.postAct), oldest), WiredConv(d.zero, d.postConv, oldest), d.bound)
  }

  lemma WiredStageAlike(zero: Sample, st: Stage, oldest: bool)
    requires StageOk(st)
    ensures StageOk(WiredStage(zero, st, oldest)) && AlikeStage(SameFilters, st, WiredStage(zero, st, oldest))
  {
    var st' := WiredStage(zero, st, oldest);
    forall i | 0 <= i < |st.blocks|
      ensures BlockOk(st'.blocks[i]) && AlikeBranches(SameFilters, st.blocks[i].branches, st'.blocks[i].branches)
    {
      assert BlockOk(st.blocks[i]);
      WiredBlockAlike(zero, st.blocks[i], oldest);
    }
  }

  lemma WiredBlockAlike(zero: Sample, b: AmpBlock, oldest: bool)
    requires BlockOk(b)
    ensures BlockOk(WiredBlock(zero, b, oldest))
    ensures AlikeBranches(SameFilters, b.branches, WiredBlock(zero, b, oldest).branches)
  {
    forall i | 0 <= i < |b.branches|
      ensures AlikeBranch(SameFilters, b.branches[i], WiredBranch(zero, b.branches[i], oldest))
    {
    }
  }

  lemma WiredAlike(d: Net, oldest: bool)
    requires NetOk(d)
    ensures NetOk(Wired(d, oldest)) && SameShape(d, Wired(d, oldest))
  {
    hide StageOk, WiredStage, AlikeStage;
    forall i | 0 <= i < |d.stages|
      ensures StageOk(WiredStages(d.zero, d.stages, oldest)[i])
      ensures AlikeStage(SameFilters, d.stages[i], WiredStages(d.zero, d.stages, oldest)[i])
    {
      WiredStageAlike(d.zero, d.stages[i], oldest);
    }
  }

  // ---------------------------------------------------------------- what they pass on

  function Back(oldest: bool, c: nat): nat {
    if oldest then c else 0
  }

  /** Every sample of `y` is the one of `x` that is `c` samples older. */
  predicate Delayed(x: seq<Sample>, y: seq<Sample>, c: nat) {
    |x| == |y| && forall t :: c <= t < |x| ==> y[t] == x[t - c]
  }

  lemma DelaysAdd(x: seq<Sample>, y: seq<Sample>, z: seq<Sample>, a: nat, b: nat)
    requires Delayed(x, y, a) && Delayed(y, z, b)
    ensures Delayed(x, z, a + b)
  {
    forall t | a + b <= t < |x| ensures z[t] == x[t - (a + b)] {
      assert z[t] == y[t - b] && y[t - b] == x[t - b - a];
    }
  }

  lemma ConvDelays(zero: Sample, c: Conv, oldest: bool, x: seq<Sample>)
    requires c.kernel > 0
    ensures Delayed(x, RunConv(zero, WiredConv(zero, c, oldest), c.Causal(), x), Back(oldest, c.Causal()))
  {
    hide ConvSample;
    var left := c.Causal();
    forall t | Back(oldest, left) <= t < |x|
      ensures RunConv(zero, WiredConv(zero, c, oldest), left, x)[t] == x[t - Back(oldest, left)]
    {
      ConvPasses(zero, c, oldest, left, x, t);
    }
  }

  /** The oldest and the newest read of a convolution. */
  lemma ConvPasses(zero: Sample, c: Conv, oldest: bool, left: int, x: seq<Sample>, t: int)
    requires c.kernel > 0
    ensures ConvSample(zero, WiredConv(zero, c, oldest), left, x, t)
            == At(zero, x, if oldest then t - left else t + c.Causal() - left)
  {
    var taps := seq(c.kernel, j requires 0 <= j => At(zero, x, t + j * c.dilation - left));
    assert ConvSample(zero, WiredConv(zero, c, oldest), left, x, t) == Tap(zero, oldest, taps);
    assert taps[0] == At(zero, x, t + 0 * c.dilation - left);
    assert taps[c.kernel - 1] == At(zero, x, t + (c.kernel - 1) * c.dilation - left);
  }

  /** The oldest sample that output `t` of an activation reads. */
  lemma OldestRead(a: Activation, t: nat)
    requires 0 < a.ratio < a.upKernel && 0 < a.downKernel && t >= ActReach(a)
    ensures var m := t * a.ratio - (a.downKernel - 1);
            m >= 0 && m / a.ratio - (UpTaps(a, m % a.ratio) - 1) == t - ActReach(a)
  {
    TapsMeet(t, a.ratio, a.upKernel - 1, a.downKernel - 1);
  }

  /** `down` positions back at the higher rate, then `up` more in whole samples, is both in whole samples. */
  lemma TapsMeet(t: nat, r: nat, up: nat, down: nat)
    requires r > 0 && up >= r && t >= (up + down) / r
    ensures var m := t * r - down; m >= 0 && m / r - (up - m % r) / r == t - (up + down) / r
  {
    var m, b := t * r - down, (up + down) / r;
    var p, q := m % r, m / r;
    var j := (up - p) / r;
    assert b * r <= up + down < b * r + r by { Quotient(up + down, r); }
    assert j * r <= up - p < j * r + r by { Quotient(up - p, r); }
    MulLe(b, t, r);
    assert m == q * r + p;
    SameDifference(q, j, t, b, r);
  }

  lemma SameDifference(q: int, j: int, t: int, b: int, r: nat)
    requires r > 0 && 0 - r < q * r - j * r - (t * r - b * r) < r
    ensures q - j == t - b
  {
    var k := q - j - (t - b);
    assert k * r == q * r - j * r - (t * r - b * r);
    if k >= 1 { MulLe(1, k, r); }
    if k <= -1 { MulLe(k, -1, r); }
  }

  lemma ActUpPasses(zero: Sample, a: Activation, oldest: bool, x: seq<Sample>, m: nat)
    requires 0 < a.ratio < a.upKernel
    ensures var i := m / a.ratio - Back(oldest, UpTaps(a, m % a.ratio) - 1);
            ActUpSample(zero, WiredAct(zero, a, oldest), x, m) == a.act(At(zero, x, i))
  {
    var w := WiredAct(zero, a, oldest);
    assert UpTaps(w, m % a.ratio) == UpTaps(a, m % a.ratio);
  }

  lemma DownPasses(zero: Sample, a: Activation, oldest: bool, y: seq<Sample>, t: nat)
    requires a.downKernel > 0
    requires t * a.ratio >= Back(oldest, a.downKernel - 1)
    ensures ActDownSample(zero, WiredAct(zero, a, oldest), y, t)
            == At(zero, y, t * a.ratio - Back(oldest, a.downKernel - 1))
  {
    var r := DownRead(zero, WiredAct(zero, a, oldest), y, t * a.ratio);
    assert |r| == a.downKernel;
    assert r[0] == At(zero, y, Max(0, t * a.ratio - (a.downKernel - 1)));
    assert r[a.downKernel - 1] == At(zero, y, Max(0, t * a.ratio));
  }

  lemma ActPasses(zero: Sample, a: Activation, oldest: bool, x: seq<Sample>, t: nat)
    requires 0 < a.ratio < a.upKernel && 0 < a.downKernel && Back(oldest, ActReach(a)) <= t < |x|
    ensures RunAct(zero, WiredAct(zero, a, oldest), x)[t] == a.act(x[t - Back(oldest, ActReach(a))])
  {
    hide ActUpSample, ActReach, UpTaps;
    var w, r := WiredAct(zero, a, oldest), a.ratio;
    var up := ActUp(zero, w, x);
    var m := Back(oldest, a.downKernel - 1);
    if oldest { OldestRead(a, t); }
    MulLe(0, t, r);
    MulLe(t + 1, |x|, r);
    MulAdd(t, 1, r);
    QuotientIs(t * r, r, t);
    ActUpPasses(zero, a, oldest, x, t * r - m);
    DownPasses(zero, a, oldest, up, t);
    assert up[t * r - m] == ActUpSample(zero, w, x, t * r - m);
  }

  lemma ElemDelays(zero: Sample, e: Elem, oldest: bool, x: seq<Sample>)
    requires ElemOk(e)
    ensures ElemOk(WiredElem(zero, e, oldest))
    ensures Delayed(x, RunElem(zero, WiredElem(zero, e, oldest), x), Back(oldest, ElemContext(ActReach, e)))
  {
    hide RunAct, RunConv, ActReach;
    match e
    case Act(a) =>
      var b := Silenced(a);
      assert ActReach(b) == ActReach(a) by { SilencedReach(a); }
      forall t | Back(oldest, ActReach(a)) <= t < |x|
        ensures RunAct(zero, WiredAct(zero, b, oldest), x)[t] == x[t - Back(oldest, ActReach(a))]
      {
        ActPasses(zero, b, oldest, x, t);
      }
    case Cnv(c) => ConvDelays(zero, c, oldest, x);
  }

  lemma SilencedReach(a: Activation)
    ensures ActReach(Silenced(a)) == ActReach(a)
  {
  }

  lemma {:induction false} BranchDelays(zero: Sample, es: seq<Elem>, oldest: bool, x: seq<Sample>)
    requires forall i :: 0 <= i < |es| ==> ElemOk(es[i])
    ensures var ws := WiredBranch(zero, es, oldest);
            && (forall i :: 0 <= i < |ws| ==> ElemOk(ws[i]))
            && Delayed(x, RunBranch(zero, ws, x), Back(oldest, BranchContext(ActReach, es)))
    decreases |es|
  {
    hide RunElem, ElemContext, WiredElem, Delayed;
    forall i | 0 <= i < |es| ensures ElemOk(WiredElem(zero, es[i], oldest)) { ElemDelays(zero, es[i], oldest, x); }
    if es == [] {
      DelayedByNone(x);
    } else {
      var y := RunElem(zero, WiredElem(zero, es[0], oldest), x);
      ElemDelays(zero, es[0], oldest, x);
      BranchDelays(zero, es[1..], oldest, y);
      assert WiredBranch(zero, es, oldest)[1..] == WiredBranch(zero, es[1..], oldest);
      DelaysAdd(x, y, RunBranch(zero, WiredBranch(zero, es[1..], oldest), y),
                Back(oldest, ElemContext(ActReach, es[0])), Back(oldest, BranchContext(ActReach, es[1..])));
    }
  }

  lemma DelayedByNone(x: seq<Sample>)
    ensures Delayed(x, x, 0)
  {
  }

  lemma {:induction false} BranchesDelay(zero: Sample, bs: seq<seq<Elem>>, oldest: bool, x: seq<Sample>)
    requires forall i, j :: 0 <= i < |bs| && 0 <= j < |bs[i]| ==> ElemOk(bs[i][j])
    ensures var ws := WiredBranches(zero, bs, oldest);
            && (forall i, j :: 0 <= i < |ws| && 0 <= j < |ws[i]| ==> ElemOk(ws[i][j]))
            && Delayed(x, RunBranches(zero, BranchOnly, ws, x), Back(oldest, BranchesContext(ActReach, bs)))
    decreases |bs|
  {
    hide RunBranch, BranchContext, Delayed, Added, ElemOk, WiredBranch;
    var ws := WiredBranches(zero, bs, oldest);
    forall i, j | 0 <= i < |ws| && 0 <= j < |ws[i]| ensures ElemOk(ws[i][j]) {
      BranchDelays(zero, bs[i], oldest, x);
    }
    if bs == [] {
      DelayedByNone(x);
    } else {
      BranchDelays(zero, bs[0], oldest, x);
      var y := RunBranch(zero, WiredBranch(zero, bs[0], oldest), x);
      OnlyBranch(y, x);
      BranchesDelay(zero, bs[1..], oldest, y);
      assert ws[1..] == WiredBranches(zero, bs[1..], oldest);
      DelaysAdd(x, y, RunBranches(zero, BranchOnly, ws[1..], y), Back(oldest, BranchContext(ActReach, bs[0])),
                Back(oldest, BranchesContext(ActReach, bs[1..])));
    }
  }

  lemma OnlyBranch(y: seq<Sample>, x: seq<Sample>)
    requires |y| == |x|
    ensures Added(BranchOnly, y, x) == y
  {
    forall i | 0 <= i < |y| ensures Added(BranchOnly, y, x)[i] == y[i] {
      assert BranchOnly(y[i], x[i]) == y[i];
    }
  }

  lemma BlocksDelay(zero: Sample, st: Stage, oldest: bool, x: seq<Sample>)
    requires StageOk(st)
    ensures StageOk(WiredStage(zero, st, oldest))
    ensures Delayed(x, RunBlocks(zero, WiredStage(zero, st, oldest), x),
                    Back(oldest, StageContext(ActReach, st.blocks)))
  {
    hide StageContext, BranchesContext, RunBranches, WiredBranches, BlockOk;
    WiredStageAlike(zero, st, oldest);
    var st', k := WiredStage(zero, st, oldest), Deepest(st.blocks);
    assert BlockOk(st.blocks[k]) && BlockOk(st'.blocks[k]);
    BlockDelays(zero, st.blocks[k], oldest, x);
    forall i | 0 <= i < |x| ensures RunBlocks(zero, st', x)[i] == RunBlock(zero, st'.blocks[k], x)[i] {
      var p := seq(|st'.blocks|, j requires 0 <= j < |st'.blocks| => assert BlockOk(st'.blocks[j]);
                   RunBlock(zero, st'.blocks[j], x)[i]);
      assert RunBlocks(zero, st', x)[i] == st'.mean(p) && p[k] == RunBlock(zero, st'.blocks[k], x)[i];
    }
  }

  lemma BlockDelays(zero: Sample, b: AmpBlock, oldest: bool, x: seq<Sample>)
    requires BlockOk(b)
    ensures BlockOk(WiredBlock(zero, b, oldest))
    ensures Delayed(x, RunBlock(zero, WiredBlock(zero, b, oldest), x), Back(oldest, BlockContext(ActReach, b)))
  {
    hide RunBranches, BranchesContext, ElemOk, WiredBranches;
    BranchesDelay(zero, b.branches, oldest, x);
  }

  // ---------------------------------------------------------------- along the list of reaches

  /** The one input that output `n` is, passed on by layers that all take their oldest or their newest read. */
  function ReadBy(rs: seq<Reach>, oldest: bool, n: int): int
    requires Proper(rs)
  {
    if rs == [] then n
    else
      var m := ReadBy(rs[1..], oldest, n);
      if rs[0].Shift? then m - Back(oldest, rs[0].context) else m / rs[0].stride - Back(oldest, 1)
  }

  /** The oldest is the first read; the newest is the frame the output belongs to. */
  lemma {:induction false} ReadByIs(rs: seq<Reach>, n: nat)
    requires Proper(rs)
    ensures ReadBy(rs, true, n) == FirstRead(rs, n) && ReadBy(rs, false, n) == n / Rate(rs)
    decreases |rs|
  {
    if rs != [] {
      ReadByIs(rs[1..], n);
      if rs[0].Upsample? { DivDiv(n, rs[0].stride, Rate(rs[1..])); }
    }
  }

  lemma DivDiv(n: nat, u: nat, r: nat)
    requires u > 0 && r > 0
    ensures u * r > 0 && n / r / u == n / (u * r)
  {
    var q := n / r;
    var k := q / u;
    MulPositive(u, r);
    Quotient(n, r);
    Quotient(q, u);
    MulLe(k * u, q, r);
    MulLe(q + 1, k * u + u, r);
    MulAdd(k * u, u, r);
    MulAssociative(k, u, r);
    QuotientIs(n, u * r, k);
  }

  lemma {:induction false} ReadOfSum(a: seq<Reach>, b: seq<Reach>, oldest: bool, n: int)
    requires Proper(a) && Proper(b)
    ensures Proper(a + b) && ReadBy(a + b, oldest, n) == ReadBy(a, oldest, ReadBy(b, oldest, n))
    decreases |a|
  {
    if a == [] {
      assert a + b == b;
    } else {
      assert (a + b)[1..] == a[1..] + b;
      ReadOfSum(a[1..], b, oldest, n);
    }
  }

  lemma {:induction false} ReadBefore(rs: seq<Reach>, oldest: bool, n: int)
    requires Proper(rs) && ReadBy(rs, oldest, n) >= 0
    ensures n >= 0
    decreases |rs|
  {
    if rs != [] { ReadBefore(rs[1..], oldest, n); }
  }

  /** Every sample of `y` is the one of `x` that the layers pass on to it. */
  predicate Passes(rs: seq<Reach>, oldest: bool, x: seq<Sample>, y: seq<Sample>) {
    && Proper(rs) && |y| == |x| * Rate(rs)
    && forall n :: 0 <= n < |y| && 0 <= ReadBy(rs, oldest, n) ==>
         ReadBy(rs, oldest, n) < |x| && y[n] == x[ReadBy(rs, oldest, n)]
  }

  lemma PassOn(a: seq<Reach>, b: seq<Reach>, oldest: bool, x: seq<Sample>, y: seq<Sample>, z: seq<Sample>)
    requires Passes(a, oldest, x, y) && Passes(b, oldest, y, z)
    ensures Passes(a + b, oldest, x, z)
  {
    hide ReadBy, Rate;
    RateOfSum(a, b);
    MulAssociative(|x|, Rate(a), Rate(b));
    forall n | 0 <= n < |z| && 0 <= ReadBy(a + b, oldest, n)
      ensures ReadBy(a + b, oldest, n) < |x| && z[n] == x[ReadBy(a + b, oldest, n)]
    {
      ReadOfSum(a, b, oldest, n);
      var m := ReadBy(b, oldest, n);
      ReadBefore(a, oldest, m);
      assert z[n] == y[m];
    }
  }

  lemma ShiftPasses(c: nat, oldest: bool, x: seq<Sample>, y: seq<Sample>)
    requires Delayed(x, y, Back(oldest, c))
    ensures Passes([Shift(c)], oldest, x, y)
  {
    assert [Shift(c)][1..] == [];
  }

  lemma UpPasses(zero: Sample, u: UpConv, oldest: bool, x: seq<Sample>)
    requires u.stride > 0
    ensures Passes([Upsample(u.stride)], oldest, x, RunUp(zero, WiredUp(u, oldest), x))
  {
    var rs, y := [Upsample(u.stride)], RunUp(zero, WiredUp(u, oldest), x);
    assert rs[1..] == [];
    forall n | 0 <= n < |y| && 0 <= ReadBy(rs, oldest, n)
      ensures ReadBy(rs, oldest, n) < |x| && y[n] == x[ReadBy(rs, oldest, n)]
    {
      QuotientRange(n, u.stride, 0, |x|);
      assert y[n] == UpSample(zero, WiredUp(u, oldest), x, n);
    }
  }

  lemma {:induction false} UpsPass(zero: Sample, us: seq<UpConv>, ws: seq<UpConv>, oldest: bool, x: seq<Sample>)
    requires |ws| == |us| && (forall i :: 0 <= i < |us| ==> us[i].stride > 0)
    requires forall i :: 0 <= i < |ws| ==> ws[i] == WiredUp(us[i], oldest) && ws[i].stride > 0
    ensures Passes(UpReaches(us), oldest, x, RunUps(zero, ws, x))
    decreases |us|
  {
    hide Passes, RunUp;
    if us == [] {
      NothingPasses(oldest, x);
    } else {
      var y := RunUp(zero, ws[0], x);
      UpPasses(zero, us[0], oldest, x);
      UpsPass(zero, us[1..], ws[1..], oldest, y);
      PassOn([Upsample(us[0].stride)], UpReaches(us[1..]), oldest, x, y, RunUps(zero, ws[1..], y));
    }
  }

  lemma NothingPasses(oldest: bool, x: seq<Sample>)
    ensures Passes([], oldest, x, x)
  {
  }

  lemma StagePasses(zero: Sample, st: Stage, oldest: bool, x: seq<Sample>)
    requires StageOk(st)
    ensures var w := WiredStage(zero, st, oldest);
            StageOk(w) && Passes(UpReaches(st.ups) + [Shift(StageContext(ActReach, st.blocks))], oldest, x,
                                 RunBlocks(zero, w, RunUps(zero, w.ups, x)))
  {
    hide Passes, RunBlocks, RunUps, StageContext, UpReaches, Delayed;
    WiredStageAlike(zero, st, oldest);
    var w := WiredStage(zero, st, oldest);
    var y := RunUps(zero, w.ups, x);
    UpsPass(zero, st.ups, w.ups, oldest, x);
    BlocksDelay(zero, st, oldest, y);
    ShiftPasses(StageContext(ActReach, st.blocks), oldest, y, RunBlocks(zero, w, y));
    PassOn(UpReaches(st.ups), [Shift(StageContext(ActReach, st.blocks))], oldest, x, y, RunBlocks(zero, w, y));
  }

  lemma {:induction false} StagesPass(zero: Sample, sts: seq<Stage>, oldest: bool, x: seq<Sample>)
    requires forall i :: 0 <= i < |sts| ==> StageOk(sts[i])
    ensures var ws := WiredStages(zero, sts, oldest);
            && (forall i :: 0 <= i < |ws| ==> StageOk(ws[i]))
            && Passes(StageReaches(ActReach, sts), oldest, x, RunStages(zero, ws, x))
    decreases |sts|
  {
    hide Passes, RunBlocks, RunUps, StageContext, UpReaches, WiredStage, BlockOk;
    var ws := WiredStages(zero, sts, oldest);
    forall i | 0 <= i < |ws| ensures StageOk(ws[i]) { WiredStageAlike(zero, sts[i], oldest); }
    if sts == [] {
      NothingPasses(oldest, x);
    } else {
      assert StageOk(sts[0]);
      StagePasses(zero, sts[0], oldest, x);
      var w := WiredStage(zero, sts[0], oldest);
      var y := RunBlocks(zero, w, RunUps(zero, w.ups, x));
      StagesPass(zero, sts[1..], oldest, y);
      assert ws[1..] == WiredStages(zero, sts[1..], oldest);
      PassOn(UpReaches(sts[0].ups) + [Shift(StageContext(ActReach, sts[0].blocks))],
             StageReaches(ActReach, sts[1..]), oldest, x, y, RunStages(zero, ws[1..], y));
    }
  }

  lemma PostPasses(d: Net, oldest: bool, x: seq<Sample>)
    requires NetOk(d)
    ensures var w := Wired(d, oldest);
            NetOk(w) && |Post(w, x)| == |x| && exists y ::
              Passes(PostReaches(ActReach, d), oldest, x, y) && Post(w, x) == Mapped(d.bound, y)
  {
    hide RunAct, RunConv, ActReach, Delayed, WiredStages;
    WiredAlike(d, oldest);
    var w, a := Wired(d, oldest), Act(d.postAct);
    var y := RunAct(d.zero, w.postAct, x);
    ElemDelays(d.zero, a, oldest, x);
    ShiftPasses(ActReach(d.postAct), oldest, x, y);
    var z := RunConv(d.zero, w.postConv, d.postConv.Causal(), y);
    ConvDelays(d.zero, d.postConv, oldest, y);
    ShiftPasses(d.postConv.Causal(), oldest, y, z);
    PassOn([Shift(ActReach(d.postAct))], [Shift(d.postConv.Causal())], oldest, x, y, z);
    assert [Shift(ActReach(d.postAct))] + [Shift(d.postConv.Causal())] == PostReaches(ActReach, d);
  }

  /** The first convolution is centred: it reads the lookahead's frames on both sides of its own, and no others. */
  lemma Centred(d: Net, x: seq<Sample>, t: int)
    requires NetOk(d)
    ensures var la := Lookahead(d);
            && d.pre.kernel == 2 * la + 1
            && ConvSample(d.zero, d.pre, la, x, t)
               == d.pre.mix(seq(2 * la + 1, j requires 0 <= j => At(d.zero, x, t - la + j)))
  {
    var la := Lookahead(d);
    assert seq(d.pre.kernel, j requires 0 <= j => At(d.zero, x, t + j * d.pre.dilation - la))
        == seq(2 * la + 1, j requires 0 <= j => At(d.zero, x, t - la + j));
  }

  /** After the first convolution `y`, sample `n` of the wired decoder is one of its samples. */
  lemma DecodePasses(d: Net, oldest: bool, z: seq<Sample>)
    requires NetOk(d)
    ensures var w, rs := Wired(d, oldest), StageReaches(ActReach, d.stages) + PostReaches(ActReach, d);
            var x := RunConv(d.zero, w.pre, Lookahead(d), z);
            NetOk(w) && exists y :: Passes(rs, oldest, x, y) && Decode(w, z) == Mapped(d.bound, y)
  {
    hide Passes, RunConv, RunStages, StageReaches, PostReaches, Post, StageOk, WiredStages;
    WiredAlike(d, oldest);
    var w := Wired(d, oldest);
    var x := RunConv(d.zero, w.pre, Lookahead(d), z);
    StagesPass(d.zero, d.stages, oldest, x);
    var x' := RunStages(d.zero, w.stages, x);
    PostPasses(d, oldest, x');
    var y :| Passes(PostReaches(ActReach, d), oldest, x', y) && Post(w, x') == Mapped(d.bound, y);
    PassOn(StageReaches(ActReach, d.stages), PostReaches(ActReach, d), oldest, x, x', y);
    DecodeIsPost(w, z);
  }

  lemma DecodeIsPost(d: Net, z: seq<Sample>)
    requires NetOk(d)
    ensures Decode(d, z) == Post(d, RunStages(d.zero, d.stages, RunConv(d.zero, d.pre, Lookahead(d), z)))
  {
  }

  predicate IsAt(y: seq<Sample>, n: int, v: Sample) {
    0 <= n < |y| && y[n] == v
  }

  /** With weights that pass on the oldest read, sample `n` is the first input the reaches say it reads. */
  lemma OldestSample(d: Net, z: seq<Sample>, n: nat)
    requires NetOk(d) && n < |z| * Rate(ExactReaches(d)) && FirstRead(ExactReaches(d), n) >= 0
    ensures var w, i := Wired(d, true), FirstRead(ExactReaches(d), n);
            NetOk(w) && i < |z| && IsAt(Decode(w, z), n, d.bound(z[i]))
  {
    hide Decode, RunConv, StageReaches, PostReaches, StageOk, WiredStages, Rate, Delayed, FirstRead, ReadBy;
    var w, la := Wired(d, true), Lookahead(d);
    var x := RunConv(d.zero, w.pre, la, z);
    var rs := StageReaches(ActReach, d.stages) + PostReaches(ActReach, d);
    PreDelays(d, z);
    ShiftPasses(la, true, z, x);
    DecodePasses(d, true, z);
    var y :| Passes(rs, true, x, y) && Decode(w, z) == Mapped(d.bound, y);
    PassOn([Shift(la)], rs, true, z, x, y);
    ReadByIs(ExactReaches(d), n);
  }

  lemma PreDelays(d: Net, z: seq<Sample>)
    requires NetOk(d)
    ensures Delayed(z, RunConv(d.zero, WiredConv(d.zero, d.pre, true), Lookahead(d), z), Lookahead(d))
  {
    hide ConvSample;
    var la := Lookahead(d);
    forall t | la <= t < |z|
      ensures RunConv(d.zero, WiredConv(d.zero, d.pre, true), la, z)[t] == z[t - la]
    {
      ConvPasses(d.zero, d.pre, true, la, z, t);
    }
  }

  /** With weights that pass on the newest, it is the input the lookahead past the frame it belongs to. */
  lemma NewestSample(d: Net, z: seq<Sample>, n: nat)
    requires NetOk(d) && n < |z| * Rate(ExactReaches(d)) && n / Rate(ExactReaches(d)) + Lookahead(d) < |z|
    ensures var w, i := Wired(d, false), n / Rate(ExactReaches(d)) + Lookahead(d);
            NetOk(w) && IsAt(Decode(w, z), n, d.bound(At(d.zero, z, i)))
  {
    hide Decode, StageReaches, PostReaches, StageOk, WiredStages, Rate, ReadBy, RunConv, At;
    var w, la := Wired(d, false), Lookahead(d);
    var x := RunConv(d.zero, w.pre, la, z);
    var rs := StageReaches(ActReach, d.stages) + PostReaches(ActReach, d);
    DecodePasses(d, false, z);
    assert ExactReaches(d)[1..] == rs;
    RateOfSum([Shift(la)], rs);
    ShiftAlone(la, 0);
    var y :| Passes(rs, false, x, y) && Decode(w, z) == Mapped(d.bound, y);
    ReadByIs(rs, n);
    PreAdvances(d, z, n / Rate(rs));
  }

  lemma PreAdvances(d: Net, z: seq<Sample>, t: nat)
    requires NetOk(d) && t < |z|
    ensures RunConv(d.zero, WiredConv(d.zero, d.pre, false), Lookahead(d), z)[t] == At(d.zero, z, t + Lookahead(d))
  {
    hide ConvSample;
    ConvPasses(d.zero, d.pre, false, Lookahead(d), z, t);
  }

  // ---------------------------------------------------------------- the window is the least

  /** A window that knows `left` frames before the frames asked for and `ahead` frames after them decodes to the
      right samples, whatever the weights. */
  ghost predicate Suffices(d: Net, left: nat, ahead: nat)
    requires NetOk(d)
  {
    forall d': Net, x, w, s: nat, lo: nat, f: nat, g: nat ::
      NetOk(d') && SameShape(d, d') && Knows(d'.zero, x, w, s, lo, g, ahead) && f <= g && (s == 0 || f >= lo + left)
      ==> SameFrames(d', x, w, s, f, g)
  }

  lemma EnoughSuffices(d: Net, left: nat, ahead: nat)
    requires NetOk(d) && left >= LeftContext(ExactReaches(d)) && ahead >= Lookahead(d)
    ensures Suffices(d, left, ahead)
  {
    hide NetOk, SameShape, SameFrames, LeftContext, ExactReaches;
    forall d': Net, x, w, s: nat, lo: nat, f: nat, g: nat |
      NetOk(d') && SameShape(d, d') && Knows(d'.zero, x, w, s, lo, g, ahead) && f <= g && (s == 0 || f >= lo + left)
      ensures SameFrames(d', x, w, s, f, g)
    {
      SameShapeReaches(d, d');
      assert Knows(d'.zero, x, w, s, lo, g, Lookahead(d'));
      WindowDecodesExactly(d', x, w, s, lo, f, g);
    }
  }

  /** The same shape with nothing done to the samples passed on. */
  ghost function Plain(d: Net, oldest: bool): (w: Net)
    requires NetOk(d)
    ensures NetOk(w) && SameShape(d, w) && w.zero == d.zero
  {
    var d' := d.(bound := s => s);
    WiredAlike(d', oldest);
    Wired(d', oldest)
  }

  lemma PlainShape(d: Net, oldest: bool)
    requires NetOk(d)
    ensures var d' := d.(bound := s => s);
            NetOk(d') && Plain(d, oldest) == Wired(d', oldest) && Lookahead(d) == Lookahead(d')
            && ExactReaches(d) == ExactReaches(d')
  {
  }

  lemma AllButOldest(zero: Sample, a: Sample, b: Sample, f: nat, ahead: nat)
    ensures Knows(zero, seq(f + ahead + 2, _ => a), [b] + seq(f + ahead, _ => a), 1, 1, f + 1, ahead)
  {
  }

  lemma ContextIsNeeded(d: Net, left: nat, ahead: nat, a: Sample, b: Sample)
    requires NetOk(d) && a != b && left < LeftContext(ExactReaches(d))
    ensures !Suffices(d, left, ahead)
  {
    hide NetOk, SameShape, LeftContext, ExactReaches, Decode, Plain, Reaches, Rate, FirstRead;
    var f := LeftContext(ExactReaches(d));
    var d' := Plain(d, true);
    var w, x := [b] + seq(f + ahead, _ => a), seq(f + ahead + 2, _ => a);
    AllButOldest(d'.zero, a, b, f, ahead);
    assert Suffices(d, left, ahead) ==> SameFrames(d', x, w, 1, f, f + 1);
    hide Suffices, Knows, SameFrames;
    OldestOfFrame(d, w, f);
    OldestOfFrame(d, x, 1 + f);
    SameShapeReaches(d, d');
    FirstSample(d', x, w, 1, f, a, b);
  }

  /** The first sample of frame `f` is the input of the frame a left context earlier. */
  lemma OldestOfFrame(d: Net, z: seq<Sample>, f: nat)
    requires NetOk(d) && LeftContext(ExactReaches(d)) <= f < |z|
    ensures IsAt(Decode(Plain(d, true), z), f * Rate(Reaches(d)), At(d.zero, z, f - LeftContext(ExactReaches(d))))
  {
    hide NetOk, SameShape, LeftContext, ExactReaches, Decode, Wired, Reaches, Rate, FirstRead;
    PlainShape(d, true);
    ExactIsBelow(d);
    var r := Rate(ExactReaches(d));
    FirstSampleReach(ExactReaches(d), f);
    MulLe(f + 1, |z|, r);
    MulAdd(f, 1, r);
    OldestSample(d.(bound := s => s), z, f * r);
  }

  lemma NewestOfFrame(d: Net, z: seq<Sample>)
    requires NetOk(d) && Lookahead(d) < |z|
    ensures IsAt(Decode(Plain(d, false), z), 0, At(d.zero, z, Lookahead(d)))
  {
    hide NetOk, SameShape, LeftContext, ExactReaches, Decode, Wired, Reaches, Rate, FirstRead;
    PlainShape(d, false);
    var r := Rate(ExactReaches(d));
    MulLe(1, |z|, r);
    QuotientIs(0, r, 0);
    NewestSample(d.(bound := s => s), z, 0);
  }

  lemma FirstSample(d: Net, x: seq<Sample>, w: seq<Sample>, s: nat, f: nat, a: Sample, b: Sample)
    requires NetOk(d) && IsAt(Decode(d, x), (s + f) * Rate(Reaches(d)), a)
    requires IsAt(Decode(d, w), f * Rate(Reaches(d)), b)
    ensures SameFrames(d, x, w, s, f, f + 1) ==> a == b
  {
    hide Decode, Reaches, NetOk;
    var r := Rate(Reaches(d));
    if SameFrames(d, x, w, s, f, f + 1) {
      MulAdd(f, 1, r);
      MulAdd(s + f, 1, r);
      assert Decode(d, w)[f * r..(f + 1) * r][0] == Decode(d, x)[(s + f) * r..(s + f + 1) * r][0];
    }
  }

  lemma LookaheadIsNeeded(d: Net, left: nat, ahead: nat, a: Sample, b: Sample)
    requires NetOk(d) && a != b && ahead < Lookahead(d)
    ensures !Suffices(d, left, ahead)
  {
    hide NetOk, SameShape, LeftContext, ExactReaches, Decode, Plain, Reaches, Rate, FirstRead;
    var la, d' := Lookahead(d), Plain(d, false);
    var w, x := seq(la, _ => a) + [b], seq(la + 1, _ => a);
    assert Knows(d'.zero, x, w, 0, 0, 1, ahead);
    NewestOfFrame(d, w);
    NewestOfFrame(d, x);
    assert SameFrames(d', x, w, 0, 0, 1) ==> a == b by {
      SameShapeReaches(d, d');
      FirstSample(d', x, w, 0, 0, a, b);
    }
  }

  /** A window suffices for every decoder of the shape exactly if it knows the left context and the lookahead. */
  lemma WindowIsLeast(d: Net, left: nat, ahead: nat, a: Sample, b: Sample)
    requires NetOk(d) && a != b
    ensures Suffices(d, left, ahead) <==> left >= LeftContext(ExactReaches(d)) && ahead >= Lookahead(d)
  {
    hide Suffices, LeftContext, ExactReaches, Lookahead;
    if left < LeftContext(ExactReaches(d)) {
      ContextIsNeeded(d, left, ahead, a, b);
    } else if ahead < Lookahead(d) {
      LookaheadIsNeeded(d, left, ahead, a, b);
    } else {
      EnoughSuffices(d, left, ahead);
    }
  }

  /** The left context as the decoder computes it always suffices, and is the least that does if every
      activation's filters come to whole samples. */
  lemma ComputedContext(d: Net, left: nat, a: Sample, b: Sample)
    requires NetOk(d) && a != b
    ensures left >= LeftContext(Reaches(d)) ==> Suffices(d, left, Lookahead(d))
    ensures Alike(WholeFilters, d, d) ==>
              (Suffices(d, left, Lookahead(d)) <==> left >= LeftContext(Reaches(d)))
  {
    hide Suffices, LeftContext, ExactReaches, Reaches, Lookahead, Alike;
    WindowIsLeast(d, left, Lookahead(d), a, b);
    ExactIsBelow(d);
    if Alike(WholeFilters, d, d) { WholeReaches(d); }
  }

  /** Otherwise it may be a frame more than any weights read: no stage, filters of three and two samples at ratio
      two, which read one sample back and are counted as two. */
  lemma ContextOverestimated(d: Net, a: Activation, b: Sample, c: Sample)
    requires b != c && a.ratio == 2 && a.upKernel == 3 && a.downKernel == 2
    requires d.pre.kernel == 1 && d.pre.dilation == 1 && d.stages == [] && d.postAct == a
    requires d.postConv.kernel == 7 && d.postConv.dilation == 1
    ensures LeftContext(Reaches(d)) == 8 && Suffices(d, 7, Lookahead(d)) && !Suffices(d, 6, Lookahead(d))
  {
    hide Suffices;
    assert d.postConv.Causal() == 6;
    ThreeShifts(0, 2, 6);
    ThreeShifts(0, 1, 6);
    assert ActContext(a) == 2 && ActReach(a) == 1;
    assert Reaches(d) == [Shift(0), Shift(2), Shift(6)] && ExactReaches(d) == [Shift(0), Shift(1), Shift(6)];
    WindowIsLeast(d, 7, Lookahead(d), b, c);
    WindowIsLeast(d, 6, Lookahead(d), b, c);
  }

  lemma ThreeShifts(a: nat, b: nat, c: nat)
    ensures LeftContext([Shift(a), Shift(b), Shift(c)]) == a + b + c
  {
    var rs := [Shift(a), Shift(b), Shift(c)];
    assert rs[1..] == [Shift(b), Shift(c)] && rs[1..][1..] == [Shift(c)] && rs[1..][1..][1..] == [];
    assert FirstRight(rs, 0) == FirstRight([Shift(b), Shift(c)], a) == FirstRight([Shift(c)], a + b) == a + b + c;
    assert Rate(rs) == Rate([Shift(b), Shift(c)]) == Rate([Shift(c)]) == 1;
  }

  // ---------------------------------------------------------------- the residual

  function ResidualOnly(y: Sample, x: Sample): Sample {
    x
  }

  /** A block that keeps only its residuals passes every sample on. */
  lemma {:induction false} ResidualPath(zero: Sample, bs: seq<seq<Elem>>, x: seq<Sample>)
    requires forall i, j :: 0 <= i < |bs| && 0 <= j < |bs[i]| ==> ElemOk(bs[i][j])
    ensures RunBranches(zero, ResidualOnly, bs, x) == x
    decreases |bs|
  {
    hide RunBranch;
    if bs != [] {
      var y := Added(ResidualOnly, RunBranch(zero, bs[0], x), x);
      forall i | 0 <= i < |x| ensures y[i] == x[i] {
        assert ResidualOnly(RunBranch(zero, bs[0], x)[i], x[i]) == x[i];
      }
      ResidualPath(zero, bs[1..], y);
    }
  }
}
