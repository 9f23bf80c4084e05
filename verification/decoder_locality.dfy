/** Causality and locality of the decoder: decoding a window of the input gives the very samples of
    decoding the whole input, for every frame that is a left context past the start of the window and
    a lookahead before the end of what the window knows.
 */
module DecoderLocality {
  import opened Arithmetic
  import opened Decoder
  import opened ReceptiveField

  /** Window `w` of signal `x` starting at `s` is right on [lo, hi), or on [0, hi) if it starts where `x` does. */
  predicate Agree(x: seq<Sample>, w: seq<Sample>, s: nat, lo: nat, hi: nat) {
    && hi <= |w| && s + hi <= |x|
    && forall j :: 0 <= j < hi && (s == 0 || lo <= j) ==> w[j] == x[s + j]
  }

  /** The samples a causal layer may read agree too: before the start both signals are silent. */
  lemma ReadsAgree(zero: Sample, x: seq<Sample>, w: seq<Sample>, s: nat, lo: nat, hi: nat, i: int)
    requires Agree(x, w, s, lo, hi) && i < hi && (s == 0 || lo <= i)
    ensures At(zero, w, i) == At(zero, x, s + i)
  {
    if i >= 0 { assert w[i] == x[s + i]; }
  }

  lemma AgreeSlice(x: seq<Sample>, w: seq<Sample>, s: nat, lo: nat, f: nat, g: nat)
    requires Agree(x, w, s, lo, g) && f <= g && (s == 0 || lo <= f)
    ensures w[f..g] == x[s + f..s + g]
  {
  }

  // ---------------------------------------------------------------- one layer

  lemma ConvSampleAgrees(zero: Sample, c: Conv, left: int, x: seq<Sample>, w: seq<Sample>, s: nat, t: int)
    requires forall j :: 0 <= j < c.kernel ==>
               At(zero, w, t + j * c.dilation - left) == At(zero, x, s + t + j * c.dilation - left)
    ensures ConvSample(zero, c, left, w, t) == ConvSample(zero, c, left, x, s + t)
  {
    var a := seq(c.kernel, j requires 0 <= j => At(zero, w, t + j * c.dilation - left));
    var b := seq(c.kernel, j requires 0 <= j => At(zero, x, s + t + j * c.dilation - left));
    assert a == b;
  }

  lemma TapRange(dilation: nat, kernel: nat, j: nat)
    requires j < kernel
    ensures 0 <= j * dilation <= dilation * (kernel - 1)
  {
    MulLe(j, kernel - 1, dilation);
  }

  lemma ConvAgrees(zero: Sample, c: Conv, x: seq<Sample>, w: seq<Sample>, s: nat, lo: nat, hi: nat)
    requires c.kernel > 0 && Agree(x, w, s, lo, hi)
    ensures Agree(RunConv(zero, c, c.Causal(), x), RunConv(zero, c, c.Causal(), w), s, lo + c.Causal(), hi)
  {
    hide ConvSample;
    var left := c.Causal();
    forall t | 0 <= t < hi && (s == 0 || lo + left <= t)
      ensures ConvSample(zero, c, left, w, t) == ConvSample(zero, c, left, x, s + t)
    {
      forall j | 0 <= j < c.kernel
        ensures At(zero, w, t + j * c.dilation - left) == At(zero, x, s + t + j * c.dilation - left)
      {
        TapRange(c.dilation, c.kernel, j);
        ReadsAgree(zero, x, w, s, lo, hi, t + j * c.dilation - left);
      }
      ConvSampleAgrees(zero, c, left, x, w, s, t);
    }
  }

  /** The window knows its input from `lo` to `hi + ahead`, silence past the end included. */
  ghost predicate Knows(zero: Sample, x: seq<Sample>, w: seq<Sample>, s: nat, lo: nat, hi: nat, ahead: nat) {
    && hi <= |w| && s + hi <= |x|
    && forall i :: i < hi + ahead && (s == 0 || lo <= i) ==> At(zero, w, i) == At(zero, x, s + i)
  }

  /** The first convolution looks `Lookahead` frames both ways. */
  lemma PreAgrees(d: Net, x: seq<Sample>, w: seq<Sample>, s: nat, lo: nat, hi: nat)
    requires NetOk(d) && Knows(d.zero, x, w, s, lo, hi, Lookahead(d))
    ensures Agree(RunConv(d.zero, d.pre, Lookahead(d), x), RunConv(d.zero, d.pre, Lookahead(d), w), s,
                  lo + Lookahead(d), hi)
  {
    hide ConvSample;
    var la := Lookahead(d);
    forall t | 0 <= t < hi && (s == 0 || lo + la <= t)
      ensures ConvSample(d.zero, d.pre, la, w, t) == ConvSample(d.zero, d.pre, la, x, s + t)
    {
      forall j | 0 <= j < d.pre.kernel
        ensures At(d.zero, w, t + j * 1 - la) == At(d.zero, x, s + t + j * 1 - la)
      {
      }
      ConvSampleAgrees(d.zero, d.pre, la, x, w, s, t);
    }
  }

  /** Position `s * u + n` is phase `n % u` of frame `s + n / u`. */
  lemma Phase(s: nat, n: nat, u: nat)
    requires u > 0
    ensures (s * u + n) / u == s + n / u && (s * u + n) % u == n % u
  {
    Quotient(n, u);
    var q := n / u;
    assert (s + q) * u == s * u + q * u && (s + q + 1) * u == s * u + (q + 1) * u;
    QuotientIs(s * u + n, u, s + q);
    assert n == q * u + n % u;
    assert s * u + n == (s + q) * u + (s * u + n) % u;
  }

  /** `n / u` lies in [lo, hi) when `n` lies in [lo * u, hi * u). */
  lemma QuotientRange(n: nat, u: nat, lo: nat, hi: nat)
    requires u > 0 && n < hi * u
    ensures n / u < hi && (lo * u <= n ==> lo <= n / u)
  {
    Quotient(n, u);
    if n / u >= hi { MulLe(hi, n / u, u); }
    if n / u + 1 <= lo { MulLe(n / u + 1, lo, u); }
  }

  lemma ScaledBounds(s: nat, hi: nat, n: nat, u: nat)
    requires s + hi <= n
    ensures s * u + hi * u <= n * u
  {
    MulAdd(s, hi, u);
    MulLe(s + hi, n, u);
  }

  lemma UpAgrees(zero: Sample, u: UpConv, x: seq<Sample>, w: seq<Sample>, s: nat, lo: nat, hi: nat)
    requires u.stride > 0 && Agree(x, w, s, lo, hi)
    ensures Agree(RunUp(zero, u, x), RunUp(zero, u, w), s * u.stride, (lo + 1) * u.stride, hi * u.stride)
  {
    var k := u.stride;
    ScaledBounds(s, hi, |x|, k);
    ScaledBounds(0, hi, |w|, k);
    if s > 0 { MulLe(1, s, k); }
    forall n | 0 <= n < hi * k && (s * k == 0 || (lo + 1) * k <= n)
      ensures RunUp(zero, u, w)[n] == RunUp(zero, u, x)[s * k + n]
    {
      Phase(s, n, k);
      QuotientRange(n, k, lo + 1, hi);
      ReadsAgree(zero, x, w, s, lo, hi, n / k);
      ReadsAgree(zero, x, w, s, lo, hi, n / k - 1);
      assert RunUp(zero, u, w)[n] == UpSample(zero, u, w, n);
      assert RunUp(zero, u, x)[s * k + n] == UpSample(zero, u, x, s * k + n);
    }
  }

  // ---------------------------------------------------------------- the alias-free activation

  /** An upsampled position reads back at most the filter's length. */
  lemma TapsBack(a: Activation, m: int, j: nat, lo: nat)
    requires 0 < a.ratio < a.upKernel && m >= 0 && j < UpTaps(a, m % a.ratio)
    ensures m >= UpFrom(a, lo) ==> m / a.ratio - j >= lo
  {
    var r, p, q := a.ratio, m % a.ratio, m / a.ratio;
    assert m == q * r + p;
    assert (q - j) * r == q * r - j * r;
    UpTapsPhase(a, p, j);
    if q - j <= lo - 1 {
      MulLe(q - j, lo - 1, r);
      MulAdd(lo, -1, r);
    }
  }

  /** The first upsampled position that reads only samples from `lo` on. */
  function UpFrom(a: Activation, lo: nat): nat
    requires 0 < a.ratio < a.upKernel
  {
    lo * a.ratio + a.upKernel - a.ratio
  }

  lemma UpTapsPhase(a: Activation, p: nat, j: nat)
    requires 0 < a.ratio < a.upKernel && p < a.ratio && j < UpTaps(a, p)
    ensures j * a.ratio + p <= a.upKernel - 1
  {
    var e := a.upKernel - 1 - p;
    Quotient(e, a.ratio);
    MulLe(j, e / a.ratio, a.ratio);
  }

  lemma ActUpAgrees(zero: Sample, a: Activation, x: seq<Sample>, w: seq<Sample>, s: nat, lo: nat, hi: nat)
    requires 0 < a.ratio < a.upKernel && Agree(x, w, s, lo, hi)
    ensures Agree(ActUp(zero, a, x), ActUp(zero, a, w), s * a.ratio, UpFrom(a, lo), hi * a.ratio)
  {
    hide UpTaps;
    var r := a.ratio;
    ScaledBounds(s, hi, |x|, r);
    ScaledBounds(0, hi, |w|, r);
    if s > 0 { MulLe(1, s, r); }
    forall m | 0 <= m < hi * r && (s * r == 0 || UpFrom(a, lo) <= m)
      ensures ActUp(zero, a, w)[m] == ActUp(zero, a, x)[s * r + m]
    {
      ActUpSampleAgrees(zero, a, x, w, s, lo, hi, m);
      assert ActUp(zero, a, w)[m] == ActUpSample(zero, a, w, m);
      assert ActUp(zero, a, x)[s * r + m] == ActUpSample(zero, a, x, s * r + m);
    }
  }

  lemma SameUpTaps(zero: Sample, a: Activation, x: seq<Sample>, w: seq<Sample>, s: nat, lo: nat, hi: nat, m: nat)
    requires 0 < a.ratio < a.upKernel && Agree(x, w, s, lo, hi)
    requires m < hi * a.ratio && (s == 0 || UpFrom(a, lo) <= m)
    ensures UpRead(zero, w, m / a.ratio, UpTaps(a, m % a.ratio))
            == UpRead(zero, x, s + m / a.ratio, UpTaps(a, m % a.ratio))
  {
    hide UpTaps, Agree;
    var q, n := m / a.ratio, UpTaps(a, m % a.ratio);
    QuotientRange(m, a.ratio, lo, hi);
    var u, v := UpRead(zero, w, q, n), UpRead(zero, x, s + q, n);
    forall j | 0 <= j < n
      ensures u[j] == v[j]
    {
      TapsBack(a, m, j, lo);
      ReadsAgree(zero, x, w, s, lo, hi, q - j);
    }
    assert u == v;
  }

  lemma ActUpSampleAgrees(zero: Sample, a: Activation, x: seq<Sample>, w: seq<Sample>, s: nat, lo: nat, hi: nat, m: nat)
    requires 0 < a.ratio < a.upKernel && Agree(x, w, s, lo, hi)
    requires m < hi * a.ratio && (s == 0 || UpFrom(a, lo) <= m)
    ensures s * a.ratio + m >= 0 && ActUpSample(zero, a, w, m) == ActUpSample(zero, a, x, s * a.ratio + m)
  {
    hide UpTaps;
    var r := a.ratio;
    Phase(s, m, r);
    SameUpTaps(zero, a, x, w, s, lo, hi, m);
    assert (s * r + m) / r == s + m / r && (s * r + m) % r == m % r;
    assert ActUpSample(zero, a, w, m) == a.act(a.up(m % r, UpRead(zero, w, m / r, UpTaps(a, m % r))));
    assert ActUpSample(zero, a, x, s * r + m) == a.act(a.up(m % r, UpRead(zero, x, s + m / r, UpTaps(a, m % r))));
  }

  /** The computed context of an activation covers both filters, is no sample more than it need be, and is what
      the activation reads exactly if the filters come to whole samples. */
  lemma ActContextCovers(a: Activation)
    requires 0 < a.ratio < a.upKernel && 0 < a.downKernel
    ensures var total, c := a.upKernel - 1 + (a.downKernel - 1), ActContext(a);
            && c * a.ratio >= total > (c - 1) * a.ratio
            && ActReach(a) <= c <= ActReach(a) + 1 && (c == ActReach(a) <==> total % a.ratio == 0)
  {
    RoundedUp(a.upKernel - 1 + (a.downKernel - 1), a.ratio);
  }

  /** Rounding up against rounding down. */
  lemma RoundedUp(total: nat, r: nat)
    requires r > 0
    ensures var b, c := total / r, (total + r - 1) / r;
            c * r >= total > (c - 1) * r && c == if total % r == 0 then b else b + 1
  {
    var b := total / r;
    var c := if total % r == 0 then b else b + 1;
    assert total == b * r + total % r;
    MulAdd(b, 1, r);
    MulAdd(c, -1, r);
    QuotientIs(total + r - 1, r, c);
  }

  /** Past what an activation reads, the lowpass filter sees only positions that are right. */
  lemma ActReachCovers(a: Activation, lo: nat, t: nat)
    requires 0 < a.ratio < a.upKernel && 0 < a.downKernel && t >= lo + ActReach(a)
    ensures t * a.ratio - (a.downKernel - 1) >= UpFrom(a, lo)
  {
    var total := a.upKernel - 1 + (a.downKernel - 1);
    Quotient(total, a.ratio);
    MulLe(lo + ActReach(a), t, a.ratio);
    MulAdd(lo, ActReach(a), a.ratio);
  }

  lemma ActAgrees(zero: Sample, a: Activation, x: seq<Sample>, w: seq<Sample>, s: nat, lo: nat, hi: nat)
    requires 0 < a.ratio < a.upKernel && 0 < a.downKernel && Agree(x, w, s, lo, hi)
    ensures Agree(RunAct(zero, a, x), RunAct(zero, a, w), s, lo + ActReach(a), hi)
  {
    hide ActReach, ActUp, ActDownSample;
    ActUpAgrees(zero, a, x, w, s, lo, hi);
    forall t | 0 <= t < hi && (s == 0 || lo + ActReach(a) <= t)
      ensures RunAct(zero, a, w)[t] == RunAct(zero, a, x)[s + t]
    {
      ActDownSampleAgrees(zero, a, ActUp(zero, a, x), ActUp(zero, a, w), s, lo, hi, t);
    }
  }

  lemma ActDownSampleAgrees(zero: Sample, a: Activation, x: seq<Sample>, w: seq<Sample>, s: nat, lo: nat, hi: nat,
                            t: nat)
    requires 0 < a.ratio < a.upKernel && 0 < a.downKernel && t < hi
    requires Agree(x, w, s * a.ratio, UpFrom(a, lo), hi * a.ratio)
    requires s == 0 || lo + ActReach(a) <= t
    ensures ActDownSample(zero, a, w, t) == ActDownSample(zero, a, x, s + t)
  {
    hide ActReach, Agree;
    var r, k := a.ratio, a.downKernel;
    if s > 0 { ActReachCovers(a, lo, t); }
    MulAdd(s, t, r);
    MulLe(t + 1, hi, r);
    MulAdd(t, 1, r);
    var u, v := DownRead(zero, a, w, t * r), DownRead(zero, a, x, (s + t) * r);
    forall j | 0 <= j < k
      ensures u[j] == v[j]
    {
      var i := Max(0, t * r + j - (k - 1));
      assert Max(0, (s + t) * r + j - (k - 1)) == s * r + i;
      ReadsAgree(zero, x, w, s * r, UpFrom(a, lo), hi * r, i);
    }
    assert u == v;
  }

  // ---------------------------------------------------------------- blocks and stages

  lemma ElemAgrees(zero: Sample, e: Elem, x: seq<Sample>, w: seq<Sample>, s: nat, lo: nat, hi: nat)
    requires ElemOk(e) && Agree(x, w, s, lo, hi)
    ensures Agree(RunElem(zero, e, x), RunElem(zero, e, w), s, lo + ElemContext(ActReach, e), hi)
  {
    hide Agree, RunAct, RunConv, ActReach;
    match e
    case Act(a) => ActAgrees(zero, a, x, w, s, lo, hi);
    case Cnv(c) => ConvAgrees(zero, c, x, w, s, lo, hi);
  }

  lemma {:induction false} BranchAgrees(zero: Sample, es: seq<Elem>, x: seq<Sample>, w: seq<Sample>, s: nat, lo: nat,
                                        hi: nat)
    requires Agree(x, w, s, lo, hi) && forall i :: 0 <= i < |es| ==> ElemOk(es[i])
    ensures Agree(RunBranch(zero, es, x), RunBranch(zero, es, w), s, lo + BranchContext(ActReach, es), hi)
  {
    hide Agree, RunElem, ElemContext;
    if es != [] {
      ElemAgrees(zero, es[0], x, w, s, lo, hi);
      BranchAgrees(zero, es[1..], RunElem(zero, es[0], x), RunElem(zero, es[0], w), s,
                   lo + ElemContext(ActReach, es[0]), hi);
    }
  }

  lemma AddedAgrees(add: (Sample, Sample) -> Sample, x: seq<Sample>, w: seq<Sample>, x': seq<Sample>, w': seq<Sample>,
                    s: nat, lo: nat, more: nat, hi: nat)
    requires |x| == |x'| && |w| == |w'| && Agree(x, w, s, lo, hi) && Agree(x', w', s, lo + more, hi)
    ensures Agree(Added(add, x', x), Added(add, w', w), s, lo + more, hi)
  {
  }

  lemma {:induction false} BranchesAgree(zero: Sample, add: (Sample, Sample) -> Sample, bs: seq<seq<Elem>>,
                                         x: seq<Sample>, w: seq<Sample>, s: nat, lo: nat, hi: nat)
    requires Agree(x, w, s, lo, hi)
    requires forall i, j :: 0 <= i < |bs| && 0 <= j < |bs[i]| ==> ElemOk(bs[i][j])
    ensures Agree(RunBranches(zero, add, bs, x), RunBranches(zero, add, bs, w), s,
                  lo + BranchesContext(ActReach, bs), hi)
  {
    hide Agree, RunBranch, BranchContext, Added;
    if bs != [] {
      BranchAgrees(zero, bs[0], x, w, s, lo, hi);
      var x', w' := RunBranch(zero, bs[0], x), RunBranch(zero, bs[0], w);
      AddedAgrees(add, x, w, x', w', s, lo, BranchContext(ActReach, bs[0]), hi);
      BranchesAgree(zero, add, bs[1..], Added(add, x', x), Added(add, w', w), s,
                    lo + BranchContext(ActReach, bs[0]), hi);
    }
  }

  lemma Weaken(x: seq<Sample>, w: seq<Sample>, s: nat, lo: nat, lo': nat, hi: nat)
    requires Agree(x, w, s, lo, hi) && lo <= lo'
    ensures Agree(x, w, s, lo', hi)
  {
  }

  lemma BlockAgrees(zero: Sample, st: Stage, k: nat, x: seq<Sample>, w: seq<Sample>, s: nat, lo: nat, hi: nat)
    requires StageOk(st) && k < |st.blocks| && Agree(x, w, s, lo, hi)
    ensures BlockOk(st.blocks[k])
    ensures Agree(RunBlock(zero, st.blocks[k], x), RunBlock(zero, st.blocks[k], w), s,
                  lo + StageContext(ActReach, st.blocks), hi)
  {
    hide Agree, RunBranches, BranchesContext, StageContext;
    var b := st.blocks[k];
    assert BlockOk(b);
    BranchesAgree(zero, b.add, b.branches, x, w, s, lo, hi);
    Weaken(RunBlock(zero, b, x), RunBlock(zero, b, w), s, lo + BlockContext(ActReach, b),
           lo + StageContext(ActReach, st.blocks), hi);
  }

  lemma BlocksAgree(zero: Sample, st: Stage, x: seq<Sample>, w: seq<Sample>, s: nat, lo: nat, hi: nat)
    requires StageOk(st) && Agree(x, w, s, lo, hi)
    ensures Agree(RunBlocks(zero, st, x), RunBlocks(zero, st, w), s, lo + StageContext(ActReach, st.blocks), hi)
  {
    hide RunBlock, StageContext, BlockContext;
    var ctx := StageContext(ActReach, st.blocks);
    forall n | 0 <= n < hi && (s == 0 || lo + ctx <= n)
      ensures RunBlocks(zero, st, w)[n] == RunBlocks(zero, st, x)[s + n]
    {
      forall k | 0 <= k < |st.blocks|
        ensures BlockOk(st.blocks[k]) && RunBlock(zero, st.blocks[k], w)[n] == RunBlock(zero, st.blocks[k], x)[s + n]
      {
        BlockAgrees(zero, st, k, x, w, s, lo, hi);
      }
      var p := seq(|st.blocks|, j requires 0 <= j < |st.blocks| => assert BlockOk(st.blocks[j]);
                   RunBlock(zero, st.blocks[j], w)[n]);
      var q := seq(|st.blocks|, j requires 0 <= j < |st.blocks| => assert BlockOk(st.blocks[j]);
                   RunBlock(zero, st.blocks[j], x)[s + n]);
      assert p == q;
    }
  }

  // ---------------------------------------------------------------- along the list of reaches

  lemma {:induction false} RateOfSum(a: seq<Reach>, b: seq<Reach>)
    requires Proper(a) && Proper(b)
    ensures Proper(a + b) && Rate(a + b) == Rate(a) * Rate(b)
    decreases |a|
  {
    if a == [] {
      assert a + b == b;
    } else {
      assert (a + b)[1..] == a[1..] + b;
      RateOfSum(a[1..], b);
      if a[0].Upsample? { MulAssociative(a[0].stride, Rate(a[1..]), Rate(b)); }
    }
  }

  lemma {:induction false} RightOfSum(a: seq<Reach>, b: seq<Reach>, lo: int)
    ensures FirstRight(a + b, lo) == FirstRight(b, FirstRight(a, lo))
    decreases |a|
  {
    if a == [] {
      assert a + b == b;
    } else {
      assert (a + b)[1..] == a[1..] + b;
      RightOfSum(a[1..], b, if a[0].Shift? then lo + a[0].context else (lo + 1) * a[0].stride);
    }
  }

  lemma {:induction false} RightGrows(rs: seq<Reach>, lo: int)
    requires Proper(rs) && lo >= 0
    ensures FirstRight(rs, lo) >= 0
    decreases |rs|
  {
    if rs != [] {
      if rs[0].Upsample? { MulLe(1, rs[0].stride, lo + 1); }
      RightGrows(rs[1..], if rs[0].Shift? then lo + rs[0].context else (lo + 1) * rs[0].stride);
    }
  }

  /** A part of the decoder that carries agreement along its reaches. */
  predicate Carried(rs: seq<Reach>, x: seq<Sample>, w: seq<Sample>, x': seq<Sample>, w': seq<Sample>, s: nat, lo: nat,
                    hi: nat) {
    && Proper(rs) && FirstRight(rs, lo) >= 0
    && |x'| == |x| * Rate(rs) && |w'| == |w| * Rate(rs)
    && Agree(x', w', s * Rate(rs), FirstRight(rs, lo), hi * Rate(rs))
  }

  lemma {:induction false} UpsCarry(zero: Sample, us: seq<UpConv>, x: seq<Sample>, w: seq<Sample>, s: nat, lo: nat,
                                    hi: nat)
    requires Agree(x, w, s, lo, hi) && forall i :: 0 <= i < |us| ==> us[i].stride > 0
    ensures Carried(UpReaches(us), x, w, RunUps(zero, us, x), RunUps(zero, us, w), s, lo, hi)
    decreases |us|
  {
    hide Agree, RunUp;
    if us != [] {
      var u, rest := us[0], UpReaches(us[1..]);
      var k, r := u.stride, Rate(rest);
      assert UpReaches(us)[1..] == rest;
      UpAgrees(zero, u, x, w, s, lo, hi);
      UpsCarry(zero, us[1..], RunUp(zero, u, x), RunUp(zero, u, w), s * k, (lo + 1) * k, hi * k);
      MulAssociative(s, k, r);
      MulAssociative(hi, k, r);
      MulAssociative(|x|, k, r);
      MulAssociative(|w|, k, r);
    }
  }

  lemma StageCarries(zero: Sample, st: Stage, x: seq<Sample>, w: seq<Sample>, s: nat, lo: nat, hi: nat)
    requires StageOk(st) && Agree(x, w, s, lo, hi)
    ensures Carried(UpReaches(st.ups) + [Shift(StageContext(ActReach, st.blocks))], x, w,
                    RunBlocks(zero, st, RunUps(zero, st.ups, x)), RunBlocks(zero, st, RunUps(zero, st.ups, w)), s, lo,
                      hi)
  {
    hide Agree, RunBlocks, RunUps, StageContext, UpReaches;
    var rs, c := UpReaches(st.ups), StageContext(ActReach, st.blocks);
    UpsCarry(zero, st.ups, x, w, s, lo, hi);
    var x', w' := RunUps(zero, st.ups, x), RunUps(zero, st.ups, w);
    BlocksAgree(zero, st, x', w', s * Rate(rs), FirstRight(rs, lo), hi * Rate(rs));
    RateOfSum(rs, [Shift(c)]);
    RightOfSum(rs, [Shift(c)], lo);
    ShiftAlone(c, FirstRight(rs, lo));
  }

  lemma ShiftAlone(c: nat, lo: int)
    ensures FirstRight([Shift(c)], lo) == lo + c && Rate([Shift(c)]) == 1
  {
    assert [Shift(c)][1..] == [];
  }

  lemma Compose(a: seq<Reach>, b: seq<Reach>, x: seq<Sample>, w: seq<Sample>, x': seq<Sample>, w': seq<Sample>,
                x'': seq<Sample>, w'': seq<Sample>, s: nat, lo: nat, hi: nat)
    requires Carried(a, x, w, x', w', s, lo, hi)
    requires Carried(b, x', w', x'', w'', s * Rate(a), FirstRight(a, lo), hi * Rate(a))
    ensures Carried(a + b, x, w, x'', w'', s, lo, hi)
  {
    hide Agree, Rate, FirstRight;
    RateOfSum(a, b);
    RightOfSum(a, b, lo);
    MulAssociative(s, Rate(a), Rate(b));
    MulAssociative(hi, Rate(a), Rate(b));
    MulAssociative(|x|, Rate(a), Rate(b));
    MulAssociative(|w|, Rate(a), Rate(b));
  }

  lemma {:induction false} StagesCarry(zero: Sample, sts: seq<Stage>, x: seq<Sample>, w: seq<Sample>, s: nat, lo: nat,
                                       hi: nat)
    requires Agree(x, w, s, lo, hi) && forall i :: 0 <= i < |sts| ==> StageOk(sts[i])
    ensures Carried(StageReaches(ActReach, sts), x, w, RunStages(zero, sts, x), RunStages(zero, sts, w), s, lo, hi)
    decreases |sts|
  {
    hide Agree, RunBlocks, RunUps, StageContext, UpReaches;
    if sts != [] {
      var st := sts[0];
      assert StageOk(st);
      var a := UpReaches(st.ups) + [Shift(StageContext(ActReach, st.blocks))];
      StageCarries(zero, st, x, w, s, lo, hi);
      var x', w' := RunBlocks(zero, st, RunUps(zero, st.ups, x)), RunBlocks(zero, st, RunUps(zero, st.ups, w));
      StagesCarry(zero, sts[1..], x', w', s * Rate(a), FirstRight(a, lo), hi * Rate(a));
      Compose(a, StageReaches(ActReach, sts[1..]), x, w, x', w', RunStages(zero, sts[1..], x'),
              RunStages(zero, sts[1..], w'), s, lo, hi);
    }
  }

  function Post(d: Net, y: seq<Sample>): seq<Sample>
    requires NetOk(d)
  {
    Mapped(d.bound, RunConv(d.zero, d.postConv, d.postConv.Causal(), RunAct(d.zero, d.postAct, y)))
  }

  lemma PostCarries(d: Net, x: seq<Sample>, w: seq<Sample>, s: nat, lo: nat, hi: nat)
    requires NetOk(d) && Agree(x, w, s, lo, hi)
    ensures Carried(PostReaches(ActReach, d), x, w, Post(d, x), Post(d, w), s, lo, hi)
  {
    hide RunAct, RunConv, ActReach;
    assert PostReaches(ActReach, d)[1..] == [Shift(d.postConv.Causal())];
    ShiftAlone(d.postConv.Causal(), lo + ActReach(d.postAct));
    ActAgrees(d.zero, d.postAct, x, w, s, lo, hi);
    ConvAgrees(d.zero, d.postConv, RunAct(d.zero, d.postAct, x), RunAct(d.zero, d.postAct, w), s,
               lo + ActReach(d.postAct), hi);
  }

  lemma PreCarries(d: Net, x: seq<Sample>, w: seq<Sample>, s: nat, lo: nat, hi: nat)
    requires NetOk(d) && Knows(d.zero, x, w, s, lo, hi, Lookahead(d))
    ensures Carried([Shift(Lookahead(d))], x, w, RunConv(d.zero, d.pre, Lookahead(d), x),
                    RunConv(d.zero, d.pre, Lookahead(d), w), s, lo, hi)
  {
    hide RunConv, Knows, Agree;
    PreAgrees(d, x, w, s, lo, hi);
    ShiftAlone(Lookahead(d), lo);
  }

  /** Agreement carried through the whole decoder. */
  lemma DecodeCarries(d: Net, x: seq<Sample>, w: seq<Sample>, s: nat, lo: nat, hi: nat)
    requires NetOk(d) && Knows(d.zero, x, w, s, lo, hi, Lookahead(d))
    ensures Carried(ExactReaches(d), x, w, Decode(d, x), Decode(d, w), s, lo, hi)
  {
    hide RunConv, RunAct, RunStages, StageReaches, PostReaches, Knows, Agree, StageOk, Mapped;
    var la := Lookahead(d);
    var pre := [Shift(la)];
    PreCarries(d, x, w, s, lo, hi);
    ShiftAlone(la, lo);
    var x1, w1 := RunConv(d.zero, d.pre, la, x), RunConv(d.zero, d.pre, la, w);
    StagesCarry(d.zero, d.stages, x1, w1, s, lo + la, hi);
    var x2, w2 := RunStages(d.zero, d.stages, x1), RunStages(d.zero, d.stages, w1);
    var a := StageReaches(ActReach, d.stages);
    PostCarries(d, x2, w2, s * Rate(a), FirstRight(a, lo + la), hi * Rate(a));
    Compose(a, PostReaches(ActReach, d), x1, w1, x2, w2, Post(d, x2), Post(d, w2), s, lo + la, hi);
    Compose(pre, a + PostReaches(ActReach, d), x, w, x1, w1, Post(d, x2), Post(d, w2), s, lo, hi);
  }

  /** Two lists of reaches of the same layers, one never reading further back than the other. */
  predicate Below(a: seq<Reach>, b: seq<Reach>) {
    && |a| == |b|
    && forall i :: 0 <= i < |a| ==>
         if a[i].Shift? then b[i].Shift? && a[i].context <= b[i].context else a[i] == b[i]
  }

  lemma {:induction false} BelowRight(a: seq<Reach>, b: seq<Reach>, lo: int, lo': int)
    requires Proper(a) && Proper(b) && Below(a, b) && lo <= lo'
    ensures Rate(a) == Rate(b) && FirstRight(a, lo) <= FirstRight(b, lo')
    decreases |a|
  {
    if a != [] {
      if a[0].Shift? {
        BelowRight(a[1..], b[1..], lo + a[0].context, lo' + b[0].context);
      } else {
        MulLe(lo + 1, lo' + 1, a[0].stride);
        BelowRight(a[1..], b[1..], (lo + 1) * a[0].stride, (lo' + 1) * a[0].stride);
      }
    }
  }

  ghost predicate NotAbove(c: Context, c': Context) {
    forall a: Activation :: c(a) <= c'(a)
  }

  lemma {:induction false} BranchNotAbove(c: Context, c': Context, es: seq<Elem>)
    requires NotAbove(c, c') && forall i :: 0 <= i < |es| ==> ElemOk(es[i])
    ensures BranchContext(c, es) <= BranchContext(c', es)
  {
    if es != [] { BranchNotAbove(c, c', es[1..]); }
  }

  lemma {:induction false} BranchesNotAbove(c: Context, c': Context, bs: seq<seq<Elem>>)
    requires NotAbove(c, c') && forall i, j :: 0 <= i < |bs| && 0 <= j < |bs[i]| ==> ElemOk(bs[i][j])
    ensures BranchesContext(c, bs) <= BranchesContext(c', bs)
  {
    hide BranchContext, NotAbove;
    if bs != [] {
      BranchNotAbove(c, c', bs[0]);
      BranchesNotAbove(c, c', bs[1..]);
    }
  }

  lemma StageNotAbove(c: Context, c': Context, st: Stage)
    requires NotAbove(c, c') && StageOk(st)
    ensures StageContext(c, st.blocks) <= StageContext(c', st.blocks)
  {
    hide BranchesContext, NotAbove;
    var i :| 0 <= i < |st.blocks| && BlockContext(c, st.blocks[i]) == StageContext(c, st.blocks);
    BranchesNotAbove(c, c', st.blocks[i].branches);
    assert BlockContext(c', st.blocks[i]) <= StageContext(c', st.blocks);
  }

  lemma {:induction false} StagesBelow(c: Context, c': Context, sts: seq<Stage>)
    requires NotAbove(c, c') && forall i :: 0 <= i < |sts| ==> StageOk(sts[i])
    ensures Below(StageReaches(c, sts), StageReaches(c', sts))
    decreases |sts|
  {
    hide StageContext, UpReaches, NotAbove, Below;
    if sts == [] {
      BelowItself([]);
    } else {
      assert StageOk(sts[0]);
      var ups, a, b := UpReaches(sts[0].ups), StageContext(c, sts[0].blocks), StageContext(c', sts[0].blocks);
      StageNotAbove(c, c', sts[0]);
      StagesBelow(c, c', sts[1..]);
      BelowItself(ups);
      BelowShift(a, b);
      BelowSum(ups, ups, [Shift(a)], [Shift(b)]);
      BelowSum(ups + [Shift(a)], ups + [Shift(b)], StageReaches(c, sts[1..]), StageReaches(c', sts[1..]));
    }
  }

  lemma BelowItself(a: seq<Reach>)
    ensures Below(a, a)
  {
  }

  lemma BelowShift(a: nat, b: nat)
    requires a <= b
    ensures Below([Shift(a)], [Shift(b)])
  {
  }

  lemma BelowSum(a: seq<Reach>, b: seq<Reach>, c: seq<Reach>, d: seq<Reach>)
    requires Below(a, b) && Below(c, d)
    ensures Below(a + c, b + d)
  {
  }

  lemma NetBelow(c: Context, c': Context, d: Net)
    requires NotAbove(c, c') && NetOk(d)
    ensures Rate(ReachesBy(c, d)) == Rate(ReachesBy(c', d))
    ensures LeftContext(ReachesBy(c, d)) <= LeftContext(ReachesBy(c', d))
  {
    hide StageReaches, Rate, FirstRight, CeilDiv;
    StagesBelow(c, c', d.stages);
    BelowRight(ReachesBy(c, d), ReachesBy(c', d), 0, 0);
    CeilMonotone(FirstRight(ReachesBy(c, d), 0), FirstRight(ReachesBy(c', d), 0), Rate(ReachesBy(c, d)));
  }

  lemma CeilMonotone(a: int, b: int, n: nat)
    requires n > 0 && a <= b
    ensures CeilDiv(a, n) <= CeilDiv(b, n)
  {
    DivMonotone(-b, -a, n);
  }

  /** The left context as computed covers what the layers read, at the same rate. */
  lemma ExactIsBelow(d: Net)
    requires NetOk(d)
    ensures Rate(ExactReaches(d)) == Rate(Reaches(d)) && LeftContext(ExactReaches(d)) <= LeftContext(Reaches(d))
  {
    hide ReachesBy, Rate, LeftContext;
    forall a: Activation ensures ActReach(a) <= ActContext(a) {
      if a.ratio > 0 && a.upKernel > 0 && a.downKernel > 0 {
        DivMonotone(a.upKernel - 1 + (a.downKernel - 1), a.upKernel - 1 + (a.downKernel - 1) + a.ratio - 1, a.ratio);
      }
    }
    NetBelow(ActReach, ActContext, d);
  }

  /** The decoder makes `Rate` samples of every frame. */
  lemma DecodeLength(d: Net, x: seq<Sample>)
    requires NetOk(d)
    ensures |Decode(d, x)| == |x| * Rate(Reaches(d))
  {
    hide Decode, Reaches, ExactReaches, Rate, FirstRight;
    ExactIsBelow(d);
    DecodeCarries(d, x, x, 0, 0, |x|);
  }

  lemma CarriedSlice(rs: seq<Reach>, x: seq<Sample>, w: seq<Sample>, x': seq<Sample>, w': seq<Sample>, s: nat,
                     lo: nat, f: nat, g: nat)
    requires f <= g && g <= |w| && s + g <= |x| && Carried(rs, x, w, x', w', s, lo, g)
    requires s == 0 || f * Rate(rs) >= FirstRight(rs, lo)
    ensures 0 <= f * Rate(rs) <= g * Rate(rs) <= |w'| && 0 <= (s + f) * Rate(rs) <= (s + g) * Rate(rs) <= |x'|
    ensures w'[f * Rate(rs)..g * Rate(rs)] == x'[(s + f) * Rate(rs)..(s + g) * Rate(rs)]
  {
    hide Rate, FirstRight, Agree;
    var r := Rate(rs);
    MulAdd(s, f, r);
    MulAdd(s, g, r);
    MulLe(f, g, r);
    MulLe(s + g, |x|, r);
    MulLe(g, |w|, r);
    MulLe(0, f, r);
    MulLe(0, s, r);
    AgreeSlice(x', w', s * r, FirstRight(rs, lo), f * r, g * r);
  }

  /** Decoding a window gives the frames [s + f, s + g) of decoding the whole, sample for sample, if the
      window knows its input on [lo, g + lookahead) and `f` is as far past `lo` as the layers read, or the
      window starts at the start. */
  lemma WindowDecodesExactly(d: Net, x: seq<Sample>, w: seq<Sample>, s: nat, lo: nat, f: nat, g: nat)
    requires NetOk(d) && f <= g
    requires Knows(d.zero, x, w, s, lo, g, Lookahead(d))
    requires s == 0 || f >= lo + LeftContext(ExactReaches(d))
    ensures SameFrames(d, x, w, s, f, g)
  {
    hide Decode, Reaches, ExactReaches, Rate, FirstRight, LeftContext, Carried, Agree;
    ExactIsBelow(d);
    var rs := ExactReaches(d);
    DecodeCarries(d, x, w, s, lo, g);
    RightFrames(rs, lo, f);
    CarriedSlice(rs, x, w, Decode(d, x), Decode(d, w), s, lo, f, g);
  }

  /** Frames [f, g) of decoding the window are frames [s + f, s + g) of decoding the whole. */
  ghost predicate SameFrames(d: Net, x: seq<Sample>, w: seq<Sample>, s: nat, f: nat, g: nat)
    requires NetOk(d)
  {
    var r := Rate(Reaches(d));
    0 <= f * r <= g * r <= |Decode(d, w)| && 0 <= (s + f) * r <= (s + g) * r <= |Decode(d, x)|
    && Decode(d, w)[f * r..g * r] == Decode(d, x)[(s + f) * r..(s + g) * r]
  }

  /** So they are a left context, as computed, past `lo`. */
  lemma WindowDecodes(d: Net, x: seq<Sample>, w: seq<Sample>, s: nat, lo: nat, f: nat, g: nat)
    requires NetOk(d) && f <= g
    requires Knows(d.zero, x, w, s, lo, g, Lookahead(d))
    requires s == 0 || f >= lo + LeftContext(Reaches(d))
    ensures var r := Rate(Reaches(d));
            0 <= f * r <= g * r <= |Decode(d, w)| && 0 <= (s + f) * r <= (s + g) * r <= |Decode(d, x)|
            && Decode(d, w)[f * r..g * r] == Decode(d, x)[(s + f) * r..(s + g) * r]
  {
    hide Decode, Reaches, ExactReaches, Rate, LeftContext, Knows;
    ExactIsBelow(d);
    WindowDecodesExactly(d, x, w, s, lo, f, g);
  }
}
