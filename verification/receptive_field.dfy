/** How far back a causal upsampling decoder reads, three ways: layer by layer from a sample back to
    the frames it reads, forwards as the first sample that is right when only the frames from some
    point on are, and as one exact rational sum with a single final ceiling.  They agree.
 */
module ReceptiveField {
  import opened Arithmetic

  /** One layer as far as indices go: a layer that reads `context` samples back at its own rate, or a
      transposed convolution of stride `stride` that reads the current and the previous sample. */
  datatype Reach = Shift(context: nat) | Upsample(stride: nat)

  predicate Proper(rs: seq<Reach>) {
    forall i :: 0 <= i < |rs| ==> rs[i].Upsample? ==> rs[i].stride > 0
  }

  /** Output samples per input frame. */
  function Rate(rs: seq<Reach>): (r: nat)
    requires Proper(rs)
    ensures r > 0
  {
    if rs == [] then 1
    else if rs[0].Shift? then Rate(rs[1..])
    else MulPositive(rs[0].stride, Rate(rs[1..])); rs[0].stride * Rate(rs[1..])
  }

  /** The first input index that output sample `n` reads, layer by layer from the output back. */
  function FirstRead(rs: seq<Reach>, n: int): int
    requires Proper(rs)
  {
    if rs == [] then n
    else
      var m := FirstRead(rs[1..], n);
      if rs[0].Shift? then m - rs[0].context else m / rs[0].stride - 1
  }

  /** The first output index that is right when every input from `lo` on is. */
  function FirstRight(rs: seq<Reach>, lo: int): int {
    if rs == [] then lo
    else FirstRight(rs[1..], if rs[0].Shift? then lo + rs[0].context else (lo + 1) * rs[0].stride)
  }

  // ---------------------------------------------------------------- exact rationals

  datatype Fraction = Fraction(num: int, den: nat) {
    predicate Valid() { den > 0 }

    function Add(b: Fraction): Fraction { Fraction(num * b.den + b.num * den, den * b.den) }

    function Times(n: int): Fraction { Fraction(num * n, den) }

    function DivideBy(n: nat): Fraction { Fraction(num, den * n) }

    function Ceil(): int
      requires Valid()
    {
      CeilDiv(num, den)
    }
  }

  /** The ceiling of a / b. */
  function CeilDiv(a: int, b: nat): int
    requires b > 0
  {
    -((-a) / b)
  }

  /** The rational sum as it is accumulated, layer by layer at a shrinking scale. */
  function Accumulate(rs: seq<Reach>, left: Fraction, scale: Fraction): Fraction {
    if rs == [] then left
    else if rs[0].Shift? then Accumulate(rs[1..], left.Add(scale.Times(rs[0].context)), scale)
    else Accumulate(rs[1..], left.Add(scale.Times(1)), scale.DivideBy(rs[0].stride))
  }

  /** The left context of a decoder in frames. */
  function LeftContext(rs: seq<Reach>): int
    requires Proper(rs)
  {
    CeilDiv(FirstRight(rs, 0), Rate(rs))
  }

  // ---------------------------------------------------------------- integer arithmetic

  lemma CeilBounds(a: int, b: nat)
    requires b > 0
    ensures (CeilDiv(a, b) - 1) * b < a <= CeilDiv(a, b) * b
  {
    Quotient(-a, b);
    var q := (-a) / b;
    assert CeilDiv(a, b) * b == -(q * b);
    assert (CeilDiv(a, b) - 1) * b == -((q + 1) * b);
  }

  lemma CeilIs(a: int, b: nat, d: int)
    requires b > 0 && (d - 1) * b < a <= d * b
    ensures CeilDiv(a, b) == d
  {
    assert (-d) * b == -(d * b) && (-d + 1) * b == -((d - 1) * b);
    QuotientIs(-a, b, -d);
  }

  lemma CeilShift(a: int, b: nat, c: int)
    requires b > 0
    ensures CeilDiv(a + c * b, b) == c + CeilDiv(a, b)
  {
    CeilBounds(a, b);
    var d := CeilDiv(a, b);
    assert (c + d) * b == c * b + d * b && (c + d - 1) * b == c * b + (d - 1) * b;
    CeilIs(a + c * b, b, c + d);
  }

  /** A ceiling before an integer division changes nothing. */
  lemma CeilOfCeil(a: int, b: nat, u: nat)
    requires b > 0 && u > 0 && u * b > 0
    ensures CeilDiv(a, u * b) == CeilDiv(CeilDiv(a, b), u)
  {
    var k := CeilDiv(a, b);
    var d := CeilDiv(k, u);
    CeilBounds(a, b);
    CeilBounds(k, u);
    MulLe(k, d * u, b);
    MulLe((d - 1) * u, k - 1, b);
    assert d * u * b == d * (u * b) && (d - 1) * u * b == (d - 1) * (u * b);
    CeilIs(a, u * b, d);
  }

  lemma FloorShift(f: int, k: int, u: nat)
    requires u > 0
    ensures (f * u - k) / u == f - CeilDiv(k, u)
  {
    var d := CeilDiv(k, u);
    CeilBounds(k, u);
    assert (f - d) * u == f * u - d * u && (f - d + 1) * u == f * u - (d - 1) * u;
    QuotientIs(f * u - k, u, f - d);
  }

  // ---------------------------------------------------------------- the three readings agree

  lemma {:induction false} FirstRightShift(rs: seq<Reach>, lo: int, c: int)
    requires Proper(rs)
    ensures FirstRight(rs, lo + c) == FirstRight(rs, lo) + c * Rate(rs)
    decreases |rs|
  {
    if rs != [] {
      if rs[0].Shift? {
        FirstRightShift(rs[1..], lo + rs[0].context, c);
      } else {
        var u, r := rs[0].stride, Rate(rs[1..]);
        FirstRightShift(rs[1..], (lo + 1) * u, c * u);
        MulAdd(lo + 1, c, u);
        MulAssociative(c, u, r);
      }
    }
  }

  lemma UpsampleReach(f: int, a: int, r: nat, u: nat)
    requires r > 0 && u > 0
    ensures f * u * r == f * (u * r) && u * r > 0
    ensures (f * u - CeilDiv(a, r)) / u - 1 == f - CeilDiv(a + u * r, u * r)
  {
    hide CeilDiv;
    MulPositive(u, r);
    FloorShift(f, CeilDiv(a, r), u);
    CeilShift(a, u * r, 1);
    CeilOfCeil(a, r, u);
  }

  /** The first sample of frame `f` reads exactly the left context back. */
  lemma {:induction false} FirstSampleReach(rs: seq<Reach>, f: int)
    requires Proper(rs)
    ensures FirstRead(rs, f * Rate(rs)) == f - LeftContext(rs)
    decreases |rs|
  {
    hide CeilDiv;
    if rs == [] {
      CeilIs(0, 1, 0);
    } else {
      var rest := rs[1..];
      if rs[0].Shift? {
        FirstSampleReach(rest, f);
        FirstRightShift(rest, 0, rs[0].context);
        CeilShift(FirstRight(rest, 0), Rate(rest), rs[0].context);
      } else {
        FirstSampleReach(rest, f * rs[0].stride);
        FirstRightShift(rest, 0, rs[0].stride);
        UpsampleReach(f, FirstRight(rest, 0), Rate(rest), rs[0].stride);
      }
    }
  }

  /** Later samples never read earlier. */
  lemma {:induction false} FirstReadMonotone(rs: seq<Reach>, n: int, m: int)
    requires Proper(rs) && n <= m
    ensures FirstRead(rs, n) <= FirstRead(rs, m)
    decreases |rs|
  {
    if rs != [] {
      FirstReadMonotone(rs[1..], n, m);
      if rs[0].Upsample? {
        DivMonotone(FirstRead(rs[1..], n), FirstRead(rs[1..], m), rs[0].stride);
      }
    }
  }

  lemma DivMonotone(a: int, b: int, u: nat)
    requires u > 0 && a <= b
    ensures a / u <= b / u
  {
    Quotient(a, u);
    Quotient(b, u);
    var p, q := a / u, b / u;
    if q + 1 <= p { MulLe(q + 1, p, u); }
  }

  /** No sample of frame `f` reads any frame before `f - LeftContext`, and the bound is attained. */
  lemma FrameReach(rs: seq<Reach>, f: int, k: nat)
    requires Proper(rs) && k < Rate(rs)
    ensures FirstRead(rs, f * Rate(rs) + k) >= f - LeftContext(rs)
    ensures FirstRead(rs, f * Rate(rs)) == f - LeftContext(rs)
  {
    FirstSampleReach(rs, f);
    FirstReadMonotone(rs, f * Rate(rs), f * Rate(rs) + k);
  }

  /** The frames whose every sample is right are exactly those the left context past `lo`. */
  lemma RightFrames(rs: seq<Reach>, lo: int, f: int)
    requires Proper(rs)
    ensures f * Rate(rs) >= FirstRight(rs, lo) <==> f >= lo + LeftContext(rs)
  {
    var a, r := FirstRight(rs, 0), Rate(rs);
    FirstRightShift(rs, 0, lo);
    CeilBounds(a, r);
    var d := LeftContext(rs);
    assert f * r - lo * r == (f - lo) * r;
    if f - lo >= d {
      MulLe(d, f - lo, r);
    } else {
      MulLe(f - lo, d - 1, r);
    }
  }

  /** The accumulated fraction has the value FirstRight / Rate of what was accumulated. */
  lemma {:induction false} AccumulatedValue(rs: seq<Reach>, left: Fraction, rate: nat, lo: int)
    requires Proper(rs) && rate > 0 && left.Valid() && left.num * rate == lo * left.den
    ensures var x := Accumulate(rs, left, Fraction(1, rate));
            x.Valid() && x.num * (rate * Rate(rs)) == FirstRight(rs, lo) * x.den
    decreases |rs|
  {
    hide CeilDiv;
    if rs != [] {
      var c := if rs[0].Shift? then rs[0].context else 1;
      var next := left.Add(Fraction(1, rate).Times(c));
      MulPositive(left.den, rate);
      AddedValue(left, rate, lo, c);
      if rs[0].Shift? {
        AccumulatedValue(rs[1..], next, rate, lo + c);
      } else {
        var u := rs[0].stride;
        MulPositive(rate, u);
        ScaledValue(next, rate, lo + 1, u);
        AccumulatedValue(rs[1..], next, rate * u, (lo + 1) * u);
        MulAssociative(rate, u, Rate(rs[1..]));
      }
    }
  }

  lemma AddedValue(left: Fraction, rate: nat, lo: int, c: int)
    requires left.num * rate == lo * left.den
    ensures var next := left.Add(Fraction(1, rate).Times(c)); next.num * rate == (lo + c) * next.den
  {
    var n, d := left.num * rate + c * left.den, left.den * rate;
    assert n == (lo + c) * left.den;
    assert n * rate == (lo + c) * left.den * rate;
    assert (lo + c) * left.den * rate == (lo + c) * d;
  }

  lemma ScaledValue(x: Fraction, rate: nat, lo: int, u: nat)
    requires x.num * rate == lo * x.den
    ensures x.num * (rate * u) == lo * u * x.den
  {
    assert x.num * (rate * u) == x.num * rate * u;
    assert lo * u * x.den == lo * x.den * u;
  }

  lemma SameCeil(a: int, b: nat, c: int, d: nat)
    requires b > 0 && d > 0 && a * d == c * b
    ensures CeilDiv(a, b) == CeilDiv(c, d)
  {
    var k := CeilDiv(a, b);
    CeilBounds(a, b);
    // (k - 1) * b < a <= k * b, times d, over b
    assert (k * d + 1) * b == k * b * d + b;
    assert ((k - 1) * b + 1) * d == (k - 1) * d * b + d;
    MulLe(a, k * b, d);
    MulLe((k - 1) * b + 1, a, d);
    if c > k * d {
      MulLe(k * d + 1, c, b);
    }
    if c <= (k - 1) * d {
      MulLe(c, (k - 1) * d, b);
    }
    CeilIs(c, d, k);
  }

  /** The single ceiling over the accumulated fraction is the nested, layer-by-layer reach: for every
      list of layers and every frame. */
  lemma SingleCeilingIsNested(rs: seq<Reach>, f: int)
    requires Proper(rs)
    ensures var x := Accumulate(rs, Fraction(0, 1), Fraction(1, 1));
            x.Valid() && x.Ceil() == LeftContext(rs) == f - FirstRead(rs, f * Rate(rs))
  {
    AccumulatedValue(rs, Fraction(0, 1), 1, 0);
    var x := Accumulate(rs, Fraction(0, 1), Fraction(1, 1));
    SameCeil(x.num, x.den, FirstRight(rs, 0), Rate(rs));
    FirstSampleReach(rs, f);
  }
}
