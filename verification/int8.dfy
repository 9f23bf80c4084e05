/** The int8 linear layer over the reals: quantise, multiply in integers, dequantise.  Clamping never acts,
    the accumulator is bounded, and the result is within a stated distance of the true product.
 */
module Int8 {
  function Abs(x: real): real {
    if x < 0.0 then -x else x
  }

  /** Nearest integer, halves to even. */
  function Round(x: real): int {
    var f := x.Floor;
    var d := x - f as real;
    if d < 0.5 then f else if d > 0.5 then f + 1 else if f % 2 == 0 then f else f + 1
  }

  function Clamp(q: int): int {
    if q < -127 then -127 else if q > 127 then 127 else q
  }

  /** A product by name, so that proofs about sums of products stay linear. */
  function Mul(a: real, b: real): real {
    a * b
  }

  /** Largest magnitude of a row. */
  function AMax(x: seq<real>): (m: real)
    ensures m >= 0.0 && forall i :: 0 <= i < |x| ==> Abs(x[i]) <= m
    ensures if x == [] then m == 0.0 else exists i :: 0 <= i < |x| && Abs(x[i]) == m
  {
    if x == [] then 0.0
    else
      var rest, last := AMax(x[..|x| - 1]), Abs(x[|x| - 1]);
      if last > rest then last else rest
  }

  const FLOOR_SCALE := 0.00000001

  /** One step of the 255-level grid that covers a row; never zero. */
  function Scale(x: seq<real>): (s: real)
    ensures s > 0.0
  {
    var s := AMax(x) / 127.0;
    if s < FLOOR_SCALE then FLOOR_SCALE else s
  }

  function Quantized(x: seq<real>, s: real): (q: seq<int>)
    requires s > 0.0
    ensures |q| == |x|
  {
    seq(|x|, i requires 0 <= i < |x| => Clamp(Round(x[i] / s)))
  }

  function Dot(x: seq<real>, w: seq<real>): real
    requires |x| == |w|
  {
    if x == [] then 0.0 else Dot(x[..|x| - 1], w[..|w| - 1]) + Mul(x[|x| - 1], w[|w| - 1])
  }

  /** The integer accumulator. */
  function IntDot(q: seq<int>, p: seq<int>): int
    requires |q| == |p|
  {
    if q == [] then 0 else IntDot(q[..|q| - 1], p[..|p| - 1]) + q[|q| - 1] * p[|p| - 1]
  }

  // ---------------------------------------------------------------- one value

  lemma RoundNear(x: real)
    ensures -0.5 <= Round(x) as real - x <= 0.5
    ensures Round(x) as real - x == 0.5 || x - Round(x) as real == 0.5 ==> Round(x) % 2 == 0
  {
  }

  /** Rounding stays inside integer bounds. */
  lemma RoundWithin(x: real, n: int)
    requires -(n as real) <= x <= n as real
    ensures -n <= Round(x) <= n
  {
    RoundNear(x);
  }

  /** The scale covers the row. */
  lemma ScaleCovers(x: seq<real>, i: nat)
    requires i < |x|
    ensures Abs(x[i]) <= 127.0 * Scale(x)
  {
  }

  lemma Times(a: real, b: real, c: real)
    ensures a * (b + c) == a * b + a * c && (b + c) * a == b * a + c * a
    ensures a * (b - c) == a * b - a * c && (b - c) * a == b * a - c * a
  {
  }

  lemma NonNegative(a: real, b: real)
    requires a >= 0.0 && b >= 0.0
    ensures a * b >= 0.0
  {
  }

  lemma Negative(a: real, b: real)
    requires a < 0.0 && b > 0.0
    ensures a * b < 0.0
  {
  }

  /** The sign of a product with a positive factor. */
  lemma Cancel(d: real, s: real)
    requires s > 0.0
    ensures d * s >= 0.0 ==> d >= 0.0
  {
    if d < 0.0 { Negative(d, s); }
  }

  lemma DivideWithin(a: real, s: real, m: real)
    requires s > 0.0 && -(m * s) <= a <= m * s
    ensures -m <= a / s <= m
  {
    var q := a / s;
    assert q * s == a;
    Times(s, m, q);
    Cancel(m - q, s);
    Cancel(m + q, s);
  }

  /** Clamping never changes a rounded value. */
  lemma ClampIsNothing(x: seq<real>, i: nat)
    requires i < |x|
    ensures Quantized(x, Scale(x))[i] == Round(x[i] / Scale(x)) && -127 <= Quantized(x, Scale(x))[i] <= 127
  {
    hide AMax, Scale, Round;
    var s := Scale(x);
    ScaleCovers(x, i);
    assert 127.0 * s >= x[i] && -(127.0 * s) <= x[i];
    DivideWithin(x[i], s, 127.0);
    RoundWithin(x[i] / s, 127);
  }

  /** The grid is no wider than the row: the largest magnitude lands on its end, unless the row is so small that the
      step is at its floor. */
  lemma GridIsFilled(x: seq<real>)
    requires Scale(x) > FLOOR_SCALE
    ensures exists i :: 0 <= i < |x| && Abs(x[i]) == 127.0 * Scale(x) && Quantized(x, Scale(x))[i] in {-127, 127}
  {
    hide Round;
    var s := Scale(x);
    var i :| 0 <= i < |x| && Abs(x[i]) == AMax(x);
    assert 127.0 * s == AMax(x);
    assert x[i] == 127.0 * s || x[i] == -127.0 * s;
    ExactQuotient(x[i], s, if x[i] >= 0.0 then 127 else -127);
  }

  lemma ExactQuotient(a: real, s: real, n: int)
    requires s > 0.0 && a == n as real * s
    ensures Round(a / s) == n
  {
    assert a / s == n as real;
  }

  /** Dequantising is off by half a step at most. */
  lemma DequantNear(x: seq<real>, i: nat)
    requires i < |x|
    ensures var s := Scale(x); Abs(x[i] - s * (Quantized(x, s)[i] as real)) <= 0.5 * s
  {
    hide AMax, Scale, Round, Quantized;
    var s := Scale(x);
    ClampIsNothing(x, i);
    var y := x[i] / s;
    RoundNear(y);
    assert s * y == x[i];
    StepAway(x[i], s, y, Round(y) as real);
  }

  /** A grid point within half of the quotient is within half a step of the value. */
  lemma StepAway(a: real, s: real, y: real, r: real)
    requires s > 0.0 && s * y == a && -0.5 <= r - y <= 0.5
    ensures Abs(a - s * r) <= 0.5 * s
  {
    var d := r - y;
    Times(s, r, y);
    Halved(s, d);
    assert s * d == s * r - a;
  }

  lemma Halved(s: real, d: real)
    requires s > 0.0 && -0.5 <= d <= 0.5
    ensures -0.5 * s <= s * d <= 0.5 * s
  {
    NonNegative(s, 0.5 - d);
    NonNegative(s, d + 0.5);
    Times(s, 0.5, d);
  }

  // ---------------------------------------------------------------- products

  lemma MulSum(a: real, b: real, c: real)
    ensures Mul(a, b + c) == Mul(a, b) + Mul(a, c) && Mul(b + c, a) == Mul(b, a) + Mul(c, a)
  {
  }

  lemma MulSwap(a: real, b: real, c: real, d: real)
    ensures Mul(Mul(a, b), Mul(c, d)) == Mul(Mul(a, c), Mul(b, d))
  {
    assert a * b * (c * d) == a * (b * (c * d));
    assert b * (c * d) == c * (b * d);
    assert a * (c * (b * d)) == a * c * (b * d);
  }

  lemma MulBound(a: real, b: real, m: real, n: real)
    requires Abs(a) <= m && Abs(b) <= n
    ensures Abs(Mul(a, b)) <= Mul(m, n)
  {
    var p, q := Abs(a), Abs(b);
    assert Abs(a * b) == p * q;
    NonNegative(m - p, q);
    NonNegative(m, n - q);
    Times(q, m, p);
    Times(m, n, q);
  }

  lemma MulScaled(s: real, t: real)
    ensures Mul(Mul(0.5, s), Mul(127.0, t)) == 63.5 * Mul(s, t) && Mul(Mul(127.0, s), Mul(0.5, t)) == 63.5 * Mul(s, t)
  {
    MulSwap(0.5, s, 127.0, t);
    MulSwap(127.0, s, 0.5, t);
  }

  lemma IntProduct(q: int, p: int)
    ensures (q * p) as real == Mul(q as real, p as real)
  {
  }

  lemma ScaledBound(s: real, a: real)
    requires s > 0.0 && -127.0 <= a <= 127.0
    ensures Abs(Mul(s, a)) <= Mul(127.0, s)
  {
    NonNegative(s, 127.0 - a);
    NonNegative(s, a + 127.0);
    Times(s, 127.0, a);
  }

  /** The two sides of one product and their quantised values. */
  predicate NearAt(x: real, w: real, sx: real, sw: real, q: int, p: int) {
    && -127 <= q <= 127 && -127 <= p <= 127 && Abs(w) <= Mul(127.0, sw)
    && Abs(x - Mul(sx, q as real)) <= Mul(0.5, sx) && Abs(w - Mul(sw, p as real)) <= Mul(0.5, sw)
  }

  /** One product: x w is within 127 steps of the dequantised product. */
  lemma TermError(x: real, w: real, sx: real, sw: real, q: int, p: int)
    requires sx > 0.0 && sw > 0.0 && NearAt(x, w, sx, sw, q, p)
    ensures Abs(Mul(x, w) - Mul(Mul(sx, sw), (q * p) as real)) <= 127.0 * Mul(sx, sw)
  {
    hide Mul;
    var a, b := q as real, p as real;
    var u, v := Mul(sx, a), Mul(sw, b);
    var ex, ew := x - u, w - v;
    IntProduct(q, p);
    MulSum(w, ex, u);
    MulSum(u, ew, v);
    MulSwap(sx, a, sw, b);
    MulBound(ex, w, Mul(0.5, sx), Mul(127.0, sw));
    ScaledBound(sx, a);
    MulBound(u, ew, Mul(127.0, sx), Mul(0.5, sw));
    MulScaled(sx, sw);
  }

  predicate Near(x: seq<real>, w: seq<real>, sx: real, sw: real, q: seq<int>, p: seq<int>) {
    && |x| == |w| == |q| == |p| && sx > 0.0 && sw > 0.0
    && forall i :: 0 <= i < |x| ==> NearAt(x[i], w[i], sx, sw, q[i], p[i])
  }

  lemma {:induction false} DotError(x: seq<real>, w: seq<real>, sx: real, sw: real, q: seq<int>, p: seq<int>)
    requires Near(x, w, sx, sw, q, p)
    ensures Abs(Dot(x, w) - Mul(Mul(sx, sw), IntDot(q, p) as real)) <= 127.0 * Mul(|x| as real, Mul(sx, sw))
    decreases |x|
  {
    hide NearAt, Mul;
    var s := Mul(sx, sw);
    if x == [] {
      MulNothing(s);
    } else {
      var n := |x| - 1;
      DotError(x[..n], w[..n], sx, sw, q[..n], p[..n]);
      TermError(x[n], w[n], sx, sw, q[n], p[n]);
      var acc, term := IntDot(q[..n], p[..n]), q[n] * p[n];
      MulSum(s, acc as real, term as real);
      MulSum(s, n as real, 1.0);
      MulOne(s);
      assert (acc + term) as real == acc as real + term as real;
    }
  }

  lemma MulNothing(s: real)
    ensures Mul(s, 0 as real) == 0.0 && Mul(0 as real, s) == 0.0
  {
  }

  lemma MulOne(s: real)
    ensures Mul(1.0, s) == s
  {
  }

  /** The dequantised product is within 127 n steps of the true one, for rows of any length. */
  lemma ErrorBound(x: seq<real>, w: seq<real>)
    requires |x| == |w|
    ensures var sx, sw := Scale(x), Scale(w);
            Abs(Dot(x, w) - Mul(Mul(sx, sw), IntDot(Quantized(x, sx), Quantized(w, sw)) as real))
              <= 127.0 * Mul(|x| as real, Mul(sx, sw))
  {
    hide Scale, Dot, IntDot, Quantized, Round, NearAt, Mul, Abs;
    var sx, sw := Scale(x), Scale(w);
    var q, p := Quantized(x, sx), Quantized(w, sw);
    forall i | 0 <= i < |x|
      ensures NearAt(x[i], w[i], sx, sw, q[i], p[i])
    {
      NearOne(x, w, i);
    }
    DotError(x, w, sx, sw, q, p);
  }

  lemma NearOne(x: seq<real>, w: seq<real>, i: nat)
    requires |x| == |w| && i < |x|
    ensures NearAt(x[i], w[i], Scale(x), Scale(w), Quantized(x, Scale(x))[i], Quantized(w, Scale(w))[i])
  {
    hide Scale, Quantized, Round, AMax;
    ClampIsNothing(x, i);
    ClampIsNothing(w, i);
    ScaleCovers(w, i);
    DequantNear(x, i);
    DequantNear(w, i);
  }

  // ---------------------------------------------------------------- the accumulator

  lemma {:induction false} AccumulatorBound(q: seq<int>, p: seq<int>)
    requires |q| == |p| && forall i :: 0 <= i < |q| ==> -127 <= q[i] <= 127 && -127 <= p[i] <= 127
    ensures -16129 * |q| <= IntDot(q, p) <= 16129 * |q|
    decreases |q|
  {
    if q != [] {
      var n := |q| - 1;
      AccumulatorBound(q[..n], p[..n]);
      SmallProduct(q[n], p[n]);
    }
  }

  lemma SmallProduct(a: int, b: int)
    requires -127 <= a <= 127 && -127 <= b <= 127
    ensures -16129 <= a * b <= 16129
  {
    Corner(127 - a, 127 + b);
    Corner(127 + a, 127 - b);
    Corner(127 - a, 127 - b);
    Corner(127 + a, 127 + b);
    assert (127 - a) * (127 + b) + (127 + a) * (127 - b) == 32258 - 2 * (a * b);
    assert (127 - a) * (127 - b) + (127 + a) * (127 + b) == 32258 + 2 * (a * b);
  }

  lemma Corner(a: int, b: int)
    requires a >= 0 && b >= 0
    ensures a * b >= 0
  {
  }

  function Repeat(v: int, n: nat): (r: seq<int>)
    ensures |r| == n && forall i :: 0 <= i < n ==> r[i] == v
  {
    seq(n, _ => v)
  }

  lemma {:induction false} RepeatDot(n: nat)
    ensures IntDot(Repeat(127, n), Repeat(127, n)) == 16129 * n
  {
    if n > 0 {
      RepeatDot(n - 1);
      assert Repeat(127, n)[..n - 1] == Repeat(127, n - 1);
    }
  }

  /** A 32-bit accumulator is wide enough for every input if and only if there are at most 133144 features. */
  lemma AccumulatorFits(n: nat)
    ensures n <= 133144 <==> forall q: seq<int>, p: seq<int> ::
              |q| == |p| == n && (forall i :: 0 <= i < n ==> -127 <= q[i] <= 127 && -127 <= p[i] <= 127) ==>
                -2147483648 <= IntDot(q, p) <= 2147483647
  {
    if n <= 133144 {
      forall q: seq<int>, p: seq<int> | |q| == |p| == n
        && (forall i :: 0 <= i < n ==> -127 <= q[i] <= 127 && -127 <= p[i] <= 127)
        ensures -2147483648 <= IntDot(q, p) <= 2147483647
      {
        AccumulatorBound(q, p);
      }
    } else {
      RepeatDot(n);
      var r := Repeat(127, n);
      assert IntDot(r, r) > 2147483647;
    }
  }

  // ---------------------------------------------------------------- the layer

  datatype Linear = Linear(weights: seq<seq<int>>, scales: seq<real>, bias: seq<real>, features: nat) {
    predicate Valid() {
      |weights| == |scales| == |bias| && forall o :: 0 <= o < |weights| ==> |weights[o]| == features
    }

    /** One output of one row. */
    function Output(x: seq<real>, o: nat): real
      requires Valid() && |x| == features && o < |weights|
    {
      Mul(Mul(IntDot(Quantized(x, Scale(x)), weights[o]) as real, Scale(x)), scales[o]) + bias[o]
    }

    function Row(x: seq<real>): (r: seq<real>)
      requires Valid() && |x| == features
      ensures |r| == |weights|
    {
      seq(|weights|, o requires 0 <= o < |weights| => Output(x, o))
    }

    /** Pads to 17 rows of zeros, which the integer kernel needs, and cuts them off again: the rows that came
        in are not changed by it. */
    method Forward(x: seq<seq<real>>) returns (out: seq<seq<real>>)
      requires Valid() && forall i :: 0 <= i < |x| ==> |x[i]| == features
      ensures |out| == |x| && forall i :: 0 <= i < |x| ==> out[i] == Row(x[i])
    {
      hide Row;
      var m := |x|;
      var pad := if m < 17 then 17 - m else 0;
      var rows := x + seq(pad, _ => seq(features, _ => 0.0));
      out := [];
      for i := 0 to |rows|
        invariant |out| == i && forall k :: 0 <= k < i ==> out[k] == Row(rows[k])
      {
        out := out + [Row(rows[i])];
      }
      out := out[..m];
    }
  }

  /** The layer made of float weights: one scale for every output. */
  function QuantizedLinear(w: seq<seq<real>>, bias: seq<real>, features: nat): (l: Linear)
    requires |w| == |bias| && forall o :: 0 <= o < |w| ==> |w[o]| == features
    ensures l.Valid() && |l.weights| == |w| && l.features == features && l.bias == bias
    ensures forall o :: 0 <= o < |w| ==> l.scales[o] == Scale(w[o]) && l.weights[o] == Quantized(w[o], Scale(w[o]))
  {
    Linear(seq(|w|, o requires 0 <= o < |w| => Quantized(w[o], Scale(w[o]))),
           seq(|w|, o requires 0 <= o < |w| => Scale(w[o])), bias, features)
  }

  lemma MulTurn(a: real, b: real, c: real)
    ensures Mul(Mul(a, b), c) == Mul(Mul(b, c), a)
  {
    assert a * b * c == a * (b * c);
  }

  /** Every output of the quantised layer is within 127 n steps of the float layer's. */
  lemma LayerError(w: seq<seq<real>>, bias: seq<real>, features: nat, x: seq<real>, o: nat)
    requires |w| == |bias| && (forall k :: 0 <= k < |w| ==> |w[k]| == features) && |x| == features && o < |w|
    ensures Abs(Dot(x, w[o]) + bias[o] - QuantizedLinear(w, bias, features).Output(x, o))
            <= 127.0 * Mul(features as real, Mul(Scale(x), Scale(w[o])))
  {
    hide Scale, Dot, IntDot, Quantized, Mul;
    ErrorBound(x, w[o]);
    MulTurn(IntDot(Quantized(x, Scale(x)), Quantized(w[o], Scale(w[o]))) as real, Scale(x), Scale(w[o]));
  }
}
