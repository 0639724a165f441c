/** Bollinger band, EMA, regression slope and signal of one candle, in exact arithmetic. */
module Indicators {
  import opened Bytes

  datatype Candle = Candle(high: real, low: real, close: real)

  // ---- sums --------------------------------------------------------------------------------

  function Sum(s: seq<real>): real {
    if s == [] then 0.0 else Sum(s[..|s| - 1]) + s[|s| - 1]
  }

  function Square(x: real): real { x * x }

  function Times(k: real, x: real): real { k * x }

  function Scale(k: real, s: seq<real>): seq<real> {
    seq(|s|, i requires 0 <= i < |s| => Times(k, s[i]))
  }

  function Deviations(s: seq<real>, m: real): seq<real> {
    seq(|s|, i requires 0 <= i < |s| => s[i] - m)
  }

  function Squares(s: seq<real>): seq<real> {
    seq(|s|, i requires 0 <= i < |s| => Square(s[i]))
  }

  lemma {:induction false} SumScale(k: real, s: seq<real>)
    ensures Sum(Scale(k, s)) == Times(k, Sum(s))
  {
    if s != [] {
      SumScale(k, s[..|s| - 1]);
      assert Scale(k, s)[..|s| - 1] == Scale(k, s[..|s| - 1]);
    }
  }

  lemma {:induction false} SumDeviations(s: seq<real>, m: real)
    ensures Sum(Deviations(s, m)) == Sum(s) - (|s| as real) * m
  {
    if s != [] {
      SumDeviations(s[..|s| - 1], m);
      assert Deviations(s, m)[..|s| - 1] == Deviations(s[..|s| - 1], m);
    }
  }

  lemma SquareSign(x: real)
    ensures Square(x) >= 0.0 && (Square(x) == 0.0 ==> x == 0.0)
  {
    var s := Square(x);
    if x > 0.0 {
      ProductPositive(x, x, s);
    } else if x < 0.0 {
      assert s == -x * -x;
      ProductPositive(-x, -x, s);
    }
  }

  lemma ProductPositive(x: real, y: real, p: real)
    requires p == x * y && x > 0.0 && y > 0.0
    ensures p > 0.0
  {
    assert p / x == y;
  }

  lemma {:induction false} SumSquaresNonNegative(s: seq<real>)
    ensures Sum(Squares(s)) >= 0.0
    ensures Sum(Squares(s)) == 0.0 ==> forall i :: 0 <= i < |s| ==> s[i] == 0.0
  {
    if s != [] {
      var init, last := s[..|s| - 1], s[|s| - 1];
      SumSquaresNonNegative(init);
      assert Squares(s)[..|s| - 1] == Squares(init);
      SquareSign(last);
      assert forall i :: 0 <= i < |init| ==> s[i] == init[i];
    }
  }

  /** The square of a sum against the sum of squares. */
  lemma {:induction false} CauchySchwarz(s: seq<real>)
    ensures Sum(s) * Sum(s) <= (|s| as real) * Sum(Squares(s))
  {
    if s != [] {
      var init, x := s[..|s| - 1], s[|s| - 1];
      CauchySchwarz(init);
      assert Squares(s)[..|s| - 1] == Squares(init);
      if init != [] { SquareStep(Sum(init), Sum(Squares(init)), x, |init| as real); }
    }
  }

  lemma SquareOfProduct(x: real, y: real)
    ensures (x * y) * (x * y) == (y * y) * (x * x)
  {
  }

  lemma CancelFactor(n: real, u: real, v: real)
    requires n > 0.0 && n * u <= n * v
    ensures u <= v
  {
    var gap := v - u;
    assert n * gap >= 0.0 && gap == (n * gap) / n;
  }

  /** If p = z s and q = s^2 > 0, then p^2 <= k q bounds z^2 by k. */
  lemma RatioBound(z: real, s: real, p: real, q: real, k: real)
    requires p == z * s && q == s * s && q > 0.0 && p * p <= k * q
    ensures z * z <= k
  {
    SquareOfProduct(z, s);
    CancelFactor(q, z * z, k);
  }

  lemma SquareStep(a: real, q: real, x: real, n: real)
    requires n > 0.0 && a * a <= n * q
    ensures (a + x) * (a + x) <= (n + 1.0) * (q + x * x)
  {
    var d := a - n * x;
    assert 0.0 <= d * d == a * a - 2.0 * n * (a * x) + n * n * (x * x);
    assert n * (2.0 * (a * x)) <= n * (q + n * (x * x));
    CancelFactor(n, 2.0 * (a * x), q + n * (x * x));
    assert (a + x) * (a + x) == a * a + 2.0 * (a * x) + x * x;
    assert (n + 1.0) * (q + x * x) == n * q + n * (x * x) + q + x * x;
  }

  lemma {:induction false} SumSquaresOfDeviations(s: seq<real>, m: real)
    ensures Sum(Squares(Deviations(s, m))) == Sum(Squares(s)) - 2.0 * m * Sum(s) + (|s| as real) * (m * m)
  {
    hide Square;
    if s != [] {
      var init, x := s[..|s| - 1], s[|s| - 1];
      SumSquaresOfDeviations(init, m);
      assert Deviations(s, m)[..|s| - 1] == Deviations(init, m);
      assert Squares(Deviations(s, m))[..|s| - 1] == Squares(Deviations(init, m));
      assert Squares(s)[..|s| - 1] == Squares(init);
      DeviationStep(Sum(init), x, m, |init| as real);
    }
  }

  lemma DeviationStep(t: real, x: real, m: real, n: real)
    ensures -2.0 * m * t + n * (m * m) + Square(x - m)
         == Square(x) - 2.0 * m * (t + x) + (n + 1.0) * (m * m)
  {
  }

  lemma {:induction false} SquaresBelowSquareOfSum(s: seq<real>)
    requires forall i :: 0 <= i < |s| ==> s[i] >= 0.0
    ensures Sum(s) >= 0.0 && Sum(Squares(s)) <= Sum(s) * Sum(s)
  {
    if s != [] {
      var init, x := s[..|s| - 1], s[|s| - 1];
      SquaresBelowSquareOfSum(init);
      assert Squares(s)[..|s| - 1] == Squares(init);
      assert (Sum(init) + x) * (Sum(init) + x) == Sum(init) * Sum(init) + 2.0 * (Sum(init) * x) + x * x;
      assert Sum(init) * x >= 0.0;
    }
  }

  // ---- the Bollinger band ------------------------------------------------------------------

  /** `root` takes non-negative square roots. */
  ghost predicate IsRoot(root: real -> real) {
    forall v: real :: v >= 0.0 ==> root(v) >= 0.0 && root(v) * root(v) == v
  }

  function Mean(cs: seq<real>): real { Sum(cs) / 20.0 }

  function Variance(cs: seq<real>): real { Sum(Squares(Deviations(cs, Mean(cs)))) / 20.0 }

  /** band(): the lower and upper band of a window, whose length is taken to be twenty. */
  function Band(cs: seq<real>, root: real -> real): (real, real) {
    var sd := root(Variance(cs));
    (Mean(cs) - 2.0 * sd, Mean(cs) + 2.0 * sd)
  }

  lemma VarianceNonNegative(cs: seq<real>)
    ensures Variance(cs) >= 0.0
  {
    SumSquaresNonNegative(Deviations(cs, Mean(cs)));
  }

  /** The last of twenty closes is at most sqrt(19) standard deviations away from their mean. */
  lemma LastDeviation(cs: seq<real>)
    requires |cs| == 20
    ensures var d := cs[19] - Mean(cs); d * d <= 19.0 * Variance(cs)
  {
    var all := Deviations(cs, Mean(cs));
    var others, d := all[..19], all[19];
    SumDeviations(cs, Mean(cs));
    assert Sum(all) == 0.0 && Sum(others) == -d;
    CauchySchwarz(others);
    assert Squares(all)[..19] == Squares(others);
    assert Sum(others) * Sum(others) == d * d;
  }

  /** The spread of positive closes is bounded by their mean. */
  lemma VarianceBelowMean(cs: seq<real>)
    requires |cs| == 20 && forall i :: 0 <= i < 20 ==> cs[i] > 0.0
    ensures Mean(cs) > 0.0 && Variance(cs) <= 19.0 * (Mean(cs) * Mean(cs))
  {
    var m, t := Mean(cs), Sum(cs);
    SumPositive(cs);
    SquaresBelowSquareOfSum(cs);
    SumSquaresOfDeviations(cs, m);
    assert t == 20.0 * m;
    assert t * t == 400.0 * (m * m) && 2.0 * m * t == 40.0 * (m * m);
  }

  lemma {:induction false} SumPositive(s: seq<real>)
    requires s != [] && forall i :: 0 <= i < |s| ==> s[i] > 0.0
    ensures Sum(s) > 0.0
  {
    if |s| > 1 { SumPositive(s[..|s| - 1]); }
  }

  function PercentB(cs: seq<real>, root: real -> real): Option<real> {
    var (lo, hi) := Band(cs, root);
    if cs == [] || hi == lo then None else Some((cs[|cs| - 1] - lo) / (hi - lo))
  }

  /** All closes of the window are the same. */
  predicate FlatWindow(cs: seq<real>) {
    forall i :: 0 <= i < |cs| ==> cs[i] == cs[0]
  }

  lemma {:induction false} SumOfEqual(s: seq<real>, c: real)
    requires forall i :: 0 <= i < |s| ==> s[i] == c
    ensures Sum(s) == (|s| as real) * c
  {
    if s != [] { SumOfEqual(s[..|s| - 1], c); }
  }

  /** The variance of a window vanishes exactly if the window is flat. */
  lemma VarianceVanishesIffFlat(cs: seq<real>)
    requires |cs| == 20
    ensures Variance(cs) == 0.0 <==> FlatWindow(cs)
  {
    var devs := Deviations(cs, Mean(cs));
    SumSquaresNonNegative(devs);
    if Variance(cs) == 0.0 {
      assert forall i :: 0 <= i < 20 ==> devs[i] == 0.0;
      assert forall i :: 0 <= i < 20 ==> devs[i] == cs[i] - Mean(cs);
    }
    if FlatWindow(cs) {
      SumOfEqual(cs, cs[0]);
      assert forall i :: 0 <= i < 20 ==> Squares(devs)[i] == 0.0;
      SumOfEqual(Squares(devs), 0.0);
    }
  }

  /** For every window of twenty closes that is not flat, (4 %B - 2)^2 <= 19. */
  lemma PercentBBounded(cs: seq<real>, root: real -> real)
    requires IsRoot(root) && |cs| == 20
    ensures PercentB(cs, root).Some? <==> !FlatWindow(cs)
    ensures var b := PercentB(cs, root); b.Some? ==> (4.0 * b.value - 2.0) * (4.0 * b.value - 2.0) <= 19.0
  {
    VarianceNonNegative(cs);
    VarianceVanishesIffFlat(cs);
    LastDeviation(cs);
    hide FlatWindow, Variance;
    var v, d := Variance(cs), cs[19] - Mean(cs);
    var sd := root(v);
    assert Band(cs, root).1 - Band(cs, root).0 == 4.0 * sd;
    SquareSign(sd);
    if sd > 0.0 {
      PercentBAsRatio(cs, root, d, sd);
      RatioBound(4.0 * PercentB(cs, root).value - 2.0, sd, d, v, 19.0);
    }
  }

  lemma PercentBAsRatio(cs: seq<real>, root: real -> real, d: real, sd: real)
    requires |cs| == 20 && d == cs[19] - Mean(cs) && sd == root(Variance(cs)) && sd > 0.0
    ensures PercentB(cs, root).Some? && d == (4.0 * PercentB(cs, root).value - 2.0) * sd
  {
    hide Mean, Variance;
    var b := PercentB(cs, root).value;
    assert b == (d + 2.0 * sd) / (4.0 * sd);
    assert b * (4.0 * sd) == d + 2.0 * sd;
  }

  function BandWidth(cs: seq<real>, root: real -> real): real
    requires Mean(cs) != 0.0
  {
    var (lo, hi) := Band(cs, root);
    (hi - lo) / Mean(cs)
  }

  /** For twenty positive closes, 0 <= BBW and BBW^2 <= 304. */
  lemma BandWidthBounded(cs: seq<real>, root: real -> real)
    requires IsRoot(root) && |cs| == 20 && forall i :: 0 <= i < 20 ==> cs[i] > 0.0
    ensures Mean(cs) > 0.0
    ensures 0.0 <= BandWidth(cs, root) && BandWidth(cs, root) * BandWidth(cs, root) <= 304.0
  {
    VarianceBelowMean(cs);
    VarianceNonNegative(cs);
    var m, sd := Mean(cs), root(Variance(cs));
    var w := BandWidth(cs, root);
    assert w == 4.0 * sd / m;
    assert w * m == 4.0 * sd;
    SquareOfProduct(4.0, sd);
    assert (4.0 * sd) * (4.0 * sd) == 16.0 * Variance(cs);
    SquareSign(m);
    RatioBound(w, m, 4.0 * sd, m * m, 304.0);
  }

  // ---- the exponential moving average ------------------------------------------------------

  function Take(cs: seq<real>, n: nat): seq<real> { if |cs| <= n then cs else cs[..n] }

  /** The list es: the mean of the first nine closes, then one smoothed value for each later close. */
  function Emas(cs: seq<real>): (es: seq<real>)
    ensures |es| == if |cs| <= 9 then 1 else |cs| - 8
  {
    if |cs| <= 9 then [Sum(cs) / 9.0]
    else
      var es := Emas(cs[..|cs| - 1]);
      es + [0.2 * cs[|cs| - 1] + 0.8 * es[|es| - 1]]
  }

  predicate Within(s: seq<real>, low: real, high: real) {
    forall i :: 0 <= i < |s| ==> low <= s[i] <= high
  }

  lemma {:induction false} SumWithin(s: seq<real>, low: real, high: real)
    requires Within(s, low, high)
    ensures (|s| as real) * low <= Sum(s) <= (|s| as real) * high
  {
    if s != [] {
      SumWithin(s[..|s| - 1], low, high);
      OneMore((|s| - 1) as real, low);
      OneMore((|s| - 1) as real, high);
      assert |s| as real == (|s| - 1) as real + 1.0;
    }
  }

  lemma OneMore(n: real, x: real)
    ensures (n + 1.0) * x == n * x + x
  {
  }

  /** Every EMA value lies between the smallest and the largest close used. */
  lemma {:induction false} EmasWithin(cs: seq<real>, low: real, high: real)
    requires |cs| >= 9 && Within(cs, low, high)
    ensures Within(Emas(cs), low, high)
  {
    if |cs| == 9 {
      SumWithin(cs, low, high);
    } else {
      EmasWithin(cs[..|cs| - 1], low, high);
    }
  }

  lemma FewerIsLess(n: real, c: real)
    requires n <= 8.0 && c > 0.0
    ensures n * c <= 8.0 * c
  {
    assert (8.0 - n) * c >= 0.0;
  }

  /** Nine closes are needed: with fewer, the seed is not an average, and equal positive closes show it. */
  lemma {:induction false} ShortSeedIsLow(cs: seq<real>, c: real)
    requires |cs| < 9 && c > 0.0 && Within(cs, c, c)
    ensures Emas(cs)[0] < c
  {
    SumWithin(cs, c, c);
    FewerIsLess(|cs| as real, c);
  }

  // ---- the regression slope ----------------------------------------------------------------

  const CENTRE := 2.5       // mean of 0..5
  const SPREAD := 17.5      // sum of the squared distances of 0..5 from it

  /** The covariance part of the slope, summed over however many values there are. */
  function Moment(vs: seq<real>, mean: real): real {
    if vs == [] then 0.0
    else Moment(vs[..|vs| - 1], mean) + ((|vs| - 1) as real - CENTRE) * (vs[|vs| - 1] - mean)
  }

  function RawSlope(vs: seq<real>): real { Moment(vs, Sum(vs) / 6.0) / SPREAD }

  lemma SixMoment(vs: seq<real>, mean: real)
    requires |vs| == 6
    ensures Moment(vs, mean) == 2.5 * (vs[5] - vs[0]) + 1.5 * (vs[4] - vs[1]) + 0.5 * (vs[3] - vs[2])
  {
    assert vs[..5][..4] == vs[..4] && vs[..4][..3] == vs[..3] && vs[..3][..2] == vs[..2] && vs[..2][..1] == vs[..1];
    assert Moment(vs[..1], mean) == -2.5 * (vs[0] - mean);
    assert Moment(vs[..2], mean) == Moment(vs[..1], mean) - 1.5 * (vs[1] - mean);
    assert Moment(vs[..3], mean) == Moment(vs[..2], mean) - 0.5 * (vs[2] - mean);
    assert Moment(vs[..4], mean) == Moment(vs[..3], mean) + 0.5 * (vs[3] - mean);
    assert Moment(vs[..5], mean) == Moment(vs[..4], mean) + 1.5 * (vs[4] - mean);
  }

  /** Six values inside [low, high] have a slope of at most 9 (high - low) / 35 either way. */
  lemma SlopeBounded(vs: seq<real>, low: real, high: real)
    requires |vs| == 6 && Within(vs, low, high)
    ensures -(9.0 * (high - low)) / 35.0 <= RawSlope(vs) <= 9.0 * (high - low) / 35.0
  {
    SixMoment(vs, Sum(vs) / 6.0);
  }

  /** Squared distance of six values from the line through `mean` at the centre with slope `b`. */
  function Error(vs: seq<real>, a: real, b: real): real
    requires |vs| == 6
  {
    Square(vs[0] - a + 2.5 * b) + Square(vs[1] - a + 1.5 * b) + Square(vs[2] - a + 0.5 * b)
    + Square(vs[3] - a - 0.5 * b) + Square(vs[4] - a - 1.5 * b) + Square(vs[5] - a - 2.5 * b)
  }

  lemma SixSum(vs: seq<real>)
    requires |vs| == 6
    ensures Sum(vs) == vs[0] + vs[1] + vs[2] + vs[3] + vs[4] + vs[5]
  {
    assert vs[..5][..4] == vs[..4] && vs[..4][..3] == vs[..3] && vs[..3][..2] == vs[..2] && vs[..2][..1] == vs[..1];
    assert Sum(vs[..1]) == vs[0] && Sum(vs[..2]) == Sum(vs[..1]) + vs[1] && Sum(vs[..3]) == Sum(vs[..2]) + vs[2];
    assert Sum(vs[..4]) == Sum(vs[..3]) + vs[3] && Sum(vs[..5]) == Sum(vs[..4]) + vs[4];
  }

  lemma SquareOfSum(r: real, e: real, f: real, x: real, re: real, rf: real, ef: real)
    requires re == r * e && rf == r * f && ef == e * f
    ensures Square(r + e + x * f)
         == Square(r) + Square(e) + (x * x) * Square(f) + 2.0 * re + 2.0 * x * rf + 2.0 * x * ef
  {
  }

  /** The slope is the least-squares one: no other line is closer to the six values. */
  lemma SlopeIsLeastSquares(vs: seq<real>, a: real, b: real)
    requires |vs| == 6
    ensures Error(vs, Sum(vs) / 6.0, RawSlope(vs)) <= Error(vs, a, b)
  {
    var mean, slope := Sum(vs) / 6.0, RawSlope(vs);
    SixSum(vs);
    SixMoment(vs, mean);
    var r0, r1, r2 := vs[0] - mean + 2.5 * slope, vs[1] - mean + 1.5 * slope, vs[2] - mean + 0.5 * slope;
    var r3, r4, r5 := vs[3] - mean - 0.5 * slope, vs[4] - mean - 1.5 * slope, vs[5] - mean - 2.5 * slope;
    assert r0 + r1 + r2 + r3 + r4 + r5 == 0.0;
    assert 2.5 * (r5 - r0) + 1.5 * (r4 - r1) + 0.5 * (r3 - r2) == 0.0;
    ResidualsOrthogonal(r0, r1, r2, r3, r4, r5, mean - a, slope - b);
  }

  lemma SumVanishes(a: real, b: real, c: real, d: real, g: real, h: real, e: real)
    requires a + b + c + d + g + h == 0.0
    ensures a * e + b * e + c * e + d * e + g * e + h * e == 0.0
  {
    assert (a + b + c + d + g + h) * e == a * e + b * e + c * e + d * e + g * e + h * e;
  }

  lemma MomentVanishes(a: real, b: real, c: real, d: real, g: real, h: real, f: real)
    requires 2.5 * (h - a) + 1.5 * (g - b) + 0.5 * (d - c) == 0.0
    ensures 2.5 * (h * f - a * f) + 1.5 * (g * f - b * f) + 0.5 * (d * f - c * f) == 0.0
  {
    assert (2.5 * (h - a) + 1.5 * (g - b) + 0.5 * (d - c)) * f
        == 2.5 * (h * f - a * f) + 1.5 * (g * f - b * f) + 0.5 * (d * f - c * f);
  }

  lemma ResidualsOrthogonal(r0: real, r1: real, r2: real, r3: real, r4: real, r5: real, e: real, f: real)
    requires r0 + r1 + r2 + r3 + r4 + r5 == 0.0
    requires 2.5 * (r5 - r0) + 1.5 * (r4 - r1) + 0.5 * (r3 - r2) == 0.0
    ensures Square(r0) + Square(r1) + Square(r2) + Square(r3) + Square(r4) + Square(r5)
         <= Square(r0 + e + -2.5 * f) + Square(r1 + e + -1.5 * f) + Square(r2 + e + -0.5 * f)
            + Square(r3 + e + 0.5 * f) + Square(r4 + e + 1.5 * f) + Square(r5 + e + 2.5 * f)
  {
    hide Square;
    SquareOfSum(r0, e, f, -2.5, r0 * e, r0 * f, e * f);
    SquareOfSum(r1, e, f, -1.5, r1 * e, r1 * f, e * f);
    SquareOfSum(r2, e, f, -0.5, r2 * e, r2 * f, e * f);
    SquareOfSum(r3, e, f, 0.5, r3 * e, r3 * f, e * f);
    SquareOfSum(r4, e, f, 1.5, r4 * e, r4 * f, e * f);
    SquareOfSum(r5, e, f, 2.5, r5 * e, r5 * f, e * f);
    SumVanishes(r0, r1, r2, r3, r4, r5, e);
    MomentVanishes(r0, r1, r2, r3, r4, r5, f);
    SquareSign(e);
    SquareSign(f);
  }

  // ---- final(): the report on one candle ---------------------------------------------------

  datatype Report = Report(slope: real, percentB: real, low: real, previous: real, signal: bool, used: nat)

  /** The arithmetic the code leaves to the decimal library: square root and rounding to eight places. */
  datatype Arithmetic = Arithmetic(root: real -> real, quantize: real -> real)

  /** Python's `s[a:b]` for a possibly negative start. */
  function Slice<T>(s: seq<T>, a: int, b: nat): seq<T>
    requires b <= |s|
  {
    var start := if a >= 0 then a else if |s| + a >= 0 then |s| + a else 0;
    if start >= b then [] else s[start..b]
  }

  /** The last `n` of a list, Python's `s[-n:]`. */
  function Last<T>(s: seq<T>, n: nat): seq<T> { if |s| <= n then s else s[|s| - n..] }

  function Closes(candles: seq<Candle>): seq<real> {
    seq(|candles|, i requires 0 <= i < |candles| => candles[i].close)
  }

  function Lows(candles: seq<Candle>): seq<real> {
    seq(|candles|, i requires 0 <= i < |candles| => candles[i].low)
  }

  function Minimum(s: seq<real>): (m: real)
    requires s != []
    ensures m in s && forall i :: 0 <= i < |s| ==> m <= s[i]
  {
    if |s| == 1 then s[0]
    else
      var rest := Minimum(s[..|s| - 1]);
      if s[|s| - 1] < rest then s[|s| - 1] else rest
  }

  function Window(candles: seq<Candle>, i: nat): seq<real>
    requires i < |candles|
  {
    Closes(candles[if i >= 499 then i - 499 else 0..i + 1])
  }

  function SlopePercent(cs: seq<real>): real
    requires cs != [] && cs[|cs| - 1] != 0.0
  {
    RawSlope(Last(Emas(cs), 6)) / cs[|cs| - 1] * 100.0
  }

  predicate Signals(slope: real, percentB: real, low: real, previous: real) {
    slope > -0.03 && percentB > 0.25 && low >= previous
  }

  /** The report on candle `i`, None where a division or an empty minimum raises. */
  function Final(candles: seq<Candle>, i: nat, ar: Arithmetic): Option<Report>
    requires i < |candles|
  {
    var cs := Window(candles, i);
    var previous := Lows(Slice(candles, i - 3, i));
    if cs[|cs| - 1] == 0.0 || previous == [] then None
    else
      match PercentB(Last(cs, 20), ar.root)
      case None => None
      case Some(b) =>
        var slope := ar.quantize(SlopePercent(cs));
        var low, least := candles[i].low, Minimum(previous);
        Some(Report(slope, b, low, least, Signals(slope, b, low, least), |cs|))
  }

  // ---- scaling all prices ------------------------------------------------------------------

  function ScaleCandles(k: real, candles: seq<Candle>): seq<Candle> {
    seq(|candles|, i requires 0 <= i < |candles| =>
          Candle(Times(k, candles[i].high), Times(k, candles[i].low), Times(k, candles[i].close)))
  }

  lemma MulDiv(k: real, x: real, n: real)
    requires n != 0.0
    ensures Times(k, x) / n == Times(k, x / n)
  {
    assert x == (x / n) * n;
    assert k * x == (k * (x / n)) * n;
  }

  lemma EmaStepScale(k: real, c: real, e: real)
    ensures 0.2 * Times(k, c) + 0.8 * Times(k, e) == Times(k, 0.2 * c + 0.8 * e)
  {
  }

  lemma {:induction false} EmasScale(k: real, cs: seq<real>)
    ensures Emas(Scale(k, cs)) == Scale(k, Emas(cs))
  {
    var scaled := Scale(k, cs);
    if |cs| <= 9 {
      SumScale(k, cs);
      MulDiv(k, Sum(cs), 9.0);
      assert Scale(k, Emas(cs))[0] == Times(k, Sum(cs) / 9.0) == Emas(scaled)[0];
    } else {
      EmasScale(k, cs[..|cs| - 1]);
      assert scaled[..|cs| - 1] == Scale(k, cs[..|cs| - 1]);
      var es, c := Emas(cs[..|cs| - 1]), cs[|cs| - 1];
      EmaStepScale(k, c, es[|es| - 1]);
    }
  }

  lemma MomentNext(vs: seq<real>, mean: real)
    requires vs != []
    ensures Moment(vs, mean)
         == Moment(vs[..|vs| - 1], mean) + Times((|vs| - 1) as real - CENTRE, vs[|vs| - 1] - mean)
  {
  }

  lemma TermScale(k: real, x: real, v: real, mean: real, scaledMean: real)
    requires scaledMean == Times(k, mean)
    ensures Times(x, Times(k, v) - scaledMean) == Times(k, Times(x, v - mean))
  {
    var d := v - mean;
    assert k * v - k * mean == k * d;
    assert x * (k * d) == k * (x * d);
  }

  lemma Distribute(k: real, a: real, b: real)
    ensures Times(k, a) + Times(k, b) == Times(k, a + b)
  {
  }

  lemma ScaleParts(k: real, vs: seq<real>)
    ensures vs == [] ==> Scale(k, vs) == []
    ensures vs != [] ==> |Scale(k, vs)| == |vs| && Scale(k, vs)[..|vs| - 1] == Scale(k, vs[..|vs| - 1])
                         && Scale(k, vs)[|vs| - 1] == Times(k, vs[|vs| - 1])
  {
  }

  lemma NoMoment(k: real, mean: real)
    ensures Moment([], mean) == 0.0 && Times(k, 0.0) == 0.0
  {
  }

  lemma {:induction false} MomentScale(k: real, vs: seq<real>, mean: real, scaledMean: real)
    requires scaledMean == Times(k, mean)
    ensures Moment(Scale(k, vs), scaledMean) == Times(k, Moment(vs, mean))
  {
    hide Moment, Times, Scale;
    ScaleParts(k, vs);
    if vs == [] {
      NoMoment(k, mean);
      NoMoment(k, scaledMean);
    } else {
      var init, x, v := vs[..|vs| - 1], (|vs| - 1) as real - CENTRE, vs[|vs| - 1];
      MomentScale(k, init, mean, scaledMean);
      MomentNext(vs, mean);
      MomentNext(Scale(k, vs), scaledMean);
      TermScale(k, x, v, mean, scaledMean);
      Distribute(k, Moment(init, mean), Times(x, v - mean));
    }
  }

  lemma RawSlopeScale(k: real, vs: seq<real>)
    ensures RawSlope(Scale(k, vs)) == Times(k, RawSlope(vs))
  {
    SumScale(k, vs);
    SixthScale(k, Sum(vs), Sum(Scale(k, vs)));
    hide Scale, Sum, Moment, Times;
    MomentScale(k, vs, Sum(vs) / 6.0, Sum(Scale(k, vs)) / 6.0);
    MulDiv(k, Moment(vs, Sum(vs) / 6.0), SPREAD);
  }

  lemma SixthScale(k: real, x: real, scaled: real)
    requires scaled == Times(k, x)
    ensures scaled / 6.0 == Times(k, x / 6.0)
  {
    MulDiv(k, x, 6.0);
  }

  lemma SlopePercentScale(k: real, cs: seq<real>)
    requires k > 0.0 && cs != [] && cs[|cs| - 1] != 0.0
    ensures Scale(k, cs)[|cs| - 1] != 0.0 && SlopePercent(Scale(k, cs)) == SlopePercent(cs)
  {
    var es, c := Emas(cs), cs[|cs| - 1];
    EmasScale(k, cs);
    LastScale(k, es);
    ScaleParts(k, cs);
    hide Emas, RawSlope, Last, Scale, Times;
    RawSlopeScale(k, Last(es, 6));
    RatioScale(k, RawSlope(Last(es, 6)), c);
  }

  lemma LastScale(k: real, es: seq<real>)
    ensures Last(Scale(k, es), 6) == Scale(k, Last(es, 6))
  {
  }

  lemma RatioScale(k: real, x: real, y: real)
    requires k > 0.0 && y != 0.0
    ensures Times(k, y) != 0.0 && Times(k, x) / Times(k, y) == x / y
  {
    var q := x / y;
    assert k * y != 0.0 by { if y > 0.0 { assert k * y > 0.0; } else { assert k * -y > 0.0; } }
    assert q * y == x;
    assert q * (k * y) == k * x;
  }

  lemma DeviationsScale(k: real, cs: seq<real>, m: real, kk: real, km: real)
    requires kk == k * k && km == Times(k, m)
    ensures Squares(Deviations(Scale(k, cs), km)) == Scale(kk, Squares(Deviations(cs, m)))
  {
    var a, b := Squares(Deviations(Scale(k, cs), km)), Scale(kk, Squares(Deviations(cs, m)));
    forall i | 0 <= i < |cs| ensures a[i] == b[i] {
      SquareScale(k, cs[i], m);
      assert a[i] == Square(Scale(k, cs)[i] - km) && Scale(k, cs)[i] == Times(k, cs[i]);
    }
  }

  lemma SquareScale(k: real, c: real, m: real)
    ensures Square(Times(k, c) - Times(k, m)) == Times(k * k, Square(c - m))
  {
    var d := c - m;
    assert k * c - k * m == k * d;
    SquareOfProduct(d, k);
  }

  lemma BandScale(k: real, cs: seq<real>, root: real -> real)
    requires k > 0.0 && IsRoot(root)
    ensures Mean(Scale(k, cs)) == Times(k, Mean(cs))
    ensures root(Variance(Scale(k, cs))) == Times(k, root(Variance(cs)))
  {
    hide Square, Times, IsRoot, Scale, Deviations, Squares;
    var kk, m, scaled := k * k, Mean(cs), Scale(k, cs);
    SumScale(k, cs);
    MulDiv(k, Sum(cs), 20.0);
    var km := Mean(scaled);
    var squares := Squares(Deviations(cs, m));
    DeviationsScale(k, cs, m, kk, km);
    SumScale(kk, squares);
    MulDiv(kk, Sum(squares), 20.0);
    VarianceNonNegative(cs);
    RootScale(k, kk, Variance(cs), Variance(scaled), root);
  }

  /** Non-negative roots are unique, so scaling a square by k^2 scales its root by k. */
  lemma RootScale(k: real, kk: real, v: real, w: real, root: real -> real)
    requires k > 0.0 && kk == k * k && IsRoot(root) && v >= 0.0 && w == Times(kk, v)
    ensures root(w) == Times(k, root(v))
  {
    var a, b := root(w), k * root(v);
    ProductPositive(k, k, kk);
    assert w >= 0.0;
    SquareOfProduct(root(v), k);
    assert a * a == b * b && a >= 0.0 && b >= 0.0;
    assert (a - b) * (a + b) == 0.0;
    if a + b == 0.0 {
    } else {
      CancelFactor(a + b, a - b, 0.0);
      CancelFactor(a + b, 0.0, a - b);
    }
  }

  lemma PercentBScale(k: real, cs: seq<real>, root: real -> real)
    requires k > 0.0 && IsRoot(root)
    ensures PercentB(Scale(k, cs), root) == PercentB(cs, root)
  {
    hide Mean, Variance, IsRoot, Times;
    BandScale(k, cs, root);
    var scaled := Scale(k, cs);
    ScaleParts(k, cs);
    hide Scale;
    if cs != [] {
      RatioOfBands(k, cs[|cs| - 1], scaled[|cs| - 1], Mean(cs), Mean(scaled), root(Variance(cs)), root(Variance(scaled)));
    }
  }

  lemma RatioOfBands(k: real, c: real, c2: real, m: real, m2: real, sd: real, sd2: real)
    requires k > 0.0 && c2 == Times(k, c) && m2 == Times(k, m) && sd2 == Times(k, sd)
    ensures var lo, hi := m - 2.0 * sd, m + 2.0 * sd; var lo2, hi2 := m2 - 2.0 * sd2, m2 + 2.0 * sd2;
      (hi2 == lo2 <==> hi == lo) && (hi != lo ==> (c2 - lo2) / (hi2 - lo2) == (c - lo) / (hi - lo))
  {
    var lo, hi := m - 2.0 * sd, m + 2.0 * sd;
    var lo2, hi2 := m2 - 2.0 * sd2, m2 + 2.0 * sd2;
    assert hi2 - lo2 == k * (hi - lo) && c2 - lo2 == k * (c - lo);
    if hi != lo {
      RatioScale(k, c - lo, hi - lo);
    }
  }

  lemma {:induction false} MinimumScale(k: real, s: seq<real>)
    requires k > 0.0 && s != []
    ensures Minimum(Scale(k, s)) == Times(k, Minimum(s))
  {
    if |s| > 1 {
      var init := s[..|s| - 1];
      MinimumScale(k, init);
      assert Scale(k, s)[..|s| - 1] == Scale(k, init);
      OrderScale(k, s[|s| - 1], Minimum(init));
    }
  }

  lemma ZeroScale(k: real, x: real)
    requires k > 0.0
    ensures Times(k, x) == 0.0 <==> x == 0.0
  {
  }

  lemma OrderScale(k: real, x: real, y: real)
    requires k > 0.0
    ensures Times(k, x) < Times(k, y) <==> x < y
  {
    var d := y - x;
    assert k * y - k * x == k * d;
    if d > 0.0 { assert k * d > 0.0; } else { assert k * -d >= 0.0; }
  }

  /** Multiplying every price by one positive factor scales the lows and leaves everything else of the report. */
  lemma ScaleInvariance(k: real, candles: seq<Candle>, i: nat, ar: Arithmetic)
    requires k > 0.0 && IsRoot(ar.root) && i < |candles|
    ensures match Final(candles, i, ar)
      case None => Final(ScaleCandles(k, candles), i, ar) == None
      case Some(r) => Final(ScaleCandles(k, candles), i, ar)
                        == Some(r.(low := Times(k, r.low), previous := Times(k, r.previous)))
  {
    hide PercentB, SlopePercent, IsRoot, Minimum, Times;
    var scaled, cs := ScaleCandles(k, candles), Window(candles, i);
    assert Window(scaled, i) == Scale(k, cs);
    var previous := Lows(Slice(candles, i - 3, i));
    assert Lows(Slice(scaled, i - 3, i)) == Scale(k, previous);
    PercentBScale(k, Last(cs, 20), ar.root);
    assert Last(Scale(k, cs), 20) == Scale(k, Last(cs, 20));
    ZeroScale(k, cs[|cs| - 1]);
    ScaleParts(k, cs);
    if cs[|cs| - 1] != 0.0 && previous != [] {
      SlopePercentScale(k, cs);
      MinimumScale(k, previous);
      OrderScale(k, candles[i].low, Minimum(previous));
    }
  }

  // ---- the memo table ----------------------------------------------------------------------

  class Recalculator {
    const candles: seq<Candle>
    const ar: Arithmetic
    var cache: map<nat, Report>

    /** Every remembered report is the one a fresh computation would give. */
    ghost predicate Valid()
      reads this
    {
      forall i :: i in cache ==> i < |candles| && Final(candles, i, ar) == Some(cache[i])
    }

    constructor (candles: seq<Candle>, ar: Arithmetic)
      ensures Valid() && this.candles == candles && this.ar == ar
    {
      this.candles, this.ar := candles, ar;
      cache := map[];
    }

    /** The smoothing loop. */
    method SmoothingLoop(cs: seq<real>) returns (es: seq<real>)
      requires cs != []
      ensures es == Emas(cs)
    {
      var seed := Take(cs, 9);
      var ema := Sum(seed) / 9.0;
      es := [ema];
      var start := |seed|;
      assert cs[..start] == seed;
      for n := start to |cs|
        invariant es == Emas(cs[..n]) && ema == es[|es| - 1]
      {
        assert cs[..n + 1][..n] == cs[..n];
        ema := 0.2 * cs[n] + 0.8 * ema;
        es := es + [ema];
      }
      assert cs[..|cs|] == cs;
    }

    /** The computation of final(i) when the table has no entry. */
    method Compute(i: nat) returns (r: Option<Report>)
      requires i < |candles|
      ensures r == Final(candles, i, ar)
    {
      hide Emas, PercentB, RawSlope, Minimum;
      var cs := Window(candles, i);
      var es := SmoothingLoop(cs);
      var slope := RawSlope(Last(es, 6));
      if cs[|cs| - 1] == 0.0 { return None; }
      var quantized := ar.quantize(slope / cs[|cs| - 1] * 100.0);
      var b := PercentB(Last(cs, 20), ar.root);
      if b.None? { return None; }
      var low := candles[i].low;
      var previous := Lows(Slice(candles, i - 3, i));
      if previous == [] { return None; }
      var least := Minimum(previous);
      r := Some(Report(quantized, b.value, low, least, Signals(quantized, b.value, low, least), |cs|));
    }

    /** final(i): the answer does not depend on what earlier calls left in the table. */
    method Recalculate(i: nat) returns (r: Option<Report>)
      requires Valid() && i < |candles|
      modifies this
      ensures Valid()
      ensures r == Final(candles, i, ar)
      ensures cache == if r.Some? then old(cache)[i := r.value] else old(cache)
    {
      hide Final;
      if i in cache {
        r := Some(cache[i]);
        assert cache[i := cache[i]] == cache;
        return;
      }
      r := Compute(i);
      if r.Some? { cache := cache[i := r.value]; }
    }
  }
}
