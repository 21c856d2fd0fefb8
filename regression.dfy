/** `_calculate_linear_trend`: the ordinary-least-squares slope of a series,
    `(n*Σxy - Σx*Σy) / (n*Σx² - (Σx)²)`. The x-sums are whole numbers in the
    source; they are taken over the reals here, which represent them exactly. */
module Regression {
  import opened Wrappers
  import opened Collections

  /** `list(range(n))` */
  function Range(n: nat): (xs: seq<int>)
    ensures |xs| == n && forall i :: 0 <= i < n ==> xs[i] == i
  {
    seq(n, i requires 0 <= i < n => i)
  }

  function SumX(xs: seq<int>): real
  {
    if xs == [] then 0.0 else SumX(xs[..|xs| - 1]) + xs[|xs| - 1] as real
  }

  function SumX2(xs: seq<int>): real
  {
    if xs == [] then 0.0 else SumX2(xs[..|xs| - 1]) + xs[|xs| - 1] as real * xs[|xs| - 1] as real
  }

  function SumXY(xs: seq<int>, ys: seq<real>): real
    requires |xs| == |ys|
  {
    if xs == [] then 0.0
    else SumXY(xs[..|xs| - 1], ys[..|ys| - 1]) + xs[|xs| - 1] as real * ys[|ys| - 1]
  }

  /** `n * sum_x2 - sum_x * sum_x` */
  function Denominator(xs: seq<int>): real
  {
    |xs| as real * SumX2(xs) - SumX(xs) * SumX(xs)
  }

  /** `n * sum_xy - sum_x * sum_y` */
  function Numerator(xs: seq<int>, ys: seq<real>): real
    requires |xs| == |ys|
  {
    |xs| as real * SumXY(xs, ys) - SumX(xs) * Sum(ys)
  }

  /** `_calculate_linear_trend(x_values, y_values)` for series of equal length:
      0 below two points, `None` where the division by zero would raise. */
  function LinearTrend(xs: seq<int>, ys: seq<real>): (r: Option<real>)
    requires |xs| == |ys|
    ensures r.None? <==> |xs| >= 2 && Denominator(xs) == 0.0
    ensures |xs| < 2 ==> r == Some(0.0)
    ensures r.Some? && |xs| >= 2 ==> r.value * Denominator(xs) == Numerator(xs, ys)
  {
    if |xs| < 2 then Some(0.0)
    else if Denominator(xs) == 0.0 then None
    else Some(Numerator(xs, ys) / Denominator(xs))
  }

  /** 0 + 1 + ... + (n-1) */
  function TriangleSum(n: nat): real
  {
    if n == 0 then 0.0 else TriangleSum(n - 1) + (n - 1) as real
  }

  /** 0² + 1² + ... + (n-1)² */
  function SquareSum(n: nat): real
  {
    if n == 0 then 0.0 else SquareSum(n - 1) + (n - 1) as real * (n - 1) as real
  }

  /** Σx and Σx² over `range(n)` are the running sums above. */
  lemma {:induction false} RangeSumsEq(n: nat)
    ensures SumX(Range(n)) == TriangleSum(n)
    ensures SumX2(Range(n)) == SquareSum(n)
  {
    if n > 0 {
      assert Range(n)[..n - 1] == Range(n - 1);
      RangeSumsEq(n - 1);
    }
  }

  /** Σx = c(c-1)/2 and Σx² = (c-1)c(2c-1)/6 over c points 0..c-1. */
  ghost predicate ClosedForms(c: real, sx: real, sx2: real)
  {
    2.0 * sx == c * (c - 1.0) && 6.0 * sx2 == (c - 1.0) * c * (2.0 * c - 1.0)
  }

  /** One more index `c` extends the running sums. */
  ghost predicate SumsNext(c: real, sx: real, sx2: real, sx': real, sx2': real)
  {
    sx' == sx + c && sx2' == sx2 + c * c
  }

  /** The closed forms carry over from 0..c-1 to 0..c. */
  lemma RangeStep(c: real, sx: real, sx2: real, c': real, sx': real, sx2': real)
    requires ClosedForms(c, sx, sx2)
    requires c' == c + 1.0 && SumsNext(c, sx, sx2, sx', sx2')
    ensures ClosedForms(c', sx', sx2')
  {
    assert c' * (c' - 1.0) == c * (c - 1.0) + 2.0 * c;
    assert (c' - 1.0) * c' * (2.0 * c' - 1.0) == (c - 1.0) * c * (2.0 * c - 1.0) + 6.0 * c * c;
  }

  lemma SumsUnfold(n: nat)
    requires n > 0
    ensures SumsNext((n - 1) as real, TriangleSum(n - 1), SquareSum(n - 1), TriangleSum(n), SquareSum(n))
  {
  }

  lemma {:induction false} ClosedFormsAt(n: nat)
    ensures ClosedForms(n as real, TriangleSum(n), SquareSum(n))
  {
    if n > 0 {
      ClosedFormsAt(n - 1);
      SumsUnfold(n);
      RangeStep((n - 1) as real, TriangleSum(n - 1), SquareSum(n - 1), n as real, TriangleSum(n), SquareSum(n));
    }
  }

  lemma QuarticPositive(n: real)
    requires n >= 2.0
    ensures n * n * (n * n - 1.0) > 0.0
  {
    assert n * n >= 4.0;
  }

  lemma RangeAlgebra(n: real, sx: real, sx2: real, d: real)
    requires n >= 2.0
    requires 2.0 * sx == n * (n - 1.0)
    requires 6.0 * sx2 == (n - 1.0) * n * (2.0 * n - 1.0)
    requires d == n * sx2 - sx * sx
    ensures 12.0 * d == n * n * (n * n - 1.0)
    ensures d > 0.0
  {
    assert 12.0 * d == 2.0 * n * (6.0 * sx2) - 3.0 * (2.0 * sx) * (2.0 * sx);
    QuarticPositive(n);
  }

  /** Over the day indices 0..n-1 with n >= 2 the denominator is
      n²(n²-1)/12 > 0, so the slope division never raises. */
  lemma RangeDenominatorPositive(n: nat)
    requires n >= 2
    ensures 12.0 * Denominator(Range(n)) == n as real * n as real * (n as real * n as real - 1.0)
    ensures Denominator(Range(n)) > 0.0
  {
    RangeSumsEq(n);
    ClosedFormsAt(n);
    RangeAlgebra(n as real, SumX(Range(n)), SumX2(Range(n)), Denominator(Range(n)));
  }

  /** The trend of a day-indexed series: the slope over x = 0..n-1, which
      exists for every series of at least two days. */
  function DailySlope(ys: seq<real>): (slope: real)
    requires |ys| >= 2
    ensures LinearTrend(Range(|ys|), ys) == Some(slope)
  {
    RangeDenominatorPositive(|ys|);
    LinearTrend(Range(|ys|), ys).value
  }

  /** Over two days the trend is the day-to-day change. */
  lemma TwoDaySlope(ys: seq<real>)
    requires |ys| == 2
    ensures DailySlope(ys) == ys[1] - ys[0]
  {
    var xs := Range(2);
    assert xs[..1] == [0] && [0][..0] == [] && ys[..1][..0] == [];
    assert Sum(ys[..1]) == ys[0];
    assert SumXY(xs[..1], ys[..1]) == 0.0;
    assert SumX(xs) == 1.0 && SumX2(xs) == 1.0;
  }

  /** Over three days the trend is half the change from the first to the last. */
  lemma ThreeDaySlope(ys: seq<real>)
    requires |ys| == 3
    ensures DailySlope(ys) == (ys[2] - ys[0]) / 2.0
  {
    var xs := Range(3);
    assert xs[..2] == [0, 1] && [0, 1][..1] == [0] && [0][..0] == [];
    assert ys[..2][..1] == ys[..1] && ys[..1][..0] == [];
    assert Sum(ys[..1]) == ys[0];
    assert Sum(ys[..2]) == ys[0] + ys[1];
    assert SumXY([0], ys[..1]) == 0.0;
    assert SumXY([0, 1], ys[..2]) == ys[1];
    assert SumX([0]) == 0.0 && SumX([0, 1]) == 1.0 && SumX(xs) == 3.0;
    assert SumX2([0]) == 0.0 && SumX2([0, 1]) == 1.0 && SumX2(xs) == 5.0;
  }

  /** The straight line `a + k*i` sampled on days 0..n-1. */
  function Line(a: real, k: real, n: nat): (ys: seq<real>)
    ensures |ys| == n
  {
    seq(n, i requires 0 <= i < n => a + k * i as real)
  }

  /** Σy == c·a + k·Σx and Σxy == a·Σx + k·Σx² for a line sampled on c days. */
  ghost predicate LineForms(a: real, k: real, c: real, sx: real, sx2: real, sy: real, sxy: real)
  {
    sy == c * a + k * sx && sxy == a * sx + k * sx2
  }

  /** The running sums after day `c` of a line, from those before it. */
  ghost predicate LineNext(a: real, k: real, c: real, sx: real, sx2: real, sy: real, sxy: real,
                           sx': real, sx2': real, sy': real, sxy': real)
  {
    sx' == sx + c && sx2' == sx2 + c * c && sy' == sy + (a + k * c) && sxy' == sxy + c * (a + k * c)
  }

  /** One more day on a line keeps the forms. */
  lemma LineStep(a: real, k: real, c: real, sx: real, sx2: real, sy: real, sxy: real,
                 c': real, sx': real, sx2': real, sy': real, sxy': real)
    requires LineForms(a, k, c, sx, sx2, sy, sxy)
    requires c' == c + 1.0 && LineNext(a, k, c, sx, sx2, sy, sxy, sx', sx2', sy', sxy')
    ensures LineForms(a, k, c', sx', sx2', sy', sxy')
  {
  }

  /** The four running sums after one more day. */
  lemma LineUnfold(a: real, k: real, n: nat)
    requires n > 0
    ensures LineNext(a, k, (n - 1) as real,
                     SumX(Range(n - 1)), SumX2(Range(n - 1)), Sum(Line(a, k, n - 1)), SumXY(Range(n - 1), Line(a, k, n - 1)),
                     SumX(Range(n)), SumX2(Range(n)), Sum(Line(a, k, n)), SumXY(Range(n), Line(a, k, n)))
  {
    assert Range(n)[..n - 1] == Range(n - 1);
    assert Line(a, k, n)[..n - 1] == Line(a, k, n - 1);
  }

  /** Σy and Σxy of a line, in terms of Σx and Σx². */
  lemma {:induction false} LineSums(a: real, k: real, n: nat)
    ensures LineForms(a, k, n as real, SumX(Range(n)), SumX2(Range(n)), Sum(Line(a, k, n)), SumXY(Range(n), Line(a, k, n)))
  {
    if n > 0 {
      LineSums(a, k, n - 1);
      LineUnfold(a, k, n);
      LineStep(a, k, (n - 1) as real, SumX(Range(n - 1)), SumX2(Range(n - 1)), Sum(Line(a, k, n - 1)),
               SumXY(Range(n - 1), Line(a, k, n - 1)),
               n as real, SumX(Range(n)), SumX2(Range(n)), Sum(Line(a, k, n)), SumXY(Range(n), Line(a, k, n)));
    }
  }

  /** With the sums of a line, the slope's numerator is `k` times its denominator. */
  lemma LineNumerator(xs: seq<int>, ys: seq<real>, a: real, k: real)
    requires |xs| == |ys|
    requires LineForms(a, k, |xs| as real, SumX(xs), SumX2(xs), Sum(ys), SumXY(xs, ys))
    ensures Numerator(xs, ys) == k * Denominator(xs)
  {
  }

  /** `LineForms` depends on the day count only through its value. */
  lemma LineFormsCount(a: real, k: real, c: real, c': real, sx: real, sx2: real, sy: real, sxy: real)
    requires c == c' && LineForms(a, k, c, sx, sx2, sy, sxy)
    ensures LineForms(a, k, c', sx, sx2, sy, sxy)
  {
  }

  /** The same over the days 0..n-1 of a line. */
  lemma LineNumeratorAt(a: real, k: real, n: nat)
    ensures Numerator(Range(n), Line(a, k, n)) == k * Denominator(Range(n))
  {
    var xs, ys := Range(n), Line(a, k, n);
    LineSums(a, k, n);
    LineFormsCount(a, k, n as real, |xs| as real, SumX(xs), SumX2(xs), Sum(ys), SumXY(xs, ys));
    LineNumerator(xs, ys, a, k);
  }

  /** A slope is `k` when the numerator is `k` times the (positive) denominator. */
  lemma SlopeOf(ys: seq<real>, k: real)
    requires |ys| >= 2
    requires Numerator(Range(|ys|), ys) == k * Denominator(Range(|ys|))
    ensures DailySlope(ys) == k
  {
    RangeDenominatorPositive(|ys|);
    Cancel(Numerator(Range(|ys|), ys), Denominator(Range(|ys|)), k);
  }

  lemma Cancel(num: real, d: real, k: real)
    requires d != 0.0 && num == k * d
    ensures num / d == k
  {
  }

  /** The slope of a day-indexed series that grows by `k` a day is `k`. */
  lemma LinearSeriesSlope(ys: seq<real>, a: real, k: real)
    requires |ys| >= 2
    requires forall i :: 0 <= i < |ys| ==> ys[i] == a + k * i as real
    ensures DailySlope(ys) == k
  {
    assert ys == Line(a, k, |ys|) by {
      forall i | 0 <= i < |ys| ensures ys[i] == Line(a, k, |ys|)[i] { }
    }
    LineNumeratorAt(a, k, |ys|);
    SlopeOf(ys, k);
  }

  /** A series that does not change has no trend. */
  lemma ConstantSeriesSlope(ys: seq<real>)
    requires |ys| >= 2
    requires forall i :: 0 <= i < |ys| ==> ys[i] == ys[0]
    ensures DailySlope(ys) == 0.0
  {
    LinearSeriesSlope(ys, ys[0], 0.0);
  }
}
