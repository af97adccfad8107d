/**
 Bollinger Bands indicator arithmetic of library.c: the simple moving average
 (calcSMA), the population standard deviation (calcStdDev) and the two bands
 (calcBollingerUpperBand, calcBollingerLowerBand).

 Prices are exact reals. `pow(x, 2)` is `Square(x)`. The host's `sqrt` is a
 foreign call, so it is passed in as a function `root` and characterised by
 `IsSqrt`.
 */
module Indicators {

  /** `pow(x, 2)` */
  function Square(x: real): (r: real)
    ensures r >= 0.0
  {
    x * x
  }

  /** `root` behaves as the square root on the non-negative reals. */
  ghost predicate IsSqrt(root: real -> real) {
    && root(0.0) == 0.0
    && forall x :: x >= 0.0 ==> root(x) >= 0.0 && Square(root(x)) == x
  }

  /** Sum of the prices, accumulated front to back as calcSMA's loop does. */
  function Sum(s: seq<real>): real {
    if |s| == 0 then 0.0 else Sum(s[..|s| - 1]) + s[|s| - 1]
  }

  /** Sum of the squared prices. */
  function SumOfSquares(s: seq<real>): real {
    if |s| == 0 then 0.0 else SumOfSquares(s[..|s| - 1]) + Square(s[|s| - 1])
  }

  /** The arithmetic mean: what calcSMA returns. */
  function Mean(s: seq<real>): real
    requires |s| > 0
  {
    Sum(s) / (|s| as real)
  }

  /** Sum of the squared differences from `m`, accumulated as calcStdDev's loop does. */
  function SquaredDeviations(s: seq<real>, m: real): real {
    if |s| == 0 then 0.0 else SquaredDeviations(s[..|s| - 1], m) + Square(s[|s| - 1] - m)
  }

  /** Population variance about `m`: divides by the element count, not by count - 1. */
  function Variance(s: seq<real>, m: real): real
    requires |s| > 0
  {
    SquaredDeviations(s, m) / (|s| as real)
  }

  /**
   calcBollingerUpperBand: k deviations above the SMA, mirroring the lower
   band about it, and not below the SMA for a non-negative k and deviation.
   */
  function UpperBand(sma: real, stdev: real, k: real): (r: real)
    ensures r - sma == sma - LowerBand(sma, stdev, k)
    ensures k >= 0.0 && stdev >= 0.0 ==> sma <= r
  {
    var width := k * stdev;
    assert k >= 0.0 && stdev >= 0.0 ==> width >= 0.0;
    sma + width
  }

  /** calcBollingerLowerBand: k deviations below the SMA, not above it for a non-negative k and deviation. */
  function LowerBand(sma: real, stdev: real, k: real): (r: real)
    ensures k >= 0.0 && stdev >= 0.0 ==> r <= sma
  {
    var width := k * stdev;
    assert k >= 0.0 && stdev >= 0.0 ==> width >= 0.0;
    sma - width
  }

  /** The four band values that the strategy keeps together. */
  datatype Bands = Bands(sma: real, stdev: real, upper: real, lower: real)

  /**
   The band values computed from one window: mean, then the standard deviation
   about that mean, then the bands `k` deviations either side.
   */
  function ComputeBands(window: seq<real>, k: real, root: real -> real): (b: Bands)
    requires |window| > 0
    ensures b.sma * (|window| as real) == Sum(window)
    ensures b.stdev == root(Variance(window, b.sma))
    ensures IsSqrt(root) ==> b.stdev >= 0.0 && Square(b.stdev) == Variance(window, b.sma)
    ensures b.upper - b.lower == 2.0 * k * b.stdev
    ensures b.upper - b.sma == b.sma - b.lower
    ensures IsSqrt(root) && k >= 0.0 ==> b.lower <= b.sma <= b.upper
  {
    var sma := Mean(window);
    var stdev := root(Variance(window, sma));
    VarianceNonNegative(window, sma);
    BandGeometry(sma, stdev, k);
    Bands(sma, stdev, UpperBand(sma, stdev, k), LowerBand(sma, stdev, k))
  }

  /** The bands sit symmetrically about the SMA, 2·k·stdev apart. */
  lemma BandGeometry(sma: real, stdev: real, k: real)
    ensures UpperBand(sma, stdev, k) - LowerBand(sma, stdev, k) == 2.0 * k * stdev
    ensures UpperBand(sma, stdev, k) - sma == sma - LowerBand(sma, stdev, k)
    ensures k >= 0.0 && stdev >= 0.0 ==>
              LowerBand(sma, stdev, k) <= sma <= UpperBand(sma, stdev, k)
  {
    if k >= 0.0 && stdev >= 0.0 {
      assert k * stdev >= 0.0;
    }
  }

  /** calcSMA: one pass summing the prices, then a division by the count. */
  method CalcSMA(prices: seq<real>) returns (result: real)
    requires |prices| > 0
    ensures result == Mean(prices)
    ensures result * (|prices| as real) == Sum(prices)
  {
    var length := |prices|;
    var sum := 0.0;
    for i := 0 to length
      invariant sum == Sum(prices[..i])
    {
      assert prices[..i + 1][..i] == prices[..i];
      sum := sum + prices[i];
    }
    assert prices[..length] == prices;
    result := sum / (length as real);
  }

  /**
   calcStdDev: one pass summing the squared differences from `sma`, then the
   square root of their mean. `sma` is whatever the caller passes.
   */
  method CalcStdDev(sma: real, prices: seq<real>, root: real -> real) returns (result: real)
    requires |prices| > 0
    ensures result == root(Variance(prices, sma))
    ensures IsSqrt(root) ==> result >= 0.0 && Square(result) == Variance(prices, sma)
  {
    VarianceNonNegative(prices, sma);
    var length := |prices|;
    var squaredDifferencesSum := 0.0;
    for i := 0 to length
      invariant squaredDifferencesSum == SquaredDeviations(prices[..i], sma)
    {
      assert prices[..i + 1][..i] == prices[..i];
      squaredDifferencesSum := squaredDifferencesSum + Square(prices[i] - sma);
    }
    assert prices[..length] == prices;
    var meanOfSquaredDifferences := squaredDifferencesSum / (length as real);
    result := root(meanOfSquaredDifferences);
  }

  /** A sum of squares is never negative, so neither is the variance under the square root. */
  lemma VarianceNonNegative(s: seq<real>, m: real)
    requires |s| > 0
    ensures SquaredDeviations(s, m) >= 0.0
    ensures Variance(s, m) >= 0.0
  {
    SquaredDeviationsNonNegative(s, m);
  }

  lemma {:induction false} SquaredDeviationsNonNegative(s: seq<real>, m: real)
    ensures SquaredDeviations(s, m) >= 0.0
  {
    if |s| > 0 {
      SquaredDeviationsNonNegative(s[..|s| - 1], m);
    }
  }

  /** If every price lies in [lo, hi], so does their mean. */
  lemma MeanWithinRange(s: seq<real>, lo: real, hi: real)
    requires |s| > 0
    requires forall i :: 0 <= i < |s| ==> lo <= s[i] <= hi
    ensures lo <= Mean(s) <= hi
  {
    SumWithinRange(s, lo, hi);
    var n := |s| as real;
    assert lo * n <= Sum(s) <= hi * n;
    assert Mean(s) * n == Sum(s);
  }

  lemma {:induction false} SumWithinRange(s: seq<real>, lo: real, hi: real)
    requires forall i :: 0 <= i < |s| ==> lo <= s[i] <= hi
    ensures lo * (|s| as real) <= Sum(s) <= hi * (|s| as real)
  {
    if |s| > 0 {
      SumWithinRange(s[..|s| - 1], lo, hi);
    }
  }

  /** Expanding the square: Σ(p - m)² = Σp² - 2m·Σp + n·m². */
  lemma SquaredDeviationsExpand(s: seq<real>, m: real)
    ensures SquaredDeviations(s, m) == Expanded(SumOfSquares(s), Sum(s), |s| as real, m)
  {
    ExpandAt(s, m, SquaredDeviations(s, m), SumOfSquares(s), Sum(s), |s| as real);
  }

  /** Σp² - 2m·Σp + n·m², from the three sums and the count. */
  function Expanded(q: real, t: real, n: real, m: real): real {
    q - 2.0 * m * t + n * Square(m)
  }

  /** The expansion, with the three sums and the count of `s` named. */
  lemma {:induction false} ExpandAt(s: seq<real>, m: real, a: real, q: real, t: real, n: real)
    requires a == SquaredDeviations(s, m) && q == SumOfSquares(s) && t == Sum(s) && n == |s| as real
    ensures a == Expanded(q, t, n, m)
    decreases |s|
  {
    if |s| > 0 {
      var init, x := s[..|s| - 1], s[|s| - 1];
      var a0, q0, t0, n0 := SquaredDeviations(init, m), SumOfSquares(init), Sum(init), |init| as real;
      UnfoldLast(s, m);
      ExpandAt(init, m, a0, q0, t0, n0);
      SquareOfDifference(x, m);
      ExpandStep(a0, q0, t0, n0, a, q, t, n, m, x, Square(m), Square(x), Square(x - m));
    }
  }

  /**
   One more price: the expansion of the shorter window carries over. For the
   shorter window a = Σ(p − m)², q = Σp², t = Σp, n = its count; the primed
   names are the same for the longer window; x is the added price, mm = m²,
   xx = x² and dd = (x − m)².
   */
  lemma ExpandStep(a: real, q: real, t: real, n: real, a': real, q': real, t': real, n': real,
                   m: real, x: real, mm: real, xx: real, dd: real)
    requires mm == Square(m)
    requires a == Expanded(q, t, n, m)
    requires dd == xx - 2.0 * m * x + mm
    requires a' == a + dd && q' == q + xx && t' == t + x && n' == n + 1.0
    ensures a' == Expanded(q', t', n', m)
  {}

  /** The three running sums, split at their last price. */
  lemma UnfoldLast(s: seq<real>, m: real)
    requires |s| > 0
    ensures SquaredDeviations(s, m) == SquaredDeviations(s[..|s| - 1], m) + Square(s[|s| - 1] - m)
    ensures SumOfSquares(s) == SumOfSquares(s[..|s| - 1]) + Square(s[|s| - 1])
    ensures Sum(s) == Sum(s[..|s| - 1]) + s[|s| - 1]
  {}

  lemma SquareOfDifference(x: real, m: real)
    ensures Square(x - m) == Square(x) - 2.0 * m * x + Square(m)
  {}

  /**
   The variance about any point `m` is the variance about the mean plus
   (m - mean)², so the mean is where it is smallest.
   */
  lemma VarianceAboutPoint(s: seq<real>, m: real)
    requires |s| > 0
    ensures Variance(s, m) == Variance(s, Mean(s)) + Square(m - Mean(s))
    ensures Variance(s, Mean(s)) <= Variance(s, m)
  {
    var n, mu := |s| as real, Mean(s);
    SquaredDeviationsExpand(s, m);
    SquaredDeviationsExpand(s, mu);
    SquareOfDifference(m, mu);
    Recentre(SumOfSquares(s), Sum(s), n, m, mu, SquaredDeviations(s, m), SquaredDeviations(s, mu),
             Square(m), Square(mu), Square(m - mu));
  }

  /**
   The shift identity over named values: q = Σp², t = Σp, n = the count,
   mu = the mean t / n, a = Σ(p − m)², b = Σ(p − mu)², mm = m², uu = mu² and
   dd = (m − mu)².
   */
  lemma Recentre(q: real, t: real, n: real, m: real, mu: real, a: real, b: real,
                 mm: real, uu: real, dd: real)
    requires n > 0.0 && mu == t / n
    requires mm == Square(m) && uu == Square(mu)
    requires a == Expanded(q, t, n, m) && b == Expanded(q, t, n, mu)
    requires dd == mm - 2.0 * mu * m + uu
    ensures a / n == b / n + dd
  {
    assert t == n * mu;
    assert 2.0 * m * t == n * (2.0 * mu * m);
    assert 2.0 * mu * t == n * (2.0 * uu);
    assert a - b == n * dd;
  }

  /** The population variance is the mean of the squares minus the square of the mean. */
  lemma PopulationVariance(s: seq<real>)
    requires |s| > 0
    ensures Variance(s, Mean(s)) == SumOfSquares(s) / (|s| as real) - Square(Mean(s))
  {
    var mu := Mean(s);
    SquaredDeviationsExpand(s, mu);
    SquaresLessMean(SumOfSquares(s), Sum(s), |s| as real, mu, SquaredDeviations(s, mu), Square(mu));
  }

  /**
   Mean of squares less square of mean, over named values: q = Σp², t = Σp,
   n = the count, mu = the mean t / n, b = Σ(p − mu)² and uu = mu².
   */
  lemma SquaresLessMean(q: real, t: real, n: real, mu: real, b: real, uu: real)
    requires n > 0.0 && mu == t / n
    requires uu == Square(mu) && b == Expanded(q, t, n, mu)
    ensures b / n == q / n - uu
  {
    assert t == n * mu;
    assert b == q - n * uu;
  }

  /** Prices that all equal `m` have no squared deviation from it. */
  lemma {:induction false} ConstantHasNoDeviation(s: seq<real>, m: real)
    requires forall i :: 0 <= i < |s| ==> s[i] == m
    ensures SquaredDeviations(s, m) == 0.0
  {
    if |s| > 0 {
      ConstantHasNoDeviation(s[..|s| - 1], m);
    }
  }

  /** A flat window: SMA equals the price, stdev is zero, and both bands collapse onto it. */
  lemma ConstantWindowCollapses(window: seq<real>, c: real, k: real, root: real -> real)
    requires |window| > 0
    requires IsSqrt(root)
    requires forall i :: 0 <= i < |window| ==> window[i] == c
    ensures ComputeBands(window, k, root) == Bands(c, 0.0, c, c)
  {
    MeanWithinRange(window, c, c);
    ConstantHasNoDeviation(window, c);
    assert Variance(window, c) == 0.0;
  }

  /** The three-price example [1, 2, 3]: SMA 2 and population variance 2/3. */
  lemma ThreePriceExample(root: real -> real)
    requires IsSqrt(root)
    ensures var b := ComputeBands([1.0, 2.0, 3.0], 2.0, root);
            && b.sma == 2.0
            && Square(b.stdev) == 2.0 / 3.0
            && b.upper == 2.0 + 2.0 * b.stdev
            && b.lower == 2.0 - 2.0 * b.stdev
  {
    var w := [1.0, 2.0, 3.0];
    assert w[..2] == [1.0, 2.0] && w[..2][..1] == [1.0] && w[..2][..1][..0] == [];
    assert Sum([1.0]) == 1.0;
    assert Sum([1.0, 2.0]) == 3.0;
    assert Sum(w) == 6.0;
    assert SquaredDeviations([1.0], 2.0) == 1.0;
    assert SquaredDeviations([1.0, 2.0], 2.0) == 1.0;
    assert SquaredDeviations(w, 2.0) == 2.0;
  }
}
