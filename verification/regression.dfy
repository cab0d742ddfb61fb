/** Ordinary least-squares fit of the close price against the candle index,
    the trend line both revisions of the renderer overlay on the chart. The
    newer revision computes it with `map`/`reduce` (src/lib/chart.js), which
    is the function `Fit` below; the older revision accumulates the same sums
    in a loop (LegacyChart.CalculateTrendLine), proved equal to `Fit`.

    The nonlinear algebra lives in lemmas whose arguments are the sums
    themselves (`SlopeOfLine`, `NormalEquations`); the lemmas about sequences
    only pass their sums in. */
module Regression {
  import opened Candles

  /** `Array.from({ length: n }, (_, i) => i)`, as reals. */
  function Indices(n: nat): seq<real>
  {
    seq(n, i => i as real)
  }

  /** `x.map(x => x * x)`: the squared indices summed by `sumXX`. */
  function Squares(n: nat): seq<real>
  {
    seq(n, i => i as real * i as real)
  }

  /** `i * closes[i]`: the terms summed by `sumXY`. */
  function Weighted(ys: seq<real>): seq<real>
  {
    seq(|ys|, i requires 0 <= i < |ys| => i as real * ys[i])
  }

  /** Σ i over i in [0, n), in closed form. */
  function SumX(n: nat): real
  {
    n as real * (n as real - 1.0) / 2.0
  }

  /** Σ i² over i in [0, n), in closed form. */
  function SumXX(n: nat): real
  {
    n as real * (n as real - 1.0) * (2.0 * n as real - 1.0) / 6.0
  }

  /** Σ i·ys[i]: `sumXY`. */
  function SumXY(ys: seq<real>): real
  {
    Sum(Weighted(ys))
  }

  /** Each candle adds its index to `sumX`. */
  lemma SumXStep(n: nat)
    ensures SumX(n + 1) == SumX(n) + n as real
  {
    var m := n as real;
    assert (m + 1.0) * m == m * (m - 1.0) + 2.0 * m;
  }

  /** Each candle adds the square of its index to `sumXX`. */
  lemma SumXXStep(n: nat)
    ensures SumXX(n + 1) == SumXX(n) + n as real * n as real
  {
    var m := n as real;
    assert (m + 1.0) * m * (2.0 * m + 1.0) == m * (m - 1.0) * (2.0 * m - 1.0) + 6.0 * (m * m);
  }

  /** `x.reduce((a, b) => a + b, 0)` is the closed form `SumX`. */
  lemma {:induction false} SumIndices(n: nat)
    ensures Sum(Indices(n)) == SumX(n)
  {
    if n > 0 {
      assert Indices(n)[..n - 1] == Indices(n - 1);
      SumIndices(n - 1);
      SumXStep(n - 1);
    }
  }

  /** `x.reduce((sum, x) => sum + x * x, 0)` is the closed form `SumXX`. */
  lemma {:induction false} SumSquares(n: nat)
    ensures Sum(Squares(n)) == SumXX(n)
  {
    if n > 0 {
      assert Squares(n)[..n - 1] == Squares(n - 1);
      SumSquares(n - 1);
      SumXXStep(n - 1);
    }
  }

  /** Extending the closes by one candle adds `k·ys[k]` to `sumXY`. */
  lemma SumXYStep(ys: seq<real>, k: nat)
    requires k < |ys|
    ensures SumXY(ys[..k + 1]) == SumXY(ys[..k]) + k as real * ys[k]
  {
    var w, v := Weighted(ys[..k + 1]), Weighted(ys[..k]);
    assert forall i :: 0 <= i < k ==> w[..k][i] == v[i];
    assert w[..k] == v;
  }

  /** Extending the closes by one candle adds `ys[k]` to `sumY`. */
  lemma SumStep(ys: seq<real>, k: nat)
    requires k < |ys|
    ensures Sum(ys[..k + 1]) == Sum(ys[..k]) + ys[k]
  {
    assert ys[..k + 1][..k] == ys[..k];
  }

  /** The denominator `n·Σi² − (Σi)²` of the slope. */
  function Denominator(n: nat): real
  {
    n as real * SumXX(n) - SumX(n) * SumX(n)
  }

  /** The slope's denominator is `n²(n−1)(n+1)/12`. */
  lemma DenominatorClosedForm(n: nat)
    ensures 12.0 * Denominator(n) == n as real * n as real * (n as real - 1.0) * (n as real + 1.0)
  {
    var N := n as real;
    var sx, sxx := SumX(n), SumXX(n);
    assert 2.0 * sx == N * (N - 1.0);
    assert 6.0 * sxx == N * (N - 1.0) * (2.0 * N - 1.0);
    assert 12.0 * Denominator(n) == 2.0 * N * (6.0 * sxx) - 3.0 * (2.0 * sx) * (2.0 * sx);
  }

  /** The denominator vanishes for a single candle (the source then divides
      zero by zero) and is positive from two candles on. */
  lemma DenominatorSign(n: nat)
    ensures n == 1 ==> Denominator(n) == 0.0
    ensures n >= 2 ==> Denominator(n) > 0.0
  {
    DenominatorClosedForm(n);
    var N := n as real;
    if n >= 2 {
      assert N * N > 0.0;
      assert (N - 1.0) * (N + 1.0) > 0.0;
      assert N * N * ((N - 1.0) * (N + 1.0)) > 0.0;
    }
  }

  /** `(n·sumXY − sumX·sumY) / (n·sumXX − sumX·sumX)` */
  function SlopeOf(n: nat, sxy: real, sy: real): real
    requires n >= 2
  {
    DenominatorSign(n);
    (n as real * sxy - SumX(n) * sy) / Denominator(n)
  }

  /** `(sumY − slope·sumX) / n` */
  function InterceptOf(n: nat, slope: real, sy: real): real
    requires n >= 1
  {
    (sy - slope * SumX(n)) / n as real
  }

  /** The slope of the fit of `ys`. */
  function Slope(ys: seq<real>): real
    requires |ys| >= 2
  {
    SlopeOf(|ys|, SumXY(ys), Sum(ys))
  }

  /** The intercept of the fit of `ys`. */
  function Intercept(ys: seq<real>): real
    requires |ys| >= 2
  {
    InterceptOf(|ys|, Slope(ys), Sum(ys))
  }

  /** The n points `a·i + b` of a straight line. */
  function Line(a: real, b: real, n: nat): seq<real>
  {
    seq(n, i => a * i as real + b)
  }

  /** `x.map(x => slope * x + intercept)`: one fitted value per candle, the
      same step `Slope(ys)` between any two neighbours. */
  function Fit(ys: seq<real>): (r: seq<real>)
    requires |ys| >= 2
    ensures |r| == |ys|
    ensures forall i :: 0 < i < |r| ==> r[i] - r[i - 1] == Slope(ys)
  {
    var m, b := Slope(ys), Intercept(ys);
    LineStep(m, b, |ys|);
    Line(m, b, |ys|)
  }

  lemma LineStep(a: real, b: real, n: nat)
    ensures forall i :: 0 < i < n ==> Line(a, b, n)[i] - Line(a, b, n)[i - 1] == a
  {
    forall i | 0 < i < n
      ensures Line(a, b, n)[i] - Line(a, b, n)[i - 1] == a
    {
      var x := (i - 1) as real;
      assert a * (x + 1.0) == a * x + a;
    }
  }

  /** The last fitted value exceeds the first by `(n − 1)·slope`. */
  lemma FitEnds(ys: seq<real>)
    requires |ys| >= 2
    ensures Fit(ys)[|ys| - 1] - Fit(ys)[0] == (|ys| - 1) as real * Slope(ys)
  {
    var m, b := Slope(ys), Intercept(ys);
    assert Fit(ys) == Line(m, b, |ys|);
    LineEnds(m, b, |ys|);
  }

  lemma LineEnds(a: real, b: real, n: nat)
    requires n >= 1
    ensures Line(a, b, n)[n - 1] - Line(a, b, n)[0] == (n - 1) as real * a
  {
    assert Line(a, b, n)[0] == a * 0.0 + b;
  }

  /** `a·Σi + n·b` is the sum over a straight line. */
  lemma {:induction false} LineSum(a: real, b: real, n: nat)
    ensures Sum(Line(a, b, n)) == a * SumX(n) + n as real * b
  {
    if n > 0 {
      var l, k := Line(a, b, n), n - 1;
      assert l[..k] == Line(a, b, k);
      LineSum(a, b, k);
      SumXStep(k);
      LineSumStep(a, b, k as real, SumX(k), SumX(n), Sum(l[..k]), Sum(l), l[k]);
    }
  }

  lemma LineSumStep(a: real, b: real, m: real, sx: real, sx': real, s: real, s': real, y: real)
    requires s == a * sx + m * b && s' == s + y && y == a * m + b && sx' == sx + m
    ensures s' == a * sx' + (m + 1.0) * b
  {
  }

  /** `a·Σi² + b·Σi` is the index-weighted sum over a straight line. */
  lemma {:induction false} LineCross(a: real, b: real, n: nat)
    ensures SumXY(Line(a, b, n)) == a * SumXX(n) + b * SumX(n)
  {
    if n > 0 {
      var l, k := Line(a, b, n), n - 1;
      assert l[..k] == Line(a, b, k);
      assert l[..k + 1] == l;
      LineCross(a, b, k);
      SumXYStep(l, k);
      SumXStep(k);
      SumXXStep(k);
      LineCrossStep(a, b, k as real, SumX(k), SumX(n), SumXX(k), SumXX(n), SumXY(l[..k]), SumXY(l), l[k]);
    }
  }

  lemma LineCrossStep(a: real, b: real, m: real, sx: real, sx': real, sxx: real, sxx': real,
                      s: real, s': real, y: real)
    requires s == a * sxx + b * sx && s' == s + m * y && y == a * m + b
    requires sx' == sx + m && sxx' == sxx + m * m
    ensures s' == a * sxx' + b * sx'
  {
  }

  /** A line's own sums give back its slope and intercept. */
  lemma SlopeOfLine(n: nat, a: real, b: real, sxy: real, sy: real)
    requires n >= 2
    requires sxy == a * SumXX(n) + b * SumX(n) && sy == a * SumX(n) + n as real * b
    ensures SlopeOf(n, sxy, sy) == a
    ensures InterceptOf(n, a, sy) == b
  {
    DenominatorSign(n);
    var N, d := n as real, Denominator(n);
    SlopeAlgebra(N, SumX(n), SumXX(n), sxy, sy, d, a, b);
    QuotientOfMultiple(a, d);
    assert sy - a * SumX(n) == b * N;
    QuotientOfMultiple(b, N);
  }

  lemma SlopeAlgebra(N: real, sx: real, sxx: real, sxy: real, sy: real, d: real, a: real, b: real)
    requires sxy == a * sxx + b * sx && sy == a * sx + N * b && d == N * sxx - sx * sx
    ensures N * sxy - sx * sy == a * d
  {
  }

  lemma QuotientOfMultiple(a: real, d: real)
    requires d != 0.0
    ensures (a * d) / d == a
  {
  }

  /** A slope and intercept that satisfy their defining quotients (here
      multiplied out) solve both least-squares normal equations
      `m·Σi + n·b = Σy` and `m·Σi² + b·Σi = Σi·y`. */
  lemma NormalEquations(n: nat, sxy: real, sy: real, m: real, b: real)
    requires n >= 2
    requires m * Denominator(n) == n as real * sxy - SumX(n) * sy
    requires b * n as real == sy - m * SumX(n)
    ensures m * SumX(n) + n as real * b == sy
    ensures m * SumXX(n) + b * SumX(n) == sxy
  {
    NormalAlgebra(n as real, SumX(n), SumXX(n), sxy, sy, Denominator(n), m, b);
  }

  lemma SlopeTimesDenominator(n: nat, sxy: real, sy: real, m: real)
    requires n >= 2 && m == SlopeOf(n, sxy, sy)
    ensures m * Denominator(n) == n as real * sxy - SumX(n) * sy
  {
    DenominatorSign(n);
    TimesQuotient(n as real * sxy - SumX(n) * sy, Denominator(n));
  }

  lemma InterceptTimesCount(n: nat, m: real, sy: real, b: real)
    requires n >= 1 && b == InterceptOf(n, m, sy)
    ensures b * n as real == sy - m * SumX(n)
  {
    TimesQuotient(sy - m * SumX(n), n as real);
  }

  lemma TimesQuotient(x: real, d: real)
    requires d != 0.0
    ensures (x / d) * d == x
  {
  }

  lemma NormalAlgebra(N: real, sx: real, sxx: real, sxy: real, sy: real, d: real, m: real, b: real)
    requires N > 0.0 && d == N * sxx - sx * sx
    requires m * d == N * sxy - sx * sy && b * N == sy - m * sx
    ensures m * sx + N * b == sy
    ensures m * sxx + b * sx == sxy
  {
    assert N * (m * sxx + b * sx) == m * d + sx * (m * sx) + sx * (N * b);
    assert N * (m * sxx + b * sx) == N * sxy;
  }

  /** Closes that already lie on a straight line are their own trend line:
      the fit recovers the line's slope and intercept exactly. */
  lemma FitOfLine(a: real, b: real, n: nat)
    requires n >= 2
    ensures Slope(Line(a, b, n)) == a
    ensures Intercept(Line(a, b, n)) == b
    ensures Fit(Line(a, b, n)) == Line(a, b, n)
  {
    var l := Line(a, b, n);
    LineSum(a, b, n);
    LineCross(a, b, n);
    assert SumXY(l) == a * SumXX(n) + b * SumX(n);
    assert Sum(l) == a * SumX(n) + n as real * b;
    SlopeOfLine(n, a, b, SumXY(l), Sum(l));
  }

  /** The trend line has the same total as the closes and the same sum of
      index-weighted values: the residuals of the least-squares fit add up
      to zero and are uncorrelated with the index. */
  lemma FitPreservesSums(ys: seq<real>)
    requires |ys| >= 2
    ensures Sum(Fit(ys)) == Sum(ys)
    ensures SumXY(Fit(ys)) == SumXY(ys)
  {
    var n, sxy, sy := |ys|, SumXY(ys), Sum(ys);
    var m, b := Slope(ys), Intercept(ys);
    assert Fit(ys) == Line(m, b, n);
    LineSum(m, b, n);
    LineCross(m, b, n);
    SlopeTimesDenominator(n, sxy, sy, m);
    InterceptTimesCount(n, m, sy, b);
    NormalEquations(n, sxy, sy, m, b);
  }
}
