/** The older renderer, utils/chart.js, the one the command line calls: the
    moving average and the trend line it computes from the closes, the
    price window with its `min`/`max` overrides and `minRange` widening, the
    `(height - 4) × width` grid of trend, wicks and bodies, the text rows it
    is joined into, the statistics, and the endpoint choice of
    `fetchCryptoData`.

    The grid is specified cell by cell (`Layer`); each drawing pass is a
    method whose loops are proved to produce it. */
module LegacyChart {
  import opened Candles
  import Regression
  import Stats
  import Api

  const DefaultWidth := 120
  const DefaultHeight := 30
  /** Rows reserved under the plot for the legend (`height - 4`). */
  const LegendRows := 4
  /** The cap `Math.min(value, 2000)` on a requested window. */
  const MaxLimit := 2000

  // ---------------------------------------------------------------------
  // calculateSMA

  /** The candles `data.slice(i - period + 1, i + 1)` averages, as closes:
      for a period below 1 the slice starts past its end and is empty. */
  function SmaWindow(closes: seq<real>, i: int, period: int): (w: seq<real>)
    requires 0 <= i < |closes| && i >= period - 1
    ensures period >= 1 ==> |w| == period
  {
    if period >= 1 then closes[i - period + 1..i + 1] else []
  }

  /** Entry `i` of `calculateSMA`: `null` while fewer than `period` closes
      are available, then the sum of the last `period` closes divided by
      `period`. */
  function SmaEntry(closes: seq<real>, i: int, period: int): Option<Num>
    requires 0 <= i < |closes|
  {
    if i < period - 1 then None
    else Some(Divide(Sum(SmaWindow(closes, i, period)), period as real))
  }

  /** `calculateSMA(data, period)`: one entry per candle. */
  method CalculateSMA(data: seq<Candle>, period: int) returns (sma: seq<Option<Num>>)
    ensures |sma| == |data|
    ensures forall i :: 0 <= i < |data| ==> sma[i] == SmaEntry(Closes(data), i, period)
  {
    var closes := Closes(data);
    sma := [];
    var i := 0;
    while i < |data|
      invariant 0 <= i <= |data| && |sma| == i
      invariant forall k :: 0 <= k < i ==> sma[k] == SmaEntry(closes, k, period)
    {
      if i < period - 1 {
        sma := sma + [None];
        i := i + 1;
        continue;
      }
      var sum := Sum(SmaWindow(closes, i, period));
      sma := sma + [Some(Divide(sum, period as real))];
      i := i + 1;
    }
  }

  /** The first `period - 1` entries are `null`, every later one is defined;
      with a period of 0 or less the window is empty and the entry is
      `0 / period` (NaN for 0). */
  lemma SmaDefined(closes: seq<real>, i: int, period: int)
    requires 0 <= i < |closes|
    ensures SmaEntry(closes, i, period).None? <==> i < period - 1
    ensures period <= 0 ==> SmaEntry(closes, i, period) == Some(Divide(0.0, period as real))
    ensures period == 0 ==> SmaEntry(closes, i, period) == Some(NaN)
  {
  }

  /** For a positive period every defined entry is the finite mean of its
      window, so it lies between the window's smallest and largest close. */
  lemma SmaIsMean(closes: seq<real>, period: int, i: int)
    requires period >= 1 && 0 <= i < |closes| && i >= period - 1
    ensures SmaEntry(closes, i, period) == Some(Finite(Mean(closes[i - period + 1..i + 1])))
    ensures MinOf(closes[i - period + 1..i + 1]) <= SmaEntry(closes, i, period).value.value
                                                <= MaxOf(closes[i - period + 1..i + 1])
  {
    MeanWithin(closes[i - period + 1..i + 1]);
  }

  /** A period of one averages each close with itself. */
  lemma SmaPeriodOne(closes: seq<real>, i: int)
    requires 0 <= i < |closes|
    ensures SmaEntry(closes, i, 1) == Some(Finite(closes[i]))
  {
    var w := SmaWindow(closes, i, 1);
    assert w == [closes[i]] && w[..0] == [];
    assert Sum(w) == closes[i];
  }

  // ---------------------------------------------------------------------
  // calculateTrendLine

  /** Lines 63-68: the four sums of the regression, accumulated candle by
      candle with `x` the candle's index and `y` its close. */
  method AccumulateSums(data: seq<Candle>) returns (sumX: real, sumY: real, sumXY: real, sumXX: real)
    ensures sumX == Regression.SumX(|data|) && sumXX == Regression.SumXX(|data|)
    ensures sumY == Sum(Closes(data)) && sumXY == Regression.SumXY(Closes(data))
  {
    ghost var ys := Closes(data);
    sumX, sumY, sumXY, sumXX := 0.0, 0.0, 0.0, 0.0;
    var i := 0;
    while i < |data|
      invariant 0 <= i <= |data|
      invariant sumX == Regression.SumX(i) && sumXX == Regression.SumXX(i)
      invariant sumY == Sum(ys[..i]) && sumXY == Regression.SumXY(ys[..i])
    {
      Regression.SumXStep(i);
      Regression.SumXXStep(i);
      Regression.SumStep(ys, i);
      Regression.SumXYStep(ys, i);
      sumX := sumX + i as real;
      sumY := sumY + data[i].close;
      sumXY := sumXY + i as real * data[i].close;
      sumXX := sumXX + i as real * i as real;
      i := i + 1;
    }
    assert ys[..i] == ys;
  }

  /** `calculateTrendLine(data)`: the sums, then slope and intercept, then
      one value per candle. The result is the least-squares fit of the
      closes. */
  method CalculateTrendLine(data: seq<Candle>) returns (trend: seq<real>)
    requires |data| >= 2
    ensures trend == Regression.Fit(Closes(data))
  {
    var n := |data|;
    var sumX, sumY, sumXY, sumXX := AccumulateSums(data);
    SlopeFromSums(n, sumX, sumXX, sumXY, sumY);
    var m := (n as real * sumXY - sumX * sumY) / (n as real * sumXX - sumX * sumX);
    var b := (sumY - m * sumX) / n as real;
    assert m == Regression.Slope(Closes(data)) && b == Regression.Intercept(Closes(data));
    trend := seq(n, k => m * k as real + b);
    assert trend == Regression.Line(m, b, n);
  }

  /** The slope written over the running sums is the fitted slope; its
      denominator is positive from two candles on. */
  lemma SlopeFromSums(n: nat, sumX: real, sumXX: real, sumXY: real, sumY: real)
    requires n >= 2 && sumX == Regression.SumX(n) && sumXX == Regression.SumXX(n)
    ensures n as real * sumXX - sumX * sumX == Regression.Denominator(n) > 0.0
    ensures (n as real * sumXY - sumX * sumY) / (n as real * sumXX - sumX * sumX) == Regression.SlopeOf(n, sumXY, sumY)
  {
    Regression.DenominatorSign(n);
  }

  // ---------------------------------------------------------------------
  // The price window

  /** The options `renderChart` reads; a field the caller leaves out is
      `None`. */
  datatype LegacyOptions = LegacyOptions(width: Option<int>, height: Option<int>, min: Option<real>,
                                         max: Option<real>, minRange: Option<real>, disableLegend: bool)

  /** Every value the window has to show: each high and low, then the
      trend values (line 135). */
  function WindowPrices(data: seq<Candle>, trend: seq<real>): seq<real>
  {
    HighsAndLows(data) + trend
  }

  /** Lines 141-148: when `minRange` is set (non-zero) and the window is
      narrower, it is widened to exactly `minRange` around its middle. */
  function WidenToMinRange(lo: real, hi: real, minRange: Option<real>): (w: (real, real))
    ensures minRange.Some? && minRange.value != 0.0 && hi - lo < minRange.value ==>
              w.1 - w.0 == minRange.value && w.0 + w.1 == lo + hi
    ensures !(minRange.Some? && minRange.value != 0.0 && hi - lo < minRange.value) ==> w == (lo, hi)
    ensures w.0 <= lo && hi <= w.1
  {
    if minRange.Some? && minRange.value != 0.0 && hi - lo < minRange.value then
      var middle := (hi + lo) / 2.0;
      (middle - minRange.value / 2.0, middle + minRange.value / 2.0)
    else (lo, hi)
  }

  /** Lines 134-148: `min`/`max` given in the options win (even 0), the
      extremes of highs, lows and trend otherwise; then the widening. */
  function PriceWindow(data: seq<Candle>, trend: seq<real>, options: LegacyOptions): (w: (real, real))
    requires |data| > 0
  {
    var prices := WindowPrices(data, trend);
    var lo := if options.min.Some? then options.min.value else MinOf(prices);
    var hi := if options.max.Some? then options.max.value else MaxOf(prices);
    WidenToMinRange(lo, hi, options.minRange)
  }

  /** Every high, low and trend value lies between the extremes of the
      window prices. */
  lemma ExtremesHoldPrices(data: seq<Candle>, trend: seq<real>)
    requires |data| > 0
    ensures forall i :: 0 <= i < |data| ==>
              MinOf(WindowPrices(data, trend)) <= data[i].low && data[i].high <= MaxOf(WindowPrices(data, trend))
    ensures forall i :: 0 <= i < |trend| ==>
              MinOf(WindowPrices(data, trend)) <= trend[i] <= MaxOf(WindowPrices(data, trend))
  {
    var hl, prices := HighsAndLows(data), WindowPrices(data, trend);
    forall i | 0 <= i < |data|
      ensures prices[2 * i] == data[i].high && prices[2 * i + 1] == data[i].low
    {
      assert prices[2 * i] == hl[2 * i] && prices[2 * i + 1] == hl[2 * i + 1];
    }
    forall i | 0 <= i < |trend|
      ensures prices[|hl| + i] == trend[i]
    {
    }
  }

  /** Without `min`/`max` overrides every high, low and trend value lies
      inside the window, widened or not; without `minRange` the window is
      exactly the extremes of those values. */
  lemma WindowHoldsPrices(data: seq<Candle>, trend: seq<real>, options: LegacyOptions)
    requires |data| > 0 && options.min.None? && options.max.None?
    ensures var w := PriceWindow(data, trend, options);
            (forall i :: 0 <= i < |data| ==> w.0 <= data[i].low && data[i].high <= w.1)
            && (forall i :: 0 <= i < |trend| ==> w.0 <= trend[i] <= w.1)
            && (options.minRange.None? ==> w == (MinOf(WindowPrices(data, trend)), MaxOf(WindowPrices(data, trend))))
  {
    ExtremesHoldPrices(data, trend);
  }

  /** Widening never narrows: with a positive `minRange` the window spans
      at least `minRange`, and it keeps its middle. */
  lemma WidenedSpan(lo: real, hi: real, minRange: real)
    requires minRange > 0.0
    ensures var w := WidenToMinRange(lo, hi, Some(minRange));
            w.1 - w.0 >= minRange && w.1 - w.0 >= hi - lo && w.0 + w.1 == lo + hi
  {
  }

  // ---------------------------------------------------------------------
  // The frame and its geometry

  /** What the drawing works from: the candles, the trend values, the grid
      size (`rows` is `chartHeight`) and the price window. */
  datatype Frame = Frame(data: seq<Candle>, trend: seq<real>, width: int, rows: int, lo: real, hi: real)

  /** A frame the drawing can use: at least one candle, a row array that
      can be allocated, and a window of non-zero range. */
  predicate Sized(f: Frame)
  {
    |f.data| >= 1 && f.width >= 1 && f.rows >= 0 && f.lo != f.hi
  }

  /** `Math.max(1, Math.floor((width - 10) / n))` */
  function CandleWidth(f: Frame): (w: int)
    requires |f.data| >= 1
    ensures w >= 1
    ensures f.width - 10 >= |f.data| ==> w * |f.data| <= f.width - 10
  {
    var q := (f.width - 10) / |f.data|;
    if q >= 1 then q else 1
  }

  /** `Math.max(1, Math.floor(candleWidth / 3))` */
  function Spacing(f: Frame): (s: int)
    requires |f.data| >= 1
    ensures 1 <= s <= CandleWidth(f)
  {
    var q := CandleWidth(f) / 3;
    if q >= 1 then q else 1
  }

  /** `Math.max(1, candleWidth - spacing * 2)` */
  function BodyWidth(f: Frame): (b: int)
    requires |f.data| >= 1
    ensures b >= 1
    ensures Spacing(f) + b <= CandleWidth(f) + 1
  {
    var q := CandleWidth(f) - 2 * Spacing(f);
    if q >= 1 then q else 1
  }

  /** `i * (candleWidth + 1)`: the left edge of candle `i`'s slot. */
  function Left(f: Frame, i: nat): (x: int)
    requires |f.data| >= 1
    ensures x >= 0
  {
    i * (CandleWidth(f) + 1)
  }

  /** `x + Math.floor(candleWidth / 2)`: the column of the wick and of
      trend point `i`. */
  function Centre(f: Frame, i: nat): (x: int)
    requires |f.data| >= 1
    ensures Left(f, i) <= x <= Left(f, i) + CandleWidth(f)
  {
    Left(f, i) + CandleWidth(f) / 2
  }

  /** `priceToRow(price)`: `Math.round((max - price) / range * (chartHeight - 1))`. */
  function Row(f: Frame, price: real): int
    requires f.lo != f.hi
  {
    Round((f.hi - price) / (f.hi - f.lo) * (f.rows - 1) as real)
  }

  /** `maxPrice` lands on the top row and `minPrice` on the bottom row. */
  lemma RowEnds(f: Frame)
    requires Sized(f)
    ensures Row(f, f.hi) == 0
    ensures Row(f, f.lo) == f.rows - 1
  {
    var d := f.hi - f.lo;
    assert (f.hi - f.hi) / d == 0.0;
    assert (f.hi - f.lo) / d == 1.0;
  }

  /** With `max > min` a higher price never gets a lower row. */
  lemma RowAntitone(f: Frame, x: real, y: real)
    requires Sized(f) && f.lo < f.hi && f.rows >= 1 && x <= y
    ensures Row(f, y) <= Row(f, x)
  {
    var d, s := f.hi - f.lo, (f.rows - 1) as real;
    assert (f.hi - y) / d <= (f.hi - x) / d by {
      assert (f.hi - y) / d * d == f.hi - y;
      assert (f.hi - x) / d * d == f.hi - x;
    }
    assert (f.hi - y) / d * s <= (f.hi - x) / d * s;
  }

  /** Every price inside a rising window maps onto a grid row. */
  lemma RowRange(f: Frame, x: real)
    requires Sized(f) && f.lo < f.hi && f.rows >= 1 && f.lo <= x <= f.hi
    ensures 0 <= Row(f, x) < f.rows
  {
    RowEnds(f);
    RowAntitone(f, x, f.hi);
    RowAntitone(f, f.lo, x);
  }

  /** Neighbouring slots are one column apart, so two candles never share
      a column: candle `i` only ever writes columns `Left(i) ..= Left(i) +
      candleWidth`. */
  lemma SlotsApart(f: Frame, i: nat, j: nat)
    requires |f.data| >= 1 && i < j
    ensures Left(f, i) + CandleWidth(f) < Left(f, j)
  {
    MulMonotone(CandleWidth(f) + 1, i + 1, j);
  }

  // ---------------------------------------------------------------------
  // The layers: trend first, then each candle's wick and body

  /** Trend point `i` lands on `(r, c)` (the guard of line 168). */
  predicate TrendHit(f: Frame, i: nat, r: int, c: int)
    requires f.lo != f.hi && |f.data| >= 1 && i < |f.trend|
  {
    var row := Row(f, f.trend[i]);
    0 <= row < f.rows && Centre(f, i) < f.width && r == row && c == Centre(f, i)
  }

  /** The cell after drawing the first `k` trend points. */
  function TrendLayer(f: Frame, k: nat, r: int, c: int): Cell
    requires f.lo != f.hi && |f.data| >= 1 && k <= |f.trend|
  {
    if k == 0 then Blank
    else if TrendHit(f, k - 1, r, c) then Trend
    else TrendLayer(f, k - 1, r, c)
  }

  /** The guard the source applies before a wick write (lines 176 and
      185): the candle's left edge is inside the row. */
  predicate WickGuardAsWritten(f: Frame, i: nat)
    requires |f.data| >= 1
  {
    Left(f, i) < f.width
  }

  /** The guard the model applies instead: the column written, the centre,
      is inside the row. */
  predicate WickFits(f: Frame, i: nat)
    requires |f.data| >= 1
  {
    Centre(f, i) < f.width
  }

  /** The wick of candle `i` covers `(r, c)`: its column, rows from the
      high row down to the low row, clipped to the grid. */
  predicate WickCovers(f: Frame, i: nat, r: int, c: int)
    requires f.lo != f.hi && i < |f.data|
  {
    WickFits(f, i) && c == Centre(f, i)
    && 0 <= r < f.rows && Row(f, f.data[i].high) <= r <= Row(f, f.data[i].low)
  }

  /** `candle.close > candle.open`, strictly: a flat candle is drawn red. */
  predicate Green(candle: Candle)
  {
    candle.close > candle.open
  }

  /** The body's first and last row (line 193). */
  function BodyRows(f: Frame, i: nat): (int, int)
    requires f.lo != f.hi && i < |f.data|
  {
    var candle := f.data[i];
    if Green(candle) then (Row(f, candle.close), Row(f, candle.open))
    else (Row(f, candle.open), Row(f, candle.close))
  }

  /** The body of candle `i` covers `(r, c)`: rows `bodyTop ..= bodyBottom`
      on the grid, columns `x + spacing + j` for `j < bodyWidth` inside the
      row. */
  predicate BodyCovers(f: Frame, i: nat, r: int, c: int)
    requires f.lo != f.hi && i < |f.data|
  {
    Left(f, i) < f.width
    && BodyRows(f, i).0 <= r <= BodyRows(f, i).1 && 0 <= r < f.rows
    && Left(f, i) + Spacing(f) <= c < Left(f, i) + Spacing(f) + BodyWidth(f) && c < f.width
  }

  function BodyCell(candle: Candle): Cell
  {
    if Green(candle) then Bull else Bear
  }

  /** Cell `(r, c)` after candle `i` is drawn over `prev`: body over wick
      over whatever was there. */
  function Paint(f: Frame, i: nat, r: int, c: int, prev: Cell): Cell
    requires f.lo != f.hi && i < |f.data|
  {
    if BodyCovers(f, i, r, c) then BodyCell(f.data[i])
    else if WickCovers(f, i, r, c) then Wick
    else prev
  }

  /** The cell after the trend and the first `k` candles. */
  function Layer(f: Frame, k: nat, r: int, c: int): Cell
    requires f.lo != f.hi && 1 <= |f.data| && k <= |f.data|
  {
    if k == 0 then TrendLayer(f, |f.trend|, r, c)
    else Paint(f, k - 1, r, c, Layer(f, k - 1, r, c))
  }

  /** The grid `renderChart` fills: `chartHeight` rows of `width` cells. */
  function LegacyGrid(f: Frame): (g: Grid)
    requires Sized(f)
    ensures IsGrid(g, f.rows, f.width)
    ensures forall r, c :: 0 <= r < f.rows && 0 <= c < f.width ==> g[r][c] == Layer(f, |f.data|, r, c)
  {
    seq(f.rows, r requires 0 <= r < f.rows => seq(f.width, c requires 0 <= c < f.width => Layer(f, |f.data|, r, c)))
  }

  // ---------------------------------------------------------------------
  // What the layers show

  /** Every write of the model lands inside the grid: trend, wick and body
      cells all have a row in `[0, chartHeight)` and a column in
      `[0, width)`. */
  lemma WritesInside(f: Frame, i: nat, r: int, c: int)
    requires Sized(f) && i < |f.data|
    ensures WickCovers(f, i, r, c) ==> 0 <= r < f.rows && 0 <= c < f.width
    ensures BodyCovers(f, i, r, c) ==> 0 <= r < f.rows && 0 <= c < f.width
    ensures i < |f.trend| && TrendHit(f, i, r, c) ==> 0 <= r < f.rows && 0 <= c < f.width
  {
  }

  /** A candle writes only inside its own slot. */
  lemma PaintsInSlot(f: Frame, i: nat, r: int, c: int)
    requires Sized(f) && i < |f.data|
    requires BodyCovers(f, i, r, c) || WickCovers(f, i, r, c)
    ensures Left(f, i) <= c <= Left(f, i) + CandleWidth(f)
  {
  }

  /** Candles other than `i` leave the cells of `i`'s slot alone, so there
      the first `k` candles show candle `i` over the trend. */
  lemma {:induction false} SlotLayer(f: Frame, k: nat, i: nat, r: int, c: int)
    requires Sized(f) && i < |f.data| && k <= |f.data|
    requires Left(f, i) <= c <= Left(f, i) + CandleWidth(f)
    ensures Layer(f, k, r, c) ==
            if i < k then Paint(f, i, r, c, TrendLayer(f, |f.trend|, r, c)) else TrendLayer(f, |f.trend|, r, c)
  {
    if k > 0 {
      SlotLayer(f, k - 1, i, r, c);
      var j := k - 1;
      if j != i {
        if j < i {
          SlotsApart(f, j, i);
        } else {
          SlotsApart(f, i, j);
        }
        if BodyCovers(f, j, r, c) || WickCovers(f, j, r, c) {
          PaintsInSlot(f, j, r, c);
          assert false;
        }
      }
    }
  }

  /** The finished grid at a candle's cells: a body cell shows the body
      colour (green only when `close > open`), a wick cell outside the body
      shows the wick, so the trend line drawn first stays behind both. */
  lemma CandleCell(f: Frame, i: nat, r: int, c: int)
    requires Sized(f) && i < |f.data|
    ensures BodyCovers(f, i, r, c) ==>
              Layer(f, |f.data|, r, c) == (if f.data[i].close > f.data[i].open then Bull else Bear)
    ensures !BodyCovers(f, i, r, c) && WickCovers(f, i, r, c) ==> Layer(f, |f.data|, r, c) == Wick
  {
    if BodyCovers(f, i, r, c) || WickCovers(f, i, r, c) {
      PaintsInSlot(f, i, r, c);
      SlotLayer(f, |f.data|, i, r, c);
    }
  }

  /** Before any candle is drawn, a cell is a trend cell exactly where
      some trend point lands, and blank everywhere else. */
  lemma {:induction false} TrendShown(f: Frame, k: nat, r: int, c: int)
    requires f.lo != f.hi && |f.data| >= 1 && k <= |f.trend|
    ensures TrendLayer(f, k, r, c) == Trend <==> exists i :: 0 <= i < k && TrendHit(f, i, r, c)
    ensures TrendLayer(f, k, r, c) == Trend || TrendLayer(f, k, r, c) == Blank
  {
    if k > 0 {
      TrendShown(f, k - 1, r, c);
    }
  }

  /** After the first `k` candles a cell still shows the trend exactly
      when the trend layer put one there and none of those candles' wicks
      or bodies covers it. */
  lemma {:induction false} TrendSurvives(f: Frame, k: nat, r: int, c: int)
    requires Sized(f) && k <= |f.data|
    ensures Layer(f, k, r, c) == Trend <==>
              TrendLayer(f, |f.trend|, r, c) == Trend
              && forall i :: 0 <= i < k ==> !BodyCovers(f, i, r, c) && !WickCovers(f, i, r, c)
  {
    if k > 0 {
      TrendSurvives(f, k - 1, r, c);
    }
  }

  /** A flat candle (`close == open`) gets the bearish colour. */
  lemma FlatCandleIsRed(candle: Candle)
    requires candle.close == candle.open
    ensures BodyCell(candle) == Bear
  {
  }

  /** In a rising window the body runs from the higher to the lower of its
      open and close rows, whichever way the candle moved. */
  lemma BodyOrdered(f: Frame, i: nat)
    requires Sized(f) && f.lo < f.hi && f.rows >= 1 && i < |f.data|
    ensures BodyRows(f, i).0 <= BodyRows(f, i).1
    ensures BodyRows(f, i).0 == (if Row(f, f.data[i].open) <= Row(f, f.data[i].close)
                                 then Row(f, f.data[i].open) else Row(f, f.data[i].close))
  {
    var candle := f.data[i];
    if Green(candle) {
      RowAntitone(f, candle.open, candle.close);
    } else {
      RowAntitone(f, candle.close, candle.open);
    }
  }

  /** Candle `i` is skipped (the `return` of line 176) exactly when its
      slot starts at or past column `width`: then it changes no cell, and
      every newer candle is skipped as well. Slots are `candleWidth + 1`
      wide while `candleWidth` is sized for `width - 10`, so the newest
      candles are the ones that go missing. */
  lemma CandleSkipped(f: Frame, i: nat, prev: Cell)
    requires Sized(f) && i < |f.data| && Left(f, i) >= f.width
    ensures forall r, c :: Paint(f, i, r, c, prev) == prev
    ensures forall j :: i <= j < |f.data| ==> Left(f, j) >= f.width
  {
    forall j | i <= j < |f.data|
      ensures Left(f, j) >= f.width
    {
      MulMonotone(CandleWidth(f) + 1, i, j);
    }
  }

  /** With the default width of 120 and 55 candles each candle is 2 columns
      wide in a 3-column slot: candle 39 is the last one drawn, and the 15
      newest candles, 40 to 54, never appear. */
  lemma NewestDropped(f: Frame)
    requires |f.data| == 55 && f.width == DefaultWidth && f.rows >= 0 && f.lo != f.hi
    ensures CandleWidth(f) == 2
    ensures Left(f, 39) < f.width && Left(f, 40) >= f.width
    ensures forall j, r, c, prev :: 40 <= j < |f.data| ==> Paint(f, j, r, c, prev) == prev
  {
    assert CandleWidth(f) == 2;
    forall j, r, c, prev | 40 <= j < |f.data|
      ensures Paint(f, j, r, c, prev) == prev
    {
      CandleSkipped(f, 40, prev);
      CandleSkipped(f, j, prev);
    }
  }

  // ---------------------------------------------------------------------
  // The wick guard, as written and as intended

  /** The guard of lines 176 and 185 lets a wick write land on column
      `width`, one past the row: with 12 equal candles (open 1, high 2,
      low 0.5, close 1.5) and the options `width: 34, height: 30`, the
      trend is flat at 1.5, the window is 0.5 to 2, each candle is 2
      columns wide, candle 11 starts in column 33 (inside), and its wick
      goes to column 33 + 1 = 34 on rows the wick covers. In the source
      that write appends a 35th cell to the row. */
  lemma WickOverrun()
    ensures var f := MakeFrame(OverrunCandles, Regression.Fit(Closes(OverrunCandles)), OverrunOptions);
            Renderable(OverrunCandles, OverrunOptions)
            && f.width == 34 && f.rows == 26 && f.lo == 0.5 && f.hi == 2.0
            && WickGuardAsWritten(f, 11) && Centre(f, 11) == f.width
            && 0 <= Row(f, f.data[11].high) <= Row(f, f.data[11].low) < f.rows
  {
    OverrunWindow();
    var f := MakeFrame(OverrunCandles, Regression.Fit(Closes(OverrunCandles)), OverrunOptions);
    assert CandleWidth(f) == 2;
    RowEnds(f);
  }

  /** The twelve equal candles of the counterexample. */
  const OverrunCandles := seq(12, _ => Candle(0, 1.0, 2.0, 0.5, 1.5, 0.0, 0.0))
  /** `{ width: 34, height: 30 }` */
  const OverrunOptions := LegacyOptions(Some(34), Some(30), None, None, None, false)

  /** The closes of the counterexample lie on the flat line 1.5, so the
      trend reproduces them and the window is spanned by the wicks. */
  lemma OverrunWindow()
    ensures Regression.Fit(Closes(OverrunCandles)) == Regression.Line(0.0, 1.5, 12)
    ensures PriceWindow(OverrunCandles, Regression.Fit(Closes(OverrunCandles)), OverrunOptions) == (0.5, 2.0)
  {
    var data := OverrunCandles;
    assert Closes(data) == Regression.Line(0.0, 1.5, 12);
    Regression.FitOfLine(0.0, 1.5, 12);
    var trend := Regression.Line(0.0, 1.5, 12);
    var prices := WindowPrices(data, trend);
    forall k | 0 <= k < |prices|
      ensures 0.5 <= prices[k] <= 2.0
    {
      if k >= 24 {
        assert prices[k] == trend[k - 24];
      }
    }
    assert prices[0] == 2.0 && prices[1] == 0.5;
    assert MinOf(prices) == 0.5 && MaxOf(prices) == 2.0;
  }

  /** The guard on the written column is the stronger one: every wick it
      lets through the source's guard lets through too, the two differ only
      where the wick would land at or past column `width`, and every wick
      write it allows stays inside the row. */
  lemma WickGuardCorrected(f: Frame, i: nat)
    requires Sized(f) && i < |f.data|
    ensures WickFits(f, i) ==> WickGuardAsWritten(f, i)
    ensures WickGuardAsWritten(f, i) && !WickFits(f, i) ==> Centre(f, i) >= f.width
    ensures forall r, c :: WickCovers(f, i, r, c) ==> 0 <= c < f.width
  {
  }

  // ---------------------------------------------------------------------
  // The drawing passes

  /** Lines 165-171: each trend point inside the grid becomes a trend cell. */
  method DrawTrend(f: Frame, g0: Grid) returns (g: Grid)
    requires Sized(f) && IsGrid(g0, f.rows, f.width)
    requires forall r, c :: 0 <= r < f.rows && 0 <= c < f.width ==> g0[r][c] == Blank
    ensures IsGrid(g, f.rows, f.width)
    ensures forall r, c :: 0 <= r < f.rows && 0 <= c < f.width ==> g[r][c] == TrendLayer(f, |f.trend|, r, c)
  {
    g := g0;
    var i := 0;
    while i < |f.trend|
      invariant 0 <= i <= |f.trend|
      invariant IsGrid(g, f.rows, f.width)
      invariant forall r, c :: 0 <= r < f.rows && 0 <= c < f.width ==> g[r][c] == TrendLayer(f, i, r, c)
    {
      var x := Centre(f, i);
      var row := Row(f, f.trend[i]);
      if row >= 0 && row < f.rows && x < f.width {
        g := Put(g, row, x, Trend);
      }
      i := i + 1;
    }
  }

  /** Lines 184-188 with the corrected guard: the wick of candle `i`. */
  method DrawWick(f: Frame, i: nat, g0: Grid) returns (g: Grid)
    requires Sized(f) && i < |f.data| && IsGrid(g0, f.rows, f.width)
    ensures IsGrid(g, f.rows, f.width)
    ensures forall r, c :: 0 <= r < f.rows && 0 <= c < f.width ==>
              g[r][c] == (if WickCovers(f, i, r, c) then Wick else g0[r][c])
  {
    g := g0;
    var x := Centre(f, i);
    var highRow, lowRow := Row(f, f.data[i].high), Row(f, f.data[i].low);
    var row := highRow;
    while row <= lowRow
      invariant highRow <= row && (row <= lowRow + 1 || row == highRow)
      invariant IsGrid(g, f.rows, f.width)
      invariant forall r, c :: 0 <= r < f.rows && 0 <= c < f.width ==>
                  g[r][c] == (if WickCovers(f, i, r, c) && r < row then Wick else g0[r][c])
      decreases lowRow + 1 - row
    {
      if row >= 0 && row < f.rows && x < f.width {
        g := Put(g, row, x, Wick);
      }
      row := row + 1;
    }
  }

  /** Lines 197-202: one row of candle `i`'s body. */
  method DrawBodyRow(f: Frame, i: nat, row: int, cell: Cell, g0: Grid) returns (g: Grid)
    requires Sized(f) && i < |f.data| && 0 <= row < f.rows && IsGrid(g0, f.rows, f.width)
    ensures IsGrid(g, f.rows, f.width)
    ensures forall r, c :: 0 <= r < f.rows && 0 <= c < f.width ==>
              g[r][c] == (if r == row && Left(f, i) + Spacing(f) <= c < Left(f, i) + Spacing(f) + BodyWidth(f)
                          then cell else g0[r][c])
  {
    g := g0;
    var x := Left(f, i);
    var j := 0;
    while j < BodyWidth(f)
      invariant 0 <= j <= BodyWidth(f)
      invariant IsGrid(g, f.rows, f.width)
      invariant forall r, c :: 0 <= r < f.rows && 0 <= c < f.width ==>
                  g[r][c] == (if r == row && x + Spacing(f) <= c < x + Spacing(f) + j then cell else g0[r][c])
    {
      var col := x + Spacing(f) + j;
      if col < f.width {
        g := Put(g, row, col, cell);
      }
      j := j + 1;
    }
  }

  /** Lines 191-204: the body of candle `i`, row by row. */
  method DrawBody(f: Frame, i: nat, g0: Grid) returns (g: Grid)
    requires Sized(f) && i < |f.data| && Left(f, i) < f.width && IsGrid(g0, f.rows, f.width)
    ensures IsGrid(g, f.rows, f.width)
    ensures forall r, c :: 0 <= r < f.rows && 0 <= c < f.width ==>
              g[r][c] == (if BodyCovers(f, i, r, c) then BodyCell(f.data[i]) else g0[r][c])
  {
    g := g0;
    var cell := BodyCell(f.data[i]);
    var top, bottom := BodyRows(f, i).0, BodyRows(f, i).1;
    var row := top;
    while row <= bottom
      invariant top <= row && (row <= bottom + 1 || row == top)
      invariant IsGrid(g, f.rows, f.width)
      invariant forall r, c :: 0 <= r < f.rows && 0 <= c < f.width ==>
                  g[r][c] == (if BodyCovers(f, i, r, c) && r < row then cell else g0[r][c])
      decreases bottom + 1 - row
    {
      if row >= 0 && row < f.rows {
        g := DrawBodyRow(f, i, row, cell, g);
      }
      row := row + 1;
    }
  }

  /** Lines 174-205 for one candle: skipped when its slot starts past the
      row, otherwise the wick and then the body over it. */
  method DrawCandle(f: Frame, i: nat, g0: Grid) returns (g: Grid)
    requires Sized(f) && i < |f.data| && IsGrid(g0, f.rows, f.width)
    ensures IsGrid(g, f.rows, f.width)
    ensures forall r, c :: 0 <= r < f.rows && 0 <= c < f.width ==> g[r][c] == Paint(f, i, r, c, g0[r][c])
  {
    if Left(f, i) >= f.width {
      return g0;
    }
    g := DrawWick(f, i, g0);
    g := DrawBody(f, i, g);
  }

  /** Lines 174-205: the candles in order over the trend layer. */
  method DrawCandles(f: Frame, g0: Grid) returns (g: Grid)
    requires Sized(f) && IsGrid(g0, f.rows, f.width)
    requires forall r, c :: 0 <= r < f.rows && 0 <= c < f.width ==> g0[r][c] == TrendLayer(f, |f.trend|, r, c)
    ensures IsGrid(g, f.rows, f.width)
    ensures forall r, c :: 0 <= r < f.rows && 0 <= c < f.width ==> g[r][c] == Layer(f, |f.data|, r, c)
  {
    g := g0;
    var i := 0;
    while i < |f.data|
      invariant 0 <= i <= |f.data|
      invariant IsGrid(g, f.rows, f.width)
      invariant forall r, c :: 0 <= r < f.rows && 0 <= c < f.width ==> g[r][c] == Layer(f, i, r, c)
    {
      g := DrawCandle(f, i, g);
      i := i + 1;
    }
  }

  /** Lines 157-205: a blank grid, the trend, then the candles. */
  method DrawGrid(f: Frame) returns (grid: Grid)
    requires Sized(f)
    ensures grid == LegacyGrid(f)
  {
    grid := BlankGrid(f.rows, f.width);
    grid := DrawTrend(f, grid);
    grid := DrawCandles(f, grid);
    SameGrid(grid, LegacyGrid(f), f.rows, f.width);
  }

  // ---------------------------------------------------------------------
  // calculateStats

  datatype Direction = Upward | Downward

  /** The object `calculateStats(data, trendLine)` returns; `pctFromAvg`
      and `trendStrength` can be non-finite. */
  datatype LegacyStats = LegacyStats(current: real, min: real, max: real, avg: real, pctFromAvg: Num,
                                     volume: real, direction: Direction, strength: Num)

  /** `Math.abs` on a JavaScript number. */
  function Abs(x: Num): (r: Num)
    ensures r.Finite? <==> x.Finite?
    ensures r.Finite? ==> r.value >= 0.0 && (r.value == x.value || r.value == -x.value)
    ensures x == NaN <==> r == NaN
  {
    match x
    case Finite(v) => Finite(if v < 0.0 then -v else v)
    case PosInfinity => PosInfinity
    case NegInfinity => PosInfinity
    case NaN => NaN
  }

  /** `trendEnd > trendStart ? 'Upward' : 'Downward'`: the same comparison
      as the newer revision's `'buy'`/`'sell'`, under other names. */
  function TrendDirection(trend: seq<real>): (d: Direction)
    ensures d == Upward <==> |trend| > 0 && trend[|trend| - 1] > trend[0]
  {
    if Stats.Direction(trend) == Stats.Buy then Upward else Downward
  }

  /** `Math.abs((trendEnd - trendStart) / trendStart * 100)`; on an empty
      trend both ends are `undefined` and the result is NaN. */
  function TrendStrength(trend: seq<real>): Num
  {
    if |trend| == 0 then NaN
    else Abs(Times(Divide(trend[|trend| - 1] - trend[0], trend[0]), 100.0))
  }

  /** `calculateStats(data, trendLine)` */
  function CalculateStats(data: seq<Candle>, trend: seq<real>): (s: LegacyStats)
    requires |data| >= 1
    ensures s.current == data[|data| - 1].close && s.volume == data[|data| - 1].volumeTo
    ensures forall i :: 0 <= i < |data| ==> s.min <= data[i].low
    ensures exists i :: 0 <= i < |data| && s.min == data[i].low
    ensures forall i :: 0 <= i < |data| ==> data[i].high <= s.max
    ensures exists i :: 0 <= i < |data| && s.max == data[i].high
    ensures MinOf(Closes(data)) <= s.avg <= MaxOf(Closes(data))
    ensures s.direction == Upward <==> |trend| > 0 && trend[|trend| - 1] > trend[0]
  {
    var latest := data[|data| - 1];
    var avg := Mean(Closes(data));
    MeanWithin(Closes(data));
    LegacyStats(latest.close, MinOf(Lows(data)), MaxOf(Highs(data)), avg,
                Times(Divide(latest.close - avg, avg), 100.0), latest.volumeTo,
                TrendDirection(trend), TrendStrength(trend))
  }

  /** With a positive average, `% from avg` is finite and positive (shown
      green with a `+`) exactly when the last close is above the average. */
  lemma PctFromAvgSign(data: seq<Candle>, trend: seq<real>)
    requires |data| >= 1 && Mean(Closes(data)) > 0.0
    ensures CalculateStats(data, trend).pctFromAvg.Finite?
    ensures CalculateStats(data, trend).pctFromAvg.value > 0.0 <==> data[|data| - 1].close > Mean(Closes(data))
  {
    var avg, cur := Mean(Closes(data)), data[|data| - 1].close;
    var q := (cur - avg) / avg;
    assert q * avg == cur - avg;
    if q > 0.0 {
      assert cur - avg > 0.0;
    }
  }

  /** On the fitted trend line the direction is upward exactly when the
      slope is positive. */
  lemma DirectionOfFit(ys: seq<real>)
    requires |ys| >= 2
    ensures TrendDirection(Regression.Fit(ys)) == Upward <==> Regression.Slope(ys) > 0.0
  {
    Stats.DirectionOfFit(ys);
  }

  /** The strength is the percentage move of the trend from its first
      value, without sign; it is only finite when the first value is not
      zero. */
  lemma StrengthOfTrend(trend: seq<real>)
    requires |trend| >= 1
    ensures TrendStrength(trend).Finite? <==> trend[0] != 0.0
    ensures trend[0] != 0.0 ==>
              var change := (trend[|trend| - 1] - trend[0]) / trend[0] * 100.0;
              TrendStrength(trend).value == (if change < 0.0 then -change else change)
  {
  }

  // ---------------------------------------------------------------------
  // renderChart

  /** The pieces the chart string is concatenated from: a `ScaleRow` is
      one grid row with the price printed left of it and its own line break
      (the digits of `toFixed(2).padStart(8)` are not part of this model),
      a `Text` is literal text such as the time rule or a newline, and a
      `Legend` is the statistics block `renderStats` prints. */
  datatype LegacyPiece = ScaleRow(price: Num, cells: seq<Cell>) | Text(text: string) | Legend(stats: LegacyStats)

  /** The price printed left of row `i`: `maxPrice - (i / (chartHeight - 1)) * priceRange`;
      with a single row that is `0 / 0`, NaN. */
  function RowPrice(f: Frame, i: nat): Num
  {
    if f.rows - 1 != 0 then Finite(f.hi - (i as real / (f.rows - 1) as real) * (f.hi - f.lo))
    else NaN
  }

  /** The top row is labelled with `maxPrice` and the bottom row with
      `minPrice`; every labelled price maps back to its own row. */
  lemma RowPriceRoundTrip(f: Frame, i: nat)
    requires Sized(f) && f.rows >= 2 && i < f.rows
    ensures RowPrice(f, 0) == Finite(f.hi)
    ensures RowPrice(f, f.rows - 1) == Finite(f.lo)
    ensures Row(f, RowPrice(f, i).value) == i
  {
    var d, s, y := f.hi - f.lo, (f.rows - 1) as real, i as real;
    var price := RowPrice(f, i).value;
    assert f.hi - price == (y / s) * d;
    assert (f.hi - price) / d == y / s;
    assert (y / s) * s == y;
    assert (f.hi - price) / d * s == y;
  }

  /** `'\n' + ' '.repeat(8) + '┴' + '─'.repeat(width - 1) + '\n'` */
  function TimeRule(width: int): (s: string)
    requires width >= 1
    ensures |s| == width + 10
    ensures s[0] == '\n' && s[|s| - 1] == '\n' && s[9] == '┴'
    ensures forall k :: 1 <= k < 9 ==> s[k] == ' '
    ensures forall k :: 10 <= k < width + 9 ==> s[k] == '─'
  {
    "\n" + seq(8, _ => ' ') + "┴" + seq(width - 1, _ => '─') + "\n"
  }

  /** The frame `renderChart` draws into for `data`, its trend and the
      options. */
  function MakeFrame(data: seq<Candle>, trend: seq<real>, options: LegacyOptions): Frame
    requires |data| > 0
  {
    var w := PriceWindow(data, trend, options);
    Frame(data, trend, OrDefault(options.width, DefaultWidth), OrDefault(options.height, DefaultHeight) - LegendRows,
          w.0, w.1)
  }

  /** The inputs on which `renderChart` completes: two candles for a
      defined trend line, sizes the row arrays and the time rule accept,
      and a window of non-zero range. */
  predicate Renderable(data: seq<Candle>, options: LegacyOptions)
  {
    |data| >= 2
    && OrDefault(options.width, DefaultWidth) >= 1
    && OrDefault(options.height, DefaultHeight) >= LegendRows
    && PriceWindow(data, Regression.Fit(Closes(data)), options).0
       != PriceWindow(data, Regression.Fit(Closes(data)), options).1
  }

  /** `renderChart(data, options)`: one scale row per grid row, top to
      bottom, then the time rule, then a newline and the statistics unless
      the legend is disabled. */
  method RenderChart(data: seq<Candle>, options: LegacyOptions) returns (chart: seq<LegacyPiece>)
    requires Renderable(data, options)
    ensures var f := MakeFrame(data, Regression.Fit(Closes(data)), options);
            |chart| == f.rows + (if options.disableLegend then 1 else 3)
            && (forall i :: 0 <= i < f.rows ==> chart[i] == ScaleRow(RowPrice(f, i), LegacyGrid(f)[i]))
            && chart[f.rows] == Text(TimeRule(f.width))
            && (!options.disableLegend ==>
                  chart[f.rows + 1] == Text("\n")
                  && chart[f.rows + 2] == Legend(CalculateStats(data, Regression.Fit(Closes(data)))))
  {
    var trend := CalculateTrendLine(data);
    var f := MakeFrame(data, trend, options);
    var grid := DrawGrid(f);
    chart := [];
    var i := 0;
    while i < f.rows
      invariant 0 <= i <= f.rows && |chart| == i
      invariant forall k :: 0 <= k < i ==> chart[k] == ScaleRow(RowPrice(f, k), grid[k])
    {
      chart := chart + [ScaleRow(RowPrice(f, i), grid[i])];
      i := i + 1;
    }
    chart := chart + [Text(TimeRule(f.width))];
    if !options.disableLegend {
      chart := chart + [Text("\n"), Legend(CalculateStats(data, trend))];
    }
  }

  // ---------------------------------------------------------------------
  // fetchCryptoData

  /** `timeframe`: a field left out reads as 0, which is falsy. */
  datatype LegacyTimeframe = LegacyTimeframe(mins: int, hours: int, days: int)

  /** `Math.min(value, 2000)` */
  function Capped(value: int): (r: int)
    ensures r <= MaxLimit && r <= value
    ensures r == value || r == MaxLimit
  {
    if value < MaxLimit then value else MaxLimit
  }

  /** Lines 85-97: the first non-zero field picks the endpoint, minutes
      before hours before days, its value capped at 2000 is the limit; with
      none set, 24 hourly candles. */
  function FetchRequest(t: LegacyTimeframe): Api.Request
  {
    if t.mins != 0 then Api.Request("/v2/histominute", Capped(t.mins))
    else if t.hours != 0 then Api.Request("/v2/histohour", Capped(t.hours))
    else if t.days != 0 then Api.Request("/v2/histoday", Capped(t.days))
    else Api.Request("/v2/histohour", 24)
  }

  /** Each field is read only when every earlier field is zero, and the
      limit never exceeds 2000. */
  lemma RequestPriority(t: LegacyTimeframe)
    ensures FetchRequest(t).limit <= MaxLimit
    ensures t.mins != 0 ==> FetchRequest(t).endpoint == "/v2/histominute"
    ensures t.mins == 0 && t.hours != 0 ==> FetchRequest(t) == Api.Request("/v2/histohour", Capped(t.hours))
    ensures t.mins == 0 && t.hours == 0 && t.days != 0 ==> FetchRequest(t).endpoint == "/v2/histoday"
    ensures t == LegacyTimeframe(0, 0, 0) ==> FetchRequest(t) == Api.Request("/v2/histohour", 24)
  {
  }

  /** A positive value within the cap is requested as it is; a larger one
      is cut to 2000. */
  lemma LimitCap(t: LegacyTimeframe)
    requires t.mins > 0
    ensures t.mins <= MaxLimit ==> FetchRequest(t).limit == t.mins
    ensures t.mins > MaxLimit ==> FetchRequest(t).limit == MaxLimit
  {
  }
}
