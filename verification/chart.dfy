/** The newer renderer, src/lib/chart.js: `renderCandles` draws the trend
    line, the candles, a ten-column price axis and a two-row time axis into a
    `height × width` character grid, and `renderChart` assembles the grid with
    an optional title and the statistics tables.

    The grid is specified cell by cell (`RenderedCell`); each drawing pass of
    `renderCandles` is a method whose loops are proved to produce the layer
    the specification describes. */
module Chart {
  import opened Candles
  import Regression
  import Stats

  const PriceAxisWidth := 10
  const TimeAxisHeight := 2
  const DefaultWidth := 120
  const DefaultHeight := 30

  /** What `renderCandles` works from: the candles, the trend values, the
      grid size and the price window `[lo, hi]` it computes first. */
  datatype Plot = Plot(data: seq<Candle>, trend: seq<real>, width: int, height: int, lo: real, hi: real)

  /** `Math.min(...prices)` over every high and low. */
  function MinPrice(data: seq<Candle>): real
    requires |data| > 0
  {
    MinOf(HighsAndLows(data))
  }

  /** `Math.max(...prices)` over every high and low. */
  function MaxPrice(data: seq<Candle>): real
    requires |data| > 0
  {
    MaxOf(HighsAndLows(data))
  }

  /** The price window of lines 119-122. */
  function MakePlot(data: seq<Candle>, trend: seq<real>, width: int, height: int): Plot
    requires |data| > 0
  {
    Plot(data, trend, width, height, MinPrice(data), MaxPrice(data))
  }

  /** The inputs on which `renderCandles` finishes and writes only inside
      its rows: at least four candles (otherwise the time-label step
      `floor(n/4)` is 0 and the loop never advances), room for the price
      axis column, the time axis rows, and a price range that is not flat
      (otherwise the price scale divides by zero). */
  predicate Drawable(p: Plot)
  {
    |p.data| >= 4 && p.width >= PriceAxisWidth && p.height >= TimeAxisHeight && p.lo < p.hi
  }

  /** `width - PRICE_AXIS_WIDTH` */
  function ChartWidth(p: Plot): int
  {
    p.width - PriceAxisWidth
  }

  /** `height - TIME_AXIS_HEIGHT`: the plot rows, and the index of the time
      axis row. */
  function ChartHeight(p: Plot): int
  {
    p.height - TimeAxisHeight
  }

  /** `Math.floor(i * timeScale) + PRICE_AXIS_WIDTH` with
      `timeScale = chartWidth / n`, in exact arithmetic. */
  function Col(p: Plot, i: nat): int
    requires |p.data| > 0
  {
    i * ChartWidth(p) / |p.data| + PriceAxisWidth
  }

  /** `Math.floor((maxPrice - price) * priceScale)` with
      `priceScale = chartHeight / priceRange`. */
  function Row(p: Plot, price: real): int
    requires p.lo < p.hi
  {
    ((p.hi - price) * (ChartHeight(p) as real / (p.hi - p.lo))).Floor
  }

  // ---------------------------------------------------------------------
  // Column and row mapping

  lemma DivMonotone(a: int, b: int, n: int)
    requires 0 <= a <= b && n > 0
    ensures a / n <= b / n
  {
    var qa, qb := a / n, b / n;
    if qa > qb {
      MulMonotone(n, qb + 1, qa);
      assert false;
    }
  }

  lemma {:induction false} ProductMonotone(i: nat, j: nat, w: nat)
    requires i <= j
    ensures i * w <= j * w
  {
    if i < j {
      ProductMonotone(i, j - 1, w);
    }
  }

  /** Every candle column lies right of the price axis, and columns never
      decrease from one candle to the next. */
  lemma ColMonotone(p: Plot, i: nat, j: nat)
    requires Drawable(p) && i <= j
    ensures PriceAxisWidth <= Col(p, i) <= Col(p, j)
  {
    var w: nat := ChartWidth(p);
    ProductMonotone(i, j, w);
    ProductMonotone(0, i, w);
    DivMonotone(i * w, j * w, |p.data|);
    DivMonotone(0, i * w, |p.data|);
  }

  /** A candle's column is inside the grid exactly when the plot area has
      any width at all; with a width of exactly ten every plot write is
      skipped by the `x < width` guards. */
  lemma ColInside(p: Plot, i: nat)
    requires Drawable(p) && i < |p.data|
    ensures Col(p, i) < p.width <==> ChartWidth(p) > 0
  {
    var n, w: nat := |p.data|, ChartWidth(p);
    if w > 0 {
      ProductLess(i, n, w);
      QuotientBelow(i * w, n, w);
    } else {
      assert i * w == 0;
    }
  }

  lemma {:induction false} ProductLess(i: nat, n: nat, w: nat)
    requires i < n && w > 0
    ensures i * w < n * w
    decreases n - i
  {
    if i + 1 < n {
      ProductLess(i + 1, n, w);
    }
  }

  lemma QuotientBelow(a: int, n: int, w: int)
    requires 0 <= a < n * w && n > 0
    ensures a / n < w
  {
    var q := a / n;
    if q >= w {
      MulMonotone(n, w, q);
      assert false;
    }
  }

  /** When there are no more candles than plot columns, every candle gets a
      column of its own. */
  lemma ColStrict(p: Plot, i: nat)
    requires Drawable(p) && |p.data| <= ChartWidth(p)
    ensures Col(p, i) < Col(p, i + 1)
  {
    var n, w: nat := |p.data|, ChartWidth(p);
    assert (i + 1) * w == i * w + w;
    DivMonotone(i * w + n, i * w + w, n);
    DivShift(i * w, n);
  }

  lemma DivShift(x: int, n: int)
    requires x >= 0 && n > 0
    ensures (x + n) / n == x / n + 1
  {
    var q, r := x / n, x % n;
    assert x + n == n * (q + 1) + r;
    DivUnique(x + n, n, q + 1, r);
  }

  lemma DivUnique(a: int, n: int, q: int, r: int)
    requires n > 0 && a == n * q + r && 0 <= r < n
    ensures a / n == q
  {
    var q' := a / n;
    if q' < q {
      MulMonotone(n, q' + 1, q);
      assert false;
    } else if q' > q {
      MulMonotone(n, q + 1, q');
      assert false;
    }
  }

  lemma ScaledFloorMonotone(x: real, y: real, s: real)
    requires x <= y && s >= 0.0
    ensures (x * s).Floor <= (y * s).Floor
  {
    assert x * s <= y * s;
  }

  /** `maxPrice` maps to row 0 and `minPrice` to row `chartHeight`, one
      past the last plot row, so the `y < chartHeight` guards drop it. */
  lemma RowEnds(p: Plot)
    requires Drawable(p)
    ensures Row(p, p.hi) == 0
    ensures Row(p, p.lo) == ChartHeight(p)
  {
    var d, h := p.hi - p.lo, ChartHeight(p) as real;
    assert (p.hi - p.hi) * (h / d) == 0.0;
    assert d * (h / d) == h;
  }

  /** A higher price never gets a lower row (rows grow downwards). */
  lemma RowAntitone(p: Plot, x: real, y: real)
    requires Drawable(p) && x <= y
    ensures Row(p, y) <= Row(p, x)
  {
    var s := ChartHeight(p) as real / (p.hi - p.lo);
    assert s >= 0.0;
    ScaledFloorMonotone(p.hi - y, p.hi - x, s);
  }

  /** Every price in the window maps into rows `0 ..= chartHeight`. */
  lemma RowRange(p: Plot, x: real)
    requires Drawable(p) && p.lo <= x <= p.hi
    ensures 0 <= Row(p, x) <= ChartHeight(p)
  {
    RowEnds(p);
    RowAntitone(p, x, p.hi);
    RowAntitone(p, p.lo, x);
  }

  // ---------------------------------------------------------------------
  // The plot layers: trend first, then each candle's wick and body

  /** The guard of line 143: trend point `i` lands on `(r, c)`. */
  predicate TrendHit(p: Plot, i: nat, r: int, c: int)
    requires p.lo < p.hi && |p.data| > 0 && i < |p.trend|
  {
    var x, y := Col(p, i), Row(p, p.trend[i]);
    PriceAxisWidth <= x < p.width && 0 <= y < ChartHeight(p) && r == y && c == x
  }

  /** The cell after drawing the first `k` trend points on a blank grid. */
  function TrendLayer(p: Plot, k: nat, r: int, c: int): Cell
    requires p.lo < p.hi && |p.data| > 0 && k <= |p.trend|
  {
    if k == 0 then Blank
    else if TrendHit(p, k - 1, r, c) then Trend
    else TrendLayer(p, k - 1, r, c)
  }

  /** `candle.close >= candle.open`: a flat candle is bullish here. */
  predicate Bullish(candle: Candle)
  {
    candle.close >= candle.open
  }

  function BodyColour(candle: Candle): Cell
  {
    if Bullish(candle) then Bull else Bear
  }

  /** The wick loop of candle `i` writes row `r`. */
  predicate WickCovers(p: Plot, i: nat, r: int)
    requires p.lo < p.hi && i < |p.data|
  {
    0 <= r < ChartHeight(p) && Row(p, p.data[i].high) <= r <= Row(p, p.data[i].low)
  }

  /** The body loop of candle `i` writes row `r`: from the smaller to the
      larger of the open and close rows. */
  predicate BodyCovers(p: Plot, i: nat, r: int)
    requires p.lo < p.hi && i < |p.data|
  {
    var o, cl := Row(p, p.data[i].open), Row(p, p.data[i].close);
    0 <= r < ChartHeight(p) && (if o <= cl then o else cl) <= r <= (if o <= cl then cl else o)
  }

  /** Candle `i` writes cell `(r, c)` at all. */
  predicate Paints(p: Plot, i: nat, r: int, c: int)
    requires p.lo < p.hi && i < |p.data|
  {
    Col(p, i) < p.width && c == Col(p, i) && (BodyCovers(p, i, r) || WickCovers(p, i, r))
  }

  /** Cell `(r, c)` after candle `i` is drawn over `prev`: its body wins
      over its wick, which wins over whatever was there. */
  function Paint(p: Plot, i: nat, r: int, c: int, prev: Cell): Cell
    requires p.lo < p.hi && i < |p.data|
  {
    if !Paints(p, i, r, c) then prev
    else if BodyCovers(p, i, r) then BodyColour(p.data[i])
    else Wick
  }

  /** The cell after the trend and the first `k` candles. */
  function CandleLayer(p: Plot, k: nat, r: int, c: int): Cell
    requires p.lo < p.hi && 0 < |p.data| && k <= |p.data|
  {
    if k == 0 then TrendLayer(p, |p.trend|, r, c)
    else Paint(p, k - 1, r, c, CandleLayer(p, k - 1, r, c))
  }

  // ---------------------------------------------------------------------
  // The price axis

  /** `formatAxisPrice`: which of the three formats applies. */
  datatype PriceForm = Thousands | FourDecimals | TwoDecimals

  function AxisPriceForm(price: real): PriceForm
  {
    if price >= 1000.0 then Thousands
    else if price < 1.0 then FourDecimals
    else TwoDecimals
  }

  /** `formatAxisPrice(price)`; `fixed(x, d)` stands for `x.toFixed(d)`. */
  function FormatAxisPrice(price: real, fixed: (real, nat) -> string): string
  {
    match AxisPriceForm(price)
    case Thousands => fixed(price / 1000.0, 1) + "k"
    case FourDecimals => fixed(price, 4)
    case TwoDecimals => fixed(price, 2)
  }

  /** `Math.floor(chartHeight / 4)`: the distance between labelled rows. */
  function LabelStep(p: Plot): int
  {
    ChartHeight(p) / 4
  }

  /** `y % Math.floor(chartHeight / 4) === 0`; with a step of 0 the
      remainder is NaN and no row is labelled. */
  predicate Labelled(p: Plot, y: int)
  {
    LabelStep(p) > 0 && y % LabelStep(p) == 0
  }

  /** The price a label names on row `y`: `maxPrice - y / priceScale`. */
  function LabelPrice(p: Plot, y: int): real
    requires p.lo < p.hi && ChartHeight(p) > 0
  {
    p.hi - y as real / (ChartHeight(p) as real / (p.hi - p.lo))
  }

  /** The label text of row `y`. */
  function AxisLabel(p: Plot, fixed: (real, nat) -> string, y: int): string
    requires p.lo < p.hi && ChartHeight(p) > 0
  {
    FormatAxisPrice(LabelPrice(p, y), fixed)
  }

  /** `PRICE_AXIS_WIDTH - label.length - 2`: labels end in column 7. */
  function LabelStart(text: string): int
  {
    PriceAxisWidth - |text| - 2
  }

  /** Cell `(r, c)` of a plot row after the axis pass: the axis in column 9,
      the label characters that land in the grid, `prev` elsewhere. Label
      characters that would fall left of column 0 are written to negative
      indices, which `join` ignores. */
  function AxisCell(p: Plot, fixed: (real, nat) -> string, r: int, c: int, prev: Cell): Cell
    requires p.lo < p.hi
  {
    if c == PriceAxisWidth - 1 then AxisY
    else if 0 < ChartHeight(p) && Labelled(p, r) && 0 <= c
            && LabelStart(AxisLabel(p, fixed, r)) <= c < LabelStart(AxisLabel(p, fixed, r)) + |AxisLabel(p, fixed, r)|
    then Ch(AxisLabel(p, fixed, r)[c - LabelStart(AxisLabel(p, fixed, r))])
    else prev
  }

  // ---------------------------------------------------------------------
  // The time axis

  /** `Math.floor(data.length / 4)`: the distance between ticks. */
  function TickStep(p: Plot): int
  {
    |p.data| / 4
  }

  /** How many times the tick loop body runs: `i` takes the values
      `0, step, 2·step, …` up to `n`. */
  function TickRounds(p: Plot): nat
    requires |p.data| >= 4
  {
    |p.data| / TickStep(p) + 1
  }

  /** Round `k` of the tick loop draws a tick: its index is below `n` (the
      `continue` of line 207) and its column inside the grid (line 209). */
  predicate TickDrawn(p: Plot, k: nat)
    requires |p.data| >= 4
  {
    k * TickStep(p) < |p.data| && Col(p, k * TickStep(p)) < p.width
  }

  /** The time axis row after `k` rounds of the tick loop: blank left of
      the corner, the corner in column 9, `AXIS_X` from column 10, and a
      tick under each drawn label. */
  function AxisRow(p: Plot, k: nat, c: int): Cell
    requires |p.data| >= 4
  {
    if k == 0 then
      (if c < PriceAxisWidth - 1 then Blank else if c == PriceAxisWidth - 1 then Corner else AxisX)
    else if TickDrawn(p, k - 1) && c == Col(p, (k - 1) * TickStep(p)) then Tick
    else AxisRow(p, k - 1, c)
  }

  /** The label row after `k` rounds of the tick loop: each label is
      centred on its tick, cut at the right edge (the `break`), and later
      labels overwrite earlier ones. `clock(t)` stands for
      `formatAxisTime(t)`. */
  function LabelRow(p: Plot, clock: int -> string, k: nat, c: int): Cell
    requires |p.data| >= 4
  {
    if k == 0 then Blank
    else
      var prev := LabelRow(p, clock, k - 1, c);
      if !TickDrawn(p, k - 1) then prev
      else
        var i := (k - 1) * TickStep(p);
        var t := clock(p.data[i].time);
        var start := Col(p, i) - |t| / 2;
        if 0 <= c < p.width && start <= c < start + |t| then Ch(t[c - start]) else prev
  }

  // ---------------------------------------------------------------------
  // The whole grid

  /** Cell `(r, c)` of the grid `renderCandles` returns. */
  function RenderedCell(p: Plot, fixed: (real, nat) -> string, clock: int -> string, r: int, c: int): Cell
    requires Drawable(p)
  {
    if r < ChartHeight(p) then AxisCell(p, fixed, r, c, CandleLayer(p, |p.data|, r, c))
    else if r == ChartHeight(p) then AxisRow(p, TickRounds(p), c)
    else LabelRow(p, clock, TickRounds(p), c)
  }

  /** The grid `renderCandles` returns, before `join`. */
  function RenderedGrid(p: Plot, fixed: (real, nat) -> string, clock: int -> string): (g: Grid)
    requires Drawable(p)
    ensures IsGrid(g, p.height, p.width)
    ensures forall r, c :: 0 <= r < p.height && 0 <= c < p.width ==> g[r][c] == RenderedCell(p, fixed, clock, r, c)
  {
    seq(p.height, r requires 0 <= r < p.height =>
      seq(p.width, c requires 0 <= c < p.width => RenderedCell(p, fixed, clock, r, c)))
  }


  // ---------------------------------------------------------------------
  // What the rendered grid shows

  /** `formatAxisPrice` picks the thousands form (one decimal and a `k`)
      from 1000 up, four decimals below 1, and two decimals in between. */
  lemma AxisPriceForms(price: real, fixed: (real, nat) -> string)
    ensures price >= 1000.0 ==> FormatAxisPrice(price, fixed) == fixed(price / 1000.0, 1) + "k"
    ensures price >= 1000.0 ==> FormatAxisPrice(price, fixed)[|FormatAxisPrice(price, fixed)| - 1] == 'k'
    ensures price < 1.0 ==> FormatAxisPrice(price, fixed) == fixed(price, 4)
    ensures 1.0 <= price < 1000.0 ==> FormatAxisPrice(price, fixed) == fixed(price, 2)
  {
  }

  /** The price written on row `y` is one that row `y` plots: the label
      scale is the inverse of the row mapping. */
  lemma LabelPriceRow(p: Plot, y: nat)
    requires Drawable(p) && ChartHeight(p) > 0
    ensures Row(p, LabelPrice(p, y)) == y
    ensures LabelPrice(p, 0) == p.hi
  {
    var s := ChartHeight(p) as real / (p.hi - p.lo);
    assert s > 0.0;
    assert p.hi - LabelPrice(p, y) == y as real / s;
    assert (y as real / s) * s == y as real;
  }

  /** Columns grow strictly from candle to candle when every candle has a
      plot column of its own. */
  lemma {:induction false} ColsDistinct(p: Plot, i: nat, j: nat)
    requires Drawable(p) && |p.data| <= ChartWidth(p) && i < j
    ensures Col(p, i) < Col(p, j)
    decreases j - i
  {
    ColStrict(p, i);
    if i + 1 < j {
      ColsDistinct(p, i + 1, j);
    }
  }

  /** A trend cell shows exactly where some trend point lands; the trend
      pass writes nothing else. */
  lemma {:induction false} TrendShown(p: Plot, k: nat, r: int, c: int)
    requires p.lo < p.hi && |p.data| > 0 && k <= |p.trend|
    ensures TrendLayer(p, k, r, c) == Trend <==> exists i :: 0 <= i < k && TrendHit(p, i, r, c)
    ensures TrendLayer(p, k, r, c) == Trend || TrendLayer(p, k, r, c) == Blank
  {
    if k > 0 {
      TrendShown(p, k - 1, r, c);
    }
  }

  /** The candles after the first `k`, at the column of candle `i`: while
      every candle has its own column, only candle `i` paints there. */
  lemma {:induction false} OwnColumn(p: Plot, k: nat, i: nat, r: int)
    requires Drawable(p) && |p.data| <= ChartWidth(p) && i < |p.data| && k <= |p.data|
    ensures CandleLayer(p, k, r, Col(p, i)) ==
            if i < k then Paint(p, i, r, Col(p, i), TrendLayer(p, |p.trend|, r, Col(p, i)))
            else TrendLayer(p, |p.trend|, r, Col(p, i))
  {
    if k > 0 {
      OwnColumn(p, k - 1, i, r);
      if k - 1 < i {
        ColsDistinct(p, k - 1, i);
      } else if k - 1 > i {
        ColsDistinct(p, i, k - 1);
      }
    }
  }

  /** One candle's column in the finished plot: the body (bullish green
      exactly when `close >= open`) over the wick over the trend line, each
      only on plot rows. */
  lemma CandleColumn(p: Plot, i: nat, r: int)
    requires Drawable(p) && |p.data| <= ChartWidth(p) && i < |p.data|
    ensures PriceAxisWidth <= Col(p, i) < p.width
    ensures BodyCovers(p, i, r) ==>
              CandleLayer(p, |p.data|, r, Col(p, i)) == (if p.data[i].close >= p.data[i].open then Bull else Bear)
    ensures !BodyCovers(p, i, r) && WickCovers(p, i, r) ==> CandleLayer(p, |p.data|, r, Col(p, i)) == Wick
    ensures !BodyCovers(p, i, r) && !WickCovers(p, i, r) ==>
              CandleLayer(p, |p.data|, r, Col(p, i)) == TrendLayer(p, |p.trend|, r, Col(p, i))
  {
    ColMonotone(p, 0, i);
    ColInside(p, i);
    OwnColumn(p, |p.data|, i, r);
  }

  /** The last of the first `k` candles that paints cell `(r, c)`, or
      `None` when none of them does. */
  function LastPainter(p: Plot, k: nat, r: int, c: int): (j: Option<nat>)
    requires p.lo < p.hi && k <= |p.data|
    ensures j.None? <==> forall i :: 0 <= i < k ==> !Paints(p, i, r, c)
    ensures j.Some? ==> j.value < k && Paints(p, j.value, r, c)
                        && forall i :: j.value < i < k ==> !Paints(p, i, r, c)
  {
    if k == 0 then None
    else if Paints(p, k - 1, r, c) then Some(k - 1)
    else LastPainter(p, k - 1, r, c)
  }

  /** For any number of candles: a cell that none of the first `k` candles
      paints keeps the trend layer, and any other cell shows the last of
      them that paints it, its body over its wick. Once there are more
      candles than plot columns, candles share columns, and a later
      candle's wick or body then covers an earlier candle's body. */
  lemma {:induction false} LastPainterWins(p: Plot, k: nat, r: int, c: int)
    requires p.lo < p.hi && 0 < |p.data| && k <= |p.data|
    ensures CandleLayer(p, k, r, c) ==
              match LastPainter(p, k, r, c)
              case None => TrendLayer(p, |p.trend|, r, c)
              case Some(j) => if BodyCovers(p, j, r) then BodyColour(p.data[j]) else Wick
  {
    if k > 0 {
      LastPainterWins(p, k - 1, r, c);
    }
  }

  /** Candles that share a column: on a 12 × 12 chart with four candles
      there are two plot columns, so candles 0 and 1 both land in column
      10. Candle 0's body covers row 5, yet the finished cell is candle 1's
      wick. */
  lemma SharedColumn(trend: seq<real>)
    ensures var p := MakePlot(SharedCandles, trend, 12, 12);
            Drawable(p) && |p.data| > ChartWidth(p)
            && Col(p, 0) == Col(p, 1) == PriceAxisWidth
            && BodyCovers(p, 0, 5)
            && CandleLayer(p, |p.data|, 5, PriceAxisWidth) == Wick
  {
    SharedWindow();
    SharedLayer(MakePlot(SharedCandles, trend, 12, 12));
  }

  /** `SharedColumn` on any plot of `SharedCandles` with that size and window. */
  lemma SharedLayer(p: Plot)
    requires p.data == SharedCandles && p.width == 12 && p.height == 12 && p.lo == 0.0 && p.hi == 10.0
    ensures Col(p, 0) == Col(p, 1) == PriceAxisWidth
    ensures BodyCovers(p, 0, 5)
    ensures CandleLayer(p, |p.data|, 5, PriceAxisWidth) == Wick
  {
    SharedCols(p);
    SharedRows(p);
    var c0, c1 := p.data[0], p.data[1];
    assert c0.open == 4.0 && c0.close == 6.0;
    assert c1.open == 9.0 && c1.high == 10.0 && c1.low == 0.0 && c1.close == 9.5;
    assert WickCovers(p, 1, 5) && !BodyCovers(p, 1, 5);
    assert Paints(p, 1, 5, 10);
    assert !Paints(p, 2, 5, 10) && !Paints(p, 3, 5, 10);
    assert LastPainter(p, 4, 5, 10) == Some(1);
    LastPainterWins(p, 4, 5, 10);
  }

  /** The window of `SharedCandles` is 0 to 10. */
  lemma SharedWindow()
    ensures MinPrice(SharedCandles) == 0.0 && MaxPrice(SharedCandles) == 10.0
  {
    SpannedExtremes(SharedCandles, 1);
  }

  /** Four candles on two plot columns: two candles per column. */
  lemma SharedCols(p: Plot)
    requires p.width == 12 && |p.data| == 4
    ensures Col(p, 0) == 10 && Col(p, 1) == 10 && Col(p, 2) == 11 && Col(p, 3) == 11
  {
    assert ChartWidth(p) == 2;
    assert 1 * 2 / 4 == 0 && 2 * 2 / 4 == 1 && 3 * 2 / 4 == 1;
  }

  /** On the window 0 to 10 with ten plot rows, price `x` is on row `10 - x`. */
  lemma SharedRows(p: Plot)
    requires p.lo == 0.0 && p.hi == 10.0 && p.height == 12
    ensures Row(p, 4.0) == 6 && Row(p, 6.0) == 4
    ensures Row(p, 10.0) == 0 && Row(p, 0.0) == 10 && Row(p, 9.0) == 1 && Row(p, 9.5) == 0
  {
  }

  /** The candles of `SharedColumn`: candle 1 spans the whole window with a
      short body at the top. */
  const SharedCandles := [Candle(0, 4.0, 6.0, 4.0, 6.0, 0.0, 0.0), Candle(0, 9.0, 10.0, 0.0, 9.5, 0.0, 0.0),
                          Candle(0, 4.0, 6.0, 4.0, 6.0, 0.0, 0.0), Candle(0, 4.0, 6.0, 4.0, 6.0, 0.0, 0.0)]

  /** Everything the plot passes leave in a cell is blank, trend, wick or a
      body colour. */
  lemma {:induction false} PlotCells(p: Plot, k: nat, r: int, c: int)
    requires Drawable(p) && k <= |p.data|
    ensures CandleLayer(p, k, r, c) in {Blank, Trend, Wick, Bull, Bear}
  {
    if k == 0 {
      TrendShown(p, |p.trend|, r, c);
    } else {
      PlotCells(p, k - 1, r, c);
    }
  }

  /** The plot rows of the finished grid: the price axis in column 9, the
      plot from column 10 on, and left of the axis either blanks or, on a
      labelled row, the label ending in column 7. */
  lemma PlotRow(p: Plot, fixed: (real, nat) -> string, clock: int -> string, r: int, c: int)
    requires Drawable(p) && 0 <= r < ChartHeight(p) && 0 <= c < p.width
    ensures c == PriceAxisWidth - 1 ==> RenderedCell(p, fixed, clock, r, c) == AxisY
    ensures c >= PriceAxisWidth ==> RenderedCell(p, fixed, clock, r, c) == CandleLayer(p, |p.data|, r, c)
    ensures c < PriceAxisWidth - 1 && !Labelled(p, r) ==> RenderedCell(p, fixed, clock, r, c) == Blank
    ensures c < PriceAxisWidth - 1 && Labelled(p, r) ==>
              var text := AxisLabel(p, fixed, r);
              RenderedCell(p, fixed, clock, r, c) ==
                (if LabelStart(text) <= c < PriceAxisWidth - 2 then Ch(text[c - LabelStart(text)]) else Blank)
  {
    if c < PriceAxisWidth {
      PlotLayerBounds(p, |p.data|, r, c);
    }
  }

  /** The time axis row after `k` rounds: a tick exactly in the columns of
      the drawn ticks, otherwise the axis line from column 10, the corner
      in column 9 and blanks to its left. */
  lemma {:induction false} AxisRowTicks(p: Plot, k: nat, c: int)
    requires Drawable(p)
    ensures AxisRow(p, k, c) ==
            if exists j :: 0 <= j < k && TickDrawn(p, j) && c == Col(p, j * TickStep(p)) then Tick
            else if c < PriceAxisWidth - 1 then Blank
            else if c == PriceAxisWidth - 1 then Corner
            else AxisX
  {
    if k > 0 {
      AxisRowTicks(p, k - 1, c);
      ColMonotone(p, 0, (k - 1) * TickStep(p));
    }
  }

  /** The time axis row of the finished grid. */
  lemma TimeAxisRow(p: Plot, fixed: (real, nat) -> string, clock: int -> string, c: int)
    requires Drawable(p)
    ensures RenderedCell(p, fixed, clock, ChartHeight(p), c) ==
            if exists j :: 0 <= j < TickRounds(p) && TickDrawn(p, j) && c == Col(p, j * TickStep(p)) then Tick
            else if c < PriceAxisWidth - 1 then Blank
            else if c == PriceAxisWidth - 1 then Corner
            else AxisX
  {
    AxisRowTicks(p, TickRounds(p), c);
  }

  /** The first four tick positions `0, step, 2·step, 3·step` always fall on
      candles, so at least four rounds reach the column test. */
  lemma FourTicks(p: Plot, j: nat)
    requires Drawable(p) && j < 4
    ensures j * TickStep(p) < |p.data| && j < TickRounds(p)
  {
    var n, step := |p.data|, TickStep(p);
    assert step >= 1;
    MulMonotone(step, j, 3);
    DivUnique(n, 4, step, n % 4);
    DivUnique(n, step, n / step, n % step);
  }

  // ---------------------------------------------------------------------
  // renderCandles, pass by pass

  /** Lines 140-146: each trend point inside the plot area becomes a trend
      cell. */
  method DrawTrend(p: Plot, g0: Grid) returns (g: Grid)
    requires Drawable(p) && IsGrid(g0, p.height, p.width)
    requires forall r, c :: 0 <= r < p.height && 0 <= c < p.width ==> g0[r][c] == Blank
    ensures IsGrid(g, p.height, p.width)
    ensures forall r, c :: 0 <= r < p.height && 0 <= c < p.width ==> g[r][c] == TrendLayer(p, |p.trend|, r, c)
  {
    g := g0;
    var i := 0;
    while i < |p.trend|
      invariant 0 <= i <= |p.trend|
      invariant IsGrid(g, p.height, p.width)
      invariant forall r, c :: 0 <= r < p.height && 0 <= c < p.width ==> g[r][c] == TrendLayer(p, i, r, c)
    {
      var x, y := Col(p, i), Row(p, p.trend[i]);
      if x >= PriceAxisWidth && x < p.width && y >= 0 && y < ChartHeight(p) {
        g := Put(g, y, x, Trend);
      }
      i := i + 1;
    }
  }

  /** Lines 150-177 for one candle: the wick from the high row down to the
      low row, then the body over it, both clipped to the plot rows. */
  method DrawCandle(p: Plot, i: nat, g0: Grid) returns (g: Grid)
    requires Drawable(p) && i < |p.data| && IsGrid(g0, p.height, p.width)
    ensures IsGrid(g, p.height, p.width)
    ensures forall r, c :: 0 <= r < p.height && 0 <= c < p.width ==> g[r][c] == Paint(p, i, r, c, g0[r][c])
  {
    g := g0;
    var x := Col(p, i);
    if x >= p.width {
      return;
    }
    ColMonotone(p, 0, i);
    var candle := p.data[i];
    var openY, closeY := Row(p, candle.open), Row(p, candle.close);
    var highY, lowY := Row(p, candle.high), Row(p, candle.low);
    var colour := if candle.close >= candle.open then Bull else Bear;
    var ch := ChartHeight(p);

    var y := highY;
    while y <= lowY
      invariant highY <= y && (y <= lowY + 1 || y == highY)
      invariant IsGrid(g, p.height, p.width)
      invariant forall r, c :: 0 <= r < p.height && 0 <= c < p.width ==>
                  g[r][c] == (if c == x && highY <= r < y && r < ch then Wick else g0[r][c])
      decreases lowY + 1 - y
    {
      if y >= 0 && y < ch {
        g := Put(g, y, x, Wick);
      }
      y := y + 1;
    }

    var g1 := g;
    var bodyStart := if openY <= closeY then openY else closeY;
    var bodyEnd := if openY <= closeY then closeY else openY;
    y := bodyStart;
    while y <= bodyEnd
      invariant bodyStart <= y && (y <= bodyEnd + 1 || y == bodyStart)
      invariant IsGrid(g, p.height, p.width)
      invariant forall r, c :: 0 <= r < p.height && 0 <= c < p.width ==>
                  g[r][c] == (if c == x && bodyStart <= r < y && r < ch then colour else g1[r][c])
      decreases bodyEnd + 1 - y
    {
      if y >= 0 && y < ch {
        g := Put(g, y, x, colour);
      }
      y := y + 1;
    }
  }

  /** Lines 149-178: the candles in order over the trend layer. */
  method DrawCandles(p: Plot, g0: Grid) returns (g: Grid)
    requires Drawable(p) && IsGrid(g0, p.height, p.width)
    requires forall r, c :: 0 <= r < p.height && 0 <= c < p.width ==> g0[r][c] == TrendLayer(p, |p.trend|, r, c)
    ensures IsGrid(g, p.height, p.width)
    ensures forall r, c :: 0 <= r < p.height && 0 <= c < p.width ==> g[r][c] == CandleLayer(p, |p.data|, r, c)
  {
    g := g0;
    var i := 0;
    while i < |p.data|
      invariant 0 <= i <= |p.data|
      invariant IsGrid(g, p.height, p.width)
      invariant forall r, c :: 0 <= r < p.height && 0 <= c < p.width ==> g[r][c] == CandleLayer(p, i, r, c)
    {
      g := DrawCandle(p, i, g);
      i := i + 1;
    }
  }

  /** Lines 181-193: the axis in column 9 of every plot row, and a price
      label on every labelled row. */
  method DrawPriceAxis(p: Plot, fixed: (real, nat) -> string, g0: Grid) returns (g: Grid)
    requires Drawable(p) && IsGrid(g0, p.height, p.width)
    ensures IsGrid(g, p.height, p.width)
    ensures forall r, c :: 0 <= r < p.height && 0 <= c < p.width ==>
              g[r][c] == (if r < ChartHeight(p) then AxisCell(p, fixed, r, c, g0[r][c]) else g0[r][c])
  {
    g := g0;
    var y := 0;
    while y < ChartHeight(p)
      invariant 0 <= y <= ChartHeight(p)
      invariant IsGrid(g, p.height, p.width)
      invariant forall r, c :: 0 <= r < p.height && 0 <= c < p.width ==>
                  g[r][c] == (if r < y then AxisCell(p, fixed, r, c, g0[r][c]) else g0[r][c])
    {
      g := Put(g, y, PriceAxisWidth - 1, AxisY);
      if LabelStep(p) > 0 && y % LabelStep(p) == 0 {
        var text := AxisLabel(p, fixed, y);
        var start := LabelStart(text);
        var j := 0;
        while j < |text|
          invariant 0 <= j <= |text|
          invariant IsGrid(g, p.height, p.width)
          invariant forall r, c :: 0 <= r < p.height && 0 <= c < p.width ==>
                      g[r][c] == (if r == y && c == PriceAxisWidth - 1 then AxisY
                                  else if r == y && start <= c < start + j then Ch(text[c - start])
                                  else if r < y then AxisCell(p, fixed, r, c, g0[r][c])
                                  else g0[r][c])
        {
          if start + j >= 0 {
            g := Put(g, y, start + j, Ch(text[j]));
          }
          j := j + 1;
        }
      }
      y := y + 1;
    }
  }

  /** The grid after `k` rounds of the tick loop: the two time axis rows
      as `AxisRow` and `LabelRow` describe them, every other row as in
      `g0`. */
  predicate TimeAxisAfter(p: Plot, clock: int -> string, g0: Grid, g: Grid, k: nat)
    requires Drawable(p) && IsGrid(g0, p.height, p.width) && IsGrid(g, p.height, p.width)
  {
    forall r, c {:trigger g[r][c]} :: 0 <= r < p.height && 0 <= c < p.width ==>
      g[r][c] == (if r == ChartHeight(p) then AxisRow(p, k, c)
                  else if r == ChartHeight(p) + 1 then LabelRow(p, clock, k, c)
                  else g0[r][c])
  }

  /** A drawn round turns the state after `k` rounds into the state after
      `k + 1`. */
  lemma TickRound(p: Plot, clock: int -> string, g0: Grid, g1: Grid, g: Grid, k: nat, x: int, text: string)
    requires Drawable(p) && IsGrid(g0, p.height, p.width) && IsGrid(g1, p.height, p.width)
    requires TickDrawn(p, k) && TimeAxisAfter(p, clock, g0, g1, k)
    requires x == Col(p, k * TickStep(p)) && text == clock(p.data[k * TickStep(p)].time)
    requires IsGrid(g, p.height, p.width)
    requires forall r, c :: 0 <= r < p.height && 0 <= c < p.width ==>
               g[r][c] == (if r == ChartHeight(p) && c == x then Tick
                           else if r == ChartHeight(p) + 1 && x - |text| / 2 <= c < x - |text| / 2 + |text|
                           then Ch(text[c - (x - |text| / 2)])
                           else g1[r][c])
    ensures TimeAxisAfter(p, clock, g0, g, k + 1)
  {
    forall r, c | 0 <= r < p.height && 0 <= c < p.width
      ensures g[r][c] == (if r == ChartHeight(p) then AxisRow(p, k + 1, c)
                          else if r == ChartHeight(p) + 1 then LabelRow(p, clock, k + 1, c)
                          else g0[r][c])
    {
      assert g1[r][c] == (if r == ChartHeight(p) then AxisRow(p, k, c)
                          else if r == ChartHeight(p) + 1 then LabelRow(p, clock, k, c)
                          else g0[r][c]);
    }
  }

  /** One cell of the state `TimeAxisAfter` describes. */
  lemma TimeAxisCell(p: Plot, clock: int -> string, g0: Grid, g: Grid, k: nat, r: int, c: int)
    requires Drawable(p) && IsGrid(g0, p.height, p.width) && IsGrid(g, p.height, p.width)
    requires TimeAxisAfter(p, clock, g0, g, k) && 0 <= r < p.height && 0 <= c < p.width
    ensures g[r][c] == (if r == ChartHeight(p) then AxisRow(p, k, c)
                        else if r == ChartHeight(p) + 1 then LabelRow(p, clock, k, c)
                        else g0[r][c])
  {
  }

  /** A round that draws nothing (a `continue`) leaves the state as it
      was. */
  lemma TickSkipped(p: Plot, clock: int -> string, g0: Grid, g: Grid, k: nat)
    requires Drawable(p) && IsGrid(g0, p.height, p.width) && IsGrid(g, p.height, p.width)
    requires !TickDrawn(p, k) && TimeAxisAfter(p, clock, g0, g, k)
    ensures TimeAxisAfter(p, clock, g0, g, k + 1)
  {
    forall r, c | 0 <= r < p.height && 0 <= c < p.width
      ensures g[r][c] == (if r == ChartHeight(p) then AxisRow(p, k + 1, c)
                          else if r == ChartHeight(p) + 1 then LabelRow(p, clock, k + 1, c)
                          else g0[r][c])
    {
      assert g[r][c] == (if r == ChartHeight(p) then AxisRow(p, k, c)
                         else if r == ChartHeight(p) + 1 then LabelRow(p, clock, k, c)
                         else g0[r][c]);
    }
  }

  /** One drawn round of the tick loop (lines 209-217): a tick in column
      `x` of row `row`, then `text` centred under it in row `row + 1`, cut
      at the right edge (the `break`) and skipped left of the grid. */
  method DrawTick(g1: Grid, width: int, row: int, x: int, text: string) returns (g: Grid)
    requires 0 <= row && row + 1 < |g1| && IsGrid(g1, |g1|, width) && 0 <= x < width
    ensures IsGrid(g, |g1|, width)
    ensures forall r, c :: 0 <= r < |g1| && 0 <= c < width ==>
              g[r][c] == (if r == row && c == x then Tick
                          else if r == row + 1 && x - |text| / 2 <= c < x - |text| / 2 + |text|
                          then Ch(text[c - (x - |text| / 2)])
                          else g1[r][c])
  {
    g := Put(g1, row, x, Tick);
    var start := x - |text| / 2;
    var j := 0;
    while j < |text|
      invariant 0 <= j <= |text|
      invariant IsGrid(g, |g1|, width)
      invariant forall r, c :: 0 <= r < |g1| && 0 <= c < width ==>
                  g[r][c] == (if r == row && c == x then Tick
                              else if r == row + 1 && start <= c < start + j then Ch(text[c - start])
                              else g1[r][c])
    {
      if start + j >= width {
        break;
      }
      if start + j >= 0 {
        g := Put(g, row + 1, start + j, Ch(text[j]));
      }
      j := j + 1;
    }
  }

  /** Lines 196-218: the time axis row with its corner, then one tick and
      one centred time label every `floor(n/4)` candles. */
  method DrawTimeAxis(p: Plot, clock: int -> string, g0: Grid) returns (g: Grid)
    requires Drawable(p) && IsGrid(g0, p.height, p.width)
    requires forall r, c :: ChartHeight(p) <= r < p.height && 0 <= c < p.width ==> g0[r][c] == Blank
    ensures IsGrid(g, p.height, p.width)
    ensures TimeAxisAfter(p, clock, g0, g, TickRounds(p))
  {
    var ch := ChartHeight(p);
    g := g0;
    var x := PriceAxisWidth;
    while x < p.width
      invariant PriceAxisWidth <= x <= p.width
      invariant IsGrid(g, p.height, p.width)
      invariant forall r, c :: 0 <= r < p.height && 0 <= c < p.width ==>
                  g[r][c] == (if r == ch && PriceAxisWidth <= c < x then AxisX else g0[r][c])
    {
      g := Put(g, ch, x, AxisX);
      x := x + 1;
    }
    g := Put(g, ch, PriceAxisWidth - 1, Corner);
    assert forall c :: 0 <= c < p.width ==> g[ch][c] == AxisRow(p, 0, c);
    forall c | 0 <= c < p.width
      ensures g[ch + 1][c] == LabelRow(p, clock, 0, c)
    {
      assert g[ch + 1][c] == g0[ch + 1][c];
    }

    var n, step := |p.data|, TickStep(p);
    var i := 0;
    ghost var k: nat := 0;
    while i <= n
      invariant i == k * TickStep(p)
      invariant k > 0 ==> (k - 1) * step <= n
      invariant IsGrid(g, p.height, p.width)
      invariant TimeAxisAfter(p, clock, g0, g, k)
      decreases n + 1 - i
    {
      // the two `continue`s of the source: past the last candle, or a
      // column right of the grid
      if i < n && Col(p, i) < p.width {
        ColMonotone(p, 0, i);
        var g1, x, text := g, Col(p, i), clock(p.data[i].time);
        g := DrawTick(g, p.width, ch, x, text);
        TickRound(p, clock, g0, g1, g, k, x, text);
      } else {
        TickSkipped(p, clock, g0, g, k);
      }
      assert (k + 1) * step == i + step;
      i, k := i + step, k + 1;
    }
    DivUnique(n, step, k - 1, n - (k - 1) * step);
    assert k == TickRounds(p);
  }

  /** The plot layers only ever touch plot rows and columns right of the
      price axis; everything else stays blank. */
  lemma {:induction false} PlotLayerBounds(p: Plot, k: nat, r: int, c: int)
    requires Drawable(p) && k <= |p.data|
    requires !(0 <= r < ChartHeight(p) && PriceAxisWidth <= c < p.width)
    ensures CandleLayer(p, k, r, c) == Blank
  {
    if k == 0 {
      TrendLayerBounds(p, |p.trend|, r, c);
    } else {
      PlotLayerBounds(p, k - 1, r, c);
      ColMonotone(p, 0, k - 1);
    }
  }

  lemma {:induction false} TrendLayerBounds(p: Plot, k: nat, r: int, c: int)
    requires Drawable(p) && k <= |p.trend|
    requires !(0 <= r < ChartHeight(p) && PriceAxisWidth <= c < p.width)
    ensures TrendLayer(p, k, r, c) == Blank
  {
    if k > 0 {
      TrendLayerBounds(p, k - 1, r, c);
    }
  }

  /** The passes of `renderCandles` in order, on a plot whose window is
      already fixed: trend, candles, price axis, time axis. */
  method RenderPlot(p: Plot, fixed: (real, nat) -> string, clock: int -> string) returns (grid: Grid)
    requires Drawable(p)
    ensures grid == RenderedGrid(p, fixed, clock)
  {
    grid := BlankGrid(p.height, p.width);
    grid := DrawTrend(p, grid);
    grid := DrawCandles(p, grid);
    var plotted := grid;
    grid := DrawPriceAxis(p, fixed, grid);
    forall r, c | ChartHeight(p) <= r < p.height && 0 <= c < p.width
      ensures grid[r][c] == Blank
    {
      PlotLayerBounds(p, |p.data|, r, c);
    }
    var axes := grid;
    grid := DrawTimeAxis(p, clock, grid);
    var want := RenderedGrid(p, fixed, clock);
    forall r, c | 0 <= r < p.height && 0 <= c < p.width
      ensures grid[r][c] == want[r][c]
    {
      TimeAxisCell(p, clock, axes, grid, TickRounds(p), r, c);
      if r < ChartHeight(p) {
        assert axes[r][c] == AxisCell(p, fixed, r, c, plotted[r][c]);
      }
    }
    SameGrid(grid, want, p.height, p.width);
  }

  /** `renderCandles(data, width, height, trendLine)`, before the rows are
      joined into one string: the price window is taken from the candles'
      highs and lows, and the grid is exactly the one `RenderedGrid`
      describes. */
  method RenderCandles(data: seq<Candle>, trend: seq<real>, width: int, height: int,
                       fixed: (real, nat) -> string, clock: int -> string) returns (grid: Grid)
    requires |data| >= 4 && width >= PriceAxisWidth && height >= TimeAxisHeight
    requires MinPrice(data) < MaxPrice(data)
    ensures grid == RenderedGrid(MakePlot(data, trend, width, height), fixed, clock)
  {
    var minPrice, maxPrice := MinPrice(data), MaxPrice(data);
    grid := RenderPlot(Plot(data, trend, width, height, minPrice, maxPrice), fixed, clock);
  }

  // ---------------------------------------------------------------------
  // renderChart

  /** What `renderChart` is handed as `data`: nothing, something that is
      not an array, or a candle array. */
  datatype ChartData = Missing | NotAnArray | Series(candles: seq<Candle>)

  /** `options`: a field the caller leaves out is `None`. */
  datatype ChartOptions = ChartOptions(width: Option<int>, height: Option<int>, pair: Option<string>,
                                       disableLegend: bool)

  /** The parts the chart string is concatenated from. `Title` stands for
      the padded, bold `"<pair> Price Chart"`, `Candlesticks` for the joined
      grid and `Legend` for the `renderStats` tables of a summary. */
  datatype Piece = Text(text: string) | Title(pair: string) | Candlesticks(grid: Grid) | Legend(summary: Stats.Summary)

  /** `options.pair` is truthy: present and not the empty string. */
  predicate HasTitle(options: ChartOptions)
  {
    options.pair.Some? && options.pair.value != ""
  }

  /** Input on which `renderChart` returns a chart instead of `undefined`. */
  predicate HasCandles(data: ChartData)
  {
    data.Series? && |data.candles| > 0
  }

  /** The inputs on which the rendering finishes (see `Drawable`): every
      non-empty series has four candles and a price range, and the sizes
      leave room for both axes. */
  predicate Renderable(data: ChartData, options: ChartOptions)
  {
    HasCandles(data) ==>
      |data.candles| >= 4 && MinPrice(data.candles) < MaxPrice(data.candles)
      && OrDefault(options.width, DefaultWidth) >= PriceAxisWidth
      && OrDefault(options.height, DefaultHeight) >= TimeAxisHeight
  }

  /** `calculateTrendLine(data)`: the least-squares line of the closes
      against the candle index, one value per candle. */
  function CalculateTrendLine(data: seq<Candle>): (r: seq<real>)
    requires |data| >= 2
    ensures |r| == |data|
    ensures forall i :: 0 <= i < |r| ==>
              r[i] == Regression.Slope(Closes(data)) * i as real + Regression.Intercept(Closes(data))
    ensures Sum(r) == Sum(Closes(data))
  {
    Regression.FitPreservesSums(Closes(data));
    Regression.Fit(Closes(data))
  }

  /** The pieces of a rendered chart in order (the `+=` sequence of
      lines 38-59), around the grid and the statistics summary. */
  function Layout(options: ChartOptions, grid: Grid, summary: Stats.Summary): seq<Piece>
  {
    [Text("\n")]
    + (if HasTitle(options) then [Title(options.pair.value), Text("\n\n")] else [Text("\n")])
    + [Candlesticks(grid)]
    + (if options.disableLegend then [Text("\n")] else [Text("\n\n"), Legend(summary)])
    + [Text("\n")]
  }

  /** The chart starts and ends with a newline and holds exactly one grid,
      right after the title block; a title appears exactly when a pair is
      given, and the statistics exactly when the legend is not disabled. */
  lemma LayoutShape(options: ChartOptions, grid: Grid, summary: Stats.Summary)
    ensures var pieces, g := Layout(options, grid, summary), if HasTitle(options) then 3 else 2;
            |pieces| == g + (if options.disableLegend then 3 else 4)
            && pieces[0] == Text("\n") && pieces[|pieces| - 1] == Text("\n")
            && pieces[g] == Candlesticks(grid)
            && (forall i :: 0 <= i < |pieces| && i != g ==> !pieces[i].Candlesticks?)
            && ((exists i :: 0 <= i < |pieces| && pieces[i].Title?) <==> HasTitle(options))
            && ((exists i :: 0 <= i < |pieces| && pieces[i] == Legend(summary)) <==> !options.disableLegend)
            && (forall i :: 0 <= i < |pieces| && pieces[i].Legend? ==> pieces[i] == Legend(summary))
  {
    var pieces := Layout(options, grid, summary);
    var head := if HasTitle(options) then [Text("\n"), Title(options.pair.value), Text("\n\n")] else [Text("\n"), Text("\n")];
    var tail := if options.disableLegend then [Text("\n"), Text("\n")] else [Text("\n\n"), Legend(summary), Text("\n")];
    assert pieces == head + [Candlesticks(grid)] + tail;
    if HasTitle(options) {
      assert pieces[1].Title?;
    }
    if !options.disableLegend {
      assert pieces[|head| + 2] == Legend(summary);
    }
  }

  /** The statistics printed under the chart call a `'buy'` exactly when the
      fitted trend line rises. */
  lemma LegendSide(candles: seq<Candle>, pair: Option<string>)
    requires |candles| >= 2
    ensures Stats.CalculateStats(candles, CalculateTrendLine(candles), pair).trades.side == Stats.Buy
            <==> Regression.Slope(Closes(candles)) > 0.0
  {
    Stats.DirectionOfFit(Closes(candles));
  }

  /** `renderChart(data, options)`: `undefined` (`None`) unless `data` is a
      non-empty array; otherwise, in order, a newline, the title and a blank
      line (or just a newline without a pair), the candlestick grid, a blank
      line and the statistics (or a newline with the legend disabled), and
      a final newline. */
  method RenderChart(data: ChartData, options: ChartOptions, fixed: (real, nat) -> string,
                     clock: int -> string) returns (chart: Option<seq<Piece>>)
    requires Renderable(data, options)
    ensures chart.None? <==> !HasCandles(data)
    ensures chart.Some? ==>
              var candles := data.candles;
              var trend := CalculateTrendLine(candles);
              var plot := MakePlot(candles, trend, OrDefault(options.width, DefaultWidth),
                                   OrDefault(options.height, DefaultHeight));
              chart.value == Layout(options, RenderedGrid(plot, fixed, clock),
                                    Stats.CalculateStats(candles, trend, options.pair))
  {
    if !HasCandles(data) {
      return None;
    }
    var candles := data.candles;
    var width, height := OrDefault(options.width, DefaultWidth), OrDefault(options.height, DefaultHeight);
    var trend := CalculateTrendLine(candles);
    var pieces := [Text("\n")];
    if HasTitle(options) {
      pieces := pieces + [Title(options.pair.value), Text("\n\n")];
    } else {
      pieces := pieces + [Text("\n")];
    }
    var grid := RenderCandles(candles, trend, width, height, fixed, clock);
    pieces := pieces + [Candlesticks(grid)];
    if !options.disableLegend {
      pieces := pieces + [Text("\n\n"), Legend(Stats.CalculateStats(candles, trend, options.pair))];
    } else {
      pieces := pieces + [Text("\n")];
    }
    pieces := pieces + [Text("\n")];
    return Some(pieces);
  }
}
