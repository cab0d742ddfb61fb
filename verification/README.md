# candlestick-cli: a Dafny model of the chart engine

candlestick-cli prints an OHLC candle series as a candlestick chart in the
terminal. It draws a least-squares trend line behind the candles and shows a
block of statistics underneath. The repository holds two revisions of the
renderer, with different rules, and this project models each one in its own
module:

- `LegacyChart` (legacy_chart.dfy) models utils/chart.js, the renderer the
  command line calls. It covers:
  - the moving average `calculateSMA`;
  - the loop of `calculateTrendLine` that accumulates the four sums;
  - the price window, with its `min`/`max` overrides and `minRange` widening;
  - the rounded row mapping;
  - the `(height - 4) × width` grid of trend cells, wicks and bodies, with
    the candle geometry;
  - the rows of the finished chart, the time rule and the statistics;
  - the endpoint and limit that `fetchCryptoData` picks.
- `Chart` (chart.dfy) models src/lib/chart.js:
  - `renderCandles`: the floor-based column and row mapping, the trend, wick
    and body layers, the ten-column price axis with its labels, and the
    two-row time axis with its ticks and centred time labels;
  - `formatAxisPrice`;
  - `renderChart`: the input check and the order in which the chart is put
    together.
- `Stats` (stats.dfy) models src/lib/stats.js: `calculateStats`, its
  lookback changes `getChange`, and the sign rule of `formatChange`.
- `Api` (api.dfy) models the head of `fetchCandleData` in src/api/api.js,
  which turns days, hours and minutes into a history endpoint and a candle
  count.
- `Regression` (regression.dfy) holds the least-squares fit both revisions
  compute. The newer `calculateTrendLine` is that fit. The older one is a
  loop, and it is proved to return the same values.
- `Candles` (candles.dfy) holds what the modules share:
  - the candle record and the display cells;
  - grid updates;
  - sums, extrema and means;
  - JavaScript `Math.round`;
  - JavaScript division, which gives infinities and NaN when the divisor is
    zero.

Prices are exact reals. Each grid is a sequence of rows of `Cell` tags
(`Blank`, `Trend`, `Wick`, `Bull`, `Bear`, the axis pieces and plain
characters); the colour strings are left out. Each drawing loop is a method
that updates the grid one cell at a time. Its `ensures` ties the grid to a
cell-by-cell specification (`Chart.RenderedCell`, `LegacyChart.Layer`).
Lemmas prove what the picture shows: layering, clipping, label placement and
the row mapping. Two formatting steps become function parameters:
`fixed(x, d)` stands for `x.toFixed(d)` and `clock(t)` for `formatAxisTime(t)`.

Where the documented behaviour and the code differ, the model follows the
code:

- The older renderer colours a candle bullish only when `close > open`, so a
  flat candle is red (`LegacyChart.FlatCandleIsRed`). The newer one uses
  `close >= open`.
- In the newer renderer, in exact arithmetic, `minPrice` maps to row
  `chartHeight`, one past the last plot row, so the lowest price is never
  drawn (`Chart.RowEnds`). It does not map to the last plot row. In
  doubles the product `range · (chartHeight / range)` can round just below
  `chartHeight` (height 3 with prices 100 to 149 gives 0.9999999999999999),
  and then the low lands on the last plot row; the model does not capture
  that.
- In the older renderer each candle's slot is `candleWidth + 1` columns
  wide while `candleWidth` is sized so that `candleWidth` columns per candle
  fit in `width - 10`. When the extra column per candle overflows the row,
  the newest candles are not drawn at all: at the default width of 120, 55
  candles are 2 wide and candles 40 to 54 are skipped
  (`LegacyChart.CandleSkipped`, `LegacyChart.NewestDropped`). The model
  keeps this behaviour.
- The newer renderer gives each candle its own column only while there
  are no more candles than plot columns (`width - 10`). With more, candles
  share columns and the last one drawn in a column wins: a later wick can
  cover an earlier body (`Chart.LastPainterWins`, `Chart.SharedColumn`).
  `Chart.CandleColumn` describes the one-column-per-candle case.
- A flat price range, and fewer than four candles in the newer renderer, are
  preconditions, not fallbacks (see "## Left out").

## Model

| member | source | states |
|---|---|---|
| Candles.BlankGrid | src/lib/chart.js:131-133 | the new grid has `rows` rows of `cols` cells, all blank |
| Candles.Put | src/lib/chart.js:144 | `grid[r][c] = v` changes exactly that cell and keeps the grid's shape |
| Candles.OrDefault | src/lib/chart.js:34-35 | `value \|\| fallback`: a present non-zero size is used, an absent or zero one falls back |
| Candles.MinOf | src/lib/stats.js:24 | `Math.min(...s)` is at most every element and equals one of them |
| Candles.MaxOf | src/lib/stats.js:25 | `Math.max(...s)` is at least every element and equals one of them |
| Candles.MeanWithin | src/lib/stats.js:26 | the average of the closes lies between the smallest and the largest close |
| Candles.SumBounds | src/lib/stats.js:26 | a sum of values in `[lo, hi]` lies in `[n·lo, n·hi]` |
| Candles.Round | utils/chart.js:153 | `Math.round(x)` is the integer within half a unit of `x`, with halves rounded up |
| Candles.Divide | src/lib/stats.js:33 | JavaScript division: finite exactly for a non-zero divisor, and then the true quotient; `+∞`, `−∞` or NaN by the numerator's sign otherwise |
| Candles.Times | src/lib/stats.js:33 | multiplying by a positive constant keeps finiteness and scales a finite value |
| Candles.Closes | src/lib/chart.js:73 | one close per candle, in order |
| Candles.HighsAndLows | src/lib/chart.js:119 | the high and then the low of each candle, in order |
| Candles.SpannedExtremes | src/lib/chart.js:119-121 | when one candle spans every other, `minPrice` and `maxPrice` are its low and high |
| Regression.SumIndices | src/lib/chart.js:76 | the sum over the indices `0..n-1` is `SumX(n) = n(n-1)/2` |
| Regression.SumSquares | src/lib/chart.js:79 | the sum over the squared indices is `SumXX(n)` |
| Regression.DenominatorClosedForm | src/lib/chart.js:81 | `12·(n·Σi² − (Σi)²) = n²(n−1)(n+1)` |
| Regression.DenominatorSign | src/lib/chart.js:81 | the slope's denominator is 0 for one candle and positive from two on |
| Regression.Fit | src/lib/chart.js:81-84 | the fit has one value per close, and consecutive values differ by the slope |
| Regression.Slope | src/lib/chart.js:81 | definition of `slope` from the four sums; properties in `Regression.NormalEquations` and `Regression.FitOfLine` |
| Regression.Intercept | src/lib/chart.js:82 | definition of `intercept`; properties in `Regression.NormalEquations` and `Regression.FitOfLine` |
| Regression.FitEnds | src/lib/chart.js:84 | the last fitted value minus the first is `(n − 1)·slope` |
| Regression.LineSum | src/lib/chart.js:84 | the values `a·i + b` sum to `a·Σi + n·b` |
| Regression.LineCross | src/lib/chart.js:84 | the index-weighted sum of `a·i + b` is `a·Σi² + b·Σi` |
| Regression.SlopeOfLine | src/lib/chart.js:81-82 | sums that come from a straight line give back its slope and intercept |
| Regression.NormalEquations | src/lib/chart.js:81-82 | slope and intercept solve both normal equations of least squares |
| Regression.FitOfLine | src/lib/chart.js:72-85 | closes that already lie on a line `a·i + b` are fitted exactly, with slope `a` and intercept `b` |
| Regression.FitPreservesSums | src/lib/chart.js:72-85 | the fitted values have the same sum and the same index-weighted sum as the closes |
| Api.TotalMinutes | src/api/api.js:19-21 | definition of `totalMinutes`; properties in `Api.Minutes` |
| Api.Minutes | src/api/api.js:19-24 | the window in minutes is never 0: the total of days, hours and minutes, or one day when that total is 0 |
| Api.CeilDiv | src/api/api.js:32 | `Math.ceil(m / unit)`: the least `q` with `q·unit ≥ m` |
| Api.FetchRequest | src/api/api.js:26-37 | definition of the endpoint and limit choice; properties in `Api.EndpointChoice`, `Api.MinuteLimit` and `Api.LimitCoversWindow` |
| Api.EndpointChoice | src/api/api.js:26-37 | minute candles below one day, hourly from one day to below a week, daily from a week; each holds exactly on its range |
| Api.MinuteLimit | src/api/api.js:27-28 | below one day the request is `/histominute` with the minute count as limit |
| Api.LimitCoversWindow | src/api/api.js:27-37 | for a positive window the limit is at least 1, its candles cover the window, and one candle fewer would not |
| Api.EmptyTimeframe | src/api/api.js:19-33 | an empty timeframe asks for 24 hourly candles |
| Api.SixtyMinutes | src/api/api.js:19-28 | sixty minutes ask for sixty minute candles |
| Api.TwoWeeks | src/api/api.js:34-37 | two weeks ask for fourteen daily candles |
| Stats.FormatChange | src/lib/stats.js:10-14 | definition of the sign and colour of a change; properties in `Stats.ChangeSign` and `Stats.ZeroBaseChange` |
| Stats.GetChange | src/lib/stats.js:30-34 | definition of `getChange`; properties in `Stats.ShortSeriesNoChange`, `Stats.WholeSeriesChange`, `Stats.ChangeSign` and `Stats.ZeroBaseChange` |
| Stats.Changes | src/lib/stats.js:36-42 | definition of the `changes` record; properties in `Stats.ChangesWindows` |
| Stats.Direction | src/lib/stats.js:44-47 | definition of `trendDirection`; properties in `Stats.DirectionOfFit` and `Stats.LineDirection` |
| Stats.MakeTrades | src/lib/stats.js:50-58 | definition of the `trades` record; properties in `Stats.TradeCounts` |
| Stats.CalculateStats | src/lib/stats.js:16-70 | the summary keeps the pair. `current` and `volume` come from the last candle, `min` and `max` are attained extremes of the lows and highs, and `avg` lies between the extreme closes. There are exactly five change keys, the last trade price is `current`, and the side is `'buy'` iff the trend ends above its start |
| Stats.ChangesWindows | src/lib/stats.js:36-42 | `changes` has exactly the keys of the five windows, each holding `getChange` of that window's length |
| Stats.ShortSeriesNoChange | src/lib/stats.js:30-31 | a window longer than the series gives a change of 0 |
| Stats.WholeSeriesChange | src/lib/stats.js:30-34 | a window as long as the series measures from the first close |
| Stats.ChangeSign | src/lib/stats.js:10-34 | with a positive base close the change is finite. It is `>= 0`, shown with `+` in green, iff the price did not fall, and it is 0 when the price is unchanged |
| Stats.ZeroBaseChange | src/lib/stats.js:30-34 | a zero base close gives `+∞` after a rise and NaN when the price stays at 0; NaN is shown red |
| Stats.TradeCounts | src/lib/stats.js:56-57 | for a non-negative volume, `buys ≥ sells ≥ 0` |
| Stats.DirectionOfFit | src/lib/stats.js:44-47 | on a fitted trend line the side is `'buy'` iff the slope is positive |
| Stats.LineDirection | src/lib/stats.js:44-47 | closes rising along a straight line give `'buy'`; flat or falling ones give `'sell'` |
| Chart.MinPrice | src/lib/chart.js:119-120 | definition of `minPrice`, the least high or low; properties in `Candles.MinOf` |
| Chart.MaxPrice | src/lib/chart.js:119-121 | definition of `maxPrice`, the greatest high or low; properties in `Candles.MaxOf` |
| Chart.MakePlot | src/lib/chart.js:118-128 | definition of the plot frame (candles, trend, sizes, window); properties in `Chart.PlotCells` and the lemmas on `Chart.Col` and `Chart.Row` |
| Chart.Col | src/lib/chart.js:141-150 | definition of a candle's column; properties in `Chart.ColMonotone`, `Chart.ColInside`, `Chart.ColStrict` and `Chart.ColsDistinct` |
| Chart.Row | src/lib/chart.js:142-157 | definition of a price's row; properties in `Chart.RowEnds`, `Chart.RowAntitone` and `Chart.RowRange` |
| Chart.ColMonotone | src/lib/chart.js:136-150 | every candle column is at least 10 and columns never decrease from candle to candle |
| Chart.ColInside | src/lib/chart.js:141-151 | a candle column is inside the grid iff the plot area has any width |
| Chart.ColStrict | src/lib/chart.js:136-150 | with no more candles than plot columns, the next candle's column is strictly further right |
| Chart.ColsDistinct | src/lib/chart.js:136-150 | with no more candles than plot columns, different candles get different columns |
| Chart.RowEnds | src/lib/chart.js:137-157 | in exact arithmetic, `maxPrice` maps to row 0 and `minPrice` to row `chartHeight`, which the guards drop |
| Chart.RowAntitone | src/lib/chart.js:154-157 | a higher price never gets a lower row |
| Chart.RowRange | src/lib/chart.js:142-157 | every price in the window maps into rows `0 ..= chartHeight` |
| Chart.FormatAxisPrice | src/lib/chart.js:92-97 | definition of `formatAxisPrice`; properties in `Chart.AxisPriceForms` |
| Chart.AxisPriceForms | src/lib/chart.js:92-97 | thousands with one decimal and a `k` from 1000 up, four decimals below 1, two decimals in between |
| Chart.LabelPrice | src/lib/chart.js:186 | definition of the price printed on row `y`; properties in `Chart.LabelPriceRow` |
| Chart.LabelPriceRow | src/lib/chart.js:185-187 | the price printed on row `y` maps back to row `y`, and row 0 is labelled `maxPrice` |
| Chart.TrendShown | src/lib/chart.js:140-146 | a cell of the trend layer is a trend cell iff some trend point lands on it, and blank otherwise |
| Chart.OwnColumn | src/lib/chart.js:149-178 | with a column per candle, only candle `i` paints in its column |
| Chart.CandleColumn | src/lib/chart.js:160-177 | with no more candles than plot columns, in a candle's column the body (green iff `close >= open`) lies over the wick, which lies over the trend line |
| Chart.LastPainter | src/lib/chart.js:149-178 | the last of the first `k` candles that writes a cell: none iff no such candle writes it, and otherwise one that does with no later one that does |
| Chart.LastPainterWins | src/lib/chart.js:139-178 | for any number of candles, a cell shows the trend layer when no candle writes it, and otherwise the last candle that writes it, body over wick |
| Chart.SharedColumn | src/lib/chart.js:136-178 | with four candles on a 12 × 12 chart, candles 0 and 1 share column 10, and candle 1's wick covers candle 0's body on row 5 |
| Chart.PlotCells | src/lib/chart.js:139-178 | the plot passes leave only blanks, trend cells, wicks and body colours |
| Chart.PlotLayerBounds | src/lib/chart.js:139-178 | the plot passes write only plot rows right of the price axis |
| Chart.PlotRow | src/lib/chart.js:180-193 | a plot row holds the axis in column 9 and the plot from column 10. Left of the axis it holds blanks, or on a labelled row the label, which ends in column 7 |
| Chart.AxisRowTicks | src/lib/chart.js:196-211 | the time-axis row has a tick exactly under each drawn tick, the axis line elsewhere from column 10, the corner in column 9, and blanks to its left |
| Chart.TimeAxisRow | src/lib/chart.js:195-218 | the time-axis row of the finished grid is that row |
| Chart.FourTicks | src/lib/chart.js:205-207 | the first four tick positions fall on candles, so four rounds reach the column test |
| Chart.RenderedGrid | src/lib/chart.js:117-222 | the grid is `height × width`, each cell as `RenderedCell` specifies |
| Chart.DrawTrend | src/lib/chart.js:140-146 | the trend pass produces the trend layer on a blank grid |
| Chart.DrawCandle | src/lib/chart.js:150-177 | one candle's pass paints its body over its wick over the previous grid |
| Chart.DrawCandles | src/lib/chart.js:149-178 | the candle passes produce the candle layer over the trend |
| Chart.DrawPriceAxis | src/lib/chart.js:181-193 | the axis pass writes the axis column and the labels of the labelled rows, and nothing else |
| Chart.DrawTick | src/lib/chart.js:209-217 | one round writes a tick and its centred label, cut at the right edge and skipped left of column 0 |
| Chart.TickRound | src/lib/chart.js:206-218 | a drawn round advances the time-axis state by one round |
| Chart.TickSkipped | src/lib/chart.js:207-209 | a skipped round leaves the time-axis state as it was |
| Chart.TimeAxisCell | src/lib/chart.js:196-218 | each cell of the time-axis state is the axis row, the label row or the old cell |
| Chart.DrawTimeAxis | src/lib/chart.js:196-218 | the time-axis pass writes both axis rows as specified and nothing else |
| Chart.RenderPlot | src/lib/chart.js:139-218 | the passes in order produce exactly the specified grid |
| Chart.RenderCandles | src/lib/chart.js:117-222 | `renderCandles` returns exactly the specified grid for the window of the candles' highs and lows |
| Chart.CalculateTrendLine | src/lib/chart.js:72-85 | one value `slope·i + intercept` per candle, summing to the sum of the closes |
| Chart.Layout | src/lib/chart.js:38-59 | definition of the order of the chart's pieces; properties in `Chart.LayoutShape` and `Chart.LegendSide` |
| Chart.LayoutShape | src/lib/chart.js:38-59 | the chart starts and ends with a newline and holds exactly one grid, right after the title block. A title appears iff a pair is given, and the statistics appear iff the legend is not disabled |
| Chart.LegendSide | src/lib/chart.js:36-54 | the statistics under the chart say `'buy'` iff the fitted trend rises |
| Chart.RenderChart | src/lib/chart.js:27-65 | `undefined` iff the data is missing, not an array or empty. Otherwise it returns the layout around the rendered grid and the summary |
| LegacyChart.SmaWindow | utils/chart.js:47-48 | for a positive period the averaged slice has exactly `period` closes |
| LegacyChart.CalculateSMA | utils/chart.js:39-52 | one entry per candle, each the specified moving-average entry |
| LegacyChart.SmaEntry | utils/chart.js:42-49 | definition of one moving-average entry; properties in `LegacyChart.SmaDefined`, `LegacyChart.SmaIsMean` and `LegacyChart.SmaPeriodOne` |
| LegacyChart.SmaDefined | utils/chart.js:42-49 | an entry is `null` iff its index is below `period - 1`; a period of 0 or less averages an empty slice (NaN for 0) |
| LegacyChart.SmaIsMean | utils/chart.js:47-49 | a defined entry is the finite mean of the last `period` closes, between their extremes |
| LegacyChart.SmaPeriodOne | utils/chart.js:39-52 | a period of 1 reproduces the closes |
| LegacyChart.AccumulateSums | utils/chart.js:56-68 | the loop's four sums are `Σi`, `Σclose`, `Σi·close` and `Σi²` |
| LegacyChart.SlopeFromSums | utils/chart.js:71 | the slope over the running sums is the fitted slope, and its denominator is positive |
| LegacyChart.CalculateTrendLine | utils/chart.js:55-76 | the loop-based trend line equals the least-squares fit of the closes |
| LegacyChart.WidenToMinRange | utils/chart.js:141-148 | a set `minRange` wider than the window makes the span exactly `minRange` around the same middle; otherwise the window is unchanged; the result always contains the old window |
| LegacyChart.WidenedSpan | utils/chart.js:141-148 | with a positive `minRange` the span is at least `minRange` and at least the old span |
| LegacyChart.ExtremesHoldPrices | utils/chart.js:134-138 | every high, low and trend value lies between the extremes of the window prices |
| LegacyChart.PriceWindow | utils/chart.js:134-148 | definition of `minPrice` and `maxPrice`; properties in `LegacyChart.WindowHoldsPrices`, `LegacyChart.WidenToMinRange` and `LegacyChart.WidenedSpan` |
| LegacyChart.WindowHoldsPrices | utils/chart.js:134-148 | without overrides every high, low and trend value is inside the window. Without `minRange` the window is exactly their extremes |
| LegacyChart.CandleWidth | utils/chart.js:160 | at least 1, and `candleWidth · n ≤ width − 10` when there is room. The slots are `candleWidth + 1` wide, so they need not fit in the row (see `LegacyChart.CandleSkipped`) |
| LegacyChart.Spacing | utils/chart.js:161 | between 1 and the candle width |
| LegacyChart.BodyWidth | utils/chart.js:162 | at least 1, and the body columns `x + spacing .. x + spacing + bodyWidth - 1` stay inside the slot |
| LegacyChart.Left | utils/chart.js:175 | a slot's left edge is never negative |
| LegacyChart.Centre | utils/chart.js:166 | the wick and trend column lies inside the slot |
| LegacyChart.Row | utils/chart.js:151-154 | definition of `priceToRow`; properties in `LegacyChart.RowEnds`, `LegacyChart.RowAntitone` and `LegacyChart.RowRange` |
| LegacyChart.RowEnds | utils/chart.js:151-154 | `maxPrice` maps to row 0 and `minPrice` to row `chartHeight - 1` |
| LegacyChart.RowAntitone | utils/chart.js:151-154 | in a rising window a higher price never gets a larger row |
| LegacyChart.RowRange | utils/chart.js:151-154 | every price in a rising window maps onto a grid row |
| LegacyChart.SlotsApart | utils/chart.js:166-175 | the slots of different candles are disjoint |
| LegacyChart.CandleSkipped | utils/chart.js:174-176 | a candle whose slot starts at or past column `width` changes no cell, and every newer candle is skipped too |
| LegacyChart.NewestDropped | utils/chart.js:160-176 | at the default width of 120, 55 candles are 2 columns wide: candle 39 is the last one drawn and candles 40 to 54 change no cell |
| LegacyChart.LegacyGrid | utils/chart.js:157-205 | the grid is `chartHeight × width`, each cell the layer after the trend and every candle, with the corrected wick guard |
| LegacyChart.WritesInside | utils/chart.js:165-205 | every trend, wick and body write lands in rows `[0, chartHeight)` and columns `[0, width)`, with the corrected wick guard |
| LegacyChart.PaintsInSlot | utils/chart.js:174-205 | a candle writes only inside its own slot |
| LegacyChart.SlotLayer | utils/chart.js:164-205 | inside candle `i`'s slot the grid shows candle `i` over the trend, whatever the other candles do |
| LegacyChart.CandleCell | utils/chart.js:184-204 | a body cell ends as the body colour (green iff `close > open`), and a wick cell outside the body ends as the wick, with the corrected wick guard |
| LegacyChart.TrendShown | utils/chart.js:165-171 | before the candles are drawn, a cell is a trend cell iff some trend point lands on it |
| LegacyChart.TrendSurvives | utils/chart.js:164-205 | after the first `k` candles, a cell is a trend cell iff a trend point lands on it and none of those candles has a body or wick cell there |
| LegacyChart.FlatCandleIsRed | utils/chart.js:191-192 | a candle with `close == open` is drawn bearish |
| LegacyChart.BodyOrdered | utils/chart.js:191-195 | the body runs from the smaller to the larger of the open and close rows |
| LegacyChart.WickOverrun | utils/chart.js:184-188 | on 12 equal candles with `width: 34, height: 30`, the window `renderChart` itself computes is 0.5 to 2 and the source's guard admits a wick write in column `width` |
| LegacyChart.WickGuardCorrected | utils/chart.js:184-188 | the corrected guard implies the source's guard, the two differ only where the wick column is at or past `width`, and every corrected wick write is inside the row |
| LegacyChart.DrawTrend | utils/chart.js:165-171 | the trend pass produces the trend layer on a blank grid |
| LegacyChart.DrawWick | utils/chart.js:184-188 | the wick loop writes exactly the wick cells and keeps every other cell, with the corrected wick guard |
| LegacyChart.DrawBodyRow | utils/chart.js:196-202 | one body row is written at the body columns inside the grid, every other cell kept |
| LegacyChart.DrawBody | utils/chart.js:190-204 | the body loop writes exactly the body cells in the body colour |
| LegacyChart.DrawCandle | utils/chart.js:174-205 | a candle paints body over wick over the previous grid; a slot starting past the row draws nothing, with the corrected wick guard |
| LegacyChart.DrawCandles | utils/chart.js:173-205 | the candle passes produce the full layer over the trend, with the corrected wick guard |
| LegacyChart.DrawGrid | utils/chart.js:157-205 | blank grid, trend, then candles gives exactly the specified grid, with the corrected wick guard |
| LegacyChart.Abs | utils/chart.js:243 | `Math.abs` keeps finiteness, is non-negative on finite values, and keeps NaN |
| LegacyChart.TrendDirection | utils/chart.js:240-242 | `'Upward'` iff the trend ends above where it started |
| LegacyChart.CalculateStats | utils/chart.js:226-246 | `current` and `volume` come from the last candle. `min` and `max` are attained extremes, `avg` lies between the extreme closes, and the direction is upward iff the trend rises |
| LegacyChart.PctFromAvgSign | utils/chart.js:235-236 | for a positive average the percentage from it is finite, and positive iff the last close is above the average |
| LegacyChart.DirectionOfFit | utils/chart.js:239-242 | on the fitted trend line the direction is upward iff the slope is positive |
| LegacyChart.TrendStrength | utils/chart.js:243 | definition of `trendStrength`; properties in `LegacyChart.StrengthOfTrend` |
| LegacyChart.StrengthOfTrend | utils/chart.js:243 | the strength is finite iff the trend starts away from 0, and is then the unsigned percentage move |
| LegacyChart.RowPrice | utils/chart.js:210 | definition of the price printed left of row `i`; properties in `LegacyChart.RowPriceRoundTrip` |
| LegacyChart.RowPriceRoundTrip | utils/chart.js:209-211 | the top row is labelled `maxPrice` and the bottom row `minPrice`, and each row's label maps back to that row |
| LegacyChart.TimeRule | utils/chart.js:215 | the time rule is a newline, 8 spaces, `┴`, `width − 1` dashes and a newline |
| LegacyChart.RenderChart | utils/chart.js:125-224 | one labelled row per grid row from top to bottom, then the time rule, then a newline and the statistics unless the legend is disabled |
| LegacyChart.Capped | utils/chart.js:87 | `Math.min(value, 2000)` is at most both and equal to one of them |
| LegacyChart.FetchRequest | utils/chart.js:85-97 | definition of the endpoint and limit choice; properties in `LegacyChart.RequestPriority` and `LegacyChart.LimitCap` |
| LegacyChart.RequestPriority | utils/chart.js:85-97 | minutes win over hours, which win over days. The limit is at most 2000, and an empty timeframe gives 24 hourly candles |
| LegacyChart.LimitCap | utils/chart.js:85-87 | a positive value up to 2000 is the limit; a larger one is cut to 2000 |

## Left out

- Network and process I/O are not part of this model:
  - the axios calls and the 429 retry with its 30-second wait;
  - `process.exit` and console output;
  - `listCoins`/`getTopCoins` in utils/chart.js, src/lib/coins.js and the rest of src/api/api.js.
  
  None of these has logic beyond reshaping responses.
- Terminal colours: the chalk strings become `Cell` tags, and the escape bytes are not modelled.
- Number and time formatting:
  - the digits `toFixed`, `padStart` and `toLocaleTimeString` produce are parameters of the model, or are kept as numbers;
  - only the choice of format is modelled.
- `renderStats` in both revisions is left out: the cli-table3 layout and the template text. The statistics it is given are modelled.
- The title padding of src/lib/chart.js:42-43 is left out, because it measures an ANSI-coloured string. A title is a `Title` piece.
- The final `join` of rows and pieces into one string is left out. Charts are sequences of rows and pieces.
- index.js, utils/cli.js, src/init.js and the tests are not part of this model.
- JavaScript floating point is not modelled: prices are exact reals, and integer quantities are unbounded.
- `LegacyChart.RenderChart` preconditions:
  - It requires two candles, because one candle gives `0 / 0` in the trend line and zero candles make `calculateStats` fail.
  - It requires `height ≥ 4` and `width ≥ 1`, because smaller sizes make `Array` or `repeat` throw.
  - It requires a window with `maxPrice ≠ minPrice`. With a flat window every row is NaN or infinite: the grid stays blank, or, with overrides, the wick loop never ends.
- `LegacyChart.RenderChart` draws wicks with the corrected guard (see "## Findings"). It does not grow a row past `width` as the source can.
- `LegacyChart.WritesInside` is stated for the corrected wick guard (`LegacyChart.WickFits`), not the source's, so it says nothing about the wick write past column `width` that `LegacyChart.WickOverrun` exhibits.
- `LegacyChart.DrawWick` is stated for the corrected wick guard (`LegacyChart.WickFits`), not the source's, so it says nothing about the wick write past column `width` that `LegacyChart.WickOverrun` exhibits.
- `LegacyChart.LegacyGrid` is stated for the corrected wick guard (`LegacyChart.WickFits`), not the source's, so it says nothing about the wick write past column `width` that `LegacyChart.WickOverrun` exhibits.
- `LegacyChart.CandleCell` is stated for the corrected wick guard (`LegacyChart.WickFits`), not the source's, so it says nothing about the wick write past column `width` that `LegacyChart.WickOverrun` exhibits.
- `LegacyChart.DrawCandle` is stated for the corrected wick guard (`LegacyChart.WickFits`), not the source's, so it says nothing about the wick write past column `width` that `LegacyChart.WickOverrun` exhibits.
- `LegacyChart.DrawCandles` is stated for the corrected wick guard (`LegacyChart.WickFits`), not the source's, so it says nothing about the wick write past column `width` that `LegacyChart.WickOverrun` exhibits.
- `LegacyChart.DrawGrid` is stated for the corrected wick guard (`LegacyChart.WickFits`), not the source's, so it says nothing about the wick write past column `width` that `LegacyChart.WickOverrun` exhibits.
- `LegacyChart.CalculateStats` keeps `trendStrength` as a number. The source turns it into a string with `toFixed(2)`.
- `Chart.RenderCandles` preconditions:
  - It requires four candles, because with fewer the tick step `floor(n/4)` is 0 and the label loop never ends.
  - It requires `width ≥ 10`, because a smaller width writes the axis column and the corner outside the rows.
  - It requires `height ≥ 2`, because a smaller height makes the time-axis row index `height - 2` negative: `grid[timeAxisY]` is undefined, the corner write of src/lib/chart.js:202 throws a TypeError, and the `catch` of `renderChart` then returns `undefined`.
  - It requires a non-flat window, where the source divides by a zero range; there all rows are NaN and only the axes are drawn.
- `Chart.RenderChart` requires the same as `Chart.RenderCandles` for a non-empty series. It does not model the `try`/`catch` that turns those failures into `undefined`.
- A label character left of column 0 is a write to a negative index, which `join` ignores. The model skips it.
- `Candles.OrDefault` reads only integer sizes; `NaN` or non-numeric options are not modelled.

## Findings

| source | as written | input that shows it | evidently intended | confidence | as-written member | corrected member |
|---|---|---|---|---|---|---|
| utils/chart.js:185-186 | the wick guard tests the slot's left edge `x < width` but writes column `x + floor(candleWidth / 2)` | 12 equal candles (open 1, high 2, low 0.5, close 1.5), width 34, height 30: each candle is 2 wide, candle 11 starts in column 33 and its wick lands in column 34. That appends a 35th cell to each row the wick crosses | test the written column, so every row keeps `width` cells | not executed | LegacyChart.WickOverrun | LegacyChart.WickGuardCorrected |
