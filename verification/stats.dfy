/** The statistics of the newer revision (src/lib/stats.js): the summary
    `calculateStats` derives from a candle series and its trend line, and the
    sign rule of `formatChange`. The `cli-table3` layout of `renderStats` and
    the digits of `toFixed` are not part of this model. */
module Stats {
  import opened Candles
  import Regression

  /** The trade side shown as `'buy'` or `'sell'`. */
  datatype Side = Buy | Sell

  /** The two `chalk` colours `formatChange` picks between. */
  datatype Colour = Green | Red

  /** The heuristic `trades` record. `size`, `bought` and `sold` are the
      values before `toFixed` turns them into strings. */
  datatype Trades = Trades(last: real, side: Side, size: real, bought: real, sold: real,
                           buys: int, sells: int)

  /** The object `calculateStats` returns. */
  datatype Summary = Summary(pair: Option<string>, current: real, min: real, max: real, avg: real,
                             volume: real, changes: map<string, Num>, trades: Trades)

  /** A formatted change: the sign prefix, the number and its colour. */
  datatype ChangeLabel = ChangeLabel(sign: string, change: Num, colour: Colour)

  /** The lookback windows: key and number of candles. */
  const Windows: seq<(string, nat)> := [("5m", 5), ("30m", 30), ("1h", 60), ("12h", 720), ("1d", 1440)]

  /** `getChange(periods)`: 0 when the series is shorter than the window,
      otherwise the percentage move from the close `periods` candles back
      (counting the latest) to the latest close. */
  function GetChange(data: seq<Candle>, periods: nat): Num
    requires |data| >= 1 && periods >= 1
  {
    if |data| < periods then Finite(0.0)
    else
      var base := data[|data| - periods].close;
      Times(Divide(data[|data| - 1].close - base, base), 100.0)
  }

  /** `changes`: one entry per lookback window. */
  function Changes(data: seq<Candle>): map<string, Num>
    requires |data| >= 1
  {
    map["5m" := GetChange(data, 5), "30m" := GetChange(data, 30), "1h" := GetChange(data, 60),
        "12h" := GetChange(data, 720), "1d" := GetChange(data, 1440)]
  }

  /** `trendEnd > trendStart ? 'buy' : 'sell'`; on an empty trend line both
      ends are `undefined` and the comparison is false. */
  function Direction(trend: seq<real>): Side
  {
    if |trend| > 0 && trend[|trend| - 1] > trend[0] then Buy else Sell
  }

  /** The `trades` record built from the latest volume. */
  function MakeTrades(current: real, side: Side, volume: real): Trades
  {
    Trades(current, side, volume * 0.01, volume * 0.1, volume * 0.05,
           (volume * 0.001).Floor, (volume * 0.0005).Floor)
  }

  /** `calculateStats(data, trendLine, pair)` */
  function CalculateStats(data: seq<Candle>, trend: seq<real>, pair: Option<string>): (s: Summary)
    requires |data| >= 1
    ensures s.pair == pair
    ensures s.current == data[|data| - 1].close && s.volume == data[|data| - 1].volumeTo
    ensures forall i :: 0 <= i < |data| ==> s.min <= data[i].low
    ensures exists i :: 0 <= i < |data| && s.min == data[i].low
    ensures forall i :: 0 <= i < |data| ==> data[i].high <= s.max
    ensures exists i :: 0 <= i < |data| && s.max == data[i].high
    ensures MinOf(Closes(data)) <= s.avg <= MaxOf(Closes(data))
    ensures s.changes.Keys == {"5m", "30m", "1h", "12h", "1d"}
    ensures s.trades.last == s.current
    ensures s.trades.side == Buy <==> |trend| > 0 && trend[|trend| - 1] > trend[0]
  {
    var latest := data[|data| - 1];
    var lows, highs := Lows(data), Highs(data);
    MeanWithin(Closes(data));
    Summary(pair, latest.close, MinOf(lows), MaxOf(highs), Mean(Closes(data)), latest.volumeTo,
            Changes(data), MakeTrades(latest.close, Direction(trend), latest.volumeTo))
  }

  /** `formatChange(change)`: a `+` and green exactly when `change >= 0`,
      no sign and red otherwise (NaN included). */
  function FormatChange(change: Num): ChangeLabel
  {
    var up := AtLeastZero(change);
    ChangeLabel(if up then "+" else "", change, if up then Green else Red)
  }

  /** Every window of `changes` holds `getChange` of its length. */
  lemma ChangesWindows(data: seq<Candle>)
    requires |data| >= 1
    ensures Changes(data).Keys == set w | w in Windows :: w.0
    ensures forall w :: w in Windows ==> Changes(data)[w.0] == GetChange(data, w.1)
  {
    var ks := set w | w in Windows :: w.0;
    assert Windows[0].0 in ks && Windows[1].0 in ks && Windows[2].0 in ks;
    assert Windows[3].0 in ks && Windows[4].0 in ks;
    assert ks == {"5m", "30m", "1h", "12h", "1d"};
  }

  /** A window longer than the series reports no change at all. */
  lemma ShortSeriesNoChange(data: seq<Candle>, periods: nat)
    requires 1 <= |data| < periods
    ensures GetChange(data, periods) == Finite(0.0)
  {
  }

  /** A window as long as the series measures from the first close. */
  lemma WholeSeriesChange(data: seq<Candle>)
    requires |data| >= 1
    ensures GetChange(data, |data|) ==
            Times(Divide(data[|data| - 1].close - data[0].close, data[0].close), 100.0)
  {
  }

  /** With a positive base price, the change is finite, and it is `>= 0`
      (a `+` in green) exactly when the latest close did not fall below the
      base; it is zero when the price is unchanged. */
  lemma ChangeSign(data: seq<Candle>, periods: nat)
    requires 1 <= periods <= |data| && data[|data| - periods].close > 0.0
    ensures GetChange(data, periods).Finite?
    ensures AtLeastZero(GetChange(data, periods)) <==> data[|data| - 1].close >= data[|data| - periods].close
    ensures FormatChange(GetChange(data, periods)).colour == Green <==>
            data[|data| - 1].close >= data[|data| - periods].close
    ensures data[|data| - 1].close == data[|data| - periods].close ==> GetChange(data, periods) == Finite(0.0)
  {
    var base, cur := data[|data| - periods].close, data[|data| - 1].close;
    QuotientSign(cur - base, base);
  }

  lemma QuotientSign(x: real, d: real)
    requires d > 0.0
    ensures x / d >= 0.0 <==> x >= 0.0
    ensures x == 0.0 ==> x / d == 0.0
  {
    if x / d >= 0.0 {
      assert x == (x / d) * d;
    }
  }

  /** A zero base price gives a non-finite change: +∞ when the price rose
      from zero, NaN when it stayed there (so no `+` and red). */
  lemma ZeroBaseChange(data: seq<Candle>, periods: nat)
    requires 1 <= periods <= |data| && data[|data| - periods].close == 0.0
    ensures data[|data| - 1].close > 0.0 ==> GetChange(data, periods) == PosInfinity
    ensures data[|data| - 1].close == 0.0 ==> GetChange(data, periods) == NaN
    ensures data[|data| - 1].close == 0.0 ==> FormatChange(GetChange(data, periods)).colour == Red
  {
  }

  /** For a non-negative volume the heuristic counts satisfy
      `buys >= sells >= 0`. */
  lemma TradeCounts(current: real, side: Side, volume: real)
    requires volume >= 0.0
    ensures MakeTrades(current, side, volume).buys >= MakeTrades(current, side, volume).sells >= 0
  {
    var t := MakeTrades(current, side, volume);
    FloorMonotone(volume * 0.0005, volume * 0.001);
    FloorMonotone(0.0, volume * 0.0005);
  }

  lemma FloorMonotone(x: real, y: real)
    requires x <= y
    ensures x.Floor <= y.Floor
  {
    assert x.Floor as real <= x;
  }

  /** On a fitted trend line the side is `'buy'` exactly when the fitted
      slope is positive. */
  lemma DirectionOfFit(ys: seq<real>)
    requires |ys| >= 2
    ensures Direction(Regression.Fit(ys)) == Buy <==> Regression.Slope(ys) > 0.0
  {
    Regression.FitEnds(ys);
    var n, m := |ys| as real, Regression.Slope(ys);
    ProductSign(n - 1.0, m);
  }

  lemma ProductSign(k: real, m: real)
    requires k > 0.0
    ensures k * m > 0.0 <==> m > 0.0
  {
  }

  /** Closes rising along a straight line give `'buy'`; falling or flat
      ones give `'sell'`. */
  lemma LineDirection(a: real, b: real, n: nat)
    requires n >= 2
    ensures Direction(Regression.Fit(Regression.Line(a, b, n))) == Buy <==> a > 0.0
  {
    Regression.FitOfLine(a, b, n);
    DirectionOfFit(Regression.Line(a, b, n));
  }
}
