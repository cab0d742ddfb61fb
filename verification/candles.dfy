/** The data model shared by both revisions of the renderer: candles, the
    display cells of the character grid, and the numeric helpers (sums,
    extrema, means, JavaScript rounding) the renderers are built from. */
module Candles {

  datatype Option<T> = None | Some(value: T)

  /** `value || fallback` on an optional size: an absent or zero value
      falls back. */
  function OrDefault(value: Option<int>, fallback: int): (r: int)
    ensures value.Some? && value.value != 0 ==> r == value.value
    ensures value.None? || value == Some(0) ==> r == fallback
  {
    if value.Some? && value.value != 0 then value.value else fallback
  }

  /** One OHLCV sample as the price API delivers it (`volumeto` is the
      quote volume). */
  datatype Candle = Candle(time: int, open: real, high: real, low: real, close: real,
                           volumeFrom: real, volumeTo: real)

  /** One display cell. The terminal colour strings of the source are
      replaced by tags; `Ch` is a plain label character. */
  datatype Cell = Blank | Trend | Wick | Bull | Bear | AxisY | AxisX | Corner | Tick | Ch(c: char)

  /** A character grid, row by row. */
  type Grid = seq<seq<Cell>>

  predicate IsGrid(g: Grid, rows: int, cols: int)
  {
    |g| == rows && forall r :: 0 <= r < |g| ==> |g[r]| == cols
  }

  /** `Array(rows).fill().map(() => Array(cols).fill(' '))` */
  function BlankGrid(rows: nat, cols: nat): (g: Grid)
    ensures IsGrid(g, rows, cols)
    ensures forall r, c :: 0 <= r < rows && 0 <= c < cols ==> g[r][c] == Blank
  {
    seq(rows, _ => seq(cols, _ => Blank))
  }

  /** `grid[r][c] = v`: one cell changes, every other cell and the shape stay. */
  function Put(g: Grid, r: int, c: int, v: Cell): (h: Grid)
    requires 0 <= r < |g| && 0 <= c < |g[r]|
    ensures |h| == |g|
    ensures forall k :: 0 <= k < |g| ==> |h[k]| == |g[k]|
    ensures forall k, j :: 0 <= k < |g| && 0 <= j < |g[k]| ==>
              h[k][j] == (if k == r && j == c then v else g[k][j])
  {
    g[r := g[r][c := v]]
  }

  /** Two grids of the same shape with the same cells are equal. */
  lemma SameGrid(a: Grid, b: Grid, rows: int, cols: int)
    requires IsGrid(a, rows, cols) && IsGrid(b, rows, cols)
    requires forall r, c :: 0 <= r < rows && 0 <= c < cols ==> a[r][c] == b[r][c]
    ensures a == b
  {
    forall r | 0 <= r < rows
      ensures a[r] == b[r]
    {
      assert forall c :: 0 <= c < cols ==> a[r][c] == b[r][c];
    }
  }

  /** Left-to-right sum, as `reduce((a, b) => a + b, 0)` computes it. */
  function Sum(s: seq<real>): real
  {
    if |s| == 0 then 0.0 else Sum(s[..|s| - 1]) + s[|s| - 1]
  }

  /** `Math.min(...s)` on a non-empty list. */
  function MinOf(s: seq<real>): (m: real)
    requires |s| > 0
    ensures forall i :: 0 <= i < |s| ==> m <= s[i]
    ensures exists i :: 0 <= i < |s| && m == s[i]
  {
    if |s| == 1 then s[0]
    else
      var rest := MinOf(s[..|s| - 1]);
      assert forall i :: 0 <= i < |s| - 1 ==> s[..|s| - 1][i] == s[i];
      if s[|s| - 1] < rest then s[|s| - 1] else rest
  }

  /** `Math.max(...s)` on a non-empty list. */
  function MaxOf(s: seq<real>): (m: real)
    requires |s| > 0
    ensures forall i :: 0 <= i < |s| ==> s[i] <= m
    ensures exists i :: 0 <= i < |s| && m == s[i]
  {
    if |s| == 1 then s[0]
    else
      var rest := MaxOf(s[..|s| - 1]);
      assert forall i :: 0 <= i < |s| - 1 ==> s[..|s| - 1][i] == s[i];
      if s[|s| - 1] > rest then s[|s| - 1] else rest
  }

  /** The arithmetic mean `sum / length`. */
  function Mean(s: seq<real>): real
    requires |s| > 0
  {
    Sum(s) / |s| as real
  }

  /** A sum of values that are all at least `lo` (at most `hi`) is at least
      `|s|·lo` (at most `|s|·hi`). */
  lemma {:induction false} SumBounds(s: seq<real>, lo: real, hi: real)
    requires forall i :: 0 <= i < |s| ==> lo <= s[i] <= hi
    ensures |s| as real * lo <= Sum(s) <= |s| as real * hi
  {
    if |s| > 0 {
      var p := s[..|s| - 1];
      assert forall i :: 0 <= i < |p| ==> p[i] == s[i];
      SumBounds(p, lo, hi);
      assert |s| as real * lo == |p| as real * lo + lo;
      assert |s| as real * hi == |p| as real * hi + hi;
    }
  }

  /** The mean lies between the smallest and the largest value. */
  lemma MeanWithin(s: seq<real>)
    requires |s| > 0
    ensures MinOf(s) <= Mean(s) <= MaxOf(s)
  {
    var lo, hi := MinOf(s), MaxOf(s);
    SumBounds(s, lo, hi);
    MeanFromSumBounds(s, lo, hi);
  }

  lemma MeanFromSumBounds(s: seq<real>, lo: real, hi: real)
    requires |s| > 0
    requires |s| as real * lo <= Sum(s) <= |s| as real * hi
    ensures lo <= Mean(s) <= hi
  {
    var x, n := Sum(s), |s| as real;
    assert (x / n) * n == x;
  }

  /** JavaScript's `Math.round`: the nearest integer, halves rounded up. */
  function Round(x: real): (r: int)
    ensures x - 0.5 < r as real <= x + 0.5
  {
    (x + 0.5).Floor
  }

  /** A JavaScript number as the statistics can produce it: a finite value,
      or the non-finite result of dividing by zero. */
  datatype Num = Finite(value: real) | PosInfinity | NegInfinity | NaN

  /** JavaScript `num / den`: a zero divisor gives an infinity of the
      numerator's sign, or NaN for `0 / 0`. */
  function Divide(num: real, den: real): (r: Num)
    ensures r.Finite? <==> den != 0.0
    ensures r.Finite? ==> r.value * den == num
    ensures r == PosInfinity <==> den == 0.0 && num > 0.0
    ensures r == NegInfinity <==> den == 0.0 && num < 0.0
    ensures r == NaN <==> den == 0.0 && num == 0.0
  {
    if den != 0.0 then Finite(num / den)
    else if num > 0.0 then PosInfinity
    else if num < 0.0 then NegInfinity
    else NaN
  }

  /** JavaScript `x * k` for a positive constant `k`. */
  function Times(x: Num, k: real): (r: Num)
    requires k > 0.0
    ensures r.Finite? <==> x.Finite?
    ensures r.Finite? ==> r.value == x.value * k
    ensures !x.Finite? ==> r == x
  {
    if x.Finite? then Finite(x.value * k) else x
  }

  /** JavaScript `x >= 0`: false for NaN and for negative infinity. */
  predicate AtLeastZero(x: Num)
  {
    (x.Finite? && x.value >= 0.0) || x == PosInfinity
  }

  /** `data.map(candle => candle.close)` */
  function Closes(data: seq<Candle>): (r: seq<real>)
    ensures |r| == |data|
    ensures forall i :: 0 <= i < |data| ==> r[i] == data[i].close
  {
    seq(|data|, i requires 0 <= i < |data| => data[i].close)
  }

  /** `data.map(candle => candle.high)` */
  function Highs(data: seq<Candle>): (r: seq<real>)
    ensures |r| == |data|
    ensures forall i :: 0 <= i < |data| ==> r[i] == data[i].high
  {
    seq(|data|, i requires 0 <= i < |data| => data[i].high)
  }

  /** `data.map(candle => candle.low)` */
  function Lows(data: seq<Candle>): (r: seq<real>)
    ensures |r| == |data|
    ensures forall i :: 0 <= i < |data| ==> r[i] == data[i].low
  {
    seq(|data|, i requires 0 <= i < |data| => data[i].low)
  }

  /** `data.flatMap(candle => [candle.high, candle.low])` */
  function HighsAndLows(data: seq<Candle>): (r: seq<real>)
    ensures |r| == 2 * |data|
    ensures forall i :: 0 <= i < |data| ==> r[2 * i] == data[i].high && r[2 * i + 1] == data[i].low
    ensures forall k :: 0 <= k < |r| ==> r[k] == data[k / 2].high || r[k] == data[k / 2].low
  {
    seq(2 * |data|, k requires 0 <= k < 2 * |data| => if k % 2 == 0 then data[k / 2].high else data[k / 2].low)
  }

  /** Every high and low lies between `lo` and `hi` when every candle does. */
  lemma PricesInSpan(data: seq<Candle>, lo: real, hi: real)
    requires forall j :: 0 <= j < |data| ==> lo <= data[j].low && data[j].low <= data[j].high && data[j].high <= hi
    ensures forall k :: 0 <= k < |HighsAndLows(data)| ==> lo <= HighsAndLows(data)[k] <= hi
  {
    var prices := HighsAndLows(data);
    forall k | 0 <= k < |prices|
      ensures lo <= prices[k] <= hi
    {
      var j := k / 2;
      assert prices[k] == data[j].high || prices[k] == data[j].low;
    }
  }

  /** When every candle lies inside the span of candle `i`, the extremes of
      the highs and lows are that candle's low and high. */
  lemma SpannedExtremes(data: seq<Candle>, i: nat)
    requires i < |data|
    requires forall j :: 0 <= j < |data| ==>
               data[i].low <= data[j].low && data[j].low <= data[j].high && data[j].high <= data[i].high
    ensures MinOf(HighsAndLows(data)) == data[i].low && MaxOf(HighsAndLows(data)) == data[i].high
  {
    var lo, hi := data[i].low, data[i].high;
    PricesInSpan(data, lo, hi);
    var prices := HighsAndLows(data);
    assert prices[2 * i] == hi && prices[2 * i + 1] == lo;
    var m, n := MinOf(prices), MaxOf(prices);
    var k :| 0 <= k < |prices| && m == prices[k];
    var l :| 0 <= l < |prices| && n == prices[l];
    assert lo <= prices[k] && prices[l] <= hi;
  }

  /** Multiplying by a non-negative integer keeps the order. */
  lemma MulMonotone(n: int, x: int, y: int)
    requires n >= 0 && x <= y
    ensures n * x <= n * y
  {
  }
}
