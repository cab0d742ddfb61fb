/** The head of `fetchCandleData` in src/api/api.js: how a timeframe of days,
    hours and minutes becomes the history endpoint and the number of candles
    requested from it. The HTTP call itself is not part of this model. */
module Api {

  /** `{ days, hours, mins }`; a field the caller leaves out (or sets to 0)
      reads as 0 through `|| 0`. */
  datatype Timeframe = Timeframe(days: int, hours: int, mins: int)

  /** The endpoint path and the `limit` query parameter. */
  datatype Request = Request(endpoint: string, limit: int)

  const MinutesPerHour := 60
  const MinutesPerDay := 24 * 60
  const MinutesPerWeek := 24 * 60 * 7

  /** `days·24·60 + hours·60 + mins` */
  function TotalMinutes(t: Timeframe): int
  {
    t.days * MinutesPerDay + t.hours * MinutesPerHour + t.mins
  }

  /** `totalMinutes || 24 * 60`: a zero total falls back to one day, so the
      window is never empty of minutes. */
  function Minutes(t: Timeframe): (m: int)
    ensures m != 0
    ensures TotalMinutes(t) != 0 ==> m == TotalMinutes(t)
    ensures TotalMinutes(t) == 0 ==> m == MinutesPerDay
  {
    var total := TotalMinutes(t);
    if total != 0 then total else MinutesPerDay
  }

  /** `Math.ceil(m / unit)` for a positive `m`. */
  function CeilDiv(m: int, unit: int): (q: int)
    requires m > 0 && unit > 0
    ensures (q - 1) * unit < m <= q * unit
  {
    (m + unit - 1) / unit
  }

  /** The endpoint and limit after the two reassignments of lines 27-37:
      start at minute candles, switch to hourly from one day on, and to daily
      from one week on (the later test overrides the earlier). */
  function FetchRequest(t: Timeframe): Request
  {
    var m := Minutes(t);
    var byMinute := Request("/histominute", m);
    var byHour := if m >= MinutesPerDay then Request("/histohour", CeilDiv(m, MinutesPerHour)) else byMinute;
    if m >= MinutesPerWeek then Request("/histoday", CeilDiv(m, MinutesPerDay)) else byHour
  }

  /** The minutes one candle of the endpoint spans. */
  function Unit(endpoint: string): int
  {
    if endpoint == "/histoday" then MinutesPerDay
    else if endpoint == "/histohour" then MinutesPerHour
    else 1
  }

  /** Each endpoint is chosen exactly on its range of minutes. */
  lemma EndpointChoice(t: Timeframe)
    ensures FetchRequest(t).endpoint == "/histominute" <==> Minutes(t) < MinutesPerDay
    ensures FetchRequest(t).endpoint == "/histohour" <==> MinutesPerDay <= Minutes(t) < MinutesPerWeek
    ensures FetchRequest(t).endpoint == "/histoday" <==> MinutesPerWeek <= Minutes(t)
  {
    assert "/histominute" != "/histohour" by { assert "/histominute"[6] != "/histohour"[6]; }
    assert "/histominute" != "/histoday" by { assert "/histominute"[6] != "/histoday"[6]; }
    assert "/histohour" != "/histoday" by { assert "/histohour"[6] != "/histoday"[6]; }
  }

  /** Below one day the limit is the minute count itself. */
  lemma MinuteLimit(t: Timeframe)
    requires Minutes(t) < MinutesPerDay
    ensures FetchRequest(t) == Request("/histominute", Minutes(t))
  {
  }

  /** For a positive window the request covers it: at least one candle, and
      the candles span at least the asked minutes but less than one candle
      more. */
  lemma LimitCoversWindow(t: Timeframe)
    requires Minutes(t) > 0
    ensures FetchRequest(t).limit >= 1
    ensures FetchRequest(t).limit * Unit(FetchRequest(t).endpoint) >= Minutes(t)
    ensures (FetchRequest(t).limit - 1) * Unit(FetchRequest(t).endpoint) < Minutes(t)
  {
    EndpointChoice(t);
    var m, r := Minutes(t), FetchRequest(t);
    if m >= MinutesPerWeek {
      assert r.limit == CeilDiv(m, MinutesPerDay);
    } else if m >= MinutesPerDay {
      assert r.limit == CeilDiv(m, MinutesPerHour);
    }
  }

  /** No timeframe at all asks for one day of hourly candles. */
  lemma EmptyTimeframe()
    ensures FetchRequest(Timeframe(0, 0, 0)) == Request("/histohour", 24)
  {
    assert Minutes(Timeframe(0, 0, 0)) == 1440;
    assert CeilDiv(1440, 60) == 24;
  }

  /** Sixty minutes ask for sixty minute candles. */
  lemma SixtyMinutes()
    ensures FetchRequest(Timeframe(0, 0, 60)) == Request("/histominute", 60)
  {
  }

  /** Two weeks ask for fourteen daily candles, not 336 hourly ones. */
  lemma TwoWeeks()
    ensures FetchRequest(Timeframe(14, 0, 0)) == Request("/histoday", 14)
  {
    assert Minutes(Timeframe(14, 0, 0)) == 20160;
    assert CeilDiv(20160, 1440) == 14;
  }
}
