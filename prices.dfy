/**
 * The tracker's two price lookups: get_current_price (the ticker's success
 * check) and get_historical_price (resolve the target instant, ask for
 * one-minute candles in a window around it, pick the nearest, and fall back
 * to a daily query). Replies are inputs: `fetch` stands for the exchange,
 * answering a candle query with the decoded reply, or None when the request
 * failed.
 */
module Prices {
  import opened Wrappers
  import opened Requests
  import opened Candles
  import opened TimeResolution

  const MinuteResolution: string := "1"
  const DailyResolution: string := "1D"
  /** Half-width of the minute-candle window: five minutes. */
  const MinuteWindowMs: int := 300_000

  const TickerUrl: string := BaseUrl + "/v2/tickers/" + Symbol

  /** The primary query: one-minute candles from five minutes before to five minutes after. */
  function MinuteQuery(ts: int): seq<Param> {
    CandleQuery(Symbol, MinuteResolution, Some(ts - MinuteWindowMs), Some(ts + MinuteWindowMs))
  }

  /** The fallback query: daily candles from one day before to one day after. */
  function DailyQuery(ts: int): seq<Param> {
    CandleQuery(Symbol, DailyResolution, Some(ts - DayMs), Some(ts + DayMs))
  }

  /**
   * Both windows are symmetric around the target instant; a bound that
   * happens to be zero is falsy and is left out of the query.
   */
  lemma QueryWindows(ts: int)
    ensures Lookup(MinuteQuery(ts), "resolution") == Some(Str(MinuteResolution))
    ensures Lookup(MinuteQuery(ts), "start") == (if ts != MinuteWindowMs then Some(Int(ts - MinuteWindowMs)) else None)
    ensures Lookup(MinuteQuery(ts), "end") == (if ts != -MinuteWindowMs then Some(Int(ts + MinuteWindowMs)) else None)
    ensures Lookup(DailyQuery(ts), "resolution") == Some(Str(DailyResolution))
    ensures Lookup(DailyQuery(ts), "start") == (if ts != DayMs then Some(Int(ts - DayMs)) else None)
    ensures Lookup(DailyQuery(ts), "end") == (if ts != -DayMs then Some(Int(ts + DayMs)) else None)
  {
    CandleQueryLookup(Symbol, MinuteResolution, Some(ts - MinuteWindowMs), Some(ts + MinuteWindowMs));
    CandleQueryLookup(Symbol, DailyResolution, Some(ts - DayMs), Some(ts + DayMs));
  }

  method HistoricalPrice(target: TimeOfDay, todayMidnightMs: int, nowMs: int,
                         fetch: seq<Param> -> Option<CandleReply>)
    returns (price: Option<real>, queries: seq<seq<Param>>)
    requires target.Valid()
    // The minute query is always issued first.
    ensures var ts := ResolveTarget(target, todayMidnightMs, nowMs);
      1 <= |queries| <= 2 && queries[0] == MinuteQuery(ts)
    // A usable minute reply: the close of the first candle nearest the target.
    ensures var ts := ResolveTarget(target, todayMidnightMs, nowMs);
      var minute := fetch(MinuteQuery(ts));
      Yields(minute) ==>
        |queries| == 1 &&
        exists k :: IsFirstClosest(minute.value.result, ts, k) && price == Some(minute.value.result[k].close)
    // Otherwise the daily query is issued, and its first candle's close is the answer, if any.
    ensures var ts := ResolveTarget(target, todayMidnightMs, nowMs);
      var daily := fetch(DailyQuery(ts));
      !Yields(fetch(MinuteQuery(ts))) ==>
        && queries == [MinuteQuery(ts), DailyQuery(ts)]
        && price == (if Yields(daily) then Some(daily.value.result[0].close) else None)
    // No price exactly when neither query yields candles.
    ensures var ts := ResolveTarget(target, todayMidnightMs, nowMs);
      price.None? <==> !Yields(fetch(MinuteQuery(ts))) && !Yields(fetch(DailyQuery(ts)))
  {
    var targetMs := CombineToday(todayMidnightMs, target);
    if targetMs > nowMs {
      targetMs := targetMs - DayMs;
    }
    var minuteQuery := MinuteQuery(targetMs);
    queries := [minuteQuery];
    var data := fetch(minuteQuery);
    if Yields(data) {
      var candles := data.value.result;
      var k := Closest(candles, targetMs);
      price := Some(candles[k].close);
      return;
    }
    var dailyQuery := DailyQuery(targetMs);
    queries := queries + [dailyQuery];
    var dailyData := fetch(dailyQuery);
    if Yields(dailyData) {
      price := Some(dailyData.value.result[0].close);
    } else {
      price := None;
    }
  }

  /** The decoded ticker reply: `success` and the `result` object, when truthy. */
  datatype TickerReply = TickerReply(success: bool, result: Option<Ticker>)
  datatype Ticker = Ticker(close: real)

  /**
   * get_current_price's check `data.get('success') and data.get('result')`:
   * a price only when the request succeeded, the reply says success and
   * carries a result, and then it is that result's close.
   */
  function CurrentPrice(reply: Option<TickerReply>): (p: Option<real>)
    ensures p.Some? <==> reply.Some? && reply.value.success && reply.value.result.Some?
    ensures p.Some? ==> p.value == reply.value.result.value.close
  {
    match reply
    case None => None
    case Some(r) => if r.success && r.result.Some? then Some(r.result.value.close) else None
  }
}
