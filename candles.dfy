/**
 * Historical candles: the query parameters and request of
 * BTCPriceTracker.get_historical_candles, the reply shape the tracker reads,
 * and the closest-candle choice `min(candles, key=|time - ts|)` made in
 * get_historical_price.
 */
module Candles {
  import opened Wrappers
  import opened Signer
  import opened Requests

  const CandlesEndpoint: string := "/v2/history/candles"

  /** Python truthiness of an optional int: present and non-zero. */
  predicate Truthy(t: Option<int>) {
    t.Some? && t.value != 0
  }

  /**
   * The parameter dict get_historical_candles builds: symbol, then
   * resolution, then start and end when they are truthy.
   */
  function CandleQuery(symbol: string, resolution: string, start: Option<int>, end: Option<int>): (ps: seq<Param>)
    ensures |ps| == 2 + (if Truthy(start) then 1 else 0) + (if Truthy(end) then 1 else 0)
    ensures ps[0] == ("symbol", Str(symbol)) && ps[1] == ("resolution", Str(resolution))
    ensures Truthy(start) ==> ps[2] == ("start", Int(start.value))
    ensures Truthy(end) ==> ps[|ps| - 1] == ("end", Int(end.value))
  {
    [("symbol", Str(symbol)), ("resolution", Str(resolution))]
    + (if Truthy(start) then [("start", Int(start.value))] else [])
    + (if Truthy(end) then [("end", Int(end.value))] else [])
  }

  /**
   * The query is a proper dict: its keys are distinct, it holds no key but
   * these four, and start and end are present exactly when truthy.
   */
  lemma CandleQueryLookup(symbol: string, resolution: string, start: Option<int>, end: Option<int>)
    ensures var ps := CandleQuery(symbol, resolution, start, end);
      && DistinctKeys(ps)
      && (forall i :: 0 <= i < |ps| ==> ps[i].0 in ["symbol", "resolution", "start", "end"])
      && Lookup(ps, "symbol") == Some(Str(symbol))
      && Lookup(ps, "resolution") == Some(Str(resolution))
      && Lookup(ps, "start") == (if Truthy(start) then Some(Int(start.value)) else None)
      && Lookup(ps, "end") == (if Truthy(end) then Some(Int(end.value)) else None)
  {
    var ps := CandleQuery(symbol, resolution, start, end);
    var tail := ps[1..][1..];
    assert Lookup(ps, "start") == Lookup(tail, "start");
    assert Lookup(ps, "end") == Lookup(tail, "end");
    if Truthy(start) {
      assert Lookup(tail, "end") == Lookup(tail[1..], "end");
    }
  }

  /** get_historical_candles: build the parameters step by step, then send an authenticated GET. */
  method HistoricalCandles(creds: Credentials, lib: Library, clockSeconds: real,
                           symbol: string, resolution: string, start: Option<int>, end: Option<int>)
    returns (out: Outgoing)
    ensures var query := UrlEncode(lib.quotePlus, CandleQuery(symbol, resolution, start, end));
      && query != []
      && out == HttpGet(BaseUrl + CandlesEndpoint + "?" + query,
                        AuthHeaders(creds.apiKey,
                          GenerateSignature(lib.hmacSha256, creds.apiSecret, clockSeconds, "GET", CandlesEndpoint, query)))
  {
    var params: seq<Param> := [("symbol", Str(symbol)), ("resolution", Str(resolution))];
    if Truthy(start) {
      params := params + [("start", Int(start.value))];
    }
    if Truthy(end) {
      params := params + [("end", Int(end.value))];
    }
    assert params == CandleQuery(symbol, resolution, start, end);
    out := MakeAuthenticatedRequest(creds, lib, clockSeconds, "GET", CandlesEndpoint, params, []);
  }

  /** A candle as the tracker reads it: its `time` and its `close`. */
  datatype Candle = Candle(time: int, close: real)

  /** The decoded JSON reply of a candle query: `success` and the `result` list. */
  datatype CandleReply = CandleReply(success: bool, result: seq<Candle>)

  /** `data and data.get('success') and data.get('result')` followed by `if candles`. */
  predicate Yields(reply: Option<CandleReply>) {
    reply.Some? && reply.value.success && reply.value.result != []
  }

  function Distance(c: Candle, ts: int): nat {
    if c.time >= ts then c.time - ts else ts - c.time
  }

  /** Index `k` holds a candle nearest to `ts`, and no earlier candle is as near. */
  predicate IsFirstClosest(cs: seq<Candle>, ts: int, k: int) {
    && 0 <= k < |cs|
    && (forall j :: 0 <= j < |cs| ==> Distance(cs[k], ts) <= Distance(cs[j], ts))
    && (forall j :: 0 <= j < k ==> Distance(cs[j], ts) > Distance(cs[k], ts))
  }

  /**
   * Python's `min` with a key: scan left to right, and replace the current
   * best only by a strictly nearer candle.
   */
  function Closest(cs: seq<Candle>, ts: int): (k: nat)
    requires cs != []
    ensures IsFirstClosest(cs, ts, k)
  {
    if |cs| == 1 then 0
    else
      var best := Closest(cs[..|cs| - 1], ts);
      if Distance(cs[|cs| - 1], ts) < Distance(cs[best], ts) then |cs| - 1 else best
  }

  /** There is only one first-closest index: ties go to the earliest candle. */
  lemma FirstClosestUnique(cs: seq<Candle>, ts: int, k1: int, k2: int)
    requires IsFirstClosest(cs, ts, k1) && IsFirstClosest(cs, ts, k2)
    ensures k1 == k2
  {
    var d1, d2 := Distance(cs[k1], ts), Distance(cs[k2], ts);
    assert d1 <= d2 && d2 <= d1;
    assert k1 < k2 ==> d1 > d2;
    assert k2 < k1 ==> d2 > d1;
  }
}
