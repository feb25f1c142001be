# BTC price tracker: request signing, time resolution and candle selection

A Dafny model of the deterministic core of a single-page Streamlit app.
The app shows the current BTC price from an exchange and compares it with
the prices at two chosen times of day. The model covers how the tracker
(`BTCPriceTracker`):

- signs an authenticated request with an HMAC over SHA-256 of method +
  timestamp + endpoint + payload;
- assembles the request's payload, URL and headers;
- builds the parameter dict of a historical-candle query;
- resolves a target `HH:MM:SS` into an epoch-millisecond instant that is not
  after "now";
- chooses the candle nearest that instant, with a daily fallback;
- computes the percentage change between two prices.

Clock reads, library calls and network replies become parameters:

- `clockSeconds` is `time.time()`.
- `todayMidnightMs` and `nowMs` are the local midnight and "now" in epoch
  milliseconds.
- `Requests.Library` holds the HMAC digest, `quote_plus` and `json.dumps`.
- `fetch` answers a candle query with the decoded JSON reply, or None when
  the request failed.

Modules, leaves first:

- `Wrappers` holds `Option`.
- `Decimal` is Python's `str(int)` and its inverse.
- `Signer` covers `generate_signature`.
- `Requests` covers `make_authenticated_request` and `get_account_info`.
- `Candles` covers `get_historical_candles`, the candle reply and the
  nearest-candle choice.
- `TimeResolution` resolves the target instant.
- `Prices` covers `get_historical_price` and `get_current_price`.
- `Metrics` covers `calculate_percentage_change`.

Choices the code makes that the model keeps:

- Timestamps are milliseconds, both for the signature and for the candle
  query bounds.
- The signed material is the bare endpoint followed directly by the
  url-encoded query, with no `?` between them.
- The minute query picks the candle nearest the target.
- The daily fallback takes the first candle.
- The minute window is ±5 minutes around the target.
- The percentage change divides without a zero guard.
- A target later than now moves to the previous day.

## Model

| member | source | states |
|---|---|---|
| Decimal.NatToString | streamlit_app.py:27 | the decimal text of a natural number is non-empty, all digits and has no leading zero |
| Decimal.IntToString | streamlit_app.py:27 | `str(int)`: non-empty, and all digits exactly when the value is non-negative |
| Decimal.IntToStringRoundTrip | streamlit_app.py:27 | parsing the rendered text of any int gives that int back |
| Decimal.IntToStringInjective | streamlit_app.py:27 | two different ints never render to the same text |
| Signer.TruncateToInt | streamlit_app.py:27 | Python's `int()` on a float truncates toward zero: within one unit below or above, on the side of zero |
| Signer.MillisMonotone | streamlit_app.py:27 | a later clock reading never gives a smaller millisecond count |
| Signer.TimestampOf | streamlit_app.py:27 | the timestamp text parses back to the clock's millisecond count, and is all digits for a non-negative clock |
| Signer.GenerateSignature | streamlit_app.py:25-34 | the returned timestamp is the clock's millisecond count, and the signature is the digest of method + that same timestamp + endpoint + payload |
| Signer.SplitSignedMessageInverts | streamlit_app.py:28 | a digit-free method, a digit timestamp and an endpoint starting with `/` can be read back from the signed message in that order |
| Signer.DistinctMillisSignDistinctMessages | streamlit_app.py:27-28 | requests signed at different milliseconds, for the same method, endpoint and payload, sign different messages |
| Requests.UrlEncode | streamlit_app.py:43 | `urlencode(params)` is empty exactly when there are no parameters |
| Requests.AuthHeaders | streamlit_app.py:52-57 | the headers are a dict of exactly `api-key`, `timestamp`, `signature` and `Content-Type: application/json`, carrying the given key, timestamp and signature |
| Requests.MakeAuthenticatedRequest | streamlit_app.py:36-63 | a GET with parameters gets `base + endpoint + "?" + query` and signs the bare endpoint followed by the query. A GET without parameters gets the bare URL and signs an empty payload. A POST sends and signs the JSON body, or an empty one. Any other method sends nothing |
| Requests.SentHeadersCarryOneSignature | streamlit_app.py:49-57 | the timestamp header is the clock's millisecond count, and the signature header is the digest of the message signed with that same timestamp |
| Requests.AccountInfoRequest | streamlit_app.py:159-162 | the profile check is a GET of `/v2/profile` with no query, whose headers carry the key, the content type, and one signature over `GET` + timestamp + `/v2/profile` together with that same timestamp |
| Candles.CandleQuery | streamlit_app.py:95-103 | the parameters are `symbol` then `resolution`, then `start` and `end` only when truthy, and nothing else |
| Candles.CandleQueryLookup | streamlit_app.py:95-103 | the query has distinct keys drawn from the four names; `start` and `end` are present exactly when truthy, so 0 and None are left out |
| Candles.HistoricalCandles | streamlit_app.py:91-105 | the candle request is always a GET whose URL carries a non-empty query and whose signature covers `/v2/history/candles` followed by that query |
| Candles.Closest | streamlit_app.py:136 | `min` with key `abs(time - ts)` returns a candle at minimal distance, and no earlier candle is as near |
| Candles.FirstClosestUnique | streamlit_app.py:136 | exactly one index is first-closest, so ties go to the earliest candle |
| TimeResolution.OffsetMs | streamlit_app.py:112 | a valid time of day lies within one day of midnight, on a whole second |
| TimeResolution.OffsetMsRoundTrip | streamlit_app.py:112 | hour, minute and second can be read back from the offset, so distinct targets give distinct instants |
| TimeResolution.ResolveTarget | streamlit_app.py:111-119 | the result is today's combined instant when that is not after now, and exactly one day (86 400 000 ms) earlier otherwise. It is not after now when now is past today's midnight |
| TimeResolution.ResolveTargetIsLatestOccurrence | streamlit_app.py:111-119 | when now falls on the given day, the result is the latest instant at or before now with the target time of day |
| Prices.QueryWindows | streamlit_app.py:121-145 | the minute window is ts ± 300 000 ms and the daily window ts ± 86 400 000 ms; a bound equal to 0 is left out of the query |
| Prices.HistoricalPrice | streamlit_app.py:107-153 | the minute query is sent first. A usable reply gives the close of the first candle nearest the target. Otherwise the daily query is sent and its first candle's close is the answer. The answer is None exactly when neither query yields candles |
| Prices.CurrentPrice | streamlit_app.py:80-85 | a price only when the request succeeded, the reply's success flag is set and a result is present; it is then the result's close |
| Metrics.PercentChange | streamlit_app.py:164-168 | None exactly when either price is None. Otherwise the old price grown by the change is the new price, and the change is 0 exactly when the prices are equal |
| Metrics.PercentChangeSign | streamlit_app.py:164-168 | for a positive old price the change is positive exactly for a rise and negative exactly for a fall |

## Left out

- The Streamlit page (`main`): widgets, `st.metric` formatting, the pandas table, the trend texts and the 30-second auto-refresh sleep. They are presentation and timing.
- Loading credentials from `st.secrets` and `st.stop()`. This is external configuration; `Requests.Credentials` holds the key and secret.
- Sending requests. `requests.get`/`post`, `raise_for_status`, `response.json()` and the `RequestException` handlers are network I/O. The request is returned as an `Outgoing` value, and replies arrive as inputs.
- The `except Exception` in `get_historical_price`, which turns malformed replies into None. Candles are modelled as well-formed (`time`, `close`).
- A ticker result that lacks `close`, which raises an uncaught `KeyError` in the source. `Prices.TickerReply` carries the close directly.
- The request in `get_current_price`. It is an unauthenticated GET of `Prices.TickerUrl` with no headers; only its success check is modelled.
- HMAC-SHA-256, `quote_plus` and `json.dumps` internals. These are library calls and are passed in as functions.
- Clock reads. `time.time()` and the two `datetime.now()` calls are parameters. The model does not tie `todayMidnightMs` to `nowMs`; the lemmas that need "now is on that day" require it.
- Local-time conversion in `datetime.timestamp()`. Today's instant is midnight plus the offset, so a daylight-saving change on that day is not modelled.
- `strptime` parsing. Targets are `TimeOfDay` values with hour < 24, minute < 60 and second < 60, as `strftime` produces them.
- The microsecond comparison `target_datetime > datetime.now()`. It uses `nowMs`, the millisecond floor of now. This is equivalent because the target is on a whole second.
- Floats. Prices and the clock are exact reals, and the display rounding (`:+.2f`) is not modelled.
- Metrics.PercentChange: requires a non-zero old price when both are present, because the source raises `ZeroDivisionError` there; the page only calls it with truthy prices.
- Metrics.PercentChangeSign: states the sign only for a positive old price.
- Python None and an empty dict behave the same for `params` and `data`: both are falsy. Both are modelled as the empty sequence.
