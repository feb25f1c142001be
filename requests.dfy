/**
 * Building an authenticated request (BTCPriceTracker.make_authenticated_request):
 * the payload, the URL, the signature and the headers. Sending the request,
 * `raise_for_status` and `response.json()` are network I/O and are not part
 * of this model; the method returns the request it would send.
 */
module Requests {
  import opened Wrappers
  import opened Decimal
  import opened Signer

  const BaseUrl: string := "https://api.delta.exchange"
  const Symbol: string := "BTCUSDT"
  const JsonContentType: string := "application/json"

  /** The API key and secret the tracker loads at construction. */
  datatype Credentials = Credentials(apiKey: string, apiSecret: string)

  /** A query parameter value: Python passes strings and ints. */
  datatype ParamValue = Str(s: string) | Int(i: int)

  type Param = (string, ParamValue)
  type Field = (string, string)
  type Header = (string, string)

  /**
   * The library calls whose character-level behaviour is not modelled:
   * `hmac.new(..., hashlib.sha256).hexdigest()`, `quote_plus` (the escaping
   * `urlencode` applies to each key and value) and `json.dumps`.
   */
  datatype Library = Library(
    hmacSha256: (string, string) -> string,
    quotePlus: string -> string,
    jsonDumps: seq<Field> -> string)

  /** The value of the first pair named `key`, as a dict lookup sees it. */
  function Lookup<V>(pairs: seq<(string, V)>, key: string): (r: Option<V>)
    ensures r.None? <==> forall i :: 0 <= i < |pairs| ==> pairs[i].0 != key
  {
    if pairs == [] then None
    else if pairs[0].0 == key then Some(pairs[0].1)
    else Lookup(pairs[1..], key)
  }

  /** No two pairs share a name, as in a Python dict. */
  predicate DistinctKeys<V>(pairs: seq<(string, V)>) {
    forall i, j :: 0 <= i < j < |pairs| ==> pairs[i].0 != pairs[j].0
  }

  /** `str(v)` as `urlencode` applies it before escaping. */
  function Render(v: ParamValue): string {
    match v
    case Str(s) => s
    case Int(i) => IntToString(i)
  }

  function EncodePair(quote: string -> string, p: Param): (r: string)
    ensures '=' in r
  {
    var r := quote(p.0) + "=" + quote(Render(p.1));
    assert r[|quote(p.0)|] == '=';
    r
  }

  /** `urlencode(params)`: escaped `key=value` pairs joined by '&', in order. */
  function UrlEncode(quote: string -> string, params: seq<Param>): (q: string)
    ensures q == [] <==> params == []
  {
    if params == [] then ""
    else if |params| == 1 then EncodePair(quote, params[0])
    else EncodePair(quote, params[0]) + "&" + UrlEncode(quote, params[1..])
  }

  /** The header dict: api-key, timestamp, signature and content type, in that order. */
  function AuthHeaders(apiKey: string, signed: Signature): (hs: seq<Header>)
    ensures DistinctKeys(hs)
    ensures Lookup(hs, "api-key") == Some(apiKey)
    ensures Lookup(hs, "timestamp") == Some(signed.timestamp)
    ensures Lookup(hs, "signature") == Some(signed.signature)
    ensures Lookup(hs, "Content-Type") == Some(JsonContentType)
    ensures forall name :: name !in ["api-key", "timestamp", "signature", "Content-Type"] ==> Lookup(hs, name) == None
  {
    var hs := [("api-key", apiKey), ("timestamp", signed.timestamp), ("signature", signed.signature),
               ("Content-Type", JsonContentType)];
    assert hs[1..][1..] == [("signature", signed.signature), ("Content-Type", JsonContentType)];
    assert hs[1..][1..][1..] == [("Content-Type", JsonContentType)];
    assert Lookup(hs, "signature") == Lookup(hs[1..][1..], "signature");
    assert Lookup(hs[1..][1..], "Content-Type") == Lookup(hs[1..][1..][1..], "Content-Type");
    assert Lookup(hs, "Content-Type") == Lookup(hs[1..][1..], "Content-Type");
    hs
  }

  /**
   * The request the tracker sends. `NoRequest` is the outcome for a method
   * other than GET and POST: the source then sends nothing and fails on the
   * unbound response with an error its handler does not catch.
   */
  datatype Outgoing =
    | HttpGet(url: string, headers: seq<Header>)
    | HttpPost(url: string, headers: seq<Header>, body: string)
    | NoRequest

  method MakeAuthenticatedRequest(creds: Credentials, lib: Library, clockSeconds: real,
                                  verb: string, endpoint: string, params: seq<Param>, data: seq<Field>)
    returns (out: Outgoing)
    // A GET with parameters: the query goes after '?' in the URL and is the
    // signed payload; the signed endpoint is the bare path.
    ensures verb == "GET" && params != [] ==>
      var query := UrlEncode(lib.quotePlus, params);
      var signed := GenerateSignature(lib.hmacSha256, creds.apiSecret, clockSeconds, verb, endpoint, query);
      out == HttpGet(BaseUrl + endpoint + "?" + query, AuthHeaders(creds.apiKey, signed))
    // A GET without parameters: empty payload, no query in the URL.
    ensures verb == "GET" && params == [] ==>
      var signed := GenerateSignature(lib.hmacSha256, creds.apiSecret, clockSeconds, verb, endpoint, "");
      out == HttpGet(BaseUrl + endpoint, AuthHeaders(creds.apiKey, signed))
    // A POST: the JSON body (empty when there is no data) is both sent and
    // signed; the URL gets no query.
    ensures verb == "POST" ==>
      var body := if data != [] then lib.jsonDumps(data) else "";
      var signed := GenerateSignature(lib.hmacSha256, creds.apiSecret, clockSeconds, verb, endpoint, body);
      out == HttpPost(BaseUrl + endpoint, AuthHeaders(creds.apiKey, signed), body)
    ensures verb != "GET" && verb != "POST" ==> out == NoRequest
  {
    var url := BaseUrl + endpoint;
    var payload := "";
    if verb == "GET" && params != [] {
      payload := UrlEncode(lib.quotePlus, params);
      url := url + "?" + payload;
    } else if verb == "POST" && data != [] {
      payload := lib.jsonDumps(data);
    }
    var signed := GenerateSignature(lib.hmacSha256, creds.apiSecret, clockSeconds, verb, endpoint, payload);
    var headers := AuthHeaders(creds.apiKey, signed);
    if verb == "GET" {
      out := HttpGet(url, headers);
    } else if verb == "POST" {
      out := HttpPost(url, headers, payload);
    } else {
      out := NoRequest;
    }
  }

  /**
   * What every sent request carries: the timestamp header is the clock's
   * millisecond count, and the signature header is the digest of the message
   * signed with exactly that timestamp.
   */
  lemma SentHeadersCarryOneSignature(creds: Credentials, lib: Library, clockSeconds: real,
                                      verb: string, endpoint: string, payload: string, hs: seq<Header>)
    requires hs == AuthHeaders(creds.apiKey, GenerateSignature(lib.hmacSha256, creds.apiSecret, clockSeconds, verb, endpoint, payload))
    ensures exists ts ::
      Lookup(hs, "timestamp") == Some(ts) && ParseInt(ts) == Some(MillisOf(clockSeconds)) &&
      Lookup(hs, "signature") == Some(lib.hmacSha256(creds.apiSecret, SignedMessage(verb, ts, endpoint, payload)))
  {
  }

  /** The account profile request (get_account_info): a GET without parameters. */
  method AccountInfoRequest(creds: Credentials, lib: Library, clockSeconds: real) returns (out: Outgoing)
    ensures out == HttpGet(BaseUrl + "/v2/profile",
      AuthHeaders(creds.apiKey, GenerateSignature(lib.hmacSha256, creds.apiSecret, clockSeconds, "GET", "/v2/profile", "")))
  {
    out := MakeAuthenticatedRequest(creds, lib, clockSeconds, "GET", "/v2/profile", [], []);
  }
}
