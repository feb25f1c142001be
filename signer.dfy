/**
 * Request signing (BTCPriceTracker.generate_signature). The keyed digest,
 * HMAC over SHA-256, is a library call whose internals are not modelled: it
 * is passed in as the function `hmacSha256(secret, message)`. The clock read
 * `time.time()` is the parameter `clockSeconds`.
 */
module Signer {
  import opened Wrappers
  import opened Decimal

  /** Python's `int()` on a float: truncation toward zero. */
  function TruncateToInt(x: real): (i: int)
    ensures x >= 0.0 ==> i as real <= x < i as real + 1.0
    ensures x < 0.0 ==> i as real - 1.0 < x <= i as real
  {
    if x >= 0.0 then x.Floor else -((-x).Floor)
  }

  /** The millisecond count the signer reads: `int(time.time() * 1000)`. */
  function MillisOf(clockSeconds: real): int {
    TruncateToInt(clockSeconds * 1000.0)
  }

  /** A later clock reading never gives an earlier millisecond count. */
  lemma MillisMonotone(c1: real, c2: real)
    requires c1 <= c2
    ensures MillisOf(c1) <= MillisOf(c2)
  {
  }

  /** The timestamp text: the millisecond count rendered in decimal. */
  function TimestampOf(clockSeconds: real): (ts: string)
    ensures ParseInt(ts) == Some(MillisOf(clockSeconds))
    ensures clockSeconds >= 0.0 ==> AllDigits(ts)
    ensures |ts| > 0
  {
    IntToStringRoundTrip(MillisOf(clockSeconds));
    IntToString(MillisOf(clockSeconds))
  }

  /** The signed message: method, timestamp, endpoint and payload, in that order. */
  function SignedMessage(verb: string, timestamp: string, endpoint: string, payload: string): string {
    verb + timestamp + endpoint + payload
  }

  /** What `generate_signature` returns: the hex digest and the timestamp it signed. */
  datatype Signature = Signature(signature: string, timestamp: string)

  function GenerateSignature(hmacSha256: (string, string) -> string, secret: string, clockSeconds: real,
                             verb: string, endpoint: string, payload: string): (r: Signature)
    ensures ParseInt(r.timestamp) == Some(MillisOf(clockSeconds))
    ensures r.signature == hmacSha256(secret, SignedMessage(verb, r.timestamp, endpoint, payload))
  {
    var timestamp := TimestampOf(clockSeconds);
    Signature(hmacSha256(secret, SignedMessage(verb, timestamp, endpoint, payload)), timestamp)
  }

  predicate NoDigits(s: string) {
    forall i :: 0 <= i < |s| ==> !IsDigit(s[i])
  }

  /** Length of the longest prefix of `s` that holds no digit. */
  function NonDigitRun(s: string): (n: nat)
    ensures n <= |s|
  {
    if s == [] || IsDigit(s[0]) then 0 else 1 + NonDigitRun(s[1..])
  }

  /** Length of the longest prefix of `s` that holds only digits. */
  function DigitRun(s: string): (n: nat)
    ensures n <= |s|
  {
    if s == [] || !IsDigit(s[0]) then 0 else 1 + DigitRun(s[1..])
  }

  /** Reads a signed message back as (method, timestamp, endpoint followed by payload). */
  function SplitSignedMessage(m: string): (string, string, string) {
    var i := NonDigitRun(m);
    var j := i + DigitRun(m[i..]);
    (m[..i], m[i..j], m[j..])
  }

  lemma {:induction false} NonDigitRunPrefix(a: string, b: string)
    requires NoDigits(a)
    requires b != [] && IsDigit(b[0])
    ensures NonDigitRun(a + b) == |a|
  {
    if a != [] {
      assert (a + b)[1..] == a[1..] + b;
      NonDigitRunPrefix(a[1..], b);
    }
  }

  lemma {:induction false} DigitRunPrefix(a: string, b: string)
    requires AllDigits(a)
    requires b != [] && !IsDigit(b[0])
    ensures DigitRun(a + b) == |a|
  {
    if a != [] {
      assert (a + b)[1..] == a[1..] + b;
      DigitRunPrefix(a[1..], b);
    }
  }

  /**
   * A message whose method has no digits, whose timestamp is a non-empty run
   * of digits and whose endpoint starts with a non-digit ('/') determines its
   * method, its timestamp and its endpoint-plus-payload.
   */
  lemma SplitSignedMessageInverts(verb: string, timestamp: string, endpoint: string, payload: string)
    requires NoDigits(verb)
    requires timestamp != [] && AllDigits(timestamp)
    requires endpoint != [] && !IsDigit(endpoint[0])
    ensures SplitSignedMessage(SignedMessage(verb, timestamp, endpoint, payload)) == (verb, timestamp, endpoint + payload)
  {
    var m := SignedMessage(verb, timestamp, endpoint, payload);
    var rest := endpoint + payload;
    assert m == verb + (timestamp + rest);
    NonDigitRunPrefix(verb, timestamp + rest);
    assert m[|verb|..] == timestamp + rest;
    DigitRunPrefix(timestamp, rest);
    assert m[..|verb|] == verb;
    assert m[|verb|..|verb| + |timestamp|] == timestamp;
    assert m[|verb| + |timestamp|..] == rest;
  }

  /**
   * Two requests signed at different milliseconds, for the same method,
   * endpoint and payload, sign different messages.
   */
  lemma DistinctMillisSignDistinctMessages(c1: real, c2: real, verb: string, endpoint: string, payload: string)
    requires c1 >= 0.0 && c2 >= 0.0
    requires NoDigits(verb)
    requires endpoint != [] && !IsDigit(endpoint[0])
    requires MillisOf(c1) != MillisOf(c2)
    ensures SignedMessage(verb, TimestampOf(c1), endpoint, payload) != SignedMessage(verb, TimestampOf(c2), endpoint, payload)
  {
    SplitSignedMessageInverts(verb, TimestampOf(c1), endpoint, payload);
    SplitSignedMessageInverts(verb, TimestampOf(c2), endpoint, payload);
  }
}
