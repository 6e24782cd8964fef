/**
 * `generate_signature`: the headers of a signed call to the multimodal API.
 * The body is written as compact JSON with sorted keys; the text signed is
 * the path, that body, an eight-character nonce and the decimal timestamp,
 * one after the other; the signature is the Base64 text of the HMAC-SHA256
 * (RFC 2104) of that text, keyed by the API secret.
 */
module Signature {
  import opened Common
  import opened Numerals
  import opened PyValues
  import opened JsonText
  import opened Encodings

  /** HMAC-SHA256 of a message under a key, both as bytes. */
  type Hmac = (seq<uint8>, seq<uint8>) -> seq<uint8>

  /**
   * The `k`-th character of `string.ascii_letters + string.digits`: the 26
   * lower-case letters, then the 26 upper-case letters, then the 10 digits.
   */
  function NonceChar(k: nat): (c: char)
    requires k < AlphabetSize
    ensures IsNonceChar(c)
  {
    if k < 26 then ('a' as int + k) as char
    else if k < 52 then ('A' as int + (k - 26)) as char
    else ('0' as int + (k - 52)) as char
  }

  const AlphabetSize: nat := 62

  const NonceLength: nat := 8

  predicate IsNonceChar(c: char) { 'a' <= c <= 'z' || 'A' <= c <= 'Z' || '0' <= c <= '9' }

  /** Indices drawn by `random.choices`, one per nonce character. */
  predicate ValidDraws(draws: seq<nat>)
  {
    |draws| == NonceLength && forall i :: 0 <= i < |draws| ==> draws[i] < AlphabetSize
  }

  /** The nonce: eight letters or digits, one per draw. */
  function Nonce(draws: seq<nat>): (r: string)
    requires ValidDraws(draws)
    ensures |r| == NonceLength && forall i :: 0 <= i < |r| ==> IsNonceChar(r[i])
  {
    seq(|draws|, i requires 0 <= i < |draws| => NonceChar(draws[i]))
  }

  /** Every letter and digit can be drawn, from exactly one index. */
  lemma NonceAlphabetComplete(c: char)
    requires IsNonceChar(c)
    ensures exists k :: 0 <= k < AlphabetSize && NonceChar(k) == c
    ensures forall k, l :: 0 <= k < AlphabetSize && 0 <= l < AlphabetSize && NonceChar(k) == c && NonceChar(l) == c ==> k == l
  {
    if 'a' <= c <= 'z' {
      assert NonceChar(c as int - 'a' as int) == c;
    } else if 'A' <= c <= 'Z' {
      assert NonceChar(c as int - 'A' as int + 26) == c;
    } else {
      assert NonceChar(c as int - '0' as int + 52) == c;
    }
  }

  /** `str(int(time.time()))`. */
  function Timestamp(now: int): (r: string)
    ensures ParseInt(r) == Some(now)
  {
    ParseIntOfDecimal(now);
    Decimal(now)
  }

  /** The text that is signed: path, body, nonce and timestamp, with nothing between them. */
  function SignedText(path: string, bodyText: string, nonce: string, timestamp: string): (r: string)
    ensures |r| == |path| + |bodyText| + |nonce| + |timestamp|
    ensures r[..|path|] == path && r[|path|..|path| + |bodyText|] == bodyText
    ensures r[|r| - |timestamp|..] == timestamp && r[|r| - |timestamp| - |nonce|..|r| - |timestamp|] == nonce
  {
    path + bodyText + nonce + timestamp
  }

  /** The Base64 text of the HMAC of `text` under `secret`, both UTF-8 encoded. */
  function Sign(hmac: Hmac, secret: string, text: string): (r: string)
    ensures Base64Decode(r) == Some(hmac(Utf8(secret), Utf8(text)))
  {
    Base64RoundTrip(hmac(Utf8(secret), Utf8(text)));
    Base64Encode(hmac(Utf8(secret), Utf8(text)))
  }

  const AuthorizationHeader: string := "Authorization"
  const NonceHeader: string := "X-OPENAPI-NONCE"
  const TimestampHeader: string := "X-OPENAPI-TIMESTAMP"
  const SignHeader: string := "X-OPENAPI-SIGN"
  const ContentTypeHeader: string := "Content-Type"

  /** The headers and the body text handed to the HTTP client. */
  datatype SignedRequest = SignedRequest(headers: map<string, string>, body: string)

  /** What `json.dumps` raises for a `datetime`. */
  const NotSerializable: string := "Object of type datetime is not JSON serializable"

  /**
   * `generate_signature(api_key, api_secret, path, body)` with the nonce
   * draws and the clock as inputs. The body is serialised once, and that
   * very text is both signed and returned.
   */
  function GenerateSignature(hmac: Hmac, apiKey: string, apiSecret: string, path: string,
                             body: map<string, PyValue>, draws: seq<nat>, now: int): (r: Outcome<SignedRequest>)
    requires ValidDraws(draws)
    ensures r.Raised? <==> !Serializable(PyDict(body))
    ensures r.Raised? ==> r.message == NotSerializable
    ensures r.Ok? ==>
              var h := r.value.headers;
              && Dumps(PyDict(body)) == Some(r.value.body)
              && h.Keys == {AuthorizationHeader, NonceHeader, TimestampHeader, SignHeader, ContentTypeHeader}
              && h[AuthorizationHeader] == "Bearer " + apiKey
              && h[ContentTypeHeader] == "application/json"
              && |h[NonceHeader]| == NonceLength && (forall i :: 0 <= i < NonceLength ==> IsNonceChar(h[NonceHeader][i]))
              && ParseInt(h[TimestampHeader]) == Some(now)
  {
    var nonce := Nonce(draws);
    var timestamp := Timestamp(now);
    match Dumps(PyDict(body))
    case None => Raised(NotSerializable)
    case Some(bodyText) =>
      var signature := Sign(hmac, apiSecret, SignedText(path, bodyText, nonce, timestamp));
      Ok(SignedRequest(Headers(apiKey, nonce, timestamp, signature), bodyText))
  }

  /** The five headers of a signed call. */
  function Headers(apiKey: string, nonce: string, timestamp: string, signature: string): (h: map<string, string>)
    ensures h.Keys == {AuthorizationHeader, NonceHeader, TimestampHeader, SignHeader, ContentTypeHeader}
    ensures h[AuthorizationHeader] == "Bearer " + apiKey && h[ContentTypeHeader] == "application/json"
    ensures h[NonceHeader] == nonce && h[TimestampHeader] == timestamp && h[SignHeader] == signature
  {
    map[AuthorizationHeader := "Bearer " + apiKey,
        NonceHeader := nonce,
        TimestampHeader := timestamp,
        SignHeader := signature,
        ContentTypeHeader := "application/json"]
  }

  /**
   * What the multimodal service checks on arrival: the signature header
   * decodes to the HMAC of the path, the body as received, the nonce and
   * the timestamp headers.
   */
  predicate Verifies(hmac: Hmac, secret: string, path: string, req: SignedRequest)
  {
    && NonceHeader in req.headers && TimestampHeader in req.headers && SignHeader in req.headers
    && Base64Decode(req.headers[SignHeader])
       == Some(hmac(Utf8(secret), Utf8(SignedText(path, req.body, req.headers[NonceHeader], req.headers[TimestampHeader]))))
  }

  /** Every request the signer produces passes the receiver's check with the same secret and path. */
  lemma SignedRequestVerifies(hmac: Hmac, apiKey: string, apiSecret: string, path: string,
                              body: map<string, PyValue>, draws: seq<nat>, now: int)
    requires ValidDraws(draws)
    ensures var r := GenerateSignature(hmac, apiKey, apiSecret, path, body, draws, now);
            r.Ok? ==> Verifies(hmac, apiSecret, path, r.value)
  {
  }

  /** With an ASCII path the signed bytes are the signed characters, one byte each. */
  lemma SignedBytesAreAscii(path: string, body: map<string, PyValue>, draws: seq<nat>, now: int)
    requires Ascii(path) && Serializable(PyDict(body)) && ValidDraws(draws)
    ensures var text := SignedText(path, Encode(PyDict(body)), Nonce(draws), Timestamp(now));
            |Utf8(text)| == |text|
  {
    var bodyText, nonce, timestamp := Encode(PyDict(body)), Nonce(draws), Timestamp(now);
    DecimalPrintable(now);
    assert Ascii(bodyText) && Ascii(nonce) && Ascii(timestamp);
    AsciiConcat(path, bodyText);
    AsciiConcat(path + bodyText, nonce);
    AsciiConcat(path + bodyText + nonce, timestamp);
    var text := SignedText(path, bodyText, nonce, timestamp);
    assert text == path + bodyText + nonce + timestamp;
    Utf8OfAscii(text);
  }
}
