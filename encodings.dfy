/**
 * The two byte encodings the request signer relies on: UTF-8 (RFC 3629
 * section 3), which turns the secret and the signed text into bytes, and
 * Base64 with the standard alphabet and `=` padding (RFC 4648 section 4),
 * which turns the HMAC digest back into header text.
 */
module Encodings {
  import opened Common

  // ---------------------------------------------------------------- UTF-8

  /** `str.encode("utf-8")` of one character: one to four bytes. */
  function Utf8Char(c: char): (r: seq<uint8>)
    ensures 1 <= |r| <= 4
    ensures |r| == 1 <==> c as int < 0x80
  {
    var v := c as int;
    if v < 0x80 then [v as uint8]
    else if v < 0x800 then
      var (q, s0) := Split64(v);
      [(0xC0 + q) as uint8, (0x80 + s0) as uint8]
    else if v < 0x10000 then
      var (q1, s0) := Split64(v);
      var (q2, s1) := Split64(q1);
      [(0xE0 + q2) as uint8, (0x80 + s1) as uint8, (0x80 + s0) as uint8]
    else
      var (q1, s0) := Split64(v);
      var (q2, s1) := Split64(q1);
      var (q3, s2) := Split64(q2);
      [(0xF0 + q3) as uint8, (0x80 + s2) as uint8, (0x80 + s1) as uint8, (0x80 + s0) as uint8]
  }

  /** `n` as a quotient and a remainder by 64: the six low bits and the rest. */
  function Split64(n: nat): (r: (nat, nat))
    ensures r.1 < 64 && n == r.0 * 64 + r.1
  {
    (n / 64, n % 64)
  }

  /** `str.encode("utf-8")`. */
  function Utf8(s: string): (r: seq<uint8>)
    ensures |r| >= |s|
    decreases |s|
  {
    if s == [] then [] else Utf8Char(s[0]) + Utf8(s[1..])
  }

  /** Encoding distributes over concatenation, so a concatenated text is signed as its parts' bytes in turn. */
  lemma {:induction false} Utf8Concat(a: string, b: string)
    ensures Utf8(a + b) == Utf8(a) + Utf8(b)
    decreases |a|
  {
    if a == [] {
      assert a + b == b;
    } else {
      var ab := a + b;
      assert ab[0] == a[0] && ab[1..] == a[1..] + b;
      Utf8Concat(a[1..], b);
      calc {
        Utf8(ab);
        Utf8Char(a[0]) + Utf8(a[1..] + b);
        Utf8Char(a[0]) + (Utf8(a[1..]) + Utf8(b));
        (Utf8Char(a[0]) + Utf8(a[1..])) + Utf8(b);
        Utf8(a) + Utf8(b);
      }
    }
  }

  predicate Ascii(s: string) { forall i :: 0 <= i < |s| ==> s[i] as int < 0x80 }

  lemma AsciiConcat(a: string, b: string)
    requires Ascii(a) && Ascii(b)
    ensures Ascii(a + b)
  {
    forall i | 0 <= i < |a + b|
      ensures (a + b)[i] as int < 0x80
    {
      if i >= |a| {
        assert (a + b)[i] == b[i - |a|];
      }
    }
  }

  /** An ASCII text is encoded one byte per character, each byte its code. */
  lemma {:induction false} Utf8OfAscii(s: string)
    requires Ascii(s)
    ensures |Utf8(s)| == |s|
    ensures forall i :: 0 <= i < |s| ==> Utf8(s)[i] as int == s[i] as int
    decreases |s|
  {
    if s != [] {
      Utf8OfAscii(s[1..]);
    }
  }

  /** A continuation byte `10xxxxxx`, and its six payload bits. */
  predicate Continuation(b: uint8) { 0x80 <= b < 0xC0 }

  /**
   * The first character of a UTF-8 byte string and how many bytes spell it;
   * None when the bytes do not start with a well-formed, shortest-form
   * encoding of a Unicode scalar value.
   */
  function NextScalar(b: seq<uint8>): (r: Option<(char, nat)>)
    requires |b| > 0
    ensures r.Some? ==> 0 < r.value.1 <= |b|
  {
    var b0 := b[0] as int;
    if b0 < 0x80 then Some((b0 as char, 1))
    else if b0 < 0xC2 || b0 >= 0xF5 then None
    else if b0 < 0xE0 then
      if |b| < 2 || !Continuation(b[1]) then None
      else Some((((b0 - 0xC0) * 64 + (b[1] as int - 0x80)) as char, 2))
    else if b0 < 0xF0 then
      if |b| < 3 || !Continuation(b[1]) || !Continuation(b[2]) then None
      else
        var v := ((b0 - 0xE0) * 64 + (b[1] as int - 0x80)) * 64 + (b[2] as int - 0x80);
        if v < 0x800 || (0xD800 <= v < 0xE000) then None else Some((v as char, 3))
    else
      if |b| < 4 || !Continuation(b[1]) || !Continuation(b[2]) || !Continuation(b[3]) then None
      else
        var v := (((b0 - 0xF0) * 64 + (b[1] as int - 0x80)) * 64 + (b[2] as int - 0x80)) * 64 + (b[3] as int - 0x80);
        if v < 0x10000 || v >= 0x110000 then None else Some((v as char, 4))
  }

  /** `bytes.decode("utf-8")`, None for malformed input. */
  function Utf8Decode(b: seq<uint8>): Option<string>
    decreases |b|
  {
    if b == [] then Some([])
    else match NextScalar(b)
      case None => None
      case Some((c, n)) =>
        match Utf8Decode(b[n..])
        case None => None
        case Some(rest) => Some([c] + rest)
  }

  /** The decoder reads one encoded character back, whatever follows it. */
  lemma NextScalarOfChar(c: char, rest: seq<uint8>)
    ensures NextScalar(Utf8Char(c) + rest) == Some((c, |Utf8Char(c)|))
  {
    var v := c as int;
    var b := Utf8Char(c) + rest;
    if v < 0x80 {
    } else if v < 0x800 {
      var (q, s0) := Split64(v);
      assert b[0] as int == 0xC0 + q && b[1] as int == 0x80 + s0;
    } else if v < 0x10000 {
      var (q1, s0) := Split64(v);
      var (q2, s1) := Split64(q1);
      assert b[0] as int == 0xE0 + q2 && b[1] as int == 0x80 + s1 && b[2] as int == 0x80 + s0;
    } else {
      var (q1, s0) := Split64(v);
      var (q2, s1) := Split64(q1);
      var (q3, s2) := Split64(q2);
      assert b[0] as int == 0xF0 + q3 && b[1] as int == 0x80 + s2;
      assert b[2] as int == 0x80 + s1 && b[3] as int == 0x80 + s0;
    }
  }

  /** Decoding undoes encoding, so distinct texts have distinct encodings. */
  lemma {:induction false} Utf8RoundTrip(s: string)
    ensures Utf8Decode(Utf8(s)) == Some(s)
    decreases |s|
  {
    if s != [] {
      var e := Utf8Char(s[0]);
      var b := Utf8(s);
      assert b == e + Utf8(s[1..]);
      NextScalarOfChar(s[0], Utf8(s[1..]));
      assert b[|e|..] == Utf8(s[1..]);
      Utf8RoundTrip(s[1..]);
      assert s == [s[0]] + s[1..];
    }
  }

  lemma Utf8Injective(a: string, b: string)
    requires Utf8(a) == Utf8(b)
    ensures a == b
  {
    Utf8RoundTrip(a);
    Utf8RoundTrip(b);
  }

  // ---------------------------------------------------------------- Base64

  /** The character of a six-bit value: `A`-`Z`, `a`-`z`, `0`-`9`, `+`, `/`. */
  function Sextet(n: nat): (c: char)
    requires n < 64
    ensures IsBase64Char(c) && SextetValue(c) == n
  {
    if n < 26 then ('A' as int + n) as char
    else if n < 52 then ('a' as int + (n - 26)) as char
    else if n < 62 then ('0' as int + (n - 52)) as char
    else if n == 62 then '+'
    else '/'
  }

  predicate IsBase64Char(c: char)
  {
    'A' <= c <= 'Z' || 'a' <= c <= 'z' || '0' <= c <= '9' || c == '+' || c == '/'
  }

  function SextetValue(c: char): (n: nat)
    requires IsBase64Char(c)
    ensures n < 64
  {
    if 'A' <= c <= 'Z' then c as int - 'A' as int
    else if 'a' <= c <= 'z' then c as int - 'a' as int + 26
    else if '0' <= c <= '9' then c as int - '0' as int + 52
    else if c == '+' then 62
    else 63
  }

  // The six-bit values of a group, from the bytes, and the bytes back from them.

  function Char0(x0: nat): (v: nat) requires x0 < 256 ensures v < 64 { x0 / 4 }

  function Char1(x0: nat, x1: nat): (v: nat) requires x0 < 256 && x1 < 256 ensures v < 64 { (x0 % 4) * 16 + x1 / 16 }

  function Char2(x1: nat, x2: nat): (v: nat) requires x1 < 256 && x2 < 256 ensures v < 64 { (x1 % 16) * 4 + x2 / 64 }

  function Char3(x2: nat): (v: nat) requires x2 < 256 ensures v < 64 { x2 % 64 }

  function Byte0(v0: nat, v1: nat): (y: uint8) requires v0 < 64 && v1 < 64 { (v0 * 4 + v1 / 16) as uint8 }

  function Byte1(v1: nat, v2: nat): (y: uint8) requires v1 < 64 && v2 < 64 { ((v1 % 16) * 16 + v2 / 4) as uint8 }

  function Byte2(v2: nat, v3: nat): (y: uint8) requires v2 < 64 && v3 < 64 { ((v2 % 4) * 64 + v3) as uint8 }

  /** The first byte is the first character's six bits and the two high bits of the second. */
  lemma FirstByteBack(x0: nat, x1: nat)
    requires x0 < 256 && x1 < 256
    ensures Byte0(Char0(x0), Char1(x0, x1)) as nat == x0
  {
    var h := x1 / 16;
    assert h < 16;
    assert ((x0 % 4) * 16 + h) / 16 == x0 % 4;
  }

  /** The second byte is the low four bits of the second character and the high four of the third. */
  lemma SecondByteBack(x0: nat, x1: nat, x2: nat)
    requires x0 < 256 && x1 < 256 && x2 < 256
    ensures Byte1(Char1(x0, x1), Char2(x1, x2)) as nat == x1
  {
    var h := x1 / 16;
    var l := x1 % 16;
    assert ((x0 % 4) * 16 + h) % 16 == h;
    var t := x2 / 64;
    assert t < 4;
    assert (l * 4 + t) / 4 == l;
  }

  /** The third byte is the low two bits of the third character and the fourth character. */
  lemma ThirdByteBack(x1: nat, x2: nat)
    requires x1 < 256 && x2 < 256
    ensures Byte2(Char2(x1, x2), Char3(x2)) as nat == x2
  {
    var t := x2 / 64;
    assert t < 4;
    assert ((x1 % 16) * 4 + t) % 4 == t;
  }

  /** One full group: three bytes, four characters. */
  function EncodeGroup(b0: uint8, b1: uint8, b2: uint8): (r: string)
    ensures |r| == 4 && forall i :: 0 <= i < 4 ==> IsBase64Char(r[i])
  {
    var x0, x1, x2 := b0 as nat, b1 as nat, b2 as nat;
    [Sextet(Char0(x0)), Sextet(Char1(x0, x1)), Sextet(Char2(x1, x2)), Sextet(Char3(x2))]
  }

  /** `base64.b64encode`: every three bytes become four characters, the last group padded with `=`. */
  function Base64Encode(b: seq<uint8>): string
    decreases |b|
  {
    if |b| == 0 then ""
    else if |b| == 1 then
      var x0 := b[0] as nat;
      [Sextet(Char0(x0)), Sextet(Char1(x0, 0)), '=', '=']
    else if |b| == 2 then
      var x0, x1 := b[0] as nat, b[1] as nat;
      [Sextet(Char0(x0)), Sextet(Char1(x0, x1)), Sextet(Char2(x1, 0)), '=']
    else EncodeGroup(b[0], b[1], b[2]) + Base64Encode(b[3..])
  }

  /** The bytes of one four-character group, None when it is not Base64. */
  function DecodeGroup(g: string, last: bool): (r: Option<seq<uint8>>)
    requires |g| == 4
    ensures r.Some? ==> 1 <= |r.value| <= 3 && (!last ==> |r.value| == 3)
  {
    if !IsBase64Char(g[0]) || !IsBase64Char(g[1]) then None
    else
      var v0, v1 := SextetValue(g[0]), SextetValue(g[1]);
      if last && g[2] == '=' && g[3] == '=' then Some([Byte0(v0, v1)])
      else if !IsBase64Char(g[2]) then None
      else
        var v2 := SextetValue(g[2]);
        if last && g[3] == '=' then Some([Byte0(v0, v1), Byte1(v1, v2)])
        else if !IsBase64Char(g[3]) then None
        else Some([Byte0(v0, v1), Byte1(v1, v2), Byte2(v2, SextetValue(g[3]))])
  }

  /** `base64.b64decode` of canonical, padded text; None for anything else. */
  function Base64Decode(s: string): Option<seq<uint8>>
    decreases |s|
  {
    if s == [] then Some([])
    else if |s| < 4 then None
    else match DecodeGroup(s[..4], |s| == 4)
      case None => None
      case Some(g) =>
        if |g| < 3 then Some(g)
        else match Base64Decode(s[4..])
          case None => None
          case Some(rest) => Some(g + rest)
  }

  /** The three bytes of a group come back from its four characters. */
  lemma GroupRoundTrip(b0: uint8, b1: uint8, b2: uint8, last: bool)
    ensures DecodeGroup(EncodeGroup(b0, b1, b2), last) == Some([b0, b1, b2])
  {
    var x0, x1, x2 := b0 as nat, b1 as nat, b2 as nat;
    FirstByteBack(x0, x1);
    SecondByteBack(x0, x1, x2);
    ThirdByteBack(x1, x2);
  }

  /** Decoding undoes encoding: the receiver recovers the digest exactly. */
  lemma {:induction false} Base64RoundTrip(b: seq<uint8>)
    ensures Base64Decode(Base64Encode(b)) == Some(b)
    decreases |b|
  {
    if |b| == 1 {
      OneByteRoundTrip(b);
    } else if |b| == 2 {
      TwoBytesRoundTrip(b);
    } else if |b| >= 3 {
      Base64RoundTrip(b[3..]);
      GroupsRoundTrip(b);
    }
  }

  /** A full group followed by text that decodes to the remaining bytes. */
  lemma GroupsRoundTrip(b: seq<uint8>)
    requires |b| >= 3 && Base64Decode(Base64Encode(b[3..])) == Some(b[3..])
    ensures Base64Decode(Base64Encode(b)) == Some(b)
  {
    FirstThree(b);
    var g, t := EncodeGroup(b[0], b[1], b[2]), Base64Encode(b[3..]);
    assert Base64Encode(b) == g + t;
    GroupRoundTrip(b[0], b[1], b[2], t == []);
    DecodeCons(g, t, [b[0], b[1], b[2]], b[3..]);
  }

  /** Decoding reads a full group, then the rest. */
  lemma DecodeCons(g: string, t: string, h: seq<uint8>, r: seq<uint8>)
    requires |g| == 4 && DecodeGroup(g, t == []) == Some(h) && |h| == 3 && Base64Decode(t) == Some(r)
    ensures Base64Decode(g + t) == Some(h + r)
  {
    var s := g + t;
    assert s[..4] == g && s[4..] == t;
  }

  lemma FirstThree<T>(b: seq<T>)
    requires |b| >= 3
    ensures [b[0], b[1], b[2]] + b[3..] == b
  {
  }

  lemma OneByteRoundTrip(b: seq<uint8>)
    requires |b| == 1
    ensures Base64Decode(Base64Encode(b)) == Some(b)
  {
    var s := Base64Encode(b);
    assert s[..4] == s;
    FirstByteBack(b[0] as nat, 0);
    assert [b[0]] == b;
  }

  lemma TwoBytesRoundTrip(b: seq<uint8>)
    requires |b| == 2
    ensures Base64Decode(Base64Encode(b)) == Some(b)
  {
    var s := Base64Encode(b);
    var x0, x1 := b[0] as nat, b[1] as nat;
    assert s[..4] == s;
    FirstByteBack(x0, x1);
    SecondByteBack(x0, x1, 0);
    assert [b[0], b[1]] == b;
  }

  /** Every started group of three bytes takes four characters. */
  lemma {:induction false} Base64Length(b: seq<uint8>)
    ensures |Base64Encode(b)| == 4 * ((|b| + 2) / 3)
    decreases |b|
  {
    if |b| >= 3 {
      Base64Length(b[3..]);
      assert (|b| + 2) / 3 == (|b[3..]| + 2) / 3 + 1;
    }
  }

  /** Encoded text uses only the alphabet, with `=` at most in the last two places. */
  lemma {:induction false} Base64Alphabet(b: seq<uint8>)
    ensures var s := Base64Encode(b);
            forall i :: 0 <= i < |s| ==> IsBase64Char(s[i]) || (s[i] == '=' && i >= |s| - 2)
    decreases |b|
  {
    if |b| >= 3 {
      Base64Alphabet(b[3..]);
      var s := Base64Encode(b);
      var g := EncodeGroup(b[0], b[1], b[2]);
      assert forall i :: 4 <= i < |s| ==> s[i] == Base64Encode(b[3..])[i - 4];
      assert forall i :: 0 <= i < 4 ==> s[i] == g[i];
    }
  }
}
