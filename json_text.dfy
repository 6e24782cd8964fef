/**
 * The JSON text (RFC 8259) that `json.dumps(value, separators=(",", ":"),
 * sort_keys=True)` writes: no whitespace between tokens, object members in
 * increasing code-point order of their names, and, because `ensure_ascii`
 * is on, every character outside printable ASCII written as a `\u` escape
 * (a surrogate pair above U+FFFF, as section 7 of RFC 8259 describes).
 * The string decoder of section 7 reads every escaped string back.
 */
module JsonText {
  import opened Common
  import opened Numerals
  import opened PyValues

  // ------------------------------------------------------------ name order

  /** `a < b` on Python strings: code point by code point, a proper prefix first. */
  predicate Below(a: string, b: string)
    decreases |a|
  {
    |b| > 0 && (|a| == 0 || a[0] < b[0] || (a[0] == b[0] && Below(a[1..], b[1..])))
  }

  lemma {:induction false} BelowIrreflexive(a: string)
    ensures !Below(a, a)
    decreases |a|
  {
    if |a| > 0 {
      BelowIrreflexive(a[1..]);
    }
  }

  lemma {:induction false} BelowTransitive(a: string, b: string, c: string)
    requires Below(a, b) && Below(b, c)
    ensures Below(a, c)
    decreases |a|
  {
    if |a| > 0 && a[0] == b[0] && b[0] == c[0] {
      BelowTransitive(a[1..], b[1..], c[1..]);
    }
  }

  lemma {:induction false} BelowTotal(a: string, b: string)
    requires a != b
    ensures Below(a, b) || Below(b, a)
    decreases |a|
  {
    if |a| > 0 && |b| > 0 && a[0] == b[0] {
      assert a == [a[0]] + a[1..] && b == [b[0]] + b[1..];
      BelowTotal(a[1..], b[1..]);
    }
  }

  /** Names listed in strictly increasing order. */
  predicate Increasing(keys: seq<string>)
  {
    forall i, j :: 0 <= i < j < |keys| ==> Below(keys[i], keys[j])
  }

  /** `m` is in `s` and below every other name of `s`. */
  predicate IsLeast(m: string, s: set<string>)
  {
    m in s && forall k :: k in s && k != m ==> Below(m, k)
  }

  /** Every non-empty set of names has a least one. */
  lemma {:induction false} LeastExists(s: set<string>)
    requires s != {}
    ensures exists m :: IsLeast(m, s)
    decreases |s|
  {
    var x :| x in s;
    var rest := s - {x};
    assert forall k :: k in s && k != x ==> k in rest;
    if rest == {} {
      assert IsLeast(x, s);
    } else {
      LeastExists(rest);
      var m :| IsLeast(m, rest);
      if Below(x, m) {
        forall k | k in s && k != x
          ensures Below(x, k)
        {
          if k != m {
            BelowTransitive(x, m, k);
          }
        }
        assert IsLeast(x, s);
      } else {
        BelowTotal(x, m);
        assert IsLeast(m, s);
      }
    }
  }

  /** The least name of a non-empty set. */
  function Least(s: set<string>): (m: string)
    requires s != {}
    ensures m in s && forall k :: k in s && k != m ==> Below(m, k)
  {
    LeastExists(s);
    LeastUnique(s);
    var m :| IsLeast(m, s);
    m
  }

  lemma LeastUnique(s: set<string>)
    ensures forall m1, m2 :: IsLeast(m1, s) && IsLeast(m2, s) ==> m1 == m2
  {
    forall m1, m2 | IsLeast(m1, s) && IsLeast(m2, s)
      ensures m1 == m2
    {
      if m1 != m2 {
        assert Below(m1, m2) && Below(m2, m1);
        BelowTransitive(m1, m2, m1);
        BelowIrreflexive(m1);
      }
    }
  }

  /** `sorted(names)`: every name once, in increasing order. */
  function SortedNames(s: set<string>): (r: seq<string>)
    ensures forall k :: k in r <==> k in s
    ensures |r| == |s|
    ensures Increasing(r)
    decreases |s|
  {
    if s == {} then []
    else
      var m := Least(s);
      var rest := SortedNames(s - {m});
      assert forall k :: k in rest ==> Below(m, k);
      [m] + rest
  }

  // --------------------------------------------------------------- strings

  /** The characters written as themselves: printable ASCII other than `"` and `\`. */
  predicate Plain(c: char) { ' ' <= c <= '~' && c != '"' && c != '\\' }

  predicate Printable(s: string) { forall i :: 0 <= i < |s| ==> ' ' <= s[i] <= '~' }

  /** Four lower-case hex digits of a 16-bit value, most significant first. */
  function Hex4(n: nat): (r: string)
    requires n < 0x10000
    ensures |r| == 4 && Printable(r)
    ensures AllHex(r) && Hex4Value(r) == n
  {
    var d3 := n / 0x1000;
    var r3 := n - d3 * 0x1000;
    var d2 := r3 / 0x100;
    var r2 := r3 - d2 * 0x100;
    var d1 := r2 / 0x10;
    var d0 := r2 - d1 * 0x10;
    [HexDigit(d3), HexDigit(d2), HexDigit(d1), HexDigit(d0)]
  }

  predicate AllHex(s: string) { forall i :: 0 <= i < |s| ==> IsHexDigit(s[i]) }

  function Hex4Value(s: string): (n: nat)
    requires |s| == 4 && AllHex(s)
    ensures n < 0x10000
  {
    HexValue(s[0]) * 0x1000 + HexValue(s[1]) * 0x100 + HexValue(s[2]) * 0x10 + HexValue(s[3])
  }

  const Backspace: char := '\U{8}'
  const FormFeed: char := '\U{C}'

  /** How `json.dumps` writes one character of a string under `ensure_ascii`. */
  function EscapeChar(c: char): (r: string)
    ensures 0 < |r| <= 12 && Printable(r)
    ensures |r| == 1 <==> Plain(c)
  {
    if c == '"' then "\\\""
    else if c == '\\' then "\\\\"
    else if c == '\n' then "\\n"
    else if c == '\r' then "\\r"
    else if c == '\t' then "\\t"
    else if c == Backspace then "\\b"
    else if c == FormFeed then "\\f"
    else if Plain(c) then [c]
    else if c as int < 0x10000 then "\\u" + Hex4(c as int)
    else
      var (hi, lo) := Surrogates(c);
      "\\u" + Hex4(hi) + "\\u" + Hex4(lo)
  }

  /** The UTF-16 surrogate pair of a character outside the Basic Multilingual Plane. */
  function Surrogates(c: char): (r: (nat, nat))
    requires c as int >= 0x10000
    ensures 0xD800 <= r.0 < 0xDC00 && 0xDC00 <= r.1 < 0xE000
    ensures 0x10000 + (r.0 - 0xD800) * 0x400 + (r.1 - 0xDC00) == c as int
  {
    var v := c as int - 0x10000;
    var q := v / 0x400;
    (0xD800 + q, 0xDC00 + (v - q * 0x400))
  }

  /** The escaped characters of a string, without the quotes. */
  function EscapeBody(s: string): (r: string)
    ensures Printable(r)
    decreases |s|
  {
    if s == [] then [] else EscapeChar(s[0]) + EscapeBody(s[1..])
  }

  /** A string as `json.dumps` writes it. */
  function Quote(s: string): (r: string)
    ensures |r| >= 2 && r[0] == '"' && r[|r| - 1] == '"'
    ensures Printable(r)
  {
    "\"" + EscapeBody(s) + "\""
  }

  /**
   * One character of a JSON string body (RFC 8259 section 7) and how many
   * characters of `s` spell it; None for a closing quote, a raw control
   * character, a bad escape or a lone surrogate.
   */
  function NextChar(s: string): (r: Option<(char, nat)>)
    requires |s| > 0
    ensures r.Some? ==> 0 < r.value.1 <= |s|
  {
    if s[0] == '"' || s[0] < ' ' then None
    else if s[0] != '\\' then Some((s[0], 1))
    else if |s| < 2 then None
    else if s[1] == '"' then Some(('"', 2))
    else if s[1] == '\\' then Some(('\\', 2))
    else if s[1] == '/' then Some(('/', 2))
    else if s[1] == 'b' then Some((Backspace, 2))
    else if s[1] == 'f' then Some((FormFeed, 2))
    else if s[1] == 'n' then Some(('\n', 2))
    else if s[1] == 'r' then Some(('\r', 2))
    else if s[1] == 't' then Some(('\t', 2))
    else if s[1] != 'u' || |s| < 6 || !AllHex(s[2..6]) then None
    else
      var n := Hex4Value(s[2..6]);
      if n < 0xD800 || 0xE000 <= n then Some((n as char, 6))
      else if 0xDC00 <= n || |s| < 12 || s[6] != '\\' || s[7] != 'u' || !AllHex(s[8..12]) then None
      else
        var m := Hex4Value(s[8..12]);
        if m < 0xDC00 || 0xE000 <= m then None
        else
          assert (n - 0xD800) * 0x400 <= 0x3FF * 0x400;
          Some(((0x10000 + (n - 0xD800) * 0x400 + (m - 0xDC00)) as char, 12))
  }

  /** The characters a JSON string body spells, when it is well formed. */
  function Unescape(s: string): (r: Option<string>)
    decreases |s|
  {
    if s == [] then Some([])
    else match NextChar(s)
      case None => None
      case Some((c, n)) =>
        match Unescape(s[n..])
        case None => None
        case Some(rest) => Some([c] + rest)
  }

  /** `json.loads` of a string literal: the body between the quotes, decoded. */
  function Unquote(t: string): Option<string>
  {
    if |t| >= 2 && t[0] == '"' && t[|t| - 1] == '"' then Unescape(t[1..|t| - 1]) else None
  }

  /** The decoder reads one escaped character back, whatever follows it. */
  lemma NextCharOfEscape(c: char, rest: string)
    ensures NextChar(EscapeChar(c) + rest) == Some((c, |EscapeChar(c)|))
  {
    if c == '"' || c == '\\' || c == '\n' || c == '\r' || c == '\t' || c == Backspace || c == FormFeed {
      ShortEscapeRead(c, rest);
    } else if Plain(c) {
      assert (EscapeChar(c) + rest)[0] == c;
    } else if c as int < 0x10000 {
      UnitEscapeRead(c, rest);
    } else {
      PairEscapeRead(c, rest);
    }
  }

  lemma ShortEscapeRead(c: char, rest: string)
    requires c == '"' || c == '\\' || c == '\n' || c == '\r' || c == '\t' || c == Backspace || c == FormFeed
    ensures NextChar(EscapeChar(c) + rest) == Some((c, 2))
  {
    var e := EscapeChar(c);
    var s := e + rest;
    assert s[0] == '\\' && s[1] == e[1];
  }

  lemma UnitEscapeRead(c: char, rest: string)
    requires !Plain(c) && c as int < 0x10000
    requires c != '"' && c != '\\' && c != '\n' && c != '\r' && c != '\t' && c != Backspace && c != FormFeed
    ensures NextChar(EscapeChar(c) + rest) == Some((c, 6))
  {
    var e := EscapeChar(c);
    assert e == "\\u" + Hex4(c as int);
    var s := e + rest;
    assert s[0] == '\\' && s[1] == 'u' && s[2..6] == Hex4(c as int);
  }

  lemma PairEscapeRead(c: char, rest: string)
    requires c as int >= 0x10000
    ensures NextChar(EscapeChar(c) + rest) == Some((c, 12))
  {
    var (hi, lo) := Surrogates(c);
    var h1, h2 := Hex4(hi), Hex4(lo);
    var e := EscapeChar(c);
    assert e == "\\u" + h1 + "\\u" + h2;
    var s := e + rest;
    assert s[0] == '\\' && s[1] == 'u';
    assert s[2..6] == h1;
    assert s[6] == '\\' && s[7] == 'u';
    assert s[8..12] == h2;
  }

  /** Decoding undoes escaping: distinct strings are written differently. */
  lemma {:induction false} UnescapeRoundTrip(s: string)
    ensures Unescape(EscapeBody(s)) == Some(s)
    decreases |s|
  {
    if s != [] {
      var e := EscapeChar(s[0]);
      var body := EscapeBody(s);
      assert body == e + EscapeBody(s[1..]);
      NextCharOfEscape(s[0], EscapeBody(s[1..]));
      assert body[|e|..] == EscapeBody(s[1..]);
      UnescapeRoundTrip(s[1..]);
      assert s == [s[0]] + s[1..];
    }
  }

  lemma QuoteRoundTrip(s: string)
    ensures Unquote(Quote(s)) == Some(s)
  {
    var q := Quote(s);
    assert q[1..|q| - 1] == EscapeBody(s);
    UnescapeRoundTrip(s);
  }

  lemma QuoteInjective(a: string, b: string)
    requires Quote(a) == Quote(b)
    ensures a == b
  {
    QuoteRoundTrip(a);
    QuoteRoundTrip(b);
  }

  // ---------------------------------------------------------------- values

  /** The compact, sorted text of a value `json.dumps` accepts. */
  function Encode(v: PyValue): (r: string)
    requires Serializable(v)
    ensures |r| > 0 && Printable(r)
  {
    match v
    case PyNone => "null"
    case PyBool(b) => if b then "true" else "false"
    case PyInt(i) => DecimalPrintable(i); Decimal(i)
    case PyStr(s) => Quote(s)
    case PyList(items) =>
      var parts := seq(|items|, i requires 0 <= i < |items| => Encode(items[i]));
      Enclosed("[", parts, "]")
    case PyDict(fields) =>
      var names := SortedNames(fields.Keys);
      assert forall i :: 0 <= i < |names| ==> names[i] in names;
      var parts := seq(|names|, i requires 0 <= i < |names| => Member(names[i], Encode(fields[names[i]])));
      Enclosed("{", parts, "}")
  }

  /** `"name":value`. */
  function Member(name: string, value: string): (r: string)
    requires Printable(value)
    ensures Printable(r)
  {
    PrintableConcat(Quote(name), ":");
    PrintableConcat(Quote(name) + ":", value);
    Quote(name) + ":" + value
  }

  /** Printable parts joined by commas between an opening and a closing bracket. */
  function Enclosed(open: string, parts: seq<string>, close: string): (r: string)
    requires |open| > 0 && Printable(open) && Printable(close) && forall i :: 0 <= i < |parts| ==> Printable(parts[i])
    ensures |r| > 0 && Printable(r)
  {
    var body := Join(parts, ",");
    JoinPrintable(parts, ",");
    PrintableConcat(open, body);
    PrintableConcat(open + body, close);
    open + body + close
  }

  lemma PrintableConcat(a: string, b: string)
    requires Printable(a) && Printable(b)
    ensures Printable(a + b)
  {
    assert forall i :: 0 <= i < |b| ==> (a + b)[|a| + i] == b[i];
  }

  /**
   * `json.dumps(value, separators=(",", ":"), sort_keys=True)`; a `datetime`
   * anywhere inside raises `TypeError`, shown as None.
   */
  function Dumps(v: PyValue): (r: Option<string>)
    ensures r.Some? <==> Serializable(v)
    ensures r.Some? ==> Printable(r.value)
  {
    if Serializable(v) then Some(Encode(v)) else None
  }

  /** The members of an object, in the order they are written. */
  function Members(fields: map<string, PyValue>): (r: seq<string>)
    ensures Increasing(r) && |r| == |fields|
    ensures forall k :: k in r <==> k in fields
  {
    SortedNames(fields.Keys)
  }

  lemma {:induction false} NaturalPrintable(n: nat)
    ensures Printable(Natural(n))
    decreases n
  {
    if n >= 10 {
      NaturalPrintable(n / 10);
    }
  }

  lemma DecimalPrintable(n: int)
    ensures Printable(Decimal(n))
  {
    NaturalPrintable(if n < 0 then -n else n);
  }

  lemma {:induction false} JoinPrintable(parts: seq<string>, sep: string)
    requires Printable(sep) && forall i :: 0 <= i < |parts| ==> Printable(parts[i])
    ensures Printable(Join(parts, sep))
    decreases |parts|
  {
    if |parts| > 1 {
      JoinPrintable(parts[1..], sep);
    }
  }
}
