/**
 * Integers as text. Redis keeps every counter as a decimal string: `INCR`
 * reads it back as a signed 64-bit integer and the callers parse what `GET`
 * returns with Python's `int()`. `Decimal` is Python's `str(n)`; the two
 * readers are inverse to it.
 */
module Numerals {
  import opened Common

  const Int64Min: int := -0x8000_0000_0000_0000
  const Int64Max: int := 0x7FFF_FFFF_FFFF_FFFF

  predicate InInt64(n: int) { Int64Min <= n <= Int64Max }

  predicate IsDigit(c: char) { '0' <= c <= '9' }

  predicate AllDigits(s: string)
  {
    forall i :: 0 <= i < |s| ==> IsDigit(s[i])
  }

  function DigitOf(c: char): nat
    requires IsDigit(c)
  {
    c as int - '0' as int
  }

  function DigitChar(d: nat): (c: char)
    requires d < 10
    ensures IsDigit(c) && DigitOf(c) == d
  {
    ('0' as int + d) as char
  }

  /** A lower-case hexadecimal digit. */
  function HexDigit(n: nat): (c: char)
    requires n < 16
    ensures IsHexDigit(c) && HexValue(c) == n
  {
    if n < 10 then ('0' as int + n) as char else ('a' as int + n - 10) as char
  }

  /** A hexadecimal digit of either case. */
  predicate IsHexDigit(c: char) { '0' <= c <= '9' || 'a' <= c <= 'f' || 'A' <= c <= 'F' }

  function HexValue(c: char): (n: nat)
    requires IsHexDigit(c)
    ensures n < 16
  {
    if c <= '9' then c as int - '0' as int
    else if c <= 'F' then c as int - 'A' as int + 10
    else c as int - 'a' as int + 10
  }

  /** The decimal digits of a natural number, most significant first. */
  function Natural(n: nat): (r: string)
    ensures |r| > 0
    decreases n
  {
    if n < 10 then [DigitChar(n)] else Natural(n / 10) + [DigitChar(n % 10)]
  }

  /** Python's `str(n)` for an integer. */
  function Decimal(n: int): (r: string)
    ensures |r| > 0
  {
    if n < 0 then "-" + Natural(-n) else Natural(n)
  }

  /** The value of a string of decimal digits. */
  function DigitsValue(s: string): nat
    requires AllDigits(s)
    decreases |s|
  {
    if |s| == 0 then 0 else DigitsValue(s[..|s| - 1]) * 10 + DigitOf(s[|s| - 1])
  }

  /**
   * Python's `int(s)` on an optional sign followed by ASCII digits; any other
   * string raises `ValueError`, shown as None.
   */
  function ParseInt(s: string): Option<int>
  {
    if |s| > 1 && (s[0] == '-' || s[0] == '+') && AllDigits(s[1..]) then
      Some(if s[0] == '-' then 0 - DigitsValue(s[1..]) else DigitsValue(s[1..]))
    else if |s| > 0 && AllDigits(s) then
      Some(DigitsValue(s))
    else
      None
  }

  /** Digits with no superfluous leading zero. */
  predicate CanonicalNatural(s: string)
  {
    |s| > 0 && AllDigits(s) && (s[0] == '0' ==> |s| == 1)
  }

  /** The only spellings Redis accepts as an integer: no `+`, no leading zero, no `-0`. */
  predicate CanonicalInteger(s: string)
  {
    CanonicalNatural(s) || (|s| > 1 && s[0] == '-' && s[1] != '0' && CanonicalNatural(s[1..]))
  }

  /** Redis's reading of a stored string as a signed 64-bit integer (`INCR`, `INCRBY`). */
  function RedisInt(s: string): Option<int>
  {
    if !CanonicalInteger(s) then None
    else
      var v: int := if s[0] == '-' then 0 - DigitsValue(s[1..]) else DigitsValue(s);
      if InInt64(v) then Some(v) else None
  }

  lemma {:induction false} NaturalShape(n: nat)
    ensures CanonicalNatural(Natural(n))
    ensures DigitsValue(Natural(n)) == n
    decreases n
  {
    if n >= 10 {
      NaturalShape(n / 10);
      var s := Natural(n);
      assert s[..|s| - 1] == Natural(n / 10);
      assert s[0] == Natural(n / 10)[0];
    }
  }

  /** A string of digits not starting with 0 is worth at least 1. */
  lemma {:induction false} LeadingDigitPositive(s: string)
    requires |s| > 0 && AllDigits(s) && s[0] != '0'
    ensures DigitsValue(s) >= 1
    decreases |s|
  {
    if |s| > 1 {
      LeadingDigitPositive(s[..|s| - 1]);
    }
  }

  lemma {:induction false} NaturalOfCanonical(s: string)
    requires CanonicalNatural(s)
    ensures Natural(DigitsValue(s)) == s
    decreases |s|
  {
    if |s| > 1 {
      var p := s[..|s| - 1];
      assert CanonicalNatural(p);
      NaturalOfCanonical(p);
      LeadingDigitPositive(p);
      var v := DigitsValue(s);
      assert v / 10 == DigitsValue(p) && v % 10 == DigitOf(s[|s| - 1]);
      assert s == p + [s[|s| - 1]];
    }
  }

  /** `int(str(n)) == n`. */
  lemma ParseIntOfDecimal(n: int)
    ensures ParseInt(Decimal(n)) == Some(n)
  {
    if n < 0 {
      NaturalShape(-n);
      assert Decimal(n)[1..] == Natural(-n);
    } else {
      NaturalShape(n);
    }
  }

  /** Redis accepts exactly the decimal spellings of 64-bit integers. */
  lemma RedisIntExactlyDecimal(s: string, n: int)
    ensures RedisInt(s) == Some(n) <==> s == Decimal(n) && InInt64(n)
  {
    if s == Decimal(n) && InInt64(n) {
      DecimalIsRedisInt(n);
    }
    if RedisInt(s) == Some(n) {
      RedisIntIsDecimal(s);
    }
  }

  lemma DecimalIsRedisInt(n: int)
    requires InInt64(n)
    ensures RedisInt(Decimal(n)) == Some(n)
  {
    var s := Decimal(n);
    if n < 0 {
      NaturalShape(-n);
      assert s[1..] == Natural(-n);
      LeadingDigitPositive(s[1..]);
      assert CanonicalInteger(s);
    } else {
      NaturalShape(n);
    }
  }

  lemma RedisIntIsDecimal(s: string)
    requires RedisInt(s).Some?
    ensures s == Decimal(RedisInt(s).value)
  {
    if s[0] == '-' {
      var digits := s[1..];
      assert CanonicalNatural(digits);
      NaturalOfCanonical(digits);
      LeadingDigitPositive(digits);
      assert s == "-" + digits;
    } else {
      NaturalOfCanonical(s);
    }
  }

  /** `int(x)` of a float in Python truncates toward zero. */
  function TruncDiv(a: int, b: int): (q: int)
    requires b > 0
    ensures a >= 0 ==> q == a / b
    ensures a < 0 ==> q <= 0
  {
    if a >= 0 then a / b else -((-a) / b)
  }
}
