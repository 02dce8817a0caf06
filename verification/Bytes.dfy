/** Byte strings, decimal numbers and the concatenation of chunks. */
module Bytes {
  import opened Basics

  type byte = x: int | 0 <= x < 0x100

  const NEWLINE: byte := 0x0A
  const CARRIAGE_RETURN: byte := 0x0D

  function Concat<T>(chunks: seq<seq<T>>): seq<T> {
    if chunks == [] then [] else chunks[0] + Concat(chunks[1..])
  }

  lemma {:induction false} ConcatAppend<T>(chunks: seq<seq<T>>, chunk: seq<T>)
    ensures Concat(chunks + [chunk]) == Concat(chunks) + chunk
  {
    if chunks == [] {
      assert [chunk][1..] == [];
    } else {
      assert (chunks + [chunk])[1..] == chunks[1..] + [chunk];
      ConcatAppend(chunks[1..], chunk);
    }
  }

  /** The bytes of an ASCII text. */
  function Ascii(text: string): (r: seq<byte>)
    ensures |r| == |text|
  {
    seq(|text|, i requires 0 <= i < |text| => if text[i] as int < 0x80 then text[i] as int else 0x3F)
  }

  function Decimal(n: nat): (digits: string)
    ensures digits != []
  {
    var digit := ['0' + (n % 10) as char];
    if n < 10 then digit else Decimal(n / 10) + digit
  }

  predicate IsDigit(c: char) {
    '0' <= c <= '9'
  }

  /** The number that some digits write. */
  function Value(digits: string): nat {
    if digits == "" || !IsDigit(digits[|digits| - 1]) then 0
    else 10 * Value(digits[..|digits| - 1]) + (digits[|digits| - 1] as int - '0' as int)
  }

  /** A number can be read back from its digits. */
  lemma {:induction false} DecimalValue(n: nat)
    ensures Value(Decimal(n)) == n && forall i :: 0 <= i < |Decimal(n)| ==> IsDigit(Decimal(n)[i])
  {
    var digit := ['0' + (n % 10) as char];
    if n < 10 {
      assert digit[..0] == "";
    } else {
      DecimalValue(n / 10);
      assert Decimal(n)[..|Decimal(n)| - 1] == Decimal(n / 10);
    }
  }

  /** The number of leading digits. */
  function DigitRun(text: string): nat {
    if text == "" || !IsDigit(text[0]) then 0 else 1 + DigitRun(text[1..])
  }

  lemma {:induction false} DigitRunIs(digits: string, rest: string)
    requires forall i :: 0 <= i < |digits| ==> IsDigit(digits[i])
    requires rest != "" && !IsDigit(rest[0])
    ensures DigitRun(digits + rest) == |digits|
  {
    if digits == "" {
      assert digits + rest == rest;
    } else {
      assert (digits + rest)[1..] == digits[1..] + rest;
      DigitRunIs(digits[1..], rest);
    }
  }

  /** Two numbers in front of something that is no digit. */
  lemma SameNumber(m: nat, n: nat, p: string, q: string)
    requires p != "" && q != "" && !IsDigit(p[0]) && !IsDigit(q[0])
    requires Decimal(m) + p == Decimal(n) + q
    ensures m == n && p == q
  {
    hide Decimal, Value, DigitRun;
    var (a, b) := (Decimal(m), Decimal(n));
    DecimalValue(m);
    DecimalValue(n);
    DigitRunIs(a, p);
    DigitRunIs(b, q);
    assert a == (a + p)[..|a|] && b == (b + q)[..|b|];
    SameBehind(a, p, q);
  }

  lemma SameBehind(front: string, p: string, q: string)
    requires front + p == front + q
    ensures p == q
  {
    assert p == (front + p)[|front|..] && q == (front + q)[|front|..];
  }

  lemma SameBefore(p: string, q: string, back: string)
    requires p + back == q + back
    ensures p == q
  {
    assert p == (p + back)[..|p|] && q == (q + back)[..|q|];
  }

  predicate IsAscii(text: string) {
    forall i :: 0 <= i < |text| ==> text[i] as int < 0x80
  }

  lemma AsciiDigits(n: nat)
    ensures IsAscii(Decimal(n))
  {
    hide Decimal;
    DecimalValue(n);
  }

  lemma SameAscii(p: string, q: string)
    requires IsAscii(p) && IsAscii(q) && Ascii(p) == Ascii(q)
    ensures p == q
  {
    forall i | 0 <= i < |p|
      ensures p[i] == q[i]
    {
      assert Ascii(p)[i] == p[i] as int && Ascii(q)[i] == q[i] as int;
    }
  }

  /** A number and a text between fixed texts can be read back. */
  lemma SameParts(front: string, m: nat, n: nat, middle: string, p: string, q: string, back: string)
    requires IsAscii(front) && IsAscii(middle) && IsAscii(p) && IsAscii(q) && IsAscii(back)
    requires middle != "" && !IsDigit(middle[0])
    requires Ascii(front + Decimal(m) + middle + p + back) == Ascii(front + Decimal(n) + middle + q + back)
    ensures m == n && p == q
  {
    hide Ascii, Decimal, IsDigit;
    var (r, s) := (middle + p + back, middle + q + back);
    AsciiDigits(m);
    AsciiDigits(n);
    assert front + Decimal(m) + middle + p + back == front + (Decimal(m) + r);
    assert front + Decimal(n) + middle + q + back == front + (Decimal(n) + s);
    SameAscii(front + (Decimal(m) + r), front + (Decimal(n) + s));
    SameBehind(front, Decimal(m) + r, Decimal(n) + s);
    SameNumber(m, n, r, s);
    SameBefore(middle + p, middle + q, back);
    SameBehind(middle, p, q);
  }

  function Pow10(k: nat): nat {
    if k == 0 then 1 else 10 * Pow10(k - 1)
  }

  /** A number below ten to the k has at most k digits. */
  lemma {:induction false} DecimalLength(n: nat, k: nat)
    requires k >= 1 && n < Pow10(k)
    ensures |Decimal(n)| <= k
  {
    if n >= 10 {
      assert n / 10 < Pow10(k - 1);
      DecimalLength(n / 10, k - 1);
    }
  }

  lemma U64Digits(n: nat)
    requires n <= U64_MAX
    ensures |Decimal(n)| <= 20
  {
    assert Pow10(4) == 10_000;
    assert Pow10(8) == 1_0000_0000;
    assert Pow10(12) == 1_0000_0000_0000;
    assert Pow10(16) == 1_0000_0000_0000_0000;
    assert Pow10(20) == 1_0000_0000_0000_0000_0000;
    DecimalLength(n, 20);
  }
}
