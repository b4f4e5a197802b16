/** Decimal text of numbers: `std::to_string` on unsigned values and `std::stoi`. */
module Decimal {
  import opened Basics
  import Text

  predicate IsDigit(c: char) {
    '0' <= c <= '9'
  }

  predicate AllDigits(s: string) {
    forall k :: 0 <= k < |s| ==> IsDigit(s[k])
  }

  function DigitChar(d: nat): (c: char)
    requires d < 10
    ensures IsDigit(c)
  {
    ('0' as int + d) as char
  }

  function DigitValue(c: char): (d: nat)
    requires IsDigit(c)
    ensures d < 10 && DigitChar(d) == c
  {
    c as int - '0' as int
  }

  /** `std::to_string` of an unsigned integer: shortest decimal text, no sign, no leading zero. */
  function ToString(n: nat): (s: string)
    ensures s != [] && AllDigits(s)
    ensures |s| > 1 ==> s[0] != '0'
  {
    if n < 10 then [DigitChar(n)] else ToString(n / 10) + [DigitChar(n % 10)]
  }

  /** The number a digit string denotes, most significant digit first. */
  function Value(s: string): (v: nat)
    requires AllDigits(s)
  {
    if s == [] then 0 else Value(s[..|s| - 1]) * 10 + DigitValue(s[|s| - 1])
  }

  /** Reading the decimal text back gives the number. */
  lemma {:induction false} ValueOfToString(n: nat)
    ensures Value(ToString(n)) == n
  {
    if n >= 10 {
      var s := ToString(n);
      assert s[..|s| - 1] == ToString(n / 10);
      ValueOfToString(n / 10);
    }
  }

  /** A digit string that does not start with a redundant zero is the text of its value. */
  lemma {:induction false} ToStringOfValue(s: string)
    requires s != [] && AllDigits(s) && (|s| > 1 ==> s[0] != '0')
    ensures ToString(Value(s)) == s
  {
    if |s| > 1 {
      var front := s[..|s| - 1];
      assert front[0] == s[0];
      LeadingDigitBound(front);
      ToStringOfValue(front);
      var v := Value(s);
      assert v / 10 == Value(front) && v % 10 == DigitValue(s[|s| - 1]);
    }
  }

  /** A number is at least its leading digit. */
  lemma {:induction false} LeadingDigitBound(s: string)
    requires s != [] && AllDigits(s)
    ensures Value(s) >= DigitValue(s[0])
  {
    if |s| > 1 {
      var front := s[..|s| - 1];
      assert front[0] == s[0];
      LeadingDigitBound(front);
    }
  }

  function Pow10(k: nat): (p: nat)
    ensures p >= 1
  {
    if k == 0 then 1 else 10 * Pow10(k - 1)
  }

  /** A number below 10^k has at most k digits. */
  lemma {:induction false} ToStringLength(n: nat, k: nat)
    requires k >= 1 && n < Pow10(k)
    ensures |ToString(n)| <= k
  {
    if n >= 10 {
      assert k >= 2;
      assert n / 10 < Pow10(k - 1);
      ToStringLength(n / 10, k - 1);
    }
  }

  lemma {:induction false} Pow10Add(a: nat, b: nat)
    ensures Pow10(a + b) == Pow10(a) * Pow10(b)
  {
    if a > 0 {
      Pow10Add(a - 1, b);
    }
  }

  /** Every `size_t` has at most 20 decimal digits. */
  lemma SizeToStringLength(n: usize)
    ensures |ToString(n)| <= 20
  {
    assert Pow10(5) == 100000;
    Pow10Add(5, 5);
    Pow10Add(10, 10);
    ToStringLength(n, 20);
  }

  /** Number of leading decimal digits of `s`. */
  function DigitRun(s: string): (k: nat)
    ensures k <= |s|
    ensures forall j :: 0 <= j < k ==> IsDigit(s[j])
    ensures k < |s| ==> !IsDigit(s[k])
  {
    if s == [] || !IsDigit(s[0]) then 0 else 1 + DigitRun(s[1..])
  }

  /** The digit run of a digit string followed by a non-digit is exactly that digit string. */
  lemma {:induction false} DigitRunOfPrefix(d: string, rest: string)
    requires AllDigits(d)
    requires rest == [] || !IsDigit(rest[0])
    ensures DigitRun(d + rest) == |d|
  {
    if d != [] {
      assert (d + rest)[1..] == d[1..] + rest;
      DigitRunOfPrefix(d[1..], rest);
    }
  }

  datatype StoiError = InvalidArgument | OutOfRange

  const IntMin: int := -0x8000_0000
  const IntMax: int := 0x7FFF_FFFF

  /** `std::stoi` in base 10: skips leading whitespace, takes an optional sign and then the longest
      run of digits; fails with `invalid_argument` when there is no digit and with `out_of_range`
      when the value does not fit a 32-bit `int`. Text after the digits is ignored. */
  function Stoi(s: string): (r: Result<int, StoiError>)
    ensures r.Success? ==> IntMin <= r.value <= IntMax
  {
    StoiAfterWhitespace(s[Text.LeadingWhitespace(s)..])
  }

  /** The part of `std::stoi` that reads the sign and the digits. */
  function StoiAfterWhitespace(t: string): (r: Result<int, StoiError>)
    ensures r.Success? ==> IntMin <= r.value <= IntMax
  {
    var signed := t != [] && (t[0] == '-' || t[0] == '+');
    var negative := signed && t[0] == '-';
    var u := if signed then t[1..] else t;
    var k := DigitRun(u);
    if k == 0 then Failure(InvalidArgument)
    else
      var magnitude := Value(u[..k]);
      var v: int := if negative then -(magnitude as int) else magnitude;
      if v < IntMin || v > IntMax then Failure(OutOfRange) else Success(v)
  }

  /** `stoi` reads back what `to_string` wrote, after any leading whitespace and before any
      non-digit suffix. */
  lemma StoiOfToString(ws: string, n: nat, rest: string)
    requires Text.AllWhitespace(ws)
    requires n <= IntMax
    requires rest == [] || !IsDigit(rest[0])
    ensures Stoi(ws + ToString(n) + rest) == Success(n)
  {
    var d := ToString(n);
    assert ws + d + rest == ws + (d + rest);
    assert (d + rest)[0] == d[0];
    StoiSkipsWhitespace(ws, d + rest);
    ValueOfToString(n);
    StoiOfDigits(d, rest);
  }

  /** An unsigned digit string that fits an `int`, followed by a non-digit, reads as its value. */
  lemma StoiOfDigits(d: string, rest: string)
    requires d != [] && AllDigits(d) && Value(d) <= IntMax
    requires rest == [] || !IsDigit(rest[0])
    ensures Stoi(d + rest) == Success(Value(d))
  {
    var t := d + rest;
    assert t[0] == d[0];
    assert Text.LeadingWhitespace(t) == 0;
    assert t[0..] == t;
    DigitRunOfPrefix(d, rest);
    assert t[..|d|] == d;
  }

  /** What `stoi` reads does not depend on the whitespace before it. */
  lemma StoiSkipsWhitespace(ws: string, t: string)
    requires Text.AllWhitespace(ws)
    requires t == [] || !Text.IsWhitespace(t[0])
    ensures Stoi(ws + t) == Stoi(t)
  {
    var s := ws + t;
    Text.LeadingWhitespaceOfPrefix(ws, t);
    Text.LeadingWhitespaceOfPrefix([], t);
    assert [] + t == t;
    assert s[|ws|..] == t == t[0..];
  }

  /** Text without any digit is refused. */
  lemma StoiRefusesNoDigits(s: string)
    requires forall k :: 0 <= k < |s| ==> !IsDigit(s[k])
    ensures Stoi(s) == Failure(InvalidArgument)
  {
  }
}
