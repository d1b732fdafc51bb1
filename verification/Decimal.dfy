/** 64-bit integers and their decimal text: `std::to_string` and `StringRef::getAsInteger`. */
module Decimal {
  import opened Wrappers

  const I64_MIN: int := -0x8000_0000_0000_0000
  const I64_MAX: int := 0x7FFF_FFFF_FFFF_FFFF

  type I64 = x: int | I64_MIN <= x <= I64_MAX

  predicate InI64(x: int) {
    I64_MIN <= x <= I64_MAX
  }

  predicate IsDigit(c: char) {
    '0' <= c <= '9'
  }

  function DigitChar(d: nat): char
    requires d < 10
  {
    '0' + d as char
  }

  function DigitValue(c: char): nat
    requires IsDigit(c)
  {
    (c - '0') as nat
  }

  function Digits(n: nat): (s: string)
    ensures s != [] && forall c :: c in s ==> IsDigit(c)
  {
    if n < 10 then [DigitChar(n)] else Digits(n / 10) + [DigitChar(n % 10)]
  }

  function ToText(i: int): (s: string)
    ensures s != [] && forall c :: c in s ==> IsDigit(c) || c == '-'
  {
    if i < 0 then "-" + Digits(-i) else Digits(i)
  }

  function ParseDigits(s: string): Option<nat> {
    if s == [] || !IsDigit(s[|s| - 1]) then None
    else if |s| == 1 then Some(DigitValue(s[0]))
    else
      var high := ParseDigits(s[..|s| - 1]);
      if high.None? then None else Some(10 * high.value + DigitValue(s[|s| - 1]))
  }

  /** A decimal integer with an optional minus sign, in 64-bit range. */
  function ParseI64(s: string): Option<I64> {
    var magnitude := if s != [] && s[0] == '-' then ParseDigits(s[1..]) else ParseDigits(s);
    if magnitude.None? then None
    else
      var i: int := if s[0] == '-' then -(magnitude.value as int) else magnitude.value as int;
      if InI64(i) then Some(i) else None
  }

  lemma {:induction false} DigitsParse(n: nat)
    ensures ParseDigits(Digits(n)) == Some(n)
  {
    if n >= 10 {
      DigitsParse(n / 10);
      assert Digits(n)[..|Digits(n)| - 1] == Digits(n / 10);
    }
  }

  /** Reading back the text of a 64-bit integer gives the integer. */
  lemma TextParses(i: I64)
    ensures ParseI64(ToText(i)) == Some(i)
  {
    if i < 0 {
      var magnitude := -(i as int);
      DigitsParse(magnitude);
      assert ToText(i)[1..] == Digits(magnitude);
    } else {
      DigitsParse(i);
      assert IsDigit(Digits(i)[0]);
    }
  }

  lemma TextInjective(i: I64, j: I64)
    requires ToText(i) == ToText(j)
    ensures i == j
  {
    TextParses(i);
    TextParses(j);
  }
}
