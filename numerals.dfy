/**
 * Signed decimal text, as UART0_WriteInt in main.c emits it: a '-' for a
 * negative value, then the digits of the magnitude, most significant first,
 * without leading zeros; zero is the single character '0'.
 *
 * ParseDecimal is the reference reader for that text. It accepts exactly the
 * canonical numerals, so DecimalText and ParseDecimal are inverse bijections.
 */
module Numerals {
  import opened Wrappers

  predicate IsDigit(c: char) {
    '0' <= c <= '9'
  }

  predicate AllDigits(s: string) {
    forall i :: 0 <= i < |s| ==> IsDigit(s[i])
  }

  /** A positive numeral: one or more digits, the first one not '0'. */
  predicate IsNumeral(s: string) {
    |s| > 0 && s[0] != '0' && AllDigits(s)
  }

  /** The character `'0' + d` of main.c:78. */
  function DigitChar(d: int): (c: char)
    requires 0 <= d < 10
    ensures IsDigit(c) && c as int - '0' as int == d
  {
    ('0' as int + d) as char
  }

  function DigitValue(c: char): int
    requires IsDigit(c)
  {
    c as int - '0' as int
  }

  function Pow10(k: nat): (p: nat)
    ensures p >= 1
  {
    if k == 0 then 1 else 10 * Pow10(k - 1)
  }

  /** The value of a digit string read most significant digit first. */
  function DigitsValue(s: string): (v: nat)
    requires AllDigits(s)
    ensures v < Pow10(|s|)
  {
    if s == [] then 0
    else DigitsValue(s[..|s| - 1]) * 10 + DigitValue(s[|s| - 1])
  }

  /** The decimal digits of n, most significant first; empty for 0. */
  function Digits(n: nat): (s: string)
    ensures (s == []) == (n == 0)
  {
    if n == 0 then [] else Digits(n / 10) + [DigitChar(n % 10)]
  }

  /** The digits of a positive value form a numeral: digits only, no leading zero. */
  lemma {:induction false} DigitsIsNumeral(n: nat)
    ensures AllDigits(Digits(n))
    ensures n > 0 ==> IsNumeral(Digits(n))
  {
    if n > 0 {
      DigitsIsNumeral(n / 10);
    }
  }

  /** The text UART0_WriteInt sends for num (main.c:62-85). */
  function DecimalText(num: int): (t: string)
    ensures |t| > 0
    ensures t[0] == '-' <==> num < 0
  {
    DigitsIsNumeral(if num < 0 then -num else num);
    if num == 0 then "0"
    else if num < 0 then "-" + Digits(-num)
    else Digits(num)
  }

  /** Reads a canonical signed decimal numeral; None for anything else. */
  function ParseDecimal(s: string): Option<int> {
    if s == "0" then Some(0)
    else if |s| > 0 && s[0] == '-' then
      if IsNumeral(s[1..]) then Some(-(DigitsValue(s[1..]) as int)) else None
    else if IsNumeral(s) then Some(DigitsValue(s))
    else None
  }

  /** The reversal of a sequence. */
  function Rev<T>(s: seq<T>): (r: seq<T>)
    ensures |r| == |s|
  {
    if s == [] then [] else Rev(s[1..]) + [s[0]]
  }

  lemma {:induction false} RevSnoc<T>(s: seq<T>, x: T)
    ensures Rev(s + [x]) == [x] + Rev(s)
  {
    if s == [] {
      assert Rev([x]) == Rev([x][1..]) + [x];
    } else {
      assert (s + [x])[1..] == s[1..] + [x];
      RevSnoc(s[1..], x);
    }
  }

  lemma {:induction false} DigitsValueOfDigits(n: nat)
    ensures AllDigits(Digits(n)) && DigitsValue(Digits(n)) == n
  {
    DigitsIsNumeral(n);
    if n > 0 {
      var s := Digits(n);
      assert s[..|s| - 1] == Digits(n / 10);
      DigitsValueOfDigits(n / 10);
    }
  }

  lemma {:induction false} DigitsOfDigitsValue(s: string)
    requires IsNumeral(s)
    ensures Digits(DigitsValue(s)) == s
  {
    var init := s[..|s| - 1];
    var v := DigitsValue(s);
    var d := DigitValue(s[|s| - 1]);
    assert v == DigitsValue(init) * 10 + d;
    assert v / 10 == DigitsValue(init) && v % 10 == d;
    if init == [] {
      assert v == d && d != 0;
      assert Digits(v) == Digits(0) + [DigitChar(d)];
    } else {
      assert IsNumeral(init);
      DigitsOfDigitsValue(init);
      assert DigitsValue(init) > 0;
      assert s == init + [s[|s| - 1]];
    }
  }

  /** Every value is written back by ParseDecimal (main.c:64-84). */
  lemma DecimalRoundTrip(num: int)
    ensures ParseDecimal(DecimalText(num)) == Some(num)
  {
    if num < 0 {
      var t := DecimalText(num);
      assert t[1..] == Digits(-num);
      DigitsIsNumeral(-num);
      DigitsValueOfDigits(-num);
    } else if num > 0 {
      DigitsIsNumeral(num);
      DigitsValueOfDigits(num);
    }
  }

  /** Whatever ParseDecimal accepts is the text the firmware sends for it. */
  lemma ParseDecimalCanonical(s: string, num: int)
    requires ParseDecimal(s) == Some(num)
    ensures DecimalText(num) == s
  {
    if s == "0" {
    } else if s[0] == '-' {
      DigitsOfDigitsValue(s[1..]);
      assert DigitsValue(s[1..]) > 0;
      assert s == "-" + s[1..];
    } else {
      DigitsOfDigitsValue(s);
    }
  }

  /** DecimalText and ParseDecimal are inverse to each other. */
  lemma DecimalBijection(s: string, num: int)
    ensures ParseDecimal(s) == Some(num) <==> s == DecimalText(num)
  {
    if ParseDecimal(s) == Some(num) {
      ParseDecimalCanonical(s, num);
    }
    if s == DecimalText(num) {
      DecimalRoundTrip(num);
    }
  }

  /**
   * Zero alone is sent as "0" (main.c:64-68); a negative value is '-' and the
   * text of its magnitude, others carry no sign (main.c:71-75).
   */
  lemma DecimalSign(num: int)
    ensures DecimalText(num) == "0" <==> num == 0
    ensures |DecimalText(num)| > 0
    ensures DecimalText(num)[0] == '-' <==> num < 0
    ensures num < 0 ==> DecimalText(num) == "-" + DecimalText(-num)
    ensures num >= 0 ==> AllDigits(DecimalText(num))
  {
    DigitsIsNumeral(if num < 0 then -num else num);
  }

  /** The number of digits sent is the number of decimal digits of the magnitude (main.c:76-84). */
  lemma {:induction false} DigitsCount(n: nat)
    requires n > 0
    ensures Pow10(|Digits(n)| - 1) <= n < Pow10(|Digits(n)|)
  {
    if n >= 10 {
      DigitsCount(n / 10);
    }
  }

  /** A value below 10^k has at most k digits. */
  lemma {:induction false} DigitsBound(n: nat, k: nat)
    requires n < Pow10(k)
    ensures |Digits(n)| <= k
  {
    if n > 0 {
      assert k > 0;
      DigitsBound(n / 10, k - 1);
    }
  }

  /** Every magnitude of a C int other than INT_MIN fits the ten-character buffer (main.c:69). */
  lemma DigitsFitBuffer(n: nat)
    requires n <= 0x7fff_ffff
    ensures |Digits(n)| <= 10
  {
    assert Pow10(10) == 10_000_000_000 by {
      assert Pow10(5) == 100_000;
    }
    DigitsBound(n, 10);
  }
}
