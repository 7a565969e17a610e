/**
 * UART0 transmit side of main.c (lines 47-85). The data register is modelled
 * by the sequence of every character written to it, oldest first; the
 * busy-wait on the FIFO-full flag is not modelled.
 */
module Uart {
  import opened Numerals

  const NUL: char := '\0'

  /** The characters of a C string: those before the first NUL. */
  function CStringContents(str: string): (r: string)
    ensures r <= str && NUL !in r
    ensures |r| < |str| ==> str[|r|] == NUL
  {
    if str == [] || str[0] == NUL then [] else [str[0]] + CStringContents(str[1..])
  }

  /** The characters of a literal with its terminator are the literal itself. */
  lemma {:induction false} CStringOfLiteral(s: string)
    requires NUL !in s
    ensures CStringContents(s + [NUL]) == s
  {
    if s != [] {
      assert (s + [NUL])[1..] == s[1..] + [NUL];
      CStringOfLiteral(s[1..]);
    }
  }

  /** One pass of WriteInt's first loop keeps the digits still to come and those buffered equal to Digits(m). */
  lemma DigitsStep(m: nat, n: nat, done: string)
    requires n > 0 && Digits(m) == Digits(n) + Rev(done)
    ensures |done| < |Digits(m)|
    ensures Digits(m) == Digits(n / 10) + Rev(done + [DigitChar(n % 10)])
  {
    var c := DigitChar(n % 10);
    RevSnoc(done, c);
    assert Digits(n) == Digits(n / 10) + [c];
    Regroup(Digits(n / 10), c, Rev(done), Digits(m), Rev(done + [c]));
  }

  /**
   * WriteInt's sign step: after the '-' (if any) is sent, the digits of the
   * magnitude complete the decimal text, and they fit the ten-character buffer.
   */
  lemma SignedText(num: int, before: string, signed: string)
    requires num != 0 && -0x7fff_ffff <= num <= 0x7fff_ffff
    requires signed == before + (if num < 0 then "-" else "")
    ensures before + DecimalText(num) == signed + Digits(if num < 0 then -num else num)
    ensures |Digits(if num < 0 then -num else num)| <= 10
  {
    DigitsFitBuffer(if num < 0 then -num else num);
    if num < 0 {
      Assoc(before, "-", Digits(-num));
    }
  }

  lemma Assoc(a: string, b: string, c: string)
    ensures (a + b) + c == a + (b + c)
  {
  }

  lemma Regroup(a: string, c: char, r: string, m: string, r2: string)
    requires m == (a + [c]) + r && r2 == [c] + r
    ensures m == a + r2
  {
  }

  /** One pass of WriteInt's second loop sends the next buffered digit. */
  lemma SendStep(signed: string, sent: string, digits: string, i: nat)
    requires i < |digits| && sent == signed + Rev(digits[i + 1..])
    ensures sent + [digits[i]] == signed + Rev(digits[i..])
  {
    assert digits[i..][1..] == digits[i + 1..];
  }

  /** A C string literal: the characters, then the terminator. */
  function CString(s: string): (str: string)
    requires NUL !in s
    ensures NUL in str && CStringContents(str) == s
  {
    CStringOfLiteral(s);
    s + [NUL]
  }

  class Uart0 {
    /** Every character written to UART0_DR_R, in order. */
    var sent: string

    constructor ()
      ensures sent == []
    {
      sent := [];
    }

    /** UART0_WriteChar (main.c:47-52). */
    method WriteChar(c: char)
      modifies this
      ensures sent == old(sent) + [c]
    {
      sent := sent + [c];
    }

    /** UART0_WriteString (main.c:54-60): every character before the terminator. */
    method WriteString(str: string)
      requires NUL in str
      modifies this
      ensures sent == old(sent) + CStringContents(str)
    {
      var p := 0;
      while str[p] != NUL
        invariant 0 <= p < |str| && NUL in str[p..]
        invariant NUL !in str[..p]
        invariant sent == old(sent) + str[..p]
        decreases |str| - p
      {
        assert str[p..] == [str[p]] + str[p + 1..];
        assert str[..p + 1] == str[..p] + [str[p]];
        WriteChar(str[p]);
        p := p + 1;
      }
    }

    /**
     * UART0_WriteInt (main.c:62-85). The digits go least significant first
     * into a ten-character buffer and are then sent from the last one back.
     * C's `-num` is undefined for INT_MIN, so that one value is excluded.
     */
    method WriteInt(num: int)
      requires -0x7fff_ffff <= num <= 0x7fff_ffff
      modifies this
      ensures sent == old(sent) + DecimalText(num)
    {
      if num == 0 {
        WriteChar('0');
        return;
      }
      var buffer := new char[10];
      var n := num;
      if n < 0 {
        WriteChar('-');
        n := -n;
      }
      SignedText(num, old(sent), sent);
      var len := BufferDigits(buffer, n);
      SendReversed(buffer, len);
    }

    /** The second loop of UART0_WriteInt (main.c:81-84): buffer[len - 1] down to buffer[0]. */
    method SendReversed(buffer: array<char>, len: nat)
      requires len <= buffer.Length
      modifies this
      ensures sent == old(sent) + Rev(buffer[..len])
    {
      ghost var digits := buffer[..len];
      var index := len - 1;
      while index >= 0
        invariant -1 <= index < len
        invariant buffer[..len] == digits
        invariant sent == old(sent) + Rev(digits[index + 1..])
      {
        SendStep(old(sent), sent, digits, index);
        WriteChar(buffer[index]);
        index := index - 1;
      }
      assert digits[0..] == digits;
    }
  }

  /**
   * The first loop of UART0_WriteInt (main.c:76-80): the digits of n, least
   * significant first, from buffer[0] on.
   */
  method BufferDigits(buffer: array<char>, n0: nat) returns (len: nat)
    requires buffer.Length == 10 && |Digits(n0)| <= 10
    modifies buffer
    ensures len <= buffer.Length && Rev(buffer[..len]) == Digits(n0)
  {
    var n := n0;
    len := 0;
    while n > 0
      invariant 0 <= len <= |Digits(n0)|
      invariant Digits(n0) == Digits(n) + Rev(buffer[..len])
    {
      ghost var done := buffer[..len];
      DigitsStep(n0, n, done);
      buffer[len] := DigitChar(n % 10);
      assert buffer[..len + 1] == done + [DigitChar(n % 10)];
      len := len + 1;
      n := n / 10;
    }
  }
}
