/** Upper-case hexadecimal text as Rust's `format!` writes it with `{:X}`
    and `{:0NX}`: the minimal digit string of a number, left-padded with zeros
    to a minimum width. `HexValue` reads such a string back, and the round
    trip through it is proved. */
module Hex {

  const DIGITS: string := "0123456789ABCDEF"

  /** 16^n: the bound below which a number fits in `n` digits. */
  function Pow16(n: nat): (r: nat)
    ensures r >= 1
    ensures n >= 1 ==> r >= 16
    ensures n <= 4 ==> r == [0x1, 0x10, 0x100, 0x1000, 0x1_0000][n]
  {
    if n == 0 then 1 else 16 * Pow16(n - 1)
  }

  /** One upper-case hexadecimal digit. */
  function HexDigit(d: nat): (c: char)
    requires d < 16
    ensures IsHexDigit(c)
  {
    DIGITS[d]
  }

  /** Every character of `s` is an upper-case hexadecimal digit. */
  predicate AllHex(s: string) {
    forall i :: 0 <= i < |s| ==> IsHexDigit(s[i])
  }

  predicate IsHexDigit(c: char) {
    '0' <= c <= '9' || 'A' <= c <= 'F'
  }

  /** The value of one upper-case hexadecimal digit. */
  function DigitValue(c: char): (d: nat)
    requires IsHexDigit(c)
    ensures d < 16
  {
    if c <= '9' then c as int - '0' as int else c as int - 'A' as int + 10
  }

  /** `{:X}`: the digits of `v` without leading zeros ("0" for zero). */
  function Digits(v: nat): (s: string)
    ensures |s| >= 1
    ensures AllHex(s)
    decreases v
  {
    if v < 16 then [HexDigit(v)] else Digits(v / 16) + [HexDigit(v % 16)]
  }

  /** `{:0wX}`: the digits of `v`, left-padded with zeros to at least `width`. */
  function Padded(v: nat, width: nat): (s: string)
    ensures AllHex(s)
  {
    var digits := Digits(v);
    Zeros(width - |digits|) + digits
  }

  function Zeros(n: int): (s: string)
    ensures |s| == if n < 0 then 0 else n
    ensures forall i :: 0 <= i < |s| ==> s[i] == '0'
    decreases n
  {
    if n <= 0 then "" else Zeros(n - 1) + "0"
  }

  /** The number a string of hexadecimal digits stands for, most
      significant digit first; the empty string stands for zero. */
  function HexValue(s: string): nat
    requires AllHex(s)
  {
    if |s| == 0 then 0 else HexValue(s[..|s| - 1]) * 16 + DigitValue(s[|s| - 1])
  }

  // ---------------------------------------------------------------------------
  // Properties

  lemma DigitRoundTrip(d: nat)
    requires d < 16
    ensures DigitValue(HexDigit(d)) == d
  {
    assert DIGITS[d] == "0123456789ABCDEF"[d];
  }

  /** Reading back the minimal digits of `v` gives `v`. */
  lemma {:induction false} DigitsRoundTrip(v: nat)
    ensures HexValue(Digits(v)) == v
    decreases v
  {
    DigitRoundTrip(v % 16);
    if v >= 16 {
      var s := Digits(v);
      assert s[..|s| - 1] == Digits(v / 16) && s[|s| - 1] == HexDigit(v % 16);
      DigitsRoundTrip(v / 16);
      assert HexValue(s) == (v / 16) * 16 + v % 16;
    } else {
      assert Digits(v) == [HexDigit(v)];
      assert Digits(v)[..0] == "";
    }
  }

  /** Leading zeros do not change the value read. */
  lemma {:induction false} ZerosDoNotCount(n: int, s: string)
    requires AllHex(s)
    ensures HexValue(Zeros(n) + s) == HexValue(s)
    decreases |s|
  {
    if |s| == 0 {
      ZerosValue(n);
      assert Zeros(n) + s == Zeros(n);
    } else {
      var init := s[..|s| - 1];
      ZerosDoNotCount(n, init);
      assert (Zeros(n) + s)[..|Zeros(n) + s| - 1] == Zeros(n) + init;
    }
  }

  lemma {:induction false} ZerosValue(n: int)
    ensures HexValue(Zeros(n)) == 0
    decreases n
  {
    if n > 0 {
      assert Zeros(n)[..|Zeros(n)| - 1] == Zeros(n - 1);
      ZerosValue(n - 1);
    }
  }

  /** The round trip of `{:0wX}`: reading the padded text back gives `v`. */
  lemma PaddedRoundTrip(v: nat, width: nat)
    ensures HexValue(Padded(v, width)) == v
  {
    ZerosDoNotCount(width - |Digits(v)|, Digits(v));
    DigitsRoundTrip(v);
  }

  /** `v` has at most `n` digits exactly when it is below 16^n. */
  lemma {:induction false} DigitsLength(v: nat, n: nat)
    requires n >= 1
    ensures |Digits(v)| <= n <==> v < Pow16(n)
    decreases v
  {
    if v >= 16 {
      if n == 1 {
        assert |Digits(v)| == |Digits(v / 16)| + 1;
      } else {
        DigitsLength(v / 16, n - 1);
      }
    }
  }

  /** `{:0wX}` writes exactly `width` digits when `v` fits in them, and
      otherwise all of the digits of `v`: the width is a minimum, not a limit. */
  lemma PaddedLength(v: nat, width: nat)
    requires width >= 1
    ensures v < Pow16(width) ==> |Padded(v, width)| == width
    ensures v >= Pow16(width) ==> Padded(v, width) == Digits(v) && |Padded(v, width)| > width
  {
    DigitsLength(v, width);
  }

  /** Two-digit text is the byte it stands for. */
  lemma ByteText(v: nat)
    requires v < 0x100
    ensures |Padded(v, 2)| == 2 && HexValue(Padded(v, 2)) == v
  {
    PaddedLength(v, 2);
    PaddedRoundTrip(v, 2);
  }

  /** Four-digit text is the word it stands for. */
  lemma WordText(v: nat)
    requires v < 0x1_0000
    ensures |Padded(v, 4)| == 4 && HexValue(Padded(v, 4)) == v
  {
    PaddedLength(v, 4);
    PaddedRoundTrip(v, 4);
  }

  /** Reading a concatenation: the digits of the tail shift the head left. */
  lemma {:induction false} HexValueConcat(s: string, t: string)
    requires AllHex(s)
    requires AllHex(t)
    ensures HexValue(s + t) == HexValue(s) * Pow16(|t|) + HexValue(t)
    decreases |t|
  {
    if |t| == 0 {
      assert s + t == s;
    } else {
      var init := t[..|t| - 1];
      LastDigit(s, t);
      HexValueConcat(s, init);
      ShiftOneDigit(HexValue(s), Pow16(|init|), HexValue(init), DigitValue(t[|t| - 1]));
    }
  }

  /** The last digit of `s + t` is the last digit of `t`. */
  lemma LastDigit(s: string, t: string)
    requires AllHex(s)
    requires AllHex(t)
    requires |t| >= 1
    ensures HexValue(s + t) == HexValue(s + t[..|t| - 1]) * 16 + DigitValue(t[|t| - 1])
  {
    assert (s + t)[..|s + t| - 1] == s + t[..|t| - 1];
  }

  lemma ShiftOneDigit(head: nat, p: nat, init: nat, last: nat)
    ensures (head * p + init) * 16 + last == head * (16 * p) + (init * 16 + last)
  {
  }
}
