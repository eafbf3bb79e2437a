/**
 * The text conventions of the .NET runtime that the audio layer relies on:
 * lower-case hexadecimal (the digits of a Guid), decimal rendering of an
 * `int`, substring search (what a regular expression made of literal
 * alternatives decides) and `char.IsWhiteSpace`.
 */
module Text {

  // ---------------------------------------------------------------- hexadecimal

  function Pow16(width: nat): (p: nat)
    ensures p > 0
  {
    if width == 0 then 1 else 16 * Pow16(width - 1)
  }

  predicate IsHexDigit(c: char) {
    '0' <= c <= '9' || 'a' <= c <= 'f'
  }

  function HexValue(c: char): (n: nat)
    ensures n < 16
  {
    if '0' <= c <= '9' then c as int - '0' as int
    else if 'a' <= c <= 'f' then c as int - 'a' as int + 10
    else 0
  }

  /** The lower-case digit .NET writes for a nibble. */
  function HexDigit(n: nat): (c: char)
    requires n < 16
    ensures IsHexDigit(c) && HexValue(c) == n
  {
    if n < 10 then ('0' as int + n) as char else ('a' as int + n - 10) as char
  }

  /** `n` written with exactly `width` lower-case hex digits, most significant first. */
  function Hex(n: nat, width: nat): (s: string)
    requires n < Pow16(width)
    ensures |s| == width
    ensures forall i :: 0 <= i < |s| ==> IsHexDigit(s[i])
  {
    if width == 0 then [] else Hex(n / 16, width - 1) + [HexDigit(n % 16)]
  }

  /** The value of a string of hex digits, most significant first. */
  function ParseHex(s: string): (n: nat)
    ensures n < Pow16(|s|)
  {
    if s == [] then 0 else ParseHex(s[..|s| - 1]) * 16 + HexValue(s[|s| - 1])
  }

  lemma {:induction false} ParseHexRoundTrip(n: nat, width: nat)
    requires n < Pow16(width)
    ensures ParseHex(Hex(n, width)) == n
  {
    if width > 0 {
      var s := Hex(n, width);
      assert s[..|s| - 1] == Hex(n / 16, width - 1);
      ParseHexRoundTrip(n / 16, width - 1);
    }
  }

  lemma DivMod16(n: nat, q: nat, r: nat)
    requires n == 16 * q + r && r < 16
    ensures n / 16 == q && n % 16 == r
  {
  }

  /** Appending one digit to a value appends its character to the text. */
  lemma AppendDigit(hi: nat, w: nat, r: nat)
    requires hi < Pow16(w) && r < 16
    ensures 16 * hi + r < Pow16(w + 1)
    ensures Hex(16 * hi + r, w + 1) == Hex(hi, w) + [HexDigit(r)]
  {
    DivMod16(16 * hi + r, hi, r);
  }

  /** Four digits after a high part. */
  lemma AppendFourDigits(hi: nat, w: nat, d3: nat, d2: nat, d1: nat, d0: nat)
    requires hi < Pow16(w) && d3 < 16 && d2 < 16 && d1 < 16 && d0 < 16
    ensures 65536 * hi + 4096 * d3 + 256 * d2 + 16 * d1 + d0 < Pow16(w + 4)
    ensures Hex(65536 * hi + 4096 * d3 + 256 * d2 + 16 * d1 + d0, w + 4)
         == Hex(hi, w) + [HexDigit(d3), HexDigit(d2), HexDigit(d1), HexDigit(d0)]
  {
    AppendDigit(hi, w, d3);
    AppendDigit(16 * hi + d3, w + 1, d2);
    AppendDigit(256 * hi + 16 * d3 + d2, w + 2, d1);
    AppendDigit(4096 * hi + 256 * d3 + 16 * d2 + d1, w + 3, d0);
  }

  /**
   * Digits of a value split into a high part and a four-digit low part are the
   * two parts' digits, side by side.
   */
  lemma HexConcat4(hi: nat, w: nat, lo: nat)
    requires hi < Pow16(w) && lo < 0x1_0000
    ensures hi * 0x1_0000 + lo < Pow16(w + 4)
    ensures Hex(hi * 0x1_0000 + lo, w + 4) == Hex(hi, w) + Hex(lo, 4)
  {
    var q1, q2, q3 := lo / 16, lo / 0x100, lo / 0x1000;
    assert q1 / 16 == q2 && q2 / 16 == q3 && q3 < 16;
    assert lo == 4096 * q3 + 256 * (q2 % 16) + 16 * (q1 % 16) + lo % 16;
    AppendFourDigits(hi, w, q3, q2 % 16, q1 % 16, lo % 16);
    HexFourIsHex(lo);
  }

  /** Four hex digits spelled out one by one, without recursion on the width. */
  function HexFour(n: nat): (s: string)
    requires n < 0x1_0000
    ensures |s| == 4
  {
    [HexDigit(n / 0x1000), HexDigit(n / 0x100 % 16), HexDigit(n / 16 % 16), HexDigit(n % 16)]
  }

  lemma HexFourIsHex(n: nat)
    requires n < 0x1_0000
    ensures Hex(n, 4) == HexFour(n)
  {
    var q1, q2, q3 := n / 16, n / 0x100, n / 0x1000;
    assert q1 / 16 == q2 && q2 / 16 == q3 && q3 < 16;
    assert Hex(q3, 1) == [HexDigit(q3)];
    assert Hex(q2, 2) == [HexDigit(q3), HexDigit(q2 % 16)];
    assert Hex(q1, 3) == [HexDigit(q3), HexDigit(q2 % 16), HexDigit(q1 % 16)];
  }

  // ---------------------------------------------------------------- decimal

  predicate IsDecimalDigit(c: char) {
    '0' <= c <= '9'
  }

  function DigitChar(n: nat): (c: char)
    requires n < 10
    ensures IsDecimalDigit(c) && c as int - '0' as int == n
  {
    ('0' as int + n) as char
  }

  /** The decimal digits of `n` without leading zeros ("0" for zero). */
  function DecimalDigits(n: nat): (s: string)
    ensures |s| >= 1
    ensures forall i :: 0 <= i < |s| ==> IsDecimalDigit(s[i])
    ensures |s| > 1 ==> s[0] != '0'
  {
    if n < 10 then [DigitChar(n)] else DecimalDigits(n / 10) + [DigitChar(n % 10)]
  }

  /** What `int.ToString()` yields: an optional minus sign, then the digits. */
  function Decimal(i: int): (s: string)
  {
    if i < 0 then "-" + DecimalDigits(-i) else DecimalDigits(i)
  }

  function ParseDigits(s: string): nat {
    if s == [] then 0
    else ParseDigits(s[..|s| - 1]) * 10 + (if IsDecimalDigit(s[|s| - 1]) then s[|s| - 1] as int - '0' as int else 0)
  }

  function ParseDecimal(s: string): int {
    if |s| > 0 && s[0] == '-' then -(ParseDigits(s[1..]) as int) else ParseDigits(s)
  }

  lemma {:induction false} ParseDigitsRoundTrip(n: nat)
    ensures ParseDigits(DecimalDigits(n)) == n
  {
    if n >= 10 {
      var s := DecimalDigits(n);
      assert s[..|s| - 1] == DecimalDigits(n / 10);
      ParseDigitsRoundTrip(n / 10);
    }
  }

  /** Decimal rendering loses nothing: the text reads back as the same integer. */
  lemma DecimalRoundTrip(i: int)
    ensures ParseDecimal(Decimal(i)) == i
  {
    if i < 0 {
      ParseDigitsRoundTrip(-i);
      assert Decimal(i)[1..] == DecimalDigits(-i);
    } else {
      ParseDigitsRoundTrip(i);
    }
  }

  // ---------------------------------------------------------------- substrings

  /** `t` occurs in `s`, searched from the left. */
  predicate Contains(s: string, t: string)
    decreases |s|
  {
    |t| <= |s| && (s[..|t|] == t || (|s| > 0 && Contains(s[1..], t)))
  }

  /** `t` occurs in `s` starting at index `i`. */
  predicate OccursAt(s: string, t: string, i: int) {
    0 <= i <= |s| - |t| && s[i..i + |t|] == t
  }

  /** The search agrees with the positional definition of an occurrence, both ways. */
  lemma {:induction false} ContainsIsOccurrence(s: string, t: string)
    ensures Contains(s, t) <==> exists i :: OccursAt(s, t, i)
  {
    if |t| <= |s| && s[..|t|] == t {
      assert OccursAt(s, t, 0);
    } else if |t| <= |s| && |s| > 0 {
      ContainsIsOccurrence(s[1..], t);
      if Contains(s[1..], t) {
        var i :| OccursAt(s[1..], t, i);
        assert s[i + 1..i + 1 + |t|] == s[1..][i..i + |t|];
        assert OccursAt(s, t, i + 1);
      }
      if exists i :: OccursAt(s, t, i) {
        var i :| OccursAt(s, t, i);
        assert i != 0;
        assert s[1..][i - 1..i - 1 + |t|] == s[i..i + |t|];
        assert OccursAt(s[1..], t, i - 1);
      }
    }
  }

  // ---------------------------------------------------------------- white space

  /** `char.IsWhiteSpace`: the Unicode separators and the C0/C1 white-space controls. */
  predicate IsWhiteSpace(c: char) {
    || ('\U{0009}' <= c <= '\U{000D}')
    || c == ' ' || c == '\U{0085}' || c == '\U{00A0}' || c == '\U{1680}'
    || ('\U{2000}' <= c <= '\U{200A}')
    || c == '\U{2028}' || c == '\U{2029}' || c == '\U{202F}' || c == '\U{205F}' || c == '\U{3000}'
  }
}
