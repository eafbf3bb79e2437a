/**
 * System.Guid as the audio layer uses it: a 128-bit identifier, printed by
 * `ToString("D")` (also what string interpolation uses) and `ToString("B")`.
 * The 128 bits are kept as the five groups those formats print
 * (8, 4, 4, 4 and 12 hex digits), which is a one-to-one view of the value.
 */
module Guids {
  import opened Text

  datatype GuidBits = GuidBits(a: nat, b: nat, c: nat, d: nat, e: nat)

  type Guid = g: GuidBits
    | g.a < Pow16(8) && g.b < Pow16(4) && g.c < Pow16(4) && g.d < Pow16(4) && g.e < Pow16(12)
    witness GuidBits(0, 0, 0, 0, 0)

  /** `Guid.Empty`, the event context the session wrappers pass. */
  const Empty: Guid := GuidBits(0, 0, 0, 0, 0)

  /** `ToString("D")`: xxxxxxxx-xxxx-xxxx-xxxx-xxxxxxxxxxxx in lower case. */
  function FormatD(g: Guid): (s: string)
    ensures |s| == 36
    ensures s[8] == '-' && s[13] == '-' && s[18] == '-' && s[23] == '-'
  {
    Hex(g.a, 8) + "-" + Hex(g.b, 4) + "-" + Hex(g.c, 4) + "-" + Hex(g.d, 4) + "-" + Hex(g.e, 12)
  }

  /** `ToString("B")`: the "D" form in braces. */
  function FormatB(g: Guid): (s: string)
    ensures |s| == 38 && s[0] == '{' && s[37] == '}'
  {
    "{" + FormatD(g) + "}"
  }

  /** Reads the five groups of a "D" form back. */
  function ParseD(s: string): Guid
    requires |s| == 36
  {
    GuidBits(ParseHex(s[0..8]), ParseHex(s[9..13]), ParseHex(s[14..18]), ParseHex(s[19..23]), ParseHex(s[24..36]))
  }

  lemma FormatDRoundTrip(g: Guid)
    ensures ParseD(FormatD(g)) == g
  {
    var s := FormatD(g);
    assert s[0..8] == Hex(g.a, 8);
    assert s[9..13] == Hex(g.b, 4);
    assert s[14..18] == Hex(g.c, 4);
    assert s[19..23] == Hex(g.d, 4);
    assert s[24..36] == Hex(g.e, 12);
    ParseHexRoundTrip(g.a, 8);
    ParseHexRoundTrip(g.b, 4);
    ParseHexRoundTrip(g.c, 4);
    ParseHexRoundTrip(g.d, 4);
    ParseHexRoundTrip(g.e, 12);
  }

  /** Two Guids print alike only when they are equal. */
  lemma FormatDInjective(g1: Guid, g2: Guid)
    ensures FormatD(g1) == FormatD(g2) ==> g1 == g2
  {
    FormatDRoundTrip(g1);
    FormatDRoundTrip(g2);
  }
}
