/**
 * PROPERTYKEY (Audio/Audio/AudioUtilities.cs): a format identifier and a
 * property id. Its `ToString` is the key under which a device's property map
 * stores each value, and the `Win32AudioDevice` accessors look values up by
 * literal strings of that form.
 */
module PropertyKeys {
  import opened Wrappers
  import opened Text
  import opened Guids

  type int32 = x: int | -0x8000_0000 <= x < 0x8000_0000

  datatype PropertyKey = PropertyKey(fmtid: Guid, pid: int32)

  /** `PROPERTYKEY.ToString()`: braced lower-case Guid, a space, the decimal pid. */
  function KeyName(k: PropertyKey): (s: string)
  {
    FormatB(k.fmtid) + " " + Decimal(k.pid)
  }

  /** Reads a key name back; `None` for text that is not of that form. */
  function ParseKeyName(s: string): Option<PropertyKey> {
    if |s| >= 40 && s[0] == '{' && s[37] == '}' && s[38] == ' ' then
      var pid := ParseDecimal(s[39..]);
      if -0x8000_0000 <= pid < 0x8000_0000 then Some(PropertyKey(ParseD(s[1..37]), pid)) else None
    else None
  }

  lemma KeyNameRoundTrip(k: PropertyKey)
    ensures ParseKeyName(KeyName(k)) == Some(k)
  {
    var s := KeyName(k);
    assert s[1..37] == FormatD(k.fmtid);
    assert s[39..] == Decimal(k.pid);
    FormatDRoundTrip(k.fmtid);
    DecimalRoundTrip(k.pid);
  }

  /** Distinct keys get distinct names, so a map keyed by name keeps keys apart. */
  lemma KeyNameInjective(k1: PropertyKey, k2: PropertyKey)
    ensures KeyName(k1) == KeyName(k2) <==> k1 == k2
  {
    KeyNameRoundTrip(k1);
    KeyNameRoundTrip(k2);
  }

  // The keys the Win32AudioDevice accessors read, and the literal names they look up.

  const DeviceInterfaceGuid: Guid := GuidBits(0xa45c254e, 0xdf1c, 0x4efd, 0x8020, 0x67d146a850e0)

  const PKEY_Device_DeviceDesc := PropertyKey(DeviceInterfaceGuid, 2)
  const PKEY_Devices_ContainerId := PropertyKey(GuidBits(0x8c7ed206, 0x3f8a, 0x4827, 0xb3ab, 0xae9e1faefc6c), 2)
  const PKEY_Device_EnumeratorName := PropertyKey(DeviceInterfaceGuid, 24)
  const DEVPKEY_DeviceInterface_FriendlyName := PropertyKey(GuidBits(0x026e516e, 0xb814, 0x414b, 0x83cd, 0x856d6fef4822), 2)
  const DEVPKEY_Device_FriendlyName := PropertyKey(DeviceInterfaceGuid, 14)

  const DeviceDescName := "{a45c254e-df1c-4efd-8020-67d146a850e0} 2"
  const ContainerIdName := "{8c7ed206-3f8a-4827-b3ab-ae9e1faefc6c} 2"
  const EnumeratorNameName := "{a45c254e-df1c-4efd-8020-67d146a850e0} 24"
  const InterfaceFriendlyNameName := "{026e516e-b814-414b-83cd-856d6fef4822} 2"
  const FriendlyNameName := "{a45c254e-df1c-4efd-8020-67d146a850e0} 14"


  /** The braced form of a Guid from the text of its five groups. */
  lemma FormatBOfGroups(g: Guid, sa: string, sb: string, sc: string, sd: string, se: string)
    requires Hex(g.a, 8) == sa && Hex(g.b, 4) == sb && Hex(g.c, 4) == sc
    requires Hex(g.d, 4) == sd && Hex(g.e, 12) == se
    ensures FormatB(g) == "{" + sa + "-" + sb + "-" + sc + "-" + sd + "-" + se + "}"
  {
  }

  /**
   * The braced form of a Guid from the four-digit groups its text is made of:
   * two for the first field, one each for the next three, three for the last.
   */
  lemma FormatBOfFourDigitGroups(g: Guid, a1: nat, a0: nat, e2: nat, e1: nat, e0: nat,
                                 sa1: string, sa0: string, sb: string, sc: string, sd: string,
                                 se2: string, se1: string, se0: string)
    requires a1 < 0x1_0000 && a0 < 0x1_0000 && g.a == a1 * 0x1_0000 + a0
    requires e2 < 0x1_0000 && e1 < 0x1_0000 && e0 < 0x1_0000 && g.e == (e2 * 0x1_0000 + e1) * 0x1_0000 + e0
    requires HexFour(a1) == sa1 && HexFour(a0) == sa0
    requires HexFour(g.b) == sb && HexFour(g.c) == sc && HexFour(g.d) == sd
    requires HexFour(e2) == se2 && HexFour(e1) == se1 && HexFour(e0) == se0
    ensures FormatB(g) == "{" + (sa1 + sa0) + "-" + sb + "-" + sc + "-" + sd + "-" + (se2 + se1 + se0) + "}"
  {
    EightDigits(g.a, a1, a0);
    TwelveDigits(g.e, e2, e1, e0);
    HexFourIsHex(g.b);
    HexFourIsHex(g.c);
    HexFourIsHex(g.d);
    FormatBOfGroups(g, sa1 + sa0, sb, sc, sd, se2 + se1 + se0);
  }

  lemma EightDigits(n: nat, hi: nat, lo: nat)
    requires hi < 0x1_0000 && lo < 0x1_0000 && n == hi * 0x1_0000 + lo
    ensures n < Pow16(8) && Hex(n, 8) == HexFour(hi) + HexFour(lo)
  {
    HexFourIsHex(hi);
    HexFourIsHex(lo);
    HexConcat4(hi, 4, lo);
  }

  lemma TwelveDigits(n: nat, hi: nat, mid: nat, lo: nat)
    requires hi < 0x1_0000 && mid < 0x1_0000 && lo < 0x1_0000
    requires n == (hi * 0x1_0000 + mid) * 0x1_0000 + lo
    ensures n < Pow16(12) && Hex(n, 12) == HexFour(hi) + HexFour(mid) + HexFour(lo)
  {
    HexFourIsHex(hi);
    HexFourIsHex(mid);
    HexFourIsHex(lo);
    HexConcat4(hi, 4, mid);
    HexConcat4(hi * 0x1_0000 + mid, 8, lo);
  }

  /** The braced form of the device-property format identifier. */
  lemma DeviceInterfaceGuidText(g: Guid)
    requires g == DeviceInterfaceGuid
    ensures FormatB(g) == "{a45c254e-df1c-4efd-8020-67d146a850e0}"
  {
    DeviceInterfaceGuidTextDigits(g);
    DeviceInterfaceGuidTextJoin();
    FormatBOfFourDigitGroups(g, 0xa45c, 0x254e, 0x67d1, 0x46a8, 0x50e0,
      "a45c", "254e", "df1c", "4efd", "8020", "67d1", "46a8", "50e0");
  }

  lemma DeviceInterfaceGuidTextDigits(g: Guid)
    requires g == DeviceInterfaceGuid
    ensures g.a == 0xa45c * 0x1_0000 + 0x254e
    ensures g.e == (0x67d1 * 0x1_0000 + 0x46a8) * 0x1_0000 + 0x50e0
    ensures HexFour(0xa45c) == "a45c" && HexFour(0x254e) == "254e"
    ensures HexFour(g.b) == "df1c" && HexFour(g.c) == "4efd" && HexFour(g.d) == "8020"
    ensures HexFour(0x67d1) == "67d1" && HexFour(0x46a8) == "46a8" && HexFour(0x50e0) == "50e0"
  {
  }

  lemma DeviceInterfaceGuidTextJoin()
    ensures "{" + ("a45c" + "254e") + "-" + "df1c" + "-" + "4efd" + "-" + "8020" + "-" + ("67d1" + "46a8" + "50e0") + "}"
         == "{a45c254e-df1c-4efd-8020-67d146a850e0}"
  {
  }

  /** The braced form of the container-id format identifier. */
  lemma ContainerIdGuidText(g: Guid)
    requires g == PKEY_Devices_ContainerId.fmtid
    ensures FormatB(g) == "{8c7ed206-3f8a-4827-b3ab-ae9e1faefc6c}"
  {
    ContainerIdGuidTextDigits(g);
    ContainerIdGuidTextJoin();
    FormatBOfFourDigitGroups(g, 0x8c7e, 0xd206, 0xae9e, 0x1fae, 0xfc6c,
      "8c7e", "d206", "3f8a", "4827", "b3ab", "ae9e", "1fae", "fc6c");
  }

  lemma ContainerIdGuidTextDigits(g: Guid)
    requires g == PKEY_Devices_ContainerId.fmtid
    ensures g.a == 0x8c7e * 0x1_0000 + 0xd206
    ensures g.e == (0xae9e * 0x1_0000 + 0x1fae) * 0x1_0000 + 0xfc6c
    ensures HexFour(0x8c7e) == "8c7e" && HexFour(0xd206) == "d206"
    ensures HexFour(g.b) == "3f8a" && HexFour(g.c) == "4827" && HexFour(g.d) == "b3ab"
    ensures HexFour(0xae9e) == "ae9e" && HexFour(0x1fae) == "1fae" && HexFour(0xfc6c) == "fc6c"
  {
  }

  lemma ContainerIdGuidTextJoin()
    ensures "{" + ("8c7e" + "d206") + "-" + "3f8a" + "-" + "4827" + "-" + "b3ab" + "-" + ("ae9e" + "1fae" + "fc6c") + "}"
         == "{8c7ed206-3f8a-4827-b3ab-ae9e1faefc6c}"
  {
  }

  /** The braced form of the device-interface format identifier. */
  lemma InterfaceFriendlyNameGuidText(g: Guid)
    requires g == DEVPKEY_DeviceInterface_FriendlyName.fmtid
    ensures FormatB(g) == "{026e516e-b814-414b-83cd-856d6fef4822}"
  {
    InterfaceFriendlyNameGuidTextDigits(g);
    InterfaceFriendlyNameGuidTextJoin();
    FormatBOfFourDigitGroups(g, 0x026e, 0x516e, 0x856d, 0x6fef, 0x4822,
      "026e", "516e", "b814", "414b", "83cd", "856d", "6fef", "4822");
  }

  lemma InterfaceFriendlyNameGuidTextDigits(g: Guid)
    requires g == DEVPKEY_DeviceInterface_FriendlyName.fmtid
    ensures g.a == 0x026e * 0x1_0000 + 0x516e
    ensures g.e == (0x856d * 0x1_0000 + 0x6fef) * 0x1_0000 + 0x4822
    ensures HexFour(0x026e) == "026e" && HexFour(0x516e) == "516e"
    ensures HexFour(g.b) == "b814" && HexFour(g.c) == "414b" && HexFour(g.d) == "83cd"
    ensures HexFour(0x856d) == "856d" && HexFour(0x6fef) == "6fef" && HexFour(0x4822) == "4822"
  {
  }

  lemma InterfaceFriendlyNameGuidTextJoin()
    ensures "{" + ("026e" + "516e") + "-" + "b814" + "-" + "414b" + "-" + "83cd" + "-" + ("856d" + "6fef" + "4822") + "}"
         == "{026e516e-b814-414b-83cd-856d6fef4822}"
  {
  }

  /** A key's name from the text of its two parts. */
  lemma KeyNameOfParts(k: PropertyKey, sg: string, sp: string)
    requires FormatB(k.fmtid) == sg && Decimal(k.pid) == sp
    ensures KeyName(k) == sg + " " + sp
  {
  }

  // Each literal a Win32AudioDevice accessor looks up is the name its key is stored under.

  lemma DeviceDescNameIsKeyName(k: PropertyKey)
    requires k == PKEY_Device_DeviceDesc
    ensures KeyName(k) == DeviceDescName
  {
    DeviceInterfaceGuidText(k.fmtid);
    assert Decimal(k.pid) == "2";
    KeyNameOfParts(k, "{a45c254e-df1c-4efd-8020-67d146a850e0}", "2");
  }

  lemma ContainerIdNameIsKeyName(k: PropertyKey)
    requires k == PKEY_Devices_ContainerId
    ensures KeyName(k) == ContainerIdName
  {
    ContainerIdGuidText(k.fmtid);
    assert Decimal(k.pid) == "2";
    KeyNameOfParts(k, "{8c7ed206-3f8a-4827-b3ab-ae9e1faefc6c}", "2");
  }

  lemma EnumeratorNameNameIsKeyName(k: PropertyKey)
    requires k == PKEY_Device_EnumeratorName
    ensures KeyName(k) == EnumeratorNameName
  {
    DeviceInterfaceGuidText(k.fmtid);
    assert Decimal(k.pid) == "24";
    KeyNameOfParts(k, "{a45c254e-df1c-4efd-8020-67d146a850e0}", "24");
  }

  lemma InterfaceFriendlyNameNameIsKeyName(k: PropertyKey)
    requires k == DEVPKEY_DeviceInterface_FriendlyName
    ensures KeyName(k) == InterfaceFriendlyNameName
  {
    InterfaceFriendlyNameGuidText(k.fmtid);
    assert Decimal(k.pid) == "2";
    KeyNameOfParts(k, "{026e516e-b814-414b-83cd-856d6fef4822}", "2");
  }

  lemma FriendlyNameNameIsKeyName(k: PropertyKey)
    requires k == DEVPKEY_Device_FriendlyName
    ensures KeyName(k) == FriendlyNameName
  {
    DeviceInterfaceGuidText(k.fmtid);
    assert Decimal(k.pid) == "14";
    KeyNameOfParts(k, "{a45c254e-df1c-4efd-8020-67d146a850e0}", "14");
  }
}
