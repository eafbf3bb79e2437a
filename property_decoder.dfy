/**
 * PROPVARIANT and its decoding (Audio/Audio/AudioUtilities.cs:271-327): a
 * type tag and an eight-byte union, turned by `GetValue` into the boxed value
 * a device's property map stores. Pointers in the union are resolved through
 * `NativeMemory`, the strings and Guids the platform has placed in memory.
 */
module PropertyDecoder {
  import opened Wrappers
  import opened Text
  import opened Guids
  import opened PropertyKeys

  type int16 = x: int | -0x8000 <= x < 0x8000
  type uint64 = x: nat | x < 0x1_0000_0000_0000_0000

  // The VARTYPE members the source declares.
  const VT_I4: int16 := 3
  const VT_BOOL: int16 := 11
  const VT_UI4: int16 := 19
  const VT_LPWSTR: int16 := 31
  const VT_BLOB: int16 := 65
  const VT_CLSID: int16 := 72

  /** The tag and the union's eight bytes, read as one unsigned word. */
  datatype Variant = Variant(vt: int16, word: uint64)

  /** What the platform has placed at the addresses a union can point to. */
  datatype NativeMemory = NativeMemory(strings: map<nat, string>, guids: map<nat, Guid>)

  /** The boxed object `GetValue` returns; `NullValue` is a null reference. */
  datatype PropValue =
    | BoolValue(b: bool)
    | StringValue(s: string)
    | IntValue(i: int32)
    | GuidValue(g: Guid)
    | NullValue

  /**
   * The pointers `GetValue` follows are valid: a string pointer is null or
   * points at a string, a Guid pointer points at a Guid.
   */
  predicate Readable(v: Variant, mem: NativeMemory) {
    (v.vt == VT_LPWSTR ==> v.word == 0 || v.word in mem.strings)
    && (v.vt == VT_CLSID ==> v.word != 0 && v.word in mem.guids)
  }

  /** The low 32 bits read as the signed `int` field `lVal`. */
  function Low32Signed(w: nat): (i: int32)
  {
    var u := w % 0x1_0000_0000;
    if u < 0x8000_0000 then u else u - 0x1_0000_0000
  }

  /** `PROPVARIANT.GetValue`. */
  function GetValue(v: Variant, mem: NativeMemory): (r: PropValue)
    requires Readable(v, mem)
    ensures r.BoolValue? <==> v.vt == VT_BOOL
    ensures r.IntValue? <==> v.vt == VT_UI4
    ensures r.GuidValue? <==> v.vt == VT_CLSID
    ensures r.NullValue? <==> v.vt == VT_LPWSTR && v.word == 0
  {
    if v.vt == VT_BOOL then BoolValue(v.word % 0x1_0000 != 0)
    else if v.vt == VT_LPWSTR then (if v.word == 0 then NullValue else StringValue(mem.strings[v.word]))
    else if v.vt == VT_UI4 then IntValue(Low32Signed(v.word))
    else if v.vt == VT_CLSID then GuidValue(mem.guids[v.word])
    else StringValue(TagName(v.vt) + ":?")
  }

  // ------------------------------------------------------------ encodings

  /** The union of a VT_BOOL: VARIANT_TRUE is all sixteen bits set. */
  function EncodeBool(b: bool, high: nat): (w: uint64)
    requires high < 0x1_0000_0000_0000
  {
    high * 0x1_0000 + (if b then 0xFFFF else 0)
  }

  /** The union of a four-byte integer: its two's complement in the low 32 bits. */
  function EncodeInt32(i: int32, high: nat): (w: uint64)
    requires high < 0x1_0000_0000
  {
    high * 0x1_0000_0000 + (if i < 0 then i + 0x1_0000_0000 else i)
  }

  /** A VT_BOOL decodes to the boolean it holds, whatever the unused bytes hold. */
  lemma BoolRoundTrip(b: bool, high: nat, mem: NativeMemory)
    requires high < 0x1_0000_0000_0000
    ensures GetValue(Variant(VT_BOOL, EncodeBool(b, high)), mem) == BoolValue(b)
  {
    var w := EncodeBool(b, high);
    assert w % 0x1_0000 == (if b then 0xFFFF else 0);
  }

  /** A VT_UI4 decodes to the signed 32-bit value it holds. */
  lemma Int32RoundTrip(i: int32, high: nat, mem: NativeMemory)
    requires high < 0x1_0000_0000
    ensures GetValue(Variant(VT_UI4, EncodeInt32(i, high)), mem) == IntValue(i)
  {
    var w := EncodeInt32(i, high);
    assert w % 0x1_0000_0000 == (if i < 0 then i + 0x1_0000_0000 else i);
  }

  /** A VT_LPWSTR decodes to the string it points at, or to null. */
  lemma StringPointerDecodes(p: uint64, mem: NativeMemory)
    requires p == 0 || p in mem.strings
    ensures GetValue(Variant(VT_LPWSTR, p), mem) == if p == 0 then NullValue else StringValue(mem.strings[p])
  {
  }

  /** A VT_CLSID decodes to the Guid it points at. */
  lemma GuidPointerDecodes(p: uint64, mem: NativeMemory)
    requires p != 0 && p in mem.guids
    ensures GetValue(Variant(VT_CLSID, p), mem) == GuidValue(mem.guids[p])
  {
  }

  /** Every tag without a case of its own, declared or not, decodes to its name and ":?". */
  lemma OtherTagsDecodeToText(v: Variant, mem: NativeMemory)
    requires v.vt != VT_BOOL && v.vt != VT_LPWSTR && v.vt != VT_UI4 && v.vt != VT_CLSID
    ensures GetValue(v, mem) == StringValue(TagName(v.vt) + ":?")
  {
  }

  /** VT_I4 and VT_BLOB are declared but not handled. */
  lemma DeclaredButUnhandled(w: uint64, mem: NativeMemory)
    ensures GetValue(Variant(VT_I4, w), mem) == StringValue("VT_I4:?")
    ensures GetValue(Variant(VT_BLOB, w), mem) == StringValue("VT_BLOB:?")
  {
    TagNamesOfMembers();
  }

  // ------------------------------------------------------------ VARTYPE text

  /*
   * `VARTYPE` is a [Flags] enum, so `ToString` writes a tag as the names of
   * members whose bits it contains, largest value first taken, listed in
   * ascending order and joined by ", "; when the members cannot account for
   * every bit (or the short is negative) it writes the number instead.
   */

  const TagValues: seq<nat> := [3, 11, 19, 31, 65, 72]
  const TagNames: seq<string> := ["VT_I4", "VT_BOOL", "VT_UI4", "VT_LPWSTR", "VT_BLOB", "VT_CLSID"]

  /** Every bit set in `f` is set in `r`: `(r & f) == f`. */
  predicate CoversBits(r: nat, f: nat)
    decreases f
  {
    f == 0 || ((f % 2 == 0 || r % 2 == 1) && CoversBits(r / 2, f / 2))
  }

  lemma {:induction false} CoveredBitsAreSmaller(r: nat, f: nat)
    requires CoversBits(r, f)
    ensures f <= r
    decreases f
  {
    if f != 0 {
      CoveredBitsAreSmaller(r / 2, f / 2);
    }
  }

  /** The member names matched from `index` down, prepended to `acc`; `None` if bits are left over. */
  function FlagNames(rest: nat, index: int, acc: string): Option<string>
    requires index < |TagValues|
    decreases index + 1
  {
    if index < 0 then (if rest == 0 then Some(acc) else None)
    else if CoversBits(rest, TagValues[index]) then
      CoveredBitsAreSmaller(rest, TagValues[index]);
      FlagNames(rest - TagValues[index], index - 1,
                if acc == [] then TagNames[index] else TagNames[index] + ", " + acc)
    else FlagNames(rest, index - 1, acc)
  }

  /** `vt.ToString()`. */
  function TagName(vt: int16): (s: string)
  {
    if vt <= 0 then Decimal(vt)
    else match FlagNames(vt, |TagValues| - 1, [])
      case Some(names) => if names == [] then Decimal(vt) else names
      case None => Decimal(vt)
  }

  /** A declared member's tag prints as its name. */
  lemma TagNamesOfMembers()
    ensures TagName(VT_I4) == "VT_I4" && TagName(VT_BLOB) == "VT_BLOB"
  {
    TagNameOfI4();
    TagNameOfBlob();
  }

  lemma TagNameOfI4()
    ensures TagName(VT_I4) == "VT_I4"
  {
    assert !CoversBits(3, 72) && !CoversBits(3, 65) && !CoversBits(3, 31);
    assert !CoversBits(3, 19) && !CoversBits(3, 11) && CoversBits(3, 3);
    assert FlagNames(3, 5, []) == FlagNames(3, 0, []) == FlagNames(0, -1, "VT_I4");
  }

  lemma TagNameOfBlob()
    ensures TagName(VT_BLOB) == "VT_BLOB"
  {
    assert !CoversBits(65, 72) && CoversBits(65, 65);
    assert !CoversBits(0, 31) && !CoversBits(0, 19) && !CoversBits(0, 11) && !CoversBits(0, 3);
    assert FlagNames(65, 5, []) == FlagNames(0, 3, "VT_BLOB") == FlagNames(0, -1, "VT_BLOB");
  }
}
