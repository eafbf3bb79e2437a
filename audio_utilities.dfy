/**
 * The device side of `AudioUtilities` (Audio/Audio/AudioUtilities.cs): building
 * a `Win32AudioDevice` from an endpoint's property store, listing every
 * endpoint, the Active and speaker filters, the fixed-key accessors and the
 * null paths of interface activation.
 */
module AudioUtilities {
  import opened Wrappers
  import opened Text
  import opened Guids
  import opened PropertyKeys
  import opened PropertyDecoder
  import Platform
  import opened Sequences

  /** `AudioDeviceState`, the endpoint's `DEVICE_STATE` cast to it. */
  datatype DeviceState = Active | Disabled | NotPresent | Unplugged

  /**
   * One slot of a property store as the platform answers it: the result of
   * `GetAt` and the key it produced, the PROPVARIANT `GetValue` left behind
   * together with its result code, and whether `PropVariantClear` throws on it.
   */
  datatype StoreEntry = StoreEntry(getAtResult: int, key: PropertyKey, value: Variant,
                                   getValueResult: int, clearThrows: bool)

  /** An `IMMDevice`: its id, its state and its property store, which may fail to open. */
  datatype Endpoint = Endpoint(handle: Platform.Handle, id: string, state: DeviceState,
                               store: Option<seq<StoreEntry>>)

  datatype Win32AudioDevice = Win32AudioDevice(id: string, state: DeviceState,
                                               properties: map<string, PropValue>)

  /** `PropVariantClear` from ole32: every call is logged; some throw. */
  class Ole32 {
    ghost var cleared: seq<Variant>

    constructor ()
      ensures cleared == []
    {
      cleared := [];
    }

    method PropVariantClear(v: Variant, throws: bool) returns (threw: bool)
      modifies this
      ensures threw == throws && cleared == old(cleared) + [v]
    {
      cleared := cleared + [v];
      threw := throws;
    }
  }

  // ------------------------------------------------------------ CreateDevice

  function Entries(e: Endpoint): seq<StoreEntry> {
    if e.store.Some? then e.store.value else []
  }

  /** The entries `CreateDevice` decodes are those whose `GetAt` succeeded. */
  predicate StoreReadable(es: seq<StoreEntry>, mem: NativeMemory) {
    forall i :: 0 <= i < |es| && es[i].getAtResult == 0 ==> Readable(es[i].value, mem)
  }

  /** The property map after visiting `es` in order: later keys overwrite earlier ones. */
  function StoreMap(es: seq<StoreEntry>, mem: NativeMemory): map<string, PropValue>
    requires StoreReadable(es, mem)
  {
    if es == [] then map[]
    else
      var m := StoreMap(es[..|es| - 1], mem);
      var e := es[|es| - 1];
      if e.getAtResult == 0 then m[KeyName(e.key) := GetValue(e.value, mem)] else m
  }

  /** The PROPVARIANTs `CreateDevice` clears: those it read, except blobs. */
  function ClearedBy(es: seq<StoreEntry>): seq<Variant> {
    if es == [] then []
    else
      var e := es[|es| - 1];
      ClearedBy(es[..|es| - 1]) + (if e.getAtResult == 0 && e.value.vt != VT_BLOB then [e.value] else [])
  }

  /** The device `CreateDevice` builds from a non-null endpoint. */
  function DeviceOf(e: Endpoint, mem: NativeMemory): Win32AudioDevice
    requires StoreReadable(Entries(e), mem)
  {
    Win32AudioDevice(e.id, e.state, StoreMap(Entries(e), mem))
  }

  /** What `CreateDevice` returns: null for a null endpoint. */
  function CreatedFrom(dev: Option<Endpoint>, mem: NativeMemory): Option<Win32AudioDevice>
    requires dev.Some? ==> StoreReadable(Entries(dev.value), mem)
  {
    if dev.Some? then Some(DeviceOf(dev.value, mem)) else None
  }

  /** What `CreateDevice` clears: nothing for a null endpoint. */
  function ClearedFrom(dev: Option<Endpoint>): seq<Variant> {
    if dev.Some? then ClearedBy(Entries(dev.value)) else []
  }

  /** `CreateDevice`. */
  method CreateDevice(ole: Ole32, dev: Option<Endpoint>, mem: NativeMemory) returns (r: Option<Win32AudioDevice>)
    requires dev.Some? ==> StoreReadable(Entries(dev.value), mem)
    modifies ole
    ensures r == CreatedFrom(dev, mem)
    ensures ole.cleared == old(ole.cleared) + ClearedFrom(dev)
  {
    if dev.None? {
      return None;
    }
    var d := dev.value;
    var properties: map<string, PropValue> := map[];
    if d.store.Some? {
      var es := d.store.value;
      ghost var start := ole.cleared;
      var j := 0;
      while j < |es|
        invariant 0 <= j <= |es|
        invariant properties == StoreMap(es[..j], mem)
        invariant ole.cleared == start + ClearedBy(es[..j])
      {
        assert es[..j + 1][..j] == es[..j];
        var e := es[j];
        ghost var done, more := ClearedBy(es[..j]), if e.getAtResult == 0 && e.value.vt != VT_BLOB then [e.value] else [];
        assert ClearedBy(es[..j + 1]) == done + more;
        assert (start + done) + more == start + (done + more);
        if e.getAtResult == 0 {
          var hr := e.getValueResult;
          var v := GetValue(e.value, mem);
          if e.value.vt != VT_BLOB {
            var threw := ole.PropVariantClear(e.value, e.clearThrows);
          }
          properties := properties[KeyName(e.key) := v];
        }
        j := j + 1;
      }
      assert es[..|es|] == es;
    }
    r := Some(Win32AudioDevice(d.id, d.state, properties));
  }

  /** The map is keyed by name; every key stored is a name, so a map entry is located by it. */
  predicate StoredAt(es: seq<StoreEntry>, i: int, name: string) {
    0 <= i < |es| && es[i].getAtResult == 0 && KeyName(es[i].key) == name
  }

  /** The map holds exactly the names of the keys whose `GetAt` succeeded. */
  lemma StoreMapKeys(es: seq<StoreEntry>, mem: NativeMemory, name: string)
    requires StoreReadable(es, mem)
    ensures name in StoreMap(es, mem) <==> exists i :: StoredAt(es, i, name)
  {
    if name in StoreMap(es, mem) {
      var i := StoredKeyHasSlot(es, mem, name);
    }
    if exists i :: StoredAt(es, i, name) {
      var i :| StoredAt(es, i, name);
      SlotKeyIsStored(es, mem, name, i);
    }
  }

  lemma {:induction false} StoredKeyHasSlot(es: seq<StoreEntry>, mem: NativeMemory, name: string) returns (i: nat)
    requires StoreReadable(es, mem) && name in StoreMap(es, mem)
    ensures StoredAt(es, i, name)
  {
    var init := es[..|es| - 1];
    var last := es[|es| - 1];
    assert StoreReadable(init, mem);
    var m := StoreMap(init, mem);
    if last.getAtResult == 0 {
      if KeyName(last.key) == name {
        return |es| - 1;
      }
      assert StoreMap(es, mem) == m[KeyName(last.key) := GetValue(last.value, mem)];
    } else {
      assert StoreMap(es, mem) == m;
    }
    assert name in m;
    i := StoredKeyHasSlot(init, mem, name);
    assert es[i] == init[i];
  }

  lemma {:induction false} SlotKeyIsStored(es: seq<StoreEntry>, mem: NativeMemory, name: string, i: int)
    requires StoreReadable(es, mem) && StoredAt(es, i, name)
    ensures name in StoreMap(es, mem)
  {
    var init := es[..|es| - 1];
    if i < |init| {
      assert StoredAt(init, i, name);
      SlotKeyIsStored(init, mem, name, i);
    }
  }

  /** A key's value is the one decoded from its last successful slot. */
  lemma {:induction false} StoreMapLastWins(es: seq<StoreEntry>, mem: NativeMemory, i: nat)
    requires StoreReadable(es, mem)
    requires i < |es| && es[i].getAtResult == 0
    requires forall j :: i < j < |es| && es[j].getAtResult == 0 ==> es[j].key != es[i].key
    ensures KeyName(es[i].key) in StoreMap(es, mem)
    ensures StoreMap(es, mem)[KeyName(es[i].key)] == GetValue(es[i].value, mem)
  {
    var init := es[..|es| - 1];
    var last := es[|es| - 1];
    if i < |init| {
      assert StoreReadable(init, mem);
      assert init[i] == es[i];
      StoreMapLastWins(init, mem, i);
      var m := StoreMap(init, mem);
      if last.getAtResult == 0 {
        assert last.key != es[i].key;
        KeyNameInjective(last.key, es[i].key);
        assert StoreMap(es, mem) == m[KeyName(last.key) := GetValue(last.value, mem)];
      } else {
        assert StoreMap(es, mem) == m;
      }
    }
  }

  /** Two stores that differ only in result codes of `GetValue` and in which clears throw. */
  predicate SameSlots(es: seq<StoreEntry>, fs: seq<StoreEntry>) {
    |es| == |fs|
    && forall i :: 0 <= i < |es| ==>
         es[i].getAtResult == fs[i].getAtResult && es[i].key == fs[i].key && es[i].value == fs[i].value
  }

  /** Neither the result of `GetValue` nor a throwing clear changes the map. */
  lemma {:induction false} StoreMapIgnoresCodes(es: seq<StoreEntry>, fs: seq<StoreEntry>, mem: NativeMemory)
    requires SameSlots(es, fs) && StoreReadable(es, mem)
    ensures StoreReadable(fs, mem) && StoreMap(es, mem) == StoreMap(fs, mem)
  {
    if es != [] {
      StoreMapIgnoresCodes(es[..|es| - 1], fs[..|fs| - 1], mem);
    }
  }

  // ------------------------------------------------------------ GetAllDevices

  /** What enumerating all endpoints yields: no enumerator, no collection, or the items. */
  datatype Enumeration = NoEnumerator | NoCollection | Collection(items: seq<Option<Endpoint>>)

  /** The stores of the non-null items are readable. */
  predicate ItemsReadable(items: seq<Option<Endpoint>>, mem: NativeMemory) {
    forall i :: 0 <= i < |items| && items[i].Some? ==> StoreReadable(Entries(items[i].value), mem)
  }

  /** The devices built from the non-null items, in order. */
  function DevicesOf(items: seq<Option<Endpoint>>, mem: NativeMemory): (r: seq<Win32AudioDevice>)
    requires ItemsReadable(items, mem)
    ensures |r| <= |items|
  {
    if items == [] then []
    else
      var c := CreatedFrom(items[|items| - 1], mem);
      DevicesOf(items[..|items| - 1], mem) + (if c.Some? then [c.value] else [])
  }

  /** The PROPVARIANTs cleared while building the devices of the non-null items. */
  function ClearedByAll(items: seq<Option<Endpoint>>): seq<Variant> {
    if items == [] then [] else ClearedByAll(items[..|items| - 1]) + ClearedFrom(items[|items| - 1])
  }

  /** One more item of the collection: what it adds to the list and to the cleared values. */
  lemma ItemStep(items: seq<Option<Endpoint>>, i: nat, mem: NativeMemory, start: seq<Variant>)
    requires i < |items| && ItemsReadable(items, mem)
    ensures ItemsReadable(items[..i], mem) && ItemsReadable(items[..i + 1], mem)
    ensures items[i].Some? ==> StoreReadable(Entries(items[i].value), mem)
    ensures var c := CreatedFrom(items[i], mem);
      DevicesOf(items[..i + 1], mem) == DevicesOf(items[..i], mem) + (if c.Some? then [c.value] else [])
    ensures start + ClearedByAll(items[..i]) + ClearedFrom(items[i]) == start + ClearedByAll(items[..i + 1])
  {
    assert items[..i + 1][..i] == items[..i];
    var done, more := ClearedByAll(items[..i]), ClearedFrom(items[i]);
    assert (start + done) + more == start + (done + more);
  }

  /** `GetAllDevices`. */
  method GetAllDevices(ole: Ole32, en: Enumeration, mem: NativeMemory) returns (list: seq<Win32AudioDevice>)
    requires en.Collection? ==> ItemsReadable(en.items, mem)
    modifies ole
    ensures en.Collection? ==> list == DevicesOf(en.items, mem)
    ensures en.Collection? ==> ole.cleared == old(ole.cleared) + ClearedByAll(en.items)
    ensures !en.Collection? ==> list == [] && ole.cleared == old(ole.cleared)
  {
    list := [];
    if !en.Collection? {
      return;
    }
    var items := en.items;
    ghost var start := ole.cleared;
    var i := 0;
    while i < |items|
      invariant 0 <= i <= |items|
      invariant ItemsReadable(items, mem) && ItemsReadable(items[..i], mem)
      invariant list == DevicesOf(items[..i], mem)
      invariant ole.cleared == start + ClearedByAll(items[..i])
    {
      ItemStep(items, i, mem, start);
      var d := CreateDevice(ole, items[i], mem);
      if d.Some? {
        list := list + [d.value];
      }
      i := i + 1;
    }
    assert items[..|items|] == items;
  }

  /** Every device listed is built from a non-null item, and every non-null item gives one. */
  lemma {:induction false} DevicesOfMembers(items: seq<Option<Endpoint>>, mem: NativeMemory, d: Win32AudioDevice)
    requires ItemsReadable(items, mem)
    ensures d in DevicesOf(items, mem) <==> exists i :: 0 <= i < |items| && items[i].Some? && d == DeviceOf(items[i].value, mem)
  {
    if items != [] {
      var init := items[..|items| - 1];
      assert ItemsReadable(init, mem);
      DevicesOfMembers(init, mem, d);
      if d in DevicesOf(items, mem) && d !in DevicesOf(init, mem) {
        assert d == DeviceOf(items[|items| - 1].value, mem);
      }
      if exists i :: 0 <= i < |items| && items[i].Some? && d == DeviceOf(items[i].value, mem) {
        var i :| 0 <= i < |items| && items[i].Some? && d == DeviceOf(items[i].value, mem);
        if i < |init| {
          assert init[i] == items[i];
        }
      }
    }
  }

  /** Null items are skipped: the list has one device per non-null item. */
  lemma {:induction false} DevicesOfCount(items: seq<Option<Endpoint>>, mem: NativeMemory)
    requires ItemsReadable(items, mem)
    ensures |DevicesOf(items, mem)| == |Present(items)|
  {
    if items != [] {
      assert ItemsReadable(items[..|items| - 1], mem);
      DevicesOfCount(items[..|items| - 1], mem);
    }
  }

  // ------------------------------------------------------------ accessors

  /** `$"{value}"` for the object found under a key, "" when there is none. */
  function Render(v: Option<PropValue>): (s: string)
    ensures v.None? || v == Some(NullValue) ==> s == ""
  {
    match v
    case None => ""
    case Some(NullValue) => ""
    case Some(BoolValue(b)) => if b then "True" else "False"
    case Some(StringValue(s)) => s
    case Some(IntValue(i)) => Decimal(i)
    case Some(GuidValue(g)) => FormatD(g)
  }

  function Lookup(d: Win32AudioDevice, name: string): Option<PropValue> {
    if name in d.properties then Some(d.properties[name]) else None
  }

  function Description(d: Win32AudioDevice): (s: string)
    ensures DeviceDescName !in d.properties ==> s == ""
  {
    Render(Lookup(d, DeviceDescName))
  }

  function ContainerId(d: Win32AudioDevice): (s: string)
    ensures ContainerIdName !in d.properties ==> s == ""
  {
    Render(Lookup(d, ContainerIdName))
  }

  function EnumeratorName(d: Win32AudioDevice): (s: string)
    ensures EnumeratorNameName !in d.properties ==> s == ""
  {
    Render(Lookup(d, EnumeratorNameName))
  }

  function InterfaceFriendlyName(d: Win32AudioDevice): (s: string)
    ensures InterfaceFriendlyNameName !in d.properties ==> s == ""
  {
    Render(Lookup(d, InterfaceFriendlyNameName))
  }

  function FriendlyName(d: Win32AudioDevice): (s: string)
    ensures FriendlyNameName !in d.properties ==> s == ""
  {
    Render(Lookup(d, FriendlyNameName))
  }

  /** `Win32AudioDevice.ToString` is its friendly name. */
  function DeviceText(d: Win32AudioDevice): string {
    FriendlyName(d)
  }

  /**
   * The text of a device built from an endpoint is whatever the last readable
   * friendly-name slot of its store decodes to, interpolated.
   */
  lemma DeviceTextOfCreatedDevice(e: Endpoint, mem: NativeMemory, i: nat)
    requires StoreReadable(Entries(e), mem)
    requires i < |Entries(e)| && Entries(e)[i].getAtResult == 0 && Entries(e)[i].key == DEVPKEY_Device_FriendlyName
    requires forall j :: i < j < |Entries(e)| && Entries(e)[j].getAtResult == 0 ==> Entries(e)[j].key != DEVPKEY_Device_FriendlyName
    ensures DeviceText(DeviceOf(e, mem)) == Render(Some(GetValue(Entries(e)[i].value, mem)))
  {
    StoreMapLastWins(Entries(e), mem, i);
    FriendlyNameNameIsKeyName(Entries(e)[i].key);
  }

  /**
   * A device built from an endpoint whose last readable description slot holds
   * a string reports that string as its Description.
   */
  lemma DescriptionOfCreatedDevice(e: Endpoint, mem: NativeMemory, i: nat, p: uint64)
    requires StoreReadable(Entries(e), mem)
    requires i < |Entries(e)| && Entries(e)[i].getAtResult == 0
    requires Entries(e)[i].key == PKEY_Device_DeviceDesc && Entries(e)[i].value == Variant(VT_LPWSTR, p)
    requires p != 0 && p in mem.strings
    requires forall j :: i < j < |Entries(e)| && Entries(e)[j].getAtResult == 0 ==> Entries(e)[j].key != PKEY_Device_DeviceDesc
    ensures Description(DeviceOf(e, mem)) == mem.strings[p]
  {
    StoreMapLastWins(Entries(e), mem, i);
    DeviceDescNameIsKeyName(Entries(e)[i].key);
  }

  /** A device whose store could not be opened, or holds no readable description, has an empty Description. */
  lemma DescriptionWithoutSlot(e: Endpoint, mem: NativeMemory)
    requires StoreReadable(Entries(e), mem)
    requires forall j :: 0 <= j < |Entries(e)| && Entries(e)[j].getAtResult == 0 ==> KeyName(Entries(e)[j].key) != DeviceDescName
    ensures Description(DeviceOf(e, mem)) == ""
  {
    StoreMapKeys(Entries(e), mem, DeviceDescName);
  }

  // ------------------------------------------------------------ filters

  predicate IsActive(d: Win32AudioDevice) {
    d.state == Active
  }

  /** The spellings the three alternations of the speaker filter's patterns match. */
  const ExcludedSpellings: seq<string> := [
    "microphone", "Microphone", "MICROPHONE",
    "stereo mix", "stereo Mix", "Stereo mix", "Stereo Mix", "STEREO MIX",
    "realtek digital output", "realtek digital Output", "realtek Digital output",
    "realtek Digital Output", "Realtek digital output", "Realtek digital Output",
    "Realtek Digital output", "Realtek Digital Output", "REALTEK DIGITAL OUTPUT"
  ]

  /** Some excluded spelling occurs in the text, which is what one of the patterns matching means. */
  predicate Excluded(description: string) {
    exists k :: 0 <= k < |ExcludedSpellings| && Contains(description, ExcludedSpellings[k])
  }

  predicate IsSpeaker(d: Win32AudioDevice) {
    d.state == Active && !Excluded(Description(d))
  }

  /** `GetAllActiveDevices` applied to what `GetAllDevices` returned. */
  function ActiveDevices(ds: seq<Win32AudioDevice>): seq<Win32AudioDevice> {
    Keep(ds, IsActive)
  }

  /** `GetAllActiveSpeakers` applied to what `GetAllDevices` returned. */
  function ActiveSpeakers(ds: seq<Win32AudioDevice>): seq<Win32AudioDevice> {
    Keep(ActiveDevices(ds), IsSpeaker)
  }

  /** Exactly the Active devices are kept, in their order. */
  lemma ActiveDevicesKeepActive(ds: seq<Win32AudioDevice>, d: Win32AudioDevice)
    ensures d in ActiveDevices(ds) <==> d in ds && d.state == Active
    ensures IsSubsequence(ActiveDevices(ds), ds)
    ensures multiset(ActiveDevices(ds))[d] == if d.state == Active then multiset(ds)[d] else 0
  {
    KeepMembers(ds, IsActive, d);
    KeepCounts(ds, IsActive, d);
    KeepIsSubsequence(ds, IsActive);
  }

  /** The speakers are the Active devices whose description names no excluded spelling. */
  lemma ActiveSpeakersMembers(ds: seq<Win32AudioDevice>, d: Win32AudioDevice)
    ensures d in ActiveSpeakers(ds) <==> d in ds && d.state == Active && !Excluded(Description(d))
    ensures IsSubsequence(ActiveSpeakers(ds), ActiveDevices(ds))
    ensures multiset(ActiveSpeakers(ds))[d] ==
      if d.state == Active && !Excluded(Description(d)) then multiset(ds)[d] else 0
  {
    KeepMembers(ActiveDevices(ds), IsSpeaker, d);
    KeepMembers(ds, IsActive, d);
    KeepCounts(ActiveDevices(ds), IsSpeaker, d);
    KeepCounts(ds, IsActive, d);
    KeepIsSubsequence(ActiveDevices(ds), IsSpeaker);
  }

  /** Filtering the speakers again changes nothing. */
  lemma ActiveSpeakersStable(ds: seq<Win32AudioDevice>)
    ensures Keep(ActiveSpeakers(ds), IsSpeaker) == ActiveSpeakers(ds)
  {
    KeepIdempotent(ActiveDevices(ds), IsSpeaker);
  }

  /** A description naming a microphone in mixed case is not excluded: the filter is not case-insensitive. */
  lemma MixedCaseMicrophoneKept()
    ensures !Excluded("MiCrophone")
  {
    var s := "MiCrophone";
    assert s !in ExcludedSpellings;
    assert forall k :: 0 <= k < |ExcludedSpellings| ==> |ExcludedSpellings[k]| >= |s|;
    forall k | 0 <= k < |ExcludedSpellings|
      ensures !Contains(s, ExcludedSpellings[k])
    {
      var t := ExcludedSpellings[k];
      if |t| == |s| {
        assert s[..|t|] == s != t;
        assert !Contains(s[1..], t);
      }
    }
  }

  /** A listed spelling anywhere in the description excludes it. */
  lemma ListedSpellingExcluded(description: string, k: nat, at: nat)
    requires k < |ExcludedSpellings| && OccursAt(description, ExcludedSpellings[k], at)
    ensures Excluded(description)
  {
    ContainsIsOccurrence(description, ExcludedSpellings[k]);
  }

  // ------------------------------------------------------------ activation

  /** What `IMMDevice.Activate` answers: its result code and the object, possibly null. */
  datatype Activation<T> = Activation(hr: int, obj: Option<T>)

  /** Activating an interface on an endpoint, null when there is no endpoint or activation fails. */
  function ActivateOn<T>(speakers: Option<Platform.Handle>, activate: Platform.Handle -> Activation<T>): (r: Option<T>)
    ensures r.Some? <==> speakers.Some? && activate(speakers.value).hr == 0 && activate(speakers.value).obj.Some?
    ensures r.Some? ==> r == activate(speakers.value).obj
  {
    if speakers.None? then None
    else
      var a := activate(speakers.value);
      if a.hr != 0 || a.obj.None? then None else a.obj
  }

  /** `GetAudioSessionManager`, on the current speakers. */
  function GetAudioSessionManager<T>(currentSpeakers: Option<Platform.Handle>, activate: Platform.Handle -> Activation<T>): (r: Option<T>)
    ensures r.Some? <==> currentSpeakers.Some? && activate(currentSpeakers.value).hr == 0
                         && activate(currentSpeakers.value).obj.Some?
    ensures r.Some? ==> r == activate(currentSpeakers.value).obj
  {
    ActivateOn(currentSpeakers, activate)
  }

  /** `GetAudioEndpointVolume(device)`: the given device, or the current speakers when it is null. */
  function GetAudioEndpointVolume<T>(device: Option<Platform.Handle>, currentSpeakers: Option<Platform.Handle>,
                                     activate: Platform.Handle -> Activation<T>): (r: Option<T>)
    ensures var chosen := if device.Some? then device else currentSpeakers;
      (r.Some? <==> chosen.Some? && activate(chosen.value).hr == 0 && activate(chosen.value).obj.Some?)
      && (r.Some? ==> r == activate(chosen.value).obj)
  {
    ActivateOn(if device.Some? then device else currentSpeakers, activate)
  }
}
