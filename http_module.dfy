/**
 * `HttpModule` (PC-Volume-Controller/PC-Volume-Controller/HttpModule.cs):
 * the web service's routes over the audio layer. Model binding and the
 * platform objects a route touches are inputs; a null platform object,
 * which makes the C# code throw a `NullReferenceException`, is `None` or
 * `null` here and yields `Failure(NullReference)`.
 */
module Http {
  import opened Wrappers
  import opened Guids
  import opened Sequences
  import opened Platform
  import opened AudioUtilities
  import opened AudioDevices
  import Playback

  datatype HttpStatusCode = OK | BadRequest | InternalServerError

  /** What `this.Bind<T>()` gives: the bound body, null, or an exception. */
  datatype Binding<T> = Bound(value: T) | NullBody | BindThrows

  /** An exception the C# code does not catch where it is raised. */
  datatype Fault = NullReference | Unhandled

  /** The volume the dummy routes report. */
  const DummyVolume: real := 75.0

  // ------------------------------------------------------------ routes

  /**
   * The route tables the constructor fills: path to handler, one table for
   * GET and one for POST.
   */
  class HttpModule {
    var get: map<string, string>
    var post: map<string, string>

    constructor ()
      ensures get == map["/" := "Index", "/Dummy" := "DummyIndex",
                         "/DummyVolume" := "GetDummyVolume", "/Volume" := "GetVolume",
                         "/DummyPlaybackDevices" := "GetDummyPlaybackDevices",
                         "/PlaybackDevices" := "GetPlaybackDevices",
                         "/DummyDefaultPlaybackDevice" := "GetDummyDefaultPlaybackDevice",
                         "/DefaultPlaybackDevice" := "GetDefaultPlaybackDevice"]
      ensures post == map["/DummyVolume" := "SetDummyVolume", "/Volume" := "SetVolume",
                          "/DummyDefaultPlaybackDevice" := "SetDummyDefaultPlaybackDevice",
                          "/DefaultPlaybackDevice" := "SetDefaultPlaybackDevice"]
      ensures forall p :: p in post ==> p in get
    {
      var g: map<string, string> := map[];
      var p: map<string, string> := map[];
      g := g["/" := "Index"];
      g := g["/Dummy" := "DummyIndex"];
      g := g["/DummyVolume" := "GetDummyVolume"];
      p := p["/DummyVolume" := "SetDummyVolume"];
      g := g["/Volume" := "GetVolume"];
      p := p["/Volume" := "SetVolume"];
      g := g["/DummyPlaybackDevices" := "GetDummyPlaybackDevices"];
      g := g["/PlaybackDevices" := "GetPlaybackDevices"];
      g := g["/DummyDefaultPlaybackDevice" := "GetDummyDefaultPlaybackDevice"];
      p := p["/DummyDefaultPlaybackDevice" := "SetDummyDefaultPlaybackDevice"];
      g := g["/DefaultPlaybackDevice" := "GetDefaultPlaybackDevice"];
      p := p["/DefaultPlaybackDevice" := "SetDefaultPlaybackDevice"];
      get, post := g, p;
    }
  }

  // ------------------------------------------------------------ volume

  /** The scalar `SetVolume(float)` passes for a percentage: `v / 100` when positive, else 0. */
  function ScalarFor(volume: real): (s: real)
    ensures s >= 0.0
    ensures 0.0 <= volume ==> s * 100.0 == volume
    ensures volume > 100.0 ==> s > 1.0
  {
    if volume > 0.0 then volume / 100.0 else 0.0
  }

  /** `GetCurrentVolume`: the endpoint's master scalar in percent. */
  function GetCurrentVolume(ep: EndpointVolume?): (r: Result<real, Fault>)
    reads ep
    ensures r.Failure? <==> ep == null
    ensures r.Success? && 0.0 <= ep.scalar <= 1.0 ==> 0.0 <= r.value <= 100.0
    ensures r.Success? ==> r.value / 100.0 == ep.scalar
  {
    if ep == null then Failure(NullReference) else Success(ep.scalar * 100.0)
  }

  /**
   * `SetVolume(float)`: sets the endpoint's master scalar from a percentage,
   * with a fresh event context.
   */
  method SetVolume(ep: EndpointVolume?, volume: real, context: Guid) returns (r: Result<(), Fault>)
    modifies ep
    ensures r.Failure? <==> ep == null
    ensures ep != null ==> ep.scalar == EndpointLevelAfter(old(ep.scalar), ScalarFor(volume))
                           && ep.contexts == old(ep.contexts) + [context]
  {
    if ep == null {
      return Failure(NullReference);
    }
    ep.SetMasterVolumeLevelScalar(ScalarFor(volume), context);
    return Success(());
  }

  /**
   * Whatever percentage is set, the volume read back afterwards is that
   * percentage clamped to 0..100: the service never leaves a request
   * without effect, since it never passes a negative scalar.
   */
  lemma SetThenGetCurrentVolume(current: real, volume: real)
    ensures EndpointLevelAfter(current, ScalarFor(volume)) * 100.0
            == if volume <= 0.0 then 0.0 else if volume >= 100.0 then 100.0 else volume
  {
  }

  /** `SetVolume()`, the POST /Volume route. */
  method SetVolumeRoute(body: Binding<real>, ep: EndpointVolume?, context: Guid) returns (status: HttpStatusCode)
    modifies ep
    ensures status == BadRequest <==> body.NullBody?
    ensures status == OK <==> body.Bound? && ep != null
    ensures status == InternalServerError <==> body.BindThrows? || (body.Bound? && ep == null)
    ensures status == OK ==> ep.scalar == EndpointLevelAfter(old(ep.scalar), ScalarFor(body.value))
                             && ep.contexts == old(ep.contexts) + [context]
    ensures status != OK && ep != null ==> ep.scalar == old(ep.scalar) && ep.contexts == old(ep.contexts)
  {
    var succeeded;
    match body {
      case BindThrows =>
        succeeded := false;
      case NullBody =>
        return BadRequest;
      case Bound(volume) =>
        var r := SetVolume(ep, volume, context);
        succeeded := r.Success?;
    }
    status := if succeeded then OK else InternalServerError;
  }

  /**
   * `SetDummyVolume` and `SetDummyDefaultPlaybackDevice`: OK for a bound
   * body, BadRequest for null; an exception from binding escapes.
   */
  function SetDummy<T>(body: Binding<T>): (r: Result<HttpStatusCode, Fault>)
    ensures r == Success(OK) <==> body.Bound?
    ensures r == Success(BadRequest) <==> body.NullBody?
    ensures r.Failure? <==> body.BindThrows?
  {
    match body
    case Bound(_) => Success(OK)
    case NullBody => Success(BadRequest)
    case BindThrows => Failure(Unhandled)
  }

  // ------------------------------------------------------------ devices

  /**
   * `GetAudioDeviceList`: one transfer object per active speaker among
   * `devices` (what `GetAllDevices` returned), in order, marked current
   * exactly when its id is the id of the current speakers.
   */
  method GetAudioDeviceList(speakers: Option<Endpoint>, devices: seq<Win32AudioDevice>)
    returns (r: Result<seq<AudioDevice>, Fault>)
    ensures r.Failure? <==> speakers.None?
    ensures r.Success? ==>
      var active := ActiveSpeakers(devices);
      |r.value| == |active|
      && forall i :: 0 <= i < |active| ==>
        fresh(r.value[i]) && r.value[i].id == Some(active[i].id)
        && r.value[i].name == Some(InterfaceFriendlyName(active[i]))
        && (r.value[i].isCurrentDevice <==> active[i].id == speakers.value.id)
  {
    if speakers.None? {
      return Failure(NullReference);
    }
    var id := speakers.value.id;
    var active := ActiveSpeakers(devices);
    var list: seq<AudioDevice> := [];
    var i := 0;
    while i < |active|
      invariant 0 <= i <= |active| && |list| == i
      invariant forall j :: 0 <= j < i ==>
        fresh(list[j]) && list[j].id == Some(active[j].id)
        && list[j].name == Some(InterfaceFriendlyName(active[j]))
        && (list[j].isCurrentDevice <==> active[j].id == id)
    {
      var d := active[i];
      var device := new AudioDevice.FromDeviceMarked(d, d.id == id);
      list := list + [device];
      i := i + 1;
    }
    return Success(list);
  }

  /**
   * `GetCurrentDevice`, behind GET /DefaultPlaybackDevice: the device
   * `CreateDevice` built for the current speakers, not marked current;
   * null when there are no speakers.
   */
  method GetCurrentDevice(current: Option<Win32AudioDevice>) returns (r: Result<AudioDevice, Fault>)
    ensures r.Failure? <==> current.None?
    ensures r.Success? ==>
      fresh(r.value) && r.value.id == Some(current.value.id)
      && r.value.name == Some(InterfaceFriendlyName(current.value)) && !r.value.isCurrentDevice
  {
    if current.None? {
      return Failure(NullReference);
    }
    var d := new AudioDevice.FromDevice(current.value);
    return Success(d);
  }

  /** `SetDefaultPlaybackDevice()`, the POST /DefaultPlaybackDevice route. */
  method SetDefaultPlaybackDeviceRoute(body: Binding<AudioDevice>, ep: Playback.EndPointController)
    returns (status: HttpStatusCode)
    modifies ep
    ensures status == BadRequest <==> body.NullBody?
    ensures status == OK <==> body.Bound? && ep.answer(body.value.id) >= 0
    ensures status == InternalServerError <==> body.BindThrows? || (body.Bound? && ep.answer(body.value.id) < 0)
    ensures ep.requested == old(ep.requested) + (if body.Bound? then [body.value.id] else [])
    ensures ep.freed == old(ep.freed)
  {
    var succeeded;
    match body {
      case BindThrows =>
        succeeded := false;
      case NullBody =>
        return BadRequest;
      case Bound(device) =>
        var r := Playback.SetDefaultPlaybackDevice(ep, device.id);
        succeeded := r.Success?;
    }
    status := if succeeded then OK else InternalServerError;
  }

  /** An `AudioDevice` object initializer: the default constructor, then the setters in order. */
  method NewDevice(id: string, isCurrentDevice: bool, name: string) returns (d: AudioDevice)
    ensures fresh(d) && d.id == Some(id) && d.name == Some(name) && d.isCurrentDevice == isCurrentDevice
  {
    d := new AudioDevice.Empty();
    d.SetId(Some(id));
    d.SetIsCurrentDevice(isCurrentDevice);
    d.SetName(Some(name));
  }

  /** `GetDummyPlaybackDevices`: three devices, the first of them current. */
  method GetDummyPlaybackDevices() returns (list: seq<AudioDevice>)
    ensures |list| == 3
    ensures forall i :: 0 <= i < 3 ==> fresh(list[i])
    ensures list[0].id == Some("1") && list[0].name == Some("Speaker") && list[0].isCurrentDevice
    ensures list[1].id == Some("2") && list[1].name == Some("Headphones") && !list[1].isCurrentDevice
    ensures list[2].id == Some("3") && list[2].name == Some("Monitor") && !list[2].isCurrentDevice
  {
    var speaker := NewDevice("1", true, "Speaker");
    var headphones := NewDevice("2", false, "Headphones");
    var monitor := NewDevice("3", false, "Monitor");
    list := [speaker, headphones, monitor];
  }

  /** `GetDummyDefaultPlaybackDevice`: the dummy list's first device. */
  method GetDummyDefaultPlaybackDevice() returns (d: AudioDevice)
    ensures fresh(d) && d.id == Some("1") && d.name == Some("Speaker") && d.isCurrentDevice
  {
    d := NewDevice("1", true, "Speaker");
  }

  // ------------------------------------------------------------ JavaScript text

  /** A null string interpolates as the empty one. */
  function OrEmpty(s: Option<string>): string {
    if s.Some? then s.value else ""
  }

  /** `bool.ToString().ToLower()`. */
  function BoolText(b: bool): string {
    if b then "true" else "false"
  }

  // The fixed pieces of the object literal.
  const Open := "{Id:\""
  const NameSep := "\",Name:\""
  const FlagSep := "\",IsCurrentDevice:"

  /** What follows the name: the flag, in lower case, and the closing brace. */
  function FlagTail(isCurrentDevice: bool): string {
    FlagSep + BoolText(isCurrentDevice) + "}"
  }

  /** The fields of a device written as a JavaScript object literal. */
  function ObjectText(id: string, name: string, isCurrentDevice: bool): string {
    Open + id + NameSep + name + FlagTail(isCurrentDevice)
  }

  /** `MakeJavaScriptObjectString`. */
  function MakeJavaScriptObjectString(device: AudioDevice): (s: string)
    reads device
    ensures |s| >= 5 && s[..5] == Open && s[|s| - 1] == '}'
    ensures '"' !in OrEmpty(device.id) && '"' !in OrEmpty(device.name) ==>
      ParseObjectText(s) == Some((OrEmpty(device.id), OrEmpty(device.name), device.isCurrentDevice))
  {
    var s := ObjectText(OrEmpty(device.id), OrEmpty(device.name), device.isCurrentDevice);
    if '"' !in OrEmpty(device.id) && '"' !in OrEmpty(device.name) then
      ObjectTextParses(OrEmpty(device.id), OrEmpty(device.name), device.isCurrentDevice);
      s
    else s
  }

  /** Reads the three fields back out of an object literal, if it has that shape. */
  function ParseObjectText(s: string): Option<(string, string, bool)> {
    if |s| < |Open| || s[..|Open|] != Open then None else ParseId(s[|Open|..])
  }

  /** The id runs to the first quote; the name separator follows it. */
  function ParseId(rest: string): Option<(string, string, bool)> {
    match FirstIndex(rest, '"')
    case None => None
    case Some(a) =>
      var after := rest[a..];
      if |after| < |NameSep| || after[..|NameSep|] != NameSep then None
      else ParseName(rest[..a], after[|NameSep|..])
  }

  /** The name runs to the next quote; the flag follows it. */
  function ParseName(id: string, rest: string): Option<(string, string, bool)> {
    match FirstIndex(rest, '"')
    case None => None
    case Some(b) =>
      var flag := ParseFlag(rest[b..]);
      if flag.None? then None else Some((id, rest[..b], flag.value))
  }

  function ParseFlag(tail: string): Option<bool> {
    if tail == FlagSep + "true}" then Some(true)
    else if tail == FlagSep + "false}" then Some(false)
    else None
  }

  /** The first quote after a quote-free prefix is the one right after it. */
  lemma {:induction false} FirstQuoteAfter(a: string, rest: string)
    requires '"' !in a && '"' in rest
    ensures FirstIndex(a + rest, '"') == Some(|a| + FirstIndex(rest, '"').value)
  {
    if a == [] {
      assert a + rest == rest;
    } else {
      assert (a + rest)[1..] == a[1..] + rest;
      FirstQuoteAfter(a[1..], rest);
    }
  }

  /** An object literal whose id and name hold no quote reads back to its fields. */
  lemma ObjectTextParses(id: string, name: string, isCurrentDevice: bool)
    requires '"' !in id && '"' !in name
    ensures ParseObjectText(ObjectText(id, name, isCurrentDevice)) == Some((id, name, isCurrentDevice))
  {
    var rest2 := name + FlagTail(isCurrentDevice);
    var rest := id + (NameSep + rest2);
    var s := ObjectText(id, name, isCurrentDevice);
    Regroup(Open, id, NameSep, name, FlagTail(isCurrentDevice));
    assert s[|Open|..] == rest;
    NameParses(id, name, isCurrentDevice);
    IdParses(id, rest2);
  }

  lemma Regroup(a: string, b: string, c: string, d: string, e: string)
    ensures a + b + c + d + e == a + (b + (c + (d + e)))
  {
  }

  lemma IdParses(id: string, rest2: string)
    requires '"' !in id
    ensures ParseId(id + (NameSep + rest2)) == ParseName(id, rest2)
  {
    var rest := id + (NameSep + rest2);
    FirstQuoteAfter(id, NameSep + rest2);
    assert FirstIndex(NameSep + rest2, '"') == Some(0);
    assert rest[..|id|] == id && rest[|id|..] == NameSep + rest2;
    assert (NameSep + rest2)[|NameSep|..] == rest2;
  }

  lemma NameParses(id: string, name: string, isCurrentDevice: bool)
    requires '"' !in name
    ensures ParseName(id, name + FlagTail(isCurrentDevice)) == Some((id, name, isCurrentDevice))
  {
    var tail := FlagTail(isCurrentDevice);
    var rest := name + tail;
    FirstQuoteAfter(name, tail);
    assert FirstIndex(tail, '"') == Some(0);
    assert rest[..|name|] == name && rest[|name|..] == tail;
    FlagParses(isCurrentDevice);
  }

  /** The flag reads back: the two tails differ already in length. */
  lemma FlagParses(isCurrentDevice: bool)
    ensures ParseFlag(FlagTail(isCurrentDevice)) == Some(isCurrentDevice)
  {
    if !isCurrentDevice {
      assert |FlagTail(false)| != |FlagSep + "true}"|;
    }
  }
}
