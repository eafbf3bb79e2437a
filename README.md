# PC-Volume-Control in Dafny

PC-Volume-Control is a Windows service. It exposes the PC's speaker volume and
its playback devices over HTTP. Underneath sits a thin audio layer over Windows
Core Audio.

This project models the decision logic of that audio layer and of the web
module. Every COM object is an opaque `Handle`. What the platform answers is
given as data. The effects the code has on the platform are kept in ghost logs:

- releasing a COM object (`Runtime.released`, a multiset, so "exactly once" can be stated);
- clearing a PROPVARIANT (`Ole32.cleared`);
- calling a session or endpoint setter (`SessionControl.calls`, `EndpointVolume.contexts`);
- freeing the native device array and switching the default device (`EndPointController.freed`, `requested`).

Modules, one per file:

| file | module | models |
|---|---|---|
| `wrappers.dfy` | `Wrappers` | `Option` and `Result` |
| `text.dfy` | `Text` | hex and decimal text, substring search, `char.IsWhiteSpace` |
| `sequences.dfy` | `Sequences` | order-preserving filters (LINQ `Where`), first occurrence, prefix counting |
| `guids.dfy` | `Guids` | `Guid`, its `"D"` and `"B"` text forms |
| `property_keys.dfy` | `PropertyKeys` | `PROPERTYKEY` and its `ToString`, the five fixed keys the device accessors read |
| `property_decoder.dfy` | `PropertyDecoder` | `PROPVARIANT.GetValue` and the `[Flags]` text of `VARTYPE` |
| `platform.dfy` | `Platform` | the COM objects: release log, session control, endpoint volume |
| `audio_utilities.dfy` | `AudioUtilities` | `CreateDevice`, `GetAllDevices`, the Active and speaker filters, `Win32AudioDevice`, interface activation |
| `audio_session.dfy` | `AudioSessions` | `AudioSession`, `GetAllSessions`, `GetProcessSession` |
| `volume_mixer.dfy` | `VolumeMixer` | `GetVolumeObject` and the four per-application volume and mute wrappers |
| `playback.dfy` | `Playback` | the native device array (`GetAudioDevices`) and `SetDefaultPlaybackDevice` |
| `audio_device.dfy` | `AudioDevices` | the `AudioDevice` transfer object |
| `user_mapper.dfy` | `UserMapper` | `UserMapper.Validate` |
| `http_module.dfy` | `Http` | the routes of `HttpModule`, volume scaling, status decisions, device lists, `MakeJavaScriptObjectString` |

Platform inputs:

- The device enumerator's answer is an `Enumeration`: no enumerator, no collection, or the items, each of which may be null.
- An endpoint carries its id, state and property store. Each store slot records the `GetAt` result, the key, the PROPVARIANT and whether `PropVariantClear` throws on it.
- Pointers inside a PROPVARIANT resolve through `NativeMemory`.
- The session manager is given as its handle, its enumerator's handle and its sessions.
- `Process.GetProcessById` is a map from pid to process.
- `Process.GetCurrentProcess().Id` is a parameter.
- `Guid.NewGuid()` is a parameter.
- The configured username and password are parameters.
- `this.Bind<T>()` is a `Binding<T>`: the bound body, null, or an exception.

Behaviour of the platform that the model fixes:

- `ISimpleAudioVolume.SetMasterVolume` takes a level from 0 to 1 and refuses any other level, leaving the volume unchanged (`SessionLevelAfter`).
- `IAudioEndpointVolume.SetMasterVolumeLevelScalar` caps a level above 1 at 1. It refuses a negative level (`EndpointLevelAfter`).

Two details of the code the model follows as written:

- `Guid.ToString` writes lower-case hex digits. The property names the device accessors look up are lower case too, and `PropertyKeys.*NameIsKeyName` proves each one equals the name its key is stored under.
- The speaker filter only matches the spellings its regular expressions list. It is not case-insensitive: "MiCrophone" is kept (`AudioUtilities.MixedCaseMicrophoneKept`).

Consequences of the code as written, stated in the contracts:

- `GetProcessSession` disposes the sessions scanned before the match. The sessions after the match are neither disposed nor returned.
- `GET /DefaultPlaybackDevice` reports the live default device with `IsCurrentDevice` false. The dummy route reports it as true.
- `MakeJavaScriptObjectString` does not escape quotes. Its text reads back to the device's fields only when the id and name hold no `"`. A null id or name is written as the empty string.
- `SetDummyVolume` and `SetDummyDefaultPlaybackDevice` have no `try`. An exception from binding escapes them (`Failure(Unhandled)`).
- `CreateDevice` and `GetAllDevices` release none of the COM objects they obtain. No release is recorded for them.
- Other COM objects are never released, and the model does not represent them as handles:
  - `GetCurrentSpeakers` (Audio/Audio/AudioUtilities.cs:150-164) never releases the device enumerator it creates;
  - `GetAudioSessionManager` never releases the speakers it activates on, on every `GetAllSessions` and `GetProcessSession`;
  - the HTTP volume and device paths release neither the speakers nor the `IAudioEndpointVolume` (PC-Volume-Controller/PC-Volume-Controller/HttpModule.cs:276-308).

  Only `GetVolumeObject` releases all four of its platform objects.

## Model

| member | source | states |
|---|---|---|
| Text.DecimalRoundTrip | Audio/Audio/AudioUtilities.cs:265-268 | the decimal text of an `int` (as `pid` is printed in a key name) reads back to the same integer |
| Guids.FormatD | Audio/Audio/AudioUtilities.cs:754-763 | the `"D"` form of a Guid is 36 characters with dashes at positions 8, 13, 18 and 23 |
| Guids.FormatB | Audio/Audio/AudioUtilities.cs:265-268 | the `"B"` form is 38 characters, braced |
| Guids.FormatDRoundTrip | Audio/Audio/AudioUtilities.cs:265-268 | the `"D"` text of a Guid parses back to the same Guid |
| Guids.FormatDInjective | Audio/Audio/AudioUtilities.cs:754-763 | two Guids with the same text are equal |
| PropertyKeys.KeyNameRoundTrip | Audio/Audio/AudioUtilities.cs:265-268 | a key's name (braced Guid, a space, the decimal pid) parses back to the key |
| PropertyKeys.KeyNameInjective | Audio/Audio/AudioUtilities.cs:265-268 | two keys have the same name exactly when they are equal, so the property map never merges distinct keys |
| PropertyKeys.DeviceDescNameIsKeyName | Audio/Audio/AudioUtilities.cs:758 | the literal the Description accessor looks up is the name of `PKEY_Device_DeviceDesc` |
| PropertyKeys.ContainerIdNameIsKeyName | Audio/Audio/AudioUtilities.cs:769 | the ContainerId literal is the name of `PKEY_Devices_ContainerId` |
| PropertyKeys.EnumeratorNameNameIsKeyName | Audio/Audio/AudioUtilities.cs:780 | the EnumeratorName literal is the name of `PKEY_Device_EnumeratorName` |
| PropertyKeys.InterfaceFriendlyNameNameIsKeyName | Audio/Audio/AudioUtilities.cs:791 | the InterfaceFriendlyName literal is the name of `DEVPKEY_DeviceInterface_FriendlyName` |
| PropertyKeys.FriendlyNameNameIsKeyName | Audio/Audio/AudioUtilities.cs:802 | the FriendlyName literal is the name of `DEVPKEY_Device_FriendlyName` |
| PropertyDecoder.GetValue | Audio/Audio/AudioUtilities.cs:292-311 | the result is a bool exactly for VT_BOOL, an int exactly for VT_UI4, a Guid exactly for VT_CLSID, null exactly for a null VT_LPWSTR |
| PropertyDecoder.BoolRoundTrip | Audio/Audio/AudioUtilities.cs:296-297 | a VT_BOOL decodes to the boolean in its low 16 bits, whatever the other bytes hold |
| PropertyDecoder.Int32RoundTrip | Audio/Audio/AudioUtilities.cs:302-303 | a VT_UI4 decodes to the signed 32-bit `lVal` it holds |
| PropertyDecoder.StringPointerDecodes | Audio/Audio/AudioUtilities.cs:299-300 | a VT_LPWSTR decodes to the string it points at, or null for a null pointer |
| PropertyDecoder.GuidPointerDecodes | Audio/Audio/AudioUtilities.cs:305-306 | a VT_CLSID decodes to the Guid it points at |
| PropertyDecoder.OtherTagsDecodeToText | Audio/Audio/AudioUtilities.cs:308-309 | every other tag decodes to the tag's text followed by ":?" |
| PropertyDecoder.DeclaredButUnhandled | Audio/Audio/AudioUtilities.cs:273-281 | VT_I4 and VT_BLOB, declared but without a case, decode to "VT_I4:?" and "VT_BLOB:?" |
| PropertyDecoder.TagNameOfI4 | Audio/Audio/AudioUtilities.cs:275 | the `[Flags]` text of tag 3 is "VT_I4" |
| PropertyDecoder.TagNameOfBlob | Audio/Audio/AudioUtilities.cs:279 | the `[Flags]` text of tag 65 is "VT_BLOB" |
| PropertyDecoder.CoveredBitsAreSmaller | Audio/Audio/AudioUtilities.cs:272-273 | a flag whose bits are all set in a value is no larger than it, so removing it leaves a natural number |
| AudioUtilities.Ole32.PropVariantClear | Audio/Audio/AudioUtilities.cs:39-40 | each call is logged, and it throws as the slot says |
| AudioUtilities.CreateDevice | Audio/Audio/AudioUtilities.cs:75-115 | null for a null endpoint; otherwise the device with the endpoint's id and state and the property map of its store, and exactly the read non-blob PROPVARIANTs cleared, in order |
| AudioUtilities.StoreMapKeys | Audio/Audio/AudioUtilities.cs:91-110 | the map holds a name exactly when some slot whose `GetAt` returned 0 has a key of that name |
| AudioUtilities.StoreMapLastWins | Audio/Audio/AudioUtilities.cs:109-110 | a key's value is the one decoded from the last successful slot with that key |
| AudioUtilities.StoreMapIgnoresCodes | Audio/Audio/AudioUtilities.cs:96-108 | neither the result code of `GetValue` nor a throwing `PropVariantClear` changes the map |
| AudioUtilities.GetAllDevices | Audio/Audio/AudioUtilities.cs:117-148 | an empty list without an enumerator or a collection; otherwise one device per non-null item, in index order, with the clears of every item |
| AudioUtilities.DevicesOfMembers | Audio/Audio/AudioUtilities.cs:138-146 | a device is listed exactly when some non-null item builds it |
| AudioUtilities.DevicesOfCount | Audio/Audio/AudioUtilities.cs:138-146 | the list has one device per non-null item |
| AudioUtilities.Render | Audio/Audio/AudioUtilities.cs:760-761 | an absent or null value interpolates as the empty string |
| AudioUtilities.Description | Audio/Audio/AudioUtilities.cs:754-763 | "" when the description key is absent; never fails |
| AudioUtilities.ContainerId | Audio/Audio/AudioUtilities.cs:765-774 | "" when the container id key is absent; never fails |
| AudioUtilities.EnumeratorName | Audio/Audio/AudioUtilities.cs:776-785 | "" when the enumerator name key is absent; never fails |
| AudioUtilities.InterfaceFriendlyName | Audio/Audio/AudioUtilities.cs:787-796 | "" when the interface friendly name key is absent; never fails |
| AudioUtilities.FriendlyName | Audio/Audio/AudioUtilities.cs:798-807 | "" when the friendly name key is absent; never fails |
| AudioUtilities.DeviceTextOfCreatedDevice | Audio/Audio/AudioUtilities.cs:809-812 | the `ToString` of a built device is the interpolated value of the last readable friendly-name slot of its store |
| AudioUtilities.DescriptionOfCreatedDevice | Audio/Audio/AudioUtilities.cs:75-115 | a built device whose last readable description slot holds a string reports that string as its Description |
| AudioUtilities.DescriptionWithoutSlot | Audio/Audio/AudioUtilities.cs:754-763 | a device with no readable description slot, or whose store would not open, has an empty Description |
| AudioUtilities.ActiveDevicesKeepActive | Audio/Audio/AudioUtilities.cs:166-169 | exactly the Active devices are kept, as a subsequence of the input, each as many times as it occurs in the input |
| AudioUtilities.ActiveSpeakersMembers | Audio/Audio/AudioUtilities.cs:171-178 | the speakers are exactly the Active devices whose Description contains none of the listed spellings, as a subsequence of the active devices, each as many times as it occurs in the input |
| AudioUtilities.ActiveSpeakersStable | Audio/Audio/AudioUtilities.cs:171-178 | filtering the speakers again keeps them all |
| AudioUtilities.MixedCaseMicrophoneKept | Audio/Audio/AudioUtilities.cs:175 | "MiCrophone" matches none of the patterns: the filter is not case-insensitive |
| AudioUtilities.ListedSpellingExcluded | Audio/Audio/AudioUtilities.cs:175-177 | a listed spelling anywhere in a Description excludes the device |
| AudioUtilities.ActivateOn | Audio/Audio/AudioUtilities.cs:42-68 | an interface is obtained exactly when there is an endpoint, `Activate` returns 0 and yields an object |
| AudioUtilities.GetAudioSessionManager | Audio/Audio/AudioUtilities.cs:42-54 | a manager exactly when there are speakers, `Activate` returns 0 and yields an object, and then that object |
| AudioUtilities.GetAudioEndpointVolume | Audio/Audio/AudioUtilities.cs:56-68 | on the given device, or the current speakers when it is null: a volume object exactly when that endpoint exists, `Activate` returns 0 and yields an object, and then that object |
| AudioSessions.SessionText | Audio/Audio/AudioUtilities.cs:719-729 | "DisplayName: " and the name when there is one; else "Process: " and the process name; else "Pid: " and a decimal that reads back to the pid |
| AudioSessions.AudioSession.constructor | Audio/Audio/AudioUtilities.cs:587-590 | a session holding the control, with no cached process |
| AudioSessions.AudioSession.ProcessId | Audio/Audio/AudioUtilities.cs:611-620 | fails with ObjectDisposed exactly when disposed; otherwise the control's pid |
| AudioSessions.AudioSession.Identifier | Audio/Audio/AudioUtilities.cs:622-631 | fails exactly when disposed; otherwise the session identifier |
| AudioSessions.AudioSession.InstanceIdentifier | Audio/Audio/AudioUtilities.cs:633-642 | fails exactly when disposed; otherwise the instance identifier |
| AudioSessions.AudioSession.State | Audio/Audio/AudioUtilities.cs:644-653 | fails exactly when disposed; otherwise the session state |
| AudioSessions.AudioSession.GroupingParam | Audio/Audio/AudioUtilities.cs:655-663 | fails exactly when disposed; otherwise the grouping parameter |
| AudioSessions.AudioSession.DisplayName | Audio/Audio/AudioUtilities.cs:671-679 | fails exactly when disposed; otherwise the display name |
| AudioSessions.AudioSession.IconPath | Audio/Audio/AudioUtilities.cs:692-700 | fails exactly when disposed; otherwise the icon path |
| AudioSessions.AudioSession.SetGroupingParam | Audio/Audio/AudioUtilities.cs:664-668 | fails exactly when disposed; otherwise always calls the control with `Guid.Empty`; names, volume and mute are unchanged |
| AudioSessions.AudioSession.SetDisplayName | Audio/Audio/AudioUtilities.cs:680-689 | fails exactly when disposed; calls the control's setter only when the name differs; icon path, grouping, volume and mute are unchanged |
| AudioSessions.AudioSession.SetIconPath | Audio/Audio/AudioUtilities.cs:701-710 | fails exactly when disposed; calls the control's setter only when the path differs; name, grouping, volume and mute are unchanged |
| AudioSessions.AudioSession.Process | Audio/Audio/AudioUtilities.cs:592-609 | a cached process is returned even after disposal; otherwise a non-zero pid is looked up and cached when found, and a failed lookup is swallowed |
| AudioSessions.AudioSession.ToString | Audio/Audio/AudioUtilities.cs:719-729 | fails exactly when disposed; otherwise the text `SessionText` gives for what it read; the process cache is consulted and filled only when the display name is empty |
| AudioSessions.AudioSession.Dispose | Audio/Audio/AudioUtilities.cs:731-738 | the session ends disposed; the control is released once on the first call, and later calls release nothing |
| AudioSessions.LiveMembers | Audio/Audio/AudioUtilities.cs:196-197 | skipping null controls keeps exactly the non-null ones |
| AudioSessions.GetAllSessions | Audio/Audio/AudioUtilities.cs:180-205 | empty without a manager; otherwise one new session per non-null control, in order, and the enumerator and the manager released once each |
| AudioSessions.GetProcessSession | Audio/Audio/AudioUtilities.cs:207-218 | the first session of the current process; every session before it released exactly once; null with all sessions released when none matches |
| Platform.Runtime.Release | Audio/Audio/VolumeMixer.cs:113 | one more release of that object |
| Platform.SessionControl.SetMasterVolumeCall | Audio/Audio/VolumeMixer.cs:64 | the level is taken when in 0..1 and the call is logged; mute and names are unchanged |
| Platform.SessionControl.SetMuteCall | Audio/Audio/VolumeMixer.cs:75 | the mute state is set and the call is logged; the volume is unchanged |
| Platform.EndpointVolume.SetMasterVolumeLevelScalar | PC-Volume-Controller/PC-Volume-Controller/HttpModule.cs:296-297 | the scalar becomes the level capped at 1, a negative level is refused; the context is logged |
| Platform.SessionLevelAfter | Audio/Audio/VolumeMixer.cs:64 | a level in 0..1 is taken; any other leaves the volume as it was |
| Platform.EndpointLevelAfter | PC-Volume-Controller/PC-Volume-Controller/HttpModule.cs:296-297 | a non-negative level gives a scalar in 0..1, the level itself or 1 when above 1; a negative one leaves it as it was |
| Platform.ScanReleasesOnce | Audio/Audio/VolumeMixer.cs:108-113 | with distinct controls, each control scanned past is released exactly once |
| Platform.ScanLeavesMatch | Audio/Audio/VolumeMixer.cs:108-112 | with distinct controls, the matching control is not released by the scan |
| VolumeMixer.Stop | Audio/Audio/VolumeMixer.cs:101-112 | the scan stops within the sessions, at a session of the requested pid when it stops early |
| VolumeMixer.StopIsFirstMatch | Audio/Audio/VolumeMixer.cs:108-112 | every session before the stop belongs to another process, so the match is the first |
| VolumeMixer.GetVolumeObject | Audio/Audio/VolumeMixer.cs:79-120 | the first session of `pid` or null when there is none; every session before it and the four platform objects are released, the match is not |
| VolumeMixer.PlatformHandles | Audio/Audio/VolumeMixer.cs:115-118 | the session enumerator, manager, speakers and device enumerator are the four objects released at the end |
| VolumeMixer.ToScalar | Audio/Audio/VolumeMixer.cs:64 | a percentage is in 0..100 exactly when its scalar is in 0..1 |
| VolumeMixer.ToPercent | Audio/Audio/VolumeMixer.cs:42 | a scalar is in 0..1 exactly when its percentage is in 0..100 |
| VolumeMixer.PercentRoundTrip | Audio/Audio/VolumeMixer.cs:40-42 | over reals, the percentage of the scalar of a percentage is that percentage; the fact is arithmetic, with float rounding left out |
| VolumeMixer.GetApplicationVolume | Audio/Audio/VolumeMixer.cs:33-43 | null exactly when no session matches; else the session's volume in percent, with the session released once after the read |
| VolumeMixer.GetApplicationMute | Audio/Audio/VolumeMixer.cs:45-55 | null exactly when no session matches; else the session's mute state, with the session released once |
| VolumeMixer.SetApplicationVolume | Audio/Audio/VolumeMixer.cs:57-66 | the matched session is asked for `level / 100` with `Guid.Empty` and released once, its mute, names and grouping unchanged; with no match no session changes |
| VolumeMixer.SetApplicationMute | Audio/Audio/VolumeMixer.cs:68-77 | the matched session's mute is set with `Guid.Empty` and it is released once, its volume, names and grouping unchanged; with no match no session changes |
| VolumeMixer.SetThenGetVolume | Audio/Audio/VolumeMixer.cs:33-66 | setting 0..100 percent and reading back gives that percentage; any other percentage leaves the volume unchanged. This follows from the modelled platform rule `SessionLevelAfter` and real arithmetic, not from the C# code alone |
| Playback.EndPointController.Entries | Audio/Audio/Playback.cs:28-39 | the array holds `deviceCount` entries (none for a negative count), entry i at `base + i * entrySize` |
| Playback.EndPointController.FreeAudioDeviceArray | Audio/Audio/Playback.cs:15-16 | one more free of that pointer is logged |
| Playback.EndPointController.SetDefaultAudioPlaybackDevice | Audio/Audio/Playback.cs:12-13 | answers the library's result and logs the request |
| Playback.Add | Audio/Audio/Playback.cs:36 | `Dictionary.Add` throws exactly for a null or already present id; otherwise the entry is added |
| Playback.IndexByIdSucceeds | Audio/Audio/Playback.cs:32-39 | indexing succeeds exactly when all ids are non-null and distinct; then the dictionary has one key per entry, exactly the ids, each mapped to its entry |
| Playback.FailureIsFinal | Audio/Audio/Playback.cs:36 | once an `Add` has thrown, the later entries change nothing |
| Playback.NoEntriesIndexEmpty | Audio/Audio/Playback.cs:22-46 | no entries give an empty dictionary |
| Playback.GetAudioDevices | Audio/Audio/Playback.cs:18-47 | the entries read in order, indexed by id, or the first `Add` failure; the array is freed exactly once, at the original pointer, on both paths |
| Playback.SetDefaultPlaybackDevice | Audio/Audio/Playback.cs:49-57 | fails exactly when the native result is negative; the id is passed once |
| UserMapper.Validate | PC-Volume-Controller/PC-Volume-Controller/Authentication/UserMapper.cs:14-43 | null for a blank supplied or configured credential and for any mismatch; a user only under the supplied username |
| UserMapper.ConfiguredCredentialsAccepted | PC-Volume-Controller/PC-Volume-Controller/Authentication/UserMapper.cs:39-42 | the configured non-blank credentials give the configured user |
| UserMapper.OnlyConfiguredUserAdmitted | PC-Volume-Controller/PC-Volume-Controller/Authentication/UserMapper.cs:14-43 | any user returned is the configured one, admitted with the configured non-blank password |
| UserMapper.BlankUserRefused | PC-Volume-Controller/PC-Volume-Controller/Authentication/UserMapper.cs:16-20 | a white-space username is refused even when it is the configured one |
| AudioDevices.AudioDevice.Empty | Audio/Audio/AudioDevice.cs:37 | Id and Name null, not current |
| AudioDevices.AudioDevice.FromDevice | Audio/Audio/AudioDevice.cs:39-43 | Id is the device's id, Name its interface friendly name, not current |
| AudioDevices.AudioDevice.FromDeviceMarked | Audio/Audio/AudioDevice.cs:45-50 | the same, marked current as given |
| AudioDevices.AudioDevice.SetId | Audio/Audio/AudioDevice.cs:15-19 | sets Id only |
| AudioDevices.AudioDevice.SetName | Audio/Audio/AudioDevice.cs:21-25 | sets Name only |
| AudioDevices.AudioDevice.SetIsCurrentDevice | Audio/Audio/AudioDevice.cs:27-31 | sets IsCurrentDevice only |
| Http.HttpModule.constructor | PC-Volume-Controller/PC-Volume-Controller/HttpModule.cs:24-41 | the eight GET and four POST routes; every POST path also has a GET route |
| Http.ScalarFor | PC-Volume-Controller/PC-Volume-Controller/HttpModule.cs:297 | never negative; a non-negative percentage is divided by 100; above 100 it exceeds 1 (not clamped here) |
| Http.GetCurrentVolume | PC-Volume-Controller/PC-Volume-Controller/HttpModule.cs:276-287 | fails exactly without an endpoint; otherwise the scalar times 100, in 0..100 for a scalar in 0..1 |
| Http.SetVolume | PC-Volume-Controller/PC-Volume-Controller/HttpModule.cs:289-298 | fails exactly without an endpoint; otherwise the endpoint takes the scaled level with a fresh context |
| Http.SetThenGetCurrentVolume | PC-Volume-Controller/PC-Volume-Controller/HttpModule.cs:276-298 | the volume read back after a set is the request clamped to 0..100. This follows from `ScalarFor`, the modelled platform rule `EndpointLevelAfter` and real arithmetic |
| Http.SetVolumeRoute | PC-Volume-Controller/PC-Volume-Controller/HttpModule.cs:148-170 | BadRequest exactly for a null body, OK exactly when bound and set, InternalServerError exactly when anything threw; the endpoint changes only on OK |
| Http.SetDummy | PC-Volume-Controller/PC-Volume-Controller/HttpModule.cs:137-142 | OK exactly for a bound body, BadRequest exactly for null, an escaping exception otherwise |
| Http.GetAudioDeviceList | PC-Volume-Controller/PC-Volume-Controller/HttpModule.cs:300-308 | one new device per active speaker, in order, marked current exactly when its id is the default endpoint's; fails without speakers |
| Http.GetCurrentDevice | PC-Volume-Controller/PC-Volume-Controller/HttpModule.cs:310-313 | the device built for the current speakers, not marked current; fails when there are none |
| Http.SetDefaultPlaybackDeviceRoute | PC-Volume-Controller/PC-Volume-Controller/HttpModule.cs:223-245 | BadRequest exactly for a null body, OK exactly when the switch succeeds, InternalServerError otherwise; the id is requested only for a bound body |
| Http.NewDevice | PC-Volume-Controller/PC-Volume-Controller/HttpModule.cs:189-194 | the object initializer yields a new device with the given fields |
| Http.GetDummyPlaybackDevices | PC-Volume-Controller/PC-Volume-Controller/HttpModule.cs:185-208 | three devices "1" Speaker, "2" Headphones, "3" Monitor; only the first is current |
| Http.GetDummyDefaultPlaybackDevice | PC-Volume-Controller/PC-Volume-Controller/HttpModule.cs:251-259 | device "1", "Speaker", current |
| Http.MakeJavaScriptObjectString | PC-Volume-Controller/PC-Volume-Controller/HttpModule.cs:320-326 | starts with `{Id:"` and ends with `}`; when id and name hold no quote it reads back to the id, the name and the flag |
| Http.ObjectTextParses | PC-Volume-Controller/PC-Volume-Controller/HttpModule.cs:322-325 | `{Id:"<id>",Name:"<name>",IsCurrentDevice:<true or false>}` reads back to its three fields for quote-free id and name |
| Http.FlagParses | PC-Volume-Controller/PC-Volume-Controller/HttpModule.cs:324 | the flag is written in lower case and reads back |

## Left out

- COM interface declarations, vtables, GUID attributes and apartment threading: every COM object is an opaque handle, and the model is sequential.
- What `PropVariantClear` frees in native memory: only the fact and the order of the calls are recorded.
- `ctl as ISimpleAudioVolume` in `GetVolumeObject` is taken to succeed: a session control is also its simple volume.
- The 32-bit `IntPtr.ToInt32()` arithmetic of `GetAudioDevices`: addresses are unbounded integers, so a pointer beyond 2^31 is not modelled.
- Playback.EndPointController.Entries: a pointer whose `PtrToStructure` would fault is excluded by `Valid()`, since what native memory holds there is unknown.
- Float semantics: volumes are reals, so rounding of `level / 100` and `level * 100` and the audio taper are not modelled.
- `GetCurrentSpeakers` and `GetSpeakersDevice`: they are the null-or-endpoint input (`Option<Endpoint>`, `Option<Handle>`) of the operations that call them, and the exception they swallow is not modelled.
- A null platform object where the C# code would throw `NullReferenceException` becomes `Failure(NullReference)` or is excluded by a non-null type.
- PropertyDecoder.GetValue: a VT_CLSID whose `puuid` is null is excluded by `Readable`. In the C# code the unboxing of the null `PtrToStructure` result throws `NullReferenceException` out of `GetValue`, `CreateDevice` and `GetAllDevices` uncaught. The same exclusion reaches `CreateDevice` and `GetAllDevices` through `StoreReadable`.
- `Process.GetProcessById` is a map input and `Process.GetCurrentProcess` a pid input; which processes run is not modelled.
- `Index`, `DummyIndex`, `GetVolume`, `GetDummyVolume`, `GetPlaybackDevices`, `GetDefaultPlaybackDevice` and `FormatJson`: view rendering, `File.ReadAllText` and regular-expression rewriting of JSON text. Their data comes from the modelled `GetCurrentVolume`, `GetAudioDeviceList` and `GetCurrentDevice`, or from `DummyVolume`.
- Nancy's routing, model binding and authentication pipeline: a route table entry names its handler, and a binding is an input.
- The service host, `Program`, `AuthenticationBootstrapper`, `Constants`, `WaveOutCaps` and the claims of `User`: hosting glue and plain containers.
- The hardware tests in `AudioTests`.
- AudioUtilities.ActiveSpeakersMembers: Regex matching is stated as substring containment of the spellings the patterns list, not as a regular-expression engine.
