/**
 * The Windows Core Audio objects the audio layer talks to, reduced to what it
 * observes of them. Every COM object is a `Handle`; what the platform answers
 * is held in the objects as plain data, and the effects the audio layer has on
 * the platform (releasing a COM object, clearing a PROPVARIANT, calling a
 * setter) are recorded in ghost logs so that contracts can count them.
 */
module Platform {
  import opened Guids
  import opened Sequences

  /** An opaque COM interface pointer. */
  datatype Handle = Handle(id: nat)

  /** `AudioSessionState` (Audio/Audio/AudioUtilities.cs:815-820). */
  datatype SessionState = Inactive | Active | Expired

  /** The process-wide effect of `Marshal.ReleaseComObject`. */
  class Runtime {
    /** How many times each COM object has been released. */
    ghost var released: multiset<Handle>

    constructor ()
      ensures released == multiset{}
    {
      released := multiset{};
    }

    method Release(h: Handle)
      modifies this
      ensures released == old(released) + multiset{h}
    {
      released := released + multiset{h};
    }
  }

  /** The setter calls the audio layer makes on a session, with their event context. */
  datatype SessionCall =
    | SetDisplayName(name: string, context: Guid)
    | SetIconPath(path: string, context: Guid)
    | SetGroupingParam(param: Guid, context: Guid)
    | SetMasterVolume(level: real, context: Guid)
    | SetMute(mute: bool, context: Guid)

  /**
   * One audio session as `IAudioSessionControl2` and, through the same COM
   * object, `ISimpleAudioVolume`. Its identity answers are fixed; the values
   * its setters change are fields, and every setter call is logged.
   */
  class SessionControl {
    const handle: Handle
    const processId: int
    const identifier: string
    const instanceIdentifier: string
    const state: SessionState
    var displayName: string
    var iconPath: string
    var groupingParam: Guid
    var volume: real
    var mute: bool
    ghost var calls: seq<SessionCall>

    constructor (handle: Handle, processId: int, identifier: string, instanceIdentifier: string,
                 state: SessionState, displayName: string, iconPath: string, groupingParam: Guid,
                 volume: real, mute: bool)
      ensures this.handle == handle && this.processId == processId
      ensures this.identifier == identifier && this.instanceIdentifier == instanceIdentifier
      ensures this.state == state && this.displayName == displayName && this.iconPath == iconPath
      ensures this.groupingParam == groupingParam && this.volume == volume && this.mute == mute
      ensures calls == []
    {
      this.handle := handle;
      this.processId := processId;
      this.identifier := identifier;
      this.instanceIdentifier := instanceIdentifier;
      this.state := state;
      this.displayName := displayName;
      this.iconPath := iconPath;
      this.groupingParam := groupingParam;
      this.volume := volume;
      this.mute := mute;
      calls := [];
    }

    method SetDisplayNameCall(name: string, context: Guid)
      modifies this
      ensures displayName == name && calls == old(calls) + [SetDisplayName(name, context)]
      ensures iconPath == old(iconPath) && groupingParam == old(groupingParam)
      ensures volume == old(volume) && mute == old(mute)
    {
      displayName := name;
      calls := calls + [SetDisplayName(name, context)];
    }

    method SetIconPathCall(path: string, context: Guid)
      modifies this
      ensures iconPath == path && calls == old(calls) + [SetIconPath(path, context)]
      ensures displayName == old(displayName) && groupingParam == old(groupingParam)
      ensures volume == old(volume) && mute == old(mute)
    {
      iconPath := path;
      calls := calls + [SetIconPath(path, context)];
    }

    method SetGroupingParamCall(param: Guid, context: Guid)
      modifies this
      ensures groupingParam == param && calls == old(calls) + [SetGroupingParam(param, context)]
      ensures displayName == old(displayName) && iconPath == old(iconPath)
      ensures volume == old(volume) && mute == old(mute)
    {
      groupingParam := param;
      calls := calls + [SetGroupingParam(param, context)];
    }

    method SetMasterVolumeCall(level: real, context: Guid)
      modifies this
      ensures volume == SessionLevelAfter(old(volume), level)
      ensures calls == old(calls) + [SetMasterVolume(level, context)]
      ensures displayName == old(displayName) && iconPath == old(iconPath)
      ensures groupingParam == old(groupingParam) && mute == old(mute)
    {
      volume := SessionLevelAfter(volume, level);
      calls := calls + [SetMasterVolume(level, context)];
    }

    method SetMuteCall(m: bool, context: Guid)
      modifies this
      ensures mute == m && calls == old(calls) + [SetMute(m, context)]
      ensures displayName == old(displayName) && iconPath == old(iconPath)
      ensures groupingParam == old(groupingParam) && volume == old(volume)
    {
      mute := m;
      calls := calls + [SetMute(m, context)];
    }
  }

  /** `IAudioEndpointVolume`: the master volume scalar of an endpoint, 0 to 1. */
  class EndpointVolume {
    var scalar: real
    /** The event context passed with each `SetMasterVolumeLevelScalar`. */
    ghost var contexts: seq<Guid>

    constructor (scalar: real)
      ensures this.scalar == scalar && contexts == []
    {
      this.scalar := scalar;
      contexts := [];
    }

    method SetMasterVolumeLevelScalar(level: real, context: Guid)
      modifies this
      ensures scalar == EndpointLevelAfter(old(scalar), level) && contexts == old(contexts) + [context]
    {
      scalar := EndpointLevelAfter(scalar, level);
      contexts := contexts + [context];
    }
  }

  /**
   * `ISimpleAudioVolume.SetMasterVolume`: a level from 0 to 1 is taken; any
   * other is refused with E_INVALIDARG and the volume stays as it was.
   */
  function SessionLevelAfter(current: real, level: real): (v: real)
    ensures 0.0 <= level <= 1.0 ==> v == level
    ensures !(0.0 <= level <= 1.0) ==> v == current
  {
    if 0.0 <= level <= 1.0 then level else current
  }

  /**
   * `IAudioEndpointVolume.SetMasterVolumeLevelScalar`: a level above 1 is
   * capped at 1; a negative one is refused and the volume stays as it was.
   */
  function EndpointLevelAfter(current: real, level: real): (v: real)
    ensures level >= 0.0 ==> 0.0 <= v <= 1.0 && (v == level || (level > 1.0 && v == 1.0))
    ensures level < 0.0 ==> v == current
  {
    if level < 0.0 then current else if level > 1.0 then 1.0 else level
  }

  /** The handles of a sequence of sessions, in order. */
  function HandlesOf(ctls: seq<SessionControl>): (hs: seq<Handle>)
    ensures |hs| == |ctls|
    ensures forall i :: 0 <= i < |ctls| ==> hs[i] == ctls[i].handle
  {
    if ctls == [] then [] else HandlesOf(ctls[..|ctls| - 1]) + [ctls[|ctls| - 1].handle]
  }

  /** The process ids of a sequence of sessions, in order. */
  function PidsOf(ctls: seq<SessionControl>): (ps: seq<int>)
    ensures |ps| == |ctls|
    ensures forall i :: 0 <= i < |ctls| ==> ps[i] == ctls[i].processId
  {
    if ctls == [] then [] else PidsOf(ctls[..|ctls| - 1]) + [ctls[|ctls| - 1].processId]
  }

  /**
   * When no two sessions share a COM object, releasing the controls scanned
   * before position `k` releases each of them exactly once ...
   */
  lemma ScanReleasesOnce(ctls: seq<SessionControl>, k: nat, j: nat)
    requires NoDuplicates(HandlesOf(ctls)) && j < k <= |ctls|
    ensures multiset(HandlesOf(ctls)[..k])[ctls[j].handle] == 1
  {
    PrefixCountsOnce(HandlesOf(ctls), k, j);
  }

  /** ... and leaves the control at `k`, where the scan stopped, unreleased. */
  lemma ScanLeavesMatch(ctls: seq<SessionControl>, k: nat)
    requires NoDuplicates(HandlesOf(ctls)) && k < |ctls|
    ensures multiset(HandlesOf(ctls)[..k])[ctls[k].handle] == 0
  {
    PrefixLacksNext(HandlesOf(ctls), k);
  }

  /** Releasing one more scanned handle adds it to the released ones. */
  lemma ScanStep(hs: seq<Handle>, i: nat, start: multiset<Handle>)
    requires i < |hs|
    ensures start + multiset(hs[..i]) + multiset{hs[i]} == start + multiset(hs[..i + 1])
  {
    assert hs[..i + 1] == hs[..i] + [hs[i]];
  }

}
