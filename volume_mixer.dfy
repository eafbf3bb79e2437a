/**
 * `VolumeMixer` (Audio/Audio/VolumeMixer.cs): per-application volume and
 * mute, found by scanning the sessions of the default render endpoint for
 * the first one whose process id matches. Levels cross the boundary as
 * percentages (0 to 100) and are stored by the platform as scalars (0 to 1).
 */
module VolumeMixer {
  import opened Wrappers
  import opened Guids
  import opened Sequences
  import opened Platform

  /**
   * What `GetVolumeObject` meets on the platform: the device enumerator, the
   * default multimedia render endpoint, its session manager, the session
   * enumerator, and the sessions in enumeration order.
   */
  datatype Mixer = Mixer(deviceEnumerator: Handle, speakers: Handle, manager: Handle,
                         sessionEnumerator: Handle, sessions: seq<SessionControl>)

  /** The four platform objects `GetVolumeObject` releases whatever it finds. */
  function PlatformHandles(m: Mixer): (hs: multiset<Handle>)
    ensures |hs| == 4
    ensures m.deviceEnumerator in hs && m.speakers in hs && m.manager in hs && m.sessionEnumerator in hs
  {
    multiset{m.sessionEnumerator, m.manager, m.speakers, m.deviceEnumerator}
  }

  /** Where the scan for `pid` stops: the first matching session, or past the end. */
  function Stop(m: Mixer, pid: int): (k: nat)
    ensures k <= |m.sessions|
    ensures k < |m.sessions| ==> m.sessions[k].processId == pid
  {
    ScannedBefore(PidsOf(m.sessions), pid)
  }

  /** Every session the scan passes over belongs to another process. */
  lemma StopIsFirstMatch(m: Mixer, pid: int, j: nat)
    requires j < Stop(m, pid)
    ensures m.sessions[j].processId != pid
  {
    assert PidsOf(m.sessions)[..Stop(m, pid)][j] == m.sessions[j].processId;
  }

  /** The session `pid` finds, if any, as a frame. */
  function Found(m: Mixer, pid: int): (r: set<SessionControl>)
    ensures |r| <= 1
    ensures forall c :: c in r ==> c.processId == pid
  {
    var k := Stop(m, pid);
    if k < |m.sessions| then {m.sessions[k]} else {}
  }

  /**
   * `GetVolumeObject`: the first session of process `pid`, or null. Every
   * session scanned past is released, and so are the session enumerator,
   * the manager, the endpoint and the device enumerator; a matched session
   * is handed to the caller unreleased.
   */
  method GetVolumeObject(rt: Runtime, m: Mixer, pid: int) returns (v: SessionControl?)
    modifies rt
    ensures var k := Stop(m, pid);
      (v == null <==> k == |m.sessions|)
      && (v != null ==> v == m.sessions[k])
      && rt.released == old(rt.released) + multiset(HandlesOf(m.sessions)[..k]) + PlatformHandles(m)
  {
    ghost var start := rt.released;
    ghost var k := ScannedBefore(PidsOf(m.sessions), pid);
    v := null;
    var i := 0;
    while i < |m.sessions|
      invariant 0 <= i <= k
      invariant rt.released == start + multiset(HandlesOf(m.sessions)[..i])
    {
      var ctl := m.sessions[i];
      if ctl.processId == pid {
        assert PidsOf(m.sessions)[i] == pid;
        v := ctl;
        break;
      }
      assert PidsOf(m.sessions)[i] != pid;
      ghost var before := rt.released;
      rt.Release(ctl.handle);
      assert rt.released == before + multiset{m.sessions[i].handle};
      ScanStep(HandlesOf(m.sessions), i, start);
      i := i + 1;
    }
    assert i == k;
    ghost var scanned := rt.released;
    rt.Release(m.sessionEnumerator);
    rt.Release(m.manager);
    rt.Release(m.speakers);
    rt.Release(m.deviceEnumerator);
    PlatformReleases(scanned, m);
  }

  lemma PlatformReleases(scanned: multiset<Handle>, m: Mixer)
    ensures scanned + multiset{m.sessionEnumerator} + multiset{m.manager} + multiset{m.speakers}
            + multiset{m.deviceEnumerator} == scanned + PlatformHandles(m)
  {
  }

  /** A percentage as the scalar `SetMasterVolume` takes. */
  function ToScalar(percent: real): (s: real)
    ensures 0.0 <= percent <= 100.0 <==> 0.0 <= s <= 1.0
  {
    percent / 100.0
  }

  /** A scalar as the percentage `GetApplicationVolume` reports. */
  function ToPercent(scalar: real): (p: real)
    ensures 0.0 <= scalar <= 1.0 <==> 0.0 <= p <= 100.0
  {
    scalar * 100.0
  }

  lemma PercentRoundTrip(percent: real)
    ensures ToPercent(ToScalar(percent)) == percent
  {
  }

  /**
   * `GetApplicationVolume`: the volume of the session `pid` finds, in
   * percent, or nothing; the found session is released after reading it.
   */
  method GetApplicationVolume(rt: Runtime, m: Mixer, pid: int) returns (r: Option<real>)
    modifies rt
    ensures var k := Stop(m, pid);
      (r.None? <==> k == |m.sessions|)
      && (r.Some? ==> r.value == ToPercent(m.sessions[k].volume))
      && rt.released == old(rt.released) + multiset(HandlesOf(m.sessions)[..k]) + PlatformHandles(m)
                        + (if k < |m.sessions| then multiset{m.sessions[k].handle} else multiset{})
  {
    var v := GetVolumeObject(rt, m, pid);
    if v == null {
      return None;
    }
    var level := v.volume;
    rt.Release(v.handle);
    return Some(ToPercent(level));
  }

  /** `GetApplicationMute`: the mute state of the session `pid` finds, or nothing. */
  method GetApplicationMute(rt: Runtime, m: Mixer, pid: int) returns (r: Option<bool>)
    modifies rt
    ensures var k := Stop(m, pid);
      (r.None? <==> k == |m.sessions|)
      && (r.Some? ==> r.value == m.sessions[k].mute)
      && rt.released == old(rt.released) + multiset(HandlesOf(m.sessions)[..k]) + PlatformHandles(m)
                        + (if k < |m.sessions| then multiset{m.sessions[k].handle} else multiset{})
  {
    var v := GetVolumeObject(rt, m, pid);
    if v == null {
      return None;
    }
    var mute := v.mute;
    rt.Release(v.handle);
    return Some(mute);
  }

  /**
   * `SetApplicationVolume`: asks the session `pid` finds to take `level`
   * percent, with an empty event context; nothing happens to any session
   * when none matches.
   */
  method SetApplicationVolume(rt: Runtime, m: Mixer, pid: int, level: real)
    modifies rt, Found(m, pid)
    ensures var k := Stop(m, pid);
      (k < |m.sessions| ==>
        var c := m.sessions[k];
        c.volume == SessionLevelAfter(old(c.volume), ToScalar(level))
        && c.calls == old(c.calls) + [SessionCall.SetMasterVolume(ToScalar(level), Empty)]
        && c.mute == old(c.mute)
        && c.displayName == old(c.displayName) && c.iconPath == old(c.iconPath)
        && c.groupingParam == old(c.groupingParam))
      && rt.released == old(rt.released) + multiset(HandlesOf(m.sessions)[..k]) + PlatformHandles(m)
                        + (if k < |m.sessions| then multiset{m.sessions[k].handle} else multiset{})
  {
    var v := GetVolumeObject(rt, m, pid);
    if v == null {
      return;
    }
    v.SetMasterVolumeCall(ToScalar(level), Empty);
    rt.Release(v.handle);
  }

  /** `SetApplicationMute`: sets the mute state of the session `pid` finds, if any. */
  method SetApplicationMute(rt: Runtime, m: Mixer, pid: int, mute: bool)
    modifies rt, Found(m, pid)
    ensures var k := Stop(m, pid);
      (k < |m.sessions| ==>
        var c := m.sessions[k];
        c.mute == mute
        && c.calls == old(c.calls) + [SessionCall.SetMute(mute, Empty)]
        && c.volume == old(c.volume)
        && c.displayName == old(c.displayName) && c.iconPath == old(c.iconPath)
        && c.groupingParam == old(c.groupingParam))
      && rt.released == old(rt.released) + multiset(HandlesOf(m.sessions)[..k]) + PlatformHandles(m)
                        + (if k < |m.sessions| then multiset{m.sessions[k].handle} else multiset{})
  {
    var v := GetVolumeObject(rt, m, pid);
    if v == null {
      return;
    }
    v.SetMuteCall(mute, Empty);
    rt.Release(v.handle);
  }

  /**
   * Setting an application's volume to a percentage from 0 to 100 and reading
   * it back gives that percentage; any other percentage leaves it as it was.
   */
  lemma SetThenGetVolume(current: real, level: real)
    ensures 0.0 <= level <= 100.0 ==> ToPercent(SessionLevelAfter(current, ToScalar(level))) == level
    ensures !(0.0 <= level <= 100.0) ==> SessionLevelAfter(current, ToScalar(level)) == current
  {
  }
}
