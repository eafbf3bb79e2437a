/**
 * `AudioSession` and the session scans of `AudioUtilities`
 * (Audio/Audio/AudioUtilities.cs:180-218, 582-738). A session wraps one
 * `IAudioSessionControl2`; it is live while it holds the control and disposed
 * once `Dispose` has released the control and dropped it.
 */
module AudioSessions {
  import opened Wrappers
  import opened Text
  import opened Guids
  import opened Sequences
  import opened Platform

  /** What `Process.GetProcessById` finds for a running process. */
  datatype ProcessInfo = ProcessInfo(id: int, processName: string)

  /** The exception every control-backed member throws once the session is disposed. */
  datatype SessionError = ObjectDisposed

  /** `ToString`'s text from what it reads: the display name, the process found, the pid. */
  function SessionText(displayName: string, process: Option<ProcessInfo>, pid: int): (s: string)
    ensures displayName != [] ==> |s| >= 13 && s[..13] == "DisplayName: " && s[13..] == displayName
    ensures displayName == [] && process.Some? ==> |s| >= 9 && s[..9] == "Process: " && s[9..] == process.value.processName
    ensures displayName == [] && process.None? ==> |s| >= 5 && s[..5] == "Pid: " && ParseDecimal(s[5..]) == pid
  {
    if displayName != [] then "DisplayName: " + displayName
    else if process.Some? then "Process: " + process.value.processName
    else (DecimalRoundTrip(pid); "Pid: " + Decimal(pid))
  }

  class AudioSession {
    /** `_ctl`: the control, null once disposed. */
    var ctl: SessionControl?
    /** `_process`: the process found for the session's pid, cached. */
    var process: Option<ProcessInfo>
    /** Where `Marshal.ReleaseComObject` is recorded. */
    const runtime: Runtime

    constructor (ctl: SessionControl?, runtime: Runtime)
      ensures this.ctl == ctl && process.None? && this.runtime == runtime
    {
      this.ctl := ctl;
      process := None;
      this.runtime := runtime;
    }

    /** `ProcessId`. */
    function ProcessId(): (r: Result<int, SessionError>)
      reads this
      ensures r.Failure? <==> ctl == null
      ensures r.Success? ==> r.value == ctl.processId
    {
      if ctl == null then Failure(ObjectDisposed) else Success(ctl.processId)
    }

    /** `Identifier`. */
    function Identifier(): (r: Result<string, SessionError>)
      reads this
      ensures r.Failure? <==> ctl == null
      ensures r.Success? ==> r.value == ctl.identifier
    {
      if ctl == null then Failure(ObjectDisposed) else Success(ctl.identifier)
    }

    /** `InstanceIdentifier`. */
    function InstanceIdentifier(): (r: Result<string, SessionError>)
      reads this
      ensures r.Failure? <==> ctl == null
      ensures r.Success? ==> r.value == ctl.instanceIdentifier
    {
      if ctl == null then Failure(ObjectDisposed) else Success(ctl.instanceIdentifier)
    }

    /** `State`. */
    function State(): (r: Result<SessionState, SessionError>)
      reads this
      ensures r.Failure? <==> ctl == null
      ensures r.Success? ==> r.value == ctl.state
    {
      if ctl == null then Failure(ObjectDisposed) else Success(ctl.state)
    }

    /** `GroupingParam`'s getter. */
    function GroupingParam(): (r: Result<Guid, SessionError>)
      reads this, ctl
      ensures r.Failure? <==> ctl == null
      ensures r.Success? ==> r.value == ctl.groupingParam
    {
      if ctl == null then Failure(ObjectDisposed) else Success(ctl.groupingParam)
    }

    /** `DisplayName`'s getter. */
    function DisplayName(): (r: Result<string, SessionError>)
      reads this, ctl
      ensures r.Failure? <==> ctl == null
      ensures r.Success? ==> r.value == ctl.displayName
    {
      if ctl == null then Failure(ObjectDisposed) else Success(ctl.displayName)
    }

    /** `IconPath`'s getter. */
    function IconPath(): (r: Result<string, SessionError>)
      reads this, ctl
      ensures r.Failure? <==> ctl == null
      ensures r.Success? ==> r.value == ctl.iconPath
    {
      if ctl == null then Failure(ObjectDisposed) else Success(ctl.iconPath)
    }

    /** `GroupingParam`'s setter: always calls the control, with `Guid.Empty` as context. */
    method SetGroupingParam(value: Guid) returns (r: Result<(), SessionError>)
      modifies ctl
      ensures r.Failure? <==> ctl == null
      ensures ctl != null ==> ctl.groupingParam == value
      ensures ctl != null ==> ctl.calls == old(ctl.calls) + [SessionCall.SetGroupingParam(value, Empty)]
      ensures ctl != null ==> ctl.displayName == old(ctl.displayName) && ctl.iconPath == old(ctl.iconPath)
      ensures ctl != null ==> ctl.volume == old(ctl.volume) && ctl.mute == old(ctl.mute)
    {
      if ctl == null {
        return Failure(ObjectDisposed);
      }
      ctl.SetGroupingParamCall(value, Empty);
      r := Success(());
    }

    /** `DisplayName`'s setter: calls the control only when the name differs. */
    method SetDisplayName(value: string) returns (r: Result<(), SessionError>)
      modifies ctl
      ensures r.Failure? <==> ctl == null
      ensures ctl != null ==> ctl.displayName == value
      ensures ctl != null ==> ctl.calls == old(ctl.calls) + (if old(ctl.displayName) == value then [] else [SessionCall.SetDisplayName(value, Empty)])
      ensures ctl != null ==> ctl.iconPath == old(ctl.iconPath) && ctl.groupingParam == old(ctl.groupingParam)
      ensures ctl != null ==> ctl.volume == old(ctl.volume) && ctl.mute == old(ctl.mute)
    {
      if ctl == null {
        return Failure(ObjectDisposed);
      }
      var s := ctl.displayName;
      if s != value {
        ctl.SetDisplayNameCall(value, Empty);
      }
      r := Success(());
    }

    /** `IconPath`'s setter: calls the control only when the path differs. */
    method SetIconPath(value: string) returns (r: Result<(), SessionError>)
      modifies ctl
      ensures r.Failure? <==> ctl == null
      ensures ctl != null ==> ctl.iconPath == value
      ensures ctl != null ==> ctl.calls == old(ctl.calls) + (if old(ctl.iconPath) == value then [] else [SessionCall.SetIconPath(value, Empty)])
      ensures ctl != null ==> ctl.displayName == old(ctl.displayName) && ctl.groupingParam == old(ctl.groupingParam)
      ensures ctl != null ==> ctl.volume == old(ctl.volume) && ctl.mute == old(ctl.mute)
    {
      if ctl == null {
        return Failure(ObjectDisposed);
      }
      var s := ctl.iconPath;
      if s != value {
        ctl.SetIconPathCall(value, Empty);
      }
      r := Success(());
    }

    /**
     * `Process`: the cached process if there is one (even once disposed);
     * otherwise, for a non-zero pid, the running process with that pid, which
     * is then cached. A lookup that finds nothing throws inside and is
     * swallowed, leaving the cache empty.
     */
    method Process(processes: map<int, ProcessInfo>) returns (r: Result<Option<ProcessInfo>, SessionError>)
      modifies this`process
      ensures old(process).Some? ==> r == Success(old(process)) && process == old(process)
      ensures old(process).None? && ctl == null ==> r == Failure(ObjectDisposed) && process.None?
      ensures old(process).None? && ctl != null ==>
        process == (if ctl.processId != 0 && ctl.processId in processes then Some(processes[ctl.processId]) else None)
        && r == Success(process)
    {
      if process.None? {
        var pid := ProcessId();
        if pid.Failure? {
          return Failure(ObjectDisposed);
        }
        if pid.value != 0 {
          if pid.value in processes {
            process := Some(processes[pid.value]);
          }
        }
      }
      r := Success(process);
    }

    /** `ToString`. */
    method ToString(processes: map<int, ProcessInfo>) returns (r: Result<string, SessionError>)
      modifies this`process
      ensures r.Failure? <==> ctl == null
      ensures ctl != null ==> old(process).Some? ==> process == old(process)
      ensures (ctl == null || ctl.displayName != []) ==> process == old(process)
      ensures ctl != null && ctl.displayName != [] ==> r == Success(SessionText(ctl.displayName, None, ctl.processId))
      ensures ctl != null && ctl.displayName == [] ==> r == Success(SessionText([], process, ctl.processId))
      ensures ctl != null && ctl.displayName == [] && old(process).None? ==>
        process == (if ctl.processId != 0 && ctl.processId in processes then Some(processes[ctl.processId]) else None)
    {
      var s := DisplayName();
      if s.Failure? {
        return Failure(ObjectDisposed);
      }
      if s.value != [] {
        return Success("DisplayName: " + s.value);
      }
      var p := Process(processes);
      if p.value.Some? {
        // The second read of `Process` answers from the cache the first one filled.
        var q := Process(processes);
        return Success("Process: " + q.value.value.processName);
      }
      var pid := ProcessId();
      r := Success("Pid: " + Decimal(pid.value));
    }

    /** `Dispose`: releases the control the first time only, then drops it. */
    method Dispose()
      modifies this, runtime
      ensures ctl == null && process == old(process)
      ensures old(ctl) != null ==> runtime.released == old(runtime.released) + multiset{old(ctl).handle}
      ensures old(ctl) == null ==> runtime.released == old(runtime.released)
    {
      if ctl != null {
        runtime.Release(ctl.handle);
        ctl := null;
      }
    }
  }

  // ------------------------------------------------------------ scans

  /** The non-null controls, in order. */
  function Live(ctls: seq<SessionControl?>): (r: seq<SessionControl>)
    ensures |r| <= |ctls|
  {
    if ctls == [] then []
    else Live(ctls[..|ctls| - 1]) + (if ctls[|ctls| - 1] != null then [ctls[|ctls| - 1]] else [])
  }

  lemma {:induction false} LiveMembers(ctls: seq<SessionControl?>, c: SessionControl)
    ensures c in Live(ctls) <==> c in ctls
  {
    if ctls != [] {
      LiveMembers(ctls[..|ctls| - 1], c);
      assert ctls == ctls[..|ctls| - 1] + [ctls[|ctls| - 1]];
    }
  }

  /** What the session manager answers: its handle, its session enumerator's handle, the sessions. */
  datatype SessionManager = SessionManager(handle: Handle, enumerator: Handle, sessions: seq<SessionControl?>)

  /** Distinct objects. */
  predicate Distinct(list: seq<AudioSession>) {
    forall i, j :: 0 <= i < j < |list| ==> list[i] != list[j]
  }

  /** `GetAllSessions`, given what `GetAudioSessionManager` returned. */
  method GetAllSessions(rt: Runtime, mgr: Option<SessionManager>) returns (list: seq<AudioSession>)
    modifies rt
    ensures mgr.None? ==> list == [] && rt.released == old(rt.released)
    ensures mgr.Some? ==> rt.released == old(rt.released) + multiset{mgr.value.enumerator, mgr.value.handle}
    ensures mgr.Some? ==> |list| == |Live(mgr.value.sessions)|
    ensures mgr.Some? ==> forall i :: 0 <= i < |list| ==>
      fresh(list[i]) && list[i].ctl == Live(mgr.value.sessions)[i] && list[i].process.None? && list[i].runtime == rt
    ensures Distinct(list)
  {
    list := [];
    if mgr.None? {
      return;
    }
    var sessions := mgr.value.sessions;
    var i := 0;
    while i < |sessions|
      invariant 0 <= i <= |sessions|
      invariant |list| == |Live(sessions[..i])|
      invariant forall k :: 0 <= k < |list| ==>
        fresh(list[k]) && list[k].ctl == Live(sessions[..i])[k] && list[k].process.None? && list[k].runtime == rt
      invariant Distinct(list)
      invariant rt.released == old(rt.released)
    {
      assert sessions[..i + 1][..i] == sessions[..i];
      var ctl := sessions[i];
      if ctl != null {
        var session := new AudioSession(ctl, rt);
        list := list + [session];
      }
      i := i + 1;
    }
    assert sessions[..|sessions|] == sessions;
    rt.Release(mgr.value.enumerator);
    rt.Release(mgr.value.handle);
  }

  /**
   * `GetProcessSession`: the first session whose pid is the current process's,
   * after disposing every session scanned before it; null, with every session
   * disposed, when none matches.
   */
  method GetProcessSession(rt: Runtime, mgr: Option<SessionManager>, currentPid: int) returns (r: AudioSession?)
    modifies rt
    ensures mgr.None? ==> r == null && rt.released == old(rt.released)
    ensures mgr.Some? ==>
      var ctls := Live(mgr.value.sessions);
      var k := ScannedBefore(PidsOf(ctls), currentPid);
      (r == null <==> k == |ctls|)
      && (r != null ==> fresh(r) && r.ctl == ctls[k] && r.runtime == rt)
      && rt.released == old(rt.released) + multiset{mgr.value.enumerator, mgr.value.handle} + multiset(HandlesOf(ctls)[..k])
  {
    var list := GetAllSessions(rt, mgr);
    if mgr.None? {
      return null;
    }
    ghost var ctls := Live(mgr.value.sessions);
    ghost var start := rt.released;
    ghost var k := ScannedBefore(PidsOf(ctls), currentPid);
    var i := 0;
    while i < |list|
      invariant 0 <= i <= |list| && i <= k
      invariant forall j :: i <= j < |list| ==> list[j].ctl == ctls[j] && list[j].runtime == rt
      invariant rt.released == start + multiset(HandlesOf(ctls)[..i])
    {
      var session := list[i];
      var pid := session.ProcessId();
      if pid.value == currentPid {
        assert PidsOf(ctls)[i] == currentPid;
        assert i == k;
        return session;
      }
      assert PidsOf(ctls)[i] != currentPid;
      session.Dispose();
      ScanStep(HandlesOf(ctls), i, start);
      i := i + 1;
    }
    r := null;
  }
}
