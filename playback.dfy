/**
 * `Playback` (Audio/Audio/Playback.cs): the playback devices the native
 * EndPointController library reports, read out of the array it allocates
 * and indexed by device id, and the switch of the default playback device.
 */
module Playback {
  import opened Wrappers
  import opened Sequences

  /** The interop struct `PlaybackDevice`: two wide strings, either of which may be null. */
  datatype PlaybackDevice = PlaybackDevice(deviceId: Option<string>, deviceName: Option<string>)

  /** Why `Dictionary.Add` threw: a null key, or a key already present. */
  datatype AddError = NullKey | DuplicateKey(id: string)

  /** `SetDefaultPlaybackDevice` threw "Operation has failed". */
  datatype SwitchError = OperationFailed

  /**
   * The native library as the audio layer sees it: `GetDevices` hands out an
   * array of `count` entries starting at `base`, one every `entrySize`
   * bytes; `FreeAudioDeviceArray` and `SetDefaultAudioPlaybackDevice` calls
   * are logged.
   */
  class EndPointController {
    const base: int
    const count: int
    const entrySize: nat
    /** The entries the library has written, by address. */
    const memory: map<int, PlaybackDevice>
    /** What `SetDefaultAudioPlaybackDevice` answers for each device id. */
    const answer: Option<string> -> int
    ghost var freed: seq<int>
    ghost var requested: seq<Option<string>>

    constructor (base: int, count: int, entrySize: nat, memory: map<int, PlaybackDevice>,
                 answer: Option<string> -> int)
      ensures this.base == base && this.count == count && this.entrySize == entrySize
      ensures this.memory == memory && this.answer == answer
      ensures freed == [] && requested == []
    {
      this.base := base;
      this.count := count;
      this.entrySize := entrySize;
      this.memory := memory;
      this.answer := answer;
      freed := [];
      requested := [];
    }

    /** Every entry the array is said to hold has been written. */
    predicate Valid() {
      forall i :: 0 <= i < count ==> base + i * entrySize in memory
    }

    /** The entries of the array, in order; a negative count means none. */
    function Entries(): (es: seq<PlaybackDevice>)
      requires Valid()
      ensures |es| == if count < 0 then 0 else count
      ensures forall i :: 0 <= i < |es| ==> es[i] == memory[base + i * entrySize]
    {
      seq(if count < 0 then 0 else count, i requires 0 <= i < count => memory[base + i * entrySize])
    }

    method GetDevices() returns (pointer: int, deviceCount: int)
      ensures pointer == base && deviceCount == count
    {
      pointer, deviceCount := base, count;
    }

    /** `Marshal.PtrToStructure` on an address of the array. */
    method PtrToStructure(address: int) returns (d: PlaybackDevice)
      requires address in memory
      ensures d == memory[address]
    {
      d := memory[address];
    }

    method FreeAudioDeviceArray(pointer: int)
      modifies this
      ensures freed == old(freed) + [pointer] && requested == old(requested)
    {
      freed := freed + [pointer];
    }

    method SetDefaultAudioPlaybackDevice(deviceId: Option<string>) returns (ret: int)
      modifies this
      ensures ret == answer(deviceId)
      ensures requested == old(requested) + [deviceId] && freed == old(freed)
    {
      ret := answer(deviceId);
      requested := requested + [deviceId];
    }
  }

  /** `Dictionary.Add(device.DeviceId, device)`. */
  function Add(m: map<string, PlaybackDevice>, d: PlaybackDevice): (r: Result<map<string, PlaybackDevice>, AddError>)
    ensures r.Failure? <==> d.deviceId.None? || d.deviceId.value in m
    ensures r.Success? ==> r.value == m[d.deviceId.value := d]
  {
    match d.deviceId
    case None => Failure(NullKey)
    case Some(id) => if id in m then Failure(DuplicateKey(id)) else Success(m[id := d])
  }

  /** Adding the entries one after another to an empty dictionary; the first failing `Add` ends it. */
  function IndexById(es: seq<PlaybackDevice>): Result<map<string, PlaybackDevice>, AddError>
  {
    if es == [] then Success(map[])
    else match IndexById(es[..|es| - 1])
      case Failure(e) => Failure(e)
      case Success(m) => Add(m, es[|es| - 1])
  }

  /** The device ids of the entries, in order. */
  function Ids(es: seq<PlaybackDevice>): (ids: seq<Option<string>>)
    ensures |ids| == |es| && forall i :: 0 <= i < |es| ==> ids[i] == es[i].deviceId
  {
    seq(|es|, i requires 0 <= i < |es| => es[i].deviceId)
  }

  /** Every entry has an id and no two share one. */
  predicate Keyable(es: seq<PlaybackDevice>) {
    (forall i :: 0 <= i < |es| ==> es[i].deviceId.Some?) && NoDuplicates(Ids(es))
  }

  /**
   * Indexing succeeds exactly when every id is non-null and distinct; the
   * dictionary then has one key per entry, each mapped to its entry.
   */
  lemma {:induction false} IndexByIdSucceeds(es: seq<PlaybackDevice>)
    ensures IndexById(es).Success? <==> Keyable(es)
    ensures IndexById(es).Success? ==>
      var m := IndexById(es).value;
      |m| == |es|
      && (forall id :: id in m <==> Some(id) in Ids(es))
      && (forall i :: 0 <= i < |es| ==> m[es[i].deviceId.value] == es[i])
  {
    if es != [] {
      var init, last := es[..|es| - 1], es[|es| - 1];
      IndexByIdSucceeds(init);
      assert Ids(es) == Ids(init) + [last.deviceId];
      assert Keyable(es) <==> Keyable(init) && last.deviceId.Some? && last.deviceId !in Ids(init) by {
        KeyableStep(es);
      }
      if IndexById(init).Success? && IndexById(es).Success? {
        var m := IndexById(init).value;
        var id := last.deviceId.value;
        assert IndexById(es).value == m[id := last];
        assert id !in m;
        assert |m[id := last]| == |m| + 1 by {
          assert m[id := last].Keys == m.Keys + {id};
        }
        forall i | 0 <= i < |es|
          ensures m[id := last][es[i].deviceId.value] == es[i]
        {
          if i < |es| - 1 {
            assert es[i] == init[i];
            assert Ids(init)[i] == es[i].deviceId;
            assert es[i].deviceId != Some(id);
          }
        }
      }
    }
  }

  lemma KeyableStep(es: seq<PlaybackDevice>)
    requires es != []
    ensures var init, last := es[..|es| - 1], es[|es| - 1];
      Keyable(es) <==> Keyable(init) && last.deviceId.Some? && last.deviceId !in Ids(init)
  {
    var init, last := es[..|es| - 1], es[|es| - 1];
    var ids, idsInit := Ids(es), Ids(init);
    assert ids == idsInit + [last.deviceId];
    if Keyable(init) && last.deviceId.Some? && last.deviceId !in idsInit {
      forall i, j | 0 <= i < j < |ids|
        ensures ids[i] != ids[j]
      {
        if j < |ids| - 1 {
          assert ids[i] == idsInit[i] && ids[j] == idsInit[j];
        } else {
          assert ids[i] == idsInit[i];
        }
      }
    }
    if Keyable(es) {
      assert forall i :: 0 <= i < |init| ==> init[i] == es[i];
      assert forall i, j :: 0 <= i < j < |idsInit| ==> idsInit[i] == ids[i] && idsInit[j] == ids[j];
    }
  }

  /** Once an `Add` has failed, the entries after it change nothing. */
  lemma {:induction false} FailureIsFinal(es: seq<PlaybackDevice>, n: nat)
    requires n <= |es| && IndexById(es[..n]).Failure?
    ensures IndexById(es) == IndexById(es[..n])
    decreases |es| - n
  {
    if n < |es| {
      assert es[..n + 1][..n] == es[..n];
      FailureIsFinal(es, n + 1);
    } else {
      assert es[..n] == es;
    }
  }

  /** No entries: an empty dictionary. */
  lemma NoEntriesIndexEmpty(es: seq<PlaybackDevice>)
    requires |es| == 0
    ensures IndexById(es) == Success(map[])
  {
  }

  /**
   * `GetAudioDevices`: reads each of the `count` entries at `base + i *
   * entrySize` and adds it under its id; whether that succeeds or an `Add`
   * throws, the array is freed once, at the address `GetDevices` returned.
   */
  method GetAudioDevices(ep: EndPointController) returns (r: Result<map<string, PlaybackDevice>, AddError>)
    requires ep.Valid()
    modifies ep
    ensures r == IndexById(ep.Entries())
    ensures ep.freed == old(ep.freed) + [ep.base] && ep.requested == old(ep.requested)
  {
    var devices: map<string, PlaybackDevice> := map[];
    var deviceCount;
    var originalPointer;
    originalPointer, deviceCount := ep.GetDevices();
    ghost var es := ep.Entries();
    var tempPointer := originalPointer;
    var dataEntrySize := ep.entrySize;
    r := Success(devices);
    var i := 0;
    while i < deviceCount
      invariant 0 <= i <= |es| && (i < |es| ==> i < deviceCount)
      invariant tempPointer == originalPointer + i * dataEntrySize
      invariant IndexById(es[..i]) == Success(devices) && r == Success(devices)
      invariant ep.freed == old(ep.freed) && ep.requested == old(ep.requested)
    {
      var device := ep.PtrToStructure(tempPointer);
      assert device == es[i];
      assert es[..i + 1][..i] == es[..i];
      var added := Add(devices, device);
      if added.Failure? {
        r := Failure(added.error);
        FailureIsFinal(es, i + 1);
        break;
      }
      devices := added.value;
      r := Success(devices);
      tempPointer := tempPointer + dataEntrySize;
      assert tempPointer == originalPointer + (i + 1) * dataEntrySize by {
        assert (i + 1) * dataEntrySize == i * dataEntrySize + dataEntrySize;
      }
      i := i + 1;
    }
    if r.Success? {
      assert es[..i] == es;
    }
    ep.FreeAudioDeviceArray(originalPointer);
  }

  /**
   * `SetDefaultPlaybackDevice`: passes the id to the library and fails
   * exactly when its answer is negative.
   */
  method SetDefaultPlaybackDevice(ep: EndPointController, deviceId: Option<string>) returns (r: Result<(), SwitchError>)
    modifies ep
    ensures r.Failure? <==> ep.answer(deviceId) < 0
    ensures ep.requested == old(ep.requested) + [deviceId] && ep.freed == old(ep.freed)
  {
    var ret := ep.SetDefaultAudioPlaybackDevice(deviceId);
    if ret < 0 {
      return Failure(OperationFailed);
    }
    return Success(());
  }
}
