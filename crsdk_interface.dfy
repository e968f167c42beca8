/**
 * CrSDKInterface: the camera-control rules of the program's wrapper around the camera SDK.
 * The cameras themselves are not modelled. Each device call the wrapper makes is recorded,
 * in order, in `log`, and the reply the device gives it (accepted or not, the mode it reports)
 * is a parameter of the operation that makes the call.
 */
module CrSDKInterface {
  import opened Wrappers
  import ShutterSpeedConverter
  import IsoConverter

  /** A camera of the list: its serial id and whether it is connected. */
  datatype Camera = Camera(id: string, connected: bool)

  /** A call on camera number `camera` of the list, as issued by the wrapper. */
  datatype DeviceCall =
    | SetExposureProgramM(camera: nat)
    | SetExposureProgramP(camera: nat)
    | SetManualIso(camera: nat, isoCode: int)
    | SetManualShutterSpeed(camera: nat, shutterIndex: int)
    | SetManualAfAreaPosition(camera: nat, position: int)
    | GetExposureProgramMode(camera: nat)
    | DownloadSettingFile(camera: nat)
    | UploadSettingFile(camera: nat)
    | Disconnect(camera: nat)
    | Release(camera: nat)

  /** The ISO code the wrapper sends for automatic ISO. */
  const AutoIsoCode := 10
  /** The last shutter index; brightness above it is reached through ISO. */
  const MaxShutterIndex := 33
  const MaxBrightness := 48
  const MaxAfX := 639
  const MaxAfY := 479
  const ManualMode := "m"
  const ProgramMode := "p"
  const InvalidCameraNumber := "Invalid camera number"

  // ---------------------------------------------------------------------------------------------
  // Brightness

  /**
   * The (shutter index, ISO code) pair a brightness is sent as: up to 33 the brightness is the
   * shutter index with automatic ISO; above 33 the shutter stays at 33 and the brightness is
   * the ISO code.
   */
  function BrightnessSettings(brightness: int): (settings: (int, int))
    requires 0 <= brightness <= MaxBrightness
    ensures 0 <= settings.0 <= MaxShutterIndex
    ensures settings.1 == AutoIsoCode || MaxShutterIndex < settings.1 <= MaxBrightness
  {
    if brightness <= MaxShutterIndex then (brightness, AutoIsoCode)
    else (MaxShutterIndex, brightness)
  }

  /** The brightness a (shutter index, ISO code) pair stands for. */
  function BrightnessOf(settings: (int, int)): int
  {
    if settings.1 == AutoIsoCode then settings.0 else settings.1
  }

  /** Every brightness is recovered from the pair it is sent as, so different values send different pairs. */
  lemma BrightnessRoundTrip(brightness: int)
    requires 0 <= brightness <= MaxBrightness
    ensures BrightnessOf(BrightnessSettings(brightness)) == brightness
  {
  }

  /** Brighter never means a shorter shutter index, and above 33 the ISO code grows with the brightness. */
  lemma BrightnessMonotone(b1: int, b2: int)
    requires 0 <= b1 <= b2 <= MaxBrightness
    ensures BrightnessSettings(b1).0 <= BrightnessSettings(b2).0
    ensures b1 > MaxShutterIndex ==> BrightnessSettings(b1).1 <= BrightnessSettings(b2).1
  {
  }

  /** The shutter index sent always names an entry of the shutter-speed table. */
  lemma ShutterIndexInTable(brightness: int)
    requires 0 <= brightness <= MaxBrightness
    ensures ShutterSpeedConverter.ShutterValueToString(BrightnessSettings(brightness).0) != ""
  {
  }

  /**
   * The wrapper's ISO codes are not the ISO table's indices: code 10 is "ISO 640" there, not
   * "ISO AUTO", and brightness 39..48 sends codes past the table's last index 38.
   */
  lemma IsoCodesBeyondIsoTable(brightness: int)
    requires 0 <= brightness <= MaxBrightness
    ensures IsoConverter.IsoValueToString(AutoIsoCode) == "ISO 640"
    ensures IsoConverter.IsoValueToString(BrightnessSettings(brightness).1) == "" <==> brightness >= 39
  {
  }

  // ---------------------------------------------------------------------------------------------
  // AF area position

  /**
   * The AF-area position sent for (x, y): `(x << 16) | y`, which for y < 0x10000 is
   * x * 0x10000 + y. It fits a 32-bit int, and x and y are recovered from it.
   */
  function PackAfAreaPosition(x: int, y: int): (packed: int)
    requires 0 <= x <= MaxAfX && 0 <= y <= MaxAfY
    ensures 0 <= packed < 0x8000_0000
    ensures packed / 0x1_0000 == x && packed % 0x1_0000 == y
  {
    x * 0x1_0000 + y
  }

  /** On 32-bit words, shifting x by 16 and or-ing y is the sum above, and `>> 16` and `& 0xFFFF` undo it. */
  lemma ShiftOrIsSum(x: bv32, y: bv32)
    requires x <= 639 && y <= 479
    ensures (x << 16) | y == x * 0x1_0000 + y
    ensures ((x << 16) | y) >> 16 == x && ((x << 16) | y) & 0xFFFF == y
  {
  }

  // ---------------------------------------------------------------------------------------------
  // Camera order

  function Reversed<T>(s: seq<T>): (r: seq<T>)
    ensures |r| == |s|
  {
    if s == [] then [] else Reversed(s[1..]) + [s[0]]
  }

  lemma {:induction false} ReversedAt<T>(s: seq<T>, i: int)
    requires 0 <= i < |s|
    ensures Reversed(s)[i] == s[|s| - 1 - i]
  {
    if i < |s| - 1 {
      ReversedAt(s[1..], i);
    }
  }

  lemma {:induction false} ReversedTwice<T>(s: seq<T>)
    ensures Reversed(Reversed(s)) == s
  {
    forall i | 0 <= i < |s|
      ensures Reversed(Reversed(s))[i] == s[i]
    {
      ReversedAt(Reversed(s), i);
      ReversedAt(s, |s| - 1 - i);
    }
  }

  lemma {:induction false} ReversedSameElements<T>(s: seq<T>)
    ensures multiset(Reversed(s)) == multiset(s)
  {
    if s != [] {
      ReversedSameElements(s[1..]);
      assert s == [s[0]] + s[1..];
    }
  }

  /** The list order after the check in `connectToCameras`: reversed when camera 0 is not the left camera. */
  function Reordered(cameras: seq<Camera>, leftSerial: string): seq<Camera>
  {
    if cameras != [] && cameras[0].id != leftSerial then Reversed(cameras) else cameras
  }

  /** Reordering keeps the same cameras; with two cameras it swaps them. */
  lemma ReorderedSameCameras(cameras: seq<Camera>, leftSerial: string)
    ensures multiset(Reordered(cameras, leftSerial)) == multiset(cameras)
    ensures |cameras| == 2 && cameras[0].id != leftSerial ==>
      Reordered(cameras, leftSerial) == [cameras[1], cameras[0]]
  {
    ReversedSameElements(cameras);
    if |cameras| == 2 && cameras[0].id != leftSerial {
      ReversedAt(cameras, 0);
      ReversedAt(cameras, 1);
    }
  }

  /** When the left camera is first or last, it is first after reordering. */
  lemma LeftCameraFirst(cameras: seq<Camera>, leftSerial: string)
    requires cameras != [] && (cameras[0].id == leftSerial || cameras[|cameras| - 1].id == leftSerial)
    ensures Reordered(cameras, leftSerial)[0].id == leftSerial
  {
    if cameras[0].id != leftSerial {
      ReversedAt(cameras, 0);
    }
  }

  // ---------------------------------------------------------------------------------------------
  // Teardown

  /** The position of the first `false`. */
  function FirstFalse(flags: seq<bool>): (k: Option<nat>)
    ensures k.Some? ==> k.value < |flags| && !flags[k.value] && forall j :: 0 <= j < k.value ==> flags[j]
    ensures k.None? <==> forall j :: 0 <= j < |flags| ==> flags[j]
  {
    if flags == [] then None
    else if !flags[0] then Some(0)
    else
      match FirstFalse(flags[1..])
      case None =>
        assert forall j :: 1 <= j < |flags| ==> flags[j] == flags[1..][j - 1];
        None
      case Some(k) =>
        assert forall j :: 1 <= j < k + 1 ==> flags[j] == flags[1..][j - 1];
        Some(k + 1)
  }

  /** For each camera, whether its disconnect went through (trivially so when it was not connected). */
  function DisconnectOutcomes(cameras: seq<Camera>, accepted: seq<bool>): (outcomes: seq<bool>)
    requires |accepted| == |cameras|
    ensures |outcomes| == |cameras|
    ensures forall i :: 0 <= i < |cameras| ==> (outcomes[i] <==> !cameras[i].connected || accepted[i])
  {
    seq(|cameras|, i requires 0 <= i < |cameras| => !cameras[i].connected || accepted[i])
  }

  /** The disconnect calls made on the first k cameras: one per connected camera, in order. */
  function DisconnectCalls(cameras: seq<Camera>, k: nat): seq<DeviceCall>
    requires k <= |cameras|
  {
    if k == 0 then []
    else if cameras[k - 1].connected then DisconnectCalls(cameras, k - 1) + [Disconnect(k - 1)]
    else DisconnectCalls(cameras, k - 1)
  }

  /** The release calls made on the first k cameras. */
  function ReleaseCalls(k: nat): (calls: seq<DeviceCall>)
    ensures |calls| == k && forall i :: 0 <= i < k ==> calls[i] == Release(i)
  {
    if k == 0 then [] else ReleaseCalls(k - 1) + [Release(k - 1)]
  }

  /**
   * The calls `disconnectToCameras` makes: disconnects up to and including the first refused one;
   * when none is refused, all disconnects and then releases up to the first one that is late.
   */
  function TeardownCalls(cameras: seq<Camera>, accepted: seq<bool>, releasedInTime: seq<bool>): seq<DeviceCall>
    requires |accepted| == |cameras| && |releasedInTime| == |cameras|
  {
    if FirstFalse(DisconnectOutcomes(cameras, accepted)).Some? then
      DisconnectCalls(cameras, DisconnectCount(cameras, accepted))
    else
      DisconnectCalls(cameras, DisconnectCount(cameras, accepted)) + ReleaseCalls(ReleaseCount(releasedInTime))
  }

  /** How many cameras the disconnect loop gets through: up to the first refusal, or all of them. */
  function DisconnectCount(cameras: seq<Camera>, accepted: seq<bool>): (k: nat)
    requires |accepted| == |cameras|
    ensures k <= |cameras|
  {
    match FirstFalse(DisconnectOutcomes(cameras, accepted))
    case Some(r) => r + 1
    case None => |cameras|
  }

  /** How many cameras the release loop gets through: up to the first late one, or all of them. */
  function ReleaseCount(releasedInTime: seq<bool>): (k: nat)
    ensures k <= |releasedInTime|
  {
    match FirstFalse(releasedInTime)
    case Some(t) => t + 1
    case None => |releasedInTime|
  }

  /** `disconnectToCameras` succeeds when no disconnect is refused and no release is late. */
  predicate TeardownSucceeds(cameras: seq<Camera>, accepted: seq<bool>, releasedInTime: seq<bool>)
    requires |accepted| == |cameras| && |releasedInTime| == |cameras|
  {
    FirstFalse(DisconnectOutcomes(cameras, accepted)).None? && FirstFalse(releasedInTime).None?
  }

  /** A false flag with only true flags before it is the first false one. */
  lemma FirstFalseAt(flags: seq<bool>, i: nat)
    requires i < |flags| && !flags[i] && forall j :: 0 <= j < i ==> flags[j]
    ensures FirstFalse(flags) == Some(i)
  {
  }

  /** The disconnect calls on the first k cameras are calls on connected ones of them. */
  lemma {:induction false} DisconnectCallsConnected(cameras: seq<Camera>, k: nat)
    requires k <= |cameras|
    ensures forall c :: c in DisconnectCalls(cameras, k) ==> c.Disconnect? && c.camera < k && cameras[c.camera].connected
  {
    if k > 0 {
      DisconnectCallsConnected(cameras, k - 1);
    }
  }

  /** The disconnect calls on the first k cameras include a call on every connected one of them. */
  lemma {:induction false} DisconnectCallsCover(cameras: seq<Camera>, k: nat, i: nat)
    requires i < k <= |cameras| && cameras[i].connected
    ensures Disconnect(i) in DisconnectCalls(cameras, k)
  {
    if i < k - 1 {
      DisconnectCallsCover(cameras, k - 1, i);
    }
  }

  /**
   * A release is only made once every connected camera has been disconnected (each exactly where
   * its turn came), and a successful teardown disconnects every connected camera and releases
   * every camera.
   */
  lemma TeardownOrder(cameras: seq<Camera>, accepted: seq<bool>, releasedInTime: seq<bool>)
    requires |accepted| == |cameras| && |releasedInTime| == |cameras|
    ensures forall c :: c in TeardownCalls(cameras, accepted, releasedInTime) && c.Disconnect? ==>
      c.camera < |cameras| && cameras[c.camera].connected
    ensures (exists c :: c in TeardownCalls(cameras, accepted, releasedInTime) && c.Release?) ==>
      forall i :: 0 <= i < |cameras| && cameras[i].connected ==>
        accepted[i] && Disconnect(i) in TeardownCalls(cameras, accepted, releasedInTime)
    ensures TeardownSucceeds(cameras, accepted, releasedInTime) ==>
      forall i :: 0 <= i < |cameras| ==> Release(i) in TeardownCalls(cameras, accepted, releasedInTime)
  {
    var calls := TeardownCalls(cameras, accepted, releasedInTime);
    var outcomes := DisconnectOutcomes(cameras, accepted);
    match FirstFalse(outcomes)
    case Some(r) =>
      DisconnectCallsConnected(cameras, r + 1);
    case None =>
      DisconnectCallsConnected(cameras, |cameras|);
      forall i | 0 <= i < |cameras| && cameras[i].connected
        ensures accepted[i] && Disconnect(i) in calls
      {
        assert outcomes[i];
        DisconnectCallsCover(cameras, |cameras|, i);
      }
      if TeardownSucceeds(cameras, accepted, releasedInTime) {
        assert calls == DisconnectCalls(cameras, |cameras|) + ReleaseCalls(|cameras|);
        forall i | 0 <= i < |cameras|
          ensures Release(i) in calls
        {
          assert ReleaseCalls(|cameras|)[i] == Release(i);
        }
      }
  }

  /** The first loop of `disconnectToCameras`: disconnect each connected camera, stopping at a refusal. */
  method DisconnectConnected(cameras: seq<Camera>, accepted: seq<bool>) returns (calls: seq<DeviceCall>, allDisconnected: bool)
    requires |accepted| == |cameras|
    ensures allDisconnected == FirstFalse(DisconnectOutcomes(cameras, accepted)).None?
    ensures calls == DisconnectCalls(cameras, DisconnectCount(cameras, accepted))
  {
    ghost var outcomes := DisconnectOutcomes(cameras, accepted);
    calls := [];
    for i := 0 to |cameras|
      invariant calls == DisconnectCalls(cameras, i)
      invariant forall j :: 0 <= j < i ==> outcomes[j]
    {
      if cameras[i].connected {
        calls := calls + [Disconnect(i)];
        if !accepted[i] {
          FirstFalseAt(outcomes, i);
          return calls, false;
        }
      }
    }
    return calls, true;
  }

  /** The second loop of `disconnectToCameras`: release each camera, stopping at one that is late. */
  method ReleaseCameras(count: nat, releasedInTime: seq<bool>) returns (calls: seq<DeviceCall>, allReleased: bool)
    requires |releasedInTime| == count
    ensures allReleased == FirstFalse(releasedInTime).None?
    ensures calls == ReleaseCalls(ReleaseCount(releasedInTime))
  {
    calls := [];
    for i := 0 to count
      invariant calls == ReleaseCalls(i)
      invariant forall j :: 0 <= j < i ==> releasedInTime[j]
    {
      calls := calls + [Release(i)];
      if !releasedInTime[i] {
        FirstFalseAt(releasedInTime, i);
        return calls, false;
      }
    }
    return calls, true;
  }

  // ---------------------------------------------------------------------------------------------
  // The wrapper

  class CrSDKInterface {
    var cameraList: seq<Camera>
    var cameraModes: seq<string>
    var log: seq<DeviceCall>

    /** Camera number n has both a list entry and a mode slot. */
    predicate ValidCamera(n: int)
      reads this
    {
      0 <= n < |cameraList| && n < |cameraModes|
    }

    /** No cameras yet and one empty mode slot per expected camera. */
    constructor(maxCameras: nat)
      ensures cameraList == [] && log == []
      ensures |cameraModes| == maxCameras && forall i :: 0 <= i < maxCameras ==> cameraModes[i] == ""
    {
      cameraList := [];
      cameraModes := seq(maxCameras, _ => "");
      log := [];
    }

    /**
     * `connectToCameras` without the SDK: the enumerated cameras are appended, a camera found
     * unconnected makes it fail, and otherwise the list is put in left/right order.
     */
    method ConnectToCameras(enumerated: seq<Camera>, leftSerial: string) returns (ok: bool)
      modifies this
      ensures cameraModes == old(cameraModes) && log == old(log)
      ensures ok <==> forall i :: 0 <= i < |cameraList| ==> cameraList[i].connected
      ensures ok ==> cameraList == Reordered(old(cameraList) + enumerated, leftSerial)
      ensures !ok ==> cameraList == old(cameraList) + enumerated
    {
      for i := 0 to |enumerated|
        invariant cameraList == old(cameraList) + enumerated[..i]
        invariant cameraModes == old(cameraModes) && log == old(log)
      {
        cameraList := cameraList + [enumerated[i]];
      }
      assert enumerated[..|enumerated|] == enumerated;
      for i := 0 to |cameraList|
        invariant forall j :: 0 <= j < i ==> cameraList[j].connected
      {
        if !cameraList[i].connected {
          return false;
        }
      }
      ghost var all := cameraList;
      ReorderCameras(leftSerial);
      ReorderedSameCameras(all, leftSerial);
      forall i | 0 <= i < |cameraList|
        ensures cameraList[i].connected
      {
        if cameraList != all {
          ReversedAt(all, i);
        }
      }
      return true;
    }

    /** The reversal block of `connectToCameras`; the mode slots do not move with the cameras. */
    method ReorderCameras(leftSerial: string)
      modifies this
      ensures cameraList == Reordered(old(cameraList), leftSerial)
      ensures cameraModes == old(cameraModes) && log == old(log)
    {
      if cameraList != [] {
        var firstCameraId := cameraList[0].id;
        if firstCameraId != leftSerial {
          cameraList := Reversed(cameraList);
        }
      }
    }

    /** `get_exposure_program_mode`: the mode the camera reports is written into its slot. */
    method QueryMode(n: int, reportedMode: string)
      requires ValidCamera(n)
      modifies this
      ensures cameraModes == old(cameraModes)[n := reportedMode]
      ensures cameraList == old(cameraList) && log == old(log) + [GetExposureProgramMode(n)]
    {
      log := log + [GetExposureProgramMode(n)];
      cameraModes := cameraModes[n := reportedMode];
    }

    /**
     * `switchToMMode`: request M mode and automatic ISO; when the ISO call fails, fail without
     * asking for the mode; otherwise store the reported mode and succeed exactly when it is "m".
     */
    method SwitchToMMode(n: int, isoAccepted: bool, reportedMode: string) returns (ok: bool)
      requires ValidCamera(n)
      modifies this
      ensures cameraList == old(cameraList)
      ensures !isoAccepted ==> !ok && cameraModes == old(cameraModes)
      ensures !isoAccepted ==> log == old(log) + [SetExposureProgramM(n), SetManualIso(n, AutoIsoCode)]
      ensures isoAccepted ==> cameraModes == old(cameraModes)[n := reportedMode]
      ensures isoAccepted ==>
        log == old(log) + [SetExposureProgramM(n), SetManualIso(n, AutoIsoCode), GetExposureProgramMode(n)]
      ensures ok <==> isoAccepted && GetCameraModeStr(n) == ManualMode
    {
      log := log + [SetExposureProgramM(n)];
      log := log + [SetManualIso(n, AutoIsoCode)];
      if !isoAccepted {
        return false;
      }
      QueryMode(n, reportedMode);
      return cameraModes[n] == ManualMode;
    }

    /** `switchToPMode`: as `switchToMMode`, for P mode and "p". */
    method SwitchToPMode(n: int, isoAccepted: bool, reportedMode: string) returns (ok: bool)
      requires ValidCamera(n)
      modifies this
      ensures cameraList == old(cameraList)
      ensures !isoAccepted ==> !ok && cameraModes == old(cameraModes)
      ensures !isoAccepted ==> log == old(log) + [SetExposureProgramP(n), SetManualIso(n, AutoIsoCode)]
      ensures isoAccepted ==> cameraModes == old(cameraModes)[n := reportedMode]
      ensures isoAccepted ==>
        log == old(log) + [SetExposureProgramP(n), SetManualIso(n, AutoIsoCode), GetExposureProgramMode(n)]
      ensures ok <==> isoAccepted && GetCameraModeStr(n) == ProgramMode
    {
      log := log + [SetExposureProgramP(n)];
      log := log + [SetManualIso(n, AutoIsoCode)];
      if !isoAccepted {
        return false;
      }
      QueryMode(n, reportedMode);
      return cameraModes[n] == ProgramMode;
    }

    /**
     * `changeBrightness`: refused without a device call unless the camera is in "m" and the value
     * is in 0..48; otherwise both the shutter and the ISO settings are sent, and it succeeds
     * exactly when both are accepted.
     */
    method ChangeBrightness(n: int, brightness: int, shutterAccepted: bool, isoAccepted: bool) returns (ok: bool)
      requires 0 <= n < |cameraModes|
      requires cameraModes[n] == ManualMode && 0 <= brightness <= MaxBrightness ==> n < |cameraList|
      modifies this
      ensures cameraList == old(cameraList) && cameraModes == old(cameraModes)
      ensures cameraModes[n] != ManualMode || brightness < 0 || brightness > MaxBrightness ==>
        !ok && log == old(log)
      ensures cameraModes[n] == ManualMode && 0 <= brightness <= MaxBrightness ==>
        log == old(log) + [SetManualShutterSpeed(n, BrightnessSettings(brightness).0),
                           SetManualIso(n, BrightnessSettings(brightness).1)]
      ensures ok <==> cameraModes[n] == ManualMode && 0 <= brightness <= MaxBrightness && shutterAccepted && isoAccepted
    {
      if cameraModes[n] != ManualMode {
        return false;
      }
      if brightness < 0 || brightness > MaxBrightness {
        return false;
      }
      var setManualShutterSpeedSuccess := false;
      var setManualIsoSuccess := false;
      if brightness <= MaxShutterIndex {
        log := log + [SetManualShutterSpeed(n, brightness)];
        setManualShutterSpeedSuccess := shutterAccepted;
        log := log + [SetManualIso(n, AutoIsoCode)];
        setManualIsoSuccess := isoAccepted;
      } else {
        log := log + [SetManualShutterSpeed(n, MaxShutterIndex)];
        setManualShutterSpeedSuccess := shutterAccepted;
        log := log + [SetManualIso(n, brightness)];
        setManualIsoSuccess := isoAccepted;
      }
      if !setManualIsoSuccess {
        return false;
      }
      if !setManualShutterSpeedSuccess {
        return false;
      }
      return true;
    }

    /**
     * `changeAFAreaPosition`: refused without a device call unless the camera is in "p",
     * 0 <= x <= 639 and 0 <= y <= 479; otherwise the packed position is sent and the result is
     * whether the camera accepted it.
     */
    method ChangeAFAreaPosition(n: int, x: int, y: int, accepted: bool) returns (ok: bool)
      requires 0 <= n < |cameraModes|
      requires cameraModes[n] == ProgramMode && 0 <= x <= MaxAfX && 0 <= y <= MaxAfY ==> n < |cameraList|
      modifies this
      ensures cameraList == old(cameraList) && cameraModes == old(cameraModes)
      ensures cameraModes[n] != ProgramMode || x < 0 || x > MaxAfX || y < 0 || y > MaxAfY ==>
        !ok && log == old(log)
      ensures cameraModes[n] == ProgramMode && 0 <= x <= MaxAfX && 0 <= y <= MaxAfY ==>
        log == old(log) + [SetManualAfAreaPosition(n, PackAfAreaPosition(x, y))] && ok == accepted
    {
      if cameraModes[n] != ProgramMode {
        return false;
      }
      if x < 0 || x > MaxAfX {
        return false;
      }
      if y < 0 || y > MaxAfY {
        return false;
      }
      var xy := PackAfAreaPosition(x, y);
      log := log + [SetManualAfAreaPosition(n, xy)];
      if !accepted {
        return false;
      }
      return true;
    }

    /**
     * `getCamerasMode`: the loop returns in its first round, so only camera 0 is asked for its
     * mode, and the result is whether camera 0 reports "p" or "m".
     */
    method GetCamerasMode(reportedModes: seq<string>) returns (ok: bool)
      requires cameraList != [] && cameraModes != []
      requires |reportedModes| == |cameraList|
      modifies this
      ensures cameraList == old(cameraList)
      ensures cameraModes == old(cameraModes)[0 := reportedModes[0]]
      ensures log == old(log) + [GetExposureProgramMode(0)]
      ensures ok <==> reportedModes[0] == ProgramMode || reportedModes[0] == ManualMode
    {
      ok := false;
      var i := 0;
      var answered := false;
      while i < |cameraList| && !answered
        invariant i <= 1 && (answered <==> i == 1) && cameraList == old(cameraList)
        invariant !answered ==> cameraModes == old(cameraModes) && log == old(log)
        invariant answered ==> cameraModes == old(cameraModes)[0 := reportedModes[0]]
        invariant answered ==> log == old(log) + [GetExposureProgramMode(0)]
        invariant answered ==> (ok <==> reportedModes[0] == ProgramMode || reportedModes[0] == ManualMode)
      {
        QueryMode(i, reportedModes[i]);
        if cameraModes[i] == ProgramMode || cameraModes[i] == ManualMode {
          ok := true;
        } else {
          ok := false;
        }
        answered := true;
        i := i + 1;
      }
    }

    /** `getCameraMode`: store the reported mode; true exactly when it is "p" or "m". */
    method GetCameraMode(n: int, reportedMode: string) returns (ok: bool)
      requires ValidCamera(n)
      modifies this
      ensures cameraList == old(cameraList)
      ensures cameraModes == old(cameraModes)[n := reportedMode]
      ensures log == old(log) + [GetExposureProgramMode(n)]
      ensures GetCameraModeStr(n) == reportedMode
      ensures ok <==> reportedMode == ProgramMode || reportedMode == ManualMode
    {
      QueryMode(n, reportedMode);
      return cameraModes[n] == ProgramMode || cameraModes[n] == ManualMode;
    }

    /** `getCameraModeStr`: the stored mode of a listed camera, "Invalid camera number" otherwise. */
    function GetCameraModeStr(n: int): (mode: string)
      requires 0 <= n < |cameraList| ==> n < |cameraModes|
      reads this
      ensures 0 <= n < |cameraList| ==> mode == cameraModes[n]
      ensures !(0 <= n < |cameraList|) ==> mode == InvalidCameraNumber
    {
      if 0 <= n < |cameraList| then cameraModes[n] else InvalidCameraNumber
    }

    /** `downloadCameraSetting`: asks the camera for its settings file and reports success. */
    method DownloadCameraSetting(n: int) returns (ok: bool)
      requires 0 <= n < |cameraList|
      modifies this
      ensures ok && cameraList == old(cameraList) && cameraModes == old(cameraModes)
      ensures log == old(log) + [DownloadSettingFile(n)]
    {
      log := log + [DownloadSettingFile(n)];
      return true;
    }

    /** `uploadCameraSetting`: sends the settings file to the camera and reports success. */
    method UploadCameraSetting(n: int) returns (ok: bool)
      requires 0 <= n < |cameraList|
      modifies this
      ensures ok && cameraList == old(cameraList) && cameraModes == old(cameraModes)
      ensures log == old(log) + [UploadSettingFile(n)]
    {
      log := log + [UploadSettingFile(n)];
      return true;
    }

    /**
     * `disconnectToCameras`: every connected camera is disconnected in list order, stopping at the
     * first refusal; then every camera is released in order, stopping at the first release that
     * does not finish in time. True for an empty list.
     */
    method DisconnectToCameras(disconnectAccepted: seq<bool>, releasedInTime: seq<bool>) returns (ok: bool)
      requires |disconnectAccepted| == |cameraList| && |releasedInTime| == |cameraList|
      modifies this
      ensures cameraList == old(cameraList) && cameraModes == old(cameraModes)
      ensures ok == TeardownSucceeds(cameraList, disconnectAccepted, releasedInTime)
      ensures log == old(log) + TeardownCalls(cameraList, disconnectAccepted, releasedInTime)
    {
      if cameraList == [] {
        assert DisconnectOutcomes(cameraList, disconnectAccepted) == [];
        return true;
      }
      var disconnects, allDisconnected := DisconnectConnected(cameraList, disconnectAccepted);
      if !allDisconnected {
        log := log + disconnects;
        return false;
      }
      var releases, allReleased := ReleaseCameras(|cameraList|, releasedInTime);
      log := log + (disconnects + releases);
      return allReleased;
    }

    /** `releaseCameraList`: both the mode slots and the camera list are emptied. */
    method ReleaseCameraList() returns (ok: bool)
      modifies this
      ensures ok && cameraList == [] && cameraModes == [] && log == old(log)
    {
      cameraModes := [];
      cameraList := [];
      return true;
    }
  }
}
