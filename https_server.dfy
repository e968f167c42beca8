/**
 * HttpsServer: the request handlers of the HTTP front end. Each handler is a chain of guards
 * over the query parameters and the camera wrapper's state that either answers at once or calls
 * the wrapper once and answers from its result. A handler is modelled as a function from the
 * query, what it reads from the wrapper and the wrapper's reply to the response it sends, which
 * records the wrapper call it made, if any.
 */
module HttpsServer {
  import opened Wrappers

  /** The query parameters a handler reads; `None` for a parameter that is absent or empty. */
  datatype Query = Query(cameraId: Option<int>, brightnessValue: Option<int>, x: Option<int>, y: Option<int>)

  /** A call on the camera wrapper. */
  datatype InterfaceCall =
    | SwitchToPMode(camera: int)
    | SwitchToMMode(camera: int)
    | ChangeBrightness(camera: int, brightness: int)
    | ChangeAFAreaPosition(camera: int, x: int, y: int)
    | GetCameraMode(camera: int)
    | UploadCameraSetting(camera: int)

  /** The JSON body: a "message", an "error", or a "message" with the camera's "mode". */
  datatype Body = Message(message: string) | Error(error: string) | ModeReport(message: string, mode: string)

  datatype Response = Response(status: int, body: Body, call: Option<InterfaceCall>)

  /**
   * What a handler sees of the wrapper: the number of listed cameras, the cached modes, the
   * boolean the wrapper call returns and the mode string `getCameraModeStr` gives after it.
   */
  datatype Context = Context(cameraCount: nat, cameraModes: seq<string>, success: bool, cameraModeStr: string)

  const MissingCameraId := "Missing camera_id parameter."
  const CameraIdOutOfRange := "Camera_id out of range."
  const ManualMode := "m"
  const ProgramMode := "p"
  const AfNotInProgramMode := "Changing the AF Area Position is not possible because the camera is not P(auto) mode."
  const MissingAfParameters := "Missing or invalid parameters."
  const XOutOfRange := "The selected X value is out of range."
  const YOutOfRange := "The selected Y value is out of range."
  const ServerRunning := "The server is running"
  const SwitchedToP := "Successfully switched to P mode"
  const FailedToSwitchToP := "Failed to switch to P mode"
  const SwitchedToM := "Successfully switched to M mode"
  const FailedToSwitchToM := "Failed to switch to M mode"
  const BrightnessNotInManualMode := "Changing the camera brightness is not possible because the camera is not M(manual) mode."
  const MissingBrightness := "Missing required parameters."
  const BrightnessOutOfRange := "the brightness value entered is incorrect."
  const BrightnessChanged := "Successfully changed brightness value"
  const FailedToChangeBrightness := "Failed to change brightness value"
  const AfAreaChanged := "Successfully changed AF Area Position"
  const FailedToChangeAfArea := "Failed to change AF Area Position"
  const ModeRetrieved := "Successfully retrieved camera mode"
  const FailedToRetrieveMode := "Failed to retrieve camera mode"
  const SettingDownloaded := "Successfully download camera setting"
  const FailedToDownloadSetting := "Failed to download camera setting"
  const SettingUploaded := "Successfully upload camera setting"
  const FailedToUploadSetting := "Failed to upload camera setting"

  /** `camera_id` is present and names a listed camera. */
  predicate CameraIdValid(q: Query, cameraCount: nat)
  {
    q.cameraId.Some? && 0 <= q.cameraId.value < cameraCount
  }

  /** The cached mode of the requested camera can be read whenever the id is valid. */
  predicate ModesCover(q: Query, ctx: Context)
  {
    CameraIdValid(q, ctx.cameraCount) ==> q.cameraId.value < |ctx.cameraModes|
  }

  /** The two guards every camera route starts with: a missing id, then an id out of range. */
  function CameraIdRejection(q: Query, cameraCount: nat): (r: Option<Response>)
    ensures r.None? <==> CameraIdValid(q, cameraCount)
    ensures r.Some? ==> r.value.status == 400 && r.value.call.None?
  {
    if q.cameraId.None? then Some(Response(400, Error(MissingCameraId), None))
    else if q.cameraId.value < 0 || q.cameraId.value >= cameraCount then Some(Response(400, Error(CameraIdOutOfRange), None))
    else None
  }

  /** The response once validation passed and the wrapper answered: 200 on success, 500 otherwise. */
  function Outcome(call: InterfaceCall, success: bool, okMessage: string, failure: string): (r: Response)
    ensures r.call == Some(call)
    ensures r.status == 200 <==> success
    ensures r.status == 500 <==> !success
  {
    if success then Response(200, Message(okMessage), Some(call)) else Response(500, Error(failure), Some(call))
  }

  /** `/`: always 200, ServerRunning. */
  function HandleIndicator(): (r: Response)
    ensures r.status == 200 && r.call.None?
  {
    Response(200, Message(ServerRunning), None)
  }

  /** `/switch_to_p_mode`. */
  function HandleSwitchToPMode(q: Query, ctx: Context): (r: Response)
    ensures !CameraIdValid(q, ctx.cameraCount) ==> r.status == 400 && r.call.None?
    ensures CameraIdValid(q, ctx.cameraCount) ==>
      r.call == Some(SwitchToPMode(q.cameraId.value)) && (r.status == 200 <==> ctx.success) && (r.status == 500 <==> !ctx.success)
  {
    match CameraIdRejection(q, ctx.cameraCount)
    case Some(rejection) => rejection
    case None =>
      Outcome(SwitchToPMode(q.cameraId.value), ctx.success, SwitchedToP, FailedToSwitchToP)
  }

  /** `/switch_to_m_mode`. */
  function HandleSwitchToMMode(q: Query, ctx: Context): (r: Response)
    ensures !CameraIdValid(q, ctx.cameraCount) ==> r.status == 400 && r.call.None?
    ensures CameraIdValid(q, ctx.cameraCount) ==>
      r.call == Some(SwitchToMMode(q.cameraId.value)) && (r.status == 200 <==> ctx.success) && (r.status == 500 <==> !ctx.success)
  {
    match CameraIdRejection(q, ctx.cameraCount)
    case Some(rejection) => rejection
    case None =>
      Outcome(SwitchToMMode(q.cameraId.value), ctx.success, SwitchedToM, FailedToSwitchToM)
  }

  /**
   * The guards of `/change_brightness` after the id guards: the cached mode must be "m" (405),
   * then a brightness must be given (400) and lie in 0..48 (405).
   */
  function BrightnessRejection(mode: string, brightness: Option<int>): (r: Option<Response>)
    ensures r.None? <==> mode == ManualMode && brightness.Some? && 0 <= brightness.value <= 48
    ensures r.Some? ==> r.value.call.None? && (r.value.status == 400 || r.value.status == 405)
  {
    if mode != ManualMode then
      Some(Response(405, Error(BrightnessNotInManualMode), None))
    else if brightness.None? then
      Some(Response(400, Error(MissingBrightness), None))
    else if brightness.value < 0 || brightness.value > 48 then
      Some(Response(405, Error(BrightnessOutOfRange), None))
    else None
  }

  /** `/change_brightness`: the id guards, the brightness guards, then the wrapper call. */
  function HandleChangeBrightness(q: Query, ctx: Context): (r: Response)
    requires ModesCover(q, ctx)
    ensures r.call.Some? <==>
      CameraIdValid(q, ctx.cameraCount) && ctx.cameraModes[q.cameraId.value] == ManualMode &&
      q.brightnessValue.Some? && 0 <= q.brightnessValue.value <= 48
    ensures r.call.Some? ==> r.call.value == ChangeBrightness(q.cameraId.value, q.brightnessValue.value)
    ensures r.call.Some? ==> (r.status == 200 <==> ctx.success) && (r.status == 500 <==> !ctx.success)
    ensures r.call.None? ==> r.status == 400 || r.status == 405
  {
    match CameraIdRejection(q, ctx.cameraCount)
    case Some(rejection) => rejection
    case None =>
      var cameraId := q.cameraId.value;
      match BrightnessRejection(ctx.cameraModes[cameraId], q.brightnessValue)
      case Some(rejection) => rejection
      case None =>
        Outcome(ChangeBrightness(cameraId, q.brightnessValue.value), ctx.success,
                BrightnessChanged, FailedToChangeBrightness)
  }

  /**
   * The guards of `/change_af_area_position` after the id guards: the cached mode must be "p"
   * (405), then both x and y must be given (400), then x in 0..639 (405) before y in 0..479 (405).
   */
  function AfAreaRejection(mode: string, x: Option<int>, y: Option<int>): (r: Option<Response>)
    ensures r.None? <==> mode == ProgramMode && x.Some? && y.Some? && 0 <= x.value <= 639 && 0 <= y.value <= 479
    ensures r.Some? ==> r.value.call.None? && (r.value.status == 400 || r.value.status == 405)
  {
    if mode != ProgramMode then Some(Response(405, Error(AfNotInProgramMode), None))
    else if x.None? || y.None? then Some(Response(400, Error(MissingAfParameters), None))
    else if x.value < 0 || x.value > 639 then Some(Response(405, Error(XOutOfRange), None))
    else if y.value < 0 || y.value > 479 then Some(Response(405, Error(YOutOfRange), None))
    else None
  }

  /** `/change_af_area_position`: the id guards, the position guards, then the wrapper call. */
  function HandleChangeAFAreaPosition(q: Query, ctx: Context): (r: Response)
    requires ModesCover(q, ctx)
    ensures r.call.Some? <==>
      CameraIdValid(q, ctx.cameraCount) && ctx.cameraModes[q.cameraId.value] == ProgramMode &&
      q.x.Some? && q.y.Some? && 0 <= q.x.value <= 639 && 0 <= q.y.value <= 479
    ensures r.call.Some? ==> r.call.value == ChangeAFAreaPosition(q.cameraId.value, q.x.value, q.y.value)
    ensures r.call.Some? ==> (r.status == 200 <==> ctx.success) && (r.status == 500 <==> !ctx.success)
    ensures r.call.None? ==> r.status == 400 || r.status == 405
  {
    match CameraIdRejection(q, ctx.cameraCount)
    case Some(rejection) => rejection
    case None =>
      var cameraId := q.cameraId.value;
      match AfAreaRejection(ctx.cameraModes[cameraId], q.x, q.y)
      case Some(rejection) => rejection
      case None =>
        Outcome(ChangeAFAreaPosition(cameraId, q.x.value, q.y.value), ctx.success,
                AfAreaChanged, FailedToChangeAfArea)
  }

  /** `/get_camera_mode`: on success the body carries the mode string the wrapper now holds. */
  function HandleGetCameraMode(q: Query, ctx: Context): (r: Response)
    ensures !CameraIdValid(q, ctx.cameraCount) ==> r.status == 400 && r.call.None?
    ensures CameraIdValid(q, ctx.cameraCount) ==>
      r.call == Some(GetCameraMode(q.cameraId.value)) && (r.status == 200 <==> ctx.success) && (r.status == 500 <==> !ctx.success)
    ensures r.status == 200 ==> r.body == ModeReport(ModeRetrieved, ctx.cameraModeStr)
  {
    match CameraIdRejection(q, ctx.cameraCount)
    case Some(rejection) => rejection
    case None =>
      var call := GetCameraMode(q.cameraId.value);
      if ctx.success then Response(200, ModeReport(ModeRetrieved, ctx.cameraModeStr), Some(call))
      else Response(500, Error(FailedToRetrieveMode), Some(call))
  }

  /** `/download_camera_setting`: the wrapper call it makes is `getCameraMode`. */
  function HandleDownloadCameraSetting(q: Query, ctx: Context): (r: Response)
    ensures !CameraIdValid(q, ctx.cameraCount) ==> r.status == 400 && r.call.None?
    ensures CameraIdValid(q, ctx.cameraCount) ==>
      r.call == Some(GetCameraMode(q.cameraId.value)) && (r.status == 200 <==> ctx.success) && (r.status == 500 <==> !ctx.success)
  {
    match CameraIdRejection(q, ctx.cameraCount)
    case Some(rejection) => rejection
    case None =>
      Outcome(GetCameraMode(q.cameraId.value), ctx.success,
              SettingDownloaded, FailedToDownloadSetting)
  }

  /** `/upload_camera_setting`. */
  function HandleUploadCameraSetting(q: Query, ctx: Context): (r: Response)
    ensures !CameraIdValid(q, ctx.cameraCount) ==> r.status == 400 && r.call.None?
    ensures CameraIdValid(q, ctx.cameraCount) ==>
      r.call == Some(UploadCameraSetting(q.cameraId.value)) && (r.status == 200 <==> ctx.success) && (r.status == 500 <==> !ctx.success)
  {
    match CameraIdRejection(q, ctx.cameraCount)
    case Some(rejection) => rejection
    case None =>
      Outcome(UploadCameraSetting(q.cameraId.value), ctx.success,
              SettingUploaded, FailedToUploadSetting)
  }

  /** The paths the handlers are registered under. */
  const RootPath := "/"
  const SwitchToPModePath := "/switch_to_p_mode"
  const SwitchToMModePath := "/switch_to_m_mode"
  const ChangeBrightnessPath := "/change_brightness"
  const ChangeAfAreaPositionPath := "/change_af_area_position"
  const GetCameraModePath := "/get_camera_mode"
  const DownloadCameraSettingPath := "/download_camera_setting"
  const UploadCameraSettingPath := "/upload_camera_setting"

  /** The routes that act on one camera. */
  const CameraRoutes: set<string> := {
    SwitchToPModePath, SwitchToMModePath, ChangeBrightnessPath, ChangeAfAreaPositionPath,
    GetCameraModePath, DownloadCameraSettingPath, UploadCameraSettingPath
  }

  /** The routes whose handler reads the cached mode of the requested camera. */
  predicate ReadsMode(path: string)
  {
    path == ChangeBrightnessPath || path == ChangeAfAreaPositionPath
  }

  /** The route table: the handler registered for a path, `None` for a path with no handler. */
  function Serve(path: string, q: Query, ctx: Context): (r: Option<Response>)
    requires ReadsMode(path) ==> ModesCover(q, ctx)
    ensures r.Some? <==> path == RootPath || path in CameraRoutes
  {
    if path == RootPath then Some(HandleIndicator())
    else if path == SwitchToPModePath then Some(HandleSwitchToPMode(q, ctx))
    else if path == SwitchToMModePath then Some(HandleSwitchToMMode(q, ctx))
    else if path == ChangeBrightnessPath then Some(HandleChangeBrightness(q, ctx))
    else if path == ChangeAfAreaPositionPath then Some(HandleChangeAFAreaPosition(q, ctx))
    else if path == GetCameraModePath then Some(HandleGetCameraMode(q, ctx))
    else if path == DownloadCameraSettingPath then Some(HandleDownloadCameraSetting(q, ctx))
    else if path == UploadCameraSettingPath then Some(HandleUploadCameraSetting(q, ctx))
    else None
  }

  /** On every camera route a missing or out-of-range `camera_id` gives 400 and no wrapper call. */
  lemma BadCameraIdRejected(path: string, q: Query, ctx: Context)
    requires (ReadsMode(path) ==> ModesCover(q, ctx)) && path in CameraRoutes
    requires !CameraIdValid(q, ctx.cameraCount)
    ensures Serve(path, q, ctx).Some?
    ensures Serve(path, q, ctx).value.status == 400 && Serve(path, q, ctx).value.call.None?
    ensures q.cameraId.None? ==> Serve(path, q, ctx).value.body == Error(MissingCameraId)
    ensures q.cameraId.Some? ==> Serve(path, q, ctx).value.body == Error(CameraIdOutOfRange)
  {
  }

  /** On every route, once the wrapper is called the status is 200 when it returned true and 500 otherwise. */
  lemma StatusFollowsWrapper(path: string, q: Query, ctx: Context)
    requires ReadsMode(path) ==> ModesCover(q, ctx)
    requires Serve(path, q, ctx).Some? && Serve(path, q, ctx).value.call.Some?
    ensures Serve(path, q, ctx).value.status == (if ctx.success then 200 else 500)
  {
  }

  /** The status of every response is one of 200, 400, 405 and 500. */
  lemma KnownStatuses(path: string, q: Query, ctx: Context)
    requires (ReadsMode(path) ==> ModesCover(q, ctx)) && Serve(path, q, ctx).Some?
    ensures Serve(path, q, ctx).value.status in {200, 400, 405, 500}
  {
  }

  /** A camera not in "m" gets 405 from `/change_brightness`, whether or not a brightness is given. */
  lemma BrightnessModeCheckedFirst(q: Query, ctx: Context)
    requires ModesCover(q, ctx) && CameraIdValid(q, ctx.cameraCount)
    requires ctx.cameraModes[q.cameraId.value] != ManualMode
    ensures HandleChangeBrightness(q, ctx).status == 405
    ensures HandleChangeBrightness(q, ctx) == HandleChangeBrightness(q.(brightnessValue := None), ctx)
  {
  }

  /** For a camera in "m": a missing brightness is 400, one outside 0..48 is 405, neither calls the wrapper. */
  lemma BrightnessValueChecks(q: Query, ctx: Context)
    requires ModesCover(q, ctx) && CameraIdValid(q, ctx.cameraCount)
    requires ctx.cameraModes[q.cameraId.value] == ManualMode
    ensures q.brightnessValue.None? ==> HandleChangeBrightness(q, ctx).status == 400
    ensures q.brightnessValue.Some? && !(0 <= q.brightnessValue.value <= 48) ==>
      HandleChangeBrightness(q, ctx).status == 405 && HandleChangeBrightness(q, ctx).call.None?
  {
  }

  /**
   * `/change_af_area_position` checks the mode before the presence of x and y, and x before y:
   * a bad x is reported whatever y is.
   */
  lemma AfAreaCheckOrder(q: Query, ctx: Context)
    requires ModesCover(q, ctx) && CameraIdValid(q, ctx.cameraCount)
    ensures ctx.cameraModes[q.cameraId.value] != ProgramMode ==>
      HandleChangeAFAreaPosition(q, ctx) == HandleChangeAFAreaPosition(q.(x := None, y := None), ctx) &&
      HandleChangeAFAreaPosition(q, ctx).status == 405
    ensures ctx.cameraModes[q.cameraId.value] == ProgramMode && (q.x.None? || q.y.None?) ==>
      HandleChangeAFAreaPosition(q, ctx).status == 400
    ensures ctx.cameraModes[q.cameraId.value] == ProgramMode && q.x.Some? && q.y.Some? && !(0 <= q.x.value <= 639) ==>
      HandleChangeAFAreaPosition(q, ctx) == Response(405, Error(XOutOfRange), None)
    ensures (ctx.cameraModes[q.cameraId.value] == ProgramMode && q.x.Some? && q.y.Some? && 0 <= q.x.value <= 639 &&
             !(0 <= q.y.value <= 479)) ==>
      HandleChangeAFAreaPosition(q, ctx) == Response(405, Error(YOutOfRange), None)
  {
  }

  /** `/download_camera_setting` asks for the camera's mode; it never calls an upload or a download. */
  lemma DownloadQueriesMode(q: Query, ctx: Context)
    requires CameraIdValid(q, ctx.cameraCount)
    ensures HandleDownloadCameraSetting(q, ctx).call == HandleGetCameraMode(q, ctx).call
    ensures HandleDownloadCameraSetting(q, ctx).status == HandleGetCameraMode(q, ctx).status
  {
  }
}
