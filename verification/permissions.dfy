/** The Android camera-permission flow: `PermissionHandler.checkPermission`
    maps the state the OS reports to one of three actions, and the plugin's
    `checkPermissionsInternal` turns a "please ask" into a permission request
    on the first attempt and into a rejection after a request has been made. */
module Permissions {
  import opened Wrappers
  import opened Domain

  /** Capacitor's permission states; the OS may also report none (`null`). */
  datatype PermissionState = Granted | Denied | Prompt | PromptWithRationale

  /** The error attached to a rejected call. */
  datatype RejectError =
    | PluginFailure(error: PluginError)
    | IllegalState(message: string)

  /** What `checkPermission` does with the reported state. */
  datatype PermissionAction =
    | PermissionEnabled                              // permissionEnabledCallback()
    | PermissionRequestNeeded                        // requestPermissionCallback()
    | PermissionRejected(message: string, error: RejectError)  // call.reject(...)

  /** `PermissionHandler.checkPermission`. */
  function CheckPermission(state: Option<PermissionState>): PermissionAction {
    match state
    case Some(Granted) => PermissionEnabled
    case Some(Prompt) => PermissionRequestNeeded
    case Some(PromptWithRationale) => PermissionRequestNeeded
    case Some(Denied) =>
      PermissionRejected(PermissionDeniedCompletely.ErrorMessage(), PluginFailure(PermissionDeniedCompletely))
    case None =>
      PermissionRejected("Unknown state", IllegalState("Android OS did not return camera state"))
  }

  /** The decision table of `checkPermission`, each row in both directions:
      only a granted permission opens the camera, only the two prompt states
      ask, a denial is rejected with the "manual enable" error, and a missing
      state with "Unknown state". */
  lemma CheckPermissionTable(state: Option<PermissionState>)
    ensures CheckPermission(state) == PermissionEnabled <==> state == Some(Granted)
    ensures CheckPermission(state) == PermissionRequestNeeded <==>
              state == Some(Prompt) || state == Some(PromptWithRationale)
    ensures state == Some(Denied) <==>
              CheckPermission(state) == PermissionRejected(
                "Permission has been denied. Manual enable needed", PluginFailure(PermissionDeniedCompletely))
    ensures state == None <==> CheckPermission(state).PermissionRejected? && CheckPermission(state).message == "Unknown state"
  {
  }

  /** What `checkPermissionsInternal` ends in. */
  datatype StartDecision =
    | OpenCamera                                     // startCamera(call)
    | RequestCameraPermission                        // requestPermissionForAlias("camera", ...)
    | RejectStart(message: string, error: RejectError)

  /** `checkPermissionsInternal(call, isAfterPermissionRequest)`: a state that
      still needs asking is asked for on the first attempt and rejected with
      "User did not enable camera permission" when the attempt is the answer
      to a request. */
  function CheckPermissionsInternal(state: Option<PermissionState>, isAfterPermissionRequest: bool): StartDecision {
    match CheckPermission(state)
    case PermissionEnabled => OpenCamera
    case PermissionRequestNeeded =>
      if isAfterPermissionRequest then RejectStart(PermissionDeniedError.ErrorMessage(), PluginFailure(PermissionDeniedError))
      else RequestCameraPermission
    case PermissionRejected(m, e) => RejectStart(m, e)
  }

  /** A request is made only on the first attempt and only for a prompt state;
      the camera opens on either attempt exactly when the permission is
      granted; every other case rejects the call. */
  lemma PermissionFlow(state: Option<PermissionState>, isAfterPermissionRequest: bool)
    ensures CheckPermissionsInternal(state, isAfterPermissionRequest) == RequestCameraPermission <==>
              !isAfterPermissionRequest && CheckPermission(state) == PermissionRequestNeeded
    ensures CheckPermissionsInternal(state, isAfterPermissionRequest) == OpenCamera <==> state == Some(Granted)
    ensures CheckPermissionsInternal(state, isAfterPermissionRequest).RejectStart? <==>
              state != Some(Granted) && (isAfterPermissionRequest || CheckPermission(state) != PermissionRequestNeeded)
    ensures isAfterPermissionRequest && CheckPermission(state) == PermissionRequestNeeded ==>
              CheckPermissionsInternal(state, isAfterPermissionRequest) ==
              RejectStart("User did not enable camera permission", PluginFailure(PermissionDeniedError))
  {
    CheckPermissionTable(state);
  }

  /** The user is prompted at most once per `startRecognizer`: the first
      attempt may request the permission, and the callback that follows the
      request (`cameraPermissionCallback`) never requests again, whatever
      state the OS reports then. */
  lemma AtMostOnePrompt(first: Option<PermissionState>, afterRequest: Option<PermissionState>)
    ensures CheckPermissionsInternal(afterRequest, true) != RequestCameraPermission
    ensures CheckPermissionsInternal(first, false) == RequestCameraPermission ==>
              first == Some(Prompt) || first == Some(PromptWithRationale)
  {
    CheckPermissionTable(first);
  }
}
