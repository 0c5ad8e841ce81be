/**
 The capture state machine of the camera screen: its five pieces of state and
 one transition function per event handler. Device calls (the camera capture,
 the media-library save, the permission request) are not made here; their
 outcome is an argument of the transition.
 */
module CaptureState {

  /** A local file locator of a captured still, as the capture call returns it. */
  type Uri = string

  datatype Option<T> = None | Some(value: T)

  /** `hasCameraPermission`: null while the request is pending, then true or false. */
  datatype Permission = Unknown | Granted | Denied

  /** Which physical camera the preview uses. */
  datatype CameraType = Back | Front

  datatype FlashMode = Off | On

  /** What the device capture call produced. */
  datatype Capture = Captured(uri: Uri) | CaptureFailed

  /** Whether the media-library save call resolved or rejected. */
  datatype SaveOutcome = Saved | SaveFailed

  datatype AppState = AppState(
    permission: Permission,
    image: Option<Uri>,
    cameraType: CameraType,
    flash: FlashMode,
    showTakePictureButton: bool)

  /** The status string the permission service reports on a grant. */
  const GrantedStatus: string := "granted"

  /** The text of the confirmation shown after a successful save. */
  const SavedMessage: string := "Picture saved!"

  /**
   The screen's truthiness test on `image`: null and the empty string are
   both "no image".
   */
  predicate HasImage(image: Option<Uri>) {
    image.Some? && image.value != ""
  }

  /** The invariant every handler keeps: the capture button is shown exactly when no image is held. */
  predicate ButtonShownIffNoImage(s: AppState) {
    s.showTakePictureButton == s.image.None?
  }

  /** The state when the screen mounts. */
  function Initial(): (s: AppState)
    ensures s.permission == Unknown && s.image == None
    ensures s.cameraType == Back && s.flash == Off
    ensures s.showTakePictureButton && ButtonShownIffNoImage(s)
  {
    AppState(Unknown, None, Back, Off, true)
  }

  function FlipCamera(t: CameraType): (r: CameraType)
    ensures r != t
  {
    if t == Back then Front else Back
  }

  function FlipFlash(f: FlashMode): (r: FlashMode)
    ensures r != f
  {
    if f == Off then On else Off
  }

  /** The permission request resolved with `status`: anything but a grant is a denial. */
  function ResolvePermissionStep(s: AppState, status: string): (r: AppState)
    ensures r.permission != Unknown
    ensures r.permission == Granted <==> status == GrantedStatus
    ensures r == s.(permission := r.permission)
    ensures ButtonShownIffNoImage(s) ==> ButtonShownIffNoImage(r)
  {
    s.(permission := if status == GrantedStatus then Granted else Denied)
  }

  /**
   `takePicture`: only with a mounted camera and a successful capture does the
   screen take the new image and hide the capture button.
   */
  function TakePictureStep(s: AppState, cameraReady: bool, capture: Capture): (r: AppState)
    ensures cameraReady && capture.Captured? ==>
              r.image == Some(capture.uri) && !r.showTakePictureButton
    ensures !cameraReady || capture.CaptureFailed? ==> r == s
    ensures r == s.(image := r.image, showTakePictureButton := r.showTakePictureButton)
    ensures ButtonShownIffNoImage(s) ==> ButtonShownIffNoImage(r)
  {
    if cameraReady then
      match capture
      case Captured(uri) => s.(image := Some(uri), showTakePictureButton := false)
      case CaptureFailed => s
    else
      s
  }

  /**
   `saveImage`: with an image held and a successful save the image is dropped
   and the capture button comes back; otherwise nothing changes.
   */
  function SaveImageStep(s: AppState, save: SaveOutcome): (r: AppState)
    ensures HasImage(s.image) && save == Saved ==>
              r.image == None && r.showTakePictureButton
    ensures !HasImage(s.image) || save == SaveFailed ==> r == s
    ensures r == s.(image := r.image, showTakePictureButton := r.showTakePictureButton)
    ensures ButtonShownIffNoImage(s) ==> ButtonShownIffNoImage(r)
  {
    if HasImage(s.image) && save == Saved then
      s.(image := None, showTakePictureButton := true)
    else
      s
  }

  /** The alert `saveImage` raises: exactly one confirmation, and only on a successful save of a held image. */
  function SaveAlert(s: AppState, save: SaveOutcome): (alert: Option<string>)
    ensures alert.Some? <==> HasImage(s.image) && save == Saved
    ensures alert.Some? ==> alert.value == SavedMessage
  {
    if HasImage(s.image) && save == Saved then Some(SavedMessage) else None
  }

  /** `switchCamera`: the other camera, nothing else touched. */
  function SwitchCameraStep(s: AppState): (r: AppState)
    ensures r.cameraType != s.cameraType
    ensures r == s.(cameraType := r.cameraType)
    ensures ButtonShownIffNoImage(s) ==> ButtonShownIffNoImage(r)
  {
    s.(cameraType := FlipCamera(s.cameraType))
  }

  /** `toggleFlash`: the other flash mode, nothing else touched. */
  function ToggleFlashStep(s: AppState): (r: AppState)
    ensures r.flash != s.flash
    ensures r == s.(flash := r.flash)
    ensures ButtonShownIffNoImage(s) ==> ButtonShownIffNoImage(r)
  {
    s.(flash := FlipFlash(s.flash))
  }

  /** `retakePicture`: the image is discarded, the camera settings stay as they were. */
  function RetakePictureStep(s: AppState): (r: AppState)
    ensures r.image == None && r.showTakePictureButton
    ensures r.permission == s.permission && r.cameraType == s.cameraType && r.flash == s.flash
    ensures ButtonShownIffNoImage(r)
  {
    s.(image := None, showTakePictureButton := true)
  }

  lemma SwitchCameraTwiceRestores(s: AppState)
    ensures SwitchCameraStep(SwitchCameraStep(s)) == s
  {
  }

  lemma ToggleFlashTwiceRestores(s: AppState)
    ensures ToggleFlashStep(ToggleFlashStep(s)) == s
  {
  }

  /** Retaking right after a successful capture returns to the live state the capture started from. */
  lemma RetakeUndoesCapture(s: AppState, uri: Uri)
    requires ButtonShownIffNoImage(s) && s.image == None
    ensures RetakePictureStep(TakePictureStep(s, true, Captured(uri))) == s
  {
  }

  /** On the state, a successful save of a held image has the same effect as a retake. */
  lemma SuccessfulSaveActsAsRetake(s: AppState)
    requires HasImage(s.image)
    ensures SaveImageStep(s, Saved) == RetakePictureStep(s)
  {
  }
}
