/**
 The screen component as an object: its five state hooks are mutable fields and
 its event handlers are methods that overwrite them. Each method is proved to
 move the object exactly as the matching transition function of CaptureState
 prescribes.
 */
module CameraApp {
  import opened CaptureState

  class CameraScreen {
    var hasCameraPermission: Permission
    var image: Option<Uri>
    var cameraType: CameraType
    var flash: FlashMode
    var showTakePictureButton: bool

    /** The abstract value of the screen. */
    function State(): AppState
      reads this
    {
      AppState(hasCameraPermission, image, cameraType, flash, showTakePictureButton)
    }

    ghost predicate Valid()
      reads this
    {
      ButtonShownIffNoImage(State())
    }

    constructor ()
      ensures Valid() && State() == Initial()
    {
      hasCameraPermission := Unknown;
      image := None;
      cameraType := Back;
      flash := Off;
      showTakePictureButton := true;
    }

    /** The mount-time permission request has resolved with `status`. */
    method ResolvePermission(status: string)
      requires Valid()
      modifies this
      ensures Valid() && State() == ResolvePermissionStep(old(State()), status)
    {
      hasCameraPermission := if status == GrantedStatus then Granted else Denied;
    }

    /**
     `cameraReady` says whether the camera view is mounted; `capture` is what
     the device capture returned when it was asked.
     */
    method TakePicture(cameraReady: bool, capture: Capture)
      requires Valid()
      modifies this
      ensures Valid() && State() == TakePictureStep(old(State()), cameraReady, capture)
    {
      if cameraReady {
        match capture
        case Captured(uri) =>
          image := Some(uri);
          showTakePictureButton := false;
        case CaptureFailed =>
      }
    }

    /** `save` is how the media-library save resolved; `alert` is the confirmation shown, if any. */
    method SaveImage(save: SaveOutcome) returns (alert: Option<string>)
      requires Valid()
      modifies this
      ensures Valid() && State() == SaveImageStep(old(State()), save)
      ensures alert == SaveAlert(old(State()), save)
    {
      alert := None;
      if image.Some? && image.value != "" {
        if save == Saved {
          alert := Some(SavedMessage);
          image := None;
          showTakePictureButton := true;
        }
      }
    }

    method SwitchCamera()
      requires Valid()
      modifies this
      ensures Valid() && State() == SwitchCameraStep(old(State()))
    {
      cameraType := if cameraType == Back then Front else Back;
    }

    method ToggleFlash()
      requires Valid()
      modifies this
      ensures Valid() && State() == ToggleFlashStep(old(State()))
    {
      flash := if flash == Off then On else Off;
    }

    method RetakePicture()
      requires Valid()
      modifies this
      ensures Valid() && State() == RetakePictureStep(old(State()))
    {
      image := None;
      showTakePictureButton := true;
    }
  }
}
