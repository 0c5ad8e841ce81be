/**
 What the screen renders for a given state, and which controls it offers.
 */
module ScreenView {
  import opened CaptureState

  datatype Screen =
    | NoAccessNotice(text: string)
    | LivePreview(cameraType: CameraType, flash: FlashMode, flashIconColor: string, takePictureButton: bool)
    | ReviewImage(uri: Uri)

  datatype Control = SwitchCameraButton | ToggleFlashButton | TakePictureButton | RetakeButton | SaveButton

  /** The only content of the screen when camera access is denied. */
  const DeniedText: string := "No Access To Camera"

  /**
   Only an explicit denial blocks the camera: a pending request (Unknown)
   renders the live preview like a grant does.
   */
  function View(s: AppState): (v: Screen)
    ensures v.NoAccessNotice? <==> s.permission == Denied
    ensures v.NoAccessNotice? ==> v.text == DeniedText
    ensures v.ReviewImage? <==> s.permission != Denied && HasImage(s.image)
    ensures v.ReviewImage? ==> s.image == Some(v.uri)
    ensures v.LivePreview? ==>
              v.cameraType == s.cameraType && v.flash == s.flash &&
              v.takePictureButton == s.showTakePictureButton &&
              (v.flashIconColor == "gray" <==> s.flash == Off)
  {
    if s.permission == Denied then
      NoAccessNotice(DeniedText)
    else if !HasImage(s.image) then
      LivePreview(s.cameraType, s.flash, if s.flash == Off then "gray" else "white", s.showTakePictureButton)
    else
      ReviewImage(s.image.value)
  }

  /** The buttons a rendered screen carries. */
  function Controls(v: Screen): set<Control> {
    match v
    case NoAccessNotice(_) => {}
    case LivePreview(_, _, _, takePictureButton) =>
      {SwitchCameraButton, ToggleFlashButton} + (if takePictureButton then {TakePictureButton} else {})
    case ReviewImage(_) => {RetakeButton, SaveButton}
  }

  /**
   Under the invariant, the screen offers the capture control exactly in the
   live state without an image, the review controls exactly when an image is
   held, and the camera toggles only while no image is shown.
   */
  lemma ControlsFollowState(s: AppState)
    requires ButtonShownIffNoImage(s)
    ensures TakePictureButton in Controls(View(s)) <==> s.permission != Denied && s.image == None
    ensures SaveButton in Controls(View(s)) <==> s.permission != Denied && HasImage(s.image)
    ensures RetakeButton in Controls(View(s)) <==> SaveButton in Controls(View(s))
    ensures SwitchCameraButton in Controls(View(s)) <==> s.permission != Denied && !HasImage(s.image)
    ensures ToggleFlashButton in Controls(View(s)) <==> SwitchCameraButton in Controls(View(s))
  {
  }

  /** A denied permission leaves the notice alone on screen, with no control at all. */
  lemma DeniedOffersNoControls(s: AppState)
    requires s.permission == Denied
    ensures View(s) == NoAccessNotice(DeniedText) && Controls(View(s)) == {}
  {
  }

  /**
   The truthiness test treats an empty capture URI as "no image", while the
   invariant compares `image` with None and does not: such a state shows the preview with
   neither the capture nor the review controls.
   */
  lemma EmptyUriHidesCaptureAndReview(s: AppState)
    requires ButtonShownIffNoImage(s) && s.permission != Denied && s.image == Some("")
    ensures Controls(View(s)) == {SwitchCameraButton, ToggleFlashButton}
  {
  }
}
