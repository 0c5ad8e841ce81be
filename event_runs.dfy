/**
 Sequences of handler invocations, each one an atomic step, and what holds
 along any of them.
 */
module EventRuns {
  import opened CaptureState

  datatype Event =
    | PermissionResolved(status: string)
    | TakePicture(cameraReady: bool, capture: Capture)
    | SaveImage(save: SaveOutcome)
    | SwitchCamera
    | ToggleFlash
    | RetakePicture

  function Apply(s: AppState, e: Event): AppState {
    match e
    case PermissionResolved(status) => ResolvePermissionStep(s, status)
    case TakePicture(cameraReady, capture) => TakePictureStep(s, cameraReady, capture)
    case SaveImage(save) => SaveImageStep(s, save)
    case SwitchCamera => SwitchCameraStep(s)
    case ToggleFlash => ToggleFlashStep(s)
    case RetakePicture => RetakePictureStep(s)
  }

  /** The alert, if any, that handling `e` in state `s` shows. */
  function AlertOf(s: AppState, e: Event): seq<string> {
    match e
    case SaveImage(save) =>
      (match SaveAlert(s, save) case Some(m) => [m] case None => [])
    case _ => []
  }

  /** The state after handling `events` in order. */
  function Run(s: AppState, events: seq<Event>): AppState
    decreases |events|
  {
    if events == [] then s else Run(Apply(s, events[0]), events[1..])
  }

  /** The alerts shown while handling `events` in order. */
  function Alerts(s: AppState, events: seq<Event>): seq<string>
    decreases |events|
  {
    if events == [] then [] else AlertOf(s, events[0]) + Alerts(Apply(s, events[0]), events[1..])
  }

  predicate IsSwitch(e: Event) { e.SwitchCamera? }

  predicate IsFlashToggle(e: Event) { e.ToggleFlash? }

  predicate IsSuccessfulSave(e: Event) { e == SaveImage(Saved) }

  /** How many of `events` satisfy `p`. */
  function Count(events: seq<Event>, p: Event -> bool): nat {
    if events == [] then 0 else (if p(events[0]) then 1 else 0) + Count(events[1..], p)
  }

  /** How many steps of the run save a held (truthy) image successfully. */
  function SavesOfHeldImage(s: AppState, events: seq<Event>): nat
    decreases |events|
  {
    if events == [] then 0
    else (if events[0] == SaveImage(Saved) && HasImage(s.image) then 1 else 0)
         + SavesOfHeldImage(Apply(s, events[0]), events[1..])
  }

  /** Every handler, on every path, keeps the capture button shown exactly when no image is held. */
  lemma {:induction false} RunKeepsButtonInvariant(s: AppState, events: seq<Event>)
    requires ButtonShownIffNoImage(s)
    ensures ButtonShownIffNoImage(Run(s, events))
    decreases |events|
  {
    if events != [] {
      RunKeepsButtonInvariant(Apply(s, events[0]), events[1..]);
    }
  }

  /** The invariant holds in every state the screen can reach from mounting. */
  lemma ReachableStatesKeepButtonInvariant(events: seq<Event>)
    ensures ButtonShownIffNoImage(Run(Initial(), events))
  {
    RunKeepsButtonInvariant(Initial(), events);
  }

  /** Whatever else happens, the camera in use depends only on how many times it was switched. */
  lemma {:induction false} CameraFollowsSwitchParity(s: AppState, events: seq<Event>)
    ensures Run(s, events).cameraType ==
              if Count(events, IsSwitch) % 2 == 0 then s.cameraType else FlipCamera(s.cameraType)
    decreases |events|
  {
    if events != [] {
      var t := Apply(s, events[0]);
      CameraFollowsSwitchParity(t, events[1..]);
      assert t.cameraType == if events[0].SwitchCamera? then FlipCamera(s.cameraType) else s.cameraType;
    }
  }

  /** Whatever else happens, the flash mode depends only on how many times it was toggled. */
  lemma {:induction false} FlashFollowsToggleParity(s: AppState, events: seq<Event>)
    ensures Run(s, events).flash ==
              if Count(events, IsFlashToggle) % 2 == 0 then s.flash else FlipFlash(s.flash)
    decreases |events|
  {
    if events != [] {
      var t := Apply(s, events[0]);
      FlashFollowsToggleParity(t, events[1..]);
      assert t.flash == if events[0].ToggleFlash? then FlipFlash(s.flash) else s.flash;
    }
  }

  /** Camera and flash toggles never capture, drop or save an image, and never alert. */
  lemma {:induction false} TogglesKeepImage(s: AppState, events: seq<Event>)
    requires forall i :: 0 <= i < |events| ==> events[i].SwitchCamera? || events[i].ToggleFlash?
    ensures Run(s, events).image == s.image
    ensures Run(s, events).showTakePictureButton == s.showTakePictureButton
    ensures Run(s, events).permission == s.permission
    ensures Alerts(s, events) == []
    decreases |events|
  {
    if events != [] {
      TogglesKeepImage(Apply(s, events[0]), events[1..]);
    }
  }

  /**
   Along any run, one confirmation is shown per successful save of a held
   image, and so no more than there are successful saves.
   */
  lemma {:induction false} AlertsMatchSuccessfulSaves(s: AppState, events: seq<Event>)
    ensures |Alerts(s, events)| == SavesOfHeldImage(s, events)
    ensures SavesOfHeldImage(s, events) <= Count(events, IsSuccessfulSave)
    ensures forall i :: 0 <= i < |Alerts(s, events)| ==> Alerts(s, events)[i] == SavedMessage
    decreases |events|
  {
    if events != [] {
      AlertsMatchSuccessfulSaves(Apply(s, events[0]), events[1..]);
    }
  }

  /**
   From the live state, a successful capture followed by a successful save
   comes back to the same state, with exactly one confirmation.
   */
  lemma CaptureThenSave(s: AppState, uri: Uri)
    requires ButtonShownIffNoImage(s) && s.image == None && uri != ""
    ensures Run(s, [TakePicture(true, Captured(uri)), SaveImage(Saved)]) == s
    ensures Alerts(s, [TakePicture(true, Captured(uri)), SaveImage(Saved)]) == [SavedMessage]
  {
    var events := [TakePicture(true, Captured(uri)), SaveImage(Saved)];
    var t := Apply(s, events[0]);
    assert events[1..] == [SaveImage(Saved)];
    assert Run(s, events) == Run(t, [SaveImage(Saved)]);
    assert Alerts(s, events) == Alerts(t, [SaveImage(Saved)]);
  }

  /**
   From the live state, a successful capture followed by a retake comes back
   to the same state, with no confirmation.
   */
  lemma CaptureThenRetake(s: AppState, uri: Uri)
    requires ButtonShownIffNoImage(s) && s.image == None
    ensures Run(s, [TakePicture(true, Captured(uri)), RetakePicture]) == s
    ensures Alerts(s, [TakePicture(true, Captured(uri)), RetakePicture]) == []
  {
    var events := [TakePicture(true, Captured(uri)), RetakePicture];
    var t := Apply(s, events[0]);
    assert events[1..] == [RetakePicture];
    assert Run(s, events) == Run(t, [RetakePicture]);
    assert Alerts(s, events) == Alerts(t, [RetakePicture]);
  }

  /** A failed save keeps the held image, so nothing is lost before a confirmed save. */
  lemma {:induction false} FailedSaveKeepsImage(s: AppState, events: seq<Event>)
    requires forall i :: 0 <= i < |events| ==> events[i] == SaveImage(SaveFailed)
    ensures Run(s, events) == s && Alerts(s, events) == []
    decreases |events|
  {
    if events != [] {
      FailedSaveKeepsImage(Apply(s, events[0]), events[1..]);
    }
  }
}
