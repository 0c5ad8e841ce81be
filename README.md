# Camera screen capture state machine

A model of the single screen of a mobile camera app (`App.js`). The screen
keeps five pieces of state: the camera permission (pending, granted or
denied), the captured image URI (if any), the camera in use (back or front),
the flash mode (off or on), and whether the "take a picture" button is shown.
Five handlers change that state: take a picture, save the image, switch
camera, toggle flash and retake. The mount-time permission request also
changes it once. The rendered screen is chosen from the state: a "No Access
To Camera" notice, the live preview with its controls, or the captured image
with Re-take and Save.

- `capture_state.dfy` (module `CaptureState`): the state as a datatype, and
  one transition function per handler. Their contracts state the effect of
  each handler, what it leaves untouched, and that it keeps the invariant
  "the capture button is shown exactly when no image is held".
- `camera_app.dfy` (module `CameraApp`): the component as class
  `CameraScreen`. The state hooks are mutable fields and the handlers are
  methods. Each method is proved to move the object exactly as the matching
  transition function says.
- `screen_view.dfy` (module `ScreenView`): the render selection as a
  function of the state, and the set of controls each screen offers.
- `event_runs.dfy` (module `EventRuns`): any sequence of handler calls, each
  taken as one atomic step. It holds the inductive lemmas: the invariant on
  every reachable state, and camera and flash set by the parity of their
  toggles. It also holds the capture/save and capture/retake round trips.

Device calls are parameters. The capture call gives `Captured(uri)` or
`CaptureFailed`. The save call gives `Saved` or `SaveFailed`. The permission
request gives its status string. Whether the camera view is mounted
(`cameraRef.current`) is a boolean parameter.

The model follows the code's JavaScript truthiness. Every test of `image`
in the code is a truthiness test (App.js:35, 74, 93), so an empty URI counts
as "no image" (`CaptureState.HasImage`). The invariant compares `image` with
null (`None`), the value the code stores when there is no image (App.js:9,
39, 64), not with the truthiness test. Lemma
`ScreenView.EmptyUriHidesCaptureAndReview` shows the result: a state holding
an empty URI offers neither the capture control nor the review controls.

A pending permission request does not block the camera. The code tests only
`hasCameraPermission === false` (App.js:68), so while the permission is
still null the live preview renders, as it does after a grant
(`ScreenView.View`).

## Model

| member | source | states |
|---|---|---|
| `CaptureState.Initial` | App.js:8-13 | permission pending, no image, back camera, flash off, capture button shown; the invariant holds |
| `CaptureState.HasImage` | App.js:35 | the code's truthiness test on `image`: an image is held exactly when it is present and not the empty string; no contract of its own, its meaning is used by `SaveImageStep`, `SaveAlert` and `ScreenView.View` |
| `CaptureState.FlipCamera` | App.js:48-52 | the camera after a switch is the other one (back becomes front, front becomes back) |
| `CaptureState.FlipFlash` | App.js:56-60 | the flash mode after a toggle is the other one (off becomes on, on becomes off) |
| `CaptureState.ResolvePermissionStep` | App.js:15-20 | after the request the permission is no longer pending; it is granted exactly when the status is "granted"; nothing else changes |
| `CaptureState.TakePictureStep` | App.js:22-32 | with a mounted camera and a successful capture, the image becomes the URI and the capture button is hidden; with no camera or a failed capture the state is unchanged; only image and button can change; the invariant is kept |
| `CaptureState.SaveImageStep` | App.js:34-45 | a held image saved successfully is cleared and the capture button shown again; with no (truthy) image or a failed save the state is unchanged; only image and button can change; the invariant is kept |
| `CaptureState.SaveAlert` | App.js:34-45 | one "Picture saved!" alert exactly when a held image is saved successfully, none otherwise |
| `CaptureState.SwitchCameraStep` | App.js:47-53 | the camera changes; image, flash, button and permission are unchanged; the invariant is kept |
| `CaptureState.ToggleFlashStep` | App.js:55-61 | the flash mode changes; image, camera, button and permission are unchanged; the invariant is kept |
| `CaptureState.RetakePictureStep` | App.js:63-66 | the image is cleared and the capture button shown; permission, camera and flash keep their values; the invariant holds afterwards |
| `CaptureState.SwitchCameraTwiceRestores` | App.js:47-53 | switching the camera twice restores the original state |
| `CaptureState.ToggleFlashTwiceRestores` | App.js:55-61 | toggling the flash twice restores the original state |
| `CaptureState.RetakeUndoesCapture` | App.js:22-66 | from the live state, a successful capture followed by a retake gives back the starting state |
| `CaptureState.SuccessfulSaveActsAsRetake` | App.js:34-66 | on the state, a successful save of a held image has the same effect as a retake |
| `CameraApp.CameraScreen.constructor` | App.js:8-13 | the new screen is in the initial state and satisfies the invariant |
| `CameraApp.CameraScreen.ResolvePermission` | App.js:15-20 | the fields change exactly as `ResolvePermissionStep` says |
| `CameraApp.CameraScreen.TakePicture` | App.js:22-32 | the fields change exactly as `TakePictureStep` says; the invariant is kept |
| `CameraApp.CameraScreen.SaveImage` | App.js:34-45 | the fields change exactly as `SaveImageStep` says; the returned alert is `SaveAlert`'s |
| `CameraApp.CameraScreen.SwitchCamera` | App.js:47-53 | the fields change exactly as `SwitchCameraStep` says |
| `CameraApp.CameraScreen.ToggleFlash` | App.js:55-61 | the fields change exactly as `ToggleFlashStep` says |
| `CameraApp.CameraScreen.RetakePicture` | App.js:63-66 | the fields change exactly as `RetakePictureStep` says |
| `ScreenView.View` | App.js:68-98 | the notice, carrying the text "No Access To Camera", exactly when permission is denied; the review screen exactly when not denied and a truthy image is held, showing that image; otherwise the live preview with the state's camera, flash, flash icon colour (gray exactly when flash is off) and capture-button flag |
| `ScreenView.Controls` | App.js:77-98 | the buttons each screen renders: none on the notice; camera and flash toggles, plus the take-picture button when its flag is set, on the preview; Re-take and Save on the review screen; no contract of its own, its meaning is pinned by `ControlsFollowState` |
| `ScreenView.ControlsFollowState` | App.js:74-98 | under the invariant, the capture control is offered exactly when not denied and no image is held; Save and Re-take exactly when not denied and a truthy image is held; the camera and flash toggles exactly when not denied and no truthy image is held |
| `ScreenView.DeniedOffersNoControls` | App.js:68-70 | a denied permission renders only the "No Access To Camera" notice, with no control |
| `ScreenView.EmptyUriHidesCaptureAndReview` | App.js:74-98 | a held empty URI renders the preview with only the two toggles |
| `EventRuns.RunKeepsButtonInvariant` | App.js:22-66 | any sequence of handler calls from a state with the invariant ends in a state with the invariant |
| `EventRuns.ReachableStatesKeepButtonInvariant` | App.js:8-66 | every state reachable from mounting satisfies the invariant |
| `EventRuns.CameraFollowsSwitchParity` | App.js:47-53 | after any sequence of events, the camera is the original one exactly when it was switched an even number of times |
| `EventRuns.FlashFollowsToggleParity` | App.js:55-61 | after any sequence of events, the flash mode is the original one exactly when it was toggled an even number of times |
| `EventRuns.TogglesKeepImage` | App.js:47-61 | sequences of camera and flash toggles never change the image, the button or the permission, and raise no alert |
| `EventRuns.AlertsMatchSuccessfulSaves` | App.js:34-45 | along any run, the number of alerts equals the number of steps that save a held image successfully, that number is at most the number of successful save outcomes, and every alert is "Picture saved!" |
| `EventRuns.CaptureThenSave` | App.js:22-45 | from the live state, a successful capture and a successful save return to the same state with exactly one confirmation |
| `EventRuns.CaptureThenRetake` | App.js:22-66 | from the live state, a successful capture and a retake return to the same state with no confirmation |
| `EventRuns.FailedSaveKeepsImage` | App.js:34-45 | repeated failed saves change nothing and raise no alert |

## Left out

- The device calls `Camera.requestCameraPermissionsAsync`, `takePictureAsync` and `MediaLibrary.saveToLibraryAsync` (App.js:17, 25, 37) are foreign calls. Only their outcome is modelled, as a parameter of the handler.
- `console.error` and `console.log` on the failure paths (App.js:29, 42) are I/O and are not modelled. The `alert` on a successful save (App.js:38) is modelled only as a returned message.
- React hooks, `useEffect` and async scheduling (App.js:15-20) are not modelled. Each handler, and the permission resolution, is one atomic step. Concurrent or re-entrant saves are out of scope.
- `cameraRef` (App.js:12) is a boolean parameter of `TakePicture`. The model does not tie it to the live preview being mounted.
- The JSX layout beyond the choice of screen and its controls, the `StyleSheet` (App.js:103-124) and the `Button` component (`./scr/components/Button`) are UI code. `scr/components/Button.js` is not part of this model.
