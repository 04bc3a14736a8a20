# OrientationManager, modelled in Dafny

A model of react-native-vision-camera's Android `OrientationManager`. Two rotation
sources feed it. The display listener reports the screen's rotation, and the orientation
sensor reports the device's tilt in degrees. The sensor reading is quantised to one of the four
`Surface.ROTATION_*` values. From these two rotations and a target mode (`OutputOrientation`:
DEVICE, PREVIEW or one of four locked orientations) the manager computes a
*preview orientation* and an *output orientation*. After every tilt event, and every display event for a
display it can still look up, it calls its callback once for each computed value that differs
from the last value it reported. A display event for a display it can no longer look up is
dropped without re-evaluating.

Files:

- `types.dfy` (module `OrientationTypes`): the rotation integers, `Orientation`,
  `OutputOrientation` (its four locked constants are named `LockedPortrait`, `LockedLandscapeLeft`,
  `LockedPortraitUpsideDown` and `LockedLandscapeRight` so they do not clash with
  `Orientation`'s constructors), and the conversion `FromSurfaceRotation`.
- `logic.dfy` (module `OrientationLogic`): the quantiser, both getters, and
  `maybeNotifyOrientation`, the two listener bodies and the setter as pure functions over
  a `ManagerState` value. Each returns the new state and the callbacks fired, in order.
- `manager.dfy` (module `Manager`): class `OrientationManager`, whose fields the methods
  update in place. Each method is proved equal to its function in `OrientationLogic`.
  Listener registration is the `listening` field. The ghost field `notifications`
  records every callback invocation in order.
- `trace.dfy` (module `OrientationTrace`): events, delivery (only registered listeners receive
  events), runs over event sequences, and the properties that span several calls.

Two places where the code differs from what a reader might expect, and one detail of its start-up:

- Quantiser bands: Kotlin's `a..b` ranges are inclusive and `when` takes the first match. So 135 gives
  ROTATION_270, 225 gives ROTATION_180 and 315 gives ROTATION_90. A reader might expect the
  half-open bands [45,135), [135,225), [225,315) instead. Every integer outside 45..315 gives
  ROTATION_0, including the sensor's -1. There is no normalisation step.
- `setTargetOutputOrientation` does not re-evaluate and fires no callback, even when the output
  orientation changes at once. A caller that expects a callback at switch time gets none.
  After a switch into a locked mode both listeners are off, so the callback is not told about
  the locked orientation at all. A later mode switch fires nothing either. Only the first display
  or tilt event after a switch to DEVICE or PREVIEW brings the reported value up to date.
  `LockedModeLeavesStaleReport` states this.
- A new manager's target is DEVICE, but no listener is registered until
  `setTargetOutputOrientation` is first called.

## Model

| member | source | states |
|---|---|---|
| `OrientationLogic.DegreesToSurfaceRotation` | package/android/src/main/java/com/mrousavy/camera/core/OrientationManager.kt:98-104 | total over every integer; the result is ROTATION_270 iff 45..135, ROTATION_180 iff 136..225, ROTATION_90 iff 226..315, and ROTATION_0 iff below 45 or above 315 |
| `OrientationLogic.DegreesToSurfaceRotationBoundaries` | package/android/src/main/java/com/mrousavy/camera/core/OrientationManager.kt:98-104 | the band edges: 45 and 135 to ROTATION_270, 225 to ROTATION_180, 315 to ROTATION_90; 44, 316, 360 and -1 to ROTATION_0 |
| `OrientationTypes.FromSurfaceRotation` | package/android/src/main/java/com/mrousavy/camera/core/OrientationManager.kt:46 | `Orientation.fromSurfaceRotation` inverts `ToSurfaceRotation`: the orientation returned stands for the given rotation |
| `OrientationTypes.SurfaceRotationBijection` | package/android/src/main/java/com/mrousavy/camera/core/OrientationManager.kt:52-53 | rotation to orientation is a bijection: both round trips hold, so different rotations never give the same orientation |
| `OrientationTypes.LockedMode` | package/android/src/main/java/com/mrousavy/camera/core/OrientationManager.kt:54-57 | each orientation's locked target is a non-streaming mode |
| `OrientationTypes.LockedModeOnto` | package/android/src/main/java/com/mrousavy/camera/core/OrientationManager.kt:54-57 | every locked mode pins exactly one orientation |
| `OrientationLogic.PreviewOrientationOf` | package/android/src/main/java/com/mrousavy/camera/core/OrientationManager.kt:45-46 | the preview orientation is the one whose rotation is the screen rotation; it depends on nothing else (not the target, not the device rotation) |
| `OrientationLogic.OutputOrientationOf` | package/android/src/main/java/com/mrousavy/camera/core/OrientationManager.kt:49-59 | DEVICE: the orientation of the device rotation; PREVIEW: equal to the preview orientation; locked modes: the constant the mode pins, whatever the two rotations |
| `OrientationLogic.MaybeNotify` | package/android/src/main/java/com/mrousavy/camera/core/OrientationManager.kt:61-72 | afterwards both last reported values equal the current getters and nothing else changes; the output callback fires iff the output differs from the last reported one (none yet counts as different), the preview callback likewise and independently; nothing else fires, each at most once, output before preview |
| `OrientationLogic.DisplayChanged` | package/android/src/main/java/com/mrousavy/camera/core/OrientationManager.kt:26-31 | an unknown display (null lookup) changes no field and fires nothing; otherwise the screen rotation is taken over, target, device rotation and listening are kept, and the last reported values are brought up to date; the preview callback fires iff the new preview differs from the last reported one, the output callback iff the last reported output changed (a PREVIEW-mode rotation, or a stale output); nothing else fires, each at most once, output before preview |
| `OrientationLogic.OrientationChanged` | package/android/src/main/java/com/mrousavy/camera/core/OrientationManager.kt:37-41 | only the device rotation is set, to the quantised tilt; the last reported values are brought up to date; the preview callback fires iff the preview was not yet reported as it is; the output callback fires iff the last reported output changed; nothing else fires, each at most once, output before preview |
| `OrientationLogic.SetTarget` | package/android/src/main/java/com/mrousavy/camera/core/OrientationManager.kt:74-96 | the target is set; listening is on iff the target is DEVICE or PREVIEW; last reported values and both rotations are untouched |
| `OrientationTrace.Deliver` | package/android/src/main/java/com/mrousavy/camera/core/OrientationManager.kt:78-87 | with both listeners unregistered a display or tilt event changes nothing and fires nothing; a target change never fires |
| `Manager.OrientationManager.constructor` | package/android/src/main/java/com/mrousavy/camera/core/OrientationManager.kt:16-35 | a new manager: target DEVICE, nothing reported, both rotations ROTATION_0, no listener registered, no callback fired |
| `Manager.OrientationManager.MaybeNotifyOrientation` | package/android/src/main/java/com/mrousavy/camera/core/OrientationManager.kt:61-72 | the fields become `MaybeNotify`'s new state and the callbacks it fires are appended to the record; only the two last reported fields and the record may change |
| `Manager.OrientationManager.OnDisplayChanged` | package/android/src/main/java/com/mrousavy/camera/core/OrientationManager.kt:26-31 | the fields and the callback record follow `DisplayChanged`; only the screen rotation, the last reported fields and the record may change |
| `Manager.OrientationManager.OnOrientationChanged` | package/android/src/main/java/com/mrousavy/camera/core/OrientationManager.kt:37-41 | the fields and the callback record follow `OrientationChanged`; only the device rotation, the last reported fields and the record may change |
| `Manager.OrientationManager.SetTargetOutputOrientation` | package/android/src/main/java/com/mrousavy/camera/core/OrientationManager.kt:74-96 | only the target and the listening flag change: the target becomes the argument and listening is on iff it is DEVICE or PREVIEW; no callback fires |
| `OrientationTrace.MaybeNotifyIdempotent` | package/android/src/main/java/com/mrousavy/camera/core/OrientationManager.kt:61-72 | a second re-evaluation with no change in between fires nothing and changes nothing |
| `OrientationTrace.RepeatedDisplayEventSilent` | package/android/src/main/java/com/mrousavy/camera/core/OrientationManager.kt:26-31 | the same display rotation delivered twice fires nothing the second time |
| `OrientationTrace.SetTargetTouchesOnlyModeAndListening` | package/android/src/main/java/com/mrousavy/camera/core/OrientationManager.kt:74-96 | a target change alters exactly the target and the listening flag and fires nothing |
| `OrientationTrace.TiltSilentOutsideDeviceMode` | package/android/src/main/java/com/mrousavy/camera/core/OrientationManager.kt:37-66 | in PREVIEW or a locked mode, with the last reported output current, a tilt never fires the output callback |
| `OrientationTrace.TiltAfterModeSwitchReports` | package/android/src/main/java/com/mrousavy/camera/core/OrientationManager.kt:74-96 | the currency condition above is needed: after DEVICE to PREVIEW the next tilt fires the output callback with the preview's orientation |
| `OrientationTrace.TiltScenario` | package/android/src/main/java/com/mrousavy/camera/core/OrientationManager.kt:37-41 | DEVICE mode, device at ROTATION_0, both values already reported: a tilt to 100 degrees fires only the output callback, with LANDSCAPE_RIGHT |
| `OrientationTrace.ModeSwitchScenario` | package/android/src/main/java/com/mrousavy/camera/core/OrientationManager.kt:74-96 | DEVICE to PREVIEW with display at ROTATION_90 and device at ROTATION_270: the output getter turns LANDSCAPE_LEFT at once, no callback fires, the last reported output stays LANDSCAPE_RIGHT |
| `OrientationTrace.ModeSwitchesKeepPreview` | package/android/src/main/java/com/mrousavy/camera/core/OrientationManager.kt:74-96 | any number of target changes keep the preview orientation, both rotations and both last reported values, and fire nothing |
| `OrientationTrace.LockedModeIsInert` | package/android/src/main/java/com/mrousavy/camera/core/OrientationManager.kt:78-94 | after a locked target is set, no sequence of display and tilt events changes any field or fires any callback |
| `OrientationTrace.LockedModeLeavesStaleReport` | package/android/src/main/java/com/mrousavy/camera/core/OrientationManager.kt:74-96 | after DEVICE to a PORTRAIT lock, the output getter is PORTRAIT, but the callback last saw LANDSCAPE_RIGHT and hears nothing more |
| `OrientationTrace.DeliverReportsChanges` | package/android/src/main/java/com/mrousavy/camera/core/OrientationManager.kt:61-72 | one delivered event reports only values that differ from the one last reported, and the last reported fields equal the last value the callback received |
| `OrientationTrace.RunReportsOnlyChanges` | package/android/src/main/java/com/mrousavy/camera/core/OrientationManager.kt:61-72 | over any sequence of events, each reported output differs from the output reported before it, and likewise for previews; the last reported fields always equal the last value each callback received |
| `OrientationTrace.NewManagerReportsOnlyChanges` | package/android/src/main/java/com/mrousavy/camera/core/OrientationManager.kt:16-18 | from a new manager, no callback ever receives the same value twice in a row |

## Left out

- Android service plumbing is not modelled: `getSystemService`, `DisplayManager`, registering and unregistering the display listener, and enabling and disabling the orientation listener. Listener registration is the `listening` flag. The display lookup `getDisplay(displayId)` becomes an `Option` parameter, None standing for a display id the manager no longer knows.
- `onDisplayAdded` and `onDisplayRemoved` do nothing in the source and have no counterpart.
- `display.rotation` is taken to be one of the four `Surface.ROTATION_*` values, as Android documents it.
- `Log.i` calls are diagnostics only and are not modelled.
- The source of `Orientation.fromSurfaceRotation` and of the `Orientation` and `OutputOrientation` types is not available here, so the mapping is fixed by assumption: ROTATION_0 to PORTRAIT, ROTATION_90 to LANDSCAPE_LEFT, ROTATION_180 to PORTRAIT_UPSIDE_DOWN, ROTATION_270 to LANDSCAPE_RIGHT. The two enums are modelled by their constants.
- Threading: listener callbacks may arrive on platform threads. Every operation is treated as atomic and sequential.
- The `Callback` implementation is not modelled: its invocations are only recorded, in order, in the ghost `notifications` trace.
