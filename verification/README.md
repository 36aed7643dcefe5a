# Camera page lifecycle model

A Dafny model of the camera-lifecycle state machine in the main page of
CameraAppForDeviceDemo. The page previews one named webcam. It turns the camera
on and off as navigation, suspend and resume, and window-visibility events
arrive. It also lets the user rotate the preview in quarter turns.

The page is an immutable record of flags (`CameraPage.Page`):

- the inputs `isActivePage` and `isSuspending`;
- `isUiActive`, the wanted state recorded by the last reconcile (not a running stream);
- `hasCapture`, standing for a non-null capture handle;
- `isInitialized` and `isPreviewing`;
- `rotateDegree`;
- `retryArmed`, meaning the exclusive-control handler is subscribed on the current handle.

Each handler is a pure function from a page to a `Step`. A `Step` holds the new
page and the sequence of platform calls made on the way (`Effect`). Each
awaited platform call is one atomic step. The platform's answers are oracle
parameters (`Platform`): the enumerated devices, whether access is granted, and
whether the preview starts. Window visibility is a parameter of each reconcile.

Files:

- `wrappers.dfy`: `Option`.
- `device_lookup.dfy`: the first-match device search by name, ignoring case.
- `camera_page.dfy`: the page record and its transitions: start and stop the
  preview, initialize, clean up, reconcile, rotate, and the exclusive-control
  handler.
- `lifecycle.dfy`: the events, `Apply` and `Run`, plus lemmas that relate
  several transitions.

Every reachable page satisfies `CameraPage.Valid`. It requires that previewing
implies initialized and initialized implies a handle. The degree is 0, 90, 180
or 270. No handle is open while `isUiActive` is false.

The invariant does NOT say that `isUiActive` implies a handle. The code records
the wanted state before it tries to open the camera and never reverts it. If
the device is missing, the page therefore stays "UI active" with no handle and
no preview. Later reconciles with the same inputs do not retry, even after the
device appears (`Lifecycle.MissingDeviceLeavesUiActive`). The same holds after
a denied access: the handle is kept, uninitialized, until the next cleanup.

## Model

| member | source | states |
|---|---|---|
| DeviceLookup.EqualsIgnoreCaseIsEquivalence | CameraAppForDeviceDemo/MainPage.xaml.cs:233 | The ignore-case name comparison is reflexive, symmetric and transitive. |
| DeviceLookup.CaseOnlyDifferencesIgnored | CameraAppForDeviceDemo/MainPage.xaml.cs:233 | Two names of equal length whose characters differ at most in ASCII letter case compare equal ignoring case. |
| DeviceLookup.FindIndex | CameraAppForDeviceDemo/MainPage.xaml.cs:227-239 | Returns the index of the first device, in enumeration order, whose name equals the target ignoring case. Returns None exactly when no device matches. |
| DeviceLookup.FindDevice | CameraAppForDeviceDemo/MainPage.xaml.cs:220-240 | Returns the device at the first matching position, and that device is unique. Returns None (null in the source) exactly when nothing matches. |
| DeviceLookup.FindCameraDevice | CameraAppForDeviceDemo/MainPage.xaml.cs:227-239 | The foreach loop that stops at the first match returns the first-match device. Otherwise it returns None, and in both cases agrees with FindDevice. |
| CameraPage.StartPreviewOn | CameraAppForDeviceDemo/MainPage.xaml.cs:337-363 | From a stopped preview it runs exactly when the platform start succeeds. Then the pushed rotations are exactly the current degree; a failed start pushes none and arms the exclusive-control retry. The input flags and the degree are kept, and one successful start is counted. |
| CameraPage.StopPreviewOn | CameraAppForDeviceDemo/MainPage.xaml.cs:412-432 | Leaves the preview stopped with nothing else changed. It issues one stop call exactly when a preview was running, and pushes no rotation. |
| CameraPage.AfterInitialize | CameraAppForDeviceDemo/MainPage.xaml.cs:209-216 | An initialized handle starts the preview. An uninitialized one leaves the page unchanged and shows the access-denied dialog exactly once. |
| CameraPage.OpenCapture | CameraAppForDeviceDemo/MainPage.xaml.cs:183-216 | After a device is found there is always a handle, initialized on that device's id. Denied: not initialized, not previewing, one dialog, no rotation. Granted: initialized, previewing exactly when the start succeeds, and the current degree applied then. |
| CameraPage.Initialize | CameraAppForDeviceDemo/MainPage.xaml.cs:167-218 | Does nothing when a handle exists. Otherwise it makes one open attempt. A missing device leaves the page unchanged with one not-found dialog. A present device opens the first match. Consistency and the start/stop balance are preserved. |
| CameraPage.Cleanup | CameraAppForDeviceDemo/MainPage.xaml.cs:391-410 | Always ends with no handle and not initialized; from a consistent page also not previewing. It disposes of the handle exactly when there was one. It keeps the input flags and the degree, and stops a running preview. |
| CameraPage.Reconcile | CameraAppForDeviceDemo/MainPage.xaml.cs:128-165 | Afterwards isUiActive equals active-page and window-visible and not-suspending. If that already held, the page and the effects are untouched. A camera that becomes wanted is opened with the flag already set: one open attempt. A missing device leaves no handle. A denied access leaves an uninitialized handle. A granted one is initialized and previews exactly when the start succeeds, with the current degree applied. A camera that stops being wanted is cleaned up, leaving no handle or preview. The other inputs and the degree are kept, and validity is preserved. |
| CameraPage.Rotate | CameraAppForDeviceDemo/MainPage.xaml.cs:434-443 | The degree advances by 90 and wraps from 270 to 0, stays in [0, 360), and keeps right angles. No other flag changes. The new degree is pushed to the preview exactly when it is running. |
| CameraPage.OnExclusiveControlChanged | CameraAppForDeviceDemo/MainPage.xaml.cs:376-389 | Does nothing unless the retry is armed, and never disturbs a running preview. Any status other than regained exclusive control leaves the page unchanged. Read-only sharing shows exactly its one dialog; any other status calls nothing. Regained exclusive control restarts a stopped preview, which then runs exactly when the start succeeds, with the current degree applied. |
| Lifecycle.Signal | CameraAppForDeviceDemo/MainPage.xaml.cs:71-119 | Navigating to or from sets or clears the active-page flag; suspending and resuming set or clear the suspending flag. Visibility changes leave the page as it is. Nothing else changes. |
| Lifecycle.Apply | CameraAppForDeviceDemo/MainPage.xaml.cs:71-126 | Navigation, suspend, resume and visibility events set their own flag and then reconcile. The rotate button rotates. The exclusive-control notification runs its handler. Every event preserves the invariant and the start/stop balance. After each navigation, suspend, resume or visibility event, isUiActive is the wanted value for the new inputs. A suspend always leaves no handle and no preview. |
| Lifecycle.Run | CameraAppForDeviceDemo/MainPage.xaml.cs:71-126 | Any sequence of events from a valid page ends in a valid page. Successful starts plus a preview running at the beginning equal stops plus a preview running at the end. |
| Lifecycle.StartsAndStopsAlternate | CameraAppForDeviceDemo/MainPage.xaml.cs:49-69 | From the constructed page, after any events, successful starts are never behind stops and at most one ahead. The preview runs exactly when they differ. |
| Lifecycle.ReconcileIdempotent | CameraAppForDeviceDemo/MainPage.xaml.cs:143-164 | A second reconcile with the same visibility changes nothing and calls nothing, whatever the platform would answer. |
| Lifecycle.MissingDeviceLeavesUiActive | CameraAppForDeviceDemo/MainPage.xaml.cs:145-181 | A missing device leaves isUiActive true with no handle, not initialized and not previewing, after one dialog. No later reconcile with the same inputs retries. |
| Lifecycle.CleanupIdempotent | CameraAppForDeviceDemo/MainPage.xaml.cs:391-421 | Cleaning up a cleaned-up page changes nothing and makes no platform call. |
| Lifecycle.FourRotationsIdentity | CameraAppForDeviceDemo/MainPage.xaml.cs:434-436 | Four presses of the rotate button return any degree in [0, 360) and the whole page to where they started. |
| Lifecycle.RotationReappliedOnRestart | CameraAppForDeviceDemo/MainPage.xaml.cs:358-362 | Hiding then showing the window stops and restarts the preview. The restart pushes exactly the degree the page had before, without anyone supplying it again. |
| Lifecycle.ActivateHiddenThenShow | CameraAppForDeviceDemo/MainPage.xaml.cs:139-164 | Activating the page while the window is hidden only sets the flag and calls nothing. Showing the window afterwards makes exactly one open attempt and marks the UI active. |

## Left out

- The re-entrancy guard around the setup task, the dispatcher hops, and the suspension deferral: each reconcile is one atomic step, so no two setups overlap by construction.
- Focus and zoom slider setup and their value-changed handlers: they copy floating-point capability ranges into UI controls. This includes `ZoomSlider.Value = FocusSlider.Minimum`, which reads the focus slider's minimum where the zoom slider's was evidently meant. It also includes the access-denied path calling these setups on an uninitialized handle, whose platform behaviour is not visible here.
- Dialog contents: only the titles are kept, as `ShowMessage` effects. Waiting for the dialog is part of the atomic step.
- The display request, the auto-rotation preference, the event subscribe/unsubscribe wiring, debug output, and the video-profile query in the lookup loop. `ReleasePreview` stands for detaching the surface and releasing the display request; `RequestActive` is not modelled.
- Exceptions other than the two the code catches: an access-denied initialization and a file-load failure of the preview start. Any other exception would fault the setup task, and that is not modelled. `SetPreviewRotation` is assumed to succeed.
- DeviceLookup.EqualsIgnoreCase: folds ASCII letters only, because full Unicode ordinal-ignore-case folding is a platform table.
- CameraPage.Rotate: does not model 32-bit overflow of the degree, because from the constructed page the degree stays below 360. C#'s truncating remainder is written out for negative degrees.
- CameraPage.OnExclusiveControlChanged: a second failed start subscribes the handler a second time, but the model tracks only whether a handler is subscribed. A notification on a disposed handle is not modelled either: disposing disarms the retry.
