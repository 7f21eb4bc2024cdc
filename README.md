# Camera flash sample: capture sequencer model

A Dafny model of the capture sequencer inside the camera-flash sample activity
`MainActivity`. The activity lets the user choose one of three flash modes:
off, on (auto-exposure with a precapture trigger), or torch. It then takes a
still photograph through the platform camera API. The model covers four parts:

- **Orientation arithmetic** (module `Orientation`): the display-rotation table,
  the screen rotation in degrees, and the JPEG orientation attached to every
  still capture. Java's truncating `%` is modelled explicitly (`JavaRem`).
- **Image file name** (module `ImageName`): `"IMAGE_" + timestamp + "_" + width
  + "x" + height + ".jpg"`, with numbers written as Java's `String.valueOf`
  writes them. A parser proves that the name determines all three numbers.
- **Flash-mode request mapping** (module `CaptureRequests`): the request builder
  is a template, a list of targets, and a finite map from request key to value.
  The module gives the keys that `setCaptureFlashMode`, `setPreviewFlashMode`
  and the precapture callback write for each mode.
- **Take-picture guard and lifecycle** (module `Activity`): the class
  `MainActivity` has the fields `mFlashMode`, `mTakingPicture`, `mSuspending`,
  the button's enabled state, whether a device is open, and the shared
  `mCaptureRequestBuilder`. It also has a log of every camera-framework call it
  issues. Each framework callback is a method of its own (`onOpened`, each
  session's `onConfigured`, the picture-complete message). The framework decides
  when callbacks run, so callbacks may run in any order among the callbacks
  still owed.
- **Runs across callbacks** (module `CaptureSequence`): these compose the class's
  methods. One run takes a picture in a given mode from start to finish. Another
  shows what happens when a flash entry is picked while a capture is in flight.

The class also keeps, as ghost state, the callbacks that the framework or the
handler still owes it: the device's `onOpened`, each created session's
`onConfigured`, and the picture-complete message. A still request owes that
message only when it targets the JPEG reader. Each callback method may run only
while its callback is owed, and it consumes it. The ghost state also records
where in the log the last accepted click happened.

The class invariant `Valid()` is established by the constructor and preserved by every entry point: the lifecycle and menu methods, the click, and every callback. The helpers these call (`SetPreviewFlashMode`, `SetCaptureFlashMode`, `TakeStillPicture`, `CreateCameraStillCapture`, `PrecaptureTrigger`, `CaptureStill`) are specified by their effect alone. It states three
things:

- The button is disabled exactly while a capture is in flight.
- An open camera always has one of the three flash modes.
- While a capture is in flight, the still requests submitted since its click,
  plus the precapture and still sessions still owed, come to at most one. So one
  click yields at most one still request, whatever order the callbacks run in.
  A picture-complete message is owed only for a still request already
  submitted. With no capture in flight, none of these is owed.

Two consequences of the code as written are proved. First, on the flash-on
path the always-flash auto-exposure mode is written only into the precapture
request. The still request that follows is built from a fresh still-capture
builder and carries only the JPEG orientation (`StillCaptureSettings`).
Second, the builder is one shared field. Suppose a flash entry is picked after
the still session has been created and before its `onConfigured`. In FLASH_ON
that means after the precapture callback. Then the still capture submits a
preview-template request that targets only the preview surface, with the
picked mode's capture settings (`MenuDuringCapture`). The request asks for no
JPEG, and nothing in the activity clears `mTakingPicture` for it. At that point
the pick's own preview session has superseded the still session on the device.
The model records the `capture()` call the activity makes on the old session.
What the framework does with that call is outside the model: it may reject it,
and `capture()` catches only `CameraAccessException`. This holds for every starting mode and every picked
flash entry. A pick made in FLASH_ON before the precapture callback does not
have this effect: that callback builds a fresh still builder.

`mFlashMode` is an `int` whose default 0 matches none of the three constants.
The model keeps that default as `FlashMode.Unset`. The code switches it to
`FlashOff` in `onOpened`, and the three-valued description of the mode holds
only from then on.

## Model

| member | source | states |
|---|---|---|
| Orientation.ScreenRotationDegrees | app/src/main/java/vuzix/com/sample/camera_flash/MainActivity.java:277-282 | display rotation index i in 0..3 maps to 90·i degrees through the RotationConversion table |
| Orientation.JavaRem | app/src/main/java/vuzix/com/sample/camera_flash/MainActivity.java:303 | Java's `%` lies strictly between -b and b, agrees with the Euclidean remainder for non-negative dividends, and is odd in the dividend |
| Orientation.JpegOrientation | app/src/main/java/vuzix/com/sample/camera_flash/MainActivity.java:288-306 | a failed characteristics lookup gives 0; any result lies strictly between -360 and 360; a sensor angle in [0,360) gives a result that is not negative, so within 0..359 as the doc comment promises |
| Orientation.JpegOrientationRear | app/src/main/java/vuzix/com/sample/camera_flash/MainActivity.java:299-305 | rear lens: the result is the angle in [0,360) congruent to sensor minus screen degrees modulo 360 |
| Orientation.JpegOrientationFront | app/src/main/java/vuzix/com/sample/camera_flash/MainActivity.java:299-305 | front lens (screen rotation negated): the result is the angle in [0,360) congruent to sensor plus screen degrees |
| Orientation.JpegOrientationExamples | app/src/main/java/vuzix/com/sample/camera_flash/MainActivity.java:299-303 | sensor 90 rear at ROTATION_0 gives 90; sensor 90 front at ROTATION_90 gives 180 |
| ImageName.Digits | app/src/main/java/vuzix/com/sample/camera_flash/MainActivity.java:268-269 | the decimal digits of a natural number are non-empty, all digits, and start with '0' only for zero |
| ImageName.DecimalString | app/src/main/java/vuzix/com/sample/camera_flash/MainActivity.java:268-269 | String.valueOf of an int or long starts with '-' exactly for negative values and is otherwise all digits |
| ImageName.DecimalRoundTrip | app/src/main/java/vuzix/com/sample/camera_flash/MainActivity.java:268-269 | reading back a number written by String.valueOf gives the number |
| ImageName.ImageFileNameRoundTrip | app/src/main/java/vuzix/com/sample/camera_flash/MainActivity.java:268-269 | the image file name parses back to the timestamp, width and height it was built from |
| ImageName.ImageFileNameInjective | app/src/main/java/vuzix/com/sample/camera_flash/MainActivity.java:268-269 | two captures share a file name only if timestamp, width and height all agree |
| ImageName.ImageFileNameExample | app/src/main/java/vuzix/com/sample/camera_flash/MainActivity.java:438-457 | the 1920x1080 still at epoch millisecond 1700000000000 is saved as IMAGE_1700000000000_1920x1080.jpg |
| CaptureRequests.CaptureFlashTable | app/src/main/java/vuzix/com/sample/camera_flash/MainActivity.java:575-586 | capture request: off sets FLASH_MODE=OFF and AE_MODE=ON; torch sets FLASH_MODE=TORCH only; on and unset write nothing; template, targets and other keys unchanged |
| CaptureRequests.PreviewFlashTable | app/src/main/java/vuzix/com/sample/camera_flash/MainActivity.java:591-604 | preview request: off sets FLASH_MODE=OFF; torch sets FLASH_MODE=TORCH; on sets AE_PRECAPTURE_TRIGGER=IDLE; unset writes nothing |
| CaptureRequests.PrecaptureWritesInOrder | app/src/main/java/vuzix/com/sample/camera_flash/MainActivity.java:534-536 | the precapture callback's three single-key writes leave the builder with exactly the always-flash, trigger-start and auto-control settings over its old ones |
| Activity.TakeStillPictureOwesOne | app/src/main/java/vuzix/com/sample/camera_flash/MainActivity.java:234-251 | takeStillPicture leaves exactly one precapture or still session owed when the camera is open and the mode is set, none otherwise, and never a picture-complete message |
| Activity.MainActivity.constructor | app/src/main/java/vuzix/com/sample/camera_flash/MainActivity.java:93-95 | fields start at Java defaults: mode unset, no capture in flight, button enabled, not suspending, no device, empty log, nothing owed |
| Activity.MainActivity.OpenCamera | app/src/main/java/vuzix/com/sample/camera_flash/MainActivity.java:356-368 | asks the camera manager to open the device: one logged call, and the device owes its onOpened |
| Activity.MainActivity.OnSurfaceTextureAvailable | app/src/main/java/vuzix/com/sample/camera_flash/MainActivity.java:138-140 | the surface becoming available opens the camera |
| Activity.MainActivity.OnOpened | app/src/main/java/vuzix/com/sample/camera_flash/MainActivity.java:370-375 | runs only while owed and consumes it; the device is open, the flash mode is reset to FLASH_OFF, and a preview builder and session are created, whose onConfigured is then owed |
| Activity.MainActivity.CreateCameraPreview | app/src/main/java/vuzix/com/sample/camera_flash/MainActivity.java:322-347 | without a device nothing changes; otherwise a fresh preview builder on the preview surface and one preview session, whose onConfigured is then owed |
| Activity.MainActivity.OnPreviewSessionConfigured | app/src/main/java/vuzix/com/sample/camera_flash/MainActivity.java:336-342 | runs only while owed and consumes it; ignored once the device is gone; otherwise the preview flash settings are written and the repeating request submitted |
| Activity.MainActivity.UpdatePreview | app/src/main/java/vuzix/com/sample/camera_flash/MainActivity.java:400-409 | preview flash settings, then one repeating request carrying the resulting builder |
| Activity.MainActivity.SetPreviewFlashMode | app/src/main/java/vuzix/com/sample/camera_flash/MainActivity.java:591-604 | the shared builder gains exactly the mode's preview writes |
| Activity.MainActivity.SetCaptureFlashMode | app/src/main/java/vuzix/com/sample/camera_flash/MainActivity.java:575-586 | the shared builder gains exactly the mode's capture writes |
| Activity.MainActivity.OnClickTakePicture | app/src/main/java/vuzix/com/sample/camera_flash/MainActivity.java:176-182 | with no capture in flight: sets the flag, runs takeStillPicture once, disables the button, marks the click, and with an open camera leaves exactly one precapture or still session owed; with one in flight: changes nothing and issues nothing |
| Activity.MainActivity.TakeStillPicture | app/src/main/java/vuzix/com/sample/camera_flash/MainActivity.java:234-251 | nothing without a device; FLASH_ON goes to the precapture trigger; FLASH_OFF and FLASH_TORCH go to the still capture; the session created is owed its onConfigured |
| Activity.MainActivity.CreateCameraStillCapture | app/src/main/java/vuzix/com/sample/camera_flash/MainActivity.java:436-511 | a still-capture builder targeting the preview surface and a 1920x1080 JPEG reader, the reader's listener for the timestamped file, and a session on both outputs |
| Activity.MainActivity.PrecaptureTrigger | app/src/main/java/vuzix/com/sample/camera_flash/MainActivity.java:521-530 | a zero-shutter-lag builder on the preview surface and a session on it |
| Activity.MainActivity.OnPrecaptureSessionConfigured | app/src/main/java/vuzix/com/sample/camera_flash/MainActivity.java:532-555 | runs only while owed and consumes it; AE_MODE=ON_ALWAYS_FLASH, trigger START and CONTROL_MODE=AUTO are written, one precapture request is submitted, then the still capture starts without waiting for its result, leaving the still session owed; at most one still request per click is kept |
| Activity.MainActivity.OnStillSessionConfigured | app/src/main/java/vuzix/com/sample/camera_flash/MainActivity.java:503-506 | runs only while owed and consumes it; capture() runs, adding exactly one still request since the click, and the invariant keeps that count at one per click |
| Activity.MainActivity.CaptureStill | app/src/main/java/vuzix/com/sample/camera_flash/MainActivity.java:420-430 | capture flash settings and the computed JPEG orientation are written, then exactly one capture is submitted; the picture-complete message is owed only if the request targets the JPEG reader |
| Activity.MainActivity.OnPictureComplete | app/src/main/java/vuzix/com/sample/camera_flash/MainActivity.java:187-196 | runs only while owed and consumes it; the capture it ends had exactly one still request since its click; the preview is rebuilt, the button re-enabled and the in-flight flag cleared; the flash mode is not touched |
| Activity.MainActivity.OnOptionsItemSelected | app/src/main/java/vuzix/com/sample/camera_flash/MainActivity.java:676-692 | a flash entry sets the mode, rebuilds the preview (its onConfigured then owed) and is consumed, leaving the in-flight flag alone; any other entry changes nothing and is not consumed |
| Activity.MainActivity.CloseCamera | app/src/main/java/vuzix/com/sample/camera_flash/MainActivity.java:609-619 | closes the device if one is open; afterwards none is |
| Activity.MainActivity.OnResume | app/src/main/java/vuzix/com/sample/camera_flash/MainActivity.java:625-633 | reopens the camera only if it was suspending; afterwards it is not suspending |
| Activity.MainActivity.OnPause | app/src/main/java/vuzix/com/sample/camera_flash/MainActivity.java:639-646 | closes the camera and marks the activity suspending |
| CaptureSequence.TakeStillPictureDispatch | app/src/main/java/vuzix/com/sample/camera_flash/MainActivity.java:234-251 | takeStillPicture submits no request itself and creates exactly the precapture session for FLASH_ON, exactly the still session for FLASH_OFF/FLASH_TORCH, and none without a device |
| CaptureSequence.StillCaptureSettings | app/src/main/java/vuzix/com/sample/camera_flash/MainActivity.java:420-454 | the submitted still request carries FLASH_MODE=OFF and AE_MODE=ON for off, FLASH_MODE=TORCH for torch, and for on only the JPEG orientation |
| CaptureSequence.TakePictureRun | app/src/main/java/vuzix/com/sample/camera_flash/MainActivity.java:176-196 | one picture in any mode, with a second click during the capture: exactly one still request (the mode's settings plus the orientation), a precapture request only for FLASH_ON, and the button enabled at the end |
| CaptureSequence.SelectFlashMode | app/src/main/java/vuzix/com/sample/camera_flash/MainActivity.java:676-692 | a flash entry picked on an open camera, then the rebuilt preview session's onConfigured: the repeating request is a fresh preview request with the picked mode's preview flash settings, the mode is the picked one, and the in-flight flag is unchanged |
| CaptureSequence.MenuDuringCapture | app/src/main/java/vuzix/com/sample/camera_flash/MainActivity.java:676-692 | for any starting mode and any picked flash entry, a pick after the still session is created and before its onConfigured makes capture() pass a preview-template request with the picked mode's capture settings and no JPEG target to the superseded still session, and the activity's in-flight flag stays set; the framework's handling of that call is not modelled |

## Left out

- Camera-framework calls (`openCamera`, `createCaptureSession`, `setRepeatingRequest`, `capture`, `close`, the `ImageReader` listener) are entries in the action log. The framework's behaviour behind them is not modelled: template defaults, session negotiation, the `onConfigureFailed` callbacks (which only show a toast or do nothing), and images reaching the reader.
- `onImageAvailable`, `save` and the picture-complete message: image acquisition, the byte copy and the file write are I/O. The model starts again at the message handler `onPictureComplete`.
- The 2000 ms `Thread.sleep` in `onPictureComplete` is a timing side effect. Only the state change after it is modelled.
- Background `HandlerThread`s and `Handler`s (start, stop, message posting) and the `synchronized` methods concern thread plumbing and concurrency. Callback interleavings are modelled by calling the callback methods in any order among the callbacks still owed.
- `getOutputImagePath`: directory creation and `Environment.getExternalStorageDirectory` are file-system I/O. `System.currentTimeMillis` is the `now` parameter. Only the file name is modelled.
- Display rotation and camera characteristics are queries to the host. They are parameters: the rotation index, and an `Option` that is `None` when `getCameraCharacteristics` throws `CameraAccessException`, the one exception `rotateImageForOrientation` catches.
- Permissions (`checkSelfPermission`, `requestPermissions`, `onRequestPermissionsResult`), toasts, menu inflation, the `TextureView` rotation in `updatePreview`, `onRotationChanged` and `RotationListener` belong to the UI and the host runtime. The source of `RotationListener` is not part of this model.
- The AE-state test in the precapture `onCaptureCompleted` only logs. It does not gate the still capture.
- The device's `onDisconnected` and `onError` callbacks, and the `CameraAccessException`/`SecurityException` handlers, are error plumbing outside the capture sequence.
- The surface texture is taken to exist once the camera is open. `createCameraPreview`'s null-texture return is therefore not modelled. The still-capture and precapture paths dereference the texture without a check.
- `mCaptureRequestBuilder` is `null` until the first preview is built. The model starts with an empty preview builder instead. Every modelled path that reads the builder runs after one is assigned.
- `closeCamera`'s `mImageReader` branch is dead code: the field is never assigned. It is omitted.
- Java `int` and `long` widths: the model's integers are unbounded. `DecimalString` writes every value the way `String.valueOf` does, so no wrap-around is involved.
- Orientation.JpegOrientation: the 0..359 range is proved only for sensor angles in [0,360). The camera reports 0, 90, 180 or 270. For a negative sensor angle, Java's `%` could return a negative value.
- Session callbacks that run after `onPause`: `closeCamera` (MainActivity.java:609-619) sets `mCameraDevice` and `mCameraManager` to null before `stopBackgroundThread` lets the queued callbacks finish (lines 213-216, 641-642). A still session's `onConfigured` then throws a `NullPointerException` in `rotateImageForOrientation` (line 292), which catches only `CameraAccessException`. A precapture session's `onConfigured` throws one at `createCaptureRequest` (line 452). The model does not model this crash: those callbacks still log their requests on a closed camera.
- Callbacks owed for a closed or superseded session stay owed in the ghost state. This over-approximates what the framework delivers, so the at-most-one-still-per-click invariant covers more traces than can happen.
