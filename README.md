# Enhanced camera: session orchestration, capture state machine and size selection

This project models the camera-session layer of the enhanced-camera Android
sample in Dafny, and proves properties of that model. The layer has three
parts.

- **Size and camera selection** (`CameraHelper`). `chooseOptimalSize` picks
  the smallest-area preview size that meets both of the view's minimum
  dimensions. The area comparator widens to `long`. `verifyVideoSize` is the
  filter for recording sizes. `getPreferredCameraId` returns the first camera
  whose lens faces the requested way.
- **The preview session** (`PreviewCallback` and its two subclasses).
  - The preview request builder is created lazily, shared, and mutated in
    place. `startPreviewSession` discards it and makes a new one.
  - There is one nullable active capture session.
  - The capture-target list starts with the preview surface. Each subclass
    appends the surface of its own mode.
  - `VideoCaptureCallback` also replaces its `VideoSaver`, closing the old
    one first.
- **The still-capture state machine** (`SingleImageCaptureCallback`). It runs
  lock focus, then an optional auto-exposure precapture, then one still
  capture. When the still request completes, focus is unlocked and the
  preview is back.

## Module layout

| file | module | what it holds |
|---|---|---|
| `common.dfy` | `Common` | `Option` (a nullable reference or a boxed `Integer`) and `Outcome` (normal return, `CameraAccessException`, `NullPointerException`) |
| `camera_helper.dfy` | `CameraHelper` | sizes over Java `int`/`long` newtypes, the comparator, `ChooseOptimalSize` as the source's loops, the video filter, and the camera search |
| `camera2.dfy` | `Camera2` | the platform as the core sees it: metadata constants, surfaces as tokens, `Request` values, a mutable `RequestBuilder` class, and the `Effect`s that the core causes on the device, the session and the savers |
| `preview_callback.dfy` | `Preview` | class `PreviewCallback` |
| `capture_state.dfy` | `CaptureStateMachine` | the still-capture transition function and lemmas about runs of events |
| `single_image_capture.dfy` | `Image` | class `SingleImageCaptureCallback`, proved to follow `CaptureStateMachine` |
| `video_capture.dfy` | `Video` | class `VideoCaptureCallback` |

Modelling choices:

- **Java virtual dispatch.** The two subclasses override
  `createPreviewRequestBuilder` and `getCaptureTargets`, and the base class
  calls them. Here that dispatch is selected by a `const variant` in
  `PreviewCallback`, with values `BasicPreview`, `StillImage(saver)` and
  `VideoRecord`.
  - `SingleImageCaptureCallback` and `VideoCaptureCallback` hold the
    `PreviewCallback` object they extend as `preview`.
  - The video saver that the video override reads is a field of
    `PreviewCallback`.
- **Device calls.** Every call the core makes on the device, the session or a
  saver is appended to the field `log: seq<Effect>`. This lets contracts state
  "exactly one capture", "closed once" and "nothing else".
  - A `fault` parameter says whether the device throws
    `CameraAccessException` at the point where the source catches or
    propagates it.
  - A null active session makes `capture`/`setRepeatingRequest` throw a
    `NullPointerException`. It is reported as the outcome `NullPointer`, and
    nothing is logged.
- **Absent values.** `Option` models an absent boxed `Integer` in a capture
  result or in the camera characteristics, and a null saver or session.

## Model

| member | source | states |
|---|---|---|
| CameraHelper.Int32ProductBounds | app/src/main/java/com/example/android/enhancedcamera/common/CameraHelper.java:125-127 | the product of two Java ints lies in [-2^31·(2^31-1), 2^62], so the `(long)` cast makes the multiplication overflow-free |
| CameraHelper.LongArea | app/src/main/java/com/example/android/enhancedcamera/common/CameraHelper.java:126-127 | the widened `long` product is the exact mathematical area (no wrap-around) |
| CameraHelper.CompareSizesByArea | app/src/main/java/com/example/android/enhancedcamera/common/CameraHelper.java:121-128 | `Long.signum` of the `long` difference equals the sign of the exact area difference: the subtraction cannot overflow either |
| CameraHelper.CompareAntisymmetric | app/src/main/java/com/example/android/enhancedcamera/common/CameraHelper.java:124-128 | compare(a,b) = -compare(b,a), and compare is 0 exactly when the areas are equal |
| CameraHelper.CompareTransitive | app/src/main/java/com/example/android/enhancedcamera/common/CameraHelper.java:121-128 | the comparator's ≤ order is transitive, as `Collections.min` requires of a `Comparator` |
| CameraHelper.FilterBigEnoughMembers | app/src/main/java/com/example/android/enhancedcamera/common/CameraHelper.java:140-145 | the `bigEnough` list holds exactly the options with width ≥ width and height ≥ height |
| CameraHelper.FilterBigEnoughOrder | app/src/main/java/com/example/android/enhancedcamera/common/CameraHelper.java:140-145 | the `bigEnough` list keeps the input order: what comes before an element in the input and qualifies also comes before it in the list |
| CameraHelper.MinByArea | app/src/main/java/com/example/android/enhancedcamera/common/CameraHelper.java:149 | `Collections.min` with the area comparator returns an element of least area, and the first such element in list order |
| CameraHelper.ChooseOptimalSize | app/src/main/java/com/example/android/enhancedcamera/common/CameraHelper.java:136-154 | the result is always one of the choices. If some option is big enough, the result is big enough, its area is ≤ that of every big-enough option, and on ties it is the first one in array order. If none is, the result is `choices[0]` |
| CameraHelper.VerifyVideoSizeByWidth | app/src/main/java/com/example/android/enhancedcamera/common/CameraHelper.java:160-162 | `verifyVideoSize` depends on the width alone (any height gives the same answer). Width 1080 passes and 1081 does not |
| CameraHelper.GetPreferredCameraId | app/src/main/java/com/example/android/enhancedcamera/common/CameraHelper.java:47-75 | a type other than FRONT/BACK gives the `IllegalArgumentException`. Otherwise it returns an id exactly when the search gets, over cameras that all report another facing, to one with the requested facing, and then it is that camera's id. An absent facing throws a `NullPointerException`, which is caught and gives null |
| CameraHelper.PreferredCameraWhenFacingsKnown | app/src/main/java/com/example/android/enhancedcamera/common/CameraHelper.java:54-66 | when every camera reports a facing, the camera the search stops at is exactly the first one in list order with the requested facing |
| CaptureStateMachine.ResultInIdleOrPictureTaken | app/src/main/java/com/example/android/enhancedcamera/image/SingleImageCaptureCallback.java:96-100 | in IDLE, and in PICTURE_TAKEN (which has no case), a result changes nothing and submits nothing |
| CaptureStateMachine.WaitingLockCases | app/src/main/java/com/example/android/enhancedcamera/image/SingleImageCaptureCallback.java:101-118 | in WAITING_LOCK an absent afState or afMode throws on unboxing. Otherwise, each as an iff: locked with aeState absent or CONVERGED goes to WAITING_NON_PRECAPTURE with no submission; locked with any other aeState runs the precapture and goes to WAITING_PRECAPTURE; not locked leaves the state unchanged |
| CaptureStateMachine.WaitingPrecaptureCases | app/src/main/java/com/example/android/enhancedcamera/image/SingleImageCaptureCallback.java:119-128 | in WAITING_PRECAPTURE, aeState absent, PRECAPTURE or FLASH_REQUIRED moves to WAITING_NON_PRECAPTURE (iff). Any other value stays. Nothing is submitted |
| CaptureStateMachine.WaitingNonPrecaptureCases | app/src/main/java/com/example/android/enhancedcamera/image/SingleImageCaptureCallback.java:129-138 | in WAITING_NON_PRECAPTURE, aeState ≠ PRECAPTURE (or absent) moves to PICTURE_TAKEN with exactly one still capture. PRECAPTURE stays and submits nothing. Both are iffs |
| CaptureStateMachine.StillCaptureOnlyWhenTakingPicture | app/src/main/java/com/example/android/enhancedcamera/image/SingleImageCaptureCallback.java:95-140 | a result submits a still capture iff the state is WAITING_NON_PRECAPTURE and the step goes to PICTURE_TAKEN |
| CaptureStateMachine.TakePictureFromAnyState | app/src/main/java/com/example/android/enhancedcamera/image/SingleImageCaptureCallback.java:167-169 | `takePicture` has no guard: from every state it goes to WAITING_LOCK and submits the focus trigger |
| CaptureStateMachine.CompletionRouting | app/src/main/java/com/example/android/enhancedcamera/image/SingleImageCaptureCallback.java:142-161 | a completion tagged with the capture key unlocks focus (IDLE plus the repeating request) in every state. Any other completion, and every partial result, is exactly `process` |
| CaptureStateMachine.RunWithinFlow | app/src/main/java/com/example/android/enhancedcamera/image/SingleImageCaptureCallback.java:93-162 | over any run of results and foreign completions the state never moves backwards. The requests submitted are at most one precapture trigger (only from WAITING_LOCK) followed by at most one still capture, and none at all from IDLE or PICTURE_TAKEN |
| CaptureStateMachine.InertWithinFlow | app/src/main/java/com/example/android/enhancedcamera/image/SingleImageCaptureCallback.java:95-140 | from IDLE or PICTURE_TAKEN any run of results and foreign completions leaves the state and submits nothing |
| CaptureStateMachine.AbsentExposureProceeds | app/src/main/java/com/example/android/enhancedcamera/image/SingleImageCaptureCallback.java:108-136 | an absent aeState never blocks: it skips the precapture at the lock and moves on in both precapture states |
| CaptureStateMachine.EndToEnd | app/src/main/java/com/example/android/enhancedcamera/image/SingleImageCaptureCallback.java:142-169 | takePicture, a locked converged result, a non-precapture result and the still completion end in IDLE after exactly [focus trigger, still capture, repeating unlock] |
| CaptureStateMachine.FlowWithPrecapture | app/src/main/java/com/example/android/enhancedcamera/image/SingleImageCaptureCallback.java:101-138 | a lock with unconverged exposure, then a precapture-state result, then any non-precapture result end in PICTURE_TAKEN after exactly [precapture trigger, still capture] |
| Image.SharedSettingsPersist | app/src/main/java/com/example/android/enhancedcamera/common/PreviewCallback.java:54-66 | on the shared builder the AF trigger START of lockFocus is still set when the precapture request is built. The precapture trigger START is still set in the repeating request that unlockFocus installs, next to AF trigger CANCEL. Template, targets and tag are untouched |
| Image.SingleImageCaptureCallback.constructor | app/src/main/java/com/example/android/enhancedcamera/image/SingleImageCaptureCallback.java:46-55 | a new callback starts in IDLE with no builder, no session and nothing done, and keeps its saver (which may be null) and capture key |
| Image.SingleImageCaptureCallback.LockFocus | app/src/main/java/com/example/android/enhancedcamera/image/SingleImageCaptureCallback.java:175-189 | through the lazy builder (a new object when there was none): AF trigger START is set on the shared builder, the state becomes WAITING_LOCK before the submission, and exactly one capture of the builder's contents goes out (or none when the session is null or the device throws). The state stays assigned on failure |
| Image.SingleImageCaptureCallback.RunPrecaptureSequence | app/src/main/java/com/example/android/enhancedcamera/image/SingleImageCaptureCallback.java:195-209 | AE precapture trigger START on the shared builder, then WAITING_PRECAPTURE, then exactly one capture, with the same failure rules |
| Image.SingleImageCaptureCallback.CaptureStillPicture | app/src/main/java/com/example/android/enhancedcamera/image/SingleImageCaptureCallback.java:214-244 | exactly one capture of a new request: STILL_CAPTURE template, only the saver's surface, AF continuous-picture, AE auto-flash, JPEG orientation = the saver's sensor orientation, tag = the capture key. The shared builder is untouched. A null saver throws before the session is reached, and nothing is logged |
| Image.SingleImageCaptureCallback.UnlockFocus | app/src/main/java/com/example/android/enhancedcamera/image/SingleImageCaptureCallback.java:250-267 | AF trigger CANCEL and AE auto-flash on the shared builder, then IDLE, then the builder becomes the repeating request with this callback as listener |
| Image.SingleImageCaptureCallback.Process | app/src/main/java/com/example/android/enhancedcamera/image/SingleImageCaptureCallback.java:95-140 | the callback moves exactly as `CaptureStateMachine.Process` says and makes exactly the submission that step names. On the unboxing exception nothing changes. With a null image saver the step to PICTURE_TAKEN is taken and its still capture throws |
| Image.SingleImageCaptureCallback.TakePicture | app/src/main/java/com/example/android/enhancedcamera/image/SingleImageCaptureCallback.java:167-169 | follows `Dispatch` for `takePicture`, which is lockFocus from any state |
| Image.SingleImageCaptureCallback.OnCaptureProgressed | app/src/main/java/com/example/android/enhancedcamera/image/SingleImageCaptureCallback.java:142-148 | follows `Dispatch` for a partial result, which is process |
| Image.SingleImageCaptureCallback.OnCaptureCompleted | app/src/main/java/com/example/android/enhancedcamera/image/SingleImageCaptureCallback.java:150-161 | follows `Dispatch` for a completion: unlockFocus when the tag is the capture key, otherwise process |
| Image.OpenStillPreview | app/src/main/java/com/example/android/enhancedcamera/image/SingleImageCaptureCallback.java:58-85 | a still-image preview session covers [preview, ImageReader surface] and streams a PREVIEW-template request with AF continuous-picture and AE auto-flash, aimed at the preview surface |
| Image.LockAndShoot | app/src/main/java/com/example/android/enhancedcamera/image/SingleImageCaptureCallback.java:101-189 | from a streaming preview, takePicture, a locked converged result and a non-precapture result give PICTURE_TAKEN after exactly the focus-trigger capture and the still capture (none when the image saver is null). The AF trigger stays on the shared builder |
| Image.TakeOnePicture | app/src/main/java/com/example/android/enhancedcamera/image/SingleImageCaptureCallback.java:142-267 | a whole picture, from opening the preview to unlocking, ends in IDLE with exactly these calls in order: buffer size, session, repeating preview, focus trigger, still capture, repeating unlock request (AF trigger CANCEL) |
| Preview.PreviewCallback.constructor | app/src/main/java/com/example/android/enhancedcamera/common/PreviewCallback.java:30-37 | a new callback has no builder, no active session and nothing done |
| Preview.PreviewCallback.BaseCaptureTargets | app/src/main/java/com/example/android/enhancedcamera/common/PreviewCallback.java:47-52 | the base target list is exactly one preview surface |
| Preview.PreviewCallback.StillImageCaptureTargets | app/src/main/java/com/example/android/enhancedcamera/image/SingleImageCaptureCallback.java:78-85 | the still-image list is the base list with the ImageReader surface appended: length 2, preview first. It fails (null dereference) iff the image saver is null |
| Preview.PreviewCallback.VideoCaptureTargets | app/src/main/java/com/example/android/enhancedcamera/video/VideoCaptureCallback.java:58-64 | the video list is the base list with the recorder surface appended: length 2, preview first. It fails (null dereference) iff there is no saver |
| Preview.PreviewCallback.CaptureTargets | app/src/main/java/com/example/android/enhancedcamera/common/PreviewCallback.java:46-52 | the overridden `getCaptureTargets` fails iff it is the video mode without a video saver or the still-image mode without an image saver. Otherwise it starts with the preview surface |
| Preview.PreviewCallback.CreateBasicPreviewBuilder | app/src/main/java/com/example/android/enhancedcamera/common/PreviewCallback.java:39-44 | a fresh builder on the PREVIEW template with nothing set. A null device throws |
| Preview.PreviewCallback.CreateStillImagePreviewBuilder | app/src/main/java/com/example/android/enhancedcamera/image/SingleImageCaptureCallback.java:57-72 | a fresh PREVIEW-template builder with AF continuous-picture and AE auto-flash, and no targets |
| Preview.PreviewCallback.CreateRecordPreviewBuilder | app/src/main/java/com/example/android/enhancedcamera/video/VideoCaptureCallback.java:34-49 | a fresh RECORD-template builder with CONTROL_MODE_AUTO, aimed at the recorder surface. A null device or a null saver throws |
| Preview.PreviewCallback.CreatePreviewRequestBuilder | app/src/main/java/com/example/android/enhancedcamera/common/PreviewCallback.java:39-44 | the overridden factory gives a fresh builder with the mode's request, or throws exactly when that mode dereferences null |
| Preview.PreviewCallback.GetPreviewRequestBuilder | app/src/main/java/com/example/android/enhancedcamera/common/PreviewCallback.java:54-66 | once it exists the same builder object comes back every time. A builder is created only when the field is null, and the returned builder holds the existing contents or the factory's fresh request |
| Preview.PreviewCallback.Submit | app/src/main/java/com/example/android/enhancedcamera/common/PreviewCallback.java:122-127 | one capture/setRepeatingRequest on the active session: logged exactly once when it goes through. A null session throws `NullPointerException` and a device failure throws `CameraAccessException`; neither logs anything |
| Preview.PreviewCallback.CancelActiveCaptureSession | app/src/main/java/com/example/android/enhancedcamera/common/PreviewCallback.java:80-85 | closes the active session exactly once if there is one and clears it. With none it does nothing |
| Preview.PreviewCallback.StartPreviewSession | app/src/main/java/com/example/android/enhancedcamera/common/PreviewCallback.java:90-109 | the old builder is dropped and a fresh one holds the mode's request plus the preview surface. Video targets become [recorder, preview]; the other modes [preview]. The buffer size is set, then one session is requested over the capture targets, and the builder passed to onConfigured is the one stored. A null dereference in the factory leaves no builder; one in `getCaptureTargets` (a null saver) leaves the new builder stored and requests no session |
| Preview.PreviewCallback.OnConfigured | app/src/main/java/com/example/android/enhancedcamera/common/PreviewCallback.java:111-128 | with a null device nothing changes. Otherwise the session becomes active and the captured builder's request is submitted once as the repeating request, without a listener |
| Preview.PreviewCallback.OnConfigureFailed | app/src/main/java/com/example/android/enhancedcamera/common/PreviewCallback.java:130-133 | neither the active session nor anything else changes |
| Preview.PreviewLifecycle | app/src/main/java/com/example/android/enhancedcamera/common/PreviewCallback.java:80-136 | starting, configuring and twice cancelling a preview gives exactly: buffer size, one session over the targets, one repeating request of the mode's request aimed at the preview surface, one close. When the targets dereference a null image saver, only the buffer size is set |
| Video.VideoCaptureCallback.constructor | app/src/main/java/com/example/android/enhancedcamera/video/VideoCaptureCallback.java:28-32 | a video callback starts with no saver, no builder, no session and nothing done |
| Video.VideoCaptureCallback.SetCaptureTarget | app/src/main/java/com/example/android/enhancedcamera/video/VideoCaptureCallback.java:51-56 | closes the previous saver exactly once if it was non-null, then stores the new one, which may be null |
| Video.VideoCaptureCallback.SetUpMediaRecorder | app/src/main/java/com/example/android/enhancedcamera/video/VideoCaptureCallback.java:66-68 | delegates exactly once to the current saver and touches nothing else. A null saver throws |
| Video.VideoCaptureCallback.StartRecording | app/src/main/java/com/example/android/enhancedcamera/video/VideoCaptureCallback.java:70-72 | delegates exactly once to the current saver and touches nothing else. A null saver throws |
| Video.VideoCaptureCallback.StopRecording | app/src/main/java/com/example/android/enhancedcamera/video/VideoCaptureCallback.java:74-76 | delegates exactly once to the current saver and touches nothing else. A null saver throws |
| Video.RecordingSession | app/src/main/java/com/example/android/enhancedcamera/video/VideoCaptureCallback.java:35-76 | a whole recording gives exactly these calls in order: recorder set up; buffer size; session over [preview, recorder]; a repeating RECORD request with CONTROL_MODE_AUTO aimed at [recorder, preview]; start; stop; one session close; one saver close |

## Left out

- The three activities (UI widgets, the Android lifecycle, adapters, the record toggle) and the activity loop that filters recording sizes with `verifyVideoSize`: window and UI glue.
- ImageSaver and VideoSaver: file and media I/O. A saver is an id plus, for images, its sensor orientation; either may be null. Its calls appear only as effects in the log.
- Camera manager queries (`openCamera`, `getConfiguration`, `getTargetPreviewSize`'s map lookup, `getSensorOrientation`, `getSupportedEffects`): foreign calls. The camera list and the output sizes are passed in as sequences.
- CameraHelper.GetPreferredCameraId: does not model the `CameraAccessException` of the camera manager, which also ends in null, because the camera list is an input.
- CameraHelper.ChooseOptimalSize: requires a non-empty array. With no options the Java code fails on `choices[0]` with an `ArrayIndexOutOfBoundsException`, and that exception path is not modelled.
- Threading and asynchronous delivery: each camera callback is one atomic method call. `onConfigured` receives the builder that `startPreviewSession` captured as a parameter.
- Preview.PreviewCallback.CreatePreviewRequestBuilder: does not model a `CameraAccessException` from `createCaptureRequest`. The still-capture builder likewise never fails to be created.
- Image.SingleImageCaptureCallback.Process: the state machine after an uncaught `NullPointerException` (an absent afState or afMode while waiting for the lock, or a null active session) is modelled as "nothing more happens in that call". The crash of the app thread is not.
- Image.SingleImageCaptureCallback.constructor: the still-image callback is modelled over a non-null device only. Every step dereferences the device or builds from it, and a null device is not a case the source handles.
- The `IOException` of `setUpMediaRecorder` is not modelled: it comes from the saver's file I/O.
- Surface and session identity beyond opaque tokens. `addTarget` is modelled as appending to a sequence, although the platform keeps a set of targets.
- The log messages and `printStackTrace` calls are left out: they do nothing to the model's state.
