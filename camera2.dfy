/**
 * The camera2 boundary as the core sees it: surfaces as opaque tokens, capture
 * requests as values, the mutable CaptureRequest.Builder as a class, and the
 * calls the core makes on the device, its session and its savers, recorded as
 * effects.
 */
module Camera2 {
  import opened Common

  /** CaptureRequest / CaptureResult / CameraMetadata values the core uses. */
  const CONTROL_AF_MODE_OFF: int := 0
  const CONTROL_AF_MODE_CONTINUOUS_PICTURE: int := 4
  const CONTROL_AF_STATE_FOCUSED_LOCKED: int := 4
  const CONTROL_AF_STATE_NOT_FOCUSED_LOCKED: int := 5
  const CONTROL_AE_STATE_CONVERGED: int := 2
  const CONTROL_AE_STATE_FLASH_REQUIRED: int := 4
  const CONTROL_AE_STATE_PRECAPTURE: int := 5
  const CONTROL_AE_MODE_ON_AUTO_FLASH: int := 2
  const CONTROL_AF_TRIGGER_START: int := 1
  const CONTROL_AF_TRIGGER_CANCEL: int := 2
  const CONTROL_AE_PRECAPTURE_TRIGGER_START: int := 1
  const CONTROL_MODE_AUTO: int := 1

  /** The CameraDevice.TEMPLATE_* a builder is created from. */
  datatype Template = TemplatePreview | TemplateStillCapture | TemplateRecord

  /** The request keys the core sets. */
  datatype Key =
    | ControlAfMode
    | ControlAeMode
    | ControlAfTrigger
    | ControlAePrecaptureTrigger
    | ControlMode
    | JpegOrientation

  /**
   * An output surface: one wrapping the preview texture, the ImageReader
   * surface of an image saver, or the MediaRecorder surface of a video saver
   * (savers are named by an id).
   */
  datatype Surface = PreviewSurface | ImageReaderSurface(imageSaver: nat) | RecorderSurface(videoSaver: nat)

  /** An opaque capture-session handle. */
  type SessionId = nat

  /**
   * A built CaptureRequest: its template, the settings set on top of the
   * template's defaults, its target surfaces in the order they were added,
   * and its tag (null unless set).
   */
  datatype Request = Request(template: Template, settings: map<Key, int>, targets: seq<Surface>, tag: Option<nat>)
  {
    /** The request with one more setting. */
    function With(k: Key, v: int): Request {
      this.(settings := settings[k := v])
    }
  }

  /** CaptureRequest.Builder: mutable, shared by reference. */
  class RequestBuilder {
    const template: Template
    var settings: map<Key, int>
    var targets: seq<Surface>
    var tag: Option<nat>

    /** CaptureRequest.Builder.build(): a snapshot of the builder. */
    function Build(): Request
      reads this
    {
      Request(template, settings, targets, tag)
    }

    /** CameraDevice.createCaptureRequest(template): a builder with only the template's defaults. */
    constructor (template: Template)
      ensures Build() == Request(template, map[], [], None)
    {
      this.template := template;
      settings := map[];
      targets := [];
      tag := None;
    }

    method Set(k: Key, v: int)
      modifies this
      ensures Build() == old(Build()).With(k, v)
    {
      settings := settings[k := v];
    }

    method AddTarget(s: Surface)
      modifies this
      ensures Build() == old(Build()).(targets := old(targets) + [s])
    {
      targets := targets + [s];
    }

    method SetTag(t: nat)
      modifies this
      ensures Build() == old(Build()).(tag := Some(t))
    {
      tag := Some(t);
    }
  }

  /** How a request was submitted: capture() once, or setRepeatingRequest() with or without a listener. */
  datatype SubmitKind = OneShot | Repeating(withListener: bool)

  /** A call the core makes on its collaborators. */
  datatype Effect =
    | BufferSizeSet(width: int, height: int)          // SurfaceTexture.setDefaultBufferSize
    | SessionRequested(targets: seq<Surface>)         // CameraDevice.createCaptureSession
    | Submitted(session: SessionId, kind: SubmitKind, request: Request)
    | SessionClosed(session: SessionId)               // CameraCaptureSession.close
    | SaverClosed(videoSaver: nat)                    // VideoSaver.close
    | RecorderSetUp(videoSaver: nat)                  // VideoSaver.setUpMediaRecorder
    | RecordingStarted(videoSaver: nat)               // VideoSaver.startRecording
    | RecordingStopped(videoSaver: nat)               // VideoSaver.stopRecording
}
