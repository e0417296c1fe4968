/**
 * PreviewCallback: the session layer shared by every camera mode. It owns the
 * lazily created, shared preview request builder and the single active
 * capture session, and starts the streaming preview.
 *
 * The two Java subclasses override how the builder is created and which
 * surfaces the session targets; here those overrides are selected by the
 * `variant` descriptor, and the mutable video saver that the video override
 * reads is a field of this class.
 */
module Preview {
  import opened Common
  import opened Camera2
  import CameraHelper

  /** An ImageSaver as the core sees it: its ImageReader surface and the sensor orientation it was given. */
  datatype ImageSaver = ImageSaver(id: nat, sensorOrientation: int)
  /** A VideoSaver as the core sees it: its MediaRecorder surface. */
  datatype VideoSaver = VideoSaver(id: nat)

  /**
   * Which class the callback object is: the base class,
   * SingleImageCaptureCallback with its mCaptureTarget (which may be null),
   * or VideoCaptureCallback.
   */
  datatype Variant = BasicPreview | StillImage(imageSaver: Option<ImageSaver>) | VideoRecord

  /**
   * How a capture() or setRepeatingRequest() call on the active session ends:
   * a null session is dereferenced, or the device throws, or it goes through.
   */
  function SubmitOutcome(session: Option<SessionId>, fault: bool): Outcome {
    if session.None? then NullPointer else if fault then AccessFailed else Ok
  }

  /** What such a call leaves in the effect log. */
  function SubmitEffects(session: Option<SessionId>, kind: SubmitKind, request: Request, fault: bool): seq<Effect> {
    if SubmitOutcome(session, fault) == Ok then [Submitted(session.value, kind, request)] else []
  }

  class PreviewCallback {
    const variant: Variant
    /** Whether mCameraDevice is non-null; it is final in the source. */
    const hasDevice: bool
    const targetPreviewSize: CameraHelper.Size
    /** mPreviewRequestBuilder: null until first needed. */
    var builder: RequestBuilder?
    /** mActiveCaptureSession. */
    var activeSession: Option<SessionId>
    /** mVideoSaver of VideoCaptureCallback (unused by the other variants). */
    var videoSaver: Option<VideoSaver>
    /** Every call made on the device, the session and the savers, in order. */
    var log: seq<Effect>

    constructor (variant: Variant, hasDevice: bool, targetPreviewSize: CameraHelper.Size)
      ensures this.variant == variant && this.hasDevice == hasDevice
      ensures this.targetPreviewSize == targetPreviewSize
      ensures builder == null && activeSession == None && videoSaver == None && log == []
    {
      this.variant := variant;
      this.hasDevice := hasDevice;
      this.targetPreviewSize := targetPreviewSize;
      builder := null;
      activeSession := None;
      videoSaver := None;
      log := [];
    }

    /** What the base createPreviewRequestBuilder() builder holds: the preview template alone. */
    static function BasicPreviewRequest(): Request {
      Request(TemplatePreview, map[], [], None)
    }

    /** What the still-image override's builder holds: continuous-picture focus and auto-flash on the preview template. */
    static function StillImagePreviewRequest(): Request {
      Request(TemplatePreview,
              map[ControlAfMode := CONTROL_AF_MODE_CONTINUOUS_PICTURE, ControlAeMode := CONTROL_AE_MODE_ON_AUTO_FLASH],
              [], None)
    }

    /** What the video override's builder holds: automatic control on the record template, aimed at the recorder. */
    static function RecordPreviewRequest(saver: VideoSaver): Request {
      Request(TemplateRecord, map[ControlMode := CONTROL_MODE_AUTO], [RecorderSurface(saver.id)], None)
    }

    /**
     * The request a fresh createPreviewRequestBuilder() builder holds, for
     * this variant, or None when creating it dereferences null (no device, or
     * no video saver).
     */
    function CreatedRequest(): Option<Request>
      reads this
    {
      if !hasDevice then None
      else match variant
        case BasicPreview => Some(BasicPreviewRequest())
        case StillImage(_) => Some(StillImagePreviewRequest())
        case VideoRecord => if videoSaver.None? then None else Some(RecordPreviewRequest(videoSaver.value))
    }

    /** The base class's getCaptureTargets: a new list with one surface over the preview texture. */
    static function BaseCaptureTargets(): (r: seq<Surface>)
      ensures r == [PreviewSurface]
    {
      [PreviewSurface]
    }

    /**
     * The still-image getCaptureTargets: the base list with the ImageReader
     * surface appended; it dereferences the saver, so a null saver throws.
     */
    static function StillImageCaptureTargets(saver: Option<ImageSaver>): (r: Option<seq<Surface>>)
      ensures r.None? <==> saver.None?
      ensures r.Some? ==> |r.value| == 2 && r.value[0] == PreviewSurface && r.value[..1] == BaseCaptureTargets()
      ensures r.Some? ==> r.value[1] == ImageReaderSurface(saver.value.id)
    {
      if saver.None? then None else Some(BaseCaptureTargets() + [ImageReaderSurface(saver.value.id)])
    }

    /**
     * The video getCaptureTargets: the base list with the recorder surface
     * appended; it dereferences the saver, so a null saver throws.
     */
    function VideoCaptureTargets(): (r: Option<seq<Surface>>)
      reads this
      ensures r.None? <==> videoSaver.None?
      ensures r.Some? ==> |r.value| == 2 && r.value[..1] == BaseCaptureTargets()
      ensures r.Some? ==> r.value[1] == RecorderSurface(videoSaver.value.id)
    {
      if videoSaver.None? then None else Some(BaseCaptureTargets() + [RecorderSurface(videoSaver.value.id)])
    }

    /** getCaptureTargets() as dispatched on the variant. The preview surface is always first. */
    function CaptureTargets(): (r: Option<seq<Surface>>)
      reads this
      ensures r.None? <==> (variant.VideoRecord? && videoSaver.None?) || (variant.StillImage? && variant.imageSaver.None?)
      ensures r.Some? ==> |r.value| >= 1 && r.value[0] == PreviewSurface
    {
      match variant
      case BasicPreview => Some(BaseCaptureTargets())
      case StillImage(saver) => StillImageCaptureTargets(saver)
      case VideoRecord => VideoCaptureTargets()
    }

    /** getPreviewRequestBuilder() can return a builder: one exists or one can be created. */
    predicate BuilderAvailable()
      reads this
    {
      builder != null || CreatedRequest().Some?
    }

    /** What the builder returned by getPreviewRequestBuilder() holds. */
    function LazyRequest(): Request
      reads this, builder
      requires BuilderAvailable()
    {
      if builder != null then builder.Build() else CreatedRequest().value
    }

    /** The base createPreviewRequestBuilder(): asks the device for a preview-template builder. */
    method CreateBasicPreviewBuilder() returns (o: Outcome, b: RequestBuilder?)
      ensures o == (if hasDevice then Ok else NullPointer)
      ensures o == Ok ==> b != null && fresh(b) && b.Build() == BasicPreviewRequest()
    {
      if !hasDevice {
        return NullPointer, null;
      }
      b := new RequestBuilder(TemplatePreview);
      o := Ok;
    }

    /** The still-image createPreviewRequestBuilder(): preview template, continuous-picture AF, auto-flash AE. */
    method CreateStillImagePreviewBuilder() returns (o: Outcome, b: RequestBuilder?)
      ensures o == (if hasDevice then Ok else NullPointer)
      ensures o == Ok ==> b != null && fresh(b) && b.Build() == StillImagePreviewRequest()
    {
      if !hasDevice {
        return NullPointer, null;
      }
      b := new RequestBuilder(TemplatePreview);
      b.Set(ControlAfMode, CONTROL_AF_MODE_CONTINUOUS_PICTURE);
      b.Set(ControlAeMode, CONTROL_AE_MODE_ON_AUTO_FLASH);
      o := Ok;
    }

    /**
     * The video createPreviewRequestBuilder(): record template, CONTROL_MODE
     * AUTO, and the recorder surface as a target; the saver is dereferenced
     * without a check.
     */
    method CreateRecordPreviewBuilder() returns (o: Outcome, b: RequestBuilder?)
      ensures o == (if hasDevice && videoSaver.Some? then Ok else NullPointer)
      ensures o == Ok ==> b != null && fresh(b) && b.Build() == RecordPreviewRequest(videoSaver.value)
    {
      if !hasDevice {
        return NullPointer, null;
      }
      b := new RequestBuilder(TemplateRecord);
      b.Set(ControlMode, CONTROL_MODE_AUTO);
      if videoSaver.None? {
        return NullPointer, null;
      }
      b.AddTarget(RecorderSurface(videoSaver.value.id));
      o := Ok;
    }

    /** createPreviewRequestBuilder() as dispatched on the variant. */
    method CreatePreviewRequestBuilder() returns (o: Outcome, b: RequestBuilder?)
      ensures o == (if CreatedRequest().Some? then Ok else NullPointer)
      ensures o == Ok ==> b != null && fresh(b) && b.Build() == CreatedRequest().value
    {
      match variant {
        case BasicPreview => o, b := CreateBasicPreviewBuilder();
        case StillImage(_) => o, b := CreateStillImagePreviewBuilder();
        case VideoRecord => o, b := CreateRecordPreviewBuilder();
      }
    }

    /**
     * getPreviewRequestBuilder(): creates the builder only while the field is
     * null, and from then on hands back that same object.
     */
    method GetPreviewRequestBuilder() returns (o: Outcome, b: RequestBuilder?)
      modifies this`builder
      ensures o == (if old(BuilderAvailable()) then Ok else NullPointer)
      ensures old(builder) != null ==> builder == old(builder)
      ensures old(builder) == null && o == Ok ==> fresh(builder)
      ensures o != Ok ==> builder == null
      ensures o == Ok ==> b == builder && builder != null && builder.Build() == old(LazyRequest())
    {
      if builder == null {
        var created;
        o, created := CreatePreviewRequestBuilder();
        if o != Ok {
          return o, null;
        }
        builder := created;
      }
      o, b := Ok, builder;
    }

    /** capture() or setRepeatingRequest() on the active session. */
    method Submit(kind: SubmitKind, request: Request, fault: bool) returns (o: Outcome)
      modifies this`log
      ensures o == SubmitOutcome(activeSession, fault)
      ensures log == old(log) + SubmitEffects(activeSession, kind, request, fault)
    {
      if activeSession.None? {
        return NullPointer;
      }
      if fault {
        return AccessFailed;
      }
      log := log + [Submitted(activeSession.value, kind, request)];
      o := Ok;
    }

    /**
     * cancelActiveCaptureSession(): closes the session if there is one and
     * forgets it; with no session it does nothing, so a second call closes
     * nothing more.
     */
    method CancelActiveCaptureSession()
      modifies this`activeSession, this`log
      ensures activeSession == None
      ensures log == old(log) + (if old(activeSession).Some? then [SessionClosed(old(activeSession).value)] else [])
    {
      if activeSession.Some? {
        log := log + [SessionClosed(activeSession.value)];
        activeSession := None;
      }
    }

    /**
     * startPreviewSession(): drops the old builder, sizes the preview buffer,
     * creates a fresh builder, adds the preview surface to it, and asks the
     * device for a session over the capture targets. A null dereference in
     * creating the builder leaves no builder; one in getCaptureTargets (a
     * null saver) comes after the new builder is stored, and before the
     * device is asked. On success it returns the builder that the session's
     * onConfigured handler captured.
     */
    method StartPreviewSession(fault: bool) returns (o: Outcome, pending: RequestBuilder?)
      modifies this`builder, this`log
      ensures o == (if CreatedRequest().None? || CaptureTargets().None? then NullPointer
                    else if fault then AccessFailed else Ok)
      ensures CreatedRequest().None? ==>
                builder == null && log == old(log) + [BufferSizeSet(targetPreviewSize.width as int, targetPreviewSize.height as int)]
      ensures CreatedRequest().Some? ==>
                && builder != null && fresh(builder)
                && builder.Build() == CreatedRequest().value.(targets := CreatedRequest().value.targets + [PreviewSurface])
                && log == old(log) + [BufferSizeSet(targetPreviewSize.width as int, targetPreviewSize.height as int)]
                          + (if fault || CaptureTargets().None? then [] else [SessionRequested(CaptureTargets().value)])
      ensures o == Ok ==> pending == builder
      ensures CreatedRequest().Some? && variant.VideoRecord? ==>
                builder.Build().targets == [RecorderSurface(videoSaver.value.id), PreviewSurface]
      ensures CreatedRequest().Some? && !variant.VideoRecord? ==> builder.Build().targets == [PreviewSurface]
    {
      builder := null;
      log := log + [BufferSizeSet(targetPreviewSize.width as int, targetPreviewSize.height as int)];
      var b;
      o, b := GetPreviewRequestBuilder();
      if o != Ok {
        return o, null;
      }
      b.AddTarget(PreviewSurface);
      var targets := CaptureTargets();
      if targets.None? {
        return NullPointer, null;
      }
      if fault {
        return AccessFailed, null;
      }
      log := log + [SessionRequested(targets.value)];
      o, pending := Ok, b;
    }

    /**
     * onConfigured(session): with the device gone it returns at once;
     * otherwise it installs the session and submits the captured builder as
     * the repeating request, with no result listener.
     */
    method OnConfigured(session: SessionId, pending: RequestBuilder, fault: bool) returns (o: Outcome)
      modifies this`activeSession, this`log
      ensures !hasDevice ==> o == Ok && activeSession == old(activeSession) && log == old(log)
      ensures hasDevice ==>
                && activeSession == Some(session)
                && o == (if fault then AccessFailed else Ok)
                && log == old(log) + (if fault then [] else [Submitted(session, Repeating(false), pending.Build())])
    {
      if !hasDevice {
        return Ok;
      }
      activeSession := Some(session);
      o := Submit(Repeating(false), pending.Build(), fault);
    }

    /** onConfigureFailed(session): only logs; no session becomes active. */
    method OnConfigureFailed(session: SessionId)
      ensures activeSession == old(activeSession) && log == old(log)
    {
    }
  }

  /**
   * The callback's own session methods in sequence: start the preview, let
   * the session configure, and cancel twice. The session streams the builder
   * startPreviewSession made, aimed at the preview surface, and is closed
   * once. When getCaptureTargets dereferences a null image saver no session
   * is ever requested, and only the buffer size was set.
   */
  method PreviewLifecycle(variant: Variant, size: CameraHelper.Size, session: SessionId)
      returns (p: PreviewCallback)
    requires !variant.VideoRecord?
    ensures p.variant == variant && p.hasDevice
    ensures p.activeSession == None
    ensures p.CaptureTargets().None? ==> p.log == [BufferSizeSet(size.width as int, size.height as int)]
    ensures p.CaptureTargets().Some? ==>
              p.log == [BufferSizeSet(size.width as int, size.height as int),
                        SessionRequested(p.CaptureTargets().value),
                        Submitted(session, Repeating(false), p.CreatedRequest().value.(targets := [PreviewSurface])),
                        SessionClosed(session)]
  {
    p := new PreviewCallback(variant, true, size);
    var o, pending := p.StartPreviewSession(false);
    if o == Ok {
      o := p.OnConfigured(session, pending, false);
    }
    p.CancelActiveCaptureSession();
    p.CancelActiveCaptureSession();
  }
}
