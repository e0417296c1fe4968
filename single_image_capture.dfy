/**
 * SingleImageCaptureCallback: the still-image mode. It adds the ImageReader
 * surface to the session, and runs the capture state machine of module
 * CaptureStateMachine against the hardware: each callback method moves
 * `state` exactly as Dispatch says and makes exactly the submission the step
 * names, assigning the new state before it submits.
 */
module Image {
  import opened Common
  import opened Camera2
  import opened Preview
  import opened CaptureStateMachine
  import CameraHelper

  /** The steps whose request comes from the shared preview builder. */
  predicate UsesSharedBuilder(sub: Submission) {
    sub == FocusTrigger || sub == PrecaptureTrigger || sub == UnlockRepeating
  }

  /** What a step sets on the shared preview builder before building from it. */
  function SharedAfter(sub: Submission, shared: Request): Request {
    match sub
    case FocusTrigger => shared.With(ControlAfTrigger, CONTROL_AF_TRIGGER_START)
    case PrecaptureTrigger => shared.With(ControlAePrecaptureTrigger, CONTROL_AE_PRECAPTURE_TRIGGER_START)
    case UnlockRepeating =>
      shared.With(ControlAfTrigger, CONTROL_AF_TRIGGER_CANCEL).With(ControlAeMode, CONTROL_AE_MODE_ON_AUTO_FLASH)
    case _ => shared
  }

  /**
   * The request captureStillPicture submits: the still-capture template,
   * aimed at the saver's surface only, continuous-picture focus, auto-flash
   * exposure, the saver's sensor orientation as JPEG orientation, and the
   * capture key as its tag.
   */
  function StillRequest(saver: ImageSaver, captureKey: nat): Request {
    Request(TemplateStillCapture,
            map[ControlAfMode := CONTROL_AF_MODE_CONTINUOUS_PICTURE,
                ControlAeMode := CONTROL_AE_MODE_ON_AUTO_FLASH,
                JpegOrientation := saver.sensorOrientation],
            [ImageReaderSurface(saver.id)],
            Some(captureKey))
  }

  /** unlockFocus installs a repeating request with the callback as listener; the other steps capture once. */
  function KindOf(sub: Submission): SubmitKind {
    if sub == UnlockRepeating then Repeating(true) else OneShot
  }

  /**
   * The step dereferences a null image saver before it reaches the session:
   * captureStillPicture aims its request at the saver's surface.
   */
  predicate NeedsMissingSaver(sub: Submission, saver: Option<ImageSaver>) {
    sub == StillCapture && saver.None?
  }

  /** The request a step submits, given the shared builder's contents before it. */
  function SentRequest(sub: Submission, shared: Request, saver: ImageSaver, captureKey: nat): Request {
    if sub == StillCapture then StillRequest(saver, captureKey) else SharedAfter(sub, shared)
  }

  /** How a step's submission ends: nothing to submit, the null saver, or the session call's outcome. */
  function StepOutcome(sub: Submission, saver: Option<ImageSaver>, session: Option<SessionId>, fault: bool): Outcome {
    if sub == NoSubmission then Ok
    else if NeedsMissingSaver(sub, saver) then NullPointer
    else SubmitOutcome(session, fault)
  }

  /** What a step's submission leaves in the effect log. */
  function StepEffects(sub: Submission, shared: Request, saver: Option<ImageSaver>, captureKey: nat,
                       session: Option<SessionId>, fault: bool): seq<Effect>
  {
    if sub == NoSubmission || NeedsMissingSaver(sub, saver) then []
    else if sub == StillCapture then SubmitEffects(session, OneShot, StillRequest(saver.value, captureKey), fault)
    else SubmitEffects(session, KindOf(sub), SharedAfter(sub, shared), fault)
  }

  /**
   * The settings a step puts on the shared builder stay there for every later
   * request built from it: the focus trigger of lockFocus is still set when
   * the precapture request is built, and the precapture trigger is still set
   * in the repeating request that unlockFocus installs.
   */
  lemma SharedSettingsPersist(shared: Request)
    ensures SharedAfter(PrecaptureTrigger, SharedAfter(FocusTrigger, shared)).settings[ControlAfTrigger]
            == CONTROL_AF_TRIGGER_START
    ensures var unlocked := SharedAfter(UnlockRepeating, SharedAfter(PrecaptureTrigger, SharedAfter(FocusTrigger, shared)));
            && unlocked.settings[ControlAfTrigger] == CONTROL_AF_TRIGGER_CANCEL
            && unlocked.settings[ControlAePrecaptureTrigger] == CONTROL_AE_PRECAPTURE_TRIGGER_START
            && unlocked.targets == shared.targets && unlocked.tag == shared.tag
            && unlocked.template == shared.template
  {
  }

  class SingleImageCaptureCallback {
    const preview: PreviewCallback
    /** mCaptureKey: the tag that marks the still request. */
    const captureKey: nat
    /** mState. */
    var state: CaptureState

    /** The callback is a still-image one over an open device. */
    predicate Valid() {
      preview.variant.StillImage? && preview.hasDevice
    }

    /** mCaptureTarget, which may be null. */
    function Saver(): Option<ImageSaver>
      requires Valid()
    {
      preview.variant.imageSaver
    }

    constructor (targetPreviewSize: CameraHelper.Size, saver: Option<ImageSaver>, captureKey: nat)
      ensures Valid() && fresh(preview) && Saver() == saver && this.captureKey == captureKey
      ensures preview.targetPreviewSize == targetPreviewSize
      ensures state == Idle
      ensures preview.builder == null && preview.activeSession == None && preview.log == []
    {
      preview := new PreviewCallback(StillImage(saver), true, targetPreviewSize);
      this.captureKey := captureKey;
      state := Idle;
    }

    /**
     * The builder, log and outcome after a step's submission, against the
     * shared builder's object and contents and the log before it. The active
     * session is not changed by any step.
     */
    ghost predicate Performed(sub: Submission, fault: bool, o: Outcome,
                              builder0: RequestBuilder?, shared0: Request, log0: seq<Effect>)
      reads this, preview, preview.builder
      requires Valid()
    {
      && (builder0 != null ==> preview.builder == builder0)
      && (UsesSharedBuilder(sub) ==> preview.builder != null && preview.builder.Build() == SharedAfter(sub, shared0))
      && (!UsesSharedBuilder(sub) ==> preview.builder == builder0 && (builder0 != null ==> builder0.Build() == shared0))
      && o == StepOutcome(sub, Saver(), preview.activeSession, fault)
      && preview.log == log0 + StepEffects(sub, shared0, Saver(), captureKey, preview.activeSession, fault)
    }

    /**
     * The callback followed `step`: on None (the unboxing exception) nothing
     * changed; otherwise the state is the step's and its submission was made.
     */
    ghost predicate Stepped(step: Option<Step>, state0: CaptureState, fault: bool, o: Outcome,
                            builder0: RequestBuilder?, shared0: Request, log0: seq<Effect>)
      reads this, preview, preview.builder
      requires Valid()
    {
      if step.None? then
        && o == NullPointer && state == state0 && preview.builder == builder0
        && (builder0 != null ==> builder0.Build() == shared0) && preview.log == log0
      else
        state == step.value.next && Performed(step.value.submission, fault, o, builder0, shared0, log0)
    }

    /** lockFocus(): AF trigger START on the shared builder, state WAITING_LOCK, then one capture. */
    method LockFocus(fault: bool) returns (o: Outcome)
      requires Valid()
      modifies this`state, preview`builder, preview`log, preview.builder
      ensures old(preview.builder) == null && preview.builder != null ==> fresh(preview.builder)
      ensures state == WaitingLock
      ensures Performed(FocusTrigger, fault, o, old(preview.builder), old(preview.LazyRequest()), old(preview.log))
    {
      var ob, b := preview.GetPreviewRequestBuilder();
      b.Set(ControlAfTrigger, CONTROL_AF_TRIGGER_START);
      state := WaitingLock;
      o := preview.Submit(OneShot, b.Build(), fault);
    }

    /** runPrecaptureSequence(): AE precapture trigger START, state WAITING_PRECAPTURE, then one capture. */
    method RunPrecaptureSequence(fault: bool) returns (o: Outcome)
      requires Valid()
      modifies this`state, preview`builder, preview`log, preview.builder
      ensures old(preview.builder) == null && preview.builder != null ==> fresh(preview.builder)
      ensures state == WaitingPrecapture
      ensures Performed(PrecaptureTrigger, fault, o, old(preview.builder), old(preview.LazyRequest()), old(preview.log))
    {
      var ob, b := preview.GetPreviewRequestBuilder();
      b.Set(ControlAePrecaptureTrigger, CONTROL_AE_PRECAPTURE_TRIGGER_START);
      state := WaitingPrecapture;
      o := preview.Submit(OneShot, b.Build(), fault);
    }

    /**
     * captureStillPicture(): one capture of a new still request; the shared
     * builder is untouched. A null saver is dereferenced while the request is
     * put together, before the session is reached.
     */
    method CaptureStillPicture(fault: bool) returns (o: Outcome)
      requires Valid()
      modifies preview`log
      ensures o == StepOutcome(StillCapture, Saver(), preview.activeSession, fault)
      ensures Saver().None? ==> o == NullPointer && preview.log == old(preview.log)
      ensures Saver().Some? ==>
                preview.log == old(preview.log) + SubmitEffects(preview.activeSession, OneShot, StillRequest(Saver().value, captureKey), fault)
    {
      var still := new RequestBuilder(TemplateStillCapture);
      if Saver().None? {
        return NullPointer;
      }
      var saver := Saver().value;
      still.AddTarget(ImageReaderSurface(saver.id));
      still.Set(ControlAfMode, CONTROL_AF_MODE_CONTINUOUS_PICTURE);
      still.Set(ControlAeMode, CONTROL_AE_MODE_ON_AUTO_FLASH);
      still.Set(JpegOrientation, saver.sensorOrientation);
      still.SetTag(captureKey);
      assert still.settings == StillRequest(saver, captureKey).settings;
      assert still.Build() == StillRequest(saver, captureKey);
      o := preview.Submit(OneShot, still.Build(), fault);
    }

    /**
     * unlockFocus(): AF trigger CANCEL and auto-flash on the shared builder,
     * state IDLE, then the builder becomes the repeating request, with this
     * callback listening.
     */
    method UnlockFocus(fault: bool) returns (o: Outcome)
      requires Valid()
      modifies this`state, preview`builder, preview`log, preview.builder
      ensures old(preview.builder) == null && preview.builder != null ==> fresh(preview.builder)
      ensures state == Idle
      ensures Performed(UnlockRepeating, fault, o, old(preview.builder), old(preview.LazyRequest()), old(preview.log))
    {
      var ob, b := preview.GetPreviewRequestBuilder();
      b.Set(ControlAfTrigger, CONTROL_AF_TRIGGER_CANCEL);
      b.Set(ControlAeMode, CONTROL_AE_MODE_ON_AUTO_FLASH);
      state := Idle;
      o := preview.Submit(Repeating(true), b.Build(), fault);
    }

    /** process(result): one step of the state machine. */
    method Process(r: CaptureResult, fault: bool) returns (o: Outcome)
      requires Valid()
      modifies this`state, preview`builder, preview`log, preview.builder
      ensures old(preview.builder) == null && preview.builder != null ==> fresh(preview.builder)
      ensures Stepped(CaptureStateMachine.Process(old(state), r), old(state), fault, o,
                      old(preview.builder), old(preview.LazyRequest()), old(preview.log))
    {
      match state {
        case Idle =>
          o := Ok;
        case WaitingLock =>
          if r.afState.None? || r.afMode.None? {
            return NullPointer;
          }
          var afState, afMode := r.afState.value, r.afMode.value;
          if || afMode == CONTROL_AF_MODE_OFF
             || afState == CONTROL_AF_STATE_FOCUSED_LOCKED
             || afState == CONTROL_AF_STATE_NOT_FOCUSED_LOCKED
          {
            if r.aeState.None? || r.aeState.value == CONTROL_AE_STATE_CONVERGED {
              state := WaitingNonPrecapture;
              o := Ok;
            } else {
              o := RunPrecaptureSequence(fault);
            }
          } else {
            o := Ok;
          }
        case WaitingPrecapture =>
          if || r.aeState.None?
             || r.aeState.value == CONTROL_AE_STATE_PRECAPTURE
             || r.aeState.value == CONTROL_AE_STATE_FLASH_REQUIRED
          {
            state := WaitingNonPrecapture;
          }
          o := Ok;
        case WaitingNonPrecapture =>
          if r.aeState.None? || r.aeState.value != CONTROL_AE_STATE_PRECAPTURE {
            state := PictureTaken;
            o := CaptureStillPicture(fault);
          } else {
            o := Ok;
          }
        case PictureTaken =>
          o := Ok;
      }
    }

    /** takePicture(): starts a flow from whatever state the callback is in. */
    method TakePicture(fault: bool) returns (o: Outcome)
      requires Valid()
      modifies this`state, preview`builder, preview`log, preview.builder
      ensures old(preview.builder) == null && preview.builder != null ==> fresh(preview.builder)
      ensures Stepped(Dispatch(old(state), Event.TakePicture, captureKey), old(state), fault, o,
                      old(preview.builder), old(preview.LazyRequest()), old(preview.log))
    {
      o := LockFocus(fault);
    }

    /** onCaptureProgressed: every partial result goes through process. */
    method OnCaptureProgressed(partial: CaptureResult, fault: bool) returns (o: Outcome)
      requires Valid()
      modifies this`state, preview`builder, preview`log, preview.builder
      ensures old(preview.builder) == null && preview.builder != null ==> fresh(preview.builder)
      ensures Stepped(Dispatch(old(state), Progressed(partial), captureKey), old(state), fault, o,
                      old(preview.builder), old(preview.LazyRequest()), old(preview.log))
    {
      o := Process(partial, fault);
    }

    /** onCaptureCompleted: the still request's completion unlocks focus; any other goes through process. */
    method OnCaptureCompleted(tag: Option<nat>, result: CaptureResult, fault: bool) returns (o: Outcome)
      requires Valid()
      modifies this`state, preview`builder, preview`log, preview.builder
      ensures old(preview.builder) == null && preview.builder != null ==> fresh(preview.builder)
      ensures Stepped(Dispatch(old(state), Completed(tag, result), captureKey), old(state), fault, o,
                      old(preview.builder), old(preview.LazyRequest()), old(preview.log))
    {
      if tag == Some(captureKey) {
        o := UnlockFocus(fault);
      } else {
        o := Process(result, fault);
      }
    }
  }

  /** The preview request of the still-image mode, aimed at the preview surface as startPreviewSession leaves it. */
  function StillPreviewRequest(): Request {
    PreviewCallback.StillImagePreviewRequest().(targets := [PreviewSurface])
  }

  /**
   * The still-image screen opening its preview: the session covers the
   * preview and ImageReader surfaces and streams the mode's preview request.
   */
  method OpenStillPreview(size: CameraHelper.Size, saver: ImageSaver, captureKey: nat, session: SessionId)
      returns (c: SingleImageCaptureCallback)
    ensures fresh(c) && fresh(c.preview) && fresh(c.preview.builder)
    ensures c.Valid() && c.Saver() == Some(saver) && c.captureKey == captureKey && c.state == Idle
    ensures c.preview.activeSession == Some(session)
    ensures c.preview.builder != null && c.preview.builder.Build() == StillPreviewRequest()
    ensures c.preview.log ==
              [ BufferSizeSet(size.width as int, size.height as int),
                SessionRequested([PreviewSurface, ImageReaderSurface(saver.id)]),
                Submitted(session, Repeating(false), StillPreviewRequest()) ]
  {
    c := new SingleImageCaptureCallback(size, Some(saver), captureKey);
    var o, pending := c.preview.StartPreviewSession(false);
    assert PreviewCallback.BaseCaptureTargets() + [ImageReaderSurface(saver.id)] == [PreviewSurface, ImageReaderSurface(saver.id)];
    o := c.preview.OnConfigured(session, pending, false);
  }

  /**
   * From a streaming preview: takePicture(), a completed result with focus
   * locked and exposure converged (or unknown), then a result whose exposure
   * is not in precapture. Exactly the focus trigger, built from the shared
   * builder, and the still request go out; the AF trigger stays on the
   * shared builder.
   */
  method LockAndShoot(c: SingleImageCaptureCallback, session: SessionId,
                      locked: CaptureResult, exposed: CaptureResult, other: Option<nat>)
    requires c.Valid() && c.preview.activeSession == Some(session) && c.preview.builder != null
    requires locked.afMode.Some? && locked.afState.Some? && FocusLocked(locked.afMode.value, locked.afState.value)
    requires locked.aeState.None? || locked.aeState == Some(CONTROL_AE_STATE_CONVERGED)
    requires exposed.aeState != Some(CONTROL_AE_STATE_PRECAPTURE)
    requires other != Some(c.captureKey)
    modifies c, c.preview, c.preview.builder
    ensures c.state == PictureTaken && c.preview.activeSession == Some(session)
    ensures c.preview.builder == old(c.preview.builder)
    ensures c.preview.builder.Build() == old(c.preview.builder.Build()).With(ControlAfTrigger, CONTROL_AF_TRIGGER_START)
    ensures c.preview.log == old(c.preview.log) +
              [ Submitted(session, OneShot, old(c.preview.builder.Build()).With(ControlAfTrigger, CONTROL_AF_TRIGGER_START)) ] +
              (if c.Saver().Some? then [Submitted(session, OneShot, StillRequest(c.Saver().value, c.captureKey))] else [])
  {
    var o := c.TakePicture(false);
    assert Dispatch(WaitingLock, Completed(other, locked), c.captureKey) == Some(Step(WaitingNonPrecapture, NoSubmission));
    o := c.OnCaptureCompleted(other, locked, false);
    assert Dispatch(WaitingNonPrecapture, Progressed(exposed), c.captureKey) == Some(Step(PictureTaken, StillCapture));
    o := c.OnCaptureProgressed(exposed, false);
  }

  /**
   * A picture taken the way the still-image screen drives it: the preview
   * starts, focus locks with exposure converged, the still request goes out,
   * and its completion restores the preview. The shared builder carries the
   * preview settings, then the AF trigger, into every request built from it;
   * the still request is built apart.
   */
  method TakeOnePicture(size: CameraHelper.Size, saver: ImageSaver, captureKey: nat, session: SessionId,
                        locked: CaptureResult, exposed: CaptureResult, done: CaptureResult, other: Option<nat>)
      returns (c: SingleImageCaptureCallback)
    requires locked.afMode.Some? && locked.afState.Some? && FocusLocked(locked.afMode.value, locked.afState.value)
    requires locked.aeState.None? || locked.aeState == Some(CONTROL_AE_STATE_CONVERGED)
    requires exposed.aeState != Some(CONTROL_AE_STATE_PRECAPTURE)
    requires other != Some(captureKey)
    ensures c.state == Idle && c.preview.activeSession == Some(session)
    ensures var focusing := StillPreviewRequest().With(ControlAfTrigger, CONTROL_AF_TRIGGER_START);
            c.preview.log ==
              [ BufferSizeSet(size.width as int, size.height as int),
                SessionRequested([PreviewSurface, ImageReaderSurface(saver.id)]),
                Submitted(session, Repeating(false), StillPreviewRequest()),
                Submitted(session, OneShot, focusing),
                Submitted(session, OneShot, StillRequest(saver, captureKey)),
                Submitted(session, Repeating(true), focusing.With(ControlAfTrigger, CONTROL_AF_TRIGGER_CANCEL)) ]
  {
    c := OpenStillPreview(size, saver, captureKey, session);
    LockAndShoot(c, session, locked, exposed, other);
    var o := c.OnCaptureCompleted(Some(captureKey), done, false);
    ghost var focusing := StillPreviewRequest().With(ControlAfTrigger, CONTROL_AF_TRIGGER_START);
    assert focusing.With(ControlAfTrigger, CONTROL_AF_TRIGGER_CANCEL).With(ControlAeMode, CONTROL_AE_MODE_ON_AUTO_FLASH)
           == focusing.With(ControlAfTrigger, CONTROL_AF_TRIGGER_CANCEL);
  }
}
