/**
 * The still-capture state machine of SingleImageCaptureCallback as a pure
 * transition function: which state a hardware result or a completion moves
 * the callback to, and which request it submits on the way. The class in
 * module Image is proved to follow it.
 */
module CaptureStateMachine {
  import opened Common
  import opened Camera2

  /** STATE_IDLE .. STATE_PICTURE_TAKEN. */
  datatype CaptureState = Idle | WaitingLock | WaitingPrecapture | WaitingNonPrecapture | PictureTaken

  /**
   * The fields of a CaptureResult that process() reads. Each is a boxed
   * Integer that the hardware may leave absent.
   */
  datatype CaptureResult = CaptureResult(afMode: Option<int>, afState: Option<int>, aeState: Option<int>)

  /**
   * The request a step submits: none, the AF trigger of lockFocus, the AE
   * precapture trigger of runPrecaptureSequence, the still request of
   * captureStillPicture, or the repeating request of unlockFocus.
   */
  datatype Submission = NoSubmission | FocusTrigger | PrecaptureTrigger | StillCapture | UnlockRepeating

  datatype Step = Step(next: CaptureState, submission: Submission)

  /**
   * What reaches the callback: a takePicture() call, a partial result
   * (onCaptureProgressed), or a completed result (onCaptureCompleted) with
   * the tag of the request it belongs to.
   */
  datatype Event = TakePicture | Progressed(result: CaptureResult) | Completed(tag: Option<nat>, result: CaptureResult)

  /** Focus is locked, or auto-focus is off. */
  predicate FocusLocked(afMode: int, afState: int) {
    || afMode == CONTROL_AF_MODE_OFF
    || afState == CONTROL_AF_STATE_FOCUSED_LOCKED
    || afState == CONTROL_AF_STATE_NOT_FOCUSED_LOCKED
  }

  /**
   * process(result). None stands for the NullPointerException thrown while
   * waiting for the lock, when afState or afMode is absent: both are unboxed
   * to int before they are compared. An absent aeState is never unboxed and
   * lets the sequence proceed.
   */
  function Process(state: CaptureState, r: CaptureResult): Option<Step> {
    match state
    case Idle => Some(Step(Idle, NoSubmission))
    case WaitingLock =>
      if r.afState.None? || r.afMode.None? then None
      else if !FocusLocked(r.afMode.value, r.afState.value) then Some(Step(WaitingLock, NoSubmission))
      else if r.aeState.None? || r.aeState.value == CONTROL_AE_STATE_CONVERGED then
        Some(Step(WaitingNonPrecapture, NoSubmission))
      else Some(Step(WaitingPrecapture, PrecaptureTrigger))
    case WaitingPrecapture =>
      if || r.aeState.None?
         || r.aeState.value == CONTROL_AE_STATE_PRECAPTURE
         || r.aeState.value == CONTROL_AE_STATE_FLASH_REQUIRED
      then Some(Step(WaitingNonPrecapture, NoSubmission))
      else Some(Step(WaitingPrecapture, NoSubmission))
    case WaitingNonPrecapture =>
      if r.aeState.None? || r.aeState.value != CONTROL_AE_STATE_PRECAPTURE then
        Some(Step(PictureTaken, StillCapture))
      else Some(Step(WaitingNonPrecapture, NoSubmission))
    case PictureTaken => Some(Step(PictureTaken, NoSubmission))
  }

  /**
   * The callback's dispatch: takePicture() locks focus from any state; a
   * completion tagged with the capture key unlocks focus; every other
   * completion and every partial result goes through process().
   */
  function Dispatch(state: CaptureState, e: Event, captureKey: nat): Option<Step> {
    match e
    case TakePicture => Some(Step(WaitingLock, FocusTrigger))
    case Progressed(r) => Process(state, r)
    case Completed(tag, r) =>
      if tag == Some(captureKey) then Some(Step(Idle, UnlockRepeating)) else Process(state, r)
  }

  /** How far a capture flow has got. */
  function Rank(s: CaptureState): nat {
    match s
    case Idle => 0
    case WaitingLock => 1
    case WaitingPrecapture => 2
    case WaitingNonPrecapture => 3
    case PictureTaken => 4
  }

  /** The state and the requests submitted after a sequence of events. */
  datatype Trace = Trace(final: CaptureState, submissions: seq<Submission>)

  /**
   * Dispatching a sequence of events. A NullPointerException leaves the
   * state where it was and submits nothing, so the next event meets the same
   * state.
   */
  function Run(s: CaptureState, es: seq<Event>, captureKey: nat): Trace
    decreases |es|
  {
    if es == [] then Trace(s, [])
    else
      var step := Dispatch(s, es[0], captureKey);
      var t := if step.Some? then step.value.next else s;
      var sent := if step.Some? && step.value.submission != NoSubmission then [step.value.submission] else [];
      var rest := Run(t, es[1..], captureKey);
      Trace(rest.final, sent + rest.submissions)
  }

  /** An event inside a flow: a result, or a completion of some other request. */
  predicate WithinFlow(e: Event, captureKey: nat) {
    e.Progressed? || (e.Completed? && e.tag != Some(captureKey))
  }

  /**
   * The requests a flow can still submit from a state, in order: at most one
   * precapture trigger, and only while waiting for the lock, then at most one
   * still capture.
   */
  function Possible(s: CaptureState): set<seq<Submission>> {
    match s
    case WaitingLock => {[], [PrecaptureTrigger], [StillCapture], [PrecaptureTrigger, StillCapture]}
    case WaitingPrecapture => {[], [StillCapture]}
    case WaitingNonPrecapture => {[], [StillCapture]}
    case Idle => {[]}
    case PictureTaken => {[]}
  }

  /** In Idle and in PictureTaken a result changes nothing and submits nothing. */
  lemma ResultInIdleOrPictureTaken(r: CaptureResult)
    ensures Process(Idle, r) == Some(Step(Idle, NoSubmission))
    ensures Process(PictureTaken, r) == Some(Step(PictureTaken, NoSubmission))
  {
  }

  /**
   * While waiting for the lock: absent afState or afMode throws; otherwise a
   * lock with aeState absent or converged skips the precapture, a lock with
   * any other aeState runs it, and no lock changes nothing.
   */
  lemma WaitingLockCases(r: CaptureResult)
    ensures Process(WaitingLock, r).None? <==> r.afState.None? || r.afMode.None?
    ensures r.afState.Some? && r.afMode.Some? ==>
      var locked := FocusLocked(r.afMode.value, r.afState.value);
      var converged := r.aeState.None? || r.aeState.value == CONTROL_AE_STATE_CONVERGED;
      && (Process(WaitingLock, r).value == Step(WaitingNonPrecapture, NoSubmission) <==> locked && converged)
      && (Process(WaitingLock, r).value == Step(WaitingPrecapture, PrecaptureTrigger) <==> locked && !converged)
      && (Process(WaitingLock, r).value == Step(WaitingLock, NoSubmission) <==> !locked)
  {
  }

  /** Waiting for the precapture: aeState absent, PRECAPTURE or FLASH_REQUIRED moves on; anything else waits. */
  lemma WaitingPrecaptureCases(r: CaptureResult)
    ensures Process(WaitingPrecapture, r).Some?
    ensures Process(WaitingPrecapture, r).value.submission == NoSubmission
    ensures Process(WaitingPrecapture, r).value.next == WaitingNonPrecapture <==>
              r.aeState in {None, Some(CONTROL_AE_STATE_PRECAPTURE), Some(CONTROL_AE_STATE_FLASH_REQUIRED)}
    ensures Process(WaitingPrecapture, r).value.next in {WaitingPrecapture, WaitingNonPrecapture}
  {
  }

  /**
   * Waiting for the precapture to end: aeState absent or other than
   * PRECAPTURE takes the picture with exactly one still request; PRECAPTURE waits.
   */
  lemma WaitingNonPrecaptureCases(r: CaptureResult)
    ensures Process(WaitingNonPrecapture, r).Some?
    ensures Process(WaitingNonPrecapture, r).value == Step(PictureTaken, StillCapture) <==>
              r.aeState != Some(CONTROL_AE_STATE_PRECAPTURE)
    ensures Process(WaitingNonPrecapture, r).value == Step(WaitingNonPrecapture, NoSubmission) <==>
              r.aeState == Some(CONTROL_AE_STATE_PRECAPTURE)
  {
  }

  /** A still request is submitted exactly on the step from WaitingNonPrecapture to PictureTaken. */
  lemma StillCaptureOnlyWhenTakingPicture(s: CaptureState, r: CaptureResult)
    ensures Process(s, r).Some? && Process(s, r).value.submission == StillCapture <==>
              s == WaitingNonPrecapture && Process(s, r) == Some(Step(PictureTaken, StillCapture))
  {
  }

  /** takePicture() has no guard: from every state it locks focus again. */
  lemma TakePictureFromAnyState(s: CaptureState, captureKey: nat)
    ensures Dispatch(s, TakePicture, captureKey) == Some(Step(WaitingLock, FocusTrigger))
  {
  }

  /**
   * A completion routes by its tag alone: the capture key unlocks focus in
   * every state; any other tag, or none, is processed like a result.
   */
  lemma CompletionRouting(s: CaptureState, tag: Option<nat>, r: CaptureResult, captureKey: nat)
    ensures tag == Some(captureKey) ==> Dispatch(s, Completed(tag, r), captureKey) == Some(Step(Idle, UnlockRepeating))
    ensures tag != Some(captureKey) ==> Dispatch(s, Completed(tag, r), captureKey) == Process(s, r)
    ensures Dispatch(s, Progressed(r), captureKey) == Process(s, r)
  {
  }

  /**
   * Results alone never move a flow backwards, and never submit anything a
   * flow could not still submit from where it stands: over any run of them
   * at most one precapture trigger and at most one still request go out, in
   * that order, and none at all from Idle or PictureTaken.
   */
  lemma {:induction false} RunWithinFlow(s: CaptureState, es: seq<Event>, captureKey: nat)
    requires forall i :: 0 <= i < |es| ==> WithinFlow(es[i], captureKey)
    ensures Rank(Run(s, es, captureKey).final) >= Rank(s)
    ensures Run(s, es, captureKey).submissions in Possible(s)
    decreases |es|
  {
    if es != [] {
      var step := Dispatch(s, es[0], captureKey);
      var t := if step.Some? then step.value.next else s;
      var sent := if step.Some? && step.value.submission != NoSubmission then [step.value.submission] else [];
      RunWithinFlow(t, es[1..], captureKey);
      var rest := Run(t, es[1..], captureKey).submissions;
      assert Run(s, es, captureKey).submissions == sent + rest;
      assert step == Process(s, es[0].result);
      if step.Some? && step.value.submission != NoSubmission {
        if s == WaitingLock {
          assert sent == [PrecaptureTrigger] && t == WaitingPrecapture;
          if rest == [] {
            assert sent + rest == [PrecaptureTrigger];
          } else {
            assert rest == [StillCapture];
            assert sent + rest == [PrecaptureTrigger, StillCapture];
          }
        } else {
          assert s == WaitingNonPrecapture && sent == [StillCapture] && t == PictureTaken;
          assert rest == [] && sent + rest == [StillCapture];
        }
      } else {
        assert sent + rest == rest;
      }
    }
  }

  /** Results alone leave Idle and PictureTaken where they are. */
  lemma {:induction false} InertWithinFlow(s: CaptureState, es: seq<Event>, captureKey: nat)
    requires s == Idle || s == PictureTaken
    requires forall i :: 0 <= i < |es| ==> WithinFlow(es[i], captureKey)
    ensures Run(s, es, captureKey) == Trace(s, [])
    decreases |es|
  {
    if es != [] {
      InertWithinFlow(s, es[1..], captureKey);
    }
  }

  /** The absence of aeState never blocks the exposure steps. */
  lemma AbsentExposureProceeds(afMode: int, afState: int)
    requires FocusLocked(afMode, afState)
    ensures Process(WaitingLock, CaptureResult(Some(afMode), Some(afState), None)) ==
              Some(Step(WaitingNonPrecapture, NoSubmission))
    ensures forall m, f :: Process(WaitingPrecapture, CaptureResult(m, f, None)) ==
              Some(Step(WaitingNonPrecapture, NoSubmission))
    ensures forall m, f :: Process(WaitingNonPrecapture, CaptureResult(m, f, None)) ==
              Some(Step(PictureTaken, StillCapture))
  {
  }

  /**
   * The whole flow: takePicture(), a completed result with focus locked and
   * exposure converged (or unknown), a result with exposure not in
   * precapture, and the completion of the still request bring the callback
   * back to Idle after exactly the focus trigger, one still request, and one
   * repeating preview request.
   */
  lemma {:induction false} EndToEnd(locked: CaptureResult, exposed: CaptureResult, done: CaptureResult, captureKey: nat, other: Option<nat>)
    requires locked.afMode.Some? && locked.afState.Some? && FocusLocked(locked.afMode.value, locked.afState.value)
    requires locked.aeState.None? || locked.aeState == Some(CONTROL_AE_STATE_CONVERGED)
    requires exposed.aeState != Some(CONTROL_AE_STATE_PRECAPTURE)
    requires other != Some(captureKey)
    ensures Run(Idle, [TakePicture, Completed(other, locked), Progressed(exposed), Completed(Some(captureKey), done)], captureKey)
            == Trace(Idle, [FocusTrigger, StillCapture, UnlockRepeating])
  {
    var es := [TakePicture, Completed(other, locked), Progressed(exposed), Completed(Some(captureKey), done)];
    assert es[1..] == [Completed(other, locked), Progressed(exposed), Completed(Some(captureKey), done)];
    assert es[1..][1..] == [Progressed(exposed), Completed(Some(captureKey), done)];
    assert es[1..][1..][1..] == [Completed(Some(captureKey), done)];
    assert Run(PictureTaken, [Completed(Some(captureKey), done)], captureKey) == Trace(Idle, [UnlockRepeating]);
    assert Run(WaitingNonPrecapture, es[1..][1..], captureKey) == Trace(Idle, [StillCapture, UnlockRepeating]);
  }

  /**
   * When exposure has not converged at the lock, the flow runs the
   * precapture: exactly one precapture trigger, then a still request once
   * the exposure reports PRECAPTURE (or FLASH_REQUIRED, or nothing) and then
   * anything else.
   */
  lemma {:induction false} FlowWithPrecapture(locked: CaptureResult, started: CaptureResult, finished: CaptureResult, captureKey: nat)
    requires locked.afMode.Some? && locked.afState.Some? && FocusLocked(locked.afMode.value, locked.afState.value)
    requires locked.aeState.Some? && locked.aeState.value != CONTROL_AE_STATE_CONVERGED
    requires started.aeState in {None, Some(CONTROL_AE_STATE_PRECAPTURE), Some(CONTROL_AE_STATE_FLASH_REQUIRED)}
    requires finished.aeState != Some(CONTROL_AE_STATE_PRECAPTURE)
    ensures Run(WaitingLock, [Progressed(locked), Progressed(started), Progressed(finished)], captureKey)
            == Trace(PictureTaken, [PrecaptureTrigger, StillCapture])
  {
    var es := [Progressed(locked), Progressed(started), Progressed(finished)];
    assert es[1..] == [Progressed(started), Progressed(finished)];
    assert es[1..][1..] == [Progressed(finished)];
    assert Run(WaitingNonPrecapture, [Progressed(finished)], captureKey) == Trace(PictureTaken, [StillCapture]);
  }
}
