/**
 * VideoCaptureCallback: the video mode. Its builder and capture targets are
 * the VideoRecord variant of PreviewCallback; what it adds is the current
 * VideoSaver: replacing it closes the old one, and the recording calls
 * delegate to it.
 */
module Video {
  import opened Common
  import opened Camera2
  import opened Preview
  import CameraHelper

  class VideoCaptureCallback {
    const preview: PreviewCallback

    predicate Valid() {
      preview.variant.VideoRecord?
    }

    constructor (hasDevice: bool, targetPreviewSize: CameraHelper.Size)
      ensures Valid() && fresh(preview) && preview.hasDevice == hasDevice && preview.targetPreviewSize == targetPreviewSize
      ensures preview.builder == null && preview.activeSession == None
      ensures preview.videoSaver == None && preview.log == []
    {
      preview := new PreviewCallback(VideoRecord, hasDevice, targetPreviewSize);
    }

    /**
     * setCaptureTarget(t): closes the current saver, once, if there is one,
     * then stores t, which may be null.
     */
    method SetCaptureTarget(t: Option<VideoSaver>)
      modifies preview`videoSaver, preview`log
      ensures preview.videoSaver == t
      ensures preview.log == old(preview.log) +
                (if old(preview.videoSaver).Some? then [SaverClosed(old(preview.videoSaver).value.id)] else [])
    {
      if preview.videoSaver.Some? {
        preview.log := preview.log + [SaverClosed(preview.videoSaver.value.id)];
      }
      preview.videoSaver := t;
    }

    /** setUpMediaRecorder(): delegates once to the current saver (a null saver throws). */
    method SetUpMediaRecorder() returns (o: Outcome)
      modifies preview`log
      ensures o == (if preview.videoSaver.Some? then Ok else NullPointer)
      ensures preview.log == old(preview.log) +
                (if preview.videoSaver.Some? then [RecorderSetUp(preview.videoSaver.value.id)] else [])
    {
      if preview.videoSaver.None? {
        return NullPointer;
      }
      preview.log := preview.log + [RecorderSetUp(preview.videoSaver.value.id)];
      o := Ok;
    }

    /** startRecording(): delegates once to the current saver (a null saver throws). */
    method StartRecording() returns (o: Outcome)
      modifies preview`log
      ensures o == (if preview.videoSaver.Some? then Ok else NullPointer)
      ensures preview.log == old(preview.log) +
                (if preview.videoSaver.Some? then [RecordingStarted(preview.videoSaver.value.id)] else [])
    {
      if preview.videoSaver.None? {
        return NullPointer;
      }
      preview.log := preview.log + [RecordingStarted(preview.videoSaver.value.id)];
      o := Ok;
    }

    /** stopRecording(): delegates once to the current saver (a null saver throws). */
    method StopRecording() returns (o: Outcome)
      modifies preview`log
      ensures o == (if preview.videoSaver.Some? then Ok else NullPointer)
      ensures preview.log == old(preview.log) +
                (if preview.videoSaver.Some? then [RecordingStopped(preview.videoSaver.value.id)] else [])
    {
      if preview.videoSaver.None? {
        return NullPointer;
      }
      preview.log := preview.log + [RecordingStopped(preview.videoSaver.value.id)];
      o := Ok;
    }
  }

  /**
   * The callback's own methods in one recording: a saver is installed and
   * its recorder set up, the preview session starts and configures, the
   * recording starts and stops, and then the session is cancelled twice and
   * the saver replaced by null. The session streams a record-template
   * request aimed at the recorder and then the preview; the recorder is set
   * up, started and stopped once each; the session and the saver are closed
   * exactly once each.
   */
  method RecordingSession(size: CameraHelper.Size, saver: VideoSaver, session: SessionId)
      returns (v: VideoCaptureCallback)
    ensures v.preview.activeSession == None && v.preview.videoSaver == None
    ensures v.preview.log ==
              [ RecorderSetUp(saver.id),
                BufferSizeSet(size.width as int, size.height as int),
                SessionRequested([PreviewSurface, RecorderSurface(saver.id)]),
                Submitted(session, Repeating(false),
                          Request(TemplateRecord, map[ControlMode := CONTROL_MODE_AUTO],
                                  [RecorderSurface(saver.id), PreviewSurface], None)),
                RecordingStarted(saver.id),
                RecordingStopped(saver.id),
                SessionClosed(session),
                SaverClosed(saver.id) ]
  {
    v := new VideoCaptureCallback(true, size);
    v.SetCaptureTarget(Some(saver));
    var o := v.SetUpMediaRecorder();
    var pending;
    o, pending := v.preview.StartPreviewSession(false);
    assert PreviewCallback.BaseCaptureTargets() + [RecorderSurface(saver.id)] == [PreviewSurface, RecorderSurface(saver.id)];
    o := v.preview.OnConfigured(session, pending, false);
    o := v.StartRecording();
    o := v.StopRecording();
    v.preview.CancelActiveCaptureSession();
    v.preview.CancelActiveCaptureSession();
    v.SetCaptureTarget(None);
  }
}
