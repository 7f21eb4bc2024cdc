/**
 * What the capture sequencer does across several callbacks: which sessions a
 * take-picture click opens, what the still request carries in each flash
 * mode, and one complete run from opening the camera to the picture-complete
 * message.
 */
module CaptureSequence {
  import opened Wrappers
  import opened Orientation
  import opened CaptureRequests
  import opened Activity

  /** The sessions created in a log, in order. */
  function SessionsCreated(log: seq<Action>): seq<Session> {
    if log == [] then []
    else
      var rest := SessionsCreated(log[1..]);
      match log[0]
      case CreateSession(s, _) => [s] + rest
      case _ => rest
  }

  /**
   * takeStillPicture submits no request itself. Without a device it creates no
   * session; otherwise FlashOn creates only the precapture session and
   * FlashOff and FlashTorch only the still session.
   */
  lemma TakeStillPictureDispatch(cameraOpen: bool, mode: FlashMode, now: int)
    ensures var acts := TakeStillPictureActions(cameraOpen, mode, now);
      (forall s :: Captures(acts, s) == []) &&
      SessionsCreated(acts) ==
        if !cameraOpen || mode == Unset then []
        else if UsesPrecapture(mode) then [PrecaptureSession]
        else [StillSession]
  {
    var acts := TakeStillPictureActions(cameraOpen, mode, now);
    forall s ensures Captures(acts, s) == [] {
      CapturesNone(acts, s);
    }
    if cameraOpen && mode in {FlashOff, FlashTorch} {
      assert acts[1..][1..] == [];
      assert SessionsCreated(acts[1..]) == [StillSession];
    }
  }

  /**
   * The settings of the still request capture() submits on a fresh still
   * builder: FlashOff has the flash off and auto-exposure on, FlashTorch the
   * torch, and FlashOn nothing but the orientation — the always-flash
   * auto-exposure mode goes only into the precapture request.
   */
  lemma StillCaptureSettings(mode: FlashMode, degrees: int)
    ensures var r := StillCaptureRequest(StillRequest(), mode, degrees);
      r.template == TemplateStillCapture && r.targets == StillOutputs &&
      r.settings == match mode
        case FlashOff => map[FlashModeKey := FlashModeOff, AeModeKey := AeModeOn, JpegOrientationKey := Degrees(degrees)]
        case FlashTorch => map[FlashModeKey := FlashModeTorch, JpegOrientationKey := Degrees(degrees)]
        case _ => map[JpegOrientationKey := Degrees(degrees)]
  {
  }

  /**
   * One picture from start to end: the texture appears, the camera opens,
   * the preview is configured, a menu entry picks the flash mode, the preview
   * is configured again, the button is clicked twice, the sessions report
   * configured, and the picture-complete message arrives. Exactly one still
   * request is submitted, carrying the mode's flash settings and the JPEG
   * orientation; a precapture request only in FlashOn; the button is enabled
   * again at the end.
   */
  method TakePictureRun(item: MenuItem, lookup: Option<Characteristics>, systemRotation: int, now: int)
    returns (log: seq<Action>, buttonEnabled: bool)
    requires SelectedMode(item).Some? && IsRotationIndex(systemRotation)
    ensures Captures(log, StillSession) ==
      [StillCaptureRequest(StillRequest(), SelectedMode(item).value, JpegOrientation(lookup, systemRotation))]
    ensures Captures(log, PrecaptureSession) ==
      if item == FlashOnItem then [SetAll(PrecaptureRequest(), PrecaptureWrites())] else []
    ensures buttonEnabled
  {
    var a := OpenWithMode(item);
    ClickUntilStillSession(a, now);
    StillUntilComplete(a, lookup, systemRotation);
    log, buttonEnabled := a.log, a.buttonEnabled;
  }

  /**
   * The still session's onConfigured on the fresh still builder, then the
   * picture-complete message: one still request is added to the log, no
   * precapture request, and the button is enabled again.
   */
  method StillUntilComplete(a: MainActivity, lookup: Option<Characteristics>, systemRotation: int)
    requires a.Valid() && a.cameraOpen && a.builder == StillRequest() && IsRotationIndex(systemRotation)
    requires SessionConfigured(StillSession) in a.pending
    modifies a
    ensures Captures(a.log, StillSession) ==
      old(Captures(a.log, StillSession)) + [StillCaptureRequest(StillRequest(), a.flashMode, JpegOrientation(lookup, systemRotation))]
    ensures Captures(a.log, PrecaptureSession) == old(Captures(a.log, PrecaptureSession))
    ensures a.flashMode == old(a.flashMode) && a.buttonEnabled
  {
    ghost var beforeStill := a.log;
    a.OnStillSessionConfigured(lookup, systemRotation);
    assert JpegReaderSurface(ImageWidth, ImageHeight) in a.builder.targets;
    CapturesAppend(beforeStill, [Capture(StillSession, a.builder)], StillSession);
    CapturesAppend(beforeStill, [Capture(StillSession, a.builder)], PrecaptureSession);
    ghost var afterStill := a.log;
    a.OnPictureComplete();
    CapturesAppend(afterStill, [CreateSession(PreviewSession, PreviewOutputs)], StillSession);
    CapturesAppend(afterStill, [CreateSession(PreviewSession, PreviewOutputs)], PrecaptureSession);
  }

  /**
   * Two clicks, the second while the first capture is in flight, and for
   * FlashOn the precapture session's callback: the still session has been
   * requested and its builder is the fresh still builder.
   */
  method ClickUntilStillSession(a: MainActivity, now: int)
    requires a.Valid() && a.cameraOpen && a.flashMode != Unset && !a.takingPicture
    requires Captures(a.log, StillSession) == [] && Captures(a.log, PrecaptureSession) == []
    modifies a
    ensures a.Valid() && a.cameraOpen && a.flashMode == old(a.flashMode) && a.takingPicture
    ensures a.builder == StillRequest() && SessionConfigured(StillSession) in a.pending
    ensures Captures(a.log, StillSession) == []
    ensures Captures(a.log, PrecaptureSession) ==
      if a.flashMode == FlashOn then [SetAll(PrecaptureRequest(), PrecaptureWrites())] else []
  {
    var mode := a.flashMode;
    ghost var beforeClick := a.log;
    a.OnClickTakePicture(now);
    a.OnClickTakePicture(now + 1);
    TakeStillPictureDispatch(true, mode, now);
    CapturesAppend(beforeClick, TakeStillPictureActions(true, mode, now), StillSession);
    CapturesAppend(beforeClick, TakeStillPictureActions(true, mode, now), PrecaptureSession);
    if mode == FlashOn {
      PrecaptureCallback(a, now);
    }
  }

  /**
   * The precapture session's onConfigured after a FlashOn click: the single
   * precapture request is submitted, no still request, and the still session
   * is requested on the fresh still builder.
   */
  method PrecaptureCallback(a: MainActivity, now: int)
    requires a.Valid() && a.takingPicture && a.builder == PrecaptureRequest()
    requires SessionConfigured(PrecaptureSession) in a.pending
    modifies a
    ensures a.Valid() && a.takingPicture && a.builder == StillRequest()
    ensures a.cameraOpen == old(a.cameraOpen) && a.flashMode == old(a.flashMode)
    ensures SessionConfigured(StillSession) in a.pending
    ensures Captures(a.log, StillSession) == old(Captures(a.log, StillSession))
    ensures Captures(a.log, PrecaptureSession) ==
      old(Captures(a.log, PrecaptureSession)) + [SetAll(PrecaptureRequest(), PrecaptureWrites())]
  {
    ghost var afterClick := a.log;
    ghost var precapture := [Capture(PrecaptureSession, SetAll(PrecaptureRequest(), PrecaptureWrites()))];
    a.OnPrecaptureSessionConfigured(now);
    assert a.log == afterClick + (precapture + StillCaptureSetup(now));
    CapturesAppend(afterClick, precapture + StillCaptureSetup(now), StillSession);
    CapturesAppend(afterClick, precapture + StillCaptureSetup(now), PrecaptureSession);
    CapturesAppend(precapture, StillCaptureSetup(now), StillSession);
    CapturesAppend(precapture, StillCaptureSetup(now), PrecaptureSession);
    CapturesNone(StillCaptureSetup(now), StillSession);
    CapturesNone(StillCaptureSetup(now), PrecaptureSession);
  }

  /**
   * The run up to the first menu pick: the texture appears, the camera opens
   * in FlashOff, and the preview session is configured with its repeating
   * request.
   */
  method OpenCameraRun() returns (a: MainActivity)
    ensures fresh(a) && a.Valid()
    ensures a.cameraOpen && a.flashMode == FlashOff && !a.takingPicture
    ensures a.log == [OpenDevice, CreateSession(PreviewSession, PreviewOutputs),
      SetRepeatingRequest(PreviewSession, SetAll(PreviewRequest(), PreviewFlashWrites(FlashOff)))]
  {
    a := new MainActivity();
    a.OnSurfaceTextureAvailable();
    a.OnOpened();
    a.OnPreviewSessionConfigured();
  }

  /**
   * The run up to the click: the camera opens, the menu entry picks the mode
   * and the rebuilt preview is configured. Nothing has been captured yet.
   */
  method OpenWithMode(item: MenuItem) returns (a: MainActivity)
    requires SelectedMode(item).Some?
    ensures fresh(a) && a.Valid()
    ensures a.cameraOpen && a.flashMode == SelectedMode(item).value && !a.takingPicture
    ensures Captures(a.log, StillSession) == [] && Captures(a.log, PrecaptureSession) == []
  {
    a := OpenCameraRun();
    SelectFlashMode(a, item);
    CapturesNone(a.log, StillSession);
    CapturesNone(a.log, PrecaptureSession);
  }

  /**
   * The builder is shared: a flash entry picked after the still session has
   * been created and before its onConfigured (for FlashOn, after the
   * precapture callback) replaces the still builder with a preview builder, so
   * capture() submits a preview-template request with the picked mode's
   * capture settings whose only target is the preview surface, with no
   * JPEG reader target. The capture stays in flight.
   */
  method MenuDuringCapture(start: MenuItem, picked: MenuItem, lookup: Option<Characteristics>, systemRotation: int, now: int)
    returns (log: seq<Action>, takingPicture: bool)
    requires SelectedMode(start).Some? && SelectedMode(picked).Some? && IsRotationIndex(systemRotation)
    ensures Captures(log, StillSession) ==
      [StillCaptureRequest(PreviewRequest(), SelectedMode(picked).value, JpegOrientation(lookup, systemRotation))]
    ensures Captures(log, StillSession)[0].targets == PreviewOutputs
    ensures takingPicture
  {
    var a := OpenWithMode(start);
    ClickUntilStillSession(a, now);
    ghost var beforeMenu := a.log;
    var consumed := a.OnOptionsItemSelected(picked);
    CapturesNone([CreateSession(PreviewSession, PreviewOutputs)], StillSession);
    CapturesAppend(beforeMenu, [CreateSession(PreviewSession, PreviewOutputs)], StillSession);
    ghost var beforeStill := a.log;
    a.OnStillSessionConfigured(lookup, systemRotation);
    CapturesAppend(beforeStill, [Capture(StillSession, a.builder)], StillSession);
    log, takingPicture := a.log, a.takingPicture;
  }

  /**
   * A flash entry picked on an open camera, followed by the rebuilt preview
   * session's onConfigured: the repeating request is a fresh preview request
   * carrying the picked mode's preview flash settings, and the capture guard
   * is untouched.
   */
  method SelectFlashMode(a: MainActivity, item: MenuItem)
    requires a.Valid() && a.cameraOpen && SelectedMode(item).Some?
    modifies a
    ensures a.Valid() && a.cameraOpen && a.flashMode == SelectedMode(item).value
    ensures a.takingPicture == old(a.takingPicture)
    ensures a.log == old(a.log) + [CreateSession(PreviewSession, PreviewOutputs),
      SetRepeatingRequest(PreviewSession, SetAll(PreviewRequest(), PreviewFlashWrites(SelectedMode(item).value)))]
  {
    var consumed := a.OnOptionsItemSelected(item);
    a.OnPreviewSessionConfigured();
  }
}
