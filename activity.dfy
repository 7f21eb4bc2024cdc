/**
 * The capture sequencer of MainActivity. Camera-framework calls are recorded
 * in an action log; the framework's callbacks (onOpened, each session's
 * onConfigured, the picture-complete message) are methods of their own, since
 * the framework decides when they run.
 */
module Activity {
  import opened Wrappers
  import opened Orientation
  import opened ImageName
  import opened CaptureRequests

  /** Size of the JPEG ImageReader of every still capture. */
  const ImageWidth := 1920
  const ImageHeight := 1080

  /** Which createCaptureSession call a session callback or a submitted request belongs to. */
  datatype Session = PreviewSession | PrecaptureSession | StillSession

  /** A call into the camera framework, in the order the activity issues it. */
  datatype Action =
    | OpenDevice                                        // CameraManager.openCamera
    | CloseDevice                                       // CameraDevice.close
    | CreateSession(session: Session, outputs: seq<Surface>)
    | SetRepeatingRequest(session: Session, request: Request)
    | Capture(session: Session, request: Request)
    | SetImageListener(fileName: string)                // the JPEG reader's listener, saving to this file

  /** The entries of the options menu; OtherItem is anything the activity does not handle. */
  datatype MenuItem = FlashOffItem | FlashOnItem | FlashTorchItem | OtherItem

  const PreviewOutputs: seq<Surface> := [PreviewSurface]
  const StillOutputs: seq<Surface> := [PreviewSurface, JpegReaderSurface(ImageWidth, ImageHeight)]

  /** The builder createCameraPreview makes. */
  function PreviewRequest(): Request {
    Request(TemplatePreview, PreviewOutputs, map[])
  }

  /** The builder createCameraStillCapture makes. */
  function StillRequest(): Request {
    Request(TemplateStillCapture, StillOutputs, map[])
  }

  /** The builder precaptureTrigger makes. */
  function PrecaptureRequest(): Request {
    Request(TemplateZeroShutterLag, PreviewOutputs, map[])
  }

  /** The calls createCameraStillCapture issues for a capture started at `now` milliseconds. */
  function StillCaptureSetup(now: int): seq<Action> {
    [SetImageListener(ImageFileName(now, ImageWidth, ImageHeight)), CreateSession(StillSession, StillOutputs)]
  }

  /** The calls takeStillPicture issues: nothing without a device, else the mode's path. */
  function TakeStillPictureActions(cameraOpen: bool, mode: FlashMode, now: int): seq<Action> {
    if !cameraOpen then []
    else match mode
      case FlashOn => [CreateSession(PrecaptureSession, PreviewOutputs)]
      case FlashOff => StillCaptureSetup(now)
      case FlashTorch => StillCaptureSetup(now)
      case Unset => []
  }

  /** The builder takeStillPicture leaves behind. */
  function TakeStillPictureBuilder(builder: Request, cameraOpen: bool, mode: FlashMode): Request {
    if !cameraOpen then builder
    else match mode
      case FlashOn => PrecaptureRequest()
      case FlashOff => StillRequest()
      case FlashTorch => StillRequest()
      case Unset => builder
  }

  /** capture(): the flash settings for the mode, then the JPEG orientation. */
  function StillCaptureRequest(builder: Request, mode: FlashMode, degrees: int): Request {
    var r := SetAll(builder, CaptureFlashWrites(mode));
    r.(settings := r.settings[JpegOrientationKey := Degrees(degrees)])
  }

  /** The flash mode a menu entry selects, if it is one of the three. */
  function SelectedMode(item: MenuItem): Option<FlashMode> {
    match item
    case FlashOffItem => Some(FlashOff)
    case FlashOnItem => Some(FlashOn)
    case FlashTorchItem => Some(FlashTorch)
    case OtherItem => None
  }

  /** The requests submitted with capture() to the given session, in order. */
  function Captures(log: seq<Action>, session: Session): seq<Request> {
    if log == [] then []
    else
      var rest := Captures(log[1..], session);
      match log[0]
      case Capture(s, r) => if s == session then [r] + rest else rest
      case _ => rest
  }

  /** Capture requests of a log split at any point are those of the two parts. */
  lemma {:induction false} CapturesAppend(a: seq<Action>, b: seq<Action>, session: Session)
    ensures Captures(a + b, session) == Captures(a, session) + Captures(b, session)
  {
    if a != [] {
      assert (a + b)[0] == a[0];
      assert (a + b)[1..] == a[1..] + b;
      CapturesAppend(a[1..], b, session);
    } else {
      assert a + b == b;
    }
  }

  /** A log without capture() calls submits no request to any session. */
  lemma {:induction false} CapturesNone(log: seq<Action>, session: Session)
    requires forall i :: 0 <= i < |log| ==> !log[i].Capture?
    ensures Captures(log, session) == []
  {
    if log != [] {
      CapturesNone(log[1..], session);
    }
  }

  /** The still requests after position `mark` grow by those of what is appended. */
  lemma StillsAfterAppend(log: seq<Action>, mark: nat, acts: seq<Action>)
    requires mark <= |log|
    ensures |Captures((log + acts)[mark..], StillSession)| ==
      |Captures(log[mark..], StillSession)| + |Captures(acts, StillSession)|
  {
    assert (log + acts)[mark..] == log[mark..] + acts;
    CapturesAppend(log[mark..], acts, StillSession);
  }

  /**
   * A callback the activity is still owed: the device's onOpened, a session's
   * onConfigured, or the TAKEPICTURE_COMPLETED message the JPEG reader's
   * listener posts once an image has arrived.
   */
  datatype Callback = DeviceOpened | SessionConfigured(session: Session) | PictureCompleted

  /** The session callbacks takeStillPicture leaves owed. */
  function TakeStillPictureOwes(cameraOpen: bool, mode: FlashMode): multiset<Callback> {
    if !cameraOpen then multiset{}
    else match mode
      case FlashOn => multiset{SessionConfigured(PrecaptureSession)}
      case FlashOff => multiset{SessionConfigured(StillSession)}
      case FlashTorch => multiset{SessionConfigured(StillSession)}
      case Unset => multiset{}
  }

  /** takeStillPicture leaves one precapture or still session owed when it does anything, and no picture. */
  lemma TakeStillPictureOwesOne(cameraOpen: bool, mode: FlashMode)
    ensures var owed := TakeStillPictureOwes(cameraOpen, mode);
      owed[SessionConfigured(PrecaptureSession)] + owed[SessionConfigured(StillSession)] ==
        (if cameraOpen && mode != Unset then 1 else 0) &&
      owed[PictureCompleted] == 0
  {
  }

  /**
   * A still request yields an image, and with it the picture-complete
   * message, only when it targets the JPEG reader.
   */
  function CaptureOwes(request: Request): multiset<Callback> {
    if JpegReaderSurface(ImageWidth, ImageHeight) in request.targets then multiset{PictureCompleted} else multiset{}
  }

  /** The preview session callback createCameraPreview leaves owed. */
  function PreviewOwes(cameraOpen: bool): multiset<Callback> {
    if cameraOpen then multiset{SessionConfigured(PreviewSession)} else multiset{}
  }

  class MainActivity {
    var flashMode: FlashMode       // mFlashMode
    var takingPicture: bool        // mTakingPicture
    var buttonEnabled: bool        // the take-picture button's enabled state
    var suspending: bool           // mSuspending
    var cameraOpen: bool           // mCameraDevice != null
    var builder: Request           // mCaptureRequestBuilder
    var log: seq<Action>           // the camera-framework calls issued so far
    ghost var pending: multiset<Callback>   // callbacks issued calls still owe
    ghost var clickMark: nat                // length of the log at the last accepted click

    /** The still requests submitted since the last accepted click. */
    ghost function StillsSinceClick(): nat
      reads this
      requires clickMark <= |log|
    {
      |Captures(log[clickMark..], StillSession)|
    }

    /**
     * The button is disabled exactly while a capture is in flight, and an open
     * camera always has one of the three flash modes. While a capture is in
     * flight, the still requests submitted since its click and the precapture
     * and still sessions still owed come to at most one, and a picture-complete
     * message is owed only for a still request already submitted; otherwise no
     * such session or message is owed.
     */
    ghost predicate Valid()
      reads this
    {
      (takingPicture <==> !buttonEnabled) &&
      (cameraOpen ==> flashMode != Unset) &&
      clickMark <= |log| &&
      (takingPicture ==>
        pending[SessionConfigured(PrecaptureSession)] + pending[SessionConfigured(StillSession)] + StillsSinceClick() <= 1 &&
        pending[PictureCompleted] <= StillsSinceClick()) &&
      (!takingPicture ==>
        pending[SessionConfigured(PrecaptureSession)] == 0 && pending[SessionConfigured(StillSession)] == 0 &&
        pending[PictureCompleted] == 0)
    }

    constructor ()
      ensures Valid()
      ensures flashMode == Unset && !takingPicture && buttonEnabled && !suspending && !cameraOpen
      ensures log == [] && pending == multiset{}
    {
      flashMode := Unset;
      takingPicture := false;
      buttonEnabled := true;
      suspending := false;
      cameraOpen := false;
      builder := NewRequest(TemplatePreview);
      log := [];
      pending := multiset{};
      clickMark := 0;
    }

    /** openCamera: asks the camera manager to open the device; onOpened follows. */
    method OpenCamera()
      requires Valid()
      modifies this`log, this`pending
      ensures Valid()
      ensures log == old(log) + [OpenDevice]
      ensures pending == old(pending) + multiset{DeviceOpened}
    {
      StillsAfterAppend(log, clickMark, [OpenDevice]);
      log := log + [OpenDevice];
      pending := pending + multiset{DeviceOpened};
    }

    /** The TextureView's onSurfaceTextureAvailable: opens the camera. */
    method OnSurfaceTextureAvailable()
      requires Valid()
      modifies this`log, this`pending
      ensures Valid()
      ensures log == old(log) + [OpenDevice]
      ensures pending == old(pending) + multiset{DeviceOpened}
    {
      OpenCamera();
    }

    /** The device's onOpened callback: the flash mode starts over at FlashOff and a preview is built. */
    method OnOpened()
      requires Valid() && DeviceOpened in pending
      modifies this`cameraOpen, this`flashMode, this`builder, this`log, this`pending
      ensures Valid()
      ensures cameraOpen && flashMode == FlashOff
      ensures builder == PreviewRequest()
      ensures log == old(log) + [CreateSession(PreviewSession, PreviewOutputs)]
      ensures pending == old(pending) - multiset{DeviceOpened} + multiset{SessionConfigured(PreviewSession)}
    {
      pending := pending - multiset{DeviceOpened};
      cameraOpen := true;
      flashMode := FlashOff;
      CreateCameraPreview();
    }

    /** createCameraPreview: without a device it does nothing; else a fresh preview builder and session. */
    method CreateCameraPreview()
      requires Valid()
      modifies this`builder, this`log, this`pending
      ensures Valid()
      ensures builder == if cameraOpen then PreviewRequest() else old(builder)
      ensures log == old(log) + if cameraOpen then [CreateSession(PreviewSession, PreviewOutputs)] else []
      ensures pending == old(pending) + PreviewOwes(cameraOpen)
    {
      if !cameraOpen {
        return;
      }
      builder := PreviewRequest();
      StillsAfterAppend(log, clickMark, [CreateSession(PreviewSession, PreviewOutputs)]);
      log := log + [CreateSession(PreviewSession, PreviewOutputs)];
      pending := pending + multiset{SessionConfigured(PreviewSession)};
    }

    /** The preview session's onConfigured: ignored once the device is gone, else updatePreview. */
    method OnPreviewSessionConfigured()
      requires Valid() && SessionConfigured(PreviewSession) in pending
      modifies this`builder, this`log, this`pending
      ensures Valid()
      ensures builder == if cameraOpen then SetAll(old(builder), PreviewFlashWrites(flashMode)) else old(builder)
      ensures log == old(log) + if cameraOpen then [SetRepeatingRequest(PreviewSession, builder)] else []
      ensures pending == old(pending) - multiset{SessionConfigured(PreviewSession)}
    {
      pending := pending - multiset{SessionConfigured(PreviewSession)};
      if !cameraOpen {
        return;
      }
      UpdatePreview();
    }

    /** updatePreview: the preview flash settings, then the repeating preview request. */
    method UpdatePreview()
      requires Valid()
      modifies this`builder, this`log
      ensures Valid()
      ensures builder == SetAll(old(builder), PreviewFlashWrites(flashMode))
      ensures log == old(log) + [SetRepeatingRequest(PreviewSession, builder)]
    {
      SetPreviewFlashMode();
      StillsAfterAppend(log, clickMark, [SetRepeatingRequest(PreviewSession, builder)]);
      log := log + [SetRepeatingRequest(PreviewSession, builder)];
    }

    /** setPreviewFlashMode: writes the mode's preview keys into the shared builder. */
    method SetPreviewFlashMode()
      modifies this`builder
      ensures builder == SetAll(old(builder), PreviewFlashWrites(flashMode))
    {
      match flashMode {
        case FlashOff =>
          builder := builder.(settings := builder.settings[FlashModeKey := FlashModeOff]);
        case FlashTorch =>
          builder := builder.(settings := builder.settings[FlashModeKey := FlashModeTorch]);
        case FlashOn =>
          builder := builder.(settings := builder.settings[AePrecaptureTriggerKey := AePrecaptureTriggerIdle]);
        case Unset =>
      }
    }

    /** setCaptureFlashMode: writes the mode's capture keys into the shared builder. */
    method SetCaptureFlashMode()
      modifies this`builder
      ensures builder == SetAll(old(builder), CaptureFlashWrites(flashMode))
    {
      match flashMode {
        case FlashOff =>
          builder := builder.(settings := builder.settings[FlashModeKey := FlashModeOff]);
          builder := builder.(settings := builder.settings[AeModeKey := AeModeOn]);
        case FlashTorch =>
          builder := builder.(settings := builder.settings[FlashModeKey := FlashModeTorch]);
        case FlashOn =>
        case Unset =>
      }
    }

    /**
     * onClickTakePicture: starts a capture unless one is in flight, and
     * disables the button. With an open camera exactly one precapture or
     * still session is then owed, and no still request has been submitted
     * since the click.
     */
    method OnClickTakePicture(now: int)
      requires Valid()
      modifies this`takingPicture, this`buttonEnabled, this`builder, this`log, this`pending, this`clickMark
      ensures Valid()
      ensures old(takingPicture) ==> unchanged(this)
      ensures !old(takingPicture) ==>
        takingPicture && !buttonEnabled &&
        builder == TakeStillPictureBuilder(old(builder), cameraOpen, flashMode) &&
        log == old(log) + TakeStillPictureActions(cameraOpen, flashMode, now) &&
        pending == old(pending) + TakeStillPictureOwes(cameraOpen, flashMode) &&
        StillsSinceClick() == 0
      ensures !old(takingPicture) && cameraOpen ==>
        pending[SessionConfigured(PrecaptureSession)] + pending[SessionConfigured(StillSession)] == 1
    {
      if !takingPicture {
        takingPicture := true;
        clickMark := |log|;
        ghost var before := log;
        ghost var acts := TakeStillPictureActions(cameraOpen, flashMode, now);
        TakeStillPictureOwesOne(cameraOpen, flashMode);
        TakeStillPicture(now);
        CapturesNone(acts, StillSession);
        StillsAfterAppend(before, clickMark, acts);
        assert before[clickMark..] == [];
        buttonEnabled := false;
      }
    }

    /** takeStillPicture: FlashOn goes through the precapture trigger, FlashOff and FlashTorch straight to the still capture. */
    method TakeStillPicture(now: int)
      modifies this`builder, this`log, this`pending
      ensures builder == TakeStillPictureBuilder(old(builder), cameraOpen, flashMode)
      ensures log == old(log) + TakeStillPictureActions(cameraOpen, flashMode, now)
      ensures pending == old(pending) + TakeStillPictureOwes(cameraOpen, flashMode)
    {
      if !cameraOpen {
        return;
      }
      match flashMode {
        case FlashOn =>
          PrecaptureTrigger();
        case FlashOff =>
          CreateCameraStillCapture(now);
        case FlashTorch =>
          CreateCameraStillCapture(now);
        case Unset =>
      }
    }

    /** createCameraStillCapture: a still builder on both outputs, the JPEG listener for the file, the session. */
    method CreateCameraStillCapture(now: int)
      modifies this`builder, this`log, this`pending
      ensures builder == StillRequest()
      ensures log == old(log) + StillCaptureSetup(now)
      ensures pending == old(pending) + multiset{SessionConfigured(StillSession)}
    {
      builder := NewRequest(TemplateStillCapture);
      builder := AddTarget(builder, PreviewSurface);
      builder := AddTarget(builder, JpegReaderSurface(ImageWidth, ImageHeight));
      var fileName := ImageFileName(now, ImageWidth, ImageHeight);
      log := log + [SetImageListener(fileName)];
      log := log + [CreateSession(StillSession, StillOutputs)];
      pending := pending + multiset{SessionConfigured(StillSession)};
    }

    /** precaptureTrigger: a zero-shutter-lag builder on the preview surface and its session. */
    method PrecaptureTrigger()
      modifies this`builder, this`log, this`pending
      ensures builder == PrecaptureRequest()
      ensures log == old(log) + [CreateSession(PrecaptureSession, PreviewOutputs)]
      ensures pending == old(pending) + multiset{SessionConfigured(PrecaptureSession)}
    {
      builder := AddTarget(NewRequest(TemplateZeroShutterLag), PreviewSurface);
      log := log + [CreateSession(PrecaptureSession, PreviewOutputs)];
      pending := pending + multiset{SessionConfigured(PrecaptureSession)};
    }

    /**
     * The precapture session's onConfigured: always-flash auto-exposure, the
     * trigger started and auto control written into the shared builder, one
     * capture, then the still capture without waiting for its result.
     */
    method OnPrecaptureSessionConfigured(now: int)
      requires Valid() && SessionConfigured(PrecaptureSession) in pending
      modifies this`builder, this`log, this`pending
      ensures Valid()
      ensures builder == StillRequest()
      ensures log == old(log) + [Capture(PrecaptureSession, SetAll(old(builder), PrecaptureWrites()))] + StillCaptureSetup(now)
      ensures pending == old(pending) - multiset{SessionConfigured(PrecaptureSession)} + multiset{SessionConfigured(StillSession)}
    {
      pending := pending - multiset{SessionConfigured(PrecaptureSession)};
      PrecaptureWritesInOrder(builder);
      builder := builder.(settings := builder.settings[AeModeKey := AeModeOnAlwaysFlash]);
      builder := builder.(settings := builder.settings[AePrecaptureTriggerKey := AePrecaptureTriggerStart]);
      builder := builder.(settings := builder.settings[ControlModeKey := ControlModeAuto]);
      ghost var before := log;
      ghost var precapture := [Capture(PrecaptureSession, builder)];
      log := log + [Capture(PrecaptureSession, builder)];
      CreateCameraStillCapture(now);
      assert log == before + (precapture + StillCaptureSetup(now));
      CapturesAppend(precapture, StillCaptureSetup(now), StillSession);
      CapturesNone(StillCaptureSetup(now), StillSession);
      StillsAfterAppend(before, clickMark, precapture + StillCaptureSetup(now));
    }

    /** The still session's onConfigured: capture(). */
    method OnStillSessionConfigured(lookup: Option<Characteristics>, systemRotation: int)
      requires Valid() && SessionConfigured(StillSession) in pending && IsRotationIndex(systemRotation)
      modifies this`builder, this`log, this`pending
      ensures Valid()
      ensures builder == StillCaptureRequest(old(builder), flashMode, JpegOrientation(lookup, systemRotation))
      ensures log == old(log) + [Capture(StillSession, builder)]
      ensures pending == old(pending) - multiset{SessionConfigured(StillSession)} + CaptureOwes(builder)
      ensures StillsSinceClick() == old(StillsSinceClick()) + 1
    {
      pending := pending - multiset{SessionConfigured(StillSession)};
      ghost var before := log;
      CaptureStill(lookup, systemRotation);
      StillsAfterAppend(before, clickMark, [Capture(StillSession, builder)]);
    }

    /**
     * capture(): the capture flash settings and the JPEG orientation for the
     * given characteristics lookup and display rotation, then one capture.
     */
    method CaptureStill(lookup: Option<Characteristics>, systemRotation: int)
      requires IsRotationIndex(systemRotation)
      modifies this`builder, this`log, this`pending
      ensures builder == StillCaptureRequest(old(builder), flashMode, JpegOrientation(lookup, systemRotation))
      ensures log == old(log) + [Capture(StillSession, builder)]
      ensures pending == old(pending) + CaptureOwes(builder)
    {
      SetCaptureFlashMode();
      var degrees := JpegOrientation(lookup, systemRotation);
      builder := builder.(settings := builder.settings[JpegOrientationKey := Degrees(degrees)]);
      log := log + [Capture(StillSession, builder)];
      pending := pending + CaptureOwes(builder);
    }

    /**
     * onPictureComplete: the preview comes back, then the button and the guard
     * are released. The capture it ends had exactly one still request since
     * its click.
     */
    method OnPictureComplete()
      requires Valid() && PictureCompleted in pending
      modifies this`takingPicture, this`buttonEnabled, this`builder, this`log, this`pending
      ensures Valid()
      ensures !takingPicture && buttonEnabled
      ensures builder == if cameraOpen then PreviewRequest() else old(builder)
      ensures log == old(log) + if cameraOpen then [CreateSession(PreviewSession, PreviewOutputs)] else []
      ensures pending == old(pending) - multiset{PictureCompleted} + PreviewOwes(cameraOpen)
      ensures old(takingPicture) && old(StillsSinceClick()) == 1
    {
      pending := pending - multiset{PictureCompleted};
      CreateCameraPreview();
      buttonEnabled := true;
      takingPicture := false;
    }

    /** onOptionsItemSelected: a flash entry sets the mode and rebuilds the preview; others are not consumed. */
    method OnOptionsItemSelected(item: MenuItem) returns (consumed: bool)
      requires Valid()
      modifies this`flashMode, this`builder, this`log, this`pending
      ensures Valid()
      ensures consumed == SelectedMode(item).Some?
      ensures !consumed ==> unchanged(this)
      ensures consumed ==>
        flashMode == SelectedMode(item).value &&
        builder == (if cameraOpen then PreviewRequest() else old(builder)) &&
        log == old(log) + (if cameraOpen then [CreateSession(PreviewSession, PreviewOutputs)] else []) &&
        pending == old(pending) + PreviewOwes(cameraOpen)
    {
      match item {
        case FlashOffItem =>
          flashMode := FlashOff;
        case FlashOnItem =>
          flashMode := FlashOn;
        case FlashTorchItem =>
          flashMode := FlashTorch;
        case OtherItem =>
          return false;
      }
      CreateCameraPreview();
      return true;
    }

    /** closeCamera: closes the device if there is one. */
    method CloseCamera()
      requires Valid()
      modifies this`cameraOpen, this`log
      ensures Valid()
      ensures !cameraOpen
      ensures log == old(log) + if old(cameraOpen) then [CloseDevice] else []
    {
      if cameraOpen {
        StillsAfterAppend(log, clickMark, [CloseDevice]);
        log := log + [CloseDevice];
        cameraOpen := false;
      }
    }

    /** onResume: reopens the camera only after a pause, and is no longer suspending. */
    method OnResume()
      requires Valid()
      modifies this`suspending, this`log, this`pending
      ensures Valid()
      ensures !suspending
      ensures log == old(log) + if old(suspending) then [OpenDevice] else []
      ensures pending == old(pending) + if old(suspending) then multiset{DeviceOpened} else multiset{}
    {
      if suspending {
        OpenCamera();
      }
      suspending := false;
    }

    /** onPause: closes the camera and remembers the suspension. */
    method OnPause()
      requires Valid()
      modifies this`cameraOpen, this`suspending, this`log
      ensures Valid()
      ensures suspending && !cameraOpen
      ensures log == old(log) + if old(cameraOpen) then [CloseDevice] else []
    {
      CloseCamera();
      suspending := true;
    }
  }
}
