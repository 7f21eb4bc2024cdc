/**
 * Capture requests as the activity builds them: a template, the output
 * targets, and the keys it writes into CaptureRequest.Builder. The three
 * flash modes decide which keys the preview, precapture and still-capture
 * requests receive.
 */
module CaptureRequests {

  /**
   * mFlashMode. Unset stands for the field's default value 0, which no
   * switch in the activity matches; onOpened replaces it with FlashOff.
   */
  datatype FlashMode = Unset | FlashOff | FlashOn | FlashTorch

  /** The createCaptureRequest templates the activity uses. */
  datatype Template = TemplatePreview | TemplateStillCapture | TemplateZeroShutterLag

  /** The live TextureView surface, or the JPEG ImageReader surface of the given size. */
  datatype Surface = PreviewSurface | JpegReaderSurface(width: int, height: int)

  /** The CaptureRequest keys the activity writes. */
  datatype RequestKey = FlashModeKey | AeModeKey | AePrecaptureTriggerKey | ControlModeKey | JpegOrientationKey

  /** The CameraMetadata values written to those keys; Degrees is the JPEG orientation. */
  datatype RequestValue =
    | FlashModeOff | FlashModeTorch
    | AeModeOn | AeModeOnAlwaysFlash
    | AePrecaptureTriggerIdle | AePrecaptureTriggerStart
    | ControlModeAuto
    | Degrees(degrees: int)

  /**
   * A CaptureRequest.Builder, or the request build() snapshots from it. Only
   * the keys the activity writes are recorded; the template's own defaults
   * belong to the camera framework.
   */
  datatype Request = Request(template: Template, targets: seq<Surface>, settings: map<RequestKey, RequestValue>)

  /** createCaptureRequest: a builder for the template with no key written and no target yet. */
  function NewRequest(template: Template): Request {
    Request(template, [], map[])
  }

  function AddTarget(r: Request, s: Surface): Request {
    r.(targets := r.targets + [s])
  }

  /** Builder.set for each key of `writes`, later values replacing earlier ones. */
  function SetAll(r: Request, writes: map<RequestKey, RequestValue>): Request {
    r.(settings := r.settings + writes)
  }

  /** What setCaptureFlashMode writes for each mode. */
  function CaptureFlashWrites(mode: FlashMode): map<RequestKey, RequestValue> {
    match mode
    case FlashOff => map[FlashModeKey := FlashModeOff, AeModeKey := AeModeOn]
    case FlashTorch => map[FlashModeKey := FlashModeTorch]
    case FlashOn => map[]
    case Unset => map[]
  }

  /** What setPreviewFlashMode writes for each mode. */
  function PreviewFlashWrites(mode: FlashMode): map<RequestKey, RequestValue> {
    match mode
    case FlashOff => map[FlashModeKey := FlashModeOff]
    case FlashTorch => map[FlashModeKey := FlashModeTorch]
    case FlashOn => map[AePrecaptureTriggerKey := AePrecaptureTriggerIdle]
    case Unset => map[]
  }

  /** What precaptureTrigger's session callback writes before its single capture. */
  function PrecaptureWrites(): map<RequestKey, RequestValue> {
    map[AeModeKey := AeModeOnAlwaysFlash, AePrecaptureTriggerKey := AePrecaptureTriggerStart, ControlModeKey := ControlModeAuto]
  }

  /** Whether the still capture goes through the precapture trigger first. */
  predicate UsesPrecapture(mode: FlashMode) {
    mode == FlashOn
  }

  /**
   * The capture-request column of the flash table, key by key: FlashOff turns
   * the flash off and the auto-exposure on, FlashTorch sets the torch and
   * leaves auto-exposure as it was, FlashOn and the unset mode write nothing.
   * Template, targets and every key not named keep their old values.
   */
  lemma CaptureFlashTable(mode: FlashMode, r: Request)
    ensures var c := SetAll(r, CaptureFlashWrites(mode));
      c.template == r.template && c.targets == r.targets &&
      (mode == FlashOff ==> c.settings == r.settings[FlashModeKey := FlashModeOff][AeModeKey := AeModeOn]) &&
      (mode == FlashTorch ==> c.settings == r.settings[FlashModeKey := FlashModeTorch]) &&
      (mode in {FlashOn, Unset} ==> c == r)
  {
  }

  /**
   * The preview-request column: FlashOff and FlashTorch set the flash mode,
   * FlashOn only resets the precapture trigger to idle.
   */
  lemma PreviewFlashTable(mode: FlashMode, r: Request)
    ensures var p := SetAll(r, PreviewFlashWrites(mode));
      p.template == r.template && p.targets == r.targets &&
      (mode == FlashOff ==> p.settings == r.settings[FlashModeKey := FlashModeOff]) &&
      (mode == FlashTorch ==> p.settings == r.settings[FlashModeKey := FlashModeTorch]) &&
      (mode == FlashOn ==> p.settings == r.settings[AePrecaptureTriggerKey := AePrecaptureTriggerIdle]) &&
      (mode == Unset ==> p == r)
  {
  }

  /** The precapture callback's three writes, one key at a time, add up to PrecaptureWrites. */
  lemma PrecaptureWritesInOrder(r: Request)
    ensures r.(settings := r.settings[AeModeKey := AeModeOnAlwaysFlash][AePrecaptureTriggerKey := AePrecaptureTriggerStart][ControlModeKey := ControlModeAuto])
      == SetAll(r, PrecaptureWrites())
  {
    assert r.settings[AeModeKey := AeModeOnAlwaysFlash][AePrecaptureTriggerKey := AePrecaptureTriggerStart][ControlModeKey := ControlModeAuto]
      == r.settings + PrecaptureWrites();
  }
}
