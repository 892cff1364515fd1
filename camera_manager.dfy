/** `CameraManager`: the camera's open/preview state machine, the one-shot
    preview-frame and autofocus registrations, the scan rectangle in screen and
    in camera-buffer coordinates, and the choice of decode buffer by preview
    format. The hardware is reduced to what it answers (`OpenAttempt`) and to a
    log of the calls made on it. */
module CameraManagement {
  import opened JavaLang
  import opened Messaging
  import opened CameraConfiguration

  // ---------------------------------------------------------------------------
  // SDK_INT and the preview-callback flavour

  const CUPCAKE: int := 3
  const SDK_FALLBACK: Int32 := 10000

  /** `SDK_INT`: `Build.VERSION.SDK` read by `Integer.parseInt`, or 10000
      when that string is not a number. */
  function SdkInt(sdk: string): (r: Int32)
    ensures ParseInt(sdk).Some? ==> r == ParseInt(sdk).value
    ensures ParseInt(sdk).None? ==> r == SDK_FALLBACK
  {
    match ParseInt(sdk)
    case Some(v) => v
    case None => SDK_FALLBACK
  }

  /** One-shot preview callbacks are used after Cupcake (API level 3). */
  function UseOneShot(sdk: string): bool
  {
    SdkInt(sdk) > CUPCAKE
  }

  /** A version string the platform writes (`Integer.toString` of its API
      level) selects one-shot callbacks exactly when the level is above 3; an
      unreadable one counts as a recent platform. */
  lemma UseOneShotOfLevel(level: Int32, junk: string)
    requires ParseInt(junk).None?
    ensures UseOneShot(IntToString(level)) <==> level > CUPCAKE
    ensures UseOneShot(junk)
  {
    ParseIntToString(level);
  }

  // ---------------------------------------------------------------------------
  // Rectangles

  /** `android.graphics.Rect`. */
  datatype Rect = Rect(left: Int32, top: Int32, right: Int32, bottom: Int32)

  /** `rect.width()` and `rect.height()`, in 32-bit arithmetic. */
  function Width(r: Rect): Int32 { WrapOnce(r.right - r.left) }

  function Height(r: Rect): Int32 { WrapOnce(r.bottom - r.top) }

  const MIN_FRAME_WIDTH: Int32 := 240
  const MIN_FRAME_HEIGHT: Int32 := 240
  const MAX_FRAME_WIDTH: Int32 := 480
  const MAX_FRAME_HEIGHT: Int32 := 360

  /** Three quarters of a screen side, in `int` arithmetic, clamped to
      `[lo, hi]`. */
  function FramingSide(side: Int32, lo: Int32, hi: Int32): Int32
  {
    var w := Div32(Wrap32(side * 3), 4);
    if w < lo then lo else if w > hi then hi else w
  }

  /** The side always lies within the clamp bounds; for a non-negative side
      whose triple fits in an `int` it is three quarters of the side
      (rounded down), raised to `lo` or lowered to `hi`. */
  lemma FramingSideClamped(side: Int32, lo: Int32, hi: Int32)
    requires lo <= hi
    ensures lo <= FramingSide(side, lo, hi) <= hi
    ensures 0 <= side <= MAX_INT / 3 && lo <= side * 3 / 4 <= hi ==> FramingSide(side, lo, hi) == side * 3 / 4
    ensures 0 <= side <= MAX_INT / 3 && side * 3 / 4 < lo ==> FramingSide(side, lo, hi) == lo
    ensures 0 <= side <= MAX_INT / 3 && side * 3 / 4 > hi ==> FramingSide(side, lo, hi) == hi
  {
  }

  /** `(side - size) / 2` in `int` arithmetic: the offset that centres `size`
      within `side`, truncated toward zero. */
  function Centre(side: Int32, size: Int32): Int32
  {
    Div32(WrapOnce(side - size), 2)
  }

  /** The centring offset leaves the spare pixel of an odd difference after
      the frame when the frame fits, and before it when the frame is wider. */
  lemma CentreBalanced(side: Int32, size: Int32)
    requires 0 <= side && 0 <= size <= MAX_FRAME_WIDTH
    ensures var o := Centre(side, size);
            (side >= size ==> 0 <= o && 0 <= (side - size - o) - o <= 1) &&
            (side < size ==> o <= 0 && -1 <= (side - size - o) - o <= 0) &&
            o + size <= MAX_INT
  {
    JavaDivTruncates(side - size, 2);
  }

  /** The rectangle `getFramingRect` computes for a screen: the frame's sides
      centred with Java's truncating halving. */
  function FramingRectFor(screen: Point): Rect
  {
    var w := FramingSide(screen.x, MIN_FRAME_WIDTH, MAX_FRAME_WIDTH);
    var h := FramingSide(screen.y, MIN_FRAME_HEIGHT, MAX_FRAME_HEIGHT);
    var left := Centre(screen.x, w);
    var top := Centre(screen.y, h);
    Rect(left, top, WrapOnce(left + w), WrapOnce(top + h))
  }

  /** Three quarters of each side clamped to [240, 480] x [240, 360]. On a
      screen at least as large as the frame it lies inside the screen and
      the spare pixel, if any, is on the right (or bottom); on a smaller
      screen it overhangs both edges and the extra pixel of overhang is on
      the left (or top). */
  lemma FramingRectCentred(screen: Point)
    requires 0 <= screen.x && 0 <= screen.y
    ensures var r, w, h := FramingRectFor(screen),
                           FramingSide(screen.x, MIN_FRAME_WIDTH, MAX_FRAME_WIDTH),
                           FramingSide(screen.y, MIN_FRAME_HEIGHT, MAX_FRAME_HEIGHT);
            MIN_FRAME_WIDTH <= w <= MAX_FRAME_WIDTH && MIN_FRAME_HEIGHT <= h <= MAX_FRAME_HEIGHT &&
            r.right - r.left == w && r.bottom - r.top == h &&
            (screen.x >= w ==> 0 <= r.left && r.right <= screen.x && 0 <= (screen.x - r.right) - r.left <= 1) &&
            (screen.x < w ==> r.left <= 0 && screen.x <= r.right && -1 <= (screen.x - r.right) - r.left <= 0) &&
            (screen.y >= h ==> 0 <= r.top && r.bottom <= screen.y && 0 <= (screen.y - r.bottom) - r.top <= 1) &&
            (screen.y < h ==> r.top <= 0 && screen.y <= r.bottom && -1 <= (screen.y - r.bottom) - r.top <= 0)
  {
    var w := FramingSide(screen.x, MIN_FRAME_WIDTH, MAX_FRAME_WIDTH);
    var h := FramingSide(screen.y, MIN_FRAME_HEIGHT, MAX_FRAME_HEIGHT);
    FramingSideClamped(screen.x, MIN_FRAME_WIDTH, MAX_FRAME_WIDTH);
    FramingSideClamped(screen.y, MIN_FRAME_HEIGHT, MAX_FRAME_HEIGHT);
    CentreBalanced(screen.x, w);
    CentreBalanced(screen.y, h);
  }

  /** One edge of `getFramingRectInPreview`: `v * num / den` in `int`
      arithmetic. */
  function ScaleEdge(v: Int32, num: Int32, den: Int32): Int32
    requires den != 0
  {
    Div32(Wrap32(v * num), den)
  }

  /** `getFramingRectInPreview`'s rescaling of the screen rectangle into
      camera-buffer coordinates: left and right by `camera.x / screen.x`, top
      and bottom by `camera.y / screen.y`; a zero screen side is a division by
      zero. */
  function PreviewRectFor(frame: Rect, camera: Point, screen: Point): (r: Outcome<Rect>)
    ensures r.Thrown? <==> screen.x == 0 || screen.y == 0
    ensures r.Thrown? ==> r.exception == ArithmeticException
  {
    if screen.x == 0 || screen.y == 0 then Thrown(ArithmeticException)
    else
      Ok(Rect(ScaleEdge(frame.left, camera.x, screen.x), ScaleEdge(frame.top, camera.y, screen.y),
              ScaleEdge(frame.right, camera.x, screen.x), ScaleEdge(frame.bottom, camera.y, screen.y)))
  }

  lemma MulMono(a: int, b: int, c: int)
    requires a <= b && 0 <= c
    ensures a * c <= b * c
  {
  }

  lemma MulLess(x: int, y: int, d: int)
    requires d > 0 && x * d < y * d
    ensures x < y
  {
    if x >= y {
      MulMono(y, x, d);
    }
  }

  lemma DivMono(a: int, b: int, d: int)
    requires 0 <= a <= b && 0 < d
    ensures a / d <= b / d
  {
    var q1, q2 := a / d, b / d;
    assert a == q1 * d + a % d && b == q2 * d + b % d;
    assert q1 * d <= a && b < q2 * d + d;
    MulLess(q1, q2 + 1, d);
  }

  lemma MulDivCancel(n: int, d: int)
    requires d > 0
    ensures (d * n) / d == n
  {
    var q, r := (d * n) / d, (d * n) % d;
    assert d * n == q * d + r && 0 <= r < d;
    assert (n - q) * d == r;
    MulLess(n - q, 1, d);
    MulLess(-1, n - q, d);
  }

  /** The exact value of one scaled edge of a rectangle inside the screen:
      it lies between 0 and the camera side. */
  lemma ScaledEdgeInside(v: Int32, num: Int32, den: Int32)
    requires 0 <= v <= den && 0 <= num && den > 0 && den * num <= MAX_INT
    ensures 0 <= v * num <= den * num
    ensures ScaleEdge(v, num, den) == v * num / den
    ensures 0 <= ScaleEdge(v, num, den) <= num
  {
    assert ScaleEdge(v, num, den) == Div32(Wrap32(v * num), den);
    MulMono(0, v, num);
    MulMono(v, den, num);
    DivMono(0, v * num, den);
    DivMono(v * num, den * num, den);
    MulDivCancel(num, den);
  }

  lemma ScaledEdgesOrdered(a: Int32, b: Int32, num: Int32, den: Int32)
    requires 0 <= a <= b <= den && 0 <= num && den > 0 && den * num <= MAX_INT
    ensures ScaleEdge(a, num, den) <= ScaleEdge(b, num, den)
  {
    ScaledEdgeInside(a, num, den);
    ScaledEdgeInside(b, num, den);
    MulMono(a, b, num);
    DivMono(a * num, b * num, den);
  }

  /** A frame inside a non-empty screen lands inside the camera buffer, each
      edge scaled exactly, provided the products fit in an `int`. */
  lemma PreviewRectInsideCamera(frame: Rect, camera: Point, screen: Point)
    requires 0 <= frame.left <= frame.right <= screen.x && 0 <= frame.top <= frame.bottom <= screen.y
    requires 0 < screen.x && 0 < screen.y && 0 <= camera.x && 0 <= camera.y
    requires screen.x * camera.x <= MAX_INT && screen.y * camera.y <= MAX_INT
    ensures PreviewRectFor(frame, camera, screen).Ok?
    ensures var r := PreviewRectFor(frame, camera, screen).value;
            r.left == frame.left * camera.x / screen.x && r.right == frame.right * camera.x / screen.x &&
            r.top == frame.top * camera.y / screen.y && r.bottom == frame.bottom * camera.y / screen.y &&
            0 <= r.left <= r.right <= camera.x && 0 <= r.top <= r.bottom <= camera.y
  {
    ScaledEdgeInside(frame.left, camera.x, screen.x);
    ScaledEdgeInside(frame.right, camera.x, screen.x);
    ScaledEdgeInside(frame.top, camera.y, screen.y);
    ScaledEdgeInside(frame.bottom, camera.y, screen.y);
    ScaledEdgesOrdered(frame.left, frame.right, camera.x, screen.x);
    ScaledEdgesOrdered(frame.top, frame.bottom, camera.y, screen.y);
  }

  // ---------------------------------------------------------------------------
  // buildDecodeBuffer

  const YCBCR_420_SP: Int32 := 17
  const YCBCR_422_SP: Int32 := 16
  const YUV420P: string := "yuv420p"

  /** The arguments of `new DecodeBufferSource(...)`; the class itself is not
      part of this model. */
  datatype DecodeBuffer = DecodeBuffer(data: seq<bv8>, width: Int32, height: Int32,
                                       left: Int32, top: Int32, areaWidth: Int32, areaHeight: Int32)

  /** `String.valueOf` of a possibly-null string, as string concatenation
      writes it. */
  function Nullable(s: Option<string>): string
  {
    match s
    case Some(v) => v
    case None => "null"
  }

  /** The format dispatch of `buildDecodeBuffer`: the two semi-planar YCbCr
      formats, and any format the driver names "yuv420p", give a buffer over
      the preview rectangle; anything else is refused with the format in the
      message. */
  function DecodeBufferFor(data: seq<bv8>, width: Int32, height: Int32, rect: Rect,
                           format: Int32, formatString: Option<string>): (r: Outcome<DecodeBuffer>)
    ensures r.Ok? <==> format == YCBCR_420_SP || format == YCBCR_422_SP || formatString == Some(YUV420P)
    ensures r.Ok? ==> r.value == DecodeBuffer(data, width, height, rect.left, rect.top, Width(rect), Height(rect))
    ensures r.Thrown? ==>
              r.exception == IllegalArgumentException("Unsupported picture format: " + IntToString(format) + "/" + Nullable(formatString))
  {
    if format == YCBCR_420_SP || format == YCBCR_422_SP || formatString == Some(YUV420P) then
      Ok(DecodeBuffer(data, width, height, rect.left, rect.top, Width(rect), Height(rect)))
    else
      Thrown(IllegalArgumentException("Unsupported picture format: " + IntToString(format) + "/" + Nullable(formatString)))
  }

  // ---------------------------------------------------------------------------
  // The camera and its manager

  /** An open camera, known by the parameters it reports. */
  datatype CameraDevice = CameraDevice(parameters: CameraParameters)

  /** What the hardware does when `openDriver` tries it: `Camera.open()`
      returns `null`, throws, or opens a camera whose `setPreviewDisplay`
      succeeds or throws `IOException`. */
  datatype OpenAttempt =
    | OpenReturnsNull
    | OpenThrows
    | Opened(device: CameraDevice, displayAccepted: bool)

  /** Whether `openDriver` throws for an attempt, given whether a camera
      was already open. */
  predicate OpenFails(wasOpen: bool, attempt: OpenAttempt)
  {
    !wasOpen && !(attempt.Opened? && attempt.displayAccepted)
  }

  /** The camera `openDriver` leaves: an open one is kept, otherwise the one
      the attempt opened, if any (also when its display was refused). */
  function CameraAfterOpen(camera: Option<CameraDevice>, attempt: OpenAttempt): Option<CameraDevice>
  {
    if camera.Some? then camera else if attempt.Opened? then Some(attempt.device) else None
  }

  /** The calls made on the camera object, in order. */
  datatype CameraCall =
    | SetPreviewDisplay
    | SetParameters(parameters: CameraParameters)
    | Release
    | StartPreview
    | StopPreview
    | ClearPreviewCallback
    | SetPreviewCallback
    | SetOneShotPreviewCallback
    | AutoFocus

  /** The manager's mutable fields as one value, so that each operation can
      state its whole effect as an update of it. */
  datatype ManagerState = ManagerState(
    camera: Option<CameraDevice>,
    framingRect: Option<Rect>,
    framingRectInPreview: Option<Rect>,
    previewHandler: Option<HandlerRef>,
    previewMessage: Id,
    autoFocusHandler: Option<HandlerRef>,
    autoFocusMessage: Id,
    initialized: bool,
    previewing: bool,
    sent: seq<Message>,
    calls: seq<CameraCall>)

  /** The manager's state and the configuration after `openDriver`, from the
      state before it, what the hardware does and the display size: an open
      camera is kept as it is; a camera that opens is kept even when its
      preview display is refused; after a successful open the configuration
      is read if it never was, and the desired parameters are set. */
  function AfterOpen(s: ManagerState, c: ConfigState, attempt: OpenAttempt, display: Point): (ManagerState, ConfigState)
    requires s.initialized ==> c.cameraResolution.Some?
  {
    if s.camera.Some? || !attempt.Opened? then (s, c)
    else
      var attached := s.(camera := Some(attempt.device), calls := s.calls + [SetPreviewDisplay]);
      if !attempt.displayAccepted then (attached, c)
      else
        var params := attempt.device.parameters;
        var read := if s.initialized then c else ConfigAfterInit(params, display);
        (attached.(initialized := true,
                 calls := attached.calls + [SetParameters(DesiredParameters(params, read.cameraResolution.value))]),
         read)
  }

  /** Once a camera is open, opening again changes nothing, whatever the
      hardware would answer. */
  lemma OpenIsIdempotent(s: ManagerState, c: ConfigState, attempt: OpenAttempt, display: Point,
                         again: OpenAttempt, display2: Point)
    requires s.initialized ==> c.cameraResolution.Some?
    requires !OpenFails(s.camera.Some?, attempt)
    ensures var after := AfterOpen(s, c, attempt, display);
            after.0.camera.Some? &&
            (after.0.initialized ==> after.1.cameraResolution.Some?) &&
            AfterOpen(after.0, after.1, again, display2) == after
  {
  }

  /** The configuration is read from the camera on the first successful open
      only: later opens, after a close, keep it as it was. */
  lemma OpenReadsConfigurationOnce(s: ManagerState, c: ConfigState, attempt: OpenAttempt, display: Point)
    requires s.initialized ==> c.cameraResolution.Some?
    ensures s.initialized ==> AfterOpen(s, c, attempt, display).1 == c
    ensures !s.initialized && s.camera.None? && attempt.Opened? && attempt.displayAccepted ==>
              AfterOpen(s, c, attempt, display).0.initialized &&
              AfterOpen(s, c, attempt, display).1 == ConfigAfterInit(attempt.device.parameters, display)
    ensures OpenFails(s.camera.Some?, attempt) ==> AfterOpen(s, c, attempt, display).1 == c
  {
  }

  const AUTOFOCUS_INTERVAL_MS: nat := 1500

  class CameraManager {
    const config: CameraConfigurationManager
    const useOneShotPreviewCallback: bool
    var camera: Option<CameraDevice>
    var framingRect: Option<Rect>
    var framingRectInPreview: Option<Rect>
    var previewHandler: Option<HandlerRef>
    var previewMessage: Id
    var autoFocusHandler: Option<HandlerRef>
    var autoFocusMessage: Id
    var initialized: bool
    var previewing: bool
    /** Messages handed to a handler, in order. */
    var sent: seq<Message>
    /** Calls made on the camera, in order. */
    var calls: seq<CameraCall>

    function State(): ManagerState
      reads this
    {
      ManagerState(camera, framingRect, framingRectInPreview, previewHandler, previewMessage,
                   autoFocusHandler, autoFocusMessage, initialized, previewing, sent, calls)
    }

    /** The configuration is read exactly once, on the first open; the cached
        rectangles are the functions of the configuration they were computed
        from. */
    predicate Valid()
      reads this, config
    {
      (initialized ==> config.Initialized()) &&
      (!initialized ==> config.screenResolution.None? && config.cameraResolution.None?) &&
      (framingRect.Some? ==>
         config.screenResolution.Some? && framingRect.value == FramingRectFor(config.screenResolution.value)) &&
      (framingRectInPreview.Some? ==>
         framingRect.Some? && config.cameraResolution.Some? &&
         PreviewRectFor(framingRect.value, config.cameraResolution.value, config.screenResolution.value)
           == Ok(framingRectInPreview.value))
    }

    /** The private constructor: nothing open, nothing cached, one-shot
        callbacks chosen from the platform version. */
    constructor (sdk: string)
      ensures fresh(config) && !config.Initialized()
      ensures useOneShotPreviewCallback == UseOneShot(sdk)
      ensures State() == ManagerState(None, None, None, None, Other(0), None, Other(0), false, false, [], [])
      ensures Valid()
    {
      config := new CameraConfigurationManager();
      useOneShotPreviewCallback := UseOneShot(sdk);
      camera, framingRect, framingRectInPreview := None, None, None;
      previewHandler, previewMessage := None, Other(0);
      autoFocusHandler, autoFocusMessage := None, Other(0);
      initialized, previewing := false, false;
      sent, calls := [], [];
    }

    /** `openDriver`: a no-op when a camera is open. Otherwise the attempt
        either fails (`IOException` for a `null` camera, the runtime exception
        passed through) or opens the camera; a refused preview display then
        throws with the camera kept, and only a first successful open reads
        the configuration, after which the desired parameters are set. */
    method OpenDriver(attempt: OpenAttempt, display: Point) returns (thrown: Option<JavaException>)
      requires Valid()
      modifies this, config
      ensures Valid()
      ensures thrown.Some? <==> OpenFails(old(camera).Some?, attempt)
      ensures thrown.Some? ==> thrown.value == IOException || thrown.value == RuntimeException
      ensures camera == CameraAfterOpen(old(camera), attempt)
      ensures (State(), config.Fields()) == AfterOpen(old(State()), old(config.Fields()), attempt, display)
      ensures old(camera).Some? ==> thrown == None && State() == old(State()) && unchanged(config)
      ensures old(camera).None? && attempt.OpenReturnsNull? ==>
                thrown == Some(IOException) && State() == old(State()) && unchanged(config)
      ensures old(camera).None? && attempt.OpenThrows? ==>
                thrown == Some(RuntimeException) && State() == old(State()) && unchanged(config)
      ensures old(camera).None? && attempt.Opened? && !attempt.displayAccepted ==>
                thrown == Some(IOException) && unchanged(config) &&
                State() == old(State()).(camera := Some(attempt.device), calls := old(calls) + [SetPreviewDisplay])
      ensures old(camera).None? && attempt.Opened? && attempt.displayAccepted && old(initialized) ==>
                thrown == None && unchanged(config) &&
                State() == old(State()).(camera := Some(attempt.device),
                  calls := old(calls) + [SetPreviewDisplay,
                                         SetParameters(DesiredParameters(attempt.device.parameters, config.cameraResolution.value))])
      ensures old(camera).None? && attempt.Opened? && attempt.displayAccepted && !old(initialized) ==>
                thrown == None &&
                config.previewFormat == attempt.device.parameters.previewFormat &&
                config.previewFormatString == Get(attempt.device.parameters, PREVIEW_FORMAT) &&
                config.screenResolution == Some(display) &&
                config.cameraResolution == Some(CameraResolutionFor(attempt.device.parameters, display)) &&
                State() == old(State()).(camera := Some(attempt.device), initialized := true,
                  calls := old(calls) + [SetPreviewDisplay,
                                         SetParameters(DesiredParameters(attempt.device.parameters, config.cameraResolution.value))])
    {
      thrown := None;
      if camera.None? {
        match attempt
        case OpenReturnsNull =>
          thrown := Some(IOException);
        case OpenThrows =>
          thrown := Some(RuntimeException);
        case Opened(device, displayAccepted) =>
          thrown := Attach(device, displayAccepted, display);
      }
    }

    /** The part of `openDriver` after `Camera.open()` returned a camera. */
    method Attach(device: CameraDevice, displayAccepted: bool, display: Point) returns (thrown: Option<JavaException>)
      requires Valid() && camera.None?
      modifies this, config
      ensures Valid()
      ensures (State(), config.Fields()) == AfterOpen(old(State()), old(config.Fields()), Opened(device, displayAccepted), display)
      ensures !displayAccepted ==>
                thrown == Some(IOException) && unchanged(config) &&
                State() == old(State()).(camera := Some(device), calls := old(calls) + [SetPreviewDisplay])
      ensures displayAccepted && old(initialized) ==>
                thrown == None && unchanged(config) &&
                State() == old(State()).(camera := Some(device),
                  calls := old(calls) + [SetPreviewDisplay,
                                         SetParameters(DesiredParameters(device.parameters, config.cameraResolution.value))])
      ensures displayAccepted && !old(initialized) ==>
                thrown == None &&
                config.previewFormat == device.parameters.previewFormat &&
                config.previewFormatString == Get(device.parameters, PREVIEW_FORMAT) &&
                config.screenResolution == Some(display) &&
                config.cameraResolution == Some(CameraResolutionFor(device.parameters, display)) &&
                State() == old(State()).(camera := Some(device), initialized := true,
                  calls := old(calls) + [SetPreviewDisplay,
                                         SetParameters(DesiredParameters(device.parameters, config.cameraResolution.value))])
    {
      camera := Some(device);
      calls := calls + [SetPreviewDisplay];
      if !displayAccepted {
        return Some(IOException);
      }
      Configure(device.parameters, display);
      thrown := None;
    }

    /** The tail of `openDriver`: the first time, the configuration is read
        from the camera's parameters; then the desired parameters are set. */
    method Configure(params: CameraParameters, display: Point)
      requires Valid()
      modifies this, config
      ensures Valid()
      ensures config.Fields() == if old(initialized) then old(config.Fields()) else ConfigAfterInit(params, display)
      ensures old(initialized) ==>
                unchanged(config) &&
                State() == old(State()).(calls := old(calls) + [SetParameters(DesiredParameters(params, config.cameraResolution.value))])
      ensures !old(initialized) ==>
                config.previewFormat == params.previewFormat &&
                config.previewFormatString == Get(params, PREVIEW_FORMAT) &&
                config.screenResolution == Some(display) &&
                config.cameraResolution == Some(CameraResolutionFor(params, display)) &&
                State() == old(State()).(initialized := true,
                  calls := old(calls) + [SetParameters(DesiredParameters(params, config.cameraResolution.value))])
    {
      if !initialized {
        initialized := true;
        config.InitFromCameraParameters(params, display);
      }
      calls := calls + [SetParameters(DesiredParameters(params, config.cameraResolution.value))];
    }

    /** `closeDriver`: releases an open camera; a no-op when none is open. */
    method CloseDriver()
      requires Valid()
      modifies this
      ensures Valid()
      ensures old(camera).None? ==> State() == old(State())
      ensures old(camera).Some? ==> State() == old(State()).(camera := None, calls := old(calls) + [Release])
    {
      if camera.Some? {
        calls := calls + [Release];
        camera := None;
      }
    }

    /** `startPreview`: only an open camera that is not previewing starts. */
    method StartPreview()
      requires Valid()
      modifies this
      ensures Valid()
      ensures old(camera).Some? && !old(previewing) ==>
                State() == old(State()).(previewing := true, calls := old(calls) + [CameraCall.StartPreview])
      ensures !(old(camera).Some? && !old(previewing)) ==> State() == old(State())
    {
      if camera.Some? && !previewing {
        calls := calls + [CameraCall.StartPreview];
        previewing := true;
      }
    }

    /** `stopPreview`: only an open, previewing camera stops; both pending
        registrations are dropped. */
    method StopPreview()
      requires Valid()
      modifies this
      ensures Valid()
      ensures old(camera).Some? && old(previewing) ==>
                State() == old(State()).(previewing := false, previewHandler := None, autoFocusHandler := None,
                  calls := old(calls) + (if useOneShotPreviewCallback then [] else [ClearPreviewCallback]) + [CameraCall.StopPreview])
      ensures !(old(camera).Some? && old(previewing)) ==> State() == old(State())
    {
      if camera.Some? && previewing {
        if !useOneShotPreviewCallback {
          calls := calls + [ClearPreviewCallback];
        }
        calls := calls + [CameraCall.StopPreview];
        previewHandler := None;
        autoFocusHandler := None;
        previewing := false;
      }
    }

    /** `requestPreviewFrame`: while previewing, the next frame is promised
        to `handler` under `what`. */
    method RequestPreviewFrame(handler: HandlerRef, what: Id)
      requires Valid()
      modifies this
      ensures Valid()
      ensures old(camera).Some? && old(previewing) ==>
                State() == old(State()).(previewHandler := Some(handler), previewMessage := what,
                  calls := old(calls) + [if useOneShotPreviewCallback then SetOneShotPreviewCallback else SetPreviewCallback])
      ensures !(old(camera).Some? && old(previewing)) ==> State() == old(State())
    {
      if camera.Some? && previewing {
        previewHandler := Some(handler);
        previewMessage := what;
        if useOneShotPreviewCallback {
          calls := calls + [SetOneShotPreviewCallback];
        } else {
          calls := calls + [SetPreviewCallback];
        }
      }
    }

    /** `requestAutoFocus`: while previewing, the focus result is promised to
        `handler` under `what`. */
    method RequestAutoFocus(handler: HandlerRef, what: Id)
      requires Valid()
      modifies this
      ensures Valid()
      ensures old(camera).Some? && old(previewing) ==>
                State() == old(State()).(autoFocusHandler := Some(handler), autoFocusMessage := what,
                  calls := old(calls) + [AutoFocus])
      ensures !(old(camera).Some? && old(previewing)) ==> State() == old(State())
    {
      if camera.Some? && previewing {
        autoFocusHandler := Some(handler);
        autoFocusMessage := what;
        calls := calls + [AutoFocus];
      }
    }

    /** The preview callback: the repeating callback is unregistered first;
        a registered handler receives exactly one message with the camera
        resolution and the frame, and is forgotten; with none, nothing is
        sent. The camera resolution is dereferenced, so it throws before any
        configuration was read. */
    method OnPreviewFrame(data: seq<bv8>) returns (thrown: Option<JavaException>)
      requires Valid()
      modifies this
      ensures Valid()
      ensures var cleared := old(calls) + (if useOneShotPreviewCallback then [] else [ClearPreviewCallback]);
              if old(previewHandler).None? then
                thrown == None && State() == old(State()).(calls := cleared)
              else if config.cameraResolution.None? then
                thrown == Some(NullPointerException) && State() == old(State()).(calls := cleared)
              else
                thrown == None &&
                State() == old(State()).(previewHandler := None, calls := cleared,
                  sent := old(sent) + [Immediate(old(previewHandler).value, old(previewMessage),
                                                 config.cameraResolution.value.x, config.cameraResolution.value.y,
                                                 FrameData(data))])
    {
      thrown := None;
      if !useOneShotPreviewCallback {
        calls := calls + [ClearPreviewCallback];
      }
      if previewHandler.Some? {
        var resolution := config.GetCameraResolution();
        if resolution.None? {
          thrown := Some(NullPointerException);
          return;
        }
        sent := sent + [Immediate(previewHandler.value, previewMessage, resolution.value.x, resolution.value.y, FrameData(data))];
        previewHandler := None;
      }
    }

    /** The autofocus callback: a registered handler receives exactly one
        message, delayed by 1500 ms, and is forgotten. */
    method OnAutoFocus(success: bool)
      requires Valid()
      modifies this
      ensures Valid()
      ensures old(autoFocusHandler).None? ==> State() == old(State())
      ensures old(autoFocusHandler).Some? ==>
                State() == old(State()).(autoFocusHandler := None,
                  sent := old(sent) + [Message(old(autoFocusHandler).value, old(autoFocusMessage), 0, 0,
                                               Focused(success), AUTOFOCUS_INTERVAL_MS)])
    {
      if autoFocusHandler.Some? {
        sent := sent + [Message(autoFocusHandler.value, autoFocusMessage, 0, 0, Focused(success), AUTOFOCUS_INTERVAL_MS)];
        autoFocusHandler := None;
      }
    }

    /** `getFramingRect`: the cached rectangle if there is one; otherwise
        `null` without a camera, or the rectangle for the screen, now cached.
        Before the configuration was read the screen resolution is `null`. */
    method GetFramingRect() returns (r: Outcome<Option<Rect>>)
      requires Valid()
      modifies this
      ensures Valid()
      ensures old(framingRect).Some? ==> r == Ok(old(framingRect)) && State() == old(State())
      ensures old(framingRect).None? && old(camera).None? ==> r == Ok(None) && State() == old(State())
      ensures old(framingRect).None? && old(camera).Some? && config.screenResolution.None? ==>
                r == Thrown(NullPointerException) && State() == old(State())
      ensures old(framingRect).None? && old(camera).Some? && config.screenResolution.Some? ==>
                r == Ok(Some(FramingRectFor(config.screenResolution.value))) &&
                State() == old(State()).(framingRect := r.value)
      ensures r.Ok? && r.value.Some? ==> r.value.value == FramingRectFor(config.screenResolution.value)
    {
      var screen := config.GetScreenResolution();
      if framingRect.None? {
        if camera.None? {
          return Ok(None);
        }
        if screen.None? {
          return Thrown(NullPointerException);
        }
        framingRect := Some(FramingRectFor(screen.value));
      }
      r := Ok(framingRect);
    }

    /** What `getFramingRectInPreview` answers in the current state: the
        cached rectangle; else a `NullPointerException` when there is no
        framing rectangle to copy (no cache and no camera) or a resolution is
        still `null`; else the framing rectangle for the screen, rescaled. */
    function PreviewRectNow(): Outcome<Rect>
      reads this, config
    {
      if framingRectInPreview.Some? then Ok(framingRectInPreview.value)
      else if (framingRect.None? && camera.None?) || config.screenResolution.None? || config.cameraResolution.None? then
        Thrown(NullPointerException)
      else PreviewRectFor(FramingRectFor(config.screenResolution.value),
                          config.cameraResolution.value, config.screenResolution.value)
    }

    /** The framing rectangle once `getFramingRectInPreview` has run: without
        a cached preview rectangle, `getFramingRect` computes and caches it
        for an open camera and a known screen, even when the rescaling then
        throws. */
    function FramingRectAfterPreview(): Option<Rect>
      reads this, config
    {
      if framingRectInPreview.None? && framingRect.None? && camera.Some? && config.screenResolution.Some?
      then Some(FramingRectFor(config.screenResolution.value))
      else framingRect
    }

    /** The whole state once `getFramingRectInPreview` has run: both caches
        updated as far as the call got, everything else as it was. */
    function StateAfterPreviewRect(): ManagerState
      reads this, config
    {
      State().(framingRect := FramingRectAfterPreview(),
               framingRectInPreview := if PreviewRectNow().Ok? then Some(PreviewRectNow().value) else framingRectInPreview)
    }

    /** What `buildDecodeBuffer` answers in the current state. */
    function BufferNow(data: seq<bv8>, width: Int32, height: Int32): Outcome<DecodeBuffer>
      reads this, config
    {
      match PreviewRectNow()
      case Thrown(e) => Thrown(e)
      case Ok(rect) => DecodeBufferFor(data, width, height, rect, config.previewFormat, config.previewFormatString)
    }

    /** `getFramingRectInPreview`: the cached rectangle if there is one;
        otherwise the framing rectangle (a `null` one cannot be copied)
        rescaled from screen to camera coordinates, now cached. Only the two
        caches change. */
    method GetFramingRectInPreview() returns (r: Outcome<Rect>)
      requires Valid()
      modifies this
      ensures Valid()
      ensures r == old(PreviewRectNow())
      ensures r.Ok? ==> framingRectInPreview == Some(r.value)
      ensures r.Thrown? ==> framingRectInPreview == old(framingRectInPreview)
      ensures old(framingRect).Some? ==> framingRect == old(framingRect)
      ensures State() == old(StateAfterPreviewRect())
    {
      if framingRectInPreview.None? {
        var frame := GetFramingRect();
        if frame.Thrown? {
          return Thrown(frame.exception);
        }
        if frame.value.None? {
          return Thrown(NullPointerException);
        }
        var cam := config.GetCameraResolution();
        var screen := config.GetScreenResolution();
        if cam.None? || screen.None? {
          return Thrown(NullPointerException);
        }
        var scaled := PreviewRectFor(frame.value.value, cam.value, screen.value);
        if scaled.Thrown? {
          return scaled;
        }
        framingRectInPreview := Some(scaled.value);
      }
      r := Ok(framingRectInPreview.value);
    }

    /** `buildDecodeBuffer`: the format dispatch over the preview rectangle;
        only the rectangle caches change. */
    method BuildDecodeBuffer(data: seq<bv8>, width: Int32, height: Int32) returns (r: Outcome<DecodeBuffer>)
      requires Valid()
      modifies this
      ensures Valid()
      ensures r == old(BufferNow(data, width, height))
      ensures State() == old(StateAfterPreviewRect())
    {
      var rect := GetFramingRectInPreview();
      if rect.Thrown? {
        return Thrown(rect.exception);
      }
      r := DecodeBufferFor(data, width, height, rect.value, config.GetPreviewFormat(), config.GetPreviewFormatString());
    }
  }
}
