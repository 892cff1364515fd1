/** `CaptureActivity`: the capture screen's handling of a decoded text (the
    `*` restart sentinel), the "Supported:" line built from the decoder's
    capabilities, the hand-back of the result, and the surface and handler
    guards around opening and closing the camera. Views, dialogs and the
    `CaptureActivityHandler` are reduced to what they record. */
module Capture {
  import opened JavaLang
  import opened Messaging
  import opened CameraConfiguration
  import opened CameraManagement

  // ---------------------------------------------------------------------------
  // The "Supported:" line

  /** Which symbologies the loaded decoder library reports it supports. */
  datatype Formats = Formats(qrCode: bool, dataMatrix: bool, ean: bool, code39: bool, code128: bool)

  /** What `new qmcore(this)` reports: whether the library loaded, and its
      formats. */
  datatype Capabilities = Capabilities(sdkLoaded: bool, formats: Formats)

  const SUPPORTED_PREFIX: string := "Supported: "
  const QRCODE_NAME: string := "QRCode"
  const DATAMATRIX_NAME: string := ",Data Matrix"
  const EAN_NAME: string := ",EAN"
  const CODE39_NAME: string := ",Code 39"
  const CODE128_NAME: string := ",Code 128"
  const SDK_MISSING: string := "Can't load quickmarksdk."

  /** A name appended when its flag is set. */
  function Part(on: bool, name: string): string
  {
    if on then name else ""
  }

  /** The text `onCreate` puts in the format label: the prefix, then each
      supported name in a fixed order. Every name but the first carries its
      own leading comma, so a list without QR codes starts with a comma. */
  function SupportedText(f: Formats): string
  {
    SUPPORTED_PREFIX + Part(f.qrCode, QRCODE_NAME) + Part(f.dataMatrix, DATAMATRIX_NAME) + Part(f.ean, EAN_NAME) +
    Part(f.code39, CODE39_NAME) + Part(f.code128, CODE128_NAME)
  }

  predicate StartsWith(s: string, p: string)
  {
    |p| <= |s| && s[..|p|] == p
  }

  /** Reads one optional name off the front of `s`. */
  function Consume(s: string, name: string): (r: (bool, string))
    ensures r.0 ==> s == name + r.1
    ensures !r.0 ==> r.1 == s
  {
    if StartsWith(s, name) then (true, s[|name|..]) else (false, s)
  }

  /** Reads a label back into the flags that produced it: the prefix, then
      each name in turn if it is next, then nothing. */
  function ParseSupported(s: string): Option<Formats>
  {
    if !StartsWith(s, SUPPORTED_PREFIX) then None
    else
      var (qr, r1) := Consume(s[|SUPPORTED_PREFIX|..], QRCODE_NAME);
      var (dm, r2) := Consume(r1, DATAMATRIX_NAME);
      var (ean, r3) := Consume(r2, EAN_NAME);
      var (c39, r4) := Consume(r3, CODE39_NAME);
      var (c128, r5) := Consume(r4, CODE128_NAME);
      if r5 == "" then Some(Formats(qr, dm, ean, c39, c128)) else None
  }

  /** Reading an optional name back gives the flag and the rest, provided the
      rest cannot be mistaken for the name. */
  lemma ConsumePart(on: bool, name: string, rest: string)
    requires |name| > 0 && (rest == [] || !StartsWith(rest, name))
    ensures Consume(Part(on, name) + rest, name) == (on, rest)
  {
    var s := Part(on, name) + rest;
    if on {
      assert s == name + rest;
      assert s[..|name|] == name;
      assert s[|name|..] == rest;
    } else {
      assert s == rest;
      assert !StartsWith(s, name);
    }
  }

  /** `onCreate`'s construction of the label: the prefix, then each
      supported name appended in turn. */
  method BuildSupportedText(f: Formats) returns (supported: string)
    ensures supported == SupportedText(f)
  {
    supported := SUPPORTED_PREFIX;
    if f.qrCode {
      supported := supported + QRCODE_NAME;
    }
    assert supported == SUPPORTED_PREFIX + Part(f.qrCode, QRCODE_NAME);
    if f.dataMatrix {
      supported := supported + DATAMATRIX_NAME;
    }
    assert supported == SUPPORTED_PREFIX + Part(f.qrCode, QRCODE_NAME) + Part(f.dataMatrix, DATAMATRIX_NAME);
    if f.ean {
      supported := supported + EAN_NAME;
    }
    assert supported == SUPPORTED_PREFIX + Part(f.qrCode, QRCODE_NAME) + Part(f.dataMatrix, DATAMATRIX_NAME) +
                        Part(f.ean, EAN_NAME);
    if f.code39 {
      supported := supported + CODE39_NAME;
    }
    assert supported == SUPPORTED_PREFIX + Part(f.qrCode, QRCODE_NAME) + Part(f.dataMatrix, DATAMATRIX_NAME) +
                        Part(f.ean, EAN_NAME) + Part(f.code39, CODE39_NAME);
    if f.code128 {
      supported := supported + CODE128_NAME;
    }
  }

  /** The text after the prefix and the QR code name. */
  function AfterQrCode(f: Formats): string
  {
    Part(f.dataMatrix, DATAMATRIX_NAME) + (Part(f.ean, EAN_NAME) + (Part(f.code39, CODE39_NAME) + Part(f.code128, CODE128_NAME)))
  }

  function AfterDataMatrix(f: Formats): string
  {
    Part(f.ean, EAN_NAME) + (Part(f.code39, CODE39_NAME) + Part(f.code128, CODE128_NAME))
  }

  function AfterEan(f: Formats): string
  {
    Part(f.code39, CODE39_NAME) + Part(f.code128, CODE128_NAME)
  }

  lemma Regroup(p: string, a: string, b: string, c: string, d: string, e: string)
    ensures p + a + b + c + d + e == p + (a + (b + (c + (d + e))))
  {
  }

  /** The label as the prefix followed by the nested tails. */
  lemma SupportedTextNested(f: Formats)
    ensures SupportedText(f) == SUPPORTED_PREFIX + (Part(f.qrCode, QRCODE_NAME) + AfterQrCode(f))
    ensures AfterQrCode(f) == Part(f.dataMatrix, DATAMATRIX_NAME) + AfterDataMatrix(f)
    ensures AfterDataMatrix(f) == Part(f.ean, EAN_NAME) + AfterEan(f)
  {
    Regroup(SUPPORTED_PREFIX, Part(f.qrCode, QRCODE_NAME), Part(f.dataMatrix, DATAMATRIX_NAME), Part(f.ean, EAN_NAME),
            Part(f.code39, CODE39_NAME), Part(f.code128, CODE128_NAME));
  }

  lemma TailsDoNotClash(f: Formats)
    ensures AfterQrCode(f) == [] || !StartsWith(AfterQrCode(f), QRCODE_NAME)
    ensures AfterDataMatrix(f) == [] || !StartsWith(AfterDataMatrix(f), DATAMATRIX_NAME)
    ensures AfterEan(f) == [] || !StartsWith(AfterEan(f), EAN_NAME)
    ensures Part(f.code128, CODE128_NAME) == [] || !StartsWith(Part(f.code128, CODE128_NAME), CODE39_NAME)
  {
    var a, b, c := AfterQrCode(f), AfterDataMatrix(f), AfterEan(f);
    if a != [] {
      assert a[0] == ',';
      assert QRCODE_NAME[0] == 'Q';
    }
    if b != [] {
      assert b[1] == 'E' || b[1] == 'C';
      assert DATAMATRIX_NAME[1] == 'D';
    }
    if c != [] {
      assert c[1] == 'C';
      assert EAN_NAME[1] == 'E';
    }
    if f.code128 {
      assert CODE128_NAME[6] == '1' && CODE39_NAME[6] == '3';
    }
  }

  /** The label determines the flags: reading it back recovers them, so
      different capabilities give different labels. */
  lemma SupportedTextParses(f: Formats)
    ensures ParseSupported(SupportedText(f)) == Some(f)
  {
    var s := SupportedText(f);
    var a, b, c := AfterQrCode(f), AfterDataMatrix(f), AfterEan(f);
    var d := Part(f.code128, CODE128_NAME);
    SupportedTextNested(f);
    assert s[..|SUPPORTED_PREFIX|] == SUPPORTED_PREFIX;
    assert s[|SUPPORTED_PREFIX|..] == Part(f.qrCode, QRCODE_NAME) + a;
    assert d == Part(f.code128, CODE128_NAME) + [];
    TailsDoNotClash(f);
    ConsumePart(f.qrCode, QRCODE_NAME, a);
    ConsumePart(f.dataMatrix, DATAMATRIX_NAME, b);
    ConsumePart(f.ean, EAN_NAME, c);
    ConsumePart(f.code39, CODE39_NAME, d);
    ConsumePart(f.code128, CODE128_NAME, []);
  }

  lemma SupportedTextInjective(f: Formats, g: Formats)
    requires SupportedText(f) == SupportedText(g)
    ensures f == g
  {
    SupportedTextParses(f);
    SupportedTextParses(g);
  }

  /** The comma quirk: without QR codes, any other supported name leaves a
      comma straight after the prefix; with none at all the label is the bare
      prefix. */
  lemma SupportedTextCommaQuirk(f: Formats)
    ensures !f.qrCode && (f.dataMatrix || f.ean || f.code39 || f.code128) ==>
              |SupportedText(f)| > |SUPPORTED_PREFIX| && SupportedText(f)[|SUPPORTED_PREFIX|] == ','
    ensures f == Formats(false, false, false, false, false) ==> SupportedText(f) == SUPPORTED_PREFIX
    ensures f == Formats(true, true, true, true, true) ==>
              SupportedText(f) == "Supported: QRCode,Data Matrix,EAN,Code 39,Code 128"
  {
    if f == Formats(true, true, true, true, true) {
      assert SUPPORTED_PREFIX + QRCODE_NAME == "Supported: QRCode";
      assert "Supported: QRCode" + DATAMATRIX_NAME == "Supported: QRCode,Data Matrix";
      assert "Supported: QRCode,Data Matrix" + EAN_NAME == "Supported: QRCode,Data Matrix,EAN";
      assert "Supported: QRCode,Data Matrix,EAN" + CODE39_NAME == "Supported: QRCode,Data Matrix,EAN,Code 39";
      assert "Supported: QRCode,Data Matrix,EAN,Code 39" + CODE128_NAME ==
             "Supported: QRCode,Data Matrix,EAN,Code 39,Code 128";
    }
    var s := SupportedText(f);
    SupportedTextNested(f);
    if !f.qrCode && AfterQrCode(f) != [] {
      assert AfterQrCode(f)[0] == ',';
      assert s[|SUPPORTED_PREFIX|] == AfterQrCode(f)[0];
    }
  }

  // ---------------------------------------------------------------------------
  // The restart sentinel and the result

  /** A decoded text is shown exactly when it holds no `*`; a `*` asks for
      the preview to be restarted instead. */
  function ShowsResult(text: string): (r: bool)
    ensures r <==> '*' !in text
  {
    IndexOf(text, '*') == -1
  }

  /** `Activity.RESULT_OK` and the key under which the text is handed back. */
  const RESULT_OK: Int32 := -1
  const RESULT_KEY: string := "code"

  /** What `setResult` records: the code and the intent's extras. */
  datatype ActivityResult = ActivityResult(resultCode: Int32, extras: map<string, string>)

  /** The activity's fields as one value. */
  datatype ActivityState = ActivityState(
    hasSurface: bool,
    callbackInstalled: bool,
    fmtText: string,
    result: string,
    handler: Option<HandlerRef>,
    handlersCreated: nat,
    quitHandlers: seq<HandlerRef>,
    sent: seq<Message>,
    dialogs: seq<string>,
    activityResult: Option<ActivityResult>,
    finished: bool)

  class CaptureActivity {
    const cameraManager: CameraManager
    var hasSurface: bool
    /** Set once `onResume` installed the surface callback. */
    var callbackInstalled: bool
    /** The format label's text. */
    var fmtText: string
    var result: string
    /** The current `CaptureActivityHandler`, if any. */
    var handler: Option<HandlerRef>
    /** How many handlers were created; each new one is told apart by it. */
    var handlersCreated: nat
    /** Handlers asked to `quitSynchronously`, in order. */
    var quitHandlers: seq<HandlerRef>
    /** Messages sent to the handler, in order. */
    var sent: seq<Message>
    /** Dialog messages shown, in order. */
    var dialogs: seq<string>
    var activityResult: Option<ActivityResult>
    var finished: bool

    function State(): ActivityState
      reads this
    {
      ActivityState(hasSurface, callbackInstalled, fmtText, result, handler, handlersCreated, quitHandlers,
                    sent, dialogs, activityResult, finished)
    }

    /** The camera manager is consistent and the current handler is one
        that was created. */
    predicate Valid()
      reads this, cameraManager, cameraManager.config
    {
      cameraManager.Valid() && (handler.Some? ==> handler.value.id < handlersCreated)
    }

    /** A new activity: an empty result, nothing created or shown. */
    constructor (cameraManager: CameraManager)
      requires cameraManager.Valid()
      ensures this.cameraManager == cameraManager
      ensures State() == ActivityState(false, false, "", "", None, 0, [], [], [], None, false)
      ensures Valid()
    {
      this.cameraManager := cameraManager;
      hasSurface, callbackInstalled := false, false;
      fmtText, result := "", "";
      handler, handlersCreated, quitHandlers := None, 0, [];
      sent, dialogs := [], [];
      activityResult, finished := None, false;
    }

    function GetHandler(): Option<HandlerRef>
      reads this
    {
      handler
    }

    /** `onCreate`: no handler, no surface, a warning when the library did not
        load, and the label built name by name. */
    method OnCreate(caps: Capabilities)
      requires Valid()
      modifies this
      ensures Valid()
      ensures State() == old(State()).(handler := None, hasSurface := false, fmtText := SupportedText(caps.formats),
                                       dialogs := old(dialogs) + (if caps.sdkLoaded then [] else [SDK_MISSING]))
    {
      handler := None;
      hasSurface := false;
      if !caps.sdkLoaded {
        dialogs := dialogs + [SDK_MISSING];
      }
      var supported := BuildSupportedText(caps.formats);
      fmtText := supported;
    }

    /** `initCamera`: opens the driver; when that throws, the exception is
        logged and nothing else happens; otherwise a handler is created
        unless one exists. */
    method InitCamera(attempt: OpenAttempt, display: Point)
      requires Valid()
      modifies this, cameraManager, cameraManager.config
      ensures Valid()
      ensures cameraManager.camera == CameraAfterOpen(old(cameraManager.camera), attempt)
      ensures (cameraManager.State(), cameraManager.config.Fields()) ==
                AfterOpen(old(cameraManager.State()), old(cameraManager.config.Fields()), attempt, display)
      ensures OpenFails(old(cameraManager.camera).Some?, attempt) ==> State() == old(State())
      ensures !OpenFails(old(cameraManager.camera).Some?, attempt) && old(handler).Some? ==> State() == old(State())
      ensures !OpenFails(old(cameraManager.camera).Some?, attempt) && old(handler).None? ==>
                State() == old(State()).(handler := Some(HandlerRef(old(handlersCreated))),
                                         handlersCreated := old(handlersCreated) + 1)
    {
      var thrown := cameraManager.OpenDriver(attempt, display);
      if thrown.Some? {
        // the `IOException` and `RuntimeException` handlers; nothing else is thrown
        return;
      }
      if handler.None? {
        handler := Some(HandlerRef(handlersCreated));
        handlersCreated := handlersCreated + 1;
      }
    }

    /** `surfaceCreated`: only the first notification opens the camera. */
    method SurfaceCreated(attempt: OpenAttempt, display: Point)
      requires Valid()
      modifies this, cameraManager, cameraManager.config
      ensures Valid()
      ensures hasSurface
      ensures old(hasSurface) ==>
                State() == old(State()) && cameraManager.State() == old(cameraManager.State()) &&
                cameraManager.config.Fields() == old(cameraManager.config.Fields())
      ensures !old(hasSurface) ==>
                cameraManager.camera == CameraAfterOpen(old(cameraManager.camera), attempt) &&
                (cameraManager.State(), cameraManager.config.Fields()) ==
                  AfterOpen(old(cameraManager.State()), old(cameraManager.config.Fields()), attempt, display) &&
                (OpenFails(old(cameraManager.camera).Some?, attempt) || old(handler).Some? ==>
                   State() == old(State()).(hasSurface := true)) &&
                (!OpenFails(old(cameraManager.camera).Some?, attempt) && old(handler).None? ==>
                   State() == old(State()).(hasSurface := true, handler := Some(HandlerRef(old(handlersCreated))),
                                            handlersCreated := old(handlersCreated) + 1))
    {
      if !hasSurface {
        hasSurface := true;
        InitCamera(attempt, display);
      }
    }

    /** `surfaceDestroyed`. */
    method SurfaceDestroyed()
      modifies this
      ensures State() == old(State()).(hasSurface := false)
    {
      hasSurface := false;
    }

    /** `onResume`: with a surface still there the camera is opened at once;
        otherwise the surface callback is installed to wait for one. */
    method OnResume(attempt: OpenAttempt, display: Point)
      requires Valid()
      modifies this, cameraManager, cameraManager.config
      ensures Valid()
      ensures !old(hasSurface) ==>
                State() == old(State()).(callbackInstalled := true) && cameraManager.State() == old(cameraManager.State()) &&
                cameraManager.config.Fields() == old(cameraManager.config.Fields())
      ensures old(hasSurface) ==>
                cameraManager.camera == CameraAfterOpen(old(cameraManager.camera), attempt) &&
                (cameraManager.State(), cameraManager.config.Fields()) ==
                  AfterOpen(old(cameraManager.State()), old(cameraManager.config.Fields()), attempt, display) &&
                (OpenFails(old(cameraManager.camera).Some?, attempt) || old(handler).Some? ==> State() == old(State())) &&
                (!OpenFails(old(cameraManager.camera).Some?, attempt) && old(handler).None? ==>
                   State() == old(State()).(handler := Some(HandlerRef(old(handlersCreated))),
                                            handlersCreated := old(handlersCreated) + 1))
    {
      if hasSurface {
        InitCamera(attempt, display);
      } else {
        callbackInstalled := true;
      }
    }

    /** `onPause`: a handler is asked to quit and dropped; the driver is
        always closed. */
    method OnPause()
      requires Valid()
      modifies this, cameraManager
      ensures Valid()
      ensures cameraManager.camera.None?
      ensures old(handler).None? ==> State() == old(State())
      ensures old(handler).Some? ==>
                State() == old(State()).(handler := None, quitHandlers := old(quitHandlers) + [old(handler).value])
      ensures old(cameraManager.camera).None? ==> cameraManager.State() == old(cameraManager.State())
      ensures old(cameraManager.camera).Some? ==>
                cameraManager.State() == old(cameraManager.State()).(camera := None,
                                                                     calls := old(cameraManager.calls) + [Release])
    {
      if handler.Some? {
        quitHandlers := quitHandlers + [handler.value];
        handler := None;
      }
      cameraManager.CloseDriver();
    }

    /** `handleDecode`: a text without `*` becomes the result and is shown in
        one dialog with its format name; a text with `*` asks the handler, if
        there is one, to restart the preview, and leaves the result alone. A
        `null` text fails the `indexOf` with a `NullPointerException`. */
    method HandleDecode(raw: DecodeResult) returns (thrown: Option<JavaException>)
      modifies this
      ensures raw.text.None? ==> thrown == Some(NullPointerException) && State() == old(State())
      ensures raw.text.Some? ==> thrown == None
      ensures raw.text.Some? && ShowsResult(raw.text.value) ==>
                State() == old(State()).(result := raw.text.value,
                                         dialogs := old(dialogs) + [raw.formatName + "---" + raw.text.value])
      ensures raw.text.Some? && !ShowsResult(raw.text.value) && old(handler).None? ==> State() == old(State())
      ensures raw.text.Some? && !ShowsResult(raw.text.value) && old(handler).Some? ==>
                State() == old(State()).(sent := old(sent) + [Immediate(old(handler).value, RestartPreview, 0, 0, NoPayload)])
    {
      if raw.text.None? {
        return Some(NullPointerException);
      }
      thrown := None;
      var text := raw.text.value;
      if IndexOf(text, '*') == -1 {
        dialogs := dialogs + [raw.formatName + "---" + text];
        result := text;
      } else if handler.Some? {
        sent := sent + [Immediate(handler.value, RestartPreview, 0, 0, NoPayload)];
      }
    }

    /** The result dialog's OK button: the result is handed back under
        `"code"` with `RESULT_OK`, and the activity finishes. */
    method OkClicked()
      modifies this
      ensures State() == old(State()).(activityResult := Some(ActivityResult(RESULT_OK, map[RESULT_KEY := result])),
                                       finished := true)
      ensures activityResult.value.extras[RESULT_KEY] == result
    {
      activityResult := Some(ActivityResult(RESULT_OK, map[RESULT_KEY := result]));
      finished := true;
    }
  }
}
