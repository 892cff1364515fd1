/** `DecodeThread`: the symbology mask read from the preferences once, the
    dispatch of the messages its looper delivers, and the routing of one
    decoder answer into exactly one message for the capture screen. The
    `qmcore` decoder is a function parameter; the looper is reduced to one
    delivery at a time. */
module DecodeWorker {
  import opened JavaLang
  import opened Messaging
  import opened CameraManagement

  // ---------------------------------------------------------------------------
  // The symbology mask

  /** The five symbologies, each with a preference and a `qmcore` flag. */
  datatype Symbology = QrCode | DataMatrix | Ean | Code39 | Code128

  /** The order in which the constructor consults the preferences. */
  const SYMBOLOGIES: seq<Symbology> := [QrCode, DataMatrix, Ean, Code39, Code128]

  const PREFERENCE_QRCODE: string := "settings_qrcode"
  const PREFERENCE_DATAMATRIX: string := "settings_dmcode"
  const PREFERENCE_1D_EAN: string := "settings_ean"
  const PREFERENCE_1D_CODE39: string := "settings_code39"
  const PREFERENCE_1D_CODE128: string := "settings_code128"

  function PreferenceKey(s: Symbology): string
  {
    match s
    case QrCode => PREFERENCE_QRCODE
    case DataMatrix => PREFERENCE_DATAMATRIX
    case Ean => PREFERENCE_1D_EAN
    case Code39 => PREFERENCE_1D_CODE39
    case Code128 => PREFERENCE_1D_CODE128
  }

  /** The shared preferences' boolean entries. */
  type Preferences = map<string, bool>

  /** `getBoolean(key, defValue)`. */
  function GetBoolean(prefs: Preferences, key: string, defValue: bool): bool
  {
    if key in prefs then prefs[key] else defValue
  }

  /** The preference of a symbology, `true` when it was never stored. */
  predicate Enabled(prefs: Preferences, s: Symbology)
  {
    GetBoolean(prefs, PreferenceKey(s), true)
  }

  /** A Java `int` used as a bit mask, seen as the set of positions of its
      one bits; `|` is union and `a & b == 0` is disjointness. */
  type Bits = b: set<nat> | forall i | i in b :: i < 32

  /** The value of `qmcore`'s constant for each symbology; the constants are
      not known, so every property below holds for any choice of them. */
  type Flags = Symbology -> Bits

  /** The mask obtained from 0 by OR-ing in, in order, the flag of each
      symbology of `syms` whose preference is on. */
  function MaskOver(prefs: Preferences, flags: Flags, syms: seq<Symbology>): Bits
  {
    if |syms| == 0 then {}
    else
      var m := MaskOver(prefs, flags, syms[..|syms| - 1]);
      var s := syms[|syms| - 1];
      if Enabled(prefs, s) then m + flags(s) else m
  }

  /** The mask the constructor builds: `decodeFormat`. */
  function DecodeFormat(prefs: Preferences, flags: Flags): Bits
  {
    MaskOver(prefs, flags, SYMBOLOGIES)
  }

  /** All the flags of `syms` OR-ed together. */
  function FlagsOf(flags: Flags, syms: seq<Symbology>): Bits
  {
    if |syms| == 0 then {} else FlagsOf(flags, syms[..|syms| - 1]) + flags(syms[|syms| - 1])
  }

  /** No two constants share a bit. */
  predicate DisjointFlags(flags: Flags)
  {
    forall a: Symbology, b: Symbology :: a != b ==> flags(a) !! flags(b)
  }

  /** Every bit of an enabled symbology's flag is set in the mask. */
  lemma {:induction false} MaskHasEnabled(prefs: Preferences, flags: Flags, syms: seq<Symbology>, s: Symbology)
    requires s in syms && Enabled(prefs, s)
    ensures flags(s) <= MaskOver(prefs, flags, syms)
  {
    var n := |syms| - 1;
    if syms[n] != s {
      assert s in syms[..n] by {
        var k :| 0 <= k < |syms| && syms[k] == s;
        assert k < n && syms[..n][k] == s;
      }
      MaskHasEnabled(prefs, flags, syms[..n], s);
    }
  }

  /** The mask has no bit outside the flags: it starts from 0 and only flags
      are OR-ed in. */
  lemma {:induction false} MaskWithinFlags(prefs: Preferences, flags: Flags, syms: seq<Symbology>)
    ensures MaskOver(prefs, flags, syms) <= FlagsOf(flags, syms)
  {
    if |syms| > 0 {
      MaskWithinFlags(prefs, flags, syms[..|syms| - 1]);
    }
  }

  /** With disjoint flags, a disabled symbology contributes no bit. */
  lemma {:induction false} MaskOmitsDisabled(prefs: Preferences, flags: Flags, syms: seq<Symbology>, s: Symbology)
    requires DisjointFlags(flags) && !Enabled(prefs, s)
    ensures MaskOver(prefs, flags, syms) !! flags(s)
  {
    if |syms| > 0 {
      var t := syms[|syms| - 1];
      MaskOmitsDisabled(prefs, flags, syms[..|syms| - 1], s);
      if t != s {
        assert flags(t) !! flags(s);
      }
    }
  }

  /** The constructor's mask: a symbology's (non-zero, disjoint) flag is set
      exactly when its preference is on or missing, and no other bit is. */
  lemma DecodeFormatSelectsEnabled(prefs: Preferences, flags: Flags, s: Symbology)
    requires DisjointFlags(flags) && flags(s) != {}
    ensures flags(s) <= DecodeFormat(prefs, flags) <==> Enabled(prefs, s)
    ensures !Enabled(prefs, s) ==> DecodeFormat(prefs, flags) !! flags(s)
    ensures PreferenceKey(s) !in prefs ==> flags(s) <= DecodeFormat(prefs, flags)
    ensures DecodeFormat(prefs, flags) <= FlagsOf(flags, SYMBOLOGIES)
  {
    if Enabled(prefs, s) {
      assert s in SYMBOLOGIES by {
        match s
        case QrCode => assert SYMBOLOGIES[0] == s;
        case DataMatrix => assert SYMBOLOGIES[1] == s;
        case Ean => assert SYMBOLOGIES[2] == s;
        case Code39 => assert SYMBOLOGIES[3] == s;
        case Code128 => assert SYMBOLOGIES[4] == s;
      }
      MaskHasEnabled(prefs, flags, SYMBOLOGIES, s);
    } else {
      MaskOmitsDisabled(prefs, flags, SYMBOLOGIES, s);
    }
    MaskWithinFlags(prefs, flags, SYMBOLOGIES);
  }

  /** Preferences other than the five keys do not affect the mask. */
  lemma {:induction false} MaskIgnoresOtherKeys(prefs: Preferences, flags: Flags, syms: seq<Symbology>, key: string, value: bool)
    requires forall s: Symbology :: PreferenceKey(s) != key
    ensures MaskOver(prefs[key := value], flags, syms) == MaskOver(prefs, flags, syms)
  {
    if |syms| > 0 {
      var t := syms[|syms| - 1];
      assert PreferenceKey(t) != key;
      assert Enabled(prefs[key := value], t) == Enabled(prefs, t);
      MaskIgnoresOtherKeys(prefs, flags, syms[..|syms| - 1], key, value);
    }
  }

  // ---------------------------------------------------------------------------
  // Routing a decoder answer

  /** The bit depth handed to the decoder: 8 bits per (luminance) pixel. */
  const BIT_DEPTH: int := 8

  /** `QuickMarkDecoder.decode(matrix, width, height, bitDepth, format)`:
      the decoder reads the buffer through its accessors and answers a result
      or `null`. */
  type Decoder = (DecodeBuffer, int, Bits) -> Option<DecodeResult>

  /** The one message `decode` sends to the capture screen's handler. */
  function Route(result: Option<DecodeResult>, target: HandlerRef): (m: Message)
    ensures m.target == target && m.delayMs == 0
    ensures m.what == DecodeSucceeded <==> result.Some?
    ensures m.what == DecodeFailed <==> result.None?
    ensures result.Some? ==> m.obj == Decoded(result.value)
  {
    if result.Some? then Immediate(target, DecodeSucceeded, 0, 0, Decoded(result.value))
    else Immediate(target, DecodeFailed, 0, 0, NoPayload)
  }

  /** What the capture screen recovers from a routed message: the result of
      a success, `null` for anything else. */
  function Received(m: Message): Option<DecodeResult>
  {
    if m.what == DecodeSucceeded && m.obj.Decoded? then Some(m.obj.result) else None
  }

  /** The receiver sees exactly the decoder's answer. */
  lemma RouteReceived(result: Option<DecodeResult>, target: HandlerRef)
    ensures Received(Route(result, target)) == result
  {
  }

  /** The rest of `decode` once `buildDecodeBuffer` has answered: its
      exception propagates; otherwise the decoder is asked with bit depth 8
      and the mask, and its answer is routed to the activity's handler,
      where a `null` handler makes `sendToTarget` throw. */
  function Delivery(buffer: Outcome<DecodeBuffer>, target: Option<HandlerRef>, decoder: Decoder, mask: Bits): Outcome<Message>
  {
    match buffer
    case Thrown(e) => Thrown(e)
    case Ok(b) =>
      if target.None? then Thrown(NullPointerException) else Ok(Route(decoder(b, BIT_DEPTH, mask), target.value))
  }

  /** A delivery sends a message exactly when a buffer was built and there is
      a handler, and that message carries the decoder's answer; never both a
      success and a failure. */
  lemma DeliveryExactlyOne(buffer: Outcome<DecodeBuffer>, target: Option<HandlerRef>, decoder: Decoder, mask: Bits)
    ensures var d := Delivery(buffer, target, decoder, mask);
            (d.Ok? <==> buffer.Ok? && target.Some?) &&
            (d.Ok? ==> d.value.target == target.value &&
                       Received(d.value) == decoder(buffer.value, BIT_DEPTH, mask) &&
                       (d.value.what == DecodeSucceeded || d.value.what == DecodeFailed)) &&
            (buffer.Thrown? ==> d == Thrown(buffer.exception))
  {
  }

  // ---------------------------------------------------------------------------
  // The thread

  /** The constructor's reading of the preferences: the five are consulted
      in order, each defaulting to `true`, and the matching flag is OR-ed
      into a mask that starts at 0. */
  method ReadDecodeFormat(prefs: Preferences, flags: Flags) returns (mask: Bits)
    ensures mask == DecodeFormat(prefs, flags)
  {
    mask := {};
    if GetBoolean(prefs, PREFERENCE_QRCODE, true) {
      mask := mask + flags(QrCode);
    }
    assert mask == MaskOver(prefs, flags, SYMBOLOGIES[..1]);
    if GetBoolean(prefs, PREFERENCE_DATAMATRIX, true) {
      mask := mask + flags(DataMatrix);
    }
    assert SYMBOLOGIES[..2][..1] == SYMBOLOGIES[..1];
    assert mask == MaskOver(prefs, flags, SYMBOLOGIES[..2]);
    if GetBoolean(prefs, PREFERENCE_1D_EAN, true) {
      mask := mask + flags(Ean);
    }
    assert SYMBOLOGIES[..3][..2] == SYMBOLOGIES[..2];
    assert mask == MaskOver(prefs, flags, SYMBOLOGIES[..3]);
    if GetBoolean(prefs, PREFERENCE_1D_CODE39, true) {
      mask := mask + flags(Code39);
    }
    assert SYMBOLOGIES[..4][..3] == SYMBOLOGIES[..3];
    assert mask == MaskOver(prefs, flags, SYMBOLOGIES[..4]);
    if GetBoolean(prefs, PREFERENCE_1D_CODE128, true) {
      mask := mask + flags(Code128);
    }
    assert SYMBOLOGIES[..5] == SYMBOLOGIES;
  }

  class DecodeThread {
    const cameraManager: CameraManager
    const decoder: Decoder
    var decodeFormat: Bits
    /** Set once the looper was asked to quit. */
    var quit: bool
    /** Messages sent to the capture screen's handler, in order. */
    var sent: seq<Message>

    /** The constructor: the mask from the preferences, nothing sent. */
    constructor (prefs: Preferences, flags: Flags, cameraManager: CameraManager, decoder: Decoder)
      ensures this.cameraManager == cameraManager && this.decoder == decoder
      ensures decodeFormat == DecodeFormat(prefs, flags)
      ensures !quit && sent == []
    {
      this.cameraManager := cameraManager;
      this.decoder := decoder;
      var mask := ReadDecodeFormat(prefs, flags);
      decodeFormat := mask;
      quit := false;
      sent := [];
    }

    /** `decode(data, width, height)`: builds the buffer, asks the decoder and
        sends exactly one message when nothing threw. */
    method Decode(data: seq<bv8>, width: Int32, height: Int32, target: Option<HandlerRef>)
      returns (thrown: Option<JavaException>)
      requires cameraManager.Valid()
      modifies this, cameraManager
      ensures cameraManager.Valid()
      ensures decodeFormat == old(decodeFormat) && quit == old(quit)
      ensures var d := Delivery(old(cameraManager.BufferNow(data, width, height)), target, decoder, decodeFormat);
              (d.Thrown? ==> thrown == Some(d.exception) && sent == old(sent)) &&
              (d.Ok? ==> thrown == None && sent == old(sent) + [d.value])
      ensures cameraManager.State() == old(cameraManager.StateAfterPreviewRect())
    {
      ghost var after, built := cameraManager.StateAfterPreviewRect(), cameraManager.BufferNow(data, width, height);
      var buffer := cameraManager.BuildDecodeBuffer(data, width, height);
      assert cameraManager.State() == after && buffer == built;
      thrown := None;
      if buffer.Thrown? {
        thrown := Some(buffer.exception);
      } else {
        var rawResult := decoder(buffer.value, BIT_DEPTH, decodeFormat);
        if target.None? {
          thrown := Some(NullPointerException);
        } else {
          sent := sent + [Route(rawResult, target.value)];
        }
      }
    }

    /** `handleMessage`: a decode message decodes the frame it carries with
        its two arguments as width and height, a quit message stops the
        looper, and any other message is ignored. A decode message whose object
        is not a frame fails the `(byte[])` cast. */
    method HandleMessage(m: Message, target: Option<HandlerRef>) returns (thrown: Option<JavaException>)
      requires cameraManager.Valid()
      modifies this, cameraManager
      ensures cameraManager.Valid()
      ensures decodeFormat == old(decodeFormat)
      ensures m.what == Id.Decode && m.obj.FrameData? ==>
                quit == old(quit) &&
                var d := Delivery(old(cameraManager.BufferNow(m.obj.data, m.arg1, m.arg2)), target, decoder, decodeFormat);
                (d.Thrown? ==> thrown == Some(d.exception) && sent == old(sent)) &&
                (d.Ok? ==> thrown == None && sent == old(sent) + [d.value]) &&
                cameraManager.State() == old(cameraManager.StateAfterPreviewRect())
      ensures m.what == Id.Decode && !m.obj.FrameData? ==>
                thrown == Some(ClassCastException) && quit == old(quit) && sent == old(sent) &&
                cameraManager.State() == old(cameraManager.State())
      ensures m.what == Quit ==>
                thrown == None && quit && sent == old(sent) && cameraManager.State() == old(cameraManager.State())
      ensures m.what != Id.Decode && m.what != Quit ==>
                thrown == None && quit == old(quit) && sent == old(sent) &&
                cameraManager.State() == old(cameraManager.State())
    {
      thrown := None;
      if m.what == Id.Decode {
        if !m.obj.FrameData? {
          return Some(ClassCastException);
        }
        thrown := Decode(m.obj.data, m.arg1, m.arg2, target);
      }
      if m.what == Quit {
        quit := true;
      }
    }
  }
}
