# QuickMark SDK demo: camera, preview-size negotiation and decode hand-off

A Dafny model of the core of the QuickMark barcode-scanner demo for Android
(package `tw.com.quickmark.sdk.demo`). It covers five parts.

- **Preview-size negotiation** (`CameraConfigurationManager`).
  - The driver's size list, such as `"320x480,640x960"`, is split at commas.
  - Each entry is trimmed, cut at its first `x`, and both sides are read by
    `Integer.parseInt`.
  - The size nearest the screen in L1 distance wins. Ties go to the first size
    seen, and an exact match ends the scan.
  - A winner that is not positive on both sides is refused. The fallback is the
    screen size rounded down to a multiple of 8.
- **The camera manager** (`CameraManager`).
  - Its open/close and start/stop preview state machine.
  - The one-shot registrations for a preview frame and an autofocus result.
  - The cached scan rectangle: three quarters of the screen, clamped to
    [240, 480] x [240, 360] and centred, then rescaled into camera-buffer
    coordinates.
  - The choice of decode buffer by preview format.
  - The platform-version test that selects one-shot preview callbacks.
- **The decode worker** (`DecodeThread`).
  - The symbology mask built from five preferences that default to `true`.
  - The `handleMessage` dispatch.
  - Routing of a decoder answer into exactly one "succeeded" or "failed"
    message.
- **The capture screen** (`CaptureActivity`).
  - The "Supported: ..." text.
  - The `*` sentinel rule for decoded text.
  - The result handed back by the OK button.
  - The `hasSurface` and `handler` lifecycle guards.
- **The preference keys** (`PreferencesActivity`).

Java semantics the model relies on are written out in module `JavaLang`:
- 32-bit `int` wrap-around;
- truncating `/`, and `Math.abs(Integer.MIN_VALUE)`;
- `String.indexOf` and `String.trim`;
- `Pattern.split` (trailing empty strings dropped);
- `Integer.parseInt` and `Integer.toString`.

Files:
- `java_lang.dfy`: module `JavaLang`.
- `messaging.dfy`: module `Messaging`. `android.os.Message` becomes a record; message codes become constructors.
- `camera_configuration.dfy`: module `CameraConfiguration`.
- `camera_manager.dfy`: module `CameraManagement`.
- `decode_thread.dfy`: module `DecodeWorker`.
- `capture_activity.dfy`: module `Capture`.

Stateful classes become Dafny classes with the same fields:
- `CameraConfigurationManager`
- `CameraManager`
- `DecodeThread`
- `CaptureActivity`

Each class method states its whole new state. That covers its own fields and
those of the objects it reaches: the camera manager's through its `State()`,
and the configuration's through its `Fields()`.
Pure computations are functions. Lemmas about those functions state what the
source promises.

How the outside world appears in the model:
- The camera hardware is an `OpenAttempt` value: `Camera.open()` returns
  `null`, throws, or opens a camera whose `setPreviewDisplay` succeeds or
  throws.
- Calls made on the camera are recorded in order in `calls`.
- Messages handed to handlers are recorded in order in `sent`.
- Exceptions are an `Outcome` or an `Option<JavaException>` result.

## Model

| member | source | states |
|---|---|---|
| JavaLang.Wrap32 | src/tw/com/quickmark/sdk/demo/CameraManager.java:249 | The 32-bit result is congruent to the exact value modulo 2^32 and equals it when it fits in an `int`. |
| JavaLang.JavaDiv | src/tw/com/quickmark/sdk/demo/CameraManager.java:261-262 | Java's quotient. It agrees with floor division for a non-negative dividend and positive divisor, is no larger in magnitude than the dividend, and is non-negative when the operand signs agree and non-positive when they differ. |
| JavaLang.JavaDivTruncates | src/tw/com/quickmark/sdk/demo/CameraManager.java:261-262 | The quotient rounds toward zero: the remainder takes the dividend's sign and is smaller in magnitude than the divisor. |
| JavaLang.Div32 | src/tw/com/quickmark/sdk/demo/CameraManager.java:278-281 | `int` division is the truncating quotient, except that `MIN_VALUE / -1` wraps to `MIN_VALUE`. |
| JavaLang.Abs32 | src/tw/com/quickmark/sdk/demo/CameraConfigurationManager.java:153 | `Math.abs` is the absolute value, except that `MIN_VALUE` stays `MIN_VALUE`. |
| JavaLang.IndexOf | src/tw/com/quickmark/sdk/demo/CameraConfigurationManager.java:137 | The result is -1 exactly when the character is absent. Otherwise it is the position of the first occurrence. |
| JavaLang.Trim | src/tw/com/quickmark/sdk/demo/CameraConfigurationManager.java:136 | The result is the slice of the input between maximal runs of characters `<= ' '` at each end, and neither of its ends is such a character. |
| JavaLang.CommaPieces | src/tw/com/quickmark/sdk/demo/CameraConfigurationManager.java:134 | The input cut at every comma into at least one comma-free piece, which join back to the input. |
| JavaLang.CommaPiecesJoin | src/tw/com/quickmark/sdk/demo/CameraConfigurationManager.java:134 | Cutting at commas inverts joining comma-free pieces. |
| JavaLang.SplitComma | src/tw/com/quickmark/sdk/demo/CameraConfigurationManager.java:134 | `COMMA_PATTERN.split`: the comma pieces with trailing empty ones dropped. A string without a comma gives itself alone. |
| JavaLang.SplitCommaJoin | src/tw/com/quickmark/sdk/demo/CameraConfigurationManager.java:134 | Splitting joined comma-free pieces whose last piece is non-empty gives the pieces back. |
| JavaLang.ParseInt | src/tw/com/quickmark/sdk/demo/CameraConfigurationManager.java:146-147 | Accepts only an optional sign followed by decimal digits (no spaces). A negative value needs a leading `-`. |
| JavaLang.ParseIntToString | src/tw/com/quickmark/sdk/demo/CameraConfigurationManager.java:146-147 | `Integer.parseInt` reads back every `int` that `Integer.toString` prints. |
| CameraConfiguration.Get | src/tw/com/quickmark/sdk/demo/CameraConfigurationManager.java:105 | `parameters.get` is non-null exactly for a reported key, and then it is that key's value. |
| CameraConfiguration.ParseSize | src/tw/com/quickmark/sdk/demo/CameraConfigurationManager.java:136-151 | Only a trimmed entry containing `x` can yield a size. Cut at its first `x`, it yields a size exactly when both sides parse as integers, and the size is those two integers. |
| CameraConfiguration.TrimFormatted | src/tw/com/quickmark/sdk/demo/CameraConfigurationManager.java:136 | Trimming a size written as `WxH` with trimmable padding on either side leaves just `WxH`. |
| CameraConfiguration.ParseTrimmedFormat | src/tw/com/quickmark/sdk/demo/CameraConfigurationManager.java:137-151 | An entry that trims to `WxH` parses to that size. |
| CameraConfiguration.ParseFormattedSize | src/tw/com/quickmark/sdk/demo/CameraConfigurationManager.java:136-151 | A size written as `WxH`, padded on either side with trimmable characters, parses back to itself. |
| CameraConfiguration.IndexAfterPrefix | src/tw/com/quickmark/sdk/demo/CameraConfigurationManager.java:137 | The entry is cut at its first `x`. |
| CameraConfiguration.Diff | src/tw/com/quickmark/sdk/demo/CameraConfigurationManager.java:153 | The 32-bit distance equals the L1 distance to the screen whenever that fits in an `int`. |
| CameraConfiguration.BestPreviewSize | src/tw/com/quickmark/sdk/demo/CameraConfigurationManager.java:166-169 | A returned size is positive on both sides and is one of the well-formed entries. |
| CameraConfiguration.MalformedEntryIgnored | src/tw/com/quickmark/sdk/demo/CameraConfigurationManager.java:138-151 | An entry that does not parse leaves the candidates exactly as if it were absent. |
| CameraConfiguration.ScanStopsForGood | src/tw/com/quickmark/sdk/demo/CameraConfigurationManager.java:154-157 | After an exact match, further candidates change nothing. |
| CameraConfiguration.ScanBestIsCandidate | src/tw/com/quickmark/sdk/demo/CameraConfigurationManager.java:131-162 | The scan ends holding either the initial (0, 0) or one of the candidates. |
| CameraConfiguration.ScanIsEarliestMinimum | src/tw/com/quickmark/sdk/demo/CameraConfigurationManager.java:153-162 | Without an exact match: the final distance is at most every candidate's distance; the winner is the earliest candidate at that distance; and (0, 0) remains when no distance went below `MAX_VALUE`. |
| CameraConfiguration.ScanTakesFirstExact | src/tw/com/quickmark/sdk/demo/CameraConfigurationManager.java:154-157 | The first candidate at distance 0 is the winner and the scan stops there. |
| CameraConfiguration.ScanEntriesIsScan | src/tw/com/quickmark/sdk/demo/CameraConfigurationManager.java:134-164 | Scanning raw entries and skipping bad ones is the same as scanning the parsed candidates. |
| CameraConfiguration.ScanEntriesStopped | src/tw/com/quickmark/sdk/demo/CameraConfigurationManager.java:157 | Entries after the `break` are never examined. |
| CameraConfiguration.ScanSizes | src/tw/com/quickmark/sdk/demo/CameraConfigurationManager.java:131-164 | The loop, with its `continue` and `break`, ends with `bestX`/`bestY` equal to the scan's winner. |
| CameraConfiguration.FindBestPreviewSizeValue | src/tw/com/quickmark/sdk/demo/CameraConfigurationManager.java:129-170 | The method returns `BestPreviewSize` of its inputs. |
| CameraConfiguration.SizeListCandidates | src/tw/com/quickmark/sdk/demo/CameraConfigurationManager.java:134-151 | A size list as a driver writes it yields exactly its sizes, in order. The empty list yields no candidates. |
| CameraConfiguration.BestOfSizeList | src/tw/com/quickmark/sdk/demo/CameraConfigurationManager.java:129-170 | On such a list the answer is the scan's winner if it is positive on both sides, otherwise `null`. |
| CameraConfiguration.ChoosesNearestExample | src/tw/com/quickmark/sdk/demo/CameraConfigurationManager.java:134-167 | On a 480x800 screen, `320x480,640x960,720x1280` has distances 480, 320 and 720, so it yields 640x960. |
| CameraConfiguration.NonPositiveWinnerExample | src/tw/com/quickmark/sdk/demo/CameraConfigurationManager.java:166-169 | An exact match 0x800 displaces the valid 320x480 and is then refused. The answer is `null`. |
| CameraConfiguration.PreviewSizeString | src/tw/com/quickmark/sdk/demo/CameraConfigurationManager.java:105-110 | `preview-size-value` is consulted only when `preview-size-values` is absent. |
| CameraConfiguration.RoundDownTo8 | src/tw/com/quickmark/sdk/demo/CameraConfigurationManager.java:122-123 | `(v >> 3) << 3` is a multiple of 8, at most `v`, and more than `v - 8`. |
| CameraConfiguration.FallbackResolution | src/tw/com/quickmark/sdk/demo/CameraConfigurationManager.java:119-124 | Each axis is the screen's value rounded down to a multiple of 8. |
| CameraConfiguration.CameraResolutionFor | src/tw/com/quickmark/sdk/demo/CameraConfigurationManager.java:104-127 | The best advertised size when a list exists and yields one; otherwise the rounded-down screen size. |
| CameraConfiguration.GetCameraResolutionFrom | src/tw/com/quickmark/sdk/demo/CameraConfigurationManager.java:104-127 | The method returns `CameraResolutionFor` of its inputs. |
| CameraConfiguration.DesiredParameters | src/tw/com/quickmark/sdk/demo/CameraConfigurationManager.java:70-86 | Sets the preview size to the negotiated resolution, the flash off, `zoom` 2.0 and `taking-picture-zoom` 20. Every other setting and the preview format are kept. |
| CameraConfiguration.CameraConfigurationManager.constructor | src/tw/com/quickmark/sdk/demo/CameraConfigurationManager.java:41-43 | Both points start `null`, the format starts 0 and its string starts `null`. |
| CameraConfiguration.CameraConfigurationManager.InitFromCameraParameters | src/tw/com/quickmark/sdk/demo/CameraConfigurationManager.java:48-62 | Its fields become the display size, the negotiated camera resolution, the reported format and its `preview-format` string (`ConfigAfterInit`). The getters return exactly these. |
| CameraManagement.SdkInt | src/tw/com/quickmark/sdk/demo/CameraManager.java:38-48 | The parsed platform version, or 10000 when it is not a number. |
| CameraManagement.UseOneShotOfLevel | src/tw/com/quickmark/sdk/demo/CameraManager.java:141 | One-shot callbacks are used exactly when the API level is above Cupcake (3), and also when the version string is unreadable. |
| CameraManagement.FramingSideClamped | src/tw/com/quickmark/sdk/demo/CameraManager.java:249-260 | The side lies within the clamp bounds. When `side * 3` fits in an `int`, the side is `side * 3 / 4`, or the bound it crosses. |
| CameraManagement.CentreBalanced | src/tw/com/quickmark/sdk/demo/CameraManager.java:261-262 | The truncating halving puts the odd spare pixel after a frame that fits, and the odd overhang pixel before a frame that is wider. |
| CameraManagement.FramingRectCentred | src/tw/com/quickmark/sdk/demo/CameraManager.java:249-263 | The rectangle is w by h with w in [240, 480] and h in [240, 360]. It lies inside a screen large enough, off by at most one pixel from centred, and overhangs both edges of a smaller one. |
| CameraManagement.PreviewRectFor | src/tw/com/quickmark/sdk/demo/CameraManager.java:278-281 | The rescaling throws `ArithmeticException` exactly when a screen side is 0. |
| CameraManagement.PreviewRectInsideCamera | src/tw/com/quickmark/sdk/demo/CameraManager.java:278-281 | A frame inside the screen maps to `edge * camera / screen` on each edge, inside the camera buffer and in order, when the products fit. |
| CameraManagement.DecodeBufferFor | src/tw/com/quickmark/sdk/demo/CameraManager.java:300-318 | A buffer is built exactly for `YCbCr_420_SP`, `YCbCr_422_SP` or the string `yuv420p`, over the rectangle's left, top, width and height. Anything else throws `IllegalArgumentException` carrying the format and its string. |
| CameraManagement.CameraManager.constructor | src/tw/com/quickmark/sdk/demo/CameraManager.java:130-142 | Nothing is open, cached or registered, and the configuration is unread. One-shot callbacks follow the platform version. |
| CameraManagement.CameraManager.OpenDriver | src/tw/com/quickmark/sdk/demo/CameraManager.java:150-164 | A no-op when a camera is open. A `null` camera throws `IOException`, and a throwing `open` passes its exception through. A refused display throws with the camera kept. The configuration is read only on the first successful open, and the desired parameters are set on every successful open. The manager's whole new state and the configuration's fields are `AfterOpen` of the old ones, the attempt and the display. |
| CameraManagement.OpenIsIdempotent | src/tw/com/quickmark/sdk/demo/CameraManager.java:150-164 | After an open that did not throw, a camera is held, and a second open changes neither the manager nor the configuration. |
| CameraManagement.OpenReadsConfigurationOnce | src/tw/com/quickmark/sdk/demo/CameraManager.java:150-164 | An initialized manager never re-reads its configuration, and a failed open leaves it alone. The first open that attaches the display reads it from the camera's parameters and the display. |
| CameraManagement.CameraManager.Attach | src/tw/com/quickmark/sdk/demo/CameraManager.java:156-162 | The opened camera is kept. A refused preview display throws `IOException` before any configuration; otherwise the camera is configured. |
| CameraManagement.CameraManager.Configure | src/tw/com/quickmark/sdk/demo/CameraManager.java:158-162 | The configuration is read only when not yet initialized. The desired parameters are then handed to the camera. |
| CameraManagement.CameraManager.CloseDriver | src/tw/com/quickmark/sdk/demo/CameraManager.java:169-174 | With a camera it is released and forgotten; without one nothing changes. |
| CameraManagement.CameraManager.StartPreview | src/tw/com/quickmark/sdk/demo/CameraManager.java:179-184 | Acts only on an open camera that is not previewing. |
| CameraManagement.CameraManager.StopPreview | src/tw/com/quickmark/sdk/demo/CameraManager.java:189-199 | Acts only on an open camera that is previewing. It clears both registrations and `previewing`. |
| CameraManagement.CameraManager.RequestPreviewFrame | src/tw/com/quickmark/sdk/demo/CameraManager.java:209-219 | Registers the handler and the message code only while open and previewing, with the callback flavour chosen at construction. |
| CameraManagement.CameraManager.RequestAutoFocus | src/tw/com/quickmark/sdk/demo/CameraManager.java:227-233 | Registers the handler and the message code only while open and previewing. |
| CameraManagement.CameraManager.OnPreviewFrame | src/tw/com/quickmark/sdk/demo/CameraManager.java:81-94 | A registered handler gets exactly one message carrying the camera resolution and the frame, and is then cleared. With no handler nothing is sent. |
| CameraManagement.CameraManager.OnAutoFocus | src/tw/com/quickmark/sdk/demo/CameraManager.java:99-107 | A registered handler gets exactly one message, delayed 1500 ms, and is then cleared. |
| CameraManagement.CameraManager.GetFramingRect | src/tw/com/quickmark/sdk/demo/CameraManager.java:242-267 | The cached rectangle when there is one; otherwise `null` without a camera, or the rectangle for the screen, now cached. |
| CameraManagement.CameraManager.GetFramingRectInPreview | src/tw/com/quickmark/sdk/demo/CameraManager.java:273-285 | The cached preview rectangle, or the screen rectangle rescaled and then cached. A missing screen rectangle or resolution is an exception. The screen rectangle is cached before the rescaling, so it stays cached even when the rescaling throws. The new state is `StateAfterPreviewRect` of the old one. |
| CameraManagement.CameraManager.BuildDecodeBuffer | src/tw/com/quickmark/sdk/demo/CameraManager.java:296-319 | The decode buffer for the preview rectangle and format, or the exception from either step. Only the rectangle caches change, exactly as in `GetFramingRectInPreview`. |
| DecodeWorker.MaskHasEnabled | src/tw/com/quickmark/sdk/demo/DecodeThread.java:41-50 | Every enabled symbology's flag is in the mask. |
| DecodeWorker.MaskWithinFlags | src/tw/com/quickmark/sdk/demo/DecodeThread.java:33-50 | Starting from 0, the mask holds no bit outside the five flags. |
| DecodeWorker.MaskOmitsDisabled | src/tw/com/quickmark/sdk/demo/DecodeThread.java:41-50 | With distinct flags, a disabled symbology's flag shares no bit with the mask. |
| DecodeWorker.DecodeFormatSelectsEnabled | src/tw/com/quickmark/sdk/demo/DecodeThread.java:41-50 | A flag is in the mask if and only if its preference is true, and a missing preference counts as true. |
| DecodeWorker.MaskIgnoresOtherKeys | src/tw/com/quickmark/sdk/demo/DecodeThread.java:41-50 | Preferences other than the five keys do not affect the mask. |
| DecodeWorker.ReadDecodeFormat | src/tw/com/quickmark/sdk/demo/DecodeThread.java:33-50 | The five conditional OR-assignments build exactly `DecodeFormat`. |
| DecodeWorker.Route | src/tw/com/quickmark/sdk/demo/DecodeThread.java:100-106 | A result gives `decode_succeeded` carrying it; no result gives `decode_failed`; never both. |
| DecodeWorker.RouteReceived | src/tw/com/quickmark/sdk/demo/DecodeThread.java:100-106 | The routed message gives the decoder's answer back. |
| DecodeWorker.DeliveryExactlyOne | src/tw/com/quickmark/sdk/demo/DecodeThread.java:85-106 | A message goes out exactly when a buffer was built and there is a handler. It carries the decoder's answer for the buffer, bit depth 8 and the unchanged mask. A buffer exception propagates. |
| DecodeWorker.DecodeThread.constructor | src/tw/com/quickmark/sdk/demo/DecodeThread.java:35-52 | The mask is `DecodeFormat` of the preferences; nothing has been sent. |
| DecodeWorker.DecodeThread.Decode | src/tw/com/quickmark/sdk/demo/DecodeThread.java:83-107 | Sends exactly the delivery's message, or throws its exception and sends nothing. Only the camera manager's rectangle caches change, exactly as in `GetFramingRectInPreview`. |
| DecodeWorker.DecodeThread.HandleMessage | src/tw/com/quickmark/sdk/demo/DecodeThread.java:61-66 | A `decode` message decodes its frame with `arg1`/`arg2` as width and height, and the camera manager changes as in `Decode`. A `quit` message stops the loop. Any other code changes nothing. |
| Capture.BuildSupportedText | src/tw/com/quickmark/sdk/demo/CaptureActivity.java:95-106 | The five conditional appends build exactly `SupportedText`. |
| Capture.SupportedTextParses | src/tw/com/quickmark/sdk/demo/CaptureActivity.java:95-105 | The text can be parsed back into the five flags: each name is present exactly when its flag is set, in the fixed order. |
| Capture.SupportedTextInjective | src/tw/com/quickmark/sdk/demo/CaptureActivity.java:95-105 | Different flag sets give different texts. |
| Capture.SupportedTextCommaQuirk | src/tw/com/quickmark/sdk/demo/CaptureActivity.java:95-105 | Without QR code a comma follows the prefix whenever another format is set. No formats give just `Supported: `, and all five give the full list. |
| Capture.ShowsResult | src/tw/com/quickmark/sdk/demo/CaptureActivity.java:210 | A result is shown exactly when the text has no `*`. |
| Capture.CaptureActivity.constructor | src/tw/com/quickmark/sdk/demo/CaptureActivity.java:51-56 | The result starts as the empty string. There is no surface and no handler, and nothing has been shown or sent. |
| Capture.CaptureActivity.OnCreate | src/tw/com/quickmark/sdk/demo/CaptureActivity.java:66-107 | Clears the handler and the surface flag. Shows the SDK-missing dialog only when the SDK failed to load, and sets the supported-formats text. |
| Capture.CaptureActivity.InitCamera | src/tw/com/quickmark/sdk/demo/CaptureActivity.java:169-182 | When opening the driver throws, nothing else happens. Otherwise a handler is created only if none exists. The camera manager and its configuration change as in `OpenDriver`. |
| Capture.CaptureActivity.SurfaceCreated | src/tw/com/quickmark/sdk/demo/CaptureActivity.java:115-120 | Only the first notification opens the camera, as `OpenDriver` does, and then the surface flag is set. A later one changes nothing. |
| Capture.CaptureActivity.SurfaceDestroyed | src/tw/com/quickmark/sdk/demo/CaptureActivity.java:123-125 | Clears the surface flag and nothing else. |
| Capture.CaptureActivity.OnResume | src/tw/com/quickmark/sdk/demo/CaptureActivity.java:128-142 | With a surface the camera is opened at once, as `OpenDriver` does. Otherwise the surface callback is installed and the camera manager is left alone. |
| Capture.CaptureActivity.OnPause | src/tw/com/quickmark/sdk/demo/CaptureActivity.java:145-152 | A present handler is asked to quit and is dropped. The driver is closed in every case. |
| Capture.CaptureActivity.HandleDecode | src/tw/com/quickmark/sdk/demo/CaptureActivity.java:188-227 | A `null` text throws `NullPointerException` and changes nothing. Text without `*` becomes the result, shown in exactly one dialog with its format name. Text with `*` leaves the result alone and sends `restart_preview` exactly when there is a handler. |
| Capture.CaptureActivity.OkClicked | src/tw/com/quickmark/sdk/demo/CaptureActivity.java:229-243 | Hands back the result under `"code"` with `RESULT_OK`, and the activity finishes. |

## Left out

- Camera hardware (`Camera.open`, `setPreviewDisplay`, `setParameters`, `startPreview`, `autoFocus`, preview callbacks): an `OpenAttempt` input and a log of calls. Only what the source does with the answers is modelled.
- The screen size comes from the `WindowManager` display. It is an input (`display`) of `OpenDriver` and `InitFromCameraParameters`.
- `Looper`, `Handler` and `Thread`: message delivery, the `run` loop and real time are not modelled. Sent messages are recorded with their delay; `quit` is a flag.
- `CaptureActivityHandler` is not part of this model. A new one is a fresh `HandlerRef` and quitting it is recorded. Its own behaviour (restarting the preview, starting the decode thread) is left out.
- The `qmcore` decoder and the values of its symbology constants are not part of this model. The decoder is a function parameter and the constants are a parameter `flags`. Some lemmas assume the five flags are distinct and non-empty.
- A symbology mask is modelled as the set of its one-bits, so bitwise OR is set union. The 32-bit pattern is not modelled.
- `DecodeBufferSource` is not part of this model. It is a record of its constructor arguments, and the decoder receives that record in place of `getMatrix()`, `getWidth()` and `getHeight()`.
- `Result` holds only its text, which may be `null`, and its format name. `BarcodeFormat.getName()` is that name.
- `CameraManager.init` and `get`, and the `Context`: the singleton is an object passed to its users.
- `Camera.Parameters` holds only its integer preview format and a map of its flattened settings. `setDesiredCameraParameters` is a map update handed to the camera as a recorded call.
- UI is left out: `ViewfinderView`, `drawViewfinder`, vibration, menus, the about page and the `PreferencesActivity` screen. Dialogs are recorded by their message text, the `TextView` by its text, `setResult`/`finish` as fields.
- Logging is left out.
- `Integer.parseInt` reads only ASCII digits. Other Unicode decimal digits, which Java also accepts, are not modelled.
- `DecodeWorker.DecodeThread.HandleMessage`: a `decode` message whose object is not a frame is modelled as `ClassCastException`. That includes a `null` object, which Java would cast and pass on; the source never sends such a message.
- `CameraManagement.CameraManager.GetFramingRectInPreview`: `new Rect(null)` is modelled as `NullPointerException`, as the early Android `Rect(Rect)` copy constructor does. Later platforms give an empty rectangle instead.
- The scan lemmas are stated for any parser and any distance function. The source's (`ParseSize`, `Diff`) are one instance.
