/** Android's `Handler`/`Message` hand-off reduced to records: a message is
    recorded as sent, with its target, its code, its two integer arguments,
    its object and, for a delayed send, the delay. Delivery and timing are not
    modelled. */
module Messaging {
  import opened JavaLang

  /** The `R.id` message codes the demo uses. The resource compiler gives each
      a distinct integer; any other code is `Other`. */
  datatype Id = Decode | Quit | DecodeSucceeded | DecodeFailed | RestartPreview | Other(code: int)

  /** The identity of a `Handler` (a `CaptureActivityHandler` or the decode
      thread's own handler). */
  datatype HandlerRef = HandlerRef(id: nat)

  /** What the decoder returns for a hit: the decoded text (`null` when the
      barcode carries none) and the name of its barcode format. */
  datatype DecodeResult = DecodeResult(text: Option<string>, formatName: string)

  datatype Payload =
    | NoPayload
    | FrameData(data: seq<bv8>)
    | Focused(success: bool)
    | Decoded(result: DecodeResult)

  datatype Message = Message(target: HandlerRef, what: Id, arg1: Int32, arg2: Int32, obj: Payload, delayMs: nat)

  /** `handler.obtainMessage(...)` followed by `sendToTarget()`: no delay. */
  function Immediate(target: HandlerRef, what: Id, arg1: Int32, arg2: Int32, obj: Payload): Message
  {
    Message(target, what, arg1, arg2, obj, 0)
  }
}
