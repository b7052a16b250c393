/** Values, errors and what an error records of itself. */
module Errors {
  import opened Options
  import opened Records

  /** A value of a handler. Many is the collection of try_join_all, Outcomes that of join_all. */
  datatype Value = Plain(text: string) | Many(items: seq<Value>) | Outcomes(outcomes: seq<Outcome>)

  /** One item of join_all. A rejected item is the failure as it is recorded, on both paths: the live
      handler, too, gets it from the written payload. */
  datatype Outcome = Fulfilled(value: Value) | Rejected(wire: Wire)

  datatype CallbackKind =
    | TimedOut
    | HeartbeatTimedOut
    | ExternalFailure
    | SubmitterFailed
    | Internal
    | DeserializationFailed

  datatype ErrorKind =
    | Step
    | ChildFailed
    | ChildInternal
    | JoinFailed(index: nat)
    | AllFailed(losers: seq<Wire>)
    | FirstSettledFailed
    | EmptyInput
    | CombinatorInternal
    | Callback(kind: CallbackKind)

  datatype Operation = Operation(id: Id, status: Status)

  /** What a handler can branch on: the kind, the operation, the recorded failure, and, for an
      error without a record, its own message. */
  datatype OpErr = OpErr(kind: ErrorKind, operation: Option<Operation>, wire: Option<Wire>, message: string)

  datatype OpResult = Ok(value: Value) | Err(error: OpErr)

  /** The flattened text of an error, which the model leaves open. */
  type Text = OpErr -> string

  function KindName(k: ErrorKind): string {
    match k
    case Step => "StepError"
    case ChildFailed | ChildInternal => "ChildContextError"
    case JoinFailed(_) | AllFailed(_) | FirstSettledFailed | EmptyInput | CombinatorInternal => "PromiseCombinatorError"
    case Callback(_) => "CallbackError"
  }

  /** The recorded message of an escaping error: its record's own message, else its text. */
  function MessageOf(e: OpErr, text: Text): string {
    if e.wire.Some? && e.wire.value.message.Some? then e.wire.value.message.value else text(e)
  }

  /** wire_error_with_type: the message, the data and the frames pass through. */
  function WireWithType(e: OpErr, errorType: string, text: Text): Wire {
    Wire(Some(errorType), Some(MessageOf(e, text)),
         if e.wire.Some? then e.wire.value.data else None,
         if e.wire.Some? then e.wire.value.stackTrace else [])
  }

  /** wire_error_for: a recorded type wins over the name of the kind. */
  function WireFor(e: OpErr, text: Text): Wire {
    var recorded := if e.wire.Some? then e.wire.value.errorType else None;
    WireWithType(e, if recorded.Some? then recorded.value else KindName(e.kind), text)
  }

  function Recorded(kind: ErrorKind, id: Id, wire: Wire): OpErr {
    OpErr(kind, Some(Operation(id, Failed)), Some(wire), "")
  }

  function Unrecorded(kind: ErrorKind, message: string): OpErr {
    OpErr(kind, None, None, message)
  }

  /** The boundary at which a decode failed. */
  function DecodeMessage(kind: ErrorKind): string {
    if kind.Callback? then "callback serdes" else "deserialize result"
  }

  // ----- The types that callbacks record -----

  const CALLBACK_TIMEOUT := "Callback.Timeout"
  const CALLBACK_HEARTBEAT := "Callback.Heartbeat"
  const EXTERNAL_FAILURE := "Callback.ExternalFailure"
  const SUBMITTER_FAILED := "Callback.SubmitterFailed"
  const CALLBACK_INTERNAL := "Callback.Internal"
  const DESERIALIZATION_FAILED := "Callback.DeserializationFailed"

  /** classify_wfcb_outer_error: the outer record, whose types only the SDK writes. */
  function OuterKind(errorType: Option<string>): CallbackKind {
    if errorType == Some(CALLBACK_TIMEOUT) then CallbackKind.TimedOut
    else if errorType == Some(CALLBACK_HEARTBEAT) then HeartbeatTimedOut
    else if errorType == Some(SUBMITTER_FAILED) then SubmitterFailed
    else if errorType == Some(CALLBACK_INTERNAL) then Internal
    else if errorType == Some(DESERIALIZATION_FAILED) then DeserializationFailed
    else ExternalFailure
  }
}
