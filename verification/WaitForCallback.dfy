/** wait_for_callback: an outer context whose body creates a callback, submits its ID in a step, and
    waits for the external result.

    The three records of the operation are one value here. An invocation reads and writes them, and
    the service settles the callback on its own, in an invocation or between two.
 */
module WaitForCallback {
  import opened Options
  import opened Records
  import opened Errors

  /** What the service keeps of a callback. It assigns the ID in its answer to the START. */
  datatype CallbackRecord = CallbackRecord(status: Status, payload: Option<string>, wire: Wire, id: Option<string>)

  datatype Wait = Wait(outer: Option<Record>, callback: Option<CallbackRecord>, submitter: Option<Record>)

  const NO_RECORDS := Wait(None, None, None)

  /** What happens to the submitter step in one invocation: it succeeds, it fails, or the operation
      itself fails outside the body with an error that is not a step error. */
  datatype Submission = Sent(payload: string) | StepFailed(wire: Wire) | Broken(error: OpErr)

  /** How far one invocation comes. A START or an outcome that is not acknowledged, a submitter that
      does not finish and a callback that does not settle all end it. */
  datatype Turn = Turn(
    outerStart: bool,
    callbackStart: Option<Option<string>>,
    submitterStart: bool,
    submission: Option<Submission>,
    settled: Option<CallbackRecord>,
    outerEnd: bool,
    preserve: bool)

  /** The user serdes, which only decodes, and the text of errors. */
  datatype Decoder = Decoder(decode: string -> Option<Value>, text: Text)

  /** A body error and the error it wraps. */
  datatype BodyError = BodyError(error: OpErr, source: Option<OpErr>)

  datatype Raw = Payload(payload: string) | Failing(error: OpErr)

  datatype BodyResult = Returned(payload: string) | Raised(error: BodyError)

  // ----- Error types -----

  /** classify_callback_error: the callback's own record. */
  function OwnKind(errorType: Option<string>): CallbackKind {
    if errorType == Some(CALLBACK_TIMEOUT) then CallbackKind.TimedOut
    else if errorType == Some(CALLBACK_HEARTBEAT) then HeartbeatTimedOut
    else ExternalFailure
  }

  function CallbackId(x: Id): Id {
    x + [1]
  }

  function SubmitterId(x: Id): Id {
    x + [2]
  }

  function WithRecord(kind: CallbackKind, id: Id, status: Status, wire: Wire): OpErr {
    OpErr(Callback(kind), Some(Operation(id, status)), Some(wire), "")
  }

  /** callback_outcome, for the raw payload that the inner callback passes through. */
  function CallbackOutcome(x: Id, r: CallbackRecord): BodyResult {
    match r.status
    case Succeeded => Returned(if r.payload.Some? then r.payload.value else "null")
    case Failed | Cancelled | Stopped =>
      Raised(BodyError(WithRecord(OwnKind(r.wire.errorType), CallbackId(x), r.status, r.wire), None))
    case TimedOut =>
      var kind := if r.wire.errorType == Some(CALLBACK_HEARTBEAT) then HeartbeatTimedOut else CallbackKind.TimedOut;
      Raised(BodyError(WithRecord(kind, CallbackId(x), r.status, r.wire), None))
    case _ =>
      Raised(BodyError(Unrecorded(Callback(Internal), "unexpected checkpointed status"), None))
  }

  function MissingId(x: Id, status: Status): BodyResult {
    Raised(BodyError(OpErr(Callback(Internal), Some(Operation(CallbackId(x), status)), None, "no callback ID found"),
      None))
  }

  function SubmitterError(x: Id, wire: Wire): BodyResult {
    var step := Recorded(Step, SubmitterId(x), wire);
    Raised(BodyError(Unrecorded(Callback(SubmitterFailed), "submitter failed"), Some(step)))
  }

  // ----- The body -----

  /** What a stretch of an invocation did: its result unless it was interrupted, the records it left and
      its writes. */
  datatype Ran<R> = Ran(result: Option<R>, after: Wait, writes: seq<Write>)

  /** A stretch behind earlier writes. */
  function Behind<R>(writes: seq<Write>, ran: Ran<R>): Ran<R> {
    ran.(writes := writes + ran.writes)
  }

  predicate HasId(r: CallbackRecord) {
    r.id.Some? && r.id.value != ""
  }

  predicate InFlight(r: CallbackRecord) {
    r.status.Started? || r.status.Pending?
  }

  /** Once the submitter is through, the body returns the outcome the record has, or waits for it. The
      service settles the record, so the invocation writes nothing. */
  function AwaitResult(x: Id, w: Wait, turn: Turn): Ran<BodyResult>
    requires w.callback.Some?
  {
    if !InFlight(w.callback.value) then Ran(Some(CallbackOutcome(x, w.callback.value)), w, [])
    else if turn.settled.None? || InFlight(turn.settled.value) then Ran(None, w, [])
    else
      var r := turn.settled.value.(id := w.callback.value.id);
      Ran(Some(CallbackOutcome(x, r)), w.(callback := Some(r)), [])
  }

  predicate HasOutcome(r: Option<Record>) {
    r.Some? && (r.value.status.Succeeded? || r.value.status.Failed?)
  }

  /** The submitter step of a started callback. */
  function RunSubmitter(x: Id, w: Wait, turn: Turn): Ran<BodyResult>
    requires w.callback.Some? && w.submitter.Some?
  {
    match turn.submission
    case None => Ran(None, w, [])
    case Some(Sent(payload)) =>
      var a := Succeed(payload, false);
      Behind([Write(SubmitterId(x), a)], AwaitResult(x, w.(submitter := Some(RecordOf(a))), turn))
    case Some(StepFailed(wire)) =>
      var a := Fail(wire, false);
      Ran(Some(SubmitterError(x, wire)), w.(submitter := Some(RecordOf(a))), [Write(SubmitterId(x), a)])
    case Some(Broken(e)) =>
      if e.kind.Step? then Ran(None, w, []) else Ran(Some(Raised(BodyError(e, None))), w, [])
  }

  function Submit(x: Id, w: Wait, turn: Turn): Ran<BodyResult>
    requires w.callback.Some?
  {
    if HasOutcome(w.submitter) then
      if w.submitter.value.status.Failed? then Ran(Some(SubmitterError(x, w.submitter.value.wire)), w, [])
      else AwaitResult(x, w, turn)
    else if w.submitter.Some? then RunSubmitter(x, w, turn)
    else if !turn.submitterStart then Ran(None, w, [])
    else
      var begun := w.(submitter := Some(RecordOf(Start)));
      Behind([Write(SubmitterId(x), Start)], RunSubmitter(x, begun, turn))
  }

  function Body(x: Id, w: Wait, turn: Turn): Ran<BodyResult> {
    match w.callback
    case None =>
      if turn.callbackStart.None? then Ran(None, w, [])
      else
        var r := CallbackRecord(Started, None, NO_WIRE, turn.callbackStart.value);
        var started := w.(callback := Some(r));
        Behind([Write(CallbackId(x), Start)],
               if !HasId(r) then Ran(Some(MissingId(x, Started)), started, []) else Submit(x, started, turn))
    case Some(r) =>
      if !HasId(r) then Ran(Some(MissingId(x, r.status)), w, [])
      else if r.status.Ready? then Ran(Some(CallbackOutcome(x, r)), w, [])
      else Submit(x, w, turn)
  }

  // ----- The outer record -----

  /** A wire of a fixed type for an error without a record of its own: the message, the data and the
      frames of what it wraps. */
  function Derived(e: BodyError, errorType: string, text: Text): Wire {
    var inner := if e.source.Some? && e.source.value.wire.Some? then e.source.value.wire.value else NO_WIRE;
    Wire(Some(errorType), Some(if inner.message.Some? then inner.message.value else text(e.error)),
         inner.data, inner.stackTrace)
  }

  /** extract_wire_error: the outer FAIL record of a body error. */
  function OuterWire(e: BodyError, text: Text): Wire {
    match e.error.kind
    case Callback(kind) =>
      (match kind
       case TimedOut => Wire(Some(CALLBACK_TIMEOUT), Some("callback timed out"), None, [])
       case HeartbeatTimedOut => Wire(Some(CALLBACK_HEARTBEAT), Some("heartbeat timed out"), None, [])
       case ExternalFailure =>
         var external := if e.error.wire.Some? then e.error.wire.value else NO_WIRE;
         Wire(Some(EXTERNAL_FAILURE), external.message, external.data, [])
       case SubmitterFailed => Derived(e, SUBMITTER_FAILED, text)
       case Internal => Derived(e, CALLBACK_INTERNAL, text)
       case DeserializationFailed => Derived(e, DESERIALIZATION_FAILED, text))
    case _ => WireWithType(e.error, CALLBACK_INTERNAL, text)
  }

  /** wfcb_failed_error: the error of a replayed outer FAIL. */
  function ReplayedError(x: Id, wire: Wire): OpErr {
    WithRecord(OuterKind(wire.errorType), x, Failed, wire)
  }

  /** wfcb_live_error: an external failure is rebuilt from the record, another callback error keeps
      its kind, and every other error becomes internal. */
  function LiveError(x: Id, e: BodyError, wire: Wire): OpErr {
    match e.error.kind
    case Callback(kind) =>
      if kind.ExternalFailure? then ReplayedError(x, wire)
        else OpErr(e.error.kind, Some(Operation(x, Failed)), Some(wire), "")
    case _ => OpErr(Callback(Internal), Some(Operation(x, Failed)), Some(wire), "")
  }

  function OuterAction(d: Decoder, body: BodyResult, turn: Turn): Action {
    match body
    case Returned(payload) => Succeed(payload, turn.preserve)
    case Raised(e) => Fail(OuterWire(e, d.text), turn.preserve)
  }

  /** A live body's outcome is written before it is returned. */
  function Settle(d: Decoder, x: Id, b: Ran<BodyResult>, turn: Turn): Ran<Raw> {
    if b.result.None? || !turn.outerEnd then Ran(None, b.after, b.writes)
    else
      var a := OuterAction(d, b.result.value, turn);
      var raw :=
        match b.result.value
        case Returned(payload) => Payload(payload)
        case Raised(e) => Failing(LiveError(x, e, OuterWire(e, d.text)));
      Ran(Some(raw), b.after.(outer := Some(RecordOf(a))), b.writes + [Write(x, a)])
  }

  /** A body run again for a recorded success that keeps its children. */
  function Rebuild(x: Id, w: Wait, turn: Turn): Ran<Raw> {
    var b := Body(x, w, turn);
    if b.result.None? then Ran(None, b.after, b.writes)
    else
      match b.result.value
      case Returned(payload) => Ran(Some(Payload(payload)), b.after, b.writes)
      case Raised(e) => Ran(Some(Failing(e.error)), b.after, b.writes)
  }

  /** settle_raw: the outer context up to its raw outcome. */
  function SettleRaw(d: Decoder, x: Id, w: Wait, turn: Turn): Ran<Raw> {
    if HasOutcome(w.outer) then
      var r := w.outer.value;
      if r.status.Failed? then Ran(Some(Failing(ReplayedError(x, r.wire))), w, [])
      else if !r.replayChildren then Ran(Some(Payload(if r.payload.Some? then r.payload.value else "null")), w, [])
      else Rebuild(x, w, turn)
    else if w.outer.Some? then Settle(d, x, Body(x, w, turn), turn)
    else if !turn.outerStart then Ran(None, w, [])
    else
      var begun := w.(outer := Some(RecordOf(Start)));
      Behind([Write(x, Start)], Settle(d, x, Body(x, begun, turn), turn))
  }

  /** The one decode by the user serdes, of the payload that the outer context settled with. */
  function Decode(d: Decoder, raw: Raw): OpResult {
    match raw
    case Failing(e) => Err(e)
    case Payload(payload) =>
      var v := d.decode(payload);
      if v.Some? then Ok(v.value)
        else Err(Unrecorded(Callback(DeserializationFailed), DecodeMessage(Callback(DeserializationFailed))))
  }

  function Run(d: Decoder, x: Id, w: Wait, turn: Turn): Ran<OpResult> {
    var raw := SettleRaw(d, x, w, turn);
    Ran(if raw.result.Some? then Some(Decode(d, raw.result.value)) else None, raw.after, raw.writes)
  }

  // ----- The operation as an object -----

  class WaitForCallbackExecution {
    const decoder: Decoder
    const x: Id
    var outer: Option<Record>
    var callback: Option<CallbackRecord>
    var submitter: Option<Record>
    /** The writes acknowledged so far, in order. */
    var writes: seq<Write>

    function Records(): Wait
      reads this
    {
      Wait(outer, callback, submitter)
    }

    constructor (decoder: Decoder, x: Id)
      ensures this.decoder == decoder && this.x == x && Records() == NO_RECORDS && writes == []
    {
      this.decoder, this.x, outer, callback, submitter, writes := decoder, x, None, None, None, [];
    }

    /** The submitter step. It is through once its record says that it succeeded. */
    method RunSubmitter(turn: Turn) returns (through: bool, r: Option<BodyResult>)
      requires callback.Some?
      modifies this`submitter, this`writes
      ensures old(writes) <= writes
      ensures
        var ran := Submit(x, old(Records()), turn);
        if through then r == None && ran == Behind(writes[|old(writes)|..], AwaitResult(x, Records(), turn))
        else ran == Ran(r, Records(), writes[|old(writes)|..])
    {
      through, r := false, None;
      if submitter.Some? && submitter.value.status == Failed {
        return false, Some(SubmitterError(x, submitter.value.wire));
      }
      if submitter.Some? && submitter.value.status == Succeeded {
        return true, None;
      }
      if submitter.None? {
        if !turn.submitterStart {
          return;
        }
        submitter, writes := Some(RecordOf(Start)), writes + [Write(SubmitterId(x), Start)];
      }
      match turn.submission {
        case None =>
        case Some(StepFailed(wire)) =>
          submitter, writes := Some(RecordOf(Fail(wire, false))), writes + [Write(SubmitterId(x), Fail(wire, false))];
          r := Some(SubmitterError(x, wire));
        case Some(Broken(error)) =>
          if !error.kind.Step? {
            r := Some(Raised(BodyError(error, None)));
          }
        case Some(Sent(payload)) =>
          submitter := Some(RecordOf(Succeed(payload, false)));
          writes := writes + [Write(SubmitterId(x), Succeed(payload, false))];
          through := true;
      }
    }

    method AwaitCallback(turn: Turn) returns (r: Option<BodyResult>)
      requires callback.Some?
      modifies this`callback
      ensures Ran(r, Records(), []) == AwaitResult(x, old(Records()), turn)
    {
      var record := callback.value;
      if record.status == Started || record.status == Pending {
        if turn.settled.None? || turn.settled.value.status == Started || turn.settled.value.status == Pending {
          return None;
        }
        record := turn.settled.value.(id := record.id);
        callback := Some(record);
      }
      r := Some(CallbackOutcome(x, record));
    }

    /** run_wfcb_body: the callback, the submitter step, the result. */
    method RunBody(turn: Turn) returns (r: Option<BodyResult>)
      modifies this`callback, this`submitter, this`writes
      ensures old(writes) <= writes
      ensures Ran(r, Records(), writes[|old(writes)|..]) == Body(x, old(Records()), turn)
    {
      hide Submit, AwaitResult;
      if callback.None? {
        if turn.callbackStart.None? {
          return None;
        }
        callback := Some(CallbackRecord(Started, None, NO_WIRE, turn.callbackStart.value));
        writes := writes + [Write(CallbackId(x), Start)];
      }
      if callback.value.id.None? || callback.value.id.value == "" {
        return Some(MissingId(x, callback.value.status));
      }
      if callback.value.status == Ready {
        return Some(CallbackOutcome(x, callback.value));
      }
      ghost var earlier := writes[|old(writes)|..];
      ghost var before := writes;
      var through;
      through, r := RunSubmitter(turn);
      assert writes[|old(writes)|..] == earlier + writes[|before|..];
      if through {
        assert writes[|before|..] + [] == writes[|before|..];
        r := AwaitCallback(turn);
      }
    }

    /** WfcbAfter::settle: writes the outcome of a live body before returning it. */
    method SettleBody(body: BodyResult, turn: Turn) returns (r: Option<Raw>)
      modifies this`outer, this`writes
      ensures
        Ran(r, Records(), writes) == Settle(decoder, x, Ran(Some(body), old(Records()), old(writes)), turn)
    {
      if !turn.outerEnd {
        return None;
      }
      match body {
        case Returned(payload) =>
          outer, writes := Some(RecordOf(Succeed(payload, turn.preserve))),
            writes + [Write(x, Succeed(payload, turn.preserve))];
          r := Some(Payload(payload));
        case Raised(error) =>
          var wire := OuterWire(error, decoder.text);
          outer, writes := Some(RecordOf(Fail(wire, turn.preserve))), writes + [Write(x, Fail(wire, turn.preserve))];
          r := Some(Failing(LiveError(x, error, wire)));
      }
    }

    /** The whole operation, in one invocation. */
    method Execute(turn: Turn) returns (r: Option<OpResult>)
      modifies this
      ensures old(writes) <= writes
      ensures Ran(r, Records(), writes[|old(writes)|..]) == Run(decoder, x, old(Records()), turn)
    {
      hide Body, OuterWire, LiveError, ReplayedError, Decode;
      if outer.Some? && outer.value.status == Failed {
        return Some(Decode(decoder, Failing(ReplayedError(x, outer.value.wire))));
      }
      if outer.Some? && outer.value.status == Succeeded {
        if !outer.value.replayChildren {
          return Some(Decode(decoder, Payload(if outer.value.payload.Some? then outer.value.payload.value
            else "null")));
        }
        var body := RunBody(turn);
        match body {
          case None => r := None;
          case Some(Returned(payload)) => r := Some(Decode(decoder, Payload(payload)));
          case Some(Raised(error)) => r := Some(Decode(decoder, Failing(error.error)));
        }
        return;
      }
      if outer.None? {
        if !turn.outerStart {
          return None;
        }
        outer, writes := Some(RecordOf(Start)), writes + [Write(x, Start)];
      }
      ghost var before := writes;
      var body := RunBody(turn);
      assert writes[|old(writes)|..] == before[|old(writes)|..] + writes[|before|..];
      if body.None? {
        return None;
      }
      ghost var settling := writes;
      var raw := SettleBody(body.value, turn);
      assert writes[|old(writes)|..] == before[|old(writes)|..] + (settling[|before|..] + writes[|settling|..]);
      r := if raw.Some? then Some(Decode(decoder, raw.value)) else None;
    }
  }

  // ----- Errors -----

  /** Every error a live run returns is the error that replaying the record it wrote returns: the
      same kind, operation, status and recorded failure, whatever the body failed with. */
  lemma LiveErrorIsReplayed(x: Id, e: BodyError, text: Text)
    ensures LiveError(x, e, OuterWire(e, text)) == ReplayedError(x, OuterWire(e, text))
  {
    TypesDiffer();
  }

  /** The types that classify a callback's own failure record. */
  predicate NamesTimeout(errorType: Option<string>) {
    errorType == Some(CALLBACK_TIMEOUT) || errorType == Some(CALLBACK_HEARTBEAT)
  }

  /** An external failure, a cancellation or a stop is replayed as an external failure, with the
      message and the data of the external caller, exactly when the caller's type is not one of the
      SDK's two timeout types. With one of them it is recorded and replayed as that timeout, with a
      fixed message and without the data. */
  lemma ExternalFailureExactly(x: Id, r: CallbackRecord, text: Text)
    requires r.status.Failed? || r.status.Cancelled? || r.status.Stopped?
    ensures
      var body := CallbackOutcome(x, r);
      && body.Raised?
      && var outer := OuterWire(body.error, text);
         var named := NamesTimeout(r.wire.errorType);
         && (ReplayedError(x, outer).kind == Callback(ExternalFailure) <==> !named)
         && (outer == Wire(Some(EXTERNAL_FAILURE), r.wire.message, r.wire.data, []) <==> !named)
         && (named ==> outer.errorType == r.wire.errorType && outer.data == None
                       && ReplayedError(x, outer).kind == Callback(OwnKind(r.wire.errorType)))
  {
    TypesDiffer();
  }

  /** An external caller that fails the callback with the type of a timeout makes the whole operation
      time out, in every invocation, and its message and data are lost. */
  lemma ExternalTimeoutIsTakenForOne(
      d: Decoder, x: Id, message: Option<string>, data: Option<string>) returns (turn: Turn)
    ensures
      turn.settled == Some(CallbackRecord(Failed, None, Wire(Some(CALLBACK_TIMEOUT), message, data, []), None))
    ensures
      var e := Run(d, x, NO_RECORDS, turn);
      var wire := Wire(Some(CALLBACK_TIMEOUT), Some("callback timed out"), None, []);
      && e.result == Some(Err(WithRecord(CallbackKind.TimedOut, x, Failed, wire)))
      && e.after.outer == Some(RecordOf(Fail(wire, false)))
  {
    var failure := CallbackRecord(Failed, None, Wire(Some(CALLBACK_TIMEOUT), message, data, []), None);
    turn := Turn(true, Some(Some("id")), true, Some(Sent("null")), Some(failure), true, false);
    assert "id" != "";
  }

  lemma TypesDiffer()
    ensures CALLBACK_TIMEOUT != CALLBACK_HEARTBEAT && SUBMITTER_FAILED != CALLBACK_TIMEOUT
    ensures SUBMITTER_FAILED != CALLBACK_HEARTBEAT
    ensures CALLBACK_INTERNAL != CALLBACK_TIMEOUT && CALLBACK_INTERNAL != CALLBACK_HEARTBEAT
    ensures CALLBACK_INTERNAL != SUBMITTER_FAILED
    ensures DESERIALIZATION_FAILED != CALLBACK_TIMEOUT && DESERIALIZATION_FAILED != CALLBACK_HEARTBEAT
    ensures DESERIALIZATION_FAILED != SUBMITTER_FAILED && DESERIALIZATION_FAILED != CALLBACK_INTERNAL
    ensures EXTERNAL_FAILURE != CALLBACK_TIMEOUT && EXTERNAL_FAILURE != CALLBACK_HEARTBEAT
    ensures EXTERNAL_FAILURE != SUBMITTER_FAILED
    ensures EXTERNAL_FAILURE != CALLBACK_INTERNAL && EXTERNAL_FAILURE != DESERIALIZATION_FAILED
  {
    assert CALLBACK_TIMEOUT[9] == 'T' && CALLBACK_HEARTBEAT[9] == 'H' && SUBMITTER_FAILED[9] == 'S';
    assert CALLBACK_INTERNAL[9] == 'I' && DESERIALIZATION_FAILED[9] == 'D' && EXTERNAL_FAILURE[9] == 'E';
  }

  // ----- Executions -----

  /** An invocation, or the service settling a callback that is in flight between two of them. */
  datatype Event = Invoke(turn: Turn) | SettleCallback(record: CallbackRecord)

  function AfterEvent(d: Decoder, x: Id, w: Wait, event: Event): Wait {
    match event
    case Invoke(turn) => Run(d, x, w, turn).after
    case SettleCallback(r) =>
      if w.callback.Some? && InFlight(w.callback.value) then w.(callback := Some(r.(id := w.callback.value.id))) else w
  }

  function AfterEvents(d: Decoder, x: Id, events: seq<Event>): Wait {
    if events == [] then NO_RECORDS
    else AfterEvent(d, x, AfterEvents(d, x, events[..|events| - 1]), events[|events| - 1])
  }

  /** The writes of all invocations, in order. */
  function AllWrites(d: Decoder, x: Id, events: seq<Event>): seq<Write> {
    if events == [] then []
    else
      var last := events[|events| - 1];
      AllWrites(d, x, events[..|events| - 1])
      + (if last.Invoke? then Run(d, x, AfterEvents(d, x, events[..|events| - 1]), last.turn).writes else [])
  }

  function PayloadOf(r: CallbackRecord): string {
    if r.payload.Some? then r.payload.value else "null"
  }

  /** A recorded outer success has the callback's payload, byte for byte, of a callback that succeeded
      and whose submitter did. Nothing is recorded of the body before the outer START. */
  predicate Valid(w: Wait) {
    && (w.outer.None? ==> w == NO_RECORDS)
    && (w.outer.Some? && w.outer.value.status.Succeeded? ==>
          && w.callback.Some? && w.callback.value.status.Succeeded? && HasId(w.callback.value)
          && w.submitter.Some? && w.submitter.value.status.Succeeded?
          && w.outer.value.payload == Some(PayloadOf(w.callback.value)))
    && (w.outer.Some? ==>
          w.outer.value.status.Started? || w.outer.value.status.Succeeded? || w.outer.value.status.Failed?)
    && (w.submitter.Some? ==>
          w.callback.Some? && (w.submitter.value.status.Started? || HasOutcome(w.submitter)))
  }

  lemma BodyKeeps(x: Id, w: Wait, turn: Turn)
    requires Valid(w) && w.outer.Some?
    ensures
      var b := Body(x, w, turn);
      && b.after.outer == w.outer
      && (w.outer.value.status.Started? ==> Valid(b.after))
      && (b.result.Some? && b.result.value.Returned? ==>
            && b.after.callback.Some? && b.after.callback.value.status.Succeeded? && HasId(b.after.callback.value)
            && b.after.submitter.Some? && b.after.submitter.value.status.Succeeded?
            && b.result.value.payload == PayloadOf(b.after.callback.value))
  {
  }

  /** The body of a recorded success returns the recorded payload again and writes nothing. */
  lemma BodyReplays(x: Id, w: Wait, turn: Turn)
    requires Valid(w) && w.outer.Some? && w.outer.value.status.Succeeded?
    ensures Body(x, w, turn) == Ran(Some(Returned(w.outer.value.payload.value)), w, [])
  {
  }

  lemma RunKeeps(d: Decoder, x: Id, w: Wait, turn: Turn)
    requires Valid(w)
    ensures Valid(Run(d, x, w, turn).after)
  {
    BodyKeeps(x, if w.outer.None? then w.(outer := Some(RecordOf(Start))) else w, turn);
    if HasOutcome(w.outer) && w.outer.value.status.Succeeded? { BodyReplays(x, w, turn); }
    hide Body, OuterWire, LiveError;
  }

  lemma {:induction false} EventsKeep(d: Decoder, x: Id, events: seq<Event>)
    ensures Valid(AfterEvents(d, x, events))
  {
    if events != [] {
      var w := AfterEvents(d, x, events[..|events| - 1]);
      EventsKeep(d, x, events[..|events| - 1]);
      match events[|events| - 1]
      case Invoke(turn) => RunKeeps(d, x, w, turn);
      case SettleCallback(_) =>
    }
  }

  /** In every execution, including interrupted ones and re-runs of a kept body, the payload of the
      outer SUCCEED is the payload of the inner callback, byte for byte, or null when it has none. */
  lemma OuterPayloadIsCallbackPayload(d: Decoder, x: Id, events: seq<Event>)
    ensures
      var w := AfterEvents(d, x, events);
      w.outer.Some? && w.outer.value.status.Succeeded? ==>
        && w.callback.Some? && w.callback.value.status.Succeeded?
        && w.outer.value.payload == Some(PayloadOf(w.callback.value))
  {
    EventsKeep(d, x, events);
  }

  // ----- Legal writes -----

  /** The log is what the invocations wrote of the records: all of them but how the service settled
      the callback. */
  predicate Mirrors(log: Log, x: Id, w: Wait) {
    && (x in log <==> w.outer.Some?) && (x in log ==> log[x] == w.outer.value)
    && (SubmitterId(x) in log <==> w.submitter.Some?)
      && (SubmitterId(x) in log ==> log[SubmitterId(x)] == w.submitter.value)
    && (CallbackId(x) in log <==> w.callback.Some?)
  }

  /** From a log that mirrors the records, the writes are legal and lead to one that mirrors the
      records they left. */
  predicate Legal(log: Log, x: Id, writes: seq<Write>, after: Wait) {
    LegalWrites(log, writes) && Mirrors(AfterWrites(log, writes), x, after)
  }

  lemma LegalChain(log: Log, x: Id, first: seq<Write>, mid: Wait, second: seq<Write>, after: Wait)
    requires Legal(log, x, first, mid) && Legal(AfterWrites(log, first), x, second, after)
    ensures Legal(log, x, first + second, after)
  {
    WritesConcat(log, first, second);
  }

  lemma LegalOne(log: Log, x: Id, write: Write, after: Wait)
    requires LegalWrite(log, write) && Mirrors(AfterWrite(log, write), x, after)
    ensures Legal(log, x, [write], after)
  {
    assert AfterWrites(log, [write]) == AfterWrite(log, write);
  }

  lemma IdsDiffer(x: Id)
    ensures x != CallbackId(x) && x != SubmitterId(x) && CallbackId(x) != SubmitterId(x)
  {
    assert CallbackId(x)[|x|] == 1 && SubmitterId(x)[|x|] == 2;
  }

  lemma SubmitterWritesLegally(log: Log, x: Id, w: Wait, turn: Turn)
    requires Mirrors(log, x, w) && w.callback.Some? && w.submitter.Some? && w.submitter.value.status.Started?
    ensures var ran := RunSubmitter(x, w, turn); Legal(log, x, ran.writes, ran.after)
  {
    IdsDiffer(x);
    var ran := RunSubmitter(x, w, turn);
    if ran.writes != [] {
      assert ran.writes == [ran.writes[0]];
      LegalOne(log, x, ran.writes[0], ran.after);
    }
  }

  lemma SubmitWritesLegally(log: Log, x: Id, w: Wait, turn: Turn)
    requires Mirrors(log, x, w) && w.callback.Some?
    requires w.submitter.Some? ==> w.submitter.value.status.Started? || HasOutcome(w.submitter)
    ensures var ran := Submit(x, w, turn); Legal(log, x, ran.writes, ran.after)
  {
    if w.submitter.None? && turn.submitterStart {
      var begun := w.(submitter := Some(RecordOf(Start)));
      var start := Write(SubmitterId(x), Start);
      IdsDiffer(x);
      LegalOne(log, x, start, begun);
      SubmitterWritesLegally(AfterWrites(log, [start]), x, begun, turn);
      var ran := RunSubmitter(x, begun, turn);
      LegalChain(log, x, [start], begun, ran.writes, ran.after);
    } else if w.submitter.Some? && w.submitter.value.status.Started? {
      SubmitterWritesLegally(log, x, w, turn);
    }
  }

  lemma BodyWritesLegally(log: Log, x: Id, w: Wait, turn: Turn)
    requires Mirrors(log, x, w) && Valid(w)
    ensures var ran := Body(x, w, turn); Legal(log, x, ran.writes, ran.after)
  {
    hide Submit;
    if w.callback.None? && turn.callbackStart.Some? {
      var started := w.(callback := Some(CallbackRecord(Started, None, NO_WIRE, turn.callbackStart.value)));
      var start := Write(CallbackId(x), Start);
      IdsDiffer(x);
      LegalOne(log, x, start, started);
      SubmitWritesLegally(AfterWrites(log, [start]), x, started, turn);
      var ran := Submit(x, started, turn);
      LegalChain(log, x, [start], started, ran.writes, ran.after);
      assert [start] + [] == [start];
    } else if w.callback.Some? {
      SubmitWritesLegally(log, x, w, turn);
    }
  }

  lemma SettleWritesLegally(log: Log, d: Decoder, x: Id, b: Ran<BodyResult>, turn: Turn)
    requires Legal(log, x, b.writes, b.after) && b.after.outer.Some? && b.after.outer.value.status.Started?
    ensures var ran := Settle(d, x, b, turn); Legal(log, x, ran.writes, ran.after)
  {
    hide OuterWire, LiveError;
    if b.result.Some? && turn.outerEnd {
      var ran := Settle(d, x, b, turn);
      var outcome := Write(x, OuterAction(d, b.result.value, turn));
      IdsDiffer(x);
      LegalOne(AfterWrites(log, b.writes), x, outcome, ran.after);
      LegalChain(log, x, b.writes, b.after, [outcome], ran.after);
    }
  }

  lemma RunWritesLegally(log: Log, d: Decoder, x: Id, w: Wait, turn: Turn)
    requires Mirrors(log, x, w) && Valid(w)
    ensures var ran := Run(d, x, w, turn); Legal(log, x, ran.writes, ran.after)
  {
    if w.outer.Some? {
      BodyKeeps(x, w, turn);
      BodyWritesLegally(log, x, w, turn);
      hide Body;
      if w.outer.value.status.Started? { SettleWritesLegally(log, d, x, Body(x, w, turn), turn); }
      hide Settle, Decode;
    } else if turn.outerStart {
      var begun := w.(outer := Some(RecordOf(Start)));
      var start := Write(x, Start);
      IdsDiffer(x);
      LegalOne(log, x, start, begun);
      var b := Body(x, begun, turn);
      BodyKeeps(x, begun, turn);
      BodyWritesLegally(AfterWrites(log, [start]), x, begun, turn);
      hide Body;
      SettleWritesLegally(AfterWrites(log, [start]), d, x, b, turn);
      var ran := Settle(d, x, b, turn);
      hide Settle, Decode;
      LegalChain(log, x, [start], begun, ran.writes, ran.after);
    }
  }

  lemma {:induction false} ExecutionWritesLegally(d: Decoder, x: Id, events: seq<Event>)
    ensures Legal(map[], x, AllWrites(d, x, events), AfterEvents(d, x, events))
  {
    if events != [] {
      var init, last := events[..|events| - 1], events[|events| - 1];
      ExecutionWritesLegally(d, x, init);
      EventsKeep(d, x, init);
      var w, writes := AfterEvents(d, x, init), AllWrites(d, x, init);
      if last.Invoke? {
        RunWritesLegally(AfterWrites(map[], writes), d, x, w, last.turn);
        var ran := Run(d, x, w, last.turn);
        LegalChain(map[], x, writes, w, ran.writes, ran.after);
      } else {
        assert writes + [] == writes;
      }
    }
  }

  /** Over every execution each of the three operations gets at most a START and then one outcome, in
      this order, and the callback gets no outcome from the SDK. */
  lemma OneCycleForEachOperation(d: Decoder, x: Id, events: seq<Event>, id: Id)
    ensures LegalWrites(map[], AllWrites(d, x, events))
    ensures
      var mine := WritesOf(AllWrites(d, x, events), id);
      mine == [] || mine == [Start] || (|mine| == 2 && mine[0] == Start && mine[1] != Start && id != CallbackId(x))
  {
    ExecutionWritesLegally(d, x, events);
    AtMostOneCycle(map[], AllWrites(d, x, events), id);
    NoCallbackOutcome(d, x, events);
    if id == CallbackId(x) { OnlyStarts(AllWrites(d, x, events), id); }
  }

  lemma {:induction false} OnlyStarts(writes: seq<Write>, id: Id)
    requires forall w | w in writes && w.id == id :: w.action == Start
    ensures forall i | 0 <= i < |WritesOf(writes, id)| :: WritesOf(writes, id)[i] == Start
    decreases |writes|
  {
    if writes != [] {
      assert writes[0] in writes;
      OnlyStarts(writes[1..], id);
    }
  }

  lemma {:induction false} NoCallbackOutcome(d: Decoder, x: Id, events: seq<Event>)
    ensures forall w | w in AllWrites(d, x, events) && w.id == CallbackId(x) :: w.action == Start
  {
    if events != [] {
      var init, last := events[..|events| - 1], events[|events| - 1];
      NoCallbackOutcome(d, x, init);
      if last.Invoke? { RunStartsCallback(d, x, AfterEvents(d, x, init), last.turn); }
      hide Run, AfterEvents;
    }
  }

  lemma RunStartsCallback(d: Decoder, x: Id, w: Wait, turn: Turn)
    ensures forall write | write in Run(d, x, w, turn).writes && write.id == CallbackId(x) :: write.action == Start
  {
    IdsDiffer(x);
    BodyStartsCallback(x, w, turn);
    BodyStartsCallback(x, w.(outer := Some(RecordOf(Start))), turn);
    hide Body, OuterAction, LiveError, Decode, ReplayedError;
  }

  lemma BodyStartsCallback(x: Id, w: Wait, turn: Turn)
    ensures forall write | write in Body(x, w, turn).writes && write.id == CallbackId(x) :: write.action == Start
  {
    IdsDiffer(x);
    hide CallbackOutcome, SubmitterError, MissingId;
  }

  // ----- One result -----

  /** The result of an invocation that completed is settled by the records it left. */
  lemma CompletedIsRecorded(d: Decoder, x: Id, w: Wait, turn: Turn)
    requires Valid(w) && Run(d, x, w, turn).result.Some?
    ensures
      var e := Run(d, x, w, turn);
      && HasOutcome(e.after.outer)
      && e.result == Some(if e.after.outer.value.status.Failed? then Err(ReplayedError(x, e.after.outer.value.wire))
                          else Decode(d, Payload(e.after.outer.value.payload.value)))
      && (HasOutcome(w.outer) ==> e.after == w && e.writes == [])
  {
    var begun := if w.outer.None? then w.(outer := Some(RecordOf(Start))) else w;
    BodyKeeps(x, begun, turn);
    if HasOutcome(w.outer) && w.outer.value.status.Succeeded? { BodyReplays(x, w, turn); }
    var b := Body(x, begun, turn);
    if b.result.Some? && b.result.value.Raised? { LiveErrorIsReplayed(x, b.result.value.error, d.text); }
    hide Body, OuterWire, LiveError, ReplayedError, Decode;
  }

  lemma OuterIsFinal(d: Decoder, x: Id, w: Wait, event: Event)
    requires Valid(w) && HasOutcome(w.outer)
    ensures AfterEvent(d, x, w, event).outer == w.outer
  {
    if w.outer.value.status.Succeeded? && event.Invoke? { BodyReplays(x, w, event.turn); }
  }

  lemma {:induction false} OuterStays(d: Decoder, x: Id, events: seq<Event>, more: seq<Event>)
    requires HasOutcome(AfterEvents(d, x, events).outer)
    ensures AfterEvents(d, x, events + more).outer == AfterEvents(d, x, events).outer
    decreases |more|
  {
    if more == [] {
      assert events + more == events;
    } else {
      var init := more[..|more| - 1];
      OuterStays(d, x, events, init);
      EventsKeep(d, x, events + init);
      assert (events + more)[..|events + more| - 1] == events + init;
      OuterIsFinal(d, x, AfterEvents(d, x, events + init), more[|more| - 1]);
    }
  }

  /** Whatever interrupts it, wait_for_callback returns one result: any two invocations of one
      execution that complete return the same, and the later one writes nothing. */
  lemma OneResult(d: Decoder, x: Id, events: seq<Event>, first: Turn, between: seq<Event>, second: Turn)
    requires Run(d, x, AfterEvents(d, x, events), first).result.Some?
    ensures
      var w := AfterEvents(d, x, events + [Invoke(first)] + between);
      && Run(d, x, w, second).result == Run(d, x, AfterEvents(d, x, events), first).result
      && Run(d, x, w, second).after == w && Run(d, x, w, second).writes == []
  {
    var w0 := AfterEvents(d, x, events);
    var done := events + [Invoke(first)];
    assert done[..|done| - 1] == events;
    EventsKeep(d, x, events);
    CompletedIsRecorded(d, x, w0, first);
    OuterStays(d, x, done, between);
    EventsKeep(d, x, done + between);
    var w := AfterEvents(d, x, done + between);
    if w.outer.value.status.Succeeded? { BodyReplays(x, w, second); }
    assert Run(d, x, w, second).result.Some?;
    CompletedIsRecorded(d, x, w, second);
  }
}
