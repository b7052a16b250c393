/** Why a wait_for_callback ended as it did: the result of an invocation that decides it, told from the records of
    its callback and of its submitter.
 */
module CallbackCauses {
  import opened Options
  import opened Records
  import opened Errors
  import opened WaitForCallback
  import Outcomes

  const TIMEOUT := "Callback.Timeout"
  const HEARTBEAT := "Callback.Heartbeat"

  predicate IsExternal(s: Status) {
    s.Failed? || s.Cancelled? || s.Stopped?
  }

  /** The service gave no ID, or an empty one. */
  predicate Nameless(r: CallbackRecord) {
    r.id.None? || r.id.value == ""
  }

  /** The submitter is through, and the callback has settled with this record. */
  predicate SettledWith(after: Wait, r: CallbackRecord) {
    && after.callback == Some(r) && !Nameless(r)
    && HasOutcome(after.submitter) && after.submitter.value.status.Succeeded?
  }

  /** A TIMED_OUT callback missed a heartbeat exactly when its type says so; a failed, cancelled or stopped one
      timed out only if its type says so. */
  predicate TimesOut(r: CallbackRecord) {
    if IsExternal(r.status) then r.wire.errorType == Some(TIMEOUT)
    else r.status.TimedOut? && r.wire.errorType != Some(HEARTBEAT)
  }

  predicate MissesHeartbeat(r: CallbackRecord) {
    (IsExternal(r.status) || r.status.TimedOut?) && r.wire.errorType == Some(HEARTBEAT)
  }

  /** The submitter failed with sw: its data and its frames pass through, and its message if it has one. */
  predicate FromSubmitter(sw: Wire, w: Wire) {
    && w.errorType == Some("Callback.SubmitterFailed") && w.data == sw.data && w.stackTrace == sw.stackTrace
    && w.message.Some? && (sw.message.Some? ==> w.message == sw.message)
  }

  /** The operation failed inside the SDK: the callback has no ID, or a status that no settled callback has,
      or an error other than the submitter's came up. */
  predicate FailsInside(after: Wait, turn: Turn, w: Wire, text: Text) {
    w.errorType == Some("Callback.Internal")
    && if after.callback.None? || Nameless(after.callback.value) || after.callback.value.status.Ready? then
         w.data.None? && w.stackTrace == [] && w.message.Some?
       else
         && turn.submission.Some? && turn.submission.value.Broken? && !turn.submission.value.error.kind.Step?
         && Outcomes.PassesOn(turn.submission.value.error, "Callback.Internal", w, text)
  }

  /** The failure w, of this kind, follows from the records that are left. */
  predicate Causes(after: Wait, turn: Turn, kind: CallbackKind, w: Wire, text: Text) {
    match kind
    case TimedOut =>
      && after.callback.Some? && SettledWith(after, after.callback.value) && TimesOut(after.callback.value)
      && w == Wire(Some(TIMEOUT), Some("callback timed out"), None, [])
    case HeartbeatTimedOut =>
      && after.callback.Some? && SettledWith(after, after.callback.value) && MissesHeartbeat(after.callback.value)
      && w == Wire(Some(HEARTBEAT), Some("heartbeat timed out"), None, [])
    case ExternalFailure =>
      && after.callback.Some? && SettledWith(after, after.callback.value)
      && var r := after.callback.value;
         && IsExternal(r.status) && r.wire.errorType != Some(TIMEOUT) && r.wire.errorType != Some(HEARTBEAT)
         && w == Wire(Some("Callback.ExternalFailure"), r.wire.message, r.wire.data, [])
    case SubmitterFailed =>
      && after.callback.Some? && !Nameless(after.callback.value)
      && HasOutcome(after.submitter) && after.submitter.value.status.Failed?
      && FromSubmitter(after.submitter.value.wire, w)
    case Internal => FailsInside(after, turn, w, text)
    case DeserializationFailed => false
  }

  /** A body error has its cause, and the outer failure that is recorded of it is the one that is returned. */
  predicate ErrorCaused(x: Id, b: BodyResult, after: Wait, turn: Turn, text: Text) {
    b.Raised? ==>
      var wire := OuterWire(b.error, text);
      var e := LiveError(x, b.error, wire);
      && e.kind.Callback? && e.operation == Some(Operation(x, Status.Failed)) && e.wire == Some(wire)
      && Causes(after, turn, e.kind.kind, wire, text)
  }

  predicate Caused(x: Id, b: Ran<BodyResult>, turn: Turn, text: Text) {
    b.result.Some? ==> ErrorCaused(x, b.result.value, b.after, turn, text)
  }

  lemma OutcomeCaused(x: Id, r: CallbackRecord, after: Wait, turn: Turn, text: Text)
    requires after.callback == Some(r) && !InFlight(r) && !Nameless(r)
    requires r.status.Ready? || SettledWith(after, r)
    ensures ErrorCaused(x, CallbackOutcome(x, r), after, turn, text)
  {
    hide Nameless, HasOutcome;
    TypesDiffer();
  }

  lemma MissingIdCaused(x: Id, status: Status, after: Wait, turn: Turn, text: Text)
    requires after.callback.None? || Nameless(after.callback.value)
    ensures ErrorCaused(x, MissingId(x, status), after, turn, text)
  {
    hide Nameless;
  }

  lemma SubmitterCaused(x: Id, sw: Wire, after: Wait, turn: Turn, text: Text)
    requires after.callback.Some? && !Nameless(after.callback.value)
    requires after.submitter.Some? && after.submitter.value.status.Failed? && after.submitter.value.wire == sw
    ensures ErrorCaused(x, SubmitterError(x, sw), after, turn, text)
  {
    hide Nameless;
  }

  lemma BrokenCaused(x: Id, e: OpErr, after: Wait, turn: Turn, text: Text)
    requires after.callback.Some? && !Nameless(after.callback.value) && !after.callback.value.status.Ready?
    requires turn.submission == Some(Broken(e)) && !e.kind.Callback? && !e.kind.Step?
    ensures ErrorCaused(x, Raised(BodyError(e, None)), after, turn, text)
  {
    hide Nameless;
  }

  lemma AwaitCaused(x: Id, w: Wait, turn: Turn, text: Text)
    requires w.callback.Some? && !Nameless(w.callback.value)
    requires HasOutcome(w.submitter) && w.submitter.value.status.Succeeded?
    ensures Caused(x, AwaitResult(x, w, turn), turn, text)
  {
    hide CallbackOutcome, ErrorCaused;
    var ran := AwaitResult(x, w, turn);
    if ran.result.Some? { OutcomeCaused(x, ran.after.callback.value, ran.after, turn, text); }
  }

  lemma SubmitCaused(x: Id, w: Wait, turn: Turn, text: Text)
    requires w.callback.Some? && !Nameless(w.callback.value) && !w.callback.value.status.Ready?
    requires turn.submission.Some? && turn.submission.value.Broken? ==> !turn.submission.value.error.kind.Callback?
    ensures Caused(x, Submit(x, w, turn), turn, text)
  {
    hide ErrorCaused, AwaitResult, SubmitterError, Nameless;
    var ran := Submit(x, w, turn);
    if HasOutcome(w.submitter) && w.submitter.value.status.Succeeded? {
      AwaitCaused(x, w, turn, text);
    } else if HasOutcome(w.submitter) {
      SubmitterCaused(x, w.submitter.value.wire, ran.after, turn, text);
    } else if turn.submission.Some? && (w.submitter.Some? || turn.submitterStart) {
      match turn.submission.value
      case Sent(payload) => AwaitCaused(x, w.(submitter := Some(RecordOf(Succeed(payload, false)))), turn, text);
      case StepFailed(wire) => SubmitterCaused(x, wire, ran.after, turn, text);
      case Broken(e) => if !e.kind.Step? { BrokenCaused(x, e, ran.after, turn, text); }
    }
  }

  lemma BodyCaused(x: Id, w: Wait, turn: Turn, text: Text)
    requires turn.submission.Some? && turn.submission.value.Broken? ==> !turn.submission.value.error.kind.Callback?
    ensures Caused(x, Body(x, w, turn), turn, text)
  {
    hide ErrorCaused, Submit, MissingId, CallbackOutcome;
    var ran := Body(x, w, turn);
    match w.callback
    case None =>
      if turn.callbackStart.Some? {
        var started := w.(callback := Some(CallbackRecord(Started, None, NO_WIRE, turn.callbackStart.value)));
        if !Nameless(started.callback.value) { SubmitCaused(x, started, turn, text); }
        else { MissingIdCaused(x, Started, started, turn, text); }
      }
    case Some(r) =>
      if Nameless(r) { MissingIdCaused(x, r.status, w, turn, text); }
      else if r.status.Ready? { OutcomeCaused(x, r, w, turn, text); }
      else { SubmitCaused(x, w, turn, text); }
  }

  /** What the invocation that decides the operation leaves and returns: the decoded payload of a callback that
      succeeded, or the recorded failure with its kind and its cause. */
  predicate Decided(d: Decoder, x: Id, after: Wait, turn: Turn, r: OpResult) {
    && HasOutcome(after.outer)
    && if after.outer.value.status.Succeeded? then
         && after.callback.Some? && SettledWith(after, after.callback.value) && after.callback.value.status.Succeeded?
         && var read := d.decode(PayloadOf(after.callback.value));
            if read.Some? then r == Ok(read.value)
            else r.Err? && r.error.kind == Callback(DeserializationFailed) && r.error.wire.None?
       else
         && r.Err? && r.error.kind.Callback? && r.error.operation == Some(Operation(x, Status.Failed))
         && r.error.wire == Some(after.outer.value.wire)
         && Causes(after, turn, r.error.kind.kind, after.outer.value.wire, d.text)
  }

  lemma SettlingDecides(d: Decoder, x: Id, b: Ran<BodyResult>, turn: Turn)
    requires b.result.Some? && turn.outerEnd && Caused(x, b, turn, d.text)
    requires b.result.value.Returned? ==>
      && b.after.callback.Some? && SettledWith(b.after, b.after.callback.value)
      && b.after.callback.value.status.Succeeded? && b.result.value.payload == PayloadOf(b.after.callback.value)
    ensures
      var ran := Settle(d, x, b, turn);
      ran.result.Some? && Decided(d, x, ran.after, turn, Decode(d, ran.result.value))
  {
    var ran := Settle(d, x, b, turn);
    if b.result.value.Raised? { CausesOfBody(b.after, ran.after, turn); }
    hide OuterWire, LiveError, Causes, Nameless;
  }

  /** The outer record is not among the causes. */
  lemma CausesOfBody(before: Wait, after: Wait, turn: Turn)
    requires before == after.(outer := before.outer)
    ensures forall kind, w, text: Text :: Causes(before, turn, kind, w, text) ==> Causes(after, turn, kind, w, text)
  {
  }

  /** The invocation that decides a wait_for_callback returns the decoded payload of a callback that succeeded, or
      the recorded failure with its kind and its cause. The only failure that is not recorded is that of the
      decoding. */
  lemma OutcomeHasCause(d: Decoder, x: Id, w: Wait, turn: Turn)
    requires Valid(w) && !HasOutcome(w.outer) && Run(d, x, w, turn).result.Some?
    requires turn.submission.Some? && turn.submission.value.Broken? ==> !turn.submission.value.error.kind.Callback?
    ensures Decided(d, x, Run(d, x, w, turn).after, turn, Run(d, x, w, turn).result.value)
  {
    var begun := if w.outer.None? then w.(outer := Some(RecordOf(Start))) else w;
    var b := Body(x, begun, turn);
    BodyKeeps(x, begun, turn);
    BodyCaused(x, begun, turn, d.text);
    if b.result.Some? && turn.outerEnd { SettlingDecides(d, x, b, turn); }
    hide Body, Caused, Decided, Decode, OuterAction, OuterWire, LiveError;
  }

  /** A callback that timed out is replayed as a missed heartbeat when its type is the one of a heartbeat,
      and as a timeout with every other type and without one. */
  lemma TimedOutExactly(x: Id, r: CallbackRecord, text: Text)
    requires r.status.TimedOut?
    ensures
      var body := CallbackOutcome(x, r);
      && body.Raised?
      && var missed := r.wire.errorType == Some(HEARTBEAT);
         var outer := OuterWire(body.error, text);
         && outer == (if missed then Wire(Some(HEARTBEAT), Some("heartbeat timed out"), None, [])
                      else Wire(Some(TIMEOUT), Some("callback timed out"), None, []))
         && ReplayedError(x, outer).kind == Callback(if missed then HeartbeatTimedOut else CallbackKind.TimedOut)
  {
    TypesDiffer();
  }
}
