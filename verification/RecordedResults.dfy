/** What operations with a settled record return, told from that record, or from what is driven again when the
    record asks for it. Nothing is written but below it.
 */
module RecordedResults {
  import opened Options
  import opened Records
  import opened Errors
  import opened Combinators
  import opened Handlers
  import opened Outcomes
  import opened Results
  import opened Decimals
  import F = CombinatorFailures
  import O = SettleOrder

  /** An error without a record, with this message. */
  predicate FailsWithout(kind: ErrorKind, message: string, r: OpResult) {
    r == Err(OpErr(kind, None, None, message))
  }

  /** A settled leaf returns what its record holds, and writes nothing. A callback's success without a payload
      reads as null, a step's is an error. */
  predicate LeafRepeats(c: Codec, source: LeafKind, x: Id, record: Record, r: OpResult) {
    if record.status.Failed? then LeafGives(c, source, x, Raises(record.wire), r)
    else if record.payload.Some? then LeafGives(c, source, x, Returns(record.payload.value), r)
    else if source.CallbackLeaf? then LeafGives(c, source, x, Returns("null"), r)
    else FailsWithout(Step, "no result payload", r)
  }

  lemma LeafIsReplayed(c: Codec, source: LeafKind, o: Oracle, log: Log, q: Id, n: nat, fuel: nat)
    requires fuel > 0 && Settled(log, q + [n])
    ensures
      var x := q + [n];
      var e := RunOp(c, o, log, q, n, Leaf(source), fuel);
      e.log == log && e.writes == [] && e.result.Some? && LeafRepeats(c, source, x, log[x], e.result.value)
  {
    LeafUnfolds(c, source, o, log, q, n, fuel);
    hide RunOp;
  }

  /** A child whose record ends it returns what the record holds: its failure, with the kind that its type
      says, or its result. */
  predicate ChildRepeatsRecord(c: Codec, x: Id, record: Record, r: OpResult) {
    if record.status.Failed? then
      r.Err? && FailedAt(x, if record.wire.errorType == Some("SerializationError") then ChildInternal else ChildFailed,
                         record.wire, r.error)
    else if record.payload.Some? then ReadAs(c.decode(x, record.payload.value), ChildInternal, r)
    else FailsWithout(ChildInternal, "checkpointed Succeeded operation has no result payload", r)
  }

  /** A child whose record succeeded without its result runs its body again, and passes the result through the
      serdes. A body that fails this time gives an error without a record. */
  predicate ChildRebuilds(c: Codec, ch: Choice, x: Id, body: UserResult, r: OpResult) {
    match body
    case Bad(_) => FailsWithout(ChildFailed, "child function error", r)
    case Good(v) =>
      var p := c.encode(x, v, ch.salt);
      if p.None? then FailsWithout(ChildInternal, "serialize result", r)
      else ReadAs(c.decode(x, p.value), ChildInternal, r)
  }

  lemma {:induction false} ChildIsReplayed(c: Codec, o: Oracle, log: Log, q: Id, n: nat, body: Prog, fuel: nat)
    requires fuel > 0 && Settled(log, q + [n])
    ensures
      var x := q + [n];
      var e := RunOp(c, o, log, q, n, Child(body), fuel);
      if log[x].status.Failed? || !log[x].replayChildren then
        e.log == log && e.writes == [] && e.result.Some? && ChildRepeatsRecord(c, x, log[x], e.result.value)
      else
        var b := RunProg(c, o, log, x, 1, body, fuel - 1);
        && e.log == b.log && e.writes == b.writes && (e.result.Some? <==> b.result.Some?)
        && (e.result.Some? ==> ChildRebuilds(c, o(x), x, b.result.value, e.result.value))
  {
    hide *;
    var x := q + [n];
    SettledFacts(log, x);
    var b := RunProg(c, o, log, x, 1, body, fuel - 1);
    ChildUnfolds(c, o, log, q, n, body, fuel);
    ChildOfRecord(c, o(x), log, x, b, n + 1);
  }

  lemma ChildOfRecord(c: Codec, ch: Choice, log: Log, x: Id, b: Exec<UserResult>, next: nat)
    requires Settled(log, x)
    ensures
      var e := ChildRun(c, ch, log, x, b, next);
      if log[x].status.Failed? || !log[x].replayChildren then
        e.log == log && e.writes == [] && e.result.Some? && ChildRepeatsRecord(c, x, log[x], e.result.value)
      else
        && e.log == b.log && e.writes == b.writes && (e.result.Some? <==> b.result.Some?)
        && (e.result.Some? ==> ChildRebuilds(c, ch, x, b.result.value, e.result.value))
  {
    hide SameDecoded;
  }

  /** A combinator whose record ends it returns the recorded failure or its recorded result. */
  predicate JoinRepeatsRecord(c: Codec, x: Id, record: Record, r: OpResult) {
    if record.status.Failed? then r.Err? && FailedAt(x, r.error.kind, record.wire, r.error)
    else if record.payload.Some? then ReadAs(c.decode(x, record.payload.value), CombinatorInternal, r)
    else FailsWithout(CombinatorInternal, "replay: succeeded record has no payload", r)
  }

  lemma CombinatorIsReplayed(
      c: Codec, o: Oracle, log: Log, q: Id, n: nat, kind: CombinatorKind, inputs: seq<Op>, fuel: nat)
    requires fuel > 0 && |inputs| <= USIZE_MAX
    requires
      var x := q + [n + Widths(inputs)];
      Settled(log, x) && (log[x].status.Failed? || !log[x].replayChildren)
    ensures
      var x := q + [n + Widths(inputs)];
      var e := RunOp(c, o, log, q, n, Combine(kind, inputs), fuel);
      e.log == log && e.writes == [] && e.result.Some? && JoinRepeatsRecord(c, x, log[x], e.result.value)
  {
    hide *;
    var x := q + [n + Widths(inputs)];
    CombineUnfolds(c, o, log, q, n, kind, inputs, fuel);
    IsClosed(log, x);
    ClosedRun(c, o(x), log, x, kind, RunInputs(c, o, log, q, n, inputs, fuel - 1), inputs, n + Widths(inputs) + 1);
    JoinOfRecord(c, x, log[x]);
  }

  lemma IsClosed(log: Log, x: Id)
    requires Settled(log, x) && (log[x].status.Failed? || !log[x].replayChildren)
    ensures x in log && Closed(log, x)
  {
  }

  lemma JoinOfRecord(c: Codec, x: Id, record: Record)
    ensures JoinRepeatsRecord(c, x, record, ReplayCombinator(c, x, record))
  {
    hide F.JoinIndex, F.RecordedLosers;
  }

  /** A collection that its record does not store is joined again from all its inputs, and nothing more is
      written: it returns what a live one would that meets no execution-fatal error. */
  lemma CollectionIsRebuilt(
      c: Codec, o: Oracle, log: Log, q: Id, n: nat, kind: CombinatorKind, inputs: seq<Op>, fuel: nat)
    requires fuel > 0 && |inputs| <= USIZE_MAX && (kind.TryJoinAll? || kind.JoinAll?)
    requires
      var x := q + [n + Widths(inputs)];
      Settled(log, x) && log[x].status.Succeeded? && log[x].replayChildren
    ensures
      var x := q + [n + Widths(inputs)];
      var e := RunOp(c, o, log, q, n, Combine(kind, inputs), fuel);
      var ins := RunInputs(c, o, log, q, n, inputs, fuel - 1);
      && e.log == ins.log && e.writes == ins.writes
      && (e.result.Some? ==> JoinGives(c, o(x).(fatal := None), x, kind, ins.done, e.result.value))
  {
    hide *;
    var x := q + [n + Widths(inputs)];
    var ins := RunInputs(c, o, log, q, n, inputs, fuel - 1);
    CombineUnfolds(c, o, log, q, n, kind, inputs, fuel);
    IsOpen(log, x);
    DrivesWinnerCases(log, x, kind, inputs);
    CombineCases(c, o(x), log, x, kind, ins, n + Widths(inputs) + 1);
    RebuiltGives(c, o(x), x, kind, ins, n + Widths(inputs) + 1);
  }

  lemma IsOpen(log: Log, x: Id)
    requires Settled(log, x) && log[x].status.Succeeded? && log[x].replayChildren
    ensures x in log && !Closed(log, x)
  {
  }

  lemma RebuiltGives(c: Codec, ch: Choice, x: Id, kind: CombinatorKind, ins: Inputs, next: nat)
    ensures
      var r := CollectionRebuilt(c, ch, x, kind, ins, next).result;
      r.Some? ==> JoinGives(c, ch.(fatal := None), x, kind, ins.done, r.value)
  {
    var calm := ch.(fatal := None);
    var j := O.Outcome(kind, ins.done, ch.order);
    if j.Failure? { FailedGives(c, calm, x, kind, ins.done); }
    if !j.Waiting? && !j.Failure? { DecidedGives(c, calm, x, kind, ins.done); }
    hide O.Outcome, Combined, SameDecoded, F.LiveFailure, Decoded, JoinGives;
  }

  /** What driving the recorded winner again gives: its error, or its value read back. */
  predicate WinnerGives(c: Codec, ch: Choice, x: Id, input: OpResult, r: OpResult) {
    match input
    case Err(_) => r == input
    case Ok(v) =>
      var p := c.encode(x, v, ch.salt);
      if p.None? then FailsWithout(CombinatorInternal, "serialization failed", r)
      else ReadAs(c.decode(x, p.value), CombinatorInternal, r)
  }

  function NoInputNamed(winner: Option<nat>, count: nat): string {
    if winner.None? then "replay: malformed winner record"
    else "replay: recorded winner index " + Decimal(winner.value) + " is out of range for " + Decimal(count) + " inputs"
  }

  /** A race or a select_ok whose record names the winner only drives that input and no other. A record that names
      none of the inputs gives an error without a record. */
  lemma WinnerIsRebuilt(
      c: Codec, o: Oracle, log: Log, q: Id, n: nat, kind: CombinatorKind, inputs: seq<Op>, fuel: nat)
    requires fuel > 0 && |inputs| <= USIZE_MAX && (kind.SelectOk? || kind.Race?)
    requires
      var x := q + [n + Widths(inputs)];
      Settled(log, x) && log[x].status.Succeeded? && log[x].replayChildren
    ensures
      var x := q + [n + Widths(inputs)];
      var e := RunOp(c, o, log, q, n, Combine(kind, inputs), fuel);
      var winner := if log[x].payload.Some? then F.ParseWinner(log[x].payload.value) else None;
      if winner.None? || winner.value >= |inputs| then
        && e.log == log && e.writes == [] && e.result.Some?
        && FailsWithout(CombinatorInternal, NoInputNamed(winner, |inputs|), e.result.value)
      else
        var input := RunOp(c, o, log, q, n + Widths(inputs[..winner.value]), inputs[winner.value], fuel - 1);
        && e.log == input.log && e.writes == input.writes && (e.result.Some? <==> input.result.Some?)
        && (e.result.Some? ==> WinnerGives(c, o(x), x, input.result.value, e.result.value))
  {
    hide *;
    var at := n + Widths(inputs);
    var x := q + [at];
    CombineUnfolds(c, o, log, q, n, kind, inputs, fuel);
    IsOpen(log, x);
    DrivesWinnerCases(log, x, kind, inputs);
    WinnerParsed(log[x]);
    var winner := WinnerOf(log[x]);
    NoWinnerCases(log, winner, |inputs|, at + 1);
    if winner.Some? && winner.value < |inputs| {
      var input := RunOp(c, o, log, q, n + Widths(inputs[..winner.value]), inputs[winner.value], fuel - 1);
      WinnerRebuiltGives(c, o(x), x, input, at + 1);
    } else {
      Unmatched(winner, |inputs|);
    }
  }

  lemma WinnerParsed(record: Record)
    ensures WinnerOf(record) == if record.payload.Some? then F.ParseWinner(record.payload.value) else None
  {
    hide F.ParseWinner;
  }

  lemma Unmatched(winner: Option<nat>, count: nat)
    ensures FailsWithout(CombinatorInternal, NoInputNamed(winner, count), Err(Unrecorded(
              CombinatorInternal, if winner.None? then MALFORMED_WINNER else OutOfRange(winner.value, count))))
  {
    hide Decimal;
  }

  lemma WinnerRebuiltGives(c: Codec, ch: Choice, x: Id, input: Exec<OpResult>, next: nat)
    ensures
      var e := WinnerRebuilt(c, ch, x, input, next);
      && e.log == input.log && e.writes == input.writes && (e.result.Some? <==> input.result.Some?)
      && (e.result.Some? ==> WinnerGives(c, ch, x, input.result.value, e.result.value))
  {
    hide SameDecoded;
  }
}
