/** Handlers as trees of durable operations, and what one invocation of a handler does with the
    checkpoint log.

    A handler is deterministic: what it does next is a function of the results it was given. Its
    operations are leaves (steps and wait_for_callbacks) whose outcome the world decides, child contexts and
    combinators. Everything else is an oracle's choice, made for each operation: whether its START
    and its outcome reach the service in this invocation, when its inputs settle, what the serdes
    writes, and, for a combinator, what the slot for an execution-fatal error holds when it comes to its
    outcome. An operation whose write does not reach the service never returns in that invocation,
    which is how a crash, a suspension, a failed write and a cancelled input all look to the
    handler. The inputs of a combinator run one after the other here. They
    touch disjoint records, and each of them may stop anywhere, so every state that their
    interleaving can leave in the log is one that these runs leave.
 */
module Handlers {
  import opened Options
  import opened Records
  import opened Errors
  import opened Combinators
  import F = CombinatorFailures
  import O = SettleOrder
  import JsonText
  import opened Decimals

  // ----- Handlers -----

  /** An error that a body returns: its own, with the record derived from it, or that of an operation. */
  datatype UserErr = Own(wire: Wire) | Propagated(error: OpErr)

  datatype Prog = Return(value: Value) | Raise(error: UserErr) | Do(op: Op, k: OpResult -> Prog)

  /** What a leaf is: a step, or a wait_for_callback with the callback and the submitter below it. */
  datatype LeafKind = StepLeaf | CallbackLeaf

  datatype Op = Leaf(source: LeafKind) | Child(body: Prog) | Combine(kind: CombinatorKind, inputs: seq<Op>)

  datatype UserResult = Good(value: Value) | Bad(error: UserErr)

  /** The positions an operation mints: a combinator mints its own after those of its inputs. */
  function Width(op: Op): (w: nat)
    ensures w > 0
  {
    match op
    case Leaf(_) | Child(_) => 1
    case Combine(_, inputs) => Widths(inputs) + 1
  }

  function Widths(inputs: seq<Op>): nat {
    if inputs == [] then 0 else Width(inputs[0]) + Widths(inputs[1..])
  }

  /** The ID of an operation that starts minting at position n of the context q. */
  function IdOf(q: Id, n: nat, op: Op): Id {
    q + [n + Width(op) - 1]
  }

  // ----- Configuration and choices -----

  /** The serdes of every operation. Encoding may depend on more than the value, which salt stands
      for, and may fail. Only decoding must be a function of the payload. */
  datatype Codec = Codec(encode: (Id, Value, nat) -> Option<string>, decode: (Id, string) -> Option<Value>, text: Text)

  datatype LeafOutcome = Returns(payload: string) | Raises(wire: Wire)

  datatype Choice = Choice(
    start: bool,
    end: bool,
    salt: nat,
    preserve: bool,
    summary: string,
    order: seq<nat>,
    fatal: Option<string>,
    leaf: Option<LeafOutcome>)

  type Oracle = Id -> Choice

  const CHECKPOINT_SIZE_LIMIT: nat := 256 * 1024

  const SERIALIZATION_TYPE := "SerializationError"

  predicate Oversized(payload: string) {
    JsonText.Utf8Len(payload) > CHECKPOINT_SIZE_LIMIT
  }

  /** Every encoding of v decodes to what payload decodes to. */
  ghost predicate SameDecoded(c: Codec, x: Id, v: Value, payload: string) {
    forall salt: nat ::
      c.encode(x, v, salt).Some? && c.decode(x, c.encode(x, v, salt).value) == c.decode(x, payload)
  }

  /** Encodings of one value all fail, or all decode alike. */
  ghost predicate Stable(c: Codec) {
    forall x: Id, v: Value, s: nat, s': nat ::
      && (c.encode(x, v, s).Some? <==> c.encode(x, v, s').Some?)
      && (c.encode(x, v, s).Some? ==> c.decode(x, c.encode(x, v, s).value) == c.decode(x, c.encode(x, v, s').value))
  }

  // ----- Runs -----

  /** What a run did: its result unless it was interrupted, the log it left, its writes, the next
      position to mint, and whether the records it left determine the result. */
  datatype Exec<R> = Exec(result: Option<R>, log: Log, writes: seq<Write>, next: nat, repeatable: bool)

  datatype Inputs = Inputs(done: seq<Option<OpResult>>, repeatable: seq<bool>, log: Log, writes: seq<Write>)

  function Interrupted<R>(log: Log, writes: seq<Write>, next: nat): Exec<R> {
    Exec(None, log, writes, next, false)
  }

  function Begin(log: Log, x: Id): seq<Write> {
    if x in log then [] else [Write(x, Start)]
  }

  /** The log once the START of x is recorded. */
  function Begun(log: Log, x: Id): Log {
    if x in log then log else AfterWrite(log, Write(x, Start))
  }

  // ----- Leaves -----

  function Decoded(c: Codec, x: Id, payload: string, kind: ErrorKind): OpResult {
    var v := c.decode(x, payload);
    if v.Some? then Ok(v.value) else Err(Unrecorded(kind, DecodeMessage(kind)))
  }

  /** The kind of a recorded failure, by its type if it is a callback's, and of a failed decode. */
  function FailureKind(source: LeafKind, wire: Wire): ErrorKind {
    if source.StepLeaf? then Step else Callback(OuterKind(wire.errorType))
  }

  function DecodeKind(source: LeafKind): ErrorKind {
    if source.StepLeaf? then Step else Callback(DeserializationFailed)
  }

  function LeafResult(c: Codec, source: LeafKind, x: Id, leaf: LeafOutcome): OpResult {
    match leaf
    case Returns(payload) => Decoded(c, x, payload, DecodeKind(source))
    case Raises(wire) => Err(Recorded(FailureKind(source, wire), x, wire))
  }

  /** A wait_for_callback may ask the service to keep what is below it. */
  function LeafAction(source: LeafKind, preserve: bool, leaf: LeafOutcome): Action {
    match leaf
    case Returns(payload) => Succeed(payload, source.CallbackLeaf? && preserve)
    case Raises(wire) => Fail(wire, source.CallbackLeaf? && preserve)
  }

  function ReplayLeaf(c: Codec, source: LeafKind, x: Id, record: Record): OpResult {
    if record.status.Failed? then Err(Recorded(FailureKind(source, record.wire), x, record.wire))
    else if record.payload.Some? then Decoded(c, x, record.payload.value, DecodeKind(source))
    else if source.StepLeaf? then Err(Unrecorded(Step, "no result payload"))
    else Decoded(c, x, "null", DecodeKind(source))
  }

  predicate Settled(log: Log, x: Id) {
    x in log && (log[x].status.Succeeded? || log[x].status.Failed?)
  }

  function RunLeaf(c: Codec, source: LeafKind, ch: Choice, log: Log, x: Id, next: nat): Exec<OpResult> {
    if Settled(log, x) then Exec(Some(ReplayLeaf(c, source, x, log[x])), log, [], next, true)
    else if x !in log && !ch.start then Interrupted(log, [], next)
    else
      var begun := Begun(log, x);
      if ch.leaf.None? || !ch.end then Interrupted(begun, Begin(log, x), next)
      else
        var w := Write(x, LeafAction(source, ch.preserve, ch.leaf.value));
        Exec(Some(LeafResult(c, source, x, ch.leaf.value)), AfterWrite(begun, w), Begin(log, x) + [w], next, true)
  }

  // ----- Child contexts -----

  function FailureWire(u: UserErr, text: Text): Wire {
    match u
    case Own(wire) => wire
    case Propagated(e) => WireFor(e, text)
  }

  const SERIALIZE_FAILED := "serialize result"

  /** The error of a result that cannot be serialized, before its FAIL is recorded. */
  function SerializeError(): OpErr {
    Unrecorded(ChildInternal, SERIALIZE_FAILED)
  }

  /** The outcome write of a live child body, and what the child then returns. */
  function ChildAction(c: Codec, ch: Choice, x: Id, r: UserResult): Action {
    match r
    case Bad(u) => Fail(FailureWire(u, c.text), ch.preserve)
    case Good(v) =>
      var p := c.encode(x, v, ch.salt);
      if p.None? then Fail(WireWithType(SerializeError(), SERIALIZATION_TYPE, c.text), ch.preserve)
      else if Oversized(p.value) then Succeed(if c.decode(x, p.value).Some? then ch.summary else "", true)
      else Succeed(p.value, ch.preserve)
  }

  function ChildResult(c: Codec, ch: Choice, x: Id, r: UserResult): OpResult {
    match r
    case Bad(u) => Err(Recorded(ChildFailed, x, FailureWire(u, c.text)))
    case Good(v) =>
      var p := c.encode(x, v, ch.salt);
      if p.None? then Err(Recorded(ChildInternal, x, WireWithType(SerializeError(), SERIALIZATION_TYPE, c.text)))
      else Decoded(c, x, p.value, ChildInternal)
  }

  /** When a replay of the record that ChildAction leaves returns ChildResult: a body error must not
      record the type that marks a failed serialization, and a result that is not stored must be
      rebuilt by a body whose records determine it. */
  ghost predicate ChildRepeats(c: Codec, ch: Choice, x: Id, r: UserResult, body: bool) {
    match r
    case Bad(u) => FailureWire(u, c.text).errorType != Some(SERIALIZATION_TYPE)
    case Good(v) =>
      var p := c.encode(x, v, ch.salt);
      p.Some? && (Oversized(p.value) || ch.preserve) ==> body && SameDecoded(c, x, v, p.value)
  }

  /** replay_failure */
  function ReplayChildFailure(wire: Wire, x: Id): OpErr {
    Recorded(if wire.errorType == Some(SERIALIZATION_TYPE) then ChildInternal else ChildFailed, x, wire)
  }

  function ReplayChild(c: Codec, x: Id, record: Record): OpResult {
    if record.status.Failed? then Err(ReplayChildFailure(record.wire, x))
    else if record.payload.None? then
      Err(Unrecorded(ChildInternal, "checkpointed Succeeded operation has no result payload"))
    else Decoded(c, x, record.payload.value, ChildInternal)
  }

  /** What a record settles without its children: everything but a success with ReplayChildren. */
  predicate Closed(log: Log, x: Id) {
    Settled(log, x) && (log[x].status.Failed? || !log[x].replayChildren)
  }

  /** A result serialized and decoded again, as a reconstruction returns it. */
  function RoundTrip(c: Codec, x: Id, v: Value, salt: nat, unserialized: OpErr, kind: ErrorKind): OpResult {
    var p := c.encode(x, v, salt);
    if p.None? then Err(unserialized) else Decoded(c, x, p.value, kind)
  }

  /** A body run again for a recorded success that does not store its result. */
  ghost function Reconstructed(c: Codec, ch: Choice, x: Id, body: Exec<UserResult>, next: nat): Exec<OpResult> {
    if body.result.None? then Interrupted(body.log, body.writes, next)
    else
      match body.result.value
      case Bad(_) =>
        Exec(Some(Err(Unrecorded(ChildFailed, "child function error"))), body.log, body.writes, next, body.repeatable)
      case Good(v) =>
        var r := RoundTrip(c, x, v, ch.salt, SerializeError(), ChildInternal);
        var p := c.encode(x, v, ch.salt);
        Exec(Some(r), body.log, body.writes, next, body.repeatable && p.Some? && SameDecoded(c, x, v, p.value))
  }

  /** A live body's outcome, written once the START is acknowledged. */
  ghost function ChildSettled(
      c: Codec, ch: Choice, x: Id, begun: seq<Write>, body: Exec<UserResult>, next: nat): Exec<OpResult>
  {
    if body.result.None? || !ch.end then Interrupted(body.log, begun + body.writes, next)
    else
      var r := body.result.value;
      var w := Write(x, ChildAction(c, ch, x, r));
      Exec(Some(ChildResult(c, ch, x, r)), AfterWrite(body.log, w), begun + body.writes + [w], next,
           ChildRepeats(c, ch, x, r, body.repeatable))
  }

  /** A child with record log[x], given what its body does from there. */
  ghost function ChildRun(c: Codec, ch: Choice, log: Log, x: Id, body: Exec<UserResult>, next: nat): (e: Exec<OpResult>)
    ensures e.next == next
  {
    if Closed(log, x) then Exec(Some(ReplayChild(c, x, log[x])), log, [], next, true)
    else if Settled(log, x) then Reconstructed(c, ch, x, body, next)
    else if x !in log && !ch.start then Interrupted(log, [], next)
    else ChildSettled(c, ch, x, Begin(log, x), body, next)
  }

  // ----- Combinators -----

  function RejectedWire(e: OpErr, text: Text): Wire {
    var w := if e.wire.Some? then e.wire.value else WireFor(e, text);
    w.(message := Some(if w.message.Some? then w.message.value else text(e)))
  }

  function Items(results: seq<OpResult>, text: Text): seq<Outcome> {
    seq(|results|, i requires 0 <= i < |results| =>
      if results[i].Ok? then Fulfilled(results[i].value) else Rejected(RejectedWire(results[i].error, text)))
  }

  /** The value a successful combinator serializes. */
  function Combined(j: Joined, text: Text): Value
    requires j.Values? || j.Results? || j.Winner?
  {
    match j
    case Values(values) => Many(values)
    case Results(results) => Outcomes(Items(results, text))
    case Winner(_, v) => v
  }

  const UNSERIALIZED := "serialization failed"

  /** The outcome write of a live combinator, and what it then returns. A winner too large to store
      is recorded by its index. */
  function JoinAction(c: Codec, ch: Choice, x: Id, kind: CombinatorKind, j: Joined, p: string): Action
    requires !j.Waiting?
  {
    match j
    case Failure(f) => Fail(F.FailureWire(kind, f, c.text), ch.preserve)
    case Winner(i, _) => if Oversized(p) then Succeed(F.WinnerRecord(i), true) else Succeed(p, false)
    case _ => if Oversized(p) then Succeed("", true) else Succeed(p, ch.preserve)
  }

  function JoinResult(c: Codec, x: Id, kind: CombinatorKind, j: Joined, p: string): OpResult
    requires !j.Waiting?
  {
    match j
    case Failure(f) => Err(F.LiveFailure(kind, f, x, c.text))
    case _ => Decoded(c, x, p, CombinatorInternal)
  }

  ghost predicate JoinRepeats(c: Codec, x: Id, j: Joined, p: string, a: Action, inputs: seq<bool>)
    requires !j.Waiting?
  {
    j.Failure? || !a.Succeed? || !a.replayChildren
    || (&& SameDecoded(c, x, Combined(j, c.text), p)
        && if j.Winner? then j.index < |inputs| && inputs[j.index] else forall i | 0 <= i < |inputs| :: inputs[i])
  }

  /** The settled inputs of a live combinator. A result that cannot be serialized is returned as an
      error and leaves no outcome record, and so is every result once an execution-fatal error is
      recorded. */
  ghost function JoinSettled(
      c: Codec, ch: Choice, x: Id, kind: CombinatorKind, ins: Inputs, next: nat): Exec<OpResult>
  {
    var j := O.Outcome(kind, ins.done, ch.order);
    var begun := if x in ins.log || !ch.start then [] else [Write(x, Start)];
    var log := if begun == [] then ins.log else Begun(ins.log, x);
    if j.Waiting? then Interrupted(log, ins.writes + begun, next)
    else
      var p := if j.Failure? then Some("") else c.encode(x, Combined(j, c.text), ch.salt);
      if p.None? then
        Exec(Some(Err(Unrecorded(CombinatorInternal, UNSERIALIZED))), log, ins.writes + begun, next, false)
      else if x !in log then Interrupted(log, ins.writes + begun, next)
      else if ch.fatal.Some? then
        Exec(Some(Err(Unrecorded(CombinatorInternal, ch.fatal.value))), log, ins.writes + begun, next, false)
      else if !ch.end then Interrupted(log, ins.writes + begun, next)
      else
        var a := JoinAction(c, ch, x, kind, j, p.value);
        Exec(Some(JoinResult(c, x, kind, j, p.value)), AfterWrite(log, Write(x, a)),
             ins.writes + begun + [Write(x, a)], next,
             JoinRepeats(c, x, j, p.value, a, ins.repeatable))
  }

  function ReplayCombinator(c: Codec, x: Id, record: Record): OpResult {
    if record.status.Failed? then Err(F.ReplayFailure(record.wire, x))
    else if record.payload.None? then Err(Unrecorded(CombinatorInternal, "replay: succeeded record has no payload"))
    else Decoded(c, x, record.payload.value, CombinatorInternal)
  }

  /** The inputs of a recorded collection, driven again. */
  ghost function CollectionRebuilt(
      c: Codec, ch: Choice, x: Id, kind: CombinatorKind, ins: Inputs, next: nat): Exec<OpResult>
  {
    var j := O.Outcome(kind, ins.done, ch.order);
    if j.Waiting? then Interrupted(ins.log, ins.writes, next)
    else if j.Failure? then Exec(Some(Err(F.LiveFailure(kind, j.failure, x, c.text))), ins.log, ins.writes, next, false)
    else
      var v := Combined(j, c.text);
      var r := RoundTrip(c, x, v, ch.salt, Unrecorded(CombinatorInternal, UNSERIALIZED), CombinatorInternal);
      var p := c.encode(x, v, ch.salt);
      Exec(Some(r), ins.log, ins.writes, next,
           p.Some? && SameDecoded(c, x, v, p.value) && forall i | 0 <= i < |ins.repeatable| :: ins.repeatable[i])
  }

  /** The recorded winner, driven again. */
  ghost function WinnerRebuilt(c: Codec, ch: Choice, x: Id, input: Exec<OpResult>, next: nat): Exec<OpResult> {
    if input.result.None? then Interrupted(input.log, input.writes, next)
    else
      match input.result.value
      case Err(_) => Exec(input.result, input.log, input.writes, next, input.repeatable)
      case Ok(v) =>
        var r := RoundTrip(c, x, v, ch.salt, Unrecorded(CombinatorInternal, UNSERIALIZED), CombinatorInternal);
        var p := c.encode(x, v, ch.salt);
        Exec(Some(r), input.log, input.writes, next, input.repeatable && p.Some? && SameDecoded(c, x, v, p.value))
  }

  const MALFORMED_WINNER := "replay: malformed winner record"

  function OutOfRange(winner: nat, count: nat): string {
    "replay: recorded winner index " + Decimal(winner) + " is out of range for " + Decimal(count) + " inputs"
  }

  function WinnerOf(record: Record): Option<nat> {
    if record.payload.None? then None else F.ParseWinner(record.payload.value)
  }

  /** A recorded success that drives its recorded winner only. */
  predicate DrivesWinner(log: Log, x: Id, kind: CombinatorKind) {
    Settled(log, x) && !Closed(log, x) && (kind.SelectOk? || kind.Race?)
  }

  /** A winner record that names no input. */
  function NoWinner(log: Log, winner: Option<nat>, count: nat, next: nat): Exec<OpResult> {
    var message := if winner.None? then MALFORMED_WINNER else OutOfRange(winner.value, count);
    Exec(Some(Err(Unrecorded(CombinatorInternal, message))), log, [], next, true)
  }

  /** A combinator with record log[x] that drives all its inputs, or none, given what they do. */
  ghost function CombineRun(
      c: Codec, ch: Choice, log: Log, x: Id, kind: CombinatorKind, ins: Inputs, next: nat): (e: Exec<OpResult>)
    ensures e.next == next
  {
    if Closed(log, x) then Exec(Some(ReplayCombinator(c, x, log[x])), log, [], next, true)
    else if Settled(log, x) then CollectionRebuilt(c, ch, x, kind, ins, next)
    else JoinSettled(c, ch, x, kind, ins, next)
  }

  /** An operation that returned, and what its context did after it. */
  function Then(e: Exec<OpResult>, rest: Exec<UserResult>): Exec<UserResult> {
    Exec(rest.result, rest.log, e.writes + rest.writes, rest.next, e.repeatable && rest.repeatable)
  }

  // ----- The interpreter -----

  /** One operation that mints from position n of the context q. */
  ghost function RunOp(c: Codec, o: Oracle, log: Log, q: Id, n: nat, op: Op, fuel: nat): (e: Exec<OpResult>)
    ensures e.next == n + Width(op)
    decreases fuel, 0
  {
    var x, next := IdOf(q, n, op), n + Width(op);
    if fuel == 0 then Interrupted(log, [], next)
    else
      match op
      case Leaf(source) => RunLeaf(c, source, o(x), log, x, next)
      case Child(body) =>
        ChildRun(c, o(x), log, x, RunProg(c, o, Begun(log, x), x, 1, body, fuel - 1), next)
      case Combine(kind, inputs) =>
        // A list of inputs is in memory, so its length fits usize.
        if |inputs| > USIZE_MAX then Interrupted(log, [], next)
        else if DrivesWinner(log, x, kind) then
          var winner := WinnerOf(log[x]);
          if winner.None? || winner.value >= |inputs| then NoWinner(log, winner, |inputs|, next)
          else
            var at := n + Widths(inputs[..winner.value]);
            WinnerRebuilt(c, o(x), x, RunOp(c, o, log, q, at, inputs[winner.value], fuel - 1), next)
        else CombineRun(c, o(x), log, x, kind, RunInputs(c, o, log, q, n, inputs, fuel - 1), next)
  }

  /** The inputs of a combinator, each from its own position. */
  ghost function RunInputs(c: Codec, o: Oracle, log: Log, q: Id, n: nat, inputs: seq<Op>, fuel: nat): (ins: Inputs)
    ensures |ins.done| == |ins.repeatable| == |inputs|
    decreases fuel, 1, |inputs|
  {
    if inputs == [] then Inputs([], [], log, [])
    else
      var e := RunOp(c, o, log, q, n, inputs[0], fuel);
      var rest := RunInputs(c, o, e.log, q, e.next, inputs[1..], fuel);
      Inputs([e.result] + rest.done, [e.repeatable] + rest.repeatable, rest.log, e.writes + rest.writes)
  }

  /** A body or a handler from position n of its context. A run longer than fuel is interrupted. */
  ghost function RunProg(c: Codec, o: Oracle, log: Log, q: Id, n: nat, p: Prog, fuel: nat): (e: Exec<UserResult>)
    ensures e.next >= n
    decreases fuel, 0
  {
    match p
    case Return(v) => Exec(Some(Good(v)), log, [], n, true)
    case Raise(u) => Exec(Some(Bad(u)), log, [], n, true)
    case Do(op, k) =>
      if fuel == 0 then Interrupted(log, [], n)
      else
        var e := RunOp(c, o, log, q, n, op, fuel - 1);
        if e.result.None? then Interrupted(e.log, e.writes, e.next)
        else
          Then(e, RunProg(c, o, e.log, q, e.next, k(e.result.value), fuel - 1))
  }

  // ----- The interpreter, one layer at a time -----

  lemma {:induction false} LeafUnfolds(c: Codec, source: LeafKind, o: Oracle, log: Log, q: Id, n: nat, fuel: nat)
    requires fuel > 0
    ensures RunOp(c, o, log, q, n, Leaf(source), fuel) == RunLeaf(c, source, o(q + [n]), log, q + [n], n + 1)
    ensures Width(Leaf(source)) == 1
  {
    hide RunLeaf;
    assert IdOf(q, n, Leaf(source)) == q + [n];
  }

  lemma {:induction false} NoFuel(c: Codec, o: Oracle, log: Log, q: Id, n: nat, op: Op)
    ensures RunOp(c, o, log, q, n, op, 0) == Exec(None, log, [], n + Width(op), false)
  {
    hide Width;
  }

  lemma WidthFacts(op: Op)
    ensures op.Leaf? || op.Child? ==> Width(op) == 1
    ensures op.Combine? ==> Width(op) == Widths(op.inputs) + 1
  {
  }

  lemma {:induction false} ChildUnfolds(c: Codec, o: Oracle, log: Log, q: Id, n: nat, body: Prog, fuel: nat)
    requires fuel > 0
    ensures
      var x := q + [n];
      RunOp(c, o, log, q, n, Child(body), fuel)
      == ChildRun(c, o(x), log, x, RunProg(c, o, Begun(log, x), x, 1, body, fuel - 1), n + 1)
  {
    hide ChildRun, RunProg;
    assert IdOf(q, n, Child(body)) == q + [n];
  }

  /** The input that a combinator's record has driven again, if its record drives the winner only. */
  function WinnerDriven(log: Log, x: Id, kind: CombinatorKind, inputs: seq<Op>): (winner: Option<nat>)
    ensures winner.Some? ==> winner.value < |inputs| && DrivesWinner(log, x, kind) && winner == WinnerOf(log[x])
  {
    if DrivesWinner(log, x, kind) && WinnerOf(log[x]).Some? && WinnerOf(log[x]).value < |inputs|
    then WinnerOf(log[x])
    else None
  }

  lemma {:induction false} CombineUnfolds(
      c: Codec, o: Oracle, log: Log, q: Id, n: nat, kind: CombinatorKind, inputs: seq<Op>, fuel: nat)
    requires 0 < fuel && |inputs| <= USIZE_MAX
    ensures
      var at := n + Widths(inputs);
      var x := q + [at];
      var winner := WinnerDriven(log, x, kind, inputs);
      RunOp(c, o, log, q, n, Combine(kind, inputs), fuel)
      == if winner.Some? then
           var from := n + Widths(inputs[..winner.value]);
           WinnerRebuilt(c, o(x), x, RunOp(c, o, log, q, from, inputs[winner.value], fuel - 1), at + 1)
         else if DrivesWinner(log, x, kind) then NoWinner(log, WinnerOf(log[x]), |inputs|, at + 1)
         else CombineRun(c, o(x), log, x, kind, RunInputs(c, o, log, q, n, inputs, fuel - 1), at + 1)
  {
    hide CombineRun, WinnerRebuilt, NoWinner, RunInputs, DrivesWinner, WinnerOf, Widths;
    assert IdOf(q, n, Combine(kind, inputs)) == q + [n + Widths(inputs)];
  }

  lemma ClosedRun(c: Codec, ch: Choice, log: Log, x: Id, kind: CombinatorKind, ins: Inputs, inputs: seq<Op>, next: nat)
    requires Closed(log, x)
    ensures WinnerDriven(log, x, kind, inputs).None? && !DrivesWinner(log, x, kind)
    ensures CombineRun(c, ch, log, x, kind, ins, next)
         == Exec(Some(ReplayCombinator(c, x, log[x])), log, [], next, true)
  {
  }

  lemma CombineCases(c: Codec, ch: Choice, log: Log, x: Id, kind: CombinatorKind, ins: Inputs, next: nat)
    requires !Closed(log, x)
    ensures CombineRun(c, ch, log, x, kind, ins, next)
         == if Settled(log, x) then CollectionRebuilt(c, ch, x, kind, ins, next)
           else JoinSettled(c, ch, x, kind, ins, next)
    ensures CollectionRebuilt(c, ch, x, kind, ins, next).log == ins.log
    ensures CollectionRebuilt(c, ch, x, kind, ins, next).writes == ins.writes
  {
    hide JoinSettled, O.Outcome, SameDecoded;
  }

  lemma ChildCases(c: Codec, ch: Choice, log: Log, x: Id, body: Exec<UserResult>, next: nat)
    ensures ChildRun(c, ch, log, x, body, next)
         == if Closed(log, x) then Exec(Some(ReplayChild(c, x, log[x])), log, [], next, true)
            else if Settled(log, x) then Reconstructed(c, ch, x, body, next)
            else if x !in log && !ch.start then Exec(None, log, [], next, false)
            else ChildSettled(c, ch, x, Begin(log, x), body, next)
  {
    hide ReplayChild, Reconstructed, ChildSettled;
  }

  lemma SettledCases(c: Codec, ch: Choice, x: Id, begun: seq<Write>, body: Exec<UserResult>, next: nat)
    ensures
      var e := ChildSettled(c, ch, x, begun, body, next);
      if body.result.None? || !ch.end then e.result == None && e.log == body.log && e.writes == begun + body.writes
      else
        var w := Write(x, ChildAction(c, ch, x, body.result.value));
        && e.result == Some(ChildResult(c, ch, x, body.result.value))
        && e.log == AfterWrite(body.log, w) && e.writes == begun + body.writes + [w]
    ensures
      var e := Reconstructed(c, ch, x, body, next);
      && e.log == body.log && e.writes == body.writes
      && e.result == if body.result.None? then None
                     else Some(if body.result.value.Bad? then Err(Unrecorded(ChildFailed, "child function error"))
                               else RoundTrip(c, x, body.result.value.value, ch.salt, SerializeError(), ChildInternal))
  {
    hide ChildAction, ChildResult, ChildRepeats, SameDecoded, RoundTrip;
  }

  lemma WinnerCases(c: Codec, ch: Choice, x: Id, input: Exec<OpResult>, next: nat)
    ensures
      var e := WinnerRebuilt(c, ch, x, input, next);
      && e.log == input.log && e.writes == input.writes
      && e.result == if input.result.None? || input.result.value.Err? then input.result
                     else Some(RoundTrip(c, x, input.result.value.value, ch.salt,
                       Unrecorded(CombinatorInternal, UNSERIALIZED), CombinatorInternal))
  {
    hide SameDecoded, RoundTrip;
  }

  lemma NoWinnerCases(log: Log, winner: Option<nat>, count: nat, next: nat)
    ensures
      var e := NoWinner(log, winner, count, next);
      && e.log == log && e.writes == []
      && e.result == Some(Err(Unrecorded(
           CombinatorInternal, if winner.None? then MALFORMED_WINNER else OutOfRange(winner.value, count))))
  {
  }

  lemma DrivesWinnerCases(log: Log, x: Id, kind: CombinatorKind, inputs: seq<Op>)
    ensures DrivesWinner(log, x, kind) <==> Settled(log, x) && !Closed(log, x) && (kind.SelectOk? || kind.Race?)
    ensures WinnerDriven(log, x, kind, inputs)
         == if DrivesWinner(log, x, kind) && WinnerOf(log[x]).Some? && WinnerOf(log[x]).value < |inputs|
            then WinnerOf(log[x])
            else None
  {
    hide WinnerOf;
  }

  lemma JoinLog(c: Codec, ch: Choice, x: Id, kind: CombinatorKind, ins: Inputs, next: nat)
    ensures
      var after := JoinSettled(c, ch, x, kind, ins, next).log;
      after == ins.log || (x in after && after == ins.log[x := after[x]])
  {
    hide O.Outcome, Combined, JoinAction, JoinResult, JoinRepeats;
  }

  lemma SettledFacts(log: Log, x: Id)
    ensures Closed(log, x) ==> Settled(log, x)
    ensures Settled(log, x) ==> x in log && Begun(log, x) == log
  {
  }

  lemma NotDriven(log: Log, x: Id, kind: CombinatorKind, inputs: seq<Op>)
    requires !DrivesWinner(log, x, kind)
    ensures WinnerDriven(log, x, kind, inputs).None?
  {
  }

  lemma {:induction false} InputsUnfold(c: Codec, o: Oracle, log: Log, q: Id, n: nat, inputs: seq<Op>, fuel: nat)
    requires inputs != []
    ensures
      var e := RunOp(c, o, log, q, n, inputs[0], fuel);
      var rest := RunInputs(c, o, e.log, q, e.next, inputs[1..], fuel);
      RunInputs(c, o, log, q, n, inputs, fuel)
      == Inputs([e.result] + rest.done, [e.repeatable] + rest.repeatable, rest.log, e.writes + rest.writes)
  {
    hide RunOp;
  }

  lemma TooManyInputs(c: Codec, o: Oracle, log: Log, q: Id, n: nat, kind: CombinatorKind, inputs: seq<Op>, fuel: nat)
    requires |inputs| > USIZE_MAX
    ensures RunOp(c, o, log, q, n, Combine(kind, inputs), fuel)
         == Exec(None, log, [], n + Width(Combine(kind, inputs)), false)
  {
    hide RunInputs, CombineRun, WinnerRebuilt, NoWinner, Widths;
  }

  lemma InterruptedFacts<R>(log: Log, writes: seq<Write>, next: nat)
    ensures Interrupted<R>(log, writes, next) == Exec(None, log, writes, next, false)
  {
  }

  lemma ThenFacts(e: Exec<OpResult>, rest: Exec<UserResult>)
    ensures Then(e, rest)
         == Exec(rest.result, rest.log, e.writes + rest.writes, rest.next, e.repeatable && rest.repeatable)
  {
  }

  lemma {:induction false} EndUnfolds(c: Codec, o: Oracle, log: Log, q: Id, n: nat, p: Prog, fuel: nat)
    ensures p.Return? ==> RunProg(c, o, log, q, n, p, fuel) == Exec(Some(Good(p.value)), log, [], n, true)
    ensures p.Raise? ==> RunProg(c, o, log, q, n, p, fuel) == Exec(Some(Bad(p.error)), log, [], n, true)
    ensures p.Do? && fuel == 0 ==> RunProg(c, o, log, q, n, p, fuel) == Exec(None, log, [], n, false)
  {
    hide RunOp;
  }

  lemma NoInputsRun(c: Codec, o: Oracle, log: Log, q: Id, n: nat, fuel: nat)
    ensures RunInputs(c, o, log, q, n, [], fuel) == Inputs([], [], log, [])
  {
  }

  lemma {:induction false} DoUnfolds(c: Codec, o: Oracle, log: Log, q: Id, n: nat, p: Prog, fuel: nat)
    requires p.Do? && fuel > 0
    ensures
      var e := RunOp(c, o, log, q, n, p.op, fuel - 1);
      RunProg(c, o, log, q, n, p, fuel)
      == if e.result.None? then Interrupted(e.log, e.writes, e.next)
         else Then(e, RunProg(c, o, e.log, q, e.next, p.k(e.result.value), fuel - 1))
  {
    hide RunOp, Then;
  }

  /** A combinator without an outcome runs live. */
  lemma LiveUnfolds(c: Codec, o: Oracle, log: Log, q: Id, n: nat, kind: CombinatorKind, inputs: seq<Op>, fuel: nat)
    requires 0 < fuel && |inputs| <= USIZE_MAX && !Settled(log, q + [n + Widths(inputs)])
    ensures
      var at := n + Widths(inputs);
      RunOp(c, o, log, q, n, Combine(kind, inputs), fuel)
      == JoinSettled(c, o(q + [at]), q + [at], kind, RunInputs(c, o, log, q, n, inputs, fuel - 1), at + 1)
  {
    hide *;
    var at := n + Widths(inputs);
    CombineUnfolds(c, o, log, q, n, kind, inputs, fuel);
    SettledFacts(log, q + [at]);
    DrivesWinnerCases(log, q + [at], kind, inputs);
    CombineCases(c, o(q + [at]), log, q + [at], kind, RunInputs(c, o, log, q, n, inputs, fuel - 1), at + 1);
  }
}
