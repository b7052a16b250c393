/** What live operations return, told from the results they are made of: the value that the world or a body gave,
    the values and outcomes of the inputs, or the failure that is recorded.
 */
module Results {
  import opened Options
  import opened Records
  import opened Errors
  import opened Combinators
  import opened Handlers
  import opened Outcomes
  import opened Decimals
  import F = CombinatorFailures
  import O = SettleOrder

  /** What is read back of a payload: its value, or an error without a record. */
  predicate ReadAs(read: Option<Value>, kind: ErrorKind, r: OpResult) {
    if read.Some? then r == Ok(read.value)
    else
      && r.Err? && r.error.kind == kind && r.error.operation.None? && r.error.wire.None?
      && r.error.message == if kind.Callback? then "callback serdes" else "deserialize result"
  }

  /** The error of an operation whose recorded failure is w. */
  predicate FailedAt(x: Id, kind: ErrorKind, w: Wire, e: OpErr) {
    e.kind == kind && e.operation == Some(Operation(x, Status.Failed)) && e.wire == Some(w)
  }

  // ----- Steps -----

  predicate LeafGives(c: Codec, source: LeafKind, x: Id, leaf: LeafOutcome, r: OpResult) {
    match leaf
    case Returns(payload) =>
      ReadAs(c.decode(x, payload), if source.StepLeaf? then Step else Callback(DeserializationFailed), r)
    case Raises(wire) =>
      && r.Err? && FailedAt(x, r.error.kind, wire, r.error)
      && if source.StepLeaf? then r.error.kind.Step? else r.error.kind.Callback?
  }

  /** A live leaf returns what the world gave it. */
  lemma LeafReturns(c: Codec, source: LeafKind, o: Oracle, log: Log, q: Id, n: nat, fuel: nat)
    requires !Settled(log, q + [n])
    ensures
      var r := RunOp(c, o, log, q, n, Leaf(source), fuel).result;
      r.Some? ==> o(q + [n]).leaf.Some? && LeafGives(c, source, q + [n], o(q + [n]).leaf.value, r.value)
  {
    NoFuel(c, o, log, q, n, Leaf(source));
    if fuel > 0 { LeafUnfolds(c, source, o, log, q, n, fuel); }
    hide RunOp;
  }

  // ----- Children -----

  ghost predicate ChildGives(c: Codec, ch: Choice, x: Id, body: UserResult, r: OpResult) {
    match body
    case Good(v) =>
      var p := c.encode(x, v, ch.salt);
      if p.None? then r.Err? && exists w :: NotEncoded(w, c.text) && FailedAt(x, ChildInternal, w, r.error)
      else ReadAs(c.decode(x, p.value), ChildInternal, r)
    case Bad(u) => r.Err? && exists w :: FailsAs(u, w, c.text) && FailedAt(x, ChildFailed, w, r.error)
  }

  lemma ChildResultGives(c: Codec, ch: Choice, x: Id, body: UserResult)
    ensures ChildGives(c, ch, x, body, ChildResult(c, ch, x, body))
  {
    match body
    case Bad(u) => assert FailsAs(u, FailureWire(u, c.text), c.text);
    case Good(v) =>
      var w := WireWithType(SerializeError(), SERIALIZATION_TYPE, c.text);
      assert NotEncoded(w, c.text);
  }

  /** A live child returns what its body returned. */
  lemma {:induction false} ChildReturns(c: Codec, o: Oracle, log: Log, q: Id, n: nat, body: Prog, fuel: nat)
    requires !Settled(log, q + [n])
    ensures
      var x := q + [n];
      var r := RunOp(c, o, log, q, n, Child(body), fuel).result;
      r.Some? ==>
        && fuel > 0
        && var b := RunProg(c, o, Begun(log, x), x, 1, body, fuel - 1).result;
           b.Some? && ChildGives(c, o(x), x, b.value, r.value)
  {
    hide *;
    var x := q + [n];
    NoFuel(c, o, log, q, n, Child(body));
    if fuel > 0 {
      var b := RunProg(c, o, Begun(log, x), x, 1, body, fuel - 1);
      ChildUnfolds(c, o, log, q, n, body, fuel);
      ChildCases(c, o(x), log, x, b, n + 1);
      SettledFacts(log, x);
      SettledCases(c, o(x), x, Begin(log, x), b, n + 1);
      if b.result.Some? { ChildResultGives(c, o(x), x, b.result.value); }
    }
  }

  // ----- Combinators -----

  /** The inputs that completed decide for this value. */
  ghost predicate Decides(kind: CombinatorKind, done: O.Done, order: seq<nat>, v: Value, text: Text) {
    CollectionOf(kind, done, v, text) || exists i :: WinsWith(kind, done, order, i, v)
  }

  /** What a live combinator gives: the value it decided for, as it is read back, the failure it recorded, or an
      error without a record: of the serdes, or the execution-fatal one. */
  ghost predicate JoinGives(c: Codec, ch: Choice, x: Id, kind: CombinatorKind, done: O.Done, r: OpResult) {
    match r
    case Ok(read) =>
      exists v ::
        && Decides(kind, done, ch.order, v, c.text) && c.encode(x, v, ch.salt).Some?
        && c.decode(x, c.encode(x, v, ch.salt).value) == Some(read)
    case Err(e) =>
      || (exists w :: FailsWith(kind, done, ch.order, e.kind, w, c.text) && FailedAt(x, e.kind, w, e))
      || (&& e.kind.CombinatorInternal? && e.operation.None? && e.wire.None?
          && (ch.fatal == Some(e.message)
              || exists v ::
                   && Decides(kind, done, ch.order, v, c.text)
                   && if c.encode(x, v, ch.salt).None? then e.message == "serialization failed"
                      else c.decode(x, c.encode(x, v, ch.salt).value).None? && e.message == "deserialize result"))
  }

  lemma CombinedDecides(kind: CombinatorKind, done: O.Done, order: seq<nat>, text: Text)
    requires
      var j := O.Outcome(kind, done, order);
      !j.Waiting? && !j.Failure?
    ensures Decides(kind, done, order, Combined(O.Outcome(kind, done, order), text), text)
  {
    hide O.Outcome, CollectionOf, WinsWith;
    if O.Outcome(kind, done, order).Winner? { WinnerJoined(kind, done, order); }
    else { CollectionJoined(kind, done, order, text); }
  }

  /** A failed join gives the error of its failure. */
  lemma FailedGives(c: Codec, ch: Choice, x: Id, kind: CombinatorKind, done: O.Done)
    requires O.Outcome(kind, done, ch.order).Failure?
    ensures JoinGives(c, ch, x, kind, done, Err(F.LiveFailure(kind, O.Outcome(kind, done, ch.order).failure, x, c.text)))
  {
    FailureJoined(kind, done, ch.order, x, c.text);
    hide O.Outcome, F.LiveFailure, F.FailureWire, FailsWith, Decides;
  }

  /** A decided value gives what is read back of it, or an error when it is not encoded or does not decode. */
  lemma DecidedGives(c: Codec, ch: Choice, x: Id, kind: CombinatorKind, done: O.Done)
    requires
      var j := O.Outcome(kind, done, ch.order);
      !j.Waiting? && !j.Failure?
    ensures
      var p := c.encode(x, Combined(O.Outcome(kind, done, ch.order), c.text), ch.salt);
      JoinGives(c, ch, x, kind, done,
        if p.None? then Err(Unrecorded(CombinatorInternal, "serialization failed"))
        else Decoded(c, x, p.value, CombinatorInternal))
  {
    CombinedDecides(kind, done, ch.order, c.text);
    hide O.Outcome, Combined, Decides, FailsWith;
  }

  lemma FatalGives(c: Codec, ch: Choice, x: Id, kind: CombinatorKind, done: O.Done)
    requires ch.fatal.Some?
    ensures JoinGives(c, ch, x, kind, done, Err(Unrecorded(CombinatorInternal, ch.fatal.value)))
  {
    hide FailsWith, Decides;
  }

  lemma JoinSettledGives(c: Codec, ch: Choice, x: Id, kind: CombinatorKind, ins: Inputs, next: nat)
    ensures
      var r := JoinSettled(c, ch, x, kind, ins, next).result;
      r.Some? ==> JoinGives(c, ch, x, kind, ins.done, r.value)
  {
    var j := O.Outcome(kind, ins.done, ch.order);
    if j.Failure? { FailedGives(c, ch, x, kind, ins.done); }
    if !j.Waiting? && !j.Failure? { DecidedGives(c, ch, x, kind, ins.done); }
    if ch.fatal.Some? { FatalGives(c, ch, x, kind, ins.done); }
    hide O.Outcome, Combined, JoinAction, JoinRepeats, F.LiveFailure, Decoded, JoinGives;
  }

  /** A live combinator returns what its inputs make of it. */
  lemma CombinatorReturns(
      c: Codec, o: Oracle, log: Log, q: Id, n: nat, kind: CombinatorKind, inputs: seq<Op>, fuel: nat)
    requires !Settled(log, q + [n + Widths(inputs)])
    ensures
      var x := q + [n + Widths(inputs)];
      var r := RunOp(c, o, log, q, n, Combine(kind, inputs), fuel).result;
      r.Some? ==>
        fuel > 0 && JoinGives(c, o(x), x, kind, RunInputs(c, o, log, q, n, inputs, fuel - 1).done, r.value)
  {
    hide *;
    var at := n + Widths(inputs);
    NoFuel(c, o, log, q, n, Combine(kind, inputs));
    if fuel > 0 {
      if |inputs| > USIZE_MAX {
        TooManyInputs(c, o, log, q, n, kind, inputs, fuel);
      } else {
        LiveUnfolds(c, o, log, q, n, kind, inputs, fuel);
        JoinSettledGives(c, o(q + [at]), q + [at], kind, RunInputs(c, o, log, q, n, inputs, fuel - 1), at + 1);
      }
    }
  }

  /** With a serdes that reads back what it writes, a live combinator that succeeds returns the values of its
      inputs in their order, their outcomes in their order, or the value of the input that won. */
  lemma SuccessIsOfInputs(
      c: Codec, o: Oracle, log: Log, q: Id, n: nat, kind: CombinatorKind, inputs: seq<Op>, fuel: nat, v: Value)
    requires Faithful(c) && !Settled(log, q + [n + Widths(inputs)])
    requires RunOp(c, o, log, q, n, Combine(kind, inputs), fuel).result == Some(Ok(v))
    ensures
      && fuel > 0
      && Decides(kind, RunInputs(c, o, log, q, n, inputs, fuel - 1).done, o(q + [n + Widths(inputs)]).order, v, c.text)
  {
    hide *;
    var x := q + [n + Widths(inputs)];
    CombinatorReturns(c, o, log, q, n, kind, inputs, fuel);
    ReadIsDecided(c, o(x), x, kind, RunInputs(c, o, log, q, n, inputs, fuel - 1).done, v);
  }

  lemma ReadIsDecided(c: Codec, ch: Choice, x: Id, kind: CombinatorKind, done: O.Done, read: Value)
    requires Faithful(c) && JoinGives(c, ch, x, kind, done, Ok(read))
    ensures Decides(kind, done, ch.order, read, c.text)
  {
    hide Decides;
  }

  /** The other way round: once every input of a try_join_all has succeeded, and nothing interrupts the
      combinator, it returns their values. */
  lemma AllSucceedReturns(
      c: Codec, o: Oracle, log: Log, q: Id, n: nat, inputs: seq<Op>, fuel: nat, values: seq<Value>)
    requires Faithful(c) && 0 < fuel && |values| == |inputs| <= USIZE_MAX
    requires
      var x := q + [n + Widths(inputs)];
      !Settled(log, x) && o(x).start && o(x).end && o(x).fatal.None? && c.encode(x, Many(values), o(x).salt).Some?
    requires forall i | 0 <= i < |inputs| :: RunInputs(c, o, log, q, n, inputs, fuel - 1).done[i] == Some(Ok(values[i]))
    ensures RunOp(c, o, log, q, n, Combine(TryJoinAll, inputs), fuel).result == Some(Ok(Many(values)))
  {
    hide *;
    var at := n + Widths(inputs);
    LiveUnfolds(c, o, log, q, n, TryJoinAll, inputs, fuel);
    ValuesJoined(c, o(q + [at]), q + [at], RunInputs(c, o, log, q, n, inputs, fuel - 1), at + 1, values);
  }

  lemma ValuesJoined(c: Codec, ch: Choice, x: Id, ins: Inputs, next: nat, values: seq<Value>)
    requires Faithful(c) && ch.start && ch.end && ch.fatal.None? && c.encode(x, Many(values), ch.salt).Some?
    requires |values| == |ins.done| && forall i | 0 <= i < |ins.done| :: ins.done[i] == Some(Ok(values[i]))
    ensures JoinSettled(c, ch, x, TryJoinAll, ins, next).result == Some(Ok(Many(values)))
  {
    AllOkJoined(ins.done, ch.order, values);
    hide O.Outcome, JoinAction, JoinRepeats;
  }

  lemma AllOkJoined(done: O.Done, order: seq<nat>, values: seq<Value>)
    requires |values| == |done| && forall i | 0 <= i < |done| :: done[i] == Some(Ok(values[i]))
    ensures O.Outcome(TryJoinAll, done, order) == Values(values)
  {
    O.SettlesEnumerates(done, order);
    O.SlotsOfEnumeration(Settles(done, order), done);
    O.NoFirst(Settles(done, order), false);
    assert ValuesOf(done) == values;
  }
}
