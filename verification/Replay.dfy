/** A run that completed is replayed: a later run of the same operation on the records it left
    returns the same result, whatever its choices are, and writes nothing.
 */
module Replay {
  import opened Options
  import opened Records
  import opened Errors
  import opened Combinators
  import opened Handlers
  import opened Runs
  import opened Decimals
  import F = CombinatorFailures
  import O = SettleOrder

  /** The same result, from the later log, without a write. */
  function Replayed<R>(e: Exec<R>, later: Log): Exec<R> {
    Exec(e.result, later, [], e.next, true)
  }

  // ----- One layer -----

  lemma LeafReplays(c: Codec, source: LeafKind, ch: Choice, ch': Choice, log: Log, later: Log, x: Id, next: nat)
    requires RunLeaf(c, source, ch, log, x, next).result.Some?
    requires x in later && x in RunLeaf(c, source, ch, log, x, next).log
    requires later[x] == RunLeaf(c, source, ch, log, x, next).log[x]
    ensures RunLeaf(c, source, ch', later, x, next) == Replayed(RunLeaf(c, source, ch, log, x, next), later)
  {
  }

  lemma SameRoundTrip(c: Codec, x: Id, v: Value, payload: string, salt: nat, unserialized: OpErr, kind: ErrorKind)
    requires SameDecoded(c, x, v, payload)
    ensures RoundTrip(c, x, v, salt, unserialized, kind) == Decoded(c, x, payload, kind)
    ensures c.encode(x, v, salt).Some? && SameDecoded(c, x, v, c.encode(x, v, salt).value)
  {
  }

  /** Replaying the record of a live child gives what the live child returned. */
  lemma RecordReplaysChild(c: Codec, ch: Choice, x: Id, r: UserResult)
    ensures
      var a := ChildAction(c, ch, x, r);
      a.Fail? || (a.Succeed? && !a.replayChildren) ==>
        (ReplayChild(c, x, RecordOf(a)) == ChildResult(c, ch, x, r)
         <==> r.Good? || FailureWire(r.error, c.text).errorType != Some(SERIALIZATION_TYPE))
  {
    hide Oversized;
  }

  lemma ChildReplays(
      c: Codec, ch: Choice, ch': Choice, log: Log, later: Log, x: Id, b: Exec<UserResult>, b': Exec<UserResult>,
        next: nat)
    requires ChildRun(c, ch, log, x, b, next).result.Some? && ChildRun(c, ch, log, x, b, next).repeatable
    requires x in later && x in ChildRun(c, ch, log, x, b, next).log
    requires later[x] == ChildRun(c, ch, log, x, b, next).log[x]
    requires x in b.log <==> x in Begun(log, x)
    requires x in b.log ==> b.log[x] == Begun(log, x)[x]
    requires Closed(later, x) || b' == Replayed(b, later)
    ensures ChildRun(c, ch', later, x, b', next) == Replayed(ChildRun(c, ch, log, x, b, next), later)
  {
    hide Oversized;
    if !Settled(log, x) {
      RecordReplaysChild(c, ch, x, b.result.value);
    }
    if !Closed(later, x) && b.result.value.Good? {
      var v := b.result.value.value;
      var p := c.encode(x, v, ch.salt).value;
      SameRoundTrip(c, x, v, p, ch'.salt, SerializeError(), ChildInternal);
    }
  }

  /** Only an operation whose record asks for its children needs its body again. */
  lemma NotClosedRepeats(c: Codec, ch: Choice, log: Log, x: Id, b: Exec<UserResult>, next: nat)
    requires
      var e := ChildRun(c, ch, log, x, b, next);
      e.result.Some? && e.repeatable && x in e.log && !Closed(e.log, x)
    requires x in b.log <==> x in Begun(log, x)
    requires x in b.log ==> b.log[x] == Begun(log, x)[x]
    ensures b.result.Some? && b.repeatable
    ensures Settled(ChildRun(c, ch, log, x, b, next).log, x) && !Frees(ChildRun(c, ch, log, x, b, next).log, x)
  {
    hide Oversized, SameDecoded;
  }

  lemma ChildLog(c: Codec, ch: Choice, log: Log, x: Id, b: Exec<UserResult>, next: nat)
    requires ChildRun(c, ch, log, x, b, next).result.Some? && !Closed(log, x)
    ensures
      var after := ChildRun(c, ch, log, x, b, next).log;
      after == b.log || (x in after && after == b.log[x := after[x]])
  {
    hide Oversized, SameDecoded, ChildAction, ChildResult, ChildRepeats;
  }

  // ----- Combinators -----

  /** The same inputs, from the later log, without a write. */
  function ReplayedInputs(ins: Inputs, later: Log): Inputs {
    Inputs(ins.done, seq(|ins.done|, _ => true), later, [])
  }

  ghost predicate AllRepeat(ins: Inputs) {
    && (forall i | 0 <= i < |ins.done| :: ins.done[i].Some?)
    && (forall i | 0 <= i < |ins.repeatable| :: ins.repeatable[i])
  }

  /** Replaying the record of a live combinator gives what the live combinator returned. */
  lemma RecordReplaysCombinator(c: Codec, ch: Choice, x: Id, kind: CombinatorKind, done: O.Done, p: string)
    requires |done| <= USIZE_MAX && !O.Outcome(kind, done, ch.order).Waiting?
    ensures
      var j := O.Outcome(kind, done, ch.order);
      var a := JoinAction(c, ch, x, kind, j, p);
      a.Fail? || (a.Succeed? && !a.replayChildren) ==>
        ReplayCombinator(c, x, RecordOf(a)) == JoinResult(c, x, kind, j, p)
  {
    var j := O.Outcome(kind, done, ch.order);
    O.OutcomeIsTrue(kind, done, ch.order);
    hide Oversized, O.Outcome, F.FailureWire, F.LiveFailure, F.ReplayFailure;
    if j.Failure? { F.FailureRoundTrip(kind, j.failure, x, c.text); }
  }

  /** A collection does not depend on the order in which its inputs settle again. */
  lemma CollectionAgain(kind: CombinatorKind, done: O.Done, order: seq<nat>, order': seq<nat>)
    requires O.Outcome(kind, done, order).Values? || O.Outcome(kind, done, order).Results?
    ensures O.Outcome(kind, done, order') == O.Outcome(kind, done, order)
    ensures AllSettled(done)
  {
    O.OutcomeIsTrue(kind, done, order);
    hide O.Outcome;
    assert O.Part(done, done);
    if kind.TryJoinAll? { O.SuccessIsOrderFree(done); } else { O.JoinAllIsOrderFree(done); }
    OrderFreeAgain(kind, done, order, order');
  }

  lemma OrderFreeAgain(kind: CombinatorKind, done: O.Done, order: seq<nat>, order': seq<nat>)
    requires O.OrderFree(kind, done) && AllSettled(done) && O.Outcome(kind, done, order) != Waiting
    requires kind.TryJoinAll? ==> AllOk(done)
    requires kind.TryJoinAll? || kind.JoinAll?
    ensures O.Outcome(kind, done, order') == O.Outcome(kind, done, order)
  {
    O.OutcomeIsTrue(kind, done, order);
    O.SettlesEnumerates(done, order');
    O.SlotsOfEnumeration(Settles(done, order'), done);
    assert O.Outcome(kind, done, order') != Waiting;
    assert O.Part(done, done);
  }

  lemma CollectionReplays(
      c: Codec, ch: Choice, ch': Choice, x: Id, kind: CombinatorKind, ins: Inputs, later: Log, order: seq<nat>,
        payload: string, next: nat)
    requires AllRepeat(ins)
    requires O.Outcome(kind, ins.done, order).Values? || O.Outcome(kind, ins.done, order).Results?
    requires SameDecoded(c, x, Combined(O.Outcome(kind, ins.done, order), c.text), payload)
    ensures CollectionRebuilt(c, ch', x, kind, ReplayedInputs(ins, later), next)
         == Exec(Some(Decoded(c, x, payload, CombinatorInternal)), later, [], next, true)
  {
    CollectionAgain(kind, ins.done, order, ch'.order);
    SameRoundTrip(c, x, Combined(O.Outcome(kind, ins.done, order), c.text), payload, ch'.salt,
                  Unrecorded(CombinatorInternal, UNSERIALIZED), CombinatorInternal);
    hide O.Outcome, SameDecoded, Combined, Decoded;
  }

  lemma WinnerReplays(c: Codec, ch: Choice, x: Id, input: Exec<OpResult>, later: Log, payload: string, next: nat)
    requires input.result.Some? && input.result.value.Ok? && input.repeatable
    requires SameDecoded(c, x, input.result.value.value, payload)
    ensures WinnerRebuilt(c, ch, x, Replayed(input, later), next)
         == Exec(Some(Decoded(c, x, payload, CombinatorInternal)), later, [], next, true)
  {
    SameRoundTrip(c, x, input.result.value.value, payload, ch.salt, Unrecorded(CombinatorInternal, UNSERIALIZED),
      CombinatorInternal);
  }

  /** A live combinator that returned a recorded outcome, as its parts. */
  lemma JoinSettledParts(c: Codec, ch: Choice, x: Id, kind: CombinatorKind, ins: Inputs, next: nat) returns (p: string)
    requires
      var e := JoinSettled(c, ch, x, kind, ins, next);
      e.result.Some? && e.repeatable
    ensures !O.Outcome(kind, ins.done, ch.order).Waiting?
    ensures
      var e := JoinSettled(c, ch, x, kind, ins, next);
      var j := O.Outcome(kind, ins.done, ch.order);
      var a := JoinAction(c, ch, x, kind, j, p);
      && e.result == Some(JoinResult(c, x, kind, j, p))
      && x in e.log && e.log[x] == RecordOf(a) && e.log == ins.log[x := RecordOf(a)]
      && JoinRepeats(c, x, j, p, a, ins.repeatable)
  {
    var j := O.Outcome(kind, ins.done, ch.order);
    hide O.Outcome, Combined, JoinResult, JoinRepeats;
    p := if j.Failure? then "" else c.encode(x, Combined(j, c.text), ch.salt).value;
  }

  // ----- Whole runs -----

  /** The run of an operation that completed, and that its records determine, is replayed from any
      later log that keeps them. */
  lemma {:induction false} OpReplays(
      c: Codec, o: Oracle, log: Log, q: Id, n: nat, op: Op, fuel: nat, o': Oracle, later: Log, fuel': nat)
    requires fuel <= fuel'
    requires RunOp(c, o, log, q, n, op, fuel).result.Some? && RunOp(c, o, log, q, n, op, fuel).repeatable
    requires Keeps(RunOp(c, o, log, q, n, op, fuel).log, later, q, n, n + Width(op))
    ensures RunOp(c, o', later, q, n, op, fuel') == Replayed(RunOp(c, o, log, q, n, op, fuel), later)
    decreases fuel, 2
  {
    hide *;
    WidthFacts(op);
    match op
    case Leaf(source) => LeafOpReplays(c, source, o, log, q, n, fuel, o', later, fuel');
    case Child(body) => ChildOpReplays(c, o, log, q, n, body, fuel, o', later, fuel');
    case Combine(kind, inputs) => CombineOpReplays(c, o, log, q, n, kind, inputs, fuel, o', later, fuel');
  }

  lemma {:induction false} LeafOpReplays(
      c: Codec, source: LeafKind, o: Oracle, log: Log, q: Id, n: nat, fuel: nat, o': Oracle, later: Log, fuel': nat)
    requires fuel <= fuel'
    requires RunOp(c, o, log, q, n, Leaf(source), fuel).result.Some?
    requires Keeps(RunOp(c, o, log, q, n, Leaf(source), fuel).log, later, q, n, n + 1)
    ensures RunOp(c, o', later, q, n, Leaf(source), fuel')
         == Replayed(RunOp(c, o, log, q, n, Leaf(source), fuel), later)
  {
    hide *;
    var x := q + [n];
    var e := RunLeaf(c, source, o(x), log, x, n + 1);
    FuelLeft(c, o, log, q, n, Leaf(source), fuel);
    LeafUnfolds(c, source, o, log, q, n, fuel);
    LeafUnfolds(c, source, o', later, q, n, fuel');
    LeafSettles(c, source, o(x), log, x, n + 1);
    RecordFacts(e.log, later, x);
    KeepsOwn(e.log, later, q, n, n, n + 1);
    LeafReplays(c, source, o(x), o'(x), log, later, x, n + 1);
  }

  lemma LeafSettles(c: Codec, source: LeafKind, ch: Choice, log: Log, x: Id, next: nat)
    requires RunLeaf(c, source, ch, log, x, next).result.Some?
    ensures Settled(RunLeaf(c, source, ch, log, x, next).log, x)
  {
  }

  // Facts for the proofs below, which see no definition.

  lemma RecordFacts(log: Log, later: Log, x: Id)
    ensures Settled(log, x) ==> x in log && Terminal(log[x].status)
    ensures Closed(log, x) ==> Settled(log, x)
    ensures x in log ==> Begun(log, x) == log
    ensures x in log && x in later && log[x] == later[x] ==>
      (Settled(log, x) <==> Settled(later, x)) && (Closed(log, x) <==> Closed(later, x))
  {
  }

  lemma ReplayedFacts<R>(e: Exec<R>, later: Log)
    ensures Replayed(e, later) == Exec(e.result, later, [], e.next, true)
  {
  }

  lemma WinnerFacts(log: Log, x: Id, kind: CombinatorKind)
    ensures DrivesWinner(log, x, kind) ==> Settled(log, x) && !Closed(log, x)
    ensures Settled(log, x) && !Closed(log, x) && !DrivesWinner(log, x, kind) ==> kind.TryJoinAll? || kind.JoinAll?
  {
  }

  lemma {:induction false} FuelLeft(c: Codec, o: Oracle, log: Log, q: Id, n: nat, op: Op, fuel: nat)
    requires RunOp(c, o, log, q, n, op, fuel).result.Some?
    ensures fuel > 0 && (op.Combine? ==> |op.inputs| <= USIZE_MAX)
  {
    hide RunProg, RunInputs, CombineRun, ChildRun, RunLeaf, WinnerRebuilt, NoWinner;
  }

  lemma {:induction false} ChildOpReplays(
      c: Codec, o: Oracle, log: Log, q: Id, n: nat, body: Prog, fuel: nat, o': Oracle, later: Log, fuel': nat)
    requires fuel <= fuel'
    requires RunOp(c, o, log, q, n, Child(body), fuel).result.Some?
    requires RunOp(c, o, log, q, n, Child(body), fuel).repeatable
    requires Keeps(RunOp(c, o, log, q, n, Child(body), fuel).log, later, q, n, n + 1)
    ensures RunOp(c, o', later, q, n, Child(body), fuel') == Replayed(RunOp(c, o, log, q, n, Child(body), fuel), later)
    decreases fuel, 1
  {
    hide *;
    var x := q + [n];
    FuelLeft(c, o, log, q, n, Child(body), fuel);
    ChildUnfolds(c, o, log, q, n, body, fuel);
    ChildUnfolds(c, o', later, q, n, body, fuel');
    var b := RunProg(c, o, Begun(log, x), x, 1, body, fuel - 1);
    var b' := RunProg(c, o', Begun(later, x), x, 1, body, fuel' - 1);
    var e := ChildRun(c, o(x), log, x, b, n + 1);
    ProgFrame(c, o, Begun(log, x), x, 1, body, fuel - 1);
    OwnUntouched(Begun(log, x), b.log, x, b.next);
    ChildSettles(c, o(x), log, x, b, n + 1);
    RecordFacts(e.log, later, x);
    KeepsOwn(e.log, later, q, n, n, n + 1);
    RecordFacts(later, e.log, x);
    if !Closed(later, x) {
      NotClosedRepeats(c, o(x), log, x, b, n + 1);
      ClosedBefore(c, o(x), log, x, b, n + 1);
      KeepsChildren(e.log, later, q, n, n, n + 1, b.next);
      ChildLog(c, o(x), log, x, b, n + 1);
      BodyAgrees(b.log, e.log, x, b.next);
      KeepsPart(e.log, later, x, 0, b.next, 1, b.next);
      KeepsFrame(b.log, e.log, later, x, 1, b.next);
      ProgReplays(c, o, Begun(log, x), x, 1, body, fuel - 1, o', later, fuel' - 1);
    }
    ChildReplays(c, o(x), o'(x), log, later, x, b, b', n + 1);
  }

  lemma ClosedBefore(c: Codec, ch: Choice, log: Log, x: Id, b: Exec<UserResult>, next: nat)
    requires !Closed(ChildRun(c, ch, log, x, b, next).log, x)
    ensures !Closed(log, x)
  {
  }

  /** A child that returned has an outcome record. */
  lemma ChildSettles(c: Codec, ch: Choice, log: Log, x: Id, b: Exec<UserResult>, next: nat)
    requires ChildRun(c, ch, log, x, b, next).result.Some?
    requires x in b.log <==> x in Begun(log, x)
    requires x in b.log ==> b.log[x] == Begun(log, x)[x]
    ensures Settled(ChildRun(c, ch, log, x, b, next).log, x)
  {
    hide Oversized, SameDecoded, ChildResult, ChildRepeats;
  }

  lemma BodyAgrees(a: Log, b: Log, x: Id, hi: nat)
    requires b == a || (x in b && b == a[x := b[x]])
    ensures Agree(a, b, x, 1, hi)
  {
    assert !Within(x, x, 1, hi);
  }

  lemma {:induction false} CombineOpReplays(
      c: Codec, o: Oracle, log: Log, q: Id, n: nat, kind: CombinatorKind, inputs: seq<Op>, fuel: nat,
      o': Oracle, later: Log, fuel': nat)
    requires fuel <= fuel'
    requires
      var e := RunOp(c, o, log, q, n, Combine(kind, inputs), fuel);
      e.result.Some? && e.repeatable && Keeps(e.log, later, q, n, n + Widths(inputs) + 1)
    ensures RunOp(c, o', later, q, n, Combine(kind, inputs), fuel')
         == Replayed(RunOp(c, o, log, q, n, Combine(kind, inputs), fuel), later)
    decreases fuel, 1
  {
    hide *;
    var at := n + Widths(inputs);
    var x := q + [at];
    FuelLeft(c, o, log, q, n, Combine(kind, inputs), fuel);
    CombineUnfolds(c, o, log, q, n, kind, inputs, fuel);
    CombineUnfolds(c, o', later, q, n, kind, inputs, fuel');
    var winner := WinnerDriven(log, x, kind, inputs);
    if winner.Some? {
      WinnerAgain(c, o, log, q, n, kind, inputs, fuel, winner.value, o', later, fuel');
    } else if DrivesWinner(log, x, kind) {
      WinnerFacts(log, x, kind);
      RecordFacts(log, later, x);
      NoWinnerFacts(log, later, WinnerOf(log[x]), |inputs|, at + 1);
      KeepsOwn(log, later, q, at, n, at + 1);
      NoWinnerAgain(log, later, x, kind, inputs);
    } else {
      AllDriven(c, o, log, q, n, kind, inputs, fuel, o', later, fuel');
    }
  }

  lemma NoWinnerFacts(log: Log, later: Log, winner: Option<nat>, count: nat, next: nat)
    ensures NoWinner(log, winner, count, next).log == log
    ensures NoWinner(later, winner, count, next) == Replayed(NoWinner(log, winner, count, next), later)
  {
  }

  lemma NoWinnerAgain(log: Log, later: Log, x: Id, kind: CombinatorKind, inputs: seq<Op>)
    requires DrivesWinner(log, x, kind) && WinnerDriven(log, x, kind, inputs).None? && x in later && later[x] == log[x]
    ensures DrivesWinner(later, x, kind) && WinnerDriven(later, x, kind, inputs).None?
    ensures WinnerOf(later[x]) == WinnerOf(log[x])
  {
  }

  /** The recorded winner that a rebuilt combinator drove replays as before. */
  lemma {:induction false} WinnerAgain(
      c: Codec, o: Oracle, log: Log, q: Id, n: nat, kind: CombinatorKind, inputs: seq<Op>, fuel: nat, winner: nat,
      o': Oracle, later: Log, fuel': nat)
    requires 0 < fuel <= fuel' && |inputs| <= USIZE_MAX && winner < |inputs|
    requires WinnerDriven(log, q + [n + Widths(inputs)], kind, inputs) == Some(winner)
    requires
      var e := RunOp(c, o, log, q, n, Combine(kind, inputs), fuel);
      e.result.Some? && e.repeatable && Keeps(e.log, later, q, n, n + Widths(inputs) + 1)
    ensures RunOp(c, o', later, q, n, Combine(kind, inputs), fuel')
         == Replayed(RunOp(c, o, log, q, n, Combine(kind, inputs), fuel), later)
    decreases fuel - 1, 3
  {
    hide *;
    var at := n + Widths(inputs);
    var x := q + [at];
    var from := n + Widths(inputs[..winner]);
    CombineUnfolds(c, o, log, q, n, kind, inputs, fuel);
    CombineUnfolds(c, o', later, q, n, kind, inputs, fuel');
    WinnerFacts(log, x, kind);
    RecordFacts(log, later, x);
    var e := RunOp(c, o, log, q, from, inputs[winner], fuel - 1);
    OffsetInside(inputs, winner);
    OpFrame(c, o, log, q, from, inputs[winner], fuel - 1);
    WinnerParts(c, o(x), x, e, at + 1);
    PositionUntouched(log, e.log, q, from, e.next, at);
    ReplayedFacts(e, later);
    KeepsOwn(e.log, later, q, at, n, at + 1);
    KeepsPart(e.log, later, q, n, at + 1, from, e.next);
    OpReplays(c, o, log, q, from, inputs[winner], fuel - 1, o', later, fuel' - 1);
    SameWinner(log, later, x, kind, inputs);
    WinnerRebuiltAgain(c, o(x), o'(x), x, e, later, at + 1);
  }

  lemma SameWinner(log: Log, later: Log, x: Id, kind: CombinatorKind, inputs: seq<Op>)
    requires x in log && x in later && later[x] == log[x]
    ensures WinnerDriven(later, x, kind, inputs) == WinnerDriven(log, x, kind, inputs)
  {
  }

  lemma WinnerParts(c: Codec, ch: Choice, x: Id, input: Exec<OpResult>, next: nat)
    ensures
      var e := WinnerRebuilt(c, ch, x, input, next);
      e.log == input.log && (e.result.Some? && e.repeatable ==> input.result.Some? && input.repeatable)
  {
    hide SameDecoded;
  }

  lemma WinnerRebuiltAgain(c: Codec, ch: Choice, ch': Choice, x: Id, input: Exec<OpResult>, later: Log, next: nat)
    requires WinnerRebuilt(c, ch, x, input, next).result.Some? && WinnerRebuilt(c, ch, x, input, next).repeatable
    ensures WinnerRebuilt(c, ch', x, Replayed(input, later), next)
         == Replayed(WinnerRebuilt(c, ch, x, input, next), later)
  {
    if input.result.value.Ok? {
      var v := input.result.value.value;
      WinnerReplays(c, ch', x, input, later, c.encode(x, v, ch.salt).value, next);
    }
  }

  /** A combinator that drove all its inputs, or none, replays as before. */
  lemma {:induction false} AllDriven(
      c: Codec, o: Oracle, log: Log, q: Id, n: nat, kind: CombinatorKind, inputs: seq<Op>, fuel: nat,
      o': Oracle, later: Log, fuel': nat)
    requires 0 < fuel <= fuel' && |inputs| <= USIZE_MAX
    requires !DrivesWinner(log, q + [n + Widths(inputs)], kind)
    requires
      var e := RunOp(c, o, log, q, n, Combine(kind, inputs), fuel);
      e.result.Some? && e.repeatable && Keeps(e.log, later, q, n, n + Widths(inputs) + 1)
    ensures RunOp(c, o', later, q, n, Combine(kind, inputs), fuel')
         == Replayed(RunOp(c, o, log, q, n, Combine(kind, inputs), fuel), later)
    decreases fuel - 1, 5
  {
    hide *;
    var at := n + Widths(inputs);
    var x := q + [at];
    CombineUnfolds(c, o, log, q, n, kind, inputs, fuel);
    CombineUnfolds(c, o', later, q, n, kind, inputs, fuel');
    var ins := RunInputs(c, o, log, q, n, inputs, fuel - 1);
    var ins' := RunInputs(c, o', later, q, n, inputs, fuel' - 1);
    NotDriven(log, x, kind, inputs);
    RecordFacts(log, later, x);
    if Closed(log, x) {
      ClosedRun(c, o(x), log, x, kind, ins, inputs, at + 1);
      KeepsOwn(log, later, q, at, n, at + 1);
      ClosedRun(c, o'(x), later, x, kind, ins', inputs, at + 1);
      ReplayedFacts(CombineRun(c, o(x), log, x, kind, ins, at + 1), later);
    } else if Settled(log, x) {
      WinnerFacts(log, x, kind);
      OpenRun(c, o(x), log, x, kind, ins, inputs, at + 1);
      RebuiltAgain(c, o, log, q, n, kind, inputs, fuel, o', later, fuel');
      OpenRun(c, o'(x), later, x, kind, ins', inputs, at + 1);
    } else {
      LiveRun(c, o(x), log, x, kind, ins, at + 1);
      JoinAgain(c, o, log, q, n, kind, inputs, fuel, o', later, fuel');
    }
  }

  lemma LiveRun(c: Codec, ch: Choice, log: Log, x: Id, kind: CombinatorKind, ins: Inputs, next: nat)
    requires !Settled(log, x)
    ensures CombineRun(c, ch, log, x, kind, ins, next) == JoinSettled(c, ch, x, kind, ins, next)
  {
    hide JoinSettled;
  }

  lemma {:induction false} RebuiltAgain(
      c: Codec, o: Oracle, log: Log, q: Id, n: nat, kind: CombinatorKind, inputs: seq<Op>, fuel: nat,
      o': Oracle, later: Log, fuel': nat)
    requires 0 < fuel <= fuel' && (kind.TryJoinAll? || kind.JoinAll?)
    requires Settled(log, q + [n + Widths(inputs)]) && !Closed(log, q + [n + Widths(inputs)])
    requires
      var x := q + [n + Widths(inputs)];
      var e := CollectionRebuilt(c, o(x), x, kind, RunInputs(c, o, log, q, n, inputs, fuel - 1),
        n + Widths(inputs) + 1);
      e.result.Some? && e.repeatable && Keeps(e.log, later, q, n, n + Widths(inputs) + 1)
    ensures
      var x := q + [n + Widths(inputs)];
      && Settled(later, x) && !Closed(later, x)
      && CollectionRebuilt(c, o'(x), x, kind, RunInputs(c, o', later, q, n, inputs, fuel' - 1), n + Widths(inputs) + 1)
         == Replayed(CollectionRebuilt(c, o(x), x, kind, RunInputs(c, o, log, q, n, inputs, fuel - 1),
           n + Widths(inputs) + 1), later)
    decreases fuel - 1, 4
  {
    hide *;
    var at := n + Widths(inputs);
    var x := q + [at];
    var ins := RunInputs(c, o, log, q, n, inputs, fuel - 1);
    InputsFrame(c, o, log, q, n, inputs, fuel - 1);
    PositionUntouched(log, ins.log, q, n, at, at);
    var p := RebuiltParts(c, o(x), x, kind, ins, at + 1);
    RecordFacts(log, later, x);
    RecordFacts(ins.log, later, x);
    ReplayedFacts(CollectionRebuilt(c, o(x), x, kind, ins, at + 1), later);
    KeepsOwn(ins.log, later, q, at, n, at + 1);
    KeepsPart(ins.log, later, q, n, at + 1, n, at);
    InputsReplay(c, o, log, q, n, inputs, fuel - 1, o', later, fuel' - 1);
    CollectionReplays(c, o(x), o'(x), x, kind, ins, later, o(x).order, p, at + 1);
  }

  lemma RebuiltParts(c: Codec, ch: Choice, x: Id, kind: CombinatorKind, ins: Inputs, next: nat) returns (p: string)
    requires |ins.done| == |ins.repeatable|
    requires CollectionRebuilt(c, ch, x, kind, ins, next).result.Some?
    requires CollectionRebuilt(c, ch, x, kind, ins, next).repeatable
    requires kind.TryJoinAll? || kind.JoinAll?
    ensures AllRepeat(ins)
    ensures O.Outcome(kind, ins.done, ch.order).Values? || O.Outcome(kind, ins.done, ch.order).Results?
    ensures SameDecoded(c, x, Combined(O.Outcome(kind, ins.done, ch.order), c.text), p)
    ensures CollectionRebuilt(c, ch, x, kind, ins, next)
         == Exec(Some(Decoded(c, x, p, CombinatorInternal)), ins.log, ins.writes, next, true)
  {
    var j := O.Outcome(kind, ins.done, ch.order);
    O.OutcomeIsTrue(kind, ins.done, ch.order);
    hide O.Outcome, SameDecoded;
    p := c.encode(x, Combined(j, c.text), ch.salt).value;
  }

  /** A live combinator that recorded its outcome is replayed from the record: from what it stores,
      from the recorded winner, or from all its inputs. */
  lemma {:induction false} JoinAgain(
      c: Codec, o: Oracle, log: Log, q: Id, n: nat, kind: CombinatorKind, inputs: seq<Op>, fuel: nat,
      o': Oracle, later: Log, fuel': nat)
    requires 0 < fuel <= fuel' && |inputs| <= USIZE_MAX
    requires
      var x := q + [n + Widths(inputs)];
      var e := JoinSettled(c, o(x), x, kind, RunInputs(c, o, log, q, n, inputs, fuel - 1), n + Widths(inputs) + 1);
      e.result.Some? && e.repeatable && Keeps(e.log, later, q, n, n + Widths(inputs) + 1)
    ensures
      var x := q + [n + Widths(inputs)];
      RunOp(c, o', later, q, n, Combine(kind, inputs), fuel')
      == Replayed(JoinSettled(c, o(x), x, kind, RunInputs(c, o, log, q, n, inputs, fuel - 1), n + Widths(inputs) + 1),
        later)
    decreases fuel - 1, 4
  {
    hide *;
    var at := n + Widths(inputs);
    var x := q + [at];
    var ins := RunInputs(c, o, log, q, n, inputs, fuel - 1);
    var e := JoinSettled(c, o(x), x, kind, ins, at + 1);
    var j := O.Outcome(kind, ins.done, o(x).order);
    JoinNext(c, o(x), x, kind, ins, at + 1);
    var p := JoinSettledParts(c, o(x), x, kind, ins, at + 1);
    var a := JoinAction(c, o(x), x, kind, j, p);
    ActionKind(c, o(x), x, kind, j, p, e.log);
    RecordFacts(e.log, later, x);
    ReplayedFacts(e, later);
    KeepsOwn(e.log, later, q, at, n, at + 1);
    CombineUnfolds(c, o', later, q, n, kind, inputs, fuel');
    if Closed(later, x) {
      RecordReplaysCombinator(c, o(x), x, kind, ins.done, p);
      ClosedRun(c, o'(x), later, x, kind, RunInputs(c, o', later, q, n, inputs, fuel' - 1), inputs, at + 1);
    } else {
      OwnBeyond(ins.log, e.log, q, n, at);
      KeepsPart(e.log, later, q, n, at + 1, n, at);
      KeepsFrame(ins.log, e.log, later, q, n, at);
      if j.Winner? {
        WinnerFound(c, o(x), later, x, kind, ins, j, p, inputs);
        InputReplays(c, o, log, q, n, inputs, fuel - 1, j.index, o', later, fuel' - 1);
        ReplayedFacts(RunOp(c, o', later, q, n + Widths(inputs[..j.index]), inputs[j.index], fuel' - 1), later);
        var input := RunOp(c, o', later, q, n + Widths(inputs[..j.index]), inputs[j.index], fuel' - 1);
        WinnerReplays(c, o'(x), x, input, later, p, at + 1);
      } else {
        CollectionFound(c, o(x), later, x, kind, ins, j, p);
        InputsReplay(c, o, log, q, n, inputs, fuel - 1, o', later, fuel' - 1);
        CollectionReplays(c, o(x), o'(x), x, kind, ins, later, o(x).order, p, at + 1);
        OpenRun(c, o'(x), later, x, kind, ReplayedInputs(ins, later), inputs, at + 1);
        assert RunInputs(c, o', later, q, n, inputs, fuel' - 1) == ReplayedInputs(ins, later);
      }
    }
  }

  lemma JoinNext(c: Codec, ch: Choice, x: Id, kind: CombinatorKind, ins: Inputs, next: nat)
    ensures JoinSettled(c, ch, x, kind, ins, next).next == next
  {
    hide O.Outcome, JoinAction, JoinResult, JoinRepeats, Combined;
  }

  lemma ActionKind(c: Codec, ch: Choice, x: Id, kind: CombinatorKind, j: Joined, p: string, log: Log)
    requires !j.Waiting? && x in log && log[x] == RecordOf(JoinAction(c, ch, x, kind, j, p))
    ensures Settled(log, x)
    ensures Closed(log, x) ==>
      var a := JoinAction(c, ch, x, kind, j, p);
      a.Fail? || (a.Succeed? && !a.replayChildren)
  {
    hide F.FailureWire;
  }

  lemma OpenRun(c: Codec, ch: Choice, log: Log, x: Id, kind: CombinatorKind, ins: Inputs, inputs: seq<Op>, next: nat)
    requires Settled(log, x) && !Closed(log, x) && (kind.TryJoinAll? || kind.JoinAll?)
    ensures WinnerDriven(log, x, kind, inputs).None? && !DrivesWinner(log, x, kind)
    ensures CombineRun(c, ch, log, x, kind, ins, next) == CollectionRebuilt(c, ch, x, kind, ins, next)
  {
    hide CollectionRebuilt;
  }

  /** A flagged record of a race or a select_ok names the winner, which is an input in range. */
  lemma WinnerFound(
      c: Codec, ch: Choice, log: Log, x: Id, kind: CombinatorKind, ins: Inputs, j: Joined, p: string, inputs: seq<Op>)
    requires j == O.Outcome(kind, ins.done, ch.order) && j.Winner?
    requires |ins.done| == |ins.repeatable| == |inputs| <= USIZE_MAX
    requires x in log && log[x] == RecordOf(JoinAction(c, ch, x, kind, j, p)) && !Closed(log, x)
    ensures WinnerDriven(log, x, kind, inputs) == Some(j.index) && j.index < |inputs|
    ensures ins.done[j.index] == Some(Ok(j.value))
    ensures JoinResult(c, x, kind, j, p) == Decoded(c, x, p, CombinatorInternal)
    ensures JoinRepeats(c, x, j, p, JoinAction(c, ch, x, kind, j, p), ins.repeatable) <==>
            ins.repeatable[j.index] && SameDecoded(c, x, j.value, p)
  {
    O.OutcomeIsTrue(kind, ins.done, ch.order);
    F.WinnerRoundTrip(j.index);
    hide O.Outcome, F.ParseWinner, F.WinnerRecord, SameDecoded;
  }

  lemma CollectionFound(c: Codec, ch: Choice, log: Log, x: Id, kind: CombinatorKind, ins: Inputs, j: Joined, p: string)
    requires j == O.Outcome(kind, ins.done, ch.order) && !j.Waiting? && !j.Winner? && |ins.done| == |ins.repeatable|
    requires x in log && log[x] == RecordOf(JoinAction(c, ch, x, kind, j, p)) && !Closed(log, x)
    requires JoinRepeats(c, x, j, p, JoinAction(c, ch, x, kind, j, p), ins.repeatable)
    ensures (j.Values? || j.Results?) && (kind.TryJoinAll? || kind.JoinAll?) && AllRepeat(ins)
    ensures SameDecoded(c, x, Combined(j, c.text), p)
    ensures JoinResult(c, x, kind, j, p) == Decoded(c, x, p, CombinatorInternal)
  {
    O.OutcomeIsTrue(kind, ins.done, ch.order);
    hide O.Outcome, SameDecoded, F.FailureWire, Decoded;
  }

  /** One input that completed, and that its records determine, is replayed on its own. */
  lemma {:induction false} InputReplays(
      c: Codec, o: Oracle, log: Log, q: Id, n: nat, inputs: seq<Op>, fuel: nat, i: nat, o': Oracle, later: Log,
        fuel': nat)
    requires fuel <= fuel' && i < |inputs|
    requires
      var ins := RunInputs(c, o, log, q, n, inputs, fuel);
      ins.done[i].Some? && ins.repeatable[i] && Keeps(ins.log, later, q, n, n + Widths(inputs))
    ensures
      var from := n + Widths(inputs[..i]);
      RunOp(c, o', later, q, from, inputs[i], fuel')
      == Exec(RunInputs(c, o, log, q, n, inputs, fuel).done[i], later, [], from + Width(inputs[i]), true)
    decreases fuel, 3, |inputs|
  {
    hide *;
    var e := RunOp(c, o, log, q, n, inputs[0], fuel);
    var rest := RunInputs(c, o, e.log, q, e.next, inputs[1..], fuel);
    InputsUnfold(c, o, log, q, n, inputs, fuel);
    WidthsStep(inputs, i);
    if i == 0 {
      FirstKept(c, o, log, q, n, inputs, fuel, later);
      OpReplays(c, o, log, q, n, inputs[0], fuel, o', later, fuel');
      ReplayedFacts(e, later);
    } else {
      KeepsPart(rest.log, later, q, n, n + Widths(inputs), e.next, n + Widths(inputs));
      InputReplays(c, o, e.log, q, e.next, inputs[1..], fuel, i - 1, o', later, fuel');
    }
  }

  /** The records of the first input are kept when those of all inputs are. */
  lemma {:induction false} FirstKept(
      c: Codec, o: Oracle, log: Log, q: Id, n: nat, inputs: seq<Op>, fuel: nat, later: Log)
    requires inputs != [] && Keeps(RunInputs(c, o, log, q, n, inputs, fuel).log, later, q, n, n + Widths(inputs))
    ensures Keeps(RunOp(c, o, log, q, n, inputs[0], fuel).log, later, q, n, n + Width(inputs[0]))
  {
    hide *;
    var e := RunOp(c, o, log, q, n, inputs[0], fuel);
    var rest := RunInputs(c, o, e.log, q, e.next, inputs[1..], fuel);
    InputsUnfold(c, o, log, q, n, inputs, fuel);
    WidthsStep(inputs, 0);
    InputsFrame(c, o, e.log, q, e.next, inputs[1..], fuel);
    OutsideAgrees(e.log, rest.log, q, e.next, n + Widths(inputs), n, e.next);
    KeepsPart(rest.log, later, q, n, n + Widths(inputs), n, e.next);
    KeepsFrame(e.log, rest.log, later, q, n, e.next);
  }

  lemma {:induction false} InputsReplay(
      c: Codec, o: Oracle, log: Log, q: Id, n: nat, inputs: seq<Op>, fuel: nat, o': Oracle, later: Log, fuel': nat)
    requires fuel <= fuel'
    requires AllRepeat(RunInputs(c, o, log, q, n, inputs, fuel))
    requires Keeps(RunInputs(c, o, log, q, n, inputs, fuel).log, later, q, n, n + Widths(inputs))
    ensures RunInputs(c, o', later, q, n, inputs, fuel')
         == ReplayedInputs(RunInputs(c, o, log, q, n, inputs, fuel), later)
    decreases fuel, 3, |inputs|, 1
  {
    if inputs != [] { InputsConsReplay(c, o, log, q, n, inputs, fuel, o', later, fuel'); }
  }

  lemma {:induction false} InputsConsReplay(
      c: Codec, o: Oracle, log: Log, q: Id, n: nat, inputs: seq<Op>, fuel: nat, o': Oracle, later: Log, fuel': nat)
    requires fuel <= fuel' && inputs != []
    requires AllRepeat(RunInputs(c, o, log, q, n, inputs, fuel))
    requires Keeps(RunInputs(c, o, log, q, n, inputs, fuel).log, later, q, n, n + Widths(inputs))
    ensures RunInputs(c, o', later, q, n, inputs, fuel')
         == ReplayedInputs(RunInputs(c, o, log, q, n, inputs, fuel), later)
    decreases fuel, 3, |inputs|, 0
  {
    hide *;
    var e := RunOp(c, o, log, q, n, inputs[0], fuel);
    var rest := RunInputs(c, o, e.log, q, e.next, inputs[1..], fuel);
    var ins := RunInputs(c, o, log, q, n, inputs, fuel);
    InputsUnfold(c, o, log, q, n, inputs, fuel);
    InputsUnfold(c, o', later, q, n, inputs, fuel');
    WidthsStep(inputs, 0);
    RestRepeats(e, rest, ins);
    FirstKept(c, o, log, q, n, inputs, fuel, later);
    OpReplays(c, o, log, q, n, inputs[0], fuel, o', later, fuel');
    ReplayedFacts(e, later);
    KeepsPart(rest.log, later, q, n, n + Widths(inputs), e.next, n + Widths(inputs));
    InputsReplay(c, o, e.log, q, e.next, inputs[1..], fuel, o', later, fuel');
    ReplayedCons(e, rest, ins, later);
  }

  lemma ReplayedCons(e: Exec<OpResult>, rest: Inputs, ins: Inputs, later: Log)
    requires ins.done == [e.result] + rest.done
    ensures Inputs([e.result] + ReplayedInputs(rest, later).done, [true] + ReplayedInputs(rest, later).repeatable,
      later, [] + [])
         == ReplayedInputs(ins, later)
    ensures ReplayedInputs(rest, later).writes == [] && ReplayedInputs(rest, later).log == later
  {
  }

  lemma RestRepeats(e: Exec<OpResult>, rest: Inputs, ins: Inputs)
    requires AllRepeat(ins)
    requires ins.done == [e.result] + rest.done && ins.repeatable == [e.repeatable] + rest.repeatable
    ensures AllRepeat(rest) && e.result.Some? && e.repeatable
  {
    assert ins.done[0] == e.result && ins.repeatable[0] == e.repeatable;
    forall i | 0 <= i < |rest.done| ensures rest.done[i].Some? { assert rest.done[i] == ins.done[i + 1]; }
    forall i | 0 <= i < |rest.repeatable| ensures rest.repeatable[i] {
      assert rest.repeatable[i] == ins.repeatable[i + 1];
    }
  }

  /** The run of a handler, or of a body, that completed is replayed: the same result, no write. */
  lemma {:induction false} ProgReplays(
      c: Codec, o: Oracle, log: Log, q: Id, n: nat, p: Prog, fuel: nat, o': Oracle, later: Log, fuel': nat)
    requires fuel <= fuel'
    requires RunProg(c, o, log, q, n, p, fuel).result.Some? && RunProg(c, o, log, q, n, p, fuel).repeatable
    requires Keeps(RunProg(c, o, log, q, n, p, fuel).log, later, q, n, RunProg(c, o, log, q, n, p, fuel).next)
    ensures RunProg(c, o', later, q, n, p, fuel') == Replayed(RunProg(c, o, log, q, n, p, fuel), later)
    decreases fuel, 0
  {
    if p.Do? { DoReplays(c, o, log, q, n, p, fuel, o', later, fuel'); }
  }

  lemma {:induction false} DoReplays(
      c: Codec, o: Oracle, log: Log, q: Id, n: nat, p: Prog, fuel: nat, o': Oracle, later: Log, fuel': nat)
    requires fuel <= fuel' && p.Do?
    requires RunProg(c, o, log, q, n, p, fuel).result.Some? && RunProg(c, o, log, q, n, p, fuel).repeatable
    requires Keeps(RunProg(c, o, log, q, n, p, fuel).log, later, q, n, RunProg(c, o, log, q, n, p, fuel).next)
    ensures RunProg(c, o', later, q, n, p, fuel') == Replayed(RunProg(c, o, log, q, n, p, fuel), later)
    decreases fuel - 1, 5
  {
    hide *;
    DoFuel(c, o, log, q, n, p, fuel);
    DoUnfolds(c, o, log, q, n, p, fuel);
    DoUnfolds(c, o', later, q, n, p, fuel');
    var e := RunOp(c, o, log, q, n, p.op, fuel - 1);
    var k := p.k(e.result.value);
    var rest := RunProg(c, o, e.log, q, e.next, k, fuel - 1);
    ThenReplays(e, rest, later);
    ProgFrame(c, o, e.log, q, e.next, k, fuel - 1);
    OutsideAgrees(e.log, rest.log, q, e.next, rest.next, n, e.next);
    KeepsPart(rest.log, later, q, n, rest.next, n, e.next);
    KeepsFrame(e.log, rest.log, later, q, n, e.next);
    OpReplays(c, o, log, q, n, p.op, fuel - 1, o', later, fuel' - 1);
    KeepsPart(rest.log, later, q, n, rest.next, e.next, rest.next);
    ProgReplays(c, o, e.log, q, e.next, k, fuel - 1, o', later, fuel' - 1);
  }

  lemma {:induction false} DoFuel(c: Codec, o: Oracle, log: Log, q: Id, n: nat, p: Prog, fuel: nat)
    requires p.Do? && RunProg(c, o, log, q, n, p, fuel).result.Some?
    ensures fuel > 0 && RunOp(c, o, log, q, n, p.op, fuel - 1).result.Some?
  {
    hide RunOp;
  }

  lemma ThenReplays(e: Exec<OpResult>, rest: Exec<UserResult>, later: Log)
    ensures Then(Replayed(e, later), Replayed(rest, later)) == Replayed(Then(e, rest), later)
    ensures Then(e, rest).log == rest.log && Then(e, rest).next == rest.next && Then(e, rest).result == rest.result
    ensures Then(e, rest).repeatable ==> e.repeatable && rest.repeatable
    ensures Replayed(e, later) == Exec(e.result, later, [], e.next, true)
  {
  }
}
