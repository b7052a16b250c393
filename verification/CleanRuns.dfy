/** When a first run determines its replay, in terms that can be observed: encodings of one value all
    fail or all decode alike, no execution-fatal error is recorded, no child body fails with an error
    that records the type of a failed serialization, and no combinator result fails to be encoded. A
    child result may: its failure is recorded.
 */
module CleanRuns {
  import opened Options
  import opened Records
  import opened Errors
  import opened Combinators
  import opened Handlers
  import opened Runs
  import opened Replay
  import opened Decimals
  import F = CombinatorFailures
  import O = SettleOrder

  ghost predicate NoFatal(o: Oracle) {
    forall x: Id :: o(x).fatal.None?
  }

  /** No record is at or below the positions from n on of the context q. */
  ghost predicate Fresh(log: Log, q: Id, n: nat) {
    forall id | id in log :: !(|q| < |id| && id[..|q|] == q && n <= id[|q|])
  }

  predicate RecordsSerializationType(r: Option<UserResult>, text: Text) {
    r.Some? && r.value.Bad? && FailureWire(r.value.error, text).errorType == Some(SERIALIZATION_TYPE)
  }

  /** The inputs decided on a value, and it could not be encoded. */
  predicate Unencodable(c: Codec, ch: Choice, x: Id, kind: CombinatorKind, done: O.Done) {
    var j := O.Outcome(kind, done, ch.order);
    !j.Waiting? && !j.Failure? && c.encode(x, Combined(j, c.text), ch.salt).None?
  }

  /** No child body in the run fails with an error of that type, and no combinator result fails to be
      encoded. */
  ghost predicate OpClean(c: Codec, o: Oracle, log: Log, q: Id, n: nat, op: Op, fuel: nat)
    decreases fuel, 0
  {
    fuel == 0 ||
    match op
    case Leaf(source) => true
    case Child(body) =>
      var x := q + [n];
      && ProgClean(c, o, Begun(log, x), x, 1, body, fuel - 1)
      && !RecordsSerializationType(RunProg(c, o, Begun(log, x), x, 1, body, fuel - 1).result, c.text)
    case Combine(kind, inputs) =>
      var x := q + [n + Widths(inputs)];
      && InputsClean(c, o, log, q, n, inputs, fuel - 1)
      && !Unencodable(c, o(x), x, kind, RunInputs(c, o, log, q, n, inputs, fuel - 1).done)
  }

  ghost predicate InputsClean(c: Codec, o: Oracle, log: Log, q: Id, n: nat, inputs: seq<Op>, fuel: nat)
    decreases fuel, 1, |inputs|
  {
    inputs == [] ||
    (var e := RunOp(c, o, log, q, n, inputs[0], fuel);
     OpClean(c, o, log, q, n, inputs[0], fuel) && InputsClean(c, o, e.log, q, e.next, inputs[1..], fuel))
  }

  ghost predicate ProgClean(c: Codec, o: Oracle, log: Log, q: Id, n: nat, p: Prog, fuel: nat)
    decreases fuel, 0
  {
    p.Do? && fuel > 0 ==>
      var e := RunOp(c, o, log, q, n, p.op, fuel - 1);
      && OpClean(c, o, log, q, n, p.op, fuel - 1)
      && (e.result.Some? ==> ProgClean(c, o, e.log, q, e.next, p.k(e.result.value), fuel - 1))
  }

  // ----- Fresh positions -----

  lemma FreshBeyond(a: Log, b: Log, q: Id, n: nat, hi: nat)
    requires Fresh(a, q, n) && SameOutside(a, b, q, n, hi) && n <= hi
    ensures Fresh(b, q, hi)
  {
  }

  lemma FreshOwn(log: Log, q: Id, n: nat, at: nat)
    requires Fresh(log, q, n) && n <= at
    ensures q + [at] !in log
  {
    assert (q + [at])[..|q|] == q;
  }

  lemma FreshChild(log: Log, q: Id, n: nat)
    requires Fresh(log, q, n)
    ensures Fresh(Begun(log, q + [n]), q + [n], 1)
  {
    forall id | id in log { BelowChild(id, q, n); }
  }

  /** What is below a position of q is below q, at that position. */
  lemma BelowChild(id: Id, q: Id, n: nat)
    ensures var x := q + [n]; |x| <= |id| && id[..|x|] == x ==> id[..|q|] == q && id[|q|] == n
  {
    var x := q + [n];
    assert x[..|q|] == q;
    assert |x| <= |id| ==> id[..|x|][..|q|] == id[..|q|] && id[..|x|][|q|] == id[|q|];
  }

  // ----- One layer -----

  lemma StableDecodes(c: Codec, x: Id, v: Value, s: nat)
    requires Stable(c) && c.encode(x, v, s).Some?
    ensures SameDecoded(c, x, v, c.encode(x, v, s).value)
  {
  }

  lemma ChildClean(c: Codec, ch: Choice, log: Log, x: Id, b: Exec<UserResult>, next: nat)
    requires Stable(c) && x !in log && (b.result.Some? ==> b.repeatable) && !RecordsSerializationType(b.result, c.text)
    ensures var e := ChildRun(c, ch, log, x, b, next); e.result.Some? ==> e.repeatable
  {
    hide Stable, SameDecoded, Oversized;
    if b.result.Some? && b.result.value.Good? && c.encode(x, b.result.value.value, ch.salt).Some? {
      StableDecodes(c, x, b.result.value.value, ch.salt);
    }
  }

  lemma JoinClean(c: Codec, ch: Choice, x: Id, kind: CombinatorKind, ins: Inputs, next: nat)
    requires Stable(c) && ch.fatal.None? && |ins.done| == |ins.repeatable| && !Unencodable(c, ch, x, kind, ins.done)
    requires forall i | 0 <= i < |ins.done| && ins.done[i].Some? :: ins.repeatable[i]
    ensures var e := JoinSettled(c, ch, x, kind, ins, next); e.result.Some? ==> e.repeatable
  {
    var j := O.Outcome(kind, ins.done, ch.order);
    O.OutcomeIsTrue(kind, ins.done, ch.order);
    hide O.Outcome, Stable, SameDecoded, Oversized, Combined, JoinResult, F.FailureWire, F.WinnerRecord;
    if !j.Waiting? && !j.Failure? { StableDecodes(c, x, Combined(j, c.text), ch.salt); }
  }

  // ----- Whole runs -----

  lemma {:induction false} OpCleanRepeats(c: Codec, o: Oracle, log: Log, q: Id, n: nat, op: Op, fuel: nat)
    requires Stable(c) && NoFatal(o) && Fresh(log, q, n) && OpClean(c, o, log, q, n, op, fuel)
    ensures var e := RunOp(c, o, log, q, n, op, fuel); e.result.Some? ==> e.repeatable
    decreases fuel, 1
  {
    hide *;
    if fuel == 0 {
      NoFuel(c, o, log, q, n, op);
    } else {
      CleanParts(c, o, log, q, n, op, fuel);
      match op
      case Leaf(source) =>
        LeafUnfolds(c, source, o, log, q, n, fuel);
        LeafClean(c, source, o(q + [n]), log, q + [n], n + 1);
      case Child(body) =>
        var x := q + [n];
        ChildUnfolds(c, o, log, q, n, body, fuel);
        FreshOwn(log, q, n, n);
        FreshChild(log, q, n);
        ProgCleanRepeats(c, o, Begun(log, x), x, 1, body, fuel - 1);
        ChildClean(c, o(x), log, x, RunProg(c, o, Begun(log, x), x, 1, body, fuel - 1), n + 1);
      case Combine(kind, inputs) =>
        if |inputs| > USIZE_MAX { TooManyInputs(c, o, log, q, n, kind, inputs, fuel); }
        else { CombineCleanRepeats(c, o, log, q, n, kind, inputs, fuel); }
    }
  }

  lemma {:induction false} CleanParts(c: Codec, o: Oracle, log: Log, q: Id, n: nat, op: Op, fuel: nat)
    requires fuel > 0 && OpClean(c, o, log, q, n, op, fuel)
    ensures op.Child? ==>
      var x := q + [n];
      && ProgClean(c, o, Begun(log, x), x, 1, op.body, fuel - 1)
      && !RecordsSerializationType(RunProg(c, o, Begun(log, x), x, 1, op.body, fuel - 1).result, c.text)
    ensures op.Combine? ==>
      var x := q + [n + Widths(op.inputs)];
      && InputsClean(c, o, log, q, n, op.inputs, fuel - 1)
      && !Unencodable(c, o(x), x, op.kind, RunInputs(c, o, log, q, n, op.inputs, fuel - 1).done)
  {
    hide ProgClean, InputsClean, RunProg, RunInputs, RecordsSerializationType, Unencodable, Widths;
  }

  lemma LeafClean(c: Codec, source: LeafKind, ch: Choice, log: Log, x: Id, next: nat)
    ensures var e := RunLeaf(c, source, ch, log, x, next); e.result.Some? ==> e.repeatable
  {
  }

  lemma NoFatalAt(o: Oracle, x: Id)
    requires NoFatal(o)
    ensures o(x).fatal.None?
  {
  }

  lemma {:induction false} CombineCleanRepeats(
      c: Codec, o: Oracle, log: Log, q: Id, n: nat, kind: CombinatorKind, inputs: seq<Op>, fuel: nat)
    requires fuel > 0 && |inputs| <= USIZE_MAX && Stable(c) && NoFatal(o) && Fresh(log, q, n)
    requires InputsClean(c, o, log, q, n, inputs, fuel - 1)
    requires
      var x := q + [n + Widths(inputs)];
      !Unencodable(c, o(x), x, kind, RunInputs(c, o, log, q, n, inputs, fuel - 1).done)
    ensures var e := RunOp(c, o, log, q, n, Combine(kind, inputs), fuel); e.result.Some? ==> e.repeatable
    decreases fuel, 0
  {
    hide *;
    var at := n + Widths(inputs);
    var x := q + [at];
    var ins := RunInputs(c, o, log, q, n, inputs, fuel - 1);
    CombineUnfolds(c, o, log, q, n, kind, inputs, fuel);
    FreshOwn(log, q, n, at);
    Unsettled(log, x, kind);
    NotDriven(log, x, kind, inputs);
    CombineCases(c, o(x), log, x, kind, ins, at + 1);
    InputsCleanRepeat(c, o, log, q, n, inputs, fuel - 1);
    NoFatalAt(o, x);
    JoinClean(c, o(x), x, kind, ins, at + 1);
  }

  lemma Unsettled(log: Log, x: Id, kind: CombinatorKind)
    requires x !in log
    ensures !Settled(log, x) && !Closed(log, x) && !DrivesWinner(log, x, kind)
  {
  }

  lemma {:induction false} InputsCleanRepeat(c: Codec, o: Oracle, log: Log, q: Id, n: nat, inputs: seq<Op>, fuel: nat)
    requires Stable(c) && NoFatal(o) && Fresh(log, q, n) && InputsClean(c, o, log, q, n, inputs, fuel)
    ensures
      var ins := RunInputs(c, o, log, q, n, inputs, fuel);
      forall i | 0 <= i < |ins.done| && ins.done[i].Some? :: ins.repeatable[i]
    decreases fuel, 2, |inputs|, 1
  {
    if inputs == [] {
      NoInputsRun(c, o, log, q, n, fuel);
    } else {
      InputsConsClean(c, o, log, q, n, inputs, fuel);
    }
  }

  lemma {:induction false} InputsConsClean(c: Codec, o: Oracle, log: Log, q: Id, n: nat, inputs: seq<Op>, fuel: nat)
    requires inputs != [] && Stable(c) && NoFatal(o) && Fresh(log, q, n) && InputsClean(c, o, log, q, n, inputs, fuel)
    ensures
      var ins := RunInputs(c, o, log, q, n, inputs, fuel);
      forall i | 0 <= i < |ins.done| && ins.done[i].Some? :: ins.repeatable[i]
    decreases fuel, 2, |inputs|, 0
  {
    hide *;
    var e := RunOp(c, o, log, q, n, inputs[0], fuel);
    var rest := RunInputs(c, o, e.log, q, e.next, inputs[1..], fuel);
    InputsUnfold(c, o, log, q, n, inputs, fuel);
    InputsCleanParts(c, o, log, q, n, inputs, fuel);
    OpCleanRepeats(c, o, log, q, n, inputs[0], fuel);
    OpFrame(c, o, log, q, n, inputs[0], fuel);
    FreshBeyond(log, e.log, q, n, e.next);
    InputsCleanRepeat(c, o, e.log, q, e.next, inputs[1..], fuel);
    var ins := RunInputs(c, o, log, q, n, inputs, fuel);
    forall i | 0 <= i < |ins.done| && ins.done[i].Some? ensures ins.repeatable[i] {
      if i > 0 { assert ins.done[i] == rest.done[i - 1] && ins.repeatable[i] == rest.repeatable[i - 1]; }
    }
  }

  lemma {:induction false} InputsCleanParts(c: Codec, o: Oracle, log: Log, q: Id, n: nat, inputs: seq<Op>, fuel: nat)
    requires inputs != [] && InputsClean(c, o, log, q, n, inputs, fuel)
    ensures
      var e := RunOp(c, o, log, q, n, inputs[0], fuel);
      OpClean(c, o, log, q, n, inputs[0], fuel) && InputsClean(c, o, e.log, q, e.next, inputs[1..], fuel)
  {
    hide RunOp, OpClean;
  }

  lemma {:induction false} ProgCleanRepeats(c: Codec, o: Oracle, log: Log, q: Id, n: nat, p: Prog, fuel: nat)
    requires Stable(c) && NoFatal(o) && Fresh(log, q, n) && ProgClean(c, o, log, q, n, p, fuel)
    ensures var e := RunProg(c, o, log, q, n, p, fuel); e.result.Some? ==> e.repeatable
    decreases fuel, 0
  {
    hide *;
    EndUnfolds(c, o, log, q, n, p, fuel);
    if p.Do? && fuel > 0 {
      var e := RunOp(c, o, log, q, n, p.op, fuel - 1);
      DoUnfolds(c, o, log, q, n, p, fuel);
      DoCleanParts(c, o, log, q, n, p, fuel);
      OpCleanRepeats(c, o, log, q, n, p.op, fuel - 1);
      OpFrame(c, o, log, q, n, p.op, fuel - 1);
      FreshBeyond(log, e.log, q, n, e.next);
      InterruptedFacts<UserResult>(e.log, e.writes, e.next);
      if e.result.Some? {
        ProgCleanRepeats(c, o, e.log, q, e.next, p.k(e.result.value), fuel - 1);
        ThenFacts(e, RunProg(c, o, e.log, q, e.next, p.k(e.result.value), fuel - 1));
      }
    }
  }

  lemma {:induction false} DoCleanParts(c: Codec, o: Oracle, log: Log, q: Id, n: nat, p: Prog, fuel: nat)
    requires p.Do? && fuel > 0 && ProgClean(c, o, log, q, n, p, fuel)
    ensures
      var e := RunOp(c, o, log, q, n, p.op, fuel - 1);
      && OpClean(c, o, log, q, n, p.op, fuel - 1)
      && (e.result.Some? ==> ProgClean(c, o, e.log, q, e.next, p.k(e.result.value), fuel - 1))
  {
    hide RunOp, OpClean;
  }

  /** A clean first run of a handler is what every later invocation returns, whatever its choices and
      whatever order its inputs settle in, from any log that keeps what the run needs; and no later
      invocation writes anything. */
  lemma CleanRunReplays(c: Codec, o: Oracle, p: Prog, fuel: nat, o': Oracle, later: Log, fuel': nat)
    requires Stable(c) && NoFatal(o) && ProgClean(c, o, map[], [], 1, p, fuel) && fuel <= fuel'
    requires
      var e := RunProg(c, o, map[], [], 1, p, fuel);
      e.result.Some? && Keeps(e.log, later, [], 1, e.next)
    ensures
      var e := RunProg(c, o, map[], [], 1, p, fuel);
      var again := RunProg(c, o', later, [], 1, p, fuel');
      again.result == e.result && again.writes == [] && again.log == later
  {
    hide *;
    EmptyIsFresh();
    ProgCleanRepeats(c, o, map[], [], 1, p, fuel);
    ProgReplays(c, o, map[], [], 1, p, fuel, o', later, fuel');
    ReplayedFacts(RunProg(c, o, map[], [], 1, p, fuel), later);
  }

  lemma EmptyIsFresh()
    ensures Fresh(map[], [], 1)
  {
  }
}
