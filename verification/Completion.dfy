/** An invocation that nothing interrupts completes, from every log: every input of a combinator settles, so
    every settle order decides it.
 */
module Completion {
  import opened Records
  import opened Errors
  import opened Combinators
  import opened Handlers
  import opened Meaning
  import opened Recovery
  import opened Decimals
  import O = SettleOrder

  // ----- Handlers of a bounded length -----

  /** Whatever results it is given, the operation comes to its end within so many nested operations; and its
      lists of inputs are in memory. */
  ghost predicate OpEnds(op: Op, fuel: nat)
    decreases fuel
  {
    fuel > 0 &&
    match op
    case Leaf(source) => true
    case Child(body) => ProgEnds(body, fuel - 1)
    case Combine(_, inputs) =>
      |inputs| <= USIZE_MAX && forall i | 0 <= i < |inputs| :: OpEnds(inputs[i], fuel - 1)
  }

  ghost predicate ProgEnds(p: Prog, fuel: nat)
    decreases fuel
  {
    p.Do? ==> fuel > 0 && OpEnds(p.op, fuel - 1) && forall r: OpResult :: ProgEnds(p.k(r), fuel - 1)
  }

  // ----- One layer -----

  lemma LeafCompletes(c: Codec, source: LeafKind, ch: Choice, log: Log, x: Id, next: nat)
    requires ch.start && ch.end && ch.leaf.Some?
    ensures RunLeaf(c, source, ch, log, x, next).result.Some?
  {
    hide LeafAction, LeafResult, ReplayLeaf;
  }

  lemma JoinCompletes(c: Codec, ch: Choice, x: Id, kind: CombinatorKind, ins: Inputs, next: nat)
    requires ch.start && ch.end && AllSome(ins.done)
    ensures JoinSettled(c, ch, x, kind, ins, next).result.Some?
    ensures CollectionRebuilt(c, ch, x, kind, ins, next).result.Some?
  {
    AllSettledDecides(kind, ins.done, ch.order);
    hide O.Outcome, Combined, JoinAction, JoinResult, JoinRepeats, RoundTrip, SameDecoded;
  }

  // ----- Whole runs -----

  lemma {:induction false} OpCompletes(c: Codec, o: Oracle, log: Log, q: Id, n: nat, op: Op, fuel: nat)
    requires Persists(o) && OpEnds(op, fuel)
    ensures RunOp(c, o, log, q, n, op, fuel).result.Some?
    decreases fuel, 2
  {
    hide *;
    OpEndsParts(op, fuel);
    match op
    case Leaf(source) =>
      LeafUnfolds(c, source, o, log, q, n, fuel);
      PersistsAt(o, q + [n]);
      LeafCompletes(c, source, o(q + [n]), log, q + [n], n + 1);
    case Child(body) =>
      var x := q + [n];
      var b := RunProg(c, o, Begun(log, x), x, 1, body, fuel - 1);
      ProgCompletes(c, o, Begun(log, x), x, 1, body, fuel - 1);
      PersistsAt(o, x);
      ChildUnfolds(c, o, log, q, n, body, fuel);
      ChildCases(c, o(x), log, x, b, n + 1);
      SettledCases(c, o(x), x, Begin(log, x), b, n + 1);
    case Combine(kind, inputs) => CombineCompletes(c, o, log, q, n, kind, inputs, fuel);
  }

  lemma {:induction false} OpEndsParts(op: Op, fuel: nat)
    requires OpEnds(op, fuel)
    ensures fuel > 0
    ensures op.Child? ==> ProgEnds(op.body, fuel - 1)
    ensures op.Combine? ==>
      |op.inputs| <= USIZE_MAX && forall i | 0 <= i < |op.inputs| :: OpEnds(op.inputs[i], fuel - 1)
  {
    hide ProgEnds;
  }

  lemma {:induction false} CombineCompletes(
      c: Codec, o: Oracle, log: Log, q: Id, n: nat, kind: CombinatorKind, inputs: seq<Op>, fuel: nat)
    requires fuel > 0 && Persists(o) && |inputs| <= USIZE_MAX
    requires forall i | 0 <= i < |inputs| :: OpEnds(inputs[i], fuel - 1)
    ensures RunOp(c, o, log, q, n, Combine(kind, inputs), fuel).result.Some?
    decreases fuel, 1
  {
    hide *;
    var at := n + Widths(inputs);
    var x := q + [at];
    PersistsAt(o, x);
    CombineUnfolds(c, o, log, q, n, kind, inputs, fuel);
    DrivesWinnerCases(log, x, kind, inputs);
    SettledFacts(log, x);
    var winner := WinnerDriven(log, x, kind, inputs);
    if winner.Some? {
      var from := n + Widths(inputs[..winner.value]);
      OpCompletes(c, o, log, q, from, inputs[winner.value], fuel - 1);
      WinnerCases(c, o(x), x, RunOp(c, o, log, q, from, inputs[winner.value], fuel - 1), at + 1);
    } else if DrivesWinner(log, x, kind) {
      NoWinnerCases(log, WinnerOf(log[x]), |inputs|, at + 1);
    } else {
      var ins := RunInputs(c, o, log, q, n, inputs, fuel - 1);
      if Closed(log, x) {
        ClosedRun(c, o(x), log, x, kind, ins, inputs, at + 1);
      } else {
        InputsComplete(c, o, log, q, n, inputs, fuel - 1);
        JoinCompletes(c, o(x), x, kind, ins, at + 1);
        CombineCases(c, o(x), log, x, kind, ins, at + 1);
      }
    }
  }

  lemma {:induction false} InputsComplete(c: Codec, o: Oracle, log: Log, q: Id, n: nat, inputs: seq<Op>, fuel: nat)
    requires Persists(o) && forall i | 0 <= i < |inputs| :: OpEnds(inputs[i], fuel)
    ensures AllSome(RunInputs(c, o, log, q, n, inputs, fuel).done)
    decreases fuel, 3, |inputs|
  {
    hide OpEnds, RunOp, Persists;
    if inputs != [] {
      var e := RunOp(c, o, log, q, n, inputs[0], fuel);
      OpCompletes(c, o, log, q, n, inputs[0], fuel);
      InputsComplete(c, o, e.log, q, e.next, inputs[1..], fuel);
      InputsUnfold(c, o, log, q, n, inputs, fuel);
    }
  }

  lemma {:induction false} ProgCompletes(c: Codec, o: Oracle, log: Log, q: Id, n: nat, p: Prog, fuel: nat)
    requires Persists(o) && ProgEnds(p, fuel)
    ensures RunProg(c, o, log, q, n, p, fuel).result.Some?
    decreases fuel, 0
  {
    hide OpEnds, RunOp, Persists;
    if p.Do? {
      var e := RunOp(c, o, log, q, n, p.op, fuel - 1);
      OpCompletes(c, o, log, q, n, p.op, fuel - 1);
      DoUnfolds(c, o, log, q, n, p, fuel);
      ProgCompletes(c, o, e.log, q, e.next, p.k(e.result.value), fuel - 1);
    }
  }
}
