/** What every run of a handler keeps: it writes legally, and only below the positions it minted. */
module Runs {
  import opened Records
  import opened Combinators
  import opened Handlers
  import O = SettleOrder
  import opened Decimals

  // ----- Frames -----

  lemma OutsideWider(a: Log, b: Log, q: Id, lo: nat, hi: nat, lo': nat, hi': nat)
    requires SameOutside(a, b, q, lo, hi) && lo' <= lo && hi <= hi'
    ensures SameOutside(a, b, q, lo', hi')
  {
  }

  lemma OutsideChain(a: Log, b: Log, d: Log, q: Id, lo: nat, mid: nat, hi: nat)
    requires SameOutside(a, b, q, lo, mid) && SameOutside(b, d, q, mid, hi) && lo <= mid <= hi
    ensures SameOutside(a, d, q, lo, hi)
  {
  }

  /** Writes of the operation at position n of q, and of its body, stay below that position. */
  lemma OutsideChild(a: Log, b: Log, q: Id, n: nat, hi: nat)
    requires SameOutside(a, b, q + [n], 1, hi)
    ensures SameOutside(a, b, q, n, n + 1)
  {
    forall id | !Within(id, q, n, n + 1) ensures !Within(id, q + [n], 1, hi) {
      if Within(id, q + [n], 1, hi) { WithinChild(id, q, n, 1, hi); }
    }
  }

  lemma SameItself(log: Log, q: Id, lo: nat, hi: nat)
    ensures SameOutside(log, log, q, lo, hi)
  {
  }

  lemma SameTransitive(a: Log, b: Log, d: Log, q: Id, lo: nat, hi: nat)
    requires SameOutside(a, b, q, lo, hi) && SameOutside(b, d, q, lo, hi)
    ensures SameOutside(a, d, q, lo, hi)
  {
  }

  lemma LeafFrame(c: Codec, source: LeafKind, ch: Choice, log: Log, q: Id, n: nat)
    ensures SameOutside(log, RunLeaf(c, source, ch, log, q + [n], n + 1).log, q, n, n + 1)
  {
    assert (q + [n])[..|q|] == q;
  }

  lemma ChildFrame(c: Codec, ch: Choice, log: Log, q: Id, n: nat, body: Exec<UserResult>)
    requires SameOutside(Begun(log, q + [n]), body.log, q + [n], 1, body.next)
    ensures SameOutside(log, ChildRun(c, ch, log, q + [n], body, n + 1).log, q, n, n + 1)
  {
    var x := q + [n];
    assert x[..|q|] == q;
    OutsideChild(Begun(log, x), body.log, q, n, body.next);
    SameTransitive(log, Begun(log, x), body.log, q, n, n + 1);
  }

  lemma {:induction false} OffsetInside(inputs: seq<Op>, i: nat)
    requires i < |inputs|
    ensures Widths(inputs[..i]) + Width(inputs[i]) + Widths(inputs[i + 1..]) == Widths(inputs)
  {
    if i == 0 {
      assert inputs[..0] == [];
    } else {
      OffsetInside(inputs[1..], i - 1);
      assert inputs[1..][..i - 1] == inputs[..i][1..];
      assert inputs[1..][i..] == inputs[i + 1..];
    }
  }

  lemma {:induction false} WidthsStep(inputs: seq<Op>, i: nat)
    requires i < |inputs|
    ensures Widths(inputs) == Width(inputs[0]) + Widths(inputs[1..])
    ensures i == 0 ==> Widths(inputs[..i]) == 0
    ensures i > 0 ==>
      Widths(inputs[..i]) == Width(inputs[0]) + Widths(inputs[1..][..i - 1]) && inputs[i] == inputs[1..][i - 1]
  {
    if i > 0 {
      assert inputs[..i][1..] == inputs[1..][..i - 1] && inputs[..i][0] == inputs[0];
    }
  }

  lemma CombineFrame(c: Codec, ch: Choice, log: Log, q: Id, n: nat, at: nat, kind: CombinatorKind, ins: Inputs)
    requires n <= at && SameOutside(log, ins.log, q, n, at)
    ensures SameOutside(log, CombineRun(c, ch, log, q + [at], kind, ins, at + 1).log, q, n, at + 1)
  {
    hide CombineRun;
    var x := q + [at];
    CombineWritesOwn(c, ch, log, x, kind, ins, at + 1);
    OwnInside(log, ins.log, CombineRun(c, ch, log, x, kind, ins, at + 1).log, q, n, at);
  }

  lemma OwnInside(log: Log, b: Log, after: Log, q: Id, n: nat, at: nat)
    requires n <= at && SameOutside(log, b, q, n, at)
    requires after == log || after == b || (q + [at] in after && after == b[q + [at] := after[q + [at]]])
    ensures SameOutside(log, after, q, n, at + 1)
  {
    assert (q + [at])[..|q|] == q;
  }

  lemma CombineWritesOwn(c: Codec, ch: Choice, log: Log, x: Id, kind: CombinatorKind, ins: Inputs, next: nat)
    ensures
      var after := CombineRun(c, ch, log, x, kind, ins, next).log;
      after == log || after == ins.log || (x in after && after == ins.log[x := after[x]])
  {
    hide O.Outcome, Combined, JoinAction, JoinResult, JoinRepeats, SameDecoded, RoundTrip;
  }

  /** A run changes no record outside the positions it mints. */
  lemma {:induction false} OpFrame(c: Codec, o: Oracle, log: Log, q: Id, n: nat, op: Op, fuel: nat)
    ensures SameOutside(log, RunOp(c, o, log, q, n, op, fuel).log, q, n, n + Width(op))
    decreases fuel, 2
  {
    hide *;
    WidthFacts(op);
    SameItself(log, q, n, n + Width(op));
    if fuel == 0 {
      NoFuel(c, o, log, q, n, op);
    } else {
      match op
      case Leaf(source) =>
        LeafUnfolds(c, source, o, log, q, n, fuel);
        LeafFrame(c, source, o(q + [n]), log, q, n);
      case Child(body) => ChildOpFrame(c, o, log, q, n, body, fuel);
      case Combine(kind, inputs) =>
        if |inputs| <= USIZE_MAX { CombineOpFrame(c, o, log, q, n, kind, inputs, fuel); }
        else { TooManyInputs(c, o, log, q, n, kind, inputs, fuel); }
    }
  }

  lemma {:induction false} ChildOpFrame(c: Codec, o: Oracle, log: Log, q: Id, n: nat, body: Prog, fuel: nat)
    requires fuel > 0
    ensures SameOutside(log, RunOp(c, o, log, q, n, Child(body), fuel).log, q, n, n + 1)
    decreases fuel, 1
  {
    hide RunOp, RunProg, ChildRun, SameOutside;
    var x := q + [n];
    ProgFrame(c, o, Begun(log, x), x, 1, body, fuel - 1);
    ChildFrame(c, o(x), log, q, n, RunProg(c, o, Begun(log, x), x, 1, body, fuel - 1));
    ChildUnfolds(c, o, log, q, n, body, fuel);
  }

  lemma {:induction false} CombineOpFrame(
      c: Codec, o: Oracle, log: Log, q: Id, n: nat, kind: CombinatorKind, inputs: seq<Op>, fuel: nat)
    requires fuel > 0 && |inputs| <= USIZE_MAX
    ensures SameOutside(log, RunOp(c, o, log, q, n, Combine(kind, inputs), fuel).log, q, n, n + Widths(inputs) + 1)
    decreases fuel, 1
  {
    hide RunOp, RunInputs, CombineRun, WinnerDriven, DrivesWinner, SameOutside, Widths;
    var at := n + Widths(inputs);
    var x := q + [at];
    SameItself(log, q, n, at + 1);
    CombineUnfolds(c, o, log, q, n, kind, inputs, fuel);
    var winner := WinnerDriven(log, x, kind, inputs);
    if winner.Some? {
      WinnerFrame(c, o, log, q, n, inputs, winner.value, fuel - 1);
    } else if !DrivesWinner(log, x, kind) {
      InputsFrame(c, o, log, q, n, inputs, fuel - 1);
      CombineFrame(c, o(x), log, q, n, at, kind, RunInputs(c, o, log, q, n, inputs, fuel - 1));
    }
  }

  lemma {:induction false} WinnerFrame(
      c: Codec, o: Oracle, log: Log, q: Id, n: nat, inputs: seq<Op>, winner: nat, fuel: nat)
    requires winner < |inputs|
    ensures
      var at := n + Widths(inputs[..winner]);
      SameOutside(log, RunOp(c, o, log, q, at, inputs[winner], fuel).log, q, n, n + Widths(inputs) + 1)
    decreases fuel, 3
  {
    var at := n + Widths(inputs[..winner]);
    OpFrame(c, o, log, q, at, inputs[winner], fuel);
    OffsetInside(inputs, winner);
    OutsideWider(log, RunOp(c, o, log, q, at, inputs[winner], fuel).log,
                 q, at, at + Width(inputs[winner]), n, n + Widths(inputs) + 1);
  }

  lemma {:induction false} InputsFrame(c: Codec, o: Oracle, log: Log, q: Id, n: nat, inputs: seq<Op>, fuel: nat)
    ensures SameOutside(log, RunInputs(c, o, log, q, n, inputs, fuel).log, q, n, n + Widths(inputs))
    decreases fuel, 3, |inputs|
  {
    if inputs != [] {
      var e := RunOp(c, o, log, q, n, inputs[0], fuel);
      OpFrame(c, o, log, q, n, inputs[0], fuel);
      InputsFrame(c, o, e.log, q, e.next, inputs[1..], fuel);
      OutsideChain(log, e.log, RunInputs(c, o, log, q, n, inputs, fuel).log, q, n, e.next, n + Widths(inputs));
    }
  }

  lemma {:induction false} ProgFrame(c: Codec, o: Oracle, log: Log, q: Id, n: nat, p: Prog, fuel: nat)
    ensures SameOutside(log, RunProg(c, o, log, q, n, p, fuel).log, q, n, RunProg(c, o, log, q, n, p, fuel).next)
    decreases fuel, 0
  {
    hide RunOp, Width;
    if p.Do? && fuel > 0 { DoFrame(c, o, log, q, n, p, fuel); }
  }

  lemma {:induction false} DoFrame(c: Codec, o: Oracle, log: Log, q: Id, n: nat, p: Prog, fuel: nat)
    requires p.Do? && fuel > 0
    ensures SameOutside(log, RunProg(c, o, log, q, n, p, fuel).log, q, n, RunProg(c, o, log, q, n, p, fuel).next)
    decreases fuel - 1, 4
  {
    hide *;
    var e := RunOp(c, o, log, q, n, p.op, fuel - 1);
    DoUnfolds(c, o, log, q, n, p, fuel);
    OpFrame(c, o, log, q, n, p.op, fuel - 1);
    InterruptedFacts<UserResult>(e.log, e.writes, e.next);
    if e.result.Some? {
      var rest := RunProg(c, o, e.log, q, e.next, p.k(e.result.value), fuel - 1);
      ProgFrame(c, o, e.log, q, e.next, p.k(e.result.value), fuel - 1);
      OutsideChain(log, e.log, rest.log, q, n, e.next, rest.next);
      ThenFacts(e, rest);
    }
  }

  lemma OutsideAgrees(a: Log, b: Log, q: Id, lo: nat, hi: nat, lo': nat, hi': nat)
    requires SameOutside(a, b, q, lo, hi) && (hi' <= lo || hi <= lo')
    ensures Agree(a, b, q, lo', hi')
  {
  }

  lemma OwnUntouched(a: Log, b: Log, x: Id, hi: nat)
    requires SameOutside(a, b, x, 1, hi)
    ensures x in b <==> x in a
    ensures x in b ==> b[x] == a[x]
  {
    assert !Within(x, x, 1, hi);
  }

  lemma PositionUntouched(a: Log, b: Log, q: Id, lo: nat, hi: nat, at: nat)
    requires SameOutside(a, b, q, lo, hi) && hi <= at
    ensures q + [at] in a <==> q + [at] in b
    ensures q + [at] in a ==> a[q + [at]] == b[q + [at]]
    ensures Settled(a, q + [at]) <==> Settled(b, q + [at])
    ensures Closed(a, q + [at]) <==> Closed(b, q + [at])
  {
    assert !Within(q + [at], q, lo, hi);
  }

  lemma OwnBeyond(a: Log, b: Log, q: Id, n: nat, at: nat)
    requires b == a || (q + [at] in b && b == a[q + [at] := b[q + [at]]])
    ensures Agree(a, b, q, n, at)
  {
    assert !Within(q + [at], q, n, at);
  }

  // ----- Legal writes -----

  /** No record has a status that a context never gets. */
  ghost predicate Sane(log: Log) {
    forall id | id in log :: !Terminal(log[id].status) || log[id].status.Succeeded? || log[id].status.Failed?
  }

  /** In such a log only a record that settles its operation on its own frees its children. */
  lemma SaneFrees(log: Log, x: Id)
    requires Sane(log)
    ensures Frees(log, x) ==> Closed(log, x)
  {
  }

  /** The log is what the writes made of the earlier one, and each of them was legal. */
  ghost predicate Traced(log: Log, writes: seq<Write>, after: Log) {
    after == AfterWrites(log, writes) && (Sane(log) ==> LegalWrites(log, writes) && Sane(after))
  }

  lemma TracedChain(a: Log, first: seq<Write>, b: Log, second: seq<Write>, d: Log)
    requires Traced(a, first, b) && Traced(b, second, d)
    ensures Traced(a, first + second, d)
  {
    WritesConcat(a, first, second);
  }

  lemma TracedOne(log: Log, w: Write)
    requires Sane(log) ==> LegalWrite(log, w)
    ensures Traced(log, [w], AfterWrite(log, w))
  {
    assert AfterWrites(log, [w]) == AfterWrite(log, w);
  }

  lemma TracedNothing(log: Log)
    ensures Traced(log, [], log)
  {
  }

  lemma TracedBegin(log: Log, x: Id)
    ensures Traced(log, Begin(log, x), Begun(log, x))
  {
    if x !in log { TracedOne(log, Write(x, Start)); }
  }

  lemma LeafTraced(c: Codec, source: LeafKind, ch: Choice, log: Log, x: Id, next: nat)
    ensures var e := RunLeaf(c, source, ch, log, x, next); Traced(log, e.writes, e.log)
  {
    TracedBegin(log, x);
    var begun := Begun(log, x);
    if !Settled(log, x) && ch.leaf.Some? {
      var w := Write(x, LeafAction(source, ch.preserve, ch.leaf.value));
      TracedOutcome(log, Begin(log, x), begun, w);
    }
  }

  /** One more write, of an outcome that its operation does not have yet. */
  lemma TracedOutcome(log: Log, writes: seq<Write>, after: Log, w: Write)
    requires Traced(log, writes, after) && w.id in after && !Settled(after, w.id) && !w.action.Start?
    ensures Traced(log, writes + [w], AfterWrite(after, w))
  {
    TracedOne(after, w);
    TracedChain(log, writes, after, [w], AfterWrite(after, w));
  }

  lemma ChildTraced(c: Codec, ch: Choice, log: Log, x: Id, body: Exec<UserResult>, next: nat)
    requires Traced(Begun(log, x), body.writes, body.log)
    requires x in body.log && body.log[x] == Begun(log, x)[x]
    ensures var e := ChildRun(c, ch, log, x, body, next); Traced(log, e.writes, e.log)
  {
    TracedBegin(log, x);
    TracedChain(log, Begin(log, x), Begun(log, x), body.writes, body.log);
    if !Settled(log, x) && body.result.Some? {
      TracedOutcome(log, Begin(log, x) + body.writes, body.log, Write(x, ChildAction(c, ch, x, body.result.value)));
    } else if Settled(log, x) {
      assert Begin(log, x) + body.writes == body.writes;
    }
  }

  lemma CombineTraced(c: Codec, ch: Choice, log: Log, x: Id, kind: CombinatorKind, ins: Inputs, next: nat)
    requires Traced(log, ins.writes, ins.log)
    requires x in log <==> x in ins.log
    requires x in log ==> ins.log[x] == log[x]
    ensures var e := CombineRun(c, ch, log, x, kind, ins, next); Traced(log, e.writes, e.log)
  {
    TracedNothing(log);
    hide JoinSettled, CollectionRebuilt, ReplayCombinator, Traced;
    if Closed(log, x) {
    } else if Settled(log, x) {
      CombineCases(c, ch, log, x, kind, ins, next);
    } else {
      JoinTraced(c, ch, log, x, kind, ins, next);
    }
  }

  lemma JoinTraced(c: Codec, ch: Choice, log: Log, x: Id, kind: CombinatorKind, ins: Inputs, next: nat)
    requires Traced(log, ins.writes, ins.log) && !Settled(ins.log, x)
    ensures var e := JoinSettled(c, ch, x, kind, ins, next); Traced(log, e.writes, e.log)
  {
    var e := JoinSettled(c, ch, x, kind, ins, next);
    var begun := if x in ins.log || !ch.start then [] else [Write(x, Start)];
    var after := if begun == [] then ins.log else Begun(ins.log, x);
    TracedBegin(ins.log, x);
    TracedNothing(ins.log);
    TracedChain(log, ins.writes, ins.log, begun, after);
    JoinWrites(c, ch, x, kind, ins, next);
    hide JoinSettled, Traced, Begun;
    if e.writes != ins.writes + begun {
      TracedOutcome(log, ins.writes + begun, after, e.writes[|e.writes| - 1]);
    }
  }

  /** A live join adds its START, if it queued one, and then at most its outcome. */
  lemma JoinWrites(c: Codec, ch: Choice, x: Id, kind: CombinatorKind, ins: Inputs, next: nat)
    requires !Settled(ins.log, x)
    ensures
      var e := JoinSettled(c, ch, x, kind, ins, next);
      var begun := if x in ins.log || !ch.start then [] else [Write(x, Start)];
      var after := if begun == [] then ins.log else Begun(ins.log, x);
      || (e.writes == ins.writes + begun && e.log == after)
      || (&& |e.writes| > 0
          && var w := e.writes[|e.writes| - 1];
             && e.writes == ins.writes + begun + [w] && e.log == AfterWrite(after, w)
             && w.id == x && x in after && !Settled(after, x) && !w.action.Start?)
  {
    hide O.Outcome, Combined, JoinResult, JoinRepeats;
  }

  /** Every run writes legally: START only without a record, one outcome at most for each operation,
      only after its START, and never over an earlier outcome. */
  lemma {:induction false} OpWritesLegally(c: Codec, o: Oracle, log: Log, q: Id, n: nat, op: Op, fuel: nat)
    ensures var e := RunOp(c, o, log, q, n, op, fuel); Traced(log, e.writes, e.log)
    decreases fuel, 2
  {
    hide *;
    TracedNothing(log);
    if fuel == 0 {
      NoFuel(c, o, log, q, n, op);
    } else {
      match op
      case Leaf(source) =>
        LeafUnfolds(c, source, o, log, q, n, fuel);
        LeafTraced(c, source, o(q + [n]), log, q + [n], n + 1);
      case Child(body) => ChildWritesLegally(c, o, log, q, n, body, fuel);
      case Combine(kind, inputs) =>
        if |inputs| <= USIZE_MAX { CombineWritesLegally(c, o, log, q, n, kind, inputs, fuel); }
        else { TooManyInputs(c, o, log, q, n, kind, inputs, fuel); }
    }
  }

  lemma {:induction false} ChildWritesLegally(c: Codec, o: Oracle, log: Log, q: Id, n: nat, body: Prog, fuel: nat)
    requires fuel > 0
    ensures var e := RunOp(c, o, log, q, n, Child(body), fuel); Traced(log, e.writes, e.log)
    decreases fuel, 1
  {
    hide RunOp, RunProg, ChildRun, Traced;
    var x := q + [n];
    var b := RunProg(c, o, Begun(log, x), x, 1, body, fuel - 1);
    ProgWritesLegally(c, o, Begun(log, x), x, 1, body, fuel - 1);
    ProgFrame(c, o, Begun(log, x), x, 1, body, fuel - 1);
    assert !Within(x, x, 1, b.next);
    ChildTraced(c, o(x), log, x, b, n + 1);
    ChildUnfolds(c, o, log, q, n, body, fuel);
  }

  lemma {:induction false} CombineWritesLegally(
      c: Codec, o: Oracle, log: Log, q: Id, n: nat, kind: CombinatorKind, inputs: seq<Op>, fuel: nat)
    requires fuel > 0 && |inputs| <= USIZE_MAX
    ensures var e := RunOp(c, o, log, q, n, Combine(kind, inputs), fuel); Traced(log, e.writes, e.log)
    decreases fuel, 1
  {
    hide RunOp, RunInputs, CombineRun, WinnerDriven, DrivesWinner, Traced, Widths;
    var at := n + Widths(inputs);
    var x := q + [at];
    TracedNothing(log);
    CombineUnfolds(c, o, log, q, n, kind, inputs, fuel);
    var winner := WinnerDriven(log, x, kind, inputs);
    if winner.Some? {
      OpWritesLegally(c, o, log, q, n + Widths(inputs[..winner.value]), inputs[winner.value], fuel - 1);
    } else if !DrivesWinner(log, x, kind) {
      InputsWriteLegally(c, o, log, q, n, inputs, fuel - 1);
      InputsFrame(c, o, log, q, n, inputs, fuel - 1);
      assert !Within(x, q, n, at);
      CombineTraced(c, o(x), log, x, kind, RunInputs(c, o, log, q, n, inputs, fuel - 1), at + 1);
    }
  }

  lemma {:induction false} InputsWriteLegally(c: Codec, o: Oracle, log: Log, q: Id, n: nat, inputs: seq<Op>, fuel: nat)
    ensures var ins := RunInputs(c, o, log, q, n, inputs, fuel); Traced(log, ins.writes, ins.log)
    decreases fuel, 3, |inputs|
  {
    if inputs != [] {
      var e := RunOp(c, o, log, q, n, inputs[0], fuel);
      var rest := RunInputs(c, o, e.log, q, e.next, inputs[1..], fuel);
      OpWritesLegally(c, o, log, q, n, inputs[0], fuel);
      InputsWriteLegally(c, o, e.log, q, e.next, inputs[1..], fuel);
      TracedChain(log, e.writes, e.log, rest.writes, rest.log);
    }
  }

  lemma {:induction false} ProgWritesLegally(c: Codec, o: Oracle, log: Log, q: Id, n: nat, p: Prog, fuel: nat)
    ensures var e := RunProg(c, o, log, q, n, p, fuel); Traced(log, e.writes, e.log)
    decreases fuel, 0
  {
    TracedNothing(log);
    if p.Do? && fuel > 0 { DoWritesLegally(c, o, log, q, n, p, fuel); }
  }

  lemma {:induction false} DoWritesLegally(c: Codec, o: Oracle, log: Log, q: Id, n: nat, p: Prog, fuel: nat)
    requires p.Do? && fuel > 0
    ensures var e := RunProg(c, o, log, q, n, p, fuel); Traced(log, e.writes, e.log)
    decreases fuel - 1, 3
  {
    hide RunOp, RunProg, Traced;
    var e := RunOp(c, o, log, q, n, p.op, fuel - 1);
    OpWritesLegally(c, o, log, q, n, p.op, fuel - 1);
    DoUnfolds(c, o, log, q, n, p, fuel);
    if e.result.Some? {
      var rest := RunProg(c, o, e.log, q, e.next, p.k(e.result.value), fuel - 1);
      ProgWritesLegally(c, o, e.log, q, e.next, p.k(e.result.value), fuel - 1);
      TracedChain(log, e.writes, e.log, rest.writes, rest.log);
    }
  }

  // ----- Whole executions -----

  /** The invocations of an execution, each from what the service kept of what the last one left. */
  ghost predicate Execution(c: Codec, oracles: seq<Oracle>, logs: seq<Log>, p: Prog, fuel: nat) {
    && |logs| == |oracles| + 1 && logs[0] == map[]
    && forall i | 0 <= i < |oracles| :: Pruned(RunProg(c, oracles[i], logs[i], [], 1, p, fuel).log, logs[i + 1])
  }

  /** Records of an execution are of contexts that started or settled. */
  lemma {:induction false} ExecutionIsSane(
      c: Codec, oracles: seq<Oracle>, logs: seq<Log>, p: Prog, fuel: nat, i: nat)
    requires Execution(c, oracles, logs, p, fuel) && i < |logs|
    ensures Sane(logs[i])
  {
    hide RunProg, LegalWrites, AfterWrites;
    if i > 0 {
      ExecutionIsSane(c, oracles, logs, p, fuel, i - 1);
      ProgWritesLegally(c, oracles[i - 1], logs[i - 1], [], 1, p, fuel);
      assert Pruned(RunProg(c, oracles[i - 1], logs[i - 1], [], 1, p, fuel).log, logs[i - 1 + 1]);
    }
  }

  /** What the first k invocations of an execution wrote. */
  ghost function AllWrites(c: Codec, oracles: seq<Oracle>, logs: seq<Log>, p: Prog, fuel: nat, k: nat): seq<Write>
    requires k <= |oracles| && k <= |logs|
  {
    if k == 0 then []
    else
      AllWrites(c, oracles, logs, p, fuel, k - 1)
      + RunProg(c, oracles[k - 1], logs[k - 1], [], 1, p, fuel).writes
  }
}
