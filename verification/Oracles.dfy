/** A run looks only at the choices made for the operations it minted, and at their records. */
module Oracles {
  import opened Options
  import opened Records
  import opened Errors
  import opened Combinators
  import opened Handlers
  import opened Runs
  import opened Decimals
  import F = CombinatorFailures
  import O = SettleOrder

  /** The two oracles choose the same for the positions lo to hi of q and below. */
  ghost predicate SameChoices(o: Oracle, o': Oracle, q: Id, lo: nat, hi: nat) {
    forall id | Within(id, q, lo, hi) :: o(id) == o'(id)
  }

  ghost predicate SameFrom(o: Oracle, o': Oracle, q: Id, lo: nat) {
    forall hi: nat :: SameChoices(o, o', q, lo, hi)
  }

  /** The choices of o, but at x. */
  function At(o: Oracle, x: Id, ch: Choice): Oracle {
    (id: Id) => if id == x then ch else o(id)
  }

  /** The choices of a for the positions lo to hi of q and below, and those of b elsewhere. */
  function Mixed(a: Oracle, b: Oracle, q: Id, lo: nat, hi: nat): Oracle {
    (id: Id) => if Within(id, q, lo, hi) then a(id) else b(id)
  }

  lemma SamePart(o: Oracle, o': Oracle, q: Id, lo: nat, hi: nat, lo': nat, hi': nat)
    requires SameChoices(o, o', q, lo, hi) && lo <= lo' && hi' <= hi
    ensures SameChoices(o, o', q, lo', hi')
  {
  }

  lemma SameFromPart(o: Oracle, o': Oracle, q: Id, lo: nat, lo': nat)
    requires SameFrom(o, o', q, lo) && lo <= lo'
    ensures SameFrom(o, o', q, lo') && forall hi: nat :: SameChoices(o, o', q, lo', hi)
  {
    forall hi: nat ensures SameChoices(o, o', q, lo', hi) {
      assert SameChoices(o, o', q, lo, hi);
    }
  }

  lemma SameOwn(o: Oracle, o': Oracle, q: Id, lo: nat, hi: nat, n: nat)
    requires SameChoices(o, o', q, lo, hi) && lo <= n < hi
    ensures o(q + [n]) == o'(q + [n])
    ensures SameFrom(o, o', q + [n], 1)
  {
    var x := q + [n];
    assert x[..|q|] == q;
    assert Within(x, q, lo, hi);
    forall hi': nat ensures SameChoices(o, o', x, 1, hi') {
      forall id | Within(id, x, 1, hi') ensures o(id) == o'(id) {
        WithinChild(id, q, n, 1, hi');
      }
    }
  }

  lemma AtElsewhere(o: Oracle, q: Id, lo: nat, hi: nat, at: nat, ch: Choice)
    requires hi <= at || at < lo
    ensures SameChoices(At(o, q + [at], ch), o, q, lo, hi)
  {
    assert !Within(q + [at], q, lo, hi);
  }

  // ----- Logs -----

  /** Two runs that differ at most in what their logs held beside the positions lo to hi of q. */
  ghost predicate Alike<R>(e: Exec<R>, e': Exec<R>, q: Id, lo: nat, hi: nat) {
    && e.result == e'.result && e.writes == e'.writes && e.next == e'.next && e.repeatable == e'.repeatable
    && Agree(e.log, e'.log, q, lo, hi)
  }

  ghost predicate AlikeFrom<R>(e: Exec<R>, e': Exec<R>, q: Id, lo: nat) {
    forall hi: nat :: Alike(e, e', q, lo, hi)
  }

  ghost predicate AlikeInputs(ins: Inputs, ins': Inputs, q: Id, lo: nat, hi: nat) {
    && ins.done == ins'.done && ins.writes == ins'.writes && ins.repeatable == ins'.repeatable
    && Agree(ins.log, ins'.log, q, lo, hi)
  }

  lemma AlikeFacts<R>(e: Exec<R>, e': Exec<R>, q: Id, lo: nat, hi: nat)
    requires Alike(e, e', q, lo, hi)
    ensures e.result == e'.result && e.writes == e'.writes && e.next == e'.next && e.repeatable == e'.repeatable
    ensures Agree(e.log, e'.log, q, lo, hi)
  {
    hide Agree;
  }

  lemma AlikeFromFacts<R>(e: Exec<R>, e': Exec<R>, q: Id, lo: nat)
    requires AlikeFrom(e, e', q, lo)
    ensures e.result == e'.result && e.writes == e'.writes && e.next == e'.next && e.repeatable == e'.repeatable
    ensures AgreeFrom(e.log, e'.log, q, lo)
  {
    hide Agree;
    assert Alike(e, e', q, lo, lo);
    forall hi: nat ensures Agree(e.log, e'.log, q, lo, hi) {
      assert Alike(e, e', q, lo, hi);
    }
  }

  /** The records of the operation at position n of q and below it are the same in both logs. */
  lemma AgreeOwnBelow(a: Log, b: Log, q: Id, lo: nat, hi: nat, n: nat)
    requires Agree(a, b, q, lo, hi) && lo <= n < hi
    ensures q + [n] in a <==> q + [n] in b
    ensures q + [n] in a ==> a[q + [n]] == b[q + [n]]
    ensures AgreeFrom(Begun(a, q + [n]), Begun(b, q + [n]), q + [n], 0)
  {
    var x := q + [n];
    assert x[..|q|] == q;
    assert Within(x, q, lo, hi);
    forall id, hi': nat | Within(id, x, 0, hi') ensures (id in a <==> id in b) && (id in a ==> a[id] == b[id]) {
      WithinChild(id, q, n, 0, hi');
      assert Within(id, q, lo, hi);
    }
  }

  lemma LeafAlike(c: Codec, source: LeafKind, ch: Choice, a: Log, b: Log, q: Id, lo: nat, hi: nat, n: nat)
    requires Agree(a, b, q, lo, hi) && lo <= n < hi
    ensures Alike(RunLeaf(c, source, ch, a, q + [n], n + 1), RunLeaf(c, source, ch, b, q + [n], n + 1), q, lo, hi)
  {
    AgreeOwnBelow(a, b, q, lo, hi, n);
    hide LeafAction, LeafResult, ReplayLeaf, AgreeFrom, Within;
  }

  /** A body that started on agreeing logs, and ran alike, left agreeing logs. */
  lemma BodyLogsAgree(a: Log, b: Log, a': Log, b': Log, q: Id, lo: nat, hi: nat, n: nat, next: nat)
    requires Agree(a, b, q, lo, hi) && lo <= n < hi
    requires SameOutside(Begun(a, q + [n]), a', q + [n], 1, next)
    requires SameOutside(Begun(b, q + [n]), b', q + [n], 1, next)
    requires AgreeFrom(a', b', q + [n], 0)
    ensures Agree(a', b', q, lo, hi)
    ensures q + [n] in a' <==> q + [n] in b'
    ensures q + [n] in a' ==> a'[q + [n]] == b'[q + [n]]
  {
    var x := q + [n];
    AgreeOwnBelow(a, b, q, lo, hi, n);
    assert !Within(x, x, 1, next);
    assert Agree(a', b', x, 0, next);
    forall id | Within(id, q, lo, hi) ensures (id in a' <==> id in b') && (id in a' ==> a'[id] == b'[id]) {
      if Within(id, x, 1, next) { assert Within(id, x, 0, next); }
    }
  }

  lemma AgreeWritten(a: Log, b: Log, q: Id, lo: nat, hi: nat, w: Write)
    requires Agree(a, b, q, lo, hi)
    ensures Agree(AfterWrite(a, w), AfterWrite(b, w), q, lo, hi)
  {
  }

  lemma SameStatus(a: Log, b: Log, x: Id)
    requires (x in a <==> x in b) && (x in a ==> a[x] == b[x])
    ensures (Closed(a, x) <==> Closed(b, x)) && (Settled(a, x) <==> Settled(b, x)) && Begin(a, x) == Begin(b, x)
    ensures Settled(a, x) ==> x in a
    ensures Closed(a, x) ==> Settled(a, x)
  {
  }

  lemma SettledAlike(
      c: Codec, ch: Choice, x: Id, begun: seq<Write>, e: Exec<UserResult>, e': Exec<UserResult>, next: nat,
      q: Id, lo: nat, hi: nat)
    requires Alike(e, e', q, lo, hi)
    ensures Alike(ChildSettled(c, ch, x, begun, e, next), ChildSettled(c, ch, x, begun, e', next), q, lo, hi)
  {
    hide Agree, ChildAction, ChildResult, ChildRepeats, AfterWrite;
    if e.result.Some? { AgreeWritten(e.log, e'.log, q, lo, hi, Write(x, ChildAction(c, ch, x, e.result.value))); }
  }

  lemma ReconstructedAlike(
      c: Codec, ch: Choice, x: Id, e: Exec<UserResult>, e': Exec<UserResult>, next: nat, q: Id, lo: nat, hi: nat)
    requires Alike(e, e', q, lo, hi)
    ensures Alike(Reconstructed(c, ch, x, e, next), Reconstructed(c, ch, x, e', next), q, lo, hi)
  {
    hide Agree, RoundTrip, SameDecoded;
  }

  lemma ChildAlike(
      c: Codec, ch: Choice, a: Log, b: Log, q: Id, lo: nat, hi: nat, n: nat, e: Exec<UserResult>, e': Exec<UserResult>)
    requires Agree(a, b, q, lo, hi) && lo <= n < hi
    requires SameOutside(Begun(a, q + [n]), e.log, q + [n], 1, e.next)
    requires SameOutside(Begun(b, q + [n]), e'.log, q + [n], 1, e'.next)
    requires AlikeFrom(e, e', q + [n], 0)
    ensures Alike(ChildRun(c, ch, a, q + [n], e, n + 1), ChildRun(c, ch, b, q + [n], e', n + 1), q, lo, hi)
  {
    hide *;
    var x := q + [n];
    AlikeFromFacts(e, e', x, 0);
    AgreeOwnBelow(a, b, q, lo, hi, n);
    BodyLogsAgree(a, b, e.log, e'.log, q, lo, hi, n, e.next);
    AlikeMade(e, e', q, lo, hi);
    SameStatus(a, b, x);
    ChildCases(c, ch, a, x, e, n + 1);
    ChildCases(c, ch, b, x, e', n + 1);
    if Closed(a, x) || (!Settled(a, x) && x !in a && !ch.start) {
      AlikeMade(ChildRun(c, ch, a, x, e, n + 1), ChildRun(c, ch, b, x, e', n + 1), q, lo, hi);
    } else if Settled(a, x) {
      ReconstructedAlike(c, ch, x, e, e', n + 1, q, lo, hi);
    } else {
      SettledAlike(c, ch, x, Begin(a, x), e, e', n + 1, q, lo, hi);
    }
  }

  lemma CollectionAlike(
      c: Codec, ch: Choice, x: Id, kind: CombinatorKind, ins: Inputs, ins': Inputs, next: nat, q: Id, lo: nat, hi: nat)
    requires AlikeInputs(ins, ins', q, lo, hi)
    ensures Alike(CollectionRebuilt(c, ch, x, kind, ins, next), CollectionRebuilt(c, ch, x, kind, ins', next), q, lo,
      hi)
  {
    hide O.Outcome, Combined, SameDecoded, RoundTrip, Agree, F.LiveFailure;
  }

  lemma JoinAlike(
      c: Codec, ch: Choice, x: Id, kind: CombinatorKind, ins: Inputs, ins': Inputs, next: nat, q: Id, lo: nat, hi: nat)
    requires AlikeInputs(ins, ins', q, lo, hi) && (x in ins.log <==> x in ins'.log)
    ensures Alike(JoinSettled(c, ch, x, kind, ins, next), JoinSettled(c, ch, x, kind, ins', next), q, lo, hi)
  {
    hide O.Outcome, Combined, JoinAction, JoinResult, JoinRepeats, Agree;
    AgreeWritten(ins.log, ins'.log, q, lo, hi, Write(x, Start));
    var j := O.Outcome(kind, ins.done, ch.order);
    if !j.Waiting? {
      var p := if j.Failure? then Some("") else c.encode(x, Combined(j, c.text), ch.salt);
      if p.Some? {
        var w := Write(x, JoinAction(c, ch, x, kind, j, p.value));
        AgreeWritten(ins.log, ins'.log, q, lo, hi, w);
        AgreeWritten(Begun(ins.log, x), Begun(ins'.log, x), q, lo, hi, w);
      }
    }
  }

  lemma CombineAlike(
      c: Codec, ch: Choice, a: Log, b: Log, q: Id, lo: nat, hi: nat, n: nat, at: nat, kind: CombinatorKind,
      ins: Inputs, ins': Inputs)
    requires Agree(a, b, q, lo, hi) && lo <= n <= at < hi
    requires SameOutside(a, ins.log, q, n, at) && SameOutside(b, ins'.log, q, n, at)
    requires AlikeInputs(ins, ins', q, lo, hi)
    ensures
      var x := q + [at];
      Alike(CombineRun(c, ch, a, x, kind, ins, at + 1), CombineRun(c, ch, b, x, kind, ins', at + 1), q, lo, hi)
  {
    hide *;
    var x := q + [at];
    PositionUntouched(a, ins.log, q, n, at, at);
    PositionUntouched(b, ins'.log, q, n, at, at);
    AgreeOwnBelow(a, b, q, lo, hi, at);
    SameStatus(a, b, x);
    if Closed(a, x) {
      ClosedRun(c, ch, a, x, kind, ins, [], at + 1);
      ClosedRun(c, ch, b, x, kind, ins', [], at + 1);
      AlikeMade(CombineRun(c, ch, a, x, kind, ins, at + 1), CombineRun(c, ch, b, x, kind, ins', at + 1), q, lo, hi);
    } else {
      CombineCases(c, ch, a, x, kind, ins, at + 1);
      CombineCases(c, ch, b, x, kind, ins', at + 1);
      CollectionAlike(c, ch, x, kind, ins, ins', at + 1, q, lo, hi);
      JoinAlike(c, ch, x, kind, ins, ins', at + 1, q, lo, hi);
    }
  }

  /** The run of an operation depends on the choices for its own positions, and on their records. */
  lemma {:induction false} OpAlike(
      c: Codec, o: Oracle, o': Oracle, a: Log, b: Log, q: Id, n: nat, op: Op, fuel: nat, lo: nat, hi: nat)
    requires SameChoices(o, o', q, n, n + Width(op)) && Agree(a, b, q, lo, hi) && lo <= n && n + Width(op) <= hi
    ensures Alike(RunOp(c, o, a, q, n, op, fuel), RunOp(c, o', b, q, n, op, fuel), q, lo, hi)
    decreases fuel, 2
  {
    hide *;
    WidthFacts(op);
    if fuel == 0 {
      NoFuel(c, o, a, q, n, op);
      NoFuel(c, o', b, q, n, op);
      AlikeMade<OpResult>(RunOp(c, o, a, q, n, op, 0), RunOp(c, o', b, q, n, op, 0), q, lo, hi);
    } else {
      match op
      case Leaf(source) =>
        SameOwn(o, o', q, n, n + 1, n);
        LeafUnfolds(c, source, o, a, q, n, fuel);
        LeafUnfolds(c, source, o', b, q, n, fuel);
        LeafAlike(c, source, o(q + [n]), a, b, q, lo, hi, n);
      case Child(body) =>
        var x := q + [n];
        SameOwn(o, o', q, n, n + 1, n);
        AgreeOwnBelow(a, b, q, lo, hi, n);
        ProgAlike(c, o, o', Begun(a, x), Begun(b, x), x, 1, body, fuel - 1, 0);
        ProgFrame(c, o, Begun(a, x), x, 1, body, fuel - 1);
        ProgFrame(c, o', Begun(b, x), x, 1, body, fuel - 1);
        ChildAlike(c, o(x), a, b, q, lo, hi, n,
                   RunProg(c, o, Begun(a, x), x, 1, body, fuel - 1), RunProg(c, o', Begun(b, x), x, 1, body, fuel - 1));
        ChildUnfolds(c, o, a, q, n, body, fuel);
        ChildUnfolds(c, o', b, q, n, body, fuel);
      case Combine(kind, inputs) =>
        if |inputs| > USIZE_MAX {
          TooManyInputs(c, o, a, q, n, kind, inputs, fuel);
          TooManyInputs(c, o', b, q, n, kind, inputs, fuel);
          AlikeMade<OpResult>(RunOp(c, o, a, q, n, op, fuel), RunOp(c, o', b, q, n, op, fuel), q, lo, hi);
        } else {
          CombineOpAlike(c, o, o', a, b, q, n, kind, inputs, fuel, lo, hi);
        }
    }
  }

  lemma AlikeMade<R>(e: Exec<R>, e': Exec<R>, q: Id, lo: nat, hi: nat)
    requires e.result == e'.result && e.writes == e'.writes && e.next == e'.next && e.repeatable == e'.repeatable
    requires Agree(e.log, e'.log, q, lo, hi)
    ensures Alike(e, e', q, lo, hi)
  {
    hide Agree;
  }

  lemma {:induction false} CombineOpAlike(
      c: Codec, o: Oracle, o': Oracle, a: Log, b: Log, q: Id, n: nat, kind: CombinatorKind, inputs: seq<Op>, fuel: nat,
      lo: nat, hi: nat)
    requires fuel > 0 && |inputs| <= USIZE_MAX && SameChoices(o, o', q, n, n + Widths(inputs) + 1)
    requires Agree(a, b, q, lo, hi) && lo <= n && n + Widths(inputs) + 1 <= hi
    ensures
      var op := Combine(kind, inputs);
      Alike(RunOp(c, o, a, q, n, op, fuel), RunOp(c, o', b, q, n, op, fuel), q, lo, hi)
    decreases fuel, 1
  {
    hide *;
    var at := n + Widths(inputs);
    var x := q + [at];
    SameOwn(o, o', q, n, at + 1, at);
    SamePart(o, o', q, n, at + 1, n, at);
    AgreeOwnBelow(a, b, q, lo, hi, at);
    CombineUnfolds(c, o, a, q, n, kind, inputs, fuel);
    CombineUnfolds(c, o', b, q, n, kind, inputs, fuel);
    SameDriven(a, b, x, kind, inputs);
    var winner := WinnerDriven(a, x, kind, inputs);
    if winner.Some? {
      var from := n + Widths(inputs[..winner.value]);
      OffsetInside(inputs, winner.value);
      SamePart(o, o', q, n, at + 1, from, from + Width(inputs[winner.value]));
      OpAlike(c, o, o', a, b, q, from, inputs[winner.value], fuel - 1, lo, hi);
      WinnerAlike(c, o(x), x, RunOp(c, o, a, q, from, inputs[winner.value], fuel - 1),
                  RunOp(c, o', b, q, from, inputs[winner.value], fuel - 1), at + 1, q, lo, hi);
    } else if DrivesWinner(a, x, kind) {
      DrivesWinnerCases(a, x, kind, inputs);
      SettledFacts(a, x);
      NoWinnerAlike(a, b, WinnerOf(a[x]), |inputs|, at + 1, q, lo, hi);
    } else {
      InputsAlike(c, o, o', a, b, q, n, inputs, fuel - 1, lo, hi);
      InputsFrame(c, o, a, q, n, inputs, fuel - 1);
      InputsFrame(c, o', b, q, n, inputs, fuel - 1);
      CombineAlike(c, o(x), a, b, q, lo, hi, n, at, kind,
                   RunInputs(c, o, a, q, n, inputs, fuel - 1), RunInputs(c, o', b, q, n, inputs, fuel - 1));
    }
  }

  lemma SameDriven(a: Log, b: Log, x: Id, kind: CombinatorKind, inputs: seq<Op>)
    requires (x in a <==> x in b) && (x in a ==> a[x] == b[x])
    ensures WinnerDriven(a, x, kind, inputs) == WinnerDriven(b, x, kind, inputs)
    ensures DrivesWinner(a, x, kind) <==> DrivesWinner(b, x, kind)
    ensures DrivesWinner(a, x, kind) ==> WinnerOf(a[x]) == WinnerOf(b[x])
  {
    hide WinnerOf;
  }

  lemma WinnerAlike(
      c: Codec, ch: Choice, x: Id, e: Exec<OpResult>, e': Exec<OpResult>, next: nat, q: Id, lo: nat, hi: nat)
    requires Alike(e, e', q, lo, hi)
    ensures Alike(WinnerRebuilt(c, ch, x, e, next), WinnerRebuilt(c, ch, x, e', next), q, lo, hi)
  {
    hide SameDecoded, RoundTrip, Agree;
  }

  lemma NoWinnerAlike(a: Log, b: Log, winner: Option<nat>, count: nat, next: nat, q: Id, lo: nat, hi: nat)
    requires Agree(a, b, q, lo, hi)
    ensures Alike(NoWinner(a, winner, count, next), NoWinner(b, winner, count, next), q, lo, hi)
  {
    hide Agree;
  }

  lemma {:induction false} InputsAlike(
      c: Codec, o: Oracle, o': Oracle, a: Log, b: Log, q: Id, n: nat, inputs: seq<Op>, fuel: nat, lo: nat, hi: nat)
    requires SameChoices(o, o', q, n, n + Widths(inputs))
    requires Agree(a, b, q, lo, hi) && lo <= n && n + Widths(inputs) <= hi
    ensures AlikeInputs(RunInputs(c, o, a, q, n, inputs, fuel), RunInputs(c, o', b, q, n, inputs, fuel), q, lo, hi)
    decreases fuel, 3, |inputs|
  {
    hide *;
    if inputs == [] {
      NoInputsRun(c, o, a, q, n, fuel);
      NoInputsRun(c, o', b, q, n, fuel);
      NoInputsAlike(a, b, q, lo, hi);
    } else {
      var next := n + Width(inputs[0]);
      WidthsStep(inputs, 0);
      SamePart(o, o', q, n, n + Widths(inputs), n, next);
      SamePart(o, o', q, n, n + Widths(inputs), next, n + Widths(inputs));
      OpAlike(c, o, o', a, b, q, n, inputs[0], fuel, lo, hi);
      var e, e' := RunOp(c, o, a, q, n, inputs[0], fuel), RunOp(c, o', b, q, n, inputs[0], fuel);
      AlikeFacts(e, e', q, lo, hi);
      InputsAlike(c, o, o', e.log, e'.log, q, next, inputs[1..], fuel, lo, hi);
      InputsUnfold(c, o, a, q, n, inputs, fuel);
      InputsUnfold(c, o', b, q, n, inputs, fuel);
      ConsAlike(e, e', RunInputs(c, o, e.log, q, next, inputs[1..], fuel),
                RunInputs(c, o', e'.log, q, next, inputs[1..], fuel), q, lo, hi);
    }
  }

  lemma NoInputsAlike(a: Log, b: Log, q: Id, lo: nat, hi: nat)
    requires Agree(a, b, q, lo, hi)
    ensures AlikeInputs(Inputs([], [], a, []), Inputs([], [], b, []), q, lo, hi)
  {
    hide Agree;
  }

  lemma ConsAlike(e: Exec<OpResult>, e': Exec<OpResult>, rest: Inputs, rest': Inputs, q: Id, lo: nat, hi: nat)
    requires Alike(e, e', q, lo, hi) && AlikeInputs(rest, rest', q, lo, hi)
    ensures AlikeInputs(
      Inputs([e.result] + rest.done, [e.repeatable] + rest.repeatable, rest.log, e.writes + rest.writes),
      Inputs([e'.result] + rest'.done, [e'.repeatable] + rest'.repeatable, rest'.log, e'.writes + rest'.writes),
      q, lo, hi)
  {
    hide Agree;
  }

  lemma {:induction false} ProgAlike(
      c: Codec, o: Oracle, o': Oracle, a: Log, b: Log, q: Id, n: nat, p: Prog, fuel: nat, lo: nat)
    requires SameFrom(o, o', q, n) && AgreeFrom(a, b, q, lo) && lo <= n
    ensures AlikeFrom(RunProg(c, o, a, q, n, p, fuel), RunProg(c, o', b, q, n, p, fuel), q, lo)
    decreases fuel, 0
  {
    hide *;
    EndUnfolds(c, o, a, q, n, p, fuel);
    EndUnfolds(c, o', b, q, n, p, fuel);
    if p.Do? && fuel > 0 {
      SameFromPart(o, o', q, n, n);
      var e, e' := RunOp(c, o, a, q, n, p.op, fuel - 1), RunOp(c, o', b, q, n, p.op, fuel - 1);
      forall hi: nat | n + Width(p.op) <= hi ensures Alike(e, e', q, lo, hi) {
        AgreeFromAt(a, b, q, lo, hi);
        OpAlike(c, o, o', a, b, q, n, p.op, fuel - 1, lo, hi);
      }
      AlikeLower(e, e', q, lo, n + Width(p.op));
      AlikeFromFacts(e, e', q, lo);
      DoUnfolds(c, o, a, q, n, p, fuel);
      DoUnfolds(c, o', b, q, n, p, fuel);
      InterruptedFacts<UserResult>(e.log, e.writes, e.next);
      InterruptedFacts<UserResult>(e'.log, e'.writes, e'.next);
      if e.result.Some? {
        SameFromPart(o, o', q, n, e.next);
        var rest := RunProg(c, o, e.log, q, e.next, p.k(e.result.value), fuel - 1);
        var rest' := RunProg(c, o', e'.log, q, e.next, p.k(e.result.value), fuel - 1);
        ProgAlike(c, o, o', e.log, e'.log, q, e.next, p.k(e.result.value), fuel - 1, lo);
        ThenFacts(e, rest);
        ThenFacts(e', rest');
        AlikeFromFacts(rest, rest', q, lo);
      }
    }
    AlikeFromMade(RunProg(c, o, a, q, n, p, fuel), RunProg(c, o', b, q, n, p, fuel), q, lo);
  }

  lemma AgreeFromAt(a: Log, b: Log, q: Id, lo: nat, hi: nat)
    requires AgreeFrom(a, b, q, lo)
    ensures Agree(a, b, q, lo, hi)
  {
  }

  lemma AlikeFromMade<R>(e: Exec<R>, e': Exec<R>, q: Id, lo: nat)
    requires e.result == e'.result && e.writes == e'.writes && e.next == e'.next && e.repeatable == e'.repeatable
    requires AgreeFrom(e.log, e'.log, q, lo)
    ensures AlikeFrom(e, e', q, lo)
  {
    hide Agree;
  }

  lemma AlikeLower<R>(e: Exec<R>, e': Exec<R>, q: Id, lo: nat, from: nat)
    requires forall hi: nat | from <= hi :: Alike(e, e', q, lo, hi)
    ensures AlikeFrom(e, e', q, lo)
  {
    forall hi: nat ensures Alike(e, e', q, lo, hi) {
      assert Alike(e, e', q, lo, from + hi);
    }
  }

  // ----- One log -----

  /** From one log, the choices for the minted positions decide all of the run. */
  lemma OpSameRun(c: Codec, o: Oracle, o': Oracle, log: Log, q: Id, n: nat, op: Op, fuel: nat)
    requires SameChoices(o, o', q, n, n + Width(op))
    ensures RunOp(c, o, log, q, n, op, fuel) == RunOp(c, o', log, q, n, op, fuel)
  {
    hide *;
    var e, e' := RunOp(c, o, log, q, n, op, fuel), RunOp(c, o', log, q, n, op, fuel);
    AgreeItself(log, q, n, n + Width(op));
    OpAlike(c, o, o', log, log, q, n, op, fuel, n, n + Width(op));
    AlikeFacts(e, e', q, n, n + Width(op));
    OpFrame(c, o, log, q, n, op, fuel);
    OpFrame(c, o', log, q, n, op, fuel);
    SameLogs(log, e.log, e'.log, q, n, n + Width(op));
  }

  lemma InputsSameRun(c: Codec, o: Oracle, o': Oracle, log: Log, q: Id, n: nat, inputs: seq<Op>, fuel: nat)
    requires SameChoices(o, o', q, n, n + Widths(inputs))
    ensures RunInputs(c, o, log, q, n, inputs, fuel) == RunInputs(c, o', log, q, n, inputs, fuel)
  {
    hide *;
    var ins, ins' := RunInputs(c, o, log, q, n, inputs, fuel), RunInputs(c, o', log, q, n, inputs, fuel);
    AgreeItself(log, q, n, n + Widths(inputs));
    InputsAlike(c, o, o', log, log, q, n, inputs, fuel, n, n + Widths(inputs));
    AlikeInputsFacts(ins, ins', q, n, n + Widths(inputs));
    InputsFrame(c, o, log, q, n, inputs, fuel);
    InputsFrame(c, o', log, q, n, inputs, fuel);
    SameLogs(log, ins.log, ins'.log, q, n, n + Widths(inputs));
  }

  lemma ProgSameRun(c: Codec, o: Oracle, o': Oracle, log: Log, q: Id, n: nat, p: Prog, fuel: nat)
    requires SameFrom(o, o', q, n)
    ensures RunProg(c, o, log, q, n, p, fuel) == RunProg(c, o', log, q, n, p, fuel)
  {
    hide *;
    var e, e' := RunProg(c, o, log, q, n, p, fuel), RunProg(c, o', log, q, n, p, fuel);
    AgreeFromItself(log, q, n);
    ProgAlike(c, o, o', log, log, q, n, p, fuel, n);
    AlikeFromFacts(e, e', q, n);
    ProgFrame(c, o, log, q, n, p, fuel);
    ProgFrame(c, o', log, q, n, p, fuel);
    AgreeFromAt(e.log, e'.log, q, n, e.next);
    SameLogs(log, e.log, e'.log, q, n, e.next);
  }

  lemma AgreeItself(log: Log, q: Id, lo: nat, hi: nat)
    ensures Agree(log, log, q, lo, hi)
  {
  }

  lemma AgreeFromItself(log: Log, q: Id, lo: nat)
    ensures AgreeFrom(log, log, q, lo)
  {
  }

  lemma SameLogs(log: Log, a: Log, b: Log, q: Id, lo: nat, hi: nat)
    requires SameOutside(log, a, q, lo, hi) && SameOutside(log, b, q, lo, hi) && Agree(a, b, q, lo, hi)
    ensures a == b
  {
    forall id ensures (id in a <==> id in b) && (id in a ==> a[id] == b[id]) {
      if !Within(id, q, lo, hi) { assert id in log <==> id in a; }
    }
  }

  lemma AlikeInputsFacts(ins: Inputs, ins': Inputs, q: Id, lo: nat, hi: nat)
    requires AlikeInputs(ins, ins', q, lo, hi)
    ensures ins.done == ins'.done && ins.writes == ins'.writes && ins.repeatable == ins'.repeatable
    ensures Agree(ins.log, ins'.log, q, lo, hi)
  {
    hide Agree;
  }
}
