/** What a handler means, without a log: the result of a run that nothing interrupts.

    A handler has a meaning here when its result does not depend on the scheduler. Leaves
    are deterministic: the world decides the outcome of each. A combinator must have the same outcome
    for every order in which its inputs settle. And no child body fails with an error that
    records the type of a failed serialization.
 */
module Meaning {
  import opened Options
  import opened Records
  import opened Errors
  import opened Combinators
  import opened Handlers
  import opened Decimals
  import F = CombinatorFailures
  import O = SettleOrder

  type World = Id -> LeafOutcome

  function ChildMeaning(c: Codec, x: Id, r: UserResult): Option<OpResult> {
    match r
    case Bad(u) =>
      var wire := FailureWire(u, c.text);
      if wire.errorType == Some(SERIALIZATION_TYPE) then None else Some(Err(Recorded(ChildFailed, x, wire)))
    case Good(v) =>
      var p := c.encode(x, v, 0);
      Some(if p.None? then Err(Recorded(ChildInternal, x, WireWithType(SerializeError(), SERIALIZATION_TYPE, c.text)))
           else Decoded(c, x, p.value, ChildInternal))
  }

  function JoinMeaning(c: Codec, x: Id, kind: CombinatorKind, j: Joined): Option<OpResult> {
    match j
    case Waiting => None
    case Failure(f) => Some(Err(F.LiveFailure(kind, f, x, c.text)))
    case _ =>
      var p := c.encode(x, Combined(j, c.text), 0);
      Some(if p.None? then Err(Unrecorded(CombinatorInternal, UNSERIALIZED))
        else Decoded(c, x, p.value, CombinatorInternal))
  }

  predicate AllSome(means: seq<Option<OpResult>>) {
    forall i | 0 <= i < |means| :: means[i].Some?
  }

  /** The meaning of a combinator from those of its inputs. */
  ghost function CombineMeaning(c: Codec, x: Id, kind: CombinatorKind, means: seq<Option<OpResult>>): Option<OpResult> {
    if |means| <= USIZE_MAX && AllSome(means) && O.OrderFree(kind, means)
    then JoinMeaning(c, x, kind, O.Outcome(kind, means, []))
    else None
  }

  ghost function OpMeaning(c: Codec, w: World, q: Id, n: nat, op: Op, fuel: nat): Option<OpResult>
    decreases fuel, 0
  {
    if fuel == 0 then None
    else
      match op
      case Leaf(source) => Some(LeafResult(c, source, q + [n], w(q + [n])))
      case Child(body) =>
        var r := ProgMeaning(c, w, q + [n], 1, body, fuel - 1);
        if r.None? then None else ChildMeaning(c, q + [n], r.value)
      case Combine(kind, inputs) =>
        CombineMeaning(c, q + [n + Widths(inputs)], kind, InputMeanings(c, w, q, n, inputs, fuel - 1))
  }

  ghost function InputMeanings(
      c: Codec, w: World, q: Id, n: nat, inputs: seq<Op>, fuel: nat): (means: seq<Option<OpResult>>)
    ensures |means| == |inputs|
    decreases fuel, 1, |inputs|
  {
    if inputs == [] then []
    else [OpMeaning(c, w, q, n, inputs[0], fuel)] + InputMeanings(c, w, q, n + Width(inputs[0]), inputs[1..], fuel)
  }

  ghost function ProgMeaning(c: Codec, w: World, q: Id, n: nat, p: Prog, fuel: nat): Option<UserResult>
    decreases fuel, 0
  {
    match p
    case Return(v) => Some(Good(v))
    case Raise(u) => Some(Bad(u))
    case Do(op, k) =>
      if fuel == 0 then None
      else
        var m := OpMeaning(c, w, q, n, op, fuel - 1);
        if m.None? then None else ProgMeaning(c, w, q, n + Width(op), k(m.value), fuel - 1)
  }

  // ----- Logs that agree with a meaning -----

  /** A child's record says what its body means; a record that asks for the body has one to run. */
  predicate ChildRecord(c: Codec, log: Log, x: Id, r: UserResult) {
    && (Closed(log, x) ==> Some(ReplayChild(c, x, log[x])) == ChildMeaning(c, x, r))
    && (Settled(log, x) && !Closed(log, x) ==> r.Good? && c.encode(x, r.value, 0).Some?)
  }

  /** A combinator's record says what its inputs mean. A record without a result rebuilds it from all
      inputs, or names the winner. */
  predicate JoinRecord(c: Codec, log: Log, x: Id, kind: CombinatorKind, j: Joined) {
    && (Closed(log, x) ==> Some(ReplayCombinator(c, x, log[x])) == JoinMeaning(c, x, kind, j))
    && (Settled(log, x) && !Closed(log, x) ==>
          && (j.Values? || j.Results? || j.Winner?)
          && c.encode(x, Combined(j, c.text), 0).Some?
          && (DrivesWinner(log, x, kind) <==> j.Winner?)
          && (j.Winner? ==> WinnerOf(log[x]) == Some(j.index)))
  }

  predicate LeafRecord(c: Codec, source: LeafKind, log: Log, x: Id, leaf: LeafOutcome) {
    Settled(log, x) ==> ReplayLeaf(c, source, x, log[x]) == LeafResult(c, source, x, leaf)
  }

  /** Every record that a run of the operation can meet agrees with its meaning. Below a record
      that settles its operation on its own, no record is met. */
  ghost predicate OpAgrees(c: Codec, w: World, log: Log, q: Id, n: nat, op: Op, fuel: nat)
    decreases fuel, 0
  {
    fuel == 0 ||
    match op
    case Leaf(source) => LeafRecord(c, source, log, q + [n], w(q + [n]))
    case Child(body) =>
      var x := q + [n];
      var r := ProgMeaning(c, w, x, 1, body, fuel - 1);
      && (r.Some? ==> ChildRecord(c, log, x, r.value))
      && (Closed(log, x) || ProgAgrees(c, w, log, x, 1, body, fuel - 1))
    case Combine(kind, inputs) =>
      var x := q + [n + Widths(inputs)];
      && JoinRecord(c, log, x, kind, O.Outcome(kind, InputMeanings(c, w, q, n, inputs, fuel - 1), []))
      && (Closed(log, x) || InputsAgree(c, w, log, q, n, inputs, fuel - 1))
  }

  ghost predicate InputsAgree(c: Codec, w: World, log: Log, q: Id, n: nat, inputs: seq<Op>, fuel: nat)
    decreases fuel, 1, |inputs|
  {
    inputs == []
    || (OpAgrees(c, w, log, q, n, inputs[0], fuel)
      && InputsAgree(c, w, log, q, n + Width(inputs[0]), inputs[1..], fuel))
  }

  ghost predicate ProgAgrees(c: Codec, w: World, log: Log, q: Id, n: nat, p: Prog, fuel: nat)
    decreases fuel, 0
  {
    p.Do? && fuel > 0 ==>
      var m := OpMeaning(c, w, q, n, p.op, fuel - 1);
      && OpAgrees(c, w, log, q, n, p.op, fuel - 1)
      && (m.Some? ==> ProgAgrees(c, w, log, q, n + Width(p.op), p.k(m.value), fuel - 1))
  }

  /** The empty log agrees with every handler. */
  lemma {:induction false} EmptyAgrees(c: Codec, w: World, q: Id, n: nat, p: Prog, fuel: nat)
    ensures ProgAgrees(c, w, map[], q, n, p, fuel)
    decreases fuel, 0
  {
    if p.Do? && fuel > 0 {
      EmptyAgreesOp(c, w, q, n, p.op, fuel - 1);
      var m := OpMeaning(c, w, q, n, p.op, fuel - 1);
      if m.Some? { EmptyAgrees(c, w, q, n + Width(p.op), p.k(m.value), fuel - 1); }
    }
  }

  lemma {:induction false} EmptyAgreesOp(c: Codec, w: World, q: Id, n: nat, op: Op, fuel: nat)
    ensures OpAgrees(c, w, map[], q, n, op, fuel)
    decreases fuel, 0
  {
    hide O.Outcome, OpMeaning, InputMeanings, ProgMeaning;
    if fuel > 0 {
      match op
      case Leaf(source) =>
      case Child(body) => EmptyAgrees(c, w, q + [n], 1, body, fuel - 1);
      case Combine(kind, inputs) => EmptyAgreesInputs(c, w, q, n, inputs, fuel - 1);
    }
  }

  lemma {:induction false} EmptyAgreesInputs(c: Codec, w: World, q: Id, n: nat, inputs: seq<Op>, fuel: nat)
    ensures InputsAgree(c, w, map[], q, n, inputs, fuel)
    decreases fuel, 1, |inputs|
  {
    hide OpAgrees;
    if inputs != [] {
      EmptyAgreesOp(c, w, q, n, inputs[0], fuel);
      EmptyAgreesInputs(c, w, q, n + Width(inputs[0]), inputs[1..], fuel);
    }
  }

  // ----- Frames -----

  lemma AgreePart(a: Log, b: Log, q: Id, lo: nat, hi: nat, lo': nat, hi': nat)
    requires Agree(a, b, q, lo, hi) && lo <= lo' && hi' <= hi
    ensures Agree(a, b, q, lo', hi')
  {
  }

  lemma AgreeFromPart(a: Log, b: Log, q: Id, lo: nat, lo': nat)
    requires AgreeFrom(a, b, q, lo) && lo <= lo'
    ensures AgreeFrom(a, b, q, lo')
  {
    forall hi': nat ensures Agree(a, b, q, lo', hi') {
      assert Agree(a, b, q, lo, hi');
    }
  }

  lemma AgreeOwn(a: Log, b: Log, q: Id, lo: nat, hi: nat, n: nat)
    requires Agree(a, b, q, lo, hi) && lo <= n < hi
    ensures Closed(a, q + [n]) <==> Closed(b, q + [n])
    ensures Settled(a, q + [n]) <==> Settled(b, q + [n])
    ensures Settled(a, q + [n]) ==> a[q + [n]] == b[q + [n]]
  {
    assert (q + [n])[..|q|] == q;
    assert Within(q + [n], q, lo, hi);
  }

  lemma AgreeBelow(a: Log, b: Log, q: Id, lo: nat, hi: nat, n: nat)
    requires Agree(a, b, q, lo, hi) && lo <= n < hi
    ensures AgreeFrom(a, b, q + [n], 1)
  {
    forall hi': nat ensures Agree(a, b, q + [n], 1, hi') {
      forall id | Within(id, q + [n], 1, hi') ensures (id in a <==> id in b) && (id in a ==> a[id] == b[id]) {
        WithinChild(id, q, n, 1, hi');
        assert Within(id, q, lo, hi);
      }
    }
  }

  lemma RecordsFrame(c: Codec, a: Log, b: Log, x: Id)
    requires (Closed(a, x) <==> Closed(b, x)) && (Settled(a, x) <==> Settled(b, x)) && (Settled(a, x) ==> a[x] == b[x])
    ensures forall source, leaf :: LeafRecord(c, source, a, x, leaf) <==> LeafRecord(c, source, b, x, leaf)
    ensures forall r :: ChildRecord(c, a, x, r) <==> ChildRecord(c, b, x, r)
    ensures forall kind, j :: JoinRecord(c, a, x, kind, j) <==> JoinRecord(c, b, x, kind, j)
  {
    hide ReplayLeaf, ReplayChild, ReplayCombinator, ChildMeaning, JoinMeaning, Combined;
  }

  /** Agreement looks only at the positions that the operation mints. */
  lemma {:induction false} OpFrameAgrees(c: Codec, w: World, a: Log, b: Log, q: Id, n: nat, op: Op, fuel: nat)
    requires OpAgrees(c, w, a, q, n, op, fuel) && Agree(a, b, q, n, n + Width(op))
    ensures OpAgrees(c, w, b, q, n, op, fuel)
    decreases fuel, 2
  {
    hide Agree, LeafRecord, ChildRecord, JoinRecord, O.Outcome, OpMeaning, InputMeanings, ProgMeaning, Settled, Closed;
    if fuel > 0 {
      var at := n + Width(op) - 1;
      AgreeOwn(a, b, q, n, n + Width(op), at);
      RecordsFrame(c, a, b, q + [at]);
      match op
      case Leaf(source) =>
      case Child(body) =>
        AgreeBelow(a, b, q, n, n + 1, n);
        if !Closed(a, q + [n]) { ProgFrameAgrees(c, w, a, b, q + [n], 1, body, fuel - 1); }
      case Combine(kind, inputs) =>
        AgreePart(a, b, q, n, n + Width(op), n, n + Widths(inputs));
        if !Closed(a, q + [at]) { InputsFrameAgree(c, w, a, b, q, n, inputs, fuel - 1); }
    }
  }

  lemma {:induction false} InputsFrameAgree(
      c: Codec, w: World, a: Log, b: Log, q: Id, n: nat, inputs: seq<Op>, fuel: nat)
    requires InputsAgree(c, w, a, q, n, inputs, fuel) && Agree(a, b, q, n, n + Widths(inputs))
    ensures InputsAgree(c, w, b, q, n, inputs, fuel)
    decreases fuel, 3, |inputs|
  {
    hide Agree, OpAgrees;
    if inputs != [] {
      AgreePart(a, b, q, n, n + Widths(inputs), n, n + Width(inputs[0]));
      AgreePart(a, b, q, n, n + Widths(inputs), n + Width(inputs[0]), n + Widths(inputs));
      OpFrameAgrees(c, w, a, b, q, n, inputs[0], fuel);
      InputsFrameAgree(c, w, a, b, q, n + Width(inputs[0]), inputs[1..], fuel);
    }
  }

  lemma {:induction false} ProgFrameAgrees(c: Codec, w: World, a: Log, b: Log, q: Id, n: nat, p: Prog, fuel: nat)
    requires ProgAgrees(c, w, a, q, n, p, fuel) && AgreeFrom(a, b, q, n)
    ensures ProgAgrees(c, w, b, q, n, p, fuel)
    decreases fuel, 0
  {
    hide Agree, OpAgrees, OpMeaning;
    if p.Do? && fuel > 0 {
      var m := OpMeaning(c, w, q, n, p.op, fuel - 1);
      assert Agree(a, b, q, n, n + Width(p.op));
      OpFrameAgrees(c, w, a, b, q, n, p.op, fuel - 1);
      if m.Some? {
        AgreeFromPart(a, b, q, n, n + Width(p.op));
        ProgFrameAgrees(c, w, a, b, q, n + Width(p.op), p.k(m.value), fuel - 1);
      }
    }
  }
}
