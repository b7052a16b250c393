/** A combinator result that cannot be serialized: the handler gets an error, and nothing is
    recorded. When a later invocation repeats the error, and when it returns something else.
 */
module Unserialized {
  import opened Options
  import opened Records
  import opened Errors
  import opened Combinators
  import opened Handlers
  import opened Runs
  import opened Replay
  import opened Oracles
  import opened Decimals
  import F = CombinatorFailures
  import O = SettleOrder

  const ERROR := Unrecorded(CombinatorInternal, UNSERIALIZED)

  /** The invocation does not complete the combinator, or the combinator returns that error. */
  predicate Repeats(r: Option<OpResult>) {
    r.None? || r.value == Err(ERROR)
  }

  predicate EndsUnencoded(c: Codec, x: Id, kind: CombinatorKind, done: O.Done, order: seq<nat>, salt: nat) {
    var j := O.Outcome(kind, done, order);
    j.Waiting? || (!j.Failure? && c.encode(x, Combined(j, c.text), salt).None?)
  }

  /** In whatever order the completed inputs settle, and whatever the serdes does, the combinator goes on
      waiting or decides on a value that is not encoded. */
  ghost predicate NeverEncoded(c: Codec, x: Id, kind: CombinatorKind, done: O.Done) {
    forall order: seq<nat>, salt: nat :: EndsUnencoded(c, x, kind, done, order, salt)
  }

  // ----- One later invocation -----

  lemma TextsDiffer()
    ensures UNSERIALIZED != "deserialize result"
  {
    assert UNSERIALIZED[0] == 's' && "deserialize result"[0] == 'd';
  }

  /** With these completed inputs, a combinator without an outcome returns the error or nothing. */
  lemma NeverEncodedRepeats(c: Codec, ch: Choice, x: Id, kind: CombinatorKind, ins: Inputs, next: nat)
    requires ch.fatal.None? && EndsUnencoded(c, x, kind, ins.done, ch.order, ch.salt)
    ensures Repeats(JoinSettled(c, ch, x, kind, ins, next).result)
  {
    hide O.Outcome, Combined, JoinAction, JoinResult, JoinRepeats;
  }

  /** Otherwise some choice makes it return something else. */
  lemma EncodedReturns(
      c: Codec, ch: Choice, x: Id, kind: CombinatorKind, ins: Inputs, next: nat)
    requires ch.start && ch.end && ch.fatal.None? && !EndsUnencoded(c, x, kind, ins.done, ch.order, ch.salt)
    ensures !Repeats(JoinSettled(c, ch, x, kind, ins, next).result)
  {
    TextsDiffer();
    hide O.Outcome, Combined, JoinAction, JoinRepeats, F.FailureWire;
  }

  /** The combinator's own choice does not change what its inputs do. */
  lemma OwnChoice(
      c: Codec, o: Oracle, ch: Choice, later: Log, q: Id, n: nat, kind: CombinatorKind, inputs: seq<Op>, fuel: nat)
    requires 0 < fuel && |inputs| <= USIZE_MAX && !Settled(later, q + [n + Widths(inputs)])
    ensures
      var at := n + Widths(inputs);
      var x := q + [at];
      RunOp(c, At(o, x, ch), later, q, n, Combine(kind, inputs), fuel)
      == JoinSettled(c, ch, x, kind, RunInputs(c, o, later, q, n, inputs, fuel - 1), at + 1)
  {
    hide *;
    var at := n + Widths(inputs);
    AtElsewhere(o, q, n, at, at, ch);
    AtItself(o, q + [at], ch);
    InputsSameRun(c, At(o, q + [at], ch), o, later, q, n, inputs, fuel - 1);
    LiveUnfolds(c, At(o, q + [at], ch), later, q, n, kind, inputs, fuel);
  }

  /** A later invocation in which these inputs complete repeats the error, whatever else is chosen for
      the combinator itself, if and only if they can never be encoded. */
  lemma RepeatsExactlyWhen(
      c: Codec, o: Oracle, later: Log, q: Id, n: nat, kind: CombinatorKind, inputs: seq<Op>, fuel: nat)
    requires 0 < fuel && |inputs| <= USIZE_MAX && !Settled(later, q + [n + Widths(inputs)])
    ensures
      var x := q + [n + Widths(inputs)];
      (forall ch: Choice | ch.fatal.None? ::
         Repeats(RunOp(c, At(o, x, ch), later, q, n, Combine(kind, inputs), fuel).result))
      <==> NeverEncoded(c, x, kind, RunInputs(c, o, later, q, n, inputs, fuel - 1).done)
  {
    hide *;
    var at := n + Widths(inputs);
    var x := q + [at];
    var ins := RunInputs(c, o, later, q, n, inputs, fuel - 1);
    if NeverEncoded(c, x, kind, ins.done) {
      forall ch: Choice | ch.fatal.None?
        ensures Repeats(RunOp(c, At(o, x, ch), later, q, n, Combine(kind, inputs), fuel).result)
      {
        OwnChoice(c, o, ch, later, q, n, kind, inputs, fuel);
        NeverEncodedAt(c, x, kind, ins.done, ch.order, ch.salt);
        NeverEncodedRepeats(c, ch, x, kind, ins, at + 1);
      }
    } else {
      var order, salt := SomeEncoded(c, x, kind, ins.done);
      var ch := Choice(true, true, salt, false, "", order, None, None);
      OwnChoice(c, o, ch, later, q, n, kind, inputs, fuel);
      EncodedReturns(c, ch, x, kind, ins, at + 1);
      assert !Repeats(RunOp(c, At(o, x, ch), later, q, n, Combine(kind, inputs), fuel).result);
    }
  }

  lemma SomeEncoded(c: Codec, x: Id, kind: CombinatorKind, done: O.Done) returns (order: seq<nat>, salt: nat)
    requires !NeverEncoded(c, x, kind, done)
    ensures !EndsUnencoded(c, x, kind, done, order, salt)
  {
    hide EndsUnencoded;
    order, salt :| !EndsUnencoded(c, x, kind, done, order, salt);
  }

  // ----- Every later invocation -----

  /** The inputs that completed, and that their records determine, complete again with the same results,
      beside whatever the others do. */
  lemma {:induction false} CompletedInputsStay(
      c: Codec, o: Oracle, log: Log, q: Id, n: nat, inputs: seq<Op>, fuel: nat, o': Oracle, later: Log, fuel': nat)
    requires fuel <= fuel'
    requires
      var ins := RunInputs(c, o, log, q, n, inputs, fuel);
      && (forall i | 0 <= i < |ins.done| && ins.done[i].Some? :: ins.repeatable[i])
      && Keeps(ins.log, later, q, n, n + Widths(inputs))
    ensures O.Part(RunInputs(c, o, log, q, n, inputs, fuel).done, RunInputs(c, o', later, q, n, inputs, fuel').done)
    decreases |inputs|, 1
  {
    if inputs != [] { FirstInputStays(c, o, log, q, n, inputs, fuel, o', later, fuel'); }
  }

  lemma {:induction false} FirstInputStays(
      c: Codec, o: Oracle, log: Log, q: Id, n: nat, inputs: seq<Op>, fuel: nat, o': Oracle, later: Log, fuel': nat)
    requires fuel <= fuel' && inputs != []
    requires
      var ins := RunInputs(c, o, log, q, n, inputs, fuel);
      && (forall i | 0 <= i < |ins.done| && ins.done[i].Some? :: ins.repeatable[i])
      && Keeps(ins.log, later, q, n, n + Widths(inputs))
    ensures O.Part(RunInputs(c, o, log, q, n, inputs, fuel).done, RunInputs(c, o', later, q, n, inputs, fuel').done)
    decreases |inputs|, 0
  {
    hide *;
    var e := RunOp(c, o, log, q, n, inputs[0], fuel);
    var rest := RunInputs(c, o, e.log, q, e.next, inputs[1..], fuel);
    var ins := RunInputs(c, o, log, q, n, inputs, fuel);
    var e' := RunOp(c, o', later, q, n, inputs[0], fuel');
    var rest' := RunInputs(c, o', e'.log, q, e'.next, inputs[1..], fuel');
    InputsUnfold(c, o, log, q, n, inputs, fuel);
    InputsUnfold(c, o', later, q, n, inputs, fuel');
    WidthsStep(inputs, 0);
    forall i | 0 <= i < |rest.done| && rest.done[i].Some? ensures rest.repeatable[i] {
      assert rest.done[i] == ins.done[i + 1] && rest.repeatable[i] == ins.repeatable[i + 1];
    }
    FirstKept(c, o, log, q, n, inputs, fuel, later);
    if e.result.Some? {
      assert ins.done[0].Some? && ins.repeatable[0];
      OpReplays(c, o, log, q, n, inputs[0], fuel, o', later, fuel');
      ReplayedFacts(e, later);
    }
    OpFrame(c, o', later, q, n, inputs[0], fuel');
    KeepsPart(ins.log, later, q, n, n + Widths(inputs), e.next, n + Widths(inputs));
    OutsideAgrees(later, e'.log, q, n, e.next, e.next, n + Widths(inputs));
    KeepsLater(rest.log, later, e'.log, q, e.next, n + Widths(inputs));
    CompletedInputsStay(c, o, e.log, q, e.next, inputs[1..], fuel, o', e'.log, fuel');
    PartCons(e.result, rest.done, e'.result, rest'.done);
  }

  lemma KeepsLater(log: Log, later: Log, later': Log, q: Id, lo: nat, hi: nat)
    requires Keeps(log, later, q, lo, hi) && Agree(later, later', q, lo, hi)
    ensures Keeps(log, later', q, lo, hi)
  {
  }

  lemma PartCons(a: Option<OpResult>, rest: O.Done, a': Option<OpResult>, rest': O.Done)
    requires O.Part(rest, rest') && (a.Some? ==> a == a')
    ensures O.Part([a] + rest, [a'] + rest')
  {
  }

  /** The run of a live combinator that returned the error: its inputs, and what their records need. */
  lemma ErrorInputs(
      c: Codec, o: Oracle, log: Log, q: Id, n: nat, kind: CombinatorKind, inputs: seq<Op>, fuel: nat, later: Log)
    requires 0 < fuel && |inputs| <= USIZE_MAX && !Settled(log, q + [n + Widths(inputs)])
    requires
      Keeps(RunOp(c, o, log, q, n, Combine(kind, inputs), fuel).log, later, q, n, n + Widths(inputs) + 1)
    ensures Keeps(RunInputs(c, o, log, q, n, inputs, fuel - 1).log, later, q, n, n + Widths(inputs))
  {
    hide *;
    var at := n + Widths(inputs);
    var x := q + [at];
    var ins := RunInputs(c, o, log, q, n, inputs, fuel - 1);
    var e := RunOp(c, o, log, q, n, Combine(kind, inputs), fuel);
    LiveUnfolds(c, o, log, q, n, kind, inputs, fuel);
    JoinLog(c, o(x), x, kind, ins, at + 1);
    OwnBeyond(ins.log, e.log, q, n, at);
    KeepsPart(e.log, later, q, n, at + 1, n, at);
    KeepsFrame(ins.log, e.log, later, q, n, at);
  }

  /** A live combinator all of whose inputs completed, and that their records determine, returned the
      error. Every later invocation that completes it returns the error again if and only if no settle
      order of the inputs and no behaviour of the serdes ends in a failure or in an encoded value. */
  lemma ErrorRepeatsExactlyWhen(
      c: Codec, o: Oracle, log: Log, q: Id, n: nat, kind: CombinatorKind, inputs: seq<Op>, fuel: nat,
      later: Log, fuel': nat)
    requires 0 < fuel <= fuel' && |inputs| <= USIZE_MAX
    requires !Settled(log, q + [n + Widths(inputs)]) && !Settled(later, q + [n + Widths(inputs)])
    requires
      var e := RunOp(c, o, log, q, n, Combine(kind, inputs), fuel);
      e.result == Some(Err(ERROR)) && Keeps(e.log, later, q, n, n + Widths(inputs) + 1)
    requires AllRepeat(RunInputs(c, o, log, q, n, inputs, fuel - 1))
    ensures
      var x := q + [n + Widths(inputs)];
      (forall o': Oracle | o'(x).fatal.None? ::
         Repeats(RunOp(c, o', later, q, n, Combine(kind, inputs), fuel').result))
      <==> NeverEncoded(c, x, kind, RunInputs(c, o, log, q, n, inputs, fuel - 1).done)
  {
    hide *;
    var at := n + Widths(inputs);
    var x := q + [at];
    var ins := RunInputs(c, o, log, q, n, inputs, fuel - 1);
    ErrorInputs(c, o, log, q, n, kind, inputs, fuel, later);
    ReplayedInputsFacts(ins, later);
    if NeverEncoded(c, x, kind, ins.done) {
      forall o': Oracle | o'(x).fatal.None?
        ensures Repeats(RunOp(c, o', later, q, n, Combine(kind, inputs), fuel').result)
      {
        InputsReplay(c, o, log, q, n, inputs, fuel - 1, o', later, fuel' - 1);
        LiveUnfolds(c, o', later, q, n, kind, inputs, fuel');
        NeverEncodedAt(c, x, kind, ins.done, o'(x).order, o'(x).salt);
        NeverEncodedRepeats(c, o'(x), x, kind, RunInputs(c, o', later, q, n, inputs, fuel' - 1), at + 1);
      }
    } else {
      InputsReplay(c, o, log, q, n, inputs, fuel - 1, o, later, fuel' - 1);
      RepeatsExactlyWhen(c, o, later, q, n, kind, inputs, fuel');
      var ch: Choice :| ch.fatal.None?
        && !Repeats(RunOp(c, At(o, x, ch), later, q, n, Combine(kind, inputs), fuel').result);
      AtItself(o, x, ch);
    }
  }

  lemma NeverEncodedAt(c: Codec, x: Id, kind: CombinatorKind, done: O.Done, order: seq<nat>, salt: nat)
    requires NeverEncoded(c, x, kind, done)
    ensures EndsUnencoded(c, x, kind, done, order, salt)
  {
  }

  lemma AtItself(o: Oracle, x: Id, ch: Choice)
    ensures At(o, x, ch)(x) == ch
  {
  }

  lemma ReplayedInputsFacts(ins: Inputs, later: Log)
    ensures ReplayedInputs(ins, later).done == ins.done
  {
  }

  /** When inputs were still running, the completed ones complete again, perhaps with others. Each later
      invocation repeats the error, for every choice made for the combinator, if and only if what
      completed in it can never be encoded. */
  lemma ErrorInLaterInvocation(
      c: Codec, o: Oracle, log: Log, q: Id, n: nat, kind: CombinatorKind, inputs: seq<Op>, fuel: nat,
      o': Oracle, later: Log, fuel': nat)
    requires 0 < fuel <= fuel' && |inputs| <= USIZE_MAX
    requires !Settled(log, q + [n + Widths(inputs)]) && !Settled(later, q + [n + Widths(inputs)])
    requires
      var e := RunOp(c, o, log, q, n, Combine(kind, inputs), fuel);
      e.result == Some(Err(ERROR)) && Keeps(e.log, later, q, n, n + Widths(inputs) + 1)
    requires
      var ins := RunInputs(c, o, log, q, n, inputs, fuel - 1);
      forall i | 0 <= i < |ins.done| && ins.done[i].Some? :: ins.repeatable[i]
    ensures
      var x := q + [n + Widths(inputs)];
      var done := RunInputs(c, o', later, q, n, inputs, fuel' - 1).done;
      && O.Part(RunInputs(c, o, log, q, n, inputs, fuel - 1).done, done)
      && ((forall ch: Choice | ch.fatal.None? ::
             Repeats(RunOp(c, At(o', x, ch), later, q, n, Combine(kind, inputs), fuel').result))
          <==> NeverEncoded(c, x, kind, done))
  {
    hide *;
    ErrorInputs(c, o, log, q, n, kind, inputs, fuel, later);
    CompletedInputsStay(c, o, log, q, n, inputs, fuel - 1, o', later, fuel' - 1);
    RepeatsExactlyWhen(c, o', later, q, n, kind, inputs, fuel');
  }

  /** A combinator with one outcome for all settle orders repeats the error exactly when its one value
      can never be encoded. */
  lemma OneValueNeverEncoded(c: Codec, x: Id, kind: CombinatorKind, done: O.Done)
    requires O.OrderFree(kind, done)
    requires
      var j := O.Outcome(kind, done, []);
      !j.Waiting? && !j.Failure?
    ensures NeverEncoded(c, x, kind, done)
       <==> forall salt: nat :: c.encode(x, Combined(O.Outcome(kind, done, []), c.text), salt).None?
  {
    assert O.Part(done, done);
    hide O.Outcome, Combined;
    var v := Combined(O.Outcome(kind, done, []), c.text);
    if NeverEncoded(c, x, kind, done) {
      forall salt: nat ensures c.encode(x, v, salt).None? {
        assert EndsUnencoded(c, x, kind, done, [], salt);
      }
    }
  }

  // ----- Inputs on which the handler sees something else -----

  /** Two steps that complete. */
  lemma {:induction false} TwoLeaves(c: Codec, o: Oracle, a: LeafOutcome, b: LeafOutcome)
    requires o([1]).start && o([1]).end && o([1]).leaf == Some(a)
    requires o([2]).start && o([2]).end && o([2]).leaf == Some(b)
    ensures
      var ins := RunInputs(c, o, map[], [], 1, [Leaf(StepLeaf), Leaf(StepLeaf)], 1);
      && ins.done == [Some(LeafResult(c, StepLeaf, [1], a)), Some(LeafResult(c, StepLeaf, [2], b))] && AllRepeat(ins)
      && [3] !in ins.log && Widths([Leaf(StepLeaf), Leaf(StepLeaf)]) == 2
  {
    hide *;
    var inputs := [Leaf(StepLeaf), Leaf(StepLeaf)];
    assert inputs[1..] == [Leaf(StepLeaf)] && inputs[1..][1..] == [];
    assert [] + [1] == [1] && [] + [2] == [2] && [] + [3] == [3];
    WidthsStep(inputs, 0);
    WidthsStep(inputs[1..], 0);
    WidthFacts(Leaf(StepLeaf));
    NoWidth();
    var e := RunOp(c, o, map[], [], 1, Leaf(StepLeaf), 1);
    InputsUnfold(c, o, map[], [], 1, inputs, 1);
    LeafUnfolds(c, StepLeaf, o, map[], [], 1, 1);
    LeafCompletes(c, StepLeaf, o([1]), map[], [1], a, 2);
    InputsUnfold(c, o, e.log, [], 2, inputs[1..], 1);
    LeafUnfolds(c, StepLeaf, o, e.log, [], 2, 1);
    LeafLeavesOthers(c, StepLeaf, o([1]), map[], [1], 2);
    LeafCompletes(c, StepLeaf, o([2]), e.log, [2], b, 3);
    LeafLeavesOthers(c, StepLeaf, o([2]), e.log, [2], 3);
    var e2 := RunOp(c, o, e.log, [], 2, Leaf(StepLeaf), 1);
    NoInputsRun(c, o, e2.log, [], 3, 1);
    AllRepeatTwo(RunInputs(c, o, map[], [], 1, inputs, 1));
  }

  lemma LeafCompletes(c: Codec, source: LeafKind, ch: Choice, log: Log, x: Id, leaf: LeafOutcome, next: nat)
    requires x !in log && ch.start && ch.end && ch.leaf == Some(leaf)
    ensures
      var e := RunLeaf(c, source, ch, log, x, next);
      e.result == Some(LeafResult(c, source, x, leaf)) && e.repeatable
  {
    hide LeafResult, LeafAction;
  }

  lemma LeafLeavesOthers(c: Codec, source: LeafKind, ch: Choice, log: Log, x: Id, next: nat)
    ensures forall id | id != x :: id in RunLeaf(c, source, ch, log, x, next).log <==> id in log
  {
    hide LeafResult, LeafAction, ReplayLeaf;
  }

  lemma AllRepeatTwo(ins: Inputs)
    requires |ins.done| == 2 && ins.done[0].Some? && ins.done[1].Some? && ins.repeatable == [true, true]
    ensures AllRepeat(ins)
  {
  }

  lemma NoWidth()
    ensures Widths([]) == 0
  {
  }

  lemma EmptyUnsettled(x: Id)
    ensures !Settled(map[], x)
  {
  }

  /** Two invocations of a combinator over two steps that complete in the first of them. */
  lemma {:induction false} BothLeaves(
      c: Codec, o: Oracle, o': Oracle, kind: CombinatorKind, a: LeafOutcome, b: LeafOutcome)
    requires o([1]).start && o([1]).end && o([1]).leaf == Some(a)
    requires o([2]).start && o([2]).end && o([2]).leaf == Some(b)
    ensures
      var both := Combine(kind, [Leaf(StepLeaf), Leaf(StepLeaf)]);
      var ins := RunInputs(c, o, map[], [], 1, [Leaf(StepLeaf), Leaf(StepLeaf)], 1);
      var first := RunOp(c, o, map[], [], 1, both, 2);
      && ins.done == [Some(LeafResult(c, StepLeaf, [1], a)), Some(LeafResult(c, StepLeaf, [2], b))] && [3] !in ins.log
      && first == JoinSettled(c, o([3]), [3], kind, ins, 4)
      && (!Settled(first.log, [3]) ==>
            RunOp(c, o', first.log, [], 1, both, 2)
            == JoinSettled(c, o'([3]), [3], kind, ReplayedInputs(ins, first.log), 4))
  {
    assert 2 <= USIZE_MAX;
    hide *;
    assert [] + [3] == [3];
    TwoLeaves(c, o, a, b);
    EmptyUnsettled([3]);
    RunsTwice(c, o, o', [], 1, kind, [Leaf(StepLeaf), Leaf(StepLeaf)], 2, map[]);
  }

  lemma NotEncoded(c: Codec, ch: Choice, x: Id, kind: CombinatorKind, ins: Inputs, next: nat, j: Joined)
    requires j == O.Outcome(kind, ins.done, ch.order) && (j.Values? || j.Results? || j.Winner?) && x !in ins.log
    requires c.encode(x, Combined(j, c.text), ch.salt).None?
    ensures
      var e := JoinSettled(c, ch, x, kind, ins, next);
      e.result == Some(Err(ERROR)) && !Settled(e.log, x)
  {
    hide O.Outcome, Combined, JoinAction, JoinResult, JoinRepeats;
  }

  lemma Encoded(
      c: Codec, ch: Choice, x: Id, kind: CombinatorKind, ins: Inputs, next: nat, j: Joined, payload: string, w: Value)
    requires j == O.Outcome(kind, ins.done, ch.order) && (j.Values? || j.Results? || j.Winner?)
    requires ch.start && ch.end && ch.fatal.None? && c.encode(x, Combined(j, c.text), ch.salt) == Some(payload)
    requires c.decode(x, payload) == Some(w)
    ensures JoinSettled(c, ch, x, kind, ins, next).result == Some(Ok(w))
  {
    hide O.Outcome, Combined, JoinAction, JoinRepeats;
  }

  /** A race of two steps whose winner cannot be encoded returns the error. In the next invocation, from
      the log that this one left, the other input settles first, and the handler gets its value. */
  lemma {:induction false} UnserializedWinnerIsForgotten(
      c: Codec, o: Oracle, o': Oracle, a: LeafOutcome, b: LeafOutcome, v: Value, u: Value, payload: string, w: Value)
    requires o([1]).start && o([1]).end && o([1]).leaf == Some(a) && LeafResult(c, StepLeaf, [1], a) == Ok(v)
    requires o([2]).start && o([2]).end && o([2]).leaf == Some(b) && LeafResult(c, StepLeaf, [2], b) == Ok(u)
    requires o([3]).order == [0] && c.encode([3], v, o([3]).salt).None?
    requires o'([3]).order == [1] && c.encode([3], u, o'([3]).salt) == Some(payload)
    requires c.decode([3], payload) == Some(w)
    requires o'([3]).start && o'([3]).end && o'([3]).fatal.None?
    ensures
      var race := Combine(Race, [Leaf(StepLeaf), Leaf(StepLeaf)]);
      var first := RunOp(c, o, map[], [], 1, race, 2);
      var second := RunOp(c, o', first.log, [], 1, race, 2);
      first.result == Some(Err(ERROR)) && second.result == Some(Ok(w))
  {
    var done := [Some(Ok(v)), Some(Ok(u))];
    TwoLeaves(c, o, a, b);
    O.PossibleWinners(Race, done, 0, v);
    O.PossibleWinners(Race, done, 1, u);
    BothLeaves(c, o, o', Race, a, b);
    assert Combined(Winner(0, v), c.text) == v && Combined(Winner(1, u), c.text) == u;
    hide *;
    var ins := RunInputs(c, o, map[], [], 1, [Leaf(StepLeaf), Leaf(StepLeaf)], 1);
    var first := RunOp(c, o, map[], [], 1, Combine(Race, [Leaf(StepLeaf), Leaf(StepLeaf)]), 2);
    NotEncoded(c, o([3]), [3], Race, ins, 4, Winner(0, v));
    ReplayedInputsFacts(ins, first.log);
    Encoded(c, o'([3]), [3], Race, ReplayedInputs(ins, first.log), 4, Winner(1, u), payload, w);
  }

  /** Two invocations of a combinator whose inputs the first of them completed: both decide over the same
      results, the second from the log that the first left, unless it left an outcome. */
  lemma {:induction false} RunsTwice(
      c: Codec, o: Oracle, o': Oracle, q: Id, n: nat, kind: CombinatorKind, inputs: seq<Op>, fuel: nat, log: Log)
    requires 0 < fuel && |inputs| <= USIZE_MAX && AllRepeat(RunInputs(c, o, log, q, n, inputs, fuel - 1))
    requires !Settled(log, q + [n + Widths(inputs)])
    ensures
      var x := q + [n + Widths(inputs)];
      var ins := RunInputs(c, o, log, q, n, inputs, fuel - 1);
      var first := RunOp(c, o, log, q, n, Combine(kind, inputs), fuel);
      && first == JoinSettled(c, o(x), x, kind, ins, n + Widths(inputs) + 1)
      && (!Settled(first.log, x) ==>
            RunOp(c, o', first.log, q, n, Combine(kind, inputs), fuel)
            == JoinSettled(c, o'(x), x, kind, ReplayedInputs(ins, first.log), n + Widths(inputs) + 1))
  {
    hide *;
    var x := q + [n + Widths(inputs)];
    var ins := RunInputs(c, o, log, q, n, inputs, fuel - 1);
    var first := RunOp(c, o, log, q, n, Combine(kind, inputs), fuel);
    LiveUnfolds(c, o, log, q, n, kind, inputs, fuel);
    if !Settled(first.log, x) {
      KeepsItself(first.log, q, n, n + Widths(inputs) + 1);
      ErrorInputs(c, o, log, q, n, kind, inputs, fuel, first.log);
      InputsReplay(c, o, log, q, n, inputs, fuel - 1, o', first.log, fuel - 1);
      LiveUnfolds(c, o', first.log, q, n, kind, inputs, fuel);
    }
  }

  lemma KeepsItself(log: Log, q: Id, lo: nat, hi: nat)
    ensures Keeps(log, log, q, lo, hi)
  {
  }

  /** It is not the settle order alone: a join_all of two steps returns the error when its collection
      cannot be encoded, and the collection in the next invocation, when it can. */
  lemma {:induction false} UnserializedCollectionIsForgotten(
      c: Codec, o: Oracle, salt: nat, a: LeafOutcome, b: LeafOutcome, payload: string, w: Value)
    requires o([1]).start && o([1]).end && o([1]).leaf == Some(a)
    requires o([2]).start && o([2]).end && o([2]).leaf == Some(b)
    requires o([3]).start && o([3]).end && o([3]).fatal.None?
    requires
      var v := Outcomes(Items([LeafResult(c, StepLeaf, [1], a), LeafResult(c, StepLeaf, [2], b)], c.text));
      && c.encode([3], v, o([3]).salt).None?
      && c.encode([3], v, salt) == Some(payload) && c.decode([3], payload) == Some(w)
    ensures
      var both := Combine(JoinAll, [Leaf(StepLeaf), Leaf(StepLeaf)]);
      var first := RunOp(c, o, map[], [], 1, both, 2);
      var second := RunOp(c, At(o, [3], o([3]).(salt := salt)), first.log, [], 1, both, 2);
      first.result == Some(Err(ERROR)) && second.result == Some(Ok(w))
  {
    var r0, r1 := LeafResult(c, StepLeaf, [1], a), LeafResult(c, StepLeaf, [2], b);
    var done := [Some(r0), Some(r1)];
    TwoLeaves(c, o, a, b);
    O.JoinAllIsOrderFree(done);
    assert O.Part(done, done) && ResultsOf(done) == [r0, r1];
    AllSettledJoins(done, o([3]).order);
    var o' := At(o, [3], o([3]).(salt := salt));
    AtItself(o, [3], o([3]).(salt := salt));
    BothLeaves(c, o, o', JoinAll, a, b);
    assert Combined(Results([r0, r1]), c.text) == Outcomes(Items([r0, r1], c.text));
    hide *;
    var ins := RunInputs(c, o, map[], [], 1, [Leaf(StepLeaf), Leaf(StepLeaf)], 1);
    var first := RunOp(c, o, map[], [], 1, Combine(JoinAll, [Leaf(StepLeaf), Leaf(StepLeaf)]), 2);
    NotEncoded(c, o([3]), [3], JoinAll, ins, 4, Results([r0, r1]));
    ReplayedInputsFacts(ins, first.log);
    Encoded(c, o'([3]), [3], JoinAll, ReplayedInputs(ins, first.log), 4, Results([r0, r1]), payload, w);
  }

  lemma AllSettledJoins(done: O.Done, order: seq<nat>)
    requires AllSettled(done)
    ensures O.Outcome(JoinAll, done, order) == Results(ResultsOf(done))
  {
    O.SettlesEnumerates(done, order);
    O.SlotsOfEnumeration(Settles(done, order), done);
  }
}
