/** An execution that completes, after any number of interrupted invocations, returns what one run that
    nothing interrupts returns in the same world, for some settle orders of its combinators. Races are
    no exception.
 */
module Uninterrupted {
  import opened Options
  import opened Records
  import opened Errors
  import opened Combinators
  import opened Handlers
  import opened Runs
  import opened Replay
  import opened CleanRuns
  import opened Meaning
  import opened Recovery
  import opened Oracles
  import opened OneRun
  import opened Completion
  import opened Decimals
  import O = SettleOrder

  // ----- A run that completed, without the interruptions in it -----

  /** Nothing stops the operation; its combinator, if it is one, settles in that order. */
  function Unstopped(ch: Choice, leaf: LeafOutcome, order: seq<nat>): Choice {
    ch.(start := true, end := true, leaf := Some(leaf), order := order)
  }

  function AllUnstopped(o: Oracle, w: World): Oracle {
    (x: Id) => Unstopped(o(x), w(x), o(x).order)
  }

  lemma AllUnstoppedFacts(o: Oracle, w: World)
    requires Follows(o, w)
    ensures Follows(AllUnstopped(o, w), w) && Persists(AllUnstopped(o, w))
  {
  }

  /** The choices of a, but for x, which nothing stops. */
  lemma AtUnstopped(a: Oracle, o: Oracle, w: World, x: Id, order: seq<nat>)
    requires Follows(a, w) && Persists(a) && Follows(o, w)
    ensures
      var o' := At(a, x, Unstopped(o(x), w(x), order));
      Follows(o', w) && Persists(o') && o'(x) == Unstopped(o(x), w(x), order)
  {
  }

  lemma PersistsMixed(a: Oracle, b: Oracle, q: Id, lo: nat, hi: nat)
    requires Persists(a) && Persists(b)
    ensures Persists(Mixed(a, b, q, lo, hi))
  {
  }

  lemma LeafFinishes(c: Codec, source: LeafKind, ch: Choice, log: Log, x: Id, leaf: LeafOutcome, next: nat)
    requires x !in log && RunLeaf(c, source, ch, log, x, next).result.Some? && (ch.leaf.Some? ==> ch.leaf.value == leaf)
    ensures RunLeaf(c, source, Unstopped(ch, leaf, ch.order), log, x, next).result
         == RunLeaf(c, source, ch, log, x, next).result
  {
    hide LeafResult, LeafAction;
  }

  lemma ChildFinishes(
      c: Codec, ch: Choice, log: Log, x: Id, leaf: LeafOutcome, b: Exec<UserResult>, b': Exec<UserResult>, next: nat)
    requires x !in log && ChildRun(c, ch, log, x, b, next).result.Some?
    requires b.result.Some? ==> b'.result == b.result
    ensures ChildRun(c, Unstopped(ch, leaf, ch.order), log, x, b', next).result
         == ChildRun(c, ch, log, x, b, next).result
  {
    hide ChildAction, ChildRepeats, Oversized;
  }

  lemma JoinFinishes(
      c: Codec, ch: Choice, x: Id, kind: CombinatorKind, leaf: LeafOutcome, ins: Inputs, ins': Inputs, order: seq<nat>,
      next: nat)
    requires ch.fatal.None? && x !in ins.log && JoinSettled(c, ch, x, kind, ins, next).result.Some?
    requires O.Outcome(kind, ins'.done, order) == O.Outcome(kind, ins.done, ch.order)
    ensures JoinSettled(c, Unstopped(ch, leaf, order), x, kind, ins', next).result
         == JoinSettled(c, ch, x, kind, ins, next).result
  {
    hide *;
    var go := Unstopped(ch, leaf, order);
    UnstoppedFacts(ch, leaf, order);
    JoinFlow(c, ch, x, kind, ins, next);
    JoinFlow(c, go, x, kind, ins', next);
  }

  lemma UnstoppedFacts(ch: Choice, leaf: LeafOutcome, order: seq<nat>)
    ensures Unstopped(ch, leaf, order) == ch.(start := true, end := true, leaf := Some(leaf), order := order)
  {
  }

  lemma FollowsLeaf(o: Oracle, w: World, x: Id)
    requires Follows(o, w)
    ensures o(x).leaf.Some? ==> o(x).leaf.value == w(x)
  {
  }

  /** An operation that completed in a run completes, with the same result, in a run that nothing
      interrupts. */
  lemma {:induction false} OpFinishes(c: Codec, w: World, o: Oracle, log: Log, q: Id, n: nat, op: Op, g: nat)
      returns (o': Oracle)
    requires Follows(o, w) && Fresh(log, q, n)
    ensures Follows(o', w) && Persists(o')
    ensures
      var e, e' := RunOp(c, o, log, q, n, op, g), RunOp(c, o', log, q, n, op, g);
      e.result.Some? ==> e'.result == e.result
    decreases g, 2
  {
    hide *;
    o' := AllUnstopped(o, w);
    AllUnstoppedFacts(o, w);
    if RunOp(c, o, log, q, n, op, g).result.Some? {
      FuelLeft(c, o, log, q, n, op, g);
      FollowsLeaf(o, w, q + [n]);
      match op
      case Leaf(source) =>
        var x := q + [n];
        FreshOwn(log, q, n, n);
        AtUnstopped(o', o, w, x, o(x).order);
        o' := At(o', x, Unstopped(o(x), w(x), o(x).order));
        LeafUnfolds(c, source, o, log, q, n, g);
        LeafUnfolds(c, source, o', log, q, n, g);
        LeafFinishes(c, source, o(x), log, x, w(x), n + 1);
      case Child(body) =>
        var x := q + [n];
        FreshOwn(log, q, n, n);
        FreshChild(log, q, n);
        var ob := ProgFinishes(c, w, o, Begun(log, x), x, 1, body, g - 1);
        AtUnstopped(ob, o, w, x, o(x).order);
        o' := At(ob, x, Unstopped(o(x), w(x), o(x).order));
        AtOwnFrom(ob, x, Unstopped(o(x), w(x), o(x).order));
        ProgSameRun(c, o', ob, Begun(log, x), x, 1, body, g - 1);
        ChildUnfolds(c, o, log, q, n, body, g);
        ChildUnfolds(c, o', log, q, n, body, g);
        ChildFinishes(c, o(x), log, x, w(x), RunProg(c, o, Begun(log, x), x, 1, body, g - 1),
                      RunProg(c, o', Begun(log, x), x, 1, body, g - 1), n + 1);
      case Combine(kind, inputs) => o' := CombineFinishes(c, w, o, log, q, n, kind, inputs, g);
    }
  }

  lemma {:induction false} CombineFinishes(
      c: Codec, w: World, o: Oracle, log: Log, q: Id, n: nat, kind: CombinatorKind, inputs: seq<Op>, g: nat)
      returns (o': Oracle)
    requires g > 0 && |inputs| <= USIZE_MAX && Follows(o, w) && Fresh(log, q, n)
    requires RunOp(c, o, log, q, n, Combine(kind, inputs), g).result.Some?
    ensures Follows(o', w) && Persists(o')
    ensures RunOp(c, o', log, q, n, Combine(kind, inputs), g).result
         == RunOp(c, o, log, q, n, Combine(kind, inputs), g).result
    decreases g, 1
  {
    hide *;
    var at := n + Widths(inputs);
    var x := q + [at];
    var ins := RunInputs(c, o, log, q, n, inputs, g - 1);
    LiveFresh(c, o, log, q, n, kind, inputs, g);
    FreshOwn(log, q, n, at);
    InputsFrame(c, o, log, q, n, inputs, g - 1);
    PositionUntouched(log, ins.log, q, n, at, at);
    FollowsAt(o, w, x);
    JoinDecides(c, o(x), x, kind, ins, at + 1);
    var oi := InputsFinish(c, w, o, log, q, n, inputs, g - 1);
    var order := O.DecidedStays(kind, ins.done, RunInputs(c, oi, log, q, n, inputs, g - 1).done, o(x).order);
    AtUnstopped(oi, o, w, x, order);
    o' := At(oi, x, Unstopped(o(x), w(x), order));
    AtElsewhere(oi, q, n, at, at, Unstopped(o(x), w(x), order));
    InputsSameRun(c, o', oi, log, q, n, inputs, g - 1);
    LiveFresh(c, o', log, q, n, kind, inputs, g);
    JoinFinishes(c, o(x), x, kind, w(x), ins, RunInputs(c, o', log, q, n, inputs, g - 1), order, at + 1);
  }

  lemma JoinDecides(c: Codec, ch: Choice, x: Id, kind: CombinatorKind, ins: Inputs, next: nat)
    requires JoinSettled(c, ch, x, kind, ins, next).result.Some?
    ensures O.Outcome(kind, ins.done, ch.order) != Waiting
  {
    hide O.Outcome, Combined, JoinAction, JoinResult, JoinRepeats;
  }

  lemma {:induction false} InputsFinish(
      c: Codec, w: World, o: Oracle, log: Log, q: Id, n: nat, inputs: seq<Op>, g: nat)
      returns (o': Oracle)
    requires Follows(o, w) && Fresh(log, q, n)
    ensures Follows(o', w) && Persists(o')
    ensures O.Part(RunInputs(c, o, log, q, n, inputs, g).done, RunInputs(c, o', log, q, n, inputs, g).done)
    decreases g, 3, |inputs|
  {
    hide *;
    if inputs == [] {
      o' := AllUnstopped(o, w);
      AllUnstoppedFacts(o, w);
      NoInputsRun(c, o, log, q, n, g);
      NoInputsRun(c, o', log, q, n, g);
      NoPart();
    } else {
      var next := n + Width(inputs[0]);
      var others := inputs[1..];
      var e := RunOp(c, o, log, q, n, inputs[0], g);
      WidthsStep(inputs, 0);
      InputsUnfold(c, o, log, q, n, inputs, g);
      OpFrame(c, o, log, q, n, inputs[0], g);
      FreshBeyond(log, e.log, q, n, next);
      var oa := OpFinishes(c, w, o, log, q, n, inputs[0], g);
      var ob := InputsFinish(c, w, o, e.log, q, next, others, g);
      o' := Mixed(oa, ob, q, n, next);
      FollowsMixed(oa, ob, w, q, n, next);
      PersistsMixed(oa, ob, q, n, next);
      OpSameRun(c, o', oa, log, q, n, inputs[0], g);
      InputsUnfold(c, o', log, q, n, inputs, g);
      var e' := RunOp(c, o', log, q, n, inputs[0], g);
      OpFrame(c, o', log, q, n, inputs[0], g);
      OutsideAgrees(log, e.log, q, n, next, next, next + Widths(others));
      OutsideAgrees(log, e'.log, q, n, next, next, next + Widths(others));
      AgreeChain(log, e'.log, e.log, q, next, next + Widths(others));
      SameFromPart(o', ob, q, next, next);
      InputsAlike(c, o', ob, e'.log, e.log, q, next, others, g, next, next + Widths(others));
      AlikeInputsFacts(RunInputs(c, o', e'.log, q, next, others, g), RunInputs(c, ob, e.log, q, next, others, g),
                       q, next, next + Widths(others));
      ConsPart(e.result, RunInputs(c, o, e.log, q, next, others, g).done,
               e'.result, RunInputs(c, o', e'.log, q, next, others, g).done);
    }
  }

  lemma NoPart()
    ensures O.Part([], [])
  {
  }

  lemma ConsPart(a: Option<OpResult>, rest: O.Done, a': Option<OpResult>, rest': O.Done)
    requires O.Part(rest, rest') && (a.Some? ==> a' == a)
    ensures O.Part([a] + rest, [a'] + rest')
  {
  }

  lemma {:induction false} ProgFinishes(c: Codec, w: World, o: Oracle, log: Log, q: Id, n: nat, p: Prog, g: nat)
      returns (o': Oracle)
    requires Follows(o, w) && Fresh(log, q, n)
    ensures Follows(o', w) && Persists(o')
    ensures
      var e, e' := RunProg(c, o, log, q, n, p, g), RunProg(c, o', log, q, n, p, g);
      e.result.Some? ==> e'.result == e.result
    decreases g, 0
  {
    hide *;
    o' := AllUnstopped(o, w);
    AllUnstoppedFacts(o, w);
    EndUnfolds(c, o, log, q, n, p, g);
    EndUnfolds(c, o', log, q, n, p, g);
    if p.Do? && RunProg(c, o, log, q, n, p, g).result.Some? {
      DoFuel(c, o, log, q, n, p, g);
      var next := n + Width(p.op);
      var e := RunOp(c, o, log, q, n, p.op, g - 1);
      var k := p.k(e.result.value);
      OneRun.DoParts(c, o, log, q, n, p, g);
      OpFrame(c, o, log, q, n, p.op, g - 1);
      FreshBeyond(log, e.log, q, n, next);
      var oa := OpFinishes(c, w, o, log, q, n, p.op, g - 1);
      var ob := ProgFinishes(c, w, o, e.log, q, next, k, g - 1);
      o' := Mixed(oa, ob, q, n, next);
      FollowsMixed(oa, ob, w, q, n, next);
      PersistsMixed(oa, ob, q, n, next);
      OpSameRun(c, o', oa, log, q, n, p.op, g - 1);
      var e' := RunOp(c, o', log, q, n, p.op, g - 1);
      OneRun.DoParts(c, o', log, q, n, p, g);
      OpFrame(c, o', log, q, n, p.op, g - 1);
      OutsideAgreesFrom(log, e.log, q, n, next);
      OutsideAgreesFrom(log, e'.log, q, n, next);
      AgreeChainFrom(log, e'.log, e.log, q, next);
      ProgAlike(c, o', ob, e'.log, e.log, q, next, k, g - 1, next);
      AlikeFromFacts(RunProg(c, o', e'.log, q, next, k, g - 1), RunProg(c, ob, e.log, q, next, k, g - 1), q, next);
    }
  }

  // ----- Whole executions -----

  /** In every run of the world, no child body fails with an error that records the type of a failed
      serialization, and every combinator result can be encoded. */
  ghost predicate CleanWorld(c: Codec, w: World, p: Prog, g: nat) {
    forall o: Oracle | Follows(o, w) :: ProgClean(c, o, map[], [], 1, p, g)
  }

  lemma CleanWorldAt(c: Codec, w: World, p: Prog, g: nat, o: Oracle)
    requires CleanWorld(c, w, p, g) && Follows(o, w)
    ensures ProgClean(c, o, map[], [], 1, p, g)
  {
  }

  lemma TrimmedChain(a: Log, b: Log, d: Log, q: Id, lo: nat, hi: nat)
    requires Trimmed(a, b, q, lo, hi) && Trimmed(b, d, q, lo, hi)
    ensures Trimmed(a, d, q, lo, hi)
  {
    forall id | id in a && Within(id, q, lo, hi) && Needed(a, q, id) ensures id in d {
      assert id in b;
      forall k | |q| < k < |id| ensures !Frees(b, id[..k]) {
        WithinAncestor(id, q, lo, hi, k);
        assert !Frees(a, id[..k]);
      }
      assert Needed(b, q, id);
    }
  }

  lemma TrimmedChainFrom(a: Log, b: Log, d: Log, q: Id, lo: nat)
    requires TrimmedFrom(a, b, q, lo) && TrimmedFrom(b, d, q, lo)
    ensures TrimmedFrom(a, d, q, lo)
  {
    forall hi: nat ensures Trimmed(a, d, q, lo, hi) {
      assert Trimmed(a, b, q, lo, hi) && Trimmed(b, d, q, lo, hi);
      TrimmedChain(a, b, d, q, lo, hi);
    }
  }

  /** What several invocations left in the log, one run leaves too, but for what the service dropped. */
  lemma {:induction false} InvocationsAreOne(
      c: Codec, w: World, oracles: seq<Oracle>, logs: seq<Log>, p: Prog, g: nat, i: nat)
      returns (o: Oracle)
    requires Stable(c) && CleanWorld(c, w, p, g) && Execution(c, oracles, logs, p, g) && 0 < i < |logs|
    requires forall i | 0 <= i < |oracles| :: Follows(oracles[i], w)
    ensures Follows(o, w)
    ensures TrimmedFrom(RunProg(c, o, map[], [], 1, p, g).log, logs[i], [], 1)
    ensures RunProg(c, o, map[], [], 1, p, g).result == RunProg(c, oracles[i - 1], logs[i - 1], [], 1, p, g).result
  {
    hide RunProg, Stable, CleanWorld, Follows, Pruned, TrimmedFrom, ProgClean, Fresh, MergedFrom;
    var second := RunProg(c, oracles[i - 1], logs[i - 1], [], 1, p, g);
    assert Pruned(second.log, logs[i - 1 + 1]);
    PrunedIsTrimmed(second.log, logs[i]);
    TrimmedFromPart(second.log, logs[i], [], 0, 1);
    if i == 1 {
      o := oracles[0];
    } else {
      var before := InvocationsAreOne(c, w, oracles, logs, p, g, i - 1);
      CleanWorldAt(c, w, p, g, before);
      EmptyIsFresh();
      o := ProgMerges(c, w, before, oracles[i - 1], map[], logs[i - 1], [], 1, p, g);
      var one := RunProg(c, o, map[], [], 1, p, g);
      MergedFromFacts(RunProg(c, before, map[], [], 1, p, g), second, one, [], 1);
      TrimmedChainFrom(one.log, second.log, logs[i], [], 1);
    }
  }

  /** An invocation that completes, after any number of interrupted ones and whatever the service dropped
      between them, returns what some run that nothing interrupts returns, from an empty log and with the
      same outcomes of all leaves. The two may differ only in what the handler cannot choose: the
      settle orders of combinators, and what the serdes writes. And from any point the execution can be
      at, an invocation that nothing interrupts completes, if the handler ends within the bound. */
  lemma InterruptedRunsAreOneRun(
      c: Codec, w: World, oracles: seq<Oracle>, logs: seq<Log>, last: Oracle, p: Prog, g: nat)
      returns (uninterrupted: Oracle)
    requires Stable(c) && CleanWorld(c, w, p, g) && Execution(c, oracles, logs, p, g)
    requires (forall i | 0 <= i < |oracles| :: Follows(oracles[i], w)) && Follows(last, w)
    ensures Follows(uninterrupted, w) && Persists(uninterrupted)
    ensures
      var e := RunProg(c, last, logs[|oracles|], [], 1, p, g);
      && (e.result.Some? ==> RunProg(c, uninterrupted, map[], [], 1, p, g).result == e.result)
      && (Persists(last) && ProgEnds(p, g) ==> e.result.Some?)
  {
    hide RunProg, Stable, CleanWorld, Follows, Persists, Pruned, ProgClean, ProgEnds, Fresh, MergedFrom, TrimmedFrom;
    var one := last;
    EmptyIsFresh();
    if |oracles| > 0 {
      var before := InvocationsAreOne(c, w, oracles, logs, p, g, |oracles|);
      CleanWorldAt(c, w, p, g, before);
      one := ProgMerges(c, w, before, last, map[], logs[|oracles|], [], 1, p, g);
      MergedFromFacts(RunProg(c, before, map[], [], 1, p, g), RunProg(c, last, logs[|oracles|], [], 1, p, g),
                      RunProg(c, one, map[], [], 1, p, g), [], 1);
    }
    uninterrupted := ProgFinishes(c, w, one, map[], [], 1, p, g);
    if Persists(last) && ProgEnds(p, g) { ProgCompletes(c, last, logs[|oracles|], [], 1, p, g); }
  }
}
