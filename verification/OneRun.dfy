/** An execution of several invocations does what one invocation could have done: whatever interrupted
    the earlier ones, and whatever the service dropped in between, the invocation that completes returns
    what a single run of the handler returns in the same world.
 */
module OneRun {
  import opened Options
  import opened Records
  import opened Errors
  import opened Combinators
  import opened Handlers
  import opened Runs
  import opened Replay
  import opened CleanRuns
  import opened Meaning
  import opened Recovery
  import opened Oracles
  import opened Decimals
  import F = CombinatorFailures
  import O = SettleOrder

  /** A second run, after a first one of the same operation, and one run that does the same at once: it
      leaves what the second one left, and what was dropped after the first. */
  ghost predicate Merged<R>(first: Exec<R>, second: Exec<R>, one: Exec<R>, q: Id, lo: nat, hi: nat) {
    && one.result == second.result
    && (first.result.Some? ==> second.result == first.result)
    && Trimmed(one.log, second.log, q, lo, hi)
  }

  ghost predicate MergedFrom<R>(first: Exec<R>, second: Exec<R>, one: Exec<R>, q: Id, lo: nat) {
    && one.result == second.result
    && (first.result.Some? ==> second.result == first.result)
    && TrimmedFrom(one.log, second.log, q, lo)
  }

  /** The choices of the second run for an operation that the first one may have started. */
  function Resumed(ch: Choice, began: bool): Choice {
    ch.(start := ch.start || began)
  }

  // ----- Logs -----

  lemma TrimmedKeeps(log: Log, later: Log, q: Id, lo: nat, hi: nat)
    requires Trimmed(log, later, q, lo, hi)
    ensures Keeps(log, later, q, lo, hi)
  {
  }

  lemma TrimmedItself(a: Log, b: Log, q: Id, lo: nat, hi: nat)
    requires Agree(a, b, q, lo, hi)
    ensures Trimmed(a, b, q, lo, hi)
  {
  }

  lemma TrimmedItselfFrom(a: Log, b: Log, q: Id, lo: nat)
    requires AgreeFrom(a, b, q, lo)
    ensures TrimmedFrom(a, b, q, lo)
  {
    forall hi: nat ensures Trimmed(a, b, q, lo, hi) {
      assert Agree(a, b, q, lo, hi);
    }
  }

  lemma TrimmedFrame(a: Log, b: Log, a': Log, b': Log, q: Id, lo: nat, hi: nat)
    requires Trimmed(a, b, q, lo, hi) && Agree(a, a', q, lo, hi) && Agree(b, b', q, lo, hi)
    ensures Trimmed(a', b', q, lo, hi)
  {
    forall id | id in a' && Within(id, q, lo, hi) && Needed(a', q, id) ensures id in b' {
      forall k | |q| < k < |id| ensures !Frees(a, id[..k]) {
        WithinAncestor(id, q, lo, hi, k);
        assert !Frees(a', id[..k]);
      }
      assert Needed(a, q, id);
    }
  }

  lemma TrimmedFrameFrom(a: Log, b: Log, a': Log, b': Log, q: Id, lo: nat)
    requires TrimmedFrom(a, b, q, lo) && AgreeFrom(a, a', q, lo) && AgreeFrom(b, b', q, lo)
    ensures TrimmedFrom(a', b', q, lo)
  {
    forall hi: nat ensures Trimmed(a', b', q, lo, hi) {
      assert Trimmed(a, b, q, lo, hi) && Agree(a, a', q, lo, hi) && Agree(b, b', q, lo, hi);
      TrimmedFrame(a, b, a', b', q, lo, hi);
    }
  }

  lemma TrimmedJoin(a: Log, b: Log, q: Id, lo: nat, mid: nat, hi: nat)
    requires Trimmed(a, b, q, lo, mid) && Trimmed(a, b, q, mid, hi)
    ensures Trimmed(a, b, q, lo, hi)
  {
  }

  lemma TrimmedJoinFrom(a: Log, b: Log, q: Id, lo: nat, mid: nat)
    requires Trimmed(a, b, q, lo, mid) && TrimmedFrom(a, b, q, mid)
    ensures TrimmedFrom(a, b, q, lo)
  {
    forall hi: nat ensures Trimmed(a, b, q, lo, hi) {
      assert Trimmed(a, b, q, mid, hi);
      TrimmedJoin(a, b, q, lo, mid, hi);
    }
  }

  /** Beyond what two runs minted, their logs are as they were. */
  lemma OutsideAgreesFrom(a: Log, b: Log, q: Id, lo: nat, hi: nat)
    requires SameOutside(a, b, q, lo, hi)
    ensures AgreeFrom(a, b, q, hi)
  {
  }

  lemma AgreeChain(a: Log, b: Log, d: Log, q: Id, lo: nat, hi: nat)
    requires Agree(a, b, q, lo, hi) && Agree(a, d, q, lo, hi)
    ensures Agree(b, d, q, lo, hi)
  {
  }

  lemma AgreeChainFrom(a: Log, b: Log, d: Log, q: Id, lo: nat)
    requires AgreeFrom(a, b, q, lo) && AgreeFrom(a, d, q, lo)
    ensures AgreeFrom(b, d, q, lo)
  {
    forall hi: nat ensures Agree(b, d, q, lo, hi) {
      assert Agree(a, b, q, lo, hi) && Agree(a, d, q, lo, hi);
    }
  }

  /** Where nothing was recorded, nothing is kept. */
  lemma TrimmedFresh(log: Log, later: Log, q: Id, lo: nat, hi: nat)
    requires Fresh(log, q, lo) && Trimmed(log, later, q, lo, hi)
    ensures Agree(log, later, q, lo, hi)
  {
  }

  lemma FreshLater(log: Log, later: Log, q: Id, lo: nat, mid: nat)
    requires Fresh(log, q, mid) && TrimmedFrom(log, later, q, lo) && lo <= mid
    ensures AgreeFrom(log, later, q, mid)
  {
    TrimmedFromPart(log, later, q, lo, mid);
    forall hi: nat ensures Agree(log, later, q, mid, hi) {
      TrimmedFresh(log, later, q, mid, hi);
    }
  }

  // ----- Oracles -----

  lemma FollowsNoFatal(o: Oracle, w: World)
    requires Follows(o, w)
    ensures NoFatal(o)
  {
  }

  lemma FollowsMixed(a: Oracle, b: Oracle, w: World, q: Id, lo: nat, hi: nat)
    requires Follows(a, w) && Follows(b, w)
    ensures Follows(Mixed(a, b, q, lo, hi), w)
    ensures SameChoices(Mixed(a, b, q, lo, hi), a, q, lo, hi)
    ensures SameFrom(Mixed(a, b, q, lo, hi), b, q, hi)
  {
  }

  /** The choices of a, but for x, which goes on as in b. */
  lemma FollowsResumed(a: Oracle, b: Oracle, w: World, x: Id, began: bool)
    requires Follows(a, w) && Follows(b, w)
    ensures Follows(At(a, x, Resumed(b(x), began)), w)
    ensures At(a, x, Resumed(b(x), began))(x) == Resumed(b(x), began)
  {
  }

  // ----- One layer -----

  /** No record is below x. */
  ghost predicate NothingBelow(log: Log, x: Id) {
    forall id | id in log :: !(|x| < |id| && id[..|x|] == x)
  }

  lemma FreshBelow(log: Log, q: Id, n: nat, at: nat)
    requires Fresh(log, q, n) && n <= at
    ensures NothingBelow(log, q + [at])
  {
    forall id | id in log { BelowChild(id, q, at); }
  }

  lemma BelowOutside(a: Log, b: Log, q: Id, lo: nat, hi: nat, at: nat)
    requires NothingBelow(a, q + [at]) && SameOutside(a, b, q, lo, hi) && hi <= at
    ensures NothingBelow(b, q + [at])
  {
    forall id | id in b { BelowChild(id, q, at); }
  }

  lemma BelowTrimmed(a: Log, b: Log, q: Id, lo: nat, hi: nat, at: nat)
    requires NothingBelow(a, q + [at]) && Trimmed(a, b, q, lo, hi) && lo <= at < hi
    ensures NothingBelow(b, q + [at])
  {
    forall id | id in b { BelowChild(id, q, at); }
  }

  lemma BelowWritten(a: Log, b: Log, x: Id)
    requires NothingBelow(a, x) && (b == a || (x in b && b == a[x := b[x]]))
    ensures NothingBelow(b, x)
  {
  }

  /** An operation alone, with nothing below it. */
  lemma TrimmedAlone(a: Log, b: Log, q: Id, at: nat)
    requires NothingBelow(a, q + [at]) && NothingBelow(b, q + [at])
    requires (q + [at] in a <==> q + [at] in b) && (q + [at] in a ==> a[q + [at]] == b[q + [at]])
    ensures Trimmed(a, b, q, at, at + 1)
  {
    forall id | Within(id, q, at, at + 1) ensures (id in a <==> id in b) && (id in a ==> a[id] == b[id]) {
      OwnOrBelow(id, q, at);
    }
  }

  lemma OwnOrBelow(id: Id, q: Id, n: nat)
    requires Within(id, q, n, n + 1)
    ensures id == q + [n] || (|q| + 1 < |id| && id[..|q| + 1] == q + [n])
  {
    assert id[..|q| + 1] == id[..|q|] + [id[|q|]];
    if |id| == |q| + 1 { assert id == id[..|q| + 1]; }
  }

  /** An operation with what is below it. */
  lemma TrimmedTree(a: Log, b: Log, q: Id, n: nat)
    requires TrimmedFrom(a, b, q + [n], 0)
    requires (q + [n] in a <==> q + [n] in b) && (q + [n] in a ==> a[q + [n]] == b[q + [n]])
    ensures Trimmed(a, b, q, n, n + 1)
  {
    var x := q + [n];
    forall id | Within(id, q, n, n + 1)
      ensures id in b ==> id in a && b[id] == a[id]
      ensures id in a && Needed(a, q, id) ==> id in b
    {
      OwnOrBelow(id, q, n);
      if id != x {
        assert Trimmed(a, b, x, 0, id[|x|] + 1);
        assert Within(id, x, 0, id[|x|] + 1);
        if Needed(a, q, id) { assert Needed(a, x, id); }
      }
    }
  }

  lemma TrimmedWritten(a: Log, b: Log, w: Write, lo: nat)
    requires TrimmedFrom(a, b, w.id, lo)
    ensures TrimmedFrom(AfterWrite(a, w), AfterWrite(b, w), w.id, lo)
  {
    forall hi: nat ensures Trimmed(AfterWrite(a, w), AfterWrite(b, w), w.id, lo, hi) {
      assert Trimmed(a, b, w.id, lo, hi);
      forall id | id in AfterWrite(a, w) && Within(id, w.id, lo, hi) && Needed(AfterWrite(a, w), w.id, id)
        ensures id in AfterWrite(b, w)
      {
        forall k | |w.id| < k < |id| ensures !Frees(a, id[..k]) {
          assert !Frees(AfterWrite(a, w), id[..k]);
        }
        assert Needed(a, w.id, id);
      }
    }
  }

  lemma LeafLog(c: Codec, source: LeafKind, ch: Choice, log: Log, x: Id, next: nat)
    ensures
      var after := RunLeaf(c, source, ch, log, x, next).log;
      after == log || (x in after && after == log[x := after[x]])
  {
    hide LeafResult, LeafAction, ReplayLeaf;
  }

  /** A leaf that may have started goes on in the second run, and starts and goes on in the one. */
  lemma LeafResumes(c: Codec, source: LeafKind, ch: Choice, ch2: Choice, log: Log, later: Log, x: Id, next: nat)
    requires x !in log && RunLeaf(c, source, ch, log, x, next).result.None?
    requires
      var after := RunLeaf(c, source, ch, log, x, next).log;
      (x in after <==> x in later) && (x in after ==> later[x] == after[x])
    ensures
      var one := RunLeaf(c, source, Resumed(ch2, x in later), log, x, next);
      var second := RunLeaf(c, source, ch2, later, x, next);
      && one.result == second.result
      && (x in one.log <==> x in second.log) && (x in one.log ==> one.log[x] == second.log[x])
  {
    hide LeafResult, LeafAction, ReplayLeaf;
  }

  lemma LeafMerges(c: Codec, source: LeafKind, ch: Choice, ch2: Choice, log: Log, later: Log, q: Id, n: nat)
    requires Fresh(log, q, n) && RunLeaf(c, source, ch, log, q + [n], n + 1).result.None?
    requires Trimmed(RunLeaf(c, source, ch, log, q + [n], n + 1).log, later, q, n, n + 1)
    ensures
      var x := q + [n];
      var first := RunLeaf(c, source, ch, log, x, n + 1);
      var one := RunLeaf(c, source, Resumed(ch2, x in first.log), log, x, n + 1);
      Merged(first, RunLeaf(c, source, ch2, later, x, n + 1), one, q, n, n + 1)
  {
    hide *;
    var x := q + [n];
    var first := RunLeaf(c, source, ch, log, x, n + 1);
    var second := RunLeaf(c, source, ch2, later, x, n + 1);
    var one := RunLeaf(c, source, Resumed(ch2, x in first.log), log, x, n + 1);
    FreshOwn(log, q, n, n);
    FreshBelow(log, q, n, n);
    TrimmedOwn(first.log, later, q, n, n, n + 1);
    LeafResumes(c, source, ch, ch2, log, later, x, n + 1);
    LeafLog(c, source, ch, log, x, n + 1);
    LeafLog(c, source, Resumed(ch2, x in first.log), log, x, n + 1);
    LeafLog(c, source, ch2, later, x, n + 1);
    BelowWritten(log, first.log, x);
    BelowTrimmed(first.log, later, q, n, n + 1, n);
    BelowWritten(log, one.log, x);
    BelowWritten(later, second.log, x);
    TrimmedAlone(one.log, second.log, q, n);
    MergedMade(first, second, one, q, n, n + 1);
  }

  lemma MergedMade<R>(first: Exec<R>, second: Exec<R>, one: Exec<R>, q: Id, lo: nat, hi: nat)
    requires one.result == second.result && Trimmed(one.log, second.log, q, lo, hi)
    requires first.result.Some? ==> second.result == first.result
    ensures Merged(first, second, one, q, lo, hi)
  {
    hide Trimmed;
  }

  lemma MergedFacts<R>(first: Exec<R>, second: Exec<R>, one: Exec<R>, q: Id, lo: nat, hi: nat)
    requires Merged(first, second, one, q, lo, hi)
    ensures one.result == second.result && Trimmed(one.log, second.log, q, lo, hi)
    ensures first.result.Some? ==> second.result == first.result
  {
    hide Trimmed;
  }

  lemma ChildMerges(
      c: Codec, ch: Choice, log: Log, later: Log, q: Id, n: nat, one: Exec<UserResult>, second: Exec<UserResult>)
    requires q + [n] !in log && q + [n] in later && later[q + [n]] == RecordOf(Start)
    requires one.result == second.result && TrimmedFrom(one.log, second.log, q + [n], 0)
    requires q + [n] in one.log && q + [n] in second.log && one.log[q + [n]] == second.log[q + [n]]
    ensures
      var x := q + [n];
      var e, e' := ChildRun(c, Resumed(ch, true), log, x, one, n + 1), ChildRun(c, ch, later, x, second, n + 1);
      e.result == e'.result && Trimmed(e.log, e'.log, q, n, n + 1)
  {
    var x := q + [n];
    var go := Resumed(ch, true);
    assert !Settled(log, x) && !Closed(log, x) && !Settled(later, x) && !Closed(later, x);
    assert ChildActionSame(c, ch, go, x, one.result);
    hide *;
    ChildCases(c, go, log, x, one, n + 1);
    ChildCases(c, ch, later, x, second, n + 1);
    SettledCases(c, go, x, Begin(log, x), one, n + 1);
    SettledCases(c, ch, x, Begin(later, x), second, n + 1);
    ResumedFacts(ch, true);
    if one.result.None? || !ch.end {
      TrimmedTree(one.log, second.log, q, n);
    } else {
      SameActions(c, ch, go, x, one.result);
      var w := Write(x, ChildAction(c, ch, x, one.result.value));
      TrimmedWritten(one.log, second.log, w, 0);
      WrittenOwn(one.log, w);
      WrittenOwn(second.log, w);
      TrimmedTree(AfterWrite(one.log, w), AfterWrite(second.log, w), q, n);
    }
  }

  predicate ChildActionSame(c: Codec, ch: Choice, ch': Choice, x: Id, r: Option<UserResult>) {
    r.Some? ==> ChildAction(c, ch, x, r.value) == ChildAction(c, ch', x, r.value)
                && ChildResult(c, ch, x, r.value) == ChildResult(c, ch', x, r.value)
  }

  lemma SameActions(c: Codec, ch: Choice, ch': Choice, x: Id, r: Option<UserResult>)
    requires ChildActionSame(c, ch, ch', x, r) && r.Some?
    ensures ChildAction(c, ch, x, r.value) == ChildAction(c, ch', x, r.value)
    ensures ChildResult(c, ch, x, r.value) == ChildResult(c, ch', x, r.value)
  {
    hide ChildAction, ChildResult;
  }

  lemma ResumedFacts(ch: Choice, began: bool)
    ensures Resumed(ch, began) == ch.(start := ch.start || began)
  {
  }

  lemma WrittenOwn(log: Log, w: Write)
    ensures w.id in AfterWrite(log, w) && AfterWrite(log, w)[w.id] == RecordOf(w.action)
  {
  }

  /** What a live combinator returns and records, without its inputs' writes. */
  lemma JoinFlow(c: Codec, ch: Choice, x: Id, kind: CombinatorKind, ins: Inputs, next: nat)
    requires ch.fatal.None?
    ensures
      var e := JoinSettled(c, ch, x, kind, ins, next);
      var j := O.Outcome(kind, ins.done, ch.order);
      var p := if j.Waiting? then None else if j.Failure? then Some("") else c.encode(x, Combined(j, c.text), ch.salt);
      && (x in e.log <==> x in ins.log || ch.start)
      && if p.Some? && x in e.log && ch.end then
           && e.result == Some(JoinResult(c, x, kind, j, p.value))
           && e.log[x] == RecordOf(JoinAction(c, ch, x, kind, j, p.value))
         else
           && e.result
             == (if j.Waiting? || p.Some? then None else Some(Err(Unrecorded(CombinatorInternal, UNSERIALIZED))))
           && (x in e.log ==> e.log[x] == if x in ins.log then ins.log[x] else RecordOf(Start))
  {
    hide O.Outcome, Combined, JoinAction, JoinResult, JoinRepeats;
  }

  lemma SameJoinAction(c: Codec, ch: Choice, began: bool, x: Id, kind: CombinatorKind, j: Joined, p: string)
    requires !j.Waiting?
    ensures JoinAction(c, Resumed(ch, began), x, kind, j, p) == JoinAction(c, ch, x, kind, j, p)
  {
    hide F.FailureWire, F.WinnerRecord, Oversized;
  }

  lemma JoinMerges(
      c: Codec, ch: Choice, ch2: Choice, x: Id, kind: CombinatorKind, first: Inputs, second: Inputs, one: Inputs,
      next: nat)
    requires x !in first.log && x !in one.log && ch.fatal.None? && ch2.fatal.None?
    requires JoinSettled(c, ch, x, kind, first, next).result.None?
    requires
      var after := JoinSettled(c, ch, x, kind, first, next).log;
      (x in after <==> x in second.log) && (x in after ==> second.log[x] == after[x])
    requires one.done == second.done
    ensures
      var began := x in second.log;
      var e := JoinSettled(c, Resumed(ch2, began), x, kind, one, next);
      var e' := JoinSettled(c, ch2, x, kind, second, next);
      e.result == e'.result && (x in e.log <==> x in e'.log) && (x in e.log ==> e.log[x] == e'.log[x])
  {
    hide *;
    var began := x in second.log;
    ResumedFacts(ch2, began);
    JoinFlow(c, ch, x, kind, first, next);
    JoinFlow(c, ch2, x, kind, second, next);
    JoinFlow(c, Resumed(ch2, began), x, kind, one, next);
    var j := O.Outcome(kind, one.done, ch2.order);
    if !j.Waiting? {
      var p := if j.Failure? then Some("") else c.encode(x, Combined(j, c.text), ch2.salt);
      if p.Some? { SameJoinAction(c, ch2, began, x, kind, j, p.value); }
    }
  }

  // ----- Whole runs -----

  /** Two runs of one operation, the second from what the service kept after the first, are one. */
  lemma {:induction false} OpMerges(
      c: Codec, w: World, o1: Oracle, o2: Oracle, log: Log, later: Log, q: Id, n: nat, op: Op, g: nat)
      returns (o: Oracle)
    requires Stable(c) && Follows(o1, w) && Follows(o2, w) && Fresh(log, q, n) && OpClean(c, o1, log, q, n, op, g)
    requires Trimmed(RunOp(c, o1, log, q, n, op, g).log, later, q, n, n + Width(op))
    ensures Follows(o, w)
    ensures Merged(RunOp(c, o1, log, q, n, op, g), RunOp(c, o2, later, q, n, op, g), RunOp(c, o, log, q, n, op, g),
                   q, n, n + Width(op))
    decreases g, 2
  {
    hide *;
    var first := RunOp(c, o1, log, q, n, op, g);
    if first.result.Some? {
      o := o1;
      CompletedMerges(c, w, o1, o2, log, later, q, n, op, g);
    } else if first.log == log {
      o := o2;
      UntouchedMerges(c, o1, o2, log, later, q, n, op, g);
    } else {
      WidthFacts(op);
      if g == 0 { NoFuel(c, o1, log, q, n, op); }
      match op
      case Leaf(source) =>
        var x := q + [n];
        LeafUnfolds(c, source, o1, log, q, n, g);
        LeafUnfolds(c, source, o2, later, q, n, g);
        LeafMerges(c, source, o1(x), o2(x), log, later, q, n);
        o := At(o2, x, Resumed(o2(x), x in first.log));
        FollowsResumed(o2, o2, w, x, x in first.log);
        LeafUnfolds(c, source, o, log, q, n, g);
      case Child(body) => o := ChildOpMerges(c, w, o1, o2, log, later, q, n, body, g);
      case Combine(kind, inputs) =>
        if |inputs| > USIZE_MAX { TooManyInputs(c, o1, log, q, n, kind, inputs, g); }
        o := CombineOpMerges(c, w, o1, o2, log, later, q, n, kind, inputs, g);
    }
  }

  /** A first run that completed is replayed. */
  lemma {:induction false} CompletedMerges(
      c: Codec, w: World, o1: Oracle, o2: Oracle, log: Log, later: Log, q: Id, n: nat, op: Op, g: nat)
    requires Stable(c) && Follows(o1, w) && Fresh(log, q, n) && OpClean(c, o1, log, q, n, op, g)
    requires RunOp(c, o1, log, q, n, op, g).result.Some?
    requires Trimmed(RunOp(c, o1, log, q, n, op, g).log, later, q, n, n + Width(op))
    ensures Merged(RunOp(c, o1, log, q, n, op, g), RunOp(c, o2, later, q, n, op, g), RunOp(c, o1, log, q, n, op, g),
                   q, n, n + Width(op))
  {
    hide *;
    var first := RunOp(c, o1, log, q, n, op, g);
    FollowsNoFatal(o1, w);
    OpCleanRepeats(c, o1, log, q, n, op, g);
    TrimmedKeeps(first.log, later, q, n, n + Width(op));
    OpReplays(c, o1, log, q, n, op, g, o2, later, g);
    ReplayedFacts(first, later);
    MergedMade(first, RunOp(c, o2, later, q, n, op, g), first, q, n, n + Width(op));
  }

  /** A first run that recorded nothing leaves all to the second. */
  lemma {:induction false} UntouchedMerges(
      c: Codec, o1: Oracle, o2: Oracle, log: Log, later: Log, q: Id, n: nat, op: Op, g: nat)
    requires Fresh(log, q, n)
    requires RunOp(c, o1, log, q, n, op, g).result.None? && RunOp(c, o1, log, q, n, op, g).log == log
    requires Trimmed(log, later, q, n, n + Width(op))
    ensures Merged(RunOp(c, o1, log, q, n, op, g), RunOp(c, o2, later, q, n, op, g), RunOp(c, o2, log, q, n, op, g),
                   q, n, n + Width(op))
  {
    hide *;
    var second, one := RunOp(c, o2, later, q, n, op, g), RunOp(c, o2, log, q, n, op, g);
    TrimmedFresh(log, later, q, n, n + Width(op));
    SameItselfChoices(o2, q, n, n + Width(op));
    OpAlike(c, o2, o2, log, later, q, n, op, g, n, n + Width(op));
    AlikeFacts(one, second, q, n, n + Width(op));
    TrimmedItself(one.log, second.log, q, n, n + Width(op));
    MergedMade(RunOp(c, o1, log, q, n, op, g), second, one, q, n, n + Width(op));
  }

  lemma SameItselfChoices(o: Oracle, q: Id, lo: nat, hi: nat)
    ensures SameChoices(o, o, q, lo, hi) && SameFrom(o, o, q, lo)
  {
  }

  lemma {:induction false} ChildOpMerges(
      c: Codec, w: World, o1: Oracle, o2: Oracle, log: Log, later: Log, q: Id, n: nat, body: Prog, g: nat)
      returns (o: Oracle)
    requires g > 0 && Stable(c) && Follows(o1, w) && Follows(o2, w) && Fresh(log, q, n)
    requires OpClean(c, o1, log, q, n, Child(body), g)
    requires
      var first := RunOp(c, o1, log, q, n, Child(body), g);
      first.result.None? && first.log != log && Trimmed(first.log, later, q, n, n + 1)
    ensures Follows(o, w)
    ensures Merged(RunOp(c, o1, log, q, n, Child(body), g), RunOp(c, o2, later, q, n, Child(body), g),
                   RunOp(c, o, log, q, n, Child(body), g), q, n, n + 1)
    decreases g, 1
  {
    hide *;
    var x := q + [n];
    var begun := Begun(log, x);
    var first := RunOp(c, o1, log, q, n, Child(body), g);
    var b1 := RunProg(c, o1, begun, x, 1, body, g - 1);
    var b2 := RunProg(c, o2, later, x, 1, body, g - 1);
    ChildUnfolds(c, o1, log, q, n, body, g);
    ChildUnfolds(c, o2, later, q, n, body, g);
    FreshOwn(log, q, n, n);
    BegunFresh(log, x);
    ProgFrame(c, o1, begun, x, 1, body, g - 1);
    OwnUntouched(begun, b1.log, x, b1.next);
    ChildCases(c, o1(x), log, x, b1, n + 1);
    SettledCases(c, o1(x), x, Begin(log, x), b1, n + 1);
    TrimmedOwn(first.log, later, q, n, n, n + 1);
    StartedFrees(first.log, x);
    StartedFrees(later, x);
    TrimmedBelow(first.log, later, q, n, n, n + 1);
    FreshChild(log, q, n);
    CleanParts(c, o1, log, q, n, Child(body), g);
    TrimmedFromPart(b1.log, later, x, 0, 0);
    TrimmedFromPart(b1.log, later, x, 0, 1);
    var ob := ProgMerges(c, w, o1, o2, begun, later, x, 1, body, g - 1);
    o := At(ob, x, Resumed(o2(x), true));
    FollowsResumed(ob, o2, w, x, true);
    AtOwnFrom(ob, x, Resumed(o2(x), true));
    ProgSameRun(c, o, ob, begun, x, 1, body, g - 1);
    var b := RunProg(c, o, begun, x, 1, body, g - 1);
    MergedFromFacts(b1, b2, b, x, 1);
    ProgFrame(c, o, begun, x, 1, body, g - 1);
    OwnUntouched(begun, b.log, x, b.next);
    ProgFrame(c, o2, later, x, 1, body, g - 1);
    OwnUntouched(later, b2.log, x, b2.next);
    TrimmedLower(begun, b1.log, b.log, later, b2.log, x, b1.next, b.next, b2.next);
    ChildMerges(c, o2(x), log, later, q, n, b, b2);
    ChildUnfolds(c, o, log, q, n, body, g);
    MergedMade(first, RunOp(c, o2, later, q, n, Child(body), g), RunOp(c, o, log, q, n, Child(body), g), q, n, n + 1);
  }

  lemma BegunFresh(log: Log, x: Id)
    requires x !in log
    ensures x in Begun(log, x) && Begun(log, x)[x] == RecordOf(Start) && !Settled(log, x) && !Closed(log, x)
  {
  }

  lemma StartedFrees(log: Log, x: Id)
    requires x in log && log[x] == RecordOf(Start)
    ensures !Frees(log, x) && !Settled(log, x) && !Closed(log, x) && Begun(log, x) == log
  {
  }

  /** A body leaves position 0 of its context as it was. */
  lemma TrimmedLower(
      log: Log, first: Log, one: Log, later: Log, second: Log, x: Id, hi1: nat, hi: nat, hi2: nat)
    requires SameOutside(log, first, x, 1, hi1) && SameOutside(log, one, x, 1, hi)
    requires SameOutside(later, second, x, 1, hi2)
    requires TrimmedFrom(first, later, x, 0) && TrimmedFrom(one, second, x, 1)
    ensures TrimmedFrom(one, second, x, 0)
  {
    hide *;
    OutsideAgrees(log, first, x, 1, hi1, 0, 1);
    OutsideAgrees(log, one, x, 1, hi, 0, 1);
    AgreeChain(log, first, one, x, 0, 1);
    OutsideAgrees(later, second, x, 1, hi2, 0, 1);
    TrimmedFromPart(first, later, x, 0, 0);
    TrimmedFrame(first, later, one, second, x, 0, 1);
    TrimmedJoinFrom(one, second, x, 0, 1);
  }

  lemma AtOwnFrom(o: Oracle, x: Id, ch: Choice)
    ensures SameFrom(At(o, x, ch), o, x, 1)
  {
    forall hi: nat ensures SameChoices(At(o, x, ch), o, x, 1, hi) {
      assert !Within(x, x, 1, hi);
    }
  }

  lemma MergedFromFacts<R>(first: Exec<R>, second: Exec<R>, one: Exec<R>, q: Id, lo: nat)
    requires MergedFrom(first, second, one, q, lo)
    ensures one.result == second.result && TrimmedFrom(one.log, second.log, q, lo)
    ensures first.result.Some? ==> second.result == first.result
  {
    hide TrimmedFrom;
  }

  lemma MergedFromMade<R>(first: Exec<R>, second: Exec<R>, one: Exec<R>, q: Id, lo: nat)
    requires one.result == second.result && TrimmedFrom(one.log, second.log, q, lo)
    requires first.result.Some? ==> second.result == first.result
    ensures MergedFrom(first, second, one, q, lo)
  {
    hide TrimmedFrom;
  }

  // ----- Combinators -----

  lemma {:induction false} CombineOpMerges(
      c: Codec, w: World, o1: Oracle, o2: Oracle, log: Log, later: Log, q: Id, n: nat,
      kind: CombinatorKind, inputs: seq<Op>, g: nat)
      returns (o: Oracle)
    requires g > 0 && |inputs| <= USIZE_MAX && Stable(c) && Follows(o1, w) && Follows(o2, w) && Fresh(log, q, n)
    requires OpClean(c, o1, log, q, n, Combine(kind, inputs), g)
    requires
      var first := RunOp(c, o1, log, q, n, Combine(kind, inputs), g);
      first.result.None? && Trimmed(first.log, later, q, n, n + Widths(inputs) + 1)
    ensures Follows(o, w)
    ensures Merged(RunOp(c, o1, log, q, n, Combine(kind, inputs), g),
      RunOp(c, o2, later, q, n, Combine(kind, inputs), g),
                   RunOp(c, o, log, q, n, Combine(kind, inputs), g), q, n, n + Widths(inputs) + 1)
    decreases g, 1
  {
    hide *;
    var at := n + Widths(inputs);
    var x := q + [at];
    var op := Combine(kind, inputs);
    var first := RunOp(c, o1, log, q, n, op, g);
    var ins1 := RunInputs(c, o1, log, q, n, inputs, g - 1);
    var ins2 := RunInputs(c, o2, later, q, n, inputs, g - 1);
    LiveFresh(c, o1, log, q, n, kind, inputs, g);
    InputsFrame(c, o1, log, q, n, inputs, g - 1);
    PositionUntouched(log, ins1.log, q, n, at, at);
    FreshOwn(log, q, n, at);
    JoinLog(c, o1(x), x, kind, ins1, at + 1);
    OwnBeyond(ins1.log, first.log, q, n, at);
    TrimmedPart(first.log, later, q, n, at + 1, n, at);
    AgreeItself(later, q, n, at);
    AgreeSymmetric(ins1.log, first.log, q, n, at);
    TrimmedFrame(first.log, later, ins1.log, later, q, n, at);
    CleanParts(c, o1, log, q, n, op, g);
    var oi := InputsMerge(c, w, o1, o2, log, later, q, n, inputs, g - 1);
    o := At(oi, x, Resumed(o2(x), x in later));
    FollowsResumed(oi, o2, w, x, x in later);
    AtElsewhere(oi, q, n, at, at, Resumed(o2(x), x in later));
    InputsSameRun(c, o, oi, log, q, n, inputs, g - 1);
    var ins := RunInputs(c, o, log, q, n, inputs, g - 1);
    LiveFresh(c, o, log, q, n, kind, inputs, g);
    TrimmedOwn(first.log, later, q, at, n, at + 1);
    NotSettledLater(c, o1(x), x, kind, ins1, at + 1, later);
    LiveUnfolds(c, o2, later, q, n, kind, inputs, g);
    InputsFrame(c, o2, later, q, n, inputs, g - 1);
    PositionUntouched(later, ins2.log, q, n, at, at);
    InputsFrame(c, o, log, q, n, inputs, g - 1);
    PositionUntouched(log, ins.log, q, n, at, at);
    FollowsAt(o1, w, x);
    FollowsAt(o2, w, x);
    JoinMerges(c, o1(x), o2(x), x, kind, ins1, ins2, ins, at + 1);
    var one, second := RunOp(c, o, log, q, n, op, g), RunOp(c, o2, later, q, n, op, g);
    JoinLog(c, o(x), x, kind, ins, at + 1);
    JoinLog(c, o2(x), x, kind, ins2, at + 1);
    OwnBeyond(ins.log, one.log, q, n, at);
    OwnBeyond(ins2.log, second.log, q, n, at);
    TrimmedFrame(ins.log, ins2.log, one.log, second.log, q, n, at);
    FreshBelow(log, q, n, at);
    BelowOutside(log, ins1.log, q, n, at, at);
    BelowWritten(ins1.log, first.log, x);
    BelowTrimmed(first.log, later, q, n, at + 1, at);
    BelowOutside(later, ins2.log, q, n, at, at);
    BelowWritten(ins2.log, second.log, x);
    BelowOutside(log, ins.log, q, n, at, at);
    BelowWritten(ins.log, one.log, x);
    TrimmedAlone(one.log, second.log, q, at);
    TrimmedJoin(one.log, second.log, q, n, at, at + 1);
    MergedMade(first, second, one, q, n, at + 1);
  }

  lemma AgreeSymmetric(a: Log, b: Log, q: Id, lo: nat, hi: nat)
    requires Agree(a, b, q, lo, hi)
    ensures Agree(b, a, q, lo, hi)
  {
  }

  lemma LiveFresh(c: Codec, o: Oracle, log: Log, q: Id, n: nat, kind: CombinatorKind, inputs: seq<Op>, g: nat)
    requires 0 < g && |inputs| <= USIZE_MAX && Fresh(log, q, n)
    ensures
      var at := n + Widths(inputs);
      RunOp(c, o, log, q, n, Combine(kind, inputs), g)
      == JoinSettled(c, o(q + [at]), q + [at], kind, RunInputs(c, o, log, q, n, inputs, g - 1), at + 1)
  {
    hide *;
    FreshOwn(log, q, n, n + Widths(inputs));
    Unsettled(log, q + [n + Widths(inputs)], kind);
    LiveUnfolds(c, o, log, q, n, kind, inputs, g);
  }

  lemma NotSettledLater(c: Codec, ch: Choice, x: Id, kind: CombinatorKind, ins: Inputs, next: nat, later: Log)
    requires x !in ins.log && JoinSettled(c, ch, x, kind, ins, next).result.None?
    requires
      var after := JoinSettled(c, ch, x, kind, ins, next).log;
      (x in after <==> x in later) && (x in after ==> later[x] == after[x])
    ensures !Settled(later, x)
  {
    hide O.Outcome, Combined, JoinAction, JoinResult, JoinRepeats;
  }

  lemma {:induction false} InputsMerge(
      c: Codec, w: World, o1: Oracle, o2: Oracle, log: Log, later: Log, q: Id, n: nat, inputs: seq<Op>, g: nat)
      returns (o: Oracle)
    requires Stable(c) && Follows(o1, w) && Follows(o2, w) && Fresh(log, q, n)
    requires InputsClean(c, o1, log, q, n, inputs, g)
    requires Trimmed(RunInputs(c, o1, log, q, n, inputs, g).log, later, q, n, n + Widths(inputs))
    ensures Follows(o, w)
    ensures
      var ins, ins2 := RunInputs(c, o, log, q, n, inputs, g), RunInputs(c, o2, later, q, n, inputs, g);
      ins.done == ins2.done && Trimmed(ins.log, ins2.log, q, n, n + Widths(inputs))
    decreases g, 3, |inputs|
  {
    hide *;
    if inputs == [] {
      o := o2;
      NoInputsRun(c, o1, log, q, n, g);
      NoInputsRun(c, o2, log, q, n, g);
      NoInputsRun(c, o2, later, q, n, g);
    } else {
      var next, hi := n + Width(inputs[0]), n + Widths(inputs);
      var others := inputs[1..];
      var e1, e2 := RunOp(c, o1, log, q, n, inputs[0], g), RunOp(c, o2, later, q, n, inputs[0], g);
      var rest1 := RunInputs(c, o1, e1.log, q, next, others, g);
      WidthsStep(inputs, 0);
      InputsUnfold(c, o1, log, q, n, inputs, g);
      InputsUnfold(c, o2, later, q, n, inputs, g);
      InputsCleanParts(c, o1, log, q, n, inputs, g);
      OpFrame(c, o1, log, q, n, inputs[0], g);
      OpFrame(c, o2, later, q, n, inputs[0], g);
      InputsFrame(c, o1, e1.log, q, next, others, g);
      FirstTrimmed(e1.log, rest1.log, later, q, n, next, hi);
      var oa := OpMerges(c, w, o1, o2, log, later, q, n, inputs[0], g);
      RestTrimmed(rest1.log, later, e2.log, q, n, next, hi);
      FreshBeyond(log, e1.log, q, n, next);
      var ob := InputsMerge(c, w, o1, o2, e1.log, e2.log, q, next, others, g);
      o := Mixed(oa, ob, q, n, next);
      FollowsMixed(oa, ob, w, q, n, next);
      OpSameRun(c, o, oa, log, q, n, inputs[0], g);
      var e := RunOp(c, o, log, q, n, inputs[0], g);
      MergedFacts(e1, e2, e, q, n, next);
      OpFrame(c, o, log, q, n, inputs[0], g);
      ConsMerges(c, o, ob, o2, log, e1.log, e.log, e2.log, q, n, next, hi, others, g);
      InputsUnfold(c, o, log, q, n, inputs, g);
    }
  }

  lemma FirstTrimmed(a: Log, rest: Log, later: Log, q: Id, n: nat, next: nat, hi: nat)
    requires SameOutside(a, rest, q, next, hi) && Trimmed(rest, later, q, n, hi) && n <= next <= hi
    ensures Trimmed(a, later, q, n, next)
  {
    hide *;
    TrimmedPart(rest, later, q, n, hi, n, next);
    OutsideAgrees(a, rest, q, next, hi, n, next);
    AgreeSymmetric(a, rest, q, n, next);
    AgreeItself(later, q, n, next);
    TrimmedFrame(rest, later, a, later, q, n, next);
  }

  lemma RestTrimmed(rest: Log, later: Log, b: Log, q: Id, n: nat, next: nat, hi: nat)
    requires SameOutside(later, b, q, n, next) && Trimmed(rest, later, q, n, hi) && n <= next
    ensures Trimmed(rest, b, q, next, hi)
  {
    hide *;
    TrimmedPart(rest, later, q, n, hi, next, hi);
    OutsideAgrees(later, b, q, n, next, next, hi);
    AgreeItself(rest, q, next, hi);
    TrimmedFrame(rest, later, rest, b, q, next, hi);
  }

  /** The other inputs run alike from what the first input left in one run or in the first of two. */
  lemma {:induction false} ConsMerges(
      c: Codec, o: Oracle, ob: Oracle, o2: Oracle, log: Log, a1: Log, a: Log, a2: Log, q: Id, n: nat, next: nat,
        hi: nat,
      others: seq<Op>, g: nat)
    requires n <= next && hi == next + Widths(others)
    requires SameOutside(log, a1, q, n, next) && SameOutside(log, a, q, n, next) && Trimmed(a, a2, q, n, next)
    requires SameFrom(o, ob, q, next)
    requires
      var rest, rest2 := RunInputs(c, ob, a1, q, next, others, g), RunInputs(c, o2, a2, q, next, others, g);
      rest.done == rest2.done && Trimmed(rest.log, rest2.log, q, next, hi)
    ensures
      var rest, rest2 := RunInputs(c, o, a, q, next, others, g), RunInputs(c, o2, a2, q, next, others, g);
      rest.done == rest2.done && Trimmed(rest.log, rest2.log, q, n, hi)
  {
    hide *;
    var rest, rest2 := RunInputs(c, o, a, q, next, others, g), RunInputs(c, o2, a2, q, next, others, g);
    var restb := RunInputs(c, ob, a1, q, next, others, g);
    OutsideAgrees(log, a1, q, n, next, next, hi);
    OutsideAgrees(log, a, q, n, next, next, hi);
    AgreeChain(log, a, a1, q, next, hi);
    SameFromPart(o, ob, q, next, next);
    InputsAlike(c, o, ob, a, a1, q, next, others, g, next, hi);
    AlikeInputsFacts(rest, restb, q, next, hi);
    AgreeSymmetric(rest.log, restb.log, q, next, hi);
    AgreeItself(rest2.log, q, next, hi);
    TrimmedFrame(restb.log, rest2.log, rest.log, rest2.log, q, next, hi);
    InputsFrame(c, o, a, q, next, others, g);
    InputsFrame(c, o2, a2, q, next, others, g);
    OutsideAgrees(a, rest.log, q, next, hi, n, next);
    OutsideAgrees(a2, rest2.log, q, next, hi, n, next);
    TrimmedFrame(a, a2, rest.log, rest2.log, q, n, next);
    TrimmedJoin(rest.log, rest2.log, q, n, next, hi);
  }

  // ----- Bodies -----

  lemma {:induction false} ProgMerges(
      c: Codec, w: World, o1: Oracle, o2: Oracle, log: Log, later: Log, q: Id, n: nat, p: Prog, g: nat)
      returns (o: Oracle)
    requires Stable(c) && Follows(o1, w) && Follows(o2, w) && Fresh(log, q, n) && ProgClean(c, o1, log, q, n, p, g)
    requires TrimmedFrom(RunProg(c, o1, log, q, n, p, g).log, later, q, n)
    ensures Follows(o, w)
    ensures MergedFrom(RunProg(c, o1, log, q, n, p, g), RunProg(c, o2, later, q, n, p, g),
      RunProg(c, o, log, q, n, p, g),
                       q, n)
    decreases g, 0
  {
    hide *;
    EndUnfolds(c, o1, log, q, n, p, g);
    EndUnfolds(c, o2, log, q, n, p, g);
    EndUnfolds(c, o2, later, q, n, p, g);
    if p.Do? && g > 0 {
      o := DoMerges(c, w, o1, o2, log, later, q, n, p, g);
    } else {
      o := o2;
      MergedFromMade(RunProg(c, o1, log, q, n, p, g), RunProg(c, o2, later, q, n, p, g), RunProg(c, o, log, q, n, p, g),
        q, n);
    }
  }

  lemma {:induction false} DoMerges(
      c: Codec, w: World, o1: Oracle, o2: Oracle, log: Log, later: Log, q: Id, n: nat, p: Prog, g: nat)
      returns (o: Oracle)
    requires p.Do? && g > 0
    requires Stable(c) && Follows(o1, w) && Follows(o2, w) && Fresh(log, q, n) && ProgClean(c, o1, log, q, n, p, g)
    requires TrimmedFrom(RunProg(c, o1, log, q, n, p, g).log, later, q, n)
    ensures Follows(o, w)
    ensures MergedFrom(RunProg(c, o1, log, q, n, p, g), RunProg(c, o2, later, q, n, p, g),
      RunProg(c, o, log, q, n, p, g),
                       q, n)
    decreases g - 1, 4
  {
    hide *;
    var next := n + Width(p.op);
    var first := RunProg(c, o1, log, q, n, p, g);
    var e1, e2 := RunOp(c, o1, log, q, n, p.op, g - 1), RunOp(c, o2, later, q, n, p.op, g - 1);
    DoParts(c, o1, log, q, n, p, g);
    DoParts(c, o2, later, q, n, p, g);
    DoCleanParts(c, o1, log, q, n, p, g);
    OpFrame(c, o1, log, q, n, p.op, g - 1);
    OpFrame(c, o2, later, q, n, p.op, g - 1);
    TrimmedFromPart(first.log, later, q, n, n);
    FirstTrimmed(e1.log, first.log, later, q, n, next, first.next);
    var oa := OpMerges(c, w, o1, o2, log, later, q, n, p.op, g - 1);
    RestTrimmedFrom(first.log, later, e2.log, q, n, next);
    FreshBeyond(log, e1.log, q, n, next);
    var ob := o2;
    MergedFacts(e1, e2, RunOp(c, oa, log, q, n, p.op, g - 1), q, n, next);
    if e1.result.Some? {
      ob := ProgMerges(c, w, o1, o2, e1.log, e2.log, q, next, p.k(e1.result.value), g - 1);
    } else {
      FreshLater(e1.log, e2.log, q, next, next);
    }
    o := Mixed(oa, ob, q, n, next);
    FollowsMixed(oa, ob, w, q, n, next);
    OpSameRun(c, o, oa, log, q, n, p.op, g - 1);
    var e := RunOp(c, o, log, q, n, p.op, g - 1);
    OpFrame(c, o, log, q, n, p.op, g - 1);
    DoParts(c, o, log, q, n, p, g);
    if e2.result.None? {
      OutsideAgreesFrom(log, e1.log, q, n, next);
      OutsideAgreesFrom(log, e.log, q, n, next);
      AgreeChainFrom(log, e1.log, e.log, q, next);
      AgreeFromItself(e2.log, q, next);
      TrimmedFrameFrom(e1.log, e2.log, e.log, e2.log, q, next);
      TrimmedJoinFrom(e.log, e2.log, q, n, next);
    } else {
      var k := p.k(e2.result.value);
      if e1.result.None? {
        SecondGoesOn(c, o2, e1.log, e2.log, q, next, k, g - 1);
      } else {
        MergedFromFacts(RunProg(c, o1, e1.log, q, next, k, g - 1), RunProg(c, o2, e2.log, q, next, k, g - 1),
                        RunProg(c, ob, e1.log, q, next, k, g - 1), q, next);
      }
      ThenMerges(c, o, ob, o2, log, e1.log, e.log, e2.log, q, n, next, k, g - 1);
    }
    MergedFromMade(first, RunProg(c, o2, later, q, n, p, g), RunProg(c, o, log, q, n, p, g), q, n);
  }

  /** A body that does an operation: what the operation did, and what the body did after it. */
  lemma {:induction false} DoParts(c: Codec, o: Oracle, log: Log, q: Id, n: nat, p: Prog, g: nat)
    requires p.Do? && g > 0
    ensures
      var e, all := RunOp(c, o, log, q, n, p.op, g - 1), RunProg(c, o, log, q, n, p, g);
      && (e.result.None? ==> all.result.None? && all.log == e.log)
      && (e.result.Some? ==>
            var rest := RunProg(c, o, e.log, q, e.next, p.k(e.result.value), g - 1);
            all.result == rest.result && all.log == rest.log)
      && e.next <= all.next && SameOutside(e.log, all.log, q, e.next, all.next)
  {
    hide *;
    var e := RunOp(c, o, log, q, n, p.op, g - 1);
    DoUnfolds(c, o, log, q, n, p, g);
    InterruptedFacts<UserResult>(e.log, e.writes, e.next);
    SameItself(e.log, q, e.next, e.next);
    if e.result.Some? {
      ProgFrame(c, o, e.log, q, e.next, p.k(e.result.value), g - 1);
      ThenFacts(e, RunProg(c, o, e.log, q, e.next, p.k(e.result.value), g - 1));
    }
  }

  lemma RestTrimmedFrom(rest: Log, later: Log, b: Log, q: Id, n: nat, next: nat)
    requires SameOutside(later, b, q, n, next) && TrimmedFrom(rest, later, q, n) && n <= next
    ensures TrimmedFrom(rest, b, q, next)
  {
    hide *;
    TrimmedFromPart(rest, later, q, n, next);
    OutsideAgreesFrom(later, b, q, n, next);
    AgreeFromItself(rest, q, next);
    TrimmedFrameFrom(rest, later, rest, b, q, next);
  }

  /** Where the first run did not come, the second one goes on as it would from the first log. */
  lemma SecondGoesOn(c: Codec, o: Oracle, a: Log, b: Log, q: Id, n: nat, p: Prog, g: nat)
    requires AgreeFrom(a, b, q, n)
    ensures
      var r, r' := RunProg(c, o, a, q, n, p, g), RunProg(c, o, b, q, n, p, g);
      r.result == r'.result && TrimmedFrom(r.log, r'.log, q, n)
  {
    hide *;
    SameItselfChoices(o, q, n, n);
    ProgAlike(c, o, o, a, b, q, n, p, g, n);
    AlikeFromFacts(RunProg(c, o, a, q, n, p, g), RunProg(c, o, b, q, n, p, g), q, n);
    TrimmedItselfFrom(RunProg(c, o, a, q, n, p, g).log, RunProg(c, o, b, q, n, p, g).log, q, n);
  }

  lemma {:induction false} ThenMerges(
      c: Codec, o: Oracle, ob: Oracle, o2: Oracle, log: Log, a1: Log, a: Log, a2: Log, q: Id, n: nat, next: nat,
      k: Prog, g: nat)
    requires n <= next && SameFrom(o, ob, q, next)
    requires SameOutside(log, a1, q, n, next) && SameOutside(log, a, q, n, next) && Trimmed(a, a2, q, n, next)
    requires
      var rest, rest2 := RunProg(c, ob, a1, q, next, k, g), RunProg(c, o2, a2, q, next, k, g);
      rest.result == rest2.result && TrimmedFrom(rest.log, rest2.log, q, next)
    ensures
      var rest, rest2 := RunProg(c, o, a, q, next, k, g), RunProg(c, o2, a2, q, next, k, g);
      rest.result == rest2.result && TrimmedFrom(rest.log, rest2.log, q, n)
  {
    hide *;
    var rest, rest2 := RunProg(c, o, a, q, next, k, g), RunProg(c, o2, a2, q, next, k, g);
    var restb := RunProg(c, ob, a1, q, next, k, g);
    OutsideAgreesFrom(log, a1, q, n, next);
    OutsideAgreesFrom(log, a, q, n, next);
    AgreeChainFrom(log, a, a1, q, next);
    ProgAlike(c, o, ob, a, a1, q, next, k, g, next);
    AlikeFromFacts(rest, restb, q, next);
    AgreeFromItself(rest.log, q, next);
    AgreeChainFrom(rest.log, restb.log, rest.log, q, next);
    AgreeFromItself(rest2.log, q, next);
    TrimmedFrameFrom(restb.log, rest2.log, rest.log, rest2.log, q, next);
    ProgFrame(c, o, a, q, next, k, g);
    ProgFrame(c, o2, a2, q, next, k, g);
    OutsideAgrees(a, rest.log, q, next, rest.next, n, next);
    OutsideAgrees(a2, rest2.log, q, next, rest2.next, n, next);
    TrimmedFrame(a, a2, rest.log, rest2.log, q, n, next);
    TrimmedJoinFrom(rest.log, rest2.log, q, n, next);
  }
}
