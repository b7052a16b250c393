/** Every invocation of a handler, from whatever an interrupted one left, goes on towards the
    meaning of the handler: it returns that meaning if it completes, and it completes when nothing
    interrupts it.
 */
module Recovery {
  import opened Options
  import opened Records
  import opened Errors
  import opened Combinators
  import opened Handlers
  import opened Runs
  import opened Meaning
  import opened Decimals
  import F = CombinatorFailures
  import O = SettleOrder

  /** The world decides the outcome of every leaf that finishes, and no execution-fatal error is
      recorded, which would fail the execution. */
  ghost predicate Follows(o: Oracle, w: World) {
    forall x: Id :: (o(x).leaf.Some? ==> o(x).leaf.value == w(x)) && o(x).fatal.None?
  }

  lemma FollowsAt(o: Oracle, w: World, x: Id)
    requires Follows(o, w)
    ensures o(x).fatal.None?
  {
  }

  /** Nothing interrupts the invocation. */
  ghost predicate Persists(o: Oracle) {
    forall x: Id :: o(x).start && o(x).end && o(x).leaf.Some?
  }

  // ----- One layer -----

  lemma LeafStep(c: Codec, source: LeafKind, ch: Choice, log: Log, x: Id, leaf: LeafOutcome, next: nat)
    requires LeafRecord(c, source, log, x, leaf) && (ch.leaf.Some? ==> ch.leaf.value == leaf)
    ensures
      var e := RunLeaf(c, source, ch, log, x, next);
      && LeafRecord(c, source, e.log, x, leaf)
      && (e.result.Some? ==> e.result.value == LeafResult(c, source, x, leaf))
      && (ch.start && ch.end && ch.leaf.Some? ==> e.result.Some?)
  {
  }

  lemma StableRoundTrip(c: Codec, x: Id, v: Value, salt: nat, unserialized: OpErr, kind: ErrorKind)
    requires Stable(c)
    ensures c.encode(x, v, salt).Some? <==> c.encode(x, v, 0).Some?
    ensures c.encode(x, v, 0).Some? ==>
      && Decoded(c, x, c.encode(x, v, salt).value, kind) == Decoded(c, x, c.encode(x, v, 0).value, kind)
      && RoundTrip(c, x, v, salt, unserialized, kind) == Decoded(c, x, c.encode(x, v, 0).value, kind)
  {
  }

  /** What a live child records and returns is what its body means. */
  lemma LiveChild(c: Codec, ch: Choice, x: Id, r: UserResult, log: Log)
    requires Stable(c) && ChildMeaning(c, x, r).Some?
    ensures Some(ChildResult(c, ch, x, r)) == ChildMeaning(c, x, r)
    ensures ChildRecord(c, AfterWrite(log, Write(x, ChildAction(c, ch, x, r))), x, r)
  {
    hide Oversized, Stable;
    if r.Good? { StableRoundTrip(c, x, r.value, ch.salt, SerializeError(), ChildInternal); }
  }

  lemma ChildStep(c: Codec, ch: Choice, log: Log, x: Id, b: Exec<UserResult>, r: UserResult, next: nat)
    requires Stable(c) && ChildMeaning(c, x, r).Some? && ChildRecord(c, log, x, r)
    requires b.result.Some? ==> b.result.value == r
    requires x in b.log <==> x in Begun(log, x)
    requires x in b.log ==> b.log[x] == Begun(log, x)[x]
    ensures
      var e := ChildRun(c, ch, log, x, b, next);
      && ChildRecord(c, e.log, x, r)
      && (e.result.Some? ==> e.result == ChildMeaning(c, x, r))
      && (ch.start && ch.end && b.result.Some? ==> e.result.Some?)
  {
    hide Oversized, Stable, ChildAction, ChildResult, ChildRepeats, SameDecoded;
    LiveChild(c, ch, x, r, b.log);
    if r.Good? { StableRoundTrip(c, x, r.value, ch.salt, SerializeError(), ChildInternal); }
  }

  /** Once every input has settled, the outcome is decided. */
  lemma AllSettledDecides(kind: CombinatorKind, done: O.Done, order: seq<nat>)
    requires AllSettled(done)
    ensures O.Outcome(kind, done, order) != Waiting
  {
    var settles := Settles(done, order);
    O.SettlesEnumerates(done, order);
    O.SlotsOfEnumeration(settles, done);
    forall i | 0 <= i < |done| ensures Settle(i, done[i].value) in settles { assert done[i].Some?; }
    if kind.TryJoinAll? && First(settles, false).None? {
      forall i | 0 <= i < |done| ensures done[i].value.Ok? { NoneIsAll(settles, false, Settle(i, done[i].value)); }
    }
    if kind.SelectOk? && First(settles, true).None? {
      forall i | 0 <= i < |done| ensures done[i].value.Err? { NoneIsAll(settles, true, Settle(i, done[i].value)); }
    }
    if kind.Race? && |done| > 0 { assert Settle(0, done[0].value) in settles; }
  }

  lemma {:induction false} NoneIsAll(settles: seq<Settle>, ok: bool, s: Settle)
    requires First(settles, ok).None? && s in settles
    ensures s.result.Ok? != ok
  {
    if s != settles[0] { NoneIsAll(settles[1..], ok, s); }
  }

  /** What the inputs that completed so far can decide is what all of them mean. */
  lemma PartialOutcome(kind: CombinatorKind, done: O.Done, means: O.Done, order: seq<nat>)
    requires O.OrderFree(kind, means) && O.Part(done, means) && AllSome(means)
    ensures O.Outcome(kind, done, order) == Waiting || O.Outcome(kind, done, order) == O.Outcome(kind, means, [])
    ensures AllSome(done) ==> O.Outcome(kind, done, order) == O.Outcome(kind, means, [])
  {
    if AllSome(done) {
      AllSettledDecides(kind, done, order);
    }
  }

  /** The record of a live combinator says what its inputs mean. */
  lemma LiveJoin(c: Codec, ch: Choice, x: Id, kind: CombinatorKind, means: O.Done, p: string, log: Log)
    requires Stable(c) && |means| <= USIZE_MAX
    requires
      var j := O.Outcome(kind, means, []);
      !j.Waiting? && (!j.Failure? ==> c.encode(x, Combined(j, c.text), ch.salt) == Some(p))
    ensures
      var j := O.Outcome(kind, means, []);
      && Some(JoinResult(c, x, kind, j, p)) == JoinMeaning(c, x, kind, j)
      && JoinRecord(c, AfterWrite(log, Write(x, JoinAction(c, ch, x, kind, j, p))), x, kind, j)
  {
    var j := O.Outcome(kind, means, []);
    O.OutcomeIsTrue(kind, means, []);
    hide Oversized, Stable, O.Outcome, F.FailureWire, F.LiveFailure, F.ReplayFailure, F.ParseWinner, F.WinnerRecord;
    if j.Failure? {
      F.FailureRoundTrip(kind, j.failure, x, c.text);
    } else {
      StableRoundTrip(c, x, Combined(j, c.text), ch.salt, SerializeError(), CombinatorInternal);
      if j.Winner? { F.WinnerRoundTrip(j.index); }
    }
  }

  lemma JoinStep(c: Codec, ch: Choice, x: Id, kind: CombinatorKind, ins: Inputs, means: O.Done, next: nat)
    requires Stable(c) && |means| <= USIZE_MAX && AllSome(means) && O.OrderFree(kind, means) && O.Part(ins.done, means)
    requires !Settled(ins.log, x) && ch.fatal.None?
    ensures
      var e := JoinSettled(c, ch, x, kind, ins, next);
      var j := O.Outcome(kind, means, []);
      && JoinRecord(c, e.log, x, kind, j)
      && (e.result.Some? ==> e.result == JoinMeaning(c, x, kind, j))
      && (ch.start && ch.end && AllSome(ins.done) ==> e.result.Some?)
  {
    PartialOutcome(kind, ins.done, means, ch.order);
    AllSettledDecides(kind, means, []);
    if O.Outcome(kind, ins.done, ch.order) != Waiting {
      JoinDecided(c, ch, x, kind, ins, means, next);
    } else {
      hide O.Outcome, O.OrderFree;
    }
  }

  lemma JoinDecided(c: Codec, ch: Choice, x: Id, kind: CombinatorKind, ins: Inputs, means: O.Done, next: nat)
    requires Stable(c) && |means| <= USIZE_MAX
    requires O.Outcome(kind, ins.done, ch.order) == O.Outcome(kind, means, []) != Waiting
    requires !Settled(ins.log, x) && ch.fatal.None?
    ensures
      var e := JoinSettled(c, ch, x, kind, ins, next);
      var j := O.Outcome(kind, means, []);
      && JoinRecord(c, e.log, x, kind, j)
      && (e.result.Some? ==> e.result == JoinMeaning(c, x, kind, j))
      && (ch.start && ch.end ==> e.result.Some?)
  {
    var j := O.Outcome(kind, means, []);
    hide O.Outcome, Stable, JoinAction, JoinResult, JoinRepeats, Combined;
    var p := if j.Failure? then Some("") else c.encode(x, Combined(j, c.text), ch.salt);
    if p.Some? {
      LiveJoin(c, ch, x, kind, means, p.value, if x in ins.log || !ch.start then ins.log else Begun(ins.log, x));
    } else {
      StableRoundTrip(c, x, Combined(j, c.text), ch.salt, SerializeError(), CombinatorInternal);
    }
  }

  lemma CollectionStep(
      c: Codec, ch: Choice, log: Log, x: Id, kind: CombinatorKind, ins: Inputs, means: O.Done, next: nat)
    requires Stable(c) && AllSome(means) && O.OrderFree(kind, means) && O.Part(ins.done, means)
    requires JoinRecord(c, log, x, kind, O.Outcome(kind, means, []))
    requires Settled(log, x) && !Closed(log, x) && !DrivesWinner(log, x, kind)
    ensures
      var e := CollectionRebuilt(c, ch, x, kind, ins, next);
      && (e.result.Some? ==> e.result == JoinMeaning(c, x, kind, O.Outcome(kind, means, [])))
      && (AllSome(ins.done) ==> e.result.Some?)
  {
    var j := O.Outcome(kind, means, []);
    PartialOutcome(kind, ins.done, means, ch.order);
    hide O.Outcome, O.OrderFree, Stable, Combined;
    StableRoundTrip(c, x, Combined(j, c.text), ch.salt, Unrecorded(CombinatorInternal, UNSERIALIZED),
      CombinatorInternal);
  }

  lemma WinnerStep(
      c: Codec, ch: Choice, log: Log, x: Id, kind: CombinatorKind, input: Exec<OpResult>, means: O.Done, next: nat)
    requires Stable(c) && AllSome(means) && JoinRecord(c, log, x, kind, O.Outcome(kind, means, []))
    requires DrivesWinner(log, x, kind)
    requires WinnerOf(log[x]).Some? && WinnerOf(log[x]).value < |means|
    requires input.result.Some? ==> input.result == means[WinnerOf(log[x]).value]
    ensures
      var e := WinnerRebuilt(c, ch, x, input, next);
      && (e.result.Some? ==> e.result == JoinMeaning(c, x, kind, O.Outcome(kind, means, [])))
      && (input.result.Some? ==> e.result.Some?)
  {
    var j := O.Outcome(kind, means, []);
    O.OutcomeIsTrue(kind, means, []);
    hide O.Outcome, Stable;
    StableRoundTrip(c, x, j.value, ch.salt, Unrecorded(CombinatorInternal, UNSERIALIZED), CombinatorInternal);
  }

  // ----- Whole runs -----

  /** The log of a run agrees with the meaning; a result of the run is the meaning; and a run that
      nothing interrupts has one. */
  ghost predicate OpSteps(c: Codec, o: Oracle, w: World, q: Id, n: nat, op: Op, f: nat, e: Exec<OpResult>, g: nat) {
    && OpAgrees(c, w, e.log, q, n, op, f)
    && (e.result.Some? ==> e.result == OpMeaning(c, w, q, n, op, f))
    && (Persists(o) && f <= g ==> e.result.Some?)
  }

  lemma AgreesBeyond(a: Log, b: Log, q: Id, lo: nat, hi: nat)
    requires SameOutside(a, b, q, lo, hi)
    ensures AgreeFrom(a, b, q, hi)
  {
  }

  /** Recording an operation itself leaves its body's records as they are. */
  lemma AgreesOwn(a: Log, b: Log, x: Id)
    requires b == a || (x in b && b == a[x := b[x]])
    ensures AgreeFrom(a, b, x, 1)
  {
    forall hi: nat ensures Agree(a, b, x, 1, hi) {
      assert !Within(x, x, 1, hi);
    }
  }

  lemma BegunOwn(log: Log, x: Id)
    ensures x in Begun(log, x) && Begun(log, x) == log[x := Begun(log, x)[x]]
    ensures x in log ==> Begun(log, x) == log
  {
  }

  lemma {:induction false} OpMakesSense(c: Codec, o: Oracle, w: World, log: Log, q: Id, n: nat, op: Op, f: nat, g: nat)
    requires Stable(c) && Follows(o, w) && OpAgrees(c, w, log, q, n, op, f) && OpMeaning(c, w, q, n, op, f).Some?
    ensures OpSteps(c, o, w, q, n, op, f, RunOp(c, o, log, q, n, op, g), g)
    decreases g, 2
  {
    MeaningFuel(c, w, q, n, op, f);
    if g == 0 {
    } else {
      match op
      case Leaf(source) => LeafMakesSense(c, source, o, w, log, q, n, f, g);
      case Child(body) => ChildMakesSense(c, o, w, log, q, n, body, f, g);
      case Combine(kind, inputs) => CombineMakesSense(c, o, w, log, q, n, kind, inputs, f, g);
    }
  }

  lemma {:induction false} MeaningFuel(c: Codec, w: World, q: Id, n: nat, op: Op, f: nat)
    requires OpMeaning(c, w, q, n, op, f).Some?
    ensures f > 0
  {
  }

  lemma {:induction false} LeafMakesSense(
      c: Codec, source: LeafKind, o: Oracle, w: World, log: Log, q: Id, n: nat, f: nat, g: nat)
    requires 0 < f && 0 < g && Follows(o, w) && OpAgrees(c, w, log, q, n, Leaf(source), f)
    ensures OpSteps(c, o, w, q, n, Leaf(source), f, RunOp(c, o, log, q, n, Leaf(source), g), g)
  {
    var x := q + [n];
    assert RunOp(c, o, log, q, n, Leaf(source), g) == RunLeaf(c, source, o(x), log, x, n + 1);
    hide RunLeaf, RunOp, LeafResult, LeafRecord;
    LeafStep(c, source, o(x), log, x, w(x), n + 1);
  }

  lemma {:induction false} ChildMakesSense(
      c: Codec, o: Oracle, w: World, log: Log, q: Id, n: nat, body: Prog, f: nat, g: nat)
    requires 0 < f && 0 < g && Stable(c) && Follows(o, w)
    requires OpAgrees(c, w, log, q, n, Child(body), f) && OpMeaning(c, w, q, n, Child(body), f).Some?
    ensures OpSteps(c, o, w, q, n, Child(body), f, RunOp(c, o, log, q, n, Child(body), g), g)
    decreases g, 1
  {
    hide *;
    var x := q + [n];
    var begun := Begun(log, x);
    var b := RunProg(c, o, begun, x, 1, body, g - 1);
    var e := ChildRun(c, o(x), log, x, b, n + 1);
    ChildUnfolds(c, o, log, q, n, body, g);
    var r := ChildParts(c, w, log, q, n, body, f);
    ProgFrame(c, o, begun, x, 1, body, g - 1);
    OwnUntouched(begun, b.log, x, b.next);
    BegunOwn(log, x);
    if Closed(log, x) {
      ClosedChildRun(c, o(x), log, x, b, n + 1);
      ChildSteps(c, o, w, q, n, body, f, e, g, r);
    } else {
      AgreesOwn(log, begun, x);
      ProgFrameAgrees(c, w, log, begun, x, 1, body, f - 1);
      ProgMakesSense(c, o, w, begun, x, 1, body, f - 1, g - 1);
      ProgStepsFacts(c, o, w, x, 1, body, f - 1, b, g - 1);
      PersistsAt(o, x);
      ChildStep(c, o(x), log, x, b, r, n + 1);
      ChildLogs(c, o(x), log, x, b, n + 1);
      if e.log == log {
      } else {
        AgreesOwn(b.log, e.log, x);
        ProgFrameAgrees(c, w, b.log, e.log, x, 1, body, f - 1);
      }
      ChildSteps(c, o, w, q, n, body, f, e, g, r);
    }
  }

  lemma PersistsAt(o: Oracle, x: Id)
    ensures Persists(o) ==> o(x).start && o(x).end && o(x).leaf.Some?
  {
  }

  lemma ChildLogs(c: Codec, ch: Choice, log: Log, x: Id, b: Exec<UserResult>, next: nat)
    ensures
      var after := ChildRun(c, ch, log, x, b, next).log;
      after == log || after == b.log || (x in after && after == b.log[x := after[x]])
  {
    hide Oversized, SameDecoded, ChildAction, ChildResult, ChildRepeats;
  }

  lemma {:induction false} ChildParts(
      c: Codec, w: World, log: Log, q: Id, n: nat, body: Prog, f: nat) returns (r: UserResult)
    requires 0 < f && OpAgrees(c, w, log, q, n, Child(body), f) && OpMeaning(c, w, q, n, Child(body), f).Some?
    ensures ProgMeaning(c, w, q + [n], 1, body, f - 1) == Some(r)
    ensures OpMeaning(c, w, q, n, Child(body), f) == ChildMeaning(c, q + [n], r)
    ensures ChildRecord(c, log, q + [n], r)
    ensures Closed(log, q + [n]) || ProgAgrees(c, w, log, q + [n], 1, body, f - 1)
  {
    hide ProgMeaning, ProgAgrees, ChildMeaning, ChildRecord, Closed;
    r := ProgMeaning(c, w, q + [n], 1, body, f - 1).value;
  }

  lemma ClosedChildRun(c: Codec, ch: Choice, log: Log, x: Id, b: Exec<UserResult>, next: nat)
    requires Closed(log, x)
    ensures ChildRun(c, ch, log, x, b, next) == Exec(Some(ReplayChild(c, x, log[x])), log, [], next, true)
  {
    hide ReplayChild;
  }

  lemma {:induction false} ChildSteps(
      c: Codec, o: Oracle, w: World, q: Id, n: nat, body: Prog, f: nat, e: Exec<OpResult>, g: nat, r: UserResult)
    requires 0 < f && ProgMeaning(c, w, q + [n], 1, body, f - 1) == Some(r) && ChildRecord(c, e.log, q + [n], r)
    requires Closed(e.log, q + [n]) || ProgAgrees(c, w, e.log, q + [n], 1, body, f - 1)
    requires e.result.Some? ==>
      e.result == ChildMeaning(c, q + [n], r)
        || (Closed(e.log, q + [n]) && e.result.value == ReplayChild(c, q + [n], e.log[q + [n]]))
    requires Persists(o) && f <= g ==> e.result.Some?
    ensures OpSteps(c, o, w, q, n, Child(body), f, e, g)
  {
    hide ProgMeaning, ProgAgrees, ChildMeaning, ReplayChild, Persists, Closed;
  }

  /** The log of a body's run agrees with the meaning; a result of the run is the meaning; and a run
      that nothing interrupts has one. */
  ghost predicate ProgSteps(
      c: Codec, o: Oracle, w: World, q: Id, n: nat, p: Prog, f: nat, e: Exec<UserResult>, g: nat)
  {
    && ProgAgrees(c, w, e.log, q, n, p, f)
    && (e.result.Some? ==> e.result == ProgMeaning(c, w, q, n, p, f))
    && (Persists(o) && f <= g ==> e.result.Some?)
  }

  lemma ProgStepsFacts(c: Codec, o: Oracle, w: World, q: Id, n: nat, p: Prog, f: nat, e: Exec<UserResult>, g: nat)
    requires ProgSteps(c, o, w, q, n, p, f, e, g)
    ensures ProgAgrees(c, w, e.log, q, n, p, f)
    ensures e.result.Some? ==> e.result == ProgMeaning(c, w, q, n, p, f)
    ensures Persists(o) && f <= g ==> e.result.Some?
  {
    hide ProgAgrees, ProgMeaning, Persists;
  }

  lemma OpStepsFacts(c: Codec, o: Oracle, w: World, q: Id, n: nat, op: Op, f: nat, e: Exec<OpResult>, g: nat)
    requires OpSteps(c, o, w, q, n, op, f, e, g)
    ensures OpAgrees(c, w, e.log, q, n, op, f)
    ensures e.result.Some? ==> e.result == OpMeaning(c, w, q, n, op, f)
    ensures Persists(o) && f <= g ==> e.result.Some?
  {
    hide OpAgrees, OpMeaning, Persists;
  }

  lemma {:induction false} ProgMakesSense(
      c: Codec, o: Oracle, w: World, log: Log, q: Id, n: nat, p: Prog, f: nat, g: nat)
    requires Stable(c) && Follows(o, w) && ProgAgrees(c, w, log, q, n, p, f) && ProgMeaning(c, w, q, n, p, f).Some?
    ensures ProgSteps(c, o, w, q, n, p, f, RunProg(c, o, log, q, n, p, g), g)
    decreases g, 0
  {
    if p.Do? {
      assert f > 0;
      if g > 0 { DoMakesSense(c, o, w, log, q, n, p, f, g); }
    }
  }

  lemma {:induction false} DoParts(c: Codec, w: World, log: Log, q: Id, n: nat, p: Prog, f: nat) returns (m: OpResult)
    requires p.Do? && f > 0 && ProgAgrees(c, w, log, q, n, p, f) && ProgMeaning(c, w, q, n, p, f).Some?
    ensures OpMeaning(c, w, q, n, p.op, f - 1) == Some(m)
    ensures ProgMeaning(c, w, q, n, p, f) == ProgMeaning(c, w, q, n + Width(p.op), p.k(m), f - 1)
    ensures OpAgrees(c, w, log, q, n, p.op, f - 1) && ProgAgrees(c, w, log, q, n + Width(p.op), p.k(m), f - 1)
  {
    hide OpMeaning, OpAgrees, Width;
    m := OpMeaning(c, w, q, n, p.op, f - 1).value;
  }

  lemma {:induction false} DoAgrees(c: Codec, w: World, log: Log, q: Id, n: nat, p: Prog, f: nat, m: OpResult)
    requires p.Do? && f > 0 && OpMeaning(c, w, q, n, p.op, f - 1) == Some(m)
    requires OpAgrees(c, w, log, q, n, p.op, f - 1) && ProgAgrees(c, w, log, q, n + Width(p.op), p.k(m), f - 1)
    ensures ProgAgrees(c, w, log, q, n, p, f)
  {
    hide OpMeaning, OpAgrees, Width;
  }

  lemma {:induction false} DoMakesSense(c: Codec, o: Oracle, w: World, log: Log, q: Id, n: nat, p: Prog, f: nat, g: nat)
    requires p.Do? && 0 < f && 0 < g && Stable(c) && Follows(o, w)
    requires ProgAgrees(c, w, log, q, n, p, f) && ProgMeaning(c, w, q, n, p, f).Some?
    ensures ProgSteps(c, o, w, q, n, p, f, RunProg(c, o, log, q, n, p, g), g)
    decreases g - 1, 4
  {
    hide *;
    var m := DoParts(c, w, log, q, n, p, f);
    DoUnfolds(c, o, log, q, n, p, g);
    var e := RunOp(c, o, log, q, n, p.op, g - 1);
    OpMakesSense(c, o, w, log, q, n, p.op, f - 1, g - 1);
    OpStepsFacts(c, o, w, q, n, p.op, f - 1, e, g - 1);
    OpFrame(c, o, log, q, n, p.op, g - 1);
    AgreesBeyond(log, e.log, q, n, e.next);
    ProgFrameAgrees(c, w, log, e.log, q, e.next, p.k(m), f - 1);
    if e.result.None? {
      DoAgrees(c, w, e.log, q, n, p, f, m);
      InterruptedSteps(c, o, w, q, n, p, f, e, g);
    } else {
      var rest := RunProg(c, o, e.log, q, e.next, p.k(m), g - 1);
      ProgMakesSense(c, o, w, e.log, q, e.next, p.k(m), f - 1, g - 1);
      ProgStepsFacts(c, o, w, q, e.next, p.k(m), f - 1, rest, g - 1);
      ProgFrame(c, o, e.log, q, e.next, p.k(m), g - 1);
      OutsideAgrees(e.log, rest.log, q, e.next, rest.next, n, e.next);
      OpFrameAgrees(c, w, e.log, rest.log, q, n, p.op, f - 1);
      DoAgrees(c, w, rest.log, q, n, p, f, m);
      ThenSteps(c, o, w, q, n, p, f, e, rest, g);
    }
  }

  lemma InterruptedSteps(c: Codec, o: Oracle, w: World, q: Id, n: nat, p: Prog, f: nat, e: Exec<OpResult>, g: nat)
    requires ProgAgrees(c, w, e.log, q, n, p, f) && !(Persists(o) && f <= g)
    ensures ProgSteps(c, o, w, q, n, p, f, Interrupted(e.log, e.writes, e.next), g)
  {
    hide ProgAgrees, Persists, ProgMeaning;
  }

  lemma ThenSteps(
      c: Codec, o: Oracle, w: World, q: Id, n: nat, p: Prog, f: nat, e: Exec<OpResult>, rest: Exec<UserResult>, g: nat)
    requires ProgAgrees(c, w, rest.log, q, n, p, f)
    requires rest.result.Some? ==> rest.result == ProgMeaning(c, w, q, n, p, f)
    requires Persists(o) && f <= g ==> rest.result.Some?
    ensures ProgSteps(c, o, w, q, n, p, f, Then(e, rest), g)
  {
    hide ProgAgrees, Persists, ProgMeaning;
  }

  // ----- Combinators -----

  ghost predicate InputsStep(
      c: Codec, o: Oracle, w: World, q: Id, n: nat, inputs: seq<Op>, f: nat, ins: Inputs, g: nat)
  {
    && InputsAgree(c, w, ins.log, q, n, inputs, f)
    && O.Part(ins.done, InputMeanings(c, w, q, n, inputs, f))
    && (Persists(o) && f <= g ==> AllSome(ins.done))
  }

  lemma {:induction false} InputsMakeSense(
      c: Codec, o: Oracle, w: World, log: Log, q: Id, n: nat, inputs: seq<Op>, f: nat, g: nat)
    requires Stable(c) && Follows(o, w) && InputsAgree(c, w, log, q, n, inputs, f)
    requires AllSome(InputMeanings(c, w, q, n, inputs, f))
    ensures InputsStep(c, o, w, q, n, inputs, f, RunInputs(c, o, log, q, n, inputs, g), g)
    decreases g, 3, |inputs|, 1
  {
    if inputs != [] { InputsConsSense(c, o, w, log, q, n, inputs, f, g); }
  }

  lemma {:induction false} InputsConsSense(
      c: Codec, o: Oracle, w: World, log: Log, q: Id, n: nat, inputs: seq<Op>, f: nat, g: nat)
    requires inputs != [] && Stable(c) && Follows(o, w) && InputsAgree(c, w, log, q, n, inputs, f)
    requires AllSome(InputMeanings(c, w, q, n, inputs, f))
    ensures InputsStep(c, o, w, q, n, inputs, f, RunInputs(c, o, log, q, n, inputs, g), g)
    decreases g, 3, |inputs|, 0
  {
    hide *;
    var first, others := inputs[0], inputs[1..];
    var e := RunOp(c, o, log, q, n, first, g);
    var rest := RunInputs(c, o, e.log, q, e.next, others, g);
    InputsUnfold(c, o, log, q, n, inputs, g);
    InputsParts(c, w, log, q, n, inputs, f);
    OpMakesSense(c, o, w, log, q, n, first, f, g);
    OpStepsFacts(c, o, w, q, n, first, f, e, g);
    OpFrame(c, o, log, q, n, first, g);
    OutsideAgrees(log, e.log, q, n, e.next, e.next, e.next + Widths(others));
    InputsFrameAgree(c, w, log, e.log, q, e.next, others, f);
    InputsMakeSense(c, o, w, e.log, q, e.next, others, f, g);
    InputsFrame(c, o, e.log, q, e.next, others, g);
    OutsideAgrees(e.log, rest.log, q, e.next, e.next + Widths(others), n, e.next);
    OpFrameAgrees(c, w, e.log, rest.log, q, n, first, f);
    InputsConsSteps(c, o, w, q, n, inputs, f, e, rest, RunInputs(c, o, log, q, n, inputs, g), g);
  }

  lemma {:induction false} InputsParts(c: Codec, w: World, log: Log, q: Id, n: nat, inputs: seq<Op>, f: nat)
    requires inputs != [] && InputsAgree(c, w, log, q, n, inputs, f) && AllSome(InputMeanings(c, w, q, n, inputs, f))
    ensures OpAgrees(c, w, log, q, n, inputs[0], f) && InputsAgree(c, w, log, q, n + Width(inputs[0]), inputs[1..], f)
    ensures OpMeaning(c, w, q, n, inputs[0], f).Some?
    ensures AllSome(InputMeanings(c, w, q, n + Width(inputs[0]), inputs[1..], f))
  {
    hide OpAgrees, OpMeaning, Width;
    var means, rest := InputMeanings(c, w, q, n, inputs, f), InputMeanings(c, w, q, n + Width(inputs[0]), inputs[1..],
      f);
    assert means == [OpMeaning(c, w, q, n, inputs[0], f)] + rest;
    assert means[0].Some?;
    forall i | 0 <= i < |rest| ensures rest[i].Some? { assert means[i + 1].Some?; }
  }

  lemma {:induction false} InputsConsSteps(
      c: Codec, o: Oracle, w: World, q: Id, n: nat, inputs: seq<Op>, f: nat, e: Exec<OpResult>, rest: Inputs,
        ins: Inputs, g: nat)
    requires inputs != [] && ins.done == [e.result] + rest.done && ins.log == rest.log
    requires OpAgrees(c, w, rest.log, q, n, inputs[0], f)
    requires InputsStep(c, o, w, q, n + Width(inputs[0]), inputs[1..], f, rest, g)
    requires e.result.Some? ==> e.result == OpMeaning(c, w, q, n, inputs[0], f)
    requires Persists(o) && f <= g ==> e.result.Some?
    ensures InputsStep(c, o, w, q, n, inputs, f, ins, g)
  {
    hide OpAgrees, OpMeaning, Width, Persists;
  }

  lemma {:induction false} CombineParts(
      c: Codec, w: World, log: Log, q: Id, n: nat, kind: CombinatorKind, inputs: seq<Op>, f: nat)
    requires 0 < f && OpAgrees(c, w, log, q, n, Combine(kind, inputs), f)
    requires OpMeaning(c, w, q, n, Combine(kind, inputs), f).Some?
    ensures
      var x := q + [n + Widths(inputs)];
      var means := InputMeanings(c, w, q, n, inputs, f - 1);
      && |means| == |inputs| <= USIZE_MAX && AllSome(means) && O.OrderFree(kind, means)
      && OpMeaning(c, w, q, n, Combine(kind, inputs), f) == JoinMeaning(c, x, kind, O.Outcome(kind, means, []))
      && JoinRecord(c, log, x, kind, O.Outcome(kind, means, []))
      && (Closed(log, x) || InputsAgree(c, w, log, q, n, inputs, f - 1))
  {
    hide InputMeanings, InputsAgree, JoinMeaning, JoinRecord, Closed, O.Outcome, O.OrderFree, AllSome, Widths;
  }

  lemma {:induction false} CombineSteps(
      c: Codec, o: Oracle, w: World, q: Id, n: nat, kind: CombinatorKind, inputs: seq<Op>, f: nat, e: Exec<OpResult>,
        g: nat)
    requires 0 < f
    requires
      var x := q + [n + Widths(inputs)];
      var j := O.Outcome(kind, InputMeanings(c, w, q, n, inputs, f - 1), []);
      && JoinRecord(c, e.log, x, kind, j)
      && (Closed(e.log, x) || InputsAgree(c, w, e.log, q, n, inputs, f - 1))
      && (e.result.Some? ==> e.result == OpMeaning(c, w, q, n, Combine(kind, inputs), f))
    requires Persists(o) && f <= g ==> e.result.Some?
    ensures OpSteps(c, o, w, q, n, Combine(kind, inputs), f, e, g)
  {
    hide InputMeanings, InputsAgree, OpMeaning, JoinRecord, Closed, O.Outcome, Persists, Widths;
  }

  lemma {:induction false} CombineMakesSense(
      c: Codec, o: Oracle, w: World, log: Log, q: Id, n: nat, kind: CombinatorKind, inputs: seq<Op>, f: nat, g: nat)
    requires 0 < f && 0 < g && Stable(c) && Follows(o, w)
    requires OpAgrees(c, w, log, q, n, Combine(kind, inputs), f)
    requires OpMeaning(c, w, q, n, Combine(kind, inputs), f).Some?
    ensures OpSteps(c, o, w, q, n, Combine(kind, inputs), f, RunOp(c, o, log, q, n, Combine(kind, inputs), g), g)
    decreases g, 1
  {
    hide *;
    var at := n + Widths(inputs);
    var x := q + [at];
    var means := InputMeanings(c, w, q, n, inputs, f - 1);
    CombineParts(c, w, log, q, n, kind, inputs, f);
    CombineUnfolds(c, o, log, q, n, kind, inputs, g);
    PersistsAt(o, x);
    if Closed(log, x) {
      ClosedRun(c, o(x), log, x, kind, RunInputs(c, o, log, q, n, inputs, g - 1), inputs, at + 1);
      ClosedJoin(c, log, x, kind, O.Outcome(kind, means, []));
      CombineSteps(c, o, w, q, n, kind, inputs, f, RunOp(c, o, log, q, n, Combine(kind, inputs), g), g);
    } else if DrivesWinner(log, x, kind) {
      WinnerMakesSense(c, o, w, log, q, n, kind, inputs, f, g);
    } else {
      InputsMakeSense(c, o, w, log, q, n, inputs, f - 1, g - 1);
      AllMakeSense(c, o, w, log, q, n, kind, inputs, f, g);
    }
  }

  lemma ClosedJoin(c: Codec, log: Log, x: Id, kind: CombinatorKind, j: Joined)
    requires JoinRecord(c, log, x, kind, j) && Closed(log, x)
    ensures Some(ReplayCombinator(c, x, log[x])) == JoinMeaning(c, x, kind, j)
  {
    hide ReplayCombinator, JoinMeaning;
  }

  lemma SameJoinRecord(c: Codec, a: Log, b: Log, x: Id, kind: CombinatorKind, j: Joined)
    requires JoinRecord(c, a, x, kind, j) && (x in a <==> x in b) && (x in a ==> a[x] == b[x])
    ensures JoinRecord(c, b, x, kind, j)
  {
    hide JoinMeaning, ReplayCombinator, Combined;
  }

  lemma {:induction false} AllMakeSense(
      c: Codec, o: Oracle, w: World, log: Log, q: Id, n: nat, kind: CombinatorKind, inputs: seq<Op>, f: nat, g: nat)
    requires 0 < f && 0 < g && Stable(c) && Follows(o, w)
    requires OpAgrees(c, w, log, q, n, Combine(kind, inputs), f)
    requires OpMeaning(c, w, q, n, Combine(kind, inputs), f).Some?
    requires !Closed(log, q + [n + Widths(inputs)]) && !DrivesWinner(log, q + [n + Widths(inputs)], kind)
    requires InputsStep(c, o, w, q, n, inputs, f - 1, RunInputs(c, o, log, q, n, inputs, g - 1), g - 1)
    ensures OpSteps(c, o, w, q, n, Combine(kind, inputs), f, RunOp(c, o, log, q, n, Combine(kind, inputs), g), g)
  {
    hide *;
    var at := n + Widths(inputs);
    var x := q + [at];
    var means := InputMeanings(c, w, q, n, inputs, f - 1);
    var ins := RunInputs(c, o, log, q, n, inputs, g - 1);
    var j := O.Outcome(kind, means, []);
    CombineParts(c, w, log, q, n, kind, inputs, f);
    CombineUnfolds(c, o, log, q, n, kind, inputs, g);
    NotDriven(log, x, kind, inputs);
    PersistsAt(o, x);
    FollowsAt(o, w, x);
    InputsFrame(c, o, log, q, n, inputs, g - 1);
    PositionUntouched(log, ins.log, q, n, at, at);
    InputsStepFacts(c, o, w, q, n, inputs, f - 1, ins, g - 1);
    var e := CombineRun(c, o(x), log, x, kind, ins, at + 1);
    CombineCases(c, o(x), log, x, kind, ins, at + 1);
    if Settled(log, x) {
      CollectionStep(c, o(x), log, x, kind, ins, means, at + 1);
      SameJoinRecord(c, log, ins.log, x, kind, j);
    } else {
      JoinStep(c, o(x), x, kind, ins, means, at + 1);
      JoinLog(c, o(x), x, kind, ins, at + 1);
      OwnBeyond(ins.log, e.log, q, n, at);
      InputsFrameAgree(c, w, ins.log, e.log, q, n, inputs, f - 1);
    }
    CombineSteps(c, o, w, q, n, kind, inputs, f, e, g);
  }

  lemma {:induction false} InputsStepFacts(
      c: Codec, o: Oracle, w: World, q: Id, n: nat, inputs: seq<Op>, f: nat, ins: Inputs, g: nat)
    requires InputsStep(c, o, w, q, n, inputs, f, ins, g)
    ensures InputsAgree(c, w, ins.log, q, n, inputs, f)
    ensures O.Part(ins.done, InputMeanings(c, w, q, n, inputs, f))
    ensures Persists(o) && f <= g ==> AllSome(ins.done)
  {
    hide InputsAgree, InputMeanings, Persists, AllSome, O.Part;
  }

  // A recorded winner is driven alone, and the other inputs keep their records.

  lemma {:induction false} InputAt(c: Codec, w: World, log: Log, q: Id, n: nat, inputs: seq<Op>, f: nat, i: nat)
    requires i < |inputs| && InputsAgree(c, w, log, q, n, inputs, f)
    ensures OpAgrees(c, w, log, q, n + Widths(inputs[..i]), inputs[i], f)
    ensures OpMeaning(c, w, q, n + Widths(inputs[..i]), inputs[i], f) == InputMeanings(c, w, q, n, inputs, f)[i]
    decreases |inputs|
  {
    hide OpAgrees, OpMeaning, Width;
    if i == 0 {
      assert inputs[..0] == [];
    } else {
      InputAt(c, w, log, q, n + Width(inputs[0]), inputs[1..], f, i - 1);
      assert inputs[..i][1..] == inputs[1..][..i - 1] && inputs[..i][0] == inputs[0];
    }
  }

  lemma {:induction false} InputChanged(
      c: Codec, w: World, a: Log, b: Log, q: Id, n: nat, inputs: seq<Op>, f: nat, i: nat)
    requires i < |inputs| && InputsAgree(c, w, a, q, n, inputs, f)
    requires
      var from := n + Widths(inputs[..i]);
      OpAgrees(c, w, b, q, from, inputs[i], f) && SameOutside(a, b, q, from, from + Width(inputs[i]))
    ensures InputsAgree(c, w, b, q, n, inputs, f)
    decreases |inputs|
  {
    hide OpAgrees, Width, SameOutside, Agree;
    var first, others := inputs[0], inputs[1..];
    if i == 0 {
      assert inputs[..0] == [];
      OutsideAgrees(a, b, q, n, n + Width(first), n + Width(first), n + Width(first) + Widths(others));
      InputsFrameAgree(c, w, a, b, q, n + Width(first), others, f);
    } else {
      assert inputs[..i][1..] == others[..i - 1] && inputs[..i][0] == first;
      var from := n + Widths(inputs[..i]);
      OutsideAgrees(a, b, q, from, from + Width(inputs[i]), n, n + Width(first));
      OpFrameAgrees(c, w, a, b, q, n, first, f);
      InputChanged(c, w, a, b, q, n + Width(first), others, f, i - 1);
    }
  }

  lemma {:induction false} WinnerMakesSense(
      c: Codec, o: Oracle, w: World, log: Log, q: Id, n: nat, kind: CombinatorKind, inputs: seq<Op>, f: nat, g: nat)
    requires 0 < f && 0 < g && Stable(c) && Follows(o, w)
    requires OpAgrees(c, w, log, q, n, Combine(kind, inputs), f)
    requires OpMeaning(c, w, q, n, Combine(kind, inputs), f).Some?
    requires !Closed(log, q + [n + Widths(inputs)]) && DrivesWinner(log, q + [n + Widths(inputs)], kind)
    ensures OpSteps(c, o, w, q, n, Combine(kind, inputs), f, RunOp(c, o, log, q, n, Combine(kind, inputs), g), g)
    decreases g - 1, 4
  {
    hide *;
    var at := n + Widths(inputs);
    var x := q + [at];
    var means := InputMeanings(c, w, q, n, inputs, f - 1);
    var j := O.Outcome(kind, means, []);
    CombineParts(c, w, log, q, n, kind, inputs, f);
    CombineUnfolds(c, o, log, q, n, kind, inputs, g);
    WinnerRecorded(c, log, x, kind, means, inputs);
    var i := j.index;
    var from := n + Widths(inputs[..i]);
    var input := RunOp(c, o, log, q, from, inputs[i], g - 1);
    InputAt(c, w, log, q, n, inputs, f - 1, i);
    OpMakesSense(c, o, w, log, q, from, inputs[i], f - 1, g - 1);
    OpStepsFacts(c, o, w, q, from, inputs[i], f - 1, input, g - 1);
    OpFrame(c, o, log, q, from, inputs[i], g - 1);
    InputChanged(c, w, log, input.log, q, n, inputs, f - 1, i);
    OffsetInside(inputs, i);
    PositionUntouched(log, input.log, q, from, input.next, at);
    SameJoinRecord(c, log, input.log, x, kind, j);
    WinnerStep(c, o(x), log, x, kind, input, means, at + 1);
    WinnerLog(c, o(x), x, input, at + 1);
    CombineSteps(c, o, w, q, n, kind, inputs, f, WinnerRebuilt(c, o(x), x, input, at + 1), g);
  }

  lemma WinnerLog(c: Codec, ch: Choice, x: Id, input: Exec<OpResult>, next: nat)
    ensures WinnerRebuilt(c, ch, x, input, next).log == input.log
  {
    hide SameDecoded;
  }

  lemma WinnerRecorded(c: Codec, log: Log, x: Id, kind: CombinatorKind, means: O.Done, inputs: seq<Op>)
    requires JoinRecord(c, log, x, kind, O.Outcome(kind, means, [])) && DrivesWinner(log, x, kind)
    requires |means| == |inputs| && AllSome(means)
    ensures
      var j := O.Outcome(kind, means, []);
      && j.Winner? && j.index < |inputs| && means[j.index].Some?
      && WinnerOf(log[x]) == Some(j.index) && WinnerDriven(log, x, kind, inputs) == Some(j.index)
  {
    O.OutcomeIsTrue(kind, means, []);
    hide O.Outcome, JoinMeaning, ReplayCombinator;
  }

  // ----- What the service drops -----

  lemma SameRecord(a: Log, b: Log, x: Id)
    requires (x in a <==> x in b) && (x in a ==> a[x] == b[x])
    ensures (Closed(a, x) <==> Closed(b, x)) && (Settled(a, x) <==> Settled(b, x)) && (Settled(a, x) ==> a[x] == b[x])
  {
  }

  /** A run does not need what the service may drop. */
  lemma {:induction false} OpTrimmedAgrees(c: Codec, w: World, a: Log, b: Log, q: Id, n: nat, op: Op, fuel: nat)
    requires Sane(a) && OpAgrees(c, w, a, q, n, op, fuel) && Trimmed(a, b, q, n, n + Width(op))
    ensures OpAgrees(c, w, b, q, n, op, fuel)
    decreases fuel, 2
  {
    hide Sane, Trimmed, LeafRecord, ChildRecord, JoinRecord, O.Outcome, OpMeaning, InputMeanings, ProgMeaning;
    hide Settled, Closed, Frees, TrimmedFrom;
    if fuel > 0 {
      var at := n + Width(op) - 1;
      TrimmedOwn(a, b, q, at, n, n + Width(op));
      SameRecord(a, b, q + [at]);
      SaneFrees(a, q + [at]);
      RecordsFrame(c, a, b, q + [at]);
      match op
      case Leaf(source) =>
      case Child(body) =>
        if !Closed(a, q + [n]) {
          TrimmedBelow(a, b, q, n, n, n + 1);
          TrimmedFromPart(a, b, q + [n], 0, 1);
          ProgTrimmedAgrees(c, w, a, b, q + [n], 1, body, fuel - 1);
        }
      case Combine(kind, inputs) =>
        TrimmedPart(a, b, q, n, n + Width(op), n, n + Widths(inputs));
        if !Closed(a, q + [at]) { InputsTrimmedAgree(c, w, a, b, q, n, inputs, fuel - 1); }
    }
  }

  lemma {:induction false} InputsTrimmedAgree(
      c: Codec, w: World, a: Log, b: Log, q: Id, n: nat, inputs: seq<Op>, fuel: nat)
    requires Sane(a) && InputsAgree(c, w, a, q, n, inputs, fuel) && Trimmed(a, b, q, n, n + Widths(inputs))
    ensures InputsAgree(c, w, b, q, n, inputs, fuel)
    decreases fuel, 3, |inputs|
  {
    hide Sane, Trimmed, OpAgrees;
    if inputs != [] {
      TrimmedPart(a, b, q, n, n + Widths(inputs), n, n + Width(inputs[0]));
      TrimmedPart(a, b, q, n, n + Widths(inputs), n + Width(inputs[0]), n + Widths(inputs));
      OpTrimmedAgrees(c, w, a, b, q, n, inputs[0], fuel);
      InputsTrimmedAgree(c, w, a, b, q, n + Width(inputs[0]), inputs[1..], fuel);
    }
  }

  lemma {:induction false} ProgTrimmedAgrees(c: Codec, w: World, a: Log, b: Log, q: Id, n: nat, p: Prog, fuel: nat)
    requires Sane(a) && ProgAgrees(c, w, a, q, n, p, fuel) && TrimmedFrom(a, b, q, n)
    ensures ProgAgrees(c, w, b, q, n, p, fuel)
    decreases fuel, 0
  {
    hide Sane, Trimmed, OpAgrees, OpMeaning;
    if p.Do? && fuel > 0 {
      var m := OpMeaning(c, w, q, n, p.op, fuel - 1);
      assert Trimmed(a, b, q, n, n + Width(p.op));
      OpTrimmedAgrees(c, w, a, b, q, n, p.op, fuel - 1);
      if m.Some? {
        TrimmedFromPart(a, b, q, n, n + Width(p.op));
        ProgTrimmedAgrees(c, w, a, b, q, n + Width(p.op), p.k(m.value), fuel - 1);
      }
    }
  }

  // ----- The theorems -----

  /** Any number of interrupted invocations, with whatever the service drops between them, leave a log
      from which the next invocation returns the meaning of the handler, if it returns at all. */
  lemma {:induction false} InvocationsAgree(
      c: Codec, w: World, oracles: seq<Oracle>, logs: seq<Log>, p: Prog, f: nat, g: nat, i: nat)
    requires Stable(c) && ProgMeaning(c, w, [], 1, p, f).Some?
    requires Execution(c, oracles, logs, p, g) && i < |logs|
    requires forall i | 0 <= i < |oracles| :: Follows(oracles[i], w)
    ensures ProgAgrees(c, w, logs[i], [], 1, p, f)
  {
    hide ProgAgrees, RunProg, ProgMeaning, Stable, Follows, Pruned, Sane, TrimmedFrom, LegalWrites, AfterWrites;
    if i == 0 {
      EmptyAgrees(c, w, [], 1, p, f);
    } else {
      var o, log := oracles[i - 1], logs[i - 1];
      var e := RunProg(c, o, log, [], 1, p, g);
      InvocationsAgree(c, w, oracles, logs, p, f, g, i - 1);
      ProgMakesSense(c, o, w, log, [], 1, p, f, g);
      ProgStepsFacts(c, o, w, [], 1, p, f, e, g);
      assert Pruned(e.log, logs[i - 1 + 1]);
      PrunedIsTrimmed(e.log, logs[i]);
      TrimmedFromPart(e.log, logs[i], [], 0, 1);
      ExecutionIsSane(c, oracles, logs, p, g, i - 1);
      ProgWritesLegally(c, o, log, [], 1, p, g);
      ProgTrimmedAgrees(c, w, e.log, logs[i], [], 1, p, f);
    }
  }

  /** A handler that is interrupted any number of times, anywhere, returns what it means: the same as
      a run that nothing interrupts. And from any point it can be at, an invocation that nothing
      interrupts completes. */
  lemma InterruptedRunsRecover(
      c: Codec, w: World, oracles: seq<Oracle>, logs: seq<Log>, last: Oracle, uninterrupted: Oracle,
      p: Prog, f: nat, g: nat)
    requires Stable(c) && ProgMeaning(c, w, [], 1, p, f).Some? && Execution(c, oracles, logs, p, g)
    requires (forall i | 0 <= i < |oracles| :: Follows(oracles[i], w)) && Follows(last, w)
    requires Follows(uninterrupted, w) && Persists(uninterrupted) && f <= g
    ensures
      var e := RunProg(c, last, logs[|oracles|], [], 1, p, g);
      && RunProg(c, uninterrupted, map[], [], 1, p, g).result == ProgMeaning(c, w, [], 1, p, f)
      && (e.result.Some? ==> e.result == RunProg(c, uninterrupted, map[], [], 1, p, g).result)
      && (Persists(last) ==> e.result.Some?)
  {
    hide ProgAgrees, RunProg, ProgMeaning, Stable, Follows, Persists, Pruned;
    EmptyAgrees(c, w, [], 1, p, f);
    ProgMakesSense(c, uninterrupted, w, map[], [], 1, p, f, g);
    ProgStepsFacts(c, uninterrupted, w, [], 1, p, f, RunProg(c, uninterrupted, map[], [], 1, p, g), g);
    InvocationsAgree(c, w, oracles, logs, p, f, g, |oracles|);
    var log := logs[|oracles|];
    ProgMakesSense(c, last, w, log, [], 1, p, f, g);
    ProgStepsFacts(c, last, w, [], 1, p, f, RunProg(c, last, log, [], 1, p, g), g);
  }
}
