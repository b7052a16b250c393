/** Which combinator outcomes depend on the order in which the inputs settle. */
module SettleOrder {
  import opened Options
  import opened Errors
  import opened Combinators

  type Done = seq<Option<OpResult>>

  // ----- A settle order enumerates the completed inputs -----

  /** settles holds exactly the completed inputs of done, each once. */
  ghost predicate Enumerates(settles: seq<Settle>, done: Done) {
    && Settling(|done|, settles)
    && (forall s | s in settles :: s.index < |done| && done[s.index] == Some(s.result))
    && (forall i | 0 <= i < |done| && done[i].Some? :: Settle(i, done[i].value) in settles)
  }

  lemma EnumeratesCons(done: Done, i: nat, rest: seq<Settle>)
    requires i < |done| && done[i].Some? && Enumerates(rest, done[i := None])
    ensures Enumerates([Settle(i, done[i].value)] + rest, done)
  {
    var all := [Settle(i, done[i].value)] + rest;
    forall j | 0 <= j < |rest| ensures rest[j].index != i {
      assert rest[j] in rest;
    }
    forall k | 0 <= k < |done| && done[k].Some? ensures Settle(k, done[k].value) in all {
      if k == i { assert all[0] == Settle(k, done[k].value); }
      else { assert done[i := None][k] == done[k]; assert Settle(k, done[k].value) in rest; }
    }
  }

  lemma {:induction false} InOrderEnumerates(done: Done, from: nat)
    requires from <= |done| && forall i | 0 <= i < from :: done[i].None?
    ensures Enumerates(InOrder(done, from), done)
    decreases |done| - from
  {
    if from < |done| {
      if done[from].Some? {
        var others := done[from := None];
        InOrderEnumerates(others, from + 1);
        InOrderFrame(done, others, from + 1);
        EnumeratesCons(done, from, InOrder(done, from + 1));
      } else {
        InOrderEnumerates(done, from + 1);
      }
    }
  }

  lemma {:induction false} InOrderFrame(a: Done, b: Done, from: nat)
    requires |a| == |b| && forall i | from <= i < |a| :: a[i] == b[i]
    ensures InOrder(a, from) == InOrder(b, from)
    decreases |a| - from
  {
    if from < |a| { InOrderFrame(a, b, from + 1); }
  }

  /** Whatever the order, every completed input settles exactly once. */
  lemma {:induction false} SettlesEnumerates(done: Done, order: seq<nat>)
    ensures Enumerates(Settles(done, order), done)
    decreases |order|
  {
    if order == [] {
      InOrderEnumerates(done, 0);
    } else if order[0] < |done| && done[order[0]].Some? {
      SettlesEnumerates(done[order[0] := None], order[1..]);
      EnumeratesCons(done, order[0], Settles(done[order[0] := None], order[1..]));
    } else {
      SettlesEnumerates(done, order[1..]);
    }
  }

  lemma SlotsOfEnumeration(settles: seq<Settle>, done: Done)
    requires Enumerates(settles, done)
    ensures Slots(|done|, settles) == done
  {
    forall k | 0 <= k < |done| ensures Slots(|done|, settles)[k] == done[k] {
      SlotOf(|done|, settles, k);
      if done[k].Some? {
        assert Settle(k, done[k].value) in settles;
      } else {
        forall i | 0 <= i < |settles| ensures settles[i].index != k {
          assert settles[i] in settles;
        }
      }
    }
  }

  /** The outcome of the inputs completed so far, in some order. */
  function Outcome(kind: CombinatorKind, done: Done, order: seq<nat>): Joined {
    Join(kind, |done|, Settles(done, order))
  }

  // ----- Order independence -----

  /** part holds some of the completed inputs of done. */
  ghost predicate Part(part: Done, done: Done) {
    |part| == |done| && forall i | 0 <= i < |part| && part[i].Some? :: part[i] == done[i]
  }

  /** Once every input completes, the combinator can have one outcome only, whichever inputs have
      settled when it is decided, and in whichever order. */
  ghost predicate OrderFree(kind: CombinatorKind, done: Done) {
    forall part: Done, order: seq<nat> | Part(part, done) ::
      Outcome(kind, part, order) == Waiting || Outcome(kind, part, order) == Outcome(kind, done, [])
  }

  /** join_all has the same items in input order for every settle order and every mix. */
  lemma JoinAllIsOrderFree(done: Done)
    requires AllSettled(done)
    ensures OrderFree(JoinAll, done)
    ensures Outcome(JoinAll, done, []) == Results(ResultsOf(done))
  {
    forall part: Done, order: seq<nat> | Part(part, done)
      ensures Outcome(JoinAll, part, order) == Waiting || Outcome(JoinAll, part, order) == Results(ResultsOf(done))
    {
      SettlesEnumerates(part, order);
      SlotsOfEnumeration(Settles(part, order), part);
      if AllSettled(part) { assert part == done; }
    }
    SettlesEnumerates(done, []);
    SlotsOfEnumeration(Settles(done, []), done);
  }

  lemma {:induction false} NoFirst(settles: seq<Settle>, ok: bool)
    requires forall s | s in settles :: s.result.Ok? != ok
    ensures First(settles, ok) == None
  {
    NoneFirst(settles, ok);
  }

  /** A try_join_all whose inputs all succeed gives their values in input order. */
  lemma SuccessIsOrderFree(done: Done)
    requires AllOk(done)
    ensures OrderFree(TryJoinAll, done)
    ensures Outcome(TryJoinAll, done, []) == Values(ValuesOf(done))
  {
    forall part: Done, order: seq<nat> | Part(part, done)
      ensures Outcome(TryJoinAll, part, order) == Waiting || Outcome(TryJoinAll, part, order) == Values(ValuesOf(done))
    {
      SettlesEnumerates(part, order);
      SlotsOfEnumeration(Settles(part, order), part);
      NoFirst(Settles(part, order), false);
      if AllOk(part) { assert part == done; }
    }
    SettlesEnumerates(done, []);
    SlotsOfEnumeration(Settles(done, []), done);
    NoFirst(Settles(done, []), false);
  }

  /** A select_ok whose inputs all fail keeps every loser, in input order. */
  lemma AllFailedIsOrderFree(done: Done)
    requires AllErr(done)
    ensures OrderFree(SelectOk, done)
    ensures |done| > 0 ==> Outcome(SelectOk, done, []) == Failure(AllFailure(ErrorsOf(done)))
  {
    forall part: Done, order: seq<nat> | Part(part, done) && |done| > 0
      ensures Outcome(SelectOk, part, order) == Waiting
           || Outcome(SelectOk, part, order) == Failure(AllFailure(ErrorsOf(done)))
    {
      SettlesEnumerates(part, order);
      SlotsOfEnumeration(Settles(part, order), part);
      NoFirst(Settles(part, order), true);
      if AllErr(part) { assert part == done; }
    }
    SettlesEnumerates(done, []);
    SlotsOfEnumeration(Settles(done, []), done);
    NoFirst(Settles(done, []), true);
  }

  /** What a decided outcome says of its inputs. A winner and a first failure are completed inputs
      with that result; values, items and losers are those of every input, in input order. */
  lemma OutcomeIsTrue(kind: CombinatorKind, done: Done, order: seq<nat>)
    ensures
      match Outcome(kind, done, order)
      case Waiting => true
      case Values(values) => kind.TryJoinAll? && AllOk(done) && values == ValuesOf(done)
      case Results(results) => kind.JoinAll? && AllSettled(done) && results == ResultsOf(done)
      case Winner(i, v) => (kind.SelectOk? || kind.Race?) && i < |done| && done[i] == Some(Ok(v))
      case Failure(JoinFailure(i, e)) => kind.TryJoinAll? && i < |done| && done[i] == Some(Err(e))
      case Failure(NoInputs) => (kind.SelectOk? || kind.Race?) && done == []
      case Failure(AllFailure(losers)) => kind.SelectOk? && done != [] && AllErr(done) && losers == ErrorsOf(done)
      case Failure(FirstFailure(e)) => kind.Race? && exists i :: 0 <= i < |done| && done[i] == Some(Err(e))
  {
    var settles := Settles(done, order);
    SettlesEnumerates(done, order);
    SlotsOfEnumeration(settles, done);
    if kind.Race? && settles != [] {
      assert settles[0] in settles && done[settles[0].index] == Some(settles[0].result);
    }
  }

  /** The possible winners of a race or a select_ok are exactly its completed successes: each of them wins
      when it settles first. */
  lemma PossibleWinners(kind: CombinatorKind, done: Done, i: nat, v: Value)
    requires kind.Race? || kind.SelectOk?
    ensures (exists order :: Outcome(kind, done, order) == Winner(i, v)) <==> i < |done| && done[i] == Some(Ok(v))
    ensures i < |done| && done[i] == Some(Ok(v)) ==> Outcome(kind, done, [i]) == Winner(i, v)
  {
    if i < |done| && done[i] == Some(Ok(v)) {
      assert Settles(done, [i])[0] == Settle(i, Ok(v));
      assert Outcome(kind, done, [i]) == Winner(i, v);
    }
    forall order | Outcome(kind, done, order) == Winner(i, v) ensures i < |done| && done[i] == Some(Ok(v)) {
      OutcomeIsTrue(kind, done, order);
    }
  }

  /** A decided outcome can be decided again, whatever inputs complete besides. */
  lemma DecidedStays(kind: CombinatorKind, part: Done, done: Done, order: seq<nat>) returns (order': seq<nat>)
    requires Part(part, done) && Outcome(kind, part, order) != Waiting
    ensures Outcome(kind, done, order') == Outcome(kind, part, order)
  {
    OutcomeIsTrue(kind, part, order);
    if AllSettled(part) {
      assert part == done;
      order' := order;
    } else {
      var i := Decider(kind, part, order);
      order' := [i];
      assert Settles(done, [i])[0] == Settle(i, part[i].value);
      SettlesEnumerates(part, order);
      SlotsOfEnumeration(Settles(part, order), part);
    }
  }

  /** The input that decided an outcome before all inputs had settled. */
  lemma Decider(kind: CombinatorKind, part: Done, order: seq<nat>) returns (i: nat)
    requires Outcome(kind, part, order) != Waiting && !AllSettled(part)
    ensures i < |part| && part[i].Some?
    ensures
      match kind
      case TryJoinAll => part[i].value.Err?
        && Outcome(kind, part, order) == Failure(JoinFailure(i, part[i].value.error))
      case JoinAll => false
      case SelectOk => part[i].value.Ok? && Outcome(kind, part, order) == Winner(i, part[i].value.value)
      case Race => Outcome(kind, part, order) == if part[i].value.Ok? then Winner(i, part[i].value.value)
                                                 else Failure(FirstFailure(part[i].value.error))
  {
    i := 0;
    var settles := Settles(part, order);
    SettlesEnumerates(part, order);
    SlotsOfEnumeration(settles, part);
    match kind
    case TryJoinAll => i := First(settles, false).value.index;
    case JoinAll => assert false;
    case SelectOk => i := First(settles, true).value.index;
    case Race => i := settles[0].index;
  }
}
