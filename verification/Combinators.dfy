/** The four combinators: how the settled inputs give one outcome, and how a failure is recorded
    and read back.
 */
module Combinators {
  import opened Options
  import opened Errors

  datatype CombinatorKind = TryJoinAll | JoinAll | SelectOk | Race

  /** One input that settled, with its index. */
  datatype Settle = Settle(index: nat, result: OpResult)

  datatype Failure =
    | JoinFailure(index: nat, error: OpErr)
    | NoInputs
    | AllFailure(losers: seq<OpErr>)
    | FirstFailure(error: OpErr)

  datatype Joined =
    | Waiting
    | Values(values: seq<Value>)
    | Results(results: seq<OpResult>)
    | Winner(index: nat, value: Value)
    | Failure(failure: Failure)

  // ----- Settle orders -----

  /** The slots of n inputs once some of them settled. */
  function Slots(n: nat, settles: seq<Settle>): (slots: seq<Option<OpResult>>)
    ensures |slots| == n
  {
    if settles == [] then seq(n, _ => None)
    else
      var last := settles[|settles| - 1];
      var before := Slots(n, settles[..|settles| - 1]);
      if last.index < n then before[last.index := Some(last.result)] else before
  }

  /** Every input settles at most once. */
  ghost predicate Settling(n: nat, settles: seq<Settle>) {
    && (forall i | 0 <= i < |settles| :: settles[i].index < n)
    && (forall i, j | 0 <= i < j < |settles| :: settles[i].index != settles[j].index)
  }

  /** The completed inputs in some order: those that order names, each once, then the others. */
  function Settles(done: seq<Option<OpResult>>, order: seq<nat>): seq<Settle>
    decreases |order|
  {
    if order == [] then InOrder(done, 0)
    else
      var i := order[0];
      if i < |done| && done[i].Some? then [Settle(i, done[i].value)] + Settles(done[i := None], order[1..])
      else Settles(done, order[1..])
  }

  function InOrder(done: seq<Option<OpResult>>, from: nat): seq<Settle>
    decreases |done| - from
  {
    if from >= |done| then []
    else (if done[from].Some? then [Settle(from, done[from].value)] else []) + InOrder(done, from + 1)
  }

  predicate AllSettled(slots: seq<Option<OpResult>>) {
    forall i | 0 <= i < |slots| :: slots[i].Some?
  }

  predicate AllOk(slots: seq<Option<OpResult>>) {
    forall i | 0 <= i < |slots| :: slots[i].Some? && slots[i].value.Ok?
  }

  predicate AllErr(slots: seq<Option<OpResult>>) {
    forall i | 0 <= i < |slots| :: slots[i].Some? && slots[i].value.Err?
  }

  function ValuesOf(slots: seq<Option<OpResult>>): seq<Value>
    requires AllOk(slots)
  {
    seq(|slots|, i requires 0 <= i < |slots| => slots[i].value.value)
  }

  function ResultsOf(slots: seq<Option<OpResult>>): seq<OpResult>
    requires AllSettled(slots)
  {
    seq(|slots|, i requires 0 <= i < |slots| => slots[i].value)
  }

  function ErrorsOf(slots: seq<Option<OpResult>>): seq<OpErr>
    requires AllErr(slots)
  {
    seq(|slots|, i requires 0 <= i < |slots| => slots[i].value.error)
  }

  /** The first settled input with the outcome asked for. */
  function First(settles: seq<Settle>, ok: bool): (s: Option<Settle>)
    ensures s.Some? ==> s.value in settles && s.value.result.Ok? == ok
  {
    if settles == [] then None
    else if settles[0].result.Ok? == ok then Some(settles[0])
    else First(settles[1..], ok)
  }

  /** What a combinator over n inputs makes of the inputs that settled, in this order. */
  function Join(kind: CombinatorKind, n: nat, settles: seq<Settle>): Joined {
    var slots := Slots(n, settles);
    match kind
    case TryJoinAll =>
      var failed := First(settles, false);
      if failed.Some? then Failure(JoinFailure(failed.value.index, failed.value.result.error))
      else if AllOk(slots) then Values(ValuesOf(slots))
      else Waiting
    case JoinAll =>
      if AllSettled(slots) then Results(ResultsOf(slots)) else Waiting
    case SelectOk =>
      var won := First(settles, true);
      if n == 0 then Failure(NoInputs)
      else if won.Some? then Winner(won.value.index, won.value.result.value)
      else if AllErr(slots) then Failure(AllFailure(ErrorsOf(slots)))
      else Waiting
    case Race =>
      if n == 0 then Failure(NoInputs)
      else if settles == [] then Waiting
      else if settles[0].result.Ok? then Winner(settles[0].index, settles[0].result.value)
      else Failure(FirstFailure(settles[0].result.error))
  }

  // ----- The join loops -----

  lemma SlotsStep(n: nat, settles: seq<Settle>, i: nat)
    requires Settling(n, settles) && i < |settles|
    ensures Slots(n, settles[..i + 1]) == Slots(n, settles[..i])[settles[i].index := Some(settles[i].result)]
    ensures Slots(n, settles[..i])[settles[i].index] == None
  {
    assert settles[..i + 1][..i] == settles[..i];
    SlotOf(n, settles[..i], settles[i].index);
  }

  /** A slot is filled by the input with its index, and by no other. */
  lemma {:induction false} SlotOf(n: nat, settles: seq<Settle>, k: nat)
    requires k < n && Settling(n, settles)
    ensures forall i | 0 <= i < |settles| && settles[i].index == k :: Slots(n, settles)[k] == Some(settles[i].result)
    ensures (forall i | 0 <= i < |settles| :: settles[i].index != k) ==> Slots(n, settles)[k] == None
  {
    if settles != [] {
      SlotOf(n, settles[..|settles| - 1], k);
    }
  }

  lemma {:induction false} FirstIn(settles: seq<Settle>, ok: bool, k: nat)
    requires k < |settles| && settles[k].result.Ok? == ok
    requires forall i | 0 <= i < k :: settles[i].result.Ok? != ok
    ensures First(settles, ok) == Some(settles[k])
  {
    if k > 0 { FirstIn(settles[1..], ok, k - 1); }
  }

  lemma {:induction false} NoneFirst(settles: seq<Settle>, ok: bool)
    requires forall i | 0 <= i < |settles| :: settles[i].result.Ok? != ok
    ensures First(settles, ok) == None
  {
    if settles != [] { NoneFirst(settles[1..], ok); }
  }

  /** The try_join_all join: fills the slots and stops at the first failure. */
  method TryJoinAllInputs(n: nat, settles: seq<Settle>) returns (joined: Joined)
    requires Settling(n, settles)
    ensures joined == Join(TryJoinAll, n, settles)
  {
    var results := new Option<OpResult>[n](_ => None);
    for k := 0 to |settles|
      invariant results[..] == Slots(n, settles[..k])
      invariant forall i | 0 <= i < k :: settles[i].result.Ok?
      invariant forall i | 0 <= i < n && results[i].Some? :: results[i].value.Ok?
    {
      SlotsStep(n, settles, k);
      if settles[k].result.Err? {
        FirstIn(settles, false, k);
        return Failure(JoinFailure(settles[k].index, settles[k].result.error));
      }
      results[settles[k].index] := Some(settles[k].result);
    }
    NoneFirst(settles, false);
    assert settles[..|settles|] == settles;
    var collected: seq<Value> := [];
    for i := 0 to n
      invariant results[..] == Slots(n, settles)
      invariant |collected| == i
      invariant forall j | 0 <= j < i :: results[j].Some? && collected[j] == results[j].value.value
    {
      if results[i].None? {
        assert !AllOk(results[..]);
        return Waiting;
      }
      collected := collected + [results[i].value.value];
    }
    joined := Values(collected);
  }

  /** The join_all join: fills the slots and never stops early. */
  method JoinAllInputs(n: nat, settles: seq<Settle>) returns (joined: Joined)
    requires Settling(n, settles)
    ensures joined == Join(JoinAll, n, settles)
  {
    var outcomes := new Option<OpResult>[n](_ => None);
    for k := 0 to |settles|
      invariant outcomes[..] == Slots(n, settles[..k])
    {
      SlotsStep(n, settles, k);
      outcomes[settles[k].index] := Some(settles[k].result);
    }
    assert settles[..|settles|] == settles;
    var collected: seq<OpResult> := [];
    for i := 0 to n
      invariant outcomes[..] == Slots(n, settles)
      invariant |collected| == i
      invariant forall j | 0 <= j < i :: outcomes[j].Some? && collected[j] == outcomes[j].value
    {
      if outcomes[i].None? {
        assert !AllSettled(outcomes[..]);
        return Waiting;
      }
      collected := collected + [outcomes[i].value];
    }
    joined := Results(collected);
  }

  ghost predicate SortedByIndex(errors: seq<Settle>) {
    forall i, j | 0 <= i < j < |errors| :: errors[i].index < errors[j].index
  }

  /** Puts the errors in input order. */
  method SortByIndex(n: nat, errors: seq<Settle>) returns (sorted: seq<Settle>)
    requires Settling(n, errors)
    ensures SortedByIndex(sorted) && |sorted| == |errors|
    ensures forall s :: s in sorted <==> s in errors
  {
    sorted := [];
    for k := 0 to |errors|
      invariant SortedByIndex(sorted) && |sorted| == k
      invariant forall s :: s in sorted <==> s in errors[..k]
    {
      var e := errors[k];
      var at := |sorted|;
      while at > 0 && sorted[at - 1].index > e.index
        invariant 0 <= at <= |sorted|
        invariant forall j | at <= j < |sorted| :: sorted[j].index > e.index
      {
        at := at - 1;
      }
      assert errors[..k + 1] == errors[..k] + [e];
      InsertKeepsOrder(sorted, at, e);
      sorted := sorted[..at] + [e] + sorted[at..];
    }
    assert errors[..|errors|] == errors;
  }

  lemma InsertKeepsOrder(sorted: seq<Settle>, at: nat, e: Settle)
    requires SortedByIndex(sorted) && at <= |sorted|
    requires forall s | s in sorted :: s.index != e.index
    requires forall j | at <= j < |sorted| :: sorted[j].index > e.index
    requires at > 0 ==> sorted[at - 1].index <= e.index
    ensures SortedByIndex(sorted[..at] + [e] + sorted[at..])
    ensures forall s :: s in sorted[..at] + [e] + sorted[at..] <==> s in sorted || s == e
  {
    var inserted := sorted[..at] + [e] + sorted[at..];
    forall i | 0 <= i < at ensures sorted[i].index < e.index {
      assert sorted[at - 1] in sorted;
    }
    forall i, j | 0 <= i < j < |inserted| ensures inserted[i].index < inserted[j].index {
      assert inserted[i] == if i < at then sorted[i] else if i == at then e else sorted[i - 1];
      assert inserted[j] == if j < at then sorted[j] else if j == at then e else sorted[j - 1];
    }
    InsertKeepsMembers(sorted, at, e);
  }

  lemma InsertKeepsMembers<T>(sorted: seq<T>, at: nat, e: T)
    requires at <= |sorted|
    ensures forall s :: s in sorted[..at] + [e] + sorted[at..] <==> s in sorted || s == e
  {
    assert sorted == sorted[..at] + sorted[at..];
  }

  /** A sorted list of n settles with distinct indexes below n has each index at its own place. */
  lemma {:induction false} SortedIsIndexed(n: nat, sorted: seq<Settle>, k: nat)
    requires SortedByIndex(sorted) && k < |sorted|
    requires forall s | s in sorted :: s.index < n
    ensures k <= sorted[k].index <= n - |sorted| + k
  {
    var i := k;
    while i < |sorted| - 1
      invariant k <= i < |sorted| && sorted[k].index <= sorted[i].index - (i - k)
    {
      i := i + 1;
    }
    assert sorted[i] in sorted;
    var j := k;
    while j > 0
      invariant 0 <= j <= k && sorted[k].index >= sorted[j].index + (k - j)
    {
      j := j - 1;
    }
  }

  /** The select_ok join: the first success, or every error in input order. */
  method SelectOkInputs(n: nat, settles: seq<Settle>) returns (joined: Joined)
    requires Settling(n, settles)
    ensures joined == Join(SelectOk, n, settles)
  {
    if n == 0 {
      return Failure(NoInputs);
    }
    var errors: seq<Settle> := [];
    for k := 0 to |settles|
      invariant errors == settles[..k]
      invariant forall i | 0 <= i < k :: settles[i].result.Err?
    {
      if settles[k].result.Ok? {
        FirstIn(settles, true, k);
        return Winner(settles[k].index, settles[k].result.value);
      }
      errors := errors + [settles[k]];
    }
    assert settles[..|settles|] == settles;
    if |errors| < n {
      StillWaiting(n, settles);
      return Waiting;
    }
    TooMany(n, settles);
    var sorted := SortByIndex(n, errors);
    var losers: seq<OpErr> := [];
    for k := 0 to n
      invariant |losers| == k
      invariant forall i | 0 <= i < k :: Slots(n, settles)[i] == Some(Err(losers[i]))
    {
      SortedIsIndexed(n, sorted, k);
      assert sorted[k] in settles;
      SlotOf(n, settles, k);
      losers := losers + [sorted[k].result.error];
    }
    joined := Failure(AllFailure(losers));
    AllLost(n, settles, losers);
  }

  lemma StillWaiting(n: nat, settles: seq<Settle>)
    requires Settling(n, settles) && |settles| < n && forall i | 0 <= i < |settles| :: settles[i].result.Err?
    ensures Join(SelectOk, n, settles) == Waiting
  {
    NoneFirst(settles, true);
    MissingSlot(n, settles);
    hide Slots;
  }

  lemma AllLost(n: nat, settles: seq<Settle>, losers: seq<OpErr>)
    requires n > 0 && |losers| == n && forall i | 0 <= i < |settles| :: settles[i].result.Err?
    requires forall i | 0 <= i < n :: Slots(n, settles)[i] == Some(Err(losers[i]))
    ensures Join(SelectOk, n, settles) == Failure(AllFailure(losers))
  {
    NoneFirst(settles, true);
    hide Slots;
    assert AllErr(Slots(n, settles));
    assert losers == ErrorsOf(Slots(n, settles));
  }

  /** No more inputs settle than there are. */
  lemma TooMany(n: nat, settles: seq<Settle>)
    requires Settling(n, settles)
    ensures |settles| <= n
  {
    var indexes := set i | 0 <= i < |settles| :: settles[i].index;
    IndexCount(settles);
    SubsetBelow(indexes, n);
  }

  lemma {:induction false} IndexCount(settles: seq<Settle>)
    requires forall i, j | 0 <= i < j < |settles| :: settles[i].index != settles[j].index
    ensures |set i | 0 <= i < |settles| :: settles[i].index| == |settles|
  {
    if settles != [] {
      var init, last := settles[..|settles| - 1], settles[|settles| - 1];
      IndexCount(init);
      var before := set i | 0 <= i < |init| :: init[i].index;
      assert (set i | 0 <= i < |settles| :: settles[i].index) == before + {last.index};
    }
  }

  lemma {:induction false} SubsetBelow(indexes: set<nat>, n: nat)
    requires forall i | i in indexes :: i < n
    ensures |indexes| <= n
    decreases n
  {
    if n == 0 {
      assert indexes == {};
    } else {
      SubsetBelow(indexes - {n - 1}, n - 1);
    }
  }

  /** With fewer settles than inputs some slot is empty. */
  lemma {:induction false} MissingSlot(n: nat, settles: seq<Settle>)
    requires Settling(n, settles) && |settles| < n
    ensures !AllSettled(Slots(n, settles))
  {
    if AllSettled(Slots(n, settles)) {
      var indexes := set i | 0 <= i < |settles| :: settles[i].index;
      IndexCount(settles);
      forall k: nat | k < n ensures k in indexes {
        SlotOf(n, settles, k);
      }
      AllBelow(indexes, n);
    }
  }

  lemma {:induction false} AllBelow(indexes: set<nat>, n: nat)
    requires forall k: nat | k < n :: k in indexes
    ensures |indexes| >= n
  {
    if n > 0 {
      AllBelow(indexes - {n - 1}, n - 1);
    }
  }

  /** The race join: the first input that settled. */
  method RaceInputs(n: nat, settles: seq<Settle>) returns (joined: Joined)
    requires Settling(n, settles)
    ensures joined == Join(Race, n, settles)
  {
    if n == 0 {
      return Failure(NoInputs);
    }
    if settles == [] {
      return Waiting;
    }
    var first := settles[0];
    if first.result.Ok? {
      return Winner(first.index, first.result.value);
    }
    joined := Failure(FirstFailure(first.result.error));
  }
}
