/** The checkpoint log of an execution: what the service keeps of every operation, and how the
    writes of an invocation change it.
 */
module Records {
  import opened Options

  /** The positional ID of an operation: its place in the handler, as the minted positions of its
      contexts. The wire ID is an injective function of it. */
  type Id = seq<nat>

  /** A recorded failure. */
  datatype Wire = Wire(errorType: Option<string>, message: Option<string>, data: Option<string>,
    stackTrace: seq<string>)

  const NO_WIRE := Wire(None, None, None, [])

  datatype Status = Started | Pending | Ready | Succeeded | Failed | Cancelled | TimedOut | Stopped

  predicate Terminal(s: Status) {
    s.Succeeded? || s.Failed? || s.Cancelled? || s.TimedOut? || s.Stopped?
  }

  datatype Record = Record(status: Status, payload: Option<string>, replayChildren: bool, wire: Wire)

  type Log = map<Id, Record>

  /** What an update asks the service to record. */
  datatype Action =
    | Start
    | Succeed(payload: string, replayChildren: bool)
    | Fail(wire: Wire, replayChildren: bool)

  datatype Write = Write(id: Id, action: Action)

  function RecordOf(a: Action): Record {
    match a
    case Start => Record(Started, None, false, NO_WIRE)
    case Succeed(payload, keep) => Record(Succeeded, Some(payload), keep, NO_WIRE)
    case Fail(wire, keep) => Record(Failed, None, keep, wire)
  }

  function AfterWrite(log: Log, w: Write): Log {
    log[w.id := RecordOf(w.action)]
  }

  /** The log after the service recorded the writes in order. */
  function AfterWrites(log: Log, writes: seq<Write>): Log
    decreases |writes|
  {
    if writes == [] then log else AfterWrites(AfterWrite(log, writes[0]), writes[1..])
  }

  /** A START is of an operation without a record, and an outcome is of one that started and has
      no outcome yet. */
  predicate LegalWrite(log: Log, w: Write) {
    if w.action.Start? then w.id !in log else w.id in log && !Terminal(log[w.id].status)
  }

  predicate LegalWrites(log: Log, writes: seq<Write>)
    decreases |writes|
  {
    writes == [] || (LegalWrite(log, writes[0]) && LegalWrites(AfterWrite(log, writes[0]), writes[1..]))
  }

  lemma {:induction false} WritesConcat(log: Log, a: seq<Write>, b: seq<Write>)
    ensures AfterWrites(log, a + b) == AfterWrites(AfterWrites(log, a), b)
    ensures LegalWrites(log, a + b) <==> LegalWrites(log, a) && LegalWrites(AfterWrites(log, a), b)
    decreases |a|
  {
    if a == [] {
      assert a + b == b;
    } else {
      assert (a + b)[1..] == a[1..] + b;
      WritesConcat(AfterWrite(log, a[0]), a[1..], b);
    }
  }

  /** Legal writes never change or remove an outcome, whatever is written in between. */
  lemma {:induction false} OutcomesAreFinal(log: Log, writes: seq<Write>, id: Id)
    requires LegalWrites(log, writes) && id in log
    ensures id in AfterWrites(log, writes)
    ensures Terminal(log[id].status) ==> AfterWrites(log, writes)[id] == log[id]
    decreases |writes|
  {
    if writes != [] {
      OutcomesAreFinal(AfterWrite(log, writes[0]), writes[1..], id);
    }
  }

  /** A record that the log did not have was written. */
  lemma {:induction false} RecordWritten(log: Log, writes: seq<Write>, id: Id) returns (a: Action)
    requires id in AfterWrites(log, writes)
    ensures (id in log && AfterWrites(log, writes)[id] == log[id])
            || (Write(id, a) in writes && AfterWrites(log, writes)[id] == RecordOf(a))
    decreases |writes|
  {
    a := Start;
    if writes != [] {
      a := RecordWritten(AfterWrite(log, writes[0]), writes[1..], id);
      if writes[0].id == id && AfterWrites(log, writes)[id] == RecordOf(writes[0].action) { a := writes[0].action; }
    }
  }

  /** The writes of one operation among the writes of an invocation. */
  function WritesOf(writes: seq<Write>, id: Id): seq<Action> {
    if writes == [] then []
    else (if writes[0].id == id then [writes[0].action] else []) + WritesOf(writes[1..], id)
  }

  /** What legal writes hold of one operation: nothing, a START, an outcome of a started operation,
      or a START and then one outcome. */
  lemma {:induction false} AtMostOneCycle(log: Log, writes: seq<Write>, id: Id)
    requires LegalWrites(log, writes)
    ensures
      var mine := WritesOf(writes, id);
      && |mine| <= 2
      && (|mine| == 2 ==> id !in log && mine[0] == Start && mine[1] != Start)
      && (|mine| == 1 ==> if id in log then !Terminal(log[id].status) && mine[0] != Start else mine[0] == Start)
      && (id in log && Terminal(log[id].status) ==> mine == [])
    decreases |writes|
  {
    if writes != [] {
      AtMostOneCycle(AfterWrite(log, writes[0]), writes[1..], id);
    }
  }

  // ----- Logs of later invocations -----

  /** The id is of an operation that the context q minted in positions lo to hi, or is below it. */
  predicate Within(id: Id, q: Id, lo: nat, hi: nat) {
    |q| < |id| && id[..|q|] == q && lo <= id[|q|] < hi
  }

  /** A record that ends its operation without asking for its children: the service may drop them. */
  predicate Frees(log: Log, id: Id) {
    id in log && Terminal(log[id].status) && !log[id].replayChildren
  }

  /** No operation between the context q and id, id itself excluded, frees its children. */
  ghost predicate Needed(log: Log, q: Id, id: Id) {
    forall k | |q| < k < |id| :: !Frees(log, id[..k])
  }

  /** A later log holds the outcomes of the positions lo to hi of q, except those that the service
      may have dropped below an operation that ended. Everything else in it is arbitrary. */
  ghost predicate Keeps(log: Log, later: Log, q: Id, lo: nat, hi: nat) {
    forall id | id in log && Within(id, q, lo, hi) && Terminal(log[id].status) && Needed(log, q, id) ::
      id in later && later[id] == log[id]
  }

  /** A later log holds what an invocation left of the positions lo to hi of q, except what the service may
      have dropped below an operation that ended, and nothing else. */
  ghost predicate Trimmed(log: Log, later: Log, q: Id, lo: nat, hi: nat) {
    && (forall id | id in later && Within(id, q, lo, hi) :: id in log && later[id] == log[id])
    && (forall id | id in log && Within(id, q, lo, hi) && Needed(log, q, id) :: id in later)
  }

  ghost predicate TrimmedFrom(log: Log, later: Log, q: Id, lo: nat) {
    forall hi: nat :: Trimmed(log, later, q, lo, hi)
  }

  /** The log that the next invocation starts from: what the last one left, except what the service may
      have dropped. */
  ghost predicate Pruned(log: Log, later: Log) {
    && (forall id | id in later :: id in log && later[id] == log[id])
    && (forall id | id in log && Needed(log, [], id) :: id in later)
  }

  /** The two logs hold the same of the positions lo to hi of q and below. */
  ghost predicate Agree(a: Log, b: Log, q: Id, lo: nat, hi: nat) {
    forall id | Within(id, q, lo, hi) :: (id in a <==> id in b) && (id in a ==> a[id] == b[id])
  }

  ghost predicate AgreeFrom(a: Log, b: Log, q: Id, lo: nat) {
    forall hi: nat :: Agree(a, b, q, lo, hi)
  }

  /** Between two logs, nothing outside the positions lo to hi of q changed. */
  ghost predicate SameOutside(a: Log, b: Log, q: Id, lo: nat, hi: nat) {
    forall id | !Within(id, q, lo, hi) :: (id in a <==> id in b) && (id in a ==> a[id] == b[id])
  }

  lemma WithinAncestor(id: Id, q: Id, lo: nat, hi: nat, k: nat)
    requires Within(id, q, lo, hi) && |q| < k <= |id|
    ensures Within(id[..k], q, lo, hi)
  {
    assert id[..k][..|q|] == id[..|q|];
  }

  lemma KeepsFrame(a: Log, b: Log, later: Log, q: Id, lo: nat, hi: nat)
    requires Agree(a, b, q, lo, hi) && Keeps(b, later, q, lo, hi)
    ensures Keeps(a, later, q, lo, hi)
  {
    forall id | id in a && Within(id, q, lo, hi) && Terminal(a[id].status) && Needed(a, q, id)
      ensures id in later && later[id] == a[id]
    {
      forall k | |q| < k < |id| ensures !Frees(b, id[..k]) {
        WithinAncestor(id, q, lo, hi, k);
        assert !Frees(a, id[..k]);
      }
      assert Needed(b, q, id);
    }
  }

  lemma KeepsPart(log: Log, later: Log, q: Id, lo: nat, hi: nat, lo': nat, hi': nat)
    requires Keeps(log, later, q, lo, hi) && lo <= lo' && hi' <= hi
    ensures Keeps(log, later, q, lo', hi')
  {
  }

  /** The outcome of an operation minted by q itself is never dropped. */
  lemma KeepsOwn(log: Log, later: Log, q: Id, n: nat, lo: nat, hi: nat)
    requires Keeps(log, later, q, lo, hi) && lo <= n < hi
    requires q + [n] in log && Terminal(log[q + [n]].status)
    ensures q + [n] in later && later[q + [n]] == log[q + [n]]
  {
    var x := q + [n];
    assert x[..|q|] == q;
    assert Within(x, q, lo, hi) && Needed(log, q, x);
  }

  /** An operation that asks for its children keeps them. */
  lemma KeepsChildren(log: Log, later: Log, q: Id, n: nat, lo: nat, hi: nat, hi': nat)
    requires Keeps(log, later, q, lo, hi) && lo <= n < hi
    requires !Frees(log, q + [n])
    ensures Keeps(log, later, q + [n], 0, hi')
  {
    var x := q + [n];
    forall id | id in log && Within(id, x, 0, hi') && Terminal(log[id].status) && Needed(log, x, id)
      ensures id in later && later[id] == log[id]
    {
      assert id[..|q|] == x[..|q|] == q && id[|q|] == n;
      forall k | |q| < k < |id| ensures !Frees(log, id[..k]) {
        if k == |x| { assert id[..k] == x; }
      }
      assert Within(id, q, lo, hi) && Needed(log, q, id);
    }
  }

  lemma WithinChild(id: Id, q: Id, n: nat, lo: nat, hi: nat)
    requires Within(id, q + [n], lo, hi)
    ensures Within(id, q, n, n + 1)
  {
    var x := q + [n];
    assert id[..|q|] == x[..|q|] == q && id[|q|] == x[|q|];
  }

  // ----- Logs of the next invocation -----

  lemma PrunedIsTrimmed(log: Log, later: Log)
    requires Pruned(log, later)
    ensures TrimmedFrom(log, later, [], 0)
  {
  }

  /** The record of an operation minted by q itself is there or not, as before. */
  lemma TrimmedOwn(log: Log, later: Log, q: Id, n: nat, lo: nat, hi: nat)
    requires Trimmed(log, later, q, lo, hi) && lo <= n < hi
    ensures q + [n] in log <==> q + [n] in later
    ensures q + [n] in log ==> later[q + [n]] == log[q + [n]]
  {
    var x := q + [n];
    assert x[..|q|] == q;
    assert Within(x, q, lo, hi) && Needed(log, q, x);
  }

  /** Below an operation that frees nothing, the records are as the service has to keep them. */
  lemma TrimmedBelow(log: Log, later: Log, q: Id, n: nat, lo: nat, hi: nat)
    requires Trimmed(log, later, q, lo, hi) && lo <= n < hi && !Frees(log, q + [n])
    ensures TrimmedFrom(log, later, q + [n], 0)
  {
    var x := q + [n];
    forall id, hi': nat | Within(id, x, 0, hi')
      ensures id in later ==> id in log && later[id] == log[id]
      ensures id in log && Needed(log, x, id) ==> id in later
    {
      assert id[..|q|] == x[..|q|] == q && id[|q|] == n;
      assert Within(id, q, lo, hi);
      if Needed(log, x, id) {
        forall k | |q| < k < |id| ensures !Frees(log, id[..k]) {
          if k == |x| { assert id[..k] == x; }
        }
        assert Needed(log, q, id);
      }
    }
  }

  lemma TrimmedPart(log: Log, later: Log, q: Id, lo: nat, hi: nat, lo': nat, hi': nat)
    requires Trimmed(log, later, q, lo, hi) && lo <= lo' && hi' <= hi
    ensures Trimmed(log, later, q, lo', hi')
  {
  }

  lemma TrimmedFromPart(log: Log, later: Log, q: Id, lo: nat, lo': nat)
    requires TrimmedFrom(log, later, q, lo) && lo <= lo'
    ensures TrimmedFrom(log, later, q, lo') && forall hi: nat :: Trimmed(log, later, q, lo', hi)
  {
    forall hi: nat ensures Trimmed(log, later, q, lo', hi) {
      assert Trimmed(log, later, q, lo, hi);
    }
  }
}
