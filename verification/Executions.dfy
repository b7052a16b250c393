/** Executions in which the service drops records between invocations: nothing that it dropped is run
    again, so each operation still gets at most a START and one outcome.
 */
module Executions {
  import opened Records
  import opened Combinators
  import opened Handlers
  import opened Runs
  import opened RunWrites
  import opened Decimals

  // ----- A run writes nothing below an operation that frees its children -----

  ghost predicate Respects(log: Log, writes: seq<Write>, q: Id) {
    forall w | w in writes :: Needed(log, q, w.id)
  }

  lemma NothingRespects(log: Log, q: Id)
    ensures Respects(log, [], q)
  {
  }

  lemma RespectsBoth(log: Log, a: seq<Write>, b: seq<Write>, q: Id)
    requires Respects(log, a, q) && Respects(log, b, q)
    ensures Respects(log, a + b, q)
  {
    hide Needed;
  }

  lemma OwnRespects(log: Log, own: seq<Write>, q: Id, at: nat)
    requires forall w | w in own :: w.id == q + [at]
    ensures Respects(log, own, q)
  {
  }

  /** Writes at positions that nothing changed yet. */
  lemma RespectsBefore(a: Log, b: Log, writes: seq<Write>, q: Id, n: nat, next: nat, hi: nat)
    requires SameOutside(a, b, q, n, next) && WritesWithin(writes, q, next, hi) && Respects(b, writes, q)
    ensures Respects(a, writes, q)
  {
    forall w | w in writes ensures Needed(a, q, w.id) {
      forall k | |q| < k < |w.id| ensures !Frees(a, w.id[..k]) {
        WithinAncestor(w.id, q, next, hi, k);
        assert !Within(w.id[..k], q, n, next);
        assert Needed(b, q, w.id);
      }
    }
  }

  /** Writes of a body whose operation keeps its children. */
  lemma BodyRespects(log: Log, writes: seq<Write>, q: Id, n: nat, hi: nat)
    requires !Frees(log, q + [n]) && WritesWithin(writes, q + [n], 1, hi)
    requires Respects(Begun(log, q + [n]), writes, q + [n])
    ensures Respects(log, writes, q)
  {
    var x := q + [n];
    forall w | w in writes ensures Needed(log, q, w.id) {
      forall k | |q| < k < |w.id| ensures !Frees(log, w.id[..k]) {
        if k == |x| {
          assert w.id[..k] == x;
        } else {
          assert Needed(Begun(log, x), x, w.id);
          assert w.id[..k] != x;
        }
      }
    }
  }

  lemma LeafRespects(c: Codec, source: LeafKind, ch: Choice, log: Log, q: Id, n: nat)
    ensures Respects(log, RunLeaf(c, source, ch, log, q + [n], n + 1).writes, q)
  {
    hide LeafAction, LeafResult, ReplayLeaf;
  }

  lemma BegunSane(log: Log, x: Id)
    requires Sane(log)
    ensures Sane(Begun(log, x))
  {
  }

  lemma TracedSane(log: Log, writes: seq<Write>, after: Log)
    requires Traced(log, writes, after) && Sane(log)
    ensures Sane(after) && after == AfterWrites(log, writes) && LegalWrites(log, writes)
  {
    hide Sane, AfterWrites, LegalWrites;
  }

  lemma StretchFacts(c: Codec, o: Oracle, sites: set<Site>, writes: seq<Write>, q: Id, lo: nat, hi: nat)
    requires Stretch(c, o, sites, writes, q, lo, hi)
    ensures WritesWithin(writes, q, lo, hi)
  {
    hide WritesWithin, SitesWithin, AllAllowed, AtSites;
  }

  lemma {:induction false} OpRespects(c: Codec, o: Oracle, log: Log, q: Id, n: nat, op: Op, fuel: nat)
    requires Sane(log)
    ensures Respects(log, RunOp(c, o, log, q, n, op, fuel).writes, q)
    decreases fuel, 2
  {
    hide *;
    NothingRespects(log, q);
    if fuel == 0 {
      NoFuel(c, o, log, q, n, op);
    } else {
      match op
      case Leaf(source) =>
        LeafUnfolds(c, source, o, log, q, n, fuel);
        LeafRespects(c, source, o(q + [n]), log, q, n);
      case Child(body) => ChildRespects(c, o, log, q, n, body, fuel);
      case Combine(kind, inputs) =>
        if |inputs| > USIZE_MAX { TooManyInputs(c, o, log, q, n, kind, inputs, fuel); }
        else { CombineRespects(c, o, log, q, n, kind, inputs, fuel); }
    }
  }

  lemma {:induction false} ChildRespects(c: Codec, o: Oracle, log: Log, q: Id, n: nat, body: Prog, fuel: nat)
    requires fuel > 0 && Sane(log)
    ensures Respects(log, RunOp(c, o, log, q, n, Child(body), fuel).writes, q)
    decreases fuel, 1
  {
    hide *;
    var x := q + [n];
    var b := RunProg(c, o, Begun(log, x), x, 1, body, fuel - 1);
    NothingRespects(log, q);
    ChildUnfolds(c, o, log, q, n, body, fuel);
    ChildCases(c, o(x), log, x, b, n + 1);
    if !Closed(log, x) {
      SaneFrees(log, x);
      BegunSane(log, x);
      ProgRespects(c, o, Begun(log, x), x, 1, body, fuel - 1);
      ProgStretch(c, o, Begun(log, x), x, 1, body, fuel - 1);
      StretchFacts(c, o, ProgSites(c, o, Begun(log, x), x, 1, body, fuel - 1), b.writes, x, 1, b.next);
      BodyRespects(log, b.writes, q, n, b.next);
      var first, last := ChildWrites(c, o(x), log, x, b, n + 1);
      OwnRespects(log, first, q, n);
      OwnRespects(log, last, q, n);
      RespectsBoth(log, first, b.writes, q);
      RespectsBoth(log, first + b.writes, last, q);
    }
  }

  lemma {:induction false} CombineRespects(
      c: Codec, o: Oracle, log: Log, q: Id, n: nat, kind: CombinatorKind, inputs: seq<Op>, fuel: nat)
    requires fuel > 0 && |inputs| <= USIZE_MAX && Sane(log)
    ensures Respects(log, RunOp(c, o, log, q, n, Combine(kind, inputs), fuel).writes, q)
    decreases fuel, 1
  {
    hide *;
    var at := n + Widths(inputs);
    var x := q + [at];
    NothingRespects(log, q);
    CombineUnfolds(c, o, log, q, n, kind, inputs, fuel);
    DrivesWinnerCases(log, x, kind, inputs);
    SettledFacts(log, x);
    var winner := WinnerDriven(log, x, kind, inputs);
    if winner.Some? {
      var from := n + Widths(inputs[..winner.value]);
      OpRespects(c, o, log, q, from, inputs[winner.value], fuel - 1);
      WinnerCases(c, o(x), x, RunOp(c, o, log, q, from, inputs[winner.value], fuel - 1), at + 1);
    } else if DrivesWinner(log, x, kind) {
      NoWinnerCases(log, WinnerOf(log[x]), |inputs|, at + 1);
    } else {
      var ins := RunInputs(c, o, log, q, n, inputs, fuel - 1);
      InputsRespect(c, o, log, q, n, inputs, fuel - 1);
      var own := CombineWrites(c, o(x), log, x, kind, ins, at + 1);
      OwnRespects(log, own, q, at);
      RespectsBoth(log, ins.writes, own, q);
    }
  }

  lemma {:induction false} InputsRespect(c: Codec, o: Oracle, log: Log, q: Id, n: nat, inputs: seq<Op>, fuel: nat)
    requires Sane(log)
    ensures Respects(log, RunInputs(c, o, log, q, n, inputs, fuel).writes, q)
    decreases fuel, 3, |inputs|
  {
    hide *;
    if inputs == [] {
      NoInputsRun(c, o, log, q, n, fuel);
      NothingRespects(log, q);
    } else {
      var e := RunOp(c, o, log, q, n, inputs[0], fuel);
      var rest := RunInputs(c, o, e.log, q, e.next, inputs[1..], fuel);
      InputsUnfold(c, o, log, q, n, inputs, fuel);
      OpRespects(c, o, log, q, n, inputs[0], fuel);
      OpWritesLegally(c, o, log, q, n, inputs[0], fuel);
      TracedSane(log, e.writes, e.log);
      OpFrame(c, o, log, q, n, inputs[0], fuel);
      InputsRespect(c, o, e.log, q, e.next, inputs[1..], fuel);
      InputsStretch(c, o, e.log, q, e.next, inputs[1..], fuel);
      StretchFacts(c, o, InputSites(c, o, e.log, q, e.next, inputs[1..], fuel), rest.writes,
                   q, e.next, e.next + Widths(inputs[1..]));
      RespectsBefore(log, e.log, rest.writes, q, n, e.next, e.next + Widths(inputs[1..]));
      RespectsBoth(log, e.writes, rest.writes, q);
    }
  }

  lemma {:induction false} ProgRespects(c: Codec, o: Oracle, log: Log, q: Id, n: nat, p: Prog, fuel: nat)
    requires Sane(log)
    ensures Respects(log, RunProg(c, o, log, q, n, p, fuel).writes, q)
    decreases fuel, 0
  {
    hide *;
    EndUnfolds(c, o, log, q, n, p, fuel);
    NothingRespects(log, q);
    if p.Do? && fuel > 0 {
      var e := RunOp(c, o, log, q, n, p.op, fuel - 1);
      DoUnfolds(c, o, log, q, n, p, fuel);
      OpRespects(c, o, log, q, n, p.op, fuel - 1);
      InterruptedFacts<UserResult>(e.log, e.writes, e.next);
      if e.result.Some? {
        var k := p.k(e.result.value);
        var rest := RunProg(c, o, e.log, q, e.next, k, fuel - 1);
        OpWritesLegally(c, o, log, q, n, p.op, fuel - 1);
        TracedSane(log, e.writes, e.log);
        OpFrame(c, o, log, q, n, p.op, fuel - 1);
        ProgRespects(c, o, e.log, q, e.next, k, fuel - 1);
        ProgStretch(c, o, e.log, q, e.next, k, fuel - 1);
        StretchFacts(c, o, ProgSites(c, o, e.log, q, e.next, k, fuel - 1), rest.writes, q, e.next, rest.next);
        RespectsBefore(log, e.log, rest.writes, q, n, e.next, rest.next);
        RespectsBoth(log, e.writes, rest.writes, q);
        ThenFacts(e, rest);
      }
    }
  }

  // ----- The log that nothing is dropped from -----

  predicate SameAt(a: Log, b: Log, id: Id) {
    (id in a <==> id in b) && (id in a ==> a[id] == b[id])
  }

  /** Where the service dropped something, an operation above frees its children in both logs. */
  lemma PrunedAt(log: Log, later: Log, id: Id)
    requires Pruned(log, later)
    ensures SameAt(log, later, id) || (id in log && id !in later && !Needed(log, [], id))
  {
  }

  /** The topmost operation above id that frees its children is not dropped. */
  lemma Freed(log: Log, later: Log, id: Id) returns (k: nat)
    requires Pruned(log, later) && !Needed(log, [], id)
    ensures 0 < k < |id| && Frees(log, id[..k]) && id[..k] in later && later[id[..k]] == log[id[..k]]
  {
    k := 1;
    while !Frees(log, id[..k])
      invariant 0 < k < |id| && forall j | 0 < j < k :: !Frees(log, id[..j])
      decreases |id| - k
    {
      assert k + 1 < |id| by {
        var j :| 0 < j < |id| && Frees(log, id[..j]);
      }
      k := k + 1;
    }
    forall j | 0 < j < k ensures !Frees(log, id[..k][..j]) {
      assert id[..k][..j] == id[..j];
    }
    assert Needed(log, [], id[..k]);
  }

  lemma RespectedIsKept(log: Log, later: Log, writes: seq<Write>)
    requires Pruned(log, later) && Respects(later, writes, [])
    ensures forall w | w in writes :: SameAt(log, later, w.id)
  {
    forall w | w in writes ensures SameAt(log, later, w.id) {
      PrunedAt(log, later, w.id);
      if !Needed(log, [], w.id) {
        var k := Freed(log, later, w.id);
        assert false;
      }
    }
  }

  /** Legality looks at nothing but the written operations, and writes change nothing else. */
  lemma {:induction false} SameWrites(a: Log, b: Log, writes: seq<Write>, id: Id)
    requires forall w | w in writes :: SameAt(a, b, w.id)
    ensures LegalWrites(a, writes) <==> LegalWrites(b, writes)
    ensures SameAt(a, b, id) ==> SameAt(AfterWrites(a, writes), AfterWrites(b, writes), id)
    ensures !SameAt(a, b, id) ==> SameAt(a, AfterWrites(a, writes), id) && SameAt(b, AfterWrites(b, writes), id)
    decreases |writes|
  {
    if writes != [] {
      var a', b' := AfterWrite(a, writes[0]), AfterWrite(b, writes[0]);
      assert writes[0] in writes && forall w | w in writes[1..] :: w in writes;
      SameWrites(a', b', writes[1..], id);
    }
  }

  lemma PrunedChain(a: Log, b: Log, d: Log)
    requires Pruned(a, b) && Pruned(b, d)
    ensures Pruned(a, d)
  {
    forall id | id in a && Needed(a, [], id) ensures id in d {
      assert id in b;
      forall k | 0 < k < |id| ensures !Frees(b, id[..k]) {
        assert !Frees(a, id[..k]);
      }
      assert Needed(b, [], id);
    }
  }

  /** What was dropped stays below an operation that ended. */
  lemma PrunedAfter(log: Log, later: Log, writes: seq<Write>)
    requires Pruned(log, later) && LegalWrites(log, writes) && forall w | w in writes :: SameAt(log, later, w.id)
    ensures Pruned(AfterWrites(log, writes), AfterWrites(later, writes))
  {
    var all, kept := AfterWrites(log, writes), AfterWrites(later, writes);
    hide AfterWrites, LegalWrites, Frees, Needed;
    forall id
      ensures id in kept ==> id in all && kept[id] == all[id]
      ensures id in all && Needed(all, [], id) ==> id in kept
    {
      SameWrites(log, later, writes, id);
      PrunedAt(log, later, id);
      if !SameAt(log, later, id) {
        var k := Freed(log, later, id);
        FreedForever(log, writes, id, k);
      }
    }
  }

  lemma FreedForever(log: Log, writes: seq<Write>, id: Id, k: nat)
    requires LegalWrites(log, writes) && 0 < k < |id| && Frees(log, id[..k])
    ensures !Needed(AfterWrites(log, writes), [], id)
  {
    OutcomesAreFinal(log, writes, id[..k]);
    hide AfterWrites, LegalWrites;
    assert Frees(AfterWrites(log, writes), id[..k]);
  }

  /** The writes of all invocations are legal, one after the other, and the service holds what they left but
      for what it dropped. */
  lemma {:induction false} ExecutionWritesLegally(
      c: Codec, oracles: seq<Oracle>, logs: seq<Log>, p: Prog, fuel: nat, k: nat)
    requires Execution(c, oracles, logs, p, fuel) && k <= |oracles|
    ensures LegalWrites(map[], AllWrites(c, oracles, logs, p, fuel, k))
    ensures Pruned(AfterWrites(map[], AllWrites(c, oracles, logs, p, fuel, k)), logs[k])
  {
    hide RunProg, Pruned, AfterWrites, LegalWrites, Respects, Sane, SameAt;
    if k == 0 {
      NothingWritten();
    } else {
      var before := AllWrites(c, oracles, logs, p, fuel, k - 1);
      var log := logs[k - 1];
      var e := RunProg(c, oracles[k - 1], log, [], 1, p, fuel);
      ExecutionWritesLegally(c, oracles, logs, p, fuel, k - 1);
      ExecutionIsSane(c, oracles, logs, p, fuel, k - 1);
      ProgWritesLegally(c, oracles[k - 1], log, [], 1, p, fuel);
      TracedSane(log, e.writes, e.log);
      ProgRespects(c, oracles[k - 1], log, [], 1, p, fuel);
      var all := AfterWrites(map[], before);
      RespectedIsKept(all, log, e.writes);
      SameWrites(all, log, e.writes, []);
      WritesConcat(map[], before, e.writes);
      PrunedAfter(all, log, e.writes);
      assert Pruned(RunProg(c, oracles[k - 1], logs[k - 1], [], 1, p, fuel).log, logs[k - 1 + 1]);
      PrunedChain(AfterWrites(all, e.writes), e.log, logs[k]);
    }
  }

  lemma NothingWritten()
    ensures LegalWrites(map[], []) && Pruned(AfterWrites(map[], []), map[])
  {
  }

  /** Over all invocations of an execution, whatever interrupts them and whatever the service drops between
      them, each operation gets at most a START and then one outcome, and nothing that was dropped is written
      again. */
  lemma OneCycleForEachOperation(c: Codec, oracles: seq<Oracle>, logs: seq<Log>, p: Prog, fuel: nat, id: Id)
    requires Execution(c, oracles, logs, p, fuel)
    ensures
      var mine := WritesOf(AllWrites(c, oracles, logs, p, fuel, |oracles|), id);
      mine == [] || mine == [Start] || (|mine| == 2 && mine[0] == Start && mine[1] != Start)
  {
    hide RunProg, AllWrites, Pruned;
    ExecutionWritesLegally(c, oracles, logs, p, fuel, |oracles|);
    AtMostOneCycle(map[], AllWrites(c, oracles, logs, p, fuel, |oracles|), id);
  }
}
