/** wait_for_callback inside a handler: of its outer record, of its result and of its writes to that record,
    every invocation does what a leaf does, with one outcome for the whole execution. What is proved of
    handlers with such leaves holds of it, in a child or under a combinator.
 */
module CallbackLeaves {
  import opened Options
  import opened Records
  import opened Errors
  import opened Handlers
  import W = WaitForCallback

  /** The user serdes of the operation. */
  ghost predicate SameDecoder(c: Codec, d: W.Decoder, x: Id) {
    forall payload: string :: d.decode(payload) == c.decode(x, payload)
  }

  /** The handler's log and the records of the operation have the same outer record. */
  predicate SameOuter(log: Log, x: Id, w: W.Wait) {
    (x in log <==> w.outer.Some?) && (x in log ==> log[x] == w.outer.value)
  }

  function OutcomeOf(r: Record): LeafOutcome {
    if r.status.Failed? then Raises(r.wire) else Returns(if r.payload.Some? then r.payload.value else "null")
  }

  /** What an invocation chose for the operation as a leaf. */
  function ChoiceOf(d: W.Decoder, x: Id, w: W.Wait, turn: W.Turn): Choice {
    var after := W.Run(d, x, w, turn).after.outer;
    var leaf := if W.HasOutcome(after) then Some(OutcomeOf(after.value)) else None;
    Choice(turn.outerStart, true, 0, turn.preserve, "", [], None, leaf)
  }

  lemma {:induction false} WritesOfConcat(a: seq<Write>, b: seq<Write>, id: Id)
    ensures WritesOf(a + b, id) == WritesOf(a, id) + WritesOf(b, id)
    decreases |a|
  {
    if a == [] {
      assert a + b == b;
    } else {
      assert (a + b)[0] == a[0] && (a + b)[1..] == a[1..] + b;
      WritesOfConcat(a[1..], b, id);
      WritesOfCons(a + b, id);
      WritesOfCons(a, id);
      hide WritesOf;
    }
  }

  lemma WritesOfCons(writes: seq<Write>, id: Id)
    requires writes != []
    ensures WritesOf(writes, id)
         == if writes[0].id == id then [writes[0].action] + WritesOf(writes[1..], id) else WritesOf(writes[1..], id)
  {
  }

  lemma {:induction false} WritesOfOthers(writes: seq<Write>, id: Id)
    requires forall w | w in writes :: w.id != id
    ensures WritesOf(writes, id) == []
  {
    if writes != [] {
      assert writes[0] in writes;
      WritesOfOthers(writes[1..], id);
    }
  }

  /** The body writes below the operation only. */
  lemma BodyWritesBelow(x: Id, w: W.Wait, turn: W.Turn)
    ensures forall write | write in W.Body(x, w, turn).writes :: write.id != x
  {
    assert |W.CallbackId(x)| == |W.SubmitterId(x)| == |x| + 1;
  }

  /** A live invocation writes its START, runs the body and settles it. */
  lemma LiveRun(d: W.Decoder, x: Id, w: W.Wait, turn: W.Turn)
    requires !W.HasOutcome(w.outer) && (w.outer.Some? || turn.outerStart)
    ensures
      var live := if w.outer.None? then w.(outer := Some(RecordOf(Start))) else w;
      var start := if w.outer.None? then [Write(x, Start)] else [];
      var s := W.Settle(d, x, W.Body(x, live, turn), turn);
      W.Run(d, x, w, turn)
      == W.Ran(if s.result.Some? then Some(W.Decode(d, s.result.value)) else None, s.after, start + s.writes)
  {
    hide W.Body, W.Settle, W.Decode, W.Rebuild;
    assert W.Settle(d, x, W.Body(x, w, turn), turn).writes == [] + W.Settle(d, x, W.Body(x, w, turn), turn).writes;
  }

  /** What settling a body does to the outer record. */
  lemma SettlesOuter(d: W.Decoder, x: Id, b: W.Ran<W.BodyResult>, turn: W.Turn)
    requires forall write | write in b.writes :: write.id != x
    ensures
      var s := W.Settle(d, x, b, turn);
      if s.result.None? then s.after.outer == b.after.outer && WritesOf(s.writes, x) == []
      else
        W.HasOutcome(s.after.outer)
        && var a := LeafAction(CallbackLeaf, turn.preserve, OutcomeOf(s.after.outer.value));
           s.after.outer == Some(RecordOf(a)) && WritesOf(s.writes, x) == [a]
  {
    WritesOfOthers(b.writes, x);
    if b.result.Some? && turn.outerEnd {
      var a := W.OuterAction(d, b.result.value, turn);
      OwnWrites(x, a, a);
      WritesOfConcat(b.writes, [Write(x, a)], x);
    }
    hide W.OuterWire, W.LiveError, WritesOf;
  }

  /** What a live invocation does to the outer record. */
  lemma LiveOuter(d: W.Decoder, x: Id, w: W.Wait, turn: W.Turn)
    requires W.Valid(w) && !W.HasOutcome(w.outer) && (w.outer.Some? || turn.outerStart)
    ensures
      var e := W.Run(d, x, w, turn);
      var begun := if w.outer.None? then [Start] else [];
      if e.result.None? then
        && e.after.outer == Some(if w.outer.None? then RecordOf(Start) else w.outer.value)
        && WritesOf(e.writes, x) == begun
      else
        W.HasOutcome(e.after.outer)
        && var a := LeafAction(CallbackLeaf, turn.preserve, OutcomeOf(e.after.outer.value));
           e.after.outer == Some(RecordOf(a)) && WritesOf(e.writes, x) == begun + [a]
  {
    BegunIsValid(w);
    NothingWritten(x);
    hide *;
    var live := if w.outer.None? then w.(outer := Some(RecordOf(Start))) else w;
    var start := if w.outer.None? then [Write(x, Start)] else [];
    LiveRun(d, x, w, turn);
    W.BodyKeeps(x, live, turn);
    BodyWritesBelow(x, live, turn);
    SettlesOuter(d, x, W.Body(x, live, turn), turn);
    WritesOfConcat(start, W.Settle(d, x, W.Body(x, live, turn), turn).writes, x);
    OwnWrites(x, Start, Start);
  }

  lemma BegunIsValid(w: W.Wait)
    requires W.Valid(w)
    ensures w.outer.None? ==> W.Valid(w.(outer := Some(RecordOf(Start))))
  {
  }

  lemma NothingWritten(x: Id)
    ensures WritesOf([], x) == []
  {
  }

  /** An invocation that does not begin. */
  lemma NotBegun(d: W.Decoder, x: Id, w: W.Wait, turn: W.Turn)
    requires w.outer.None? && !turn.outerStart
    ensures W.Run(d, x, w, turn) == W.Ran(None, w, [])
  {
    hide W.Body, W.Settle, W.Rebuild;
  }

  lemma OwnWrites(x: Id, a: Action, b: Action)
    ensures WritesOf([Write(x, a)], x) == [a] && WritesOf([Write(x, a)] + [Write(x, b)], x) == [a] + [b]
  {
    WritesOfConcat([Write(x, a)], [Write(x, b)], x);
  }

  /** What a leaf without an outcome does. */
  lemma LeafLive(c: Codec, ch: Choice, log: Log, x: Id, next: nat)
    requires !Settled(log, x)
    ensures
      var l := RunLeaf(c, CallbackLeaf, ch, log, x, next);
      if x !in log && !ch.start then l.result.None? && l.log == log && WritesOf(l.writes, x) == []
      else
        var begun := if x in log then [] else [Start];
        x in l.log &&
        if ch.leaf.None? || !ch.end then
          l.result.None? && l.log[x] == (if x in log then log[x] else RecordOf(Start)) && WritesOf(l.writes, x) == begun
        else
          var a := LeafAction(CallbackLeaf, ch.preserve, ch.leaf.value);
          && l.result == Some(LeafResult(c, CallbackLeaf, x, ch.leaf.value))
          && l.log[x] == RecordOf(a) && WritesOf(l.writes, x) == begun + [a]
  {
    var a := if ch.leaf.Some? then LeafAction(CallbackLeaf, ch.preserve, ch.leaf.value) else Start;
    OwnWrites(x, Start, a);
    OwnWrites(x, a, a);
    assert [] + [Write(x, a)] == [Write(x, a)];
    hide LeafAction, LeafResult, ReplayLeaf;
  }

  /** A recorded outcome is returned alike. */
  lemma SameResult(c: Codec, d: W.Decoder, x: Id, r: Record)
    requires SameDecoder(c, d, x) && (r.status.Failed? || (r.status.Succeeded? && r.payload.Some?))
    ensures
      var result :=
        if r.status.Failed? then Err(W.ReplayedError(x, r.wire)) else W.Decode(d, W.Payload(r.payload.value));
      LeafResult(c, CallbackLeaf, x, OutcomeOf(r)) == ReplayLeaf(c, CallbackLeaf, x, r) == result
  {
  }

  lemma OutcomeFacts(x: Id, w: W.Wait, log: Log)
    requires SameOuter(log, x, w)
    ensures W.HasOutcome(w.outer) <==> Settled(log, x)
    ensures W.HasOutcome(w.outer) ==> w.outer.value.status.Failed? || w.outer.value.status.Succeeded?
    ensures W.Valid(w) && w.outer.Some? && w.outer.value.status.Succeeded? ==> w.outer.value.payload.Some?
  {
  }

  lemma ChoiceFacts(d: W.Decoder, x: Id, w: W.Wait, turn: W.Turn)
    ensures
      var after := W.Run(d, x, w, turn).after.outer;
      ChoiceOf(d, x, w, turn)
      == Choice(turn.outerStart, true, 0, turn.preserve, "", [], None,
                if W.HasOutcome(after) then Some(OutcomeOf(after.value)) else None)
  {
    hide W.Run, W.HasOutcome, OutcomeOf;
  }

  lemma SettledLeaf(c: Codec, ch: Choice, log: Log, x: Id, next: nat)
    requires Settled(log, x)
    ensures RunLeaf(c, CallbackLeaf, ch, log, x, next)
         == Exec(Some(ReplayLeaf(c, CallbackLeaf, x, log[x])), log, [], next, true)
  {
    hide ReplayLeaf;
  }

  /** The records that an invocation settles the operation with. */
  lemma OutcomeRecord(d: W.Decoder, x: Id, w: W.Wait, turn: W.Turn)
    requires W.Valid(w)
    ensures
      var e := W.Run(d, x, w, turn);
      && (W.HasOutcome(w.outer) ==> e.result.Some?)
      && (e.result.Some? ==>
            && W.HasOutcome(e.after.outer) && e.after.outer.Some?
            && (e.after.outer.value.status.Succeeded? ==> e.after.outer.value.payload.Some?)
            && (e.after.outer.value.status.Failed? || e.after.outer.value.status.Succeeded?)
            && (W.HasOutcome(w.outer) ==> e.after == w && e.writes == []))
  {
    if W.HasOutcome(w.outer) && w.outer.value.status.Succeeded? { W.BodyReplays(x, w, turn); }
    W.RunKeeps(d, x, w, turn);
    if W.Run(d, x, w, turn).result.Some? { W.CompletedIsRecorded(d, x, w, turn); }
    hide W.Body, W.OuterWire, W.LiveError, W.ReplayedError;
  }

  ghost predicate Alike(e: W.Ran<OpResult>, leaf: Exec<OpResult>, x: Id) {
    leaf.result == e.result && SameOuter(leaf.log, x, e.after) && WritesOf(leaf.writes, x) == WritesOf(e.writes, x)
  }

  lemma AlikeMade(e: W.Ran<OpResult>, leaf: Exec<OpResult>, x: Id)
    requires leaf.result == e.result && WritesOf(leaf.writes, x) == WritesOf(e.writes, x)
    requires (x in leaf.log <==> e.after.outer.Some?) && (x in leaf.log ==> leaf.log[x] == e.after.outer.value)
    ensures Alike(e, leaf, x)
  {
    hide WritesOf;
  }

  lemma OuterFacts(log: Log, x: Id, w: W.Wait)
    requires SameOuter(log, x, w)
    ensures (x in log <==> w.outer.Some?) && (x in log ==> log[x] == w.outer.value)
  {
  }

  /** An operation with an outcome returns it again. */
  lemma SettledRunsAsLeaf(c: Codec, d: W.Decoder, x: Id, w: W.Wait, turn: W.Turn, log: Log, next: nat)
    requires W.Valid(w) && SameDecoder(c, d, x) && SameOuter(log, x, w) && W.HasOutcome(w.outer)
    ensures Alike(W.Run(d, x, w, turn), RunLeaf(c, CallbackLeaf, ChoiceOf(d, x, w, turn), log, x, next), x)
  {
    OuterFacts(log, x, w);
    OutcomeFacts(x, w, log);
    hide *;
    OutcomeRecord(d, x, w, turn);
    W.CompletedIsRecorded(d, x, w, turn);
    SameResult(c, d, x, w.outer.value);
    SettledLeaf(c, ChoiceOf(d, x, w, turn), log, x, next);
    AlikeMade(W.Run(d, x, w, turn), RunLeaf(c, CallbackLeaf, ChoiceOf(d, x, w, turn), log, x, next), x);
  }

  /** An operation that is interrupted. */
  lemma InterruptedRunsAsLeaf(c: Codec, d: W.Decoder, x: Id, w: W.Wait, turn: W.Turn, log: Log, next: nat)
    requires W.Valid(w) && SameOuter(log, x, w) && !W.HasOutcome(w.outer) && W.Run(d, x, w, turn).result.None?
    ensures Alike(W.Run(d, x, w, turn), RunLeaf(c, CallbackLeaf, ChoiceOf(d, x, w, turn), log, x, next), x)
  {
    OuterFacts(log, x, w);
    OutcomeFacts(x, w, log);
    NoOutcome(w.outer);
    hide *;
    var e := W.Run(d, x, w, turn);
    var ch := ChoiceOf(d, x, w, turn);
    ChoiceFacts(d, x, w, turn);
    LeafLive(c, ch, log, x, next);
    if w.outer.None? && !turn.outerStart {
      NotBegun(d, x, w, turn);
      NothingWritten(x);
    } else {
      LiveOuter(d, x, w, turn);
    }
    AlikeMade(e, RunLeaf(c, CallbackLeaf, ch, log, x, next), x);
  }

  /** An outer record without an outcome stays without one while the START is all that is written. */
  lemma NoOutcome(r: Option<Record>)
    requires !W.HasOutcome(r)
    ensures !W.HasOutcome(None) && !W.HasOutcome(Some(RecordOf(Start))) && (r.Some? ==> !W.HasOutcome(Some(r.value)))
  {
  }

  /** An operation that completes. */
  lemma CompletesAsLeaf(c: Codec, d: W.Decoder, x: Id, w: W.Wait, turn: W.Turn, log: Log, next: nat)
    requires W.Valid(w) && SameDecoder(c, d, x) && SameOuter(log, x, w) && !W.HasOutcome(w.outer)
    requires W.Run(d, x, w, turn).result.Some?
    ensures Alike(W.Run(d, x, w, turn), RunLeaf(c, CallbackLeaf, ChoiceOf(d, x, w, turn), log, x, next), x)
  {
    OuterFacts(log, x, w);
    OutcomeFacts(x, w, log);
    hide *;
    var e := W.Run(d, x, w, turn);
    var ch := ChoiceOf(d, x, w, turn);
    OutcomeRecord(d, x, w, turn);
    W.CompletedIsRecorded(d, x, w, turn);
    SameResult(c, d, x, e.after.outer.value);
    ChoiceFacts(d, x, w, turn);
    LeafLive(c, ch, log, x, next);
    if w.outer.None? && !turn.outerStart { NotBegun(d, x, w, turn); }
    LiveOuter(d, x, w, turn);
    AlikeMade(e, RunLeaf(c, CallbackLeaf, ch, log, x, next), x);
  }

  /** One invocation of the operation is one run of a leaf: from the same outer record it returns the same,
      leaves the same outer record, and writes the same to it. */
  lemma RunsAsLeaf(c: Codec, d: W.Decoder, x: Id, w: W.Wait, turn: W.Turn, log: Log, next: nat)
    requires W.Valid(w) && SameDecoder(c, d, x) && SameOuter(log, x, w)
    ensures Alike(W.Run(d, x, w, turn), RunLeaf(c, CallbackLeaf, ChoiceOf(d, x, w, turn), log, x, next), x)
  {
    hide *;
    if W.HasOutcome(w.outer) {
      SettledRunsAsLeaf(c, d, x, w, turn, log, next);
    } else if W.Run(d, x, w, turn).result.None? {
      InterruptedRunsAsLeaf(c, d, x, w, turn, log, next);
    } else {
      CompletesAsLeaf(c, d, x, w, turn, log, next);
    }
  }

  /** All invocations of an execution, whatever interrupts them and whenever the service settles the callback,
      are runs of a leaf that the world gives one outcome. */
  lemma ExecutionRunsAsLeaf(c: Codec, d: W.Decoder, x: Id, events: seq<W.Event>, next: nat) returns (leaf: LeafOutcome)
    requires SameDecoder(c, d, x)
    ensures forall k, log | 0 <= k < |events| && events[k].Invoke?
                            && SameOuter(log, x, W.AfterEvents(d, x, events[..k])) ::
      var w, turn := W.AfterEvents(d, x, events[..k]), events[k].turn;
      var ch, e := ChoiceOf(d, x, w, turn), W.Run(d, x, w, turn);
      var l := RunLeaf(c, CallbackLeaf, ch, log, x, next);
      (ch.leaf.Some? ==> ch.leaf.value == leaf) && Alike(e, l, x)
  {
    var last := W.AfterEvents(d, x, events).outer;
    leaf := if last.Some? then OutcomeOf(last.value) else Returns("null");
    forall k, log | 0 <= k < |events| && events[k].Invoke? && SameOuter(log, x, W.AfterEvents(d, x, events[..k]))
      ensures
        var w, turn := W.AfterEvents(d, x, events[..k]), events[k].turn;
        var ch, e := ChoiceOf(d, x, w, turn), W.Run(d, x, w, turn);
        var l := RunLeaf(c, CallbackLeaf, ch, log, x, next);
        (ch.leaf.Some? ==> ch.leaf.value == leaf) && Alike(e, l, x)
    {
      W.EventsKeep(d, x, events[..k]);
      RunsAsLeaf(c, d, x, W.AfterEvents(d, x, events[..k]), events[k].turn, log, next);
      OutcomeStays(d, x, events, k);
      hide W.Run, W.AfterEvents, RunLeaf, OutcomeOf;
    }
  }

  /** The outcome of one invocation is that of the execution. */
  lemma OutcomeStays(d: W.Decoder, x: Id, events: seq<W.Event>, k: nat)
    requires k < |events| && events[k].Invoke?
    ensures
      var after := W.Run(d, x, W.AfterEvents(d, x, events[..k]), events[k].turn).after.outer;
      W.HasOutcome(after) ==> W.AfterEvents(d, x, events).outer == after
  {
    var done := events[..k + 1];
    assert done[..k] == events[..k];
    assert done + events[k + 1..] == events;
    if W.HasOutcome(W.AfterEvents(d, x, done).outer) { W.OuterStays(d, x, done, events[k + 1..]); }
  }
}
