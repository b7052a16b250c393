/** What the requests of a run look like, and a run whose record skips an admitted update. */
module PipelineRequests {
  import opened Options
  import opened Requests
  import opened Coordinator
  import opened Buffering
  import opened Pipeline
  import opened PipelineInvariant
  import opened PipelineTheorems

  // ----- Every request is within the caps -----

  ghost predicate Sendable(chunk: Chunk, limits: BatchLimits) {
    chunk == [] || Fits(chunk, limits)
  }

  ghost predicate ShapeInv(s: State) {
    && (forall i :: 0 <= i < |s.requests| ==> Sendable(s.requests[i], s.limits))
    && (s.flusher.Writing? ==> forall i :: 0 <= i < |s.flusher.chunks| ==> Sendable(s.flusher.chunks[i], s.limits))
  }

  lemma JoiningKeepsShape(s: State, step: JoinStep)
    requires ShapeInv(s) && CanJoin(s, step)
    ensures ShapeInv(NextJoin(s, step)) && NextJoin(s, step).limits == s.limits
  {
  }

  lemma FlushingKeepsShape(s: State, step: FlushStep)
    requires ShapeInv(s) && CanFlush(s, step)
    ensures ShapeInv(NextFlush(s, step)) && NextFlush(s, step).limits == s.limits
  {
    SplitIsPartition([], s.buf.pending, s.limits);
  }

  lemma RequestingKeepsShape(s: State, step: RequestStep)
    requires ShapeInv(s) && CanRequest(s, step)
    ensures ShapeInv(NextRequest(s, step)) && NextRequest(s, step).limits == s.limits
  {
  }

  lemma OutsideKeepsShape(s: State, step: OtherStep)
    requires ShapeInv(s) && CanOther(s, step)
    ensures ShapeInv(NextOther(s, step)) && NextOther(s, step).limits == s.limits
  {
  }

  lemma {:induction false} ShapeKept(s: State, steps: seq<Step>)
    requires ShapeInv(s) && CanRun(s, steps)
    ensures ShapeInv(After(s, steps)) && After(s, steps).limits == s.limits
    decreases |steps|
  {
    if steps != [] {
      match steps[0] {
        case Joining(j) => JoiningKeepsShape(s, j);
        case Flushing(f) => FlushingKeepsShape(s, f);
        case Requesting(r) => RequestingKeepsShape(s, r);
        case Outside(o) => OutsideKeepsShape(s, o);
      }
      ShapeKept(Next(s, steps[0]), steps[1..]);
    }
  }

  /** Every request of every run is within the caps, or is the empty request of a refresh or of a
      write outside the buffer. */
  lemma EveryRequestFits(limits: BatchLimits, steps: seq<Step>, i: nat)
    requires CanRun(Init(limits), steps) && i < |After(Init(limits), steps).requests|
    ensures
      var request := After(Init(limits), steps).requests[i];
      request == [] || Fits(request, limits)
  {
    ShapeKept(Init(limits), steps);
  }

  // ----- A batch given up without a runtime is skipped, not the end of the record -----

  lemma Extend(start: State, steps: seq<Step>, step: Step) returns (longer: seq<Step>)
    requires CanRun(start, steps) && CanStep(After(start, steps), step)
    ensures CanRun(start, longer) && After(start, longer) == Next(After(start, steps), step)
    decreases |steps|
  {
    if steps == [] {
      longer := [step];
      OneStep(start, step);
    } else {
      var tail := Extend(Next(start, steps[0]), steps[1..], step);
      longer := [steps[0]] + tail;
      TwoSteps(start, steps[0], tail);
    }
  }

  /** A join by a task without owners, from the buffer lock to the push. */
  lemma JoinOne(start: State, steps: seq<Step>, u: TrackedUpdate) returns (longer: seq<Step>)
    requires CanRun(start, steps)
    requires
      var s := After(start, steps);
      s.lock.Free? && s.coord == NEW_COORD.(checkpoint := s.coord.checkpoint) && s.reservations == {}
    ensures CanRun(start, longer)
    ensures
      var s, s' := After(start, steps), After(start, longer);
      && s'.lock == s.lock && s'.coord == Granted(s.coord, Checkpoint) && s'.reservations == s.reservations
      && s'.flusher == s.flusher && s'.token == s.token && s'.service == s.service
      && s'.buf == AfterJoin(s.buf, [u], false, s.nextBatch)
      && s'.nextBatch == (if s.buf.open.None? then s.nextBatch + 1 else s.nextBatch)
      && |s'.admitted| == |s.admitted| + 1 && s'.admitted[..|s.admitted|] == s.admitted
      && s'.admitted[|s.admitted|].updates == [u]
  {
    longer := Extend(start, steps, Joining(BufferLock([], [u], false)));
    longer := Extend(start, longer, Joining(CheckAdmission));
    longer := Extend(start, longer, Joining(AcquirePermit));
    longer := Extend(start, longer, Joining(Push));
  }

  /** A flusher for batch b, from the writer lock to the accepted answer to its one request. */
  lemma FlushOne(start: State, steps: seq<Step>, b: BatchId, u: TrackedUpdate) returns (longer: seq<Step>)
    requires CanRun(start, steps)
    requires
      var s := After(start, steps);
      && s.lock.Free? && s.flusher.NoFlusher? && s.token.NoToken? && !Latched(s)
      && s.buf.open == Some(b) && b < s.nextBatch && s.buf.pending == [u] && s.buf.holds == 0
    ensures CanRun(start, longer)
    ensures
      var s, s' := After(start, steps), After(start, longer);
      s'.service == s.service + [u] && s'.admitted == s.admitted
  {
    var s := After(start, steps);
    longer := Extend(start, steps, Flushing(TakeWriter(Only(b))));
    longer := Extend(start, longer, Flushing(EnableWaiter));
    longer := Extend(start, longer, Flushing(CheckHolds));
    OneChunk(u, s.limits);
    assert After(start, longer).flusher.chunks == [[u]];
    longer := Extend(start, longer, Requesting(TakeToken(Flush)));
    longer := Extend(start, longer, Requesting(Send));
    longer := Extend(start, longer, Requesting(Respond(Accepted)));
  }

  lemma OneChunk(u: TrackedUpdate, limits: BatchLimits)
    ensures Split([u], limits) == [[u]]
  {
    assert [] + [u] == [u] && [u][1..] == [];
    assert SplitFrom([u], [], limits) == [[u]];
  }

  /** A run whose record is not a prefix of what was admitted: the first batch is given up by a
      contributor without a runtime, and the second is written. Its contributors see NoRuntime, so
      nothing is acknowledged that is not recorded; see ResultsAreTrue. */
  lemma SkippedBatch(limits: BatchLimits, first: TrackedUpdate, second: TrackedUpdate) returns (steps: seq<Step>)
    requires first != second
    ensures CanRun(Init(limits), steps)
    ensures
      var s := After(Init(limits), steps);
      Live(s.admitted, {}) == [first, second] && s.service == [second]
  {
    var start := Init(limits);
    steps := JoinOne(start, [], first);
    steps := Extend(start, steps, Outside(ClaimUnspawned(0)));
    var one := After(start, steps);
    assert one.buf == EMPTY_BUFFER && one.nextBatch == 1 && |one.admitted| == 1 && one.admitted[0].updates == [first];
    steps := JoinOne(start, steps, second);
    var two := After(start, steps);
    assert two.buf.pending == [second] && two.buf.open == Some(1) && |two.admitted| == 2;
    steps := FlushOne(start, steps, 1, second);
    LiveOfTwo(two.admitted, first, second);
  }

  lemma {:induction false} LiveOfTwo(joins: seq<Join>, first: TrackedUpdate, second: TrackedUpdate)
    requires |joins| == 2 && joins[0].updates == [first] && joins[1].updates == [second]
    ensures Live(joins, {}) == [first, second]
  {
    SplitAt(joins, 0, {});
    SplitAt(joins[1..], 0, {});
    assert joins[..0] == [] && joins[1..][..0] == [] && joins[1..][1..] == [];
  }
}
