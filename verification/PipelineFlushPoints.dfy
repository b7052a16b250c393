/** When a flusher ends: a flush point goes on until it finds no open batch, and a flusher spawned for one
    batch ends when nothing is left to do for that batch.
 */
module PipelineFlushPoints {
  import opened Options
  import opened Requests
  import opened Buffering
  import opened Pipeline
  import opened PipelineInvariant
  import opened PipelineTheorems
  import opened PipelineTraces

  // ----- A flusher keeps its target until it ends -----

  lemma FlusherStep(s: State, step: Step)
    requires CanStep(s, step)
    ensures
      var s' := Next(s, step);
      && (s.flusher.NoFlusher? && !s'.flusher.NoFlusher? ==>
            exists target :: step == Flushing(TakeWriter(target)) && s'.flusher == Looping(target))
      && (!s.flusher.NoFlusher? && !s'.flusher.NoFlusher? ==> s'.flusher.target == s.flusher.target)
  {
    match step
    case Joining(j) =>
    case Flushing(f) => FlushStepTarget(s, f);
    case Requesting(r) => RequestStepTarget(s, r);
    case Outside(o) =>
  }

  lemma FlushStepTarget(s: State, step: FlushStep)
    requires CanFlush(s, step)
    ensures
      var s' := NextFlush(s, step);
      && (s.flusher.NoFlusher? && !s'.flusher.NoFlusher? ==>
            step.TakeWriter? && s'.flusher == Looping(step.target))
      && (!s.flusher.NoFlusher? && !s'.flusher.NoFlusher? ==> s'.flusher.target == s.flusher.target)
  {
  }

  lemma RequestStepTarget(s: State, step: RequestStep)
    requires CanRequest(s, step)
    ensures
      var s' := NextRequest(s, step);
      && (s.flusher.NoFlusher? <==> s'.flusher.NoFlusher?)
      && (!s.flusher.NoFlusher? ==> s'.flusher.target == s.flusher.target)
  {
  }

  // ----- How a flusher ends -----

  predicate EndsFlusher(s: State, step: Step)
    requires CanStep(s, step)
  {
    !s.flusher.NoFlusher? && Next(s, step).flusher.NoFlusher?
  }

  /** A flush point ends only when it finds no open batch, which makes what was admitted by then a barrier, or
      with a batch that was lost. Otherwise it goes on for the next batch. */
  lemma FlushPointEnds(s: State, step: Step)
    requires Inv(s) && CanStep(s, step) && !s.flusher.NoFlusher? && s.flusher.target.Any?
    ensures EndsFlusher(s, step) ==>
      || (step == Flushing(CheckHolds) && s.buf.open.None? && Next(s, step).barriers == s.barriers + [|s.admitted|])
      || (step == Flushing(EndFlush) && s.flusher.batch in s.lost)
    ensures step == Flushing(EndFlush) && s.flusher.batch !in s.lost ==> Next(s, step).flusher == Looping(Any)
    ensures step == Flushing(CheckHolds) && s.buf.open.Some? && s.reservations == {} ==>
      Next(s, step).flusher.Writing? && Next(s, step).flusher.batch == s.buf.open.value
  {
    match step
    case Joining(j) =>
    case Flushing(f) => AnyEnds(s, f);
    case Requesting(r) => RequestStepTarget(s, r);
    case Outside(o) =>
  }

  lemma AnyEnds(s: State, step: FlushStep)
    requires Inv(s) && CanFlush(s, step) && !s.flusher.NoFlusher? && s.flusher.target.Any?
    ensures NextFlush(s, step).flusher.NoFlusher? ==>
      || (step == CheckHolds && s.buf.open.None? && NextFlush(s, step).barriers == s.barriers + [|s.admitted|])
      || (step == EndFlush && s.flusher.batch in s.lost)
    ensures step == EndFlush && s.flusher.batch !in s.lost ==> NextFlush(s, step).flusher == Looping(Any)
    ensures step == CheckHolds && s.buf.open.Some? && s.reservations == {} ==>
      NextFlush(s, step).flusher.Writing? && NextFlush(s, step).flusher.batch == s.buf.open.value
  {
    NoHoldMeansNoReservation(s);
  }

  /** A flusher spawned for a batch ends when the batch is not open any more and, if it wrote it, once its
      permits are given back and its contributors are told, and it never goes on for another batch. */
  lemma FlusherForOneEnds(s: State, step: Step, b: BatchId)
    requires Inv(s) && CanStep(s, step) && !s.flusher.NoFlusher? && s.flusher.target == Only(b)
    ensures EndsFlusher(s, step) ==>
      || (step == Flushing(CheckHolds) && s.buf.open != Some(b))
      || (&& step == Flushing(EndFlush) && s.flusher.dropped
          && (s.flusher.batch in s.lost || s.flusher.batch in s.published))
    ensures step == Flushing(EndFlush) ==> EndsFlusher(s, step)
    ensures step == Flushing(CheckHolds) && s.buf.open == Some(b) && s.reservations == {} ==>
      Next(s, step).flusher.Writing? && Next(s, step).flusher.batch == b
  {
    match step
    case Joining(j) =>
    case Flushing(f) => OnlyEnds(s, f, b);
    case Requesting(r) => RequestStepTarget(s, r);
    case Outside(o) =>
  }

  lemma OnlyEnds(s: State, step: FlushStep, b: BatchId)
    requires Inv(s) && CanFlush(s, step) && !s.flusher.NoFlusher? && s.flusher.target == Only(b)
    ensures NextFlush(s, step).flusher.NoFlusher? ==>
      || (step == CheckHolds && s.buf.open != Some(b))
      || (step == EndFlush && s.flusher.dropped && (s.flusher.batch in s.lost || s.flusher.batch in s.published))
    ensures step == EndFlush ==> NextFlush(s, step).flusher.NoFlusher?
    ensures step == CheckHolds && s.buf.open == Some(b) && s.reservations == {} ==>
      NextFlush(s, step).flusher.Writing? && NextFlush(s, step).flusher.batch == b
  {
    NoHoldMeansNoReservation(s);
  }

  /** A spawned flusher tells the contributors of a written batch before it gives the permits back, so they
      take their own first; a flush point gives the permits back before it tells. */
  lemma PermitsAfterPublish(s: State, step: Step)
    requires Inv(s) && CanStep(s, step) && (step == Flushing(DropPermits) || step == Flushing(PublishBatch))
    requires s.flusher.batch !in s.lost
    ensures step == Flushing(DropPermits) && s.flusher.target.Only? ==> s.flusher.batch in s.published
    ensures step == Flushing(PublishBatch) && s.flusher.target.Any? ==> s.flusher.dropped
    ensures step == Flushing(DropPermits) ==> Next(s, step).loose == s.loose + s.flusher.permits
    ensures step == Flushing(PublishBatch) ==> Next(s, step).published == s.published[s.flusher.batch := Written]
  {
  }

  // ----- A whole flush point -----

  /** Between steps a and e the flusher that took the writer lock with step a runs. */
  ghost predicate RunsFrom(limits: BatchLimits, steps: seq<Step>, a: nat, e: nat)
    requires CanRun(Init(limits), steps) && e <= |steps|
  {
    && a < e && steps[a] == Flushing(TakeWriter(Any))
    && forall j :: a < j < e ==> !At(limits, steps, j).flusher.NoFlusher?
  }

  lemma {:induction false} TargetIsAny(limits: BatchLimits, steps: seq<Step>, a: nat, e: nat)
    requires CanRun(Init(limits), steps) && e <= |steps| && RunsFrom(limits, steps, a, e)
    requires !At(limits, steps, e).flusher.NoFlusher?
    ensures At(limits, steps, e).flusher.target == Any
    decreases e
  {
    hide CanRun, At, Next, CanStep;
    StepAt(limits, steps, e - 1);
    FlusherStep(At(limits, steps, e - 1), steps[e - 1]);
    if e - 1 > a {
      TargetIsAny(limits, steps, a, e - 1);
    } else {
      TakesWriter(At(limits, steps, a), Any);
    }
  }

  lemma TakesWriter(s: State, target: Target)
    requires CanStep(s, Flushing(TakeWriter(target)))
    ensures Next(s, Flushing(TakeWriter(target))).flusher == Looping(target)
  {
  }

  /** A flush point that is over covers every join admitted when it ended: each of them is recorded in full at
      its place, or was given up without a runtime, or the pipeline stopped. The one other end is a batch that
      was lost, which fails the flush point. */
  lemma FlushPointCovers(limits: BatchLimits, steps: seq<Step>, a: nat, e: nat)
    requires CanRun(Init(limits), steps) && e <= |steps| && RunsFrom(limits, steps, a, e)
    requires At(limits, steps, e).flusher.NoFlusher?
    ensures
      var s := At(limits, steps, e);
      || (At(limits, steps, e - 1).flusher.Done? && At(limits, steps, e - 1).flusher.batch in s.lost)
      || (&& s.buf.open.None? && s.barriers != [] && s.barriers[|s.barriers| - 1] == |s.admitted|
          && forall i :: 0 <= i < |s.admitted| ==>
               Stopped(s) || s.admitted[i].batch in s.unspawned || IsRecorded(s, i))
  {
    hide CanRun, At, Next, CanStep, IsRecorded, Stopped, Inv;
    var before, s := At(limits, steps, e - 1), At(limits, steps, e);
    StepAt(limits, steps, e - 1);
    KeptAt(limits, steps, e - 1);
    KeptAt(limits, steps, e);
    if e - 1 == a {
      TakesWriter(before, Any);
    } else {
      TargetIsAny(limits, steps, a, e - 1);
      FlushPointEnds(before, steps[e - 1]);
      if steps[e - 1] == Flushing(CheckHolds) {
        EndedEmpty(before);
        forall i | 0 <= i < |s.admitted| && !Stopped(s) && s.admitted[i].batch !in s.unspawned
          ensures IsRecorded(s, i)
        {
          BarrierCovers(s, i);
        }
      } else {
        EndsLost(before);
      }
    }
  }

  lemma BarrierCovers(s: State, i: nat)
    requires Inv(s) && !Stopped(s) && |s.admitted| in s.barriers && i < |s.admitted|
    requires s.admitted[i].batch !in s.unspawned
    ensures IsRecorded(s, i)
  {
    CoveredIsRecorded(s, i, |s.admitted|);
  }

  lemma EndedEmpty(s: State)
    requires CanStep(s, Flushing(CheckHolds)) && Next(s, Flushing(CheckHolds)).flusher.NoFlusher?
    ensures
      var s' := Next(s, Flushing(CheckHolds));
      s'.buf == s.buf && s'.admitted == s.admitted
  {
  }

  lemma EndsLost(s: State)
    requires CanStep(s, Flushing(EndFlush))
    ensures s.flusher.Done? && Next(s, Flushing(EndFlush)).lost == s.lost
  {
  }
}
