/** Nobody is stuck: in every reachable state each task of the pipeline can take its next step, or waits for a
    lock whose holder can, or for a reservation that is still live.
 */
module PipelineProgress {
  import opened Decimals
  import opened Requests
  import opened Buffering
  import opened Pipeline
  import opened PipelineInvariant
  import opened PipelineTheorems
  import opened PipelineTraces

  /** The join that holds the buffer lock goes on; when nobody holds it, any join may take it, and any live
      reservation may be released. Scopes close at any time. */
  lemma JoinsMove(s: State, owners: seq<Scope>, updates: seq<TrackedUpdate>, reserve: bool)
    requires Inv(s)
    ensures s.lock.Free? ==> CanStep(s, Joining(BufferLock(owners, updates, reserve)))
    ensures s.lock.Entered? ==> CanStep(s, Joining(CheckAdmission))
    ensures s.lock.Passed? ==> CanStep(s, Joining(AcquirePermit))
    ensures s.lock.Permitted? && (s.lock.call.reserve ==> |s.reservations| < USIZE_MAX) ==> CanStep(s, Joining(Push))
    ensures s.lock.Free? ==> forall r :: r in s.reservations ==> CanStep(s, Joining(ReleaseHold(r)))
    ensures forall r :: r in s.notifying ==> CanStep(s, Joining(Notify(r)))
    ensures forall scope :: CanStep(s, Joining(CloseScope(scope)))
  {
  }

  /** A flusher goes on, unless it waits for the buffer lock, for the checkpoint token, or, asleep, for a
      reservation that is live or whose releaser has yet to notify. When none runs, any may start. */
  lemma FlushersMove(s: State)
    requires Inv(s)
    ensures
      match s.flusher
      case NoFlusher =>
        CanStep(s, Flushing(TakeWriter(Any)))
        && forall b: BatchId :: b < s.nextBatch ==> CanStep(s, Flushing(TakeWriter(Only(b))))
      case Looping(_) => CanStep(s, Flushing(EnableWaiter))
      case Enabled(_, _) => CanStep(s, Flushing(CheckHolds)) || !s.lock.Free?
      case Asleep(_, _) =>
        CanStep(s, Flushing(Wake)) || s.reservations != {} || exists r :: CanStep(s, Joining(Notify(r)))
      case Writing(_, _, _, _, _, _) => CanStep(s, Requesting(TakeToken(Flush))) || !s.token.NoToken?
      case Done(_, _, _, _, _, _) =>
        CanStep(s, Flushing(PublishBatch)) || CanStep(s, Flushing(DropPermits)) || CanStep(s, Flushing(EndFlush))
  {
    NoHoldMeansNoReservation(s);
    if s.flusher.Asleep? && !s.flusher.woken && s.reservations == {} {
      var r :| r in s.notifying;
      assert CanStep(s, Joining(Notify(r)));
    }
  }

  /** The holder of the checkpoint token goes on with every answer the service can give, unless it waits for the
      buffer lock to drop the open batch. When nobody holds it, a write outside the buffer may take it. */
  lemma WritersMove(s: State, response: Response)
    requires Inv(s)
    ensures
      match s.token
      case NoToken => CanStep(s, Requesting(TakeToken(Direct)))
      case Held(_) => CanStep(s, Requesting(Send))
      case InFlight(_) => CanStep(s, Requesting(Respond(response)))
      case Failing(_) | Withdrawing(_) => CanStep(s, Requesting(SetLatch))
      case Dropping(_, _) => CanStep(s, Requesting(DropOpenBatch)) || !s.lock.Free?
  {
  }

  /** Contributors without a runtime, dropped permits and the driver go on. */
  lemma OthersMove(s: State)
    requires Inv(s)
    ensures s.lock.Free? ==> forall b: BatchId :: b < s.nextBatch ==> CanStep(s, Outside(ClaimUnspawned(b)))
    ensures forall b :: b in s.rejecting ==> CanStep(s, Outside(PublishNoRuntime(b)))
    ensures s.loose > 0 ==> CanStep(s, Outside(ReleasePermit))
    ensures CanStep(s, Outside(EndDrive))
    ensures forall activity, scheduler, waits, fatal, panic ::
              CanStep(s, Outside(Environment(activity, scheduler, waits, fatal, panic)))
  {
  }

  // ----- No wakeup is lost -----

  predicate IsNotify(step: Step) {
    step.Joining? && step.join.Notify?
  }

  predicate Waits(f: Flusher) {
    f.Enabled? || f.Asleep?
  }

  /** Step e enabled the waiter that the flusher waits with after k steps. */
  predicate LastEnable(steps: seq<Step>, k: nat, e: nat) {
    && e < k <= |steps| && steps[e] == Flushing(EnableWaiter)
    && forall j :: e < j < k ==> steps[j] != Flushing(EnableWaiter)
  }

  predicate NotifiedSince(steps: seq<Step>, e: nat, k: nat)
    requires k <= |steps|
  {
    exists j :: e < j < k && IsNotify(steps[j])
  }

  /** A waiter hears of a release exactly when it is notified between being enabled, which is before the holds are
      checked, and now: no notification in between is lost, and none from before counts. */
  lemma {:induction false} WokenByNotify(limits: BatchLimits, steps: seq<Step>, k: nat) returns (e: nat)
    requires CanRun(Init(limits), steps) && k <= |steps| && Waits(At(limits, steps, k).flusher)
    ensures LastEnable(steps, k, e)
    ensures At(limits, steps, k).flusher.woken <==> NotifiedSince(steps, e, k)
  {
    Ends(limits, steps);
    hide Next, CanStep, CanRun, After, At;
    var s, step := At(limits, steps, k - 1), steps[k - 1];
    StepAt(limits, steps, k - 1);
    WakeStep(s, step);
    if step == Flushing(EnableWaiter) {
      e := k - 1;
    } else {
      e := WokenByNotify(limits, steps, k - 1);
      if IsNotify(step) { assert NotifiedSince(steps, e, k); }
    }
  }

  lemma WakeStep(s: State, step: Step)
    requires CanStep(s, step) && Waits(Next(s, step).flusher)
    ensures
      var s' := Next(s, step);
      if step == Flushing(EnableWaiter) then !s'.flusher.woken
      else Waits(s.flusher) && s'.flusher.woken == (s.flusher.woken || IsNotify(step))
  {
    match step
    case Joining(j) =>
    case Flushing(f) => FlushWakeStep(s, f);
    case Requesting(r) => RequestKeepsWaiter(s, r);
    case Outside(o) =>
  }

  lemma FlushWakeStep(s: State, step: FlushStep)
    requires CanFlush(s, step) && Waits(NextFlush(s, step).flusher)
    ensures
      var s' := NextFlush(s, step);
      if step == EnableWaiter then !s'.flusher.woken
      else Waits(s.flusher) && s'.flusher.woken == s.flusher.woken
  {
  }

  lemma RequestKeepsWaiter(s: State, step: RequestStep)
    requires CanRequest(s, step) && Waits(NextRequest(s, step).flusher)
    ensures NextRequest(s, step).flusher == s.flusher
  {
  }
}
