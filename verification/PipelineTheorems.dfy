/** What holds in every run of the checkpoint write pipeline. */
module PipelineTheorems {
  import opened Decimals
  import opened Options
  import opened Requests
  import opened Buffering
  import opened Pipeline
  import opened PipelineInvariant
  import PipelineJoining
  import PipelineFlushing
  import PipelineRequesting
  import PipelineOutside

  // ----- Runs -----

  predicate CanRun(s: State, steps: seq<Step>)
    decreases |steps|
  {
    steps == [] || (CanStep(s, steps[0]) && CanRun(Next(s, steps[0]), steps[1..]))
  }

  /** The state after any interleaving. */
  function After(s: State, steps: seq<Step>): State
    requires CanRun(s, steps)
    decreases |steps|
  {
    if steps == [] then s else After(Next(s, steps[0]), steps[1..])
  }

  lemma StepKeeps(s: State, step: Step)
    requires Inv(s) && CanStep(s, step)
    ensures Inv(Next(s, step))
  {
    match step
    case Joining(j) => PipelineJoining.Kept(s, j);
    case Flushing(f) => PipelineFlushing.Kept(s, f);
    case Requesting(r) => PipelineRequesting.Kept(s, r);
    case Outside(o) => PipelineOutside.Kept(s, o);
  }

  lemma {:induction false} RunKeeps(s: State, steps: seq<Step>)
    requires Inv(s) && CanRun(s, steps)
    ensures Inv(After(s, steps))
    decreases |steps|
  {
    if steps != [] {
      StepKeeps(s, steps[0]);
      RunKeeps(Next(s, steps[0]), steps[1..]);
    }
  }

  /** Every state of every interleaving satisfies the invariant. */
  lemma EveryRunKeeps(limits: BatchLimits, steps: seq<Step>)
    requires CanRun(Init(limits), steps)
    ensures Inv(After(Init(limits), steps))
  {
    assert Inv(Init(limits));
    RunKeeps(Init(limits), steps);
  }

  // ----- Order: nothing lost, duplicated or reordered -----

  /** What the service recorded is a prefix, in join order, of the admitted updates of all batches
      but those given up without a runtime. Until a write fails or the token is withdrawn, what is
      not recorded yet is exactly what the flusher still holds followed by what is pending. */
  lemma RecordedInJoinOrder(limits: BatchLimits, steps: seq<Step>)
    requires CanRun(Init(limits), steps)
    ensures
      var s := After(Init(limits), steps);
      && s.service <= Live(s.admitted, s.unspawned)
      && (!Stopped(s) ==> Live(s.admitted, s.unspawned) == s.service + Unsent(s) + s.buf.pending)
  {
    EveryRunKeeps(limits, steps);
    PipelineFlushing.PendingIsLive(After(Init(limits), steps));
  }

  ghost predicate Distinct(updates: seq<TrackedUpdate>) {
    forall i, j :: 0 <= i < j < |updates| ==> updates[i] != updates[j]
  }

  /** Some update was given up without a runtime before the last recorded one. */
  ghost predicate Skips(s: State, i: nat) {
    && i < |s.admitted| && s.admitted[i].batch in s.unspawned && s.admitted[i].updates != []
    && |Live(s.admitted[..i], s.unspawned)| < |s.service|
  }

  /** The record is a prefix of everything admitted when no update was skipped, and, unless an update
      skipped can be mistaken for an equal one, only then. */
  lemma PrefixExactlyWithoutSkips(limits: BatchLimits, steps: seq<Step>)
    requires CanRun(Init(limits), steps)
    ensures
      var s := After(Init(limits), steps);
      && ((forall i :: !Skips(s, i)) ==> s.service <= Live(s.admitted, {}))
      && (Distinct(Live(s.admitted, {})) && s.service <= Live(s.admitted, {}) ==> forall i :: !Skips(s, i))
  {
    var s := After(Init(limits), steps);
    EveryRunKeeps(limits, steps);
    RecordedInJoinOrder(limits, steps);
    if i :| Skips(s, i) {
      if Distinct(Live(s.admitted, {})) {
        var k := FirstSkipped(s, i);
        SkipBreaksPrefix(s, k);
      }
    } else {
      NoSkipIsPrefix(s, |s.admitted|);
      assert s.admitted[..|s.admitted|] == s.admitted;
    }
  }

  /** The first join with updates in a batch given up without a runtime. */
  lemma FirstSkipped(s: State, i: nat) returns (k: nat)
    requires Skips(s, i)
    ensures Skips(s, k)
    ensures Live(s.admitted[..k], s.unspawned) == Live(s.admitted[..k], {})
    decreases i
  {
    if j: nat :| j < i && s.admitted[j].batch in s.unspawned && s.admitted[j].updates != [] {
      LiveSplit(s.admitted[..i], j, s.unspawned);
      assert s.admitted[..i][..j] == s.admitted[..j];
      k := FirstSkipped(s, j);
    } else {
      k := i;
      LiveOfEmptyJoins(s.admitted[..i], s.unspawned);
    }
  }

  lemma {:induction false} LiveOfEmptyJoins(joins: seq<Join>, gone: set<BatchId>)
    requires forall i :: 0 <= i < |joins| && joins[i].batch in gone ==> joins[i].updates == []
    ensures Live(joins, gone) == Live(joins, {})
  {
    if joins != [] {
      LiveOfEmptyJoins(joins[..|joins| - 1], gone);
    }
  }

  lemma SkipBreaksPrefix(s: State, k: nat)
    requires Skips(s, k) && s.service <= Live(s.admitted, s.unspawned)
    requires Live(s.admitted[..k], s.unspawned) == Live(s.admitted[..k], {})
    requires Distinct(Live(s.admitted, {}))
    ensures !(s.service <= Live(s.admitted, {}))
  {
    var head, tail := s.admitted[..k], s.admitted[k + 1..];
    SplitAt(s.admitted, k, {});
    SplitAt(s.admitted, k, s.unspawned);
    assert Live(head, s.unspawned) + [] == Live(head, s.unspawned);
    LiveIsPart(tail, s.unspawned, Live(tail, s.unspawned)[0]);
    GapBreaksPrefix(s.service, Live(head, {}), s.admitted[k].updates, Live(tail, {}), Live(tail, s.unspawned));
  }

  /** A record that leaves out the gap and goes on is not a prefix of the whole: what it has next
      stands elsewhere in the whole. */
  lemma GapBreaksPrefix(
      record: seq<TrackedUpdate>, head: seq<TrackedUpdate>, gap: seq<TrackedUpdate>,
      tail: seq<TrackedUpdate>, kept: seq<TrackedUpdate>)
    requires record <= head + kept && |head| < |record| && gap != [] && kept[0] in tail
    requires Distinct(head + gap + tail)
    ensures !(record <= head + gap + tail)
  {
    var whole := head + gap + tail;
    var at :| 0 <= at < |tail| && tail[at] == kept[0];
    assert whole[|head| + |gap| + at] == kept[0] && record[|head|] == kept[0];
  }

  lemma SplitAt(joins: seq<Join>, k: nat, gone: set<BatchId>)
    requires k < |joins|
    ensures Live(joins, gone)
         == Live(joins[..k], gone)
            + (if joins[k].batch in gone then [] else joins[k].updates)
            + Live(joins[k + 1..], gone)
  {
    LiveSplit(joins, k + 1, gone);
    assert joins[..k + 1][..k] == joins[..k];
  }

  lemma {:induction false} LiveIsPart(joins: seq<Join>, gone: set<BatchId>, u: TrackedUpdate)
    requires u in Live(joins, gone)
    ensures u in Live(joins, {})
  {
    var last := joins[|joins| - 1];
    if u in Live(joins[..|joins| - 1], gone) {
      LiveIsPart(joins[..|joins| - 1], gone, u);
    }
  }

  lemma {:induction false} NoSkipIsPrefix(s: State, k: nat)
    requires k <= |s.admitted| && s.service <= Live(s.admitted, s.unspawned)
    requires forall i :: !Skips(s, i)
    ensures
      var seen := Live(s.admitted[..k], s.unspawned);
      if |seen| <= |s.service| then seen <= Live(s.admitted[..k], {})
        && (|seen| < |s.service| ==> seen == Live(s.admitted[..k], {}))
      else s.service <= Live(s.admitted[..k], {})
    ensures k == |s.admitted| ==> s.service <= Live(s.admitted, {})
  {
    var all := s.admitted;
    if k > 0 {
      NoSkipIsPrefix(s, k - 1);
      assert all[..k][..k - 1] == all[..k - 1];
      LiveSplit(all, k, s.unspawned);
      LiveSplit(all, k - 1, s.unspawned);
      assert !Skips(s, k - 1);
    } else {
      assert all[..0] == [];
    }
    assert all[..|all|] == all;
  }

  // ----- Failure and withdrawal -----

  /** A latch stays set, and a step under it sends nothing, records nothing and, once the open batch
      is dropped, admits nothing. */
  ghost predicate Halts(s: State, s': State) {
    && Latched(s') && s'.requests == s.requests && s'.service == s.service
    && (Stopped(s) ==> Stopped(s') && s'.admitted == s.admitted)
  }

  lemma JoiningHalts(s: State, step: JoinStep)
    requires TokenInv(s) && Latched(s) && CanJoin(s, step)
    ensures Halts(s, NextJoin(s, step))
  {
  }

  lemma FlushingHalts(s: State, step: FlushStep)
    requires Latched(s) && CanFlush(s, step)
    ensures Halts(s, NextFlush(s, step))
  {
  }

  lemma RequestingHalts(s: State, step: RequestStep)
    requires TokenInv(s) && Latched(s) && CanRequest(s, step)
    ensures Halts(s, NextRequest(s, step))
  {
  }

  lemma OutsideHalts(s: State, step: OtherStep)
    requires Latched(s) && CanOther(s, step)
    ensures Halts(s, NextOther(s, step))
  {
  }

  lemma LatchStops(s: State, step: Step)
    requires Inv(s) && Latched(s) && CanStep(s, step)
    ensures Halts(s, Next(s, step))
  {
    match step
    case Joining(j) => JoiningHalts(s, j);
    case Flushing(f) => FlushingHalts(s, f);
    case Requesting(r) => RequestingHalts(s, r);
    case Outside(o) => OutsideHalts(s, o);
  }

  /** Once a write failed or the token is withdrawn, no further request is sent by anyone, in any
      continuation. Once the open batch is dropped as well, no join is admitted and the buffer stays
      empty, so every later join is refused and every earlier one is recorded, claimed or dropped. */
  lemma {:induction false} NothingAfterLatch(s: State, steps: seq<Step>)
    requires Inv(s) && Latched(s) && CanRun(s, steps)
    ensures
      var s' := After(s, steps);
      && s'.requests == s.requests && s'.service == s.service
      && (Stopped(s) ==> s'.admitted == s.admitted && s'.buf.open.None? && s'.buf.pending == [])
    decreases |steps|
  {
    if steps != [] {
      LatchStops(s, steps[0]);
      StepKeeps(s, steps[0]);
      NothingAfterLatch(Next(s, steps[0]), steps[1..]);
    } else if Stopped(s) {
      StoppedIsEmpty(s);
    }
  }

  lemma StoppedIsEmpty(s: State)
    requires TokenInv(s) && BufferInv(s) && Stopped(s)
    ensures s.buf.open.None? && s.buf.pending == []
  {
    assert s.admitted[|s.admitted|..] == [];
  }

  // ----- Flush barrier -----

  /** A flush point that drained the buffer is a barrier: every join completed before it found no
      open batch is recorded in full, or was given up without a runtime, or the pipeline stopped. */
  lemma FlushPointIsBarrier(limits: BatchLimits, steps: seq<Step>, k: nat, i: nat)
    requires CanRun(Init(limits), steps)
    requires k in After(Init(limits), steps).barriers && i < k
    ensures
      var s := After(Init(limits), steps);
      && i < |s.admitted|
      && (|| Stopped(s) || s.admitted[i].batch in s.unspawned || IsRecorded(s, i))
  {
    var s := After(Init(limits), steps);
    EveryRunKeeps(limits, steps);
    if !Stopped(s) && s.admitted[i].batch !in s.unspawned {
      CoveredIsRecorded(s, i, k);
    }
  }

  /** The updates of join i stand in the record, at the place the join order gives them. */
  ghost predicate IsRecorded(s: State, i: nat)
    requires i < |s.admitted|
  {
    var n, m := |Live(s.admitted[..i], s.unspawned)|, |s.admitted[i].updates|;
    n + m <= |s.service| && s.service[n..n + m] == s.admitted[i].updates
  }

  lemma CoveredIsRecorded(s: State, i: nat, k: nat)
    requires i < k <= |s.admitted| && Covered(s, k) && s.admitted[i].batch !in s.unspawned
    ensures IsRecorded(s, i)
  {
    LiveSplit(s.admitted[..k], i + 1, s.unspawned);
    assert s.admitted[..k][..i + 1] == s.admitted[..i + 1];
    assert s.admitted[..i + 1][..i] == s.admitted[..i];
  }

  // ----- Batches and their contributors -----

  /** A contributor that observes success has every update of its batch recorded, in order; one that
      observes the missing runtime has none of them in what was recorded; and the contributors of a
      failed or dropped batch observe nothing. */
  lemma ResultsAreTrue(limits: BatchLimits, steps: seq<Step>, i: nat)
    requires CanRun(Init(limits), steps) && i < |After(Init(limits), steps).admitted|
    ensures
      var s := After(Init(limits), steps);
      var b := s.admitted[i].batch;
      && (b in s.lost ==> b !in s.published)
      && (b in s.published && s.published[b].Written? ==> b !in s.unspawned && IsRecorded(s, i))
      && (b in s.published && s.published[b].NoRuntime? ==> b in s.unspawned)
  {
    var s := After(Init(limits), steps);
    EveryRunKeeps(limits, steps);
    var b := s.admitted[i].batch;
    if b in s.published && s.published[b].Written? {
      CoveredIsRecorded(s, i, i + 1);
    }
  }

  /** The batch the step takes from the buffer, if it takes one. */
  predicate Takes(s: State, step: Step, b: BatchId)
    requires CanStep(s, step)
  {
    s.buf.open == Some(b) && Next(s, step).buf.open != Some(b)
  }

  /** A claim takes the open batch, which nobody claimed, dropped or published before. A flusher spawned
      for a batch takes no other, and no flusher claims while a reservation is live. A contributor
      without a runtime claims only its own batch, and never after a failed write. */
  lemma ClaimIsFresh(s: State, step: Step, b: BatchId)
    requires Inv(s) && CanStep(s, step) && Takes(s, step, b)
    ensures b !in s.claimed && b !in s.lost && b !in s.published
    ensures
      || (step == Flushing(CheckHolds) && FlusherClaims(s, Next(s, step), b))
      || (step == Outside(ClaimUnspawned(b)) && !s.coord.writeFailed && b in Next(s, step).rejecting)
      || (step == Requesting(DropOpenBatch) && b in Next(s, step).lost)
  {
    match step
    case Joining(j) => JoinKeepsOpen(s, j);
    case Flushing(f) => FlusherTakes(s, f, b);
    case Requesting(r) => PipelineRequesting.DropEffect(s, r);
    case Outside(o) => PipelineOutside.UnspawnedEffect(s, o);
  }

  ghost predicate FlusherClaims(s: State, s': State, b: BatchId) {
    && s.reservations == {} && s.flusher.Enabled? && (s.flusher.target.Only? ==> s.flusher.target.batch == b)
    && s'.flusher.Writing? && s'.flusher.batch == b && s'.flusher.target == s.flusher.target
  }

  lemma JoinKeepsOpen(s: State, step: JoinStep)
    requires CanJoin(s, step) && s.buf.open.Some?
    ensures NextJoin(s, step).buf.open == s.buf.open
  {
  }

  lemma FlusherTakes(s: State, step: FlushStep, b: BatchId)
    requires HoldInv(s) && CanFlush(s, step) && s.buf.open == Some(b) && NextFlush(s, step).buf.open != Some(b)
    ensures step == CheckHolds && FlusherClaims(s, NextFlush(s, step), b)
  {
    NoHoldMeansNoReservation(s);
  }

  lemma NoHoldMeansNoReservation(s: State)
    requires HoldInv(s)
    ensures s.buf.holds == 0 <==> s.reservations == {}
  {
  }

  /** No step changes a published result, or takes a batch back. */
  ghost predicate KeepsOutcome(s: State, s': State, b: BatchId) {
    && (b in s.published ==> b in s'.published && s'.published[b] == s.published[b])
    && (b in s.lost ==> b in s'.lost)
  }

  lemma JoiningKeepsOutcome(s: State, step: JoinStep, b: BatchId)
    requires CanJoin(s, step)
    ensures KeepsOutcome(s, NextJoin(s, step), b)
  {
  }

  lemma FlushingKeepsOutcome(s: State, step: FlushStep, b: BatchId)
    requires BatchInv(s) && CanFlush(s, step)
    ensures KeepsOutcome(s, NextFlush(s, step), b)
  {
  }

  lemma RequestingKeepsOutcome(s: State, step: RequestStep, b: BatchId)
    requires CanRequest(s, step)
    ensures KeepsOutcome(s, NextRequest(s, step), b)
  {
  }

  lemma OutsideKeepsOutcome(s: State, step: OtherStep, b: BatchId)
    requires BatchInv(s) && CanOther(s, step)
    ensures KeepsOutcome(s, NextOther(s, step), b)
  {
  }

  lemma OutcomeKept(s: State, step: Step, b: BatchId)
    requires Inv(s) && CanStep(s, step)
    ensures KeepsOutcome(s, Next(s, step), b)
  {
    match step
    case Joining(j) => JoiningKeepsOutcome(s, j, b);
    case Flushing(f) => FlushingKeepsOutcome(s, f, b);
    case Requesting(r) => RequestingKeepsOutcome(s, r, b);
    case Outside(o) => OutsideKeepsOutcome(s, o, b);
  }

  /** A batch is published at most once: no continuation changes a published result, and a batch that
      failed or was dropped is never published. */
  lemma {:induction false} PublishedOnce(s: State, steps: seq<Step>, b: BatchId)
    requires Inv(s) && CanRun(s, steps)
    ensures b in s.published ==> b in After(s, steps).published && After(s, steps).published[b] == s.published[b]
    ensures b in s.lost ==> b !in After(s, steps).published
    decreases |steps|
  {
    if steps != [] {
      OutcomeKept(s, steps[0], b);
      StepKeeps(s, steps[0]);
      PublishedOnce(Next(s, steps[0]), steps[1..], b);
    }
  }

  // ----- Scope closes -----

  /** Scope close linearizes against joins, although it takes neither the buffer lock nor the
      coordinator lock: every admitted join of a closed scope, or of a scope nested in it, took the
      buffer lock before the close, and stands before every join that took it after the close. */
  lemma CloseSeparatesJoins(limits: BatchLimits, steps: seq<Step>, scope: Scope, i: nat, j: nat)
    requires CanRun(Init(limits), steps)
    requires i < |After(Init(limits), steps).admitted| && j < |After(Init(limits), steps).admitted|
    requires scope in After(Init(limits), steps).closed && scope in After(Init(limits), steps).admitted[i].owners
    ensures
      var s := After(Init(limits), steps);
      && s.admitted[i].lockedAt < s.closed[scope]
      && (s.admitted[j].lockedAt > s.closed[scope] ==> i < j)
  {
    EveryRunKeeps(limits, steps);
    var s := After(Init(limits), steps);
    assert BeforeCloses(s, s.admitted[i].owners, s.admitted[i].lockedAt);
  }

  /** A join that takes the buffer lock after the close is rejected and buffers nothing: no
      continuation of a state in which it holds the lock contains it. */
  lemma {:induction false} LateJoinIsRejected(s: State, steps: seq<Step>, scope: Scope)
    requires Inv(s) && s.lock.Entered? && scope in s.lock.call.owners && scope in s.closed
    requires s.closed[scope] < s.lock.call.lockedAt
    requires CanRun(s, steps)
    ensures forall i :: 0 <= i < |After(s, steps).admitted| ==>
      After(s, steps).admitted[i].lockedAt != s.lock.call.lockedAt
  {
    RejectedNeverAppears(s, steps, s.lock.call.lockedAt);
  }

  ghost predicate RejectsTime(s: State, t: nat) {
    && t < s.clock
    && (forall i :: 0 <= i < |s.admitted| ==> s.admitted[i].lockedAt != t)
    && (!s.lock.Free? && s.lock.call.lockedAt == t ==>
          s.lock.Entered? && exists scope :: scope in s.lock.call.owners && scope in s.closed)
  }

  lemma RejectedStays(s: State, step: Step, t: nat)
    requires RejectsTime(s, t) && CanStep(s, step)
    ensures RejectsTime(Next(s, step), t)
  {
    match step
    case Joining(j) => RejectedStaysByJoin(s, j, t);
    case Flushing(f) => PipelineFlushing.ScopesUntouched(s, f);
    case Requesting(r) => PipelineRequesting.ScopesUntouched(s, r);
    case Outside(o) => PipelineOutside.ScopesUntouched(s, o);
  }

  lemma RejectedStaysByJoin(s: State, step: JoinStep, t: nat)
    requires RejectsTime(s, t) && CanJoin(s, step)
    ensures RejectsTime(NextJoin(s, step), t)
  {
  }

  lemma {:induction false} RejectedNeverAppears(s: State, steps: seq<Step>, t: nat)
    requires RejectsTime(s, t) && CanRun(s, steps)
    ensures RejectsTime(After(s, steps), t)
    decreases |steps|
  {
    if steps != [] {
      RejectedStays(s, steps[0], t);
      RejectedNeverAppears(Next(s, steps[0]), steps[1..], t);
    }
  }

  // ----- Permits and suspension -----

  /** The checkpoint permits held are the admitted joins not released yet, so releasing one never
      saturates, and each stands with its join: in the buffer, with the flusher, or on its way out. */
  lemma PermitsCountJoins(limits: BatchLimits, steps: seq<Step>)
    requires CanRun(Init(limits), steps)
    ensures
      var s := After(Init(limits), steps);
      && s.coord.checkpoint + s.released == |s.admitted| + JoiningPermits(s)
      && s.buf.permits == |s.admitted| - s.sealed
      && (s.loose > 0 ==> s.coord.checkpoint > 0)
  {
    EveryRunKeeps(limits, steps);
  }

  /** The invocation suspends on its own only when every admitted update is recorded, or was given up
      without a runtime: no suspension happens with an admitted update unwritten. */
  lemma SuspensionFindsNothingUnwritten(s: State, step: Step)
    requires Inv(s) && CanStep(s, step) && Suspended(s, Next(s, step)) && !s.coord.withdrawn
    ensures
      var s' := Next(s, step);
      && s'.service == Live(s'.admitted, s'.unspawned)
      && s'.buf.open.None? && s'.buf.pending == [] && !s'.flusher.Writing? && !s'.lock.Permitted?
  {
    StepKeeps(s, step);
    var s' := Next(s, step);
    SuspensionEffect(s, step);
    assert s'.admitted[..s'.sealed] == s'.admitted;
    assert s'.admitted[|s'.admitted|..] == [];
  }

  predicate Suspended(s: State, s': State) {
    !s.coord.phase.Suspending? && s'.coord.phase.Suspending?
  }

  lemma OthersDoNotSuspend(s: State)
    requires !s.coord.withdrawn
    ensures forall step: JoinStep :: CanJoin(s, step) ==> !Suspended(s, NextJoin(s, step))
    ensures forall step: FlushStep :: CanFlush(s, step) ==> !Suspended(s, NextFlush(s, step))
  {
  }

  lemma RequestsDoNotSuspend(s: State, step: RequestStep)
    requires TokenInv(s) && !s.coord.withdrawn && CanRequest(s, step)
    ensures !Suspended(s, NextRequest(s, step))
  {
  }

  lemma SuspensionEffect(s: State, step: Step)
    requires Inv(s) && CanStep(s, step) && Suspended(s, Next(s, step)) && !s.coord.withdrawn
    ensures
      var s' := Next(s, step);
      step.Outside? && s'.coord.checkpoint == 0 && !s'.coord.fatal && !s'.coord.withdrawn
  {
    hide NextJoin, NextFlush, NextRequest;
    match step
    case Joining(_) => OthersDoNotSuspend(s);
    case Flushing(_) => OthersDoNotSuspend(s);
    case Requesting(r) => RequestsDoNotSuspend(s, r);
    case Outside(_) =>
  }

  // ----- Reservations and wakeups -----

  /** The hold count is the number of live reservations in every run, across withdrawals and claims
      that do not wait, so neither side of its saturating arithmetic is ever reached. A flusher that
      sleeps although no hold is left has a releaser that has yet to notify. */
  lemma HoldsCountReservations(limits: BatchLimits, steps: seq<Step>)
    requires CanRun(Init(limits), steps)
    ensures
      var s := After(Init(limits), steps);
      && s.buf.holds == |s.reservations| <= USIZE_MAX
      && (s.flusher.Asleep? && !s.flusher.woken && s.reservations == {} ==> s.notifying != {})
  {
    EveryRunKeeps(limits, steps);
    NoHoldMeansNoReservation(After(Init(limits), steps));
  }

  /** No wakeup is lost: when no reservation is live and nobody holds the buffer lock, a sleeping
      flusher gets through in at most four steps, of itself and of a releaser that is notifying. */
  lemma SleeperGetsThrough(s: State) returns (steps: seq<Step>)
    requires Inv(s) && s.flusher.Asleep? && s.reservations == {} && s.lock.Free?
    ensures |steps| <= 4 && CanRun(s, steps)
    ensures
      var s' := After(s, steps);
      if ClaimFor(s, s.flusher.target).Some? then s'.flusher.Writing? && s'.flusher.batch == s.buf.open.value
      else s'.flusher.NoFlusher?
  {
    NoHoldMeansNoReservation(s);
    var tail := [Flushing(Wake), Flushing(EnableWaiter), Flushing(CheckHolds)];
    if s.flusher.woken {
      steps := tail;
      WokenGetsThrough(s);
    } else {
      var r :| r in s.notifying;
      steps := [Joining(Notify(r))] + tail;
      var woken := Next(s, Joining(Notify(r)));
      WokenGetsThrough(woken);
      assert steps[1..] == tail;
    }
  }

  lemma WokenGetsThrough(s: State)
    requires s.flusher.Asleep? && s.flusher.woken && s.buf.holds == 0 && s.lock.Free?
    ensures
      var steps := [Flushing(Wake), Flushing(EnableWaiter), Flushing(CheckHolds)];
      && CanRun(s, steps)
      && var s' := After(s, steps);
         if ClaimFor(s, s.flusher.target).Some? then s'.flusher.Writing? && s'.flusher.batch == s.buf.open.value
         else s'.flusher.NoFlusher?
  {
    var a, b, c: Step := Flushing(Wake), Flushing(EnableWaiter), Flushing(CheckHolds);
    var s1 := Next(s, a);
    var s2 := Next(s1, b);
    OneStep(s2, c);
    TwoSteps(s1, b, [c]);
    TwoSteps(s, a, [b, c]);
  }

  lemma OneStep(s: State, step: Step)
    requires CanStep(s, step)
    ensures CanRun(s, [step]) && After(s, [step]) == Next(s, step)
  {
    assert [step][1..] == [];
  }

  lemma TwoSteps(s: State, step: Step, rest: seq<Step>)
    requires CanStep(s, step) && CanRun(Next(s, step), rest)
    ensures CanRun(s, [step] + rest) && After(s, [step] + rest) == After(Next(s, step), rest)
  {
    assert ([step] + rest)[1..] == rest;
  }
}
