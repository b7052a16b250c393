/** The checkpoint write pipeline told by its steps: what the state holds is what the steps of the run
    asked for, and which task is decided how.
 */
module PipelineTraces {
  import opened Options
  import opened Requests
  import opened Pipeline
  import opened PipelineInvariant
  import opened PipelineTheorems

  // ----- The states along a run -----

  lemma {:induction false} RunPrefix(s: State, steps: seq<Step>, k: nat)
    requires CanRun(s, steps) && k <= |steps|
    ensures CanRun(s, steps[..k])
    decreases k
  {
    if k > 0 {
      assert steps[..k][1..] == steps[1..][..k - 1];
      RunPrefix(Next(s, steps[0]), steps[1..], k - 1);
    }
  }

  /** The state before step k, or, for k = |steps|, at the end. */
  ghost function At(limits: BatchLimits, steps: seq<Step>, k: nat): State
    requires CanRun(Init(limits), steps) && k <= |steps|
  {
    RunPrefix(Init(limits), steps, k);
    After(Init(limits), steps[..k])
  }

  lemma {:induction false} SnocStep(s: State, steps: seq<Step>, k: nat)
    requires CanRun(s, steps) && k < |steps|
    ensures CanRun(s, steps[..k]) && CanStep(After(s, steps[..k]), steps[k])
    ensures CanRun(s, steps[..k + 1]) && After(s, steps[..k + 1]) == Next(After(s, steps[..k]), steps[k])
    decreases k
  {
    RunPrefix(s, steps, k);
    RunPrefix(s, steps, k + 1);
    if k == 0 {
      assert steps[..1] == [steps[0]] && steps[..1][1..] == [];
    } else {
      SnocStep(Next(s, steps[0]), steps[1..], k - 1);
      assert steps[..k][1..] == steps[1..][..k - 1] && steps[..k + 1][1..] == steps[1..][..k];
    }
  }

  lemma StepAt(limits: BatchLimits, steps: seq<Step>, k: nat)
    requires CanRun(Init(limits), steps) && k < |steps|
    ensures CanStep(At(limits, steps, k), steps[k])
    ensures At(limits, steps, k + 1) == Next(At(limits, steps, k), steps[k])
  {
    SnocStep(Init(limits), steps, k);
  }

  lemma Ends(limits: BatchLimits, steps: seq<Step>)
    requires CanRun(Init(limits), steps)
    ensures At(limits, steps, 0) == Init(limits) && At(limits, steps, |steps|) == After(Init(limits), steps)
  {
    assert steps[..|steps|] == steps;
  }

  lemma KeptAt(limits: BatchLimits, steps: seq<Step>, k: nat)
    requires CanRun(Init(limits), steps) && k <= |steps|
    ensures Inv(At(limits, steps, k))
  {
    RunPrefix(Init(limits), steps, k);
    EveryRunKeeps(limits, steps[..k]);
  }

  // ----- The clock -----

  predicate IsClose(step: Step) {
    step.Joining? && step.join.CloseScope?
  }

  predicate IsLock(step: Step) {
    step.Joining? && step.join.BufferLock?
  }

  /** How many scope closes and lock acquisitions the steps hold. */
  function Ticks(steps: seq<Step>): nat {
    if steps == [] then 0
    else Ticks(steps[..|steps| - 1]) + (if IsClose(steps[|steps| - 1]) || IsLock(steps[|steps| - 1]) then 1 else 0)
  }

  lemma {:induction false} TicksGrow(steps: seq<Step>, i: nat, j: nat)
    requires i <= j <= |steps|
    ensures Ticks(steps[..i]) <= Ticks(steps[..j])
    ensures i < j && (IsClose(steps[i]) || IsLock(steps[i])) ==> Ticks(steps[..i]) < Ticks(steps[..j])
    decreases j - i
  {
    if i < j {
      assert steps[..j][..j - 1] == steps[..j - 1];
      if i < j - 1 {
        TicksGrow(steps, i, j - 1);
      }
    }
  }

  lemma TicksStep(steps: seq<Step>, k: nat)
    requires k < |steps|
    ensures Ticks(steps[..k + 1]) == Ticks(steps[..k]) + if IsClose(steps[k]) || IsLock(steps[k]) then 1 else 0
  {
    assert steps[..k + 1][..k] == steps[..k];
  }

  lemma JoinClock(s: State, step: JoinStep)
    requires CanJoin(s, step)
    ensures NextJoin(s, step).clock == s.clock + if step.CloseScope? || step.BufferLock? then 1 else 0
  {
  }

  /** What only joins and closes change. */
  lemma ScopesUntouched(s: State, step: Step)
    requires CanStep(s, step) && !step.Joining?
    ensures
      var s' := Next(s, step);
      && s'.closed == s.closed && s'.clock == s.clock && s'.admitted == s.admitted && s'.lock == s.lock
      && s'.nextBatch == s.nextBatch && s'.reservations == s.reservations
  {
    match step
    case Flushing(f) => FlushingUntouched(s, f);
    case Requesting(r) => RequestingUntouched(s, r);
    case Outside(o) =>
  }

  lemma FlushingUntouched(s: State, step: FlushStep)
    requires CanFlush(s, step)
    ensures
      var s' := NextFlush(s, step);
      && s'.closed == s.closed && s'.clock == s.clock && s'.admitted == s.admitted && s'.lock == s.lock
      && s'.nextBatch == s.nextBatch && s'.reservations == s.reservations
  {
  }

  lemma RequestingUntouched(s: State, step: RequestStep)
    requires CanRequest(s, step)
    ensures
      var s' := NextRequest(s, step);
      && s'.closed == s.closed && s'.clock == s.clock && s'.admitted == s.admitted && s'.lock == s.lock
      && s'.nextBatch == s.nextBatch && s'.reservations == s.reservations
  {
  }

  lemma {:induction false} ClockIsTicks(limits: BatchLimits, steps: seq<Step>, k: nat)
    requires CanRun(Init(limits), steps) && k <= |steps|
    ensures At(limits, steps, k).clock == Ticks(steps[..k])
  {
    Ends(limits, steps);
    hide Next, CanStep, CanRun, After, At;
    if k > 0 {
      ClockIsTicks(limits, steps, k - 1);
      TicksStep(steps, k - 1);
      StepAt(limits, steps, k - 1);
      ClockStep(At(limits, steps, k - 1), steps[k - 1]);
    }
  }

  lemma ClockStep(s: State, step: Step)
    requires CanStep(s, step)
    ensures Next(s, step).clock == s.clock + if IsClose(step) || IsLock(step) then 1 else 0
  {
    hide NextJoin, NextFlush, NextRequest, NextOther, CanJoin, CanFlush, CanRequest, CanOther;
    if step.Joining? { JoinClock(s, step.join); } else { ScopesUntouched(s, step); }
  }

  // ----- Scopes are closed by their close -----

  predicate ClosedBefore(steps: seq<Step>, k: nat, scope: Scope)
    requires k <= |steps|
  {
    exists a :: 0 <= a < k && steps[a] == Joining(CloseScope(scope))
  }

  lemma ClosedStep(s: State, step: Step)
    requires CanStep(s, step)
    ensures
      Next(s, step).closed
      == if IsClose(step) && step.join.scope !in s.closed then s.closed[step.join.scope := s.clock] else s.closed
  {
    if step.Joining? { JoinCloses(s, step.join); } else { ScopesUntouched(s, step); }
    hide *;
  }

  lemma JoinCloses(s: State, step: JoinStep)
    requires CanJoin(s, step)
    ensures
      NextJoin(s, step).closed
      == if step.CloseScope? && step.scope !in s.closed then s.closed[step.scope := s.clock] else s.closed
  {
  }

  /** A scope is closed when a step closed it, since the first that did. */
  lemma {:induction false} ClosedBySteps(limits: BatchLimits, steps: seq<Step>, k: nat, scope: Scope) returns (a: nat)
    requires CanRun(Init(limits), steps) && k <= |steps|
    ensures scope in At(limits, steps, k).closed <==> ClosedBefore(steps, k, scope)
    ensures scope in At(limits, steps, k).closed ==>
      && a < k && steps[a] == Joining(CloseScope(scope)) && !ClosedBefore(steps, a, scope)
      && At(limits, steps, k).closed[scope] == Ticks(steps[..a])
  {
    Ends(limits, steps);
    hide Next, CanStep, CanRun, After, At, Ticks, ClosedBefore;
    a := 0;
    if k == 0 {
      NothingClosed(steps, scope);
    } else {
      a := ClosedBySteps(limits, steps, k - 1, scope);
      StepAt(limits, steps, k - 1);
      ClockIsTicks(limits, steps, k - 1);
      ClosedStep(At(limits, steps, k - 1), steps[k - 1]);
      ClosedByNow(steps, k - 1, scope);
      if scope !in At(limits, steps, k - 1).closed { a := k - 1; }
    }
  }

  lemma NothingClosed(steps: seq<Step>, scope: Scope)
    ensures !ClosedBefore(steps, 0, scope)
  {
  }

  lemma ClosedByNow(steps: seq<Step>, k: nat, scope: Scope)
    requires k < |steps|
    ensures ClosedBefore(steps, k + 1, scope)
       <==> ClosedBefore(steps, k, scope) || steps[k] == Joining(CloseScope(scope))
  {
  }

  // ----- The buffer lock is held for a call -----

  /** The join that took the buffer lock with step b. */
  function CallAt(steps: seq<Step>, b: nat): JoinCall
    requires b < |steps| && IsLock(steps[b])
  {
    var join := steps[b].join;
    JoinCall(join.owners, join.updates, join.reserve, Ticks(steps[..b]))
  }

  /** Step b is the last before k that took the buffer lock. */
  predicate LastLock(steps: seq<Step>, k: nat, b: nat) {
    b < k <= |steps| && IsLock(steps[b]) && forall j :: b < j < k ==> !IsLock(steps[j])
  }

  /** Between steps b and k the join's owners were found open. */
  ghost predicate FoundOpen(steps: seq<Step>, b: nat, k: nat, owners: seq<Scope>)
    requires k <= |steps|
  {
    exists a ::
      && b < a < k && steps[a] == Joining(CheckAdmission)
      && forall owner :: owner in owners ==> !ClosedBefore(steps, a, owner)
  }

  /** A held lock is held for the last step that took it, with exactly its owners, updates and
      reservation. */
  ghost predicate HeldBy(s: State, steps: seq<Step>, k: nat, b: nat) {
    && LastLock(steps, k, b) && !s.lock.Free? && s.lock.call == CallAt(steps, b)
    && (s.lock.Passed? || s.lock.Permitted? ==> FoundOpen(steps, b, k, s.lock.call.owners))
  }

  lemma LockStep(s: State, step: Step)
    requires CanStep(s, step)
    ensures
      var s' := Next(s, step);
      match step
      case Joining(BufferLock(owners, updates, reserve)) =>
        s.lock.Free? && s'.lock == Entered(JoinCall(owners, updates, reserve, s.clock))
      case Joining(CheckAdmission) =>
        s.lock.Entered?
        && s'.lock == (if exists owner :: owner in s.lock.call.owners && owner in s.closed then Free
                       else Passed(s.lock.call))
      case Joining(AcquirePermit) =>
        s.lock.Passed?
        && s'.lock == (if s.coord.phase.Running? && !s.coord.withdrawn && !s.coord.writeFailed
                       then Permitted(s.lock.call)
                       else Free)
      case Joining(Push) => s.lock.Permitted? && s'.lock.Free?
      case _ => s'.lock == s.lock
  {
    if !step.Joining? { ScopesUntouched(s, step); }
    hide NextFlush, NextRequest, NextOther;
  }

  lemma {:induction false} LockIsHeldForItsCall(limits: BatchLimits, steps: seq<Step>, k: nat) returns (b: nat)
    requires CanRun(Init(limits), steps) && k <= |steps| && !At(limits, steps, k).lock.Free?
    ensures HeldBy(At(limits, steps, k), steps, k, b)
  {
    Ends(limits, steps);
    hide *;
    StartsFree(limits);
    var s := At(limits, steps, k - 1);
    StepAt(limits, steps, k - 1);
    ClockIsTicks(limits, steps, k - 1);
    if IsLock(steps[k - 1]) {
      b := k - 1;
      HeldFirst(s, steps, b);
    } else {
      StaysHeld(s, steps[k - 1]);
      b := LockIsHeldForItsCall(limits, steps, k - 1);
      HeldFacts(s, steps, k - 1, b);
      if steps[k - 1] == Joining(CheckAdmission) { OpenOwners(limits, steps, k - 1, b); }
      HeldLater(s, steps, k - 1, b);
    }
  }

  lemma StartsFree(limits: BatchLimits)
    ensures Init(limits).lock.Free?
  {
  }

  lemma HeldFirst(s: State, steps: seq<Step>, k: nat)
    requires k < |steps| && CanStep(s, steps[k]) && IsLock(steps[k]) && s.clock == Ticks(steps[..k])
    ensures HeldBy(Next(s, steps[k]), steps, k + 1, k)
  {
    hide Next, CanStep, Ticks;
    LockStep(s, steps[k]);
  }

  lemma StaysHeld(s: State, step: Step)
    requires CanStep(s, step) && !IsLock(step) && !Next(s, step).lock.Free?
    ensures !s.lock.Free?
    ensures step == Joining(CheckAdmission) ==> s.lock.Entered? && Next(s, step).lock.Passed?
  {
    hide Next, CanStep;
    LockStep(s, step);
  }

  lemma HeldFacts(s: State, steps: seq<Step>, k: nat, b: nat)
    requires HeldBy(s, steps, k, b)
    ensures b < k && !s.lock.Free?
  {
  }

  lemma HeldLater(s: State, steps: seq<Step>, k: nat, b: nat)
    requires k < |steps| && CanStep(s, steps[k]) && HeldBy(s, steps, k, b)
    requires !IsLock(steps[k]) && !Next(s, steps[k]).lock.Free?
    requires steps[k] == Joining(CheckAdmission) ==> FoundOpen(steps, b, k + 1, s.lock.call.owners)
    ensures HeldBy(Next(s, steps[k]), steps, k + 1, b)
  {
    hide Next, CanStep, FoundOpen, Ticks;
    LockStep(s, steps[k]);
    if s.lock.Passed? || s.lock.Permitted? { FoundOpenStays(steps, b, k, s.lock.call.owners); }
  }

  lemma FoundOpenStays(steps: seq<Step>, b: nat, k: nat, owners: seq<Scope>)
    requires k < |steps| && FoundOpen(steps, b, k, owners)
    ensures FoundOpen(steps, b, k + 1, owners)
  {
  }

  /** The admission check looks at every scope that a step closed. */
  lemma OwnersChecked(limits: BatchLimits, steps: seq<Step>, k: nat, owners: seq<Scope>)
    requires CanRun(Init(limits), steps) && k <= |steps|
    ensures (exists owner :: owner in owners && owner in At(limits, steps, k).closed)
       <==> (exists owner :: owner in owners && ClosedBefore(steps, k, owner))
  {
    forall owner ensures owner in At(limits, steps, k).closed <==> ClosedBefore(steps, k, owner) {
      var a := ClosedBySteps(limits, steps, k, owner);
    }
  }

  lemma OpenOwners(limits: BatchLimits, steps: seq<Step>, k: nat, b: nat)
    requires CanRun(Init(limits), steps) && k < |steps| && b < k && steps[k] == Joining(CheckAdmission)
    requires At(limits, steps, k).lock.Entered? && At(limits, steps, k + 1).lock.Passed?
    ensures FoundOpen(steps, b, k + 1, At(limits, steps, k).lock.call.owners)
  {
    hide Next, CanStep, CanRun, After, At, ClosedBefore;
    StepAt(limits, steps, k);
    LockStep(At(limits, steps, k), steps[k]);
    OwnersChecked(limits, steps, k, At(limits, steps, k).lock.call.owners);
  }

  // ----- What becomes of a join -----

  /** The admission check refuses a join exactly when an earlier step closed one of the owners that the
      join was called with; a refused join gives up the lock, and nothing else changes. */
  lemma AdmissionIsDecided(limits: BatchLimits, steps: seq<Step>, k: nat) returns (b: nat)
    requires CanRun(Init(limits), steps) && k < |steps| && steps[k] == Joining(CheckAdmission)
    ensures LastLock(steps, k, b)
    ensures
      var s, s' := At(limits, steps, k), At(limits, steps, k + 1);
      && s' == s.(lock := s'.lock)
      && s'.lock == if exists owner :: owner in steps[b].join.owners && ClosedBefore(steps, k, owner) then Free
                    else Passed(CallAt(steps, b))
  {
    hide Next, CanStep, CanRun, After, At, ClosedBefore, FoundOpen;
    StepAt(limits, steps, k);
    LockStep(At(limits, steps, k), steps[k]);
    b := LockIsHeldForItsCall(limits, steps, k);
    OwnersChecked(limits, steps, k, steps[b].join.owners);
    OnlyTheLock(At(limits, steps, k), steps[k]);
  }

  lemma OnlyTheLock(s: State, step: Step)
    requires CanStep(s, step) && step == Joining(CheckAdmission)
    ensures Next(s, step) == s.(lock := Next(s, step).lock)
  {
  }

  /** A checkpoint permit is granted exactly while the invocation runs and neither latch is set. A refused join
      gives up the lock, and nothing else changes. */
  lemma PermitIsDecided(limits: BatchLimits, steps: seq<Step>, k: nat) returns (b: nat)
    requires CanRun(Init(limits), steps) && k < |steps| && steps[k] == Joining(AcquirePermit)
    ensures LastLock(steps, k, b)
    ensures
      var s, s' := At(limits, steps, k), At(limits, steps, k + 1);
      if s.coord.phase.Running? && !s.coord.withdrawn && !s.coord.writeFailed then
        s' == s.(lock := Permitted(CallAt(steps, b)), coord := s.coord.(checkpoint := s.coord.checkpoint + 1))
      else s' == s.(lock := Free)
  {
    hide Next, CanStep, CanRun, After, At, ClosedBefore, FoundOpen;
    StepAt(limits, steps, k);
    LockStep(At(limits, steps, k), steps[k]);
    b := LockIsHeldForItsCall(limits, steps, k);
    PermitEffect(At(limits, steps, k));
  }

  lemma PermitEffect(s: State)
    requires CanStep(s, Joining(AcquirePermit))
    ensures
      Next(s, Joining(AcquirePermit))
      == if s.coord.phase.Running? && !s.coord.withdrawn && !s.coord.writeFailed then
           s.(lock := Permitted(s.lock.call), coord := s.coord.(checkpoint := s.coord.checkpoint + 1))
         else s.(lock := Free)
  {
  }

  /** What a push adds: the updates behind all pending ones, one permit, the join at the end of the history,
      in the open batch or a new one, and one reservation exactly when the join reserves. */
  ghost predicate Pushes(s: State, s': State, call: JoinCall) {
    var batch := if s.buf.open.Some? then s.buf.open.value else s.nextBatch;
    && s'.admitted == s.admitted + [Join(batch, call.updates, call.owners, call.lockedAt)]
    && s'.buf.pending == s.buf.pending + call.updates && s'.buf.permits == s.buf.permits + 1
    && s'.buf.open == Some(batch)
    && s'.nextBatch == (if s.buf.open.Some? then s.nextBatch else s.nextBatch + 1)
    && s'.lock.Free? && s'.sealed == s.sealed && s'.coord == s.coord && s'.service == s.service
    && s.reservations <= s'.reservations
    && |s'.reservations| == |s.reservations| + (if call.reserve then 1 else 0)
    && s'.buf.holds == |s'.reservations|
  }

  lemma PushEffect(s: State)
    requires Inv(s) && CanStep(s, Joining(Push))
    ensures Pushes(s, Next(s, Joining(Push)), s.lock.call)
  {
  }

  /** A push is of the join that took the lock last, and that was found open and got a permit since. */
  lemma PushIsJoin(limits: BatchLimits, steps: seq<Step>, k: nat) returns (b: nat)
    requires CanRun(Init(limits), steps) && k < |steps| && steps[k] == Joining(Push)
    ensures LastLock(steps, k, b) && FoundOpen(steps, b, k, steps[b].join.owners)
    ensures Pushes(At(limits, steps, k), At(limits, steps, k + 1), CallAt(steps, b))
  {
    hide Next, CanStep, CanRun, After, At, ClosedBefore, FoundOpen, Pushes, Inv;
    StepAt(limits, steps, k);
    KeptAt(limits, steps, k);
    LockStep(At(limits, steps, k), steps[k]);
    b := LockIsHeldForItsCall(limits, steps, k);
    PushEffect(At(limits, steps, k));
  }

  /** Nothing but a push adds to the history. */
  lemma OnlyPushAdmits(s: State, step: Step)
    requires CanStep(s, step) && step != Joining(Push)
    ensures Next(s, step).admitted == s.admitted
  {
    if !step.Joining? { ScopesUntouched(s, step); }
    hide NextFlush, NextRequest, NextOther;
  }

  /** Every admitted join is one lock step, in order, with exactly its owners and updates. */
  ghost predicate AreSteps(joins: seq<Join>, steps: seq<Step>, at: seq<nat>) {
    && |at| == |joins|
    && (forall i :: 0 <= i < |at| ==> at[i] < |steps| && IsLock(steps[at[i]]))
    && (forall i, j :: 0 <= i < j < |at| ==> at[i] < at[j])
    && (forall i :: 0 <= i < |at| ==>
          var call := CallAt(steps, at[i]);
          joins[i].owners == call.owners && joins[i].updates == call.updates && joins[i].lockedAt == call.lockedAt)
  }

  lemma {:induction false} JoinsAreSteps(limits: BatchLimits, steps: seq<Step>, k: nat) returns (at: seq<nat>)
    requires CanRun(Init(limits), steps) && k <= |steps|
    ensures AreSteps(At(limits, steps, k).admitted, steps, at)
    ensures forall i :: 0 <= i < |at| ==> at[i] < k
    ensures forall b :: LastLock(steps, k, b) && !At(limits, steps, k).lock.Free? ==> b !in at
  {
    Ends(limits, steps);
    hide *;
    if k == 0 {
      at := [];
      NoJoins(limits, steps);
    } else {
      at := JoinsAreSteps(limits, steps, k - 1);
      StepAt(limits, steps, k - 1);
      if steps[k - 1] == Joining(Push) {
        var b := PushIsJoin(limits, steps, k - 1);
        PushFrees(At(limits, steps, k - 1));
        LastLockFacts(steps, k - 1, b);
        JoinsOrdered(At(limits, steps, k - 1).admitted, steps, at);
        JoinsLaterThan(limits, steps, k - 1, at, b);
        PushedJoin(At(limits, steps, k - 1), At(limits, steps, k), CallAt(steps, b));
        OneMoreJoin(At(limits, steps, k - 1).admitted, steps, at, b);
        at := at + [b];
      } else {
        OnlyPushAdmits(At(limits, steps, k - 1), steps[k - 1]);
        LastLockLater(At(limits, steps, k - 1), steps, k - 1, at);
      }
    }
  }

  lemma NoJoins(limits: BatchLimits, steps: seq<Step>)
    ensures AreSteps(Init(limits).admitted, steps, [])
    ensures Init(limits).lock.Free?
  {
  }

  lemma PushFrees(s: State)
    requires CanStep(s, Joining(Push))
    ensures !s.lock.Free? && Next(s, Joining(Push)).lock.Free?
  {
  }

  lemma LastLockFacts(steps: seq<Step>, k: nat, b: nat)
    requires LastLock(steps, k, b)
    ensures b < k && k <= |steps| && IsLock(steps[b])
  {
  }

  lemma JoinsOrdered(joins: seq<Join>, steps: seq<Step>, at: seq<nat>)
    requires AreSteps(joins, steps, at)
    ensures forall i :: 0 <= i < |at| ==> at[i] < |steps| && IsLock(steps[at[i]])
  {
  }

  lemma PushedJoin(s: State, s': State, call: JoinCall)
    requires Pushes(s, s', call)
    ensures exists batch :: s'.admitted == s.admitted + [Join(batch, call.updates, call.owners, call.lockedAt)]
  {
  }

  lemma OneMoreJoin(joins: seq<Join>, steps: seq<Step>, at: seq<nat>, b: nat)
    requires AreSteps(joins, steps, at) && b < |steps| && IsLock(steps[b])
    requires forall i :: 0 <= i < |at| ==> at[i] < b
    ensures
      var call := CallAt(steps, b);
      forall batch :: AreSteps(joins + [Join(batch, call.updates, call.owners, call.lockedAt)], steps, at + [b])
  {
    hide CallAt, IsLock;
  }

  /** Nobody but a lock step makes a free lock held. */
  lemma LastLockLater(s: State, steps: seq<Step>, k: nat, at: seq<nat>)
    requires k < |steps| && CanStep(s, steps[k])
    requires forall i :: 0 <= i < |at| ==> at[i] < k
    requires forall b :: LastLock(steps, k, b) && !s.lock.Free? ==> b !in at
    ensures forall b :: LastLock(steps, k + 1, b) && !Next(s, steps[k]).lock.Free? ==> b !in at
  {
    hide Next, CanStep;
    LockStep(s, steps[k]);
    forall b: nat | LastLock(steps, k + 1, b) && !Next(s, steps[k]).lock.Free? ensures b !in at {
      if b < k { assert LastLock(steps, k, b); }
    }
  }

  /** The join that holds the lock took it after every admitted one. */
  lemma JoinsLaterThan(limits: BatchLimits, steps: seq<Step>, k: nat, at: seq<nat>, b: nat)
    requires CanRun(Init(limits), steps) && k <= |steps| && LastLock(steps, k, b)
    requires !At(limits, steps, k).lock.Free?
    requires forall i :: 0 <= i < |at| ==> at[i] < k && at[i] < |steps| && IsLock(steps[at[i]])
    requires forall b :: LastLock(steps, k, b) && !At(limits, steps, k).lock.Free? ==> b !in at
    ensures forall i :: 0 <= i < |at| ==> at[i] < b
  {
    hide At, CanRun;
    forall i | 0 <= i < |at| ensures at[i] < b {
      assert at[i] in at;
    }
  }

  // ----- A join that comes too late -----

  /** While a join holds the buffer lock and has not pushed, nobody changes the buffer, the reservations or
      the history. */
  lemma BufferIsExclusive(s: State, step: Step)
    requires CanStep(s, step) && !s.lock.Free? && step != Joining(Push)
    ensures
      var s' := Next(s, step);
      s'.buf == s.buf && s'.reservations == s.reservations && s'.admitted == s.admitted && s'.sealed == s.sealed
  {
    match step
    case Joining(_) =>
    case Flushing(f) => FlushLeavesBuffer(s, f);
    case Requesting(r) => RequestLeavesBuffer(s, r);
    case Outside(_) =>
  }

  lemma FlushLeavesBuffer(s: State, step: FlushStep)
    requires CanFlush(s, step) && !s.lock.Free?
    ensures
      var s' := NextFlush(s, step);
      s'.buf == s.buf && s'.reservations == s.reservations && s'.admitted == s.admitted && s'.sealed == s.sealed
  {
  }

  lemma RequestLeavesBuffer(s: State, step: RequestStep)
    requires CanRequest(s, step) && !s.lock.Free?
    ensures
      var s' := NextRequest(s, step);
      s'.buf == s.buf && s'.reservations == s.reservations && s'.admitted == s.admitted && s'.sealed == s.sealed
  {
  }

  lemma TakingTheLock(s: State, step: Step)
    requires CanStep(s, step) && IsLock(step)
    ensures
      var s' := Next(s, step);
      s'.buf == s.buf && s'.reservations == s.reservations && s'.admitted == s.admitted && s'.sealed == s.sealed
  {
  }

  /** A step that closes a scope, and a later one that joins for an owner with it: through its whole critical
      section the join is not past the admission check, the buffer with its permits, the reservations and the
      history are those before it, and the check is what ends it. */
  lemma {:induction false} LateJoinBuffersNothing(
      limits: BatchLimits, steps: seq<Step>, a: nat, b: nat, scope: Scope, k: nat)
    requires CanRun(Init(limits), steps) && a < b < k <= |steps|
    requires steps[a] == Joining(CloseScope(scope)) && IsLock(steps[b]) && scope in steps[b].join.owners
    requires forall j :: b < j < k ==> !At(limits, steps, j).lock.Free?
    ensures
      var s, s' := At(limits, steps, b), At(limits, steps, k);
      && s'.buf == s.buf && s'.reservations == s.reservations && s'.admitted == s.admitted && s'.sealed == s.sealed
      && (s'.lock == Entered(CallAt(steps, b)) || (s'.lock.Free? && steps[k - 1] == Joining(CheckAdmission)))
    decreases k
  {
    hide Next, CanStep, CanRun, After, At, FoundOpen, Ticks;
    StepAt(limits, steps, k - 1);
    var s := At(limits, steps, k - 1);
    LockStep(s, steps[k - 1]);
    if k == b + 1 {
      TakingTheLock(s, steps[b]);
      ClockIsTicks(limits, steps, b);
    } else {
      LateJoinBuffersNothing(limits, steps, a, b, scope, k - 1);
      BufferIsExclusive(s, steps[k - 1]);
      if steps[k - 1] == Joining(CheckAdmission) {
        assert ClosedBefore(steps, k - 1, scope);
        OwnersChecked(limits, steps, k - 1, s.lock.call.owners);
      }
    }
  }

  /** So no later history holds that join. */
  lemma LateJoinIsNeverAdmitted(limits: BatchLimits, steps: seq<Step>, a: nat, b: nat, scope: Scope)
    requires CanRun(Init(limits), steps) && a < b < |steps|
    requires steps[a] == Joining(CloseScope(scope)) && IsLock(steps[b]) && scope in steps[b].join.owners
    ensures forall join :: join in After(Init(limits), steps).admitted ==> join.lockedAt != Ticks(steps[..b])
    ensures forall join :: join in After(Init(limits), steps).admitted && scope in join.owners ==>
              join.lockedAt < Ticks(steps[..a])
  {
    var s := After(Init(limits), steps);
    Ends(limits, steps);
    EveryRunKeeps(limits, steps);
    var first := ClosedBySteps(limits, steps, |steps|, scope);
    assert ClosedBefore(steps, |steps|, scope);
    assert first <= a;
    TicksGrow(steps, first, a);
    hide *;
    AdmittedBeforeClose(s, scope);
    var at := JoinsAreSteps(limits, steps, |steps|);
    LateIsNoJoin(s, steps, at, a, b, scope);
  }

  lemma AdmittedBeforeClose(s: State, scope: Scope)
    requires Inv(s) && scope in s.closed
    ensures forall join :: join in s.admitted && scope in join.owners ==> join.lockedAt < s.closed[scope]
  {
    forall join | join in s.admitted && scope in join.owners ensures join.lockedAt < s.closed[scope] {
      var i :| 0 <= i < |s.admitted| && s.admitted[i] == join;
      assert BeforeCloses(s, s.admitted[i].owners, s.admitted[i].lockedAt);
    }
  }

  /** Lock steps have different times, so an admitted join of that time would be that step, and of that scope. */
  lemma LateIsNoJoin(s: State, steps: seq<Step>, at: seq<nat>, a: nat, b: nat, scope: Scope)
    requires AreSteps(s.admitted, steps, at) && a < b < |steps| && IsLock(steps[b]) && scope in steps[b].join.owners
    requires steps[a] == Joining(CloseScope(scope))
    requires forall join :: join in s.admitted && scope in join.owners ==> join.lockedAt < Ticks(steps[..a])
    ensures forall join :: join in s.admitted ==> join.lockedAt != Ticks(steps[..b])
  {
    hide Ticks;
    TicksGrow(steps, a, b);
    forall join | join in s.admitted ensures join.lockedAt != Ticks(steps[..b]) {
      var i :| 0 <= i < |s.admitted| && s.admitted[i] == join;
      if at[i] < b { TicksGrow(steps, at[i], b); } else if b < at[i] { TicksGrow(steps, b, at[i]); }
    }
  }
}
