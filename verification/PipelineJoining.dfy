/** Contributors, scopes and reservations keep the pipeline invariant. */
module PipelineJoining {
  import opened Pipeline
  import opened PipelineInvariant

  lemma TokenKept(s: State, step: JoinStep)
    requires TokenInv(s) && CanJoin(s, step)
    ensures TokenInv(NextJoin(s, step))
  {
  }

  lemma BatchKept(s: State, step: JoinStep)
    requires BatchInv(s) && CanJoin(s, step)
    ensures BatchInv(NextJoin(s, step))
  {
  }

  /** A reserved push adds one reservation and one hold; releasing it takes both away and
      leaves a releaser that has yet to notify. */
  lemma HoldsCountReservations(s: State, step: JoinStep)
    requires HoldInv(s) && CanJoin(s, step) && (step.Push? || step.ReleaseHold?)
    ensures HoldInv(NextJoin(s, step))
  {
  }

  lemma HoldKept(s: State, step: JoinStep)
    requires HoldInv(s) && CanJoin(s, step)
    ensures HoldInv(NextJoin(s, step))
  {
    if step.Push? || step.ReleaseHold? { HoldsCountReservations(s, step); }
  }

  lemma PermitKept(s: State, step: JoinStep)
    requires PermitInv(s) && CanJoin(s, step)
    ensures PermitInv(NextJoin(s, step))
  {
  }

  /** A close is stamped later than every join so far, and a join that took the lock before it
      stays before it. */
  lemma CloseKeepsScopes(s: State, scope: Scope)
    requires ScopeInv(s)
    ensures ScopeInv(AfterCloseScope(s, scope))
  {
  }

  lemma LockKeepsScopes(s: State, step: JoinStep)
    requires ScopeInv(s) && CanJoin(s, step) && (step.BufferLock? || step.CheckAdmission? || step.AcquirePermit?)
    ensures ScopeInv(NextJoin(s, step))
  {
  }

  lemma PushKeepsScopes(s: State)
    requires ScopeInv(s) && CanJoin(s, Push)
    ensures ScopeInv(NextJoin(s, Push))
  {
  }

  lemma ScopeKept(s: State, step: JoinStep)
    requires ScopeInv(s) && CanJoin(s, step)
    ensures ScopeInv(NextJoin(s, step))
  {
    match step
    case CloseScope(scope) => CloseKeepsScopes(s, scope);
    case BufferLock(_, _, _) | CheckAdmission | AcquirePermit => LockKeepsScopes(s, step);
    case Push => PushKeepsScopes(s);
    case ReleaseHold(_) | Notify(_) => ScopeFrame(s, NextJoin(s, step));
  }

  lemma PushExtendsPending(s: State)
    requires BufferInv(s) && CanJoin(s, Push)
    ensures BufferInv(NextJoin(s, Push))
  {
    var s' := NextJoin(s, Push);
    var joins := s'.admitted[s'.sealed..];
    assert joins[..|joins| - 1] == s.admitted[s.sealed..];
  }

  lemma BufferKept(s: State, step: JoinStep)
    requires BufferInv(s) && CanJoin(s, step)
    ensures BufferInv(NextJoin(s, step))
  {
    if step.Push? { PushExtendsPending(s); }
  }

  /** Only the push adds to the history, and nothing here seals or records. */
  lemma PushGrows(s: State)
    requires TokenInv(s) && BufferInv(s) && BatchInv(s) && CanJoin(s, Push)
    ensures
      var s' := NextJoin(s, Push);
      && Grows(s, s') && SameResults(s, s') && s'.barriers == s.barriers
      && s'.sealed == s.sealed && s'.service == s.service && s'.unspawned == s.unspawned
      && Unsent(s') == Unsent(s) && Stopped(s') == Stopped(s)
      && (Stopped(s) ==> s'.admitted == s.admitted)
  {
  }

  lemma OthersGrow(s: State, step: JoinStep)
    requires TokenInv(s) && BufferInv(s) && BatchInv(s) && CanJoin(s, step) && !step.Push?
    ensures
      var s' := NextJoin(s, step);
      && Grows(s, s') && SameResults(s, s') && s'.barriers == s.barriers
      && s'.sealed == s.sealed && s'.service == s.service && s'.unspawned == s.unspawned
      && Unsent(s') == Unsent(s) && Stopped(s') == Stopped(s)
      && (Stopped(s) ==> s'.admitted == s.admitted)
  {
  }

  lemma HistoryGrows(s: State, step: JoinStep)
    requires TokenInv(s) && BufferInv(s) && BatchInv(s) && CanJoin(s, step)
    ensures
      var s' := NextJoin(s, step);
      && Grows(s, s') && SameResults(s, s') && s'.barriers == s.barriers
      && s'.sealed == s.sealed && s'.service == s.service && s'.unspawned == s.unspawned
      && Unsent(s') == Unsent(s) && Stopped(s') == Stopped(s)
      && (Stopped(s) ==> s'.admitted == s.admitted)
  {
    hide *;
    if step == Push { PushGrows(s); } else { OthersGrow(s, step); }
  }

  lemma ClaimKept(s: State, step: JoinStep)
    requires BufferInv(s) && BatchInv(s) && ClaimInv(s) && CanJoin(s, step)
    ensures NextJoin(s, step).sealed <= |NextJoin(s, step).admitted| && ClaimInv(NextJoin(s, step))
  {
    if step.Push? { PushKeepsClaim(s); } else { SameClaim(s, step); }
  }

  lemma PushKeepsClaim(s: State)
    requires BufferInv(s) && BatchInv(s) && ClaimInv(s) && CanJoin(s, Push)
    ensures NextJoin(s, Push).sealed <= |NextJoin(s, Push).admitted| && ClaimInv(NextJoin(s, Push))
  {
  }

  lemma SameClaim(s: State, step: JoinStep)
    requires s.sealed <= |s.admitted| && ClaimInv(s) && CanJoin(s, step) && !step.Push?
    ensures NextJoin(s, step).sealed <= |NextJoin(s, step).admitted| && ClaimInv(NextJoin(s, step))
  {
  }

  lemma Kept(s: State, step: JoinStep)
    requires Inv(s) && CanJoin(s, step)
    ensures Inv(NextJoin(s, step))
  {
    var s' := NextJoin(s, step);
    TokenKept(s, step); BufferKept(s, step); BatchKept(s, step); HoldKept(s, step);
    PermitKept(s, step); ScopeKept(s, step); ClaimKept(s, step);
    HistoryGrows(s, step);
    assert s'.admitted[..s.sealed] == s.admitted[..s.sealed];
    ResultGrows(s, s');
    BarrierGrows(s, s');
  }
}
