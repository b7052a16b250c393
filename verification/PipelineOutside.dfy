/** Unspawned claims, permits and the driver keep the pipeline invariant. */
module PipelineOutside {
  import opened Options
  import opened Buffering
  import opened Pipeline
  import opened PipelineInvariant

  lemma TokenKept(s: State, step: OtherStep)
    requires TokenInv(s) && CanOther(s, step)
    ensures TokenInv(NextOther(s, step))
  {
  }

  lemma BatchKept(s: State, step: OtherStep)
    requires BatchInv(s) && CanOther(s, step)
    ensures BatchInv(NextOther(s, step))
  {
  }

  lemma HoldKept(s: State, step: OtherStep)
    requires HoldInv(s) && CanOther(s, step)
    ensures HoldInv(NextOther(s, step))
  {
  }

  lemma PermitKept(s: State, step: OtherStep)
    requires PermitInv(s) && CanOther(s, step)
    ensures PermitInv(NextOther(s, step))
  {
  }

  lemma ScopesUntouched(s: State, step: OtherStep)
    requires CanOther(s, step)
    ensures
      var s' := NextOther(s, step);
      s'.closed == s.closed && s'.clock == s.clock && s'.admitted == s.admitted && s'.lock == s.lock
  {
  }

  lemma ScopeKept(s: State, step: OtherStep)
    requires ScopeInv(s) && CanOther(s, step)
    ensures ScopeInv(NextOther(s, step))
  {
    ScopesUntouched(s, step);
    ScopeFrame(s, NextOther(s, step));
  }

  /** A claim without a runtime takes the open batch whole and excludes its joins. */
  lemma UnspawnedEffect(s: State, step: OtherStep)
    requires TokenInv(s) && CanOther(s, step)
    ensures
      var s' := NextOther(s, step);
      var claims := s'.unspawned != s.unspawned;
      && s'.admitted == s.admitted && s'.nextBatch == s.nextBatch && s'.service == s.service
      && s'.flusher == s.flusher && s'.barriers == s.barriers && Stopped(s') == Stopped(s)
      && (claims ==> step.ClaimUnspawned? && s.buf.open == Some(step.batch) && !Stopped(s))
      && (step.ClaimUnspawned? && s.buf.open == Some(step.batch) && !s.coord.writeFailed ==>
            s'.unspawned == s.unspawned + {step.batch} && s'.buf == AfterTake(s.buf) && s'.sealed == |s.admitted|)
      && (!(step.ClaimUnspawned? && s.buf.open == Some(step.batch) && !s.coord.writeFailed) ==>
            s'.sealed == s.sealed && s'.buf == s.buf && s'.unspawned == s.unspawned)
  {
  }

  lemma BufferKept(s: State, step: OtherStep)
    requires TokenInv(s) && BufferInv(s) && CanOther(s, step)
    ensures BufferInv(NextOther(s, step))
  {
    UnspawnedEffect(s, step);
    assert s.admitted[|s.admitted|..] == [];
  }

  lemma HistoryGrows(s: State, step: OtherStep)
    requires TokenInv(s) && BufferInv(s) && CanOther(s, step)
    ensures Grows(s, NextOther(s, step))
  {
    UnspawnedEffect(s, step);
  }

  lemma ClaimKept(s: State, step: OtherStep)
    requires TokenInv(s) && BufferInv(s) && ClaimInv(s) && CanOther(s, step)
    ensures NextOther(s, step).sealed <= |NextOther(s, step).admitted| && ClaimInv(NextOther(s, step))
  {
    UnspawnedEffect(s, step);
  }

  lemma OrderKept(s: State, step: OtherStep)
    requires TokenInv(s) && BufferInv(s) && OrderInv(s) && CanOther(s, step)
    ensures NextOther(s, step).sealed <= |NextOther(s, step).admitted| && OrderInv(NextOther(s, step))
  {
    var s' := NextOther(s, step);
    UnspawnedEffect(s, step);
    if s'.sealed != s.sealed || s'.unspawned != s.unspawned {
      LiveSplit(s.admitted, s.sealed, s'.unspawned);
      LiveFrame(s.admitted[..s.sealed], s.unspawned, s'.unspawned);
      LiveGone(s.admitted[s.sealed..], s'.unspawned);
      assert s.admitted[..|s.admitted|] == s.admitted;
    }
  }

  lemma ResultKept(s: State, step: OtherStep)
    requires TokenInv(s) && BufferInv(s) && BatchInv(s) && ResultInv(s) && CanOther(s, step)
    ensures ResultInv(NextOther(s, step))
  {
    var s' := NextOther(s, step);
    HistoryGrows(s, step);
    UnspawnedEffect(s, step);
    forall b | b in s.claimed && Recorded(s, b) ensures Recorded(s', b) {
      RecordedGrows(s, s', b);
    }
  }

  lemma Kept(s: State, step: OtherStep)
    requires Inv(s) && CanOther(s, step)
    ensures Inv(NextOther(s, step))
  {
    TokenKept(s, step); BufferKept(s, step); BatchKept(s, step); HoldKept(s, step);
    PermitKept(s, step); ScopeKept(s, step); ClaimKept(s, step);
    OrderKept(s, step); ResultKept(s, step);
    HistoryGrows(s, step);
    UnspawnedEffect(s, step);
    BarrierGrows(s, NextOther(s, step));
  }
}
