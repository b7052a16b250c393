/** The steps under the checkpoint-token lock keep the pipeline invariant. */
module PipelineRequesting {
  import opened Requests
  import opened Buffering
  import opened Pipeline
  import opened PipelineInvariant

  lemma TokenKept(s: State, step: RequestStep)
    requires TokenInv(s) && CanRequest(s, step)
    ensures TokenInv(NextRequest(s, step))
  {
  }

  lemma BatchKept(s: State, step: RequestStep)
    requires BatchInv(s) && CanRequest(s, step)
    ensures BatchInv(NextRequest(s, step))
  {
  }

  lemma HoldKept(s: State, step: RequestStep)
    requires HoldInv(s) && CanRequest(s, step)
    ensures HoldInv(NextRequest(s, step))
  {
  }

  lemma PermitKept(s: State, step: RequestStep)
    requires PermitInv(s) && CanRequest(s, step)
    ensures PermitInv(NextRequest(s, step))
  {
  }

  lemma ScopesUntouched(s: State, step: RequestStep)
    requires CanRequest(s, step)
    ensures
      var s' := NextRequest(s, step);
      s'.closed == s.closed && s'.clock == s.clock && s'.admitted == s.admitted && s'.lock == s.lock
  {
  }

  lemma ScopeKept(s: State, step: RequestStep)
    requires ScopeInv(s) && CanRequest(s, step)
    ensures ScopeInv(NextRequest(s, step))
  {
    ScopesUntouched(s, step);
    ScopeFrame(s, NextRequest(s, step));
  }

  /** A failure or a withdrawal drops the open batch whole; no other step here meets the buffer. */
  lemma DropEffect(s: State, step: RequestStep)
    requires TokenInv(s) && CanRequest(s, step)
    ensures
      var s' := NextRequest(s, step);
      && s'.admitted == s.admitted && s'.unspawned == s.unspawned && s'.nextBatch == s.nextBatch
      && s'.barriers == s.barriers && s'.published == s.published
      && (step.DropOpenBatch? ==> s'.sealed == |s.admitted| && s'.buf == AfterTake(s.buf) && Stopped(s') && !Stopped(s))
      && (!step.DropOpenBatch? ==> s'.sealed == s.sealed && s'.buf == s.buf && Stopped(s') == Stopped(s))
      && (!step.Respond? ==> s'.service == s.service)
      && (s'.flusher.Writing? ==>
            s.flusher.Writing? && s'.flusher.batch == s.flusher.batch
            && s'.flusher.lo == s.flusher.lo && s'.flusher.hi == s.flusher.hi)
  {
  }

  lemma BufferKept(s: State, step: RequestStep)
    requires TokenInv(s) && BufferInv(s) && CanRequest(s, step)
    ensures BufferInv(NextRequest(s, step))
  {
    DropEffect(s, step);
    assert s.admitted[|s.admitted|..] == [];
  }

  lemma ClaimKept(s: State, step: RequestStep)
    requires TokenInv(s) && BufferInv(s) && ClaimInv(s) && CanRequest(s, step)
    ensures NextRequest(s, step).sealed <= |NextRequest(s, step).admitted| && ClaimInv(NextRequest(s, step))
  {
    DropEffect(s, step);
  }

  /** What one answer moves from unsent to recorded: the sent chunk, or nothing. */
  lemma ResponseEffect(s: State, response: Response)
    requires CanRequest(s, Respond(response))
    ensures
      var s' := NextRequest(s, Respond(response));
      && s.service <= s'.service && s'.service + Unsent(s') == s.service + Unsent(s)
      && (s'.flusher.Done? && !s.flusher.Done? ==> Unsent(s') == [] && response.Accepted? && s.token.holder.Flush?)
  {
    if s.token.holder.Flush? {
      var chunks := s.flusher.chunks;
      assert Flatten(chunks) == chunks[0] + Flatten(chunks[1..]);
    }
  }

  lemma HistoryGrows(s: State, step: RequestStep)
    requires TokenInv(s) && BufferInv(s) && CanRequest(s, step)
    ensures Grows(s, NextRequest(s, step))
  {
    DropEffect(s, step);
    if step.Respond? { ResponseEffect(s, step.response); }
  }

  lemma DropLeavesPrefix(s: State)
    requires TokenInv(s) && s.sealed <= |s.admitted| && OrderInv(s) && CanRequest(s, DropOpenBatch)
    ensures NextRequest(s, DropOpenBatch).service <= Live(s.admitted, s.unspawned)
  {
    DropEffect(s, DropOpenBatch);
    LiveSplit(s.admitted, s.sealed, s.unspawned);
  }

  lemma OrderKept(s: State, step: RequestStep)
    requires TokenInv(s) && s.sealed <= |s.admitted| && OrderInv(s) && CanRequest(s, step)
    ensures NextRequest(s, step).sealed <= |NextRequest(s, step).admitted| && OrderInv(NextRequest(s, step))
  {
    DropEffect(s, step);
    if step.DropOpenBatch? {
      DropLeavesPrefix(s);
    } else if step.Respond? {
      ResponseEffect(s, step.response);
    } else {
      LatchEffect(s, step);
    }
  }

  lemma LatchEffect(s: State, step: RequestStep)
    requires TokenInv(s) && CanRequest(s, step) && (step.TakeToken? || step.Send? || step.SetLatch?)
    ensures !Stopped(s) ==> Unsent(NextRequest(s, step)) == Unsent(s)
  {
  }

  /** The last response of a batch completes its record. */
  lemma LastResponseRecords(s: State)
    requires Inv(s) && CanRequest(s, Respond(Accepted)) && s.token.holder.Flush?
    requires NextRequest(s, Respond(Accepted)).flusher.Done?
    ensures Recorded(NextRequest(s, Respond(Accepted)), s.flusher.batch)
  {
    var s' := NextRequest(s, Respond(Accepted));
    DropEffect(s, Respond(Accepted));
    ResponseEffect(s, Accepted);
    assert s'.service == Live(s.admitted[..s.sealed], s.unspawned);
    forall i | 0 <= i < |s'.admitted| && s'.admitted[i].batch == s.flusher.batch
      ensures i < s'.sealed && Covered(s', i + 1)
    {
      LiveSplit(s.admitted[..s.sealed], i + 1, s.unspawned);
      assert s.admitted[..s.sealed][..i + 1] == s.admitted[..i + 1];
    }
  }

  lemma ResultKept(s: State, step: RequestStep)
    requires Inv(s) && CanRequest(s, step)
    ensures ResultInv(NextRequest(s, step))
  {
    var s' := NextRequest(s, step);
    HistoryGrows(s, step);
    DropEffect(s, step);
    forall b | b in s.claimed && Recorded(s, b) ensures Recorded(s', b) {
      RecordedGrows(s, s', b);
    }
    if step.Respond? && s.token.holder.Flush? && s'.flusher.Done? {
      LastResponseRecords(s);
    }
  }

  lemma Kept(s: State, step: RequestStep)
    requires Inv(s) && CanRequest(s, step)
    ensures Inv(NextRequest(s, step))
  {
    TokenKept(s, step); BufferKept(s, step); BatchKept(s, step); HoldKept(s, step);
    PermitKept(s, step); ScopeKept(s, step); ClaimKept(s, step);
    OrderKept(s, step); ResultKept(s, step);
    HistoryGrows(s, step);
    DropEffect(s, step);
    BarrierGrows(s, NextRequest(s, step));
  }
}
