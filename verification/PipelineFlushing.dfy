/** The flusher's steps around its requests keep the pipeline invariant. */
module PipelineFlushing {
  import opened Options
  import opened Requests
  import opened Buffering
  import opened Pipeline
  import opened PipelineInvariant

  lemma TokenKept(s: State, step: FlushStep)
    requires TokenInv(s) && CanFlush(s, step)
    ensures TokenInv(NextFlush(s, step))
  {
    SplitEmpty(s.buf.pending, s.limits);
  }

  lemma BatchKept(s: State, step: FlushStep)
    requires BatchInv(s) && CanFlush(s, step)
    ensures BatchInv(NextFlush(s, step))
  {
  }

  lemma HoldKept(s: State, step: FlushStep)
    requires HoldInv(s) && CanFlush(s, step)
    ensures HoldInv(NextFlush(s, step))
  {
  }

  lemma PermitKept(s: State, step: FlushStep)
    requires BufferInv(s) && PermitInv(s) && CanFlush(s, step)
    ensures PermitInv(NextFlush(s, step))
  {
  }

  lemma ScopesUntouched(s: State, step: FlushStep)
    requires CanFlush(s, step)
    ensures
      var s' := NextFlush(s, step);
      s'.closed == s.closed && s'.clock == s.clock && s'.admitted == s.admitted && s'.lock == s.lock
  {
  }

  lemma ScopeKept(s: State, step: FlushStep)
    requires ScopeInv(s) && CanFlush(s, step)
    ensures ScopeInv(NextFlush(s, step))
  {
    ScopesUntouched(s, step);
    ScopeFrame(s, NextFlush(s, step));
  }

  /** Only CheckHolds touches the buffer, and only by claiming all of it for one batch. */
  lemma ClaimEffect(s: State, step: FlushStep)
    requires TokenInv(s) && CanFlush(s, step)
    ensures
      var s' := NextFlush(s, step);
      var claims := step.CheckHolds? && s'.flusher.Writing?;
      && s'.service == s.service && s'.admitted == s.admitted && s'.unspawned == s.unspawned
      && s'.nextBatch == s.nextBatch && Stopped(s') == Stopped(s)
      && (claims ==>
            && s.buf.open == Some(s'.flusher.batch) && s'.buf == AfterTake(s.buf) && s'.sealed == |s.admitted|
            && s'.flusher.lo == s.sealed && s'.flusher.hi == |s.admitted|
            && s'.flusher.chunks == ChunksOf(s.buf.pending, s.limits) && !Stopped(s))
      && (!claims ==> s'.sealed == s.sealed && s'.buf == s.buf && !s'.flusher.Writing?)
  {
  }

  lemma BufferKept(s: State, step: FlushStep)
    requires TokenInv(s) && BufferInv(s) && CanFlush(s, step)
    ensures BufferInv(NextFlush(s, step))
  {
    ClaimEffect(s, step);
    assert s.admitted[|s.admitted|..] == [];
  }

  lemma HistoryGrows(s: State, step: FlushStep)
    requires TokenInv(s) && BufferInv(s) && CanFlush(s, step)
    ensures Grows(s, NextFlush(s, step))
  {
    ClaimEffect(s, step);
  }

  lemma ClaimKept(s: State, step: FlushStep)
    requires TokenInv(s) && BufferInv(s) && ClaimInv(s) && CanFlush(s, step)
    ensures NextFlush(s, step).sealed <= |NextFlush(s, step).admitted| && ClaimInv(NextFlush(s, step))
  {
    ClaimEffect(s, step);
  }

  /** The pending updates are all the live ones beyond the sealed history. */
  lemma PendingIsLive(s: State)
    requires BufferInv(s) && BatchInv(s)
    ensures Live(s.admitted, s.unspawned) == Live(s.admitted[..s.sealed], s.unspawned) + s.buf.pending
  {
    LiveSplit(s.admitted, s.sealed, s.unspawned);
    LiveFrame(s.admitted[s.sealed..], {}, s.unspawned);
  }

  lemma ChunksHoldAll(updates: seq<TrackedUpdate>, limits: BatchLimits)
    ensures Flatten(ChunksOf(updates, limits)) == updates
  {
    SplitEmpty(updates, limits);
    assert Flatten([[]]) == [];
  }

  /** Claiming the open batch moves its updates from pending to unsent. */
  lemma OrderKept(s: State, step: FlushStep)
    requires TokenInv(s) && s.sealed <= |s.admitted| && OrderInv(s) && CanFlush(s, step)
    requires Live(s.admitted, s.unspawned) == Live(s.admitted[..s.sealed], s.unspawned) + s.buf.pending
    ensures NextFlush(s, step).sealed <= |NextFlush(s, step).admitted| && OrderInv(NextFlush(s, step))
  {
    ClaimEffect(s, step);
    ChunksHoldAll(s.buf.pending, s.limits);
    assert s.admitted[..|s.admitted|] == s.admitted;
    assert !s.flusher.Writing?;
  }

  /** Publishing gives a batch its result only once the batch is recorded in full. */
  lemma ResultKept(s: State, step: FlushStep)
    requires TokenInv(s) && BufferInv(s) && BatchInv(s) && ResultInv(s) && CanFlush(s, step)
    ensures ResultInv(NextFlush(s, step))
  {
    var s' := NextFlush(s, step);
    HistoryGrows(s, step);
    forall b | b in s.claimed && Recorded(s, b) ensures Recorded(s', b) {
      RecordedGrows(s, s', b);
    }
    PublishEffect(s, step);
  }

  lemma PublishEffect(s: State, step: FlushStep)
    requires CanFlush(s, step)
    ensures
      var s' := NextFlush(s, step);
      && (forall b :: b in s'.published && b !in s.published ==>
            step.PublishBatch? && b == s.flusher.batch && s.flusher.Done? && s.flusher.ok)
      && (forall b :: b in s'.published && b in s.published && s'.published[b] != s.published[b] ==>
            step.PublishBatch? && b == s.flusher.batch && s.flusher.Done? && s.flusher.ok)
      && (s'.flusher.Done? ==> s.flusher.Done? && s.flusher.ok == s'.flusher.ok && s.flusher.batch == s'.flusher.batch)
  {
  }

  /** A flush point that finds no open batch has everything before it behind it. */
  lemma BarrierKept(s: State, step: FlushStep)
    requires TokenInv(s) && BufferInv(s) && OrderInv(s) && BarrierInv(s) && CanFlush(s, step)
    ensures NextFlush(s, step).sealed <= |NextFlush(s, step).admitted| && BarrierInv(NextFlush(s, step))
  {
    var s' := NextFlush(s, step);
    HistoryGrows(s, step);
    ClaimEffect(s, step);
    if s'.barriers == s.barriers {
      BarrierGrows(s, s');
    } else {
      assert s'.barriers == s.barriers + [|s.admitted|] && s.buf.open.None?;
      assert s.admitted[..|s.admitted|] == s.admitted[..s.sealed];
      forall k | k in s'.barriers ensures k <= s'.sealed && (Stopped(s') || Covered(s', k)) {
        if k in s.barriers && !Stopped(s) { CoveredGrows(s, s', k); }
      }
    }
  }

  lemma Kept(s: State, step: FlushStep)
    requires Inv(s) && CanFlush(s, step)
    ensures Inv(NextFlush(s, step))
  {
    TokenKept(s, step); BufferKept(s, step); BatchKept(s, step); HoldKept(s, step);
    PermitKept(s, step); ScopeKept(s, step); ClaimKept(s, step);
    PendingIsLive(s);
    OrderKept(s, step); ResultKept(s, step); BarrierKept(s, step);
  }
}
