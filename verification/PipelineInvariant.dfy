/** What every step of the checkpoint write pipeline keeps. */
module PipelineInvariant {
  import opened Decimals
  import opened Options
  import opened Requests
  import opened Buffering
  import opened Pipeline

  // ----- Histories -----

  /** The updates of the joins in order, without the batches in gone. */
  function Live(joins: seq<Join>, gone: set<BatchId>): seq<TrackedUpdate> {
    if joins == [] then []
    else
      var last := joins[|joins| - 1];
      Live(joins[..|joins| - 1], gone) + (if last.batch in gone then [] else last.updates)
  }

  lemma {:induction false} LiveConcat(a: seq<Join>, b: seq<Join>, gone: set<BatchId>)
    ensures Live(a + b, gone) == Live(a, gone) + Live(b, gone)
  {
    if b == [] {
      assert a + b == a;
    } else {
      var init := b[..|b| - 1];
      LiveConcat(a, init, gone);
      assert (a + b)[..|a + b| - 1] == a + init;
    }
  }

  /** Batches that none of the joins belongs to do not matter. */
  lemma {:induction false} LiveFrame(joins: seq<Join>, gone: set<BatchId>, gone': set<BatchId>)
    requires forall i :: 0 <= i < |joins| ==> (joins[i].batch in gone <==> joins[i].batch in gone')
    ensures Live(joins, gone) == Live(joins, gone')
  {
    if joins != [] {
      LiveFrame(joins[..|joins| - 1], gone, gone');
    }
  }

  lemma {:induction false} LiveGone(joins: seq<Join>, gone: set<BatchId>)
    requires forall i :: 0 <= i < |joins| ==> joins[i].batch in gone
    ensures Live(joins, gone) == []
  {
    if joins != [] {
      LiveGone(joins[..|joins| - 1], gone);
    }
  }

  lemma LiveSplit(joins: seq<Join>, k: nat, gone: set<BatchId>)
    requires k <= |joins|
    ensures Live(joins, gone) == Live(joins[..k], gone) + Live(joins[k..], gone)
  {
    LiveConcat(joins[..k], joins[k..], gone);
    assert joins == joins[..k] + joins[k..];
  }

  /** Every update of the first k joins that is not of a batch in unspawned is recorded. */
  ghost predicate Covered(s: State, k: nat)
    requires k <= |s.admitted|
  {
    Live(s.admitted[..k], s.unspawned) <= s.service
  }

  // ----- The latches and the token -----

  ghost predicate TokenInv(s: State) {
    && (s.token.InFlight? || s.token.Failing? || s.token.Withdrawing? ==> !Latched(s))
    && (s.token.Dropping? && s.token.withdrawal ==> s.coord.withdrawn)
    && (s.token.Dropping? && !s.token.withdrawal ==> s.coord.writeFailed)
    && (!s.token.NoToken? ==> HolderWrites(s))
    && (s.flusher.Writing? && s.flusher.chunks == [] ==>
          (s.token.Failing? || s.token.Withdrawing? || s.token.Dropping?) && s.token.holder.Flush?)
    && (s.coord.writeFailed ==> s.coord.fatal)
    && (Stopped(s) ==> s.buf.open.None? && !s.lock.Permitted?)
  }

  // ----- The buffer against the history -----

  ghost predicate BufferInv(s: State) {
    && s.sealed <= |s.admitted|
    && s.buf.permits == |s.admitted| - s.sealed
    && s.buf.pending == Live(s.admitted[s.sealed..], {})
    && (s.buf.open.None? <==> s.sealed == |s.admitted|)
    && (s.buf.open.Some? ==> s.buf.open.value < s.nextBatch)
    && (forall i :: 0 <= i < |s.admitted| ==> s.admitted[i].batch < s.nextBatch)
    && (forall i :: s.sealed <= i < |s.admitted| ==> s.buf.open == Some(s.admitted[i].batch))
    && (forall i :: 0 <= i < s.sealed ==> s.buf.open != Some(s.admitted[i].batch))
  }

  // ----- Batches -----

  ghost predicate BatchInv(s: State) {
    && (s.buf.open.Some? ==>
      s.buf.open.value < s.nextBatch && s.buf.open.value !in s.claimed && s.buf.open.value !in s.lost)
    && (forall b :: b in s.claimed ==> b < s.nextBatch)
    && (forall b :: b in s.lost ==> b < s.nextBatch)
    && (forall b :: b in s.rejecting ==> b in s.unspawned)
    && (forall b :: b in s.unspawned ==> b in s.claimed && b !in s.lost)
    && (forall b :: b in s.published ==>
          && b in s.claimed && b !in s.lost && b !in s.rejecting
          && (s.published[b].NoRuntime? <==> b in s.unspawned))
    && (s.flusher.Writing? || s.flusher.Done? ==> s.flusher.batch in s.claimed && s.flusher.batch !in s.unspawned)
    && (s.flusher.Writing? ==> s.flusher.batch !in s.published && s.flusher.batch !in s.lost)
    && (s.flusher.Done? ==>
          && (s.flusher.published <==> s.flusher.batch in s.published)
          && (s.flusher.ok <==> s.flusher.batch !in s.lost))
  }

  // ----- Reservations -----

  ghost predicate HoldInv(s: State) {
    && s.buf.holds == |s.reservations| <= USIZE_MAX
    && (forall r :: r in s.reservations ==> r < s.nextReservation)
    && (forall r :: r in s.notifying ==> r < s.nextReservation)
    && s.reservations !! s.notifying
    && (s.flusher.Asleep? && !s.flusher.woken && s.buf.holds == 0 ==> s.notifying != {})
  }

  // ----- Permits -----

  function JoiningPermits(s: State): nat {
    if s.lock.Permitted? then 1 else 0
  }

  function FlusherPermits(s: State): nat {
    if s.flusher.Writing? || (s.flusher.Done? && !s.flusher.dropped) then s.flusher.permits else 0
  }

  ghost predicate PermitInv(s: State) {
    && s.coord.checkpoint == s.buf.permits + JoiningPermits(s) + FlusherPermits(s) + s.loose
    && s.coord.checkpoint + s.released == |s.admitted| + JoiningPermits(s)
    && (s.flusher.Writing? || s.flusher.Done? ==> s.flusher.permits > 0)
  }

  // ----- Scopes -----

  ghost predicate BeforeCloses(s: State, owners: seq<Scope>, lockedAt: nat) {
    forall scope :: scope in owners && scope in s.closed ==> lockedAt < s.closed[scope]
  }

  ghost predicate ScopeInv(s: State) {
    && (forall scope :: scope in s.closed ==> s.closed[scope] < s.clock)
    && (forall i :: 0 <= i < |s.admitted| ==> BeforeCloses(s, s.admitted[i].owners, s.admitted[i].lockedAt))
    && (forall i :: 0 <= i < |s.admitted| ==> s.admitted[i].lockedAt < s.clock)
    && (forall i, j :: 0 <= i < j < |s.admitted| ==> s.admitted[i].lockedAt < s.admitted[j].lockedAt)
    && (!s.lock.Free? ==>
          && s.lock.call.lockedAt < s.clock
          && (forall i :: 0 <= i < |s.admitted| ==> s.admitted[i].lockedAt < s.lock.call.lockedAt))
    && (s.lock.Passed? || s.lock.Permitted? ==> BeforeCloses(s, s.lock.call.owners, s.lock.call.lockedAt))
  }

  // ----- The order of writes -----

  /** The claimed batch is the joins lo to hi, and every later sealed join is of a batch
      that no flusher could be spawned for. */
  ghost predicate ClaimInv(s: State)
    requires s.sealed <= |s.admitted|
  {
    s.flusher.Writing? ==>
      && s.flusher.lo < s.flusher.hi <= s.sealed
      && (forall i :: 0 <= i < |s.admitted| ==>
            (s.admitted[i].batch == s.flusher.batch <==> s.flusher.lo <= i < s.flusher.hi))
      && (!Stopped(s) ==> forall i :: s.flusher.hi <= i < s.sealed ==> s.admitted[i].batch in s.unspawned)
  }

  /** The updates the flusher still has to send. */
  function Unsent(s: State): seq<TrackedUpdate> {
    if s.flusher.Writing? then Flatten(s.flusher.chunks) else []
  }

  /** Until the pipeline stops, recorded, unsent and pending are all that was admitted, in
      order. Afterwards the recorded updates are a prefix of it. */
  ghost predicate OrderInv(s: State)
    requires s.sealed <= |s.admitted|
  {
    if Stopped(s) then s.service <= Live(s.admitted, s.unspawned)
    else s.service + Unsent(s) == Live(s.admitted[..s.sealed], s.unspawned)
  }

  /** Every join of batch b is recorded in full. */
  ghost predicate Recorded(s: State, b: BatchId) {
    forall i :: 0 <= i < |s.admitted| && s.admitted[i].batch == b ==> i < s.sealed && Covered(s, i + 1)
  }

  ghost predicate ResultInv(s: State) {
    && (s.flusher.Done? && s.flusher.ok ==> Recorded(s, s.flusher.batch))
    && (forall b :: b in s.published && s.published[b].Written? ==> Recorded(s, b))
  }

  ghost predicate BarrierInv(s: State)
    requires s.sealed <= |s.admitted|
  {
    forall k :: k in s.barriers ==> k <= s.sealed && (Stopped(s) || Covered(s, k))
  }

  ghost predicate Inv(s: State) {
    && TokenInv(s) && BufferInv(s) && BatchInv(s) && HoldInv(s) && PermitInv(s) && ScopeInv(s)
    && ClaimInv(s) && OrderInv(s) && ResultInv(s) && BarrierInv(s)
  }

  /** ScopeInv speaks only of these parts of the state. */
  lemma ScopeFrame(s: State, s': State)
    requires ScopeInv(s)
    requires s'.closed == s.closed && s'.clock == s.clock && s'.admitted == s.admitted && s'.lock == s.lock
    ensures ScopeInv(s')
  {
  }

  // ----- What a step does to the history -----

  /** The sealed history is fixed, the record only grows, new joins are of unclaimed batches,
      and a stopped pipeline stays stopped. */
  ghost predicate Grows(s: State, s': State)
    requires s.sealed <= |s.admitted|
  {
    && s.sealed <= s'.sealed && s.admitted <= s'.admitted && s.service <= s'.service
    && (forall i :: 0 <= i < s.sealed ==> (s.admitted[i].batch in s.unspawned <==> s.admitted[i].batch in s'.unspawned))
    && (forall i :: |s.admitted| <= i < |s'.admitted| ==> s'.admitted[i].batch !in s.claimed)
    && (Stopped(s) ==> Stopped(s'))
  }

  lemma CoveredGrows(s: State, s': State, k: nat)
    requires s.sealed <= |s.admitted| && Grows(s, s') && k <= s.sealed && Covered(s, k)
    ensures Covered(s', k)
  {
    assert s'.admitted[..k] == s.admitted[..k];
    LiveFrame(s.admitted[..k], s.unspawned, s'.unspawned);
  }

  /** A claimed batch has all its joins, so what is recorded of it stays all of it. */
  lemma RecordedGrows(s: State, s': State, b: BatchId)
    requires s.sealed <= |s.admitted| && Grows(s, s')
    requires b in s.claimed && Recorded(s, b)
    ensures Recorded(s', b)
  {
    forall i | 0 <= i < |s'.admitted| && s'.admitted[i].batch == b
      ensures i < s'.sealed && Covered(s', i + 1)
    {
      assert i < |s.admitted| && s'.admitted[i] == s.admitted[i];
      CoveredGrows(s, s', i + 1);
    }
  }

  lemma BarrierGrows(s: State, s': State)
    requires s.sealed <= |s.admitted| && Grows(s, s') && BarrierInv(s)
    requires s'.sealed <= |s'.admitted| && s'.barriers == s.barriers
    ensures BarrierInv(s')
  {
    forall k | k in s'.barriers ensures k <= s'.sealed && (Stopped(s') || Covered(s', k)) {
      if !Stopped(s) { CoveredGrows(s, s', k); }
    }
  }

  /** The step publishes nothing and completes no batch. */
  ghost predicate SameResults(s: State, s': State) {
    && s'.published == s.published
    && (s'.flusher.Done? && s'.flusher.ok ==>
          s.flusher.Done? && s.flusher.ok && s'.flusher.batch == s.flusher.batch)
  }

  lemma ResultGrows(s: State, s': State)
    requires s.sealed <= |s.admitted| && Grows(s, s') && BatchInv(s) && ResultInv(s) && SameResults(s, s')
    ensures ResultInv(s')
  {
    forall b | b in s.claimed && Recorded(s, b) ensures Recorded(s', b) {
      RecordedGrows(s, s', b);
    }
  }
}
