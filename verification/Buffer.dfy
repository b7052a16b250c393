/** The coalescing buffer: joins, holds, claims and withdrawals under the buffer lock.

    Buffer is the value the lock protects. The functions on it are the atomic steps of
    the step system in module Pipeline. The class is the object itself, with the open
    batch as a reference, and each of its methods refines one of the functions.
 */
module Buffering {
  import opened Options
  import opened Decimals
  import opened Requests
  import opened Coordinator
  import A = Admission

  type BatchId = nat

  datatype Buffer = Buffer(pending: seq<TrackedUpdate>, permits: nat, open: Option<BatchId>, holds: nat)

  const EMPTY_BUFFER := Buffer([], 0, None, 0)

  /** What a flusher takes away from the buffer. */
  datatype Claim = Claim(batch: BatchId, updates: seq<TrackedUpdate>, permits: nat)

  function SaturatingInc(n: nat): nat {
    if n >= USIZE_MAX then n else n + 1
  }

  /** An admitted join; next names the batch it opens when none is open. */
  function AfterJoin(b: Buffer, updates: seq<TrackedUpdate>, reserve: bool, next: BatchId): Buffer {
    Buffer(
      b.pending + updates,
      b.permits + 1,
      if b.open.None? then Some(next) else b.open,
      if reserve then SaturatingInc(b.holds) else b.holds)
  }

  function AfterRelease(b: Buffer): Buffer {
    b.(holds := SaturatingDec(b.holds))
  }

  /** The buffer once its batch, updates and permits are taken. */
  function AfterTake(b: Buffer): Buffer {
    b.(pending := [], permits := 0, open := None)
  }

  /** take_target */
  function TakeTarget(b: Buffer, target: BatchId): Option<Claim> {
    if b.open == Some(target) then Some(Claim(target, b.pending, b.permits)) else None
  }

  /** take_open */
  function TakeOpen(b: Buffer): Option<Claim> {
    if b.open.Some? then Some(Claim(b.open.value, b.pending, b.permits)) else None
  }

  datatype BatchResult = Written | NoRuntime

  /** The rendezvous of one coalesced write. */
  class CheckpointBatch {
    ghost const id: BatchId
    var result: Option<BatchResult>
    var refreshId: Option<string>

    constructor (ghost id: BatchId)
      ensures this.id == id && result == None && refreshId == None
    {
      this.id := id;
      result, refreshId := None, None;
    }

    method Publish(r: BatchResult)
      modifies this`result
      ensures result == Some(r)
    {
      result := Some(r);
    }
  }

  class CheckpointCoalescer {
    var pending: seq<TrackedUpdate>
    var permits: nat
    var batch: CheckpointBatch?
    var holds: nat
    /** Every batch this coalescer opened, the one with id k at position k. */
    ghost var issued: seq<CheckpointBatch>

    ghost predicate Valid()
      reads this, issued
    {
      && (forall i {:trigger issued[i]} :: 0 <= i < |issued| ==> issued[i].id == i)
      && (batch != null ==> |issued| > 0 && batch == issued[|issued| - 1])
    }

    ghost function Contents(): Buffer
      reads this, batch
    {
      Buffer(pending, permits, if batch == null then None else Some(batch.id), holds)
    }

    constructor ()
      ensures Valid() && Contents() == EMPTY_BUFFER && issued == []
    {
      pending, permits, batch, holds, issued := [], 0, null, 0, [];
    }

    /** join_owned: the admission check, the permit and the push, in this order. A rejected
        join changes nothing; an admitted one takes one permit and is buffered behind every
        earlier join. The batch keeps the refresh ID of the first refresh that joined it. */
    method JoinOwned(
        admission: A.Admission, coordinator: InvocationCoordinator, owners: seq<A.Scope>,
        updates: seq<TrackedUpdate>, refreshId: Option<string>, reserve: bool)
      returns (joined: CheckpointBatch?, isNew: bool)
      requires Valid()
      modifies this, coordinator`state, if batch == null then {} else {batch}
      ensures Valid()
      ensures old(issued) <= issued
      ensures joined != null <==> A.Admits(admission.State(), owners) && Grants(old(coordinator.state), Checkpoint)
      ensures joined == null ==>
        && Contents() == old(Contents()) && batch == old(batch) && coordinator.state == old(coordinator.state)
        && (batch != null ==> batch.refreshId == old(if batch == null then None else batch.refreshId))
      ensures joined != null ==>
        && Contents() == AfterJoin(old(Contents()), updates, reserve, |old(issued)|)
        && coordinator.state == Granted(old(coordinator.state), Checkpoint)
        && joined == batch && isNew == (old(batch) == null)
        && joined.refreshId == (var first := old(if batch == null then None else batch.refreshId);
                                if first.Some? then first else refreshId)
      ensures joined != null && !isNew ==>
        joined == old(batch) && joined.result == old(if batch == null then None else batch.result)
      ensures joined != null && isNew ==> fresh(joined) && joined.result == None
    {
      joined, isNew := null, false;
      var admitted := admission.IsAdmitted(owners);
      if !admitted {
        return;
      }
      var granted := coordinator.Acquire(Checkpoint);
      if !granted {
        return;
      }
      pending := pending + updates;
      permits := permits + 1;
      if reserve {
        holds := SaturatingInc(holds);
      }
      isNew := batch == null;
      if isNew {
        batch := new CheckpointBatch(|issued|);
        issued := issued + [batch];
      }
      joined := batch;
      if refreshId.Some? && joined.refreshId.None? {
        joined.refreshId := refreshId;
      }
    }

    /** release_hold, up to the wakeup. */
    method ReleaseHold()
      requires Valid()
      modifies this`holds
      ensures Valid() && Contents() == AfterRelease(old(Contents()))
    {
      holds := SaturatingDec(holds);
    }

    /** Claims target's updates when it is still the open batch. Another batch is never
        taken in its place, because only the open batch has the open batch's identity. */
    method TakeTargetBatch(target: CheckpointBatch) returns (taken: bool, updates: seq<TrackedUpdate>, held: nat)
      requires Valid() && target in issued
      modifies this`pending, this`permits, this`batch
      ensures Valid()
      ensures
        var claim := TakeTarget(old(Contents()), target.id);
        && taken == claim.Some?
        && (taken ==> claim == Some(Claim(target.id, updates, held)) && Contents() == AfterTake(old(Contents())))
        && (!taken ==> Contents() == old(Contents()) && batch == old(batch))
    {
      assert batch != null && batch.id == target.id ==> batch == target;
      taken, updates, held := false, [], 0;
      if batch == target {
        taken, updates, held := true, pending, permits;
        batch, pending, permits := null, [], 0;
      }
    }

    /** One turn of take_batch_unheld under the buffer lock: it waits while a reservation
        holds the open batch. */
    method TryTakeBatchUnheld(target: CheckpointBatch)
      returns (waits: bool, taken: bool, updates: seq<TrackedUpdate>, held: nat)
      requires Valid() && target in issued
      modifies this`pending, this`permits, this`batch
      ensures Valid()
      ensures waits == (old(holds) > 0)
      ensures waits ==> !taken
      ensures
        var claim := TakeTarget(old(Contents()), target.id);
        && (!waits ==> taken == claim.Some?)
        && (taken ==> claim == Some(Claim(target.id, updates, held)) && Contents() == AfterTake(old(Contents())))
        && (!taken ==> Contents() == old(Contents()))
    {
      waits, taken, updates, held := holds > 0, false, [], 0;
      if !waits {
        taken, updates, held := TakeTargetBatch(target);
      }
    }

    /** One turn of take_any_unheld under the buffer lock. */
    method TryTakeAnyUnheld()
      returns (waits: bool, taken: CheckpointBatch?, updates: seq<TrackedUpdate>, held: nat)
      requires Valid()
      modifies this`pending, this`permits, this`batch
      ensures Valid()
      ensures waits == (old(holds) > 0)
      ensures waits ==> taken == null
      ensures
        var claim := TakeOpen(old(Contents()));
        && (!waits ==> (taken != null) == claim.Some?)
        && (taken != null ==>
              taken in issued && claim == Some(Claim(taken.id, updates, held))
              && Contents() == AfterTake(old(Contents())))
        && (taken == null ==> Contents() == old(Contents()))
    {
      waits, taken, updates, held := holds > 0, null, [], 0;
      if !waits && batch != null {
        taken, updates, held := batch, pending, permits;
        batch, pending, permits := null, [], 0;
      }
    }

    /** claim_unspawned: no wait for holds, and no claim once a checkpoint write failed. */
    method ClaimUnspawned(target: CheckpointBatch, coordinator: InvocationCoordinator)
      returns (taken: bool, updates: seq<TrackedUpdate>, held: nat)
      requires Valid() && target in issued
      modifies this`pending, this`permits, this`batch
      ensures Valid()
      ensures
        var claim := TakeTarget(old(Contents()), target.id);
        && taken == (claim.Some? && !coordinator.state.writeFailed)
        && (taken ==> claim == Some(Claim(target.id, updates, held)) && Contents() == AfterTake(old(Contents())))
        && (!taken ==> Contents() == old(Contents()))
    {
      taken, updates, held := false, [], 0;
      if coordinator.state.writeFailed {
        return;
      }
      taken, updates, held := TakeTargetBatch(target);
    }

    /** abandon_pending: drops the open batch unpublished; a hold stays counted. */
    method AbandonPending() returns (held: nat)
      requires Valid()
      modifies this`pending, this`permits, this`batch
      ensures Valid() && held == old(permits)
      ensures Contents() == AfterTake(old(Contents()))
    {
      held := permits;
      batch, pending, permits := null, [], 0;
    }
  }
}
