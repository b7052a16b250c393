/** The checkpoint write pipeline of one invocation as a step system.

    One step is one atomic action of one task: a critical section of the buffer lock,
    the admission lock, the coordinator lock or the checkpoint-token lock, or one side
    of a request. A join is four steps, because the buffer lock is held across the
    admission check, the permit and the push, and a scope close or a latch can fall
    between them. Any enabled step may be taken at any time, so a run is any
    interleaving of any number of contributors, flushers and direct writers.
 */
module Pipeline {
  import opened Decimals
  import opened Options
  import opened Requests
  import opened Coordinator
  import opened Buffering
  import A = Admission

  type Scope = A.Scope

  /** A join in progress, with the time it took the buffer lock. */
  datatype JoinCall = JoinCall(owners: seq<Scope>, updates: seq<TrackedUpdate>, reserve: bool, lockedAt: nat)

  /** The buffer lock, and how far the join that holds it has come. */
  datatype Lock = Free | Entered(call: JoinCall) | Passed(call: JoinCall) | Permitted(call: JoinCall)

  /** An admitted join, in the history of the run. */
  datatype Join = Join(batch: BatchId, updates: seq<TrackedUpdate>, owners: seq<Scope>, lockedAt: nat)

  /** What a flusher wants: the batch it was spawned for, or, at a flush point, any. */
  datatype Target = Only(batch: BatchId) | Any

  /** The task that holds the writer lock.
      lo and hi delimit the joins of the claimed batch in the admitted history. */
  datatype Flusher =
    | NoFlusher
    | Looping(target: Target)
    | Enabled(target: Target, woken: bool)
    | Asleep(target: Target, woken: bool)
    | Writing(target: Target, batch: BatchId, lo: nat, hi: nat, chunks: seq<Chunk>, permits: nat)
    | Done(target: Target, batch: BatchId, permits: nat, ok: bool, dropped: bool, published: bool)

  /** The writers that contend for the checkpoint token: the flusher that holds the writer
      lock, or a write outside the buffer. */
  datatype Holder = Flush | Direct

  datatype Token =
    | NoToken
    | Held(holder: Holder)
    | InFlight(holder: Holder)
    | Failing(holder: Holder)
    | Withdrawing(holder: Holder)
    | Dropping(holder: Holder, withdrawal: bool)

  /** The service's answer: accepted; accepted without a token; accepted, but the state read
      that follows failed; or an error, after which the request may or may not be recorded. */
  datatype Response = Accepted | Tokenless | Unread | Refused(recorded: bool)

  datatype State = State(
    limits: BatchLimits,
    coord: Coord,
    closed: map<Scope, nat>,
    clock: nat,
    buf: Buffer,
    lock: Lock,
    nextBatch: BatchId,
    reservations: set<nat>,
    nextReservation: nat,
    notifying: set<nat>,
    flusher: Flusher,
    token: Token,
    loose: nat,
    rejecting: set<BatchId>,
    published: map<BatchId, BatchResult>,
    // What the service recorded of the buffered updates, and every request sent.
    service: seq<TrackedUpdate>,
    requests: seq<Chunk>,
    // History.
    admitted: seq<Join>,
    sealed: nat,
    claimed: set<BatchId>,
    unspawned: set<BatchId>,
    lost: set<BatchId>,
    barriers: seq<nat>,
    released: nat)

  /** Steps of contributors, scopes and reservations. */
  datatype JoinStep =
    | CloseScope(scope: Scope)
    | BufferLock(owners: seq<Scope>, updates: seq<TrackedUpdate>, reserve: bool)
    | CheckAdmission
    | AcquirePermit
    | Push
    | ReleaseHold(reservation: nat)
    | Notify(reservation: nat)

  /** Steps of the flusher around its requests. */
  datatype FlushStep =
    | TakeWriter(target: Target)
    | EnableWaiter
    | CheckHolds
    | Wake
    | PublishBatch
    | DropPermits
    | EndFlush

  /** Steps under the checkpoint-token lock, of the flusher or of a direct writer. */
  datatype RequestStep =
    | TakeToken(holder: Holder)
    | Send
    | Respond(response: Response)
    | SetLatch
    | DropOpenBatch

  /** Steps of a contributor without a runtime, of dropped permits and of the driver. */
  datatype OtherStep =
    | ClaimUnspawned(batch: BatchId)
    | PublishNoRuntime(batch: BatchId)
    | ReleasePermit
    | Environment(activity: nat, scheduler: nat, waits: nat, fatal: bool, panic: bool)
    | EndDrive

  datatype Step =
    | Joining(join: JoinStep)
    | Flushing(flush: FlushStep)
    | Requesting(request: RequestStep)
    | Outside(other: OtherStep)

  function Init(limits: BatchLimits): State {
    State(limits, NEW_COORD, map[], 0, EMPTY_BUFFER, Free, 0, {}, 0, {}, NoFlusher, NoToken, 0, {}, map[],
          [], [], [], 0, {}, {}, {}, [], 0)
  }

  predicate Latched(s: State) {
    s.coord.writeFailed || s.coord.withdrawn
  }

  /** A write failed or the token was withdrawn, and the open batch is already dropped. */
  predicate Stopped(s: State) {
    Latched(s) && !s.token.Dropping?
  }

  /** The requests of a claimed batch: one empty request for a batch of refreshes alone. */
  function ChunksOf(updates: seq<TrackedUpdate>, limits: BatchLimits): seq<Chunk> {
    if updates == [] then [[]] else Split(updates, limits)
  }

  function ClaimFor(s: State, target: Target): Option<Claim> {
    if target.Only? then TakeTarget(s.buf, target.batch) else TakeOpen(s.buf)
  }

  /** A flusher that uses the checkpoint token is writing its batch. In a reachable state this
      holds whenever the token is taken; see TokenInv. */
  predicate HolderWrites(s: State)
    requires !s.token.NoToken?
  {
    s.token.holder.Flush? ==> s.flusher.Writing? && (s.token.Held? || s.token.InFlight? ==> s.flusher.chunks != [])
  }

  // ----- When a step can be taken -----

  predicate CanJoin(s: State, step: JoinStep) {
    match step
    case CloseScope(_) => true
    case BufferLock(_, _, _) => s.lock.Free?
    case CheckAdmission => s.lock.Entered?
    case AcquirePermit => s.lock.Passed?
    // Every live reservation is an object in memory, so there are fewer than usize::MAX before another.
    case Push => s.lock.Permitted? && (s.lock.call.reserve ==> |s.reservations| < USIZE_MAX)
    case ReleaseHold(r) => s.lock.Free? && r in s.reservations
    case Notify(r) => r in s.notifying
  }

  predicate CanFlush(s: State, step: FlushStep) {
    match step
    case TakeWriter(target) => s.flusher.NoFlusher? && (target.Only? ==> target.batch < s.nextBatch)
    case EnableWaiter => s.flusher.Looping?
    case CheckHolds => s.flusher.Enabled? && s.lock.Free?
    case Wake => s.flusher.Asleep? && s.flusher.woken
    case PublishBatch =>
      s.flusher.Done? && s.flusher.ok && !s.flusher.published && (s.flusher.target.Any? ==> s.flusher.dropped)
    case DropPermits =>
      s.flusher.Done? && !s.flusher.dropped && (s.flusher.ok && s.flusher.target.Only? ==> s.flusher.published)
    case EndFlush => s.flusher.Done? && s.flusher.dropped && (s.flusher.ok ==> s.flusher.published)
  }

  predicate CanRequest(s: State, step: RequestStep) {
    match step
    case TakeToken(holder) => s.token.NoToken? && (holder.Flush? ==> s.flusher.Writing?)
    case Send => s.token.Held? && HolderWrites(s)
    case Respond(_) => s.token.InFlight? && HolderWrites(s)
    case SetLatch => s.token.Failing? || s.token.Withdrawing?
    case DropOpenBatch => s.token.Dropping? && HolderWrites(s) && s.lock.Free?
  }

  predicate CanOther(s: State, step: OtherStep) {
    match step
    case ClaimUnspawned(b) => s.lock.Free? && b < s.nextBatch
    case PublishNoRuntime(b) => b in s.rejecting
    case ReleasePermit => s.loose > 0
    case Environment(_, _, _, _, _) => true
    case EndDrive => true
  }

  predicate CanStep(s: State, step: Step) {
    match step
    case Joining(j) => CanJoin(s, j)
    case Flushing(f) => CanFlush(s, f)
    case Requesting(r) => CanRequest(s, r)
    case Outside(o) => CanOther(s, o)
  }

  // ----- The steps -----

  function AfterCloseScope(s: State, scope: Scope): State {
    s.(closed := if scope in s.closed then s.closed else s.closed[scope := s.clock], clock := s.clock + 1)
  }

  function AfterBufferLock(s: State, owners: seq<Scope>, updates: seq<TrackedUpdate>, reserve: bool): State {
    s.(lock := Entered(JoinCall(owners, updates, reserve, s.clock)), clock := s.clock + 1)
  }

  function AfterCheckAdmission(s: State): State
    requires s.lock.Entered?
  {
    s.(lock := if A.ClosedOwner(s.lock.call.owners, s.closed.Keys) then Free else Passed(s.lock.call))
  }

  function AfterAcquirePermit(s: State): State
    requires s.lock.Passed?
  {
    if Grants(s.coord, Checkpoint) then
      s.(coord := Granted(s.coord, Checkpoint), lock := Permitted(s.lock.call))
    else s.(lock := Free)
  }

  function AfterPush(s: State): State
    requires s.lock.Permitted?
  {
    var call := s.lock.call;
    var batch := if s.buf.open.Some? then s.buf.open.value else s.nextBatch;
    s.(buf := AfterJoin(s.buf, call.updates, call.reserve, s.nextBatch),
       lock := Free,
       nextBatch := if s.buf.open.Some? then s.nextBatch else s.nextBatch + 1,
       reservations := if call.reserve then s.reservations + {s.nextReservation} else s.reservations,
       nextReservation := s.nextReservation + 1,
       admitted := s.admitted + [Join(batch, call.updates, call.owners, call.lockedAt)])
  }

  function AfterReleaseHold(s: State, r: nat): State {
    s.(buf := AfterRelease(s.buf), reservations := s.reservations - {r}, notifying := s.notifying + {r})
  }

  /** notify_waiters wakes every waiter enabled by now. */
  function AfterNotify(s: State, r: nat): State {
    s.(notifying := s.notifying - {r},
       flusher := if s.flusher.Enabled? || s.flusher.Asleep? then s.flusher.(woken := true) else s.flusher)
  }

  /** One turn of when_unheld under the buffer lock. */
  function AfterCheckHolds(s: State): State
    requires s.flusher.Enabled?
  {
    var target := s.flusher.target;
    if s.buf.holds != 0 then s.(flusher := Asleep(target, s.flusher.woken))
    else
      var claim := ClaimFor(s, target);
      if claim.Some? then
        s.(flusher := Writing(target, claim.value.batch, s.sealed, |s.admitted|,
                              ChunksOf(claim.value.updates, s.limits), claim.value.permits),
           buf := AfterTake(s.buf),
           claimed := s.claimed + {claim.value.batch},
           sealed := |s.admitted|)
      else if target.Any? then s.(flusher := NoFlusher, barriers := s.barriers + [|s.admitted|])
      else s.(flusher := NoFlusher)
  }

  function Failed(f: Flusher): Flusher
    requires f.Writing?
  {
    Done(f.target, f.batch, f.permits, false, false, false)
  }

  /** The latches are read under the token lock; after either of them nothing is sent. */
  function AfterSend(s: State): State
    requires s.token.Held? && HolderWrites(s)
  {
    if Latched(s) then
      if s.token.holder.Flush? then
        s.(token := NoToken, flusher := Failed(s.flusher), lost := s.lost + {s.flusher.batch})
      else s.(token := NoToken)
    else
      s.(token := InFlight(s.token.holder),
         requests := s.requests + [if s.token.holder.Flush? then s.flusher.chunks[0] else []])
  }

  function AfterResponse(token: Token, response: Response): Token
    requires token.InFlight?
  {
    match response
    case Accepted => NoToken
    case Tokenless => Withdrawing(token.holder)
    case Unread | Refused(_) => Failing(token.holder)
  }

  function AfterRespond(s: State, response: Response): State
    requires s.token.InFlight? && HolderWrites(s)
  {
    var token := AfterResponse(s.token, response);
    if s.token.holder.Direct? then s.(token := token)
    else
      var f := s.flusher;
      var recorded := response != Refused(false);
      var rest := if recorded then f.chunks[1..] else f.chunks;
      s.(token := token,
         service := if recorded then s.service + f.chunks[0] else s.service,
         flusher := if response.Accepted? && rest == [] then Done(f.target, f.batch, f.permits, true, false, false)
                    else f.(chunks := rest))
  }

  function AfterSetLatch(s: State): State
    requires s.token.Failing? || s.token.Withdrawing?
  {
    if s.token.Failing? then s.(coord := WriteFailed(s.coord), token := Dropping(s.token.holder, false))
    else s.(coord := Withdrawn(s.coord), token := Dropping(s.token.holder, true))
  }

  function AfterDropOpenBatch(s: State): State
    requires s.token.Dropping? && HolderWrites(s)
  {
    var open := if s.buf.open.Some? then {s.buf.open.value} else {};
    var mine := if s.token.holder.Flush? then {s.flusher.batch} else {};
    s.(coord := if s.token.withdrawal then WithdrawalSuspends(s.coord) else s.coord,
       buf := AfterTake(s.buf),
       sealed := |s.admitted|,
       loose := s.loose + s.buf.permits,
       lost := s.lost + open + mine,
       flusher := if s.token.holder.Flush? then Failed(s.flusher) else s.flusher,
       token := NoToken)
  }

  function AfterClaimUnspawned(s: State, b: BatchId): State {
    if s.coord.writeFailed || TakeTarget(s.buf, b).None? then s
    else
      s.(buf := AfterTake(s.buf),
         sealed := |s.admitted|,
         loose := s.loose + s.buf.permits,
         claimed := s.claimed + {b},
         unspawned := s.unspawned + {b},
         rejecting := s.rejecting + {b})
  }

  function NextJoin(s: State, step: JoinStep): State
    requires CanJoin(s, step)
  {
    match step
    case CloseScope(scope) => AfterCloseScope(s, scope)
    case BufferLock(owners, updates, reserve) => AfterBufferLock(s, owners, updates, reserve)
    case CheckAdmission => AfterCheckAdmission(s)
    case AcquirePermit => AfterAcquirePermit(s)
    case Push => AfterPush(s)
    case ReleaseHold(r) => AfterReleaseHold(s, r)
    case Notify(r) => AfterNotify(s, r)
  }

  function NextFlush(s: State, step: FlushStep): State
    requires CanFlush(s, step)
  {
    match step
    case TakeWriter(target) => s.(flusher := Looping(target))
    case EnableWaiter => s.(flusher := Enabled(s.flusher.target, false))
    case CheckHolds => AfterCheckHolds(s)
    case Wake => s.(flusher := Looping(s.flusher.target))
    case PublishBatch =>
      s.(published := s.published[s.flusher.batch := Written], flusher := s.flusher.(published := true))
    case DropPermits => s.(loose := s.loose + s.flusher.permits, flusher := s.flusher.(dropped := true))
    case EndFlush =>
      s.(flusher := if s.flusher.target.Any? && s.flusher.ok then Looping(Any) else NoFlusher)
  }

  function NextRequest(s: State, step: RequestStep): State
    requires CanRequest(s, step)
  {
    match step
    case TakeToken(holder) => s.(token := Held(holder))
    case Send => AfterSend(s)
    case Respond(response) => AfterRespond(s, response)
    case SetLatch => AfterSetLatch(s)
    case DropOpenBatch => AfterDropOpenBatch(s)
  }

  function NextOther(s: State, step: OtherStep): State
    requires CanOther(s, step)
  {
    match step
    case ClaimUnspawned(b) => AfterClaimUnspawned(s, b)
    case PublishNoRuntime(b) => s.(published := s.published[b := NoRuntime], rejecting := s.rejecting - {b})
    case ReleasePermit =>
      s.(loose := s.loose - 1, released := s.released + 1,
         coord := CheckSuspension(Dropped(s.coord, Checkpoint)))
    case Environment(activity, scheduler, waits, fatal, panic) =>
      s.(coord := CheckSuspension(s.coord.(activity := activity, scheduler := scheduler, waits := waits,
                                           fatal := s.coord.fatal || fatal, panic := s.coord.panic || panic)))
    case EndDrive => s.(coord := s.coord.(phase := Finished))
  }

  function Next(s: State, step: Step): State
    requires CanStep(s, step)
  {
    match step
    case Joining(j) => NextJoin(s, j)
    case Flushing(f) => NextFlush(s, f)
    case Requesting(r) => NextRequest(s, r)
    case Outside(o) => NextOther(s, o)
  }
}
