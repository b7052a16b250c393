/** The part of the invocation coordinator that the checkpoint pipeline meets: permits,
    the two latches and the suspension rule.
 */
module Coordinator {
  import opened Options

  datatype Phase = Running | Suspending | Finished

  datatype PermitKind = Activity | Checkpoint | Scheduler

  /** What the coordinator's lock protects. waits counts the live wait registrations. */
  datatype Coord = Coord(
    phase: Phase,
    activity: nat,
    checkpoint: nat,
    scheduler: nat,
    waits: nat,
    fatal: bool,
    panic: bool,
    withdrawn: bool,
    writeFailed: bool)

  const NEW_COORD := Coord(Running, 0, 0, 0, 0, false, false, false, false)

  /** State::admits */
  predicate Open(c: Coord) {
    c.phase.Running? && !c.withdrawn
  }

  /** Whether acquire grants a permit of kind. */
  predicate Grants(c: Coord, kind: PermitKind) {
    && Open(c)
    && match kind
       case Activity => true
       case Checkpoint => !c.writeFailed
       case Scheduler => c.activity != 0 || c.checkpoint != 0
  }

  function Granted(c: Coord, kind: PermitKind): Coord {
    match kind
    case Activity => c.(activity := c.activity + 1)
    case Checkpoint => c.(checkpoint := c.checkpoint + 1)
    case Scheduler => c.(scheduler := c.scheduler + 1)
  }

  function SaturatingDec(n: nat): nat {
    if n == 0 then 0 else n - 1
  }

  function Dropped(c: Coord, kind: PermitKind): Coord {
    match kind
    case Activity => c.(activity := SaturatingDec(c.activity))
    case Checkpoint => c.(checkpoint := SaturatingDec(c.checkpoint))
    case Scheduler => c.(scheduler := SaturatingDec(c.scheduler))
  }

  /** The condition of check_suspension. */
  predicate Suspends(c: Coord) {
    && c.phase.Running? && !c.withdrawn
    && c.activity == 0 && c.checkpoint == 0 && c.scheduler == 0
    && c.waits != 0
    && !c.fatal && !c.panic
  }

  function CheckSuspension(c: Coord): Coord {
    if Suspends(c) then c.(phase := Suspending) else c
  }

  /** fail_write: the latch and the fatal slot, set together. */
  function WriteFailed(c: Coord): Coord {
    c.(writeFailed := true, fatal := true)
  }

  /** The two halves of withdraw, before and after it drops the queued writes. */
  function Withdrawn(c: Coord): Coord {
    c.(withdrawn := true)
  }

  function WithdrawalSuspends(c: Coord): Coord {
    if c.phase.Running? then c.(phase := Suspending) else c
  }

  /** The classification of a failure that decides the outcome of the drive. */
  datatype FatalError = FatalError(errorType: string, message: string)

  /** The counts, the phase and the latches are in state. The fatal slot and the write-failure latch
      hold the failure they were set to. */
  class InvocationCoordinator {
    var state: Coord
    var fatal: Option<FatalError>
    var writeFailure: Option<FatalError>

    predicate Valid()
      reads this
    {
      state.fatal == fatal.Some? && state.writeFailed == writeFailure.Some?
    }

    constructor ()
      ensures Valid() && state == NEW_COORD
    {
      state, fatal, writeFailure := NEW_COORD, None, None;
    }

    /** Takes a permit, unless the phase or a latch refuses it. */
    method Acquire(kind: PermitKind) returns (granted: bool)
      modifies this`state
      ensures granted == Grants(old(state), kind)
      ensures granted <==>
        && old(state).phase == Running && !old(state).withdrawn
        && (kind == Checkpoint ==> !old(state).writeFailed)
        && (kind == Scheduler ==> old(state).activity + old(state).checkpoint > 0)
      ensures state == if granted then Granted(old(state), kind) else old(state)
    {
      if !Open(state) {
        return false;
      }
      match kind {
        case Activity =>
          state := state.(activity := state.activity + 1);
        case Checkpoint =>
          if state.writeFailed {
            return false;
          }
          state := state.(checkpoint := state.checkpoint + 1);
        case Scheduler =>
          if state.activity == 0 && state.checkpoint == 0 {
            return false;
          }
          state := state.(scheduler := state.scheduler + 1);
      }
      return true;
    }

    /** Drops a permit and runs the suspension check, under one lock. */
    method Release(kind: PermitKind)
      modifies this`state
      ensures state == CheckSuspension(Dropped(old(state), kind))
    {
      match kind {
        case Activity => state := state.(activity := SaturatingDec(state.activity));
        case Checkpoint => state := state.(checkpoint := SaturatingDec(state.checkpoint));
        case Scheduler => state := state.(scheduler := SaturatingDec(state.scheduler));
      }
      var quiescent := state.activity == 0 && state.checkpoint == 0 && state.scheduler == 0;
      if state.phase == Running && !state.withdrawn && quiescent && state.waits != 0 && !state.fatal && !state.panic {
        state := state.(phase := Suspending);
      }
    }

    /** Sets the write-failure latch to the failure, and the fatal slot. In each of them the first
        failure stays. */
    method FailWrite(failure: FatalError)
      requires Valid()
      modifies this
      ensures Valid() && state == WriteFailed(old(state))
      ensures writeFailure == if old(writeFailure).Some? then old(writeFailure) else Some(failure)
      ensures fatal == if old(fatal).Some? then old(fatal) else Some(failure)
    {
      if writeFailure.None? {
        writeFailure := Some(failure);
        state := state.(writeFailed := true);
      }
      if fatal.None? {
        fatal := Some(failure);
        state := state.(fatal := true);
      }
    }

    /** Records an execution-fatal error. The first record wins. */
    method RecordFatal(failure: FatalError)
      requires Valid()
      modifies this`state, this`fatal
      ensures Valid() && state == old(state).(fatal := true)
      ensures fatal == if old(fatal).Some? then old(fatal) else Some(failure)
    {
      if fatal.None? {
        fatal := Some(failure);
        state := state.(fatal := true);
      }
    }
  }
}
