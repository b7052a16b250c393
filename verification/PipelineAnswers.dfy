/** What the service is sent, what it records, and what its answers lead to: the next request, a failed write
    or a withdrawal. And when the invocation suspends on its own.
 */
module PipelineAnswers {
  import opened Requests
  import opened Coordinator
  import opened Pipeline
  import opened PipelineInvariant
  import opened PipelineTheorems
  import opened PipelineTraces

  // ----- What is recorded is what was sent -----

  ghost predicate SentInv(s: State) {
    s.token.InFlight? ==>
      && s.requests != []
      && s.requests[|s.requests| - 1]
         == if s.token.holder.Flush? && s.flusher.Writing? && s.flusher.chunks != [] then s.flusher.chunks[0] else []
  }

  /** A request is sent only by a send that meets no latch, and answered while it is the last one sent. */
  lemma SendsOne(s: State, step: Step)
    requires TokenInv(s) && CanStep(s, step) && SentInv(s)
    ensures SentInv(Next(s, step))
    ensures
      var s' := Next(s, step);
      if step == Requesting(Send) && !s.coord.writeFailed && !s.coord.withdrawn then
        s'.token.InFlight? && |s'.requests| == |s.requests| + 1 && s'.requests[..|s.requests|] == s.requests
      else s'.requests == s.requests
    ensures step.Requesting? && step.request.Respond? ==> s.token.InFlight?
  {
    match step
    case Joining(j) =>
    case Flushing(f) => FlushSends(s, f);
    case Requesting(r) => RequestSends(s, r);
    case Outside(o) =>
  }

  lemma FlushSends(s: State, step: FlushStep)
    requires TokenInv(s) && CanFlush(s, step) && SentInv(s)
    ensures SentInv(NextFlush(s, step)) && NextFlush(s, step).requests == s.requests
  {
  }

  lemma RequestSends(s: State, step: RequestStep)
    requires CanRequest(s, step) && SentInv(s)
    ensures SentInv(NextRequest(s, step))
    ensures
      var s' := NextRequest(s, step);
      if step == Send && !s.coord.writeFailed && !s.coord.withdrawn then
        s'.token.InFlight? && |s'.requests| == |s.requests| + 1 && s'.requests[..|s.requests|] == s.requests
      else s'.requests == s.requests
  {
  }

  lemma RecordsLast(s: State, step: Step)
    requires CanStep(s, step) && SentInv(s)
    ensures
      if step.Requesting? && step.request.Respond? && step.request.response != Refused(false) then
        s.requests != [] && Next(s, step).service == s.service + s.requests[|s.requests| - 1]
      else Next(s, step).service == s.service
  {
    match step
    case Joining(j) =>
    case Flushing(f) => FlushRecords(s, f);
    case Requesting(r) =>
    case Outside(o) =>
  }

  lemma FlushRecords(s: State, step: FlushStep)
    requires CanFlush(s, step)
    ensures NextFlush(s, step).service == s.service
  {
  }

  lemma {:induction false} SentAt(limits: BatchLimits, steps: seq<Step>, k: nat)
    requires CanRun(Init(limits), steps) && k <= |steps|
    ensures SentInv(At(limits, steps, k))
  {
    Ends(limits, steps);
    hide CanRun, At, Next, CanStep;
    if k > 0 {
      SentAt(limits, steps, k - 1);
      StepAt(limits, steps, k - 1);
      KeptAt(limits, steps, k - 1);
      SendsOne(At(limits, steps, k - 1), steps[k - 1]);
    }
  }

  /** The requests that were answered as recorded, one after the other; each answer is to the last request. */
  ghost function Answered(limits: BatchLimits, steps: seq<Step>, k: nat): seq<TrackedUpdate>
    requires CanRun(Init(limits), steps) && k <= |steps|
  {
    if k == 0 then []
    else
      var requests := At(limits, steps, k - 1).requests;
      var step := steps[k - 1];
      Answered(limits, steps, k - 1)
      + if step.Requesting? && step.request.Respond? && step.request.response != Refused(false) && requests != []
        then requests[|requests| - 1] else []
  }

  /** The service's record is what it was sent and did not refuse, request by request. */
  lemma {:induction false} RecordedIsSent(limits: BatchLimits, steps: seq<Step>, k: nat)
    requires CanRun(Init(limits), steps) && k <= |steps|
    ensures At(limits, steps, k).service == Answered(limits, steps, k)
  {
    Ends(limits, steps);
    hide CanRun, At, Next, CanStep, SentInv;
    if k > 0 {
      RecordedIsSent(limits, steps, k - 1);
      StepAt(limits, steps, k - 1);
      SentAt(limits, steps, k - 1);
      RecordsLast(At(limits, steps, k - 1), steps[k - 1]);
    }
  }

  // ----- What an answer leads to -----

  lemma JoinCoord(s: State, step: JoinStep)
    requires CanJoin(s, step)
    ensures
      var s' := NextJoin(s, step);
      && s'.token == s.token
      && s'.coord == s.coord.(checkpoint := s'.coord.checkpoint)
  {
  }

  lemma FlushCoord(s: State, step: FlushStep)
    requires CanFlush(s, step)
    ensures NextFlush(s, step).coord == s.coord && NextFlush(s, step).token == s.token
  {
  }

  lemma RequestCoord(s: State, step: RequestStep)
    requires CanRequest(s, step)
    ensures
      var s' := NextRequest(s, step);
      match step
      case Respond(response) =>
        s.token.InFlight? && s'.coord == s.coord
        && s'.token == (if response.Accepted? then NoToken
                        else if response.Tokenless? then Withdrawing(s.token.holder)
                        else Failing(s.token.holder))
      case SetLatch =>
        if s.token.Withdrawing? then
          s'.coord == s.coord.(withdrawn := true) && s'.token == Dropping(s.token.holder, true)
        else
          s.token.Failing? && s'.coord == s.coord.(writeFailed := true, fatal := true)
          && s'.token == Dropping(s.token.holder, false)
      case DropOpenBatch =>
        s.token.Dropping? && s'.token.NoToken? && s'.buf.open.None? && s'.buf.pending == []
        && s'.coord == (if s.token.withdrawal && s.coord.phase.Running? then s.coord.(phase := Suspending) else s.coord)
      case TakeToken(holder) => s.token.NoToken? && s'.coord == s.coord
      case Send => s.token.Held? && s'.coord == s.coord
  {
  }

  /** An invocation that runs and is quiet suspends. */
  predicate Quiet(c: Coord) {
    && c.phase.Running? && !c.withdrawn && c.activity == 0 && c.checkpoint == 0 && c.scheduler == 0
    && c.waits > 0 && !c.fatal && !c.panic
  }

  lemma OutsideCoord(s: State, step: OtherStep)
    requires CanOther(s, step)
    ensures
      var c, s' := s.coord, NextOther(s, step);
      var c' := s'.coord;
      && s'.token == s.token && c'.withdrawn == c.withdrawn && c'.writeFailed == c.writeFailed
      && (c.fatal ==> c'.fatal)
      && if step.ReleasePermit? || step.Environment? then
           c'.phase == if Quiet(c'.(phase := c.phase)) then Suspending else c.phase
         else c'.phase == if step.EndDrive? then Finished else c.phase
  {
  }

  /** The latches stay, and an invocation that stopped running does not run again. */
  lemma LatchesStay(s: State, step: Step)
    requires CanStep(s, step)
    ensures
      var s' := Next(s, step);
      && (s.coord.withdrawn ==> s'.coord.withdrawn) && (s.coord.writeFailed ==> s'.coord.writeFailed)
      && (s.coord.fatal ==> s'.coord.fatal) && (!s.coord.phase.Running? ==> !s'.coord.phase.Running?)
  {
    hide NextJoin, NextFlush, NextRequest, NextOther, CanJoin, CanFlush, CanRequest, CanOther;
    match step
    case Joining(j) => JoinCoord(s, j);
    case Flushing(f) => FlushCoord(s, f);
    case Requesting(r) => RequestCoord(s, r);
    case Outside(o) => OutsideCoord(s, o);
  }

  /** What the token step does to the latches, with what it is. */
  lemma TokenStep(s: State, step: Step)
    requires CanStep(s, step)
    ensures
      var s' := Next(s, step);
      match step
      case Requesting(Respond(response)) =>
        s.token.InFlight? && s'.coord == s.coord
        && s'.token == (if response.Accepted? then NoToken
                        else if response.Tokenless? then Withdrawing(s.token.holder)
                        else Failing(s.token.holder))
      case Requesting(SetLatch) =>
        if s.token.Withdrawing? then
          s'.coord == s.coord.(withdrawn := true) && s'.token == Dropping(s.token.holder, true)
        else
          s.token.Failing? && s'.coord == s.coord.(writeFailed := true, fatal := true)
          && s'.token == Dropping(s.token.holder, false)
      case Requesting(DropOpenBatch) =>
        s.token.Dropping? && s'.token.NoToken? && s'.buf.open.None? && s'.buf.pending == []
        && s'.coord == (if s.token.withdrawal && s.coord.phase.Running? then s.coord.(phase := Suspending) else s.coord)
      case Requesting(TakeToken(holder)) => s.token.NoToken? && s'.coord == s.coord
      case Requesting(Send) => s.token.Held? && s'.coord == s.coord
      case _ => s'.token == s.token
                && s'.coord.withdrawn == s.coord.withdrawn && s'.coord.writeFailed == s.coord.writeFailed
  {
    hide NextJoin, NextFlush, NextRequest, NextOther, CanJoin, CanFlush, CanRequest, CanOther;
    match step
    case Joining(j) => JoinCoord(s, j);
    case Flushing(f) => FlushCoord(s, f);
    case Requesting(r) => RequestCoord(s, r);
    case Outside(o) => OutsideCoord(s, o);
  }

  /** From an answer without a token until the token is free again: the withdrawal latch is set, then the open
      batch is dropped, and in the end the invocation does not run any more. */
  ghost predicate Withdraws(s: State) {
    || s.token.Withdrawing?
    || (s.token.Dropping? && s.token.withdrawal && s.coord.withdrawn)
    || (s.token.NoToken? && s.coord.withdrawn && !s.coord.phase.Running? && s.buf.open.None? && s.buf.pending == [])
  }

  /** The same for an error, or a state that could not be read: the write-failure latch with the fatal slot. */
  ghost predicate Fails(s: State) {
    || s.token.Failing?
    || (s.token.Dropping? && !s.token.withdrawal && s.coord.writeFailed && s.coord.fatal)
    || (s.token.NoToken? && s.coord.writeFailed && s.coord.fatal && s.buf.open.None? && s.buf.pending == [])
  }

  lemma GoesOn(s: State, step: Step)
    requires CanStep(s, step) && !s.token.NoToken?
    ensures Withdraws(s) ==> Withdraws(Next(s, step))
    ensures Fails(s) ==> Fails(Next(s, step))
  {
    TokenStep(s, step);
    LatchesStay(s, step);
    hide Next, CanStep;
  }

  /** Every answer decides what happens until its writer gives up the checkpoint token: accepted, the next
      writer may go on and no latch is set; without a token, a withdrawal; and otherwise a failed write. */
  lemma {:induction false} AnswerDecides(limits: BatchLimits, steps: seq<Step>, k: nat, response: Response, m: nat)
    requires CanRun(Init(limits), steps) && k < m <= |steps| && steps[k] == Requesting(Respond(response))
    requires forall j :: k < j < m ==> !At(limits, steps, j).token.NoToken?
    ensures response.Accepted? ==>
      m == k + 1 && At(limits, steps, m).token.NoToken? && At(limits, steps, m).coord == At(limits, steps, k).coord
    ensures response.Tokenless? ==> Withdraws(At(limits, steps, m))
    ensures response.Unread? || response.Refused? ==> Fails(At(limits, steps, m))
    decreases m
  {
    hide CanRun, At, Next, CanStep;
    StepAt(limits, steps, m - 1);
    if m == k + 1 {
      TokenStep(At(limits, steps, k), steps[k]);
    } else {
      AnswerDecides(limits, steps, k, response, m - 1);
      GoesOn(At(limits, steps, m - 1), steps[m - 1]);
    }
  }

  ghost predicate AnsweredBefore(steps: seq<Step>, k: nat, tokenless: bool)
    requires k <= |steps|
  {
    exists a, response :: 0 <= a < k && steps[a] == Requesting(Respond(response)) && !response.Accepted?
                          && (response.Tokenless? <==> tokenless)
  }

  /** No latch is set, or about to be, but for an answer that leads to it. */
  lemma {:induction false} LatchesComeFromAnswers(limits: BatchLimits, steps: seq<Step>, k: nat)
    requires CanRun(Init(limits), steps) && k <= |steps|
    ensures At(limits, steps, k).coord.withdrawn || At(limits, steps, k).token.Withdrawing? ==>
      AnsweredBefore(steps, k, true)
    ensures At(limits, steps, k).coord.writeFailed || At(limits, steps, k).token.Failing? ==>
      AnsweredBefore(steps, k, false)
  {
    Ends(limits, steps);
    if k > 0 {
      LatchesComeFromAnswers(limits, steps, k - 1);
      StepAt(limits, steps, k - 1);
      TokenStep(At(limits, steps, k - 1), steps[k - 1]);
      EarlierAnswers(steps, k - 1);
      hide CanRun, At, Next, CanStep, AnsweredBefore;
      AnswerNow(steps, k);
    }
  }

  lemma EarlierAnswers(steps: seq<Step>, k: nat)
    requires k < |steps|
    ensures forall tokenless :: AnsweredBefore(steps, k, tokenless) ==> AnsweredBefore(steps, k + 1, tokenless)
  {
  }

  lemma AnswerNow(steps: seq<Step>, k: nat)
    requires 0 < k <= |steps|
    ensures forall response :: steps[k - 1] == Requesting(Respond(response)) && !response.Accepted? ==>
              AnsweredBefore(steps, k, response.Tokenless?)
  {
  }

  // ----- Suspension -----

  /** An invocation suspends exactly when a permit is released, or something it waits for changes, and then
      it runs, no permit of any kind is held, some wait is registered, and nothing failed, panicked or was
      withdrawn; or when a withdrawal finds it running. */
  lemma SuspendsExactlyWhenQuiet(s: State, step: Step)
    requires CanStep(s, step)
    ensures
      var s' := Next(s, step);
      Suspended(s, s') <==>
        || (&& (step == Outside(ReleasePermit) || (step.Outside? && step.other.Environment?))
            && s.coord.phase.Running? && !s.coord.withdrawn
            && s'.coord.activity == 0 && s'.coord.checkpoint == 0 && s'.coord.scheduler == 0
            && s'.coord.waits > 0 && !s'.coord.fatal && !s'.coord.panic)
        || (&& step == Requesting(DropOpenBatch) && s.token.withdrawal && s.coord.phase.Running?)
  {
    hide NextJoin, NextFlush, NextRequest, NextOther, CanJoin, CanFlush, CanRequest, CanOther;
    match step
    case Joining(j) => JoinCoord(s, j);
    case Flushing(f) => FlushCoord(s, f);
    case Requesting(r) => RequestCoord(s, r);
    case Outside(o) => OutsideCoord(s, o);
  }

  /** What the counts are after such a step: one checkpoint permit less, or what the environment says. */
  lemma OutsideCounts(s: State, step: OtherStep)
    requires CanOther(s, step)
    ensures
      var c, c' := s.coord, NextOther(s, step).coord;
      match step
      case ReleasePermit =>
        && c'.activity == c.activity && c'.scheduler == c.scheduler && c'.waits == c.waits
        && c'.checkpoint == (if c.checkpoint == 0 then 0 else c.checkpoint - 1)
        && c'.fatal == c.fatal && c'.panic == c.panic
      case Environment(activity, scheduler, waits, fatal, panic) =>
        && c'.activity == activity && c'.scheduler == scheduler && c'.waits == waits && c'.checkpoint == c.checkpoint
        && c'.fatal == (c.fatal || fatal) && c'.panic == (c.panic || panic)
      case _ => c'.activity == c.activity && c'.scheduler == c.scheduler && c'.checkpoint == c.checkpoint
  {
  }
}
