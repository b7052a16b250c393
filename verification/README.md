# A verified model of durable execution

The SDK runs a handler as a durable execution. Every operation of the handler (a step, a child
context, a combinator, a callback) has a record in a checkpoint log that the service keeps, and an
invocation that is interrupted is followed by another one that runs the handler again against that
log. This project models the three parts that this rests on, in Dafny 4.11, and proves that they do
what they promise. `dafny verify dfyconfig.toml` checks all of it.

**The checkpoint write pipeline** (`Requests`, `Admission`, `Coordinator`, `Buffering`, `Pipeline*`).
Concurrent operations join a shared buffer; flushers claim the open batch under a writer lock, split it
into size-capped requests and send them; scopes close, reservations hold the batch, writes fail and
the token is withdrawn in between. `Pipeline` is a step system whose steps are the critical sections of
the source, one lock at a time: a join is four steps, because the buffer lock is held across the
admission check, the permit and the push, and a scope close or a latch can fall between them.
`PipelineInvariant` holds what every step keeps, four modules prove that it is kept, and
`PipelineTheorems` draws the promises of the source's header from it, for every interleaving.
`PipelineTraces` tells what becomes of a join, and of one behind a scope close, by the steps that were taken;
`PipelineFlushPoints` when a flush point may end; `PipelineAnswers` what the service's answers lead to and when
the invocation suspends; and `PipelineProgress` that nobody is stuck. The classes
are the lock-guarded objects, and their methods are proved against the functions that the steps use.

**Record and replay** (`Records`, `Errors`, `Handlers`, `Outcomes`, `Results`, `RecordedResults`, `Runs`, `RunWrites`,
`Oracles`, `Executions`, `Replay`, `CleanRuns`, `ReplayLimits`, `Unserialized`, `Meaning`, `Recovery`, `OneRun`,
`Completion`, `Uninterrupted`, `Combinators`, `SettleOrder`, `CombinatorFailures`, `Invocations`, `WaitForCallback`,
`CallbackCauses`, `CallbackLeaves`). A handler is a tree: leaves (steps and `wait_for_callback`s) whose outcome
the world decides, child contexts whose bodies are handlers again, and combinators over any operations. `Handlers` is the interpreter of one invocation. An oracle
chooses, for each operation, whether its START and its outcome reach the service, when its inputs
settle, what the serdes writes, whether its record keeps its children, and what the shared slot for an
execution-fatal error holds when a combinator comes to its outcome. An operation whose write does
not reach the service never returns in that invocation; so one oracle covers a crash between any two
writes, a suspension, a failed write and a cancelled input. Only decoding has to be a function of
the payload. Three results carry the part:

- `Replay`: a run that completed is replayed, from any later log that keeps what the service must keep (it
  may drop the records below an operation that ended without `ReplayChildren`), with the same result and no
  write, if its records determine the result. `CleanRuns` says in terms of what can be observed when they
  do, and `ReplayLimits` and `Unserialized` what happens when they do not.
- `Recovery`: any number of interrupted invocations followed by one that completes return what one
  uninterrupted invocation returns, for handlers whose result does not depend on the scheduler. The service
  may drop records between any two invocations.
- `OneRun` and `Uninterrupted`: for handlers with races and `select_ok` too, two invocations are one, so an
  execution that completes returns what some run that nothing interrupts returns in the same world, unless
  a run of it can end in one of the failures of `ReplayLimits` and `Unserialized`. `Completion`: an
  invocation that nothing interrupts completes from every point.

`Outcomes` tells what an operation has to record from the results it is made of, without computing it:
`RunWrites` proves that every write of every run and execution is one that is owed so, and `Results` and
`RecordedResults` what live and recorded operations return. `Executions` shows
that what the service dropped is not run again, and `Oracles` is the
frame of a run: the choices and the records that it depends on. `Invocations` is the imperative form of the
interpreter, with the paths of the source, proved equal to it. `WaitForCallback` is the operation with its
three records, `CallbackCauses` tells its outcome from them, and `CallbackLeaves` shows that a handler meets it
as a leaf.

**Rebuilding the log from pages** (`Client`): loops over marker chains and operation lists, proved
against folds.

Where a property is false of the code, the model keeps the code, gives the input, and proves exactly when
the property holds:

- A batch that a contributor without a runtime gives up is skipped, so the record need not be a prefix of
  everything that was admitted (`SkippedBatch`, `PrefixExactlyWithoutSkips`). The header at
  `src/checkpoint_coalescer.rs:22-27` says that batches are sealed only under the writer lock;
  `claim_unspawned` seals one without it, and the model follows the code.
- `replay_failure` takes any record with the type `SerializationError` for a failed serialization of the
  child itself. A body that passes on an inner child's serialization failure records that type, so its
  error changes from `ChildFailed` to `Internal` on replay (`PropagatedSerializationFailure`,
  `FailedChildReplay`).
- A combinator whose result cannot be serialized returns an error without recording an outcome, although
  the handler may branch on it; a later invocation can return another winner, or the value
  (`UnserializedWinnerIsForgotten`, `UnserializedCollectionIsForgotten`). Every later invocation repeats the
  error if and only if no settle order of the completed inputs and no behaviour of the serdes ends in a
  failure or in an encoded value (`ErrorRepeatsExactlyWhen`, `ErrorInLaterInvocation`).
- An external caller that fails a callback with the type `Callback.Timeout` or `Callback.Heartbeat` is taken for
  that timeout: the outer record gets that type with a fixed message, the caller's message and data are lost,
  and every replay is a timeout. With every other type the caller's failure is kept
  (`ExternalTimeoutIsTakenForOne`, `ExternalFailureExactly`).

Assumptions taken from code that is not modelled step by step: the buffer, admission, coordinator and
token locks exclude; `fail_write` and `withdraw` run under the checkpoint-token lock and set their latch
before they drop the queued writes (`src/coordinator.rs:690-761`, `src/context.rs:2974-2983`); wire IDs
are an injective function of positional IDs; leaves are recorded before they return.

## Model

| member | source | states |
|---|---|---|
| `JsonText.EscapeIsUndone` | src/checkpoint_coalescer.rs:273-297 | reading the escaped text of a string, with the short escapes and the six-byte escapes of section 7 of RFC 8259, gives the string back and stops exactly behind its closing quote, whatever follows |
| `JsonText.Utf8RoundTrip` | src/checkpoint_coalescer.rs:273-297 | the UTF-8 bytes of a string (section 3 of RFC 3629) decode to that string, so a byte count can stand for a text |
| `JsonText.EscapedLenIsExact` | src/checkpoint_coalescer.rs:282-297 | json_escaped_len is exactly the number of UTF-8 bytes of the escaped text, and that text is readable |
| `JsonText.EscapedLenConcat` | src/checkpoint_coalescer.rs:282-322 | the measure is additive over concatenation |
| `Requests.EstimateCountsEveryField` | src/checkpoint_coalescer.rs:299-322 | the estimated size of an update is 256 bytes plus the exact wire bytes of the escaped text of every string field it carries, none missing and none counted twice |
| `Requests.SplitIntoRequests` | src/checkpoint_coalescer.rs:331-354 | the greedy loop returns an order-preserving partition of the updates into requests within both caps (one update alone is always allowed), with no more requests than any other such partition |
| `Requests.SplitIsPartition` | src/checkpoint_coalescer.rs:331-354 | from any open request on, the rest of the loop produces requests within the caps that concatenate to what is left |
| `Requests.SplitIsMinimal` | src/checkpoint_coalescer.rs:331-354 | no order-preserving partition within the caps has fewer requests |
| `Admission.Admission.Abandon` | src/checkpoint_coalescer.rs:166-184 | closing scopes keeps exactly the tasks without a closed owner and aborts the others, in registration order |
| `Admission.Admission.IsAdmitted` | src/checkpoint_coalescer.rs:187-192 | a write is admitted exactly when none of its owners is closed |
| `Admission.Admission.RegisterTask` | src/checkpoint_coalescer.rs:204-219 | a task of a closed scope is aborted at once; any other is recorded behind the unfinished ones |
| `Admission.ScopeClose.Drop` | src/checkpoint_coalescer.rs:233-252 | dropping the guard closes its scope and aborts what was started in it |
| `Admission.EveryRunAccounts` | src/checkpoint_coalescer.rs:120-219 | after any sequence of closes, registrations and finishes, no registered task has a closed owner, and every task ever registered is running, finished or aborted, once |
| `Admission.AbortedExactlyWhenClosed` | src/checkpoint_coalescer.rs:166-219 | a task that never finished was aborted exactly once if one of its owners is closed, and not at all otherwise |
| `Admission.CloseStands` | src/checkpoint_coalescer.rs:166-192 | once some scopes were closed, whatever happened before and happens after, no owner list that meets them is admitted, no registered task has such an owner, and a task that never finished was aborted as often as it was registered |
| `Admission.OnlyClosesRefuse` | src/checkpoint_coalescer.rs:187-219 | nothing but the close of one of its owners refuses a write or aborts a task |
| `Admission.ClosedForever` | src/checkpoint_coalescer.rs:120-138 | no later event opens a closed scope again |
| `Coordinator.InvocationCoordinator.Acquire` | src/coordinator.rs:380-404 | a permit is granted exactly while the invocation runs without a withdrawal, for a checkpoint without a failed write, and for the scheduler with another permit held; only then it is counted |
| `Coordinator.InvocationCoordinator.Release` | src/coordinator.rs:895-906 | a released permit is uncounted and the suspension rule runs under the same lock |
| `Coordinator.InvocationCoordinator.FailWrite` | src/coordinator.rs:746-761 | the write-failure latch and the fatal slot are set together, and each of them keeps the first failure it was set to |
| `Coordinator.InvocationCoordinator.RecordFatal` | src/coordinator.rs:781-787 | the fatal slot keeps the first failure recorded, and nothing else changes |
| `Buffering.CheckpointBatch.Publish` | src/checkpoint_coalescer.rs:438-441 | the batch has the published result |
| `Buffering.CheckpointCoalescer.JoinOwned` | src/checkpoint_coalescer.rs:532-565 | a join is admitted exactly when no owner is closed and a checkpoint permit is granted; a refused one changes nothing; an admitted one takes one permit, is buffered behind every earlier join, and joins the open batch or opens one; the batch keeps its first refresh ID |
| `Buffering.CheckpointCoalescer.ReleaseHold` | src/checkpoint_coalescer.rs:569-577 | one hold less, nothing else |
| `Buffering.CheckpointCoalescer.TakeTargetBatch` | src/checkpoint_coalescer.rs:711-727 | takes all pending updates and permits exactly when the target is the open batch, so a stale handle never takes a newer batch |
| `Buffering.CheckpointCoalescer.TryTakeBatchUnheld` | src/checkpoint_coalescer.rs:580-611 | waits exactly while a reservation holds the open batch, and else takes the target if it is still open |
| `Buffering.CheckpointCoalescer.TryTakeAnyUnheld` | src/checkpoint_coalescer.rs:647-664 | waits exactly while a reservation holds the open batch, and else takes whatever batch is open |
| `Buffering.CheckpointCoalescer.ClaimUnspawned` | src/checkpoint_coalescer.rs:620-630 | claims the target without waiting for holds, and never after a failed write |
| `Buffering.CheckpointCoalescer.AbandonPending` | src/checkpoint_coalescer.rs:670-677 | drops the open batch with its updates and permits; holds stay counted |
| `PipelineJoining.Kept` | src/checkpoint_coalescer.rs:532-577 | every step of a join, a scope close, a release and a wakeup keeps the pipeline invariant |
| `PipelineFlushing.Kept` | src/context.rs:2577-2605 | every step of a flusher around its requests keeps the pipeline invariant |
| `PipelineRequesting.Kept` | src/context.rs:2655-2672 | every step under the checkpoint-token lock, including a failure and a withdrawal, keeps the pipeline invariant |
| `PipelineOutside.Kept` | src/context.rs:2606-2640 | a claim without a runtime, a permit release and every change of the coordinator keep the pipeline invariant |
| `PipelineTheorems.EveryRunKeeps` | src/checkpoint_coalescer.rs:17-63 | the pipeline invariant holds after every interleaving of any number of contributors, flushers and direct writers |
| `PipelineTheorems.RecordedInJoinOrder` | src/checkpoint_coalescer.rs:19-54 | in every interleaving the recorded buffered updates are a prefix, in join order, of the admitted ones (without batches given up for want of a runtime); until a failure or withdrawal, admitted is recorded, then claimed, then pending, exactly |
| `PipelineTheorems.PrefixExactlyWithoutSkips` | src/checkpoint_coalescer.rs:19-54 | the record is a prefix of everything admitted when no non-empty batch given up without a runtime precedes a recorded update; for pairwise distinct updates, if and only if |
| `PipelineRequests.SkippedBatch` | src/checkpoint_coalescer.rs:620-630 | a concrete run, for any two updates and any limits, whose record skips an admitted update |
| `PipelineRequests.EveryRequestFits` | src/context.rs:2655-2672 | every request of every run is within the caps, or is the empty request of a refresh or of a write outside the buffer |
| `PipelineTheorems.NothingAfterLatch` | src/checkpoint_coalescer.rs:44-54 | after a failed write or a withdrawal no continuation sends or records anything; once the open batch is dropped no join is admitted and the buffer stays empty |
| `PipelineTheorems.FlushPointIsBarrier` | src/context.rs:2680-2719 | every join completed before a flush point found the buffer empty is recorded in full at its place, or was given up without a runtime, or the pipeline stopped |
| `PipelineFlushPoints.FlushPointEnds` | src/context.rs:2697-2719 | a flush point ends only when it finds no open batch, and then everything admitted by then is a barrier, or with a batch that was lost; after every other batch it goes on, and it claims whatever batch is open |
| `PipelineFlushPoints.FlushPointCovers` | src/context.rs:2680-2719 | over the steps of a run, a flush point that ended without losing a batch, in an invocation that did not stop, covers every join admitted when it ended: each is recorded, or was given up without a runtime |
| `PipelineFlushPoints.FlusherForOneEnds` | src/context.rs:2577-2605 | a flusher of one batch ends when that batch is not open any more, or with it written, published and its permits given back, or lost, and never takes another |
| `PipelineFlushPoints.PermitsAfterPublish` | src/context.rs:2594-2604 | a flusher of one batch publishes before it gives the permits back, a flush point gives them back before it publishes, and neither publishes a batch that was not written |
| `PipelineTheorems.ResultsAreTrue` | src/checkpoint_coalescer.rs:28-50 | a contributor that sees success has its updates recorded, one that sees the missing runtime has none of them recorded, and one of a failed or dropped batch sees nothing |
| `PipelineTheorems.ClaimIsFresh` | src/checkpoint_coalescer.rs:603-664 | a batch is taken when nobody claimed, dropped or published it before; a flusher takes only what it was spawned for, and only with no live reservation; a claim without a runtime takes only its own batch, and not after a failed write |
| `PipelineTheorems.PublishedOnce` | src/checkpoint_coalescer.rs:418-441 | no continuation changes a published result, and a failed or dropped batch is never published |
| `PipelineTraces.AdmissionIsDecided` | src/checkpoint_coalescer.rs:519-547 | over the steps of a run, the admission check refuses a join exactly when an earlier step closed one of the owners it was called with; a refused join gives up the lock and changes nothing |
| `PipelineTraces.PermitIsDecided` | src/checkpoint_coalescer.rs:548-548 | the permit is granted exactly while the invocation runs with neither latch set, and counted; a refused join gives up the lock and changes nothing |
| `PipelineTraces.PushIsJoin` | src/checkpoint_coalescer.rs:549-565 | a push is of the join that took the lock last and was found open since: its updates go behind the pending ones, with one permit, and a reservation exactly when it reserves |
| `PipelineTraces.JoinsAreSteps` | src/checkpoint_coalescer.rs:532-565 | every admitted join is, in order, one lock step of the run, with exactly its owners, updates and time |
| `PipelineTraces.LateJoinBuffersNothing` | src/checkpoint_coalescer.rs:120-138 | after a step that closed a scope, a join for an owner list with it is not past the admission check at any time of its critical section, and the buffer, the permits in it, the reservations and the history are those before it |
| `PipelineTraces.LateJoinIsNeverAdmitted` | src/checkpoint_coalescer.rs:120-138 | so no later history holds that join, and every admitted join of the scope took the lock before the close |
| `PipelineTheorems.CloseSeparatesJoins` | src/checkpoint_coalescer.rs:120-138 | every admitted join of a closed scope, or of one nested in it, took the buffer lock before the close, and stands before every join that took it after the close |
| `PipelineTheorems.LateJoinIsRejected` | src/checkpoint_coalescer.rs:519-551 | a join that takes the buffer lock after a close of one of its owners is in no later history |
| `PipelineTheorems.PermitsCountJoins` | src/checkpoint_coalescer.rs:515-551 | in every run the checkpoint permits held are the admitted joins not yet released, so a release never saturates |
| `PipelineAnswers.RecordedIsSent` | src/context.rs:2655-2672 | what the service recorded of the buffered updates is, request by request, what was sent and not refused |
| `PipelineAnswers.AnswerDecides` | src/coordinator.rs:690-761 | until its writer gives up the checkpoint token, an accepted answer sets no latch, one without a token leads to the withdrawal latch, the drop of the open batch and an invocation that does not run, and an error or an unread state to the write-failure latch, the fatal slot and the drop |
| `PipelineAnswers.LatchesComeFromAnswers` | src/coordinator.rs:690-761 | no latch is set but for an answer that leads to it |
| `PipelineAnswers.SuspendsExactlyWhenQuiet` | src/coordinator.rs:258-276 | the invocation suspends if and only if a permit is released or its waits, counts or failures change while it runs, with no activity, checkpoint or scheduler permit, a live wait, no failure, no panic and no withdrawal, or a withdrawal finds it running |
| `PipelineTheorems.SuspensionFindsNothingUnwritten` | src/coordinator.rs:261-276 | the invocation suspends on its own only when every admitted update is recorded or was given up without a runtime |
| `PipelineTheorems.HoldsCountReservations` | src/checkpoint_coalescer.rs:552-577 | in every run the hold count is the number of live reservations, and a flusher asleep with no hold left has a releaser that has yet to notify |
| `PipelineTheorems.SleeperGetsThrough` | src/checkpoint_coalescer.rs:580-594 | no wakeup is lost: with no reservation left, a sleeping flusher gets through in at most four steps |
| `PipelineProgress.WokenByNotify` | src/checkpoint_coalescer.rs:569-601 | a waiting flusher is woken exactly when a release notified between the step that enabled it, before the holds were checked, and now: none in between is lost and none from before counts |
| `PipelineProgress.FlushersMove` | src/checkpoint_coalescer.rs:580-601 | in every reachable state a flusher can go on, or waits for a lock, or sleeps while a reservation is live or its releaser has yet to notify |
| `PipelineProgress.WritersMove` | src/context.rs:2655-2672 | in every reachable state the holder of the checkpoint token can go on with every answer, or waits for the buffer lock |
| `Records.OutcomesAreFinal` | src/child.rs:590-593 | writes that start before they settle never change or remove a recorded outcome |
| `Records.AtMostOneCycle` | src/child.rs:590-593 | such writes hold of one operation nothing, a START, an outcome, or a START and then one outcome |
| `Decimals.ParseRoundTrip` | src/combinator.rs:93-104 | every index that fits usize is read back from its decimal form |
| `Json.JsonRoundTrip` | src/combinator.rs:119-156 | reading a written JSON value gives it back and stops exactly behind it |
| `Combinators.TryJoinAllInputs` | src/combinator.rs:265-282 | the slot loop gives the first failure in settle order with its index, or all values in input order, or waits |
| `Combinators.JoinAllInputs` | src/combinator.rs:476-485 | the slot loop gives every outcome in input order once all inputs settled |
| `Combinators.SortByIndex` | src/combinator.rs:671-676 | the errors come out in input order, none lost and none added |
| `Combinators.SelectOkInputs` | src/combinator.rs:654-677 | the first success in settle order, or every loser in input order, or EmptyInput without inputs |
| `Combinators.RaceInputs` | src/combinator.rs:832-852 | the first input that settled, success or failure, or EmptyInput without inputs |
| `SettleOrder.SettlesEnumerates` | src/combinator.rs:139-156 | whatever order the inputs settle in, every completed input settles exactly once |
| `SettleOrder.JoinAllIsOrderFree` | src/combinator.rs:476-512 | join_all has one outcome for every settle order and every mix of successes and failures: the results in input order |
| `SettleOrder.SuccessIsOrderFree` | src/combinator.rs:265-325 | a try_join_all whose inputs all succeed has one outcome: their values in input order |
| `SettleOrder.AllFailedIsOrderFree` | src/combinator.rs:671-676 | a select_ok whose inputs all fail has one outcome: every loser in input order |
| `SettleOrder.OutcomeIsTrue` | src/combinator.rs:654-738 | what a decided outcome says of its inputs is so: the winner and the first failure are completed inputs with that result and index |
| `SettleOrder.PossibleWinners` | src/combinator.rs:832-852 | an input with a value can win a race or a select_ok in some settle order if and only if it completed with that value |
| `CombinatorFailures.LoserRoundTrip` | src/combinator.rs:127-156 | a loser record with any of its fields absent is read back as it was |
| `CombinatorFailures.LosersRoundTrip` | src/combinator.rs:1247-1292 | every list of loser records is read back in order from the payload written for it |
| `CombinatorFailures.JoinIndexRoundTrip` | src/combinator.rs:1211-1213 | the failed index is read back from the discriminator, and never taken for an empty input |
| `CombinatorFailures.FailureRoundTrip` | src/combinator.rs:1211-1291 | replaying the record of a failed join gives the error the live run returned: variant, index, losers in input order, operation, status and record, for every failure the combinators have |
| `CombinatorFailures.IndexBeyondUsizeIsLost` | src/combinator.rs:1620-1632 | the bound on the index is needed: beyond usize the record replays as an internal error |
| `CombinatorFailures.WinnerRoundTrip` | src/combinator.rs:158-167 | every winner index that fits usize is read back from its record |
| `Runs.OpFrame` | src/engine.rs:119-139 | an operation changes only records at and below the positions it minted |
| `Runs.OpWritesLegally` | src/child.rs:590-734 | whatever an operation does in one invocation, it writes START only without a record, an outcome only after its START, and never over an outcome |
| `Executions.OpRespects` | src/child.rs:422-480 | no operation of any shape writes below an operation whose record ends it without asking for its children |
| `Executions.ExecutionWritesLegally` | src/child.rs:590-734 | with drops between the invocations, the writes of all of them are legal one after the other, as if nothing had been dropped, and the service holds what they left but for what it dropped |
| `Executions.OneCycleForEachOperation` | src/child.rs:590-734 | over all invocations of an execution, whatever the service drops between them, each operation gets at most a START and then one outcome |
| `Oracles.OpAlike` | src/engine.rs:119-139 | a run depends on nothing but the choices made for the positions it minted and the records there: with the same of both it returns and writes the same |
| `RunWrites.EveryWriteIsOwed` | src/child.rs:590-734 | in every run each write is at an operation that the run reached, and is its START or the outcome it owes: of a child, the encoding up to 262144 UTF-8 bytes, and above them the summary, or the empty payload when it does not decode, with ReplayChildren; of a combinator, the collection or the value likewise, the index of a winner that is too large, or the failure of the inputs |
| `RunWrites.EveryExecutionWriteIsOwed` | src/combinator.rs:1087-1108 | the same of every write of an execution, with drops between its invocations; a combinator that found an execution-fatal error owes no outcome |
| `RunWrites.WinnersInRange` | src/combinator.rs:1344-1403 | every recorded success of an execution from an empty log holds a payload, and one of a race or select_ok that stores no value names one of the inputs of the combinator that wrote it, for any serdes |
| `Outcomes.ChildActionRecords` | src/child.rs:662-702 | the outcome write of a child is the one its result has to have, told from the result's encoding, its size in bytes and whether it decodes |
| `Outcomes.JoinActionRecords` | src/combinator.rs:1321-1372 | the outcome write of a combinator is the one its inputs have to have: the values in input order, the outcomes in input order, the first success or settled input, or the failure with its input, its losers in input order, or the lack of inputs |
| `Results.LeafReturns` | src/step.rs:784-848 | a live leaf returns the payload or the failure that the world gave it |
| `Results.ChildReturns` | src/child.rs:622-734 | a live child returns what its body returned, as it is read back, or the recorded failure |
| `Results.CombinatorReturns` | src/combinator.rs:265-345 | a live combinator returns the value its inputs decide for, as it is read back, the failure it recorded, or an error without a record only for the serdes or an execution-fatal error |
| `Results.SuccessIsOfInputs` | src/combinator.rs:309-345 | with a serdes that reads back what it writes, a try_join_all that succeeds returns the values of its inputs, item i of input i, a join_all their outcomes, a race or select_ok the value of the input that won |
| `Results.AllSucceedReturns` | src/combinator.rs:309-345 | once every input of an uninterrupted try_join_all succeeded, it returns their values in input order |
| `RecordedResults.LeafIsReplayed` | src/step.rs:563-595 | a settled leaf returns what its record holds, for every record, and writes nothing |
| `RecordedResults.ChildIsReplayed` | src/child.rs:422-480 | a settled child returns what its record holds, or, when the record asks for its children, what its body returns again, as it is read back, and writes nothing of its own |
| `RecordedResults.CombinatorIsReplayed` | src/combinator.rs:1546-1640 | a combinator whose record ends it returns the recorded failure or the recorded result and drives no input |
| `RecordedResults.CollectionIsRebuilt` | src/combinator.rs:309-345 | a collection that is not stored is joined again from all inputs, with nothing written but by them, and returns what a live join of them would |
| `RecordedResults.WinnerIsRebuilt` | src/combinator.rs:1379-1410 | a recorded winner is the only input driven, its error is passed on and its value read back; a record that names no input gives an error without a record |
| `Replay.RecordReplaysChild` | src/child.rs:915-952 | replaying the record that a live child wrote gives what it returned, if and only if it did not fail with a body error that records the serialization type |
| `Replay.RecordReplaysCombinator` | src/combinator.rs:1321-1361 | replaying the record that a live combinator wrote with its result or failure gives what it returned |
| `Replay.WinnerFound` | src/combinator.rs:1344-1403 | a flagged record of a race or select_ok names an input in range, the one that won, for any serdes; the run repeats exactly when that input's records determine it and the encodings of the value decode alike |
| `Replay.CollectionAgain` | src/combinator.rs:265-282 | a completed collection is the same for every order in which its inputs settle again |
| `Replay.CollectionReplays` | src/combinator.rs:327-346 | driving all inputs again rebuilds the collection the live run returned, and writes nothing |
| `Replay.WinnerReplays` | src/combinator.rs:1379-1403 | driving only the recorded winner rebuilds the value the live run returned, and writes nothing |
| `Replay.JoinAgain` | src/combinator.rs:186-738 | a live combinator that recorded its outcome is replayed: from its record, from the recorded winner alone, or from all inputs, for every new settle order |
| `Replay.OpReplays` | src/child.rs:422-519 | an operation of any shape (leaf, child, combinator, nested in any way) that completed, and that its records determine, returns the same result from any later log that keeps them, whatever else happens, and writes nothing |
| `Replay.ProgReplays` | src/child.rs:605-620 | a handler or body that completed returns the same result again, and writes nothing |
| `CleanRuns.ProgCleanRepeats` | src/child.rs:382-388 | a first run repeats when encodings of one value all fail or all decode alike, no execution-fatal error is recorded, no child body records the serialization type, and no combinator result fails to be encoded; child results may |
| `CleanRuns.CleanRunReplays` | src/child.rs:422-519 | so after such a run every later invocation, with any choices and from any log that keeps what it needs, returns its result and writes nothing |
| `ReplayLimits.FailedChildReplay` | src/child.rs:928-952 | a failed child replays with the live kind if and only if its body error does not record the serialization type; operation, status and record are the same in both cases |
| `ReplayLimits.PropagatedSerializationFailure` | src/child.rs:715-733 | the case is reachable: a body that passes on a child whose result could not be serialized is ChildFailed live and Internal in every later invocation |
| `ReplayLimits.RebuiltExactlyWhenStable` | src/child.rs:614-620 | a child result that is not stored is rebuilt to the live result for every serdes behaviour if and only if all encodings of the value decode alike |
| `Unserialized.RepeatsExactlyWhen` | src/combinator.rs:1308-1311 | an invocation returns the serialization error, or nothing, for every settle order and serdes behaviour of the combinator if and only if no order of its completed inputs ends in a failure or in a value that can be encoded |
| `Unserialized.ErrorRepeatsExactlyWhen` | src/combinator.rs:1308-1311 | after a live run whose inputs all completed returned that error, every later invocation that completes the combinator returns it again, for all choices, if and only if the completed inputs can never be encoded |
| `Unserialized.ErrorInLaterInvocation` | src/combinator.rs:1308-1311 | when inputs were still running, what completed stays completed, and the later invocation repeats the error for every choice if and only if what has completed in it can never be encoded |
| `Unserialized.OneValueNeverEncoded` | src/combinator.rs:1308-1311 | for a combinator with one outcome for all settle orders the condition is that its one value can never be encoded |
| `Unserialized.UnserializedWinnerIsForgotten` | src/combinator.rs:702-712 | a race of two steps, run from an empty log and then from the log that run left, returns the error first and the other input's value after |
| `Unserialized.UnserializedCollectionIsForgotten` | src/combinator.rs:500-512 | it is not the order alone: a join_all of two steps does the same when only the serdes behaves differently |
| `Recovery.LiveChild` | src/child.rs:622-734 | what a live child records and returns is what its body means, for every outcome: stored, oversized, failed, not serializable |
| `Recovery.LiveJoin` | src/combinator.rs:695-738 | what a live combinator records and returns is what its inputs mean |
| `Recovery.AllSettledDecides` | src/combinator.rs:265-282 | once every input settled a combinator is decided |
| `Recovery.OpMakesSense` | src/child.rs:382-388 | from any log an interrupted invocation can leave, an operation returns its meaning if it returns, leaves such a log again, and returns if nothing interrupts it |
| `Recovery.ProgMakesSense` | src/child.rs:422-519 | the same for a handler or body |
| `Recovery.InterruptedRunsRecover` | src/child.rs:422-519 | any number of invocations interrupted anywhere, each from what the service kept of the last one's log, then one that completes, return what one uninterrupted invocation returns; and from every point an uninterrupted invocation completes |
| `OneRun.OpMerges` | src/child.rs:422-519 | two invocations of an operation of any shape, races among them, the second from what the service kept after the first, are one: some choices that follow the same world make a single run return the same and leave the same records, but for what was dropped |
| `OneRun.ProgMerges` | src/child.rs:422-519 | the same for a handler or body |
| `SettleOrder.DecidedStays` | src/combinator.rs:654-738 | an outcome that some inputs decided can be decided the same way whatever others complete |
| `Uninterrupted.ProgFinishes` | src/child.rs:422-519 | a run that completed although operations in it were stopped has a run that nothing stops with the same result |
| `Completion.ProgCompletes` | src/child.rs:422-519 | from every log, an invocation that nothing interrupts completes a handler that ends within the bound, whatever order its inputs settle in |
| `Uninterrupted.InterruptedRunsAreOneRun` | src/child.rs:422-519 | for handlers with races too: an invocation that completes after any number of interrupted ones, with drops between them, returns what some uninterrupted run of the same world returns from an empty log; and from every point an uninterrupted invocation completes a handler that ends within the bound |
| `Invocations.Invocation.Start` | src/child.rs:365-413 | a START is written exactly for an operation without a record |
| `Invocations.Invocation.BeforeChild` | src/child.rs:422-480 | the record decides: replayed, resumed, started, or run again to rebuild |
| `Invocations.Invocation.SettleChild` | src/child.rs:594-734 | a live outcome is written before it is returned; a reconstruction writes nothing |
| `Invocations.Invocation.RunChild` | src/child.rs:224-305 | a child context does what the interpreter says |
| `Invocations.Invocation.RunBody` | src/child.rs:224-305 | a body does, operation by operation, what the interpreter says |
| `Invocations.Invocation.RunInputs` | src/combinator.rs:983-1037 | the inputs of a combinator do what the interpreter says |
| `Invocations.Invocation.CheckpointJoin` | src/combinator.rs:1321-1361 | the outcome write of a join, and the value a replay of it returns |
| `Invocations.Invocation.SettleJoin` | src/combinator.rs:695-738 | a live join waits, is refused by a fatal error, is left unrecorded when it cannot be serialized, or is written and returned, as the interpreter says |
| `Invocations.Invocation.ReplayWinner` | src/combinator.rs:1379-1403 | a recorded winner is parsed, checked against the inputs and driven alone, as the interpreter says |
| `Invocations.Invocation.BeforeCombine` | src/combinator.rs:204-246 | the record of a combinator decides how it runs |
| `Invocations.Invocation.Rebuild` | src/combinator.rs:327-346 | a collection that is not stored is joined again without a write |
| `Invocations.Invocation.Execute` | src/combinator.rs:186-347 | a combinator does what the interpreter says |
| `WaitForCallback.WaitForCallbackExecution.RunSubmitter` | src/callback.rs:1001-1030 | the submitter step starts, is sent and is recorded, or returns what its record holds |
| `WaitForCallback.WaitForCallbackExecution.AwaitCallback` | src/callback.rs:331-404 | the result is the outcome the callback record holds, now or once it settled |
| `WaitForCallback.WaitForCallbackExecution.RunBody` | src/callback.rs:989-1047 | callback, then submitter, then result, each from its record when it has one |
| `WaitForCallback.WaitForCallbackExecution.SettleBody` | src/callback.rs:888-978 | the outer outcome is written before it is returned |
| `WaitForCallback.WaitForCallbackExecution.Execute` | src/callback.rs:515-648 | one invocation of the whole operation, against its specification |
| `WaitForCallback.LiveErrorIsReplayed` | src/callback.rs:1199-1269 | every error a live run returns equals, in kind, operation, status and record, what replaying the outer FAIL it wrote gives, for every body error |
| `CallbackCauses.OutcomeHasCause` | src/callback.rs:515-648 | the invocation that decides the operation returns the decoded payload of a callback that succeeded, or the recorded failure with its kind, each with its cause in the records: a timeout, a missed heartbeat, an external failure, the submitter's failure, or a callback without an ID |
| `CallbackCauses.TimedOutExactly` | src/callback.rs:404-430 | a callback with the status TIMED_OUT is recorded and replayed as a missed heartbeat exactly when its type says so, and as a timeout otherwise |
| `WaitForCallback.ExternalFailureExactly` | src/callback.rs:1138-1144 | a callback that failed, was cancelled or was stopped is recorded and replayed as an external failure with the caller's message and data if and only if the caller's type is neither timeout type of the SDK; with one of them it is recorded and replayed as that timeout, without the data |
| `WaitForCallback.ExternalTimeoutIsTakenForOne` | src/callback.rs:1236-1257 | the case is reachable: one invocation whose caller fails the callback with the type of a timeout returns and records a timeout, and the caller's message and data are lost |
| `WaitForCallback.RunWritesLegally` | src/callback.rs:515-648 | one invocation writes START only without a record and an outcome only after it, for the operation, its callback and its submitter |
| `WaitForCallback.OneCycleForEachOperation` | src/callback.rs:515-648 | over every execution the operation and its submitter each get at most a START and then one outcome, and the callback gets at most a START |
| `WaitForCallback.BodyReplays` | src/callback.rs:814-821 | the body of a recorded success returns the recorded payload again and writes nothing |
| `WaitForCallback.OuterPayloadIsCallbackPayload` | src/callback.rs:888-902 | in every execution the payload of the outer SUCCEED is that of the inner callback, byte for byte, or null |
| `WaitForCallback.CompletedIsRecorded` | src/callback.rs:515-548 | what an invocation returns is settled by the records it left: the replayed error, or one user decode of the recorded payload |
| `WaitForCallback.OneResult` | src/callback.rs:804-854 | any two completing invocations of one execution return the same, whatever came between, and the later one changes no record |
| `CallbackLeaves.RunsAsLeaf` | src/callback.rs:515-648 | one invocation of the operation is one run of a leaf of a handler: from the same outer record it returns the same, leaves the same outer record and writes the same to it |
| `CallbackLeaves.ExecutionRunsAsLeaf` | src/callback.rs:515-648 | over every execution all invocations are runs of a leaf with one outcome, so the theorems about handlers hold of an operation in a child or under a combinator |
| `Client.GetFullState` | src/client.rs:543-561 | the concatenation of all pages along the marker chain, or the first error |
| `Client.PagesInOrder` | src/client.rs:543-561 | the operations of a further page go behind all earlier ones, and a page that failed ends the read with its error |
| `Client.FirstErrorWins` | src/client.rs:543-561 | the read fails with an error exactly when it is that of the first page that failed |
| `Client.ResolveBootstrapLog` | src/client.rs:1146-1184 | from the state of the inline page, the first error, or a state that names the first EXECUTION operation of all pages with its input, none exactly when there is none, and that holds for every other ID the status and the details of its last operation |
| `Client.ResolvedIsWhole` | src/client.rs:1146-1184 | reading page by page gives the state of the operations all pages hold, or the first page's error |
| `Client.PageBoundariesDoNotMatter` | src/client.rs:1146-1184 | two marker chains with the same operations behind any two inline pages are resolved to the same state, and two that end in the same error to that error, wherever their pages end |
| `Client.MergeOperationsIntoLog` | src/client.rs:1094-1110 | the log holds for each ID the status and the details of its last operation, EXECUTION apart, and what it held before for the others; the IDs whose status changed come in order |
| `Client.MergeComposes` | src/client.rs:1094-1110 | merging one response and then another is merging both, with the changed lists appended |
| `Client.UnreportedKeepsStatus` | src/client.rs:1088-1110 | an ID that is not reported keeps its status, or stays absent |
| `Client.ExecutionNeverEnters` | src/client.rs:1085-1102 | EXECUTION operations change neither the log nor the list |
| `Client.MergingAgainReportsNothing` | src/client.rs:1094-1110 | a response that is merged again reports nothing if and only if its non-EXECUTION operations with one ID have one status |
| `Client.RepeatedIdReportsAgain` | src/client.rs:1094-1110 | without distinct IDs it can report the same IDs every time |

## Left out

- HTTP, AWS SDK calls, retries and error-scope classification of `src/client.rs`: transport.
- Tokio, plugin hooks, tracing, telemetry and replay events: they observe and do not decide.
- `map`, `parallel`, invoke, waits and wait-for-condition: a step is modelled only as a recorded leaf.
- Task ownership, identity checks on replay, unclaimed combinator inputs, unknown statuses: each ends the execution with a usage error before any write the model has.
- The bound that an estimated size is at least the wire size: quotes and commas of `stack_trace` are covered by a fixed allowance only.
- `build_callback_options` and its float ceiling: one expression.
- Real serde: encoding and decoding are arbitrary functions, but for the losers payload, the winner record and the join index, which are written out. The reader of `Json` takes no whitespace and no `null`, which the SDK never writes there.
- Serdes errors marked retryable: they end the invocation, as an interruption at the next write does.
- The text of errors: a handler sees kinds, operations, recorded failures and the messages of errors without a record, not the flattened display text of a source chain. An error without a record is given no data and no frames when it is recorded.
- A reconstructed body that fails although its record succeeded: its error carries no record, as in the source; what its source chain would add to a later record is not modelled.
- PipelineTheorems.PrefixExactlyWithoutSkips: the converse is for admitted updates that are pairwise distinct; among equal ones a skipped update cannot be told from a later one in the record.
- PipelineTheorems.SleeperGetsThrough: states that the wakeup path is open, not that a scheduler takes it.
- PipelineTheorems.PermitsCountJoins: a permit of a batch given up without a runtime may be released earlier in the model than in the source, where the contributor publishes first; the model has more runs.
- PipelineTheorems.FlushPointIsBarrier: the writer lock is one place for one flusher, and flushers that wait for it have no state; any of them may take it at any time.
- Recovery.InterruptedRunsRecover: for handlers with a meaning, that is with deterministic leaves, combinators with one outcome for all settle orders, a serdes whose encodings decode alike, and no body error that records the serialization type. Handlers with a successful race or select_ok are covered by `Uninterrupted.InterruptedRunsAreOneRun`.
- Uninterrupted.InterruptedRunsAreOneRun: for worlds in which no run has a child body that fails with the serialization type or a combinator result that cannot be encoded, and for a serdes whose encodings decode alike. What fails without these conditions is in `ReplayLimits` and `Unserialized`. That an uninterrupted invocation completes is for handlers that end within the bound, whatever results they are given.
- CallbackLeaves.RunsAsLeaf: the records of the callback and the submitter are below the leaf and not in the handler's log; that their writes are legal is `WaitForCallback.OneCycleForEachOperation`.
- Replay.OpReplays: a run is bounded by a number of nested operations, as large as wanted; a run beyond it counts as interrupted.
- Client.GetFullState: takes a marker chain that ends, given as the list of its pages; on an endless chain the source does not return.
- Handlers run their operations one after the other; concurrency inside a handler is that of combinator inputs, whose records are disjoint, so they are run in input order with every input free to stop anywhere.
- Class Invocation: one object does what the source spreads over futures and tasks; cancellation is an oracle choice.
