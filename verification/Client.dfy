/** Rebuilding the checkpoint log from pages, and merging what a checkpoint response brings. */
module Client {
  import opened Options

  /** Whether the status is one the SDK knows does not matter here: it is compared as it is. */
  type Status = string

  datatype OperationType = Execution | Context | Step | Wait | Callback | ChainedInvoke

  /** An operation as the service returns it. details stands for every field but the status. */
  datatype Operation = Operation(id: string, kind: OperationType, status: Status, details: string,
    inputPayload: Option<string>)

  datatype CheckpointRecord = CheckpointRecord(status: Status, details: string)

  type CheckpointLog = map<string, CheckpointRecord>

  function RecordOf(op: Operation): CheckpointRecord {
    CheckpointRecord(op.status, op.details)
  }

  /** What the service answers a state read with: a page and the marker of the next one, or an error. */
  datatype StateOutput = Page(operations: seq<Operation>, next: Option<string>) | Failed(error: string)

  type StateReads = Option<string> -> StateOutput

  datatype Result<T> = Success(value: T) | Failure(error: string)

  // ----- Marker chains -----

  /** The pages that the reads from marker give, one behind the other, are those of pages. A chain of
      markers that never ends has no such list: the source loops on it as the service asks it to. */
  predicate Follows(service: StateReads, marker: Option<string>, pages: seq<StateOutput>)
    decreases |pages|
  {
    pages != [] && service(marker) == pages[0]
    && (if pages[0].Page? && pages[0].next.Some? then Follows(service, pages[0].next, pages[1..]) else |pages| == 1)
  }

  /** The operations of the pages, or the error of the first that failed. */
  function Concatenated(pages: seq<StateOutput>): Result<seq<Operation>> {
    if pages == [] then Success([])
    else if pages[0].Failed? then Failure(pages[0].error)
    else
      var rest := Concatenated(pages[1..]);
      if rest.Failure? then rest else Success(pages[0].operations + rest.value)
  }

  /** What was read, with what is still to be read behind it. */
  function Behind(read: seq<Operation>, rest: Result<seq<Operation>>): Result<seq<Operation>> {
    if rest.Failure? then rest else Success(read + rest.value)
  }

  lemma {:induction false} ReadOne(read: seq<Operation>, pages: seq<StateOutput>)
    requires pages != [] && pages[0].Page?
    ensures Behind(read, Concatenated(pages)) == Behind(read + pages[0].operations, Concatenated(pages[1..]))
  {
    var rest := Concatenated(pages[1..]);
    if rest.Success? {
      assert read + (pages[0].operations + rest.value) == read + pages[0].operations + rest.value;
    }
  }

  lemma {:induction false} ReadNone(r: Result<seq<Operation>>)
    ensures Behind([], r) == r
  {
    if r.Success? { assert [] + r.value == r.value; }
  }

  /** The pages are read in the order of the chain, and a page that failed ends it with its error. */
  lemma {:induction false} PagesInOrder(pages: seq<StateOutput>, page: StateOutput)
    requires Concatenated(pages).Success?
    ensures Concatenated(pages + [page])
         == if page.Failed? then Failure(page.error) else Success(Concatenated(pages).value + page.operations)
    decreases |pages|
  {
    if pages == [] {
      assert pages + [page] == [page] && [page][1..] == [];
      if page.Page? { assert page.operations + [] == [] + page.operations; }
    } else {
      assert (pages + [page])[1..] == pages[1..] + [page];
      PagesInOrder(pages[1..], page);
      if page.Page? {
        var first, rest := pages[0].operations, Concatenated(pages[1..]).value;
        assert first + (rest + page.operations) == first + rest + page.operations;
      }
    }
  }

  /** The result is an error exactly when some page failed, and then that of the first. */
  lemma {:induction false} FirstErrorWins(pages: seq<StateOutput>, error: string)
    ensures Concatenated(pages) == Failure(error)
       <==> exists i :: 0 <= i < |pages| && pages[i] == Failed(error) && forall j :: 0 <= j < i ==> pages[j].Page?
    decreases |pages|
  {
    if pages != [] {
      FirstErrorWins(pages[1..], error);
      if pages[0].Page? && Concatenated(pages[1..]) == Failure(error) {
        var i :|
          && 0 <= i < |pages[1..]| && pages[1..][i] == Failed(error)
          && forall j :: 0 <= j < i ==> pages[1..][j].Page?;
        assert pages[i + 1] == Failed(error);
        forall j | 0 <= j < i + 1 ensures pages[j].Page? { if j > 0 { assert pages[j] == pages[1..][j - 1]; } }
      }
      if i :| 0 <= i < |pages| && pages[i] == Failed(error) && forall j :: 0 <= j < i ==> pages[j].Page? {
        if i > 0 {
          assert pages[1..][i - 1] == Failed(error);
          forall j | 0 <= j < i - 1 ensures pages[1..][j].Page? { assert pages[1..][j] == pages[j + 1]; }
        }
      }
    }
  }

  /** get_full_state */
  method GetFullState(service: StateReads, ghost pages: seq<StateOutput>) returns (r: Result<seq<Operation>>)
    requires Follows(service, None, pages)
    ensures r == Concatenated(pages)
  {
    var operations: seq<Operation> := [];
    var marker: Option<string> := None;
    ghost var left := pages;
    ReadNone(Concatenated(pages));
    while true
      invariant Follows(service, marker, left)
      invariant Concatenated(pages) == Behind(operations, Concatenated(left))
      decreases |left|
    {
      var page := service(marker);
      if page.Failed? {
        return Failure(page.error);
      }
      ReadOne(operations, left);
      operations := operations + page.operations;
      if page.next.None? {
        assert left[1..] == [] && operations + [] == operations;
        return Success(operations);
      }
      marker := page.next;
      left := left[1..];
    }
  }

  // ----- Bootstrap -----

  /** execution is the EXECUTION operation that was read first, if one was. */
  datatype BootstrapState = BootstrapState(log: CheckpointLog, inputPayload: Option<string>,
    execution: Option<Operation>)

  /** The log after the operations were inserted in order, without EXECUTION operations. */
  function Inserted(log: CheckpointLog, ops: seq<Operation>): CheckpointLog {
    if ops == [] then log
    else
      var before := Inserted(log, ops[..|ops| - 1]);
      var op := ops[|ops| - 1];
      if op.kind.Execution? then before else before[op.id := RecordOf(op)]
  }

  function FirstExecution(ops: seq<Operation>): Option<Operation> {
    if ops == [] then None else if ops[0].kind.Execution? then Some(ops[0]) else FirstExecution(ops[1..])
  }

  /** The state that a whole sequence of operations gives, wherever its pages end. */
  function StateOf(ops: seq<Operation>): BootstrapState {
    var execution := FirstExecution(ops);
    BootstrapState(Inserted(map[], ops), if execution.Some? then execution.value.inputPayload else None, execution)
  }

  lemma {:induction false} InsertedConcat(log: CheckpointLog, a: seq<Operation>, b: seq<Operation>)
    ensures Inserted(log, a + b) == Inserted(Inserted(log, a), b)
  {
    if b == [] {
      assert a + b == a;
    } else {
      InsertedConcat(log, a, b[..|b| - 1]);
      assert (a + b)[..|a + b| - 1] == a + b[..|b| - 1];
    }
  }

  lemma {:induction false} FirstConcat(a: seq<Operation>, b: seq<Operation>)
    ensures FirstExecution(a + b) == if FirstExecution(a).Some? then FirstExecution(a) else FirstExecution(b)
  {
    if a == [] {
      assert a + b == b;
    } else {
      FirstConcat(a[1..], b);
      assert (a + b)[1..] == a[1..] + b;
    }
  }

  /** Finds the first EXECUTION operation of a page. */
  method FindExecution(ops: seq<Operation>) returns (op: Option<Operation>)
    ensures op == FirstExecution(ops)
  {
    for i := 0 to |ops|
      invariant FirstExecution(ops) == FirstExecution(ops[i..])
    {
      if ops[i].kind == Execution {
        return Some(ops[i]);
      }
      assert ops[i..][1..] == ops[i + 1..];
    }
    op := None;
  }

  /** Inserts the operations of a page, without EXECUTION operations. */
  method InsertPage(log: CheckpointLog, ops: seq<Operation>) returns (after: CheckpointLog)
    ensures after == Inserted(log, ops)
  {
    after := log;
    for i := 0 to |ops|
      invariant after == Inserted(log, ops[..i])
    {
      assert ops[..i + 1][..i] == ops[..i];
      if ops[i].kind != Execution {
        after := after[ops[i].id := RecordOf(ops[i])];
      }
    }
    assert ops[..|ops|] == ops;
  }

  lemma {:induction false} StateConcat(a: seq<Operation>, b: seq<Operation>)
    ensures
      var first, second := StateOf(a), StateOf(b);
      && StateOf(a + b).execution == (if first.execution.Some? then first.execution else second.execution)
      && StateOf(a + b).inputPayload == (if first.execution.Some? then first.inputPayload else second.inputPayload)
      && StateOf(a + b).log == Inserted(first.log, b)
  {
    FirstConcat(a, b);
    InsertedConcat(map[], a, b);
  }

  /** What one fetched page adds: its operations, and, while none was read, the first EXECUTION
      operation with its input, present or not. */
  function WithPage(state: BootstrapState, ops: seq<Operation>): BootstrapState {
    var found := if state.execution.Some? then None else FirstExecution(ops);
    BootstrapState(
      Inserted(state.log, ops),
      if found.Some? then found.value.inputPayload else state.inputPayload,
      if found.Some? then found else state.execution)
  }

  /** The state that the pages lead to, or the error of the first that failed. */
  function Resolved(state: BootstrapState, pages: seq<StateOutput>): Result<BootstrapState>
    decreases |pages|
  {
    if pages == [] then Success(state)
    else if pages[0].Failed? then Failure(pages[0].error)
    else Resolved(WithPage(state, pages[0].operations), pages[1..])
  }

  /** What the state says of the operations that were read, each by its place: the first EXECUTION operation with
      its input, and of every other ID the operation that was read last. */
  ghost predicate Describes(state: BootstrapState, ops: seq<Operation>) {
    && (state.execution.None? <==> forall i :: 0 <= i < |ops| ==> ops[i].kind != Execution)
    && (state.execution.Some? ==>
          && state.inputPayload == state.execution.value.inputPayload
          && exists i :: 0 <= i < |ops| && ops[i] == state.execution.value && ops[i].kind == Execution
                         && forall j :: 0 <= j < i ==> ops[j].kind != Execution)
    && (state.execution.None? ==> state.inputPayload.None?)
    && HoldsLast(map[], ops, state.log)
  }

  /** Operation i is the last with its ID, EXECUTION operations apart. */
  ghost predicate IsLast(ops: seq<Operation>, i: nat) {
    && i < |ops| && ops[i].kind != Execution
    && forall j :: i < j < |ops| && ops[j].kind != Execution ==> ops[j].id != ops[i].id
  }

  /** The log after the operations were read into it: of every ID the last operation, with all its fields, and
      of an ID that none of them has what was there before. */
  ghost predicate HoldsLast(log: CheckpointLog, ops: seq<Operation>, after: CheckpointLog) {
    && (forall i: nat :: IsLast(ops, i) ==>
          && ops[i].id in after
          && after[ops[i].id].status == ops[i].status && after[ops[i].id].details == ops[i].details)
    && (forall id :: (forall i :: 0 <= i < |ops| && ops[i].kind != Execution ==> ops[i].id != id) ==>
          (id in after <==> id in log) && (id in after ==> after[id] == log[id]))
  }

  lemma {:induction false} InsertedHoldsLast(log: CheckpointLog, ops: seq<Operation>)
    ensures HoldsLast(log, ops, Inserted(log, ops))
  {
    if ops != [] {
      var init, last := ops[..|ops| - 1], ops[|ops| - 1];
      InsertedHoldsLast(log, init);
      forall i: nat | IsLast(ops, i)
        ensures
          var after := Inserted(log, ops);
          && ops[i].id in after
          && after[ops[i].id].status == ops[i].status && after[ops[i].id].details == ops[i].details
      {
        if i < |init| {
          assert init[i] == ops[i];
          forall j | i < j < |init| && init[j].kind != Execution ensures init[j].id != init[i].id {
            assert ops[j] == init[j];
          }
          assert IsLast(init, i);
        }
      }
      forall id | forall i :: 0 <= i < |ops| && ops[i].kind != Execution ==> ops[i].id != id
        ensures
          var after := Inserted(log, ops);
          (id in after <==> id in log) && (id in after ==> after[id] == log[id])
      {
        forall i | 0 <= i < |init| && init[i].kind != Execution ensures init[i].id != id { assert ops[i] == init[i]; }
      }
    }
  }

  lemma {:induction false} FirstExecutionIsFirst(ops: seq<Operation>)
    ensures FirstExecution(ops).None? <==> forall i :: 0 <= i < |ops| ==> ops[i].kind != Execution
    ensures FirstExecution(ops).Some? ==>
      exists i :: 0 <= i < |ops| && ops[i] == FirstExecution(ops).value && ops[i].kind == Execution
                  && forall j :: 0 <= j < i ==> ops[j].kind != Execution
  {
    if ops != [] && !ops[0].kind.Execution? {
      FirstExecutionIsFirst(ops[1..]);
      if FirstExecution(ops).Some? {
        var i :| 0 <= i < |ops[1..]| && ops[1..][i] == FirstExecution(ops).value && ops[1..][i].kind == Execution
                 && forall j :: 0 <= j < i ==> ops[1..][j].kind != Execution;
        forall j | 0 <= j < i + 1 ensures ops[j].kind != Execution { if j > 0 { assert ops[j] == ops[1..][j - 1]; } }
        assert ops[i + 1] == FirstExecution(ops).value;
      } else {
        forall i | 0 <= i < |ops| ensures ops[i].kind != Execution { if i > 0 { assert ops[i] == ops[1..][i - 1]; } }
      }
    }
  }

  lemma StateDescribes(ops: seq<Operation>)
    ensures Describes(StateOf(ops), ops)
  {
    FirstExecutionIsFirst(ops);
    InsertedHoldsLast(map[], ops);
  }

  /** resolve_bootstrap_log: page by page along the marker chain, and the first page never again. */
  method ResolveBootstrapLog(
      service: StateReads, firstPage: BootstrapState, nextMarker: Option<string>, ghost pages: seq<StateOutput>)
    returns (r: Result<BootstrapState>)
    requires if nextMarker.Some? then Follows(service, nextMarker, pages) else pages == []
    ensures r == Resolved(firstPage, pages)
    ensures forall inline :: firstPage == StateOf(inline) ==> r == Whole(Behind(inline, Concatenated(pages)))
    ensures forall inline :: firstPage == StateOf(inline) ==>
      if Concatenated(pages).Failure? then r == Failure(Concatenated(pages).error)
      else r.Success? && Describes(r.value, inline + Concatenated(pages).value)
  {
    var state := firstPage;
    var marker := nextMarker;
    ghost var left := pages;
    while marker.Some?
      invariant if marker.Some? then Follows(service, marker, left) else left == []
      invariant Resolved(firstPage, pages) == Resolved(state, left)
      decreases |left|
    {
      var page := service(marker);
      if page.Failed? {
        ResolvesWhole(firstPage, pages);
        return Failure(page.error);
      }
      marker := page.next;
      ghost var before := state;
      if state.execution.None? {
        var op := FindExecution(page.operations);
        if op.Some? {
          state := state.(inputPayload := op.value.inputPayload, execution := op);
        }
      }
      var log := InsertPage(state.log, page.operations);
      state := state.(log := log);
      assert state == WithPage(before, page.operations);
      left := left[1..];
    }
    ResolvesWhole(firstPage, pages);
    r := Success(state);
  }

  /** The state of a whole sequence of operations, when no page of it failed. */
  function Whole(ops: Result<seq<Operation>>): Result<BootstrapState> {
    if ops.Failure? then Failure(ops.error) else Success(StateOf(ops.value))
  }

  /** Resolving page by page gives the state of the whole sequence. */
  lemma {:induction false} ResolvedIsWhole(inline: seq<Operation>, pages: seq<StateOutput>)
    ensures Resolved(StateOf(inline), pages) == Whole(Behind(inline, Concatenated(pages)))
    decreases |pages|
  {
    if pages == [] {
      assert inline + [] == inline;
    } else if pages[0].Page? {
      StateConcat(inline, pages[0].operations);
      ReadOne(inline, pages);
      ResolvedIsWhole(inline + pages[0].operations, pages[1..]);
    }
  }

  lemma ResolvesWhole(firstPage: BootstrapState, pages: seq<StateOutput>)
    ensures forall inline ::
      firstPage == StateOf(inline) ==> Resolved(firstPage, pages) == Whole(Behind(inline, Concatenated(pages)))
    ensures forall inline :: firstPage == StateOf(inline) && Concatenated(pages).Success? ==>
      Describes(StateOf(inline + Concatenated(pages).value), inline + Concatenated(pages).value)
  {
    hide Describes;
    forall inline | firstPage == StateOf(inline)
      ensures Resolved(firstPage, pages) == Whole(Behind(inline, Concatenated(pages)))
      ensures Concatenated(pages).Success? ==>
        Describes(StateOf(inline + Concatenated(pages).value), inline + Concatenated(pages).value)
    {
      ResolvedIsWhole(inline, pages);
      if Concatenated(pages).Success? { StateDescribes(inline + Concatenated(pages).value); }
    }
  }

  /** Bootstrap does not depend on where the pages end: two ways to cut one sequence of operations, or one
      that ends in an error, into an inline page and fetched pages resolve to the same. */
  lemma PageBoundariesDoNotMatter(
      inline: seq<Operation>, pages: seq<StateOutput>, inline': seq<Operation>, pages': seq<StateOutput>)
    requires Behind(inline, Concatenated(pages)) == Behind(inline', Concatenated(pages'))
    ensures Resolved(StateOf(inline), pages) == Resolved(StateOf(inline'), pages')
  {
    ResolvedIsWhole(inline, pages);
    ResolvedIsWhole(inline', pages');
  }

  // ----- Merging a checkpoint response -----

  /** The IDs whose status changed, in input order, when the operations are inserted one by one. */
  function Changed(log: CheckpointLog, ops: seq<Operation>): seq<string> {
    if ops == [] then []
    else
      var init, op := ops[..|ops| - 1], ops[|ops| - 1];
      var before := Inserted(log, init);
      Changed(log, init)
      + (if op.kind.Execution? || (op.id in before && before[op.id].status == op.status) then [] else [op.id])
  }

  /** merge_operations_into_log */
  method MergeOperationsIntoLog(
      log: CheckpointLog, ops: seq<Operation>) returns (merged: CheckpointLog, changed: seq<string>)
    ensures merged == Inserted(log, ops) && changed == Changed(log, ops)
    ensures HoldsLast(log, ops, merged)
  {
    InsertedHoldsLast(log, ops);
    merged, changed := log, [];
    for i := 0 to |ops|
      invariant merged == Inserted(log, ops[..i]) && changed == Changed(log, ops[..i])
    {
      assert ops[..i + 1][..i] == ops[..i];
      var op := ops[i];
      if op.kind == Execution {
        continue;
      }
      var previous := if op.id in merged then Some(merged[op.id].status) else None;
      merged := merged[op.id := RecordOf(op)];
      if previous != Some(op.status) {
        changed := changed + [op.id];
      }
    }
    assert ops[..|ops|] == ops;
  }

  /** Merging two responses one after the other is merging both at once. */
  lemma {:induction false} MergeComposes(log: CheckpointLog, a: seq<Operation>, b: seq<Operation>)
    ensures Inserted(log, a + b) == Inserted(Inserted(log, a), b)
    ensures Changed(log, a + b) == Changed(log, a) + Changed(Inserted(log, a), b)
  {
    InsertedConcat(log, a, b);
    if b == [] {
      assert a + b == a;
    } else {
      var init := b[..|b| - 1];
      assert (a + b)[..|a + b| - 1] == a + init;
      InsertedConcat(log, a, init);
      MergeComposes(log, a, init);
    }
  }

  /** An ID that is not reported keeps its status: it has the record it had, up to fields that do not
      count, or none as before. */
  lemma {:induction false} UnreportedKeepsStatus(log: CheckpointLog, ops: seq<Operation>, id: string)
    requires id !in Changed(log, ops)
    ensures id in Inserted(log, ops) <==> id in log
    ensures id in log ==> Inserted(log, ops)[id].status == log[id].status
  {
    if ops != [] {
      UnreportedKeepsStatus(log, ops[..|ops| - 1], id);
    }
  }

  /** What an EXECUTION operation holds never reaches the log: the log is what the others give. */
  function WithoutExecution(ops: seq<Operation>): seq<Operation> {
    if ops == [] then []
    else WithoutExecution(ops[..|ops| - 1]) + (if ops[|ops| - 1].kind.Execution? then [] else [ops[|ops| - 1]])
  }

  lemma {:induction false} ExecutionNeverEnters(log: CheckpointLog, ops: seq<Operation>)
    ensures Inserted(log, ops) == Inserted(log, WithoutExecution(ops))
    ensures Changed(log, ops) == Changed(log, WithoutExecution(ops))
    ensures forall op | op in WithoutExecution(ops) :: op in ops && !op.kind.Execution?
  {
    if ops != [] {
      var init, last := ops[..|ops| - 1], ops[|ops| - 1];
      ExecutionNeverEnters(log, init);
      if !last.kind.Execution? {
        var before := WithoutExecution(init);
        var kept := before + [last];
        assert kept[..|kept| - 1] == before && kept[|kept| - 1] == last;
        assert WithoutExecution(ops) == kept;
      } else {
        assert WithoutExecution(ops) == WithoutExecution(init);
      }
    }
  }

  /** Operations with one ID have one status; EXECUTION operations do not count. */
  ghost predicate OneStatusForEachId(ops: seq<Operation>) {
    forall a, b | a in ops && b in ops && !a.kind.Execution? && !b.kind.Execution? && a.id == b.id ::
      a.status == b.status
  }

  /** The log holds the status of every operation. */
  ghost predicate Holds(log: CheckpointLog, ops: seq<Operation>) {
    forall op | op in ops && !op.kind.Execution? :: op.id in log && log[op.id].status == op.status
  }

  lemma {:induction false} InsertedHolds(log: CheckpointLog, ops: seq<Operation>)
    requires OneStatusForEachId(ops)
    ensures Holds(Inserted(log, ops), ops)
  {
    if ops != [] {
      var init, last := ops[..|ops| - 1], ops[|ops| - 1];
      assert ops == init + [last];
      InsertedHolds(log, init);
    }
  }

  /** What reports nothing holds the log's own statuses. */
  lemma {:induction false} NothingReportedHolds(log: CheckpointLog, ops: seq<Operation>)
    requires Changed(log, ops) == []
    ensures Holds(log, ops)
  {
    if ops != [] {
      var init, last := ops[..|ops| - 1], ops[|ops| - 1];
      assert ops == init + [last];
      NothingReportedHolds(log, init);
      SameStatuses(log, init);
      if !last.kind.Execution? && last.id !in log { InsertedOnlyWhatIsHeld(log, init, last.id); }
    }
  }

  lemma {:induction false} InsertedOnlyWhatIsHeld(log: CheckpointLog, ops: seq<Operation>, id: string)
    requires Holds(log, ops) && id in Inserted(log, ops)
    ensures id in log
  {
    if ops != [] {
      var init, last := ops[..|ops| - 1], ops[|ops| - 1];
      assert ops == init + [last];
      if id in Inserted(log, init) { InsertedOnlyWhatIsHeld(log, init, id); }
    }
  }

  lemma {:induction false} HoldingReportsNothing(log: CheckpointLog, ops: seq<Operation>)
    requires Holds(log, ops)
    ensures Changed(log, ops) == [] && Holds(Inserted(log, ops), ops)
  {
    if ops != [] {
      var init := ops[..|ops| - 1];
      assert forall op :: op in init ==> op in ops;
      HoldingReportsNothing(log, init);
      SameStatuses(log, init);
      SameStatuses(log, ops);
      assert ops[|ops| - 1] in ops;
    }
  }

  /** Merging operations whose statuses the log holds changes no status. */
  lemma {:induction false} SameStatuses(log: CheckpointLog, ops: seq<Operation>)
    requires Holds(log, ops)
    ensures forall id | id in log :: id in Inserted(log, ops) && Inserted(log, ops)[id].status == log[id].status
  {
    if ops != [] {
      var init := ops[..|ops| - 1];
      assert forall op :: op in init ==> op in ops;
      assert ops[|ops| - 1] in ops;
      SameStatuses(log, init);
    }
  }

  /** A response that arrives twice reports nothing the second time if and only if it holds one status for
      each ID. */
  lemma MergingAgainReportsNothing(log: CheckpointLog, ops: seq<Operation>)
    ensures Changed(Inserted(log, ops), ops) == [] <==> OneStatusForEachId(ops)
  {
    if OneStatusForEachId(ops) {
      InsertedHolds(log, ops);
      HoldingReportsNothing(Inserted(log, ops), ops);
    }
    if Changed(Inserted(log, ops), ops) == [] {
      NothingReportedHolds(Inserted(log, ops), ops);
    }
  }

  /** An operation that the response holds with two statuses is reported twice every time. */
  lemma RepeatedIdReportsAgain(log: CheckpointLog, op: Operation, status: Status)
    requires !op.kind.Execution? && status != op.status
    ensures
      var ops := [op, op.(status := status)];
      Changed(Inserted(log, ops), ops) == [op.id, op.id]
  {
    var other := op.(status := status);
    var ops := [op, other];
    InsertedTwo(map[], op, other);
    InsertedTwo(log, op, other);
    var once := Inserted(log, ops);
    InsertedTwo(once, op, other);
  }

  lemma {:induction false} InsertedTwo(log: CheckpointLog, op: Operation, other: Operation)
    requires !op.kind.Execution? && !other.kind.Execution? && other.id == op.id && other.status != op.status
    ensures Inserted(log, [op, other]) == log[op.id := RecordOf(op)][op.id := RecordOf(other)]
    ensures Changed(log, [op, other])
         == (if op.id in log && log[op.id].status == op.status then [] else [op.id]) + [op.id]
  {
    var ops := [op, other];
    assert ops[..1] == [op] && [op][..0] == [];
    assert Inserted(log, [op]) == log[op.id := RecordOf(op)];
    assert Changed(log, [op])
      == Changed(log, []) + (if op.id in log && log[op.id].status == op.status then [] else [op.id]);
  }
}
