/** One invocation as the object it is: a checkpoint log that its operations read, and writes that
    change it as they are acknowledged. Each method follows one path of the source and does what
    the interpreter in module Handlers says.
 */
module Invocations {
  import opened Options
  import opened Records
  import opened Errors
  import opened Combinators
  import opened Decimals
  import F = CombinatorFailures
  import H = Handlers
  import O = SettleOrder

  type Op = H.Op
  type Prog = H.Prog

  /** Why a child body runs: live, or again for a result that its record does not store. */
  datatype Mode = Live | Reconstruct

  /** What the record of an operation decides before its body or its inputs run. */
  datatype Prelude = Done(result: OpResult) | Refused | Run(mode: Mode)

  class Invocation {
    const codec: H.Codec
    const choices: H.Oracle
    var log: Log
    var writes: seq<Write>

    constructor (codec: H.Codec, choices: H.Oracle, log: Log)
      ensures this.codec == codec && this.choices == choices && this.log == log && writes == []
    {
      this.codec, this.choices, this.log, this.writes := codec, choices, log, [];
    }

    /** A write that the service acknowledged. */
    method Record(w: Write)
      modifies this
      ensures log == AfterWrite(old(log), w) && writes == old(writes) + [w]
    {
      log := log[w.id := RecordOf(w.action)];
      writes := writes + [w];
    }

    /** The start step: queues the START of an operation without a record. Nothing that follows is
        acknowledged when the START is not. */
    method Start(x: Id) returns (admitted: bool)
      modifies this
      ensures admitted == (x in old(log) || choices(x).start)
      ensures admitted ==> log == H.Begun(old(log), x) && writes == old(writes) + H.Begin(old(log), x)
      ensures !admitted ==> log == old(log) && writes == old(writes)
    {
      if x in log {
        return true;
      }
      if !choices(x).start {
        return false;
      }
      Record(Write(x, Action.Start));
      admitted := true;
    }

    method RunLeaf(source: H.LeafKind, x: Id, ghost next: nat) returns (r: Option<OpResult>)
      modifies this
      ensures
        var e := H.RunLeaf(codec, source, choices(x), old(log), x, next);
        r == e.result && log == e.log && writes == old(writes) + e.writes
    {
      if x in log && (log[x].status.Succeeded? || log[x].status.Failed?) {
        return Some(H.ReplayLeaf(codec, source, x, log[x]));
      }
      var admitted := Start(x);
      if !admitted || choices(x).leaf.None? || !choices(x).end {
        return None;
      }
      Record(Write(x, H.LeafAction(source, choices(x).preserve, choices(x).leaf.value)));
      r := Some(H.LeafResult(codec, source, x, choices(x).leaf.value));
    }

    /** Settles a child body: a live outcome is written before it is returned, and a reconstructed
        one only passes through the serdes. */
    method SettleChild(x: Id, mode: Mode, result: H.UserResult) returns (r: Option<OpResult>)
      modifies this
      ensures
        if mode.Reconstruct? then
          && log == old(log) && writes == old(writes)
          && r == Some(if result.Bad? then Err(Unrecorded(ChildFailed, "child function error"))
                       else H.RoundTrip(codec, x, result.value, choices(x).salt, H.SerializeError(), ChildInternal))
        else if !choices(x).end then r == None && log == old(log) && writes == old(writes)
        else
          var w := Write(x, H.ChildAction(codec, choices(x), x, result));
          && r == Some(H.ChildResult(codec, choices(x), x, result))
          && log == AfterWrite(old(log), w) && writes == old(writes) + [w]
    {
      var ch := choices(x);
      match (mode, result) {
        case (Reconstruct, Good(value)) =>
          var serialized := codec.encode(x, value, ch.salt);
          if serialized.None? {
            return Some(Err(H.SerializeError()));
          }
          r := Some(H.Decoded(codec, x, serialized.value, ChildInternal));
        case (Reconstruct, Bad(_)) =>
          r := Some(Err(Unrecorded(ChildFailed, "child function error")));
        case (Live, Good(value)) =>
          if !ch.end {
            return None;
          }
          var serialized := codec.encode(x, value, ch.salt);
          if serialized.None? {
            var wire := WireWithType(H.SerializeError(), H.SERIALIZATION_TYPE, codec.text);
            Record(Write(x, Fail(wire, ch.preserve)));
            return Some(Err(Recorded(ChildInternal, x, wire)));
          }
          var oversized := H.Oversized(serialized.value);
          var decoded := codec.decode(x, serialized.value);
          var payload := serialized.value;
          if oversized {
            payload := if decoded.Some? then ch.summary else "";
          }
          Record(Write(x, Succeed(payload, oversized || ch.preserve)));
          r := Some(H.Decoded(codec, x, serialized.value, ChildInternal));
        case (Live, Bad(error)) =>
          if !ch.end {
            return None;
          }
          var wire := H.FailureWire(error, codec.text);
          Record(Write(x, Fail(wire, ch.preserve)));
          r := Some(Err(Recorded(ChildFailed, x, wire)));
      }
    }

    /** Reads the record of a child, and starts one without a record. */
    method BeforeChild(x: Id) returns (prelude: Prelude)
      modifies this
      ensures
        match prelude
        case Done(r) => H.Closed(old(log), x) && r == H.ReplayChild(codec, x, old(log)[x]) && log == old(log)
          && writes == old(writes)
        case Refused => x !in old(log) && !choices(x).start && log == old(log) && writes == old(writes)
        case Run(Reconstruct) =>
          H.Settled(old(log), x) && !H.Closed(old(log), x) && log == H.Begun(old(log), x) && writes == old(writes)
        case Run(Live) =>
          && !H.Settled(old(log), x) && (x in old(log) || choices(x).start)
          && log == H.Begun(old(log), x) && writes == old(writes) + H.Begin(old(log), x)
    {
      if x in log {
        var record := log[x];
        match record.status {
          case Succeeded =>
            if record.replayChildren {
              return Run(Reconstruct);
            }
            if record.payload.None? {
              return Done(Err(Unrecorded(ChildInternal, "checkpointed Succeeded operation has no result payload")));
            }
            return Done(H.Decoded(codec, x, record.payload.value, ChildInternal));
          case Failed =>
            return Done(Err(H.ReplayChildFailure(record.wire, x)));
          case _ =>
        }
      }
      var admitted := Start(x);
      prelude := if admitted then Run(Live) else Refused;
    }

    /** A child context: a record that settles it is replayed without the body; otherwise the body
        runs, to resume or start the child, or to rebuild a result that is not stored. */
    method RunChild(q: Id, n: nat, body: Prog, fuel: nat) returns (r: Option<OpResult>)
      requires fuel > 0
      modifies this
      ensures
        var e := H.RunOp(codec, choices, old(log), q, n, H.Child(body), fuel);
        r == e.result && log == e.log && writes == old(writes) + e.writes
      decreases fuel, 0
    {
      var x := q + [n];
      hide *;
      ghost var b := H.RunProg(codec, choices, H.Begun(log, x), x, 1, body, fuel - 1);
      H.ChildUnfolds(codec, choices, log, q, n, body, fuel);
      H.ChildCases(codec, choices(x), log, x, b, n + 1);
      H.SettledCases(codec, choices(x), x, H.Begin(log, x), b, n + 1);
      H.SettledFacts(log, x);
      var prelude := BeforeChild(x);
      match prelude {
        case Done(result) => r := Some(result);
        case Refused => r := None;
        case Run(mode) =>
          var result := RunBody(x, body, fuel - 1);
          if result.None? {
            return None;
          }
          r := SettleChild(x, mode, result.value);
      }
    }

    /** A handler or a body, operation by operation. */
    method RunBody(q: Id, p: Prog, fuel: nat) returns (r: Option<H.UserResult>)
      modifies this
      ensures
        var e := H.RunProg(codec, choices, old(log), q, 1, p, fuel);
        r == e.result && log == e.log && writes == old(writes) + e.writes
      decreases fuel, 2
    {
      hide *;
      var rest: Prog, n: nat, left: nat := p, 1, fuel;
      ghost var whole := H.RunProg(codec, choices, log, q, 1, p, fuel);
      while rest.Do?
        invariant
          var e := H.RunProg(codec, choices, log, q, n, rest, left);
          whole.result == e.result && whole.log == e.log && old(writes) + whole.writes == writes + e.writes
        decreases left
      {
        H.EndUnfolds(codec, choices, log, q, n, rest, left);
        if left == 0 {
          return None;
        }
        H.DoUnfolds(codec, choices, log, q, n, rest, left);
        ghost var e := H.RunOp(codec, choices, log, q, n, rest.op, left - 1);
        H.InterruptedFacts<H.UserResult>(e.log, e.writes, e.next);
        var result := RunOp(q, n, rest.op, left - 1);
        if result.None? {
          return None;
        }
        H.ThenFacts(e, H.RunProg(codec, choices, e.log, q, e.next, rest.k(result.value), left - 1));
        n := n + H.Width(rest.op);
        rest := rest.k(result.value);
        left := left - 1;
      }
      H.EndUnfolds(codec, choices, log, q, n, rest, left);
      r := Some(if rest.Return? then H.Good(rest.value) else H.Bad(rest.error));
    }

    method RunOp(q: Id, n: nat, op: Op, fuel: nat) returns (r: Option<OpResult>)
      modifies this
      ensures
        var e := H.RunOp(codec, choices, old(log), q, n, op, fuel);
        r == e.result && log == e.log && writes == old(writes) + e.writes
      decreases fuel, 1
    {
      if fuel == 0 {
        return None;
      }
      match op {
        case Leaf(source) => r := RunLeaf(source, q + [n], n + 1);
        case Child(body) => r := RunChild(q, n, body, fuel);
        case Combine(kind, inputs) => r := Execute(q, n, kind, inputs, fuel);
      }
    }

    /** The inputs of a combinator, each from its own positions. */
    method RunInputs(q: Id, n: nat, inputs: seq<Op>, fuel: nat) returns (done: seq<Option<OpResult>>)
      modifies this
      ensures
        var ins := H.RunInputs(codec, choices, old(log), q, n, inputs, fuel);
        done == ins.done && log == ins.log && writes == old(writes) + ins.writes
      decreases fuel, 2
    {
      hide *;
      done := [];
      var at: nat := n;
      ghost var whole := H.RunInputs(codec, choices, log, q, n, inputs, fuel);
      for i := 0 to |inputs|
        invariant
          var rest := H.RunInputs(codec, choices, log, q, at, inputs[i..], fuel);
          done + rest.done == whole.done && rest.log == whole.log && writes + rest.writes == old(writes) + whole.writes
      {
        H.InputsUnfold(codec, choices, log, q, at, inputs[i..], fuel);
        assert inputs[i..][1..] == inputs[i + 1..];
        var result := RunOp(q, at, inputs[i], fuel);
        done := done + [result];
        at := at + H.Width(inputs[i]);
      }
      assert inputs[|inputs|..] == [];
      H.NoInputsRun(codec, choices, log, q, at, fuel);
    }

    method JoinInputs(kind: CombinatorKind, done: seq<Option<OpResult>>, order: seq<nat>) returns (joined: Joined)
      ensures joined == O.Outcome(kind, done, order)
    {
      var settles := Settles(done, order);
      O.SettlesEnumerates(done, order);
      match kind {
        case TryJoinAll => joined := TryJoinAllInputs(|done|, settles);
        case JoinAll => joined := JoinAllInputs(|done|, settles);
        case SelectOk => joined := SelectOkInputs(|done|, settles);
        case Race => joined := RaceInputs(|done|, settles);
      }
    }

    /** Writes the outcome of a live join, and returns what a replay of the record returns. */
    method CheckpointJoin(x: Id, kind: CombinatorKind, joined: Joined, serialized: string) returns (r: OpResult)
      requires !joined.Waiting?
      modifies this
      ensures
        var w := Write(x, H.JoinAction(codec, choices(x), x, kind, joined, serialized));
        && r == H.JoinResult(codec, x, kind, joined, serialized)
        && log == AfterWrite(old(log), w) && writes == old(writes) + [w]
    {
      var ch := choices(x);
      hide H.Oversized, H.Decoded, F.FailureWire, F.LiveFailure;
      if joined.Failure? {
        Record(Write(x, Fail(F.FailureWire(kind, joined.failure, codec.text), ch.preserve)));
        return Err(F.LiveFailure(kind, joined.failure, x, codec.text));
      }
      if joined.Winner? {
        if H.Oversized(serialized) {
          Record(Write(x, Succeed(F.WinnerRecord(joined.index), true)));
        } else {
          Record(Write(x, Succeed(serialized, false)));
        }
      } else if H.Oversized(serialized) {
        Record(Write(x, Succeed("", true)));
      } else {
        Record(Write(x, Succeed(serialized, ch.preserve)));
      }
      r := H.Decoded(codec, x, serialized, CombinatorInternal);
    }

    /** Settles a live join. A result that cannot be serialized is returned as an error before the
        START is awaited, and leaves no outcome. Nor does a join that an execution-fatal error meets. */
    method SettleJoin(
        x: Id, kind: CombinatorKind, done: seq<Option<OpResult>>, ghost flags: seq<bool>, ghost earlier: seq<Write>,
        ghost next: nat)
      returns (r: Option<OpResult>)
      modifies this
      ensures
        var e := H.JoinSettled(codec, choices(x), x, kind, H.Inputs(done, flags, old(log), earlier), next);
        && r == e.result && log == e.log
        && |earlier| <= |e.writes| && e.writes[..|earlier|] == earlier && writes == old(writes) + e.writes[|earlier|..]
    {
      var ch := choices(x);
      hide O.Outcome, H.JoinRepeats, H.Combined, H.JoinAction, H.JoinResult;
      var joined := JoinInputs(kind, done, ch.order);
      var admitted := Start(x);
      ghost var begun := if x in old(log) || !ch.start then [] else [Write(x, Action.Start)];
      assert writes == old(writes) + begun && (earlier + begun)[|earlier|..] == begun;
      if joined.Waiting? {
        return None;
      }
      var serialized := if joined.Failure? then Some("") else codec.encode(x, H.Combined(joined, codec.text), ch.salt);
      if serialized.None? {
        return Some(Err(Unrecorded(CombinatorInternal, H.UNSERIALIZED)));
      }
      if !admitted {
        return None;
      }
      if ch.fatal.Some? {
        return Some(Err(Unrecorded(CombinatorInternal, ch.fatal.value)));
      }
      if !ch.end {
        return None;
      }
      var result := CheckpointJoin(x, kind, joined, serialized.value);
      ghost var w := Write(x, H.JoinAction(codec, ch, x, kind, joined, serialized.value));
      assert writes == old(writes) + (begun + [w]) && (earlier + begun + [w])[|earlier|..] == begun + [w];
      r := Some(result);
    }

    /** A recorded success of a race or a select_ok that stores its winner's index only. */
    method ReplayWinner(q: Id, n: nat, kind: CombinatorKind, inputs: seq<Op>, fuel: nat) returns (r: Option<OpResult>)
      requires fuel > 0 && |inputs| <= USIZE_MAX
      requires H.DrivesWinner(log, q + [n + H.Widths(inputs)], kind)
      modifies this
      ensures
        var e := H.RunOp(codec, choices, old(log), q, n, H.Combine(kind, inputs), fuel);
        r == e.result && log == e.log && writes == old(writes) + e.writes
      decreases fuel, -1
    {
      var x := q + [n + H.Widths(inputs)];
      hide *;
      H.SettledFacts(log, x);
      H.DrivesWinnerCases(log, x, kind, inputs);
      var winner := H.WinnerOf(log[x]);
      H.CombineUnfolds(codec, choices, log, q, n, kind, inputs, fuel);
      H.NoWinnerCases(log, winner, |inputs|, n + H.Widths(inputs) + 1);
      if winner.None? {
        return Some(Err(Unrecorded(CombinatorInternal, H.MALFORMED_WINNER)));
      }
      if winner.value >= |inputs| {
        return Some(Err(Unrecorded(CombinatorInternal, H.OutOfRange(winner.value, |inputs|))));
      }
      ghost var e := H.RunOp(codec, choices, log, q, n + H.Widths(inputs[..winner.value]), inputs[winner.value],
        fuel - 1);
      H.WinnerCases(codec, choices(x), x, e, n + H.Widths(inputs) + 1);
      var input := RunOp(q, n + H.Widths(inputs[..winner.value]), inputs[winner.value], fuel - 1);
      if input.None? || input.value.Err? {
        return input;
      }
      r := Some(H.RoundTrip(codec, x, input.value.value, choices(x).salt,
                            Unrecorded(CombinatorInternal, H.UNSERIALIZED), CombinatorInternal));
    }

    /** Reads the record of a combinator. */
    method BeforeCombine(x: Id) returns (prelude: Prelude)
      ensures
        match prelude
        case Done(r) => H.Closed(log, x) && r == H.ReplayCombinator(codec, x, log[x])
        case Refused => false
        case Run(Reconstruct) => H.Settled(log, x) && !H.Closed(log, x)
        case Run(Live) => !H.Settled(log, x) && !H.Closed(log, x)
    {
      if x in log {
        var record := log[x];
        match record.status {
          case Succeeded =>
            if record.replayChildren {
              return Run(Reconstruct);
            }
            if record.payload.None? {
              return Done(Err(Unrecorded(CombinatorInternal, "replay: succeeded record has no payload")));
            }
            return Done(H.Decoded(codec, x, record.payload.value, CombinatorInternal));
          case Failed =>
            return Done(Err(F.ReplayFailure(record.wire, x)));
          case _ =>
        }
      }
      prelude := Run(Live);
    }

    /** The inputs of a collection that its record does not store, joined again without a write. */
    method Rebuild(
        x: Id, kind: CombinatorKind, done: seq<Option<OpResult>>, ghost flags: seq<bool>, ghost earlier: seq<Write>,
        ghost next: nat)
      returns (r: Option<OpResult>)
      ensures r == H.CollectionRebuilt(codec, choices(x), x, kind, H.Inputs(done, flags, log, earlier), next).result
    {
      hide O.Outcome, H.SameDecoded, H.Combined, H.RoundTrip, F.LiveFailure;
      var joined := JoinInputs(kind, done, choices(x).order);
      if joined.Waiting? {
        return None;
      }
      if joined.Failure? {
        return Some(Err(F.LiveFailure(kind, joined.failure, x, codec.text)));
      }
      r := Some(H.RoundTrip(codec, x, H.Combined(joined, codec.text), choices(x).salt,
                            Unrecorded(CombinatorInternal, H.UNSERIALIZED), CombinatorInternal));
    }

    /** A combinator: a record that settles it is replayed; otherwise its inputs run, and their join
        is recorded, or, for a collection that is not stored, rebuilt. */
    method Execute(q: Id, n: nat, kind: CombinatorKind, inputs: seq<Op>, fuel: nat) returns (r: Option<OpResult>)
      requires fuel > 0
      modifies this
      ensures
        var e := H.RunOp(codec, choices, old(log), q, n, H.Combine(kind, inputs), fuel);
        r == e.result && log == e.log && writes == old(writes) + e.writes
      decreases fuel, 0
    {
      hide *;
      var at := n + H.Widths(inputs);
      var x := q + [at];
      if |inputs| > USIZE_MAX {
        H.TooManyInputs(codec, choices, log, q, n, kind, inputs, fuel);
        return None;
      }
      H.CombineUnfolds(codec, choices, log, q, n, kind, inputs, fuel);
      H.DrivesWinnerCases(log, x, kind, inputs);
      ghost var ins := H.RunInputs(codec, choices, log, q, n, inputs, fuel - 1);
      var prelude := BeforeCombine(x);
      if prelude.Done? {
        H.ClosedRun(codec, choices(x), log, x, kind, ins, inputs, at + 1);
        return Some(prelude.result);
      }
      if prelude.mode.Reconstruct? && (kind.SelectOk? || kind.Race?) {
        r := ReplayWinner(q, n, kind, inputs, fuel);
        return;
      }
      H.NotDriven(log, x, kind, inputs);
      H.CombineCases(codec, choices(x), log, x, kind, ins, at + 1);
      var done := RunInputs(q, n, inputs, fuel - 1);
      assert ins == H.Inputs(done, ins.repeatable, log, ins.writes);
      if prelude.mode.Reconstruct? {
        r := Rebuild(x, kind, done, ins.repeatable, ins.writes, at + 1);
      } else {
        r := SettleJoin(x, kind, done, ins.repeatable, ins.writes, at + 1);
      }
    }
  }
}
