/** What a step, a child or a combinator has to record and to return, told from the results it is made of and
    not from how it is computed.
 */
module Outcomes {
  import opened Options
  import opened Records
  import opened Errors
  import opened Combinators
  import opened Handlers
  import opened Decimals
  import F = CombinatorFailures
  import O = SettleOrder
  import JsonText

  /** Decoding undoes encoding. */
  ghost predicate Faithful(c: Codec) {
    forall x: Id, v: Value, salt: nat ::
      c.encode(x, v, salt).Some? ==> c.decode(x, c.encode(x, v, salt).value) == Some(v)
  }

  /** The UTF-8 text has more than 256 KiB. */
  predicate TooLarge(payload: string) {
    |JsonText.Utf8(payload)| > 262144
  }

  lemma SizeIsBytes(payload: string)
    ensures Oversized(payload) <==> TooLarge(payload)
  {
    JsonText.Utf8LenIsExact(payload);
  }

  // ----- Recorded failures -----

  /** The failure of a known type that passes on an error: its message, or its text when none is recorded, its
      data and its frames. */
  predicate PassesOn(e: OpErr, errorType: string, w: Wire, text: Text) {
    && w.errorType == Some(errorType)
    && (if e.wire.Some? then
          && w.data == e.wire.value.data && w.stackTrace == e.wire.value.stackTrace
          && w.message == (if e.wire.value.message.Some? then e.wire.value.message else Some(text(e)))
        else w.data.None? && w.stackTrace == [] && w.message == Some(text(e)))
  }

  /** The failure an error stands for where it is listed: what it recorded, or one with its text and the name of
      its kind. */
  predicate StandsFor(e: OpErr, w: Wire) {
    if e.wire.Some? then
      && w.errorType == e.wire.value.errorType && w.data == e.wire.value.data
      && w.stackTrace == e.wire.value.stackTrace
    else w.errorType == Some(KindName(e.kind)) && w.data.None? && w.stackTrace == []
  }

  // ----- Collections, winners and failed joins -----

  /** An item of join_all: the value, or the recorded failure, always with a message. */
  predicate ItemOf(r: OpResult, item: Outcome, text: Text) {
    match r
    case Ok(v) => item == Fulfilled(v)
    case Err(e) =>
      && item.Rejected? && StandsFor(e, item.wire)
      && item.wire.message
         == (if e.wire.Some? && e.wire.value.message.Some? then e.wire.value.message else Some(text(e)))
  }

  /** The collection of inputs that completed: their values, or their outcomes, each at its own place. */
  ghost predicate CollectionOf(kind: CombinatorKind, done: O.Done, v: Value, text: Text) {
    match kind
    case TryJoinAll =>
      v.Many? && |v.items| == |done| && forall i :: 0 <= i < |done| ==> done[i] == Some(Ok(v.items[i]))
    case JoinAll =>
      && v.Outcomes? && |v.outcomes| == |done|
      && forall i :: 0 <= i < |done| ==> done[i].Some? && ItemOf(done[i].value, v.outcomes[i], text)
    case _ => false
  }

  /** Input i wins with v: in a race it is the first that settles, in a select_ok the first success. */
  ghost predicate WinsWith(kind: CombinatorKind, done: O.Done, order: seq<nat>, i: nat, v: Value) {
    var settles := Settles(done, order);
    i < |done| && done[i] == Some(Ok(v))
    && match kind
       case Race => settles != [] && settles[0] == Settle(i, Ok(v))
       case SelectOk =>
         exists k ::
           && 0 <= k < |settles| && settles[k] == Settle(i, Ok(v))
           && forall m :: 0 <= m < k ==> settles[m].result.Err?
       case _ => false
  }

  /** A loser of a select_ok: what it recorded, or a failure with its text and the name of its kind. */
  predicate LoserOf(e: OpErr, w: Wire, text: Text) {
    StandsFor(e, w) && w.message == if e.wire.Some? then e.wire.value.message else Some(text(e))
  }

  predicate LacksInputs(kind: CombinatorKind, w: Wire) {
    && w.errorType == Some("CombinatorError.EmptyInput") && w.data.None? && w.stackTrace == []
    && w.message == Some((if kind.Race? then "race" else "select_ok") + " called with no futures")
  }

  function Separated(parts: seq<string>): string {
    if parts == [] then ""
    else if |parts| == 1 then parts[0]
    else Separated(parts[..|parts| - 1]) + "; " + parts[|parts| - 1]
  }

  /** The part of loser i: its index and its message, or its text when none is recorded. */
  predicate IsPart(i: nat, e: OpErr, part: string, text: Text) {
    part == "[" + Decimal(i) + "] "
            + (if e.wire.Some? && e.wire.value.message.Some? then e.wire.value.message.value else text(e))
  }

  /** The message counts the losers and names each of them, in input order. */
  ghost predicate NamesLosers(done: O.Done, message: Option<string>, text: Text) {
    exists parts: seq<string> ::
      && |parts| == |done|
      && (forall i :: 0 <= i < |done| ==>
            done[i].Some? && done[i].value.Err? && IsPart(i, done[i].value.error, parts[i], text))
      && message == Some("all " + Decimal(|done|) + " futures failed: " + Separated(parts))
  }

  /** The error of a failed join: the failed input with its index, every loser in input order, or the lack
      of inputs, and the failure that is recorded of it. */
  ghost predicate FailsWith(
    kind: CombinatorKind, done: O.Done, order: seq<nat>, errorKind: ErrorKind, w: Wire, text: Text)
  {
    var settles := Settles(done, order);
    match kind
    case TryJoinAll =>
      exists k ::
        && 0 <= k < |settles| && settles[k].result.Err? && (forall m :: 0 <= m < k ==> settles[m].result.Ok?)
        && errorKind == JoinFailed(settles[k].index)
        && PassesOn(settles[k].result.error, "CombinatorError.JoinFailed." + Decimal(settles[k].index), w, text)
    case JoinAll => false
    case SelectOk =>
      if done == [] then errorKind == EmptyInput && LacksInputs(kind, w)
      else
        && errorKind.AllFailed? && |errorKind.losers| == |done|
        && (forall i :: 0 <= i < |done| ==>
              done[i].Some? && done[i].value.Err? && LoserOf(done[i].value.error, errorKind.losers[i], text))
        && w.errorType == Some("CombinatorError.AllFailed") && w.stackTrace == [] && NamesLosers(done, w.message, text)
        && w.data.Some? && F.ParseLosers(w.data.value) == Some(errorKind.losers)
    case Race =>
      if done == [] then errorKind == EmptyInput && LacksInputs(kind, w)
      else
        && settles != [] && settles[0].result.Err? && errorKind == FirstSettledFailed
        && PassesOn(settles[0].result.error, "CombinatorError.FirstSettledFailed", w, text)
  }

  // ----- The joins decide so -----

  lemma {:induction false} FirstIsFirst(settles: seq<Settle>, ok: bool) returns (k: nat)
    requires First(settles, ok).Some?
    ensures k < |settles| && settles[k] == First(settles, ok).value && settles[k].result.Ok? == ok
    ensures forall m :: 0 <= m < k ==> settles[m].result.Ok? != ok
  {
    k := 0;
    if settles[0].result.Ok? != ok {
      k := FirstIsFirst(settles[1..], ok);
      k := k + 1;
    }
  }

  lemma CollectionJoined(kind: CombinatorKind, done: O.Done, order: seq<nat>, text: Text)
    requires O.Outcome(kind, done, order).Values? || O.Outcome(kind, done, order).Results?
    ensures CollectionOf(kind, done, Combined(O.Outcome(kind, done, order), text), text)
  {
    O.OutcomeIsTrue(kind, done, order);
    hide O.Outcome;
    if O.Outcome(kind, done, order).Results? {
      forall i | 0 <= i < |done| ensures ItemOf(done[i].value, Items(ResultsOf(done), text)[i], text) {
        ItemJoined(done[i].value, text);
      }
    }
  }

  lemma ItemJoined(r: OpResult, text: Text)
    ensures ItemOf(r, if r.Ok? then Fulfilled(r.value) else Rejected(RejectedWire(r.error, text)), text)
  {
  }

  lemma WinnerJoined(kind: CombinatorKind, done: O.Done, order: seq<nat>)
    requires O.Outcome(kind, done, order).Winner?
    ensures
      var j := O.Outcome(kind, done, order);
      WinsWith(kind, done, order, j.index, j.value)
  {
    O.OutcomeIsTrue(kind, done, order);
    var settles := Settles(done, order);
    if kind.SelectOk? { var k := FirstIsFirst(settles, true); }
  }

  lemma LoserJoined(e: OpErr, text: Text)
    ensures LoserOf(e, F.LoserWire(e, text), text)
  {
  }

  lemma {:induction false} SummarySeparates(losers: seq<OpErr>, parts: seq<string>, from: nat, text: Text)
    requires 0 < from <= |losers| == |parts|
    requires forall i | 0 <= i < |losers| :: IsPart(i, losers[i], parts[i], text)
    ensures Separated(parts[..from]) + F.LoserSummary(losers, from, text) == Separated(parts)
    decreases |losers| - from
  {
    hide F.LoserSummary, IsPart, Separated;
    if from == |losers| {
      assert parts[..from] == parts;
      SummaryEnds(losers, text);
      assert Separated(parts) + "" == Separated(parts);
    } else {
      SeparatedStep(parts, from);
      SummaryStep(losers, parts[from], from, text);
      SummarySeparates(losers, parts, from + 1, text);
      var before, part, rest := Separated(parts[..from]), parts[from], F.LoserSummary(losers, from + 1, text);
      assert before + ("; " + part + rest) == before + "; " + part + rest;
    }
  }

  lemma SummaryEnds(losers: seq<OpErr>, text: Text)
    ensures F.LoserSummary(losers, |losers|, text) == ""
  {
  }

  lemma {:induction false} SeparatedStep(parts: seq<string>, from: nat)
    requires 0 < from < |parts|
    ensures Separated(parts[..from + 1]) == Separated(parts[..from]) + "; " + parts[from]
  {
    assert parts[..from + 1][..from] == parts[..from];
  }

  lemma {:induction false} SummaryStep(losers: seq<OpErr>, part: string, from: nat, text: Text)
    requires 0 < from < |losers| && IsPart(from, losers[from], part, text)
    ensures F.LoserSummary(losers, from, text) == "; " + part + F.LoserSummary(losers, from + 1, text)
  {
    hide Decimal;
    assert "; " + "[" + Decimal(from) + "] " + MessageOf(losers[from], text) == "; " + part;
  }

  lemma SummaryStarts(losers: seq<OpErr>, part: string, text: Text)
    requires losers != [] && IsPart(0, losers[0], part, text)
    ensures F.LoserSummary(losers, 0, text) == part + F.LoserSummary(losers, 1, text)
  {
    hide Decimal;
    assert "" + ("[" + Decimal(0) + "] " + MessageOf(losers[0], text)) == part;
  }

  lemma SummaryIsSeparated(losers: seq<OpErr>, parts: seq<string>, text: Text)
    requires losers != [] && |losers| == |parts|
    requires forall i | 0 <= i < |losers| :: IsPart(i, losers[i], parts[i], text)
    ensures F.LoserSummary(losers, 0, text) == Separated(parts)
  {
    hide F.LoserSummary, IsPart;
    SummarySeparates(losers, parts, 1, text);
    SummaryStarts(losers, parts[0], text);
    assert parts[..1] == [parts[0]];
  }

  function PartsOf(losers: seq<OpErr>, text: Text): seq<string> {
    seq(|losers|, i requires 0 <= i < |losers| => "[" + Decimal(i) + "] " + MessageOf(losers[i], text))
  }

  lemma PartsAreParts(losers: seq<OpErr>, text: Text)
    ensures |PartsOf(losers, text)| == |losers|
    ensures forall i | 0 <= i < |losers| :: IsPart(i, losers[i], PartsOf(losers, text)[i], text)
  {
    hide Decimal;
  }

  lemma LosersNamed(done: O.Done, losers: seq<OpErr>, text: Text)
    requires losers != [] && |losers| == |done| && forall i | 0 <= i < |done| :: done[i] == Some(Err(losers[i]))
    ensures NamesLosers(done,
      Some("all " + Decimal(|losers|) + " futures failed: " + F.LoserSummary(losers, 0, text)), text)
  {
    hide Decimal, F.LoserSummary, Separated, IsPart, PartsOf;
    PartsAreParts(losers, text);
    SummaryIsSeparated(losers, PartsOf(losers, text), text);
  }

  lemma FailureJoined(kind: CombinatorKind, done: O.Done, order: seq<nat>, x: Id, text: Text)
    requires O.Outcome(kind, done, order).Failure?
    ensures
      var error := F.LiveFailure(kind, O.Outcome(kind, done, order).failure, x, text);
      && error.operation == Some(Operation(x, Status.Failed)) && error.wire.Some?
      && error.wire.value == F.FailureWire(kind, O.Outcome(kind, done, order).failure, text)
      && FailsWith(kind, done, order, error.kind, error.wire.value, text)
  {
    O.OutcomeIsTrue(kind, done, order);
    var settles := Settles(done, order);
    match kind
    case TryJoinAll => var k := FirstIsFirst(settles, false);
    case JoinAll =>
    case SelectOk =>
      if done != [] {
        var losers := ErrorsOf(done);
        F.LosersRoundTrip(F.LoserWires(losers, text));
        LosersNamed(done, losers, text);
        forall i | 0 <= i < |done| ensures LoserOf(done[i].value.error, F.LoserWires(losers, text)[i], text) {
          LoserJoined(losers[i], text);
        }
      }
    case Race =>
  }

  // ----- What is recorded -----

  /** The outcome of a leaf: the payload or the failure that the world gave it. A step asks for no children. */
  predicate LeafRecords(source: LeafKind, ch: Choice, a: Action) {
    ch.leaf.Some?
    && match ch.leaf.value
       case Returns(payload) => a == Succeed(payload, source.CallbackLeaf? && ch.preserve)
       case Raises(wire) => a == Fail(wire, source.CallbackLeaf? && ch.preserve)
  }

  /** The failure that is recorded of a body's error: its own, or the one it passes on with the type that is
      recorded, or else the name of its kind. */
  predicate FailsAs(u: UserErr, w: Wire, text: Text) {
    match u
    case Own(wire) => w == wire
    case Propagated(e) =>
      var recorded := if e.wire.Some? then e.wire.value.errorType else None;
      PassesOn(e, if recorded.Some? then recorded.value else KindName(e.kind), w, text)
  }

  /** The failure that is recorded of a result that cannot be encoded. */
  predicate NotEncoded(w: Wire, text: Text) {
    && w.errorType == Some("SerializationError") && w.data.None? && w.stackTrace == []
    && w.message == Some(text(Unrecorded(ChildInternal, "serialize result")))
  }

  /** The outcome of a child whose body ended with r. A result of up to 256 KiB is stored as it is encoded, and
      keeps its children if it is asked to; a larger one is replaced by its summary, or by nothing when it does
      not decode, and keeps its children; one that cannot be encoded fails with the type that says so. */
  predicate ChildRecords(c: Codec, ch: Choice, x: Id, r: UserResult, a: Action) {
    match r
    case Good(v) =>
      var p := c.encode(x, v, ch.salt);
      if p.None? then a.Fail? && a.replayChildren == ch.preserve && NotEncoded(a.wire, c.text)
      else if TooLarge(p.value) then a == Succeed(if c.decode(x, p.value).Some? then ch.summary else "", true)
      else a == Succeed(p.value, ch.preserve)
    case Bad(u) => a.Fail? && a.replayChildren == ch.preserve && FailsAs(u, a.wire, c.text)
  }

  /** The outcome of a combinator over these inputs. A collection of up to 256 KiB is stored, a larger one
      leaves its record empty and keeps its children; a winner's value of up to 256 KiB is stored, of a larger
      one the index is. A failed join is recorded with the input, or the inputs, that failed it. */
  ghost predicate JoinRecords(c: Codec, ch: Choice, x: Id, kind: CombinatorKind, done: O.Done, a: Action) {
    || (a.Fail? && a.replayChildren == ch.preserve
        && exists errorKind :: FailsWith(kind, done, ch.order, errorKind, a.wire, c.text))
    || (exists v ::
          && CollectionOf(kind, done, v, c.text) && c.encode(x, v, ch.salt).Some?
          && a == if TooLarge(c.encode(x, v, ch.salt).value) then Succeed("", true)
                  else Succeed(c.encode(x, v, ch.salt).value, ch.preserve))
    || (exists i: nat, v ::
          && WinsWith(kind, done, ch.order, i, v) && c.encode(x, v, ch.salt).Some?
          && if TooLarge(c.encode(x, v, ch.salt).value) then
               a.Succeed? && a.replayChildren && F.ParseWinner(a.payload) == Some(i)
             else a == Succeed(c.encode(x, v, ch.salt).value, false))
  }

  lemma LeafActionRecords(source: LeafKind, ch: Choice)
    requires ch.leaf.Some?
    ensures LeafRecords(source, ch, LeafAction(source, ch.preserve, ch.leaf.value))
  {
  }

  lemma ChildActionRecords(c: Codec, ch: Choice, x: Id, r: UserResult)
    ensures ChildRecords(c, ch, x, r, ChildAction(c, ch, x, r))
  {
    if r.Good? && c.encode(x, r.value, ch.salt).Some? { SizeIsBytes(c.encode(x, r.value, ch.salt).value); }
    hide Oversized, TooLarge;
  }

  lemma JoinActionRecords(c: Codec, ch: Choice, x: Id, kind: CombinatorKind, done: O.Done, p: string)
    requires |done| <= USIZE_MAX
    requires
      var j := O.Outcome(kind, done, ch.order);
      !j.Waiting? && (!j.Failure? ==> c.encode(x, Combined(j, c.text), ch.salt) == Some(p))
    ensures JoinRecords(c, ch, x, kind, done, JoinAction(c, ch, x, kind, O.Outcome(kind, done, ch.order), p))
  {
    var j := O.Outcome(kind, done, ch.order);
    O.OutcomeIsTrue(kind, done, ch.order);
    SizeIsBytes(p);
    hide O.Outcome, Oversized, TooLarge, F.ParseWinner, F.WinnerRecord, F.FailureWire;
    hide FailsWith, CollectionOf, WinsWith;
    match j
    case Failure(f) =>
      FailureJoined(kind, done, ch.order, x, c.text);
    case Winner(i, v) =>
      WinnerJoined(kind, done, ch.order);
      F.WinnerRoundTrip(i);
    case _ => CollectionJoined(kind, done, ch.order, c.text);
  }
}
