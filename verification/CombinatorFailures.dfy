/** How a failed combinator is recorded, and what a replay of the record makes of it. */
module CombinatorFailures {
  import opened Options
  import opened Records
  import opened Errors
  import opened Decimals
  import opened Combinators
  import J = Json

  const EMPTY_INPUT_TYPE := "CombinatorError.EmptyInput"
  const FIRST_SETTLED_TYPE := "CombinatorError.FirstSettledFailed"
  const JOIN_FAILED_PREFIX := "CombinatorError.JoinFailed."
  const ALL_FAILED_TYPE := "CombinatorError.AllFailed"

  // ----- The losers payload -----

  function Present(key: string, s: Option<string>): seq<J.Field> {
    if s.Some? then [J.Field(key, J.Str(s.value))] else []
  }

  function PresentFrames(frames: seq<string>): seq<J.Field> {
    if frames == [] then [] else [J.Field("stack_trace", J.Arr(Strings(frames)))]
  }

  function Strings(items: seq<string>): seq<J.Json> {
    seq(|items|, i requires 0 <= i < |items| => J.Str(items[i]))
  }

  /** SerializedLoser: absent fields and an empty stack are skipped. */
  function LoserJson(w: Wire): J.Json {
    J.Obj(Present("error_type", w.errorType) + (Present("message", w.message) + (Present("error_data", w.data)
          + PresentFrames(w.stackTrace))))
  }

  function LosersJson(losers: seq<Wire>): J.Json {
    J.Arr(seq(|losers|, i requires 0 <= i < |losers| => LoserJson(losers[i])))
  }

  /** The value of a key. A key that stands twice is refused. */
  function Lookup(fields: seq<J.Field>, key: string): Option<J.Json> {
    if fields == [] then None
    else if fields[0].key == key then Some(fields[0].value)
    else Lookup(fields[1..], key)
  }

  predicate Repeats(fields: seq<J.Field>, key: string) {
    if fields == [] then false
    else if fields[0].key == key then Lookup(fields[1..], key).Some?
    else Repeats(fields[1..], key)
  }

  predicate IsText(j: Option<J.Json>) {
    j.None? || j.value.Str?
  }

  predicate IsFrames(j: Option<J.Json>) {
    j.None? || (j.value.Arr? && forall i | 0 <= i < |j.value.items| :: j.value.items[i].Str?)
  }

  function TextOf(j: Option<J.Json>): Option<string>
    requires IsText(j)
  {
    if j.None? then None else Some(j.value.text)
  }

  function FramesOf(j: Option<J.Json>): seq<string>
    requires IsFrames(j)
  {
    if j.None? then [] else seq(|j.value.items|, i requires 0 <= i < |j.value.items| => j.value.items[i].text)
  }

  /** Decodes one loser: every field is optional, unknown fields are ignored. */
  function ReadLoser(j: J.Json): Option<Wire> {
    if !j.Obj? then None
    else
      var f := j.fields;
      var errorType, message, data, frames :=
        Lookup(f, "error_type"), Lookup(f, "message"), Lookup(f, "error_data"), Lookup(f, "stack_trace");
      if Repeats(f, "error_type") || Repeats(f, "message") || Repeats(f, "error_data")
        || Repeats(f, "stack_trace") then None
      else if IsText(errorType) && IsText(message) && IsText(data) && IsFrames(frames) then
        Some(Wire(TextOf(errorType), TextOf(message), TextOf(data), FramesOf(frames)))
      else None
  }

  function ReadLosers(items: seq<J.Json>): Option<seq<Wire>> {
    if items == [] then Some([])
    else
      var first, rest := ReadLoser(items[0]), ReadLosers(items[1..]);
      if first.Some? && rest.Some? then Some([first.value] + rest.value) else None
  }

  function ParseLosers(data: string): Option<seq<Wire>> {
    var j := J.Parse(data);
    if j.Some? && j.value.Arr? then ReadLosers(j.value.items) else None
  }

  lemma {:induction false} LoserRoundTrip(w: Wire)
    ensures ReadLoser(LoserJson(w)) == Some(w)
  {
    var a, b, c := Present("error_type", w.errorType), Present("message", w.message), Present("error_data", w.data);
    var d := PresentFrames(w.stackTrace);
    KeysDiffer();
    LookupAmong(a, b, c, d, "error_type");
    LookupAmong(a, b, c, d, "message");
    LookupAmong(a, b, c, d, "error_data");
    LookupAmong(a, b, c, d, "stack_trace");
    FramesRoundTrip(w.stackTrace);
  }

  lemma KeysDiffer()
    ensures "error_type" != "message" && "error_type" != "error_data" && "error_type" != "stack_trace"
    ensures "message" != "error_data" && "message" != "stack_trace" && "error_data" != "stack_trace"
  {
    assert "error_type"[6] == 't' && "error_data"[6] == 'd';
    assert |"error_type"| == 10 && |"message"| == 7 && |"error_data"| == 10 && |"stack_trace"| == 11;
  }

  lemma {:induction false} FramesRoundTrip(frames: seq<string>)
    ensures
      var field := PresentFrames(frames);
      var j := if field == [] then None else Some(field[0].value);
      IsFrames(j) && FramesOf(j) == frames
  {
  }

  predicate Holds(fields: seq<J.Field>, key: string) {
    fields != [] && fields[0].key == key
  }

  /** The value of a key that at most one of four short lists holds. */
  lemma {:induction false} LookupAmong(a: seq<J.Field>, b: seq<J.Field>, c: seq<J.Field>, d: seq<J.Field>, key: string)
    requires |a| <= 1 && |b| <= 1 && |c| <= 1 && |d| <= 1
    requires !(Holds(a, key) && (Holds(b, key) || Holds(c, key) || Holds(d, key)))
    requires !(Holds(b, key) && (Holds(c, key) || Holds(d, key))) && !(Holds(c, key) && Holds(d, key))
    ensures !Repeats(a + (b + (c + d)), key)
    ensures Lookup(a + (b + (c + d)), key) ==
      if Holds(a, key) then Some(a[0].value) else if Holds(b, key) then Some(b[0].value)
      else if Holds(c, key) then Some(c[0].value) else if Holds(d, key) then Some(d[0].value) else None
  {
    LookupPresent(a, b + (c + d), key);
    LookupPresent(b, c + d, key);
    LookupPresent(c, d, key);
    LookupPresent(d, [], key);
    assert d + [] == d;
  }

  lemma {:induction false} LookupPresent(head: seq<J.Field>, tail: seq<J.Field>, key: string)
    requires |head| <= 1
    ensures Lookup(head + tail, key)
         == if head != [] && head[0].key == key then Some(head[0].value) else Lookup(tail, key)
    ensures Repeats(head + tail, key) ==
      if head != [] && head[0].key == key then Lookup(tail, key).Some? else Repeats(tail, key)
  {
    if head == [] {
      assert head + tail == tail;
    } else {
      assert (head + tail)[1..] == tail;
    }
  }

  lemma ItemsUnfold(items: seq<J.Json>, first: Wire, rest: seq<Wire>)
    requires items != [] && ReadLoser(items[0]) == Some(first) && ReadLosers(items[1..]) == Some(rest)
    ensures ReadLosers(items) == Some([first] + rest)
  {
    hide ReadLoser;
  }

  lemma LosersUnfold(losers: seq<Wire>)
    ensures |LosersJson(losers).items| == |losers|
    ensures losers != [] ==>
      && LosersJson(losers).items[0] == LoserJson(losers[0])
      && LosersJson(losers).items[1..] == LosersJson(losers[1..]).items
  {
    hide LoserJson;
  }

  lemma {:induction false} ItemsRoundTrip(losers: seq<Wire>)
    ensures ReadLosers(LosersJson(losers).items) == Some(losers)
  {
    LosersUnfold(losers);
    if losers != [] {
      hide *;
      LoserRoundTrip(losers[0]);
      ItemsRoundTrip(losers[1..]);
      ItemsUnfold(LosersJson(losers).items, losers[0], losers[1..]);
      assert [losers[0]] + losers[1..] == losers;
    }
  }

  /** Every list of loser records is read back from the payload that was written for it. */
  lemma LosersRoundTrip(losers: seq<Wire>)
    ensures ParseLosers(J.Write(LosersJson(losers))) == Some(losers)
  {
    J.ParseWritten(LosersJson(losers));
    ItemsRoundTrip(losers);
  }

  // ----- Recording -----

  /** The record of a loser: its own, or one derived from it. */
  function LoserWire(e: OpErr, text: Text): Wire {
    if e.wire.Some? then e.wire.value else WireFor(e, text).(message := Some(text(e)))
  }

  function LoserWires(losers: seq<OpErr>, text: Text): seq<Wire> {
    seq(|losers|, i requires 0 <= i < |losers| => LoserWire(losers[i], text))
  }

  function LoserSummary(losers: seq<OpErr>, from: nat, text: Text): string
    decreases |losers| - from
  {
    if from >= |losers| then ""
    else
      (if from == 0 then "" else "; ") + "[" + Decimal(from) + "] " + MessageOf(losers[from], text)
      + LoserSummary(losers, from + 1, text)
  }

  function EmptyMessage(kind: CombinatorKind): string {
    (if kind.SelectOk? then "select_ok" else "race") + " called with no futures"
  }

  /** The wire of a failed join. */
  function FailureWire(kind: CombinatorKind, f: Failure, text: Text): Wire {
    match f
    case JoinFailure(index, e) => WireWithType(e, JOIN_FAILED_PREFIX + Decimal(index), text)
    case NoInputs => Wire(Some(EMPTY_INPUT_TYPE), Some(EmptyMessage(kind)), None, [])
    case AllFailure(losers) =>
      Wire(Some(ALL_FAILED_TYPE),
           Some("all " + Decimal(|losers|) + " futures failed: " + LoserSummary(losers, 0, text)),
           Some(J.Write(LosersJson(LoserWires(losers, text)))), [])
    case FirstFailure(e) => WireWithType(e, FIRST_SETTLED_TYPE, text)
  }

  /** The error a live combinator returns for a failed join. */
  function LiveFailure(kind: CombinatorKind, f: Failure, id: Id, text: Text): OpErr {
    var errorKind :=
      match f
      case JoinFailure(index, _) => JoinFailed(index)
      case NoInputs => EmptyInput
      case AllFailure(losers) => AllFailed(LoserWires(losers, text))
      case FirstFailure(_) => FirstSettledFailed;
    Recorded(errorKind, id, FailureWire(kind, f, text))
  }

  // ----- Replaying -----

  function StripPrefix(s: string, prefix: string): Option<string> {
    if prefix <= s then Some(s[|prefix|..]) else None
  }

  /** The index a JoinFailed discriminator names. */
  function JoinIndex(errorType: Option<string>): Option<nat> {
    if errorType.None? then None
    else
      var suffix := StripPrefix(errorType.value, JOIN_FAILED_PREFIX);
      if suffix.None? then None else ParseUsize(suffix.value)
  }

  function RecordedLosers(wire: Wire): Option<seq<Wire>> {
    if wire.errorType != Some(ALL_FAILED_TYPE) || wire.data.None? then None
    else
      var losers := ParseLosers(wire.data.value);
      if losers.Some? && losers.value != [] then losers else None
  }

  /** replay_combinator_failure */
  function ReplayFailure(wire: Wire, id: Id): OpErr {
    var kind :=
      if wire.errorType == Some(EMPTY_INPUT_TYPE) then EmptyInput
      else if JoinIndex(wire.errorType).Some? then JoinFailed(JoinIndex(wire.errorType).value)
      else if RecordedLosers(wire).Some? then AllFailed(RecordedLosers(wire).value)
      else if wire.errorType == Some(FIRST_SETTLED_TYPE) then FirstSettledFailed
      else CombinatorInternal;
    Recorded(kind, id, wire)
  }

  /** What the combinators fail with: an index that fits usize, and at least one loser. */
  predicate Recordable(f: Failure) {
    && (f.JoinFailure? ==> f.index <= USIZE_MAX)
    && (f.AllFailure? ==> f.losers != [])
  }

  /** Replaying the record of a live failure gives the error the live run returned: the same kind,
      failed index, losers in input order, operation, status and record. */
  lemma FailureRoundTrip(kind: CombinatorKind, f: Failure, id: Id, text: Text)
    requires Recordable(f)
    ensures ReplayFailure(FailureWire(kind, f, text), id) == LiveFailure(kind, f, id, text)
  {
    match f
    case JoinFailure(index, _) => JoinIndexRoundTrip(index);
    case NoInputs =>
    case AllFailure(losers) =>
      TypesDiffer();
      LosersRoundTrip(LoserWires(losers, text));
    case FirstFailure(_) => TypesDiffer();
  }

  lemma JoinIndexRoundTrip(index: nat)
    requires index <= USIZE_MAX
    ensures JoinIndex(Some(JOIN_FAILED_PREFIX + Decimal(index))) == Some(index)
    ensures JOIN_FAILED_PREFIX + Decimal(index) != EMPTY_INPUT_TYPE
  {
    var t := JOIN_FAILED_PREFIX + Decimal(index);
    assert t[|JOIN_FAILED_PREFIX|..] == Decimal(index);
    ParseRoundTrip(index);
    assert t[16] == 'J' && EMPTY_INPUT_TYPE[16] == 'E';
  }

  lemma TypesDiffer()
    ensures ALL_FAILED_TYPE != EMPTY_INPUT_TYPE && FIRST_SETTLED_TYPE != EMPTY_INPUT_TYPE
    ensures ALL_FAILED_TYPE != FIRST_SETTLED_TYPE
    ensures JoinIndex(Some(ALL_FAILED_TYPE)).None? && JoinIndex(Some(FIRST_SETTLED_TYPE)).None?
  {
    NotAJoinIndex(ALL_FAILED_TYPE);
    NotAJoinIndex(FIRST_SETTLED_TYPE);
    assert ALL_FAILED_TYPE[16] == 'A' && EMPTY_INPUT_TYPE[16] == 'E' && FIRST_SETTLED_TYPE[16] == 'F';
  }

  lemma NotAJoinIndex(errorType: string)
    requires |errorType| > 16 && errorType[16] != 'J'
    ensures JoinIndex(Some(errorType)).None?
  {
    assert JOIN_FAILED_PREFIX[16] == 'J';
  }

  /** An index that no input can have is lost: its record replays as an internal error. */
  lemma IndexBeyondUsizeIsLost(e: OpErr, id: Id, text: Text)
    ensures ReplayFailure(FailureWire(TryJoinAll, JoinFailure(USIZE_MAX + 1, e), text), id).kind == CombinatorInternal
  {
    var t := JOIN_FAILED_PREFIX + Decimal(USIZE_MAX + 1);
    assert t[|JOIN_FAILED_PREFIX|..] == Decimal(USIZE_MAX + 1);
    DecimalRoundTrip(USIZE_MAX + 1);
    assert IsDigit(Decimal(USIZE_MAX + 1)[0]);
    assert t[16] == 'J' && EMPTY_INPUT_TYPE[16] == 'E' && FIRST_SETTLED_TYPE[16] == 'F' && ALL_FAILED_TYPE[16] == 'A';
  }

  // ----- The winner record -----

  function WinnerRecord(index: nat): string {
    J.Write(J.Obj([J.Field("winner", J.Num(index))]))
  }

  /** The winner index a record names, when it fits usize. */
  function ParseWinner(payload: string): Option<nat> {
    var j := J.Parse(payload);
    if j.Some? && j.value.Obj? && !Repeats(j.value.fields, "winner") then
      var w := Lookup(j.value.fields, "winner");
      if w.Some? && w.value.Num? && w.value.n <= USIZE_MAX then Some(w.value.n) else None
    else None
  }

  lemma WinnerRoundTrip(index: nat)
    requires index <= USIZE_MAX
    ensures ParseWinner(WinnerRecord(index)) == Some(index)
  {
    var fields := [J.Field("winner", J.Num(index))];
    J.ParseWritten(J.Obj(fields));
    assert fields[1..] == [];
  }
}
