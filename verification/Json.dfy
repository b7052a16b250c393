/** The JSON texts that the combinators record: a writer, a reader, and their round trip.

    The writer is compact. The reader takes the fields of an object in any order, and no
    whitespace between tokens.
 */
module Json {
  import opened Options
  import opened JsonText
  import opened Decimals

  datatype Json = Str(text: string) | Num(n: nat) | Arr(items: seq<Json>) | Obj(fields: seq<Field>)

  datatype Field = Field(key: string, value: Json)

  // ----- Writing -----

  function Quote(s: string): string {
    "\"" + Escape(s) + "\""
  }

  function Write(j: Json): string {
    match j
    case Str(text) => Quote(text)
    case Num(n) => Decimal(n)
    case Arr(items) => "[" + (if items == [] then "" else Write(items[0]) + WriteItems(items[1..])) + "]"
    case Obj(fields) => "{" + (if fields == [] then "" else WriteField(fields[0]) + WriteFields(fields[1..])) + "}"
  }

  /** Each item behind a comma. */
  function WriteItems(items: seq<Json>): string {
    if items == [] then "" else "," + Write(items[0]) + WriteItems(items[1..])
  }

  function WriteField(f: Field): string {
    Quote(f.key) + ":" + Write(f.value)
  }

  function WriteFields(fields: seq<Field>): string {
    if fields == [] then "" else "," + WriteField(fields[0]) + WriteFields(fields[1..])
  }

  // ----- Reading -----

  /** What was read, and the text behind it. */
  datatype Read<T> = Read(value: T, rest: string)

  function DigitCount(s: string): (n: nat)
    ensures n <= |s| && AllDigits(s[..n]) && (n < |s| ==> !IsDigit(s[n]))
  {
    if s == "" || !IsDigit(s[0]) then 0
    else
      var n := DigitCount(s[1..]);
      assert s[..n + 1] == [s[0]] + s[1..][..n];
      n + 1
  }

  function ReadNumber(s: string): (r: Option<Read<Json>>)
    ensures r.Some? ==> |r.value.rest| < |s|
  {
    var n := DigitCount(s);
    if IsJsonInteger(s[..n]) then Some(Read(Num(Value(s[..n])), s[n..])) else None
  }

  /** A quoted string, from its opening quote. */
  function ReadQuoted(s: string): (r: Option<Read<string>>)
    ensures r.Some? ==> |r.value.rest| < |s|
  {
    if s == "" || s[0] != '"' then None
    else
      var text := ReadString(s[1..]);
      if text.Some? && |text.value.1| < |s| then Some(Read(text.value.0, text.value.1)) else None
  }

  function ReadJson(s: string): (r: Option<Read<Json>>)
    ensures r.Some? ==> |r.value.rest| < |s|
    decreases |s|, 0
  {
    if s == "" then None
    else if s[0] == '"' then
      var text := ReadQuoted(s);
      if text.Some? then Some(Read(Str(text.value.value), text.value.rest)) else None
    else if s[0] == '[' then
      var items := if |s| > 1 && s[1] == ']' then Some(Read([], s[2..])) else ReadFirst(s[1..]);
      if items.Some? then Some(Read(Arr(items.value.value), items.value.rest)) else None
    else if s[0] == '{' then
      var fields := if |s| > 1 && s[1] == '}' then Some(Read([], s[2..])) else ReadFirstField(s[1..]);
      if fields.Some? then Some(Read(Obj(fields.value.value), fields.value.rest)) else None
    else ReadNumber(s)
  }

  function ReadFirst(s: string): (r: Option<Read<seq<Json>>>)
    ensures r.Some? ==> |r.value.rest| < |s|
    decreases |s|, 1
  {
    var first := ReadJson(s);
    if first.None? then None
    else
      var more := ReadItems(first.value.rest);
      if more.None? then None else Some(Read([first.value.value] + more.value.value, more.value.rest))
  }

  /** The items behind the first, each behind a comma, up to the closing bracket. */
  function ReadItems(s: string): (r: Option<Read<seq<Json>>>)
    ensures r.Some? ==> |r.value.rest| < |s|
    decreases |s|, 1
  {
    if s == "" then None
    else if s[0] == ']' then Some(Read([], s[1..]))
    else if s[0] == ',' then ReadFirst(s[1..])
    else None
  }

  function ReadFirstField(s: string): (r: Option<Read<seq<Field>>>)
    ensures r.Some? ==> |r.value.rest| < |s|
    decreases |s|, 1
  {
    var key := ReadQuoted(s);
    if key.None? || key.value.rest == "" || key.value.rest[0] != ':' then None
    else
      var value := ReadJson(key.value.rest[1..]);
      if value.None? then None
      else
        var more := ReadFields(value.value.rest);
        if more.None? then None
        else Some(Read([Field(key.value.value, value.value.value)] + more.value.value, more.value.rest))
  }

  function ReadFields(s: string): (r: Option<Read<seq<Field>>>)
    ensures r.Some? ==> |r.value.rest| < |s|
    decreases |s|, 1
  {
    if s == "" then None
    else if s[0] == '}' then Some(Read([], s[1..]))
    else if s[0] == ',' then ReadFirstField(s[1..])
    else None
  }

  /** A whole text: nothing may stand behind the value. */
  function Parse(s: string): Option<Json> {
    var r := ReadJson(s);
    if r.Some? && r.value.rest == "" then Some(r.value.value) else None
  }

  // ----- Round trip -----

  /** A number ends where no digit follows. */
  predicate Ends(rest: string) {
    rest == "" || !IsDigit(rest[0])
  }

  lemma {:induction false} QuotedRoundTrip(s: string, rest: string)
    ensures ReadQuoted(Quote(s) + rest) == Some(Read(s, rest))
  {
    EscapeIsUndone(s, rest);
    assert (Quote(s) + rest)[1..] == Escape(s) + "\"" + rest;
  }

  lemma {:induction false} DigitsCounted(digits: string, rest: string)
    requires AllDigits(digits) && Ends(rest)
    ensures DigitCount(digits + rest) == |digits|
  {
    if digits == "" {
      assert digits + rest == rest;
    } else {
      DigitsCounted(digits[1..], rest);
      assert (digits + rest)[1..] == digits[1..] + rest;
    }
  }

  lemma {:induction false} NumberRoundTrip(n: nat, rest: string)
    requires Ends(rest)
    ensures ReadJson(Decimal(n) + rest) == Some(Read(Num(n), rest))
  {
    var s := Decimal(n) + rest;
    DecimalRoundTrip(n);
    DigitsCounted(Decimal(n), rest);
    assert s[..|Decimal(n)|] == Decimal(n) && s[|Decimal(n)|..] == rest;
    assert IsDigit(s[0]);
  }

  /** What is written of a non-empty list, up to its closing bracket. */
  function Listed(items: seq<Json>): string
    requires items != []
  {
    Write(items[0]) + WriteItems(items[1..])
  }

  function ListedFields(fields: seq<Field>): string
    requires fields != []
  {
    WriteField(fields[0]) + WriteFields(fields[1..])
  }

  lemma {:induction false} ReadsArr(items: seq<Json>, rest: string)
    requires items != [] ==> ReadFirst(Listed(items) + "]" + rest) == Some(Read(items, rest))
    ensures ReadJson(Write(Arr(items)) + rest) == Some(Read(Arr(items), rest))
  {
    var s := Write(Arr(items)) + rest;
    if items == [] {
      assert s == "[]" + rest && s[2..] == rest;
    } else {
      assert s == "[" + (Listed(items) + "]" + rest);
      assert s[1..] == Listed(items) + "]" + rest;
      WrittenStart(items[0]);
      assert s[1] == Write(items[0])[0];
    }
  }

  lemma {:induction false} ReadsBrace(body: string)
    requires body != "" && body[0] == '"' && ReadFirstField(body).Some?
    ensures ReadJson("{" + body) == Some(Read(Obj(ReadFirstField(body).value.value), ReadFirstField(body).value.rest))
  {
    assert ("{" + body)[1..] == body;
  }

  lemma {:induction false} ReadsObj(fields: seq<Field>, rest: string)
    requires fields != [] ==> ReadFirstField(ListedFields(fields) + "}" + rest) == Some(Read(fields, rest))
    ensures ReadJson(Write(Obj(fields)) + rest) == Some(Read(Obj(fields), rest))
  {
    if fields == [] {
      var s := "{}" + rest;
      assert s[2..] == rest && s[1] == '}';
    } else {
      var body := ListedFields(fields) + "}" + rest;
      assert Write(Obj(fields)) + rest == "{" + body;
      ReadsBrace(body);
    }
  }

  lemma {:induction false} ReadsItems(items: seq<Json>, rest: string)
    requires items != [] ==> ReadFirst(Listed(items) + "]" + rest) == Some(Read(items, rest))
    ensures ReadItems(WriteItems(items) + "]" + rest) == Some(Read(items, rest))
  {
    var s := WriteItems(items) + "]" + rest;
    if items == [] {
      assert s[1..] == rest;
    } else {
      assert s == "," + (Listed(items) + "]" + rest);
      assert s[1..] == Listed(items) + "]" + rest;
    }
  }

  lemma {:induction false} ReadsComma(body: string)
    ensures ReadFields("," + body) == ReadFirstField(body)
    ensures ReadItems("," + body) == ReadFirst(body)
  {
    assert ("," + body)[1..] == body;
  }

  lemma {:induction false} WritesComma(fields: seq<Field>)
    requires fields != []
    ensures WriteFields(fields) == "," + ListedFields(fields)
  {
  }

  lemma {:induction false} ReadsFields(fields: seq<Field>, rest: string)
    requires fields != [] ==> ReadFirstField(ListedFields(fields) + "}" + rest) == Some(Read(fields, rest))
    ensures ReadFields(WriteFields(fields) + "}" + rest) == Some(Read(fields, rest))
  {
    if fields == [] {
      assert (WriteFields(fields) + "}" + rest)[1..] == rest;
    } else {
      var body := ListedFields(fields) + "}" + rest;
      WritesComma(fields);
      ReadsComma(body);
      assert WriteFields(fields) + "}" + rest == "," + body;
    }
  }

  lemma {:induction false} WrittenStart(j: Json)
    ensures Write(j) != "" && Write(j)[0] != ']'
  {
    if j.Num? {
      assert IsDigit(Decimal(j.n)[0]);
    }
  }

  lemma {:induction false} ReadsStr(text: string, rest: string)
    ensures ReadJson(Write(Str(text)) + rest) == Some(Read(Str(text), rest))
  {
    QuotedRoundTrip(text, rest);
  }

  /** Reading what was written gives it back, and stops exactly behind it. */
  lemma {:induction false} JsonRoundTrip(j: Json, rest: string)
    requires Ends(rest)
    ensures ReadJson(Write(j) + rest) == Some(Read(j, rest))
    decreases j, 0
  {
    match j
    case Str(text) => ReadsStr(text, rest);
    case Num(n) => NumberRoundTrip(n, rest);
    case Arr(items) =>
      if items != [] { ListRoundTrip(items, rest); }
      ReadsArr(items, rest);
    case Obj(fields) =>
      if fields != [] { FieldListRoundTrip(fields, rest); }
      ReadsObj(fields, rest);
  }

  lemma {:induction false} ReadsFirst(s: string, first: Json, tail: string, others: seq<Json>, rest: string)
    requires ReadJson(s) == Some(Read(first, tail)) && ReadItems(tail) == Some(Read(others, rest))
    ensures ReadFirst(s) == Some(Read([first] + others, rest))
  {
  }

  lemma {:induction false} ReadsFirstField(
      s: string, key: string, behind: string, value: Json, tail: string, others: seq<Field>, rest: string)
    requires ReadQuoted(s) == Some(Read(key, ":" + behind)) && ReadJson(behind) == Some(Read(value, tail))
    requires ReadFields(tail) == Some(Read(others, rest))
    ensures ReadFirstField(s) == Some(Read([Field(key, value)] + others, rest))
  {
    assert (":" + behind)[1..] == behind;
  }

  lemma {:induction false} ListRoundTrip(items: seq<Json>, rest: string)
    requires items != []
    ensures ReadFirst(Listed(items) + "]" + rest) == Some(Read(items, rest))
    decreases items, 1
  {
    var first, others := items[0], items[1..];
    var tail := WriteItems(others) + "]" + rest;
    if others != [] { ListRoundTrip(others, rest); }
    ReadsItems(others, rest);
    EndsAfter(others, "]" + rest);
    JsonRoundTrip(first, tail);
    ReadsFirst(Write(first) + tail, first, tail, others, rest);
    ListedText(Write(first), WriteItems(others), "]", rest);
    assert [first] + others == items;
  }

  lemma {:induction false} ListedText(a: string, b: string, close: string, rest: string)
    ensures (a + b) + close + rest == a + (b + close + rest)
  {
  }

  lemma {:induction false} EndsAfter(items: seq<Json>, rest: string)
    requires Ends(rest)
    ensures Ends(WriteItems(items) + rest)
  {
  }

  lemma {:induction false} FieldListRoundTrip(fields: seq<Field>, rest: string)
    requires fields != []
    ensures ReadFirstField(ListedFields(fields) + "}" + rest) == Some(Read(fields, rest))
    decreases fields, 1
  {
    var first, others := fields[0], fields[1..];
    var tail := WriteFields(others) + "}" + rest;
    var behind := Write(first.value) + tail;
    if others != [] { FieldListRoundTrip(others, rest); }
    ReadsFields(others, rest);
    EndsAfterFields(others, "}" + rest);
    JsonRoundTrip(first.value, tail);
    QuotedRoundTrip(first.key, ":" + behind);
    ReadsFirstField(Quote(first.key) + (":" + behind), first.key, behind, first.value, tail, others, rest);
    FieldText(Quote(first.key), Write(first.value), WriteFields(others), rest);
    assert [first] + others == fields;
  }

  lemma {:induction false} EndsAfterFields(fields: seq<Field>, rest: string)
    requires Ends(rest)
    ensures Ends(WriteFields(fields) + rest)
  {
  }

  lemma {:induction false} FieldText(key: string, value: string, others: string, rest: string)
    ensures (key + ":" + value + others) + "}" + rest == key + (":" + (value + (others + "}" + rest)))
  {
  }

  lemma {:induction false} ParseWritten(j: Json)
    ensures Parse(Write(j)) == Some(j)
  {
    JsonRoundTrip(j, "");
    assert Write(j) + "" == Write(j);
  }
}
