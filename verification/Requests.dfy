/** The estimated wire size of an operation update, and the split of a sealed
    batch into size-capped requests.
 */
module Requests {
  import opened Options
  import opened JsonText

  datatype ErrorObject = ErrorObject(
    errorMessage: Option<string>,
    errorType: Option<string>,
    errorData: Option<string>,
    stackTrace: seq<string>)

  datatype OperationUpdate = OperationUpdate(
    id: string,
    parentId: Option<string>,
    name: Option<string>,
    subType: Option<string>,
    payload: Option<string>,
    error: Option<ErrorObject>)

  /** An update and the lifecycle event that travels with it. */
  datatype TrackedUpdate = TrackedUpdate(update: OperationUpdate, event: nat)

  datatype BatchLimits = BatchLimits(maxOperations: nat, maxPayloadBytes: nat)

  const STRUCTURAL_OVERHEAD: nat := 256

  // ----- Size estimate -----

  function OptLen(s: Option<string>): nat {
    if s.Some? then JsonEscapedLen(s.value) else 0
  }

  function FramesLen(frames: seq<string>): nat {
    if frames == [] then 0 else JsonEscapedLen(frames[0]) + FramesLen(frames[1..])
  }

  function ErrorLen(e: Option<ErrorObject>): nat {
    if e.None? then 0
    else OptLen(e.value.errorMessage) + OptLen(e.value.errorType) + OptLen(e.value.errorData)
         + FramesLen(e.value.stackTrace)
  }

  /** estimated_update_size */
  function EstimatedSize(u: OperationUpdate): (size: nat)
    ensures size >= STRUCTURAL_OVERHEAD
  {
    JsonEscapedLen(u.id) + OptLen(u.parentId) + OptLen(u.name) + OptLen(u.subType) + OptLen(u.payload)
    + ErrorLen(u.error) + STRUCTURAL_OVERHEAD
  }

  function Present(s: Option<string>): seq<string> {
    if s.Some? then [s.value] else []
  }

  /** Every string an update carries, in no particular grouping. */
  function StringFields(u: OperationUpdate): seq<string> {
    [u.id] + Present(u.parentId) + Present(u.name) + Present(u.subType) + Present(u.payload)
    + (if u.error.None? then []
       else Present(u.error.value.errorMessage) + Present(u.error.value.errorType)
            + Present(u.error.value.errorData) + u.error.value.stackTrace)
  }

  function Joined(parts: seq<string>): string {
    if parts == [] then "" else parts[0] + Joined(parts[1..])
  }

  lemma {:induction false} JoinedConcat(a: seq<string>, b: seq<string>)
    ensures Joined(a + b) == Joined(a) + Joined(b)
  {
    if a == [] {
      assert a + b == b;
    } else {
      assert (a + b)[1..] == a[1..] + b;
      JoinedConcat(a[1..], b);
    }
  }

  lemma {:induction false} JoinedLen(parts: seq<string>)
    ensures JsonEscapedLen(Joined(parts)) == FramesLen(parts)
  {
    if parts != [] {
      EscapedLenConcat(parts[0], Joined(parts[1..]));
      JoinedLen(parts[1..]);
    }
  }

  lemma {:induction false} FramesConcat(a: seq<string>, b: seq<string>)
    ensures FramesLen(a + b) == FramesLen(a) + FramesLen(b)
  {
    JoinedLen(a); JoinedLen(b); JoinedLen(a + b);
    JoinedConcat(a, b);
    EscapedLenConcat(Joined(a), Joined(b));
  }

  /** The estimate is the overhead plus the exact number of bytes that the escaped text
      of every string field takes on the wire, measured on the fields put end to end. */
  lemma EstimateCountsEveryField(u: OperationUpdate)
    ensures EstimatedSize(u) == 256 + |Utf8(Escape(Joined(StringFields(u))))|
  {
    EscapedLenIsExact(Joined(StringFields(u)));
    JoinedLen(StringFields(u));
    var head := [u.id];
    var parent, name, sub, payload := Present(u.parentId), Present(u.name), Present(u.subType), Present(u.payload);
    FramesConcat(head, parent);
    FramesConcat(head + parent, name);
    FramesConcat(head + parent + name, sub);
    FramesConcat(head + parent + name + sub, payload);
    PresentLen(u.parentId); PresentLen(u.name); PresentLen(u.subType); PresentLen(u.payload);
    PresentLen(Some(u.id));
    if u.error.Some? {
      var e := u.error.value;
      var message, kind, data := Present(e.errorMessage), Present(e.errorType), Present(e.errorData);
      FramesConcat(message, kind);
      FramesConcat(message + kind, data);
      FramesConcat(message + kind + data, e.stackTrace);
      FramesConcat(head + parent + name + sub + payload, message + kind + data + e.stackTrace);
      PresentLen(e.errorMessage); PresentLen(e.errorType); PresentLen(e.errorData);
    } else {
      assert StringFields(u) == head + parent + name + sub + payload;
    }
  }

  lemma PresentLen(s: Option<string>)
    ensures FramesLen(Present(s)) == OptLen(s)
  {
  }

  // ----- Splitting -----

  type Chunk = seq<TrackedUpdate>

  function Bytes(updates: Chunk): nat {
    if updates == [] then 0 else Bytes(updates[..|updates| - 1]) + EstimatedSize(updates[|updates| - 1].update)
  }

  function Flatten(chunks: seq<Chunk>): Chunk {
    if chunks == [] then [] else chunks[0] + Flatten(chunks[1..])
  }

  function CountCap(limits: BatchLimits): nat {
    if limits.maxOperations == 0 then 1 else limits.maxOperations
  }

  /** What one request may hold. A single update is always allowed. */
  ghost predicate Fits(chunk: Chunk, limits: BatchLimits) {
    && 1 <= |chunk|
    && (|chunk| == 1 || (|chunk| <= limits.maxOperations && Bytes(chunk) <= limits.maxPayloadBytes))
  }

  /** An order-preserving partition of updates into requests within the caps. */
  ghost predicate IsPartition(p: seq<Chunk>, updates: Chunk, limits: BatchLimits) {
    && Flatten(p) == updates
    && forall i :: 0 <= i < |p| ==> Fits(p[i], limits)
  }

  predicate Overflows(current: Chunk, u: TrackedUpdate, limits: BatchLimits) {
    || |current| >= CountCap(limits)
    || (current != [] && Bytes(current) + EstimatedSize(u.update) > limits.maxPayloadBytes)
  }

  /** The requests that the loop still produces from the open request and the updates left. */
  function SplitFrom(current: Chunk, rest: Chunk, limits: BatchLimits): seq<Chunk>
    decreases |rest|
  {
    if rest == [] then
      if current == [] then [] else [current]
    else if Overflows(current, rest[0], limits) then
      [current] + SplitFrom([rest[0]], rest[1..], limits)
    else
      SplitFrom(current + [rest[0]], rest[1..], limits)
  }

  function Split(updates: Chunk, limits: BatchLimits): seq<Chunk> {
    SplitFrom([], updates, limits)
  }

  ghost predicate BoundedBytes(chunk: Chunk, limits: BatchLimits) {
    || Bytes(chunk) <= limits.maxPayloadBytes
    || exists u :: u in chunk && Bytes(chunk) <= EstimatedSize(u.update)
  }

  /** split_into_requests. The result loses nothing, keeps the order, respects both caps, and
      no other partition within the caps is shorter. */
  method SplitIntoRequests(updates: Chunk, limits: BatchLimits) returns (requests: seq<Chunk>)
    ensures requests == Split(updates, limits)
    ensures IsPartition(requests, updates, limits)
    ensures forall p :: IsPartition(p, updates, limits) ==> |requests| <= |p|
  {
    requests := [];
    var current: Chunk := [];
    var currentBytes := 0;
    for i := 0 to |updates|
      invariant currentBytes == Bytes(current)
      invariant requests + SplitFrom(current, updates[i..], limits) == Split(updates, limits)
      invariant |current| <= CountCap(limits)
      // The running sum stays within the cap or within one update's size.
      invariant BoundedBytes(current, limits)
    {
      var tracked := updates[i];
      var size := EstimatedSize(tracked.update);
      var overCount := |current| >= if limits.maxOperations >= 1 then limits.maxOperations else 1;
      var overBytes := current != [] && currentBytes + size > limits.maxPayloadBytes;
      SplitStep(requests, current, updates[i..], limits);
      assert updates[i..][1..] == updates[i + 1..];
      if overCount || overBytes {
        requests := requests + [current];
        current := [];
        currentBytes := 0;
      }
      BytesSnoc(current, tracked);
      currentBytes := currentBytes + size;
      current := current + [tracked];
      assert tracked in current;
    }
    if current != [] {
      requests := requests + [current];
    }
    SplitIsPartition([], updates, limits);
    forall p | IsPartition(p, updates, limits) ensures |requests| <= |p| {
      SplitIsMinimal(updates, p, limits);
    }
  }

  // ----- Correctness of the split -----

  /** One turn of the loop leaves what it will have produced unchanged. */
  lemma SplitStep(requests: seq<Chunk>, current: Chunk, rest: Chunk, limits: BatchLimits)
    requires rest != []
    ensures
      if Overflows(current, rest[0], limits) then
        requests + SplitFrom(current, rest, limits)
        == requests + [current] + SplitFrom([] + [rest[0]], rest[1..], limits)
      else
        requests + SplitFrom(current, rest, limits) == requests + SplitFrom(current + [rest[0]], rest[1..], limits)
  {
    assert [] + [rest[0]] == [rest[0]];
  }

  lemma BytesSnoc(chunk: Chunk, u: TrackedUpdate)
    ensures Bytes(chunk + [u]) == Bytes(chunk) + EstimatedSize(u.update)
  {
    assert (chunk + [u])[..|chunk|] == chunk;
  }

  lemma {:induction false} BytesConcat(a: Chunk, b: Chunk)
    ensures Bytes(a + b) == Bytes(a) + Bytes(b)
  {
    if b == [] {
      assert a + b == a;
    } else {
      var init := b[..|b| - 1];
      assert (a + b)[..|a + b| - 1] == a + init;
      BytesConcat(a, init);
    }
  }

  /** The open request keeps to the caps, so every closed one does too. */
  lemma {:induction false} SplitIsPartition(current: Chunk, rest: Chunk, limits: BatchLimits)
    requires current == [] || Fits(current, limits)
    ensures IsPartition(SplitFrom(current, rest, limits), current + rest, limits)
    decreases |rest|
  {
    if rest == [] {
      assert current + rest == current;
      assert current != [] ==> Flatten([current]) == current;
    } else {
      var u := rest[0];
      BytesSnoc(current, u);
      if Overflows(current, u, limits) {
        SplitIsPartition([u], rest[1..], limits);
        assert current + rest == current + ([u] + rest[1..]);
      } else {
        SplitIsPartition(current + [u], rest[1..], limits);
        assert current + rest == current + [u] + rest[1..];
      }
    }
  }

  /** A partition of a text gives one of any of its suffixes that is no longer. */
  lemma {:induction false} DropFront(p: seq<Chunk>, updates: Chunk, n: nat, limits: BatchLimits)
      returns (q: seq<Chunk>)
    requires IsPartition(p, updates, limits) && n <= |updates|
    ensures IsPartition(q, updates[n..], limits) && |q| <= |p|
  {
    if p == [] {
      q := [];
    } else if n < |p[0]| {
      var head := p[0];
      BytesConcat(head[..n], head[n..]);
      assert head == head[..n] + head[n..];
      q := [head[n..]] + p[1..];
      assert updates[n..] == head[n..] + Flatten(p[1..]);
    } else {
      assert updates[|p[0]|..] == Flatten(p[1..]);
      q := DropFront(p[1..], updates[|p[0]|..], n - |p[0]|, limits);
      assert updates[|p[0]|..][n - |p[0]|..] == updates[n..];
    }
  }

  /** A request that already overflows with its next update is never longer in another partition. */
  lemma FirstChunkBound(current: Chunk, u: TrackedUpdate, rest: Chunk, p: seq<Chunk>, limits: BatchLimits)
    requires current != [] && Overflows(current, u, limits)
    requires IsPartition(p, current + [u] + rest, limits)
    ensures p != [] && |p[0]| <= |current|
  {
    var all := current + [u] + rest;
    assert p != [] && p[0] == all[..|p[0]|];
    if |p[0]| > |current| {
      var over := current + [u];
      assert p[0] == over + p[0][|over|..];
      BytesConcat(over, p[0][|over|..]);
      BytesSnoc(current, u);
    }
  }

  lemma {:induction false} SplitFromIsMinimal(current: Chunk, rest: Chunk, p: seq<Chunk>, limits: BatchLimits)
    requires current != [] && IsPartition(p, current + rest, limits)
    ensures |SplitFrom(current, rest, limits)| <= |p|
    decreases |rest|
  {
    if rest == [] {
    } else {
      var u, tail := rest[0], rest[1..];
      assert current + rest == current + [u] + tail;
      if Overflows(current, u, limits) {
        FirstChunkBound(current, u, tail, p, limits);
        var n := |p[0]|;
        var after := (current + rest)[n..];
        assert after == Flatten(p[1..]);
        assert IsPartition(p[1..], after, limits);
        var q := DropFront(p[1..], after, |current| - n, limits);
        assert after[|current| - n..] == [u] + tail;
        SplitFromIsMinimal([u], tail, q, limits);
      } else {
        SplitFromIsMinimal(current + [u], tail, p, limits);
      }
    }
  }

  /** No partition within the caps has fewer requests than the greedy split. */
  lemma SplitIsMinimal(updates: Chunk, p: seq<Chunk>, limits: BatchLimits)
    requires IsPartition(p, updates, limits)
    ensures |Split(updates, limits)| <= |p|
  {
    if updates != [] {
      assert updates == [updates[0]] + updates[1..];
      assert !Overflows([], updates[0], limits);
      assert [] + [updates[0]] == [updates[0]];
      SplitFromIsMinimal([updates[0]], updates[1..], p, limits);
    }
  }

  /** The split of a batch is empty exactly when the batch is. */
  lemma SplitEmpty(updates: Chunk, limits: BatchLimits)
    ensures Flatten(Split(updates, limits)) == updates
    ensures Split(updates, limits) == [] <==> updates == []
  {
    SplitIsPartition([], updates, limits);
    assert [] + updates == updates;
  }
}
