/** Where a replay does not return what the live run returned, and exactly when it does. */
module ReplayLimits {
  import opened Options
  import opened Records
  import opened Errors
  import opened Handlers
  import opened Replay

  // ----- The type that marks a failed serialization -----

  /** A child that fails with its own body's error is replayed with the same kind exactly when that
      error does not record the type of a failed serialization. Everything else is the same. */
  lemma FailedChildReplay(c: Codec, ch: Choice, x: Id, u: UserErr)
    ensures
      var wire := FailureWire(u, c.text);
      var live, replayed := ChildResult(c, ch, x, Bad(u)), ReplayChild(c, x, RecordOf(ChildAction(c, ch, x, Bad(u))));
      && live.Err? && replayed.Err? && live.error.kind == ChildFailed
      && replayed.error.operation == live.error.operation && replayed.error.wire == live.error.wire == Some(wire)
      && (replayed == live <==> wire.errorType != Some(SERIALIZATION_TYPE))
      && (replayed != live ==> replayed.error.kind == ChildInternal)
  {
  }

  /** A child whose body passes on the error of a child it runs, and otherwise its value. */
  function Forwarding(v: Value): Prog {
    Do(Child(Return(v)), (r: OpResult) => if r.Ok? then Return(r.value) else Raise(Propagated(r.error)))
  }

  /** A body records that type by passing on an inner child whose result could not be serialized: the
      handler sees ChildFailed when it runs live, and Internal in every later invocation. */
  lemma {:induction false} PropagatedSerializationFailure(c: Codec, o: Oracle, v: Value, o': Oracle)
    requires forall x: Id :: o(x).start && o(x).end
    requires forall x: Id, salt: nat :: c.encode(x, v, salt).None?
    ensures
      var live := RunOp(c, o, map[], [], 1, Child(Forwarding(v)), 4);
      var again := RunOp(c, o', live.log, [], 1, Child(Forwarding(v)), 4);
      && live.result.Some? && live.result.value.Err? && live.result.value.error.kind == ChildFailed
      && again.result.Some? && again.result.value.Err? && again.result.value.error.kind == ChildInternal
      && again.result.value.error.wire == live.result.value.error.wire
  {
    var p := Forwarding(v);
    hide RunOp, RunProg;
    var q: Id := [] + [1];
    var inner := q + [1];
    var outerLog := Begun(map[], q);
    ChildUnfolds(c, o, map[], [], 1, p, 4);
    DoUnfolds(c, o, outerLog, q, 1, p, 3);
    ChildUnfolds(c, o, outerLog, q, 1, Return(v), 2);
    EndUnfolds(c, o, Begun(outerLog, inner), inner, 1, Return(v), 1);
    var e := RunOp(c, o, outerLog, q, 1, Child(Return(v)), 2);
    var wire := WireWithType(SerializeError(), SERIALIZATION_TYPE, c.text);
    assert e.result == Some(Err(Recorded(ChildInternal, inner, wire)));
    EndUnfolds(c, o, e.log, q, e.next, Raise(Propagated(e.result.value.error)), 2);
    var live := RunOp(c, o, map[], [], 1, Child(p), 4);
    assert Closed(live.log, q);
    ChildUnfolds(c, o', live.log, [], 1, p, 4);
  }

  // ----- A result that is rebuilt -----

  /** A child result that is not stored is rebuilt to the live result whatever the serdes does this
      time exactly when all encodings of the body's value decode alike. A stored one needs no such
      thing: see RecordReplaysChild. */
  lemma RebuiltExactlyWhenStable(c: Codec, x: Id, v: Value, payload: string)
    ensures SameDecoded(c, x, v, payload)
       <==> forall salt: nat ::
              RoundTrip(c, x, v, salt, SerializeError(), ChildInternal) == Decoded(c, x, payload, ChildInternal)
  {
    if SameDecoded(c, x, v, payload) {
      forall salt: nat
        ensures RoundTrip(c, x, v, salt, SerializeError(), ChildInternal) == Decoded(c, x, payload, ChildInternal)
      {
        SameRoundTrip(c, x, v, payload, salt, SerializeError(), ChildInternal);
      }
    } else {
      var salt: nat :| !(c.encode(x, v, salt).Some? && c.decode(x, c.encode(x, v, salt).value) == c.decode(x, payload));
      TextsDiffer();
      assert RoundTrip(c, x, v, salt, SerializeError(), ChildInternal) != Decoded(c, x, payload, ChildInternal);
    }
  }

  lemma TextsDiffer()
    ensures SERIALIZE_FAILED != "deserialize result"
  {
    assert SERIALIZE_FAILED[0] == 's' && "deserialize result"[0] == 'd';
  }
}
