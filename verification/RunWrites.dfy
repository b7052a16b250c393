/** What the operations of whole runs and executions write: every write is the START of an operation that the run
    reached, or the one outcome it has to record.
 */
module RunWrites {
  import opened Records
  import opened Combinators
  import opened Options
  import opened Handlers
  import opened Outcomes
  import opened Runs
  import opened Decimals
  import F = CombinatorFailures
  import O = SettleOrder

  // ----- The operations of a run -----

  /** An operation that a run reached, with what it is made of: what its body returned, or what of its inputs
      completed. */
  datatype Site =
    | LeafSite(id: Id, source: LeafKind)
    | ChildSite(id: Id, result: Option<UserResult>)
    | JoinSite(id: Id, kind: CombinatorKind, done: O.Done)

  ghost function OpSites(c: Codec, o: Oracle, log: Log, q: Id, n: nat, op: Op, fuel: nat): set<Site>
    decreases fuel, 0
  {
    if fuel == 0 then {}
    else
      match op
      case Leaf(source) => {LeafSite(q + [n], source)}
      case Child(body) =>
        var x := q + [n];
        {ChildSite(x, RunProg(c, o, Begun(log, x), x, 1, body, fuel - 1).result)}
        + ProgSites(c, o, Begun(log, x), x, 1, body, fuel - 1)
      case Combine(kind, inputs) =>
        var x := q + [n + Widths(inputs)];
        var winner := WinnerDriven(log, x, kind, inputs);
        {JoinSite(x, kind, RunInputs(c, o, log, q, n, inputs, fuel - 1).done)}
        + if winner.None? then InputSites(c, o, log, q, n, inputs, fuel - 1)
          else OpSites(c, o, log, q, n + Widths(inputs[..winner.value]), inputs[winner.value], fuel - 1)
  }

  ghost function InputSites(c: Codec, o: Oracle, log: Log, q: Id, n: nat, inputs: seq<Op>, fuel: nat): set<Site>
    decreases fuel, 1, |inputs|
  {
    if inputs == [] then {}
    else
      var e := RunOp(c, o, log, q, n, inputs[0], fuel);
      OpSites(c, o, log, q, n, inputs[0], fuel) + InputSites(c, o, e.log, q, e.next, inputs[1..], fuel)
  }

  ghost function ProgSites(c: Codec, o: Oracle, log: Log, q: Id, n: nat, p: Prog, fuel: nat): set<Site>
    decreases fuel, 0
  {
    if !p.Do? || fuel == 0 then {}
    else
      var e := RunOp(c, o, log, q, n, p.op, fuel - 1);
      OpSites(c, o, log, q, n, p.op, fuel - 1)
      + (if e.result.None? then {} else ProgSites(c, o, e.log, q, e.next, p.k(e.result.value), fuel - 1))
  }

  predicate DrivesOne(kind: CombinatorKind) {
    kind.SelectOk? || kind.Race?
  }

  /** What an operation may write: its START, and the outcome that it has to record of what it is made of. A
      combinator writes none when it finds an execution-fatal error in the shared slot. */
  ghost predicate Allowed(c: Codec, ch: Choice, site: Site, a: Action) {
    a.Start?
    || match site
       case LeafSite(_, source) => LeafRecords(source, ch, a)
       case ChildSite(x, result) => result.Some? && ChildRecords(c, ch, x, result.value, a)
       case JoinSite(x, kind, done) => ch.fatal.None? && JoinRecords(c, ch, x, kind, done, a)
  }

  // ----- Positions -----

  ghost predicate WritesWithin(writes: seq<Write>, q: Id, lo: nat, hi: nat) {
    forall w | w in writes :: Within(w.id, q, lo, hi)
  }

  ghost predicate SitesWithin(sites: set<Site>, q: Id, lo: nat, hi: nat) {
    forall s | s in sites :: Within(s.id, q, lo, hi)
  }

  ghost predicate AllAllowed(c: Codec, o: Oracle, sites: set<Site>, writes: seq<Write>) {
    forall w, s | w in writes && s in sites && w.id == s.id :: Allowed(c, o(s.id), s, w.action)
  }

  ghost predicate HasSite(sites: set<Site>, id: Id) {
    exists s :: s in sites && s.id == id
  }

  ghost predicate AtSites(sites: set<Site>, writes: seq<Write>) {
    forall w | w in writes :: HasSite(sites, w.id)
  }

  /** The writes and the operations of a stretch that minted positions lo to hi of q. */
  ghost predicate Stretch(c: Codec, o: Oracle, sites: set<Site>, writes: seq<Write>, q: Id, lo: nat, hi: nat) {
    && WritesWithin(writes, q, lo, hi) && SitesWithin(sites, q, lo, hi)
    && AllAllowed(c, o, sites, writes) && AtSites(sites, writes)
  }

  lemma NoStretch(c: Codec, o: Oracle, q: Id, lo: nat, hi: nat)
    ensures Stretch(c, o, {}, [], q, lo, hi)
  {
  }

  lemma StretchWider(
      c: Codec, o: Oracle, sites: set<Site>, writes: seq<Write>, q: Id, lo: nat, hi: nat, lo': nat, hi': nat)
    requires Stretch(c, o, sites, writes, q, lo, hi) && lo' <= lo && hi <= hi'
    ensures Stretch(c, o, sites, writes, q, lo', hi')
  {
    hide Allowed;
  }

  /** Two stretches that follow each other write at different positions. */
  lemma StretchChain(
      c: Codec, o: Oracle, s1: set<Site>, w1: seq<Write>, s2: set<Site>, w2: seq<Write>, q: Id,
      lo: nat, mid: nat, hi: nat)
    requires Stretch(c, o, s1, w1, q, lo, mid) && Stretch(c, o, s2, w2, q, mid, hi) && lo <= mid <= hi
    ensures Stretch(c, o, s1 + s2, w1 + w2, q, lo, hi)
  {
    hide Allowed, HasSite;
    forall w | w in w1 + w2 ensures HasSite(s1 + s2, w.id) {
      if w in w1 { MoreSites(s1, s1 + s2, w.id); } else { MoreSites(s2, s1 + s2, w.id); }
    }
  }

  lemma MoreSites(sites: set<Site>, more: set<Site>, id: Id)
    requires HasSite(sites, id) && sites <= more
    ensures HasSite(more, id)
  {
  }

  /** Fewer writes, with the same operations. */
  lemma StretchLess(c: Codec, o: Oracle, sites: set<Site>, writes: seq<Write>, q: Id, lo: nat, hi: nat)
    requires Stretch(c, o, sites, writes, q, lo, hi)
    ensures Stretch(c, o, sites, [], q, lo, hi)
  {
    hide Allowed;
  }

  /** A body, inside its operation. */
  lemma StretchBody(c: Codec, o: Oracle, sites: set<Site>, body: seq<Write>, q: Id, n: nat, hi: nat)
    requires Stretch(c, o, sites, body, q + [n], 1, hi)
    ensures Stretch(c, o, sites, body, q, n, n + 1)
  {
    hide Allowed, HasSite;
    forall id | Within(id, q + [n], 1, hi) ensures Within(id, q, n, n + 1) { WithinChild(id, q, n, 1, hi); }
  }

  /** The writes of an operation around those of its body. */
  lemma StretchChild(
      c: Codec, o: Oracle, site: Site, sites: set<Site>, first: seq<Write>, body: seq<Write>, last: seq<Write>,
      q: Id, n: nat, hi: nat)
    requires Stretch(c, o, sites, body, q + [n], 1, hi) && site.id == q + [n]
    requires forall w | w in first + last :: w.id == q + [n] && Allowed(c, o(site.id), site, w.action)
    ensures Stretch(c, o, {site} + sites, first + body + last, q, n, n + 1)
  {
    var x := q + [n];
    hide Allowed, HasSite;
    assert x[..|q|] == q && !Within(x, x, 1, hi);
    StretchBody(c, o, sites, body, q, n, hi);
    IsSite({site} + sites, site);
    forall w | w in first + body + last
      ensures Within(w.id, q, n, n + 1) && HasSite({site} + sites, w.id)
      ensures forall s | s in {site} + sites && s.id == w.id :: Allowed(c, o(s.id), s, w.action)
    {
      assert w in first + last || w in body;
      if w in body { MoreSites(sites, {site} + sites, w.id); }
    }
  }

  lemma IsSite(sites: set<Site>, site: Site)
    requires site in sites
    ensures HasSite(sites, site.id)
  {
  }

  // ----- One layer -----

  /** A child writes its START, what its body writes, and its outcome. */
  lemma ChildWrites(c: Codec, ch: Choice, log: Log, x: Id, b: Exec<UserResult>, next: nat)
      returns (first: seq<Write>, last: seq<Write>)
    ensures
      var e := ChildRun(c, ch, log, x, b, next);
      e.writes == first + b.writes + last || e.writes == []
    ensures forall w | w in first + last :: w.id == x && Allowed(c, ch, ChildSite(x, b.result), w.action)
  {
    if b.result.Some? { ChildActionRecords(c, ch, x, b.result.value); }
    hide ChildRecords, ChildAction, ChildResult, ChildRepeats, SameDecoded, RoundTrip, Decoded;
    var e := ChildRun(c, ch, log, x, b, next);
    first, last := [], [];
    if !Closed(log, x) && !Settled(log, x) && (x in log || ch.start) {
      first := Begin(log, x);
      if b.result.Some? && ch.end { last := [Write(x, ChildAction(c, ch, x, b.result.value))]; }
      assert first + b.writes + [] == first + b.writes;
    } else {
      assert [] + b.writes + [] == b.writes;
    }
  }

  /** What a live join writes: its START, when it has no record and the START is acknowledged, and then the
      outcome, when it is decided, encoded and not overtaken by an execution-fatal error. */
  lemma JoinSettledWrites(c: Codec, ch: Choice, x: Id, kind: CombinatorKind, ins: Inputs, next: nat)
      returns (begun: seq<Write>, p: Option<string>)
    ensures begun == [] || begun == [Write(x, Start)]
    ensures
      var j := O.Outcome(kind, ins.done, ch.order);
      var e := JoinSettled(c, ch, x, kind, ins, next);
      if p.None? then e.writes == ins.writes + begun
      else
        && ch.fatal.None? && !j.Waiting? && (!j.Failure? ==> c.encode(x, Combined(j, c.text), ch.salt) == p)
        && e.writes == ins.writes + (begun + [Write(x, JoinAction(c, ch, x, kind, j, p.value))])
  {
    var j := O.Outcome(kind, ins.done, ch.order);
    hide O.Outcome, Combined, JoinAction, JoinResult, JoinRepeats;
    var e := JoinSettled(c, ch, x, kind, ins, next);
    begun := if x in ins.log || !ch.start then [] else [Write(x, Start)];
    p := if e.writes == ins.writes + begun then None
         else if j.Failure? then Some("")
         else c.encode(x, Combined(j, c.text), ch.salt);
    if p.Some? {
      var w := Write(x, JoinAction(c, ch, x, kind, j, p.value));
      assert ins.writes + begun + [w] == ins.writes + (begun + [w]);
    }
  }

  /** A live join adds to what its inputs wrote only what it may. */
  lemma JoinWritesAllowed(c: Codec, ch: Choice, x: Id, kind: CombinatorKind, ins: Inputs, next: nat)
      returns (own: seq<Write>)
    requires |ins.done| <= USIZE_MAX
    ensures JoinSettled(c, ch, x, kind, ins, next).writes == ins.writes + own
    ensures forall w | w in own :: w.id == x && Allowed(c, ch, JoinSite(x, kind, ins.done), w.action)
  {
    var begun, p := JoinSettledWrites(c, ch, x, kind, ins, next);
    own := begun;
    if p.Some? {
      JoinActionRecords(c, ch, x, kind, ins.done, p.value);
      own := begun + [Write(x, JoinAction(c, ch, x, kind, O.Outcome(kind, ins.done, ch.order), p.value))];
    }
    hide JoinSettled, O.Outcome, JoinAction, JoinRecords;
  }

  /** A combinator that drives all its inputs or none adds only what it may. */
  lemma CombineWrites(c: Codec, ch: Choice, log: Log, x: Id, kind: CombinatorKind, ins: Inputs, next: nat)
      returns (own: seq<Write>)
    requires |ins.done| <= USIZE_MAX
    ensures
      var e := CombineRun(c, ch, log, x, kind, ins, next);
      e.writes == [] || e.writes == ins.writes + own
    ensures forall w | w in own :: w.id == x && Allowed(c, ch, JoinSite(x, kind, ins.done), w.action)
  {
    own := [];
    if !Closed(log, x) {
      CombineCases(c, ch, log, x, kind, ins, next);
      if !Settled(log, x) {
        own := JoinWritesAllowed(c, ch, x, kind, ins, next);
      } else {
        assert ins.writes + [] == ins.writes;
      }
    }
    hide CollectionRebuilt, JoinSettled, ReplayCombinator, Allowed;
  }

  lemma StretchOwn(c: Codec, o: Oracle, site: Site, own: seq<Write>, q: Id, at: nat)
    requires site.id == q + [at]
    requires forall w | w in own :: w.id == site.id && Allowed(c, o(site.id), site, w.action)
    ensures Stretch(c, o, {site}, own, q, at, at + 1)
  {
    hide Allowed, HasSite;
    assert (q + [at])[..|q|] == q;
    IsSite({site}, site);
  }

  // ----- Whole runs -----

  lemma {:induction false} OpStretch(c: Codec, o: Oracle, log: Log, q: Id, n: nat, op: Op, fuel: nat)
    ensures
      var e := RunOp(c, o, log, q, n, op, fuel);
      Stretch(c, o, OpSites(c, o, log, q, n, op, fuel), e.writes, q, n, n + Width(op))
    decreases fuel, 2
  {
    hide *;
    WidthFacts(op);
    SitesUnfold(c, o, log, q, n, op, fuel);
    NoStretch(c, o, q, n, n + Width(op));
    if fuel == 0 {
      NoFuel(c, o, log, q, n, op);
    } else {
      match op
      case Leaf(source) =>
        LeafUnfolds(c, source, o, log, q, n, fuel);
        LeafStretch(c, source, o, log, q, n);
      case Child(body) =>
        var x := q + [n];
        var b := RunProg(c, o, Begun(log, x), x, 1, body, fuel - 1);
        var sites := ProgSites(c, o, Begun(log, x), x, 1, body, fuel - 1);
        ChildUnfolds(c, o, log, q, n, body, fuel);
        ProgStretch(c, o, Begun(log, x), x, 1, body, fuel - 1);
        var first, last := ChildWrites(c, o(x), log, x, b, n + 1);
        var site := ChildSite(x, b.result);
        StretchChild(c, o, site, sites, first, b.writes, last, q, n, b.next);
        StretchLess(c, o, {site} + sites, first + b.writes + last, q, n, n + 1);
      case Combine(kind, inputs) => CombineStretch(c, o, log, q, n, kind, inputs, fuel);
    }
  }

  lemma {:induction false} SitesUnfold(c: Codec, o: Oracle, log: Log, q: Id, n: nat, op: Op, fuel: nat)
    ensures fuel == 0 ==> OpSites(c, o, log, q, n, op, fuel) == {}
    ensures fuel > 0 && op.Leaf? ==> OpSites(c, o, log, q, n, op, fuel) == {LeafSite(q + [n], op.source)}
    ensures fuel > 0 && op.Child? ==>
      var x := q + [n];
      OpSites(c, o, log, q, n, op, fuel)
      == {ChildSite(x, RunProg(c, o, Begun(log, x), x, 1, op.body, fuel - 1).result)}
         + ProgSites(c, o, Begun(log, x), x, 1, op.body, fuel - 1)
    ensures fuel > 0 && op.Combine? ==>
      var x := q + [n + Widths(op.inputs)];
      var winner := WinnerDriven(log, x, op.kind, op.inputs);
      OpSites(c, o, log, q, n, op, fuel)
      == {JoinSite(x, op.kind, RunInputs(c, o, log, q, n, op.inputs, fuel - 1).done)}
         + if winner.None? then InputSites(c, o, log, q, n, op.inputs, fuel - 1)
           else OpSites(c, o, log, q, n + Widths(op.inputs[..winner.value]), op.inputs[winner.value], fuel - 1)
  {
    hide ProgSites, InputSites, Widths, Begun, WinnerDriven, RunProg, RunInputs;
  }

  lemma LeafStretch(c: Codec, source: LeafKind, o: Oracle, log: Log, q: Id, n: nat)
    ensures
      var e := RunLeaf(c, source, o(q + [n]), log, q + [n], n + 1);
      Stretch(c, o, {LeafSite(q + [n], source)}, e.writes, q, n, n + 1)
  {
    var ch := o(q + [n]);
    if ch.leaf.Some? { LeafActionRecords(source, ch); }
    hide LeafAction, LeafResult, ReplayLeaf, LeafRecords, Stretch;
    StretchOwn(c, o, LeafSite(q + [n], source), RunLeaf(c, source, ch, log, q + [n], n + 1).writes, q, n);
  }

  lemma {:induction false} CombineStretch(
      c: Codec, o: Oracle, log: Log, q: Id, n: nat, kind: CombinatorKind, inputs: seq<Op>, fuel: nat)
    requires fuel > 0
    ensures
      var op := Combine(kind, inputs);
      var e := RunOp(c, o, log, q, n, op, fuel);
      Stretch(c, o, OpSites(c, o, log, q, n, op, fuel), e.writes, q, n, n + Widths(inputs) + 1)
    decreases fuel, 1
  {
    hide *;
    var at := n + Widths(inputs);
    var x := q + [at];
    var site := JoinSite(x, kind, RunInputs(c, o, log, q, n, inputs, fuel - 1).done);
    SitesUnfold(c, o, log, q, n, Combine(kind, inputs), fuel);
    var winner := WinnerDriven(log, x, kind, inputs);
    if winner.Some? {
      WinnerStretch(c, o, log, q, n, inputs, winner.value, fuel - 1);
    } else {
      InputsStretch(c, o, log, q, n, inputs, fuel - 1);
    }
    if |inputs| > USIZE_MAX {
      TooManyInputs(c, o, log, q, n, kind, inputs, fuel);
      WidthFacts(Combine(kind, inputs));
      if winner.Some? {
        var i := winner.value;
        var input := RunOp(c, o, log, q, n + Widths(inputs[..i]), inputs[i], fuel - 1);
        var sites := OpSites(c, o, log, q, n + Widths(inputs[..i]), inputs[i], fuel - 1);
        StretchLess(c, o, sites, input.writes, q, n, at);
        StretchWithOwn(c, o, site, sites, [], [], q, n, at);
      } else {
        var ins := RunInputs(c, o, log, q, n, inputs, fuel - 1);
        StretchLess(c, o, InputSites(c, o, log, q, n, inputs, fuel - 1), ins.writes, q, n, at);
        StretchWithOwn(c, o, site, InputSites(c, o, log, q, n, inputs, fuel - 1), [], [], q, n, at);
      }
    } else {
      CombineUnfolds(c, o, log, q, n, kind, inputs, fuel);
      if winner.Some? {
        var i := winner.value;
        var input := RunOp(c, o, log, q, n + Widths(inputs[..i]), inputs[i], fuel - 1);
        WinnerCases(c, o(x), x, input, at + 1);
        StretchWithOwn(
          c, o, site, OpSites(c, o, log, q, n + Widths(inputs[..i]), inputs[i], fuel - 1), input.writes, [], q, n, at);
      } else {
        JoinStretch(c, o, log, q, n, kind, inputs, fuel);
      }
    }
  }

  /** A combinator that drives all its inputs, or none. */
  lemma {:induction false} JoinStretch(
      c: Codec, o: Oracle, log: Log, q: Id, n: nat, kind: CombinatorKind, inputs: seq<Op>, fuel: nat)
    requires fuel > 0 && |inputs| <= USIZE_MAX && WinnerDriven(log, q + [n + Widths(inputs)], kind, inputs).None?
    requires
      var ins := RunInputs(c, o, log, q, n, inputs, fuel - 1);
      Stretch(c, o, InputSites(c, o, log, q, n, inputs, fuel - 1), ins.writes, q, n, n + Widths(inputs))
    ensures
      var at := n + Widths(inputs);
      var sites := InputSites(c, o, log, q, n, inputs, fuel - 1);
      var e := RunOp(c, o, log, q, n, Combine(kind, inputs), fuel);
      var site := JoinSite(q + [at], kind, RunInputs(c, o, log, q, n, inputs, fuel - 1).done);
      Stretch(c, o, {site} + sites, e.writes, q, n, at + 1)
  {
    hide *;
    var at := n + Widths(inputs);
    var x := q + [at];
    var site := JoinSite(x, kind, RunInputs(c, o, log, q, n, inputs, fuel - 1).done);
    var ins := RunInputs(c, o, log, q, n, inputs, fuel - 1);
    var sites := InputSites(c, o, log, q, n, inputs, fuel - 1);
    CombineUnfolds(c, o, log, q, n, kind, inputs, fuel);
    StretchLess(c, o, sites, ins.writes, q, n, at);
    StretchWithOwn(c, o, site, sites, [], [], q, n, at);
    DrivesWinnerCases(log, x, kind, inputs);
    SettledFacts(log, x);
    if DrivesWinner(log, x, kind) {
      NoWinnerCases(log, WinnerOf(log[x]), |inputs|, at + 1);
    } else {
      var own := CombineWrites(c, o(x), log, x, kind, ins, at + 1);
      StretchWithOwn(c, o, site, sites, ins.writes, own, q, n, at);
    }
  }

  /** A stretch with the combinator that follows it. */
  lemma StretchWithOwn(
      c: Codec, o: Oracle, site: Site, sites: set<Site>, writes: seq<Write>, own: seq<Write>, q: Id, n: nat, at: nat)
    requires site.id == q + [at] && n <= at && Stretch(c, o, sites, writes, q, n, at)
    requires forall w | w in own :: w.id == site.id && Allowed(c, o(site.id), site, w.action)
    ensures Stretch(c, o, {site} + sites, writes + own, q, n, at + 1)
    ensures writes + [] == writes
  {
    hide Stretch, Allowed;
    StretchOwn(c, o, site, own, q, at);
    StretchChain(c, o, sites, writes, {site}, own, q, n, at, at + 1);
    assert sites + {site} == {site} + sites;
  }

  lemma {:induction false} WinnerStretch(
      c: Codec, o: Oracle, log: Log, q: Id, n: nat, inputs: seq<Op>, winner: nat, fuel: nat)
    requires winner < |inputs|
    ensures
      var from := n + Widths(inputs[..winner]);
      var e := RunOp(c, o, log, q, from, inputs[winner], fuel);
      Stretch(c, o, OpSites(c, o, log, q, from, inputs[winner], fuel), e.writes, q, n, n + Widths(inputs))
    decreases fuel, 3
  {
    hide *;
    var from := n + Widths(inputs[..winner]);
    OpStretch(c, o, log, q, from, inputs[winner], fuel);
    OffsetInside(inputs, winner);
    StretchWider(c, o, OpSites(c, o, log, q, from, inputs[winner], fuel),
                 RunOp(c, o, log, q, from, inputs[winner], fuel).writes,
                 q, from, from + Width(inputs[winner]), n, n + Widths(inputs));
  }

  lemma {:induction false} InputsStretch(c: Codec, o: Oracle, log: Log, q: Id, n: nat, inputs: seq<Op>, fuel: nat)
    ensures
      var ins := RunInputs(c, o, log, q, n, inputs, fuel);
      Stretch(c, o, InputSites(c, o, log, q, n, inputs, fuel), ins.writes, q, n, n + Widths(inputs))
    decreases fuel, 3, |inputs|
  {
    hide *;
    InputSitesUnfold(c, o, log, q, n, inputs, fuel);
    if inputs == [] {
      NoInputsRun(c, o, log, q, n, fuel);
      NoStretch(c, o, q, n, n + Widths(inputs));
    } else {
      var e := RunOp(c, o, log, q, n, inputs[0], fuel);
      var rest := RunInputs(c, o, e.log, q, e.next, inputs[1..], fuel);
      InputsUnfold(c, o, log, q, n, inputs, fuel);
      WidthsStep(inputs, 0);
      OpStretch(c, o, log, q, n, inputs[0], fuel);
      InputsStretch(c, o, e.log, q, e.next, inputs[1..], fuel);
      StretchChain(c, o, OpSites(c, o, log, q, n, inputs[0], fuel), e.writes,
                   InputSites(c, o, e.log, q, e.next, inputs[1..], fuel), rest.writes, q, n, e.next,
                     n + Widths(inputs));
    }
  }

  lemma {:induction false} InputSitesUnfold(
      c: Codec, o: Oracle, log: Log, q: Id, n: nat, inputs: seq<Op>, fuel: nat)
    ensures inputs == [] ==> InputSites(c, o, log, q, n, inputs, fuel) == {}
    ensures inputs != [] ==>
      var e := RunOp(c, o, log, q, n, inputs[0], fuel);
      InputSites(c, o, log, q, n, inputs, fuel)
      == OpSites(c, o, log, q, n, inputs[0], fuel) + InputSites(c, o, e.log, q, e.next, inputs[1..], fuel)
  {
    hide RunOp, OpSites;
  }

  lemma {:induction false} ProgStretch(c: Codec, o: Oracle, log: Log, q: Id, n: nat, p: Prog, fuel: nat)
    ensures
      var e := RunProg(c, o, log, q, n, p, fuel);
      Stretch(c, o, ProgSites(c, o, log, q, n, p, fuel), e.writes, q, n, e.next)
    decreases fuel, 0
  {
    hide *;
    ProgSitesUnfold(c, o, log, q, n, p, fuel);
    EndUnfolds(c, o, log, q, n, p, fuel);
    NoStretch(c, o, q, n, n);
    if p.Do? && fuel > 0 {
      var e := RunOp(c, o, log, q, n, p.op, fuel - 1);
      DoUnfolds(c, o, log, q, n, p, fuel);
      OpStretch(c, o, log, q, n, p.op, fuel - 1);
      InterruptedFacts<UserResult>(e.log, e.writes, e.next);
      if e.result.Some? {
        var k := p.k(e.result.value);
        var rest := RunProg(c, o, e.log, q, e.next, k, fuel - 1);
        ProgStretch(c, o, e.log, q, e.next, k, fuel - 1);
        ThenFacts(e, rest);
        StretchChain(c, o, OpSites(c, o, log, q, n, p.op, fuel - 1), e.writes,
                     ProgSites(c, o, e.log, q, e.next, k, fuel - 1), rest.writes, q, n, e.next, rest.next);
      } else {
        assert ProgSites(c, o, log, q, n, p, fuel) == OpSites(c, o, log, q, n, p.op, fuel - 1);
      }
    }
  }

  lemma {:induction false} ProgSitesUnfold(c: Codec, o: Oracle, log: Log, q: Id, n: nat, p: Prog, fuel: nat)
    ensures !p.Do? || fuel == 0 ==> ProgSites(c, o, log, q, n, p, fuel) == {}
    ensures p.Do? && fuel > 0 ==>
      var e := RunOp(c, o, log, q, n, p.op, fuel - 1);
      ProgSites(c, o, log, q, n, p, fuel)
      == OpSites(c, o, log, q, n, p.op, fuel - 1)
         + if e.result.None? then {} else ProgSites(c, o, e.log, q, e.next, p.k(e.result.value), fuel - 1)
  {
    hide RunOp, OpSites;
  }

  // ----- Theorems -----

  /** Every write of a run is at an operation that the run reached, and is its START or the one outcome it has
      to record: the outcome of the step, of the child's body or of the combinator over the inputs that
      completed. */
  lemma EveryWriteIsOwed(c: Codec, o: Oracle, log: Log, q: Id, n: nat, p: Prog, fuel: nat)
    ensures
      var writes := RunProg(c, o, log, q, n, p, fuel).writes;
      var sites := ProgSites(c, o, log, q, n, p, fuel);
      AtSites(sites, writes) && AllAllowed(c, o, sites, writes)
  {
    hide RunProg, ProgSites, Allowed;
    ProgStretch(c, o, log, q, n, p, fuel);
  }

  /** The same of every execution, over all its invocations and whatever the service drops between them: each
      write is one that the invocation it is of owes. A combinator that finds an execution-fatal error in
      the shared slot owes no outcome. */
  lemma {:induction false} EveryExecutionWriteIsOwed(
      c: Codec, oracles: seq<Oracle>, logs: seq<Log>, p: Prog, fuel: nat, k: nat, w: Write) returns (i: nat)
    requires k <= |oracles| && k <= |logs| && w in AllWrites(c, oracles, logs, p, fuel, k)
    ensures i < k && w in RunProg(c, oracles[i], logs[i], [], 1, p, fuel).writes
    ensures
      var sites := ProgSites(c, oracles[i], logs[i], [], 1, p, fuel);
      && HasSite(sites, w.id)
      && forall s | s in sites && s.id == w.id ::
           && Allowed(c, oracles[i](s.id), s, w.action)
           && (s.JoinSite? && oracles[i](s.id).fatal.Some? ==> w.action.Start?)
  {
    hide RunProg, ProgSites, JoinRecords, ChildRecords, LeafRecords, HasSite;
    if w in RunProg(c, oracles[k - 1], logs[k - 1], [], 1, p, fuel).writes {
      i := k - 1;
      ProgStretch(c, oracles[i], logs[i], [], 1, p, fuel);
    } else {
      i := EveryExecutionWriteIsOwed(c, oracles, logs, p, fuel, k - 1, w);
    }
  }

  /** Every recorded success of an execution stores a payload. The combinator that wrote it, if it is a race
      or a select_ok and stored no value, named one of its inputs, whatever the serdes does. */
  lemma {:induction false} WinnersInRange(
      c: Codec, oracles: seq<Oracle>, logs: seq<Log>, p: Prog, fuel: nat, k: nat, id: Id) returns (i: nat)
    requires Execution(c, oracles, logs, p, fuel) && k < |logs| && id in logs[k] && logs[k][id].status.Succeeded?
    ensures i < k
    ensures
      var record := logs[k][id];
      && record.payload.Some?
      && Write(id, Succeed(record.payload.value, record.replayChildren))
         in RunProg(c, oracles[i], logs[i], [], 1, p, fuel).writes
      && forall s | s in ProgSites(c, oracles[i], logs[i], [], 1, p, fuel) && s.id == id
                    && record.replayChildren && s.JoinSite? && DrivesOne(s.kind) ::
           WinnerOf(record).Some? && WinnerOf(record).value < |s.done|
  {
    hide RunProg, ProgSites, F.ParseWinner, LegalWrites, AfterWrites, JoinRecords;
    var o, log := oracles[k - 1], logs[k - 1];
    var e := RunProg(c, o, log, [], 1, p, fuel);
    assert Pruned(e.log, logs[k - 1 + 1]);
    ProgWritesLegally(c, o, log, [], 1, p, fuel);
    ProgStretch(c, o, log, [], 1, p, fuel);
    var a := RecordWritten(log, e.writes, id);
    if Write(id, a) in e.writes && e.log[id] == RecordOf(a) {
      i := k - 1;
      forall s | s in ProgSites(c, o, log, [], 1, p, fuel) && s.id == id
                 && a.replayChildren && s.JoinSite? && DrivesOne(s.kind)
        ensures WinnerOf(logs[k][id]).Some? && WinnerOf(logs[k][id]).value < |s.done|
      {
        FlaggedWinner(c, o(id), id, s.kind, s.done, a);
      }
    } else {
      i := WinnersInRange(c, oracles, logs, p, fuel, k - 1, id);
    }
  }

  lemma FlaggedWinner(c: Codec, ch: Choice, x: Id, kind: CombinatorKind, done: O.Done, a: Action)
    requires JoinRecords(c, ch, x, kind, done, a) && a.Succeed? && a.replayChildren && DrivesOne(kind)
    ensures F.ParseWinner(a.payload).Some? && F.ParseWinner(a.payload).value < |done|
  {
    hide F.ParseWinner, Settles, TooLarge;
  }
}
