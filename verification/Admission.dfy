/** The scopes of one invocation: which are closed, and the operation tasks started
    inside each of them.

    The class is the lock-guarded object. The value AdmissionState is what its lock
    protects, and the runs at the end are over every order of closes, registrations
    and task completions.
 */
module Admission {

  type Scope = string

  /** A task as registered: the owners of the context that started it, and its handle. */
  datatype Registration = Registration(owners: seq<Scope>, task: nat)

  datatype AdmissionState = AdmissionState(abandoned: set<Scope>, tasks: seq<Registration>)

  predicate ClosedOwner(owners: seq<Scope>, abandoned: set<Scope>) {
    exists owner <- owners :: owner in abandoned
  }

  predicate Admits(st: AdmissionState, owners: seq<Scope>) {
    !ClosedOwner(owners, st.abandoned)
  }

  /** The registrations with a closed owner, in order. */
  function Stopped(tasks: seq<Registration>, abandoned: set<Scope>): seq<Registration> {
    if tasks == [] then []
    else (if ClosedOwner(tasks[0].owners, abandoned) then [tasks[0]] else []) + Stopped(tasks[1..], abandoned)
  }

  /** The registrations without a closed owner, in order. */
  function Kept(tasks: seq<Registration>, abandoned: set<Scope>): seq<Registration> {
    if tasks == [] then []
    else (if ClosedOwner(tasks[0].owners, abandoned) then [] else [tasks[0]]) + Kept(tasks[1..], abandoned)
  }

  /** The registrations whose task runs. */
  function Running(tasks: seq<Registration>, finished: set<nat>): seq<Registration> {
    if tasks == [] then []
    else (if tasks[0].task in finished then [] else [tasks[0]]) + Running(tasks[1..], finished)
  }

  function AfterAbandon(st: AdmissionState, scopes: set<Scope>): AdmissionState {
    var abandoned := st.abandoned + scopes;
    AdmissionState(abandoned, Kept(st.tasks, abandoned))
  }

  function AfterRegister(st: AdmissionState, r: Registration, finished: set<nat>): AdmissionState {
    if !Admits(st, r.owners) then st else st.(tasks := Running(st.tasks, finished) + [r])
  }

  /** Keeps the registrations whose task runs. */
  method Unfinished(tasks: seq<Registration>, finished: set<nat>) returns (retained: seq<Registration>)
    ensures retained == Running(tasks, finished)
  {
    retained := [];
    for i := 0 to |tasks|
      invariant retained + Running(tasks[i..], finished) == Running(tasks, finished)
    {
      assert tasks[i..][1..] == tasks[i + 1..];
      if tasks[i].task !in finished {
        retained := retained + [tasks[i]];
      }
    }
  }

  /** Tells the registrations with a closed owner from the others. */
  method Separate(tasks: seq<Registration>, abandoned: set<Scope>)
    returns (stopped: seq<Registration>, kept: seq<Registration>)
    ensures stopped == Stopped(tasks, abandoned) && kept == Kept(tasks, abandoned)
  {
    stopped, kept := [], [];
    for i := 0 to |tasks|
      invariant stopped + Stopped(tasks[i..], abandoned) == Stopped(tasks, abandoned)
      invariant kept + Kept(tasks[i..], abandoned) == Kept(tasks, abandoned)
    {
      assert tasks[i..][1..] == tasks[i + 1..];
      if ClosedOwner(tasks[i].owners, abandoned) {
        stopped := stopped + [tasks[i]];
      } else {
        kept := kept + [tasks[i]];
      }
    }
  }

  class Admission {
    var abandoned: set<Scope>
    var tasks: seq<Registration>
    /** The aborts asked of the runtime, in order. */
    var aborts: seq<Registration>

    function State(): AdmissionState
      reads this
    {
      AdmissionState(abandoned, tasks)
    }

    constructor ()
      ensures State() == AdmissionState({}, []) && aborts == []
    {
      abandoned, tasks, aborts := {}, [], [];
    }

    /** Closes the scopes: later updates from them are rejected, and every registered
        task started inside one of them is aborted, in registration order. */
    method Abandon(owners: set<Scope>)
      modifies this
      ensures State() == AfterAbandon(old(State()), owners)
      ensures aborts == old(aborts) + Stopped(old(tasks), abandoned)
    {
      abandoned := abandoned + owners;
      var stopped, kept := Separate(tasks, abandoned);
      tasks := kept;
      for i := 0 to |stopped|
        invariant abandoned == old(abandoned) + owners && tasks == kept
        invariant aborts == old(aborts) + stopped[..i]
      {
        aborts := aborts + [stopped[i]];
      }
    }

    /** True when no owner is closed. */
    method IsAdmitted(owners: seq<Scope>) returns (admitted: bool)
      ensures admitted <==> forall owner :: owner in owners ==> owner !in abandoned
    {
      admitted := true;
      for i := 0 to |owners|
        invariant admitted <==> forall owner :: owner in owners[..i] ==> owner !in abandoned
      {
        if owners[i] in abandoned {
          admitted := false;
        }
      }
      assert owners[..|owners|] == owners;
    }

    /** Registers a task so the close of an owner aborts it; aborts it at once when an
        owner is already closed. Forgets the registered tasks that have finished. */
    method RegisterTask(owners: seq<Scope>, task: nat, finished: set<nat>)
      modifies this
      ensures State() == AfterRegister(old(State()), Registration(owners, task), finished)
      ensures aborts == old(aborts) + if Admits(old(State()), owners) then [] else [Registration(owners, task)]
    {
      var late := ClosedOwner(owners, abandoned);
      if !late {
        var retained := Unfinished(tasks, finished);
        tasks := retained + [Registration(owners, task)];
      } else {
        aborts := aborts + [Registration(owners, task)];
      }
    }
  }

  /** Closes one scope when it is dropped. */
  class ScopeClose {
    const admission: Admission
    const scope: Scope

    constructor (admission: Admission, scope: Scope)
      ensures this.admission == admission && this.scope == scope
    {
      this.admission, this.scope := admission, scope;
    }

    method Drop()
      modifies admission
      ensures admission.State() == AfterAbandon(old(admission.State()), {scope})
      ensures admission.aborts == old(admission.aborts) + Stopped(old(admission.tasks), admission.abandoned)
    {
      admission.Abandon({scope});
    }
  }

  // ----- Runs -----

  datatype Event = Close(scopes: set<Scope>) | Register(r: Registration) | Finish(task: nat)

  /** The lock-guarded state with the history of one run. */
  datatype History = History(
    st: AdmissionState,
    finished: set<nat>,
    registered: seq<Registration>,
    aborted: seq<Registration>,
    forgotten: seq<Registration>)

  function Finished(tasks: seq<Registration>, finished: set<nat>): seq<Registration> {
    if tasks == [] then []
    else (if tasks[0].task in finished then [tasks[0]] else []) + Finished(tasks[1..], finished)
  }

  function Next(h: History, e: Event): History {
    match e
    case Close(scopes) =>
      var st := AfterAbandon(h.st, scopes);
      h.(st := st, aborted := h.aborted + Stopped(h.st.tasks, st.abandoned))
    case Register(r) =>
      var st := AfterRegister(h.st, r, h.finished);
      if Admits(h.st, r.owners) then
        h.(st := st, registered := h.registered + [r],
           forgotten := h.forgotten + Finished(h.st.tasks, h.finished))
      else
        h.(st := st, registered := h.registered + [r], aborted := h.aborted + [r])
    case Finish(task) => h.(finished := h.finished + {task})
  }

  function RunOf(events: seq<Event>): History {
    if events == [] then History(AdmissionState({}, []), {}, [], [], [])
    else Next(RunOf(events[..|events| - 1]), events[|events| - 1])
  }

  ghost predicate Accounted(h: History) {
    && multiset(h.registered) == multiset(h.st.tasks) + multiset(h.aborted) + multiset(h.forgotten)
    && (forall r :: r in h.st.tasks ==> !ClosedOwner(r.owners, h.st.abandoned))
    && (forall r :: r in h.aborted ==> ClosedOwner(r.owners, h.st.abandoned))
    && (forall r :: r in h.forgotten ==> r.task in h.finished)
  }

  lemma {:induction false} SplitByOwner(tasks: seq<Registration>, abandoned: set<Scope>)
    ensures multiset(tasks) == multiset(Kept(tasks, abandoned)) + multiset(Stopped(tasks, abandoned))
    ensures forall r :: r in Kept(tasks, abandoned) ==> r in tasks && !ClosedOwner(r.owners, abandoned)
    ensures forall r :: r in Stopped(tasks, abandoned) ==> r in tasks && ClosedOwner(r.owners, abandoned)
  {
    if tasks != [] {
      assert tasks == [tasks[0]] + tasks[1..];
      SplitByOwner(tasks[1..], abandoned);
    }
  }

  lemma {:induction false} SplitByFinish(tasks: seq<Registration>, finished: set<nat>)
    ensures multiset(tasks) == multiset(Running(tasks, finished)) + multiset(Finished(tasks, finished))
    ensures forall r :: r in Running(tasks, finished) ==> r in tasks && r.task !in finished
    ensures forall r :: r in Finished(tasks, finished) ==> r in tasks && r.task in finished
  {
    if tasks != [] {
      assert tasks == [tasks[0]] + tasks[1..];
      SplitByFinish(tasks[1..], finished);
    }
  }

  lemma CloseAccounted(h: History, scopes: set<Scope>)
    requires Accounted(h)
    ensures Accounted(Next(h, Close(scopes)))
  {
    var abandoned := h.st.abandoned + scopes;
    SplitByOwner(h.st.tasks, abandoned);
    var h' := Next(h, Close(scopes));
    forall r | r in h'.aborted ensures ClosedOwner(r.owners, abandoned) {
      if r in h.aborted {
        var owner :| owner in r.owners && owner in h.st.abandoned;
        assert owner in abandoned;
      }
    }
  }

  lemma RegisterAccounted(h: History, r: Registration)
    requires Accounted(h)
    ensures Accounted(Next(h, Register(r)))
  {
    var h' := Next(h, Register(r));
    if Admits(h.st, r.owners) {
      SplitByFinish(h.st.tasks, h.finished);
      var running := Running(h.st.tasks, h.finished);
      assert h'.st.tasks == running + [r];
      assert multiset(h'.st.tasks) == multiset(running) + multiset([r]);
      forall q | q in h'.st.tasks ensures !ClosedOwner(q.owners, h'.st.abandoned) {
        assert q in running || q == r;
      }
    }
  }

  lemma NextAccounted(h: History, e: Event)
    requires Accounted(h)
    ensures Accounted(Next(h, e))
  {
    match e
    case Close(scopes) => CloseAccounted(h, scopes);
    case Register(r) => RegisterAccounted(h, r);
    case Finish(_) =>
  }

  /** In every run each registration is in exactly one place: still registered, with every
      owner open; aborted once by admission, with a closed owner; or forgotten, its task
      finished. */
  lemma {:induction false} EveryRunAccounts(events: seq<Event>)
    ensures Accounted(RunOf(events))
  {
    if events != [] {
      EveryRunAccounts(events[..|events| - 1]);
      NextAccounted(RunOf(events[..|events| - 1]), events[|events| - 1]);
    }
  }

  /** What that means for one registration: under a closed scope an unfinished task was
      aborted as often as it was registered, and a task whose owners are all open was never
      aborted by admission. */
  lemma AbortedExactlyWhenClosed(events: seq<Event>, r: Registration)
    ensures
      var h := RunOf(events);
      && (ClosedOwner(r.owners, h.st.abandoned) ==>
            && r !in h.st.tasks
            && (r.task !in h.finished ==> multiset(h.aborted)[r] == multiset(h.registered)[r]))
      && (!ClosedOwner(r.owners, h.st.abandoned) ==> r !in h.aborted)
  {
    EveryRunAccounts(events);
    var h := RunOf(events);
    if r.task !in h.finished {
      assert r !in h.forgotten;
    }
  }

  /** A close is permanent: once a scope is closed, no update of it or of a scope nested in it
      is admitted after any further events. */
  lemma {:induction false} ClosedForever(before: seq<Event>, after: seq<Event>, owners: seq<Scope>)
    requires !Admits(RunOf(before).st, owners)
    ensures !Admits(RunOf(before + after).st, owners)
    decreases |after|
  {
    if after == [] {
      assert before + after == before;
    } else {
      var init := after[..|after| - 1];
      ClosedForever(before, init, owners);
      assert (before + after)[..|before + after| - 1] == before + init;
    }
  }

  /** The close of a scope stands for good: after any further events no owner list that meets the closed
      scopes is admitted, no task of one is registered, and each that was or is ever registered and does not
      finish has been aborted, as often as it was registered. */
  lemma {:induction false} CloseStands(
      before: seq<Event>, scopes: set<Scope>, after: seq<Event>, owners: seq<Scope>, task: nat)
    requires exists owner :: owner in owners && owner in scopes
    ensures
      var h := RunOf(before + [Close(scopes)] + after);
      && !Admits(h.st, owners)
      && var r := Registration(owners, task);
         && r !in h.st.tasks
         && (task !in h.finished ==> multiset(h.aborted)[r] == multiset(h.registered)[r])
  {
    var closed := before + [Close(scopes)];
    assert closed[..|closed| - 1] == before;
    var owner :| owner in owners && owner in scopes;
    assert owner in RunOf(closed).st.abandoned;
    ClosedForever(closed, after, owners);
    AbortedExactlyWhenClosed(closed + after, Registration(owners, task));
  }

  /** Nothing but the close of an owner refuses a write or aborts a task. */
  lemma {:induction false} OnlyClosesRefuse(events: seq<Event>, owners: seq<Scope>, task: nat)
    requires forall scopes :: Close(scopes) in events ==> forall owner :: owner in owners ==> owner !in scopes
    ensures Admits(RunOf(events).st, owners) && Registration(owners, task) !in RunOf(events).aborted
  {
    OpenUnlessClosed(events, owners);
    AbortedExactlyWhenClosed(events, Registration(owners, task));
  }

  lemma {:induction false} OpenUnlessClosed(events: seq<Event>, owners: seq<Scope>)
    requires forall scopes :: Close(scopes) in events ==> forall owner :: owner in owners ==> owner !in scopes
    ensures Admits(RunOf(events).st, owners)
  {
    if events != [] {
      var init, last := events[..|events| - 1], events[|events| - 1];
      assert last in events;
      forall scopes | Close(scopes) in init ensures Close(scopes) in events {}
      OpenUnlessClosed(init, owners);
    }
  }

  /** What was registered is what the events registered, in order, and what finished is what they finished. */
  lemma {:induction false} RegisteredByEvents(events: seq<Event>, r: Registration, task: nat)
    ensures r in RunOf(events).registered <==> Register(r) in events
    ensures task in RunOf(events).finished <==> Finish(task) in events
  {
    if events != [] {
      RegisteredByEvents(events[..|events| - 1], r, task);
      assert events == events[..|events| - 1] + [events[|events| - 1]];
    }
  }
}
