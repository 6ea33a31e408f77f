// What a listener hears: the events a program raises, listed from the program itself and
// the replies it received, against the queue and the releases of the scope.
// src/tenancy/domain-events.ts.
module ScopeEvents {
  import opened Values
  import opened Database
  import opened Scope
  import opened ScopeLaws
  import opened ScopeTheorems
  import opened AttemptLaw

  // ----- What a program raises ---------------------------------------------------------------

  // The world the handler of a `catch` starts in.
  function Caught(body: Prog, w: World): World
    requires Exec(body, w).1.Err?
  {
    var (w1, outcome) := Exec(body, w);
    w1.(history := w1.history + [Failed(outcome.error)])
  }

  // In program order, each event computed from the replies received by then.
  function Raised(p: Prog, w: World): seq<Event>
    decreases p, 1
  {
    match p
    case Emit(event) => [event(w.history)]
    case Catch(body, handler) =>
      Raised(body, w) + (if Exec(body, w).1.Err? then Raised(handler, Caught(body, w)) else [])
    case Seq(first, second) =>
      Raised(first, w) + (if Exec(first, w).1.Ok? then Raised(second, Exec(first, w).0) else [])
    case Branch(test, yes, no) => Raised(if test(w.history) then yes else no, w)
    case Run(tenant, body) =>
      var tenantId := tenant(w.history);
      if tenantId == Some("") then []
      else if w.tx.None? then Raised(body, Entered(tenantId, w))
      else if w.tx.value.aborted then []
      else Raised(body, Repointed(tenantId, w))
    case Attempt(body) =>
      if w.tx.None? then Raised(body, w)
      else if w.tx.value.aborted then []
      else Raised(body, EnteredAttempt(w))
    case Transaction(body) => Raised(body, w)
    case Batch(items) => AllRaised(items, w)
    case _ => []
  }

  function AllRaised(items: seq<Prog>, w: World): seq<Event>
    decreases items, 0
  {
    if items == [] then []
    else Raised(items[0], w) + (if Exec(items[0], w).1.Ok? then AllRaised(items[1..], Exec(items[0], w).0) else [])
  }

  // Every event a program raises is emitted, at any depth and with or without a transaction.
  lemma {:induction false} EmittedIsRaised(p: Prog, w: World)
    requires Sound(w)
    ensures Exec(p, w).0.emitted == w.emitted + Raised(p, w)
    decreases p, 1
  {
    hide Issue, IssueQuery;
    match p
    case Catch(body, handler) =>
      ExecDisciplined(body, w);
      EmittedIsRaised(body, w);
      if Exec(body, w).1.Err? { EmittedIsRaised(handler, Caught(body, w)); }
    case Seq(first, second) =>
      ExecDisciplined(first, w);
      EmittedIsRaised(first, w);
      if Exec(first, w).1.Ok? { EmittedIsRaised(second, Exec(first, w).0); }
    case Branch(test, yes, no) =>
      if test(w.history) { EmittedIsRaised(yes, w); } else { EmittedIsRaised(no, w); }
    case Run(_, _) => RunRaises(p, w);
    case Attempt(_) => AttemptRaises(p, w);
    case Transaction(body) => EmittedIsRaised(body, w);
    case Batch(items) => AllEmittedIsRaised(items, w);
    case _ => SimpleRaises(p, w);
  }

  lemma SimpleRaises(p: Prog, w: World)
    requires p.Skip? || p.Query? || p.Raw? || p.Emit? || p.Throw?
    ensures Exec(p, w).0.emitted == w.emitted + Raised(p, w)
  {
  }

  lemma {:induction false} RunRaises(p: Prog, w: World)
    requires p.Run? && Sound(w)
    ensures Exec(p, w).0.emitted == w.emitted + Raised(p, w)
    decreases p, 0
  {
    hide Exec;
    RunUnfolds(p.tenant, p.body, w);
    var tenantId := p.tenant(w.history);
    if tenantId != Some("") {
      if w.tx.None? { EmittedIsRaised(p.body, Entered(tenantId, w)); }
      else if !w.tx.value.aborted { EmittedIsRaised(p.body, Repointed(tenantId, w)); }
    }
  }

  lemma {:induction false} AttemptRaises(p: Prog, w: World)
    requires p.Attempt? && Sound(w)
    ensures Exec(p, w).0.emitted == w.emitted + Raised(p, w)
    decreases p, 0
  {
    if w.tx.None? {
      EmittedIsRaised(p.body, w);
    } else {
      hide Exec;
      AttemptUnfolds(p.body, w);
      if !w.tx.value.aborted {
        AttemptSteps(p.body, w);
        EmittedIsRaised(p.body, EnteredAttempt(w));
      }
    }
  }

  lemma {:induction false} AllEmittedIsRaised(items: seq<Prog>, w: World)
    requires Sound(w)
    ensures ExecAll(items, w).0.emitted == w.emitted + AllRaised(items, w)
    decreases items, 0
  {
    if items != [] {
      ExecDisciplined(items[0], w);
      EmittedIsRaised(items[0], w);
      if Exec(items[0], w).1.Ok? { AllEmittedIsRaised(items[1..], Exec(items[0], w).0); }
    }
  }

  // ----- Inside a transaction ------------------------------------------------------------------

  // Raised with a transaction open, an event waits behind those already queued, together
  // with the writes made so far; raised with none open it is out at once.
  lemma EmitWaitsOrLeaves(event: History -> Event, w: World)
    ensures var (after, outcome) := Exec(Emit(event), w);
            && outcome == Ok
            && (w.tx.Some? ==>
                  after.released == w.released
                  && after.pending == w.pending + [Notice(event(w.history), w.tx.value.writes)])
            && (w.tx.None? ==> after.released == w.released + [event(w.history)] && after.pending == w.pending)
  {
  }

  // With a transaction open, the queue grows by exactly what the program raises.
  lemma QueueIsWhatIsRaised(p: Prog, w: World)
    requires Sound(w) && w.tx.Some?
    ensures Events(Exec(p, w).0.pending) == Events(w.pending) + Raised(p, w)
  {
    hide Exec;
    EmittedIsQueued(p, w);
    EmittedIsRaised(p, w);
    var w' := Exec(p, w).0;
    var queued := w'.pending[|w.pending|..];
    assert w'.pending == w.pending + queued;
    assert Events(w'.pending) == Events(w.pending) + Events(queued);
  }

  // ----- Outside a transaction -----------------------------------------------------------------

  // What gets out of a program run with no transaction open: what it raises outside its
  // scopes at once, and what each scope raised once that scope has ended well.
  function Announced(p: Prog, w: World): seq<Event>
    requires w.tx.None?
    decreases p, 1
  {
    match p
    case Emit(event) => [event(w.history)]
    case Catch(body, handler) =>
      Announced(body, w) + (if Exec(body, w).1.Err? then Announced(handler, Caught(body, w)) else [])
    case Seq(first, second) =>
      Announced(first, w) + (if Exec(first, w).1.Ok? then Announced(second, Exec(first, w).0) else [])
    case Branch(test, yes, no) => Announced(if test(w.history) then yes else no, w)
    case Run(_, _) => if Exec(p, w).1.Ok? then Raised(p, w) else []
    case Attempt(body) => Announced(body, w)
    case Transaction(body) => Announced(body, w)
    case Batch(items) => AllAnnounced(items, w)
    case _ => []
  }

  function AllAnnounced(items: seq<Prog>, w: World): seq<Event>
    requires w.tx.None?
    decreases items, 0
  {
    if items == [] then []
    else
      Announced(items[0], w)
      + (if Exec(items[0], w).1.Ok? then AllAnnounced(items[1..], Exec(items[0], w).0) else [])
  }

  // The releases of any program run with no transaction open are exactly that, in order, and
  // nothing is left waiting.
  lemma {:induction false} ReleasedIsAnnounced(p: Prog, w: World)
    requires Sound(w) && w.tx.None?
    ensures Exec(p, w).0.released == w.released + Announced(p, w)
    ensures Exec(p, w).0.pending == w.pending
    decreases p, 1
  {
    hide Issue, IssueQuery;
    OutsideKeepsQueue(p, w);
    match p
    case Catch(body, handler) =>
      ExecDisciplined(body, w);
      ReleasedIsAnnounced(body, w);
      if Exec(body, w).1.Err? { ReleasedIsAnnounced(handler, Caught(body, w)); }
    case Seq(first, second) =>
      ExecDisciplined(first, w);
      ReleasedIsAnnounced(first, w);
      if Exec(first, w).1.Ok? { ReleasedIsAnnounced(second, Exec(first, w).0); }
    case Branch(test, yes, no) =>
      if test(w.history) { ReleasedIsAnnounced(yes, w); } else { ReleasedIsAnnounced(no, w); }
    case Run(tenant, body) =>
      hide Exec, Raised;
      OwnerReleasesWhatWasEmitted(tenant, body, w);
      EmittedIsRaised(p, w);
    case Attempt(body) => ReleasedIsAnnounced(body, w);
    case Transaction(body) => ReleasedIsAnnounced(body, w);
    case Batch(items) => AllReleasedIsAnnounced(items, w);
    case _ => SimpleReleases(p, w);
  }

  lemma SimpleReleases(p: Prog, w: World)
    requires w.tx.None? && (p.Skip? || p.Query? || p.Raw? || p.Emit? || p.Throw?)
    ensures Exec(p, w).0.released == w.released + Announced(p, w)
  {
  }

  lemma {:induction false} AllReleasedIsAnnounced(items: seq<Prog>, w: World)
    requires Sound(w) && w.tx.None?
    ensures ExecAll(items, w).0.released == w.released + AllAnnounced(items, w)
    decreases items, 0
  {
    if items != [] {
      ExecDisciplined(items[0], w);
      ReleasedIsAnnounced(items[0], w);
      if Exec(items[0], w).1.Ok? { AllReleasedIsAnnounced(items[1..], Exec(items[0], w).0); }
    }
  }
}
