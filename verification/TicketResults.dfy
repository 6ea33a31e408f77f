// The guarantees of the ticket aggregate, over every interleaving.
module TicketResults {
  import opened Values
  import opened Tickets
  import opened TicketMachine
  import opened TicketLaws

  // ----- Optimistic concurrency ----------------------------------------------------------------

  // Whether this update goes through, rather than ending in a conflict.
  predicate Writes(s: State, x: nat) {
    && x in s.open && s.open[x].phase.Validated? && DoUpdate(s, x, s.open[x]).Some?
    && |DoUpdate(s, x, s.open[x]).value.open[x].queue| > |s.open[x].queue|
  }

  // A successful update changes exactly the row that was validated if and only if the
  // caller's version is no later than the one its call loaded. The version check alone
  // does not see a version that another transaction has since reached.
  lemma ExactIffVersionWasRead(s: State, x: nat)
    requires Inv(s) && Writes(s, x)
    ensures var tx := s.open[x];
            var queue := DoUpdate(s, x, tx).value.open[x].queue;
            && queue[..|tx.queue|] == tx.queue && |queue| == |tx.queue| + 1
            && (Exact(queue[|tx.queue|]) <==> tx.phase.version <= tx.phase.seen.version)
  {
    hide About, Fold, Validate, MutationEvent, CanSee, Histories, Newer;
    assert PhaseOk(s, s.open[x]);
  }

  // Each committed entry about a ticket moved it from one version to the next, so no
  // two committed mutations ever start from the same version. Honest callers or not.
  lemma {:induction false} VersionsCount(entries: seq<Entry>)
    requires Fold(entries).Some? && forall i | 0 <= i < |entries| :: EntryOk(entries[i])
    ensures Fold(entries).value.version == |entries|
    ensures entries[0].Opened?
    ensures forall k | 0 < k < |entries| :: entries[k].Mutated? && entries[k].row.version == k
  {
    hide Validate, MutationEvent, CreatedEvent, CanSee;
    var init, last := entries[..|entries| - 1], entries[|entries| - 1];
    assert entries == init + [last];
    if last.Mutated? { VersionsCount(init); }
  }

  lemma {:induction false} AboutKeeps(log: seq<Entry>, id: string, p: Entry -> bool)
    requires forall i | 0 <= i < |log| :: p(log[i])
    ensures forall i | 0 <= i < |About(log, id)| :: p(About(log, id)[i])
  {
    if log != [] { AboutKeeps(log[..|log| - 1], id, p); }
  }

  // In every run, the version of a committed row is one more than the number of
  // mutations committed on it, and the k-th of them changed version k.
  lemma OneCommitPerVersion(moves: seq<Move>, id: string)
    requires Runs(START, moves) && id in End(START, moves).tickets
    ensures var s := End(START, moves);
            var history := About(s.log, id);
            && s.tickets[id].version == |history| && |history| > 0
            && forall k | 0 < k < |history| :: history[k].Mutated? && history[k].row.version == k
  {
    var s := End(START, moves);
    StartKeeps();
    RunKeeps(START, moves);
    assert CommittedFold(s, id);
    AboutKeeps(s.log, id, EntryOk);
    VersionsCount(About(s.log, id));
  }

  // ----- Serializability under honest versions ----------------------------------------------------

  predicate VersionRead(tx: Tx) {
    match tx.phase
    case Loaded(_, version, _, _, seen) => version <= seen.version
    case Validated(_, version, _, _, seen, _, _) => version <= seen.version
    case _ => true
  }

  predicate ExactSoFar(s: State) {
    (forall x | x in s.open :: VersionRead(s.open[x])) && AllEntries(s, Exact)
  }

  ghost predicate HonestInv(s: State) {
    Inv(s) && ExactSoFar(s)
  }

  lemma PutStaysExact(s: State, x: nat, tx: Tx)
    requires ExactSoFar(s) && VersionRead(tx) && forall i | 0 <= i < |tx.queue| :: Exact(tx.queue[i])
    ensures ExactSoFar(Put(s, x, tx))
  {
  }

  // Only an update queues a mutation, and there the version was read.
  lemma StepStaysHonest(s: State, move: Move)
    requires HonestInv(s) && Honest(s, move) && Step(s, move).Some?
    ensures HonestInv(Step(s, move).value)
  {
    StepKeeps(s, move);
    hide Inv, About, Fold, Validate, MutationEvent, CreatedEvent, CanSee, TicketLocked, CounterLocked, Apply,
        ExactSoFar;
    match move
    case NewTenant(t) => assert ExactSoFar(s.(counters := s.counters[t := 0])) by { TenantStaysExact(s, t); }
    case Begin(x) => PutStaysExact(s, x, Tx(map[], map[], [], Ready));
    case Load(x, id, version, request, caller) => LoadStaysExact(s, x, id, version, request, caller);
    case Judge(x, at) => JudgeStaysExact(s, x, at);
    case Update(x) => UpdateStaysExact(s, x);
    case CountUp(x, draft, caller) => CountUpStaysExact(s, x, draft, caller);
    case Insert(x, id, now) => InsertStaysExact(s, x, id, now);
    case Break(x) => BreakStaysExact(s, x);
    case Commit(x) => EndStaysExact(s, x);
    case Rollback(x) => EndStaysExact(s, x);
  }

  lemma TenantStaysExact(s: State, t: string)
    requires ExactSoFar(s)
    ensures ExactSoFar(s.(counters := s.counters[t := 0]))
  {
  }

  lemma TxIsExact(s: State, x: nat)
    requires ExactSoFar(s) && x in s.open
    ensures VersionRead(s.open[x]) && forall i | 0 <= i < |s.open[x].queue| :: Exact(s.open[x].queue[i])
  {
  }

  lemma LoadStaysExact(s: State, x: nat, id: string, version: int, request: Request, caller: Caller)
    requires ExactSoFar(s) && x in s.open && Honest(s, Load(x, id, version, request, caller))
    ensures ExactSoFar(DoLoad(s, x, s.open[x], id, version, request, caller))
  {
    TxIsExact(s, x);
    hide ExactSoFar, CanSee;
    var tx := s.open[x];
    if RowOf(s, tx, id).Some? {
      PutStaysExact(s, x, tx.(phase := Loaded(id, version, request, caller, RowOf(s, tx, id).value)));
    }
  }

  lemma JudgeStaysExact(s: State, x: nat, at: Circumstance)
    requires ExactSoFar(s) && x in s.open && s.open[x].phase.Loaded?
    ensures ExactSoFar(DoJudge(s, x, s.open[x], at))
  {
    TxIsExact(s, x);
    hide ExactSoFar, Validate;
    var tx, p := s.open[x], s.open[x].phase;
    PutStaysExact(s, x, Rest(tx));
    if Validate(p.request, p.seen, p.caller, at).Success? {
      PutStaysExact(s, x, tx.(phase := Validated(p.id, p.version, p.request, p.caller, p.seen, at,
                                                  Validate(p.request, p.seen, p.caller, at).value)));
    }
  }

  lemma UpdateStaysExact(s: State, x: nat)
    requires HonestInv(s) && x in s.open && s.open[x].phase.Validated? && DoUpdate(s, x, s.open[x]).Some?
    ensures ExactSoFar(DoUpdate(s, x, s.open[x]).value)
  {
    TxIsExact(s, x);
    var tx := s.open[x];
    var tx' := DoUpdate(s, x, tx).value.open[x];
    if Writes(s, x) { ExactIffVersionWasRead(s, x); }
    hide ExactSoFar, Inv, MutationEvent, Apply, TicketLocked;
    forall i | 0 <= i < |tx'.queue| ensures Exact(tx'.queue[i]) {
      if i < |tx.queue| { assert tx'.queue[i] == tx.queue[i]; }
    }
    PutStaysExact(s, x, tx');
  }

  lemma CountUpStaysExact(s: State, x: nat, draft: Draft, caller: Caller)
    requires ExactSoFar(s) && x in s.open && DoCountUp(s, x, s.open[x], draft, caller).Some?
    ensures ExactSoFar(DoCountUp(s, x, s.open[x], draft, caller).value)
  {
    TxIsExact(s, x);
    hide ExactSoFar, CounterLocked;
    var s' := DoCountUp(s, x, s.open[x], draft, caller).value;
    PutStaysExact(s, x, s'.open[x]);
  }

  lemma InsertStaysExact(s: State, x: nat, id: string, now: int)
    requires ExactSoFar(s) && x in s.open && s.open[x].phase.Counted? && DoInsert(s, x, s.open[x], id, now).Some?
    ensures ExactSoFar(DoInsert(s, x, s.open[x], id, now).value)
  {
    TxIsExact(s, x);
    hide ExactSoFar, TicketLocked, CreatedEvent, NewTicket;
    var s' := DoInsert(s, x, s.open[x], id, now).value;
    PutStaysExact(s, x, s'.open[x]);
  }

  lemma BreakStaysExact(s: State, x: nat)
    requires ExactSoFar(s) && x in s.open
    ensures ExactSoFar(Put(s, x, s.open[x].(phase := Doomed)))
  {
    TxIsExact(s, x);
    PutStaysExact(s, x, s.open[x].(phase := Doomed));
  }

  lemma EndStaysExact(s: State, x: nat)
    requires ExactSoFar(s) && x in s.open
    ensures ExactSoFar(DoCommit(s, x, s.open[x])) && ExactSoFar(s.(open := s.open - {x}))
  {
  }

  lemma {:induction false} HonestRunStays(s: State, moves: seq<Move>)
    requires HonestInv(s) && Runs(s, moves) && HonestRun(s, moves)
    ensures HonestInv(End(s, moves))
    decreases moves
  {
    hide HonestInv, Step, Honest;
    if moves != [] {
      StepStaysHonest(s, moves[0]);
      HonestRunStays(Step(s, moves[0]).value, moves[1..]);
    }
  }

  // The requests of these entries run one at a time, each loading, validating and
  // writing the row its predecessor left. Nothing recorded about the concurrent run
  // other than the requests themselves is used.
  function Serially(entries: seq<Entry>): Option<Ticket> {
    if entries == [] then None
    else
      match entries[|entries| - 1]
      case Opened(ticket, _, _) => if |entries| == 1 then Some(ticket) else None
      case Mutated(_, _, request, caller, at, _, _) =>
        var before := Serially(entries[..|entries| - 1]);
        if before.Some? && CanSee(caller, before.value) && Validate(request, before.value, caller, at).Success? then
          Some(Apply(before.value, Validate(request, before.value, caller, at).value))
        else None
  }

  lemma {:induction false} FoldIsSerial(entries: seq<Entry>)
    requires Fold(entries).Some?
    requires forall i | 0 <= i < |entries| :: EntryOk(entries[i]) && Exact(entries[i])
    ensures Serially(entries) == Fold(entries)
  {
    hide MutationEvent, CreatedEvent;
    var init, last := entries[..|entries| - 1], entries[|entries| - 1];
    assert EntryOk(last) && Exact(last);
    if last.Mutated? { FoldIsSerial(init); }
  }

  // Everything an honest run has committed was judged on the row it changed.
  lemma HonestLog(moves: seq<Move>)
    requires Runs(START, moves) && HonestRun(START, moves)
    ensures forall i | 0 <= i < |End(START, moves).log| ::
              EntryOk(End(START, moves).log[i]) && Exact(End(START, moves).log[i])
  {
    hide EntryOk, Exact, HonestRun, Runs, End, Step;
    StartKeeps();
    HonestRunStays(START, moves);
  }

  lemma HonestHistory(moves: seq<Move>, id: string)
    requires Runs(START, moves) && HonestRun(START, moves) && id in End(START, moves).tickets
    ensures var s := End(START, moves);
            var history := About(s.log, id);
            && Fold(history) == Some(s.tickets[id])
            && forall i | 0 <= i < |history| :: EntryOk(history[i]) && Exact(history[i])
  {
    var s := End(START, moves);
    StartKeeps();
    HonestRunStays(START, moves);
    assert CommittedFold(s, id);
    AboutKeeps(s.log, id, EntryOk);
    AboutKeeps(s.log, id, Exact);
  }

  // Under honest versions every run is serializable, ticket by ticket: the committed row
  // is what its committed requests produce when run one after another in commit order,
  // with each of them still visible to its caller and still allowed.
  lemma Serializable(moves: seq<Move>, id: string)
    requires Runs(START, moves) && HonestRun(START, moves) && id in End(START, moves).tickets
    ensures Serially(About(End(START, moves).log, id)) == Some(End(START, moves).tickets[id])
  {
    HonestHistory(moves, id);
    FoldIsSerial(About(End(START, moves).log, id));
  }

  // ----- Lifecycle -----------------------------------------------------------------------------------

  lemma {:induction false} FoldIsCoherent(entries: seq<Entry>)
    requires Fold(entries).Some?
    requires forall i | 0 <= i < |entries| :: EntryOk(entries[i]) && Exact(entries[i])
    ensures Coherent(Fold(entries).value)
    ensures forall k | 0 < k < |entries| ::
              entries[k].Mutated? && entries[k].row.status != CLOSED && StepOfTable(entries[k])
  {
    hide MutationEvent, CreatedEvent;
    var init, last := entries[..|entries| - 1], entries[|entries| - 1];
    assert EntryOk(last) && Exact(last);
    if last.Mutated? {
      FoldIsCoherent(init);
      MutationKeepsCoherence(last.request, last.row, last.caller, last.at);
    }
  }

  // The status either stays or moves along the transition table.
  predicate StepOfTable(e: Entry) {
    e.Mutated? ==>
      var after := Apply(e.row, e.change);
      after.status == e.row.status || CanTransition(e.row.status, after.status)
  }

  // Every committed row carries the timestamps of its status, and every committed change
  // to it started from a row that was not closed and moved along the table.
  lemma Lifecycle(moves: seq<Move>, id: string)
    requires Runs(START, moves) && HonestRun(START, moves) && id in End(START, moves).tickets
    ensures var s := End(START, moves);
            var history := About(s.log, id);
            && Coherent(s.tickets[id])
            && forall k | 0 < k < |history| ::
                 history[k].Mutated? && history[k].row.status != CLOSED && StepOfTable(history[k])
  {
    HonestHistory(moves, id);
    FoldIsCoherent(About(End(START, moves).log, id));
  }

  // ----- A closed ticket is a record ------------------------------------------------------------------

  lemma StepExtendsLog(s: State, move: Move)
    requires Step(s, move).Some?
    ensures s.log <= Step(s, move).value.log
  {
    hide Validate, MutationEvent, CreatedEvent, CanSee, Apply, TicketLocked, CounterLocked;
  }

  lemma {:induction false} RunExtendsLog(s: State, moves: seq<Move>)
    requires Runs(s, moves)
    ensures s.log <= End(s, moves).log
    decreases moves
  {
    hide Step;
    if moves != [] {
      StepExtendsLog(s, moves[0]);
      RunExtendsLog(Step(s, moves[0]).value, moves[1..]);
    }
  }

  lemma {:induction false} FoldOfPrefix(entries: seq<Entry>, k: nat)
    requires 0 < k <= |entries| && Fold(entries).Some?
    requires forall i | 0 <= i < |entries| :: EntryOk(entries[i])
    ensures Fold(entries[..k]).Some?
    ensures k < |entries| ==> entries[k].Mutated? && Fold(entries[..k]) == Some(entries[k].row)
  {
    hide Validate, MutationEvent, CreatedEvent, CanSee, EntryOk;
    var init := entries[..|entries| - 1];
    if k == |entries| {
      assert entries[..k] == entries;
    } else if k == |entries| - 1 {
      assert entries[..k] == init;
    } else {
      FoldOfPrefix(init, k);
      assert init[..k] == entries[..k];
    }
  }

  lemma {:induction false} RunsOn(s: State, before: seq<Move>, after: seq<Move>)
    requires Runs(s, before + after)
    ensures Runs(s, before) && Runs(End(s, before), after) && End(s, before + after) == End(End(s, before), after)
    ensures HonestRun(s, before + after) ==> HonestRun(s, before)
    decreases before
  {
    hide Step, Honest;
    if before == [] {
      assert before + after == after;
    } else {
      assert (before + after)[1..] == before[1..] + after;
      RunsOn(Step(s, before[0]).value, before[1..], after);
    }
  }

  // Once a committed row is closed, no later step of any honest run changes anything in it.
  lemma ClosedIsFinal(before: seq<Move>, after: seq<Move>, id: string)
    requires Runs(START, before + after) && HonestRun(START, before + after)
    requires Runs(START, before) && id in End(START, before).tickets && End(START, before).tickets[id].status == CLOSED
    ensures var s' := End(START, before + after);
            id in s'.tickets && s'.tickets[id] == End(START, before).tickets[id]
  {
    hide Step, Honest;
    RunsOn(START, before, after);
    var s, s' := End(START, before), End(START, before + after);
    RunExtendsLog(s, after);
    HonestHistory(before, id);
    var earlier, later := About(s.log, id), About(s'.log, id);
    AboutConcat(s.log, s'.log[|s.log|..], id);
    assert s'.log == s.log + s'.log[|s.log|..];
    StartKeeps();
    RunKeeps(START, before + after);
    assert CommittedFold(s', id);
    assert earlier != [] && earlier <= later;
    HonestHistory(before + after, id);
    FoldIsCoherent(later);
    FoldOfPrefix(later, |earlier|);
    assert later[..|earlier|] == earlier;
    assert earlier == later;
  }

  // ----- The audit trail -------------------------------------------------------------------------------

  // What a reader of the trail reconstructs: nobody assigned, then each event's new values.
  function ReplayTrail(events: seq<TicketEvent>): Snapshot {
    if events == [] then map[Assignee := Null]
    else ReplayTrail(events[..|events| - 1]) + events[|events| - 1].newValues
  }

  function EventsOf(entries: seq<Entry>): seq<TicketEvent> {
    seq(|entries|, i requires 0 <= i < |entries| => entries[i].event)
  }

  // The reconstruction shows the row. The description is missing until it first changes,
  // because the created event leaves it out.
  predicate Shows(view: Snapshot, t: Ticket) {
    && {Number, Title, StatusIs, Priority, Category, Assignee} <= view.Keys
    && view[Number] == Num(t.number) && view[Title] == Text(t.title)
    && view[StatusIs] == Text(StatusName(t.status))
    && view[Priority] == Text(t.priority) && view[Category] == Text(t.category)
    && view[Assignee] == (if t.assigneeId.Some? then Text(t.assigneeId.value) else Null)
    && (Description in view ==>
          view[Description] == if t.description.Some? then Text(t.description.value) else Null)
  }

  lemma {:induction false} TrailShowsFold(entries: seq<Entry>)
    requires Fold(entries).Some?
    requires forall i | 0 <= i < |entries| :: EntryOk(entries[i]) && Exact(entries[i])
    ensures Shows(ReplayTrail(EventsOf(entries)), Fold(entries).value)
    ensures forall k | 0 < k < |entries| :: OldValuesMatch(ReplayTrail(EventsOf(entries[..k])), entries[k].event)
  {
    hide MutationEvent, Validate, CanSee, Apply, Read, Shows, OldValuesMatch;
    var init, last := entries[..|entries| - 1], entries[|entries| - 1];
    assert EntryOk(last) && Exact(last);
    assert EventsOf(entries)[..|entries| - 1] == EventsOf(init);
    if last.Opened? {
      assert init == [];
      assert ReplayTrail(EventsOf(init)) == map[Assignee := Null];
      CreationShows(last);
    } else {
      TrailShowsFold(init);
      MutationShows(ReplayTrail(EventsOf(init)), last);
      forall k | 0 < k < |entries| ensures OldValuesMatch(ReplayTrail(EventsOf(entries[..k])), entries[k].event) {
        if k < |init| { assert entries[..k] == init[..k]; } else { assert entries[..k] == init; }
      }
    }
  }

  lemma ShowsReads(view: Snapshot, t: Ticket)
    ensures Shows(view, t)
        <==> (forall a | a in view :: view[a] == Read(t, a)) && (forall a: Attribute :: a != Description ==> a in view)
  {
  }

  lemma CreationShows(e: Entry)
    requires e.Opened? && EntryOk(e)
    ensures Shows(map[Assignee := Null] + e.event.newValues, e.ticket)
  {
  }

  lemma MutationShows(view: Snapshot, e: Entry)
    requires e.Mutated? && EntryOk(e) && Exact(e) && Shows(view, e.row)
    ensures Shows(view + e.event.newValues, Apply(e.row, e.change)) && OldValuesMatch(view, e.event)
  {
    hide MutationEvent, Apply, Read, CanSee;
    EventTellsTheDifference(e.request, e.row, e.caller, e.at);
    ShowsReads(view, e.row);
    ShowsReads(view + e.event.newValues, Apply(e.row, e.change));
  }

  // What an event says the values were is what the trail so far says they are.
  predicate OldValuesMatch(view: Snapshot, event: TicketEvent) {
    forall a | a in event.oldValues ::
      (a in view ==> view[a] == event.oldValues[a]) && (a !in view ==> a == Description)
  }

  // For every ticket of every honest run: replaying the new values of the events that
  // were released for it, in order, gives the committed row, and each event's old values
  // are what the replay had reached.
  lemma TrailReplaysTicket(moves: seq<Move>, id: string)
    requires Runs(START, moves) && HonestRun(START, moves) && id in End(START, moves).tickets
    ensures var s := End(START, moves);
            var events := EventsOf(About(s.log, id));
            && Shows(ReplayTrail(events), s.tickets[id])
            && (forall k | 0 < k < |events| :: OldValuesMatch(ReplayTrail(events[..k]), events[k]))
            && (forall k | 0 <= k < |events| :: events[k].entityId == id)
  {
    hide Runs, End, HonestRun, About, Fold, ReplayTrail, Shows, OldValuesMatch, Exact;
    HonestHistory(moves, id);
    var history := About(End(START, moves).log, id);
    TrailShowsFold(history);
    forall k | 0 <= k < |history| ensures history[k].event.entityId == id {
      SubjectIsNamed(End(START, moves).log, id, k);
    }
    forall k | 0 < k < |history| ensures EventsOf(history)[..k] == EventsOf(history[..k]) {
    }
  }

  lemma {:induction false} SubjectIsNamed(log: seq<Entry>, id: string, k: nat)
    requires k < |About(log, id)| && EntryOk(About(log, id)[k])
    ensures About(log, id)[k].event.entityId == id
  {
    if k < |About(log[..|log| - 1], id)| { SubjectIsNamed(log[..|log| - 1], id, k); }
  }

  // Every event a run has released says who acted, on which ticket, and what was done; the
  // one that opens a ticket names the ticket's own requester as the person who acted.
  lemma ReleasedEventsNameWhoActed(moves: seq<Move>, i: nat)
    requires Runs(START, moves) && i < |End(START, moves).log|
    ensures var e := End(START, moves).log[i];
            && e.event.actorId == e.caller.id && e.event.tenantId == e.caller.tenantId
            && (e.Opened? ==>
                  && e.event.action == Created && e.event.entityId == e.ticket.id
                  && e.event.requesterId == e.ticket.requesterId == e.caller.id
                  && e.ticket.tenantId == e.caller.tenantId)
            && (e.Mutated? ==>
                  && e.event.requesterId == e.seen.requesterId && e.event.entityId == e.row.id == e.seen.id
                  && e.seen.tenantId == e.caller.tenantId
                  && e.event.action == (if e.request.Edit? then Updated
                                        else if e.request.ChangeStatus? then StatusChanged
                                        else Assigned))
  {
    hide Runs, End, Validate, MutationEvent, Apply;
    StartKeeps();
    RunKeeps(START, moves);
    var e := End(START, moves).log[i];
    assert EntryOk(e);
    if e.Mutated? { MutatedNamesWhoActed(e); }
  }

  lemma MutatedNamesWhoActed(e: Entry)
    requires e.Mutated? && EntryOk(e)
    ensures e.event.actorId == e.caller.id && e.event.tenantId == e.caller.tenantId
    ensures e.event.requesterId == e.seen.requesterId && e.event.entityId == e.row.id == e.seen.id
    ensures e.event.action == (if e.request.Edit? then Updated
                               else if e.request.ChangeStatus? then StatusChanged
                               else Assigned)
  {
  }
}
