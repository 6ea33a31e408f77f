// What every interleaving of ticket requests keeps.
module TicketLaws {
  import opened Values
  import opened Tickets
  import opened TicketMachine

  // ----- Histories ------------------------------------------------------------------------

  lemma {:induction false} AboutConcat(a: seq<Entry>, b: seq<Entry>, id: string)
    ensures About(a + b, id) == About(a, id) + About(b, id)
  {
    hide Subject;
    if b == [] {
      assert a + b == a;
    } else {
      var init := b[..|b| - 1];
      AboutConcat(a, init, id);
      assert (a + b)[..|a + b| - 1] == a + init;
    }
  }

  lemma AboutOne(e: Entry, id: string)
    ensures About([e], id) == if Subject(e) == id then [e] else []
  {
    assert [e][..0] == [];
  }

  lemma FoldSnoc(entries: seq<Entry>, e: Entry)
    ensures Fold(entries + [e]) ==
            match e
            case Opened(ticket, _, _) => if entries == [] then Some(ticket) else None
            case Mutated(_, row, _, _, _, change, _) =>
              if Fold(entries) == Some(row) then Some(Apply(row, change)) else None
  {
    assert (entries + [e])[..|entries|] == entries;
  }

  // ----- Invariants -------------------------------------------------------------------------

  // No row and no counter is locked by two transactions.
  predicate Locks(s: State) {
    forall x, y | x in s.open && y in s.open && x != y ::
      s.open[x].tickets.Keys !! s.open[y].tickets.Keys && s.open[x].counters.Keys !! s.open[y].counters.Keys
  }

  predicate EntryOk(e: Entry) {
    match e
    case Opened(ticket, caller, event) =>
      && ticket.version == 1 && ticket.status == OPEN && ticket.assigneeId == None
      && ticket.resolvedAt == None && ticket.closedAt == None && ticket.closedById == None
      && ticket.tenantId == caller.tenantId && ticket.requesterId == caller.id
      && event == CreatedEvent(ticket, caller)
    case Mutated(seen, row, request, caller, at, change, event) =>
      && CanSee(caller, seen)
      && seen.id == row.id
      && Validate(request, seen, caller, at) == Success(change)
      && event == MutationEvent(request, seen, Apply(row, change), caller)
  }

  // The row that was judged is the row that was changed.
  predicate Exact(e: Entry) {
    e.Mutated? ==> e.seen == e.row
  }

  predicate AllEntries(s: State, p: Entry -> bool) {
    && (forall i | 0 <= i < |s.log| :: p(s.log[i]))
    && (forall x, i | x in s.open && 0 <= i < |s.open[x].queue| :: p(s.open[x].queue[i]))
  }

  predicate CommittedFold(s: State, id: string) {
    if id in s.tickets then Fold(About(s.log, id)) == Some(s.tickets[id]) && s.tickets[id].id == id
    else About(s.log, id) == []
  }

  predicate OpenFold(s: State, tx: Tx, id: string) {
    if id in tx.tickets then Fold(About(s.log + tx.queue, id)) == Some(tx.tickets[id]) && tx.tickets[id].id == id
    else About(tx.queue, id) == []
  }

  // Every row, committed or still locked, is the fold of its own entries.
  ghost predicate Histories(s: State) {
    && (forall id :: CommittedFold(s, id))
    && (forall x, id | x in s.open :: OpenFold(s, s.open[x], id))
  }

  // A row this transaction has rewritten is newer than the committed one, with the
  // same tenant and number.
  predicate Newer(s: State) {
    forall x, id | x in s.open && id in s.open[x].tickets && id in s.tickets ::
      && s.open[x].tickets[id].version > s.tickets[id].version
      && s.open[x].tickets[id].tenantId == s.tickets[id].tenantId
      && s.open[x].tickets[id].number == s.tickets[id].number
  }

  // What a call has loaded is a version of the row that is still there, and if the
  // version has not moved, neither has the row.
  predicate SeenIsPast(s: State, tx: Tx, id: string, caller: Caller, seen: Ticket) {
    && seen.id == id && CanSee(caller, seen)
    && RowOf(s, tx, id).Some?
    && RowOf(s, tx, id).value.id == id
    && RowOf(s, tx, id).value.tenantId == seen.tenantId
    && seen.version <= RowOf(s, tx, id).value.version
    && (seen.version == RowOf(s, tx, id).value.version ==> RowOf(s, tx, id).value == seen)
  }

  predicate PhaseOk(s: State, tx: Tx) {
    match tx.phase
    case Loaded(id, _, _, caller, seen) => SeenIsPast(s, tx, id, caller, seen)
    case Validated(id, _, request, caller, seen, at, change) =>
      SeenIsPast(s, tx, id, caller, seen) && Validate(request, seen, caller, at) == Success(change)
    case _ => true
  }

  predicate Phases(s: State) {
    forall x | x in s.open :: PhaseOk(s, s.open[x])
  }

  ghost predicate Inv(s: State) {
    Locks(s) && Histories(s) && Newer(s) && Phases(s) && AllEntries(s, EntryOk)
  }

  // ----- Steps that touch one transaction -----------------------------------------------------

  // What a step may do to the transaction it belongs to, and to nothing else.
  ghost predicate GoodTx(s: State, x: nat, tx: Tx) {
    && (forall y | y in s.open && y != x ::
          tx.tickets.Keys !! s.open[y].tickets.Keys && tx.counters.Keys !! s.open[y].counters.Keys)
    && (forall id :: OpenFold(s, tx, id))
    && (forall id | id in tx.tickets && id in s.tickets ::
          && tx.tickets[id].version > s.tickets[id].version
          && tx.tickets[id].tenantId == s.tickets[id].tenantId
          && tx.tickets[id].number == s.tickets[id].number)
    && PhaseOk(s, tx)
    && (forall i | 0 <= i < |tx.queue| :: EntryOk(tx.queue[i]))
  }

  lemma PutKeeps(s: State, x: nat, tx: Tx)
    requires Inv(s) && GoodTx(s, x, tx)
    ensures Inv(Put(s, x, tx))
  {
    PutKeepsHistories(s, x, tx);
    PutKeepsPhases(s, x, tx);
    hide About, Fold, Validate, MutationEvent, CreatedEvent, CanSee, Histories, Phases, OpenFold, PhaseOk, EntryOk;
  }

  lemma PutKeepsHistories(s: State, x: nat, tx: Tx)
    requires Histories(s) && forall id :: OpenFold(s, tx, id)
    ensures Histories(Put(s, x, tx))
  {
    hide About, Fold;
    var s' := Put(s, x, tx);
    forall y, id | y in s'.open ensures OpenFold(s', s'.open[y], id) {
      if y != x { assert OpenFold(s, s.open[y], id); } else { assert OpenFold(s, tx, id); }
    }
    forall id ensures CommittedFold(s', id) { assert CommittedFold(s, id); }
  }

  lemma PutKeepsPhases(s: State, x: nat, tx: Tx)
    requires Phases(s) && PhaseOk(s, tx)
    ensures Phases(Put(s, x, tx))
  {
    hide Validate, CanSee;
    var s' := Put(s, x, tx);
    forall y | y in s'.open ensures PhaseOk(s', s'.open[y]) {
      if y != x { assert PhaseOk(s, s.open[y]); }
    }
  }

  lemma TxIsGood(s: State, x: nat)
    requires Inv(s) && x in s.open
    ensures GoodTx(s, x, s.open[x])
  {
    hide About, Fold, Validate, MutationEvent, CreatedEvent, CanSee;
    assert PhaseOk(s, s.open[x]);
  }

  lemma LoadKeeps(s: State, x: nat, id: string, version: int, request: Request, caller: Caller)
    requires Inv(s) && x in s.open
    ensures Inv(DoLoad(s, x, s.open[x], id, version, request, caller))
  {
    hide About, Fold, Validate, MutationEvent, CreatedEvent;
    var tx := s.open[x];
    TxIsGood(s, x);
    if RowOf(s, tx, id).Some? && CanSee(caller, RowOf(s, tx, id).value) {
      assert OpenFold(s, tx, id) && CommittedFold(s, id);
      var tx' := tx.(phase := Loaded(id, version, request, caller, RowOf(s, tx, id).value));
      SamePartsGood(s, x, tx, tx');
      PutKeeps(s, x, tx');
    }
  }

  // Changing only the phase needs only the phase to be checked.
  lemma SamePartsGood(s: State, x: nat, tx: Tx, tx': Tx)
    requires GoodTx(s, x, tx) && tx'.tickets == tx.tickets && tx'.queue == tx.queue
    requires PhaseOk(s, tx')
    requires forall y | y in s.open && y != x :: tx'.counters.Keys !! s.open[y].counters.Keys
    ensures GoodTx(s, x, tx')
  {
    hide About, Fold, Validate, MutationEvent, CreatedEvent, CanSee;
    forall id ensures OpenFold(s, tx', id) { assert OpenFold(s, tx, id); }
  }

  lemma JudgeKeeps(s: State, x: nat, at: Circumstance)
    requires Inv(s) && x in s.open && s.open[x].phase.Loaded?
    ensures Inv(DoJudge(s, x, s.open[x], at))
  {
    hide About, Fold, Validate, MutationEvent, CreatedEvent, CanSee;
    var tx, p := s.open[x], s.open[x].phase;
    TxIsGood(s, x);
    var tx' := if Validate(p.request, p.seen, p.caller, at).Failure? then Rest(tx)
               else tx.(phase := Validated(p.id, p.version, p.request, p.caller, p.seen, at,
                                           Validate(p.request, p.seen, p.caller, at).value));
    SamePartsGood(s, x, tx, tx');
    PutKeeps(s, x, tx');
  }

  // Appending an entry to the queue moves exactly the row it is about.
  lemma QueueFolds(s: State, tx: Tx, e: Entry, after: Ticket, counters: map<string, int>)
    requires forall id :: OpenFold(s, tx, id)
    requires after.id == Subject(e)
    requires Fold(About(s.log + tx.queue, Subject(e)) + [e]) == Some(after)
    ensures var tx' := Tx(tx.tickets[Subject(e) := after], counters, tx.queue + [e], Ready);
            forall id :: OpenFold(s, tx', id)
  {
    hide Fold, About;
    var tx' := Tx(tx.tickets[Subject(e) := after], counters, tx.queue + [e], Ready);
    forall id ensures OpenFold(s, tx', id) {
      assert OpenFold(s, tx, id);
      QueuedAbout(s.log, tx.queue, e, id);
    }
  }

  lemma QueuedAbout(log: seq<Entry>, queue: seq<Entry>, e: Entry, id: string)
    ensures About(queue + [e], id) == if Subject(e) == id then About(queue, id) + [e] else About(queue, id)
    ensures About(log + (queue + [e]), id) ==
            if Subject(e) == id then About(log + queue, id) + [e] else About(log + queue, id)
  {
    hide About, Subject;
    AboutConcat(queue, [e], id);
    AboutConcat(log + queue, [e], id);
    AboutOne(e, id);
    assert log + (queue + [e]) == (log + queue) + [e];
  }

  // The row a transaction works on is the fold of the entries it would commit after.
  lemma RowIsFold(s: State, x: nat, id: string)
    requires Inv(s) && x in s.open
    ensures RowOf(s, s.open[x], id) == Fold(About(s.log + s.open[x].queue, id))
    ensures RowOf(s, s.open[x], id).None? ==> About(s.log + s.open[x].queue, id) == []
    ensures RowOf(s, s.open[x], id).Some? ==> RowOf(s, s.open[x], id).value.id == id
  {
    var tx := s.open[x];
    assert OpenFold(s, tx, id) && CommittedFold(s, id);
    AboutConcat(s.log, tx.queue, id);
    assert About(s.log, id) + [] == About(s.log, id);
  }

  lemma UpdateKeeps(s: State, x: nat)
    requires Inv(s) && x in s.open && s.open[x].phase.Validated? && DoUpdate(s, x, s.open[x]).Some?
    ensures Inv(DoUpdate(s, x, s.open[x]).value)
  {
    hide About, Fold, Validate, MutationEvent, CreatedEvent, CanSee;
    var tx, p := s.open[x], s.open[x].phase;
    TxIsGood(s, x);
    assert PhaseOk(s, tx);
    var row := RowOf(s, tx, p.id).value;
    if row.version != p.version || row.tenantId != p.caller.tenantId {
      SamePartsGood(s, x, tx, Rest(tx));
      PutKeeps(s, x, Rest(tx));
    } else {
      var after := Apply(row, p.change);
      var e := Mutated(p.seen, row, p.request, p.caller, p.at, p.change,
                       MutationEvent(p.request, p.seen, after, p.caller));
      RowIsFold(s, x, p.id);
      FoldSnoc(About(s.log + tx.queue, p.id), e);
      QueueFolds(s, tx, e, after, tx.counters);
      var tx' := Tx(tx.tickets[p.id := after], tx.counters, tx.queue + [e], Ready);
      assert forall y | y in s.open && y != x :: p.id !in s.open[y].tickets;
      assert GoodTx(s, x, tx');
      PutKeeps(s, x, tx');
    }
  }

  lemma CountUpKeeps(s: State, x: nat, draft: Draft, caller: Caller)
    requires Inv(s) && x in s.open && DoCountUp(s, x, s.open[x], draft, caller).Some?
    ensures Inv(DoCountUp(s, x, s.open[x], draft, caller).value)
  {
    hide About, Fold, Validate, MutationEvent, CreatedEvent, CanSee;
    var tx, t := s.open[x], caller.tenantId;
    TxIsGood(s, x);
    if t in s.counters || t in tx.counters {
      var number := (if t in tx.counters then tx.counters[t] else s.counters[t]) + 1;
      var tx' := tx.(counters := tx.counters[t := number], phase := Counted(draft, caller, number));
      assert forall y | y in s.open && y != x :: t !in s.open[y].counters;
      SamePartsGood(s, x, tx, tx');
      PutKeeps(s, x, tx');
    }
  }

  lemma InsertKeeps(s: State, x: nat, id: string, now: int)
    requires Inv(s) && x in s.open && s.open[x].phase.Counted? && DoInsert(s, x, s.open[x], id, now).Some?
    ensures Inv(DoInsert(s, x, s.open[x], id, now).value)
  {
    hide About, Fold, Validate, MutationEvent, CreatedEvent, CanSee;
    var tx, p := s.open[x], s.open[x].phase;
    TxIsGood(s, x);
    var ticket := NewTicket(id, p.number, p.draft, p.caller, now);
    var e := Opened(ticket, p.caller, CreatedEvent(ticket, p.caller));
    RowIsFold(s, x, id);
    FoldSnoc(About(s.log + tx.queue, id), e);
    QueueFolds(s, tx, e, ticket, tx.counters);
    var tx' := Tx(tx.tickets[id := ticket], tx.counters, tx.queue + [e], Ready);
    assert forall y | y in s.open && y != x :: id !in s.open[y].tickets;
    assert GoodTx(s, x, tx');
    PutKeeps(s, x, tx');
  }

  // ----- Ending a transaction --------------------------------------------------------------------

  lemma RollbackKeeps(s: State, x: nat)
    requires Inv(s) && x in s.open
    ensures Inv(s.(open := s.open - {x}))
  {
    hide About, Fold, Validate, MutationEvent, CreatedEvent, CanSee;
    var s' := s.(open := s.open - {x});
    forall id ensures CommittedFold(s', id) { assert CommittedFold(s, id); }
    forall y, id | y in s'.open ensures OpenFold(s', s'.open[y], id) { assert OpenFold(s, s.open[y], id); }
    forall y | y in s'.open ensures PhaseOk(s', s'.open[y]) { assert PhaseOk(s, s.open[y]); }
  }

  lemma CommitFolds(s: State, x: nat)
    requires Inv(s) && x in s.open
    ensures Histories(DoCommit(s, x, s.open[x]))
  {
    hide Fold, About, Phases, Newer, AllEntries;
    var tx, s' := s.open[x], DoCommit(s, x, s.open[x]);
    forall id ensures CommittedFold(s', id) {
      assert CommittedFold(s, id) && OpenFold(s, tx, id);
      AboutConcat(s.log, tx.queue, id);
      assert About(s.log, id) + [] == About(s.log, id);
    }
    forall y, id | y in s'.open ensures OpenFold(s', s'.open[y], id) {
      var other := s.open[y];
      assert OpenFold(s, other, id) && OpenFold(s, tx, id);
      if id in other.tickets {
        assert id !in tx.tickets;
        AboutConcat(s.log, other.queue, id);
        AboutThree(s.log, tx.queue, other.queue, id);
      }
    }
  }

  lemma AboutThree(log: seq<Entry>, first: seq<Entry>, second: seq<Entry>, id: string)
    requires About(first, id) == []
    ensures About((log + first) + second, id) == About(log + second, id)
  {
    AboutConcat(log, first, id);
    AboutConcat(log + first, second, id);
    AboutConcat(log, second, id);
    assert About(log, id) + [] == About(log, id);
  }

  // A committed rewrite of a row is a strictly later version of it.
  lemma CommitKeepsPhase(s: State, x: nat, y: nat)
    requires Inv(s) && x in s.open && y in s.open && x != y
    ensures PhaseOk(DoCommit(s, x, s.open[x]), s.open[y])
  {
    hide About, Fold, Validate, MutationEvent, CreatedEvent, CanSee, AllEntries;
    var tx, other := s.open[x], s.open[y];
    assert PhaseOk(s, other);
    if other.phase.Loaded? || other.phase.Validated? {
      var id := other.phase.id;
      assert OpenFold(s, tx, id);
      if id in tx.tickets && id in s.tickets {
        assert tx.tickets[id].version > s.tickets[id].version;
      }
    }
  }

  lemma CommitKeepsNewer(s: State, x: nat)
    requires Locks(s) && Newer(s) && x in s.open
    ensures Newer(DoCommit(s, x, s.open[x])) && Locks(DoCommit(s, x, s.open[x]))
  {
  }

  lemma CommitKeeps(s: State, x: nat)
    requires Inv(s) && x in s.open
    ensures Inv(DoCommit(s, x, s.open[x]))
  {
    hide About, Fold, Validate, MutationEvent, CreatedEvent, CanSee;
    var tx, s' := s.open[x], DoCommit(s, x, s.open[x]);
    CommitFolds(s, x);
    forall y | y in s'.open ensures PhaseOk(s', s'.open[y]) {
      CommitKeepsPhase(s, x, y);
    }
    CommitKeepsNewer(s, x);
  }

  // ----- Every run ---------------------------------------------------------------------------------

  lemma StepKeeps(s: State, move: Move)
    requires Inv(s) && Step(s, move).Some?
    ensures Inv(Step(s, move).value)
  {
    hide About, Fold, Validate, MutationEvent, CreatedEvent, CanSee, Inv, DoLoad, DoJudge, DoUpdate, DoCountUp,
      DoInsert, DoCommit;
    match move
    case NewTenant(t) => TenantKeeps(s, t);
    case Begin(x) => BeginKeeps(s, x);
    case Load(x, id, version, request, caller) => LoadKeeps(s, x, id, version, request, caller);
    case Judge(x, at) => JudgeKeeps(s, x, at);
    case Update(x) => UpdateKeeps(s, x);
    case CountUp(x, draft, caller) => CountUpKeeps(s, x, draft, caller);
    case Insert(x, id, now) => InsertKeeps(s, x, id, now);
    case Break(x) => BreakKeeps(s, x);
    case Commit(x) => CommitKeeps(s, x);
    case Rollback(x) => RollbackKeeps(s, x);
  }

  lemma TenantKeeps(s: State, t: string)
    requires Inv(s)
    ensures Inv(s.(counters := s.counters[t := 0]))
  {
    hide About, Fold, Validate, MutationEvent, CreatedEvent, CanSee;
    var s' := s.(counters := s.counters[t := 0]);
    forall id ensures CommittedFold(s', id) { assert CommittedFold(s, id); }
    forall y, id | y in s'.open ensures OpenFold(s', s'.open[y], id) { assert OpenFold(s, s.open[y], id); }
    forall y | y in s'.open ensures PhaseOk(s', s'.open[y]) { assert PhaseOk(s, s.open[y]); }
  }

  lemma BeginKeeps(s: State, x: nat)
    requires Inv(s) && x !in s.open
    ensures Inv(Put(s, x, Tx(map[], map[], [], Ready)))
  {
    hide Fold, Validate, MutationEvent, CreatedEvent, CanSee;
    PutKeeps(s, x, Tx(map[], map[], [], Ready));
  }

  lemma BreakKeeps(s: State, x: nat)
    requires Inv(s) && x in s.open
    ensures Inv(Put(s, x, s.open[x].(phase := Doomed)))
  {
    hide About, Fold, Validate, MutationEvent, CreatedEvent, CanSee;
    TxIsGood(s, x);
    SamePartsGood(s, x, s.open[x], s.open[x].(phase := Doomed));
    PutKeeps(s, x, s.open[x].(phase := Doomed));
  }

  lemma StartKeeps()
    ensures Inv(START)
  {
  }

  lemma {:induction false} RunKeeps(s: State, moves: seq<Move>)
    requires Inv(s) && Runs(s, moves)
    ensures Inv(End(s, moves))
    decreases moves
  {
    hide Inv, Step;
    if moves != [] {
      StepKeeps(s, moves[0]);
      RunKeeps(Step(s, moves[0]).value, moves[1..]);
    }
  }

  // ----- What moves do, one by one --------------------------------------------------------------

  // A transaction is begun empty, can roll back whatever has become of it, and then leaves
  // nothing; one that met an error can do nothing else. It commits only between calls. A new
  // tenant counts from zero.
  lemma TransactionsBeginAndEnd(s: State, x: nat, t: string)
    ensures Step(s, Begin(x)) == if x in s.open then None
                                 else Some(s.(open := s.open[x := Tx(map[], map[], [], Ready)]))
    ensures Step(s, Rollback(x)) == if x in s.open then Some(s.(open := s.open - {x})) else None
    ensures Step(s, Break(x)) == if x in s.open then Some(s.(open := s.open[x := s.open[x].(phase := Doomed)]))
                                 else None
    ensures Step(s, Commit(x)).Some? <==> x in s.open && s.open[x].phase == Ready
    ensures Step(s, NewTenant(t)) ==
            if t !in s.counters && forall y | y in s.open :: t !in s.open[y].counters
            then Some(s.(counters := s.counters[t := 0])) else None
  {
    hide DoCommit;
  }

  lemma DoomedOnlyRollsBack(s: State, move: Move)
    requires !move.NewTenant? && move.x in s.open && s.open[move.x].phase == Doomed && Step(s, move).Some?
    ensures move.Break? || move.Rollback?
  {
  }

  // A call that is refused, by the rules or by the version, is over, and has changed nothing.
  lemma RefusedCallsEnd(s: State, x: nat, at: Circumstance)
    requires x in s.open
    ensures var tx := s.open[x];
            && (tx.phase.Loaded? && !Acceptable(tx.phase.request, tx.phase.seen, at) ==>
                  Step(s, Judge(x, at)) == Some(s.(open := s.open[x := tx.(phase := Ready)])))
            && (tx.phase.Validated? && RowOf(s, tx, tx.phase.id).Some?
                && RowOf(s, tx, tx.phase.id).value.version != tx.phase.version ==>
                  Step(s, Update(x)) == Some(s.(open := s.open[x := tx.(phase := Ready)])))
  {
    var tx := s.open[x];
    if tx.phase.Loaded? { MutationDoesWhatWasAsked(tx.phase.request, tx.phase.seen, tx.phase.caller, at); }
    hide Validate, MutationEvent;
  }
}
