// Ticket requests as interleaved statements of concurrent transactions at READ
// COMMITTED: a read sees committed rows and the transaction's own writes, a write
// takes a row lock that is held until commit or rollback, and a conditional update
// evaluates its condition on the row as it is when the lock is free.
module TicketMachine {
  import opened Values
  import opened Tickets

  // One committed (or queued) piece of work on a ticket. `seen` is the row `load`
  // returned and validation judged; `row` is the row the update actually changed.
  datatype Entry =
    | Opened(ticket: Ticket, caller: Caller, event: TicketEvent)
    | Mutated(seen: Ticket, row: Ticket, request: Request, caller: Caller, at: Circumstance, change: Change,
              event: TicketEvent)

  datatype Phase =
    | Ready
    | Loaded(id: string, version: int, request: Request, caller: Caller, seen: Ticket)
    | Validated(id: string, version: int, request: Request, caller: Caller, seen: Ticket, at: Circumstance,
                change: Change)
    | Counted(draft: Draft, caller: Caller, number: int)
    | Doomed

  // Rows and counters this transaction has written and locked, and the entries whose
  // events are queued until it commits.
  datatype Tx = Tx(tickets: map<string, Ticket>, counters: map<string, int>, queue: seq<Entry>, phase: Phase)

  datatype State = State(tickets: map<string, Ticket>, counters: map<string, int>, log: seq<Entry>, open: map<nat, Tx>)

  datatype Move =
    | NewTenant(tenantId: string)
    | Begin(x: nat)
    | Load(x: nat, id: string, version: int, request: Request, caller: Caller)
    | Judge(x: nat, at: Circumstance)
    | Update(x: nat)
    | CountUp(x: nat, draft: Draft, caller: Caller)
    | Insert(x: nat, id: string, now: int)
    | Break(x: nat)
    | Commit(x: nat)
    | Rollback(x: nat)

  // ----- Statements -------------------------------------------------------------------------

  function RowOf(s: State, tx: Tx, id: string): Option<Ticket> {
    if id in tx.tickets then Some(tx.tickets[id])
    else if id in s.tickets then Some(s.tickets[id])
    else None
  }

  predicate TicketLocked(s: State, x: nat, id: string) {
    exists y | y in s.open && y != x :: id in s.open[y].tickets
  }

  predicate CounterLocked(s: State, x: nat, tenantId: string) {
    exists y | y in s.open && y != x :: tenantId in s.open[y].counters
  }

  function Put(s: State, x: nat, tx: Tx): State {
    s.(open := s.open[x := tx])
  }

  function Rest(tx: Tx): Tx {
    tx.(phase := Ready)
  }

  // `load`: 404 for a row that is not the caller's to see.
  function DoLoad(s: State, x: nat, tx: Tx, id: string, version: int, request: Request, caller: Caller): State {
    match RowOf(s, tx, id)
    case None => s
    case Some(row) =>
      if CanSee(caller, row) then Put(s, x, tx.(phase := Loaded(id, version, request, caller, row))) else s
  }

  // The `change` callback: a conflict ends the call and writes nothing.
  function DoJudge(s: State, x: nat, tx: Tx, at: Circumstance): State
    requires tx.phase.Loaded?
  {
    var p := tx.phase;
    match Validate(p.request, p.seen, p.caller, at)
    case Failure(_) => Put(s, x, Rest(tx))
    case Success(change) => Put(s, x, tx.(phase := Validated(p.id, p.version, p.request, p.caller, p.seen, at, change)))
  }

  // `updateMany({ where: { id, version } })`, the re-read of the row just written, and
  // the queued event. No match is the 409. A match on a locked row waits.
  function DoUpdate(s: State, x: nat, tx: Tx): Option<State>
    requires tx.phase.Validated?
  {
    var p := tx.phase;
    match RowOf(s, tx, p.id)
    case None => Some(Put(s, x, Rest(tx)))
    case Some(row) =>
      if row.version != p.version || row.tenantId != p.caller.tenantId then Some(Put(s, x, Rest(tx)))
      else if TicketLocked(s, x, p.id) then None
      else
        var after := Apply(row, p.change);
        var event := MutationEvent(p.request, p.seen, after, p.caller);
        Some(Put(s, x, Tx(tx.tickets[p.id := after], tx.counters,
                          tx.queue + [Mutated(p.seen, row, p.request, p.caller, p.at, p.change, event)], Ready)))
  }

  // The counter's increment waits for the row lock. A tenant without a counter is an error.
  function DoCountUp(s: State, x: nat, tx: Tx, draft: Draft, caller: Caller): Option<State> {
    var t := caller.tenantId;
    if t !in s.counters && t !in tx.counters then Some(s)
    else if CounterLocked(s, x, t) then None
    else
      var number := (if t in tx.counters then tx.counters[t] else s.counters[t]) + 1;
      Some(Put(s, x, tx.(counters := tx.counters[t := number], phase := Counted(draft, caller, number))))
  }

  // The id is generated, so it is one no row has.
  function DoInsert(s: State, x: nat, tx: Tx, id: string, now: int): Option<State>
    requires tx.phase.Counted?
  {
    if RowOf(s, tx, id).Some? || TicketLocked(s, x, id) then None
    else
      var ticket := NewTicket(id, tx.phase.number, tx.phase.draft, tx.phase.caller, now);
      Some(Put(s, x, Tx(tx.tickets[id := ticket], tx.counters,
                        tx.queue + [Opened(ticket, tx.phase.caller, CreatedEvent(ticket, tx.phase.caller))], Ready)))
  }

  function DoCommit(s: State, x: nat, tx: Tx): State {
    State(s.tickets + tx.tickets, s.counters + tx.counters, s.log + tx.queue, s.open - {x})
  }

  // One step, if it is possible now. Any transaction may roll back at any time; one
  // that met a database error can do nothing else.
  function Step(s: State, move: Move): Option<State> {
    match move
    case NewTenant(t) =>
      if t in s.counters || (exists x | x in s.open :: t in s.open[x].counters) then None
      else Some(s.(counters := s.counters[t := 0]))
    case Begin(x) => if x in s.open then None else Some(Put(s, x, Tx(map[], map[], [], Ready)))
    case Load(x, id, version, request, caller) =>
      if x !in s.open || !s.open[x].phase.Ready? then None
      else Some(DoLoad(s, x, s.open[x], id, version, request, caller))
    case Judge(x, at) =>
      if x in s.open && s.open[x].phase.Loaded? then Some(DoJudge(s, x, s.open[x], at)) else None
    case Update(x) =>
      if x in s.open && s.open[x].phase.Validated? then DoUpdate(s, x, s.open[x]) else None
    case CountUp(x, draft, caller) =>
      if x in s.open && s.open[x].phase.Ready? then DoCountUp(s, x, s.open[x], draft, caller) else None
    case Insert(x, id, now) =>
      if x in s.open && s.open[x].phase.Counted? then DoInsert(s, x, s.open[x], id, now) else None
    case Break(x) =>
      if x in s.open then Some(Put(s, x, s.open[x].(phase := Doomed))) else None
    case Commit(x) =>
      if x in s.open && s.open[x].phase.Ready? then Some(DoCommit(s, x, s.open[x])) else None
    case Rollback(x) =>
      if x in s.open then Some(s.(open := s.open - {x})) else None
  }

  // ----- Runs ----------------------------------------------------------------------------------

  const START := State(map[], map[], [], map[])

  // Every step of the run is possible when it is taken.
  predicate Runs(s: State, moves: seq<Move>)
    decreases moves
  {
    moves == [] || (Step(s, moves[0]).Some? && Runs(Step(s, moves[0]).value, moves[1..]))
  }

  function End(s: State, moves: seq<Move>): State
    requires Runs(s, moves)
    decreases moves
  {
    if moves == [] then s else End(Step(s, moves[0]).value, moves[1..])
  }

  // The caller names a version it can have read: no later than the row's when it is loaded.
  predicate Honest(s: State, move: Move) {
    move.Load? && move.x in s.open && RowOf(s, s.open[move.x], move.id).Some? ==>
      move.version <= RowOf(s, s.open[move.x], move.id).value.version
  }

  predicate HonestRun(s: State, moves: seq<Move>)
    requires Runs(s, moves)
    decreases moves
  {
    moves == [] || (Honest(s, moves[0]) && HonestRun(Step(s, moves[0]).value, moves[1..]))
  }

  // ----- A ticket's own history ------------------------------------------------------------------

  function Subject(e: Entry): string {
    match e
    case Opened(ticket, _, _) => ticket.id
    case Mutated(_, row, _, _, _, _, _) => row.id
  }

  function About(log: seq<Entry>, id: string): seq<Entry> {
    if log == [] then []
    else About(log[..|log| - 1], id) + (if Subject(log[|log| - 1]) == id then [log[|log| - 1]] else [])
  }

  // The row the entries leave behind, if each one changed the row its predecessor left.
  function Fold(entries: seq<Entry>): Option<Ticket> {
    if entries == [] then None
    else
      match entries[|entries| - 1]
      case Opened(ticket, _, _) => if |entries| == 1 then Some(ticket) else None
      case Mutated(_, row, _, _, _, change, _) =>
        if Fold(entries[..|entries| - 1]) == Some(row) then Some(Apply(row, change)) else None
  }
}
