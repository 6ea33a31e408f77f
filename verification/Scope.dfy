// The meaning of code run under the tenancy layer: src/tenancy/tenant-scope.service.ts,
// src/tenancy/domain-events.ts and the re-entrant `$transaction` of
// src/prisma/prisma.client.ts, as one function from a world to a world.
//
// A `Prog` is the body handed to a scope. Everything it does may depend on the
// replies it has received so far, so it can branch, compute a tenant from a row it
// has just created, or decide what to throw.
module Scope {
  import opened Values
  import opened Database
  import opened TenantExtension

  type History = seq<Reply>

  datatype Event = Event(name: string, payload: Value)

  datatype Prog =
    | Skip
    | Query(call: History -> Call)
    | Raw(sql: (History, Rows) -> Effect)
    | Emit(event: History -> Event)
    | Throw(error: History -> Error)
    | Catch(body: Prog, handler: Prog)
    | Seq(first: Prog, second: Prog)
    | Branch(test: History -> bool, yes: Prog, no: Prog)
    | Run(tenant: History -> Option<string>, body: Prog)
    | Attempt(body: Prog)
    | Transaction(body: Prog)
    | Batch(items: seq<Prog>)

  datatype Outcome = Ok | Err(error: Error)

  // A write, and the place of its statement among all the statements issued: a write that
  // is undone and done again is another write.
  datatype Stamped = Stamped(effect: Effect, at: nat)

  // A savepoint remembers everything `ROLLBACK TO` undoes, the transaction-local
  // setting included.
  datatype Savepoint = Savepoint(name: nat, rows: Rows, writes: seq<Stamped>, session: string)

  // The open transaction: its working rows, the writes that made them, the value of
  // `app.tenant_id`, and whether an error has aborted it.
  datatype Txn = Txn(rows: Rows, writes: seq<Stamped>, session: string, aborted: bool, savepoints: seq<Savepoint>)

  // The AsyncLocalStorage store; `None` is an unscoped scope.
  datatype Store = Store(tenantId: Option<string>)

  // A queued event, with the writes its transaction had made when it was raised.
  datatype Notice = Notice(event: Event, after: seq<Stamped>)

  // One statement as the server received it.
  datatype Observation = Observation(scope: Option<string>, session: string, aborted: bool)

  datatype World = World(
    committed: Rows,
    tx: Option<Txn>,
    store: Option<Store>,
    pending: seq<Notice>,
    released: seq<Event>,
    counter: nat,
    history: History,
    emitted: seq<Event>,
    observed: seq<Observation>)

  // `tenantId ?? ''`
  function Setting(tenantId: Option<string>): string {
    match tenantId
    case None => ""
    case Some(id) => id
  }

  function CurrentScope(w: World): ScopeKind {
    match w.store
    case None => NoScope
    case Some(store) =>
      match store.tenantId
      case None => Unscoped
      case Some(id) => InTenant(id)
  }

  // ----- Statements on the open transaction ---------------------------------------

  function SetTenant(tx: Txn, tenantId: Option<string>): (Txn, Outcome) {
    if tx.aborted then (tx, Err(TRANSACTION_ABORTED)) else (tx.(session := Setting(tenantId)), Ok)
  }

  function TakeSavepoint(tx: Txn, name: nat): (Txn, Outcome) {
    if tx.aborted then
      (tx, Err(TRANSACTION_ABORTED))
    else
      (tx.(savepoints := tx.savepoints + [Savepoint(name, tx.rows, tx.writes, tx.session)]), Ok)
  }

  // The most recent savepoint of that name; `|savepoints|` when there is none.
  function Position(savepoints: seq<Savepoint>, name: nat): (at: nat)
    ensures at <= |savepoints|
    ensures at < |savepoints| ==> savepoints[at].name == name
    ensures forall i | at < i < |savepoints| :: savepoints[i].name != name
    ensures at == |savepoints| ==> forall i | 0 <= i < |savepoints| :: savepoints[i].name != name
  {
    if savepoints == [] then 0
    else if savepoints[|savepoints| - 1].name == name then |savepoints| - 1
    else
      var at := Position(savepoints[..|savepoints| - 1], name);
      if at == |savepoints| - 1 then |savepoints| else at
  }

  function Release(tx: Txn, name: nat): (Txn, Outcome) {
    var at := Position(tx.savepoints, name);
    if tx.aborted then (tx, Err(TRANSACTION_ABORTED))
    else if at == |tx.savepoints| then (tx.(aborted := true), Err(NO_SUCH_SAVEPOINT))
    else (tx.(savepoints := tx.savepoints[..at]), Ok)
  }

  // Works in an aborted transaction, restores what the savepoint remembers, and
  // leaves the savepoint itself in place.
  function RollbackTo(tx: Txn, name: nat): (Txn, Outcome) {
    var at := Position(tx.savepoints, name);
    if at == |tx.savepoints| then
      (tx.(aborted := true), Err(NO_SUCH_SAVEPOINT))
    else
      var saved := tx.savepoints[at];
      (Txn(saved.rows, saved.writes, saved.session, false, tx.savepoints[..at + 1]), Ok)
  }

  // A statement that changes no row is no write.
  predicate Changes(effect: Effect) {
    effect.Write? && (effect.inserts != map[] || effect.updates != map[] || effect.deletes != {})
  }

  function Recorded(writes: seq<Stamped>, effect: Effect, at: nat): seq<Stamped> {
    if Changes(effect) then writes + [Stamped(effect, at)] else writes
  }

  // A statement of the program: its reply, or the error it raised.
  function Submit(tx: Txn, statement: Statement, at: nat): (Txn, Result<Reply>) {
    if tx.aborted then
      (tx, Failure(TRANSACTION_ABORTED))
    else
      var effect := EffectUnder(tx.rows, tx.session, statement);
      match Refusal(tx.rows, tx.session, effect)
      case Some(e) => (tx.(aborted := e.Db?), Failure(e))
      case None =>
        (tx.(rows := Overwrite(tx.rows, effect), writes := Recorded(tx.writes, effect, at)), Success(effect.reply))
  }

  // With no scope open a statement runs alone, on a connection that has no tenant.
  function Autocommit(rows: Rows, statement: Statement): (Rows, Result<Reply>) {
    var effect := EffectUnder(rows, "", statement);
    match Refusal(rows, "", effect)
    case Some(e) => (rows, Failure(e))
    case None => (Overwrite(rows, effect), Success(effect.reply))
  }

  // ----- The program --------------------------------------------------------------

  function Issue(w: World, statement: Statement): (World, Outcome) {
    match w.tx
    case None =>
      var (rows, reply) := Autocommit(w.committed, statement);
      Answered(w.(committed := rows), reply)
    case Some(tx) =>
      var scope := if w.store.Some? then w.store.value.tenantId else None;
      var (tx', reply) := Submit(tx, statement, |w.observed|);
      Answered(w.(tx := Some(tx'), observed := w.observed + [Observation(scope, tx.session, tx.aborted)]), reply)
  }

  function RawOn(sql: (History, Rows) -> Effect, history: History): Statement {
    RawStatement(visible => sql(history, visible))
  }

  function Answered(w: World, reply: Result<Reply>): (World, Outcome) {
    match reply
    case Success(value) => (w.(history := w.history + [value]), Ok)
    case Failure(e) => (w, Err(e))
  }

  function IssueQuery(w: World, call: Call): (World, Outcome) {
    match Intercept(call, CurrentScope(w))
    case Failure(e) => (w, Err(e))
    case Success(scoped) => Issue(w, ModelStatement(scoped))
  }

  // `DomainEvents.emit`
  function EmitEvent(w: World, event: Event): World {
    match w.tx
    case None => w.(released := w.released + [event], emitted := w.emitted + [event])
    case Some(tx) => w.(pending := w.pending + [Notice(event, tx.writes)], emitted := w.emitted + [event])
  }

  function Events(notices: seq<Notice>): seq<Event> {
    seq(|notices|, i requires 0 <= i < |notices| => notices[i].event)
  }

  function Exec(p: Prog, w: World): (r: (World, Outcome))
    ensures r.0.tx.Some? == w.tx.Some?
    decreases p, 1
  {
    match p
    case Skip => (w, Ok)
    case Query(call) => IssueQuery(w, call(w.history))
    case Raw(sql) => Issue(w, RawOn(sql, w.history))
    case Emit(event) => (EmitEvent(w, event(w.history)), Ok)
    case Throw(error) => (w, Err(error(w.history)))
    case Catch(body, handler) =>
      (match Exec(body, w)
       case (w1, Ok) => (w1, Ok)
       case (w1, Err(e)) => Exec(handler, w1.(history := w1.history + [Failed(e)])))
    case Seq(first, second) =>
      (match Exec(first, w)
       case (w1, Ok) => Exec(second, w1)
       case (w1, Err(e)) => (w1, Err(e)))
    case Branch(test, yes, no) => if test(w.history) then Exec(yes, w) else Exec(no, w)
    case Run(tenant, body) =>
      var tenantId := tenant(w.history);
      if tenantId == Some("") then (w, Err(App(EmptyTenant)))
      else if w.tx.Some? && w.store.Some? then RunNested(tenantId, body, w)
      else RunOwner(tenantId, body, w)
    case Attempt(body) => if w.tx.Some? then ExecAttempt(body, w) else Exec(body, w)
    case Transaction(body) => Exec(body, w)
    case Batch(items) => ExecAll(items, w)
  }

  // The array form of `$transaction`: the elements in order, up to the first failure.
  function ExecAll(items: seq<Prog>, w: World): (r: (World, Outcome))
    ensures r.0.tx.Some? == w.tx.Some?
    decreases items, 0
  {
    if items == [] then (w, Ok)
    else
      match Exec(items[0], w)
      case (w1, Ok) => ExecAll(items[1..], w1)
      case (w1, Err(e)) => (w1, Err(e))
  }

  // `run` when no transaction is open: this scope owns the transaction and the queue.
  function RunOwner(tenantId: Option<string>, body: Prog, w: World): (r: (World, Outcome))
    ensures r.0.tx.Some? == w.tx.Some?
    decreases body, 2
  {
    var entered := w.(tx := Some(Txn(w.committed, [], Setting(tenantId), false, [])),
                     store := Some(Store(tenantId)), pending := []);
    var (w1, outcome) := Exec(body, entered);
    var closed := w1.(tx := w.tx, store := w.store, pending := w.pending);
    match outcome
    case Err(e) => (closed, Err(e))
    case Ok => (closed.(committed := Commit(w1.committed, w1.tx.value),
                        released := w1.released + Events(w1.pending)), Ok)
  }

  // COMMIT of an aborted transaction is answered by rolling it back, without an error.
  function Commit(committed: Rows, tx: Txn): Rows {
    if tx.aborted then committed else tx.rows
  }

  // A nested scope borrows the transaction, re-points it, and restores it in `finally`;
  // a restore that itself fails is swallowed.
  function RunNested(tenantId: Option<string>, body: Prog, w: World): (r: (World, Outcome))
    requires w.tx.Some? && w.store.Some?
    ensures r.0.tx.Some?
    decreases body, 2
  {
    match SetTenant(w.tx.value, tenantId)
    case (_, Err(e)) => (w, Err(e))
    case (tx, Ok) =>
      var (w1, outcome) := Exec(body, w.(tx := Some(tx), store := Some(Store(tenantId))));
      var (restored, _) := SetTenant(w1.tx.value, w.store.value.tenantId);
      (w1.(tx := Some(restored), store := w.store), outcome)
  }

  function ExecAttempt(body: Prog, w: World): (r: (World, Outcome))
    requires w.tx.Some?
    ensures r.0.tx.Some?
    decreases body, 2
  {
    var name := w.counter + 1;
    match TakeSavepoint(w.tx.value, name)
    case (_, Err(e)) => (w.(counter := name), Err(e))
    case (tx, Ok) =>
      var (w1, outcome) := Exec(body, w.(counter := name, tx := Some(tx)));
      SettleAttempt(w1, name, outcome)
  }

  function SettleAttempt(w1: World, name: nat, outcome: Outcome): (r: (World, Outcome))
    requires w1.tx.Some?
    ensures r.0.tx.Some?
  {
    match outcome
    case Err(e) => Undo(w1, name, e)
    case Ok =>
      match Release(w1.tx.value, name)
      case (released, Ok) => (w1.(tx := Some(released)), Ok)
      case (unreleased, Err(e)) => Undo(w1.(tx := Some(unreleased)), name, e)
  }

  // The `catch` of `attempt`: roll back to the savepoint and re-raise.
  function Undo(w: World, name: nat, error: Error): (World, Outcome)
    requires w.tx.Some?
  {
    match RollbackTo(w.tx.value, name)
    case (tx, Ok) => (w.(tx := Some(tx)), Err(error))
    case (tx, Err(e)) => (w.(tx := Some(tx)), Err(e))
  }
}
