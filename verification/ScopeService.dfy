// TenantScopeService, DomainEvents and the array form of `$transaction`, as the
// objects and in-place updates of the repository. Every method is proved to do what
// the function in module Scope says, which is what the laws are about.
module ScopeService {
  import opened Values
  import opened Database
  import opened TenantExtension
  import opened Scope

  // The queue of a scope that owns its transaction. Nested scopes hold the same object.
  class PendingQueue {
    var items: seq<Notice>

    constructor ()
      ensures items == []
    {
      items := [];
    }

    method Push(notice: Notice)
      modifies this
      ensures items == old(items) + [notice]
    {
      items := items + [notice];
    }
  }

  // The connection's side of an open transaction.
  class OpenTransaction {
    var rows: Rows
    var writes: seq<Stamped>
    var session: string
    var aborted: bool
    var savepoints: seq<Savepoint>

    ghost function State(): Txn
      reads this
    {
      Txn(rows, writes, session, aborted, savepoints)
    }

    constructor (committed: Rows)
      ensures State() == Txn(committed, [], "", false, [])
    {
      rows, writes, session, aborted, savepoints := committed, [], "", false, [];
    }

    method SetConfig(tenantId: Option<string>) returns (outcome: Outcome)
      modifies this
      ensures (State(), outcome) == SetTenant(old(State()), tenantId)
    {
      if aborted { return Err(TRANSACTION_ABORTED); }
      session := Setting(tenantId);
      outcome := Ok;
    }

    method Save(name: nat) returns (outcome: Outcome)
      modifies this
      ensures (State(), outcome) == TakeSavepoint(old(State()), name)
    {
      if aborted { return Err(TRANSACTION_ABORTED); }
      savepoints := savepoints + [Savepoint(name, rows, writes, session)];
      outcome := Ok;
    }

    method ReleaseSavepoint(name: nat) returns (outcome: Outcome)
      modifies this
      ensures (State(), outcome) == Release(old(State()), name)
    {
      if aborted { return Err(TRANSACTION_ABORTED); }
      var at := Position(savepoints, name);
      if at == |savepoints| {
        aborted := true;
        return Err(NO_SUCH_SAVEPOINT);
      }
      savepoints := savepoints[..at];
      outcome := Ok;
    }

    method RollbackToSavepoint(name: nat) returns (outcome: Outcome)
      modifies this
      ensures (State(), outcome) == RollbackTo(old(State()), name)
    {
      var at := Position(savepoints, name);
      if at == |savepoints| {
        aborted := true;
        return Err(NO_SUCH_SAVEPOINT);
      }
      rows, writes, session := savepoints[at].rows, savepoints[at].writes, savepoints[at].session;
      aborted := false;
      savepoints := savepoints[..at + 1];
      outcome := Ok;
    }

    method Perform(statement: Statement, at: nat) returns (reply: Result<Reply>)
      modifies this
      ensures (State(), reply) == Submit(old(State()), statement, at)
    {
      if aborted { return Failure(TRANSACTION_ABORTED); }
      var effect := EffectUnder(rows, session, statement);
      match Refusal(rows, session, effect)
      case Some(e) =>
        aborted := e.Db?;
        reply := Failure(e);
      case None =>
        rows := Overwrite(rows, effect);
        if Changes(effect) { writes := writes + [Stamped(effect, at)]; }
        reply := Success(effect.reply);
    }
  }

  // What AsyncLocalStorage holds while a scope is open.
  datatype ActiveStore = ActiveStore(tenantId: Option<string>, tx: OpenTransaction, pending: PendingQueue)

  class TenantScopeService {
    var committed: Rows
    var store: Option<ActiveStore>
    var counter: nat
    var released: seq<Event>
    var history: History
    var emitted: seq<Event>
    var observed: seq<Observation>

    ghost function Handles(): set<object>
      reads this
    {
      if store.None? then {} else {store.value.tx, store.value.pending}
    }

    ghost function View(): World
      reads this, Handles()
    {
      World(committed,
            if store.None? then None else Some(store.value.tx.State()),
            if store.None? then None else Some(Store(store.value.tenantId)),
            if store.None? then [] else store.value.pending.items,
            released, counter, history, emitted, observed)
    }

    constructor (rows: Rows)
      ensures store.None?
      ensures View() == World(rows, None, None, [], [], 0, [], [], [])
    {
      committed, store, counter := rows, None, 0;
      released, history, emitted, observed := [], [], [], [];
    }

    method RunWithTenant(tenantId: string, fn: Prog) returns (outcome: Outcome)
      modifies this, Handles()
      ensures store == old(store)
      ensures (View(), outcome) == Exec(Run(_ => Some(tenantId), fn), old(View()))
      decreases fn, 4
    {
      if tenantId == "" { return Err(App(EmptyTenant)); }
      outcome := Open(Some(tenantId), fn);
    }

    method RunWithoutTenant(fn: Prog) returns (outcome: Outcome)
      modifies this, Handles()
      ensures store == old(store)
      ensures (View(), outcome) == Exec(Run(_ => None, fn), old(View()))
      decreases fn, 4
    {
      outcome := Open(None, fn);
    }

    // After the commit, in the order the events were raised.
    method Drain(pending: PendingQueue)
      modifies this`released
      ensures released == old(released) + Events(pending.items)
    {
      var next := 0;
      while next < |pending.items|
        invariant next <= |pending.items|
        invariant released == old(released) + Events(pending.items[..next])
      {
        assert pending.items[..next + 1] == pending.items[..next] + [pending.items[next]];
        released := released + [pending.items[next].event];
        next := next + 1;
      }
      assert pending.items[..next] == pending.items;
    }

    // `run`
    method Open(tenantId: Option<string>, fn: Prog) returns (outcome: Outcome)
      requires tenantId != Some("")
      modifies this, Handles()
      ensures store == old(store)
      ensures (View(), outcome) ==
              (if old(View()).tx.Some? then Scope.RunNested(tenantId, fn, old(View()))
               else Scope.RunOwner(tenantId, fn, old(View())))
      decreases fn, 3
    {
      hide Exec;
      if store.Some? {
        outcome := RunNested(tenantId, fn);
        return;
      }

      ghost var w := View();
      var tx := new OpenTransaction(committed);
      var pending := new PendingQueue();
      var _ := tx.SetConfig(tenantId);
      store := Some(ActiveStore(tenantId, tx, pending));
      ghost var entered := w.(tx := Some(Txn(w.committed, [], Setting(tenantId), false, [])),
                              store := Some(Store(tenantId)), pending := []);
      assert View() == entered;
      outcome := Execute(fn);
      ghost var w1 := View();
      assert (w1, outcome) == Exec(fn, entered);
      store := None;
      assert View() == w1.(tx := None, store := None, pending := []);
      if outcome.Err? { return; }
      if !tx.aborted { committed := tx.rows; }

      Drain(pending);
      assert View() == w1.(tx := None, store := None, pending := [],
                           committed := Commit(w1.committed, w1.tx.value),
                           released := w1.released + Events(w1.pending));
    }

    method RunNested(tenantId: Option<string>, fn: Prog) returns (outcome: Outcome)
      requires store.Some?
      modifies this, Handles()
      ensures store == old(store)
      ensures (View(), outcome) == Scope.RunNested(tenantId, fn, old(View()))
      decreases fn, 2
    {
      hide Exec;
      var enclosing := store.value;
      outcome := enclosing.tx.SetConfig(tenantId);
      if outcome.Err? { return; }
      store := Some(ActiveStore(tenantId, enclosing.tx, enclosing.pending));
      outcome := Execute(fn);
      store := Some(enclosing);
      // `finally`: the restore's own failure is swallowed.
      var _ := enclosing.tx.SetConfig(enclosing.tenantId);
    }

    method Attempt(fn: Prog) returns (outcome: Outcome)
      modifies this, Handles()
      ensures store == old(store)
      ensures (View(), outcome) ==
              (if old(View()).tx.Some? then ExecAttempt(fn, old(View())) else Exec(fn, old(View())))
      decreases fn, 2
    {
      hide Exec;
      if store.None? {
        outcome := Execute(fn);
        return;
      }
      ghost var w := View();
      var tx := store.value.tx;
      counter := counter + 1;
      var name := counter;
      outcome := tx.Save(name);
      if outcome.Err? { return; }
      outcome := Execute(fn);
      ghost var w1 := View();
      assert (w1, outcome) == Exec(fn, w.(counter := name, tx := Some(TakeSavepoint(w.tx.value, name).0)));
      outcome := Settle(tx, name, outcome);
    }

    // The end of `attempt`: release on success, roll back and re-raise on failure.
    method Settle(tx: OpenTransaction, name: nat, ended: Outcome) returns (outcome: Outcome)
      requires store.Some? && tx == store.value.tx
      modifies tx
      ensures (View(), outcome) == SettleAttempt(old(View()), name, ended)
    {
      outcome := ended;
      if outcome.Ok? {
        outcome := tx.ReleaseSavepoint(name);
        if outcome.Ok? { return; }
      }
      var undone := tx.RollbackToSavepoint(name);
      if undone.Err? { outcome := undone; }
    }

    // `DomainEvents.emit`
    method EmitEvent(event: Event)
      modifies this, Handles()
      ensures store == old(store)
      ensures View() == Scope.EmitEvent(old(View()), event)
    {
      emitted := emitted + [event];
      if store.Some? {
        store.value.pending.Push(Notice(event, store.value.tx.writes));
      } else {
        released := released + [event];
      }
    }

    method IssueStatement(statement: Statement) returns (outcome: Outcome)
      modifies this, Handles()
      ensures store == old(store)
      ensures (View(), outcome) == Issue(old(View()), statement)
    {
      var reply;
      if store.None? {
        var (rows, answer) := Autocommit(committed, statement);
        committed := rows;
        reply := answer;
      } else {
        var tx := store.value.tx;
        var at := |observed|;
        observed := observed + [Observation(store.value.tenantId, tx.session, tx.aborted)];
        reply := tx.Perform(statement, at);
      }
      match reply
      case Success(value) =>
        history := history + [value];
        outcome := Ok;
      case Failure(e) =>
        outcome := Err(e);
    }

    // The array form of `$transaction` inside a scope.
    method TransactionArray(items: seq<Prog>) returns (outcome: Outcome)
      modifies this, Handles()
      ensures store == old(store)
      ensures (View(), outcome) == ExecAll(items, old(View()))
      decreases items, 0
    {
      var next := 0;
      while next < |items|
        invariant next <= |items|
        invariant store == old(store)
        invariant ExecAll(items, old(View())) == ExecAll(items[next..], View())
      {
        outcome := Execute(items[next]);
        if outcome.Err? { return; }
        next := next + 1;
      }
      outcome := Ok;
    }

    // A model operation: rewritten for the store's scope, then sent to the transaction.
    method QueryModel(call: Call) returns (outcome: Outcome)
      modifies this, Handles()
      ensures store == old(store)
      ensures (View(), outcome) == IssueQuery(old(View()), call)
    {
      hide Issue, Intercept;
      var kind := if store.None? then NoScope
                  else if store.value.tenantId.None? then Unscoped
                  else InTenant(store.value.tenantId.value);
      assert kind == CurrentScope(View());
      match Intercept(call, kind) {
        case Failure(e) => outcome := Err(e);
        case Success(scoped) => outcome := IssueStatement(ModelStatement(scoped));
      }
    }

    method Execute(p: Prog) returns (outcome: Outcome)
      modifies this, Handles()
      ensures store == old(store)
      ensures (View(), outcome) == Exec(p, old(View()))
      decreases p, 1
    {
      hide Issue, IssueQuery, RunOwner, ExecAttempt, Scope.RunNested;
      match p
      case Skip =>
        outcome := Ok;
      case Query(call) =>
        outcome := QueryModel(call(history));
      case Raw(sql) =>
        outcome := IssueStatement(RawOn(sql, history));
      case Emit(event) =>
        EmitEvent(event(history));
        outcome := Ok;
      case Throw(error) =>
        outcome := Err(error(history));
      case Catch(body, handler) =>
        outcome := Execute(body);
        if outcome.Err? {
          history := history + [Failed(outcome.error)];
          outcome := Execute(handler);
        }
      case Seq(first, second) =>
        outcome := Execute(first);
        if outcome.Ok? { outcome := Execute(second); }
      case Branch(test, yes, no) =>
        if test(history) { outcome := Execute(yes); } else { outcome := Execute(no); }
      case Run(tenant, body) =>
        var tenantId := tenant(history);
        if tenantId == Some("") { return Err(App(EmptyTenant)); }
        outcome := Open(tenantId, body);
      case Attempt(body) =>
        outcome := this.Attempt(body);
      case Transaction(body) =>
        outcome := Execute(body);
      case Batch(items) =>
        outcome := TransactionArray(items);
    }
  }
}
