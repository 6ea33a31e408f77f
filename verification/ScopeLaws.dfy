// What every program keeps: the store and the session agree, savepoints nest, and
// nothing leaves an open transaction before its owner commits.
module ScopeLaws {
  import opened Values
  import opened Database
  import opened TenantExtension
  import opened Scope

  // ----- Invariant ------------------------------------------------------------------

  predicate Agree(scope: Option<string>, session: string, aborted: bool) {
    aborted || session == Setting(scope)
  }

  predicate Ascending(savepoints: seq<Savepoint>, counter: nat) {
    && (forall i, j | 0 <= i < j < |savepoints| :: savepoints[i].name < savepoints[j].name)
    && (forall i | 0 <= i < |savepoints| :: savepoints[i].name <= counter)
  }

  predicate Sound(w: World) {
    && w.store.Some? == w.tx.Some?
    && (w.tx.Some? ==>
          && Agree(w.store.value.tenantId, w.tx.value.session, w.tx.value.aborted)
          && Ascending(w.tx.value.savepoints, w.counter))
  }

  // What an execution may change, seen from the state it started in.
  predicate Extends(w: World, w': World) {
    && w'.store == w.store
    && w'.tx.Some? == w.tx.Some?
    && w.counter <= w'.counter
    && w.emitted <= w'.emitted
    && w.observed <= w'.observed
    && w.pending <= w'.pending
    && (w.tx.Some? ==>
          && w.tx.value.savepoints <= w'.tx.value.savepoints
          && w'.committed == w.committed
          && w'.released == w.released)
  }

  predicate AllAgree(observed: seq<Observation>) {
    forall i | 0 <= i < |observed| :: Agree(observed[i].scope, observed[i].session, observed[i].aborted)
  }

  predicate Disciplined(w: World, w': World) {
    Sound(w') && Extends(w, w') && (AllAgree(w.observed) ==> AllAgree(w'.observed))
  }

  // ----- Savepoints are found where they were taken ------------------------------------

  lemma FoundAtOwnPlace(savepoints: seq<Savepoint>, counter: nat, at: nat)
    requires Ascending(savepoints, counter) && at < |savepoints|
    ensures Position(savepoints, savepoints[at].name) == at
  {
  }

  lemma UndoRestores(w1: World, taken: seq<Savepoint>, saved: Savepoint, error: Error)
    requires w1.tx.Some?
    requires Ascending(w1.tx.value.savepoints, w1.counter)
    requires taken + [saved] <= w1.tx.value.savepoints
    ensures Undo(w1, saved.name, error) ==
            (w1.(tx := Some(Txn(saved.rows, saved.writes, saved.session, false, taken + [saved]))), Err(error))
  {
    var savepoints := w1.tx.value.savepoints;
    assert savepoints[|taken|] == saved;
    FoundAtOwnPlace(savepoints, w1.counter, |taken|);
    assert savepoints[..|taken| + 1] == taken + [saved];
  }

  lemma ReleaseDrops(w1: World, taken: seq<Savepoint>, saved: Savepoint)
    requires w1.tx.Some? && !w1.tx.value.aborted
    requires Ascending(w1.tx.value.savepoints, w1.counter)
    requires taken + [saved] <= w1.tx.value.savepoints
    ensures Release(w1.tx.value, saved.name) == (w1.tx.value.(savepoints := taken), Ok)
  {
    var savepoints := w1.tx.value.savepoints;
    assert savepoints[|taken|] == saved;
    FoundAtOwnPlace(savepoints, w1.counter, |taken|);
    assert savepoints[..|taken|] == taken;
  }

  // A savepoint nobody took can be neither released nor returned to, and asking aborts.
  lemma MissingSavepointAborts(tx: Txn, name: nat)
    requires !tx.aborted && forall i | 0 <= i < |tx.savepoints| :: tx.savepoints[i].name != name
    ensures Release(tx, name) == RollbackTo(tx, name) == (tx.(aborted := true), Err(Db("3B001")))
  {
  }

  // ----- Statements -----------------------------------------------------------------------

  // With no transaction open a statement that lands is durable at once, on a connection
  // without a tenant, and one that is refused leaves no trace.
  lemma AloneItIsDurable(w: World, statement: Statement)
    requires w.tx.None?
    ensures var (after, outcome) := Issue(w, statement);
            var effect := EffectUnder(w.committed, "", statement);
            match Refusal(w.committed, "", effect)
            case None =>
              outcome == Ok
              && after == w.(committed := Overwrite(w.committed, effect), history := w.history + [effect.reply])
            case Some(e) => outcome == Err(e) && after == w
  {
    hide EffectUnder, Refusal, Overwrite;
  }

  // In a transaction it changes the working rows and is recorded if it changes any; a
  // database error aborts the transaction, an error of the client does not, and in an aborted
  // transaction nothing is done.
  lemma InTransactionItWaits(w: World, statement: Statement)
    requires w.tx.Some?
    ensures var (after, outcome) := Issue(w, statement);
            var tx := w.tx.value;
            var effect := EffectUnder(tx.rows, tx.session, statement);
            && after.committed == w.committed && after.tx.Some?
            && (tx.aborted ==> outcome == Err(Db("25P02")) && after.tx == w.tx && after.history == w.history)
            && (!tx.aborted ==>
                  match Refusal(tx.rows, tx.session, effect)
                  case Some(e) =>
                    && outcome == Err(e) && after.history == w.history
                    && after.tx.value == (if e.Db? then tx.(aborted := true) else tx)
                  case None =>
                    && outcome == Ok && after.history == w.history + [effect.reply]
                    && after.tx.value.rows == Overwrite(tx.rows, effect)
                    && after.tx.value.writes ==
                       (if effect.inserts == map[] && effect.updates == map[] && effect.deletes == {} then tx.writes
                        else tx.writes + [Stamped(effect, |w.observed|)]))
  {
    hide EffectUnder, Overwrite, PolicyAllows, UniqueRows;
  }

  // ----- Every program is disciplined ----------------------------------------------------

  lemma DisciplineTrans(w: World, w1: World, w2: World)
    requires Disciplined(w, w1) && Disciplined(w1, w2)
    ensures Disciplined(w, w2)
  {
  }

  lemma IssueDisciplined(w: World, statement: Statement)
    requires Sound(w)
    ensures Disciplined(w, Issue(w, statement).0)
  {
  }

  lemma {:induction false} ExecDisciplined(p: Prog, w: World)
    requires Sound(w)
    ensures Disciplined(w, Exec(p, w).0)
    decreases p, 1
  {
    hide Issue, Intercept;
    match p
    case Skip =>
    case Query(call) =>
      if Intercept(call(w.history), CurrentScope(w)).Success? {
        IssueDisciplined(w, ModelStatement(Intercept(call(w.history), CurrentScope(w)).value));
      }
    case Raw(sql) =>
      IssueDisciplined(w, RawOn(sql, w.history));
    case Emit(_) =>
    case Throw(_) =>
    case Catch(body, handler) =>
      ExecDisciplined(body, w);
      var (w1, outcome) := Exec(body, w);
      if outcome.Err? {
        var w2 := w1.(history := w1.history + [Failed(outcome.error)]);
        ExecDisciplined(handler, w2);
        DisciplineTrans(w, w2, Exec(handler, w2).0);
      }
    case Seq(first, second) =>
      ExecDisciplined(first, w);
      var (w1, outcome) := Exec(first, w);
      if outcome.Ok? {
        ExecDisciplined(second, w1);
        DisciplineTrans(w, w1, Exec(second, w1).0);
      }
    case Branch(test, yes, no) =>
      if test(w.history) { ExecDisciplined(yes, w); } else { ExecDisciplined(no, w); }
    case Run(tenant, body) =>
      var tenantId := tenant(w.history);
      if tenantId != Some("") {
        if w.tx.Some? { NestedDisciplined(tenantId, body, w); } else { OwnerDisciplined(tenantId, body, w); }
      }
    case Attempt(body) =>
      if w.tx.Some? { AttemptDisciplined(body, w); } else { ExecDisciplined(body, w); }
    case Transaction(body) => ExecDisciplined(body, w);
    case Batch(items) => AllDisciplined(items, w);
  }

  lemma {:induction false} AllDisciplined(items: seq<Prog>, w: World)
    requires Sound(w)
    ensures Disciplined(w, ExecAll(items, w).0)
    decreases items, 0
  {
    if items != [] {
      ExecDisciplined(items[0], w);
      var (w1, outcome) := Exec(items[0], w);
      if outcome.Ok? {
        AllDisciplined(items[1..], w1);
        DisciplineTrans(w, w1, ExecAll(items[1..], w1).0);
      }
    }
  }

  lemma {:induction false} OwnerDisciplined(tenantId: Option<string>, body: Prog, w: World)
    requires Sound(w) && w.tx.None?
    ensures Disciplined(w, RunOwner(tenantId, body, w).0)
    decreases body, 2
  {
    hide Exec;
    var entered := w.(tx := Some(Txn(w.committed, [], Setting(tenantId), false, [])),
                      store := Some(Store(tenantId)), pending := []);
    ExecDisciplined(body, entered);
  }

  lemma {:induction false} NestedDisciplined(tenantId: Option<string>, body: Prog, w: World)
    requires Sound(w) && w.tx.Some?
    ensures Disciplined(w, RunNested(tenantId, body, w).0)
    decreases body, 2
  {
    hide Exec;
    if !w.tx.value.aborted {
      var entered := w.(tx := Some(SetTenant(w.tx.value, tenantId).0), store := Some(Store(tenantId)));
      ExecDisciplined(body, entered);
    }
  }

  // The saved point of an attempt that starts on a healthy transaction.
  function SavedBy(w: World): Savepoint
    requires w.tx.Some?
  {
    Savepoint(w.counter + 1, w.tx.value.rows, w.tx.value.writes, w.tx.value.session)
  }

  function EnteredAttempt(w: World): World
    requires w.tx.Some?
  {
    w.(counter := w.counter + 1,
       tx := Some(w.tx.value.(savepoints := w.tx.value.savepoints + [SavedBy(w)])))
  }

  // How an attempt entered in `w` ends when its body ended in `w1`.
  function AttemptEnd(w: World, w1: World, outcome: Outcome): (World, Outcome)
    requires w.tx.Some? && w1.tx.Some?
  {
    var taken := w.tx.value.savepoints;
    var saved := SavedBy(w);
    if outcome.Ok? && !w1.tx.value.aborted then
      (w1.(tx := Some(w1.tx.value.(savepoints := taken))), Ok)
    else
      (w1.(tx := Some(Txn(saved.rows, saved.writes, saved.session, false, taken + [saved]))),
       Err(if outcome.Ok? then TRANSACTION_ABORTED else outcome.error))
  }

  lemma {:induction false} AttemptSteps(body: Prog, w: World)
    requires Sound(w) && w.tx.Some? && !w.tx.value.aborted
    ensures Disciplined(EnteredAttempt(w), Exec(body, EnteredAttempt(w)).0)
    ensures ExecAttempt(body, w) == AttemptEnd(w, Exec(body, EnteredAttempt(w)).0, Exec(body, EnteredAttempt(w)).1)
    decreases body, 2
  {
    hide Exec;
    var entered := EnteredAttempt(w);
    assert TakeSavepoint(w.tx.value, w.counter + 1) == (entered.tx.value, Ok);
    ExecDisciplined(body, entered);
    var (w1, outcome) := Exec(body, entered);
    var taken := w.tx.value.savepoints;
    if outcome.Ok? && !w1.tx.value.aborted {
      ReleaseDrops(w1, taken, SavedBy(w));
    } else if outcome.Ok? {
      UndoRestores(w1, taken, SavedBy(w), TRANSACTION_ABORTED);
    } else {
      UndoRestores(w1, taken, SavedBy(w), outcome.error);
    }
  }

  lemma AttemptEndDisciplined(w: World, w1: World, outcome: Outcome)
    requires Sound(w) && w.tx.Some? && !w.tx.value.aborted
    requires Disciplined(EnteredAttempt(w), w1)
    ensures Disciplined(w, AttemptEnd(w, w1, outcome).0)
  {
  }

  lemma {:induction false} AttemptDisciplined(body: Prog, w: World)
    requires Sound(w) && w.tx.Some?
    ensures Disciplined(w, ExecAttempt(body, w).0)
    decreases body, 3
  {
    hide Exec, AttemptEnd;
    if !w.tx.value.aborted {
      AttemptSteps(body, w);
      var (w1, outcome) := Exec(body, EnteredAttempt(w));
      AttemptEndDisciplined(w, w1, outcome);
      hide Disciplined;
    }
  }

  // Opening a scope, in terms of the store it is opened under.
  lemma RunUnfolds(tenant: History -> Option<string>, body: Prog, w: World)
    requires Sound(w)
    ensures var tenantId := tenant(w.history);
            Exec(Run(tenant, body), w) ==
            (if tenantId == Some("") then (w, Err(App(EmptyTenant)))
             else if w.tx.Some? then RunNested(tenantId, body, w)
             else RunOwner(tenantId, body, w))
  {
    hide RunOwner, RunNested;
  }
}
