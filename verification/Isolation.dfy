// Tenant non-interference over whole runs: a program that opens no other tenant's
// scope behaves as if no other tenant's rows were there, and leaves them as they were.
module Isolation {
  import opened Values
  import opened Filters
  import opened Database
  import opened TenantExtension
  import opened Scope
  import opened ScopeLaws
  import opened ScopeTheorems

  function Own(db: Rows, a: string): Rows {
    map k | k in db && Owner(k, db[k]) == a :: db[k]
  }

  function Others(db: Rows, a: string): Rows {
    map k | k in db && Owner(k, db[k]) != a :: db[k]
  }

  // A row shares neither its id nor a globally unique value with a row of `others`.
  predicate NoClash(key: Key, row: Row, others: Rows) {
    && key !in others
    && forall k | k in others && k.model == key.model :: !SameValue(GloballyUnique(key.model), key, row, k, others[k])
  }

  predicate Fits(db: Rows, a: string, others: Rows) {
    forall k | k in db :: Owner(k, db[k]) == a && NoClash(k, db[k], others)
  }

  predicate Foreign(others: Rows, a: string) {
    UniqueRows(others) && forall k | k in others :: Owner(k, others[k]) != a
  }

  // ----- What a confined program may ask for --------------------------------------------

  // Nothing an effect writes clashes with `others`, and the only company it opens is `a`.
  predicate EffectFits(effect: Effect, a: string, others: Rows) {
    effect.Write? ==>
      && (forall k | k in effect.inserts :: NoClash(k, effect.inserts[k], others) && (k.model == Tenant ==> k.id == a))
      && (forall k | k in effect.updates :: NoClash(k, effect.updates[k], others))
  }

  // A filter on `Tenant` that finds no other company.
  predicate SelectsNone(where: Where, others: Rows) {
    forall k | k in others && k.model == Tenant :: !Holds(where, k, others[k])
  }

  // A statement that cannot tell whether rows of other tenants exist. Only `Tenant` has no
  // policy to hide them.
  predicate BlindToOthers(statement: Statement, visible: Rows, a: string, others: Rows) {
    && EffectFits(Evaluate(statement, visible), a, others)
    && (statement.ModelStatement? && statement.call.model == Tenant ==>
          CreateOperation(statement.call.op) || SelectsNone(statement.call.where, others))
  }

  // The rows a statement sees now, and what SQL can do about them.
  function VisibleNow(w: World): Rows {
    match w.tx
    case None => Visible(w.committed, "")
    case Some(tx) => Visible(tx.rows, tx.session)
  }

  // An aborted transaction refuses whatever it is sent.
  predicate StatementConfined(statement: Statement, w: World, a: string, others: Rows) {
    (w.tx.Some? && w.tx.value.aborted) || BlindToOthers(statement, VisibleNow(w), a, others)
  }

  // Along the run that starts in `w`, no other tenant's scope is opened, and every statement
  // that is sent finds no other company's `Tenant` row, opens no other company, and writes no
  // id and no globally unique value that `others` holds.
  predicate ConfinedIn(p: Prog, w: World, a: string, others: Rows)
    decreases p, 1
  {
    match p
    case Query(call) =>
      (match Intercept(call(w.history), CurrentScope(w))
       case Failure(_) => true
       case Success(scoped) => StatementConfined(ModelStatement(scoped), w, a, others))
    case Raw(sql) => StatementConfined(RawOn(sql, w.history), w, a, others)
    case Catch(body, handler) =>
      var (w1, outcome) := Exec(body, w);
      && ConfinedIn(body, w, a, others)
      && (outcome.Err? ==> ConfinedIn(handler, w1.(history := w1.history + [Failed(outcome.error)]), a, others))
    case Seq(first, second) =>
      && ConfinedIn(first, w, a, others)
      && (Exec(first, w).1.Ok? ==> ConfinedIn(second, Exec(first, w).0, a, others))
    case Branch(test, yes, no) =>
      if test(w.history) then ConfinedIn(yes, w, a, others) else ConfinedIn(no, w, a, others)
    case Run(tenant, body) =>
      var tenantId := tenant(w.history);
      || tenantId == Some("")
      || ((tenantId == None || tenantId == Some(a))
          && (if w.tx.None? then ConfinedIn(body, Entered(tenantId, w), a, others)
              else w.tx.value.aborted || ConfinedIn(body, Repointed(tenantId, w), a, others)))
    case Attempt(body) =>
      if w.tx.None? then ConfinedIn(body, w, a, others)
      else w.tx.value.aborted || ConfinedIn(body, EnteredAttempt(w), a, others)
    case Transaction(body) => ConfinedIn(body, w, a, others)
    case Batch(items) => AllConfinedIn(items, w, a, others)
    case _ => true
  }

  predicate AllConfinedIn(items: seq<Prog>, w: World, a: string, others: Rows)
    decreases items, 0
  {
    || items == []
    || (&& ConfinedIn(items[0], w, a, others)
        && (Exec(items[0], w).1.Ok? ==> AllConfinedIn(items[1..], Exec(items[0], w).0, a, others)))
  }

  // ----- One statement --------------------------------------------------------------------

  lemma VisibleApart(rows: Rows, others: Rows, a: string, session: string)
    requires Fits(rows, a, others) && Foreign(others, a)
    requires session == "" || session == a
    ensures var small, large := Visible(rows, session), Visible(rows + others, session);
            && (forall k | k in large :: k in small || (k in others && k.model == Tenant && large[k] == others[k]))
            && (forall k | k in small :: k in large && large[k] == small[k])
  {
    assert forall k | k in rows :: NoClash(k, rows[k], others);
  }

  lemma SeesTheSame(rows: Rows, others: Rows, a: string, session: string, statement: Statement)
    requires Fits(rows, a, others) && Foreign(others, a)
    requires session == "" || session == a
    requires BlindToOthers(statement, Visible(rows, session), a, others)
    ensures EffectUnder(rows + others, session, statement) == EffectUnder(rows, session, statement)
  {
    hide EffectOn, Holds, Reachable, Visible;
    var small, large := Visible(rows, session), Visible(rows + others, session);
    VisibleApart(rows, others, a, session);
    match statement
    case ModelStatement(call) =>
      if CreateOperation(call.op) {
        CreateIgnoresRows(call, Matched(call, large), Matched(call, small));
      } else {
        assert Matched(call, large) == Matched(call, small);
      }
    case RawStatement(_) =>
      assert Policed(large) == Policed(small);
  }

  lemma CreateIgnoresRows(call: Call, rows: Rows, rows': Rows)
    requires CreateOperation(call.op)
    ensures EffectOn(call, rows) == EffectOn(call, rows')
  {
    hide NewRows, DistinctIds;
  }

  lemma UpdatesAreVisible(rows: Rows, session: string, statement: Statement)
    ensures var effect := EffectUnder(rows, session, statement);
            effect.Write? ==> effect.updates.Keys <= rows.Keys && effect.deletes <= rows.Keys
  {
  }

  lemma UniqueApart(rows: Rows, others: Rows, a: string)
    requires Fits(rows, a, others) && Foreign(others, a)
    ensures UniqueRows(rows + others) <==> UniqueRows(rows)
  {
    var all := rows + others;
    if UniqueRows(rows) {
      forall k, k' | k in all && k' in all ensures !Conflicting(k, all[k], k', all[k']) {
        ApartDoNotConflict(rows, others, a, k, k');
      }
    }
    if UniqueRows(all) {
      forall k, k' | k in rows && k' in rows ensures !Conflicting(k, rows[k], k', rows[k']) {
        assert all[k] == rows[k] && all[k'] == rows[k'];
      }
    }
  }

  lemma ApartDoNotConflict(rows: Rows, others: Rows, a: string, k: Key, k': Key)
    requires Fits(rows, a, others) && Foreign(others, a) && UniqueRows(rows)
    requires k in rows + others && k' in rows + others
    ensures !Conflicting(k, (rows + others)[k], k', (rows + others)[k'])
  {
    if k in others && k' in others {
      assert !Conflicting(k, others[k], k', others[k']);
    } else if k in others {
      assert NoClash(k', rows[k'], others);
    } else if k' in others {
      assert NoClash(k, rows[k], others);
    } else {
      assert !Conflicting(k, rows[k], k', rows[k']);
    }
  }

  lemma OverwriteApart(rows: Rows, others: Rows, effect: Effect)
    requires effect.Write? && rows.Keys !! others.Keys && effect.inserts.Keys !! others.Keys
    requires effect.updates.Keys <= rows.Keys && effect.deletes <= rows.Keys
    ensures Overwrite(rows + others, effect) == Overwrite(rows, effect) + others
  {
    var left, right := Overwrite(rows + others, effect), Overwrite(rows, effect) + others;
    assert left.Keys == right.Keys;
    forall k | k in left ensures left[k] == right[k] {
      if k in others { assert k !in effect.updates && k !in effect.inserts && k !in effect.deletes; }
    }
  }

  lemma OverwriteFits(rows: Rows, others: Rows, a: string, session: string, effect: Effect)
    requires Fits(rows, a, others) && (session == "" || session == a)
    requires effect.Write? && EffectFits(effect, a, others)
    requires PolicyAllows(session, effect.inserts) && PolicyAllows(session, effect.updates)
    requires effect.updates.Keys <= rows.Keys
    ensures Fits(Overwrite(rows, effect), a, others)
  {
    var after := Overwrite(rows, effect);
    forall k | k in after ensures Owner(k, after[k]) == a && NoClash(k, after[k], others) {
      if k in effect.inserts {
        assert Permits(session, k, effect.inserts[k]);
      } else if k in effect.updates {
        assert Permits(session, k, effect.updates[k]) && k in rows;
      } else {
        assert k in rows && after[k] == rows[k];
      }
    }
  }

  // The checks come out the same with the other tenants' rows in the tables, and what
  // is let through leaves rows that still belong to the tenant.
  lemma RefusedAlike(rows: Rows, others: Rows, a: string, session: string, statement: Statement)
    requires Fits(rows, a, others) && Foreign(others, a) && (session == "" || session == a)
    requires BlindToOthers(statement, Visible(rows, session), a, others)
    ensures var effect := EffectUnder(rows, session, statement);
            && Refusal(rows + others, session, effect) == Refusal(rows, session, effect)
            && (Refusal(rows, session, effect).None? ==>
                  && Overwrite(rows + others, effect) == Overwrite(rows, effect) + others
                  && Fits(Overwrite(rows, effect), a, others))
  {
    hide Evaluate, Overwrite, UniqueRows;
    var effect := EffectUnder(rows, session, statement);
    if effect.Write? && PolicyAllows(session, effect.inserts) && PolicyAllows(session, effect.updates) {
      UpdatesAreVisible(rows, session, statement);
      assert forall k | k in rows :: NoClash(k, rows[k], others);
      OverwriteApart(rows, others, effect);
      OverwriteFits(rows, others, a, session, effect);
      UniqueApart(Overwrite(rows, effect), others, a);
      assert effect.inserts.Keys * (rows + others).Keys == effect.inserts.Keys * rows.Keys;
    }
  }

  // ----- Runs -----------------------------------------------------------------------------

  // `w` is `v` with the other tenants' rows added to every database it holds.
  predicate Widened(v: World, w: World, others: Rows) {
    && w.committed == v.committed + others
    && w.store == v.store
    && w.pending == v.pending
    && w.released == v.released
    && w.history == v.history
    && w.emitted == v.emitted
    && w.observed == v.observed
    && w.tx.Some? == v.tx.Some?
    && (v.tx.Some? ==>
          && w.tx.value.rows == v.tx.value.rows + others
          && w.tx.value.writes == v.tx.value.writes
          && w.tx.value.session == v.tx.value.session
          && w.tx.value.aborted == v.tx.value.aborted)
  }

  predicate WorldFits(v: World, a: string, others: Rows) {
    && Fits(v.committed, a, others)
    && (v.tx.Some? ==> Fits(v.tx.value.rows, a, others))
  }

  // Where the program stands: in no scope, in the tenant's, or in an unscoped one.
  predicate StoreIs(v: World, a: string) {
    v.store.Some? ==> v.store.value.tenantId == None || v.store.value.tenantId == Some(a)
  }

  ghost predicate Apart(v: World, w: World, a: string, others: Rows) {
    && Sound(v) && Sound(w)
    && Widened(v, w, others)
    && WorldFits(v, a, others)
    && StoreIs(v, a)
  }

  ghost predicate ApartResults(r: (World, Outcome), r': (World, Outcome), a: string, others: Rows) {
    r.1 == r'.1 && Apart(r.0, r'.0, a, others)
  }

  predicate LooksTheSame(r: (World, Outcome), r': (World, Outcome), a: string, others: Rows) {
    r.1 == r'.1 && Widened(r.0, r'.0, others) && WorldFits(r.0, a, others) && StoreIs(r.0, a)
  }

  lemma IssueAlone(v: World, w: World, a: string, others: Rows, statement: Statement)
    requires Foreign(others, a) && Apart(v, w, a, others) && v.tx.None?
    requires StatementConfined(statement, v, a, others)
    ensures LooksTheSame(Issue(v, statement), Issue(w, statement), a, others)
  {
    hide Fits, BlindToOthers, Autocommit, Foreign, Visible;
    AutocommitApart(v.committed, others, a, statement);
  }

  // The world once a transaction has answered a statement.
  function Replied(w: World, tx: Txn, reply: Result<Reply>): (World, Outcome)
    requires w.tx.Some?
  {
    var scope := if w.store.Some? then w.store.value.tenantId else None;
    var seen := Observation(scope, w.tx.value.session, w.tx.value.aborted);
    Answered(w.(tx := Some(tx), observed := w.observed + [seen]), reply)
  }

  lemma IssueReplies(w: World, statement: Statement)
    requires w.tx.Some?
    ensures Issue(w, statement) == Replied(w, Submit(w.tx.value, statement, |w.observed|).0,
                                           Submit(w.tx.value, statement, |w.observed|).1)
  {
    hide Submit, Answered;
  }

  lemma RepliedApart(v: World, w: World, tx: Txn, tx': Txn, reply: Result<Reply>, a: string, others: Rows)
    requires Widened(v, w, others) && WorldFits(v, a, others) && StoreIs(v, a) && v.tx.Some?
    requires tx'.rows == tx.rows + others && tx'.writes == tx.writes
    requires tx'.session == tx.session && tx'.aborted == tx.aborted && Fits(tx.rows, a, others)
    ensures LooksTheSame(Replied(v, tx, reply), Replied(w, tx', reply), a, others)
  {
    hide Fits;
  }

  lemma IssueInside(v: World, w: World, a: string, others: Rows, statement: Statement)
    requires Foreign(others, a) && Apart(v, w, a, others) && v.tx.Some?
    requires StatementConfined(statement, v, a, others)
    ensures LooksTheSame(Issue(v, statement), Issue(w, statement), a, others)
  {
    hide Fits, BlindToOthers, Submit, Foreign, Visible, Ascending, Issue, Replied, LooksTheSame;
    SubmitApart(v.tx.value, w.tx.value, others, a, statement, |v.observed|);
    IssueReplies(v, statement);
    IssueReplies(w, statement);
    RepliedApart(v, w, Submit(v.tx.value, statement, |v.observed|).0, Submit(w.tx.value, statement, |w.observed|).0,
                 Submit(v.tx.value, statement, |v.observed|).1, a, others);
  }

  lemma IssueApart(v: World, w: World, a: string, others: Rows, statement: Statement)
    requires Foreign(others, a) && Apart(v, w, a, others)
    requires StatementConfined(statement, v, a, others)
    ensures ApartResults(Issue(v, statement), Issue(w, statement), a, others)
  {
    hide Fits, BlindToOthers, Issue, Foreign, Extends, Agree, Ascending;
    IssueDisciplined(v, statement);
    IssueDisciplined(w, statement);
    if v.tx.None? { IssueAlone(v, w, a, others, statement); } else { IssueInside(v, w, a, others, statement); }
  }

  lemma AutocommitApart(rows: Rows, others: Rows, a: string, statement: Statement)
    requires Fits(rows, a, others) && Foreign(others, a)
    requires BlindToOthers(statement, Visible(rows, ""), a, others)
    ensures var (small, reply) := Autocommit(rows, statement);
            Autocommit(rows + others, statement) == (small + others, reply) && Fits(small, a, others)
  {
    hide EffectUnder, Refusal, Overwrite, Fits, UniqueRows, BlindToOthers, Foreign;
    SeesTheSame(rows, others, a, "", statement);
    RefusedAlike(rows, others, a, "", statement);
  }

  lemma SubmitApart(tx: Txn, tx': Txn, others: Rows, a: string, statement: Statement, at: nat)
    requires Fits(tx.rows, a, others) && Foreign(others, a)
    requires tx.aborted || BlindToOthers(statement, Visible(tx.rows, tx.session), a, others)
    requires tx'.aborted == tx.aborted && tx'.rows == tx.rows + others && tx'.writes == tx.writes
    requires tx'.session == tx.session && (tx.aborted || tx.session == "" || tx.session == a)
    ensures var (after, reply) := Submit(tx, statement, at);
            var (after', reply') := Submit(tx', statement, at);
            && reply' == reply && after'.rows == after.rows + others && after'.writes == after.writes
            && after'.session == after.session && after'.aborted == after.aborted && Fits(after.rows, a, others)
  {
    hide EffectUnder, Refusal, Overwrite, Fits, UniqueRows, BlindToOthers, Foreign;
    if !tx.aborted {
      SeesTheSame(tx.rows, others, a, tx.session, statement);
      RefusedAlike(tx.rows, others, a, tx.session, statement);
    }
  }

  lemma QueryApart(p: Prog, v: World, w: World, a: string, others: Rows)
    requires p.Query? && a != "" && Foreign(others, a) && Apart(v, w, a, others)
    requires ConfinedIn(p, v, a, others)
    ensures ApartResults(Exec(p, v), Exec(p, w), a, others)
  {
    hide Issue, Intercept, Foreign, WorldFits, StatementConfined;
    var call := p.call(v.history);
    assert CurrentScope(v) == CurrentScope(w);
    if Intercept(call, CurrentScope(v)).Success? {
      IssueApart(v, w, a, others, ModelStatement(Intercept(call, CurrentScope(v)).value));
    }
  }

  lemma SimpleApart(p: Prog, v: World, w: World, a: string, others: Rows)
    requires p.Skip? || p.Query? || p.Raw? || p.Emit? || p.Throw?
    requires a != "" && Foreign(others, a) && Apart(v, w, a, others)
    requires ConfinedIn(p, v, a, others)
    ensures ApartResults(Exec(p, v), Exec(p, w), a, others)
  {
    hide Issue, IssueQuery, Foreign, StatementConfined;
    match p
    case Query(_) => QueryApart(p, v, w, a, others);
    case Raw(sql) => IssueApart(v, w, a, others, RawOn(sql, v.history));
    case _ =>
  }

  lemma {:induction false} ExecApart(p: Prog, v: World, w: World, a: string, others: Rows)
    requires a != "" && Foreign(others, a) && Apart(v, w, a, others)
    requires ConfinedIn(p, v, a, others)
    ensures ApartResults(Exec(p, v), Exec(p, w), a, others)
    decreases p, 1
  {
    hide Issue, Intercept, IssueQuery, EmitEvent, StatementConfined, WorldFits;
    match p
    case Catch(_, _) => CatchApart(p, v, w, a, others);
    case Seq(first, second) =>
      ExecApart(first, v, w, a, others);
      if Exec(first, v).1.Ok? {
        ExecApart(second, Exec(first, v).0, Exec(first, w).0, a, others);
      }
    case Branch(test, yes, no) =>
      if test(v.history) { ExecApart(yes, v, w, a, others); } else { ExecApart(no, v, w, a, others); }
    case Run(_, _) => RunApart(p, v, w, a, others);
    case Attempt(body) =>
      if v.tx.Some? { AttemptApart(body, v, w, a, others); } else { ExecApart(body, v, w, a, others); }
    case Transaction(body) => ExecApart(body, v, w, a, others);
    case Batch(items) => AllApart(items, v, w, a, others);
    case _ => SimpleApart(p, v, w, a, others);
  }

  lemma {:induction false} AllApart(items: seq<Prog>, v: World, w: World, a: string, others: Rows)
    requires a != "" && Foreign(others, a) && Apart(v, w, a, others)
    requires AllConfinedIn(items, v, a, others)
    ensures ApartResults(ExecAll(items, v), ExecAll(items, w), a, others)
    decreases items, 0
  {
    if items != [] {
      ExecApart(items[0], v, w, a, others);
      if Exec(items[0], v).1.Ok? {
        AllApart(items[1..], Exec(items[0], v).0, Exec(items[0], w).0, a, others);
      }
    }
  }

  lemma {:induction false} CatchApart(p: Prog, v: World, w: World, a: string, others: Rows)
    requires p.Catch?
    requires a != "" && Foreign(others, a) && Apart(v, w, a, others)
    requires ConfinedIn(p, v, a, others)
    ensures ApartResults(Exec(p, v), Exec(p, w), a, others)
    decreases p, 0
  {
    ExecApart(p.body, v, w, a, others);
    var (v1, outcome) := Exec(p.body, v);
    var w1 := Exec(p.body, w).0;
    if outcome.Err? {
      var caught := [Failed(outcome.error)];
      ExecApart(p.handler, v1.(history := v1.history + caught), w1.(history := w1.history + caught), a, others);
    }
  }

  lemma {:induction false} RunApart(p: Prog, v: World, w: World, a: string, others: Rows)
    requires p.Run?
    requires a != "" && Foreign(others, a) && Apart(v, w, a, others)
    requires ConfinedIn(p, v, a, others)
    ensures ApartResults(Exec(p, v), Exec(p, w), a, others)
    decreases p, 0
  {
    hide Exec, RunOwner, RunNested;
    RunUnfolds(p.tenant, p.body, v);
    RunUnfolds(p.tenant, p.body, w);
    var tenantId := p.tenant(v.history);
    if tenantId != Some("") && v.tx.None? {
      OwnerApart(tenantId, p.body, v, w, a, others);
    } else if tenantId != Some("") { NestedApart(tenantId, p.body, v, w, a, others); }
  }

  lemma {:induction false} OwnerApart(tenantId: Option<string>, body: Prog, v: World, w: World, a: string, others: Rows)
    requires a != "" && Foreign(others, a) && Apart(v, w, a, others) && v.tx.None?
    requires tenantId == None || tenantId == Some(a)
    requires ConfinedIn(body, Entered(tenantId, v), a, others)
    ensures ApartResults(RunOwner(tenantId, body, v), RunOwner(tenantId, body, w), a, others)
    decreases body, 3
  {
    hide Exec, ConfinedIn, RunOwner, Foreign;
    ExecApart(body, Entered(tenantId, v), Entered(tenantId, w), a, others);
    OwnerEndsApart(tenantId, body, v, w, a, others);
  }

  lemma {:induction false} NestedApart(tenantId: Option<string>, body: Prog, v: World, w: World, a: string,
                                       others: Rows)
    requires a != "" && Foreign(others, a) && Apart(v, w, a, others) && v.tx.Some?
    requires tenantId == None || tenantId == Some(a)
    requires !v.tx.value.aborted ==> ConfinedIn(body, Repointed(tenantId, v), a, others)
    ensures ApartResults(RunNested(tenantId, body, v), RunNested(tenantId, body, w), a, others)
    decreases body, 3
  {
    hide Exec, ConfinedIn, RunNested, Foreign;
    NestedDisciplined(tenantId, body, v);
    NestedDisciplined(tenantId, body, w);
    if v.tx.value.aborted {
      NestedAborted(tenantId, body, v);
      NestedAborted(tenantId, body, w);
    } else {
      ExecApart(body, Repointed(tenantId, v), Repointed(tenantId, w), a, others);
      NestedEndsApart(tenantId, body, v, w, a, others);
    }
  }

  lemma NestedAborted(tenantId: Option<string>, body: Prog, w: World)
    requires w.tx.Some? && w.store.Some? && w.tx.value.aborted
    ensures RunNested(tenantId, body, w) == (w, Err(TRANSACTION_ABORTED))
  {
  }

  // What the owner leaves behind.
  function Closed(w: World, w1: World, outcome: Outcome): World
    requires w1.tx.Some?
  {
    var closed := w1.(tx := w.tx, store := w.store, pending := w.pending);
    if outcome.Err? then closed
    else closed.(committed := Commit(w1.committed, w1.tx.value), released := w1.released + Events(w1.pending))
  }

  lemma OwnerCloses(tenantId: Option<string>, body: Prog, w: World)
    ensures var (w1, outcome) := Exec(body, Entered(tenantId, w));
            RunOwner(tenantId, body, w) == (Closed(w, w1, outcome), outcome)
  {
    hide Exec;
  }

  lemma OwnerEndsApart(tenantId: Option<string>, body: Prog, v: World, w: World, a: string, others: Rows)
    requires Apart(v, w, a, others) && v.tx.None?
    requires ApartResults(Exec(body, Entered(tenantId, v)), Exec(body, Entered(tenantId, w)), a, others)
    ensures ApartResults(RunOwner(tenantId, body, v), RunOwner(tenantId, body, w), a, others)
  {
    hide Exec, RunOwner, Fits, Agree, Ascending;
    OwnerCloses(tenantId, body, v);
    OwnerCloses(tenantId, body, w);
  }

  lemma NestedEndsApart(tenantId: Option<string>, body: Prog, v: World, w: World, a: string, others: Rows)
    requires Apart(v, w, a, others) && v.tx.Some? && !v.tx.value.aborted
    requires Sound(RunNested(tenantId, body, v).0) && Sound(RunNested(tenantId, body, w).0)
    requires ApartResults(Exec(body, Repointed(tenantId, v)), Exec(body, Repointed(tenantId, w)), a, others)
    ensures ApartResults(RunNested(tenantId, body, v), RunNested(tenantId, body, w), a, others)
  {
    hide Exec, Fits, Agree, Ascending;
  }

  lemma {:induction false} AttemptApart(body: Prog, v: World, w: World, a: string, others: Rows)
    requires a != "" && Foreign(others, a) && Apart(v, w, a, others) && v.tx.Some?
    requires !v.tx.value.aborted ==> ConfinedIn(body, EnteredAttempt(v), a, others)
    ensures ApartResults(ExecAttempt(body, v), ExecAttempt(body, w), a, others)
    decreases body, 3
  {
    hide Exec;
    AttemptDisciplined(body, v);
    AttemptDisciplined(body, w);
    if !v.tx.value.aborted {
      AttemptSteps(body, v);
      AttemptSteps(body, w);
      var v0, w0 := EnteredAttempt(v), EnteredAttempt(w);
      EnterApart(v, w, a, others);
      ExecApart(body, v0, w0, a, others);
      AttemptEndsApart(v, w, Exec(body, v0), Exec(body, w0), a, others);
    }
  }

  lemma EnterApart(v: World, w: World, a: string, others: Rows)
    requires Apart(v, w, a, others) && v.tx.Some? && !v.tx.value.aborted
    ensures Apart(EnteredAttempt(v), EnteredAttempt(w), a, others)
  {
  }

  lemma AttemptEndsApart(v: World, w: World, r: (World, Outcome), r': (World, Outcome), a: string, others: Rows)
    requires Apart(v, w, a, others) && v.tx.Some?
    requires ApartResults(r, r', a, others) && r.0.tx.Some?
    requires Sound(AttemptEnd(v, r.0, r.1).0) && Sound(AttemptEnd(w, r'.0, r'.1).0)
    ensures ApartResults(AttemptEnd(v, r.0, r.1), AttemptEnd(w, r'.0, r'.1), a, others)
  {
  }

  // Non-interference. Started from any database, a program whose run on the database cut
  // down to `a` is confined leaves every other tenant's rows exactly as they were, and its
  // outcome, its replies, its released events and its own rows are those of that run.
  lemma NonInterference(p: Prog, db: Rows, a: string)
    requires a != "" && UniqueRows(db)
    requires ConfinedIn(p, Idle(Own(db, a)), a, Others(db, a))
    ensures var (full, outcome) := Exec(p, Idle(db));
            var (cut, outcome') := Exec(p, Idle(Own(db, a)));
            && Others(full.committed, a) == Others(db, a)
            && Own(full.committed, a) == cut.committed
            && outcome == outcome'
            && full.history == cut.history
            && full.released == cut.released
  {
    hide Exec, Fits, Foreign, UniqueRows, ConfinedIn;
    var others, own := Others(db, a), Own(db, a);
    CutDown(db, a);
    ExecApart(p, Idle(own), Idle(db), a, others);
    var cut := Exec(p, Idle(own)).0.committed;
    CutApart(cut, others, a);
  }

  lemma CutDown(db: Rows, a: string)
    requires UniqueRows(db)
    ensures Foreign(Others(db, a), a) && Apart(Idle(Own(db, a)), Idle(db), a, Others(db, a))
  {
    hide Fits, Foreign, UniqueRows;
    assert db == Own(db, a) + Others(db, a);
    OwnFits(db, a);
  }

  lemma OwnFits(db: Rows, a: string)
    requires UniqueRows(db)
    ensures Fits(Own(db, a), a, Others(db, a)) && Foreign(Others(db, a), a)
  {
    var others, own := Others(db, a), Own(db, a);
    forall k | k in own ensures NoClash(k, own[k], others) {
      forall k' | k' in others && k'.model == k.model
        ensures !SameValue(GloballyUnique(k.model), k, own[k], k', others[k'])
      {
        assert !Conflicting(k, db[k], k', db[k']);
      }
    }
    forall k, k' | k in others && k' in others ensures !Conflicting(k, others[k], k', others[k']) {
      assert !Conflicting(k, db[k], k', db[k']);
    }
  }

  lemma CutApart(rows: Rows, others: Rows, a: string)
    requires Fits(rows, a, others) && Foreign(others, a)
    ensures Own(rows + others, a) == rows && Others(rows + others, a) == others
  {
    assert forall k | k in rows :: NoClash(k, rows[k], others);
    assert rows.Keys !! others.Keys;
  }

  // ----- A condition that can be read off the program --------------------------------------

  // Values written by an update do not clash either: ids stay, so only a globally
  // unique column matters.
  predicate DataFits(model: Model, data: Data, others: Rows) {
    var column := GloballyUnique(model);
    column.Some? && Col(column.value) in data ==>
      forall k | k in others && k.model == model ::
        data[Col(column.value)] == Null || Column(k, others[k], Col(column.value)) != data[Col(column.value)]
  }

  predicate CallFits(call: Call, others: Rows) {
    && DataFits(call.model, call.data, others)
    && forall i | 0 <= i < |call.creates| ::
         Key(call.model, call.creates[i].id) !in others && DataFits(call.model, call.creates[i].data, others)
  }

  // On `Tenant` the extension helps only in a tenant's own scope, and only with operations
  // that have a filter; otherwise the caller's filter has to keep away from other companies.
  predicate CallConfined(call: Call, unscoped: bool, a: string, others: Rows) {
    && CallFits(call, others)
    && (call.model == Tenant ==>
          && (forall i | 0 <= i < |call.creates| :: call.creates[i].id == a)
          && (|| CreateOperation(call.op)
              || (!unscoped && (WhereOperation(call.op) || UpdateOperation(call.op)))
              || SelectsNone(call.where, others)))
  }

  predicate Unscoped(w: World) {
    w.store.Some? && w.store.value.tenantId.None?
  }

  // Rows a session of the tenant can be shown.
  predicate OwnRows(visible: Rows, a: string, others: Rows) {
    forall k | k in visible :: Owner(k, visible[k]) == a && NoClash(k, visible[k], others)
  }

  // The same for every reply the program may get: `unscoped` says that the innermost scope
  // is `runWithoutTenant`. SQL may update and delete any rows the policy shows it.
  ghost predicate Confined(p: Prog, a: string, others: Rows, unscoped: bool) {
    match p
    case Query(call) => forall h: History :: CallConfined(call(h), unscoped, a, others)
    case Raw(sql) =>
      forall h: History, visible: Rows | OwnRows(visible, a, others) && Policed(visible) == visible ::
        EffectFits(Reachable(sql(h, visible), visible), a, others)
    case Catch(body, handler) => Confined(body, a, others, unscoped) && Confined(handler, a, others, unscoped)
    case Seq(first, second) => Confined(first, a, others, unscoped) && Confined(second, a, others, unscoped)
    case Branch(_, yes, no) => Confined(yes, a, others, unscoped) && Confined(no, a, others, unscoped)
    case Run(tenant, body) =>
      && (forall h: History :: tenant(h) == None || tenant(h) == Some(a) || tenant(h) == Some(""))
      && ((exists h: History :: tenant(h) == Some(a)) ==> Confined(body, a, others, false))
      && ((exists h: History :: tenant(h) == None) ==> Confined(body, a, others, true))
    case Attempt(body) => Confined(body, a, others, unscoped)
    case Transaction(body) => Confined(body, a, others, unscoped)
    case Batch(items) => forall i | 0 <= i < |items| :: Confined(items[i], a, others, unscoped)
    case _ => true
  }

  lemma {:induction false} NewRowsFit(model: Model, creates: seq<NewRow>, others: Rows)
    requires forall i | 0 <= i < |creates| ::
               Key(model, creates[i].id) !in others && DataFits(model, creates[i].data, others)
    ensures forall k | k in NewRows(model, creates) :: NoClash(k, NewRows(model, creates)[k], others)
  {
    if creates != [] {
      NewRowsFit(model, creates[1..], others);
      PatchFits(Key(model, creates[0].id), Row("", map[]), creates[0].data, others);
    }
  }

  lemma PatchFits(key: Key, row: Row, data: Data, others: Rows)
    requires NoClash(key, row, others) && DataFits(key.model, data, others)
    ensures NoClash(key, Patch(row, data), others)
  {
    var column := GloballyUnique(key.model);
    if column.Some? {
      if Col(column.value) in data {
        assert column.value in NamedColumns(data);
      }
    }
  }

  lemma EffectOnFits(call: Call, rows: Rows, a: string, others: Rows)
    requires CallFits(call, others)
    requires forall k | k in rows :: k.model == call.model && NoClash(k, rows[k], others)
    requires call.model == Tenant ==> forall i | 0 <= i < |call.creates| :: call.creates[i].id == a
    ensures EffectFits(EffectOn(call, rows), a, others)
  {
    hide EffectOn, NoClash, DataFits;
    if EffectOn(call, rows).Write? {
      EffectShape(call, rows);
      NewRowsFit(call.model, call.creates, others);
      NewRowsNamed(call.model, call.creates);
      forall k | k in Patched(rows, call.data) ensures NoClash(k, Patched(rows, call.data)[k], others) {
        PatchFits(k, rows[k], call.data, others);
      }
    }
  }

  lemma {:induction false} NewRowsNamed(model: Model, creates: seq<NewRow>)
    ensures forall k | k in NewRows(model, creates) ::
              k.model == model && exists i | 0 <= i < |creates| :: creates[i].id == k.id
  {
    if creates != [] {
      NewRowsNamed(model, creates[1..]);
      forall k | k in NewRows(model, creates) ensures exists i | 0 <= i < |creates| :: creates[i].id == k.id {
        if k in NewRows(model, creates[1..]) {
          var i :| 0 <= i < |creates| - 1 && creates[1..][i].id == k.id;
          assert creates[i + 1].id == k.id;
        } else {
          assert creates[0].id == k.id;
        }
      }
    }
  }

  lemma SeesOwnRows(v: World, a: string, others: Rows)
    requires WorldFits(v, a, others)
    ensures OwnRows(VisibleNow(v), a, others)
  {
    var rows := if v.tx.Some? then v.tx.value.rows else v.committed;
    assert forall k | k in rows :: NoClash(k, rows[k], others);
  }

  lemma RawIsConfined(sql: (History, Rows) -> Effect, v: World, a: string, others: Rows, unscoped: bool)
    requires WorldFits(v, a, others) && Confined(Raw(sql), a, others, unscoped)
    ensures StatementConfined(RawOn(sql, v.history), v, a, others)
  {
    hide EffectFits, Reachable, NoClash, WorldFits;
    SeesOwnRows(v, a, others);
    var visible := Policed(VisibleNow(v));
    assert OwnRows(visible, a, others) && Policed(visible) == visible;
  }

  // What the extension adds leaves the data as it was, but for the tenant.
  lemma InterceptedFits(call: Call, scope: ScopeKind, others: Rows)
    requires CallFits(call, others) && Intercept(call, scope).Success?
    ensures var scoped := Intercept(call, scope).value;
            && CallFits(scoped, others) && scoped.model == call.model && scoped.op == call.op
            && |scoped.creates| == |call.creates|
            && forall i | 0 <= i < |call.creates| :: scoped.creates[i].id == call.creates[i].id
  {
    hide WhereOperation, UpdateOperation;
  }

  lemma PinnedSelectsNone(where: Where, a: string, others: Rows)
    requires Foreign(others, a)
    ensures SelectsNone(With(where, Id, Equals(Text(a))), others)
  {
    forall k | k in others && k.model == Tenant ensures !Holds(With(where, Id, Equals(Text(a))), k, others[k]) {
      WithMeans(where, Id, Equals(Text(a)), k, others[k]);
    }
  }

  lemma InterceptedSelectsNone(call: Call, v: World, a: string, others: Rows, unscoped: bool)
    requires Foreign(others, a) && StoreIs(v, a) && (Unscoped(v) ==> unscoped)
    requires CallConfined(call, unscoped, a, others) && call.model == Tenant
    requires Intercept(call, CurrentScope(v)).Success?
    ensures var scoped := Intercept(call, CurrentScope(v)).value;
            CreateOperation(scoped.op) || SelectsNone(scoped.where, others)
  {
    hide SelectsNone, Foreign, CallFits;
    PinnedSelectsNone(call.where, a, others);
    if WhereOperation(call.op) || UpdateOperation(call.op) {
      if !Unscoped(v) {
        assert CurrentScope(v) == InTenant(a);
      }
    } else if SelectsNone(call.where, others) {
      assert Intercept(call, CurrentScope(v)).value.where == call.where;
    }
  }

  lemma QueryIsConfined(call: Call, v: World, a: string, others: Rows, unscoped: bool)
    requires Foreign(others, a) && WorldFits(v, a, others) && StoreIs(v, a) && (Unscoped(v) ==> unscoped)
    requires CallConfined(call, unscoped, a, others) && Intercept(call, CurrentScope(v)).Success?
    ensures StatementConfined(ModelStatement(Intercept(call, CurrentScope(v)).value), v, a, others)
  {
    hide EffectFits, NoClash, WorldFits, Foreign, Intercept, SelectsNone, DataFits, CallFits, EffectOn, Holds;
    var scoped := Intercept(call, CurrentScope(v)).value;
    InterceptedFits(call, CurrentScope(v), others);
    if call.model == Tenant { InterceptedSelectsNone(call, v, a, others, unscoped); }
    SeesOwnRows(v, a, others);
    EffectOnFits(scoped, Matched(scoped, VisibleNow(v)), a, others);
  }

  // Every run of a confined program is confined, whatever the other tenants hold.
  lemma {:induction false} ConfinedRuns(p: Prog, v: World, w: World, a: string, others: Rows, unscoped: bool)
    requires a != "" && Foreign(others, a) && Apart(v, w, a, others) && (Unscoped(v) ==> unscoped)
    requires Confined(p, a, others, unscoped)
    ensures ConfinedIn(p, v, a, others)
    decreases p, 1
  {
    hide Exec, Foreign, Widened, WorldFits, CallConfined, StatementConfined, EffectFits, Reachable, Intercept;
    match p
    case Query(call) =>
      if Intercept(call(v.history), CurrentScope(v)).Success? {
        assert CallConfined(call(v.history), unscoped, a, others);
        QueryIsConfined(call(v.history), v, a, others, unscoped);
      }
    case Raw(sql) => RawIsConfined(sql, v, a, others, unscoped);
    case Catch(_, _) => ConfinedCatchRuns(p, v, w, a, others, unscoped);
    case Seq(first, second) =>
      ConfinedRuns(first, v, w, a, others, unscoped);
      ExecDisciplined(first, v);
      ExecApart(first, v, w, a, others);
      if Exec(first, v).1.Ok? { ConfinedRuns(second, Exec(first, v).0, Exec(first, w).0, a, others, unscoped); }
    case Branch(test, yes, no) =>
      if test(v.history) { ConfinedRuns(yes, v, w, a, others, unscoped); }
      else { ConfinedRuns(no, v, w, a, others, unscoped); }
    case Run(_, _) => ConfinedScopeRuns(p, v, w, a, others, unscoped);
    case Attempt(body) =>
      if v.tx.None? {
        ConfinedRuns(body, v, w, a, others, unscoped);
      } else if !v.tx.value.aborted {
        ConfinedAttemptRuns(body, v, w, a, others, unscoped);
      }
    case Transaction(body) => ConfinedRuns(body, v, w, a, others, unscoped);
    case Batch(items) => AllConfinedRun(items, v, w, a, others, unscoped);
    case _ =>
  }

  lemma {:induction false} ConfinedCatchRuns(p: Prog, v: World, w: World, a: string, others: Rows, unscoped: bool)
    requires p.Catch? && Confined(p, a, others, unscoped)
    requires a != "" && Foreign(others, a) && Apart(v, w, a, others) && (Unscoped(v) ==> unscoped)
    ensures ConfinedIn(p, v, a, others)
    decreases p, 0
  {
    hide Exec, Foreign, Widened, WorldFits;
    ConfinedRuns(p.body, v, w, a, others, unscoped);
    var (v1, outcome) := Exec(p.body, v);
    var w1 := Exec(p.body, w).0;
    ExecDisciplined(p.body, v);
    ExecApart(p.body, v, w, a, others);
    if outcome.Err? {
      var caught := [Failed(outcome.error)];
      RepliesApart(v1, w1, a, others, caught);
      ConfinedRuns(p.handler, v1.(history := v1.history + caught), w1.(history := w1.history + caught), a, others,
                   unscoped);
    }
  }

  lemma {:induction false} ConfinedScopeRuns(p: Prog, v: World, w: World, a: string, others: Rows, unscoped: bool)
    requires p.Run? && Confined(p, a, others, unscoped)
    requires a != "" && Foreign(others, a) && Apart(v, w, a, others)
    ensures ConfinedIn(p, v, a, others)
    decreases p, 0
  {
    hide Exec, Foreign, WorldFits;
    var tenantId, body := p.tenant(v.history), p.body;
    if tenantId != Some("") {
      if v.tx.None? {
        EnteredApart(tenantId, v, w, a, others);
        ConfinedRuns(body, Entered(tenantId, v), Entered(tenantId, w), a, others, tenantId == None);
      } else if !v.tx.value.aborted {
        RepointedApart(tenantId, v, w, a, others);
        ConfinedRuns(body, Repointed(tenantId, v), Repointed(tenantId, w), a, others, tenantId == None);
      }
    }
  }

  lemma {:induction false} ConfinedAttemptRuns(body: Prog, v: World, w: World, a: string, others: Rows, unscoped: bool)
    requires a != "" && Foreign(others, a) && Apart(v, w, a, others) && (Unscoped(v) ==> unscoped)
    requires v.tx.Some? && !v.tx.value.aborted && Confined(body, a, others, unscoped)
    ensures ConfinedIn(body, EnteredAttempt(v), a, others)
    decreases body, 2
  {
    hide Exec, Foreign, WorldFits;
    EnterApart(v, w, a, others);
    ConfinedRuns(body, EnteredAttempt(v), EnteredAttempt(w), a, others, unscoped);
  }

  lemma {:induction false} AllConfinedRun(items: seq<Prog>, v: World, w: World, a: string, others: Rows, unscoped: bool)
    requires a != "" && Foreign(others, a) && Apart(v, w, a, others) && (Unscoped(v) ==> unscoped)
    requires forall i | 0 <= i < |items| :: Confined(items[i], a, others, unscoped)
    ensures AllConfinedIn(items, v, a, others)
    decreases items, 0
  {
    hide Exec, Foreign, Widened, WorldFits, ConfinedIn, Confined;
    if items != [] {
      ConfinedRuns(items[0], v, w, a, others, unscoped);
      ExecDisciplined(items[0], v);
      ExecApart(items[0], v, w, a, others);
      if Exec(items[0], v).1.Ok? {
        AllConfinedRun(items[1..], Exec(items[0], v).0, Exec(items[0], w).0, a, others, unscoped);
      }
    }
  }

  lemma RepliesApart(v: World, w: World, a: string, others: Rows, replies: History)
    requires Apart(v, w, a, others)
    ensures Apart(v.(history := v.history + replies), w.(history := w.history + replies), a, others)
  {
  }

  lemma EnteredApart(tenantId: Option<string>, v: World, w: World, a: string, others: Rows)
    requires Apart(v, w, a, others) && (tenantId == None || tenantId == Some(a))
    ensures Apart(Entered(tenantId, v), Entered(tenantId, w), a, others)
  {
  }

  lemma RepointedApart(tenantId: Option<string>, v: World, w: World, a: string, others: Rows)
    requires Apart(v, w, a, others) && v.tx.Some? && !v.tx.value.aborted && (tenantId == None || tenantId == Some(a))
    ensures Apart(Repointed(tenantId, v), Repointed(tenantId, w), a, others)
  {
  }

  lemma ConfinedProgramsDoNotInterfere(p: Prog, db: Rows, a: string)
    requires a != "" && UniqueRows(db) && Confined(p, a, Others(db, a), false)
    ensures ConfinedIn(p, Idle(Own(db, a)), a, Others(db, a))
    ensures Others(Exec(p, Idle(db)).0.committed, a) == Others(db, a)
    ensures Own(Exec(p, Idle(db)).0.committed, a) == Exec(p, Idle(Own(db, a))).0.committed
  {
    hide Exec, Confined, ConfinedIn, Apart, UniqueRows;
    CutDown(db, a);
    ConfinedRuns(p, Idle(Own(db, a)), Idle(db), a, Others(db, a), false);
    NonInterference(p, db, a);
  }

  // ----- Lookups of a company without a scope of its own ------------------------------------

  function Lookup(where: Where): Call {
    Call(Tenant, FindUnique, where, map[], [])
  }

  // The lookup by id that the platform's nested routes begin with.
  lemma RequireCompanyIsConfined(a: string, others: Rows, unscoped: bool)
    requires Foreign(others, a)
    ensures Confined(Run(_ => None, Query(_ => Lookup(Just(Id, Equals(Text(a)))))), a, others, unscoped)
  {
    forall k | k in others && k.model == Tenant ensures !Holds(Just(Id, Equals(Text(a))), k, others[k]) {
      JustMeans(Id, Equals(Text(a)), k, others[k]);
    }
    var call := Lookup(Just(Id, Equals(Text(a))));
    assert CallConfined(call, true, a, others);
  }

  function Reading(where: Where): Call {
    Call(Tenant, FindMany, where, map[], [])
  }

  lemma ReadingAnswers(where: Where, db: Rows, session: string)
    ensures EffectUnder(db, session, ModelStatement(Reading(where)))
            == Write(map[], map[], {}, Found(Matched(Reading(where), Visible(db, session))))
  {
    hide Matched, Visible;
  }

  // The condition cannot be dropped: an unscoped reading of `Tenant` gives the reply it gives
  // on the tenant's own rows exactly when its filter finds no other company.
  lemma UnscopedReadTells(where: Where, rows: Rows, a: string, others: Rows, session: string)
    requires Fits(rows, a, others) && Foreign(others, a)
    ensures var read := ModelStatement(Reading(where));
            EffectUnder(rows + others, session, read) == EffectUnder(rows, session, read)
            <==> SelectsNone(where, others)
  {
    hide Holds, Foreign, EffectUnder;
    var large := Matched(Reading(where), Visible(rows + others, session));
    var small := Matched(Reading(where), Visible(rows, session));
    assert forall k | k in rows :: NoClash(k, rows[k], others);
    ReadingAnswers(where, rows + others, session);
    ReadingAnswers(where, rows, session);
    if SelectsNone(where, others) {
      assert large == small;
    } else {
      var k :| k in others && k.model == Tenant && Holds(where, k, others[k]);
      assert k in large && k !in small;
    }
  }

  // The case row-level security is for: SQL with no `where` of its own, that rewrites or
  // deletes whatever rows it is shown.
  function Blanket(rewrite: Row -> Row, doomed: Key -> bool): Prog {
    Raw((_, visible) => Sweep(rewrite, doomed, visible))
  }

  function Sweep(rewrite: Row -> Row, doomed: Key -> bool, visible: Rows): Effect {
    Write(map[], map k | k in visible :: rewrite(visible[k]), (set k | k in visible && doomed(k)), Number(|visible|))
  }

  // Only the globally unique column must be left alone.
  predicate KeepsUnique(row: Row, row': Row) {
    forall model | model != Tenant && GloballyUnique(model).Some? ::
      var column := GloballyUnique(model).value;
      Column(Key(model, ""), row', Col(column)) == Column(Key(model, ""), row, Col(column))
  }

  lemma BlanketSqlIsConfined(rewrite: Row -> Row, doomed: Key -> bool, a: string, others: Rows, unscoped: bool)
    requires forall row :: KeepsUnique(row, rewrite(row))
    ensures Confined(Blanket(rewrite, doomed), a, others, unscoped)
  {
    hide Exec;
    forall visible: Rows | OwnRows(visible, a, others) && Policed(visible) == visible
      ensures EffectFits(Reachable(Sweep(rewrite, doomed, visible), visible), a, others)
    {
      assert forall k | k in visible :: k in Policed(visible);
      forall k | k in visible ensures NoClash(k, rewrite(visible[k]), others) {
        RewriteKeepsApart(k, visible[k], rewrite(visible[k]), others);
      }
    }
  }

  lemma RewriteKeepsApart(key: Key, row: Row, row': Row, others: Rows)
    requires NoClash(key, row, others) && KeepsUnique(row, row') && key.model != Tenant
    ensures NoClash(key, row', others)
  {
    var column := GloballyUnique(key.model);
    if column.Some? {
      assert Column(Key(key.model, ""), row', Col(column.value)) == Column(Key(key.model, ""), row, Col(column.value));
    }
  }
}
