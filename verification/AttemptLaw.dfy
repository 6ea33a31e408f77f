// The law of `attempt`: it behaves like its body run inline, except that a failure,
// or a database error the body swallowed, puts the transaction back as it was.
module AttemptLaw {
  import opened Values
  import opened Database
  import opened TenantExtension
  import opened Scope
  import opened ScopeLaws

  // Two worlds that differ only in their savepoints and how those are numbered.
  predicate Alike(w: World, v: World) {
    && w.committed == v.committed
    && w.store == v.store
    && w.pending == v.pending
    && w.released == v.released
    && w.history == v.history
    && w.emitted == v.emitted
    && w.observed == v.observed
    && w.tx.Some? == v.tx.Some?
    && (w.tx.Some? ==>
          && w.tx.value.rows == v.tx.value.rows
          && w.tx.value.writes == v.tx.value.writes
          && w.tx.value.session == v.tx.value.session
          && w.tx.value.aborted == v.tx.value.aborted)
  }

  predicate AlikeResults(r: (World, Outcome), r': (World, Outcome)) {
    r.1 == r'.1 && Alike(r.0, r'.0)
  }

  lemma IssueInvisible(w: World, v: World, statement: Statement)
    requires Alike(w, v)
    ensures AlikeResults(Issue(w, statement), Issue(v, statement))
  {
  }

  // Nothing a program does depends on the savepoints below it or on their numbers.
  lemma {:induction false} SavepointsInvisible(p: Prog, w: World, v: World)
    requires Sound(w) && Sound(v) && Alike(w, v)
    ensures AlikeResults(Exec(p, w), Exec(p, v))
    decreases p, 1
  {
    hide Issue, Intercept;
    match p
    case Skip =>
    case Query(call) =>
      if Intercept(call(w.history), CurrentScope(w)).Success? {
        IssueInvisible(w, v, ModelStatement(Intercept(call(w.history), CurrentScope(w)).value));
      }
    case Raw(sql) => IssueInvisible(w, v, RawOn(sql, w.history));
    case Emit(_) =>
    case Throw(_) =>
    case Catch(_, _) => CatchInvisible(p, w, v);
    case Seq(_, _) => SeqInvisible(p, w, v);
    case Branch(test, yes, no) =>
      if test(w.history) { SavepointsInvisible(yes, w, v); } else { SavepointsInvisible(no, w, v); }
    case Run(tenant, body) => RunInvisible(tenant(w.history), body, w, v);
    case Attempt(body) =>
      if w.tx.Some? { AttemptInvisible(body, w, v); } else { SavepointsInvisible(body, w, v); }
    case Transaction(body) => SavepointsInvisible(body, w, v);
    case Batch(items) => AllInvisible(items, w, v);
  }

  lemma {:induction false} CatchInvisible(p: Prog, w: World, v: World)
    requires p.Catch? && Sound(w) && Sound(v) && Alike(w, v)
    ensures AlikeResults(Exec(p, w), Exec(p, v))
    decreases p, 0
  {
    ExecDisciplined(p.body, w);
    ExecDisciplined(p.body, v);
    SavepointsInvisible(p.body, w, v);
    var (w1, outcome) := Exec(p.body, w);
    var v1 := Exec(p.body, v).0;
    if outcome.Err? {
      var caught := [Failed(outcome.error)];
      SavepointsInvisible(p.handler, w1.(history := w1.history + caught), v1.(history := v1.history + caught));
    }
  }

  lemma {:induction false} SeqInvisible(p: Prog, w: World, v: World)
    requires p.Seq? && Sound(w) && Sound(v) && Alike(w, v)
    ensures AlikeResults(Exec(p, w), Exec(p, v))
    decreases p, 0
  {
    ExecDisciplined(p.first, w);
    ExecDisciplined(p.first, v);
    SavepointsInvisible(p.first, w, v);
    if Exec(p.first, w).1.Ok? {
      SavepointsInvisible(p.second, Exec(p.first, w).0, Exec(p.first, v).0);
    }
  }

  lemma AttemptEndsAlike(w: World, v: World, w1: World, v1: World, outcome: Outcome)
    requires w.tx.Some? && v.tx.Some? && Alike(w, v)
    requires w1.tx.Some? && v1.tx.Some? && Alike(w1, v1)
    ensures AlikeResults(AttemptEnd(w, w1, outcome), AttemptEnd(v, v1, outcome))
  {
  }

  lemma EnteredAlike(w: World, v: World)
    requires Sound(w) && Sound(v) && Alike(w, v) && w.tx.Some? && !w.tx.value.aborted
    ensures var entered, entered' := EnteredAttempt(w), EnteredAttempt(v);
            Sound(entered) && Sound(entered') && Alike(entered, entered')
  {
  }

  lemma {:induction false} AttemptInvisible(body: Prog, w: World, v: World)
    requires Sound(w) && Sound(v) && Alike(w, v) && w.tx.Some?
    ensures AlikeResults(ExecAttempt(body, w), ExecAttempt(body, v))
    decreases body, 2
  {
    hide Exec, AttemptEnd, Disciplined;
    if !w.tx.value.aborted {
      AttemptSteps(body, w);
      AttemptSteps(body, v);
      var entered, entered' := EnteredAttempt(w), EnteredAttempt(v);
      EnteredAlike(w, v);
      SavepointsInvisible(body, entered, entered');
      AttemptEndsAlike(w, v, Exec(body, entered).0, Exec(body, entered').0, Exec(body, entered).1);
    }
  }

  lemma {:induction false} AllInvisible(items: seq<Prog>, w: World, v: World)
    requires Sound(w) && Sound(v) && Alike(w, v)
    ensures AlikeResults(ExecAll(items, w), ExecAll(items, v))
    decreases items, 0
  {
    if items != [] {
      ExecDisciplined(items[0], w);
      ExecDisciplined(items[0], v);
      SavepointsInvisible(items[0], w, v);
      if Exec(items[0], w).1.Ok? {
        AllInvisible(items[1..], Exec(items[0], w).0, Exec(items[0], v).0);
      }
    }
  }

  lemma {:induction false} RunInvisible(tenantId: Option<string>, body: Prog, w: World, v: World)
    requires Sound(w) && Sound(v) && Alike(w, v)
    ensures w.tx.None? ==> AlikeResults(RunOwner(tenantId, body, w), RunOwner(tenantId, body, v))
    ensures w.tx.Some? ==> AlikeResults(RunNested(tenantId, body, w), RunNested(tenantId, body, v))
    decreases body, 2
  {
    hide Exec;
    var store := Some(Store(tenantId));
    if w.tx.None? {
      var tx := Some(Txn(w.committed, [], Setting(tenantId), false, []));
      var entered, entered' := w.(tx := tx, store := store, pending := []), v.(tx := tx, store := store, pending := []);
      ExecDisciplined(body, entered);
      ExecDisciplined(body, entered');
      SavepointsInvisible(body, entered, entered');
    } else if !w.tx.value.aborted {
      var entered := w.(tx := Some(SetTenant(w.tx.value, tenantId).0), store := store);
      var entered' := v.(tx := Some(SetTenant(v.tx.value, tenantId).0), store := store);
      ExecDisciplined(body, entered);
      ExecDisciplined(body, entered');
      SavepointsInvisible(body, entered, entered');
    }
  }

  // The end of an attempt entered in `w`, against the inline run of its body. The
  // transaction is healthy and the savepoints below are in place. It succeeds exactly
  // when the inline run succeeds on a transaction that is still healthy, and then has
  // the same effects; otherwise rows, writes and session are those it started with and
  // the error is the body's own, or 25P02 when the body swallowed a database error.
  predicate EndsLike(w: World, after: World, verdict: Outcome, inline: World, outcome: Outcome)
    requires w.tx.Some? && inline.tx.Some?
  {
    && after.tx.Some? && !after.tx.value.aborted
    && w.tx.value.savepoints <= after.tx.value.savepoints
    && (verdict.Ok? <==> outcome.Ok? && !inline.tx.value.aborted)
    && (verdict.Ok? ==> Alike(after, inline) && after.tx.value.savepoints == w.tx.value.savepoints)
    && (verdict.Err? ==>
          && verdict.error == (if outcome.Ok? then TRANSACTION_ABORTED else outcome.error)
          && after.tx.value.rows == w.tx.value.rows
          && after.tx.value.writes == w.tx.value.writes
          && after.tx.value.session == w.tx.value.session
          && Alike(after, inline.(tx := w.tx)))
  }

  // The law of `attempt`, for every body and every sound world.
  lemma {:induction false} AttemptAgainstInline(body: Prog, w: World)
    requires Sound(w) && w.tx.Some? && !w.tx.value.aborted
    ensures var (inline, outcome) := Exec(body, w);
            var (after, verdict) := Exec(Attempt(body), w);
            Sound(after) && EndsLike(w, after, verdict, inline, outcome)
  {
    hide Exec, Extends, EndsLike;
    AttemptSteps(body, w);
    EnteredIsAlike(w);
    SavepointsInvisible(body, EnteredAttempt(w), w);
    var (inline, outcome) := Exec(body, w);
    var (inside, _) := Exec(body, EnteredAttempt(w));
    AttemptDisciplined(body, w);
    AttemptEndsLike(w, inside, inline, outcome);
    AttemptUnfolds(body, w);
  }

  lemma EnteredIsAlike(w: World)
    requires Sound(w) && w.tx.Some? && !w.tx.value.aborted
    ensures Sound(EnteredAttempt(w)) && Alike(EnteredAttempt(w), w)
  {
  }

  lemma AttemptUnfolds(body: Prog, w: World)
    requires w.tx.Some?
    ensures Exec(Attempt(body), w) == ExecAttempt(body, w)
  {
  }

  lemma AttemptEndsLike(w: World, inside: World, inline: World, outcome: Outcome)
    requires w.tx.Some? && !w.tx.value.aborted
    requires inside.tx.Some? && inline.tx.Some? && Alike(inside, inline)
    ensures var (after, verdict) := AttemptEnd(w, inside, outcome);
            EndsLike(w, after, verdict, inline, outcome)
  {
  }

  // No two savepoints alive on a transaction ever carry the same name, however
  // attempts are nested and however they end.
  lemma NamesNeverShared(p: Prog, w: World)
    requires Sound(w)
    ensures var after := Exec(p, w).0;
            after.tx.Some? ==>
              forall i, j | 0 <= i < j < |after.tx.value.savepoints| ::
                after.tx.value.savepoints[i].name != after.tx.value.savepoints[j].name
  {
    ExecDisciplined(p, w);
  }
}
