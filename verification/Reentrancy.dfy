// The re-entrant `$transaction`: running the body on the transaction already open,
// against really nesting one, which is what the call sites were written for.
module Reentrancy {
  import opened Values
  import opened Filters
  import opened Database
  import opened Scope
  import opened ScopeLaws
  import opened AttemptLaw
  import opened ScopeTheorems
  import opened ScopeDurability

  // The same program with every `$transaction`, in both forms, as a nested transaction
  // of its own that undoes its body when it fails.
  function Nested(p: Prog): Prog {
    match p
    case Catch(body, handler) => Catch(Nested(body), Nested(handler))
    case Seq(first, second) => Seq(Nested(first), Nested(second))
    case Branch(test, yes, no) => Branch(test, Nested(yes), Nested(no))
    case Run(tenant, body) => Run(tenant, Nested(body))
    case Attempt(body) => Attempt(Nested(body))
    case Transaction(body) => Attempt(Nested(body))
    case Batch(items) => Attempt(Batch(seq(|items|, i requires 0 <= i < |items| => Nested(items[i]))))
    case _ => p
  }

  // It sends nothing and ends in an error, which may depend on what was caught.
  predicate Rethrows(p: Prog) {
    match p
    case Throw(_) => true
    case Branch(_, yes, no) => Rethrows(yes) && Rethrows(no)
    case _ => false
  }

  // It runs no `$transaction`.
  predicate Plain(p: Prog) {
    match p
    case Catch(body, handler) => Plain(body) && Plain(handler)
    case Seq(first, second) => Plain(first) && Plain(second)
    case Branch(_, yes, no) => Plain(yes) && Plain(no)
    case Run(_, body) => Plain(body)
    case Attempt(body) => Plain(body)
    case Transaction(_) => false
    case Batch(_) => false
    case _ => true
  }

  // The transaction is as healthy as it was, and nothing was written.
  predicate LeftAlone(w: World, w1: World) {
    && w.tx.Some? && w1.tx.Some? && !w1.tx.value.aborted
    && w1.tx.value.rows == w.tx.value.rows && w1.tx.value.writes == w.tx.value.writes
  }

  // For a program that fails from `w`: each `$transaction` that failed in the part that is
  // not undone anyway had left the transaction alone.
  predicate FailsAlike(p: Prog, w: World)
    requires w.tx.Some?
    decreases p
  {
    w.tx.value.aborted ||
    match p
    case Catch(body, handler) =>
      var (w1, outcome) := Exec(body, w);
      outcome.Ok? || (if Rethrows(handler) then FailsAlike(body, w)
                      else FailsAlike(handler, w1.(history := w1.history + [Failed(outcome.error)])))
    case Seq(first, second) =>
      if Exec(first, w).1.Ok? then FailsAlike(second, Exec(first, w).0) else FailsAlike(first, w)
    case Branch(test, yes, no) => if test(w.history) then FailsAlike(yes, w) else FailsAlike(no, w)
    case Run(tenant, body) => tenant(w.history) == Some("") || FailsAlike(body, Repointed(tenant(w.history), w))
    case Transaction(_) => LeftAlone(w, Exec(p, w).0)
    case Batch(_) => LeftAlone(w, Exec(p, w).0)
    case _ => true
  }

  // Along the run from `w`: whatever is caught is raised again, or had failed without leaving
  // behind the writes of a `$transaction`; and no `$transaction` is begun, or called a
  // success, in an aborted transaction.
  predicate PropagatesIn(p: Prog, w: World)
    requires w.tx.Some?
    decreases p, 1
  {
    if w.tx.value.aborted then Plain(p)
    else
      match p
      case Catch(body, handler) =>
        var (w1, outcome) := Exec(body, w);
        && PropagatesIn(body, w)
        && (outcome.Err? ==>
              || Rethrows(handler)
              || (FailsAlike(body, w) && PropagatesIn(handler, w1.(history := w1.history + [Failed(outcome.error)]))))
      case Seq(first, second) =>
        PropagatesIn(first, w) && (Exec(first, w).1.Ok? ==> PropagatesIn(second, Exec(first, w).0))
      case Branch(test, yes, no) => if test(w.history) then PropagatesIn(yes, w) else PropagatesIn(no, w)
      case Run(tenant, body) => tenant(w.history) == Some("") || PropagatesIn(body, Repointed(tenant(w.history), w))
      case Attempt(body) => PropagatesIn(body, w)
      case Transaction(body) => PropagatesIn(body, w) && HealthyOnSuccess(Exec(body, w))
      case Batch(items) => AllPropagateIn(items, w) && HealthyOnSuccess(Exec(p, w))
      case _ => true
  }

  predicate AllPropagateIn(items: seq<Prog>, w: World)
    requires w.tx.Some?
    decreases items, 0
  {
    || items == []
    || (PropagatesIn(items[0], w) && (Exec(items[0], w).1.Ok? ==> AllPropagateIn(items[1..], Exec(items[0], w).0)))
  }

  predicate HealthyOnSuccess(r: (World, Outcome)) {
    r.1.Ok? && r.0.tx.Some? ==> !r.0.tx.value.aborted
  }

  // ----- A condition that can be read off the program ------------------------------------------

  predicate Propagates(p: Prog) {
    match p
    case Catch(body, handler) => Propagates(body) && (Rethrows(handler) || (body.Attempt? && Propagates(handler)))
    case Seq(first, second) => Propagates(first) && Propagates(second)
    case Branch(_, yes, no) => Propagates(yes) && Propagates(no)
    case Run(_, body) => Propagates(body)
    case Attempt(body) => Propagates(body)
    case Transaction(body) => Propagates(body)
    case Batch(items) => forall i | 0 <= i < |items| :: Propagates(items[i])
    case _ => true
  }

  lemma RethrowsNeverSucceeds(p: Prog)
    requires Rethrows(p)
    ensures NeverSucceeds(p) && RecoversByAttempt(p) && Plain(p)
  {
  }

  // Attempts inside need no care: what they leave is healthy.
  lemma {:induction false} PropagatingIsHealthy(p: Prog, w: World)
    requires Sound(w) && w.tx.Some? && !w.tx.value.aborted && Propagates(p)
    ensures HealthyOnSuccess(Exec(p, w))
    decreases p, 1
  {
    match p
    case Catch(body, handler) =>
      var (w1, outcome) := Exec(body, w);
      if outcome.Ok? {
        PropagatingIsHealthy(body, w);
      } else {
        var caught := w1.(history := w1.history + [Failed(outcome.error)]);
        ExecDisciplined(body, w);
        if Rethrows(handler) {
          RethrowRuns(handler, caught, caught);
        } else {
          AttemptAgainstInline(body.body, w);
          PropagatingIsHealthy(handler, caught);
        }
      }
    case Seq(first, second) =>
      ExecDisciplined(first, w);
      PropagatingIsHealthy(first, w);
      if Exec(first, w).1.Ok? { PropagatingIsHealthy(second, Exec(first, w).0); }
    case Branch(test, yes, no) =>
      if test(w.history) { PropagatingIsHealthy(yes, w); } else { PropagatingIsHealthy(no, w); }
    case Run(tenant, body) =>
      if tenant(w.history) != Some("") { PropagatingIsHealthy(body, Repointed(tenant(w.history), w)); }
    case Attempt(body) => AttemptAgainstInline(body, w);
    case Transaction(body) => PropagatingIsHealthy(body, w);
    case Batch(items) => AllPropagatingHealthy(items, w);
    case _ =>
  }

  lemma {:induction false} AllPropagatingHealthy(items: seq<Prog>, w: World)
    requires Sound(w) && w.tx.Some? && !w.tx.value.aborted && forall i | 0 <= i < |items| :: Propagates(items[i])
    ensures HealthyOnSuccess(ExecAll(items, w))
    decreases items, 0
  {
    if items != [] {
      ExecDisciplined(items[0], w);
      PropagatingIsHealthy(items[0], w);
      if Exec(items[0], w).1.Ok? { AllPropagatingHealthy(items[1..], Exec(items[0], w).0); }
    }
  }

  lemma {:induction false} PropagatesSuffices(p: Prog, w: World)
    requires Sound(w) && w.tx.Some? && !w.tx.value.aborted && Propagates(p)
    ensures PropagatesIn(p, w)
    decreases p, 1
  {
    hide Exec;
    match p
    case Catch(body, handler) =>
      PropagatesSuffices(body, w);
      var (w1, outcome) := Exec(body, w);
      if outcome.Err? && !Rethrows(handler) {
        AttemptAgainstInline(body.body, w);
        ExecDisciplined(body, w);
        PropagatesSuffices(handler, w1.(history := w1.history + [Failed(outcome.error)]));
      }
    case Seq(first, second) =>
      PropagatesSuffices(first, w);
      PropagatingIsHealthy(first, w);
      ExecDisciplined(first, w);
      if Exec(first, w).1.Ok? { PropagatesSuffices(second, Exec(first, w).0); }
    case Branch(test, yes, no) =>
      if test(w.history) { PropagatesSuffices(yes, w); } else { PropagatesSuffices(no, w); }
    case Run(tenant, body) =>
      if tenant(w.history) != Some("") { PropagatesSuffices(body, Repointed(tenant(w.history), w)); }
    case Attempt(body) => PropagatesSuffices(body, w);
    case Transaction(body) =>
      PropagatingIsHealthy(body, w);
      PropagatesSuffices(body, w);
    case Batch(items) =>
      PropagatingIsHealthy(p, w);
      AllPropagate(items, w);
    case _ =>
  }

  lemma {:induction false} AllPropagate(items: seq<Prog>, w: World)
    requires Sound(w) && w.tx.Some? && !w.tx.value.aborted && forall i | 0 <= i < |items| :: Propagates(items[i])
    ensures AllPropagateIn(items, w)
    decreases items, 0
  {
    hide Exec;
    if items != [] {
      PropagatesSuffices(items[0], w);
      PropagatingIsHealthy(items[0], w);
      ExecDisciplined(items[0], w);
      if Exec(items[0], w).1.Ok? { AllPropagate(items[1..], Exec(items[0], w).0); }
    }
  }

  lemma {:induction false} RethrowRuns(p: Prog, w: World, v: World)
    requires Rethrows(p) && v.history == w.history
    ensures Exec(p, w).1.Err? && Exec(p, w).0 == w && Exec(p, v) == (v, Exec(p, w).1)
    decreases p
  {
    if p.Branch? { if p.test(w.history) { RethrowRuns(p.yes, w, v); } else { RethrowRuns(p.no, w, v); } }
  }

  lemma {:induction false} PlainIsNested(p: Prog)
    requires Plain(p)
    ensures Nested(p) == p
    decreases p
  {
    match p
    case Catch(body, handler) => PlainIsNested(body); PlainIsNested(handler);
    case Seq(first, second) => PlainIsNested(first); PlainIsNested(second);
    case Branch(_, yes, no) => PlainIsNested(yes); PlainIsNested(no);
    case Run(_, body) => PlainIsNested(body);
    case Attempt(body) => PlainIsNested(body);
    case _ =>
  }

  // ----- The re-entrant run and the nested one -------------------------------------------------

  // Equal but for the state of a transaction that is on its way to being undone.
  predicate Loosely(w: World, v: World) {
    && w.committed == v.committed
    && w.store == v.store
    && w.pending == v.pending
    && w.released == v.released
    && w.history == v.history
    && w.emitted == v.emitted
    && w.observed == v.observed
    && w.tx.Some? == v.tx.Some?
  }

  predicate SameRun(r: (World, Outcome), r': (World, Outcome)) {
    && r.1 == r'.1
    && Loosely(r.0, r'.0)
    && (r.1.Ok? ==> Alike(r.0, r'.0))
  }

  // The two runs end the same way, and if they fail, the transactions they leave are the
  // same exactly when that is foreseen.
  predicate SameEnd(r: (World, Outcome), r': (World, Outcome), alike: bool) {
    SameRun(r, r') && (r.1.Err? ==> (Alike(r.0, r'.0) <==> alike))
  }

  predicate Ready(w: World, v: World) {
    Sound(w) && Sound(v) && Alike(w, v) && w.tx.Some?
  }

  lemma AlikeIsSame(r: (World, Outcome), r': (World, Outcome))
    requires AlikeResults(r, r')
    ensures SameEnd(r, r', true)
  {
  }

  lemma UnderAttempt(body: Prog, nested: Prog, w: World, v: World)
    requires Ready(w, v) && !w.tx.value.aborted && SameRun(Exec(body, w), Exec(nested, v))
    ensures SameEnd(Exec(Attempt(body), w), Exec(Attempt(nested), v), true)
  {
    AttemptAgainstInline(nested, v);
    AttemptAgainstInline(body, w);
  }

  // Run in place on one side and undone on the other.
  lemma InPlaceOrUndone(body: Prog, nested: Prog, w: World, v: World)
    requires Ready(w, v) && !w.tx.value.aborted && SameRun(Exec(body, w), Exec(nested, v))
    requires HealthyOnSuccess(Exec(body, w))
    ensures SameEnd(Exec(body, w), Exec(Attempt(nested), v), LeftAlone(w, Exec(body, w).0))
  {
    AttemptAgainstInline(nested, v);
    ExecDisciplined(body, w);
    ExecDisciplined(Attempt(nested), v);
  }

  lemma {:induction false} ReentrantIsNested(p: Prog, w: World, v: World)
    requires Ready(w, v) && PropagatesIn(p, w)
    ensures SameEnd(Exec(p, w), Exec(Nested(p), v), FailsAlike(p, w))
    decreases p, 2
  {
    hide Exec, SameEnd;
    if w.tx.value.aborted {
      PlainIsNested(p);
      SavepointsInvisible(p, w, v);
      AlikeIsSame(Exec(p, w), Exec(p, v));
    } else {
      HealthyCase(p, w, v);
    }
  }

  lemma {:induction false} HealthyCase(p: Prog, w: World, v: World)
    requires Ready(w, v) && PropagatesIn(p, w) && !w.tx.value.aborted
    ensures SameEnd(Exec(p, w), Exec(Nested(p), v), FailsAlike(p, w))
    decreases p, 1
  {
    hide Issue, IssueQuery, EmitEvent, SameEnd, LeftAlone;
    match p
    case Catch(_, _) => CatchIsNested(p, w, v);
    case Seq(_, _) => SeqIsNested(p, w, v);
    case Branch(test, yes, no) =>
      if test(w.history) { ReentrantIsNested(yes, w, v); } else { ReentrantIsNested(no, w, v); }
    case Run(_, _) => RunIsNested(p, w, v);
    case Attempt(body) =>
      ReentrantIsNested(body, w, v);
      EndIsRun(Exec(body, w), Exec(Nested(body), v), FailsAlike(body, w));
      UnderAttempt(body, Nested(body), w, v);
    case Transaction(body) =>
      ReentrantIsNested(body, w, v);
      EndIsRun(Exec(body, w), Exec(Nested(body), v), FailsAlike(body, w));
      InPlaceOrUndone(body, Nested(body), w, v);
    case Batch(items) =>
      var nested := seq(|items|, i requires 0 <= i < |items| => Nested(items[i]));
      AllIsNested(items, nested, w, v);
      InPlaceOrUndone(p, Batch(nested), w, v);
    case _ =>
      SavepointsInvisible(p, w, v);
      AlikeIsSame(Exec(p, w), Exec(p, v));
  }

  lemma EndIsRun(r: (World, Outcome), r': (World, Outcome), alike: bool)
    requires SameEnd(r, r', alike)
    ensures SameRun(r, r') && (r.1.Err? ==> (Alike(r.0, r'.0) <==> alike))
  {
  }

  lemma {:induction false} RunIsNested(p: Prog, w: World, v: World)
    requires p.Run? && Ready(w, v) && PropagatesIn(p, w) && !w.tx.value.aborted
    ensures SameEnd(Exec(p, w), Exec(Nested(p), v), FailsAlike(p, w))
    decreases p, 0
  {
    hide Exec, SameEnd;
    var tenantId := p.tenant(w.history);
    RunUnfolds(p.tenant, p.body, w);
    RunUnfolds(p.tenant, Nested(p.body), v);
    if tenantId == Some("") {
      AlikeIsSame(Exec(p, w), Exec(Nested(p), v));
    } else {
      var w0, v0 := Repointed(tenantId, w), Repointed(tenantId, v);
      ReentrantIsNested(p.body, w0, v0);
      ExecDisciplined(p.body, w0);
      ExecDisciplined(Nested(p.body), v0);
      RestoredEnd(w, Exec(p.body, w0), Exec(Nested(p.body), v0), FailsAlike(p.body, w0));
    }
  }

  // Restoring the setting makes nothing alike that was not.
  lemma RestoredEnd(w: World, r: (World, Outcome), r': (World, Outcome), alike: bool)
    requires w.store.Some? && Sound(r.0) && Sound(r'.0) && r.0.tx.Some? && r'.0.tx.Some?
    requires SameEnd(r, r', alike)
    ensures SameEnd((Restored(w, r.0), r.1), (Restored(w, r'.0), r'.1), alike)
  {
  }

  // The world a nested scope hands back.
  function Restored(w: World, w1: World): World
    requires w.store.Some? && w1.tx.Some?
  {
    w1.(tx := Some(SetTenant(w1.tx.value, w.store.value.tenantId).0), store := w.store)
  }

  lemma {:induction false} SeqIsNested(p: Prog, w: World, v: World)
    requires p.Seq? && Ready(w, v) && PropagatesIn(p, w) && !w.tx.value.aborted
    ensures SameEnd(Exec(p, w), Exec(Nested(p), v), FailsAlike(p, w))
    decreases p, 0
  {
    hide SameEnd, Loosely;
    ReentrantIsNested(p.first, w, v);
    EndIsRun(Exec(p.first, w), Exec(Nested(p.first), v), FailsAlike(p.first, w));
    ExecDisciplined(p.first, w);
    ExecDisciplined(Nested(p.first), v);
    if Exec(p.first, w).1.Ok? {
      ReentrantIsNested(p.second, Exec(p.first, w).0, Exec(Nested(p.first), v).0);
    }
  }

  lemma {:induction false} CatchIsNested(p: Prog, w: World, v: World)
    requires p.Catch? && Ready(w, v) && PropagatesIn(p, w) && !w.tx.value.aborted
    ensures SameEnd(Exec(p, w), Exec(Nested(p), v), FailsAlike(p, w))
    decreases p, 0
  {
    hide SameEnd, Issue, IssueQuery;
    var r, r' := Exec(p.body, w), Exec(Nested(p.body), v);
    ReentrantIsNested(p.body, w, v);
    EndIsRun(r, r', FailsAlike(p.body, w));
    ExecDisciplined(p.body, w);
    ExecDisciplined(Nested(p.body), v);
    if r.1.Ok? {
      AlikeIsSame(r, r');
      OkEnd(r, r', FailsAlike(p, w));
    } else {
      var caught := [Failed(r.1.error)];
      var w2, v2 := r.0.(history := r.0.history + caught), r'.0.(history := r'.0.history + caught);
      if Rethrows(p.handler) {
        RethrownEnd(p.handler, r.0, r'.0, caught);
      } else {
        ReentrantIsNested(p.handler, w2, v2);
      }
    }
  }

  lemma OkEnd(r: (World, Outcome), r': (World, Outcome), alike: bool)
    requires SameRun(r, r') && r.1.Ok?
    ensures SameEnd(r, r', alike)
  {
  }

  lemma RethrownEnd(handler: Prog, w1: World, v1: World, caught: History)
    requires Rethrows(handler) && Loosely(w1, v1)
    ensures var w2, v2 := w1.(history := w1.history + caught), v1.(history := v1.history + caught);
            SameEnd(Exec(handler, w2), Exec(Nested(handler), v2), Alike(w1, v1))
  {
    hide Exec;
    RethrowsNeverSucceeds(handler);
    PlainIsNested(handler);
    RethrowRuns(handler, w1.(history := w1.history + caught), v1.(history := v1.history + caught));
  }

  lemma {:induction false} AllIsNested(items: seq<Prog>, nested: seq<Prog>, w: World, v: World)
    requires Ready(w, v) && |nested| == |items|
    requires AllPropagateIn(items, w) && forall i | 0 <= i < |items| :: nested[i] == Nested(items[i])
    ensures SameRun(ExecAll(items, w), ExecAll(nested, v))
    decreases items, 0
  {
    hide SameEnd;
    if items != [] {
      ReentrantIsNested(items[0], w, v);
      EndIsRun(Exec(items[0], w), Exec(nested[0], v), FailsAlike(items[0], w));
      ExecDisciplined(items[0], w);
      ExecDisciplined(nested[0], v);
      if Exec(items[0], w).1.Ok? {
        AllIsNested(items[1..], nested[1..], Exec(items[0], w).0, Exec(nested[0], v).0);
      }
    }
  }

  // Inside a scope that owns its transaction, the re-entrant form and a really nested
  // transaction give the same outcome, replies, committed rows and released events.
  lemma {:induction false} ReentrancyPreservesMeaning(tenant: History -> Option<string>, body: Prog, w: World)
    requires Sound(w) && w.tx.None? && PropagatesIn(body, Entered(tenant(w.history), w))
    ensures var (after, outcome) := Exec(Run(tenant, body), w);
            var (after', outcome') := Exec(Run(tenant, Nested(body)), w);
            && outcome == outcome'
            && after.committed == after'.committed
            && after.released == after'.released
            && after.history == after'.history
  {
    hide Exec, PropagatesIn, FailsAlike;
    RunUnfolds(tenant, body, w);
    RunUnfolds(tenant, Nested(body), w);
    var tenantId := tenant(w.history);
    if tenantId != Some("") {
      ReentrantIsNested(body, Entered(tenantId, w), Entered(tenantId, w));
      ExecDisciplined(body, Entered(tenantId, w));
      ExecDisciplined(Nested(body), Entered(tenantId, w));
    }
  }

  // A `$transaction` whose failure is caught and dropped is the same in both forms exactly
  // when it failed without having written anything and left the transaction healthy.
  lemma CaughtTransactionExactly(body: Prog, w: World)
    requires Sound(w) && w.tx.Some? && !w.tx.value.aborted
    requires PropagatesIn(body, w) && Exec(body, w).1.Err?
    ensures var dropped := Catch(Transaction(body), Skip);
            && Exec(dropped, w).1 == Ok == Exec(Nested(dropped), w).1
            && (Alike(Exec(dropped, w).0, Exec(Nested(dropped), w).0) <==> LeftAlone(w, Exec(body, w).0))
            && (PropagatesIn(dropped, w) <==> LeftAlone(w, Exec(body, w).0))
  {
    hide LeftAlone, SameEnd;
    var failing := Transaction(body);
    assert Exec(failing, w) == Exec(body, w) && PropagatesIn(failing, w);
    ReentrantIsNested(failing, w, w);
    EndIsRun(Exec(failing, w), Exec(Nested(failing), w), FailsAlike(failing, w));
    Dropped(failing, w);
    Dropped(Nested(failing), w);
  }

  lemma Dropped(failing: Prog, w: World)
    requires Exec(failing, w).1.Err?
    ensures var (w1, outcome) := Exec(failing, w);
            Exec(Catch(failing, Skip), w) == (w1.(history := w1.history + [Failed(outcome.error)]), Ok)
  {
  }

  function Inline(items: seq<Prog>): Prog {
    if items == [] then Skip else Seq(items[0], Inline(items[1..]))
  }

  // The array form is its elements awaited one after another.
  lemma {:induction false} ArrayFormIsInline(items: seq<Prog>, w: World)
    ensures Exec(Batch(items), w) == Exec(Inline(items), w)
  {
    if items != [] {
      var (w1, outcome) := Exec(items[0], w);
      if outcome.Ok? { ArrayFormIsInline(items[1..], w1); }
      assert Exec(Batch(items[1..]), w1) == ExecAll(items[1..], w1);
    }
  }

  // A body that writes one row and then fails.
  function WriteThenFail(a: string, key: Key): Prog {
    Seq(Raw((_, _) => Write(map[key := Row(a, map[])], map[], {}, Number(1))), Throw(_ => App(BadRequest)))
  }

  lemma WriteThenFailRuns(a: string, key: Key)
    requires a != "" && key.model != Tenant
    ensures var (w1, outcome) := Exec(WriteThenFail(a, key), Entered(Some(a), Idle(map[])));
            && outcome == Err(App(BadRequest))
            && w1.tx.value.rows == map[key := Row(a, map[])]
            && !w1.tx.value.aborted
  {
    var w := Entered(Some(a), Idle(map[]));
    var p := WriteThenFail(a, key);
    InsertOne(w, RawOn(p.first.sql, w.history), key, Row(a, map[]));
    var w1 := Exec(p.first, w).0;
    assert Exec(p, w) == Exec(p.second, w1);
  }

  // Propagation matters: a `$transaction` whose failure is caught on the spot keeps its
  // writes when it is re-entrant, and would have lost them if it were really nested.
  lemma CaughtTransactionKeepsItsWrites(a: string, key: Key)
    requires a != "" && key.model != Tenant
    ensures var body := Catch(Transaction(WriteThenFail(a, key)), Skip);
            && !PropagatesIn(body, Entered(Some(a), Idle(map[])))
            && RunOwner(Some(a), body, Idle(map[])).0.committed == map[key := Row(a, map[])]
            && RunOwner(Some(a), Nested(body), Idle(map[])).0.committed == map[]
  {
    hide PropagatesIn, Exec, RunOwner;
    WriteThenFailRuns(a, key);
    assert key in map[key := Row(a, map[])];
    CaughtWrites(WriteThenFail(a, key), a);
  }

  lemma CaughtWrites(fails: Prog, a: string)
    requires Plain(fails) && Propagates(fails)
    requires var (w1, outcome) := Exec(fails, Entered(Some(a), Idle(map[])));
             outcome.Err? && !w1.tx.value.aborted && w1.tx.value.rows != map[]
    ensures var body := Catch(Transaction(fails), Skip);
            && !PropagatesIn(body, Entered(Some(a), Idle(map[])))
            && RunOwner(Some(a), body, Idle(map[])).0.committed
               == Exec(fails, Entered(Some(a), Idle(map[]))).0.tx.value.rows
            && RunOwner(Some(a), Nested(body), Idle(map[])).0.committed == map[]
  {
    hide PropagatesIn, FailsAlike, Alike, RunOwner, Exec, Plain, Propagates;
    var w := Entered(Some(a), Idle(map[]));
    PropagatesSuffices(fails, w);
    CaughtTransactionExactly(fails, w);
    PlainIsNested(fails);
    InPlace(fails, w);
    Dropped(Transaction(fails), w);
    CaughtAttemptLoses(fails, w);
    Commits(a, Catch(Transaction(fails), Skip));
    Commits(a, Catch(Attempt(fails), Skip));
  }

  lemma InPlace(body: Prog, w: World)
    ensures Exec(Transaction(body), w) == Exec(body, w)
  {
  }

  lemma Commits(a: string, body: Prog)
    ensures var (w1, outcome) := Exec(body, Entered(Some(a), Idle(map[])));
            outcome.Ok? && !w1.tx.value.aborted ==> RunOwner(Some(a), body, Idle(map[])).0.committed == w1.tx.value.rows
  {
    hide Exec;
  }

  lemma CaughtAttemptLoses(fails: Prog, w: World)
    requires Sound(w) && w.tx.Some? && !w.tx.value.aborted && Exec(fails, w).1.Err?
    ensures var (w1, outcome) := Exec(Catch(Attempt(fails), Skip), w);
            outcome == Ok && w1.tx.value.rows == w.tx.value.rows && !w1.tx.value.aborted && w1.committed == w.committed
  {
    AttemptAgainstInline(fails, w);
    ExecDisciplined(Attempt(fails), w);
  }

  lemma InsertOne(w: World, statement: Statement, key: Key, row: Row)
    requires w.tx.Some? && !w.tx.value.aborted && w.tx.value.rows == map[]
    requires key.model != Tenant && row.tenant == w.tx.value.session != ""
    requires statement.RawStatement? && statement.effect(map[]) == Write(map[key := row], map[], {}, Number(1))
    ensures Issue(w, statement).1 == Ok
    ensures Issue(w, statement).0.tx.value.rows == map[key := row]
    ensures |Issue(w, statement).0.tx.value.writes| == |w.tx.value.writes| + 1
    ensures !Issue(w, statement).0.tx.value.aborted
    ensures var w1 := Issue(w, statement).0;
            w1 == w.(tx := w1.tx, history := w1.history, observed := w1.observed)
  {
    var visible := Visible(map[], w.tx.value.session);
    assert Policed(visible) == map[];
    assert Policed(map[key := row]) == map[key := row];
    var effect := EffectUnder(map[], w.tx.value.session, statement);
    assert effect.inserts == map[key := row] && effect.updates == map[] && effect.deletes == {};
    assert Overwrite(map[], effect) == map[key := row];
    assert key in effect.inserts;
  }
}
