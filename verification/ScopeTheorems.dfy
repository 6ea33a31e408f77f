// Guarantees of whole runs: the two tenancy layers agree, events are released once
// and only after their owner commits, and a released event describes a durable write.
module ScopeTheorems {
  import opened Values
  import opened Database
  import opened Scope
  import opened ScopeLaws
  import opened AttemptLaw

  // No scope open, nothing queued.
  function Idle(committed: Rows): World {
    World(committed, None, None, [], [], 0, [], [], [])
  }

  // ----- Layer agreement --------------------------------------------------------------

  // Whatever a program does, from outside any scope, every statement it issues on an
  // open transaction finds it aborted or set to the tenant the store names.
  lemma LayersAgree(p: Prog, committed: Rows)
    ensures var after := Exec(p, Idle(committed)).0;
            && AllAgree(after.observed)
            && after.store.None? && after.tx.None? && after.pending == []
  {
    ExecDisciplined(p, Idle(committed));
    OutsideKeepsQueue(p, Idle(committed));
  }

  lemma {:induction false} OutsideKeepsQueue(p: Prog, w: World)
    requires Sound(w) && w.tx.None?
    ensures Exec(p, w).0.pending == w.pending
    decreases p, 1
  {
    match p
    case Catch(body, handler) =>
      ExecDisciplined(body, w);
      OutsideKeepsQueue(body, w);
      var (w1, outcome) := Exec(body, w);
      if outcome.Err? { OutsideKeepsQueue(handler, w1.(history := w1.history + [Failed(outcome.error)])); }
    case Seq(first, second) =>
      ExecDisciplined(first, w);
      OutsideKeepsQueue(first, w);
      if Exec(first, w).1.Ok? { OutsideKeepsQueue(second, Exec(first, w).0); }
    case Branch(test, yes, no) =>
      if test(w.history) { OutsideKeepsQueue(yes, w); } else { OutsideKeepsQueue(no, w); }
    case Attempt(body) => OutsideKeepsQueue(body, w);
    case Transaction(body) => OutsideKeepsQueue(body, w);
    case Batch(items) => AllKeepQueue(items, w);
    case _ =>
  }

  lemma {:induction false} AllKeepQueue(items: seq<Prog>, w: World)
    requires Sound(w) && w.tx.None?
    ensures ExecAll(items, w).0.pending == w.pending
    decreases items, 0
  {
    if items != [] {
      ExecDisciplined(items[0], w);
      OutsideKeepsQueue(items[0], w);
      if Exec(items[0], w).1.Ok? { AllKeepQueue(items[1..], Exec(items[0], w).0); }
    }
  }

  // The agreement is not trivial. A database error inside a nested scope defeats the
  // restore in `finally`, so the session still names the inner tenant when the outer
  // store is back; an `attempt` around the nested scope repairs it.
  lemma RestoreFailsThenAttemptRepairs(outer: string, inner: string, committed: Rows)
    requires outer != "" && inner != "" && outer != inner
    ensures var nested := Run(_ => Some(inner), Raw((_, _) => Refuse(POLICY_VIOLATION)));
            var w := Idle(committed).(store := Some(Store(Some(outer))),
                                      tx := Some(Txn(committed, [], outer, false, [])));
            var bare := Exec(nested, w).0;
            var guarded := Exec(Attempt(nested), w).0;
            && bare.store == w.store && bare.tx.value.session == inner && bare.tx.value.aborted
            && guarded.store == w.store && guarded.tx.value.session == outer && !guarded.tx.value.aborted
  {
    var nested := Run(_ => Some(inner), Raw((_, _) => Refuse(POLICY_VIOLATION)));
    var w := Idle(committed).(store := Some(Store(Some(outer))), tx := Some(Txn(committed, [], outer, false, [])));
    assert Exec(nested, w) == RunNested(Some(inner), nested.body, w);
    AttemptAgainstInline(nested, w);
  }

  // ----- Release ----------------------------------------------------------------------

  // Inside a transaction, what is emitted is what is queued, in the same order.
  predicate Queued(w: World, w': World) {
    && w.pending <= w'.pending
    && w.emitted <= w'.emitted
    && Events(w'.pending[|w.pending|..]) == w'.emitted[|w.emitted|..]
  }

  lemma QueuedTrans(w: World, w1: World, w2: World)
    requires Queued(w, w1) && Queued(w1, w2)
    ensures Queued(w, w2)
  {
    var first, second := w1.pending[|w.pending|..], w2.pending[|w1.pending|..];
    assert w2.pending[|w.pending|..] == first + second;
    assert Events(first + second) == Events(first) + Events(second);
    assert w2.emitted[|w.emitted|..] == w1.emitted[|w.emitted|..] + w2.emitted[|w1.emitted|..];
  }

  lemma QueuedSelf(w: World)
    ensures Queued(w, w)
  {
  }

  // Nothing but the queue and what was emitted matters.
  lemma QueuedBeside(w: World, w1: World, v: World, v1: World)
    requires Queued(w, w1) && v.pending == w.pending && v.emitted == w.emitted
    requires v1.pending == w1.pending && v1.emitted == w1.emitted
    ensures Queued(v, v1)
  {
  }

  lemma SimpleQueued(p: Prog, w: World)
    requires Sound(w) && w.tx.Some? && (p.Skip? || p.Query? || p.Raw? || p.Emit? || p.Throw?)
    ensures Queued(w, Exec(p, w).0)
  {
  }

  lemma {:induction false} EmittedIsQueued(p: Prog, w: World)
    requires Sound(w) && w.tx.Some?
    ensures Queued(w, Exec(p, w).0)
    decreases p, 1
  {
    hide Queued, Issue, IssueQuery, EmitEvent;
    match p
    case Catch(body, handler) =>
      ExecDisciplined(body, w);
      EmittedIsQueued(body, w);
      var (w1, outcome) := Exec(body, w);
      if outcome.Err? {
        var w2 := w1.(history := w1.history + [Failed(outcome.error)]);
        EmittedIsQueued(handler, w2);
        QueuedBeside(w, w1, w, w2);
        QueuedTrans(w, w2, Exec(handler, w2).0);
      }
    case Seq(first, second) =>
      ExecDisciplined(first, w);
      EmittedIsQueued(first, w);
      if Exec(first, w).1.Ok? {
        EmittedIsQueued(second, Exec(first, w).0);
        QueuedTrans(w, Exec(first, w).0, Exec(second, Exec(first, w).0).0);
      }
    case Branch(test, yes, no) =>
      if test(w.history) { EmittedIsQueued(yes, w); } else { EmittedIsQueued(no, w); }
    case Run(_, _) => RunQueued(p, w);
    case Attempt(_) => AttemptQueued(p, w);
    case Transaction(body) => EmittedIsQueued(body, w);
    case Batch(items) => AllQueued(items, w);
    case _ => SimpleQueued(p, w);
  }

  lemma {:induction false} RunQueued(p: Prog, w: World)
    requires p.Run? && Sound(w) && w.tx.Some?
    ensures Queued(w, Exec(p, w).0)
    decreases p, 0
  {
    hide Queued, Exec;
    QueuedSelf(w);
    RunUnfolds(p.tenant, p.body, w);
    var tenantId := p.tenant(w.history);
    if tenantId != Some("") && !w.tx.value.aborted {
      var inner := w.(tx := Some(SetTenant(w.tx.value, tenantId).0), store := Some(Store(tenantId)));
      EmittedIsQueued(p.body, inner);
      QueuedBeside(inner, Exec(p.body, inner).0, w, RunNested(tenantId, p.body, w).0);
    }
  }

  lemma {:induction false} AttemptQueued(p: Prog, w: World)
    requires p.Attempt? && Sound(w) && w.tx.Some?
    ensures Queued(w, Exec(p, w).0)
    decreases p, 0
  {
    hide Queued, Exec;
    AttemptUnfolds(p.body, w);
    if w.tx.value.aborted {
      QueuedSelf(w);
      QueuedBeside(w, w, w, ExecAttempt(p.body, w).0);
    } else {
      AttemptSteps(p.body, w);
      var inside := EnteredAttempt(w);
      EmittedIsQueued(p.body, inside);
      QueuedBeside(inside, Exec(p.body, inside).0, w, ExecAttempt(p.body, w).0);
    }
  }

  lemma {:induction false} AllQueued(items: seq<Prog>, w: World)
    requires Sound(w) && w.tx.Some?
    ensures Queued(w, ExecAll(items, w).0)
    decreases items, 0
  {
    if items != [] {
      ExecDisciplined(items[0], w);
      EmittedIsQueued(items[0], w);
      if Exec(items[0], w).1.Ok? {
        AllQueued(items[1..], Exec(items[0], w).0);
        QueuedTrans(w, Exec(items[0], w).0, ExecAll(items[1..], Exec(items[0], w).0).0);
      }
    }
  }

  // The scope that owns the transaction releases exactly what was emitted inside it,
  // at any depth, once each and in program order, if it commits; nothing otherwise.
  lemma OwnerReleasesWhatWasEmitted(tenant: History -> Option<string>, body: Prog, w: World)
    requires Sound(w) && w.tx.None?
    ensures var (after, outcome) := Exec(Run(tenant, body), w);
            && w.emitted <= after.emitted
            && after.released == w.released + (if outcome.Ok? then after.emitted[|w.emitted|..] else [])
  {
    hide Exec;
    RunUnfolds(tenant, body, w);
    var tenantId := tenant(w.history);
    if tenantId != Some("") {
      var entered := Entered(tenantId, w);
      ExecDisciplined(body, entered);
      EmittedIsQueued(body, entered);
      var inner := Exec(body, entered).0;
      assert inner.pending[0..] == inner.pending;
    }
  }

  function Entered(tenantId: Option<string>, w: World): World {
    w.(tx := Some(Txn(w.committed, [], Setting(tenantId), false, [])), store := Some(Store(tenantId)), pending := [])
  }

  // The world a nested scope's body starts in.
  function Repointed(tenantId: Option<string>, w: World): World
    requires w.tx.Some?
  {
    w.(tx := Some(SetTenant(w.tx.value, tenantId).0), store := Some(Store(tenantId)))
  }

  // While a transaction is open nothing is released and nothing becomes durable.
  lemma NothingLeavesEarly(p: Prog, w: World)
    requires Sound(w) && w.tx.Some?
    ensures Exec(p, w).0.released == w.released && Exec(p, w).0.committed == w.committed
  {
    ExecDisciplined(p, w);
  }
}
