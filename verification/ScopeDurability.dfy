// When a released event describes a durable write: what a failed `attempt` and a swallowed
// database error do to the queue. src/tenancy/tenant-scope.service.ts.
module ScopeDurability {
  import opened Values
  import opened Database
  import opened TenantExtension
  import opened Scope
  import opened ScopeLaws
  import opened AttemptLaw
  import opened ScopeTheorems

  // ----- Durability --------------------------------------------------------------------

  function Replay(base: Rows, writes: seq<Stamped>): Rows {
    if writes == [] then base
    else
      var before := Replay(base, writes[..|writes| - 1]);
      var last := writes[|writes| - 1].effect;
      if last.Write? then Overwrite(before, last) else before
  }

  // The working rows are the committed ones with the transaction's writes applied.
  predicate Replayed(w: World)
    requires w.tx.Some?
  {
    w.tx.value.rows == Replay(w.committed, w.tx.value.writes)
  }

  predicate EmitFree(p: Prog) {
    match p
    case Emit(_) => false
    case Catch(body, handler) => EmitFree(body) && EmitFree(handler)
    case Seq(first, second) => EmitFree(first) && EmitFree(second)
    case Branch(_, yes, no) => EmitFree(yes) && EmitFree(no)
    case Run(_, body) => EmitFree(body)
    case Attempt(body) => EmitFree(body)
    case Transaction(body) => EmitFree(body)
    case Batch(items) => forall i | 0 <= i < |items| :: EmitFree(items[i])
    case _ => true
  }

  // No event is raised inside an `attempt`, whose failure would not unqueue it.
  predicate QuietAttempts(p: Prog) {
    match p
    case Catch(body, handler) => QuietAttempts(body) && QuietAttempts(handler)
    case Seq(first, second) => QuietAttempts(first) && QuietAttempts(second)
    case Branch(_, yes, no) => QuietAttempts(yes) && QuietAttempts(no)
    case Run(_, body) => QuietAttempts(body)
    case Attempt(body) => EmitFree(body)
    case Transaction(body) => QuietAttempts(body)
    case Batch(items) => forall i | 0 <= i < |items| :: QuietAttempts(items[i])
    case _ => true
  }

  // Along this run, an `attempt` that fails has raised events only before it wrote anything.
  predicate QuietIn(p: Prog, w: World)
    requires w.tx.Some?
    decreases p, 1
  {
    match p
    case Catch(body, handler) =>
      var (w1, outcome) := Exec(body, w);
      QuietIn(body, w) && (outcome.Err? ==> QuietIn(handler, w1.(history := w1.history + [Failed(outcome.error)])))
    case Seq(first, second) => QuietIn(first, w) && (Exec(first, w).1.Ok? ==> QuietIn(second, Exec(first, w).0))
    case Branch(test, yes, no) => if test(w.history) then QuietIn(yes, w) else QuietIn(no, w)
    case Run(tenant, body) =>
      tenant(w.history) == Some("") || w.tx.value.aborted || QuietIn(body, Repointed(tenant(w.history), w))
    case Attempt(body) =>
      w.tx.value.aborted || (
        var (w1, outcome) := Exec(body, EnteredAttempt(w));
        if outcome.Ok? && !w1.tx.value.aborted then QuietIn(body, EnteredAttempt(w))
        else forall i | |w.pending| <= i < |w1.pending| :: w1.pending[i].after == w.tx.value.writes)
    case Transaction(body) => QuietIn(body, w)
    case Batch(items) => AllQuietIn(items, w)
    case _ => true
  }

  predicate AllQuietIn(items: seq<Prog>, w: World)
    requires w.tx.Some?
    decreases items, 0
  {
    items == [] || (QuietIn(items[0], w) && (Exec(items[0], w).1.Ok? ==> AllQuietIn(items[1..], Exec(items[0], w).0)))
  }

  // ----- What a run adds ---------------------------------------------------------------------

  // From position `from` on, what was written was written between the two worlds.
  predicate WrittenBetween(writes: seq<Stamped>, from: nat, w: World, w': World) {
    forall k | from <= k < |writes| :: |w.observed| <= writes[k].at < |w'.observed|
  }

  // Writes are added at the end and are recent, and so are those a new event knows of.
  predicate Grows(w: World, w': World)
    requires w.tx.Some?
  {
    && w'.tx.Some? && w'.committed == w.committed
    && |w.observed| <= |w'.observed|
    && (Replayed(w) ==> Replayed(w'))
    && w.tx.value.writes <= w'.tx.value.writes
    && WrittenBetween(w'.tx.value.writes, |w.tx.value.writes|, w, w')
    && w.pending <= w'.pending
    && forall i | |w.pending| <= i < |w'.pending| ::
         && w.tx.value.writes <= w'.pending[i].after
         && WrittenBetween(w'.pending[i].after, |w.tx.value.writes|, w, w')
  }

  // Each event raised in between was raised after a prefix of the writes that are left.
  predicate MarkedSince(w: World, w': World)
    requires w'.tx.Some?
  {
    forall i | |w.pending| <= i < |w'.pending| :: w'.pending[i].after <= w'.tx.value.writes
  }

  lemma GrowsSelf(w: World)
    requires w.tx.Some?
    ensures Grows(w, w) && MarkedSince(w, w)
  {
  }

  lemma GrowsTrans(w: World, w1: World, w2: World)
    requires w.tx.Some? && Grows(w, w1) && Grows(w1, w2)
    ensures Grows(w, w2)
  {
    hide Replayed;
    var writes := w2.tx.value.writes;
    forall k | |w.tx.value.writes| <= k < |writes| ensures |w.observed| <= writes[k].at < |w2.observed| {
      if k < |w1.tx.value.writes| { assert writes[k] == w1.tx.value.writes[k]; }
    }
    forall i | |w.pending| <= i < |w2.pending|
      ensures w.tx.value.writes <= w2.pending[i].after
      ensures WrittenBetween(w2.pending[i].after, |w.tx.value.writes|, w, w2)
    {
      var after := w2.pending[i].after;
      if i < |w1.pending| {
        assert w2.pending[i] == w1.pending[i];
      } else {
        forall k | |w.tx.value.writes| <= k < |after| ensures |w.observed| <= after[k].at < |w2.observed| {
          if k < |w1.tx.value.writes| { assert after[k] == w1.tx.value.writes[k]; }
        }
      }
    }
  }

  // An event is never lost by what comes later, and never found again either: a write that
  // comes later is none of those the event knows of.
  lemma MarksJoin(w: World, w1: World, w2: World)
    requires w.tx.Some? && Grows(w, w1) && Grows(w1, w2)
    ensures MarkedSince(w, w2) <==> MarkedSince(w, w1) && MarkedSince(w1, w2)
  {
    hide Replayed;
    forall i | |w.pending| <= i < |w1.pending|
      ensures w1.pending[i].after <= w1.tx.value.writes <==> w2.pending[i].after <= w2.tx.value.writes
    {
      var after := w1.pending[i].after;
      assert w2.pending[i].after == after;
      var k := |w1.tx.value.writes|;
      assert k < |after| ==> after[k].at < |w1.observed|;
      assert k < |w2.tx.value.writes| ==> w2.tx.value.writes[k].at >= |w1.observed|;
    }
  }

  // ----- Every run -------------------------------------------------------------------------------

  lemma NoChange(rows: Rows, effect: Effect)
    requires effect.Write? && !Changes(effect)
    ensures Overwrite(rows, effect) == rows
  {
  }

  lemma RecordedReplays(base: Rows, writes: seq<Stamped>, effect: Effect, at: nat)
    requires effect.Write?
    ensures Replay(base, Recorded(writes, effect, at)) == Overwrite(Replay(base, writes), effect)
  {
    if Changes(effect) {
      var after := writes + [Stamped(effect, at)];
      assert after[..|after| - 1] == writes;
    } else {
      NoChange(Replay(base, writes), effect);
    }
  }

  lemma IssueGrows(w: World, statement: Statement)
    requires Sound(w) && w.tx.Some?
    ensures Grows(w, Issue(w, statement).0) && Issue(w, statement).0.pending == w.pending
  {
    hide EffectUnder, Refusal, Overwrite, Replay, Changes;
    var tx := w.tx.value;
    var effect := EffectUnder(tx.rows, tx.session, statement);
    if !tx.aborted && Refusal(tx.rows, tx.session, effect).None? {
      RefusesRefusals(tx.rows, tx.session, effect);
      RecordedReplays(w.committed, tx.writes, effect, |w.observed|);
    }
  }

  lemma RefusesRefusals(rows: Rows, session: string, effect: Effect)
    requires Refusal(rows, session, effect).None?
    ensures effect.Write?
  {
  }

  // The programs without a body of their own.
  predicate Simple(p: Prog) {
    p.Skip? || p.Query? || p.Raw? || p.Emit? || p.Throw?
  }

  lemma SimpleGrows(p: Prog, w: World)
    requires Sound(w) && w.tx.Some? && Simple(p)
    ensures Grows(w, Exec(p, w).0) && MarkedSince(w, Exec(p, w).0)
  {
    hide Issue, Replay;
    match p
    case Query(call) =>
      GrowsSelf(w);
      if Intercept(call(w.history), CurrentScope(w)).Success? {
        IssueGrows(w, ModelStatement(Intercept(call(w.history), CurrentScope(w)).value));
      }
    case Raw(sql) => IssueGrows(w, RawOn(sql, w.history));
    case _ =>
  }

  // Equal in everything `Grows` looks at.
  predicate Beside(w: World, v: World) {
    && w.committed == v.committed && w.pending == v.pending && w.observed == v.observed
    && w.tx.Some? && v.tx.Some?
    && w.tx.value.rows == v.tx.value.rows && w.tx.value.writes == v.tx.value.writes
  }

  lemma GrowsBeside(w: World, w1: World, v: World, v1: World)
    requires Beside(w, v) && Beside(w1, v1) && Grows(w, w1)
    ensures Grows(v, v1) && (MarkedSince(v, v1) <==> MarkedSince(w, w1))
  {
    hide Replay;
  }

  // An `attempt` that fails leaves the writes it found and the events it raised.
  lemma UndoneGrows(w: World, w1: World, outcome: Outcome)
    requires w.tx.Some? && Grows(EnteredAttempt(w), w1) && (outcome.Err? || w1.tx.value.aborted)
    ensures var w' := AttemptEnd(w, w1, outcome).0;
            && Grows(w, w')
            && (MarkedSince(w, w') <==>
                  forall i | |w.pending| <= i < |w1.pending| :: w1.pending[i].after == w.tx.value.writes)
  {
    hide Replay;
    var w' := AttemptEnd(w, w1, outcome).0;
    assert w'.tx.value.writes == w.tx.value.writes && w'.pending == w1.pending;
    forall i | |w.pending| <= i < |w1.pending|
      ensures w1.pending[i].after <= w.tx.value.writes <==> w1.pending[i].after == w.tx.value.writes
    {
      assert w.tx.value.writes <= w1.pending[i].after;
    }
  }

  lemma {:induction false} ExecMarks(p: Prog, w: World)
    requires Sound(w) && w.tx.Some?
    ensures Grows(w, Exec(p, w).0)
    ensures MarkedSince(w, Exec(p, w).0) <==> QuietIn(p, w)
    decreases p, 1
  {
    hide Grows, MarkedSince, Issue, IssueQuery, EmitEvent;
    match p
    case Catch(_, _) => CatchMarks(p, w);
    case Seq(first, second) =>
      ExecDisciplined(first, w);
      ExecMarks(first, w);
      if Exec(first, w).1.Ok? {
        var w1 := Exec(first, w).0;
        ExecMarks(second, w1);
        GrowsTrans(w, w1, Exec(second, w1).0);
        MarksJoin(w, w1, Exec(second, w1).0);
      }
    case Branch(test, yes, no) =>
      if test(w.history) { ExecMarks(yes, w); } else { ExecMarks(no, w); }
    case Run(_, _) => RunMarks(p, w);
    case Attempt(_) => AttemptMarks(p, w);
    case Transaction(body) => ExecMarks(body, w);
    case Batch(items) => AllMarks(items, w);
    case _ => SimpleGrows(p, w);
  }

  lemma {:induction false} CatchMarks(p: Prog, w: World)
    requires p.Catch? && Sound(w) && w.tx.Some?
    ensures Grows(w, Exec(p, w).0)
    ensures MarkedSince(w, Exec(p, w).0) <==> QuietIn(p, w)
    decreases p, 0
  {
    hide Grows, MarkedSince;
    ExecDisciplined(p.body, w);
    ExecMarks(p.body, w);
    var (w1, outcome) := Exec(p.body, w);
    if outcome.Err? {
      var caught := w1.(history := w1.history + [Failed(outcome.error)]);
      ExecMarks(p.handler, caught);
      GrowsBeside(w, w1, w, caught);
      var w2 := Exec(p.handler, caught).0;
      GrowsTrans(w, caught, w2);
      MarksJoin(w, caught, w2);
    }
  }

  lemma {:induction false} RunMarks(p: Prog, w: World)
    requires p.Run? && Sound(w) && w.tx.Some?
    ensures Grows(w, Exec(p, w).0)
    ensures MarkedSince(w, Exec(p, w).0) <==> QuietIn(p, w)
    decreases p, 0
  {
    hide Grows, MarkedSince, Exec;
    GrowsSelf(w);
    RunUnfolds(p.tenant, p.body, w);
    var tenantId := p.tenant(w.history);
    if tenantId != Some("") && !w.tx.value.aborted {
      var inner := Repointed(tenantId, w);
      ExecMarks(p.body, inner);
      GrowsBeside(inner, Exec(p.body, inner).0, w, RunNested(tenantId, p.body, w).0);
    }
  }

  lemma {:induction false} AttemptMarks(p: Prog, w: World)
    requires p.Attempt? && Sound(w) && w.tx.Some?
    ensures Grows(w, Exec(p, w).0)
    ensures MarkedSince(w, Exec(p, w).0) <==> QuietIn(p, w)
    decreases p, 0
  {
    hide Grows, MarkedSince, Exec, SettleAttempt;
    AttemptUnfolds(p.body, w);
    if w.tx.value.aborted {
      GrowsSelf(w);
      GrowsBeside(w, w, w, ExecAttempt(p.body, w).0);
    } else {
      AttemptSteps(p.body, w);
      var inside := EnteredAttempt(w);
      ExecMarks(p.body, inside);
      var (w1, outcome) := Exec(p.body, inside);
      if outcome.Ok? && !w1.tx.value.aborted {
        GrowsBeside(inside, w1, w, AttemptEnd(w, w1, outcome).0);
      } else {
        UndoneGrows(w, w1, outcome);
      }
    }
  }

  lemma {:induction false} AllMarks(items: seq<Prog>, w: World)
    requires Sound(w) && w.tx.Some?
    ensures Grows(w, ExecAll(items, w).0)
    ensures MarkedSince(w, ExecAll(items, w).0) <==> AllQuietIn(items, w)
    decreases items, 0
  {
    hide Grows, MarkedSince;
    if items == [] {
      GrowsSelf(w);
    } else {
      ExecDisciplined(items[0], w);
      ExecMarks(items[0], w);
      if Exec(items[0], w).1.Ok? {
        var w1 := Exec(items[0], w).0;
        AllMarks(items[1..], w1);
        GrowsTrans(w, w1, ExecAll(items[1..], w1).0);
        MarksJoin(w, w1, ExecAll(items[1..], w1).0);
      }
    }
  }

  // ----- A condition that can be read off the program ------------------------------------

  lemma {:induction false} EmitFreeQueuesNothing(p: Prog, w: World)
    requires Sound(w) && w.tx.Some? && EmitFree(p)
    ensures Exec(p, w).0.pending == w.pending
    decreases p, 1
  {
    match p
    case Catch(body, handler) =>
      ExecDisciplined(body, w);
      EmitFreeQueuesNothing(body, w);
      var (w1, outcome) := Exec(body, w);
      if outcome.Err? { EmitFreeQueuesNothing(handler, w1.(history := w1.history + [Failed(outcome.error)])); }
    case Seq(first, second) =>
      ExecDisciplined(first, w);
      EmitFreeQueuesNothing(first, w);
      if Exec(first, w).1.Ok? { EmitFreeQueuesNothing(second, Exec(first, w).0); }
    case Branch(test, yes, no) =>
      if test(w.history) { EmitFreeQueuesNothing(yes, w); } else { EmitFreeQueuesNothing(no, w); }
    case Run(tenant, body) =>
      var tenantId := tenant(w.history);
      if tenantId != Some("") && !w.tx.value.aborted { EmitFreeQueuesNothing(body, Repointed(tenantId, w)); }
    case Attempt(body) =>
      if !w.tx.value.aborted {
        AttemptSteps(body, w);
        EmitFreeQueuesNothing(body, EnteredAttempt(w));
      }
    case Transaction(body) => EmitFreeQueuesNothing(body, w);
    case Batch(items) => AllQueueNothing(items, w);
    case _ =>
  }

  lemma {:induction false} AllQueueNothing(items: seq<Prog>, w: World)
    requires Sound(w) && w.tx.Some? && forall i | 0 <= i < |items| :: EmitFree(items[i])
    ensures ExecAll(items, w).0.pending == w.pending
    decreases items, 0
  {
    if items != [] {
      ExecDisciplined(items[0], w);
      EmitFreeQueuesNothing(items[0], w);
      if Exec(items[0], w).1.Ok? { AllQueueNothing(items[1..], Exec(items[0], w).0); }
    }
  }

  lemma EmitFreeIsQuiet(p: Prog)
    requires EmitFree(p)
    ensures QuietAttempts(p)
  {
  }

  lemma {:induction false} QuietAttemptsSuffice(p: Prog, w: World)
    requires Sound(w) && w.tx.Some? && QuietAttempts(p)
    ensures QuietIn(p, w)
    decreases p, 1
  {
    match p
    case Catch(body, handler) =>
      ExecDisciplined(body, w);
      QuietAttemptsSuffice(body, w);
      var (w1, outcome) := Exec(body, w);
      if outcome.Err? { QuietAttemptsSuffice(handler, w1.(history := w1.history + [Failed(outcome.error)])); }
    case Seq(first, second) =>
      ExecDisciplined(first, w);
      QuietAttemptsSuffice(first, w);
      if Exec(first, w).1.Ok? { QuietAttemptsSuffice(second, Exec(first, w).0); }
    case Branch(test, yes, no) =>
      if test(w.history) { QuietAttemptsSuffice(yes, w); } else { QuietAttemptsSuffice(no, w); }
    case Run(tenant, body) =>
      var tenantId := tenant(w.history);
      if tenantId != Some("") && !w.tx.value.aborted { QuietAttemptsSuffice(body, Repointed(tenantId, w)); }
    case Attempt(body) =>
      if !w.tx.value.aborted {
        EmitFreeIsQuiet(body);
        EmitFreeQueuesNothing(body, EnteredAttempt(w));
        QuietAttemptsSuffice(body, EnteredAttempt(w));
      }
    case Transaction(body) => QuietAttemptsSuffice(body, w);
    case Batch(items) => AllQuietSuffice(items, w);
    case _ =>
  }

  lemma {:induction false} AllQuietSuffice(items: seq<Prog>, w: World)
    requires Sound(w) && w.tx.Some? && forall i | 0 <= i < |items| :: QuietAttempts(items[i])
    ensures AllQuietIn(items, w)
    decreases items, 0
  {
    if items != [] {
      ExecDisciplined(items[0], w);
      QuietAttemptsSuffice(items[0], w);
      if Exec(items[0], w).1.Ok? { AllQuietSuffice(items[1..], Exec(items[0], w).0); }
    }
  }

  // Whatever the replies, it ends in an error.
  predicate NeverSucceeds(p: Prog) {
    match p
    case Throw(_) => true
    case Catch(body, handler) => NeverSucceeds(body) && NeverSucceeds(handler)
    case Seq(first, second) => NeverSucceeds(first) || NeverSucceeds(second)
    case Branch(_, yes, no) => NeverSucceeds(yes) && NeverSucceeds(no)
    case Run(_, body) => NeverSucceeds(body)
    case Attempt(body) => NeverSucceeds(body)
    case Transaction(body) => NeverSucceeds(body)
    case _ => false
  }

  lemma {:induction false} NeverSucceedsFails(p: Prog, w: World)
    requires NeverSucceeds(p)
    ensures Exec(p, w).1.Err?
    decreases p
  {
    match p
    case Catch(body, handler) =>
      NeverSucceedsFails(body, w);
      var (w1, outcome) := Exec(body, w);
      NeverSucceedsFails(handler, w1.(history := w1.history + [Failed(outcome.error)]));
    case Seq(first, second) =>
      if NeverSucceeds(first) { NeverSucceedsFails(first, w); }
      else if Exec(first, w).1.Ok? { NeverSucceedsFails(second, Exec(first, w).0); }
    case Branch(test, yes, no) =>
      if test(w.history) { NeverSucceedsFails(yes, w); } else { NeverSucceedsFails(no, w); }
    case Run(tenant, body) =>
      var tenantId := tenant(w.history);
      if w.tx.Some? { NeverSucceedsFails(body, Repointed(tenantId, w)); }
      NeverSucceedsFails(body, Entered(tenantId, w));
    case Attempt(body) =>
      NeverSucceedsFails(body, w);
      if w.tx.Some? { NeverSucceedsFails(body, EnteredAttempt(w)); }
    case Transaction(body) => NeverSucceedsFails(body, w);
    case _ =>
  }

  // What is caught is either around an `attempt`, or raised again as some error.
  predicate RecoversByAttempt(p: Prog) {
    match p
    case Catch(body, handler) =>
      || (body.Attempt? && RecoversByAttempt(handler))
      || (RecoversByAttempt(body) && NeverSucceeds(handler))
    case Seq(first, second) => RecoversByAttempt(first) && RecoversByAttempt(second)
    case Branch(_, yes, no) => RecoversByAttempt(yes) && RecoversByAttempt(no)
    case Run(_, body) => RecoversByAttempt(body)
    case Transaction(body) => RecoversByAttempt(body)
    case Batch(items) => forall i | 0 <= i < |items| :: RecoversByAttempt(items[i])
    case _ => true
  }

  lemma {:induction false} SuccessIsHealthy(p: Prog, w: World)
    requires Sound(w) && w.tx.Some? && !w.tx.value.aborted && RecoversByAttempt(p)
    ensures Exec(p, w).1.Ok? ==> !Exec(p, w).0.tx.value.aborted
    decreases p, 1
  {
    match p
    case Catch(body, handler) =>
      var (w1, outcome) := Exec(body, w);
      if body.Attempt? && RecoversByAttempt(handler) {
        ExecDisciplined(body, w);
        AttemptAgainstInline(body.body, w);
        if outcome.Err? { SuccessIsHealthy(handler, w1.(history := w1.history + [Failed(outcome.error)])); }
      } else if outcome.Ok? {
        SuccessIsHealthy(body, w);
      } else {
        NeverSucceedsFails(handler, w1.(history := w1.history + [Failed(outcome.error)]));
      }
    case Seq(first, second) =>
      ExecDisciplined(first, w);
      SuccessIsHealthy(first, w);
      if Exec(first, w).1.Ok? { SuccessIsHealthy(second, Exec(first, w).0); }
    case Branch(test, yes, no) =>
      if test(w.history) { SuccessIsHealthy(yes, w); } else { SuccessIsHealthy(no, w); }
    case Run(tenant, body) =>
      var tenantId := tenant(w.history);
      if tenantId != Some("") {
        SuccessIsHealthy(body, w.(tx := Some(SetTenant(w.tx.value, tenantId).0), store := Some(Store(tenantId))));
      }
    case Attempt(body) => AttemptAgainstInline(body, w);
    case Transaction(body) => SuccessIsHealthy(body, w);
    case Batch(items) => AllHealthy(items, w);
    case _ =>
  }

  lemma {:induction false} AllHealthy(items: seq<Prog>, w: World)
    requires Sound(w) && w.tx.Some? && !w.tx.value.aborted && forall i | 0 <= i < |items| :: RecoversByAttempt(items[i])
    ensures ExecAll(items, w).1.Ok? ==> !ExecAll(items, w).0.tx.value.aborted
    decreases items, 0
  {
    if items != [] {
      ExecDisciplined(items[0], w);
      SuccessIsHealthy(items[0], w);
      if Exec(items[0], w).1.Ok? { AllHealthy(items[1..], Exec(items[0], w).0); }
    }
  }

  // What of a transaction's writes its end makes durable.
  function Kept(tx: Txn): seq<Stamped> {
    if tx.aborted then [] else tx.writes
  }

  // A scope that succeeds commits the writes of its transaction, or none of them when the
  // transaction was left aborted. Each released event describes committed work, having been
  // raised after a prefix of exactly those writes, if and only if no failing `attempt` raised
  // one after writing, and, in an aborted transaction, none was raised after writing at all.
  lemma ReleasedEventsAreDurable(tenant: History -> Option<string>, body: Prog, w: World)
    requires Sound(w) && w.tx.None?
    requires Exec(Run(tenant, body), w).1.Ok?
    ensures var after := Exec(Run(tenant, body), w).0;
            var inner := Exec(body, Entered(tenant(w.history), w)).0;
            && after.released == w.released + Events(inner.pending)
            && after.committed == Replay(w.committed, Kept(inner.tx.value))
            && ((forall i | 0 <= i < |inner.pending| :: inner.pending[i].after <= Kept(inner.tx.value)) <==>
                  && QuietIn(body, Entered(tenant(w.history), w))
                  && (inner.tx.value.aborted ==> forall i | 0 <= i < |inner.pending| :: inner.pending[i].after == []))
  {
    hide Exec, QuietIn;
    RunUnfolds(tenant, body, w);
    var entered := Entered(tenant(w.history), w);
    ExecDisciplined(body, entered);
    ExecMarks(body, entered);
    var inner := Exec(body, entered).0;
    assert MarkedSince(entered, inner) <==>
      forall i | 0 <= i < |inner.pending| :: inner.pending[i].after <= inner.tx.value.writes;
  }

  // For a program that raises no event inside an `attempt` and catches nothing outside one
  // but to raise it again, the transaction ends healthy and every released event describes
  // committed work.
  lemma DisciplinedProgramsAreDurable(tenant: History -> Option<string>, body: Prog, w: World)
    requires Sound(w) && w.tx.None?
    requires QuietAttempts(body) && RecoversByAttempt(body)
    requires Exec(Run(tenant, body), w).1.Ok?
    ensures var after := Exec(Run(tenant, body), w).0;
            var inner := Exec(body, Entered(tenant(w.history), w)).0;
            && after.released == w.released + Events(inner.pending)
            && (forall i | 0 <= i < |inner.pending| :: inner.pending[i].after <= inner.tx.value.writes)
            && after.committed == Replay(w.committed, inner.tx.value.writes)
  {
    hide Exec, QuietAttempts, RecoversByAttempt, QuietIn;
    RunUnfolds(tenant, body, w);
    var entered := Entered(tenant(w.history), w);
    QuietAttemptsSuffice(body, entered);
    ReleasedEventsAreDurable(tenant, body, w);
    SuccessIsHealthy(body, entered);
  }
}
