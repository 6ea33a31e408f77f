// Both conditions on durable events are needed: programs whose scope succeeds and releases
// an event although nothing was committed.
module ScopeLimits {
  import opened Values
  import opened Filters
  import opened Database
  import opened Scope
  import opened ScopeLaws
  import opened AttemptLaw
  import opened ScopeTheorems
  import opened ScopeDurability
  import opened Reentrancy

  function WriteOne(a: string, key: Key): Prog {
    Raw((_, _) => Write(map[key := Row(a, map[])], map[], {}, Number(1)))
  }

  // Writes a row and announces it.
  function Announce(a: string, key: Key, event: Event): Prog {
    Seq(WriteOne(a, key), Emit(_ => event))
  }

  lemma Announces(a: string, key: Key, event: Event, w: World)
    requires a != "" && key.model != Tenant
    requires w.tx.Some? && !w.tx.value.aborted && w.tx.value.rows == map[] && w.tx.value.session == a && w.pending == []
    ensures var (w1, outcome) := Exec(Announce(a, key, event), w);
            && outcome == Ok
            && w1.tx.value.rows == map[key := Row(a, map[])] && !w1.tx.value.aborted
            && Events(w1.pending) == [event] && w1.committed == w.committed && w1.released == w.released
            && |w1.pending| == 1 && |w1.pending[0].after| == |w.tx.value.writes| + 1
  {
    hide Issue, EffectUnder;
    var p := WriteOne(a, key);
    InsertOne(w, RawOn(p.sql, w.history), key, Row(a, map[]));
    var w1 := Issue(w, RawOn(p.sql, w.history)).0;
    assert Exec(p, w) == (w1, Ok);
    SeqRuns(p, Emit(_ => event), w, w1);
    assert w1.pending == [];
  }

  // A failed `attempt` takes back its rows and keeps its events.
  function AnnounceThenFail(a: string, key: Key, event: Event): Prog {
    Catch(Attempt(Seq(Announce(a, key, event), Throw(_ => App(BadRequest)))), Skip)
  }

  lemma FailedAttemptKeepsItsEvents(a: string, key: Key, event: Event)
    requires a != "" && key.model != Tenant
    ensures var body := AnnounceThenFail(a, key, event);
            var (after, outcome) := RunOwner(Some(a), body, Idle(map[]));
            && RecoversByAttempt(body) && !QuietIn(body, Entered(Some(a), Idle(map[])))
            && outcome == Ok && after.committed == map[] && after.released == [event]
  {
    var w := Entered(Some(a), Idle(map[]));
    var attempted := Seq(Announce(a, key, event), Throw(_ => App(BadRequest)));
    var inside := EnteredAttempt(w);
    Announces(a, key, event, inside);
    var w1 := Exec(Announce(a, key, event), inside).0;
    SeqRuns(Announce(a, key, event), Throw(_ => App(BadRequest)), inside, w1);
    assert Exec(attempted, inside) == (w1, Err(App(BadRequest)));
    hide Announce;
    AttemptSteps(attempted, w);
    AttemptUnfolds(attempted, w);
    var w2 := AttemptEnd(w, w1, Err(App(BadRequest))).0;
    assert Exec(Attempt(attempted), w) == (w2, Err(App(BadRequest)));
    CaughtRuns(Attempt(attempted), w, w2, App(BadRequest));
    assert w2.tx.value.rows == map[] && Events(w2.pending) == [event];
    NotQuiet(attempted, w);
  }

  lemma CaughtRuns(body: Prog, w: World, w1: World, e: Error)
    requires Exec(body, w) == (w1, Err(e))
    ensures Exec(Catch(body, Skip), w) == (w1.(history := w1.history + [Failed(e)]), Ok)
  {
  }

  lemma NotQuiet(attempted: Prog, w: World)
    requires w.tx.Some? && !w.tx.value.aborted
    requires Exec(attempted, EnteredAttempt(w)).1.Err? && w.pending == []
    requires var raised := Exec(attempted, EnteredAttempt(w)).0.pending;
             |raised| > 0 && raised[0].after != w.tx.value.writes
    ensures !QuietIn(Catch(Attempt(attempted), Skip), w)
  {
    assert !QuietIn(Attempt(attempted), w);
  }

  // A database error caught outside an `attempt` leaves the transaction aborted: COMMIT
  // rolls it back without an error, and the queue is drained all the same.
  function AnnounceThenSwallow(a: string, key: Key, event: Event): Prog {
    Seq(Announce(a, key, event), Catch(Raw((_, _) => Refuse(POLICY_VIOLATION)), Skip))
  }

  lemma SwallowedErrorReleasesForNothing(a: string, key: Key, event: Event)
    requires a != "" && key.model != Tenant
    ensures var body := AnnounceThenSwallow(a, key, event);
            var (after, outcome) := RunOwner(Some(a), body, Idle(map[]));
            && QuietAttempts(body) && !RecoversByAttempt(body)
            && outcome == Ok && after.committed == map[] && after.released == [event]
  {
    var w := Entered(Some(a), Idle(map[]));
    Announces(a, key, event, w);
    var w1 := Exec(Announce(a, key, event), w).0;
    var refused := Raw((_, _) => Refuse(POLICY_VIOLATION));
    Refused(refused, w1);
    var w2 := Exec(refused, w1).0;
    CaughtRuns(refused, w1, w2, POLICY_VIOLATION);
    SeqRuns(Announce(a, key, event), Catch(refused, Skip), w, w1);
    assert QuietAttempts(Catch(refused, Skip)) && QuietAttempts(Announce(a, key, event));
  }

  lemma SeqRuns(first: Prog, second: Prog, w: World, w1: World)
    requires Exec(first, w) == (w1, Ok)
    ensures Exec(Seq(first, second), w) == Exec(second, w1)
  {
  }

  lemma Refused(p: Prog, w: World)
    requires p.Raw? && (forall h, rows :: p.sql(h, rows) == Refuse(POLICY_VIOLATION))
    requires w.tx.Some? && !w.tx.value.aborted
    ensures Exec(p, w).1 == Err(POLICY_VIOLATION)
    ensures var w1 := Exec(p, w).0; w1.tx.Some? && w1.tx.value.aborted && w1 == w.(tx := w1.tx, observed := w1.observed)
  {
    var statement := RawOn(p.sql, w.history);
    assert Exec(p, w) == Issue(w, statement);
    assert EffectUnder(w.tx.value.rows, w.tx.value.session, statement) == Refuse(POLICY_VIOLATION);
  }
}
