// AuthService.refresh as the database sees it: the scope returns a verdict, commits,
// and only then is the rejection thrown.
module RefreshRequest {
  import opened Values
  import opened Filters
  import opened Database
  import opened Scope
  import opened ScopeTheorems
  import opened Requests

  // A verified refresh token: the hash stored for it, its tenant and its subject.
  datatype Presented = Presented(hash: string, tenantId: string, sub: string)

  function ByHash(hash: string): Where {
    Where(map[Col("tokenHash") := Equals(Text(hash))], [], NoOr)
  }

  function LiveById(id: string): Where {
    Where(map[Id := Equals(Text(id)), Col("revokedAt") := Equals(Null)], [], NoOr)
  }

  function LiveOf(userId: string): Where {
    Where(map[Col("userId") := Equals(Text(userId)), Col("revokedAt") := Equals(Null)], [], NoOr)
  }

  function Revocation(now: int): Data {
    map[Col("revokedAt") := Num(now)]
  }

  // `stored.id`, `stored.userId` of the one row a unique lookup found.
  ghost function TheRow(reply: Reply): Key {
    if reply.Found? && reply.rows != map[] then var k :| k in reply.rows; k else Key(RefreshToken, "")
  }

  ghost function Find(t: Presented): Prog {
    Query(_ => Call(RefreshToken, FindUnique, ByHash(t.hash), map[], []))
  }

  ghost function Consume(now: int): Prog {
    Query(h => Call(RefreshToken, UpdateMany, LiveById(TheRow(Last(h)).id), Revocation(now), []))
  }

  ghost function RevokeAll(t: Presented, now: int): Prog {
    Query(_ => Call(RefreshToken, UpdateMany, LiveOf(t.sub), Revocation(now), []))
  }

  // The body of the scope. What it "returns" is left in the history: it accepted when
  // the last two replies are "one token consumed" and a user who is not deactivated.
  ghost function Verdict(t: Presented, now: int, loadUser: Prog): Prog {
    Seq(Find(t),
        Branch(h => Last(h).Found? && Last(h).rows == map[],
               Skip,
               Seq(Consume(now),
                   Branch(h => Last(h) == Number(1), loadUser, RevokeAll(t, now)))))
  }

  predicate Accepted(h: History) {
    && |h| >= 2 && h[|h| - 2] == Number(1)
    && h[|h| - 1].Found?
    && HasActive(h[|h| - 1].rows)
  }

  predicate HasActive(rows: Rows) {
    exists k | k in rows :: Column(k, rows[k], Col("deletedAt")) == Null
  }

  ghost function Refresh(t: Presented, now: int, loadUser: Prog, issueTokens: Prog): Prog {
    Seq(Run(_ => Some(t.tenantId), Verdict(t, now, loadUser)),
        Conclude(issueTokens))
  }

  function Conclude(issueTokens: Prog): Prog {
    Branch(h => Accepted(h), issueTokens, Throw(_ => App(Unauthorized)))
  }

  // Every live token of the user, revoked.
  function Revoked(rows: Rows, t: Presented, now: int): Rows {
    rows + Patched(TenantRows(rows, RefreshToken, t.tenantId, LiveOf(t.sub)), Revocation(now))
  }

  // The stored row of this token, and that it was spent.
  ghost predicate Spent(rows: Rows, t: Presented, key: Key) {
    && t.tenantId != ""
    && TenantRows(rows, RefreshToken, t.tenantId, ByHash(t.hash)).Keys == {key}
    && Column(key, rows[key], Col("revokedAt")) != Null
  }

  lemma RevokingKeepsUnique(rows: Rows, matched: Rows, now: int)
    requires UniqueRows(rows)
    requires forall k | k in matched :: k in rows && k.model == RefreshToken && matched[k] == rows[k]
    ensures UniqueRows(rows + Patched(matched, Revocation(now)))
  {
    var after := rows + Patched(matched, Revocation(now));
    forall k | k in after ensures SameUniques(k, rows[k], after[k]) {
      if k in matched { TokenHashKept(matched[k], now); }
    }
    forall k, k' | k in after && k' in after ensures !Conflicting(k, after[k], k', after[k']) {
      assert !Conflicting(k, rows[k], k', rows[k']);
      ConflictsKept(k, rows[k], after[k], k', rows[k'], after[k']);
    }
  }

  // Nothing a unique constraint looks at has moved.
  predicate SameUniques(k: Key, row: Row, row': Row) {
    row == row' || (k.model == RefreshToken && Column(k, row', Col("tokenHash")) == Column(k, row, Col("tokenHash")))
  }

  lemma ConflictsKept(k: Key, row: Row, after: Row, k': Key, row': Row, after': Row)
    requires SameUniques(k, row, after) && SameUniques(k', row', after')
    ensures Conflicting(k, after, k', after') ==> Conflicting(k, row, k', row')
  {
  }

  lemma TokenHashKept(row: Row, now: int)
    ensures var patched := Patch(row, Revocation(now));
            && ("tokenHash" in patched.cols <==> "tokenHash" in row.cols)
            && ("tokenHash" in row.cols ==> patched.cols["tokenHash"] == row.cols["tokenHash"])
  {
    assert "tokenHash" !in NamedColumns(Revocation(now)) by {
      assert |"tokenHash"| == 9 && |"revokedAt"| == 9 && "tokenHash"[0] != "revokedAt"[0];
    }
  }

  lemma FindStep(t: Presented, key: Key, w: World)
    requires InScope(w, t.tenantId) && UniqueRows(w.tx.value.rows) && Spent(w.tx.value.rows, t, key)
    ensures var (w', outcome) := Exec(Find(t), w);
            && outcome == Ok && w'.tx.Some?
            && Stepped(w, w', w.tx.value.rows, Last(w'.history))
            && Last(w'.history).Found? && Last(w'.history).rows != map[] && TheRow(Last(w'.history)) == key
  {
    hide IssueQuery, UniqueRows;
    var call := Call(RefreshToken, FindUnique, ByHash(t.hash), map[], []);
    ReadStep(w, t.tenantId, call);
    var p := Find(t);
    assert Exec(p, w) == IssueQuery(w, call);
    var rows := TenantRows(w.tx.value.rows, RefreshToken, t.tenantId, ByHash(t.hash));
    assert key in rows;
    assert TheRow(Found(rows)) in rows.Keys;
  }

  // Consuming a spent token matches nothing.
  lemma ConsumeStep(t: Presented, key: Key, now: int, w: World)
    requires InScope(w, t.tenantId) && UniqueRows(w.tx.value.rows) && Spent(w.tx.value.rows, t, key)
    requires TheRow(Last(w.history)) == key
    ensures var (w', outcome) := Exec(Consume(now), w);
            outcome == Ok && Stepped(w, w', w.tx.value.rows, Number(0))
  {
    hide IssueQuery, UniqueRows;
    var rows := w.tx.value.rows;
    var call := Call(RefreshToken, UpdateMany, LiveById(key.id), Revocation(now), []);
    SpentMatchesNothing(t, key, rows);
    assert Patched(map[], Revocation(now)) == map[];
    assert rows + map[] == rows;
    UpdateStep(w, t.tenantId, call);
    var p := Consume(now);
    assert Exec(p, w) == IssueQuery(w, call);
  }

  lemma SpentMatchesNothing(t: Presented, key: Key, rows: Rows)
    requires Spent(rows, t, key)
    ensures TenantRows(rows, RefreshToken, t.tenantId, LiveById(key.id)) == map[]
  {
    var matched := TenantRows(rows, RefreshToken, t.tenantId, LiveById(key.id));
    var where := LiveById(key.id);
    assert Id in where.cols && Col("revokedAt") in where.cols;
    assert key in TenantRows(rows, RefreshToken, t.tenantId, ByHash(t.hash));
    forall k | k in rows && k.model == RefreshToken ensures !Holds(where, k, rows[k]) {
      if k.id == key.id {
        assert k == key && !CondHolds(where.cols[Col("revokedAt")], Column(k, rows[k], Col("revokedAt")));
      } else {
        assert !CondHolds(where.cols[Id], Column(k, rows[k], Id));
      }
    }
    assert matched == map[];
  }

  lemma RevokeAllStep(t: Presented, now: int, w: World)
    requires InScope(w, t.tenantId) && UniqueRows(w.tx.value.rows)
    ensures var (w', outcome) := Exec(RevokeAll(t, now), w);
            outcome == Ok && w'.tx.Some? && Last(w'.history).Number? &&
            Stepped(w, w', Revoked(w.tx.value.rows, t, now), Last(w'.history))
  {
    hide IssueQuery, UniqueRows;
    var call := Call(RefreshToken, UpdateMany, LiveOf(t.sub), Revocation(now), []);
    RevokingKeepsUnique(w.tx.value.rows, TenantRows(w.tx.value.rows, RefreshToken, t.tenantId, LiveOf(t.sub)), now);
    UpdateStep(w, t.tenantId, call);
    var p := RevokeAll(t, now);
    assert Exec(p, w) == IssueQuery(w, call);
  }

  // Where the verdict leaves the transaction: these rows, healthy, still in the scope.
  predicate Reached(w: World, w': World, rows: Rows) {
    && w.tx.Some? && w'.tx.Some?
    && w'.store == w.store && w'.committed == w.committed
    && !w'.tx.value.aborted && w'.tx.value.rows == rows && w'.tx.value.session == w.tx.value.session
  }

  lemma SteppedReaches(w: World, w1: World, w': World, rows: Rows, rows1: Rows, reply: Reply)
    requires Reached(w, w1, rows1) && Stepped(w1, w', rows, reply)
    ensures Reached(w, w', rows) && Last(w'.history) == reply
  {
  }

  lemma VerdictOnReplay(t: Presented, key: Key, now: int, loadUser: Prog, w: World)
    requires InScope(w, t.tenantId) && UniqueRows(w.tx.value.rows) && Spent(w.tx.value.rows, t, key)
    ensures var (w', outcome) := Exec(Verdict(t, now, loadUser), w);
            && outcome == Ok
            && Reached(w, w', Revoked(w.tx.value.rows, t, now))
            && Last(w'.history).Number?
  {
    hide IssueQuery, UniqueRows;
    var rows := w.tx.value.rows;
    FindStep(t, key, w);
    var w1 := Exec(Find(t), w).0;
    SteppedReaches(w, w, w1, rows, rows, Last(w1.history));
    ConsumeStep(t, key, now, w1);
    var w2 := Exec(Consume(now), w1).0;
    SteppedReaches(w, w1, w2, rows, rows, Number(0));
    RevokeAllStep(t, now, w2);
    var w3 := Exec(RevokeAll(t, now), w2).0;
    SteppedReaches(w, w2, w3, Revoked(rows, t, now), rows, Last(w3.history));
    VerdictPath(t, now, loadUser, w, w1, w2);
  }

  // The branches a replay takes.
  lemma VerdictPath(t: Presented, now: int, loadUser: Prog, w: World, w1: World, w2: World)
    requires Exec(Find(t), w) == (w1, Ok) && Last(w1.history).Found? && Last(w1.history).rows != map[]
    requires Exec(Consume(now), w1) == (w2, Ok) && Last(w2.history) == Number(0)
    ensures Exec(Verdict(t, now, loadUser), w) == Exec(RevokeAll(t, now), w2)
  {
    hide IssueQuery;
    var p := Verdict(t, now, loadUser);
    var rest := p.second.no;
    assert Exec(p, w) == Exec(p.second, w1) == Exec(rest, w1);
    assert Exec(rest, w1) == Exec(rest.second, w2) == Exec(RevokeAll(t, now), w2);
  }

  // The rejection comes after the scope has ended, so it keeps what the scope left.
  lemma ThrownOutside(scoped: Prog, issueTokens: Prog, w: World, w1: World)
    requires Exec(scoped, w) == (w1, Ok) && Last(w1.history).Number?
    ensures Exec(Seq(scoped, Conclude(issueTokens)), w)
            == (w1, Err(App(Unauthorized)))
  {
    hide RunOwner, RunNested, Issue, IssueQuery, ExecAttempt, EmitEvent;
    var p := Seq(scoped, Conclude(issueTokens));
    assert !Accepted(w1.history);
    assert Exec(p, w) == Exec(p.second, w1) == Exec(p.second.no, w1);
  }

  lemma OwnerEnds(tenant: History -> Option<string>, body: Prog, w: World, w1: World)
    requires w.tx.None? && tenant(w.history) != Some("")
    requires Exec(body, Entered(tenant(w.history), w)) == (w1, Ok) && w1.tx.Some? && !w1.tx.value.aborted
    ensures var (after, outcome) := Exec(Run(tenant, body), w);
            outcome == Ok && after.committed == w1.tx.value.rows && after.history == w1.history
  {
    hide Exec;
    OpensOwner(tenant, body, w);
  }

  lemma OpensOwner(tenant: History -> Option<string>, body: Prog, w: World)
    requires w.tx.None? && tenant(w.history) != Some("")
    ensures Exec(Run(tenant, body), w) == RunOwner(tenant(w.history), body, w)
  {
    hide RunOwner, RunNested;
  }

  lemma NestedEnds(tenant: History -> Option<string>, body: Prog, w: World, w1: World)
    requires w.tx.Some? && w.store.Some? && !w.tx.value.aborted && tenant(w.history) != Some("")
    requires var entered := w.(tx := Some(SetTenant(w.tx.value, tenant(w.history)).0),
                               store := Some(Store(tenant(w.history))));
             Exec(body, entered) == (w1, Ok) && w1.tx.Some?
    ensures var (after, outcome) := Exec(Run(tenant, body), w);
            outcome == Ok && after.committed == w1.committed && after.history == w1.history
  {
    hide Exec;
    OpensNested(tenant, body, w);
  }

  lemma OpensNested(tenant: History -> Option<string>, body: Prog, w: World)
    requires w.tx.Some? && w.store.Some? && tenant(w.history) != Some("")
    ensures Exec(Run(tenant, body), w) == RunNested(tenant(w.history), body, w)
  {
    hide RunOwner, RunNested;
  }

  lemma OwnerRollsBack(tenant: History -> Option<string>, body: Prog, w: World, w1: World, error: Error)
    requires w.tx.None? && tenant(w.history) != Some("")
    requires Exec(body, Entered(tenant(w.history), w)) == (w1, Err(error))
    ensures var (after, outcome) := Exec(Run(tenant, body), w);
            outcome == Err(error) && after.committed == w1.committed
  {
    hide Exec;
    OpensOwner(tenant, body, w);
  }

  // A replayed token, presented from outside any scope: the request is rejected, and
  // the revocation of every live session of the user is committed all the same.
  lemma ReplayRejectedAndRevoked(t: Presented, key: Key, now: int, loadUser: Prog, issueTokens: Prog, db: Rows)
    requires UniqueRows(db) && Spent(db, t, key)
    ensures var (after, outcome) := Exec(Refresh(t, now, loadUser, issueTokens), Idle(db));
            && outcome == Err(App(Unauthorized))
            && after.committed == Revoked(db, t, now)
            && TenantRows(after.committed, RefreshToken, t.tenantId, LiveOf(t.sub)) == map[]
  {
    hide IssueQuery, UniqueRows, Exec;
    var scoped := Refresh(t, now, loadUser, issueTokens).first;
    var entered := Entered(Some(t.tenantId), Idle(db));
    VerdictOnReplay(t, key, now, loadUser, entered);
    var (inner, _) := Exec(scoped.body, entered);
    OwnerEnds(scoped.tenant, scoped.body, Idle(db), inner);
    ThrownOutside(scoped, issueTokens, Idle(db), Exec(scoped, Idle(db)).0);
    NoneLive(t, now, db);
  }

  lemma NoneLive(t: Presented, now: int, db: Rows)
    ensures TenantRows(Revoked(db, t, now), RefreshToken, t.tenantId, LiveOf(t.sub)) == map[]
  {
    var live := TenantRows(db, RefreshToken, t.tenantId, LiveOf(t.sub));
    var after := Revoked(db, t, now);
    var where := LiveOf(t.sub);
    assert Col("revokedAt") in where.cols;
    forall k | k in after && k.model == RefreshToken && after[k].tenant == t.tenantId
      ensures !Holds(where, k, after[k])
    {
      if k in live {
        assert Revocation(now)[Col("revokedAt")] == Num(now);
        assert "revokedAt" in NamedColumns(Revocation(now)) && NamedColumns(Revocation(now))["revokedAt"] == Num(now);
        assert !CondHolds(where.cols[Col("revokedAt")], Column(k, after[k], Col("revokedAt")));
      } else {
        assert after[k] == db[k];
      }
    }
  }

  // The same rejection thrown while a scope is still open, because the request runs
  // inside an enclosing one, takes the revocation with it.
  lemma ReplayInsideScopeLosesRevocation(t: Presented, key: Key, now: int, loadUser: Prog, issueTokens: Prog,
                                         outer: string, db: Rows)
    requires UniqueRows(db) && Spent(db, t, key) && outer != ""
    ensures var (after, outcome) := Exec(Run(_ => Some(outer), Refresh(t, now, loadUser, issueTokens)), Idle(db));
            outcome == Err(App(Unauthorized)) && after.committed == db
  {
    hide IssueQuery, UniqueRows, Exec;
    var body := Refresh(t, now, loadUser, issueTokens);
    var w := Entered(Some(outer), Idle(db));
    var entered := w.(tx := Some(w.tx.value.(session := t.tenantId)), store := Some(Store(Some(t.tenantId))));
    VerdictOnReplay(t, key, now, loadUser, entered);
    var (inner, _) := Exec(body.first.body, entered);
    NestedEnds(body.first.tenant, body.first.body, w, inner);
    var w1 := Exec(body.first, w).0;
    ThrownOutside(body.first, issueTokens, w, w1);
    OwnerRollsBack(_ => Some(outer), body, Idle(db), w1, App(Unauthorized));
  }

  // ----- What the requests look for -----------------------------------------------------------

  // The column of that name, `NULL` when the row has none.
  function At(row: Row, name: string): Value {
    if name in row.cols then row.cols[name] else Null
  }

  // Token rows of the tenant: the one with this hash, one by its id if it is not revoked, and
  // those of a user that are not revoked.
  lemma SelectionsMean(rows: Rows, tenantId: string, hash: string, id: string, userId: string, k: Key)
    requires k in rows && k.model == RefreshToken && rows[k].tenant == tenantId
    ensures k in TenantRows(rows, RefreshToken, tenantId, ByHash(hash)) <==> At(rows[k], "tokenHash") == Text(hash)
    ensures k in TenantRows(rows, RefreshToken, tenantId, LiveById(id))
        <==> k.id == id && At(rows[k], "revokedAt") == Null
    ensures k in TenantRows(rows, RefreshToken, tenantId, LiveOf(userId))
        <==> At(rows[k], "userId") == Text(userId) && At(rows[k], "revokedAt") == Null
  {
    assert "userId"[0] == 'u' && "revokedAt"[0] == 'r';
    assert Col("tokenHash") in ByHash(hash).cols;
    var byId := LiveById(id);
    assert Id in byId.cols && Col("revokedAt") in byId.cols;
    var of := LiveOf(userId);
    assert Col("userId") in of.cols && Col("revokedAt") in of.cols;
  }

  // Revoking stamps the user's live tokens in the tenant, and touches nothing else.
  lemma RevokedMeans(rows: Rows, t: Presented, now: int)
    ensures Revoked(rows, t, now).Keys == rows.Keys
    ensures forall k | k in rows ::
              if && k.model == RefreshToken && rows[k].tenant == t.tenantId
                 && At(rows[k], "userId") == Text(t.sub) && At(rows[k], "revokedAt") == Null
              then Revoked(rows, t, now)[k] == Row(rows[k].tenant, rows[k].cols["revokedAt" := Num(now)])
              else Revoked(rows, t, now)[k] == rows[k]
  {
    hide LiveOf;
    forall k | k in rows && k.model == RefreshToken && rows[k].tenant == t.tenantId
      ensures k in TenantRows(rows, RefreshToken, t.tenantId, LiveOf(t.sub))
          <==> At(rows[k], "userId") == Text(t.sub) && At(rows[k], "revokedAt") == Null
    {
      SelectionsMean(rows, t.tenantId, "", "", t.sub, k);
    }
    forall k | k in rows ensures Patch(rows[k], Revocation(now))
                                 == Row(rows[k].tenant, rows[k].cols["revokedAt" := Num(now)])
    {
      StampedRow(rows[k], now);
    }
  }

  lemma StampedRow(row: Row, now: int)
    ensures Patch(row, Revocation(now)) == Row(row.tenant, row.cols["revokedAt" := Num(now)])
  {
    NamedColumnsMean(Revocation(now));
    assert NamedColumns(Revocation(now)) == map["revokedAt" := Num(now)];
    assert row.cols + map["revokedAt" := Num(now)] == row.cols["revokedAt" := Num(now)];
  }

  // ----- A token nobody has, and a token not yet spent -------------------------------------------

  // No stored row has this hash: the request is rejected and nothing is written.
  lemma UnknownRejected(t: Presented, now: int, loadUser: Prog, issueTokens: Prog, db: Rows)
    requires UniqueRows(db) && t.tenantId != ""
    requires TenantRows(db, RefreshToken, t.tenantId, ByHash(t.hash)) == map[]
    ensures var (after, outcome) := Exec(Refresh(t, now, loadUser, issueTokens), Idle(db));
            outcome == Err(App(Unauthorized)) && after.committed == db
  {
    hide IssueQuery, UniqueRows, Exec, TenantRows;
    var scoped := Refresh(t, now, loadUser, issueTokens).first;
    var entered := Entered(Some(t.tenantId), Idle(db));
    var call := Call(RefreshToken, FindUnique, ByHash(t.hash), map[], []);
    ReadStep(entered, t.tenantId, call);
    var (w1, _) := IssueQuery(entered, call);
    UnknownPath(t, now, loadUser, entered, w1);
    OwnerEnds(scoped.tenant, scoped.body, Idle(db), w1);
    RejectedOutside(scoped, issueTokens, Idle(db), Exec(scoped, Idle(db)).0);
  }

  lemma UnknownPath(t: Presented, now: int, loadUser: Prog, w: World, w1: World)
    requires IssueQuery(w, Call(RefreshToken, FindUnique, ByHash(t.hash), map[], [])) == (w1, Ok)
    requires Last(w1.history) == Found(map[])
    ensures Exec(Verdict(t, now, loadUser), w) == (w1, Ok)
  {
    hide IssueQuery;
    var p := Verdict(t, now, loadUser);
    assert Exec(p.first, w) == (w1, Ok);
    assert Exec(p, w) == Exec(p.second, w1) == Exec(p.second.yes, w1);
  }

  lemma RejectedOutside(scoped: Prog, issueTokens: Prog, w: World, w1: World)
    requires Exec(scoped, w) == (w1, Ok) && !Accepted(w1.history)
    ensures Exec(Seq(scoped, Conclude(issueTokens)), w) == (w1, Err(App(Unauthorized)))
  {
    hide RunOwner, RunNested, Issue, IssueQuery, ExecAttempt, EmitEvent;
    var p := Seq(scoped, Conclude(issueTokens));
    assert Exec(p, w) == Exec(p.second, w1) == Exec(p.second.no, w1);
  }

  lemma AcceptedOutside(scoped: Prog, issueTokens: Prog, w: World, w1: World)
    requires Exec(scoped, w) == (w1, Ok) && Accepted(w1.history)
    ensures Exec(Seq(scoped, Conclude(issueTokens)), w) == Exec(issueTokens, w1)
  {
    hide RunOwner, RunNested, Issue, IssueQuery, ExecAttempt, EmitEvent;
    var p := Seq(scoped, Conclude(issueTokens));
    assert Exec(p, w) == Exec(p.second, w1) == Exec(p.second.yes, w1);
  }

  // The stored row of this token, not yet spent.
  ghost predicate Fresh(rows: Rows, t: Presented, key: Key) {
    && t.tenantId != "" && key in rows
    && TenantRows(rows, RefreshToken, t.tenantId, ByHash(t.hash)).Keys == {key}
    && At(rows[key], "revokedAt") == Null
  }

  function ById(id: string): Where {
    Where(map[Id := Equals(Text(id))], [], NoOr)
  }

  // `findUnique({ where: { id: outcome.userId } })`
  function LoadOwner(userId: string): Prog {
    Query(_ => Call(User, FindUnique, ById(userId), map[], []))
  }

  // The rows with this one token revoked.
  function Rotated(rows: Rows, key: Key, now: int): Rows
    requires key in rows
  {
    rows[key := Row(rows[key].tenant, rows[key].cols["revokedAt" := Num(now)])]
  }

  lemma FreshMatchesItself(t: Presented, key: Key, rows: Rows, now: int)
    requires Fresh(rows, t, key)
    ensures var matched := TenantRows(rows, RefreshToken, t.tenantId, LiveById(key.id));
            matched == map[key := rows[key]] && rows + Patched(matched, Revocation(now)) == Rotated(rows, key, now)
  {
    hide Holds, ByHash, LiveById, Patch;
    assert key in TenantRows(rows, RefreshToken, t.tenantId, ByHash(t.hash));
    var matched := TenantRows(rows, RefreshToken, t.tenantId, LiveById(key.id));
    forall k ensures k in matched <==> k == key {
      if k in rows && k.model == RefreshToken && rows[k].tenant == t.tenantId {
        SelectionsMean(rows, t.tenantId, t.hash, key.id, "", k);
      }
    }
    StampedRow(rows[key], now);
    assert Patched(matched, Revocation(now)) == map[key := Patch(rows[key], Revocation(now))];
  }

  // The active user of that id in the tenant.
  predicate ActiveUser(rows: Rows, tenantId: string, userId: string) {
    var key := Key(User, userId);
    key in rows && rows[key].tenant == tenantId && At(rows[key], "deletedAt") == Null
  }

  lemma OwnerFound(rows: Rows, tenantId: string, userId: string)
    ensures HasActive(TenantRows(rows, User, tenantId, ById(userId))) <==> ActiveUser(rows, tenantId, userId)
  {
    var found := TenantRows(rows, User, tenantId, ById(userId));
    forall k ensures k in found <==> k == Key(User, userId) && k in rows && rows[k].tenant == tenantId {
      if k in rows { assert Id in ById(userId).cols; }
    }
    var key := Key(User, userId);
    assert ActiveUser(rows, tenantId, userId) ==> key in found && Column(key, found[key], Col("deletedAt")) == Null;
  }

  lemma FreshVerdict(t: Presented, key: Key, now: int, userId: string, w: World)
    requires InScope(w, t.tenantId) && UniqueRows(w.tx.value.rows) && Fresh(w.tx.value.rows, t, key)
    requires UniqueRows(Rotated(w.tx.value.rows, key, now))
    ensures var (w', outcome) := Exec(Verdict(t, now, LoadOwner(userId)), w);
            && outcome == Ok
            && Reached(w, w', Rotated(w.tx.value.rows, key, now))
            && (Accepted(w'.history) <==> ActiveUser(Rotated(w.tx.value.rows, key, now), t.tenantId, userId))
  {
    hide IssueQuery, UniqueRows, TenantRows, Accepted, LiveById, ById, Revocation, Exec;
    var rows := w.tx.value.rows;
    var rows' := Rotated(rows, key, now);
    var find := Call(RefreshToken, FindUnique, ByHash(t.hash), map[], []);
    ReadStep(w, t.tenantId, find);
    var (w1, _) := IssueQuery(w, find);
    SteppedReaches(w, w, w1, rows, rows, Last(w1.history));
    var found := TenantRows(rows, RefreshToken, t.tenantId, ByHash(t.hash));
    assert key in found;
    assert TheRow(Last(w1.history)) == key;
    FreshConsumes(t, key, now, w1);
    var consume := Call(RefreshToken, UpdateMany, LiveById(key.id), Revocation(now), []);
    var (w2, _) := IssueQuery(w1, consume);
    SteppedReaches(w, w1, w2, rows', rows, Number(1));
    var load := Call(User, FindUnique, ById(userId), map[], []);
    LoadStep(t, userId, w2);
    var (w3, _) := IssueQuery(w2, load);
    SteppedReaches(w, w2, w3, rows', rows', Last(w3.history));
    FreshPath(t, now, userId, w, w1, w2, w3, key);
    OwnerFound(rows', t.tenantId, userId);
    AcceptedMeans(w2, w3, TenantRows(rows', User, t.tenantId, ById(userId)));
  }

  lemma AcceptedMeans(w2: World, w3: World, found: Rows)
    requires w2.history != [] && Last(w2.history) == Number(1) && w3.history == w2.history + [Found(found)]
    ensures Accepted(w3.history) <==> HasActive(found)
  {
  }

  lemma FreshConsumes(t: Presented, key: Key, now: int, w: World)
    requires InScope(w, t.tenantId) && Fresh(w.tx.value.rows, t, key)
    requires UniqueRows(Rotated(w.tx.value.rows, key, now))
    ensures var (w', outcome) := IssueQuery(w, Call(RefreshToken, UpdateMany, LiveById(key.id), Revocation(now), []));
            outcome == Ok && Stepped(w, w', Rotated(w.tx.value.rows, key, now), Number(1))
  {
    hide IssueQuery, UniqueRows, TenantRows, Rotated, Stepped, Patched, LiveById;
    assert TenantId !in LiveById(key.id).cols by { OnlyIdAndRevocation(key.id); }
    assert TenantId !in Revocation(now) && Id !in Revocation(now);
    FreshMatchesItself(t, key, w.tx.value.rows, now);
    assert |map[key := w.tx.value.rows[key]]| == 1;
    UpdateStep(w, t.tenantId, Call(RefreshToken, UpdateMany, LiveById(key.id), Revocation(now), []));
  }

  lemma OnlyIdAndRevocation(id: string)
    ensures LiveById(id).cols.Keys == {Id, Col("revokedAt")}
  {
  }

  lemma LoadStep(t: Presented, userId: string, w: World)
    requires InScope(w, t.tenantId) && UniqueRows(w.tx.value.rows)
    ensures var (w', outcome) := IssueQuery(w, Call(User, FindUnique, ById(userId), map[], []));
            outcome == Ok && Stepped(w, w', w.tx.value.rows,
                                     Found(TenantRows(w.tx.value.rows, User, t.tenantId, ById(userId))))
  {
    hide IssueQuery, UniqueRows, TenantRows;
    ReadStep(w, t.tenantId, Call(User, FindUnique, ById(userId), map[], []));
  }

  lemma FreshPath(t: Presented, now: int, userId: string, w: World, w1: World, w2: World, w3: World, key: Key)
    requires IssueQuery(w, Call(RefreshToken, FindUnique, ByHash(t.hash), map[], [])) == (w1, Ok)
    requires Last(w1.history).Found? && Last(w1.history).rows != map[] && TheRow(Last(w1.history)) == key
    requires IssueQuery(w1, Call(RefreshToken, UpdateMany, LiveById(key.id), Revocation(now), [])) == (w2, Ok)
    requires Last(w2.history) == Number(1)
    requires IssueQuery(w2, Call(User, FindUnique, ById(userId), map[], [])) == (w3, Ok)
    ensures Exec(Verdict(t, now, LoadOwner(userId)), w) == (w3, Ok)
  {
    hide IssueQuery;
    var p := Verdict(t, now, LoadOwner(userId));
    var rest := p.second.no;
    assert Exec(p.first, w) == (w1, Ok);
    assert Exec(p, w) == Exec(p.second, w1) == Exec(rest, w1);
    assert Exec(rest.first, w1) == (w2, Ok);
    assert Exec(rest, w1) == Exec(rest.second, w2) == Exec(LoadOwner(userId), w2) == (w3, Ok);
  }

  // A token presented for the first time is spent and the spending is committed; tokens are
  // then issued when its user is active, and otherwise the request is rejected all the same.
  lemma FirstUseRotates(t: Presented, key: Key, now: int, userId: string, issueTokens: Prog, db: Rows)
    requires UniqueRows(db) && Fresh(db, t, key)
    ensures var scoped := Exec(Run(_ => Some(t.tenantId), Verdict(t, now, LoadOwner(userId))), Idle(db)).0;
            && scoped.committed == Rotated(db, key, now)
            && Exec(Refresh(t, now, LoadOwner(userId), issueTokens), Idle(db))
               == (if ActiveUser(db, t.tenantId, userId) then Exec(issueTokens, scoped)
                   else (scoped, Err(App(Unauthorized))))
  {
    hide IssueQuery, UniqueRows, Exec, TenantRows, Accepted;
    var request := Refresh(t, now, LoadOwner(userId), issueTokens);
    var scoped := request.first;
    var entered := Entered(Some(t.tenantId), Idle(db));
    RotationKeepsUnique(db, t, key, now);
    FreshVerdict(t, key, now, userId, entered);
    var (inner, _) := Exec(scoped.body, entered);
    OwnerEnds(scoped.tenant, scoped.body, Idle(db), inner);
    var w1 := Exec(scoped, Idle(db)).0;
    if Accepted(w1.history) { AcceptedOutside(scoped, issueTokens, Idle(db), w1); }
    else { RejectedOutside(scoped, issueTokens, Idle(db), w1); }
    SameRun(t, now, LoadOwner(userId), issueTokens, Idle(db));
  }

  lemma SameRun(t: Presented, now: int, loadUser: Prog, issueTokens: Prog, w: World)
    ensures Exec(Refresh(t, now, loadUser, issueTokens).first, w)
            == Exec(Run(_ => Some(t.tenantId), Verdict(t, now, loadUser)), w)
  {
  }

  lemma RotationKeepsUnique(rows: Rows, t: Presented, key: Key, now: int)
    requires UniqueRows(rows) && Fresh(rows, t, key)
    ensures UniqueRows(Rotated(rows, key, now))
    ensures forall userId :: ActiveUser(Rotated(rows, key, now), t.tenantId, userId)
                             <==> ActiveUser(rows, t.tenantId, userId)
  {
    hide UniqueRows;
    FreshMatchesItself(t, key, rows, now);
    RevokingKeepsUnique(rows, map[key := rows[key]], now);
  }
}
