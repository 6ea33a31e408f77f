// Three requests whose correctness rests on the scope: opening a company, creating a
// user, and rejecting a replayed refresh token. Each is its service's own sequence of
// calls, run by module Scope.
module Requests {
  import opened Values
  import opened Filters
  import opened Database
  import opened TenantExtension
  import opened Scope
  import opened ScopeLaws
  import opened AttemptLaw
  import opened ScopeTheorems
  import opened ScopeDurability
  import opened Reentrancy

  function Last(h: History): Reply {
    if h == [] then Failed(App(Other("no reply"))) else h[|h| - 1]
  }

  // ----- Single steps on a healthy transaction --------------------------------------------

  predicate Healthy(w: World) {
    w.tx.Some? && w.store.Some? && !w.tx.value.aborted
  }

  // The statement succeeded: the rows and the reply are these, nothing else that
  // matters to later statements moved.
  predicate Stepped(w: World, w': World, rows: Rows, reply: Reply) {
    && w.tx.Some? && w'.tx.Some?
    && w' == w.(tx := Some(w.tx.value.(rows := rows, writes := w'.tx.value.writes)),
                history := w.history + [reply], observed := w'.observed)
  }

  predicate Failed25P02(w: World, w': World) {
    && w.tx.Some? && w'.tx.Some?
    && w' == w.(tx := Some(w.tx.value.(aborted := true)), observed := w'.observed)
  }

  // A statement lands or is refused according to the checks on its effect.
  lemma QueryEnds(w: World, call: Call, scoped: Call, effect: Effect)
    requires Healthy(w) && Intercept(call, CurrentScope(w)) == Success(scoped)
    requires EffectUnder(w.tx.value.rows, w.tx.value.session, ModelStatement(scoped)) == effect
    ensures var (w', outcome) := IssueQuery(w, call);
            match Refusal(w.tx.value.rows, w.tx.value.session, effect)
            case Some(e) => outcome == Err(e) && (e.Db? ==> Failed25P02(w, w'))
            case None => outcome == Ok && Stepped(w, w', Overwrite(w.tx.value.rows, effect), effect.reply)
  {
  }

  function CreateCall(model: Model, newRow: NewRow): Call {
    Call(model, Create, EVERYTHING, map[], [newRow])
  }

  // The row a create inserts in this scope.
  function RowFor(model: Model, newRow: NewRow, tenantId: Option<string>): Row {
    if model == Tenant || tenantId.None? then Inserted(newRow)
    else Inserted(NewRow(newRow.id, newRow.data[TenantId := Text(tenantId.value)]))
  }

  predicate Insertable(rows: Rows, key: Key, row: Row) {
    key !in rows && UniqueRows(rows[key := row])
  }

  lemma InsertChecks(rows: Rows, session: string, key: Key, row: Row, reply: Reply)
    requires Permits(session, key, row)
    ensures var effect := Write(map[key := row], map[], {}, reply);
            && Overwrite(rows, effect) == rows[key := row]
            && Refusal(rows, session, effect) == (if Insertable(rows, key, row) then None else Some(UNIQUE_VIOLATION))
  {
    hide UniqueRows;
    var effect := Write(map[key := row], map[], {}, reply);
    assert Overwrite(rows, effect) == rows[key := row];
    if key in rows {
      assert key in effect.inserts.Keys * rows.Keys;
    } else {
      assert effect.inserts.Keys * rows.Keys == {};
    }
  }

  // Inside a tenant the new row is the tenant's and has exactly the columns it was given; a
  // company's own row belongs to no tenant.
  lemma RowForMeans(model: Model, newRow: NewRow, tenantId: string)
    requires TenantId !in newRow.data
    ensures var row := RowFor(model, newRow, Some(tenantId));
            && row.tenant == (if model == Tenant then "" else tenantId)
            && (forall name :: name in row.cols <==> Col(name) in newRow.data)
            && (forall name | name in row.cols :: row.cols[name] == newRow.data[Col(name)])
    ensures var row := RowFor(model, newRow, None);
            && row.tenant == ""
            && (forall name :: name in row.cols <==> Col(name) in newRow.data)
            && (forall name | name in row.cols :: row.cols[name] == newRow.data[Col(name)])
  {
    hide NamedColumns;
    PatchMeans(Row("", map[]), newRow.data);
    PatchMeans(Row("", map[]), newRow.data[TenantId := Text(tenantId)]);
  }

  // A create either adds exactly its row, or is refused as a duplicate and aborts.
  lemma CreateStep(w: World, model: Model, newRow: NewRow)
    requires Healthy(w) && w.tx.value.session == Setting(w.store.value.tenantId)
    requires TenantId !in newRow.data
    requires if model == Tenant then w.store.value.tenantId.None?
             else w.store.value.tenantId.Some? && w.store.value.tenantId.value != ""
    ensures var (w', outcome) := IssueQuery(w, CreateCall(model, newRow));
            var key := Key(model, newRow.id);
            var row := RowFor(model, newRow, w.store.value.tenantId);
            if Insertable(w.tx.value.rows, key, row) then
              outcome == Ok && Stepped(w, w', w.tx.value.rows[key := row], Found(map[key := row]))
            else
              outcome == Err(UNIQUE_VIOLATION) && Failed25P02(w, w')
  {
    var key := Key(model, newRow.id);
    var row := RowFor(model, newRow, w.store.value.tenantId);
    var rows, session := w.tx.value.rows, w.tx.value.session;
    assert Permits(session, key, row);
    hide IssueQuery, RowFor, Insertable, EffectUnder, Refusal, Overwrite, Intercept;
    var effect := Write(map[key := row], map[], {}, Found(map[key := row]));
    CreateEffect(w, model, newRow);
    var scoped := Intercept(CreateCall(model, newRow), CurrentScope(w)).value;
    QueryEnds(w, CreateCall(model, newRow), scoped, effect);
    InsertChecks(rows, session, key, row, Found(map[key := row]));
  }

  function Stamped(model: Model, newRow: NewRow, tenantId: Option<string>): NewRow {
    if model == Tenant || tenantId.None? then newRow
    else NewRow(newRow.id, newRow.data[TenantId := Text(tenantId.value)])
  }

  lemma CreateIntercepted(w: World, model: Model, newRow: NewRow)
    requires Healthy(w) && TenantId !in newRow.data
    requires if model == Tenant then w.store.value.tenantId.None? else w.store.value.tenantId.Some?
    ensures Intercept(CreateCall(model, newRow), CurrentScope(w))
            == Success(CreateCall(model, Stamped(model, newRow, w.store.value.tenantId)))
  {
    var call := CreateCall(model, newRow);
    if model != Tenant {
      var id := w.store.value.tenantId.value;
      assert StampTenant(call.creates, id).Success?;
      assert StampTenant(call.creates, id).value == [Stamped(model, newRow, Some(id))];
      assert ScopeCall(call, id) == Success(call.(creates := [Stamped(model, newRow, Some(id))]));
    }
  }

  lemma OneNewRow(model: Model, newRow: NewRow)
    ensures NewRows(model, [newRow]) == map[Key(model, newRow.id) := Inserted(newRow)]
  {
    assert [newRow][1..] == [];
  }

  lemma CreateInserts(call: Call, rows: Rows)
    requires call.op == Create && DistinctIds(call.creates)
    ensures EffectOn(call, rows) ==
            Write(NewRows(call.model, call.creates), map[], {}, Found(NewRows(call.model, call.creates)))
  {
    hide NewRows, DistinctIds;
    assert EffectOn(call, rows) == InsertEffect(call);
  }

  lemma CreateEffect(w: World, model: Model, newRow: NewRow)
    requires Healthy(w) && TenantId !in newRow.data
    requires if model == Tenant then w.store.value.tenantId.None? else w.store.value.tenantId.Some?
    ensures var key := Key(model, newRow.id);
            var row := RowFor(model, newRow, w.store.value.tenantId);
            var scoped := Intercept(CreateCall(model, newRow), CurrentScope(w));
            && scoped.Success?
            && EffectUnder(w.tx.value.rows, w.tx.value.session, ModelStatement(scoped.value))
               == Write(map[key := row], map[], {}, Found(map[key := row]))
  {
    CreateIntercepted(w, model, newRow);
    var stamped := Stamped(model, newRow, w.store.value.tenantId);
    var call := CreateCall(model, stamped);
    CreateInserts(call, Matched(call, Visible(w.tx.value.rows, w.tx.value.session)));
    OneNewRow(model, stamped);
  }

  function TenantRows(rows: Rows, model: Model, tenantId: string, where: Where): Rows {
    map k | k in rows && k.model == model && rows[k].tenant == tenantId && Holds(where, k, rows[k]) :: rows[k]
  }

  predicate InScope(w: World, tenantId: string) {
    && Healthy(w) && tenantId != ""
    && w.store.value.tenantId == Some(tenantId) && w.tx.value.session == tenantId
  }

  lemma SelectStep(w: World, tenantId: string, call: Call)
    requires InScope(w, tenantId) && call.model != Tenant && TenantId !in call.where.cols
    requires call.op in {FindUnique, FindFirst, UpdateMany} && TenantId !in call.data
    ensures Intercept(call, CurrentScope(w)).Success?
    ensures Matched(Intercept(call, CurrentScope(w)).value, Visible(w.tx.value.rows, tenantId))
            == TenantRows(w.tx.value.rows, call.model, tenantId, call.where)
  {
    hide Holds, UniqueRows;
    SelectsTenantRows(call, tenantId, Visible(w.tx.value.rows, tenantId));
    assert call.where.cols - {TenantId} == call.where.cols;
    assert Intended(call) == call;
  }

  lemma ReadStep(w: World, tenantId: string, call: Call)
    requires InScope(w, tenantId) && call.model != Tenant && TenantId !in call.where.cols
    requires call.op in {FindUnique, FindFirst} && TenantId !in call.data && UniqueRows(w.tx.value.rows)
    ensures var (w', outcome) := IssueQuery(w, call);
            outcome == Ok &&
            Stepped(w, w', w.tx.value.rows, Found(TenantRows(w.tx.value.rows, call.model, tenantId, call.where)))
  {
    hide UniqueRows, IssueQuery, Holds, Stepped, Overwrite, Refusal;
    SelectStep(w, tenantId, call);
    var scoped := Intercept(call, CurrentScope(w)).value;
    var found := TenantRows(w.tx.value.rows, call.model, tenantId, call.where);
    var effect := Write(map[], map[], {}, Found(found));
    assert scoped.op == call.op;
    assert EffectOn(scoped, found) == effect;
    QueryEnds(w, call, scoped, effect);
    ReadLands(w.tx.value.rows, tenantId, Found(found));
  }

  lemma ReadLands(rows: Rows, session: string, reply: Reply)
    requires UniqueRows(rows)
    ensures var effect := Write(map[], map[], {}, reply);
            Refusal(rows, session, effect).None? && Overwrite(rows, effect) == rows
  {
    hide UniqueRows;
    assert Overwrite(rows, Write(map[], map[], {}, reply)) == rows;
  }

  lemma UpdateEffectOf(w: World, tenantId: string, call: Call)
    requires InScope(w, tenantId) && call.model != Tenant && TenantId !in call.where.cols
    requires call.op == UpdateMany && TenantId !in call.data && Id !in call.data
    ensures var scoped := Intercept(call, CurrentScope(w));
            var matched := TenantRows(w.tx.value.rows, call.model, tenantId, call.where);
            && scoped.Success?
            && EffectUnder(w.tx.value.rows, tenantId, ModelStatement(scoped.value))
               == Write(map[], Patched(matched, call.data), {}, Number(|matched|))
  {
    hide Holds, TenantRows, Patched, Matched, Visible;
    SelectStep(w, tenantId, call);
    var scoped := Intercept(call, CurrentScope(w)).value;
    assert scoped.op == UpdateMany && scoped.data == call.data;
  }

  lemma UpdateStep(w: World, tenantId: string, call: Call)
    requires InScope(w, tenantId) && call.model != Tenant && TenantId !in call.where.cols
    requires call.op == UpdateMany && TenantId !in call.data && Id !in call.data
    requires var matched := TenantRows(w.tx.value.rows, call.model, tenantId, call.where);
             UniqueRows(w.tx.value.rows + Patched(matched, call.data))
    ensures var (w', outcome) := IssueQuery(w, call);
            var matched := TenantRows(w.tx.value.rows, call.model, tenantId, call.where);
            outcome == Ok && Stepped(w, w', w.tx.value.rows + Patched(matched, call.data), Number(|matched|))
  {
    hide IssueQuery, Holds, UniqueRows, Stepped, Overwrite, Refusal, EffectUnder, Intercept, Patched, TenantRows;
    var rows := w.tx.value.rows;
    var matched := TenantRows(rows, call.model, tenantId, call.where);
    UpdateEffectOf(w, tenantId, call);
    var effect := Write(map[], Patched(matched, call.data), {}, Number(|matched|));
    QueryEnds(w, call, Intercept(call, CurrentScope(w)).value, effect);
    RowsOfTenant(rows, call.model, tenantId, call.where);
    UpdateLands(rows, tenantId, matched, call.data, Number(|matched|));
  }

  lemma RowsOfTenant(rows: Rows, model: Model, tenantId: string, where: Where)
    ensures forall k | k in TenantRows(rows, model, tenantId, where) ::
              TenantRows(rows, model, tenantId, where)[k].tenant == tenantId
  {
  }

  lemma UpdateLands(rows: Rows, tenantId: string, matched: Rows, data: Data, reply: Reply)
    requires tenantId != "" && TenantId !in data
    requires forall k | k in matched :: matched[k].tenant == tenantId
    requires UniqueRows(rows + Patched(matched, data))
    ensures var effect := Write(map[], Patched(matched, data), {}, reply);
            && Overwrite(rows, effect) == rows + Patched(matched, data)
            && Refusal(rows, tenantId, effect).None?
  {
    var effect := Write(map[], Patched(matched, data), {}, reply);
    assert Overwrite(rows, effect) == rows + Patched(matched, data);
    assert PolicyAllows(tenantId, effect.updates) by {
      forall k | k in effect.updates ensures Permits(tenantId, k, effect.updates[k]) {
        assert effect.updates[k] == Patch(matched[k], data);
      }
    }
    assert effect.inserts.Keys * rows.Keys == {};
  }

  // ----- CompaniesService.create -----------------------------------------------------------

  // The rows the three creates are given; their columns are the caller's. The counter's
  // key is the tenant it counts for.
  datatype Company = Company(tenant: NewRow, admin: NewRow, counter: Data)

  predicate WellFormed(c: Company) {
    && c.tenant.id != ""
    && TenantId !in c.tenant.data && TenantId !in c.admin.data && TenantId !in c.counter
  }

  function CounterOf(c: Company): NewRow {
    NewRow(c.tenant.id, c.counter)
  }

  function InsideCompany(counter: NewRow, admin: NewRow): Prog {
    Seq(Query(_ => CreateCall(TicketCounter, counter)), Query(_ => CreateCall(User, admin)))
  }

  function OpenCompany(c: Company): Prog {
    Transaction(Seq(Query(_ => CreateCall(Tenant, c.tenant)),
                    Run(_ => Some(c.tenant.id), InsideCompany(CounterOf(c), c.admin))))
  }

  function CreateCompany(c: Company): Prog {
    Catch(
      Run(_ => None, OpenCompany(c)),
      Throw(h => if Last(h) == Failed(UNIQUE_VIOLATION) then DOMAIN_TAKEN
                 else if Last(h).Failed? then Last(h).error else App(Other("unreachable"))))
  }

  const DOMAIN_TAKEN := App(Conflict("domain already registered"))

  function CompanyRows(c: Company): Rows {
    map[Key(Tenant, c.tenant.id) := RowFor(Tenant, c.tenant, None),
        Key(TicketCounter, c.tenant.id) := RowFor(TicketCounter, CounterOf(c), Some(c.tenant.id)),
        Key(User, c.admin.id) := RowFor(User, c.admin, Some(c.tenant.id))]
  }

  // The company's row under its id, its counter under the same id, and its first
  // administrator, each with the columns it was given and the last two in the new tenant.
  lemma CompanyRowsMean(c: Company)
    requires WellFormed(c)
    ensures var rows := CompanyRows(c);
            var tenant, counter := Key(Tenant, c.tenant.id), Key(TicketCounter, c.tenant.id);
            var admin := Key(User, c.admin.id);
            && rows.Keys == {tenant, counter, admin}
            && rows[tenant].tenant == "" && rows[counter].tenant == rows[admin].tenant == c.tenant.id
            && HasColumns(rows[tenant], c.tenant.data) && HasColumns(rows[counter], c.counter)
            && HasColumns(rows[admin], c.admin.data)
  {
    hide RowFor;
    RowForMeans(Tenant, c.tenant, "");
    RowForMeans(TicketCounter, CounterOf(c), c.tenant.id);
    RowForMeans(User, c.admin, c.tenant.id);
  }

  ghost predicate HasColumns(row: Row, data: Data) {
    && (forall name :: name in row.cols <==> Col(name) in data)
    && (forall name | name in row.cols :: row.cols[name] == data[Col(name)])
  }

  predicate Free(c: Company, rows: Rows) {
    rows.Keys !! CompanyRows(c).Keys && UniqueRows(rows + CompanyRows(c))
  }

  // A stored company has the domain asked for, or a stored user of the company's id the
  // address of its first administrator.
  predicate Clashes(c: Company, k: Key, row: Row) {
    || (k.model == Tenant && Col("domain") in c.tenant.data && "domain" in row.cols
        && row.cols["domain"] == c.tenant.data[Col("domain")] != Null)
    || (k.model == User && row.tenant == c.tenant.id && Col("email") in c.admin.data && "email" in row.cols
        && row.cols["email"] == c.admin.data[Col("email")] != Null)
  }

  // A company can be opened exactly when its three ids are new and nothing clashes.
  lemma FreeExactly(c: Company, rows: Rows)
    requires WellFormed(c) && UniqueRows(rows)
    ensures Free(c, rows)
        <==> && Key(Tenant, c.tenant.id) !in rows && Key(TicketCounter, c.tenant.id) !in rows
             && Key(User, c.admin.id) !in rows
             && forall k | k in rows :: !Clashes(c, k, rows[k])
  {
    hide Conflicting, Clashes, RowFor;
    var added := CompanyRows(c);
    assert added.Keys == {Key(Tenant, c.tenant.id), Key(TicketCounter, c.tenant.id), Key(User, c.admin.id)};
    var all := rows + added;
    if rows.Keys !! added.Keys {
      forall k | k in rows
        ensures (forall a | a in added :: !Conflicting(a, all[a], k, all[k])) <==> !Clashes(c, k, rows[k])
        ensures forall a | a in added :: Conflicting(a, all[a], k, all[k]) == Conflicting(k, all[k], a, all[a])
      {
        ClashesExactly(c, k, rows[k]);
        forall a | a in added ensures Conflicting(a, all[a], k, all[k]) == Conflicting(k, all[k], a, all[a]) {
          ConflictsExactly(a, all[a], k, all[k]);
          ConflictsExactly(k, all[k], a, all[a]);
        }
      }
      forall a, b | a in added && b in added ensures !Conflicting(a, all[a], b, all[b]) {
        ConflictsExactly(a, all[a], b, all[b]);
      }
    }
  }

  lemma ClashesExactly(c: Company, k: Key, row: Row)
    requires WellFormed(c) && k !in CompanyRows(c)
    ensures Clashes(c, k, row) <==> exists a | a in CompanyRows(c) :: Conflicting(a, CompanyRows(c)[a], k, row)
  {
    hide Conflicting, RowFor;
    var added := CompanyRows(c);
    RowForMeans(Tenant, c.tenant, "");
    RowForMeans(User, c.admin, c.tenant.id);
    ConflictsExactly(Key(TicketCounter, c.tenant.id), added[Key(TicketCounter, c.tenant.id)], k, row);
    ConflictsExactly(Key(Tenant, c.tenant.id), added[Key(Tenant, c.tenant.id)], k, row);
    ConflictsExactly(Key(User, c.admin.id), added[Key(User, c.admin.id)], k, row);
    var tenant, admin := Key(Tenant, c.tenant.id), Key(User, c.admin.id);
    assert tenant in added && admin in added;
    assert Clashes(c, k, row)
      <==> Conflicting(tenant, added[tenant], k, row) || Conflicting(admin, added[admin], k, row);
  }

  lemma FewerRowsStayUnique(rows: Rows, more: Rows)
    requires UniqueRows(more)
    requires forall k | k in rows :: k in more && more[k] == rows[k]
    ensures UniqueRows(rows)
  {
    forall k, k' | k in rows && k' in rows ensures !Conflicting(k, rows[k], k', rows[k']) {
      assert !Conflicting(k, more[k], k', more[k']);
    }
  }

  // The state after a run of creates: everything landed, or the first duplicate
  // aborted the transaction.
  predicate LandedOrAborted(w: World, r: (World, Outcome), rows: Rows, landed: bool) {
    && w.tx.Some? && r.0.tx.Some?
    && r.0.store == w.store && r.0.committed == w.committed
    && (if landed then
          r.1 == Ok && !r.0.tx.value.aborted && r.0.tx.value.rows == rows && r.0.tx.value.session == w.tx.value.session
        else
          r.1 == Err(UNIQUE_VIOLATION) && r.0.tx.value.aborted)
  }

  lemma InsideCompanyRuns(counter: NewRow, admin: NewRow, tenantId: string, w: World)
    requires InScope(w, tenantId) && TenantId !in counter.data && TenantId !in admin.data
    ensures var row, row' := RowFor(TicketCounter, counter, Some(tenantId)), RowFor(User, admin, Some(tenantId));
            var key, key' := Key(TicketCounter, counter.id), Key(User, admin.id);
            var rows := w.tx.value.rows;
            LandedOrAborted(w, Exec(InsideCompany(counter, admin), w), rows[key := row][key' := row'],
                            Insertable(rows, key, row) && Insertable(rows[key := row], key', row'))
  {
    hide IssueQuery, UniqueRows, RowFor;
    CreateStep(w, TicketCounter, counter);
    var (w1, outcome) := IssueQuery(w, CreateCall(TicketCounter, counter));
    var p := InsideCompany(counter, admin);
    assert Exec(p.first, w) == (w1, outcome);
    if outcome.Ok? {
      CreateStep(w1, User, admin);
      assert Exec(p, w) == IssueQuery(w1, CreateCall(User, admin));
    }
  }

  lemma OpenCompanyRuns(c: Company, w: World)
    requires Healthy(w) && w.store.value.tenantId.None? && w.tx.value.session == "" && WellFormed(c)
    ensures LandedOrAborted(w, Exec(OpenCompany(c), w), w.tx.value.rows + CompanyRows(c), Free(c, w.tx.value.rows))
  {
    hide IssueQuery, UniqueRows, RowFor;
    var p := OpenCompany(c).body;
    CreateStep(w, Tenant, c.tenant);
    var (w1, outcome) := IssueQuery(w, CreateCall(Tenant, c.tenant));
    assert Exec(p.first, w) == (w1, outcome);
    FreeInSteps(c, w.tx.value.rows);
    if outcome.Ok? {
      InsideScopeRuns(c, w1);
      assert Exec(p, w) == Exec(p.second, w1);
    }
  }

  lemma InsideScopeRuns(c: Company, w: World)
    requires Healthy(w) && w.store.value.tenantId.None? && w.tx.value.session == "" && WellFormed(c)
    ensures var row, row' := CompanyRows(c)[Key(TicketCounter, c.tenant.id)], CompanyRows(c)[Key(User, c.admin.id)];
            var key, key' := Key(TicketCounter, c.tenant.id), Key(User, c.admin.id);
            var rows := w.tx.value.rows;
            LandedOrAborted(w, Exec(Run(_ => Some(c.tenant.id), InsideCompany(CounterOf(c), c.admin)), w),
                            rows[key := row][key' := row'],
                            Insertable(rows, key, row) && Insertable(rows[key := row], key', row'))
  {
    hide IssueQuery, UniqueRows, RowFor;
    var id := c.tenant.id;
    var inside := InsideCompany(CounterOf(c), c.admin);
    var entered := w.(tx := Some(w.tx.value.(session := id)), store := Some(Store(Some(id))));
    InsideCompanyRuns(CounterOf(c), c.admin, id, entered);
    assert Exec(Run(_ => Some(id), inside), w) == RunNested(Some(id), inside, w);
  }

  lemma FreeInSteps(c: Company, rows: Rows)
    ensures var tenant, counter := Key(Tenant, c.tenant.id), Key(TicketCounter, c.tenant.id);
            var admin := Key(User, c.admin.id);
            var tenantRow, counterRow := CompanyRows(c)[tenant], CompanyRows(c)[counter];
            var adminRow := CompanyRows(c)[admin];
            var one := rows[tenant := tenantRow];
            var two := one[counter := counterRow];
            && two[admin := adminRow] == rows + CompanyRows(c)
            && (Free(c, rows) <==> Insertable(rows, tenant, tenantRow) && Insertable(one, counter, counterRow)
                                   && Insertable(two, admin, adminRow))
  {
    var tenant, counter, admin := Key(Tenant, c.tenant.id), Key(TicketCounter, c.tenant.id), Key(User, c.admin.id);
    AddedInSteps(rows, CompanyRows(c), tenant, counter, admin);
  }

  lemma AddedInSteps(rows: Rows, added: Rows, k: Key, k': Key, k'': Key)
    requires added.Keys == {k, k', k''} && k != k' && k' != k'' && k != k''
    ensures var one := rows[k := added[k]];
            var two := one[k' := added[k']];
            && two[k'' := added[k'']] == rows + added
            && (rows.Keys !! added.Keys && UniqueRows(rows + added)
                <==> (Insertable(rows, k, added[k]) && Insertable(one, k', added[k'])
                      && Insertable(two, k'', added[k''])))
  {
    var one := rows[k := added[k]];
    var two := one[k' := added[k']];
    assert two[k'' := added[k'']] == rows + added;
    if rows.Keys !! added.Keys && UniqueRows(rows + added) {
      FewerRowsStayUnique(two, rows + added);
      FewerRowsStayUnique(one, rows + added);
    }
  }

  lemma CreateCompanyRuns(c: Company, w: World)
    requires Healthy(w) && WellFormed(c)
    ensures var (after, outcome) := Exec(CreateCompany(c), w);
            && after.tx.Some? && after.committed == w.committed
            && (if Free(c, w.tx.value.rows) then
                  outcome == Ok && !after.tx.value.aborted && after.tx.value.rows == w.tx.value.rows + CompanyRows(c)
                else
                  outcome == Err(DOMAIN_TAKEN))
  {
    hide IssueQuery, UniqueRows, RowFor;
    var entered := w.(tx := Some(w.tx.value.(session := "")), store := Some(Store(None)));
    OpenCompanyRuns(c, entered);
    var p := CreateCompany(c);
    assert p.body == Run(p.body.tenant, OpenCompany(c)) && p.body.tenant(w.history) == None;
    NestedUnscopedRuns(p.body.tenant, OpenCompany(c), w);
    var (w1, outcome) := Exec(p.body, w);
    if outcome.Err? {
      assert Last(w1.history + [Failed(UNIQUE_VIOLATION)]) == Failed(UNIQUE_VIOLATION);
    }
  }

  lemma NestedUnscopedRuns(tenant: History -> Option<string>, body: Prog, w: World)
    requires Healthy(w) && tenant(w.history) == None
    ensures var entered := w.(tx := Some(w.tx.value.(session := "")), store := Some(Store(None)));
            var (w1, outcome) := Exec(body, entered);
            Exec(Run(tenant, body), w) ==
            (w1.(tx := Some(SetTenant(w1.tx.value, w.store.value.tenantId).0), store := w.store), outcome)
  {
  }

  // Opening a company, called by the platform operator from inside its own scope.
  // Either the tenant, its counter and its first ADMIN are all committed, which is
  // exactly when none of them duplicates anything; or nothing is, and the caller gets
  // a conflict.
  lemma CompanyAllOrNothing(c: Company, platform: string, db: Rows)
    requires platform != "" && WellFormed(c)
    ensures var (after, outcome) := Exec(Run(_ => Some(platform), CreateCompany(c)), Idle(db));
            if Free(c, db) then
              outcome == Ok && after.committed == db + CompanyRows(c)
            else
              outcome == Err(DOMAIN_TAKEN) && after.committed == db
  {
    hide IssueQuery, UniqueRows, RowFor;
    CreateCompanyRuns(c, Entered(Some(platform), Idle(db)));
  }

  // ----- UsersService.create ---------------------------------------------------------------

  function ByEmail(email: string): Where {
    Where(map[Col("email") := Equals(Text(email))], [], NoOr)
  }

  predicate Deactivated(rows: Rows) {
    exists k | k in rows :: Column(k, rows[k], Col("deletedAt")) != Null
  }

  const DEACTIVATED := App(Conflict("belongs to a deactivated user"))
  const IN_USE := App(Conflict("already in use"))

  function Explanation(reply: Reply): Error {
    if reply.Found? && Deactivated(reply.rows) then DEACTIVATED else IN_USE
  }

  lemma CompanyPropagates(c: Company)
    ensures Propagates(CreateCompany(c)) && RecoversByAttempt(CreateCompany(c)) && !Plain(CreateCompany(c))
  {
  }

  // The failure of the inner `$transaction` is caught only to be raised again, so opening a
  // company means the same with a really nested transaction: all of it or nothing.
  lemma CompanyNestsAlike(c: Company, platform: string, db: Rows)
    requires platform != "" && WellFormed(c)
    ensures var (after, outcome) := Exec(Run(_ => Some(platform), Nested(CreateCompany(c))), Idle(db));
            if Free(c, db) then outcome == Ok && after.committed == db + CompanyRows(c)
            else outcome == Err(DOMAIN_TAKEN) && after.committed == db
  {
    hide Exec, CompanyRows, Free, Nested, CreateCompany, Propagates, PropagatesIn, Plain, RecoversByAttempt;
    var p := CreateCompany(c);
    CompanyPropagates(c);
    PropagatesSuffices(p, Entered(Some(platform), Idle(db)));
    ReentrancyPreservesMeaning(_ => Some(platform), p, Idle(db));
    CompanyAllOrNothing(c, platform, db);
  }

  function ExplainDuplicate(email: string): Prog {
    Branch(h => Last(h) == Failed(UNIQUE_VIOLATION),
           Seq(Query(_ => Call(User, FindFirst, ByEmail(email), map[], [])), Throw(h => Explanation(Last(h)))),
           Throw(h => if Last(h).Failed? then Last(h).error else App(Other("unreachable"))))
  }

  function InsertUser(user: NewRow): Prog {
    Query(_ => CreateCall(User, user))
  }

  function CreateUser(user: NewRow, email: string): Prog {
    Catch(Attempt(InsertUser(user)), ExplainDuplicate(email))
  }

  lemma ExplainRuns(email: string, tenantId: string, w: World)
    requires InScope(w, tenantId) && UniqueRows(w.tx.value.rows) && Last(w.history) == Failed(UNIQUE_VIOLATION)
    ensures var (after, outcome) := Exec(ExplainDuplicate(email), w);
            var found := TenantRows(w.tx.value.rows, User, tenantId, ByEmail(email));
            && after.store == w.store && after.tx.Some? && !after.tx.value.aborted
            && after.tx.value.rows == w.tx.value.rows && after.tx.value.session == w.tx.value.session
            && outcome == Err(Explanation(Found(found)))
  {
    hide UniqueRows, TenantRows, IssueQuery, Explanation;
    var find := Call(User, FindFirst, ByEmail(email), map[], []);
    ReadStep(w, tenantId, find);
    var p := ExplainDuplicate(email);
    var (w1, _) := IssueQuery(w, find);
    assert Exec(p.yes.first, w).0 == w1;
    assert Exec(p, w) == Exec(p.yes, w) == Exec(p.yes.second, w1);
  }

  // Creating a user inside a tenant scope. A new address adds exactly one row. A taken
  // one changes nothing, leaves the transaction usable, and tells a deactivated owner
  // from an active one; that answer needs the database after the failed insert.
  lemma CreateUserRecovers(user: NewRow, email: string, tenantId: string, w: World)
    requires Sound(w) && InScope(w, tenantId) && UniqueRows(w.tx.value.rows) && TenantId !in user.data
    ensures var (after, outcome) := Exec(CreateUser(user, email), w);
            var rows := w.tx.value.rows;
            var key, row := Key(User, user.id), RowFor(User, user, Some(tenantId));
            && after.tx.Some? && !after.tx.value.aborted && after.tx.value.session == tenantId && after.store == w.store
            && (if Insertable(rows, key, row) then
                  outcome == Ok && after.tx.value.rows == rows[key := row]
                else
                  && after.tx.value.rows == rows
                  && outcome == Err(Explanation(Found(TenantRows(rows, User, tenantId, ByEmail(email))))))
  {
    hide IssueQuery, UniqueRows, RowFor, Insertable;
    CreateStep(w, User, user);
    AttemptAgainstInline(InsertUser(user), w);
    ExecDisciplined(Attempt(InsertUser(user)), w);
    var p := CreateUser(user, email);
    var (w1, outcome) := Exec(p.body, w);
    if outcome.Err? {
      var w2 := w1.(history := w1.history + [Failed(UNIQUE_VIOLATION)]);
      ExplainRuns(email, tenantId, w2);
      assert Exec(p, w) == Exec(p.handler, w2);
    }
  }

  // Whether the address is taken by a user of the company, deactivated ones included.
  predicate AddressTaken(rows: Rows, tenantId: string, email: string) {
    exists k | k in rows :: HasAddress(k, rows[k], tenantId, email)
  }

  predicate HasAddress(k: Key, row: Row, tenantId: string, email: string) {
    k.model == User && row.tenant == tenantId && "email" in row.cols && row.cols["email"] == Text(email)
  }

  // Whether one of them has been deactivated.
  predicate AddressDeactivated(rows: Rows, tenantId: string, email: string) {
    exists k | k in rows && HasAddress(k, rows[k], tenantId, email) ::
      "deletedAt" in rows[k].cols && rows[k].cols["deletedAt"] != Null
  }

  lemma ByEmailMeans(rows: Rows, tenantId: string, email: string)
    ensures forall k :: k in TenantRows(rows, User, tenantId, ByEmail(email))
              <==> k in rows && HasAddress(k, rows[k], tenantId, email)
  {
    forall k | k in rows && k.model == User && rows[k].tenant == tenantId
      ensures Holds(ByEmail(email), k, rows[k]) <==> HasAddress(k, rows[k], tenantId, email)
    {
      assert Col("email") in ByEmail(email).cols;
    }
  }

  // A new user with a fresh id is refused exactly when the address is taken, and is told that
  // the owner was deactivated exactly when that is so.
  lemma TakenAddressIsExplained(user: NewRow, email: string, tenantId: string, w: World)
    requires Sound(w) && InScope(w, tenantId) && UniqueRows(w.tx.value.rows) && TenantId !in user.data
    requires Col("email") in user.data && user.data[Col("email")] == Text(email)
    requires Key(User, user.id) !in w.tx.value.rows
    ensures var (after, outcome) := Exec(CreateUser(user, email), w);
            var rows := w.tx.value.rows;
            outcome == (if !AddressTaken(rows, tenantId, email) then Ok
                        else if AddressDeactivated(rows, tenantId, email) then
                          Err(App(Conflict("belongs to a deactivated user")))
                        else Err(App(Conflict("already in use"))))
  {
    hide Exec, CreateUser, UniqueRows, RowFor, Insertable, TenantRows, ByEmail, HasAddress;
    CreateUserRecovers(user, email, tenantId, w);
    var rows := w.tx.value.rows;
    var key, row := Key(User, user.id), RowFor(User, user, Some(tenantId));
    FreshUserInsertable(user, email, tenantId, rows);
    ByEmailMeans(rows, tenantId, email);
    var found := TenantRows(rows, User, tenantId, ByEmail(email));
    FoundAsStored(rows, tenantId, email);
    assert Deactivated(found) <==> AddressDeactivated(rows, tenantId, email);
  }

  lemma FoundAsStored(rows: Rows, tenantId: string, email: string)
    ensures var found := TenantRows(rows, User, tenantId, ByEmail(email));
            forall k | k in found :: k in rows && found[k] == rows[k]
  {
  }

  lemma FreshUserInsertable(user: NewRow, email: string, tenantId: string, rows: Rows)
    requires UniqueRows(rows) && TenantId !in user.data && Key(User, user.id) !in rows
    requires Col("email") in user.data && user.data[Col("email")] == Text(email)
    ensures Insertable(rows, Key(User, user.id), RowFor(User, user, Some(tenantId)))
        <==> !AddressTaken(rows, tenantId, email)
  {
    hide RowFor, Conflicting;
    var key, row := Key(User, user.id), RowFor(User, user, Some(tenantId));
    RowForMeans(User, user, tenantId);
    assert "email" in row.cols && row.cols["email"] == Text(email);
    var more := rows[key := row];
    forall k | k in rows
      ensures Conflicting(key, row, k, rows[k]) <==> HasAddress(k, rows[k], tenantId, email)
      ensures Conflicting(k, rows[k], key, row) <==> HasAddress(k, rows[k], tenantId, email)
    {
      ConflictsExactly(key, row, k, rows[k]);
      ConflictsExactly(k, rows[k], key, row);
    }
    assert !Conflicting(key, row, key, row) by { ConflictsExactly(key, row, key, row); }
    if k :| k in rows && HasAddress(k, rows[k], tenantId, email) {
      assert Conflicting(key, more[key], k, more[k]);
    }
  }

  lemma AbortedQueryFails(w: World, call: Call)
    requires w.tx.Some? && w.tx.value.aborted && Intercept(call, CurrentScope(w)).Success?
    ensures IssueQuery(w, call).1 == Err(TRANSACTION_ABORTED)
  {
  }

  // An error that is no duplicate is raised again as it was: here, that of a transaction an
  // earlier error had aborted.
  lemma CompanyPassesOtherErrors(c: Company, w: World)
    requires w.tx.Some? && w.store.Some? && w.tx.value.aborted
    ensures Exec(CreateCompany(c), w).1 == Err(TRANSACTION_ABORTED)
  {
    hide Issue, IssueQuery, RunOwner, ExecAttempt, EmitEvent, OpenCompany;
    var p := CreateCompany(c);
    var handled := w.(history := w.history + [Failed(TRANSACTION_ABORTED)]);
    assert Exec(p.body, w) == RunNested(None, OpenCompany(c), w) == (w, Err(TRANSACTION_ABORTED));
    assert Exec(p, w) == Exec(p.handler, handled);
  }

  lemma UserPassesOtherErrors(user: NewRow, email: string, w: World)
    requires w.tx.Some? && w.store.Some? && w.tx.value.aborted
    ensures Exec(CreateUser(user, email), w).1 == Err(TRANSACTION_ABORTED)
  {
    hide Issue, IssueQuery, RunOwner, RunNested, EmitEvent, InsertUser;
    var p := CreateUser(user, email);
    var failed := w.(counter := w.counter + 1);
    var handled := failed.(history := w.history + [Failed(TRANSACTION_ABORTED)]);
    assert Exec(p.body, w) == ExecAttempt(InsertUser(user), w) == (failed, Err(TRANSACTION_ABORTED));
    assert Exec(p, w) == Exec(p.handler, handled) == Exec(p.handler.no, handled);
  }

  // The same request without `attempt` gets 25P02 instead of an answer.
  lemma CreateUserNeedsAttempt(user: NewRow, email: string, tenantId: string, w: World)
    requires InScope(w, tenantId) && TenantId !in user.data
    requires !Insertable(w.tx.value.rows, Key(User, user.id), RowFor(User, user, Some(tenantId)))
    ensures Exec(Catch(InsertUser(user), ExplainDuplicate(email)), w).1 == Err(TRANSACTION_ABORTED)
  {
    hide IssueQuery, UniqueRows, RowFor;
    CreateStep(w, User, user);
    var p := Catch(InsertUser(user), ExplainDuplicate(email));
    var (w1, outcome) := Exec(p.body, w);
    var w2 := w1.(history := w1.history + [Failed(UNIQUE_VIOLATION)]);
    var find := Call(User, FindFirst, ByEmail(email), map[], []);
    assert Intercept(find, CurrentScope(w2)).Success?;
    AbortedQueryFails(w2, find);
    assert Exec(p, w) == Exec(p.handler, w2) == Exec(p.handler.yes, w2);
  }
}
