// src/tenancy/tenant-extension.ts: the rewriting applied to every model operation.
module TenantExtension {
  import opened Values
  import opened Filters
  import opened Database

  // src/tenancy/tenant-context.ts: what `currentScope` reads off the store.
  datatype ScopeKind = InTenant(tenantId: string) | Unscoped | NoScope

  predicate WhereOperation(op: Operation) {
    op in {FindUnique, FindUniqueOrThrow, FindFirst, FindFirstOrThrow, FindMany,
           Count, Aggregate, GroupBy, Delete, DeleteMany}
  }

  predicate UpdateOperation(op: Operation) {
    op in {Update, UpdateMany, UpdateManyAndReturn}
  }

  predicate CreateOperation(op: Operation) {
    op in {Create, CreateMany, CreateManyAndReturn}
  }

  predicate UnsupportedOperation(op: Operation) {
    op in {FindRaw, AggregateRaw}
  }

  function ScopeWhere(call: Call, tenantId: string): Call {
    call.(where := With(call.where, TenantId, Equals(Text(tenantId))))
  }

  predicate SuppliesOther(row: NewRow, tenantId: string) {
    TenantId in row.data && row.data[TenantId] != Text(tenantId)
  }

  function StampTenant(creates: seq<NewRow>, tenantId: string): Result<seq<NewRow>> {
    if exists i | 0 <= i < |creates| :: SuppliesOther(creates[i], tenantId) then
      Failure(App(CrossTenantWrite))
    else
      Success(seq(|creates|, i requires 0 <= i < |creates| =>
        NewRow(creates[i].id, creates[i].data[TenantId := Text(tenantId)])))
  }

  function RejectTenantRewrite(data: Data): Result<()> {
    if TenantId in data then Failure(App(CrossTenantWrite)) else Success(())
  }

  // `Tenant` is exempt from the tenant filter but is pinned to the scope's own row.
  function ScopeAgnostic(call: Call, scope: ScopeKind): Result<Call> {
    match scope
    case NoScope => Failure(App(ContextMissing))
    case Unscoped => Success(call)
    case InTenant(tenantId) =>
      if WhereOperation(call.op) || UpdateOperation(call.op) then
        Success(call.(where := With(call.where, Id, Equals(Text(tenantId)))))
      else
        Success(call)
  }

  function ScopeCall(call: Call, tenantId: string): Result<Call> {
    if WhereOperation(call.op) then
      Success(ScopeWhere(call, tenantId))
    else if UpdateOperation(call.op) then
      var _ :- RejectTenantRewrite(call.data);
      Success(ScopeWhere(call, tenantId))
    else if CreateOperation(call.op) then
      var creates :- StampTenant(call.creates, tenantId);
      Success(call.(creates := creates))
    else if call.op == Upsert then
      var _ :- RejectTenantRewrite(call.data);
      var creates :- StampTenant(call.creates, tenantId);
      Success(ScopeWhere(call, tenantId).(creates := creates))
    else
      Failure(App(UnknownOperation))
  }

  function RequireTenantId(scope: ScopeKind): Result<string> {
    match scope
    case InTenant(tenantId) => Success(tenantId)
    case _ => Failure(App(ContextMissing))
  }

  // `$allOperations`.
  function Intercept(call: Call, scope: ScopeKind): Result<Call> {
    if UnsupportedOperation(call.op) then
      Failure(App(UnknownOperation))
    else if call.model == Tenant then
      ScopeAgnostic(call, scope)
    else
      var tenantId :- RequireTenantId(scope);
      ScopeCall(call, tenantId)
  }

  // ----- What is let through, and what of it is touched ----------------------------------------

  // An operation reaches the database exactly in these cases.
  lemma InterceptedExactly(call: Call, scope: ScopeKind)
    ensures Intercept(call, scope).Success? <==>
            && !call.op.FindRaw? && !call.op.AggregateRaw? && scope != NoScope
            && (call.model != Tenant ==>
                  && scope.InTenant? && !call.op.Unclassified?
                  && (call.op in {Update, UpdateMany, UpdateManyAndReturn, Upsert} ==> TenantId !in call.data)
                  && (call.op in {Create, CreateMany, CreateManyAndReturn, Upsert} ==>
                        forall i | 0 <= i < |call.creates| && TenantId in call.creates[i].data ::
                          call.creates[i].data[TenantId] == Text(scope.tenantId)))
    ensures Intercept(call, scope).Failure? ==>
            Intercept(call, scope).error ==
            (if call.op.FindRaw? || call.op.AggregateRaw? then App(UnknownOperation)
             else if scope == NoScope || (call.model != Tenant && scope == Unscoped) then App(ContextMissing)
             else if call.op.Unclassified? then App(UnknownOperation)
             else App(CrossTenantWrite))
  {
    if scope.InTenant? {
      assert forall row: NewRow :: SuppliesOther(row, scope.tenantId) <==>
        TenantId in row.data && row.data[TenantId] != Text(scope.tenantId);
    }
  }

  // Nothing of the operation changes but the pinned key of its filter and the tenant of the
  // rows it creates.
  lemma InterceptKeepsTheRest(call: Call, scope: ScopeKind)
    requires Intercept(call, scope).Success?
    ensures var scoped := Intercept(call, scope).value;
            && scoped.model == call.model && scoped.op == call.op && scoped.data == call.data
            && scoped.where.ands == call.where.ands && scoped.where.ors == call.where.ors
            && (forall f | f !in {TenantId, Id} ::
                  (f in scoped.where.cols <==> f in call.where.cols)
                  && (f in call.where.cols ==> scoped.where.cols[f] == call.where.cols[f]))
            && |scoped.creates| == |call.creates|
            && forall i | 0 <= i < |call.creates| ::
                 && scoped.creates[i].id == call.creates[i].id
                 && scoped.creates[i].data - {TenantId} == call.creates[i].data - {TenantId}
  {
  }

  // And these are pinned to the scope: the filter of every operation that has one, and the
  // rows of every operation that inserts.
  lemma InterceptPins(call: Call, tenantId: string)
    requires Intercept(call, InTenant(tenantId)).Success?
    ensures var scoped := Intercept(call, InTenant(tenantId)).value;
            var inserts := call.op in {Create, CreateMany, CreateManyAndReturn};
            && (call.model != Tenant && !inserts ==>
                  && scoped.where.cols == call.where.cols[TenantId := Equals(Text(tenantId))])
            && (call.model != Tenant && (inserts || call.op == Upsert) ==>
                  forall i | 0 <= i < |call.creates| ::
                    scoped.creates[i].data == call.creates[i].data[TenantId := Text(tenantId)])
            && (call.model == Tenant && !inserts && call.op != Upsert && !call.op.Unclassified? ==>
                  scoped.where.cols == call.where.cols[Id := Equals(Text(tenantId))])
    ensures Intercept(call, Unscoped).Success? ==> Intercept(call, Unscoped).value == call
  {
  }

  // ----- What the rewriting means -----------------------------------------------

  // The caller's own filter without whatever it said about the tenant.
  function Intended(call: Call): Call {
    call.(where := call.where.(cols := call.where.cols - {TenantId}))
  }

  // Filtering: a scoped operation selects exactly the tenant's rows that the
  // caller's filter selects, whatever the caller wrote under `tenantId`.
  lemma SelectsTenantRows(call: Call, tenantId: string, db: Rows)
    requires call.model != Tenant
    requires WhereOperation(call.op) || UpdateOperation(call.op) || call.op == Upsert
    requires Intercept(call, InTenant(tenantId)).Success?
    ensures var scoped := Intercept(call, InTenant(tenantId)).value;
            Matched(scoped, db) == map k | k in Matched(Intended(call), db) && db[k].tenant == tenantId :: db[k]
  {
    hide Holds;
    forall k | k in db
      ensures Holds(ScopeWhere(call, tenantId).where, k, db[k])
          <==> db[k].tenant == tenantId && Holds(Intended(call).where, k, db[k])
    {
      WithMeans(call.where, TenantId, Equals(Text(tenantId)), k, db[k]);
    }
  }

  lemma {:induction false} RowsBelong(model: Model, creates: seq<NewRow>, tenantId: string)
    requires forall i | 0 <= i < |creates| :: Inserted(creates[i]).tenant == tenantId
    ensures forall k | k in NewRows(model, creates) ::
              k.model == model && NewRows(model, creates)[k].tenant == tenantId
  {
    if creates != [] {
      RowsBelong(model, creates[1..], tenantId);
    }
  }

  // Writing: whatever a scoped operation inserts or updates belongs to the tenant,
  // and it updates and deletes only rows that already did. This needs no policy.
  lemma WritesStayInTenant(call: Call, tenantId: string, db: Rows)
    requires call.model != Tenant
    requires Intercept(call, InTenant(tenantId)).Success?
    requires EffectOn(Intercept(call, InTenant(tenantId)).value,
                      Matched(Intercept(call, InTenant(tenantId)).value, db)).Write?
    ensures var scoped := Intercept(call, InTenant(tenantId)).value;
            StaysIn(EffectOn(scoped, Matched(scoped, db)), call.model, tenantId, db)
  {
    hide Holds, EffectOn, StaysIn;
    var scoped := Intercept(call, InTenant(tenantId)).value;
    if !CreateOperation(call.op) {
      SelectsTenantRows(call, tenantId, db);
    }
    if CreateOperation(call.op) || call.op == Upsert {
      RowsBelong(call.model, scoped.creates, tenantId);
    }
    EffectStaysIn(scoped, tenantId, db, Matched(scoped, db));
  }

  ghost predicate StaysIn(effect: Effect, model: Model, tenantId: string, db: Rows)
    requires effect.Write?
  {
    && (forall k | k in effect.inserts :: k.model == model && effect.inserts[k].tenant == tenantId)
    && (forall k | k in effect.updates :: k in db && db[k].tenant == tenantId && effect.updates[k].tenant == tenantId)
    && (forall k | k in effect.deletes :: k in db && db[k].tenant == tenantId)
  }

  lemma EffectStaysIn(call: Call, tenantId: string, db: Rows, rows: Rows)
    requires EffectOn(call, rows).Write?
    requires UpdateOperation(call.op) || call.op == Upsert ==> TenantId !in call.data
    requires !CreateOperation(call.op) ==>
               forall k | k in rows :: k in db && db[k].tenant == rows[k].tenant == tenantId
    requires CreateOperation(call.op) || call.op == Upsert ==>
               forall k | k in NewRows(call.model, call.creates) ::
                 k.model == call.model && NewRows(call.model, call.creates)[k].tenant == tenantId
    ensures StaysIn(EffectOn(call, rows), call.model, tenantId, db)
  {
  }

  // An accepted operation does what the caller's own would do on the tenant's matching rows,
  // with the rows it creates given to the tenant.
  lemma ScopedEffect(call: Call, tenantId: string, db: Rows)
    requires call.model != Tenant && Intercept(call, InTenant(tenantId)).Success?
    ensures var scoped := Intercept(call, InTenant(tenantId)).value;
            var mine := map k | k in Matched(Intended(call), db) && db[k].tenant == tenantId :: db[k];
            EffectOn(scoped, Matched(scoped, db)) == EffectOn(call.(creates := scoped.creates), mine)
  {
    hide Holds;
    var scoped := Intercept(call, InTenant(tenantId)).value;
    if !CreateOperation(call.op) { SelectsTenantRows(call, tenantId, db); }
  }

  // The two layers are redundant: under a session that agrees with the scope, the
  // policy changes nothing about a scoped operation. It has the effect it would have
  // with every row of every tenant in view, and the write check never refuses it.
  lemma LayersCoincide(call: Call, tenantId: string, db: Rows)
    requires tenantId != ""
    requires call.model != Tenant
    requires Intercept(call, InTenant(tenantId)).Success?
    ensures var scoped := Intercept(call, InTenant(tenantId)).value;
            var effect := EffectOn(scoped, Matched(scoped, db));
            && EffectOn(scoped, Matched(scoped, Visible(db, tenantId))) == effect
            && (effect.Write? ==> PolicyAllows(tenantId, effect.inserts) && PolicyAllows(tenantId, effect.updates))
  {
    hide Holds;
    var scoped := Intercept(call, InTenant(tenantId)).value;
    if !CreateOperation(call.op) {
      SelectsTenantRows(call, tenantId, db);
      SelectsTenantRows(call, tenantId, Visible(db, tenantId));
      assert Matched(scoped, Visible(db, tenantId)) == Matched(scoped, db);
    }
    if EffectOn(scoped, Matched(scoped, db)).Write? {
      WritesStayInTenant(call, tenantId, db);
    }
  }
}
