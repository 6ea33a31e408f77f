// PostgreSQL as far as tenancy needs it: the row-level policy, the unique
// constraints, and the effect of one statement on the rows it may see.
module Database {
  import opened Values
  import opened Filters

  type Rows = map<Key, Row>

  // ----- Operations, as they reach the database -------------------------------

  datatype Operation =
    | FindUnique | FindUniqueOrThrow | FindFirst | FindFirstOrThrow | FindMany
    | Count | Aggregate | GroupBy | Delete | DeleteMany
    | Update | UpdateMany | UpdateManyAndReturn
    | Create | CreateMany | CreateManyAndReturn
    | Upsert
    | FindRaw | AggregateRaw
    | Unclassified(name: string)

  type Data = map<Field, Value>

  // The id of a new row is generated, so it is part of the input here.
  datatype NewRow = NewRow(id: string, data: Data)

  // `where` filters; `data` is what an update writes; `creates` is what a create inserts.
  datatype Call = Call(model: Model, op: Operation, where: Where, data: Data, creates: seq<NewRow>)

  datatype Reply =
    | Found(rows: Rows)
    | Number(count: nat)
    | Failed(error: Error)

  // What a statement asks for, computed from the rows the session can see.
  datatype Effect =
    | Write(inserts: Rows, updates: Rows, deletes: set<Key>, reply: Reply)
    | Refuse(error: Error)

  // ----- The policy -------------------------------------------------------------

  // `tenant_id = nullif(current_setting('app.tenant_id'), '')`, for reading and for
  // writing. `tenants` has no policy.
  predicate Permits(session: string, key: Key, row: Row) {
    key.model == Tenant || (session != "" && row.tenant == session)
  }

  function Visible(db: Rows, session: string): Rows {
    map k | k in db && Permits(session, k, db[k]) :: db[k]
  }

  // The tables that carry a policy: all of them but `tenants`.
  function Policed(db: Rows): Rows {
    map k | k in db && k.model != Tenant :: db[k]
  }

  // Whose row it is.
  function Owner(key: Key, row: Row): string {
    if key.model == Tenant then key.id else row.tenant
  }

  // ----- Unique constraints -----------------------------------------------------

  // A column unique over the whole table, and one unique within a tenant.
  function GloballyUnique(model: Model): Option<string> {
    match model
    case Tenant => Some("domain")
    case RefreshToken => Some("tokenHash")
    case _ => None
  }

  function UniqueInTenant(model: Model): Option<string> {
    match model
    case User => Some("email")
    case Ticket => Some("number")
    case _ => None
  }

  predicate SameValue(column: Option<string>, k: Key, r: Row, k': Key, r': Row) {
    column.Some? && Column(k, r, Col(column.value)) == Column(k', r', Col(column.value)) != Null
  }

  predicate Conflicting(k: Key, r: Row, k': Key, r': Row) {
    && k != k'
    && k.model == k'.model
    && (SameValue(GloballyUnique(k.model), k, r, k', r')
        || (r.tenant == r'.tenant && SameValue(UniqueInTenant(k.model), k, r, k', r')))
  }

  predicate UniqueRows(db: Rows) {
    forall k, k' | k in db && k' in db :: !Conflicting(k, db[k], k', db[k'])
  }

  // ----- One statement ----------------------------------------------------------

  function Matched(call: Call, visible: Rows): Rows {
    map k | k in visible && k.model == call.model && Holds(call.where, k, visible[k]) :: visible[k]
  }

  function Patch(row: Row, data: Data): Row {
    Row(
      if TenantId in data && data[TenantId].Text? then data[TenantId].text else row.tenant,
      row.cols + NamedColumns(data))
  }

  function NamedColumns(data: Data): map<string, Value> {
    map f | f in data && f.Col? :: f.name := data[f]
  }

  function Inserted(newRow: NewRow): Row {
    Patch(Row("", map[]), newRow.data)
  }

  predicate DistinctIds(creates: seq<NewRow>) {
    forall i, j | 0 <= i < j < |creates| :: creates[i].id != creates[j].id
  }

  function NewRows(model: Model, creates: seq<NewRow>): Rows {
    if creates == [] then
      map[]
    else
      NewRows(model, creates[1..])[Key(model, creates[0].id) := Inserted(creates[0])]
  }

  function Patched(rows: Rows, data: Data): Rows {
    map k | k in rows :: Patch(rows[k], data)
  }

  // What an operation does with the rows its `where` selected.
  datatype Action = Reading | Deleting | Updating | Inserting | Rejecting

  function ActionOf(op: Operation, selected: Rows): Action {
    match op
    case Delete => Deleting
    case DeleteMany => Deleting
    case Update => Updating
    case UpdateMany => Updating
    case UpdateManyAndReturn => Updating
    case Create => Inserting
    case CreateMany => Inserting
    case CreateManyAndReturn => Inserting
    case Upsert => if selected == map[] then Inserting else Updating
    case FindRaw => Rejecting
    case AggregateRaw => Rejecting
    case Unclassified(_) => Rejecting
    case _ => Reading
  }

  // Operations that fail when nothing matches.
  predicate MustFind(op: Operation) {
    op == FindUniqueOrThrow || op == FindFirstOrThrow || op == Delete || op == Update
  }

  predicate AnswersCount(op: Operation) {
    op == Count || op == DeleteMany || op == UpdateMany || op == CreateMany
  }

  // The effect of a model operation whose `where` selected `rows`.
  function EffectOn(call: Call, rows: Rows): Effect {
    if MustFind(call.op) && rows == map[] then
      Refuse(App(NotFound))
    else
      match ActionOf(call.op, rows)
      case Reading => Write(map[], map[], {}, Answer(call.op, rows))
      case Deleting => Write(map[], map[], rows.Keys, Answer(call.op, rows))
      case Updating => UpdateEffect(call, rows)
      case Inserting => InsertEffect(call)
      case Rejecting => Refuse(App(UnknownOperation))
  }

  function Answer(op: Operation, rows: Rows): Reply {
    if AnswersCount(op) then Number(|rows|) else Found(rows)
  }

  function UpdateEffect(call: Call, rows: Rows): Effect {
    if Id in call.data then
      Refuse(KEY_REWRITE)
    else
      Write(map[], Patched(rows, call.data), {},
            if AnswersCount(call.op) then Number(|rows|) else Found(Patched(rows, call.data)))
  }

  function InsertEffect(call: Call): Effect {
    if !DistinctIds(call.creates) then
      Refuse(UNIQUE_VIOLATION)
    else
      var rows := NewRows(call.model, call.creates);
      Write(rows, map[], {}, Answer(call.op, rows))
  }

  // Whatever the operation, it inserts the rows it was given or none, patches the rows
  // it selected or none, and deletes those or none.
  lemma EffectShape(call: Call, rows: Rows)
    requires EffectOn(call, rows).Write?
    ensures EffectOn(call, rows).inserts ==
            (if ActionOf(call.op, rows) == Inserting then NewRows(call.model, call.creates) else map[])
    ensures EffectOn(call, rows).updates ==
            (if ActionOf(call.op, rows) == Updating then Patched(rows, call.data) else map[])
    ensures EffectOn(call, rows).deletes == (if ActionOf(call.op, rows) == Deleting then rows.Keys else {})
  {
    hide NewRows, Patched, DistinctIds;
  }

  // A statement: either a model operation, or SQL whose effect is any function of
  // the policed rows the session sees.
  datatype Statement = ModelStatement(call: Call) | RawStatement(effect: Rows -> Effect)

  function Evaluate(statement: Statement, visible: Rows): Effect {
    match statement
    case ModelStatement(call) => EffectOn(call, Matched(call, visible))
    case RawStatement(effect) => Reachable(effect(Policed(visible)), Policed(visible))
  }

  // SQL updates and deletes only rows it can see, and the model gives it only
  // policed tables.
  function Reachable(effect: Effect, visible: Rows): Effect {
    match effect
    case Refuse(_) => effect
    case Write(inserts, updates, deletes, reply) =>
      Write(Policed(inserts), map k | k in updates && k in visible :: updates[k], deletes * visible.Keys, reply)
  }

  function Overwrite(db: Rows, effect: Effect): Rows
    requires effect.Write?
  {
    (db - effect.deletes) + effect.updates + effect.inserts
  }

  predicate PolicyAllows(session: string, rows: Rows) {
    forall k | k in rows :: Permits(session, k, rows[k])
  }

  // The constraint and policy checks PostgreSQL makes before a write takes effect.
  function Refusal(db: Rows, session: string, effect: Effect): Option<Error> {
    match effect
    case Refuse(e) => Some(e)
    case Write(inserts, updates, _, _) =>
      if !PolicyAllows(session, inserts) || !PolicyAllows(session, updates) then Some(POLICY_VIOLATION)
      else if inserts.Keys * db.Keys != {} then Some(UNIQUE_VIOLATION)
      else if !UniqueRows(Overwrite(db, effect)) then Some(UNIQUE_VIOLATION)
      else None
  }

  // What the session's statement does to the database.
  function EffectUnder(db: Rows, session: string, statement: Statement): Effect {
    Evaluate(statement, Visible(db, session))
  }

  // ----- What the statements mean, operation by operation ----------------------------------

  // The rows a session sees, and may write: its own tenant's, and every company.
  lemma SeenExactly(db: Rows, session: string, k: Key)
    ensures k in Visible(db, session) <==> k in db && (k.model == Tenant || (session != "" && db[k].tenant == session))
    ensures k in Visible(db, session) ==> Visible(db, session)[k] == db[k]
  {
  }

  // The constraints: one company per domain, one token per hash, and within a company one
  // user per address and one ticket per number. NULL never collides.
  lemma ConflictsExactly(k: Key, r: Row, k': Key, r': Row)
    ensures Conflicting(k, r, k', r') <==>
            && k != k' && k.model == k'.model
            && match k.model
               case Tenant => SharesValue("domain", r, r')
               case RefreshToken => SharesValue("tokenHash", r, r')
               case User => r.tenant == r'.tenant && SharesValue("email", r, r')
               case Ticket => r.tenant == r'.tenant && SharesValue("number", r, r')
               case _ => false
  {
  }

  predicate SharesValue(name: string, r: Row, r': Row) {
    name in r.cols && name in r'.cols && r.cols[name] == r'.cols[name] != Null
  }

  // An update leaves every column it does not name, and a create has only what it names.
  lemma PatchMeans(row: Row, data: Data)
    requires TenantId !in data || data[TenantId].Text?
    ensures Patch(row, data).tenant == if TenantId in data then data[TenantId].text else row.tenant
    ensures forall name :: name in Patch(row, data).cols <==> name in row.cols || Col(name) in data
    ensures forall name | name in Patch(row, data).cols ::
              Patch(row, data).cols[name] == if Col(name) in data then data[Col(name)] else row.cols[name]
  {
    NamedColumnsMean(data);
  }

  lemma NamedColumnsMean(data: Data)
    ensures forall name :: name in NamedColumns(data) <==> Col(name) in data
    ensures forall name | name in NamedColumns(data) :: NamedColumns(data)[name] == data[Col(name)]
  {
    forall name ensures name in NamedColumns(data) <==> Col(name) in data {
      assert Col(name) in data ==> Col(name).name in NamedColumns(data);
    }
  }

  // Reading changes nothing; the forms that must find fail on nothing, and counting counts.
  lemma ReadsAnswer(call: Call, rows: Rows)
    ensures call.op in {FindUnique, FindFirst, FindMany, Aggregate, GroupBy} ==>
              EffectOn(call, rows) == Write(map[], map[], {}, Found(rows))
    ensures call.op in {FindUniqueOrThrow, FindFirstOrThrow} ==>
              EffectOn(call, rows) == if rows == map[] then Refuse(App(NotFound))
                                      else Write(map[], map[], {}, Found(rows))
    ensures call.op == Count ==> EffectOn(call, rows) == Write(map[], map[], {}, Number(|rows|))
  {
  }

  // One row must be there to be deleted; the plural form takes what there is and counts it.
  lemma DeletesLand(call: Call, rows: Rows)
    requires call.op in {Delete, DeleteMany}
    ensures EffectOn(call, rows) ==
            if call.op == Delete && rows == map[] then Refuse(App(NotFound))
            else Write(map[], map[], rows.Keys, if call.op == Delete then Found(rows) else Number(|rows|))
  {
    hide NewRows, Patched, DistinctIds;
  }

  // One row must be there to be updated; the plural forms take what there is. Each row keeps
  // what the data does not name, and no row changes its id.
  lemma UpdatesLand(call: Call, rows: Rows)
    requires call.op in {Update, UpdateMany, UpdateManyAndReturn}
    ensures var patched := map k | k in rows :: Patch(rows[k], call.data);
            EffectOn(call, rows) ==
            if call.op == Update && rows == map[] then Refuse(App(NotFound))
            else if Id in call.data then Refuse(KEY_REWRITE)
            else Write(map[], patched, {}, if call.op == UpdateMany then Number(|rows|) else Found(patched))
  {
    hide NewRows, DistinctIds, Patch;
    assert Patched(rows, call.data) == map k | k in rows :: Patch(rows[k], call.data);
  }

  // A create inserts one row per element, under its id; two with one id are a duplicate.
  lemma CreatesInsert(call: Call, rows: Rows)
    requires call.op in {Create, CreateMany, CreateManyAndReturn}
    ensures !DistinctIds(call.creates) ==> EffectOn(call, rows) == Refuse(UNIQUE_VIOLATION)
    ensures DistinctIds(call.creates) ==>
              var effect := EffectOn(call, rows);
              && effect.Write? && effect.updates == map[] && effect.deletes == {}
              && InsertsEach(effect.inserts, call.model, call.creates)
              && effect.reply == if call.op == CreateMany then Number(|call.creates|) else Found(effect.inserts)
  {
    hide NewRows, InsertsEach, DistinctIds;
    if DistinctIds(call.creates) { NewRowsMean(call.model, call.creates); }
  }

  predicate HasId(creates: seq<NewRow>, id: string) {
    exists i | 0 <= i < |creates| :: creates[i].id == id
  }

  predicate InsertsEach(inserts: Rows, model: Model, creates: seq<NewRow>) {
    && (forall k | k in inserts :: k.model == model && HasId(creates, k.id))
    && (forall i | 0 <= i < |creates| ::
          && Key(model, creates[i].id) in inserts
          && inserts[Key(model, creates[i].id)] == Patch(Row("", map[]), creates[i].data))
  }

  lemma {:induction false} NewRowsMean(model: Model, creates: seq<NewRow>)
    requires DistinctIds(creates)
    ensures InsertsEach(NewRows(model, creates), model, creates)
    ensures |NewRows(model, creates)| == |creates|
  {
    hide Patch;
    if creates != [] {
      var first, rest := creates[0], creates[1..];
      NewRowsMean(model, rest);
      OneInsertMore(NewRows(model, rest), model, creates);
      forall i | 0 <= i < |rest| ensures rest[i].id != first.id { assert rest[i] == creates[i + 1]; }
      OneMore(NewRows(model, rest), Key(model, first.id), Inserted(first));
    }
  }

  lemma OneInsertMore(inserts: Rows, model: Model, creates: seq<NewRow>)
    requires creates != [] && DistinctIds(creates) && InsertsEach(inserts, model, creates[1..])
    ensures InsertsEach(inserts[Key(model, creates[0].id) := Inserted(creates[0])], model, creates)
  {
    hide Patch;
    var more := inserts[Key(model, creates[0].id) := Inserted(creates[0])];
    forall k | k in more ensures k.model == model && HasId(creates, k.id) {
      if k in inserts {
        var i :| 0 <= i < |creates[1..]| && creates[1..][i].id == k.id;
        assert creates[i + 1].id == k.id;
      } else {
        assert creates[0].id == k.id;
      }
    }
    forall i | 0 <= i < |creates|
      ensures Key(model, creates[i].id) in more
      ensures more[Key(model, creates[i].id)] == Patch(Row("", map[]), creates[i].data)
    {
      if i > 0 { assert creates[i] == creates[1..][i - 1] && creates[i].id != creates[0].id; }
    }
  }

  lemma OneMore(rows: Rows, key: Key, row: Row)
    requires key !in rows
    ensures |rows[key := row]| == |rows| + 1
  {
    assert rows[key := row].Keys == rows.Keys + {key};
    assert |rows.Keys + {key}| == |rows.Keys| + 1;
    assert |rows[key := row].Keys| == |rows[key := row]| && |rows.Keys| == |rows|;
  }

  // An upsert updates what it finds, and inserts when it finds nothing.
  lemma UpsertMeans(call: Call, rows: Rows)
    requires call.op == Upsert
    ensures rows == map[] ==> EffectOn(call, rows) == EffectOn(call.(op := Create), rows)
    ensures rows != map[] ==> EffectOn(call, rows) == EffectOn(call.(op := Update), rows)
  {
    hide DistinctIds, NewRows, Patched;
  }

  // Raw document commands and operations nobody has classified never reach the database.
  lemma TheRestIsRefused(call: Call, rows: Rows)
    ensures call.op.FindRaw? || call.op.AggregateRaw? || call.op.Unclassified? ==>
              EffectOn(call, rows) == Refuse(App(UnknownOperation))
  {
  }

  // What PostgreSQL lets through: new and changed rows the session may write, no row twice,
  // and no constraint broken by the outcome. The policy speaks before the constraints.
  lemma LandsExactly(db: Rows, session: string, effect: Effect)
    requires effect.Write?
    ensures Refusal(db, session, effect) ==
            (if !Lawful(effect.inserts, session) || !Lawful(effect.updates, session) then Some(POLICY_VIOLATION)
             else if !(effect.inserts.Keys !! db.Keys) || !UniqueRows(Overwrite(db, effect)) then Some(UNIQUE_VIOLATION)
             else None)
  {
    hide UniqueRows, Overwrite;
    if effect.inserts.Keys !! db.Keys {
      assert effect.inserts.Keys * db.Keys == {};
    } else {
      var k :| k in effect.inserts && k in db;
      assert k in effect.inserts.Keys * db.Keys;
    }
    assert Lawful(effect.inserts, session) <==> PolicyAllows(session, effect.inserts);
    assert Lawful(effect.updates, session) <==> PolicyAllows(session, effect.updates);
  }

  // Every row is a company or belongs to the session's tenant.
  predicate Lawful(rows: Rows, session: string) {
    forall k | k in rows :: k.model == Tenant || (session != "" && rows[k].tenant == session)
  }

  // Afterwards: what was inserted, else what was updated, else what was there and not deleted.
  lemma OverwriteMeans(db: Rows, effect: Effect, k: Key)
    requires effect.Write?
    ensures k in Overwrite(db, effect)
        <==> k in effect.inserts || k in effect.updates || (k in db && k !in effect.deletes)
    ensures k in Overwrite(db, effect) ==>
              Overwrite(db, effect)[k] == if k in effect.inserts then effect.inserts[k]
                                          else if k in effect.updates then effect.updates[k]
                                          else db[k]
  {
  }
}
