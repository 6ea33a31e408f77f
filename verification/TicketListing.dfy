// The `where` objects of the ticket queries against what they are meant to say:
// TicketsService.findAll, load and visibleTo, and ticket-visibility.ts.
module TicketListing {
  import opened Values
  import opened Filters
  import opened Database
  import opened TenantExtension
  import opened Tickets

  datatype Query = Query(
    status: Option<Status>, priority: Option<string>, category: Option<string>,
    assigneeId: Option<string>, requesterId: Option<string>,
    unassigned: Option<bool>, search: Option<string>)

  const NO_FILTER := Query(None, None, None, None, None, None, None)

  // JavaScript's `query.x ? … : …` on an optional string.
  predicate Truthy(text: Option<string>) {
    text.Some? && text.value != ""
  }

  // ----- The objects the service builds -------------------------------------------------------

  function IfTruthy(name: string, text: Option<string>): Where {
    if Truthy(text) then Just(Col(name), Equals(Text(text.value))) else EVERYTHING
  }

  function StatusFilter(status: Option<Status>): Where {
    match status
    case None => EVERYTHING
    case Some(s) => Just(Col("status"), Equals(Text(StatusName(s))))
  }

  function AssignmentFilter(unassigned: Option<bool>): Where {
    match unassigned
    case None => EVERYTHING
    case Some(true) => Just(Col("assigneeId"), Equals(Null))
    case Some(false) => Just(Col("assigneeId"), Differs(Null))
  }

  function SearchFilter(search: Option<string>): Where {
    if Truthy(search) then
      Where(map[], [], Or([Just(Col("title"), Contains(search.value)),
                           Just(Col("description"), Contains(search.value))]))
    else EVERYTHING
  }

  function TicketsInvolving(userId: string): Where {
    Where(map[], [], Or([Just(Col("requesterId"), Equals(Text(userId))),
                         Just(Col("assigneeId"), Equals(Text(userId)))]))
  }

  function VisibleTo(caller: Caller): Where {
    if SeesEveryTicket(caller.role) then EVERYTHING else Where(map[], [TicketsInvolving(caller.id)], NoOr)
  }

  function ColumnFilters(q: Query): Where {
    Spread(Spread(Spread(Spread(Spread(Spread(EVERYTHING,
      StatusFilter(q.status)),
      IfTruthy("priority", q.priority)),
      IfTruthy("category", q.category)),
      IfTruthy("assigneeId", q.assigneeId)),
      IfTruthy("requesterId", q.requesterId)),
      AssignmentFilter(q.unassigned))
  }

  function FindAllWhere(q: Query, caller: Caller): Result<Where> {
    if q.unassigned == Some(true) && q.assigneeId.Some? then Failure(App(BadRequest))
    else Success(Spread(Spread(ColumnFilters(q), SearchFilter(q.search)), VisibleTo(caller)))
  }

  function LoadWhere(id: string, caller: Caller): Where {
    Spread(Just(Id, Equals(Text(id))), VisibleTo(caller))
  }

  // What reaches the database once the extension has pinned the tenant.
  function Scoped(where: Where, op: Operation, caller: Caller): Where
    requires op in {FindMany, FindFirst, Count}
  {
    Intercept(Call(Model.Ticket, op, where, map[], []), InTenant(caller.tenantId)).value.where
  }

  // ----- Tickets as rows ------------------------------------------------------------------------

  function KeyOf(t: Tickets.Ticket): Key {
    Key(Model.Ticket, t.id)
  }

  function RowOf(t: Tickets.Ticket): Row {
    Row(t.tenantId, map[
      "status" := Text(StatusName(t.status)), "priority" := Text(t.priority), "category" := Text(t.category),
      "assigneeId" := Nullable(t.assigneeId), "requesterId" := Text(t.requesterId),
      "title" := Text(t.title), "description" := Nullable(t.description)])
  }

  predicate Selects(w: Where, t: Tickets.Ticket) {
    Holds(w, KeyOf(t), RowOf(t))
  }

  function Cell(t: Tickets.Ticket, field: Field): Value {
    Column(KeyOf(t), RowOf(t), field)
  }

  // ----- What the caller asked for ----------------------------------------------------------------

  predicate Asked(q: Query, t: Tickets.Ticket) {
    && (q.status.Some? ==> t.status == q.status.value)
    && (Truthy(q.priority) ==> t.priority == q.priority.value)
    && (Truthy(q.category) ==> t.category == q.category.value)
    && (Truthy(q.assigneeId) ==> t.assigneeId == q.assigneeId)
    && (Truthy(q.requesterId) ==> t.requesterId == q.requesterId.value)
    && (q.unassigned.Some? ==> (q.unassigned.value <==> t.assigneeId.None?))
    && (Truthy(q.search) ==> Mentions(t, q.search.value))
  }

  predicate Mentions(t: Tickets.Ticket, text: string) {
    ContainsText(t.title, text) || (t.description.Some? && ContainsText(t.description.value, text))
  }

  // ----- Evaluating a spread ------------------------------------------------------------------------

  lemma NamesDiffer()
    ensures "status" != "priority" && "status" != "category" && "status" != "assigneeId" && "status" != "requesterId"
    ensures "priority" != "category" && "priority" != "assigneeId" && "priority" != "requesterId"
    ensures "category" != "assigneeId" && "category" != "requesterId" && "assigneeId" != "requesterId"
    ensures "title" !in {"status", "priority", "category", "assigneeId", "requesterId", "description"}
    ensures "description" !in {"status", "priority", "category", "assigneeId", "requesterId"}
  {
    assert "status"[0] == 's' && "priority"[0] == 'p' && "category"[0] == 'c' && "assigneeId"[0] == 'a'
           && "requesterId"[0] == 'r' && "title"[0] == 't' && "description"[0] == 'd';
  }

  lemma StatusNamesDiffer(a: Status, b: Status)
    ensures StatusName(a) == StatusName(b) <==> a == b
  {
    assert "OPEN"[0] == 'O' && "IN_PROGRESS"[0] == 'I' && "RESOLVED"[0] == 'R' && "CLOSED"[0] == 'C';
  }

  lemma Cells(t: Tickets.Ticket)
    ensures Cell(t, Id) == Text(t.id) && Cell(t, TenantId) == Text(t.tenantId)
    ensures Cell(t, Col("status")) == Text(StatusName(t.status))
    ensures Cell(t, Col("priority")) == Text(t.priority)
    ensures Cell(t, Col("category")) == Text(t.category)
    ensures Cell(t, Col("assigneeId")) == Nullable(t.assigneeId)
    ensures Cell(t, Col("requesterId")) == Text(t.requesterId)
    ensures Cell(t, Col("title")) == Text(t.title)
    ensures Cell(t, Col("description")) == Nullable(t.description)
  {
    NamesDiffer();
  }

  // ----- The pieces ------------------------------------------------------------------------------------

  lemma IfTruthyMeans(w: Where, name: string, text: Option<string>, key: Key, row: Row)
    requires Col(name) !in w.cols
    ensures var w' := Spread(w, IfTruthy(name, text));
            && (Holds(w', key, row) <==>
                  Holds(w, key, row) && (Truthy(text) ==> Column(key, row, Col(name)) == Text(text.value)))
            && w'.cols.Keys == w.cols.Keys + (if Truthy(text) then {Col(name)} else {})
            && w'.ands == w.ands && w'.ors == w.ors
  {
    hide Holds, Column;
    if Truthy(text) { SpreadColumn(w, Col(name), Equals(Text(text.value)), key, row); }
    else { SpreadNothing(w); }
  }

  lemma StatusMeans(status: Option<Status>, t: Tickets.Ticket)
    ensures var w := Spread(EVERYTHING, StatusFilter(status));
            && (Selects(w, t) <==> (status.Some? ==> t.status == status.value))
            && w.cols.Keys == (if status.Some? then {Col("status")} else {})
            && w.ands == [] && w.ors == NoOr
  {
    hide Holds, KeyOf, RowOf;
    SpreadNothing(EVERYTHING);
    EverythingHolds(KeyOf(t), RowOf(t));
    if status.Some? {
      SpreadColumn(EVERYTHING, Col("status"), Equals(Text(StatusName(status.value))), KeyOf(t), RowOf(t));
      Cells(t);
      StatusNamesDiffer(t.status, status.value);
    }
  }

  // Everything before the assignment filter.
  function Early(q: Query): Where {
    Spread(Spread(Spread(EVERYTHING,
      StatusFilter(q.status)),
      IfTruthy("priority", q.priority)),
      IfTruthy("category", q.category))
  }

  lemma EarlyMeans(q: Query, t: Tickets.Ticket)
    ensures Selects(Early(q), t) <==>
            && (q.status.Some? ==> t.status == q.status.value)
            && (Truthy(q.priority) ==> t.priority == q.priority.value)
            && (Truthy(q.category) ==> t.category == q.category.value)
    ensures Early(q).cols.Keys <= {Col("status"), Col("priority"), Col("category")}
    ensures Early(q).ands == [] && Early(q).ors == NoOr
  {
    hide Holds, Spread, Truthy, IfTruthy, KeyOf, RowOf;
    NamesDiffer();
    Cells(t);
    StatusMeans(q.status, t);
    var w1 := Spread(EVERYTHING, StatusFilter(q.status));
    IfTruthyMeans(w1, "priority", q.priority, KeyOf(t), RowOf(t));
    var w2 := Spread(w1, IfTruthy("priority", q.priority));
    IfTruthyMeans(w2, "category", q.category, KeyOf(t), RowOf(t));
  }

  // The query the object actually puts: `unassigned=false` is spread after `assigneeId`
  // and replaces it.
  function Effective(q: Query): Query {
    if q.unassigned == Some(false) then q.(assigneeId := None) else q
  }

  // The keys the last three spreads write, over an object that has none of them.
  function Tail(w: Where, q: Query): Where {
    Spread(Spread(Spread(w, IfTruthy("assigneeId", q.assigneeId)), IfTruthy("requesterId", q.requesterId)),
           AssignmentFilter(q.unassigned))
  }

  lemma EarlyIsFirst(q: Query)
    ensures ColumnFilters(q) == Tail(Early(q), q)
  {
  }

  lemma TailMeans(w: Where, q: Query, t: Tickets.Ticket)
    requires w.cols.Keys <= {Col("status"), Col("priority"), Col("category")}
    requires !(q.unassigned.Some? && Truthy(q.assigneeId))
    ensures Selects(Tail(w, q), t) <==>
            && Selects(w, t)
            && (Truthy(q.assigneeId) ==> t.assigneeId == q.assigneeId)
            && (Truthy(q.requesterId) ==> t.requesterId == q.requesterId.value)
            && (q.unassigned.Some? ==> (q.unassigned.value <==> t.assigneeId.None?))
  {
    hide Holds, Spread, IfTruthy, KeyOf, RowOf;
    NamesDiffer();
    Cells(t);
    IfTruthyMeans(w, "assigneeId", q.assigneeId, KeyOf(t), RowOf(t));
    var w1 := Spread(w, IfTruthy("assigneeId", q.assigneeId));
    IfTruthyMeans(w1, "requesterId", q.requesterId, KeyOf(t), RowOf(t));
    var w2 := Spread(w1, IfTruthy("requesterId", q.requesterId));
    if q.unassigned.Some? {
      SpreadColumn(w2, Col("assigneeId"), if q.unassigned.value then Equals(Null) else Differs(Null), KeyOf(t),
                   RowOf(t));
    } else {
      SpreadNothing(w2);
    }
  }

  lemma Overwritten(w: Where, q: Query)
    requires q.unassigned == Some(false)
    ensures Tail(w, q) == Tail(w, q.(assigneeId := None))
  {
    hide Truthy, Holds;
    NamesDiffer();
    var w' := Spread(w, EVERYTHING);
    var lost := Tail(w, q);
    var kept := Tail(w, q.(assigneeId := None));
    forall f | f in lost.cols || f in kept.cols
      ensures f in lost.cols && f in kept.cols && lost.cols[f] == kept.cols[f]
    {
    }
    assert lost.cols == kept.cols;
  }

  lemma TailColumns(w: Where, q: Query)
    ensures Tail(w, q).cols.Keys <= w.cols.Keys + {Col("assigneeId"), Col("requesterId")}
    ensures Tail(w, q).ands == w.ands && Tail(w, q).ors == w.ors
  {
    hide Truthy;
  }

  lemma ColumnsMean(q: Query, t: Tickets.Ticket)
    requires !(q.unassigned == Some(true) && q.assigneeId.Some?)
    ensures Selects(ColumnFilters(q), t) <==> Asked(Effective(q).(search := None), t)
    ensures ColumnFilters(q).ands == [] && ColumnFilters(q).ors == NoOr
    ensures TenantId !in ColumnFilters(q).cols
  {
    hide Holds, Selects, Early, Spread, Tail, ColumnFilters;
    EarlyMeans(q, t);
    EarlyIsFirst(q);
    TailColumns(Early(q), q);
    assert q.unassigned.Some? ==> q.unassigned == Some(q.unassigned.value) && q.unassigned.value in {true, false};
    assert q.unassigned.Some? ==> !Truthy(Effective(q).assigneeId);
    TailMeans(Early(q), Effective(q), t);
    if q.unassigned == Some(false) { Overwritten(Early(q), q); }
  }

  lemma SearchMeans(w: Where, search: Option<string>, t: Tickets.Ticket)
    requires w.ors == NoOr
    ensures var w' := Spread(w, SearchFilter(search));
            && (Selects(w', t) <==> Selects(w, t) && (Truthy(search) ==> Mentions(t, search.value)))
            && w'.ands == w.ands && w'.cols == w.cols
  {
    hide Holds, KeyOf, RowOf, ContainsText;
    SpreadNothing(w);
    if Truthy(search) {
      var arms := [Just(Col("title"), Contains(search.value)), Just(Col("description"), Contains(search.value))];
      SpreadOr(w, arms, KeyOf(t), RowOf(t));
      JustMeans(Col("title"), Contains(search.value), KeyOf(t), RowOf(t));
      JustMeans(Col("description"), Contains(search.value), KeyOf(t), RowOf(t));
      Cells(t);
      assert (exists i | 0 <= i < |arms| :: Selects(arms[i], t)) <==> Selects(arms[0], t) || Selects(arms[1], t);
      assert w.cols + map[] == w.cols;
    }
  }

  lemma InvolvingMeans(userId: string, t: Tickets.Ticket)
    ensures Selects(TicketsInvolving(userId), t) <==> t.requesterId == userId || t.assigneeId == Some(userId)
  {
    hide Holds, KeyOf, RowOf;
    var arms := [Just(Col("requesterId"), Equals(Text(userId))), Just(Col("assigneeId"), Equals(Text(userId)))];
    assert Spread(EVERYTHING, Where(map[], [], Or(arms))) == TicketsInvolving(userId);
    EverythingHolds(KeyOf(t), RowOf(t));
    SpreadOr(EVERYTHING, arms, KeyOf(t), RowOf(t));
    JustMeans(Col("requesterId"), Equals(Text(userId)), KeyOf(t), RowOf(t));
    JustMeans(Col("assigneeId"), Equals(Text(userId)), KeyOf(t), RowOf(t));
    Cells(t);
    assert (exists i | 0 <= i < |arms| :: Selects(arms[i], t)) <==> Selects(arms[0], t) || Selects(arms[1], t);
  }

  lemma VisibilityMeans(w: Where, caller: Caller, t: Tickets.Ticket)
    requires w.ands == []
    requires t.tenantId == caller.tenantId
    ensures Selects(Spread(w, VisibleTo(caller)), t) <==> Selects(w, t) && CanSee(caller, t)
  {
    hide Holds, KeyOf, RowOf;
    SpreadNothing(w);
    if !SeesEveryTicket(caller.role) {
      SpreadAnd(w, TicketsInvolving(caller.id), KeyOf(t), RowOf(t));
      InvolvingMeans(caller.id, t);
    }
  }

  lemma VisibilityColumns(w: Where, caller: Caller)
    ensures Spread(w, VisibleTo(caller)).cols == w.cols
  {
    assert w.cols + map[] == w.cols;
  }

  lemma ScopeMeans(where: Where, op: Operation, caller: Caller, t: Tickets.Ticket)
    requires op in {FindMany, FindFirst, Count} && TenantId !in where.cols
    ensures Selects(Scoped(where, op, caller), t) <==> t.tenantId == caller.tenantId && Selects(where, t)
  {
    assert where.(cols := where.cols - {TenantId}) == where by { assert where.cols - {TenantId} == where.cols; }
    WithMeans(where, TenantId, Equals(Text(caller.tenantId)), KeyOf(t), RowOf(t));
  }

  // ----- Results ------------------------------------------------------------------------------------------

  // The listing after the extension: the caller's own view, narrowed by the effective query.
  lemma ListingMeans(q: Query, caller: Caller, t: Tickets.Ticket, op: Operation)
    requires FindAllWhere(q, caller).Success? && op in {FindMany, Count}
    ensures Selects(Scoped(FindAllWhere(q, caller).value, op, caller), t)
        <==> CanSee(caller, t) && Asked(Effective(q), t)
  {
    hide Holds, KeyOf, RowOf, Scoped, ColumnFilters, SearchFilter, VisibleTo, Mentions;
    ColumnsMean(q, t);
    var w1 := Spread(ColumnFilters(q), SearchFilter(q.search));
    SearchMeans(ColumnFilters(q), q.search, t);
    var w2 := Spread(w1, VisibleTo(caller));
    VisibilityColumns(w1, caller);
    if t.tenantId == caller.tenantId { VisibilityMeans(w1, caller, t); }
    ScopeMeans(w2, op, caller, t);
  }

  // No filter widens the view: what is listed is the tenant's and is the caller's to see.
  lemma FiltersOnlyNarrow(q: Query, caller: Caller, t: Tickets.Ticket)
    requires FindAllWhere(q, caller).Success?
    requires Selects(Scoped(FindAllWhere(q, caller).value, FindMany, caller), t)
    ensures t.tenantId == caller.tenantId
    ensures caller.role != ADMIN ==> t.requesterId == caller.id || t.assigneeId == Some(caller.id)
  {
    ListingMeans(q, caller, t, FindMany);
  }

  // An administrator of the company gets all of it.
  lemma AdminSeesTheCompany(caller: Caller, t: Tickets.Ticket)
    requires caller.role == ADMIN && t.tenantId == caller.tenantId
    ensures Selects(Scoped(FindAllWhere(NO_FILTER, caller).value, FindMany, caller), t)
  {
    ListingMeans(NO_FILTER, caller, t, FindMany);
  }

  // The only query refused asks for unassigned tickets and names an assignee.
  lemma RefusedExactly(q: Query, caller: Caller)
    ensures FindAllWhere(q, caller).Failure? <==> q.unassigned == Some(true) && q.assigneeId.Some?
    ensures FindAllWhere(q, caller).Failure? ==> FindAllWhere(q, caller).error == App(BadRequest)
  {
  }

  lemma LoadMeans(id: string, caller: Caller, t: Tickets.Ticket)
    ensures Selects(Scoped(LoadWhere(id, caller), FindFirst, caller), t) <==> CanSee(caller, t) && t.id == id
  {
    hide Holds, KeyOf, RowOf, Scoped, VisibleTo;
    var w := Just(Id, Equals(Text(id)));
    JustMeans(Id, Equals(Text(id)), KeyOf(t), RowOf(t));
    Cells(t);
    VisibilityColumns(w, caller);
    if t.tenantId == caller.tenantId { VisibilityMeans(w, caller, t); }
    ScopeMeans(LoadWhere(id, caller), FindFirst, caller, t);
  }

  // `unassigned=false` drops the assignee filter, and that shows unless the caller's own
  // view already forces the same assignee.
  predicate AssigneeFilterLost(q: Query, caller: Caller) {
    && q.unassigned == Some(false) && Truthy(q.assigneeId)
    && !(&& !SeesEveryTicket(caller.role)
         && Truthy(q.requesterId) && q.requesterId.value != caller.id
         && q.assigneeId.value == caller.id)
  }

  // A ticket the object selects although the caller asked for another assignee.
  function Stray(q: Query, caller: Caller): Tickets.Ticket {
    var requester := if Truthy(q.requesterId) then q.requesterId.value else caller.id;
    var assignee := if !SeesEveryTicket(caller.role) && requester != caller.id then caller.id
                    else if Truthy(q.assigneeId) then q.assigneeId.value + "'" else "'";
    Ticket.Ticket("", caller.tenantId, 1, requester, Some(assignee),
           if q.search.Some? then q.search.value else "", None,
           if q.status.Some? then q.status.value else OPEN,
           if q.priority.Some? then q.priority.value else "",
           if q.category.Some? then q.category.value else "",
           1, 0, None, None, None)
  }

  lemma ContainsItself(text: string)
    ensures ContainsText(text, text)
  {
    assert Lower(text)[0..0 + |Lower(text)|] == Lower(text);
    assert OccursAt(Lower(text), Lower(text), 0);
  }

  // The listing is the conjunction of everything asked for, on every ticket, exactly when
  // no assignee filter is lost.
  lemma ConjunctionExactly(q: Query, caller: Caller)
    requires FindAllWhere(q, caller).Success?
    ensures (forall t :: Selects(Scoped(FindAllWhere(q, caller).value, FindMany, caller), t)
                         <==> CanSee(caller, t) && Asked(q, t))
        <==> !AssigneeFilterLost(q, caller)
  {
    hide Selects, Scoped, FindAllWhere, ContainsText;
    if AssigneeFilterLost(q, caller) {
      var t := Stray(q, caller);
      ListingMeans(q, caller, t, FindMany);
      if q.search.Some? { ContainsItself(q.search.value); }
      assert |q.assigneeId.value + "'"| == |q.assigneeId.value| + 1;
    } else {
      forall t ensures Selects(Scoped(FindAllWhere(q, caller).value, FindMany, caller), t)
                       <==> CanSee(caller, t) && Asked(q, t)
      {
        ListingMeans(q, caller, t, FindMany);
      }
    }
  }
}
