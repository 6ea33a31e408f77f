// The ticket aggregate: what each request does to one row, and what it tells the
// audit trail. src/tickets/tickets.service.ts, ticket-transitions.ts,
// ticket-visibility.ts and src/events/ticket-events.ts.
module Tickets {
  import opened Values

  datatype Role = ADMIN_MASTER | ADMIN | AGENT | REQUESTER

  datatype Caller = Caller(id: string, tenantId: string, role: Role)

  datatype Status = OPEN | IN_PROGRESS | RESOLVED | CLOSED

  datatype Ticket = Ticket(
    id: string, tenantId: string, number: int,
    requesterId: string, assigneeId: Option<string>,
    title: string, description: Option<string>,
    status: Status, priority: string, category: string,
    version: int, createdAt: int,
    resolvedAt: Option<int>, closedAt: Option<int>, closedById: Option<string>)

  // ----- Lifecycle and visibility --------------------------------------------------------

  function Transitions(from: Status): seq<Status> {
    match from
    case OPEN => [IN_PROGRESS, RESOLVED]
    case IN_PROGRESS => [RESOLVED, OPEN]
    case RESOLVED => [CLOSED, OPEN]
    case CLOSED => []
  }

  predicate CanTransition(from: Status, to: Status) {
    to in Transitions(from)
  }

  predicate SeesEveryTicket(role: Role) {
    role == ADMIN
  }

  // What `load` finds: the tenant's tickets the caller may see.
  predicate CanSee(caller: Caller, t: Ticket) {
    && t.tenantId == caller.tenantId
    && (SeesEveryTicket(caller.role) || t.requesterId == caller.id || t.assigneeId == Some(caller.id))
  }

  // ----- Requests ------------------------------------------------------------------------

  // A field of a PATCH: left out, sent as `null`, or sent with a value.
  type PatchField = Option<Option<string>>

  datatype Request =
    | Edit(title: PatchField, description: PatchField, priority: PatchField, category: PatchField)
    | ChangeStatus(status: Status)
    | Assign(assigneeId: Option<string>)

  // The `data` of `updateMany`; a field left out is left alone.
  datatype Change = Change(
    title: Option<string>, description: Option<Option<string>>, priority: Option<string>, category: Option<string>,
    status: Option<Status>, resolvedAt: Option<Option<int>>, closedAt: Option<int>, closedById: Option<string>,
    assigneeId: Option<Option<string>>)

  const NO_CHANGE := Change(None, None, None, None, None, None, None, None, None)

  // The value sent, if there is one.
  function Sent(field: PatchField): Option<string> {
    match field
    case Some(value) => value
    case None => None
  }

  // `null` for a column that takes none: Prisma refuses the update before sending it.
  predicate NullsRequired(request: Request) {
    request.Edit? && Some(None) in [request.title, request.priority, request.category]
  }

  // What the request meets at validation: the clock, and the role of the active user
  // it names as assignee, if there is one.
  datatype Circumstance = Circumstance(now: int, assignee: Option<Role>)

  predicate CanHold(role: Role) {
    role == AGENT || role == ADMIN
  }

  // The `change` callbacks: the data to write, or the reason to refuse.
  function Validate(request: Request, current: Ticket, caller: Caller, at: Circumstance): Result<Change> {
    match request
    case Edit(title, description, priority, category) =>
      if current.status == CLOSED then Failure(App(Conflict("closed")))
      else if NullsRequired(request) then Failure(App(Other("null for a required column")))
      else Success(NO_CHANGE.(title := Sent(title), description := description,
                              priority := Sent(priority), category := Sent(category)))
    case ChangeStatus(status) =>
      if current.status == status then Failure(App(Conflict("already")))
      else if !CanTransition(current.status, status) then Failure(App(Conflict("transition")))
      else Success(NO_CHANGE.(
        status := Some(status),
        resolvedAt := if status == RESOLVED then Some(Some(at.now)) else if status == OPEN then Some(None) else None,
        closedAt := if status == CLOSED then Some(at.now) else None,
        closedById := if status == CLOSED then Some(caller.id) else None))
    case Assign(assigneeId) =>
      if current.status == CLOSED then Failure(App(Conflict("closed")))
      else if assigneeId.Some? && at.assignee.None? then Failure(App(NotFound))
      else if assigneeId.Some? && !CanHold(at.assignee.value) then Failure(App(Conflict("not staff")))
      else Success(NO_CHANGE.(assigneeId := Some(assigneeId)))
  }

  function Or<T>(changed: Option<T>, kept: T): T {
    match changed
    case Some(value) => value
    case None => kept
  }

  // The row after `updateMany` with `version: { increment: 1 }`.
  function Apply(t: Ticket, c: Change): Ticket {
    t.(title := Or(c.title, t.title),
       description := Or(c.description, t.description),
       priority := Or(c.priority, t.priority),
       category := Or(c.category, t.category),
       status := Or(c.status, t.status),
       resolvedAt := Or(c.resolvedAt, t.resolvedAt),
       closedAt := if c.closedAt.Some? then c.closedAt else t.closedAt,
       closedById := if c.closedById.Some? then c.closedById else t.closedById,
       assigneeId := Or(c.assigneeId, t.assigneeId),
       version := t.version + 1)
  }

  // ----- Opening --------------------------------------------------------------------------

  datatype Draft = Draft(title: string, description: Option<string>, priority: string, category: string)

  function NewTicket(id: string, number: int, draft: Draft, caller: Caller, now: int): Ticket {
    Ticket(id, caller.tenantId, number, caller.id, None, draft.title, draft.description,
           OPEN, draft.priority, draft.category, 1, now, None, None, None)
  }

  // ----- Events ---------------------------------------------------------------------------

  datatype Action = Created | Updated | StatusChanged | Assigned | Commented | InternalNoteAdded

  datatype Attribute = Number | Title | Description | StatusIs | Priority | Category | Assignee

  type Snapshot = map<Attribute, Value>

  datatype TicketEvent = TicketEvent(
    tenantId: string, actorId: string, requesterId: string, assigneeIds: set<string>,
    entityId: string, action: Action, oldValues: Snapshot, newValues: Snapshot)

  function StatusName(s: Status): string {
    match s
    case OPEN => "OPEN"
    case IN_PROGRESS => "IN_PROGRESS"
    case RESOLVED => "RESOLVED"
    case CLOSED => "CLOSED"
  }

  function Nullable(text: Option<string>): Value {
    match text
    case None => Null
    case Some(s) => Text(s)
  }

  function Read(t: Ticket, attribute: Attribute): Value {
    match attribute
    case Number => Num(t.number)
    case Title => Text(t.title)
    case Description => Nullable(t.description)
    case StatusIs => Text(StatusName(t.status))
    case Priority => Text(t.priority)
    case Category => Text(t.category)
    case Assignee => Nullable(t.assigneeId)
  }

  const EDITABLE: seq<Attribute> := [Title, Description, Priority, Category]

  // The editable attributes that moved, read off one side.
  function Moved(before: Ticket, after: Ticket, side: Ticket): Snapshot {
    map a | a in EDITABLE && Read(before, a) != Read(after, a) :: Read(side, a)
  }

  // `changedFields`
  method ChangedFields(before: Ticket, after: Ticket, fields: seq<Attribute>, takeBefore: bool)
    returns (changed: Snapshot)
    ensures forall a :: a in changed <==> a in fields && Read(before, a) != Read(after, a)
    ensures forall a | a in changed :: changed[a] == Read(if takeBefore then before else after, a)
    ensures fields == EDITABLE ==> changed == Moved(before, after, if takeBefore then before else after)
  {
    changed := map[];
    for i := 0 to |fields|
      invariant forall a :: a in changed <==> a in fields[..i] && Read(before, a) != Read(after, a)
      invariant forall a | a in changed :: changed[a] == Read(if takeBefore then before else after, a)
    {
      var field := fields[i];
      if Read(before, field) != Read(after, field) {
        changed := changed[field := if takeBefore then Read(before, field) else Read(after, field)];
      }
    }
  }

  // The non-null assignees of both sides, without the duplicate.
  function Audience(before: Option<string>, after: Option<string>): set<string> {
    (if before.Some? then {before.value} else {}) + (if after.Some? then {after.value} else {})
  }

  function MutationEvent(request: Request, before: Ticket, after: Ticket, caller: Caller): TicketEvent {
    var (action, oldValues, newValues) :=
      match request {
        case Edit(_, _, _, _) => (Updated, Moved(before, after, before), Moved(before, after, after))
        case ChangeStatus(_) => (StatusChanged, map[StatusIs := Read(before, StatusIs)],
                                 map[StatusIs := Read(after, StatusIs)])
        case Assign(_) => (Assigned, map[Assignee := Read(before, Assignee)], map[Assignee := Read(after, Assignee)])
      };
    TicketEvent(caller.tenantId, caller.id, before.requesterId, Audience(before.assigneeId, after.assigneeId),
                after.id, action, oldValues, newValues)
  }

  function CreatedEvent(t: Ticket, caller: Caller): TicketEvent {
    TicketEvent(caller.tenantId, caller.id, t.requesterId, {}, t.id, Created, map[],
                map[Number := Read(t, Number), Title := Read(t, Title), StatusIs := Read(t, StatusIs),
                    Priority := Read(t, Priority), Category := Read(t, Category)])
  }

  // ----- What one validated mutation keeps -------------------------------------------------

  // The timestamps agree with the status.
  predicate Coherent(t: Ticket) {
    && (t.resolvedAt.Some? <==> t.status in {RESOLVED, CLOSED})
    && (t.closedAt.Some? <==> t.status == CLOSED)
    && (t.closedById.Some? <==> t.status == CLOSED)
  }

  lemma MutationKeepsCoherence(request: Request, t: Ticket, caller: Caller, at: Circumstance)
    requires Coherent(t) && Validate(request, t, caller, at).Success?
    ensures var after := Apply(t, Validate(request, t, caller, at).value);
            && Coherent(after)
            && t.status != CLOSED
            && (after.status == t.status || CanTransition(t.status, after.status))
            && after.version == t.version + 1
            && after.id == t.id && after.tenantId == t.tenantId && after.number == t.number
            && after.requesterId == t.requesterId && after.createdAt == t.createdAt
  {
  }

  predicate Kept<T(==)>(asked: Option<T>, before: T, after: T) {
    after == (if asked.Some? then asked.value else before)
  }

  // A column that takes no null: the value sent, or what was there.
  predicate KeptText(asked: PatchField, before: string, after: string) {
    after == (if asked.Some? && asked.value.Some? then asked.value.value else before)
  }

  // When a request is accepted, said without the order in which the service looks.
  predicate Acceptable(request: Request, t: Ticket, at: Circumstance) {
    match request
    case Edit(title, _, priority, category) =>
      t.status != CLOSED && title != Some(None) && priority != Some(None) && category != Some(None)
    case ChangeStatus(status) =>
      (t.status, status) in {(OPEN, IN_PROGRESS), (OPEN, RESOLVED), (IN_PROGRESS, RESOLVED), (IN_PROGRESS, OPEN),
                             (RESOLVED, CLOSED), (RESOLVED, OPEN)}
    case Assign(assigneeId) => t.status != CLOSED && (assigneeId.Some? ==> at.assignee in {Some(AGENT), Some(ADMIN)})
  }

  // Accepted exactly then, and the row afterwards has what was asked and nothing else new.
  lemma MutationDoesWhatWasAsked(request: Request, t: Ticket, caller: Caller, at: Circumstance)
    ensures Validate(request, t, caller, at).Success? <==> Acceptable(request, t, at)
    ensures Acceptable(request, t, at) ==>
              var after := Apply(t, Validate(request, t, caller, at).value);
              match request
              case Edit(title, description, priority, category) =>
                && KeptText(title, t.title, after.title)
                && Kept(description, t.description, after.description)
                && KeptText(priority, t.priority, after.priority) && KeptText(category, t.category, after.category)
                && after == t.(title := after.title, description := after.description, priority := after.priority,
                               category := after.category, version := t.version + 1)
              case ChangeStatus(status) =>
                && after.status == status
                && (status == CLOSED ==> after.closedAt == Some(at.now) && after.closedById == Some(caller.id))
                && (status == RESOLVED ==> after.resolvedAt == Some(at.now))
                && (status == OPEN ==> after.resolvedAt == None)
                && (status in {IN_PROGRESS, CLOSED} ==> after.resolvedAt == t.resolvedAt)
                && (status != CLOSED ==> after.closedAt == t.closedAt && after.closedById == t.closedById)
                && after == t.(status := status, resolvedAt := after.resolvedAt, closedAt := after.closedAt,
                               closedById := after.closedById, version := t.version + 1)
              case Assign(assigneeId) => after == t.(assigneeId := assigneeId, version := t.version + 1)
  {
  }

  // Why a request is refused: what is closed stays closed, a status is not set twice, and a
  // missing assignee is not found, which is told apart from one who cannot hold a ticket.
  lemma RefusalsTellWhy(request: Request, t: Ticket, caller: Caller, at: Circumstance)
    ensures var verdict := Validate(request, t, caller, at);
            && (verdict == Failure(App(Conflict("closed"))) <==> t.status == CLOSED && !request.ChangeStatus?)
            && (verdict == Failure(App(Conflict("already"))) <==> request == ChangeStatus(t.status))
            && (verdict == Failure(App(Conflict("transition")))
                <==> request.ChangeStatus? && request.status != t.status && !Acceptable(request, t, at))
            && (verdict == Failure(App(NotFound))
                <==> request.Assign? && t.status != CLOSED && request.assigneeId.Some? && at.assignee == None)
            && (verdict == Failure(App(Conflict("not staff")))
                <==> request.Assign? && t.status != CLOSED && request.assigneeId.Some?
                     && at.assignee in {Some(REQUESTER), Some(ADMIN_MASTER)})
            && (verdict == Failure(App(Other("null for a required column")))
                <==> request.Edit? && t.status != CLOSED && !Acceptable(request, t, at))
  {
    assert "closed"[0] == 'c' && "already"[0] == 'a' && "transition"[0] == 't' && "not staff"[0] == 'n';
  }

  // Who did what to which ticket, and for whom it is news, as each accepted request reports it.
  lemma EventNamesWhoActed(request: Request, t: Ticket, caller: Caller, at: Circumstance)
    requires Validate(request, t, caller, at).Success?
    ensures var after := Apply(t, Validate(request, t, caller, at).value);
            var event := MutationEvent(request, t, after, caller);
            && event.actorId == caller.id && event.tenantId == caller.tenantId
            && event.requesterId == t.requesterId && event.entityId == t.id
            && (event.action == Updated <==> request.Edit?)
            && (event.action == StatusChanged <==> request.ChangeStatus?)
            && (event.action == Assigned <==> request.Assign?)
            && (request == ChangeStatus(OPEN) ==> event.newValues == map[StatusIs := Text("OPEN")])
            && (request == ChangeStatus(IN_PROGRESS) ==> event.newValues == map[StatusIs := Text("IN_PROGRESS")])
            && (request == ChangeStatus(RESOLVED) ==> event.newValues == map[StatusIs := Text("RESOLVED")])
            && (request == ChangeStatus(CLOSED) ==> event.newValues == map[StatusIs := Text("CLOSED")])
            && (forall id :: id in event.assigneeIds
                  <==> t.assigneeId == Some(id) || (request.Assign? && request.assigneeId == Some(id)))
  {
  }

  // An opened ticket is the caller's, holds the draft word for word, and starts at version 1
  // with nobody on it; the event says who opened it and what it was called.
  lemma OpeningTakesTheDraft(id: string, number: int, draft: Draft, caller: Caller, now: int)
    ensures var t := NewTicket(id, number, draft, caller, now);
            && t.id == id && t.tenantId == caller.tenantId && t.requesterId == caller.id && t.number == number
            && t.title == draft.title && t.description == draft.description
            && t.priority == draft.priority && t.category == draft.category
            && t.status == OPEN && t.version == 1 && t.createdAt == now
            && t.assigneeId == None && t.resolvedAt == None && t.closedAt == None && t.closedById == None
    ensures var event := CreatedEvent(NewTicket(id, number, draft, caller, now), caller);
            && event.action == Created && event.actorId == event.requesterId == caller.id
            && event.tenantId == caller.tenantId && event.entityId == id
            && event.assigneeIds == {} && event.oldValues == map[]
            && event.newValues == map[Number := Num(number), Title := Text(draft.title), StatusIs := Text("OPEN"),
                                      Priority := Text(draft.priority), Category := Text(draft.category)]
  {
  }

  // An event's two sides are the row's own values before and after, and they name
  // every audited attribute the mutation moved.
  lemma EventTellsTheDifference(request: Request, t: Ticket, caller: Caller, at: Circumstance)
    requires Validate(request, t, caller, at).Success?
    ensures var after := Apply(t, Validate(request, t, caller, at).value);
            var event := MutationEvent(request, t, after, caller);
            && event.oldValues.Keys == event.newValues.Keys
            && (forall a | a in event.oldValues :: event.oldValues[a] == Read(t, a))
            && (forall a | a in event.newValues :: event.newValues[a] == Read(after, a))
            && (forall a | Read(after, a) != Read(t, a) :: a in event.newValues)
  {
    var after := Apply(t, Validate(request, t, caller, at).value);
    forall a | Read(after, a) != Read(t, a) ensures a in MutationEvent(request, t, after, caller).newValues {
      match a
      case Title => assert EDITABLE[0] == a;
      case Description => assert EDITABLE[1] == a;
      case Priority => assert EDITABLE[2] == a;
      case Category => assert EDITABLE[3] == a;
      case _ =>
    }
  }
}
