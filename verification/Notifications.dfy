// Who hears of a ticket event, on the socket and on the timeline:
// src/realtime/notifications.gateway.ts, src/realtime/rooms.ts, AuditService.timeline
// and the events of src/comments/comments.service.ts.
module Notifications {
  import opened Values
  import opened Filters
  import opened Database
  import opened TenantExtension
  import opened Tickets
  import opened TicketListing
  import opened TicketExport

  // ----- Rooms ----------------------------------------------------------------------------------

  function UserRoom(userId: string): string {
    "user:" + userId
  }

  function AdminRoom(tenantId: string): string {
    "tenant:" + tenantId + ":admins"
  }

  predicate JoinsAdminRoom(role: Role) {
    role == ADMIN
  }

  // Two different people, or two different companies, never share a room.
  lemma RoomsAreDistinct(a: string, b: string)
    ensures UserRoom(a) == UserRoom(b) <==> a == b
    ensures AdminRoom(a) == AdminRoom(b) <==> a == b
    ensures UserRoom(a) != AdminRoom(b)
  {
    assert UserRoom(a)[5..] == a && UserRoom(b)[5..] == b;
    assert AdminRoom(a)[7..|AdminRoom(a)| - 7] == a && AdminRoom(b)[7..|AdminRoom(b)| - 7] == b;
    assert UserRoom(a)[0] == 'u' && AdminRoom(b)[0] == 't';
  }

  // ----- The gateway ----------------------------------------------------------------------------

  // The row of the user a handshake names.
  datatype UserRow = UserRow(id: string, tenantId: string, role: Role, deleted: bool)

  // A connected socket: whose it is, as read at the handshake, and its rooms.
  datatype Socket = Socket(user: UserRow, rooms: set<string>)

  const STAFF_ONLY_ACTIONS: set<Tickets.Action> := {InternalNoteAdded}

  predicate InItsRooms(socket: Socket) {
    socket.rooms == {UserRoom(socket.user.id)}
                    + (if JoinsAdminRoom(socket.user.role) then {AdminRoom(socket.user.tenantId)} else {})
  }

  // The three ways an event reaches a person.
  predicate Hears(user: UserRow, event: TicketEvent) {
    || (user.role == ADMIN && user.tenantId == event.tenantId)
    || user.id in event.assigneeIds
    || (event.action != InternalNoteAdded && user.id == event.requesterId)
  }

  class NotificationsGateway {
    var sockets: map<nat, Socket>

    constructor ()
      ensures Valid() && sockets == map[]
    {
      sockets := map[];
    }

    ghost predicate Valid()
      reads this
    {
      forall x | x in sockets :: InItsRooms(sockets[x])
    }

    // `lookup` is the user row the verified token names, none when the token is missing or
    // not valid. The role is that row's, not the token's.
    method HandleConnection(client: nat, lookup: Option<UserRow>) returns (accepted: bool)
      requires Valid() && client !in sockets
      modifies this
      ensures Valid()
      ensures accepted <==> lookup.Some? && !lookup.value.deleted
      ensures sockets.Keys == old(sockets).Keys + (if accepted then {client} else {})
      ensures forall x | x in old(sockets) :: sockets[x] == old(sockets)[x]
      ensures accepted ==> sockets[client].user == lookup.value
    {
      if lookup.None? || lookup.value.deleted {
        return false;
      }
      var user := lookup.value;
      sockets := sockets[client := Socket(user, {UserRoom(user.id)})];
      if JoinsAdminRoom(user.role) {
        sockets := sockets[client := Socket(user, sockets[client].rooms + {AdminRoom(user.tenantId)})];
      }
      accepted := true;
    }

    // One emit over a list of rooms reaches a socket once, whichever of them it is in.
    method OnTicketEvent(event: TicketEvent) returns (addressed: set<nat>)
      requires Valid()
      ensures forall x :: x in addressed <==> x in sockets && Hears(sockets[x].user, event)
    {
      var rooms := {AdminRoom(event.tenantId)} + set id | id in event.assigneeIds :: UserRoom(id);
      if event.action !in STAFF_ONLY_ACTIONS {
        rooms := rooms + {UserRoom(event.requesterId)};
      }
      addressed := set x | x in sockets && sockets[x].rooms * rooms != {};
      forall x | x in sockets
        ensures sockets[x].rooms * rooms != {} <==> Hears(sockets[x].user, event)
      {
        Reached(sockets[x], event, rooms);
      }
    }
  }

  function RoomsOf(event: TicketEvent): set<string> {
    {AdminRoom(event.tenantId)} + (set id | id in event.assigneeIds :: UserRoom(id))
    + (if event.action !in STAFF_ONLY_ACTIONS then {UserRoom(event.requesterId)} else {})
  }

  lemma Reached(socket: Socket, event: TicketEvent, rooms: set<string>)
    requires InItsRooms(socket) && rooms == RoomsOf(event)
    ensures socket.rooms * rooms != {} <==> Hears(socket.user, event)
  {
    hide UserRoom, AdminRoom;
    var mine := UserRoom(socket.user.id);
    RoomsAreDistinct(socket.user.id, event.requesterId);
    RoomsAreDistinct(socket.user.id, event.tenantId);
    forall id ensures UserRoom(id) == mine <==> id == socket.user.id { RoomsAreDistinct(id, socket.user.id); }
    RoomsAreDistinct(socket.user.tenantId, event.tenantId);
    forall id ensures UserRoom(id) != AdminRoom(socket.user.tenantId) { RoomsAreDistinct(id, socket.user.tenantId); }
    assert mine in rooms <==>
      socket.user.id in event.assigneeIds || (event.action != InternalNoteAdded && socket.user.id == event.requesterId);
    assert JoinsAdminRoom(socket.user.role) ==>
      (AdminRoom(socket.user.tenantId) in rooms <==> socket.user.tenantId == event.tenantId);
    assert Hears(socket.user, event) ==>
      mine in socket.rooms * rooms || AdminRoom(socket.user.tenantId) in socket.rooms * rooms;
  }

  // ----- Fan-out and visibility ---------------------------------------------------------------------

  function AsCaller(user: UserRow): Caller {
    Caller(user.id, user.tenantId, user.role)
  }

  // A person the ticket names belongs to the ticket's company: user ids are not shared
  // across companies.
  predicate AtHome(user: UserRow, t: Tickets.Ticket) {
    user.id == t.requesterId || t.assigneeId == Some(user.id) ==> user.tenantId == t.tenantId
  }

  // A mutation is announced to exactly those who could see the ticket before or after it,
  // with the role each had at the handshake.
  lemma MutationReachesItsViewers(user: UserRow, request: Request, t: Tickets.Ticket, caller: Caller, at: Circumstance)
    requires caller.tenantId == t.tenantId && Validate(request, t, caller, at).Success?
    requires AtHome(user, t) && AtHome(user, Apply(t, Validate(request, t, caller, at).value))
    ensures var after := Apply(t, Validate(request, t, caller, at).value);
            Hears(user, MutationEvent(request, t, after, caller))
            <==> CanSee(AsCaller(user), t) || CanSee(AsCaller(user), after)
  {
  }

  lemma CreationReachesItsViewers(user: UserRow, id: string, number: int, draft: Draft, caller: Caller, now: int)
    requires AtHome(user, NewTicket(id, number, draft, caller, now))
    ensures var t := NewTicket(id, number, draft, caller, now);
            Hears(user, CreatedEvent(t, caller)) <==> CanSee(AsCaller(user), t)
  {
  }

  // ----- Internal notes -------------------------------------------------------------------------------

  predicate HandlesInternalNotes(role: Role) {
    role == ADMIN || role == AGENT
  }

  // CommentsService.create: closed tickets take none, and only staff leave internal ones.
  function CommentEvent(t: Tickets.Ticket, author: Caller, isInternal: bool): Result<TicketEvent> {
    if t.status == CLOSED then Failure(App(Conflict("closed")))
    else if isInternal && !HandlesInternalNotes(author.role) then Failure(App(Other("Forbidden")))
    else Success(TicketEvent(author.tenantId, author.id, t.requesterId, Audience(None, t.assigneeId), t.id,
                             if isInternal then InternalNoteAdded else Commented, map[], map[]))
  }

  // A comment is taken unless the ticket is closed, or it is internal and its author is not
  // staff; it is announced as its author's, on the ticket.
  lemma CommentTakenExactly(t: Tickets.Ticket, author: Caller, isInternal: bool)
    ensures CommentEvent(t, author, isInternal).Success?
        <==> t.status != CLOSED && (isInternal ==> author.role in {ADMIN, AGENT})
    ensures t.status == CLOSED ==> CommentEvent(t, author, isInternal) == Failure(App(Conflict("closed")))
    ensures t.status != CLOSED && isInternal && author.role in {REQUESTER, ADMIN_MASTER} ==>
              CommentEvent(t, author, isInternal) == Failure(App(Other("Forbidden")))
    ensures CommentEvent(t, author, isInternal).Success? ==>
              var event := CommentEvent(t, author, isInternal).value;
              && event.actorId == author.id && event.tenantId == author.tenantId
              && event.requesterId == t.requesterId && event.entityId == t.id
              && (forall id :: id in event.assigneeIds <==> t.assigneeId == Some(id))
              && event.oldValues == event.newValues == map[]
              && ActionName(event.action) == if isInternal then "internal_note_added" else "commented"
  {
  }

  // A public comment reaches everyone who sees the ticket; an internal one reaches only
  // administrators and agents, exactly when the assignee is still one.
  lemma InternalNoteStaysInternal(connected: set<UserRow>, t: Tickets.Ticket, author: Caller)
    requires author.tenantId == t.tenantId && CommentEvent(t, author, true).Success?
    ensures (forall user | user in connected && Hears(user, CommentEvent(t, author, true).value) ::
               user.role in {ADMIN, AGENT})
        <==> (forall user | user in connected && t.assigneeId == Some(user.id) :: user.role in {ADMIN, AGENT})
  {
    var event := CommentEvent(t, author, true).value;
    forall user: UserRow | t.assigneeId == Some(user.id) ensures Hears(user, event) {}
  }

  lemma CommentReachesItsViewers(user: UserRow, t: Tickets.Ticket, author: Caller)
    requires author.tenantId == t.tenantId && CommentEvent(t, author, false).Success? && AtHome(user, t)
    ensures Hears(user, CommentEvent(t, author, false).value) <==> CanSee(AsCaller(user), t)
  {
  }

  // ----- The timeline ---------------------------------------------------------------------------------

  datatype AuditQuery = AuditQuery(action: Option<string>, userId: Option<string>)

  datatype Entry = Entry(id: string, tenantId: string, entityId: string, userId: Option<string>, action: string)

  const INTERNAL_NOTE_ADDED: string := "internal_note_added"

  function ActionName(action: Tickets.Action): string {
    match action
    case Created => "created"
    case Updated => "updated"
    case StatusChanged => "status_changed"
    case Assigned => "assigned"
    case Commented => "commented"
    case InternalNoteAdded => INTERNAL_NOTE_ADDED
  }

  // No two kinds of work read alike on the trail, and each reads as what it is.
  lemma ActionNamesDiffer(a: Tickets.Action, b: Tickets.Action)
    ensures ActionName(a) == ActionName(b) <==> a == b
    ensures ActionName(a) == "internal_note_added" <==> a == InternalNoteAdded
    ensures ActionName(a) == "commented" <==> a == Commented
    ensures ActionName(a) == "created" <==> a == Created
    ensures ActionName(a) == "updated" <==> a == Updated
    ensures ActionName(a) == "status_changed" <==> a == StatusChanged
    ensures ActionName(a) == "assigned" <==> a == Assigned
  {
    assert "created"[1] == 'r' && "commented"[1] == 'o' && "updated"[0] == 'u' && "status_changed"[0] == 's';
    assert "assigned"[0] == 'a' && "internal_note_added"[0] == 'i' && "created"[0] == 'c' && "commented"[0] == 'c';
  }

  function HideNotes(role: Role): Where {
    if HandlesInternalNotes(role) then EVERYTHING else Just(Col("action"), NotIn([Text(INTERNAL_NOTE_ADDED)]))
  }

  function TimelineWhere(ticketId: string, q: AuditQuery, role: Role): Where {
    Spread(Spread(Spread(Just(Col("entityId"), Equals(Text(ticketId))),
      IfTruthy("action", q.action)),
      IfTruthy("userId", q.userId)),
      HideNotes(role))
  }

  function EntryRow(e: Entry): Row {
    Row(e.tenantId, map["entityId" := Text(e.entityId), "userId" := Nullable(e.userId), "action" := Text(e.action)])
  }

  predicate Picks(w: Where, e: Entry) {
    Holds(w, Key(AuditLog, e.id), EntryRow(e))
  }

  function ScopedPicks(where: Where, tenantId: string): Where {
    Intercept(Call(AuditLog, FindMany, where, map[], []), InTenant(tenantId)).value.where
  }

  // What the reader asked for, and what the reader may be shown.
  predicate AskedEntry(q: AuditQuery, e: Entry) {
    (Truthy(q.action) ==> e.action == q.action.value) && (Truthy(q.userId) ==> e.userId == q.userId)
  }

  predicate MayBeShown(role: Role, e: Entry) {
    HandlesInternalNotes(role) || e.action != INTERNAL_NOTE_ADDED
  }

  // For a reader who is not staff the action filter is replaced, not intersected.
  function EffectiveEntry(q: AuditQuery, role: Role): AuditQuery {
    if HandlesInternalNotes(role) then q else q.(action := None)
  }

  // One ticket's entries, as asked for and as far as they may be shown.
  predicate Intended(ticketId: string, q: AuditQuery, reader: Caller, e: Entry) {
    && e.tenantId == reader.tenantId && e.entityId == ticketId
    && MayBeShown(reader.role, e) && AskedEntry(q, e)
  }

  lemma EntryColumns(e: Entry)
    ensures "entityId" != "action" && "entityId" != "userId" && "action" != "userId"
    ensures var key := Key(AuditLog, e.id);
            && Column(key, EntryRow(e), Col("entityId")) == Text(e.entityId)
            && Column(key, EntryRow(e), Col("userId")) == Nullable(e.userId)
            && Column(key, EntryRow(e), Col("action")) == Text(e.action)
            && Column(key, EntryRow(e), TenantId) == Text(e.tenantId)
  {
    assert "entityId"[0] == 'e' && "action"[0] == 'a' && "userId"[0] == 'u';
  }

  // A later `action` key makes the earlier one irrelevant.
  lemma ActionOverwritten(ticketId: string, q: AuditQuery, role: Role)
    requires !HandlesInternalNotes(role)
    ensures TimelineWhere(ticketId, q, role) == TimelineWhere(ticketId, q.(action := None), role)
  {
    hide Truthy;
    EntryColumns(Entry("", "", "", None, ""));
    var lost := TimelineWhere(ticketId, q, role);
    var kept := TimelineWhere(ticketId, q.(action := None), role);
    forall f | f in lost.cols || f in kept.cols
      ensures f in lost.cols && f in kept.cols && lost.cols[f] == kept.cols[f]
    {
    }
    assert lost.cols == kept.cols;
  }

  lemma TimelineParts(ticketId: string, q: AuditQuery, role: Role, e: Entry)
    requires HandlesInternalNotes(role) || !Truthy(q.action)
    ensures Picks(TimelineWhere(ticketId, q, role), e)
        <==> e.entityId == ticketId && MayBeShown(role, e) && AskedEntry(q, e)
    ensures TenantId !in TimelineWhere(ticketId, q, role).cols
  {
    hide Holds, EntryRow, Column, Spread, IfTruthy;
    var key, row := Key(AuditLog, e.id), EntryRow(e);
    EntryColumns(e);
    var w := Just(Col("entityId"), Equals(Text(ticketId)));
    JustMeans(Col("entityId"), Equals(Text(ticketId)), key, row);
    IfTruthyMeans(w, "action", q.action, key, row);
    var w1 := Spread(w, IfTruthy("action", q.action));
    IfTruthyMeans(w1, "userId", q.userId, key, row);
    var w2 := Spread(w1, IfTruthy("userId", q.userId));
    SpreadNothing(w2);
    if !HandlesInternalNotes(role) {
      SpreadColumn(w2, Col("action"), NotIn([Text(INTERNAL_NOTE_ADDED)]), key, row);
      SpreadKeys(w2, Col("action"), NotIn([Text(INTERNAL_NOTE_ADDED)]));
    }
  }

  lemma SpreadKeys(w: Where, field: Field, cond: Cond)
    ensures Spread(w, Just(field, cond)).cols.Keys == w.cols.Keys + {field}
  {
  }

  lemma TimelineMeans(ticketId: string, q: AuditQuery, reader: Caller, e: Entry)
    ensures Picks(ScopedPicks(TimelineWhere(ticketId, q, reader.role), reader.tenantId), e)
        <==> Intended(ticketId, EffectiveEntry(q, reader.role), reader, e)
  {
    hide Holds, TimelineWhere, EntryRow, Column;
    var q' := EffectiveEntry(q, reader.role);
    if !HandlesInternalNotes(reader.role) { ActionOverwritten(ticketId, q, reader.role); }
    var w := TimelineWhere(ticketId, q', reader.role);
    TimelineParts(ticketId, q', reader.role, e);
    EntryColumns(e);
    assert w.(cols := w.cols - {TenantId}) == w by { assert w.cols - {TenantId} == w.cols; }
    WithMeans(w, TenantId, Equals(Text(reader.tenantId)), Key(AuditLog, e.id), EntryRow(e));
  }

  // The ticket is resolved first, and a ticket that is not found has no timeline.
  ghost predicate Shows(table: map<string, Tickets.Ticket>, ticketId: string, q: AuditQuery, reader: Caller, e: Entry) {
    && Load(table, ticketId, reader)
    && Picks(ScopedPicks(TimelineWhere(ticketId, q, reader.role), reader.tenantId), e)
  }

  // No timeline of a requester or an operator contains an internal note, whatever filter was
  // sent, and nothing of another ticket or another company is on any timeline.
  lemma TimelineHidesNotes(table: map<string, Tickets.Ticket>, ticketId: string, q: AuditQuery, reader: Caller,
                           e: Entry)
    requires ById(table) && Shows(table, ticketId, q, reader, e)
    ensures ticketId in table && CanSee(reader, table[ticketId])
    ensures e.entityId == ticketId && e.tenantId == reader.tenantId
    ensures reader.role in {REQUESTER, ADMIN_MASTER} ==> e.action != "internal_note_added"
  {
    hide Load, Picks;
    LoadableIffVisible(table, ticketId, reader);
    TimelineMeans(ticketId, q, reader, e);
  }

  // Asked for everything, the timeline leaves out nothing of a visible ticket but the
  // internal notes, and those only for readers who are neither administrators nor agents.
  lemma TimelineShowsTheRest(table: map<string, Tickets.Ticket>, ticketId: string, reader: Caller, e: Entry)
    requires ById(table) && ticketId in table && CanSee(reader, table[ticketId])
    requires e.entityId == ticketId && e.tenantId == reader.tenantId
    ensures Shows(table, ticketId, AuditQuery(None, None), reader, e)
        <==> e.action != "internal_note_added" || reader.role in {ADMIN, AGENT}
  {
    hide Load, Picks;
    LoadableIffVisible(table, ticketId, reader);
    TimelineMeans(ticketId, AuditQuery(None, None), reader, e);
  }

  lemma TimelineConjunctionExactly(ticketId: string, q: AuditQuery, reader: Caller)
    ensures (forall e :: Picks(ScopedPicks(TimelineWhere(ticketId, q, reader.role), reader.tenantId), e)
                         == Intended(ticketId, q, reader, e))
        <==> reader.role in {ADMIN, AGENT} || q.action in {None, Some("")}
  {
    hide Picks, ScopedPicks, TimelineWhere;
    if !HandlesInternalNotes(reader.role) && Truthy(q.action) {
      var shown := if q.action.value == "created" then "updated" else "created";
      assert "created"[0] == 'c' && "updated"[0] == 'u' && INTERNAL_NOTE_ADDED[0] == 'i';
      var e := Entry("", reader.tenantId, ticketId, q.userId, shown);
      TimelineMeans(ticketId, q, reader, e);
    } else {
      assert q.action.Some? && q.action.value == "" ==> q.action == Some("");
      forall e ensures Picks(ScopedPicks(TimelineWhere(ticketId, q, reader.role), reader.tenantId), e)
                       == Intended(ticketId, q, reader, e)
      {
        TimelineMeans(ticketId, q, reader, e);
      }
    }
  }
}
