// Who is addressed by the events that concurrent ticket requests release:
// TicketsService.emit and NotificationsGateway.onTicketEvent over whole runs.
module FanOut {
  import opened Tickets
  import opened TicketMachine
  import opened TicketLaws
  import opened TicketResults
  import N = Notifications

  // The ticket on both sides of a piece of committed work.
  function Sides(e: Entry): set<Ticket> {
    match e
    case Opened(ticket, _, _) => {ticket}
    case Mutated(_, row, _, _, _, change, _) => {row, Apply(row, change)}
  }

  // For every event an honest run releases: the sockets its rooms reach are exactly those of
  // people who could see the ticket before or after what it announces.
  lemma ReleasedEventsReachTheirViewers(moves: seq<Move>, i: nat, socket: N.Socket)
    requires Runs(START, moves) && HonestRun(START, moves) && i < |End(START, moves).log|
    requires N.InItsRooms(socket) && forall t | t in Sides(End(START, moves).log[i]) :: N.AtHome(socket.user, t)
    ensures var e := End(START, moves).log[i];
            && (N.Hears(socket.user, e.event) <==> socket.rooms * N.RoomsOf(e.event) != {})
            && (N.Hears(socket.user, e.event) <==> exists t | t in Sides(e) :: CanSee(N.AsCaller(socket.user), t))
  {
    hide Runs, HonestRun, End, N.InItsRooms, N.RoomsOf, N.AtHome, CanSee;
    HonestLog(moves);
    var e := End(START, moves).log[i];
    N.Reached(socket, e.event, N.RoomsOf(e.event));
    assert EntryOk(e) && Exact(e);
    EntryReachesItsViewers(e, socket.user);
  }

  lemma EntryReachesItsViewers(e: Entry, user: N.UserRow)
    requires EntryOk(e) && Exact(e) && forall t | t in Sides(e) :: N.AtHome(user, t)
    ensures N.Hears(user, e.event) <==> exists t | t in Sides(e) :: CanSee(N.AsCaller(user), t)
  {
    match e
    case Opened(ticket, _, _) => assert ticket in Sides(e);
    case Mutated(_, row, request, caller, at, change, _) =>
      hide Validate, Apply, CanSee, N.AtHome, MutationEvent;
      assert row in Sides(e) && Apply(row, change) in Sides(e);
      SeenInTenant(caller, row);
      N.MutationReachesItsViewers(user, request, row, caller, at);
  }

  lemma SeenInTenant(caller: Caller, t: Ticket)
    requires CanSee(caller, t)
    ensures caller.tenantId == t.tenantId
  {
  }
}
