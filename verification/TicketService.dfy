// TicketsService.create and mutate as they run when nothing interleaves, and that every
// such call is one of the machine's runs. src/tickets/tickets.service.ts.
module TicketService {
  import opened Values
  import opened Tickets
  import opened TicketMachine
  import opened TicketLimits

  const NO_COUNTER := App(Other("no ticket_counters row"))
  const CHANGED_MEANWHILE := App(Conflict("version"))

  // The row `load` answers with.
  function Loads(tickets: map<string, Ticket>, id: string, caller: Caller): Result<Ticket> {
    if id in tickets && CanSee(caller, tickets[id]) then Success(tickets[id]) else Failure(App(NotFound))
  }

  // Why a mutation is refused, in the order the service finds out: 404, the rule of the
  // change, then the version.
  function Verdict(tickets: map<string, Ticket>, id: string, version: int, request: Request, caller: Caller,
                   at: Circumstance)
    : Result<Change>
  {
    var current :- Loads(tickets, id, caller);
    var change :- Validate(request, current, caller, at);
    if current.version != version then Failure(CHANGED_MEANWHILE) else Success(change)
  }

  // A ticket is answered to its company's ADMINs, its requester and its assignee, and is not
  // found by anyone else; a change the rules refuse is refused before the version is looked at.
  lemma VerdictExactly(tickets: map<string, Ticket>, id: string, version: int, request: Request, caller: Caller,
                       at: Circumstance)
    ensures var found := id in tickets && tickets[id].tenantId == caller.tenantId
                         && (caller.role == ADMIN || tickets[id].requesterId == caller.id
                             || tickets[id].assigneeId == Some(caller.id));
            var verdict := Verdict(tickets, id, version, request, caller, at);
            && Loads(tickets, id, caller) == (if found then Success(tickets[id]) else Failure(App(NotFound)))
            && (verdict.Success? <==> found && Acceptable(request, tickets[id], at) && tickets[id].version == version)
            && (!found ==> verdict == Failure(App(NotFound)))
            && (found && !Acceptable(request, tickets[id], at) ==>
                  verdict == Validate(request, tickets[id], caller, at))
            && (found && Acceptable(request, tickets[id], at) && tickets[id].version != version ==>
                  verdict == Failure(App(Conflict("version"))))
  {
    if id in tickets {
      MutationDoesWhatWasAsked(request, tickets[id], caller, at);
      hide Validate;
    }
  }

  class TicketsService {
    var tickets: map<string, Ticket>
    var counters: map<string, int>
    var emitted: seq<TicketEvent>

    constructor (tickets: map<string, Ticket>, counters: map<string, int>)
      ensures this.tickets == tickets && this.counters == counters && emitted == []
    {
      this.tickets, this.counters, emitted := tickets, counters, [];
    }

    method Create(id: string, draft: Draft, caller: Caller, now: int) returns (r: Result<Ticket>)
      requires id !in tickets
      modifies this
      ensures caller.tenantId !in old(counters) ==>
                && r == Failure(NO_COUNTER)
                && tickets == old(tickets) && counters == old(counters) && emitted == old(emitted)
      ensures caller.tenantId in old(counters) ==>
                var number := old(counters)[caller.tenantId] + 1;
                var ticket := NewTicket(id, number, draft, caller, now);
                && r == Success(ticket)
                && counters == old(counters)[caller.tenantId := number]
                && tickets == old(tickets)[id := ticket]
                && emitted == old(emitted) + [CreatedEvent(ticket, caller)]
    {
      if caller.tenantId !in counters {
        return Failure(NO_COUNTER);
      }
      counters := counters[caller.tenantId := counters[caller.tenantId] + 1];
      var ticket := NewTicket(id, counters[caller.tenantId], draft, caller, now);
      tickets := tickets[id := ticket];
      emitted := emitted + [CreatedEvent(ticket, caller)];
      r := Success(ticket);
    }

    method Load(id: string, caller: Caller) returns (r: Result<Ticket>)
      ensures r == Loads(tickets, id, caller)
    {
      if id !in tickets || !CanSee(caller, tickets[id]) {
        return Failure(App(NotFound));
      }
      r := Success(tickets[id]);
    }

    // The optimistic lock: nothing is written and nothing is announced unless the version
    // is the row's, and then the row moves on by exactly one.
    method Mutate(id: string, version: int, request: Request, caller: Caller, at: Circumstance)
      returns (r: Result<Ticket>)
      modifies this
      ensures counters == old(counters)
      ensures var verdict := Verdict(old(tickets), id, version, request, caller, at);
              && (verdict.Failure? ==>
                    r == Failure(verdict.error) && tickets == old(tickets) && emitted == old(emitted))
              && (verdict.Success? ==>
                    var before := old(tickets)[id];
                    var after := Apply(before, verdict.value);
                    && r == Success(after) && after.version == version + 1
                    && tickets == old(tickets)[id := after]
                    && emitted == old(emitted) + [MutationEvent(request, before, after, caller)])
    {
      var current :- Load(id, caller);
      var data :- Validate(request, current, caller, at);
      var count := 0;
      if id in tickets && tickets[id].version == version {
        tickets := tickets[id := Apply(tickets[id], data)];
        count := 1;
      }
      if count == 0 {
        return Failure(CHANGED_MEANWHILE);
      }
      var updated := tickets[id];
      emitted := emitted + [MutationEvent(request, current, updated, caller)];
      r := Success(updated);
    }
  }

  // ----- The uninterrupted call is a run ----------------------------------------------------

  function MutateMoves(x: nat, id: string, version: int, request: Request, caller: Caller,
                       at: Circumstance): seq<Move> {
    Judging(x, id, version, request, caller, at) + [Update(x), Commit(x)]
  }

  // The machine can do exactly what an accepted call does, when nothing else is open: the
  // same row, the same event, and nothing else.
  lemma UninterruptedMutate(s: State, x: nat, id: string, version: int, request: Request, caller: Caller,
                            at: Circumstance)
    requires s.open == map[] && Verdict(s.tickets, id, version, request, caller, at).Success?
    ensures var moves := MutateMoves(x, id, version, request, caller, at);
            var before := s.tickets[id];
            var change := Verdict(s.tickets, id, version, request, caller, at).value;
            var after := Apply(before, change);
            var event := MutationEvent(request, before, after, caller);
            && Runs(s, moves)
            && End(s, moves) == State(s.tickets[id := after], s.counters,
                                      s.log + [Mutated(before, before, request, caller, at, change, event)], map[])
  {
    hide Runs, End, Validate, Apply, MutationEvent;
    JudgingRuns(s, x, id, version, request, caller, at);
    var judged := End(s, Judging(x, id, version, request, caller, at));
    assert judged.open == map[x := Judged(s, id, version, request, caller, at)];
    UpdatingRuns(judged, x, id);
    Joins(s, Judging(x, id, version, request, caller, at), [Update(x), Commit(x)]);
    assert judged.open - {x} == map[];
    var entry := UpdateEntry(s.tickets[id], judged.open[x].phase);
    assert [] + [entry] == [entry];
  }

  function CreateMoves(x: nat, id: string, draft: Draft, caller: Caller, now: int): seq<Move> {
    [Begin(x), CountUp(x, draft, caller), Insert(x, id, now), Commit(x)]
  }

  lemma CountsUp(s: State, x: nat, draft: Draft, caller: Caller)
    requires s.open == map[x := Tx(map[], map[], [], Ready)] && caller.tenantId in s.counters
    ensures var number := s.counters[caller.tenantId] + 1;
            Step(s, CountUp(x, draft, caller)) ==
            Some(Put(s, x, Tx(map[], map[caller.tenantId := number], [], Counted(draft, caller, number))))
  {
    assert !CounterLocked(s, x, caller.tenantId);
  }

  lemma Inserts(s: State, x: nat, counters: map<string, int>, id: string, draft: Draft, caller: Caller, number: int,
                now: int)
    requires s.open == map[x := Tx(map[], counters, [], Counted(draft, caller, number))] && id !in s.tickets
    ensures var ticket := NewTicket(id, number, draft, caller, now);
            Step(s, Insert(x, id, now)) ==
            Some(Put(s, x, Tx(map[id := ticket], counters, [Opened(ticket, caller, CreatedEvent(ticket, caller))],
                              Ready)))
  {
    hide NewTicket, CreatedEvent;
    var ticket := NewTicket(id, number, draft, caller, now);
    assert !TicketLocked(s, x, id);
    var entry := Opened(ticket, caller, CreatedEvent(ticket, caller));
    assert [] + [entry] == [entry];
  }

  lemma Commits(s: State, x: nat, id: string, ticket: Ticket, t: string, number: int, entry: Entry)
    requires s.open == map[x := Tx(map[id := ticket], map[t := number], [entry], Ready)]
    ensures Step(s, Commit(x)) == Some(State(s.tickets[id := ticket], s.counters[t := number], s.log + [entry], map[]))
  {
    assert s.tickets + map[id := ticket] == s.tickets[id := ticket];
    assert s.counters + map[t := number] == s.counters[t := number];
    assert s.open - {x} == map[];
  }

  lemma UninterruptedCreate(s: State, x: nat, id: string, draft: Draft, caller: Caller, now: int)
    requires s.open == map[] && caller.tenantId in s.counters && id !in s.tickets
    ensures var moves := CreateMoves(x, id, draft, caller, now);
            var number := s.counters[caller.tenantId] + 1;
            var ticket := NewTicket(id, number, draft, caller, now);
            && Runs(s, moves)
            && End(s, moves) == State(s.tickets[id := ticket], s.counters[caller.tenantId := number],
                                      s.log + [Opened(ticket, caller, CreatedEvent(ticket, caller))], map[])
  {
    hide Runs, End, NewTicket, CreatedEvent, Step;
    var number := s.counters[caller.tenantId] + 1;
    var ticket := NewTicket(id, number, draft, caller, now);
    var entry := Opened(ticket, caller, CreatedEvent(ticket, caller));
    var moves := CreateMoves(x, id, draft, caller, now);
    var counters := map[caller.tenantId := number];
    var s1 := Put(s, x, Tx(map[], map[], [], Ready));
    var s2 := Put(s1, x, Tx(map[], counters, [], Counted(draft, caller, number)));
    var s3 := Put(s2, x, Tx(map[id := ticket], counters, [entry], Ready));
    var s4 := State(s.tickets[id := ticket], s.counters[caller.tenantId := number], s.log + [entry], map[]);
    Begins(s, x);
    CountsUp(s1, x, draft, caller);
    Inserts(s2, x, counters, id, draft, caller, number, now);
    Commits(s3, x, id, ticket, caller.tenantId, number, entry);
    Nothing(s);
    Then(s, [], s, moves[0], s1);
    Then(s, [] + [moves[0]], s1, moves[1], s2);
    Then(s, [] + [moves[0]] + [moves[1]], s2, moves[2], s3);
    Then(s, [] + [moves[0]] + [moves[1]] + [moves[2]], s3, moves[3], s4);
    assert [] + [moves[0]] + [moves[1]] + [moves[2]] + [moves[3]] == moves;
  }

  lemma Begins(s: State, x: nat)
    requires x !in s.open
    ensures Step(s, Begin(x)) == Some(Put(s, x, Tx(map[], map[], [], Ready)))
  {
  }
}
