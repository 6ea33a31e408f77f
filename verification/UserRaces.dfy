// The same requests without the isolation: at READ COMMITTED a request judges committed rows
// and writes later, and anything may be committed in between. src/users/users.service.ts.
module UserRaces {
  import opened Values
  import opened Tickets
  import opened Users

  // The users, and the requests that have passed their checks and not yet written.
  datatype State = State(users: map<string, User>, checked: map<nat, UserRequest>)

  datatype Move =
    | Check(x: nat, request: UserRequest, requester: Caller)
    | Write(x: nat)
    | Abandon(x: nat)

  // The unique index lets the write through.
  predicate Lands(users: map<string, User>, request: UserRequest) {
    match request
    case CreateUser(id, email, _) => id !in users && !EmailTaken(users, email, id)
    case UpdateUser(id, email, _) => id in users && (email.Some? ==> !EmailTaken(users, email.value, id))
    case RemoveUser(id, _) => id in users
    case RestoreUser(id) => id in users
  }

  // The statement writes the columns it names into the row as it is by then.
  function WriteTo(users: map<string, User>, request: UserRequest): map<string, User> {
    if !Lands(users, request) then users
    else
      match request
      case CreateUser(id, email, role) => users[id := User(email, Or(role, REQUESTER), None)]
      case UpdateUser(id, email, role) =>
        users[id := User(Or(email, users[id].email), Or(role, users[id].role), users[id].deletedAt)]
      case RemoveUser(id, now) => users[id := users[id].(deletedAt := Some(now))]
      case RestoreUser(id) => users[id := users[id].(deletedAt := None)]
  }

  function Step(s: State, move: Move): Option<State> {
    match move
    case Check(x, request, requester) =>
      if x in s.checked || (request.CreateUser? && request.id in s.users) then None
      else if Handle(s.users, request, requester).Success? then Some(s.(checked := s.checked[x := request]))
      else Some(s)
    case Write(x) =>
      if x in s.checked then Some(State(WriteTo(s.users, s.checked[x]), s.checked - {x})) else None
    case Abandon(x) =>
      if x in s.checked then Some(s.(checked := s.checked - {x})) else None
  }

  predicate Runs(s: State, moves: seq<Move>)
    decreases moves
  {
    moves == [] || (Step(s, moves[0]).Some? && Runs(Step(s, moves[0]).value, moves[1..]))
  }

  function End(s: State, moves: seq<Move>): State
    requires Runs(s, moves)
    decreases moves
  {
    if moves == [] then s else End(Step(s, moves[0]).value, moves[1..])
  }

  // What is possible when: a request passes its checks once, writes or is given up once, and
  // only after it has passed; a user to be created has a new id.
  lemma MovesTakeTurns(s: State, move: Move)
    ensures Step(s, move).Some?
        <==> match move
             case Check(x, request, _) => x !in s.checked && (request.CreateUser? ==> request.id !in s.users)
             case Write(x) => x in s.checked
             case Abandon(x) => x in s.checked
    ensures Step(s, move).Some? ==>
              var s' := Step(s, move).value;
              match move
              case Check(x, request, requester) =>
                s'.users == s.users
                && s'.checked == if Handle(s.users, request, requester).Success? then s.checked[x := request]
                                 else s.checked
              case Write(x) => s'.checked == s.checked - {x}
              case Abandon(x) => s' == State(s.users, s.checked - {x})
  {
    hide Handle, WriteTo;
  }

  // Whatever happened since the check, a write changes one user's row, that user's named
  // columns, and is refused when the row is gone or the index finds the address taken.
  lemma WriteMeans(users: map<string, User>, request: UserRequest)
    ensures var id := request.id;
            var users' := WriteTo(users, request);
            var free := match request
                        case CreateUser(_, email, _) => forall i | i in users && i != id :: users[i].email != email
                        case UpdateUser(_, email, _) =>
                          forall i | i in users && i != id :: Some(users[i].email) != email
                        case _ => true;
            if free && (request.CreateUser? <==> id !in users) then
              && users'.Keys == users.Keys + {id} && (forall i | i in users && i != id :: users'[i] == users[i])
              && match request
                 case CreateUser(_, email, role) =>
                   users'[id] == User(email, if role.Some? then role.value else REQUESTER, None)
                 case UpdateUser(_, email, role) =>
                   Kept(email, users[id].email, users'[id].email) && Kept(role, users[id].role, users'[id].role)
                   && users'[id].deletedAt == users[id].deletedAt
                 case RemoveUser(_, now) => users'[id] == users[id].(deletedAt := Some(now))
                 case RestoreUser(_) => users'[id] == users[id].(deletedAt := None)
            else users' == users
  {
  }

  // The index holds over every interleaving, whatever the checks had seen.
  lemma {:induction false} EmailsStayUniqueInRaces(s: State, moves: seq<Move>)
    requires EmailsUnique(s.users) && Runs(s, moves)
    ensures EmailsUnique(End(s, moves).users)
    decreases moves
  {
    if moves != [] {
      assert EmailsUnique(Step(s, moves[0]).value.users) by { hide Handle; }
      hide EmailsUnique, Step;
      EmailsStayUniqueInRaces(Step(s, moves[0]).value, moves[1..]);
    }
  }

  // A request with nothing in between is the atomic one.
  lemma UninterruptedIsAtomic(users: map<string, User>, x: nat, request: UserRequest, requester: Caller)
    requires request.CreateUser? ==> request.id !in users
    requires Handle(users, request, requester).Success?
    ensures var moves := [Check(x, request, requester), Write(x)];
            && Runs(State(users, map[]), moves)
            && End(State(users, map[]), moves) == State(After(users, request, requester), map[])
  {
    hide EmailTaken, AssertNotLastAdmin, Runs, End;
    var s := State(users, map[]);
    var s1 := State(users, map[x := request]);
    var s2 := State(After(users, request, requester), map[]);
    assert Step(s, Check(x, request, requester)) == Some(s1);
    assert Step(s1, Write(x)) == Some(s2) by {
      assert WriteTo(users, request) == After(users, request, requester);
      assert s1.checked - {x} == map[];
    }
    Twice(s, Check(x, request, requester), s1, Write(x), s2);
  }

  lemma Twice(s: State, first: Move, s1: State, second: Move, s2: State)
    requires Step(s, first) == Some(s1) && Step(s1, second) == Some(s2)
    ensures Runs(s, [first, second]) && End(s, [first, second]) == s2
  {
    hide Step;
    assert [first, second][1..] == [second] && [second][1..] == [];
    assert Runs(s2, []) && End(s2, []) == s2;
    assert Runs(s1, [second]) && End(s1, [second]) == End(s2, []);
  }

  // ----- When the last ADMIN is lost --------------------------------------------------------

  predicate Unseats(request: UserRequest) {
    request.RemoveUser? || (request.UpdateUser? && request.newRole.Some? && request.newRole.value != ADMIN)
  }

  // The write takes the only active ADMIN away: the count its request made no longer holds.
  predicate TakesTheLast(users: map<string, User>, request: UserRequest) {
    Unseats(request) && Lands(users, request) && ActiveAdmins(users) == {request.id}
  }

  lemma SeatsAfter(users: map<string, User>, request: UserRequest)
    ensures ActiveAdmins(users) - {request.id} <= ActiveAdmins(WriteTo(users, request))
    ensures !Unseats(request) ==> ActiveAdmins(users) <= ActiveAdmins(WriteTo(users, request))
    ensures Lands(users, request) && Unseats(request) ==>
              ActiveAdmins(WriteTo(users, request)) == ActiveAdmins(users) - {request.id}
  {
    hide EmailTaken;
  }

  lemma WriteKeepsAdmin(users: map<string, User>, request: UserRequest)
    requires Administrable(users)
    ensures Administrable(WriteTo(users, request)) <==> !TakesTheLast(users, request)
  {
    hide WriteTo, Lands;
    SeatsAfter(users, request);
    if Unseats(request) && Lands(users, request) {
      assert ActiveAdmins(users) - {request.id} == {} <==> ActiveAdmins(users) == {request.id};
    } else if Unseats(request) {
      NotLanded(users, request);
    }
  }

  lemma NotLanded(users: map<string, User>, request: UserRequest)
    requires !Lands(users, request)
    ensures WriteTo(users, request) == users
  {
  }

  // There is an active ADMIN in every state of the run.
  predicate AlwaysAdministrable(s: State, moves: seq<Move>)
    requires Runs(s, moves)
    decreases moves
  {
    Administrable(s.users) && (moves == [] || AlwaysAdministrable(Step(s, moves[0]).value, moves[1..]))
  }

  // Every count still holds when its request writes.
  predicate CountsHold(s: State, moves: seq<Move>)
    requires Runs(s, moves)
    decreases moves
  {
    || moves == []
    || (&& !(moves[0].Write? && moves[0].x in s.checked && TakesTheLast(s.users, s.checked[moves[0].x]))
        && CountsHold(Step(s, moves[0]).value, moves[1..]))
  }

  // Over every interleaving: the company keeps an active ADMIN all along if and only if no
  // request writes after its target has become the only one.
  lemma {:induction false} LostExactlyWhenACountIsStale(s: State, moves: seq<Move>)
    requires Administrable(s.users) && Runs(s, moves)
    ensures AlwaysAdministrable(s, moves) <==> CountsHold(s, moves)
    decreases moves
  {
    hide Administrable, TakesTheLast, WriteTo, Handle;
    if moves != [] {
      var s' := Step(s, moves[0]).value;
      if moves[0].Write? { WriteKeepsAdmin(s.users, s.checked[moves[0].x]); }
      if Administrable(s'.users) {
        LostExactlyWhenACountIsStale(s', moves[1..]);
      } else {
        LostStaysVisible(s', moves[1..]);
      }
    }
  }

  lemma LostStaysVisible(s: State, moves: seq<Move>)
    requires !Administrable(s.users) && Runs(s, moves)
    ensures !AlwaysAdministrable(s, moves)
  {
  }

  // ----- What a caller can do about it --------------------------------------------------------

  // A request that unseats somebody writes only while no other one has passed its checks.
  predicate OneAtATime(s: State, moves: seq<Move>)
    requires Runs(s, moves)
    decreases moves
  {
    || moves == []
    || (&& (moves[0].Write? && moves[0].x in s.checked && Unseats(s.checked[moves[0].x]) ==>
              forall y | y in s.checked && y != moves[0].x :: !Unseats(s.checked[y]))
        && OneAtATime(Step(s, moves[0]).value, moves[1..]))
  }

  // Every count that has been made still holds.
  predicate CountsCurrent(s: State) {
    && Administrable(s.users)
    && forall x | x in s.checked && Unseats(s.checked[x]) :: ActiveAdmins(s.users) != {s.checked[x].id}
  }

  lemma CheckCounts(users: map<string, User>, request: UserRequest, requester: Caller)
    requires Handle(users, request, requester).Success? && Unseats(request)
    ensures ActiveAdmins(users) != {request.id}
  {
    RequestsDoWhatWasAsked(users, request, requester);
  }

  lemma CurrentStep(s: State, move: Move)
    requires CountsCurrent(s) && Step(s, move).Some?
    requires move.Write? && Unseats(s.checked[move.x]) ==>
               forall y | y in s.checked && y != move.x :: !Unseats(s.checked[y])
    ensures CountsCurrent(Step(s, move).value)
  {
    hide WriteTo, Handle, Lands, ActiveAdmins;
    var s' := Step(s, move).value;
    if move.Check? && Handle(s.users, move.request, move.requester).Success? && Unseats(move.request) {
      CheckCounts(s.users, move.request, move.requester);
    }
    if move.Write? {
      var request := s.checked[move.x];
      WriteKeepsAdmin(s.users, request);
      SeatsAfter(s.users, request);
      forall y | y in s'.checked && Unseats(s'.checked[y]) ensures ActiveAdmins(s'.users) != {s'.checked[y].id} {
        var id := s.checked[y].id;
        var other :| other in ActiveAdmins(s.users) && other != id;
        assert other in ActiveAdmins(s'.users);
      }
    }
  }

  lemma {:induction false} OneAtATimeIsSafe(s: State, moves: seq<Move>)
    requires CountsCurrent(s) && Runs(s, moves) && OneAtATime(s, moves)
    ensures AlwaysAdministrable(s, moves)
    decreases moves
  {
    hide Unseats, WriteTo, Handle, Administrable, ActiveAdmins;
    if moves != [] {
      CurrentStep(s, moves[0]);
      OneAtATimeIsSafe(Step(s, moves[0]).value, moves[1..]);
    }
  }

  // ----- And what goes wrong otherwise ----------------------------------------------------------

  // Requests that unseat different active ADMINs, each accepted on the users as they are.
  predicate Rivals(users: map<string, User>, requests: seq<(UserRequest, Caller)>) {
    && (forall i | 0 <= i < |requests| ::
          && Unseats(requests[i].0) && requests[i].0.id in ActiveAdmins(users)
          && (requests[i].0.UpdateUser? ==> requests[i].0.newEmail.None?)
          && Handle(users, requests[i].0, requests[i].1).Success?)
    && (forall i, j | 0 <= i < j < |requests| :: requests[i].0.id != requests[j].0.id)
  }

  function Targets(requests: seq<(UserRequest, Caller)>): set<string> {
    set i | 0 <= i < |requests| :: requests[i].0.id
  }

  function Checks(requests: seq<(UserRequest, Caller)>, from: nat): seq<Move> {
    seq(|requests|, i requires 0 <= i < |requests| => Check(from + i, requests[i].0, requests[i].1))
  }

  function Writes(count: nat, from: nat): seq<Move> {
    seq(count, i requires 0 <= i < count => Write(from + i))
  }

  lemma {:induction false} Joins(s: State, before: seq<Move>, after: seq<Move>)
    requires Runs(s, before) && Runs(End(s, before), after)
    ensures Runs(s, before + after) && End(s, before + after) == End(End(s, before), after)
    decreases before
  {
    hide Step;
    if before == [] {
      assert before + after == after;
    } else {
      assert (before + after)[1..] == before[1..] + after;
      Joins(Step(s, before[0]).value, before[1..], after);
    }
  }

  predicate InFlight(s: State, requests: seq<(UserRequest, Caller)>, from: nat) {
    forall x | from <= x < from + |requests| :: x in s.checked && s.checked[x] == requests[x - from].0
  }

  lemma Passes(s: State, x: nat, request: UserRequest, requester: Caller)
    requires x !in s.checked && !request.CreateUser? && Handle(s.users, request, requester).Success?
    ensures Step(s, Check(x, request, requester)) == Some(s.(checked := s.checked[x := request]))
  {
    hide Handle;
  }

  // All of them pass.
  lemma {:induction false} AllPass(s: State, requests: seq<(UserRequest, Caller)>, from: nat)
    requires Rivals(s.users, requests) && forall x | x in s.checked :: x < from
    ensures Runs(s, Checks(requests, from))
    ensures var s' := End(s, Checks(requests, from));
            && s'.users == s.users && InFlight(s', requests, from)
            && (forall x | x in s.checked :: x in s'.checked && s'.checked[x] == s.checked[x])
    decreases requests
  {
    hide Handle, ActiveAdmins, WriteTo, Step;
    if requests != [] {
      var s1 := s.(checked := s.checked[from := requests[0].0]);
      var moves := Checks(requests, from);
      assert moves[0] == Check(from, requests[0].0, requests[0].1);
      Passes(s, from, requests[0].0, requests[0].1);
      assert moves[1..] == Checks(requests[1..], from + 1);
      AllPass(s1, requests[1..], from + 1);
      var s' := End(s1, Checks(requests[1..], from + 1));
      assert from in s1.checked;
      forall x | from <= x < from + |requests| ensures x in s'.checked && s'.checked[x] == requests[x - from].0 {
        if x > from { assert requests[1..][x - from - 1] == requests[x - from]; }
      }
    }
  }

  predicate Doomed(users: map<string, User>, requests: seq<(UserRequest, Caller)>) {
    forall i | 0 <= i < |requests| ::
      && Unseats(requests[i].0) && requests[i].0.id in users
      && (requests[i].0.UpdateUser? ==> requests[i].0.newEmail.None?)
  }

  // And all of them write.
  lemma {:induction false} AllWrite(s: State, requests: seq<(UserRequest, Caller)>, from: nat)
    requires InFlight(s, requests, from) && Doomed(s.users, requests)
    ensures Runs(s, Writes(|requests|, from))
    ensures ActiveAdmins(End(s, Writes(|requests|, from)).users) == ActiveAdmins(s.users) - Targets(requests)
    decreases requests
  {
    hide ActiveAdmins, Handle;
    if requests == [] {
      assert Targets(requests) == {};
    } else {
      var request := requests[0].0;
      assert from in s.checked && s.checked[from] == request;
      var s1 := State(WriteTo(s.users, request), s.checked - {from});
      var moves := Writes(|requests|, from);
      assert Step(s, moves[0]) == Some(s1);
      SeatsAfter(s.users, request);
      KeepsIds(s.users, request);
      assert moves[1..] == Writes(|requests[1..]|, from + 1);
      hide WriteTo, Unseats, Lands;
      AllWrite(s1, requests[1..], from + 1);
      TargetsOf(requests);
    }
  }

  lemma KeepsIds(users: map<string, User>, request: UserRequest)
    ensures users.Keys <= WriteTo(users, request).Keys
  {
  }

  lemma TargetsOf(requests: seq<(UserRequest, Caller)>)
    requires requests != []
    ensures Targets(requests) == {requests[0].0.id} + Targets(requests[1..])
  {
    forall id ensures id in Targets(requests) <==> id in {requests[0].0.id} + Targets(requests[1..]) {
      if id in Targets(requests) {
        var i :| 0 <= i < |requests| && requests[i].0.id == id;
        if i > 0 { assert requests[1..][i - 1].0.id == id; }
      }
      if id in Targets(requests[1..]) {
        var i :| 0 <= i < |requests[1..]| && requests[1..][i].0.id == id;
        assert requests[i + 1].0.id == id;
      }
    }
  }

  // However many ADMINs there are: if requests that unseat different ones all count before any
  // of them writes, every one is accepted and takes its target, and nobody is left exactly
  // when together they name all of them.
  lemma RivalsLeaveTheRest(users: map<string, User>, requests: seq<(UserRequest, Caller)>)
    requires Rivals(users, requests)
    ensures var s := State(users, map[]);
            var moves := Checks(requests, 0) + Writes(|requests|, 0);
            && Runs(s, moves)
            && ActiveAdmins(End(s, moves).users) == ActiveAdmins(users) - Targets(requests)
            && (!Administrable(End(s, moves).users) <==> ActiveAdmins(users) <= Targets(requests))
  {
    hide Handle, Step, Unseats, Runs, End;
    var s := State(users, map[]);
    AllPass(s, requests, 0);
    var s1 := End(s, Checks(requests, 0));
    assert Doomed(users, requests) by {
      forall i | 0 <= i < |requests| ensures requests[i].0.id in users {
        assert requests[i].0.id in ActiveAdmins(users);
      }
    }
    AllWrite(s1, requests, 0);
    Joins(s, Checks(requests, 0), Writes(|requests|, 0));
    NothingLeft(ActiveAdmins(users), Targets(requests));
  }

  lemma NothingLeft(all: set<string>, taken: set<string>)
    ensures all - taken == {} <==> all <= taken
  {
    if all - taken == {} {
      forall id | id in all ensures id in taken { assert id in taken || id in all - taken; }
    }
  }
}
