// UsersService: a company never loses its last active ADMIN, as long as requests do not
// interleave. src/users/users.service.ts.
module Users {
  import opened Values
  import opened Tickets
  import opened RefreshMachine
  import opened RefreshService

  datatype User = User(email: string, role: Role, deletedAt: Option<int>)

  datatype UserRequest =
    | CreateUser(id: string, email: string, initialRole: Option<Role>)
    | UpdateUser(id: string, newEmail: Option<string>, newRole: Option<Role>)
    | RemoveUser(id: string, now: int)
    | RestoreUser(id: string)

  predicate AdministersUsers(role: Role) {
    role == ADMIN || role == ADMIN_MASTER
  }

  predicate Active(u: User) {
    u.deletedAt.None?
  }

  function ActiveAdmins(users: map<string, User>): set<string> {
    set id | id in users && users[id].role == ADMIN && Active(users[id])
  }

  // `@@unique([tenantId, email])`, which a deactivated user still occupies.
  predicate EmailsUnique(users: map<string, User>) {
    forall i, j | i in users && j in users && i != j :: users[i].email != users[j].email
  }

  predicate EmailTaken(users: map<string, User>, email: string, besides: string) {
    exists i | i in users && i != besides :: users[i].email == email
  }

  // ----- The requests -----------------------------------------------------------------------

  function LoadUser(users: map<string, User>, id: string, requester: Caller): Result<User> {
    if id !in users || (!Active(users[id]) && !AdministersUsers(requester.role)) then Failure(App(NotFound))
    else Success(users[id])
  }

  function AssertNotLastAdmin(users: map<string, User>, target: User): Result<()> {
    if target.role != ADMIN || !Active(target) then Success(())
    else if |ActiveAdmins(users)| <= 1 then Failure(App(Conflict("last admin")))
    else Success(())
  }

  // The users after the request, or the reason it is refused.
  function Handle(users: map<string, User>, request: UserRequest, requester: Caller): Result<map<string, User>> {
    match request
    case CreateUser(id, email, role) =>
      if EmailTaken(users, email, id) then Failure(App(Conflict("email in use")))
      else Success(users[id := User(email, if role.Some? then role.value else REQUESTER, None)])
    case UpdateUser(id, email, role) =>
      var current :- LoadUser(users, id, requester);
      var _ :- if role.Some? && role.value != ADMIN then AssertNotLastAdmin(users, current) else Success(());
      if email.Some? && EmailTaken(users, email.value, id) then Failure(App(Conflict("email in use")))
      else Success(users[id := User(Or(email, current.email), Or(role, current.role), current.deletedAt)])
    case RemoveUser(id, now) =>
      var target :- LoadUser(users, id, requester);
      if id == requester.id then Failure(App(Conflict("yourself")))
      else if !Active(target) then Failure(App(Conflict("already deactivated")))
      else
        var _ :- AssertNotLastAdmin(users, target);
        Success(users[id := target.(deletedAt := Some(now))])
    case RestoreUser(id) =>
      var target :- LoadUser(users, id, requester);
      if Active(target) then Failure(App(Conflict("not deactivated")))
      else Success(users[id := target.(deletedAt := None)])
  }

  // A request that fails rolls back.
  function After(users: map<string, User>, request: UserRequest, requester: Caller): map<string, User> {
    match Handle(users, request, requester)
    case Success(users') => users'
    case Failure(_) => users
  }

  class UsersService {
    var users: map<string, User>
    const refreshTokens: RefreshTokenService

    constructor (refreshTokens: RefreshTokenService)
      ensures users == map[] && this.refreshTokens == refreshTokens
    {
      users := map[];
      this.refreshTokens := refreshTokens;
    }

    method Load(id: string, requester: Caller) returns (r: Result<User>)
      ensures r == LoadUser(users, id, requester)
    {
      if id !in users {
        return Failure(App(NotFound));
      }
      var user := users[id];
      if user.deletedAt.Some? && !AdministersUsers(requester.role) {
        return Failure(App(NotFound));
      }
      r := Success(user);
    }

    // Refused exactly when nobody else could administer the company afterwards.
    method CheckNotLastAdmin(id: string, target: User) returns (r: Result<()>)
      requires id in users && users[id] == target
      ensures r.Failure? <==> ActiveAdmins(users) == {id}
      ensures r.Failure? ==> r.error == App(Conflict("last admin"))
    {
      OnlyOne(ActiveAdmins(users), id);
      if target.role != ADMIN || target.deletedAt.Some? {
        return Success(());
      }
      var admins := |ActiveAdmins(users)|;
      if admins <= 1 {
        return Failure(App(Conflict("last admin")));
      }
      r := Success(());
    }

    // The id is generated. The unique index decides whether the address is free.
    method Create(id: string, email: string, role: Option<Role>) returns (r: Result<User>)
      requires id !in users
      modifies this`users
      ensures users == After(old(users), CreateUser(id, email, role), Caller("", "", ADMIN))
      ensures r.Success? <==> !EmailTaken(old(users), email, id)
      ensures r.Failure? ==> r == Failure(App(Conflict("email in use")))
      ensures r.Success? ==> id in users && r.value == users[id]
    {
      if EmailTaken(users, email, id) {
        return Failure(App(Conflict("email in use")));
      }
      var user := User(email, if role.Some? then role.value else REQUESTER, None);
      users := users[id := user];
      r := Success(user);
    }

    method Update(id: string, email: Option<string>, role: Option<Role>, requester: Caller) returns (r: Result<User>)
      modifies this`users
      ensures users == After(old(users), UpdateUser(id, email, role), requester)
      ensures r.Success? <==> Handle(old(users), UpdateUser(id, email, role), requester).Success?
      ensures r.Failure? ==> Handle(old(users), UpdateUser(id, email, role), requester) == Failure(r.error)
      ensures r.Success? ==> id in users && r.value == users[id]
    {
      var current :- Load(id, requester);
      if role.Some? && role.value != ADMIN {
        OnlyOne(ActiveAdmins(users), id);
        var _ :- CheckNotLastAdmin(id, current);
      }
      if email.Some? && EmailTaken(users, email.value, id) {
        return Failure(App(Conflict("email in use")));
      }
      var user := User(Or(email, current.email), Or(role, current.role), current.deletedAt);
      users := users[id := user];
      r := Success(user);
    }

    // The row first, then the sessions, in one transaction.
    method Remove(id: string, now: int, requester: Caller) returns (r: Result<()>)
      modifies this`users, refreshTokens
      ensures users == After(old(users), RemoveUser(id, now), requester)
      ensures r.Success? <==> Handle(old(users), RemoveUser(id, now), requester).Success?
      ensures r.Failure? ==> Handle(old(users), RemoveUser(id, now), requester) == Failure(r.error)
      ensures refreshTokens.rows ==
              if r.Success? then Revoke(old(refreshTokens.rows), LiveIn(old(refreshTokens.rows), id))
              else old(refreshTokens.rows)
      ensures r.Success? ==> LiveIn(refreshTokens.rows, id) == {}
    {
      var target :- Load(id, requester);
      if id == requester.id {
        return Failure(App(Conflict("yourself")));
      }
      if target.deletedAt.Some? {
        return Failure(App(Conflict("already deactivated")));
      }
      OnlyOne(ActiveAdmins(users), id);
      var _ :- CheckNotLastAdmin(id, target);
      users := users[id := target.(deletedAt := Some(now))];
      var _ := refreshTokens.RevokeAllFor(id);
      r := Success(());
    }

    method Restore(id: string, requester: Caller) returns (r: Result<User>)
      modifies this`users
      ensures users == After(old(users), RestoreUser(id), requester)
      ensures r.Success? <==> Handle(old(users), RestoreUser(id), requester).Success?
      ensures r.Failure? ==> Handle(old(users), RestoreUser(id), requester) == Failure(r.error)
      ensures r.Success? ==> id in users && r.value == users[id]
    {
      var target :- Load(id, requester);
      if target.deletedAt.None? {
        return Failure(App(Conflict("not deactivated")));
      }
      var restored := target.(deletedAt := None);
      users := users[id := restored];
      r := Success(restored);
    }
  }

  // When a request is refused, and whose row it changes: no other user's, and of that one
  // nothing but what was asked.
  lemma RequestsDoWhatWasAsked(users: map<string, User>, request: UserRequest, requester: Caller)
    ensures var id := request.id;
            var result := Handle(users, request, requester);
            var loads := id in users && (users[id].deletedAt.None? || requester.role in {ADMIN, ADMIN_MASTER});
            match request
            case CreateUser(_, email, role) =>
              result.Success? <==> (forall i | i in users && i != id :: users[i].email != email)
            case UpdateUser(_, email, role) =>
              result.Success? <==>
                && loads
                && (role.Some? && role.value != ADMIN ==> ActiveAdmins(users) != {id})
                && (email.Some? ==> forall i | i in users && i != id :: users[i].email != email.value)
            case RemoveUser(_, _) =>
              result.Success? <==>
                loads && id != requester.id && users[id].deletedAt.None? && ActiveAdmins(users) != {id}
            case RestoreUser(_) =>
              result.Success? <==> loads && users[id].deletedAt.Some?
    ensures Handle(users, request, requester).Success? ==>
              var id := request.id;
              var users' := Handle(users, request, requester).value;
              && users'.Keys == users.Keys + {id}
              && (forall i | i in users && i != id :: users'[i] == users[i])
              && match request
                 case CreateUser(_, email, role) =>
                   users'[id].email == email && users'[id].deletedAt == None
                   && Kept(role, REQUESTER, users'[id].role)
                 case UpdateUser(_, email, role) =>
                   Kept(email, users[id].email, users'[id].email) && Kept(role, users[id].role, users'[id].role)
                   && users'[id].deletedAt == users[id].deletedAt
                 case RemoveUser(_, now) => users'[id] == users[id].(deletedAt := Some(now))
                 case RestoreUser(_) => users'[id] == users[id].(deletedAt := None)
  {
    OnlyOne(ActiveAdmins(users), request.id);
  }

  // Why each request is refused. Looking the user up comes first, and what protects the last
  // ADMIN comes before the address and after what the request says about itself.
  lemma RefusalsTellWhy(users: map<string, User>, request: UserRequest, requester: Caller)
    ensures var id := request.id;
            var result := Handle(users, request, requester);
            var loads := id in users && (users[id].deletedAt.None? || requester.role in {ADMIN, ADMIN_MASTER});
            result.Failure? ==>
              match request
              case CreateUser(_, _, _) => result.error == App(Conflict("email in use"))
              case UpdateUser(_, email, role) =>
                result.error == (if !loads then App(NotFound)
                                 else if role.Some? && role.value != ADMIN && ActiveAdmins(users) == {id} then
                                   App(Conflict("last admin"))
                                 else App(Conflict("email in use")))
              case RemoveUser(_, _) =>
                result.error == (if !loads then App(NotFound)
                                 else if id == requester.id then App(Conflict("yourself"))
                                 else if users[id].deletedAt.Some? then App(Conflict("already deactivated"))
                                 else App(Conflict("last admin")))
              case RestoreUser(_) =>
                result.error == if !loads then App(NotFound) else App(Conflict("not deactivated"))
  {
    OnlyOne(ActiveAdmins(users), request.id);
  }

  lemma OnlyOne(s: set<string>, id: string)
    ensures id in s ==> (|s| <= 1 <==> s == {id})
  {
    if id in s {
      assert s == {id} + (s - {id});
      assert |s| == 1 + |s - {id}|;
    }
  }

  // ----- Every sequence of requests ---------------------------------------------------------------

  function Run(users: map<string, User>, requests: seq<(UserRequest, Caller)>): map<string, User>
    decreases requests
  {
    if requests == [] then users
    else Run(After(users, requests[0].0, requests[0].1), requests[1..])
  }

  // An id that is generated is new.
  predicate NewIds(users: map<string, User>, requests: seq<(UserRequest, Caller)>)
    decreases requests
  {
    requests == []
    || (&& (requests[0].0.CreateUser? ==> requests[0].0.id !in users)
        && NewIds(After(users, requests[0].0, requests[0].1), requests[1..]))
  }

  predicate Administrable(users: map<string, User>) {
    ActiveAdmins(users) != {}
  }

  lemma OneLess(s: set<string>, id: string)
    requires |s| > 1
    ensures s - {id} != {}
  {
    assert id !in s ==> s - {id} == s;
    assert |s - {id}| >= |s| - 1;
  }

  lemma AdminStep(users: map<string, User>, request: UserRequest, requester: Caller)
    requires Administrable(users) && (request.CreateUser? ==> request.id !in users)
    ensures Administrable(After(users, request, requester))
  {
    if Handle(users, request, requester).Success? {
      hide EmailTaken;
      var users' := After(users, request, requester);
      var id := request.id;
      assert ActiveAdmins(users) - {id} <= ActiveAdmins(users');
      if id in ActiveAdmins(users) && id !in ActiveAdmins(users') {
        OneLess(ActiveAdmins(users), id);
      } else {
        assert ActiveAdmins(users) <= ActiveAdmins(users');
      }
    }
  }

  // A company that starts with an active ADMIN always has one.
  lemma {:induction false} AlwaysAdministrable(users: map<string, User>, requests: seq<(UserRequest, Caller)>)
    requires Administrable(users) && NewIds(users, requests)
    ensures Administrable(Run(users, requests))
    decreases requests
  {
    hide Administrable, After;
    if requests != [] {
      AdminStep(users, requests[0].0, requests[0].1);
      AlwaysAdministrable(After(users, requests[0].0, requests[0].1), requests[1..]);
    }
  }

  // Addresses stay unique, deactivated users included.
  lemma {:induction false} EmailsStayUnique(users: map<string, User>, requests: seq<(UserRequest, Caller)>)
    requires EmailsUnique(users) && NewIds(users, requests)
    ensures EmailsUnique(Run(users, requests))
    decreases requests
  {
    if requests != [] {
      assert EmailsUnique(After(users, requests[0].0, requests[0].1)) by { hide AssertNotLastAdmin; }
      hide After, EmailsUnique;
      EmailsStayUnique(After(users, requests[0].0, requests[0].1), requests[1..]);
    }
  }

  // The address of a deactivated user stays occupied, whoever asks for it, until the user
  // is restored; so restoring is never refused over the address, and it undoes the removal.
  lemma {:induction false} RestoreUndoesRemove(users: map<string, User>, id: string, now: int, requester: Caller)
    requires AdministersUsers(requester.role) && Handle(users, RemoveUser(id, now), requester).Success?
    ensures Run(users, [(RemoveUser(id, now), requester), (RestoreUser(id), requester)]) == users
    ensures forall other, role | other != id ::
              Handle(After(users, RemoveUser(id, now), requester), CreateUser(other, users[id].email, role),
                     requester).Failure?
  {
    var removed := After(users, RemoveUser(id, now), requester);
    var rest := [(RestoreUser(id), requester)];
    assert [(RemoveUser(id, now), requester), (RestoreUser(id), requester)][1..] == rest && rest[1..] == [];
    assert After(removed, RestoreUser(id), requester) == users;
    assert Run(removed, rest) == Run(users, []);
    assert id in removed && removed[id].email == users[id].email;
  }
}
