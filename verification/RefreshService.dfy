// RefreshTokenService and AuthService.refresh as they run when nothing interleaves,
// and that every such call is one of the machine's runs.
module RefreshService {
  import opened Values
  import opened RefreshMachine

  datatype Consumption = Unknown | AlreadySpent | Rotated(userId: string)

  function LiveIn(rows: map<string, Token>, userId: string): set<string> {
    set h | h in rows && rows[h].userId == userId && !rows[h].revoked
  }

  class RefreshTokenService {
    var rows: map<string, Token>

    constructor ()
      ensures rows == map[]
    {
      rows := map[];
    }

    // The hash is that of a freshly signed token, with a new `jti`.
    method Issue(userId: string, hash: string)
      requires hash !in rows
      modifies this
      ensures rows == old(rows)[hash := Token(userId, false)]
    {
      rows := rows[hash := Token(userId, false)];
    }

    method Consume(hash: string) returns (r: Consumption)
      modifies this
      ensures r.Unknown? <==> hash !in old(rows)
      ensures r.AlreadySpent? <==> hash in old(rows) && old(rows)[hash].revoked
      ensures r.Rotated? ==> r.userId == old(rows)[hash].userId
      ensures rows == if r.Rotated? then Revoke(old(rows), {hash}) else old(rows)
    {
      if hash !in rows {
        return Unknown;
      }
      var stored := rows[hash];
      var count := 0;
      if !rows[hash].revoked {
        rows := rows[hash := rows[hash].(revoked := true)];
        count := 1;
      }
      r := if count == 1 then Rotated(stored.userId) else AlreadySpent;
    }

    method RevokeAllFor(userId: string) returns (count: nat)
      modifies this
      ensures rows == Revoke(old(rows), LiveIn(old(rows), userId))
      ensures count == |LiveIn(old(rows), userId)| && LiveIn(rows, userId) == {}
    {
      var matched := LiveIn(rows, userId);
      rows := map h | h in rows :: if h in matched then rows[h].(revoked := true) else rows[h];
      count := |matched|;
    }

    method RevokeOne(hash: string, userId: string)
      modifies this
      ensures rows ==
              if hash in old(rows) && old(rows)[hash].userId == userId then Revoke(old(rows), {hash}) else old(rows)
    {
      if hash in rows && rows[hash].userId == userId {
        rows := rows[hash := rows[hash].(revoked := true)];
      }
    }
  }

  // ----- AuthService.refresh -------------------------------------------------------------------

  // The rows a refresh leaves behind, and whether it was given a new pair.
  function Refreshed(rows: map<string, Token>, hash: string, sub: string, active: bool, next: string)
    : map<string, Token>
  {
    if hash !in rows then rows
    else if rows[hash].revoked then Revoke(rows, LiveIn(rows, sub))
    else
      var spent := Revoke(rows, {hash});
      if active then spent[next := Token(rows[hash].userId, false)] else spent
  }

  predicate Accepts(rows: map<string, Token>, hash: string, active: bool) {
    hash in rows && !rows[hash].revoked && active
  }

  class AuthService {
    const refreshTokens: RefreshTokenService

    constructor (refreshTokens: RefreshTokenService)
      ensures this.refreshTokens == refreshTokens
    {
      this.refreshTokens := refreshTokens;
    }

    // A verdict is returned from the scope and the rejection raised outside it, so the
    // revocation that accompanies a rejection stays.
    method Refresh(hash: string, sub: string, active: bool, next: string) returns (r: Result<string>)
      requires next !in refreshTokens.rows
      modifies refreshTokens
      ensures refreshTokens.rows == Refreshed(old(refreshTokens.rows), hash, sub, active, next)
      ensures r == if Accepts(old(refreshTokens.rows), hash, active) then Success(next) else Failure(App(Unauthorized))
    {
      var rejected := false;
      var outcome := refreshTokens.Consume(hash);
      match outcome {
        case Unknown =>
          rejected := true;
        case AlreadySpent =>
          var _ := refreshTokens.RevokeAllFor(sub);
          rejected := true;
        case Rotated(_) =>
          rejected := !active;
      }
      if rejected {
        return Failure(App(Unauthorized));
      }
      refreshTokens.Issue(outcome.userId, next);
      r := Success(next);
    }

    method Logout(hash: string, userId: string)
      modifies refreshTokens
      ensures refreshTokens.rows ==
              if hash in old(refreshTokens.rows) && old(refreshTokens.rows)[hash].userId == userId
              then Revoke(old(refreshTokens.rows), {hash}) else old(refreshTokens.rows)
    {
      refreshTokens.RevokeOne(hash, userId);
    }
  }

  // ----- What one call does to the sessions -----------------------------------------------------

  // A pair is handed out only in exchange for a live one; a replayed token leaves the
  // user with none; any other rejection costs at most the token presented.
  lemma RefreshExchanges(rows: map<string, Token>, hash: string, sub: string, active: bool, next: string)
    requires next !in rows && (hash in rows ==> rows[hash].userId == sub)
    ensures var after := LiveIn(Refreshed(rows, hash, sub, active, next), sub);
            && (Accepts(rows, hash, active) ==>
                  hash in LiveIn(rows, sub) && after == LiveIn(rows, sub) - {hash} + {next})
            && (hash in rows && rows[hash].revoked ==> after == {})
            && (!Accepts(rows, hash, active) && !(hash in rows && rows[hash].revoked) ==>
                  after == LiveIn(rows, sub) - {hash})
    ensures forall other | other != sub ::
              LiveIn(Refreshed(rows, hash, sub, active, next), other) == LiveIn(rows, other)
  {
  }

  // ----- The uninterrupted call is a run ------------------------------------------------------

  lemma {:induction false} Append(s: State, before: seq<Move>, move: Move)
    requires Runs(s, before) && Step(End(s, before), move).Some?
    ensures Runs(s, before + [move]) && End(s, before + [move]) == Step(End(s, before), move).value
    decreases before
  {
    hide Step;
    if before == [] {
      assert [] + [move] == [move] && [move][1..] == [];
      assert End(Step(s, move).value, [move][1..]) == Step(s, move).value;
    } else {
      assert (before + [move])[1..] == before[1..] + [move];
      Append(Step(s, before[0]).value, before[1..], move);
    }
  }

  // Working off a mass revocation while nothing else runs.
  lemma {:induction false} WorkOff(s: State, moves: seq<Move>, x: nat, userId: string, todo: set<string>,
                                   done: set<string>)
    returns (all: seq<Move>)
    requires Runs(s, moves) && End(s, moves).flights == map[x := Flight(Revoking(userId, todo), done)]
    requires End(s, moves).tokens == s.tokens && todo + done == LiveIn(s.tokens, userId)
    ensures Runs(s, all) && End(s, all).tokens == s.tokens
    ensures End(s, all).flights == map[x := Flight(Revoking(userId, {}), LiveIn(s.tokens, userId))]
    decreases todo
  {
    hide Runs, End;
    if todo == {} {
      assert todo + done == done;
      return moves;
    }
    var hash :| hash in todo;
    assert Step(End(s, moves), RevokeOne(x, hash)).Some? by {
      assert !Locked(End(s, moves), x, hash);
    }
    Append(s, moves, RevokeOne(x, hash));
    var next := moves + [RevokeOne(x, hash)];
    assert todo - {hash} + (done + {hash}) == todo + done;
    all := WorkOff(s, next, x, userId, todo - {hash}, done + {hash});
  }

  lemma Looked(s: State, x: nat, hash: string, sub: string)
    requires s.flights == map[]
    ensures var moves := [Refresh(x, hash, sub), Find(x)];
            && Runs(s, moves)
            && End(s, moves) == Put(s, x, Flight(if hash in s.tokens then Holding(hash, sub) else Finished, {}))
  {
    hide Runs, End;
    Nothing(s);
    Append(s, [], Refresh(x, hash, sub));
    Append(s, [] + [Refresh(x, hash, sub)], Find(x));
    assert [] + [Refresh(x, hash, sub)] + [Find(x)] == [Refresh(x, hash, sub), Find(x)];
  }

  lemma Nothing(s: State)
    ensures Runs(s, []) && End(s, []) == s
  {
  }

  // The machine can do exactly what the call does, when nothing else is open.
  lemma UninterruptedRefresh(s: State, x: nat, hash: string, sub: string, active: bool, next: string)
    returns (moves: seq<Move>)
    requires s.flights == map[] && next !in s.tokens
    ensures Runs(s, moves) && End(s, moves).flights == map[]
    ensures End(s, moves).tokens == Refreshed(s.tokens, hash, sub, active, next)
  {
    hide Runs, End;
    Looked(s, x, hash, sub);
    moves := [Refresh(x, hash, sub), Find(x)];
    if hash !in s.tokens {
      moves := WriteOut(s, moves, x);
    } else {
      Append(s, moves, Consume(x));
      moves := moves + [Consume(x)];
      if s.tokens[hash].revoked {
        Append(s, moves, Detect(x));
        moves := moves + [Detect(x)];
        moves := WorkOff(s, moves, x, sub, LiveIn(s.tokens, sub), {});
        moves := WriteOut(s, moves, x);
      } else {
        Append(s, moves, CommitConsume(x, active));
        moves := moves + [CommitConsume(x, active)];
        if active { moves := IssueNext(s, moves, x, s.tokens[hash].userId, next); }
      }
    }
  }

  lemma UninterruptedLogout(s: State, x: nat, hash: string, userId: string) returns (moves: seq<Move>)
    requires s.flights == map[]
    ensures Runs(s, moves) && End(s, moves).flights == map[]
    ensures End(s, moves).tokens ==
            if hash in s.tokens && s.tokens[hash].userId == userId then Revoke(s.tokens, {hash}) else s.tokens
  {
    hide Runs, End;
    Nothing(s);
    Append(s, [], Logout(x, hash, userId));
    moves := [] + [Logout(x, hash, userId)];
    Append(s, moves, RevokeOwn(x));
    moves := WriteOut(s, moves + [RevokeOwn(x)], x);
    assert Revoke(s.tokens, {}) == s.tokens;
  }

  // A login adds one live token and one login.
  lemma UninterruptedLogin(s: State, x: nat, userId: string, hash: string) returns (moves: seq<Move>)
    requires s.flights == map[] && hash !in s.tokens
    ensures Runs(s, moves) && End(s, moves).flights == map[]
    ensures End(s, moves).tokens == s.tokens[hash := Token(userId, false)]
    ensures Logins(End(s, moves), userId) == Logins(s, userId) + 1
  {
    hide Runs, End;
    Nothing(s);
    Append(s, [], Login(x, userId));
    Append(s, [] + [Login(x, userId)], Insert(x, hash));
    Append(s, [] + [Login(x, userId)] + [Insert(x, hash)], CommitIssue(x));
    moves := [] + [Login(x, userId)] + [Insert(x, hash)] + [CommitIssue(x)];
  }

  lemma WriteOut(s: State, before: seq<Move>, x: nat) returns (moves: seq<Move>)
    requires Runs(s, before) && x in End(s, before).flights && End(s, before).flights.Keys == {x}
    requires var p := End(s, before).flights[x].phase; p.Finished? || (p.Revoking? && p.todo == {})
    ensures Runs(s, moves) && End(s, moves).flights == map[]
    ensures End(s, moves).tokens == Revoke(End(s, before).tokens, End(s, before).flights[x].writes)
  {
    hide Runs, End, Revoke;
    Append(s, before, CommitWrites(x));
    moves := before + [CommitWrites(x)];
  }

  lemma IssueNext(s: State, before: seq<Move>, x: nat, userId: string, next: string) returns (moves: seq<Move>)
    requires Runs(s, before) && End(s, before).flights == map[x := Flight(Paired(userId), {})]
    requires next !in End(s, before).tokens
    ensures Runs(s, moves) && End(s, moves).flights == map[]
    ensures End(s, moves).tokens == End(s, before).tokens[next := Token(userId, false)]
  {
    hide Runs, End;
    Append(s, before, Insert(x, next));
    Append(s, before + [Insert(x, next)], CommitIssue(x));
    moves := before + [Insert(x, next)] + [CommitIssue(x)];
  }
}
