// Refresh-token rotation under concurrency: logins, refreshes, logouts and mass
// revocations as interleaved statements. A refresh is two transactions, one that
// consumes the old token and one that issues the new; between them it holds nothing.
// src/auth/refresh-token.service.ts and src/auth/auth.service.ts.
module RefreshMachine {
  import opened Values

  datatype Token = Token(userId: string, revoked: bool)

  datatype Phase =
    | Looking(hash: string, sub: string)               // refresh: before the lookup
    | Holding(hash: string, sub: string)               // the token exists
    | Won(hash: string, userId: string)                // its conditional update hit one row
    | Reused(sub: string)                              // it hit none: the token was spent
    | Revoking(userId: string, todo: set<string>)      // the rows its snapshot still owes
    | LoggingOut(hash: string, userId: string)
    | Finished
    | Paired(userId: string)                           // consumed and committed, not yet issued
    | Verified(userId: string)                         // login: password checked, not yet issued
    | Inserted(userId: string, hash: string, login: bool)

  // One request, and the token rows its open transaction has revoked and locked.
  datatype Flight = Flight(phase: Phase, writes: set<string>)

  datatype State = State(
    tokens: map<string, Token>, flights: map<nat, Flight>,
    logins: map<string, nat>, consumed: seq<string>)

  datatype Move =
    | Login(x: nat, userId: string)
    | Refresh(x: nat, hash: string, sub: string)
    | Logout(x: nat, hash: string, userId: string)
    | RevokeAllFor(x: nat, userId: string)
    | Find(x: nat)
    | Consume(x: nat)
    | Detect(x: nat)
    | RevokeOne(x: nat, hash: string)
    | RevokeOwn(x: nat)
    | CommitConsume(x: nat, active: bool)
    | CommitWrites(x: nat)
    | Insert(x: nat, hash: string)
    | CommitIssue(x: nat)
    | Rollback(x: nat)

  function Live(s: State, userId: string): set<string> {
    set h | h in s.tokens && s.tokens[h].userId == userId && !s.tokens[h].revoked
  }

  // Refreshes of the user that have spent their token and not yet committed the next.
  function Flying(s: State, userId: string): set<nat> {
    set x | x in s.flights &&
      (s.flights[x].phase == Paired(userId)
       || (s.flights[x].phase.Inserted? && s.flights[x].phase.userId == userId && !s.flights[x].phase.login))
  }

  function Logins(s: State, userId: string): nat {
    if userId in s.logins then s.logins[userId] else 0
  }

  predicate Locked(s: State, x: nat, hash: string) {
    exists y | y in s.flights && y != x :: hash in s.flights[y].writes
  }

  predicate Reserved(s: State, hash: string) {
    exists y | y in s.flights :: s.flights[y].phase.Inserted? && s.flights[y].phase.hash == hash
  }

  function Put(s: State, x: nat, f: Flight): State {
    s.(flights := s.flights[x := f])
  }

  function Drop(s: State, x: nat): State {
    s.(flights := s.flights - {x})
  }

  function Revoke(tokens: map<string, Token>, hashes: set<string>): map<string, Token> {
    map h | h in tokens :: if h in hashes then tokens[h].(revoked := true) else tokens[h]
  }

  function Start(s: State, x: nat, phase: Phase): Option<State> {
    if x in s.flights then None else Some(Put(s, x, Flight(phase, {})))
  }

  // `consume`: the conditional update waits for the row lock and judges the row it finds.
  function DoConsume(s: State, x: nat, f: Flight): Option<State>
    requires f.phase.Holding?
  {
    var hash := f.phase.hash;
    if hash !in s.tokens then Some(Put(s, x, f.(phase := Finished)))
    else if s.tokens[hash].revoked then Some(Put(s, x, f.(phase := Reused(f.phase.sub))))
    else if Locked(s, x, hash) then None
    else Some(Put(s, x, Flight(Won(hash, s.tokens[hash].userId), f.writes + {hash})))
  }

  // `revokeAllFor` goes through the rows its snapshot found live, one lock at a time,
  // and skips those that were revoked while it waited.
  function DoRevokeOne(s: State, x: nat, f: Flight, hash: string): Option<State>
    requires f.phase.Revoking?
  {
    var p := f.phase;
    if hash !in p.todo || Locked(s, x, hash) then None
    else if hash !in s.tokens || s.tokens[hash].revoked then
      Some(Put(s, x, f.(phase := Revoking(p.userId, p.todo - {hash}))))
    else Some(Put(s, x, Flight(Revoking(p.userId, p.todo - {hash}), f.writes + {hash})))
  }

  // `revoke`: no condition on `revokedAt`, so a spent token is stamped again.
  function DoLogout(s: State, x: nat, f: Flight): Option<State>
    requires f.phase.LoggingOut?
  {
    var p := f.phase;
    if p.hash !in s.tokens || s.tokens[p.hash].userId != p.userId then Some(Put(s, x, f.(phase := Finished)))
    else if Locked(s, x, p.hash) then None
    else Some(Put(s, x, Flight(Finished, f.writes + {p.hash})))
  }

  // The consume transaction commits even when the user turns out to be deactivated;
  // then nothing is issued.
  function DoCommitConsume(s: State, x: nat, f: Flight, active: bool): State
    requires f.phase.Won?
  {
    var s' := s.(tokens := Revoke(s.tokens, f.writes), consumed := s.consumed + [f.phase.hash]);
    if active then Put(s', x, Flight(Paired(f.phase.userId), {})) else Drop(s', x)
  }

  function DoCommitIssue(s: State, x: nat, f: Flight): State
    requires f.phase.Inserted?
  {
    var p := f.phase;
    var s' := Drop(s, x).(tokens := s.tokens[p.hash := Token(p.userId, false)]);
    if p.login then s'.(logins := s.logins[p.userId := Logins(s, p.userId) + 1]) else s'
  }

  function Step(s: State, move: Move): Option<State> {
    match move
    case Login(x, userId) => Start(s, x, Verified(userId))
    case Refresh(x, hash, sub) => Start(s, x, Looking(hash, sub))
    case Logout(x, hash, userId) => Start(s, x, LoggingOut(hash, userId))
    case RevokeAllFor(x, userId) => Start(s, x, Reused(userId))
    case _ =>
      if move.x !in s.flights then None else Advance(s, move, s.flights[move.x])
  }

  function Advance(s: State, move: Move, f: Flight): Option<State> {
    match move
    case Find(x) =>
      if !f.phase.Looking? then None
      else
        var found := f.phase.hash in s.tokens;
        Some(Put(s, x, f.(phase := if found then Holding(f.phase.hash, f.phase.sub) else Finished)))
    case Consume(x) => if f.phase.Holding? then DoConsume(s, x, f) else None
    case Detect(x) =>
      if f.phase.Reused? then Some(Put(s, x, f.(phase := Revoking(f.phase.sub, Live(s, f.phase.sub))))) else None
    case RevokeOne(x, hash) => if f.phase.Revoking? then DoRevokeOne(s, x, f, hash) else None
    case RevokeOwn(x) => if f.phase.LoggingOut? then DoLogout(s, x, f) else None
    case CommitConsume(x, active) => if f.phase.Won? then Some(DoCommitConsume(s, x, f, active)) else None
    case CommitWrites(x) =>
      if f.phase.Finished? || (f.phase.Revoking? && f.phase.todo == {}) then
        Some(Drop(s, x).(tokens := Revoke(s.tokens, f.writes)))
      else None
    case Insert(x, hash) =>
      if hash in s.tokens || Reserved(s, hash) then None
      else if f.phase.Verified? then Some(Put(s, x, f.(phase := Inserted(f.phase.userId, hash, true))))
      else if f.phase.Paired? then Some(Put(s, x, f.(phase := Inserted(f.phase.userId, hash, false))))
      else None
    case CommitIssue(x) => if f.phase.Inserted? then Some(DoCommitIssue(s, x, f)) else None
    case Rollback(x) => Some(Drop(s, x))
    case _ => None
  }

  // ----- Runs --------------------------------------------------------------------------------

  const START := State(map[], map[], map[], [])

  predicate Runs(s: State, moves: seq<Move>)
    decreases moves
  {
    moves == [] || (Step(s, moves[0]).Some? && Runs(Step(s, moves[0]).value, moves[1..]))
  }

  function End(s: State, moves: seq<Move>): State
    requires Runs(s, moves)
    decreases moves
  {
    if moves == [] then s else End(Step(s, moves[0]).value, moves[1..])
  }
}
