// What every interleaving of logins, refreshes, logouts and revocations keeps.
module RefreshLaws {
  import opened Values
  import opened RefreshMachine

  // ----- Invariant ----------------------------------------------------------------------------

  predicate FlightOk(s: State, f: Flight) {
    && f.writes <= s.tokens.Keys
    && (f.phase.Won? ==>
          && f.phase.hash in f.writes
          && s.tokens[f.phase.hash] == Token(f.phase.userId, false))
    && (f.phase.Inserted? ==> f.phase.hash !in s.tokens)
    && (f.phase.Inserted? || f.phase.Paired? || f.phase.Verified? ==> f.writes == {})
  }

  // Two open transactions hold no row lock in common and insert no common hash.
  predicate Apart(f: Flight, g: Flight) {
    && f.writes !! g.writes
    && (f.phase.Inserted? && g.phase.Inserted? ==> f.phase.hash != g.phase.hash)
  }

  predicate Distinct(consumed: seq<string>) {
    forall i, j | 0 <= i < j < |consumed| :: consumed[i] != consumed[j]
  }

  predicate Spent(s: State, hash: string) {
    hash in s.tokens && s.tokens[hash].revoked
  }

  predicate FlightsOk(s: State) {
    && (forall x | x in s.flights :: FlightOk(s, s.flights[x]))
    && (forall x, y | x in s.flights && y in s.flights && x != y :: Apart(s.flights[x], s.flights[y]))
  }

  // No hash was consumed twice, and what was consumed is revoked.
  predicate ConsumedOk(s: State) {
    Distinct(s.consumed) && (forall h | h in s.consumed :: Spent(s, h))
  }

  predicate Sound(s: State) {
    FlightsOk(s) && ConsumedOk(s)
  }

  // ----- Every step keeps the invariant -------------------------------------------------------

  lemma DropKeeps(s: State, x: nat)
    requires FlightsOk(s)
    ensures FlightsOk(Drop(s, x))
  {
  }

  // A flight moves on without touching a token row.
  lemma PutKeeps(s: State, x: nat, f: Flight)
    requires FlightsOk(s) && FlightOk(s, f)
    requires forall y | y in s.flights && y != x :: Apart(f, s.flights[y])
    ensures FlightsOk(Put(s, x, f))
  {
  }

  // A flight that only changes phase, and inserts nothing.
  lemma PhaseKeeps(s: State, x: nat, f: Flight)
    requires FlightsOk(s) && FlightOk(s, f) && !f.phase.Inserted?
    requires x in s.flights && f.writes == s.flights[x].writes
    ensures FlightsOk(Put(s, x, f))
  {
    hide FlightOk;
    forall y | y in s.flights && y != x ensures Apart(f, s.flights[y]) {
      assert Apart(s.flights[x], s.flights[y]);
    }
    PutKeeps(s, x, f);
  }

  // A flight that takes the lock of one more row.
  lemma LockKeeps(s: State, x: nat, f: Flight, hash: string)
    requires FlightsOk(s) && FlightOk(s, f) && !f.phase.Inserted? && !Locked(s, x, hash)
    requires x in s.flights && f.writes == s.flights[x].writes + {hash}
    ensures FlightsOk(Put(s, x, f))
  {
    hide FlightOk;
    forall y | y in s.flights && y != x ensures Apart(f, s.flights[y]) {
      assert Apart(s.flights[x], s.flights[y]);
    }
    PutKeeps(s, x, f);
  }

  // Writing out a flight's revocations disturbs no other flight.
  lemma RevokeKeeps(s: State, x: nat)
    requires FlightsOk(s) && x in s.flights
    ensures FlightsOk(Drop(s, x).(tokens := Revoke(s.tokens, s.flights[x].writes)))
  {
    var s' := Drop(s, x).(tokens := Revoke(s.tokens, s.flights[x].writes));
    forall y | y in s'.flights ensures FlightOk(s', s'.flights[y]) {
      assert FlightOk(s, s.flights[y]) && Apart(s.flights[x], s.flights[y]);
    }
  }

  lemma StartKeeps(s: State, x: nat, phase: Phase)
    requires FlightsOk(s) && x !in s.flights && !phase.Won? && !phase.Inserted?
    ensures FlightsOk(Put(s, x, Flight(phase, {})))
  {
    PutKeeps(s, x, Flight(phase, {}));
  }

  lemma ConsumedKeeps(s: State, s': State)
    requires ConsumedOk(s) && s'.consumed == s.consumed
    requires forall h | Spent(s, h) :: Spent(s', h)
    ensures ConsumedOk(s')
  {
  }

  lemma CommitConsumeKeeps(s: State, x: nat, active: bool)
    requires Sound(s) && x in s.flights && s.flights[x].phase.Won?
    ensures Sound(DoCommitConsume(s, x, s.flights[x], active))
  {
    var f := s.flights[x];
    var s' := DoCommitConsume(s, x, f, active);
    assert FlightOk(s, f);
    RevokeKeeps(s, x);
    var cleared := Drop(s, x).(tokens := Revoke(s.tokens, f.writes), consumed := s'.consumed);
    assert FlightsOk(cleared) by {
      assert Drop(s, x).(tokens := Revoke(s.tokens, f.writes)).flights == cleared.flights;
    }
    if active {
      StartKeeps(cleared, x, Paired(f.phase.userId));
      assert s' == Put(cleared, x, Flight(Paired(f.phase.userId), {}));
    }
    assert f.phase.hash !in s.consumed;
  }

  lemma InsertKeeps(s: State, x: nat, hash: string, login: bool)
    requires FlightsOk(s) && x in s.flights && (s.flights[x].phase.Paired? || s.flights[x].phase.Verified?)
    requires hash !in s.tokens && !Reserved(s, hash)
    ensures FlightsOk(Put(s, x, s.flights[x].(phase := Inserted(s.flights[x].phase.userId, hash, login))))
  {
    var f := s.flights[x].(phase := Inserted(s.flights[x].phase.userId, hash, login));
    assert FlightOk(s, s.flights[x]);
    forall y | y in s.flights && y != x ensures Apart(f, s.flights[y]) {
      assert Apart(s.flights[x], s.flights[y]);
    }
    PutKeeps(s, x, f);
  }

  lemma CommitIssueKeeps(s: State, x: nat)
    requires Sound(s) && x in s.flights && s.flights[x].phase.Inserted?
    ensures Sound(DoCommitIssue(s, x, s.flights[x]))
  {
    var s' := DoCommitIssue(s, x, s.flights[x]);
    assert FlightOk(s, s.flights[x]);
    forall y | y in s'.flights ensures FlightOk(s', s'.flights[y]) {
      assert FlightOk(s, s.flights[y]) && Apart(s.flights[x], s.flights[y]);
    }
    ConsumedKeeps(s, s');
  }

  lemma ConsumeKeeps(s: State, x: nat)
    requires FlightsOk(s) && x in s.flights && s.flights[x].phase.Holding?
    requires DoConsume(s, x, s.flights[x]).Some?
    ensures FlightsOk(DoConsume(s, x, s.flights[x]).value)
  {
    var f := s.flights[x];
    var hash := f.phase.hash;
    assert FlightOk(s, f);
    if hash !in s.tokens {
      PhaseKeeps(s, x, f.(phase := Finished));
    } else if s.tokens[hash].revoked {
      PhaseKeeps(s, x, f.(phase := Reused(f.phase.sub)));
    } else {
      LockKeeps(s, x, Flight(Won(hash, s.tokens[hash].userId), f.writes + {hash}), hash);
    }
  }

  lemma RevokeOneKeeps(s: State, x: nat, hash: string)
    requires FlightsOk(s) && x in s.flights && s.flights[x].phase.Revoking?
    requires DoRevokeOne(s, x, s.flights[x], hash).Some?
    ensures FlightsOk(DoRevokeOne(s, x, s.flights[x], hash).value)
  {
    var f := s.flights[x];
    var next := Revoking(f.phase.userId, f.phase.todo - {hash});
    assert FlightOk(s, f);
    if hash !in s.tokens || s.tokens[hash].revoked {
      PhaseKeeps(s, x, f.(phase := next));
    } else {
      LockKeeps(s, x, Flight(next, f.writes + {hash}), hash);
    }
  }

  lemma LogoutKeeps(s: State, x: nat)
    requires FlightsOk(s) && x in s.flights && s.flights[x].phase.LoggingOut?
    requires DoLogout(s, x, s.flights[x]).Some?
    ensures FlightsOk(DoLogout(s, x, s.flights[x]).value)
  {
    var f := s.flights[x];
    assert FlightOk(s, f);
    if f.phase.hash !in s.tokens || s.tokens[f.phase.hash].userId != f.phase.userId {
      PhaseKeeps(s, x, f.(phase := Finished));
    } else {
      LockKeeps(s, x, Flight(Finished, f.writes + {f.phase.hash}), f.phase.hash);
    }
  }

  lemma FlightsStep(s: State, move: Move)
    requires Sound(s) && Step(s, move).Some? && !move.CommitConsume? && !move.CommitIssue?
    ensures FlightsOk(Step(s, move).value)
  {
    hide FlightsOk, ConsumedOk, Locked, Reserved, Live, DoConsume, DoRevokeOne, DoLogout, Revoke;
    match move
    case Login(x, userId) => StartKeeps(s, x, Verified(userId));
    case Refresh(x, hash, sub) => StartKeeps(s, x, Looking(hash, sub));
    case Logout(x, hash, userId) => StartKeeps(s, x, LoggingOut(hash, userId));
    case RevokeAllFor(x, userId) => StartKeeps(s, x, Reused(userId));
    case Find(x) =>
      var f := s.flights[x];
      FlightWrites(s, x);
      PhaseKeeps(s, x, f.(phase := if f.phase.hash in s.tokens then Holding(f.phase.hash, f.phase.sub) else Finished));
    case Consume(x) => ConsumeKeeps(s, x);
    case Detect(x) =>
      var f := s.flights[x];
      FlightWrites(s, x);
      PhaseKeeps(s, x, f.(phase := Revoking(f.phase.sub, Live(s, f.phase.sub))));
    case RevokeOne(x, hash) => RevokeOneKeeps(s, x, hash);
    case RevokeOwn(x) => LogoutKeeps(s, x);
    case CommitWrites(x) => RevokeKeeps(s, x);
    case Insert(x, hash) => InsertKeeps(s, x, hash, s.flights[x].phase.Verified?);
    case Rollback(x) => DropKeeps(s, x);
  }

  lemma FlightWrites(s: State, x: nat)
    requires FlightsOk(s) && x in s.flights
    ensures s.flights[x].writes <= s.tokens.Keys
  {
    assert FlightOk(s, s.flights[x]);
  }

  lemma SoundStep(s: State, move: Move)
    requires Sound(s) && Step(s, move).Some?
    ensures Sound(Step(s, move).value)
  {
    hide FlightsOk, ConsumedOk, Locked, Reserved, Live, Revoke;
    match move
    case CommitConsume(x, active) => CommitConsumeKeeps(s, x, active);
    case CommitIssue(x) => CommitIssueKeeps(s, x);
    case _ =>
      FlightsStep(s, move);
      forall h | Spent(s, h) ensures Spent(Step(s, move).value, h) { SpentStep(s, move, h); }
      ConsumedKeeps(s, Step(s, move).value);
  }

  lemma {:induction false} RunSound(s: State, moves: seq<Move>)
    requires Sound(s) && Runs(s, moves)
    ensures Sound(End(s, moves))
    decreases moves
  {
    hide Sound, Step;
    if moves != [] {
      SoundStep(s, moves[0]);
      RunSound(Step(s, moves[0]).value, moves[1..]);
    }
  }

  // ----- A revoked token stays revoked ------------------------------------------------------------

  lemma RevokeSpends(s: State, s': State, hashes: set<string>, hash: string)
    requires s'.tokens == Revoke(s.tokens, hashes) && Spent(s, hash)
    ensures Spent(s', hash) && s'.tokens[hash] == s.tokens[hash]
  {
  }

  lemma IssueSpares(s: State, x: nat, hash: string)
    requires FlightsOk(s) && x in s.flights && s.flights[x].phase.Inserted? && hash in s.tokens
    ensures hash != s.flights[x].phase.hash
    ensures DoCommitIssue(s, x, s.flights[x]).tokens[hash] == s.tokens[hash]
  {
    assert FlightOk(s, s.flights[x]);
  }

  lemma SpentStep(s: State, move: Move, hash: string)
    requires FlightsOk(s) && Step(s, move).Some? && Spent(s, hash)
    ensures Spent(Step(s, move).value, hash) && Step(s, move).value.tokens[hash] == s.tokens[hash]
  {
    hide FlightsOk, Locked, Reserved, Live, Revoke;
    var s' := Step(s, move).value;
    match move
    case CommitConsume(x, _) => RevokeSpends(s, s', s.flights[x].writes, hash);
    case CommitWrites(x) => RevokeSpends(s, s', s.flights[x].writes, hash);
    case CommitIssue(x) => IssueSpares(s, x, hash);
    case _ =>
  }

  // ----- What a user could still hold -------------------------------------------------------------

  // Live tokens, and refreshes on their way to one.
  function Potential(s: State, userId: string): nat {
    |Live(s, userId)| + |Flying(s, userId)|
  }

  lemma SubsetCount<T>(a: set<T>, b: set<T>)
    requires a <= b
    ensures |a| <= |b|
  {
    assert b == a + (b - a);
  }

  lemma NoMore(s: State, s': State, userId: string)
    requires Live(s', userId) <= Live(s, userId) && Flying(s', userId) <= Flying(s, userId)
    ensures Potential(s', userId) <= Potential(s, userId)
  {
    SubsetCount(Live(s', userId), Live(s, userId));
    SubsetCount(Flying(s', userId), Flying(s, userId));
  }

  lemma RevokingShrinks(s: State, s': State, hashes: set<string>, userId: string)
    requires s'.tokens == Revoke(s.tokens, hashes)
    ensures Live(s', userId) == Live(s, userId) - hashes
  {
  }

  // Consuming trades a live token for a flight.
  lemma ConsumeTrades(s: State, x: nat, active: bool, userId: string)
    requires FlightsOk(s) && x in s.flights && s.flights[x].phase.Won?
    ensures Potential(DoCommitConsume(s, x, s.flights[x], active), userId) <= Potential(s, userId)
  {
    var f := s.flights[x];
    var s' := DoCommitConsume(s, x, f, active);
    assert FlightOk(s, f);
    RevokingShrinks(s, s', f.writes, userId);
    if userId == f.phase.userId {
      assert f.phase.hash in Live(s, userId);
      SubsetCount(Live(s', userId), Live(s, userId) - {f.phase.hash});
      SubsetCount(Flying(s', userId), Flying(s, userId) + {x});
    } else {
      NoMore(s, s', userId);
    }
  }

  lemma IssueSets(s: State, x: nat, userId: string)
    requires x in s.flights && s.flights[x].phase.Inserted?
    ensures var f := s.flights[x];
            var s' := DoCommitIssue(s, x, f);
            var mine := userId == f.phase.userId;
            && Live(s', userId) <= Live(s, userId) + (if mine then {f.phase.hash} else {})
            && Flying(s', userId) == Flying(s, userId) - {x}
            && (x in Flying(s, userId) <==> mine && !f.phase.login)
  {
    hide Potential;
  }

  // Issuing trades it back, or adds one for a login.
  lemma IssueTrades(s: State, x: nat, userId: string)
    requires FlightsOk(s) && x in s.flights && s.flights[x].phase.Inserted?
    ensures Potential(DoCommitIssue(s, x, s.flights[x]), userId) <=
            Potential(s, userId) + LoginsAdded(s, CommitIssue(x), userId)
  {
    hide FlightsOk, Live, Flying, DoCommitIssue;
    var f := s.flights[x];
    var s' := DoCommitIssue(s, x, f);
    IssueSets(s, x, userId);
    SubsetCount(Live(s', userId), Live(s, userId) + (if userId == f.phase.userId then {f.phase.hash} else {}));
  }

  // The logins a step adds for the user: one, when a login's token is committed.
  function LoginsAdded(s: State, move: Move, userId: string): nat {
    if && move.CommitIssue? && move.x in s.flights && s.flights[move.x].phase.Inserted?
       && s.flights[move.x].phase.login && s.flights[move.x].phase.userId == userId
    then 1 else 0
  }

  // Any other step gives the user nothing.
  lemma OtherSets(s: State, move: Move, userId: string)
    requires Step(s, move).Some? && !move.CommitConsume? && !move.CommitIssue?
    ensures var s' := Step(s, move).value;
            && Live(s', userId) <= Live(s, userId) && Flying(s', userId) <= Flying(s, userId)
            && s'.consumed == s.consumed
  {
    hide Locked, Reserved, Revoke;
    if move.CommitWrites? {
      RevokingShrinks(s, Step(s, move).value, s.flights[move.x].writes, userId);
    }
  }

  lemma PotentialStep(s: State, move: Move, userId: string)
    requires FlightsOk(s) && Step(s, move).Some?
    ensures Potential(Step(s, move).value, userId) <= Potential(s, userId) + LoginsAdded(s, move, userId)
    ensures Logins(Step(s, move).value, userId) == Logins(s, userId) + LoginsAdded(s, move, userId)
  {
    hide FlightsOk, Locked, Reserved, Revoke, Potential;
    if move.CommitConsume? {
      ConsumeTrades(s, move.x, move.active, userId);
    } else if move.CommitIssue? {
      IssueTrades(s, move.x, userId);
    } else {
      hide Live, Flying;
      OtherSets(s, move, userId);
      NoMore(s, Step(s, move).value, userId);
    }
  }

  lemma {:induction false} PotentialRun(s: State, moves: seq<Move>, userId: string)
    requires Sound(s) && Runs(s, moves)
    ensures Logins(s, userId) <= Logins(End(s, moves), userId)
    ensures Potential(End(s, moves), userId) - Potential(s, userId) <= Logins(End(s, moves), userId) - Logins(s, userId)
    decreases moves
  {
    hide FlightsOk, ConsumedOk, Step, Potential, Logins;
    if moves != [] {
      PotentialStep(s, moves[0], userId);
      SoundStep(s, moves[0]);
      PotentialRun(Step(s, moves[0]).value, moves[1..], userId);
    }
  }

  // ----- What moves do, one by one --------------------------------------------------------------

  // `consume` ends an unknown token's request, finds a spent one out, waits for a row another
  // transaction has locked, and otherwise wins and locks the row itself.
  lemma ConsumeMeans(s: State, x: nat)
    requires x in s.flights && s.flights[x].phase.Holding?
    ensures var f := s.flights[x];
            var hash := f.phase.hash;
            var busy := exists y | y in s.flights && y != x :: hash in s.flights[y].writes;
            Step(s, Consume(x)) ==
            (if hash !in s.tokens then Some(s.(flights := s.flights[x := Flight(Finished, f.writes)]))
             else if s.tokens[hash].revoked then
               Some(s.(flights := s.flights[x := Flight(Reused(f.phase.sub), f.writes)]))
             else if busy then None
             else Some(s.(flights := s.flights[x := Flight(Won(hash, s.tokens[hash].userId), f.writes + {hash})])))
  {
  }

  // A mass revocation goes over each token it owes once, and revokes those still live.
  lemma RevokeOneMeans(s: State, x: nat, hash: string)
    requires x in s.flights && s.flights[x].phase.Revoking?
    ensures var f := s.flights[x];
            var busy := exists y | y in s.flights && y != x :: hash in s.flights[y].writes;
            var live := hash in s.tokens && !s.tokens[hash].revoked;
            Step(s, RevokeOne(x, hash)) ==
            (if hash !in f.phase.todo || busy then None
             else Some(s.(flights := s.flights[x := Flight(Revoking(f.phase.userId, f.phase.todo - {hash}),
                                                           if live then f.writes + {hash} else f.writes)])))
  {
  }

  // Any request may be given up at any time, and then nothing it did is left.
  lemma RollbackLeavesNothing(s: State, x: nat)
    ensures Step(s, Rollback(x)) == if x in s.flights then Some(s.(flights := s.flights - {x})) else None
  {
  }

  // Logins are counted from zero, one for each token issued after one.
  lemma LoginsAreCounted(s: State, move: Move, userId: string)
    requires Step(s, move).Some?
    ensures Logins(START, userId) == 0
    ensures var issued := && move.CommitIssue? && s.flights[move.x].phase.Inserted?
                          && s.flights[move.x].phase.login && s.flights[move.x].phase.userId == userId;
            Logins(Step(s, move).value, userId) == Logins(s, userId) + if issued then 1 else 0
  {
    hide Live, Locked, Reserved, Revoke;
  }
}
