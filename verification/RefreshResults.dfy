// The promises of refresh-token rotation, over every interleaving.
module RefreshResults {
  import opened RefreshMachine
  import opened RefreshLaws

  // From an empty store: no token is ever spent twice, and what a user holds, counting
  // refreshes that have spent a token and not yet been given the next, never exceeds
  // that user's logins.
  lemma RotationConserves(moves: seq<Move>, userId: string)
    requires Runs(START, moves)
    ensures var s := End(START, moves);
            && Distinct(s.consumed)
            && (forall h | h in s.consumed :: Spent(s, h))
            && |Live(s, userId)| + |Flying(s, userId)| <= Logins(s, userId)
  {
    RunSound(START, moves);
    PotentialRun(START, moves, userId);
    assert Live(START, userId) == {} && Flying(START, userId) == {};
  }

  // A revoked token is never live again, whatever happens next.
  lemma {:induction false} RevokedForever(s: State, moves: seq<Move>, hash: string)
    requires Sound(s) && Runs(s, moves) && Spent(s, hash)
    ensures Spent(End(s, moves), hash)
    decreases moves
  {
    hide FlightsOk, ConsumedOk, Step, Spent;
    if moves != [] {
      SpentStep(s, moves[0], hash);
      SoundStep(s, moves[0]);
      RevokedForever(Step(s, moves[0]).value, moves[1..], hash);
    }
  }

  // ----- A replay ends the user's sessions ----------------------------------------------------

  // A mass revocation under way owes every target or has it.
  predicate Covered(s: State, x: nat, userId: string, target: set<string>) {
    && x in s.flights && s.flights[x].phase.Revoking? && s.flights[x].phase.userId == userId
    && target <= s.tokens.Keys
    && forall h | h in target :: h in s.flights[x].phase.todo || h in s.flights[x].writes || s.tokens[h].revoked
  }

  predicate Leaves(move: Move, x: nat) {
    move == Rollback(x) || move == CommitWrites(x)
  }

  lemma KeyStep(s: State, move: Move, hash: string)
    requires FlightsOk(s) && Step(s, move).Some? && hash in s.tokens
    ensures hash in Step(s, move).value.tokens
    ensures s.tokens[hash].revoked ==> Step(s, move).value.tokens[hash].revoked
  {
    hide FlightsOk, Locked, Reserved, Live;
    if move.CommitIssue? { IssueSpares(s, move.x, hash); }
    if Spent(s, hash) { SpentStep(s, move, hash); }
  }

  lemma CoveredStep(s: State, move: Move, x: nat, userId: string, target: set<string>)
    requires Sound(s) && Step(s, move).Some? && Covered(s, x, userId, target) && !Leaves(move, x)
    ensures Covered(Step(s, move).value, x, userId, target)
  {
    hide FlightsOk, ConsumedOk, Locked, Reserved, Live, Revoke;
    var s' := Step(s, move).value;
    forall h | h in target
      ensures h in s'.tokens && (s.tokens[h].revoked ==> s'.tokens[h].revoked)
    {
      KeyStep(s, move, h);
    }
    if move.x == x {
      assert move.RevokeOne?;
    } else {
      assert x in s'.flights && s'.flights[x] == s.flights[x];
    }
  }

  lemma {:induction false} CoveredRun(s: State, moves: seq<Move>, x: nat, userId: string, target: set<string>)
    requires Sound(s) && Runs(s, moves) && Covered(s, x, userId, target)
    requires forall m | m in moves :: !Leaves(m, x)
    ensures Covered(End(s, moves), x, userId, target)
    decreases moves
  {
    hide FlightsOk, ConsumedOk, Step, Covered;
    if moves != [] {
      CoveredStep(s, moves[0], x, userId, target);
      SoundStep(s, moves[0]);
      CoveredRun(Step(s, moves[0]).value, moves[1..], x, userId, target);
    }
  }

  lemma {:induction false} Joins(s: State, before: seq<Move>, after: seq<Move>)
    requires Runs(s, before + after)
    ensures Runs(s, before) && Runs(End(s, before), after)
    ensures End(s, before + after) == End(End(s, before), after)
    decreases before
  {
    hide Step;
    if before == [] {
      assert before + after == after;
    } else {
      assert (before + after)[1..] == before[1..] + after;
      Joins(Step(s, before[0]).value, before[1..], after);
    }
  }

  // The transaction of a request that met a spent token, with anything else in between.
  function Replay(x: nat, middle: seq<Move>): seq<Move> {
    [Detect(x)] + (middle + [CommitWrites(x)])
  }

  // Whatever runs meanwhile, once it commits every token that was live when the replay
  // was noticed is revoked.
  lemma ReplayEndsEverySession(s: State, x: nat, userId: string, middle: seq<Move>, hash: string)
    requires Sound(s) && x in s.flights && s.flights[x].phase == Reused(userId)
    requires Runs(s, Replay(x, middle)) && (forall m | m in middle :: !Leaves(m, x))
    requires hash in Live(s, userId)
    ensures Spent(End(s, Replay(x, middle)), hash)
  {
    hide FlightsOk, ConsumedOk, Step, Runs, End;
    var target := Live(s, userId);
    Joins(s, [Detect(x)], middle + [CommitWrites(x)]);
    Single(s, Detect(x));
    var s1 := End(s, [Detect(x)]);
    SoundStep(s, Detect(x));
    Detected(s, x, userId);
    Joins(s1, middle, [CommitWrites(x)]);
    var s2 := End(s1, middle);
    CoveredRun(s1, middle, x, userId, target);
    RunSound(s1, middle);
    Single(s2, CommitWrites(x));
    WritesOut(s2, x, userId, target, hash);
  }

  lemma Single(s: State, move: Move)
    requires Runs(s, [move])
    ensures Step(s, move).Some? && End(s, [move]) == Step(s, move).value
  {
    hide Step;
    var rest := [move][1..];
    assert rest == [];
    assert End(Step(s, move).value, rest) == Step(s, move).value;
  }

  lemma Detected(s: State, x: nat, userId: string)
    requires x in s.flights && s.flights[x].phase == Reused(userId) && Step(s, Detect(x)).Some?
    ensures Covered(Step(s, Detect(x)).value, x, userId, Live(s, userId))
  {
  }

  lemma WritesOut(s: State, x: nat, userId: string, target: set<string>, hash: string)
    requires Sound(s) && Covered(s, x, userId, target) && Step(s, CommitWrites(x)).Some? && hash in target
    ensures Spent(Step(s, CommitWrites(x)).value, hash)
  {
    hide FlightsOk, ConsumedOk;
  }

  // ----- What can come back --------------------------------------------------------------------

  // The step commits a token issued to the user.
  predicate Issues(s: State, move: Move, userId: string) {
    && move.CommitIssue? && move.x in s.flights
    && s.flights[move.x].phase.Inserted? && s.flights[move.x].phase.userId == userId
  }

  // Along the run, none of the user's tokens is issued; other users' may be.
  predicate NoneIssued(s: State, moves: seq<Move>, userId: string)
    requires Runs(s, moves)
    decreases moves
  {
    moves == [] || (!Issues(s, moves[0], userId) && NoneIssued(Step(s, moves[0]).value, moves[1..], userId))
  }

  lemma QuietStep(s: State, move: Move, userId: string)
    requires Step(s, move).Some? && !Issues(s, move, userId)
    ensures Live(Step(s, move).value, userId) <= Live(s, userId)
  {
    hide Locked, Reserved;
    if move.CommitConsume? || move.CommitWrites? {
      RevokingShrinks(s, Step(s, move).value, s.flights[move.x].writes, userId);
    } else if move.CommitIssue? {
      IssueSets(s, move.x, userId);
    }
  }

  // Only a committed issue makes a token live.
  lemma {:induction false} QuietRun(s: State, moves: seq<Move>, userId: string)
    requires Runs(s, moves) && NoneIssued(s, moves, userId)
    ensures Live(End(s, moves), userId) <= Live(s, userId)
    decreases moves
  {
    hide Step, Live, Issues;
    if moves != [] {
      QuietStep(s, moves[0], userId);
      QuietRun(Step(s, moves[0]).value, moves[1..], userId);
    }
  }

  // If the user is issued no token while the sessions are ended, whatever happens to other
  // users, there is none left; and until that user's next login is committed, at most as many
  // come back as there were refreshes in flight.
  lemma ReplayLeavesOnlyFlights(s: State, x: nat, userId: string, middle: seq<Move>, later: seq<Move>)
    requires Sound(s) && x in s.flights && s.flights[x].phase == Reused(userId)
    requires Runs(s, Replay(x, middle)) && (forall m | m in middle :: !Leaves(m, x))
    requires NoneIssued(s, Replay(x, middle), userId)
    requires Runs(End(s, Replay(x, middle)), later)
    requires Logins(End(End(s, Replay(x, middle)), later), userId) == Logins(End(s, Replay(x, middle)), userId)
    ensures Live(End(s, Replay(x, middle)), userId) == {}
    ensures |Live(End(End(s, Replay(x, middle)), later), userId)| <= |Flying(End(s, Replay(x, middle)), userId)|
  {
    hide FlightsOk, ConsumedOk, Step, Runs, End, NoneIssued;
    var s' := End(s, Replay(x, middle));
    QuietRun(s, Replay(x, middle), userId);
    forall h | h in Live(s, userId) ensures h !in Live(s', userId) {
      ReplayEndsEverySession(s, x, userId, middle, h);
    }
    RunSound(s, Replay(x, middle));
    PotentialRun(s', later, userId);
  }

  // ----- With everything else still running ---------------------------------------------------

  function Consumed(s: State): set<string> {
    set h | h in s.consumed
  }

  // What the user holds or is on the way to, beside the sessions that are to be ended.
  function Beside(s: State, userId: string, target: set<string>): nat {
    |Live(s, userId) - target| + |Flying(s, userId)|
  }

  lemma BesideShrinks(s: State, s': State, userId: string, target: set<string>)
    requires Live(s', userId) <= Live(s, userId) && Flying(s', userId) <= Flying(s, userId)
    requires s'.consumed == s.consumed
    ensures Beside(s', userId, target) - |target * Consumed(s')| <= Beside(s, userId, target) - |target * Consumed(s)|
  {
    SubsetCount(Live(s', userId) - target, Live(s, userId) - target);
    SubsetCount(Flying(s', userId), Flying(s, userId));
  }

  lemma ConsumeSets(s: State, x: nat, active: bool, userId: string)
    requires Sound(s) && x in s.flights && s.flights[x].phase.Won?
    ensures var f := s.flights[x];
            var s' := DoCommitConsume(s, x, f, active);
            var mine := userId == f.phase.userId;
            && Live(s', userId) <= Live(s, userId) - {f.phase.hash}
            && Flying(s', userId) <= Flying(s, userId) + (if mine then {x} else {})
            && (mine ==> f.phase.hash in Live(s, userId))
            && f.phase.hash !in Consumed(s) && Consumed(s') == Consumed(s) + {f.phase.hash}
  {
    var f := s.flights[x];
    assert FlightOk(s, f);
    hide FlightsOk, Revoke;
    RevokingShrinks(s, DoCommitConsume(s, x, f, active), f.writes, userId);
  }

  // A refresh that commits its consumption gives up a token: one of the target, which is
  // counted as consumed, or one beside it.
  lemma ConsumeBeside(s: State, x: nat, active: bool, userId: string, target: set<string>)
    requires Sound(s) && x in s.flights && s.flights[x].phase.Won?
    ensures var s' := DoCommitConsume(s, x, s.flights[x], active);
            Beside(s', userId, target) - |target * Consumed(s')| <= Beside(s, userId, target) - |target * Consumed(s)|
  {
    hide Sound, Live, Flying, Consumed, DoCommitConsume;
    var s' := DoCommitConsume(s, x, s.flights[x], active);
    var hash := s.flights[x].phase.hash;
    ConsumeSets(s, x, active, userId);
    SubsetCount(Flying(s', userId), Flying(s, userId) + (if userId == s.flights[x].phase.userId then {x} else {}));
    if hash in target {
      assert target * Consumed(s') == target * Consumed(s) + {hash};
      SubsetCount(Live(s', userId) - target, Live(s, userId) - target);
    } else {
      assert target * Consumed(s') == target * Consumed(s);
      SubsetCount(Live(s', userId) - target, Live(s, userId) - target - {hash});
    }
  }

  lemma IssueBeside(s: State, x: nat, userId: string, target: set<string>)
    requires FlightsOk(s) && x in s.flights && s.flights[x].phase.Inserted?
    ensures Beside(DoCommitIssue(s, x, s.flights[x]), userId, target) <=
            Beside(s, userId, target) + LoginsAdded(s, CommitIssue(x), userId)
  {
    hide FlightsOk, Live, Flying, DoCommitIssue;
    var f := s.flights[x];
    var s' := DoCommitIssue(s, x, f);
    IssueSets(s, x, userId);
    SubsetCount(Live(s', userId) - target,
                (Live(s, userId) - target) + (if userId == f.phase.userId then {f.phase.hash} else {}));
  }

  lemma BesideStep(s: State, move: Move, userId: string, target: set<string>)
    requires Sound(s) && Step(s, move).Some?
    ensures var s' := Step(s, move).value;
            Beside(s', userId, target) - |target * Consumed(s')| <=
            Beside(s, userId, target) - |target * Consumed(s)| + LoginsAdded(s, move, userId)
  {
    if move.CommitConsume? {
      ConsumeBeside(s, move.x, move.active, userId, target);
    } else if move.CommitIssue? {
      IssueBeside(s, move.x, userId, target);
    } else {
      hide Step, Sound, Live, Flying, Beside, Consumed, LoginsAdded;
      OtherSets(s, move, userId);
      BesideShrinks(s, Step(s, move).value, userId, target);
    }
  }

  lemma {:induction false} BesideRun(s: State, moves: seq<Move>, userId: string, target: set<string>)
    requires Sound(s) && Runs(s, moves)
    ensures var s' := End(s, moves);
            Beside(s', userId, target) - |target * Consumed(s')| <=
            Beside(s, userId, target) - |target * Consumed(s)| + Logins(s', userId) - Logins(s, userId)
    decreases moves
  {
    hide FlightsOk, ConsumedOk, Step, Beside, Logins, Consumed;
    if moves != [] {
      BesideStep(s, moves[0], userId, target);
      PotentialStep(s, moves[0], userId);
      SoundStep(s, moves[0]);
      BesideRun(Step(s, moves[0]).value, moves[1..], userId, target);
    }
  }

  // Whatever runs while the sessions are ended and afterwards: none of them is live again,
  // and what the user holds is at most the refreshes that were in flight when the replay was
  // noticed, those that spent one of the sessions before the revocation reached it, and the
  // logins since.
  lemma ReplayBoundsWhatReturns(s: State, x: nat, userId: string, middle: seq<Move>, later: seq<Move>)
    requires Sound(s) && x in s.flights && s.flights[x].phase == Reused(userId)
    requires Runs(s, Replay(x, middle)) && (forall m | m in middle :: !Leaves(m, x))
    requires Runs(End(s, Replay(x, middle)), later)
    ensures var s' := End(End(s, Replay(x, middle)), later);
            && Live(s', userId) !! Live(s, userId)
            && |Live(s', userId)| <= |Flying(s, userId)| + |Live(s, userId) * Consumed(s')|
                                     + Logins(s', userId) - Logins(s, userId)
  {
    hide Sound, Step, Runs, End, Logins, Consumed, Flying, Live, Spent, Replay;
    var ended := End(s, Replay(x, middle));
    var s' := End(ended, later);
    var target := Live(s, userId);
    RunSound(s, Replay(x, middle));
    forall h | h in target ensures h !in Live(s', userId) {
      ReplayEndsEverySession(s, x, userId, middle, h);
      RevokedForever(ended, later, h);
      SpentIsNotLive(s', userId, h);
    }
    BesideRun(s, Replay(x, middle), userId, target);
    BesideRun(ended, later, userId, target);
    LiveIsNotConsumed(s, userId);
    assert target - target == {};
    assert Live(s', userId) - target == Live(s', userId);
  }

  lemma SpentIsNotLive(s: State, userId: string, hash: string)
    requires Spent(s, hash)
    ensures hash !in Live(s, userId)
  {
  }

  lemma LiveIsNotConsumed(s: State, userId: string)
    requires Sound(s)
    ensures Live(s, userId) * Consumed(s) == {}
  {
    hide FlightsOk;
    forall h | h in Consumed(s) ensures h !in Live(s, userId) { assert Spent(s, h); }
  }
}
