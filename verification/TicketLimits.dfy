// Why the optimistic lock needs the caller's version to be one it has read.
module TicketLimits {
  import opened Values
  import opened Tickets
  import opened TicketMachine

  lemma {:induction false} Joins(s: State, before: seq<Move>, after: seq<Move>)
    requires Runs(s, before) && Runs(End(s, before), after)
    ensures Runs(s, before + after) && End(s, before + after) == End(End(s, before), after)
    ensures !HonestRun(s, before) ==> !HonestRun(s, before + after)
    decreases before
  {
    hide Step, Honest;
    if before == [] {
      assert before + after == after;
    } else {
      assert (before + after)[1..] == before[1..] + after;
      Joins(Step(s, before[0]).value, before[1..], after);
    }
  }

  // One more step of a run.
  lemma Then(s: State, moves: seq<Move>, s': State, move: Move, s'': State)
    requires Runs(s, moves) && End(s, moves) == s' && Step(s', move) == Some(s'')
    ensures Runs(s, moves + [move]) && End(s, moves + [move]) == s''
    ensures !HonestRun(s, moves) || !Honest(s', move) ==> !HonestRun(s, moves + [move])
  {
    hide Step, Honest;
    assert [move][1..] == [];
    assert Runs(s', [move]) && End(s', [move]) == s'';
    Joins(s, moves, [move]);
    if HonestRun(s, moves) && !Honest(s', move) { NotHonest(s, moves, move); }
  }

  lemma {:induction false} NotHonest(s: State, moves: seq<Move>, move: Move)
    requires Runs(s, moves) && Runs(s, moves + [move]) && !Honest(End(s, moves), move)
    ensures !HonestRun(s, moves + [move])
    decreases moves
  {
    hide Step, Honest;
    if moves == [] {
      assert moves + [move] == [move];
    } else {
      assert (moves + [move])[1..] == moves[1..] + [move];
      NotHonest(Step(s, moves[0]).value, moves[1..], move);
    }
  }

  lemma Nothing(s: State)
    ensures Runs(s, []) && End(s, []) == s
  {
  }

  function Judging(x: nat, id: string, version: int, request: Request, caller: Caller, at: Circumstance): seq<Move> {
    [Begin(x), Load(x, id, version, request, caller), Judge(x, at)]
  }

  // A transaction that has loaded a ticket and passed validation on it.
  function Judged(s: State, id: string, version: int, request: Request, caller: Caller, at: Circumstance): Tx
    requires id in s.tickets && Validate(request, s.tickets[id], caller, at).Success?
  {
    Tx(map[], map[], [], Validated(id, version, request, caller, s.tickets[id], at,
                                   Validate(request, s.tickets[id], caller, at).value))
  }

  lemma JudgingRuns(s: State, x: nat, id: string, version: int, request: Request, caller: Caller, at: Circumstance)
    requires x !in s.open && id in s.tickets && CanSee(caller, s.tickets[id])
    requires Validate(request, s.tickets[id], caller, at).Success?
    ensures var moves := Judging(x, id, version, request, caller, at);
            && Runs(s, moves)
            && End(s, moves) == Put(s, x, Judged(s, id, version, request, caller, at))
            && (version > s.tickets[id].version ==> !HonestRun(s, moves))
  {
    hide Runs, End, HonestRun, Validate, CanSee;
    var moves := Judging(x, id, version, request, caller, at);
    var tx := Tx(map[], map[], [], Ready);
    var s1 := Put(s, x, tx);
    var s2 := Put(s1, x, tx.(phase := Loaded(id, version, request, caller, s.tickets[id])));
    var s3 := Put(s, x, Judged(s, id, version, request, caller, at));
    assert Step(s2, moves[2]) == Some(s3) by {
      assert Put(s2, x, Judged(s, id, version, request, caller, at)) == s3;
    }
    Nothing(s);
    Then(s, [], s, moves[0], s1);
    Then(s, [] + [moves[0]], s1, moves[1], s2);
    Then(s, [] + [moves[0]] + [moves[1]], s2, moves[2], s3);
    assert [] + [moves[0]] + [moves[1]] + [moves[2]] == moves;
  }

  // The entry a judged transaction's update queues.
  function UpdateEntry(row: Ticket, p: Phase): Entry
    requires p.Validated?
  {
    Mutated(p.seen, row, p.request, p.caller, p.at, p.change,
            MutationEvent(p.request, p.seen, Apply(row, p.change), p.caller))
  }

  lemma Updates(s: State, x: nat, id: string)
    requires x in s.open && s.open[x].phase.Validated? && s.open[x].phase.id == id && s.open[x].tickets == map[]
    requires id in s.tickets && !TicketLocked(s, x, id)
    requires s.tickets[id].version == s.open[x].phase.version
    requires s.tickets[id].tenantId == s.open[x].phase.caller.tenantId
    ensures var tx := s.open[x];
            var after := Apply(s.tickets[id], tx.phase.change);
            Step(s, Update(x)) ==
            Some(Put(s, x, Tx(map[id := after], tx.counters, tx.queue + [UpdateEntry(s.tickets[id], tx.phase)], Ready)))
  {
    hide MutationEvent, Apply, TicketLocked;
  }

  lemma CommitsOne(s: State, x: nat, id: string, after: Ticket, queue: seq<Entry>)
    requires x in s.open && s.open[x] == Tx(map[id := after], map[], queue, Ready)
    ensures Step(s, Commit(x)) == Some(State(s.tickets[id := after], s.counters, s.log + queue, s.open - {x}))
  {
    assert s.tickets + map[id := after] == s.tickets[id := after];
    assert s.counters + map[] == s.counters;
  }

  // The update of a judged transaction that holds nothing else, and its commit.
  lemma UpdatingRuns(s: State, x: nat, id: string)
    requires x in s.open && s.open[x].phase.Validated? && s.open[x].phase.id == id && s.open[x].tickets == map[]
    requires s.open[x].counters == map[] && id in s.tickets && !TicketLocked(s, x, id)
    requires s.tickets[id].version == s.open[x].phase.version
    requires s.tickets[id].tenantId == s.open[x].phase.caller.tenantId
    ensures var moves := [Update(x), Commit(x)];
            var tx := s.open[x];
            && Runs(s, moves)
            && End(s, moves) == State(s.tickets[id := Apply(s.tickets[id], tx.phase.change)], s.counters,
                                      s.log + (tx.queue + [UpdateEntry(s.tickets[id], tx.phase)]), s.open - {x})
  {
    hide Runs, End, HonestRun, Step, Apply, TicketLocked, UpdateEntry;
    var moves := [Update(x), Commit(x)];
    var tx := s.open[x];
    var after := Apply(s.tickets[id], tx.phase.change);
    var queue := tx.queue + [UpdateEntry(s.tickets[id], tx.phase)];
    Updates(s, x, id);
    var s1 := Put(s, x, Tx(map[id := after], tx.counters, queue, Ready));
    CommitsOne(s1, x, id, after, queue);
    var s2 := Step(s1, moves[1]).value;
    assert s1.open - {x} == s.open - {x};
    Nothing(s);
    Then(s, [], s, moves[0], s1);
    Then(s, [] + [moves[0]], s1, moves[1], s2);
    assert [] + [moves[0]] + [moves[1]] == moves;
  }

  const REWRITE := Edit(Some(Some("rewritten")), None, None, None)

  // One caller loads a resolved ticket and is judged on it, naming the version after
  // the one it read; another caller closes the ticket, which reaches that version.
  function CloseMeanwhile(id: string, version: int, admin: Caller): seq<Move> {
    Judging(1, id, version + 1, REWRITE, admin, Circumstance(1, None))
    + Judging(2, id, version, ChangeStatus(CLOSED), admin, Circumstance(2, None))
    + [Update(2), Commit(2)]
  }

  // From any quiet state with a resolved ticket, a caller that guesses a version ahead
  // rewrites the ticket after it has been closed.
  lemma GuessedVersionRewritesClosed(s: State, id: string, admin: Caller)
    requires s.open == map[] && id in s.tickets && s.tickets[id].status == RESOLVED
    requires s.tickets[id].title != "rewritten"
    requires admin.role == ADMIN && admin.tenantId == s.tickets[id].tenantId
    ensures var closing := CloseMeanwhile(id, s.tickets[id].version, admin);
            var moves := closing + [Update(1), Commit(1)];
            && Runs(s, closing) && Runs(s, moves) && !HonestRun(s, moves)
            && id in End(s, closing).tickets && id in End(s, moves).tickets
            && End(s, closing).tickets[id].status == CLOSED == End(s, moves).tickets[id].status
            && End(s, moves).tickets[id].title == "rewritten" != End(s, closing).tickets[id].title
  {
    hide Runs, End, HonestRun, Step;
    var row := s.tickets[id];
    var edit := Judging(1, id, row.version + 1, REWRITE, admin, Circumstance(1, None));
    var close := Judging(2, id, row.version, ChangeStatus(CLOSED), admin, Circumstance(2, None));
    JudgingRuns(s, 1, id, row.version + 1, REWRITE, admin, Circumstance(1, None));
    var s1 := End(s, edit);
    JudgingRuns(s1, 2, id, row.version, ChangeStatus(CLOSED), admin, Circumstance(2, None));
    var s2 := End(s1, close);
    Joins(s, edit, close);
    UpdatingRuns(s2, 2, id);
    var s3 := End(s2, [Update(2), Commit(2)]);
    Joins(s, edit + close, [Update(2), Commit(2)]);
    assert s3.open.Keys == {1};
    UpdatingRuns(s3, 1, id);
    Joins(s, edit + close + [Update(2), Commit(2)], [Update(1), Commit(1)]);
  }
}
