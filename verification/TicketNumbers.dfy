// Ticket numbers: one gapless sequence per tenant, under concurrent opens with rollbacks.
module TicketNumbers {
  import opened Tickets
  import opened TicketMachine
  import opened TicketLaws

  predicate Taken(tickets: map<string, Ticket>, t: string, n: int) {
    exists id | id in tickets :: tickets[id].tenantId == t && tickets[id].number == n
  }

  // The tenant's numbers are exactly 1..top, each used once.
  predicate Gapless(tickets: map<string, Ticket>, t: string, top: int) {
    && top >= 0
    && (forall id | id in tickets && tickets[id].tenantId == t :: 1 <= tickets[id].number <= top)
    && (forall id, id' | id in tickets && id' in tickets && id != id'
                         && tickets[id].tenantId == t == tickets[id'].tenantId ::
          tickets[id].number != tickets[id'].number)
    && (forall n | 1 <= n <= top :: Taken(tickets, t, n))
  }

  predicate SameNumbers(a: map<string, Ticket>, b: map<string, Ticket>, t: string) {
    && (forall id | id in a && a[id].tenantId == t :: id in b && b[id].tenantId == t && b[id].number == a[id].number)
    && (forall id | id in b && b[id].tenantId == t :: id in a && a[id].tenantId == t)
  }

  lemma SameNumbersGapless(a: map<string, Ticket>, b: map<string, Ticket>, t: string, top: int)
    requires Gapless(a, t, top) && SameNumbers(a, b, t)
    ensures Gapless(b, t, top)
  {
    forall n | 1 <= n <= top ensures Taken(b, t, n) {
      assert Taken(a, t, n);
      var id :| id in a && a[id].tenantId == t && a[id].number == n;
      assert id in b && b[id].tenantId == t && b[id].number == n;
    }
  }

  lemma NextNumber(a: map<string, Ticket>, t: string, top: int, id: string, ticket: Ticket)
    requires Gapless(a, t, top) && id !in a && ticket.tenantId == t && ticket.number == top + 1
    ensures Gapless(a[id := ticket], t, top + 1)
  {
    var b := a[id := ticket];
    forall n | 1 <= n <= top + 1 ensures Taken(b, t, n) {
      if n == top + 1 {
        assert b[id].number == n;
      } else {
        assert Taken(a, t, n);
        var k :| k in a && a[k].tenantId == t && a[k].number == n;
        assert k in b && b[k] == a[k];
      }
    }
  }

  // The number handed out but not yet used by an insert.
  function Reserved(tx: Tx, t: string): int {
    if tx.phase.Counted? && tx.phase.caller.tenantId == t then 1 else 0
  }

  // A transaction holding a counter sees a gapless sequence up to its own value; one
  // that does not has opened nothing in that tenant.
  predicate TxNumbered(s: State, tx: Tx) {
    && (tx.phase.Counted? ==>
          tx.phase.caller.tenantId in tx.counters && tx.counters[tx.phase.caller.tenantId] == tx.phase.number)
    && (forall id | id in tx.tickets :: tx.tickets[id].tenantId !in tx.counters ==> id in s.tickets)
    && (forall id | id in tx.tickets :: tx.tickets[id].tenantId in s.counters)
    && (!tx.phase.Doomed? ==>
          forall t | t in tx.counters ::
            t in s.counters && Gapless(s.tickets + tx.tickets, t, tx.counters[t] - Reserved(tx, t)))
  }

  predicate Numbered(s: State) {
    && (forall t | t in s.counters :: Gapless(s.tickets, t, s.counters[t]))
    && (forall id | id in s.tickets :: s.tickets[id].tenantId in s.counters)
    && (forall x | x in s.open :: TxNumbered(s, s.open[x]))
  }

  lemma PutNumbered(s: State, x: nat, tx: Tx)
    requires Numbered(s) && TxNumbered(s, tx)
    ensures Numbered(Put(s, x, tx))
  {
    hide Gapless;
  }

  // A phase that reserves nothing more leaves the transaction numbered.
  lemma PhaseNumbered(s: State, tx: Tx, phase: Phase)
    requires TxNumbered(s, tx) && !tx.phase.Counted? && !tx.phase.Doomed? && !phase.Counted?
    ensures TxNumbered(s, tx.(phase := phase))
  {
    hide Gapless;
  }

  // Rewriting a row keeps its tenant and number.
  lemma RewriteNumbered(s: State, tx: Tx, id: string, after: Ticket, queue: seq<Entry>)
    requires Numbered(s) && TxNumbered(s, tx) && tx.phase.Validated?
    requires RowOf(s, tx, id).Some?
    requires after.tenantId == RowOf(s, tx, id).value.tenantId && after.number == RowOf(s, tx, id).value.number
    ensures TxNumbered(s, Tx(tx.tickets[id := after], tx.counters, queue, Ready))
  {
    hide Gapless;
    var tx' := Tx(tx.tickets[id := after], tx.counters, queue, Ready);
    var before, rewritten := s.tickets + tx.tickets, s.tickets + tx'.tickets;
    assert id in before && before[id] == RowOf(s, tx, id).value;
    assert rewritten == before[id := after];
    forall t | t in tx'.counters ensures Gapless(rewritten, t, tx'.counters[t]) {
      SameNumbersGapless(before, rewritten, t, tx.counters[t]);
    }
  }

  lemma UpdateNumbered(s: State, x: nat)
    requires Numbered(s) && x in s.open && s.open[x].phase.Validated? && DoUpdate(s, x, s.open[x]).Some?
    ensures Numbered(DoUpdate(s, x, s.open[x]).value)
  {
    hide Gapless, TxNumbered, MutationEvent, TicketLocked;
    var tx, p := s.open[x], s.open[x].phase;
    var tx' := DoUpdate(s, x, tx).value.open[x];
    assert TxNumbered(s, tx) by { OneNumbered(s, x); }
    if |tx'.queue| > |tx.queue| {
      RewriteNumbered(s, tx, p.id, tx'.tickets[p.id], tx'.queue);
    } else {
      PhaseNumbered(s, tx, Ready);
    }
    PutNumbered(s, x, tx');
  }

  lemma OneNumbered(s: State, x: nat)
    requires Numbered(s) && x in s.open
    ensures TxNumbered(s, s.open[x])
  {
  }

  // Taking the counter reserves the number after the last one used.
  lemma CountedNumbered(s: State, x: nat, draft: Draft, caller: Caller, number: int)
    requires Newer(s) && Numbered(s) && x in s.open && s.open[x].phase.Ready? && caller.tenantId in s.counters
    requires var tx, t := s.open[x], caller.tenantId;
             number == (if t in tx.counters then tx.counters[t] else s.counters[t]) + 1
    ensures var tx := s.open[x];
            TxNumbered(s, tx.(counters := tx.counters[caller.tenantId := number],
                              phase := Counted(draft, caller, number)))
  {
    hide Gapless;
    var tx, t := s.open[x], caller.tenantId;
    assert TxNumbered(s, tx);
    if t !in tx.counters {
      OwnIsSame(s, x, t);
      SameNumbersGapless(s.tickets, s.tickets + tx.tickets, t, s.counters[t]);
    }
  }

  lemma CountUpNumbered(s: State, x: nat, draft: Draft, caller: Caller)
    requires Inv(s) && Numbered(s) && x in s.open && s.open[x].phase.Ready?
    requires DoCountUp(s, x, s.open[x], draft, caller).Some?
    ensures Numbered(DoCountUp(s, x, s.open[x], draft, caller).value)
  {
    hide Histories, Phases, AllEntries;
    var tx, t := s.open[x], caller.tenantId;
    assert TxNumbered(s, tx);
    if t in s.counters || t in tx.counters {
      var tx' := DoCountUp(s, x, tx, draft, caller).value.open[x];
      CountedNumbered(s, x, draft, caller, tx'.counters[t]);
      PutNumbered(s, x, tx');
    }
    hide Gapless, TxNumbered, CounterLocked;
  }

  // Without the counter, a transaction's own rows of the tenant are rewrites.
  lemma OwnIsSame(s: State, x: nat, t: string)
    requires Newer(s) && x in s.open && TxNumbered(s, s.open[x]) && t !in s.open[x].counters
    ensures SameNumbers(s.tickets, s.tickets + s.open[x].tickets, t)
  {
    hide Gapless;
  }

  // The insert uses the number that was reserved.
  lemma InsertedNumbered(s: State, tx: Tx, id: string, ticket: Ticket, queue: seq<Entry>)
    requires Numbered(s) && TxNumbered(s, tx) && tx.phase.Counted? && RowOf(s, tx, id).None?
    requires ticket.tenantId == tx.phase.caller.tenantId && ticket.number == tx.phase.number
    ensures TxNumbered(s, Tx(tx.tickets[id := ticket], tx.counters, queue, Ready))
  {
    hide Gapless;
    var tx' := Tx(tx.tickets[id := ticket], tx.counters, queue, Ready);
    var own, own' := s.tickets + tx.tickets, s.tickets + tx'.tickets;
    assert own' == own[id := ticket] && id !in own;
    forall t | t in tx'.counters ensures Gapless(own', t, tx'.counters[t]) {
      if t == ticket.tenantId {
        NextNumber(own, t, tx.counters[t] - 1, id, ticket);
      } else {
        SameNumbersGapless(own, own', t, tx.counters[t]);
      }
    }
  }

  lemma InsertNumbered(s: State, x: nat, id: string, now: int)
    requires Numbered(s) && x in s.open && s.open[x].phase.Counted? && DoInsert(s, x, s.open[x], id, now).Some?
    ensures Numbered(DoInsert(s, x, s.open[x], id, now).value)
  {
    hide Gapless, TxNumbered, TicketLocked, CreatedEvent;
    var tx := s.open[x];
    var tx' := DoInsert(s, x, tx, id, now).value.open[x];
    assert TxNumbered(s, tx) by { OneNumbered(s, x); }
    InsertedNumbered(s, tx, id, tx'.tickets[id], tx'.queue);
    PutNumbered(s, x, tx');
  }

  lemma CommitNumbered(s: State, x: nat)
    requires Inv(s) && Numbered(s) && x in s.open && s.open[x].phase.Ready?
    ensures Numbered(DoCommit(s, x, s.open[x]))
  {
    hide About, Fold, Gapless, Histories;
    var tx, s' := s.open[x], DoCommit(s, x, s.open[x]);
    assert TxNumbered(s, tx);
    forall t | t in s'.counters ensures Gapless(s'.tickets, t, s'.counters[t]) {
      if t !in tx.counters {
        OwnIsSame(s, x, t);
        SameNumbersGapless(s.tickets, s'.tickets, t, s.counters[t]);
      }
    }
    forall y | y in s'.open ensures TxNumbered(s', s'.open[y]) {
      CommitKeepsOther(s, x, y);
    }
  }

  lemma CommitKeepsOther(s: State, x: nat, y: nat)
    requires Locks(s) && Newer(s) && Numbered(s) && x in s.open && y in s.open && x != y && s.open[x].phase.Ready?
    ensures TxNumbered(DoCommit(s, x, s.open[x]), s.open[y])
  {
    hide Gapless;
    var tx, other, s' := s.open[x], s.open[y], DoCommit(s, x, s.open[x]);
    assert TxNumbered(s, tx) && TxNumbered(s, other);
    if !other.phase.Doomed? {
      forall t | t in other.counters
        ensures Gapless(s'.tickets + other.tickets, t, other.counters[t] - Reserved(other, t))
      {
        OthersSame(s, x, y, t);
        SameNumbersGapless(s.tickets + other.tickets, s'.tickets + other.tickets, t,
                           other.counters[t] - Reserved(other, t));
      }
    }
  }

  // What one transaction commits in a tenant whose counter another holds is rewrites.
  lemma OthersSame(s: State, x: nat, y: nat, t: string)
    requires Locks(s) && Newer(s) && x in s.open && y in s.open && x != y
    requires TxNumbered(s, s.open[x]) && t in s.open[y].counters
    ensures SameNumbers(s.tickets + s.open[y].tickets, (s.tickets + s.open[x].tickets) + s.open[y].tickets, t)
  {
    hide Gapless, TxNumbered;
    assert t !in s.open[x].counters;
    OwnIsSame(s, x, t);
  }

  lemma StepNumbered(s: State, move: Move)
    requires Inv(s) && Numbered(s) && Step(s, move).Some?
    ensures Numbered(Step(s, move).value)
  {
    hide Inv, Numbered, DoUpdate, DoCountUp, DoInsert, DoCommit, Validate, CanSee;
    match move
    case NewTenant(t) => TenantNumbered(s, t);
    case Begin(x) => BeginNumbered(s, x);
    case Load(x, id, version, request, caller) => LoadNumbered(s, x, id, version, request, caller);
    case Judge(x, at) => JudgeNumbered(s, x, at);
    case Update(x) => UpdateNumbered(s, x);
    case CountUp(x, draft, caller) => CountUpNumbered(s, x, draft, caller);
    case Insert(x, id, now) => InsertNumbered(s, x, id, now);
    case Break(x) => BreakNumbered(s, x);
    case Commit(x) => CommitNumbered(s, x);
    case Rollback(x) => RollbackNumbered(s, x);
  }

  lemma TenantNumbered(s: State, t: string)
    requires Numbered(s) && t !in s.counters && !exists x | x in s.open :: t in s.open[x].counters
    ensures Numbered(s.(counters := s.counters[t := 0]))
  {
    var s' := s.(counters := s.counters[t := 0]);
    assert Gapless(s.tickets, t, 0);
    forall x | x in s'.open ensures TxNumbered(s', s'.open[x]) { assert TxNumbered(s, s.open[x]); }
  }

  lemma BeginNumbered(s: State, x: nat)
    requires Numbered(s) && x !in s.open
    ensures Numbered(Put(s, x, Tx(map[], map[], [], Ready)))
  {
    PutNumbered(s, x, Tx(map[], map[], [], Ready));
  }

  lemma LoadNumbered(s: State, x: nat, id: string, version: int, request: Request, caller: Caller)
    requires Numbered(s) && x in s.open && s.open[x].phase.Ready?
    ensures Numbered(DoLoad(s, x, s.open[x], id, version, request, caller))
  {
    hide Gapless, CanSee;
    var tx := s.open[x];
    if RowOf(s, tx, id).Some? {
      var phase := Loaded(id, version, request, caller, RowOf(s, tx, id).value);
      PhaseNumbered(s, tx, phase);
      PutNumbered(s, x, tx.(phase := phase));
    }
  }

  lemma JudgeNumbered(s: State, x: nat, at: Circumstance)
    requires Numbered(s) && x in s.open && s.open[x].phase.Loaded?
    ensures Numbered(DoJudge(s, x, s.open[x], at))
  {
    hide Gapless, Validate;
    var tx := s.open[x];
    var phase := DoJudge(s, x, tx, at).open[x].phase;
    PhaseNumbered(s, tx, phase);
    PutNumbered(s, x, tx.(phase := phase));
  }

  lemma BreakNumbered(s: State, x: nat)
    requires Numbered(s) && x in s.open
    ensures Numbered(Put(s, x, s.open[x].(phase := Doomed)))
  {
    hide Gapless;
    assert TxNumbered(s, s.open[x]);
    PutNumbered(s, x, s.open[x].(phase := Doomed));
  }

  lemma RollbackNumbered(s: State, x: nat)
    requires Numbered(s)
    ensures Numbered(s.(open := s.open - {x}))
  {
    hide Gapless;
    var s' := s.(open := s.open - {x});
    forall y | y in s'.open ensures TxNumbered(s', s'.open[y]) { assert TxNumbered(s, s.open[y]); }
  }

  lemma {:induction false} RunNumbered(s: State, moves: seq<Move>)
    requires Inv(s) && Numbered(s) && Runs(s, moves)
    ensures Numbered(End(s, moves))
    decreases moves
  {
    hide Inv, Numbered, Step;
    if moves != [] {
      StepKeeps(s, moves[0]);
      StepNumbered(s, moves[0]);
      RunNumbered(Step(s, moves[0]).value, moves[1..]);
    }
  }

  // In every reachable state, and whatever rolled back on the way, a tenant's committed
  // tickets are numbered exactly 1 to its committed counter, each number once.
  lemma GaplessNumbering(moves: seq<Move>, t: string)
    requires Runs(START, moves) && t in End(START, moves).counters
    ensures Gapless(End(START, moves).tickets, t, End(START, moves).counters[t])
  {
    StartKeeps();
    RunNumbered(START, moves);
  }

  // A tenant's committed counter moves only when a transaction that holds it commits,
  // and only a caller of that tenant can make a transaction take or advance it.
  lemma CounterIsItsTenants(s: State, move: Move, t: string)
    requires Step(s, move).Some? && t in s.counters
    ensures var s' := Step(s, move).value;
            && t in s'.counters
            && (s'.counters[t] != s.counters[t] ==> move.Commit? && t in s.open[move.x].counters)
            && (forall x | x in s'.open && t in s'.open[x].counters ::
                  || (x in s.open && t in s.open[x].counters && s.open[x].counters[t] == s'.open[x].counters[t])
                  || (move.CountUp? && move.x == x && move.caller.tenantId == t))
  {
    hide Validate, CanSee, TicketLocked, CounterLocked, MutationEvent, CreatedEvent, Apply;
  }
}
