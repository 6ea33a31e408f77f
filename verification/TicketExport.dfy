// Pages of the ticket listing and the export that walks them:
// TicketsService.findAll and ReportsProcessor.collect.
module TicketExport {
  import opened Values
  import opened Filters
  import opened Database
  import opened Tickets
  import opened TicketListing

  // ----- Newest first, ties broken by id ----------------------------------------------------

  predicate Less(a: string, b: string) {
    if b == "" then false
    else if a == "" then true
    else a[0] < b[0] || (a[0] == b[0] && Less(a[1..], b[1..]))
  }

  lemma {:induction false} LessIsTotal(a: string, b: string)
    ensures a != b ==> Less(a, b) || Less(b, a)
    ensures !(Less(a, b) && Less(b, a))
    decreases a
  {
    if a != "" && b != "" {
      LessIsTotal(a[1..], b[1..]);
      assert a == [a[0]] + a[1..] && b == [b[0]] + b[1..];
    }
  }

  lemma {:induction false} LessIsTransitive(a: string, b: string, c: string)
    requires Less(a, b) && Less(b, c)
    ensures Less(a, c)
    decreases |a|
  {
    if a != "" && a[0] == b[0] && b[0] == c[0] {
      LessIsTransitive(a[1..], b[1..], c[1..]);
    }
  }

  // At the first place where they part, or where one ends, the smaller character comes first.
  lemma {:induction false} LessExactly(a: string, b: string)
    ensures Less(a, b) <==> exists k: nat | k <= |a| && k < |b| :: PartsAt(a, b, k)
    decreases |a|
  {
    if a != "" && b != "" && a[0] == b[0] {
      LessExactly(a[1..], b[1..]);
      if k: nat :| k <= |a[1..]| && k < |b[1..]| && PartsAt(a[1..], b[1..], k) {
        assert a[..k + 1] == [a[0]] + a[1..][..k] && b[..k + 1] == [b[0]] + b[1..][..k];
        assert PartsAt(a, b, k + 1);
      }
      if k: nat :| k <= |a| && k < |b| && PartsAt(a, b, k) {
        assert k > 0 && a[1..][..k - 1] == a[..k][1..] && b[1..][..k - 1] == b[..k][1..];
        assert PartsAt(a[1..], b[1..], k - 1);
      }
    } else if Less(a, b) {
      assert PartsAt(a, b, 0);
    } else {
      forall k: nat | k <= |a| && k < |b| ensures !PartsAt(a, b, k) {
        SameStart(a, b, k);
      }
    }
  }

  lemma SameStart(a: string, b: string, k: nat)
    requires k <= |a| && k <= |b|
    ensures k > 0 && a[..k] == b[..k] ==> a[0] == b[0]
  {
    if k > 0 { assert a[..k][0] == a[0] && b[..k][0] == b[0]; }
  }

  predicate PartsAt(a: string, b: string, k: nat)
    requires k <= |a| && k < |b|
  {
    a[..k] == b[..k] && (k == |a| || a[k] < b[k])
  }

  // `orderBy: [{ createdAt: 'desc' }, { id: 'desc' }]`
  predicate Before(t: Tickets.Ticket, u: Tickets.Ticket) {
    t.createdAt > u.createdAt || (t.createdAt == u.createdAt && Less(u.id, t.id))
  }

  lemma BeforeIsTotal(t: Tickets.Ticket, u: Tickets.Ticket)
    ensures t.id != u.id ==> Before(t, u) || Before(u, t)
    ensures !(Before(t, u) && Before(u, t))
  {
    LessIsTotal(t.id, u.id);
  }

  lemma BeforeIsTransitive(t: Tickets.Ticket, u: Tickets.Ticket, v: Tickets.Ticket)
    requires Before(t, u) && Before(u, v)
    ensures Before(t, v)
  {
    if t.createdAt == u.createdAt == v.createdAt {
      LessIsTransitive(v.id, u.id, t.id);
    }
  }

  // ----- The sorted view ------------------------------------------------------------------------

  predicate DistinctIds(ts: set<Tickets.Ticket>) {
    forall t, u | t in ts && u in ts && t != u :: t.id != u.id
  }

  // The same rows, in the listing's order, each once.
  ghost predicate Lists(view: seq<Tickets.Ticket>, ts: set<Tickets.Ticket>) {
    && (forall i, j | 0 <= i < j < |view| :: Before(view[i], view[j]))
    && (forall t :: t in view <==> t in ts)
  }

  predicate Leads(t: Tickets.Ticket, ts: set<Tickets.Ticket>) {
    t in ts && forall u | u in ts && u != t :: Before(t, u)
  }

  lemma {:induction false} SomeLeads(ts: set<Tickets.Ticket>)
    requires ts != {} && DistinctIds(ts)
    ensures exists t :: Leads(t, ts)
    decreases ts
  {
    hide Before;
    var some :| some in ts;
    var rest := ts - {some};
    if rest == {} {
      assert ts == {some};
      assert Leads(some, ts);
    } else {
      SomeLeads(rest);
      var first :| Leads(first, rest);
      BeforeIsTotal(some, first);
      if Before(some, first) {
        forall u | u in ts && u != some ensures Before(some, u) {
          if u != first { BeforeIsTransitive(some, first, u); }
        }
        assert Leads(some, ts);
      } else {
        assert Leads(first, ts);
      }
    }
  }

  ghost function View(ts: set<Tickets.Ticket>): (view: seq<Tickets.Ticket>)
    requires DistinctIds(ts)
    ensures Lists(view, ts)
    decreases ts
  {
    if ts == {} then []
    else
      SomeLeads(ts);
      var first :| Leads(first, ts);
      var rest := View(ts - {first});
      [first] + rest
  }

  // There is only one such listing, so the order says everything about the pages.
  lemma {:induction false} ViewIsUnique(v: seq<Tickets.Ticket>, w: seq<Tickets.Ticket>, ts: set<Tickets.Ticket>)
    requires Lists(v, ts) && Lists(w, ts)
    ensures v == w
    decreases v
  {
    hide Before;
    if w != [] { assert w[0] in w && w[0] in ts && w[0] in v; }
    if v != [] {
      assert v[0] in v && v[0] in ts && v[0] in w;
      HeadsAgree(v, w, ts);
      TailLists(v, ts);
      TailLists(w, ts);
      ViewIsUnique(v[1..], w[1..], ts - {v[0]});
      assert v == [v[0]] + v[1..] && w == [w[0]] + w[1..];
    }
  }

  lemma HeadsAgree(v: seq<Tickets.Ticket>, w: seq<Tickets.Ticket>, ts: set<Tickets.Ticket>)
    requires Lists(v, ts) && Lists(w, ts) && v != [] && w != [] && v[0] in w && w[0] in v
    ensures v[0] == w[0]
  {
    if v[0] != w[0] {
      BeforeIsTotal(v[0], w[0]);
    }
  }

  lemma TailLists(v: seq<Tickets.Ticket>, ts: set<Tickets.Ticket>)
    requires Lists(v, ts) && v != []
    ensures Lists(v[1..], ts - {v[0]})
  {
    hide Before;
    forall t ensures t in v[1..] <==> t in ts - {v[0]} {
      assert v == [v[0]] + v[1..];
      if t == v[0] && t in v[1..] {
        var i :| 0 <= i < |v[1..]| && v[1..][i] == t;
        assert Before(v[0], v[i + 1]) && v[i + 1] == t;
        BeforeIsTotal(t, t);
      }
    }
  }

  // ----- Pages --------------------------------------------------------------------------------------

  datatype Page = Page(data: seq<Tickets.Ticket>, total: nat, totalPages: nat)

  function Min(a: int, b: int): int {
    if a <= b then a else b
  }

  // `Math.ceil(total / perPage) || 1`
  function TotalPages(total: nat, perPage: nat): nat
    requires perPage > 0
  {
    if total == 0 then 1 else (total + perPage - 1) / perPage
  }

  // `skip: (page - 1) * perPage, take: perPage`
  function Slice(view: seq<Tickets.Ticket>, page: nat, perPage: nat): seq<Tickets.Ticket>
    requires page >= 1
  {
    var skip := Min((page - 1) * perPage, |view|);
    view[skip..Min(skip + perPage, |view|)]
  }

  function PageOf(view: seq<Tickets.Ticket>, page: nat, perPage: nat): Page
    requires page >= 1 && perPage > 0
  {
    Page(Slice(view, page, perPage), |view|, TotalPages(|view|, perPage))
  }

  // The rows of a table keyed by id.
  predicate ById(table: map<string, Tickets.Ticket>) {
    forall id | id in table :: table[id].id == id
  }

  function Selected(table: map<string, Tickets.Ticket>, where: Where): set<Tickets.Ticket> {
    set id | id in table && Selects(where, table[id]) :: table[id]
  }

  ghost function FindAll(table: map<string, Tickets.Ticket>, q: Query, page: nat, perPage: nat, caller: Caller)
    : Result<Page>
    requires ById(table) && page >= 1 && perPage > 0
  {
    match FindAllWhere(q, caller)
    case Failure(e) => Failure(e)
    case Success(where) => Success(PageOf(View(Selected(table, Scoped(where, FindMany, caller))), page, perPage))
  }

  ghost predicate Load(table: map<string, Tickets.Ticket>, id: string, caller: Caller) {
    Selected(table, Scoped(LoadWhere(id, caller), FindFirst, caller)) != {}
  }

  // Newer tickets stand before older ones, and among equally old ones the greater id is first.
  lemma NewestFirst(view: seq<Tickets.Ticket>, ts: set<Tickets.Ticket>, i: nat, j: nat)
    requires Lists(view, ts) && i < |view| && j < |view|
    ensures view[i].createdAt > view[j].createdAt ==> i < j
    ensures view[i].createdAt == view[j].createdAt && Less(view[j].id, view[i].id) ==> i < j
  {
    hide Less;
    BeforeIsTotal(view[i], view[j]);
    assert i > j ==> Before(view[j], view[i]);
  }

  // A page holds the rows of its place, full unless it is the last.
  lemma PageMeans(view: seq<Tickets.Ticket>, page: nat, perPage: nat, start: nat)
    requires page >= 1 && perPage > 0 && start == (page - 1) * perPage
    ensures var data := PageOf(view, page, perPage).data;
            && |data| == (if start + perPage <= |view| then perPage
                          else if start <= |view| then |view| - start
                          else 0)
            && (forall i | 0 <= i < |data| :: data[i] == view[start + i])
  {
    CutMeans(view, start, perPage);
  }

  lemma CutMeans(view: seq<Tickets.Ticket>, start: nat, n: nat)
    ensures var skip := Min(start, |view|);
            var data := view[skip..Min(skip + n, |view|)];
            && |data| == (if start + n <= |view| then n else if start <= |view| then |view| - start else 0)
            && (forall i | 0 <= i < |data| :: data[i] == view[start + i])
  {
  }

  // The total is the view's, with enough pages for it, and not one more.
  lemma TotalPagesExactly(view: seq<Tickets.Ticket>, page: nat, perPage: nat)
    requires page >= 1 && perPage > 0
    ensures PageOf(view, page, perPage).total == |view|
    ensures var total, pages := |view|, PageOf(view, page, perPage).totalPages;
            && pages >= 1
            && (if total == 0 then pages == 1 else (pages - 1) * perPage < total <= pages * perPage)
  {
    hide Slice;
    var n := |view| + perPage - 1;
    var q := n / perPage;
    assert n == perPage * q + n % perPage;
    assert (q - 1) * perPage == q * perPage - perPage;
  }

  // Every row of the view is on exactly the page its position says.
  lemma OnItsPage(view: seq<Tickets.Ticket>, i: nat, perPage: nat)
    requires i < |view| && perPage > 0
    ensures 1 <= i / perPage + 1 <= TotalPages(|view|, perPage)
    ensures view[i] in Slice(view, i / perPage + 1, perPage)
  {
    var page := i / perPage + 1;
    assert (page - 1) * perPage + i % perPage == i;
    var skip := Min((page - 1) * perPage, |view|);
    var data := Slice(view, page, perPage);
    assert data[i - skip] == view[i];
    CeilingAtLeast(|view|, perPage, i);
  }

  lemma CeilingAtLeast(total: nat, perPage: nat, i: nat)
    requires i < total && perPage > 0
    ensures i / perPage + 1 <= (total + perPage - 1) / perPage
  {
    assert (i + perPage) / perPage == i / perPage + 1 by {
      assert i == perPage * (i / perPage) + i % perPage;
      Quotient(i + perPage, perPage, i / perPage + 1, i % perPage);
    }
    Monotone(i + perPage, total + perPage - 1, perPage);
  }

  lemma Quotient(a: nat, d: nat, q: nat, r: nat)
    requires d > 0 && r < d && a == d * q + r
    ensures a / d == q
  {
    var q' := a / d;
    assert a == d * q' + a % d;
    assert q' < q ==> d * (q' + 1) <= d * q;
    assert q' > q ==> d * (q + 1) <= d * q';
  }

  lemma Monotone(a: nat, b: nat, d: nat)
    requires a <= b && d > 0
    ensures a / d <= b / d
  {
    var p, q := a / d, b / d;
    assert a == d * p + a % d && b == d * q + b % d;
    assert p > q ==> d * (q + 1) <= d * p;
  }

  // `load` answers exactly for the tickets the caller may see, and 404s for the rest.
  lemma LoadableIffVisible(table: map<string, Tickets.Ticket>, id: string, caller: Caller)
    requires ById(table)
    ensures Load(table, id, caller) <==> id in table && CanSee(caller, table[id])
  {
    hide Selects, Scoped;
    var found := Selected(table, Scoped(LoadWhere(id, caller), FindFirst, caller));
    forall t ensures Selects(Scoped(LoadWhere(id, caller), FindFirst, caller), t) <==> CanSee(caller, t) && t.id == id {
      LoadMeans(id, caller, t);
    }
    if id in table && CanSee(caller, table[id]) {
      assert table[id] in found;
    }
    if t :| t in found {
      assert t.id == id && table[id] == t;
    }
  }

  // A ticket is on some page of the unfiltered listing exactly when it can be loaded.
  lemma ListedIffLoadable(table: map<string, Tickets.Ticket>, id: string, perPage: nat, caller: Caller)
    requires ById(table) && perPage > 0 && id in table
    ensures Load(table, id, caller)
        <==> exists page: nat | page >= 1 :: table[id] in FindAll(table, NO_FILTER, page, perPage, caller).value.data
  {
    hide Selects, Scoped, Slice, Lists, Load;
    var where := Scoped(FindAllWhere(NO_FILTER, caller).value, FindMany, caller);
    var ts := Selected(table, where);
    var view := View(ts);
    ListingMeans(NO_FILTER, caller, table[id], FindMany);
    LoadableIffVisible(table, id, caller);
    assert table[id] in ts <==> CanSee(caller, table[id]);
    InView(view, ts, table[id]);
    if table[id] in view {
      var i :| 0 <= i < |view| && view[i] == table[id];
      OnItsPage(view, i, perPage);
      assert table[id] in FindAll(table, NO_FILTER, i / perPage + 1, perPage, caller).value.data;
    }
    forall page: nat | page >= 1 && table[id] in FindAll(table, NO_FILTER, page, perPage, caller).value.data
      ensures table[id] in view
    {
      SliceWithin(view, page, perPage, table[id]);
    }
  }

  lemma InView(view: seq<Tickets.Ticket>, ts: set<Tickets.Ticket>, t: Tickets.Ticket)
    requires Lists(view, ts)
    ensures t in view <==> t in ts
  {
  }

  lemma SliceWithin(view: seq<Tickets.Ticket>, page: nat, perPage: nat, t: Tickets.Ticket)
    requires page >= 1 && t in Slice(view, page, perPage)
    ensures t in view
  {
  }

  // ----- ReportsProcessor.collect ---------------------------------------------------------------------

  const PAGE_SIZE: nat := 100

  // `rows.slice(0, n)` for the rows the loop has, none of which exist when n is negative.
  function Take(rows: seq<Tickets.Ticket>, n: int): seq<Tickets.Ticket> {
    if n <= 0 then [] else rows[..Min(n, |rows|)]
  }

  // What the loop returns from its page number and the rows it has.
  function Collected(answer: nat -> Result<Page>, page: nat, rows: seq<Tickets.Ticket>, maxRows: int)
    : Result<seq<Tickets.Ticket>>
    decreases maxRows - |rows|
  {
    if |rows| >= maxRows then Success(Take(rows, maxRows))
    else
      match answer(page)
      case Failure(e) => Failure(e)
      case Success(result) =>
        if page >= result.totalPages || result.data == [] then Success(Take(rows + result.data, maxRows))
        else Collected(answer, page + 1, rows + result.data, maxRows)
  }

  // `answer(page)` is whatever the database gives when that page is read; the pages may
  // be read from a table that changes in between.
  method Collect(answer: nat -> Result<Page>, maxRows: int) returns (r: Result<seq<Tickets.Ticket>>, asked: nat)
    ensures r == Collected(answer, 1, [], maxRows)
    ensures asked <= if maxRows > 0 then maxRows else 0
    ensures r.Success? ==> |r.value| <= if maxRows > 0 then maxRows else 0
  {
    var rows: seq<Tickets.Ticket> := [];
    var page := 1;
    asked := 0;
    while |rows| < maxRows
      invariant page == asked + 1 && asked <= |rows|
      invariant asked > 0 ==> asked <= maxRows
      invariant Collected(answer, 1, [], maxRows) == Collected(answer, page, rows, maxRows)
      decreases maxRows - |rows|
    {
      var result := answer(page);
      asked := asked + 1;
      if result.Failure? {
        return Failure(result.error), asked;
      }
      rows := rows + result.value.data;
      if page >= result.value.totalPages || result.value.data == [] {
        break;
      }
      page := page + 1;
    }
    r := Success(Take(rows, maxRows));
  }

  // The rows of the first `n` pages, in the order they were read.
  function RowsOf(answer: nat -> Result<Page>, n: nat): seq<Tickets.Ticket> {
    if n == 0 then [] else RowsOf(answer, n - 1) + (if answer(n).Success? then answer(n).value.data else [])
  }

  // Page `p` answered, with rows, and said it is not the last.
  predicate SaysMore(answer: nat -> Result<Page>, p: nat) {
    answer(p).Success? && p < answer(p).value.totalPages && answer(p).value.data != []
  }

  // Page `k` is read: the rows before it are too few, and every page before it said more.
  ghost predicate Asks(answer: nat -> Result<Page>, k: nat, maxRows: int) {
    && k >= 1 && |RowsOf(answer, k - 1)| < maxRows
    && forall p: nat | 1 <= p < k :: SaysMore(answer, p)
  }

  // What the export ends with: the failure of a page it reads, or, when all those answer,
  // their rows cut at the limit.
  ghost predicate EndsAs(answer: nat -> Result<Page>, maxRows: int, r: Result<seq<Tickets.Ticket>>) {
    match r
    case Failure(e) => exists k: nat | Asks(answer, k, maxRows) :: answer(k) == Failure(e)
    case Success(rows) =>
      && (forall k: nat | Asks(answer, k, maxRows) :: answer(k).Success?)
      && (exists k: nat :: (k == 0 || Asks(answer, k, maxRows)) && !Asks(answer, k + 1, maxRows)
                           && rows == Take(RowsOf(answer, k), maxRows))
  }

  lemma MoreRows(answer: nat -> Result<Page>, page: nat, more: nat)
    requires page <= more
    ensures |RowsOf(answer, page)| <= |RowsOf(answer, more)|
  {
  }

  lemma NoneAskedAfter(answer: nat -> Result<Page>, page: nat, k: nat, maxRows: int)
    requires page >= 1 && k > page && (!SaysMore(answer, page) || |RowsOf(answer, page)| >= maxRows)
    ensures !Asks(answer, k, maxRows)
  {
    MoreRows(answer, page, k - 1);
  }

  lemma {:induction false} CollectedFrom(answer: nat -> Result<Page>, page: nat, maxRows: int)
    requires Asks(answer, page, maxRows) && page >= 1 && |RowsOf(answer, page - 1)| < maxRows
    ensures EndsAs(answer, maxRows, Collected(answer, page, RowsOf(answer, page - 1), maxRows))
    decreases maxRows - |RowsOf(answer, page - 1)|
  {
    hide RowsOf, Asks, Take;
    BeforeAnswered(answer, page, maxRows);
    if answer(page).Success? {
      NextRows(answer, page);
      if SaysMore(answer, page) && |RowsOf(answer, page)| < maxRows {
        AsksNext(answer, page, maxRows);
        CollectedFrom(answer, page + 1, maxRows);
      } else {
        forall k: nat | k > page ensures !Asks(answer, k, maxRows) { NoneAskedAfter(answer, page, k, maxRows); }
        assert !Asks(answer, page + 1, maxRows);
      }
    }
  }

  lemma BeforeAnswered(answer: nat -> Result<Page>, page: nat, maxRows: int)
    requires Asks(answer, page, maxRows)
    ensures forall k: nat | Asks(answer, k, maxRows) && k < page :: answer(k).Success?
  {
    forall k: nat | Asks(answer, k, maxRows) && k < page ensures answer(k).Success? {
      assert SaysMore(answer, k);
    }
  }

  lemma NextRows(answer: nat -> Result<Page>, page: nat)
    requires page >= 1 && answer(page).Success?
    ensures RowsOf(answer, page) == RowsOf(answer, page - 1) + answer(page).value.data
  {
  }

  lemma AsksNext(answer: nat -> Result<Page>, page: nat, maxRows: int)
    requires Asks(answer, page, maxRows) && SaysMore(answer, page) && |RowsOf(answer, page)| < maxRows
    ensures Asks(answer, page + 1, maxRows)
  {
  }

  // The whole export, whatever the pages answer.
  lemma CollectEndsAs(answer: nat -> Result<Page>, maxRows: int)
    ensures EndsAs(answer, maxRows, Collected(answer, 1, [], maxRows))
  {
    assert RowsOf(answer, 0) == [];
    if maxRows > 0 {
      assert Asks(answer, 1, maxRows);
      CollectedFrom(answer, 1, maxRows);
    } else {
      forall k: nat ensures !Asks(answer, k, maxRows) {}
      assert !Asks(answer, 0 + 1, maxRows);
    }
  }

  // It fails exactly when a page that is read fails, and with that page's error.
  lemma CollectFailsExactly(answer: nat -> Result<Page>, maxRows: int, error: Error)
    ensures Collected(answer, 1, [], maxRows) == Failure(error)
        <==> exists k: nat | Asks(answer, k, maxRows) :: answer(k) == Failure(error)
  {
    hide Collected, Asks;
    CollectEndsAs(answer, maxRows);
    var r := Collected(answer, 1, [], maxRows);
    if k: nat :| Asks(answer, k, maxRows) && answer(k) == Failure(error) {
      if r.Failure? {
        var k': nat :| Asks(answer, k', maxRows) && answer(k') == Failure(r.error);
        OneFails(answer, k, k', maxRows);
      }
    }
  }

  // A page that fails is the last one read.
  lemma OneFails(answer: nat -> Result<Page>, k: nat, k': nat, maxRows: int)
    requires Asks(answer, k, maxRows) && Asks(answer, k', maxRows) && answer(k).Failure? && answer(k').Failure?
    ensures k == k'
  {
    assert k < k' ==> SaysMore(answer, k);
    assert k' < k ==> SaysMore(answer, k');
  }

  // Over a view that stays put, the loop has read a whole number of pages and ends with
  // the first `maxRows` rows.
  lemma {:induction false} CollectedIsPrefix(answer: nat -> Result<Page>, view: seq<Tickets.Ticket>, page: nat,
                                             maxRows: nat)
    requires page >= 1 && (page - 1) * PAGE_SIZE <= |view|
    requires forall p: nat | p >= 1 :: answer(p) == Success(PageOf(view, p, PAGE_SIZE))
    ensures Collected(answer, page, view[..(page - 1) * PAGE_SIZE], maxRows) == Success(view[..Min(maxRows, |view|)])
    decreases |view| - (page - 1) * PAGE_SIZE
  {
    var done := (page - 1) * PAGE_SIZE;
    if done < maxRows {
      var result := PageOf(view, page, PAGE_SIZE);
      assert answer(page) == Success(result);
      var next := Min(done + PAGE_SIZE, |view|);
      assert view[..done] + view[done..next] == view[..next];
      assert result.data == view[done..next];
      if page >= result.totalPages || result.data == [] {
        assert next == |view|;
        assert view[..next] == view;
      } else {
        assert next == page * PAGE_SIZE;
        CollectedIsPrefix(answer, view, page + 1, maxRows);
      }
    } else {
      assert view[..done][..maxRows] == view[..maxRows];
    }
  }

  // The export of a table that stays put is the first `maxRows` rows of the caller's sorted
  // view: in order, none twice, none left out.
  lemma ExportIsTheView(table: map<string, Tickets.Ticket>, q: Query, caller: Caller, maxRows: nat,
                        answer: nat -> Result<Page>)
    requires ById(table) && FindAllWhere(q, caller).Success?
    requires forall page: nat | page >= 1 :: answer(page) == FindAll(table, q, page, PAGE_SIZE, caller)
    ensures var ts := set id | id in table && CanSee(caller, table[id]) && Asked(Effective(q), table[id]) :: table[id];
            && DistinctIds(ts)
            && Collected(answer, 1, [], maxRows) == Success(View(ts)[..Min(maxRows, |View(ts)|)])
  {
    hide Selects, Scoped, FindAllWhere, Lists, Slice, Collected;
    var ts := set id | id in table && CanSee(caller, table[id]) && Asked(Effective(q), table[id]) :: table[id];
    var selected := Selected(table, Scoped(FindAllWhere(q, caller).value, FindMany, caller));
    forall id | id in table
      ensures Selects(Scoped(FindAllWhere(q, caller).value, FindMany, caller), table[id])
          <==> CanSee(caller, table[id]) && Asked(Effective(q), table[id])
    {
      ListingMeans(q, caller, table[id], FindMany);
    }
    assert ts == selected;
    var view := View(ts);
    CollectedIsPrefix(answer, view, 1, maxRows);
    assert view[..0] == [];
  }

  // A view lists nothing twice.
  lemma NoDuplicates(view: seq<Tickets.Ticket>, ts: set<Tickets.Ticket>, i: nat, j: nat)
    requires Lists(view, ts) && DistinctIds(ts) && i < j < |view|
    ensures view[i] != view[j] && view[i].id != view[j].id
  {
    BeforeIsTotal(view[i], view[j]);
    assert view[i] in ts && view[j] in ts;
  }
}
