// The CSV of the ticket export against a reader of the format: src/reports/ticket-csv.ts
// and section 2 of RFC 4180.
module TicketCsv {
  import opened Values

  // ----- Printing -----------------------------------------------------------------------------

  // What a cell may hold. A date comes with its `toISOString()` text.
  datatype Cell = Missing | Words(text: string) | Number(n: int) | Date(iso: string)

  datatype TicketResponse = TicketResponse(
    number: int, title: string, status: string, priority: string, category: string,
    requesterEmail: string, assigneeEmail: Option<string>,
    createdAt: string, resolvedAt: Option<string>, closedAt: Option<string>)

  const COLUMNS: seq<string> := [
    "number", "title", "status", "priority", "category",
    "requester", "assignee", "createdAt", "resolvedAt", "closedAt"]

  const CRLF: string := "\r\n"

  function Digits(n: nat): (s: string)
    ensures s != "" && '0' <= s[0] <= '9'
  {
    var last := [(n % 10 + '0' as int) as char];
    if n < 10 then last else Digits(n / 10) + last
  }

  function TextOf(cell: Cell): string {
    match cell
    case Missing => ""
    case Words(text) => text
    case Number(n) => if n < 0 then "-" + Digits(-n) else Digits(n)
    case Date(iso) => iso
  }

  // A first character a spreadsheet would read as the start of a formula.
  predicate Dangerous(text: string) {
    text != "" && text[0] in "=+-@\t\r"
  }

  function Guarded(text: string): string {
    if Dangerous(text) then "'" + text else text
  }

  // `replace(/"/g, '""')`
  function Doubled(text: string): string {
    if text == "" then ""
    else (if text[0] == '"' then "\"\"" else [text[0]]) + Doubled(text[1..])
  }

  function Quoted(text: string): string {
    "\"" + Doubled(text) + "\""
  }

  function Print(cell: Cell): string {
    if cell.Missing? then "\"\"" else Quoted(Guarded(TextOf(cell)))
  }

  function Join(parts: seq<string>, separator: string): string {
    if parts == [] then ""
    else if |parts| == 1 then parts[0]
    else parts[0] + separator + Join(parts[1..], separator)
  }

  function Map<A, B>(f: A -> B, s: seq<A>): seq<B> {
    seq(|s|, i requires 0 <= i < |s| => f(s[i]))
  }

  function OrMissing(text: Option<string>): Cell {
    match text
    case None => Missing
    case Some(s) => Words(s)
  }

  function DateOrMissing(iso: Option<string>): Cell {
    match iso
    case None => Missing
    case Some(s) => Date(s)
  }

  function Cells(t: TicketResponse): seq<Cell> {
    [Number(t.number), Words(t.title), Words(t.status), Words(t.priority), Words(t.category),
     Words(t.requesterEmail), OrMissing(t.assigneeEmail),
     Date(t.createdAt), DateOrMissing(t.resolvedAt), DateOrMissing(t.closedAt)]
  }

  function Line(cells: seq<Cell>): string {
    Join(Map(Print, cells), ",")
  }

  function Header(): seq<Cell> {
    Map((name: string) => Words(name), COLUMNS)
  }

  function Table(tickets: seq<TicketResponse>): seq<seq<Cell>> {
    [Header()] + Map(Cells, tickets)
  }

  function TicketsToCsv(tickets: seq<TicketResponse>): string {
    Join(Map(Line, Table(tickets)), CRLF)
  }

  // ----- Reading: the grammar of RFC 4180, section 2 ------------------------------------------

  // escaped = DQUOTE *(TEXTDATA / COMMA / CR / LF / 2DQUOTE) DQUOTE, after the first DQUOTE.
  function ReadEscaped(s: string): Option<(string, string)> {
    if s == "" then None
    else if s[0] != '"' then
      match ReadEscaped(s[1..])
      case None => None
      case Some((text, rest)) => Some(([s[0]] + text, rest))
    else if |s| >= 2 && s[1] == '"' then
      match ReadEscaped(s[2..])
      case None => None
      case Some((text, rest)) => Some(("\"" + text, rest))
    else Some(("", s[1..]))
  }

  // non-escaped = *TEXTDATA, read for any character that is not one of the four special ones.
  function ReadPlain(s: string): (string, string) {
    if s == "" || s[0] in "\",\r\n" then ("", s)
    else
      var (text, rest) := ReadPlain(s[1..]);
      ([s[0]] + text, rest)
  }

  function ReadField(s: string): Option<(string, string)> {
    if s != "" && s[0] == '"' then ReadEscaped(s[1..]) else Some(ReadPlain(s))
  }

  lemma {:induction false} EscapedConsumes(s: string)
    ensures ReadEscaped(s).Some? ==> |ReadEscaped(s).value.1| < |s|
    decreases s
  {
    if s != "" && s[0] != '"' { EscapedConsumes(s[1..]); }
    else if |s| >= 2 && s[1] == '"' { EscapedConsumes(s[2..]); }
  }

  lemma {:induction false} PlainConsumes(s: string)
    ensures |ReadPlain(s).1| <= |s|
    decreases s
  {
    if s != "" && s[0] !in "\",\r\n" { PlainConsumes(s[1..]); }
  }

  lemma FieldConsumes(s: string)
    ensures ReadField(s).Some? ==> |ReadField(s).value.1| <= |s|
  {
    if s != "" && s[0] == '"' { EscapedConsumes(s[1..]); } else { PlainConsumes(s); }
  }

  // record = field *(COMMA field)
  function ReadRecord(s: string): Option<(seq<string>, string)>
    decreases |s|
  {
    match ReadField(s)
    case None => None
    case Some((field, rest)) =>
      FieldConsumes(s);
      if rest != "" && rest[0] == ',' then
        match ReadRecord(rest[1..])
        case None => None
        case Some((fields, after)) => Some(([field] + fields, after))
      else Some(([field], rest))
  }

  lemma {:induction false} RecordConsumes(s: string)
    ensures ReadRecord(s).Some? ==> |ReadRecord(s).value.1| <= |s|
    decreases |s|
  {
    FieldConsumes(s);
    if ReadField(s).Some? {
      var rest := ReadField(s).value.1;
      if rest != "" && rest[0] == ',' { RecordConsumes(rest[1..]); }
    }
  }

  // file = record *(CRLF record) [CRLF]
  function ReadFile(s: string): Option<seq<seq<string>>>
    decreases |s|
  {
    match ReadRecord(s)
    case None => None
    case Some((fields, rest)) =>
      RecordConsumes(s);
      if rest == "" || rest == CRLF then Some([fields])
      else if |rest| > 2 && rest[..2] == CRLF then
        match ReadFile(rest[2..])
        case None => None
        case Some(records) => Some([fields] + records)
      else None
  }

  // ----- Reading back what was printed ------------------------------------------------------------

  lemma {:induction false} ReadsDoubled(text: string, rest: string)
    requires rest == "" || rest[0] != '"'
    ensures ReadEscaped(Doubled(text) + "\"" + rest) == Some((text, rest))
    decreases text
  {
    var s := Doubled(text) + "\"" + rest;
    if text == "" {
      assert s == ['"'] + rest;
      assert s[1..] == rest;
    } else {
      ReadsDoubled(text[1..], rest);
      var tail := Doubled(text[1..]) + "\"" + rest;
      if text[0] == '"' {
        assert s[2..] == tail;
        assert "\"" + text[1..] == text;
      } else {
        assert s[1..] == tail;
        assert [text[0]] + text[1..] == text;
      }
    }
  }

  lemma PrintsQuoted(cell: Cell)
    ensures Print(cell) == Quoted(Guarded(TextOf(cell)))
  {
    assert Quoted("") == "\"\"";
  }

  lemma ReadsCell(cell: Cell, rest: string)
    requires rest == "" || rest[0] != '"'
    ensures ReadField(Print(cell) + rest) == Some((Guarded(TextOf(cell)), rest))
  {
    hide ReadEscaped, Doubled, Guarded;
    var text := Guarded(TextOf(cell));
    PrintsQuoted(cell);
    ReadsDoubled(text, rest);
    assert (Print(cell) + rest)[1..] == Doubled(text) + "\"" + rest;
  }

  function Texts(cells: seq<Cell>): seq<string> {
    Map((cell: Cell) => Guarded(TextOf(cell)), cells)
  }

  lemma MapRest<A, B>(f: A -> B, s: seq<A>)
    requires s != []
    ensures Map(f, s) == [f(s[0])] + Map(f, s[1..])
    ensures Map(f, s)[1..] == Map(f, s[1..])
  {
  }

  lemma {:induction false} ReadsLine(cells: seq<Cell>, rest: string)
    requires cells != [] && (rest == "" || rest[0] == '\r')
    ensures ReadRecord(Line(cells) + rest) == Some((Texts(cells), rest))
    decreases cells
  {
    hide ReadField, Print, Guarded, TextOf;
    MapRest(Print, cells);
    var s := Line(cells) + rest;
    if |cells| == 1 {
      ReadsCell(cells[0], rest);
      assert Texts(cells) == [Guarded(TextOf(cells[0]))];
    } else {
      var tail := Line(cells[1..]) + rest;
      assert s == Print(cells[0]) + ("," + tail);
      ReadsCell(cells[0], "," + tail);
      assert ("," + tail)[1..] == tail;
      ReadsLine(cells[1..], rest);
      assert Texts(cells) == [Guarded(TextOf(cells[0]))] + Texts(cells[1..]);
    }
  }

  lemma LineNotEmpty(cells: seq<Cell>)
    requires cells != []
    ensures Line(cells) != ""
  {
    MapRest(Print, cells);
    assert Print(cells[0])[0] == '"';
  }

  lemma {:induction false} ReadsTable(table: seq<seq<Cell>>)
    requires table != [] && (forall i | 0 <= i < |table| :: table[i] != [])
    ensures Join(Map(Line, table), CRLF) != ""
    ensures ReadFile(Join(Map(Line, table), CRLF)) == Some(Map(Texts, table))
    decreases table
  {
    hide ReadRecord, Line, Texts;
    MapRest(Line, table);
    var s := Join(Map(Line, table), CRLF);
    LineNotEmpty(table[0]);
    if |table| == 1 {
      ReadsLine(table[0], "");
      assert s + "" == s;
      assert Map(Texts, table) == [Texts(table[0])];
    } else {
      ReadsTable(table[1..]);
      var tail := Join(Map(Line, table[1..]), CRLF);
      assert s == Line(table[0]) + (CRLF + tail);
      ReadsLine(table[0], CRLF + tail);
      assert (CRLF + tail)[..2] == CRLF && (CRLF + tail)[2..] == tail;
      assert Map(Texts, table) == [Texts(table[0])] + Map(Texts, table[1..]);
    }
  }

  // The file reads back as the header and one record per ticket, cell for cell, whatever
  // quotes, commas and line breaks the cells hold.
  lemma RoundTrip(tickets: seq<TicketResponse>)
    ensures ReadFile(TicketsToCsv(tickets)) == Some([COLUMNS] + Map((t: TicketResponse) => Texts(Cells(t)), tickets))
  {
    hide ReadFile, Join, Line, Texts, Cells;
    var table := Table(tickets);
    forall i | 0 <= i < |table| ensures table[i] != [] { CellsNotEmpty(tickets, table[i]); }
    ReadsTable(table);
    HeaderReads();
    assert Map(Texts, table) == [COLUMNS] + Map((t: TicketResponse) => Texts(Cells(t)), tickets);
  }

  lemma CellsNotEmpty(tickets: seq<TicketResponse>, cells: seq<Cell>)
    requires cells in Table(tickets)
    ensures cells != []
  {
    var i :| 0 <= i < |Table(tickets)| && Table(tickets)[i] == cells;
    if i > 0 { assert cells == Cells(tickets[i - 1]); }
  }

  // No column name is one the guard touches.
  lemma HeaderReads()
    ensures Texts(Header()) == COLUMNS
  {
    forall i | 0 <= i < |COLUMNS| ensures !Dangerous(COLUMNS[i]) {
      assert COLUMNS[i][0] in ['n', 't', 's', 'p', 'c', 'r', 'a'];
    }
  }

  // What a column of that name is about.
  function Named(t: TicketResponse, column: string): Cell {
    if column == "number" then Number(t.number)
    else if column == "title" then Words(t.title)
    else if column == "status" then Words(t.status)
    else if column == "priority" then Words(t.priority)
    else if column == "category" then Words(t.category)
    else if column == "requester" then Words(t.requesterEmail)
    else if column == "assignee" then if t.assigneeEmail.Some? then Words(t.assigneeEmail.value) else Missing
    else if column == "createdAt" then Date(t.createdAt)
    else if column == "resolvedAt" then if t.resolvedAt.Some? then Date(t.resolvedAt.value) else Missing
    else if column == "closedAt" then if t.closedAt.Some? then Date(t.closedAt.value) else Missing
    else Missing
  }

  // ----- What a cell says -----------------------------------------------------------------------

  // The number a run of decimal digits stands for.
  function ValueOf(digits: string): nat
    requires forall i | 0 <= i < |digits| :: '0' <= digits[i] <= '9'
  {
    if digits == "" then 0
    else 10 * ValueOf(digits[..|digits| - 1]) + (digits[|digits| - 1] as int - '0' as int)
  }

  // The decimal notation of a number: digits that stand for it, and no zero in front.
  predicate Denotes(text: string, n: nat) {
    && text != "" && (forall i | 0 <= i < |text| :: '0' <= text[i] <= '9')
    && ValueOf(text) == n && (|text| > 1 ==> text[0] != '0')
  }

  lemma {:induction false} DigitsDenote(n: nat)
    ensures Denotes(Digits(n), n)
  {
    var last := [(n % 10 + '0' as int) as char];
    if n < 10 {
      assert Digits(n) == last && last[..0] == "";
    } else {
      DigitsDenote(n / 10);
      assert Digits(n)[..|Digits(n)| - 1] == Digits(n / 10);
    }
  }

  // The text behind one of the six characters gets an apostrophe; any other text is kept.
  lemma GuardedExactly(text: string)
    ensures text == "" || text[0] !in {'=', '+', '-', '@', '\t', '\r'} ==> Guarded(text) == text
    ensures text != "" && text[0] in {'=', '+', '-', '@', '\t', '\r'} ==> Guarded(text) == "'" + text
  {
  }

  // What stands in a cell, as read: nothing for a missing value, a text or a date behind an
  // apostrophe or as it is, a number in decimal. A negative number is guarded like a text.
  predicate Carries(text: string, cell: Cell) {
    match cell
    case Missing => text == ""
    case Words(s) => text == if s != "" && s[0] in {'=', '+', '-', '@', '\t', '\r'} then "'" + s else s
    case Date(s) => text == if s != "" && s[0] in {'=', '+', '-', '@', '\t', '\r'} then "'" + s else s
    case Number(n) =>
      if n >= 0 then Denotes(text, n) else |text| > 2 && text[..2] == "'-" && Denotes(text[2..], -n)
  }

  lemma CellCarries(cell: Cell)
    ensures Carries(Guarded(TextOf(cell)), cell)
  {
    hide Denotes;
    GuardedExactly(TextOf(cell));
    if cell.Number? {
      DigitsDenote(if cell.n < 0 then -cell.n else cell.n);
      if cell.n < 0 { assert Guarded(TextOf(cell))[2..] == Digits(-cell.n); }
    }
  }

  // Every record has one cell per column, under the name the header gives it.
  lemma CellsStandUnderTheirNames(tickets: seq<TicketResponse>, i: nat, j: nat)
    requires i < |tickets| && j < |COLUMNS|
    ensures var records := ReadFile(TicketsToCsv(tickets));
            && records.Some? && i + 1 < |records.value|
            && |records.value[0]| == |records.value[i + 1]| == |COLUMNS|
            && records.value[i + 1][j] == Guarded(TextOf(Named(tickets[i], records.value[0][j])))
            && Carries(records.value[i + 1][j], Named(tickets[i], records.value[0][j]))
  {
    hide ReadFile, TicketsToCsv, Guarded, TextOf, Carries;
    RoundTrip(tickets);
    ColumnsDiffer();
    assert Cells(tickets[i])[j] == Named(tickets[i], COLUMNS[j]);
    CellCarries(Named(tickets[i], COLUMNS[j]));
  }

  lemma ColumnsDiffer()
    ensures forall i, j | 0 <= i < j < |COLUMNS| :: COLUMNS[i] != COLUMNS[j]
  {
    assert "number"[0] == 'n' && "title"[0] == 't' && "status"[0] == 's' && "priority"[0] == 'p';
    assert "assignee"[0] == 'a';
    assert "category"[1] == 'a' && "createdAt"[1] == 'r' && "closedAt"[1] == 'l';
    assert "requester"[2] == 'q' && "resolvedAt"[2] == 's';
    assert "category"[0] == 'c' && "createdAt"[0] == 'c' && "closedAt"[0] == 'c' && "requester"[0] == 'r';
    assert "resolvedAt"[0] == 'r';
  }

  // ----- The guard -------------------------------------------------------------------------------------

  lemma GuardWorks(text: string)
    ensures Guarded(text) == "" || Guarded(text)[0] !in {'=', '+', '-', '@', '\t', '\r'}
  {
    if Dangerous(text) { assert Guarded(text)[0] == '\''; }
  }

  // No cell of the file, as read, starts a formula.
  lemma NoCellIsAFormula(tickets: seq<TicketResponse>, i: nat, j: nat)
    ensures var records := ReadFile(TicketsToCsv(tickets));
            && records.Some? && |records.value| == |tickets| + 1
            && (i < |records.value| && j < |records.value[i]| ==>
                  records.value[i][j] == "" || records.value[i][j][0] !in {'=', '+', '-', '@', '\t', '\r'})
  {
    RoundTrip(tickets);
    HeaderReads();
    var records := [COLUMNS] + Map((t: TicketResponse) => Texts(Cells(t)), tickets);
    if i < |records| && j < |records[i]| {
      var cells := if i == 0 then Header() else Cells(tickets[i - 1]);
      assert records[i] == Texts(cells);
      GuardWorks(TextOf(cells[j]));
    }
  }

  // The guard loses exactly the difference between a dangerous text and the same text
  // that already carried the apostrophe.
  lemma GuardCollides(a: string, b: string)
    ensures Guarded(a) == Guarded(b)
        <==> a == b || (Dangerous(a) && b == "'" + a) || (Dangerous(b) && a == "'" + b)
  {
    assert Dangerous(a) ==> Guarded(a)[1..] == a && Guarded(a)[0] == '\'';
    assert Dangerous(b) ==> Guarded(b)[1..] == b && Guarded(b)[0] == '\'';
  }
}
