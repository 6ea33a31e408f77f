// ReportsProcessor.process: one scope per page, one for the result, and a row that always
// says how the job ended. src/reports/reports.processor.ts.
module Reports {
  import opened Values
  import opened Tickets
  import opened TicketListing
  import opened TicketExport
  import opened TicketCsv

  datatype ReportStatus = PENDING | PROCESSING | COMPLETED | FAILED

  datatype Report = Report(
    status: ReportStatus, content: Option<string>, rowCount: Option<nat>,
    error: Option<Error>, completedAt: Option<int>)

  datatype Announcement = Completed(rowCount: nat) | Failed(error: Error)

  // What befalls the job outside its own rows: the error of the scope that marks it as
  // processing, of the one that stores the result and of the one that records a failure,
  // where there is one. A scope that fails leaves the row as it was.
  datatype Trouble = Trouble(starting: Option<Error>, saving: Option<Error>, recording: Option<Error>)

  class ReportsProcessor {
    var report: Report
    var announced: seq<Announcement>

    constructor (report: Report)
      ensures this.report == report && announced == []
    {
      this.report := report;
      announced := [];
    }

    method Process(answer: nat -> Result<Page>, maxRows: int, respond: Tickets.Ticket -> TicketResponse,
                   now: int, trouble: Trouble)
      returns (thrown: Option<Error>)
      modifies this
      ensures trouble.starting.Some? ==>
                thrown == trouble.starting && report == old(report) && announced == old(announced)
      ensures var collected := Collected(answer, 1, [], maxRows);
              var cause := if collected.Failure? then Some(collected.error) else trouble.saving;
              trouble.starting.None? ==>
                && (thrown.None? <==> cause.None?)
                && (cause.None? ==>
                      && report == Report(COMPLETED, Some(TicketsToCsv(Map(respond, collected.value))),
                                          Some(|collected.value|), None, Some(now))
                      && announced == old(announced) + [Completed(|collected.value|)])
                && (cause.Some? && trouble.recording.None? ==>
                      && thrown == cause
                      && report == old(report).(status := FAILED, error := cause, completedAt := Some(now))
                      && announced == old(announced) + [Failed(cause.value)])
                && (cause.Some? && trouble.recording.Some? ==>
                      && thrown == trouble.recording
                      && report == old(report).(status := PROCESSING) && announced == old(announced))
    {
      if trouble.starting.Some? {
        return trouble.starting;
      }
      report := report.(status := PROCESSING);
      thrown := None;
      var rows, _ := Collect(answer, maxRows);
      match rows {
        case Failure(e) => thrown := Some(e);
        case Success(found) =>
          if trouble.saving.Some? {
            thrown := trouble.saving;
          } else {
            report := Report(COMPLETED, Some(TicketsToCsv(Map(respond, found))), Some(|found|), None, Some(now));
            announced := announced + [Completed(|found|)];
          }
      }
      if thrown.Some? {
        if trouble.recording.Some? {
          return trouble.recording;
        }
        report := report.(status := FAILED, error := thrown, completedAt := Some(now));
        announced := announced + [Failed(thrown.value)];
      }
    }
  }

  // Over a table that stays put, the stored text reads back as the header and one record
  // for each of the first `maxRows` tickets of the requester's sorted view.
  lemma StoredReportReadsBack(table: map<string, Tickets.Ticket>, q: Query, caller: Caller, maxRows: nat,
                              answer: nat -> Result<Page>, respond: Tickets.Ticket -> TicketResponse)
    requires ById(table) && FindAllWhere(q, caller).Success?
    requires forall page: nat | page >= 1 :: answer(page) == FindAll(table, q, page, PAGE_SIZE, caller)
    ensures var ts := set id | id in table && CanSee(caller, table[id]) && Asked(Effective(q), table[id]) :: table[id];
            && DistinctIds(ts)
            && var collected := Collected(answer, 1, [], maxRows);
            && collected.Success?
            && var records := ReadFile(TicketsToCsv(Map(respond, collected.value)));
            && records.Some? && |records.value| == Min(maxRows, |ts|) + 1
            && records.value[0] == COLUMNS
            && forall i | 0 <= i < Min(maxRows, |ts|) ::
                 i < |View(ts)| && records.value[i + 1] == Texts(TicketCsv.Cells(respond(View(ts)[i])))
  {
    hide Collected, ReadFile, TicketsToCsv, Texts, TicketCsv.Cells, CanSee, Asked, Lists, FindAll, FindAllWhere;
    ExportIsTheView(table, q, caller, maxRows, answer);
    var ts := set id | id in table && CanSee(caller, table[id]) && Asked(Effective(q), table[id]) :: table[id];
    var rows := Collected(answer, 1, [], maxRows).value;
    ViewLength(View(ts), ts);
    RoundTrip(Map(respond, rows));
  }

  lemma {:induction false} ViewLength(view: seq<Tickets.Ticket>, ts: set<Tickets.Ticket>)
    requires Lists(view, ts)
    ensures |view| == |ts|
    decreases view
  {
    if view == [] {
      assert ts == {};
    } else {
      assert view[0] in view && view[0] in ts;
      TailLists(view, ts);
      ViewLength(view[1..], ts - {view[0]});
    }
  }
}
