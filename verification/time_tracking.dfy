/**
 * The time-tracking tools of the server: a single time entry with unit
 * conversion, bulk logging for one technician, and logging combined with
 * closing the ticket. The current date is a parameter (`today`).
 */
module TimeTracking {
  import opened Wrappers
  import opened PyText
  import opened Json
  import opened Transport
  import opened Envelope
  import opened PsaTimeEntry
  import PsaTicketing

  /** `time_spent * 60` when the unit is hours (in any letter case), else `time_spent`. */
  function MinutesOf(timeSpent: real, unit: string): (m: real)
    ensures Lower(unit) == "hours" ==> m / 60.0 == timeSpent
    ensures Lower(unit) != "hours" ==> m == timeSpent
  {
    if Lower(unit) == "hours" then timeSpent * 60.0 else timeSpent
  }

  /** Hours are converted at sixty minutes each; any other unit is taken as minutes. */
  lemma MinutesOfConverts(timeSpent: real, unit: string)
    ensures MinutesOf(timeSpent, unit) == MinutesOf(timeSpent * 60.0, "minutes") <==>
              Lower(unit) == "hours" || timeSpent == 0.0
    ensures Lower(unit) != "hours" ==> MinutesOf(timeSpent, unit) == timeSpent
  {
    assert Lower("minutes") != "hours" by {
      assert |Lower("minutes")| == 7;
    }
  }

  /** The documented example: 2.5 hours are logged as 150 minutes, whatever the case of the unit. */
  lemma TwoAndAHalfHours()
    ensures MinutesOf(2.5, "hours") == 150.0
    ensures MinutesOf(2.5, "Hours") == 150.0
    ensures MinutesOf(90.0, "minutes") == 90.0
  {
    assert Lower("hours") == "hours";
    assert Lower("Hours") == "hours";
    assert |Lower("minutes")| == 7;
  }

  /** The fields of every time-entry request body, single or bulk. */
  const EntryFields: set<string> :=
    {"mspCustomDomain", "ticketId", "technicianId", "timeSpent", "notes", "billable", "workDate"}

  /** The request body of `create_psa_time_entry`. */
  function SingleEntryBody(domain: string, ticketId: string, techId: string, minutes: real,
                           notes: string, workDate: string, billable: bool, today: string): Dict {
    map["mspCustomDomain" := Str(domain), "ticketId" := Str(ticketId), "technicianId" := Str(techId),
        "timeSpent" := Float(minutes), "notes" := Str(notes), "billable" := Bool(billable),
        "workDate" := Str(if workDate != "" then workDate else today)]
  }

  /** `create_psa_time_entry`: one call carrying the time in minutes, dated `work_date`
      when one is given and today otherwise. */
  function CreatePsaTimeEntry(domain: string, ticketId: string, techId: string, timeSpent: real,
                              notes: string, workDate: string, billable: bool, unit: string,
                              today: string, answer: Backend): (r: Run)
    ensures |r.calls| == 1 && r.calls[0].body.Some? && r.calls[0].body.value.Obj?
    ensures var body := r.calls[0].body.value.fields;
            && "timeSpent" in body && body["timeSpent"] == Float(MinutesOf(timeSpent, unit))
            && "workDate" in body && (workDate != "" ==> body["workDate"] == Str(workDate))
            && (workDate == "" ==> body["workDate"] == Str(today))
    ensures r.reply == Done(CreateTimeEntry(answer(0, r.calls[0])))
  {
    var req := TimeEntryRequest(SingleEntryBody(domain, ticketId, techId, MinutesOf(timeSpent, unit),
                                                notes, workDate, billable, today));
    Run(Done(CreateTimeEntry(answer(0, req))), [req])
  }

  /** A bulk entry whose `time_minutes`, when present, is a whole number. */
  predicate WholeMinutes(entry: Dict) {
    "time_minutes" in entry ==> entry["time_minutes"].Int?
  }

  /** `entry.get("time_minutes", 0)`. */
  function EntryMinutes(entry: Dict): int
    requires WholeMinutes(entry)
  {
    if "time_minutes" in entry then entry["time_minutes"].i else 0
  }

  /** The request body `log_bulk_time_entries` builds for one entry: the entry's own
      values, with documented defaults for the ones it leaves out. */
  function BulkEntryBody(domain: string, techId: string, entry: Dict, today: string): (d: Dict)
    ensures "ticketId" in d && "timeSpent" in d && "workDate" in d
    ensures d["ticketId"] == Get(entry, "ticket_id")
    ensures "time_minutes" in entry ==> d["timeSpent"] == entry["time_minutes"]
    ensures "work_date" in entry ==> d["workDate"] == entry["work_date"]
    ensures "work_date" !in entry ==> d["workDate"] == Str(today)
  {
    map["mspCustomDomain" := Str(domain), "ticketId" := Get(entry, "ticket_id"), "technicianId" := Str(techId),
        "timeSpent" := GetOr(entry, "time_minutes", Int(0)), "notes" := GetOr(entry, "notes", Str("")),
        "billable" := GetOr(entry, "billable", Bool(true)), "workDate" := GetOr(entry, "work_date", Str(today))]
  }

  /** A bulk entry is sent with exactly the fields of a single entry. */
  lemma EntryBodiesShareFields(domain: string, ticketId: string, techId: string, minutes: real, notes: string,
                               workDate: string, billable: bool, entry: Dict, today: string)
    ensures SingleEntryBody(domain, ticketId, techId, minutes, notes, workDate, billable, today).Keys == EntryFields
    ensures BulkEntryBody(domain, techId, entry, today).Keys == EntryFields
  {
  }

  /** The request for the i-th bulk entry. */
  function BulkRequest(domain: string, techId: string, entry: Dict, today: string): Request {
    TimeEntryRequest(BulkEntryBody(domain, techId, entry, today))
  }

  /** What the backend made of each bulk entry, the i-th entry being the i-th call. */
  function BulkResults(domain: string, techId: string, entries: seq<Dict>, today: string, answer: Backend): (rs: seq<Dict>)
    ensures |rs| == |entries|
    ensures forall i :: 0 <= i < |rs| ==> rs[i] == CreateTimeEntry(answer(i, BulkRequest(domain, techId, entries[i], today)))
    ensures forall i :: 0 <= i < |rs| ==> LoggedShape(rs[i])
  {
    seq(|entries|, i requires 0 <= i < |entries| =>
      CreateTimeEntry(answer(i, BulkRequest(domain, techId, entries[i], today))))
  }

  /** A successful result of `create_time_entry` holds the created entry as an object. */
  predicate LoggedShape(result: Dict) {
    Succeeded(result) ==> "time_entry" in result && result["time_entry"].Obj?
  }

  /** The minutes of the entries whose result reports success. */
  function MinutesLogged(entries: seq<Dict>, rs: seq<Dict>): (n: int)
    requires |entries| == |rs|
    requires forall i :: 0 <= i < |entries| ==> WholeMinutes(entries[i])
  {
    if rs == [] then 0
    else
      var n := |rs| - 1;
      MinutesLogged(entries[..n], rs[..n]) + (if Succeeded(rs[n]) then EntryMinutes(entries[n]) else 0)
  }

  /** When nothing succeeded, no minutes are logged, whatever the entries said. */
  lemma {:induction false} NothingLoggedWithoutSuccess(entries: seq<Dict>, rs: seq<Dict>)
    requires |entries| == |rs|
    requires forall i :: 0 <= i < |entries| ==> WholeMinutes(entries[i])
    requires CountSucceeded(rs) == 0
    ensures MinutesLogged(entries, rs) == 0
  {
    if rs != [] {
      var n := |rs| - 1;
      NothingLoggedWithoutSuccess(entries[..n], rs[..n]);
    }
  }

  /** The per-entry report: ticket, the result's success flag, the minutes, and either
      the created entry's id or the failure's error. */
  function EntryReport(entry: Dict, result: Dict): (d: Dict)
    requires LoggedShape(result)
    ensures Succeeded(d) <==> Succeeded(result)
    ensures "time_entry_id" in d <==> Succeeded(result)
    ensures "error" in d <==> !Succeeded(result)
  {
    var base := map["ticket_id" := Get(entry, "ticket_id"), "success" := GetOr(result, "success", Bool(false)),
                    "minutes" := GetOr(entry, "time_minutes", Int(0))];
    if Succeeded(result) then base["time_entry_id" := Get(result["time_entry"].fields, "id")]
    else base["error" := GetOr(result, "error", Str("Unknown error"))]
  }

  /** A report carries an id exactly when its entry was logged, and an error otherwise. */
  lemma EntryReportShape(entry: Dict, result: Dict)
    requires LoggedShape(result)
    ensures var d := EntryReport(entry, result);
            && ("time_entry_id" in d <==> Succeeded(result))
            && ("error" in d <==> !Succeeded(result))
            && d["ticket_id"] == Get(entry, "ticket_id")
            && (Succeeded(result) ==> Truthy(d["success"]))
  {
  }

  /** The summary dict `log_bulk_time_entries` returns, total_hours_logged aside. */
  function BulkSummary(total: nat, successful: nat, failed: nat, minutes: int, reports: seq<Json>): Dict {
    map["total_entries" := Int(total), "successful" := Int(successful), "failed" := Int(failed),
        "total_minutes_logged" := Int(minutes), "entries" := Arr(reports),
        "overall_success" := Bool(failed == 0)]
  }

  /** One more result extends the count and the logged minutes by that result alone. */
  lemma BulkStep(entries: seq<Dict>, rs: seq<Dict>, i: nat)
    requires |entries| == |rs| && i < |rs|
    requires forall k :: 0 <= k < |entries| ==> WholeMinutes(entries[k])
    ensures CountSucceeded(rs[..i + 1]) == CountSucceeded(rs[..i]) + (if Succeeded(rs[i]) then 1 else 0)
    ensures MinutesLogged(entries[..i + 1], rs[..i + 1]) ==
              MinutesLogged(entries[..i], rs[..i]) + (if Succeeded(rs[i]) then EntryMinutes(entries[i]) else 0)
  {
    assert rs[..i + 1][..i] == rs[..i];
    assert entries[..i + 1][..i] == entries[..i];
  }

  /** The per-entry reports of a bulk log, in entry order. */
  function BulkReports(entries: seq<Dict>, rs: seq<Dict>): (reports: seq<Json>)
    requires |entries| == |rs| && forall i :: 0 <= i < |rs| ==> LoggedShape(rs[i])
    ensures |reports| == |entries|
  {
    seq(|entries|, i requires 0 <= i < |entries| => Obj(EntryReport(entries[i], rs[i])))
  }

  /** The accumulation loop of `log_bulk_time_entries` over the results, in entry order:
      successes and failures counted, the minutes of logged entries summed, one report each. */
  method Tally(entries: seq<Dict>, rs: seq<Dict>) returns (successful: nat, failed: nat, minutes: int, reports: seq<Json>)
    requires |entries| == |rs|
    requires forall i :: 0 <= i < |entries| ==> WholeMinutes(entries[i])
    requires forall i :: 0 <= i < |rs| ==> LoggedShape(rs[i])
    ensures successful == CountSucceeded(rs) && successful + failed == |rs|
    ensures minutes == MinutesLogged(entries, rs)
    ensures reports == BulkReports(entries, rs)
  {
    successful, failed, minutes, reports := 0, 0, 0, [];
    for i := 0 to |rs|
      invariant successful == CountSucceeded(rs[..i])
      invariant successful + failed == i
      invariant minutes == MinutesLogged(entries[..i], rs[..i])
      invariant |reports| == i && forall k :: 0 <= k < i ==> reports[k] == Obj(EntryReport(entries[k], rs[k]))
    {
      BulkStep(entries, rs, i);
      if Succeeded(rs[i]) {
        successful := successful + 1;
        minutes := minutes + EntryMinutes(entries[i]);
      } else {
        failed := failed + 1;
      }
      reports := reports + [Obj(EntryReport(entries[i], rs[i]))];
    }
    assert rs[..|rs|] == rs;
    assert entries[..|entries|] == entries;
  }

  /** `log_bulk_time_entries`: one call per entry, in order; the counts, the minutes of
      the logged entries, and one report per entry. */
  method LogBulkTimeEntries(domain: string, techId: string, entries: seq<Dict>, today: string, answer: Backend)
    returns (r: Run)
    requires forall i :: 0 <= i < |entries| ==> WholeMinutes(entries[i])
    ensures |r.calls| == |entries|
    ensures forall i :: 0 <= i < |entries| ==> r.calls[i] == BulkRequest(domain, techId, entries[i], today)
    ensures var rs := BulkResults(domain, techId, entries, today, answer);
            var ok := CountSucceeded(rs);
            r.reply == Done(BulkSummary(|entries|, ok, |entries| - ok, MinutesLogged(entries, rs), BulkReports(entries, rs)))
  {
    var rs := BulkResults(domain, techId, entries, today, answer);
    var successful, failed, minutes, reports := Tally(entries, rs);
    var calls := seq(|entries|, i requires 0 <= i < |entries| => BulkRequest(domain, techId, entries[i], today));
    r := Run(Done(BulkSummary(|entries|, successful, failed, minutes, reports)), calls);
  }

  /** The bulk log reports overall success exactly when every entry was logged. */
  lemma BulkOverallSuccess(entries: seq<Dict>, rs: seq<Dict>)
    requires |entries| == |rs|
    requires forall i :: 0 <= i < |entries| ==> WholeMinutes(entries[i])
    ensures var ok := CountSucceeded(rs);
            var d := BulkSummary(|entries|, ok, |entries| - ok, MinutesLogged(entries, rs), []);
            Truthy(d["overall_success"]) <==> forall i :: 0 <= i < |rs| ==> Succeeded(rs[i])
  {
    AllSucceeded(rs);
  }

  /** Two entries of 30 and 60 minutes, the second failing: one success, one failure,
      30 minutes logged, and no overall success. */
  lemma OneOfTwoLogged(first: Dict, second: Dict, rs: seq<Dict>)
    requires first == map["ticket_id" := Str("1"), "time_minutes" := Int(30)]
    requires second == map["ticket_id" := Str("2"), "time_minutes" := Int(60)]
    requires |rs| == 2 && Succeeded(rs[0]) && !Succeeded(rs[1])
    ensures var ok := CountSucceeded(rs);
            var d := BulkSummary(2, ok, 2 - ok, MinutesLogged([first, second], rs), []);
            && d["successful"] == Int(1) && d["failed"] == Int(1)
            && d["total_minutes_logged"] == Int(30) && d["overall_success"] == Bool(false)
  {
    var entries := [first, second];
    assert rs[..1][..0] == [] && entries[..1][..0] == [];
    assert CountSucceeded(rs[..1]) == 1;
    assert MinutesLogged(entries[..1], rs[..1]) == 30;
    assert CountSucceeded(rs) == 1;
    assert MinutesLogged(entries, rs) == 30;
  }

  /** The request body of `log_time_with_completion`: billable, dated today. */
  function CompletionEntryBody(domain: string, ticketId: string, techId: string, minutes: int,
                               notes: string, today: string): Dict {
    map["mspCustomDomain" := Str(domain), "ticketId" := Str(ticketId), "technicianId" := Str(techId),
        "timeSpent" := Int(minutes), "notes" := Str(notes), "billable" := Bool(true), "workDate" := Str(today)]
  }

  /** `log_time_with_completion`: log the time; only if that succeeded and closing was
      asked for, close the ticket on the given board. */
  function LogTimeWithCompletion(domain: string, ticketId: string, techId: string, minutes: int,
                                 notes: string, boardId: int, closeTicket: bool,
                                 today: string, answer: Backend): (r: Run)
    ensures var logReq := TimeEntryRequest(CompletionEntryBody(domain, ticketId, techId, minutes, notes, today));
            var logged := CreateTimeEntry(answer(0, logReq));
            var closes := Succeeded(logged) && closeTicket;
            var closeReq := PsaTicketing.CloseTicketRequest(domain, ticketId, Some(boardId));
            var closed := PsaTicketing.CloseTicket(answer(1, closeReq));
            && r.calls == [logReq] + (if closes then [closeReq] else [])
            && r.reply.Done?
            && r.reply.value.Keys == {"time_entry", "ticket_closure", "overall_success"}
            && r.reply.value["time_entry"] == Obj(logged)
            && r.reply.value["ticket_closure"] == (if closes then Obj(closed) else Null)
            && r.reply.value["overall_success"] == Bool(Succeeded(logged) && (closeTicket ==> Succeeded(closed)))
  {
    var logReq := TimeEntryRequest(CompletionEntryBody(domain, ticketId, techId, minutes, notes, today));
    var logged := CreateTimeEntry(answer(0, logReq));
    if !Succeeded(logged) then
      Run(Done(map["time_entry" := Obj(logged), "ticket_closure" := Null, "overall_success" := Bool(false)]), [logReq])
    else if !closeTicket then
      Run(Done(map["time_entry" := Obj(logged), "ticket_closure" := Null, "overall_success" := Bool(true)]), [logReq])
    else
      var closeReq := PsaTicketing.CloseTicketRequest(domain, ticketId, Some(boardId));
      var closed := PsaTicketing.CloseTicket(answer(1, closeReq));
      Run(Done(map["time_entry" := Obj(logged), "ticket_closure" := Obj(closed),
                   "overall_success" := Bool(Succeeded(closed))]), [logReq, closeReq])
  }
}
