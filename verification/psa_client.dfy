/**
 * The ticket-listing client, the one component with a synthetic-data mode.
 * Its errors are one-element lists rather than envelopes.
 */
module PsaClient {
  import opened Wrappers
  import opened PyText
  import opened Json
  import opened Transport

  /** Mock mode is on exactly when USE_MOCK_DATA, lower-cased, is "true" (absent means "false"). */
  function UseMock(setting: Option<string>): (on: bool)
    ensures setting.None? ==> !on
    ensures on <==> setting.Some? && |setting.value| == 4
                    && forall i :: 0 <= i < 4 ==> LowerChar(setting.value[i]) == "true"[i]
  {
    var lowered := Lower(setting.GetOr("false"));
    assert lowered == "true" <==> |lowered| == 4 && forall i :: 0 <= i < 4 ==> lowered[i] == "true"[i];
    lowered == "true"
  }

  function MockTicket(id: string, title: string, status: string, priority: string,
                      created: string, updated: string): Json {
    Obj(map["id" := Str(id), "title" := Str(title), "status" := Str(status), "priority" := Str(priority),
            "created_at" := Str(created), "updated_at" := Str(updated)])
  }

  /** The two fixed sample tickets. */
  const MockTickets: Json :=
    Arr([MockTicket("1", "Printer not working", "Open", "High", "2024-01-15T10:00:00Z", "2024-01-15T14:30:00Z"),
         MockTicket("2", "Email issues", "In Progress", "Medium", "2024-01-14T09:00:00Z", "2024-01-15T11:00:00Z")])

  function TicketsRequest(domain: string): (r: Request)
    ensures r.verb == GET && r.body.None? && r.params == map["domain" := Str(domain)]
  {
    Request(GET, "/api/tickets", map["domain" := Str(domain)], None)
  }

  /** The list the client returns, and the requests it made. */
  datatype Listing = Listing(tickets: Json, calls: seq<Request>)

  /** The start of the error of a rejected status, followed by the status code. */
  const HttpErrorPrefix := "HTTP error: "

  /** A one-element error list. */
  function ErrorList(error: string, message: string): Json {
    Arr([Obj(map["error" := Str(error), "message" := Str(message)])])
  }

  /** `get_tickets_by_domain`. `raise_for_status` rejects every status outside 2xx;
      `statusErrorText` is the text of the exception it raises. */
  function TicketsByDomain(useMock: bool, domain: string, answer: Backend, statusErrorText: string): (r: Listing)
    ensures useMock ==> r == Listing(MockTickets, [])
    ensures !useMock ==> r.calls == [TicketsRequest(domain)]
    ensures !useMock ==>
              var o := answer(0, TicketsRequest(domain));
              && (o.Responded? && 200 <= o.status < 300 && o.body.Parsed? ==> r.tickets == o.body.value)
              && (o.Responded? && !(200 <= o.status < 300) ==>
                    r.tickets == ErrorList(HttpErrorPrefix + DecimalString(o.status), statusErrorText))
              && (o.Responded? && 200 <= o.status < 300 && o.body.Undecodable? ==>
                    r.tickets == ErrorList("Connection error", o.body.reason))
              && (!o.Responded? ==> r.tickets == ErrorList("Connection error", o.reason))
  {
    if useMock then Listing(MockTickets, [])
    else
      var req := TicketsRequest(domain);
      var tickets :=
        match answer(0, req)
        case Responded(status, _, body) =>
          if 200 <= status < 300 then
            match body
            case Parsed(v) => v
            case Undecodable(reason) => ErrorList("Connection error", reason)
          else ErrorList(HttpErrorPrefix + DecimalString(status), statusErrorText)
        case TimedOut(reason) => ErrorList("Connection error", reason)
        case Failed(reason) => ErrorList("Connection error", reason);
      Listing(tickets, [req])
  }

  /** Mock mode yields exactly two records, with ids "1" and "2". */
  lemma MockModeHasTwoTickets(domain: string, answer: Backend, statusErrorText: string)
    ensures var r := TicketsByDomain(true, domain, answer, statusErrorText);
            && r.tickets.Arr? && |r.tickets.items| == 2
            && r.tickets.items[0].Obj? && r.tickets.items[0].fields["id"] == Str("1")
            && r.tickets.items[1].Obj? && r.tickets.items[1].fields["id"] == Str("2")
            && r.calls == []
  {
  }

  /** Outside mock mode the client returns the decoded body of a 2xx, and nothing else
      but a one-element error list: "Connection error" for a failed call or an
      undecodable body, or "HTTP error: N" whose N reads back as the rejected status. */
  lemma TicketsOrOneError(domain: string, answer: Backend, statusErrorText: string)
    ensures var o := answer(0, TicketsRequest(domain));
            var r := TicketsByDomain(false, domain, answer, statusErrorText);
            var decoded := o.Responded? && 200 <= o.status < 300 && o.body.Parsed?;
            && (decoded ==> r.tickets == o.body.value)
            && (!decoded ==>
                  && r.tickets.Arr? && |r.tickets.items| == 1 && r.tickets.items[0].Obj?
                  && "error" in r.tickets.items[0].fields && r.tickets.items[0].fields["error"].Str?
                  && var e := r.tickets.items[0].fields["error"].s;
                  && (e == "Connection error" <==> !(o.Responded? && !(200 <= o.status < 300)))
                  && (e != "Connection error" ==>
                        && |e| > |HttpErrorPrefix| && e[..|HttpErrorPrefix|] == HttpErrorPrefix
                        && ParseDecimal(e[|HttpErrorPrefix|..]) == Some(o.status)))
  {
    var o := answer(0, TicketsRequest(domain));
    if o.Responded? && !(200 <= o.status < 300) {
      var e := HttpErrorPrefix + DecimalString(o.status);
      assert e[|HttpErrorPrefix|..] == DecimalString(o.status);
      assert e[..|HttpErrorPrefix|] == HttpErrorPrefix;
      DecimalRoundTrip(o.status);
      assert e != "Connection error" by {
        assert e[0] == 'H';
      }
    }
  }
}
