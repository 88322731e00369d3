/**
 * The generic PSA ticketing adapter: diagnostic Q&A, ticket creation, notes,
 * closing and status. Its status tables give 400 and 404 their own labels.
 */
module PsaTicketing {
  import opened Wrappers
  import opened Json
  import opened Transport
  import opened Envelope

  /** An optional string argument is sent only when it is truthy (present and non-empty). */
  predicate Given(arg: Option<string>) {
    arg.Some? && arg.value != ""
  }

  /** The JSON body of `get_ticket_diagnostic_qa`. */
  function DiagnosticBody(domain: string, message: string, userId: Option<string>, techId: Option<string>): (b: Dict)
    ensures "mspCustomDomain" in b && b["mspCustomDomain"] == Str(domain)
    ensures "userMessage" in b && b["userMessage"] == Str(message)
    ensures "userId" in b <==> Given(userId)
    ensures "userId" in b ==> b["userId"] == Str(userId.value)
    ensures "techId" in b <==> Given(techId)
    ensures "techId" in b ==> b["techId"] == Str(techId.value)
    ensures b.Keys <= {"mspCustomDomain", "userMessage", "userId", "techId"}
  {
    var base := map["mspCustomDomain" := Str(domain), "userMessage" := Str(message)];
    var withUser := if Given(userId) then base["userId" := Str(userId.value)] else base;
    if Given(techId) then withUser["techId" := Str(techId.value)] else withUser
  }

  function DiagnosticRequest(domain: string, message: string, userId: Option<string>, techId: Option<string>): (r: Request)
    ensures r.verb == POST && r.params == map[]
    ensures r.body == Some(Obj(DiagnosticBody(domain, message, userId, techId)))
  {
    Request(POST, "/getTicketCategorizationDiagnosticQandA", map[], Some(Obj(DiagnosticBody(domain, message, userId, techId))))
  }

  const MissingIdMessage := "Either userId or techId must be provided"

  /** `get_ticket_diagnostic_qa`: a 400 gets a fixed explanation instead of the backend text. */
  function Diagnostic(o: Outcome): (r: Dict)
    ensures Succeeded(r) <==> o.Responded? && o.status == 200 && o.body.Parsed?
    ensures Succeeded(r) ==> r == Accepted("diagnostic_qa", o.body.value)
    ensures o.Responded? && o.status == 400 ==> r == Rejected("Bad Request", MissingIdMessage)
    ensures o.Responded? && o.status !in {200, 400} ==> r == Rejected(StatusLabel(o.status), o.text)
    ensures !o.Responded? ==> r == Crashed(ExceptionText(o))
  {
    match o
    case Responded(status, text, body) =>
      if status == 200 then
        match body
        case Parsed(v) => Accepted("diagnostic_qa", v)
        case Undecodable(reason) => Crashed(reason)
      else if status == 400 then
        Rejected("Bad Request", MissingIdMessage)
      else
        Rejected(StatusLabel(status), text)
    case TimedOut(reason) => Crashed(reason)
    case Failed(reason) => Crashed(reason)
  }

  function CreateTicketRequest(domain: string, ticket: Dict): (r: Request)
    ensures r.verb == POST && r.params == DomainParam(domain) && r.body == Some(Obj(ticket))
  {
    Request(POST, "/createTicket", DomainParam(domain), Some(Obj(ticket)))
  }

  /** `create_ticket` and `add_notes_to_ticket`: a 400 is "Bad Request" carrying the backend text. */
  function BadRequestAware(key: string, o: Outcome): (r: Dict)
    requires PayloadKey(key)
    ensures Succeeded(r) <==> o.Responded? && o.status == 200 && o.body.Parsed?
    ensures Succeeded(r) ==> r == Accepted(key, o.body.value)
    ensures o.Responded? && o.status == 400 ==> r == Rejected("Bad Request", o.text)
    ensures o.Responded? && o.status !in {200, 400} ==> r == Rejected(StatusLabel(o.status), o.text)
    ensures !o.Responded? ==> r == Crashed(ExceptionText(o))
  {
    match o
    case Responded(status, text, body) =>
      if status == 200 then
        match body
        case Parsed(v) => Accepted(key, v)
        case Undecodable(reason) => Crashed(reason)
      else if status == 400 then
        Rejected("Bad Request", text)
      else
        Rejected(StatusLabel(status), text)
    case TimedOut(reason) => Crashed(reason)
    case Failed(reason) => Crashed(reason)
  }

  function CreateTicket(o: Outcome): (r: Dict)
    ensures Succeeded(r) <==> o.Responded? && o.status == 200 && o.body.Parsed?
    ensures Succeeded(r) ==> r == Accepted("ticket", o.body.value)
    ensures o.Responded? && o.status == 400 ==> r == Rejected("Bad Request", o.text)
  {
    BadRequestAware("ticket", o)
  }

  function AddNotesRequest(domain: string, ticketId: string, notes: Dict): (r: Request)
    ensures r.verb == POST && r.body == Some(Obj(notes))
    ensures r.params == map["mspCustomDomain" := Str(domain), "ticketId" := Str(ticketId)]
  {
    Request(POST, "/addNotesToTicket", map["mspCustomDomain" := Str(domain), "ticketId" := Str(ticketId)], Some(Obj(notes)))
  }

  function AddNotes(o: Outcome): (r: Dict)
    ensures Succeeded(r) <==> o.Responded? && o.status == 200 && o.body.Parsed?
    ensures Succeeded(r) ==> r == Accepted("result", o.body.value)
    ensures o.Responded? && o.status == 400 ==> r == Rejected("Bad Request", o.text)
  {
    BadRequestAware("result", o)
  }

  function TicketNotesRequest(domain: string, ticketId: string, isDetailed: bool): (r: Request)
    ensures r.verb == GET && r.body.None?
    ensures r.params == map["mspCustomDomain" := Str(domain), "ticketId" := Str(ticketId), "isdetailed" := Bool(isDetailed)]
  {
    Request(GET, "/getTicketNotes",
            map["mspCustomDomain" := Str(domain), "ticketId" := Str(ticketId), "isdetailed" := Bool(isDetailed)], None)
  }

  /** `get_ticket_notes`: 404 is "Not Found" with a fixed explanation. */
  function TicketNotes(o: Outcome): (r: Dict)
    ensures Succeeded(r) <==> o.Responded? && o.status == 200 && o.body.Parsed?
    ensures Succeeded(r) ==> r == Accepted("notes", o.body.value)
    ensures o.Responded? && o.status == 404 ==> r == Rejected("Not Found", "Ticket or notes not found")
    ensures o.Responded? && o.status !in {200, 404} ==> r == Rejected(StatusLabel(o.status), o.text)
    ensures !o.Responded? ==> r == Crashed(ExceptionText(o))
  {
    match o
    case Responded(status, text, body) =>
      if status == 200 then
        match body
        case Parsed(v) => Accepted("notes", v)
        case Undecodable(reason) => Crashed(reason)
      else if status == 404 then
        Rejected("Not Found", "Ticket or notes not found")
      else
        Rejected(StatusLabel(status), text)
    case TimedOut(reason) => Crashed(reason)
    case Failed(reason) => Crashed(reason)
  }

  /** The query of `close_ticket`: `boardId` is sent whenever it is not None, so 0 is sent too. */
  function CloseTicketRequest(domain: string, ticketId: string, boardId: Option<int>): (r: Request)
    ensures r.verb == POST && r.body.None?
    ensures "boardId" in r.params <==> boardId.Some?
    ensures boardId.Some? ==> r.params["boardId"] == Int(boardId.value)
    ensures r.params - {"boardId"} == map["mspCustomDomain" := Str(domain), "ticketId" := Str(ticketId)]
  {
    var params := map["mspCustomDomain" := Str(domain), "ticketId" := Str(ticketId)];
    Request(POST, "/closeTicket", if boardId.Some? then params["boardId" := Int(boardId.value)] else params, None)
  }

  /** `close_ticket` has no 400 or 404 special case. */
  function CloseTicket(o: Outcome): (r: Dict)
    ensures Succeeded(r) <==> o.Responded? && o.status == 200 && o.body.Parsed?
    ensures o.Responded? && o.status == 400 ==> r == Rejected(StatusLabel(400), o.text)
  {
    OkOrStatus("result", o)
  }

  function TicketStatusRequest(domain: string, ticketId: string): (r: Request)
    ensures r.verb == GET && r.body.None?
    ensures r.params == map["mspCustomDomain" := Str(domain), "ticketId" := Str(ticketId)]
  {
    Request(GET, "/getTicketStatus", map["mspCustomDomain" := Str(domain), "ticketId" := Str(ticketId)], None)
  }

  /** `get_ticket_status`: 404 and 400 both get fixed explanations. */
  function TicketStatus(o: Outcome): (r: Dict)
    ensures Succeeded(r) <==> o.Responded? && o.status == 200 && o.body.Parsed?
    ensures Succeeded(r) ==> r == Accepted("status", o.body.value)
    ensures o.Responded? && o.status == 404 ==> r == Rejected("Not Found", "Ticket not found")
    ensures o.Responded? && o.status == 400 ==> r == Rejected("Bad Request", "Ticket ID is required")
    ensures o.Responded? && o.status !in {200, 400, 404} ==> r == Rejected(StatusLabel(o.status), o.text)
    ensures !o.Responded? ==> r == Crashed(ExceptionText(o))
  {
    match o
    case Responded(status, text, body) =>
      if status == 200 then
        match body
        case Parsed(v) => Accepted("status", v)
        case Undecodable(reason) => Crashed(reason)
      else if status == 404 then
        Rejected("Not Found", "Ticket not found")
      else if status == 400 then
        Rejected("Bad Request", "Ticket ID is required")
      else
        Rejected(StatusLabel(status), text)
    case TimedOut(reason) => Crashed(reason)
    case Failed(reason) => Crashed(reason)
  }

  /** The six methods of the adapter, for stating their policy tables together. */
  datatype Method = DiagnosticQa | CreateTicketMethod | AddNotesMethod | TicketNotesMethod | CloseTicketMethod | TicketStatusMethod

  function Respond(m: Method, o: Outcome): Dict {
    match m
    case DiagnosticQa => Diagnostic(o)
    case CreateTicketMethod => CreateTicket(o)
    case AddNotesMethod => AddNotes(o)
    case TicketNotesMethod => TicketNotes(o)
    case CloseTicketMethod => CloseTicket(o)
    case TicketStatusMethod => TicketStatus(o)
  }

  /** Each method's status table, in the shared policy form. */
  function PolicyOf(m: Method): (p: Policy)
    ensures WellFormedPolicy(p)
  {
    match m
    case DiagnosticQa => Policy(PayloadAt("diagnostic_qa"), None, map[400 := Rejection("Bad Request", Some(MissingIdMessage))])
    case CreateTicketMethod => Policy(PayloadAt("ticket"), None, map[400 := Rejection("Bad Request", None)])
    case AddNotesMethod => Policy(PayloadAt("result"), None, map[400 := Rejection("Bad Request", None)])
    case TicketNotesMethod => Policy(PayloadAt("notes"), None, map[404 := Rejection("Not Found", Some("Ticket or notes not found"))])
    case CloseTicketMethod => Policy(PayloadAt("result"), None, map[])
    case TicketStatusMethod =>
      Policy(PayloadAt("status"), None,
             map[404 := Rejection("Not Found", Some("Ticket not found")),
                 400 := Rejection("Bad Request", Some("Ticket ID is required"))])
  }

  /** Every method of the adapter is the shared executor under its table. */
  lemma RespondFollowsPolicy(m: Method, o: Outcome)
    ensures Respond(m, o) == Execute(PolicyOf(m), o)
  {
  }
}
