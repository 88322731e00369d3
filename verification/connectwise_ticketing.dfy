/**
 * The ConnectWise ticketing adapter: AI categorization, diagnostic Q&A and
 * ticket CRUD on boards. Every method uses the 200-versus-other mapping,
 * each under its own payload key, except `complete_ticket`.
 */
module ConnectWiseTicketing {
  import opened Wrappers
  import opened Json
  import opened Transport
  import opened Envelope

  datatype Method =
    | Categorization
    | BoardCategorization
    | DiagnosticQa
    | CreateBoardTicket
    | UpdateTicket
    | TicketById
    | TicketNotes
    | AddNote

  function PayloadKeyOf(m: Method): (key: string)
    ensures PayloadKey(key)
  {
    match m
    case Categorization => "categorization"
    case BoardCategorization => "board_categorization"
    case DiagnosticQa => "diagnostic_qa"
    case CreateBoardTicket => "ticket"
    case UpdateTicket => "updated_ticket"
    case TicketById => "ticket"
    case TicketNotes => "notes"
    case AddNote => "note"
  }

  /** Every method: the decoded body under its key on 200, "Failed with status N" otherwise. */
  function Respond(m: Method, o: Outcome): (r: Dict)
    ensures Succeeded(r) <==> o.Responded? && o.status == 200 && o.body.Parsed?
    ensures Succeeded(r) ==> r == Accepted(PayloadKeyOf(m), o.body.value)
    ensures o.Responded? && o.status != 200 ==> r == Rejected(StatusLabel(o.status), o.text)
    ensures !o.Responded? ==> r == Crashed(ExceptionText(o))
  {
    OkOrStatus(PayloadKeyOf(m), o)
  }

  /** Every method except `complete_ticket` is the shared executor with no special statuses. */
  lemma RespondFollowsPolicy(m: Method, o: Outcome)
    ensures Respond(m, o) == Execute(Policy(PayloadAt(PayloadKeyOf(m)), None, map[]), o)
  {
    OkOrStatusFollowsPolicy(PayloadKeyOf(m), o);
  }

  /** Which of the three AI endpoints a categorization-style call goes to. */
  datatype Analysis = Categorize | CategorizeOnBoard | Diagnose

  function AnalysisPath(a: Analysis): string {
    match a
    case Categorize => "/getTicketCategorization"
    case CategorizeOnBoard => "/getTicketBoardCategorization"
    case Diagnose => "/getTicketBoardCategorizationDiagnosticQandA"
  }

  /** The request of `get_ticket_categorization`, `get_ticket_board_categorization` and `get_ticket_diagnostic_qa`. */
  function AnalysisRequest(a: Analysis, domain: string, userId: string, message: string): (r: Request)
    ensures r.verb == POST && r.params == map[]
    ensures r.body == Some(Obj(map["mspCustomDomain" := Str(domain), "userId" := Str(userId), "userMessage" := Str(message)]))
  {
    Request(POST, AnalysisPath(a), map[],
            Some(Obj(map["mspCustomDomain" := Str(domain), "userId" := Str(userId), "userMessage" := Str(message)])))
  }

  /** `create_board_ticket` always sends the domain and adds `userId` only when it is truthy. */
  function CreateBoardTicketRequest(domain: string, details: Dict, userId: Option<string>): (r: Request)
    ensures r.verb == POST && r.body == Some(Obj(details))
    ensures "mspCustomDomain" in r.params && r.params["mspCustomDomain"] == Str(domain)
    ensures "userId" in r.params <==> userId.Some? && userId.value != ""
    ensures "userId" in r.params ==> r.params["userId"] == Str(userId.value)
    ensures r.params.Keys <= {"mspCustomDomain", "userId"}
  {
    var params := if userId.Some? && userId.value != "" then DomainParam(domain)["userId" := Str(userId.value)]
                  else DomainParam(domain);
    Request(POST, "/createBoardTicket", params, Some(Obj(details)))
  }

  function UpdateTicketRequest(domain: string, ticketId: string, details: Dict): (r: Request)
    ensures r.verb == PUT && r.params == DomainParam(domain) && r.body == Some(Obj(details))
    ensures r.path == "/updateTicket/" + ticketId
  {
    Request(PUT, "/updateTicket/" + ticketId, DomainParam(domain), Some(Obj(details)))
  }

  function TicketByIdRequest(domain: string, ticketId: string): (r: Request)
    ensures r.verb == GET && r.body.None?
    ensures r.params == map["mspCustomDomain" := Str(domain), "ticketId" := Str(ticketId)]
  {
    Request(GET, "/getTicketsById", map["mspCustomDomain" := Str(domain), "ticketId" := Str(ticketId)], None)
  }

  /** `get_ticket_notes` picks the ConnectWise-detailed endpoint exactly when `detailed` is set. */
  function TicketNotesRequest(domain: string, ticketId: string, detailed: bool): (r: Request)
    ensures r.verb == GET && r.body.None?
    ensures r.path == (if detailed then "/getConnectWiseTicketNotesById" else "/getTicketNotesById")
    ensures r.params == map["mspCustomDomain" := Str(domain), "ticketId" := Str(ticketId)]
  {
    var path := if detailed then "/getConnectWiseTicketNotesById" else "/getTicketNotesById";
    Request(GET, path, map["mspCustomDomain" := Str(domain), "ticketId" := Str(ticketId)], None)
  }

  /** `add_note_to_ticket`: the three flags travel as query parameters, the note as the body. */
  function AddNoteRequest(domain: string, ticketId: int, info: string, text: string,
                          detailDescription: bool, internalAnalysis: bool, resolution: bool): (r: Request)
    ensures r.verb == POST
    ensures r.body == Some(Obj(map["info" := Str(info), "text" := Str(text)]))
    ensures r.params == map["mspCustomDomain" := Str(domain), "ticketId" := Int(ticketId),
                            "detailDescriptionFlag" := Bool(detailDescription),
                            "internalAnalysisFlag" := Bool(internalAnalysis),
                            "resolutionFlag" := Bool(resolution)]
  {
    Request(POST, "/addNoteToTicketObject",
            map["mspCustomDomain" := Str(domain), "ticketId" := Int(ticketId),
                "detailDescriptionFlag" := Bool(detailDescription),
                "internalAnalysisFlag" := Bool(internalAnalysis),
                "resolutionFlag" := Bool(resolution)],
            Some(Obj(map["info" := Str(info), "text" := Str(text)])))
  }

  /** `complete_ticket` adds `notes` and `status` only when they are truthy. */
  function CompleteTicketRequest(domain: string, ticketId: string, boardId: int, techId: string,
                                 notes: Option<string>, status: Option<string>): (r: Request)
    ensures r.verb == POST && r.body.None?
    ensures "notes" in r.params <==> notes.Some? && notes.value != ""
    ensures "notes" in r.params ==> r.params["notes"] == Str(notes.value)
    ensures "status" in r.params <==> status.Some? && status.value != ""
    ensures "status" in r.params ==> r.params["status"] == Str(status.value)
    ensures r.params - {"notes", "status"} ==
              map["mspCustomDomain" := Str(domain), "ticketId" := Str(ticketId),
                  "boardId" := Int(boardId), "techId" := Str(techId)]
  {
    var base := map["mspCustomDomain" := Str(domain), "ticketId" := Str(ticketId),
                    "boardId" := Int(boardId), "techId" := Str(techId)];
    var withNotes := if notes.Some? && notes.value != "" then base["notes" := Str(notes.value)] else base;
    var params := if status.Some? && status.value != "" then withNotes["status" := Str(status.value)] else withNotes;
    Request(POST, "/completeTicketForQueueAndConnectwise", params, None)
  }

  const TicketCompleted := "Ticket completed successfully"

  /** `complete_ticket`: a 200 is a fixed success message with no payload and no body decoding. */
  function CompleteTicket(o: Outcome): (r: Dict)
    ensures Succeeded(r) <==> o.Responded? && o.status == 200
    ensures Succeeded(r) ==> r == map["success" := Bool(true), "message" := Str(TicketCompleted)]
    ensures o.Responded? && o.status != 200 ==> r == Rejected(StatusLabel(o.status), o.text)
    ensures !o.Responded? ==> r == Crashed(ExceptionText(o))
  {
    match o
    case Responded(status, text, _) =>
      if status == 200 then map["success" := Bool(true), "message" := Str(TicketCompleted)]
      else Rejected(StatusLabel(status), text)
    case TimedOut(reason) => Crashed(reason)
    case Failed(reason) => Crashed(reason)
  }

  lemma CompleteTicketFollowsPolicy(o: Outcome)
    ensures CompleteTicket(o) == Execute(Policy(FixedMessage(TicketCompleted), None, map[]), o)
  {
  }
}
