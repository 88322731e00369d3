/**
 * The ticket tools of the server: argument validation for the generic PSA
 * ticket tools, the request builders, and the two AI-assisted creation
 * workflows (ConnectWise smart tickets and generic PSA tickets).
 */
module TicketTools {
  import opened Wrappers
  import opened PyText
  import opened Json
  import opened Transport
  import opened Envelope
  import PsaTicketing
  import CwT = ConnectWiseTicketing

  /** The envelope every validation failure produces, before any client exists. */
  function ValidationError(message: string): Dict {
    Rejected("Validation Error", message)
  }

  const EitherIdMessage := "Either user_id or tech_id must be provided"
  const CreatorMessage := "If userId is null, techId and psaCompanyId are mandatory"

  /** The diagnostic tool needs a user or a technician. */
  predicate DiagnosticArgsMissing(userId: string, techId: string) {
    userId == "" && techId == ""
  }

  /** Ticket creation without a user needs both a technician and a PSA company. */
  predicate CreatorArgsMissing(userId: string, techId: string, companyId: int) {
    userId == "" && (techId == "" || companyId == 0)
  }

  /** Rejecting a creation request is exactly: no user, and the technician path incomplete. */
  lemma CreatorRuleSpelledOut(userId: string, techId: string, companyId: int)
    ensures !CreatorArgsMissing(userId, techId, companyId) <==>
              userId != "" || (techId != "" && companyId != 0)
    ensures CreatorArgsMissing(userId, techId, companyId) ==> DiagnosticArgsMissing(userId, techId) || companyId == 0
  {
  }

  /** `get_psa_ticket_diagnostic`. */
  function PsaTicketDiagnostic(domain: string, message: string, userId: string, techId: string, answer: Backend): (r: Run)
    ensures DiagnosticArgsMissing(userId, techId) ==>
              r == Run(Done(ValidationError(EitherIdMessage)), [])
    ensures !DiagnosticArgsMissing(userId, techId) ==>
              var req := PsaTicketing.DiagnosticRequest(domain, message, Some(userId), Some(techId));
              && r.calls == [req]
              && r.reply == Done(PsaTicketing.Diagnostic(answer(0, req)))
              && ("userId" in req.body.value.fields || "techId" in req.body.value.fields)
  {
    if DiagnosticArgsMissing(userId, techId) then Run(Done(ValidationError(EitherIdMessage)), [])
    else
      var req := PsaTicketing.DiagnosticRequest(domain, message, Some(userId), Some(techId));
      Run(Done(PsaTicketing.Diagnostic(answer(0, req))), [req])
  }

  /** The fields every `create_psa_ticket` request carries. */
  function PsaTicketFields(psaType: string, summary: string, description: string, boardId: int): Dict {
    map["psaType" := Str(psaType), "summary" := Str(summary), "description" := Str(description),
        "boardId" := Int(boardId)]
  }

  /** The fields `create_psa_ticket` sends only when the argument is truthy. */
  function PsaTicketOptionals(userId: string, techId: string, companyId: int,
                              priorityId: int, categoryId: int, subcategoryId: int): Dict {
    map["userId" := Str(userId), "techId" := Str(techId), "psaCompanyId" := Int(companyId),
        "priorityId" := Int(priorityId), "categoryId" := Int(categoryId), "subcategoryId" := Int(subcategoryId)]
  }

  /** The ticket request `create_psa_ticket` builds: the fixed fields always, each
      optional id only when it is truthy, and nothing else. */
  function PsaTicketRequest(psaType: string, summary: string, description: string, boardId: int,
                            userId: string, techId: string, companyId: int,
                            priorityId: int, categoryId: int, subcategoryId: int): (d: Dict)
    ensures var fixed := PsaTicketFields(psaType, summary, description, boardId);
            forall k :: k in fixed ==> k in d && d[k] == fixed[k]
    ensures var opt := PsaTicketOptionals(userId, techId, companyId, priorityId, categoryId, subcategoryId);
            forall k :: k in opt ==> (k in d <==> Truthy(opt[k])) && (k in d ==> d[k] == opt[k])
    ensures d.Keys <= PsaTicketFields(psaType, summary, description, boardId).Keys
                      + PsaTicketOptionals(userId, techId, companyId, priorityId, categoryId, subcategoryId).Keys
  {
    var fixed := PsaTicketFields(psaType, summary, description, boardId);
    var opt := PsaTicketOptionals(userId, techId, companyId, priorityId, categoryId, subcategoryId);
    assert fixed.Keys == {"psaType", "summary", "description", "boardId"};
    assert opt.Keys == {"userId", "techId", "psaCompanyId", "priorityId", "categoryId", "subcategoryId"};
    assert fixed.Keys !! opt.Keys;
    WithTruthy(fixed, opt)
  }

  /** A request that passes validation names its creator: a user, or a technician
      together with a PSA company. */
  lemma ValidatedTicketHasCreator(psaType: string, summary: string, description: string, boardId: int,
                                  userId: string, techId: string, companyId: int,
                                  priorityId: int, categoryId: int, subcategoryId: int)
    requires !CreatorArgsMissing(userId, techId, companyId)
    ensures var d := PsaTicketRequest(psaType, summary, description, boardId, userId, techId, companyId,
                                      priorityId, categoryId, subcategoryId);
            "userId" in d || ("techId" in d && "psaCompanyId" in d)
  {
    var opt := PsaTicketOptionals(userId, techId, companyId, priorityId, categoryId, subcategoryId);
    assert "userId" in opt && "techId" in opt && "psaCompanyId" in opt;
  }

  /** `create_psa_ticket`: validate, then one creation call. */
  function CreatePsaTicket(domain: string, psaType: string, summary: string, description: string, boardId: int,
                           userId: string, techId: string, companyId: int,
                           priorityId: int, categoryId: int, subcategoryId: int, answer: Backend): (r: Run)
    ensures CreatorArgsMissing(userId, techId, companyId) ==>
              r == Run(Done(ValidationError(CreatorMessage)), [])
    ensures !CreatorArgsMissing(userId, techId, companyId) ==>
              var ticket := PsaTicketRequest(psaType, summary, description, boardId, userId, techId, companyId,
                                             priorityId, categoryId, subcategoryId);
              && r.calls == [PsaTicketing.CreateTicketRequest(domain, ticket)]
              && r.reply == Done(PsaTicketing.CreateTicket(answer(0, r.calls[0])))
  {
    if CreatorArgsMissing(userId, techId, companyId) then Run(Done(ValidationError(CreatorMessage)), [])
    else
      var ticket := PsaTicketRequest(psaType, summary, description, boardId, userId, techId, companyId,
                                     priorityId, categoryId, subcategoryId);
      var req := PsaTicketing.CreateTicketRequest(domain, ticket);
      Run(Done(PsaTicketing.CreateTicket(answer(0, req))), [req])
  }

  /** The classification ids the AI may suggest for a generic PSA ticket. */
  const SuggestedIds: set<string> := {"priorityId", "categoryId", "subcategoryId"}

  /** The fields of the AI-assisted request that are always sent: summary and board
      come from the AI's answer when it has them, otherwise from the defaults. */
  function AiTicketFields(qa: Dict, psaType: string, description: string,
                          userId: string, techId: string, companyId: int): Dict {
    map["psaType" := Str(psaType),
        "summary" := GetOr(qa, "summary", Str(Take(description, 100))),
        "description" := Str(description),
        "boardId" := GetOr(qa, "boardId", Int(1)),
        "userId" := Str(userId), "techId" := Str(techId), "psaCompanyId" := Int(companyId)]
  }

  /** The ticket request built from the AI's answer: the fixed fields, plus each
      suggested id the answer holds with a truthy value. */
  function AiTicketRequest(qa: Dict, psaType: string, description: string,
                           userId: string, techId: string, companyId: int): (d: Dict)
    ensures var fixed := AiTicketFields(qa, psaType, description, userId, techId, companyId);
            forall k :: k in fixed ==> k in d && d[k] == fixed[k]
    ensures forall k :: k in SuggestedIds ==> (k in d <==> Truthy(Get(qa, k))) && (k in d ==> d[k] == qa[k])
    ensures d.Keys <= AiTicketFields(qa, psaType, description, userId, techId, companyId).Keys + SuggestedIds
  {
    var fixed := AiTicketFields(qa, psaType, description, userId, techId, companyId);
    assert fixed.Keys == {"psaType", "summary", "description", "boardId", "userId", "techId", "psaCompanyId"};
    var extra := map k | k in SuggestedIds :: Get(qa, k);
    assert fixed.Keys !! extra.Keys;
    WithTruthy(fixed, extra)
  }

  /** A successful creation envelope annotated with the AI's answer; a failed one untouched. */
  function Annotated(created: Dict, qa: Json): (r: Dict)
    ensures Succeeded(r) <==> Succeeded(created)
    ensures Succeeded(created) ==> "ai_categorization" in r && r["ai_categorization"] == qa
    ensures !Succeeded(created) ==> r == created
    ensures r - {"ai_categorization"} == created - {"ai_categorization"}
  {
    if Succeeded(created) then created["ai_categorization" := qa] else created
  }

  /** `create_psa_ticket_with_ai`: validate, diagnose, then create; a failed diagnosis is
      returned as it is, and a successful creation carries the AI's answer. */
  function CreatePsaTicketWithAi(domain: string, psaType: string, description: string,
                                 userId: string, techId: string, companyId: int, answer: Backend): (r: Run)
    ensures CreatorArgsMissing(userId, techId, companyId) ==>
              r == Run(Done(ValidationError(CreatorMessage)), [])
    ensures !CreatorArgsMissing(userId, techId, companyId) ==>
              var req := PsaTicketing.DiagnosticRequest(domain, description, Some(userId), Some(techId));
              var diag := PsaTicketing.Diagnostic(answer(0, req));
              && 1 <= |r.calls| <= 2 && r.calls[0] == req
              && (!Succeeded(diag) ==> r == Run(Done(diag), [req]))
              && (|r.calls| == 2 <==> Succeeded(diag) && GetOr(diag, "diagnostic_qa", Obj(map[])).Obj?)
              && (|r.calls| == 1 && Succeeded(diag) ==> r.reply == Raised("AttributeError"))
  {
    if CreatorArgsMissing(userId, techId, companyId) then Run(Done(ValidationError(CreatorMessage)), [])
    else
      var req := PsaTicketing.DiagnosticRequest(domain, description, Some(userId), Some(techId));
      var diag := PsaTicketing.Diagnostic(answer(0, req));
      if !Succeeded(diag) then Run(Done(diag), [req])
      else
        var qa := GetOr(diag, "diagnostic_qa", Obj(map[]));
        if !qa.Obj? then Run(Raised("AttributeError"), [req])
        else
          var create := PsaTicketing.CreateTicketRequest(domain,
                          AiTicketRequest(qa.fields, psaType, description, userId, techId, companyId));
          var created := PsaTicketing.CreateTicket(answer(1, create));
          Run(Done(Annotated(created, qa)), [req, create])
  }

  /** When the diagnosis yields an object, the second call creates the ticket the AI
      described, and the reply is the creation envelope, annotated with the AI's
      answer exactly when the creation succeeded. */
  lemma AiTicketCreation(domain: string, psaType: string, description: string,
                         userId: string, techId: string, companyId: int, answer: Backend)
    requires !CreatorArgsMissing(userId, techId, companyId)
    requires var diag := PsaTicketing.Diagnostic(answer(0, PsaTicketing.DiagnosticRequest(domain, description, Some(userId), Some(techId))));
             Succeeded(diag) && GetOr(diag, "diagnostic_qa", Obj(map[])).Obj?
    ensures var req := PsaTicketing.DiagnosticRequest(domain, description, Some(userId), Some(techId));
            var qa := GetOr(PsaTicketing.Diagnostic(answer(0, req)), "diagnostic_qa", Obj(map[]));
            var r := CreatePsaTicketWithAi(domain, psaType, description, userId, techId, companyId, answer);
            var create := PsaTicketing.CreateTicketRequest(domain,
                            AiTicketRequest(qa.fields, psaType, description, userId, techId, companyId));
            var created := PsaTicketing.CreateTicket(answer(1, create));
            && r.calls == [req, create]
            && r.reply.Done?
            && (Succeeded(r.reply.value) <==> Succeeded(created))
            && (Succeeded(created) ==> "ai_categorization" in r.reply.value && r.reply.value["ai_categorization"] == qa)
            && r.reply.value - {"ai_categorization"} == created - {"ai_categorization"}
            && (!Succeeded(created) ==> r.reply.value == created)
  {
    var req := PsaTicketing.DiagnosticRequest(domain, description, Some(userId), Some(techId));
    var qa := GetOr(PsaTicketing.Diagnostic(answer(0, req)), "diagnostic_qa", Obj(map[]));
    var create := PsaTicketing.CreateTicketRequest(domain,
                    AiTicketRequest(qa.fields, psaType, description, userId, techId, companyId));
    var r := CreatePsaTicketWithAi(domain, psaType, description, userId, techId, companyId, answer);
    assert r == Run(Done(Annotated(PsaTicketing.CreateTicket(answer(1, create)), qa)), [req, create]);
  }

  /** The categorization fields a smart ticket copies from the AI's suggestion. */
  const SuggestedFields: set<string> := {"categoryId", "subcategoryId", "priorityId", "statusId"}

  /** The details of a smart ticket that do not depend on the suggestion's optional ids. */
  function SmartTicketFields(cat: Dict, description: string, companyId: int): Dict {
    map["boardId" := Get(cat, "boardId"),
        "summary" := GetOr(cat, "summary", Str(Take(description, 100))),
        "description" := Str(description),
        "companyId" := Int(companyId)]
  }

  /** The details of a smart ticket sent only when truthy: the contact, and the ids
      the categorization suggests. */
  function SmartTicketOptionals(cat: Dict, contactId: int): Dict {
    map["contactId" := Int(contactId),
        "categoryId" := Get(cat, "categoryId"), "subcategoryId" := Get(cat, "subcategoryId"),
        "priorityId" := Get(cat, "priorityId"), "statusId" := Get(cat, "statusId")]
  }

  /** The ticket details `create_smart_ticket` builds from the board categorization:
      the fixed details always, each optional detail only when truthy, nothing else. */
  function SmartTicketDetails(cat: Dict, description: string, companyId: int, contactId: int): (d: Dict)
    ensures var fixed := SmartTicketFields(cat, description, companyId);
            forall k :: k in fixed ==> k in d && d[k] == fixed[k]
    ensures var opt := SmartTicketOptionals(cat, contactId);
            forall k :: k in opt ==> (k in d <==> Truthy(opt[k])) && (k in d ==> d[k] == opt[k])
    ensures d.Keys <= SmartTicketFields(cat, description, companyId).Keys + SmartTicketOptionals(cat, contactId).Keys
  {
    var fixed := SmartTicketFields(cat, description, companyId);
    var opt := SmartTicketOptionals(cat, contactId);
    assert fixed.Keys == {"boardId", "summary", "description", "companyId"};
    assert opt.Keys == {"contactId", "categoryId", "subcategoryId", "priorityId", "statusId"};
    assert fixed.Keys !! opt.Keys;
    WithTruthy(fixed, opt)
  }

  /** The contact is attached exactly when one is given, and a suggested id exactly
      when the categorization holds it with a truthy value, unchanged. */
  lemma SmartTicketOptionalDetails(cat: Dict, description: string, companyId: int, contactId: int)
    ensures var d := SmartTicketDetails(cat, description, companyId, contactId);
            && ("contactId" in d <==> contactId != 0)
            && ("contactId" in d ==> d["contactId"] == Int(contactId))
            && forall k :: k in SuggestedFields ==> (k in d <==> Truthy(Get(cat, k))) && (k in d ==> d[k] == cat[k])
  {
    var opt := SmartTicketOptionals(cat, contactId);
    assert "contactId" in opt && opt["contactId"] == Int(contactId);
    assert forall k :: k in SuggestedFields ==> k in opt && opt[k] == Get(cat, k);
  }

  /** The summary falls back to the first 100 characters of the description only when
      the categorization has no summary at all. */
  lemma SmartSummaryDefault(cat: Dict, description: string, companyId: int, contactId: int)
    requires "summary" !in cat
    ensures var d := SmartTicketDetails(cat, description, companyId, contactId);
            "summary" in d && d["summary"].Str?
            && |d["summary"].s| == (if |description| < 100 then |description| else 100)
            && d["summary"].s <= description
  {
    assert SmartTicketFields(cat, description, companyId)["summary"] == Str(Take(description, 100));
  }

  /** `create_smart_ticket`: categorize on a board, then create the ticket there.
      A failed categorization is returned verbatim and nothing is created. */
  function CreateSmartTicket(domain: string, userId: string, description: string,
                             companyId: int, contactId: int, answer: Backend): (r: Run)
    ensures var req := CwT.AnalysisRequest(CwT.CategorizeOnBoard, domain, userId, description);
            var cat := CwT.Respond(CwT.BoardCategorization, answer(0, req));
            && 1 <= |r.calls| <= 2 && r.calls[0] == req
            && (!Succeeded(cat) ==> r == Run(Done(cat), [req]))
            && (|r.calls| == 2 <==> Succeeded(cat) && Get(cat, "board_categorization").Obj?)
            && (|r.calls| == 2 ==>
                  && r.calls[1] == CwT.CreateBoardTicketRequest(domain,
                       SmartTicketDetails(cat["board_categorization"].fields, description, companyId, contactId), Some(userId))
                  && r.reply == Done(CwT.Respond(CwT.CreateBoardTicket, answer(1, r.calls[1]))))
            && (|r.calls| == 1 && Succeeded(cat) ==> r.reply.Raised?)
  {
    var req := CwT.AnalysisRequest(CwT.CategorizeOnBoard, domain, userId, description);
    var cat := CwT.Respond(CwT.BoardCategorization, answer(0, req));
    if !Succeeded(cat) then Run(Done(cat), [req])
    else
      if "board_categorization" !in cat then Run(Raised("KeyError"), [req])
      else
      var board := cat["board_categorization"];
      if !board.Obj? then Run(Raised("AttributeError"), [req])
      else
        var create := CwT.CreateBoardTicketRequest(domain,
                        SmartTicketDetails(board.fields, description, companyId, contactId), Some(userId));
        Run(Done(CwT.Respond(CwT.CreateBoardTicket, answer(1, create))), [req, create])
  }

  /** Every field `update_connectwise_ticket` may change, with the argument's value. */
  function UpdateCandidates(summary: string, description: string, priorityId: int, statusId: int,
                            categoryId: int, subcategoryId: int): Dict {
    map["summary" := Str(summary), "description" := Str(description), "priorityId" := Int(priorityId),
        "statusId" := Int(statusId), "categoryId" := Int(categoryId), "subcategoryId" := Int(subcategoryId)]
  }

  /** The details `update_connectwise_ticket` sends: exactly the truthy arguments. */
  function UpdateTicketDetails(summary: string, description: string, priorityId: int, statusId: int,
                               categoryId: int, subcategoryId: int): (d: Dict)
    ensures var all := UpdateCandidates(summary, description, priorityId, statusId, categoryId, subcategoryId);
            && d.Keys <= all.Keys
            && forall k :: k in all ==> (k in d <==> Truthy(all[k])) && (k in d ==> d[k] == all[k])
  {
    WithTruthy(map[], UpdateCandidates(summary, description, priorityId, statusId, categoryId, subcategoryId))
  }

  /** An update with no truthy argument sends an empty set of changes. */
  lemma EmptyUpdate()
    ensures UpdateTicketDetails("", "", 0, 0, 0, 0) == map[]
  {
    var d := UpdateTicketDetails("", "", 0, 0, 0, 0);
    var all := UpdateCandidates("", "", 0, 0, 0, 0);
    assert all.Keys == {"summary", "description", "priorityId", "statusId", "categoryId", "subcategoryId"};
    assert d.Keys == {};
  }

  /** `update_connectwise_ticket`: one PUT with the truthy fields. */
  function UpdateConnectWiseTicket(domain: string, ticketId: string, summary: string, description: string,
                                   priorityId: int, statusId: int, categoryId: int, subcategoryId: int,
                                   answer: Backend): (r: Run)
    ensures |r.calls| == 1 && r.calls[0].verb == PUT && r.calls[0].path == "/updateTicket/" + ticketId
    ensures r.calls[0].body == Some(Obj(UpdateTicketDetails(summary, description, priorityId, statusId, categoryId, subcategoryId)))
    ensures r.reply == Done(CwT.Respond(CwT.UpdateTicket, answer(0, r.calls[0])))
  {
    var req := CwT.UpdateTicketRequest(domain, ticketId,
                 UpdateTicketDetails(summary, description, priorityId, statusId, categoryId, subcategoryId));
    Run(Done(CwT.Respond(CwT.UpdateTicket, answer(0, req))), [req])
  }
}
