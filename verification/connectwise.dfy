/**
 * The ConnectWise adapter: boards, statuses, clients, contacts, members,
 * departments, priorities, board configuration, and contact creation.
 */
module ConnectWise {
  import opened Wrappers
  import opened Json
  import opened Transport
  import opened Envelope

  /** One adapter method together with its own arguments (the domain is passed separately). */
  datatype Call =
    | CreateBoard(board: Dict)
    | Boards
    | Statuses(boardId: int)
    | Clients
    | Contacts
    | Members
    | Departments
    | Priorities
    | Configuration(boardId: int, boardName: string)
    | AddContact(contact: Dict)

  function PayloadKeyOf(c: Call): (key: string)
    ensures PayloadKey(key)
  {
    match c
    case CreateBoard(_) => "board"
    case Boards => "boards"
    case Statuses(_) => "statuses"
    case Clients => "clients"
    case Contacts => "contacts"
    case Members => "members"
    case Departments => "departments"
    case Priorities => "priorities"
    case Configuration(_, _) => "configuration"
    case AddContact(_) => "contact"
  }

  /** The method table: verb, path, query and body of each call. */
  function CallRequest(c: Call, domain: string): (r: Request)
    ensures c.CreateBoard? || c.AddContact? <==> r.verb == POST
    ensures c.CreateBoard? ==> r.body == Some(Obj(c.board))
    ensures c.AddContact? ==> r.body == Some(Obj(c.contact))
    ensures !(c.CreateBoard? || c.AddContact?) ==> r.body.None?
    ensures c.Statuses? ==> r.params == map["boardId" := Int(c.boardId), "mspCustomDomain" := Str(domain)]
    ensures c.Configuration? ==>
              r.params == map["mspCustomDomain" := Str(domain), "boardId" := Int(c.boardId), "boardName" := Str(c.boardName)]
    ensures !(c.Statuses? || c.Configuration?) ==> r.params == DomainParam(domain)
  {
    match c
    case CreateBoard(board) => Request(POST, "/createConnectWiseBoard", DomainParam(domain), Some(Obj(board)))
    case Boards => Request(GET, "/getConnectWiseBoards", DomainParam(domain), None)
    case Statuses(boardId) =>
      Request(GET, "/getConnectWiseStatuses", map["boardId" := Int(boardId), "mspCustomDomain" := Str(domain)], None)
    case Clients => Request(GET, "/getConnectWiseClients", DomainParam(domain), None)
    case Contacts => Request(GET, "/getConnectWiseContacts", DomainParam(domain), None)
    case Members => Request(GET, "/getConnectWiseMembers", DomainParam(domain), None)
    case Departments => Request(GET, "/getConnectWiseDepartments", DomainParam(domain), None)
    case Priorities => Request(GET, "/getConnectWisePriorities", DomainParam(domain), None)
    case Configuration(boardId, boardName) =>
      Request(GET, "/getMergedConnectWiseCategorizationWithoutImpactSeverity",
              map["mspCustomDomain" := Str(domain), "boardId" := Int(boardId), "boardName" := Str(boardName)], None)
    case AddContact(contact) => Request(POST, "/addConnectWiseContact", DomainParam(domain), Some(Obj(contact)))
  }

  /** Every call's envelope: the 200-versus-other mapping under the call's key. */
  function Fetch(c: Call, o: Outcome): (r: Dict)
    ensures Succeeded(r) <==> o.Responded? && o.status == 200 && o.body.Parsed?
    ensures Succeeded(r) ==> r == Accepted(PayloadKeyOf(c), o.body.value)
    ensures o.Responded? && o.status != 200 ==> r == Rejected(StatusLabel(o.status), o.text)
    ensures !o.Responded? ==> r == Crashed(ExceptionText(o))
  {
    OkOrStatus(PayloadKeyOf(c), o)
  }

  /** Every ConnectWise call is the shared executor with no special statuses: unlike the
      PSA list getters, a 204 is a failure here. */
  lemma FetchFollowsPolicy(c: Call, o: Outcome)
    ensures Fetch(c, o) == Execute(Policy(PayloadAt(PayloadKeyOf(c)), None, map[]), o)
    ensures o.Responded? && o.status == 204 ==> !Succeeded(Fetch(c, o))
  {
    OkOrStatusFollowsPolicy(PayloadKeyOf(c), o);
  }
}
