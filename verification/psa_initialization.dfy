/**
 * The generic PSA initialization adapter: list clients, contacts and members
 * of an MSP domain, and add a contact.
 */
module PsaInitialization {
  import opened Wrappers
  import opened Json
  import opened Transport
  import opened Envelope

  datatype EntityKind = Clients | Contacts | Members

  /** The payload key, which is also the plural noun used in messages. */
  function EntityKey(kind: EntityKind): (key: string)
    ensures PayloadKey(key)
  {
    match kind
    case Clients => "clients"
    case Contacts => "contacts"
    case Members => "members"
  }

  /** Distinct kinds have distinct keys. */
  lemma EntityKeyInjective()
    ensures forall a: EntityKind, b: EntityKind :: EntityKey(a) == EntityKey(b) ==> a == b
  {
    assert "clients"[1] != "contacts"[1];
    assert "members"[0] != "clients"[0] && "members"[0] != "contacts"[0];
  }

  function ListPath(kind: EntityKind): string {
    match kind
    case Clients => "/psa/getClients"
    case Contacts => "/psa/getContacts"
    case Members => "/psa/getMembers"
  }

  /** The request `get_clients` / `get_contacts` / `get_members` sends. */
  function ListRequest(kind: EntityKind, domain: string): (r: Request)
    ensures r.verb == GET && r.body.None?
    ensures r.params == DomainParam(domain)
  {
    Request(GET, ListPath(kind), DomainParam(domain), None)
  }

  /** The response table of the three list getters: 204 is an empty success,
      200 carries the decoded list, anything else is a failure. */
  function ListEntities(kind: EntityKind, o: Outcome): (r: Dict)
    ensures Succeeded(r) <==> o.Responded? && (o.status == 204 || (o.status == 200 && o.body.Parsed?))
    ensures o.Responded? && o.status == 204 ==>
              r == map["success" := Bool(true), EntityKey(kind) := Arr([]),
                       "message" := Str("No " + EntityKey(kind) + " found")]
    ensures o.Responded? && o.status == 200 && o.body.Parsed? ==> r == Accepted(EntityKey(kind), o.body.value)
    ensures o.Responded? && o.status !in {200, 204} ==> r == Rejected(StatusLabel(o.status), o.text)
    ensures !o.Responded? ==> r == Crashed(ExceptionText(o))
    ensures !Succeeded(r) ==> EntityKey(kind) !in r
  {
    var key := EntityKey(kind);
    match o
    case Responded(status, text, body) =>
      if status == 204 then
        map["success" := Bool(true), key := Arr([]), "message" := Str("No " + key + " found")]
      else if status == 200 then
        match body
        case Parsed(v) => Accepted(key, v)
        case Undecodable(reason) => Crashed(reason)
      else
        Rejected(StatusLabel(status), text)
    case TimedOut(reason) => Crashed(reason)
    case Failed(reason) => Crashed(reason)
  }

  function ListPolicy(kind: EntityKind): (p: Policy)
    ensures WellFormedPolicy(p)
  {
    Policy(PayloadAt(EntityKey(kind)), Some(NoContent(EntityKey(kind), "No " + EntityKey(kind) + " found")), map[])
  }

  /** The list getters are the uniform policy with a 204 "no X found" rule. */
  lemma ListEntitiesFollowsPolicy(kind: EntityKind, o: Outcome)
    ensures ListEntities(kind, o) == Execute(ListPolicy(kind), o)
  {
  }

  /** The request `add_contact` sends: the caller's contact dict, posted under the domain's path. */
  function AddContactRequest(domain: string, contact: Dict): (r: Request)
    ensures r.verb == POST && r.params == map[] && r.body == Some(Obj(contact))
  {
    Request(POST, "/psa/" + domain + "/addPSAContact", map[], Some(Obj(contact)))
  }

  const NoIntegrationError := "PSA integration not found or contact creation failed"
  const NoIntegrationMessage := "No PSA integration configured for this domain"

  /** `add_contact`: 404 means no PSA integration, 200 carries the created contact. */
  function AddContact(o: Outcome): (r: Dict)
    ensures Succeeded(r) <==> o.Responded? && o.status == 200 && o.body.Parsed?
    ensures Succeeded(r) ==> r == Accepted("contact", o.body.value)
    ensures o.Responded? && o.status == 404 ==> r == Rejected(NoIntegrationError, NoIntegrationMessage)
    ensures o.Responded? && o.status !in {200, 404} ==> r == Rejected(StatusLabel(o.status), o.text)
    ensures !o.Responded? ==> r == Crashed(ExceptionText(o))
  {
    match o
    case Responded(status, text, body) =>
      if status == 404 then
        Rejected(NoIntegrationError, NoIntegrationMessage)
      else if status == 200 then
        match body
        case Parsed(v) => Accepted("contact", v)
        case Undecodable(reason) => Crashed(reason)
      else
        Rejected(StatusLabel(status), text)
    case TimedOut(reason) => Crashed(reason)
    case Failed(reason) => Crashed(reason)
  }

  function AddContactPolicy(): (p: Policy)
    ensures WellFormedPolicy(p)
  {
    Policy(PayloadAt("contact"), None, map[404 := Rejection(NoIntegrationError, Some(NoIntegrationMessage))])
  }

  lemma AddContactFollowsPolicy(o: Outcome)
    ensures AddContact(o) == Execute(AddContactPolicy(), o)
  {
  }
}
