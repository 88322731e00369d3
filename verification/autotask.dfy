/**
 * The Autotask adapter: twelve read-only lookups, each a GET to
 * `/autotask/<name>` with the domain as its only query parameter.
 */
module Autotask {
  import opened Wrappers
  import opened Json
  import opened Transport
  import opened Envelope

  datatype Lookup =
    | Statuses | Priorities | IssueTypes | TicketCategories | TicketTypes | Queues
    | QueueDetails | Sources | AllCompanies | AllContacts | AllResources | MergedConfiguration

  /** The endpoint name after `/autotask/`. */
  function EndpointName(l: Lookup): string {
    match l
    case Statuses => "getStatuses"
    case Priorities => "getPriorities"
    case IssueTypes => "getIssueTypes"
    case TicketCategories => "getTicketCategories"
    case TicketTypes => "getTicketTypes"
    case Queues => "getQueues"
    case QueueDetails => "getQueueDetails"
    case Sources => "getSources"
    case AllCompanies => "getAllCompanies"
    case AllContacts => "getAllContacts"
    case AllResources => "getAllResources"
    case MergedConfiguration => "mergeQueuesAndIssueTypes"
  }

  function PayloadKeyOf(l: Lookup): (key: string)
    ensures PayloadKey(key)
  {
    match l
    case Statuses => "statuses"
    case Priorities => "priorities"
    case IssueTypes => "issue_types"
    case TicketCategories => "categories"
    case TicketTypes => "ticket_types"
    case Queues => "queues"
    case QueueDetails => "queue_details"
    case Sources => "sources"
    case AllCompanies => "companies"
    case AllContacts => "contacts"
    case AllResources => "resources"
    case MergedConfiguration => "configuration"
  }

  /** Every lookup is a GET to `/autotask/<name>` whose only query parameter is the domain. */
  function LookupRequest(l: Lookup, domain: string): (r: Request)
    ensures r.verb == GET && r.body.None?
    ensures r.path == "/autotask/" + EndpointName(l)
    ensures r.params.Keys == {"mspCustomDomain"} && r.params["mspCustomDomain"] == Str(domain)
  {
    Request(GET, "/autotask/" + EndpointName(l), DomainParam(domain), None)
  }

  /** A lookup's envelope: only 200 succeeds, so 204 and 404 are failures like any other status. */
  function Fetch(l: Lookup, o: Outcome): (r: Dict)
    ensures Succeeded(r) <==> o.Responded? && o.status == 200 && o.body.Parsed?
    ensures Succeeded(r) ==> r == Accepted(PayloadKeyOf(l), o.body.value)
    ensures o.Responded? && o.status != 200 ==> r == Rejected(StatusLabel(o.status), o.text)
    ensures !o.Responded? ==> r == Crashed(ExceptionText(o)) && PayloadKeyOf(l) !in r
  {
    OkOrStatus(PayloadKeyOf(l), o)
  }

  /** No two lookups share an endpoint or a payload key. */
  lemma LookupsAreDistinct(a: Lookup, b: Lookup)
    requires a != b
    ensures EndpointName(a) != EndpointName(b)
    ensures PayloadKeyOf(a) != PayloadKeyOf(b)
  {
  }

  /** Every lookup is the shared executor with no special statuses. */
  lemma FetchFollowsPolicy(l: Lookup, o: Outcome)
    ensures Fetch(l, o) == Execute(Policy(PayloadAt(PayloadKeyOf(l)), None, map[]), o)
  {
    OkOrStatusFollowsPolicy(PayloadKeyOf(l), o);
  }
}
