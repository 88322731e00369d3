/**
 * `get_psa_overview`: fetch clients, contacts and members of a domain and
 * summarise each category as a count, a status and a sample of names.
 */
module PsaOverview {
  import opened Wrappers
  import opened PyText
  import opened Json
  import opened Transport
  import opened Envelope
  import opened PsaInitialization

  /** Python's `len(x)`: defined for lists, strings and dicts only. */
  function Length(j: Json): Option<nat> {
    match j
    case Arr(items) => Some(|items|)
    case Str(s) => Some(|s|)
    case Obj(fields) => Some(|fields|)
    case _ => None
  }

  /** The sample name of one entity: `name` (or "Unknown") for clients and members,
      `f"{firstName} {lastName}"` for contacts. */
  function SampleName(kind: EntityKind, entity: Dict, render: Render): (name: Json)
    ensures kind == Contacts ==> name.Str?
    ensures kind != Contacts && "name" in entity ==> name == entity["name"]
    ensures kind != Contacts && "name" !in entity ==> name == Str("Unknown")
  {
    match kind
    case Contacts =>
      Str(PyStr(GetOr(entity, "firstName", Str("")), render) + " " + PyStr(GetOr(entity, "lastName", Str("")), render))
    case _ => GetOr(entity, "name", Str("Unknown"))
  }

  /** The sample names of the first five entities. */
  function Sample(kind: EntityKind, items: seq<Json>, render: Render): (names: seq<Json>)
    requires AllObjects(Take(items, 5))
    ensures |names| == (if |items| < 5 then |items| else 5)
    ensures forall i :: 0 <= i < |names| ==> names[i] == SampleName(kind, items[i].fields, render)
  {
    var first := Take(items, 5);
    seq(|first|, i requires 0 <= i < |first| => SampleName(kind, first[i].fields, render))
  }

  /** The summary of one category, or the exception computing it raises: `len` of a
      value that has none, or a sample taken from something other than a list of dicts. */
  function Category(kind: EntityKind, listed: Dict, render: Render): (c: Reply)
    ensures !Succeeded(listed) ==>
              c == Done(map["count" := Int(0), "status" := Str("failed"), "error" := Get(listed, "error")])
    ensures Succeeded(listed) ==>
              var value := GetOr(listed, EntityKey(kind), Arr([]));
              && (c.Done? <==> Length(value).Some? &&
                                 (Truthy(value) ==> value.Arr? && AllObjects(Take(value.items, 5))))
              && (c.Done? ==>
                    && "count" in c.value && "status" in c.value
                    && c.value["count"] == Int(Length(value).value)
                    && c.value["status"] == Str("success")
                    && ("sample" in c.value <==> Truthy(value))
                    && (Truthy(value) ==> c.value["sample"] == Arr(Sample(kind, value.items, render))))
  {
    if !Succeeded(listed) then
      Done(map["count" := Int(0), "status" := Str("failed"), "error" := Get(listed, "error")])
    else
      var value := GetOr(listed, EntityKey(kind), Arr([]));
      match Length(value)
      case None => Raised("TypeError")
      case Some(n) =>
        var summary := map["count" := Int(n), "status" := Str("success")];
        if !Truthy(value) then Done(summary)
        else if value.Str? then Raised("AttributeError")
        else if !value.Arr? then Raised("TypeError")
        else if !AllObjects(Take(value.items, 5)) then Raised("AttributeError")
        else Done(summary["sample" := Arr(Sample(kind, value.items, render))])
  }

  /** A non-empty list of dicts is summarised by its length and at most five names. */
  lemma CategoryOfList(kind: EntityKind, listed: Dict, render: Render)
    requires Succeeded(listed) && EntityKey(kind) in listed
    requires listed[EntityKey(kind)].Arr? && AllObjects(listed[EntityKey(kind)].items)
    requires listed[EntityKey(kind)].items != []
    ensures var c := Category(kind, listed, render);
            var n := |listed[EntityKey(kind)].items|;
            && c.Done? && c.value["count"] == Int(n)
            && "sample" in c.value && c.value["sample"].Arr?
            && |c.value["sample"].items| == (if n < 5 then n else 5)
  {
    var items := listed[EntityKey(kind)].items;
    assert AllObjects(Take(items, 5));
  }

  /** The categories in the order they are fetched. */
  const Kinds: seq<EntityKind> := [Clients, Contacts, Members]

  /** The listing requests of the overview, in order. */
  function OverviewRequests(domain: string): (reqs: seq<Request>)
    ensures |reqs| == 3
    ensures forall i :: 0 <= i < 3 ==> reqs[i] == ListRequest(Kinds[i], domain)
  {
    [ListRequest(Clients, domain), ListRequest(Contacts, domain), ListRequest(Members, domain)]
  }

  /** The i-th listing as the client adapter returns it. */
  function Listed(domain: string, answer: Backend, i: nat): Dict
    requires i < 3
  {
    ListEntities(Kinds[i], answer(i, OverviewRequests(domain)[i]))
  }

  /** The i-th category summary, or the exception computing it raises. */
  function Summary(domain: string, render: Render, answer: Backend, i: nat): Reply
    requires i < 3
  {
    Category(Kinds[i], Listed(domain, answer, i), render)
  }

  /** The overview assembled from the three category summaries: the first one that
      raised ends it, after as many requests as were made by then. */
  function Assemble(domain: string, clients: Reply, contacts: Reply, members: Reply, ok: bool): (r: Run)
    ensures 1 <= |r.calls| <= 3 && r.calls == OverviewRequests(domain)[..|r.calls|]
    ensures |r.calls| == 1 <==> clients.Raised?
    ensures |r.calls| == 2 <==> clients.Done? && contacts.Raised?
    ensures r.reply.Raised? <==> clients.Raised? || contacts.Raised? || members.Raised?
    ensures r.reply.Raised? ==> r.reply == [clients, contacts, members][|r.calls| - 1]
    ensures r.reply.Done? ==>
              && r.reply.value.Keys == {"msp_domain", "clients", "contacts", "members", "overall_success"}
              && r.reply.value["msp_domain"] == Str(domain)
              && r.reply.value["clients"] == Obj(clients.value)
              && r.reply.value["contacts"] == Obj(contacts.value)
              && r.reply.value["members"] == Obj(members.value)
              && r.reply.value["overall_success"] == Bool(ok)
  {
    var reqs := OverviewRequests(domain);
    if clients.Raised? then Run(clients, reqs[..1])
    else if contacts.Raised? then Run(contacts, reqs[..2])
    else if members.Raised? then Run(members, reqs[..3])
    else
      Run(Done(map["msp_domain" := Str(domain), "clients" := Obj(clients.value),
                   "contacts" := Obj(contacts.value), "members" := Obj(members.value),
                   "overall_success" := Bool(ok)]),
          reqs[..3])
  }

  /** `get_psa_overview`: the three listings are fetched in order, each regardless of
      how the previous one went, unless summarising one raises. */
  function PsaOverview(domain: string, render: Render, answer: Backend): (r: Run)
    ensures var clients := Summary(domain, render, answer, 0);
            var contacts := Summary(domain, render, answer, 1);
            var members := Summary(domain, render, answer, 2);
            && 1 <= |r.calls| <= 3 && r.calls == OverviewRequests(domain)[..|r.calls|]
            && (|r.calls| == 1 <==> clients.Raised?)
            && (|r.calls| == 2 <==> clients.Done? && contacts.Raised?)
            && (r.reply.Raised? <==> clients.Raised? || contacts.Raised? || members.Raised?)
            && (r.reply.Raised? ==> r.reply == [clients, contacts, members][|r.calls| - 1])
            && (r.reply.Done? ==>
                  && r.reply.value.Keys == {"msp_domain", "clients", "contacts", "members", "overall_success"}
                  && r.reply.value["msp_domain"] == Str(domain)
                  && r.reply.value["clients"] == Obj(clients.value)
                  && r.reply.value["contacts"] == Obj(contacts.value)
                  && r.reply.value["members"] == Obj(members.value)
                  && r.reply.value["overall_success"] ==
                       Bool(Succeeded(Listed(domain, answer, 0)) && Succeeded(Listed(domain, answer, 1))
                            && Succeeded(Listed(domain, answer, 2))))
  {
    var ok := Succeeded(Listed(domain, answer, 0)) && Succeeded(Listed(domain, answer, 1))
              && Succeeded(Listed(domain, answer, 2));
    Assemble(domain, Summary(domain, render, answer, 0), Summary(domain, render, answer, 1),
             Summary(domain, render, answer, 2), ok)
  }

  /** A failed listing is marked failed and overall success is lost, but the later
      categories are still fetched. */
  lemma FailedCategoryDoesNotStop(domain: string, render: Render, answer: Backend)
    requires !Succeeded(Listed(domain, answer, 0))
    ensures var r := PsaOverview(domain, render, answer);
            && |r.calls| >= 2 && r.calls[1] == ListRequest(Contacts, domain)
            && (r.reply.Done? ==> r.reply.value["overall_success"] == Bool(false)
                                  && r.reply.value["clients"].fields["status"] == Str("failed"))
  {
  }
}
