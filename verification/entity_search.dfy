/**
 * `search_psa_entities`: list one kind of PSA entity and, given a search
 * term, keep the entities whose name, first or last name, email or company
 * name contains the term, ignoring letter case.
 */
module EntitySearch {
  import opened Wrappers
  import opened PyText
  import opened Json
  import opened Transport
  import opened Envelope
  import opened PsaInitialization

  /** The entity kind an `entity_type` argument names, compared in lower case:
      the kind whose key is the lowered argument, if there is one. */
  function KindNamed(entityType: string): (k: Option<EntityKind>)
    ensures k.Some? ==> EntityKey(k.value) == Lower(entityType)
    ensures k.None? ==> forall kind: EntityKind :: EntityKey(kind) != Lower(entityType)
  {
    var t := Lower(entityType);
    if t == "clients" then Some(Clients)
    else if t == "contacts" then Some(Contacts)
    else if t == "members" then Some(Members)
    else None
  }

  /** Each kind is named by its own key, in any letter case. */
  lemma KindNamedByKey(kind: EntityKind)
    ensures KindNamed(EntityKey(kind)) == Some(kind)
  {
    var key := EntityKey(kind);
    LowerKeepsLower(key);
    EntityKeyInjective();
  }

  /** The envelope for an entity type that is none of the three. */
  function InvalidType(entityType: string): Dict {
    Rejected("Invalid entity type: " + entityType, "Entity type must be 'clients', 'contacts', or 'members'")
  }

  /** The fields the search looks in. */
  const SearchFields: seq<string> := ["name", "firstName", "lastName", "email", "companyName"]

  /** `needle in str(entity.get(field, "")).lower()`. */
  predicate FieldMatches(entity: Dict, field: string, needle: string, render: Render) {
    Contains(Lower(PyStr(GetOr(entity, field, Str("")), render)), needle)
  }

  /** The entity has a searched field containing the (already lowered) needle. */
  predicate Matches(entity: Dict, needle: string, render: Render) {
    exists i :: 0 <= i < |SearchFields| && FieldMatches(entity, SearchFields[i], needle, render)
  }

  /** `small` is `big` with some elements left out, the rest in their original order. */
  predicate Subsequence(small: seq<Json>, big: seq<Json>)
    decreases |big|
  {
    if small == [] then true
    else if big == [] then false
    else (small[0] == big[0] && Subsequence(small[1..], big[1..])) || Subsequence(small, big[1..])
  }

  /** The entities that match, in their original order. */
  function Filter(items: seq<Json>, needle: string, render: Render): (r: seq<Json>)
    requires AllObjects(items)
    ensures Subsequence(r, items)
    ensures forall i :: 0 <= i < |r| ==> r[i].Obj? && Matches(r[i].fields, needle, render)
  {
    if items == [] then []
    else
      var rest := Filter(items[1..], needle, render);
      if Matches(items[0].fields, needle, render) then [items[0]] + rest else rest
  }

  /** An entity survives the filter exactly when it is in the list and matches. */
  lemma {:induction false} FilterMembers(items: seq<Json>, needle: string, render: Render)
    requires AllObjects(items)
    ensures forall x :: x in Filter(items, needle, render) <==>
                        x in items && x.Obj? && Matches(x.fields, needle, render)
  {
    if items != [] {
      FilterMembers(items[1..], needle, render);
      assert forall x :: x in items <==> x == items[0] || x in items[1..];
    }
  }

  /** Filtering a concatenation filters each part: the filter keeps relative order. */
  lemma {:induction false} FilterAppend(a: seq<Json>, b: seq<Json>, needle: string, render: Render)
    requires AllObjects(a) && AllObjects(b)
    ensures AllObjects(a + b)
    ensures Filter(a + b, needle, render) == Filter(a, needle, render) + Filter(b, needle, render)
  {
    if a == [] {
      assert a + b == b;
    } else {
      assert (a + b)[1..] == a[1..] + b;
      FilterAppend(a[1..], b, needle, render);
    }
  }

  /** When every entity matches, nothing is dropped. */
  lemma {:induction false} FilterKeepsAllMatches(items: seq<Json>, needle: string, render: Render)
    requires AllObjects(items)
    requires forall i :: 0 <= i < |items| ==> Matches(items[i].fields, needle, render)
    ensures Filter(items, needle, render) == items
  {
    if items != [] {
      FilterKeepsAllMatches(items[1..], needle, render);
    }
  }

  /** What the filter does to a successful listing: the list replaced by the matches,
      and the search recorded. */
  function Filtered(result: Dict, key: string, term: string, kept: seq<Json>): Dict {
    result[key := Arr(kept)]["filtered" := Bool(true)]["search_term" := Str(term)]["total_found" := Int(|kept|)]
  }

  /** `search_psa_entities`. An unknown type is rejected before any call; a failed
      listing is returned as it is; without a term, or with an empty listing, the
      listing is returned unchanged; otherwise only the matching entities remain. */
  function SearchPsaEntities(domain: string, entityType: string, term: string, render: Render,
                             answer: Backend): (r: Run)
    ensures KindNamed(entityType).None? <==> r.calls == []
    ensures KindNamed(entityType).None? ==> r.reply == Done(InvalidType(entityType))
    ensures KindNamed(entityType).Some? ==>
              var kind := KindNamed(entityType).value;
              var key := EntityKey(kind);
              var listed := ListEntities(kind, answer(0, ListRequest(kind, domain)));
              && r.calls == [ListRequest(kind, domain)]
              && (!Succeeded(listed) || term == "" || !Truthy(Get(listed, key)) ==> r.reply == Done(listed))
              && (Succeeded(listed) && term != "" && Truthy(Get(listed, key)) ==>
                    && (r.reply.Done? <==> listed[key].Arr? && AllObjects(listed[key].items))
                    && (r.reply.Done? ==>
                          var kept := Filter(listed[key].items, Lower(term), render);
                          && r.reply.value == Filtered(listed, key, term, kept)
                          && r.reply.value["total_found"] == Int(|kept|)))
  {
    match KindNamed(entityType)
    case None => Run(Done(InvalidType(entityType)), [])
    case Some(kind) =>
      var req := ListRequest(kind, domain);
      var listed := ListEntities(kind, answer(0, req));
      var key := EntityKey(kind);
      if !Succeeded(listed) || term == "" || !Truthy(Get(listed, key)) then Run(Done(listed), [req])
      else
        var entities := listed[key];
        if !entities.Arr? then Run(Raised(IterationError(entities)), [req])
        else if !AllObjects(entities.items) then Run(Raised("AttributeError"), [req])
        else Run(Done(Filtered(listed, key, term, Filter(entities.items, Lower(term), render))), [req])
  }

  /** A search keeps an entity of the listing exactly when one of its searched fields
      contains the term, ignoring case; and the result counts what it kept. */
  lemma SearchKeepsMatches(domain: string, entityType: string, term: string, render: Render,
                           answer: Backend, x: Json)
    requires KindNamed(entityType).Some?
    requires var r := SearchPsaEntities(domain, entityType, term, render, answer);
             r.reply.Done? && "filtered" in r.reply.value
    ensures var key := EntityKey(KindNamed(entityType).value);
            var listed := ListEntities(KindNamed(entityType).value,
                                       answer(0, ListRequest(KindNamed(entityType).value, domain)));
            var d := SearchPsaEntities(domain, entityType, term, render, answer).reply.value;
            && listed[key].Arr? && d[key].Arr?
            && (x in d[key].items <==> x in listed[key].items && x.Obj? && Matches(x.fields, Lower(term), render))
            && d["total_found"] == Int(|d[key].items|)
  {
    var kind := KindNamed(entityType).value;
    var key := EntityKey(kind);
    var o := answer(0, ListRequest(kind, domain));
    var listed := ListEntities(kind, o);
    ListingIsUnfiltered(kind, o);
    assert Succeeded(listed) && term != "" && Truthy(Get(listed, key));
    var kept := Filter(listed[key].items, Lower(term), render);
    var d := SearchPsaEntities(domain, entityType, term, render, answer).reply.value;
    assert d == Filtered(listed, key, term, kept);
    assert d[key] == Arr(kept);
    FilterMembers(listed[key].items, Lower(term), render);
  }

  /** A listing never carries the `filtered` mark of a search. */
  lemma ListingIsUnfiltered(kind: EntityKind, o: Outcome)
    ensures "filtered" !in ListEntities(kind, o)
  {
  }
}
