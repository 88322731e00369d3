/**
 * The PSA ticket-sync adapter: trigger a sync for one domain or for all of
 * them. A sync is long-running, so a timeout was meant to get its own envelope.
 *
 * Both methods guard their call with `except httpx.TimeoutError:` before
 * `except Exception`. httpx has no `TimeoutError`, and Python evaluates a
 * handler's class expression only while matching an exception. So any
 * exception raised inside the `try` turns into an AttributeError at the first
 * handler, and that AttributeError escapes the method. The `...Intended`
 * functions give the envelopes the handlers were written to return; the
 * plain names give what the code does.
 */
module PsaSync {
  import opened Wrappers
  import opened Json
  import opened Transport
  import opened Envelope

  function SyncDomainRequest(domain: string): (r: Request)
    ensures r.verb == POST && r.params == DomainParam(domain) && r.body.None?
  {
    Request(POST, "/psa/sync/tickets", DomainParam(domain), None)
  }

  /** The envelope of a sync, before the context key (`domain` or `scope`) is added. */
  function SyncCore(o: Outcome, badRequestLabel: bool): Dict {
    match o
    case Responded(status, text, _) =>
      if status == 200 then map["success" := Bool(true), "message" := Str(text)]
      else if status == 400 && badRequestLabel then Rejected("Bad Request", text)
      else Rejected(StatusLabel(status), text)
    case TimedOut(_) => Rejected(SyncTimeoutError, SyncTimeoutMessage)
    case Failed(reason) => Crashed(reason)
  }

  /** `sync_tickets_for_domain` with working handlers: the response text is the message
      on every answered call, a timeout gets the sync-timeout envelope, and every
      envelope names the domain. */
  function SyncTicketsForDomainIntended(domain: string, o: Outcome): (r: Dict)
    ensures "domain" in r && r["domain"] == Str(domain)
    ensures Succeeded(r) <==> o.Responded? && o.status == 200
    ensures o.Responded? ==> "message" in r && r["message"] == Str(o.text)
    ensures o.Responded? && o.status == 400 ==> r == Rejected("Bad Request", o.text)["domain" := Str(domain)]
    ensures o.Responded? && o.status !in {200, 400} ==>
              r == Rejected(StatusLabel(o.status), o.text)["domain" := Str(domain)]
    ensures o.TimedOut? ==> r == map["success" := Bool(false), "error" := Str(SyncTimeoutError),
                                     "message" := Str(SyncTimeoutMessage), "domain" := Str(domain)]
    ensures o.Failed? ==> r == map["success" := Bool(false), "error" := Str(o.reason), "domain" := Str(domain)]
    ensures !Succeeded(r) ==> "error" in r
  {
    SyncCore(o, true)["domain" := Str(domain)]
  }

  /** `sync_tickets_for_domain` as written: an answered call gets the intended envelope;
      every other outcome raises the handler's AttributeError. */
  function SyncTicketsForDomain(domain: string, o: Outcome): (r: Reply)
    ensures r.Done? <==> o.Responded?
    ensures r.Raised? ==> r.exception == "AttributeError"
    ensures r.Done? ==> r.value == SyncTicketsForDomainIntended(domain, o)
  {
    if o.Responded? then Done(SyncTicketsForDomainIntended(domain, o)) else Raised("AttributeError")
  }

  const SyncAllRequest := Request(POST, "/psa/sync/all", map[], None)

  /** `sync_all_domains` with working handlers: like the per-domain sync, with `scope`
      in place of `domain` and no special case for 400. */
  function SyncAllDomainsIntended(o: Outcome): (r: Dict)
    ensures "scope" in r && r["scope"] == Str("all_domains")
    ensures Succeeded(r) <==> o.Responded? && o.status == 200
    ensures o.Responded? ==> "message" in r && r["message"] == Str(o.text)
    ensures o.Responded? && o.status != 200 ==>
              r == Rejected(StatusLabel(o.status), o.text)["scope" := Str("all_domains")]
    ensures o.TimedOut? ==> r == Rejected(SyncTimeoutError, SyncTimeoutMessage)["scope" := Str("all_domains")]
    ensures o.Failed? ==> r == map["success" := Bool(false), "error" := Str(o.reason), "scope" := Str("all_domains")]
  {
    SyncCore(o, false)["scope" := Str("all_domains")]
  }

  /** `sync_all_domains` as written: the intended envelope on an answered call, the
      handler's AttributeError otherwise. */
  function SyncAllDomains(o: Outcome): (r: Reply)
    ensures r.Done? <==> o.Responded?
    ensures r.Raised? ==> r.exception == "AttributeError"
    ensures r.Done? ==> r.value == SyncAllDomainsIntended(o)
  {
    if o.Responded? then Done(SyncAllDomainsIntended(o)) else Raised("AttributeError")
  }

  /** The timeout handlers are unreachable as written: a timed-out sync raises where
      the intended adapter reports the sync-timeout envelope. */
  lemma SyncTimeoutEscapes(domain: string, reason: string)
    ensures SyncTicketsForDomain(domain, TimedOut(reason)) == Raised("AttributeError")
    ensures SyncTicketsForDomainIntended(domain, TimedOut(reason))["error"] == Str(SyncTimeoutError)
    ensures SyncAllDomains(TimedOut(reason)) == Raised("AttributeError")
    ensures SyncAllDomainsIntended(TimedOut(reason))["error"] == Str(SyncTimeoutError)
  {
  }

  /** The two syncs answer alike apart from their context key, except that only the
      per-domain sync labels a 400 "Bad Request"; as written, both raise on the same
      outcomes. */
  lemma DomainAndAllSyncAgree(domain: string, o: Outcome)
    ensures !(o.Responded? && o.status == 400) ==>
              SyncTicketsForDomainIntended(domain, o) - {"domain"} == SyncAllDomainsIntended(o) - {"scope"}
    ensures o.Responded? && o.status == 400 ==>
              Get(SyncTicketsForDomainIntended(domain, o), "error") != Get(SyncAllDomainsIntended(o), "error")
    ensures SyncTicketsForDomain(domain, o).Raised? <==> SyncAllDomains(o).Raised?
  {
    if o.Responded? && o.status == 400 {
      StatusLabelNamesCode(400);
      assert StatusLabel(400) != "Bad Request";
    }
  }
}
