/**
 * The ConnectWise sync adapter: sync clients and contacts, and sync the
 * tickets of a list of boards.
 *
 * Like the PSA sync adapter, both methods name `httpx.TimeoutError` in their
 * first handler. httpx has no such class, so an exception inside the `try`
 * (a timeout, a transport failure, or an undecodable 200 body) raises an
 * AttributeError out of the method. The `...Intended` functions give the
 * envelopes the handlers were written to return; the plain names give what
 * the code does.
 */
module ConnectWiseSync {
  import opened Wrappers
  import opened Json
  import opened Transport
  import opened Envelope

  function ClientsContactsRequest(domain: string): (r: Request)
    ensures r.verb == GET && r.params == DomainParam(domain) && r.body.None?
  {
    Request(GET, "/syncClientsContacts", DomainParam(domain), None)
  }

  const ClientsContactsSynced := "Clients and contacts synced successfully"

  /** `sync_clients_contacts` with working handlers. */
  function SyncClientsContactsIntended(o: Outcome): (r: Dict)
    ensures Succeeded(r) <==> o.Responded? && o.status == 200 && o.body.Parsed?
    ensures Succeeded(r) ==> r == map["success" := Bool(true), "sync_result" := o.body.value,
                                      "message" := Str(ClientsContactsSynced)]
    ensures o.Responded? && o.status != 200 ==> r == Rejected(StatusLabel(o.status), o.text)
    ensures o.TimedOut? ==> r == Rejected(SyncTimeoutError, SyncTimeoutMessage)
    ensures o.Failed? ==> r == Crashed(o.reason)
  {
    match o
    case Responded(status, text, body) =>
      if status == 200 then
        match body
        case Parsed(v) => map["success" := Bool(true), "sync_result" := v, "message" := Str(ClientsContactsSynced)]
        case Undecodable(reason) => Crashed(reason)
      else
        Rejected(StatusLabel(status), text)
    case TimedOut(_) => Rejected(SyncTimeoutError, SyncTimeoutMessage)
    case Failed(reason) => Crashed(reason)
  }

  /** The outcomes on which `sync_clients_contacts` raises inside its `try`: no
      response at all, or a 200 whose body `response.json()` cannot decode. */
  predicate ClientsSyncRaises(o: Outcome) {
    !o.Responded? || (o.status == 200 && o.body.Undecodable?)
  }

  /** `sync_clients_contacts` as written: the intended envelope unless the `try`
      raised, in which case the handler's AttributeError escapes. */
  function SyncClientsContacts(o: Outcome): (r: Reply)
    ensures r.Raised? <==> ClientsSyncRaises(o)
    ensures r.Raised? ==> r.exception == "AttributeError"
    ensures r.Done? ==> r.value == SyncClientsContactsIntended(o)
  {
    if ClientsSyncRaises(o) then Raised("AttributeError") else Done(SyncClientsContactsIntended(o))
  }

  /** The request `sync_board_tickets` sends: the board list as the JSON body. */
  function BoardTicketsRequest(domain: string, boards: seq<Json>): (r: Request)
    ensures r.verb == POST && r.params == DomainParam(domain) && r.body == Some(Arr(boards))
  {
    Request(POST, "/syncBoardTickets", DomainParam(domain), Some(Arr(boards)))
  }

  const BoardSyncInitiated := "Board tickets sync initiated successfully"

  /** `sync_board_tickets` with working handlers: a 200 reports how many board
      requests were sent, without reading the body. */
  function SyncBoardTicketsIntended(boards: seq<Json>, o: Outcome): (r: Dict)
    ensures Succeeded(r) <==> o.Responded? && o.status == 200
    ensures Succeeded(r) ==> r == map["success" := Bool(true), "message" := Str(BoardSyncInitiated),
                                      "boards_synced" := Int(|boards|)]
    ensures o.Responded? && o.status != 200 ==> r == Rejected(StatusLabel(o.status), o.text)
    ensures o.TimedOut? ==> r == Rejected(SyncTimeoutError, SyncTimeoutMessage)
    ensures o.Failed? ==> r == Crashed(o.reason)
  {
    match o
    case Responded(status, text, _) =>
      if status == 200 then
        map["success" := Bool(true), "message" := Str(BoardSyncInitiated), "boards_synced" := Int(|boards|)]
      else
        Rejected(StatusLabel(status), text)
    case TimedOut(_) => Rejected(SyncTimeoutError, SyncTimeoutMessage)
    case Failed(reason) => Crashed(reason)
  }

  /** `sync_board_tickets` as written: the intended envelope on an answered call, the
      handler's AttributeError otherwise. */
  function SyncBoardTickets(boards: seq<Json>, o: Outcome): (r: Reply)
    ensures r.Done? <==> o.Responded?
    ensures r.Raised? ==> r.exception == "AttributeError"
    ensures r.Done? ==> r.value == SyncBoardTicketsIntended(boards, o)
  {
    if o.Responded? then Done(SyncBoardTicketsIntended(boards, o)) else Raised("AttributeError")
  }

  /** The handlers are unreachable as written: a timeout, a transport failure or an
      undecodable 200 body raises where the intended adapter returns an envelope. */
  lemma SyncHandlersEscape(boards: seq<Json>, reason: string, text: string)
    ensures SyncClientsContacts(TimedOut(reason)) == Raised("AttributeError")
    ensures SyncClientsContactsIntended(TimedOut(reason)) == Rejected(SyncTimeoutError, SyncTimeoutMessage)
    ensures SyncClientsContacts(Responded(200, text, Undecodable(reason))) == Raised("AttributeError")
    ensures SyncClientsContactsIntended(Responded(200, text, Undecodable(reason))) == Crashed(reason)
    ensures SyncBoardTickets(boards, Failed(reason)) == Raised("AttributeError")
    ensures SyncBoardTicketsIntended(boards, Failed(reason)) == Crashed(reason)
  {
  }

  /** The two syncs fail alike: whatever went wrong short of a 200, both produce the
      same envelope, and as written both raise on the same outcomes. */
  lemma SyncFailuresAgree(boards: seq<Json>, o: Outcome)
    requires !(o.Responded? && o.status == 200)
    ensures SyncClientsContactsIntended(o) == SyncBoardTicketsIntended(boards, o)
    ensures !Succeeded(SyncClientsContactsIntended(o))
    ensures SyncClientsContacts(o) == SyncBoardTickets(boards, o)
  {
  }

  /** A failed clients-and-contacts sync is the uniform 200-versus-other failure: as
      written, for every failure it returns at all; as intended, for every failure but
      the timeout. */
  lemma SyncFailureIsUniform(o: Outcome)
    ensures SyncClientsContacts(o).Done? && !Succeeded(SyncClientsContacts(o).value) ==>
              SyncClientsContacts(o).value == OkOrStatus("sync_result", o)
    ensures !o.TimedOut? && !Succeeded(SyncClientsContactsIntended(o)) ==>
              SyncClientsContactsIntended(o) == OkOrStatus("sync_result", o)
  {
  }
}
