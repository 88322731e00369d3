/**
 * The sync tools of the server: batch sync of several PSA domains, the
 * ConnectWise board-sync request builders, and the full ConnectWise sync.
 */
module SyncTools {
  import opened Wrappers
  import opened Json
  import opened Transport
  import opened Envelope
  import PsaSync
  import ConnectWiseSync
  import ConnectWise

  /** One domain's entry in a batch: the per-domain sync's own dict, or, when that sync
      raised, the `except` branch's `{"success": False, "error": str(e)}`. The only
      exception the per-domain sync raises is the AttributeError of its first handler. */
  function BatchEntry(sync: Reply): (d: Dict)
    ensures sync.Done? ==> d == sync.value
    ensures sync.Raised? ==> d == Crashed(NoTimeoutErrorText) && !Succeeded(d)
  {
    match sync
    case Done(value) => value
    case Raised(_) => Crashed(NoTimeoutErrorText)
  }

  /** What the batch records for each domain, the i-th domain being the i-th call. */
  function DomainSyncs(domains: seq<string>, answer: Backend): (rs: seq<Dict>)
    ensures |rs| == |domains|
  {
    seq(|domains|, i requires 0 <= i < |domains| =>
      BatchEntry(PsaSync.SyncTicketsForDomain(domains[i], answer(i, PsaSync.SyncDomainRequest(domains[i])))))
  }

  /** A domain whose sync call was answered gets the adapter's envelope; one whose call
      timed out or failed goes through the tool's `except` branch and is recorded with
      the AttributeError's text, not the sync-timeout envelope the adapter meant to
      return. Either way the entry succeeds exactly on a 200. */
  lemma UnansweredDomainFails(domains: seq<string>, answer: Backend, i: nat)
    requires i < |domains|
    ensures var o := answer(i, PsaSync.SyncDomainRequest(domains[i]));
            var entry := DomainSyncs(domains, answer)[i];
            && (o.Responded? ==> entry == PsaSync.SyncTicketsForDomainIntended(domains[i], o))
            && (!o.Responded? ==> entry == Crashed(NoTimeoutErrorText))
            && (o.TimedOut? ==> entry["error"] != PsaSync.SyncTicketsForDomainIntended(domains[i], o)["error"])
            && (Succeeded(entry) <==> o.Responded? && o.status == 200)
  {
  }

  /** `results["domain_results"][domain] = sync_result`, applied in order. */
  function DomainResults(domains: seq<string>, rs: seq<Dict>): (m: map<string, Json>)
    requires |domains| == |rs|
    ensures forall d :: d in m ==> m[d].Obj?
    ensures domains != [] ==> domains[|domains| - 1] in m && m[domains[|domains| - 1]] == Obj(rs[|rs| - 1])
  {
    if domains == [] then map[]
    else
      var n := |domains| - 1;
      DomainResults(domains[..n], rs[..n])[domains[n] := Obj(rs[n])]
  }

  /** Every listed domain has an entry, and nothing else does. */
  lemma {:induction false} DomainResultsKeys(domains: seq<string>, rs: seq<Dict>)
    requires |domains| == |rs|
    ensures DomainResults(domains, rs).Keys == set i | 0 <= i < |domains| :: domains[i]
  {
    if domains != [] {
      var n := |domains| - 1;
      DomainResultsKeys(domains[..n], rs[..n]);
      assert forall i :: 0 <= i < n ==> domains[..n][i] == domains[i];
      assert (set i | 0 <= i < |domains| :: domains[i]) == (set i | 0 <= i < n :: domains[..n][i]) + {domains[n]};
    }
  }

  /** A domain listed more than once keeps the result of its last occurrence. */
  lemma {:induction false} LastResultWins(domains: seq<string>, rs: seq<Dict>, i: nat)
    requires |domains| == |rs| && i < |domains|
    requires forall j :: i < j < |domains| ==> domains[j] != domains[i]
    ensures domains[i] in DomainResults(domains, rs)
    ensures DomainResults(domains, rs)[domains[i]] == Obj(rs[i])
  {
    var n := |domains| - 1;
    if i < n {
      assert forall j :: i < j < n ==> domains[..n][j] == domains[j];
      LastResultWins(domains[..n], rs[..n], i);
    }
  }

  /** The summary dict of `batch_sync_domains`. */
  function BatchSummary(total: nat, successful: nat, failed: nat, results: map<string, Json>): Dict {
    map["total_domains" := Int(total), "successful" := Int(successful), "failed" := Int(failed),
        "domain_results" := Obj(results), "overall_success" := Bool(failed == 0)]
  }

  /** The sync requests of a batch, one per listed domain, in order. */
  function SyncRequests(domains: seq<string>): (calls: seq<Request>)
    ensures |calls| == |domains|
    ensures forall i :: 0 <= i < |domains| ==> calls[i] == PsaSync.SyncDomainRequest(domains[i])
  {
    seq(|domains|, i requires 0 <= i < |domains| => PsaSync.SyncDomainRequest(domains[i]))
  }

  /** `batch_sync_domains`: one sync per listed domain, in order. A per-domain sync that
      raises is caught by the tool's own `except` branch and counted as failed. */
  function BatchSyncDomains(domains: seq<string>, answer: Backend): (r: Run)
    ensures r.calls == SyncRequests(domains)
    ensures r.reply == Done(BatchResult(domains, DomainSyncs(domains, answer)))
  {
    Run(Done(BatchResult(domains, DomainSyncs(domains, answer))), SyncRequests(domains))
  }

  /** The summary of a batch whose domains recorded `rs`. */
  function BatchResult(domains: seq<string>, rs: seq<Dict>): Dict
    requires |domains| == |rs|
  {
    var ok := CountSucceeded(rs);
    BatchSummary(|domains|, ok, |domains| - ok, DomainResults(domains, rs))
  }

  /** The batch's counts add up to the number of listed domains, and it reports overall
      success exactly when every domain's sync succeeded. */
  lemma BatchSyncCounts(domains: seq<string>, answer: Backend)
    ensures var d := BatchSyncDomains(domains, answer).reply.value;
            var rs := DomainSyncs(domains, answer);
            && d["successful"].i + d["failed"].i == d["total_domains"].i == |domains|
            && (Truthy(d["overall_success"]) <==> forall i :: 0 <= i < |domains| ==> Succeeded(rs[i]))
  {
    var rs := DomainSyncs(domains, answer);
    AllSucceeded(rs);
  }

  /** The board-sync request `sync_connectwise_board_tickets` builds: the optional date
      and status list are sent only when truthy. */
  function SingleBoardRequest(boardId: int, boardName: string, fromDate: Option<string>,
                              statuses: Option<seq<string>>): (d: Dict)
    ensures d.Keys <= {"boardId", "boardName", "syncFromDate", "syncStatus"}
    ensures "boardId" in d && d["boardId"] == Int(boardId)
    ensures "boardName" in d && d["boardName"] == Str(boardName)
    ensures "syncFromDate" in d <==> fromDate.Some? && fromDate.value != ""
    ensures "syncFromDate" in d ==> d["syncFromDate"] == Str(fromDate.value)
    ensures "syncStatus" in d <==> statuses.Some? && statuses.value != []
    ensures "syncStatus" in d ==> d["syncStatus"] == Strs(statuses.value)
  {
    var base := map["boardId" := Int(boardId), "boardName" := Str(boardName)];
    var withDate := if fromDate.Some? && fromDate.value != "" then base["syncFromDate" := Str(fromDate.value)] else base;
    if statuses.Some? && statuses.value != [] then withDate["syncStatus" := Strs(statuses.value)] else withDate
  }

  /** `sync_connectwise_board_tickets`: one board-sync call for a single board, whose
      reply the tool returns, or whose exception it lets escape. */
  function SyncConnectWiseBoard(domain: string, boardId: int, boardName: string, fromDate: Option<string>,
                                statuses: Option<seq<string>>, answer: Backend): (r: Run)
    ensures var boards := [Obj(SingleBoardRequest(boardId, boardName, fromDate, statuses))];
            && r.calls == [ConnectWiseSync.BoardTicketsRequest(domain, boards)]
            && r.reply == ConnectWiseSync.SyncBoardTickets(boards, answer(0, r.calls[0]))
    ensures r.reply.Raised? <==> !answer(0, r.calls[0]).Responded?
    ensures r.reply.Done? && Succeeded(r.reply.value) ==> r.reply.value["boards_synced"] == Int(1)
  {
    var boards := [Obj(SingleBoardRequest(boardId, boardName, fromDate, statuses))];
    var req := ConnectWiseSync.BoardTicketsRequest(domain, boards);
    Run(ConnectWiseSync.SyncBoardTickets(boards, answer(0, req)), [req])
  }

  /** The board-sync request built from one `board_configs` entry: board id and name
      always (None when missing), date and statuses whenever their key is present. */
  function ConfigBoardRequest(config: Dict): (d: Dict)
    ensures d.Keys <= {"boardId", "boardName", "syncFromDate", "syncStatus"}
    ensures "boardId" in d && d["boardId"] == Get(config, "board_id")
    ensures "boardName" in d && d["boardName"] == Get(config, "board_name")
    ensures ("syncFromDate" in d <==> "sync_from_date" in config)
    ensures "syncFromDate" in d ==> d["syncFromDate"] == config["sync_from_date"]
    ensures ("syncStatus" in d <==> "sync_statuses" in config)
    ensures "syncStatus" in d ==> d["syncStatus"] == config["sync_statuses"]
  {
    var base := map["boardId" := Get(config, "board_id"), "boardName" := Get(config, "board_name")];
    var withDate := if "sync_from_date" in config then base["syncFromDate" := config["sync_from_date"]] else base;
    if "sync_statuses" in config then withDate["syncStatus" := config["sync_statuses"]] else withDate
  }

  /** The two builders disagree on a blank date: the multi-board one forwards it,
      the single-board one drops it. */
  lemma BlankDateHandledDifferently(boardId: int, boardName: string)
    ensures var config := map["board_id" := Int(boardId), "board_name" := Str(boardName), "sync_from_date" := Str("")];
            && "syncFromDate" in ConfigBoardRequest(config)
            && "syncFromDate" !in SingleBoardRequest(boardId, boardName, Some(""), None)
  {
  }

  /** The board list sent by `sync_multiple_connectwise_boards`, one request per config. */
  function ConfigBoardRequests(configs: seq<Dict>): (boards: seq<Json>)
    ensures |boards| == |configs|
    ensures forall i :: 0 <= i < |configs| ==> boards[i] == Obj(ConfigBoardRequest(configs[i]))
  {
    seq(|configs|, i requires 0 <= i < |configs| => Obj(ConfigBoardRequest(configs[i])))
  }

  /** `sync_multiple_connectwise_boards`: one board-sync call carrying every config,
      whose reply the tool returns, or whose exception it lets escape. */
  function SyncMultipleBoards(domain: string, configs: seq<Dict>, answer: Backend): (r: Run)
    ensures r.calls == [ConnectWiseSync.BoardTicketsRequest(domain, ConfigBoardRequests(configs))]
    ensures r.reply == ConnectWiseSync.SyncBoardTickets(ConfigBoardRequests(configs), answer(0, r.calls[0]))
    ensures r.reply.Raised? <==> !answer(0, r.calls[0]).Responded?
    ensures r.reply.Done? && Succeeded(r.reply.value) ==> r.reply.value["boards_synced"] == Int(|configs|)
  {
    var boards := ConfigBoardRequests(configs);
    var req := ConnectWiseSync.BoardTicketsRequest(domain, boards);
    Run(ConnectWiseSync.SyncBoardTickets(boards, answer(0, req)), [req])
  }

  const ClientsContactsFailed := "Failed to sync clients and contacts"
  const SomeBoardsFailed := "Failed to sync some boards"
  const NoBoards := "Could not retrieve boards for sync"

  /** `{"board_id": board.get("id"), "board_name": board.get("name")}`. */
  function BoardConfig(board: Dict): Dict {
    map["board_id" := Get(board, "id"), "board_name" := Get(board, "name")]
  }

  /** The board configs for the fetched boards, in order. */
  function BoardConfigs(items: seq<Json>): (configs: seq<Dict>)
    requires AllObjects(items)
    ensures |configs| == |items|
    ensures forall i :: 0 <= i < |items| ==> configs[i] == BoardConfig(items[i].fields)
  {
    seq(|items|, i requires 0 <= i < |items| => BoardConfig(items[i].fields))
  }

  /** The board fetch succeeded and returned a truthy `boards` value. */
  predicate BoardsRetrieved(fetched: Dict) {
    Succeeded(fetched) && Truthy(Get(fetched, "boards"))
  }

  /** The final dict of `sync_all_connectwise_data`. */
  function FullSyncSummary(clients: Dict, boardsSync: Option<Dict>, errors: seq<string>): Dict {
    map["clients_contacts_sync" := Obj(clients),
        "boards_sync" := if boardsSync.Some? then Obj(boardsSync.value) else Null,
        "overall_success" := Bool(errors == []),
        "errors" := Strs(errors)]
  }

  /** What the full sync does with the fetched boards: nothing when none were
      retrieved, an escaped exception when they cannot be iterated as dicts, or the
      multi-board sync of all of them. */
  datatype BoardsStep = NoBoardsStep | BoardsRaised(exception: string) | BoardsSynced(run: Run)

  /** The board half of `sync_all_connectwise_data`; `answer` is the backend as the
      nested multi-board sync sees it. */
  function SyncFetchedBoards(domain: string, fetched: Dict, answer: Backend): (step: BoardsStep)
    ensures step.NoBoardsStep? <==> !BoardsRetrieved(fetched)
    ensures step.BoardsSynced? <==>
              BoardsRetrieved(fetched) && fetched["boards"].Arr? && AllObjects(fetched["boards"].items)
    ensures step.BoardsSynced? ==>
              step.run == SyncMultipleBoards(domain, BoardConfigs(fetched["boards"].items), answer)
              && |step.run.calls| == 1
  {
    if !BoardsRetrieved(fetched) then NoBoardsStep
    else
      var boards := fetched["boards"];
      if !boards.Arr? then BoardsRaised(IterationError(boards))
      else if !AllObjects(boards.items) then BoardsRaised("AttributeError")
      else BoardsSynced(SyncMultipleBoards(domain, BoardConfigs(boards.items), answer))
  }

  /** Retrieved boards are never an empty list, so a board sync always has a board to sync. */
  lemma RetrievedBoardsNonEmpty(domain: string, fetched: Dict, answer: Backend)
    requires SyncFetchedBoards(domain, fetched, answer).BoardsSynced?
    ensures |fetched["boards"].items| > 0
    ensures |SyncFetchedBoards(domain, fetched, answer).run.calls[0].body.value.items| > 0
  {
  }

  /** `sync_all_connectwise_data` once the clients sync returned `clients`: fetch the
      boards (call 1) and sync the tickets of every fetched board (from call 2 on); each
      failure adds its error, and an exception of the board sync escapes. */
  function FullSyncAfterClients(domain: string, clients: Dict, answer: Backend): (r: Run)
    ensures |r.calls| >= 1 && r.calls[0] == ConnectWise.CallRequest(ConnectWise.Boards, domain)
    ensures var fetched := ConnectWise.Fetch(ConnectWise.Boards, answer(1, r.calls[0]));
            var step := SyncFetchedBoards(domain, fetched, Shift(answer, 2));
            var clientErrors := if Succeeded(clients) then [] else [ClientsContactsFailed];
            && (step.NoBoardsStep? ==> r == Run(Done(FullSyncSummary(clients, None, clientErrors + [NoBoards])), r.calls[..1]))
            && (step.BoardsRaised? ==> r == Run(Raised(step.exception), r.calls[..1]))
            && (step.BoardsSynced? && step.run.reply.Raised? ==> r == Run(step.run.reply, r.calls[..1] + step.run.calls))
            && (step.BoardsSynced? && step.run.reply.Done? ==>
                  var synced := step.run.reply.value;
                  r == Run(Done(FullSyncSummary(clients, Some(synced),
                                 clientErrors + (if Succeeded(synced) then [] else [SomeBoardsFailed]))),
                           r.calls[..1] + step.run.calls))
  {
    var errors := if Succeeded(clients) then [] else [ClientsContactsFailed];
    var boardsReq := ConnectWise.CallRequest(ConnectWise.Boards, domain);
    var fetched := ConnectWise.Fetch(ConnectWise.Boards, answer(1, boardsReq));
    match SyncFetchedBoards(domain, fetched, Shift(answer, 2))
    case NoBoardsStep => Run(Done(FullSyncSummary(clients, None, errors + [NoBoards])), [boardsReq])
    case BoardsRaised(e) => Run(Raised(e), [boardsReq])
    case BoardsSynced(run) =>
      match run.reply
      case Raised(_) => Run(run.reply, [boardsReq] + run.calls)
      case Done(synced) =>
        var errors' := errors + (if Succeeded(synced) then [] else [SomeBoardsFailed]);
        Run(Done(FullSyncSummary(clients, Some(synced), errors')), [boardsReq] + run.calls)
  }

  /** `sync_all_connectwise_data`: sync clients and contacts, then go on with the boards.
      The tool has no `try`, so a clients sync that raises ends it after one call. */
  function SyncAllConnectWiseData(domain: string, answer: Backend): (r: Run)
    ensures |r.calls| >= 1 && r.calls[0] == ConnectWiseSync.ClientsContactsRequest(domain)
    ensures var clients := ConnectWiseSync.SyncClientsContacts(answer(0, r.calls[0]));
            && (clients.Raised? ==> r == Run(clients, r.calls[..1]))
            && (clients.Done? ==>
                  var rest := FullSyncAfterClients(domain, clients.value, answer);
                  r == Run(rest.reply, r.calls[..1] + rest.calls))
  {
    var clientsReq := ConnectWiseSync.ClientsContactsRequest(domain);
    match ConnectWiseSync.SyncClientsContacts(answer(0, clientsReq))
    case Raised(e) => Run(Raised(e), [clientsReq])
    case Done(clients) =>
      var rest := FullSyncAfterClients(domain, clients, answer);
      Run(rest.reply, [clientsReq] + rest.calls)
  }

  /** The clients sync's unreachable timeout handler ends the full sync: a timed-out
      clients call raises before the boards are fetched, where the intended adapter
      would have recorded the failure and gone on to fetch them. */
  lemma FullSyncStopsOnClientsTimeout(domain: string, answer: Backend)
    requires answer(0, ConnectWiseSync.ClientsContactsRequest(domain)).TimedOut?
    ensures SyncAllConnectWiseData(domain, answer) ==
              Run(Raised("AttributeError"), [ConnectWiseSync.ClientsContactsRequest(domain)])
    ensures !Succeeded(ConnectWiseSync.SyncClientsContactsIntended(answer(0, ConnectWiseSync.ClientsContactsRequest(domain))))
  {
  }

  /** The board half of a full sync that returns: overall success exactly when it lists
      no error, that is when the clients synced, boards were retrieved, and their tickets
      synced. */
  lemma FullSyncAfterClientsSuccess(domain: string, clients: Dict, answer: Backend)
    requires FullSyncAfterClients(domain, clients, answer).reply.Done?
    ensures var r := FullSyncAfterClients(domain, clients, answer);
            var d := r.reply.value;
            && (Truthy(d["overall_success"]) <==> d["errors"] == Arr([]))
            && (Truthy(d["overall_success"]) <==>
                  Succeeded(clients) && |r.calls| == 2 && Succeeded(d["boards_sync"].fields))
  {
    assert Strs([]) == Arr([]);
  }

  /** A full sync that returns reports overall success exactly when it lists no error,
      that is exactly when clients and contacts synced, boards were retrieved, and their
      tickets synced. */
  lemma FullSyncSuccess(domain: string, answer: Backend)
    requires SyncAllConnectWiseData(domain, answer).reply.Done?
    ensures var r := SyncAllConnectWiseData(domain, answer);
            var d := r.reply.value;
            var clients := ConnectWiseSync.SyncClientsContacts(answer(0, r.calls[0]));
            && clients.Done? && |r.calls| >= 2
            && (Truthy(d["overall_success"]) <==> d["errors"] == Arr([]))
            && (Truthy(d["overall_success"]) <==>
                  Succeeded(clients.value) && |r.calls| == 3 && Succeeded(d["boards_sync"].fields))
  {
    var clients := ConnectWiseSync.SyncClientsContacts(answer(0, ConnectWiseSync.ClientsContactsRequest(domain)));
    assert clients.Done?;
    FullSyncAfterClientsSuccess(domain, clients.value, answer);
  }
}
