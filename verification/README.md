# PSA gateway response layer, in Dafny

A model of the request-building, response-normalisation and composition layer
of an MCP tool server that fronts a professional-services-automation (PSA)
backend. Every adapter method issues one HTTP request and folds its outcome
into a result envelope: a dict with a `success` flag, a payload key on
success, and `error`/`message` on failure. The server's tools validate their
arguments, call one or more adapter methods in sequence, and combine the
envelopes into a tool result.

The model keeps the Python program's shapes:

- A JSON value is `Json`, and an envelope is `Dict = map<string, Json>`.
  `Succeeded(d)` is Python truthiness of `d.get("success")`.
- The backend is a parameter `answer: (nat, Request) -> Outcome`, which gives
  the outcome of the i-th request a tool makes. An outcome is a response
  (status, text, decoded body or decoding error), a timeout, or any other
  transport failure.
- A tool returns `Run(reply, calls)`. `calls` is the list of requests it
  issued, in order, so "no call was made" and "the second call only after a
  success" can be stated. `reply` is `Done(dict)`, or `Raised(kind)` for a
  Python exception that escapes the tool (an `AttributeError` from `.get` on
  a non-dict, for example).
- The uniform status-code handling of the adapters is one executor,
  `Envelope.Execute`, driven by a policy table. Lemmas show the methods of
  the PSA-initialization, PSA-ticketing, ConnectWise, ConnectWise-ticketing
  and Autotask adapters equal to the executor under their own tables. The
  remaining adapters (time entry, health check, vector store, PSA sync and the
  PSA ticket listing) shape their envelopes differently. Lemmas relate the
  time-entry, health and vector-store methods to the executor or to each
  other where they agree.

Modules: `Json`, `PyText` (lower-casing, substring test, `str(int)`),
`Transport`, `Envelope`, one module per client adapter (`PsaInitialization`,
`PsaTicketing`, `PsaSync`, `ConnectWiseSync`, `PsaTimeEntry`, `Weaviate`,
`ConnectWiseTicketing`, `Autotask`, `ConnectWise`, `PsaClient`), and one
module per group of server tools (`TicketTools`, `TimeTracking`,
`SyncTools`, `EntitySearch`, `PsaOverview`, `SchemaTools`).

Behaviour of the code that a reader might not expect:

- Some tools let exceptions escape instead of always returning an envelope:
  - `create_smart_ticket` when the categorization is missing or not a dict;
  - `create_psa_ticket_with_ai` when `diagnostic_qa` is not a dict;
  - `search_psa_entities`, `get_psa_overview` and `sync_all_connectwise_data`
    when a listing is not a list of dicts.
- 204 is an empty success only for the three PSA list getters. For the
  ConnectWise and Autotask lookups, a 204 is a failure like any other
  non-200 status.
- The sync adapters raise AttributeError on a timeout or transport failure
  (see "## Findings"). So `batch_sync_domains` records such a domain with
  that exception's text, the two board-sync tools raise, and
  `sync_all_connectwise_data` raises before fetching the boards when the
  clients sync raises.
- `sync_all_connectwise_data` reports its failures as a list of error
  messages, one per failed step.
- The two board-sync builders treat optional fields differently:
  - `sync_connectwise_board_tickets` sends the date and statuses only when
    they are truthy;
  - `sync_multiple_connectwise_boards` sends them whenever the key is present.
- The time-entry adapter trusts a `success` field inside a 200 body.
- A 500 from the time-entry adapter takes its error from the body, not from
  the status code.

## Model

| member | source | states |
|---|---|---|
| Envelope.Execute | app/clients/psa_initialization_client.py:29-50 | the shared status table: success exactly when the policy accepts the outcome; the decoded body under the payload key on 200; "Failed with status N" with the backend text for an unlisted status; `str(e)` for a failed call |
| Envelope.OkOrStatus | app/clients/connectwise_client.py:36-58 | the 200-versus-other mapping: success iff 200 with a decodable body, the body under the key, otherwise the status label and text, and never the payload key on failure |
| Envelope.OkOrStatusFollowsPolicy | app/clients/connectwise_client.py:36-58 | the 200-versus-other mapping is the shared executor with no special statuses |
| Envelope.StatusLabelNamesCode | app/clients/psa_initialization_client.py:41-45 | the numeric status code can be parsed back out of "Failed with status N" |
| Envelope.StatusLabelInjective | app/clients/psa_initialization_client.py:41-45 | distinct status codes never produce the same failure label |
| Envelope.AllSucceeded | server.py:1295 | the success count equals the number of results exactly when every result succeeded |
| PsaInitialization.ListRequest | app/clients/psa_initialization_client.py:23-27 | a GET carrying only the domain as query parameter, no body |
| PsaInitialization.ListEntities | app/clients/psa_initialization_client.py:29-50 | 204 is success with an empty list and "No X found"; 200 carries the decoded list; other statuses and exceptions fail without the payload key |
| PsaInitialization.ListEntitiesFollowsPolicy | app/clients/psa_initialization_client.py:11-132 | the three list getters are the shared executor with a 204 no-content rule |
| PsaInitialization.AddContactRequest | app/clients/psa_initialization_client.py:157-160 | a POST of the caller's contact, no query |
| PsaInitialization.AddContact | app/clients/psa_initialization_client.py:162-182 | 404 means no PSA integration, with its fixed error and message; 200 carries the created contact |
| PsaInitialization.AddContactFollowsPolicy | app/clients/psa_initialization_client.py:162-182 | `add_contact` is the shared executor with a 404 rule |
| PsaTicketing.DiagnosticBody | app/clients/psa_ticketing_client.py:20-28 | domain and message always; `userId` and `techId` exactly when given and non-empty; no other key |
| PsaTicketing.DiagnosticRequest | app/clients/psa_ticketing_client.py:30-34 | a POST of the diagnostic body without query |
| PsaTicketing.Diagnostic | app/clients/psa_ticketing_client.py:36-57 | a 400 gets the fixed "Either userId or techId must be provided" message instead of the backend text |
| PsaTicketing.CreateTicketRequest | app/clients/psa_ticketing_client.py:68-72 | a POST of the ticket with the domain as query |
| PsaTicketing.BadRequestAware | app/clients/psa_ticketing_client.py:74-95 | a 400 is "Bad Request" carrying the backend text; other failures as the shared table |
| PsaTicketing.CreateTicket | app/clients/psa_ticketing_client.py:59-95 | success iff 200 with a body, the ticket under `ticket`; 400 is "Bad Request" |
| PsaTicketing.AddNotesRequest | app/clients/psa_ticketing_client.py:106-113 | a POST of the notes with domain and ticket id as query |
| PsaTicketing.AddNotes | app/clients/psa_ticketing_client.py:115-136 | success iff 200 with a body, under `result`; 400 is "Bad Request" |
| PsaTicketing.TicketNotesRequest | app/clients/psa_ticketing_client.py:146-154 | a GET with domain, ticket id and the detail flag |
| PsaTicketing.TicketNotes | app/clients/psa_ticketing_client.py:156-177 | 404 is "Not Found" with a fixed message |
| PsaTicketing.CloseTicketRequest | app/clients/psa_ticketing_client.py:187-197 | `boardId` is sent whenever it is not None, so 0 is sent too |
| PsaTicketing.CloseTicket | app/clients/psa_ticketing_client.py:200-215 | no special case: a 400 is the generic status label |
| PsaTicketing.TicketStatusRequest | app/clients/psa_ticketing_client.py:225-231 | a GET with domain and ticket id |
| PsaTicketing.TicketStatus | app/clients/psa_ticketing_client.py:233-259 | 404 and 400 get their own fixed explanations |
| PsaTicketing.RespondFollowsPolicy | app/clients/psa_ticketing_client.py:10-259 | each of the six methods is the shared executor under its own table |
| PsaSync.SyncDomainRequest | app/clients/psa_sync_client.py:22-27 | a POST with the domain as query and no body |
| PsaSync.SyncTicketsForDomainIntended | app/clients/psa_sync_client.py:29-61 | with working handlers: every envelope names the domain; the response text is the message; 400 is "Bad Request"; a timeout gets the sync-timeout envelope, any other exception its text |
| PsaSync.SyncTicketsForDomain | app/clients/psa_sync_client.py:20-61 | as written: an answered call returns the intended envelope; a timeout or transport failure raises AttributeError at the `except httpx.TimeoutError` line |
| PsaSync.SyncAllDomainsIntended | app/clients/psa_sync_client.py:71-100 | with working handlers: like the per-domain sync, with `scope` = "all_domains" and no 400 case |
| PsaSync.SyncAllDomains | app/clients/psa_sync_client.py:71-100 | as written: an answered call returns the intended envelope; any other outcome raises AttributeError |
| PsaSync.SyncTimeoutEscapes | app/clients/psa_sync_client.py:49-55 | a timed-out sync raises as written, where the intended adapter reports "Sync operation timed out" |
| PsaSync.DomainAndAllSyncAgree | app/clients/psa_sync_client.py:35-47 | the two syncs agree apart from their context key, except on 400, where their errors differ; as written both raise on the same outcomes |
| ConnectWiseSync.ClientsContactsRequest | app/clients/connectwise_sync_client.py:22-26 | a GET with the domain as query |
| ConnectWiseSync.SyncClientsContactsIntended | app/clients/connectwise_sync_client.py:21-48 | with working handlers: success iff 200 with a body, the body under `sync_result` with a fixed message; a timeout gets the sync-timeout envelope; an undecodable body or a transport failure its exception text |
| ConnectWiseSync.SyncClientsContacts | app/clients/connectwise_sync_client.py:21-48 | as written: raises AttributeError exactly when the call got no response or a 200 with an undecodable body; otherwise the intended envelope |
| ConnectWiseSync.BoardTicketsRequest | app/clients/connectwise_sync_client.py:67-72 | a POST of the board list with the domain as query |
| ConnectWiseSync.SyncBoardTicketsIntended | app/clients/connectwise_sync_client.py:66-94 | with working handlers: success iff 200, reporting how many board requests were sent, without reading the body |
| ConnectWiseSync.SyncBoardTickets | app/clients/connectwise_sync_client.py:66-94 | as written: an answered call returns the intended envelope; any other outcome raises AttributeError |
| ConnectWiseSync.SyncHandlersEscape | app/clients/connectwise_sync_client.py:38-48 | a timeout, an undecodable 200 body or a transport failure raises as written, where the intended adapter returns an envelope |
| ConnectWiseSync.SyncFailuresAgree | app/clients/connectwise_sync_client.py:33-48 | both syncs produce the same failure envelope for any non-200 outcome, and as written both raise on the same outcomes |
| ConnectWiseSync.SyncFailureIsUniform | app/clients/connectwise_sync_client.py:33-48 | every failure the clients sync returns as written is the uniform 200-versus-other failure; as intended, every failure but the timeout |
| PsaTimeEntry.TimeEntryRequest | app/clients/psa_time_entry_client.py:30-34 | a POST of the entry without query |
| PsaTimeEntry.CreateTimeEntry | app/clients/psa_time_entry_client.py:36-60 | success iff 200 with an object body whose own `success` is truthy (True when absent); 500 takes its error from the body; a non-object body fails as a caught `.get` error |
| PsaTimeEntry.OkCanReportFailure | app/clients/psa_time_entry_client.py:36-42 | a 200 whose body says `success: false` is not a success |
| PsaTimeEntry.CreateTimeEntryFollowsPolicy | app/clients/psa_time_entry_client.py:36-60 | for every outcome other than a 200 or 500 response, the adapter is the shared executor with no special statuses |
| PsaTimeEntry.CreatedOnlyWhereAccepted | app/clients/psa_time_entry_client.py:36-47 | a created entry is always one the shared 200 mapping accepts, with the same payload: the body's flag can only take success away |
| PsaTimeEntry.CheckHealth | app/clients/psa_time_entry_client.py:62-92 | healthy exactly when a 200 object body has status "UP"; failures are never healthy |
| PsaTimeEntry.HealthAgreesWithPolicy | app/clients/psa_time_entry_client.py:62-92 | healthy implies success; success exactly where the shared mapping succeeds on an object body; a failed call's error is the shared exception text behind "Health check failed: " |
| Weaviate.TestConnection | app/clients/weaviate_client.py:13-28 | connected exactly on 200; the status code is echoed; the message is the text on 200 and the status label otherwise |
| Weaviate.ConnectionFollowsPolicy | app/clients/weaviate_client.py:13-28 | connected exactly where the shared executor with a fixed message succeeds; a non-200 message and an exception's error are the executor's |
| Weaviate.CheckSchemaExists | app/clients/weaviate_client.py:30-53 | success exactly on 200, and then `schema_exists` is true when "true" occurs in the lower-cased text and false when it does not |
| Weaviate.SchemaChange | app/clients/weaviate_client.py:55-84 | success exactly on 200, echoing text and status |
| Weaviate.SchemaChangeAgreesWithConnection | app/clients/weaviate_client.py:13-84 | a schema change succeeds exactly where the connection test connects, with the same status code and the same exception text |
| ConnectWiseTicketing.Respond | app/clients/connectwise_ticketing_client.py:10-260 | every method: the body under its own key on 200, the status label otherwise |
| ConnectWiseTicketing.RespondFollowsPolicy | app/clients/connectwise_ticketing_client.py:10-260 | every method but `complete_ticket` is the shared executor with no special statuses |
| ConnectWiseTicketing.AnalysisRequest | app/clients/connectwise_ticketing_client.py:14-23 | a POST of domain, user and message, without query |
| ConnectWiseTicketing.CreateBoardTicketRequest | app/clients/connectwise_ticketing_client.py:107-116 | the domain always; `userId` exactly when truthy |
| ConnectWiseTicketing.UpdateTicketRequest | app/clients/connectwise_ticketing_client.py:138-142 | a PUT to `/updateTicket/<id>` with the details as body |
| ConnectWiseTicketing.TicketByIdRequest | app/clients/connectwise_ticketing_client.py:165-171 | a GET with domain and ticket id |
| ConnectWiseTicketing.TicketNotesRequest | app/clients/connectwise_ticketing_client.py:194-201 | the detailed endpoint exactly when `detailed` is set |
| ConnectWiseTicketing.AddNoteRequest | app/clients/connectwise_ticketing_client.py:230-244 | the three flags as query parameters, the note as body |
| ConnectWiseTicketing.CompleteTicketRequest | app/clients/connectwise_ticketing_client.py:273-287 | `notes` and `status` exactly when truthy; the other four parameters always |
| ConnectWiseTicketing.CompleteTicket | app/clients/connectwise_ticketing_client.py:289-302 | success iff 200, a fixed message without reading the body |
| ConnectWiseTicketing.CompleteTicketFollowsPolicy | app/clients/connectwise_ticketing_client.py:289-302 | `complete_ticket` is the shared executor with a fixed success message |
| Autotask.LookupRequest | app/clients/autotask_client.py:11-18 | each lookup is a GET to `/autotask/<name>` whose only parameter is the domain |
| Autotask.Fetch | app/clients/autotask_client.py:19-33 | only 200 succeeds; 204 and 404 are failures like any other status |
| Autotask.LookupsAreDistinct | app/clients/autotask_client.py:11-296 | no two lookups share an endpoint or a payload key |
| Autotask.FetchFollowsPolicy | app/clients/autotask_client.py:11-296 | every lookup is the shared executor with no special statuses |
| ConnectWise.CallRequest | app/clients/connectwise_client.py:11-257 | verb, query and body of each call: the two creations POST their dict, statuses and configuration add board parameters |
| ConnectWise.Fetch | app/clients/connectwise_client.py:11-257 | every call: success iff 200 with a body, the status label otherwise |
| ConnectWise.FetchFollowsPolicy | app/clients/connectwise_client.py:11-257 | every call is the shared executor with no special statuses, so 204 fails |
| PsaClient.UseMock | app/clients/psa_client.py:7 | mock mode exactly when the setting, lower-cased, is "true"; off when unset |
| PsaClient.TicketsRequest | app/clients/psa_client.py:37-42 | a GET with the domain as query |
| PsaClient.TicketsByDomain | app/clients/psa_client.py:11-54 | mock mode makes no call; otherwise a decodable 2xx yields the body, another status an HTTP-error list, a transport failure or an undecodable 2xx body a connection-error list |
| PsaClient.TicketsOrOneError | app/clients/psa_client.py:36-54 | outside mock mode, the decoded 2xx body or a one-element error list: "Connection error" exactly when no status was rejected, otherwise "HTTP error: N" with N reading back as the status |
| PsaClient.MockModeHasTwoTickets | app/clients/psa_client.py:14-33 | mock mode yields exactly the two sample tickets, ids "1" and "2" |
| TicketTools.DiagnosticArgsMissing | server.py:1325 | the diagnostic validation rule: neither a user id nor a technician id |
| TicketTools.CreatorArgsMissing | server.py:1375 | the creation validation rule: no user id, and no technician id or no PSA company |
| TicketTools.CreatorRuleSpelledOut | server.py:1375 | creation is allowed exactly with a user, or with a technician and a company |
| TicketTools.PsaTicketDiagnostic | server.py:1325-1338 | without user and technician a validation error and no call; otherwise one diagnostic call whose body names a user or technician |
| TicketTools.PsaTicketRequest | server.py:1384-1402 | the four fixed fields always; each optional id exactly when truthy; nothing else |
| TicketTools.ValidatedTicketHasCreator | server.py:1375-1396 | a request that passes validation carries `userId`, or `techId` and `psaCompanyId` |
| TicketTools.CreatePsaTicket | server.py:1375-1404 | validation error without any call, or exactly one creation call |
| TicketTools.AiTicketRequest | server.py:1543-1559 | the fixed fields with the AI's summary and board or their defaults; each suggested id exactly when truthy |
| TicketTools.Annotated | server.py:1565-1566 | the AI answer is attached exactly to a successful creation, and nothing else changes |
| TicketTools.CreatePsaTicketWithAi | server.py:1519-1568 | validate; a failed diagnosis is returned verbatim with one call; creation happens exactly when the diagnosis gave a dict |
| TicketTools.AiTicketCreation | server.py:1540-1568 | the second call creates the ticket built from the AI answer; success follows the creation; the answer is attached on success |
| TicketTools.SmartTicketDetails | server.py:916-934 | the fixed details always; contact and suggested ids exactly when truthy; nothing else |
| TicketTools.SmartTicketOptionalDetails | server.py:923-934 | the contact exactly when non-zero; each suggested id exactly when the categorization holds it truthy, unchanged |
| TicketTools.SmartSummaryDefault | server.py:918 | without a suggested summary, the summary is the first 100 characters of the description |
| TicketTools.CreateSmartTicket | server.py:903-937 | a failed categorization is returned verbatim with no creation; creation happens exactly when the categorization is a dict |
| TicketTools.UpdateTicketDetails | server.py:754-766 | exactly the truthy arguments, with their values |
| TicketTools.EmptyUpdate | server.py:754-766 | an update with no truthy argument sends no changes |
| TicketTools.UpdateConnectWiseTicket | server.py:754-768 | one PUT to the ticket with the truthy fields |
| TimeTracking.MinutesOf | server.py:1613-1615 | in hours, the result divided by 60 is the time given; in any other unit the time is passed on |
| TimeTracking.MinutesOfConverts | server.py:1613-1615 | hours, in any letter case, are multiplied by 60; any other unit is taken as minutes |
| TimeTracking.TwoAndAHalfHours | server.py:1606-1615 | 2.5 hours become 150 minutes; 90 minutes stay 90 |
| TimeTracking.CreatePsaTimeEntry | server.py:1610-1632 | one call whose `timeSpent` is in minutes and whose date is the given one or today |
| TimeTracking.BulkEntryBody | server.py:1709-1717 | the entry's ticket id, minutes and date are forwarded when present, today's date otherwise |
| TimeTracking.EntryBodiesShareFields | server.py:1617-1626 | a bulk entry is sent with exactly the fields of a single entry |
| TimeTracking.BulkResults | server.py:1708-1719 | the i-th result is the adapter's reading of the i-th call, and a successful one holds its entry |
| TimeTracking.MinutesLogged | server.py:1727-1729 | the reference sum: the minutes of the entries whose result succeeded, in entry order; `Tally`'s loop is proved equal to it, and `NothingLoggedWithoutSuccess` and `OneOfTwoLogged` evaluate it |
| TimeTracking.NothingLoggedWithoutSuccess | server.py:1727-1729 | no success means no minutes logged |
| TimeTracking.EntryReport | server.py:1721-1733 | the report succeeds exactly when the result did, with an entry id exactly on success and an error exactly on failure |
| TimeTracking.EntryReportShape | server.py:1721-1735 | a report carries an entry id exactly on success and an error exactly on failure |
| TimeTracking.BulkStep | server.py:1727-1733 | each further result adds only its own success and minutes |
| TimeTracking.Tally | server.py:1708-1735 | successes counted, successes plus failures equal to the entries, minutes of logged entries summed, one report per entry in order |
| TimeTracking.LogBulkTimeEntries | server.py:1699-1740 | one call per entry, in order, and the summary built from the tally |
| TimeTracking.BulkOverallSuccess | server.py:1737 | overall success exactly when every entry was logged |
| TimeTracking.OneOfTwoLogged | server.py:1699-1737 | 30 and 60 minutes with the second failing: one success, one failure, 30 minutes, no overall success |
| TimeTracking.LogTimeWithCompletion | server.py:1780-1818 | the close call is made only after a successful log and when asked; overall success requires both |
| SyncTools.BatchEntry | server.py:1278-1293 | a returned sync is recorded as it is; a raised one as `{"success": False, "error": str(e)}`, never a success |
| SyncTools.UnansweredDomainFails | server.py:1278-1293 | an answered domain records the adapter's envelope; a timed-out or failed one the AttributeError's text, not the sync-timeout error; success exactly on a 200 |
| SyncTools.DomainResults | server.py:1278-1281 | every value is a result dict, and the last domain's result is its own |
| SyncTools.DomainResultsKeys | server.py:1278-1281 | every listed domain has a result and nothing else does |
| SyncTools.LastResultWins | server.py:1278-1281 | a domain listed twice keeps its last result |
| SyncTools.SyncRequests | server.py:1278-1280 | one sync request per listed domain, in order |
| SyncTools.BatchSyncDomains | server.py:1270-1296 | one call per domain, in order, and a returned summary whatever the backend answers |
| SyncTools.BatchSyncCounts | server.py:1272-1295 | successes plus failures equal the domain count; overall success exactly when every sync succeeded |
| SyncTools.SingleBoardRequest | server.py:493-502 | id and name always; date and statuses exactly when truthy |
| SyncTools.SyncConnectWiseBoard | server.py:490-504 | one board-sync call carrying the single board; raises exactly when that call got no response; reports one board on success |
| SyncTools.ConfigBoardRequest | server.py:545-554 | id and name always (None when missing); date and statuses exactly when their key is present |
| SyncTools.BlankDateHandledDifferently | server.py:498-554 | a blank date is forwarded by the multi-board builder and dropped by the single-board one |
| SyncTools.ConfigBoardRequests | server.py:543-556 | one request per config, in order |
| SyncTools.SyncMultipleBoards | server.py:540-558 | one board-sync call carrying every config; raises exactly when that call got no response; on success the board count |
| SyncTools.BoardConfigs | server.py:597-602 | one config per fetched board, from its id and name, in order |
| SyncTools.SyncFetchedBoards | server.py:595-617 | no board sync unless boards were retrieved; the multi-board sync exactly when they are a list of dicts |
| SyncTools.RetrievedBoardsNonEmpty | server.py:595-605 | boards are synced only from a non-empty listing, and the sync request carries a non-empty board list |
| SyncTools.FullSyncAfterClients | server.py:591-619 | after the clients sync: the boards fetch, then the sync of their tickets, whose exception escapes; each failure adds its error |
| SyncTools.SyncAllConnectWiseData | server.py:573-619 | clients and contacts first; a clients sync that raises ends the tool after one call, otherwise the boards follow |
| SyncTools.FullSyncStopsOnClientsTimeout | server.py:587-594 | a timed-out clients call raises before the boards are fetched |
| SyncTools.FullSyncAfterClientsSuccess | server.py:588-619 | after the clients sync, overall success exactly when no error was recorded, exactly when the clients and both board steps succeeded |
| SyncTools.FullSyncSuccess | server.py:588-619 | a full sync that returns made both earlier calls; overall success exactly when no error was recorded, exactly when all three steps succeeded |
| EntitySearch.KindNamed | server.py:1057-1071 | the kind named is the one whose key equals the lowered argument, and no kind is named when no key equals it |
| EntitySearch.KindNamedByKey | server.py:1057-1065 | each kind is named by its own key |
| EntitySearch.Filter | server.py:1081-1090 | the kept entities are a subsequence of the listing, in its order, and each one matches the term |
| EntitySearch.FilterMembers | server.py:1081-1090 | an entity is kept exactly when it is in the list and a searched field contains the term |
| EntitySearch.FilterAppend | server.py:1081-1090 | filtering keeps the relative order of the entities |
| EntitySearch.FilterKeepsAllMatches | server.py:1081-1090 | when every entity matches, nothing is dropped |
| EntitySearch.SearchPsaEntities | server.py:1054-1097 | an unknown type is rejected without a call; a failed, unsearched or empty listing is returned unchanged; otherwise the matches with the search recorded |
| EntitySearch.SearchKeepsMatches | server.py:1077-1095 | a search keeps exactly the matching entities and counts them |
| PsaOverview.SampleName | server.py:1128-1166 | a contact's sample is a string; a client's or member's is its name, or "Unknown" without one |
| PsaOverview.Sample | server.py:1128-1131 | at most five names, one per leading entity, in order |
| PsaOverview.Category | server.py:1122-1136 | a failed listing is "failed" with count 0 and its error; a successful one has its length as count and a sample exactly when non-empty |
| PsaOverview.CategoryOfList | server.py:1123-1131 | a non-empty list of dicts is counted in full with at most five sample names |
| PsaOverview.Assemble | server.py:1113-1172 | the first summary that raises ends the overview after as many requests as were made |
| PsaOverview.PsaOverview | server.py:1113-1172 | the three listings are fetched in order; the result holds the three summaries; overall success exactly when all three succeeded |
| PsaOverview.FailedCategoryDoesNotStop | server.py:1133-1136 | a failed category is marked failed and clears overall success, and the next listing is still fetched |
| SchemaTools.SchemaReportedMeans | server.py:75 | the schema counts as existing exactly when the check answered 200 with "true" in its text |
| SchemaTools.CreateWeaviateSchema | server.py:72-82 | once reported, a fixed "already exists" result with one call; otherwise the create call's envelope |
| SchemaTools.SchemaToolSucceeds | server.py:72-82 | success exactly when the schema was reported or the create call answered 200 |

## Left out

- Transport: the HTTP client, async scheduling, base URLs, timeouts and environment configuration are not modelled. The backend is the `answer` parameter.
- Clock: `datetime.now()` is the `today` parameter.
- The thin pass-through tools are not modelled. Each is exactly one adapter method, and that method is modelled. This covers the single-call tools of server.py: the Autotask, ConnectWise, PSA-list, ticketing, note, status, sync, health and schema-check tools.
- `add_psa_contact`, `create_connectwise_board`, `add_connectwise_contact`, `sync_psa_with_status_check` and `log_quick_time_entry` build their requests from plain arguments and are not modelled. The adapter methods they call are.
- Python `str()` of floats, lists and dicts is an uninterpreted `render` parameter. `str()` of strings, booleans, None and integers is exact.
- `str.lower()` is ASCII lower-casing. Non-ASCII letters are left unchanged.
- JSON decoding is not modelled: an outcome carries its decoded body or a decoding error.
- The tool-argument schemas and the `app/tools` and `test_client.py` files are not modelled.
- The sync adapters name `httpx.TimeoutError` in their first handler (app/clients/psa_sync_client.py:49 and 88, app/clients/connectwise_sync_client.py:38 and 84). httpx has no attribute of that name; its timeout class is `TimeoutException`. Python evaluates the handler's expression only while matching an exception, so every exception inside those `try` blocks becomes an AttributeError that escapes the method. The model follows the code (see "## Findings"). The plain adapter names model the code as written, and the `...Intended` functions model the working handlers.
- `raise_for_status` is taken to reject exactly the statuses outside 2xx.
- MinutesOf: a float is an exact real, so `time_spent * 60` is the exact product. Python rounds it to the nearest double (0.03 hours becomes 1.7999999999999998 minutes). That rounding is not modelled.
- MinutesOfConverts: states the conversion on exact reals. The double rounding of the product is not modelled (see MinutesOf).
- CreatePsaTimeEntry: `timeSpent` is stated as the exact real product, not the rounded double the program sends (see MinutesOf).
- SyncAllConnectWiseData: `sync_multiple_connectwise_boards` is itself a tool, decorated with the MCP framework's `@mcp.tool`. The model reads the nested `await` as a plain call of the undecorated function. Whether the decorator returns that function unchanged is library behaviour, and the library is not part of this model.
- LogBulkTimeEntries: `total_hours_logged` (a float rounded to two places) is not modelled, and `time_minutes` must be an integer when present. A float or other value there is excluded by `WholeMinutes`.
- Slicing a dict (`result["clients"][:5]` on a truthy dict) is modelled as `TypeError`. Python 3.12 and later raise `KeyError` there instead.

## Findings

| source | as written | input that shows it | evidently intended | confidence | as-written member | corrected member |
|---|---|---|---|---|---|---|
| app/clients/psa_sync_client.py:49 | `except httpx.TimeoutError:` in `sync_tickets_for_domain`; httpx has no such attribute, so matching the handler raises AttributeError | a sync call that times out or fails in transport (`PsaSync.SyncTimeoutEscapes`) | catch `httpx.TimeoutException` and return the sync-timeout envelope naming the domain | not executed | PsaSync.SyncTicketsForDomain | PsaSync.SyncTicketsForDomainIntended |
| app/clients/psa_sync_client.py:88 | `except httpx.TimeoutError:` in `sync_all_domains` | a sync-all call that times out or fails in transport (`PsaSync.SyncTimeoutEscapes`) | catch `httpx.TimeoutException` and return the sync-timeout envelope with `scope` | not executed | PsaSync.SyncAllDomains | PsaSync.SyncAllDomainsIntended |
| app/clients/connectwise_sync_client.py:38 | `except httpx.TimeoutError:` in `sync_clients_contacts` | a timed-out call, or a 200 whose body does not decode (`ConnectWiseSync.SyncHandlersEscape`) | catch `httpx.TimeoutException`; other exceptions reach `except Exception` and return their text | not executed | ConnectWiseSync.SyncClientsContacts | ConnectWiseSync.SyncClientsContactsIntended |
| app/clients/connectwise_sync_client.py:84 | `except httpx.TimeoutError:` in `sync_board_tickets` | a board-sync call that fails in transport (`ConnectWiseSync.SyncHandlersEscape`) | catch `httpx.TimeoutException`; other exceptions reach `except Exception` and return their text | not executed | ConnectWiseSync.SyncBoardTickets | ConnectWiseSync.SyncBoardTicketsIntended |

The server's tools call these adapters as they are written. So the tool models
are built on the as-written members: `SyncTools.UnansweredDomainFails`,
`SyncTools.SyncConnectWiseBoard`, `SyncTools.SyncMultipleBoards` and
`SyncTools.FullSyncStopsOnClientsTimeout` state what follows for the tools. The
corrected members carry the envelopes each handler was written to return, and
the as-written members return exactly those envelopes on every outcome that
does not raise.
