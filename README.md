# Customer-support multi-agent system, modelled in Dafny

This project models the core of a small customer-support system. A protocol
server exposes five tools over a customer/ticket store:

- get_customer
- list_customers
- update_customer
- create_ticket
- get_customer_history

The server answers JSON-RPC `initialize`, `tools/list` and `tools/call`
requests. Three agents sit on top of it:

- **CustomerDataAgent** sends one `tools/call` per operation and unwraps the
  double envelope: the outer JSON-RPC result or error, and the inner
  `success` payload. It also runs the composite read of active customers
  with open tickets.
- **SupportAgent** runs six fixed workflows over the data agent and appends
  entries to a shared log:
  - account help;
  - upgrade;
  - billing and cancellation;
  - escalation refund;
  - ticket report;
  - update email and show history.
- **RouterAgent** lower-cases the query and extracts a customer id and an
  email address with the source's two regular expressions. It tries eight
  ordered rules and runs the first that fires. It returns the answer with
  the whole log.

The files:

- `common.dfy`:
  - `Wrappers` (Option);
  - `Seqs` (order-preserving filter and map, with their lemmas);
  - `Text` (ASCII lower-casing, substring search, decimal rendering, joining lines).
- `store.dfy` (`Store`):
  - the two tables as fields of class `SupportDb`;
  - each tool specified by a function over a `DbState` snapshot and implemented by a method proved equal to it;
  - lemmas stating what each tool promises.
- `protocol.dfy` (`Protocol`):
  - the tool catalogue;
  - binding of keyword arguments;
  - the JSON-RPC dispatcher, as functions and as methods over the store.
- `agents.dfy` (`Agents`):
  - the client helper;
  - `CustomerDataAgent`, `SupportAgent` and the shared `Log`;
  - a specification function per workflow, with its answer, log entries and resulting store.
- `router.dfy` (`Router`):
  - both extractors, with soundness and completeness lemmas;
  - the ordered rules;
  - `RouterAgent.HandleQuery`, proved equal to `QueryOutcome`.

The model makes these choices:

- **Database faults.** SQLite's "Database error: …" failures come from a
  fault plan held by the store. Each tool call uses up one entry: `None`
  means the call's first SQL statement succeeds, `Some(msg)` means it
  raises. An exhausted plan means no faults. This keeps two branches
  reachable:
  - the composite read skipping a customer whose history fetch failed;
  - the update workflow whose history fetch failed.
- **Validation before the database.** Checks the source makes before its
  first statement win over a fault:
  - an unknown status;
  - "No valid fields";
  - an unknown priority.
- **Integer range.** SQLite binds integers as signed 64-bit values. A
  customer id or limit outside that range makes the statement raise, and the
  tool answers "Database error: Python int too large to convert to SQLite
  INTEGER" (`Store.FitsInteger`, `Store.OverflowMessage`). The check sits
  where the source first binds the value, after the validation above. A
  fault from the plan is taken to come first, since it stands for a
  database that cannot be reached at all. Every stored customer id is in
  range (`Store.Consistent`).
- **Time and ids.** `CURRENT_TIMESTAMP` is the store's `clock`. Only
  `SupportDb.AdvanceClock` moves it, so two rows can share a timestamp.
  Ticket rowids come from `nextTicketId`.
- **Wiring.** The agents reach the server directly: `Agents.McpCallTool`
  calls `Protocol.ProcessMessage` on the shared store. The payload inside a
  result is carried as a value, so JSON encoding and decoding are taken to
  round-trip.

Where the system's design description and the code disagree, the model
follows the code:

- **Default customer id.** `cid or 1` replaces the id `0` as well as a
  missing id with customer 1 (`Router.IdOrDefault`).
- **Status on update.** `update_customer` does not check `status`: any
  string is stored.
- **Status filter.** `list_customers` treats an empty `status` like a
  missing one (`if status:`).
- **Negative limit.** A negative `limit` means "no limit", as in SQLite.
- **Keyword inside a word.** The id pattern matches `id` inside a word:
  "paid 3" yields 3 (`Router.IdInsideWord`).

## Model

| member | source | states |
|---|---|---|
| Store.SortedIdsSpec | mcp_server.py:81-90 | the ids in `ORDER BY id` order are strictly increasing and are exactly the table's keys |
| Store.InsertByAgeMembers | mcp_server.py:204-207 | inserting a ticket into a history adds exactly that ticket (multiset) and one to the length |
| Store.InsertByAgeSorted | mcp_server.py:204-207 | inserting into a newest-first sequence keeps it newest first |
| Store.NewestFirstSpec | mcp_server.py:204-207 | `ORDER BY created_at DESC` yields a newest-first permutation of its input |
| Store.LookupContract | mcp_server.py:44-60 | without a fault, get_customer succeeds iff the id is a 64-bit integer that is stored, returning that record; another in-range id gives "Customer {id} not found", an out-of-range one the overflow database error |
| Store.ListingRejectsStatus | mcp_server.py:75-92 | the status error is returned iff a non-empty status other than active/disabled is given, whatever the database does; past that check, without a fault, a limit outside 64 bits gives the overflow database error; any success is a customer list |
| Store.CustomersByIdSorted | mcp_server.py:81-90 | the customers table read `ORDER BY id` has strictly ascending ids |
| Store.CustomersByIdHas | mcp_server.py:81-90 | every stored customer is among the rows read `ORDER BY id` |
| Store.LimitedKeeps | mcp_server.py:81-90 | `LIMIT` on rows in ascending id keeps every row up to the last one returned, and all rows when it cuts nothing or the limit is negative |
| Store.ListingContract | mcp_server.py:75-96 | a successful listing had a 64-bit limit and has `count` rows, at most `limit` when the limit is not negative, in ascending id, each the stored record and passing the filter |
| Store.ListingComplete | mcp_server.py:81-96 | no passing customer is skipped: every passing customer up to the last returned id is listed, and all are when the limit was not reached or is negative |
| Store.UpdateFailureContract | mcp_server.py:110-128 | no allowed non-None field gives "No valid fields to update" before any lookup; otherwise, without a fault, an id outside 64 bits gives the overflow database error and an unknown in-range id "Customer {id} not found"; a failed update changes no table |
| Store.UpdateSuccessContract | mcp_server.py:110-147 | a successful update sets exactly the provided allowed non-None fields, keeps the others and the id, sets updated_at to now (never earlier than before), returns the stored post-update row, touches no other customer and no ticket, and keeps the store consistent |
| Store.CreationFailureContract | mcp_server.py:162-175 | a bad priority is reported before the customer is looked up; otherwise, without a fault, an id outside 64 bits gives the overflow database error and an unknown in-range id "Customer {id} not found"; a failed creation inserts nothing |
| Store.CreationSuccessContract | mcp_server.py:162-191 | a successful create_ticket appends one open ticket with the given customer, issue and priority and an id no existing ticket has, keeps the customers, and keeps the store consistent |
| Store.HistoryContract | mcp_server.py:196-212 | without a fault the history succeeds iff the id fits 64 bits (otherwise the overflow database error), and is then a ticket list holding exactly the customer's tickets (as a multiset), newest first, with `count` their number (an empty list is not an error) |
| Store.CollectUpdates | mcp_server.py:110-117 | the loop over `data.items()` collects exactly the allowed keys whose value is not None, with their values |
| Store.SupportDb.constructor | mcp_server.py:27-31 | a store opened on consistent seeded tables holds exactly them |
| Store.SupportDb.TakeFault | mcp_server.py:59-60 | a call takes the next entry of the fault plan and uses it up |
| Store.SupportDb.GetCustomer | mcp_server.py:44-60 | the payload is the lookup's; the tables are unchanged and the store stays consistent |
| Store.SupportDb.ListCustomers | mcp_server.py:63-98 | the payload is the listing's; the tables are unchanged and the store stays consistent |
| Store.SupportDb.UpdateCustomer | mcp_server.py:101-149 | the payload and the new tables are those of the update's specification; the store stays consistent |
| Store.SupportDb.CreateTicket | mcp_server.py:152-193 | the payload and the new tables are those of the creation's specification; the store stays consistent |
| Store.SupportDb.GetCustomerHistory | mcp_server.py:196-214 | the payload is the history's; the tables are unchanged |
| Protocol.HandleInitialize | mcp_server.py:327-337 | the response echoes the id and carries protocol version 2024-11-05, the tools capability and the server's name and version, with no error |
| Protocol.HandleToolsList | mcp_server.py:340-346 | the response echoes the id and carries the static catalogue, with no error |
| Protocol.DispatchEnvelope | mcp_server.py:349-397 | every response is JSON-RPC 2.0, echoes the request id, and has exactly one of result and error |
| Protocol.DispatchRouting | mcp_server.py:349-397 | an unknown method is -32601 "Method not found"; initialize and tools/list change nothing; an unknown tool is -32601 "Tool not found" and runs nothing; a binding fault is -32603 and runs nothing; otherwise the tool runs once and its payload, even a failure, is the single text content of a result |
| Protocol.CatalogueNamesTools | mcp_server.py:221-320 | the catalogue and the tool table name the same five tools, each once |
| Protocol.CatalogueMatchesSignatures | mcp_server.py:221-311 | each catalogue entry lists the Python function's parameter names, the same required ones, and the JSON type each binding expects |
| Protocol.CatalogueDefaults | mcp_server.py:245-293 | the catalogue's defaults (limit 10, priority "medium") are the Python signatures': leaving the argument out binds the same call as passing the default |
| Protocol.LimitDefault | mcp_server.py:63 | list_customers called without `limit` binds as with limit 10 |
| Protocol.PriorityDefault | mcp_server.py:152 | create_ticket called without `priority` binds as with priority "medium" |
| Protocol.BindAgreesWithSchema | mcp_server.py:221-311 | a call binds iff its arguments are declared properties of its tool, include every required one, and have the declared types |
| Protocol.RunTool | mcp_server.py:363 | running a bound call is the tool's specification on the store |
| Protocol.HandleToolsCall | mcp_server.py:349-381 | the response and the new store are those of the tools/call specification |
| Protocol.ProcessMessage | mcp_server.py:384-397 | the response and the new store are those of the dispatcher's specification |
| Agents.UnwrapUndoesEnvelope | agents.py:67-70 | unwrapping a result gives back the tool's payload unchanged, even a failure; an error gives a failure with its message; a response with neither gives "Unknown error" |
| Agents.CallOutcomeContract | agents.py:40-70 | through the client, an unknown tool or a binding fault becomes a failure carrying the server's message and leaves the store alone; a bound call is exactly the tool run on the store |
| Agents.McpCallTool | agents.py:40-70 | the payload and the new store are the client's outcome of one tools/call request |
| Agents.ArgumentsRoundTrip | agents.py:84-102 | the arguments the data agent sends bind, at the server, to exactly the call it meant |
| Agents.DataAgentCall | agents.py:84-102 | a data-agent call through client and server equals running the tool on the store |
| Agents.FetchStep | agents.py:116-123 | one more history fetch adds an entry iff its history came back with an open ticket; a failed fetch adds nothing |
| Agents.ItemsOfOrder | agents.py:115-125 | entries keep the ascending customer order of the fetches |
| Agents.ItemsOfKept | agents.py:115-125 | each entry comes from a fetch whose history came back with open tickets |
| Agents.ItemsOfCoverage | agents.py:115-125 | over distinct customers, a fetch is kept iff its customer has an entry |
| Agents.ReportOrder | agents.py:111-125 | a successful composite read reports `count` entries in ascending customer id (listing order) |
| Agents.ReportSelection | agents.py:111-125 | a listed active customer has an entry iff its history came back with an open ticket; a customer whose history fetch failed has none |
| Agents.ReportEntries | agents.py:111-125 | every entry is a listed active customer with the open tickets of its fetched history, which are open tickets of that customer in the store |
| Agents.ReportFailureContract | agents.py:111-113 | a failed listing is returned unchanged, after one call, carrying the database error |
| Agents.CustomerDataAgent.GetCustomer | agents.py:84-85 | the payload is get_customer's on the store; the tables are unchanged |
| Agents.CustomerDataAgent.ListCustomers | agents.py:87-91 | the payload is list_customers's on the store, with the status sent only when given; the tables are unchanged |
| Agents.CustomerDataAgent.UpdateCustomer | agents.py:93-95 | the payload and the new store are update_customer's |
| Agents.CustomerDataAgent.CreateTicket | agents.py:97-99 | the payload and the new store are create_ticket's |
| Agents.CustomerDataAgent.GetCustomerHistory | agents.py:101-102 | the payload is get_customer_history's on the store; the tables are unchanged |
| Agents.CustomerDataAgent.GetActiveCustomersWithOpenTickets | agents.py:104-125 | the report and the new store are the composite read's specification, whose properties are the Report lemmas |
| Agents.CustomerDataAgent.CollectOpenTickets | agents.py:115-123 | the loop makes one history call per listed customer and keeps exactly the entries of the kept fetches, in order |
| Agents.LogEntryAuthor | agents.py:144-147 | an entry written as "{name}: …" is recognised as that agent's |
| Agents.RefundAnswerNamesTicket | agents.py:192-196 | the refund answer contains the new ticket's id |
| Agents.EscalationContract | agents.py:177-196 | escalation creates one open, high-priority ticket with the fixed issue for the customer and names its id in the answer, logging two entries; a failure inserts nothing and logs one |
| Agents.ReportBlocks | agents.py:208-215 | the report's heading lines are exactly the entries' headings, in entry order |
| Agents.ItemBlocksHeadings | agents.py:209-213 | the blocks' heading lines are the entries' headings, in order |
| Agents.BlockHeadings | agents.py:210-213 | an entry's block has one heading line: its first |
| Agents.BulletsAreNotHeadings | agents.py:212-213 | no ticket bullet is a heading line |
| Agents.TicketReportContract | agents.py:198-215 | the report answer is the listing's error on failure, the all-clear message with no entries, and the rendered blocks otherwise; one log entry |
| Agents.HistoryAnswerLists | agents.py:228-233 | every ticket of the history appears in the answer as a line of its own |
| Agents.UpdateEmailStops | agents.py:217-222 | a failed update stops the workflow: no history call, only the fault-plan entry used, answer "Failed to update email: …" |
| Agents.UpdateEmailListsHistory | agents.py:217-233 | after a successful update the customer's stored email is the new one and the history is fetched once; its failure is reported as such, otherwise every ticket of the customer is listed in the answer |
| Agents.AccountHelpContract | agents.py:146-154 | account help looks the customer up once and reports its name, id and status, or the not-found error, or the overflow database error for an id outside 64 bits |
| Agents.UpgradeContract | agents.py:156-167 | the upgrade flow looks the customer up once, logs one entry, and greets a stored customer by name with its status and the upgrade offer, or reports the lookup's not-found or overflow error |
| Agents.SupportAgent.HandleAccountHelp | agents.py:146-154 | answer, appended log entries and new store are the account-help workflow's |
| Agents.SupportAgent.HandleUpgradeRequest | agents.py:156-167 | answer, appended log entries and new store are the upgrade workflow's |
| Agents.SupportAgent.HandleBillingAndCancel | agents.py:169-175 | the fixed negotiation answer and one log entry, with no tool call |
| Agents.SupportAgent.HandleEscalationRefund | agents.py:177-196 | answer, appended log entries and new store are the escalation workflow's |
| Agents.SupportAgent.HandleTicketReport | agents.py:198-215 | answer, appended log entries and new store are the ticket-report workflow's |
| Agents.SupportAgent.HandleUpdateEmailAndHistory | agents.py:217-233 | answer, appended log entries and new store are the update-and-history workflow's |
| Agents.RenderTicketReport | agents.py:208-215 | the loop's text is the header and every entry's block joined by newlines |
| Agents.AppendBlock | agents.py:210-213 | the inner loop appends an entry's heading and one bullet per open ticket, in order |
| Agents.RenderHistory | agents.py:228-233 | the loop's text is the confirmation line and one line per ticket, in history order, joined by newlines |
| Router.RunEnd | agents.py:268 | the greedy run from a position stays in bounds, covers only characters of the class, and stops at the end or at a character outside it |
| Router.ScanIdNone | agents.py:267-269 | the search finds nothing iff the id pattern matches at no position |
| Router.ScanIdFound | agents.py:267-269 | a successful search returns the digits of the leftmost match |
| Router.ExtractCustomerIdSpec | agents.py:267-269 | an id is extracted iff the pattern matches in the lower-cased text, and it is the whole digit run of the leftmost match |
| Router.IdInsideWord | agents.py:267-269 | "paid 3" yields the id 3: the keyword may sit inside a word |
| Router.LastDot | agents.py:272 | backtracking finds the last dot followed by a word character in the range, or none |
| Router.EmailEndSound | agents.py:271-273 | a match found at a position is an address-shaped token |
| Router.EmailEndComplete | agents.py:271-273 | an address-shaped token starting at a position makes the pattern match there |
| Router.ScanEmailSpec | agents.py:271-273 | the search finds nothing iff no position matches; otherwise it returns a match at some position |
| Router.ScanEmailFound | agents.py:271-273 | a successful search's match starts at the leftmost position where the pattern matches, as `re.search`'s does |
| Router.ExtractEmailSound | agents.py:271-273 | whatever the email extractor returns is an address-shaped token contained in the text, and it is the match at the leftmost position where the pattern matches |
| Router.ExtractEmailComplete | agents.py:271-273 | the extractor finds an address whenever the text holds an address-shaped token anywhere |
| Router.ClassifyChosen | agents.py:284-343 | the chosen rule fires and no earlier rule does |
| Router.ClassifyFirstMatch | agents.py:284-343 | a rule is chosen iff it fires and no rule before it does (first match wins) |
| Router.AccountHelpBeatsBilling | agents.py:304-313 | a query asking for help with the account and carrying an id never reaches the billing-and-cancel flow |
| Router.QueryOutcomeOf | agents.py:277-349 | once the rule is known, the result is the query, the delegate's answer and the two router entries followed by the delegate's entries |
| Router.DelegateEntries | agents.py:146-233 | every entry a delegated workflow logs is the support agent's |
| Router.LaterDelegateEntries | agents.py:177-233 | the same, for the escalation and update-email workflows and the rules that delegate nothing |
| Router.AccountHelpAuthored | agents.py:147 | account help logs only support-agent entries |
| Router.BillingAndCancelAuthored | agents.py:170 | billing and cancellation logs only support-agent entries |
| Router.TicketReportAuthored | agents.py:199 | the ticket report logs only support-agent entries |
| Router.UpgradeAuthored | agents.py:157 | the upgrade flow logs only support-agent entries |
| Router.EscalationAuthored | agents.py:178-190 | escalation logs only support-agent entries |
| Router.UpdateEmailAuthored | agents.py:218 | the update-and-history flow logs only support-agent entries |
| Router.QueryTrace | agents.py:277-349 | the result echoes the query; the log opens with the received entry, then the one entry of the first rule that fires, then the delegate's entries in order |
| Router.QueryLogAuthors | agents.py:277-349 | the router writes exactly the first two entries of the log |
| Router.TraceAuthors | agents.py:279-343 | two router entries followed by support-agent entries are attributed correctly, position by position |
| Router.RoutingAuthor | agents.py:286-343 | every routing entry is the router's |
| Router.NotBoth | agents.py:144-147 | no entry is attributed to both agents |
| Router.DirectAnswerFields | agents.py:292-299 | the direct-lookup answer for a found customer contains its name, email, phone and status lines |
| Router.DirectLookupAnswer | agents.py:285-301 | a direct lookup only consumes the lookup's call and answers with the record, or that the customer could not be retrieved, with the not-found error or, for an extracted id outside 64 bits, the overflow database error |
| Router.EscalationDefault | agents.py:328-332 | with no id, or id 0, escalation runs for customer 1 |
| Router.MultiIntentDefault | agents.py:335-340 | with no id (or 0) and no address, the multi-intent flow updates customer 1 to "new@example.com" |
| Router.RouterAgent.LookupAnswer | agents.py:287-299 | one get_customer; the answer lists the record's fields or the error |
| Router.RouterAgent.Run | agents.py:284-349 | answer, appended entries and new store are the chosen rule's delegate specification |
| Router.RouterAgent.RunFromAccountHelp | agents.py:303-349 | the same, for the account-help rule and the rules after it |
| Router.RouterAgent.RunFromReport | agents.py:316-349 | the same, for the ticket-report rule and the rules after it |
| Router.RouterAgent.RunFromEscalation | agents.py:328-349 | the same, for the escalation and multi-intent rules and the fallback |
| Router.RouterAgent.HandleQuery | agents.py:277-349 | the result and the new store are handle_query's specification, whose trace, routing and answers are the lemmas above |
| Router.ChooseRoute | agents.py:285-343 | the if-chain picks the first rule that fires; a rule needing an id is picked only with one |

## Left out

- Flask: the `/mcp` endpoint, its SSE framing (`create_sse_message`), CORS and any health route. The dispatcher is modelled from the parsed message on.
- HTTP and JSON: the client's POST, `raise_for_status`, and transport failures. The JSON encoding of the payload into `text` and its decoding back are also left out; a payload is carried as a value.
- SQLite: connections, SQL text and the file database are replaced by the in-memory tables of `SupportDb`. A fault is taken to surface at the call's first SQL statement, so a failure in opening a connection before list_customers' status check is not modelled separately. A fault in a later statement is not modelled either; in particular the re-read after commit can fail in the source while the write has already happened.
- Store.UpdateFailureContract: "a failed update changes no table" holds in the model only. In the source, a failure of the re-read after the commit (mcp_server.py:139) returns `success: false` with the row already updated.
- Store.CreationFailureContract: "a failed creation inserts nothing" holds in the model only. In the source, a failure of the re-read after the commit (mcp_server.py:187) returns `success: false` with the ticket already inserted.
- Agents.EscalationContract: "a failure inserts nothing" rests on the same assumption as Store.CreationFailureContract.
- SQLite rowids: `nextTicketId` grows without bound. SQLite's behaviour once the largest rowid reaches 2^63 - 1 is not modelled.
- Store.NewestFirstSpec: ties in `created_at` come back in insertion order. SQLite does not promise an order for ties, so the lemma states only newest-first order and permutation.
- Store.SupportDb.UpdateCustomer: values in `data` are strings or None. Other JSON values (numbers, nested objects) are not modelled.
- Protocol.BindAgreesWithSchema: an argument of the wrong JSON type is a binding fault (-32603) in the model. The source has no such check, and the value reaches the tool:
  - a `data` that is not an object fails at `data.items()` with a "Database error: …" payload;
  - a `priority` that is not a string fails the priority check;
  - a `status` that is not a string fails the status check if it is truthy, and means no filter if it is falsy (0, false, null);
  - a `customer_id` or `limit` of another JSON type is bound by SQLite, which may convert it (a string "3" finds customer 3) or raise a "Database error: …" payload;
  - an `issue` that is a number, a boolean or null is bound as it is, and whether it is stored depends on the tickets schema, which is not part of this model; an object or an array cannot be bound by SQLite, so after the customer check the INSERT raises and create_ticket returns a "Database error: …" payload.
  `params` or `arguments` that are not objects are not modelled either.
- Protocol.Bind: Python's TypeError texts are shortened. Python names the argument ("get_customer() missing 1 required positional argument: 'customer_id'", "… got an unexpected keyword argument 'x'"); the model keeps the function name and the kind of error only. Agents.CallOutcomeContract carries these shortened texts.
- Router.ExtractCustomerIdSpec: `str.lower()`, `\s`, `\d` and `\w` are taken on ASCII only. Unicode case mapping and Unicode digits are not modelled.
- Router.ExtractEmailSound: `\w` is taken on ASCII only.
- Router.ExtractCustomerIdSpec: Python's `int()` refuses a digit string of more than 4300 digits (its default limit on integer-string conversion). For such a query the source raises ValueError at agents.py:269, and handle_query gives no answer. The model reads a digit run of any length as a number, so Router.DirectLookupAnswer then proves the overflow answer, where the source has none. The same limit applies to the source's f-strings and `json.dumps` of such an id, which the model renders without limit.
- Printing (termcolor output of requests and responses) and the demo script run_demo.py.
- Concurrency between sessions, and the atomicity of SQLite transactions: every call runs alone on the store.
