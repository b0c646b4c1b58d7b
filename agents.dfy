/**
 * The two specialist agents, wired directly to the protocol server over the
 * store: CustomerDataAgent sends one tools/call per operation and unwraps
 * the double envelope, SupportAgent runs fixed workflows over it and
 * appends to a shared log.
 *
 * Each workflow is specified by a function of the store's state before the
 * call, giving the answer, the log entries it appends and the store after
 * it; the methods of the agent classes are proved against those functions.
 */
module Agents {
  import opened Wrappers
  import opened Seqs
  import opened Text
  import opened Store
  import opened Protocol

  // ---------------------------------------------------------------------
  // mcp_call_tool: one tools/call request, and unwrapping its reply
  // ---------------------------------------------------------------------

  /** The request mcp_call_tool posts. */
  function ToolsCallRequest(name: string, arguments: map<string, Arg>, messageId: int): Message {
    Message(NumId(messageId), Some("tools/call"), Params(Some(name), arguments))
  }

  /** A reply the client can read: a result carries at least one content item. */
  predicate Readable(r: Response) {
    r.result.Some? ==> r.result.value.ToolCallResult? && |r.result.value.content| > 0
  }

  /** The inner payload of a result, or the outer error turned into a failure payload. */
  function Unwrap(r: Response): Payload
    requires Readable(r)
  {
    if r.result.Some? then r.result.value.content[0].text
    else if r.error.Some? then Failed(r.error.value.message)
    else Failed("Unknown error")
  }

  /** Unwrapping undoes the server's wrapping: the payload comes back unchanged, even a failure. */
  lemma UnwrapUndoesEnvelope(id: RequestId, p: Payload, code: int, message: string)
    ensures Unwrap(Answer(id, ToolCallResult([Content("text", p)]))) == p
    ensures Unwrap(Reject(id, code, message)) == Failed(message)
    ensures Unwrap(Response("2.0", id, None, None)) == Failed("Unknown error")
  {
  }

  /** What one mcp_call_tool does to the store, and the payload it returns. */
  function CallOutcome(s: DbState, name: string, arguments: map<string, Arg>, messageId: int): (Payload, DbState) {
    var (r, s') := Dispatch(s, ToolsCallRequest(name, arguments, messageId));
    (Unwrap(r), s')
  }

  /**
   * Through the client, an unknown tool and a binding fault become failure
   * payloads carrying the server's error message and leave the store alone;
   * a bound call is exactly the tool run against the store.
   */
  lemma CallOutcomeContract(s: DbState, name: string, arguments: map<string, Arg>, messageId: int)
    ensures name !in ToolNames ==> CallOutcome(s, name, arguments, messageId) == (Failed("Tool not found: " + name), s)
    ensures name in ToolNames ==>
      match Bind(name, arguments)
      case BindFault(detail) => CallOutcome(s, name, arguments, messageId) == (Failed("Tool execution error: " + detail), s)
      case Bound(call) => CallOutcome(s, name, arguments, messageId) == Execute(s, call)
  {
  }

  method McpCallTool(db: SupportDb, name: string, arguments: map<string, Arg>, messageId: int) returns (p: Payload)
    requires db.Valid()
    modifies db
    ensures db.Valid()
    ensures (p, db.State()) == CallOutcome(old(db.State()), name, arguments, messageId)
  {
    var resp := ProcessMessage(db, ToolsCallRequest(name, arguments, messageId));
    if resp.result.Some? {
      p := resp.result.value.content[0].text;
    } else {
      p := Failed(if resp.error.Some? then resp.error.value.message else "Unknown error");
    }
  }

  // ---------------------------------------------------------------------
  // CustomerDataAgent
  // ---------------------------------------------------------------------

  /** The keyword arguments the data agent sends for a call. */
  function CallArguments(call: ToolCall): map<string, Arg> {
    match call
    case GetCustomerCall(id) => map["customer_id" := IntArg(id)]
    case ListCustomersCall(status, limit) =>
      if status.Some? then map["limit" := IntArg(limit), "status" := StrArg(status.value)]
      else map["limit" := IntArg(limit)]
    case UpdateCustomerCall(id, data) => map["customer_id" := IntArg(id), "data" := ObjArg(data)]
    case CreateTicketCall(id, issue, priority) =>
      map["customer_id" := IntArg(id), "issue" := StrArg(issue), "priority" := StrArg(priority)]
    case HistoryCall(id) => map["customer_id" := IntArg(id)]
  }

  /** The server binds what the data agent sends back to the call it meant. */
  lemma ArgumentsRoundTrip(call: ToolCall)
    ensures ToolName(call) in ToolNames
    ensures Bind(ToolName(call), CallArguments(call)) == Bound(call)
  {
    match call
    case GetCustomerCall(_) => SingleArgumentRoundTrip(call);
    case ListCustomersCall(_, _) => ListArgumentsRoundTrip(call);
    case UpdateCustomerCall(_, _) => UpdateArgumentsRoundTrip(call);
    case CreateTicketCall(_, _, _) => CreateArgumentsRoundTrip(call);
    case HistoryCall(_) => SingleArgumentRoundTrip(call);
  }

  lemma SingleArgumentRoundTrip(call: ToolCall)
    requires call.GetCustomerCall? || call.HistoryCall?
    ensures Bind(ToolName(call), CallArguments(call)) == Bound(call)
  {
    assert CallArguments(call).Keys == {"customer_id"};
  }

  lemma ListArgumentsRoundTrip(call: ToolCall)
    requires call.ListCustomersCall?
    ensures Bind(ToolName(call), CallArguments(call)) == Bound(call)
  {
    if call.status.Some? {
      assert CallArguments(call).Keys == {"limit", "status"};
    } else {
      assert CallArguments(call).Keys == {"limit"};
    }
  }

  lemma UpdateArgumentsRoundTrip(call: ToolCall)
    requires call.UpdateCustomerCall?
    ensures Bind(ToolName(call), CallArguments(call)) == Bound(call)
  {
    assert CallArguments(call).Keys == {"customer_id", "data"};
  }

  lemma CreateArgumentsRoundTrip(call: ToolCall)
    requires call.CreateTicketCall?
    ensures Bind(ToolName(call), CallArguments(call)) == Bound(call)
  {
    assert CallArguments(call).Keys == {"customer_id", "issue", "priority"};
  }

  /** A data-agent call through the client and the server is the tool run against the store. */
  lemma DataAgentCall(s: DbState, call: ToolCall, messageId: int)
    ensures CallOutcome(s, ToolName(call), CallArguments(call), messageId) == Execute(s, call)
  {
    ArgumentsRoundTrip(call);
    CallOutcomeContract(s, ToolName(call), CallArguments(call), messageId);
  }

  /** `n` tool calls' worth of fault-plan entries used up. */
  function ConsumeN(s: DbState, n: nat): DbState {
    if n == 0 then s else Consume(ConsumeN(s, n - 1))
  }

  /** Read-only calls change nothing but the fault plan. */
  lemma {:induction false} ConsumeNKeepsTables(s: DbState, n: nat)
    ensures ConsumeN(s, n) == s.(faultPlan := ConsumeN(s, n).faultPlan)
  {
    if n > 0 {
      ConsumeNKeepsTables(s, n - 1);
    }
  }

  /** A listed customer with the history fetched for it. */
  datatype Fetched = Fetched(customer: Customer, history: Payload)

  /** A report entry: a customer and its open tickets. */
  datatype Item = Item(customer: Customer, openTickets: seq<Ticket>)

  /** get_active_customers_with_open_tickets' result: the entries, or the failed listing unchanged. */
  datatype OpenTicketsReport = Report(count: int, items: seq<Item>) | ReportFailed(base: Payload)

  function IsOpen(): Ticket -> bool {
    (t: Ticket) => t.status == "open"
  }

  function OpenTickets(ts: seq<Ticket>): seq<Ticket> {
    Filter(ts, IsOpen())
  }

  /** A fetch that is reported: the history came back and shows an open ticket. */
  predicate Kept(f: Fetched) {
    f.history.TicketList? && OpenTickets(f.history.tickets) != []
  }

  function KeptFetch(): Fetched -> bool {
    (f: Fetched) => Kept(f)
  }

  function ItemOf(f: Fetched): Item {
    Item(f.customer, if f.history.TicketList? then OpenTickets(f.history.tickets) else [])
  }

  /** The entries for a sequence of fetches: the kept ones, in order, as items. */
  function ItemsOf(fetched: seq<Fetched>): seq<Item> {
    var kept := Filter(fetched, KeptFetch());
    seq(|kept|, k requires 0 <= k < |kept| => ItemOf(kept[k]))
  }

  lemma ItemsOfSnoc(fetched: seq<Fetched>, f: Fetched)
    ensures ItemsOf(fetched + [f]) == ItemsOf(fetched) + (if Kept(f) then [ItemOf(f)] else [])
  {
    FilterAppend(fetched, [f], KeptFetch());
    assert [f][1..] == [];
  }

  /** The histories fetched for a listing, from the state `s` after the listing call: the i-th comes after i earlier history calls. */
  function Fetches(s: DbState, listing: seq<Customer>): seq<Fetched> {
    seq(|listing|, i requires 0 <= i < |listing| => Fetched(listing[i], CustomerHistory(ConsumeN(s, i), listing[i].id)))
  }

  /** One more history fetch adds its entry, if kept, to the items so far. */
  lemma FetchStep(s: DbState, listing: seq<Customer>, i: nat)
    requires i < |listing|
    ensures var fs := Fetches(s, listing);
      var h := CustomerHistory(ConsumeN(s, i), listing[i].id);
      && (h.Success() <==> h.TicketList?)
      && ItemsOf(fs[..i + 1]) == ItemsOf(fs[..i])
           + (if h.TicketList? && OpenTickets(h.tickets) != [] then [Item(listing[i], OpenTickets(h.tickets))] else [])
  {
    var fs := Fetches(s, listing);
    assert fs[..i + 1] == fs[..i] + [fs[i]];
    ItemsOfSnoc(fs[..i], fs[i]);
  }

  /** The composite read: list active customers (limit 100), then fetch each one's history. */
  function ActiveWithOpenTickets(s: DbState): (OpenTicketsReport, DbState) {
    var base := CustomerListing(s, Some("active"), 100);
    if !base.Success() then (ReportFailed(base), Consume(s))
    else
      var after := Consume(s);
      var items := ItemsOf(Fetches(after, base.customers));
      (Report(|items|, items), ConsumeN(after, |base.customers|))
  }

  /** Over fetches in ascending customer id, the items are in ascending customer id. */
  lemma ItemsOfOrder(fetched: seq<Fetched>)
    requires forall i, j :: 0 <= i < j < |fetched| ==> fetched[i].customer.id < fetched[j].customer.id
    ensures var items := ItemsOf(fetched);
      forall k, l :: 0 <= k < l < |items| ==> items[k].customer.id < items[l].customer.id
  {
    var before: (Fetched, Fetched) -> bool := (f: Fetched, g: Fetched) => f.customer.id < g.customer.id;
    FilterSorted(fetched, KeptFetch(), before);
  }

  /** Each item comes from a kept fetch. */
  lemma ItemsOfKept(fetched: seq<Fetched>)
    ensures var items := ItemsOf(fetched);
      forall k :: 0 <= k < |items| ==>
        var f := Filter(fetched, KeptFetch())[k]; f in fetched && Kept(f) && items[k] == ItemOf(f)
  {
    var kept := Filter(fetched, KeptFetch());
    forall k | 0 <= k < |kept| ensures kept[k] in fetched && Kept(kept[k]) {
      FilterMembership(fetched, KeptFetch(), kept[k]);
    }
  }

  /** Over fetches of distinct customers, a fetch is kept exactly when its customer has an item. */
  lemma ItemsOfCoverage(fetched: seq<Fetched>)
    requires forall i, j :: 0 <= i < j < |fetched| ==> fetched[i].customer.id < fetched[j].customer.id
    ensures var items := ItemsOf(fetched);
      forall i :: 0 <= i < |fetched| ==>
        (Kept(fetched[i]) <==> exists k :: 0 <= k < |items| && items[k].customer == fetched[i].customer)
  {
    var kept := Filter(fetched, KeptFetch());
    var items := ItemsOf(fetched);
    forall i | 0 <= i < |fetched|
      ensures Kept(fetched[i]) <==> exists k :: 0 <= k < |items| && items[k].customer == fetched[i].customer
    {
      FilterMembership(fetched, KeptFetch(), fetched[i]);
      if Kept(fetched[i]) {
        var k :| 0 <= k < |kept| && kept[k] == fetched[i];
        assert items[k].customer == fetched[i].customer;
      }
      if k :| 0 <= k < |items| && items[k].customer == fetched[i].customer {
        FilterMembership(fetched, KeptFetch(), kept[k]);
        var j :| 0 <= j < |fetched| && fetched[j] == kept[k];
        assert fetched[j].customer.id == fetched[i].customer.id;
        assert j == i;
      }
    }
  }

  /**
   * A successful composite read reports its entries in listing order
   * (ascending id), and `count` is the number of entries.
   */
  lemma ReportOrder(s: DbState)
    requires Consistent(s)
    requires CustomerListing(s, Some("active"), 100).Success()
    ensures var r := ActiveWithOpenTickets(s).0;
      && r.Report?
      && r.count == |r.items|
      && (forall k, l :: 0 <= k < l < |r.items| ==> r.items[k].customer.id < r.items[l].customer.id)
  {
    ListingContract(s, Some("active"), 100);
    ItemsOfOrder(Fetches(Consume(s), CustomerListing(s, Some("active"), 100).customers));
  }

  /**
   * A successful composite read reports exactly the listed active customers
   * whose history came back with at least one open ticket; a customer whose
   * history fetch failed is skipped.
   */
  lemma ReportSelection(s: DbState)
    requires Consistent(s)
    requires CustomerListing(s, Some("active"), 100).Success()
    ensures CustomerListing(s, Some("active"), 100).CustomerList?
    ensures var r := ActiveWithOpenTickets(s).0;
      var listing := CustomerListing(s, Some("active"), 100).customers;
      var fs := Fetches(Consume(s), listing);
      && r.Report?
      && (forall i :: 0 <= i < |listing| ==>
            ((fs[i].history.TicketList? && OpenTickets(fs[i].history.tickets) != [])
               <==> exists k :: 0 <= k < |r.items| && r.items[k].customer == listing[i]))
      && (forall i :: 0 <= i < |listing| && !fs[i].history.Success() ==>
            forall k :: 0 <= k < |r.items| ==> r.items[k].customer != listing[i])
  {
    ListingContract(s, Some("active"), 100);
    var listing := CustomerListing(s, Some("active"), 100).customers;
    var fs := Fetches(Consume(s), listing);
    var items := ItemsOf(fs);
    assert ActiveWithOpenTickets(s).0 == Report(|items|, items);
    forall i, j | 0 <= i < j < |fs| ensures fs[i].customer.id < fs[j].customer.id {
      assert fs[i].customer == listing[i] && fs[j].customer == listing[j];
    }
    ItemsOfCoverage(fs);
    forall i | 0 <= i < |listing|
      ensures (fs[i].history.TicketList? && OpenTickets(fs[i].history.tickets) != [])
                <==> exists k :: 0 <= k < |items| && items[k].customer == listing[i]
      ensures !fs[i].history.Success() ==> forall k :: 0 <= k < |items| ==> items[k].customer != listing[i]
    {
      assert fs[i].customer == listing[i];
    }
  }

  /**
   * Each entry of a successful composite read is a listed active customer
   * with the open tickets of the history fetched for it, in history order;
   * they are open tickets of that customer in the store.
   */
  lemma ReportEntries(s: DbState)
    requires Consistent(s)
    requires CustomerListing(s, Some("active"), 100).Success()
    ensures CustomerListing(s, Some("active"), 100).CustomerList?
    ensures var r := ActiveWithOpenTickets(s).0;
      var listing := CustomerListing(s, Some("active"), 100).customers;
      var fs := Fetches(Consume(s), listing);
      && r.Report?
      && (forall k :: 0 <= k < |r.items| ==>
            && r.items[k].customer.status == "active"
            && r.items[k].openTickets != []
            && exists i :: 0 <= i < |listing| && fs[i].history.TicketList? && r.items[k] == Item(listing[i], OpenTickets(fs[i].history.tickets)))
      && (forall k, t :: 0 <= k < |r.items| && t in r.items[k].openTickets ==>
            t.status == "open" && t.customerId == r.items[k].customer.id && t in s.tickets)
  {
    ListingContract(s, Some("active"), 100);
    var listing := CustomerListing(s, Some("active"), 100).customers;
    var fs := Fetches(Consume(s), listing);
    var items := ItemsOf(fs);
    forall k | 0 <= k < |items|
      ensures && items[k].customer.status == "active"
              && items[k].openTickets != []
              && exists i :: 0 <= i < |listing| && fs[i].history.TicketList? && items[k] == Item(listing[i], OpenTickets(fs[i].history.tickets))
      ensures forall t :: t in items[k].openTickets ==> t.status == "open" && t.customerId == items[k].customer.id && t in s.tickets
    {
      var i := EntrySource(fs, k);
      assert items[k] == Item(listing[i], OpenTickets(fs[i].history.tickets));
      assert listing[i] in listing;
      ConsumeNKeepsTables(Consume(s), i);
      HistoryContract(ConsumeN(Consume(s), i), listing[i].id);
      forall t | t in items[k].openTickets ensures t.status == "open" && t.customerId == items[k].customer.id && t in s.tickets {
        FilterMembership(fs[i].history.tickets, IsOpen(), t);
      }
    }
  }

  /** The fetch an entry was made from. */
  lemma EntrySource(fetched: seq<Fetched>, k: nat) returns (i: nat)
    requires k < |ItemsOf(fetched)|
    ensures i < |fetched| && Kept(fetched[i]) && ItemsOf(fetched)[k] == ItemOf(fetched[i])
  {
    var kept := Filter(fetched, KeptFetch());
    FilterMembership(fetched, KeptFetch(), kept[k]);
    i :| 0 <= i < |fetched| && fetched[i] == kept[k];
  }

  /** A failed listing is returned unchanged, after one call. */
  lemma ReportFailureContract(s: DbState)
    requires !CustomerListing(s, Some("active"), 100).Success()
    ensures ActiveWithOpenTickets(s) == (ReportFailed(CustomerListing(s, Some("active"), 100)), Consume(s))
    ensures ActiveWithOpenTickets(s).0.base.error == DbError(NextFault(s.faultPlan).value)
  {
  }

  /** A client of the protocol server that only accesses data. */
  class CustomerDataAgent {
    const db: SupportDb

    constructor (db: SupportDb)
      ensures this.db == db
    {
      this.db := db;
    }

    method GetCustomer(customerId: int) returns (p: Payload)
      requires db.Valid()
      modifies db
      ensures db.Valid()
      ensures p == CustomerLookup(old(db.State()), customerId)
      ensures db.State() == Consume(old(db.State()))
    {
      DataAgentCall(db.State(), GetCustomerCall(customerId), 101);
      p := McpCallTool(db, "get_customer", map["customer_id" := IntArg(customerId)], 101);
    }

    method ListCustomers(status: Option<string>, limit: int) returns (p: Payload)
      requires db.Valid()
      modifies db
      ensures db.Valid()
      ensures p == CustomerListing(old(db.State()), status, limit)
      ensures db.State() == Consume(old(db.State()))
    {
      var args := map["limit" := IntArg(limit)];
      if status.Some? {
        args := args["status" := StrArg(status.value)];
      }
      DataAgentCall(db.State(), ListCustomersCall(status, limit), 102);
      p := McpCallTool(db, "list_customers", args, 102);
    }

    method UpdateCustomer(customerId: int, data: map<string, Option<string>>) returns (p: Payload)
      requires db.Valid()
      modifies db
      ensures db.Valid()
      ensures (p, db.State()) == CustomerUpdate(old(db.State()), customerId, data)
    {
      DataAgentCall(db.State(), UpdateCustomerCall(customerId, data), 103);
      p := McpCallTool(db, "update_customer", map["customer_id" := IntArg(customerId), "data" := ObjArg(data)], 103);
    }

    method CreateTicket(customerId: int, issue: string, priority: string) returns (p: Payload)
      requires db.Valid()
      modifies db
      ensures db.Valid()
      ensures (p, db.State()) == TicketCreation(old(db.State()), customerId, issue, priority)
    {
      DataAgentCall(db.State(), CreateTicketCall(customerId, issue, priority), 104);
      p := McpCallTool(db, "create_ticket",
                       map["customer_id" := IntArg(customerId), "issue" := StrArg(issue), "priority" := StrArg(priority)], 104);
    }

    method GetCustomerHistory(customerId: int) returns (p: Payload)
      requires db.Valid()
      modifies db
      ensures db.Valid()
      ensures p == CustomerHistory(old(db.State()), customerId)
      ensures db.State() == Consume(old(db.State()))
    {
      DataAgentCall(db.State(), HistoryCall(customerId), 105);
      p := McpCallTool(db, "get_customer_history", map["customer_id" := IntArg(customerId)], 105);
    }

    method GetActiveCustomersWithOpenTickets() returns (r: OpenTicketsReport)
      requires db.Valid()
      modifies db
      ensures db.Valid()
      ensures (r, db.State()) == ActiveWithOpenTickets(old(db.State()))
    {
      var base := ListCustomers(Some("active"), 100);
      if !base.Success() {
        return ReportFailed(base);
      }
      var results := CollectOpenTickets(base.customers);
      r := Report(|results|, results);
    }

    /** The loop of the composite read: one history call per listed customer, keeping those with open tickets. */
    method CollectOpenTickets(listing: seq<Customer>) returns (results: seq<Item>)
      requires db.Valid()
      modifies db
      ensures db.Valid()
      ensures results == ItemsOf(Fetches(old(db.State()), listing))
      ensures db.State() == ConsumeN(old(db.State()), |listing|)
    {
      ghost var s := db.State();
      ghost var fs := Fetches(s, listing);
      results := [];
      for i := 0 to |listing|
        invariant db.Valid()
        invariant db.State() == ConsumeN(s, i)
        invariant results == ItemsOf(fs[..i])
      {
        var cust := listing[i];
        var hist := GetCustomerHistory(cust.id);
        FetchStep(s, listing, i);
        if !hist.Success() {
          continue;
        }
        var open := OpenTickets(hist.tickets);
        if |open| > 0 {
          results := results + [Item(cust, open)];
        }
      }
      assert fs[..|listing|] == fs;
    }
  }

  // ---------------------------------------------------------------------
  // SupportAgent
  // ---------------------------------------------------------------------

  /** The shared list of agent-to-agent log entries. */
  class Log {
    var entries: seq<string>

    constructor ()
      ensures entries == []
    {
      entries := [];
    }

    method Append(entry: string)
      modifies this
      ensures entries == old(entries) + [entry]
    {
      entries := entries + [entry];
    }
  }

  const SupportName: string := "SupportAgent"

  /** A log entry as the agents write it: the agent's name, a colon, the message. */
  function LogEntry(agent: string, message: string): string {
    agent + ": " + message
  }

  /** Whether a log entry was written by `agent`. */
  predicate WrittenBy(agent: string, entry: string) {
    |agent| + 2 <= |entry| && entry[..|agent| + 2] == agent + ": "
  }

  lemma LogEntryAuthor(agent: string, message: string)
    ensures WrittenBy(agent, LogEntry(agent, message))
  {
    assert LogEntry(agent, message)[..|agent| + 2] == agent + ": ";
  }

  /** What a workflow does: its answer, the log entries it appends, and the store afterwards. */
  datatype Step = Step(answer: string, logged: seq<string>, after: DbState)

  function AccountAnswer(customerId: int, p: Payload): string
    requires p.Failed? || p.CustomerFound?
  {
    if !p.Success() then "Unable to fetch account info for customer " + IntToString(customerId) + ": " + p.error
    else "I found your account: " + p.customer.name + " (ID " + IntToString(p.customer.id) + "), status = " + p.customer.status + "."
  }

  /** handle_account_help: one get_customer. */
  function AccountHelp(s: DbState, customerId: int): Step {
    Step(AccountAnswer(customerId, CustomerLookup(s, customerId)),
         [LogEntry(SupportName, "Requesting customer info via DataAgent.get_customer(" + IntToString(customerId) + ")")],
         Consume(s))
  }

  function UpgradeAnswer(customerId: int, p: Payload): string
    requires p.Failed? || p.CustomerFound?
  {
    if !p.Success() then "Unable to fetch account info for customer " + IntToString(customerId) + ": " + p.error
    else
      "Hello " + p.customer.name + "! Your current account status is " + p.customer.status + ".\n"
      + "Based on your typical usage, I can help you upgrade to a better plan if needed."
  }

  /** handle_upgrade_request: one get_customer. */
  function UpgradeRequest(s: DbState, customerId: int): Step {
    Step(UpgradeAnswer(customerId, CustomerLookup(s, customerId)),
         [LogEntry(SupportName, "Fetching customer info before recommending upgrade")],
         Consume(s))
  }

  const BillingAndCancelAnswer: string :=
    "You mentioned both cancellation and billing issues.\n"
    + "I will first investigate your recent billing records. If there were any incorrect charges, "
    + "I will submit a refund request before completing your cancellation."

  /** handle_billing_and_cancel: a fixed reply and no tool call. */
  function BillingAndCancel(s: DbState): Step {
    Step(BillingAndCancelAnswer, [LogEntry(SupportName, "Handling combined billing + cancellation flow")], s)
  }

  const RefundIssue: string := "Double charge / urgent refund"

  function RefundAnswer(ticketId: int): string {
    "I\U{2019}m sorry for the duplicate charge.\n"
    + "A high-priority refund ticket (ID " + IntToString(ticketId) + ") has been submitted. "
    + "Our billing team will contact you shortly."
  }

  /** handle_escalation_refund: one create_ticket with the fixed issue and priority "high". */
  function EscalationRefund(s: DbState, customerId: int): Step {
    var first := LogEntry(SupportName, "Creating high-priority refund ticket due to double charge");
    var (p, s') := TicketCreation(s, customerId, RefundIssue, "high");
    if !p.Success() then Step("Failed to create escalation ticket: " + p.error, [first], s')
    else Step(RefundAnswer(p.ticket.id), [first, LogEntry(SupportName, "High-priority ticket #" + IntToString(p.ticket.id) + " created")], s')
  }

  /** The refund answer names the ticket it reports. */
  lemma RefundAnswerNamesTicket(ticketId: int)
    ensures Contains(RefundAnswer(ticketId), IntToString(ticketId))
  {
    var before := "I\U{2019}m sorry for the duplicate charge.\n" + "A high-priority refund ticket (ID ";
    var after := ") has been submitted. " + "Our billing team will contact you shortly.";
    ContainsMiddle(before, IntToString(ticketId), after);
    assert before + IntToString(ticketId) + after == RefundAnswer(ticketId);
  }

  /**
   * Escalation creates exactly one ticket, open, for the customer, with the
   * fixed issue and priority "high"; on success the answer names the new
   * ticket's id and a second log entry is appended, on failure nothing is
   * inserted and only the first entry is logged.
   */
  lemma EscalationContract(s: DbState, customerId: int)
    requires Consistent(s)
    ensures var st := EscalationRefund(s, customerId);
      var (p, s') := TicketCreation(s, customerId, RefundIssue, "high");
      && st.after == s'
      && (p.Success() ==>
            && |st.logged| == 2
            && s'.tickets == s.tickets + [Ticket(s.nextTicketId, customerId, RefundIssue, "open", "high", s.clock)]
            && Contains(st.answer, IntToString(s.nextTicketId)))
      && (!p.Success() ==> |st.logged| == 1 && s'.tickets == s.tickets && s'.customers == s.customers)
  {
    if TicketCreation(s, customerId, RefundIssue, "high").0.Success() {
      RefundAnswerNamesTicket(s.nextTicketId);
    }
  }

  // Written as two literals so that its first character is visible to the
  // verifier without unfolding the whole literal.
  const ReportHeader: string := "Here" + " is the list of active customers with open tickets:"
  const AllClear: string := "All active customers currently have no open tickets. System health looks good. \U{2713}"

  function ItemHeading(c: Customer): string {
    "\n- " + c.name + " (ID " + IntToString(c.id) + ")"
  }

  function TicketBullet(t: Ticket): string {
    "    \U{2022} Ticket #" + IntToString(t.id) + ": " + t.issue + " [priority=" + t.priority + "]"
  }

  /** One bullet per ticket, in ticket order. */
  function TicketBullets(ts: seq<Ticket>): seq<string> {
    Map(ts, TicketBullet)
  }

  /** An entry's lines: its heading, then one bullet per open ticket. */
  function ItemBlock(item: Item): seq<string> {
    [ItemHeading(item.customer)] + TicketBullets(item.openTickets)
  }

  function ItemBlocks(items: seq<Item>): seq<string> {
    if items == [] then [] else ItemBlocks(items[..|items| - 1]) + ItemBlock(items[|items| - 1])
  }

  function ReportLines(items: seq<Item>): seq<string> {
    [ReportHeader] + ItemBlocks(items)
  }

  /** handle_ticket_report: the composite read, then a rendered report. */
  function TicketReport(s: DbState): Step {
    var entry := LogEntry(SupportName, "Requesting active customers with open tickets");
    var (r, s') := ActiveWithOpenTickets(s);
    var answer :=
      if r.ReportFailed? then "Unable to generate ticket report: " + (if r.base.Failed? then r.base.error else "")
      else if r.count == 0 then AllClear
      else Join(ReportLines(r.items), "\n");
    Step(answer, [entry], s')
  }

  /** A line that opens an entry's block. */
  predicate IsHeading(line: string) {
    |line| >= 3 && line[..3] == "\n- "
  }

  /** The entries' headings, in entry order. */
  function Headings(items: seq<Item>): (r: seq<string>)
    ensures |r| == |items|
  {
    if items == [] then [] else Headings(items[..|items| - 1]) + [ItemHeading(items[|items| - 1].customer)]
  }

  /** The report renders one block per entry, in entry order: its heading lines are the entries' headings. */
  lemma ReportBlocks(items: seq<Item>)
    ensures Filter(ReportLines(items), IsHeading) == Headings(items)
  {
    assert !IsHeading(ReportHeader) by { assert ReportHeader[0] == 'H'; }
    FilterAppend([ReportHeader], ItemBlocks(items), IsHeading);
    assert Filter([ReportHeader], IsHeading) == [];
    ItemBlocksHeadings(items);
  }

  lemma {:induction false} ItemBlocksHeadings(items: seq<Item>)
    ensures Filter(ItemBlocks(items), IsHeading) == Headings(items)
  {
    if items != [] {
      var n := |items| - 1;
      ItemBlocksHeadings(items[..n]);
      FilterAppend(ItemBlocks(items[..n]), ItemBlock(items[n]), IsHeading);
      BlockHeadings(items[n]);
    }
  }

  /** A block has one heading line, its first. */
  lemma BlockHeadings(item: Item)
    ensures Filter(ItemBlock(item), IsHeading) == [ItemHeading(item.customer)]
  {
    var heading := ItemHeading(item.customer);
    assert IsHeading(heading) by { assert heading[..3] == "\n- "; }
    BulletsAreNotHeadings(item.openTickets);
    FilterAppend([heading], TicketBullets(item.openTickets), IsHeading);
    assert Filter([heading], IsHeading) == [heading];
  }

  lemma {:induction false} BulletsAreNotHeadings(ts: seq<Ticket>)
    ensures Filter(TicketBullets(ts), IsHeading) == []
  {
    if ts != [] {
      var n := |ts| - 1;
      BulletsAreNotHeadings(ts[..n]);
      var bullet := TicketBullet(ts[n]);
      assert TicketBullets(ts) == TicketBullets(ts[..n]) + [bullet];
      assert !IsHeading(bullet) by { assert bullet[..3][0] == bullet[0] == ' '; }
      FilterAppend(TicketBullets(ts[..n]), [bullet], IsHeading);
      assert Filter([bullet], IsHeading) == [];
    }
  }

  /**
   * The report answer: the listing's error when the listing failed, the
   * all-clear message when no active customer has an open ticket, and
   * otherwise the rendered blocks; one composite read, one log entry.
   */
  lemma TicketReportContract(s: DbState)
    requires Consistent(s)
    ensures var st := TicketReport(s);
      var base := CustomerListing(s, Some("active"), 100);
      && |st.logged| == 1
      && st.after == ActiveWithOpenTickets(s).1
      && (!base.Success() ==> base.Failed? && st.answer == "Unable to generate ticket report: " + base.error)
      && (base.Success() && ActiveWithOpenTickets(s).0.items == [] ==> st.answer == AllClear)
      && (base.Success() && ActiveWithOpenTickets(s).0.items != [] ==>
            st.answer == Join(ReportLines(ActiveWithOpenTickets(s).0.items), "\n"))
  {
    if CustomerListing(s, Some("active"), 100).Success() {
      ReportOrder(s);
    }
  }

  function HistoryLine(t: Ticket): string {
    "- Ticket #" + IntToString(t.id) + ": " + t.issue + " [status=" + t.status + ", priority=" + t.priority + "]"
  }

  /** One line per ticket, in ticket order. */
  function HistoryBody(ts: seq<Ticket>): seq<string> {
    Map(ts, HistoryLine)
  }

  function HistoryLines(email: string, ts: seq<Ticket>): seq<string> {
    ["Email updated to " + email + ". Here\U{2019}s your ticket history:"] + HistoryBody(ts)
  }

  /** Every ticket of the history appears in the answer as a line of its own. */
  lemma HistoryAnswerLists(email: string, ts: seq<Ticket>, j: nat)
    requires j < |ts|
    ensures Contains(Join(HistoryLines(email, ts), "\n"), HistoryLine(ts[j]))
  {
    MapIndex(ts, HistoryLine, j);
    JoinContainsLine(HistoryLines(email, ts), "\n", j + 1);
  }

  /** handle_update_email_and_history: update the email; only if that succeeded, fetch the history. */
  function UpdateEmailAndHistory(s: DbState, customerId: int, email: string): Step {
    var entry := LogEntry(SupportName, "Updating email, then fetching ticket history");
    var (u, s1) := CustomerUpdate(s, customerId, map["email" := Some(email)]);
    if !u.Success() then Step("Failed to update email: " + u.error, [entry], s1)
    else
      var h := CustomerHistory(s1, customerId);
      if !h.Success() then Step("Email updated to " + email + ", but failed to fetch ticket history.", [entry], Consume(s1))
      else Step(Join(HistoryLines(email, h.tickets), "\n"), [entry], Consume(s1))
  }

  /** A failed update stops the workflow: no history call, the store as it was, "Failed to update email". */
  lemma UpdateEmailStops(s: DbState, customerId: int, email: string)
    requires !CustomerUpdate(s, customerId, map["email" := Some(email)]).0.Success()
    ensures var st := UpdateEmailAndHistory(s, customerId, email);
      var u := CustomerUpdate(s, customerId, map["email" := Some(email)]).0;
      && |st.logged| == 1
      && st.after == Consume(s)
      && st.answer == "Failed to update email: " + u.error
  {
  }

  /**
   * After a successful update the customer's email is the new one and the
   * history is fetched once; if it failed the answer says so, otherwise every
   * ticket of the customer appears in the answer as its own line.
   */
  lemma UpdateEmailListsHistory(s: DbState, customerId: int, email: string)
    requires Consistent(s)
    requires CustomerUpdate(s, customerId, map["email" := Some(email)]).0.Success()
    ensures var st := UpdateEmailAndHistory(s, customerId, email);
      var s1 := CustomerUpdate(s, customerId, map["email" := Some(email)]).1;
      && |st.logged| == 1
      && st.after == Consume(s1)
      && customerId in st.after.customers
      && st.after.customers[customerId].email == email
      && (NextFault(s1.faultPlan).Some? ==>
            st.answer == "Email updated to " + email + ", but failed to fetch ticket history.")
      && (NextFault(s1.faultPlan).None? ==>
            forall t :: t in s.tickets && t.customerId == customerId ==> Contains(st.answer, HistoryLine(t)))
  {
    var data := map["email" := Some(email)];
    UpdateSuccessContract(s, customerId, data);
    var (u, s1) := CustomerUpdate(s, customerId, data);
    assert FieldOf(u.customer, "email") == email;
    if NextFault(s1.faultPlan).None? {
      HistoryContract(s1, customerId);
      var ts := CustomerHistory(s1, customerId).tickets;
      forall t | t in s.tickets && t.customerId == customerId
        ensures Contains(Join(HistoryLines(email, ts), "\n"), HistoryLine(t))
      {
        var j :| 0 <= j < |ts| && ts[j] == t;
        HistoryAnswerLists(email, ts, j);
      }
    }
  }

  /** Account help looks the customer up once and reports its name, id and status, or the lookup's error. */
  lemma AccountHelpContract(s: DbState, customerId: int)
    requires Consistent(s)
    requires NextFault(s.faultPlan) == None
    ensures var st := AccountHelp(s, customerId);
      && st.after == Consume(s) && |st.logged| == 1
      && (customerId in s.customers ==>
            var c := s.customers[customerId];
            st.answer == "I found your account: " + c.name + " (ID " + IntToString(customerId) + "), status = " + c.status + ".")
      && (FitsInteger(customerId) && customerId !in s.customers ==>
            st.answer == "Unable to fetch account info for customer " + IntToString(customerId) + ": " + NotFoundMessage(customerId))
      && (!FitsInteger(customerId) ==>
            st.answer == "Unable to fetch account info for customer " + IntToString(customerId) + ": " + DbError(OverflowMessage))
  {
    LookupContract(s, customerId);
  }

  /**
   * The upgrade flow looks the customer up once; a stored customer is greeted
   * by name with its status and the upgrade offer, otherwise the lookup's error
   * is reported.
   */
  lemma UpgradeContract(s: DbState, customerId: int)
    requires Consistent(s)
    requires NextFault(s.faultPlan) == None
    ensures var st := UpgradeRequest(s, customerId);
      && st.after == Consume(s) && |st.logged| == 1
      && (customerId in s.customers ==>
            var c := s.customers[customerId];
            st.answer == "Hello " + c.name + "! Your current account status is " + c.status + ".\n"
              + "Based on your typical usage, I can help you upgrade to a better plan if needed.")
      && (FitsInteger(customerId) && customerId !in s.customers ==>
            st.answer == "Unable to fetch account info for customer " + IntToString(customerId) + ": " + NotFoundMessage(customerId))
      && (!FitsInteger(customerId) ==>
            st.answer == "Unable to fetch account info for customer " + IntToString(customerId) + ": " + DbError(OverflowMessage))
  {
    LookupContract(s, customerId);
  }

  /** A specialist that reasons over the data agent. */
  class SupportAgent {
    const data: CustomerDataAgent

    constructor (data: CustomerDataAgent)
      ensures this.data == data
    {
      this.data := data;
    }

    method HandleAccountHelp(customerId: int, logs: Log) returns (answer: string)
      requires data.db.Valid()
      modifies data.db, logs
      ensures data.db.Valid()
      ensures var st := AccountHelp(old(data.db.State()), customerId);
        answer == st.answer && logs.entries == old(logs.entries) + st.logged && data.db.State() == st.after
    {
      logs.Append(LogEntry(SupportName, "Requesting customer info via DataAgent.get_customer(" + IntToString(customerId) + ")"));
      var result := data.GetCustomer(customerId);
      if !result.Success() {
        return "Unable to fetch account info for customer " + IntToString(customerId) + ": " + result.error;
      }
      var cust := result.customer;
      answer := "I found your account: " + cust.name + " (ID " + IntToString(cust.id) + "), status = " + cust.status + ".";
    }

    method HandleUpgradeRequest(customerId: int, logs: Log) returns (answer: string)
      requires data.db.Valid()
      modifies data.db, logs
      ensures data.db.Valid()
      ensures var st := UpgradeRequest(old(data.db.State()), customerId);
        answer == st.answer && logs.entries == old(logs.entries) + st.logged && data.db.State() == st.after
    {
      logs.Append(LogEntry(SupportName, "Fetching customer info before recommending upgrade"));
      var result := data.GetCustomer(customerId);
      if !result.Success() {
        return "Unable to fetch account info for customer " + IntToString(customerId) + ": " + result.error;
      }
      var cust := result.customer;
      answer := "Hello " + cust.name + "! Your current account status is " + cust.status + ".\n"
        + "Based on your typical usage, I can help you upgrade to a better plan if needed.";
    }

    method HandleBillingAndCancel(logs: Log) returns (answer: string)
      requires data.db.Valid()
      modifies logs
      ensures var st := BillingAndCancel(data.db.State());
        answer == st.answer && logs.entries == old(logs.entries) + st.logged
    {
      logs.Append(LogEntry(SupportName, "Handling combined billing + cancellation flow"));
      answer := BillingAndCancelAnswer;
    }

    method HandleEscalationRefund(customerId: int, logs: Log) returns (answer: string)
      requires data.db.Valid()
      modifies data.db, logs
      ensures data.db.Valid()
      ensures var st := EscalationRefund(old(data.db.State()), customerId);
        answer == st.answer && logs.entries == old(logs.entries) + st.logged && data.db.State() == st.after
    {
      logs.Append(LogEntry(SupportName, "Creating high-priority refund ticket due to double charge"));
      var ticket := data.CreateTicket(customerId, RefundIssue, "high");
      if !ticket.Success() {
        return "Failed to create escalation ticket: " + ticket.error;
      }
      var t := ticket.ticket;
      logs.Append(LogEntry(SupportName, "High-priority ticket #" + IntToString(t.id) + " created"));
      answer := RefundAnswer(t.id);
    }

    method HandleTicketReport(logs: Log) returns (answer: string)
      requires data.db.Valid()
      modifies data.db, logs
      ensures data.db.Valid()
      ensures var st := TicketReport(old(data.db.State()));
        answer == st.answer && logs.entries == old(logs.entries) + st.logged && data.db.State() == st.after
    {
      logs.Append(LogEntry(SupportName, "Requesting active customers with open tickets"));
      var result := data.GetActiveCustomersWithOpenTickets();
      if result.ReportFailed? {
        return "Unable to generate ticket report: " + (if result.base.Failed? then result.base.error else "");
      }
      if result.count == 0 {
        return AllClear;
      }
      answer := RenderTicketReport(result.items);
    }

    method HandleUpdateEmailAndHistory(customerId: int, newEmail: string, logs: Log) returns (answer: string)
      requires data.db.Valid()
      modifies data.db, logs
      ensures data.db.Valid()
      ensures var st := UpdateEmailAndHistory(old(data.db.State()), customerId, newEmail);
        answer == st.answer && logs.entries == old(logs.entries) + st.logged && data.db.State() == st.after
    {
      logs.Append(LogEntry(SupportName, "Updating email, then fetching ticket history"));
      var upd := data.UpdateCustomer(customerId, map["email" := Some(newEmail)]);
      if !upd.Success() {
        return "Failed to update email: " + upd.error;
      }
      var hist := data.GetCustomerHistory(customerId);
      if !hist.Success() {
        return "Email updated to " + newEmail + ", but failed to fetch ticket history.";
      }
      answer := RenderHistory(newEmail, hist.tickets);
    }
  }

  lemma ItemBlocksSnoc(items: seq<Item>, i: nat)
    requires i < |items|
    ensures ItemBlocks(items[..i + 1]) == ItemBlocks(items[..i]) + ItemBlock(items[i])
  {
    assert items[..i + 1][..i] == items[..i];
  }

  /** The report text, built line by line. */
  method RenderTicketReport(items: seq<Item>) returns (text: string)
    ensures text == Join(ReportLines(items), "\n")
  {
    var lines := [ReportHeader];
    for i := 0 to |items|
      invariant lines == [ReportHeader] + ItemBlocks(items[..i])
    {
      ItemBlocksSnoc(items, i);
      AppendAssociative([ReportHeader], ItemBlocks(items[..i]), ItemBlock(items[i]));
      lines := AppendBlock(lines, items[i]);
    }
    assert items[..|items|] == items;
    text := Join(lines, "\n");
  }

  /** One entry's heading, then a bullet per open ticket. */
  method AppendBlock(lines: seq<string>, item: Item) returns (out: seq<string>)
    ensures out == lines + ItemBlock(item)
  {
    var ts := item.openTickets;
    var head := lines + [ItemHeading(item.customer)];
    out := head;
    assert TicketBullets(ts[..0]) == [];
    for j := 0 to |ts|
      invariant out == head + TicketBullets(ts[..j])
    {
      MapSnoc(ts, TicketBullet, j);
      AppendAssociative(head, TicketBullets(ts[..j]), [TicketBullet(ts[j])]);
      out := out + [TicketBullet(ts[j])];
    }
    assert ts[..|ts|] == ts;
    AppendAssociative(lines, [ItemHeading(item.customer)], TicketBullets(ts));
  }

  /** The history answer, built line by line. */
  method RenderHistory(email: string, tickets: seq<Ticket>) returns (text: string)
    ensures text == Join(HistoryLines(email, tickets), "\n")
  {
    var lines := ["Email updated to " + email + ". Here\U{2019}s your ticket history:"];
    for j := 0 to |tickets|
      invariant lines == HistoryLines(email, tickets[..j])
    {
      MapSnoc(tickets, HistoryLine, j);
      lines := lines + [HistoryLine(tickets[j])];
    }
    assert tickets[..|tickets|] == tickets;
    text := Join(lines, "\n");
  }
}
