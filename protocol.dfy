/**
 * The JSON-RPC side of the protocol server: the tool catalogue, the binding
 * of a call's keyword arguments to one of the five tools, and the router
 * over `initialize`, `tools/list`, `tools/call` and anything else.
 *
 * Error codes follow section 5.1 of the JSON-RPC 2.0 Specification:
 * -32601 "Method not found" and -32603 "Internal error". A tool's own
 * failure is not a JSON-RPC error: its `success: false` payload is wrapped
 * in a normal result, which is the double envelope callers unwrap.
 */
module Protocol {
  import opened Wrappers
  import opened Text
  import opened Store

  /** A JSON argument value as the tools take them (null and numbers other than integers are not modelled). */
  datatype Arg = IntArg(i: int) | StrArg(s: string) | ObjArg(fields: map<string, Option<string>>)

  /** A request's `id`, echoed in its response; NoId stands for a missing or null id. */
  datatype RequestId = NoId | NumId(n: int) | StrId(s: string)

  /** `params` of a request; a missing `name` is None and missing `arguments` are empty, as `get` makes them. */
  datatype Params = Params(name: Option<string>, arguments: map<string, Arg>)

  datatype Message = Message(id: RequestId, methodName: Option<string>, params: Params)

  // ---------------------------------------------------------------------
  // The tool catalogue (MCP_TOOLS) and the tool table (TOOL_FUNCTIONS)
  // ---------------------------------------------------------------------

  datatype Property = Property(name: string, jsonType: string, description: string, choices: seq<string>, default: Option<Arg>)

  datatype ToolInfo = ToolInfo(name: string, description: string, properties: seq<Property>, required: seq<string>)

  const McpTools: seq<ToolInfo> := [
    ToolInfo("get_customer", "Retrieve a specific customer by ID.",
      [Property("customer_id", "integer", "The unique ID of the customer", [], None)],
      ["customer_id"]),
    ToolInfo("list_customers", "List customers, optionally by status and with a limit.",
      [Property("status", "string", "Optional filter by status", ["active", "disabled"], None),
       Property("limit", "integer", "Maximum number of customers to return", [], Some(IntArg(10)))],
      []),
    ToolInfo("update_customer", "Update an existing customer's fields using a data dict.",
      [Property("customer_id", "integer", "The ID of the customer to update", [], None),
       Property("data", "object", "Fields to update (name, email, phone, status).", [], None)],
      ["customer_id", "data"]),
    ToolInfo("create_ticket", "Create a support ticket for a customer.",
      [Property("customer_id", "integer", "Customer ID", [], None),
       Property("issue", "string", "Description of the issue", [], None),
       Property("priority", "string", "Ticket priority", ["low", "medium", "high"], Some(StrArg("medium")))],
      ["customer_id", "issue"]),
    ToolInfo("get_customer_history", "Get all tickets for a customer.",
      [Property("customer_id", "integer", "Customer ID", [], None)],
      ["customer_id"])
  ]

  /** The names TOOL_FUNCTIONS maps to Python functions. */
  const ToolNames: set<string> := {"get_customer", "list_customers", "update_customer", "create_ticket", "get_customer_history"}

  /** A tool invocation with its arguments bound to the Python function's parameters. */
  datatype ToolCall =
    | GetCustomerCall(customerId: int)
    | ListCustomersCall(status: Option<string>, limit: int)
    | UpdateCustomerCall(customerId: int, data: map<string, Option<string>>)
    | CreateTicketCall(customerId: int, issue: string, priority: string)
    | HistoryCall(customerId: int)

  function ToolName(call: ToolCall): string {
    match call
    case GetCustomerCall(_) => "get_customer"
    case ListCustomersCall(_, _) => "list_customers"
    case UpdateCustomerCall(_, _) => "update_customer"
    case CreateTicketCall(_, _, _) => "create_ticket"
    case HistoryCall(_) => "get_customer_history"
  }

  /** The keyword parameters of each tool's Python function. */
  function Parameters(name: string): set<string> {
    if name == "get_customer" || name == "get_customer_history" then {"customer_id"}
    else if name == "list_customers" then {"status", "limit"}
    else if name == "update_customer" then {"customer_id", "data"}
    else if name == "create_ticket" then {"customer_id", "issue", "priority"}
    else {}
  }

  /** The parameters without a default value. */
  function RequiredParameters(name: string): set<string> {
    if name == "get_customer" || name == "get_customer_history" then {"customer_id"}
    else if name == "update_customer" then {"customer_id", "data"}
    else if name == "create_ticket" then {"customer_id", "issue"}
    else {}
  }

  /** The JSON type each parameter takes (the same for a name in every tool). */
  function ParameterType(key: string): string {
    if key == "customer_id" || key == "limit" then "integer"
    else if key == "data" then "object"
    else "string"
  }

  predicate HasType(a: Arg, jsonType: string) {
    (jsonType == "integer" && a.IntArg?) || (jsonType == "string" && a.StrArg?) || (jsonType == "object" && a.ObjArg?)
  }

  predicate WellTyped(args: map<string, Arg>) {
    forall k :: k in args ==> HasType(args[k], ParameterType(k))
  }

  datatype Binding = Bound(call: ToolCall) | BindFault(detail: string)

  /** The call `TOOL_FUNCTIONS[name](**arguments)` makes, defaults filled in. */
  function BoundCall(name: string, args: map<string, Arg>): ToolCall
    requires name in ToolNames
    requires args.Keys <= Parameters(name) && RequiredParameters(name) <= args.Keys && WellTyped(args)
  {
    if name == "get_customer" then GetCustomerCall(args["customer_id"].i)
    else if name == "list_customers" then
      ListCustomersCall(if "status" in args then Some(args["status"].s) else None,
                        if "limit" in args then args["limit"].i else 10)
    else if name == "update_customer" then UpdateCustomerCall(args["customer_id"].i, args["data"].fields)
    else if name == "create_ticket" then
      CreateTicketCall(args["customer_id"].i, args["issue"].s,
                       if "priority" in args then args["priority"].s else "medium")
    else HistoryCall(args["customer_id"].i)
  }

  /**
   * Binding keyword arguments: an unexpected keyword is reported first, then a
   * missing required one, then (an addition of this model) a value of the
   * wrong JSON type.
   */
  function Bind(name: string, args: map<string, Arg>): Binding
    requires name in ToolNames
  {
    if !(args.Keys <= Parameters(name)) then BindFault(name + "() got an unexpected keyword argument")
    else if !(RequiredParameters(name) <= args.Keys) then BindFault(name + "() missing a required argument")
    else if !WellTyped(args) then BindFault(name + "() got an argument of the wrong type")
    else Bound(BoundCall(name, args))
  }

  /** Running the bound tool against the store: its payload and the store afterwards. */
  function Execute(s: DbState, call: ToolCall): (Payload, DbState) {
    match call
    case GetCustomerCall(id) => (CustomerLookup(s, id), Consume(s))
    case ListCustomersCall(status, limit) => (CustomerListing(s, status, limit), Consume(s))
    case UpdateCustomerCall(id, data) => CustomerUpdate(s, id, data)
    case CreateTicketCall(id, issue, priority) => TicketCreation(s, id, issue, priority)
    case HistoryCall(id) => (CustomerHistory(s, id), Consume(s))
  }

  // ---------------------------------------------------------------------
  // Responses
  // ---------------------------------------------------------------------

  datatype RpcError = RpcError(code: int, message: string)

  /** One content item; its `text` carries the tool's payload (its JSON encoding is not modelled). */
  datatype Content = Content(kind: string, text: Payload)

  datatype ResultBody =
    | InitializeResult(protocolVersion: string, capabilities: set<string>, serverName: string, serverVersion: string)
    | ToolsListResult(tools: seq<ToolInfo>)
    | ToolCallResult(content: seq<Content>)

  datatype Response = Response(jsonrpc: string, id: RequestId, result: Option<ResultBody>, error: Option<RpcError>)

  const MethodNotFound: int := -32601
  const InternalError: int := -32603

  function Answer(id: RequestId, body: ResultBody): Response {
    Response("2.0", id, Some(body), None)
  }

  function Reject(id: RequestId, code: int, message: string): Response {
    Response("2.0", id, None, Some(RpcError(code, message)))
  }

  /** Python's rendering of an optional string in an f-string. */
  function Shown(s: Option<string>): string {
    if s.None? then "None" else s.value
  }

  /** handle_initialize: static capability and version data, no side effect. */
  function HandleInitialize(msg: Message): (r: Response)
    ensures r.id == msg.id && r.error.None?
    ensures r.result == Some(InitializeResult("2024-11-05", {"tools"}, "customer-support-mcp-server", "1.0.0"))
  {
    Answer(msg.id, InitializeResult("2024-11-05", {"tools"}, "customer-support-mcp-server", "1.0.0"))
  }

  /** handle_tools_list: the static catalogue. */
  function HandleToolsList(msg: Message): (r: Response)
    ensures r.id == msg.id && r.error.None? && r.result == Some(ToolsListResult(McpTools))
  {
    Answer(msg.id, ToolsListResult(McpTools))
  }

  /** handle_tools_call: unknown tool, binding fault, or the tool's payload wrapped as text content. */
  function ToolsCall(s: DbState, msg: Message): (Response, DbState) {
    var name := msg.params.name;
    if name.None? || name.value !in ToolNames then
      (Reject(msg.id, MethodNotFound, "Tool not found: " + Shown(name)), s)
    else match Bind(name.value, msg.params.arguments)
      case BindFault(detail) => (Reject(msg.id, InternalError, "Tool execution error: " + detail), s)
      case Bound(call) =>
        var (p, s') := Execute(s, call);
        (Answer(msg.id, ToolCallResult([Content("text", p)])), s')
  }

  /** process_mcp_message: route on `method`. */
  function Dispatch(s: DbState, msg: Message): (Response, DbState) {
    if msg.methodName == Some("initialize") then (HandleInitialize(msg), s)
    else if msg.methodName == Some("tools/list") then (HandleToolsList(msg), s)
    else if msg.methodName == Some("tools/call") then ToolsCall(s, msg)
    else (Reject(msg.id, MethodNotFound, "Method not found: " + Shown(msg.methodName)), s)
  }

  // ---------------------------------------------------------------------
  // What the dispatcher promises
  // ---------------------------------------------------------------------

  /** Every response is JSON-RPC 2.0, echoes the request id, and has exactly one of result and error. */
  lemma DispatchEnvelope(s: DbState, msg: Message)
    ensures var r := Dispatch(s, msg).0;
      r.jsonrpc == "2.0" && r.id == msg.id && (r.result.Some? <==> r.error.None?)
  {
  }

  /**
   * The router: an unknown method is -32601 "Method not found"; an unknown
   * tool is -32601 "Tool not found" and runs nothing; a binding fault is
   * -32603 and runs nothing; otherwise the tool runs once and its payload,
   * even a failure, is the single text content of a normal result.
   */
  lemma DispatchRouting(s: DbState, msg: Message)
    ensures msg.methodName !in {Some("initialize"), Some("tools/list"), Some("tools/call")} ==>
      Dispatch(s, msg) == (Reject(msg.id, -32601, "Method not found: " + Shown(msg.methodName)), s)
    ensures msg.methodName in {Some("initialize"), Some("tools/list")} ==> Dispatch(s, msg).1 == s && Dispatch(s, msg).0.result.Some?
    ensures msg.methodName == Some("tools/call") && (msg.params.name.None? || msg.params.name.value !in ToolNames) ==>
      Dispatch(s, msg) == (Reject(msg.id, -32601, "Tool not found: " + Shown(msg.params.name)), s)
    ensures msg.methodName == Some("tools/call") && msg.params.name.Some? && msg.params.name.value in ToolNames ==>
      match Bind(msg.params.name.value, msg.params.arguments)
      case BindFault(_) => Dispatch(s, msg).1 == s && Dispatch(s, msg).0.error.Some? && Dispatch(s, msg).0.error.value.code == -32603
      case Bound(call) => Dispatch(s, msg) == (Answer(msg.id, ToolCallResult([Content("text", Execute(s, call).0)])), Execute(s, call).1)
  {
  }

  /** TOOL_FUNCTIONS and MCP_TOOLS name the same five tools, each once. */
  lemma {:induction false} CatalogueNamesTools()
    ensures (set i | 0 <= i < |McpTools| :: McpTools[i].name) == ToolNames
    ensures forall i, j :: 0 <= i < j < |McpTools| ==> McpTools[i].name != McpTools[j].name
  {
    var names := set i | 0 <= i < |McpTools| :: McpTools[i].name;
    assert McpTools[0].name in names && McpTools[1].name in names && McpTools[2].name in names;
    assert McpTools[3].name in names && McpTools[4].name in names;
  }

  function PropertyNames(info: ToolInfo): set<string> {
    set i | 0 <= i < |info.properties| :: info.properties[i].name
  }

  function RequiredNames(info: ToolInfo): set<string> {
    set i | 0 <= i < |info.required| :: info.required[i]
  }

  /**
   * The catalogue's schema agrees with the Python signatures it describes:
   * the same parameter names, the same required ones and the same JSON
   * types (its defaults are CatalogueDefaults).
   */
  lemma {:induction false} CatalogueMatchesSignatures(i: nat)
    requires i < |McpTools|
    ensures var info := McpTools[i];
      && info.name in ToolNames
      && PropertyNames(info) == Parameters(info.name)
      && RequiredNames(info) == RequiredParameters(info.name)
      && (forall p :: p in info.properties ==> p.jsonType == ParameterType(p.name))
  {
    var info := McpTools[i];
    var props := info.properties;
    if |props| == 1 {
      assert props[0].name in PropertyNames(info);
    } else if |props| == 2 {
      assert props[0].name in PropertyNames(info) && props[1].name in PropertyNames(info);
    } else {
      assert props[0].name in PropertyNames(info) && props[1].name in PropertyNames(info) && props[2].name in PropertyNames(info);
    }
    if |info.required| == 1 {
      assert info.required[0] in RequiredNames(info);
    } else if |info.required| == 2 {
      assert info.required[0] in RequiredNames(info) && info.required[1] in RequiredNames(info);
    }
  }

  /**
   * Every default the catalogue advertises (limit=10, priority="medium") is
   * the Python signature's: leaving that argument out binds the same call as
   * passing the default.
   */
  lemma CatalogueDefaults(i: nat, args: map<string, Arg>)
    requires i < |McpTools|
    ensures McpTools[i].name in ToolNames
    ensures forall p :: p in McpTools[i].properties && p.default.Some? && p.name !in args ==>
      Bind(McpTools[i].name, args[p.name := p.default.value]) == Bind(McpTools[i].name, args)
  {
    var info := McpTools[i];
    forall p | p in info.properties && p.default.Some? && p.name !in args
      ensures Bind(info.name, args[p.name := p.default.value]) == Bind(info.name, args)
    {
      if i == 1 {
        LimitDefault(args);
      } else if i == 3 {
        PriorityDefault(args);
      }
    }
  }

  /** list_customers without `limit` binds as with limit=10. */
  lemma LimitDefault(args: map<string, Arg>)
    requires "limit" !in args
    ensures Bind("list_customers", args["limit" := IntArg(10)]) == Bind("list_customers", args)
  {
    var args' := args["limit" := IntArg(10)];
    assert args'.Keys == args.Keys + {"limit"};
    assert WellTyped(args') <==> WellTyped(args);
  }

  /** create_ticket without `priority` binds as with priority="medium". */
  lemma PriorityDefault(args: map<string, Arg>)
    requires "priority" !in args
    ensures Bind("create_ticket", args["priority" := StrArg("medium")]) == Bind("create_ticket", args)
  {
    var args' := args["priority" := StrArg("medium")];
    assert args'.Keys == args.Keys + {"priority"};
    assert WellTyped(args') <==> WellTyped(args);
  }

  /**
   * A call binds exactly when its arguments fit the catalogue entry of its
   * tool: only declared properties, every required one, each of its declared type.
   */
  lemma BindAgreesWithSchema(i: nat, args: map<string, Arg>)
    requires i < |McpTools|
    ensures McpTools[i].name in ToolNames
    ensures Bind(McpTools[i].name, args).Bound? <==>
      && args.Keys <= PropertyNames(McpTools[i])
      && RequiredNames(McpTools[i]) <= args.Keys
      && (forall p :: p in McpTools[i].properties && p.name in args ==> HasType(args[p.name], p.jsonType))
  {
    CatalogueMatchesSignatures(i);
    var info := McpTools[i];
    if args.Keys <= PropertyNames(info) {
      if WellTyped(args) {
        forall p | p in info.properties && p.name in args ensures HasType(args[p.name], p.jsonType) {
        }
      } else {
        var k :| k in args && !HasType(args[k], ParameterType(k));
        assert k in PropertyNames(info);
        var n :| 0 <= n < |info.properties| && info.properties[n].name == k;
        assert info.properties[n] in info.properties;
      }
    }
  }

  // ---------------------------------------------------------------------
  // The server, over the store
  // ---------------------------------------------------------------------

  /** `TOOL_FUNCTIONS[name](**arguments)` once bound. */
  method RunTool(db: SupportDb, call: ToolCall) returns (p: Payload)
    requires db.Valid()
    modifies db
    ensures db.Valid()
    ensures (p, db.State()) == Execute(old(db.State()), call)
  {
    match call
    case GetCustomerCall(id) => p := db.GetCustomer(id);
    case ListCustomersCall(status, limit) => p := db.ListCustomers(status, limit);
    case UpdateCustomerCall(id, data) => p := db.UpdateCustomer(id, data);
    case CreateTicketCall(id, issue, priority) => p := db.CreateTicket(id, issue, priority);
    case HistoryCall(id) => p := db.GetCustomerHistory(id);
  }

  method HandleToolsCall(db: SupportDb, msg: Message) returns (r: Response)
    requires db.Valid()
    modifies db
    ensures db.Valid()
    ensures (r, db.State()) == ToolsCall(old(db.State()), msg)
  {
    var name := msg.params.name;
    if name.None? || name.value !in ToolNames {
      return Reject(msg.id, MethodNotFound, "Tool not found: " + Shown(name));
    }
    var binding := Bind(name.value, msg.params.arguments);
    if binding.BindFault? {
      return Reject(msg.id, InternalError, "Tool execution error: " + binding.detail);
    }
    var payload := RunTool(db, binding.call);
    r := Answer(msg.id, ToolCallResult([Content("text", payload)]));
  }

  method ProcessMessage(db: SupportDb, msg: Message) returns (r: Response)
    requires db.Valid()
    modifies db
    ensures db.Valid()
    ensures (r, db.State()) == Dispatch(old(db.State()), msg)
  {
    if msg.methodName == Some("initialize") {
      r := HandleInitialize(msg);
    } else if msg.methodName == Some("tools/list") {
      r := HandleToolsList(msg);
    } else if msg.methodName == Some("tools/call") {
      r := HandleToolsCall(db, msg);
    } else {
      r := Reject(msg.id, MethodNotFound, "Method not found: " + Shown(msg.methodName));
    }
  }
}
