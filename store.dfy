/**
 * The customer/ticket store behind the protocol server, and its five tools
 * (get_customer, list_customers, update_customer, create_ticket,
 * get_customer_history).
 *
 * The SQLite tables become the fields of class SupportDb. Each tool is
 * specified by a function over a snapshot of those fields (DbState) and
 * implemented by a method of SupportDb proved against it. CURRENT_TIMESTAMP
 * is the store's `clock`; a database fault is taken from the store's
 * `faultPlan`, one entry per tool call.
 */
module Store {
  import opened Wrappers
  import opened Seqs
  import opened Text

  datatype Customer = Customer(id: int, name: string, email: string, phone: string, status: string, updatedAt: nat)

  datatype Ticket = Ticket(id: int, customerId: int, issue: string, status: string, priority: string, createdAt: nat)

  /** The JSON payload a tool returns: a success shape per tool, or `{success: false, error}`. */
  datatype Payload =
    | CustomerFound(customer: Customer)
    | CustomerList(count: int, customers: seq<Customer>)
    | CustomerUpdated(message: string, customer: Customer)
    | TicketCreated(ticket: Ticket)
    | TicketList(count: int, tickets: seq<Ticket>)
    | Failed(error: string)
  {
    /** The payload's `success` field. */
    predicate Success() {
      !Failed?
    }
  }

  /**
   * A snapshot of the store: the two tables, the next rowid of `tickets`, the
   * current time, and for each coming tool call whether its first SQL statement
   * raises (Some(message)) or not (None; an exhausted plan means no fault).
   */
  datatype DbState = DbState(
    customers: map<int, Customer>,
    tickets: seq<Ticket>,
    nextTicketId: int,
    clock: nat,
    faultPlan: seq<Option<string>>)

  /**
   * The store's invariant: customers are keyed by their id, tickets are in
   * rowid order below the next rowid and reference existing customers, no
   * timestamp lies in the future, and every customer id is a SQLite INTEGER.
   */
  ghost predicate Consistent(s: DbState) {
    && (forall k :: k in s.customers ==> s.customers[k].id == k && s.customers[k].updatedAt <= s.clock && FitsInteger(k))
    && (forall i :: 0 <= i < |s.tickets| ==>
          && s.tickets[i].id < s.nextTicketId
          && s.tickets[i].customerId in s.customers
          && s.tickets[i].createdAt <= s.clock)
    && (forall i, j :: 0 <= i < j < |s.tickets| ==> s.tickets[i].id < s.tickets[j].id)
  }

  // ---------------------------------------------------------------------
  // Faults and messages
  // ---------------------------------------------------------------------

  function NextFault(plan: seq<Option<string>>): Option<string> {
    if plan == [] then None else plan[0]
  }

  /** The state after one tool call has used its entry of the fault plan. */
  function Consume(s: DbState): DbState {
    s.(faultPlan := if s.faultPlan == [] then [] else s.faultPlan[1..])
  }

  function DbError(e: string): string {
    "Database error: " + e
  }

  function NotFoundMessage(id: int): string {
    "Customer " + IntToString(id) + " not found"
  }

  function UpdatedMessage(id: int): string {
    "Customer " + IntToString(id) + " updated successfully"
  }

  /** SQLite's INTEGER is a signed 64-bit value. */
  predicate FitsInteger(v: int) {
    -0x8000_0000_0000_0000 <= v < 0x8000_0000_0000_0000
  }

  /** What sqlite3 raises when a parameter is an int outside that range. */
  const OverflowMessage: string := "Python int too large to convert to SQLite INTEGER"

  const StatusMessage: string := "Status must be \"active\" or \"disabled\""
  const NoValidFieldsMessage: string := "No valid fields to update"
  const PriorityMessage: string := "Priority must be one of: \"low\", \"medium\", \"high\""

  const Statuses: set<string> := {"active", "disabled"}
  const Priorities: set<string> := {"low", "medium", "high"}
  const AllowedFields: set<string> := {"name", "email", "phone", "status"}

  // ---------------------------------------------------------------------
  // Ordering customers by id
  // ---------------------------------------------------------------------

  predicate StrictlyIncreasing(ids: seq<int>) {
    forall i, j :: 0 <= i < j < |ids| ==> ids[i] < ids[j]
  }

  lemma HasElement(keys: set<int>)
    requires keys != {}
    ensures exists x :: x in keys
  {
    if forall x :: x !in keys {
      assert false;
    }
  }

  lemma {:induction false} MinExists(keys: set<int>)
    requires keys != {}
    ensures exists m :: m in keys && forall y :: y in keys ==> m <= y
    decreases |keys|
  {
    HasElement(keys);
    var x :| x in keys;
    var rest := keys - {x};
    if rest == {} {
      forall y | y in keys ensures x <= y {
        assert y !in rest;
      }
    } else {
      MinExists(rest);
      var m :| m in rest && forall y :: y in rest ==> m <= y;
      var least := if x < m then x else m;
      forall y | y in keys ensures least <= y {
        if y != x {
          assert y in rest;
        }
      }
      assert least in keys;
    }
  }

  function Min(keys: set<int>): (m: int)
    requires keys != {}
    ensures m in keys && forall y :: y in keys ==> m <= y
  {
    MinExists(keys);
    var m :| m in keys && forall y :: y in keys ==> m <= y;
    m
  }

  /** The keys in ascending order (SQL's ORDER BY id). */
  function SortedIds(keys: set<int>): seq<int>
    decreases |keys|
  {
    if keys == {} then [] else var m := Min(keys); [m] + SortedIds(keys - {m})
  }

  lemma {:induction false} SortedIdsSpec(keys: set<int>)
    ensures StrictlyIncreasing(SortedIds(keys))
    ensures forall k :: k in SortedIds(keys) <==> k in keys
    decreases |keys|
  {
    if keys != {} {
      var m := Min(keys);
      SortedIdsSpec(keys - {m});
      var rest := SortedIds(keys - {m});
      assert SortedIds(keys) == [m] + rest;
      forall j | 0 <= j < |rest| ensures m < rest[j] {
        assert rest[j] in keys - {m};
      }
    }
  }

  /** The customers table read in ascending id order. */
  function CustomersById(cs: map<int, Customer>): (r: seq<Customer>)
    ensures |r| == |SortedIds(cs.Keys)|
    ensures forall i :: 0 <= i < |r| ==> SortedIds(cs.Keys)[i] in cs && r[i] == cs[SortedIds(cs.Keys)[i]]
  {
    var ids := SortedIds(cs.Keys);
    SortedIdsSpec(cs.Keys);
    seq(|ids|, i requires 0 <= i < |ids| => cs[ids[i]])
  }

  /** Reading a table keyed by id in id order gives ascending ids. */
  lemma CustomersByIdSorted(cs: map<int, Customer>)
    requires forall k :: k in cs ==> cs[k].id == k
    ensures forall i, j :: 0 <= i < j < |CustomersById(cs)| ==> CustomersById(cs)[i].id < CustomersById(cs)[j].id
  {
    SortedIdsSpec(cs.Keys);
  }

  /** Every stored customer is read, at some position. */
  lemma CustomersByIdHas(cs: map<int, Customer>, k: int) returns (n: nat)
    requires k in cs
    ensures n < |CustomersById(cs)| && CustomersById(cs)[n] == cs[k]
  {
    var ids := SortedIds(cs.Keys);
    SortedIdsSpec(cs.Keys);
    assert k in ids;
    n :| n < |ids| && ids[n] == k;
  }

  /** Python's `if status:`: None and the empty string both mean "no filter". */
  predicate NoStatusFilter(status: Option<string>) {
    status.None? || status.value == ""
  }

  predicate PassesFilter(status: Option<string>, c: Customer) {
    NoStatusFilter(status) || c.status == status.value
  }

  function Matching(status: Option<string>): Customer -> bool {
    (c: Customer) => PassesFilter(status, c)
  }

  /** SQL's LIMIT: a negative limit means no limit at all. */
  function Limited<T>(rows: seq<T>, limit: int): seq<T> {
    if limit < 0 || limit >= |rows| then rows else rows[..limit]
  }

  // ---------------------------------------------------------------------
  // Newest-first ordering of tickets
  // ---------------------------------------------------------------------

  predicate NewestFirstOrder(ts: seq<Ticket>) {
    forall i, j :: 0 <= i < j < |ts| ==> ts[i].createdAt >= ts[j].createdAt
  }

  function InsertByAge(t: Ticket, ts: seq<Ticket>): seq<Ticket> {
    if ts == [] || t.createdAt >= ts[0].createdAt then [t] + ts
    else [ts[0]] + InsertByAge(t, ts[1..])
  }

  /** SQL's ORDER BY created_at DESC (ties keep rowid order). */
  function NewestFirst(ts: seq<Ticket>): seq<Ticket> {
    if ts == [] then [] else InsertByAge(ts[0], NewestFirst(ts[1..]))
  }

  /** Inserting adds exactly the one ticket. */
  lemma {:induction false} InsertByAgeMembers(t: Ticket, ts: seq<Ticket>)
    ensures multiset(InsertByAge(t, ts)) == multiset(ts) + multiset{t}
    ensures |InsertByAge(t, ts)| == |ts| + 1
  {
    if ts != [] && t.createdAt < ts[0].createdAt {
      InsertByAgeMembers(t, ts[1..]);
      assert ts == [ts[0]] + ts[1..];
    }
  }

  /** A ticket no older than any of a newest-first sequence can go in front of it. */
  lemma PrependNewer(x: Ticket, r: seq<Ticket>)
    requires NewestFirstOrder(r)
    requires forall j :: 0 <= j < |r| ==> x.createdAt >= r[j].createdAt
    ensures NewestFirstOrder([x] + r)
  {
    var out := [x] + r;
    forall i, j | 0 <= i < j < |out| ensures out[i].createdAt >= out[j].createdAt {
      if i == 0 {
        assert out[j] == r[j - 1];
      } else {
        assert out[i] == r[i - 1] && out[j] == r[j - 1];
      }
    }
  }

  /** Inserting into a newest-first sequence keeps it newest first. */
  lemma {:induction false} InsertByAgeSorted(t: Ticket, ts: seq<Ticket>)
    requires NewestFirstOrder(ts)
    ensures NewestFirstOrder(InsertByAge(t, ts))
  {
    if ts == [] || t.createdAt >= ts[0].createdAt {
      forall j | 0 <= j < |ts| ensures t.createdAt >= ts[j].createdAt {
        if j > 0 {
          assert ts[0].createdAt >= ts[j].createdAt;
        }
      }
      PrependNewer(t, ts);
    } else {
      var rest := ts[1..];
      InsertByAgeSorted(t, rest);
      InsertByAgeMembers(t, rest);
      var r := InsertByAge(t, rest);
      forall j | 0 <= j < |r| ensures ts[0].createdAt >= r[j].createdAt {
        assert r[j] in multiset(r);
        if r[j] != t {
          assert r[j] in multiset(rest);
          var m :| 0 <= m < |rest| && rest[m] == r[j];
          assert ts[m + 1] == r[j];
        }
      }
      PrependNewer(ts[0], r);
      assert InsertByAge(t, ts) == [ts[0]] + r;
    }
  }

  /** The newest-first ordering is sorted and is a permutation of its input. */
  lemma {:induction false} NewestFirstSpec(ts: seq<Ticket>)
    ensures NewestFirstOrder(NewestFirst(ts))
    ensures multiset(NewestFirst(ts)) == multiset(ts)
  {
    if ts != [] {
      NewestFirstSpec(ts[1..]);
      InsertByAgeSorted(ts[0], NewestFirst(ts[1..]));
      InsertByAgeMembers(ts[0], NewestFirst(ts[1..]));
      assert ts == [ts[0]] + ts[1..];
    }
  }

  function OwnedBy(customerId: int): Ticket -> bool {
    (t: Ticket) => t.customerId == customerId
  }

  // ---------------------------------------------------------------------
  // The five tools, as functions of the store's state
  // ---------------------------------------------------------------------

  /**
   * get_customer: the record with that id, or "Customer {id} not found"; an
   * id that is no SQLite INTEGER makes the SELECT raise.
   */
  function CustomerLookup(s: DbState, id: int): Payload {
    match NextFault(s.faultPlan)
    case Some(e) => Failed(DbError(e))
    case None =>
      if !FitsInteger(id) then Failed(DbError(OverflowMessage))
      else if id in s.customers then CustomerFound(s.customers[id]) else Failed(NotFoundMessage(id))
  }

  /**
   * list_customers: the status is validated before the database is queried;
   * the limit is bound as a parameter of the SELECT.
   */
  function CustomerListing(s: DbState, status: Option<string>, limit: int): Payload {
    if !NoStatusFilter(status) && status.value !in Statuses then Failed(StatusMessage)
    else match NextFault(s.faultPlan)
      case Some(e) => Failed(DbError(e))
      case None =>
        if !FitsInteger(limit) then Failed(DbError(OverflowMessage))
        else
        var rows := Limited(Filter(CustomersById(s.customers), Matching(status)), limit);
        CustomerList(|rows|, rows)
  }

  /** The allowed, non-None entries of update_customer's `data`: the columns it will set. */
  function ValidUpdates(data: map<string, Option<string>>): map<string, string> {
    map k | k in data && k in AllowedFields && data[k].Some? :: data[k].value
  }

  function FieldOr(updates: map<string, string>, key: string, current: string): string {
    if key in updates then updates[key] else current
  }

  /** The row after `UPDATE customers SET <updates>, updated_at = CURRENT_TIMESTAMP`. */
  function Patched(c: Customer, updates: map<string, string>, now: nat): Customer {
    c.(name := FieldOr(updates, "name", c.name),
       email := FieldOr(updates, "email", c.email),
       phone := FieldOr(updates, "phone", c.phone),
       status := FieldOr(updates, "status", c.status),
       updatedAt := now)
  }

  /** update_customer: "no valid fields" is decided before the customer is looked up. */
  function CustomerUpdate(s: DbState, id: int, data: map<string, Option<string>>): (Payload, DbState) {
    var updates := ValidUpdates(data);
    var after := Consume(s);
    if updates == map[] then (Failed(NoValidFieldsMessage), after)
    else match NextFault(s.faultPlan)
      case Some(e) => (Failed(DbError(e)), after)
      case None =>
        if !FitsInteger(id) then (Failed(DbError(OverflowMessage)), after)
        else if id !in s.customers then (Failed(NotFoundMessage(id)), after)
        else
          var c := Patched(s.customers[id], updates, s.clock);
          (CustomerUpdated(UpdatedMessage(id), c), after.(customers := s.customers[id := c]))
  }

  /** create_ticket: the priority is validated before the customer is looked up. */
  function TicketCreation(s: DbState, customerId: int, issue: string, priority: string): (Payload, DbState) {
    var after := Consume(s);
    if priority !in Priorities then (Failed(PriorityMessage), after)
    else match NextFault(s.faultPlan)
      case Some(e) => (Failed(DbError(e)), after)
      case None =>
        if !FitsInteger(customerId) then (Failed(DbError(OverflowMessage)), after)
        else if customerId !in s.customers then (Failed(NotFoundMessage(customerId)), after)
        else
          var t := Ticket(s.nextTicketId, customerId, issue, "open", priority, s.clock);
          (TicketCreated(t), after.(tickets := s.tickets + [t], nextTicketId := s.nextTicketId + 1))
  }

  /** get_customer_history: the customer's tickets, newest first; no tickets is not an error. */
  function CustomerHistory(s: DbState, customerId: int): Payload {
    match NextFault(s.faultPlan)
    case Some(e) => Failed(DbError(e))
    case None =>
      if !FitsInteger(customerId) then Failed(DbError(OverflowMessage))
      else
      var rows := NewestFirst(Filter(s.tickets, OwnedBy(customerId)));
      TicketList(|rows|, rows)
  }

  // ---------------------------------------------------------------------
  // What the tools promise
  // ---------------------------------------------------------------------

  /**
   * get_customer succeeds exactly for a stored id, returning that record; an
   * id outside SQLite's 64-bit range is a database error, not "not found".
   */
  lemma LookupContract(s: DbState, id: int)
    requires NextFault(s.faultPlan) == None
    ensures CustomerLookup(s, id).Success() <==> FitsInteger(id) && id in s.customers
    ensures FitsInteger(id) && id in s.customers ==> CustomerLookup(s, id) == CustomerFound(s.customers[id])
    ensures FitsInteger(id) && id !in s.customers ==> CustomerLookup(s, id) == Failed("Customer " + IntToString(id) + " not found")
    ensures !FitsInteger(id) ==> CustomerLookup(s, id) == Failed(DbError(OverflowMessage))
  {
  }

  /**
   * Only a non-empty status outside {active, disabled} is rejected, whatever
   * the database does; past that check a limit outside SQLite's range fails.
   */
  lemma ListingRejectsStatus(s: DbState, status: Option<string>, limit: int)
    ensures !CustomerListing(s, status, limit).Success() || CustomerListing(s, status, limit).CustomerList?
    ensures CustomerListing(s, status, limit) == Failed(StatusMessage)
        <==> status.Some? && status.value != "" && status.value != "active" && status.value != "disabled"
    ensures CustomerListing(s, status, limit) != Failed(StatusMessage) && NextFault(s.faultPlan) == None && !FitsInteger(limit)
        ==> CustomerListing(s, status, limit) == Failed(DbError(OverflowMessage))
  {
    if e :| NextFault(s.faultPlan) == Some(e) {
      assert DbError(e)[0] == 'D' != StatusMessage[0];
    } else if !FitsInteger(limit) {
      assert DbError(OverflowMessage)[0] == 'D' != StatusMessage[0];
    }
  }

  /**
   * A successful listing has `count` rows, at most `limit` of them, in
   * ascending id, each a stored record that passes the filter.
   */
  lemma ListingContract(s: DbState, status: Option<string>, limit: int)
    requires Consistent(s)
    requires CustomerListing(s, status, limit).Success()
    ensures CustomerListing(s, status, limit).CustomerList? && FitsInteger(limit)
    ensures var rows := CustomerListing(s, status, limit).customers;
      && CustomerListing(s, status, limit).count == |rows|
      && (limit >= 0 ==> |rows| <= limit)
      && (forall i, j :: 0 <= i < j < |rows| ==> rows[i].id < rows[j].id)
      && (forall c :: c in rows ==> c.id in s.customers && s.customers[c.id] == c && PassesFilter(status, c))
  {
    var all := CustomersById(s.customers);
    var ids := SortedIds(s.customers.Keys);
    SortedIdsSpec(s.customers.Keys);
    var passing := Filter(all, Matching(status));
    var rows := Limited(passing, limit);
    assert CustomerListing(s, status, limit) == CustomerList(|rows|, rows);
    forall i | 0 <= i < |all| ensures all[i].id == ids[i] && all[i] in s.customers.Values {
    }
    var before: (Customer, Customer) -> bool := (a: Customer, b: Customer) => a.id < b.id;
    FilterSorted(all, Matching(status), before);
    forall c | c in rows ensures c.id in s.customers && s.customers[c.id] == c && PassesFilter(status, c) {
      assert c in passing;
      FilterMembership(all, Matching(status), c);
    }
  }

  /** A successful listing is the filtered table in id order, cut by LIMIT. */
  lemma ListingRows(s: DbState, status: Option<string>, limit: int)
    requires CustomerListing(s, status, limit).Success()
    ensures FitsInteger(limit)
    ensures var rows := Limited(Filter(CustomersById(s.customers), Matching(status)), limit);
      CustomerListing(s, status, limit) == CustomerList(|rows|, rows)
  {
  }

  /** LIMIT on rows in ascending id keeps every row up to the last one it returns, and all of them when it cuts nothing. */
  lemma LimitedKeeps(rows: seq<Customer>, limit: int, j: nat)
    requires j < |rows|
    requires forall a, b :: 0 <= a < b < |rows| ==> rows[a].id < rows[b].id
    ensures var kept := Limited(rows, limit);
      (limit < 0 || |kept| < limit || (|kept| > 0 && rows[j].id <= kept[|kept| - 1].id)) ==> rows[j] in kept
  {
    var kept := Limited(rows, limit);
    if kept != rows && |kept| > 0 && rows[j].id <= kept[|kept| - 1].id {
      assert kept == rows[..limit] && kept[|kept| - 1] == rows[limit - 1];
      assert j < limit;
      assert kept[j] == rows[j];
    }
  }

  /**
   * A successful listing is the first rows of the filtered table: every
   * passing customer up to the last returned id is included, and all of them
   * when fewer than `limit` came back or there is no limit.
   */
  lemma ListingComplete(s: DbState, status: Option<string>, limit: int, k: int)
    requires Consistent(s)
    requires CustomerListing(s, status, limit).Success()
    requires k in s.customers && PassesFilter(status, s.customers[k])
    ensures CustomerListing(s, status, limit).CustomerList?
    ensures var rows := CustomerListing(s, status, limit).customers;
      (limit < 0 || |rows| < limit || (|rows| > 0 && k <= rows[|rows| - 1].id)) ==> s.customers[k] in rows
  {
    ListingRows(s, status, limit);
    var all := CustomersById(s.customers);
    CustomersByIdSorted(s.customers);
    var passing := Filter(all, Matching(status));
    var before: (Customer, Customer) -> bool := (a: Customer, b: Customer) => a.id < b.id;
    FilterSorted(all, Matching(status), before);
    var c := s.customers[k];
    var n := CustomersByIdHas(s.customers, k);
    FilterMembership(all, Matching(status), c);
    var j :| 0 <= j < |passing| && passing[j] == c;
    LimitedKeeps(passing, limit, j);
  }

  /**
   * update_customer's failures leave both tables as they were; "no valid
   * fields" wins over an unknown or out-of-range id.
   */
  lemma UpdateFailureContract(s: DbState, id: int, data: map<string, Option<string>>)
    ensures ValidUpdates(data) == map[] ==> CustomerUpdate(s, id, data).0 == Failed(NoValidFieldsMessage)
    ensures ValidUpdates(data) != map[] && NextFault(s.faultPlan) == None && !FitsInteger(id)
      ==> CustomerUpdate(s, id, data).0 == Failed(DbError(OverflowMessage))
    ensures ValidUpdates(data) != map[] && NextFault(s.faultPlan) == None && FitsInteger(id) && id !in s.customers
      ==> CustomerUpdate(s, id, data).0 == Failed(NotFoundMessage(id))
    ensures !CustomerUpdate(s, id, data).0.Success() ==> CustomerUpdate(s, id, data).1 == Consume(s)
  {
  }

  /**
   * A successful update_customer sets exactly the provided allowed non-None
   * fields, refreshes updated_at, keeps the id and every other customer and
   * ticket, returns the stored post-update row, and keeps the store consistent.
   */
  lemma UpdateSuccessContract(s: DbState, id: int, data: map<string, Option<string>>)
    requires Consistent(s)
    requires CustomerUpdate(s, id, data).0.Success()
    ensures var (p, s') := CustomerUpdate(s, id, data);
      && p.CustomerUpdated? && id in s.customers
      && s'.customers.Keys == s.customers.Keys
      && s'.customers[id] == p.customer
      && p.customer.id == id
      && (forall f :: f in AllowedFields && f in data && data[f].Some? ==> FieldOf(p.customer, f) == data[f].value)
      && (forall f :: f in AllowedFields && (f !in data || data[f].None?) ==> FieldOf(p.customer, f) == FieldOf(s.customers[id], f))
      && p.customer.updatedAt == s.clock >= s.customers[id].updatedAt
      && (forall k :: k in s.customers && k != id ==> s'.customers[k] == s.customers[k])
      && s'.tickets == s.tickets && s'.nextTicketId == s.nextTicketId
      && Consistent(s')
  {
  }

  /** A customer column by name. */
  function FieldOf(c: Customer, f: string): string {
    if f == "name" then c.name
    else if f == "email" then c.email
    else if f == "phone" then c.phone
    else if f == "status" then c.status
    else ""
  }

  /** create_ticket's failures insert nothing; a bad priority wins over an unknown or out-of-range customer id. */
  lemma CreationFailureContract(s: DbState, customerId: int, issue: string, priority: string)
    ensures priority !in Priorities ==> TicketCreation(s, customerId, issue, priority).0 == Failed(PriorityMessage)
    ensures priority in Priorities && NextFault(s.faultPlan) == None && !FitsInteger(customerId)
      ==> TicketCreation(s, customerId, issue, priority).0 == Failed(DbError(OverflowMessage))
    ensures priority in Priorities && NextFault(s.faultPlan) == None && FitsInteger(customerId) && customerId !in s.customers
      ==> TicketCreation(s, customerId, issue, priority).0 == Failed(NotFoundMessage(customerId))
    ensures !TicketCreation(s, customerId, issue, priority).0.Success() ==> TicketCreation(s, customerId, issue, priority).1 == Consume(s)
  {
  }

  /**
   * A successful create_ticket appends one open ticket for the given customer,
   * issue and priority, with an id no existing ticket has, and keeps the
   * existing tickets, the customers and the store's consistency.
   */
  lemma CreationSuccessContract(s: DbState, customerId: int, issue: string, priority: string)
    requires Consistent(s)
    requires TicketCreation(s, customerId, issue, priority).0.Success()
    ensures var (p, s') := TicketCreation(s, customerId, issue, priority);
      && p.TicketCreated?
      && p.ticket.status == "open" && p.ticket.customerId == customerId
      && p.ticket.issue == issue && p.ticket.priority == priority
      && customerId in s.customers
      && s'.tickets == s.tickets + [p.ticket]
      && (forall i :: 0 <= i < |s.tickets| ==> s.tickets[i].id != p.ticket.id)
      && s'.customers == s.customers
      && Consistent(s')
  {
  }

  /**
   * Without a fault, the history of any SQLite INTEGER id succeeds and holds
   * exactly the customer's tickets (as a multiset), newest first, with
   * `count` equal to their number; any other id is a database error.
   */
  lemma {:induction false} HistoryContract(s: DbState, customerId: int)
    requires NextFault(s.faultPlan) == None
    ensures CustomerHistory(s, customerId).TicketList? <==> FitsInteger(customerId)
    ensures !FitsInteger(customerId) ==> CustomerHistory(s, customerId) == Failed(DbError(OverflowMessage))
    ensures FitsInteger(customerId) ==> var rows := CustomerHistory(s, customerId).tickets;
      && CustomerHistory(s, customerId).count == |rows|
      && multiset(rows) == multiset(Filter(s.tickets, OwnedBy(customerId)))
      && (forall t :: t in rows <==> t in s.tickets && t.customerId == customerId)
      && NewestFirstOrder(rows)
  {
    if !FitsInteger(customerId) {
      return;
    }
    var mine := Filter(s.tickets, OwnedBy(customerId));
    NewestFirstSpec(mine);
    var rows := NewestFirst(mine);
    forall t ensures t in rows <==> t in s.tickets && t.customerId == customerId {
      FilterMembership(s.tickets, OwnedBy(customerId), t);
      assert t in rows <==> t in multiset(rows);
      assert t in mine <==> t in multiset(mine);
    }
  }

  // ---------------------------------------------------------------------
  // The store itself
  // ---------------------------------------------------------------------

  /** update_customer's loop over `data.items()`, collecting the columns to set. */
  method CollectUpdates(data: map<string, Option<string>>) returns (updates: map<string, string>)
    ensures forall k :: k in updates <==> k in data && k in AllowedFields && data[k].Some?
    ensures forall k :: k in updates ==> data[k] == Some(updates[k])
    ensures updates == ValidUpdates(data)
  {
    updates := map[];
    var pending := data.Keys;
    while pending != {}
      invariant pending <= data.Keys
      invariant forall k :: k in updates <==> k in data && k !in pending && k in AllowedFields && data[k].Some?
      invariant forall k :: k in updates ==> data[k] == Some(updates[k])
      decreases |pending|
    {
      var key :| key in pending;
      var value := data[key];
      if key in AllowedFields && value.Some? {
        updates := updates[key := value.value];
      }
      pending := pending - {key};
    }
  }

  class SupportDb {
    var customers: map<int, Customer>
    var tickets: seq<Ticket>
    var nextTicketId: int
    var clock: nat
    var faultPlan: seq<Option<string>>

    function State(): DbState
      reads this
    {
      DbState(customers, tickets, nextTicketId, clock, faultPlan)
    }

    ghost predicate Valid()
      reads this
    {
      Consistent(State())
    }

    /** A store opened on seeded tables. */
    constructor (seed: DbState)
      requires Consistent(seed)
      ensures Valid() && State() == seed
    {
      customers := seed.customers;
      tickets := seed.tickets;
      nextTicketId := seed.nextTicketId;
      clock := seed.clock;
      faultPlan := seed.faultPlan;
    }

    /** Time passes between calls; the clock never goes back. */
    method AdvanceClock(seconds: nat)
      requires Valid()
      modifies this
      ensures Valid()
      ensures State() == old(State()).(clock := old(clock) + seconds)
    {
      clock := clock + seconds;
    }

    /** Opening a connection for one tool call: uses up one entry of the fault plan. */
    method TakeFault() returns (fault: Option<string>)
      modifies this
      ensures fault == NextFault(old(faultPlan))
      ensures State() == Consume(old(State()))
    {
      fault := if faultPlan == [] then None else faultPlan[0];
      faultPlan := if faultPlan == [] then [] else faultPlan[1..];
    }

    method GetCustomer(id: int) returns (p: Payload)
      requires Valid()
      modifies this
      ensures Valid()
      ensures p == CustomerLookup(old(State()), id)
      ensures State() == Consume(old(State()))
    {
      var fault := TakeFault();
      if fault.Some? {
        return Failed(DbError(fault.value));
      }
      if !FitsInteger(id) {
        return Failed(DbError(OverflowMessage));
      }
      if id in customers {
        p := CustomerFound(customers[id]);
      } else {
        p := Failed(NotFoundMessage(id));
      }
    }

    method ListCustomers(status: Option<string>, limit: int) returns (p: Payload)
      requires Valid()
      modifies this
      ensures Valid()
      ensures p == CustomerListing(old(State()), status, limit)
      ensures State() == Consume(old(State()))
    {
      var fault := TakeFault();
      if !NoStatusFilter(status) && status.value !in Statuses {
        return Failed(StatusMessage);
      }
      if fault.Some? {
        return Failed(DbError(fault.value));
      }
      if !FitsInteger(limit) {
        return Failed(DbError(OverflowMessage));
      }
      var rows := Limited(Filter(CustomersById(customers), Matching(status)), limit);
      p := CustomerList(|rows|, rows);
    }

    method UpdateCustomer(id: int, data: map<string, Option<string>>) returns (p: Payload)
      requires Valid()
      modifies this
      ensures Valid()
      ensures (p, State()) == CustomerUpdate(old(State()), id, data)
    {
      var fault := TakeFault();
      var updates := CollectUpdates(data);
      if |updates| == 0 {
        return Failed(NoValidFieldsMessage);
      }
      if fault.Some? {
        return Failed(DbError(fault.value));
      }
      if !FitsInteger(id) {
        return Failed(DbError(OverflowMessage));
      }
      if id !in customers {
        return Failed(NotFoundMessage(id));
      }
      var row := Patched(customers[id], updates, clock);
      customers := customers[id := row];
      p := CustomerUpdated(UpdatedMessage(id), customers[id]);
    }

    method CreateTicket(customerId: int, issue: string, priority: string) returns (p: Payload)
      requires Valid()
      modifies this
      ensures Valid()
      ensures (p, State()) == TicketCreation(old(State()), customerId, issue, priority)
    {
      var fault := TakeFault();
      if priority !in Priorities {
        return Failed(PriorityMessage);
      }
      if fault.Some? {
        return Failed(DbError(fault.value));
      }
      if !FitsInteger(customerId) {
        return Failed(DbError(OverflowMessage));
      }
      if customerId !in customers {
        return Failed(NotFoundMessage(customerId));
      }
      var row := Ticket(nextTicketId, customerId, issue, "open", priority, clock);
      tickets := tickets + [row];
      nextTicketId := nextTicketId + 1;
      p := TicketCreated(row);
    }

    method GetCustomerHistory(customerId: int) returns (p: Payload)
      requires Valid()
      modifies this
      ensures Valid()
      ensures p == CustomerHistory(old(State()), customerId)
      ensures State() == Consume(old(State()))
    {
      var fault := TakeFault();
      if fault.Some? {
        return Failed(DbError(fault.value));
      }
      if !FitsInteger(customerId) {
        return Failed(DbError(OverflowMessage));
      }
      var rows := NewestFirst(Filter(tickets, OwnedBy(customerId)));
      p := TicketList(|rows|, rows);
    }
  }
}
