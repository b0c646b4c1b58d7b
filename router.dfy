/**
 * The orchestrating RouterAgent: the two text extractors, the ordered
 * intent rules, and handle_query, which logs the query, picks the first
 * rule that fires, runs that rule's workflow and returns the answer with
 * the whole log.
 *
 * `str.lower()`, `\s`, `\d` and `\w` are taken on ASCII only.
 */
module Router {
  import opened Wrappers
  import opened Seqs
  import opened Text
  import opened Store
  import opened Agents

  // ---------------------------------------------------------------------
  // Greedy character runs, as a regular-expression engine consumes them
  // ---------------------------------------------------------------------

  /** Python's `\s` on ASCII: space, \t \n \v \f \r, and the separators 0x1c-0x1f. */
  predicate IsSpace(c: char) {
    c == ' ' || 9 <= c as int <= 13 || 28 <= c as int <= 31
  }

  /** Python's `\w` on ASCII. */
  predicate IsWordChar(c: char) {
    'a' <= c <= 'z' || 'A' <= c <= 'Z' || '0' <= c <= '9' || c == '_'
  }

  /** The class `[\w\.-]`. */
  predicate IsAddressChar(c: char) {
    IsWordChar(c) || c == '.' || c == '-'
  }

  /** The end of the longest run of `inRun` characters starting at `j`: what a greedy `*` consumes. */
  function RunEnd(s: string, j: nat, inRun: char -> bool): (e: nat)
    requires j <= |s|
    ensures j <= e <= |s|
    ensures forall k :: j <= k < e ==> inRun(s[k])
    ensures e == |s| || !inRun(s[e])
    decreases |s| - j
  {
    if j < |s| && inRun(s[j]) then RunEnd(s, j + 1, inRun) else j
  }

  /** A run that covers [j, k) and stops at a character outside the class ends exactly there. */
  lemma RunEndAt(s: string, j: nat, k: nat, inRun: char -> bool)
    requires j <= k <= |s|
    requires forall x :: j <= x < k ==> inRun(s[x])
    requires k == |s| || !inRun(s[k])
    ensures RunEnd(s, j, inRun) == k
  {
  }

  /** A run reaches at least as far as a stretch of `inRun` characters. */
  lemma RunEndCovers(s: string, j: nat, k: nat, inRun: char -> bool)
    requires j <= k <= |s|
    requires forall x :: j <= x < k ==> inRun(s[x])
    ensures RunEnd(s, j, inRun) >= k
  {
  }

  // ---------------------------------------------------------------------
  // _extract_customer_id: (?:id|customer)\s*(\d+) on the lower-cased text
  // ---------------------------------------------------------------------

  predicate KeywordAt(s: string, i: nat) {
    OccursAt("id", s, i) || OccursAt("customer", s, i)
  }

  /** Where the keyword matched at `i` ends; "id" is tried first, as in the alternation. */
  function KeywordEnd(s: string, i: nat): (e: nat)
    requires KeywordAt(s, i)
    ensures e <= |s|
  {
    if OccursAt("id", s, i) then i + 2 else i + 8
  }

  /** Where the digits start: after the keyword and all the whitespace that follows it. */
  function DigitsStart(s: string, i: nat): nat
    requires KeywordAt(s, i)
  {
    RunEnd(s, KeywordEnd(s, i), IsSpace)
  }

  /** The pattern matches at `i`: a keyword, optional whitespace, then at least one digit. */
  predicate IdMatchAt(s: string, i: nat) {
    KeywordAt(s, i) && DigitsStart(s, i) < |s| && IsDigit(s[DigitsStart(s, i)])
  }

  /** `int(match.group(1))` for the match at `i`: the whole run of digits. */
  function IdValueAt(s: string, i: nat): nat
    requires IdMatchAt(s, i)
  {
    var j := DigitsStart(s, i);
    var e := RunEnd(s, j, IsDigit);
    assert forall k :: 0 <= k < e - j ==> s[j..e][k] == s[j + k];
    DigitsValue(s[j..e])
  }

  /** `re.search`: try each start position from `i` on; the first match wins. */
  function ScanId(s: string, i: nat): Option<int>
    requires i <= |s|
    decreases |s| - i
  {
    if IdMatchAt(s, i) then Some(IdValueAt(s, i))
    else if i == |s| then None
    else ScanId(s, i + 1)
  }

  /** _extract_customer_id */
  function ExtractCustomerId(text: string): Option<int> {
    ScanId(Lower(text), 0)
  }

  /** The scan finds nothing exactly when the pattern matches at no position from `i` on. */
  lemma {:induction false} ScanIdNone(s: string, i: nat)
    requires i <= |s|
    ensures ScanId(s, i).None? <==> forall k :: i <= k <= |s| ==> !IdMatchAt(s, k)
    decreases |s| - i
  {
    if !IdMatchAt(s, i) && i < |s| {
      ScanIdNone(s, i + 1);
    }
  }

  /** A successful scan reports the leftmost match from `i` on. */
  lemma {:induction false} ScanIdFound(s: string, i: nat) returns (k: nat)
    requires i <= |s|
    requires ScanId(s, i).Some?
    ensures i <= k <= |s| && IdMatchAt(s, k) && ScanId(s, i) == Some(IdValueAt(s, k))
    ensures forall k' :: i <= k' < k ==> !IdMatchAt(s, k')
    decreases |s| - i
  {
    if IdMatchAt(s, i) {
      k := i;
    } else {
      assert ScanId(s, i) == ScanId(s, i + 1);
      k := ScanIdFound(s, i + 1);
      forall k' | i <= k' < k
        ensures !IdMatchAt(s, k')
      {
        if k' != i {
          assert i + 1 <= k' < k;
        }
      }
    }
  }

  /**
   * The extractor finds an id exactly when the pattern matches somewhere in
   * the lower-cased text, and then returns the digits of the leftmost match.
   */
  lemma ExtractCustomerIdSpec(text: string)
    ensures var s := Lower(text);
      && (ExtractCustomerId(text).None? <==> forall k :: 0 <= k <= |s| ==> !IdMatchAt(s, k))
      && (ExtractCustomerId(text).Some? ==>
            exists k :: 0 <= k <= |s| && IdMatchAt(s, k) && ExtractCustomerId(text) == Some(IdValueAt(s, k))
              && forall k' :: 0 <= k' < k ==> !IdMatchAt(s, k'))
  {
    ScanIdNone(Lower(text), 0);
    if ExtractCustomerId(text).Some? {
      var k := ScanIdFound(Lower(text), 0);
    }
  }

  /** The keyword may sit inside a word: "paid 3" yields 3. */
  lemma IdInsideWord()
    ensures ExtractCustomerId("paid 3") == Some(3)
  {
    var s := Lower("paid 3");
    assert s == "paid 3";
    assert s[0..2] == "pa" && s[1..3] == "ai" && s[2..4] == "id";
    assert !IdMatchAt(s, 0) && !IdMatchAt(s, 1);
    assert KeywordEnd(s, 2) == 4;
    assert DigitsStart(s, 2) == 5 by {
      RunEndAt(s, 4, 5, IsSpace);
    }
    assert IdMatchAt(s, 2);
    assert RunEnd(s, 5, IsDigit) == 6 by {
      RunEndAt(s, 5, 6, IsDigit);
    }
    assert s[5..6] == "3";
    assert DigitsValue("3") == 3;
    assert IdValueAt(s, 2) == 3;
    assert ScanId(s, 2) == Some(3);
    assert ScanId(s, 0) == ScanId(s, 1) == ScanId(s, 2);
  }

  // ---------------------------------------------------------------------
  // _extract_email: [\w\.-]+@[\w\.-]+\.\w+ on the original text
  // ---------------------------------------------------------------------

  /** A dot that a `\.\w+` can start at. */
  predicate DotBeforeWord(s: string, p: nat) {
    p + 1 < |s| && s[p] == '.' && IsWordChar(s[p + 1])
  }

  /** The last such dot in [lo, hi]: backtracking the greedy second `[\w\.-]+` gives it back. */
  function LastDot(s: string, lo: nat, hi: int): (r: Option<nat>)
    ensures r.Some? ==> lo <= r.value <= hi && DotBeforeWord(s, r.value)
    ensures r.Some? ==> forall p :: r.value < p <= hi ==> !DotBeforeWord(s, p)
    ensures r.None? ==> forall p :: lo <= p <= hi ==> !DotBeforeWord(s, p)
    decreases hi - lo + 1
  {
    if hi < lo then None
    else if DotBeforeWord(s, hi) then Some(hi)
    else LastDot(s, lo, hi - 1)
  }

  /** Where the match starting at `i` ends, if there is one. */
  function EmailEnd(s: string, i: nat): (r: Option<nat>)
    requires i <= |s|
    ensures r.Some? ==> i < r.value <= |s|
  {
    var m := RunEnd(s, i, IsAddressChar);
    if m == i || m == |s| || s[m] != '@' then None
    else
      var k := RunEnd(s, m + 1, IsAddressChar);
      match LastDot(s, m + 2, k - 1)
      case None => None
      case Some(p) => Some(RunEnd(s, p + 1, IsWordChar))
  }

  /** `re.search` for the address pattern, from position `i`. */
  function ScanEmail(s: string, i: nat): Option<string>
    requires i <= |s|
    decreases |s| - i
  {
    match EmailEnd(s, i)
    case Some(e) => Some(s[i..e])
    case None => if i == |s| then None else ScanEmail(s, i + 1)
  }

  /** _extract_email */
  function ExtractEmail(text: string): Option<string> {
    ScanEmail(text, 0)
  }

  /** `w` splits as local part, '@', domain, '.', and a word-character suffix. */
  predicate EmailSplit(w: string, q: nat, r: nat) {
    && 0 < q && q + 1 < r && r + 1 < |w|
    && (forall k :: 0 <= k < q ==> IsAddressChar(w[k]))
    && w[q] == '@'
    && (forall k :: q < k < r ==> IsAddressChar(w[k]))
    && w[r] == '.'
    && (forall k :: r < k < |w| ==> IsWordChar(w[k]))
  }

  /** An address-shaped token: what the pattern describes, stated without any scanning. */
  ghost predicate EmailShaped(w: string) {
    exists q: nat, r: nat :: EmailSplit(w, q, r)
  }

  lemma EmailEndSound(s: string, i: nat)
    requires i <= |s|
    requires EmailEnd(s, i).Some?
    ensures EmailShaped(s[i..EmailEnd(s, i).value])
  {
    var m := RunEnd(s, i, IsAddressChar);
    var k := RunEnd(s, m + 1, IsAddressChar);
    var p := LastDot(s, m + 2, k - 1).value;
    var e := RunEnd(s, p + 1, IsWordChar);
    var w := s[i..e];
    forall x | 0 <= x < m - i ensures IsAddressChar(w[x]) {
      assert w[x] == s[i + x];
    }
    forall x | m - i < x < p - i ensures IsAddressChar(w[x]) {
      assert w[x] == s[i + x];
    }
    forall x | p - i < x < |w| ensures IsWordChar(w[x]) {
      assert w[x] == s[i + x];
    }
    assert w[m - i] == s[m] && w[p - i] == s[p];
    assert EmailSplit(w, m - i, p - i);
  }

  lemma EmailEndComplete(s: string, a: nat, b: nat, q: nat, r: nat)
    requires a <= b <= |s|
    requires EmailSplit(s[a..b], q, r)
    ensures EmailEnd(s, a).Some?
  {
    var w := s[a..b];
    RunEndAt(s, a, a + q, IsAddressChar);
    var m := a + q;
    assert s[m] == w[q] == '@';
    forall x | m + 1 <= x < b ensures IsAddressChar(s[x]) {
      assert s[x] == w[x - a];
    }
    RunEndCovers(s, m + 1, b, IsAddressChar);
    var k := RunEnd(s, m + 1, IsAddressChar);
    assert DotBeforeWord(s, a + r) by {
      assert s[a + r] == w[r] && s[a + r + 1] == w[r + 1];
    }
  }

  lemma {:induction false} ScanEmailSpec(s: string, i: nat)
    requires i <= |s|
    ensures ScanEmail(s, i).None? <==> forall k :: i <= k <= |s| ==> EmailEnd(s, k).None?
    ensures ScanEmail(s, i).Some? ==> exists k :: i <= k <= |s| && EmailEnd(s, k).Some? && ScanEmail(s, i).value == s[k..EmailEnd(s, k).value]
    decreases |s| - i
  {
    if EmailEnd(s, i).None? && i < |s| {
      ScanEmailSpec(s, i + 1);
    }
  }

  /** Where a successful scan's match starts: the leftmost position with a match, as `re.search` takes. */
  lemma {:induction false} ScanEmailFound(s: string, i: nat) returns (k: nat)
    requires i <= |s|
    requires ScanEmail(s, i).Some?
    ensures i <= k <= |s| && EmailEnd(s, k).Some?
    ensures ScanEmail(s, i).value == s[k..EmailEnd(s, k).value]
    ensures forall j :: i <= j < k ==> EmailEnd(s, j).None?
    decreases |s| - i
  {
    if EmailEnd(s, i).Some? {
      k := i;
    } else {
      k := ScanEmailFound(s, i + 1);
    }
  }

  /**
   * Whatever the extractor returns is an address-shaped token of the text,
   * and it is the match at the leftmost position where the pattern matches.
   */
  lemma ExtractEmailSound(text: string)
    requires ExtractEmail(text).Some?
    ensures EmailShaped(ExtractEmail(text).value)
    ensures Contains(text, ExtractEmail(text).value)
    ensures exists k ::
              && 0 <= k <= |text| && EmailEnd(text, k).Some?
              && ExtractEmail(text).value == text[k..EmailEnd(text, k).value]
              && forall j :: 0 <= j < k ==> EmailEnd(text, j).None?
  {
    var k := ScanEmailFound(text, 0);
    EmailEndSound(text, k);
    var w := ExtractEmail(text).value;
    assert OccursAt(w, text, k);
    ContainsIff(text, w);
  }

  /** The extractor finds an address whenever the text holds an address-shaped token anywhere. */
  lemma ExtractEmailComplete(text: string, a: nat, b: nat)
    requires a <= b <= |text|
    requires EmailShaped(text[a..b])
    ensures ExtractEmail(text).Some?
  {
    var q: nat, r: nat :| EmailSplit(text[a..b], q, r);
    EmailEndComplete(text, a, b, q, r);
    ScanEmailSpec(text, 0);
  }

  // ---------------------------------------------------------------------
  // The ordered rules of handle_query
  // ---------------------------------------------------------------------

  datatype Route =
    | DirectLookup
    | AccountHelpRoute
    | BillingCancelRoute
    | TicketReportRoute
    | UpgradeRoute
    | EscalationRoute
    | MultiIntentRoute
    | FallbackRoute

  /** The position of a rule in the list. */
  function Rank(route: Route): nat {
    match route
    case DirectLookup => 0
    case AccountHelpRoute => 1
    case BillingCancelRoute => 2
    case TicketReportRoute => 3
    case UpgradeRoute => 4
    case EscalationRoute => 5
    case MultiIntentRoute => 6
    case FallbackRoute => 7
  }

  /** Whether a rule's test holds for the lower-cased text and the extracted id. */
  predicate Fires(route: Route, text: string, cid: Option<int>) {
    match route
    case DirectLookup => Contains(text, "get customer information") && cid.Some?
    case AccountHelpRoute => Contains(text, "help with my account") && cid.Some?
    case BillingCancelRoute => Contains(text, "cancel") && Contains(text, "billing")
    case TicketReportRoute => Contains(text, "active customers") && Contains(text, "open tickets")
    case UpgradeRoute => Contains(text, "upgrading my account") && cid.Some?
    case EscalationRoute => Contains(text, "charged twice") || Contains(text, "double charged")
    case MultiIntentRoute => Contains(text, "update my email") && Contains(text, "ticket history")
    case FallbackRoute => true
  }

  /** The rule handle_query follows, tested in its order. */
  function Classify(text: string, cid: Option<int>): Route {
    if Contains(text, "get customer information") && cid.Some? then DirectLookup
    else if Contains(text, "help with my account") && cid.Some? then AccountHelpRoute
    else if Contains(text, "cancel") && Contains(text, "billing") then BillingCancelRoute
    else if Contains(text, "active customers") && Contains(text, "open tickets") then TicketReportRoute
    else if Contains(text, "upgrading my account") && cid.Some? then UpgradeRoute
    else if Contains(text, "charged twice") || Contains(text, "double charged") then EscalationRoute
    else if Contains(text, "update my email") && Contains(text, "ticket history") then MultiIntentRoute
    else FallbackRoute
  }

  lemma RankInjective(a: Route, b: Route)
    ensures Rank(a) == Rank(b) ==> a == b
  {
  }

  /** The chosen rule fires, and none before it does. */
  lemma ClassifyChosen(text: string, cid: Option<int>)
    ensures Fires(Classify(text, cid), text, cid)
    ensures forall earlier: Route :: Rank(earlier) < Rank(Classify(text, cid)) ==> !Fires(earlier, text, cid)
  {
  }

  /** First match wins: a rule is chosen exactly when it fires and no rule before it does. */
  lemma ClassifyFirstMatch(text: string, cid: Option<int>, route: Route)
    ensures Classify(text, cid) == route <==>
      Fires(route, text, cid) && forall earlier: Route :: Rank(earlier) < Rank(route) ==> !Fires(earlier, text, cid)
  {
    ClassifyChosen(text, cid);
    RankInjective(route, Classify(text, cid));
  }

  /**
   * Account help outranks billing-and-cancel: a query asking for help with the
   * account and carrying an id is never routed to the negotiation flow, however
   * much it also talks about cancelling and billing.
   */
  lemma AccountHelpBeatsBilling(query: string)
    requires Contains(Lower(query), "help with my account")
    requires ExtractCustomerId(query).Some?
    requires !Contains(Lower(query), "get customer information")
    ensures Classify(Lower(query), ExtractCustomerId(query)) == AccountHelpRoute
  {
  }

  // ---------------------------------------------------------------------
  // handle_query
  // ---------------------------------------------------------------------

  datatype RouterResult = RouterResult(query: string, finalAnswer: string, logs: seq<string>)

  const RouterName: string := "RouterAgent"

  function ReceivedEntry(query: string): string {
    LogEntry(RouterName, "Received user query \U{2192} \"" + query + "\"")
  }

  /** The one entry the router logs for the rule it chose. */
  function RoutingEntry(route: Route): string {
    match route
    case DirectLookup => LogEntry(RouterName, "Detected simple query \U{2192} DataAgent.get_customer")
    case AccountHelpRoute => LogEntry(RouterName, "Scenario 1 detected \U{2192} delegating to SupportAgent")
    case BillingCancelRoute => LogEntry(RouterName, "Scenario 2 detected \U{2192} SupportAgent handles negotiation flow")
    case TicketReportRoute => LogEntry(RouterName, "Scenario 3 detected \U{2192} multi-step flow")
    case UpgradeRoute => LogEntry(RouterName, "Coordinated upgrade scenario")
    case EscalationRoute => LogEntry(RouterName, "Escalation detected \U{2192} high-priority refund")
    case MultiIntentRoute => LogEntry(RouterName, "Multi-intent flow detected")
    case FallbackRoute => LogEntry(RouterName, "No recognized pattern \U{2192} fallback reply")
  }

  /** Python's `cid or 1`: a missing id and the id 0 both become 1. */
  function IdOrDefault(cid: Option<int>): int {
    if cid.None? || cid.value == 0 then 1 else cid.value
  }

  /** Python's `email or "new@example.com"`. */
  function EmailOrDefault(email: Option<string>): string {
    if email.None? || email.value == "" then "new@example.com" else email.value
  }

  const FallbackAnswer: string :=
    "I can assist with account questions, upgrades, billing issues, refunds, cancellations, "
    + "or ticket history. Please try rephrasing your request."

  function DirectAnswer(cid: int, p: Payload): string
    requires p.Failed? || p.CustomerFound?
  {
    if !p.Success() then "Unable to retrieve customer " + IntToString(cid) + ": " + p.error
    else
      "Customer " + IntToString(cid) + " information:\n"
      + "- Name: " + p.customer.name + "\n"
      + "- Email: " + p.customer.email + "\n"
      + "- Phone: " + p.customer.phone + "\n"
      + "- Status: " + p.customer.status
  }

  /** The rules whose test asks for an extracted id. */
  predicate NeedsId(route: Route) {
    route.DirectLookup? || route.AccountHelpRoute? || route.UpgradeRoute?
  }

  /** What the chosen rule runs: its answer, the entries its delegate logs, the store afterwards. */
  function Delegate(s: DbState, route: Route, query: string, cid: Option<int>): Step
    requires NeedsId(route) ==> cid.Some?
  {
    match route
    case DirectLookup => Step(DirectAnswer(cid.value, CustomerLookup(s, cid.value)), [], Consume(s))
    case AccountHelpRoute => AccountHelp(s, cid.value)
    case BillingCancelRoute => BillingAndCancel(s)
    case TicketReportRoute => TicketReport(s)
    case UpgradeRoute => UpgradeRequest(s, cid.value)
    case EscalationRoute => EscalationRefund(s, IdOrDefault(cid))
    case MultiIntentRoute => UpdateEmailAndHistory(s, IdOrDefault(cid), EmailOrDefault(ExtractEmail(query)))
    case FallbackRoute => Step(FallbackAnswer, [], s)
  }

  /** handle_query: the result and the store afterwards. */
  function QueryOutcome(s: DbState, query: string): (RouterResult, DbState) {
    var cid := ExtractCustomerId(query);
    var route := Classify(Lower(query), cid);
    ClassifyChosen(Lower(query), cid);
    var st := Delegate(s, route, query, cid);
    (RouterResult(query, st.answer, [ReceivedEntry(query), RoutingEntry(route)] + st.logged), st.after)
  }

  /** handle_query's outcome once the rule is known. */
  lemma QueryOutcomeOf(s: DbState, query: string, route: Route)
    requires Classify(Lower(query), ExtractCustomerId(query)) == route
    ensures Fires(route, Lower(query), ExtractCustomerId(query))
    ensures var st := Delegate(s, route, query, ExtractCustomerId(query));
      QueryOutcome(s, query) == (RouterResult(query, st.answer, [ReceivedEntry(query), RoutingEntry(route)] + st.logged), st.after)
  {
    ClassifyChosen(Lower(query), ExtractCustomerId(query));
  }

  /** Every entry of `entries` was written by `agent`. */
  predicate AllWrittenBy(agent: string, entries: seq<string>) {
    forall k :: 0 <= k < |entries| ==> WrittenBy(agent, entries[k])
  }

  /** The log entries each delegate writes are the support agent's. */
  lemma DelegateEntries(s: DbState, route: Route, query: string, cid: Option<int>)
    requires NeedsId(route) ==> cid.Some?
    ensures AllWrittenBy(SupportName, Delegate(s, route, query, cid).logged)
  {
    match route
    case AccountHelpRoute => AccountHelpAuthored(s, cid.value);
    case BillingCancelRoute => BillingAndCancelAuthored(s);
    case TicketReportRoute => TicketReportAuthored(s);
    case UpgradeRoute => UpgradeAuthored(s, cid.value);
    case _ => LaterDelegateEntries(s, route, query, cid);
  }

  /** The same, for the escalation and multi-intent rules, and for the rules that log nothing. */
  lemma LaterDelegateEntries(s: DbState, route: Route, query: string, cid: Option<int>)
    requires NeedsId(route) ==> cid.Some?
    requires route in {DirectLookup, EscalationRoute, MultiIntentRoute, FallbackRoute}
    ensures AllWrittenBy(SupportName, Delegate(s, route, query, cid).logged)
  {
    if route == EscalationRoute {
      EscalationAuthored(s, IdOrDefault(cid));
    } else if route == MultiIntentRoute {
      UpdateEmailAuthored(s, IdOrDefault(cid), EmailOrDefault(ExtractEmail(query)));
    }
  }

  lemma AccountHelpAuthored(s: DbState, customerId: int)
    ensures AllWrittenBy(SupportName, AccountHelp(s, customerId).logged)
  {
    LogEntryAuthor(SupportName, "Requesting customer info via DataAgent.get_customer(" + IntToString(customerId) + ")");
  }

  lemma BillingAndCancelAuthored(s: DbState)
    ensures AllWrittenBy(SupportName, BillingAndCancel(s).logged)
  {
    LogEntryAuthor(SupportName, "Handling combined billing + cancellation flow");
  }

  lemma TicketReportAuthored(s: DbState)
    ensures AllWrittenBy(SupportName, TicketReport(s).logged)
  {
    LogEntryAuthor(SupportName, "Requesting active customers with open tickets");
  }

  lemma UpgradeAuthored(s: DbState, customerId: int)
    ensures AllWrittenBy(SupportName, UpgradeRequest(s, customerId).logged)
  {
    LogEntryAuthor(SupportName, "Fetching customer info before recommending upgrade");
  }

  lemma EscalationAuthored(s: DbState, customerId: int)
    ensures AllWrittenBy(SupportName, EscalationRefund(s, customerId).logged)
  {
    var p := TicketCreation(s, customerId, RefundIssue, "high").0;
    LogEntryAuthor(SupportName, "Creating high-priority refund ticket due to double charge");
    if p.Success() {
      LogEntryAuthor(SupportName, "High-priority ticket #" + IntToString(p.ticket.id) + " created");
    }
  }

  lemma UpdateEmailAuthored(s: DbState, customerId: int, email: string)
    ensures AllWrittenBy(SupportName, UpdateEmailAndHistory(s, customerId, email).logged)
  {
    LogEntryAuthor(SupportName, "Updating email, then fetching ticket history");
  }

  /**
   * The trace: the result echoes the query; the first entry records it; exactly
   * one router entry follows, for the rule that fired first; every later entry
   * is the delegate's, in the order it wrote them.
   */
  lemma QueryTrace(s: DbState, query: string)
    ensures var (r, _) := QueryOutcome(s, query);
      var cid := ExtractCustomerId(query);
      var route := Classify(Lower(query), cid);
      && r.query == query
      && |r.logs| >= 2
      && r.logs[0] == ReceivedEntry(query)
      && r.logs[1] == RoutingEntry(route)
      && Fires(route, Lower(query), cid)
      && (forall earlier: Route :: Rank(earlier) < Rank(route) ==> !Fires(earlier, Lower(query), cid))
      && r.logs[2..] == Delegate(s, route, query, cid).logged
  {
    var cid := ExtractCustomerId(query);
    var route := Classify(Lower(query), cid);
    QueryOutcomeOf(s, query, route);
    ClassifyChosen(Lower(query), cid);
    var st := Delegate(s, route, query, cid);
    assert ([ReceivedEntry(query), RoutingEntry(route)] + st.logged)[2..] == st.logged;
  }

  /** The router writes exactly the first two entries of the log; the rest are the support agent's. */
  lemma QueryLogAuthors(s: DbState, query: string)
    ensures var logs := QueryOutcome(s, query).0.logs;
      forall k :: 0 <= k < |logs| ==> (WrittenBy(RouterName, logs[k]) <==> k < 2)
  {
    var cid := ExtractCustomerId(query);
    var route := Classify(Lower(query), cid);
    QueryOutcomeOf(s, query, route);
    DelegateEntries(s, route, query, cid);
    TraceAuthors(query, route, Delegate(s, route, query, cid).logged);
  }

  /** A router trace: two router entries, then entries all written by the support agent. */
  lemma TraceAuthors(query: string, route: Route, delegated: seq<string>)
    requires AllWrittenBy(SupportName, delegated)
    ensures var logs := [ReceivedEntry(query), RoutingEntry(route)] + delegated;
      forall k :: 0 <= k < |logs| ==> (WrittenBy(RouterName, logs[k]) <==> k < 2)
  {
    var logs := [ReceivedEntry(query), RoutingEntry(route)] + delegated;
    LogEntryAuthor(RouterName, "Received user query \U{2192} \"" + query + "\"");
    RoutingAuthor(route);
    forall k | 2 <= k < |logs| ensures !WrittenBy(RouterName, logs[k]) {
      assert logs[k] == delegated[k - 2];
      NotBoth(logs[k]);
    }
  }

  lemma RoutingAuthor(route: Route)
    ensures WrittenBy(RouterName, RoutingEntry(route))
  {
    match route
    case DirectLookup => LogEntryAuthor(RouterName, "Detected simple query \U{2192} DataAgent.get_customer");
    case AccountHelpRoute => LogEntryAuthor(RouterName, "Scenario 1 detected \U{2192} delegating to SupportAgent");
    case BillingCancelRoute => LogEntryAuthor(RouterName, "Scenario 2 detected \U{2192} SupportAgent handles negotiation flow");
    case TicketReportRoute => LogEntryAuthor(RouterName, "Scenario 3 detected \U{2192} multi-step flow");
    case UpgradeRoute => LogEntryAuthor(RouterName, "Coordinated upgrade scenario");
    case EscalationRoute => LogEntryAuthor(RouterName, "Escalation detected \U{2192} high-priority refund");
    case MultiIntentRoute => LogEntryAuthor(RouterName, "Multi-intent flow detected");
    case FallbackRoute => LogEntryAuthor(RouterName, "No recognized pattern \U{2192} fallback reply");
  }

  /** No entry is written by both agents. */
  lemma NotBoth(entry: string)
    ensures !(WrittenBy(RouterName, entry) && WrittenBy(SupportName, entry))
  {
    if WrittenBy(RouterName, entry) {
      assert entry[0] == entry[..|RouterName| + 2][0] == 'R';
    }
    if WrittenBy(SupportName, entry) {
      assert entry[0] == entry[..|SupportName| + 2][0] == 'S';
    }
  }

  /** The answer for a found customer lists the record's name, email, phone and status. */
  lemma DirectAnswerFields(cid: int, c: Customer)
    ensures var answer := DirectAnswer(cid, CustomerFound(c));
      && Contains(answer, "- Name: " + c.name)
      && Contains(answer, "- Email: " + c.email)
      && Contains(answer, "- Phone: " + c.phone)
      && Contains(answer, "- Status: " + c.status)
  {
    var head := "Customer " + IntToString(cid) + " information:\n";
    var withName := head + "- Name: " + c.name;
    var withEmail := withName + "\n" + "- Email: " + c.email;
    var withPhone := withEmail + "\n" + "- Phone: " + c.phone;
    var answer := withPhone + "\n" + "- Status: " + c.status;
    assert answer == DirectAnswer(cid, CustomerFound(c));
    ContainsTail(head, "- Name: ", c.name);
    ContainsTail(withName + "\n", "- Email: ", c.email);
    ContainsTail(withEmail + "\n", "- Phone: ", c.phone);
    ContainsTail(withPhone + "\n", "- Status: ", c.status);
    ContainsAfter(withName, "\n", "- Email: ", c.email, "- Name: " + c.name);
    ContainsAfter(withEmail, "\n", "- Phone: ", c.phone, "- Name: " + c.name);
    ContainsAfter(withPhone, "\n", "- Status: ", c.status, "- Name: " + c.name);
    ContainsAfter(withEmail, "\n", "- Phone: ", c.phone, "- Email: " + c.email);
    ContainsAfter(withPhone, "\n", "- Status: ", c.status, "- Email: " + c.email);
    ContainsAfter(withPhone, "\n", "- Status: ", c.status, "- Phone: " + c.phone);
  }

  /** Appending one more labelled field keeps what was already there. */
  lemma ContainsAfter(s: string, a: string, b: string, c: string, pat: string)
    requires Contains(s, pat)
    ensures Contains(s + a + b + c, pat)
  {
    ContainsExtend(s, a, pat);
    ContainsExtend(s + a, b, pat);
    ContainsExtend(s + a + b, c, pat);
  }

  /**
   * A direct lookup of a stored customer answers with the record's fields
   * and only consumes the lookup's turn at the database; a lookup of an
   * unknown id, or of one too large for SQLite, answers that it could not
   * retrieve the customer, with the store's error.
   */
  lemma DirectLookupAnswer(s: DbState, query: string)
    requires Classify(Lower(query), ExtractCustomerId(query)) == DirectLookup
    requires NextFault(s.faultPlan) == None
    ensures var (r, s') := QueryOutcome(s, query);
      var cid := ExtractCustomerId(query).value;
      && s' == Consume(s)
      && (FitsInteger(cid) && cid in s.customers ==> r.finalAnswer == DirectAnswer(cid, CustomerFound(s.customers[cid])))
      && (FitsInteger(cid) && cid !in s.customers ==>
            r.finalAnswer == "Unable to retrieve customer " + IntToString(cid) + ": " + NotFoundMessage(cid))
      && (!FitsInteger(cid) ==>
            r.finalAnswer == "Unable to retrieve customer " + IntToString(cid) + ": " + DbError(OverflowMessage))
  {
    ClassifyChosen(Lower(query), ExtractCustomerId(query));
    LookupContract(s, ExtractCustomerId(query).value);
  }

  /** Escalation falls back to customer 1 when no id was extracted or the id is 0. */
  lemma EscalationDefault(s: DbState, query: string)
    requires Classify(Lower(query), ExtractCustomerId(query)) == EscalationRoute
    requires ExtractCustomerId(query).None? || ExtractCustomerId(query) == Some(0)
    ensures var st := EscalationRefund(s, 1);
      QueryOutcome(s, query) == (RouterResult(query, st.answer, [ReceivedEntry(query), RoutingEntry(EscalationRoute)] + st.logged), st.after)
  {
    QueryOutcomeOf(s, query, EscalationRoute);
  }

  /**
   * The multi-intent flow falls back to customer 1 when no id was extracted
   * or the id is 0, and to "new@example.com" when the query holds no address.
   */
  lemma MultiIntentDefault(s: DbState, query: string)
    requires Classify(Lower(query), ExtractCustomerId(query)) == MultiIntentRoute
    requires ExtractCustomerId(query).None? || ExtractCustomerId(query) == Some(0)
    requires ExtractEmail(query).None?
    ensures var st := UpdateEmailAndHistory(s, 1, "new@example.com");
      QueryOutcome(s, query) == (RouterResult(query, st.answer, [ReceivedEntry(query), RoutingEntry(MultiIntentRoute)] + st.logged), st.after)
  {
    QueryOutcomeOf(s, query, MultiIntentRoute);
  }

  /** The orchestrator over the two specialists, which share one store. */
  class RouterAgent {
    const data: CustomerDataAgent
    const support: SupportAgent

    constructor (data: CustomerDataAgent, support: SupportAgent)
      ensures this.data == data && this.support == support
    {
      this.data := data;
      this.support := support;
    }

    /** The direct-lookup branch: one get_customer, and the record's fields or the error. */
    method LookupAnswer(cid: int) returns (answer: string)
      requires data.db.Valid()
      modifies data.db
      ensures data.db.Valid()
      ensures answer == DirectAnswer(cid, CustomerLookup(old(data.db.State()), cid))
      ensures data.db.State() == Consume(old(data.db.State()))
    {
      var result := data.GetCustomer(cid);
      if !result.Success() {
        answer := "Unable to retrieve customer " + IntToString(cid) + ": " + result.error;
      } else {
        var c := result.customer;
        answer := "Customer " + IntToString(cid) + " information:\n"
          + "- Name: " + c.name + "\n"
          + "- Email: " + c.email + "\n"
          + "- Phone: " + c.phone + "\n"
          + "- Status: " + c.status;
      }
    }

    /** Runs the workflow of the rule that fired, appending its delegate's entries to `logs`. */
    method Run(route: Route, query: string, cid: Option<int>, logs: Log) returns (answer: string)
      requires data.db.Valid()
      requires support.data.db == data.db
      requires NeedsId(route) ==> cid.Some?
      modifies data.db, logs
      ensures data.db.Valid()
      ensures var st := Delegate(old(data.db.State()), route, query, cid);
        answer == st.answer && logs.entries == old(logs.entries) + st.logged && data.db.State() == st.after
    {
      ghost var before := data.db.State();
      match route
      case DirectLookup =>
        assert Delegate(before, route, query, cid)
          == Step(DirectAnswer(cid.value, CustomerLookup(before, cid.value)), [], Consume(before));
        answer := LookupAnswer(cid.value);
      case _ =>
        answer := RunFromAccountHelp(route, query, cid, logs);
    }

    /** The account-help and billing rules, and those after them. */
    method RunFromAccountHelp(route: Route, query: string, cid: Option<int>, logs: Log) returns (answer: string)
      requires data.db.Valid()
      requires support.data.db == data.db
      requires NeedsId(route) ==> cid.Some?
      requires Rank(route) >= Rank(AccountHelpRoute)
      modifies data.db, logs
      ensures data.db.Valid()
      ensures var st := Delegate(old(data.db.State()), route, query, cid);
        answer == st.answer && logs.entries == old(logs.entries) + st.logged && data.db.State() == st.after
    {
      ghost var before := data.db.State();
      if route == AccountHelpRoute {
        assert Delegate(before, route, query, cid) == AccountHelp(before, cid.value);
        answer := support.HandleAccountHelp(cid.value, logs);
      } else if route == BillingCancelRoute {
        assert Delegate(before, route, query, cid) == BillingAndCancel(before);
        answer := support.HandleBillingAndCancel(logs);
      } else {
        answer := RunFromReport(route, query, cid, logs);
      }
    }

    /** The ticket-report and upgrade rules, and those after them. */
    method RunFromReport(route: Route, query: string, cid: Option<int>, logs: Log) returns (answer: string)
      requires data.db.Valid()
      requires support.data.db == data.db
      requires NeedsId(route) ==> cid.Some?
      requires Rank(route) >= Rank(TicketReportRoute)
      modifies data.db, logs
      ensures data.db.Valid()
      ensures var st := Delegate(old(data.db.State()), route, query, cid);
        answer == st.answer && logs.entries == old(logs.entries) + st.logged && data.db.State() == st.after
    {
      ghost var before := data.db.State();
      if route == TicketReportRoute {
        assert Delegate(before, route, query, cid) == TicketReport(before);
        answer := support.HandleTicketReport(logs);
      } else if route == UpgradeRoute {
        assert Delegate(before, route, query, cid) == UpgradeRequest(before, cid.value);
        answer := support.HandleUpgradeRequest(cid.value, logs);
      } else {
        answer := RunFromEscalation(route, query, cid, logs);
      }
    }

    /** The escalation and multi-intent rules, and the fallback. */
    method RunFromEscalation(route: Route, query: string, cid: Option<int>, logs: Log) returns (answer: string)
      requires data.db.Valid()
      requires support.data.db == data.db
      requires Rank(route) >= Rank(EscalationRoute)
      modifies data.db, logs
      ensures data.db.Valid()
      ensures var st := Delegate(old(data.db.State()), route, query, cid);
        answer == st.answer && logs.entries == old(logs.entries) + st.logged && data.db.State() == st.after
    {
      ghost var before := data.db.State();
      match route
      case EscalationRoute =>
        assert Delegate(before, route, query, cid) == EscalationRefund(before, IdOrDefault(cid));
        answer := support.HandleEscalationRefund(IdOrDefault(cid), logs);
      case MultiIntentRoute =>
        var email := EmailOrDefault(ExtractEmail(query));
        assert Delegate(before, route, query, cid) == UpdateEmailAndHistory(before, IdOrDefault(cid), email);
        answer := support.HandleUpdateEmailAndHistory(IdOrDefault(cid), email, logs);
      case FallbackRoute =>
        answer := FallbackAnswer;
    }

    /** handle_query: the rules are tried in order and the first that fires runs. */
    method HandleQuery(query: string) returns (r: RouterResult)
      requires data.db.Valid()
      requires support.data.db == data.db
      modifies data.db
      ensures data.db.Valid()
      ensures (r, data.db.State()) == QueryOutcome(old(data.db.State()), query)
    {
      ghost var before := data.db.State();
      var logs := new Log();
      logs.Append(ReceivedEntry(query));
      var text := Lower(query);
      var cid := ExtractCustomerId(query);
      var route := ChooseRoute(text, cid);
      logs.Append(RoutingEntry(route));
      assert logs.entries == [ReceivedEntry(query), RoutingEntry(route)];
      assert data.db.State() == before;
      var answer := Run(route, query, cid, logs);
      r := RouterResult(query, answer, logs.entries);
      QueryOutcomeOf(old(data.db.State()), query, route);
    }
  }

  /** The tests of handle_query, in its order; the first that holds picks the rule. */
  method ChooseRoute(text: string, cid: Option<int>) returns (route: Route)
    ensures route == Classify(text, cid)
    ensures NeedsId(route) ==> cid.Some?
  {
    if Contains(text, "get customer information") && cid.Some? {
      route := DirectLookup;
    } else if Contains(text, "help with my account") && cid.Some? {
      route := AccountHelpRoute;
    } else if Contains(text, "cancel") && Contains(text, "billing") {
      route := BillingCancelRoute;
    } else if Contains(text, "active customers") && Contains(text, "open tickets") {
      route := TicketReportRoute;
    } else if Contains(text, "upgrading my account") && cid.Some? {
      route := UpgradeRoute;
    } else if Contains(text, "charged twice") || Contains(text, "double charged") {
      route := EscalationRoute;
    } else if Contains(text, "update my email") && Contains(text, "ticket history") {
      route := MultiIntentRoute;
    } else {
      route := FallbackRoute;
    }
  }
}
