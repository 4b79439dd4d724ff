/** The two voice-command interpreters, for ERPNext and for QBS. Each lower-cases
    the command, refuses to work without a connection unless the command asks
    for help or settings, classifies the command by an ordered chain of
    substring rules, and hands it to a handler that either answers at once or
    makes one back-end call and turns its result into a sentence.

    A handler is split at its call: `Plan` decides, before any call, whether
    the command is answered at once or which request is made; `Finish` turns
    the back end's answer into the reply. The back end is an oracle `Api`. */
module Commands {
  import opened Text
  import opened Slots
  import opened Schema

  datatype System = ErpNext | Qbs

  /** The pages navigation can send the browser to. */
  datatype Page = Dashboard | History | Settings

  function PagePath(p: Page): string {
    match p
    case Dashboard => "/"
    case History => "/history"
    case Settings => "/settings"
  }

  datatype Intent = Inventory | Invoice | Orders | Contacts | Navigate(page: Page) | Help | Unknown

  /** A row of the inventory answer; `item_name` and `actual_qty` may be absent. */
  datatype StockRow = StockRow(itemName: Option<string>, actualQty: Option<int>)

  datatype InvoiceDoc = InvoiceDoc(name: Option<string>)

  datatype OrderRow = OrderRow(name: Option<string>, customer: Option<string>)

  /** `{ success, message, data }` as the API client returns it. */
  datatype Response<T> = Response(success: bool, message: Option<string>, data: T)

  /** A call either resolves with a response or throws an error with a message. */
  datatype Outcome<T> = Answered(response: Response<T>) | Threw(error: string)

  /** The back end, as seen by the handlers. */
  datatype Api = Api(getInventory: string -> Outcome<seq<StockRow>>,
                     createInvoice: string -> Outcome<InvoiceDoc>,
                     getOpenOrders: Outcome<seq<OrderRow>>)

  datatype Request = GetInventory(product: string) | CreateInvoice(customer: string) | GetOpenOrders

  /** The sentences the interpreters answer with, before rendering. */
  datatype Message =
    | NeedsConnection(sys: System)
    | AskProduct
    | AskCustomer
    | NoInventory(product: string)
    | InStock(product: string, quantity: int)
    | InventoryFailed(reason: string)
    | InvoiceCreated(invoice: string, customer: string)
    | InvoiceFailed(reason: string)
    | NoOpenOrders
    | OpenOrders(count: nat, latest: string, customer: string)
    | OrdersFailed(reason: string)
    | ContactList
    | Navigating(page: Page)
    | Capabilities(sys: System)
    | NotUnderstood

  /** What a handler does before any call: answer (and perhaps move to a page),
      or make one request. */
  datatype Step = Answer(message: Message, goTo: Option<Page>) | Query(request: Request)

  /** What `handleVoiceCommand` resolves to, with the page it sent the browser to. */
  datatype Reply = Reply(message: Message, goTo: Option<Page>)

  // Long literals are written as concatenated pieces, which keeps the
  // verifier's work on them small.
  const OrdersSentenceMiddle := " open orders. " + "The most recent is "

  /** The QBS help sentence, around the capability the ERPNext one lacks. */
  const QbsHelpHead := "You can ask me to " + "check inventory, " + "create invoices, "
  const QbsHelpTail := ", show open " + "orders, and " + "navigate between " + "pages. Try saying " + "'Check inventory " + "for product XYZ' " + "or 'Create " + "invoice for " + "customer ABC'."

  /** The exact text of each sentence. */
  function Sentence(m: Message): string {
    match m
    case NeedsConnection(ErpNext) => "You need to " + "connect to " + "ERPNext first. " + "Please go to " + "Settings and set " + "up your " + "connection."
    case NeedsConnection(Qbs) => "You need to " + "connect to QBS " + "first. Please go " + "to Settings and " + "set up your " + "connection."
    case AskProduct => "Please specify a " + "product name for " + "inventory check. " + "For example, " + "'Check inventory " + "for product XYZ'."
    case AskCustomer => "Please specify a " + "customer name for " + "the invoice. For " + "example, 'Create " + "invoice for " + "customer ABC'."
    case NoInventory(p) => "No inventory " + "found for product " + p + "."
    case InStock(p, q) => "Product " + p + " has " + IntToString(q) + " units in stock."
    case InventoryFailed(e) => "Error checking " + "inventory: " + e
    case InvoiceCreated(i, c) => "Sales invoice " + i + " for customer " + c + "."
    case InvoiceFailed(e) => "Error creating " + "invoice: " + e
    case NoOpenOrders => "No open orders " + "found."
    case OpenOrders(n, o, c) => "Found " + NatToString(n) + OrdersSentenceMiddle + o + " for customer " + c + "."
    case OrdersFailed(e) => "Error fetching " + "open orders: " + e
    case ContactList => "Found 3 recent " + "contacts: John " + "Doe (Customer), " + "Jane Smith " + "(Supplier), and " + "Acme Corp " + "(Customer). Would " + "you like to call " + "any of them?"
    case Navigating(Dashboard) => "Navigating to " + "dashboard."
    case Navigating(History) => "Navigating to " + "command history."
    case Navigating(Settings) => "Navigating to " + "settings."
    case Capabilities(ErpNext) => "You can ask me to " + "check inventory, " + "create invoices, " + "show open orders, " + "and navigate " + "between pages. " + "Try saying 'Check " + "inventory for " + "product XYZ' or " + "'Create invoice " + "for customer ABC'."
    case Capabilities(Qbs) => QbsHelpHead + "show contacts" + QbsHelpTail
    case NotUnderstood => "I'm sorry, I " + "didn't understand " + "that command. Try " + "saying 'Help' to " + "see available " + "commands."
  }

  function ProductName(sys: System, command: string): Option<string> {
    match sys
    case ErpNext => ErpProductName(command)
    case Qbs => QbsProductName(command)
  }

  // ---------------------------------------------------------------------------
  // Classification

  predicate AnyOf(lower: string, words: seq<string>) {
    exists w | w in words :: Contains(lower, w)
  }

  predicate InventoryWords(lower: string) {
    AnyOf(lower, ["check inventory", "inventory check", "stock level"])
    || (Contains(lower, "how many") && Contains(lower, "stock"))
  }

  predicate InvoiceWords(lower: string) {
    AnyOf(lower, ["create invoice", "make invoice", "new invoice", "generate invoice"])
  }

  predicate OrderWords(lower: string) {
    AnyOf(lower, ["open orders", "show orders", "pending orders", "list orders"])
  }

  predicate ContactWords(lower: string) {
    AnyOf(lower, ["contacts", "contact list", "show contacts", "list contacts"])
  }

  predicate NavigationWords(lower: string) {
    AnyOf(lower, ["go to", "navigate to", "open"])
  }

  predicate DashboardWords(lower: string) { AnyOf(lower, ["dashboard", "home"]) }

  predicate HistoryWords(lower: string) { AnyOf(lower, ["history", "command history"]) }

  predicate SettingsWords(lower: string) { AnyOf(lower, ["settings", "configuration"]) }

  predicate HelpWords(lower: string) {
    AnyOf(lower, ["help", "what can you do", "available commands"])
  }

  /** The if-chain of `handleVoiceCommand` after the connection pre-check. */
  function Classify(sys: System, lower: string): Intent {
    if InventoryWords(lower) then Inventory
    else if InvoiceWords(lower) then Invoice
    else if OrderWords(lower) then Orders
    else if sys == Qbs && ContactWords(lower) then Contacts
    else NavigationOrHelp(lower)
  }

  /** The destination a navigation command names, tested in this order. */
  function Destination(lower: string): Option<Page> {
    if DashboardWords(lower) then Some(Dashboard)
    else if HistoryWords(lower) then Some(History)
    else if SettingsWords(lower) then Some(Settings)
    else None
  }

  /** The navigation block, which falls through to help and then to the default
      answer when no destination is named. */
  function NavigationOrHelp(lower: string): Intent {
    if NavigationWords(lower) && Destination(lower).Some? then Navigate(Destination(lower).value)
    else if HelpWords(lower) then Help
    else Unknown
  }

  /** The pre-check: without a connection only commands that mention help or
      settings get past it. */
  predicate PassesPreCheck(connection: Option<ErpConnection>, lower: string) {
    connection.Some? || Contains(lower, "help") || Contains(lower, "settings")
  }

  // ---------------------------------------------------------------------------
  // Handlers

  /** `handleInventoryCheck` up to its call. */
  function InventoryStep(sys: System, command: string, connection: Option<ErpConnection>): Step {
    if connection.None? then Answer(NeedsConnection(sys), None)
    else
      var product := ProductName(sys, command);
      if product.None? || product.value == "" then Answer(AskProduct, None)
      else Query(GetInventory(product.value))
  }

  /** `handleCreateInvoice` up to its call. */
  function InvoiceStep(sys: System, command: string, connection: Option<ErpConnection>): Step {
    if connection.None? then Answer(NeedsConnection(sys), None)
    else
      var customer := CustomerName(command);
      if customer.None? || customer.value == "" then Answer(AskCustomer, None)
      else Query(CreateInvoice(customer.value))
  }

  /** `handleShowOpenOrders` up to its call. */
  function OrdersStep(sys: System, connection: Option<ErpConnection>): Step {
    if connection.None? then Answer(NeedsConnection(sys), None) else Query(GetOpenOrders)
  }

  /** `handleShowContacts`: a fixed, simulated answer and no call. */
  function ContactsStep(connection: Option<ErpConnection>): Step {
    if connection.None? then Answer(NeedsConnection(Qbs), None) else Answer(ContactList, None)
  }

  /** `handleVoiceCommand` up to the one call it may make. Slots are taken from
      the command as spoken; only the classification uses the lower-cased text. */
  function Plan(sys: System, command: string, connection: Option<ErpConnection>): Step {
    var lower := ToLower(command);
    if !PassesPreCheck(connection, lower) then Answer(NeedsConnection(sys), None)
    else
      match Classify(sys, lower)
      case Inventory => InventoryStep(sys, command, connection)
      case Invoice => InvoiceStep(sys, command, connection)
      case Orders => OrdersStep(sys, connection)
      case Contacts => ContactsStep(connection)
      case Navigate(p) => Answer(Navigating(p), Some(p))
      case Help => Answer(Capabilities(sys), None)
      case Unknown => Answer(NotUnderstood, None)
  }

  /** The inventory answer for a resolved or failed call: the first row only. */
  function InventoryReply(product: string, outcome: Outcome<seq<StockRow>>): Message {
    match outcome
    case Threw(e) => InventoryFailed(e)
    case Answered(r) =>
      if !r.success then InventoryFailed(Rendered(r.message))
      else if |r.data| == 0 then NoInventory(product)
      else
        var item := r.data[0];
        InStock(OrElse(item.itemName, product), if item.actualQty.Some? then item.actualQty.value else 0)
  }

  function InvoiceReply(customer: string, outcome: Outcome<InvoiceDoc>): Message {
    match outcome
    case Threw(e) => InvoiceFailed(e)
    case Answered(r) =>
      if !r.success then InvoiceFailed(Rendered(r.message))
      else InvoiceCreated(OrElse(r.data.name, "created"), customer)
  }

  function OrdersReply(outcome: Outcome<seq<OrderRow>>): Message {
    match outcome
    case Threw(e) => OrdersFailed(e)
    case Answered(r) =>
      if !r.success then OrdersFailed(Rendered(r.message))
      else if |r.data| == 0 then NoOpenOrders
      else OpenOrders(|r.data|, OrElse(r.data[0].name, "unknown"), OrElse(r.data[0].customer, "unknown"))
  }

  /** The request made, and its answer turned into the reply. */
  function Finish(request: Request, api: Api): Message {
    match request
    case GetInventory(p) => InventoryReply(p, api.getInventory(p))
    case CreateInvoice(c) => InvoiceReply(c, api.createInvoice(c))
    case GetOpenOrders => OrdersReply(api.getOpenOrders)
  }

  /** `handleVoiceCommand`: every path resolves to a sentence. */
  function HandleVoiceCommand(sys: System, command: string, connection: Option<ErpConnection>,
                              api: Api): Reply
  {
    match Plan(sys, command, connection)
    case Answer(message, goTo) => Reply(message, goTo)
    case Query(request) => Reply(Finish(request, api), None)
  }

  // ---------------------------------------------------------------------------
  // The routing table: an independent statement of the rule order

  /** A row of the routing table: it fires when every phrase of one of its
      alternatives occurs in the lower-cased command. */
  datatype Rule = Rule(alternatives: seq<seq<string>>, intent: Intent)

  predicate AllOf(lower: string, words: seq<string>) {
    forall w | w in words :: Contains(lower, w)
  }

  predicate AnyAlternative(lower: string, alternatives: seq<seq<string>>) {
    exists a | a in alternatives :: AllOf(lower, a)
  }

  predicate Fires(rule: Rule, lower: string) {
    AnyAlternative(lower, rule.alternatives)
  }

  /** Each phrase as an alternative of its own. */
  function Singles(words: seq<string>): seq<seq<string>> {
    seq(|words|, k requires 0 <= k < |words| => [words[k]])
  }

  /** Every pair of a phrase from `xs` and a phrase from `ys`. */
  function Pairs(xs: seq<string>, ys: seq<string>): seq<seq<string>>
    decreases |xs|
  {
    if xs == [] then []
    else seq(|ys|, j requires 0 <= j < |ys| => [xs[0], ys[j]]) + Pairs(xs[1..], ys)
  }

  const NavigationPhrases: seq<string> := ["go to", "navigate to", "open"]

  /** The rules in the order the interpreter tries them; the contacts rule exists
      only in the QBS interpreter. A navigation row pairs every navigation
      phrase with every phrase naming its destination. */
  function RuleTable(sys: System): seq<Rule> {
    [Rule(Singles(["check inventory", "inventory check", "stock level"]) + [["how many", "stock"]], Inventory),
     Rule(Singles(["create invoice", "make invoice", "new invoice", "generate invoice"]), Invoice),
     Rule(Singles(["open orders", "show orders", "pending orders", "list orders"]), Orders)]
    + (if sys == Qbs then [Rule(Singles(["contacts", "contact list", "show contacts", "list contacts"]), Contacts)]
       else [])
    + TailTable()
  }

  /** The first rule, from index `i` on, that fires; no rule firing is Unknown. */
  function FirstFiring(rules: seq<Rule>, lower: string, i: nat): Intent
    requires i <= |rules|
    decreases |rules| - i
  {
    if i == |rules| then Unknown
    else if Fires(rules[i], lower) then rules[i].intent
    else FirstFiring(rules, lower, i + 1)
  }

  /** First match wins: the answer is the intent of a rule that fires and no
      earlier rule fires; the default answer means no rule fires. */
  lemma {:induction false} FirstFiringIsFirst(rules: seq<Rule>, lower: string, i: nat)
    requires i <= |rules|
    requires forall k :: i <= k < |rules| ==> rules[k].intent != Unknown
    ensures var r := FirstFiring(rules, lower, i);
            && (r != Unknown ==> exists k :: i <= k < |rules| && rules[k].intent == r && Fires(rules[k], lower)
                                             && forall j :: i <= j < k ==> !Fires(rules[j], lower))
            && (r == Unknown <==> forall k :: i <= k < |rules| ==> !Fires(rules[k], lower))
    decreases |rules| - i
  {
    if i < |rules| && !Fires(rules[i], lower) {
      FirstFiringIsFirst(rules, lower, i + 1);
    }
  }

  lemma SinglesFire(lower: string, words: seq<string>)
    ensures AnyAlternative(lower, Singles(words)) <==> AnyOf(lower, words)
  {
    var alts := Singles(words);
    if AnyOf(lower, words) {
      var w :| w in words && Contains(lower, w);
      var k :| 0 <= k < |words| && words[k] == w;
      assert alts[k] == [w] && AllOf(lower, alts[k]);
    }
    if AnyAlternative(lower, alts) {
      var a :| a in alts && AllOf(lower, a);
      var k :| 0 <= k < |alts| && alts[k] == a;
      assert words[k] in a;
    }
  }

  lemma AppendFires(lower: string, a: seq<seq<string>>, b: seq<seq<string>>)
    ensures AnyAlternative(lower, a + b) <==> AnyAlternative(lower, a) || AnyAlternative(lower, b)
  {
    if AnyAlternative(lower, a + b) {
      var x :| x in a + b && AllOf(lower, x);
      assert x in a || x in b;
    }
    if AnyAlternative(lower, a) {
      var x :| x in a && AllOf(lower, x);
      assert x in a + b;
    }
    if AnyAlternative(lower, b) {
      var x :| x in b && AllOf(lower, x);
      assert x in a + b;
    }
  }

  lemma {:induction false} PairsFire(lower: string, xs: seq<string>, ys: seq<string>)
    ensures AnyAlternative(lower, Pairs(xs, ys)) <==> AnyOf(lower, xs) && AnyOf(lower, ys)
    decreases |xs|
  {
    if xs != [] {
      var row := seq(|ys|, j requires 0 <= j < |ys| => [xs[0], ys[j]]);
      AppendFires(lower, row, Pairs(xs[1..], ys));
      PairsFire(lower, xs[1..], ys);
      if AnyAlternative(lower, row) {
        var a :| a in row && AllOf(lower, a);
        var j :| 0 <= j < |ys| && row[j] == a;
        assert xs[0] in a && ys[j] in a && xs[0] in xs && ys[j] in ys;
      }
      if Contains(lower, xs[0]) && AnyOf(lower, ys) {
        var y :| y in ys && Contains(lower, y);
        var j :| 0 <= j < |ys| && ys[j] == y;
        assert AllOf(lower, row[j]);
      }
      assert AnyOf(lower, xs) <==> Contains(lower, xs[0]) || AnyOf(lower, xs[1..]) by {
        if AnyOf(lower, xs) {
          var w :| w in xs && Contains(lower, w);
          assert w == xs[0] || w in xs[1..];
        }
        if AnyOf(lower, xs[1..]) {
          var w :| w in xs[1..] && Contains(lower, w);
          assert w in xs;
        }
      }
    }
  }

  lemma PairFires(lower: string, x: string, y: string)
    ensures AnyAlternative(lower, [[x, y]]) <==> Contains(lower, x) && Contains(lower, y)
  {
    if Contains(lower, x) && Contains(lower, y) {
      assert AllOf(lower, [x, y]);
    }
  }

  /** What each row of the table tests is what the matching branch of the
      if-chain tests. */
  lemma HeadRowsFire(sys: System, lower: string)
    ensures Fires(RuleTable(sys)[0], lower) <==> InventoryWords(lower)
    ensures Fires(RuleTable(sys)[1], lower) <==> InvoiceWords(lower)
    ensures Fires(RuleTable(sys)[2], lower) <==> OrderWords(lower)
    ensures sys == Qbs ==> (Fires(RuleTable(sys)[3], lower) <==> ContactWords(lower))
  {
    var inventory := ["check inventory", "inventory check", "stock level"];
    SinglesFire(lower, inventory);
    PairFires(lower, "how many", "stock");
    AppendFires(lower, Singles(inventory), [["how many", "stock"]]);
    SinglesFire(lower, ["create invoice", "make invoice", "new invoice", "generate invoice"]);
    SinglesFire(lower, ["open orders", "show orders", "pending orders", "list orders"]);
    SinglesFire(lower, ["contacts", "contact list", "show contacts", "list contacts"]);
  }

  /** The four rows after the contacts rule (or after the orders rule in the
      ERPNext interpreter). */
  function TailTable(): seq<Rule> {
    [Rule(Pairs(NavigationPhrases, ["dashboard", "home"]), Navigate(Dashboard)),
     Rule(Pairs(NavigationPhrases, ["history", "command history"]), Navigate(History)),
     Rule(Pairs(NavigationPhrases, ["settings", "configuration"]), Navigate(Settings)),
     Rule(Singles(["help", "what can you do", "available commands"]), Help)]
  }

  lemma TailRowsFire(lower: string)
    ensures Fires(TailTable()[0], lower) <==> NavigationWords(lower) && DashboardWords(lower)
    ensures Fires(TailTable()[1], lower) <==> NavigationWords(lower) && HistoryWords(lower)
    ensures Fires(TailTable()[2], lower) <==> NavigationWords(lower) && SettingsWords(lower)
    ensures Fires(TailTable()[3], lower) <==> HelpWords(lower)
  {
    PairsFire(lower, NavigationPhrases, ["dashboard", "home"]);
    PairsFire(lower, NavigationPhrases, ["history", "command history"]);
    PairsFire(lower, NavigationPhrases, ["settings", "configuration"]);
    SinglesFire(lower, ["help", "what can you do", "available commands"]);
  }

  lemma FirstFiringStep(rules: seq<Rule>, lower: string, i: nat)
    requires i < |rules|
    ensures FirstFiring(rules, lower, i)
            == if Fires(rules[i], lower) then rules[i].intent else FirstFiring(rules, lower, i + 1)
  {
  }

  lemma TailRows(lower: string)
    ensures FirstFiring(TailTable(), lower, 0) == NavigationOrHelp(lower)
  {
    TailRowsFire(lower);
    var t := TailTable();
    var help := if HelpWords(lower) then Help else Unknown;
    assert FirstFiring(t, lower, 3) == help by {
      FirstFiringStep(t, lower, 3);
    }
    assert FirstFiring(t, lower, 1) == if NavigationWords(lower) && HistoryWords(lower) then Navigate(History)
      else if NavigationWords(lower) && SettingsWords(lower) then Navigate(Settings) else help by {
      FirstFiringStep(t, lower, 2);
      FirstFiringStep(t, lower, 1);
    }
    FirstFiringStep(t, lower, 0);
  }

  /** Reading a table from index `n` is reading its suffix from 0. */
  lemma {:induction false} FirstFiringSuffix(rules: seq<Rule>, lower: string, n: nat, i: nat)
    requires n <= i <= |rules|
    ensures FirstFiring(rules, lower, i) == FirstFiring(rules[n..], lower, i - n)
    decreases |rules| - i
  {
    if i < |rules| {
      FirstFiringSuffix(rules, lower, n, i + 1);
      assert rules[n..][i - n] == rules[i];
    }
  }

  /** The if-chain is the routing table read top-down, first match winning. */
  lemma ClassifyFollowsTable(sys: System, lower: string)
    ensures Classify(sys, lower) == FirstFiring(RuleTable(sys), lower, 0)
  {
    HeadRowsFire(sys, lower);
    TailRows(lower);
    var t := RuleTable(sys);
    var n := if sys == Qbs then 4 else 3;
    assert t[n..] == TailTable();
    FirstFiringSuffix(t, lower, n, n);
    if sys == Qbs {
      FirstFiringStep(t, lower, 3);
    }
    FirstFiringStep(t, lower, 2);
    FirstFiringStep(t, lower, 1);
    FirstFiringStep(t, lower, 0);
  }

  // ---------------------------------------------------------------------------
  // Properties of the interpreters

  /** Without a connection, a command that mentions neither help nor settings is
      answered with exactly the not-connected sentence. */
  lemma DisconnectedGate(sys: System, command: string, api: Api)
    requires !Contains(ToLower(command), "help") && !Contains(ToLower(command), "settings")
    ensures HandleVoiceCommand(sys, command, None, api) == Reply(NeedsConnection(sys), None)
  {
  }

  /** Without a connection no request is ever made: a command that gets past the
      pre-check by mentioning help or settings is stopped again by the handler
      it is routed to. */
  lemma NoConnectionNoCall(sys: System, command: string)
    ensures Plan(sys, command, None).Answer?
    ensures Classify(sys, ToLower(command)) in {Inventory, Invoice, Orders, Contacts}
            ==> Plan(sys, command, None) == Answer(NeedsConnection(sys), None)
  {
  }

  /** Every request the interpreter makes is the one its rules call for, with a
      non-empty slot extracted from the command as spoken, and only with a
      connection. */
  lemma RequestsFollowRules(sys: System, command: string, connection: Option<ErpConnection>, slot: string)
    ensures Plan(sys, command, connection) == Query(GetInventory(slot))
            <==> connection.Some? && Classify(sys, ToLower(command)) == Inventory
                 && ProductName(sys, command) == Some(slot) && slot != ""
    ensures Plan(sys, command, connection) == Query(CreateInvoice(slot))
            <==> connection.Some? && Classify(sys, ToLower(command)) == Invoice
                 && CustomerName(command) == Some(slot) && slot != ""
    ensures Plan(sys, command, connection) == Query(GetOpenOrders)
            <==> connection.Some? && Classify(sys, ToLower(command)) == Orders
  {
  }

  /** A missing or empty product gives the product prompt and no call. */
  lemma MissingProductPrompts(sys: System, command: string, c: ErpConnection, api: Api)
    requires Classify(sys, ToLower(command)) == Inventory
    requires ProductName(sys, command).None? || ProductName(sys, command) == Some("")
    ensures Plan(sys, command, Some(c)) == Answer(AskProduct, None)
    ensures HandleVoiceCommand(sys, command, Some(c), api) == Reply(AskProduct, None)
  {
  }

  /** A missing or empty customer gives the customer prompt and no call. */
  lemma MissingCustomerPrompts(sys: System, command: string, c: ErpConnection, api: Api)
    requires Classify(sys, ToLower(command)) == Invoice
    requires CustomerName(command).None? || CustomerName(command) == Some("")
    ensures Plan(sys, command, Some(c)) == Answer(AskCustomer, None)
    ensures HandleVoiceCommand(sys, command, Some(c), api) == Reply(AskCustomer, None)
  {
  }

  /** The contacts rule belongs to the QBS interpreter, answers with the fixed
      simulated list and makes no call. */
  lemma ContactsAreSimulated(command: string, c: ErpConnection, api: Api)
    requires Classify(Qbs, ToLower(command)) == Contacts
    ensures HandleVoiceCommand(Qbs, command, Some(c), api) == Reply(ContactList, None)
    ensures forall lower :: Classify(ErpNext, lower) != Contacts
  {
  }

  /** "open orders" is an orders query and never navigation, although it
      contains "open": the orders rule comes first. */
  lemma OpenOrdersIsQuery(sys: System, lower: string)
    requires Contains(lower, "open orders")
    ensures Classify(sys, lower) in {Inventory, Invoice, Orders}
    ensures !InventoryWords(lower) && !InvoiceWords(lower) ==> Classify(sys, lower) == Orders
  {
    assert "open orders" in ["open orders", "show orders", "pending orders", "list orders"];
  }

  /** Navigation needs a navigation phrase and a destination; a navigation
      phrase without one falls through to help or the default answer. */
  lemma NavigationNeedsDestination(sys: System, lower: string)
    ensures Classify(sys, lower).Navigate?
            ==> NavigationWords(lower) && Destination(lower) == Some(Classify(sys, lower).page)
    ensures Classify(sys, lower) == Navigate(Settings) ==> !DashboardWords(lower) && !HistoryWords(lower)
    ensures NavigationWords(lower) && Destination(lower).None? ==> Classify(sys, lower) !in {Navigate(Dashboard), Navigate(History), Navigate(Settings)}
  {
  }

  predicate Failed<T>(o: Outcome<T>) {
    o.Threw? || !o.response.success
  }

  predicate CallFailed(request: Request, api: Api) {
    match request
    case GetInventory(p) => Failed(api.getInventory(p))
    case CreateInvoice(c) => Failed(api.createInvoice(c))
    case GetOpenOrders => Failed(api.getOpenOrders)
  }

  predicate IsFailure(m: Message) {
    m.InventoryFailed? || m.InvoiceFailed? || m.OrdersFailed?
  }

  lemma StartsWithPrefix(p: string, e: string, q: string)
    requires StartsWith(p, q)
    ensures StartsWith(p + e, q)
  {
    assert (p + e)[..|q|] == p[..|q|];
  }

  /** Only the failure sentences start with an "E". */
  lemma OtherSentencesOpening(m: Message)
    requires !IsFailure(m)
    ensures |Sentence(m)| > 0 && Sentence(m)[0] != 'E'
  {
  }

  /** The failure sentences are exactly the ones that start with "Error ". */
  lemma ErrorSentences(m: Message)
    ensures StartsWith(Sentence(m), "Error ") <==> IsFailure(m)
  {
    match m
    case InventoryFailed(e) => StartsWithPrefix("Error checking " + "inventory: ", e, "Error ");
    case InvoiceFailed(e) => StartsWithPrefix("Error creating " + "invoice: ", e, "Error ");
    case OrdersFailed(e) => StartsWithPrefix("Error fetching " + "open orders: ", e, "Error ");
    case _ =>
      OtherSentencesOpening(m);
      assert Sentence(m)[0] != "Error "[0];
  }

  /** A reply to a request starts with "Error " exactly when the call threw or
      came back unsuccessful. */
  lemma ErrorIffFailed(request: Request, api: Api)
    ensures StartsWith(Sentence(Finish(request, api)), "Error ") <==> CallFailed(request, api)
  {
    ErrorSentences(Finish(request, api));
  }

  /** The count in the orders sentence reads back as the number of orders. */
  lemma OrdersCountReadsBack(outcome: Outcome<seq<OrderRow>>)
    requires outcome.Answered? && outcome.response.success && |outcome.response.data| > 0
    ensures ExtractNumber(Sentence(OrdersReply(outcome))) == Some(|outcome.response.data|)
  {
    var m := OrdersReply(outcome);
    var suffix := OrdersSentenceMiddle + m.latest + " for customer " + m.customer + ".";
    assert Sentence(m) == "Found " + NatToString(m.count) + suffix;
    ExtractNumberReadsRendered("Found ", m.count, suffix);
  }

  /** A phrase between two texts is contained in their concatenation. */
  lemma ContainsMiddle(a: string, t: string, b: string)
    ensures Contains(a + t + b, t)
  {
    assert MatchesAt(a + t + b, t, |a|);
    ContainsAt(a + t + b, t, |a|);
  }

  /** The QBS help sentence lists contacts among the capabilities. */
  lemma QbsHelpMentionsContacts()
    ensures Contains(Sentence(Capabilities(Qbs)), "show contacts")
  {
    ContainsMiddle(QbsHelpHead, "show contacts", QbsHelpTail);
  }

  lemma HelpMeIsLower()
    ensures ToLower("help me check inventory") == "help me check inventory"
  {
    ToLowerOfLower("help me check inventory");
  }

  lemma HelpMeWords()
    ensures InventoryWords("help me check inventory")
  {
    ContainsAt("help me check inventory", "check inventory", 8);
    assert "check inventory" in ["check inventory", "inventory check", "stock level"];
  }

  lemma HelpMeSaysHelp()
    ensures Contains("help me check inventory", "help")
  {
    ContainsAt("help me check inventory", "help", 0);
  }

  /** Example: routing priority. "help me check inventory" goes to the inventory
      handler, not to help; without a connection it gets past the pre-check
      because it mentions help, and the handler then answers that a connection
      is needed. */
  lemma HelpMeCheckInventory(sys: System, api: Api)
    ensures Classify(sys, "help me check inventory") == Inventory
    ensures HandleVoiceCommand(sys, "help me check inventory", None, api) == Reply(NeedsConnection(sys), None)
  {
    HelpMeIsLower();
    HelpMeWords();
    HelpMeSaysHelp();
  }

  lemma WidgetWords()
    ensures InventoryWords(ToLower(WidgetCommand))
  {
    var lower := ToLower(WidgetCommand);
    assert lower[..15] == "check inventory";
    ContainsAt(lower, "check inventory", 0);
    assert "check inventory" in ["check inventory", "inventory check", "stock level"];
  }

  /** Example: the product is taken from the command as spoken. */
  lemma WidgetInventoryRequest(c: ErpConnection)
    ensures Plan(ErpNext, WidgetCommand, Some(c)) == Query(GetInventory("Widget"))
  {
    WidgetWords();
    ErpProductOfWidget();
  }
}
