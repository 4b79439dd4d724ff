/** The standalone control panel's command processing: its own keyword routing,
    the product-name default, the sum over stock bins and the sentences it
    shows, with every server reply given as an input. */
module SimpleControls {
  import opened Text
  import opened Schema
  import Commands

  // ---------------------------------------------------------------------------
  // Server replies

  /** A request that answered, or threw with a message (a non-2xx status or a
      network failure). */
  datatype Fetched<T> = Got(value: T) | Thrown(message: string)

  /** The `{ success, message, data }` body of an ERP query. */
  datatype QueryResult<T> = QueryResult(success: bool, message: Option<string>, data: Option<seq<T>>)

  datatype ItemRow = ItemRow(name: Option<string>, itemName: Option<string>)

  datatype BinRow = BinRow(actualQty: Option<int>)

  datatype UserRow = UserRow(name: Option<string>, fullName: Option<string>, email: Option<string>)

  /** What the server answers to each request the panel may make. Items are
      looked up by product name, bins by the item's name. */
  datatype Backend = Backend(connection: Fetched<Option<ErpConnection>>,
                             items: string -> Fetched<QueryResult<ItemRow>>,
                             bins: Option<string> -> Fetched<QueryResult<BinRow>>,
                             orders: Fetched<QueryResult<Commands.OrderRow>>,
                             users: Fetched<QueryResult<UserRow>>)

  // ---------------------------------------------------------------------------
  // Routing

  /** The words that send a command to the ERP branch. */
  predicate ErpRouted(lower: string) {
    Contains(lower, "inventory") || Contains(lower, "check") || Contains(lower, "order")
    || Contains(lower, "invoice") || Contains(lower, "user list")
  }

  datatype Branch = StockBranch | OrdersBranch | UsersBranch | OtherErpBranch

  /** The branch an ERP command takes, tested in the panel's order. */
  function BranchOf(lower: string): Branch {
    if Contains(lower, "inventory") || Contains(lower, "check") then StockBranch
    else if Contains(lower, "order") then OrdersBranch
    else if Contains(lower, "user list") then UsersBranch
    else OtherErpBranch
  }

  /** Stock words win over order words, which win over "user list"; any other
      ERP command, such as one about invoices, takes none of the three. */
  lemma BranchPriority(lower: string)
    ensures BranchOf(lower) == StockBranch <==> Contains(lower, "inventory") || Contains(lower, "check")
    ensures BranchOf(lower) == OrdersBranch <==>
              !Contains(lower, "inventory") && !Contains(lower, "check") && Contains(lower, "order")
    ensures BranchOf(lower) == UsersBranch <==>
              !Contains(lower, "inventory") && !Contains(lower, "check") && !Contains(lower, "order")
              && Contains(lower, "user list")
    ensures BranchOf(lower) == OtherErpBranch && ErpRouted(lower) ==> Contains(lower, "invoice")
  {
  }

  // ---------------------------------------------------------------------------
  // The product name: `/for (\w+)/i`, or "Plate"

  /** The end of the run of word characters starting at `j`. */
  function WordRunEnd(s: string, j: nat): (e: nat)
    requires j <= |s|
    ensures j <= e <= |s|
    ensures forall k :: j <= k < e ==> IsWordChar(s[k])
    ensures e < |s| ==> !IsWordChar(s[e])
    decreases |s| - j
  {
    if j < |s| && IsWordChar(s[j]) then WordRunEnd(s, j + 1) else j
  }

  /** The pattern matches at `i`: "for ", then at least one word character. */
  predicate ForWordAt(s: string, i: nat) {
    i + 4 < |s| && s[i] == 'f' && s[i + 1] == 'o' && s[i + 2] == 'r' && s[i + 3] == ' '
    && IsWordChar(s[i + 4])
  }

  /** The capture of the leftmost match at or after `i`. */
  function WordAfterFor(s: string, i: nat): Option<string>
    decreases |s| - i
  {
    if i + 4 >= |s| then None
    else if ForWordAt(s, i) then Some(s[i + 4..WordRunEnd(s, i + 4)])
    else WordAfterFor(s, i + 1)
  }

  /** The product the stock branch asks about. */
  function ProductName(lower: string): string {
    match WordAfterFor(lower, 0)
    case Some(w) => w
    case None => "Plate"
  }

  /** A found product is the whole word after the leftmost "for " that is
      followed by a word character. */
  lemma {:induction false} WordAfterForIsLeftmost(s: string, i: nat)
    ensures WordAfterFor(s, i).Some? ==>
              exists k :: i <= k && ForWordAt(s, k)
                          && (forall k' :: i <= k' < k ==> !ForWordAt(s, k'))
                          && WordAfterFor(s, i).value == s[k + 4..WordRunEnd(s, k + 4)]
    ensures WordAfterFor(s, i).None? <==> forall k :: i <= k ==> !ForWordAt(s, k)
    decreases |s| - i
  {
    if i + 4 < |s| && !ForWordAt(s, i) {
      WordAfterForIsLeftmost(s, i + 1);
      if WordAfterFor(s, i).Some? {
        var k :| i + 1 <= k && ForWordAt(s, k)
                 && (forall k' :: i + 1 <= k' < k ==> !ForWordAt(s, k'))
                 && WordAfterFor(s, i + 1).value == s[k + 4..WordRunEnd(s, k + 4)];
        assert forall k' :: i <= k' < k ==> !ForWordAt(s, k');
      } else {
        assert forall k :: i <= k ==> !ForWordAt(s, k) by {
          forall k | i <= k ensures !ForWordAt(s, k) {
            if k > i {
              assert i + 1 <= k;
            }
          }
        }
      }
    }
  }

  /** The product is a non-empty run of word characters, or the default. */
  lemma ProductNameShape(lower: string)
    ensures ProductName(lower) == "Plate" || (ProductName(lower) != "" && forall k :: 0 <= k < |ProductName(lower)| ==> IsWordChar(ProductName(lower)[k]))
    ensures WordAfterFor(lower, 0).None? ==> ProductName(lower) == "Plate"
  {
    WordAfterForIsLeftmost(lower, 0);
    if WordAfterFor(lower, 0).Some? {
      var k :| 0 <= k && ForWordAt(lower, k)
               && WordAfterFor(lower, 0).value == lower[k + 4..WordRunEnd(lower, k + 4)];
      assert WordRunEnd(lower, k + 4) > k + 4;
    }
  }

  // ---------------------------------------------------------------------------
  // Stock totals

  /** `bin.actual_qty || 0`: a missing quantity counts as zero. */
  function Quantity(b: BinRow): int {
    if b.actualQty.Some? then b.actualQty.value else 0
  }

  /** The sum of the bins' quantities. */
  function SumQty(bins: seq<BinRow>): int {
    if bins == [] then 0 else SumQty(bins[..|bins| - 1]) + Quantity(bins[|bins| - 1])
  }

  /** The `forEach` that accumulates `totalQty`. */
  method TotalQuantity(bins: seq<BinRow>) returns (total: int)
    ensures total == SumQty(bins)
  {
    total := 0;
    var i := 0;
    while i < |bins|
      invariant 0 <= i <= |bins|
      invariant total == SumQty(bins[..i])
    {
      assert bins[..i + 1][..i] == bins[..i];
      total := total + Quantity(bins[i]);
      i := i + 1;
    }
    assert bins[..i] == bins;
  }

  /** Summing splits over the bins: the total of two lists is the sum of their
      totals. */
  lemma {:induction false} SumQtyAppend(a: seq<BinRow>, b: seq<BinRow>)
    ensures SumQty(a + b) == SumQty(a) + SumQty(b)
    decreases |b|
  {
    if b == [] {
      assert a + b == a;
    } else {
      assert (a + b)[..|a + b| - 1] == a + b[..|b| - 1];
      SumQtyAppend(a, b[..|b| - 1]);
    }
  }

  /** A bin without a quantity leaves the total as it is. */
  lemma MissingQuantityAddsNothing(a: seq<BinRow>, b: seq<BinRow>)
    ensures SumQty(a + [BinRow(None)] + b) == SumQty(a + b)
  {
    SumQtyAppend(a + [BinRow(None)], b);
    SumQtyAppend(a, [BinRow(None)]);
    SumQtyAppend(a, b);
    assert [BinRow(None)][..0] == [];
  }

  /** Bins that all hold stock give a total no smaller than any one of them. */
  lemma {:induction false} SumQtyBoundsEachBin(bins: seq<BinRow>, j: nat)
    requires j < |bins|
    requires forall k :: 0 <= k < |bins| ==> Quantity(bins[k]) >= 0
    ensures SumQty(bins) >= Quantity(bins[j])
    decreases |bins|
  {
    var front := bins[..|bins| - 1];
    assert forall k :: 0 <= k < |front| ==> Quantity(front[k]) >= 0;
    NonNegativeSum(front);
    if j < |bins| - 1 {
      SumQtyBoundsEachBin(front, j);
    }
  }

  lemma {:induction false} NonNegativeSum(bins: seq<BinRow>)
    requires forall k :: 0 <= k < |bins| ==> Quantity(bins[k]) >= 0
    ensures SumQty(bins) >= 0
    decreases |bins|
  {
    if bins != [] {
      NonNegativeSum(bins[..|bins| - 1]);
    }
  }

  // ---------------------------------------------------------------------------
  // What the panel shows

  datatype Note =
    | InStock(item: Option<string>, total: int)
    | NoBinInfo(item: Option<string>)
    | BinsFailed(product: string, reason: string)
    | NoProducts(product: string)
    | OpenOrders(count: nat, first: Commands.OrderRow)
    | NoOpenOrders
    | OrdersFailed(reason: string)
    | Users(list: seq<UserRow>)
    | NoUsers
    | UsersFailed(reason: string)
    | OtherErp(input: string)
    | NoConnection
    | NotErp(input: string)

  /** How the panel ends: a sentence to show, or a thrown error. */
  datatype Ending = Shown(note: Note) | Failed(message: string)

  /** `${user.full_name || user.name} (${user.email || 'No email'})`. */
  function UserEntry(u: UserRow): string {
    OrElse(u.fullName, Rendered(u.name)) + " (" + OrElse(u.email, "No email") + ")"
  }

  /** The entries joined with ", ". */
  function UserList(users: seq<UserRow>): string {
    if users == [] then ""
    else if |users| == 1 then UserEntry(users[0])
    else UserList(users[..|users| - 1]) + ", " + UserEntry(users[|users| - 1])
  }

  function Quoted(s: string): string { "\"" + s + "\"" }

  // Long literals are written as concatenated pieces, which keeps the
  // verifier's work on them small.
  const NoConnectionSentence := "No valid ERPNext " + "connection found. " + "Please configure " + "your connection " + "in settings."

  function Sentence(n: Note): string {
    match n
    case InStock(item, total) =>
      "Product " + Rendered(item) + " has " + IntToString(total) + " units in stock."
    case NoBinInfo(item) =>
      "Product " + Rendered(item) + " found but no " + "inventory " + "information " + "available."
    case BinsFailed(p, reason) => "Error retrieving " + "inventory for " + p + ": " + reason
    case NoProducts(p) => "No products found " + "matching " + Quoted(p) + "."
    case OpenOrders(count, first) =>
      "Found " + NatToString(count) + Commands.OrdersSentenceMiddle + Rendered(first.name)
      + " for customer " + Rendered(first.customer) + "."
    case NoOpenOrders => "No open orders " + "found."
    case OrdersFailed(reason) => "Error retrieving " + "orders: " + reason
    case Users(list) => "Found " + NatToString(|list|) + " users: " + UserList(list)
    case NoUsers => "No users found."
    case UsersFailed(reason) => "Error retrieving " + "user list: " + reason
    case OtherErp(input) => "Processing ERP " + "command: " + Quoted(input)
    case NoConnection => NoConnectionSentence
    case NotErp(input) => "Processed command: " + Quoted(input)
  }

  /** `message || 'Unknown error'`. */
  function Reason(message: Option<string>): string { OrElse(message, "Unknown error") }

  /** The bins part of the stock branch, for the first item found. */
  function StockOfItem(product: string, item: ItemRow, b: Backend): Ending {
    match b.bins(item.name)
    case Thrown(m) => Failed(m)
    case Got(r) =>
      if !r.success then Shown(BinsFailed(product, Reason(r.message)))
      else
        var bins := if r.data.Some? then r.data.value else [];
        if |bins| > 0 then Shown(InStock(item.itemName, SumQty(bins))) else Shown(NoBinInfo(item.itemName))
  }

  /** The stock branch. */
  function StockReply(product: string, b: Backend): Ending {
    match b.items(product)
    case Thrown(m) => Failed(m)
    case Got(r) =>
      if r.success && r.data.Some? && |r.data.value| > 0 then StockOfItem(product, r.data.value[0], b)
      else Shown(NoProducts(product))
  }

  function OrdersReply(b: Backend): Ending {
    match b.orders
    case Thrown(m) => Failed(m)
    case Got(r) =>
      if r.success && r.data.Some? then
        if |r.data.value| > 0 then Shown(OpenOrders(|r.data.value|, r.data.value[0])) else Shown(NoOpenOrders)
      else Shown(OrdersFailed(Reason(r.message)))
  }

  /** The user-list branch catches its own errors. */
  function UsersReply(b: Backend): Note {
    match b.users
    case Thrown(m) => UsersFailed(m)
    case Got(r) =>
      if r.success && r.data.Some? then
        if |r.data.value| > 0 then Users(r.data.value) else NoUsers
      else UsersFailed(Reason(r.message))
  }

  /** How a non-blank command ends, given the server's replies. */
  function Respond(input: string, b: Backend): Ending {
    var lower := ToLower(input);
    if !ErpRouted(lower) then Shown(NotErp(input))
    else match b.connection
      case Thrown(m) => Failed(m)
      case Got(c) =>
        if c.None? || c.value.url == "" then Shown(NoConnection)
        else match BranchOf(lower)
          case StockBranch => StockReply(ProductName(lower), b)
          case OrdersBranch => OrdersReply(b)
          case UsersBranch => Shown(UsersReply(b))
          case OtherErpBranch => Shown(OtherErp(input))
  }

  /** The text shown when processing throws. */
  function FailureText(message: string): string { "Error processing " + "command: " + message }

  /** The text shown at the end of processing. */
  function Display(e: Ending): string {
    match e
    case Shown(n) => Sentence(n)
    case Failed(m) => FailureText(m)
  }

  // ---------------------------------------------------------------------------
  // The success record

  /** The panel's fixed user. */
  const PanelUser := 1

  /** The success record as the panel posts it: the `result` it sends is the
      value its closure captured when processing began, not the new text. */
  function SuccessRecordAsWritten(input: string, resultAtStart: string): InsertCommand {
    SettledRecord(PanelUser, input, resultAtStart, true)
  }

  /** The success record with the text the panel has just shown. */
  function SuccessRecord(input: string, shown: string): (r: InsertCommand)
    ensures r.response == Some(shown) && r.command == input && r.status == Some("success")
  {
    SettledRecord(PanelUser, input, shown, true)
  }

  /** On a fresh panel the first command is recorded with an empty response,
      although a sentence was shown for it. */
  lemma StaleResultRecorded(input: string, b: Backend)
    requires !IsBlank(input) && Respond(input, b).Shown?
    ensures SuccessRecordAsWritten(input, "").response == Some("")
    ensures Display(Respond(input, b)) != ""
    ensures SuccessRecordAsWritten(input, "")
            != SuccessRecord(input, Display(Respond(input, b)))
  {
    var n := Respond(input, b).note;
    assert Sentence(n) != "" by {
      match n
      case InStock(_, _) => assert Sentence(n)[0] == 'P';
      case NoBinInfo(_) => assert Sentence(n)[0] == 'P';
      case BinsFailed(_, _) => assert Sentence(n)[0] == 'E';
      case NoProducts(_) => assert Sentence(n)[0] == 'N';
      case OpenOrders(_, _) => assert Sentence(n)[0] == 'F';
      case NoOpenOrders => assert Sentence(n)[0] == 'N';
      case OrdersFailed(_) => assert Sentence(n)[0] == 'E';
      case Users(_) => assert Sentence(n)[0] == 'F';
      case NoUsers => assert Sentence(n)[0] == 'N';
      case UsersFailed(_) => assert Sentence(n)[0] == 'E';
      case OtherErp(_) => assert Sentence(n)[0] == 'P';
      case NoConnection => assert Sentence(n)[0] == 'N';
      case NotErp(_) => assert Sentence(n)[0] == 'P';
    }
  }

  // ---------------------------------------------------------------------------
  // The panel

  class Panel {
    var inputText: string
    var isRecording: bool
    var result: string
    var isProcessing: bool
    var posted: seq<InsertCommand>

    constructor()
      ensures inputText == "" && !isRecording && result == "" && !isProcessing && posted == []
    {
      inputText := "";
      isRecording := false;
      result := "";
      isProcessing := false;
      posted := [];
    }

    method SetInput(text: string)
      modifies this
      ensures inputText == text
      ensures isRecording == old(isRecording) && result == old(result)
      ensures isProcessing == old(isProcessing) && posted == old(posted)
    {
      inputText := text;
    }

    /** `startRecording`. */
    method StartRecording()
      modifies this
      ensures isRecording && result == ""
      ensures inputText == old(inputText) && isProcessing == old(isProcessing) && posted == old(posted)
    {
      isRecording := true;
      result := "";
    }

    /** `stopRecording`. */
    method StopRecording()
      modifies this
      ensures !isRecording
      ensures inputText == old(inputText) && result == old(result)
      ensures isProcessing == old(isProcessing) && posted == old(posted)
    {
      isRecording := false;
    }

    /** The stock branch with the bins summed by the loop. */
    static method Stock(product: string, b: Backend) returns (e: Ending)
      ensures e == StockReply(product, b)
    {
      match b.items(product) {
        case Thrown(m) => e := Failed(m);
        case Got(r) =>
          if r.success && r.data.Some? && |r.data.value| > 0 {
            var item := r.data.value[0];
            match b.bins(item.name) {
              case Thrown(m) => e := Failed(m);
              case Got(br) =>
                if !br.success {
                  e := Shown(BinsFailed(product, Reason(br.message)));
                } else {
                  var bins := if br.data.Some? then br.data.value else [];
                  if |bins| > 0 {
                    var total := TotalQuantity(bins);
                    e := Shown(InStock(item.itemName, total));
                  } else {
                    e := Shown(NoBinInfo(item.itemName));
                  }
                }
            }
          } else {
            e := Shown(NoProducts(product));
          }
      }
    }

    /** The routing of a non-blank command: the ERP test, the connection
        check and the branch taken, each awaiting the server in turn. */
    static method Route(input: string, b: Backend) returns (e: Ending)
      ensures e == Respond(input, b)
    {
      var lower := ToLower(input);
      if !ErpRouted(lower) {
        e := Shown(NotErp(input));
      } else {
        match b.connection {
          case Thrown(m) => e := Failed(m);
          case Got(c) =>
            if c.None? || c.value.url == "" {
              e := Shown(NoConnection);
            } else {
              match BranchOf(lower) {
                case StockBranch => e := Stock(ProductName(lower), b);
                case OrdersBranch => e := OrdersReply(b);
                case UsersBranch => e := Shown(UsersReply(b));
                case OtherErpBranch => e := Shown(OtherErp(input));
              }
            }
        }
      }
    }

    /** `processCommand` as the panel runs it: a blank input does nothing;
        otherwise a pending record, the routed answer shown, and a success
        record whose response is the `result` captured when the click began,
        or on a thrown error the failure shown and an error record. */
    method ProcessCommand(b: Backend)
      modifies this
      ensures IsBlank(old(inputText)) ==>
                result == old(result) && posted == old(posted) && isProcessing == old(isProcessing)
      ensures !IsBlank(old(inputText)) ==>
                var e := Respond(old(inputText), b);
                && result == Display(e) && !isProcessing
                && posted == old(posted)
                   + [PendingRecord(PanelUser, old(inputText)),
                      if e.Shown? then SuccessRecordAsWritten(old(inputText), old(result))
                      else SettledRecord(PanelUser, old(inputText), "Error: " + e.message, false)]
      ensures inputText == old(inputText) && isRecording == old(isRecording)
    {
      if Trim(inputText) == "" {
        return;
      }
      var captured := result;
      isProcessing := true;
      result := "";
      posted := posted + [PendingRecord(PanelUser, inputText)];
      var e := Route(inputText, b);
      match e {
        case Shown(n) =>
          result := Sentence(n);
          posted := posted + [SuccessRecordAsWritten(inputText, captured)];
          isProcessing := false;
        case Failed(m) =>
          result := FailureText(m);
          isProcessing := false;
          posted := posted + [SettledRecord(PanelUser, inputText, "Error: " + m, false)];
      }
    }

    /** `processCommand` as evidently intended: the same, except that the
        success record carries the text just shown. */
    method ProcessCommandIntended(b: Backend)
      modifies this
      ensures IsBlank(old(inputText)) ==>
                result == old(result) && posted == old(posted) && isProcessing == old(isProcessing)
      ensures !IsBlank(old(inputText)) ==>
                var e := Respond(old(inputText), b);
                && result == Display(e) && !isProcessing
                && posted == old(posted)
                   + [PendingRecord(PanelUser, old(inputText)),
                      if e.Shown? then SuccessRecord(old(inputText), Display(e))
                      else SettledRecord(PanelUser, old(inputText), "Error: " + e.message, false)]
      ensures inputText == old(inputText) && isRecording == old(isRecording)
    {
      if Trim(inputText) == "" {
        return;
      }
      isProcessing := true;
      result := "";
      posted := posted + [PendingRecord(PanelUser, inputText)];
      var e := Route(inputText, b);
      match e {
        case Shown(n) =>
          result := Sentence(n);
          posted := posted + [SuccessRecord(inputText, result)];
          isProcessing := false;
        case Failed(m) =>
          result := FailureText(m);
          isProcessing := false;
          posted := posted + [SettledRecord(PanelUser, inputText, "Error: " + m, false)];
      }
    }
  }

  // ---------------------------------------------------------------------------
  // Properties of the routing

  /** A command with none of the ERP words is echoed back. */
  lemma NonErpEchoed(input: string, b: Backend)
    requires !ErpRouted(ToLower(input))
    ensures Respond(input, b) == Shown(NotErp(input))
    ensures Display(Respond(input, b)) == "Processed command: " + "\"" + input + "\""
  {
  }

  /** A connection without a url stops every ERP command. */
  lemma UrlRequired(input: string, b: Backend, c: ErpConnection)
    requires ErpRouted(ToLower(input))
    requires b.connection == Got(Some(c)) && c.url == ""
    ensures Respond(input, b) == Shown(NoConnection)
  {
  }

  /** With no open orders the orders branch says exactly so; otherwise it
      counts them and names the first. */
  lemma OrdersSentences(b: Backend, r: QueryResult<Commands.OrderRow>)
    requires b.orders == Got(r) && r.success && r.data.Some?
    ensures r.data.value == [] ==> Display(OrdersReply(b)) == "No open orders found."
    ensures r.data.value != [] ==>
              OrdersReply(b) == Shown(OpenOrders(|r.data.value|, r.data.value[0]))
  {
  }

  /** The stock sentence reports the sum over all bins of the first item. */
  lemma StockIsSumOverBins(product: string, b: Backend, item: ItemRow, items: QueryResult<ItemRow>,
                           bins: seq<BinRow>)
    requires b.items(product) == Got(items) && items.success && items.data.Some?
    requires |items.data.value| > 0 && items.data.value[0] == item
    requires b.bins(item.name) == Got(QueryResult(true, None, Some(bins))) && |bins| > 0
    ensures StockReply(product, b) == Shown(InStock(item.itemName, SumQty(bins)))
  {
  }
}
