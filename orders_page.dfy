/**
 * The order board: the linear fulfilment flow, the four tabs with their
 * counters, the searchable order list and the buttons each order card offers.
 * The page only computes the status change it asks the store for; the store's
 * `updateOrderStatus` (module AppContext) applies it.
 */
module OrdersPage {
  import opened Types
  import opened Lists
  import opened Text
  import AppContext

  const StatusFlow: seq<OrderStatus> := [New, Accepted, Packed, Picked, Delivered]

  /** The reasons the reject dialog offers. */
  const RejectReasons: seq<string> := ["Items unavailable", "Mart closing soon", "Delivery range issue", "Other"]

  /** A call the page makes to `updateOrderStatus(orderId, status, reason)`. */
  datatype StatusRequest = StatusRequest(orderId: string, status: OrderStatus, reason: Option<string>)

  datatype Tab = NewTab | OngoingTab | CompletedTab | CancelledTab

  datatype TabCounts = TabCounts(newCount: nat, ongoing: nat, completed: nat, cancelled: nat)

  /** The buttons an order card shows. */
  datatype CardAction = AcceptOrReject | AdvanceStep | Processed

  // ---------------------------------------------------------------------------
  // Status flow

  /** `xs.indexOf(x)`: the first position of `x`, or -1. */
  function IndexOf(xs: seq<OrderStatus>, x: OrderStatus): (k: int)
    ensures -1 <= k < |xs|
    ensures k == -1 <==> x !in xs
    ensures k >= 0 ==> xs[k] == x && x !in xs[..k]
  {
    if xs == [] then -1
    else if xs[0] == x then 0
    else
      var k := IndexOf(xs[1..], x);
      if k == -1 then -1
      else
        assert xs[..k + 1] == [xs[0]] + xs[1..][..k];
        k + 1
  }

  /** The first occurrence is the position `indexOf` reports. */
  lemma {:induction false} IndexOfFirst(xs: seq<OrderStatus>, x: OrderStatus, k: nat)
    requires k < |xs| && xs[k] == x
    requires forall j :: 0 <= j < k ==> xs[j] != x
    ensures IndexOf(xs, x) == k
  {
    if k > 0 {
      assert xs[0] != x;
      IndexOfFirst(xs[1..], x, k - 1);
    }
  }

  /** Where each status of the flow stands in it. */
  lemma FlowPositions()
    ensures IndexOf(StatusFlow, New) == 0 && IndexOf(StatusFlow, Accepted) == 1
    ensures IndexOf(StatusFlow, Packed) == 2 && IndexOf(StatusFlow, Picked) == 3
    ensures IndexOf(StatusFlow, Delivered) == 4
  {
    assert StatusFlow[0] == New && StatusFlow[1] == Accepted && StatusFlow[2] == Packed;
    assert StatusFlow[3] == Picked && StatusFlow[4] == Delivered;
    IndexOfFirst(StatusFlow, New, 0);
    IndexOfFirst(StatusFlow, Accepted, 1);
    IndexOfFirst(StatusFlow, Packed, 2);
    IndexOfFirst(StatusFlow, Picked, 3);
    IndexOfFirst(StatusFlow, Delivered, 4);
  }

  /** The two cancelled statuses are outside the flow. */
  lemma OutsideFlow()
    ensures IndexOf(StatusFlow, Cancelled) == -1 && IndexOf(StatusFlow, Rejected) == -1
  {
  }

  /** The position of a status in the flow, -1 for the statuses outside it. */
  function FlowIndex(status: OrderStatus): int {
    match status
    case New => 0
    case Accepted => 1
    case Packed => 2
    case Picked => 3
    case Delivered => 4
    case Cancelled | Rejected => -1
  }

  /** `FlowIndex` is `STATUS_FLOW.indexOf`. */
  lemma FlowIndexIsIndexOf(status: OrderStatus)
    ensures FlowIndex(status) == IndexOf(StatusFlow, status)
  {
    FlowPositions();
    OutsideFlow();
  }

  function HandleNextStatus(order: Order): (r: Option<StatusRequest>)
    // one step forward along the flow, for this order, with no reason
    ensures r.Some? ==> && r.value.orderId == order.id && r.value.reason.None?
                        && FlowIndex(r.value.status) == FlowIndex(order.status) + 1
    // no request for the last step, nor for statuses outside the flow
    ensures r.None? <==> order.status == Delivered || IsCancelledStatus(order.status)
  {
    var currentIndex := FlowIndex(order.status);
    if currentIndex != -1 && currentIndex < |StatusFlow| - 1
    then Some(StatusRequest(order.id, StatusFlow[currentIndex + 1], None))
    else None
  }

  /** The flow, step by step. */
  lemma NextStatusTable(order: Order)
    ensures order.status == New ==> HandleNextStatus(order) == Some(StatusRequest(order.id, Accepted, None))
    ensures order.status == Accepted ==> HandleNextStatus(order) == Some(StatusRequest(order.id, Packed, None))
    ensures order.status == Packed ==> HandleNextStatus(order) == Some(StatusRequest(order.id, Picked, None))
    ensures order.status == Picked ==> HandleNextStatus(order) == Some(StatusRequest(order.id, Delivered, None))
  {
  }

  /**
   * Advancing an order along the flow never moves stock, provided the card's
   * order is the first order with its id (the one `updateOrderStatus` finds).
   */
  lemma AdvanceKeepsStock(s: AppContext.StoreData, order: Order, now: Timestamp)
    requires FindOrder(s.orders, order.id) == Some(order)
    requires HandleNextStatus(order).Some?
    ensures var req := HandleNextStatus(order).value;
      AppContext.StatusUpdate(s, req.orderId, req.status, req.reason, now).products == s.products
  {
  }

  /**
   * Generated order ids are not unique, and the store takes the stock effect
   * from the first order with the id while it sets the status of every order
   * with that id. Advancing an Accepted card that sits behind a Cancelled
   * order with the same id re-deducts the cancelled order's items and moves
   * both orders to Packed.
   */
  lemma AdvanceBehindSharedId(p: Product, first: Order, card: Order, now: Timestamp)
    requires first.id == card.id && first.status == Cancelled && card.status == Accepted
    requires first.items == [OrderItem(p.id, p.name, 2, p.price)] && p.quantity == 5
    ensures HandleNextStatus(card).Some?
    ensures var req := HandleNextStatus(card).value;
      var t := AppContext.StatusUpdate(AppContext.StoreData([p], [first, card]), req.orderId, req.status, req.reason, now);
      && t.products[0].quantity == 3
      && t.orders[0].status == Packed && t.orders[1].status == Packed
  {
  }

  // ---------------------------------------------------------------------------
  // Tabs

  predicate InTab(tab: Tab, status: OrderStatus) {
    match tab
    case NewTab => status == New
    case OngoingTab => status in [Accepted, Packed, Picked]
    case CompletedTab => status == Delivered
    case CancelledTab => status == Cancelled || status == Rejected
  }

  /** The tab an order status is listed under. */
  function TabOf(status: OrderStatus): (tab: Tab)
    ensures forall t: Tab :: InTab(t, status) <==> t == tab
  {
    match status
    case New => NewTab
    case Accepted | Packed | Picked => OngoingTab
    case Delivered => CompletedTab
    case Cancelled | Rejected => CancelledTab
  }

  function CountInTab(orders: seq<Order>, tab: Tab): (n: nat)
    ensures n <= |orders|
  {
    if orders == [] then 0
    else (if InTab(tab, orders[0].status) then 1 else 0) + CountInTab(orders[1..], tab)
  }

  function Stats(orders: seq<Order>): TabCounts {
    TabCounts(CountInTab(orders, NewTab), CountInTab(orders, OngoingTab),
              CountInTab(orders, CompletedTab), CountInTab(orders, CancelledTab))
  }

  /** The four counters partition the orders. */
  lemma {:induction false} TabCountsPartition(orders: seq<Order>)
    ensures var st := Stats(orders);
      st.newCount + st.ongoing + st.completed + st.cancelled == |orders|
  {
    if orders != [] {
      TabCountsPartition(orders[1..]);
      var t := TabOf(orders[0].status);
    }
  }

  // ---------------------------------------------------------------------------
  // Search

  predicate MatchesSearch(o: Order, searchTerm: string) {
    MatchesTerm(o.id, searchTerm) || MatchesTerm(o.customerName, searchTerm)
  }

  function FilteredOrders(orders: seq<Order>, searchTerm: string, tab: Tab): (r: seq<Order>)
    ensures forall o :: o in r <==> o in orders && MatchesSearch(o, searchTerm) && InTab(tab, o.status)
    ensures IsSubsequence(r, orders)
    // every copy of a matching order is kept
    ensures forall o :: multiset(r)[o] == if MatchesSearch(o, searchTerm) && InTab(tab, o.status)
                                           then multiset(orders)[o] else 0
  {
    if orders == [] then []
    else
      var rest := FilteredOrders(orders[1..], searchTerm, tab);
      assert orders == [orders[0]] + orders[1..];
      if MatchesSearch(orders[0], searchTerm) && InTab(tab, orders[0].status) then [orders[0]] + rest else rest
  }

  /** With an empty search box the list shows exactly as many orders as the tab's counter. */
  lemma {:induction false} EmptySearchShowsWholeTab(orders: seq<Order>, tab: Tab)
    ensures |FilteredOrders(orders, "", tab)| == CountInTab(orders, tab)
  {
    if orders != [] {
      EmptyTermMatches(orders[0].id);
      EmptySearchShowsWholeTab(orders[1..], tab);
    }
  }

  // ---------------------------------------------------------------------------
  // Card actions

  function CardActions(o: Order): CardAction {
    if o.status == New then AcceptOrReject
    else if o.status in [Accepted, Packed, Picked] then AdvanceStep
    else Processed
  }

  /** The accept button of a New order. */
  function AcceptRequest(o: Order): (r: Option<StatusRequest>)
    ensures r.Some? <==> o.status == New
    ensures r.Some? ==> r.value == StatusRequest(o.id, Accepted, None)
  {
    if CardActions(o) == AcceptOrReject then Some(StatusRequest(o.id, Accepted, None)) else None
  }

  /** Picking reason number `choice` in the reject dialog, which only a New order's card opens. */
  function RejectRequest(o: Order, choice: nat): (r: Option<StatusRequest>)
    requires choice < |RejectReasons|
    ensures r.Some? <==> o.status == New
    ensures r.Some? ==> && r.value.orderId == o.id && r.value.status == Rejected
                        && r.value.reason.Some? && r.value.reason.value in RejectReasons
  {
    if CardActions(o) == AcceptOrReject then Some(StatusRequest(o.id, Rejected, Some(RejectReasons[choice]))) else None
  }

  /** The advance button always has a next status to ask for. */
  lemma AdvanceButtonHasNextStep(o: Order)
    requires CardActions(o) == AdvanceStep
    ensures HandleNextStatus(o).Some?
  {
  }

  /**
   * Rejecting a New order puts its items back in stock and records the chosen
   * reason, provided the order is the first order with its id.
   */
  lemma RejectRestocks(s: AppContext.StoreData, o: Order, choice: nat, now: Timestamp)
    requires choice < |RejectReasons|
    requires FindOrder(s.orders, o.id) == Some(o) && o.status == New
    ensures var req := RejectRequest(o, choice).value;
      var t := AppContext.StatusUpdate(s, req.orderId, req.status, req.reason, now);
      && t.products == AppContext.RestockItems(s.products, o.items, now)
      && forall i :: 0 <= i < |t.orders| && s.orders[i].id == o.id ==>
           t.orders[i].status == Rejected && t.orders[i].cancellationReason == Some(RejectReasons[choice])
  {
  }

  /**
   * Behind a Cancelled order with the same id, rejecting a New order restocks
   * nothing: the store sees a move between two cancelled statuses.
   */
  lemma RejectBehindSharedId(products: seq<Product>, first: Order, card: Order, choice: nat, now: Timestamp)
    requires choice < |RejectReasons|
    requires first.id == card.id && first.status == Cancelled && card.status == New
    ensures RejectRequest(card, choice).Some?
    ensures var req := RejectRequest(card, choice).value;
      var t := AppContext.StatusUpdate(AppContext.StoreData(products, [first, card]), req.orderId, req.status, req.reason, now);
      && t.products == products
      && t.orders[1].status == Rejected
  {
  }
}
