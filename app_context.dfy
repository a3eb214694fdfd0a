/**
 * The app store behind the dashboard: the product catalog, the order list
 * and the notification buffer, and the operations that replace them.
 * Each operation's new value is a pure function of the old one (the
 * functions below); the class `AppStore` holds the three lists and its
 * methods assign them.
 */
module AppContext {
  import opened Types
  import opened Lists
  import InventoryManager

  /** The notification buffer keeps the newest ten entries. */
  const MaxNotifications: nat := 10

  /** An order as the caller hands it to `createOrder`: everything but id, date and status. */
  datatype OrderDraft = OrderDraft(
    customerName: string,
    customerPhone: string,
    customerAddress: string,
    total: int,
    paymentType: PaymentType,
    items: seq<OrderItem>,
    cancellationReason: Option<string>,
    isUrgent: Option<bool>)

  /** The stock side effect of a status change. */
  datatype StockEffect = Restock | Deduct | NoStockEffect

  /** The date-independent dashboard counters. */
  datatype StoreStats = StoreStats(stockCount: int, pendingOrders: nat, unreadNotifications: nat)

  /** The two lists an order status change touches. */
  datatype StoreData = StoreData(products: seq<Product>, orders: seq<Order>)

  // ---------------------------------------------------------------------------
  // Products

  /** The catalog entry `addProduct` appends: a missing id is generated, and the product starts available. */
  function NewCatalogEntry(product: Product, generatedId: string, now: Timestamp): (p: Product)
    ensures p.id == (if product.id == "" then generatedId else product.id)
    ensures p.isAvailable && p.lastUpdated == now
    ensures p == product.(id := p.id, isAvailable := true, lastUpdated := now)
  {
    product.(id := if product.id == "" then generatedId else product.id, isAvailable := true, lastUpdated := now)
  }

  /** `updateProduct`: every product with the updated id is replaced by the new record, stamped `now`. */
  function ReplaceProduct(products: seq<Product>, updated: Product, now: Timestamp): (r: seq<Product>)
    ensures |r| == |products|
    ensures forall i :: 0 <= i < |r| ==> r[i].id == products[i].id
    ensures forall i :: 0 <= i < |r| && products[i].id == updated.id ==> r[i] == updated.(lastUpdated := now)
    ensures forall i :: 0 <= i < |r| && products[i].id != updated.id ==> r[i] == products[i]
  {
    seq(|products|, i requires 0 <= i < |products| =>
      if products[i].id == updated.id then updated.(lastUpdated := now) else products[i])
  }

  /** `updateStock`: the quantity is taken as given, without clamping and without any status change. */
  function SetStock(products: seq<Product>, id: string, newQuantity: int, now: Timestamp): (r: seq<Product>)
    ensures |r| == |products|
    ensures forall i :: 0 <= i < |r| && products[i].id == id ==>
      r[i] == products[i].(quantity := newQuantity, lastUpdated := now)
    ensures forall i :: 0 <= i < |r| && products[i].id != id ==> r[i] == products[i]
  {
    seq(|products|, i requires 0 <= i < |products| =>
      if products[i].id == id then products[i].(quantity := newQuantity, lastUpdated := now) else products[i])
  }

  /** `deleteProduct`: `products.filter(p => p.id !== id)`. */
  function RemoveProduct(products: seq<Product>, id: string): (r: seq<Product>)
    ensures forall p :: p in r <==> p in products && p.id != id
    ensures IsSubsequence(r, products)
    ensures |r| == |products| - CountWithId(products, id)
  {
    if products == [] then []
    else if products[0].id != id then [products[0]] + RemoveProduct(products[1..], id)
    else RemoveProduct(products[1..], id)
  }

  function CountWithId(products: seq<Product>, id: string): nat {
    if products == [] then 0
    else (if products[0].id == id then 1 else 0) + CountWithId(products[1..], id)
  }

  /**
   * `toggleProductAvailability`: the matching products flip `isAvailable`;
   * switching one off records `reason`, switching one on clears it.
   */
  function ToggleAvailability(products: seq<Product>, id: string, reason: Option<string>, now: Timestamp): (r: seq<Product>)
    ensures |r| == |products|
    ensures forall i :: 0 <= i < |r| && products[i].id == id ==>
      && r[i].isAvailable == !products[i].isAvailable
      && r[i].statusReason == (if products[i].isAvailable then reason else None)
      && r[i] == products[i].(isAvailable := r[i].isAvailable, statusReason := r[i].statusReason, lastUpdated := now)
    ensures forall i :: 0 <= i < |r| && products[i].id != id ==> r[i] == products[i]
  {
    seq(|products|, i requires 0 <= i < |products| =>
      if products[i].id == id then
        products[i].(isAvailable := !products[i].isAvailable,
                     statusReason := if !products[i].isAvailable then None else reason,
                     lastUpdated := now)
      else products[i])
  }

  /** Toggling twice restores availability and leaves a switched-on product without a reason. */
  lemma ToggleTwice(products: seq<Product>, id: string, reason1: Option<string>, reason2: Option<string>,
                    now1: Timestamp, now2: Timestamp)
    ensures var r := ToggleAvailability(ToggleAvailability(products, id, reason1, now1), id, reason2, now2);
      && |r| == |products|
      && forall i :: 0 <= i < |r| ==>
           && r[i].isAvailable == products[i].isAvailable
           && (products[i].id == id && products[i].isAvailable ==> r[i].statusReason == None)
           && (products[i].id == id && !products[i].isAvailable ==> r[i].statusReason == reason2)
  {
  }

  /** The stock deduction of `createOrder` and of a reactivation: first matching item, clamped at zero. */
  function DeductItems(products: seq<Product>, items: seq<OrderItem>, now: Timestamp): (r: seq<Product>)
    ensures |r| == |products|
    ensures forall i :: 0 <= i < |r| ==> r[i].id == products[i].id
    ensures forall i :: 0 <= i < |r| && FindItem(items, products[i].id).None? ==> r[i] == products[i]
    ensures forall i :: 0 <= i < |r| && FindItem(items, products[i].id).Some? ==>
      r[i] == products[i].(quantity := Max0(products[i].quantity - FindItem(items, products[i].id).value.quantity),
                           lastUpdated := now)
    ensures forall i :: 0 <= i < |r| && products[i].quantity >= 0 ==> 0 <= r[i].quantity
  {
    seq(|products|, i requires 0 <= i < |products| =>
      match FindItem(items, products[i].id)
      case Some(item) => products[i].(quantity := Max0(products[i].quantity - item.quantity), lastUpdated := now)
      case None => products[i])
  }

  /** The stock restoration of a cancellation: first matching item, added back in full. */
  function RestockItems(products: seq<Product>, items: seq<OrderItem>, now: Timestamp): (r: seq<Product>)
    ensures |r| == |products|
    ensures forall i :: 0 <= i < |r| ==> r[i].id == products[i].id
    ensures forall i :: 0 <= i < |r| && FindItem(items, products[i].id).None? ==> r[i] == products[i]
    ensures forall i :: 0 <= i < |r| && FindItem(items, products[i].id).Some? ==>
      r[i] == products[i].(quantity := products[i].quantity + FindItem(items, products[i].id).value.quantity,
                           lastUpdated := now)
  {
    seq(|products|, i requires 0 <= i < |products| =>
      match FindItem(items, products[i].id)
      case Some(item) => products[i].(quantity := products[i].quantity + item.quantity, lastUpdated := now)
      case None => products[i])
  }

  // ---------------------------------------------------------------------------
  // Orders

  /** The order `createOrder` prepends. */
  function NewOrder(draft: OrderDraft, id: string, now: Timestamp): (o: Order)
    ensures o.id == id && o.date == now && o.status == New
    ensures o.items == draft.items && o.total == draft.total && o.paymentType == draft.paymentType
    ensures o.customerName == draft.customerName && o.customerPhone == draft.customerPhone
    ensures o.customerAddress == draft.customerAddress
    ensures o.cancellationReason == draft.cancellationReason && o.isUrgent == draft.isUrgent
  {
    Order(id, draft.customerName, draft.customerPhone, draft.customerAddress, now, draft.total, New,
          draft.paymentType, draft.items, draft.cancellationReason, draft.isUrgent)
  }

  function ClassifyTransition(from: OrderStatus, to: OrderStatus): (e: StockEffect)
    ensures e == Restock <==> !IsCancelledStatus(from) && IsCancelledStatus(to)
    ensures e == Deduct <==> IsCancelledStatus(from) && !IsCancelledStatus(to)
    ensures e == NoStockEffect <==> (IsCancelledStatus(from) <==> IsCancelledStatus(to))
  {
    var isActuallyCancelled := IsCancelledStatus(to) && !IsCancelledStatus(from);
    var wasCancelledBefore := IsCancelledStatus(from) && !IsCancelledStatus(to);
    if isActuallyCancelled then Restock
    else if wasCancelledBefore then Deduct
    else NoStockEffect
  }

  function ApplyStockEffect(products: seq<Product>, effect: StockEffect, items: seq<OrderItem>, now: Timestamp): seq<Product>
  {
    match effect
    case Restock => RestockItems(products, items, now)
    case Deduct => DeductItems(products, items, now)
    case NoStockEffect => products
  }

  /** `reason || o.cancellationReason`: an absent or empty reason keeps the old one. */
  function KeepReason(reason: Option<string>, current: Option<string>): (r: Option<string>)
    ensures reason.Some? && reason.value != "" ==> r == reason
    ensures reason.None? || reason.value == "" ==> r == current
  {
    if reason.Some? && reason.value != "" then reason else current
  }

  /** Every order with the id gets the new status and, when one is given, the new reason. */
  function SetOrderStatus(orders: seq<Order>, id: string, status: OrderStatus, reason: Option<string>): (r: seq<Order>)
    ensures |r| == |orders|
    ensures forall i :: 0 <= i < |r| && orders[i].id == id ==>
      r[i] == orders[i].(status := status, cancellationReason := KeepReason(reason, orders[i].cancellationReason))
    ensures forall i :: 0 <= i < |r| && orders[i].id != id ==> r[i] == orders[i]
  {
    seq(|orders|, i requires 0 <= i < |orders| =>
      if orders[i].id == id
      then orders[i].(status := status, cancellationReason := KeepReason(reason, orders[i].cancellationReason))
      else orders[i])
  }

  /** The whole effect of `updateOrderStatus` on products and orders. */
  function StatusUpdate(s: StoreData, id: string, status: OrderStatus, reason: Option<string>, now: Timestamp): StoreData
  {
    match FindOrder(s.orders, id)
    case None => s
    case Some(order) =>
      StoreData(ApplyStockEffect(s.products, ClassifyTransition(order.status, status), order.items, now),
                SetOrderStatus(s.orders, id, status, reason))
  }

  /** After a status update, the first order with the id is the old one with its new status and reason. */
  lemma {:induction false} FindAfterSetStatus(orders: seq<Order>, id: string, status: OrderStatus, reason: Option<string>)
    ensures FindOrder(SetOrderStatus(orders, id, status, reason), id) ==
      match FindOrder(orders, id)
      case None => None
      case Some(o) => Some(o.(status := status, cancellationReason := KeepReason(reason, o.cancellationReason)))
  {
    if orders != [] {
      var r := SetOrderStatus(orders, id, status, reason);
      assert r[1..] == SetOrderStatus(orders[1..], id, status, reason);
      if orders[0].id != id {
        FindAfterSetStatus(orders[1..], id, status, reason);
      }
    }
  }

  /**
   * An unknown id changes nothing; otherwise only the status and reason of
   * the matching orders change, and products move as the transition says.
   */
  lemma StatusUpdateFrame(s: StoreData, id: string, status: OrderStatus, reason: Option<string>, now: Timestamp)
    ensures FindOrder(s.orders, id).None? ==> StatusUpdate(s, id, status, reason, now) == s
    ensures var t := StatusUpdate(s, id, status, reason, now);
      && |t.orders| == |s.orders|
      && (forall i :: 0 <= i < |t.orders| ==>
            t.orders[i].items == s.orders[i].items && t.orders[i].id == s.orders[i].id
            && (s.orders[i].id != id ==> t.orders[i] == s.orders[i]))
      && (forall i :: 0 <= i < |t.orders| && s.orders[i].id == id ==> t.orders[i].status == status)
  {
  }

  /** Cancelling or rejecting an order that is already cancelled or rejected never touches stock. */
  lemma {:induction false} RepeatedCancelKeepsStock(s: StoreData, id: string, first: OrderStatus, second: OrderStatus,
                                                    reason1: Option<string>, reason2: Option<string>,
                                                    now1: Timestamp, now2: Timestamp)
    requires IsCancelledStatus(first) && IsCancelledStatus(second)
    ensures var s1 := StatusUpdate(s, id, first, reason1, now1);
      StatusUpdate(s1, id, second, reason2, now2).products == s1.products
  {
    var s1 := StatusUpdate(s, id, first, reason1, now1);
    FindAfterSetStatus(s.orders, id, first, reason1);
  }

  /** Cancelling and then reactivating an order gives every product of non-negative stock its quantity back. */
  lemma {:induction false} CancelThenReactivate(s: StoreData, id: string, cancel: OrderStatus, resume: OrderStatus,
                                                reason: Option<string>, now1: Timestamp, now2: Timestamp)
    requires IsCancelledStatus(cancel) && !IsCancelledStatus(resume)
    requires FindOrder(s.orders, id).Some? && !IsCancelledStatus(FindOrder(s.orders, id).value.status)
    requires forall i :: 0 <= i < |s.products| ==> s.products[i].quantity >= 0
    ensures var s2 := StatusUpdate(StatusUpdate(s, id, cancel, reason, now1), id, resume, None, now2);
      && |s2.products| == |s.products|
      && forall i :: 0 <= i < |s.products| ==> s2.products[i].quantity == s.products[i].quantity
  {
    var order := FindOrder(s.orders, id).value;
    var s1 := StatusUpdate(s, id, cancel, reason, now1);
    FindAfterSetStatus(s.orders, id, cancel, reason);
    assert s1.products == RestockItems(s.products, order.items, now1);
    var s2 := StatusUpdate(s1, id, resume, None, now2);
    assert s2.products == DeductItems(s1.products, order.items, now2);
    forall i | 0 <= i < |s.products| ensures s2.products[i].quantity == s.products[i].quantity {
      var found := FindItem(order.items, s.products[i].id);
      if found.Some? {
        assert found.value in order.items;
      }
    }
  }

  /**
   * `createOrder` checks no stock, so an order for more than is left clamps
   * the product at zero, and cancelling it then adds the full quantity back:
   * the product ends with more stock than it had before the order.
   */
  lemma CancelAfterOversoldOrderAddsStock(p: Product, draft: OrderDraft, id: string, orders: seq<Order>,
                                          reason: Option<string>, now1: Timestamp, now2: Timestamp)
    requires |draft.items| == 1 && draft.items[0].productId == p.id
    requires 0 <= p.quantity < draft.items[0].quantity
    ensures var created := StoreData(DeductItems([p], draft.items, now1), [NewOrder(draft, id, now1)] + orders);
      && created.products[0].quantity == 0
      && StatusUpdate(created, id, Cancelled, reason, now2).products[0].quantity == draft.items[0].quantity
      && StatusUpdate(created, id, Cancelled, reason, now2).products[0].quantity > p.quantity
  {
  }

  // ---------------------------------------------------------------------------
  // Agreement with the stock ledger helpers

  function Requests(items: seq<OrderItem>): (r: seq<InventoryManager.StockRequest>)
    ensures |r| == |items|
    ensures forall k :: 0 <= k < |items| ==> r[k] == InventoryManager.StockRequest(items[k].productId, items[k].quantity)
  {
    seq(|items|, k requires 0 <= k < |items| => InventoryManager.StockRequest(items[k].productId, items[k].quantity))
  }

  function Bases(products: seq<InventoryManager.LedgerProduct>): (r: seq<Product>)
    ensures |r| == |products|
    ensures forall i :: 0 <= i < |r| ==> r[i] == products[i].base
  {
    seq(|products|, i requires 0 <= i < |products| => products[i].base)
  }

  /** Both lookups find the same first item for a product. */
  lemma {:induction false} FindRequestMatchesFindItem(items: seq<OrderItem>, id: string)
    ensures InventoryManager.FindRequest(Requests(items), id) ==
      match FindItem(items, id)
      case None => None
      case Some(item) => Some(InventoryManager.StockRequest(item.productId, item.quantity))
  {
    if items != [] {
      assert Requests(items)[1..] == Requests(items[1..]);
      FindRequestMatchesFindItem(items[1..], id);
    }
  }

  /**
   * On quantities, the store's inline arithmetic agrees with the ledger
   * helpers: `createOrder` (and a reactivation) deducts exactly what
   * `reduceStock` does, and a cancellation adds back exactly what
   * `restoreStock` does.
   */
  lemma {:induction false} InlineStockAgreesWithLedger(ledger: seq<InventoryManager.LedgerProduct>, items: seq<OrderItem>,
                                                       now1: Timestamp, now2: Timestamp)
    ensures var a := DeductItems(Bases(ledger), items, now1);
            var b := InventoryManager.ReduceStock(ledger, Requests(items), now2);
      |a| == |b| && forall i :: 0 <= i < |a| ==> a[i].quantity == b[i].base.quantity
    ensures var a := RestockItems(Bases(ledger), items, now1);
            var b := InventoryManager.RestoreStock(ledger, Requests(items), now2);
      |a| == |b| && forall i :: 0 <= i < |a| ==> a[i].quantity == b[i].base.quantity
  {
    forall i | 0 <= i < |ledger|
      ensures InventoryManager.FindRequest(Requests(items), ledger[i].base.id) ==
        match FindItem(items, ledger[i].base.id)
        case None => None
        case Some(item) => Some(InventoryManager.StockRequest(item.productId, item.quantity))
    {
      FindRequestMatchesFindItem(items, ledger[i].base.id);
    }
  }

  // ---------------------------------------------------------------------------
  // Notifications

  /** `[newNotif, ...prev].slice(0, 10)` */
  function PushNotification(ns: seq<Notification>, n: Notification): (r: seq<Notification>)
    ensures |r| == if |ns| < MaxNotifications then |ns| + 1 else MaxNotifications
    ensures r[0] == n
    ensures r[1..] == ns[..|r| - 1]
  {
    Take([n] + ns, MaxNotifications)
  }

  function MarkAllRead(ns: seq<Notification>): (r: seq<Notification>)
    ensures |r| == |ns|
    ensures forall i :: 0 <= i < |r| ==> r[i] == ns[i].(isUnread := false)
  {
    seq(|ns|, i requires 0 <= i < |ns| => ns[i].(isUnread := false))
  }

  // ---------------------------------------------------------------------------
  // Stats

  /** `products.reduce((acc, p) => acc + p.quantity, 0)` */
  function StockCount(products: seq<Product>): int {
    if products == [] then 0 else products[0].quantity + StockCount(products[1..])
  }

  /** Orders in status New or Accepted. */
  function PendingOrders(orders: seq<Order>): (n: nat)
    ensures n <= |orders|
  {
    if orders == [] then 0
    else (if orders[0].status == New || orders[0].status == Accepted then 1 else 0) + PendingOrders(orders[1..])
  }

  function UnreadCount(ns: seq<Notification>): (n: nat)
    ensures n <= |ns|
  {
    if ns == [] then 0 else (if ns[0].isUnread then 1 else 0) + UnreadCount(ns[1..])
  }

  /** After marking all as read nothing is unread. */
  lemma {:induction false} MarkAllReadClearsUnread(ns: seq<Notification>)
    ensures UnreadCount(MarkAllRead(ns)) == 0
  {
    if ns != [] {
      assert MarkAllRead(ns)[1..] == MarkAllRead(ns[1..]);
      MarkAllReadClearsUnread(ns[1..]);
    }
  }

  /** Changing one product's quantity changes the stock count by the difference. */
  lemma {:induction false} SetStockShiftsCount(products: seq<Product>, id: string, newQuantity: int, now: Timestamp)
    requires CountWithId(products, id) == 1
    ensures exists i :: && 0 <= i < |products| && products[i].id == id
                        && StockCount(SetStock(products, id, newQuantity, now)) == StockCount(products) - products[i].quantity + newQuantity
  {
    var r := SetStock(products, id, newQuantity, now);
    assert r[1..] == SetStock(products[1..], id, newQuantity, now);
    if products[0].id == id {
      UnchangedWithoutId(products[1..], id, newQuantity, now);
      assert products[0].id == id;
    } else {
      SetStockShiftsCount(products[1..], id, newQuantity, now);
      var j :| 0 <= j < |products[1..]| && products[1..][j].id == id &&
        StockCount(r[1..]) == StockCount(products[1..]) - products[1..][j].quantity + newQuantity;
      assert products[j + 1].id == id;
    }
  }

  lemma {:induction false} UnchangedWithoutId(products: seq<Product>, id: string, newQuantity: int, now: Timestamp)
    requires CountWithId(products, id) == 0
    ensures SetStock(products, id, newQuantity, now) == products
  {
    if products != [] {
      assert SetStock(products, id, newQuantity, now)[1..] == SetStock(products[1..], id, newQuantity, now);
      UnchangedWithoutId(products[1..], id, newQuantity, now);
    }
  }

  // ---------------------------------------------------------------------------
  // The store

  class AppStore {
    var products: seq<Product>
    var orders: seq<Order>
    var notifications: seq<Notification>

    ghost predicate Valid()
      reads this
    {
      |notifications| <= MaxNotifications
    }

    /** Starts from the saved (or built-in) catalog and orders, with no notifications. */
    constructor (initialProducts: seq<Product>, initialOrders: seq<Order>)
      ensures Valid()
      ensures products == initialProducts && orders == initialOrders && notifications == []
    {
      products := initialProducts;
      orders := initialOrders;
      notifications := [];
    }

    method AddProduct(product: Product, generatedId: string, now: Timestamp)
      requires Valid()
      modifies this
      ensures Valid()
      ensures products == old(products) + [NewCatalogEntry(product, generatedId, now)]
      ensures orders == old(orders) && notifications == old(notifications)
    {
      products := products + [NewCatalogEntry(product, generatedId, now)];
    }

    method UpdateProduct(updated: Product, now: Timestamp)
      requires Valid()
      modifies this
      ensures Valid()
      ensures products == ReplaceProduct(old(products), updated, now)
      ensures orders == old(orders) && notifications == old(notifications)
    {
      products := ReplaceProduct(products, updated, now);
    }

    method UpdateStock(id: string, newQuantity: int, now: Timestamp)
      requires Valid()
      modifies this
      ensures Valid()
      ensures products == SetStock(old(products), id, newQuantity, now)
      ensures orders == old(orders) && notifications == old(notifications)
    {
      products := SetStock(products, id, newQuantity, now);
    }

    method DeleteProduct(id: string)
      requires Valid()
      modifies this
      ensures Valid()
      ensures products == RemoveProduct(old(products), id)
      ensures forall p :: p in products ==> p.id != id
      ensures orders == old(orders) && notifications == old(notifications)
    {
      products := RemoveProduct(products, id);
    }

    method ToggleProductAvailability(id: string, reason: Option<string>, now: Timestamp)
      requires Valid()
      modifies this
      ensures Valid()
      ensures products == ToggleAvailability(old(products), id, reason, now)
      ensures orders == old(orders) && notifications == old(notifications)
    {
      products := ToggleAvailability(products, id, reason, now);
    }

    method AddNotification(title: string, desc: string, kind: NotificationType, id: string, timestamp: int)
      requires Valid()
      modifies this
      ensures Valid()
      ensures notifications == PushNotification(old(notifications), Notification(id, title, desc, "Just now", kind, true, timestamp))
      ensures products == old(products) && orders == old(orders)
    {
      var newNotif := Notification(id, title, desc, "Just now", kind, true, timestamp);
      notifications := PushNotification(notifications, newNotif);
    }

    method MarkAllNotificationsAsRead()
      requires Valid()
      modifies this
      ensures Valid()
      ensures notifications == MarkAllRead(old(notifications))
      ensures UnreadCount(notifications) == 0
      ensures products == old(products) && orders == old(orders)
    {
      notifications := MarkAllRead(notifications);
      MarkAllReadClearsUnread(old(notifications));
    }

    /**
     * Prepends the new order with status New and deducts its items from
     * stock, clamped at zero; no stock check comes first.
     */
    method CreateOrder(draft: OrderDraft, id: string, now: Timestamp, notificationId: string, timestamp: int)
      requires Valid()
      modifies this
      ensures Valid()
      ensures orders == [NewOrder(draft, id, now)] + old(orders)
      ensures products == DeductItems(old(products), draft.items, now)
      ensures notifications == PushNotification(old(notifications),
        Notification(notificationId, "Order Created", "You manually created Order #" + id, "Just now", Success, true, timestamp))
    {
      var newOrder := NewOrder(draft, id, now);
      products := DeductItems(products, newOrder.items, now);
      orders := [newOrder] + orders;
      AddNotification("Order Created", "You manually created Order #" + id, Success, notificationId, timestamp);
    }

    /**
     * Moves an order to `status`. Entering Cancelled or Rejected from any
     * other status restores the items' stock; leaving them re-deducts it,
     * clamped at zero; every other change has no stock effect.
     */
    method UpdateOrderStatus(id: string, status: OrderStatus, reason: Option<string>, now: Timestamp)
      requires Valid()
      modifies this
      ensures Valid()
      ensures StoreData(products, orders) == StatusUpdate(StoreData(old(products), old(orders)), id, status, reason, now)
      ensures FindOrder(old(orders), id).None? ==> products == old(products) && orders == old(orders)
      ensures notifications == old(notifications)
    {
      var found := FindOrder(orders, id);
      if found.None? {
        return;
      }
      var order := found.value;
      var isActuallyCancelled := IsCancelledStatus(status) && !IsCancelledStatus(order.status);
      var wasCancelledBefore := IsCancelledStatus(order.status) && !IsCancelledStatus(status);
      if isActuallyCancelled {
        products := RestockItems(products, order.items, now);
      } else if wasCancelledBefore {
        products := DeductItems(products, order.items, now);
      }
      orders := SetOrderStatus(orders, id, status, reason);
    }

    /** The dashboard counters that do not depend on today's date. */
    function Stats(): (s: StoreStats)
      reads this
      requires Valid()
      ensures s.pendingOrders <= |orders|
      ensures s.unreadNotifications <= MaxNotifications
    {
      StoreStats(StockCount(products), PendingOrders(orders), UnreadCount(notifications))
    }
  }
}
