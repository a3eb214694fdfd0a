/**
 * The stock ledger helpers: pure operations over a list of products that
 * carry, besides the catalog fields, a reserved quantity, a low-stock
 * threshold and a derived stock status.
 */
module InventoryManager {
  import opened Types

  datatype StockStatus = InStock | LowStock | OutOfStock

  /** A catalog product extended with the ledger's bookkeeping fields. */
  datatype LedgerProduct = LedgerProduct(
    base: Product,
    reservedQuantity: int,
    lowStockThreshold: int,
    stockStatus: StockStatus)

  /** One line of an order as the ledger sees it: `{ productId, quantity }`. */
  datatype StockRequest = StockRequest(productId: string, quantity: int)

  datatype InventoryActionType =
    OrderPlaced | OrderCancelled | OrderReturned | ManualAdjustment | AdminOverride | PaymentFailed

  datatype InventoryLog = InventoryLog(
    id: string,
    productId: string,
    productName: string,
    orderId: Option<string>,
    actionType: InventoryActionType,
    quantityChanged: int,
    previousQuantity: int,
    newQuantity: int,
    timestamp: Timestamp,
    reason: Option<string>,
    performedBy: Option<string>)

  /** The validation messages, one constructor per message template. */
  datatype StockError =
    | ProductNotFound(productId: string)
    | InsufficientStock(productName: string, available: int, requested: int)
    | ProductOutOfStock(productName: string)

  /** The notification texts; `None` is the source's `null`. */
  datatype StockAlert =
    | OutOfStockAlert(productName: string)
    | LowStockAlert(productName: string, remaining: int)

  // ---------------------------------------------------------------------------
  // Stock status

  function CalculateStockStatus(quantity: int, lowStockThreshold: int): (s: StockStatus)
    ensures s == OutOfStock <==> quantity == 0
    ensures s == LowStock <==> quantity != 0 && quantity <= lowStockThreshold
    ensures s == InStock <==> quantity != 0 && quantity > lowStockThreshold
  {
    if quantity == 0 then OutOfStock
    else if quantity <= lowStockThreshold then LowStock
    else InStock
  }

  /** Severity order of the statuses: out of stock < low stock < in stock. */
  function Rank(s: StockStatus): nat {
    match s
    case OutOfStock => 0
    case LowStock => 1
    case InStock => 2
  }

  /** Over non-negative quantities, more stock never yields a worse status. */
  lemma StockStatusMonotone(q1: int, q2: int, threshold: int)
    requires 0 <= q1 <= q2
    ensures Rank(CalculateStockStatus(q1, threshold)) <= Rank(CalculateStockStatus(q2, threshold))
  {
  }

  /**
   * The ledger's product invariant: the stored status is the one the
   * quantity and threshold determine, and an out-of-stock product is never
   * offered for sale (a manual switch-off may make any product unavailable).
   */
  predicate StockConsistent(p: LedgerProduct) {
    && p.stockStatus == CalculateStockStatus(p.base.quantity, p.lowStockThreshold)
    && (p.stockStatus == OutOfStock ==> !p.base.isAvailable)
  }

  // ---------------------------------------------------------------------------
  // Records

  function CreateInventoryLog(
    product: LedgerProduct,
    actionType: InventoryActionType,
    quantityChanged: int,
    previousQuantity: int,
    newQuantity: int,
    orderId: Option<string>,
    reason: Option<string>,
    performedBy: Option<string>,
    id: string,
    timestamp: Timestamp): (log: InventoryLog)
    ensures log.productId == product.base.id && log.productName == product.base.name
    ensures log.actionType == actionType && log.orderId == orderId
    ensures log.quantityChanged == quantityChanged
    ensures log.previousQuantity == previousQuantity && log.newQuantity == newQuantity
    // the record does not repair an inconsistent delta: it is balanced exactly when the arguments are
    ensures log.newQuantity - log.previousQuantity == log.quantityChanged
        <==> newQuantity - previousQuantity == quantityChanged
  {
    InventoryLog(id, product.base.id, product.base.name, orderId, actionType,
                 quantityChanged, previousQuantity, newQuantity, timestamp, reason, performedBy)
  }

  function UpdateProductQuantity(p: LedgerProduct, newQuantity: int, now: Timestamp): (r: LedgerProduct)
    ensures r.base.quantity == newQuantity
    ensures r.stockStatus == CalculateStockStatus(newQuantity, p.lowStockThreshold)
    ensures r.base.isAvailable <==> newQuantity != 0
    ensures StockConsistent(r)
    // nothing else changes but the timestamp
    ensures r == p.(base := p.base.(quantity := newQuantity, isAvailable := r.base.isAvailable, lastUpdated := now),
                    stockStatus := r.stockStatus)
  {
    var stockStatus := CalculateStockStatus(newQuantity, p.lowStockThreshold);
    var isAvailable := stockStatus != OutOfStock;
    p.(base := p.base.(quantity := newQuantity, isAvailable := isAvailable, lastUpdated := now),
       stockStatus := stockStatus)
  }

  /** Setting a positive quantity switches a manually disabled product back on. */
  lemma UpdateOverridesManualSwitchOff(p: LedgerProduct, newQuantity: int, now: Timestamp)
    requires !p.base.isAvailable && newQuantity > 0
    ensures UpdateProductQuantity(p, newQuantity, now).base.isAvailable
    ensures UpdateProductQuantity(p, newQuantity, now).base.statusReason == p.base.statusReason
  {
  }

  // ---------------------------------------------------------------------------
  // Lookups

  /** `products.find(p => p.id === id)` */
  function FindLedgerProduct(ps: seq<LedgerProduct>, id: string): (r: Option<LedgerProduct>)
    ensures r.None? <==> forall i :: 0 <= i < |ps| ==> ps[i].base.id != id
    ensures r.Some? ==> exists i :: 0 <= i < |ps| && ps[i] == r.value && r.value.base.id == id
                               && forall j :: 0 <= j < i ==> ps[j].base.id != id
  {
    if ps == [] then None
    else if ps[0].base.id == id then Some(ps[0])
    else
      var r := FindLedgerProduct(ps[1..], id);
      assert r.Some? ==> exists i :: 1 <= i < |ps| && ps[i] == r.value && r.value.base.id == id
                                && forall j :: 1 <= j < i ==> ps[j].base.id != id;
      r
  }

  /** `orderItems.find(item => item.productId === id)` */
  function FindRequest(items: seq<StockRequest>, id: string): (r: Option<StockRequest>)
    ensures r.None? <==> forall i :: 0 <= i < |items| ==> items[i].productId != id
    ensures r.Some? ==> exists i :: 0 <= i < |items| && items[i] == r.value && r.value.productId == id
                               && forall j :: 0 <= j < i ==> items[j].productId != id
  {
    if items == [] then None
    else if items[0].productId == id then Some(items[0])
    else
      var r := FindRequest(items[1..], id);
      assert r.Some? ==> exists i :: 1 <= i < |items| && items[i] == r.value && r.value.productId == id
                                && forall j :: 1 <= j < i ==> items[j].productId != id;
      r
  }

  // ---------------------------------------------------------------------------
  // Validation

  /** What an item passes validation on: a known product, enough unreserved stock, not out of stock. */
  predicate ItemPasses(products: seq<LedgerProduct>, item: StockRequest) {
    match FindLedgerProduct(products, item.productId)
    case None => false
    case Some(p) => p.base.quantity - p.reservedQuantity >= item.quantity && p.stockStatus != OutOfStock
  }

  /** The messages one item contributes, in the order the source pushes them. */
  function ItemErrors(products: seq<LedgerProduct>, item: StockRequest): (r: seq<StockError>)
    ensures |r| <= 2
    ensures r == [] <==> ItemPasses(products, item)
  {
    match FindLedgerProduct(products, item.productId)
    case None => [ProductNotFound(item.productId)]
    case Some(p) =>
      var available := p.base.quantity - p.reservedQuantity;
      (if available < item.quantity then [InsufficientStock(p.base.name, available, item.quantity)] else [])
      + (if p.stockStatus == OutOfStock then [ProductOutOfStock(p.base.name)] else [])
  }

  /**
   * An unknown product yields exactly one "not found" message and no other
   * check; a known one yields the shortage message exactly when the unreserved
   * quantity is below the request and the out-of-stock message exactly when its
   * status says so, possibly both.
   */
  lemma ItemErrorsCases(products: seq<LedgerProduct>, item: StockRequest)
    ensures FindLedgerProduct(products, item.productId).None? ==>
      ItemErrors(products, item) == [ProductNotFound(item.productId)]
    ensures FindLedgerProduct(products, item.productId).Some? ==>
      var p := FindLedgerProduct(products, item.productId).value;
      var available := p.base.quantity - p.reservedQuantity;
      var r := ItemErrors(products, item);
      && (InsufficientStock(p.base.name, available, item.quantity) in r <==> available < item.quantity)
      && (ProductOutOfStock(p.base.name) in r <==> p.stockStatus == OutOfStock)
      && (forall e :: e in r ==> !e.ProductNotFound?)
      && (|r| == 2 <==> available < item.quantity && p.stockStatus == OutOfStock)
  {
  }

  /** All messages for a list of items, item by item. */
  function AllErrors(products: seq<LedgerProduct>, items: seq<StockRequest>): seq<StockError>
  {
    if items == [] then []
    else AllErrors(products, items[..|items| - 1]) + ItemErrors(products, items[|items| - 1])
  }

  /** No message at all exactly when every item passes. */
  lemma {:induction false} NoErrorsIffAllPass(products: seq<LedgerProduct>, items: seq<StockRequest>)
    ensures AllErrors(products, items) == [] <==> forall i :: 0 <= i < |items| ==> ItemPasses(products, items[i])
  {
    if items != [] {
      var n := |items| - 1;
      NoErrorsIffAllPass(products, items[..n]);
      AllPassSplit(products, items);
      var last := ItemErrors(products, items[n]);
      assert AllErrors(products, items) == AllErrors(products, items[..n]) + last;
      assert last == [] <==> ItemPasses(products, items[n]);
    }
  }

  /** Every item passes exactly when all but the last do and the last does too. */
  lemma AllPassSplit(products: seq<LedgerProduct>, items: seq<StockRequest>)
    requires items != []
    ensures var n := |items| - 1;
      (forall i :: 0 <= i < |items| ==> ItemPasses(products, items[i]))
      <==> (forall i :: 0 <= i < n ==> ItemPasses(products, items[..n][i])) && ItemPasses(products, items[n])
  {
    var n := |items| - 1;
    assert forall i :: 0 <= i < n ==> items[..n][i] == items[i];
  }

  /** Every item contributes at least one and at most two messages, except one that passes. */
  lemma {:induction false} ErrorCountBounds(products: seq<LedgerProduct>, items: seq<StockRequest>)
    ensures |AllErrors(products, items)| <= 2 * |items|
    ensures |AllErrors(products, items)| >= |items| - CountPassing(products, items)
  {
    if items != [] {
      ErrorCountBounds(products, items[..|items| - 1]);
    }
  }

  function CountPassing(products: seq<LedgerProduct>, items: seq<StockRequest>): nat {
    if items == [] then 0
    else CountPassing(products, items[..|items| - 1]) + (if ItemPasses(products, items[|items| - 1]) then 1 else 0)
  }

  method ValidateStock(products: seq<LedgerProduct>, items: seq<StockRequest>) returns (valid: bool, errors: seq<StockError>)
    ensures errors == AllErrors(products, items)
    ensures valid <==> errors == []
    ensures valid <==> forall i :: 0 <= i < |items| ==> ItemPasses(products, items[i])
  {
    errors := [];
    for i := 0 to |items|
      invariant errors == AllErrors(products, items[..i])
    {
      assert items[..i + 1][..i] == items[..i];
      errors := CheckItem(products, items[i], errors);
    }
    assert items[..|items|] == items;
    valid := |errors| == 0;
    NoErrorsIffAllPass(products, items);
  }

  /** One turn of the `for` loop of `validateStock`: the messages `item` adds to `errors`. */
  method CheckItem(products: seq<LedgerProduct>, item: StockRequest, errors: seq<StockError>)
    returns (errors': seq<StockError>)
    ensures errors' == errors + ItemErrors(products, item)
  {
    errors' := errors;
    var product := FindLedgerProduct(products, item.productId);
    if product.None? {
      errors' := errors' + [ProductNotFound(item.productId)];
      return;
    }
    var p := product.value;
    var available := p.base.quantity - p.reservedQuantity;
    if available < item.quantity {
      errors' := errors' + [InsufficientStock(p.base.name, available, item.quantity)];
    }
    if p.stockStatus == OutOfStock {
      errors' := errors' + [ProductOutOfStock(p.base.name)];
    }
  }

  // ---------------------------------------------------------------------------
  // Reservations

  function ReserveStock(products: seq<LedgerProduct>, items: seq<StockRequest>, now: Timestamp): (r: seq<LedgerProduct>)
    ensures |r| == |products|
    ensures forall i :: 0 <= i < |r| ==>
      && r[i].base.id == products[i].base.id
      && r[i].base.quantity == products[i].base.quantity
      && r[i].stockStatus == products[i].stockStatus
    ensures forall i :: 0 <= i < |r| && FindRequest(items, products[i].base.id).None? ==> r[i] == products[i]
    ensures forall i :: 0 <= i < |r| && FindRequest(items, products[i].base.id).Some? ==>
      r[i].reservedQuantity == products[i].reservedQuantity + FindRequest(items, products[i].base.id).value.quantity
    // nothing else changes but the timestamp
    ensures forall i :: 0 <= i < |r| && FindRequest(items, products[i].base.id).Some? ==>
      r[i] == products[i].(reservedQuantity := r[i].reservedQuantity, base := products[i].base.(lastUpdated := now))
  {
    seq(|products|, i requires 0 <= i < |products| =>
      match FindRequest(items, products[i].base.id)
      case Some(item) =>
        products[i].(reservedQuantity := products[i].reservedQuantity + item.quantity,
                     base := products[i].base.(lastUpdated := now))
      case None => products[i])
  }

  function ReleaseReservedStock(products: seq<LedgerProduct>, items: seq<StockRequest>, now: Timestamp): (r: seq<LedgerProduct>)
    ensures |r| == |products|
    ensures forall i :: 0 <= i < |r| ==>
      && r[i].base.id == products[i].base.id
      && r[i].base.quantity == products[i].base.quantity
      && r[i].stockStatus == products[i].stockStatus
    ensures forall i :: 0 <= i < |r| && FindRequest(items, products[i].base.id).None? ==> r[i] == products[i]
    ensures forall i :: 0 <= i < |r| && FindRequest(items, products[i].base.id).Some? ==>
      r[i].reservedQuantity == Max0(products[i].reservedQuantity - FindRequest(items, products[i].base.id).value.quantity)
    // nothing else changes but the timestamp
    ensures forall i :: 0 <= i < |r| && FindRequest(items, products[i].base.id).Some? ==>
      r[i] == products[i].(reservedQuantity := r[i].reservedQuantity, base := products[i].base.(lastUpdated := now))
    ensures forall i :: 0 <= i < |r| && products[i].reservedQuantity >= 0 ==> r[i].reservedQuantity >= 0
  {
    seq(|products|, i requires 0 <= i < |products| =>
      match FindRequest(items, products[i].base.id)
      case Some(item) =>
        products[i].(reservedQuantity := Max0(products[i].reservedQuantity - item.quantity),
                     base := products[i].base.(lastUpdated := now))
      case None => products[i])
  }

  /** Releasing what was just reserved gives every product its former reservation back. */
  lemma ReleaseUndoesReserve(products: seq<LedgerProduct>, items: seq<StockRequest>, now1: Timestamp, now2: Timestamp)
    requires forall i :: 0 <= i < |products| ==> products[i].reservedQuantity >= 0
    ensures var r := ReleaseReservedStock(ReserveStock(products, items, now1), items, now2);
      && |r| == |products|
      && forall i :: 0 <= i < |r| ==>
           r[i].reservedQuantity == products[i].reservedQuantity && r[i].base.quantity == products[i].base.quantity
  {
  }

  // ---------------------------------------------------------------------------
  // Stock movements

  function ReduceStock(products: seq<LedgerProduct>, items: seq<StockRequest>, now: Timestamp): (r: seq<LedgerProduct>)
    ensures |r| == |products|
    ensures forall i :: 0 <= i < |r| ==> r[i].base.id == products[i].base.id
    ensures forall i :: 0 <= i < |r| && FindRequest(items, products[i].base.id).None? ==> r[i] == products[i]
    ensures forall i :: 0 <= i < |r| && FindRequest(items, products[i].base.id).Some? ==>
      && r[i].base.quantity == Max0(products[i].base.quantity - FindRequest(items, products[i].base.id).value.quantity)
      && StockConsistent(r[i])
    // the whole record is `updateProductQuantity` of the old one: status recomputed from the old threshold,
    // switched on exactly at a non-zero quantity, every other field kept
    ensures forall i :: 0 <= i < |r| && FindRequest(items, products[i].base.id).Some? ==>
      r[i] == UpdateProductQuantity(products[i], r[i].base.quantity, now)
    ensures forall i :: 0 <= i < |r| && products[i].base.quantity >= 0 ==> r[i].base.quantity >= 0
  {
    seq(|products|, i requires 0 <= i < |products| =>
      match FindRequest(items, products[i].base.id)
      case Some(item) => UpdateProductQuantity(products[i], Max0(products[i].base.quantity - item.quantity), now)
      case None => products[i])
  }

  function RestoreStock(products: seq<LedgerProduct>, items: seq<StockRequest>, now: Timestamp): (r: seq<LedgerProduct>)
    ensures |r| == |products|
    ensures forall i :: 0 <= i < |r| ==> r[i].base.id == products[i].base.id
    ensures forall i :: 0 <= i < |r| && FindRequest(items, products[i].base.id).None? ==> r[i] == products[i]
    ensures forall i :: 0 <= i < |r| && FindRequest(items, products[i].base.id).Some? ==>
      && r[i].base.quantity == products[i].base.quantity + FindRequest(items, products[i].base.id).value.quantity
      && StockConsistent(r[i])
    // the whole record is `updateProductQuantity` of the old one
    ensures forall i :: 0 <= i < |r| && FindRequest(items, products[i].base.id).Some? ==>
      r[i] == UpdateProductQuantity(products[i], r[i].base.quantity, now)
  {
    seq(|products|, i requires 0 <= i < |products| =>
      match FindRequest(items, products[i].base.id)
      case Some(item) => UpdateProductQuantity(products[i], products[i].base.quantity + item.quantity, now)
      case None => products[i])
  }

  /** Both stock movements keep every consistent product consistent. */
  lemma MovementsPreserveConsistency(products: seq<LedgerProduct>, items: seq<StockRequest>, now: Timestamp)
    requires forall i :: 0 <= i < |products| ==> StockConsistent(products[i])
    ensures forall p :: p in ReduceStock(products, items, now) ==> StockConsistent(p)
    ensures forall p :: p in RestoreStock(products, items, now) ==> StockConsistent(p)
  {
  }

  /**
   * Restoring after reducing gives every product its quantity back when none
   * was clamped at zero; a product that was consistent also gets its status back.
   */
  lemma RestoreUndoesReduce(products: seq<LedgerProduct>, items: seq<StockRequest>, now1: Timestamp, now2: Timestamp)
    requires forall i :: 0 <= i < |products| && FindRequest(items, products[i].base.id).Some? ==>
      products[i].base.quantity >= FindRequest(items, products[i].base.id).value.quantity
    ensures var r := RestoreStock(ReduceStock(products, items, now1), items, now2);
      && |r| == |products|
      && (forall i :: 0 <= i < |r| ==> r[i].base.quantity == products[i].base.quantity)
      && (forall i :: 0 <= i < |r| && StockConsistent(products[i]) ==> r[i].stockStatus == products[i].stockStatus)
  {
    var mid := ReduceStock(products, items, now1);
    var r := RestoreStock(mid, items, now2);
    forall i | 0 <= i < |r| && StockConsistent(products[i])
      ensures r[i].stockStatus == products[i].stockStatus
    {
      if FindRequest(items, products[i].base.id).Some? {
        assert mid[i].lowStockThreshold == products[i].lowStockThreshold;
      }
    }
  }

  /**
   * Reducing can lose stock when an item asks for more than is left: the
   * clamped amount is not returned by a later restore.
   */
  lemma ClampedReduceIsNotUndone(p: LedgerProduct, item: StockRequest, now1: Timestamp, now2: Timestamp)
    requires item.productId == p.base.id && 0 <= p.base.quantity < item.quantity
    ensures RestoreStock(ReduceStock([p], [item], now1), [item], now2)[0].base.quantity == item.quantity
    ensures RestoreStock(ReduceStock([p], [item], now1), [item], now2)[0].base.quantity != p.base.quantity
  {
  }

  // ---------------------------------------------------------------------------
  // Notifications

  function GetStockStatusMessage(p: LedgerProduct): (m: Option<StockAlert>)
    ensures m.None? <==> p.stockStatus == InStock
    ensures m == Some(OutOfStockAlert(p.base.name)) <==> p.stockStatus == OutOfStock
    ensures m == Some(LowStockAlert(p.base.name, p.base.quantity)) <==> p.stockStatus == LowStock
  {
    match p.stockStatus
    case OutOfStock => Some(OutOfStockAlert(p.base.name))
    case LowStock => Some(LowStockAlert(p.base.name, p.base.quantity))
    case InStock => None
  }
}
