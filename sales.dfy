/**
 * The sales report's `calculateMetrics`, applied to the orders of one date
 * window: revenue and its payment split, cost and profit, outcome counts,
 * and the three best-selling products. Choosing the window by date is not
 * modelled; the metrics take the window's orders as given.
 */
module Sales {
  import opened Types
  import opened Lists

  /** The per-product tally of `productSales`. */
  datatype SaleEntry = SaleEntry(count: int, revenue: int, name: string, image: string)

  datatype Metrics = Metrics(revenue: int, profit: int, codRevenue: int, onlineRevenue: int,
                             completedCount: nat, cancelledCount: nat, bestSellers: seq<SaleEntry>)

  const BestSellerCount: nat := 3

  // ---------------------------------------------------------------------------
  // Revenue and counts

  /** `orderList.filter(o => o.status === 'Delivered')` */
  function Successful(orders: seq<Order>): (r: seq<Order>)
    ensures forall o :: o in r <==> o in orders && o.status == Delivered
    ensures IsSubsequence(r, orders)
    // every copy of a delivered order is kept
    ensures forall o :: multiset(r)[o] == if o.status == Delivered then multiset(orders)[o] else 0
  {
    if orders == [] then []
    else
      var rest := Successful(orders[1..]);
      assert orders == [orders[0]] + orders[1..];
      if orders[0].status == Delivered then [orders[0]] + rest else rest
  }

  function WithPayment(orders: seq<Order>, paymentType: PaymentType): (r: seq<Order>)
    ensures forall o :: o in r <==> o in orders && o.paymentType == paymentType
    ensures IsSubsequence(r, orders)
    // every copy of a matching order is kept
    ensures forall o :: multiset(r)[o] == if o.paymentType == paymentType then multiset(orders)[o] else 0
  {
    if orders == [] then []
    else
      var rest := WithPayment(orders[1..], paymentType);
      assert orders == [orders[0]] + orders[1..];
      if orders[0].paymentType == paymentType then [orders[0]] + rest else rest
  }

  /** `orders.reduce((sum, o) => sum + o.total, 0)` */
  function SumTotals(orders: seq<Order>): int {
    if orders == [] then 0 else orders[0].total + SumTotals(orders[1..])
  }

  /** Every order is paid either cash on delivery or online, so the two shares make up the whole. */
  lemma {:induction false} PaymentSplit(orders: seq<Order>)
    ensures SumTotals(WithPayment(orders, COD)) + SumTotals(WithPayment(orders, Online)) == SumTotals(orders)
  {
    if orders != [] {
      PaymentSplit(orders[1..]);
    }
  }

  /** Revenue only ever comes from delivered orders. */
  lemma {:induction false} UndeliveredAddsNoRevenue(orders: seq<Order>, o: Order)
    requires o.status != Delivered
    ensures SumTotals(Successful([o] + orders)) == SumTotals(Successful(orders))
  {
    assert ([o] + orders)[1..] == orders;
  }

  function CountCancelled(orders: seq<Order>): nat {
    if orders == [] then 0
    else (if IsCancelledStatus(orders[0].status) then 1 else 0) + CountCancelled(orders[1..])
  }

  /** No order is both completed and cancelled. */
  lemma {:induction false} OutcomeCountsBounded(orders: seq<Order>)
    ensures |Successful(orders)| + CountCancelled(orders) <= |orders|
  {
    if orders != [] {
      OutcomeCountsBounded(orders[1..]);
    }
  }

  // ---------------------------------------------------------------------------
  // Cost

  /** An item costs its product's cost price per unit; an item whose product is gone costs nothing. */
  function ItemCost(products: seq<Product>, item: OrderItem): int {
    match FindProduct(products, item.productId)
    case Some(p) => p.costPrice * item.quantity
    case None => 0
  }

  function ItemsCost(products: seq<Product>, items: seq<OrderItem>): int {
    if items == [] then 0
    else ItemsCost(products, items[..|items| - 1]) + ItemCost(products, items[|items| - 1])
  }

  function OrdersCost(products: seq<Product>, orders: seq<Order>): int {
    if orders == [] then 0
    else OrdersCost(products, orders[..|orders| - 1]) + ItemsCost(products, orders[|orders| - 1].items)
  }

  /** The nested `forEach` that adds up `totalCost`. */
  method TotalCost(products: seq<Product>, successful: seq<Order>) returns (totalCost: int)
    ensures totalCost == OrdersCost(products, successful)
  {
    totalCost := 0;
    for i := 0 to |successful|
      invariant totalCost == OrdersCost(products, successful[..i])
    {
      var items := successful[i].items;
      for j := 0 to |items|
        invariant totalCost == OrdersCost(products, successful[..i]) + ItemsCost(products, items[..j])
      {
        assert items[..j + 1][..j] == items[..j];
        var product := FindProduct(products, items[j].productId);
        if product.Some? {
          totalCost := totalCost + product.value.costPrice * items[j].quantity;
        }
      }
      assert items[..|items|] == items;
      assert successful[..i + 1][..i] == successful[..i];
    }
    assert successful[..|successful|] == successful;
  }

  /** With non-negative cost prices and quantities the cost is never negative. */
  lemma {:induction false} CostNonNegative(products: seq<Product>, orders: seq<Order>)
    requires forall i :: 0 <= i < |products| ==> products[i].costPrice >= 0
    requires forall i, j :: 0 <= i < |orders| && 0 <= j < |orders[i].items| ==> orders[i].items[j].quantity >= 0
    ensures OrdersCost(products, orders) >= 0
  {
    if orders != [] {
      var n := |orders| - 1;
      CostNonNegative(products, orders[..n]);
      ItemsCostNonNegative(products, orders[n].items);
    }
  }

  lemma {:induction false} ItemsCostNonNegative(products: seq<Product>, items: seq<OrderItem>)
    requires forall i :: 0 <= i < |products| ==> products[i].costPrice >= 0
    requires forall j :: 0 <= j < |items| ==> items[j].quantity >= 0
    ensures ItemsCost(products, items) >= 0
  {
    if items != [] {
      var n := |items| - 1;
      ItemsCostNonNegative(products, items[..n]);
      var x := items[n];
      match FindProduct(products, x.productId)
      case Some(p) => {
        var k :| 0 <= k < |products| && products[k] == p;
      }
      case None =>
    }
  }

  /** Items of products that have been deleted from the catalog add nothing to the cost. */
  lemma {:induction false} DeletedProductsCostNothing(products: seq<Product>, items: seq<OrderItem>)
    requires forall j :: 0 <= j < |items| ==> FindProduct(products, items[j].productId).None?
    ensures ItemsCost(products, items) == 0
  {
    if items != [] {
      DeletedProductsCostNothing(products, items[..|items| - 1]);
    }
  }

  // ---------------------------------------------------------------------------
  // Best sellers

  /** All items of the given orders, in order. */
  function Flatten(orders: seq<Order>): (r: seq<OrderItem>)
    ensures orders == [] ==> r == []
  {
    if orders == [] then [] else Flatten(orders[..|orders| - 1]) + orders[|orders| - 1].items
  }

  /** Units of product `id` sold over `items`. */
  function CountOf(items: seq<OrderItem>, id: string): int {
    if items == [] then 0
    else CountOf(items[..|items| - 1], id)
         + (if items[|items| - 1].productId == id then items[|items| - 1].quantity else 0)
  }

  /** `item.price * item.quantity` */
  function LineRevenue(item: OrderItem): int {
    item.price * item.quantity
  }

  /** Money taken for product `id` over `items`. */
  function RevenueOf(items: seq<OrderItem>, id: string): int {
    if items == [] then 0
    else RevenueOf(items[..|items| - 1], id)
         + (if items[|items| - 1].productId == id then LineRevenue(items[|items| - 1]) else 0)
  }

  /** The product ids of `items`, each once, in the order they first appear. */
  function SoldIds(items: seq<OrderItem>): (r: seq<string>)
    ensures forall id :: id in r <==> exists j :: 0 <= j < |items| && items[j].productId == id
    ensures forall a, b :: 0 <= a < b < |r| ==> r[a] != r[b]
  {
    if items == [] then []
    else
      var n := |items| - 1;
      var ids := SoldIds(items[..n]);
      assert forall j :: 0 <= j < n ==> items[..n][j] == items[j];
      if items[n].productId in ids then ids else ids + [items[n].productId]
  }

  /** `p?.image || ''` for the product the id names. */
  function ImageOf(products: seq<Product>, id: string): string {
    match FindProduct(products, id)
    case Some(p) => p.image
    case None => ""
  }

  /** The tally `productSales` holds for `id` once `items` have been counted. */
  function Entry(products: seq<Product>, items: seq<OrderItem>, id: string): SaleEntry {
    var name := match FindItem(items, id) case Some(item) => item.productName case None => "";
    SaleEntry(CountOf(items, id), RevenueOf(items, id), name, ImageOf(products, id))
  }

  /** `sales` and its key order tally exactly the items `seen`. */
  ghost predicate Tallies(products: seq<Product>, sales: map<string, SaleEntry>, keys: seq<string>, seen: seq<OrderItem>) {
    && keys == SoldIds(seen)
    && (forall id :: id in sales <==> id in keys)
    && (forall id :: id in sales ==> sales[id] == Entry(products, seen, id))
  }

  /** The first item with an id stays the first when more items follow. */
  lemma {:induction false} FindItemAppend(items: seq<OrderItem>, x: OrderItem, id: string)
    ensures FindItem(items + [x], id) == if FindItem(items, id).Some? then FindItem(items, id)
                                         else if x.productId == id then Some(x) else None
  {
    if items != [] {
      assert (items + [x])[1..] == items[1..] + [x];
      if items[0].productId != id {
        FindItemAppend(items[1..], x, id);
      }
    }
  }

  /** A product none of the items name has sold nothing. */
  lemma {:induction false} UnsoldTallyIsZero(items: seq<OrderItem>, id: string)
    requires forall j :: 0 <= j < |items| ==> items[j].productId != id
    ensures CountOf(items, id) == 0 && RevenueOf(items, id) == 0
  {
    if items != [] {
      UnsoldTallyIsZero(items[..|items| - 1], id);
    }
  }

  /** The tally `productSales` holds after counting `x` on top of `sales`. */
  function Record(products: seq<Product>, sales: map<string, SaleEntry>, x: OrderItem): map<string, SaleEntry> {
    var id := x.productId;
    var base := if id in sales then sales[id] else SaleEntry(0, 0, x.productName, ImageOf(products, id));
    sales[id := base.(count := base.count + x.quantity, revenue := base.revenue + LineRevenue(x))]
  }

  /** How one more item changes the tally of a product. */
  lemma EntryStep(products: seq<Product>, seen: seq<OrderItem>, x: OrderItem, id: string)
    ensures var e := Entry(products, seen, id);
      Entry(products, seen + [x], id)
        == if id != x.productId then e
           else e.(count := e.count + x.quantity, revenue := e.revenue + LineRevenue(x),
                   name := if FindItem(seen, id).Some? then e.name else x.productName)
  {
    var s := seen + [x];
    assert s[..|s| - 1] == seen;
    FindItemAppend(seen, x, id);
  }

  lemma SoldIdsStep(seen: seq<OrderItem>, x: OrderItem)
    ensures SoldIds(seen + [x]) == if x.productId in SoldIds(seen) then SoldIds(seen) else SoldIds(seen) + [x.productId]
  {
    var s := seen + [x];
    assert s[..|s| - 1] == seen;
  }

  /** A product has a tally exactly when some item names it. */
  lemma SoldIdsFound(items: seq<OrderItem>, id: string)
    ensures id in SoldIds(items) <==> FindItem(items, id).Some?
  {
    if id in SoldIds(items) {
      var j :| 0 <= j < |items| && items[j].productId == id;
    }
  }

  /** Counting one more item moves a tally to the one over the longer item list. */
  lemma RecordStep(products: seq<Product>, sales: map<string, SaleEntry>, seen: seq<OrderItem>, x: OrderItem, id: string)
    requires id in sales <==> FindItem(seen, id).Some?
    requires id in sales ==> sales[id] == Entry(products, seen, id)
    requires id in Record(products, sales, x)
    ensures Record(products, sales, x)[id] == Entry(products, seen + [x], id)
  {
    if id == x.productId && id !in sales {
      UnsoldTallyIsZero(seen, id);
    }
    EntryStep(products, seen, x, id);
  }

  /** Counting one more item updates its product's tally and no other. */
  lemma TallyStep(products: seq<Product>, sales: map<string, SaleEntry>, keys: seq<string>,
                  seen: seq<OrderItem>, x: OrderItem, next: seq<OrderItem>)
    requires Tallies(products, sales, keys, seen)
    requires next == seen + [x]
    ensures Tallies(products, Record(products, sales, x),
                    if x.productId in sales then keys else keys + [x.productId], next)
  {
    SoldIdsStep(seen, x);
    forall id | id in Record(products, sales, x)
      ensures Record(products, sales, x)[id] == Entry(products, next, id)
    {
      SoldIdsFound(seen, id);
      RecordStep(products, sales, seen, x, id);
    }
  }

  /** The body of the inner `forEach`: create the product's tally on first sight, then add the item. */
  method CountItem(products: seq<Product>, sales: map<string, SaleEntry>, keys: seq<string>, item: OrderItem)
    returns (sales': map<string, SaleEntry>, keys': seq<string>)
    ensures sales' == Record(products, sales, item)
    ensures keys' == if item.productId in sales then keys else keys + [item.productId]
  {
    sales' := sales;
    keys' := keys;
    if item.productId !in sales' {
      var p := FindProduct(products, item.productId);
      sales' := sales'[item.productId := SaleEntry(0, 0, item.productName, if p.Some? then p.value.image else "")];
      keys' := keys' + [item.productId];
    }
    var e := sales'[item.productId];
    sales' := sales'[item.productId := e.(count := e.count + item.quantity, revenue := e.revenue + item.price * item.quantity)];
  }

  /** One turn of the inner loop, stated on the prefixes the loop walks through. */
  lemma TallyNext(products: seq<Product>, sales: map<string, SaleEntry>, keys: seq<string>,
                  done: seq<OrderItem>, items: seq<OrderItem>, j: nat)
    requires j < |items|
    requires Tallies(products, sales, keys, done + items[..j])
    ensures Tallies(products, Record(products, sales, items[j]),
                    if items[j].productId in sales then keys else keys + [items[j].productId],
                    done + items[..j + 1])
  {
    assert items[..j + 1] == items[..j] + [items[j]];
    TallyStep(products, sales, keys, done + items[..j], items[j], done + items[..j + 1]);
  }

  /** The items of the first `i + 1` orders. */
  lemma FlattenNext(orders: seq<Order>, i: nat)
    requires i < |orders|
    ensures Flatten(orders[..i + 1]) == Flatten(orders[..i]) + orders[i].items[..|orders[i].items|]
  {
    assert orders[..i + 1][..i] == orders[..i];
    assert orders[i].items[..|orders[i].items|] == orders[i].items;
  }

  /** The nested `forEach` that fills `productSales`, with the order its keys were created in. */
  method ProductSales(products: seq<Product>, successful: seq<Order>) returns (sales: map<string, SaleEntry>, keys: seq<string>)
    ensures Tallies(products, sales, keys, Flatten(successful))
  {
    sales := map[];
    keys := [];
    for i := 0 to |successful|
      invariant Tallies(products, sales, keys, Flatten(successful[..i]))
    {
      var items := successful[i].items;
      ghost var done := Flatten(successful[..i]);
      assert done + items[..0] == done;
      for j := 0 to |items|
        invariant Tallies(products, sales, keys, done + items[..j])
      {
        TallyNext(products, sales, keys, done, items, j);
        sales, keys := CountItem(products, sales, keys, items[j]);
      }
      FlattenNext(successful, i);
    }
    assert successful[..|successful|] == successful;
  }

  /** `Object.values(productSales)`, taken in key-creation order. */
  function SalesEntries(products: seq<Product>, items: seq<OrderItem>): (r: seq<SaleEntry>)
    ensures |r| == |SoldIds(items)|
    ensures forall k :: 0 <= k < |r| ==> r[k] == Entry(products, items, SoldIds(items)[k])
  {
    var ids := SoldIds(items);
    seq(|ids|, k requires 0 <= k < |ids| => Entry(products, items, ids[k]))
  }

  /** `Object.values(sales)`, listing the values in the order of `keys`. */
  function Values(sales: map<string, SaleEntry>, keys: seq<string>): (r: seq<SaleEntry>)
    requires forall k :: k in keys ==> k in sales
    ensures |r| == |keys|
    ensures forall i :: 0 <= i < |keys| ==> r[i] == sales[keys[i]]
  {
    seq(|keys|, i requires 0 <= i < |keys| => sales[keys[i]])
  }

  /** The values of a complete tally are the entries of the sold products, in first-sale order. */
  lemma ValuesOfTally(products: seq<Product>, sales: map<string, SaleEntry>, keys: seq<string>, items: seq<OrderItem>)
    requires Tallies(products, sales, keys, items)
    ensures forall k :: k in keys ==> k in sales
    ensures Values(sales, keys) == SalesEntries(products, items)
  {
  }

  function ByCountDescending(e: SaleEntry): int { -e.count }

  /** `.sort((a, b) => b.count - a.count).slice(0, 3)` */
  function BestSellers(entries: seq<SaleEntry>): (r: seq<SaleEntry>)
    ensures |r| == if |entries| < BestSellerCount then |entries| else BestSellerCount
    ensures multiset(r) <= multiset(entries)
    ensures forall i, j :: 0 <= i < j < |r| ==> r[i].count >= r[j].count
    // nothing left out sold more than the last entry shown
    ensures forall e :: e in multiset(entries) - multiset(r) ==> r != [] && e.count <= r[|r| - 1].count
  {
    var ranked := SortBy(entries, ByCountDescending);
    var k := if |ranked| < BestSellerCount then |ranked| else BestSellerCount;
    TopOfRanked(ranked, k);
    ranked[..k]
  }

  /** The first `k` entries of a ranking are in order and outsell the rest. */
  lemma TopOfRanked(ranked: seq<SaleEntry>, k: nat)
    requires SortedBy(ranked, ByCountDescending)
    requires k <= |ranked|
    requires k == 0 ==> ranked == []
    ensures multiset(ranked[..k]) <= multiset(ranked)
    ensures multiset(ranked) - multiset(ranked[..k]) == multiset(ranked[k..])
    ensures forall i, j :: 0 <= i < j < k ==> ranked[..k][i].count >= ranked[..k][j].count
    ensures forall e :: e in multiset(ranked[k..]) ==> k > 0 && e.count <= ranked[..k][k - 1].count
  {
    assert ranked == ranked[..k] + ranked[k..];
    forall i, j | 0 <= i < j < k ensures ranked[..k][i].count >= ranked[..k][j].count {
      assert ByCountDescending(ranked[i]) <= ByCountDescending(ranked[j]);
    }
    forall e | e in multiset(ranked[k..]) ensures k > 0 && e.count <= ranked[..k][k - 1].count {
      var m :| 0 <= m < |ranked[k..]| && ranked[k..][m] == e;
      assert ranked[k + m] == e;
      assert ByCountDescending(ranked[k - 1]) <= ByCountDescending(ranked[k + m]);
    }
  }

  // ---------------------------------------------------------------------------
  // The report

  method CalculateMetrics(products: seq<Product>, orderList: seq<Order>) returns (m: Metrics)
    ensures var successful := Successful(orderList);
      && m.revenue == SumTotals(successful)
      && m.profit == m.revenue - OrdersCost(products, successful)
      && m.codRevenue == SumTotals(WithPayment(successful, COD))
      && m.onlineRevenue == SumTotals(WithPayment(successful, Online))
      && m.codRevenue + m.onlineRevenue == m.revenue
      && m.completedCount == |successful|
      && m.cancelledCount == CountCancelled(orderList)
      && m.completedCount + m.cancelledCount <= |orderList|
      && m.bestSellers == BestSellers(SalesEntries(products, Flatten(successful)))
  {
    var successful := Successful(orderList);
    var revenue := SumTotals(successful);
    var totalCost := TotalCost(products, successful);
    var codRevenue := SumTotals(WithPayment(successful, COD));
    var onlineRevenue := SumTotals(WithPayment(successful, Online));
    PaymentSplit(successful);
    OutcomeCountsBounded(orderList);
    var sales, keys := ProductSales(products, successful);
    ValuesOfTally(products, sales, keys, Flatten(successful));
    var values := Values(sales, keys);
    m := Metrics(revenue, revenue - totalCost, codRevenue, onlineRevenue,
                 |successful|, CountCancelled(orderList), BestSellers(values));
  }
}
