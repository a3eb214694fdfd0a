/**
 * The records shared by the mart dashboard: catalog products, customer
 * orders with their items, and dashboard notifications, together with the
 * "first element whose id matches" lookups (`Array.prototype.find`) that
 * every part of the dashboard uses on them.
 */
module Types {

  datatype Option<T> = None | Some(value: T)

  /** An opaque ISO timestamp; the model never parses it. */
  type Timestamp = string

  datatype Product = Product(
    id: string,
    name: string,
    category: string,
    quantity: int,
    price: int,
    costPrice: int,
    unit: string,
    image: string,
    lastUpdated: Timestamp,
    isAvailable: bool,
    statusReason: Option<string>)

  datatype OrderStatus = New | Accepted | Packed | Picked | Delivered | Cancelled | Rejected

  datatype PaymentType = COD | Online

  datatype OrderItem = OrderItem(productId: string, productName: string, quantity: int, price: int)

  datatype Order = Order(
    id: string,
    customerName: string,
    customerPhone: string,
    customerAddress: string,
    date: Timestamp,
    total: int,
    status: OrderStatus,
    paymentType: PaymentType,
    items: seq<OrderItem>,
    cancellationReason: Option<string>,
    isUrgent: Option<bool>)

  datatype NotificationType = OrderNote | Alert | Success | Info

  datatype Notification = Notification(
    id: string,
    title: string,
    desc: string,
    time: string,
    kind: NotificationType,
    isUnread: bool,
    timestamp: int)

  /** Cancelled and Rejected are the two statuses in which an order holds no stock. */
  predicate IsCancelledStatus(s: OrderStatus) {
    s == Cancelled || s == Rejected
  }

  function Max0(x: int): (r: int)
    ensures r >= 0 && r >= x
    ensures r == x || r == 0
  {
    if x < 0 then 0 else x
  }

  /** `products.find(p => p.id === id)` */
  function FindProduct(ps: seq<Product>, id: string): (r: Option<Product>)
    ensures r.None? <==> forall i :: 0 <= i < |ps| ==> ps[i].id != id
    ensures r.Some? ==> exists i :: 0 <= i < |ps| && ps[i] == r.value && r.value.id == id
                               && forall j :: 0 <= j < i ==> ps[j].id != id
  {
    if ps == [] then None
    else if ps[0].id == id then Some(ps[0])
    else
      var r := FindProduct(ps[1..], id);
      assert r.Some? ==> exists i :: 1 <= i < |ps| && ps[i] == r.value && r.value.id == id
                                && forall j :: 1 <= j < i ==> ps[j].id != id;
      r
  }

  /** `items.find(i => i.productId === id)` */
  function FindItem(items: seq<OrderItem>, id: string): (r: Option<OrderItem>)
    ensures r.None? <==> forall i :: 0 <= i < |items| ==> items[i].productId != id
    ensures r.Some? ==> exists i :: 0 <= i < |items| && items[i] == r.value && r.value.productId == id
                               && forall j :: 0 <= j < i ==> items[j].productId != id
  {
    if items == [] then None
    else if items[0].productId == id then Some(items[0])
    else
      var r := FindItem(items[1..], id);
      assert r.Some? ==> exists i :: 1 <= i < |items| && items[i] == r.value && r.value.productId == id
                                && forall j :: 1 <= j < i ==> items[j].productId != id;
      r
  }

  /** `orders.find(o => o.id === id)` */
  function FindOrder(orders: seq<Order>, id: string): (r: Option<Order>)
    ensures r.None? <==> forall i :: 0 <= i < |orders| ==> orders[i].id != id
    ensures r.Some? ==> exists i :: 0 <= i < |orders| && orders[i] == r.value && r.value.id == id
                               && forall j :: 0 <= j < i ==> orders[j].id != id
  {
    if orders == [] then None
    else if orders[0].id == id then Some(orders[0])
    else
      var r := FindOrder(orders[1..], id);
      assert r.Some? ==> exists i :: 1 <= i < |orders| && orders[i] == r.value && r.value.id == id
                                && forall j :: 1 <= j < i ==> orders[j].id != id;
      r
  }
}
