/**
 * The inventory page: the stock badge of each product card, the summary
 * counters, the search/category filter with the numeric sorts, the
 * "simulate order" shortcut and the +/- stock buttons.
 */
module InventoryPage {
  import opened Types
  import opened Lists
  import opened Text
  import AppContext
  import InventoryManager

  /** The page's own low-stock limit; it does not consult any product threshold. */
  const LowStockBadgeLimit: int := 10

  /** The category entry that matches every product. */
  const AllCategories: string := "All"

  datatype Badge = ManualOff | OutOfStockBadge | LowStockBadge | InStockBadge

  datatype InventoryStats = InventoryStats(total: nat, lowStock: nat, outOfStock: nat, inventoryValue: int)

  /** The sort keys with a numeric comparator; name and date sorts are not modelled. */
  datatype SortField = ByStock | ByPrice

  datatype SortOrder = Asc | Desc

  // ---------------------------------------------------------------------------
  // Badge

  function GetStockStatus(p: Product): (b: Badge)
    ensures b == ManualOff <==> !p.isAvailable
    ensures b == OutOfStockBadge <==> p.isAvailable && p.quantity == 0
    ensures b == LowStockBadge <==> p.isAvailable && p.quantity != 0 && p.quantity < LowStockBadgeLimit
    ensures b == InStockBadge <==> p.isAvailable && p.quantity != 0 && p.quantity >= LowStockBadgeLimit
  {
    if !p.isAvailable then ManualOff
    else if p.quantity == 0 then OutOfStockBadge
    else if p.quantity < LowStockBadgeLimit then LowStockBadge
    else InStockBadge
  }

  /**
   * The badge and the ledger's stock status can disagree: with a threshold
   * above 10 a product of 12 units is low on stock for the ledger and in
   * stock on the page.
   */
  lemma BadgeIgnoresLedgerThreshold(p: InventoryManager.LedgerProduct)
    requires p.base.isAvailable && p.base.quantity == 12 && p.lowStockThreshold == 15
    requires InventoryManager.StockConsistent(p)
    ensures p.stockStatus == InventoryManager.LowStock
    ensures GetStockStatus(p.base) == InStockBadge
  {
  }

  // ---------------------------------------------------------------------------
  // Counters

  /** The `lowStock` filter: switched on, in stock, and below the badge limit. */
  predicate CountedLow(p: Product) {
    p.isAvailable && p.quantity > 0 && p.quantity < LowStockBadgeLimit
  }

  /** The `outOfStock` filter: switched off, or at zero. */
  predicate CountedOut(p: Product) {
    !p.isAvailable || p.quantity == 0
  }

  function LowStockCount(ps: seq<Product>): nat {
    if ps == [] then 0
    else (if CountedLow(ps[0]) then 1 else 0) + LowStockCount(ps[1..])
  }

  function OutOfStockCount(ps: seq<Product>): nat {
    if ps == [] then 0
    else (if CountedOut(ps[0]) then 1 else 0) + OutOfStockCount(ps[1..])
  }

  /** The products that show up in either counter. */
  function CountEither(ps: seq<Product>): nat {
    if ps == [] then 0
    else (if CountedLow(ps[0]) || CountedOut(ps[0]) then 1 else 0) + CountEither(ps[1..])
  }

  /** `products.reduce((acc, p) => acc + p.price * p.quantity, 0)` */
  function InventoryValue(ps: seq<Product>): int {
    if ps == [] then 0 else ps[0].price * ps[0].quantity + InventoryValue(ps[1..])
  }

  function Stats(ps: seq<Product>): (st: InventoryStats)
    ensures st.total == |ps|
  {
    InventoryStats(|ps|, LowStockCount(ps), OutOfStockCount(ps), InventoryValue(ps))
  }

  /**
   * No product is counted both as low and as out of stock: the two counters
   * together count exactly the products in either, which never exceeds the total.
   */
  lemma {:induction false} CountersAreDisjoint(ps: seq<Product>)
    ensures forall p :: !(CountedLow(p) && CountedOut(p))
    ensures Stats(ps).lowStock + Stats(ps).outOfStock == CountEither(ps)
    ensures Stats(ps).lowStock + Stats(ps).outOfStock <= Stats(ps).total
  {
    if ps != [] {
      CountersAreDisjoint(ps[1..]);
    }
  }

  function CountBadge(ps: seq<Product>, b: Badge): nat {
    if ps == [] then 0 else (if GetStockStatus(ps[0]) == b then 1 else 0) + CountBadge(ps[1..], b)
  }

  /** Over non-negative quantities the counters count the cards showing the matching badges. */
  lemma {:induction false} CountersMatchBadges(ps: seq<Product>)
    requires forall i :: 0 <= i < |ps| ==> ps[i].quantity >= 0
    ensures Stats(ps).lowStock == CountBadge(ps, LowStockBadge)
    ensures Stats(ps).outOfStock == CountBadge(ps, ManualOff) + CountBadge(ps, OutOfStockBadge)
  {
    if ps != [] {
      CountersMatchBadges(ps[1..]);
    }
  }

  // ---------------------------------------------------------------------------
  // Filter and sort

  predicate MatchesProductSearch(p: Product, searchTerm: string) {
    MatchesTerm(p.name, searchTerm) || MatchesTerm(p.category, searchTerm)
  }

  predicate MatchesCategory(p: Product, category: string) {
    category == AllCategories || p.category == category
  }

  function FilterProducts(ps: seq<Product>, searchTerm: string, category: string): (r: seq<Product>)
    ensures forall p :: p in r <==> p in ps && MatchesProductSearch(p, searchTerm) && MatchesCategory(p, category)
    ensures IsSubsequence(r, ps)
    // every copy of a matching product is kept
    ensures forall p :: multiset(r)[p] == if MatchesProductSearch(p, searchTerm) && MatchesCategory(p, category)
                                           then multiset(ps)[p] else 0
  {
    if ps == [] then []
    else
      var rest := FilterProducts(ps[1..], searchTerm, category);
      assert ps == [ps[0]] + ps[1..];
      if MatchesProductSearch(ps[0], searchTerm) && MatchesCategory(ps[0], category) then [ps[0]] + rest else rest
  }

  /** An empty search in category "All" keeps the whole catalog, in order. */
  lemma {:induction false} UnfilteredCatalog(ps: seq<Product>)
    ensures FilterProducts(ps, "", AllCategories) == ps
  {
    if ps != [] {
      EmptyTermMatches(ps[0].name);
      UnfilteredCatalog(ps[1..]);
    }
  }

  function FieldValue(p: Product, field: SortField): int {
    match field
    case ByStock => p.quantity
    case ByPrice => p.price
  }

  /** The comparator's key: descending order negates the ascending comparison. */
  function SortKey(p: Product, field: SortField, order: SortOrder): int {
    match order
    case Asc => FieldValue(p, field)
    case Desc => -FieldValue(p, field)
  }

  function SortKeyOf(field: SortField, order: SortOrder): Product -> int {
    p => SortKey(p, field, order)
  }

  function SortProducts(ps: seq<Product>, field: SortField, order: SortOrder): (r: seq<Product>)
    ensures multiset(r) == multiset(ps)
    ensures order == Asc ==> forall i, j :: 0 <= i < j < |r| ==> FieldValue(r[i], field) <= FieldValue(r[j], field)
    ensures order == Desc ==> forall i, j :: 0 <= i < j < |r| ==> FieldValue(r[i], field) >= FieldValue(r[j], field)
  {
    var key := SortKeyOf(field, order);
    var r := SortBy(ps, key);
    assert forall i, j :: 0 <= i < j < |r| ==> key(r[i]) <= key(r[j]);
    r
  }

  /**
   * The sort is stable, as `Array.prototype.sort` is: products with the same
   * stock (or price) keep the order they had in the catalog.
   */
  lemma SortProductsIsStable(ps: seq<Product>, field: SortField, order: SortOrder, v: int)
    ensures Class(SortProducts(ps, field, order), SortKeyOf(field, order), v) == Class(ps, SortKeyOf(field, order), v)
  {
    SortByStable(ps, SortKeyOf(field, order), v);
  }

  /** `filteredProducts` for the numeric sorts. */
  function FilteredProducts(ps: seq<Product>, searchTerm: string, category: string,
                            field: SortField, order: SortOrder): (r: seq<Product>)
    ensures forall p :: p in r <==> p in ps && MatchesProductSearch(p, searchTerm) && MatchesCategory(p, category)
    ensures multiset(r) == multiset(FilterProducts(ps, searchTerm, category))
    ensures order == Asc ==> forall i, j :: 0 <= i < j < |r| ==> FieldValue(r[i], field) <= FieldValue(r[j], field)
    ensures order == Desc ==> forall i, j :: 0 <= i < j < |r| ==> FieldValue(r[i], field) >= FieldValue(r[j], field)
  {
    var kept := FilterProducts(ps, searchTerm, category);
    var r := SortProducts(kept, field, order);
    MultisetMembers(r, kept);
    r
  }

  // ---------------------------------------------------------------------------
  // Actions

  /** The order the "simulate order" button hands to `createOrder`, if any. */
  function HandleSimulateOrder(p: Product): (r: Option<AppContext.OrderDraft>)
    ensures r.None? <==> p.quantity <= 0 || !p.isAvailable
    ensures r.Some? ==> && r.value.paymentType == COD
                        && r.value.items == [OrderItem(p.id, p.name, 1, p.price)]
                        && r.value.total == p.price
  {
    if p.quantity <= 0 || !p.isAvailable then None
    else Some(AppContext.OrderDraft("Quick Customer", "+91 99061 23456", "Simulated Order, Srinagar",
                                    p.price, COD, [OrderItem(p.id, p.name, 1, p.price)], None, None))
  }

  /** A simulated order takes exactly one unit from every product with that id and leaves the rest alone. */
  lemma SimulatedOrderTakesOneUnit(products: seq<Product>, p: Product, now: Timestamp)
    requires HandleSimulateOrder(p).Some?
    requires forall i :: 0 <= i < |products| && products[i].id == p.id ==> products[i].quantity > 0
    ensures var r := AppContext.DeductItems(products, HandleSimulateOrder(p).value.items, now);
      && |r| == |products|
      && (forall i :: 0 <= i < |r| && products[i].id == p.id ==> r[i].quantity == products[i].quantity - 1)
      && (forall i :: 0 <= i < |r| && products[i].id != p.id ==> r[i] == products[i])
  {
    var items := HandleSimulateOrder(p).value.items;
    assert items[1..] == [];
  }

  /** The quantity the "-" button asks `updateStock` for; the button is disabled on empty or switched-off products. */
  function DecrementRequest(p: Product): (r: Option<int>)
    ensures r.None? <==> p.quantity <= 0 || !p.isAvailable
    ensures r.Some? ==> r.value >= 0 && r.value == p.quantity - 1
  {
    if p.quantity <= 0 || !p.isAvailable then None else Some(Max0(p.quantity - 1))
  }

  /** The quantity the "+" button asks `updateStock` for; disabled on switched-off products. */
  function IncrementRequest(p: Product): (r: Option<int>)
    ensures r.None? <==> !p.isAvailable
    ensures r.Some? ==> r.value == p.quantity + 1
  {
    if !p.isAvailable then None else Some(p.quantity + 1)
  }
}
