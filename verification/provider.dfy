/** The shared domain state of the storefront and the operations its
    provider hands to the UI. The state is a record of five sequences; every
    operation returns a new record in which one sequence (two for order
    placement) has been rebuilt and the others are the same values. */
module Provider {
  import opened Domain
  import opened Keyed
  import opened Patches
  import Cart

  datatype Store = Store(
    products: seq<Product>,
    cart: seq<CartItem>,
    orders: seq<Order>,
    tickets: seq<ServiceRequest>,
    services: seq<ServiceCategory>)

  /** The state a provider starts with: everything empty except the service
      catalog, which starts as the given seed. */
  function Init(seed: seq<ServiceCategory>): Store {
    Store([], [], [], [], seed)
  }

  // -------------------------------------------------------------------- cart

  /** Add one of `p` to the basket; nothing but the basket changes. */
  function AddToCart(s: Store, p: Product): (r: Store)
    ensures r.(cart := s.cart) == s
    ensures |r.cart| == |s.cart| + (if HasKey(s.cart, ItemId, p.id) then 0 else 1)
    ensures Cart.WellFormed(s.cart) ==> Cart.WellFormed(r.cart)
  {
    s.(cart := Cart.AddToCart(s.cart, p))
  }

  /** Drop the basket line(s) for `id`; nothing but the basket changes. */
  function RemoveFromCart(s: Store, id: string): (r: Store)
    ensures r.(cart := s.cart) == s
    ensures !HasKey(r.cart, ItemId, id)
    ensures !HasKey(s.cart, ItemId, id) ==> r == s
    ensures Cart.WellFormed(s.cart) ==> Cart.WellFormed(r.cart)
  {
    s.(cart := Cart.RemoveFromCart(s.cart, id))
  }

  // ------------------------------------------------------------------ orders

  /** The id an order placed at clock reading `stamp` receives. */
  function OrderId(stamp: string): string {
    "ORD-" + stamp
  }

  /** The draft an order was built from: the order minus its id, date and
      status. */
  function DraftOf(o: Order): OrderDraft {
    OrderDraft(o.customerName, o.email, o.address, o.items, o.total, o.paymentMethod)
  }

  /** Record a new order in front of the existing ones and empty the basket.
      The new order carries the draft's fields exactly (its total is taken
      as given, not recomputed), the id `ORD-<stamp>`, the date `date` and
      status pending. Products, tickets and services do not change. */
  function PlaceOrder(s: Store, d: OrderDraft, stamp: string, date: string): (r: Store)
    ensures |r.orders| == |s.orders| + 1
    ensures r.orders[1..] == s.orders
    ensures DraftOf(r.orders[0]) == d
    ensures r.orders[0].status == Pending
    ensures r.orders[0].id == OrderId(stamp) && r.orders[0].date == date
    ensures r.cart == []
    ensures r.(orders := s.orders, cart := s.cart) == s
  {
    var o := Order(OrderId(stamp), d.customerName, d.email, d.address, d.items, d.total, Pending, date, d.paymentMethod);
    s.(orders := [o] + s.orders, cart := [])
  }

  // ---------------------------------------------------------------- products

  /** Append `p` to the catalog, whether or not its id is already there. */
  function AddProduct(s: Store, p: Product): (r: Store)
    ensures |r.products| == |s.products| + 1
    ensures r.products[..|s.products|] == s.products && r.products[|s.products|] == p
    ensures CountKey(r.products, ProductId, p.id) == CountKey(s.products, ProductId, p.id) + 1
    ensures r.(products := s.products) == s
  {
    var r := s.(products := s.products + [p]);
    assert r.products[..|s.products|] == s.products;
    CountKeyConcat(s.products, [p], ProductId, p.id);
    r
  }

  /** Merge `u` into every product whose id is `id`; the others, the length
      and the order stay as they were, and an absent id changes nothing. */
  function UpdateProduct(s: Store, id: string, u: ProductPatch): (r: Store)
    ensures |r.products| == |s.products|
    ensures forall i :: 0 <= i < |s.products| && s.products[i].id == id ==>
              r.products[i] == MergeProduct(s.products[i], u)
    ensures forall i :: 0 <= i < |s.products| && s.products[i].id != id ==>
              r.products[i] == s.products[i]
    ensures !HasKey(s.products, ProductId, id) ==> r == s
    ensures r.(products := s.products) == s
  {
    var r := s.(products := MapWhere(s.products, ProductId, id, (p: Product) => MergeProduct(p, u)));
    assert !HasKey(s.products, ProductId, id) ==> r.products == s.products;
    r
  }

  /** Drop every product whose id is `id`, keeping the others in their
      original order, each once. */
  function DeleteProduct(s: Store, id: string): (r: Store)
    ensures IsFiltered(r.products, s.products, ProductId, id)
    ensures |r.products| == |s.products| - CountKey(s.products, ProductId, id)
    ensures forall i :: 0 <= i < |r.products| ==> r.products[i] in s.products && r.products[i].id != id
    ensures forall i :: 0 <= i < |s.products| && s.products[i].id != id ==> s.products[i] in r.products
    ensures !HasKey(s.products, ProductId, id) ==> r == s
    ensures r.(products := s.products) == s
  {
    WithoutLength(s.products, ProductId, id);
    WithoutIsFiltered(s.products, ProductId, id);
    s.(products := Without(s.products, ProductId, id))
  }

  // -------------------------------------------------------- service catalog

  /** Append a category to the service catalog, whether or not its id is
      already there. */
  function AddServiceCategory(s: Store, c: ServiceCategory): (r: Store)
    ensures |r.services| == |s.services| + 1
    ensures r.services[..|s.services|] == s.services && r.services[|s.services|] == c
    ensures CountKey(r.services, CategoryId, c.id) == CountKey(s.services, CategoryId, c.id) + 1
    ensures r.(services := s.services) == s
  {
    var r := s.(services := s.services + [c]);
    assert r.services[..|s.services|] == s.services;
    CountKeyConcat(s.services, [c], CategoryId, c.id);
    r
  }

  /** Merge `u` into every category whose id is `id`. A `services` list in
      `u` replaces the matched category's list as a whole. */
  function UpdateServiceCategory(s: Store, id: string, u: CategoryPatch): (r: Store)
    ensures |r.services| == |s.services|
    ensures forall i :: 0 <= i < |s.services| && s.services[i].id == id ==>
              r.services[i] == MergeCategory(s.services[i], u)
    ensures forall i :: 0 <= i < |s.services| && s.services[i].id == id && u.services.Some? ==>
              r.services[i].services == u.services.value
    ensures forall i :: 0 <= i < |s.services| && s.services[i].id != id ==>
              r.services[i] == s.services[i]
    ensures !HasKey(s.services, CategoryId, id) ==> r == s
    ensures r.(services := s.services) == s
  {
    var r := s.(services := MapWhere(s.services, CategoryId, id, (c: ServiceCategory) => MergeCategory(c, u)));
    assert !HasKey(s.services, CategoryId, id) ==> r.services == s.services;
    r
  }

  /** Drop every category whose id is `id`, together with the service items
      it holds; the others keep their original order, each once. */
  function DeleteServiceCategory(s: Store, id: string): (r: Store)
    ensures IsFiltered(r.services, s.services, CategoryId, id)
    ensures |r.services| == |s.services| - CountKey(s.services, CategoryId, id)
    ensures forall i :: 0 <= i < |r.services| ==> r.services[i] in s.services && r.services[i].id != id
    ensures forall i :: 0 <= i < |s.services| && s.services[i].id != id ==> s.services[i] in r.services
    ensures !HasKey(s.services, CategoryId, id) ==> r == s
    ensures r.(services := s.services) == s
  {
    WithoutLength(s.services, CategoryId, id);
    WithoutIsFiltered(s.services, CategoryId, id);
    s.(services := Without(s.services, CategoryId, id))
  }

  // ------------------------------------------------------------------ lemmas

  /** Adding a product whose id the catalog already holds does not fail or
      merge: afterwards two or more entries carry that id. */
  lemma AddProductKeepsDuplicates(s: Store, p: Product)
    requires HasKey(s.products, ProductId, p.id)
    ensures CountKey(AddProduct(s, p).products, ProductId, p.id) >= 2
  {
    CountKeyPositive(s.products, ProductId, p.id);
  }

  /** The same for service categories. */
  lemma AddServiceCategoryKeepsDuplicates(s: Store, c: ServiceCategory)
    requires HasKey(s.services, CategoryId, c.id)
    ensures CountKey(AddServiceCategory(s, c).services, CategoryId, c.id) >= 2
  {
    CountKeyPositive(s.services, CategoryId, c.id);
  }

  /** Two orders placed at the same clock reading get the same id: order
      ids are not unique. */
  lemma SameStampSameOrderId(s: Store, d1: OrderDraft, d2: OrderDraft, stamp: string, date1: string, date2: string)
    ensures var r := PlaceOrder(PlaceOrder(s, d1, stamp, date1), d2, stamp, date2);
            r.orders[0].id == r.orders[1].id
  {
  }

  /** In a catalog with distinct ids, updating the product at `i` rewrites
      that one position. */
  lemma UpdateProductUnique(s: Store, i: int, u: ProductPatch)
    requires DistinctKeys(s.products, ProductId)
    requires 0 <= i < |s.products|
    ensures UpdateProduct(s, s.products[i].id, u).products == s.products[i := MergeProduct(s.products[i], u)]
  {
  }

  /** In a catalog with distinct ids, deleting the product at `i` removes
      exactly that position. */
  lemma DeleteProductUnique(s: Store, i: int)
    requires DistinctKeys(s.products, ProductId)
    requires 0 <= i < |s.products|
    ensures DeleteProduct(s, s.products[i].id).products == s.products[..i] + s.products[i + 1..]
  {
    WithoutUnique(s.products, ProductId, i);
  }

  /** Deleting a product after updating it (with an update that does not
      move it to another id) is the same as deleting it directly. */
  lemma DeleteAfterUpdateProduct(s: Store, id: string, u: ProductPatch)
    requires u.id.None? || u.id == Some(id)
    ensures DeleteProduct(UpdateProduct(s, id, u), id) == DeleteProduct(s, id)
  {
    WithoutAfterMapWhere(s.products, ProductId, id, (p: Product) => MergeProduct(p, u));
  }

  /** Deleting the id of a product just added is deleting it from the
      store before the addition; so when the id was new, the delete undoes
      the addition exactly. */
  lemma DeleteAfterAddProduct(s: Store, p: Product)
    ensures DeleteProduct(AddProduct(s, p), p.id) == DeleteProduct(s, p.id)
    ensures !HasKey(s.products, ProductId, p.id) ==> DeleteProduct(AddProduct(s, p), p.id) == s
  {
    WithoutAppend(s.products, [p], ProductId, p.id);
    assert Without([p], ProductId, p.id) == [];
  }

  /** The same for service categories. */
  lemma DeleteAfterAddServiceCategory(s: Store, c: ServiceCategory)
    ensures DeleteServiceCategory(AddServiceCategory(s, c), c.id) == DeleteServiceCategory(s, c.id)
    ensures !HasKey(s.services, CategoryId, c.id) ==> DeleteServiceCategory(AddServiceCategory(s, c), c.id) == s
  {
    WithoutAppend(s.services, [c], CategoryId, c.id);
    assert Without([c], CategoryId, c.id) == [];
  }

  /** A category catalog with distinct ids keeps them through updates that
      carry no id and through deletes. */
  lemma CategoryIdsStayDistinct(s: Store, id: string, u: CategoryPatch)
    requires DistinctKeys(s.services, CategoryId)
    requires u.id.None?
    ensures DistinctKeys(UpdateServiceCategory(s, id, u).services, CategoryId)
    ensures DistinctKeys(DeleteServiceCategory(s, id).services, CategoryId)
  {
    MapWhereKeepsDistinct(s.services, CategoryId, id, (c: ServiceCategory) => MergeCategory(c, u));
    WithoutKeepsDistinct(s.services, CategoryId, id);
  }
}
