/** The storefront as a whole: the provider's store together with the
    basket drawer, driven by the events the pages raise. The admin editors'
    own state travels inside their save events. Every reachable state keeps
    a well-formed basket, a valid drawer step, no tickets, and orders each
    recording the total of exactly the basket they were placed from. */
module App {
  import opened Domain
  import opened Sums
  import opened Aggregates
  import opened Provider
  import opened Checkout
  import Cart
  import Admin

  datatype AppState = AppState(store: Store, drawer: Drawer)

  /** What the pages can do to the state. Clock readings and dates arrive
      with the event that needs them. */
  datatype Event =
    | AddToBasket(product: Product)
    | RemoveFromBasket(productId: string)
    | OpenBasket
    | CloseBasket
    | TypeShipping(shipping: Shipping)
    | PressCheckout(stamp: string, date: string)
    | SaveProduct(productEditor: Admin.ProductEditor, stamp: string)
    | DeleteProduct(productId: string)
    | SaveCategory(serviceEditor: Admin.ServiceEditor, stamp: string)
    | DeleteCategory(categoryId: string)

  /** The state the storefront starts in over a given service catalog. */
  function Initial(seed: seq<ServiceCategory>): AppState {
    AppState(Init(seed), ClosedDrawer)
  }

  /** The basket total an order's own items add up to. */
  function ItemsTotal(o: Order): int {
    CartTotal(o.items)
  }

  /** What every reachable state satisfies. */
  predicate Invariant(a: AppState) {
    && Cart.WellFormed(a.store.cart)
    && ValidStep(a.drawer.step)
    && a.store.tickets == []
    && forall i :: 0 <= i < |a.store.orders| ==>
         && a.store.orders[i].total == ItemsTotal(a.store.orders[i])
         && a.store.orders[i].status == Pending
         && Cart.WellFormed(a.store.orders[i].items)
  }

  /** One event. Drawer events touch only the drawer; basket and admin
      events touch only the store; only "Pay Now" touches both. */
  function Step(a: AppState, e: Event): (r: AppState)
    ensures e.OpenBasket? || e.CloseBasket? || e.TypeShipping? ==> r.store == a.store
    ensures !(e.OpenBasket? || e.CloseBasket? || e.TypeShipping? || e.PressCheckout?) ==> r.drawer == a.drawer
    ensures e.PressCheckout? && !ButtonShown(a.drawer) ==> r == a
  {
    match e
    case AddToBasket(p) => a.(store := Provider.AddToCart(a.store, p))
    case RemoveFromBasket(id) => a.(store := Provider.RemoveFromCart(a.store, id))
    case OpenBasket => a.(drawer := OpenDrawer(a.drawer))
    case CloseBasket => a.(drawer := CloseDrawer(a.drawer))
    case TypeShipping(sh) => a.(drawer := EditShipping(a.drawer, sh))
    case PressCheckout(stamp, date) =>
      var (s, d) := PressButton(a.store, a.drawer, stamp, date);
      AppState(s, d)
    case SaveProduct(ed, stamp) => a.(store := Admin.SaveProduct(a.store, ed, stamp).0)
    case DeleteProduct(id) => a.(store := Provider.DeleteProduct(a.store, id))
    case SaveCategory(ed, stamp) => a.(store := Admin.SaveCategory(a.store, ed, stamp).0)
    case DeleteCategory(id) => a.(store := DeleteServiceCategory(a.store, id))
  }

  /** A sequence of events, oldest first. */
  function Run(a: AppState, events: seq<Event>): AppState
    decreases |events|
  {
    if |events| == 0 then a else Run(Step(a, events[0]), events[1..])
  }

  // ------------------------------------------------------------------ lemmas

  /** The state either copy of the provider starts in, over any service
      catalog (each copy's seed included), satisfies the invariant. */
  lemma InitialInvariant(seed: seq<ServiceCategory>)
    ensures Invariant(Initial(seed))
  {
  }

  /** Placing an order from a well-formed basket keeps the order part of
      the invariant. */
  lemma CheckoutKeepsOrders(a: AppState, stamp: string, date: string)
    requires Invariant(a)
    requires ButtonShown(a.drawer) && a.drawer.step == 3
    ensures Invariant(Step(a, PressCheckout(stamp, date)))
  {
    var b := Step(a, PressCheckout(stamp, date));
    forall i | 0 <= i < |b.store.orders|
      ensures && b.store.orders[i].total == ItemsTotal(b.store.orders[i])
              && b.store.orders[i].status == Pending
              && Cart.WellFormed(b.store.orders[i].items)
    {
      if i > 0 {
        assert b.store.orders[i] == a.store.orders[i - 1];
      }
    }
    assert Cart.WellFormed(b.store.cart);
  }

  /** Every event keeps the invariant. */
  lemma StepKeepsInvariant(a: AppState, e: Event)
    requires Invariant(a)
    ensures Invariant(Step(a, e))
  {
    match e
    case PressCheckout(stamp, date) =>
      if ButtonShown(a.drawer) && a.drawer.step == 3 {
        CheckoutKeepsOrders(a, stamp, date);
      }
    case _ =>
  }

  /** Every run of events keeps the invariant. */
  lemma {:induction false} RunKeepsInvariant(a: AppState, events: seq<Event>)
    requires Invariant(a)
    ensures Invariant(Run(a, events))
    decreases |events|
  {
    if |events| > 0 {
      StepKeepsInvariant(a, events[0]);
      RunKeepsInvariant(Step(a, events[0]), events[1..]);
    }
  }

  /** No operation of the storefront creates a ticket, so the service
      revenue tile reads 0 in every reachable state. */
  lemma ServiceRevenueStaysZero(seed: seq<ServiceCategory>, events: seq<Event>)
    ensures ServiceRevenue(Run(Initial(seed), events).store.tickets) == 0
  {
    InitialInvariant(seed);
    RunKeepsInvariant(Initial(seed), events);
  }

  /** In every reachable state the sales revenue tile equals the sum of the
      basket totals of the orders' own items, and the basket badge is drawn
      exactly when the basket has a line. */
  lemma ReachableFigures(seed: seq<ServiceCategory>, events: seq<Event>)
    ensures var a := Run(Initial(seed), events);
            && SalesRevenue(a.store.orders) == Sum(a.store.orders, ItemsTotal)
            && (BadgeShown(a.store.cart) <==> |a.store.cart| > 0)
  {
    var a := Run(Initial(seed), events);
    InitialInvariant(seed);
    RunKeepsInvariant(Initial(seed), events);
    SumPointwise(a.store.orders, OrderTotal, ItemsTotal);
    BadgeShownIffNonEmpty(a.store.cart);
  }

  /** Pressing "Pay Now" raises the sales revenue tile by the basket total
      shown on the confirmation step. */
  lemma PayNowRaisesSales(a: AppState, stamp: string, date: string)
    requires ButtonShown(a.drawer) && a.drawer.step == 3
    ensures SalesRevenue(Step(a, PressCheckout(stamp, date)).store.orders)
            == SalesRevenue(a.store.orders) + CartTotal(a.store.cart)
  {
    CheckoutOrderTotal(a.store, a.drawer, stamp, date);
  }

  /** Closing the drawer and opening it again shows the basket step,
      whatever step it was on. "Pay Now" completes at once in this model,
      so no late step change can follow the close. */
  lemma ReopenShowsBasket(a: AppState)
    ensures var b := Run(a, [CloseBasket, OpenBasket]);
            b.drawer.isOpen && b.drawer.step == 1 && b.store == a.store
  {
    assert [CloseBasket, OpenBasket][1..] == [OpenBasket];
  }
}
