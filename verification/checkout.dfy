/** The basket drawer's checkout wizard. The drawer walks through four
    steps: 1 the basket, 2 the shipping form, 3 the confirmation with the
    total, 4 the confirmation message. A single button at the bottom reads
    "Next" on steps 1 and 2 and advances one step, reads "Pay Now" on step 3
    and places the order, and is not drawn on step 4. Closing the drawer
    sends it back to step 1. The wizard checks neither the shipping form
    nor the basket before moving on. */
module Checkout {
  import opened Domain
  import opened Aggregates
  import opened Provider

  /** What the shipping form collects. */
  datatype Shipping = Shipping(name: string, email: string, address: string, city: string)

  const NoShipping := Shipping("", "", "", "")

  /** The drawer's own state. */
  datatype Drawer = Drawer(isOpen: bool, step: int, shipping: Shipping)

  const ClosedDrawer := Drawer(false, 1, NoShipping)

  /** The steps the wizard can be on. */
  predicate ValidStep(step: int) {
    1 <= step <= 4
  }

  /** The bottom button is drawn only while the drawer is open and before
      the last step. */
  predicate ButtonShown(d: Drawer) {
    d.isOpen && d.step < 4
  }

  /** The order draft built when "Pay Now" is pressed: the shipping fields,
      the address joined with the city, the basket as it is, and the total
      computed from that same basket, paid through Stripe. */
  function CheckoutDraft(sh: Shipping, cart: seq<CartItem>): (d: OrderDraft)
    ensures d.customerName == sh.name && d.email == sh.email
    ensures d.address == sh.address + ", " + sh.city
    ensures d.items == cart
    ensures d.total == CartTotal(d.items)
    ensures d.paymentMethod == Stripe
  {
    OrderDraft(sh.name, sh.email, sh.address + ", " + sh.city, cart, CartTotal(cart), Stripe)
  }

  /** Press the bottom button. Where it is not drawn nothing happens; on
      steps below 3 the step goes up by one and the store is untouched; on
      step 3 one order is placed from the current basket (its total equal
      to that basket's total), the basket empties and the drawer moves to
      step 4, where no button is drawn. */
  function PressButton(s: Store, d: Drawer, stamp: string, date: string): (r: (Store, Drawer))
    ensures !ButtonShown(d) ==> r == (s, d)
    ensures ButtonShown(d) && d.step != 3 ==> r.0 == s && r.1 == d.(step := d.step + 1)
    ensures ButtonShown(d) && d.step == 3 ==>
              && |r.0.orders| == |s.orders| + 1
              && r.0.orders[1..] == s.orders
              && r.0.orders[0].items == s.cart
              && r.0.orders[0].customerName == d.shipping.name
              && r.0.orders[0].email == d.shipping.email
              && r.0.orders[0].address == d.shipping.address + ", " + d.shipping.city
              && r.0.orders[0].total == CartTotal(r.0.orders[0].items)
              && r.0.orders[0].status == Pending
              && r.0.cart == []
              && r.0.products == s.products && r.0.services == s.services && r.0.tickets == s.tickets
              && r.1 == d.(step := 4)
              && !ButtonShown(r.1)
    ensures ValidStep(d.step) ==> ValidStep(r.1.step)
  {
    if !ButtonShown(d) then (s, d)
    else if d.step == 3 then (PlaceOrder(s, CheckoutDraft(d.shipping, s.cart), stamp, date), d.(step := 4))
    else (s, d.(step := d.step + 1))
  }

  /** Open the drawer; the step it shows is whatever it was left at. */
  function OpenDrawer(d: Drawer): (r: Drawer)
    ensures r.isOpen && r.step == d.step && r.shipping == d.shipping
  {
    d.(isOpen := true)
  }

  /** Close the drawer: it hides and its step goes back to 1. The shipping
      form keeps what was typed. */
  function CloseDrawer(d: Drawer): (r: Drawer)
    ensures !r.isOpen && r.step == 1 && r.shipping == d.shipping
  {
    Drawer(false, 1, d.shipping)
  }

  /** Type into the shipping form; its inputs exist only on step 2 of an
      open drawer. */
  function EditShipping(d: Drawer, sh: Shipping): (r: Drawer)
    ensures r.isOpen == d.isOpen && r.step == d.step
    ensures r.shipping == (if d.isOpen && d.step == 2 then sh else d.shipping)
  {
    if d.isOpen && d.step == 2 then d.(shipping := sh) else d
  }

  // ------------------------------------------------------------------ lemmas

  /** Checkout composed with order placement: the order just placed records
      a total equal to the sum of price times quantity over its own items,
      and store-sales revenue grows by exactly the basket's total. */
  lemma CheckoutOrderTotal(s: Store, d: Drawer, stamp: string, date: string)
    requires ButtonShown(d) && d.step == 3
    ensures var r := PressButton(s, d, stamp, date).0;
            && r.orders[0].total == CartTotal(r.orders[0].items)
            && SalesRevenue(r.orders) == SalesRevenue(s.orders) + CartTotal(s.cart)
  {
    var r := PressButton(s, d, stamp, date).0;
    assert r.orders == [r.orders[0]] + s.orders;
    SalesRevenuePrepend(r.orders[0], s.orders);
  }

  /** Opening a fresh drawer and pressing the button three times walks
      1, 2, 3, 4: exactly one order is placed, carrying the basket, and
      the button is gone. */
  lemma ThreePressesPlaceOneOrder(s: Store, d: Drawer, stamp: string, date: string)
    requires d.step == 1
    ensures var d1 := OpenDrawer(d);
            var (s2, d2) := PressButton(s, d1, stamp, date);
            var (s3, d3) := PressButton(s2, d2, stamp, date);
            var (s4, d4) := PressButton(s3, d3, stamp, date);
            && d2.step == 2 && d3.step == 3 && d4.step == 4
            && s2 == s && s3 == s
            && s4.orders == [s4.orders[0]] + s.orders
            && s4.orders[0].items == s.cart
            && s4.cart == []
            && !ButtonShown(d4)
  {
    var d1 := OpenDrawer(d);
    var (s2, d2) := PressButton(s, d1, stamp, date);
    var (s3, d3) := PressButton(s2, d2, stamp, date);
    var (s4, d4) := PressButton(s3, d3, stamp, date);
    assert s4.orders == [s4.orders[0]] + s4.orders[1..];
  }
}
