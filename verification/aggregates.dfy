/** The figures the storefront derives from store state on every render:
    the basket total shown at checkout, the basket badge count in the
    navigation bar, and the two revenue tiles of the admin dashboard. None
    of them is stored; each is recomputed from the current sequences. */
module Aggregates {
  import opened Domain
  import opened Sums

  /** Price times quantity of one basket line. */
  function LineTotal(item: CartItem): int {
    item.product.price * item.quantity
  }

  function Quantity(item: CartItem): int {
    item.quantity
  }

  function OrderTotal(o: Order): int {
    o.total
  }

  /** The basket total: a left fold of price times quantity from 0, equal
      to the first line's price times quantity plus the rest's total. */
  function CartTotal(cart: seq<CartItem>): (r: int)
    ensures r == SumRight(cart, LineTotal)
  {
    SumIsSumRight(cart, LineTotal);
    Sum(cart, LineTotal)
  }

  /** The badge number: the sum of the line quantities. */
  function CartCount(cart: seq<CartItem>): (r: int)
    ensures r == SumRight(cart, Quantity)
  {
    SumIsSumRight(cart, Quantity);
    Sum(cart, Quantity)
  }

  /** The badge is drawn only when the count is positive. */
  predicate BadgeShown(cart: seq<CartItem>) {
    CartCount(cart) > 0
  }

  /** Store-sales revenue: the sum of the recorded order totals. */
  function SalesRevenue(orders: seq<Order>): (r: int)
    ensures r == SumRight(orders, OrderTotal)
  {
    SumIsSumRight(orders, OrderTotal);
    Sum(orders, OrderTotal)
  }

  /** The flat fee the dashboard credits for each completed ticket. */
  const ServiceFee: int := 450

  /** 1 for a completed ticket, 0 for any other. */
  function CompletedOne(t: ServiceRequest): int {
    if t.status == Completed then 1 else 0
  }

  /** The number of completed tickets, counted by the same fold as every
      other figure. */
  function CompletedCount(tickets: seq<ServiceRequest>): int {
    Sum(tickets, CompletedOne)
  }

  /** The completed tickets, in their original order: as many as there are
      completed tickets, each of them completed and taken from the list. */
  function CompletedTickets(tickets: seq<ServiceRequest>): (r: seq<ServiceRequest>)
    ensures |r| == CompletedCount(tickets)
    ensures |r| <= |tickets|
    ensures forall i :: 0 <= i < |r| ==> r[i].status == Completed && r[i] in tickets
    ensures forall i :: 0 <= i < |tickets| && tickets[i].status == Completed ==> tickets[i] in r
  {
    if |tickets| == 0 then []
    else
      assert forall i :: 0 <= i < |tickets[1..]| ==> tickets[1..][i] == tickets[i + 1];
      assert tickets == [tickets[0]] + tickets[1..];
      SumPrepend(tickets[0], tickets[1..], CompletedOne);
      (if tickets[0].status == Completed then [tickets[0]] else []) + CompletedTickets(tickets[1..])
  }

  /** Service revenue: the fee times the number of completed tickets. It is
      a whole multiple of the fee, never exceeds the fee for every ticket,
      and is 0 exactly when no ticket is completed. */
  function ServiceRevenue(tickets: seq<ServiceRequest>): (r: int)
    ensures r == ServiceFee * CompletedCount(tickets)
    ensures r % ServiceFee == 0
    ensures 0 <= r <= ServiceFee * |tickets|
    ensures r == 0 <==> forall i :: 0 <= i < |tickets| ==> tickets[i].status != Completed
  {
    var done := CompletedTickets(tickets);
    assert |done| == 0 ==> forall i :: 0 <= i < |tickets| ==> tickets[i].status != Completed;
    assert |done| > 0 ==> done[0] in tickets && done[0].status == Completed;
    |done| * ServiceFee
  }

  // ------------------------------------------------------------------ lemmas

  /** The basket total and count of an empty basket are 0, and appending a
      line adds exactly that line's price times quantity to the total and
      its quantity to the count. */
  lemma CartTotalAppendLine(cart: seq<CartItem>, item: CartItem)
    ensures CartTotal([]) == 0 && CartCount([]) == 0
    ensures CartTotal(cart + [item]) == CartTotal(cart) + item.product.price * item.quantity
    ensures CartCount(cart + [item]) == CartCount(cart) + item.quantity
  {
    assert (cart + [item])[..|cart|] == cart;
  }

  /** The basket total is additive over concatenating baskets. */
  lemma CartTotalConcat(a: seq<CartItem>, b: seq<CartItem>)
    ensures CartTotal(a + b) == CartTotal(a) + CartTotal(b)
  {
    SumConcat(a, b, LineTotal);
  }

  /** With every line quantity at least 1, the badge count is at least the
      number of lines, so the badge is shown exactly when the basket is not
      empty. */
  lemma BadgeShownIffNonEmpty(cart: seq<CartItem>)
    requires forall i :: 0 <= i < |cart| ==> cart[i].quantity >= 1
    ensures CartCount(cart) >= |cart|
    ensures BadgeShown(cart) <==> |cart| > 0
  {
    SumAtLeastLength(cart, Quantity);
  }

  /** Prepending an order adds exactly its recorded total to sales revenue. */
  lemma SalesRevenuePrepend(o: Order, orders: seq<Order>)
    ensures SalesRevenue([o] + orders) == o.total + SalesRevenue(orders)
  {
    SumPrepend(o, orders, OrderTotal);
  }

  /** Service revenue is additive over concatenating ticket lists. */
  lemma ServiceRevenueConcat(a: seq<ServiceRequest>, b: seq<ServiceRequest>)
    ensures ServiceRevenue(a + b) == ServiceRevenue(a) + ServiceRevenue(b)
  {
    CompletedTicketsConcat(a, b);
  }

  /** Selecting completed tickets distributes over concatenation. */
  lemma {:induction false} CompletedTicketsConcat(a: seq<ServiceRequest>, b: seq<ServiceRequest>)
    ensures CompletedTickets(a + b) == CompletedTickets(a) + CompletedTickets(b)
  {
    if |a| == 0 {
      assert a + b == b;
    } else {
      assert (a + b)[1..] == a[1..] + b;
      CompletedTicketsConcat(a[1..], b);
    }
  }
}
