/** The basket: adding a product merges it into the existing line for that
    product id (one more of it, the line's stored snapshot untouched) or
    appends a fresh line with quantity 1; removing a product id drops its
    line. Both build a new sequence. */
module Cart {
  import opened Domain
  import opened Keyed
  import opened Sums
  import opened Aggregates

  /** The basket invariant: at most one line per product id, and every line
      holds at least one item. */
  predicate WellFormed(cart: seq<CartItem>) {
    && DistinctKeys(cart, ItemId)
    && forall i :: 0 <= i < |cart| ==> cart[i].quantity >= 1
  }

  /** One more of the same line. */
  function Increment(item: CartItem): CartItem {
    item.(quantity := item.quantity + 1)
  }

  /** Add one of `p` to the basket. When a line for `p.id` exists, every
      such line gains exactly one item and keeps the product snapshot it was
      created with (a changed price in `p` is ignored); otherwise the
      basket grows by one line `{p, 1}` at the end. The invariant is kept. */
  function AddToCart(cart: seq<CartItem>, p: Product): (r: seq<CartItem>)
    ensures HasKey(cart, ItemId, p.id) ==>
              && |r| == |cart|
              && forall i :: 0 <= i < |cart| ==>
                   && r[i].product == cart[i].product
                   && r[i].quantity == cart[i].quantity + (if cart[i].product.id == p.id then 1 else 0)
    ensures !HasKey(cart, ItemId, p.id) ==> r == cart + [CartItem(p, 1)]
    ensures WellFormed(cart) ==> WellFormed(r)
  {
    if Find(cart, ItemId, p.id).Some? then
      var r := MapWhere(cart, ItemId, p.id, Increment);
      assert WellFormed(cart) ==> WellFormed(r) by {
        if WellFormed(cart) {
          MapWhereKeepsDistinct(cart, ItemId, p.id, Increment);
        }
      }
      r
    else
      var r := cart + [CartItem(p, 1)];
      assert WellFormed(cart) ==> WellFormed(r) by {
        if WellFormed(cart) {
          forall i, j | 0 <= i < j < |r| ensures ItemId(r[i]) != ItemId(r[j]) {
            if j == |cart| {
              assert ItemId(r[i]) == ItemId(cart[i]);
            }
          }
        }
      }
      r
  }

  /** Remove every line for product id `id`. The remaining lines keep their
      order; nothing changes when no line has that id; the invariant is
      kept. */
  function RemoveFromCart(cart: seq<CartItem>, id: string): (r: seq<CartItem>)
    ensures IsFiltered(r, cart, ItemId, id)
    ensures forall i :: 0 <= i < |r| ==> r[i] in cart && r[i].product.id != id
    ensures forall i :: 0 <= i < |cart| && cart[i].product.id != id ==> cart[i] in r
    ensures !HasKey(cart, ItemId, id) ==> r == cart
    ensures WellFormed(cart) ==> WellFormed(r)
  {
    var r := Without(cart, ItemId, id);
    WithoutIsFiltered(cart, ItemId, id);
    assert WellFormed(cart) ==> WellFormed(r) by {
      if WellFormed(cart) {
        WithoutKeepsDistinct(cart, ItemId, id);
        forall i | 0 <= i < |r| ensures r[i].quantity >= 1 {
          var j :| 0 <= j < |cart| && cart[j] == r[i];
        }
      }
    }
    r
  }

  /** The price the basket charges for one more of `p`: the stored price of
      its existing line, or `p`'s own price for a new line. */
  function UnitPrice(cart: seq<CartItem>, p: Product): int {
    match Find(cart, ItemId, p.id)
    case Some(line) => line.product.price
    case None => p.price
  }

  // ------------------------------------------------------------------ lemmas

  /** In a well-formed basket, re-adding the product of line `i` changes that
      line alone: its quantity goes up by exactly one, its snapshot (price
      included) stays as first inserted, and the length is unchanged. */
  lemma AddExistingLine(cart: seq<CartItem>, p: Product, i: int)
    requires DistinctKeys(cart, ItemId)
    requires 0 <= i < |cart| && cart[i].product.id == p.id
    ensures AddToCart(cart, p) == cart[i := CartItem(cart[i].product, cart[i].quantity + 1)]
  {
    assert Find(cart, ItemId, p.id).Some?;
    MapWhereUnique(cart, ItemId, Increment, i);
  }

  /** Adding one item raises the basket total by the unit price the basket
      charges for it, and the badge count by exactly one. */
  lemma AddToCartTotals(cart: seq<CartItem>, p: Product)
    requires DistinctKeys(cart, ItemId)
    ensures CartTotal(AddToCart(cart, p)) == CartTotal(cart) + UnitPrice(cart, p)
    ensures CartCount(AddToCart(cart, p)) == CartCount(cart) + 1
  {
    match Find(cart, ItemId, p.id)
    case Some(line) =>
      var i :| 0 <= i < |cart| && cart[i] == line && ItemId(cart[i]) == p.id;
      AddExistingLine(cart, p, i);
      BumpTotals(cart, i);
    case None =>
      CartTotalAppendLine(cart, CartItem(p, 1));
  }

  /** One more of line `i` adds its price to the total and one to the count. */
  lemma BumpTotals(cart: seq<CartItem>, i: int)
    requires 0 <= i < |cart|
    ensures var bumped := cart[i := CartItem(cart[i].product, cart[i].quantity + 1)];
            && CartTotal(bumped) == CartTotal(cart) + cart[i].product.price
            && CartCount(bumped) == CartCount(cart) + 1
  {
    var bumped := CartItem(cart[i].product, cart[i].quantity + 1);
    SumUpdate(cart, i, bumped, LineTotal);
    SumUpdate(cart, i, bumped, Quantity);
  }

  /** In a well-formed basket, removing the product of line `i` deletes
      exactly that line, keeps the others in order, and lowers the total by
      that line's price times quantity. */
  lemma RemoveExistingLine(cart: seq<CartItem>, i: int)
    requires DistinctKeys(cart, ItemId)
    requires 0 <= i < |cart|
    ensures RemoveFromCart(cart, cart[i].product.id) == cart[..i] + cart[i + 1..]
    ensures CartTotal(RemoveFromCart(cart, cart[i].product.id))
            == CartTotal(cart) - cart[i].product.price * cart[i].quantity
  {
    WithoutUnique(cart, ItemId, i);
    SumRemoveAt(cart, i, LineTotal);
  }

  /** Removing twice is removing once. */
  lemma RemoveFromCartIdempotent(cart: seq<CartItem>, id: string)
    ensures RemoveFromCart(RemoveFromCart(cart, id), id) == RemoveFromCart(cart, id)
  {
    WithoutIdempotent(cart, ItemId, id);
  }

  /** Add `p1`, add `p1` again, then add a different `p2` to an empty
      basket: two lines, `p1` twice and `p2` once, and the total is twice
      `p1`'s price plus `p2`'s. */
  lemma RepeatAddScenario(p1: Product, p2: Product)
    requires p1.id != p2.id
    ensures var c := AddToCart(AddToCart(AddToCart([], p1), p1), p2);
            && c == [CartItem(p1, 2), CartItem(p2, 1)]
            && CartTotal(c) == 2 * p1.price + p2.price
            && CartCount(c) == 3
  {
    var c1 := AddToCart([], p1);
    assert c1 == [CartItem(p1, 1)] by {
      assert !HasKey([], ItemId, p1.id);
    }
    var c2 := AddToCart(c1, p1);
    assert c2 == [CartItem(p1, 2)] by {
      AddExistingLine(c1, p1, 0);
    }
    var c3 := AddToCart(c2, p2);
    assert c3 == [CartItem(p1, 2), CartItem(p2, 1)] by {
      assert !HasKey(c2, ItemId, p2.id);
    }
    TwoLineFigures(CartItem(p1, 2), CartItem(p2, 1));
  }

  /** A two-line basket totals its two line totals and counts its two
      quantities. */
  lemma TwoLineFigures(x: CartItem, y: CartItem)
    ensures CartTotal([x, y]) == LineTotal(x) + LineTotal(y)
    ensures CartCount([x, y]) == x.quantity + y.quantity
  {
    assert [x, y][1..] == [y] && [y][1..] == [];
    assert SumRight([y], LineTotal) == LineTotal(y) + SumRight([], LineTotal);
    assert SumRight([y], Quantity) == Quantity(y) + SumRight([], Quantity);
  }
}
