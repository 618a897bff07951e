/**
 * Cart pricing.  src/pages/public/Home.tsx:140-142 and src/App.tsx:26-28 write
 * the same three expressions; they are defined once here.  (Which cart App.tsx
 * applies them to is a separate matter, taken up in the cart panel.)
 * JavaScript numbers are modelled as exact reals.
 */
module Pricing {
  import opened Domain

  const TaxRate: real := 0.07
  const DiscountRate: real := 0.1
  /** The number of cart entries from which the volume discount applies. */
  const DiscountThreshold: nat := 3

  /** `cart.reduce((sum, item) => sum + item.price, 0)`, folded from the left. */
  function CartTotal(cart: seq<Dog>): (r: real)
    ensures cart == [] ==> r == 0.0
    ensures (forall i :: 0 <= i < |cart| ==> cart[i].price >= 0.0) ==> r >= 0.0
  {
    if cart == [] then 0.0 else CartTotal(cart[..|cart| - 1]) + cart[|cart| - 1].price
  }

  /** `cartTotal * 0.07`: seven hundredths of the subtotal, never more than it for a non-negative one. */
  function Tax(cartTotal: real): (t: real)
    ensures 100.0 * t == 7.0 * cartTotal
    ensures cartTotal >= 0.0 ==> 0.0 <= t <= cartTotal
    ensures t == 0.0 <==> cartTotal == 0.0
  {
    cartTotal * TaxRate
  }

  /**
   * `cart.length >= 3 ? cartTotal * 0.1 : 0`: nothing below three entries, a
   * tenth of the subtotal from three entries on.
   */
  function Discount(cart: seq<Dog>, cartTotal: real): (d: real)
    ensures |cart| < DiscountThreshold ==> d == 0.0
    ensures |cart| >= DiscountThreshold ==> 10.0 * d == cartTotal
    ensures cartTotal > 0.0 ==> (d > 0.0 <==> |cart| >= DiscountThreshold)
    ensures cartTotal >= 0.0 ==> 0.0 <= d <= cartTotal
  {
    if |cart| >= DiscountThreshold then cartTotal * DiscountRate else 0.0
  }

  /** The total of two carts laid end to end is the sum of their totals. */
  lemma {:induction false} CartTotalAppend(a: seq<Dog>, b: seq<Dog>)
    ensures CartTotal(a + b) == CartTotal(a) + CartTotal(b)
    decreases |b|
  {
    if b != [] {
      var b' := b[..|b| - 1];
      assert (a + b)[..|a + b| - 1] == a + b';
      CartTotalAppend(a, b');
    } else {
      assert a + b == a;
    }
  }

  /** The sum of the prices, taken from the front: an independent statement of what the fold adds up. */
  function PriceSum(cart: seq<Dog>): real
  {
    if cart == [] then 0.0 else cart[0].price + PriceSum(cart[1..])
  }

  /** The left fold adds up exactly the prices of the entries. */
  lemma {:induction false} CartTotalIsPriceSum(cart: seq<Dog>)
    ensures CartTotal(cart) == PriceSum(cart)
  {
    if cart != [] {
      CartTotalIsPriceSum(cart[1..]);
      CartTotalAppend([cart[0]], cart[1..]);
      assert [cart[0]] + cart[1..] == cart;
      assert [cart[0]][..0] == [];
    }
  }

  /** Adding a dog raises the total by its price; removing an id lowers it by the prices removed. */
  lemma CartTotalAfterRemove(cart: seq<Dog>, d: Dog)
    requires !HasId(cart, d.id)
    ensures CartTotal(WithoutId(cart + [d], d.id)) == CartTotal(cart + [d]) - d.price
  {
    WithoutAppended(cart, d);
    assert (cart + [d])[..|cart|] == cart;
  }

  /**
   * With the tax and discount the storefront passes to the cart panel, the
   * amount due is 107% of the subtotal below three entries and 97% from three on,
   * and it is never negative when no price is.
   */
  lemma AmountDue(cart: seq<Dog>)
    ensures var s := CartTotal(cart);
      s + Tax(s) - Discount(cart, s) == (if |cart| < DiscountThreshold then 1.07 * s else 0.97 * s)
    ensures (forall i :: 0 <= i < |cart| ==> cart[i].price >= 0.0) ==>
      var s := CartTotal(cart); s + Tax(s) - Discount(cart, s) >= 0.0
  {
  }

  /** The discount is granted exactly from the third entry on (for a positive subtotal). */
  lemma DiscountThresholdExact(cart: seq<Dog>)
    requires CartTotal(cart) > 0.0
    ensures Discount(cart, CartTotal(cart)) > 0.0 <==> |cart| >= DiscountThreshold
    ensures |cart| >= DiscountThreshold ==> Discount(cart, CartTotal(cart)) == CartTotal(cart) / 10.0
  {
  }
}
