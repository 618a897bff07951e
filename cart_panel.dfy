/**
 * The cart panel (src/components/cart/Cart.tsx): it lists the provider's
 * entries, sums their prices into a subtotal, and adds the tax and subtracts
 * the discount its caller passes in.
 */
module CartPanel {
  import opened Domain
  import Pricing
  import CartContent

  /** What the panel body shows: the empty message, or the entries and the totals block. */
  datatype Panel =
    | EmptyCart
    | Listing(items: seq<Dog>, subtotal: real, tax: real, discount: real, total: real)

  function Render(cart: seq<Dog>, tax: real, discount: real): (v: Panel)
    ensures v.EmptyCart? <==> cart == []
    ensures v.Listing? ==> v.items == cart && v.tax == tax && v.discount == discount
    ensures v.Listing? ==> v.subtotal == Pricing.CartTotal(cart) && v.subtotal == Pricing.PriceSum(cart)
    ensures v.Listing? ==> v.total == v.subtotal + v.tax - v.discount
    ensures v.Listing? && (forall i :: 0 <= i < |cart| ==> cart[i].price >= 0.0) ==> v.subtotal >= 0.0
  {
    if cart == [] then EmptyCart
    else
      var subtotal := Pricing.CartTotal(cart);
      Pricing.CartTotalIsPriceSum(cart);
      Listing(cart, subtotal, tax, discount, subtotal + tax - discount)
  }

  /**
   * The panel as the catalogue page mounts it (src/pages/public/Home.tsx), with
   * the tax and discount computed from the same provider's cart it lists.
   */
  function RenderPriced(cart: seq<Dog>): (v: Panel)
    ensures v.Listing? ==> v.subtotal == Pricing.CartTotal(cart)
    ensures v.Listing? ==> v.total == (if |cart| < Pricing.DiscountThreshold then 1.07 else 0.97) * v.subtotal
    ensures v.Listing? && (forall i :: 0 <= i < |cart| ==> cart[i].price >= 0.0) ==> v.total >= 0.0
  {
    var s := Pricing.CartTotal(cart);
    Pricing.AmountDue(cart);
    Render(cart, Pricing.Tax(s), Pricing.Discount(cart, s))
  }

  /**
   * The panel as src/App.tsx mounts it.  App reads the cart with `useCart()`
   * outside the `CartProvider` it renders, so it gets the context's default
   * value, whose cart is always empty; the tax and discount it passes are those
   * of an empty cart, while the panel lists the provider's cart.
   */
  function RenderAppMount(cart: seq<Dog>): (v: Panel)
    ensures v.EmptyCart? <==> cart == []
    ensures v.Listing? ==> v.items == cart && v.subtotal == Pricing.CartTotal(cart)
    ensures v.Listing? ==> v.tax == 0.0 && v.discount == 0.0 && v.total == v.subtotal
  {
    var appCart: seq<Dog> := [];
    var s := Pricing.CartTotal(appCart);
    Render(cart, Pricing.Tax(s), Pricing.Discount(appCart, s))
  }

  /**
   * The two mounts disagree on every cart with a positive subtotal: App's panel
   * shows no tax and no discount, so its total is the bare subtotal.
   */
  lemma AppMountDisagrees(cart: seq<Dog>)
    requires Pricing.CartTotal(cart) > 0.0
    ensures RenderAppMount(cart).Listing? && RenderPriced(cart).Listing?
    ensures RenderAppMount(cart).total == Pricing.CartTotal(cart)
    ensures RenderPriced(cart).total != RenderAppMount(cart).total
  {
  }

  /** Three dogs priced 750, 900 and 850: subtotal 2500, tax 175, discount 250, total 2425. */
  lemma ThreeDogScenario(a: Dog, b: Dog, c: Dog)
    requires a.price == 750.0 && b.price == 900.0 && c.price == 850.0
    ensures RenderPriced([a, b, c]) == Listing([a, b, c], 2500.0, 175.0, 250.0, 2425.0)
  {
    assert [a, b, c][..2] == [a, b];
    assert [a, b][..1] == [a];
    assert [a][..0] == [];
    assert Pricing.CartTotal([a]) == 750.0;
    assert Pricing.CartTotal([a, b]) == 1650.0;
    assert Pricing.CartTotal([a, b, c]) == 2500.0;
  }

  /** The remove button of the entry at `k` removes that entry's id, and only entries with it. */
  method RemoveEntry(store: CartContent.CartProvider, k: nat)
    requires k < |store.cart|
    modifies store
    ensures store.cart == WithoutId(old(store.cart), old(store.cart)[k].id)
    ensures !HasId(store.cart, old(store.cart)[k].id)
  {
    store.RemoveFromCart(store.cart[k].id);
  }
}
