/**
 * The in-memory cart provider (src/context/CartContent.tsx), the one the
 * application mounts.  Its single `cart` state is replaced by an append on
 * `addToCart` and by a filter on `removeFromCart`; neither deduplicates.
 */
module CartContent {
  import opened Domain

  class CartProvider {
    var cart: seq<Dog>

    /** The cart starts empty. */
    constructor ()
      ensures cart == []
    {
      cart := [];
    }

    /** `setCart(prev => [...prev, dog])` */
    method AddToCart(dog: Dog)
      modifies this
      ensures cart == old(cart) + [dog]
      ensures |cart| == |old(cart)| + 1 && cart[..|old(cart)|] == old(cart)
    {
      cart := cart + [dog];
    }

    /** `setCart(prev => prev.filter(dog => dog.id !== dogId))` */
    method RemoveFromCart(dogId: string)
      modifies this
      ensures cart == WithoutId(old(cart), dogId)
      ensures !HasId(old(cart), dogId) ==> cart == old(cart)
    {
      if !HasId(cart, dogId) {
        WithoutAbsentId(cart, dogId);
      }
      cart := WithoutId(cart, dogId);
    }
  }

  /** An add followed by a remove of the same fresh id leaves the provider as it was. */
  method AddThenRemove(p: CartProvider, dog: Dog)
    requires !HasId(p.cart, dog.id)
    modifies p
    ensures p.cart == old(p.cart)
  {
    p.AddToCart(dog);
    p.RemoveFromCart(dog.id);
    WithoutAppended(old(p.cart), dog);
  }
}
