/**
 * A dog's card (src/components/dogs/DogCard.tsx): the cart button toggles the
 * dog in and out of the in-memory cart, and the heart button writes the
 * favourite remotely before telling its parent about the new state.
 */
module DogCard {
  import opened Domain
  import CartContent
  import Home

  /** `isInCart`: some cart entry has the dog's id. */
  function IsInCart(cart: seq<Dog>, dog: Dog): (b: bool)
    ensures b <==> exists i :: 0 <= i < |cart| && cart[i].id == dog.id
  {
    assert forall i :: 0 <= i < |cart| ==> Ids(cart)[i] == cart[i].id;
    HasId(cart, dog.id)
  }

  /** The cart button's text. */
  function CartButtonLabel(dog: Dog, inCart: bool): (text: string)
    ensures text == "Unavailable" <==> !dog.isAvailable
    ensures text == "Remove" <==> dog.isAvailable && inCart
    ensures text == "Add to Cart" <==> dog.isAvailable && !inCart
  {
    if dog.isAvailable then (if inCart then "Remove" else "Add to Cart") else "Unavailable"
  }

  /** The unit after the age: singular exactly for one year. */
  function AgeUnit(age: int): (unit: string)
    ensures unit == "yr" <==> age == 1
    ensures unit == "yr" || unit == "yrs"
  {
    if age == 1 then "yr" else "yrs"
  }

  /** The cart after `handleCartAction`. */
  function CartAfterAction(cart: seq<Dog>, dog: Dog): (r: seq<Dog>)
    ensures !dog.isAvailable ==> r == cart
    ensures dog.isAvailable ==> (HasId(r, dog.id) <==> !HasId(cart, dog.id))
    ensures dog.isAvailable && HasId(cart, dog.id) ==> Seqs.IsSubsequence(r, cart)
    ensures dog.isAvailable && HasId(cart, dog.id) ==> r == WithoutId(cart, dog.id)
    ensures forall d: Dog :: d.id != dog.id ==> multiset(r)[d] == multiset(cart)[d]
    ensures dog.isAvailable && !HasId(cart, dog.id) ==> |r| == |cart| + 1 && r[..|cart|] == cart && r[|cart|] == dog
  {
    if !dog.isAvailable then cart
    else if IsInCart(cart, dog) then WithoutId(cart, dog.id)
    else
      assert Ids(cart + [dog])[|cart|] == dog.id;
      cart + [dog]
  }

  /** Two actions on an available dog that starts outside the cart restore the cart. */
  lemma ActionTwiceRestores(cart: seq<Dog>, dog: Dog)
    requires !HasId(cart, dog.id)
    ensures CartAfterAction(CartAfterAction(cart, dog), dog) == cart
  {
    if dog.isAvailable {
      WithoutAppended(cart, dog);
    }
  }

  /** The action keeps the cart's ids distinct, whatever the dog's state. */
  lemma ActionKeepsUnique(cart: seq<Dog>, dog: Dog)
    requires UniqueIds(cart)
    ensures UniqueIds(CartAfterAction(cart, dog))
  {
    if dog.isAvailable {
      if HasId(cart, dog.id) {
        WithoutKeepsUnique(cart, dog.id);
      } else {
        AppendFreshKeepsUnique(cart, dog);
      }
    }
  }

  /** `handleCartAction` on the in-memory cart. */
  method HandleCartAction(dog: Dog, store: CartContent.CartProvider)
    modifies store
    ensures store.cart == CartAfterAction(old(store.cart), dog)
  {
    if !dog.isAvailable {
      return;
    }
    if IsInCart(store.cart, dog) {
      store.RemoveFromCart(dog.id);
    } else {
      store.AddToCart(dog);
    }
  }

  /** The remote favourites write the heart button issues. */
  datatype FavoriteCall = AddFavorite(userId: string, dogId: string) | RemoveFavorite(userId: string, dogId: string)

  /** The arguments `onToggleFavorite` receives. */
  datatype Callback = Callback(dogId: string, isFavorite: bool)

  /** What one press of the heart button does: the remote write issued and the callback invoked, if any. */
  datatype ToggleEffect = ToggleEffect(call: Option<FavoriteCall>, callback: Option<Callback>)

  /**
   * `handleToggleFavorite`; `remoteOk` is the outcome of the remote write.
   */
  function ToggleFavoriteEffect(user: Option<string>, dog: Dog, isFavorite: bool, remoteOk: bool): (e: ToggleEffect)
    ensures user.None? ==> e.call.None? && e.callback.None?
    ensures user.Some? ==> e.call.Some? && e.call.value.userId == user.value && e.call.value.dogId == dog.id
    ensures user.Some? ==> (e.call.value.RemoveFavorite? <==> isFavorite)
    ensures e.callback.Some? <==> user.Some? && remoteOk
    ensures e.callback.Some? ==> e.callback.value.dogId == dog.id && e.callback.value.isFavorite != isFavorite
  {
    match user
    case None => ToggleEffect(None, None)
    case Some(uid) =>
      var call := if isFavorite then RemoveFavorite(uid, dog.id) else AddFavorite(uid, dog.id);
      ToggleEffect(Some(call), if remoteOk then Some(Callback(dog.id, !isFavorite)) else None)
  }

  /**
   * With the card mounted as the catalog mounts it (`isFavorite` read from the
   * page's list, the callback bound to the page's toggle), a successful press
   * leaves the page's list holding the dog exactly when the callback said so.
   * This assumes no favourites snapshot reaches the page between the remote
   * write and the callback; one that did would already carry the new state, and
   * the page's toggle would then undo it.
   */
  lemma CallbackAgreesWithPage(favorites: seq<string>, user: string, dog: Dog)
    ensures var e := ToggleFavoriteEffect(Some(user), dog, dog.id in favorites, true);
      e.callback.Some? &&
      (dog.id in Home.ToggledFavorites(favorites, e.callback.value.dogId) <==> e.callback.value.isFavorite)
  {
  }
}
