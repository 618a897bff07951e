/**
 * The persisted cart provider (src/context/CartContext.tsx).  Every mutation
 * needs a signed-in user, writes the user's document first and changes the
 * local cart only after that write succeeded; the loader rebuilds the cart from
 * the stored ids, silently dropping ids whose dog document no longer exists.
 * Each remote read or write is reduced to its outcome, passed in as a parameter.
 */
module CartContext {
  import opened Domain
  import Seqs

  const LoginToAdd := "You must be logged in to add to cart"
  const LoginToRemove := "You must be logged in to remove from cart"
  const LoginToClear := "You must be logged in to clear cart"
  const LoadFailed := "Failed to load cart"
  const AddFailed := "Failed to add to cart"
  const RemoveFailed := "Failed to remove from cart"
  const ClearFailed := "Failed to clear cart"

  /**
   * What the loader's reads deliver: a failure of one of them, or the `cart`
   * field of the user document (absent when the document or the field is) and
   * the dog documents that exist, keyed by document id.
   */
  datatype CartFetch = FetchFailed | Fetched(storedIds: Option<seq<string>>, dogDocs: map<string, Dog>)

  function Found(docs: map<string, Dog>): string -> bool
  {
    (id: string) => id in docs
  }

  /**
   * The dog records built from the documents that exist, in stored order; each
   * takes its id from its document's id.
   */
  function Resolve(ids: seq<string>, docs: map<string, Dog>): (r: seq<Dog>)
    ensures Ids(r) == Seqs.Filter(Found(docs), ids)
    ensures forall i :: 0 <= i < |r| ==> r[i].id in docs && r[i] == docs[r[i].id].(id := r[i].id)
  {
    if ids == [] then []
    else
      var rest := Resolve(ids[1..], docs);
      if ids[0] in docs then
        var d := docs[ids[0]].(id := ids[0]);
        IdsPrepend(d, rest);
        [d] + rest
      else rest
  }

  /** When every stored id still resolves, the cart lists exactly the stored ids in stored order. */
  lemma ResolveAllFound(ids: seq<string>, docs: map<string, Dog>)
    requires forall i :: 0 <= i < |ids| ==> ids[i] in docs
    ensures Ids(Resolve(ids, docs)) == ids
  {
    Seqs.FilterKeepsAll(Found(docs), ids);
  }

  /** Stored ids without repetition (as `arrayUnion` keeps them) load into a cart with distinct ids. */
  lemma {:induction false} ResolveUnique(ids: seq<string>, docs: map<string, Dog>)
    requires forall i, j :: 0 <= i < j < |ids| ==> ids[i] != ids[j]
    ensures UniqueIds(Resolve(ids, docs))
  {
    if ids != [] {
      var rest := Resolve(ids[1..], docs);
      ResolveUnique(ids[1..], docs);
      if ids[0] in docs {
        var d := docs[ids[0]].(id := ids[0]);
        assert Ids(rest) == Seqs.Filter(Found(docs), ids[1..]);
        assert ids[0] !in ids[1..];
        assert forall k :: 0 <= k < |rest| ==> Ids(rest)[k] in ids[1..];
        var r := [d] + rest;
        forall i, j | 0 <= i < j < |r|
          ensures r[i].id != r[j].id
        {
          assert r[j] == rest[j - 1];
          if i > 0 {
            assert r[i] == rest[i - 1];
          } else {
            assert Ids(rest)[j - 1] == rest[j - 1].id;
          }
        }
      }
    }
  }

  class CartStore {
    /** The signed-in user's id, if any. */
    var user: Option<string>
    var cart: seq<Dog>
    var loading: bool
    var error: Option<string>

    constructor (user: Option<string>)
      ensures this.user == user && cart == [] && loading && error == None
    {
      this.user := user;
      cart, loading, error := [], true, None;
    }

    /** `loadCart`, run whenever the user changes. */
    method LoadCart(fetch: CartFetch)
      modifies this`cart, this`loading, this`error
      ensures user.None? ==> cart == [] && error == old(error)
      ensures user.Some? && fetch.Fetched? ==>
        var ids := if fetch.storedIds.Some? then fetch.storedIds.value else [];
        cart == Resolve(ids, fetch.dogDocs) && error == None
      ensures user.Some? && fetch.FetchFailed? ==> cart == old(cart) && error == Some(LoadFailed)
      ensures !loading
    {
      if user.None? {
        cart := [];
        loading := false;
        return;
      }
      loading := true;
      match fetch {
        case FetchFailed =>
          error := Some(LoadFailed);
        case Fetched(storedIds, dogDocs) =>
          var ids := if storedIds.Some? then storedIds.value else [];
          cart := Resolve(ids, dogDocs);
          error := None;
      }
      loading := false;
    }

    /**
     * The effect on `[user]`: the provider takes the new user and reloads, so a
     * sign-out empties the cart and a sign-in loads that user's stored cart.
     */
    method OnUserChange(newUser: Option<string>, fetch: CartFetch)
      modifies this`user, this`cart, this`loading, this`error
      ensures user == newUser
      ensures newUser.None? ==> cart == [] && error == old(error)
      ensures newUser.Some? && fetch.Fetched? ==>
        var ids := if fetch.storedIds.Some? then fetch.storedIds.value else [];
        cart == Resolve(ids, fetch.dogDocs) && error == None
      ensures newUser.Some? && fetch.FetchFailed? ==> cart == old(cart) && error == Some(LoadFailed)
      ensures !loading
    {
      user := newUser;
      LoadCart(fetch);
    }

    /** `addToCart`: `writeOk` is the outcome of the `arrayUnion` write. */
    method AddToCart(dog: Dog, writeOk: bool)
      modifies this`cart, this`loading, this`error
      ensures user.None? ==> cart == old(cart) && loading == old(loading) && error == Some(LoginToAdd)
      ensures user.Some? && writeOk ==> cart == old(cart) + [dog] && error == None && !loading
      ensures user.Some? && !writeOk ==> cart == old(cart) && error == Some(AddFailed) && !loading
    {
      if user.None? {
        error := Some(LoginToAdd);
        return;
      }
      loading := true;
      if writeOk {
        cart := cart + [dog];
        error := None;
      } else {
        error := Some(AddFailed);
      }
      loading := false;
    }

    /** `removeFromCart`: `writeOk` is the outcome of the `arrayRemove` write. */
    method RemoveFromCart(dogId: string, writeOk: bool)
      modifies this`cart, this`loading, this`error
      ensures user.None? ==> cart == old(cart) && loading == old(loading) && error == Some(LoginToRemove)
      ensures user.Some? && writeOk ==> cart == WithoutId(old(cart), dogId) && error == None && !loading
      ensures user.Some? && !writeOk ==> cart == old(cart) && error == Some(RemoveFailed) && !loading
    {
      if user.None? {
        error := Some(LoginToRemove);
        return;
      }
      loading := true;
      if writeOk {
        cart := WithoutId(cart, dogId);
        error := None;
      } else {
        error := Some(RemoveFailed);
      }
      loading := false;
    }

    /** `clearCart`: `writeOk` is the outcome of writing the empty list. */
    method ClearCart(writeOk: bool)
      modifies this`cart, this`loading, this`error
      ensures user.None? ==> cart == old(cart) && loading == old(loading) && error == Some(LoginToClear)
      ensures user.Some? && writeOk ==> cart == [] && error == None && !loading
      ensures user.Some? && !writeOk ==> cart == old(cart) && error == Some(ClearFailed) && !loading
    {
      if user.None? {
        error := Some(LoginToClear);
        return;
      }
      loading := true;
      if writeOk {
        cart := [];
        error := None;
      } else {
        error := Some(ClearFailed);
      }
      loading := false;
    }
  }
}
