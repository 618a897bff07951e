/**
 * The records of the storefront (src/types/user.ts) and the id-keyed list
 * operations that several components share.  Firestore timestamps
 * (`createdAt`, `updatedAt`) are not modelled.
 */
module Domain {
  import Seqs

  datatype Option<T> = None | Some(value: T)

  /** A dog listing. */
  datatype Dog = Dog(
    id: string,
    name: string,
    breed: string,
    age: int,
    price: real,
    description: string,
    images: seq<string>,
    isAvailable: bool)

  datatype PaymentMethod = Momo | PayPal | Card

  datatype OrderStatus = Pending | Completed | Cancelled

  /** A stored order; `items` holds dog ids. */
  datatype Order = Order(
    id: string,
    userId: string,
    items: seq<string>,
    total: real,
    paymentMethod: PaymentMethod,
    shippingAddress: string,
    status: OrderStatus)

  /** A JavaScript number that may be `Infinity`, as the price-range upper bound can be. */
  datatype Bound = Finite(value: real) | Infinity

  /** `cart.map(dog => dog.id)` */
  function Ids(cart: seq<Dog>): (ids: seq<string>)
    ensures |ids| == |cart|
    ensures forall i :: 0 <= i < |cart| ==> ids[i] == cart[i].id
  {
    seq(|cart|, i requires 0 <= i < |cart| => cart[i].id)
  }

  /** The ids of a cart with one more entry in front. */
  lemma IdsPrepend(d: Dog, cart: seq<Dog>)
    ensures Ids([d] + cart) == [d.id] + Ids(cart)
  {
  }

  /** `cart.some(item => item.id === id)` */
  predicate HasId(cart: seq<Dog>, id: string)
  {
    id in Ids(cart)
  }

  /** No two entries share an id: the set semantics the callers of `addToCart` maintain. */
  predicate UniqueIds(cart: seq<Dog>)
  {
    forall i, j :: 0 <= i < j < |cart| ==> cart[i].id != cart[j].id
  }

  function OtherId(id: string): Dog -> bool
  {
    (d: Dog) => d.id != id
  }

  /** `cart.filter(dog => dog.id !== id)` */
  function WithoutId(cart: seq<Dog>, id: string): (r: seq<Dog>)
    ensures !HasId(r, id)
    ensures Seqs.IsSubsequence(r, cart)
    ensures forall d: Dog :: d.id != id ==> multiset(r)[d] == multiset(cart)[d]
  {
    Seqs.FilterCounts(OtherId(id), cart);
    Seqs.Filter(OtherId(id), cart)
  }

  /** Removing an id that no entry has leaves the list as it was. */
  lemma WithoutAbsentId(cart: seq<Dog>, id: string)
    requires !HasId(cart, id)
    ensures WithoutId(cart, id) == cart
  {
    assert forall i :: 0 <= i < |cart| ==> Ids(cart)[i] == cart[i].id;
    Seqs.FilterKeepsAll(OtherId(id), cart);
  }

  /** Appending an entry with a fresh id and then removing that id restores the list. */
  lemma WithoutAppended(cart: seq<Dog>, d: Dog)
    requires !HasId(cart, d.id)
    ensures WithoutId(cart + [d], d.id) == cart
  {
    Seqs.FilterAppend(OtherId(d.id), cart, [d]);
    WithoutAbsentId(cart, d.id);
  }

  /** Removal keeps the ids distinct. */
  lemma WithoutKeepsUnique(cart: seq<Dog>, id: string)
    requires UniqueIds(cart)
    ensures UniqueIds(WithoutId(cart, id))
  {
    FilterKeepsUnique(OtherId(id), cart);
  }

  /** Any selection from a list with distinct ids has distinct ids. */
  lemma {:induction false} FilterKeepsUnique(p: Dog -> bool, cart: seq<Dog>)
    requires UniqueIds(cart)
    ensures UniqueIds(Seqs.Filter(p, cart))
  {
    if cart != [] {
      var t := cart[1..];
      var rest := Seqs.Filter(p, t);
      FilterKeepsUnique(p, t);
      if p(cart[0]) {
        var r := [cart[0]] + rest;
        assert Seqs.Filter(p, cart) == r;
        forall k | 0 <= k < |rest|
          ensures rest[k].id != cart[0].id
        {
          assert rest[k] in t;
          var j :| 0 <= j < |t| && t[j] == rest[k];
          assert cart[j + 1] == t[j];
        }
        forall i, j | 0 <= i < j < |r|
          ensures r[i].id != r[j].id
        {
          assert r[j] == rest[j - 1];
          if i > 0 {
            assert r[i] == rest[i - 1];
          }
        }
      }
    }
  }

  /** Appending an entry whose id is new keeps the ids distinct. */
  lemma AppendFreshKeepsUnique(cart: seq<Dog>, d: Dog)
    requires UniqueIds(cart) && !HasId(cart, d.id)
    ensures UniqueIds(cart + [d])
  {
    assert forall i :: 0 <= i < |cart| ==> Ids(cart)[i] == cart[i].id;
  }

  /** Appending an entry whose id is already present creates a duplicate id. */
  lemma AppendPresentDuplicates(cart: seq<Dog>, d: Dog)
    requires HasId(cart, d.id)
    ensures !UniqueIds(cart + [d])
  {
    var k :| 0 <= k < |cart| && Ids(cart)[k] == d.id;
    assert (cart + [d])[k].id == (cart + [d])[|cart|].id;
  }
}
