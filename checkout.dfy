/**
 * The checkout form (src/components/cart/Checkout.tsx): a searchable country
 * picker, a city field, three payment buttons, and the submission that
 * records an order for the persisted cart's contents and then clears that
 * cart.  The order write and the cart write are outcome parameters.
 */
module Checkout {
  import opened Domain
  import Seqs
  import Text
  import CartContext

  /** An entry of the country table. */
  datatype Country = Country(name: string, alpha2: string)

  /** The country the user picked. */
  datatype SelectedCountry = SelectedCountry(name: string, code: string)

  /** A new order as submitted; the database assigns its id. */
  datatype OrderDraft = OrderDraft(
    userId: string,
    items: seq<string>,
    total: real,
    paymentMethod: PaymentMethod,
    shippingAddress: string,
    status: OrderStatus)

  function HasCodes(): Country -> bool
  {
    (c: Country) => c.name != "" && c.alpha2 != ""
  }

  /** `allCountries`: the table's entries with a name and a code, in table order. */
  function AllCountries(table: seq<Country>): (r: seq<Country>)
    ensures forall i :: 0 <= i < |r| ==> r[i].name != "" && r[i].alpha2 != ""
    ensures forall c :: c in r <==> c in table && c.name != "" && c.alpha2 != ""
    ensures Seqs.IsSubsequence(r, table)
  {
    Seqs.Filter(HasCodes(), table)
  }

  /** The picker's test: the lower-cased query occurs in the lower-cased name or code. */
  function CountryTest(query: string): Country -> bool
  {
    (c: Country) => Text.Contains(Text.Lower(c.name), Text.Lower(query)) || Text.Contains(Text.Lower(c.alpha2), Text.Lower(query))
  }

  /** `filteredCountries` */
  function FilteredCountries(all: seq<Country>, query: string): (r: seq<Country>)
    ensures Seqs.IsSubsequence(r, all)
    ensures forall c :: c in r <==>
      c in all && (Text.Contains(Text.Lower(c.name), Text.Lower(query)) || Text.Contains(Text.Lower(c.alpha2), Text.Lower(query)))
    ensures forall c :: multiset(r)[c] == if CountryTest(query)(c) then multiset(all)[c] else 0
  {
    Seqs.FilterCounts(CountryTest(query), all);
    Seqs.Filter(CountryTest(query), all)
  }

  /** An empty query lists every country. */
  lemma EmptyQueryListsAll(all: seq<Country>)
    ensures FilteredCountries(all, "") == all
  {
    forall i | 0 <= i < |all|
      ensures CountryTest("")(all[i])
    {
      Text.ContainsEmpty(Text.Lower(all[i].name));
    }
    Seqs.FilterKeepsAll(CountryTest(""), all);
  }

  /** The search ignores case: queries that lower-case alike list the same countries. */
  lemma QueryIgnoresCase(all: seq<Country>, q1: string, q2: string)
    requires Text.Lower(q1) == Text.Lower(q2)
    ensures FilteredCountries(all, q1) == FilteredCountries(all, q2)
  {
    Seqs.FilterAgree(CountryTest(q1), CountryTest(q2), all);
  }

  /**
   * The submission's guard: a signed-in user, a chosen country and a city.  It
   * is looser than the MoMo button, which also needs a phone number, and for a
   * signed-in user it is exactly the PayPal and Card buttons' condition.
   */
  function CanSubmit(user: Option<string>, selected: Option<SelectedCountry>, city: string): (ok: bool)
    ensures ok ==> user.Some?
    ensures user.Some? ==> (ok <==> PayEnabled(PayPal, "", selected, city) && PayEnabled(Card, "", selected, city))
    ensures forall phone :: PayEnabled(Momo, phone, selected, city) && user.Some? ==> ok
  {
    user.Some? && selected.Some? && city != ""
  }

  /** Whether a payment button is enabled; the MoMo button also needs a phone number. */
  function PayEnabled(pm: PaymentMethod, phone: string, selected: Option<SelectedCountry>, city: string): (enabled: bool)
    ensures pm == Momo ==> (enabled <==> phone != "" && selected.Some? && city != "")
    ensures pm != Momo ==> (enabled <==> selected.Some? && city != "")
  {
    match pm
    case Momo => phone != "" && selected.Some? && city != ""
    case PayPal => selected.Some? && city != ""
    case Card => selected.Some? && city != ""
  }

  /** Every enabled pay button leads a signed-in user past the guard. */
  lemma EnabledButtonPassesGuard(pm: PaymentMethod, user: string, phone: string, selected: Option<SelectedCountry>, city: string)
    requires PayEnabled(pm, phone, selected, city)
    ensures CanSubmit(Some(user), selected, city)
  {
  }

  /** The MoMo button is the strictest: when it is enabled, so are the others. */
  lemma MomoStrictest(phone: string, selected: Option<SelectedCountry>, city: string)
    requires PayEnabled(Momo, phone, selected, city)
    ensures PayEnabled(PayPal, phone, selected, city) && PayEnabled(Card, phone, selected, city)
  {
  }

  /** The address line: the city, a comma and a space, then the country's name. */
  function ShippingAddress(city: string, countryName: string): (a: string)
    ensures |a| == |city| + 2 + |countryName|
    ensures a[..|city|] == city && a[|city|..|city| + 2] == ", " && a[|city| + 2..] == countryName
  {
    city + ", " + countryName
  }

  /** The order that the submission records. */
  function BuildOrder(userId: string, cart: seq<Dog>, total: real, chosen: Option<PaymentMethod>,
                      city: string, country: SelectedCountry): (o: OrderDraft)
    ensures o.userId == userId && o.total == total && o.status == Pending
    ensures |o.items| == |cart| && forall i :: 0 <= i < |cart| ==> o.items[i] == cart[i].id
    ensures o.paymentMethod == (if chosen.Some? then chosen.value else Card)
    ensures o.shippingAddress == ShippingAddress(city, country.name)
  {
    OrderDraft(userId, Ids(cart), total, if chosen.Some? then chosen.value else Card,
      ShippingAddress(city, country.name), Pending)
  }

  class CheckoutForm {
    var paymentMethod: Option<PaymentMethod>
    var dummyPhone: string
    var loading: bool
    var countryQuery: string
    var selectedCountry: Option<SelectedCountry>
    var city: string

    constructor ()
      ensures paymentMethod == None && dummyPhone == "" && !loading
      ensures countryQuery == "" && selectedCountry == None && city == ""
    {
      paymentMethod, dummyPhone, loading := None, "", false;
      countryQuery, selectedCountry, city := "", None, "";
    }

    method ChoosePaymentMethod(pm: PaymentMethod)
      modifies this`paymentMethod
      ensures paymentMethod == Some(pm)
    {
      paymentMethod := Some(pm);
    }

    method SetCountryQuery(query: string)
      modifies this`countryQuery
      ensures countryQuery == query
    {
      countryQuery := query;
    }

    method SetCity(value: string)
      modifies this`city
      ensures city == value
    {
      city := value;
    }

    method SetDummyPhone(value: string)
      modifies this`dummyPhone
      ensures dummyPhone == value
    {
      dummyPhone := value;
    }

    /** Picking a country from the list selects it and clears the search. */
    method SelectCountry(c: Country)
      modifies this`selectedCountry, this`countryQuery
      ensures selectedCountry == Some(SelectedCountry(c.name, c.alpha2))
      ensures countryQuery == ""
    {
      selectedCountry := Some(SelectedCountry(c.name, c.alpha2));
      countryQuery := "";
    }

    /**
     * `handleDummyPayment` for the signed-in user of `store`.  `submitted` is
     * the order handed to the database, `createOk` that write's outcome,
     * `clearOk` the outcome of clearing the stored cart, and `succeeded`
     * whether `onSuccess` runs.
     */
    method HandleDummyPayment(store: CartContext.CartStore, total: real, createOk: bool, clearOk: bool)
      returns (submitted: Option<OrderDraft>, succeeded: bool)
      modifies this`loading, store
      ensures !CanSubmit(store.user, selectedCountry, city) ==>
        submitted.None? && !succeeded && store.cart == old(store.cart) && loading == old(loading) &&
        store.error == old(store.error) && store.loading == old(store.loading)
      ensures CanSubmit(store.user, selectedCountry, city) ==>
        submitted == Some(BuildOrder(store.user.value, old(store.cart), total, paymentMethod, city, selectedCountry.value))
        && succeeded == createOk && !loading
      ensures CanSubmit(store.user, selectedCountry, city) && createOk && clearOk ==> store.cart == []
      ensures CanSubmit(store.user, selectedCountry, city) && !(createOk && clearOk) ==> store.cart == old(store.cart)
      ensures CanSubmit(store.user, selectedCountry, city) && !createOk ==>
        store.error == old(store.error) && store.loading == old(store.loading)
      ensures CanSubmit(store.user, selectedCountry, city) && createOk ==>
        !store.loading && store.error == (if clearOk then None else Some(CartContext.ClearFailed))
      ensures store.user == old(store.user)
    {
      submitted, succeeded := None, false;
      if !CanSubmit(store.user, selectedCountry, city) {
        return;
      }
      loading := true;
      submitted := Some(BuildOrder(store.user.value, store.cart, total, paymentMethod, city, selectedCountry.value));
      if createOk {
        store.ClearCart(clearOk);
        succeeded := true;
      }
      loading := false;
    }
  }
}
