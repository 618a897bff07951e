/**
 * The filter bar (src/components/layout/Tabs.tsx): the two price inputs, the
 * normalisation that turns them into the range handed to the page, the reset
 * button, the volume-discount banner and the results label.  The 500 ms
 * debounce is not modelled: `HandlePriceUpdate` is the moment the timer fires.
 */
module Tabs {
  import opened Domain
  import Text
  import Pricing
  import Home

  /** Text that `parseInt` reads completely: an optional minus sign and at least one digit. */
  predicate IsIntegerText(s: string)
  {
    |Magnitude(s)| > 0 && AllDigits(Magnitude(s))
  }

  /** The text after an optional leading minus sign. */
  function Magnitude(s: string): string
  {
    if |s| > 0 && s[0] == '-' then s[1..] else s
  }

  predicate AllDigits(s: string)
  {
    forall i :: 0 <= i < |s| ==> Text.IsDigit(s[i])
  }

  /** What a price input may hold: nothing, or an integer. */
  predicate IsPriceText(s: string)
  {
    s == "" || IsIntegerText(s)
  }

  function DigitsValue(s: string): (n: nat)
    requires AllDigits(s)
    ensures s == "" ==> n == 0
  {
    if s == [] then 0
    else
      assert Text.IsDigit(s[|s| - 1]);
      DigitsValue(s[..|s| - 1]) * 10 + (s[|s| - 1] as int - '0' as int)
  }

  /** `parseInt(s)` on integer text. */
  function ParseInt(s: string): (n: int)
    requires IsIntegerText(s)
    ensures s[0] != '-' ==> n >= 0
    ensures s[0] == '-' ==> n <= 0
  {
    var magnitude: int := DigitsValue(Magnitude(s));
    if s[0] == '-' then -magnitude else magnitude
  }

  /** The decimal text of a natural number, most significant digit first, as a number input holds it. */
  function DecimalText(n: nat): (s: string)
    ensures |s| > 0 && AllDigits(s)
  {
    var digit := ('0' as int + n % 10) as char;
    if n < 10 then [digit] else DecimalText(n / 10) + [digit]
  }

  /** The digits of a decimal text add up to its number. */
  lemma {:induction false} DigitsReadBack(n: nat)
    ensures DigitsValue(DecimalText(n)) == n
  {
    var s := DecimalText(n);
    if n < 10 {
      assert s[..0] == [];
    } else {
      DigitsReadBack(n / 10);
      assert s[..|s| - 1] == DecimalText(n / 10);
    }
  }

  /** `parseInt` reads back the decimal text of every integer, with or without a minus sign. */
  lemma ParseDecimalText(n: nat)
    ensures IsIntegerText(DecimalText(n)) && ParseInt(DecimalText(n)) == n
    ensures IsIntegerText("-" + DecimalText(n)) && ParseInt("-" + DecimalText(n)) == -(n as int)
  {
    var s := DecimalText(n);
    assert Text.IsDigit(s[0]);
    assert Magnitude(s) == s;
    assert Magnitude("-" + s) == s;
    DigitsReadBack(n);
  }

  function Max(a: int, b: int): int
  {
    if a >= b then a else b
  }

  /** The pair handed to `onPriceChange`. */
  datatype PriceRange = PriceRange(min: real, max: Bound)

  /**
   * The debounced update: an empty minimum means 0 and a negative one is raised
   * to 0; an empty maximum means Infinity and a maximum below the minimum is
   * raised to it.
   */
  function NormalizedRange(localMin: string, localMax: string): (r: PriceRange)
    requires IsPriceText(localMin) && IsPriceText(localMax)
    ensures r.min >= 0.0
    ensures localMin == "" ==> r.min == 0.0
    ensures localMin != "" ==> r.min == (if ParseInt(localMin) >= 0 then ParseInt(localMin) as real else 0.0)
    ensures r.max.Infinity? <==> localMax == ""
    ensures r.max.Finite? ==> r.max.value >= r.min
    ensures localMax != "" && ParseInt(localMax) as real >= r.min ==> r.max == Finite(ParseInt(localMax) as real)
    ensures localMax != "" && ParseInt(localMax) as real < r.min ==> r.max == Finite(r.min)
  {
    var min := if localMin != "" then Max(0, ParseInt(localMin)) else 0;
    var max := if localMax != "" then Finite(Max(min, ParseInt(localMax)) as real) else Infinity;
    PriceRange(min as real, max)
  }

  /** The two price inputs, which are local state of the bar. */
  class PriceInputs {
    var localMinPrice: string
    var localMaxPrice: string

    ghost predicate Valid()
      reads this
    {
      IsPriceText(localMinPrice) && IsPriceText(localMaxPrice)
    }

    /** At mount the page's price filter is empty, so both inputs start empty. */
    constructor ()
      ensures Valid() && localMinPrice == "" && localMaxPrice == ""
    {
      localMinPrice, localMaxPrice := "", "";
    }

    method SetLocalMinPrice(s: string)
      requires IsPriceText(s) && Valid()
      modifies this`localMinPrice
      ensures Valid() && localMinPrice == s
    {
      localMinPrice := s;
    }

    method SetLocalMaxPrice(s: string)
      requires IsPriceText(s) && Valid()
      modifies this`localMaxPrice
      ensures Valid() && localMaxPrice == s
    {
      localMaxPrice := s;
    }

    /** The timer callback of `handlePriceUpdate`: the range it emits. */
    method HandlePriceUpdate() returns (emitted: PriceRange)
      requires Valid()
      ensures emitted == NormalizedRange(localMinPrice, localMaxPrice)
      ensures emitted.min >= 0.0 && (emitted.max.Finite? ==> emitted.max.value >= emitted.min)
    {
      emitted := NormalizedRange(localMinPrice, localMaxPrice);
    }

    /** `handleResetPrices`: both inputs cleared, and 0 to Infinity emitted at once. */
    method HandleResetPrices() returns (emitted: PriceRange)
      modifies this
      ensures Valid() && localMinPrice == "" && localMaxPrice == ""
      ensures emitted == PriceRange(0.0, Infinity)
      ensures emitted == NormalizedRange(localMinPrice, localMaxPrice)
    {
      localMinPrice := "";
      localMaxPrice := "";
      emitted := PriceRange(0.0, Infinity);
    }
  }

  /** The "10% off with 3+" banner: up while the cart is non-empty and below the discount threshold. */
  function ShowDiscountBanner(cartCount: nat): (shown: bool)
    ensures shown <==> 0 < cartCount < Pricing.DiscountThreshold
  {
    cartCount > 0 && cartCount < Pricing.DiscountThreshold
  }

  /** The banner is up exactly while the cart is non-empty and earns no volume discount yet. */
  lemma BannerWhileNoDiscount(cart: seq<Dog>)
    requires Pricing.CartTotal(cart) > 0.0
    ensures ShowDiscountBanner(|cart|) <==> cart != [] && Pricing.Discount(cart, Pricing.CartTotal(cart)) == 0.0
  {
  }

  /** The results counter beside the price inputs. */
  datatype ResultsLabel = ShowingOf(filtered: nat, total: nat) | TotalAvailable(total: nat)

  function ResultsLabelFor(searchTerm: string, filteredResults: nat, totalResults: nat): (l: ResultsLabel)
    ensures l.ShowingOf? <==> searchTerm != ""
    ensures l.total == totalResults
    ensures l.ShowingOf? ==> l.filtered == filteredResults
  {
    if searchTerm != "" then ShowingOf(filteredResults, totalResults) else TotalAvailable(totalResults)
  }

  /**
   * A minimum of 500 with no maximum: once the page applies the emitted range,
   * exactly the dogs priced at 500 or more are shown, in their order.
   */
  lemma MinimumOnlyScenario(dogs: seq<Dog>, favorites: seq<string>)
    ensures NormalizedRange("500", "") == PriceRange(500.0, Infinity)
    ensures var shown := Home.DisplayedDogs(dogs, false, favorites, Home.PriceFilter(Some(500.0), Some(Infinity)));
      forall d :: d in shown <==> d in dogs && d.price >= 500.0
  {
    assert Magnitude("500") == "500";
    assert "500"[..2] == "50" && "50"[..1] == "5" && "5"[..0] == "";
  }
}
