/**
 * The catalogue page (src/pages/public/Home.tsx): the tab query, the
 * case-insensitive text search, the favourites-only and price restrictions that
 * derive the displayed dogs, the local favourites toggle and the guarded
 * add-to-cart.  The catalogue query, the favourites snapshot listener and the
 * count query are modelled by the results they deliver.
 */
module Home {
  import opened Domain
  import Seqs
  import Text
  import CartContent

  datatype Tab = All | Available | Puppies | Adults

  /** The `where` clause the catalogue query adds for each tab. */
  predicate InTab(tab: Tab, d: Dog)
  {
    match tab
    case All => true
    case Available => d.isAvailable
    case Puppies => d.age <= 1
    case Adults => d.age > 1
  }

  function TabTest(tab: Tab): Dog -> bool
  {
    (d: Dog) => InTab(tab, d)
  }

  /** The dogs the catalogue query returns for the active tab, in catalogue order. */
  function TabQuery(catalog: seq<Dog>, tab: Tab): (r: seq<Dog>)
    ensures Seqs.IsSubsequence(r, catalog)
    ensures forall d :: d in r <==> d in catalog && InTab(tab, d)
    ensures tab == All ==> r == catalog
    ensures forall d :: multiset(r)[d] == if InTab(tab, d) then multiset(catalog)[d] else 0
  {
    Seqs.FilterCounts(TabTest(tab), catalog);
    if tab == All then Seqs.FilterKeepsAll(TabTest(tab), catalog); Seqs.Filter(TabTest(tab), catalog)
    else Seqs.Filter(TabTest(tab), catalog)
  }

  /** Puppies (age at most one) and Adults (older) split any list of dogs between them. */
  lemma PuppiesAdultsPartition(dogs: seq<Dog>)
    ensures |TabQuery(dogs, Puppies)| + |TabQuery(dogs, Adults)| == |dogs|
    ensures multiset(TabQuery(dogs, Puppies)) + multiset(TabQuery(dogs, Adults)) == multiset(dogs)
  {
    Seqs.FilterPartition(TabTest(Puppies), TabTest(Adults), dogs);
  }

  /** The lower-cased name or breed contains the lower-cased search term. */
  predicate MatchesSearch(d: Dog, term: string)
  {
    Text.Contains(Text.Lower(d.name), Text.Lower(term)) ||
    Text.Contains(Text.Lower(d.breed), Text.Lower(term))
  }

  function SearchTest(term: string): Dog -> bool
  {
    (d: Dog) => MatchesSearch(d, term)
  }

  /** The text filter applied to the fetched dogs. */
  function SearchFilter(dogs: seq<Dog>, term: string): (r: seq<Dog>)
    ensures Seqs.IsSubsequence(r, dogs)
    ensures forall d :: d in r <==> d in dogs && MatchesSearch(d, term)
    ensures term == "" ==> r == dogs
    ensures forall d :: multiset(r)[d] == if MatchesSearch(d, term) then multiset(dogs)[d] else 0
  {
    EmptyTermMatchesAll(dogs, term);
    Seqs.FilterCounts(SearchTest(term), dogs);
    Seqs.Filter(SearchTest(term), dogs)
  }

  lemma EmptyTermMatchesAll(dogs: seq<Dog>, term: string)
    ensures term == "" ==> Seqs.Filter(SearchTest(term), dogs) == dogs
  {
    if term == "" {
      forall i | 0 <= i < |dogs|
        ensures SearchTest(term)(dogs[i])
      {
        Text.ContainsEmpty(Text.Lower(dogs[i].name));
      }
      Seqs.FilterKeepsAll(SearchTest(term), dogs);
    }
  }

  /** The `dogs` state after a successful fetch for a tab and a search term. */
  function FetchedDogs(catalog: seq<Dog>, tab: Tab, term: string): (r: seq<Dog>)
    ensures Seqs.IsSubsequence(r, catalog)
    ensures forall d :: d in r <==> d in catalog && InTab(tab, d) && MatchesSearch(d, term)
    ensures |r| <= |TabQuery(catalog, tab)|
  {
    var tabbed := TabQuery(catalog, tab);
    Seqs.SubsequenceTransitive(SearchFilter(tabbed, term), tabbed, catalog);
    SearchFilter(tabbed, term)
  }

  /** `priceFilter`: each bound is either undefined or a number (the maximum may be Infinity). */
  datatype PriceFilter = PriceFilter(min: Option<real>, max: Option<Bound>)

  predicate WithinPrice(pf: PriceFilter, d: Dog)
  {
    && (pf.min.None? || d.price >= pf.min.value)
    && (pf.max.None? || pf.max.value.Infinity? || d.price <= pf.max.value.value)
  }

  function PriceTest(pf: PriceFilter): Dog -> bool
  {
    (d: Dog) => WithinPrice(pf, d)
  }

  function FavoriteTest(favorites: seq<string>): Dog -> bool
  {
    (d: Dog) => d.id in favorites
  }

  /** The favourites-only restriction, when it is switched on. */
  function FavoritesOnly(dogs: seq<Dog>, showFavorites: bool, favorites: seq<string>): seq<Dog>
  {
    if showFavorites then Seqs.Filter(FavoriteTest(favorites), dogs) else dogs
  }

  /** A fetched dog passes both of the page's restrictions. */
  predicate Shown(showFavorites: bool, favorites: seq<string>, pf: PriceFilter, d: Dog)
  {
    (showFavorites ==> d.id in favorites) && WithinPrice(pf, d)
  }

  /** The two-stage pipeline keeps every copy of a passing dog and no copy of another. */
  lemma DisplayedCounts(dogs: seq<Dog>, showFavorites: bool, favorites: seq<string>, pf: PriceFilter)
    ensures var r := Seqs.Filter(PriceTest(pf), FavoritesOnly(dogs, showFavorites, favorites));
      forall d :: multiset(r)[d] == if Shown(showFavorites, favorites, pf, d) then multiset(dogs)[d] else 0
  {
    Seqs.FilterCounts(FavoriteTest(favorites), dogs);
    Seqs.FilterCounts(PriceTest(pf), FavoritesOnly(dogs, showFavorites, favorites));
  }

  /** `displayedDogs`: the favourites restriction, then the price window. */
  function DisplayedDogs(dogs: seq<Dog>, showFavorites: bool, favorites: seq<string>, pf: PriceFilter): (r: seq<Dog>)
    ensures Seqs.IsSubsequence(r, dogs)
    ensures forall d :: d in r <==> d in dogs && (showFavorites ==> d.id in favorites) && WithinPrice(pf, d)
    ensures showFavorites ==> forall i :: 0 <= i < |r| ==> r[i].id in favorites
    ensures forall i :: 0 <= i < |r| ==>
      (pf.min.Some? ==> pf.min.value <= r[i].price) &&
      (pf.max.Some? && pf.max.value.Finite? ==> r[i].price <= pf.max.value.value)
    ensures !showFavorites && pf == PriceFilter(None, None) ==> r == dogs
    ensures forall d :: multiset(r)[d] == if Shown(showFavorites, favorites, pf, d) then multiset(dogs)[d] else 0
  {
    DisplayedOrderAndIdentity(dogs, showFavorites, favorites, pf);
    DisplayedCounts(dogs, showFavorites, favorites, pf);
    Seqs.Filter(PriceTest(pf), FavoritesOnly(dogs, showFavorites, favorites))
  }

  lemma DisplayedOrderAndIdentity(dogs: seq<Dog>, showFavorites: bool, favorites: seq<string>, pf: PriceFilter)
    ensures Seqs.IsSubsequence(Seqs.Filter(PriceTest(pf), FavoritesOnly(dogs, showFavorites, favorites)), dogs)
    ensures !showFavorites && pf == PriceFilter(None, None) ==>
      Seqs.Filter(PriceTest(pf), FavoritesOnly(dogs, showFavorites, favorites)) == dogs
  {
    var base := FavoritesOnly(dogs, showFavorites, favorites);
    var r := Seqs.Filter(PriceTest(pf), base);
    if showFavorites {
      Seqs.SubsequenceTransitive(r, base, dogs);
    }
    if !showFavorites && pf == PriceFilter(None, None) {
      Seqs.FilterKeepsAll(PriceTest(pf), dogs);
    }
  }

  /** Applying the favourites restriction and the price window in either order gives the same list. */
  lemma FavoritesPriceCommute(dogs: seq<Dog>, favorites: seq<string>, pf: PriceFilter)
    ensures Seqs.Filter(PriceTest(pf), Seqs.Filter(FavoriteTest(favorites), dogs))
         == Seqs.Filter(FavoriteTest(favorites), Seqs.Filter(PriceTest(pf), dogs))
  {
    Seqs.FilterCommutes(PriceTest(pf), FavoriteTest(favorites), dogs);
  }

  /** Every criterion of the page at once. */
  predicate MeetsAll(tab: Tab, term: string, showFavorites: bool, favorites: seq<string>, pf: PriceFilter, d: Dog)
  {
    InTab(tab, d) && MatchesSearch(d, term) && (showFavorites ==> d.id in favorites) && WithinPrice(pf, d)
  }

  function AllTest(tab: Tab, term: string, showFavorites: bool, favorites: seq<string>, pf: PriceFilter): Dog -> bool
  {
    (d: Dog) => MeetsAll(tab, term, showFavorites, favorites, pf, d)
  }

  /**
   * The whole pipeline (tab query, text search, favourites, price window) selects
   * exactly the catalogue dogs meeting the conjunction of the criteria, in catalogue
   * order; since conjunction is commutative, the order of the four filters does not matter.
   */
  lemma {:induction false} PipelineIsConjunction(catalog: seq<Dog>, tab: Tab, term: string,
                                                showFavorites: bool, favorites: seq<string>, pf: PriceFilter)
    ensures DisplayedDogs(FetchedDogs(catalog, tab, term), showFavorites, favorites, pf)
         == Seqs.Filter(AllTest(tab, term, showFavorites, favorites, pf), catalog)
  {
    var tabbed := Seqs.Filter(TabTest(tab), catalog);
    var searched := Seqs.Filter(SearchTest(term), tabbed);
    var tabSearch := (d: Dog) => InTab(tab, d) && MatchesSearch(d, term);
    Seqs.FilterFuse(SearchTest(term), TabTest(tab), tabSearch, catalog);
    if tab == All {
      Seqs.FilterKeepsAll(TabTest(tab), catalog);
    }
    assert FetchedDogs(catalog, tab, term) == Seqs.Filter(tabSearch, catalog);
    if showFavorites {
      var tsf := (d: Dog) => InTab(tab, d) && MatchesSearch(d, term) && d.id in favorites;
      Seqs.FilterFuse(FavoriteTest(favorites), tabSearch, tsf, catalog);
      Seqs.FilterFuse(PriceTest(pf), tsf, AllTest(tab, term, showFavorites, favorites, pf), catalog);
    } else {
      Seqs.FilterFuse(PriceTest(pf), tabSearch, AllTest(tab, term, showFavorites, favorites, pf), catalog);
    }
  }

  /** The range emitted by the price reset (0 to Infinity) hides no dog with a non-negative price. */
  lemma ResetRangeShowsAll(dogs: seq<Dog>, favorites: seq<string>)
    requires forall i :: 0 <= i < |dogs| ==> dogs[i].price >= 0.0
    ensures DisplayedDogs(dogs, false, favorites, PriceFilter(Some(0.0), Some(Infinity))) == dogs
  {
    Seqs.FilterKeepsAll(PriceTest(PriceFilter(Some(0.0), Some(Infinity))), dogs);
  }

  /** The count shown next to the tabs can never be below the number of dogs displayed. */
  lemma DisplayedWithinTotal(catalog: seq<Dog>, tab: Tab, term: string,
                             showFavorites: bool, favorites: seq<string>, pf: PriceFilter)
    ensures |DisplayedDogs(FetchedDogs(catalog, tab, term), showFavorites, favorites, pf)| <= |TabQuery(catalog, tab)|
  {
  }

  function OtherString(id: string): string -> bool
  {
    (x: string) => x != id
  }

  /** `toggleFavorite`: drop every occurrence of a present id, append an absent one. */
  function ToggledFavorites(favorites: seq<string>, id: string): (r: seq<string>)
    ensures id in r <==> id !in favorites
    ensures forall x :: x != id ==> multiset(r)[x] == multiset(favorites)[x]
    ensures id in favorites ==> Seqs.IsSubsequence(r, favorites)
    ensures id !in favorites ==> |r| == |favorites| + 1 && r[..|favorites|] == favorites && r[|favorites|] == id
  {
    if id in favorites then
      Seqs.FilterCounts(OtherString(id), favorites);
      Seqs.Filter(OtherString(id), favorites)
    else favorites + [id]
  }

  /** Toggling an absent id twice restores the list. */
  lemma ToggleTwiceRestores(favorites: seq<string>, id: string)
    requires id !in favorites
    ensures ToggledFavorites(ToggledFavorites(favorites, id), id) == favorites
  {
    Seqs.FilterAppend(OtherString(id), favorites, [id]);
    Seqs.FilterKeepsAll(OtherString(id), favorites);
  }

  /** The page state that the handlers change. */
  class HomePage {
    var dogs: seq<Dog>
    var loading: bool
    var activeTab: Tab
    var isCartOpen: bool
    var totalResults: nat
    var showFavorites: bool
    var favorites: seq<string>
    var priceFilter: PriceFilter
    const store: CartContent.CartProvider

    constructor (store: CartContent.CartProvider)
      ensures this.store == store
      ensures dogs == [] && loading && activeTab == All && !isCartOpen && totalResults == 0
      ensures !showFavorites && favorites == [] && priceFilter == PriceFilter(None, None)
    {
      this.store := store;
      dogs, loading, activeTab, isCartOpen, totalResults := [], true, All, false, 0;
      showFavorites, favorites, priceFilter := false, [], PriceFilter(None, None);
    }

    /** `fetchDogs`: a failed query leaves the previous dogs in place. */
    method FetchDogs(catalog: Option<seq<Dog>>, searchTerm: string)
      modifies this`dogs, this`loading
      ensures catalog.Some? ==> dogs == FetchedDogs(catalog.value, activeTab, searchTerm)
      ensures catalog.None? ==> dogs == old(dogs)
      ensures !loading
    {
      loading := true;
      if catalog.Some? {
        dogs := FetchedDogs(catalog.value, activeTab, searchTerm);
      }
      loading := false;
    }

    /** `fetchTotalCount`: the count query for the active tab; a failed query changes nothing. */
    method FetchTotalCount(catalog: Option<seq<Dog>>)
      modifies this`totalResults
      ensures catalog.Some? ==> totalResults == |TabQuery(catalog.value, activeTab)|
      ensures catalog.None? ==> totalResults == old(totalResults)
    {
      if catalog.Some? {
        totalResults := |TabQuery(catalog.value, activeTab)|;
      }
    }

    method SetActiveTab(tab: Tab)
      modifies this`activeTab
      ensures activeTab == tab
    {
      activeTab := tab;
    }

    /** The favourites snapshot listener: a missing document or field gives no favourites. */
    method OnFavoritesSnapshot(dogIds: Option<seq<string>>)
      modifies this`favorites
      ensures favorites == (if dogIds.Some? then dogIds.value else [])
    {
      favorites := if dogIds.Some? then dogIds.value else [];
    }

    method ToggleShowFavorites()
      modifies this`showFavorites
      ensures showFavorites == !old(showFavorites)
    {
      showFavorites := !showFavorites;
    }

    /** `handlePriceChange`: both bounds become defined. */
    method HandlePriceChange(min: real, max: Bound)
      modifies this`priceFilter
      ensures priceFilter == PriceFilter(Some(min), Some(max))
    {
      priceFilter := PriceFilter(Some(min), Some(max));
    }

    method ToggleFavorite(dogId: string)
      modifies this`favorites
      ensures favorites == ToggledFavorites(old(favorites), dogId)
    {
      favorites := ToggledFavorites(favorites, dogId);
    }

    /**
     * `handleAddToCart`: nothing happens when an entry already has the dog's id;
     * otherwise the dog is appended and the panel opens if the cart was empty.
     */
    method HandleAddToCart(dog: Dog)
      modifies this`isCartOpen, store
      ensures HasId(old(store.cart), dog.id) ==> store.cart == old(store.cart) && isCartOpen == old(isCartOpen)
      ensures !HasId(old(store.cart), dog.id) ==>
        store.cart == old(store.cart) + [dog] && isCartOpen == (old(isCartOpen) || old(store.cart) == [])
      ensures UniqueIds(old(store.cart)) ==> UniqueIds(store.cart)
    {
      if HasId(store.cart, dog.id) {
        return;
      }
      var wasCartEmpty := |store.cart| == 0;
      if UniqueIds(store.cart) {
        AppendFreshKeepsUnique(store.cart, dog);
      }
      store.AddToCart(dog);
      if wasCartEmpty {
        isCartOpen := true;
      }
    }
  }
}
