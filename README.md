# Happy Paws storefront — a verified model of its logic

Happy Paws is a small React storefront for adopting dogs. This project models its logic in Dafny and proves properties of that model. The modelled logic is:

- the catalogue page's tab queries, text search, favourites and price filters;
- the favourites toggle and the guarded add-to-cart;
- the in-memory cart and the cart persisted to the database;
- the cart pricing (subtotal, 7 % tax, 10 % volume discount from three dogs);
- the price-range normalisation of the filter bar;
- the dog card's cart and favourite buttons;
- checkout: the country picker, the pay-button rules and order submission;
- the orders provider and the order history tabs;
- the registration form's rule chains;
- the two error-message tables;
- the authentication provider's registration rollback and profile defaulting.

Every call into the authentication service or the database is reduced to its outcome, which is passed in as a parameter. JavaScript numbers are exact `real`s (or `int`s where the value is an integer). Text handling is ASCII.

The model is organised as follows:

- One module per source file.
- Three shared modules:
  - `Seqs` models `Array.prototype.filter` (order-preserving selection) and the subsequence relation.
  - `Text` provides ASCII case folding, `\s`, digits and `String.prototype.includes`.
  - `Domain` holds the records of `src/types/user.ts` and the id-keyed cart operations.
- Components that hold state (the providers, the page and form states) are classes whose methods update their fields. Pure derivations are functions. Properties that relate several calls are lemmas.
- `src/pages/public/Home.tsx:140-142` and `src/App.tsx:26-28` write the cart total, tax and discount with identical expressions, and the `Pricing` module defines them once. The two cart panels still differ, because App applies the expressions to a different cart (see "## Findings").

## Model

| member | source | states |
|---|---|---|
| Domain.WithoutId | src/context/CartContent.tsx:24 | removing an id leaves no entry with it, keeps the rest in order (subsequence) and keeps every other dog's number of occurrences |
| Domain.WithoutAbsentId | src/context/CartContent.tsx:24 | removing an id no entry has leaves the cart unchanged |
| Domain.WithoutAppended | src/context/CartContent.tsx:19-25 | appending a dog with a fresh id and removing that id restores the cart |
| Domain.WithoutKeepsUnique | src/context/CartContent.tsx:23-25 | removal keeps the cart's ids distinct |
| Domain.FilterKeepsUnique | src/pages/public/Home.tsx:144-152 | any filter of a list with distinct ids has distinct ids |
| Domain.AppendFreshKeepsUnique | src/pages/public/Home.tsx:122-131 | the guarded add (append only when the id is absent) keeps ids distinct |
| Domain.AppendPresentDuplicates | src/context/CartContent.tsx:20 | the provider does not deduplicate: appending a present id creates a duplicate id |
| Domain.Ids | src/components/cart/Checkout.tsx:59 | the id list has the cart's length and the i-th id is the i-th entry's id |
| Pricing.Tax | src/pages/public/Home.tsx:141 | the tax is 7/100 of the subtotal; it is zero iff the subtotal is, and lies between 0 and the subtotal for a non-negative subtotal |
| Pricing.Discount | src/pages/public/Home.tsx:142 | below three entries the discount is 0; from three on it is a tenth of the subtotal; for a positive subtotal it is positive iff there are at least three entries; it never exceeds a non-negative subtotal |
| Pricing.CartTotal | src/pages/public/Home.tsx:140 | the total of an empty cart is 0; with no negative price the total is non-negative |
| Pricing.CartTotalIsPriceSum | src/App.tsx:26 | the left fold equals the plain sum of the prices taken front to back |
| Pricing.CartTotalAppend | src/pages/public/Home.tsx:140 | the total of two carts laid end to end is the sum of their totals |
| Pricing.CartTotalAfterRemove | src/context/CartContent.tsx:19-25 | removing a just-added dog lowers the total by exactly its price |
| Pricing.AmountDue | src/App.tsx:26-28 | subtotal + tax − discount is 1.07·subtotal below three entries and 0.97·subtotal from three on, and is non-negative when no price is |
| Pricing.DiscountThresholdExact | src/App.tsx:28 | for a positive subtotal the discount is positive iff the cart has at least three entries, and then it is a tenth of the subtotal |
| CartPanel.Render | src/components/cart/Cart.tsx:16-17 | the empty message shows iff the cart is empty; otherwise the listing shows the cart, a subtotal equal to the sum of its prices, the passed-in tax and discount, and total = subtotal + tax − discount, with the subtotal non-negative for non-negative prices |
| CartPanel.RenderPriced | src/pages/public/Home.tsx:140-142 | as the catalogue page mounts the panel, with the tax and discount of the cart it lists, the subtotal is the cart total and the panel's total is the 1.07 or 0.97 multiple, never negative for non-negative prices |
| CartPanel.RenderAppMount | src/App.tsx:19-28 | as App mounts the panel: it lists the provider's cart with the sum of its prices as subtotal, but the tax and discount are those of the context's default empty cart, so both are 0 and the total is the bare subtotal |
| CartPanel.AppMountDisagrees | src/App.tsx:89-94 | for every cart with a positive subtotal, App's panel total is the subtotal and differs from the catalogue page's total |
| CartPanel.ThreeDogScenario | src/components/cart/Cart.tsx:16-17 | prices 750, 900 and 850 give subtotal 2500, tax 175, discount 250 and total 2425 |
| CartPanel.RemoveEntry | src/components/cart/Cart.tsx:59-64 | the k-th entry's remove button removes exactly the entries with that entry's id |
| CartContent.CartProvider.constructor | src/context/CartContent.tsx:17 | the cart starts empty |
| CartContent.CartProvider.AddToCart | src/context/CartContent.tsx:19-21 | the dog is appended at the end; the earlier entries are unchanged |
| CartContent.CartProvider.RemoveFromCart | src/context/CartContent.tsx:23-25 | the cart becomes the order-preserving removal of the id; an absent id changes nothing |
| CartContent.AddThenRemove | src/context/CartContent.tsx:19-25 | adding a dog with a fresh id and then removing that id leaves the provider's cart as it was |
| CartContext.Resolve | src/context/CartContext.tsx:43-52 | the loaded cart's ids are exactly the stored ids that resolve to a dog document, in stored order; each entry is its document with the document's id |
| CartContext.ResolveAllFound | src/context/CartContext.tsx:47-52 | when every stored id resolves, the cart lists exactly the stored ids |
| CartContext.ResolveUnique | src/context/CartContext.tsx:47-52 | stored ids without repetition load into a cart with distinct ids |
| CartContext.CartStore.constructor | src/context/CartContext.tsx:28-30 | the cart starts empty, loading, with no error |
| CartContext.CartStore.LoadCart | src/context/CartContext.tsx:34-61 | no user gives an empty cart; a successful load replaces the cart by the resolved stored ids and clears the error; a failure keeps the cart and sets "Failed to load cart"; loading ends false |
| CartContext.CartStore.OnUserChange | src/context/CartContext.tsx:34-61 | the provider takes the new user and reloads: a sign-out empties the cart, a sign-in loads that user's resolved stored cart or keeps the cart and sets "Failed to load cart"; loading ends false |
| CartContext.CartStore.AddToCart | src/context/CartContext.tsx:67-91 | no user: the cart and the loading flag are unchanged and the login error is set; a successful write appends the dog and clears the error; a failed write keeps the cart and sets "Failed to add to cart"; loading ends false |
| CartContext.CartStore.RemoveFromCart | src/context/CartContext.tsx:93-117 | as above, with the order-preserving removal of the id on success and "Failed to remove from cart" on failure |
| CartContext.CartStore.ClearCart | src/context/CartContext.tsx:119-143 | as above, with the empty cart on success and "Failed to clear cart" on failure |
| Home.TabQuery | src/pages/public/Home.tsx:73-83 | the query returns the catalogue dogs of the tab (available; age ≤ 1; age > 1) in catalogue order (see "## Left out" for the Puppies and Adults order), each as often as in the catalogue, and the whole catalogue for "All" |
| Home.PuppiesAdultsPartition | src/pages/public/Home.tsx:55-61 | Puppies and Adults split any list: their lengths add up and their multisets sum to the list's |
| Home.SearchFilter | src/pages/public/Home.tsx:89-93 | keeps, in order and with their multiplicity, exactly the dogs whose lower-cased name or breed contains the lower-cased term; an empty term keeps every dog |
| Home.FetchedDogs | src/pages/public/Home.tsx:69-105 | the fetched dogs are a subsequence of the catalogue holding exactly the dogs of the tab that match the term, and never more than the tab's count |
| Home.EmptyTermMatchesAll | src/pages/public/Home.tsx:89-93 | the empty term matches every dog |
| Home.DisplayedCounts | src/pages/public/Home.tsx:144-152 | the two-stage pipeline keeps every copy of a dog passing both restrictions and no copy of any other |
| Home.DisplayedDogs | src/pages/public/Home.tsx:144-152 | the displayed dogs are a subsequence of the dogs; a dog is shown, as often as it occurs, iff it passes the favourites restriction and the price window; every shown dog is a favourite when that is on and within each defined bound; with no restriction the list is unchanged |
| Home.DisplayedOrderAndIdentity | src/pages/public/Home.tsx:144-152 | the two-stage pipeline yields a subsequence of the dogs, and the dogs themselves when nothing restricts them |
| Home.FavoritesPriceCommute | src/pages/public/Home.tsx:144-152 | applying the favourites filter and the price filter in either order gives the same list |
| Home.PipelineIsConjunction | src/pages/public/Home.tsx:73-152 | tab query, text search, favourites and price window together select exactly the catalogue dogs meeting all four criteria, in catalogue order |
| Home.ResetRangeShowsAll | src/pages/public/Home.tsx:147-151 | the range 0 to Infinity hides no dog with a non-negative price |
| Home.DisplayedWithinTotal | src/pages/public/Home.tsx:51-67 | the number of displayed dogs never exceeds the tab's total count |
| Home.ToggledFavorites | src/pages/public/Home.tsx:114-120 | the id is in the result iff it was not in the list; other ids keep their number of occurrences; a present id is removed in order; an absent id is appended at the end |
| Home.ToggleTwiceRestores | src/pages/public/Home.tsx:114-120 | toggling an absent id twice restores the list |
| Home.HomePage.constructor | src/pages/public/Home.tsx:23-32 | the page starts with no dogs, loading, on "All", the cart panel closed, a count of 0, favourites off and empty, and no price bound |
| Home.HomePage.FetchDogs | src/pages/public/Home.tsx:69-105 | a successful fetch sets the dogs to the text-filtered tab query; a failed one keeps them; loading ends false |
| Home.HomePage.FetchTotalCount | src/pages/public/Home.tsx:51-67 | the count becomes the size of the tab's query |
| Home.HomePage.SetActiveTab | src/pages/public/Home.tsx:25 | the active tab is set |
| Home.HomePage.OnFavoritesSnapshot | src/pages/public/Home.tsx:34-49 | favourites become the document's ids, or empty when the document or the field is missing |
| Home.HomePage.ToggleShowFavorites | src/pages/public/Home.tsx:184 | the favourites-only switch flips |
| Home.HomePage.HandlePriceChange | src/pages/public/Home.tsx:110-112 | both bounds become defined with the emitted values |
| Home.HomePage.ToggleFavorite | src/pages/public/Home.tsx:114-120 | the favourites become the toggled list |
| Home.HomePage.HandleAddToCart | src/pages/public/Home.tsx:122-139 | a dog whose id is in the cart changes nothing; otherwise it is appended and the panel opens iff the cart was empty; distinct ids stay distinct |
| Tabs.NormalizedRange | src/components/layout/Tabs.tsx:46-50 | min ≥ 0, an empty min gives 0 and a negative one is raised to 0; the max is Infinity iff its input is empty; a typed max is kept when it is ≥ min and raised to min when it is below |
| Tabs.ParseInt | src/components/layout/Tabs.tsx:47-48 | integer text without a minus sign reads as a non-negative number, and with one as a non-positive number |
| Tabs.ParseDecimalText | src/components/layout/Tabs.tsx:47-48 | `parseInt` reads back the decimal text of every integer, with or without a minus sign |
| Tabs.DigitsReadBack | src/components/layout/Tabs.tsx:47-48 | the digits of a number's decimal text add up to that number |
| Tabs.PriceInputs.constructor | src/components/layout/Tabs.tsx:39-40 | both inputs start empty |
| Tabs.PriceInputs.SetLocalMinPrice | src/components/layout/Tabs.tsx:128 | the minimum input takes the typed text |
| Tabs.PriceInputs.SetLocalMaxPrice | src/components/layout/Tabs.tsx:137 | the maximum input takes the typed text |
| Tabs.PriceInputs.HandlePriceUpdate | src/components/layout/Tabs.tsx:43-51 | the emitted range is the normalised range of the two inputs: min ≥ 0 and a finite max ≥ min |
| Tabs.PriceInputs.HandleResetPrices | src/components/layout/Tabs.tsx:60-64 | both inputs are cleared and (0, Infinity) is emitted, which is the normalisation of the cleared inputs |
| Tabs.ShowDiscountBanner | src/components/layout/Tabs.tsx:206 | the banner shows iff the cart count is positive and below the discount threshold |
| Tabs.BannerWhileNoDiscount | src/components/layout/Tabs.tsx:206 | the "10% off with 3+" banner shows iff the cart is non-empty and earns no discount yet |
| Tabs.ResultsLabelFor | src/components/layout/Tabs.tsx:182-190 | the label reads "Showing filtered of total" iff the search term is non-empty, otherwise "total available" |
| Tabs.MinimumOnlyScenario | src/components/layout/Tabs.tsx:46-50 | inputs "500" and "" emit (500, Infinity), and the page then shows exactly the dogs priced at 500 or more |
| DogCard.IsInCart | src/components/dogs/DogCard.tsx:26 | holds iff some cart entry has the dog's id |
| DogCard.CartButtonLabel | src/components/dogs/DogCard.tsx:141-145 | "Unavailable" iff the dog is not available, "Remove" iff available and in the cart, "Add to Cart" iff available and not in the cart |
| DogCard.AgeUnit | src/components/dogs/DogCard.tsx:117 | the unit is "yr" iff the age is 1, else "yrs" |
| DogCard.CartAfterAction | src/components/dogs/DogCard.tsx:47-58 | an unavailable dog leaves the cart unchanged; for an available dog, membership of its id flips: a present id is removed with the provider's filter, keeping every other entry in order, and an absent dog is appended at the end; other dogs keep their number of occurrences |
| DogCard.ActionTwiceRestores | src/components/dogs/DogCard.tsx:51-57 | two actions starting from "not in cart" restore the cart |
| DogCard.ActionKeepsUnique | src/components/dogs/DogCard.tsx:49-57 | the action keeps the cart's ids distinct |
| DogCard.HandleCartAction | src/components/dogs/DogCard.tsx:47-58 | the in-memory cart becomes the cart after the action |
| DogCard.ToggleFavoriteEffect | src/components/dogs/DogCard.tsx:28-45 | without a user there is no remote call and no callback; with one, the call is removeFavorite iff the dog is a favourite, for that user and dog; the callback runs iff there is a user and the call succeeded, with the dog's id and the flipped flag |
| DogCard.CallbackAgreesWithPage | src/components/dogs/DogCard.tsx:41 | mounted as the catalogue mounts it, a successful press leaves the page's favourites holding the dog exactly when the callback's flag says so |
| Checkout.AllCountries | src/components/cart/Checkout.tsx:33-38 | only entries with a non-empty name and code remain, each of them, in table order |
| Checkout.FilteredCountries | src/components/cart/Checkout.tsx:40-46 | an order-preserving subsequence holding exactly the countries whose lower-cased name or code contains the lower-cased query, each as often as in the table |
| Checkout.EmptyQueryListsAll | src/components/cart/Checkout.tsx:40-46 | the empty query lists every country |
| Checkout.QueryIgnoresCase | src/components/cart/Checkout.tsx:42-43 | queries that lower-case alike list the same countries |
| Checkout.CanSubmit | src/components/cart/Checkout.tsx:49 | the guard needs a signed-in user; for one, it passes iff the PayPal and Card buttons are enabled, and whenever the MoMo button is |
| Checkout.PayEnabled | src/components/cart/Checkout.tsx:196-269 | the MoMo button is enabled iff phone, country and city are given; PayPal and Card iff country and city are |
| Checkout.EnabledButtonPassesGuard | src/components/cart/Checkout.tsx:49 | an enabled pay button lets a signed-in user past the submission guard |
| Checkout.MomoStrictest | src/components/cart/Checkout.tsx:196-220 | when the MoMo button is enabled so are the other two |
| Checkout.ShippingAddress | src/components/cart/Checkout.tsx:51 | the address is the city, ", ", then the country name, and splits back into them |
| Checkout.BuildOrder | src/components/cart/Checkout.tsx:57-64 | the order carries the user, the cart's ids in cart order, the total, the chosen method or "card", the address and status pending |
| Checkout.CheckoutForm.constructor | src/components/cart/Checkout.tsx:26-31 | no method, phone, query, country or city; not loading |
| Checkout.CheckoutForm.ChoosePaymentMethod | src/components/cart/Checkout.tsx:176 | the chosen method is recorded |
| Checkout.CheckoutForm.SetCountryQuery | src/components/cart/Checkout.tsx:105 | the query takes the typed text |
| Checkout.CheckoutForm.SetCity | src/components/cart/Checkout.tsx:159 | the city takes the typed text |
| Checkout.CheckoutForm.SetDummyPhone | src/components/cart/Checkout.tsx:190 | the phone takes the typed text |
| Checkout.CheckoutForm.SelectCountry | src/components/cart/Checkout.tsx:117-120 | the country is selected and the query cleared |
| Checkout.CheckoutForm.HandleDummyPayment | src/components/cart/Checkout.tsx:48-74 | without user, country or city nothing is submitted and the cart store (cart, error, loading) is untouched; otherwise the built order is submitted, `onSuccess` runs iff creation succeeded, the cart is emptied only when creation and the clear both succeeded, and the form stops loading; after a failed creation the store's error and loading are as they were, after a successful one its loading is false and its error is cleared or "Failed to clear cart" |
| OrderContext.CancelOrders | src/context/OrderContext.tsx:46-50 | same length; exactly the orders with the id become cancelled with their other fields kept; the others are unchanged |
| OrderContext.CancelIdempotent | src/context/OrderContext.tsx:46-50 | cancelling an id twice is cancelling it once |
| OrderContext.CancelCommutes | src/context/OrderContext.tsx:46-50 | cancelling two ids in either order gives the same list |
| OrderContext.DeleteOrders | src/context/OrderContext.tsx:59 | no order with the id remains; the others remain, in order and with their multiplicity |
| OrderContext.DeleteAfterCancel | src/context/OrderContext.tsx:45-59 | deleting a cancelled order leaves the same list as deleting it outright |
| OrderContext.OrdersProvider.constructor | src/context/OrderContext.tsx:24-26 | no orders, loading, no error |
| OrderContext.OrdersProvider.FetchOrders | src/context/OrderContext.tsx:28-41 | no user changes nothing; success replaces the orders and clears the error; failure keeps them and sets the load message; loading ends false |
| OrderContext.OrdersProvider.CancelOrder | src/context/OrderContext.tsx:43-54 | a successful write cancels the id's orders; a failed one keeps the orders and sets the cancel message |
| OrderContext.OrdersProvider.DeleteOrder | src/context/OrderContext.tsx:56-63 | a successful delete removes the id's orders; a failed one keeps them and sets the delete message |
| Profile.FilteredOrders | src/pages/protected/Profile.tsx:19-21 | a missing list shows nothing; each tab's list is a subsequence of the orders, and a status tab holds exactly the orders of that status, each as often as in the list |
| Profile.AllTabShowsEverything | src/pages/protected/Profile.tsx:19-21 | the "all" tab lists every order in order |
| Profile.CountsAddUp | src/pages/protected/Profile.tsx:83 | the "all" count is the sum of the pending, completed and cancelled counts |
| Profile.StatusCountsAddUp | src/types/user.ts:37 | the three statuses split any order list |
| Profile.ShowCancelButton | src/pages/protected/Profile.tsx:178 | the cancel button shows iff the order is neither completed nor cancelled |
| Profile.CancelledHidesButton | src/pages/protected/Profile.tsx:178 | after a cancel, no order with that id offers the button |
| Profile.OrderHeading | src/pages/protected/Profile.tsx:151 | "Order #" followed by the upper-cased first min(8, length) characters of the id |
| Register.NameError | src/pages/public/Register.tsx:41-51 | "Name is required" iff the name is blank; then, in this order, a digit gives the digit message, a character outside letters, whitespace, `'` and `-` gives "Name contains invalid characters", fewer than 2 characters "Name is too short" and more than 50 "Name is too long"; the name is accepted iff it is not blank, has 2 to 50 characters and uses only letters, whitespace, `'` and `-` |
| Register.EmailPatternShape | src/pages/public/Register.tsx:57 | the pattern matches iff the address has no whitespace and exactly one '@', not first, followed by a '.' that is neither first nor last after it |
| Register.PatternHasShape | src/pages/public/Register.tsx:57 | an address the pattern matches has no whitespace, a single '@' that is not first, and a later '.' that is neither first nor last after it |
| Register.ShapeHasPattern | src/pages/public/Register.tsx:57 | an address of that shape matches the pattern |
| Register.EmailError | src/pages/public/Register.tsx:55-59 | "Email is required" iff the address is empty; a non-empty address without the shape above gets "Invalid email format"; accepted iff it has the shape |
| Register.PasswordError | src/pages/public/Register.tsx:62-68 | "required" iff empty; the "at least 8" message iff 1 to 5 characters; "Password is too weak" for 6 or more characters with a score of 0; accepted iff at least 6 characters and a score of at least 1 |
| Register.ConfirmError | src/pages/public/Register.tsx:71-73 | an error iff the two passwords differ |
| Register.ValidateForm | src/pages/public/Register.tsx:37-77 | each field's error is recorded iff its chain fails; valid iff no error, iff every chain passes; a mismatch is always recorded, whatever the other fields |
| Register.SubmitErrorMessage | src/pages/public/Register.tsx:92-104 | the three exact provider messages map to their general errors; every other message maps to "Registration failed. Please try again." |
| Register.RegisterPage.constructor | src/pages/public/Register.tsx:21-22 | no errors, not loading |
| Register.RegisterPage.HandleSubmit | src/pages/public/Register.tsx:79-108 | `register` is called iff the form is valid; an invalid form records the field errors; a failure records only the general error; loading ends false |
| FirebaseErrors.AuthErrorMessage | src/utils/FirebaseErrors.ts:1-26 | never empty; the catch-all message iff the code is not one of the ten known codes; each known code is recovered from its message by the inverse table |
| FirebaseErrors.AuthMessagesIdentifyCode | src/utils/FirebaseErrors.ts:3-24 | distinct known codes have distinct messages |
| FirebaseErrors.FirestoreError | src/utils/FirebaseErrors.ts:28-41 | never empty; the catch-all message iff the code is not one of the four known codes; each known code is recovered from its message by the inverse table |
| FirebaseErrors.FirestoreMessagesIdentifyCode | src/utils/FirebaseErrors.ts:30-39 | distinct known database codes have distinct messages |
| AuthContext.HandleFirebaseError | src/context/AuthContext.tsx:33-38 | an Error is rethrown with its message; any other value becomes "An unknown error occurred" |
| AuthContext.NewProfile | src/context/AuthContext.tsx:53-60 | the new document has the name, the email, role "user" and empty cart and purchases |
| AuthContext.ProfileFromDoc | src/context/AuthContext.tsx:96-104 | missing or empty text fields default (name and email to "", role to "user"); missing lists default to [] |
| AuthContext.EmptyDocDefaults | src/context/AuthContext.tsx:96-104 | a document without fields yields an empty user of role "user" |
| AuthContext.RegisteredProfileReadsBack | src/context/AuthContext.tsx:53-60 | a registered profile reads back with its name and email, role "user" and empty lists |
| AuthContext.AuthProvider.constructor | src/context/AuthContext.tsx:30-31 | no user, loading |
| AuthContext.AuthProvider.Register | src/context/AuthContext.tsx:48-70 | on success the identity exists, is signed in and has its profile; a failed profile write deletes the new identity, signs it out and rethrows; a failed creation deletes nothing and rethrows |
| AuthContext.AuthProvider.Login | src/context/AuthContext.tsx:40-46 | success signs the identity in; failure rethrows and changes nothing |
| AuthContext.AuthProvider.Logout | src/context/AuthContext.tsx:72-78 | success signs out; failure rethrows and changes nothing |
| AuthContext.AuthProvider.OnAuthStateChanged | src/context/AuthContext.tsx:81-111 | no identity gives no user; a readable profile gives the defaulted user; a missing profile or failed read signs the identity out, and if that sign-out fails the identity stays signed in; loading ends false |
| AuthContext.RollbackLeavesNothing | src/context/AuthContext.tsx:61-69 | a registration whose profile write fails leaves accounts, sign-in state and documents as they were |

## Findings

| source | as written | input that shows it | evidently intended | confidence | as-written member | corrected member |
|---|---|---|---|---|---|---|
| src/App.tsx:19-28 | `useCart()` runs in `App`, outside the `CartProvider` that `App` renders at lines 48-98, so it reads the context default whose cart is `[]`; the tax and discount passed to App's cart panel are therefore 0 | any cart with a positive subtotal, e.g. one dog priced 100: App's panel shows total 100, the catalogue page's panel shows 107 | App's panel charges the same 7 % tax and 10 % volume discount on the provider's cart as the catalogue page's panel | medium, not executed (an entry file outside this model could wrap `App` in a provider, but that outer provider's cart would still not be the one the pages add to) | CartPanel.RenderAppMount, CartPanel.AppMountDisagrees | CartPanel.RenderPriced |

## Left out

- Database and authentication service calls (queries, document reads and writes, `arrayUnion`/`arrayRemove`, snapshot listeners, count queries, sign-in and sign-out): each is reduced to its outcome, passed as a parameter. `src/services/orders.ts`, `src/context/Favourite.tsx` and `src/config/firebase.ts` are thin wrappers over them and are not part of this model.
- Timers: the 500 ms debounce in the filter bar and its cancellation, and the 1 s pause in checkout. `Tabs.PriceInputs.HandlePriceUpdate` is the moment the timer fires.
- Asynchrony and interleaving: each handler runs to completion before the next. `clearCart` in checkout, which the source does not await, is modelled as finishing before `onSuccess`.
- IEEE-754 arithmetic and `toFixed(2)` display rounding: prices are exact reals.
- `Tabs.ParseInt`, `Tabs.NormalizedRange`, `Tabs.PriceInputs.SetLocalMinPrice`, `Tabs.PriceInputs.SetLocalMaxPrice`, `Tabs.PriceInputs.HandlePriceUpdate`: `parseInt` is modelled only on integer text (an optional minus sign and digits), and these members require the price inputs to hold such text or nothing. A number input also accepts decimals such as "99.99", which `parseInt` reads as 99, and exponent forms; those inputs are outside the model.
- `Home.TabQuery`, `Home.FetchedDogs`, `Home.PipelineIsConjunction`: the server's result order is not modelled. Each tab's query is modelled as an order-preserving filter of one catalogue order. The Puppies and Adults tabs query with an inequality on `age` (src/pages/public/Home.tsx:58-60, 78-80), and the database returns such a query ordered by age and then by document id. For those two tabs, only the membership and multiplicity claims describe the source; the subsequence and "in catalogue order" claims do not.
- `Checkout.CheckoutForm.HandleDummyPayment`: the cart store it is given is taken to be a live `CartContext` provider. `src/components/cart/Checkout.tsx:4` reads the cart from `src/context/CartContext.tsx`, but no file in this model mounts that provider (App mounts the one from `CartContent`), and no file shown renders `Checkout`. Under that context's default value the cart would be `[]` and `clearCart` a no-op, as with App's cart panel under "## Findings".
- `Checkout.AllCountries`: the `localeCompare` sort is not modelled (the table is taken in its own order), and neither is the external country table.
- `Register.PasswordError`: the strength score comes from a library and is an input in 0..4. As in the source, the length rule is 6 characters while its message says 8.
- `CartContext.Resolve`: dog documents are taken to carry no `id` field of their own. In the source, the spread would let such a field override the document id.
- `AuthContext.AuthProvider.Register`: deleting the new identity during rollback is taken to succeed.
- `AuthContext.AuthProvider.OnAuthStateChanged`: the sign-out after a missing profile does not clear `user` itself; the listener's next event (no identity) does.
- Unicode: `\s`, `trim`, `toLowerCase` and `toUpperCase` are modelled on ASCII only, and string lengths count characters rather than UTF-16 units.
- Timestamps (`createdAt`, `updatedAt`) and date formatting.
- Toasts, alerts, navigation and rendering. These are the remaining components: Navbar, Hero, SearchBar, Footer, Button, Loader, CartItem, AdminDashboard, ProtectedRoute and Login.
- `src/services/imageService.ts` (an HTTP upload), `src/pages/admin/DogManagement.tsx` (an incomplete stub that does not compile) and `src/config/dogData.ts` (static seed data) are not part of this model.
