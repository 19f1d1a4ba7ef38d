# Storefront logic, modelled in Dafny

A model of the client-side logic of a small React storefront with an admin dashboard, with
proofs about it. The shop side is the cart store, the catalogue, the product page, the
category pages, the cart view and the checkout form. The admin side is products,
categories, orders, account settings, the dashboard counters and the new-order badge. The
model covers what these components compute, without the rendering: list updates keyed by
id, image-url normalisation, the filter and sort pipelines, form validation and the
request payloads.

Module layout, one module per source file:

| module | source file |
|---|---|
| `CartContext` | `src/context/CartContext.jsx` (the `Cart` class is the `cartItems` state cell) |
| `Shop` | `src/pages/Shop.jsx` |
| `ProductPage` | `src/pages/ProductPage.jsx` (classes `Gallery` and `QuantityPicker`) |
| `CategoriesPage` | `src/pages/CategoriesPage.jsx` |
| `Home` | `src/pages/Home.jsx` |
| `CartView` | `src/components/Cart.jsx` |
| `Checkout` | `src/pages/Checkout.jsx` (class `CheckoutForm`) |
| `OrdersApi` | `src/api/ordersApi.js` |
| `AdminProducts` | `src/pages/dashboard/Products.jsx` |
| `AdminCategories` | `src/pages/dashboard/Categories.jsx` (class `CategoryManager`) |
| `AdminOrders` | `src/pages/dashboard/Orders.jsx` |
| `Settings` | `src/pages/dashboard/Settings.jsx` (class `SettingsForm`) |
| `Dashboard` | `src/pages/Dashboard.jsx` (class `Overview`) |
| `Sidebar` | `src/components/Sidebar.jsx` (class `Badge`) |

`Wrappers` (Option, Result), `Text` (JavaScript string operations), `Seqs` (`filter`,
`slice` and a stable `sort`), `Js` (JavaScript values and `parseBoolean`) and `Url`
(reading a link's query parameters, as `useSearchParams().get` does) are shared.

Conventions:
- A state cell that a handler updates becomes a field of a class, and the handler becomes a
  method. Pure `map`/`filter`/`reduce` expressions become functions.
- Prices and quantities are integers. Dates are integer milliseconds.
- `API_URL`/`BACKEND_URL` is the parameter `base`.
- `localeCompare` and the month of a date are function parameters.
- The outcome of a network call (success, failure, the reply's data) is a method parameter.

## Model

| member | source | states |
|---|---|---|
| Text.ToLower | src/pages/Shop.jsx:144 | `toLowerCase` keeps the length and lowers each ASCII capital |
| Text.ReplaceBackslashes | src/pages/Shop.jsx:23 | every `\` becomes `/`, other characters stay, no `\` is left |
| Text.TrimStart | src/pages/dashboard/Settings.jsx:44-47 | the result is a suffix, everything dropped is whitespace, and it does not start with whitespace |
| Text.TrimEnd | src/pages/dashboard/Settings.jsx:44-47 | the result is a prefix, everything dropped is whitespace, and it does not end with whitespace |
| Text.TrimmedHasNoOuterSpace | src/pages/dashboard/Settings.jsx:44-47 | `trim()` leaves no whitespace at either end |
| Text.BlankIffAllSpace | src/pages/Checkout.jsx:74-78 | a value is blank exactly when every character is whitespace |
| Text.BlankIffTrimEmpty | src/pages/Checkout.jsx:74-78 | `!s.trim()` holds exactly when the value is blank |
| Text.IntToString | src/context/CartContext.jsx:23 | `String(n)` is non-empty, starts with `-` exactly for negatives, else with a digit |
| Text.Magnitude | src/pages/ProductPage.jsx:317 | after a `0x`/`0X` prefix the hexadecimal digits are read, otherwise the decimal ones; none exactly when no digit of that base follows |
| Text.ParseInt | src/pages/ProductPage.jsx:317 | `parseInt` skips leading whitespace and a sign, then reads the magnitude; NaN exactly when the magnitude has no digit, negative only after a `-` |
| Text.ParseIntHex | src/pages/ProductPage.jsx:317 | `parseInt("0x1A")` is 26 |
| Text.ParseIntBareHexPrefix | src/pages/ProductPage.jsx:317 | `parseInt("0x")` is NaN |
| Text.ParseIntStopsAtNonDigit | src/pages/ProductPage.jsx:317 | `parseInt("12px")` is 12 |
| Text.ParseIntToString | src/components/Sidebar.jsx:24 | `parseInt(String(n)) == n`: the stored id reads back as itself |
| Text.IntToStringInjective | src/context/CartContext.jsx:30 | `String(a) === String(b)` exactly when `a == b` on integers |
| Seqs.Filter | src/pages/Shop.jsx:148 | the result keeps exactly the passing elements, each as often as in the input |
| Seqs.FilterConcat | src/pages/dashboard/Products.jsx:229-237 | filtering keeps the input order: it distributes over concatenation |
| Seqs.FilterFilter | src/pages/Shop.jsx:147-161 | two filters in a row are one filter by the conjunction |
| Seqs.Take | src/pages/Dashboard.jsx:126 | `slice(0, n)` is the first `min(n, length)` elements |
| Seqs.SortBy | src/pages/Shop.jsx:164-180 | the stable sort returns a permutation of its input |
| Seqs.SortBySorted | src/pages/Shop.jsx:164-180 | for a total preorder, the result is sorted |
| Seqs.SortByOfSorted | src/pages/Dashboard.jsx:124-126 | sorting an already sorted list changes nothing (stability) |
| Seqs.Reverse | src/pages/Shop.jsx:164-170 | the list read back to front, of the same length |
| Seqs.DistinctKeysPermutation | src/pages/Shop.jsx:164-170 | a reordering of a list with pairwise different keys has pairwise different keys |
| Seqs.OppositeOrdersReverse | src/pages/Shop.jsx:164-170 | two orderings of the same elements, one with keys strictly rising and one strictly falling, are each other's reverse |
| Url.Query | src/pages/Shop.jsx:74-75 | the query of a link holds no `#` and is no longer than the link |
| Url.QueryOf | src/pages/Shop.jsx:74-75 | the query of `path?query` is `query` when the path has no `?` and neither part has a `#` |
| Url.Split | src/pages/Shop.jsx:74-75 | the `&`-separated pieces hold no `&` and joined again give back the query |
| Url.SplitCons | src/pages/Shop.jsx:74-75 | the piece before the first `&` comes first, then the pieces of the rest |
| Url.Decode | src/pages/Shop.jsx:74-75 | decoding never lengthens, and text without `%` or `+` is unchanged |
| Url.DecodeSpace | src/pages/Shop.jsx:74-75 | `a%20b` decodes to `a b` |
| Url.ParsePairOf | src/pages/Shop.jsx:74-75 | `name=value` with no `=` in the name gives the decoded name and value |
| Url.PairsCons | src/pages/Shop.jsx:74-75 | a non-empty first piece gives the first pair, the rest of the query the others |
| Url.Lookup | src/pages/Shop.jsx:75 | `get(name)` is none exactly when no pair has the name, otherwise the value of the first pair that has it |
| Url.ParamAlone | src/pages/Shop.jsx:75 | a parameter that ends the query is read to the end, decoded |
| Url.ParamBeforeOthers | src/pages/Shop.jsx:75 | a parameter followed by others is read up to the next `&` |
| Url.ParamAfterOther | src/pages/Shop.jsx:75 | a parameter is found after a pair with another name |
| Url.FirstOfRepeatedParam | src/pages/Shop.jsx:75 | of two pairs with the same name, the first one's value is read |
| Js.ParseBoolean | src/pages/Shop.jsx:32-37 | a value `parseBoolean` accepts is truthy, except `""` |
| Js.LowerJsStringFalse | src/pages/Shop.jsx:33 | `String(v).toLowerCase() === "false"` exactly for `false` and the strings that lower to "false" |
| Js.ParseBooleanFalseCases | src/pages/Shop.jsx:32-37 | `parseBoolean` is false exactly for false, 0, null, undefined and strings that lower to "false" |
| Js.TruthyVersusParseBoolean | src/pages/Home.jsx:98 | truthiness and `parseBoolean` disagree exactly on `""` and strings that lower to "false" |
| CartContext.FirstImage | src/context/CartContext.jsx:41 | the stored image is the first image's url or else `image`, never an empty string |
| CartContext.NewLine | src/context/CartContext.jsx:37-43 | a new line has the product's id and `qty`, name defaulting to "Unnamed Product", price `price` or 0 |
| CartContext.IndexOfKey | src/context/CartContext.jsx:23 | `findIndex`: -1 exactly when no line has the key, otherwise the first line with it |
| CartContext.Added | src/context/CartContext.jsx:26-45 | no product or falsy id: unchanged; present key: only that line gains `qty`; new key: one line appended |
| CartContext.AddedKeepsInvariant | src/context/CartContext.jsx:30-44 | add keeps one line per `String(id)`, and with `qty >= 1` every quantity stays at least 1 |
| CartContext.AddedTotals | src/context/CartContext.jsx:76-85 | after an add, `totalItems` grows by `qty` and `cartTotal` by the line's price times `qty` |
| CartContext.Removed | src/context/CartContext.jsx:51-64 | absent key: unchanged; otherwise that line is reduced in place or, at 0 or below, removed with the rest in order |
| CartContext.RemovedKeepsInvariant | src/context/CartContext.jsx:56-62 | remove keeps unique keys and positive quantities, and removing at least the quantity drops the key |
| CartContext.RemovedTotals | src/context/CartContext.jsx:76-85 | after a remove, `totalItems` falls by `qty`, or by the whole quantity when the line goes |
| CartContext.WithoutKey | src/context/CartContext.jsx:68-70 | `removeProduct` leaves no line with the key, keeps every other line, adds none, and is a no-op when absent |
| CartContext.FilterKeepsUnique | src/context/CartContext.jsx:69 | filtering a cart with one line per key keeps it so |
| CartContext.WithoutKeyKeepsInvariant | src/context/CartContext.jsx:68-70 | `removeProduct` keeps unique keys and positive quantities |
| CartContext.WithoutKeyKeepsOrder | src/context/CartContext.jsx:69 | `removeProduct` keeps the other lines in order |
| CartContext.TotalItemsNonNegative | src/context/CartContext.jsx:76-79 | with non-negative quantities, `totalItems` is not negative |
| CartContext.CartTotalNonNegative | src/context/CartContext.jsx:81-85 | with non-negative prices and quantities, `cartTotal` is not negative |
| CartContext.TotalItemsAtLeastLines | src/context/CartContext.jsx:76-79 | with positive quantities, `totalItems` is at least the line count and 0 exactly for the empty cart |
| CartContext.TotalsConcat | src/context/CartContext.jsx:76-85 | both totals add up over two parts of the cart |
| CartContext.TotalsUpdate | src/context/CartContext.jsx:58 | replacing one line changes each total by that line's difference |
| CartContext.TotalsDelete | src/context/CartContext.jsx:62 | deleting one line subtracts its contribution from each total |
| CartContext.AddAllSums | src/context/CartContext.jsx:30-44 | adding one new product several times gives one line whose quantity is the sum |
| CartContext.ShirtScenario | src/context/CartContext.jsx:37-44 | two shirts at 100 in an empty cart: 2 items, total 200 |
| CartContext.Cart.constructor | src/context/CartContext.jsx:7-14 | the stored list when it parses, else the empty cart |
| CartContext.Cart.FindIndex | src/context/CartContext.jsx:23 | returns the index of the first line whose `String(id)` matches |
| CartContext.Cart.AddItem | src/context/CartContext.jsx:26-48 | the cart becomes `Added` of the old cart, the callback runs exactly for an accepted product, unique keys kept |
| CartContext.Cart.RemoveItem | src/context/CartContext.jsx:51-65 | the cart becomes `Removed` of the old cart, unique keys and positive quantities kept |
| CartContext.Cart.RemoveProduct | src/context/CartContext.jsx:68-70 | the cart becomes `WithoutKey` of the old cart, unique keys kept |
| CartContext.Cart.ClearCart | src/context/CartContext.jsx:73 | the cart is empty and both totals are 0 |
| CartContext.RemovedAtRenderedIndex | src/context/CartContext.jsx:53 | the update as written agrees with `Removed` when the rendered list is the current one |
| CartContext.RenderedIndexHitsWrongLine | src/context/CartContext.jsx:53 | with a stale rendered list, removing A decrements B, and the reverse case throws |
| Shop.DropSlash | src/pages/Shop.jsx:25-28 | drops at most one leading `/` |
| Shop.GetFullImageUrl | src/pages/Shop.jsx:19-29 | falsy path: null; `http` path unchanged; otherwise base, one `/`, the path with backslashes turned to `/` |
| Shop.FullUrlShape | src/pages/Shop.jsx:23-28 | a relative path gives a url that starts with `base/` and has no backslash after the base |
| Shop.NormalizeImage | src/pages/Shop.jsx:45-54 | an entry yields an image exactly when it has a non-empty path, and its url is never empty |
| Shop.NormalizeImages | src/pages/Shop.jsx:58-60 | the kept images are at most as many as the entries and all have a url |
| Shop.NormalizeImagesCount | src/pages/Shop.jsx:58-60 | exactly the entries with a path survive |
| Shop.NormalizeImagesConcat | src/pages/Shop.jsx:58-60 | normalising keeps the order of the images |
| Shop.ProcessProduct | src/pages/Shop.jsx:56-63 | the fields are copied, the flags become `parseBoolean`, the images are the normalised entries |
| Shop.NormalizeImageAsWritten | src/pages/Shop.jsx:46 | the code as written throws exactly for an image object without a path, else agrees with `NormalizeImage` |
| Shop.ProcessProductAsWritten | src/pages/Shop.jsx:43-64 | as written, a product that does not throw equals `ProcessProduct` |
| Shop.PathlessImageObjectThrows | src/pages/Shop.jsx:46 | one image object without a path makes the whole product throw |
| Shop.FindCategory | src/pages/Shop.jsx:125 | the first category whose `String(id)` is the key; none exactly when no id renders to it |
| Shop.ResolveCategory | src/pages/Shop.jsx:122-136 | no id, empty id or no categories: 'All'; a match: its name; no match: 'All' |
| Shop.FindOwnId | src/pages/Shop.jsx:125 | with unique ids, each category is found by its own id |
| Shop.ResolveOwnId | src/pages/Shop.jsx:123-129 | with unique ids, a category's id in the URL selects its name |
| Shop.SortLeq | src/pages/Shop.jsx:164-177 | every comparator but the name one relates any two products one way or the other |
| Shop.Displayed | src/pages/Shop.jsx:142-183 | the grid never shows more products than the catalogue holds |
| Shop.FilteredAndSorted | src/pages/Shop.jsx:142-183 | the stage-by-stage pipeline returns `Displayed`: the passing products, then the selected sort |
| Shop.SortLeqPreorder | src/pages/Shop.jsx:164-177 | each comparator is a total preorder (the name one when `localeCompare` is consistent) |
| Shop.DisplayedIsFilteredPermutation | src/pages/Shop.jsx:147-161 | every shown product passes every active filter, and the list is a permutation of the passing products |
| Shop.BestMatchKeepsOrder | src/pages/Shop.jsx:178-179 | `best_match` keeps the catalogue order, and the list distributes over concatenation |
| Shop.DisplayedSorted | src/pages/Shop.jsx:164-177 | `price_asc` ascends, `price_desc` descends, `newest` descends by id, `name_asc` ascends by the comparator |
| Shop.PriceDescReversesPriceAsc | src/pages/Shop.jsx:164-170 | when no two passing products share a price, `price_desc` shows exactly the reverse of `price_asc` |
| Shop.DisplayedIdempotent | src/pages/Shop.jsx:142-183 | running the pipeline on its own output returns the same list |
| Shop.ResultCount | src/pages/Shop.jsx:185 | `resultCount` is the number of passing products, at most the catalogue size |
| Shop.EmptySearchKeepsAll | src/pages/Shop.jsx:152-155 | every name contains the empty search |
| ProductPage.FindProduct | src/pages/ProductPage.jsx:178-184 | the first product whose `String(id)` is the URL id; else "Product not found." |
| ProductPage.FindOwnProduct | src/pages/ProductPage.jsx:178 | with unique ids, each product is found by its own id |
| ProductPage.FirstActiveImage | src/pages/ProductPage.jsx:185 | the first image's url when it has one, else the placeholder, never empty |
| ProductPage.CategoryKey | src/pages/ProductPage.jsx:202 | a category gives a key exactly when there is one; the key has no capital and is no longer than the category |
| ProductPage.IsRelated | src/pages/ProductPage.jsx:200-204 | a related product has another id than the product shown |
| ProductPage.RelatedProducts | src/pages/ProductPage.jsx:198-207 | at most 4; none without product, category or list; each available, another id, same category after lower and trim |
| ProductPage.RelatedIsPrefix | src/pages/ProductPage.jsx:200-206 | the related products are the first four matching products, in list order |
| ProductPage.NextIndex | src/pages/ProductPage.jsx:65 | the next index is `(i + 1) mod n`, within range |
| ProductPage.PrevIndex | src/pages/ProductPage.jsx:60 | the previous index is `(i - 1) mod n`, within range |
| ProductPage.PrevNextInverse | src/pages/ProductPage.jsx:59-67 | prev undoes next and next undoes prev |
| ProductPage.NextTimesAdd | src/pages/ProductPage.jsx:64-67 | `a` then `b` clicks on next equal `a + b` clicks |
| ProductPage.NextTimesForward | src/pages/ProductPage.jsx:65 | clicks that stay before the end just advance the index |
| ProductPage.FullTurn | src/pages/ProductPage.jsx:64-67 | `n` clicks on next come back to the start |
| ProductPage.Gallery.constructor | src/pages/ProductPage.jsx:48-49 | the gallery starts at index 0 |
| ProductPage.Gallery.Prev | src/pages/ProductPage.jsx:59-62 | the index steps back with wrap-around and the active image is the image at the new index |
| ProductPage.Gallery.Next | src/pages/ProductPage.jsx:64-67 | the index steps forward with wrap-around and the active image is the image at the new index |
| ProductPage.Gallery.ThumbnailClick | src/pages/ProductPage.jsx:69-72 | the index is the clicked one and the active image is its url |
| ProductPage.TypedQuantity | src/pages/ProductPage.jsx:317 | `max(1, parseInt(text) \|\| 1)`: the parsed value when at least 1, else 1 |
| ProductPage.TypedNumber | src/pages/ProductPage.jsx:317 | typing a positive number sets exactly that quantity |
| ProductPage.QuantityPicker.constructor | src/pages/ProductPage.jsx:149 | the quantity starts at 1 |
| ProductPage.QuantityPicker.Decrement | src/pages/ProductPage.jsx:305 | the quantity drops by one but never below 1 |
| ProductPage.QuantityPicker.Increment | src/pages/ProductPage.jsx:322 | the quantity grows by one |
| ProductPage.QuantityPicker.Type | src/pages/ProductPage.jsx:317 | the quantity becomes `TypedQuantity` of the text, so it stays at least 1 |
| ProductPage.AsCartProduct | src/pages/ProductPage.jsx:211 | the product handed to `addItem` carries its id, name, price and images |
| ProductPage.AddToCart | src/pages/ProductPage.jsx:209-215 | unavailable: nothing happens; else the cart becomes `Added` and the confirmation shows exactly for a non-zero id |
| ProductPage.AddToCartNewLine | src/pages/ProductPage.jsx:209-215 | adding a product not yet in the cart appends its line with the chosen quantity and first image |
| CategoriesPage.ImagePathOf | src/pages/CategoriesPage.jsx:64 | `image?.path \|\| image` for the well-formed shapes |
| CategoriesPage.ProcessCategory | src/pages/CategoriesPage.jsx:63-68 | fields kept; `imageUrl` is the full url of the path, present exactly when there is a non-empty path |
| CategoriesPage.Load | src/pages/CategoriesPage.jsx:75 | every fetched category is processed, in order |
| CategoriesPage.ProcessCategoryAsWritten | src/pages/CategoriesPage.jsx:64-67 | as written it throws exactly for an image object without a path |
| CategoriesPage.LoadAsWritten | src/pages/CategoriesPage.jsx:73-80 | as written one throwing category leaves the page empty |
| CategoriesPage.PathlessCategoryEmptiesPage | src/pages/CategoriesPage.jsx:64-75 | a pathless image object empties the page instead of one tile losing its image |
| CategoriesPage.TileUrl | src/pages/CategoriesPage.jsx:26 | reading `categoryId` from a tile's link, as the shop does, gives back `String(id)` |
| CategoriesPage.TileSelectsCategory | src/pages/CategoriesPage.jsx:26 | with unique ids, following a tile selects that category in the shop, which reads the id with `searchParams.get` |
| Home.RawAvailable | src/pages/Home.jsx:98 | every product the shop's `parseBoolean` counts as available, except one with `""`, passes the home page's truthiness test |
| Home.Featured | src/pages/Home.jsx:98 | at most 8 products, each with a truthy raw `isAvailable` |
| Home.FeaturedFromList | src/pages/Home.jsx:98 | every featured product comes from the list, and 8 are shown when 8 are available |
| Home.FeaturedIgnoresLater | src/pages/Home.jsx:98 | once 8 are available, later products do not matter |
| Home.FeaturedDespiteFalseString | src/pages/Home.jsx:98 | an `isAvailable` of "false" is featured on the home page but unavailable in the shop |
| Home.HomeCategories | src/pages/Home.jsx:165 | the first four categories, in order |
| Home.TileImage | src/pages/Home.jsx:18 | the image string itself, or else the object's `path` |
| Home.TilesAgreeWithCategoryPage | src/pages/Home.jsx:18 | a home tile shows an image exactly when the categories page builds an `imageUrl` |
| Home.HomeTileSelectsCategory | src/pages/Home.jsx:16 | a home tile selects its own category in the shop |
| CartView.Simplified | src/components/Cart.jsx:119-124 | the hand-off keeps exactly id, name, price and quantity, line for line |
| CartView.GrandTotal | src/components/Cart.jsx:85-87 | the grand total is the cart total (delivery is 0) |
| CartView.HandOffKeepsTotal | src/components/Cart.jsx:117-126 | the handed-off lines add up to the grand total |
| CartView.EmptyViewIffNoLines | src/components/Cart.jsx:89 | with positive quantities, the empty view shows exactly for the empty cart |
| CartView.AsProduct | src/components/Cart.jsx:16 | a cart line handed back to `addItem` keeps its id and image |
| CartView.IncreaseAddsOne | src/components/Cart.jsx:16 | increase adds one to that line only (for a truthy id) |
| CartView.DecreaseNeverDeletes | src/components/Cart.jsx:54 | an enabled decrease lowers the quantity by one and never deletes the line |
| CartView.RemoveDropsLine | src/components/Cart.jsx:18 | remove deletes exactly that line, the others in order |
| CartView.HandleIncrease | src/components/Cart.jsx:16 | the cart becomes `Added` with quantity 1 |
| CartView.HandleDecrease | src/components/Cart.jsx:17 | disabled at quantity at most 1; otherwise the cart becomes `Removed` with quantity 1 |
| CartView.HandleRemoveProduct | src/components/Cart.jsx:18 | the cart becomes `WithoutKey` of the line's id |
| OrdersApi.Strip | src/api/ordersApi.js:7-11 | a payload line keeps exactly name, price and quantity |
| OrdersApi.CreateOrder | src/api/ordersApi.js:4-12 | the other order fields are copied; the products keep length, order, name, price and quantity |
| OrdersApi.PayloadTotalIsCartTotal | src/api/ordersApi.js:7-11 | the stripped lines of a cart add up to its total |
| OrdersApi.StoredTotalIsCartTotal | src/api/ordersApi.js:7-11 | the stripped products add up to the cart total |
| Checkout.FirstError | src/pages/Checkout.jsx:83-89 | no message exactly when no field is flagged; otherwise the first flagged field's, in the order name, email, phone, city, address |
| Checkout.PassesIffAllValid | src/pages/Checkout.jsx:73-89 | validation passes exactly when all five fields are non-blank and match their patterns |
| Checkout.BlankNameFlagged | src/pages/Checkout.jsx:74 | a whitespace-only name matches the letters pattern and is still flagged |
| Checkout.EmailPatternShape | src/pages/Checkout.jsx:68 | a matching email has no whitespace and is not blank |
| Checkout.PhonePatternShape | src/pages/Checkout.jsx:69 | a matching phone is 8 to 16 characters after an optional `+` |
| Checkout.EmailExamples | src/pages/Checkout.jsx:68 | "ali@shop.ma" matches and "ali@shop" does not |
| Checkout.PhoneExamples | src/pages/Checkout.jsx:69 | "+212 600-123456" matches and "0612345" does not |
| Checkout.LettersOnly | src/pages/Checkout.jsx:250 | the name sanitiser keeps exactly the letters and whitespace, as often as they occur |
| Checkout.PhoneCharsOnly | src/pages/Checkout.jsx:290 | the phone sanitiser keeps exactly `+`, digits, whitespace and `-` |
| Checkout.AddressCharsOnly | src/pages/Checkout.jsx:336 | the address sanitiser keeps exactly letters, digits, whitespace, `,`, `.` and `-` |
| Checkout.SanitisersIdempotent | src/pages/Checkout.jsx:250-336 | sanitising a sanitised value changes nothing |
| Checkout.SanitisedMatches | src/pages/Checkout.jsx:67-71 | a non-blank sanitised name, city or address matches its pattern |
| Checkout.PhoneSanitiserLooser | src/pages/Checkout.jsx:289-292 | "06+12345678" passes the phone sanitiser unchanged but fails the phone pattern |
| Checkout.Errors | src/pages/Checkout.jsx:73-79 | a blank field is always flagged |
| Checkout.SentTotalIsCartTotal | src/pages/Checkout.jsx:102-107 | the order sent adds up to the cart total |
| Checkout.FirstMessage | src/pages/Checkout.jsx:83-89 | the chain of early returns computes `FirstError` |
| Checkout.CheckoutForm.constructor | src/pages/Checkout.jsx:25-46 | empty fields, payment "COD", no flags, no error, not submitting |
| Checkout.CheckoutForm.TypeName | src/pages/Checkout.jsx:249-252 | the name becomes the sanitised value and only its flag clears |
| Checkout.CheckoutForm.TypeEmail | src/pages/Checkout.jsx:56-64 | the email takes the raw value, the error and the email flag clear |
| Checkout.CheckoutForm.TypePhone | src/pages/Checkout.jsx:289-292 | the phone becomes the sanitised value and only its flag clears |
| Checkout.CheckoutForm.TypeCity | src/pages/Checkout.jsx:312-315 | the city becomes the sanitised value and only its flag clears |
| Checkout.CheckoutForm.TypeAddress | src/pages/Checkout.jsx:335-338 | the address becomes the sanitised value and only its flag clears |
| Checkout.CheckoutForm.ValidateInputs | src/pages/Checkout.jsx:66-90 | the flags become the fields' errors and the message is the first error |
| Checkout.CheckoutForm.HandleCheckout | src/pages/Checkout.jsx:92-142 | invalid: error set, nothing sent; valid: the order is sent as "Pending" with the cart, then navigating or the failure message |
| Settings.Rules | src/pages/dashboard/Settings.jsx:56-107 | a rejection is one of the four form messages, and a request carries the given username |
| Settings.Decide | src/pages/dashboard/Settings.jsx:44-47 | the rules on the trimmed fields; a request carries the trimmed username |
| Settings.Check | src/pages/dashboard/Settings.jsx:44-107 | the early returns compute `Decide`; a request carries the trimmed username |
| Settings.NoChangesIffCannotSubmit | src/pages/dashboard/Settings.jsx:152-154 | "No changes" is the outcome exactly when `canSubmit` is false |
| Settings.RulesSent | src/pages/dashboard/Settings.jsx:56-107 | on trimmed values: a request has something to change, a password exactly with a new one equal to the confirmation, the current password whenever the username or password changes, the query exactly with a current password |
| Settings.SentPayload | src/pages/dashboard/Settings.jsx:93-107 | the payload carries the trimmed username, and `password` exactly when a new password was accepted |
| Settings.SentQuery | src/pages/dashboard/Settings.jsx:96-102 | the `oldPassword` parameter is present exactly when the current password is not blank |
| Settings.SentConfirmed | src/pages/dashboard/Settings.jsx:63-80 | a sent username or password change always has a current password, and a new password equals its confirmation |
| Settings.ConfirmationAloneIsSent | src/pages/dashboard/Settings.jsx:50-56 | with only the confirmation filled in, a request with no password and no query is sent |
| Settings.ErrorMessage | src/pages/dashboard/Settings.jsx:133-145 | 401, 400 (with the body when there is one), other statuses (the body's `message` when there is one), network error |
| Settings.NothingLeftAfterSuccess | src/pages/dashboard/Settings.jsx:119-122 | after a success the form cannot submit again until something changes |
| Settings.SettingsForm.constructor | src/pages/dashboard/Settings.jsx:6-30 | the loaded username is both the username and the original one; everything else is empty |
| Settings.SettingsForm.HandleSubmit | src/pages/dashboard/Settings.jsx:38-149 | rejected: error set, no request; sent: on success the original username is the trimmed one and the passwords clear; on failure the error message |
| Settings.SettingsForm.Submit | src/pages/dashboard/Settings.jsx:40-42 | messages reset first; a rejection sets its error, a request is handed to `Send` |
| Settings.SettingsForm.Send | src/pages/dashboard/Settings.jsx:110-148 | success: message, original username, cleared passwords and hidden password; failure: the error message only |
| AdminProducts.ImageUrl | src/pages/dashboard/Products.jsx:130-132 | `http` urls unchanged, others joined to the base with one `/` |
| AdminProducts.ImageUrlOneSlash | src/pages/dashboard/Products.jsx:131 | exactly one `/` between base and relative path |
| AdminProducts.ProcessProduct | src/pages/dashboard/Products.jsx:125-136 | the fields are copied, each image mapped by `ImageUrl`, the flags by `parseBoolean` |
| AdminProducts.FilteredProducts | src/pages/dashboard/Products.jsx:229-237 | exactly the products whose name or description contains the query and whose category matches |
| AdminProducts.NoFilterShowsAll | src/pages/dashboard/Products.jsx:229-237 | an empty query and no category show the whole list |
| AdminProducts.FilteredKeepsOrder | src/pages/dashboard/Products.jsx:229 | the filter keeps the list order |
| AdminProducts.ReplaceById | src/pages/dashboard/Products.jsx:196 | an edit replaces exactly the products with the updated id, in place |
| AdminProducts.ReplaceByIdIdempotent | src/pages/dashboard/Products.jsx:196 | replacing twice is replacing once |
| AdminProducts.ReplaceByIdKeepsIds | src/pages/dashboard/Products.jsx:196 | an edit keeps every position's id |
| AdminProducts.Prepend | src/pages/dashboard/Products.jsx:199-203 | the new product comes first, every field as processed except `images`, which are the preview urls when there are any; the rest of the list follows unchanged |
| AdminProducts.DeleteById | src/pages/dashboard/Products.jsx:216-220 | no pending id: unchanged; else no product with it remains and every other one does |
| AdminProducts.DeleteByIdOrderAndIdempotent | src/pages/dashboard/Products.jsx:220 | a delete keeps the order and a second one changes nothing |
| AdminCategories.NormalizeImagePath | src/pages/dashboard/Categories.jsx:12-27 | the step-by-step path building gives the same url as the catalogue's `getFullImageUrl` |
| AdminCategories.WithImageUrl | src/pages/dashboard/Categories.jsx:50-53 | a listed category keeps its fields and gains the full `imageUrl` |
| AdminCategories.FindById | src/pages/dashboard/Categories.jsx:79 | the first category with the id; none exactly when no id matches |
| AdminCategories.GetProductCount | src/pages/dashboard/Categories.jsx:78-84 | 0 for an unknown id, else the products filed under the category's name |
| AdminCategories.ProductCountZero | src/pages/dashboard/Categories.jsx:83 | the count is 0 exactly when no product is filed under the name |
| AdminCategories.WithoutId | src/pages/dashboard/Categories.jsx:179 | the delete keeps exactly the categories with another id |
| AdminCategories.WithImageUrls | src/pages/dashboard/Categories.jsx:46-54 | the fetched list with its urls, in order |
| AdminCategories.CategoryManager.constructor | src/pages/dashboard/Categories.jsx:30-40 | empty lists and inputs, nothing pending |
| AdminCategories.CategoryManager.AddCategory | src/pages/dashboard/Categories.jsx:95-126 | refused while adding, for a blank name or without a file; else sends the trimmed name and appends the reply |
| AdminCategories.CategoryManager.SaveEdit | src/pages/dashboard/Categories.jsx:129-165 | refused for a blank name or with no image at all; else sends the trimmed name and on success reloads and leaves edit mode |
| AdminCategories.CategoryManager.HandleDelete | src/pages/dashboard/Categories.jsx:168-186 | the API is called exactly when no product is filed under the category; a refusal clears the pending id |
| AdminCategories.DeleteKeepsNonEmptyCategory | src/pages/dashboard/Categories.jsx:171-176 | a category with a product filed under it counts more than 0, so it is never deleted |
| AdminOrders.ItemsTotalConcat | src/pages/Dashboard.jsx:294-299 | the order amount adds up over two parts of the products |
| AdminOrders.ItemsTotalNonNegative | src/pages/dashboard/Orders.jsx:28 | with non-negative prices and quantities the total is not negative |
| AdminOrders.OrderTotal | src/pages/dashboard/Orders.jsx:27-28 | 0 without products or for none; one product gives price times quantity |
| AdminOrders.OrderTotalAppend | src/pages/dashboard/Orders.jsx:28 | one more product adds its price times quantity |
| AdminOrders.ChangeStatus | src/pages/dashboard/Orders.jsx:34-36 | the orders with the id get the new status; all others stay |
| AdminOrders.ChangeStatusTwice | src/pages/dashboard/Orders.jsx:35 | two changes are the last change |
| AdminOrders.ChangeStatusKeepsTotals | src/pages/dashboard/Orders.jsx:35 | a status change keeps id, date, customer and total |
| AdminOrders.DeleteOrder | src/pages/dashboard/Orders.jsx:48 | exactly the orders with another id remain |
| AdminOrders.DeleteOrderProperties | src/pages/dashboard/Orders.jsx:48 | the delete keeps order, a second delete changes nothing, and it ignores a prior status change |
| AdminOrders.DeleteNothingPending | src/pages/dashboard/Orders.jsx:48 | with no pending id every order stays |
| AdminOrders.FilteredOrders | src/pages/dashboard/Orders.jsx:58-75 | the list is never longer than the orders |
| AdminOrders.FilteredOrdersExact | src/pages/dashboard/Orders.jsx:58-75 | the list holds exactly the orders passing status, name and time window, as often as the input |
| AdminOrders.FilteredOrdersPass | src/pages/dashboard/Orders.jsx:60-74 | every listed order passes every filter |
| AdminOrders.NewestFirstPreorder | src/pages/dashboard/Orders.jsx:75 | the date comparator is a total preorder |
| AdminOrders.FilteredOrdersNewestFirst | src/pages/dashboard/Orders.jsx:75 | the list is newest first |
| AdminOrders.NoFilterListsAll | src/pages/dashboard/Orders.jsx:60-74 | no status and range "all" list every order |
| AdminOrders.WindowsNest | src/pages/dashboard/Orders.jsx:70-72 | the day list is no longer than the week list, which is no longer than the month list |
| Dashboard.TotalSales | src/pages/Dashboard.jsx:112-115 | at most the number of orders |
| Dashboard.TotalSalesIsDeliveredCount | src/pages/Dashboard.jsx:112-115 | `totalSales` is the number of "Delivered" orders |
| Dashboard.SalesThisMonth | src/pages/Dashboard.jsx:116-122 | `salesThisMonth` is at most the number of orders |
| Dashboard.MonthWithinTotal | src/pages/Dashboard.jsx:116-122 | `salesThisMonth` never exceeds `totalSales` |
| Dashboard.TotalSalesPermutation | src/pages/Dashboard.jsx:124-125 | reordering the orders keeps `totalSales` |
| Dashboard.Overview.constructor | src/pages/Dashboard.jsx:96 | the overview holds the fetched orders |
| Dashboard.Overview.LatestOrders | src/pages/Dashboard.jsx:124-126 | the state list is sorted newest first in place and the first five are listed |
| Dashboard.LatestOrdersShape | src/pages/Dashboard.jsx:124-126 | at most five, newest first, drawn from the orders, none left out newer than a listed one |
| Dashboard.LatestOrdersStable | src/pages/Dashboard.jsx:124-125 | sorting the sorted state again changes nothing |
| Dashboard.SortKeepsCounters | src/pages/Dashboard.jsx:112-125 | the in-place sort keeps `totalSales` |
| Sidebar.LastSeen | src/components/Sidebar.jsx:19 | no stored id counts as 0 |
| Sidebar.IsNew | src/components/Sidebar.jsx:24 | when the stored id does not parse, no order is new |
| Sidebar.NewOrdersCount | src/components/Sidebar.jsx:23-27 | at most the number of orders, and 0 when the stored id does not parse |
| Sidebar.MaxId | src/components/Sidebar.jsx:45 | the largest id of the list, one of its ids |
| Sidebar.Badge.constructor | src/components/Sidebar.jsx:11 | the badge starts at 0 |
| Sidebar.Badge.CheckNewOrders | src/components/Sidebar.jsx:14-32 | a non-empty fetch sets the count; an empty or failed one keeps it |
| Sidebar.Badge.HandleOrdersClick | src/components/Sidebar.jsx:40-53 | stores the largest id and resets the count; a failed fetch resets the count only |
| Sidebar.RecountAfterClick | src/components/Sidebar.jsx:23-48 | recounting the same list after a click gives 0 |
| Sidebar.CountAtMostPending | src/components/Sidebar.jsx:23-25 | the count never exceeds the pending orders |
| Sidebar.NothingStoredCountsPositiveIds | src/components/Sidebar.jsx:19-25 | with nothing stored, the count is the pending orders with a positive id |

## Left out

- Rendering, styling, modals, focus and hover state, and `navigate` calls. The checkout's
  redirect to the cart is kept only as the predicate `Checkout.RedirectsToCart`.
- Timing: `setTimeout`, `setInterval` and the order in which `await`ed calls finish. Every
  `setState(prev => ...)` is one sequential update. As a result, the checkout's delayed
  `clearCart` after navigation and the settings page's delayed logout are not modelled.
- The network: every API call is a parameter of the method that makes it (success or
  failure, the reply). `src/api/axios.js`, `src/api/productsApi.js` and
  `src/api/categoriesApi.js` are not part of this model.
- `localStorage` and `JSON.parse`/`JSON.stringify`. The stored cart is the datatype
  `CartContext.Stored` (a parsed list or a failure), and saving it is not modelled.
- Floating-point prices, `toLocaleString` formatting and `Date` parsing. Prices are
  integers and dates integer milliseconds; the month of a date is a parameter.
- `Math.random` order numbers and the confirmation page's order details.
- `Text.IsSpace`: whitespace is ASCII space, tab, line feed, carriage return, vertical tab
  and form feed. JavaScript's `\s` and `trim()` also accept Unicode spaces.
- `Url.Decode`: a `%XX` escape becomes the character with code XX. Escapes of the bytes of
  a multi-byte UTF-8 character are not combined into that character, as the browser does.
- `Text.ToLower`: lower-cases ASCII capitals only. JavaScript's `toLowerCase` also folds
  non-ASCII letters.
- `Shop.SortLeqPreorder`: the `name_asc` ordering holds only when the `localeCompare`
  parameter is consistent (the hypothesis `ConsistentCompare`).
- `Seqs.SortBy` is an insertion sort that stands for `Array.prototype.sort`. It gives the
  same order because both are stable.
- `ProductPage.Gallery`: the gallery is modelled only with at least one image. With none,
  the component renders a placeholder and has no handlers.
- `AdminCategories.NormalizeImagePath`: a category's `image` is a string or missing here.
  An image object would make `startsWith` throw.
- `AdminProducts.DeleteById`, `AdminProducts.ReplaceById`, `AdminProducts.Prepend`,
  `AdminOrders.ChangeStatus`, `AdminOrders.DeleteOrder`: the list updates after a
  successful API call. A failure leaves the list as it was and shows an alert, and that
  path is not modelled.
- `Checkout.CheckoutForm`: the payment-method selector is not modelled. The method is
  always "COD", and typing into any other field through the generic `handleChange` is not
  modelled.
- The order confirmation page, login, contact, about, the blur-hash image decoding and the
  navigation bar are outside this model.

## Findings

| source | as written | input that shows it | evidently intended | confidence | as-written member | corrected member |
|---|---|---|---|---|---|---|
| src/context/CartContext.jsx:53 | `removeItem` finds the index in the rendered `cartItems` and applies it to `prev` | rendered `[A(q1), B(q3)]`, `prev` `[B(q3)]` after a queued removal of A; `removeItem(A, 1)` decrements B, and `removeItem(B, 1)` with `prev` `[A]` throws | look the index up in `prev` | not executed | CartContext.RenderedIndexHitsWrongLine | CartContext.Removed |
| src/pages/Shop.jsx:46 | `imageObject?.path \|\| imageObject` passes a pathless image object itself to `getFullImageUrl`, whose `startsWith` throws | a product with images `[{ path: null, blurHash: "LKO2" }, "lamp.png"]` | drop that image and keep the others | not executed | Shop.PathlessImageObjectThrows | Shop.ProcessProduct |
| src/pages/CategoriesPage.jsx:64 | the same expression in `processCategoryData` throws inside the `try`, so no category is shown | categories `[{ id: 1, image: "lamps.png" }, { id: 2, image: {} }]` | show both, the second without an image | not executed | CategoriesPage.PathlessCategoryEmptiesPage | CategoriesPage.Load |
