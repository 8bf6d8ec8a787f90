# PistachioHut storefront: a Dafny model of its page logic

PistachioHut is an online shop for pistachio products, written as a React single-page application. This project models the logic under its pages and proves properties of that model:

- the guest cart kept in the browser's local storage;
- the cart page's quantity updates, removals, subtotal and checkout redirect;
- the product page's star rating, cached lookup, quantity stepper and add-to-cart guard;
- the payment page's stock reconciliation, card check, order number and the sequence of requests that pays for an order;
- the user dashboard's refund button, status labels, order cancellation and ordering of orders and wishlist;
- the catalogue's rating average, search filter, grouping by category and sorting;
- the admin price and delivery panels, the admin sidebar and the route guard;
- the authentication context and the login and signup pages.

Every HTTP call becomes an input to the model:
- a `Response<T>` (the body, or the backend's error message);
- a boolean saying whether the backend accepted the call;
- a map from product id to the product's stock, where a missing key is a failed request;
- `failAt`, the position of the first request the backend rejects in a chain of awaited requests.

Local storage is the class `Storage.LocalStorage`, with one field per key the pages use. Money is held in integer cents.

State that the source keeps in React state and updates step by step is modelled as a class whose methods carry `modifies` clauses. Each such method is proved against a specification function, and the properties are proved as lemmas about those functions. Pure computations are modelled as functions.

Modules, one per source file:

| module | source |
|---|---|
| `Common` | shared records (`CartLine`, `Product`, `User`), `Option`, `Response`, `find` |
| `Storage` | the browser's local storage |
| `Sorting` | `Array.prototype.sort` with a comparator, as an insertion sort |
| `CartUtils` | src/utils/cartUtils.js |
| `CartPage` | src/Pages/CartPage.js |
| `ProductDetails` | src/Pages/ProductDetailsPage.js |
| `Payment` | src/Pages/PaymentPage.js |
| `Dashboard` | src/Pages/DashboardPage.js |
| `ProductsPage` | src/Pages/ProductsPage.js |
| `PriceManagement` | src/components/admin/PriceManagement.js |
| `DeliveryManagement` | src/components/admin/DeliveryManagement.js |
| `ProtectedRoute` | src/components/ProtectedRoute.js |
| `Sidebar` | src/components/admin/Sidebar.js, with the routes of src/Pages/AdminDashboard.js |
| `AuthContext` | src/contexts/AuthContext.js |
| `AuthPages` | src/Pages/AuthPages.js |

## Model

| member | source | states |
|---|---|---|
| Common.ErrorText | src/Pages/CartPage.js:102 | The backend's `msg` is shown when it is non-empty; otherwise the page's own fallback text is shown. |
| Common.FindFirst | src/utils/cartUtils.js:13 | `find` returns the first index whose element satisfies the predicate, or none exactly when no element does. |
| CartUtils.GetCartFromLocalStorage | src/utils/cartUtils.js:2-5 | An absent `cart` key reads as the empty list; otherwise the stored list is returned. |
| CartUtils.SaveCartToLocalStorage | src/utils/cartUtils.js:7-9 | The key holds exactly the saved list, and reading it back gives that list. |
| CartUtils.LineIndex | src/utils/cartUtils.js:13 | The index is that of the first line for the product; there is none exactly when no line has the product id. |
| CartUtils.IsLineFor | src/utils/cartUtils.js:13 | The predicate `find` is called with: a line is for the product exactly when its `product_id` equals the id. |
| CartUtils.WithoutProduct | src/utils/cartUtils.js:28 | The filtered cart holds exactly the lines of other products and is no longer than the original. |
| CartUtils.CartWithItem | src/utils/cartUtils.js:11-24 | The cart after an add: the same length when the product has a line, one longer with the item last when it has none, and the ids of the existing lines unchanged. |
| CartUtils.AddItemToLocalStorageCart | src/utils/cartUtils.js:11-24 | The loop over the stored cart writes back `CartWithItem` of the cart that was read. |
| CartUtils.RemoveItemFromLocalStorageCart | src/utils/cartUtils.js:26-30 | The stored cart becomes the read cart without the product's lines. |
| CartUtils.AddToExistingLine | src/utils/cartUtils.js:13-17 | When the product has a line, the first such line gains the item's quantity; the length is unchanged and every other line is untouched. |
| CartUtils.AddNewLine | src/utils/cartUtils.js:18-21 | When the product has no line, the item is appended and every earlier line is kept. |
| CartUtils.AddLeavesLineForProduct | src/utils/cartUtils.js:11-24 | After an add, the cart has a line for the item's product. |
| CartUtils.AddKeepsIdsUnique | src/utils/cartUtils.js:11-24 | If product ids are distinct before an add, they are distinct after it. |
| CartUtils.WithoutProductAppend | src/utils/cartUtils.js:28 | Removal distributes over concatenation, so the kept lines keep their order. |
| CartUtils.WithoutAbsentProduct | src/utils/cartUtils.js:28 | Removing a product the cart does not hold leaves the cart unchanged. |
| CartUtils.WithoutProductIdempotent | src/utils/cartUtils.js:28 | Removing twice gives the same cart as removing once. |
| CartUtils.WithoutPresentProduct | src/utils/cartUtils.js:26-30 | With distinct ids, removing a product drops exactly its one line and keeps the rest in order. |
| CartPage.UnitPrice | src/Pages/CartPage.js:179-181 | The unit price is the discounted price when it is present, non-zero and below the list price; otherwise it is the list price. It never exceeds the list price. |
| CartPage.Subtotal | src/Pages/CartPage.js:177-183 | The `reduce` summing each line's unit price times quantity, 0 for an empty cart. Its properties are the lemmas `SubtotalAppend`, `SubtotalBounds` and those after them. |
| CartPage.WithQuantity | src/Pages/CartPage.js:136-140 | The `map` giving every line of the product the new quantity. What it keeps and changes is stated by `QuantityUpdateShape` and `WithQuantityIsUpdate`. |
| CartPage.LineTotal | src/Pages/CartPage.js:177-183 | A line's share of the subtotal is its unit price times its quantity. That is the list price times quantity whenever the discount does not apply (absent, zero, or not below the price), and it is what the Total column shows when the discount applies. This is the corrected line total. |
| CartPage.DisplayedLineTotal | src/Pages/CartPage.js:69 | As written, the Total column is `discounted_price * quantity`, which is NaN when the line has no `discounted_price` field. |
| CartPage.Page.constructor | src/Pages/CartPage.js:83-109 | A guest's cart is read from storage. A signed-in user's cart comes from the backend; on failure the backend's message or "Failed to load cart items" is shown. |
| CartPage.Page.HandleUpdateQuantity | src/Pages/CartPage.js:111-145 | A quantity below 1 changes nothing. A signed-in update sends the request and changes the lines only if it is accepted; otherwise it sets the error. A guest update rewrites the lines and storage to the same new list. |
| CartPage.Page.HandleRemoveItem | src/Pages/CartPage.js:148-164 | A signed-in removal sends the request and never changes the displayed lines. A refused removal sets the error. A guest removal filters the product out of both the lines and storage. |
| CartPage.Page.HandleCheckout | src/Pages/CartPage.js:166-175 | Guests go to `/login` with `from: /cart`; signed-in users go to `/payment`. |
| CartPage.SubtotalAppend | src/Pages/CartPage.js:177-183 | The subtotal of a concatenation is the sum of the two subtotals. |
| CartPage.SubtotalBounds | src/Pages/CartPage.js:177-183 | With non-negative prices and quantities, the subtotal lies between 0 and the undiscounted total. |
| CartPage.SubtotalAfterAdd | src/utils/cartUtils.js:11-24 | A guest add raises the subtotal by the merged quantity times that line's unit price, or by the new line's total. |
| CartPage.SubtotalReplace | src/Pages/CartPage.js:177-183 | Replacing one line changes the subtotal by the difference of the two line totals. |
| CartPage.SubtotalAfterRemove | src/Pages/CartPage.js:157-163 | With distinct ids, a guest removal lowers the subtotal by exactly the removed line's total. |
| CartPage.QuantityUpdateShape | src/Pages/CartPage.js:134-143 | A quantity update keeps the length and the order of ids, changes only the matching lines' quantity, and keeps ids distinct. |
| CartPage.WithQuantityIsUpdate | src/Pages/CartPage.js:136-140 | With distinct ids, the update changes the product's one line and nothing else. |
| CartPage.SubtotalAfterQuantityUpdate | src/Pages/CartPage.js:134-143 | With distinct ids, setting a line's quantity moves the subtotal by the unit price times the change. |
| CartPage.LineTotalChange | src/Pages/CartPage.js:179-181 | Changing a line's quantity changes its total by the unit price times the difference. |
| CartPage.DisplayedLineTotalDisagrees | src/Pages/CartPage.js:69 | For a guest line with no discounted price, the column is undefined while the subtotal counts the list price. For a discount above the list price, the column shows the discounted price while the subtotal counts the list price. |
| Sorting.Insert | src/Pages/ProductsPage.js:159-175 | Inserting adds exactly one element, as a multiset. |
| Sorting.SortBy | src/Pages/ProductsPage.js:159-175 | Sorting returns a permutation of its input. |
| Sorting.InsertSorted | src/Pages/ProductsPage.js:159-175 | Inserting into a sorted list with a comparator total on it keeps the list sorted. |
| Sorting.SortBySorted | src/Pages/ProductsPage.js:159-175 | With a comparator total on the input, the result is sorted. |
| Sorting.SortedPairwise | src/Pages/DashboardPage.js:271-281 | With a transitive comparator, every earlier element of a sorted list is ordered before every later one. |
| ProductsPage.ApprovedReviews | src/Pages/ProductsPage.js:103 | The approved reviews are exactly the reviews with `approved` set. |
| ProductsPage.AverageRating | src/Pages/ProductsPage.js:99-113 | The rating is 3 when the fetch fails or no review is approved; otherwise it is the sum of the approved ratings over their count. |
| ProductsPage.SumOfRatingsBounds | src/Pages/ProductsPage.js:106 | Ratings bounded by lo and hi give a sum between lo times n and hi times n. |
| ProductsPage.SumOfRatings | src/Pages/ProductsPage.js:106 | The `reduce` summing the ratings, 0 for no review; `SumOfRatingsBounds` bounds it. |
| ProductsPage.AverageRatingInRange | src/Pages/ProductsPage.js:99-113 | With ratings from 1 to 5, every average, including the default, lies between 1 and 5. |
| ProductsPage.AttachRatings | src/Pages/ProductsPage.js:97-114 | The loop gives every product, in order, its own average rating and changes nothing else. |
| ProductsPage.FetchProducts | src/Pages/ProductsPage.js:92-123 | On success the rated list is shown and cached under `products`. On failure "Failed to load products" is shown and the cache is untouched. |
| ProductsPage.ToLower | src/Pages/ProductsPage.js:131-132 | Lower-casing maps every character and keeps the length. |
| ProductsPage.ToLowerChar | src/Pages/ProductsPage.js:131-132 | `toLowerCase` on one character: A to Z become a to z, every other character is kept. |
| ProductsPage.Filtered | src/Pages/ProductsPage.js:129-133 | The filter keeps exactly the products whose lower-cased name or description contains the lower-cased query. |
| ProductsPage.MatchesQuery | src/Pages/ProductsPage.js:131-132 | A product matches when its lower-cased name or description includes the lower-cased query. |
| ProductsPage.Includes | src/Pages/ProductsPage.js:131-132 | `includes`: the query occurs at some position of the string; the empty query occurs in every string. |
| ProductsPage.FilteredAppend | src/Pages/ProductsPage.js:129-133 | Filtering distributes over concatenation, so it keeps the catalogue's order. |
| ProductsPage.EmptyQueryKeepsAll | src/Pages/ProductsPage.js:129-133 | An empty query keeps every product. |
| ProductsPage.ToLowerIdempotent | src/Pages/ProductsPage.js:131-132 | Lower-casing twice is lower-casing once. |
| ProductsPage.FilterIgnoresQueryCase | src/Pages/ProductsPage.js:129-133 | A query and its lower-cased form select the same products. |
| ProductsPage.InCategory | src/Pages/ProductsPage.js:137-144 | A category's list holds exactly the products of that category. |
| ProductsPage.GroupByCategory | src/Pages/ProductsPage.js:137-144 | The `reduce` building the category groups; `GroupsAreCategories` states its keys and groups. |
| ProductsPage.GroupKeysStep | src/Pages/ProductsPage.js:137-144 | One more product adds its category to the categories present. |
| ProductsPage.Categories | src/Pages/ProductsPage.js:147 | The category names are exactly the categories present, with no repeats. |
| ProductsPage.GroupsAreCategories | src/Pages/ProductsPage.js:137-144 | The groups are keyed by exactly the categories present, and each group is that category's products in filtered order. |
| ProductsPage.ProductInExactlyOneGroup | src/Pages/ProductsPage.js:137-144 | Every product is in its own category's group and in no other. |
| ProductsPage.LexLeTotal | src/Pages/ProductsPage.js:147-149 | Any two names are comparable. |
| ProductsPage.LexLeAntisymmetric | src/Pages/ProductsPage.js:147-149 | Names that compare both ways are equal. |
| ProductsPage.LexLeTransitive | src/Pages/ProductsPage.js:147-149 | The name order is transitive. |
| ProductsPage.LexLe | src/Pages/ProductsPage.js:147-149 | `localeCompare(a, b) <= 0` as character-by-character order: the empty name comes first, and a name precedes the names it is a prefix of. |
| ProductsPage.CategoryOrder | src/Pages/ProductsPage.js:147-149 | The category comparator: ascending name order for "asc", the reverse order for any other sort order. |
| ProductsPage.ProductOrderByKey | src/Pages/ProductsPage.js:159-175 | The comparator orders by price, popularity, rating, or popularity reversed. The direction flips for anything but 'asc'. |
| ProductsPage.CompareValue | src/Pages/ProductsPage.js:159-170 | The comparator's difference is the first product's sort key minus the second's. |
| ProductsPage.SortKey | src/Pages/ProductsPage.js:159-170 | The key each sort option compares: price, popularity, rating, or popularity negated. |
| ProductsPage.ProductOrder | src/Pages/ProductsPage.js:159-175 | The comparator used by `sort`, reversed unless the order is 'asc'; `ProductOrderByKey` states it by key. |
| ProductsPage.GroupAndSortProducts | src/Pages/ProductsPage.js:128-181 | Category mode groups the results; every other mode sorts them. `totalProducts` is the filtered count. The sorted list is a permutation of the filtered one, and so are the category names. |
| ProductsPage.CategoryViewCorrect | src/Pages/ProductsPage.js:137-155 | In category mode, every category name is a group key, the names are distinct, and they are ascending for 'asc' and descending otherwise. |
| ProductsPage.DistinctAfterSort | src/Pages/ProductsPage.js:147-149 | A permutation of distinct names has distinct names. |
| ProductsPage.SortedViewOrdered | src/Pages/ProductsPage.js:159-175 | In every other mode, each earlier product is ordered before each later one by the chosen key and direction. |
| ProductsPage.RecommendedAscendingIsMostPopularFirst | src/Pages/ProductsPage.js:171-174 | The default order with 'asc' lists the most popular products first. |
| ProductDetails.Slot | src/Pages/ProductDetailsPage.js:14-20 | A slot is full iff its number is at most the rating, and half iff it is not full and its number minus 0.5 equals the rating. |
| ProductDetails.StarRating | src/Pages/ProductDetailsPage.js:11-23 | The loop yields exactly five icons, slot by slot as above. |
| ProductDetails.Stars | src/Pages/ProductDetailsPage.js:11-23 | The five icons `StarRating` renders, slot 1 to slot 5, each chosen by `Slot`. |
| ProductDetails.FullSlotsArePrefix | src/Pages/ProductDetailsPage.js:13-21 | Every slot before a full slot is full. |
| ProductDetails.AtMostOneHalf | src/Pages/ProductDetailsPage.js:16 | At most one slot is half full. |
| ProductDetails.WholeRating | src/Pages/ProductDetailsPage.js:11-23 | A whole rating r from 0 to 5 shows r full icons, then 5 − r empty ones. |
| ProductDetails.HalfRating | src/Pages/ProductDetailsPage.js:11-23 | A rating r + 0.5 shows r full icons, one half icon, then empty ones. |
| ProductDetails.CachedProduct | src/Pages/ProductDetailsPage.js:186-198 | The cached product is the first stored one with the id; there is none exactly when the key is absent or holds no product with that id. |
| ProductDetails.SteppedQuantity | src/Pages/ProductDetailsPage.js:211-213 | The stepped quantity is `max(1, prev + delta)`, so it is always at least 1. |
| ProductDetails.StepUpThenDown | src/Pages/ProductDetailsPage.js:211-213 | A `+` then a `-` gives back any quantity of at least 1. |
| ProductDetails.StepDownAtOne | src/Pages/ProductDetailsPage.js:211-213 | A `-` at quantity 1 leaves the quantity at 1. |
| ProductDetails.AddAllowed | src/Pages/ProductDetailsPage.js:216 | The add-to-cart guard: a product is loaded and its stock covers the quantity being added. |
| ProductDetails.AddButtonDisabled | src/Pages/ProductDetailsPage.js:412 | The button is disabled exactly at stock 0. |
| ProductDetails.DisabledButtonMeansRefused | src/Pages/ProductDetailsPage.js:412 | When the button is disabled (stock 0), the guard refuses every quantity of at least 1. |
| ProductDetails.NegativeStockEnabledButRefused | src/Pages/ProductDetailsPage.js:216 | A negative stock leaves the button enabled, but the guard still refuses. |
| ProductDetails.GuestLine | src/Pages/ProductDetailsPage.js:223-229 | The guest's line copies the id, name, price, quantity and image and has no discounted price. |
| ProductDetails.GuardIgnoresCartQuantity | src/Pages/ProductDetailsPage.js:216 | The guard checks only the quantity being added, so a line already in the cart can grow past the stock. |
| ProductDetails.Page.constructor | src/Pages/ProductDetailsPage.js:184-209 | The product comes from the cache when the cache has it; otherwise it comes from the backend. A failed fetch shows "Failed to load product details.". |
| ProductDetails.Page.HandleQuantityChange | src/Pages/ProductDetailsPage.js:211-213 | The quantity becomes the stepped quantity. |
| ProductDetails.Page.HandleAddToCart | src/Pages/ProductDetailsPage.js:215-261 | A refused guard shows the out-of-stock message and adds nothing. A guest's line is merged into the stored cart. A signed-in add sends `/cart/add` with the user's email and shows the backend's message or "An error occurred". |
| Payment.ReconciledLine | src/Pages/PaymentPage.js:82-106 | A line at stock 0 keeps its quantity and gets "Out of stock". A line above the stock is capped to it, highlighted, and gets "Only n available.". Any other line is unchanged and not highlighted. |
| Payment.LineChargeIsPriceTimesQuantity | src/Pages/PaymentPage.js:82-106 | A line adds the fetched discounted price times the reconciled quantity, except a line at stock 0, which adds nothing. |
| Payment.LineCharge | src/Pages/PaymentPage.js:82-106 | The loop's `total +=` step: nothing for a sold-out line, the stock times the fetched discounted price for a line above the stock, and the quantity times that price otherwise. `LineChargeIsPriceTimesQuantity` states its meaning. |
| Payment.Reconciled | src/Pages/PaymentPage.js:75-107 | The reconciled cart has one checkout line per cart line, in order. |
| Payment.ReconciledTotal | src/Pages/PaymentPage.js:75-110 | `total` at the end of the loop, shown on the page and sent as `total_price` (lines 162-176): the sum of `LineCharge` over the cart in order. `TotalIsBilledTotal` states its meaning. |
| Payment.Lines | src/Pages/PaymentPage.js:109 | The cart lines of the checkout lines, in order. |
| Payment.ReconcilePreservesOrder | src/Pages/PaymentPage.js:75-107 | Reconciliation keeps the length and the order of product ids. |
| Payment.TotalIsBilledTotal | src/Pages/PaymentPage.js:75-110 | The total is the sum over reconciled lines of discounted price times quantity, with lines at stock 0 counted as 0. |
| Payment.ReconcileSettles | src/Pages/PaymentPage.js:75-110 | Reconciling the reconciled cart again changes no quantity and no total. |
| Payment.SoldOutLineStillBought | src/Pages/PaymentPage.js:82-88 | As written, a sold-out line of 2 adds 0 to the total. The summary still counts 1600 for it, the pay loop still sends a stock decrease of 2, and the order lists 2. |
| Payment.CorrectedLine | src/Pages/PaymentPage.js:82-88 | Corrected: a sold-out line is kept with quantity 0; every other line is reconciled as written. |
| Payment.CorrectedReconciled | src/Pages/PaymentPage.js:75-107 | Corrected reconciliation, line by line. |
| Payment.CorrectedTotalIsPlain | src/Pages/PaymentPage.js:75-110 | With the correction, the page's total is the plain sum of price times shown quantity. |
| Payment.CorrectedSkipsSoldOut | src/Pages/PaymentPage.js:137-159 | With the correction, no stock request is sent for a sold-out product. |
| Payment.CharIndex | src/Pages/PaymentPage.js:39 | `Math.floor(r * 36)` is a valid index into the alphabet for r in [0, 1). |
| Payment.OrderNumberFor | src/Pages/PaymentPage.js:35-42 | The order number the ten draws give has 10 characters, all from A–Z0–9. |
| Payment.GenerateOrderNumber | src/Pages/PaymentPage.js:35-42 | The loop builds 10 characters, all from A–Z0–9, each chosen by its draw. |
| Payment.EveryOrderNumberReachable | src/Pages/PaymentPage.js:35-42 | Every 10-character string over the alphabet is produced by some draws. |
| Payment.WithoutWhitespace | src/Pages/PaymentPage.js:128 | Removing whitespace keeps exactly the non-whitespace characters. |
| Payment.IsJsWhitespace | src/Pages/PaymentPage.js:128 | The characters `\s` matches: tab, line feed, vertical tab, form feed, carriage return, space, no-break space, the Unicode space separators, the line and paragraph separators and the byte-order mark. |
| Payment.WithoutWhitespaceAppend | src/Pages/PaymentPage.js:128 | Whitespace removal distributes over concatenation. |
| Payment.CardCheckIgnoresSpaces | src/Pages/PaymentPage.js:128-132 | Inserting a space never changes whether a card number is accepted. |
| Payment.NoWhitespaceAccepted | src/Pages/PaymentPage.js:128-132 | Any 16 or more non-whitespace characters are accepted; only the length is checked. |
| Payment.Utf16Length | src/Pages/PaymentPage.js:128 | `.length` counts UTF-16 code units: between one and two per character, exactly one per character when none lies above U+FFFF, and two per character when all do. |
| Payment.CardNumberAccepted | src/Pages/PaymentPage.js:128-129 | The card check: a non-empty number with at least 16 code units once whitespace is removed. Its meaning is stated by the lemmas around it. |
| Payment.Utf16LengthWithoutWhitespace | src/Pages/PaymentPage.js:128 | Removing whitespace never adds code units. |
| Payment.Utf16LengthAppend | src/Pages/PaymentPage.js:128 | The code units of a concatenation are the sum of those of its parts. |
| Payment.EightEmojiAccepted | src/Pages/PaymentPage.js:128-129 | Eight characters U+1F600, 16 code units, pass the check. |
| Payment.KeptWhenNoWhitespace | src/Pages/PaymentPage.js:128 | A string without whitespace is left as it is. |
| Payment.AcceptedIsLongEnough | src/Pages/PaymentPage.js:128-132 | An accepted card number is at least 16 code units long, so at least 8 characters, and at least 16 characters when none lies above U+FFFF. |
| Payment.OrderItems | src/Pages/PaymentPage.js:168-174 | Each order item is its line, with `price` set to the line's discounted price. |
| Payment.PositiveLines | src/Pages/PaymentPage.js:138 | The lines with a positive quantity. |
| Payment.StockRequestsArePositiveLines | src/Pages/PaymentPage.js:137-159 | Exactly two requests per line with positive quantity, in cart order: a stock decrease, then a popularity increase. |
| Payment.StockRequestsAppend | src/Pages/PaymentPage.js:137-159 | The requests of a concatenation are the two request lists concatenated. |
| Payment.StockRequestSource | src/Pages/PaymentPage.js:137-159 | Each request names a line with positive quantity and carries that quantity. |
| Payment.StockRequestsFor | src/Pages/PaymentPage.js:138-158 | A line sends no request exactly when its quantity is not positive. |
| Payment.StockRequests | src/Pages/PaymentPage.js:137-159 | The requests of the stock loop, line after line; `StockRequestsArePositiveLines` states which they are. |
| Payment.StockPairsExtend | src/Pages/PaymentPage.js:137-159 | One more line keeps the requests paired with the lines of positive quantity. |
| Payment.OrderSummarySubtotal | src/Pages/PaymentPage.js:9-23 | The summary's subtotal: the cart page's subtotal of the lines less shipping; `SummaryAgreesWhenInStock` relates it to the total. |
| Payment.SendStockRequests | src/Pages/PaymentPage.js:137-159 | The awaited loop sends the requests in order up to and including the first rejected one. |
| Payment.SendLineRequests | src/Pages/PaymentPage.js:138-158 | One line's two awaited requests extend the sent list, stopping at a rejection. |
| Payment.SendOrderRequests | src/Pages/PaymentPage.js:162-193 | The order, the delivery and the cart clearing are sent in turn, stopping at the first rejection. |
| Payment.StockRequestsStep | src/Pages/PaymentPage.js:137-159 | One more line adds its requests to the end, and the result is a prefix of all requests. |
| Payment.SentUntilFailure | src/Pages/PaymentPage.js:134-200 | The sent requests are a prefix of the plan that ends at the rejected request. |
| Payment.PayPlan | src/Pages/PaymentPage.js:137-193 | Everything the payment sends when nothing fails: the stock requests of the lines, then the order, the delivery and the cart clearing. |
| Payment.SummaryAgreesWhenInStock | src/Pages/PaymentPage.js:9-23 | When every line is in stock, non-zero discounts are below list prices and the fetched discount equals the line's, the summary's subtotal equals the total. |
| Payment.SubtotalIsSum | src/Pages/PaymentPage.js:9-23 | Under the same conditions, the cart page's subtotal of the lines is the reconciled total. |
| Payment.Page.constructor | src/Pages/PaymentPage.js:44-62 | The page starts with no lines, total 0 and free shipping. |
| Payment.Page.FetchCartItems | src/Pages/PaymentPage.js:64-117 | The loop stores the reconciled cart and its total. A failed request leaves the page unchanged. |
| Payment.Page.OrderFor | src/Pages/PaymentPage.js:162-176 | The order carries the order number, the items of the lines and `total_price` equal to the reconciled total. |
| Payment.Page.HandlePayNow | src/Pages/PaymentPage.js:127-200 | An empty card number, or one shorter than 16 code units without whitespace, sends nothing. Otherwise the stock requests, the order, the delivery and the cart clearing are sent in turn up to the first rejection. The page thanks the user only if none is rejected. |
| Dashboard.DaysSinceOrder | src/Pages/DashboardPage.js:13 | The day count is the floor of the elapsed milliseconds over 86 400 000. |
| Dashboard.DaysSinceOrderMonotone | src/Pages/DashboardPage.js:13 | A later time never gives fewer days. |
| Dashboard.RefundButtonState | src/Pages/DashboardPage.js:176-193 | The button is enabled only in the last case: within 30 days, no refund status that blocks, and not delivered. After 30 days it always reads "Refund Expired". |
| Dashboard.ExpiryOverridesEverything | src/Pages/DashboardPage.js:177-179 | After 30 days, every item gets the same button. |
| Dashboard.RefundStatusBeforeDelivery | src/Pages/DashboardPage.js:180-191 | A refund status that is Processing, Denied, Rejected or Complete decides the button whatever the delivery status. |
| Dashboard.DeliveredItem | src/Pages/DashboardPage.js:189-191 | A delivered item within 30 days and without a refund status that blocks reads "Delivered". |
| Dashboard.OrDefault | src/Pages/DashboardPage.js:200-201 | `value \|\| fallback`: a missing or empty value shows the fallback. |
| Dashboard.DeliveryStatusLabel | src/Pages/DashboardPage.js:200 | A missing delivery status shows "Pending". |
| Dashboard.RefundStatusLabel | src/Pages/DashboardPage.js:201 | A missing refund status shows "N/A". |
| Dashboard.Unrefunded | src/Pages/DashboardPage.js:77 | The items whose `refund_processing` is not "Complete". |
| Dashboard.NeedsRestock | src/Pages/DashboardPage.js:77 | An item is restocked unless its `refund_processing` is "Complete"; a missing status restocks. |
| Dashboard.RestockRequests | src/Pages/DashboardPage.js:75-96 | The requests of the restock loop, item after item; `RestockRequestsAreUnrefunded` states which they are. |
| Dashboard.RestockRequestsFor | src/Pages/DashboardPage.js:77-95 | An item not refunded sends a stock increase and then a popularity decrease, each for its quantity; a refunded item sends nothing. |
| Dashboard.RestockPairsExtend | src/Pages/DashboardPage.js:75-96 | One more item keeps the requests paired with the items not refunded. |
| Dashboard.RestockRequestsAreUnrefunded | src/Pages/DashboardPage.js:75-96 | Exactly two requests per item not refunded, in item order: a stock increase, then a popularity decrease. |
| Dashboard.RefundedItemNotRestocked | src/Pages/DashboardPage.js:75-96 | Every restock request names an item whose refund is not complete. |
| Dashboard.RestockRequestsAppend | src/Pages/DashboardPage.js:75-96 | The requests of a concatenation are the two request lists concatenated. |
| Dashboard.RestockRequestsStep | src/Pages/DashboardPage.js:75-96 | One more item adds its requests to the end, and the result is a prefix of all requests. |
| Dashboard.CancelPlan | src/Pages/DashboardPage.js:75-104 | Everything the cancellation sends when nothing fails: the restock requests of the items, then the removal of the order. |
| Dashboard.SendItemRequests | src/Pages/DashboardPage.js:77-95 | One item's awaited requests extend the sent list, stopping at a rejection. |
| Dashboard.SendRestockRequests | src/Pages/DashboardPage.js:75-96 | The loop sends the restock requests in order up to and including the first rejected one. |
| Dashboard.SortedByKeyDescending | src/Pages/DashboardPage.js:271-281 | Sorting with `key(b) - key(a)` lists keys in descending order. |
| Dashboard.NewestOrderFirst | src/Pages/DashboardPage.js:272 | The comparator `b - a` puts an order before another exactly when it was created at the same time or later. |
| Dashboard.NewestEntryFirst | src/Pages/DashboardPage.js:280 | The comparator puts a wishlist entry before another exactly when it was added at the same time or later. |
| Dashboard.OrdersNewestFirst | src/Pages/DashboardPage.js:271-273 | Orders are listed newest `created_at` first. |
| Dashboard.WishlistNewestFirst | src/Pages/DashboardPage.js:279-281 | Wishlist entries are listed newest `added_on` first. |
| Dashboard.Page.FetchData | src/Pages/DashboardPage.js:262-288 | The orders are stored sorted newest first, then the wishlist likewise. A failed request stops the fetch there. |
| Dashboard.Page.constructor | src/Pages/DashboardPage.js:259-260 | The dashboard starts with no orders and an empty wishlist. |
| Dashboard.Page.HandleCancelOrder | src/Pages/DashboardPage.js:70-120 | The restock requests and then the removal are sent up to the first rejection. A full success alerts, then re-fetches the orders unsorted. Any rejection alerts "Failed to cancel order.". |
| PriceManagement.Normalise | src/components/admin/PriceManagement.js:18-22 | A missing or zero discounted price becomes the price; the other fields are kept. |
| PriceManagement.IsFalsy | src/components/admin/PriceManagement.js:52-53 | `!newPrice`: an empty box, or the number 0 it started with; typed text, "0" included, is truthy. |
| PriceManagement.NormaliseAll | src/components/admin/PriceManagement.js:18-22 | Every fetched product is normalised, in order. |
| PriceManagement.NormalisedDiscountBelowPrice | src/components/admin/PriceManagement.js:18-22 | If the backend's discounted price is absent or not above the price, the normalised discounted price is not above the price either. |
| PriceManagement.InitialPrices | src/components/admin/PriceManagement.js:26-30 | The edited prices have exactly one entry per product id. |
| PriceManagement.InitialPricesAreCurrent | src/components/admin/PriceManagement.js:26-30 | With distinct ids, each product's entry starts at its current price. |
| PriceManagement.InitEditedPrices | src/components/admin/PriceManagement.js:26-30 | The `forEach` loop builds exactly `InitialPrices`. |
| PriceManagement.UpdatedProduct | src/components/admin/PriceManagement.js:77-90 | After an update the price is the new price. The discounted price is lowered to it iff the new price is below the old discount, and is unchanged otherwise, so it never exceeds the price. |
| PriceManagement.WithNewPrice | src/components/admin/PriceManagement.js:77-90 | Every product with the id is updated, and products with other ids are unchanged. |
| PriceManagement.UpdateKeepsDiscountsBelowPrices | src/components/admin/PriceManagement.js:77-90 | The updated products have discount ≤ price, and a list where this held for all keeps it. |
| PriceManagement.UpdateIdempotent | src/components/admin/PriceManagement.js:77-90 | Applying the same price twice equals applying it once. |
| PriceManagement.UpdateRequest | src/components/admin/PriceManagement.js:56-63 | The request carries the id and the new price. |
| PriceManagement.RequestMatchesUpdate | src/components/admin/PriceManagement.js:56-90 | The request carries a discounted price exactly when the panel lowers it, and then it carries the lowered value. |
| PriceManagement.Panel.constructor | src/components/admin/PriceManagement.js:11-38 | The fetched products are normalised and the edited prices initialised; on failure "Failed to load products." is shown. |
| PriceManagement.Panel.HandlePriceChange | src/components/admin/PriceManagement.js:43-48 | Only the edited id's entry changes. |
| PriceManagement.Panel.HandleUpdatePrice | src/components/admin/PriceManagement.js:51-96 | An empty edited price sends nothing and changes nothing. Otherwise the request is sent, and an accepted update is applied to the list. A refused one alerts "Failed to update price." and changes nothing. |
| DeliveryManagement.OpenDeliveries | src/components/admin/DeliveryManagement.js:26-28 | The list shows exactly the fetched deliveries whose status is not "complete". |
| DeliveryManagement.IsOpen | src/components/admin/DeliveryManagement.js:27 | A delivery stays listed unless its status is exactly "complete"; a missing status stays. |
| DeliveryManagement.OpenDeliveriesAppend | src/components/admin/DeliveryManagement.js:26-28 | The filter distributes over concatenation. |
| DeliveryManagement.OpenDeliveriesKeepOrder | src/components/admin/DeliveryManagement.js:26-28 | The kept deliveries appear at increasing positions of the fetched list, and every skipped one is "complete". |
| DeliveryManagement.OpenDeliveriesIdempotent | src/components/admin/DeliveryManagement.js:26-28 | Filtering twice gives the same list as filtering once. |
| DeliveryManagement.CapitalisedCompleteIsKept | src/components/admin/DeliveryManagement.js:27 | The comparison is case-sensitive: "Complete" is kept and "complete" is dropped. |
| DeliveryManagement.FetchDeliveries | src/components/admin/DeliveryManagement.js:13-36 | A successful fetch clears the error and shows the open deliveries. A failure keeps the previous list and shows "Failed to load deliveries. Please try again.". |
| DeliveryManagement.FetchShowsNoCompleteDelivery | src/components/admin/DeliveryManagement.js:26-29 | After a successful fetch, no shown delivery has status "complete". |
| DeliveryManagement.ChangeStatus | src/components/admin/DeliveryManagement.js:38-74 | A status change alerts success or failure. Only an accepted change re-fetches the list. |
| DeliveryManagement.StatusChangeAlert | src/components/admin/DeliveryManagement.js:38-75 | The four alert texts: success or failure of marking completed, and success or failure of marking in transit. |
| DeliveryManagement.CompletedDeliveryLeavesList | src/components/admin/DeliveryManagement.js:38-55 | A delivery that the refreshed list reports "complete" leaves the list. |
| ProtectedRoute.Guard | src/components/ProtectedRoute.js:8-22 | Loading wins. Then a missing user redirects to `/login`, then a role outside a given list redirects to `/`. The children render iff the user is loaded, present, and (with a role list) holds a listed role. |
| ProtectedRoute.AnyRoleWithoutRoleList | src/components/ProtectedRoute.js:17-22 | Without a role list, any loaded user sees the children. |
| ProtectedRoute.MissingRoleRefused | src/components/ProtectedRoute.js:17-20 | A user without a role never passes a role list. |
| ProtectedRoute.RoleRefused | src/components/ProtectedRoute.js:17 | A role list is given and the user's role is missing or not in it. |
| ProtectedRoute.OutcomeKinds | src/components/ProtectedRoute.js:8-22 | The guard answers only loading, children, or a redirect to `/login` or `/`. |
| Sidebar.Links | src/components/admin/Sidebar.js:6-21 | 'Product Manager' gets the product manager's links; any other role, or none, gets the sales manager's. |
| Sidebar.Target | src/components/admin/Sidebar.js:29 | A link's target is `/admin/` followed by its path. |
| Sidebar.Paths | src/components/admin/Sidebar.js:6-19 | The paths of a link list, in order. |
| Sidebar.LinksForRole | src/components/admin/Sidebar.js:6-21 | The paths are exactly products, stock, deliveries, comments, or pricing, discounts, invoices, analytics, returns, in that order, with no repeats. |
| Sidebar.TargetsDistinct | src/components/admin/Sidebar.js:29 | Distinct paths give distinct targets. |
| Sidebar.RoutedPaths | src/Pages/AdminDashboard.js:27-44 | The product manager's nested routes are products, stock, deliveries and comments; the sales manager's are pricing, discounts, invoices, analytics and returns; any other role has none. |
| Sidebar.SidebarLinksAreRouted | src/App.js:46-53 | Every sidebar link shown to a user who passes the admin route's guard leads to a mounted route. |
| Sidebar.OtherRoleSeesUnroutedLinks | src/Pages/AdminDashboard.js:25-44 | A role other than the two managers would see five links and have no route. |
| AuthContext.Fetch | src/contexts/AuthContext.js:22-46 | The first request carries the given token. Running out of answers leaves the state as it was; any answer ends with loading over. A renewed token is retried only when it is non-empty. |
| AuthContext.FetchSuccess | src/contexts/AuthContext.js:30 | A successful fetch sets the user to the answer and ends loading. |
| AuthContext.FetchRefreshFails | src/contexts/AuthContext.js:38-41 | A 401 whose refresh fails clears the user and `isAuthenticated`. |
| AuthContext.FetchOtherError | src/contexts/AuthContext.js:31-45 | Any other error leaves the user, `isAuthenticated` and the token as they were. |
| AuthContext.FetchRetriesWithFreshToken | src/contexts/AuthContext.js:32-37 | A 401 with a non-empty new token stores it and retries with it; a successful retry loads the user. |
| AuthContext.EmptyRenewedTokenSignsOut | src/contexts/AuthContext.js:32-41 | A refresh answering the empty string is falsy: the user is signed out as after a failed refresh, and no retry is sent. |
| AuthContext.PendingRetryLooksSignedOut | src/contexts/AuthContext.js:37-44 | While the un-awaited retry is pending, loading is already over with no user. |
| AuthContext.RequestsCarryRefreshedTokens | src/contexts/AuthContext.js:32-37 | Every request after the first carries the non-empty token the previous answer refreshed. |
| AuthContext.AuthProvider.State | src/contexts/AuthContext.js:8-10 | The provider's observable state. |
| AuthContext.AuthProvider.constructor | src/contexts/AuthContext.js:12-20 | A non-empty stored access token makes the provider authenticated and starts the fetch. Without one, or with the empty string, loading stops and the provider stays unauthenticated. |
| AuthContext.AuthProvider.FetchUserData | src/contexts/AuthContext.js:22-46 | The recursive fetch leaves exactly the state `Fetch` gives and sends its tokens, retrying only with a non-empty renewed token. |
| AuthContext.AuthProvider.Login | src/contexts/AuthContext.js:48-54 | Both tokens are stored, the provider is authenticated and loading, and then the fetch runs. |
| AuthContext.AuthProvider.Logout | src/contexts/AuthContext.js:56-62 | Both tokens are removed, and the provider has no user, is not authenticated and is not loading. |
| AuthPages.MergeCartOnLogin | src/Pages/AuthPages.js:9-31 | An absent or empty guest cart sends nothing and leaves storage alone. Otherwise the cart is sent, and the key is removed only when the merge is accepted. |
| AuthPages.LoginPage.constructor | src/Pages/AuthPages.js:50 | The login page starts with no error message. |
| AuthPages.LoginPage.HandleLogin | src/Pages/AuthPages.js:54-76 | A failed login shows the message or "Login failed" and changes nothing. A successful one stores both tokens, logs in, merges the cart with the new access token and goes home. |
| AuthPages.LoginThenFetchOpensProtectedRoutes | src/contexts/AuthContext.js:48-54 | A login whose fetch succeeds passes every guard without a role list. |
| AuthPages.HandleSignup | src/Pages/AuthPages.js:136-155 | A password mismatch shows "Passwords do not match" and sends nothing. Otherwise the form is sent, and the answer sets the success message or the error. |
| AuthPages.SignupIgnoresAgreement | src/Pages/AuthPages.js:136-155 | The terms checkbox does not change the outcome. |
| AuthPages.RegistrationNeedsConfirmedPassword | src/Pages/AuthPages.js:138-149 | A registration is sent iff the password equals its confirmation. |
| AuthPages.SuccessKeepsEarlierError | src/Pages/AuthPages.js:139-150 | An earlier error stays on screen after a later successful signup. |

## Left out

- HTTP (axios and the `api` instance), `src/utils/auth.js`, `src/utils/axiosInstance.js` and `src/hooks/useAuth.js`: each call's outcome is an input; the token refresh is the `Unauthorized` answer's new token, stored under `accessToken` whenever it is present, as `refreshAccessToken` does.
- JSON: values in local storage are kept already parsed.
- Rendering, styling, routing, `setTimeout` redirects and `console` output; loading spinners are not modelled.
- Floating point: money is integer cents, and `toFixed(2)`, `Math.round` and the whole discount panel (`DiscountManagement.js`) are left out.
- `Math.random`: the ten draws are an input.
- Dates and locales: times are integer milliseconds, and `localeCompare` is plain lexicographic order over characters.
- `toLowerCase` is modelled for ASCII letters only.
- Sort stability and sorting in place: `Sorting.SortBy` is a stable insertion sort over a sequence, and the dashboard and catalogue lemmas state order and permutation only. The comparators' NaN results (a missing price, popularity or rating) are not modelled.
- Concurrency: `Promise.all` in the product page's comment section, and the dashboard's refund-status fetch and refund request, are left out. So are the review form, the wishlist add and the admin pages that only call the backend.
- Payment.Reconciled: a fetched product without `discounted_price` would make the JavaScript total NaN; the model requires a price for each product.
- AuthPages.LoginPage.HandleLogin: the fetch `login` starts is not awaited, and it may interleave with the cart merge. It touches no storage key the merge reads, so the model runs it to completion first.
- CartPage.DisplayedLineTotal: `None` stands for an absent `discounted_price` field, as on a guest line, where JavaScript computes NaN. A JSON `null` from `/cart`, which JavaScript multiplies as 0 and shows as $0.00, is not modelled; that column disagrees with the subtotal too.
- AuthContext.Fetch: React's batching of state updates is not modelled; updates apply in program order.
- PriceManagement.Panel.HandleUpdatePrice: a typed price is an amount in cents, so a non-numeric entry (NaN) is not modelled. An id missing from the list makes the source throw before the request; the model sends nothing.
- ProductsPage.GroupByCategory: the source reduces into a plain object `{}`, so a category named after an inherited property of `Object.prototype` (such as `constructor`, `toString`, `valueOf` or `__proto__`) finds `acc[category]` already truthy, skips the set-up at src/Pages/ProductsPage.js:139, and throws a TypeError at the `push` on line 142, which breaks the catalogue in category mode. The model groups such a product like any other; the map it builds has no inherited keys.

## Findings

| source | as written | input that shows it | evidently intended | confidence | as-written member | corrected member |
|---|---|---|---|---|---|---|
| src/Pages/CartPage.js:69 | The line's Total column is `discounted_price * quantity`, with no fallback to the list price. | A guest line (price 1000, no discounted price, quantity 2) shows NaN while the subtotal counts 2000. A line with discount 1200 above price 1000 shows 1200 while the subtotal counts 1000. | The column shows the line's share of the subtotal: unit price times quantity. | not executed | CartPage.DisplayedLineTotalDisagrees | CartPage.LineTotal |
| src/Pages/PaymentPage.js:82-88 | A sold-out line keeps its original quantity, and only the total skips it. | Cart line p1 (discount 800, quantity 2) with stock 0: the total is 0, but the summary shows 1600, `handlePayNow` sends a stock decrease of 2, and the order lists 2. | A sold-out line is bought in quantity 0, so no stock request is sent for it and the order agrees with the total. | not executed | Payment.SoldOutLineStillBought | Payment.CorrectedReconciled |
