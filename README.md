# vestir-ecommerce: a verified model of the cart-to-order workflow

This project models the core of vestir-ecommerce, a clothing shop made of an
Express/MongoDB backend and a React frontend, and proves properties of it.

The backend part covers four things:

- the per-user cart: line items keyed by (product id, size, color), merged on add, overwritten on update, filtered on remove;
- checkout, which freezes the cart into an order priced at checkout time and then empties the cart;
- the order store with its owner checks;
- the catalog query (filters, sort key, skip/limit, page count), the product schema and the error middleware.

The frontend part covers the rules the pages apply:

- the pagination strip;
- the URL-parameter editing of the product list;
- the client cart cell and its item count;
- the cart and checkout amounts and the free-shipping rule;
- the quantity steppers;
- the admin dashboard's comma lists, FormData and list edits;
- the registration checks;
- the route guards.

Stores are Dafny values held in classes: a map of carts, a sequence of orders in creation order, and a map of products.
The database's joins are lookups in a `catalog` map.
Money is integer cents, so 75 dollars is `7500`.
Request answers, the clock and fresh ids are parameters.

Each source file becomes one module: `CartController`, `OrderController`, `ProductModel`, `ProductController`, `ErrorHandler`, `Pagination`, `ProductsPage`, `CartContext`, `CartPage`, `CheckoutPage`, `ProductDetailPage`, `AdminDashboard`, `RegisterPage`, `RouteGuards` and `AuthContext`.
`Common` holds the shared option/result types and the string helpers.

The model follows the code as written where it disagrees with what a reader might expect:

- The product page sends the whole product object as `productId`, and such an add never merges with an existing line.
- New orders are `"Pending"`, while the admin list offers only lower-case statuses.
- The order snapshot drops size and color.
- The checkout page sends a total that includes shipping, which the server ignores.
- The product schema (backend/models/Product.js:3-36) has no sizes, colors or tags, and `createProduct` copies only name, price, description, category, stock and image (backend/controllers/productController.js:8-24). So the lists the dashboard sends are never stored, and a stored product reaches the pages without them (`AdminOf`, `ShownOf`). Against this backend the detail page never pre-selects a size or color, so every add from it sends size "" and color "" (`StoredProductShown`). Editing a stored product sends no lists (`StoredProductSendsNoLists`). `EditSaveKeepsLists` is about lists the backend never returns.
- Every controller error answers `{ error: ... }` (for example backend/controllers/cartController.js:62 and backend/controllers/orderController.js:66), but the pages read `err.response?.data?.message`. Only errors that reach the error middleware, which sends `message`, show the server's text. Every controller 4xx shows the page's fallback text instead. The `reply` parameters of `CartContext.ErrorText`, `CheckoutPage.Submit` and `AdminDashboard.Dashboard.SubmitProduct` leave this choice to the caller.

## Model

| member | source | states |
|---|---|---|
| CartController.FindIndex | backend/controllers/cartController.js:36-38 | the result is -1 exactly when no item matches the (product id, size, color) key; otherwise it is the first matching position |
| CartController.KeyOf | backend/controllers/cartController.js:37 | a stored line's key: its product id, size and color, the three fields the comparison reads |
| CartController.Matches | backend/controllers/cartController.js:37 | a line matches a request when the request carries a string id and the two keys agree; an object id never matches (AddByObjectDuplicates) |
| CartController.AddLine | backend/controllers/cartController.js:36-44 | a matching item gets the quantity added and nothing else changes; otherwise exactly one new item is appended at the end |
| CartController.UpdateLine | backend/controllers/cartController.js:101-106 | None exactly when no item matches; otherwise the first match's quantity becomes the given value (not a sum), with the same key and every other item unchanged |
| CartController.RemoveLines | backend/controllers/cartController.js:65-67 | never longer than the input |
| CartController.RemoveAbsentKey | backend/controllers/cartController.js:65-67 | removing a key no item has leaves the list unchanged |
| CartController.RemoveMatchAtEnd | backend/controllers/cartController.js:65-67 | a matching last item is dropped and the non-matching items before it stay |
| CartController.RemoveLinesDropsOne | backend/controllers/cartController.js:65-67 | with exactly one matching item, the filter drops that item and keeps the others in order |
| CartController.Populate | backend/controllers/cartController.js:7-12 | one view item per stored item, in order, with the product joined from the catalog (None once deleted) |
| CartController.FormatCartResponse | backend/controllers/cartController.js:4-20 | the view items are exactly the populated stored items, one per stored item in order, and the total is the sum of price times quantity over the stored items |
| CartController.CartTotal | backend/controllers/cartController.js:14-17 | the cart total over the stored items, with a deleted product priced 0; tied to the reduce by ViewTotalOfPopulate and split by CartTotalAppend |
| CartController.ViewTotal | backend/controllers/cartController.js:14-17 | the reduce over the populated view; equal to CartTotal by ViewTotalOfPopulate |
| CartController.ViewTotalOfPopulate | backend/controllers/cartController.js:14-17 | the reduce over the populated items equals the stored-items total, with a deleted product counting 0 |
| CartController.CartTotalAppend | backend/controllers/cartController.js:14-17 | the total of a concatenation is the sum of the two totals |
| CartController.CartTotalReplace | backend/controllers/cartController.js:14-17 | replacing one item changes the total by exactly the difference of the two line amounts |
| CartController.AddLineTotal | backend/controllers/cartController.js:36-44 | an add of q raises the total by price times q, whether it merges or appends |
| CartController.AddLinePreservesUniqueness | backend/controllers/cartController.js:36-43 | an add by id keeps the no-duplicate-keys invariant |
| CartController.FoundByOwnKey | backend/controllers/cartController.js:36-38 | an item carrying the requested key is always found |
| CartController.AddTwiceMerges | backend/controllers/cartController.js:40-43 | two adds of a new key give one new line with the summed quantity |
| CartController.AddByObjectDuplicates | backend/controllers/cartController.js:37 | a product object sent as the id never matches, so two adds give two lines with the same key |
| CartController.RemoveLinesMembers | backend/controllers/cartController.js:65-67 | the survivors are exactly the non-matching items |
| CartController.RemoveLinesAppend | backend/controllers/cartController.js:65-67 | the filter distributes over concatenation, so order is kept |
| CartController.RemoveUniqueKey | backend/controllers/cartController.js:65-67 | in a cart without duplicates, removing a present key drops exactly that item and keeps the rest in order |
| CartController.NoMatchAfterUniqueKey | backend/controllers/cartController.js:65-67 | in a cart without duplicates, no item after the matching one matches |
| CartController.RemovePreservesUniqueness | backend/controllers/cartController.js:65-67 | removal keeps the no-duplicate-keys invariant |
| CartController.UpdatePreservesUniqueness | backend/controllers/cartController.js:106 | an update changes no key, so the invariant survives |
| CartController.UpdateIdempotent | backend/controllers/cartController.js:106 | repeating an update has no further effect |
| CartController.AddUpdateRemoveScenario | backend/controllers/cartController.js:40-43 | adding 2 then 3 of one key gives one line of 5, updating to 1 overwrites, removing leaves nothing, and the empty view has total 0 |
| CartController.CartStore.AddToCart | backend/controllers/cartController.js:23-53 | creates the cart on first add, merges or appends, answers the formatted view, raises the total by price times quantity, and keeps keys unique |
| CartController.CartStore.RemoveFromCart | backend/controllers/cartController.js:56-76 | 404 "Cart not found" changes nothing; otherwise filters out the key, answers the view and keeps keys unique |
| CartController.CartStore.GetCart | backend/controllers/cartController.js:79-89 | a missing cart reads as the empty view (not an error); the total is the stored-items total |
| CartController.CartStore.UpdateCartItem | backend/controllers/cartController.js:92-114 | 404 "Cart not found" or "Product not in cart" changes nothing; otherwise only that cart is rewritten by the update |
| CartController.CartStore.ClearCart | backend/controllers/cartController.js:117-134 | 404 without a cart; otherwise the cart is kept with zero items and answers the empty view |
| OrderController.Snapshot | backend/controllers/orderController.js:16-20 | one order line per cart item, in cart order, carrying the product id, the cart quantity and the catalog price read now |
| OrderController.SnapshotTotal | backend/controllers/orderController.js:23 | the order total computed from the snapshot equals the cart total at checkout |
| OrderController.LinesTotal | backend/controllers/orderController.js:23 | the reduce of price times quantity over the order lines; equal to the cart total by SnapshotTotal |
| OrderController.SnapshotForgetsVariant | backend/controllers/orderController.js:16-20 | two cart lines that differ only in size or color freeze to the same order line |
| OrderController.FindOrder | backend/controllers/orderController.js:65 | -1 exactly when no order has the id (and the owner, when one is given); otherwise a position holding such an order |
| OrderController.OwnedBy | backend/controllers/orderController.js:49 | exactly the given user's orders |
| OrderController.Reverse | backend/controllers/orderController.js:51 | the same orders in the opposite order |
| OrderController.OwnedByKeepsOrder | backend/controllers/orderController.js:49-51 | filtering by owner keeps creation order |
| OrderController.OwnedByKeepsUniqueIds | backend/controllers/orderController.js:49-51 | filtering by owner keeps ids unique |
| OrderController.ListingNewestFirst | backend/controllers/orderController.js:51 | reversing the creation-ordered store lists newest first, with unique ids and the same orders |
| OrderController.OrderStore.PlaceOrder | backend/controllers/orderController.js:5-43 | a missing or empty cart is 400 "Cart is empty" and changes nothing. A deleted product is a 500 that changes nothing. Otherwise exactly one "Pending" order is stored, priced from the snapshot at the cart total, and the cart is emptied |
| OrderController.OrderStore.GetUserOrders | backend/controllers/orderController.js:46-57 | exactly the caller's orders, newest first, with unique ids |
| OrderController.OrderStore.GetAllOrders | backend/controllers/orderController.js:75-86 | every stored order, newest first |
| OrderController.RemoveAtKeepsStore | backend/controllers/orderController.js:60-72 | deleting one order keeps ids unique, creation order and every stored total |
| OrderController.OrderStore.DeleteOrder | backend/controllers/orderController.js:60-72 | removes the one order whose id and owner both match; otherwise 404 "Order not found or not yours" and nothing removed |
| OrderController.OrderStore.UpdateOrderStatus | backend/controllers/orderController.js:89-101 | any status is written to the order with that id and no other field changes; an unknown id is 404 |
| ProductModel.Validate | backend/models/Product.js:3-36 | accepts exactly when name and category are non-empty, the category is Men, Women or Kids, and a price is given. Stock defaults to 0, and description and image are kept as given. A rejection lists every failed rule |
| ProductModel.Violations | backend/models/Product.js:3-36 | the rules a document breaks: name required, category required and in the enum, price required; Validate rejects exactly with these |
| ProductController.FilterSemantics | backend/controllers/productController.js:52-69 | a product passes the assembled filters exactly when its category equals a given category, its name matches a given search, and its price lies within each given bound, inclusive |
| ProductController.BuildFilters | backend/controllers/productController.js:52-69 | the filter document: a category and a search only when non-empty, a price range when either bound is given; its meaning is FilterSemantics |
| ProductController.MatchesFilters | backend/controllers/productController.js:52-69 | what the filter document selects; stated as FilterSemantics |
| ProductController.SkipOf | backend/controllers/productController.js:81 | `(page - 1) * limit`; a negative value makes GetProducts answer 500 |
| ProductController.ChooseSort | backend/controllers/productController.js:75-78 | the three named sort options select their keys, and every other value sorts newest first |
| ProductController.TotalPages | backend/controllers/productController.js:86 | for a positive limit it is the ceiling of total over limit (0 only for no matches); a zero limit has no number |
| ProductController.CeilingBounds | backend/controllers/productController.js:86 | the integer ceiling bounds: pages times limit covers the total, one page fewer does not |
| ProductController.Selected | backend/controllers/productController.js:72 | exactly the documents that pass the filters |
| ProductController.Window | backend/controllers/productController.js:82 | the result is `IsPageOf` the input: empty when skip is past the end; otherwise the slice starting at skip, holding min(|limit|, remaining) documents, or all remaining ones for a zero limit |
| ProductController.GetProducts | backend/controllers/productController.js:48-92 | a negative skip is a 500. Otherwise: total counts every match; the products are matches, at most `limit` of them, starting at `(page-1)*limit` (page defaults to 1, limit to 12); totalPages is derived from the same total. When skip is inside the matches, the page holds min(|limit|, matches after skip) of them, or all of those for a zero limit |
| ProductController.ApplyUpdate | backend/controllers/productController.js:109 | each field the patch carries is overwritten with the patch value and every other field keeps its stored value; an empty patch changes nothing |
| ProductController.UpdateSkipsSchema | backend/controllers/productController.js:109 | an update can store a category that creation rejects |
| ProductController.ProductStore.CreateProduct | backend/controllers/productController.js:4-34 | without an uploaded image, 400 "Image upload failed" stores nothing; a schema failure is a 500 that stores nothing; otherwise the validated product with that image is stored under the new id |
| ProductController.ProductStore.GetProductById | backend/controllers/productController.js:95-104 | 404 "Product not found" for an unknown id, else the product |
| ProductController.ProductStore.UpdateProduct | backend/controllers/productController.js:107-116 | 404 for an unknown id; otherwise overwrites the given fields, unvalidated |
| ProductController.ProductStore.DeleteProduct | backend/controllers/productController.js:119-128 | 404 for an unknown id; otherwise removes exactly that product |
| ErrorHandler.HandleError | backend/middleware/errorHandler.js:1-11 | a status still at 200 becomes 500 and any other is kept. `success` is false. The message is err.message, or "Server Error" when that is empty. The stack is sent only in development |
| Pagination.ListPages | frontend/src/components/common/Pagination.jsx:6-13 | after the loop over 1..totalPages the entries are the full strip for those pages (the loop invariant at totalPages + 1) |
| Pagination.StepKeepsProgress | frontend/src/components/common/Pagination.jsx:7-12 | each pass of the loop keeps the invariant: the entries so far are the strip for pages 1..i |
| Pagination.Step | frontend/src/components/common/Pagination.jsx:8-11 | one pass of the loop body: push a shown page, push '...' after a number, or nothing; StepKeepsProgress proves it keeps the invariant |
| Pagination.ShownStep | frontend/src/components/common/Pagination.jsx:8-9 | appending a shown page keeps the loop invariant |
| Pagination.GapOpens | frontend/src/components/common/Pagination.jsx:10-11 | the first skipped page after a number appends one '...' and keeps the invariant |
| Pagination.GapWidens | frontend/src/components/common/Pagination.jsx:10 | a skipped page after '...' appends nothing and keeps the invariant |
| Pagination.Finished | frontend/src/components/common/Pagination.jsx:7-13 | after the last page, the list holds exactly the shown pages, rising, with gaps marked, from 1 to totalPages |
| Pagination.Render | frontend/src/components/common/Pagination.jsx:3-50 | nothing for totalPages <= 1. Otherwise: page i is listed exactly when it is 1, totalPages or within one of the current page; numbers strictly increase; every '...' stands for at least one omitted page and no two are adjacent. Prev is disabled exactly on page 1 and next exactly on the last page |
| ProductsPage.NatToString | frontend/src/pages/ProductsPage.jsx:222 | `String(n)` is a non-empty run of decimal digits |
| ProductsPage.ParseDigits | frontend/src/pages/ProductsPage.jsx:26 | the digit run gives NaN exactly when it does not start with a decimal digit |
| ProductsPage.ParseIntNaN | frontend/src/pages/ProductsPage.jsx:26 | `parseInt` gives NaN exactly when, after leading blanks and an optional sign, no digit follows |
| ProductsPage.ParseInt | frontend/src/pages/ProductsPage.jsx:26 | `parseInt(s)`: skip leading white space, an optional sign, then the longest digit run; stated by ParseIntNaN, ParseIntOfDigits and ParseIntOfIntToString |
| ProductsPage.ParseIntOfDigits | frontend/src/pages/ProductsPage.jsx:26 | a run of decimal digits parses to its decimal value |
| ProductsPage.DigitsValueOfNatToString | frontend/src/pages/ProductsPage.jsx:222 | the digits `String(n)` writes have the value n |
| ProductsPage.ParseOne | frontend/src/pages/ProductsPage.jsx:26 | the fallback "1" parses to page 1 |
| ProductsPage.ParseIntOfIntToString | frontend/src/pages/ProductsPage.jsx:26 | `parseInt(String(n))` gives back n for every integer |
| ProductsPage.IntToString | frontend/src/pages/ProductsPage.jsx:222 | `String(n)` for an integer: a minus sign for negatives, then the digits of the magnitude; inverted by ParseIntOfIntToString |
| ProductsPage.UpdateParams | frontend/src/pages/ProductsPage.jsx:35-43 | a key with a non-empty value is set and one with an empty value deleted, the last update of a key winning. Unnamed keys keep their values. The page becomes "1" unless the updates carry a non-empty page |
| ProductsPage.GetOr | frontend/src/pages/ProductsPage.jsx:27-31 | an absent or empty parameter reads as the fallback |
| ProductsPage.ReadParams | frontend/src/pages/ProductsPage.jsx:26-31 | each present, non-empty parameter is read as given. An absent or empty one reads as page "1", sort "newest", or "" for search, category and price bounds. The sort is never empty |
| ProductsPage.DefaultPageIsOne | frontend/src/pages/ProductsPage.jsx:26 | an absent or empty page parameter reads as page 1 |
| ProductsPage.RequestParams | frontend/src/pages/ProductsPage.jsx:48-53 | the request always carries page and limit 12, and each filter only when it is non-empty |
| ProductsPage.QueryFiltersSent | frontend/src/pages/ProductsPage.jsx:26-53 | a non-empty search, category, minPrice or maxPrice in the query string is sent as given, and an absent or empty one is left out. A non-empty sort is sent as given |
| ProductsPage.QueryPageSent | frontend/src/pages/ProductsPage.jsx:26-47 | a page written as `String(p)` into the query string is requested as page p |
| ProductsPage.RequestCarriesFilters | frontend/src/pages/ProductsPage.jsx:48-53 | the request always has a sort, and carries a filter exactly when `hasFilters` holds |
| ProductsPage.HasFilters | frontend/src/pages/ProductsPage.jsx:78 | `hasFilters`: some of search, category and the two price bounds is non-empty; related to the request by RequestCarriesFilters |
| ProductsPage.HasFiltersIgnoresSortAndPage | frontend/src/pages/ProductsPage.jsx:78 | `hasFilters` does not depend on sort or page |
| ProductsPage.ClearFilters | frontend/src/pages/ProductsPage.jsx:73-76 | the query string becomes exactly `page=1` |
| ProductsPage.ClearedReadsAsDefault | frontend/src/pages/ProductsPage.jsx:26-31 | after clearing, the page reads as page 1, newest first, with no filter |
| ProductsPage.ClickCategory | frontend/src/pages/ProductsPage.jsx:142-143 | clicking the selected category clears it and clicking another selects it; the page reads as 1 and other keys stay |
| ProductsPage.CategoryToggle | frontend/src/pages/ProductsPage.jsx:143 | the clicked category, or "" when it is the one already selected; its effect is ClickCategory |
| ProductsPage.ChangePage | frontend/src/pages/ProductsPage.jsx:222 | a page button lands on exactly that page and other keys stay |
| CartContext.FromServer | frontend/src/context/CartContext.jsx:18 | the client cart holds one item per server item, with the same quantity and product and no own price, and the same total |
| CartContext.ErrorText | frontend/src/context/CartContext.jsx:31 | the server's message when non-empty, else the fallback |
| CartContext.ItemCount | frontend/src/context/CartContext.jsx:61 | the sum of item quantities, 0 when items are missing |
| CartContext.ItemCountOfServerCart | frontend/src/context/CartContext.jsx:61 | on a cart from the server, the badge equals the number of pieces stored |
| CartContext.AddLineQuantity | frontend/src/context/CartContext.jsx:61 | a backend add of q raises the stored piece count by exactly q |
| CartContext.CartProvider.constructor | frontend/src/context/CartContext.jsx:10 | the cart starts as `{items: [], total: 0}` |
| CartContext.CartProvider.FetchCart | frontend/src/context/CartContext.jsx:13-21 | with no user, the cart is emptied without a request; a failed fetch also empties it; otherwise it takes the server's cart |
| CartContext.CartProvider.AddItem | frontend/src/context/CartContext.jsx:25-33 | quantity defaults to 1. Success takes the server's cart. Failure keeps the cart and shows the server's message or "Failed to add item" |
| CartContext.CartProvider.UpdateItem | frontend/src/context/CartContext.jsx:35-42 | success takes the server's cart; failure keeps it and shows an error |
| CartContext.CartProvider.RemoveItem | frontend/src/context/CartContext.jsx:44-52 | success takes the server's cart; failure keeps it and shows an error |
| CartContext.CartProvider.ClearCart | frontend/src/context/CartContext.jsx:54-59 | the cart is emptied only when the server call succeeded; a failure leaves it unchanged |
| CartPage.UnitPrice | frontend/src/pages/CartPage.jsx:12 | the item's own price unless missing or 0, else the product's price, else 0 |
| CartPage.Shipping | frontend/src/pages/CartPage.jsx:109 | free exactly when the subtotal is above 75 dollars, otherwise 8 dollars |
| CartPage.OrderTotal | frontend/src/pages/CartPage.jsx:116 | subtotal plus shipping |
| CartPage.ThresholdIsStrict | frontend/src/pages/CartPage.jsx:109-116 | exactly 75 dollars still pays shipping, so one cent more gives a smaller total |
| CartPage.SubtotalMatchesView | frontend/src/pages/CartPage.jsx:12 | over items without their own price, the page's subtotal equals the server's reduce |
| CartPage.Subtotal | frontend/src/pages/CartPage.jsx:12 | the reduce of unit price times quantity; equal to the server total by SubtotalMatchesView and SubtotalOfServerCart |
| CartPage.SubtotalOfServerCart | frontend/src/pages/CartPage.jsx:12 | on a cart from the server, the page's subtotal equals the backend's cart total |
| CartPage.ButtonProductId | frontend/src/pages/CartPage.jsx:43-74 | a line's buttons send the product id only while the product exists |
| CartPage.Decremented | frontend/src/pages/CartPage.jsx:74 | one less, never below 1 |
| CartPage.IncrementRequest | frontend/src/pages/CartPage.jsx:78 | asks for one more, with no upper bound |
| CartPage.DecrementRequest | frontend/src/pages/CartPage.jsx:74 | the − button sends the line's product id, size and color with `max(1, q - 1)` |
| CartPage.RemoveRequest | frontend/src/pages/CartPage.jsx:85 | the Delete button sends the line's product id, size and color and no quantity |
| CartPage.ButtonsCarryStoredKey | frontend/src/pages/CartPage.jsx:74-85 | the −, + and Delete requests of a server line carry that line's stored product id, size and color |
| CartPage.StoredKeyAddressesLine | frontend/src/pages/CartPage.jsx:74-85 | in a cart without duplicates, that key makes the backend update rewrite exactly that line and the remove drop exactly that line |
| CheckoutPage.InitialForm | frontend/src/pages/CheckoutPage.jsx:18-27 | country "US", payment "COD", name and e-mail from the user or blank, everything else blank |
| CheckoutPage.RequestOf | frontend/src/pages/CheckoutPage.jsx:41-52 | the request carries the payment method, the shown total, and the full name, address, city, state, zip and country of the form (not the e-mail) |
| CheckoutPage.Submit | frontend/src/pages/CheckoutPage.jsx:36-62 | an empty cart only shows "Your cart is empty" and sends nothing. Otherwise the order request goes first and only once. The cart is cleared and `placed` set exactly on success, clearing before placing. Failure shows the server's message or "Failed to place order" and does nothing else: the success toast and the navigation to /orders after 3000 ms happen exactly when a non-empty cart's order was placed |
| CheckoutPage.ShippingNotStored | frontend/src/pages/CheckoutPage.jsx:29-32 | the amount sent is the stored order total plus shipping, so below the threshold it exceeds what the server stores by the fee |
| CheckoutPage.CheckoutTotal | frontend/src/pages/CheckoutPage.jsx:30-32 | subtotal plus shipping, as the cart page shows it; compared with the stored total by ShippingNotStored |
| ProductDetailPage.FirstListed | frontend/src/pages/ProductDetailPage.jsx:27-28 | the first listed size or color, when the list exists and its first entry is non-empty |
| ProductDetailPage.Cap | frontend/src/pages/ProductDetailPage.jsx:152 | the stock, or 10 when it is missing or 0 |
| ProductDetailPage.AddDisabled | frontend/src/pages/ProductDetailPage.jsx:161 | the add button is disabled while an add runs or when the stock is exactly 0; StoredProductShown states it for stored products |
| ProductDetailPage.ShownOf | backend/models/Product.js:3-36 | a stored product reaches the page without sizes or colors, with its stock |
| ProductDetailPage.StoredProductShown | frontend/src/pages/ProductDetailPage.jsx:24-31 | for a stored product nothing is pre-selected, and with no add running the button is disabled exactly when the stock is 0 |
| ProductDetailPage.Incremented | frontend/src/pages/ProductDetailPage.jsx:152 | one more, but never above the cap |
| ProductDetailPage.DetailState.constructor | frontend/src/pages/ProductDetailPage.jsx:19-22 | no size, no color, quantity 1, not adding |
| ProductDetailPage.DetailState.Loaded | frontend/src/pages/ProductDetailPage.jsx:24-31 | the first listed size and color are selected when present; otherwise the selections stay |
| ProductDetailPage.DetailState.Decrement | frontend/src/pages/ProductDetailPage.jsx:149 | the cart page's decrement, keeping the quantity within 1 and the cap |
| ProductDetailPage.DetailState.Increment | frontend/src/pages/ProductDetailPage.jsx:152 | one more up to the cap, keeping the quantity within 1 and the cap |
| ProductDetailPage.DetailState.AddToCart | frontend/src/pages/ProductDetailPage.jsx:33-38 | without a user it goes to /login and sends nothing; otherwise it sends the whole product object with the current quantity and selections |
| ProductDetailPage.NegativeStockBreaksStepper | frontend/src/pages/ProductDetailPage.jsx:152 | a negative stock makes one + press drop the quantity below 1 |
| ProductDetailPage.SteppingStaysInRange | frontend/src/pages/ProductDetailPage.jsx:149-152 | any sequence of presses keeps the quantity between 1 and a positive cap |
| ProductDetailPage.DetailAddsNeverMerge | frontend/src/pages/ProductDetailPage.jsx:36 | an add from the product page always appends a new backend line |
| AdminDashboard.PendingNotOffered | frontend/src/pages/AdminDashboard.jsx:9 | "Pending", the status of new orders, is not among the statuses the admin can pick |
| AdminDashboard.SplitCommas | frontend/src/pages/AdminDashboard.jsx:101 | at least one piece, none containing a comma |
| AdminDashboard.JoinSplit | frontend/src/pages/AdminDashboard.jsx:101 | joining the pieces with "," gives back the input |
| AdminDashboard.Trim | frontend/src/pages/AdminDashboard.jsx:101 | the result is the infix of the input left once the white space at both ends is removed: everything before and after it is white space, and it neither starts nor ends with white space |
| AdminDashboard.TrimmedNonEmpty | frontend/src/pages/AdminDashboard.jsx:101 | every kept piece is non-empty and trimmed; which pieces are kept and their order are stated by TrimmedNonEmptyMembers and TrimmedNonEmptyAppend |
| AdminDashboard.ParseList | frontend/src/pages/AdminDashboard.jsx:101 | every element is non-empty, comma-free and without surrounding white space; ParseListAppend and ParseListNoComma pin the whole list |
| AdminDashboard.TrimmedNonEmptyMembers | frontend/src/pages/AdminDashboard.jsx:101 | a string is kept exactly when it is non-empty and some piece trims to it |
| AdminDashboard.TrimmedNonEmptyAppend | frontend/src/pages/AdminDashboard.jsx:101 | trimming and filtering distribute over concatenation, so the kept pieces stay in input order |
| AdminDashboard.SplitAppend | frontend/src/pages/AdminDashboard.jsx:101 | `split(',')` of a string with one more comma gives the pieces of both sides, in order |
| AdminDashboard.ParseListAppend | frontend/src/pages/AdminDashboard.jsx:101 | the list of `a,b` is the list of a followed by the list of b |
| AdminDashboard.ParseListNoComma | frontend/src/pages/AdminDashboard.jsx:101 | a field without commas gives its trimmed text as the only element, or nothing when that is empty |
| AdminDashboard.SkipTrailingDropsSpaces | frontend/src/pages/AdminDashboard.jsx:101 | the end `trim` removes is all white space |
| AdminDashboard.JoinParseRoundTrip | frontend/src/pages/AdminDashboard.jsx:79-81 | joining with ", " and parsing again returns the list, when every element is non-empty, comma-free and has no surrounding white space |
| AdminDashboard.NumberField | frontend/src/pages/AdminDashboard.jsx:75-78 | a missing or zero number shows as ''; any other number as `String(n)` |
| AdminDashboard.EditForm | frontend/src/pages/AdminDashboard.jsx:73-82 | each field is the product's value, or '' when it is missing; price and stock are written with `String(n)`, and lists are joined with ", " |
| AdminDashboard.EditNumbersRoundTrip | frontend/src/pages/AdminDashboard.jsx:75-78 | a non-zero price or stock put in the form parses back to the same number; a missing or zero one leaves the field blank |
| AdminDashboard.Tagged | frontend/src/pages/AdminDashboard.jsx:102 | one (key, item) pair per item, in order |
| AdminDashboard.AppendItems | frontend/src/pages/AdminDashboard.jsx:102 | appends exactly those pairs to the FormData |
| AdminDashboard.AppendEntries | frontend/src/pages/AdminDashboard.jsx:99-106 | the FormData is each entry's appends in entry order |
| AdminDashboard.BuildFormData | frontend/src/pages/AdminDashboard.jsx:98-107 | the FormData is the form's appends, then the image when one was chosen |
| AdminDashboard.ValuesOfAppend | frontend/src/pages/AdminDashboard.jsx:98-107 | the values under a key distribute over concatenation |
| AdminDashboard.ValuesOf | frontend/src/pages/AdminDashboard.jsx:98-107 | the values the form carries under one key, in order; ValuesOfMembers and ValuesOfAppend state what they are |
| AdminDashboard.ValuesOfMembers | frontend/src/pages/AdminDashboard.jsx:98-107 | a value is sent under a key exactly when an appended pair carries it with that key |
| AdminDashboard.ListFieldSent | frontend/src/pages/AdminDashboard.jsx:100-102 | the values sent under sizes, colors and tags are exactly the parsed lists |
| AdminDashboard.EditSaveKeepsLists | frontend/src/pages/AdminDashboard.jsx:79-106 | editing a product and saving it unchanged sends its sizes, colors and tags back as they were, when each element is non-empty, comma-free and has no surrounding white space |
| AdminDashboard.AdminOf | backend/models/Product.js:3-36 | a stored product reaches the dashboard with no sizes, colors or tags |
| AdminDashboard.StoredProductSendsNoLists | frontend/src/pages/AdminDashboard.jsx:79-106 | editing a stored product and saving it sends no sizes, colors or tags |
| AdminDashboard.WithoutId | frontend/src/pages/AdminDashboard.jsx:127-136 | exactly the entries whose id differs |
| AdminDashboard.WithoutIdAppend | frontend/src/pages/AdminDashboard.jsx:127-136 | removal distributes over concatenation, so the rest keep their order |
| AdminDashboard.WithoutAbsentId | frontend/src/pages/AdminDashboard.jsx:127-136 | removing an id no entry has changes nothing |
| AdminDashboard.WithStatus | frontend/src/pages/AdminDashboard.jsx:144 | only orders with that id change, and only in their status |
| AdminDashboard.StatusEditMirrorsStore | frontend/src/pages/AdminDashboard.jsx:143-144 | after the server's status update, the admin's newest-first list edited by id equals the updated store's listing |
| AdminDashboard.CountLagsAfterDelete | frontend/src/pages/AdminDashboard.jsx:127 | deleting a listed product shortens the list, while the count is not updated |
| AdminDashboard.Dashboard.constructor | frontend/src/pages/AdminDashboard.jsx:20-33 | empty lists, zero counts, a blank form |
| AdminDashboard.Dashboard.FetchProducts | frontend/src/pages/AdminDashboard.jsx:41-49 | the list is the fetched one and the product count its length. The other lists, the counts and the form state stay |
| AdminDashboard.Dashboard.FetchOrders | frontend/src/pages/AdminDashboard.jsx:51-59 | the list is the fetched one and the order count its length. The other lists, the counts and the form state stay |
| AdminDashboard.Dashboard.FetchUsers | frontend/src/pages/AdminDashboard.jsx:61-69 | the list is the fetched one and the user count its length. The other lists, the counts and the form state stay |
| AdminDashboard.Dashboard.OpenEdit | frontend/src/pages/AdminDashboard.jsx:71-85 | the form shows the product, with '' for whatever is missing, and no image file |
| AdminDashboard.Dashboard.OpenCreate | frontend/src/pages/AdminDashboard.jsx:87-92 | every field blank, nothing being edited, no image file |
| AdminDashboard.Dashboard.SubmitProduct | frontend/src/pages/AdminDashboard.jsx:94-121 | sends the FormData as an update of the edited product, or as a create. The form closes only on success. The three lists, the counts, the form fields and the image stay |
| AdminDashboard.Dashboard.DeleteProduct | frontend/src/pages/AdminDashboard.jsx:123-130 | nothing without confirmation. The product leaves the list only after the server deleted it. The count, the other lists and the form state are untouched |
| AdminDashboard.Dashboard.DeleteUser | frontend/src/pages/AdminDashboard.jsx:132-139 | nothing without confirmation; the user leaves the list only after the server deleted them. The counts, the other lists and the form state are untouched |
| AdminDashboard.Dashboard.UpdateOrderStatus | frontend/src/pages/AdminDashboard.jsx:141-147 | the list changes only after the server accepted the status, and then only in that order's status. The counts, the other lists and the form state are untouched |
| RegisterPage.Submit | frontend/src/pages/RegisterPage.jsx:15-23 | a mismatch reports "Passwords do not match". A matching password under 6 characters reports the length error. Register is called exactly when both checks pass, with name, e-mail and password only. Success navigates to '/' with no error; failure shows the returned message |
| RegisterPage.MismatchReportedFirst | frontend/src/pages/RegisterPage.jsx:18-19 | a short mismatched password reports the mismatch, and fixing the mismatch then reveals the length error |
| RegisterPage.ServerErrorShown | frontend/src/pages/RegisterPage.jsx:20-22 | a server rejection shows the server's message or "Registration failed" and does not navigate |
| AuthContext.RegisterResult | frontend/src/context/AuthContext.jsx:32-48 | success exactly when the server accepted; otherwise the server's message or "Registration failed" |
| AuthContext.AdminIsExactRole | frontend/src/context/AuthContext.jsx:65 | admin exactly when the role is the lower-case "admin"; never without a user |
| RouteGuards.ProtectedRoute | frontend/src/components/common/RouteGuards.jsx:4-9 | renders exactly for a signed-in user; otherwise redirects to /login carrying the attempted location |
| RouteGuards.AdminRoute | frontend/src/components/common/RouteGuards.jsx:11-17 | renders exactly for an admin. With no user it redirects to /login with the location; a signed-in non-admin is sent to / |
| RouteGuards.GuestRoute | frontend/src/components/common/RouteGuards.jsx:19-23 | renders exactly when nobody is signed in; otherwise redirects to / |
| RouteGuards.GuardsAreConsistent | frontend/src/components/common/RouteGuards.jsx:4-23 | whatever an admin route shows a protected route shows, exactly one of the guest and protected routes renders, and the admin route sends to /login exactly when the protected route redirects |

## Left out

- Persistence and the network: Mongoose queries, `populate`, `save`, axios and the routers are not modelled. Stores are values and joins are catalog lookups.
- Each handler is one sequential step. Races between requests are not modelled.
- `placeOrder` does two saves that are not atomic. A failure between them, leaving the order stored and the cart full, is not modelled.
- The database sort is not modelled. `GetProducts` takes the documents already in the chosen sort order, and `ChooseSort` states which key is chosen.
- The search regex is an abstract `nameMatches` parameter of `ProductController`.
- ProductController.GetProducts: query parameters are taken as already-parsed integers. A non-numeric `page` or `limit` (NaN) and `Infinity` are not modelled. A limit of 0 is modelled: no limit on the page, and `totalPages` null. The database error for a negative skip is only its message parameter.
- ProductModel.Validate: rejections carry the failed rules, not Mongoose's message text. CastErrors for malformed values and ids are not modelled.
- Money is integer cents. JavaScript floating-point arithmetic and `toFixed` are not modelled.
- AdminDashboard.NumberField: a price is an integer here, so the decimal text `String` gives a fractional price is not modelled.
- CheckoutPage.Submit: the `required` inputs (frontend/src/pages/CheckoutPage.jsx:107-119) stop the browser from submitting while full name, e-mail, address, city, state or zip is blank. The model submits any form, so it does not capture that a sent address has those fields non-empty.
- AdminDashboard.Dashboard.SubmitProduct: the `required` name and price inputs (frontend/src/pages/AdminDashboard.jsx:356-357) stop the browser from submitting while either is blank. The model submits any form, so it does not capture that a sent FormData has a non-empty name and price.
- ProductsPage.ParseInt: hexadecimal `0x` prefixes (which `parseInt` without a radix reads as base 16) are not modelled. The white space skipped is the full ECMAScript set of `Common.IsSpace`.
- `URLSearchParams` key order and repeated keys are not modelled. The query string is a map from key to one value.
- RegisterPage.Submit: the length check counts characters, not UTF-16 code units.
- backend/models/Cart.js and backend/models/Order.js are not part of this model. Their documents appear as the `LineItem` and `Order` datatypes.
- `backend/middleware/validators.js` is not modelled, because no route applies its rules.
- Authentication is not modelled: login, tokens, bcrypt, the auth middleware and the user controller. The signed-in user is a parameter.
- A cart line whose product was deleted sends no product id from the cart page's buttons. What the backend does with such a request is not modelled.
- Loading flags, spinners, image selection and the delayed navigation timer are not modelled. Timers appear only as the delay value.
- The dashboard fetches take the list already extracted from the response (`data.products || data || []`); the response shapes and the `limit: 100` request are not modelled.
- Rendering, styling and animation are not modelled.
