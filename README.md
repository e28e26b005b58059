# Olmarithi storefront: a Dafny model of its cart, checkout, orders, M-Pesa and catalog

A model of the part of the Olmarithi online shop that handles money and catalog data:

- The browser script: the cart kept in localStorage, the checkout totals and delivery fee, the M-Pesa payment flow the client drives, the order it sends, the featured-products selection and the shop-page title.
- The Order schema: its fields, the `paymentStatus` enum and the defaults.
- The order routes: creation (forced to Paid, followed by two notification e-mails), the newest-first list and the lookup by id.
- The M-Pesa routes: the access-token middleware, the STK push body sent to the gateway, and the payment-result callback.
- The product routes: the upload file-type check, the category filter, image-path normalisation, product creation and deletion.
- The category routes: `createSlug`, category creation under unique name and slug indexes, and the list ordered by name.

Files, one module each:

- `wrappers.dfy`: `Option` and `Result`.
- `text.dfy`: the JavaScript string operations the code uses. This covers the `\s` white-space class, `trim`, ASCII case mapping, `split`/`join`, `indexOf`/`lastIndexOf` and the unanchored regular-expression test.
- `sorting.dfy`: what a database sort returns. The result is ordered by the key and holds the same records.
- `orders.dfy`: the Order schema and the orders collection (class `OrderStore`).
- `mpesa.dfy`: the M-Pesa routes. `PaymentRequest` is the Express request object the middleware writes the token into.
- `catalog.dfy`: the products and categories collections (classes `ProductStore` and `CategoryStore`).
- `cart.dfy`: the client script. `CartStorage` is the `olmarithiCart` localStorage entry, and `CheckoutPage` holds the checkout page's state.

Modelling choices:

- Collections are sequences held in class fields, and identifiers come from a counter.
- Prices are whole KSH amounts.
- A JSON field that is missing is `None`. The gateway's acknowledgement (`Mpesa.StkAck`) is the exception: there a missing text field, `errorMessage` included, is the empty string, which the client's `||` chain treats the same way.
- Clock readings are parameters. These are the creation time, the M-Pesa timestamp and the client's `Date.now()` texts.
- Answers from outside are parameters too: the OAuth token, the gateway's acknowledgement and the Base64 password.
- The client's payment handler calls the modelled order route directly. The order it creates is therefore the one `OrderStore.CreateOrder` stores.

## Model

| member | source | states |
|---|---|---|
| Text.Trim | public/script.js:1329 | `trim` returns a contiguous part of its input, starting where the leading white space ends, with no white space at either end |
| Text.TrimEmptyIffBlank | public/script.js:1329 | the trimmed text is empty exactly when every character of the input is white space |
| Text.TrimStart | public/script.js:1329 | the leading-white-space cut of `trim`: a suffix of the input, not starting with white space, with only white space cut off |
| Text.TrimEnd | public/script.js:1329 | the trailing-white-space cut of `trim`: a prefix of the input, not ending with white space, with only white space cut off |
| Text.ToLower | backend/routes/categoryRoutes.js:7 | lower-casing keeps the length and leaves no upper-case letter; an upper-case letter becomes the letter 32 code points higher (its lower-case form), and anything else is unchanged (ASCII) |
| Text.ReplaceSpaces | backend/routes/categoryRoutes.js:7 | `replace(/\s/g, y)` puts `y` exactly at the white-space positions and keeps every other character |
| Text.ReplaceChar | public/script.js:1181 | a global one-character replacement puts `y` exactly where `x` was and keeps the rest |
| Text.Contains | backend/routes/productRoutes.js:31-33 | the unanchored `test` of a literal holds exactly when the literal occurs at some position |
| Text.IndexOf | public/script.js:1329 | the index of the first occurrence, with no earlier occurrence, or -1 exactly when the character is absent |
| Text.LastIndexOf | backend/routes/productRoutes.js:32 | the index of the last occurrence, with none after it, or -1 exactly when absent |
| Text.Split | public/script.js:1181 | `split` yields at least one piece and no piece contains the separator |
| Text.Join | public/script.js:1181 | `join` of a non-empty list starts with the first word |
| Text.JoinCons | public/script.js:1181 | joining a word in front of a non-empty list puts the word, the separator and the join of the list |
| Text.JoinSplit | public/script.js:1181 | joining the pieces of a split with the same separator restores the text |
| Text.FirstPiece | public/script.js:1329 | the first piece of a split is the text before the first separator, or the whole text |
| Text.LexLeTotal | backend/routes/categoryRoutes.js:31 | any two names compare in the binary string order |
| Text.LexLeTransitive | backend/routes/categoryRoutes.js:31 | the binary string order is transitive |
| Sorting.SortBy | backend/routes/orderRoutes.js:69 | a database sort returns the stored records with their multiplicities, no more and no fewer |
| Sorting.SortBySorted | backend/routes/orderRoutes.js:69 | a database sort by a total preorder returns exactly the stored records (same multiset), ordered by the key |
| Orders.ParseStatus | backend/models/Order.js:54-59 | a status text is accepted exactly when it is one of 'Pending', 'Paid', 'Failed' |
| Orders.StatusRoundTrip | backend/models/Order.js:57 | each enum value's name parses back to that value |
| Orders.Instantiate | backend/models/Order.js:5-67 | saving succeeds exactly when the required fields are present and non-empty, every line item is complete and the status is in the enum; the stored order copies the given fields, takes 0, 0, 'M-Pesa' and Pending as defaults, and gets both timestamps |
| Orders.DefaultStatusIsPending | backend/models/Order.js:58 | an order saved without a status is Pending |
| Orders.TransitionsSettleOnce | backend/models/Order.js:54-59 | in the Pending to Paid or Failed lifecycle, Paid and Failed are terminal and a status settles at most once |
| Orders.OrderDocFor | backend/routes/orderRoutes.js:33-43 | the document handed to the Order model copies the eight destructured fields, items included, sets `paymentStatus` to 'Paid' and gives no `paymentMethod` |
| Orders.CreatedOrderCopiesRequest | backend/routes/orderRoutes.js:17-45 | POST / stores the eight destructured fields, each line item as converted from the request item in the same place, and succeeds exactly when they validate; the order is Paid and paid by 'M-Pesa' whatever the request says |
| Orders.CreatedOrderIsSettled | backend/routes/orderRoutes.js:42 | an order created through POST / has no lifecycle transition left |
| Orders.NewerOrSameIsTotalPreorder | backend/routes/orderRoutes.js:69 | newest-first on `createdAt` is a total preorder |
| Orders.FindById | backend/routes/orderRoutes.js:82 | the result is a stored order with that id, and it is absent exactly when no stored order has that id |
| Orders.OrderStore.CreateOrder | backend/routes/orderRoutes.js:16-58 | no items gives 400 'No items in cart'; a valid order is appended and answered 201, followed by the admin e-mail and then the client e-mail; a failed save gives 500 and stores nothing |
| Orders.OrderStore.ListOrders | backend/routes/orderRoutes.js:66-75 | every stored order, newest first |
| Orders.OrderStore.GetOrderById | backend/routes/orderRoutes.js:80-93 | 200 with the order exactly when the id is stored, otherwise 404 'Order not found' |
| Orders.OrderStore.GetOrderByIdUnique | backend/routes/orderRoutes.js:82-85 | with unique ids, the order found is the stored order with that id |
| Mpesa.AccountReference | backend/routes/mpesaRoutes.js:60 | the account reference is 'OlmarithiOrder-' followed by the order id |
| Mpesa.AccountReferenceInjective | backend/routes/mpesaRoutes.js:60 | distinct order ids give distinct account references |
| Mpesa.PasswordSource | backend/routes/mpesaRoutes.js:45 | the encoded text is the short code, then the passkey, then the timestamp |
| Mpesa.BuildStkPushBody | backend/routes/mpesaRoutes.js:50-62 | the gateway body charges the client's amount to its phone, pays the short code, and carries the timestamp, the password, the callback URL, the fixed transaction type, the account reference and the fixed description 'Olmarithi Online Payment' |
| Mpesa.PaymentRequest.GenerateAccessToken | backend/routes/mpesaRoutes.js:9-32 | on a token the middleware stores it and passes on; otherwise it answers 500 with the initiation-failure message |
| Mpesa.InitiateStkPush | backend/routes/mpesaRoutes.js:9-77 | the middleware stores a fetched token in the request and keeps the old one otherwise; without a token nothing is sent and 500 is answered; otherwise the body goes out with the bearer token, and the gateway's answer is forwarded unchanged or a failed call gives 500 |
| Mpesa.FindItem | backend/routes/mpesaRoutes.js:94-96 | `find` returns the first item with the name, and nothing exactly when no item has it |
| Mpesa.ReadDetails | backend/routes/mpesaRoutes.js:93-96 | the receipt, amount and phone are read exactly when all three items exist |
| Mpesa.HandleCallback | backend/routes/mpesaRoutes.js:82-120 | only the number 0 is success; success with all three items answers 200 'processed successfully', any other code answers 200 'transaction failed', and a missing envelope or item throws |
| Mpesa.ReceiptIsFirstMatch | backend/routes/mpesaRoutes.js:94 | on success the receipt is the value of the first item named MpesaReceiptNumber |
| Mpesa.ReceiveCallback | backend/routes/mpesaRoutes.js:82-120 | the callback's outcome is HandleCallback's, including a thrown error for a missing envelope or item, and every stored order is left unchanged |
| Catalog.BaseName | backend/routes/productRoutes.js:32 | the base name is the suffix after the last '/', holding no '/' |
| Catalog.BaseExtension | backend/routes/productRoutes.js:32 | the extension of a base name is the suffix from its last dot when that dot is not the first character and the name is not '..', and is empty otherwise |
| Catalog.Extname | backend/routes/productRoutes.js:32 | `path.extname`: from the last dot of the base name when that dot is not its first character and the base name is not '..', otherwise empty; the result is a suffix of the name with no '/' |
| Catalog.CheckFileType | backend/routes/productRoutes.js:30-40 | a file is accepted exactly when both the lower-cased extension and the MIME type contain jpg, jpeg, png or webp, and is otherwise refused with 'Images only!' |
| Catalog.UpperCaseExtensionAccepted | backend/routes/productRoutes.js:32 | 'Photo.JPG' with 'image/jpeg' is accepted |
| Catalog.LastExtensionCounts | backend/routes/productRoutes.js:32 | 'photo.png.exe' is refused: only the last extension counts |
| Catalog.UnanchoredMatchAccepted | backend/routes/productRoutes.js:31 | 'photo.jpgx' is accepted: the test is not anchored |
| Catalog.NormalizeUploadPath | backend/routes/productRoutes.js:77-83 | the stored path starts with '/', holds no backslash, and keeps the upload path character by character with backslashes turned into '/' |
| Catalog.NormalizedPathIsFixed | backend/routes/productRoutes.js:79-83 | a path that starts with '/' and holds no backslash is kept as it is |
| Catalog.NormalizeUploadPathIdempotent | backend/routes/productRoutes.js:79-83 | normalising a normalised path changes nothing |
| Catalog.ImageUrl | backend/routes/productRoutes.js:75-87 | the normalised upload path, or the placeholder URL when there is no file |
| Catalog.StoredPrice | backend/models/Product.js:21-26 | a missing price becomes 0, a negative or non-numeric price fails, and a stored price is never negative |
| Catalog.NewProduct | backend/routes/productRoutes.js:90-100 | creation succeeds exactly when the trimmed name, description, category and price validate; the product has the trimmed name, stock 10 and the image URL, and no `user` |
| Catalog.CategoryFilter | backend/routes/productRoutes.js:49-56 | no filter exactly for a missing or empty slug or 'all', otherwise the slug |
| Catalog.InCategory | backend/routes/productRoutes.js:59 | the products of one category with their multiplicities, all of that category, never more than the input |
| Catalog.InCategoryConcat | backend/routes/productRoutes.js:59 | filtering two lists joined is joining their filtered lists, so the filter keeps store order |
| Catalog.FindProducts | backend/routes/productRoutes.js:55-59 | `find(query)` returns every product for the empty query and the products of the category otherwise |
| Catalog.InCategoryIdempotent | backend/routes/productRoutes.js:55-59 | filtering twice by a category is filtering once |
| Catalog.ProductStore.GetProducts | backend/routes/productRoutes.js:46-66 | every product without a filter, otherwise exactly the products of the slug's category |
| Catalog.ProductStore.CreateProduct | backend/routes/productRoutes.js:71-107 | a refused upload never reaches the handler: it stores nothing and ends in Express's default error handler with status 500 and the text 'Images only!'; a valid product is appended and answered 201; invalid data answers 400 and stores nothing |
| Catalog.ProductStore.DeleteProduct | backend/routes/productRoutes.js:111-123 | an unknown id answers 404 'Product not found'; otherwise exactly that product is removed, the rest keep their order, and 'Product removed' is answered |
| Catalog.CreateSlug | backend/routes/categoryRoutes.js:7 | a slug has the name's length, no upper-case letter and no white space, and position by position is the lower-cased character or '_' for white space |
| Catalog.CreateSlugIdempotent | backend/routes/categoryRoutes.js:7 | createSlug of a slug is that slug |
| Catalog.SlugSettersKeepSlug | backend/models/Category.js:14-20 | the slug field's lowercase and trim setters leave a created slug unchanged |
| Catalog.NameLeIsTotalPreorder | backend/routes/categoryRoutes.js:31 | ascending by name is a total preorder |
| Catalog.AppendKeepsCategoriesWellFormed | backend/models/Category.js:7-20 | a category whose name and slug are both new keeps ids, names and slugs unique |
| Catalog.CategoryStore.CreateCategory | backend/routes/categoryRoutes.js:11-25 | a name that validates and is not taken is stored trimmed together with createSlug of the name as sent, and answered 201; a missing, blank or taken name or slug answers 400 and adds nothing |
| Catalog.CategoryStore.ListCategories | backend/routes/categoryRoutes.js:29-37 | every category, ascending by name |
| Cart.CartTotalAppend | public/script.js:1287 | appending an item adds its price to the total |
| Cart.CartTotalConcat | public/script.js:1287 | the total of two carts joined is the sum of their totals |
| Cart.CartTotalIgnoresQuantity | public/script.js:1287 | the total reads prices only; `qty` does not count |
| Cart.CartTotal | public/script.js:1287 | with no negative price the total is at least 0 |
| Cart.RemoveAt | public/script.js:1266 | `splice(start, 1)` removes the element at the relative start and keeps the order of the rest, and removes nothing past the end |
| Cart.RemoveAtIndex | public/script.js:1264-1267 | removing a displayed index drops the length by one, removes exactly that entry and takes exactly its price off the total |
| Cart.CartStorage.AddToCart | public/script.js:1201-1224 | with an id, a name and a numeric price, exactly one entry with qty 1 is appended, the earlier entries are kept and the product's toast is shown; otherwise the cart is unchanged and the error toast is shown |
| Cart.CartStorage.RemoveFromCart | public/script.js:1262-1271 | the stored cart becomes the spliced cart and the "Item removed" toast is shown; the cart invariant is kept |
| Cart.CartStorage.ClearCart | public/script.js:535 | after a successful checkout the stored cart is empty |
| Cart.AddRaisesTotal | public/script.js:1211-1217 | adding a product raises the cart total by its price |
| Cart.RenderSubtotal | public/script.js:1233-1241 | the subtotal loop gives the cart total, and an empty cart has no subtotal |
| Cart.ProceedToCheckout | public/script.js:59-66 | checkout goes on exactly when the cart is not empty, otherwise the empty-cart error is shown |
| Cart.DeliveryFee | public/script.js:1296-1303 | the fee is 500 exactly when the location is 'outside', and 0 otherwise |
| Cart.CustomerName | public/script.js:1329 | the derived name is never empty and contains no comma |
| Cart.CustomerNameIsFirstPart | public/script.js:1329 | the name is the trimmed text before the first comma, or 'Customer' when that is blank |
| Cart.CheckoutData | public/script.js:1322-1346 | submission fails with the required-fields error exactly when email, phone or address is empty; otherwise the order data carries the cart total plus the fee, the fee, and the inputs as typed |
| Cart.OutsideNairobiCheckout | public/script.js:1297-1305 | a 1000 KSH cart delivered outside Nairobi gives a total of 1500 with a fee of 500 |
| Cart.CheckoutPage.ShouldRedirectAsWritten | public/script.js:1290-1294 | as written the page redirects only on a zero subtotal with no confirmation shown; an empty cart with the confirmation hidden redirects, a cart with a positive price and no negative one does not, and it redirects whenever the subtotal is 0 and no confirmation is shown |
| Cart.CheckoutPage.ShouldRedirect | public/script.js:1290-1294 | corrected: the page redirects only with an empty cart and no confirmation shown; it redirects only where the code as written does, and agrees with it on carts whose prices are all positive |
| Cart.SelectedLocation | public/script.js:1297 | the location is the select's value, or 'nairobi' without a select |
| Cart.RedirectsAgreeOnPricedCarts | public/script.js:1287-1291 | when every price is positive, a zero total means an empty cart and the reverse |
| Cart.FreeItemCartRedirects | public/script.js:1290-1294 | a cart holding one item priced 0 redirects as written, though it is not empty |
| Cart.CheckoutPage.UpdateOrderSummary | public/script.js:1296-1314 | the page's fee becomes the fee of the selected location ('nairobi' without a select), and the summary is the base total, that fee and their sum |
| Cart.CheckoutPage.Submit | public/script.js:1322-1346 | the summary is recomputed first, then the outcome is CheckoutData's |
| Cart.PositivePriceMakesTotalPositive | public/script.js:1287-1291 | with no negative price, one positive price makes the total positive |
| Cart.NormalizePhone | public/script.js:440 | a number starting with '0' becomes '254' followed by the rest, any other number is unchanged, and the result never starts with '0' |
| Cart.NormalizePhoneIdempotent | public/script.js:440 | normalising twice is normalising once |
| Cart.NormalizeLocalNumber | public/script.js:440 | '0712345678' becomes '254712345678' |
| Cart.OrderItems | public/script.js:498-503 | one order item per cart entry, in cart order, with qty 1 and the entry's name, price and id |
| Cart.FinalOrderRequest | public/script.js:505-514 | the order sent copies the customer's name, e-mail, phone, the delivery address as `deliveryLocation`, the totals and the transaction id, carries the cart's order items (present exactly when the cart is not empty) and no payment method or status |
| Cart.ItemsTotalMatchesCart | public/script.js:498-503 | quantity-one line items add up to the cart total |
| Cart.CheckoutOrderAccepted | public/script.js:495-514 | the order a checkout sends for a cart add-to-cart filled is accepted by the order route; it carries the grand total and the fee, it is Paid, and its line items add up to the cart total |
| Cart.PromptSent | public/script.js:464 | the prompt counts as sent only when the gateway's answer came back with ResponseCode '0'; a server error never does |
| Cart.FailureReason | public/script.js:478 | the reason shown is never empty: the gateway's description when it is not empty, otherwise its `errorMessage` when that is not empty, otherwise 'An unknown error occurred.', which is also the reason for a server error |
| Cart.HandleMpesaPayment | public/script.js:439-489 | the push always charges 1 KSH to the normalised phone. A failed request gives the server-error toast. A code other than '0' gives the failure toast. After a sent prompt, the order built from the stored cart goes to the order route; when the route stores it the cart is cleared with the confirmation toast, and otherwise the server-error toast is shown and the cart is kept |
| Cart.TakeFeaturedLimit | public/script.js:326 | `slice(0, 6)` is the prefix of at most six elements |
| Cart.FilterFeatured | public/script.js:326 | the filter keeps each featured product with its multiplicity, and nothing else; it is the category filter, so store order is kept |
| Cart.FeaturedExists | public/script.js:326-327 | the filter finds something exactly when some product is featured |
| Cart.FeaturedAsWritten | public/script.js:325-331 | as written the index page shows the first six featured products in store order, and the fallback changes nothing: at most six products, all featured |
| Cart.FallbackShowsNothing | public/script.js:327-330 | as written, with no featured product the fallback shows nothing |
| Cart.FallbackCounterexample | public/script.js:327-330 | one ordinary product: the page as written shows none, the intended selection shows it |
| Cart.FeaturedProducts | public/script.js:325-331 | at most six products; when any product is featured they are the first six featured products in store order, otherwise the first six products; non-empty whenever products exist |
| Cart.Capitalize | public/script.js:1181 | the first character upper-cased and the rest unchanged |
| Cart.CapitalizeAllAt | public/script.js:1181 | `map` capitalises every word in its own place |
| Cart.CapitalizeWordsAt | public/script.js:1181 | splitting at spaces, capitalising each word and joining keeps every position and upper-cases exactly the first character and those after a space |
| Cart.SlugToTitle | public/script.js:1180-1182 | without a slug the title is 'All Products' |
| Cart.SlugToTitleAt | public/script.js:1180-1182 | the title has the slug's length, and position by position is the underscore-to-space text with the first character and each character after a space upper-cased |

## Left out

- DOM rendering. This covers the message boxes' styling and timing, the modals, the admin panel, the feedback and event lists, the product cards and the button states. Toasts are kept as text and kind only.
- The informational toasts of the payment flow ("Initiating M-Pesa STK Push…", "M-Pesa prompt sent!…") are not modelled. They are progress messages only; the first of them formats the amount with `toFixed`.
- Network I/O. Every `fetch` and `axios` call, including the Safaricom OAuth request, becomes an input. So does the 8-second wait that stands in for the callback.
- localStorage serialisation with `JSON.parse` and `JSON.stringify`. The stored cart is a field, and the admin token is not part of this model.
- Base64 encoding and the HTTP Basic credentials are not modelled. The password is a parameter, and `Mpesa.PasswordSource` is the text it encodes.
- The `moment` timestamp and every clock reading are parameters. This includes `Date.now()` rendered as decimal text.
- The nodemailer message contents are not modelled. A sent e-mail is a `Notification` event; both senders catch their own errors.
- The `protect` and `admin` middleware are not modelled. backend/middleware/authMiddleware.js is not part of this model, so admin-only routes run unconditionally here.
- Database failures are not modelled: the route's generic 500 answers and the CastError of a malformed ObjectId. Ids are numbers from a counter, and the `product` reference of a line item is not cast.
- Floating-point prices and `toFixed` formatting are not modelled. Prices are whole KSH amounts, and `parseFloat` yields a number or None (NaN).
- Multer's disk storage and its timestamped file names are not modelled. The uploaded file's path is an input.
- The feedback, event and auth routes, the server bootstrap and the admin-seeding script are outside the core.
- Text.ToLower, Text.UpperChar: they map ASCII letters only. JavaScript's full Unicode case mapping is not modelled.
- Text: a string is a sequence of Unicode scalar values, whereas JavaScript strings are UTF-16 code units. Surrogate pairs are therefore not modelled.
- Catalog.Extname: it follows node's rule for a base name but does not strip a trailing '/' the way `path.extname` does.
- Text.Join: its contract states only that the text starts with the first word. The separators and the later words are stated through Text.JoinCons and Text.JoinSplit, which keeps those facts out of every proof that merely mentions a join.
- Catalog.ProductStore.CreateProduct: a refused upload's answer is Express's default error page. The model keeps its status 500 and the text 'Images only!', but not the HTML page, nor that the text is hidden in production.
- Mpesa.PaymentRequest.GenerateAccessToken: an OAuth reply that succeeds without an `access_token` is treated as a failed request (500 with the initiation-failure message). The route would store `undefined`, call `next()` and send the push with the bearer token `undefined`; that path is not modelled.
- Sorting.SortBy: records with equal keys keep store order. The database promises no order for ties.
- Catalog.CategoryStore.CreateCategory: it states the unique indexes on name and slug only. Validation of other fields and the index build are not modelled.
- Cart.CartStorage.RemoveFromCart: the index comes from the button's `data-index`. `parseInt` of a non-numeric attribute (NaN, which `splice` treats as 0) is not modelled.

## Findings

| source | as written | input that shows it | evidently intended | confidence | as-written member | corrected member |
|---|---|---|---|---|---|---|
| public/script.js:326-330 | the fallback slices the already filtered, empty list, so it shows nothing | products `[p]` with `p.category == "curtain"` on the index page | when no product is featured, show the first six of all products | high, not executed | Cart.FeaturedAsWritten (with Cart.FallbackCounterexample) | Cart.FeaturedProducts |
| public/script.js:1290-1294 | the empty-cart redirect tests `baseCartTotal === 0`, so a cart whose prices add up to 0 counts as empty | a cart holding one product priced 0, the default price of the Product schema, with the confirmation hidden | redirect only when the cart holds no items | medium, not executed | Cart.CheckoutPage.ShouldRedirectAsWritten (with Cart.FreeItemCartRedirects) | Cart.CheckoutPage.ShouldRedirect |
