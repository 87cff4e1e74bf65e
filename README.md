# eMarket listing pipeline, modelled in Dafny

eMarket is a small marketplace. A React client signs users in, shows a live list of product
listings and lets a user post a new one. A small Express server exposes the same listings
read-only over REST. Storage, identity and live updates all come from a hosted document
store. This project models the part of the code that makes decisions. It follows one
listing through the system:

- **Validate and build the record.** The "Add New Product" dialog checks its form, builds
  the listing record, hands it to the store and then clears or keeps the form
  (`AddProduct`).
- **Apply a snapshot.** The dashboard's subscription callbacks replace the cached profile
  and the cached products list. The products arrive as the whole collection and are
  sorted newest first. The dashboard also chooses between a spinner, the "no products"
  message and the grid (`Dashboard`).
- **Show a card.** A product card shows the listing's image URL or a placeholder built
  from the product name (`ProductCard`).
- **Respond.** The two GET routes map the fetched documents to `{ id, ...data }` products,
  sort them newest first, filter them by seller and turn store failures into 500 errors
  (`ReadApi`).

Shared modules:

- `Firestore`: document data as a map from field names to values, so the spread in
  `{ id: doc.id, ...doc.data() }` is a right-biased map union.
- `DescendingSort`: the stable newest-first order.
  - `SortDesc` is a functional insertion sort. It is proved sorted, a permutation and
    stable.
  - It is proved to be the only order with those three properties. So it is the result of
    `Array.prototype.sort` with the `key(b) - key(a)` comparator, which is stable.
  - `InsertionSortDesc` sorts an array in place and is proved to compute `SortDesc`.
- `Listings`: the push loop followed by the sort, shared by the browser (sort key
  `createdAt.seconds`) and the server (sort key `createdAt` in milliseconds). A missing
  `createdAt` counts as 0 for both keys.

The store's replies are parameters: the documents a read returned, or its error message,
and the `Pass`/`Fail` answer to a write. `parseFloat` is a parameter of type
`string -> Option<real>`, where `None` stands for NaN.

Behaviour worth noting:

- A subscription error does not put the cache into a distinct "errored" state. It only
  clears the loading flag and keeps the last list. So an error before the first snapshot
  shows the "no products" message.
- Subscriptions are not tagged with a generation, and stale callbacks are not suppressed.
- `imageUrl || ''` is applied to a form field that always holds a string. So the stored
  `imageUrl` is the field's text exactly as typed.

## Model

| member | source | states |
|---|---|---|
| `AddProduct.ValidateListing` | apps.js:326-334 | An empty name, description or price gives exactly "Please fill in all required fields.". Otherwise a price that parses to NaN or to a value ≤ 0 gives exactly "Price must be a positive number.". Success holds exactly when all three fields are set and the parsed price is positive, and the accepted value is that parsed price. |
| `AddProduct.NewListing` | apps.js:339-346 | The listing record has exactly the six fields name, description, price, imageUrl, sellerId and createdAt. It has no client-supplied `id`, `sellerId` is the user id, `price` is the parsed number and `createdAt` is the server-timestamp sentinel. |
| `AddProduct.StoredListingReadsBack` | apps.js:339-346 | Once the store keeps the record under a key and stamps its time, reading it back gives that key as `id` (the record has no `id` for the spread to override), that time as `createdAt`, and the submitted name, description, price, imageUrl and sellerId. |
| `AddProduct.AddProductDialog.constructor` | apps.js:315-322 | The dialog starts hidden (the dashboard's flag starts false, apps.js:437), with empty fields, no error, not loading and no writes. |
| `AddProduct.AddProductDialog.Open` | apps.js:484-486 | The dialog becomes visible and the form is kept as it was left. |
| `AddProduct.AddProductDialog.Close` | apps.js:488-490 | The dialog is hidden and nothing else changes. This holds even while a write is in flight, because the dialog's own `onClose` (apps.js:361) stays live. |
| `AddProduct.AddProductDialog.Submit` | apps.js:324-346 | It can only be called when no write is in flight, because the button is disabled while one is (apps.js:422). On a validation failure it shows that message and writes nothing, and the form is kept. Otherwise it clears the error and makes exactly one write: `NewListing(...)` with the current fields, the parsed price and the user id. It then waits with `loading` true. |
| `AddProduct.AddProductDialog.OnWriteReply` | apps.js:347-357 | It only happens while a write is in flight, and it ends with `loading` false. After a successful write the four fields are `''` and the dialog is closed. After a failed write the fields are kept as they are now, including edits made during the wait, and the error is "Failed to add product: " followed by the message. |
| `ProductCard.ReplaceWhitespace` | apps.js:285 | Same length as the name. Every whitespace character (the JavaScript `\s` class) becomes `+`, every other character is kept, and the result contains no whitespace. |
| `ProductCard.ImageSrc` | apps.js:285 | A non-empty image URL is returned verbatim. Otherwise the result is the placeholder prefix followed by the name, with the same length, no whitespace after the prefix, and every non-whitespace character of the name in its place. |
| `ProductCard.PlaceholderKeepsPlainName` | apps.js:285 | A name with no whitespace appears in the placeholder unchanged. |
| `Firestore.ToProduct` | apps.js:466 | The product has the document's fields plus `id`. Every data field keeps its value, and `id` is the document id unless the data has its own `id`. |
| `Firestore.SecondsOrderAgreesWithMillis` | server.js:71-75 | For well-formed timestamps, a strictly smaller browser key (seconds) means a strictly smaller modelled server key. The modelled key truncates to whole milliseconds. With rounding to the nearest millisecond instead, timestamps in adjacent seconds that are less than half a millisecond apart could tie on the server. |
| `DescendingSort.InsertDesc` | apps.js:469 | Inserting into the sorted prefix adds exactly one element. |
| `DescendingSort.SortDesc` | apps.js:469 | The sorted sequence has the input's length. |
| `DescendingSort.SortDescPermutes` | apps.js:469 | The sort is a permutation of its input (equal multisets). |
| `DescendingSort.SortDescSorted` | apps.js:469 | The sort is non-increasing by key. |
| `DescendingSort.SortDescStable` | apps.js:469 | For every key, the elements with that key appear in input order. |
| `DescendingSort.SortedRunsDetermine` | apps.js:469 | Two sequences of equal length that are both non-increasing and have the same per-key subsequences are equal. |
| `DescendingSort.StableSortIsSortDesc` | apps.js:469 | Any permutation of a sequence that is non-increasing and keeps equal keys in input order is `SortDesc` of it. So the model equals what the stable `Array.prototype.sort` gives with this comparator. |
| `DescendingSort.InsertionSortDesc` | apps.js:469 | The in-place sort leaves the array equal to `SortDesc` of its old contents. |
| `Listings.SortedProducts` | apps.js:464-469 | One product per document. |
| `Listings.CollectSorted` | apps.js:464-469 | The push loop followed by the in-place sort returns exactly `SortedProducts(docs, key)`. |
| `Listings.SortedProductsSpec` | apps.js:464-469 | The result is a permutation of the mapped snapshot, is ordered newest first by the key, and keeps snapshot order among equal keys. |
| `Listings.SortedProductsFromDocs` | apps.js:464-466 | Every product comes from some document of the snapshot, and every document's product is present. |
| `Dashboard.MainPanel` | apps.js:501-541 | The profile spinner shows exactly while the profile loads. Otherwise the products spinner shows exactly while products load, and the "no products" message shows exactly when the loaded list is empty. A grid shows the cached list, which is non-empty. |
| `Dashboard.PanelAfterSnapshot` | apps.js:524-531 | After a products snapshot (profile loaded), the panel is "no products" exactly when the snapshot is empty, and never "loading". Otherwise it is a grid with one card per document. |
| `Dashboard.UnstampedListedLast` | apps.js:469 | In the cached list, a product without a `createdAt` timestamp comes after every product stamped after the epoch. |
| `Dashboard.OrderingExample` | apps.js:469 | Products stamped at seconds 3, 1, unstamped and 2, in that snapshot order, sort as 3, 2, 1, then the unstamped one. |
| `Dashboard.DashboardState.constructor` | apps.js:433-436 | Starts with no profile, an empty list and both loading flags set, so the profile spinner shows. The sorted invariant holds. |
| `Dashboard.DashboardState.OnProfileSnapshot` | apps.js:444-451 | The profile becomes the document data, or none when the document is absent. `profileLoading` becomes false, and the products state is unchanged. |
| `Dashboard.DashboardState.OnProfileError` | apps.js:452-455 | Only `profileLoading` changes, to false. |
| `Dashboard.DashboardState.OnProductsSnapshot` | apps.js:463-471 | The cache becomes `SortedProducts(docs, seconds)`, a permutation of the mapped snapshot. `productsLoading` becomes false, so the panel is no longer "loading". The profile state is unchanged, and the cache stays sorted. |
| `Dashboard.DashboardState.OnProductsError` | apps.js:472-475 | The cached list is unchanged and `productsLoading` is false. |
| `ReadApi.ByCreatedAt` | server.js:62-75 | One product per fetched document. |
| `ReadApi.AllProductsResponse` | server.js:50-83 | A store failure gives 500 with `{error: 'Failed to fetch products', details}`. A successful read gives 200 with a products array of one product per document, and an empty read gives 200 `[]`. |
| `ReadApi.AllProductsContents` | server.js:62-75 | The array is a permutation of the `{id, ...data}` products, ordered non-increasing by `createdAt` milliseconds (missing = 0), with equal times in collection order. |
| `ReadApi.UnstampedServedLast` | server.js:71-75 | A product without a `createdAt` is served after every product stamped after the epoch. |
| `ReadApi.SellerQuery` | server.js:92 | The result is exactly the documents whose `sellerId` field is the requested seller. |
| `ReadApi.SellerProductsResponse` | server.js:87-120 | A store failure gives 500 with `{error: 'Failed to fetch seller products', details}`. Otherwise the status is 200, and a seller with no listings gets 200 `[]`, not 404. |
| `ReadApi.SellerProductsContents` | server.js:99-112 | Every returned product has `sellerId` equal to the path parameter, and every document of that seller is returned. The array is a permutation of the seller's products, ordered newest first like the all-products route, with equal timestamps in collection order. |
| `ReadApi.GetProducts` | server.js:50-83 | The handler, with its push loop and in-place sort, returns exactly `AllProductsResponse`. |
| `ReadApi.GetSellerProducts` | server.js:87-120 | The handler returns exactly `SellerProductsResponse`. |

## Left out

- Store and identity-provider setup, anonymous and custom-token sign-in, and the auth
  listener (apps.js:80-123): foreign SDK calls and asynchronous plumbing.
- Email/password sign-up and sign-in (apps.js:174-197): thin wrappers over the identity
  provider.
- Opening and closing the subscriptions (apps.js:439-443, 478-482): callback registration
  with no logic of its own. Each callback is a method, and deliveries are one call at a
  time.
- Theme, JSX rendering, snackbar, the simulated "Buy Now", `toFixed(2)`, and the welcome
  and account texts (apps.js:10-66, 267-278, 494-499, 544-560): presentation only.
- Form `onChange` handlers (apps.js:373, 386, 397, 409): plain assignments to the public
  fields, which callers may make at any time, including while a write is in flight. The
  dialog's `open` field stands for the dashboard's flag that `Open` and `Close` set.
- `parseFloat`: floating-point parsing is a parameter returning `Option<real>`. Prices are
  exact reals, so `Infinity` (which `parseFloat` accepts and which passes the `> 0` check)
  cannot arise in the model.
- Express setup, CORS, `listen`, the service-account loading, `process.exit` and logging
  (server.js:4-44, 124-137): I/O and process plumbing.
- The store's query execution: the server-side `where` is the in-memory filter
  `ReadApi.SellerQuery` applied to the whole collection.
- Field values nested as maps or arrays: `Firestore.Value` has null, booleans, numbers,
  strings, timestamps and the server-timestamp sentinel only.
- `Firestore.CreatedAtMillis` ranks a `createdAt` that is neither a timestamp nor absent as
  0. In the server's comparator a truthy non-timestamp value makes `toDate()` throw, which
  the route turns into a 500. The model does not capture that path.
- `Firestore.Millis` truncates the nanoseconds to whole milliseconds. The Admin SDK's own
  rounding inside `toDate()` is not part of this model.
- `ProductCard.ImageSrc` takes the name and image URL as strings. A product with no
  `imageUrl` field is the empty string. A product with no `name` field, which makes
  `replace` throw while rendering, is not modelled.
- The dialog's `userId` comes from a context that can hold `null`. The model takes a
  string.
