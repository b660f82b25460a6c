# desawisata storefront core, modelled in Dafny

This project models the client-side core of the desawisata storefront, a Next.js shop for
village products and tours. The modelled parts are:

- **Cart store** (`src/store/cartStore.js`): the line items. Its actions add, remove, set a
  quantity and clear the cart. The getters are the totals and the seller grouping. A
  debounced push sends the cart to the server while the user is signed in.
- **Auth store** (`src/store/authStore.js`): the session, plus the cart reconciliation on
  login and the cleanup on logout.
- **Older auth store** (`desawisata/src/store/authStore.js`): the same session with a
  simpler login check.
- **API client** (`src/lib/api.js`): the bearer-token request interceptor and the
  error interceptor, which turns a failed call into one message.
- **Checkout page**: the access guard, the grouping by seller, the default address, the
  shipping choices and their total, and the order validation.
- **Cart pages** (the current one and the older one): the grouping by shop, the empty state
  and the quantity buttons.
- **Explore page**: the debounced search box, the choice of list endpoint and its query
  parameters, and the URL kept in step with the filters.
- **Village list page**: `safeGetData` and the search and province filter.
- **Mobile header**: the title chosen from the path, and the cart badge.
- **Banner carousel**: its index arithmetic, the automatic slide and the render.
- **Account page**: the sign-in and registration handlers, and the choice of view.

Pure JavaScript logic is modelled as functions. Code that updates state step by step is
modelled as classes whose methods state their new state. A mutating store or page is a
class. A `reduce` or `for` loop is a method with a loop, proved equal to a specification
function, and the properties are lemmas about those functions.

Some effects are not run but recorded:

- The network is a settled outcome passed in as a parameter (`Result`/`Outcome`).
- Requests, toasts, store calls, router pushes and fetches are appended to log fields.
- Timers and `setTimeout` run on abstract ticks (module `Debounce`).

JavaScript objects used as dictionaries are association lists that keep insertion order
(module `JsObject`). The truthiness and the string functions the code calls are in module
`Js`.

## Model

| member | source | states |
|---|---|---|
| Js.Trim | src/lib/api.js:53 | `.trim()`: the input is white space, then the result, then white space; the result has no white space at either end |
| Js.TrimIdempotent | src/lib/api.js:53 | trimming twice is trimming once |
| Js.TrimOfBlank | src/lib/api.js:53 | a text made only of white space trims to the empty string |
| Js.ToNumber | src/pages/desa/index.js:55 | `Number(s)`: a blank string is 0, and a string of plain digits (after trimming) reads as its decimal value |
| Js.ToLower | src/pages/desa/index.js:49 | `.toLowerCase()` keeps the length and maps each character on its own |
| Js.ToNumberOfIntToString | src/pages/desa/index.js:55 | `Number` reads back the decimal text of every integer, so a numeric id compares loosely equal to its select value |
| JsObject.PutGet | src/pages/checkout.js:152-159 | after `{...prev, [k]: v}` the key reads back `v` |
| JsObject.PutOther | src/pages/checkout.js:152-159 | the spread leaves every other key's value as it was |
| JsObject.PutKeys | src/pages/checkout.js:152-159 | the key set gains exactly `k`; keys stay unique; the entry count grows only for a new key |
| JsObject.KeyCount | src/pages/checkout.js:170 | `Object.keys(o).length` is the number of entries when keys are unique |
| JsObject.PutSum | src/pages/checkout.js:143-145 | summing the values after a put removes the old value of that key and adds the new one |
| Grouping.PushInto | src/store/cartStore.js:119-128 | one step of the grouping `reduce`: a new bucket for a new key, otherwise the item is appended to that key's bucket |
| Grouping.GroupPartition | src/store/cartStore.js:119-129 | the buckets have distinct keys, one per distinct key of the input; together they hold every item exactly once; each bucket is the key's items in input order; its name comes from the first item with that key |
| Grouping.GroupSum | src/pages/checkout.js:67-79 | summing per bucket gives the same total as summing the items |
| Grouping.GroupOneKey | src/pages/checkout.js:68-76 | items that all share one key form a single bucket holding all of them |
| Debounce.Schedule | src/store/cartStore.js:23-24 | a call leaves exactly that call pending, due `wait` ticks from now, and does not move the clock |
| Debounce.Advance | src/store/cartStore.js:19-22 | a tick moves the clock by one; it fires exactly when a call is pending and due by then, and then fires that call's argument and leaves nothing pending; otherwise the pending call stays |
| Debounce.BurstFiresLastOnce | src/store/cartStore.js:16-26 | a burst of calls with gaps shorter than the delay, then `wait` quiet ticks, fires exactly once, with the LAST call's argument, and leaves nothing pending |
| Debounce.BurstLeavesLastPending | src/store/cartStore.js:23-24 | each call cancels the pending timer, so after a burst only the last call is pending, due `wait` ticks later |
| Debounce.CallFiresAfterDelay | src/pages/jelajah.js:20-27 | a single call fires after exactly `wait` ticks and not one tick earlier |
| Debounce.QuietTicks | src/store/cartStore.js:19-24 | before the delay elapses, ticks fire nothing and keep the call pending |
| Debounce.RunAppend | src/store/cartStore.js:16-26 | running two event lists one after the other equals running their concatenation |
| Debounce.FiresWhenDue | src/store/cartStore.js:19-22 | a pending call fires exactly once, on the tick its delay elapses, and leaves nothing pending |
| Debounce.IdleTicks | src/store/cartStore.js:16-26 | with nothing pending, ticks fire nothing |
| CartStore.NewItem | src/store/cartStore.js:51-62 | the new line's id is `productId_variationId` (or `_0`); its price is the variation's price or the base price; it gets the requested quantity and the shop's seller id |
| CartStore.ItemId | src/store/cartStore.js:53 | the line id is the product id, an underscore, then the variation id, or `0` without a variation |
| CartStore.ItemIdDeterminesProductAndVariation | src/store/cartStore.js:53 | for underscore-free ids and no variation id `"0"`, equal line ids mean the same product and the same variation choice |
| CartStore.VariationZeroSharesId | src/store/cartStore.js:53 | a variation whose id is `"0"` gets the same line id as no variation |
| CartStore.WithItem | src/store/cartStore.js:64-73 | after `addItem` the id is in the cart; the length is unchanged for a known id and one more for a new one; the lines keep their ids in order |
| CartStore.AddExisting | src/store/cartStore.js:64-70 | adding an item already in the cart raises only that line's quantity, and the id still occurs on it alone |
| CartStore.AddNew | src/store/cartStore.js:71-73 | adding an item not yet in the cart appends it |
| CartStore.AddKeepsIdsUnique | src/store/cartStore.js:64-73 | `addItem` keeps line ids unique |
| CartStore.Without | src/store/cartStore.js:81 | the filter never lengthens the cart and keeps only lines of the cart with a different id |
| CartStore.WithoutMembers | src/store/cartStore.js:81 | `removeItem` keeps exactly the lines with a different id |
| CartStore.RemoveIdempotent | src/store/cartStore.js:80-84 | removing the same id twice equals removing it once |
| CartStore.RemoveKeepsIdsUnique | src/store/cartStore.js:80-84 | removal keeps ids unique and leaves no line with that id |
| CartStore.WithQuantity | src/store/cartStore.js:87-97 | a quantity <= 0 leaves no line with that id; a positive one keeps the length and the ids of every line |
| CartStore.UpdateQuantitySpec | src/store/cartStore.js:87-97 | a quantity <= 0 removes the line; otherwise only the matching line takes the new quantity; an unknown id changes nothing |
| CartStore.UpdateKeepsIdsUnique | src/store/cartStore.js:87-97 | `updateQuantity` keeps ids unique |
| CartStore.TotalPrice | src/store/cartStore.js:107-110 | `getTotalPrice` of an undefined cart is 0 |
| CartStore.TotalItems | src/store/cartStore.js:112-115 | `getTotalItems` of an undefined cart is 0 |
| CartStore.TotalsAppend | src/store/cartStore.js:107-115 | both totals are additive over concatenation |
| CartStore.TotalsOfEmptyCart | src/store/cartStore.js:107-115 | both totals are 0 for an undefined or empty cart |
| CartStore.TotalsAfterAddExisting | src/store/cartStore.js:64-70 | adding `q` of an existing line raises the item count by `q` and the price by `q` times that line's price |
| CartStore.TotalsAfterAddNew | src/store/cartStore.js:71-73 | adding a new line raises the totals by its quantity and by its price times its quantity |
| CartStore.GroupedBySeller | src/store/cartStore.js:117-130 | an undefined cart gives no group; the groups have distinct seller keys and together hold as many lines as the cart |
| CartStore.GroupedBySellerPartition | src/store/cartStore.js:117-130 | `getCartGroupedBySeller` partitions the cart by `sellerId` (`'toko_lain'` when missing); names come from the first item of each group; an undefined cart gives no group |
| CartStore.GroupedBySellerKeepsTotals | src/store/cartStore.js:107-130 | the group subtotals add up to `getTotalPrice` and the group counts to `getTotalItems` |
| CartStore.FireEffects | src/store/cartStore.js:29-43 | a fired sync does nothing without a token; with one it POSTs `{cart}` to `/pembeli/cart/sync` with the bearer header; a failure adds exactly one error toast |
| CartStore.Store.constructor | src/store/cartStore.js:48 | the cart starts empty, with no sync pending and no effects |
| CartStore.Store.DebouncedSync | src/store/cartStore.js:19-24 | the pending sync is replaced by one for the given cart, due 1500 ticks on |
| CartStore.Store.AddItem | src/store/cartStore.js:51-77 | the cart becomes the added cart and a sync of the new cart is scheduled 1500 ticks on |
| CartStore.Store.RemoveItem | src/store/cartStore.js:80-84 | the cart loses that id and a sync of the new cart is scheduled |
| CartStore.Store.UpdateQuantity | src/store/cartStore.js:87-97 | the cart takes the quantity (or loses the line) and a sync of the new cart is scheduled |
| CartStore.Store.ClearCart | src/store/cartStore.js:100-103 | the cart becomes empty and a sync of the empty cart is scheduled |
| CartStore.Store.Tick | src/store/cartStore.js:19-22 | one tick advances the timer; a call that fires adds its sync effects; the cart is untouched |
| CartStore.EditsThenClearSyncOnce | src/store/cartStore.js:29-43 | adding, updating and clearing in quick succession, then waiting, sends one sync request, and it carries the empty cart |
| Api.AuthHeader | src/lib/api.js:27-30 | a header is set exactly when the token is truthy, and it is `Bearer ` followed by the token |
| Api.AuthHeaderRoundTrip | src/lib/api.js:29 | the token can be read back from the header |
| Api.TokenOfRoundTrip | src/lib/api.js:29 | every header read as a token is the header of that token |
| Api.RequestConfig.constructor | src/lib/api.js:24 | the config starts with the given headers |
| Api.RequestConfig.Intercept | src/lib/api.js:24-32 | the interceptor sets `Authorization` when the token is truthy and otherwise leaves the headers alone |
| Api.TagEnd | src/lib/api.js:53 | the end of a tag is just past the first `>` at or after the start, or the end of the text when there is no `>` |
| Api.StripTags | src/lib/api.js:53 | removing tags never lengthens the text and keeps only characters of the input |
| Api.StripTagsLeavesNoTag | src/lib/api.js:53 | after tags are removed, every `<` left is directly followed by `>` or ends the text |
| Api.StripTagsIdentity | src/lib/api.js:53 | a message with no `<` is unchanged |
| Api.StripTagsIdempotent | src/lib/api.js:53 | removing tags twice is removing them once |
| Api.CleanMessage | src/lib/api.js:53 | in the cleaned message every `<` is directly followed by `>` or ends the text, and there is no white space at either end |
| Api.StripTagsOfTagOnlyMessage | src/lib/api.js:53 | the tag pattern strips `<b> </b>` down to a single space |
| Api.RejectMessage | src/lib/api.js:42-72 | no response gives the network message; a setup error keeps its own message; a backend `message` is always shown cleaned |
| Api.ErrorInterceptor | src/lib/api.js:42-72 | the `if` chain computes exactly `RejectMessage` |
| Api.MessageTakesPrecedence | src/lib/api.js:51-53 | a non-empty backend `message` wins over `error` and the status line |
| Api.ErrorFieldBeforeStatus | src/lib/api.js:54-55 | without a message, a non-empty `error` field is shown as is |
| Api.HtmlPageNeverShown | src/lib/api.js:56-57 | an HTML error page (containing `<p>`) becomes the critical-error text |
| Api.StatusLineFallback | src/lib/api.js:51-60 | for any body without a message, without an `error` field and not an HTML page (no body, an object without those fields, or a text without `<p>`), the message is `status: statusText`, or the default when there is no status text |
| Api.TagOnlyMessageIsEmpty | src/lib/api.js:51-53 | any non-empty backend message made only of tags and white space is rejected with an EMPTY message, whatever the `error` field and the status |
| Api.SyncMyCartRequest | src/lib/api.js:216-219 | `apiSyncMyCart(items)` POSTs `{cart: items}` to `/pembeli/cart/sync`, with a bearer header exactly when the token is truthy, from which the token reads back |
| Api.Settle | src/lib/api.js:40-74 | a success yields `response.data`, and a failure rejects with `RejectMessage` |
| AuthStore.ReconcileRequest | src/store/authStore.js:26-38 | a non-empty guest cart is pushed to the merge endpoint; otherwise the server cart is fetched; either call carries the current token |
| AuthStore.LocalStorage.RemoveItem | src/store/authStore.js:74-75 | `localStorage.removeItem(key)` deletes that key and nothing else |
| AuthStore.Session.constructor | src/store/authStore.js:17-18 | the session starts signed out, having made no request |
| AuthStore.Session.Login | src/store/authStore.js:20-48 | a failed login changes nothing; success stores user and token BEFORE reconciling; the cart becomes the server's answer (`|| []`); a reconciliation failure rethrows while the session stays signed in |
| AuthStore.Session.Register | src/store/authStore.js:50-59 | one request, and the reply is passed on |
| AuthStore.Session.Logout | src/store/authStore.js:61-77 | the clear request uses the old token; a failure adds one toast; then the user, token and cart are always reset and both storage keys removed |
| AuthStore.SignInAdoptsMergedCart | src/store/authStore.js:23-32 | a guest cart is replaced by exactly the cart the merge returns, and the merge request carries the new token |
| AuthStore.SignOutCleansUpOnFailure | src/store/authStore.js:61-77 | even when the remote clear fails, the local cart and session are cleared and the other storage keys are kept |
| AuthStore.GuestEditSyncsAfterLogin | src/store/cartStore.js:29-36 | a guest edit still pending at login later pushes the GUEST snapshot with the new token, over the merged cart |
| DesawisataAuth.LoginResult | desawisata/src/store/authStore.js:24-37 | login succeeds exactly when the reply holds a truthy token and `user_data`; otherwise it throws `data.message` or `'Data login tidak valid'`; a failed call is rethrown unchanged |
| DesawisataAuth.LoginRejection | desawisata/src/store/authStore.js:32 | the thrown message is never empty |
| DesawisataAuth.Store.constructor | desawisata/src/store/authStore.js:10-11 | user and token start as null |
| DesawisataAuth.Store.SetUser | desawisata/src/store/authStore.js:16-18 | sets exactly `user` and `token` |
| DesawisataAuth.Store.Login | desawisata/src/store/authStore.js:24-37 | settles to `LoginResult`; the session is stored on success and left unchanged on failure |
| DesawisataAuth.Store.Register | desawisata/src/store/authStore.js:42-53 | returns the reply and changes no state |
| DesawisataAuth.Store.Logout | desawisata/src/store/authStore.js:58-62 | sets `user` and `token` to null |
| Checkout.Guard | src/pages/checkout.js:57-64 | no truthy token goes to `/akun`; an empty cart goes to `/keranjang`; otherwise the page proceeds |
| Checkout.GroupSellers | src/pages/checkout.js:67-81 | the `reduce` builds the seller groups and the running subtotal equals the sum of price times quantity |
| Checkout.SellerGroupsPartition | src/pages/checkout.js:68-79 | the groups partition the items by `seller_id`, and their subtotals add up to the subtotal |
| Checkout.StoreItemsFormOneGroup | src/pages/checkout.js:69 | the store's lines carry no `seller_id`, so all of them fall into one group keyed `undefined`, named `'Toko'` |
| Checkout.StoreCartAsRead | src/pages/checkout.js:69-77 | a store line seen by the page keeps its price and quantity and has no seller id or shop |
| Checkout.StoreSubtotal | src/pages/checkout.js:77 | for store lines, the subtotal equals the store's `getTotalPrice` |
| Checkout.FindDefault | src/pages/checkout.js:91 | `find` returns the first address whose id is the default id |
| Checkout.DefaultAddress | src/pages/checkout.js:91-96 | an address is selected exactly when there is one; it is the default when one matches; otherwise it is the first |
| Checkout.DefaultAddressIsFirstMatch | src/pages/checkout.js:91-93 | the first matching address is the one selected |
| Checkout.TotalShipping | src/pages/checkout.js:142-145 | the `for…in` loop sums the chosen prices |
| Checkout.ShippingSelectSpec | src/pages/checkout.js:151-160 | choosing for a seller sets that seller's choice only, and the shipping total changes by the price difference |
| Checkout.OrderCheck | src/pages/checkout.js:167-175 | checks, in order: the address, then one choice per group (counted), then the payment method; it passes exactly when all three hold |
| Checkout.EveryGroupChosenPasses | src/pages/checkout.js:170 | a choice for every seller group passes the count check |
| Checkout.CountCheckIsKeyCount | src/pages/checkout.js:170 | with each key once in both objects, the entry counts the check compares are the two `Object.keys(...).length` |
| Checkout.CountCheckIgnoresWhichSellers | src/pages/checkout.js:170 | the count check passes even when a group has no choice, if another key is chosen in its place |
| Checkout.CheckoutPage.constructor | src/pages/checkout.js:28-43 | the initial state: loading, nothing selected, payment `manual_transfer`, all totals 0; the key invariant holds |
| Checkout.CheckoutPage.Mount | src/pages/checkout.js:56-104 | a failed guard only redirects; otherwise the groups and subtotal are set and the addresses are fetched; the shipping choices and seller groups keep each key once |
| Checkout.CheckoutPage.Load | src/pages/checkout.js:67-102 | past the guard, the groups are the seller grouping of the items, the subtotal their sum, and the addresses are fetched |
| Checkout.CheckoutPage.FetchAddresses | src/pages/checkout.js:84-102 | on success the list (`|| []`) and the default address are stored; on failure the error is set; loading ends either way |
| Checkout.CheckoutPage.FetchShipping | src/pages/checkout.js:107-138 | no address clears the options; success stores them and resets the choices; failure sets the prefixed error |
| Checkout.CheckoutPage.RecomputeTotals | src/pages/checkout.js:141-148 | the shipping total is the sum of the chosen prices, and the grand total is subtotal plus shipping |
| Checkout.CheckoutPage.HandleShippingSelect | src/pages/checkout.js:151-160 | the choice for the seller is replaced with `{metode, harga, nama}`, and the choices keep each key once |
| Checkout.CheckoutPage.PlaceOrder | src/pages/checkout.js:163-197 | a failed check sets only the error; otherwise the order is sent; success clears the cart and redirects to the order; failure shows its message or the fallback |
| Keranjang.ItemsByToko | src/pages/keranjang.js:24-34 | the `reduce` computes the grouping by `sellerId || 'toko-lain'` |
| Keranjang.PageGroupsSpec | src/pages/keranjang.js:20-41 | the empty state shows exactly when no group is listed; each item is in its seller's group once; group subtotals add up to the displayed total |
| Keranjang.FallbackKeyDiffersFromStore | src/pages/keranjang.js:25 | the page's fallback key `'toko-lain'` differs from the store's `'toko_lain'` |
| Keranjang.MinusClick | src/pages/keranjang.js:85-91 | the minus button is enabled exactly above quantity 1, and it asks for one less |
| Keranjang.Click | src/pages/keranjang.js:80-99 | a click applies the store action it names and schedules a sync |
| Keranjang.MinusNeverRemoves | src/pages/keranjang.js:85-91 | an enabled minus lowers only that line, by one, and never removes it |
| Keranjang.PlusClick | src/pages/keranjang.js:94-99 | plus asks `updateQuantity` for that line's id with one more than its quantity |
| Keranjang.RemoveClick | src/pages/keranjang.js:80 | the remove button asks `removeItem` for that line's id |
| Keranjang.PlusRaisesByOne | src/pages/keranjang.js:94-99 | for a quantity >= 0, plus raises only that line, by one, and keeps every other line; for a negative quantity (which `addItem` does not rule out) the new quantity is <= 0, so `updateQuantity` removes the line |
| Keranjang.RemoveTakesLineOut | src/pages/keranjang.js:80 | remove takes out that line and keeps every other line |
| DesawisataKeranjang.ItemsByToko | desawisata/src/pages/keranjang.js:14-24 | the `reduce` computes the grouping by `toko.id_pedagang || 'toko-lain'` |
| DesawisataKeranjang.PageGroupsSpec | desawisata/src/pages/keranjang.js:14-32 | the empty state needs an empty cart and no sync running; the groups partition the items; names come from each group's first item |
| DesawisataKeranjang.MinusClick | desawisata/src/pages/keranjang.js:72-78 | minus calls `addItem(product_id, variation_id, q - 1)` of its own item exactly when `q > 1` and no sync is running |
| DesawisataKeranjang.PlusClick | desawisata/src/pages/keranjang.js:80-86 | plus calls `addItem(product_id, variation_id, q + 1)` of its own item exactly when no sync is running |
| DesawisataKeranjang.RemoveClick | desawisata/src/pages/keranjang.js:68 | the remove button calls `removeItem(product_id, variation_id)` of its own item |
| DesawisataKeranjang.ButtonsWhileLoading | desawisata/src/pages/keranjang.js:68-86 | while syncing, only remove still acts, and each call names its own item |
| Jelajah.FetchFunction | src/pages/jelajah.js:98-101 | `'wisata'` and `'desa'` pick their endpoints; every other type lists products |
| Jelajah.QueryParamsSpec | src/pages/jelajah.js:103-116 | `search` is sent exactly for a non-empty debounced term; `kategori` and `desa` exactly when set and the type is not `'desa'` |
| Jelajah.QueryParamsKeys | src/pages/jelajah.js:103-116 | the params have unique keys, at most `search`, `kategori` and `desa` |
| Jelajah.BuildQueryParams | src/pages/jelajah.js:103-116 | the assignments build exactly `QueryParams` |
| Jelajah.UrlParamsSpec | src/pages/jelajah.js:135-142 | the URL sets `tipe` when non-empty and `q` from the RAW (not debounced) term; `kategori` and `desa` follow the same rule as the fetch |
| Jelajah.UrlParamsKeys | src/pages/jelajah.js:135-142 | the URL params have unique keys, at most the four names |
| Jelajah.BuildUrlParams | src/pages/jelajah.js:135-142 | the `params.set` calls build exactly `UrlParams` |
| Jelajah.DefaultTipeParams | src/pages/jelajah.js:98-142 | on the default type with no filters, the fetch is a product listing with at most `search`, and the URL has `tipe` and at most `q` |
| Jelajah.JelajahPage.constructor | src/pages/jelajah.js:78-84 | the initial state is taken from the router query, with defaults `'produk'` and `''` |
| Jelajah.JelajahPage.Mount | src/pages/jelajah.js:86-145 | the first render arms the debounce timer, fetches with the QUERY's kategori, pushes the URL, then resets kategori and so fetches again |
| Jelajah.JelajahPage.SetTipe | src/pages/jelajah.js:89-131 | a new type resets kategori; it fetches once with the old kategori and again after the reset |
| Jelajah.JelajahPage.SetSearchTerm | src/pages/jelajah.js:18-29 | typing reschedules the debounce timer and updates the URL at once, without fetching |
| Jelajah.JelajahPage.SetKategori | src/pages/jelajah.js:94-145 | a new category fetches once and updates the URL once; the same value does nothing |
| Jelajah.JelajahPage.SetDesa | src/pages/jelajah.js:94-145 | a new village fetches once and updates the URL once; the same value does nothing |
| Jelajah.JelajahPage.RunFetch | src/pages/jelajah.js:96-116 | the fetch effect logs one call to the endpoint and parameters of the current filters, and sets loading |
| Jelajah.JelajahPage.PushUrl | src/pages/jelajah.js:134-145 | the address-bar effect logs one URL built from the current filters |
| Jelajah.JelajahPage.ResetKategori | src/pages/jelajah.js:89-92 | kategori becomes empty; if it was not already empty, one more fetch and one more URL follow |
| Jelajah.JelajahPage.Tick | src/pages/jelajah.js:21-23 | when the timer fires with a new term, the debounced term changes and one fetch runs |
| Jelajah.JelajahPage.TickQuietly | src/pages/jelajah.js:21-27 | ticks before the search delay elapses change neither the debounced term nor the fetches |
| Jelajah.JelajahPage.Receive | src/pages/jelajah.js:118-126 | success shows `data.data || []`; failure clears the list and toasts the message; loading ends |
| Jelajah.MountDropsQueryKategori | src/pages/jelajah.js:80-92 | a kategori in the query is fetched once, then dropped: the second fetch has no kategori |
| Jelajah.TypeTwice | src/pages/jelajah.js:78-145 | after mount and two quick edits, only the mount fetch has run; the URL followed each edit; the last term is pending |
| Jelajah.TypingFetchesOnceAfterPause | src/pages/jelajah.js:86-145 | typing two terms fast updates the URL twice but fetches only once, with the last term |
| DesaIndex.SafeGetData | src/pages/desa/index.js:11-14 | an array is returned as is; otherwise `data` or `[]` |
| DesaIndex.LooseEquals | src/pages/desa/index.js:55 | `null` equals no string; a string id equals exactly the same string; a numeric id equal to `s` is what `Number(s)` reads |
| DesaIndex.LooseEqualsNumericId | src/pages/desa/index.js:55 | `==` matches a numeric province id against its string, even padded with spaces; `null` never matches |
| DesaIndex.FilterDesa | src/pages/desa/index.js:44-58 | the two conditional filters in a row compute exactly the villages `Selected` keeps |
| DesaIndex.FilterThen | src/pages/desa/index.js:47-56 | two filters in a row keep what both predicates keep |
| DesaIndex.FilterDesaSpec | src/pages/desa/index.js:44-58 | the result keeps the original order; a village is in it exactly when its lower-cased name contains the lower-cased term (if set) and its province matches (if set); with neither set, all villages |
| DesaIndex.DesaIndexPage.constructor | src/pages/desa/index.js:38-59 | the first render shows every village, with empty filters |
| DesaIndex.DesaIndexPage.SetSearchTerm | src/pages/desa/index.js:38-59 | a new term re-filters, so the shown list always follows the inputs |
| DesaIndex.DesaIndexPage.SetProvinsi | src/pages/desa/index.js:38-59 | a new province re-filters, so the shown list always follows the inputs |
| Header.BadgeFor | src/components/Header.js:55-57 | the badge is hidden exactly for counts <= 0; it reads `9+` above 9 and the count otherwise |
| Header.BadgeText | src/components/Header.js:55-57 | the badge text has at most two characters, and a one-digit badge reads back as the count |
| Header.CartBadge.constructor | src/components/Header.js:19 | the count starts at 0, so no badge shows before the effect runs |
| Header.CartBadge.OnCartChange | src/components/Header.js:21-25 | the effect's `reduce` sets the count to the cart's total quantity |
| Header.LastMatch | src/components/Header.js:31-40 | the title is the default or the title of a rule that matches |
| Header.ChainIsLastMatch | src/components/Header.js:31-40 | testing the rules in turn, each match overwriting, yields the title of the LAST matching rule |
| Header.PageTitle | src/components/Header.js:31-40 | the `if` chain yields the title of the last matching rule, default `Kembali` |
| Header.RulesDisjoint | src/components/Header.js:32-40 | no path matches two rules, so the order of the chain does not matter |
| Header.TitleOfMatchingRule | src/components/Header.js:31-40 | a path matching a rule gets that rule's title |
| Header.LastMatchOfNone | src/components/Header.js:31 | a path matching no rule gets the default title |
| Header.LastMatchOfOnly | src/components/Header.js:31-40 | when exactly one rule matches, the chain yields its title |
| Header.Render | src/components/Header.js:28-87 | the home header shows exactly on `/`, with the `title` prop or `Sadesa.site`; elsewhere the detail header shows the chain's title; both carry the badge |
| BannerCarousel.PrevIndex | desawisata/src/components/BannerCarousel.js:9-13 | from an index in range, the previous index is in range |
| BannerCarousel.NextIndex | desawisata/src/components/BannerCarousel.js:15-19 | from an index in range, the next index is in range |
| BannerCarousel.SlidesStayInRange | desawisata/src/components/BannerCarousel.js:9-19 | on a non-empty list both buttons keep the index in range; next is `+1 mod n` and prev is `-1 mod n`; each undoes the other |
| BannerCarousel.FullRoundReturns | desawisata/src/components/BannerCarousel.js:15-25 | `n` slides forward come back to the start, and the automatic slides show every banner in turn |
| BannerCarousel.Render | desawisata/src/components/BannerCarousel.js:27-80 | the placeholder shows exactly for an empty list; otherwise the current banner, linking to `link` or `/jelajah`; a caption only with a title; arrows only for more than one banner; one dot per banner, only the current one lit |
| BannerCarousel.Carousel.constructor | desawisata/src/components/BannerCarousel.js:7-25 | index 0, and a timer armed only for more than one banner |
| BannerCarousel.Carousel.Effect | desawisata/src/components/BannerCarousel.js:21-25 | the cleanup clears the timer, and a new 5000-tick timer is set only for more than one banner |
| BannerCarousel.Carousel.SetCurrentIndex | desawisata/src/components/BannerCarousel.js:7-25 | a changed index re-runs the effect and restarts the timer; the same index leaves the timer alone |
| BannerCarousel.Carousel.PrevSlide | desawisata/src/components/BannerCarousel.js:9-13 | the index moves back with wrap-around, keeping the state valid, and the timer restarts |
| BannerCarousel.Carousel.NextSlide | desawisata/src/components/BannerCarousel.js:15-19 | the index moves on with wrap-around, keeping the state valid, and the timer restarts |
| BannerCarousel.Carousel.Tick | desawisata/src/components/BannerCarousel.js:21-25 | when the timer expires the next slide shows and a timer is re-armed; one banner or none never moves |
| BannerCarousel.Carousel.View | desawisata/src/components/BannerCarousel.js:27-80 | the drawing of the current state is `Render` |
| Akun.RegisterGuard | src/pages/akun.js:54-61 | a mismatched confirmation is reported first; then any empty field among name, username, email and password; the call proceeds exactly when neither holds |
| Akun.ErrorText | src/pages/akun.js:45 | `err.message || fallback` is never empty, and it is the message whenever that is non-empty |
| Akun.ViewFor | src/pages/akun.js:85-152 | the profile shows exactly when the token is truthy and there is a user; the forms show the error and message boxes only for non-empty texts |
| Akun.AkunPage.constructor | src/pages/akun.js:17-32 | the initial state: the sign-in tab, an empty form, no error and no message |
| Akun.AkunPage.Input | src/pages/akun.js:166-251 | an input handler sets that field alone |
| Akun.AkunPage.TogglePassword | src/pages/akun.js:183 | the eye button flips `showPassword` |
| Akun.AkunPage.SelectTab | src/pages/akun.js:132-143 | switching tabs clears the error and the message |
| Akun.AkunPage.HandleLogin | src/pages/akun.js:37-49 | calls `login` with the typed values; success pushes `/akun` with no error; failure shows the message or the fallback; loading ends either way |
| Akun.AkunPage.HandleRegister | src/pages/akun.js:52-81 | a guard failure sets only its error and makes no call; otherwise it calls `register(username, email, password, nama)`; success shows the message, switches to login and clears all five fields; failure shows its error |
| Akun.AkunPage.LogoutClick | src/pages/akun.js:112-115 | calls `logout` and pushes `/` |
| Akun.AkunPage.View | src/pages/akun.js:85-152 | the drawing of the current state is `ViewFor` |
| Akun.RegistrationSucceeds | src/pages/akun.js:52-81 | a complete registration makes one call in `register`'s argument order and ends on the sign-in tab with an empty form |
| Akun.MismatchBlocksRegistration | src/pages/akun.js:54-57 | a mismatch blocks the call and keeps all five typed values, whatever the other three fields hold |

## Left out

- Network I/O, promises and their interleaving: each remote call is replaced by its settled outcome, given as a parameter. Two fetches of the explore page that overlap, where a stale reply lands last, are not modelled.
- Real time: `setTimeout`, `clearTimeout` and the debounce delays are abstract ticks.
- React's rendering: an effect runs at the point in a method where the render that triggers it would run it. A state setter called with an unchanged value does not re-render. Re-runs caused only by changes of object identity (`items`, `router`) are not modelled.
- The `persist` middleware's write-through to `localStorage`: only the explicit `removeItem` calls of logout are modelled.
- `console.log`/`console.error` output, CSS classes, icons and images (including the `onError` placeholder swaps).
- `formatCurrency` and `toLocaleString` (Intl number formatting).
- JavaScript's ordering of integer-like object keys: grouped objects keep insertion order here. `Object.entries` would list numeric seller ids in ascending order.
- JavaScript numbers are modelled as unbounded integers: the cart's `price` and `quantity`, and the checkout's `harga` and `subtotal`. A fractional price would be summed exactly here but with binary rounding in JavaScript. A `harga` held as a string would be concatenated by `newTotalShipping += … || 0` (`src/pages/checkout.js:144`) instead of added.
- `toLowerCase` is modelled for ASCII letters only. There is no Unicode case mapping.
- `Number(...)` in loose equality is modelled for plain decimal integers with optional sign and surrounding white space. Fractions, exponents, hexadecimal and `Infinity` are not modelled.
- `URLSearchParams.toString()` percent-encoding and the `/jelajah?…` string: the URL is the ordered list of parameters set.
- Checkout reads `items` from the cart store, which has no such field (it has `cart`). The page is modelled over an `items` parameter. `Checkout.StoreItemsFormOneGroup` shows what the store's own lines would give.
- `apiGetMyAddresses` is not exported by `src/lib/api.js`. The address fetch is modelled by its settled outcome.
- The shipping request payload (`cart_items` and `address_api`) and the argument mismatch with `apiGetShippingOptions(payload)` are not modelled.
- The payment-method radio buttons: `paymentMethod` keeps its default `'manual_transfer'`.
- `desawisata/src/pages/keranjang.js` is driven by an older cart store that is not part of this model. Its buttons are modelled as the calls they make.
- `safeGetData`: a truthy `data` that is not an array is not modelled, since `data` is either an array or absent.
- `nama_desa` being `null`, which would throw in the search filter, is not modelled: names are strings.
- `router.pathname` in the header is the route pattern (for example `/product/[slug]`). The model takes the path string the rules are matched against.
- The server-side data loaders (`getServerSideProps`) of the explore and village pages, and the other API helpers, are not modelled. Only the endpoints the core calls are described.
- Akun.AkunPage.HandleLogin, Akun.AkunPage.HandleRegister, Akun.MismatchBlocksRegistration: the handlers are modelled as if called directly, without the browser's constraint validation. Every input of the account forms is `required` and the register e-mail is `type="email"` (`src/pages/akun.js:167-252`), so a real submit never reaches a handler with an empty field or a malformed e-mail. The `'Semua field wajib diisi.'` branch (`FIELDS_REQUIRED`) therefore cannot be reached from the form: a value of white space only passes `required` and is truthy too.
- The login, register and logout calls of the account page go to the store as logged calls. Their effect on the session is modelled in `AuthStore.Session`.
- Differences between the code and its written description:
  - `clearCart` also schedules a sync (of the empty cart). The model follows the code.
  - A failed reconciliation after login rethrows, but the new token and user stay stored. The model follows the code.
