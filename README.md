# Diner app core, modelled in Dafny

A model of the ordering core of a React Native diner app. The diner scans a
restaurant's QR code and browses the menu. They fill a cart, send it as an
order under the table PIN the waiter gives them, and follow the order. At the
end they ask for the bill.

The modules follow the app's files:

| module | file | form |
|---|---|---|
| `Wrappers` | — | `Option` and `Result` |
| `Js` | — | the JavaScript semantics the app relies on: `||` on ids and strings, truthiness, `toLowerCase`, `includes`, `length` in UTF-16 code units |
| `ProductsService` | `src/services/products.js` | pure: the product record and the `getProducts` adapter |
| `CartLines` | `src/context/CartContext.jsx` | pure: the cart line list, the updaters handed to `setCartItems`, and the totals |
| `CartContext` | `src/context/CartContext.jsx` | the provider as the class `CartStore`, whose methods update its four state fields; one session-check tick |
| `AppNavigator` | `src/navigation/AppNavigator.jsx` | pure: the mounted screens as a function of the PIN |
| `CartScreen` | `src/screens/CartScreen.jsx` | the checkout state machine as the class `CheckoutState`; the order payload |
| `ProductCard` | `src/components/restaurant/ProductCard.jsx` | the quantity selector as the class `SelectorState` |
| `MenuScreen` | `src/screens/MenuScreen.jsx` | pure: search and category filters, grouping into sorted sections, the category bar |
| `QrScannerScreen` | `src/screens/QRScannerScreen.jsx` | the scan lock as the class `ScannerState` |
| `OrderDetailsScreen` | `src/screens/OrderDetailsScreen.jsx` | the tracking state as the class `TrackingState`; actions, table shown, receipt guard |
| `PaymentScreen` | `src/screens/PaymentScreen.jsx` | the bill request as the class `PaymentState` |

## Encodings

- **Identifiers.** Product, table and restaurant identifiers are naturals, and
  0 stands for every falsy value (`null`, `undefined`, `0`). `OrNat(a, b)` is
  `a || b`.
- **Prices.** Prices are integer cents, and 0 is a missing or zero price.
- **Strings.** A string that is only tested for truthiness uses "" for
  "absent" (a server `message`, the QR `nombre`). A string that is compared
  with `===` or may be missing is an `Option<string>` (`categoria`,
  `descripcion`, `imagen`, the PIN). `Truthy(o)` means present and non-empty.
- **Network calls.** Every network call is a parameter that says how the call
  ended:
  - the order post is `OrderResponse`: `Accepted(mesa)`,
    `Rejected(status, message)` or `TransportFailure`;
  - the session check is `SessionCheck`;
  - the tracking fetch is `TrackingResponse`;
  - the bill post is `BillResponse`;
  - the product list is a `Result`.

  Each handler is a method that updates the state according to that outcome.
  A failure to decode a response body counts as a transport failure, as in
  the source, where both land in the same `catch`.
- **Context.** Each screen holds the `CartStore` it reads from the context as
  a `const` field.
- **Results and navigation.** Handlers return what they would show
  (`Alert(title, message)`), post (the payload) and navigate to (a `Screen`).

Behaviours of the code worth knowing, which the model keeps as written:

- **`updateQuantity`.** It leaves a line unchanged when the new quantity would
  be 0 or less. So a line of 3 given a change of −5 stays at 3, not 1 (see
  `CartLines.MergeUpdateRemoveExample`).
- **401 rejection.** A 401 answer to an order clears the PIN but keeps the
  table already assigned. So "table set, no PIN" is reachable
  (`CartScreen.TableOutlivesRejectedPin`).
- **Order payload.** The payload carries no notes.
- **Tracking without a PIN.** With no PIN, the tracking fetch returns early,
  but its `finally` block still runs. So the spinners stop even on that path.
- **No submission guard.** No guard prevents a second submission. The
  checkout button is simply not rendered while a request is loading.
- **`setTableId`.** It is unguarded.
- **Active order without a ticket.** The tracking render reads
  `orderData.ticket.items` unguarded. An active answer that carries no ticket
  makes the render throw, which `OrderDetailsScreen.TrackingState.Shown`
  reports as `RenderCrash`. The PDF button's handler, by contrast, checks for
  the ticket first.

## Model

| member | source | states |
|---|---|---|
| Js.IncludesIsSubstring | src/screens/MenuScreen.jsx:51-54 | `includes` as modelled holds exactly when the query is the slice of the text at some index |
| Js.Utf16Length | src/screens/CartScreen.jsx:23 | `.length` counts UTF-16 code units: between the number of characters and twice it, and equal to it exactly when no character lies outside the Basic Multilingual Plane |
| ProductsService.ProductKey | src/context/CartContext.jsx:48 | the cart key is `id_producto` when truthy, else `id`; it is 0 only when both are falsy |
| ProductsService.UnitPrice | src/components/restaurant/ProductCard.jsx:16 | the unit price is `precio_venta` when non-zero, else `precio` (0 when both are missing) |
| ProductsService.AdaptedCategory | src/services/products.js:23 | the adapted category is `categoria`, else `nombre_categoria`, else 'General', and is never empty |
| ProductsService.AdaptAll | src/services/products.js:16-24 | the adapted list has the raw list's length and order, item by item |
| ProductsService.GetProducts | src/services/products.js:4-32 | a failed request is rethrown with the same error; a successful one yields the list of raw items each adapted in order (`AdaptAll`), one product per item |
| ProductsService.AdaptedFields | src/services/products.js:16-24 | each adapted product is keyed and priced by the raw `id_producto` and `precio_venta`, keeps name, description and image, and has a non-empty category |
| CartLines.FindIndex | src/context/CartContext.jsx:52-54 | the result is -1 exactly when no line has the key; otherwise it is the first line with the key |
| CartLines.NewLine | src/context/CartContext.jsx:62-69 | a new line carries the normalised `id_producto`, the unit price `precio_venta || precio || 0`, the given quantity and the given notes |
| CartLines.AddToCart | src/context/CartContext.jsx:45-72 | with a line of the same key, only that line's quantity grows by `quantity` and the length is kept; otherwise exactly one new line is appended at the end; lines with other keys never change |
| CartLines.UpdateQuantity | src/context/CartContext.jsx:75-86 | the length is kept and only quantities change; lines with another key are untouched; a matching line moves to `quantity + change` only when that is positive, otherwise it stays as it was |
| CartLines.RemoveFromCart | src/context/CartContext.jsx:89-93 | the lines left are exactly the old lines without the key |
| CartLines.Total | src/context/CartContext.jsx:104 | `total` equals the left-to-right `reduce` from 0 that adds `precio_venta * quantity` for each line |
| CartLines.TotalItems | src/context/CartContext.jsx:105 | `totalItems` equals the left-to-right `reduce` from 0 that adds each line's quantity |
| CartLines.ReduceShift | src/context/CartContext.jsx:104-105 | a `reduce` started from a running sum gives that sum plus the `reduce` started from 0 |
| CartLines.TotalsAppend | src/context/CartContext.jsx:104-105 | both totals of a concatenation are the sums of the parts' totals |
| CartLines.TotalsReplace | src/context/CartContext.jsx:104-105 | replacing one line changes each total by the difference of that line's contribution |
| CartLines.TotalItemsCountsLines | src/context/CartContext.jsx:104-105 | with every quantity at least 1, `totalItems` is at least the line count, positive exactly when the cart is non-empty, and `total` is not negative |
| CartLines.AddToCartTotals | src/context/CartContext.jsx:52-69 | an add raises `totalItems` by `quantity` and `total` by the line's unit price times `quantity` |
| CartLines.AddToCartKeepsKeysUnique | src/context/CartContext.jsx:52-69 | if no two lines share a key before an add, none do after |
| CartLines.AddToCartKeepsPositive | src/context/CartContext.jsx:52-69 | adding at least one unit keeps every quantity at least 1 |
| CartLines.AddEachMerges | src/context/CartContext.jsx:52-60 | on a cart holding only the product's line, further adds with the same key keep a single line grown by the sum of their quantities |
| CartLines.SameKeyAddsYieldOneLine | src/context/CartContext.jsx:52-60 | any non-empty sequence of adds of one product with the same notes, starting from an empty cart, yields a single line holding their summed quantity |
| CartLines.DifferentNotesNeverMerge | src/context/CartContext.jsx:52-54 | two adds of an unseen product with different notes append two separate lines |
| CartLines.UpdateAbsentIsNoop | src/context/CartContext.jsx:77-84 | an update of a key no line has changes nothing |
| CartLines.UpdateKeepsPositive | src/context/CartContext.jsx:80-81 | if every quantity is at least 1, it still is after any update |
| CartLines.UpdateKeepsKeysUnique | src/context/CartContext.jsx:77-84 | an update keeps the keys distinct |
| CartLines.UpdateTotals | src/context/CartContext.jsx:77-84 | updating a present key moves `totalItems` by `change` and `total` by price times `change` when the result stays positive, and by nothing otherwise |
| CartLines.RemoveAbsentIsNoop | src/context/CartContext.jsx:90-92 | removing a key no line has changes nothing |
| CartLines.RemoveDeletesExactlyThatLine | src/context/CartContext.jsx:90-92 | with distinct keys, removing line i's key deletes exactly line i and keeps the rest in order |
| CartLines.RemoveSoleMatch | src/context/CartContext.jsx:90-92 | when line i is the only line matching a product and note, the filter returns the cart with exactly that line cut out |
| CartLines.RemoveKeepsKeysUnique | src/context/CartContext.jsx:90-92 | a removal keeps the keys distinct |
| CartLines.TotalsWithout | src/context/CartContext.jsx:104-105 | the totals without line i are the totals less that line's contribution |
| CartLines.RemoveTotals | src/context/CartContext.jsx:89-93 | a removal takes exactly the removed line's amount and units off the totals |
| CartLines.MergeUpdateRemoveExample | src/context/CartContext.jsx:45-93 | adds of 2 and 1 merge into one line of 3 (total 4500 cents at 1500 each); a change of -5 leaves it at 3; removing it empties the cart |
| CartContext.Exited | src/context/CartContext.jsx:97-102 | after the reset the cart is empty, PIN and table are cleared, the restaurant is `{null, ''}`, and no PIN is set |
| CartContext.Tick | src/context/CartContext.jsx:19-36 | with a PIN set, an answer `valida === false` resets the session; every other answer, a failure, or no PIN leaves the state unchanged |
| CartContext.ResetIsIdempotent | src/context/CartContext.jsx:26-31 | a second reset, and any later tick, change nothing after a reset |
| CartContext.TickScenario | src/context/CartContext.jsx:20-35 | answers `true`, a failure, then `false` leave the state, leave it, then reset it |
| CartContext.CartStore.constructor | src/context/CartContext.jsx:8-13 | the provider starts with an empty cart, no PIN, no table and no restaurant |
| CartContext.CartStore.AddToCart | src/context/CartContext.jsx:45-72 | the lines become the `addToCart` update of the old lines, `totalItems` grows by `quantity`, keys stay distinct, the session fields are unchanged |
| CartContext.CartStore.UpdateQuantity | src/context/CartContext.jsx:75-86 | the lines become the `updateQuantity` update of the old lines, all-positive quantities stay positive, the session fields are unchanged |
| CartContext.CartStore.RemoveFromCart | src/context/CartContext.jsx:89-93 | the lines become the filtered old lines, the session fields are unchanged |
| CartContext.CartStore.ClearCart | src/context/CartContext.jsx:95 | only the cart changes, and it becomes empty |
| CartContext.CartStore.ExitSession | src/context/CartContext.jsx:97-102 | all four fields are reset together |
| CartContext.CartStore.SetPin | src/context/CartContext.jsx:112 | only the PIN changes |
| CartContext.CartStore.SetTableId | src/context/CartContext.jsx:113 | only the table changes |
| CartContext.CartStore.SetRestaurantData | src/context/CartContext.jsx:111 | only the restaurant changes |
| CartContext.CartStore.SessionTick | src/context/CartContext.jsx:20-35 | the new state is one tick of the session check applied to the old state; the "Mesa Cerrada" notice is returned exactly when a set PIN meets `valida === false` |
| AppNavigator.Reachable | src/navigation/AppNavigator.jsx:24-43 | without a PIN exactly Home, QRScanner, Menu and Cart are mounted; with one exactly Home, Menu, Cart, OrderDetails and Payment |
| AppNavigator.ReachableDependsOnlyOnPinSet | src/navigation/AppNavigator.jsx:16-24 | two PINs that are both set, or both unset, mount the same screens |
| AppNavigator.ReachableByMode | src/navigation/AppNavigator.jsx:26-42 | OrderDetails and Payment are reachable iff a PIN is set, QRScanner iff none is; Home, Menu and Cart always |
| AppNavigator.ResetReturnsToGuestScreens | src/navigation/AppNavigator.jsx:24-32 | after a reset the guest screens are mounted |
| CartScreen.BuildPayload | src/screens/CartScreen.jsx:32-38 | the payload carries the PIN and one `{id_producto, cantidad}` per cart line, in cart order |
| CartScreen.PinLongEnough | src/screens/CartScreen.jsx:23 | the prompt's check accepts a PIN exactly when its JavaScript length, in UTF-16 code units, is at least 3; three characters always pass and one never does |
| CartScreen.EmojiPinIsLongEnough | src/screens/CartScreen.jsx:23 | two emoji (length 4 in UTF-16) pass the check; two digits do not |
| CartScreen.Outcome | src/screens/CartScreen.jsx:48-61 | exactly a successful answer navigates (to OrderDetails) and raises no dialog; a refusal shows the server message or "No se pudo enviar.", a failure "Fallo de conexión." |
| CartScreen.PayloadCarriesEveryUnit | src/screens/CartScreen.jsx:32-38 | the units ordered equal the cart's `totalItems` |
| CartScreen.Submitted | src/screens/CartScreen.jsx:48-57 | success empties the cart, keeps PIN and restaurant, and sets the table only for a truthy `mesa`; a 401 clears only the PIN; other rejections and transport failures change nothing |
| CartScreen.TableOutlivesRejectedPin | src/screens/CartScreen.jsx:54-57 | after a 401 the PIN is unset while the assigned table and the cart remain |
| Js.ServerErrorAlert | src/screens/CartScreen.jsx:55 | a refused request shows an "Error" dialog with the server's message, or the given fallback when the message is absent; the cart passes "No se pudo enviar." and the bill request (src/screens/PaymentScreen.jsx line 50) "No se pudo solicitar la cuenta." |
| CartScreen.CheckoutState.constructor | src/screens/CartScreen.jsx:9-11 | the prompt is closed, the PIN field empty, nothing loading |
| CartScreen.CheckoutState.SetInputPin | src/screens/CartScreen.jsx:94 | typing changes only the PIN field |
| CartScreen.CheckoutState.CancelPin | src/screens/CartScreen.jsx:96 | cancelling only closes the prompt |
| CartScreen.CheckoutState.SendOrderToBackend | src/screens/CartScreen.jsx:29-64 | the posted payload is built from the cart; the context moves as `Submitted` says; the dialog and navigation are `Outcome` of the answer; the prompt and PIN field are kept; loading ends false |
| CartScreen.CheckoutState.HandleCheckout | src/screens/CartScreen.jsx:13-20 | an empty cart only raises a notice; with a PIN the order is sent with it, the prompt is left as it was and the dialog and navigation are `Outcome` of the answer; without one only the prompt opens and nothing is sent; the PIN field never changes; any navigation is to a mounted screen |
| CartScreen.CheckoutState.ConfirmPin | src/screens/CartScreen.jsx:22-27 | a PIN shorter than 3 characters is refused with nothing set or sent; otherwise it becomes the PIN, the prompt closes, and the order is sent with it, with the dialog and navigation `Outcome` of the answer; the PIN field keeps its text |
| ProductCard.SelectorState.constructor | src/components/restaurant/ProductCard.jsx:12-14 | the selector starts closed, at quantity 1, with empty notes |
| ProductCard.SelectorState.AddButtonAmount | src/components/restaurant/ProductCard.jsx:113 | the add button shows unit price times quantity, never less than one unit's price |
| ProductCard.SelectorState.Open | src/components/restaurant/ProductCard.jsx:27 | tapping the card opens the modal and keeps the quantity |
| ProductCard.SelectorState.Close | src/components/restaurant/ProductCard.jsx:117 | closing keeps the quantity |
| ProductCard.SelectorState.Decrement | src/components/restaurant/ProductCard.jsx:94 | minus lowers the quantity by one but never below 1 |
| ProductCard.SelectorState.Increment | src/components/restaurant/ProductCard.jsx:103 | plus raises the quantity by exactly one |
| ProductCard.SelectorState.HandleAddToCart | src/components/restaurant/ProductCard.jsx:18-23 | the cart receives `addToCart(product, quantity, '')`, `totalItems` grows by the quantity, the session is untouched, and the selector resets to closed, 1 and '' |
| QrScannerScreen.Recognize | src/screens/QRScannerScreen.jsx:32-47 | a payload binds a restaurant iff it parsed and has a truthy `id_restaurante`; the name is `nombre || "Restaurante"` |
| QrScannerScreen.ScannerState.constructor | src/screens/QRScannerScreen.jsx:10-11 | both flags start cleared |
| QrScannerScreen.ScannerState.HandleBarCodeScanned | src/screens/QRScannerScreen.jsx:21-53 | a scan while scanned or locked does nothing; otherwise both flags are set; a recognised payload sets only the restaurant and leads to the menu; an unrecognised one raises the notice and keeps the lock; cart, PIN and table never change |
| QrScannerScreen.ScannerState.Retry | src/screens/QRScannerScreen.jsx:51 | retry clears both flags |
| QrScannerScreen.ScannerState.Focus | src/screens/QRScannerScreen.jsx:14-17 | focus clears both flags |
| OrderDetailsScreen.EsPorPagar | src/screens/OrderDetailsScreen.jsx:75 | awaiting the bill holds exactly when `estado === 'por_pagar'` |
| OrderDetailsScreen.Actions | src/screens/OrderDetailsScreen.jsx:116-146 | awaiting the bill (`estado === 'por_pagar'`) offers only the PDF; otherwise exactly "order more" and "pay" |
| OrderDetailsScreen.TableShown | src/screens/OrderDetailsScreen.jsx:86 | the table shown is the assigned table when set, else the ticket's |
| OrderDetailsScreen.PdfReceipt | src/screens/OrderDetailsScreen.jsx:37-45 | without order data or a ticket the receipt stops with "No hay datos para el ticket"; otherwise it prints the ticket with the table shown |
| OrderDetailsScreen.TrackingState.constructor | src/screens/OrderDetailsScreen.jsx:10-12 | no order, loading, not refreshing |
| OrderDetailsScreen.TrackingState.Shown | src/screens/OrderDetailsScreen.jsx:61-107 | a spinner while loading; the "no active orders" notice without data; a crash for an active order without a ticket; otherwise the ticket, with the awaiting-bill flag, its actions, its items and total, and the table `TableShown` gives |
| OrderDetailsScreen.ShownTicketMatchesReceipt | src/screens/OrderDetailsScreen.jsx:37-49 | whenever the ticket is on screen, the PDF receipt can be made and prints the table, items and total the screen shows |
| OrderDetailsScreen.TrackingState.FetchOrderData | src/screens/OrderDetailsScreen.jsx:14-31 | without a PIN nothing is stored; an active answer is stored, an inactive one clears the order, a failure keeps it; both spinners are off on every path |
| OrderDetailsScreen.TrackingState.Refresh | src/screens/OrderDetailsScreen.jsx:80 | pull to refresh updates the order as a fetch does and ends with both spinners off |
| PaymentScreen.Wire | src/screens/PaymentScreen.jsx:93-109 | the method sent is only ever 'tarjeta' or 'efectivo', one per card |
| PaymentScreen.PaymentState.constructor | src/screens/PaymentScreen.jsx:9-10 | nothing loading, no method selected |
| PaymentScreen.PaymentState.ButtonDisabled | src/screens/PaymentScreen.jsx:117 | the request button is enabled exactly when a method is chosen and no request is running |
| PaymentScreen.PaymentState.SelectMethod | src/screens/PaymentScreen.jsx:93-109 | selecting a card records it and enables the button unless a request is loading |
| PaymentScreen.PaymentState.HandleRequestBill | src/screens/PaymentScreen.jsx:15-59 | with no method nothing is sent and loading is unchanged; otherwise exactly `{pin, metodo_pago}` is sent and loading ends false; success leads back to OrderDetails, a rejection shows the server message, a failure the connection notice; the context never changes |
| MenuScreen.SearchFilter | src/screens/MenuScreen.jsx:51-54 | a product is kept iff its lower-case name contains the lower-case query, or its description is non-empty and does; the result is no longer than the menu |
| MenuScreen.CategoryFilter | src/screens/MenuScreen.jsx:57-59 | a product is kept iff its raw `categoria` equals the selection |
| MenuScreen.Filtered | src/screens/MenuScreen.jsx:50-59 | with 'Todos' the result is the search result; otherwise it is the category filter applied to the search result; a product is listed iff it passes both |
| MenuScreen.SearchFilterSnoc | src/screens/MenuScreen.jsx:51-54 | the search keeps the menu's order and every copy: a product appended to the menu is appended to the result exactly when it matches |
| MenuScreen.CategoryFilterSnoc | src/screens/MenuScreen.jsx:57-59 | the chip filter keeps order and copies: an appended product is appended to the result exactly when its raw `categoria` is the chip |
| MenuScreen.FilteredSnoc | src/screens/MenuScreen.jsx:50-59 | a product appended to the menu is listed last exactly when it passes the search and, unless the chip is 'Todos', the chip |
| MenuScreen.EmptyQueryKeepsAll | src/screens/MenuScreen.jsx:51-54 | an empty search keeps every product in order |
| MenuScreen.Title | src/screens/MenuScreen.jsx:63 | a product's section title is its category, or 'Varios' when it has none |
| MenuScreen.InSection | src/screens/MenuScreen.jsx:62-67 | a section's list holds exactly the products with its title |
| MenuScreen.Grouped | src/screens/MenuScreen.jsx:62-66 | every key the `reduce` creates holds at least one product, and every product under a key has that key as its title |
| MenuScreen.GroupedSpec | src/screens/MenuScreen.jsx:62-67 | the grouping has a key for exactly the titles present, and each key's list is the products with that title in their order |
| MenuScreen.GroupStep | src/screens/MenuScreen.jsx:62-67 | one step of the reduce: appending a product to its title's list turns an exact grouping of a prefix into an exact grouping of the prefix plus that product |
| MenuScreen.Dedup | src/screens/MenuScreen.jsx:79 | `new Set` keeps every value once, and nothing else |
| MenuScreen.DedupPrefix | src/screens/MenuScreen.jsx:79 | values seen later never reorder the earlier ones |
| MenuScreen.StrLessIrreflexive | src/screens/MenuScreen.jsx:72 | no title sorts before itself |
| MenuScreen.StrLessTransitive | src/screens/MenuScreen.jsx:72 | the title order is transitive |
| MenuScreen.StrLessTotal | src/screens/MenuScreen.jsx:72 | of two different titles one sorts first |
| MenuScreen.Sort | src/screens/MenuScreen.jsx:72 | sorting permutes the keys |
| MenuScreen.SortSorted | src/screens/MenuScreen.jsx:72 | sorting distinct keys puts them in strictly ascending order |
| MenuScreen.StrictlySortedUnique | src/screens/MenuScreen.jsx:72 | two strictly sorted lists with the same elements are equal, so every correct sort agrees with this one |
| MenuScreen.SectionKeys | src/screens/MenuScreen.jsx:72 | the section keys are strictly ascending and are exactly the titles present |
| MenuScreen.Sections | src/screens/MenuScreen.jsx:62-75 | section titles are strictly ascending, and each section holds exactly the filtered products with its title, in their order |
| MenuScreen.SectionedProducts | src/screens/MenuScreen.jsx:49-76 | every product shown passes the search and the category chip and sits under its own title |
| MenuScreen.Categories | src/screens/MenuScreen.jsx:79 | the bar is 'Todos' followed by each distinct section title (category, else 'Varios') once |
| MenuScreen.CategoriesKeepFirstAppearanceOrder | src/screens/MenuScreen.jsx:79 | the bar keeps first-appearance order: more products never reorder the chips already shown |
| MenuScreen.SectionsCoverFiltered | src/screens/MenuScreen.jsx:62-75 | there is a section for exactly the titles present, none is empty, and every filtered product is in the section of its title |
| MenuScreen.SectionOfProductIsUnique | src/screens/MenuScreen.jsx:62-75 | no product sits in two sections |
| MenuScreen.SectionsPartition | src/screens/MenuScreen.jsx:62-75 | the section sizes add up to the number of filtered products |
| MenuScreen.VariosChipOmitsUncategorised | src/screens/MenuScreen.jsx:58-79 | an uncategorised product makes the 'Varios' chip appear, yet selecting that chip never shows it |

## Left out

- **HTTP transport.** This covers `fetch`, the axios instance in `src/services/api.js` and `src/services/orders.js`. Each response is an outcome parameter. `src/services/products.js` and `src/services/api.js` import `API_URLS`, which `src/utils/constants.js` does not define (it only defines `API_URL`). As written, `api.js` reads `API_URLS.BASE` when the module loads, so `getProducts` can never succeed; the `Success` branch of `ProductsService.GetProducts` models what the code evidently intends. The model takes the request's outcome as given.
- **Timers and effect lifecycle.** The interval, its clean-up, overlapping ticks and the focus listener's registration are not modelled. One interval callback is `CartContext.CartStore.SessionTick`, and one focus event is `Focus`.
- **Fields assumed present.** `OrderData.estado` and `Product.nombre` are plain strings, so an order without `estado` (whose `toUpperCase()` in the tracking render throws) and a product without `nombre` (whose `toLowerCase()` in the menu search throws) cannot be expressed; both fields are assumed present.
- **Floating point.** `parseFloat` and `toFixed` are not modelled; prices are integer cents. `parseFloat` of a non-numeric price gives `NaN`, which has no counterpart here.
- **QR text.** `JSON.parse` is not modelled: the decoded payload is an `Option<QrPayload>`, `None` for text that does not parse. Camera permission handling is not modelled either.
- **Rendering and platform services.**
  - Styles, the status label text, the per-item "served/cooking" label, the upper-casing of section headers and the `route.params` summary on the payment screen are not modelled.
  - The receipt's HTML, `expo-print`/`expo-sharing`, and their "No se pudo crear el PDF" alert are not modelled either.
  - The buttons of an alert are not modelled. The second `exitSession` run by the "Mesa Cerrada" alert's OK button is covered by `CartContext.ResetIsIdempotent`.
- **Thin files.** `App.js`, `src/utils/constants.js`, `src/screens/HomeScreen.jsx` and `src/components/restaurant/CartItem.jsx` only forward calls to the store and are not part of this model.
- **Menu fetch.** `fetchMenu` in `src/screens/MenuScreen.jsx` is I/O; the menu functions take the product list as a parameter.
- **Product fields.** Products keep only the fields the core reads. The `...product` spread copies any other fields into a new cart line, and those are not modelled.
- CartLines.AddToCart: shallow-copying the array and then mutating the shared line object is modelled as replacing the line at the found index. The earlier list is never read again, so the aliasing is not observable.
- Js.Lower: `toLowerCase` is modelled for ASCII letters only; full Unicode case mapping is not modelled.
- MenuScreen.Sort: JavaScript's default sort compares UTF-16 code units, while the model compares code points. They differ only for titles with characters outside the Basic Multilingual Plane.
- MenuScreen.Grouped: a title that names an inherited object member (such as `constructor`) is grouped like any other title. In the source, `acc[category]` would find the inherited member instead.
- **Interleavings while a request is awaited.** `CartScreen.CheckoutState.SendOrderToBackend`, `OrderDetailsScreen.TrackingState.FetchOrderData` and `PaymentScreen.PaymentState.HandleRequestBill` each run as one atomic step. In the app, other handlers can run while the request is awaited, and the model does not capture that. Two consequences are not represented:
  - `clearCart()` runs when the order post resolves, so lines the diner adds from the menu after the payload was built are wiped without being ordered.
  - If the session tick resets the session during the order post and the post then succeeds, the table is set while the PIN is null.
- CartScreen.CheckoutState.HandleCheckout: requires that no request is loading, since the checkout button is only rendered then. A second submission started some other way is not modelled.
