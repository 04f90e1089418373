# Los Nonos delivery storefront: order workflow, menu search and checkout protocol

This project models three pieces of sequential logic from the restaurant's ordering web app, and proves properties about them:

- **Admin order view** (`admin.dfy`, module `Admin`). It covers the label and colour lookups for an order status, each with its fallback. It covers the buttons an order card offers: a one-step advance along pending → confirmed → preparing → delivering → completed, and a cancel button for every status that is not finished. It also covers `filterOrders`, the four tabs and the dashboard counters.
- **Menu search** (`menu.dfy`, module `Menu`). A product is kept when the lower-cased query occurs in its lower-cased name or in its non-null lower-cased description. The kept products are then split by `category_id`.
- **Checkout submission** (`checkout.dfy`, module `Checkout`). `handleSubmit` is a method of a `CheckoutPage` class. It updates a `loading` flag, appends every effect listed here to an event trace (toasts, loading changes, backend inserts, opening the merchant message, `clearCart`, navigation) and clears a `Cart` object. Its contract equates the new trace with a specification function, `SubmitTrace`, and the lemmas about `SubmitTrace` state the ordering and failure guarantees.

Shared helpers: `seqs.dfy` (`Array.prototype.filter` and the independent notion of an order-preserving subsequence), `text.dfy` (ASCII lower-casing, `String.prototype.includes` with a position-based reference definition, `join`, integer rendering) and `wrappers.dfy` (`Option`).

The backend is abstracted as its answers. A `Replies` value holds the customer id returned by the first insert (or a failure), the order id returned by the second (or a failure), and whether the item insert succeeded. It also says whether `encodeURIComponent` accepts the merchant message: JavaScript throws a URIError there when the message holds a lone UTF-16 surrogate anywhere, in a form field or a product name, after all three rows were written. The method and the lemmas hold for every such value. The locale formatting of amounts (`toLocaleString('es-AR')`) is a parameter `fmt: int -> string`.

## Model

| member | source | states |
|---|---|---|
| Seqs.Filter | src/pages/Admin.tsx:131 | the result of a filter is no longer than its input, and every kept element satisfies the predicate |
| Seqs.FilterIsSubsequence | src/pages/Menu.tsx:51-54 | a filter result is an order-preserving subsequence of its input |
| Seqs.FilterMultiplicity | src/pages/Menu.tsx:51-54 | a filter keeps every occurrence of each element satisfying the predicate and none of the others |
| Seqs.FilterExclusiveBound | src/pages/Admin.tsx:136-138 | three filters by mutually exclusive predicates together select at most the whole list |
| Text.Includes | src/pages/Menu.tsx:52-53 | a haystack that starts with the needle includes it, and a needle longer than the haystack is never included |
| Text.ToLower | src/pages/Menu.tsx:52-53 | lower-casing keeps the length and lower-cases each character in place (ASCII letters only) |
| Text.ToLowerIdempotent | src/pages/Menu.tsx:52-53 | lower-casing twice gives the same string as lower-casing once |
| Text.ToLowerHasNoUpper | src/pages/Menu.tsx:52-53 | a lower-cased string contains no upper-case ASCII letter |
| Text.IncludesIffSubstring | src/pages/Menu.tsx:52-53 | `includes` holds exactly when the needle occurs at some position of the haystack |
| Text.IncludesEmpty | src/pages/Menu.tsx:52-53 | every string includes the empty string |
| Text.Join | src/pages/Checkout.tsx:85 | the joined text starts with the first line, followed by the separator when there are more lines |
| Text.IntToStringRoundTrip | src/pages/Checkout.tsx:85 | the rendering of an integer is non-empty, starts with a minus sign exactly for negative numbers, and its digits read back to the absolute value |
| Text.NatToString | src/pages/Checkout.tsx:85 | the rendering of a quantity is a non-empty run of decimal digits |
| Text.NatToStringRoundTrip | src/pages/Checkout.tsx:85 | reading the rendered digits back gives the original number |
| Admin.StatusColor | src/pages/Admin.tsx:105-115 | the colour is never empty, and it is the grey fallback exactly for a status outside the six known ones |
| Admin.StatusLabel | src/pages/Admin.tsx:117-127 | a known status is shown as one of the record's labels, which differs from the raw status; any other status is shown as it is |
| Admin.NextStatus | src/pages/Admin.tsx:328-347 | an advance button exists exactly for pending, confirmed, preparing and delivering; it sets a different known status, never cancelled |
| Admin.CanCancel | src/pages/Admin.tsx:348 | a status without the cancel button has no advance button either, and every unrecognised status can be cancelled |
| Admin.Actions | src/pages/Admin.tsx:327-357 | a card shows at most two buttons, each setting a known status other than the current one |
| Admin.StatusColorCases | src/pages/Admin.tsx:105-115 | the six known statuses get their fixed colours, pairwise distinct and never grey; every other status gets "bg-gray-500" |
| Admin.StatusLabelCases | src/pages/Admin.tsx:117-127 | the six known statuses get their fixed, pairwise distinct labels; every other status is shown unchanged |
| Admin.NextStatusPairs | src/pages/Admin.tsx:328-347 | the advance button exists for exactly the four pairs pending→confirmed, confirmed→preparing, preparing→delivering, delivering→completed |
| Admin.NoAdvanceOutsideWorkflow | src/pages/Admin.tsx:328-347 | completed, cancelled and every unrecognised status have no advance button |
| Admin.CancelIffNotFinished | src/pages/Admin.tsx:348-356 | cancel is offered exactly when the status is neither cancelled nor completed; an unrecognised status offers only cancel |
| Admin.TerminalIffNoActions | src/pages/Admin.tsx:328-356 | a status offers no button exactly when it is completed or cancelled; otherwise the last button is cancel |
| Admin.TerminalStatusesStay | src/pages/Admin.tsx:328-356 | no button leaves completed or cancelled, every other status can be cancelled in one press, and every button is either cancel or the advance |
| Admin.NextStatusIncreasesRank | src/pages/Admin.tsx:328-347 | each advance moves exactly one place forward along the workflow, so no status is revisited |
| Admin.AdvanceNRank | src/pages/Admin.tsx:328-347 | a chain of n advances ends n places further along the workflow and never goes past completed |
| Admin.PendingReachesCompletedInFour | src/pages/Admin.tsx:328-347 | advancing from pending reaches completed after exactly four presses and not earlier; no status allows five advances |
| Admin.FilterOrders | src/pages/Admin.tsx:129-132 | the result is never longer than the list, and with a non-empty status every order in it has that status |
| Admin.ComputeStats | src/pages/Admin.tsx:134-139 | the pending, in-progress and completed counters each stay within the total |
| Admin.TabOrders | src/pages/Admin.tsx:217-263 | a tab never lists more orders than there are, and the pending, active and completed tabs never list a cancelled order or an unrecognised status |
| Admin.FilterOrdersWithoutStatus | src/pages/Admin.tsx:129-130 | with no status, or the empty one, `filterOrders` returns the list unchanged |
| Admin.FilterOrdersByStatus | src/pages/Admin.tsx:129-132 | with a status, `filterOrders` returns the order-preserving subsequence of exactly the orders with that status |
| Admin.StatsPartition | src/pages/Admin.tsx:134-139 | `total` is the number of orders, and pending + inProgress + completed never exceeds it |
| Admin.TabsMatchCounters | src/pages/Admin.tsx:217-263 | the "all", "pending", "active" and "completed" tabs list exactly as many orders as the total, pending, in-progress and completed counters |
| Admin.ActiveTabContents | src/pages/Admin.tsx:242 | the "active" tab lists, in order, exactly the orders whose status is confirmed, preparing or delivering |
| Menu.Matches | src/pages/Menu.tsx:52-53 | the empty query matches every product, and a query longer than both the name and the description never matches |
| Menu.FilteredProducts | src/pages/Menu.tsx:51-54 | the filtered list is never longer than the product list, and every product in it matches the query |
| Menu.ProductsByCategory | src/pages/Menu.tsx:56-58 | a category list is never longer than the filtered list, and every product in it has that category |
| Menu.FilteredProductsSpec | src/pages/Menu.tsx:51-54 | the filtered products are the order-preserving subsequence of the products that match, with every matching product kept as often as it occurs |
| Menu.EmptyQueryMatchesAll | src/pages/Menu.tsx:51-54 | an empty search keeps every product |
| Menu.MatchesIffSubstring | src/pages/Menu.tsx:52-53 | a product matches exactly when the lower-cased query occurs in its lower-cased name or non-null description; with a null description only the name counts |
| Menu.QueryCaseInsensitive | src/pages/Menu.tsx:52-53 | queries with the same lower-cased form match the same products |
| Menu.ProductCaseInsensitive | src/pages/Menu.tsx:52-53 | lower-casing a product's name or description does not change whether it matches |
| Menu.CategoryListSpec | src/pages/Menu.tsx:56-58 | a category list is a subsequence of the filtered products and holds exactly the matching products of that category |
| Menu.CategoryListsDisjoint | src/pages/Menu.tsx:56-58 | the lists of two different categories share no product |
| Menu.CategoryListsCover | src/pages/Menu.tsx:56-58 | every filtered product appears in the list of its own category |
| Checkout.CartTotal | src/pages/Checkout.tsx:14 | with non-negative prices and quantities the cart total is non-negative |
| Checkout.Cart.Clear | src/pages/Checkout.tsx:93 | after `clearCart` the cart has no lines and its total is 0 |
| Checkout.OrderItems | src/pages/Checkout.tsx:65-71 | one item row per cart line, in cart order, each copying id to product_id, name to product_name, quantity and price, and carrying the order id |
| Checkout.OrderItemsAddUpToTotal | src/pages/Checkout.tsx:55-71 | the item rows' price times quantity add up to the cart total recorded on the order row |
| Checkout.ItemLineShape | src/pages/Checkout.tsx:85 | each bullet starts with "• " followed by the rendered quantity, whose digits read back to it when it is not negative, and ends with " - $" and the formatted line total |
| Text.JoinOrder | src/pages/Checkout.tsx:85 | joined elements appear in list order, each earlier element ending before a later one begins |
| Text.JoinContains | src/pages/Checkout.tsx:85 | each bullet line occurs in the joined item section |
| Checkout.MessageOrder | src/pages/Checkout.tsx:80-87 | the bullets appear in the message in cart order: the bullet of an earlier cart line ends before the bullet of a later one begins |
| Checkout.MessageShape | src/pages/Checkout.tsx:80-87 | every cart line's bullet occurs in the message |
| Checkout.MessageEnds | src/pages/Checkout.tsx:80-87 | for every cart, an empty one included, the message opens with the customer header and ends with the notes section when notes were given, and with the total line otherwise |
| Checkout.SubmitTrace | src/pages/Checkout.tsx:24-101 | a submission always has an effect; with a complete form its first event sets loading and its last resets it, on every path through the `try`, including a message that cannot be encoded |
| Checkout.AttemptToasts | src/pages/Checkout.tsx:32-97 | the `try` and `catch` blocks show exactly one toast: success when all three writes succeeded and the message was encoded, the error toast otherwise, including when all three writes succeeded but the message could not be encoded |
| Checkout.SubmitToasts | src/pages/Checkout.tsx:24-101 | every submission shows exactly one toast, with the source's text: the missing-fields warning for an incomplete form, "¡Pedido realizado con éxito!" when all three writes succeeded and the message was encoded, "Error al procesar el pedido" otherwise |
| Checkout.IncompleteFormHasNoEffect | src/pages/Checkout.tsx:26-29 | with an empty name, phone or address, the handler sends no write, never sets loading and does not clear the cart |
| Checkout.NotesAreOptional | src/pages/Checkout.tsx:26 | the notes field plays no part in the validation guard |
| Checkout.ItemsStageWrites | src/pages/Checkout.tsx:73-77 | the item stage sends exactly the item insert |
| Checkout.OrderStageWrites | src/pages/Checkout.tsx:48-77 | the order stage sends the order insert, then the item insert only if an order id came back |
| Checkout.AttemptWrites | src/pages/Checkout.tsx:32-77 | the `try` block sends the customer insert, then the order insert only after a customer id, then the item insert only after an order id |
| Checkout.TraceWrites | src/pages/Checkout.tsx:31-100 | the loading changes around the `try` block send nothing |
| Checkout.WritesInOrder | src/pages/Checkout.tsx:34-77 | a valid submission writes the customer from the form, then a "pending" order with the cart total referencing the customer id, then one item row per cart line referencing the order id, stopping at the first failure |
| Checkout.ClearOnlyAfterAllWrites | src/pages/Checkout.tsx:45-97 | the cart is cleared and the merchant message opened exactly when the form is complete, all three writes succeed and the message is encoded, and the clearing comes after all three writes |
| Checkout.SuccessfulTrace | src/pages/Checkout.tsx:31-100 | a submission whose three writes succeed and whose message is encoded sets loading, sends the three writes, opens the message, shows the success toast, clears the cart, navigates home and resets loading, in that order |
| Checkout.NotClearedUnlessSucceeded | src/pages/Checkout.tsx:95-97 | a submission with a failed write or an unencodable message neither clears the cart nor opens the message |
| Checkout.UnencodableMessageFails | src/pages/Checkout.tsx:80-97 | when all three writes succeed but `encodeURIComponent` throws, the trace is the three writes followed by the error toast: the message is not opened, the cart not cleared and the page not left |
| Checkout.LoadingBracketsSubmission | src/pages/Checkout.tsx:31-100 | a valid submission sets loading first and resets it last, on success and on failure, and changes it nowhere else |
| Checkout.AttemptLeavesLoading | src/pages/Checkout.tsx:32-97 | the `try` and `catch` blocks never change the loading flag |
| Checkout.CheckoutPage.PlaceOrder | src/pages/Checkout.tsx:32-94 | the `try` block appends exactly the stage-by-stage trace and empties the cart exactly when all three writes succeed and the message is encoded, leaving it unchanged otherwise |
| Checkout.CheckoutPage.HandleSubmit | src/pages/Checkout.tsx:24-101 | the handler appends exactly `SubmitTrace` to the event trace, empties the cart exactly on full success (a complete form, three successful writes and an encoded message) and otherwise leaves it unchanged, and ends with loading false after a valid form and loading unchanged after an invalid one |

## Left out

- The cart manager (`src/contexts/CartContext`) is not part of this model. The checkout page sees it only through `Cart`, whose lines, `Total()` and `Clear()` stand in for the context's `items`, `total` and `clearCart`. The total is taken to be the sum of price × quantity over the lines. Adding, updating and removing lines are not modelled.
- Backend reads, inserts, status updates and the realtime subscription are network I/O. `loadOrders`, `updateOrderStatus`, the menu loader and the `Promise.all` loading are left out. The checkout inserts are modelled as trace events, and their outcomes come from the `Replies` parameter.
- A button press is modelled only as the status it may set (`Admin.Step`). Writing that status to the backend (`updateOrderStatus`) and the realtime reload that would show it are left out, so the model never updates the list of orders.
- Text.ToLower: lower-cases ASCII letters only. JavaScript's `toLowerCase` also maps non-ASCII letters (for example "Ñ" and accented vowels), so the model calls some queries non-matching where the source would match them.
- Admin.StatusColorCases: treats the colour record as a map over the six status names. In JavaScript a key inherited from `Object.prototype`, such as "toString", would return a function instead of "bg-gray-500". The model does not cover that.
- Admin.StatusLabelCases: treats the label record as a map over the six status names. A key inherited from `Object.prototype` would return a function instead of the status itself. The model does not cover that.
- Checkout.MessageShape: the amounts are given by the abstract `fmt` parameter, in place of `toLocaleString('es-AR')`. The URL of the merchant's fixed WhatsApp number, the URL-encoded text that `encodeURIComponent` produces and `window.open` become one `OpenWhatsApp` event that carries the raw message text. Whether the encoding throws is the `messageEncodes` outcome of `Replies`, because a Dafny string cannot hold a lone surrogate.
- Prices and totals are JavaScript floating-point numbers; the model uses integers.
- Console logging, JSX rendering, the loading skeleton, the date formatting of orders and the admin password gate (`localStorage`) are left out.
- On the checkout page, a customer insert that reports no error but returns no row would make `customer.id` throw, and control would reach the `catch`. The model treats it as a failed customer insert (`customerId == None`).
- On the checkout page, an order insert that reports no error but returns no row is also treated as a failure (`orderId == None`). With a non-empty cart the source agrees, because `order.id` throws inside `items.map`. With an empty cart the `map` callback never runs, so the source would go on to insert an empty list of items, and the model does not follow it there.
- Checkout.CheckoutPage.HandleSubmit: runs the whole asynchronous handler as one atomic step. The source awaits three times, and the submit button is disabled only once `loading` is re-rendered, so two overlapping submissions could interleave. The model does not capture that interleaving.
