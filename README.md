# JP Motors ordering portal — ordering rules in Dafny

The portal is a business-to-business shop for a three-wheeler spare-parts wholesaler.
Retailers log in, search the catalog and see prices with their discount applied. They
build a draft order (the cart), see an invoice with packing and GST, and submit the order.
Admin staff see every order and move it from Pending to Packed to Delivered.

This project models the ordering rules of the single React component `App`:

- `Domain`: the records held in component state: users, products, cart lines, orders, the
  status and the screen selector.
- `Pricing`: the unit price a user pays (`calculatePrice`) and the cart screen's invoice
  breakdown (subtotal, 2% packing, taxable value, 18% GST, grand total).
- `CartOps`: the new cart that `addToCart`, `updateQuantity` and `removeFromCart` compute.
- `Session`: credential matching and the first screen after login.
- `OrderFlow`: the order sent by `placeOrder`, order-history visibility, the dashboard
  counters and the status buttons.
- `Catalog`: the case-insensitive search over name and part number.
- `Portal.App`: a class whose fields are the component's state (`user`, `view`,
  `loginError`, `products`, `users`, `orders`, `cart`). Its methods are the event handlers.
  Each method states the new state in terms of the old one and names every field it may
  change.
- `Seqs`: `map`, `filter` and the subsequence relation, with their laws.

The database is outside the model. A handler that writes takes two extra parameters: the
write's outcome (`dbSuccess`) and the order list read back afterwards (`refreshed`). The
initial load becomes the constructor's parameters.

All amounts are exact integers. The unit price is `floor(base × (100 − discount) / 100)`,
using Dafny's `/`, which equals floor for a positive divisor. A ceiling of a percentage is
`(x × pct + 99) / 100`, which is exact for every integer `x`.

The model follows the code on these points:
- The code has no brand filter and no brand list. The search matches only name or part
  number.
- The code does not restore a previous session at start-up. The initial state has nobody
  logged in.
- Discounts are integers, since the admin form reads them with `parseInt`.
- "Quantity is always at least one" is not enforced by `addToCart`. It holds only because
  the catalog always adds one unit. The model proves it in that conditional form.

## Model

| member | source | states |
|---|---|---|
| Pricing.UnitPrice | src/App.jsx:81-85 | with no user, or an admin, the price is the base price; for anyone else it is the largest integer not above base × (100 − discount) / 100 |
| Pricing.RetailPriceBounds | src/App.jsx:81-85 | a retailer with a discount between 0 and 100 pays between 0 and the base price |
| Pricing.CeilPercent | src/App.jsx:273-275 | the result is the smallest integer at least x × pct / 100 |
| Pricing.InvoiceFor | src/App.jsx:272-276 | packing is the ceiling of 2% of the subtotal; taxable = subtotal + packing; GST is the ceiling of 18% of taxable; grand total = taxable + GST |
| Pricing.CartInvoice | src/App.jsx:272-276 | the invoice of the cart is InvoiceFor of its subtotal, so packing and GST follow its rounding rules; the grand total is subtotal + packing + GST; for non-negative lines 0 <= subtotal <= taxable <= grand total |
| Pricing.SubtotalAppend | src/App.jsx:272 | the subtotal of two carts put together is the sum of their subtotals |
| Pricing.Subtotal | src/App.jsx:272 | the `reduce`: unit price times quantity summed over the lines, left to right; with non-negative unit prices and quantities it is not negative |
| Pricing.InvoiceOrdered | src/App.jsx:272-276 | for a non-negative subtotal, 0 <= subtotal <= taxable <= grand total |
| Pricing.EmptyCartInvoice | src/App.jsx:272-276 | an empty cart gives an invoice of all zeros |
| Pricing.InvoiceOfThousand | src/App.jsx:272-276 | subtotal 1000 gives packing 20, taxable 1020, GST 184, grand total 1204 |
| CartOps.HasLine | src/App.jsx:89 | the truth test on `cart.find`: holds exactly when some line of the cart is for the product id |
| CartOps.IncreaseQty | src/App.jsx:91 | same length; every line keeps its product and price; only lines for the id gain the extra quantity |
| CartOps.AddLine | src/App.jsx:87-95 | for a product already in the cart, only that line's quantity grows, its locked price and the length stay; otherwise exactly one line with the new price is appended at the end; unique ids and positive quantities (for a positive qty) are kept |
| CartOps.SetQty | src/App.jsx:97-100 | a quantity below 1 leaves the cart unchanged; otherwise only lines for the id get the new quantity, with length, order, products and prices kept; unique ids and positive quantities are kept |
| CartOps.RemoveLine | src/App.jsx:102-104 | no line for the id remains; every other line remains, in its original relative order; removing an absent id changes nothing; unique ids and positive quantities are kept |
| CartOps.RemoveLineAppend | src/App.jsx:102-104 | removing from two carts put together gives the removal from each, concatenated; with RemoveLine's contract this fixes the result, duplicate lines included |
| CartOps.PriceLockedAtFirstAdd | src/App.jsx:87-95 | adding a product twice gives one line with the summed quantity and the price computed the first time, whatever price is computed the second time |
| CartOps.RemoveIdempotent | src/App.jsx:102-104 | removing the same id twice is the same as removing it once |
| Session.FindUser | src/App.jsx:64 | finds a user exactly when some user's username and password both match; the user found is the first such user in the list |
| Session.HomeView | src/App.jsx:69 | the admin console exactly for role "admin", the catalog for every other role |
| OrderFlow.LineItems | src/App.jsx:115-119 | one item per cart line, same length and order, item i = (cart[i].id, cart[i].qty, cart[i].finalPrice) |
| OrderFlow.BuildOrder | src/App.jsx:114-119 | the order row carries the user's id and the grand total passed in; its items are the cart lines, one for one, in order |
| OrderFlow.LineItemsKeepSubtotal | src/App.jsx:115-119 | the items sent have the same subtotal as the cart they came from |
| OrderFlow.OrderTotalIsInvoiceOfItems | src/App.jsx:112-119 | an order sent with the cart's grand total records the grand total of the invoice of its own items |
| OrderFlow.VisibleOrders | src/App.jsx:327 | an admin sees every order; anyone else sees exactly the orders with their own user id; the result is a subsequence of the order list, in its order |
| OrderFlow.VisibleOrdersAppend | src/App.jsx:327 | for a non-admin, appending an order adds it to the history exactly when it is their own, at the end |
| OrderFlow.WithStatus | src/App.jsx:470-474 | the dashboard filter: every order kept has the status asked for, and every order with that status is kept |
| OrderFlow.CountWithStatus | src/App.jsx:470-474 | a dashboard counter is at most the number of orders |
| OrderFlow.StatusCountsPartition | src/App.jsx:470-479 | the Pending, Packed and Delivered counts add up to the number of orders |
| OrderFlow.CountAfterAppend | src/App.jsx:470-474 | one more order raises exactly the counter of its own status, by one |
| OrderFlow.NextStatus | src/App.jsx:518-534 | Pending offers only Packed, Packed offers only Delivered, Delivered offers nothing; every offered status is exactly one step forward |
| OrderFlow.Advance | src/App.jsx:518-534 | following the offered button moves at most one step forward, and stays put exactly at Delivered |
| OrderFlow.StatusIsForwardOnly | src/App.jsx:518-534 | Pending goes to Packed and Packed to Delivered; every status is Delivered after two steps; no transition goes backwards |
| Catalog.LowerChar | src/App.jsx:211-212 | the result is never an upper-case ASCII letter; upper-case letters map to their lower-case letter, and every other character is unchanged |
| Catalog.Lower | src/App.jsx:211-212 | same length; each character is lower-cased in place |
| Catalog.LowerIdempotent | src/App.jsx:211-212 | lower-casing twice equals lower-casing once |
| Catalog.Contains | src/App.jsx:211-212 | `includes`: an empty term is always included, and a term longer than the text never is |
| Catalog.ContainsIff | src/App.jsx:211-212 | `includes` holds exactly when the term occurs at some position of the text |
| Catalog.LowerKeepsOccurrence | src/App.jsx:211-212 | an occurrence of the term in the text is still one after both are lower-cased |
| Catalog.MatchesTerm | src/App.jsx:211-212 | the filter predicate: the lower-cased name or the lower-cased part number includes the lower-cased term; an empty term matches every product |
| Catalog.Search | src/App.jsx:210-213 | the result holds exactly the products whose lower-cased name or part number contains the lower-cased term, in catalog order |
| Catalog.SearchAppend | src/App.jsx:210-213 | searching two product lists put together gives the search of each, concatenated; with Search's contract this fixes the result, duplicates included |
| Catalog.ExactTextIsFound | src/App.jsx:210-213 | a term that occurs as written in the name or the part number always finds the product |
| Catalog.SearchIgnoresTermCase | src/App.jsx:210-213 | searching for the lower-cased term gives the same list as the term as typed |
| Catalog.EmptyTermListsAll | src/App.jsx:210-213 | an empty search term lists the whole catalog |
| Portal.App.constructor | src/App.jsx:31-40 | nobody is logged in, the login screen shows, the cart is empty, there is no error, and the lists are the loaded ones |
| Portal.App.HandleLogin | src/App.jsx:59-73 | on a match, the first matching user is logged in, the error is cleared and the view is admin exactly for role "admin", else catalog; with no match, user and view are unchanged and the error is set; nothing else changes |
| Portal.App.HandleLogout | src/App.jsx:75-79 | the user is cleared, the cart is emptied and the view is login |
| Portal.App.Navigate | src/App.jsx:186-198 | the header buttons switch the view to catalog, orders or cart |
| Portal.App.AddToCart | src/App.jsx:87-95 | the new cart is AddLine of the old one, priced by UnitPrice for the current user; unique ids are kept; positive quantities are kept for a positive qty |
| Portal.App.UpdateQuantity | src/App.jsx:97-100 | a quantity below 1 changes nothing; otherwise the new cart is SetQty of the old one |
| Portal.App.RemoveFromCart | src/App.jsx:102-104 | the new cart is RemoveLine of the old one and holds no line for the id |
| Portal.App.PlaceOrder | src/App.jsx:112-136 | sends BuildOrder of the cart; on success the cart is empty, the orders are the refreshed list and the view is orders; on failure cart, orders and view are unchanged |
| Portal.App.ConfirmPurchase | src/App.jsx:272-315 | places the order for the cart's invoice grand total, which equals the invoice grand total of the items sent |
| Portal.App.UpdateOrderStatus | src/App.jsx:138-149 | on success the orders are the refreshed list, on failure they are unchanged |
| Portal.App.AdvanceOrder | src/App.jsx:518-534 | a pending or packed order's button asks for the next status of that order, exactly one step forward; a delivered order has no button and nothing changes |

## Left out

- The database client file is not part of this model. Reads and writes are parameters:
  the outcome of a write and the list read back. The order row and its items are written
  in two steps, and that non-atomic write is left out with the client.
- The initial data load in `useEffect` (src/App.jsx:43-55) becomes the constructor's
  parameters.
- Floating-point arithmetic: the code computes `(100 − discount) / 100`, `subtotal × 0.02`
  and `taxable × 0.18` in binary floating point. The model uses exact rationals with
  integer floor and ceiling. For some inputs the floating-point result differs by one; for
  example, 100 × (29/100) is just below 29.
- Pricing.UnitPrice: discounts are assumed to be integers; a non-numeric entry
  (`parseInt` giving NaN) is not modelled.
- Catalog.LowerChar: folds only the ASCII letters A–Z. `toLowerCase` also folds other
  Unicode letters.
- The status is one of Pending, Packed or Delivered. A stored status outside these three
  would show no button, and is not modelled.
- Portal.App.AdvanceOrder: it does not require the admin screen to be showing. The
  database's handling of the write is left out, so the model says nothing about the
  refreshed list.
- Portal.App.ConfirmPurchase: the cart screen shows the button only when the cart is not
  empty. The model allows it on an empty cart too, as `placeOrder` itself does.
- `addUser` (src/App.jsx:108-110) is unused and only changes local state, so it is left out.
- `handleCreateUser` (src/App.jsx:385-407) is a thin wrapper around the create-user write,
  so it is left out.
- Rendering is left out: the JSX, CSS classes, `alert`, `window.print`, `toLocaleString`,
  the retailer list on the admin screen (src/App.jsx:443), and the delivered-revenue figure
  in thousands (src/App.jsx:479).
- Handlers are atomic steps. The model has no interleaving of the `await`s in
  `placeOrder` and `updateOrderStatus` with other events.
