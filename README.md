# E-Commerce order fulfilment, modelled in Dafny

This project models the order-fulfilment core of the E-Commerce store, a Node/Express API over
MongoDB with a React storefront. On the server side it covers:

- the inventory ledger (`stock`, `reservedStock`, `sold` per product);
- the cart document and the cart handlers (add, remove, update quantity, get, clear);
- the order document with checkout and cancellation;
- payment creation and confirmation, the settlement step that moves reserved units to sold,
  ships the order, deletes the cart and logs a transaction;
- the wishlist set operations;
- the list-query builder (`ApiFeatures`: filter, sort, field projection, pagination);
- the product `discount` virtual.

On the client side it covers the cart page's totals and edits, the three-step checkout wizard
and the order-history filter.

The world is one `Fulfilment.Store` object holding the collections as maps and sequences of
document values. Each request handler is one method that runs as a single sequential step.
Where a handler opens a database transaction, its writes are staged in locals and reach the
fields only where the source commits: an abort changes nothing. Gateway answers, request bodies
and the outcome of the commit are parameters.

The model follows the code where it differs from what a reader would expect. Each of these
is stated in a contract or a lemma:

- An update to a negative quantity releases more units than the line held, and with the
  reservation clamped at 0 those units appear in stock (`Fulfilment.NegativeQuantityOverReleases`,
  `Inventory.OverReleaseCreatesUnits`).
- The gateway-failure branch of payment confirmation writes failed statuses and a Failed
  transaction inside the session but never commits, so nothing persists
  (`Fulfilment.Store.ConfirmPayment`).
- The shipment of a confirmed payment is created outside the session and survives a failed
  commit (`Fulfilment.Store.ConfirmPayment`, parameter `commitFails`).
- Cancellation lists the status as `proccessing`, so a processing order is refused as an
  invalid status (`OrderModel.ProcessingRejectedAsInvalid`).
- A user who has any order at all, whatever its status, cannot check out again
  (`Fulfilment.Store.CreateOrder`).
- The `priceAtPurchase` of each order line is dropped by the order schema
  (`OrderModel.PriceSnapshotDropped`).
- A user's first add to cart creates the cart under the key `products`. The schema's path is
  `items`, so strict mode drops the key: the new cart has no lines, while the units are
  reserved all the same (`Fulfilment.Store.AddItemToCart`).
- `addItemToCart` reads the product and quantity from `req.body.products`, while the cart
  service of the storefront (E-Commerce-Client/app/services/cart.ts:40-46) posts them at the
  top level of the body: such a request ends in a TypeError before any check
  (`Fulfilment.Store.AddItemToCart`, `products` None). A product id that is not an ObjectId
  ends in a cast error at the inventory lookup.
- Checkout refuses a missing address with a 400, but a partial or mistyped one only at
  `Order.create`, as a validation error (`OrderModel.CastAddress`, `OrderModel.CastAddressAccepts`).
- The gateway wrapper reports success whenever it retrieves the session, whatever the payment
  status says (`Gateway.SessionStatus.Success`).
- Confirmation moves the order to processing whatever its status was.
- Nothing stops a second payment for an order that is still pending.
- Clearing a cart does not release its reservations.
- The empty-cart error of checkout carries no HTTP status: the 404 is passed to `next`, not to
  `AppError`.
- `paginate` declares `page` and `limit` with `const`. Any `limit` query assigns to `limit`,
  and a page that is followed by another (`page++`) or that skips documents (`page--`) steps
  `page`; each throws a TypeError. So `getAll` (E-Commerce-API/controllers/handlerFactory.js:45-70)
  answers only for page 1 of a collection of at most 50 documents
  (`QueryFeatures.PagingSucceedsOnlyOnOnePage`, `QueryFeatures.ApiFeatures.Paginate`), and the
  pagination object never carries `next` or `previous`.

## Model

| member | source | states |
|---|---|---|
| Common.Reason.HttpStatus | E-Commerce-API/controllers/cartController.js:16-28 | every status a handler attaches to an AppError is 400, 403, 404 or 500; TypeErrors, cast and validation errors carry none |
| Inventory.Create | E-Commerce-API/models/InventoryModel.js:10-24 | reservedStock and sold default to 0 and the restock history starts empty; the record passes the min-0 validators exactly when stock >= 0 |
| Inventory.Reserve | E-Commerce-API/controllers/cartController.js:46-48 | a reservation moves q units from stock to reservedStock, conserving stock + reservedStock; on a valid record it saves exactly when q <= stock |
| Inventory.Release | E-Commerce-API/controllers/cartController.js:114-118 | a release adds q to stock, clamps the reservation at 0, and adds to the units on hand exactly the part of q above the reservation; validity is kept |
| Inventory.Settle | E-Commerce-API/controllers/paymentController.js:156-158 | settlement moves q units from reservedStock to sold, conserving their sum; on a valid record it saves exactly when q <= reservedStock |
| Inventory.ReleaseUndoesReserve | E-Commerce-API/controllers/cartController.js:46-48 | releasing what was just reserved restores the record |
| Inventory.OverReleaseCreatesUnits | E-Commerce-API/controllers/cartController.js:115-116 | a release above the reservation zeroes it and increases stock + reservedStock |
| Catalog.Discount | E-Commerce-API/models/productModel.js:85-90 | 0 without a truthy compare-at price above the amount; otherwise the saved percentage rounded half up; within 0..100 when the amount is not negative |
| CartModel.ItemCount | E-Commerce-API/models/cartModel.js:40-42 | the number of lines is 0 exactly for an empty cart and never exceeds the units the lines hold |
| CartModel.TotalQuantity | E-Commerce-API/models/cartModel.js:44-46 | the sum of the line quantities is at least the number of lines when every line has quantity >= 1 |
| CartModel.TotalPrice | E-Commerce-API/models/cartModel.js:48-58 | the sum of quantity times current price is not negative for valid lines and non-negative prices |
| CartModel.FindIndex | E-Commerce-API/models/cartModel.js:70-72 | the index of the first line holding the product, or None exactly when no line holds it |
| CartModel.WithProduct | E-Commerce-API/models/cartModel.js:70-78 | an existing line grows and the line count stays; otherwise one line (p, q) is appended at the end; other lines, product uniqueness and line validity are kept |
| CartModel.WithoutProduct | E-Commerce-API/controllers/cartController.js:104-106 | the lines are exactly the old lines of other products, kept in their order (a subsequence); uniqueness and validity are kept |
| CartModel.SetQuantity | E-Commerce-API/controllers/cartController.js:186-206 | only the product's line changes, length and products stay, uniqueness and validity are kept |
| CartModel.AddedQuantities | E-Commerce-API/models/cartModel.js:70-78 | adding q units of p adds q to p's quantity and to the total quantity, and leaves every other product's quantity unchanged |
| CartModel.RemovedQuantities | E-Commerce-API/controllers/cartController.js:104-106 | dropping p's lines leaves p with 0 units and the total less exactly p's quantity; other products are unchanged |
| CartModel.SetQuantities | E-Commerce-API/controllers/cartController.js:200-206 | setting p's line to q makes p's quantity q and changes the total by the difference; other products are unchanged |
| CartModel.AddProduct | E-Commerce-API/models/cartModel.js:60-87 | a malformed id or a quantity below 1 fails with no change; otherwise the lines are WithProduct and the stored total is recomputed from current prices |
| OrderModel.ParseStatus | E-Commerce-API/models/orderModel.js:33-36 | a status string is accepted exactly when it names one of the six statuses |
| OrderModel.ParseMethod | E-Commerce-API/models/orderModel.js:37-41 | a payment method is accepted exactly when it is one of the four |
| OrderModel.CastAddress | E-Commerce-API/models/orderModel.js:42-64 | a stored address is exactly the one the body carries, and a body with an empty country, state or street is refused |
| OrderModel.CastAddressAccepts | E-Commerce-API/models/orderModel.js:42-64 | the address validators accept a body exactly when it carries all five fields, non-empty strings and numbers, and then store exactly that address |
| OrderModel.SnapshotLines | E-Commerce-API/controllers/orderController.js:89-93 | one item per cart line, in order, carrying product, quantity and the current price |
| OrderModel.CastItems | E-Commerce-API/models/orderModel.js:10-24 | the stored items keep product and quantity of each input, in order, and nothing else |
| OrderModel.SnapshotKeepsQuantities | E-Commerce-API/controllers/orderController.js:89-101 | the order holds, product by product, exactly the cart's quantities, and valid cart lines give valid order items |
| OrderModel.PriceSnapshotDropped | E-Commerce-API/models/orderModel.js:10-24 | the stored items do not depend on the prices at purchase |
| OrderModel.CancelGate | E-Commerce-API/controllers/orderController.js:43-53 | only pending becomes cancelled; shipped and cancelled fail as already shipped; processing, failed and delivered fail as invalid status |
| OrderModel.ProcessingRejectedAsInvalid | E-Commerce-API/controllers/orderController.js:43-46 | the list's spelling names no status, so processing is refused as invalid |
| PaymentModel.ParseStatus | E-Commerce-API/models/paymentModel.js:23-28 | accepted exactly for completed, pending and failed; absent means pending |
| TransactionModel.ParseStatus | E-Commerce-API/models/transactionModel.js:19-23 | accepted exactly for Success, Failed and Pending; absent means Pending |
| ShippingModel.ParseStatus | E-Commerce-API/models/shippingModel.js:14-17 | accepted exactly for pending, out of delivery and delivered; absent stays absent |
| Fulfilment.AdjustReservation | E-Commerce-API/controllers/cartController.js:210-224 | a positive change succeeds exactly when it fits the stock; the reservation moves by the change or is clamped at 0; validity is kept, and stock + reservedStock is conserved when the release is covered |
| Fulfilment.UpdatedLines | E-Commerce-API/controllers/cartController.js:200-206 | the saved lines keep product uniqueness, line validity and catalog prices |
| Fulfilment.SettleAll | E-Commerce-API/controllers/paymentController.js:148-159 | on success every product's reservation drops and its sold count rises by exactly the quantity ordered, stock untouched, validity kept |
| Fulfilment.SettleAllSucceedsIff | E-Commerce-API/controllers/paymentController.js:148-159 | settlement succeeds exactly when every line has an inventory record and each product's reservation covers its ordered quantity |
| Fulfilment.AddReservesWhatTheCartGains | E-Commerce-API/controllers/cartController.js:43-48 | an add reserves exactly the units the cart gains and conserves stock + reservedStock |
| Fulfilment.RemoveReleasesWhatTheCartHeld | E-Commerce-API/controllers/cartController.js:96-118 | a removal returns to stock exactly what the cart held of the product and takes it off the reservation |
| Fulfilment.NegativeQuantityOverReleases | E-Commerce-API/controllers/cartController.js:194-223 | an update to a negative quantity releases more than the line held, and units appear in stock |
| Fulfilment.ConfirmRejection | E-Commerce-API/controllers/paymentController.js:77-117 | the prechecks pass only with a session id matching the requester's existing payment, not completed, whose order exists; a completed payment is always refused |
| Fulfilment.FailedPaymentIsRetried | E-Commerce-API/controllers/paymentController.js:106-108 | a failed payment passes the prechecks again |
| Fulfilment.Store.AddItemToCart | E-Commerce-API/controllers/cartController.js:11-68 | a missing `products` body, an invalid product or quantity, a malformed id, an unknown product and short stock each fail, changing nothing; when all checks pass it succeeds, reserving q units and storing the cart with the product added, or a new cart with no lines |
| Fulfilment.Store.ReserveLine | E-Commerce-API/controllers/cartController.js:30-67 | for a product with a record and a quantity within its stock the transaction always commits: the units are reserved and the cart holds the product added (a new cart has no lines); nothing else changes |
| Fulfilment.Store.RemoveItemFromCart | E-Commerce-API/controllers/cartController.js:74-141 | id, cart and line errors change nothing; when the id is valid and the cart holds the product it succeeds, dropping the line and releasing its quantity when an inventory record exists |
| Fulfilment.Store.DropLine | E-Commerce-API/controllers/cartController.js:99-139 | the cart is saved without the line; the held units go back through a clamped release when the product has an inventory record; nothing else changes |
| Fulfilment.Store.GetCart | E-Commerce-API/controllers/cartController.js:147-163 | the user's cart, or 404 exactly when there is none |
| Fulfilment.Store.UpdateCartItemQuantity | E-Commerce-API/controllers/cartController.js:169-246 | errors change nothing; once the line is found it fails exactly when a change that touches an inventory record cannot be reserved or released; success stores UpdatedLines and adjusts the reservation by the change |
| Fulfilment.Store.SaveQuantity | E-Commerce-API/controllers/cartController.js:196-244 | the transaction fails exactly when a positive change exceeds the stock, and then writes nothing; otherwise the cart holds UpdatedLines and the record is adjusted by the change |
| Fulfilment.Store.ClearCart | E-Commerce-API/controllers/cartController.js:252-259 | the user's cart is deleted and nothing else changes, reservations included |
| Fulfilment.Store.CreateOrder | E-Commerce-API/controllers/orderController.js:69-109 | any existing order, an empty cart, a missing address, then an unknown method or an address the schema refuses fail in that order; when all pass it stores a pending order snapshotting the cart and the validated address, with cart and inventory untouched |
| Fulfilment.Store.CancelOrder | E-Commerce-API/controllers/orderController.js:25-64 | 404, 403, then CancelGate; only the order's status changes, and no inventory is released |
| Fulfilment.Store.CreatePayment | E-Commerce-API/controllers/paymentController.js:18-66 | id, order, owner, status, gateway and duplicate-session errors create nothing; when all pass it adds one pending stripe payment keyed by the session id |
| Fulfilment.Store.SettleOrder | E-Commerce-API/controllers/paymentController.js:148-159 | the settlement loop computes SettleAll on the inventory collection |
| Fulfilment.Store.ConfirmPayment | E-Commerce-API/controllers/paymentController.js:74-200 | rejections and gateway failure change nothing; a failed settlement aborts; a failed commit keeps only the shipment; success completes the payment, sets the order processing, settles, ships, deletes the cart and logs a Success transaction |
| Fulfilment.Store.SettleConfirmation | E-Commerce-API/controllers/paymentController.js:141-193 | a failed settlement aborts with nothing written; a failed commit keeps only the shipment; otherwise the payment is completed, the order processing, the ledger settled, the cart deleted, and the shipment and a Success transaction appended |
| Fulfilment.Store.GetPayment | E-Commerce-API/controllers/paymentController.js:206-223 | the payment exactly when it exists and is the requester's; a malformed id is a cast error |
| WishList.AddToSet | E-Commerce-API/controllers/wishListController.js:19-23 | the list gains the id unless present, keeps its prefix, and stays free of duplicates |
| WishList.Pull | E-Commerce-API/controllers/wishListController.js:47-51 | every occurrence of the id leaves, the rest stay; an absent id changes nothing |
| WishList.PullUndoesAddToSet | E-Commerce-API/controllers/wishListController.js:47-51 | pulling an id after adding it is pulling it from the original list |
| WishList.AddToSetIdempotent | E-Commerce-API/controllers/wishListController.js:19-23 | adding an id twice is adding it once |
| WishList.AddProductToWishList | E-Commerce-API/controllers/wishListController.js:11-32 | 400 exactly without an id and a cast error exactly for an id that is not an ObjectId; otherwise the user's list, created when missing, gains the id and no other list changes |
| WishList.RemoveProductFromWishList | E-Commerce-API/controllers/wishListController.js:38-60 | 400 exactly without an id and a cast error exactly for an id that is not an ObjectId; a user without a list gets a null document and no change; otherwise the id leaves only that user's list |
| WishList.GetWishList | E-Commerce-API/controllers/wishListController.js:67-82 | the user's list, or 404 exactly when there is none |
| WishList.AddTwiceSameAsOnce | E-Commerce-API/controllers/wishListController.js:19-23 | adding the same product twice gives the collection adding it once gives |
| WishList.RemoveAfterAdd | E-Commerce-API/controllers/wishListController.js:47-51 | removing a product just added is removing it from the original collection |
| QueryFeatures.Lookup | E-Commerce-API/utils/apiFeatures.js:25 | a property read is absent exactly when no field has the key, and otherwise gives a value the query string holds under it |
| QueryFeatures.WithoutKeys | E-Commerce-API/utils/apiFeatures.js:12-16 | the copy never grows |
| QueryFeatures.WithoutKeysMembers | E-Commerce-API/utils/apiFeatures.js:12-16 | a field survives exactly when its key is not excluded, so `limit` survives |
| QueryFeatures.WithoutOneMoreKey | E-Commerce-API/utils/apiFeatures.js:14-16 | deleting the keys one by one is deleting them all at once |
| QueryFeatures.OperatorWords | E-Commerce-API/utils/apiFeatures.js:19 | the operator test accepts exactly gte, gt, lte and lt |
| QueryFeatures.ReplaceOpsOnWord | E-Commerce-API/utils/apiFeatures.js:19 | a whole word gets `$` exactly when it is gte, gt, lte or lt |
| QueryFeatures.ReplaceOps | E-Commerce-API/utils/apiFeatures.js:19 | the rewritten text is never shorter; its meaning is stated by ReplaceOpsOnWord, ReplaceOpsSplit and SerialisedRewrite |
| QueryFeatures.RewriteSplit | E-Commerce-API/utils/apiFeatures.js:19 | from any scanning state, a non-word character ends the scan of what precedes it and restarts the scan behind it at a word boundary |
| QueryFeatures.ReplaceOpsSplit | E-Commerce-API/utils/apiFeatures.js:19 | no match straddles a non-word character, so the rewrite acts on each side separately |
| QueryFeatures.SerialisedRewrite | E-Commerce-API/utils/apiFeatures.js:18-20 | rewriting the conditions serialised by `Serialise` (the `JSON.stringify` of line 18) is serialising the conditions rewritten key by key and value by value |
| QueryFeatures.JoinSplit | E-Commerce-API/utils/apiFeatures.js:27 | `Join` (`join`) of the pieces with the separator gives the string back |
| QueryFeatures.SplitJoin | E-Commerce-API/utils/apiFeatures.js:27 | splitting a join whose pieces lack the separator gives the pieces back |
| QueryFeatures.Split | E-Commerce-API/utils/apiFeatures.js:27 | `split` gives at least one piece, and no piece holds the separator |
| QueryFeatures.SpaceList | E-Commerce-API/utils/apiFeatures.js:27 | no comma survives, and without spaces in the value the commas come back |
| QueryFeatures.NumberValue | E-Commerce-API/utils/apiFeatures.js:48 | a digit string is its decimal value |
| QueryFeatures.DecimalValue | E-Commerce-API/utils/apiFeatures.js:48 | the decimal numeral of n reads back as n |
| QueryFeatures.PageNumber | E-Commerce-API/utils/apiFeatures.js:48 | never 0; 1 when absent; the numeral of n >= 1 gives n |
| QueryFeatures.NumberOfPages | E-Commerce-API/utils/apiFeatures.js:63 | the fewest pages of 50 that hold the count |
| QueryFeatures.PagingSucceedsOnlyOnOnePage | E-Commerce-API/utils/apiFeatures.js:57-71 | for any page PageNumber gives, neither `page++` nor `page--` is reached exactly when the page is 1 and the documents fit on one page |
| QueryFeatures.CommaListOr | E-Commerce-API/utils/apiFeatures.js:24-43 | the fallback (`-createdAt` for sort, `-__v` for fields) for a falsy value (`Truthy`: present, and an object or a non-empty string), a comma-free space list for a string, a throw for an object |
| QueryFeatures.ApiFeatures.constructor | E-Commerce-API/utils/apiFeatures.js:5-9 | the builder holds the query and the query string, with no pagination yet |
| QueryFeatures.ApiFeatures.Filter | E-Commerce-API/utils/apiFeatures.js:11-22 | the delete loop leaves exactly WithoutKeys of the excluded keys, and the rewritten copy joins the query conditions |
| QueryFeatures.ApiFeatures.Sort | E-Commerce-API/utils/apiFeatures.js:24-34 | the query's sort becomes CommaListOr with `-createdAt`, or the query is untouched when it throws |
| QueryFeatures.ApiFeatures.LimitFields | E-Commerce-API/utils/apiFeatures.js:36-44 | the query's projection becomes CommaListOr with `-__v`, or the query is untouched when it throws |
| QueryFeatures.ApiFeatures.Paginate | E-Commerce-API/utils/apiFeatures.js:46-77 | throws (false, nothing changed) exactly for a truthy limit or a page that StepsPage reaches; otherwise skip (page - 1) * 50, limit 50 and a pagination object of page, 50 and the page count, without links |
| StorefrontCart.Subtotal | E-Commerce-Client/app/routes/cart.tsx:9-11 | the sum of price times quantity is not negative for a well-formed cart |
| StorefrontCart.ShippingFee | E-Commerce-Client/app/routes/cart.tsx:14 | 0 exactly from a subtotal of 100, 10 exactly below it |
| StorefrontCart.TotalBounds | E-Commerce-Client/app/routes/cart.tsx:14-17 | the total is the subtotal plus at most 10, and equals it exactly when shipping is free |
| StorefrontCart.ThresholdLowersTotal | E-Commerce-Client/app/routes/cart.tsx:14-17 | a cart at 100 costs less in all than one just below 100 |
| StorefrontCart.UpdateQuantity | E-Commerce-Client/app/routes/cart.tsx:19-27 | a quantity below 1 changes nothing; otherwise only the items with the id change, to that quantity; length, order, ids and prices stay |
| StorefrontCart.UpdateKeepsWellFormed | E-Commerce-Client/app/routes/cart.tsx:19-20 | no update lets a quantity drop below 1 |
| StorefrontCart.UpdateSubtotal | E-Commerce-Client/app/routes/cart.tsx:22-26 | after an update the items with the id contribute their prices at the new quantity and the rest of the subtotal is unchanged |
| StorefrontCart.IdSubtotalAtScales | E-Commerce-Client/app/routes/cart.tsx:22-26 | at quantity q those items contribute q times the sum of their prices |
| StorefrontCart.RemoveItem | E-Commerce-Client/app/routes/cart.tsx:29-31 | exactly the items without the id remain, in their order |
| StorefrontCart.RemoveSubtotal | E-Commerce-Client/app/routes/cart.tsx:29-31 | removal takes exactly the removed items' contribution off the subtotal |
| StorefrontCart.RemoveAbsent | E-Commerce-Client/app/routes/cart.tsx:29-31 | removing an id no item has changes nothing |
| StorefrontCart.RemoveTwice | E-Commerce-Client/app/routes/cart.tsx:29-31 | removing twice is removing once |
| CheckoutPage.InitialForm | E-Commerce-Client/app/routes/checkout.tsx:6-22 | the thirteen declared fields, all empty |
| CheckoutPage.Next | E-Commerce-Client/app/routes/checkout.tsx:44-50 | one step further while below 3, else unchanged; stays within 1..3 |
| CheckoutPage.Prev | E-Commerce-Client/app/routes/checkout.tsx:52-57 | one step back while above 1, else unchanged; stays within 1..3 |
| CheckoutPage.BackUndoesForward | E-Commerce-Client/app/routes/checkout.tsx:44-57 | back undoes forward before the last step, and forward undoes back after the first |
| CheckoutPage.Press | E-Commerce-Client/app/routes/checkout.tsx:44-57 | any sequence of next and back presses from a step in 1..3 ends in 1..3 |
| CheckoutPage.ForwardReachesReview | E-Commerce-Client/app/routes/checkout.tsx:44-50 | n presses of next from step 1 reach step min(1 + n, 3) |
| CheckoutPage.Wizard.constructor | E-Commerce-Client/app/routes/checkout.tsx:5-22 | the wizard opens at step 1 with the initial form |
| CheckoutPage.Wizard.NextStep | E-Commerce-Client/app/routes/checkout.tsx:44-50 | the step becomes Next of the old step, within 1..3; the form is unchanged |
| CheckoutPage.Wizard.PrevStep | E-Commerce-Client/app/routes/checkout.tsx:52-57 | the step becomes Prev of the old step, within 1..3; the form is unchanged |
| CheckoutPage.Wizard.HandleChange | E-Commerce-Client/app/routes/checkout.tsx:36-42 | only the named field takes the value; every other field and the step are unchanged |
| CheckoutPage.Tax | E-Commerce-Client/app/routes/checkout.tsx:33 | between 0 and the subtotal for a non-negative subtotal |
| CheckoutPage.CheckoutAddsTax | E-Commerce-Client/app/routes/checkout.tsx:28-34 | the checkout total is the cart page's total plus the tax, so it is never below it |
| OrderHistory.ToLower | E-Commerce-Client/app/routes/account/orders.tsx:49 | same length, each ASCII capital lowered, other characters kept |
| OrderHistory.ToLowerIdempotent | E-Commerce-Client/app/routes/account/orders.tsx:49 | lowering twice is lowering once |
| OrderHistory.ContainsOccurs | E-Commerce-Client/app/routes/account/orders.tsx:49 | includes holds exactly when the query occurs at some position of the id |
| OrderHistory.EmptySearchMatches | E-Commerce-Client/app/routes/account/orders.tsx:49 | the empty query matches every order |
| OrderHistory.SearchIgnoresCase | E-Commerce-Client/app/routes/account/orders.tsx:49 | the search ignores the case of both the query and the id |
| OrderHistory.FilterOrders | E-Commerce-Client/app/routes/account/orders.tsx:47-51 | an order is kept exactly when status and search both match, and the result is a subsequence in order |
| OrderHistory.InitialViewListsAll | E-Commerce-Client/app/routes/account/orders.tsx:44-51 | with status "all" and an empty search every order is listed |
| OrderHistory.FiltersCompose | E-Commerce-Client/app/routes/account/orders.tsx:47-51 | filtering by search and then by status equals filtering by both |

## Left out

- The payment gateway is an oracle: its answers are parameters. Amounts sent to it and its float conversions are not modelled.
- Database sessions, isolation and concurrency are not modelled. This includes the stock check in `addItemToCart`, which runs before its transaction. Each handler is one sequential step.
- Database faults are not modelled, except the failed commit of payment confirmation. In particular, the saves inside the cart transactions never fail.
- Authentication, user management, routes, transport, e-mail and rendering are not modelled; the requester is a parameter.
- Generic CRUD handlers, `ApiFeatures.search`, review aggregation and the trivial product pages are not modelled.
- Timestamps (`lastModified`, `addedAt`, `createdAt`, restock dates) are not modelled: they come from the clock.
- Document lookups by id are map lookups, so the wrong-argument lookup in `cancelOrder` is not modelled. The found order is the one keyed by the id.
- Quantities are integers, so a non-integer JSON number is not modelled. Prices and money are exact rationals, without JavaScript float rounding. This affects `Catalog.Discount`, `StorefrontCart.Subtotal` and `CheckoutPage.Tax`.
- The product schema is reduced to its price; deleted catalog products are not modelled (every cart line is priced).
- The inventory collection holds at most one record per product.
- Inventory.Create: `stock` is always given, so a record saved without `stock` is not modelled. The schema's misspelled `require` lets such a record through.
- Fulfilment.Store.ConfirmPayment: the body's address is taken as a complete address; a partial one, which the shipping schema would refuse inside the confirmation, is not modelled.
- OrderModel.CastAddress: a truthy `address` that is not an object, and fractional building or flat numbers, are not modelled.
- QueryFeatures.ReplaceOps: its own contract states only that the text does not shrink. What it means is stated by `ReplaceOpsOnWord`, `ReplaceOpsSplit` and `SerialisedRewrite`.
- QueryFeatures.Serialise: it covers strings without characters JSON escapes and one level of bracketed keys. Arrays from repeated keys, deeper nesting and `JSON.parse` itself are not modelled. Keys that collide once `$` is added are not modelled either.
- QueryFeatures.NumberValue: it reads digits with an optional leading minus. Whitespace, decimals, exponents and hexadecimal forms of `Number` are not modelled.
- OrderHistory.ToLower: it lowers ASCII letters only, not the full Unicode case mapping.
- The checkout form's submit handler (an alert and a redirect) is not modelled.
