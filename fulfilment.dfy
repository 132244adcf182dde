/** The order-fulfilment workflow: one in-memory world holding the inventory, cart, order,
    payment, shipping and transaction collections, and one method per request handler of the
    cart, order and payment controllers. Each handler runs as one sequential step; a handler that
    opens a database transaction stages its writes in locals and assigns the fields only where
    the source commits. */
module Fulfilment {
  import opened Common
  import Inventory
  import Catalog
  import opened CartModel
  import OrderModel
  import PaymentModel
  import TransactionModel
  import ShippingModel
  import Gateway

  /** The inventory collection, looked up by product (`Inventory.findOne({product})`). */
  type Ledger = map<ProductId, Inventory.Record>

  predicate LedgerValid(ledger: Ledger) {
    forall p | p in ledger :: ledger[p].Valid() && ledger[p].product == p
  }

  /** The current `price.amount` of every product, as `populate` reads it. */
  function Prices(catalog: map<ProductId, Catalog.Product>): (m: map<ProductId, real>)
    ensures m.Keys == catalog.Keys
    ensures forall p | p in catalog :: m[p] == catalog[p].price.amount
  {
    map p | p in catalog :: catalog[p].price.amount
  }

  /** A stored cart: owned by u, every line valid, one line per product, every product priced. */
  predicate CartValid(c: Cart, u: UserId, prices: map<ProductId, real>) {
    c.user == u && LinesValid(c.items) && ProductsUnique(c.items) && Priced(c.items, prices)
  }

  predicate CartsValid(carts: map<UserId, Cart>, prices: map<ProductId, real>) {
    forall u | u in carts :: CartValid(carts[u], u, prices)
  }

  /** The inventory effect of `updateCartItemQuantity` for a quantity change `diff`: nothing when
      diff is 0; a reservation re-checked against stock when positive (None: the handler throws
      and aborts); a clamped release of |diff| when negative. */
  function AdjustReservation(rec: Inventory.Record, diff: int): (r: Option<Inventory.Record>)
    ensures diff > 0 ==> (r.Some? <==> diff <= rec.stock)
    ensures diff <= 0 ==> r.Some?
    ensures r.Some? ==> r.value.reservedStock - rec.reservedStock == diff || r.value.reservedStock == 0
    ensures r.Some? && rec.Valid() ==> r.value.Valid()
    ensures r.Some? && (diff >= 0 || -diff <= rec.reservedStock) ==>
              r.value.stock + r.value.reservedStock == rec.stock + rec.reservedStock
  {
    if diff == 0 then Some(rec)
    else if diff > 0 then (if rec.stock < diff then None else Some(Inventory.Reserve(rec, diff)))
    else Some(Inventory.Release(rec, -diff))
  }

  /** The lines `updateCartItemQuantity` saves: p's line dropped when q <= 0, else set to q. */
  function UpdatedLines(items: seq<Line>, p: ProductId, q: int): (r: seq<Line>)
    ensures ProductsUnique(items) ==> ProductsUnique(r)
    ensures LinesValid(items) ==> LinesValid(r)
    ensures forall prices: map<ProductId, real> {:trigger Priced(r, prices)} :: Priced(items, prices) ==> Priced(r, prices)
  {
    if q <= 0 then WithoutProduct(items, p) else SetQuantity(items, p, q)
  }

  /** The settlement loop of `confirmPayment`: for each order line in turn,
      `reservedStock -= quantity; sold += quantity` on the product's record. None when a line's
      product has no inventory record (the handler throws) or when a save would store a negative
      counter (the validator throws); either aborts the whole confirmation. */
  function SettleAll(ledger: Ledger, items: seq<OrderModel.Item>): (r: Option<Ledger>)
    ensures r.Some? ==> r.value.Keys == ledger.Keys
    ensures r.Some? ==> forall p | p in ledger ::
              && r.value[p].stock == ledger[p].stock
              && r.value[p].reservedStock == ledger[p].reservedStock - OrderModel.OrderedQuantity(items, p)
              && r.value[p].sold == ledger[p].sold + OrderModel.OrderedQuantity(items, p)
              && r.value[p].product == ledger[p].product
    ensures r.Some? && LedgerValid(ledger) ==> LedgerValid(r.value)
    decreases |items|
  {
    if items == [] then Some(ledger)
    else
      var p := items[0].product;
      if p !in ledger then None
      else
        var rec := Inventory.Settle(ledger[p], items[0].quantity);
        if !rec.Valid() then None
        else SettleAll(ledger[p := rec], items[1..])
  }

  /** Settlement goes through exactly when every line's product has an inventory record and,
      product by product, the reservation covers the quantity ordered. */
  lemma {:induction false} SettleAllSucceedsIff(ledger: Ledger, items: seq<OrderModel.Item>)
    requires LedgerValid(ledger) && OrderModel.ItemsValid(items)
    ensures SettleAll(ledger, items).Some? <==>
              (forall i | 0 <= i < |items| :: items[i].product in ledger) &&
              (forall p | p in ledger :: OrderModel.OrderedQuantity(items, p) <= ledger[p].reservedStock)
    decreases |items|
  {
    if items != [] {
      var p, q := items[0].product, items[0].quantity;
      var rest := items[1..];
      assert OrderModel.ItemsValid(rest);
      if p in ledger {
        var rec := Inventory.Settle(ledger[p], q);
        assert OrderModel.OrderedQuantity(items, p) == q + OrderModel.OrderedQuantity(rest, p);
        if rec.Valid() {
          var ledger' := ledger[p := rec];
          SettleAllSucceedsIff(ledger', rest);
          assert (forall i | 0 <= i < |items| :: items[i].product in ledger) <==>
                 (forall i | 0 <= i < |rest| :: rest[i].product in ledger') by {
            if forall i | 0 <= i < |rest| :: rest[i].product in ledger' {
              forall i | 0 <= i < |items| ensures items[i].product in ledger {
                if i > 0 { assert items[i] == rest[i - 1]; }
              }
            }
          }
          forall p' | p' in ledger
            ensures OrderModel.OrderedQuantity(items, p') <= ledger[p'].reservedStock <==>
                    OrderModel.OrderedQuantity(rest, p') <= ledger'[p'].reservedStock
          {
            assert OrderModel.OrderedQuantity(items, p') ==
                   (if p' == p then q else 0) + OrderModel.OrderedQuantity(rest, p');
          }
        } else {
          assert OrderModel.OrderedQuantity(items, p) > ledger[p].reservedStock;
        }
      }
    }
  }

  /** Saving a valid record under its product keeps the collection valid. */
  lemma StoreRecord(ledger: Ledger, p: ProductId, rec: Inventory.Record)
    requires LedgerValid(ledger) && rec.Valid() && rec.product == p
    ensures LedgerValid(ledger[p := rec])
  {
  }

  /** A status change keeps the payment's transaction id, so the unique index still holds. */
  lemma StorePayment(payments: map<PaymentId, PaymentModel.Payment>, pid: PaymentId,
                     payment: PaymentModel.Payment)
    requires PaymentModel.TransactionIdsUnique(payments) && pid in payments
    requires payment.transactionId == payments[pid].transactionId
    ensures PaymentModel.TransactionIdsUnique(payments[pid := payment])
  {
  }

  /** Saving a valid cart under its owner keeps every stored cart valid. */
  lemma StoreCart(carts: map<UserId, Cart>, u: UserId, c: Cart, prices: map<ProductId, real>)
    requires CartsValid(carts, prices) && CartValid(c, u, prices)
    ensures CartsValid(carts[u := c], prices)
  {
  }

  /** A quantity update keeps a stored cart valid, whatever total it is saved with. */
  lemma UpdatedCartValid(c: Cart, u: UserId, p: ProductId, q: int, total: real,
                         prices: map<ProductId, real>)
    requires CartValid(c, u, prices)
    ensures CartValid(Cart(u, UpdatedLines(c.items, p, q), total), u, prices)
  {
    assert Priced(UpdatedLines(c.items, p, q), prices);
  }

  /** On an existing cart, an add reserves exactly the units the cart gains, and stock plus
      reservation of the product is unchanged. */
  lemma AddReservesWhatTheCartGains(items: seq<Line>, rec: Inventory.Record, q: int)
    ensures QuantityOf(WithProduct(items, rec.product, q), rec.product) - QuantityOf(items, rec.product)
            == Inventory.Reserve(rec, q).reservedStock - rec.reservedStock
    ensures Inventory.Reserve(rec, q).stock + Inventory.Reserve(rec, q).reservedStock
            == rec.stock + rec.reservedStock
  {
    AddedQuantities(items, rec.product, q, rec.product);
  }

  /** A removal returns to stock exactly what the cart held of the product; when the reservation
      covers it, stock plus reservation is unchanged. */
  lemma RemoveReleasesWhatTheCartHeld(items: seq<Line>, rec: Inventory.Record)
    requires ProductsUnique(items) && LinesValid(items) && rec.Valid()
    requires QuantityOf(items, rec.product) <= rec.reservedStock
    ensures Inventory.Release(rec, QuantityOf(items, rec.product)).stock
            == rec.stock + QuantityOf(items, rec.product)
    ensures Inventory.Release(rec, QuantityOf(items, rec.product)).reservedStock
            == rec.reservedStock - QuantityOf(items, rec.product)
    ensures QuantityOf(WithoutProduct(items, rec.product), rec.product) == 0
  {
    RemovedQuantities(items, rec.product, rec.product);
  }

  /** An update to a quantity q <= 0 drops the line of `held` units but releases held - q: with a
      negative q the release exceeds the line by |q|, and when the reservation was exactly the
      line, |q| units appear in stock out of nothing. */
  lemma NegativeQuantityOverReleases(rec: Inventory.Record, held: int, q: int)
    requires rec.Valid() && held >= 1 && q < 0 && rec.reservedStock == held
    ensures AdjustReservation(rec, q - held).Some?
    ensures AdjustReservation(rec, q - held).value.reservedStock == 0
    ensures AdjustReservation(rec, q - held).value.stock
            + AdjustReservation(rec, q - held).value.reservedStock
            == rec.stock + rec.reservedStock - q
  {
  }

  /** The prechecks of `confirmPayment`, in the source's order; None when all pass. A payment
      already completed is always refused, which makes confirmation happen at most once. */
  function ConfirmRejection(payments: map<PaymentId, PaymentModel.Payment>,
                            orders: map<OrderId, OrderModel.Order>,
                            sessionId: Option<string>, paymentId: RawId, requester: UserId)
    : (r: Option<Reason>)
    ensures r.None? ==>
              && sessionId.Some? && sessionId.value != ""
              && paymentId.Id? && paymentId.value in payments
              && payments[paymentId.value].user == requester
              && payments[paymentId.value].transactionId == sessionId.value
              && payments[paymentId.value].status != PaymentModel.Completed
              && payments[paymentId.value].order in orders
    ensures (paymentId.Id? && paymentId.value in payments &&
             payments[paymentId.value].status == PaymentModel.Completed) ==> r.Some?
  {
    if sessionId.None? || sessionId.value == "" then Some(SessionIdMissing)
    else if paymentId.Malformed? then Some(InvalidPaymentId)
    else if paymentId.value !in payments then Some(PaymentNotFound)
    else
      var payment := payments[paymentId.value];
      if payment.user != requester then Some(NotAuthorizedPayment)
      else if payment.transactionId != sessionId.value then Some(SessionMismatch)
      else if payment.status == PaymentModel.Completed then Some(PaymentAlreadyProcessed)
      else if payment.order !in orders then Some(OrderNotFound)
      else None
  }

  /** A payment whose earlier confirmation failed passes the prechecks again: only a completed
      payment is refused, so a failed one can be confirmed on a later request. */
  lemma FailedPaymentIsRetried(payments: map<PaymentId, PaymentModel.Payment>,
                               orders: map<OrderId, OrderModel.Order>, pid: PaymentId, requester: UserId)
    requires pid in payments && payments[pid].status == PaymentModel.Failed
    requires payments[pid].user == requester && payments[pid].transactionId != ""
    requires payments[pid].order in orders
    ensures ConfirmRejection(payments, orders, Some(payments[pid].transactionId), Id(pid), requester) == None
  {
  }

  /** The answer of a successful `createPayment`. */
  datatype PaymentCreated = PaymentCreated(checkoutUrl: string, paymentId: PaymentId,
                                           sessionId: string, orderId: OrderId)

  /** The answer of a successful `confirmPayment`. */
  datatype Confirmation = Confirmation(transaction: TransactionModel.Transaction,
                                       order: OrderModel.Order, payment: PaymentModel.Payment,
                                       shipment: ShippingModel.Shipment)

  /** `req.body.products` of an add-to-cart request: the product id and the quantity, each
      None when it is absent or falsy. */
  datatype CartRequest = CartRequest(product: Option<RawId>, quantity: Option<int>) {
    /** The first guard of `addItemToCart` passes: a product and a positive quantity. */
    predicate Given() {
      product.Some? && quantity.Some? && quantity.value > 0
    }
  }

  class Store {
    var catalog: map<ProductId, Catalog.Product>
    var inventories: Ledger
    var carts: map<UserId, Cart>
    var orders: map<OrderId, OrderModel.Order>
    var payments: map<PaymentId, PaymentModel.Payment>
    var shipments: seq<ShippingModel.Shipment>
    var transactions: seq<TransactionModel.Transaction>
    /** The next identifier the database hands out for a created order or payment. */
    var nextId: nat

    /** What every committed state satisfies: the schema validators (counters >= 0, line and
        item quantities >= 1), one line per product in a cart, the unique index on payment
        transaction ids, and references into the catalog. */
    ghost predicate Valid()
      reads this
    {
      && LedgerValid(inventories)
      && inventories.Keys <= catalog.Keys
      && CartsValid(carts, Prices(catalog))
      && (forall o | o in orders :: o < nextId && OrderModel.ItemsValid(orders[o].items))
      && (forall k | k in payments :: k < nextId)
      && PaymentModel.TransactionIdsUnique(payments)
    }

    constructor (catalog: map<ProductId, Catalog.Product>, inventories: Ledger)
      requires LedgerValid(inventories) && inventories.Keys <= catalog.Keys
      ensures Valid()
      ensures this.catalog == catalog && this.inventories == inventories
      ensures carts == map[] && orders == map[] && payments == map[]
      ensures shipments == [] && transactions == []
    {
      this.catalog := catalog;
      this.inventories := inventories;
      carts, orders, payments := map[], map[], map[];
      shipments, transactions := [], [];
      nextId := 0;
    }

    /** `addItemToCart`: reads `req.body.products` (a TypeError when it is absent), validates
        the product and quantity, looks up the inventory record (a CastError for a malformed
        product id) and its stock, then in one transaction adds the units to the cart and
        reserves them.
        A user without a cart gets a new cart WITHOUT the line: `Cart.create` is given the path
        `products`, which the schema (path `items`) does not have, so strict mode drops it;
        the units are reserved all the same. */
    method AddItemToCart(user: UserId, products: Option<CartRequest>) returns (r: Result<Cart>)
      requires Valid()
      modifies this
      ensures Valid()
      ensures catalog == old(catalog) && orders == old(orders) && payments == old(payments)
      ensures shipments == old(shipments) && transactions == old(transactions) && nextId == old(nextId)
      ensures products.None? ==> r == Fail(ProductsMissing)
      ensures products.Some? && !products.value.Given() ==> r == Fail(InvalidProductOrQuantity)
      ensures products.Some? && products.value.Given() && products.value.product.value.Malformed? ==>
                r == Fail(InventoryProductCast)
      ensures products.Some? && products.value.Given() && products.value.product.value.Id? ==>
                var p, q := products.value.product.value.value, products.value.quantity.value;
                && (p !in old(inventories) ==> r == Fail(NotInInventory))
                && (p in old(inventories) && old(inventories)[p].stock < q ==> r == Fail(InsufficientStock))
                && (p in old(inventories) && q <= old(inventories)[p].stock ==> r.Ok?)
      ensures r.Fail? ==> inventories == old(inventories) && carts == old(carts)
      ensures r.Ok? ==>
                && products.Some? && products.value.Given() && products.value.product.value.Id?
                && var p, q := products.value.product.value.value, products.value.quantity.value;
                && p in old(inventories) && q <= old(inventories)[p].stock
                && inventories == old(inventories)[p := Inventory.Reserve(old(inventories)[p], q)]
                && carts == old(carts)[user := r.value]
                && r.value == if user in old(carts)
                              then Cart(user, WithProduct(old(carts)[user].items, p, q),
                                        TotalPrice(WithProduct(old(carts)[user].items, p, q), Prices(catalog)))
                              else Cart(user, [], 0.0)
    {
      if products.None? {
        return Fail(ProductsMissing);
      }
      if !products.value.Given() {
        return Fail(InvalidProductOrQuantity);
      }
      if products.value.product.value.Malformed? {
        return Fail(InventoryProductCast);
      }
      var p, q := products.value.product.value.value, products.value.quantity.value;
      if p !in inventories {
        return Fail(NotInInventory);
      }
      if inventories[p].stock < q {
        return Fail(InsufficientStock);
      }
      r := ReserveLine(user, p, q);
    }

    /** The transaction of `addItemToCart` for q units of p: the cart saved with the units
      added (a new cart without lines for a user who has none), and the units reserved. */
    method ReserveLine(user: UserId, p: ProductId, q: int) returns (r: Result<Cart>)
      requires Valid() && p in inventories && 0 < q <= inventories[p].stock
      modifies this
      ensures Valid()
      ensures catalog == old(catalog) && orders == old(orders) && payments == old(payments)
      ensures shipments == old(shipments) && transactions == old(transactions) && nextId == old(nextId)
      ensures r.Ok?
      ensures && inventories == old(inventories)[p := Inventory.Reserve(old(inventories)[p], q)]
              && carts == old(carts)[user := r.value]
              && r.value == if user in old(carts)
                            then Cart(user, WithProduct(old(carts)[user].items, p, q),
                                      TotalPrice(WithProduct(old(carts)[user].items, p, q), Prices(catalog)))
                            else Cart(user, [], 0.0)
    {
      // the transaction starts: writes are staged until the commit
      var cart: Cart;
      if user !in carts {
        cart := Cart(user, [], TotalPrice([], Prices(catalog)));
      } else {
        var added := AddProduct(carts[user], Id(p), q, Prices(catalog));
        assert added.Ok?;
        cart := added.value;
      }
      var inventory := Inventory.Reserve(inventories[p], q);
      StoreRecord(inventories, p, inventory);
      StoreCart(carts, user, cart, Prices(catalog));
      // commit
      carts := carts[user := cart];
      inventories := inventories[p := inventory];
      r := Ok(cart);
    }

    /** `removeItemFromCart`: drops the product's line and, when the product has an inventory
        record, releases the line's quantity (clamped at a zero reservation), in one transaction. */
    method RemoveItemFromCart(user: UserId, productId: RawId) returns (r: Result<Cart>)
      requires Valid()
      modifies this
      ensures Valid()
      ensures catalog == old(catalog) && orders == old(orders) && payments == old(payments)
      ensures shipments == old(shipments) && transactions == old(transactions) && nextId == old(nextId)
      ensures productId.Malformed? ==> r == Fail(InvalidProductId)
      ensures productId.Id? && user !in old(carts) ==> r == Fail(CartNotFound)
      ensures (productId.Id? && user in old(carts) && !Has(old(carts)[user].items, productId.value)) ==>
                r == Fail(ProductNotInCart)
      ensures (productId.Id? && user in old(carts) && Has(old(carts)[user].items, productId.value)) ==>
                r.Ok?
      ensures r.Fail? ==> inventories == old(inventories) && carts == old(carts)
      ensures r.Ok? ==>
                var p := productId.value;
                var items := old(carts)[user].items;
                var held := QuantityOf(items, p);
                && productId.Id? && user in old(carts) && Has(items, p)
                && r.value == Cart(user, WithoutProduct(items, p),
                                   TotalPrice(WithoutProduct(items, p), Prices(catalog)))
                && carts == old(carts)[user := r.value]
                && inventories == if p in old(inventories)
                                  then old(inventories)[p := Inventory.Release(old(inventories)[p], held)]
                                  else old(inventories)
    {
      if productId.Malformed? {
        return Fail(InvalidProductId);
      }
      var p := productId.value;
      if user !in carts {
        return Fail(CartNotFound);
      }
      var cart := carts[user];
      var found := FindIndex(cart.items, p);
      if found.None? {
        return Fail(ProductNotInCart);
      }
      QuantityOfUniqueLine(cart.items, found.value, p);
      r := DropLine(user, p, cart.items[found.value].quantity);
    }

    /** The transaction of `removeItemFromCart` for a line of `held` units: the cart saved without
        the line, and the held units released on the product's inventory record if it has one. */
    method DropLine(user: UserId, p: ProductId, held: int) returns (r: Result<Cart>)
      requires Valid() && user in carts && held == QuantityOf(carts[user].items, p)
      modifies this
      ensures Valid()
      ensures catalog == old(catalog) && orders == old(orders) && payments == old(payments)
      ensures shipments == old(shipments) && transactions == old(transactions) && nextId == old(nextId)
      ensures r.Ok?
      ensures var items := WithoutProduct(old(carts)[user].items, p);
              && r.value == Cart(user, items, TotalPrice(items, Prices(catalog)))
              && carts == old(carts)[user := r.value]
              && inventories == if p in old(inventories)
                                then old(inventories)[p := Inventory.Release(old(inventories)[p], held)]
                                else old(inventories)
    {
      // the transaction starts
      var items := WithoutProduct(carts[user].items, p);
      var cart := Cart(user, items, TotalPrice(items, Prices(catalog)));
      var ledger: Ledger := inventories;
      if p in ledger {
        ledger := ledger[p := Inventory.Release(ledger[p], held)];
        StoreRecord(inventories, p, ledger[p]);
      }
      StoreCart(carts, user, cart, Prices(catalog));
      // commit
      carts := carts[user := cart];
      inventories := ledger;
      r := Ok(cart);
    }

    /** `getCart`: the user's cart, or 404. */
    method GetCart(user: UserId) returns (r: Result<Cart>)
      requires Valid()
      ensures r.Ok? <==> user in carts
      ensures r.Ok? ==> r.value == carts[user] && r.value.user == user
      ensures r.Fail? ==> r.reason == NoCartExists
    {
      if user !in carts {
        return Fail(NoCartExists);
      }
      r := Ok(carts[user]);
    }

    /** `updateCartItemQuantity`: sets the product's line to `quantity`, or drops the line when
        quantity <= 0, and adjusts the reservation by the difference `quantity - held`, all in one
        transaction that a positive difference larger than the stock aborts. For quantity <= 0 the
        release is held - quantity, which exceeds the line when quantity is negative. */
    method UpdateCartItemQuantity(user: UserId, productId: RawId, quantity: Option<int>)
      returns (r: Result<Cart>)
      requires Valid()
      modifies this
      ensures Valid()
      ensures catalog == old(catalog) && orders == old(orders) && payments == old(payments)
      ensures shipments == old(shipments) && transactions == old(transactions) && nextId == old(nextId)
      ensures productId.Malformed? ==> r == Fail(InvalidProductId)
      ensures productId.Id? && quantity.None? ==> r == Fail(QuantityNotInteger)
      ensures productId.Id? && quantity.Some? && user !in old(carts) ==> r == Fail(CartNotFound)
      ensures (productId.Id? && quantity.Some? && user in old(carts) &&
               !Has(old(carts)[user].items, productId.value)) ==> r == Fail(ProductNotInCart)
      ensures r.Fail? ==> inventories == old(inventories) && carts == old(carts)
      ensures productId.Id? && quantity.Some? && user in old(carts) ==>
                var p, q := productId.value, quantity.value;
                var items := old(carts)[user].items;
                var diff := q - QuantityOf(items, p);
                var newItems := UpdatedLines(items, p, q);
                Has(items, p) ==>
                  && (r.Fail? <==> diff != 0 && p in old(inventories) &&
                                   AdjustReservation(old(inventories)[p], diff).None?)
                  && (r.Fail? ==> r == Fail(InsufficientStock))
                  && (r.Ok? ==>
                        && r.value == Cart(user, newItems, TotalPrice(newItems, Prices(catalog)))
                        && carts == old(carts)[user := r.value]
                        && inventories == if diff == 0 || p !in old(inventories) then old(inventories)
                                          else old(inventories)[p := AdjustReservation(old(inventories)[p], diff).value])
      ensures r.Ok? ==> productId.Id? && quantity.Some? && user in old(carts)
    {
      if productId.Malformed? {
        return Fail(InvalidProductId);
      }
      if quantity.None? {
        return Fail(QuantityNotInteger);
      }
      var p, q := productId.value, quantity.value;
      if user !in carts {
        return Fail(CartNotFound);
      }
      var cart := carts[user];
      var found := FindIndex(cart.items, p);
      if found.None? {
        return Fail(ProductNotInCart);
      }
      QuantityOfUniqueLine(cart.items, found.value, p);
      r := SaveQuantity(user, p, q, cart.items[found.value].quantity);
    }

    /** The transaction of `updateCartItemQuantity` for a line of `held` units: the cart saved
        with the updated lines and the reservation adjusted by q - held, unless the adjustment
        finds too little stock, which aborts it with nothing written. */
    method SaveQuantity(user: UserId, p: ProductId, q: int, held: int) returns (r: Result<Cart>)
      requires Valid() && user in carts && held == QuantityOf(carts[user].items, p)
      modifies this
      ensures Valid()
      ensures catalog == old(catalog) && orders == old(orders) && payments == old(payments)
      ensures shipments == old(shipments) && transactions == old(transactions) && nextId == old(nextId)
      ensures var diff := q - held;
              r.Fail? <==> diff != 0 && p in old(inventories) && AdjustReservation(old(inventories)[p], diff).None?
      ensures r.Fail? ==> r == Fail(InsufficientStock) && inventories == old(inventories) && carts == old(carts)
      ensures r.Ok? ==>
                var diff := q - held;
                var newItems := UpdatedLines(old(carts)[user].items, p, q);
                && r.value == Cart(user, newItems, TotalPrice(newItems, Prices(catalog)))
                && carts == old(carts)[user := r.value]
                && inventories == if diff == 0 || p !in old(inventories) then old(inventories)
                                  else old(inventories)[p := AdjustReservation(old(inventories)[p], diff).value]
    {
      // the transaction starts
      var quantityDifference := q - held;
      var items := UpdatedLines(carts[user].items, p, q);
      var cart := Cart(user, items, TotalPrice(items, Prices(catalog)));
      UpdatedCartValid(carts[user], user, p, q, cart.totalPrice, Prices(catalog));
      StoreCart(carts, user, cart, Prices(catalog));
      var ledger: Ledger := inventories;
      if quantityDifference != 0 && p in ledger {
        var adjusted := AdjustReservation(ledger[p], quantityDifference);
        if adjusted.None? {
          // thrown inside the transaction: abort, nothing is written
          return Fail(InsufficientStock);
        }
        ledger := ledger[p := adjusted.value];
        StoreRecord(inventories, p, adjusted.value);
      }
      // commit
      carts := carts[user := cart];
      inventories := ledger;
      r := Ok(cart);
    }

    /** `clearCart`: deletes the user's cart; the reservations its lines held are not released. */
    method ClearCart(user: UserId)
      requires Valid()
      modifies this
      ensures Valid()
      ensures carts == old(carts) - {user}
      ensures inventories == old(inventories) && catalog == old(catalog) && orders == old(orders)
      ensures payments == old(payments) && shipments == old(shipments)
      ensures transactions == old(transactions) && nextId == old(nextId)
    {
      carts := carts - {user};
    }

    /** `createOrder`: refuses a user who has any order at all (whatever its status), then an
        absent or empty cart, then a missing address; otherwise stores a pending order whose items
        are the cart lines (product and quantity; the price snapshot is dropped by the schema) and
        whose total is the cart's stored total. The payment method defaults to "stripe" and must
        be one of the enumeration, and the address must pass the schema's validators
        (OrderModel.CastAddress). Neither the cart nor the inventory is touched. */
    method CreateOrder(user: UserId, paymentMethod: Option<string>,
                       address: Option<OrderModel.AddressBody>)
      returns (r: Result<OrderId>)
      requires Valid()
      modifies this
      ensures Valid()
      ensures catalog == old(catalog) && inventories == old(inventories) && carts == old(carts)
      ensures payments == old(payments) && shipments == old(shipments) && transactions == old(transactions)
      ensures (exists o | o in old(orders) :: old(orders)[o].user == user) ==> r == Fail(OrderAlreadyCreated)
      ensures (forall o | o in old(orders) :: old(orders)[o].user != user) ==>
                && (user !in old(carts) || old(carts)[user].items == [] ==> r == Fail(CartEmpty))
                && (user in old(carts) && old(carts)[user].items != [] ==>
                      && (address.None? ==> r == Fail(AddressRequired))
                      && (address.Some? ==>
                            var valid := OrderModel.ParseMethod(paymentMethod.GetOr("stripe")).Some? &&
                                         OrderModel.CastAddress(address.value).Some?;
                            && (!valid ==> r == Fail(OrderValidation))
                            && (valid ==> r.Ok?)))
      ensures r.Fail? ==> orders == old(orders) && nextId == old(nextId)
      ensures r.Ok? ==>
                var cart := old(carts)[user];
                && user in old(carts) && address.Some?
                && OrderModel.ParseMethod(paymentMethod.GetOr("stripe")).Some?
                && OrderModel.CastAddress(address.value).Some?
                && r.value == old(nextId) && r.value !in old(orders) && nextId == old(nextId) + 1
                && orders == old(orders)[r.value := OrderModel.Order(
                     user,
                     OrderModel.CastItems(OrderModel.SnapshotLines(cart.items, Prices(catalog))),
                     cart.totalPrice, "usd", OrderModel.Pending,
                     OrderModel.ParseMethod(paymentMethod.GetOr("stripe")).value,
                     OrderModel.CastAddress(address.value).value)]
    {
      if exists o | o in orders :: orders[o].user == user {
        return Fail(OrderAlreadyCreated);
      }
      if user !in carts || carts[user].items == [] {
        return Fail(CartEmpty);
      }
      if address.None? {
        return Fail(AddressRequired);
      }
      var cart := carts[user];
      var items := OrderModel.CastItems(OrderModel.SnapshotLines(cart.items, Prices(catalog)));
      var chosen := OrderModel.ParseMethod(paymentMethod.GetOr("stripe"));
      var stored := OrderModel.CastAddress(address.value);
      if chosen.None? || stored.None? {
        return Fail(OrderValidation);
      }
      forall i | 0 <= i < |items| ensures items[i].quantity >= 1 {
        assert items[i].quantity == cart.items[i].quantity;
      }
      var id := nextId;
      orders := orders[id := OrderModel.Order(user, items, cart.totalPrice, "usd", OrderModel.Pending,
                                              chosen.value, stored.value)];
      nextId := nextId + 1;
      r := Ok(id);
    }

    /** `cancelOrder` on the order record found for `orderId`: 404 when none, 403 when it is not the
        requester's, then the status checks of CancelGate; a pending order becomes cancelled.
        No inventory is released. */
    method CancelOrder(orderId: OrderId, requester: UserId) returns (r: Result<OrderModel.Order>)
      requires Valid()
      modifies this
      ensures Valid()
      ensures catalog == old(catalog) && inventories == old(inventories) && carts == old(carts)
      ensures payments == old(payments) && shipments == old(shipments)
      ensures transactions == old(transactions) && nextId == old(nextId)
      ensures orderId !in old(orders) ==> r == Fail(NoOrder)
      ensures orderId in old(orders) && old(orders)[orderId].user != requester ==> r == Fail(OrderNotForUser)
      ensures orderId in old(orders) && old(orders)[orderId].user == requester ==>
                match OrderModel.CancelGate(old(orders)[orderId].status)
                case Fail(e) => r == Fail(e)
                case Ok(s) => r == Ok(old(orders)[orderId].(status := s))
      ensures r.Fail? ==> orders == old(orders)
      ensures r.Ok? ==> orderId in old(orders) && orders == old(orders)[orderId := r.value]
    {
      if orderId !in orders {
        return Fail(NoOrder);
      }
      var order := orders[orderId];
      if order.user != requester {
        return Fail(OrderNotForUser);
      }
      if OrderModel.StatusName(order.status) !in OrderModel.CancelCheckNames {
        return Fail(InvalidOrderStatus);
      }
      if order.status != OrderModel.Pending {
        return Fail(AlreadyShipped);
      }
      order := order.(status := OrderModel.Cancelled);
      orders := orders[orderId := order];
      r := Ok(order);
    }

    /** `createPayment`: after the id, ownership and pending-status checks, opens a gateway
        checkout session for the order and records a pending stripe payment keyed by the session
        id. Nothing stops a second payment for the same pending order. */
    method CreatePayment(orderId: RawId, requester: UserId, session: Gateway.CheckoutSession)
      returns (r: Result<PaymentCreated>)
      requires Valid()
      modifies this
      ensures Valid()
      ensures catalog == old(catalog) && inventories == old(inventories) && carts == old(carts)
      ensures orders == old(orders) && shipments == old(shipments) && transactions == old(transactions)
      ensures orderId.Malformed? ==> r == Fail(InvalidOrderId)
      ensures orderId.Id? && orderId.value !in old(orders) ==> r == Fail(OrderNotFound)
      ensures orderId.Id? && orderId.value in old(orders) ==>
                var order := old(orders)[orderId.value];
                && (order.user != requester ==> r == Fail(NotAuthorizedOrder))
                && (order.user == requester && order.status != OrderModel.Pending ==>
                      r == Fail(PaymentAlreadyProcessedForOrder))
                && ((order.user == requester && order.status == OrderModel.Pending &&
                     session.CheckoutError?) ==> r == Fail(CheckoutFailed))
                && ((order.user == requester && order.status == OrderModel.Pending && session.Created? &&
                     (exists k | k in old(payments) :: old(payments)[k].transactionId == session.sessionId)) ==>
                      r == Fail(DuplicateTransactionId))
                && ((order.user == requester && order.status == OrderModel.Pending && session.Created? &&
                     (forall k | k in old(payments) :: old(payments)[k].transactionId != session.sessionId)) ==>
                      r.Ok?)
      ensures r.Fail? ==> payments == old(payments) && nextId == old(nextId)
      ensures r.Ok? ==>
                && orderId.Id? && orderId.value in old(orders) && session.Created?
                && old(orders)[orderId.value].status == OrderModel.Pending
                && r.value == PaymentCreated(session.checkoutUrl, old(nextId), session.sessionId, orderId.value)
                && old(nextId) !in old(payments) && nextId == old(nextId) + 1
                && payments == old(payments)[old(nextId) := PaymentModel.Payment(
                     requester, orderId.value, old(orders)[orderId.value].currency,
                     OrderModel.Stripe, PaymentModel.Pending, session.sessionId)]
    {
      if orderId.Malformed? {
        return Fail(InvalidOrderId);
      }
      var oid := orderId.value;
      if oid !in orders {
        return Fail(OrderNotFound);
      }
      var order := orders[oid];
      if order.user != requester {
        return Fail(NotAuthorizedOrder);
      }
      if order.status != OrderModel.Pending {
        return Fail(PaymentAlreadyProcessedForOrder);
      }
      if session.CheckoutError? {
        return Fail(CheckoutFailed);
      }
      if exists k | k in payments :: payments[k].transactionId == session.sessionId {
        // the unique index on transactionId rejects the create
        return Fail(DuplicateTransactionId);
      }
      var id := nextId;
      payments := payments[id := PaymentModel.Payment(requester, oid, order.currency, OrderModel.Stripe,
                                                       PaymentModel.Pending, session.sessionId)];
      nextId := nextId + 1;
      r := Ok(PaymentCreated(session.checkoutUrl, id, session.sessionId, oid));
    }

    /** The settlement loop of `confirmPayment` over the order lines, on a staged copy of the
        inventory collection: None as soon as a line's product has no record or a record would be
        saved with a negative counter. */
    method SettleOrder(items: seq<OrderModel.Item>) returns (settled: Option<Ledger>)
      ensures settled == SettleAll(inventories, items)
    {
      var ledger: Ledger := inventories;
      var i := 0;
      while i < |items|
        invariant 0 <= i <= |items|
        invariant SettleAll(inventories, items) == SettleAll(ledger, items[i..])
      {
        var item := items[i];
        assert items[i..][0] == item && items[i..][1..] == items[i + 1..];
        if item.product !in ledger {
          return None;
        }
        var inventory := ledger[item.product];
        inventory := inventory.(reservedStock := inventory.reservedStock - item.quantity,
                                sold := inventory.sold + item.quantity);
        assert inventory == Inventory.Settle(ledger[item.product], item.quantity);
        if !inventory.Valid() {
          return None;
        }
        assert SettleAll(ledger, items[i..]) == SettleAll(ledger[item.product := inventory], items[i + 1..]);
        ledger := ledger[item.product := inventory];
        i := i + 1;
      }
      settled := Some(ledger);
    }

    /** `confirmPayment`, the settlement step. After the prechecks (ConfirmRejection) it reads the
        session status from the gateway.
        On a gateway failure the handler writes failed statuses and a Failed transaction inside
        the session but returns without committing; ending the session aborts them, so nothing
        changes.
        On success it completes the payment, moves the order to processing (whatever its status),
        settles every order line, creates the shipment OUTSIDE the session, deletes the requester's
        cart and appends a Success transaction, then commits. A failed settlement aborts
        everything; a failed commit (`commitFails`) aborts everything but the shipment. */
    method ConfirmPayment(sessionId: Option<string>, paymentId: RawId, requester: UserId,
                          bodyAddress: Option<OrderModel.Address>, status: Gateway.SessionStatus,
                          commitFails: bool)
      returns (r: Result<Confirmation>)
      requires Valid()
      modifies this
      ensures Valid()
      ensures catalog == old(catalog)
      ensures var rejection := ConfirmRejection(old(payments), old(orders), sessionId, paymentId, requester);
              rejection.Some? ==> r == Fail(rejection.value) && unchanged(this)
      ensures (ConfirmRejection(old(payments), old(orders), sessionId, paymentId, requester).None? &&
               !status.Success()) ==> r == Fail(VerificationFailed) && unchanged(this)
      ensures (ConfirmRejection(old(payments), old(orders), sessionId, paymentId, requester).None? &&
               status.Success()) ==>
                var pid := paymentId.value;
                var payment := old(payments)[pid];
                var order := old(orders)[payment.order];
                var settled := SettleAll(old(inventories), order.items);
                var shipment := ShippingModel.Shipment(requester, payment.order, Some(ShippingModel.Pending),
                                                       bodyAddress.GetOr(order.address));
                var transaction := TransactionModel.Transaction(requester, payment.order, pid,
                                                                TransactionModel.Success, status);
                && (settled.None? ==> r == Fail(ConfirmationFailed) && unchanged(this))
                && (settled.Some? && commitFails ==>
                      && r == Fail(ConfirmationFailed)
                      && shipments == old(shipments) + [shipment]
                      && inventories == old(inventories) && carts == old(carts) && orders == old(orders)
                      && payments == old(payments) && transactions == old(transactions)
                      && nextId == old(nextId))
                && (settled.Some? && !commitFails ==>
                      && r == Ok(Confirmation(transaction, order.(status := OrderModel.Processing),
                                              payment.(status := PaymentModel.Completed), shipment))
                      && payments == old(payments)[pid := payment.(status := PaymentModel.Completed)]
                      && orders == old(orders)[payment.order := order.(status := OrderModel.Processing)]
                      && inventories == settled.value
                      && carts == old(carts) - {requester}
                      && shipments == old(shipments) + [shipment]
                      && transactions == old(transactions) + [transaction]
                      && nextId == old(nextId))
    {
      if sessionId.None? || sessionId.value == "" {
        return Fail(SessionIdMissing);
      }
      if paymentId.Malformed? {
        return Fail(InvalidPaymentId);
      }
      var pid := paymentId.value;
      // the session and its transaction start here
      if pid !in payments {
        return Fail(PaymentNotFound);
      }
      var payment := payments[pid];
      if payment.user != requester {
        return Fail(NotAuthorizedPayment);
      }
      if payment.transactionId != sessionId.value {
        return Fail(SessionMismatch);
      }
      if payment.status == PaymentModel.Completed {
        return Fail(PaymentAlreadyProcessed);
      }
      if payment.order !in orders {
        return Fail(OrderNotFound);
      }
      var order := orders[payment.order];
      if !status.Success() {
        // the failed payment and order statuses and the Failed transaction are staged in the
        // session, which is ended without a commit: none of them persists
        return Fail(VerificationFailed);
      }
      r := SettleConfirmation(pid, requester, bodyAddress, status, commitFails);
    }

    /** The transaction of `confirmPayment` once the prechecks have passed and the gateway reports
        the session paid: payment completed, order processing, every order line settled, the
        shipment created, the cart deleted and the transaction logged. The shipment is written
        outside the transaction, so it persists when the commit fails. */
    method SettleConfirmation(pid: PaymentId, requester: UserId, bodyAddress: Option<OrderModel.Address>,
                              status: Gateway.SessionStatus, commitFails: bool)
      returns (r: Result<Confirmation>)
      requires Valid() && pid in payments && payments[pid].order in orders
      modifies this
      ensures Valid()
      ensures catalog == old(catalog)
      ensures var payment := old(payments)[pid];
              var order := old(orders)[payment.order];
              var settled := SettleAll(old(inventories), order.items);
              var shipment := ShippingModel.Shipment(requester, payment.order, Some(ShippingModel.Pending),
                                                     bodyAddress.GetOr(order.address));
              var transaction := TransactionModel.Transaction(requester, payment.order, pid,
                                                              TransactionModel.Success, status);
              && (settled.None? ==> r == Fail(ConfirmationFailed) && unchanged(this))
              && (settled.Some? && commitFails ==>
                    && r == Fail(ConfirmationFailed)
                    && shipments == old(shipments) + [shipment]
                    && inventories == old(inventories) && carts == old(carts) && orders == old(orders)
                    && payments == old(payments) && transactions == old(transactions)
                    && nextId == old(nextId))
              && (settled.Some? && !commitFails ==>
                    && r == Ok(Confirmation(transaction, order.(status := OrderModel.Processing),
                                            payment.(status := PaymentModel.Completed), shipment))
                    && payments == old(payments)[pid := payment.(status := PaymentModel.Completed)]
                    && orders == old(orders)[payment.order := order.(status := OrderModel.Processing)]
                    && inventories == settled.value
                    && carts == old(carts) - {requester}
                    && shipments == old(shipments) + [shipment]
                    && transactions == old(transactions) + [transaction]
                    && nextId == old(nextId))
    {
      var payment := payments[pid];
      var order := orders[payment.order];
      payment := payment.(status := PaymentModel.Completed);
      order := order.(status := OrderModel.Processing);
      var settled := SettleOrder(order.items);
      if settled.None? {
        // a line without an inventory record, or a save the validator rejects: the transaction aborts
        return Fail(ConfirmationFailed);
      }
      var ledger := settled.value;
      var shipment := ShippingModel.Shipment(requester, payment.order, Some(ShippingModel.Pending),
                                             bodyAddress.GetOr(order.address));
      shipments := shipments + [shipment];
      var transaction := TransactionModel.Transaction(requester, payment.order, pid,
                                                      TransactionModel.Success, status);
      if commitFails {
        return Fail(ConfirmationFailed);
      }
      StorePayment(payments, pid, payment);
      assert LedgerValid(ledger);
      payments := payments[pid := payment];
      orders := orders[payment.order := order];
      inventories := ledger;
      carts := carts - {requester};
      transactions := transactions + [transaction];
      r := Ok(Confirmation(transaction, order, payment, shipment));
    }

    /** `getPayment`: the payment when it exists and is the requester's. An id that is not an
        ObjectId makes `findById` throw a cast error. */
    method GetPayment(paymentId: RawId, requester: UserId) returns (r: Result<PaymentModel.Payment>)
      ensures paymentId.Malformed? ==> r == Fail(PaymentIdCast)
      ensures paymentId.Id? && paymentId.value !in payments ==> r == Fail(PaymentNotFound)
      ensures paymentId.Id? && paymentId.value in payments && payments[paymentId.value].user != requester ==>
                r == Fail(NotAuthorizedPayment)
      ensures r.Ok? <==> paymentId.Id? && paymentId.value in payments &&
                         payments[paymentId.value].user == requester
      ensures r.Ok? ==> r.value == payments[paymentId.value] && r.value.user == requester
    {
      if paymentId.Malformed? {
        return Fail(PaymentIdCast);
      }
      if paymentId.value !in payments {
        return Fail(PaymentNotFound);
      }
      var payment := payments[paymentId.value];
      if payment.user != requester {
        return Fail(NotAuthorizedPayment);
      }
      r := Ok(payment);
    }
  }
}
