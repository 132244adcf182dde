/** The order document (its status enumeration, payment methods, address and items) and the
    two pieces of order logic that are pure: the cart-to-order snapshot and the cancel rule. */
module OrderModel {
  import opened Common
  import CartModel

  datatype Status = Pending | Processing | Failed | Shipped | Delivered | Cancelled

  /** The stored spelling of each status. */
  function StatusName(s: Status): string {
    match s
    case Pending => "pending"
    case Processing => "processing"
    case Failed => "failed"
    case Shipped => "shipped"
    case Delivered => "delivered"
    case Cancelled => "cancelled"
  }

  /** The `enum` validator on `status`: a string is accepted exactly when it names a status. */
  function ParseStatus(name: string): (r: Option<Status>)
    ensures r.Some? ==> StatusName(r.value) == name
    ensures r.None? ==> forall s: Status :: StatusName(s) != name
  {
    if name == "pending" then Some(Pending)
    else if name == "processing" then Some(Processing)
    else if name == "failed" then Some(Failed)
    else if name == "shipped" then Some(Shipped)
    else if name == "delivered" then Some(Delivered)
    else if name == "cancelled" then Some(Cancelled)
    else None
  }

  datatype PaymentMethod = CreditCard | PayPal | Stripe | COD

  function MethodName(m: PaymentMethod): string {
    match m
    case CreditCard => "credit_card"
    case PayPal => "paypal"
    case Stripe => "stripe"
    case COD => "COD"
  }

  /** The `enum` validator on `paymentMethod` (the same four values in the order and the payment
      schema). */
  function ParseMethod(name: string): (r: Option<PaymentMethod>)
    ensures r.Some? ==> MethodName(r.value) == name
    ensures r.None? ==> forall m: PaymentMethod :: MethodName(m) != name
  {
    if name == "credit_card" then Some(CreditCard)
    else if name == "paypal" then Some(PayPal)
    else if name == "stripe" then Some(Stripe)
    else if name == "COD" then Some(COD)
    else None
  }

  /** The delivery address; all five fields are required. */
  datatype Address = Address(country: string, state: string, street: string, building: int,
                             flatNumber: int)

  /** A number field of a request body: a value that casts to a number, or one that does not. */
  datatype NumberField = Number(n: int) | NotANumber

  /** The `address` object of a request body before validation; a field is None when the body
      leaves it out. */
  datatype AddressBody = AddressBody(country: Option<string>, state: Option<string>,
                                     street: Option<string>, building: Option<NumberField>,
                                     flatNumber: Option<NumberField>)

  /** The `required` validator on a String path: present and non-empty. */
  predicate StringGiven(v: Option<string>) {
    v.Some? && v.value != ""
  }

  /** The `required` validator on a Number path, after the cast: present and a number. */
  predicate NumberGiven(v: Option<NumberField>) {
    v.Some? && v.value.Number?
  }

  /** The address `Order.create` stores for a body, None when the address paths fail
      validation. */
  function CastAddress(b: AddressBody): (r: Option<Address>)
    ensures r.Some? ==> BodyOf(r.value) == b
    ensures b.country == Some("") || b.state == Some("") || b.street == Some("") ==> r.None?
  {
    if StringGiven(b.country) && StringGiven(b.state) && StringGiven(b.street) &&
       NumberGiven(b.building) && NumberGiven(b.flatNumber)
    then Some(Address(b.country.value, b.state.value, b.street.value, b.building.value.n,
                      b.flatNumber.value.n))
    else None
  }

  /** The body that carries address a in full. */
  function BodyOf(a: Address): (b: AddressBody) {
    AddressBody(Some(a.country), Some(a.state), Some(a.street), Some(Number(a.building)),
                Some(Number(a.flatNumber)))
  }

  /** Validation accepts a body exactly when it carries a complete address with non-empty
      strings, and then stores that address. */
  lemma CastAddressAccepts(b: AddressBody, a: Address)
    ensures CastAddress(b) == Some(a) <==> b == BodyOf(a) && a.country != "" && a.state != "" &&
                                           a.street != ""
  {
  }

  /** An order line as the schema stores it: product and quantity only. */
  datatype Item = Item(product: ProductId, quantity: int)

  datatype Order = Order(user: UserId, items: seq<Item>, totalPrice: real, currency: string,
                         status: Status, paymentMethod: PaymentMethod, address: Address)

  /** The schema bound on every order line: quantity >= 1. */
  predicate ItemsValid(items: seq<Item>) {
    forall i :: 0 <= i < |items| ==> items[i].quantity >= 1
  }

  /** How many units of product p the order lines hold. */
  function OrderedQuantity(items: seq<Item>, p: ProductId): (n: int)
    ensures (forall i :: 0 <= i < |items| ==> items[i].product != p) ==> n == 0
    ensures ItemsValid(items) ==> n >= 0
  {
    if items == [] then 0
    else (if items[0].product == p then items[0].quantity else 0) + OrderedQuantity(items[1..], p)
  }

  /** The object `createOrder`'s map builds from a cart line. */
  datatype ItemInput = ItemInput(product: ProductId, quantity: int, priceAtPurchase: real)

  /** `cart.items.map(item => ({product, quantity, priceAtPurchase: item.product.price.amount}))`. */
  function SnapshotLines(lines: seq<CartModel.Line>, prices: map<ProductId, real>): (r: seq<ItemInput>)
    requires CartModel.Priced(lines, prices)
    ensures |r| == |lines|
    ensures forall i :: 0 <= i < |lines| ==>
              r[i] == ItemInput(lines[i].product, lines[i].quantity, prices[lines[i].product])
  {
    if lines == [] then []
    else [ItemInput(lines[0].product, lines[0].quantity, prices[lines[0].product])]
         + SnapshotLines(lines[1..], prices)
  }

  /** What `Order.create` stores of those objects: the schema has no `priceAtPurchase` path, so
      strict mode drops it and keeps product and quantity, in order. */
  function CastItems(inputs: seq<ItemInput>): (r: seq<Item>)
    ensures |r| == |inputs|
    ensures forall i :: 0 <= i < |inputs| ==> r[i] == Item(inputs[i].product, inputs[i].quantity)
  {
    if inputs == [] then [] else [Item(inputs[0].product, inputs[0].quantity)] + CastItems(inputs[1..])
  }

  /** The stored order lines hold, product by product, exactly the cart's quantities, and are
      valid whenever the cart lines are. */
  lemma {:induction false} SnapshotKeepsQuantities(lines: seq<CartModel.Line>, prices: map<ProductId, real>, p: ProductId)
    requires CartModel.Priced(lines, prices)
    ensures OrderedQuantity(CastItems(SnapshotLines(lines, prices)), p) == CartModel.QuantityOf(lines, p)
    ensures CartModel.LinesValid(lines) ==> ItemsValid(CastItems(SnapshotLines(lines, prices)))
  {
    var items := CastItems(SnapshotLines(lines, prices));
    if lines != [] {
      SnapshotKeepsQuantities(lines[1..], prices, p);
      assert items[1..] == CastItems(SnapshotLines(lines[1..], prices));
    }
  }

  /** The price at purchase is lost: the stored lines do not depend on the catalog prices. */
  lemma PriceSnapshotDropped(lines: seq<CartModel.Line>, prices1: map<ProductId, real>, prices2: map<ProductId, real>)
    requires CartModel.Priced(lines, prices1) && CartModel.Priced(lines, prices2)
    ensures CastItems(SnapshotLines(lines, prices1)) == CastItems(SnapshotLines(lines, prices2))
  {
  }

  /** The statuses `cancelOrder` lets through its first check, spelled as in the source. */
  const CancelCheckNames: seq<string> := ["pending", "shipped", "cancelled", "proccessing"]

  /** `cancelOrder`'s two status checks: a status not in CancelCheckNames is an invalid status,
      any other status but pending is "already shipped", and pending becomes cancelled. */
  function CancelGate(s: Status): (r: Result<Status>)
    ensures r.Ok? <==> s == Pending
    ensures r.Ok? ==> r.value == Cancelled
    ensures s == Shipped || s == Cancelled ==> r == Fail(AlreadyShipped)
    ensures s == Processing || s == Failed || s == Delivered ==> r == Fail(InvalidOrderStatus)
  {
    if StatusName(s) !in CancelCheckNames then Fail(InvalidOrderStatus)
    else if s != Pending then Fail(AlreadyShipped)
    else Ok(Cancelled)
  }

  /** Because the list spells it "proccessing", a processing order is refused as an invalid
      status rather than as already shipped. */
  lemma ProcessingRejectedAsInvalid()
    ensures StatusName(Processing) !in CancelCheckNames
    ensures ParseStatus("proccessing") == None
    ensures CancelGate(Processing) == Fail(InvalidOrderStatus)
  {
  }
}
