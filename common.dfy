/** Identifiers, optional values and the error outcomes shared by every request handler. */
module Common {

  type UserId = nat
  type ProductId = nat
  type OrderId = nat
  type PaymentId = nat

  datatype Option<T> = None | Some(value: T) {
    function GetOr(default: T): T {
      match this
      case Some(v) => v
      case None => default
    }
  }

  /** An identifier as it arrives in a request path: a well-formed ObjectId, or a string that
      `isValidObjectId` rejects. */
  datatype RawId = Id(value: nat) | Malformed

  /** Every error a handler can pass to the error middleware, one per `AppError` site
      (or per thrown error that reaches `catch`/`catchAsync`). */
  datatype Reason =
    // cartController.js
    | ProductsMissing | InventoryProductCast | InvalidProductOrQuantity | NotInInventory | InsufficientStock | CartUpdateFailed
    | InvalidProductId | CartNotFound | ProductNotInCart | QuantityNotInteger | NoCartExists
    // cartModel.js addProduct (thrown)
    | AddProductInvalidId | AddProductBadQuantity
    // orderController.js
    | OrderAlreadyCreated | CartEmpty | AddressRequired | OrderValidation
    | NoOrder | OrderNotForUser | InvalidOrderStatus | AlreadyShipped
    // paymentController.js
    | InvalidOrderId | OrderNotFound | NotAuthorizedOrder | PaymentAlreadyProcessedForOrder
    | CheckoutFailed | DuplicateTransactionId
    | SessionIdMissing | InvalidPaymentId | PaymentNotFound | NotAuthorizedPayment
    | SessionMismatch | PaymentAlreadyProcessed | VerificationFailed | ConfirmationFailed
    | PaymentIdCast
    // wishListController.js
    | ProductIdRequired | WishListProductCast | NoWishList
  {
    /** The HTTP status the handler attaches; None where the error reaches the error middleware
        without one (a TypeError, a validation or cast error, or `new AppError('cart is empty')`,
        whose 404 is passed to `next` instead of to `AppError`). */
    function HttpStatus(): (s: Option<nat>)
      ensures s.Some? ==> s.value in {400, 403, 404, 500}
    {
      match this
      case ProductsMissing => None
      case InventoryProductCast => None
      case InvalidProductOrQuantity => Some(400)
      case NotInInventory => Some(404)
      case InsufficientStock => Some(400)
      case CartUpdateFailed => Some(500)
      case InvalidProductId => Some(400)
      case CartNotFound => Some(404)
      case ProductNotInCart => Some(404)
      case QuantityNotInteger => Some(400)
      case NoCartExists => Some(404)
      case AddProductInvalidId => None
      case AddProductBadQuantity => None
      case OrderAlreadyCreated => Some(400)
      case CartEmpty => None
      case AddressRequired => Some(400)
      case OrderValidation => None
      case NoOrder => Some(404)
      case OrderNotForUser => Some(403)
      case InvalidOrderStatus => Some(400)
      case AlreadyShipped => Some(400)
      case InvalidOrderId => Some(400)
      case OrderNotFound => Some(404)
      case NotAuthorizedOrder => Some(403)
      case PaymentAlreadyProcessedForOrder => Some(400)
      case CheckoutFailed => Some(400)
      case DuplicateTransactionId => None
      case SessionIdMissing => Some(400)
      case InvalidPaymentId => Some(400)
      case PaymentNotFound => Some(404)
      case NotAuthorizedPayment => Some(403)
      case SessionMismatch => Some(400)
      case PaymentAlreadyProcessed => Some(400)
      case VerificationFailed => Some(400)
      case ConfirmationFailed => Some(500)
      case PaymentIdCast => None
      case ProductIdRequired => Some(400)
      case WishListProductCast => None
      case NoWishList => Some(404)
    }
  }

  datatype Result<T> = Ok(value: T) | Fail(reason: Reason)

  /** a is b with some elements left out, the rest in their order. */
  predicate Subsequence<T(==)>(a: seq<T>, b: seq<T>)
    decreases |b|
  {
    if a == [] then true
    else if b == [] then false
    else (a[0] == b[0] && Subsequence(a[1..], b[1..])) || Subsequence(a, b[1..])
  }

  /** Leaving out the first element of b keeps a a subsequence. */
  lemma SubsequenceOfTail<T>(a: seq<T>, b: seq<T>)
    requires b != [] && Subsequence(a, b[1..])
    ensures Subsequence(a, b)
  {
  }

  /** Regrouping a concatenation with one element in front; a separate step, so that the
      sequence reasoning stays out of the recursive proofs that use it. */
  lemma ConsAppend<T>(x: T, b: seq<T>, c: seq<T>)
    ensures ([x] + b) + c == [x] + (b + c)
  {
  }
}
