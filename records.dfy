/** The payment gateway as the workflow sees it: the two normalised answers of the Stripe wrapper. */
module Gateway {

  /** `createCheckoutSession`: a session id and its hosted-page URL, or the error message. */
  datatype CheckoutSession = Created(sessionId: string, checkoutUrl: string)
                           | CheckoutError(message: string)

  /** `getSessionStatus`: the retrieved session's `payment_status` and `amount_total`, or the
      error message. */
  datatype SessionStatus = Retrieved(paymentStatus: string, amount: int)
                         | RetrieveError(message: string)
  {
    /** The wrapper reports `success: true` whenever the session is retrieved, whatever its
        payment status says (an unpaid session included). */
    predicate Success() {
      Retrieved?
    }
  }
}

/** The payment document. */
module PaymentModel {
  import opened Common
  import OrderModel

  datatype Status = Completed | Pending | Failed

  function StatusName(s: Status): string {
    match s
    case Completed => "completed"
    case Pending => "pending"
    case Failed => "failed"
  }

  /** The `enum` validator on `status`; a payment created without a status is pending. */
  function ParseStatus(name: Option<string>): (r: Option<Status>)
    ensures name.None? ==> r == Some(Pending)
    ensures name.Some? && r.Some? ==> StatusName(r.value) == name.value
    ensures name.Some? && r.None? ==> forall s: Status :: StatusName(s) != name.value
  {
    match name
    case None => Some(Pending)
    case Some(n) =>
      if n == "completed" then Some(Completed)
      else if n == "pending" then Some(Pending)
      else if n == "failed" then Some(Failed)
      else None
  }

  /** `transactionId` is the gateway session id. */
  datatype Payment = Payment(user: UserId, order: OrderId, currency: string,
                             paymentMethod: OrderModel.PaymentMethod, status: Status, transactionId: string)

  /** The unique index on `transactionId`. */
  predicate TransactionIdsUnique(payments: map<PaymentId, Payment>) {
    forall a, b :: a in payments && b in payments && a != b ==>
      payments[a].transactionId != payments[b].transactionId
  }
}

/** The transaction (audit log) document. */
module TransactionModel {
  import opened Common
  import Gateway

  datatype Status = Success | Failed | Pending

  function StatusName(s: Status): string {
    match s
    case Success => "Success"
    case Failed => "Failed"
    case Pending => "Pending"
  }

  /** The `enum` validator on `status` (capitalised, unlike the other collections); a record
      created without a status is Pending. */
  function ParseStatus(name: Option<string>): (r: Option<Status>)
    ensures name.None? ==> r == Some(Pending)
    ensures name.Some? && r.Some? ==> StatusName(r.value) == name.value
    ensures name.Some? && r.None? ==> forall s: Status :: StatusName(s) != name.value
  {
    match name
    case None => Some(Pending)
    case Some(n) =>
      if n == "Success" then Some(Success)
      else if n == "Failed" then Some(Failed)
      else if n == "Pending" then Some(Pending)
      else None
  }

  /** The creation timestamps come from the clock and are left out. */
  datatype Transaction = Transaction(user: UserId, order: OrderId, payment: PaymentId,
                                     status: Status, gatewayResponse: Gateway.SessionStatus)
}

/** The shipping document. */
module ShippingModel {
  import opened Common
  import OrderModel

  datatype Status = Pending | OutOfDelivery | Delivered

  function StatusName(s: Status): string {
    match s
    case Pending => "pending"
    case OutOfDelivery => "out of delivery"
    case Delivered => "delivered"
  }

  /** The `enum` validator on `status`; there is no default, so a shipment created without a
      status has none. */
  function ParseStatus(name: Option<string>): (r: Option<Option<Status>>)
    ensures name.None? ==> r == Some(None)
    ensures name.Some? && r.Some? ==> r.value.Some? && StatusName(r.value.value) == name.value
    ensures name.Some? && r.None? ==> forall s: Status :: StatusName(s) != name.value
  {
    match name
    case None => Some(None)
    case Some(n) =>
      if n == "pending" then Some(Some(Pending))
      else if n == "out of delivery" then Some(Some(OutOfDelivery))
      else if n == "delivered" then Some(Some(Delivered))
      else None
  }

  /** `status` has no default, hence the Option; the address has the order address's shape. */
  datatype Shipment = Shipment(user: UserId, order: OrderId, status: Option<Status>,
                               address: OrderModel.Address)
}
