/** The one navigation the payment screens perform: to the payment-success
    page, carrying the amount and the receiver as route state. */
module Navigation {
  datatype SuccessPage<A> = PaymentSuccess(amount: A, receiver: string)
}
