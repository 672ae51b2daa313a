/** Payment methods that can be enabled on a collection. */
module PaymentMethods {
  import opened Wrappers

  datatype PaymentMethod = PaymentMethod(code: string, name: string, active: bool)

  /** The body of a payment-method listing or update. */
  datatype PaymentMethodList = PaymentMethodList(paymentMethods: Option<seq<PaymentMethod>>)
}
