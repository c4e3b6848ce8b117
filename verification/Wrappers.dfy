/** Result types and the errors the services report. */
module Wrappers {

  datatype Option<+T> = None | Some(value: T)

  datatype Result<+T, +E> = Success(value: T) | Failure(error: E)

  datatype Error =
    | CustomerNotFound
    | PriceNotFound
    | SubscriptionNotFound
    | SubscriptionAlreadyCanceled
    | SubscriptionUnpaid
    | InvoiceNotFound
    | InvoiceAlreadyPaid
    | InvoiceNotPayable
    | PaymentIntentNotFound
    | CannotCapture
    | InvalidCaptureAmount
    | ConstraintViolated
}
