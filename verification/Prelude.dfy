/** Small building blocks shared by every module of the model. */
module Prelude {

  datatype Option<+T> = None | Some(value: T)

  /** A service call either returns or raises; a raise rolls its transaction back. */
  datatype Result<+T, +E> = Success(value: T) | Failure(error: E)

  /** The exceptions that the services raise or let through. */
  datatype Error =
    | OutOfStock          // OutOfStockError
    | InvalidValue        // ValueError
    | CheckoutRefused     // CheckoutError
    | DoesNotExist        // Model.DoesNotExist
    | IntegrityConflict   // a unique constraint is violated
    | MalformedId         // an identifier that is not a UUID
    | GatewayFailure      // whatever a gateway's adapter lets through

  function Min(a: int, b: int): int {
    if a <= b then a else b
  }

  function Max(a: int, b: int): int {
    if a >= b then a else b
  }
}
