/** Values shared by the member entity and the orchestrator: the width of a
    Java `int`, optional values, and the error kinds that the source signals
    with `IllegalArgumentException` (or that its intended design names). */
module Common {

  /** A Java `int`: member numbers, star ratings and copy counts. */
  newtype int32 = x: int | -0x8000_0000 <= x < 0x8000_0000

  datatype Option<T> = None | Some(value: T)

  /** The input field that a validation failure refers to. */
  datatype Campo = Nombre | Apellido | CorreoElectronico | NumeroDeSocio | Contrasenia

  datatype Error =
    | ValidationError(campo: Campo)
    | AuthenticationFailed
    | InvalidState
    | NotFound
    | CapacityExceeded
    | NoCopiesAvailable
    | NotBorrowed

  /** The outcome of an operation that returns nothing (a Java `void` that may throw). */
  datatype Outcome = Pass | Fail(error: Error)

  /** The outcome of an operation that returns a value or throws. */
  datatype Result<T> = Success(value: T) | Failure(error: Error)
}
