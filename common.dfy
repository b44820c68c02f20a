/** Small value types shared by the yaehmop and MongoChem models. */
module Common {

  /** A value that may be missing: a null pointer or an unset optional in Avogadro. */
  datatype Option<+T> = None | Some(value: T)

  /** Either a value or an error message. */
  datatype Result<+R> = Success(value: R) | Failure(error: string)
}
