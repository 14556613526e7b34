/**
 * The domain's exception hierarchy (src/domain/exceptions.py) as one datatype.
 * Python's `raise NewError(msg) from e` keeps the original exception as the
 * cause; an error here carries it the same way.
 */
module Exceptions {
  import opened Optional

  /** The exception classes. `Foreign` stands for any exception that does not
      derive from DomainException: a library, network or database failure. */
  datatype ErrorKind =
    | DocumentNotFound
    | Ingestion
    | Search
    | ProviderNotConfigured
    | InvalidDocument
    | Foreign

  datatype Error = Error(kind: ErrorKind, message: string, cause: Option<Error>)

  /** Either a returned value or a raised exception. */
  datatype Result<+T> = Ok(value: T) | Err(error: Error)
}
