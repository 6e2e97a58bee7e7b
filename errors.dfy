/**
 * The exceptions the backend throws, as values. A Java method that returns
 * a value or throws becomes a function or method returning `Result`; one
 * that returns nothing or throws returns `Outcome`.
 */
module Errors {
  import opened Lang

  /** One entry of a binding result: the field and its default message. */
  datatype FieldError = FieldError(field: string, defaultMessage: Option<string>)

  datatype Failure =
    | EntityNotFound(message: string)                  // jakarta.persistence.EntityNotFoundException
    | AccessDenied(message: string)                    // Spring Security's AccessDeniedException
    | UserAlreadyExists(message: string)
    | UsernameNotFound(message: string)
    | BadCredentials(message: string)
    | InsufficientAuthentication(message: string)
    | DataIntegrityViolation(message: string)
    | MethodNotSupported(message: string)
    | MethodArgumentNotValid(fieldErrors: seq<FieldError>)  // a failed @Valid
    | IllegalArgument(message: string)
    | IllegalState(message: string)
    | NullPointer                                      // dereference of null
    | ClassCast                                        // a failed downcast
    | Unexpected(cause: Option<string>)                // anything else a collaborator throws
  {
    /** `Throwable.getMessage()`. The text the JVM generates for a
        NullPointerException or ClassCastException is not modelled. */
    function Message(): Option<string> {
      match this
      case EntityNotFound(m) => Some(m)
      case AccessDenied(m) => Some(m)
      case UserAlreadyExists(m) => Some(m)
      case UsernameNotFound(m) => Some(m)
      case BadCredentials(m) => Some(m)
      case InsufficientAuthentication(m) => Some(m)
      case DataIntegrityViolation(m) => Some(m)
      case MethodNotSupported(m) => Some(m)
      case MethodArgumentNotValid(_) => None
      case IllegalArgument(m) => Some(m)
      case IllegalState(m) => Some(m)
      case NullPointer => None
      case ClassCast => None
      case Unexpected(m) => m
    }
  }

  datatype Result<+T> = Ok(value: T) | Err(failure: Failure)

  datatype Outcome = Pass | Fail(failure: Failure)
}
