/**
 * Java exceptions as values.  The kind decides which catch clauses of the
 * core take an exception; the class name and message give its toString().
 */
module Exceptions {
  import opened Wrappers

  datatype ExcKind =
    | IOExceptionKind          // java.io.IOException and its subclasses
    | CallErrorKind            // CallErrorException: server and semantic errors
    | RuntimeKind              // unchecked exceptions (NullPointerException, ...)
    | ErrorKind                // java.lang.Error: a Throwable that is not an Exception

  datatype Exc = Exc(kind: ExcKind, className: string, message: Option<string>)

  /** How a Java call ended: normally, or by throwing. */
  datatype Completion = Normal | Thrown(exc: Exc)

  /** Whether `catch (Exception e)` takes the throwable. */
  predicate IsException(e: Exc) {
    e.kind != ErrorKind
  }

  /** Whether `catch (IOException | CallErrorException e)` takes the throwable. */
  predicate IsIoOrCallError(e: Exc) {
    e.kind == IOExceptionKind || e.kind == CallErrorKind
  }

  /** Throwable.toString(): the class name, then ": " and the message if there is one. */
  function Describe(e: Exc): string {
    match e.message
    case None => e.className
    case Some(m) => e.className + ": " + m
  }

  function IOError(message: string): Exc {
    Exc(IOExceptionKind, "java.io.IOException", Some(message))
  }

  function NullPointer(): Exc {
    Exc(RuntimeKind, "java.lang.NullPointerException", None)
  }

  function IllegalArgument(message: string): Exc {
    Exc(RuntimeKind, "java.lang.IllegalArgumentException", Some(message))
  }

  function CallError(message: string): Exc {
    Exc(CallErrorKind, "com.seleritycorp.common.base.coreservices.CallErrorException", Some(message))
  }
}
