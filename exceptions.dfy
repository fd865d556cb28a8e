/**
  A closed model of the .NET exceptions the classifier and the pipelines see.

  The classifier looks at an exception in four ways: `is` tests against a few
  framework types, the exact runtime type name, the message, and (through
  reflection) the `Number`, `SqlState` and `InnerException` properties. Each
  of these becomes a field here.
 */
module Exceptions {
  import opened Wrappers

  /** The framework type an exception `is` (itself or a subclass of it). */
  datatype Kind = Timeout | TaskCanceled | InvalidOperation | HttpRequest | Other

  datatype Exception = Exception(
    kind: Kind,
    /** `GetType().Name`, compared ordinally. */
    typeName: string,
    message: string,
    /** The value of a `Number` property, or None when there is none or it is null. */
    number: Option<int>,
    /** The value of a `SqlState` property, or None when there is none or it is null. */
    sqlState: Option<string>,
    /** `InnerException`, or None when it is null. */
    inner: Option<Exception>,
    /** Reading `Number` or `SqlState` through reflection throws (a failing getter or cast). */
    fieldReadThrows: bool)

  /** A plain exception of the given kind and type name with no provider fields. */
  function Plain(kind: Kind, typeName: string, message: string): (e: Exception)
    ensures e.kind == kind && e.typeName == typeName && e.message == message
    ensures e.number.None? && e.sqlState.None? && e.inner.None? && !e.fieldReadThrows
  {
    Exception(kind, typeName, message, None, None, None, false)
  }

  /** The outcome of running an operation: its value, or the exception it threw. */
  datatype Outcome<+T> = Ok(value: T) | Err(error: Exception)
}
