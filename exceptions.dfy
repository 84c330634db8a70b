/** The exceptions the cache core throws, and the cancellation token the
    asynchronous forms accept. */
module Exceptions {
  import opened Wrappers

  /** `System.ArgumentException` and `System.ArgumentNullException`, with the
      message text and the name of the offending parameter. */
  datatype Error =
    | ArgumentException(message: string, paramName: Option<string>)
    | ArgumentNullException(nullParam: string)

  /** A `System.Threading.CancellationToken`; `None` is `default(CancellationToken)`.
      No operation of the core inspects it. */
  datatype CancellationToken = NoToken | Token(id: nat)
}
