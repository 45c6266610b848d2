/** Go error values, as far as the service creates, wraps and compares them. */
module GoErrors {

  /** The sentinel errors of Go's standard library that the service compares against. */
  datatype Sentinel =
    | ErrAbortHandler   // net/http: panicking with it aborts a handler quietly
    | ErrServerClosed   // net/http: what ListenAndServe returns after Shutdown
    | ErrSyntax         // strconv: the text is not a number
    | ErrRange          // strconv: the number does not fit

  /** An `error` value: a sentinel, an `errors.New` text, or a wrapper made by
      `fmt.Errorf("...%w", cause)` or a type with an `Unwrap` method. */
  datatype GoError =
    | SentinelError(kind: Sentinel)
    | TextError(text: string)
    | WrapError(text: string, cause: GoError)

  function SentinelText(k: Sentinel): string {
    match k
    case ErrAbortHandler => "net/http: abort Handler"
    case ErrServerClosed => "http: Server closed"
    case ErrSyntax => "invalid syntax"
    case ErrRange => "value out of range"
  }

  /** `err.Error()`. */
  function Message(e: GoError): string {
    match e
    case SentinelError(k) => SentinelText(k)
    case TextError(t) => t
    case WrapError(t, _) => t
  }

  /** `errors.Is(e, target)` for a sentinel target: `e` is the sentinel or wraps it. */
  predicate IsError(e: GoError, target: Sentinel) {
    match e
    case SentinelError(k) => k == target
    case TextError(_) => false
    case WrapError(_, cause) => IsError(cause, target)
  }

  /** `fmt.Errorf(prefix + "%w", cause)`: the message is the prefix followed by the cause's
      message, and unwrapping yields the cause. */
  function Wrap(prefix: string, cause: GoError): (e: GoError)
    ensures Message(e) == prefix + Message(cause)
    ensures forall k :: IsError(e, k) <==> IsError(cause, k)
  {
    WrapError(prefix + Message(cause), cause)
  }
}
