/**
 * The library's error values: the two sentinels of errors.go, the errors
 * built with `fmt.Errorf("...: %w", sentinel)` that wrap them, and the plain
 * `fmt.Errorf` messages the device methods return.
 */
module Errors {

  datatype Error =
    | InvalidVersionFormat              // ErrInvalidVersionFormat
    | NoDeviceFound                     // ErrNoDeviceFound
    | Wrapped(context: string, cause: Error)  // fmt.Errorf("<context>: %w", cause)
    | Errorf(message: string)           // fmt.Errorf without %w

  /** The text `Error()` returns. */
  function Message(e: Error): string
  {
    match e
    case InvalidVersionFormat => "invalid version format"
    case NoDeviceFound => "no device found"
    case Wrapped(context, cause) => context + ": " + Message(cause)
    case Errorf(message) => message
  }

  /** errors.Is: `e` is `target` or wraps it, through any number of %w layers. */
  predicate Is(e: Error, target: Error)
  {
    e == target || (e.Wrapped? && Is(e.cause, target))
  }

  /** Wrapping keeps the cause visible to errors.Is and prefixes its text. */
  lemma WrappedIs(context: string, cause: Error)
    ensures Is(Wrapped(context, cause), cause)
    ensures Message(Wrapped(context, cause)) == context + ": " + Message(cause)
  {
  }
}
