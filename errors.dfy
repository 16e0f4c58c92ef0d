/**
 * Go errors as the relay builds them: either a plain message (`fmt.Errorf` without a
 * wrapped operand, or an error coming from a collaborator) or a context string wrapped
 * around a cause with `fmt.Errorf("<context>: %w", cause)`.
 */
module Errors {
  import opened Wrappers

  datatype Error =
    | Plain(text: string)
    | Wrapped(context: string, cause: Error)

  /** The text `Error()` returns: each wrapper puts "<context>: " in front of its cause's text. */
  function Message(e: Error): string
  {
    match e
    case Plain(t) => t
    case Wrapped(c, cause) => c + ": " + Message(cause)
  }

  /** `errors.Unwrap`: the cause a `%w` wrapper keeps; a plain error has none. */
  function Unwrap(e: Error): Option<Error>
  {
    match e
    case Plain(_) => None
    case Wrapped(_, cause) => Some(cause)
  }

  /** The innermost error of a chain of wrappers. */
  function RootCause(e: Error): Error
  {
    match e
    case Plain(_) => e
    case Wrapped(_, cause) => RootCause(cause)
  }

  /** True when `target` is `e` or is reached from `e` by unwrapping (`errors.Is` on values). */
  predicate Is(e: Error, target: Error)
  {
    e == target || (e.Wrapped? && Is(e.cause, target))
  }

  /** `fmt.Errorf("%s: %w", context, cause)`. */
  function Wrap(context: string, cause: Error): (e: Error)
    ensures Unwrap(e) == Some(cause)
    ensures Message(e) == context + ": " + Message(cause)
    ensures Message(e)[..|context| + 2] == context + ": "
    ensures RootCause(e) == RootCause(cause)
  {
    Wrapped(context, cause)
  }

  /** Wrapping keeps every error of the chain reachable: `errors.Is` still finds what it found before. */
  lemma {:induction false} WrapKeepsChain(context: string, e: Error, target: Error)
    requires Is(e, target)
    ensures Is(Wrap(context, e), target)
    ensures Is(Wrap(context, e), e)
  {
  }

  /** Every error reaches its root cause by unwrapping, and the root cause wraps nothing. */
  lemma {:induction false} RootCauseReachable(e: Error)
    ensures Is(e, RootCause(e))
    ensures Unwrap(RootCause(e)) == None
  {
    match e
    case Plain(_) =>
    case Wrapped(_, cause) => RootCauseReachable(cause);
  }
}
