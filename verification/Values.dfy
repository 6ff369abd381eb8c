/** Values that flow through a saga: step data, times, optional values and errors. */
module Values {

  datatype Option<+T> = None | Some(value: T)

  /** Step data. The engine only hands it on and compares nothing but "absent". */
  datatype Any = Nil | Of(payload: int)

  /** A clock reading. */
  type Time = int

  /**
   * Errors as tags. `Message` is an error rebuilt from stored text: only the text
   * survives a crash, so nothing can be unwrapped from it.
   */
  datatype Error =
    | Fault(code: int)
    | Wrapped(inner: Error)
    | NonRetryable(inner: Error)
    | StepError(step: string, inner: Error)
    | StepTimeout(step: string)
    | SagaTimeout
    | Cancelled(code: int)
    | Message(text: Option<Error>)
    | CompensationFailure(inner: Error)
    | Locked(id: string)
    | LockFault(id: string)
    | StoreFault(id: string)
    | Unregistered(saga: string)
    | RecoverySkipped

  /** Whether the error, or one it wraps, was marked as never to be retried. */
  predicate IsNonRetryable(e: Error) {
    match e
    case NonRetryable(_) => true
    case Wrapped(inner) => IsNonRetryable(inner)
    case StepError(_, inner) => IsNonRetryable(inner)
    case CompensationFailure(inner) => IsNonRetryable(inner)
    case _ => false
  }

  /** What an error wraps directly; text that was stored wraps nothing. */
  function Unwrap(e: Error): Option<Error> {
    match e
    case NonRetryable(inner) => Some(inner)
    case Wrapped(inner) => Some(inner)
    case StepError(_, inner) => Some(inner)
    case CompensationFailure(inner) => Some(inner)
    case _ => None
  }

  /** What comes to light after unwrapping `n` times. */
  function Unwrapped(e: Error, n: nat): Option<Error>
    decreases n
  {
    if n == 0 then Some(e)
    else if Unwrap(e).None? then None
    else Unwrapped(Unwrap(e).value, n - 1)
  }

  ghost predicate Marked(e: Error, n: nat) {
    Unwrapped(e, n).Some? && Unwrapped(e, n).value.NonRetryable?
  }

  /** An error is never retried exactly if some unwrapping of it shows the mark. */
  lemma {:induction false} NonRetryableIffMarked(e: Error)
    ensures IsNonRetryable(e) <==> exists n: nat :: Marked(e, n)
    decreases e
  {
    if e.NonRetryable? {
      assert Marked(e, 0);
    } else if Unwrap(e).None? {
      assert forall n: nat :: !Marked(e, n);
    } else {
      var inner := Unwrap(e).value;
      NonRetryableIffMarked(inner);
      if m: nat :| Marked(inner, m) {
        assert Marked(e, m + 1);
      }
      assert forall n: nat :: Marked(e, n) ==> n > 0 && Marked(inner, n - 1);
    }
  }
}
