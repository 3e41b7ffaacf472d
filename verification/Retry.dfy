/** internal/pkg/retry/retry.go: the bounded retry loop. */
module Retry {

  /** What one call of fn comes to. */
  datatype Attempt<T> =
    | Answered(value: T)
    | Transient(message: string)
    | NonRetryable(message: string)

  datatype Failure =
    | Aborted(message: string)                     // a non-retryable error, returned as it is
    | Cancelled                                    // ctx.Err() while waiting
    | Exhausted(attempts: int, last: string)       // "... failed after n attempts"

  datatype Result<T> = Done(value: T) | Gave(failure: Failure)

  /** The run of the loop: fn was called exactly `calls` times, every earlier call failed with a
      retryable error and its wait was not cancelled, and r is what the last call left to return. */
  ghost predicate IsRun<T(!new)>(maxAttempts: int, fn: nat -> Attempt<T>, cancelled: nat -> bool,
                                 calls: nat, r: Result<T>) {
    && 1 <= calls <= maxAttempts
    && (forall i :: 0 <= i < calls - 1 ==> fn(i).Transient? && !cancelled(i))
    && match fn(calls - 1)
       case Answered(v) => r == Done(v)
       case NonRetryable(m) => r == Gave(Aborted(m))
       case Transient(m) =>
         if calls == maxAttempts then r == Gave(Exhausted(maxAttempts, m))
         else cancelled(calls - 1) && r == Gave(Failure.Cancelled)
  }

  /** fn(i) is the outcome of the i-th call, cancelled(i) whether the context ends in the wait after it. */
  method Do<T(!new)>(maxAttempts: int, fn: nat -> Attempt<T>, cancelled: nat -> bool) returns (r: Result<T>, calls: nat)
    ensures 1 <= maxAttempts ==> IsRun(maxAttempts, fn, cancelled, calls, r)
    ensures maxAttempts < 1 ==> calls == 0 && r == Gave(Exhausted(maxAttempts, ""))
  {
    var lastErr := "";
    calls := 0;
    var attempt: nat := 0;
    while attempt < maxAttempts
      invariant calls == attempt
      invariant if maxAttempts < 1 then attempt == 0 && lastErr == "" else attempt < maxAttempts
      invariant forall i :: 0 <= i < attempt ==> fn(i).Transient? && !cancelled(i)
    {
      var outcome := fn(attempt);
      calls := calls + 1;
      match outcome {
        case Answered(v) =>
          return Done(v), calls;
        case NonRetryable(m) =>
          return Gave(Aborted(m)), calls;
        case Transient(m) =>
          lastErr := m;
      }
      if attempt == maxAttempts - 1 {
        break;
      }
      if cancelled(attempt) {
        return Gave(Failure.Cancelled), calls;
      }
      attempt := attempt + 1;
    }
    r := Gave(Exhausted(maxAttempts, lastErr));
  }

  /** The contract pins the loop down: the outcomes and cancellations leave no choice. */
  lemma RunIsUnique<T(!new)>(maxAttempts: int, fn: nat -> Attempt<T>, cancelled: nat -> bool,
                             calls: nat, r: Result<T>, calls': nat, r': Result<T>)
    requires IsRun(maxAttempts, fn, cancelled, calls, r) && IsRun(maxAttempts, fn, cancelled, calls', r')
    ensures calls == calls' && r == r'
  {
    var last, last' := fn(calls - 1), fn(calls' - 1);
  }

  /** It succeeds exactly when some call within the limit answers before any call fails for good and
      before any wait is cancelled. */
  lemma SucceedsIff<T(!new)>(maxAttempts: int, fn: nat -> Attempt<T>, cancelled: nat -> bool, calls: nat, r: Result<T>)
    requires IsRun(maxAttempts, fn, cancelled, calls, r)
    ensures r.Done? <==>
              exists n: nat :: n < maxAttempts && fn(n).Answered? &&
                               forall i: nat :: i < n ==> fn(i).Transient? && !cancelled(i)
  {
    if n: nat :| n < maxAttempts && fn(n).Answered? && forall i: nat :: i < n ==> fn(i).Transient? && !cancelled(i) {
      RunIsUnique(maxAttempts, fn, cancelled, calls, r, n + 1, Done(fn(n).value));
    }
    if r.Done? {
      assert fn(calls - 1).Answered?;
    }
  }
}
