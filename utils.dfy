/** The `wrapper` that `retry(max_attempts, delay)` builds around a function
    (src/utils.py). The three nested Python closures are flattened into one
    method that takes the decorator's arguments, the wrapped function and the
    call's arguments together. */
module Utils {
  import opened RetrySpec

  datatype Option<T> = None | Some(value: T)

  /** One call of the wrapped function `op` through the retry wrapper.
      `op(args, i)` is what the wrapped function does on its `i`-th call
      (0-based) with the arguments `args`; `delay` is only handed to the
      sleeps. `calls` and `sleeps` count the calls of `op` and of
      `time.sleep`; `trace` records every call, warning, sleep and error log. */
  method Retry<A, V, E, D>(maxAttempts: int, delay: D, op: (A, nat) -> Outcome<V, E>, args: A)
    returns (r: Result<V, E>, calls: nat, sleeps: nat, ghost trace: seq<Event<A, E, D>>)
    ensures r == Expected(op, args, maxAttempts)
    ensures calls == Calls(op, args, maxAttempts)
    ensures sleeps == (if calls == 0 then 0 else calls - 1)
    ensures trace == ExpectedTrace(op, args, maxAttempts, delay)
    ensures sleeps == Count(trace, SleepKind)
  {
    var lastException: Option<E> := None;
    calls, sleeps, trace := 0, 0, [];
    var attempt := 0;
    while attempt < maxAttempts
      invariant 0 <= attempt <= Attempts(maxAttempts)
      invariant calls == attempt
      invariant sleeps == (if 0 < attempt == maxAttempts then attempt - 1 else attempt)
      invariant forall i :: 0 <= i < attempt ==> op(args, i).Err?
      invariant lastException == if attempt == 0 then None else Some(op(args, attempt - 1).error)
      invariant trace == TraceUpTo(op, args, maxAttempts, delay, attempt)
    {
      calls := calls + 1;
      trace := trace + [Call(attempt, args)];
      match op(args, attempt) {
        case Ok(v) =>
          EndsEarly(op, args, maxAttempts, delay, attempt);
          SleepCountInTrace(op, args, maxAttempts, delay, calls);
          r := Returned(v);
          return;
        case Fatal(e) =>
          EndsEarly(op, args, maxAttempts, delay, attempt);
          SleepCountInTrace(op, args, maxAttempts, delay, calls);
          r := RaisedFatal(e);
          return;
        case Err(e) =>
          FailedAttempt(op, args, maxAttempts, delay, attempt);
          lastException := Some(e);
          if attempt < maxAttempts - 1 {
            trace := trace + [Warn(attempt + 1, e)];
            sleeps := sleeps + 1;
            trace := trace + [Sleep(delay)];
          } else {
            trace := trace + [ErrorLog(maxAttempts)];
          }
      }
      attempt := attempt + 1;
    }
    Exhausts(op, args, maxAttempts);
    SleepCountInTrace(op, args, maxAttempts, delay, calls);
    match lastException {
      case Some(e) => r := Raised(e);
      case None => r := RaiseNoneTypeError;
    }
  }

  /** The decorator with `max_attempts=3` passed explicitly (the default
      delay is kept, so `delay` is left arbitrary) around a function that
      fails once with an `Exception` and then returns: two calls, one sleep,
      and the second call's value comes back. */
  lemma ThreeAttemptsSucceedOnSecondCall<A, V, E, D>(op: (A, nat) -> Outcome<V, E>, args: A, delay: D, v: V)
    requires op(args, 0).Err?
    requires op(args, 1) == Ok(v)
    ensures Expected(op, args, 3) == Returned(v)
    ensures Calls(op, args, 3) == 2
    ensures Count(ExpectedTrace(op, args, 3, delay), SleepKind) == 1
  {
    SucceedsAfterFailures(op, args, 3, delay, 1, v);
  }

  /** Two permitted attempts around a function that always raises an
      `Exception`: both calls are made and the second call's error is raised. */
  lemma TwoAttemptsAlwaysFailing<A, V, E, D>(op: (A, nat) -> Outcome<V, E>, args: A, delay: D)
    requires forall i :: 0 <= i < 2 ==> op(args, i).Err?
    ensures Expected(op, args, 2) == Raised(op(args, 1).error)
    ensures Calls(op, args, 2) == 2
    ensures Count(ExpectedTrace(op, args, 2, delay), SleepKind) == 1
  {
    AllAttemptsFail(op, args, 2, delay);
    SleepsOnlyBetweenCalls(op, args, 2, delay);
  }
}
