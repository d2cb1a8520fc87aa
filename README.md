# Retry wrapper — a Dafny model

This project models the `retry` decorator of a small Python command-line
template (`src/utils.py`). `retry(max_attempts=3, delay=1.0)` wraps a function.
Each call of the wrapper runs `for attempt in range(max_attempts)`:

- It calls the wrapped function with the wrapper's own arguments. A return
  value is handed back at once.
- If the call raises an `Exception`, the wrapper remembers it. While attempts
  remain, it logs a warning naming attempt `attempt + 1` and sleeps for
  `delay`. After the last permitted attempt it logs "All N attempts failed".
- When the loop ends, it executes `raise last_exception`.

A `BaseException` that is not an `Exception` (KeyboardInterrupt, SystemExit)
is not caught, so it leaves the wrapper from the call that raised it.

Two modules:

- `RetrySpec` (`retry_spec.dfy`) states what a run does, declaratively:
  - the datatypes `Outcome` (what one call does), `Result` (what the caller
    gets) and `Event` (call, warning, sleep and error log, in order);
  - `Calls`: the number of leading calls that raise an `Exception`, plus the
    call that ends the run early;
  - `Expected`: the outcome of the last call, or the TypeError of `raise None`;
  - `ExpectedTrace`: the events of every attempt;
  - the lemmas that state the properties of these functions.
- `Utils` (`utils.dfy`) holds the wrapper loop itself. `Utils.Retry` is a
  method with the same loop, proved against `RetrySpec`. It also holds two
  lemmas that restate the repository's two retry tests.

How the Python code is represented:

- The wrapped function is a total function `op(args, i)`: the outcome of its
  `i`-th call (counted from 0) with the arguments `args`. This lets every
  call behave differently, as the stateful test functions do.
- `*args, **kwargs` are one opaque value `args` of a type parameter.
- Exception objects are values of a type parameter `E`, so "the very object
  raised" is equality.
- `delay` is an opaque value of a type parameter `D`. It is only recorded in
  `Sleep` events.
- `calls` and `sleeps` are counters returned by the method. `trace` is a
  ghost record of the side effects.

The docstring says the decorator retries "function execution on failure"
(src/utils.py:26), and the signature `max_attempts: int = 3`
(src/utils.py:25) suggests a positive count. The code is narrower on the first
point and wider on the second, and the model follows the code:

- The code catches only `Exception`, so `Fatal` outcomes are not retried
  (`FatalStopsRetrying`).
- The code accepts any integer `max_attempts`.
  With `max_attempts <= 0` the loop does not run, `last_exception` is still
  `None`, and `raise None` fails with a TypeError of Python's own
  (`NoAttempts`).

## Model

| member | source | states |
|---|---|---|
| `Utils.Retry` | src/utils.py:25-51 | the wrapper loop returns exactly the declarative result `Expected`, makes exactly `Calls` calls, sleeps calls−1 times (0 when there is no call), and produces exactly `ExpectedTrace`; its sleep counter equals the number of `Sleep` events |
| `RetrySpec.Attempts` | src/utils.py:33 | `range(max_attempts)` permits `max_attempts` iterations when it is positive and none otherwise |
| `RetrySpec.Propagate` | src/utils.py:34-47 | the outcome of the deciding call reaches the caller unchanged: a return value as the value, an `Exception` as a raise of the same object, a non-`Exception` `BaseException` as itself, and never as the `raise None` TypeError |
| `RetrySpec.Expected` | src/utils.py:33-47 | the caller gets the `raise None` TypeError exactly when `max_attempts <= 0`, and the last call's `Exception` is raised exactly when all `max_attempts` permitted calls were made and the last of them raised an `Exception` |
| `RetrySpec.AttemptEvents` | src/utils.py:34-45 | each attempt begins with its call; further events follow exactly when that call raised an `Exception`; a warning and a sleep (three events in all) follow exactly when, in addition, `attempt < max_attempts - 1` |
| `RetrySpec.TraceUpTo` | src/utils.py:33-45 | the first j attempts produce between j and 3j events, and the first of them is call 0 |
| `RetrySpec.ExpectedTrace` | src/utils.py:31-47 | a run has no side effect at all exactly when `max_attempts <= 0`, and otherwise begins with call 0 |
| `RetrySpec.FailuresFrom` | src/utils.py:33-37 | the scan over permitted attempts stops at the first call that does not raise an `Exception`, never beyond `max(max_attempts, 0)`, and every call it skips raised an `Exception` |
| `RetrySpec.LeadingFailuresUnique` | src/utils.py:33-37 | the number of leading `Exception` failures is fixed by its defining facts: all earlier calls failed, and the next one, if permitted, did not |
| `RetrySpec.Calls` | src/utils.py:33-37 | the number of calls, `LeadingFailures` (the leading `Exception` failures, `FailuresFrom` from call 0) plus the call that ends the run early: at most `max_attempts` calls; none exactly when `max_attempts <= 0`; every call but the last raised an `Exception`; a last call before the final permitted attempt did not, and a last call that raised an `Exception` was the final permitted attempt |
| `RetrySpec.FirstCallSucceeds` | src/utils.py:33-35 | a first call that returns `v` gives `v` back unchanged after exactly one call, with no sleep and no log event |
| `RetrySpec.SucceedsAfterFailures` | src/utils.py:33-43 | K `Exception` failures (K < `max_attempts`) followed by a return give K+1 calls, the (K+1)th call's value, and K sleeps |
| `RetrySpec.AllAttemptsFail` | src/utils.py:31-47 | when every permitted call raises an `Exception`, exactly `max_attempts` calls are made, the last call's error object is raised, and "All N attempts failed" is logged once, as the last event |
| `RetrySpec.NoAttempts` | src/utils.py:31-47 | with `max_attempts <= 0` the function is never called, nothing happens, and the result is the TypeError of `raise None` |
| `RetrySpec.FatalStopsRetrying` | src/utils.py:34-36 | a non-`Exception` `BaseException` on call k+1 propagates unchanged after exactly k+1 calls; the run ends with that call, and no error log is written |
| `RetrySpec.EndsEarly` | src/utils.py:33-35 | a run whose first k calls raise an `Exception` and whose next permitted call does not makes k+1 calls, hands on that call's outcome, and its trace ends with that call |
| `RetrySpec.Exhausts` | src/utils.py:33-47 | a run in which every permitted call raises an `Exception` makes `max(max_attempts, 0)` calls and raises the last call's error, or fails with the `raise None` TypeError when `max_attempts <= 0` |
| `RetrySpec.RetriedAttempt` | src/utils.py:36-45 | within a run, another attempt follows attempt i exactly when it raised an `Exception` and `i < max_attempts - 1` |
| `RetrySpec.AttemptShape` | src/utils.py:33-45 | within a run, every non-final attempt is a call, a warning naming `attempt + 1` with its error, and a sleep; the final attempt is a call followed only by the error log, when it failed |
| `RetrySpec.AttemptCounts` | src/utils.py:33-45 | each attempt adds one call; after an `Exception` it adds one warning and one sleep while attempts remain, and the error log otherwise; a return or a non-`Exception` raise adds nothing more |
| `RetrySpec.CallCountInTrace` | src/utils.py:33-35 | the first j attempts make j calls |
| `RetrySpec.CallsCarryArgs` | src/utils.py:33-35 | every call in the first j attempts gets the wrapper's own arguments and an attempt number below j |
| `RetrySpec.CallForEachAttempt` | src/utils.py:33-35 | each attempt number below j is called, with the wrapper's own arguments |
| `RetrySpec.SleepCountInTrace` | src/utils.py:38-43 | after j attempts of a run there is one sleep per completed non-final attempt |
| `RetrySpec.WarnCountInTrace` | src/utils.py:38-42 | after j attempts of a run there is one warning per completed non-final attempt |
| `RetrySpec.SleepsFollowWarningsInTrace` | src/utils.py:38-43 | in the first j attempts every sleep carries the delay, is never the first event, and comes right after a warning |
| `RetrySpec.SleepsPrecedeCallsInTrace` | src/utils.py:33-43 | in the first j attempts every sleep that is not the last event is followed right away by a call |
| `RetrySpec.WarningsNameFailedAttempts` | src/utils.py:38-42 | every warning names a 1-based attempt number below `max_attempts`, and the error it carries is the one that attempt raised |
| `RetrySpec.WarningForEachRetry` | src/utils.py:38-42 | every completed non-final attempt has its warning `attempt + 1`, with its error, in the trace |
| `RetrySpec.ErrorLogCountInTrace` | src/utils.py:44-45 | after j attempts of a run, the error log is present once when j is the final call and that call raised an `Exception`, and is absent otherwise |
| `RetrySpec.ErrorLogLastInTrace` | src/utils.py:44-45 | after j attempts of a run, an error log names `max_attempts` and is the last event |
| `RetrySpec.TraceEndsWithLastAttempt` | src/utils.py:33-47 | a run's trace is empty exactly when no call is made; otherwise it starts with call 0 and ends with the last call, or with the error log when that call raised an `Exception` |
| `RetrySpec.SleepsOnlyBetweenCalls` | src/utils.py:38-45 | a run has exactly calls−1 sleeps; each sleep carries the delay, comes right after a warning and right before the next call, so none comes before the first call or after the final one |
| `RetrySpec.CallsBoundedSameArgs` | src/utils.py:33-35 | the calls never exceed `max(max_attempts, 0)`; each attempt number is called, the number of calls is exactly `Calls`, and every call gets the wrapper's arguments unchanged |
| `RetrySpec.WarningCount` | src/utils.py:38-42 | a run logs exactly calls−1 warnings |
| `RetrySpec.WarningsForRetries` | src/utils.py:38-42 | every failed non-final attempt of a run logs a warning naming `attempt + 1` with its error |
| `RetrySpec.WarningsOnlyForFailures` | src/utils.py:38-42 | a warning is only logged for an attempt that raised an `Exception` and was not the last permitted one, and it carries that error |
| `RetrySpec.ErrorLogOnlyWhenExhausted` | src/utils.py:44-47 | the "All N attempts failed" error is logged once exactly when the last call's `Exception` is raised, always as the last event, and that happens exactly when `max_attempts >= 1` and every permitted call raised an `Exception` |
| `Utils.ThreeAttemptsSucceedOnSecondCall` | tests/test_utils.py:25-39 | with `max_attempts=3` passed explicitly and the default delay kept, a function that fails once and then returns is called twice, sleeps once, and its second result is returned |
| `Utils.TwoAttemptsAlwaysFailing` | tests/test_utils.py:42-50 | with `max_attempts=2` and a function that always raises, two calls are made, one sleep happens, and the second call's error is raised |

## Left out

- `timer` (src/utils.py:11-22): its only content is floating-point wall-clock arithmetic and one log line.
- The text of the log messages, including the function name, the error text and the delay in the warning. The model records which warning or error is logged, with its attempt number, error and `max_attempts`.
- The duration of `time.sleep`. Also, `time.sleep` raises ValueError for a negative delay. When `max_attempts >= 2`, that ValueError would escape the wrapper after the first failure; with `max_attempts <= 1` no sleep is reached. It is not modelled, because `delay` is opaque.
- Building the log messages is assumed never to raise. Both messages are formatted inside the `except` block (src/utils.py:39-45): they read `func.__name__`, and the warning also formats the error. A callable without `__name__` (a `functools.partial`, an instance with `__call__`) or an error whose `__str__` raises would make that formatting raise instead. The new exception would then leave the wrapper after the failing call, without a sleep or a further attempt. The model always logs the warning and the error log.
- A KeyboardInterrupt arriving during `time.sleep` or inside the logger. The logger is treated as one that never raises.
- `raise last_exception` re-raises the same object, and Python adds traceback and context information to it. The model keeps only the object's identity.
- A non-integer `max_attempts`, for which `range` itself raises a TypeError. The model takes `max_attempts` as an integer.
- `functools.wraps` copying the function's name and docstring, and the currying of `retry(...)(func)(*args)` into three closures.
- src/logger.py (handler configuration and file output), src/cli.py (console commands), src/config.py (settings from environment variables) and src/exceptions.py. The exception classes appear only as the opaque error type `E`.
