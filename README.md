# SinkEmAll error shooting, modelled in Dafny

SinkEmAll extends RxSwift observables with `shootError`, an operator that
intercepts the errors of a sequence. The game is battleships. An error of
the stage's target type goes to a *shooter*, together with an attempt
number. The shooter answers with one `Shot`:

- `miss`: resubscribe to the source;
- `hit(e)`: fail with `e`;
- `sink`: complete gracefully.

An error of any other type passes through unchanged. Stages chain by plain
composition. A failure that leaves an inner stage, whether rethrown or a
hit, is an ordinary error for the next stage. The prebuilt policy
`retryThenSinkError` is such a two-stage chain:

- stage 1 retries retriable errors up to a cap, then sinks them;
- stage 2 sinks every error of a target type.

The cap `maxAttempts` counts subscriptions, as the code computes it. Stage 1
misses only while `attempt < maxAttempts - 1`. So a cap of N allows N - 1
retries, and a cap of 0 or 1 allows none.

The model has five modules:

- `Errors` (errors.dfy): a closed `Error` datatype. It holds the concrete
  type, the `RetriableError` flag `canRetry` (present only for types that
  adopt the protocol) and whether the type adopts `DescribableError`. A
  `Target` names what a stage handles: `Error` itself, one concrete type, or
  one of the two protocols. `Matches` stands in for `error as? Target`.
- `ErrorShooting` (shooting.dfy): `Shot`, and `Reply`, the single result of a
  shooter (a shot, or a failure of the shooter itself). The shooter types
  live here too, and so does the adapter that turns an `ErrorShooting`
  object (callback style) into a shooter.
- `Interception` (interception.dfy): the operator. A source is a list of
  runs. Each subscription replays the next run, which emits values and then
  completes or fails. A `Pipeline` is the source wrapped in any number of
  `Shoot` stages. `Trace`/`StageTrace` give the outcome of one subscription:
  - the values forwarded;
  - how the output ended;
  - the next unused run;
  - the calls the outermost stage made to its shooter.

  `Subscribe` is the retry loop itself, with its attempt counter, and is
  proved to produce exactly `Trace`.
- `RetryThenSink` (retry_policy.dfy): the prebuilt policy and its bounds.
- `Scenarios` (scenarios.dfy): the documented behaviours on concrete
  sources, and the example application's handler chain.

Each subscription of a stage starts its own attempt counter at 0, as the
`retryWhen` closure creates a fresh `enumerated()` per subscription. So
when an outer stage misses and resubscribes an inner stage, the inner
counter starts again from 0.

A hit from an earlier stage reaches the later stages as an ordinary error,
and they may match and sink it. The model follows the code here: `retryWhen`
fails its output with the hit's error, and the next operator receives it.
The doc comment of `Shot.hit` ("throw an error to the next handler") says
the same, and the example application's chain (a logger that always hits,
followed by a stage that sinks) relies on it.

## Model

| member | source | states |
|---|---|---|
| `ErrorShooting.FromCallback` | Sources/Rx+ErrorShooting.swift:97-107 | an `ErrorShooting` object adapted to a shooter answers every call with exactly the one shot it passed to its completion, and never fails |
| `Interception.Interpret` | Sources/Rx+ErrorShooting.swift:55-63 | the interpretation of replies is exhaustive and each reply has exactly one meaning: resubscribe iff miss, complete iff sink, fail iff hit or shooter failure (with that error), never an exhausted end |
| `Interception.Trace` | Sources/Rx+ErrorShooting.swift:42-66 | a subscription to any pipeline consumes runs forward from `pos` only, and any output that is not cut off by the end of the listed runs consumed at least one run |
| `Interception.StageTrace` | Sources/Rx+ErrorShooting.swift:44-65 | the same bounds for one stage's retry loop from any attempt number; this is what makes each resubscription advance through the source |
| `Interception.ShootError` | Sources/Rx+ErrorShooting.swift:19-22 | `shootError` with a target type wraps the given pipeline in one stage with that target and that shooter |
| `Interception.ShootAnyError` | Sources/Rx+ErrorShooting.swift:28-31 | `shootError` whose shooter takes `Error` builds a stage that targets every error and uses the given shooter |
| `Interception.ShootErrorWith` | Sources/Rx+ErrorShooting.swift:37-40 | `shootError(with:)` builds a stage with the object's target type whose shooter answers with the object's completion shot |
| `Interception.Subscribe` | Sources/Rx+ErrorShooting.swift:42-66 | the imperative retry loop (subscribe, forward values, filter by target, ask the shooter with the current attempt, then resubscribe, fail or complete) produces exactly the outcome `Trace` specifies |
| `Interception.TraceValues` | Sources/Rx+ErrorShooting.swift:44-65 | any pipeline forwards exactly the values of the source runs it consumed, in order: nothing is lost, replayed or reordered around a retry |
| `Interception.StageValues` | Sources/Rx+ErrorShooting.swift:44-65 | the same for one stage's retry loop started at any attempt |
| `Interception.StageCalls` | Sources/Rx+ErrorShooting.swift:45-53 | from attempt `k` on, a stage's shooter calls carry attempts k, k+1, ... in order, only for targeted errors, each recording the shooter's reply; all but the last were misses |
| `Interception.AttemptNumbering` | Sources/Rx+ErrorShooting.swift:45-53 | every subscription of a stage numbers its shooter calls 0, 1, 2, ..., and call k answers the error that ended the stage's (k+1)-th subscription to its inner pipeline |
| `Interception.SubscriptionStart` | Sources/Rx+ErrorShooting.swift:45-58 | within one stage loop, the first subscription to the inner pipeline starts at `pos` and each later one starts exactly at the next unused run left by the previous one; so each starts at or after the previous one, and strictly after it unless the previous one found the listed runs used up |
| `Interception.StageCallErrors` | Sources/Rx+ErrorShooting.swift:46-53 | from any attempt on, each shooter call answers the failure of the matching subscription to the inner pipeline |
| `Interception.NoFailurePassesThrough` | Sources/Rx+ErrorShooting.swift:42-66 | a source subscription that completes passes through any chain of stages unchanged (same values, completion, one run) and no shooter is called |
| `Interception.UnmatchedPassesThrough` | Sources/Rx+ErrorShooting.swift:49-51 | an error not of the target type is rethrown unchanged, after the same values, with no shooter call and no attempt used, in the first subscription or after any number of misses |
| `Interception.MissResubscribes` | Sources/Rx+ErrorShooting.swift:57-58 | a miss resubscribes at the next unused run with the next attempt; the output is the failed run's values followed by the retry's |
| `Interception.HitFails` | Sources/Rx+ErrorShooting.swift:59-60 | a hit ends the output with the hit's error, even when it differs from the triggering error, keeping the values already emitted |
| `Interception.SinkCompletes` | Sources/Rx+ErrorShooting.swift:61-62 | a sink ends the output with completion and keeps the values emitted before the failure |
| `Interception.ShooterFailurePropagates` | Sources/Rx+ErrorShooting.swift:48-53 | a shooter that fails ends the output with the shooter's own failure |
| `Interception.NoHitNoTargetedFailure` | Sources/ErrorShooting.swift:12-14 | when a shooter only misses or sinks, no error of the stage's target type ever leaves the stage |
| `Interception.ChainedSinkCatchesInnerFailure` | Sources/ErrorShooting.swift:13 | a failure that ends an inner stage, including a hit, reaches the outer stage as an ordinary error; if the outer stage targets it and sinks, the chain completes |
| `Interception.SourceStageSubscriptions` | Sources/Rx+ErrorShooting.swift:45-58 | a stage over the source subscribes once per shooter call, plus once more when its last call was a miss or it made none (that last subscription may find the listed runs used up); call i answers the failure of run `pos + i` |
| `RetryThenSink.AllowedSubscriptions` | Sources/Rx+ErrorShooting.swift:80 | the number of subscriptions the retry stage allows is `maxAttempts`, and at least 1 |
| `RetryThenSink.RetryShooter` | Sources/Rx+ErrorShooting.swift:79-81 | the retry stage's shooter misses iff `canRetry && attempt < maxAttempts - 1`, and sinks otherwise |
| `RetryThenSink.SinkShooter` | Sources/Rx+ErrorShooting.swift:82-84 | the second stage's shooter sinks on every call |
| `RetryThenSink.RetryThenSinkError` | Sources/Rx+ErrorShooting.swift:78-85 | the policy is exactly the retry stage (target `RetriableError`, `RetryShooter`) wrapped in a sinking stage for the given target type, around the given pipeline (default cap `Int.max`) |
| `RetryThenSink.RetryThenSinkAnyError` | Sources/Rx+ErrorShooting.swift:91-93 | the overload without a target type is the policy with target `Error`, which matches every error |
| `RetryThenSink.RetryStageDecisions` | Sources/Rx+ErrorShooting.swift:79-81 | the retry stage misses at call i iff the error can retry and i < maxAttempts - 1, and otherwise sinks; only non-retriable errors leave it as failures |
| `RetryThenSink.RetrySubscriptionBound` | Sources/Rx+ErrorShooting.swift:78-81 | over a source, the retry stage subscribes at most max(maxAttempts, 1) times, whatever the errors |
| `RetryThenSink.RetryUntilCap` | Sources/Rx+ErrorShooting.swift:78-81 | against a source that keeps failing with a retriable error that can retry, the stage subscribes exactly max(maxAttempts, 1) times, then sinks and completes |
| `RetryThenSink.PolicySubscriptionBound` | Sources/Rx+ErrorShooting.swift:78-85 | the whole policy over a source subscribes at most max(maxAttempts, 1) times, whatever the errors |
| `RetryThenSink.PolicyRetriesUntilCap` | Sources/Rx+ErrorShooting.swift:78-85 | the whole policy against a source that keeps failing with a retriable error that can retry subscribes exactly max(maxAttempts, 1) times, then completes |
| `RetryThenSink.SinkAtOnce` | Sources/Rx+ErrorShooting.swift:80 | a retriable error with `canRetry == false`, or any retriable error under a cap of at most 1 (0 included), is sunk on first occurrence |
| `RetryThenSink.SinkStageOnlySinks` | Sources/Rx+ErrorShooting.swift:82-84 | the second stage never misses: it makes at most one call per subscription, and that call is a sink |
| `RetryThenSink.NonRetriableSunkAtOnce` | Sources/Rx+ErrorShooting.swift:82-84 | a non-retriable error of the target type is sunk on its first occurrence, after one subscription |
| `RetryThenSink.AnyErrorNeverFails` | Sources/Rx+ErrorShooting.swift:91-93 | with the default target `Error`, the policy's output never ends in failure, over any pipeline |
| `Scenarios.AlwaysFailing` | Example/Tests/Rx+ErrorShootingSpec.swift:37 | `Observable<Int>.error(ErrorStub())` subscribed n times: n runs, each emitting nothing and failing with `ErrorStub` |
| `Scenarios.OffTargetErrorRethrown` | Example/Tests/Rx+ErrorShootingSpec.swift:35-42 | an `ErrorStub` against an `AnotherErrorStub` target is rethrown and the shooter is not called |
| `Scenarios.AttemptsPassedToShooter` | Example/Tests/Rx+ErrorShootingSpec.swift:45-51 | against an always-failing source, "miss at 0, sink at 1" gives an empty successful output after attempts 0 and 1 |
| `Scenarios.MissRestartsSource` | Example/Tests/Rx+ErrorShootingSpec.swift:53-67 | runs [fail] then [2, complete] with an always-missing shooter give exactly [2] and completion |
| `Scenarios.HitSendsError` | Example/Tests/Rx+ErrorShootingSpec.swift:69-77 | a hit with the triggering error fails the output with that error |
| `Scenarios.SinkRecovers` | Example/Tests/Rx+ErrorShootingSpec.swift:79-87 | [2, fail] with a sinking shooter gives [2] and completion |
| `Scenarios.NoErrorsUnaffected` | Example/Tests/Rx+ErrorShootingSpec.swift:91-98 | [1, 2, complete] passes unchanged, and the shooter is never called |
| `Scenarios.Logger` | Example/SinkEmAll/ViewController.swift:97-102 | the example's console logger answers every call with a hit carrying the very error it was given |
| `Scenarios.LoggedErrorIsSunk` | Example/SinkEmAll/ViewController.swift:36-42 | in the example chain the logger hits with the describable error it logged; the next stage sinks that hit, so the whole chain completes |

## Left out

- Reactive runtime: schedulers (`observeOn`), disposal, cancellation and the asynchrony of a shooter's reply. A subscription is modelled as one sequential run. Cancellation while a shot is pending is not modelled.
- A shooter that never answers: in the library the stage then waits forever. Every modelled shooter answers each call with exactly one reply.
- The `[weak self]` capture in the callback adapter: when the object is gone, the single never fires. Object lifetime is not modelled.
- Sources are finite lists of runs. Subscribing past the last listed run ends the trace with `Exhausted`. This marks the limit of what a model trace observes and is not a behaviour of the library. A stage forwards `Exhausted` unchanged.
- Error types are a closed datatype, and `Matches` replaces Swift's dynamic cast. An error's concrete type and protocol conformances are its fields.
- `DescribableError` and its `Level`: the operator never reads them. Only the example logger prints the message, and printing is I/O.
- The example application's interactive alert stage (`shootError(with: self)`) is UI. `Scenarios.LoggedErrorIsSunk` models the rest of that chain.
- Shooters are deterministic functions of (error, attempt). A shooter whose answer depends on anything else, such as the user's choice in the example's alert or state a closure captures, is not represented. So an inner stage resubscribed by an outer miss gives the same answer at attempt 0 again.
- Every source run terminates, with completion or an error. A subscription that never terminates cannot be represented.
- `maxAttempts` is a mathematical integer. Swift's trap on `maxAttempts - 1` for `Int.min` is not modelled.
