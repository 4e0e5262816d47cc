# swift-future in Dafny

A model of the core of the Swift library `Future` (Tjek/ShopGun): a
`Future<Response>` is a deferred computation, a `run` procedure that hands
exactly one `Response` to its callback. The library builds everything else
from a few combinators. `map` and `flatMap` chain futures. `zipWith` and
`zip3With` join them in sequence. `batch` runs a list in series. `retry`
re-runs a future while a predicate holds. `debounced` and `throttled` gate
repeated runs. On top of these sit Result-specialised variants that
short-circuit on failure, Optional-specialised variants that short-circuit on
`nil`, and small helpers on Swift's `Result`.

With dispatch queues removed, every run is synchronous and sequential. A
future is therefore modelled as a function from the log of what has happened
so far to the one value it delivers and the extended log (`Futures.Future`).
Returning exactly one `Step` is "the callback is called exactly once". The
log records which instrumented futures (`Futures.Leaf`) were started and
which observer callbacks were called, with what they recorded of their
argument. The log also stands for the state of the world, so the work of
`Future(work:)` and the builder of `Future.build` are functions of the log
at the moment they run. So "`b` is started only after `a` completed",
"`b` is never started" and "the receiver runs three times" become statements
about the log.

The files:

- `results.dfy`: Swift's `Result` and `Optional` with the members the
  library uses (`SwiftTypes`), and `getSuccess`, `getFailure`, `zip` and
  `zipWith` on `Result` (`ResultExtensions`).
- `future.dfy`: the future, its constructors, `map`, `flatMap`, `observe`,
  `zipWith`, `zip3With`, `batch` and `retry`, with the monad laws and the
  sequencing properties (`Futures`).
- `future_result.dfy`: the Result-specialised combinators of
  Sources/Future/Future+Result.swift (`FutureResults`).
- `future_result_legacy.dfy`: the older Result combinators of
  Sources/Future+Result.swift. Its zips are built on the plain `zipWith`, so
  they always run both futures (`LegacyFutureResults`).
- `future_optional.dfy`: the Optional-specialised combinators
  (`FutureOptionals`).
- `rate_control.dfy`: `debounced` and `throttled` as classes
  (`RateControl.Debouncer` and `RateControl.Throttler`). Each has the one
  mutable token of the source (the live work item) and `Run`/`Fire` methods.
  A timer going off is an event. Both gates are proved against independent
  descriptions of which callbacks a history of events calls.

## Model

| member | source | states |
|---|---|---|
| ResultExtensions.GetSuccess | Future/Sources/Result+Extensions.swift:12-14 | present exactly for a success, holding its value |
| ResultExtensions.GetFailure | Future/Sources/Result+Extensions.swift:16-21 | present exactly for a failure, holding its error; exactly one of the two projections is present |
| ResultExtensions.Zip | Future/Sources/Result+Extensions.swift:26-34 | success exactly when both succeed, with the pair; otherwise the left-most failure |
| ResultExtensions.ZipWith | Future/Sources/Result+Extensions.swift:36-38 | success exactly when both succeed, with `combine` of the values; otherwise the left-most error |
| Futures.Value | Sources/Future/Future.swift:17-19 | no contract of its own; `FlatMapLeftIdentity` and `FlatMapRightIdentity` make it the unit of `flatMap`, and `BatchOfValues` shows it delivers its value and starts nothing |
| Futures.Work | Sources/Future/Future.swift:21-23 | no contract of its own; `WorkRunsWhenRun` and `WorkScenario` state that the work is evaluated when run |
| Futures.WorkRunsWhenRun | Sources/Future/Future.swift:21-23 | placed after another future, the work is evaluated on the state that future left, and the log is unchanged |
| Futures.WorkScenario | Sources/Future/Future.swift:21-23 | after an instrumented future ran once, `Future(work:)` counting its starts delivers 1, while `Future(value:)` of the count taken at construction delivers 0 |
| Futures.Build | Sources/Future/Future.swift:29-33 | no contract of its own; `BuildDefers` states that the future is built when run |
| Futures.BuildDefers | Sources/Future/Future.swift:29-33 | placed after another future, `build` constructs its future from the state that future left and runs it there; with a constant builder it is equivalent to the future it builds |
| Futures.Map | Sources/Future/Future.swift:41-50 | no contract of its own; `MapIsFlatMapValue`, `MapFusion` and `AppendsClosed` state its properties |
| Futures.FlatMap | Sources/Future/Future.swift:57-66 | no contract of its own; `FlatMapLeftIdentity`, `FlatMapRightIdentity`, `FlatMapAssociative`, `FlatMapSequential` and `AppendsClosed` state its properties |
| Futures.AppendsClosed | Sources/Future/Future.swift:17-66 | `Future(value:)`, `Future(work:)` and instrumented futures only append to the log; so do `build` of a builder whose futures only append, `map` and `observe` of such a future, and `flatMap` of such futures |
| Futures.ZipsAppend | Sources/Future/Future.swift:272-313 | `zipWith` and `zip3With` of futures that only append only append |
| Futures.BatchAppends | Sources/Future/Future.swift:252-261 | `batch` of futures that only append only appends |
| Futures.RetryAppends | Sources/Future/Future.swift:232-244 | `retry` of a future that only appends only appends |
| Futures.MapIsFlatMapValue | Sources/Future/Future.swift:41-50 | `map(t)` is equivalent to `flatMap` into `Future(value: t(v))` |
| Futures.MapFusion | Sources/Future/Future.swift:41-50 | two `map`s equal one `map` of the composed transforms |
| Futures.FlatMapLeftIdentity | Sources/Future/Future.swift:57-66 | `flatMap` of `Future(value: v)` is equivalent to `transform(v)` |
| Futures.FlatMapRightIdentity | Sources/Future/Future.swift:57-66 | `flatMap` into `Future(value:)` is equivalent to the receiver |
| Futures.FlatMapAssociative | Sources/Future/Future.swift:57-66 | nested `flatMap`s may be regrouped |
| Futures.FlatMapSequential | Sources/Future/Future.swift:57-66 | for futures that only append to the log, the receiver's whole log precedes the result's, and the result's value is that of the future built from the receiver's value, started where the receiver ended |
| Futures.Observe | Sources/Future/Future.swift:94-107 | no contract of its own; `ObserveKeepsValue` states its properties |
| Futures.ObserveKeepsValue | Sources/Future/Future.swift:94-107 | `observe` delivers the receiver's value unchanged and calls its callback once, after the receiver, passing it the receiver's value |
| Futures.FunctionalScenario | Tests/FutureTests.swift:29-44 | `Future(value: 2)` observed, `flatMap`ped into a doubling `Future(work:)` and observed again passes 2 to the first callback and 4 to the second, and delivers 4 |
| Futures.ZipWith | Sources/Future/Future.swift:272-285 | no contract of its own; `ZipWithIsSequential` states its properties |
| Futures.Zip3With | Sources/Future/Future.swift:297-313 | no contract of its own; `Zip3WithIsSequential` states its properties |
| Futures.Batch | Sources/Future/Future.swift:252-261 | no contract of its own; `BatchInSeries` and `BatchOfValues` state its properties |
| Futures.Retry | Sources/Future/Future.swift:232-244 | no contract of its own; `RetryDeliversLastAttempt`, `RetryBound` and `RetryScenario` state its properties against `Attempts` |
| Futures.ZipWithIsSequential | Sources/Future/Future.swift:272-285 | `zipWith` is equivalent to `a.flatMap { x in b.map { combine(x, $0) } }`: `b` starts only after `a` completed |
| Futures.Zip3WithIsSequential | Sources/Future/Future.swift:297-313 | `zip3With` runs `a`, then `b`, then `c`, each after the previous one completed |
| Futures.BatchInSeries | Sources/Future/Future.swift:252-261 | `batch` delivers one value per future in input order; future `i` starts on the log future `i-1` left; the batch leaves the log of the whole series |
| Futures.BatchOfValues | Sources/Future/Future.swift:252-261 | a batch of `Future(value:)`s delivers exactly their values, in order, and starts nothing |
| Futures.Attempts | Sources/Future/Future.swift:232-244 | the attempts `retry` makes: at least one and at most `max(times,0)+1`; each starts on the log the previous one left; all but the last satisfy the predicate; the last fails it unless the attempts ran out |
| Futures.RetryDeliversLastAttempt | Sources/Future/Future.swift:232-244 | `retry` delivers the value and log of its last attempt |
| Futures.LeafAttempt | Sources/Future/Future.swift:232-244 | with an instrumented receiver, attempt `i` gets the receiver's next outcome and counts exactly one more start |
| Futures.RetryBound | Sources/Future/Future.swift:232-244 | `retry` runs the receiver at least once and at most `max(times,0)+1` times; exactly once, unchanged, when `times <= 0` |
| Futures.RetryScenario | Sources/Future/Future.swift:232-244 | `retry(times: 2)` with a predicate true for the first two outcomes runs the receiver three times and delivers the third outcome |
| FutureResults.MapResult | Sources/Future/Future+Result.swift:11-17 | no contract of its own; `MapResultOnlySuccess` states its properties |
| FutureResults.MapResultError | Sources/Future/Future+Result.swift:19-25 | no contract of its own; `MapResultErrorOnlyFailure` states its properties |
| FutureResults.FlatMapResult | Sources/Future/Future+Result.swift:27-42 | no contract of its own; `FlatMapResultShortCircuits` states its properties |
| FutureResults.FlatMapResultError | Sources/Future/Future+Result.swift:44-59 | no contract of its own; `FlatMapResultErrorRecovers` states its properties |
| FutureResults.ObserveResultSuccess | Sources/Future/Future+Result.swift:78-92 | no contract of its own; `ObserveResultKeepsValue` states its properties |
| FutureResults.ObserveResultError | Sources/Future/Future+Result.swift:94-108 | no contract of its own; `ObserveResultKeepsValue` states its properties |
| FutureResults.ReplaceError | Sources/Future/Future+Result.swift:110-121 | no contract of its own; `ReplaceErrorTotal` states its properties |
| FutureResults.RetryResult | Sources/Future/Future+Result.swift:128-143 | no contract of its own; `RetryResultAttempts` and `RetryResultDefaults` state its properties |
| FutureResults.BatchResult | Sources/Future/Future+Result.swift:146-160 | no contract of its own; `BatchResultAllSucceed`, `BatchResultFirstFailure` and `BatchResultScenario` state its properties |
| FutureResults.ZipResultWith | Sources/Future/Future+Result.swift:176-187 | no contract of its own; `ZipResultWithShortCircuits` and `ZipResultNeverStartsSecond` state its properties |
| FutureResults.ZipResult3With | Sources/Future/Future+Result.swift:198-212 | no contract of its own; `ZipResult3WithShortCircuits` states its properties |
| FutureResults.ResultTransformersAppend | Sources/Future/Future+Result.swift:11-59 | `mapResult` and `mapResultError` of a future that only appends only append; so do `flatMapResult` and `flatMapResultError` when every future the transform builds only appends |
| FutureResults.ResultWrappersAppend | Sources/Future/Future+Result.swift:78-143 | `observeResultSuccess`, `observeResultError`, `replaceError` and `retryResult` of a future that only appends only append |
| FutureResults.ZipResultsAppend | Sources/Future/Future+Result.swift:176-212 | `zipResultWith` and `zipResult3With` of futures that only append only append |
| FutureResults.BatchResultAppends | Sources/Future/Future+Result.swift:146-160 | `batchResult` of futures that only append only appends |
| FutureResults.MapResultOnlySuccess | Sources/Future/Future+Result.swift:11-17 | `mapResult` transforms only a success; a failure passes through; nothing else runs |
| FutureResults.MapResultErrorOnlyFailure | Sources/Future/Future+Result.swift:19-25 | `mapResultError` transforms only a failure; a success passes through |
| FutureResults.FlatMapResultShortCircuits | Sources/Future/Future+Result.swift:27-42 | on a failure `flatMapResult` delivers it with the receiver's log, for every transform; on a success it runs the transform's future next |
| FutureResults.FlatMapResultErrorRecovers | Sources/Future/Future+Result.swift:44-59 | on a success `flatMapResultError` passes it through; on a failure it runs the transform's future next |
| FutureResults.ObserveResultKeepsValue | Sources/Future/Future+Result.swift:78-108 | both Result observers deliver the value unchanged and call their callback exactly when the case matches, passing it the success value or the error |
| FutureResults.ReplaceErrorTotal | Sources/Future/Future+Result.swift:110-121 | a success gives its value, a failure gives `errorMap(error)`; the log is the receiver's |
| FutureResults.RetryResultAttempts | Sources/Future/Future+Result.swift:128-143 | `retryResult` retries a failure when `whileFailure` holds and a success when `whileSuccess` holds, and delivers the last attempt |
| FutureResults.RetryResultDefaults | Sources/Future/Future+Result.swift:128-143 | with the default predicates every attempt but the last failed, and the last fails only when the attempts ran out |
| FutureResults.BatchResultAllSucceed | Sources/Future/Future+Result.swift:146-160 | when every future succeeds, `batchResult` delivers all success values in order and leaves the log of the whole series |
| FutureResults.BatchResultFirstFailure | Sources/Future/Future+Result.swift:146-160 | when future `k` is the first to fail, `batchResult` delivers its error and no future after `k` is started |
| FutureResults.BatchResultScenario | Sources/Future/Future+Result.swift:146-160 | success, success, failure, then an instrumented future: the failure is delivered and the last future is never started |
| FutureResults.ZipResultWithShortCircuits | Sources/Future/Future+Result.swift:176-187 | a failing `a` is delivered without running `b`; otherwise the result is `Result.zipWith` of the two, with `b` run after `a` |
| FutureResults.ZipResultNeverStartsSecond | Sources/Future/Future+Result.swift:176-187 | when `a` fails, an instrumented `b` is never started |
| FutureResults.ZipResult3WithShortCircuits | Sources/Future/Future+Result.swift:198-212 | `zipResult3With` stops at the first failure, running nothing after it; all successes are combined |
| LegacyFutureResults.MapResult | Sources/Future+Result.swift:16-22 | no contract of its own; `TransformersAgreeWithCurrent` states its properties |
| LegacyFutureResults.MapResultError | Sources/Future+Result.swift:24-30 | no contract of its own; `TransformersAgreeWithCurrent` states its properties |
| LegacyFutureResults.FlatMapResult | Sources/Future+Result.swift:32-47 | no contract of its own; `TransformersAgreeWithCurrent` states its properties |
| LegacyFutureResults.FlatMapResultError | Sources/Future+Result.swift:49-64 | no contract of its own; `TransformersAgreeWithCurrent` states its properties |
| LegacyFutureResults.ZipResultWith | Sources/Future+Result.swift:114-129 | no contract of its own; `ZipResultWithRunsBoth` and `ZipVersionsContrast` state its properties |
| LegacyFutureResults.ZipResult3With | Sources/Future+Result.swift:140-157 | no contract of its own; `ZipResult3WithRunsAll` and `PickResult3` state its properties |
| LegacyFutureResults.LegacyCombinatorsAppend | Sources/Future+Result.swift:16-157 | the older transformers and zips of futures that only append only append |
| LegacyFutureResults.TransformersAgreeWithCurrent | Sources/Future+Result.swift:16-64 | the older `mapResult`, `mapResultError`, `flatMapResult` and `flatMapResultError` are equivalent to the current ones |
| LegacyFutureResults.ZipResultWithRunsBoth | Sources/Future+Result.swift:114-129 | the older `zipResultWith` always runs `a` and then `b` and delivers `Result.zipWith` of the two results |
| LegacyFutureResults.PickResult3 | Sources/Future+Result.swift:140-157 | the combine closure gives a success exactly when all three succeed, else the left-most failure |
| LegacyFutureResults.ZipResult3WithRunsAll | Sources/Future+Result.swift:140-157 | the older `zipResult3With` always runs `a`, `b` and `c` in order |
| LegacyFutureResults.ZipVersionsContrast | Sources/Future+Result.swift:114-129 | for a failing `a`, both `zipResultWith`s deliver its failure, but only the older one starts `b` |
| FutureOptionals.MapOptional | Sources/Future+Optional.swift:16-22 | no contract of its own; `MapOptionalOnlySome` states its properties |
| FutureOptionals.FlatMapOptional | Sources/Future+Optional.swift:24-38 | no contract of its own; `FlatMapOptionalShortCircuits` states its properties |
| FutureOptionals.FlatMapOptionalNone | Sources/Future+Optional.swift:40-54 | no contract of its own; `FlatMapOptionalNoneRecovers` states its properties |
| FutureOptionals.ZippedWithOptional | Sources/Future+Optional.swift:64-78 | no contract of its own; `ZippedWithOptionalBothPresent` states its properties |
| FutureOptionals.ObserveOptionalSome | Sources/Future+Optional.swift:80-94 | no contract of its own; `ObserveOptionalSomeKeepsValue` states its properties |
| FutureOptionals.ReplaceNone | Sources/Future+Optional.swift:96-107 | no contract of its own; `ReplaceNoneTotal` states its properties |
| FutureOptionals.RetryOptional | Sources/Future+Optional.swift:109-122 | no contract of its own; `RetryOptionalAttempts` and `RetryOptionalDefault` state its properties |
| FutureOptionals.OptionalCombinatorsAppend | Sources/Future+Optional.swift:16-122 | every Optional combinator of futures that only append only appends |
| FutureOptionals.MapOptionalOnlySome | Sources/Future+Optional.swift:16-22 | `mapOptional` transforms only a present value; `nil` stays `nil` |
| FutureOptionals.FlatMapOptionalShortCircuits | Sources/Future+Optional.swift:24-38 | on `nil` delivers `nil` with the receiver's log, for every transform; on a value runs the transform's future next |
| FutureOptionals.FlatMapOptionalNoneRecovers | Sources/Future+Optional.swift:40-54 | a present value passes through; `nil` runs the transform's future |
| FutureOptionals.ZippedWithOptionalBothPresent | Sources/Future+Optional.swift:64-78 | both futures always run, in order; the result is present exactly when both values are, and is their combination |
| FutureOptionals.ObserveOptionalSomeKeepsValue | Sources/Future+Optional.swift:80-94 | delivers the optional unchanged; calls the callback exactly when a value is present, passing it the unwrapped value |
| FutureOptionals.ReplaceNoneTotal | Sources/Future+Optional.swift:96-107 | a value gives itself, `nil` gives `noneValue()`; the log is the receiver's |
| FutureOptionals.RetryOptionalAttempts | Sources/Future+Optional.swift:109-122 | every attempt but the last is `nil` or satisfies `while`; unless the attempts ran out, the last is a value failing `while` |
| FutureOptionals.RetryOptionalDefault | Sources/Future+Optional.swift:109-122 | with the default `while`, only `nil` is retried |
| RateControl.GateStep | Sources/Future/Future.swift:196-230 | no contract of its own; one event of either gate, specified through `Gate` by `DebounceCallsCoalesced`, `ThrottleCallsLeading` and `GateRunsReceiverOncePerCall` |
| RateControl.Gate | Sources/Future/Future.swift:196-230 | no contract of its own; the state after a history of events, with the same lemmas |
| RateControl.Debouncer.CallsCoalesced | Sources/Future/Future.swift:196-206 | a debounced future has called exactly the runs of its history directly followed by a timer event, in order |
| RateControl.Throttler.CallsLeading | Sources/Future/Future.swift:218-230 | a throttled future has called exactly the first run of every window of its history that a timer event closed, in order |
| RateControl.Debouncer.constructor | Sources/Future/Future.swift:196-198 | a new debounced future has no live work item and has called nothing |
| RateControl.Debouncer.Run | Sources/Future/Future.swift:200-205 | `run(cb)` replaces the live work item by one for `cb`; nothing is called |
| RateControl.Debouncer.Fire | Sources/Future/Future.swift:201-203 | the live work item runs the receiver once and hands its value to its callback; a timer on an idle gate changes nothing |
| RateControl.Throttler.constructor | Sources/Future/Future.swift:218-220 | a new throttled future has no live work item and has called nothing |
| RateControl.Throttler.Run | Sources/Future/Future.swift:220-229 | `run(cb)` is ignored while a work item is live; otherwise it schedules one for `cb` |
| RateControl.Throttler.Fire | Sources/Future/Future.swift:223-226 | the live work item runs the receiver, hands its value to its callback and resets the token |
| RateControl.DebounceCallsCoalesced | Sources/Future/Future.swift:196-206 | the debounce calls exactly the runs directly followed by a timer event, in order; a work item is live exactly when the last event was a run |
| RateControl.CoalescedMembers | Sources/Future/Future.swift:196-206 | a callback is called exactly when its run is directly followed by a timer event |
| RateControl.DebounceNeverCallsSuperseded | Sources/Future/Future.swift:196-206 | a run followed by another run before its timer is never called |
| RateControl.WindowIsTail | Sources/Future/Future.swift:218-230 | the current window is the run-only tail of the history after its last timer event |
| RateControl.ThrottlePendingFirstOfWindow | Sources/Future/Future.swift:218-230 | a throttle work item is live exactly when the current window is not empty, and it belongs to the window's first run |
| RateControl.ThrottleCallsLeading | Sources/Future/Future.swift:218-230 | the throttle calls exactly the first run of every window a timer event closes, in order |
| RateControl.LeadingOpensWindow | Sources/Future/Future.swift:218-230 | every called throttle callback belongs to the first run of its window |
| RateControl.LeadingHasClosedOpeners | Sources/Future/Future.swift:218-230 | the first run of every window that a timer closes is called |
| RateControl.ThrottleNeverCallsDropped | Sources/Future/Future.swift:218-230 | a run made while a work item is live is never called |
| RateControl.GateRunsReceiverOncePerCall | Sources/Future/Future.swift:196-230 | either gate runs the receiver exactly once per called callback; the k-th callback gets the receiver's k-th outcome |
| RateControl.BurstScenario | Sources/Future/Future.swift:196-230 | three runs and one timer: the debounce calls the last callback, the throttle the first |
| RateControl.DebouncePeriodsScenario | Sources/Future/Future.swift:196-206 | two periods of runs, with a timer on an idle gate between them: the last callback of each period is called |
| RateControl.ThrottlePeriodsScenario | Sources/Future/Future.swift:218-230 | the same events on a throttle: the first callback of each period is called |

## Left out

- Dispatch queues: the `on queue:` branch of `observe` and of the
  Result/Optional observers, `receiving`, `performing`, `async` and
  `asyncOnMain`. The model is single-threaded, so they would add only
  scheduling.
- `parallel`, `parallelWith`, `parallel3` and `parallel3With`. They start
  every participant on a global queue with `async(on:completesOn:)`, store
  each response in a captured optional and call the callback from whichever
  completion finds all of them present. That is concurrency, with no order
  between the participants.
- `fireAndForget`. It runs the future with a callback that ignores the value,
  which is `run` itself here.
- `Future(run:)` with an arbitrary procedure. The model only has procedures
  that call their callback exactly once. A Swift procedure that never calls
  it, or calls it twice, cannot be written as a `Futures.Future`.
- `eraseToAnyError`. It only widens the error type to `Error`. Dafny has no
  existential error type to widen to, and the value is unchanged.
- The tuple-forming variants `zip`, `zip3`, `zipped`, `zippedResult`,
  `zipResult`, `zipResult3` and `zippedOptional`. Each is its `With`
  counterpart with a combine that builds a tuple. The methods `zippedWith`
  and `zippedWithResult` only forward to the free functions.
- The `Future+Measure`, `Future+Foundation` wrappers (clocks, floating point,
  printing, JSON, URLSession) and the superseded copies under `Future/Sources`
  other than `Result+Extensions.swift`.
- The older `observeResultSuccess`/`observeResultError` in
  Sources/Future+Result.swift. They are identical to the current ones.
- `debounced`/`throttled`: the real `delay` and the race on the shared token
  when `run` is called from several threads. Time is reduced to the order of
  events, and the timer event always concerns the live work item, since a
  cancelled item never runs.
- `RateControl.Debouncer` and `RateControl.Throttler` are modelled in
  isolation. When the timer goes off, the receiver runs on the gate's own
  log: its start log plus the gate's earlier runs of the receiver. In the
  source the work item runs the receiver in whatever state the rest of the
  program has reached by then. So effects made elsewhere between a `run` and
  its timer are not seen by the receiver. `RateControl.GateRunsReceiverOncePerCall`'s
  "the k-th callback gets the k-th outcome" depends on this: nothing outside
  the gate starts the receiver.
- `RateControl.Debouncer.Fire`: after its item has run, the source's debounce
  token still points to the executed item rather than `nil`. The model says
  "no live item" instead. Cancelling an executed item does nothing, so the
  behaviour is the same.
- `RateControl.Throttler.Fire`: the source resets the token only after
  `self.run(cb)` returns. A `run` made from inside the callback would
  therefore be dropped. The model does not cover re-entrant runs.
- `Futures.Work` and `Futures.Build`: the work and the builder only read the
  state of the world (the log); they add nothing to it. A `work` closure with
  side effects is modelled by `Futures.Leaf`, whose run is recorded and whose
  outcomes depend on how often it was started.
- Transforms, combine closures and retry predicates are pure functions. A
  Swift closure with side effects would have them at the moment the
  combinator calls it, which the model does not record.
- Observer callbacks are modelled by an observer id and what the callback
  records of its argument, a natural number the caller chooses. With a
  one-to-one choice the log tells which argument was passed. An arbitrary
  side effect is not modelled.
- Futures made with `Future(run:)` may, in the model, rewrite the log.
  `Future(value:)`, `Future(work:)` and instrumented futures only append to
  it, and every combinator of the model preserves that: `Futures.AppendsClosed`,
  `Futures.ZipsAppend`, `Futures.BatchAppends`, `Futures.RetryAppends`,
  `FutureResults.ResultTransformersAppend`, `FutureResults.ResultWrappersAppend`,
  `FutureResults.ZipResultsAppend`, `FutureResults.BatchResultAppends`,
  `LegacyFutureResults.LegacyCombinatorsAppend` and
  `FutureOptionals.OptionalCombinatorsAppend`. `Futures.FlatMapSequential`
  assumes it of its two futures.
