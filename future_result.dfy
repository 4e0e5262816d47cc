/** The Result-specialised combinators of Sources/Future/Future+Result.swift.
    A `Future<Result<S, E>>` short-circuits on failure: once a failure is
    delivered, later transforms are not called and later futures are not
    started. */
module FutureResults {
  import opened SwiftTypes
  import opened Futures
  import ResultExtensions

  /** `mapResult`: `map` with `Result.map`. */
  function MapResult<S, T, E>(f: Future<Result<S, E>>, transform: S -> T): Future<Result<T, E>> {
    Map(f, (r: Result<S, E>) => r.Map(transform))
  }

  /** `mapResultError`: `map` with `Result.mapError`. */
  function MapResultError<S, E, F>(f: Future<Result<S, E>>, transform: E -> F): Future<Result<S, F>> {
    Map(f, (r: Result<S, E>) => r.MapError(transform))
  }

  /** `flatMapResult`: on success runs the future `transform` builds; on
      failure hands the failure on without calling `transform`. */
  function FlatMapResult<S, T, E>(f: Future<Result<S, E>>, transform: S -> Future<Result<T, E>>): Future<Result<T, E>> {
    FlatMap(f, (r: Result<S, E>) =>
      Future((l: Log) =>
        match r
        case Success(s) => transform(s).run(l)
        case Failure(e) => Step(Failure(e), l)))
  }

  /** `flatMapResultError`: the mirror image, recovering from a failure. */
  function FlatMapResultError<S, E, F>(f: Future<Result<S, E>>, transform: E -> Future<Result<S, F>>): Future<Result<S, F>> {
    FlatMap(f, (r: Result<S, E>) =>
      Future((l: Log) =>
        match r
        case Success(s) => Step(Success(s), l)
        case Failure(e) => transform(e).run(l)))
  }

  /** `observeResultSuccess` without a queue: the callback `observer`, which
      records `record` of its argument, is passed the success value. */
  function ObserveResultSuccess<S, E>(f: Future<Result<S, E>>, observer: ObserverId, record: S -> nat): Future<Result<S, E>> {
    Tap(f, observer, (r: Result<S, E>) => if r.Success? then Some(record(r.value)) else None)
  }

  /** `observeResultError` without a queue: the callback is passed the error. */
  function ObserveResultError<S, E>(f: Future<Result<S, E>>, observer: ObserverId, record: E -> nat): Future<Result<S, E>> {
    Tap(f, observer, (r: Result<S, E>) => if r.Failure? then Some(record(r.error)) else None)
  }

  /** `replaceError(with:)`: a plain future whose failures are mapped to
      success values. */
  function ReplaceError<S, E>(f: Future<Result<S, E>>, errorMap: E -> S): Future<S> {
    Map(f, (r: Result<S, E>) =>
      match r
      case Success(s) => s
      case Failure(e) => errorMap(e))
  }

  /** The retry predicate of `retryResult`, chosen by the outcome's case. */
  function ShouldRetryResult<S, E>(whileFailure: E -> bool, whileSuccess: S -> bool): Result<S, E> -> bool {
    (r: Result<S, E>) =>
      match r
      case Success(s) => whileSuccess(s)
      case Failure(e) => whileFailure(e)
  }

  /** `retryResult(times:whileFailure:whileSuccess:)`. */
  function RetryResult<S, E>(f: Future<Result<S, E>>, times: int, whileFailure: E -> bool, whileSuccess: S -> bool): Future<Result<S, E>> {
    Retry(f, times, ShouldRetryResult(whileFailure, whileSuccess))
  }

  /** `batchResult`: a left fold over `flatMapResult`, starting from
      `Future(value: .success([]))`. */
  function BatchResult<S, E>(fs: seq<Future<Result<S, E>>>): Future<Result<seq<S>, E>>
    decreases |fs|
  {
    if fs == [] then Value(Success([]))
    else
      var next := fs[|fs| - 1];
      FlatMapResult(BatchResult(fs[..|fs| - 1]), (xs: seq<S>) => MapResult(next, (x: S) => xs + [x]))
  }

  /** `zipResultWith`: `a.flatMapResult { x in b.mapResult { y in combine(x, y) } }`. */
  function ZipResultWith<A, B, C, E>(a: Future<Result<A, E>>, b: Future<Result<B, E>>, combine: (A, B) -> C): Future<Result<C, E>> {
    FlatMapResult(a, (x: A) => MapResult(b, (y: B) => combine(x, y)))
  }

  /** `zipResult3With`: two nested `flatMapResult`s and a `mapResult`. */
  function ZipResult3With<A, B, C, D, E>(a: Future<Result<A, E>>, b: Future<Result<B, E>>, c: Future<Result<C, E>>,
                                         combine: (A, B, C) -> D): Future<Result<D, E>> {
    FlatMapResult(a, (x: A) => FlatMapResult(b, (y: B) => MapResult(c, (z: C) => combine(x, y, z))))
  }

  // ---------------------------------------------------------------------
  // Properties

  /** The Result transformers of futures that only append to the log only
      append to it. */
  lemma ResultTransformersAppend<S, T, E, F>(f: Future<Result<S, E>>, t: S -> Future<Result<T, E>>, te: E -> Future<Result<S, F>>,
                                             g: S -> T, ge: E -> F)
    requires Appends(f)
    ensures Appends(MapResult(f, g)) && Appends(MapResultError(f, ge))
    ensures (forall x :: Appends(t(x))) ==> Appends(FlatMapResult(f, t))
    ensures (forall e :: Appends(te(e))) ==> Appends(FlatMapResultError(f, te))
  {
    forall l: Log ensures l <= MapResult(f, g).run(l).log && l <= MapResultError(f, ge).run(l).log {
      assert l <= f.run(l).log;
    }
    if forall x :: Appends(t(x)) {
      forall l: Log ensures l <= FlatMapResult(f, t).run(l).log {
        var s := f.run(l);
        assert l <= s.log;
        if s.value.Success? {
          AppendsAt(t, s.value.value);
          assert s.log <= t(s.value.value).run(s.log).log;
        }
      }
    }
    if forall e :: Appends(te(e)) {
      forall l: Log ensures l <= FlatMapResultError(f, te).run(l).log {
        var s := f.run(l);
        assert l <= s.log;
        if s.value.Failure? {
          AppendsAt(te, s.value.error);
          assert s.log <= te(s.value.error).run(s.log).log;
        }
      }
    }
  }

  /** `replaceError`, the Result observers and `retryResult` of a future
      that only appends only append. */
  lemma ResultWrappersAppend<S, E>(f: Future<Result<S, E>>, errorMap: E -> S, observer: ObserverId,
                                   onSuccess: S -> nat, onFailure: E -> nat, times: int,
                                   whileFailure: E -> bool, whileSuccess: S -> bool)
    requires Appends(f)
    ensures Appends(ReplaceError(f, errorMap))
    ensures Appends(ObserveResultSuccess(f, observer, onSuccess)) && Appends(ObserveResultError(f, observer, onFailure))
    ensures Appends(RetryResult(f, times, whileFailure, whileSuccess))
  {
    forall l: Log
      ensures l <= ReplaceError(f, errorMap).run(l).log
      ensures l <= ObserveResultSuccess(f, observer, onSuccess).run(l).log && l <= ObserveResultError(f, observer, onFailure).run(l).log
    {
      assert l <= f.run(l).log;
    }
    RetryAppends(f, times, ShouldRetryResult(whileFailure, whileSuccess));
  }

  /** `zipResultWith` and `zipResult3With` of futures that only append only
      append. */
  lemma ZipResultsAppend<A, B, C, D, E>(a: Future<Result<A, E>>, b: Future<Result<B, E>>, c: Future<Result<C, E>>,
                                        combine: (A, B) -> D, combine3: (A, B, C) -> D)
    requires Appends(a) && Appends(b) && Appends(c)
    ensures Appends(ZipResultWith(a, b, combine)) && Appends(ZipResult3With(a, b, c, combine3))
  {
    forall l: Log ensures l <= ZipResultWith(a, b, combine).run(l).log && l <= ZipResult3With(a, b, c, combine3).run(l).log {
      ZipResultWithShortCircuits(a, b, combine, l);
      ZipResult3WithShortCircuits(a, b, c, combine3, l);
      var sa := a.run(l);
      var sb := b.run(sa.log);
      var sc := c.run(sb.log);
      assert l <= sa.log <= sb.log <= sc.log;
    }
  }

  /** `batchResult` of futures that only append only appends. */
  lemma {:induction false} BatchResultAppends<S, E>(fs: seq<Future<Result<S, E>>>)
    requires forall i :: 0 <= i < |fs| ==> Appends(fs[i])
    ensures Appends(BatchResult(fs))
    decreases |fs|
  {
    if fs != [] {
      var init, next := fs[..|fs| - 1], fs[|fs| - 1];
      BatchResultAppends(init);
      forall l: Log ensures l <= BatchResult(fs).run(l).log {
        var s0 := BatchResult(init).run(l);
        assert l <= s0.log;
        assert s0.log <= next.run(s0.log).log;
        if s0.value.Success? {
          var xs := s0.value.value;
          assert BatchResult(fs).run(l) == MapResult(next, (x: S) => xs + [x]).run(s0.log);
        }
      }
    }
  }

  /** `mapResult` transforms only a success; a failure passes through
      unchanged; nothing else is run. */
  lemma MapResultOnlySuccess<S, T, E>(f: Future<Result<S, E>>, transform: S -> T, l: Log)
    ensures var s := f.run(l);
            var r := MapResult(f, transform).run(l);
            && r.log == s.log
            && (r.value.Success? <==> s.value.Success?)
            && (s.value.Success? ==> r.value.value == transform(s.value.value))
            && (s.value.Failure? ==> r.value == Failure(s.value.error))
  {
  }

  /** `mapResultError` transforms only a failure; a success passes through
      unchanged. */
  lemma MapResultErrorOnlyFailure<S, E, F>(f: Future<Result<S, E>>, transform: E -> F, l: Log)
    ensures var s := f.run(l);
            var r := MapResultError(f, transform).run(l);
            && r.log == s.log
            && (r.value.Failure? <==> s.value.Failure?)
            && (s.value.Failure? ==> r.value.error == transform(s.value.error))
            && (s.value.Success? ==> r.value == Success(s.value.value))
  {
  }

  /** `flatMapResult` on a failure delivers that failure and leaves the log
      of the receiver: whatever `transform` is, it is never called and no
      future of it is started. On a success it runs `transform`'s future
      after the receiver. */
  lemma FlatMapResultShortCircuits<S, T, E>(f: Future<Result<S, E>>, transform: S -> Future<Result<T, E>>, l: Log)
    ensures var s := f.run(l);
            s.value.Failure? ==> FlatMapResult(f, transform).run(l) == Step(Failure(s.value.error), s.log)
    ensures var s := f.run(l);
            s.value.Success? ==> FlatMapResult(f, transform).run(l) == transform(s.value.value).run(s.log)
  {
  }

  /** `flatMapResultError` passes a success through without calling
      `transform`; on a failure it runs `transform`'s future. */
  lemma FlatMapResultErrorRecovers<S, E, F>(f: Future<Result<S, E>>, transform: E -> Future<Result<S, F>>, l: Log)
    ensures var s := f.run(l);
            s.value.Success? ==> FlatMapResultError(f, transform).run(l) == Step(Success(s.value.value), s.log)
    ensures var s := f.run(l);
            s.value.Failure? ==> FlatMapResultError(f, transform).run(l) == transform(s.value.error).run(s.log)
  {
  }

  /** The observers of a Result future hand the value on unchanged and call
      their callback exactly when the case matches, passing it the success
      value or the error. */
  lemma ObserveResultKeepsValue<S, E>(f: Future<Result<S, E>>, observer: ObserverId,
                                      onSuccess: S -> nat, onFailure: E -> nat, l: Log)
    ensures var s := f.run(l);
            ObserveResultSuccess(f, observer, onSuccess).run(l)
              == Step(s.value, if s.value.Success? then s.log + [Observed(observer, onSuccess(s.value.value))] else s.log)
    ensures var s := f.run(l);
            ObserveResultError(f, observer, onFailure).run(l)
              == Step(s.value, if s.value.Failure? then s.log + [Observed(observer, onFailure(s.value.error))] else s.log)
  {
  }

  /** `replaceError` is total: a success gives its value, a failure gives
      `errorMap` of its error. */
  lemma ReplaceErrorTotal<S, E>(f: Future<Result<S, E>>, errorMap: E -> S, l: Log)
    ensures var s := f.run(l);
            var r := ReplaceError(f, errorMap).run(l);
            && r.log == s.log
            && (s.value.Success? ==> r.value == s.value.value)
            && (s.value.Failure? ==> r.value == errorMap(s.value.error))
  {
  }

  /** `retryResult` retries a failure when `whileFailure` holds of its error
      and a success when `whileSuccess` holds of its value, within `times`
      extra attempts, and delivers the last attempt. */
  lemma RetryResultAttempts<S, E>(f: Future<Result<S, E>>, times: int, whileFailure: E -> bool, whileSuccess: S -> bool, l: Log)
    ensures var a := Attempts(f, times, ShouldRetryResult(whileFailure, whileSuccess), l);
            && RetryResult(f, times, whileFailure, whileSuccess).run(l) == a[|a| - 1]
            && (forall i :: 0 <= i < |a| - 1 ==>
                  if a[i].value.Success? then whileSuccess(a[i].value.value) else whileFailure(a[i].value.error))
            && (|a| < MaxAttempts(times) ==>
                  var last := a[|a| - 1].value;
                  if last.Success? then !whileSuccess(last.value) else !whileFailure(last.error))
  {
    var p := ShouldRetryResult(whileFailure, whileSuccess);
    var a := Attempts(f, times, p, l);
    RetryDeliversLastAttempt(f, times, p, l);
    forall i | 0 <= i < |a|
      ensures p(a[i].value) == if a[i].value.Success? then whileSuccess(a[i].value.value) else whileFailure(a[i].value.error)
    {
      ShouldRetryResultCases(whileFailure, whileSuccess, a[i].value);
    }
  }

  lemma ShouldRetryResultCases<S, E>(whileFailure: E -> bool, whileSuccess: S -> bool, r: Result<S, E>)
    ensures ShouldRetryResult(whileFailure, whileSuccess)(r) == if r.Success? then whileSuccess(r.value) else whileFailure(r.error)
  {
    if r.Success? {
      assert ShouldRetryResult(whileFailure, whileSuccess)(r) == whileSuccess(r.value);
    }
  }

  /** The default `whileFailure` of `retryResult`: retry every failure. */
  function RetryEveryFailure<E>(e: E): bool {
    true
  }

  /** The default `whileSuccess` of `retryResult`: never retry a success. */
  function NeverRetrySuccess<S>(s: S): bool {
    false
  }

  /** `retryResult` with its default predicates: every attempt but the last
      failed, a success always ends the retries, and the last attempt fails
      only when the attempts ran out. */
  lemma RetryResultDefaults<S, E>(f: Future<Result<S, E>>, times: int, l: Log)
    ensures var a := Attempts(f, times, ShouldRetryResult(RetryEveryFailure, NeverRetrySuccess), l);
            && RetryResult(f, times, RetryEveryFailure, NeverRetrySuccess).run(l) == a[|a| - 1]
            && (forall i :: 0 <= i < |a| - 1 ==> a[i].value.Failure?)
            && (a[|a| - 1].value.Failure? ==> |a| == MaxAttempts(times))
  {
    var p := ShouldRetryResult(RetryEveryFailure, NeverRetrySuccess);
    var a := Attempts(f, times, p, l);
    RetryDeliversLastAttempt(f, times, p, l);
    forall i | 0 <= i < |a| ensures p(a[i].value) <==> a[i].value.Failure? {
      var r := a[i].value;
      if r.Success? {
        assert p(r) == NeverRetrySuccess(r.value);
      } else {
        assert p(r) == RetryEveryFailure(r.error);
      }
    }
  }

  /** The failure-free prefix: the first `n` futures of the series succeed. */
  ghost predicate SucceedsUpTo<S, E>(fs: seq<Future<Result<S, E>>>, l: Log, n: nat)
    requires n <= |fs|
  {
    forall i :: 0 <= i < n ==> SeriesValue(fs, l, i).Success?
  }

  /** `batchResult` runs its futures in series; when all of them succeed it
      delivers their success values in input order, after running each
      exactly once. */
  lemma {:induction false} BatchResultAllSucceed<S, E>(fs: seq<Future<Result<S, E>>>, l: Log)
    requires SucceedsUpTo(fs, l, |fs|)
    ensures var r := BatchResult(fs).run(l);
            && r.value.Success?
            && |r.value.value| == |fs|
            && (forall i :: 0 <= i < |fs| ==> r.value.value[i] == SeriesValue(fs, l, i).value)
            && r.log == SeriesLog(fs, l, |fs|)
    decreases |fs|
  {
    if fs != [] {
      var n := |fs|;
      var init := fs[..n - 1];
      var last := fs[n - 1];
      forall i | 0 <= i < n - 1 ensures SeriesValue(init, l, i) == SeriesValue(fs, l, i) {
        SeriesValuePrefix(fs, n - 1, l, i);
      }
      SeriesLogPrefix(fs, n - 1, l, n - 1);
      BatchResultAllSucceed(init, l);
      var s0 := BatchResult(init).run(l);
      var xs := s0.value.value;
      var sl := last.run(s0.log);
      assert sl.value == SeriesValue(fs, l, n - 1);
      assert BatchResult(fs).run(l) == MapResult(last, (x: S) => xs + [x]).run(s0.log);
      assert BatchResult(fs).run(l) == Step(Success(xs + [sl.value.value]), sl.log);
    }
  }

  /** When future `k` is the first to fail, `batchResult` delivers its
      failure, and its log is that of running only the futures up to `k`:
      the futures after the first failure are never started. */
  lemma {:induction false} BatchResultFirstFailure<S, E>(fs: seq<Future<Result<S, E>>>, l: Log, k: nat)
    requires k < |fs| && SucceedsUpTo(fs, l, k) && SeriesValue(fs, l, k).Failure?
    ensures BatchResult(fs).run(l) == Step(Failure(SeriesValue(fs, l, k).error), SeriesLog(fs, l, k + 1))
    decreases |fs|
  {
    var n := |fs|;
    var init := fs[..n - 1];
    var last := fs[n - 1];
    forall i | 0 <= i < n - 1 ensures SeriesValue(init, l, i) == SeriesValue(fs, l, i) {
      SeriesValuePrefix(fs, n - 1, l, i);
    }
    SeriesLogPrefix(fs, n - 1, l, n - 1);
    var s0 := BatchResult(init).run(l);
    if k == n - 1 {
      BatchResultAllSucceed(init, l);
      var xs := s0.value.value;
      var sl := last.run(s0.log);
      assert sl.value == SeriesValue(fs, l, n - 1);
      assert BatchResult(fs).run(l) == MapResult(last, (x: S) => xs + [x]).run(s0.log);
    } else {
      BatchResultFirstFailure(init, l, k);
      SeriesLogPrefix(fs, n - 1, l, k + 1);
      assert s0 == Step(Failure(SeriesValue(fs, l, k).error), SeriesLog(fs, l, k + 1));
    }
  }

  /** A scenario: in `batchResult([success(1), success(2),
      failure(e), x])` with `x` instrumented, the batch delivers `failure(e)`
      and `x` is never started. */
  lemma BatchResultScenario<E>(e: E, id: LeafId, outcomes: nat -> Result<int, E>)
    ensures var fs := [Value(Success(1)), Value(Success(2)), Value(Failure(e)), Leaf(id, outcomes)];
            var r := BatchResult(fs).run([]);
            r.value == Failure(e) && Started(id) !in r.log
  {
    var fs: seq<Future<Result<int, E>>> := [Value(Success(1)), Value(Success(2)), Value(Failure(e)), Leaf(id, outcomes)];
    assert SeriesLog(fs, [], 1) == [];
    assert SeriesLog(fs, [], 2) == [];
    assert SeriesLog(fs, [], 3) == [];
    assert SucceedsUpTo(fs, [], 2);
    BatchResultFirstFailure(fs, [], 2);
  }

  /** `zipResultWith`: when `a` fails its failure is delivered and `b` is
      never started (the log is `a`'s); otherwise `b` runs after `a` and the
      two results are zipped, so the left-most failure wins. */
  lemma ZipResultWithShortCircuits<A, B, C, E>(a: Future<Result<A, E>>, b: Future<Result<B, E>>, combine: (A, B) -> C, l: Log)
    ensures var sa := a.run(l);
            sa.value.Failure? ==> ZipResultWith(a, b, combine).run(l) == Step(Failure(sa.value.error), sa.log)
    ensures var sa := a.run(l);
            var sb := b.run(sa.log);
            sa.value.Success? ==>
              ZipResultWith(a, b, combine).run(l) == Step(ResultExtensions.ZipWith(sa.value, sb.value, combine), sb.log)
  {
    var sa := a.run(l);
    if sa.value.Success? {
      var sb := b.run(sa.log);
      assert ZipResultWith(a, b, combine).run(l) == MapResult(b, (y: B) => combine(sa.value.value, y)).run(sa.log);
    }
  }

  /** A scenario: zipping a failing `a` with an instrumented
      `b` delivers `a`'s failure and `b`'s started flag stays unset. */
  lemma ZipResultNeverStartsSecond<A, B, C, E>(a: Future<Result<A, E>>, id: LeafId, outcomes: nat -> Result<B, E>,
                                               combine: (A, B) -> C, l: Log)
    requires a.run(l).value.Failure?
    requires Started(id) !in a.run(l).log
    ensures ZipResultWith(a, Leaf(id, outcomes), combine).run(l).value == Failure(a.run(l).value.error)
    ensures Started(id) !in ZipResultWith(a, Leaf(id, outcomes), combine).run(l).log
  {
    ZipResultWithShortCircuits(a, Leaf(id, outcomes), combine, l);
  }

  /** `zipResult3With` delivers the left-most failure and starts nothing
      after it: its log is that of the futures up to the first failure. */
  lemma ZipResult3WithShortCircuits<A, B, C, D, E>(a: Future<Result<A, E>>, b: Future<Result<B, E>>, c: Future<Result<C, E>>,
                                                   combine: (A, B, C) -> D, l: Log)
    ensures var sa := a.run(l);
            sa.value.Failure? ==> ZipResult3With(a, b, c, combine).run(l) == Step(Failure(sa.value.error), sa.log)
    ensures var sa := a.run(l);
            var sb := b.run(sa.log);
            sa.value.Success? && sb.value.Failure? ==>
              ZipResult3With(a, b, c, combine).run(l) == Step(Failure(sb.value.error), sb.log)
    ensures var sa := a.run(l);
            var sb := b.run(sa.log);
            var sc := c.run(sb.log);
            sa.value.Success? && sb.value.Success? ==>
              ZipResult3With(a, b, c, combine).run(l)
                == Step(if sc.value.Success? then Success(combine(sa.value.value, sb.value.value, sc.value.value))
                        else Failure(sc.value.error), sc.log)
  {
    var sa := a.run(l);
    if sa.value.Success? {
      var x := sa.value.value;
      var sb := b.run(sa.log);
      assert ZipResult3With(a, b, c, combine).run(l)
          == FlatMapResult(b, (y: B) => MapResult(c, (z: C) => combine(x, y, z))).run(sa.log);
      if sb.value.Success? {
        var y := sb.value.value;
        assert ZipResult3With(a, b, c, combine).run(l)
            == MapResult(c, (z: C) => combine(x, y, z)).run(sb.log);
      }
    }
  }
}
