/** The Optional-specialised combinators of Sources/Future+Optional.swift.
    A `Future<Optional<V>>` short-circuits on `nil` in `flatMapOptional`;
    `zippedWithOptional` is built on the plain `zippedWith` and so always
    runs both futures. */
module FutureOptionals {
  import opened SwiftTypes
  import opened Futures

  /** `mapOptional`: `map` with `Optional.map`. */
  function MapOptional<V, W>(f: Future<Option<V>>, transform: V -> W): Future<Option<W>> {
    Map(f, (o: Option<V>) => o.Map(transform))
  }

  /** `flatMapOptional`: on a value runs the future `transform` builds; on
      `nil` delivers `nil` without calling `transform`. */
  function FlatMapOptional<V, W>(f: Future<Option<V>>, transform: V -> Future<Option<W>>): Future<Option<W>> {
    FlatMap(f, (o: Option<V>) =>
      Future((l: Log) =>
        match o
        case Some(v) => transform(v).run(l)
        case None => Step(None, l)))
  }

  /** `flatMapOptionalNone`: passes a value through; on `nil` runs the
      future `transform` builds. */
  function FlatMapOptionalNone<V>(f: Future<Option<V>>, transform: () -> Future<Option<V>>): Future<Option<V>> {
    FlatMap(f, (o: Option<V>) =>
      Future((l: Log) =>
        match o
        case Some(v) => Step(Some(v), l)
        case None => transform().run(l)))
  }

  /** The combine closure of `zippedWithOptional`. */
  function PickOptional<V, W, X>(o: Option<V>, p: Option<W>, combine: (V, W) -> X): Option<X> {
    match (o, p)
    case (Some(v), Some(w)) => Some(combine(v, w))
    case _ => None
  }

  /** `zippedWithOptional`: the plain `zippedWith`, then the combine closure. */
  function ZippedWithOptional<V, W, X>(f: Future<Option<V>>, other: Future<Option<W>>, combine: (V, W) -> X): Future<Option<X>> {
    ZipWith(f, other, (o: Option<V>, p: Option<W>) => PickOptional(o, p, combine))
  }

  /** `observeOptionalSome` without a queue: the callback `observer`, which
      records `record` of its argument, is passed the unwrapped value. */
  function ObserveOptionalSome<V>(f: Future<Option<V>>, observer: ObserverId, record: V -> nat): Future<Option<V>> {
    Tap(f, observer, (o: Option<V>) => o.Map(record))
  }

  /** `replaceNone(with:)`: a plain future where `nil` is replaced by
      `noneValue()`. */
  function ReplaceNone<V>(f: Future<Option<V>>, noneValue: () -> V): Future<V> {
    Map(f, (o: Option<V>) =>
      match o
      case Some(v) => v
      case None => noneValue())
  }

  /** The retry predicate of `retryOptional`: always on `nil`, on a value
      only when `shouldRetry` holds. */
  function ShouldRetryOptional<V>(shouldRetry: V -> bool): Option<V> -> bool {
    (o: Option<V>) =>
      match o
      case Some(v) => shouldRetry(v)
      case None => true
  }

  /** `retryOptional(times:while:)`. */
  function RetryOptional<V>(f: Future<Option<V>>, times: int, shouldRetry: V -> bool): Future<Option<V>> {
    Retry(f, times, ShouldRetryOptional(shouldRetry))
  }

  /** The default `while` of `retryOptional`: never retry a present value. */
  function NeverRetryValue<V>(v: V): bool {
    false
  }

  // ---------------------------------------------------------------------
  // Properties

  /** The Optional combinators of futures that only append to the log only
      append to it. */
  lemma OptionalCombinatorsAppend<V, W, X>(f: Future<Option<V>>, other: Future<Option<W>>, g: V -> W,
                                           t: V -> Future<Option<W>>, recover: () -> Future<Option<V>>,
                                           combine: (V, W) -> X, observer: ObserverId, record: V -> nat,
                                           noneValue: () -> V, times: int, shouldRetry: V -> bool)
    requires Appends(f) && Appends(other)
    ensures Appends(MapOptional(f, g)) && Appends(ObserveOptionalSome(f, observer, record))
    ensures Appends(ReplaceNone(f, noneValue)) && Appends(RetryOptional(f, times, shouldRetry))
    ensures Appends(ZippedWithOptional(f, other, combine))
    ensures (forall x :: Appends(t(x))) ==> Appends(FlatMapOptional(f, t))
    ensures Appends(recover()) ==> Appends(FlatMapOptionalNone(f, recover))
  {
    forall l: Log
      ensures l <= MapOptional(f, g).run(l).log && l <= ObserveOptionalSome(f, observer, record).run(l).log
      ensures l <= ReplaceNone(f, noneValue).run(l).log
    {
      assert l <= f.run(l).log;
    }
    RetryAppends(f, times, ShouldRetryOptional(shouldRetry));
    ZipsAppend(f, other, other, (o: Option<V>, p: Option<W>) => PickOptional(o, p, combine),
               (o: Option<V>, p: Option<W>, q: Option<W>) => 0);
    if forall x :: Appends(t(x)) {
      forall l: Log ensures l <= FlatMapOptional(f, t).run(l).log {
        var s := f.run(l);
        assert l <= s.log;
        if s.value.Some? {
          AppendsAt(t, s.value.value);
          assert s.log <= t(s.value.value).run(s.log).log;
        }
      }
    }
    if Appends(recover()) {
      forall l: Log ensures l <= FlatMapOptionalNone(f, recover).run(l).log {
        var s := f.run(l);
        assert l <= s.log;
        if s.value.None? {
          assert s.log <= recover().run(s.log).log;
        }
      }
    }
  }

  /** `mapOptional` transforms only a present value; `nil` stays `nil`. */
  lemma MapOptionalOnlySome<V, W>(f: Future<Option<V>>, transform: V -> W, l: Log)
    ensures var s := f.run(l);
            var r := MapOptional(f, transform).run(l);
            && r.log == s.log
            && (r.value.Some? <==> s.value.Some?)
            && (s.value.Some? ==> r.value.value == transform(s.value.value))
  {
  }

  /** `flatMapOptional` on `nil` delivers `nil` with the receiver's log,
      whatever `transform` is; on a value it runs `transform`'s future after
      the receiver. */
  lemma FlatMapOptionalShortCircuits<V, W>(f: Future<Option<V>>, transform: V -> Future<Option<W>>, l: Log)
    ensures var s := f.run(l);
            s.value.None? ==> FlatMapOptional(f, transform).run(l) == Step(None, s.log)
    ensures var s := f.run(l);
            s.value.Some? ==> FlatMapOptional(f, transform).run(l) == transform(s.value.value).run(s.log)
  {
  }

  /** `flatMapOptionalNone` passes a present value through without calling
      `transform`; on `nil` it runs `transform`'s future. */
  lemma FlatMapOptionalNoneRecovers<V>(f: Future<Option<V>>, transform: () -> Future<Option<V>>, l: Log)
    ensures var s := f.run(l);
            s.value.Some? ==> FlatMapOptionalNone(f, transform).run(l) == s
    ensures var s := f.run(l);
            s.value.None? ==> FlatMapOptionalNone(f, transform).run(l) == transform().run(s.log)
  {
  }

  /** `zippedWithOptional` always runs both futures, in order, and delivers
      `combine` of the two values exactly when both are present. */
  lemma ZippedWithOptionalBothPresent<V, W, X>(f: Future<Option<V>>, other: Future<Option<W>>, combine: (V, W) -> X, l: Log)
    ensures var sa := f.run(l);
            var sb := other.run(sa.log);
            var r := ZippedWithOptional(f, other, combine).run(l);
            && r.log == sb.log
            && (r.value.Some? <==> sa.value.Some? && sb.value.Some?)
            && (r.value.Some? ==> r.value.value == combine(sa.value.value, sb.value.value))
  {
    var sa := f.run(l);
    var sb := other.run(sa.log);
    assert ZippedWithOptional(f, other, combine).run(l) == Step(PickOptional(sa.value, sb.value, combine), sb.log);
  }

  /** `observeOptionalSome` hands on the optional unchanged and calls its
      callback exactly when a value is present, passing it the value. */
  lemma ObserveOptionalSomeKeepsValue<V>(f: Future<Option<V>>, observer: ObserverId, record: V -> nat, l: Log)
    ensures var s := f.run(l);
            ObserveOptionalSome(f, observer, record).run(l)
              == Step(s.value, if s.value.Some? then s.log + [Observed(observer, record(s.value.value))] else s.log)
  {
  }

  /** `replaceNone` is total: a value gives itself, `nil` gives `noneValue()`. */
  lemma ReplaceNoneTotal<V>(f: Future<Option<V>>, noneValue: () -> V, l: Log)
    ensures var s := f.run(l);
            var r := ReplaceNone(f, noneValue).run(l);
            && r.log == s.log
            && (s.value.Some? ==> r.value == s.value.value)
            && (s.value.None? ==> r.value == noneValue())
  {
  }

  /** `retryOptional` retries every `nil` and a present value only when
      `shouldRetry` holds, within `times` extra attempts: every attempt but
      the last is `nil` or satisfies `shouldRetry`; the last is a value
      failing `shouldRetry` unless the attempts ran out. */
  lemma RetryOptionalAttempts<V>(f: Future<Option<V>>, times: int, shouldRetry: V -> bool, l: Log)
    ensures var a := Attempts(f, times, ShouldRetryOptional(shouldRetry), l);
            && RetryOptional(f, times, shouldRetry).run(l) == a[|a| - 1]
            && (forall i :: 0 <= i < |a| - 1 ==> a[i].value.None? || shouldRetry(a[i].value.value))
            && (|a| < MaxAttempts(times) ==> a[|a| - 1].value.Some? && !shouldRetry(a[|a| - 1].value.value))
  {
    var p := ShouldRetryOptional(shouldRetry);
    var a := Attempts(f, times, p, l);
    RetryDeliversLastAttempt(f, times, p, l);
    forall i | 0 <= i < |a| ensures p(a[i].value) <==> a[i].value.None? || shouldRetry(a[i].value.value) {
      var o := a[i].value;
      if o.Some? {
        assert p(o) == shouldRetry(o.value);
      } else {
        assert p(o);
      }
    }
  }

  /** With the default `while`, `retryOptional` retries only on `nil`: a
      present value always ends the retries. */
  lemma RetryOptionalDefault<V>(f: Future<Option<V>>, times: int, l: Log)
    ensures var a := Attempts(f, times, ShouldRetryOptional(NeverRetryValue), l);
            && (forall i :: 0 <= i < |a| - 1 ==> a[i].value.None?)
            && (|a| < MaxAttempts(times) ==> a[|a| - 1].value.Some?)
  {
    RetryOptionalAttempts(f, times, NeverRetryValue, l);
  }
}
