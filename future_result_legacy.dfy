/** The older Result-specialised combinators of Sources/Future+Result.swift.
    Its `map`/`flatMap` variants are the same as the current ones, but its
    zips are built on the plain `zipWith`/`zip3With`, which always run every
    participant and only then pick the left-most failure. */
module LegacyFutureResults {
  import opened SwiftTypes
  import opened Futures
  import ResultExtensions
  import Current = FutureResults

  /** Legacy `mapResult`. */
  function MapResult<S, T, E>(f: Future<Result<S, E>>, transform: S -> T): Future<Result<T, E>> {
    Map(f, (r: Result<S, E>) => r.Map(transform))
  }

  /** Legacy `mapResultError`. */
  function MapResultError<S, E, F>(f: Future<Result<S, E>>, transform: E -> F): Future<Result<S, F>> {
    Map(f, (r: Result<S, E>) => r.MapError(transform))
  }

  /** Legacy `flatMapResult`. */
  function FlatMapResult<S, T, E>(f: Future<Result<S, E>>, transform: S -> Future<Result<T, E>>): Future<Result<T, E>> {
    FlatMap(f, (r: Result<S, E>) =>
      Future((l: Log) =>
        match r
        case Success(s) => transform(s).run(l)
        case Failure(e) => Step(Failure(e), l)))
  }

  /** Legacy `flatMapResultError`. */
  function FlatMapResultError<S, E, F>(f: Future<Result<S, E>>, transform: E -> Future<Result<S, F>>): Future<Result<S, F>> {
    FlatMap(f, (r: Result<S, E>) =>
      Future((l: Log) =>
        match r
        case Success(s) => Step(Success(s), l)
        case Failure(e) => transform(e).run(l)))
  }

  /** The combine closure of legacy `zipResultWith`. */
  function PickResult2<A, B, C, E>(ra: Result<A, E>, rb: Result<B, E>, combine: (A, B) -> C): Result<C, E> {
    match (ra, rb)
    case (Success(x), Success(y)) => Success(combine(x, y))
    case (Failure(e), _) => Failure(e)
    case (_, Failure(e)) => Failure(e)
  }

  /** Legacy `zipResultWith`: the plain `zipWith`, then the combine closure. */
  function ZipResultWith<A, B, C, E>(a: Future<Result<A, E>>, b: Future<Result<B, E>>, combine: (A, B) -> C): Future<Result<C, E>> {
    ZipWith(a, b, (ra: Result<A, E>, rb: Result<B, E>) => PickResult2(ra, rb, combine))
  }

  /** The combine closure of legacy `zipResult3With`: all three successes
      are combined, otherwise the left-most failure is delivered. */
  function PickResult3<A, B, C, D, E>(ra: Result<A, E>, rb: Result<B, E>, rc: Result<C, E>, combine: (A, B, C) -> D): (r: Result<D, E>)
    ensures r.Success? <==> ra.Success? && rb.Success? && rc.Success?
    ensures r.Success? ==> r.value == combine(ra.value, rb.value, rc.value)
    ensures r.Failure? ==> r.error == (if ra.Failure? then ra.error else if rb.Failure? then rb.error else rc.error)
  {
    match (ra, rb, rc)
    case (Success(x), Success(y), Success(z)) => Success(combine(x, y, z))
    case (Failure(e), _, _) => Failure(e)
    case (_, Failure(e), _) => Failure(e)
    case (_, _, Failure(e)) => Failure(e)
  }

  /** Legacy `zipResult3With`: the plain `zip3With`, then the combine closure. */
  function ZipResult3With<A, B, C, D, E>(a: Future<Result<A, E>>, b: Future<Result<B, E>>, c: Future<Result<C, E>>,
                                         combine: (A, B, C) -> D): Future<Result<D, E>> {
    Zip3With(a, b, c, (ra: Result<A, E>, rb: Result<B, E>, rc: Result<C, E>) => PickResult3(ra, rb, rc, combine))
  }

  // ---------------------------------------------------------------------
  // Properties

  /** The legacy `mapResult`, `mapResultError`, `flatMapResult` and
      `flatMapResultError` behave exactly as the current ones, so each
      alters only its own case and the legacy `flatMapResult` never calls its
      transform on a failure. */
  lemma TransformersAgreeWithCurrent<S, T, E, F>(f: Future<Result<S, E>>, ts: S -> T, te: E -> F,
                                                 fs: S -> Future<Result<T, E>>, fe: E -> Future<Result<S, F>>)
    ensures Equivalent(MapResult(f, ts), Current.MapResult(f, ts))
    ensures Equivalent(MapResultError(f, te), Current.MapResultError(f, te))
    ensures Equivalent(FlatMapResult(f, fs), Current.FlatMapResult(f, fs))
    ensures Equivalent(FlatMapResultError(f, fe), Current.FlatMapResultError(f, fe))
  {
    forall l: Log ensures FlatMapResult(f, fs).run(l) == Current.FlatMapResult(f, fs).run(l) {
      Current.FlatMapResultShortCircuits(f, fs, l);
    }
    forall l: Log ensures FlatMapResultError(f, fe).run(l) == Current.FlatMapResultError(f, fe).run(l) {
      Current.FlatMapResultErrorRecovers(f, fe, l);
    }
  }

  /** The legacy combinators of futures that only append to the log only
      append to it. */
  lemma LegacyCombinatorsAppend<A, B, C, D, E, F>(a: Future<Result<A, E>>, b: Future<Result<B, E>>, c: Future<Result<C, E>>,
                                                  ts: A -> B, te: E -> F, fs: A -> Future<Result<B, E>>,
                                                  fe: E -> Future<Result<A, F>>, combine: (A, B) -> D, combine3: (A, B, C) -> D)
    requires Appends(a) && Appends(b) && Appends(c)
    ensures Appends(MapResult(a, ts)) && Appends(MapResultError(a, te))
    ensures Appends(ZipResultWith(a, b, combine)) && Appends(ZipResult3With(a, b, c, combine3))
    ensures (forall x :: Appends(fs(x))) ==> Appends(FlatMapResult(a, fs))
    ensures (forall e :: Appends(fe(e))) ==> Appends(FlatMapResultError(a, fe))
  {
    TransformersAgreeWithCurrent(a, ts, te, fs, fe);
    Current.ResultTransformersAppend(a, fs, fe, ts, te);
    EquivalentAppends(MapResult(a, ts), Current.MapResult(a, ts));
    EquivalentAppends(MapResultError(a, te), Current.MapResultError(a, te));
    if forall x :: Appends(fs(x)) {
      EquivalentAppends(FlatMapResult(a, fs), Current.FlatMapResult(a, fs));
    }
    if forall e :: Appends(fe(e)) {
      EquivalentAppends(FlatMapResultError(a, fe), Current.FlatMapResultError(a, fe));
    }
    ZipsAppend(a, b, c, (ra: Result<A, E>, rb: Result<B, E>) => PickResult2(ra, rb, combine),
               (ra: Result<A, E>, rb: Result<B, E>, rc: Result<C, E>) => PickResult3(ra, rb, rc, combine3));
  }

  /** Legacy `zipResultWith` always runs both `a` and then `b`, even when
      `a` fails, and delivers the zip of the two results: `a`'s failure if
      it failed, else `b`'s failure, else the combined successes. */
  lemma ZipResultWithRunsBoth<A, B, C, E>(a: Future<Result<A, E>>, b: Future<Result<B, E>>, combine: (A, B) -> C, l: Log)
    ensures var sa := a.run(l);
            var sb := b.run(sa.log);
            ZipResultWith(a, b, combine).run(l) == Step(ResultExtensions.ZipWith(sa.value, sb.value, combine), sb.log)
  {
    var sa := a.run(l);
    var sb := b.run(sa.log);
    var r := PickResult2(sa.value, sb.value, combine);
    assert ZipResultWith(a, b, combine).run(l) == Step(r, sb.log);
    assert r == ResultExtensions.ZipWith(sa.value, sb.value, combine) by {
      match (sa.value, sb.value)
      case (Success(x), Success(y)) =>
      case (Failure(e), _) =>
      case (Success(x), Failure(e)) =>
    }
  }

  /** Legacy `zipResult3With` always runs `a`, `b` and `c` in that order and
      delivers the left-most failure, or the combined successes. */
  lemma ZipResult3WithRunsAll<A, B, C, D, E>(a: Future<Result<A, E>>, b: Future<Result<B, E>>, c: Future<Result<C, E>>,
                                             combine: (A, B, C) -> D, l: Log)
    ensures var sa := a.run(l);
            var sb := b.run(sa.log);
            var sc := c.run(sb.log);
            ZipResult3With(a, b, c, combine).run(l) == Step(PickResult3(sa.value, sb.value, sc.value, combine), sc.log)
  {
  }

  /** The two versions of `zipResultWith` side by side, for a failing `a`
      and an instrumented `b`: both deliver `a`'s failure, but only the
      legacy one starts `b`. */
  lemma ZipVersionsContrast<A, B, C, E>(a: Future<Result<A, E>>, id: LeafId, outcomes: nat -> Result<B, E>,
                                        combine: (A, B) -> C, l: Log)
    requires a.run(l).value.Failure?
    requires Started(id) !in a.run(l).log
    ensures ZipResultWith(a, Leaf(id, outcomes), combine).run(l).value
         == Current.ZipResultWith(a, Leaf(id, outcomes), combine).run(l).value
         == Failure(a.run(l).value.error)
    ensures Started(id) in ZipResultWith(a, Leaf(id, outcomes), combine).run(l).log
    ensures Started(id) !in Current.ZipResultWith(a, Leaf(id, outcomes), combine).run(l).log
  {
    var b := Leaf(id, outcomes);
    ZipResultWithRunsBoth(a, b, combine, l);
    Current.ZipResultWithShortCircuits(a, b, combine, l);
    var sa := a.run(l);
    assert b.run(sa.log).log == sa.log + [Started(id)];
  }
}
