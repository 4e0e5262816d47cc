/** The two sum types of the Swift standard library that the combinator
    algebra specialises on, with the members of them that the library calls:
    `Result<Success, Failure>` with `map` and `mapError`, and `Optional<Wrapped>`
    with `map`. */
module SwiftTypes {

  datatype Result<+S, +E> = Success(value: S) | Failure(error: E) {

    /** Swift's `Result.map`: transforms a success, passes a failure through. */
    function Map<T>(f: S -> T): Result<T, E> {
      match this
      case Success(s) => Success(f(s))
      case Failure(e) => Failure(e)
    }

    /** Swift's `Result.mapError`: transforms a failure, passes a success through. */
    function MapError<F>(f: E -> F): Result<S, F> {
      match this
      case Success(s) => Success(s)
      case Failure(e) => Failure(f(e))
    }
  }

  /** Swift's `Optional`; `nil` is `None`. */
  datatype Option<+T> = None | Some(value: T) {

    /** Swift's `Optional.map`: transforms a present value, keeps `nil`. */
    function Map<U>(f: T -> U): Option<U> {
      match this
      case Some(v) => Some(f(v))
      case None => None
    }
  }
}

/** The pure helpers on `Result` (Result+Extensions.swift): projections to an
    optional and zipping two results, where the left failure takes precedence. */
module ResultExtensions {
  import opened SwiftTypes

  /** `getSuccess`: the payload of a success, `nil` for a failure. */
  function GetSuccess<S, E>(r: Result<S, E>): (o: Option<S>)
    ensures o.Some? <==> r.Success?
    ensures o.Some? ==> o.value == r.value
  {
    match r
    case Success(s) => Some(s)
    case Failure(_) => None
  }

  /** `getFailure`: the error of a failure, `nil` for a success; exactly one
      of the two projections is present. */
  function GetFailure<S, E>(r: Result<S, E>): (o: Option<E>)
    ensures o.Some? <==> r.Failure?
    ensures o.Some? ==> o.value == r.error
    ensures o.Some? != GetSuccess(r).Some?
  {
    match r
    case Failure(e) => Some(e)
    case Success(_) => None
  }

  /** `zip`: a pair of the two successes; otherwise the left-most failure. */
  function Zip<S, T, E>(a: Result<S, E>, b: Result<T, E>): (r: Result<(S, T), E>)
    ensures r.Success? <==> a.Success? && b.Success?
    ensures r.Success? ==> r.value == (a.value, b.value)
    ensures a.Failure? ==> r == Failure(a.error)
    ensures a.Success? && b.Failure? ==> r == Failure(b.error)
  {
    match (a, b)
    case (Success(x), Success(y)) => Success((x, y))
    case (Failure(e), _) => Failure(e)
    case (_, Failure(e)) => Failure(e)
  }

  /** `zipWith`: `zip` followed by mapping `combine` over the pair. */
  function ZipWith<S, T, U, E>(a: Result<S, E>, b: Result<T, E>, combine: (S, T) -> U): (r: Result<U, E>)
    ensures r.Success? <==> a.Success? && b.Success?
    ensures r.Success? ==> r.value == combine(a.value, b.value)
    ensures r.Failure? ==> r.error == (if a.Failure? then a.error else b.error)
  {
    Zip(a, b).Map((p: (S, T)) => combine(p.0, p.1))
  }
}
