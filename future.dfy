/** The deferred computation of Sources/Future/Future.swift and its plain
    combinators, without dispatch queues.

    A Swift `Future<Response>` is a `run` procedure that hands one `Response`
    to its callback. Once queues are removed everything is synchronous and
    sequential, so a future is modelled as a function from the log of what
    has happened so far to the one value it delivers and the extended log:
    returning exactly one `Step` is "the callback fires exactly once". The
    log records which instrumented futures (`Leaf`) were started, in order,
    and which observers were called with what, so "B is started after A
    completes" and "B is never started" become statements about the log.
    The log also stands for the state of the world: work that reads mutable
    state reads it as a function of the log. */
module Futures {
  import opened SwiftTypes

  type LeafId = nat
  type ObserverId = nat

  /** Something observable that a run does: an instrumented future starts,
      or an observer callback is called and records `seen`, what it makes of
      the argument it was passed. */
  datatype Effect = Started(leaf: LeafId) | Observed(observer: ObserverId, seen: nat)

  type Log = seq<Effect>

  /** What one run produces: the value handed to the callback, and the log
      after the run. */
  datatype Step<R> = Step(value: R, log: Log)

  /** `Future<Response>`: its `run` procedure, in state-passing form. */
  datatype Future<R> = Future(run: Log -> Step<R>)

  /** Two futures that behave the same from every starting log. */
  ghost predicate Equivalent<R>(f: Future<R>, g: Future<R>) {
    forall l: Log :: f.run(l) == g.run(l)
  }

  /** How often the leaf `id` has been started in `l`. */
  function Starts(l: Log, id: LeafId): nat {
    multiset(l)[Started(id)]
  }

  /** An instrumented future: every run records that it started, and its k-th
      run (counting from 0) delivers `outcomes(k)`. It stands for any future
      of the caller's, such as a network request whose successive attempts
      give different answers. */
  function Leaf<R>(id: LeafId, outcomes: nat -> R): Future<R> {
    Future((l: Log) => Step(outcomes(Starts(l, id)), l + [Started(id)]))
  }

  /** One run of a leaf delivers its next outcome and counts one more start. */
  lemma LeafRunsOnce<R>(id: LeafId, outcomes: nat -> R, l: Log)
    ensures Leaf(id, outcomes).run(l) == Step(outcomes(Starts(l, id)), l + [Started(id)])
    ensures Starts(l + [Started(id)], id) == Starts(l, id) + 1
  {
    assert multiset(l + [Started(id)]) == multiset(l) + multiset{Started(id)};
  }

  // ---------------------------------------------------------------------
  // Constructors

  /** `Future(value:)`: hands `v` to the callback, unmodified, starting nothing. */
  function Value<R>(v: R): Future<R> {
    Future((l: Log) => Step(v, l))
  }

  /** `Future(work:)`: evaluates `work` each time it is run and hands over its
      result. The work may read the state of the world at that moment, that
      is, the log. */
  function Work<R>(work: Log -> R): Future<R> {
    Future((l: Log) => Step(work(l), l))
  }

  /** `Future.build(future:)`: the future is only constructed when it is run,
      from the state of the world at that moment. */
  function Build<R>(make: Log -> Future<R>): Future<R> {
    Future((l: Log) => make(l).run(l))
  }

  /** A future that only adds to the log: what happened before it started is
      still there, in order, when it completes. */
  ghost predicate Appends<R>(f: Future<R>) {
    forall l: Log :: l <= f.run(l).log
  }

  // ---------------------------------------------------------------------
  // Transformers

  /** `map`: runs the receiver, hands `transform` of its value on. */
  function Map<R, S>(f: Future<R>, transform: R -> S): Future<S> {
    Future((l: Log) => var s := f.run(l); Step(transform(s.value), s.log))
  }

  /** `flatMap`: runs the receiver; only in its callback builds the next
      future from its value and runs that one, handing on its value. */
  function FlatMap<R, S>(f: Future<R>, transform: R -> Future<S>): Future<S> {
    Future((l: Log) => var s := f.run(l); transform(s.value).run(s.log))
  }

  /** The shape shared by `observe` and its Result/Optional variants when no
      queue is given: a `map` whose transform calls the observer callback and
      returns the value unchanged. `argument` picks the callback's argument
      out of the value (none: the callback is not called) and already applies
      the callback's recording, so the log gets `Observed(observer, seen)`. */
  function Tap<R>(f: Future<R>, observer: ObserverId, argument: R -> Option<nat>): Future<R> {
    Future((l: Log) =>
      var s := f.run(l);
      Step(s.value, match argument(s.value)
                    case Some(seen) => s.log + [Observed(observer, seen)]
                    case None => s.log))
  }

  /** `observe` without a queue. The callback is `observer`, and `record` is
      what it records of the response it is passed. */
  function Observe<R>(f: Future<R>, observer: ObserverId, record: R -> nat): Future<R> {
    Tap(f, observer, (v: R) => Some(record(v)))
  }

  // ---------------------------------------------------------------------
  // Joins: `b` is only run inside `a`'s callback

  /** `zipWith`: runs `a`, then `b`, then combines their values. */
  function ZipWith<A, B, C>(a: Future<A>, b: Future<B>, combine: (A, B) -> C): Future<C> {
    Future((l: Log) =>
      var sa := a.run(l);
      var sb := b.run(sa.log);
      Step(combine(sa.value, sb.value), sb.log))
  }

  /** `zip3With`: runs `a`, then `b`, then `c`, then combines their values. */
  function Zip3With<A, B, C, D>(a: Future<A>, b: Future<B>, c: Future<C>, combine: (A, B, C) -> D): Future<D> {
    Future((l: Log) =>
      var sa := a.run(l);
      var sb := b.run(sa.log);
      var sc := c.run(sb.log);
      Step(combine(sa.value, sb.value, sc.value), sc.log))
  }

  // ---------------------------------------------------------------------
  // Series

  /** `batch`: a left fold over `flatMap`, starting from `Future(value: [])`;
      each step appends the next future's value to the accumulated list. */
  function Batch<R>(fs: seq<Future<R>>): Future<seq<R>>
    decreases |fs|
  {
    if fs == [] then Value([])
    else
      var next := fs[|fs| - 1];
      FlatMap(Batch(fs[..|fs| - 1]), (xs: seq<R>) => Map(next, (x: R) => xs + [x]))
  }

  /** The log after running the first `i` futures of `fs` one after the
      other, each started on the log its predecessor left. */
  function SeriesLog<R>(fs: seq<Future<R>>, l: Log, i: nat): Log
    requires i <= |fs|
    decreases i
  {
    if i == 0 then l else fs[i - 1].run(SeriesLog(fs, l, i - 1)).log
  }

  /** The value the `i`-th future delivers when run after its predecessors. */
  function SeriesValue<R>(fs: seq<Future<R>>, l: Log, i: nat): R
    requires i < |fs|
  {
    fs[i].run(SeriesLog(fs, l, i)).value
  }

  lemma {:induction false} SeriesLogPrefix<R>(fs: seq<Future<R>>, n: nat, l: Log, i: nat)
    requires i <= n <= |fs|
    ensures SeriesLog(fs[..n], l, i) == SeriesLog(fs, l, i)
    decreases i
  {
    if i > 0 {
      SeriesLogPrefix(fs, n, l, i - 1);
      assert fs[..n][i - 1] == fs[i - 1];
    }
  }

  lemma SeriesValuePrefix<R>(fs: seq<Future<R>>, n: nat, l: Log, i: nat)
    requires i < n <= |fs|
    ensures SeriesValue(fs[..n], l, i) == SeriesValue(fs, l, i)
  {
    SeriesLogPrefix(fs, n, l, i);
    assert fs[..n][i] == fs[i];
  }

  /** `batch` delivers one value per input future, in input order; future `i`
      is started on exactly the log future `i - 1` left (so only after it
      completed), and the batch leaves the log of the whole series. */
  lemma {:induction false} BatchInSeries<R>(fs: seq<Future<R>>, l: Log)
    ensures |Batch(fs).run(l).value| == |fs|
    ensures forall i :: 0 <= i < |fs| ==> Batch(fs).run(l).value[i] == SeriesValue(fs, l, i)
    ensures Batch(fs).run(l).log == SeriesLog(fs, l, |fs|)
    decreases |fs|
  {
    if fs != [] {
      var n := |fs|;
      var init := fs[..n - 1];
      BatchInSeries(init, l);
      var s0 := Batch(init).run(l);
      SeriesLogPrefix(fs, n - 1, l, n - 1);
      var sl := fs[n - 1].run(s0.log);
      assert Batch(fs).run(l) == Step(s0.value + [sl.value], sl.log);
      forall i | 0 <= i < n
        ensures Batch(fs).run(l).value[i] == SeriesValue(fs, l, i)
      {
        if i < n - 1 {
          SeriesLogPrefix(fs, n - 1, l, i);
          assert init[i] == fs[i];
        }
      }
    }
  }

  /** The library's own test of `batch`: futures made with `Future(value:)`
      deliver exactly their values, in order, and start nothing. */
  lemma {:induction false} BatchOfValues<R>(vs: seq<R>, l: Log)
    ensures Batch(seq(|vs|, i requires 0 <= i < |vs| => Value(vs[i]))).run(l) == Step(vs, l)
  {
    var fs := seq(|vs|, i requires 0 <= i < |vs| => Value(vs[i]));
    BatchInSeries(fs, l);
    assert forall i :: 0 <= i <= |fs| ==> SeriesLog(fs, l, i) == l by {
      forall i | 0 <= i <= |fs| ensures SeriesLog(fs, l, i) == l {
        SeriesAllValues(vs, fs, l, i);
      }
    }
    assert Batch(fs).run(l).value == vs;
  }

  lemma {:induction false} SeriesAllValues<R>(vs: seq<R>, fs: seq<Future<R>>, l: Log, i: nat)
    requires |fs| == |vs| && forall j :: 0 <= j < |fs| ==> fs[j] == Value(vs[j])
    requires i <= |fs|
    ensures SeriesLog(fs, l, i) == l
    decreases i
  {
    if i > 0 {
      SeriesAllValues(vs, fs, l, i - 1);
    }
  }

  // ---------------------------------------------------------------------
  // Retry

  /** `retry(times:while:)`: runs the receiver and, while retries are left
      and `shouldRetry` holds of the value, runs it again from inside the
      callback; delivers the last value. */
  function Retry<R>(f: Future<R>, times: int, shouldRetry: R -> bool): Future<R>
    decreases if times > 0 then times else 0
  {
    FlatMap(f, (v: R) => if times > 0 && shouldRetry(v) then Retry(f, times - 1, shouldRetry) else Value(v))
  }

  /** The most executions `retry(times:)` may make: `max(times, 0) + 1`. */
  function MaxAttempts(times: int): nat {
    if times > 0 then times + 1 else 1
  }

  /** The executions of the receiver that `retry` makes, in order: each one
      started on the log the previous one left, every one but the last with
      `shouldRetry` true, and the last one either has `shouldRetry` false or
      used up the attempts. */
  function Attempts<R>(f: Future<R>, times: int, shouldRetry: R -> bool, l: Log): (a: seq<Step<R>>)
    ensures 1 <= |a| <= MaxAttempts(times)
    ensures a[0] == f.run(l)
    ensures forall i :: 0 <= i < |a| - 1 ==> shouldRetry(a[i].value) && a[i + 1] == f.run(a[i].log)
    ensures |a| < MaxAttempts(times) ==> !shouldRetry(a[|a| - 1].value)
    decreases if times > 0 then times else 0
  {
    var s := f.run(l);
    if times > 0 && shouldRetry(s.value) then [s] + Attempts(f, times - 1, shouldRetry, s.log) else [s]
  }

  /** `retry` delivers the last attempt's value and leaves its log. */
  lemma {:induction false} RetryDeliversLastAttempt<R>(f: Future<R>, times: int, shouldRetry: R -> bool, l: Log)
    ensures var a := Attempts(f, times, shouldRetry, l);
            Retry(f, times, shouldRetry).run(l) == a[|a| - 1]
    decreases if times > 0 then times else 0
  {
    var s := f.run(l);
    if times > 0 && shouldRetry(s.value) {
      RetryDeliversLastAttempt(f, times - 1, shouldRetry, s.log);
    }
  }

  /** With an instrumented receiver, attempt `i` is the receiver's
      `(k + i)`-th start, where `k` counts its earlier starts: the receiver is
      executed exactly once per attempt. */
  lemma {:induction false} LeafAttempt<R>(id: LeafId, outcomes: nat -> R, times: int, shouldRetry: R -> bool, l: Log, i: nat)
    requires i < |Attempts(Leaf(id, outcomes), times, shouldRetry, l)|
    ensures Attempts(Leaf(id, outcomes), times, shouldRetry, l)[i].value == outcomes(Starts(l, id) + i)
    ensures Starts(Attempts(Leaf(id, outcomes), times, shouldRetry, l)[i].log, id) == Starts(l, id) + i + 1
    decreases i
  {
    var f := Leaf(id, outcomes);
    var s := f.run(l);
    var a := Attempts(f, times, shouldRetry, l);
    LeafRunsOnce(id, outcomes, l);
    if i > 0 {
      assert times > 0 && shouldRetry(s.value);
      var rest := Attempts(f, times - 1, shouldRetry, s.log);
      assert a == [s] + rest;
      LeafAttempt(id, outcomes, times - 1, shouldRetry, s.log, i - 1);
      assert a[i] == rest[i - 1];
    }
  }

  /** `retry` executes the receiver at most `max(times, 0) + 1` times, exactly
      once when `times <= 0`, and the log records one start per execution. */
  lemma RetryBound<R>(id: LeafId, outcomes: nat -> R, times: int, shouldRetry: R -> bool, l: Log)
    ensures var s := Retry(Leaf(id, outcomes), times, shouldRetry).run(l);
            Starts(l, id) + 1 <= Starts(s.log, id) <= Starts(l, id) + MaxAttempts(times)
    ensures times <= 0 ==> Retry(Leaf(id, outcomes), times, shouldRetry).run(l)
                             == Step(outcomes(Starts(l, id)), l + [Started(id)])
  {
    var a := Attempts(Leaf(id, outcomes), times, shouldRetry, l);
    RetryDeliversLastAttempt(Leaf(id, outcomes), times, shouldRetry, l);
    LeafAttempt(id, outcomes, times, shouldRetry, l, |a| - 1);
  }

  /** A scenario: `retry(times: 2)` whose predicate holds for
      the first two outcomes and fails for the third executes the receiver
      exactly three times and delivers the third outcome. */
  lemma RetryScenario(id: LeafId, l: Log)
    requires Starts(l, id) == 0
    ensures var s := Retry(Leaf(id, (k: nat) => k + 1), 2, (v: int) => v < 3).run(l);
            s.value == 3 && Starts(s.log, id) == 3
  {
    var outcomes: nat -> int := (k: nat) => k + 1;
    var p: int -> bool := (v: int) => v < 3;
    var a := Attempts(Leaf(id, outcomes), 2, p, l);
    RetryDeliversLastAttempt(Leaf(id, outcomes), 2, p, l);
    LeafAttempt(id, outcomes, 2, p, l, |a| - 1);
    assert a[|a| - 1].value == |a|;
    assert |a| == 3;
  }

  // ---------------------------------------------------------------------
  // The algebra: how the combinators relate

  /** `map` is `flatMap` into `Future(value:)`. */
  lemma MapIsFlatMapValue<R, S>(f: Future<R>, transform: R -> S)
    ensures Equivalent(Map(f, transform), FlatMap(f, (v: R) => Value(transform(v))))
  {
    forall l: Log ensures Map(f, transform).run(l) == FlatMap(f, (v: R) => Value(transform(v))).run(l) {
      var s := f.run(l);
      assert Value(transform(s.value)).run(s.log) == Step(transform(s.value), s.log);
    }
  }

  /** Mapping `g` then `h` equals mapping their composition. */
  lemma MapFusion<R, S, T>(f: Future<R>, g: R -> S, h: S -> T)
    ensures Equivalent(Map(Map(f, g), h), Map(f, (v: R) => h(g(v))))
  {
  }

  /** `flatMap` of `Future(value: v)` is the next future built from `v`. */
  lemma FlatMapLeftIdentity<R, S>(v: R, transform: R -> Future<S>)
    ensures Equivalent(FlatMap(Value(v), transform), transform(v))
  {
  }

  /** `flatMap` into `Future(value:)` changes nothing. */
  lemma FlatMapRightIdentity<R>(f: Future<R>)
    ensures Equivalent(FlatMap(f, (v: R) => Value(v)), f)
  {
  }

  /** Chained `flatMap`s may be regrouped. */
  lemma FlatMapAssociative<R, S, T>(f: Future<R>, g: R -> Future<S>, h: S -> Future<T>)
    ensures Equivalent(FlatMap(FlatMap(f, g), h), FlatMap(f, (v: R) => FlatMap(g(v), h)))
  {
    forall l: Log ensures FlatMap(FlatMap(f, g), h).run(l) == FlatMap(f, (v: R) => FlatMap(g(v), h)).run(l) {
      var s := f.run(l);
      assert FlatMap(f, (v: R) => FlatMap(g(v), h)).run(l) == FlatMap(g(s.value), h).run(s.log);
    }
  }

  /** Futures made by the constructors, `map`, `observe` and `flatMap` only
      append to the log when the futures they are made from do. */
  lemma AppendsClosed<R, S>(v: R, work: Log -> R, make: Log -> Future<R>, id: LeafId, outcomes: nat -> R, f: Future<R>,
                            transform: R -> Future<S>, g: R -> S, observer: ObserverId, argument: R -> Option<nat>)
    ensures Appends(Value(v)) && Appends(Work(work)) && Appends(Leaf(id, outcomes))
    ensures (forall m :: Appends(make(m))) ==> Appends(Build(make))
    ensures Appends(f) ==> Appends(Map(f, g)) && Appends(Tap(f, observer, argument))
    ensures Appends(f) && (forall x :: Appends(transform(x))) ==> Appends(FlatMap(f, transform))
  {
    if forall m :: Appends(make(m)) {
      forall l: Log ensures l <= Build(make).run(l).log {
        AppendsAt(make, l);
      }
    }
    if Appends(f) && (forall x :: Appends(transform(x))) {
      forall l: Log ensures l <= FlatMap(f, transform).run(l).log {
        var s := f.run(l);
        assert l <= s.log;
        AppendsAt(transform, s.value);
        assert s.log <= transform(s.value).run(s.log).log;
      }
    }
  }

  /** `zipWith` and `zip3With` of futures that only append only append. */
  lemma ZipsAppend<A, B, C, D, E>(a: Future<A>, b: Future<B>, c: Future<C>, combine: (A, B) -> D, combine3: (A, B, C) -> E)
    requires Appends(a) && Appends(b) && Appends(c)
    ensures Appends(ZipWith(a, b, combine)) && Appends(Zip3With(a, b, c, combine3))
  {
    forall l: Log ensures l <= ZipWith(a, b, combine).run(l).log && l <= Zip3With(a, b, c, combine3).run(l).log {
      var sa := a.run(l);
      var sb := b.run(sa.log);
      var sc := c.run(sb.log);
      assert l <= sa.log <= sb.log <= sc.log;
    }
  }

  /** `batch` of futures that only append only appends. */
  lemma {:induction false} BatchAppends<R>(fs: seq<Future<R>>)
    requires forall i :: 0 <= i < |fs| ==> Appends(fs[i])
    ensures Appends(Batch(fs))
    decreases |fs|
  {
    if fs != [] {
      var init, next := fs[..|fs| - 1], fs[|fs| - 1];
      BatchAppends(init);
      forall l: Log ensures l <= Batch(fs).run(l).log {
        var s0 := Batch(init).run(l);
        assert l <= s0.log;
        assert s0.log <= next.run(s0.log).log;
        assert Batch(fs).run(l).log == next.run(s0.log).log;
      }
    }
  }

  /** `retry` of a future that only appends only appends. */
  lemma {:induction false} RetryAppends<R>(f: Future<R>, times: int, shouldRetry: R -> bool)
    requires Appends(f)
    ensures Appends(Retry(f, times, shouldRetry))
    decreases if times > 0 then times else 0
  {
    if times > 0 {
      RetryAppends(f, times - 1, shouldRetry);
    }
    forall l: Log ensures l <= Retry(f, times, shouldRetry).run(l).log {
      var s := f.run(l);
      assert l <= s.log;
      if times > 0 && shouldRetry(s.value) {
        assert s.log <= Retry(f, times - 1, shouldRetry).run(s.log).log;
      }
    }
  }

  lemma EquivalentAppends<R>(f: Future<R>, g: Future<R>)
    requires Equivalent(f, g) && Appends(g)
    ensures Appends(f)
  {
    forall l: Log ensures l <= f.run(l).log {
      assert f.run(l) == g.run(l);
    }
  }

  lemma AppendsAt<R, S>(transform: R -> Future<S>, x: R)
    requires forall y :: Appends(transform(y))
    ensures Appends(transform(x))
  {
  }

  /** `flatMap` runs the receiver to completion first: for futures that only
      append to the log, everything the receiver did precedes everything the
      next future does, and the next future never starts before the receiver
      completed, since it is built from the receiver's value. */
  lemma FlatMapSequential<R, S>(f: Future<R>, transform: R -> Future<S>, l: Log)
    requires Appends(f) && Appends(transform(f.run(l).value))
    ensures var s := f.run(l);
            var r := FlatMap(f, transform).run(l);
            && l <= s.log <= r.log
            && r.value == transform(s.value).run(s.log).value
  {
    var s := f.run(l);
    assert l <= s.log;
    assert s.log <= transform(s.value).run(s.log).log;
  }

  /** `Future(work:)` evaluates its work only when run: placed after another
      future, the work sees the state of the world that future left. */
  lemma WorkRunsWhenRun<R, S>(g: Future<S>, work: Log -> R, l: Log)
    ensures var s := g.run(l);
            FlatMap(g, (_: S) => Work(work)).run(l) == Step(work(s.log), s.log)
  {
  }

  /** A scenario: after an instrumented future ran once, a `Future(work:)`
      counting its starts delivers 1, whereas a `Future(value:)` of the count
      taken when it was made delivers 0. */
  lemma WorkScenario(id: LeafId, outcomes: nat -> int, l: Log)
    requires Starts(l, id) == 0
    ensures FlatMap(Leaf(id, outcomes), (_: int) => Work((m: Log) => Starts(m, id))).run(l).value == 1
    ensures FlatMap(Leaf(id, outcomes), (_: int) => Value(Starts(l, id))).run(l).value == 0
  {
    LeafRunsOnce(id, outcomes, l);
  }

  /** `Future.build(future:)` constructs its future only when run: placed
      after another future, the future is built from the world that one left,
      and with a constant builder it behaves as the future it builds. */
  lemma BuildDefers<R, S>(g: Future<S>, make: Log -> Future<R>, h: Future<R>, l: Log)
    ensures var s := g.run(l);
            FlatMap(g, (_: S) => Build(make)).run(l) == make(s.log).run(s.log)
    ensures Equivalent(Build((_: Log) => h), h)
  {
  }

  /** `observe` hands on the receiver's value unchanged; its callback is
      called once, after the receiver completed, with the receiver's value. */
  lemma ObserveKeepsValue<R>(f: Future<R>, observer: ObserverId, record: R -> nat, l: Log)
    ensures var s := f.run(l);
            Observe(f, observer, record).run(l) == Step(s.value, s.log + [Observed(observer, record(s.value))])
  {
  }

  /** The library's functional test: `Future(value: 2)`, observed, then
      `flatMap` into `Future(work:)` doubling it, observed again. The first
      callback is passed 2, the second 4, and 4 is delivered. */
  lemma FunctionalScenario(l: Log)
    ensures var first := Observe<nat>(Value(2), 1, (n: nat) => n);
            var doubled := FlatMap<nat, nat>(first, (v: nat) => Work((_: Log) => v * 2));
            Observe<nat>(doubled, 2, (n: nat) => n).run(l) == Step(4, l + [Observed(1, 2), Observed(2, 4)])
  {
  }

  /** `zipWith` is `a.flatMap { x in b.map { y in combine(x, y) } }`: `b` is
      started only after `a` completed. */
  lemma ZipWithIsSequential<A, B, C>(a: Future<A>, b: Future<B>, combine: (A, B) -> C)
    ensures Equivalent(ZipWith(a, b, combine), FlatMap(a, (x: A) => Map(b, (y: B) => combine(x, y))))
  {
    forall l: Log
      ensures ZipWith(a, b, combine).run(l) == FlatMap(a, (x: A) => Map(b, (y: B) => combine(x, y))).run(l)
    {
      var sa := a.run(l);
      assert FlatMap(a, (x: A) => Map(b, (y: B) => combine(x, y))).run(l)
          == Map(b, (y: B) => combine(sa.value, y)).run(sa.log);
    }
  }

  /** `zip3With` runs `a`, then `b`, then `c`, each after the previous one
      completed. */
  lemma Zip3WithIsSequential<A, B, C, D>(a: Future<A>, b: Future<B>, c: Future<C>, combine: (A, B, C) -> D)
    ensures Equivalent(Zip3With(a, b, c, combine),
                       FlatMap(a, (x: A) => FlatMap(b, (y: B) => Map(c, (z: C) => combine(x, y, z)))))
  {
    var chained := FlatMap(a, (x: A) => FlatMap(b, (y: B) => Map(c, (z: C) => combine(x, y, z))));
    forall l: Log ensures Zip3With(a, b, c, combine).run(l) == chained.run(l) {
      var sa := a.run(l);
      var sb := b.run(sa.log);
      assert chained.run(l) == FlatMap(b, (y: B) => Map(c, (z: C) => combine(sa.value, y, z))).run(sa.log);
      assert chained.run(l) == Map(c, (z: C) => combine(sa.value, sb.value, z)).run(sb.log);
    }
  }
}
