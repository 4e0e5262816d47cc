/** The two rate-controlled futures of Sources/Future/Future.swift,
    `debounced` and `throttled`.

    Each owns one mutable token, the currently scheduled work item. A call
    of `run(cb)` on the returned future either schedules a work item that
    will run the receiver and hand its value to `cb`, or (throttle) ignores
    the call. Time is reduced to its events: a `run` call, and the timer of
    the live work item going off. A cancelled work item never goes off, so
    the timer event always concerns the live item, if there is one.

    The events seen so far are kept as a ghost history, and each gate is
    proved against an independent description of which callbacks a history
    calls: for the debounce, a run whose very next event is the timer; for
    the throttle, the first run of every window that a timer event closes. */
module RateControl {
  import opened SwiftTypes
  import opened Futures

  /** Identifies the callback passed to one `run` call. */
  type CallbackId = nat

  /** A callback invoked with the value the receiver delivered. */
  datatype Delivery<R> = Delivery(callback: CallbackId, value: R)

  /** The events a rate-controlled future reacts to. */
  datatype Trigger = RunCall(callback: CallbackId) | TimerFired

  datatype Policy = Debounce | Throttle

  /** The observable state of a gate: the callback of the live work item,
      the log of the runs of the receiver, and the callbacks invoked so far. */
  datatype GateState<R> = GateState(pending: Option<CallbackId>, log: Log, delivered: seq<Delivery<R>>)

  /** The callbacks of a sequence of deliveries, in order. */
  function Callbacks<R>(ds: seq<Delivery<R>>): (cs: seq<CallbackId>)
    ensures |cs| == |ds|
    ensures forall k :: 0 <= k < |ds| ==> cs[k] == ds[k].callback
  {
    seq(|ds|, k requires 0 <= k < |ds| => ds[k].callback)
  }

  /** One event. A debounced `run` cancels the live work item and schedules
      a new one for its own callback; a throttled `run` schedules only when
      no work item is live. When the timer goes off, the live work item runs
      the receiver, hands the value to its callback, and is gone. */
  function GateStep<R>(policy: Policy, receiver: Future<R>, g: GateState<R>, t: Trigger): GateState<R> {
    match t
    case RunCall(cb) =>
      if policy == Debounce || g.pending.None? then g.(pending := Some(cb)) else g
    case TimerFired =>
      match g.pending
      case None => g
      case Some(cb) =>
        var s := receiver.run(g.log);
        GateState(None, s.log, g.delivered + [Delivery(cb, s.value)])
  }

  /** The state after the history `ts`, starting idle with log `start`. */
  function Gate<R>(policy: Policy, receiver: Future<R>, start: Log, ts: seq<Trigger>): GateState<R>
    decreases |ts|
  {
    if ts == [] then GateState(None, start, [])
    else GateStep(policy, receiver, Gate(policy, receiver, start, ts[..|ts| - 1]), ts[|ts| - 1])
  }

  /** The future returned by `debounced(delay:)`. */
  class Debouncer<R> {
    const receiver: Future<R>
    const start: Log
    var pending: Option<CallbackId>
    var log: Log
    var delivered: seq<Delivery<R>>
    ghost var triggers: seq<Trigger>

    ghost predicate Valid()
      reads this
    {
      Gate(Debounce, receiver, start, triggers) == GateState(pending, log, delivered)
    }

    /** A debounced future has called exactly the runs of its history that
        were directly followed by a timer event, in order. */
    lemma CallsCoalesced()
      requires Valid()
      ensures Callbacks(delivered) == Coalesced(triggers)
    {
      DebounceCallsCoalesced(receiver, start, triggers);
    }

    /** `debounced(delay:)`: no work item yet. */
    constructor(receiver: Future<R>, start: Log)
      ensures Valid()
      ensures this.receiver == receiver && this.start == start
      ensures triggers == [] && pending == None && log == start && delivered == []
    {
      this.receiver := receiver;
      this.start := start;
      pending := None;
      log := start;
      delivered := [];
      triggers := [];
    }

    /** `run(cb)`: cancel the live work item, if any, and schedule one for `cb`. */
    method Run(cb: CallbackId)
      requires Valid()
      modifies this
      ensures Valid()
      ensures triggers == old(triggers) + [RunCall(cb)]
      ensures pending == Some(cb)
      ensures log == old(log) && delivered == old(delivered)
    {
      pending := Some(cb);
      triggers := triggers + [RunCall(cb)];
      assert triggers[..|triggers| - 1] == old(triggers);
    }

    /** The timer of the live work item goes off: the receiver runs and the
        item's callback gets its value. */
    method Fire()
      requires Valid()
      modifies this
      ensures Valid()
      ensures triggers == old(triggers) + [TimerFired]
      ensures pending == None
      ensures old(pending).None? ==> log == old(log) && delivered == old(delivered)
      ensures old(pending).Some? ==>
                var s := receiver.run(old(log));
                log == s.log && delivered == old(delivered) + [Delivery(old(pending).value, s.value)]
    {
      if pending.Some? {
        var s := receiver.run(log);
        log := s.log;
        delivered := delivered + [Delivery(pending.value, s.value)];
        pending := None;
      }
      triggers := triggers + [TimerFired];
      assert triggers[..|triggers| - 1] == old(triggers);
    }
  }

  /** The future returned by `throttled(delay:)`. */
  class Throttler<R> {
    const receiver: Future<R>
    const start: Log
    var pending: Option<CallbackId>
    var log: Log
    var delivered: seq<Delivery<R>>
    ghost var triggers: seq<Trigger>

    ghost predicate Valid()
      reads this
    {
      Gate(Throttle, receiver, start, triggers) == GateState(pending, log, delivered)
    }

    /** A throttled future has called exactly the first run of every window
        of its history that a timer event closed, in order. */
    lemma CallsLeading()
      requires Valid()
      ensures Callbacks(delivered) == Leading(triggers)
    {
      ThrottleCallsLeading(receiver, start, triggers);
    }

    /** `throttled(delay:)`: no work item yet. */
    constructor(receiver: Future<R>, start: Log)
      ensures Valid()
      ensures this.receiver == receiver && this.start == start
      ensures triggers == [] && pending == None && log == start && delivered == []
    {
      this.receiver := receiver;
      this.start := start;
      pending := None;
      log := start;
      delivered := [];
      triggers := [];
    }

    /** `run(cb)`: ignored while a work item is live (`cb` is then never
        called); otherwise schedule one for `cb`. */
    method Run(cb: CallbackId)
      requires Valid()
      modifies this
      ensures Valid()
      ensures triggers == old(triggers) + [RunCall(cb)]
      ensures pending == if old(pending).None? then Some(cb) else old(pending)
      ensures log == old(log) && delivered == old(delivered)
    {
      if pending.None? {
        pending := Some(cb);
      }
      triggers := triggers + [RunCall(cb)];
      assert triggers[..|triggers| - 1] == old(triggers);
    }

    /** The timer of the live work item goes off: the receiver runs, the
        item's callback gets its value, and the token is reset. */
    method Fire()
      requires Valid()
      modifies this
      ensures Valid()
      ensures triggers == old(triggers) + [TimerFired]
      ensures pending == None
      ensures old(pending).None? ==> log == old(log) && delivered == old(delivered)
      ensures old(pending).Some? ==>
                var s := receiver.run(old(log));
                log == s.log && delivered == old(delivered) + [Delivery(old(pending).value, s.value)]
    {
      if pending.Some? {
        var s := receiver.run(log);
        log := s.log;
        delivered := delivered + [Delivery(pending.value, s.value)];
        pending := None;
      }
      triggers := triggers + [TimerFired];
      assert triggers[..|triggers| - 1] == old(triggers);
    }
  }

  // ---------------------------------------------------------------------
  // Debounce: the reference description

  /** The callbacks of the runs that are directly followed by a timer event,
      in order: a debounced run is performed only if no other run comes
      before its timer. */
  function Coalesced(ts: seq<Trigger>): seq<CallbackId>
    decreases |ts|
  {
    if |ts| < 2 then []
    else (if ts[0].RunCall? && ts[1] == TimerFired then [ts[0].callback] else []) + Coalesced(ts[1..])
  }

  lemma {:induction false} CoalescedAppend(ts: seq<Trigger>, t: Trigger)
    ensures Coalesced(ts + [t])
         == Coalesced(ts) + (if |ts| >= 1 && ts[|ts| - 1].RunCall? && t == TimerFired then [ts[|ts| - 1].callback] else [])
    decreases |ts|
  {
    if |ts| >= 2 {
      assert (ts + [t])[1..] == ts[1..] + [t];
      CoalescedAppend(ts[1..], t);
    }
  }

  /** A callback is in `Coalesced(ts)` exactly when a run with that callback
      is directly followed by a timer event. */
  lemma {:induction false} CoalescedMembers(ts: seq<Trigger>, x: CallbackId)
    ensures x in Coalesced(ts) <==> exists i :: 0 <= i < |ts| - 1 && ts[i] == RunCall(x) && ts[i + 1] == TimerFired
    decreases |ts|
  {
    if |ts| >= 2 {
      CoalescedMembers(ts[1..], x);
      if exists i :: 0 <= i < |ts| - 1 && ts[i] == RunCall(x) && ts[i + 1] == TimerFired {
        var i :| 0 <= i < |ts| - 1 && ts[i] == RunCall(x) && ts[i + 1] == TimerFired;
        if i > 0 {
          assert ts[1..][i - 1] == RunCall(x) && ts[1..][i] == TimerFired;
        }
      }
      if x in Coalesced(ts[1..]) {
        var j :| 0 <= j < |ts| - 2 && ts[1..][j] == RunCall(x) && ts[1..][j + 1] == TimerFired;
        assert ts[j + 1] == RunCall(x) && ts[j + 2] == TimerFired;
      }
    }
  }

  /** The debounce gate calls exactly the coalesced callbacks, in order, and
      a work item is live exactly when the last event was a run, for that
      run's callback. */
  lemma {:induction false} DebounceCallsCoalesced<R>(receiver: Future<R>, start: Log, ts: seq<Trigger>)
    ensures var g := Gate(Debounce, receiver, start, ts);
            && g.pending == (if ts != [] && ts[|ts| - 1].RunCall? then Some(ts[|ts| - 1].callback) else None)
            && Callbacks(g.delivered) == Coalesced(ts)
    decreases |ts|
  {
    if ts != [] {
      var p, t := ts[..|ts| - 1], ts[|ts| - 1];
      assert ts == p + [t];
      DebounceCallsCoalesced(receiver, start, p);
      CoalescedAppend(p, t);
    }
  }

  /** A debounced run that is followed by another run before its timer is
      superseded: its callback is never called. */
  lemma DebounceNeverCallsSuperseded<R>(receiver: Future<R>, start: Log, ts: seq<Trigger>, i: nat)
    requires i + 1 < |ts| && ts[i].RunCall? && ts[i + 1].RunCall?
    requires forall j :: 0 <= j < |ts| && j != i && ts[j].RunCall? ==> ts[j].callback != ts[i].callback
    ensures ts[i].callback !in Callbacks(Gate(Debounce, receiver, start, ts).delivered)
  {
    DebounceCallsCoalesced(receiver, start, ts);
    CoalescedMembers(ts, ts[i].callback);
  }

  // ---------------------------------------------------------------------
  // Throttle: the reference description

  /** The callbacks of the runs since the last timer event, in order: the
      current window. */
  function Window(ts: seq<Trigger>): seq<CallbackId>
    decreases |ts|
  {
    if ts == [] then []
    else match ts[|ts| - 1]
      case TimerFired => []
      case RunCall(cb) => Window(ts[..|ts| - 1]) + [cb]
  }

  /** For every timer event, the callback of the first run of the window
      it closes, if that window is not empty. */
  function Leading(ts: seq<Trigger>): seq<CallbackId>
    decreases |ts|
  {
    if ts == [] then []
    else
      var p := ts[..|ts| - 1];
      if ts[|ts| - 1] == TimerFired && Window(p) != [] then Leading(p) + [Window(p)[0]] else Leading(p)
  }

  /** The window is the tail of the history after its last timer event:
      it consists of runs only, in order, and begins at the start of the
      history or right after a timer event. */
  lemma {:induction false} WindowIsTail(ts: seq<Trigger>)
    ensures |Window(ts)| <= |ts|
    ensures var n := |ts| - |Window(ts)|;
            && (forall k :: n <= k < |ts| ==> ts[k] == RunCall(Window(ts)[k - n]))
            && (n == 0 || ts[n - 1] == TimerFired)
    decreases |ts|
  {
    if ts != [] {
      var p := ts[..|ts| - 1];
      WindowIsTail(p);
      if ts[|ts| - 1].RunCall? {
        assert forall k :: 0 <= k < |p| ==> ts[k] == p[k];
      }
    }
  }

  /** A throttle work item is live exactly when the current window is not
      empty, and it belongs to the first run of that window. */
  lemma {:induction false} ThrottlePendingFirstOfWindow<R>(receiver: Future<R>, start: Log, ts: seq<Trigger>)
    ensures var w := Window(ts);
            Gate(Throttle, receiver, start, ts).pending == if w == [] then None else Some(w[0])
    decreases |ts|
  {
    if ts != [] {
      ThrottlePendingFirstOfWindow(receiver, start, ts[..|ts| - 1]);
    }
  }

  /** The throttle gate calls exactly the leading callbacks, in order. */
  lemma {:induction false} ThrottleCallsLeading<R>(receiver: Future<R>, start: Log, ts: seq<Trigger>)
    ensures Callbacks(Gate(Throttle, receiver, start, ts).delivered) == Leading(ts)
    decreases |ts|
  {
    if ts != [] {
      var p := ts[..|ts| - 1];
      ThrottleCallsLeading(receiver, start, p);
      ThrottlePendingFirstOfWindow(receiver, start, p);
      var g := Gate(Throttle, receiver, start, p);
      if ts[|ts| - 1] == TimerFired && g.pending.Some? {
        CallbacksAppend(g.delivered, Delivery(g.pending.value, receiver.run(g.log).value));
      }
    }
  }

  /** Every callback in `Leading(ts)` belongs to a run that opened its
      window: the first event, or one right after a timer event. */
  lemma {:induction false} LeadingOpensWindow(ts: seq<Trigger>, x: CallbackId)
    requires x in Leading(ts)
    ensures exists i :: 0 <= i < |ts| && ts[i] == RunCall(x) && (i == 0 || ts[i - 1] == TimerFired)
    decreases |ts|
  {
    var p := ts[..|ts| - 1];
    if x in Leading(p) {
      LeadingOpensWindow(p, x);
      var i :| 0 <= i < |p| && p[i] == RunCall(x) && (i == 0 || p[i - 1] == TimerFired);
      assert ts[i] == p[i];
    } else {
      WindowIsTail(p);
      var n := |p| - |Window(p)|;
      assert p[n] == RunCall(Window(p)[0]);
      assert ts[n] == RunCall(x);
    }
  }

  /** Conversely, a run that opens a window which a later timer event
      closes is in `Leading(ts)`. */
  lemma {:induction false} LeadingHasClosedOpeners(ts: seq<Trigger>, i: nat, j: nat)
    requires i < j < |ts| && ts[i].RunCall? && (i == 0 || ts[i - 1] == TimerFired)
    requires ts[j] == TimerFired && forall k :: i < k < j ==> ts[k].RunCall?
    ensures ts[i].callback in Leading(ts)
    decreases |ts|
  {
    var p := ts[..|ts| - 1];
    if j < |ts| - 1 {
      LeadingHasClosedOpeners(p, i, j);
    } else {
      WindowIsTail(p);
      var n := |p| - |Window(p)|;
      assert p[i].RunCall? && (i == 0 || p[i - 1] == TimerFired);
      assert forall k :: i < k < |p| ==> p[k].RunCall?;
      assert n == i;
      assert p[n] == RunCall(Window(p)[0]);
    }
  }

  lemma CallbacksAppend<R>(ds: seq<Delivery<R>>, d: Delivery<R>)
    ensures Callbacks(ds + [d]) == Callbacks(ds) + [d.callback]
  {
  }

  /** A throttled run made while a work item is live is dropped: its
      callback is never called. */
  lemma ThrottleNeverCallsDropped<R>(receiver: Future<R>, start: Log, ts: seq<Trigger>, i: nat)
    requires 0 < i < |ts| && ts[i].RunCall? && ts[i - 1].RunCall?
    requires forall j :: 0 <= j < |ts| && j != i && ts[j].RunCall? ==> ts[j].callback != ts[i].callback
    ensures ts[i].callback !in Callbacks(Gate(Throttle, receiver, start, ts).delivered)
  {
    ThrottleCallsLeading(receiver, start, ts);
    if ts[i].callback in Leading(ts) {
      LeadingOpensWindow(ts, ts[i].callback);
    }
  }

  // ---------------------------------------------------------------------
  // Both gates

  /** Either gate runs the receiver once per invoked callback and for no
      other reason: with an instrumented receiver, the k-th invoked callback
      gets the receiver's k-th outcome. */
  lemma {:induction false} GateRunsReceiverOncePerCall<R>(policy: Policy, id: LeafId, outcomes: nat -> R, start: Log, ts: seq<Trigger>)
    ensures var g := Gate(policy, Leaf(id, outcomes), start, ts);
            && Starts(g.log, id) == Starts(start, id) + |g.delivered|
            && forall k :: 0 <= k < |g.delivered| ==> g.delivered[k].value == outcomes(Starts(start, id) + k)
    decreases |ts|
  {
    if ts != [] {
      var p := ts[..|ts| - 1];
      GateRunsReceiverOncePerCall(policy, id, outcomes, start, p);
      var g := Gate(policy, Leaf(id, outcomes), start, p);
      if ts[|ts| - 1] == TimerFired && g.pending.Some? {
        LeafRunsOnce(id, outcomes, g.log);
        var d := Delivery(g.pending.value, outcomes(Starts(g.log, id)));
        assert Gate(policy, Leaf(id, outcomes), start, ts) == GateState(None, g.log + [Started(id)], g.delivered + [d]);
      } else {
        assert Gate(policy, Leaf(id, outcomes), start, ts).log == g.log;
        assert Gate(policy, Leaf(id, outcomes), start, ts).delivered == g.delivered;
      }
    }
  }

  /** Three runs in a row, then the timer: the debounce calls only the last
      callback; the throttle calls only the first. */
  method BurstScenario() returns (debounced: seq<CallbackId>, throttled: seq<CallbackId>)
    ensures debounced == [3]
    ensures throttled == [1]
  {
    var d := new Debouncer(Value(0), []);
    d.Run(1);
    d.Run(2);
    d.Run(3);
    d.Fire();
    debounced := Callbacks(d.delivered);
    var t := new Throttler(Value(0), []);
    t.Run(1);
    t.Run(2);
    t.Run(3);
    t.Fire();
    throttled := Callbacks(t.delivered);
  }

  /** Runs spread over two timer periods, with a timer event on an idle
      gate in between: the debounce calls the last callback of each period. */
  method DebouncePeriodsScenario() returns (calls: seq<CallbackId>)
    ensures calls == [2, 4]
  {
    var d := new Debouncer(Value(0), []);
    d.Run(1);
    d.Run(2);
    d.Fire();
    d.Fire();
    d.Run(3);
    d.Run(4);
    d.Fire();
    calls := Callbacks(d.delivered);
  }

  /** The same events on a throttle: it calls the first callback of each
      period. */
  method ThrottlePeriodsScenario() returns (calls: seq<CallbackId>)
    ensures calls == [1, 3]
  {
    var t := new Throttler(Value(0), []);
    t.Run(1);
    t.Run(2);
    t.Fire();
    t.Fire();
    t.Run(3);
    t.Run(4);
    t.Fire();
    calls := Callbacks(t.delivered);
  }
}
