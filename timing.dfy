/**
 * `Timing.debounce` and `Timing.throttle` (lib/shine.timing.js). Each returned
 * closure keeps a timeout id (one pending timer at most) and, for throttle, the
 * timestamp of the last run. The clock (`performance.now()` and the moment a
 * timer fires) is an explicit parameter; each run of the callback is recorded
 * with its arguments.
 */
module Timing {
  import opened Wrappers
  import opened Numerics

  /** `delay = delay || 0`: a missing, zero or NaN delay is 0. */
  function DelayOrZero(delay: Option<real>): (d: real)
    ensures delay.None? ==> d == 0.0
    ensures delay.Some? ==> d == delay.value
  {
    delay.GetOr(0.0)
  }

  /** When `setTimeout(fn, delay)` at `now` comes due; timers treat a negative delay as 0. */
  function DueAt(now: real, delay: real): (t: real)
    ensures t >= now && t >= now + delay
  {
    now + Max(0.0, delay)
  }

  /** One call of the returned closure: its timestamp and its arguments. */
  datatype Call<A> = Call(at: real, args: A)

  /** A scheduled timeout: when it is due, the arguments it runs with, and the timestamp of the call that scheduled it. */
  datatype Timeout<A> = Timeout(due: real, args: A, stamp: real)

  /** The state captured by a debounced function: the pending timeout and the runs so far. */
  datatype Debounced<A> = Debounced(pending: Option<Timeout<A>>, runs: seq<A>)

  /** A call of the debounced function: cancel the pending timeout, schedule a new one with these arguments. */
  function DebounceCall<A>(s: Debounced<A>, delay: real, c: Call<A>): (r: Debounced<A>)
    ensures r.runs == s.runs
    ensures r.pending.Some? && r.pending.value.args == c.args && r.pending.value.due == DueAt(c.at, delay)
  {
    Debounced(Some(Timeout(DueAt(c.at, delay), c.args, c.at)), s.runs)
  }

  /** The clock reaches `now`: a due timeout runs the callback with its arguments and is gone. */
  function DebounceFire<A>(s: Debounced<A>, now: real): (r: Debounced<A>)
    ensures s.pending.Some? && s.pending.value.due <= now ==> r == Debounced(None, s.runs + [s.pending.value.args])
    ensures s.pending.None? || now < s.pending.value.due ==> r == s
  {
    match s.pending
    case Some(t) => if t.due <= now then Debounced(None, s.runs + [t.args]) else s
    case None => s
  }

  /** A burst of calls, in order, with no timer firing between them. */
  function DebounceCalls<A>(s: Debounced<A>, delay: real, calls: seq<Call<A>>): Debounced<A> {
    if calls == [] then s
    else DebounceCall(DebounceCalls(s, delay, calls[..|calls| - 1]), delay, calls[|calls| - 1])
  }

  /**
   * After a burst, nothing has run and exactly one timeout is pending: the one
   * of the most recent call, with its arguments.
   */
  lemma {:induction false} DebounceLatest<A>(s: Debounced<A>, delay: real, calls: seq<Call<A>>)
    requires calls != []
    ensures var r := DebounceCalls(s, delay, calls); var last := calls[|calls| - 1];
      r.runs == s.runs && r.pending == Some(Timeout(DueAt(last.at, delay), last.args, last.at))
  {
    if |calls| > 1 {
      DebounceLatest(s, delay, calls[..|calls| - 1]);
    }
  }

  /** When the clock then passes the last call by `delay`, the callback runs once, with the last call's arguments. */
  lemma DebounceSettles<A>(s: Debounced<A>, delay: real, calls: seq<Call<A>>, now: real)
    requires calls != [] && now >= DueAt(calls[|calls| - 1].at, delay)
    ensures DebounceFire(DebounceCalls(s, delay, calls), now) == Debounced(None, s.runs + [calls[|calls| - 1].args])
  {
    DebounceLatest(s, delay, calls);
  }

  /** The state captured by a throttled function: the last run's timestamp (NaN at first), the pending timeout, the runs. */
  datatype Throttled<A> = Throttled(previous: Option<real>, pending: Option<Timeout<A>>, runs: seq<A>)

  /** Whether a call at `now` falls inside the window after the previous run. */
  predicate InWindow(previous: Option<real>, delay: real, now: real) {
    previous.Some? && now < previous.value + delay
  }

  /**
   * A call of the throttled function. Inside the window it replaces any pending
   * timeout with one due `delay` later; otherwise it cancels any pending
   * timeout, records `now` and runs the callback at once.
   */
  function ThrottleCall<A>(s: Throttled<A>, delay: real, c: Call<A>): (r: Throttled<A>)
    ensures InWindow(s.previous, delay, c.at) ==>
      r == s.(pending := Some(Timeout(DueAt(c.at, delay), c.args, c.at)))
    ensures !InWindow(s.previous, delay, c.at) ==>
      r == Throttled(Some(c.at), None, s.runs + [c.args])
  {
    if InWindow(s.previous, delay, c.at) then Throttled(s.previous, Some(Timeout(DueAt(c.at, delay), c.args, c.at)), s.runs)
    else Throttled(Some(c.at), None, s.runs + [c.args])
  }

  /** The clock reaches `now`: a due timeout records the timestamp of the call that scheduled it, then runs. */
  function ThrottleFire<A>(s: Throttled<A>, now: real): (r: Throttled<A>)
    ensures s.pending.Some? && s.pending.value.due <= now ==>
      r == Throttled(Some(s.pending.value.stamp), None, s.runs + [s.pending.value.args])
    ensures s.pending.None? || now < s.pending.value.due ==> r == s
  {
    match s.pending
    case Some(t) => if t.due <= now then Throttled(Some(t.stamp), None, s.runs + [t.args]) else s
    case None => s
  }

  /** The first call of a throttled function runs the callback immediately, whatever the delay. */
  lemma ThrottleFirstRunsNow<A>(delay: real, c: Call<A>)
    ensures ThrottleCall(Throttled(None, None, []), delay, c) == Throttled(Some(c.at), None, [c.args])
  {
  }

  /** A burst of throttled calls, in order, with no timer firing between them. */
  function ThrottleCalls<A>(s: Throttled<A>, delay: real, calls: seq<Call<A>>): Throttled<A> {
    if calls == [] then s
    else ThrottleCall(ThrottleCalls(s, delay, calls[..|calls| - 1]), delay, calls[|calls| - 1])
  }

  /**
   * Calls that all fall inside the window of the last run do not run the
   * callback: they keep the timestamp and leave one pending timeout, the last
   * call's.
   */
  lemma {:induction false} ThrottleBurst<A>(s: Throttled<A>, delay: real, calls: seq<Call<A>>)
    requires calls != []
    requires forall k :: 0 <= k < |calls| ==> InWindow(s.previous, delay, calls[k].at)
    ensures var r := ThrottleCalls(s, delay, calls); var last := calls[|calls| - 1];
      r == Throttled(s.previous, Some(Timeout(DueAt(last.at, delay), last.args, last.at)), s.runs)
  {
    if |calls| > 1 {
      ThrottleBurst(s, delay, calls[..|calls| - 1]);
    }
  }

  /**
   * After such a burst the deferred run uses the last call's arguments and
   * records that call's timestamp, not the time at which it runs.
   */
  lemma ThrottleDeferredStamp<A>(s: Throttled<A>, delay: real, calls: seq<Call<A>>, now: real)
    requires calls != []
    requires forall k :: 0 <= k < |calls| ==> InWindow(s.previous, delay, calls[k].at)
    requires now >= DueAt(calls[|calls| - 1].at, delay)
    ensures var r := ThrottleFire(ThrottleCalls(s, delay, calls), now);
      r.previous == Some(calls[|calls| - 1].at) && r.pending.None? && r.runs == s.runs + [calls[|calls| - 1].args]
  {
    ThrottleBurst(s, delay, calls);
  }

  /** Every immediate run leaves a clear slot: a run now cancels whatever was pending. */
  lemma ThrottleRunCancels<A>(s: Throttled<A>, delay: real, c: Call<A>)
    requires !InWindow(s.previous, delay, c.at)
    ensures ThrottleCall(s, delay, c).pending.None?
    ensures |ThrottleCall(s, delay, c).runs| == |s.runs| + 1
  {
  }

  /** The closure returned by `debounce(fnCallback, delay)`. */
  class Debouncer<A> {
    const delay: real
    var pending: Option<Timeout<A>>
    var runs: seq<A>

    function State(): Debounced<A>
      reads this
    {
      Debounced(pending, runs)
    }

    constructor(optDelay: Option<real>)
      ensures delay == DelayOrZero(optDelay) && State() == Debounced(None, [])
    {
      delay := DelayOrZero(optDelay);
      pending := None;
      runs := [];
    }

    /** Calling the debounced function at time `now`. */
    method Invoke(now: real, args: A)
      modifies this
      ensures State() == DebounceCall(old(State()), delay, Call(now, args))
    {
      if pending.Some? {
        pending := None;
      }
      pending := Some(Timeout(DueAt(now, delay), args, now));
    }

    /** The timer loop reaching `now`. */
    method Elapse(now: real)
      modifies this
      ensures State() == DebounceFire(old(State()), now)
    {
      if pending.Some? && pending.value.due <= now {
        runs := runs + [pending.value.args];
        pending := None;
      }
    }
  }

  /** The closure returned by `throttle(fnCallback, delay)`. */
  class Throttler<A> {
    const delay: real
    var previous: Option<real>
    var pending: Option<Timeout<A>>
    var runs: seq<A>

    function State(): Throttled<A>
      reads this
    {
      Throttled(previous, pending, runs)
    }

    constructor(optDelay: Option<real>)
      ensures delay == DelayOrZero(optDelay) && State() == Throttled(None, None, [])
    {
      delay := DelayOrZero(optDelay);
      previous := None;
      pending := None;
      runs := [];
    }

    /** Calling the throttled function when `performance.now()` is `now`. */
    method Invoke(now: real, args: A)
      modifies this
      ensures State() == ThrottleCall(old(State()), delay, Call(now, args))
    {
      if previous.Some? && now < previous.value + delay {
        pending := Some(Timeout(DueAt(now, delay), args, now));
      } else {
        pending := None;
        previous := Some(now);
        runs := runs + [args];
      }
    }

    /** The timer loop reaching `now`. */
    method Elapse(now: real)
      modifies this
      ensures State() == ThrottleFire(old(State()), now)
    {
      if pending.Some? && pending.value.due <= now {
        previous := Some(pending.value.stamp);
        runs := runs + [pending.value.args];
        pending := None;
      }
    }
  }
}
