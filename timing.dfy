/**
 * The rate limiters `throttle(func, limit)` and `debounce(func, wait)`.
 *
 * Each returned wrapper keeps one piece of closure state: the throttle its
 * `inThrottle` flag, the debounce its pending `timeout`. The wrapped
 * `func` is outside the model; what it is invoked with is recorded as a
 * log. A timer firing is an explicit event, so the durations `limit` and
 * `wait` play no part.
 */
module Timing {
  import opened Maybe

  // ---------------------------------------------------------------- throttle

  datatype ThrottleEvent<A> =
    | Call(args: A)   // the wrapper is called
    | Expire          // the `limit` timer scheduled by the last invocation fires

  /** The flag after a run, and the arguments `func` was invoked with, in order. */
  datatype ThrottleRun<A> = ThrottleRun(inThrottle: bool, invoked: seq<A>)

  /**
   * One event. A call invokes `func` and raises the flag only when the flag
   * is down, and is dropped otherwise; the timer lowers the flag. The timer
   * is scheduled exactly when the flag is raised, so a timer event with the
   * flag down has no timer to fire and does nothing. The source raises the
   * flag only after `func` returns, so this step takes `func` to return
   * normally without calling the wrapper itself.
   */
  function ThrottleStep<A>(inThrottle: bool, e: ThrottleEvent<A>): (r: ThrottleRun<A>)
    ensures e.Call? && !inThrottle ==> r == ThrottleRun(true, [e.args])
    ensures e.Call? && inThrottle ==> r == ThrottleRun(true, [])
    ensures e.Expire? ==> r == ThrottleRun(false, [])
  {
    match e
    case Call(args) => if !inThrottle then ThrottleRun(true, [args]) else ThrottleRun(true, [])
    case Expire => ThrottleRun(false, [])
  }

  function RunThrottle<A>(inThrottle: bool, events: seq<ThrottleEvent<A>>): ThrottleRun<A>
    decreases |events|
  {
    if events == [] then ThrottleRun(inThrottle, [])
    else
      var first := ThrottleStep(inThrottle, events[0]);
      var rest := RunThrottle(first.inThrottle, events[1..]);
      ThrottleRun(rest.inThrottle, first.invoked + rest.invoked)
  }

  predicate NoExpire<A>(events: seq<ThrottleEvent<A>>) {
    forall k :: 0 <= k < |events| ==> events[k].Call?
  }

  /** The arguments of the first call, if any. */
  function FirstCall<A>(events: seq<ThrottleEvent<A>>): (r: Option<A>)
    ensures r.None? <==> forall k :: 0 <= k < |events| ==> !events[k].Call?
    decreases |events|
  {
    if events == [] then None
    else if events[0].Call? then Some(events[0].args)
    else FirstCall(events[1..])
  }

  /** A value found is the arguments of a call, and no call comes before it. */
  lemma {:induction false} FirstCallIsFirst<A>(events: seq<ThrottleEvent<A>>)
    ensures match FirstCall(events)
      case None => true
      case Some(a) => exists k :: 0 <= k < |events| && events[k] == Call(a) && forall j :: 0 <= j < k ==> !events[j].Call?
    decreases |events|
  {
    if events != [] && !events[0].Call? {
      FirstCallIsFirst(events[1..]);
      match FirstCall(events[1..])
      case None =>
      case Some(a) =>
        var k :| 0 <= k < |events[1..]| && events[1..][k] == Call(a) && forall j :: 0 <= j < k ==> !events[1..][j].Call?;
        assert events[k + 1] == Call(a);
        assert forall j :: 0 <= j < k + 1 ==> !events[j].Call? by {
          forall j | 0 <= j < k + 1 ensures !events[j].Call? {
            if j > 0 { assert events[j] == events[1..][j - 1]; }
          }
        }
    } else if events != [] {
      assert events[0] == Call(events[0].args);
    }
  }

  function CountExpire<A>(events: seq<ThrottleEvent<A>>): nat
    decreases |events|
  {
    if events == [] then 0 else (if events[0].Expire? then 1 else 0) + CountExpire(events[1..])
  }

  /**
   * Between two timer firings `func` runs at most once: with the flag up
   * every call is dropped, and with the flag down exactly the first call
   * goes through, with its own arguments. The flag ends up iff it was up or
   * some call was made.
   */
  lemma {:induction false} ThrottleWindow<A>(inThrottle: bool, events: seq<ThrottleEvent<A>>)
    requires NoExpire(events)
    ensures RunThrottle(inThrottle, events).invoked ==
      if inThrottle then [] else match FirstCall(events) case None => [] case Some(a) => [a]
    ensures RunThrottle(inThrottle, events).inThrottle <==> inThrottle || events != []
    decreases |events|
  {
    if events != [] {
      assert events[0].Call?;
      ThrottleWindow(true, events[1..]);
    }
  }

  /** Over any run, `func` runs at most once per timer firing, plus once if the flag started down. */
  lemma {:induction false} ThrottleRate<A>(inThrottle: bool, events: seq<ThrottleEvent<A>>)
    ensures |RunThrottle(inThrottle, events).invoked| <= CountExpire(events) + (if inThrottle then 0 else 1)
    decreases |events|
  {
    if events != [] {
      var first := ThrottleStep(inThrottle, events[0]);
      ThrottleRate(first.inThrottle, events[1..]);
    }
  }

  /** The closure of one `throttle` wrapper. */
  class Throttle<A> {
    var inThrottle: bool
    /** The arguments `func` has been invoked with, oldest first. */
    var invoked: seq<A>

    /** `let inThrottle;` starts out undefined, which `!inThrottle` treats as false. */
    constructor ()
      ensures !inThrottle && invoked == []
    {
      inThrottle := false;
      invoked := [];
    }

    /** The returned wrapper is called with `args`. */
    method Call(args: A)
      modifies this
      ensures var r := ThrottleStep(old(inThrottle), ThrottleEvent.Call(args));
        inThrottle == r.inThrottle && invoked == old(invoked) + r.invoked
    {
      if !inThrottle {
        invoked := invoked + [args];
        inThrottle := true;
      }
    }

    /** The `limit` timer fires. */
    method Expire()
      modifies this
      ensures !inThrottle && invoked == old(invoked)
    {
      inThrottle := false;
    }
  }

  // ---------------------------------------------------------------- debounce

  datatype DebounceEvent<A> =
    | Invoke(args: A)  // the wrapper is called
    | Fire             // the surviving `wait` timer fires

  /** The timer still pending, with the arguments it captured, and the invocations of `func`. */
  datatype DebounceRun<A> = DebounceRun(pending: Option<A>, invoked: seq<A>)

  /**
   * One event. A call cancels the pending timer and schedules a new one
   * capturing its arguments, so at most one timer is ever pending; the
   * pending timer fires by invoking `func` with what it captured.
   */
  function DebounceStep<A>(pending: Option<A>, e: DebounceEvent<A>): (r: DebounceRun<A>)
    ensures e.Invoke? ==> r == DebounceRun(Some(e.args), [])
    ensures e.Fire? ==> r.pending == None
    ensures e.Fire? ==> r.invoked == match pending case None => [] case Some(a) => [a]
  {
    match e
    case Invoke(args) => DebounceRun(Some(args), [])
    case Fire =>
      match pending
      case None => DebounceRun(None, [])
      case Some(a) => DebounceRun(None, [a])
  }

  function RunDebounce<A>(pending: Option<A>, events: seq<DebounceEvent<A>>): DebounceRun<A>
    decreases |events|
  {
    if events == [] then DebounceRun(pending, [])
    else
      var first := DebounceStep(pending, events[0]);
      var rest := RunDebounce(first.pending, events[1..]);
      DebounceRun(rest.pending, first.invoked + rest.invoked)
  }

  predicate NoFire<A>(events: seq<DebounceEvent<A>>) {
    forall k :: 0 <= k < |events| ==> events[k].Invoke?
  }

  function CountFire<A>(events: seq<DebounceEvent<A>>): nat
    decreases |events|
  {
    if events == [] then 0 else (if events[0].Fire? then 1 else 0) + CountFire(events[1..])
  }

  /** During a burst of calls nothing is invoked, and only the latest call's timer survives. */
  lemma {:induction false} BurstKeepsLatest<A>(pending: Option<A>, burst: seq<DebounceEvent<A>>)
    requires NoFire(burst) && burst != []
    ensures RunDebounce(pending, burst) == DebounceRun(Some(burst[|burst| - 1].args), [])
    decreases |burst|
  {
    assert burst[0].Invoke?;
    if |burst| > 1 {
      BurstKeepsLatest(Some(burst[0].args), burst[1..]);
      assert burst[1..][|burst[1..]| - 1] == burst[|burst| - 1];
    }
  }

  /**
   * A burst of calls followed by the timer firing runs `func` exactly once,
   * with the arguments of the most recent call, whatever was pending before.
   */
  lemma DebounceBurst<A>(pending: Option<A>, burst: seq<DebounceEvent<A>>)
    requires NoFire(burst) && burst != []
    ensures RunDebounce(pending, burst + [Fire]) == DebounceRun(None, [burst[|burst| - 1].args])
  {
    BurstKeepsLatest(pending, burst);
    RunDebounceAppend(pending, burst, [DebounceEvent.Fire]);
    var fire: seq<DebounceEvent<A>> := [Fire];
    assert fire[1..] == [];
  }

  lemma {:induction false} RunDebounceAppend<A>(pending: Option<A>, xs: seq<DebounceEvent<A>>, ys: seq<DebounceEvent<A>>)
    ensures var a := RunDebounce(pending, xs);
      var b := RunDebounce(a.pending, ys);
      RunDebounce(pending, xs + ys) == DebounceRun(b.pending, a.invoked + b.invoked)
    decreases |xs|
  {
    if xs == [] {
      assert xs + ys == ys;
    } else {
      assert (xs + ys)[0] == xs[0] && (xs + ys)[1..] == xs[1..] + ys;
      var first := DebounceStep(pending, xs[0]);
      RunDebounceAppend(first.pending, xs[1..], ys);
    }
  }

  /** `func` never runs more often than the timer fires. */
  lemma {:induction false} DebounceRate<A>(pending: Option<A>, events: seq<DebounceEvent<A>>)
    ensures |RunDebounce(pending, events).invoked| <= CountFire(events)
    decreases |events|
  {
    if events != [] {
      var first := DebounceStep(pending, events[0]);
      DebounceRate(first.pending, events[1..]);
    }
  }

  /** The closure of one `debounce` wrapper. */
  class Debounce<A> {
    /** The pending `timeout` and the arguments its `later` captured. */
    var pending: Option<A>
    var invoked: seq<A>

    constructor ()
      ensures pending == None && invoked == []
    {
      pending := None;
      invoked := [];
    }

    /** `executedFunction(...args)`: cancel the pending timer and schedule a new one. */
    method Call(args: A)
      modifies this
      ensures pending == Some(args) && invoked == old(invoked)
    {
      pending := Some(args);
    }

    /** The pending timer fires: `later` clears it and invokes `func`. */
    method Fire()
      modifies this
      ensures var r := DebounceStep(old(pending), DebounceEvent.Fire);
        pending == r.pending && invoked == old(invoked) + r.invoked
    {
      var captured := pending;
      pending := None;
      if captured.Some? {
        invoked := invoked + [captured.value];
      }
    }
  }
}
