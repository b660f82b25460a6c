/** The trailing-edge debounce of `src/store/cartStore.js` (`debounce`), also used, with
    a different delay, by the search box of `src/pages/jelajah.js` (`useDebounce`).

    The closure variable `timeout` is modelled as at most one pending call; real timers
    are replaced by abstract ticks of the clock. */
module Debounce {
  import opened Js

  /** A scheduled call: its argument and the tick at which its timer expires. */
  datatype Pending<T> = Pending(arg: T, due: nat)

  /** The state of the debounced function: the current tick and the one pending
      `setTimeout`, if any. */
  datatype Timer<T> = Timer(now: nat, pending: Option<Pending<T>>)

  /** What one tick does: the new state and the argument of the call that fired, if any. */
  datatype Step<T> = Step(timer: Timer<T>, fired: Option<T>)

  /** An input to the debounced function: a call, or one tick of the clock. */
  datatype Event<T> = Call(arg: T) | Tick

  /** The outcome of a run of events: the final state and the arguments of the calls
      that fired, in the order they fired. */
  datatype Trace<T> = Trace(timer: Timer<T>, fired: seq<T>)

  /** A calling of the debounced function, `clearTimeout(timeout); timeout = setTimeout(later, wait)`:
      whatever was pending is dropped and this call is due `wait` ticks from now. */
  function Schedule<T>(t: Timer<T>, arg: T, wait: nat): (r: Timer<T>)
    ensures r.now == t.now
    ensures r.pending.Some? && r.pending.value.arg == arg && r.pending.value.due == t.now + wait
  {
    Timer(t.now, Some(Pending(arg, t.now + wait)))
  }

  /** One tick of the clock. A timer whose delay has elapsed runs `later`, which calls
      `func(...args)` and leaves nothing pending. */
  function Advance<T>(t: Timer<T>): (s: Step<T>)
    ensures s.timer.now == t.now + 1
    ensures s.fired.Some? <==> t.pending.Some? && t.pending.value.due <= t.now + 1
    ensures s.fired.Some? ==> s.fired.value == t.pending.value.arg && s.timer.pending.None?
    ensures s.fired.None? ==> s.timer.pending == t.pending
  {
    var now := t.now + 1;
    if t.pending.Some? && t.pending.value.due <= now then
      Step(Timer(now, None), Some(t.pending.value.arg))
    else
      Step(Timer(now, t.pending), None)
  }

  /** Feeds the events to the debounced function one after the other. */
  function Run<T>(t: Timer<T>, evs: seq<Event<T>>, wait: nat): Trace<T>
    decreases |evs|
  {
    if evs == [] then Trace(t, [])
    else match evs[0]
      case Call(a) => Run(Schedule(t, a, wait), evs[1..], wait)
      case Tick =>
        var s := Advance(t);
        var rest := Run(s.timer, evs[1..], wait);
        Trace(rest.timer, (if s.fired.Some? then [s.fired.value] else []) + rest.fired)
  }

  /** `k` ticks in a row. */
  function Ticks<T>(k: nat): (evs: seq<Event<T>>)
    ensures |evs| == k
    decreases k
  {
    if k == 0 then [] else [Tick] + Ticks(k - 1)
  }

  /** A burst of calls with the given arguments, the `i`-th followed by `gaps[i]` ticks. */
  function Burst<T>(args: seq<T>, gaps: seq<nat>): seq<Event<T>>
    requires |args| == |gaps| + 1
    decreases |gaps|
  {
    if gaps == [] then [Call(args[0])]
    else [Call(args[0])] + Ticks(gaps[0]) + Burst(args[1..], gaps[1..])
  }

  /** Running two lists of events one after the other is running their concatenation. */
  lemma {:induction false} RunAppend<T>(t: Timer<T>, a: seq<Event<T>>, b: seq<Event<T>>, wait: nat)
    ensures var ra := Run(t, a, wait);
            var rb := Run(ra.timer, b, wait);
            Run(t, a + b, wait) == Trace(rb.timer, ra.fired + rb.fired)
    decreases |a|
  {
    if a == [] {
      assert a + b == b;
    } else {
      assert (a + b)[0] == a[0];
      assert (a + b)[1..] == a[1..] + b;
      match a[0]
      case Call(x) =>
        RunAppend(Schedule(t, x, wait), a[1..], b, wait);
      case Tick =>
        RunAppend(Advance(t).timer, a[1..], b, wait);
    }
  }

  /** While a call is pending and its delay has not yet elapsed, ticks fire nothing and
      keep it pending. */
  lemma {:induction false} QuietTicks<T>(t: Timer<T>, k: nat, wait: nat)
    requires t.pending.Some? && t.now + k < t.pending.value.due
    ensures Run(t, Ticks(k), wait) == Trace(Timer(t.now + k, t.pending), [])
    decreases k
  {
    if k > 0 {
      assert Ticks<T>(k)[0] == Tick && Ticks<T>(k)[1..] == Ticks(k - 1);
      QuietTicks(Advance(t).timer, k - 1, wait);
    }
  }

  /** A pending call fires exactly once, on the tick at which its delay elapses. */
  lemma {:induction false} FiresWhenDue<T>(t: Timer<T>, k: nat, wait: nat)
    requires t.pending.Some? && t.pending.value.due == t.now + k && k >= 1
    ensures Run(t, Ticks(k), wait) == Trace(Timer(t.now + k, None), [t.pending.value.arg])
    decreases k
  {
    assert Ticks<T>(k)[0] == Tick && Ticks<T>(k)[1..] == Ticks(k - 1);
    if k > 1 {
      FiresWhenDue(Advance(t).timer, k - 1, wait);
    }
  }

  /** With nothing pending, ticks fire nothing. */
  lemma {:induction false} IdleTicks<T>(t: Timer<T>, k: nat, wait: nat)
    requires t.pending.None?
    ensures Run(t, Ticks(k), wait) == Trace(Timer(t.now + k, None), [])
    decreases k
  {
    if k > 0 {
      assert Ticks<T>(k)[0] == Tick && Ticks<T>(k)[1..] == Ticks(k - 1);
      IdleTicks(Advance(t).timer, k - 1, wait);
    }
  }

  /** Throughout a burst whose gaps are all shorter than the delay nothing fires, and at
      its end only the last call is pending, due `wait` ticks later. Whatever was pending
      before the burst is cancelled by its first call. */
  lemma {:induction false} BurstLeavesLastPending<T>(t: Timer<T>, args: seq<T>, gaps: seq<nat>, wait: nat)
    requires |args| == |gaps| + 1
    requires forall i :: 0 <= i < |gaps| ==> gaps[i] < wait
    ensures var r := Run(t, Burst(args, gaps), wait);
            r.fired == [] && r.timer.pending == Some(Pending(args[|args| - 1], r.timer.now + wait))
    decreases |gaps|
  {
    var s := Schedule(t, args[0], wait);
    if gaps == [] {
      assert Burst(args, gaps) == [Call(args[0])];
      assert Run(t, Burst(args, gaps), wait) == Run(s, [], wait);
    } else {
      var ticks: seq<Event<T>> := Ticks(gaps[0]);
      var rest := Burst(args[1..], gaps[1..]);
      assert Burst(args, gaps) == [Call(args[0])] + (ticks + rest);
      assert Run(t, Burst(args, gaps), wait) == Run(s, ticks + rest, wait);
      QuietTicks(s, gaps[0], wait);
      RunAppend(s, ticks, rest, wait);
      var mid := Run(s, ticks, wait).timer;
      assert forall i :: 0 <= i < |gaps[1..]| ==> gaps[1..][i] == gaps[i + 1];
      BurstLeavesLastPending(mid, args[1..], gaps[1..], wait);
    }
  }

  /** Coalescing: a burst of calls whose gaps are all shorter than the delay, followed by
      `wait` quiet ticks, makes exactly one call of the debounced function, with the
      argument of the LAST call of the burst, and leaves nothing pending. */
  lemma {:induction false} BurstFiresLastOnce<T>(t: Timer<T>, args: seq<T>, gaps: seq<nat>, wait: nat)
    requires wait >= 1
    requires |args| == |gaps| + 1
    requires forall i :: 0 <= i < |gaps| ==> gaps[i] < wait
    ensures var r := Run(t, Burst(args, gaps) + Ticks(wait), wait);
            r.fired == [args[|args| - 1]] && r.timer.pending.None?
  {
    RunAppend(t, Burst(args, gaps), Ticks(wait), wait);
    BurstLeavesLastPending(t, args, gaps, wait);
    var mid := Run(t, Burst(args, gaps), wait).timer;
    FiresWhenDue(mid, wait, wait);
  }

  /** A single call fires after exactly `wait` ticks and not one tick earlier. */
  lemma {:induction false} CallFiresAfterDelay<T>(t: Timer<T>, arg: T, wait: nat)
    requires wait >= 1
    ensures Run(Schedule(t, arg, wait), Ticks(wait - 1), wait).fired == []
    ensures Run(Schedule(t, arg, wait), Ticks(wait), wait).fired == [arg]
  {
    QuietTicks(Schedule(t, arg, wait), wait - 1, wait);
    FiresWhenDue(Schedule(t, arg, wait), wait, wait);
  }
}
