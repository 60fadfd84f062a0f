/** The fixed-window counter shared by the connection limiter and both restart
    trackers: a hit opens a new window once more than `period` has passed since
    the window began, otherwise it is counted in the current one. */
module FixedWindow {
  import opened Wrappers

  datatype Window = Window(started: int, count: nat)

  function Hit(w: Option<Window>, now: int, period: nat): Window {
    if w.None? || now - w.value.started > period then Window(now, 1)
    else Window(w.value.started, w.value.count + 1)
  }

  predicate Sorted(times: seq<int>) {
    forall i, j | 0 <= i < j < |times| :: times[i] <= times[j]
  }

  /** The window after a history of hits. */
  function Current(times: seq<int>, period: nat): Option<Window> {
    if times == [] then None
    else Some(Hit(Current(times[..|times| - 1], period), times[|times| - 1], period))
  }

  /** A hit is granted while its window has not passed the limit. */
  predicate Granted(times: seq<int>, period: nat, limit: nat)
    requires times != []
  {
    Current(times, period).value.count <= limit
  }

  function GrantsIn(times: seq<int>, period: nat, limit: nat, lo: int): nat {
    if times == [] then 0
    else GrantsIn(times[..|times| - 1], period, limit, lo) +
         if Granted(times, period, limit) && lo <= times[|times| - 1] <= lo + period then 1 else 0
  }

  function GrantsOfWindow(times: seq<int>, period: nat, limit: nat, started: int): nat {
    if times == [] then 0
    else GrantsOfWindow(times[..|times| - 1], period, limit, started) +
         if Granted(times, period, limit) && Current(times, period).value.started == started then 1 else 0
  }

  /** Hits that are the first beyond the limit of the window begun at `started`. */
  function OverflowsOfWindow(times: seq<int>, period: nat, limit: nat, started: int): nat {
    if times == [] then 0
    else OverflowsOfWindow(times[..|times| - 1], period, limit, started) +
         if Current(times, period) == Some(Window(started, limit + 1)) then 1 else 0
  }

  /** Where the current window began, and that hits are granted up to its limit: it counts every hit since, the first of which found no
      window or one that had begun more than a period before, and the others of which came
      within a period of it. */
  lemma {:induction false} WindowMeaning(times: seq<int>, period: nat) returns (first: nat)
    requires times != []
    ensures first < |times|
    ensures Current(times, period) == Some(Window(times[first], |times| - first))
    ensures forall i | first < i < |times| :: times[i] - times[first] <= period
    ensures first > 0 ==> times[first] - Current(times[..first], period).value.started > period
    ensures forall limit: nat :: Granted(times, period, limit) <==> |times| - first <= limit
  {
    var front := times[..|times| - 1];
    first := |times| - 1;
    assert times[..first] == front;
    if front != [] {
      var before := WindowMeaning(front, period);
      if times[first] - front[before] <= period {
        first := before;
        assert front[..first] == times[..first];
      }
    }
  }

  /** What one more hit adds. */
  lemma OneMoreHit(times: seq<int>, now: int, period: nat, limit: nat, lo: int, started: int)
    ensures var more := times + [now];
            && Current(more, period) == Some(Hit(Current(times, period), now, period))
            && var w := Current(more, period).value;
            && GrantsIn(more, period, limit, lo) == GrantsIn(times, period, limit, lo) + (if w.count <= limit && lo <= now <= lo + period then 1 else 0)
            && GrantsOfWindow(more, period, limit, started) ==
               GrantsOfWindow(times, period, limit, started) + (if w.count <= limit && w.started == started then 1 else 0)
            && OverflowsOfWindow(more, period, limit, started) ==
               OverflowsOfWindow(times, period, limit, started) + (if w == Window(started, limit + 1) then 1 else 0)
  {
    hide Hit;
    assert (times + [now])[..|times|] == times;
  }

  function Min(a: int, b: int): int {
    if a < b then a else b
  }

  lemma {:induction false} SpanInvariant(times: seq<int>, period: nat, limit: nat, lo: int)
    requires Sorted(times)
    ensures times != [] && times[|times| - 1] < lo ==> GrantsIn(times, period, limit, lo) == 0
    ensures match Current(times, period)
            case None => GrantsIn(times, period, limit, lo) == 0
            case Some(w) =>
              && w.started <= times[|times| - 1]
              && (w.started < lo ==> GrantsIn(times, period, limit, lo) <= Min(limit, w.count))
              && (lo <= w.started <= lo + period ==> GrantsIn(times, period, limit, lo) <= limit + Min(limit, w.count))
              && GrantsIn(times, period, limit, lo) <= 2 * limit
  {
    if times != [] {
      var front := times[..|times| - 1];
      SpanInvariant(front, period, limit, lo);
      assert front != [] ==> front[|front| - 1] <= times[|times| - 1];
    }
  }

  /** Over any closed span as long as a window, at most two windows' worth of hits
      is granted, however the hits are placed. */
  lemma AtMostTwiceTheLimit(times: seq<int>, period: nat, limit: nat, lo: int)
    requires Sorted(times)
    ensures GrantsIn(times, period, limit, lo) <= 2 * limit
  {
    SpanInvariant(times, period, limit, lo);
  }

  /** A window never grants more than its limit, and is passed at most once, in whatever
      order the hits come: each window begins later than the one before. */
  lemma {:induction false} WindowBudget(times: seq<int>, period: nat, limit: nat, started: int)
    ensures GrantsOfWindow(times, period, limit, started) <= limit
    ensures OverflowsOfWindow(times, period, limit, started) <= 1
    ensures match Current(times, period)
            case None => true
            case Some(w) =>
              && w.count >= 1
              && (w.started == started ==>
                   && GrantsOfWindow(times, period, limit, started) <= w.count
                   && OverflowsOfWindow(times, period, limit, started) <= (if w.count > limit then 1 else 0))
              && (w.started < started ==> GrantsOfWindow(times, period, limit, started) == OverflowsOfWindow(times, period, limit, started) == 0)
  {
    if times != [] {
      WindowBudget(times[..|times| - 1], period, limit, started);
    }
  }
}
