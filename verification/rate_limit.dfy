/** The worker's per-address connection limiter: 60 attempts a minute, at most
    10000 addresses tracked, stale addresses forgotten only when the table is full. */
module RateLimit {
  import opened Wrappers
  import FixedWindow

  const ATTEMPTS_PER_MINUTE: nat := 60
  const MAX_TRACKED_IPS: nat := 10000
  const MINUTE: nat := 60_000_000_000

  datatype Entry = Entry(started: int, count: nat, reported: bool)

  type Table = map<string, Entry>

  /** `ceiling` marks the refusal of an unknown address by a full table. */
  datatype Answer = Answer(allowed: bool, report: bool, ceiling: bool)

  datatype Call = Call(ip: string, now: int)

  function Prune(table: Table, now: int): Table {
    map ip | ip in table && now - table[ip].started < MINUTE :: table[ip]
  }

  function Allow(table: Table, call: Call): (Table, Answer) {
    var Call(ip, now) := call;
    var kept := if ip !in table && |table| >= MAX_TRACKED_IPS then Prune(table, now) else table;
    if ip !in table && |kept| >= MAX_TRACKED_IPS then (kept, Answer(false, false, true))
    else Count(kept, call)
  }

  /** Counting an attempt in a table without a ceiling. */
  function Count(table: Table, call: Call): (Table, Answer) {
    var Call(ip, now) := call;
    if ip !in table || now - table[ip].started >= MINUTE then
      (table[ip := Entry(now, 1, false)], Answer(true, false, false))
    else
      var count := table[ip].count + 1;
      if count <= ATTEMPTS_PER_MINUTE then
        (table[ip := table[ip].(count := count)], Answer(true, false, false))
      else
        (table[ip := Entry(table[ip].started, count, true)], Answer(false, !table[ip].reported, false))
  }

  // ---- runs ----

  predicate Sorted(calls: seq<Call>) {
    forall i, j | 0 <= i < j < |calls| :: calls[i].now <= calls[j].now
  }

  function Last(calls: seq<Call>): Call
    requires calls != []
  {
    calls[|calls| - 1]
  }

  function Front(calls: seq<Call>): seq<Call>
    requires calls != []
  {
    calls[..|calls| - 1]
  }

  function After(calls: seq<Call>): Table {
    if calls == [] then map[] else Allow(After(Front(calls)), Last(calls)).0
  }

  function Reply(calls: seq<Call>): Answer
    requires calls != []
  {
    Allow(After(Front(calls)), Last(calls)).1
  }

  /** The calls that were not refused at the ceiling. */
  function Fed(calls: seq<Call>): seq<Call> {
    if calls == [] then []
    else Fed(Front(calls)) + if Reply(calls).ceiling then [] else [Last(calls)]
  }

  /** The unbounded limiter: one window per address, never forgotten. */
  function FreeAfter(calls: seq<Call>): Table {
    if calls == [] then map[] else Count(FreeAfter(Front(calls)), Last(calls)).0
  }

  function FreeReply(calls: seq<Call>): Answer
    requires calls != []
  {
    Count(FreeAfter(Front(calls)), Last(calls)).1
  }

  /** The bounded table agrees with the unbounded one except on stale windows. */
  ghost predicate Tracks(table: Table, free: Table, now: int) {
    && (forall ip | ip in table :: ip in free && table[ip] == free[ip])
    && (forall ip | ip in free && ip !in table :: now - free[ip].started >= MINUTE)
  }

  lemma {:induction false} TracksUnbounded(calls: seq<Call>, now: int)
    requires Sorted(calls) && (calls != [] ==> Last(calls).now <= now)
    ensures Tracks(After(calls), FreeAfter(Fed(calls)), now)
    ensures |After(calls)| <= MAX_TRACKED_IPS
  {
    if calls != [] {
      TracksUnbounded(Front(calls), Last(calls).now);
      AllowTracks(After(Front(calls)), FreeAfter(Fed(Front(calls))), Last(calls));
      if !Reply(calls).ceiling {
        assert Front(Fed(calls)) == Fed(Front(calls));
        assert Last(Fed(calls)) == Last(calls);
      } else {
        assert Fed(calls) == Fed(Front(calls));
      }
    }
  }

  lemma AllowTracks(table: Table, free: Table, call: Call)
    requires Tracks(table, free, call.now) && |table| <= MAX_TRACKED_IPS
    ensures var (table', answer) := Allow(table, call);
            var (free', answer') := Count(free, call);
            && |table'| <= MAX_TRACKED_IPS
            && (answer.ceiling ==> !answer.allowed && !answer.report && Tracks(table', free, call.now))
            && (!answer.ceiling ==> answer == answer' && Tracks(table', free', call.now))
  {
    PruneShrinks(table, call.now);
    var kept := if call.ip !in table && |table| >= MAX_TRACKED_IPS then Prune(table, call.now) else table;
    assert Tracks(kept, free, call.now);
  }

  lemma PruneShrinks(table: Table, now: int)
    ensures |Prune(table, now)| <= |table|
  {
    assert Prune(table, now).Keys <= table.Keys;
    SubsetSize(Prune(table, now).Keys, table.Keys);
  }

  lemma {:induction false} SubsetSize<T>(a: set<T>, b: set<T>)
    requires a <= b
    ensures |a| <= |b|
  {
    if a != {} {
      var x :| x in a;
      SubsetSize(a - {x}, b - {x});
    }
  }

  /** With a clock that never goes back, the pruned and bounded table answers every
      call exactly as an unbounded limiter that is fed the same calls without
      those refused at the ceiling, and never tracks more than the ceiling. */
  lemma {:induction false} RefinesUnbounded(calls: seq<Call>)
    requires calls != [] && Sorted(calls)
    ensures |After(calls)| <= MAX_TRACKED_IPS
    ensures if Reply(calls).ceiling then !Reply(calls).allowed && !Reply(calls).report && Fed(calls) == Fed(Front(calls))
            else Fed(calls) == Fed(Front(calls)) + [Last(calls)] && Reply(calls) == FreeReply(Fed(calls))
  {
    TracksUnbounded(Front(calls), Last(calls).now);
    AllowTracks(After(Front(calls)), FreeAfter(Fed(Front(calls))), Last(calls));
    if !Reply(calls).ceiling {
      assert Front(Fed(calls)) == Fed(Front(calls));
    }
  }

  /** An address is refused at the ceiling if and only if it is unknown and 10000 tracked
      addresses all began their window less than a minute ago. */
  lemma {:induction false} CeilingIsFull(calls: seq<Call>)
    requires calls != [] && Sorted(calls)
    ensures var table, call := After(Front(calls)), Last(calls);
            Reply(calls).ceiling <==>
              && call.ip !in table && |table| == 10000
              && forall ip | ip in table :: call.now - table[ip].started < 60_000_000_000
  {
    var table, now := After(Front(calls)), Last(calls).now;
    TracksUnbounded(Front(calls), now);
    hide After, Front, Tracks;
    var kept := Prune(table, now);
    assert kept.Keys <= table.Keys;
    assert |kept.Keys| == |kept| && |table.Keys| == |table|;
    if Reply(calls).ceiling {
      EqualSizeSubset(kept.Keys, table.Keys);
    } else if forall ip | ip in table :: now - table[ip].started < MINUTE {
      assert kept == table;
    }
  }

  lemma EqualSizeSubset<T>(a: set<T>, b: set<T>)
    requires a <= b && |a| >= |b|
    ensures a == b
  {
    if exists x :: x in b && x !in a {
      var x :| x in b && x !in a;
      SubsetSize(a + {x}, b);
    }
  }

  // ---- what one address can obtain ----

  function Times(calls: seq<Call>, ip: string): seq<int> {
    if calls == [] then []
    else Times(Front(calls), ip) + if Last(calls).ip == ip then [Last(calls).now] else []
  }

  lemma {:induction false} TimesSorted(calls: seq<Call>, ip: string)
    requires Sorted(calls)
    ensures FixedWindow.Sorted(Times(calls, ip))
    ensures calls != [] ==> forall i | 0 <= i < |Times(calls, ip)| :: Times(calls, ip)[i] <= Last(calls).now
  {
    if calls != [] {
      TimesSorted(Front(calls), ip);
      assert Front(calls) != [] ==> Last(Front(calls)).now <= Last(calls).now;
    }
  }

  lemma {:induction false} FedSorted(calls: seq<Call>)
    requires Sorted(calls)
    ensures Sorted(Fed(calls))
    ensures calls != [] ==> forall i | 0 <= i < |Fed(calls)| :: Fed(calls)[i].now <= Last(calls).now
  {
    if calls != [] {
      FedSorted(Front(calls));
      assert Front(calls) != [] ==> Last(Front(calls)).now <= Last(calls).now;
    }
  }

  /** The unbounded limiter is one fixed window of 60 hits per address. */
  lemma {:induction false} FreeIsPerAddress(calls: seq<Call>, ip: string)
    ensures match FixedWindow.Current(Times(calls, ip), MINUTE - 1)
            case None => ip !in FreeAfter(calls)
            case Some(w) => ip in FreeAfter(calls) && FreeAfter(calls)[ip] == Entry(w.started, w.count, w.count > ATTEMPTS_PER_MINUTE)
    ensures calls != [] && Last(calls).ip == ip ==>
              var w := FixedWindow.Current(Times(calls, ip), MINUTE - 1);
              && w.Some?
              && FreeReply(calls).allowed == (w.value.count <= ATTEMPTS_PER_MINUTE)
              && FreeReply(calls).report == (w.value.count == ATTEMPTS_PER_MINUTE + 1)
  {
    if calls != [] {
      FreeIsPerAddress(Front(calls), ip);
      var times := Times(calls, ip);
      if Last(calls).ip == ip {
        assert times[..|times| - 1] == Times(Front(calls), ip);
      } else {
        assert times == Times(Front(calls), ip);
      }
    }
  }

  function AllowedIn(calls: seq<Call>, ip: string, lo: int): nat {
    if calls == [] then 0
    else AllowedIn(Front(calls), ip, lo) +
         if Last(calls).ip == ip && Reply(calls).allowed && lo <= Last(calls).now < lo + MINUTE then 1 else 0
  }

  function AllowedInWindow(calls: seq<Call>, ip: string, started: int): nat {
    if calls == [] then 0
    else AllowedInWindow(Front(calls), ip, started) +
         if Last(calls).ip == ip && Reply(calls).allowed && ip in After(calls) && After(calls)[ip].started == started then 1 else 0
  }

  function ReportsInWindow(calls: seq<Call>, ip: string, started: int): nat {
    if calls == [] then 0
    else ReportsInWindow(Front(calls), ip, started) +
         if Last(calls).ip == ip && Reply(calls).report && ip in After(calls) && After(calls)[ip].started == started then 1 else 0
  }

  ghost predicate CountsAgree(calls: seq<Call>, ip: string, lo: int, started: int) {
    var times := Times(Fed(calls), ip);
    && AllowedIn(calls, ip, lo) == FixedWindow.GrantsIn(times, MINUTE - 1, ATTEMPTS_PER_MINUTE, lo)
    && AllowedInWindow(calls, ip, started) == FixedWindow.GrantsOfWindow(times, MINUTE - 1, ATTEMPTS_PER_MINUTE, started)
    && ReportsInWindow(calls, ip, started) == FixedWindow.OverflowsOfWindow(times, MINUTE - 1, ATTEMPTS_PER_MINUTE, started)
  }

  /** A call that the table answered adds one hit to its address's window. */
  lemma AnsweredCall(calls: seq<Call>)
    requires calls != [] && Sorted(calls) && !Reply(calls).ceiling
    ensures var ip := Last(calls).ip;
            var times := Times(Fed(calls), ip);
            && times == Times(Fed(Front(calls)), ip) + [Last(calls).now]
            && ip in After(calls)
            && var w := FixedWindow.Current(times, MINUTE - 1).value;
            && After(calls)[ip].started == w.started
            && Reply(calls).allowed == (w.count <= ATTEMPTS_PER_MINUTE)
            && Reply(calls).report == (w.count == ATTEMPTS_PER_MINUTE + 1)
  {
    hide Allow, Count, Prune;
    RefinesUnbounded(calls);
    var ip, fed := Last(calls).ip, Fed(calls);
    assert Front(fed) == Fed(Front(calls)) && Last(fed) == Last(calls);
    TracksUnbounded(calls, Last(calls).now);
    FreeIsPerAddress(fed, ip);
    AnsweredIsTracked(After(Front(calls)), Last(calls));
  }

  lemma AnsweredIsTracked(table: Table, call: Call)
    requires !Allow(table, call).1.ceiling
    ensures call.ip in Allow(table, call).0
  {
  }

  /** A call refused at the ceiling, or from another address, adds none. */
  lemma OtherCall(calls: seq<Call>, ip: string)
    requires calls != [] && (Reply(calls).ceiling || Last(calls).ip != ip)
    ensures Times(Fed(calls), ip) == Times(Fed(Front(calls)), ip)
  {
    hide Allow, Count, Reply;
    if !Reply(calls).ceiling {
      assert Front(Fed(calls)) == Fed(Front(calls)) && Last(Fed(calls)) == Last(calls);
    } else {
      assert Fed(calls) == Fed(Front(calls));
    }
  }

  /** What one more call adds. */
  lemma OneMoreCall(calls: seq<Call>, ip: string, lo: int, started: int)
    requires calls != []
    ensures var own, reply := Last(calls).ip == ip, Reply(calls);
            var inWindow := ip in After(calls) && After(calls)[ip].started == started;
            && AllowedIn(calls, ip, lo) ==
               AllowedIn(Front(calls), ip, lo) + (if own && reply.allowed && lo <= Last(calls).now < lo + MINUTE then 1 else 0)
            && AllowedInWindow(calls, ip, started) ==
               AllowedInWindow(Front(calls), ip, started) + (if own && reply.allowed && inWindow then 1 else 0)
            && ReportsInWindow(calls, ip, started) ==
               ReportsInWindow(Front(calls), ip, started) + (if own && reply.report && inWindow then 1 else 0)
  {
    hide Reply, After, Front;
  }

  lemma AnsweredAgrees(calls: seq<Call>, ip: string, lo: int, started: int)
    requires calls != [] && Sorted(calls) && CountsAgree(Front(calls), ip, lo, started)
    requires !Reply(calls).ceiling && Last(calls).ip == ip
    ensures CountsAgree(calls, ip, lo, started)
  {
    hide Reply, After, Front, Last, Fed, Times, AllowedIn, AllowedInWindow, ReportsInWindow, Sorted,
      FixedWindow.Current, FixedWindow.GrantsIn, FixedWindow.GrantsOfWindow, FixedWindow.OverflowsOfWindow;
    AnsweredCall(calls);
    OneMoreCall(calls, ip, lo, started);
    var before := Times(Fed(Front(calls)), ip);
    FixedWindow.OneMoreHit(before, Last(calls).now, MINUTE - 1, ATTEMPTS_PER_MINUTE, lo, started);
  }

  lemma OtherAgrees(calls: seq<Call>, ip: string, lo: int, started: int)
    requires calls != [] && Sorted(calls) && CountsAgree(Front(calls), ip, lo, started)
    requires Reply(calls).ceiling || Last(calls).ip != ip
    ensures CountsAgree(calls, ip, lo, started)
  {
    hide Reply, After, Front, Last, Fed, Times, AllowedIn, AllowedInWindow, ReportsInWindow, Sorted,
      FixedWindow.Current, FixedWindow.GrantsIn, FixedWindow.GrantsOfWindow, FixedWindow.OverflowsOfWindow;
    RefinesUnbounded(calls);
    OtherCall(calls, ip);
    OneMoreCall(calls, ip, lo, started);
  }

  lemma {:induction false} CountsAreWindowCounts(calls: seq<Call>, ip: string, lo: int, started: int)
    requires Sorted(calls)
    ensures CountsAgree(calls, ip, lo, started)
  {
    if calls == [] {
      NoCalls(ip);
    } else {
      assert Sorted(Front(calls));
      hide CountsAgree, Reply;
      CountsAreWindowCounts(Front(calls), ip, lo, started);
      if Reply(calls).ceiling || Last(calls).ip != ip {
        OtherAgrees(calls, ip, lo, started);
      } else {
        AnsweredAgrees(calls, ip, lo, started);
      }
    }
  }

  /** The answer to a call that the table counts: it is the k-th since its address's window
      began, all of them within a minute of that, and is allowed if and only if k is at most
      60; the first one refused is reported. */
  lemma {:induction false} AnsweredExactly(calls: seq<Call>)
    returns (first: nat)
    requires calls != [] && Sorted(calls) && !Reply(calls).ceiling
    ensures var times := Times(Fed(calls), Last(calls).ip);
            && first < |times| && times[|times| - 1] == Last(calls).now
            && (Reply(calls).allowed <==> |times| - first <= 60)
            && (Reply(calls).report <==> |times| - first == 61)
            && (forall i | first < i < |times| :: times[i] - times[first] < 60_000_000_000)
            && (first > 0 ==> times[first] - FixedWindow.Current(times[..first], MINUTE - 1).value.started >= 60_000_000_000)
  {
    AnsweredCall(calls);
    hide Reply, After, Front, Fed, Times, FixedWindow.Current;
    first := FixedWindow.WindowMeaning(Times(Fed(calls), Last(calls).ip), MINUTE - 1);
  }

  lemma NoCalls(ip: string)
    ensures Times(Fed([]), ip) == []
  {
  }

  /** What any address obtains from the bounded limiter, over every run: at most 60
      attempts and one report per window, and at most 120 attempts in any minute. */
  lemma AddressBudget(calls: seq<Call>, ip: string, lo: int, started: int)
    requires Sorted(calls)
    ensures AllowedIn(calls, ip, lo) <= 120
    ensures AllowedInWindow(calls, ip, started) <= 60
    ensures ReportsInWindow(calls, ip, started) <= 1
  {
    CountsAreWindowCounts(calls, ip, lo, started);
    FedSorted(calls);
    TimesSorted(Fed(calls), ip);
    FixedWindow.AtMostTwiceTheLimit(Times(Fed(calls), ip), MINUTE - 1, ATTEMPTS_PER_MINUTE, lo);
    FixedWindow.WindowBudget(Times(Fed(calls), ip), MINUTE - 1, ATTEMPTS_PER_MINUTE, started);
  }
}
