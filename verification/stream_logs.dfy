/** The log buffer shared by all streams: pruned on every append, read and cleared by
    stream. */
module StreamLogs {
  import opened Sequences

  datatype Entry = Entry(streamID: string, time: int, level: string, code: string, message: string)

  /** Configured retention by stream, in seconds; times are in nanoseconds. */
  type Config = map<string, int>

  const MAX_PER_STREAM: nat := 500
  const DEFAULT_RETENTION: int := 60
  const SECOND: int := 1_000_000_000

  function Retention(cfg: Config, id: string): int {
    if id in cfg && cfg[id] > 0 then cfg[id] else DEFAULT_RETENTION
  }

  predicate Fresh(cfg: Config, e: Entry, now: int) {
    now - e.time <= Retention(cfg, e.streamID) * SECOND
  }

  /** Entries of one stream that are still within its retention. */
  function FreshCount(cfg: Config, log: seq<Entry>, id: string, now: int): nat {
    if log == [] then 0
    else (if log[0].streamID == id && Fresh(cfg, log[0], now) then 1 else 0) + FreshCount(cfg, log[1..], id, now)
  }

  predicate Keeps(cfg: Config, e: Entry, later: seq<Entry>, now: int) {
    e.streamID == "" || (Fresh(cfg, e, now) && FreshCount(cfg, later, e.streamID, now) < MAX_PER_STREAM)
  }

  /** What pruning leaves: an entry goes if it is stale, or if enough later entries of
      its stream are fresh; entries of no stream stay. */
  function Prune(cfg: Config, log: seq<Entry>, now: int): seq<Entry> {
    if log == [] then []
    else (if Keeps(cfg, log[0], log[1..], now) then [log[0]] else []) + Prune(cfg, log[1..], now)
  }

  /** The entries of one stream, in order. */
  function Of(log: seq<Entry>, id: string): seq<Entry> {
    if log == [] then [] else (if log[0].streamID == id then [log[0]] else []) + Of(log[1..], id)
  }

  function FreshOf(cfg: Config, log: seq<Entry>, id: string, now: int): seq<Entry> {
    if log == [] then []
    else (if log[0].streamID == id && Fresh(cfg, log[0], now) then [log[0]] else []) + FreshOf(cfg, log[1..], id, now)
  }

  function Last<T>(s: seq<T>, n: nat): seq<T> {
    if |s| <= n then s else s[|s| - n..]
  }

  // ---- one pruning, stream by stream ----

  lemma {:induction false} FreshSize(cfg: Config, log: seq<Entry>, id: string, now: int)
    ensures |FreshOf(cfg, log, id, now)| == FreshCount(cfg, log, id, now)
  {
    if log != [] { FreshSize(cfg, log[1..], id, now); }
  }

  lemma LastCons<T>(x: T, s: seq<T>, n: nat)
    ensures Last([x] + s, n) == if |s| < n then [x] + Last(s, n) else Last(s, n)
  {
  }

  lemma OfCons(x: Entry, log: seq<Entry>, id: string)
    ensures Of([x] + log, id) == (if x.streamID == id then [x] else []) + Of(log, id)
  {
    assert ([x] + log)[1..] == log;
  }

  lemma FreshCons(cfg: Config, e: Entry, log: seq<Entry>, id: string, now: int)
    ensures FreshOf(cfg, [e] + log, id, now) == (if e.streamID == id && Fresh(cfg, e, now) then [e] else []) + FreshOf(cfg, log, id, now)
  {
    hide Fresh;
    assert ([e] + log)[1..] == log;
  }

  lemma PruneCons(cfg: Config, e: Entry, log: seq<Entry>, now: int)
    ensures Prune(cfg, [e] + log, now) == (if Keeps(cfg, e, log, now) then [e] else []) + Prune(cfg, log, now)
  {
    hide Keeps;
    assert ([e] + log)[1..] == log;
  }

  /** What pruning leaves of a stream is exactly its latest 500 fresh entries, whatever
      the other streams logged; entries of no stream all stay. */
  lemma {:induction false} PruneByStream(cfg: Config, log: seq<Entry>, now: int, id: string)
    ensures Of(Prune(cfg, log, now), id) == if id == "" then Of(log, id) else Last(FreshOf(cfg, log, id, now), MAX_PER_STREAM)
  {
    if log == [] {
      assert Prune(cfg, log, now) == [];
    } else {
      hide Fresh, FreshOf, FreshCount, Of, Prune, Last;
      var e, later := log[0], log[1..];
      var rest := Prune(cfg, later, now);
      assert log == [e] + later;
      PruneByStream(cfg, later, now, id);
      FreshSize(cfg, later, id, now);
      PruneCons(cfg, e, later, now);
      OfCons(e, rest, id);
      OfCons(e, later, id);
      FreshCons(cfg, e, later, id, now);
      LastCons(e, FreshOf(cfg, later, id, now), MAX_PER_STREAM);
      assert [] + rest == rest && [] + Of(rest, id) == Of(rest, id);
      assert [] + FreshOf(cfg, later, id, now) == FreshOf(cfg, later, id, now);
    }
  }

  lemma {:induction false} OwnFresh(cfg: Config, log: seq<Entry>, now: int, id: string)
    ensures FreshOf(cfg, Of(log, id), id, now) == FreshOf(cfg, log, id, now)
  {
    hide Fresh;
    if log != [] {
      OwnFresh(cfg, log[1..], now, id);
      var own := Of(log[1..], id);
      if log[0].streamID == id {
        assert ([log[0]] + own)[1..] == own;
      } else {
        assert [] + own == own;
      }
    }
  }

  lemma {:induction false} OfOf(log: seq<Entry>, id: string)
    ensures Of(Of(log, id), id) == Of(log, id)
    ensures forall i | 0 <= i < |Of(log, id)| :: Of(log, id)[i].streamID == id
  {
    if log != [] {
      OfOf(log[1..], id);
      OfCons(log[0], Of(log[1..], id), id);
      assert [] + Of(log[1..], id) == Of(log[1..], id);
    }
  }

  lemma {:induction false} OfOwn(log: seq<Entry>, id: string)
    requires forall i | 0 <= i < |log| :: log[i].streamID == id
    ensures Of(log, id) == log
  {
    if log != [] { OfOwn(log[1..], id); }
  }

  lemma {:induction false} PruneOwn(cfg: Config, log: seq<Entry>, now: int, id: string)
    requires forall i | 0 <= i < |log| :: log[i].streamID == id
    ensures forall i | 0 <= i < |Prune(cfg, log, now)| :: Prune(cfg, log, now)[i].streamID == id
  {
    hide Keeps;
    if log != [] { PruneOwn(cfg, log[1..], now, id); }
  }

  /** No stream's entries are affected by another's: pruning the whole buffer and then
      looking at one stream is the same as pruning that stream alone. */
  lemma PruneIsolates(cfg: Config, log: seq<Entry>, now: int, id: string)
    ensures Of(Prune(cfg, log, now), id) == Prune(cfg, Of(log, id), now)
    ensures id != "" ==> |Of(Prune(cfg, log, now), id)| <= MAX_PER_STREAM
  {
    PruneByStream(cfg, log, now, id);
    PruneByStream(cfg, Of(log, id), now, id);
    OwnFresh(cfg, log, now, id);
    OfOf(log, id);
    PruneOwn(cfg, Of(log, id), now, id);
    OfOwn(Prune(cfg, Of(log, id), now), id);
  }

  /** The order among kept entries is the order in which they were logged. */
  predicate Subsequence<T(==)>(a: seq<T>, b: seq<T>) {
    a == [] || (b != [] && ((a[0] == b[0] && Subsequence(a[1..], b[1..])) || Subsequence(a, b[1..])))
  }

  lemma {:induction false} PruneKeepsOrder(cfg: Config, log: seq<Entry>, now: int)
    ensures Subsequence(Prune(cfg, log, now), log)
  {
    hide Keeps;
    if log != [] {
      PruneKeepsOrder(cfg, log[1..], now);
      var rest := Prune(cfg, log[1..], now);
      assert ([log[0]] + rest)[1..] == rest && [] + rest == rest;
    }
  }

  // ---- pruning on every append ----

  /** Within a stream, later entries carry no earlier time. */
  predicate InOrder(log: seq<Entry>) {
    forall i, j | 0 <= i < j < |log| && log[i].streamID == log[j].streamID :: log[i].time <= log[j].time
  }

  function Capped(n: nat): nat {
    if n < MAX_PER_STREAM then n else MAX_PER_STREAM
  }

  lemma {:induction false} CountAppend(cfg: Config, a: seq<Entry>, b: seq<Entry>, id: string, now: int)
    ensures FreshCount(cfg, a + b, id, now) == FreshCount(cfg, a, id, now) + FreshCount(cfg, b, id, now)
    decreases |a|
  {
    hide Fresh;
    if a == [] {
      assert a + b == b;
    } else {
      assert (a + b)[1..] == a[1..] + b;
      CountAppend(cfg, a[1..], b, id, now);
    }
  }

  lemma CountCons(cfg: Config, e: Entry, log: seq<Entry>, id: string, now: int)
    ensures FreshCount(cfg, [e] + log, id, now) == (if e.streamID == id && Fresh(cfg, e, now) then 1 else 0) + FreshCount(cfg, log, id, now)
  {
    hide Fresh;
    assert ([e] + log)[1..] == log;
  }

  /** Some entry that the first pruning drops would be kept by the second, which has seen
      `more` as well. */
  predicate Loses(c1: Config, t1: int, c2: Config, t2: int, log: seq<Entry>, more: seq<Entry>) {
    && log != []
    && ((!Keeps(c1, log[0], log[1..], t1) && Keeps(c2, log[0], log[1..] + more, t2)) || Loses(c1, t1, c2, t2, log[1..], more))
  }

  lemma {:induction false} CountAfterPrune(c1: Config, t1: int, c2: Config, t2: int, log: seq<Entry>, more: seq<Entry>, id: string)
    requires id != "" && !Loses(c1, t1, c2, t2, log, more)
    ensures Capped(FreshCount(c2, Prune(c1, log, t1) + more, id, t2)) == Capped(FreshCount(c2, log + more, id, t2))
    decreases |log|
  {
    if log == [] {
      assert Prune(c1, log, t1) + more == log + more;
    } else {
      var e, later := log[0], log[1..];
      var rest := Prune(c1, later, t1);
      assert log == [e] + later && [] + rest == rest;
      hide Fresh;
      CountAfterPrune(c1, t1, c2, t2, later, more, id);
      CountCons(c2, e, later + more, id, t2);
      CountCons(c2, e, rest + more, id, t2);
      Assoc([e], later, more);
      Assoc([e], rest, more);
    }
  }

  /** An earlier pruning makes no difference to a later one, unless it has dropped what the
      later one would keep. */
  lemma {:induction false} PruneAgain(c1: Config, t1: int, c2: Config, t2: int, log: seq<Entry>, more: seq<Entry>)
    requires !Loses(c1, t1, c2, t2, log, more)
    ensures Prune(c2, Prune(c1, log, t1) + more, t2) == Prune(c2, log + more, t2)
    decreases |log|
  {
    if log == [] {
      assert Prune(c1, log, t1) + more == log + more;
    } else {
      var e, later := log[0], log[1..];
      var rest := Prune(c1, later, t1);
      assert log == [e] + later && [] + rest == rest;
      PruneAgain(c1, t1, c2, t2, later, more);
      PruneCons(c1, e, later, t1);
      if e.streamID != "" { CountAfterPrune(c1, t1, c2, t2, later, more, e.streamID); }
      Assoc([e], later, more);
      PruneCons(c2, e, later + more, t2);
      Assoc([e], rest, more);
      PruneCons(c2, e, rest + more, t2);
      hide Fresh, Prune, FreshCount, Loses;
      assert [] + Prune(c2, later + more, t2) == Prune(c2, later + more, t2);
    }
  }

  // ---- and if it has ----

  /** Entries of a stream that the first pruning finds stale. */
  function StaleCount(c1: Config, t1: int, log: seq<Entry>): nat {
    if log == [] then 0
    else (if log[0].streamID != "" && !Fresh(c1, log[0], t1) then 1 else 0) + StaleCount(c1, t1, log[1..])
  }

  lemma StaleCons(c1: Config, t1: int, e: Entry, log: seq<Entry>)
    ensures StaleCount(c1, t1, [e] + log) == (if e.streamID != "" && !Fresh(c1, e, t1) then 1 else 0) + StaleCount(c1, t1, log)
  {
    hide Fresh;
    assert ([e] + log)[1..] == log;
  }

  lemma {:induction false} PrunedHasNoStale(c1: Config, t1: int, log: seq<Entry>)
    ensures StaleCount(c1, t1, Prune(c1, log, t1)) == 0
  {
    if log != [] {
      var rest := Prune(c1, log[1..], t1);
      PrunedHasNoStale(c1, t1, log[1..]);
      StaleCons(c1, t1, log[0], rest);
      hide Fresh, FreshCount;
      assert [] + rest == rest;
    }
  }

  lemma {:induction false} StillFresh(c1: Config, t1: int, c2: Config, t2: int, e: Entry, log: seq<Entry>)
    requires Fresh(c2, e, t2)
    requires forall i | 0 <= i < |log| && log[i].streamID == e.streamID :: e.time <= log[i].time
    ensures FreshCount(c2, log, e.streamID, t2) >= FreshCount(c1, log, e.streamID, t1)
  {
    if log != [] { StillFresh(c1, t1, c2, t2, e, log[1..]); }
  }

  /** With a stream's entries in order, what is dropped now and kept later was stale. */
  lemma LostIsStale(c1: Config, t1: int, c2: Config, t2: int, e: Entry, later: seq<Entry>, more: seq<Entry>)
    requires InOrder([e] + later) && !Keeps(c1, e, later, t1) && Keeps(c2, e, later + more, t2)
    ensures e.streamID != "" && !Fresh(c1, e, t1)
  {
    forall i | 0 <= i < |later| && later[i].streamID == e.streamID ensures e.time <= later[i].time {
      assert ([e] + later)[0] == e && ([e] + later)[i + 1] == later[i];
    }
    StillFresh(c1, t1, c2, t2, e, later);
    CountAppend(c2, later, more, e.streamID, t2);
  }

  lemma {:induction false} StaleKept(c1: Config, t1: int, c2: Config, t2: int, log: seq<Entry>, more: seq<Entry>)
    ensures StaleCount(c1, t1, Prune(c2, log + more, t2)) >= StaleCount(c1, t1, Prune(c2, more, t2))
    ensures StaleCount(c1, t1, log) == 0 ==> StaleCount(c1, t1, Prune(c2, log + more, t2)) == StaleCount(c1, t1, Prune(c2, more, t2))
    ensures InOrder(log) && Loses(c1, t1, c2, t2, log, more) ==>
              StaleCount(c1, t1, Prune(c2, log + more, t2)) > StaleCount(c1, t1, Prune(c2, more, t2))
    decreases |log|
  {
    if log == [] {
      assert log + more == more;
    } else {
      var e, later := log[0], log[1..];
      var kept := Prune(c2, later + more, t2);
      assert log == [e] + later && [] + kept == kept;
      assert InOrder(log) ==> InOrder(later);
      if InOrder(log) && !Keeps(c1, e, later, t1) && Keeps(c2, e, later + more, t2) {
        LostIsStale(c1, t1, c2, t2, e, later, more);
      }
      hide Fresh, InOrder, Keeps, FreshCount;
      StaleKept(c1, t1, c2, t2, later, more);
      Assoc([e], later, more);
      PruneCons(c2, e, later + more, t2);
      StaleCons(c1, t1, e, kept);
      StaleCons(c1, t1, e, later);
    }
  }

  /** Within a stream whose entries are in order: an earlier pruning makes a difference if
      and only if it has dropped what the later one would keep. */
  lemma {:induction false} PruneAgainExactly(c1: Config, t1: int, c2: Config, t2: int, log: seq<Entry>, more: seq<Entry>)
    requires InOrder(log)
    ensures Prune(c2, Prune(c1, log, t1) + more, t2) == Prune(c2, log + more, t2) <==> !Loses(c1, t1, c2, t2, log, more)
  {
    hide InOrder, Prune, Loses, StaleCount;
    if Loses(c1, t1, c2, t2, log, more) {
      StaleKept(c1, t1, c2, t2, log, more);
      PrunedHasNoStale(c1, t1, log);
      StaleKept(c1, t1, c2, t2, Prune(c1, log, t1), more);
    } else {
      PruneAgain(c1, t1, c2, t2, log, more);
    }
  }

  /** No stream's time limit moves back. */
  ghost predicate Tightens(c1: Config, t1: int, c2: Config, t2: int) {
    forall id :: t1 - Retention(c1, id) * SECOND <= t2 - Retention(c2, id) * SECOND
  }

  lemma {:induction false} TighteningLosesNothing(c1: Config, t1: int, c2: Config, t2: int, log: seq<Entry>, more: seq<Entry>)
    requires InOrder(log) && Tightens(c1, t1, c2, t2)
    ensures !Loses(c1, t1, c2, t2, log, more)
  {
    if log != [] {
      var e, later := log[0], log[1..];
      assert log == [e] + later && InOrder(later);
      TighteningLosesNothing(c1, t1, c2, t2, later, more);
      if !Keeps(c1, e, later, t1) && Keeps(c2, e, later + more, t2) {
        LostIsStale(c1, t1, c2, t2, e, later, more);
      }
    }
  }

  /** The entry just appended always survives its own pruning, as the newest. */
  lemma {:induction false} AppendedSurvives(cfg: Config, log: seq<Entry>, e: Entry)
    ensures Prune(cfg, log + [e], e.time) != []
    ensures var kept := Prune(cfg, log + [e], e.time); kept[|kept| - 1] == e
    decreases |log|
  {
    if log == [] {
      assert log + [e] == [e] && Keeps(cfg, e, [], e.time);
      assert [e][1..] == [];
      assert Prune(cfg, [e], e.time) == [e];
    } else {
      hide Keeps;
      AppendedSurvives(cfg, log[1..], e);
      assert log + [e] == [log[0]] + (log[1..] + [e]);
      PruneCons(cfg, log[0], log[1..] + [e], e.time);
    }
  }

  // ---- reading and clearing ----

  function Selected(log: seq<Entry>, id: string): seq<Entry> {
    if id == "" then log else Of(log, id)
  }

  function PageSize(limit: int): nat {
    if limit <= 0 || limit > 500 then 200 else limit
  }

  /** What clearing leaves; an empty ID clears everything. */
  function Others(log: seq<Entry>, id: string): seq<Entry> {
    if log == [] || id == "" then [] else (if log[0].streamID == id then [] else [log[0]]) + Others(log[1..], id)
  }

  lemma OthersCons(e: Entry, log: seq<Entry>, id: string)
    requires id != ""
    ensures Others([e] + log, id) == (if e.streamID == id then [] else [e]) + Others(log, id)
  {
    assert ([e] + log)[1..] == log;
  }

  lemma {:induction false} SelectedAppend(a: seq<Entry>, b: seq<Entry>, id: string)
    ensures Of(a + b, id) == Of(a, id) + Of(b, id)
    ensures id != "" ==> Others(a + b, id) == Others(a, id) + Others(b, id)
    decreases |a|
  {
    if a == [] {
      assert a + b == b;
    } else {
      hide Of, Others;
      var e, rest := a[0], a[1..];
      assert a == [e] + rest;
      Assoc([e], rest, b);
      SelectedAppend(rest, b, id);
      OfCons(e, rest, id);
      OfCons(e, rest + b, id);
      Assoc(if e.streamID == id then [e] else [], Of(rest, id), Of(b, id));
      if id != "" {
        OthersCons(e, rest, id);
        OthersCons(e, rest + b, id);
        Assoc(if e.streamID == id then [] else [e], Others(rest, id), Others(b, id));
      }
    }
  }

  /** Clearing one stream removes that stream's entries and no other's. */
  lemma {:induction false} ClearIsolates(log: seq<Entry>, id: string, other: string)
    requires id != ""
    ensures Of(Others(log, id), other) == if other == id then [] else Of(log, other)
  {
    if log != [] {
      var rest := Others(log[1..], id);
      ClearIsolates(log[1..], id, other);
      OfCons(log[0], rest, other);
      assert [] + rest == rest && [] + Of(rest, other) == Of(rest, other);
    }
  }

  lemma {:induction false} CountOthers(cfg: Config, log: seq<Entry>, now: int, id: string, other: string)
    requires id != "" && other != id
    ensures FreshCount(cfg, Others(log, id), other, now) == FreshCount(cfg, log, other, now)
  {
    hide Fresh;
    if log != [] {
      var rest := Others(log[1..], id);
      CountOthers(cfg, log[1..], now, id, other);
      CountCons(cfg, log[0], rest, other, now);
      assert [] + rest == rest;
    }
  }

  /** Clearing and pruning commute. */
  lemma {:induction false} ClearThenPrune(cfg: Config, log: seq<Entry>, now: int, id: string)
    ensures Others(Prune(cfg, log, now), id) == Prune(cfg, Others(log, id), now)
  {
    if id == "" {
      assert Others(Prune(cfg, log, now), id) == [];
    } else if log != [] {
      var e, later := log[0], log[1..];
      var kept, rest := Prune(cfg, later, now), Others(later, id);
      ClearThenPrune(cfg, later, now, id);
      if e.streamID != id { CountOthers(cfg, later, now, id, e.streamID); }
      OthersCons(e, kept, id);
      PruneCons(cfg, e, rest, now);
      hide FreshCount, Fresh;
      assert [] + kept == kept && [] + rest == rest;
    }
  }

  // ---- runs ----

  /** `Configure` is a change of the streams' settings, their retention among them. */
  datatype Event = Append(entry: Entry) | Clear(id: string) | Configure(config: Config)

  function Settings(events: seq<Event>): Config {
    if events == [] then map[]
    else if events[|events| - 1].Configure? then events[|events| - 1].config
    else Settings(events[..|events| - 1])
  }

  /** The buffer after a run. */
  function Run(events: seq<Event>): seq<Entry> {
    if events == [] then []
    else
      var front := events[..|events| - 1];
      match events[|events| - 1]
      case Append(e) => Prune(Settings(front), Run(front) + [e], e.time)
      case Clear(id) => Others(Run(front), id)
      case Configure(_) => Run(front)
  }

  /** Everything logged in a run and not cleared since. */
  function Uncleared(events: seq<Event>): seq<Entry> {
    if events == [] then []
    else
      var before := Uncleared(events[..|events| - 1]);
      match events[|events| - 1]
      case Append(e) => before + [e]
      case Clear(id) => Others(before, id)
      case Configure(_) => before
  }

  /** The settings and the time of the last pruning. */
  function LastPruning(events: seq<Event>): (Config, int) {
    if events == [] then (map[], 0)
    else
      var front := events[..|events| - 1];
      match events[|events| - 1]
      case Append(e) => (Settings(front), e.time)
      case _ => LastPruning(front)
  }

  /** The buffer is what the last pruning alone would leave of everything not cleared. */
  predicate IsPrunedHistory(events: seq<Event>) {
    var (config, now) := LastPruning(events);
    Run(events) == Prune(config, Uncleared(events), now)
  }

  /** This event is an append by whose settings and time something should still be there
      that was dropped before. */
  predicate Late(before: seq<Event>, e: Event) {
    && e.Append?
    && var (config, now) := LastPruning(before);
       Loses(config, now, Settings(before), e.entry.time, Uncleared(before), [e.entry])
  }

  lemma {:induction false} StepExactly(events: seq<Event>)
    requires events != [] && IsPrunedHistory(events[..|events| - 1])
    ensures var front, e := events[..|events| - 1], events[|events| - 1];
            && (!Late(front, e) ==> IsPrunedHistory(events))
            && (InOrder(Uncleared(front)) ==> (IsPrunedHistory(events) <==> !Late(front, e)))
  {
    var front, e := events[..|events| - 1], events[|events| - 1];
    var (config, now) := LastPruning(front);
    var history := Uncleared(front);
    hide Prune, Loses, Others, InOrder;
    match e {
      case Append(entry) =>
        if InOrder(history) {
          PruneAgainExactly(config, now, Settings(front), entry.time, history, [entry]);
        }
        if !Late(front, e) { PruneAgain(config, now, Settings(front), entry.time, history, [entry]); }
      case Clear(id) => ClearThenPrune(config, history, now, id);
      case Configure(_) =>
    }
  }

  /** In every run of appends, clears and changes of settings: as long as no append is late,
      the buffer is what one single pruning, by the settings and at the time of the last
      append, leaves of everything logged and not cleared since; so each stream shows exactly
      the latest 500 of its fresh, uncleared entries. And if each stream's entries are in
      order, the buffer is that at every point exactly if no append is late. */
  lemma {:induction false} BufferIsPrunedHistory(events: seq<Event>)
    ensures (forall i | 0 <= i < |events| :: !Late(events[..i], events[i])) ==>
              && IsPrunedHistory(events)
              && var (config, now) := LastPruning(events);
                 forall id | id != "" :: Of(Run(events), id) == Last(FreshOf(config, Uncleared(events), id, now), MAX_PER_STREAM)
    ensures (forall i | 0 <= i < |events| :: InOrder(Uncleared(events[..i]))) ==>
              ((forall i | 0 <= i <= |events| :: IsPrunedHistory(events[..i])) <==>
               (forall i | 0 <= i < |events| :: !Late(events[..i], events[i])))
  {
    hide Prune, Of, FreshOf, Others, InOrder, Late, IsPrunedHistory, Run, Uncleared;
    assert events[..|events|] == events;
    if forall i | 0 <= i < |events| :: !Late(events[..i], events[i]) {
      NoLateAppends(events, |events|);
      ShowsByStream(events);
      forall i | 0 <= i <= |events| ensures IsPrunedHistory(events[..i]) { NoLateAppends(events, i); }
    }
    if && (forall i | 0 <= i < |events| :: InOrder(Uncleared(events[..i])))
       && (forall i | 0 <= i <= |events| :: IsPrunedHistory(events[..i])) {
      forall i | 0 <= i < |events| ensures !Late(events[..i], events[i]) {
        assert events[..i + 1][..i] == events[..i];
        StepExactly(events[..i + 1]);
      }
    }
  }

  lemma {:induction false} NoLateAppends(events: seq<Event>, n: nat)
    requires n <= |events| && forall i | 0 <= i < n :: !Late(events[..i], events[i])
    ensures IsPrunedHistory(events[..n])
  {
    if n == 0 {
      assert events[..0] == [];
      NothingPruned(map[], 0);
    } else {
      hide Late, IsPrunedHistory;
      NoLateAppends(events, n - 1);
      assert events[..n][..n - 1] == events[..n - 1];
      StepExactly(events[..n]);
    }
  }

  lemma ShowsByStream(events: seq<Event>)
    requires IsPrunedHistory(events)
    ensures var (config, now) := LastPruning(events);
            forall id | id != "" :: Of(Run(events), id) == Last(FreshOf(config, Uncleared(events), id, now), MAX_PER_STREAM)
  {
    hide Prune, Of, FreshOf;
    var (config, now) := LastPruning(events);
    forall id | id != "" ensures Of(Run(events), id) == Last(FreshOf(config, Uncleared(events), id, now), MAX_PER_STREAM) {
      PruneByStream(config, Uncleared(events), now, id);
    }
  }

  // ---- when no append is late ----

  /** Entries in the order of their times, none after `now`. */
  predicate Rising(log: seq<Entry>, now: int) {
    && (forall i | 0 <= i < |log| :: log[i].time <= now)
    && (forall i, j | 0 <= i < j < |log| :: log[i].time <= log[j].time)
  }

  lemma {:induction false} OthersRise(log: seq<Entry>, id: string, low: int, now: int)
    requires Rising(log, now) && forall i | 0 <= i < |log| :: low <= log[i].time
    ensures Rising(Others(log, id), now)
    ensures forall i | 0 <= i < |Others(log, id)| :: low <= Others(log, id)[i].time
  {
    if log != [] && id != "" {
      OthersRise(log[1..], id, log[0].time, now);
    }
  }

  /** The appends reach the lock in the order of their times, and no retention is raised
      while there is anything in the log. */
  ghost predicate Steady(events: seq<Event>) {
    && (forall i | 0 <= i < |events| && events[i].Append? ::
          Uncleared(events[..i]) == [] || LastPruning(events[..i]).1 <= events[i].entry.time)
    && (forall i | 0 <= i < |events| && events[i].Configure? ::
          Uncleared(events[..i]) == [] || NoneRaised(Settings(events[..i]), events[i].config))
  }

  ghost predicate NoneRaised(before: Config, after: Config) {
    forall id :: Retention(after, id) <= Retention(before, id)
  }

  lemma SteadyFront(events: seq<Event>)
    requires Steady(events) && events != []
    ensures var front, e := events[..|events| - 1], events[|events| - 1];
            && Steady(front)
            && (e.Append? ==> Uncleared(front) == [] || LastPruning(front).1 <= e.entry.time)
            && (e.Configure? ==> Uncleared(front) == [] || NoneRaised(Settings(front), e.config))
  {
    hide Uncleared, LastPruning, Settings, NoneRaised;
    var n := |events| - 1;
    forall i | 0 <= i < n ensures events[..n][..i] == events[..i] {}
  }

  lemma {:induction false} SteadyHistory(events: seq<Event>)
    requires Steady(events)
    ensures Rising(Uncleared(events), LastPruning(events).1)
    ensures Uncleared(events) != [] ==> NoneRaised(LastPruning(events).0, Settings(events))
  {
    if events != [] {
      hide Steady, Others;
      SteadyFront(events);
      var front, e := events[..|events| - 1], events[|events| - 1];
      SteadyHistory(front);
      if e.Clear? {
        var h := Uncleared(front);
        OthersRise(h, e.id, if h == [] then 0 else h[0].time, LastPruning(front).1);
        NothingLeft(h, e.id);
      }
    }
  }

  lemma NothingLeft(log: seq<Entry>, id: string)
    ensures log == [] ==> Others(log, id) == []
    ensures Others(log, "") == []
  {
  }

  /** In such a run no append is late. */
  lemma {:induction false} SteadyIsNeverLate(events: seq<Event>, i: nat)
    requires Steady(events) && i < |events|
    ensures !Late(events[..i], events[i])
    decreases |events|
  {
    hide Loses, Steady;
    if i < |events| - 1 {
      SteadyFront(events);
      SteadyIsNeverLate(events[..|events| - 1], i);
      assert events[..|events| - 1][..i] == events[..i];
    } else if events[i].Append? {
      SteadyFront(events);
      SteadyHistory(events[..i]);
      var (config, now) := LastPruning(events[..i]);
      var history := Uncleared(events[..i]);
      if history == [] {
        NothingLost(config, now, Settings(events[..i]), events[i].entry.time, [events[i].entry]);
      } else {
        RisingInOrder(history, now);
        hide Prune, Settings, LastPruning, Uncleared;
        TighteningLosesNothing(config, now, Settings(events[..i]), events[i].entry.time, history, [events[i].entry]);
      }
    }
  }

  lemma NothingLost(c1: Config, t1: int, c2: Config, t2: int, more: seq<Entry>)
    ensures !Loses(c1, t1, c2, t2, [], more)
  {
  }

  lemma RisingInOrder(log: seq<Entry>, now: int)
    requires Rising(log, now)
    ensures InOrder(log)
  {
  }

  lemma NothingPruned(cfg: Config, now: int)
    ensures Prune(cfg, [], now) == []
  {
  }

  function At(seconds: int): Entry {
    Entry("news", seconds * SECOND, "", "", "")
  }

  lemma {:induction false} CountAtMost(cfg: Config, log: seq<Entry>, id: string, now: int)
    ensures FreshCount(cfg, log, id, now) <= |log|
  {
    hide Fresh;
    if log != [] { CountAtMost(cfg, log[1..], id, now); }
  }

  /** A short log loses exactly its stale entries. */
  lemma PruneShort(a: int, later: seq<Entry>, now: int)
    requires |later| < MAX_PER_STREAM
    ensures Prune(map[], [At(a)] + later, now * SECOND) == (if now - a <= 60 then [At(a)] else []) + Prune(map[], later, now * SECOND)
  {
    CountAtMost(map[], later, "news", now * SECOND);
    PruneCons(map[], At(a), later, now * SECOND);
    hide Prune, FreshCount;
  }

  lemma OneMoreAppend(events: seq<Event>, e: Entry)
    requires Settings(events) == map[]
    ensures Run(events + [Append(e)]) == Prune(map[], Run(events) + [e], e.time)
    ensures Uncleared(events + [Append(e)]) == Uncleared(events) + [e] && LastPruning(events + [Append(e)]) == (map[], e.time)
    ensures Settings(events + [Append(e)]) == map[]
  {
    hide Prune;
    assert (events + [Append(e)])[..|events|] == events;
  }

  lemma PruneOne(a: int, now: int)
    ensures Prune(map[], [At(a)], now * SECOND) == if now - a <= 60 then [At(a)] else []
  {
    hide At, Prune;
    PruneShort(a, [], now);
    NothingPruned(map[], now * SECOND);
    assert [At(a)] + [] == [At(a)];
  }

  lemma PruneTwo(a: int, b: int, now: int)
    requires now - b <= 60
    ensures Prune(map[], [At(a), At(b)], now * SECOND) == if now - a <= 60 then [At(a), At(b)] else [At(b)]
  {
    hide At, Prune;
    PruneShort(a, [At(b)], now);
    PruneOne(b, now);
    assert [At(a)] + [At(b)] == [At(a), At(b)] && [] + [At(b)] == [At(b)];
  }

  lemma PruneNone(a: int, b: int, c: int, now: int)
    requires now - a <= 60 && now - b <= 60 && now - c <= 60
    ensures Prune(map[], [At(a), At(b), At(c)], now * SECOND) == [At(a), At(b), At(c)]
  {
    hide At, Prune;
    PruneShort(a, [At(b), At(c)], now);
    PruneTwo(b, c, now);
    assert [At(a)] + [At(b), At(c)] == [At(a), At(b), At(c)];
  }

  lemma ThreeAppends(a: Entry, b: Entry, c: Entry)
    requires Prune(map[], [a], a.time) == [a] && Prune(map[], [a, b], b.time) == [b] && Prune(map[], [b, c], c.time) == [b, c]
    ensures var events := [Append(a), Append(b), Append(c)];
            Run(events) == [b, c] && Uncleared(events) == [a, b, c] && LastPruning(events) == (map[], c.time)
  {
    assert Run([]) == [] && Uncleared([]) == [] && Settings([]) == map[];
    hide Run, Prune, Uncleared, LastPruning, Settings;
    var one := [] + [Append(a)];
    var two := one + [Append(b)];
    OneMoreAppend([], a);
    assert [] + [a] == [a];
    OneMoreAppend(one, b);
    assert [a] + [b] == [a, b];
    OneMoreAppend(two, c);
    assert [b] + [c] == [b, c] && [a, b] + [c] == [a, b, c];
    assert two + [Append(c)] == [Append(a), Append(b), Append(c)];
  }

  /** The order is needed: an append with an earlier time comes after one that has already
      pruned what would still be fresh. */
  lemma DisorderDiffers()
    ensures var events := [Append(At(0)), Append(At(100)), Append(At(50))];
            Run(events) == [At(100), At(50)] && !IsPrunedHistory(events)
            && Prune(map[], Uncleared(events), 50 * SECOND) == [At(0), At(100), At(50)]
  {
    Times();
    hide Run, Prune, Uncleared, LastPruning, At;
    PruneOne(0, 0);
    PruneTwo(0, 100, 100);
    PruneTwo(100, 50, 50);
    PruneNone(0, 100, 50, 50);
    ThreeAppends(At(0), At(100), At(50));
  }

  lemma Times()
    ensures At(0).time == 0 * SECOND && At(100).time == 100 * SECOND && At(50).time == 50 * SECOND
  {
  }

  // ---- the code ----

  /** The reversal both loops end with. */
  method ReverseInPlace(a: array<Entry>, n: nat)
    requires n <= a.Length
    modifies a
    ensures forall k | 0 <= k < n :: a[k] == old(a[n - 1 - k])
    ensures forall k | n <= k < a.Length :: a[k] == old(a[k])
  {
    var i, j := 0, n - 1;
    while i < j
      invariant 0 <= i && j == n - 1 - i && i <= j + 1
      invariant forall k | 0 <= k < i :: a[k] == old(a[n - 1 - k]) && a[n - 1 - k] == old(a[k])
      invariant forall k | i <= k <= j || n <= k < a.Length :: a[k] == old(a[k])
    {
      a[i], a[j] := a[j], a[i];
      i, j := i + 1, j - 1;
    }
  }

  function CountIn(counts: map<string, nat>, id: string): nat {
    if id in counts then counts[id] else 0
  }

  ghost predicate Counted(cfg: Config, counts: map<string, nat>, log: seq<Entry>, now: int) {
    forall id | id != "" :: CountIn(counts, id) == Capped(FreshCount(cfg, log, id, now))
  }

  /** The first n slots hold s backwards. */
  ghost predicate Backwards(a: seq<Entry>, s: seq<Entry>) {
    |a| == |s| && forall k | 0 <= k < |a| :: a[k] == s[|s| - 1 - k]
  }

  lemma PruneStep(cfg: Config, log: seq<Entry>, i: nat, now: int, counts: map<string, nat>, kept: seq<Entry>)
    requires i < |log| && Counted(cfg, counts, log[i + 1..], now) && Backwards(kept, Prune(cfg, log[i + 1..], now))
    ensures var e := log[i];
            var own := CountIn(counts, e.streamID);
            if e.streamID == "" then Counted(cfg, counts, log[i..], now) && Backwards(kept + [e], Prune(cfg, log[i..], now))
            else if !Fresh(cfg, e, now) || own >= MAX_PER_STREAM then Counted(cfg, counts, log[i..], now) && Backwards(kept, Prune(cfg, log[i..], now))
            else Counted(cfg, counts[e.streamID := own + 1], log[i..], now) && Backwards(kept + [e], Prune(cfg, log[i..], now))
  {
    hide Fresh;
    var e, later := log[i], log[i + 1..];
    assert log[i..][0] == e && log[i..][1..] == later;
    hide FreshCount, Prune;
    forall id ensures FreshCount(cfg, log[i..], id, now) == (if e.streamID == id && Fresh(cfg, e, now) then 1 else 0) + FreshCount(cfg, later, id, now) {
      assert log[i..] == [e] + later;
      CountCons(cfg, e, later, id, now);
    }
    assert log[i..] == [e] + later;
    PruneCons(cfg, e, later, now);
  }

  class LogStore {
    var logs: array<Entry>
    var count: nat
    var config: Config

    ghost predicate Valid()
      reads this
    {
      count <= logs.Length
    }

    ghost function Contents(): seq<Entry>
      requires Valid()
      reads this, logs
    {
      logs[..count]
    }

    constructor (config: Config)
      ensures Valid() && fresh(logs) && Contents() == [] && this.config == config
    {
      logs, count := new Entry[0], 0;
      this.config := config;
    }

    method AppendLogCode(entry: Entry)
      requires Valid()
      modifies this
      ensures Valid() && fresh(logs) && config == old(config)
      ensures Contents() == Prune(config, old(Contents()) + [entry], entry.time)
    {
      var grown := new Entry[count + 1];
      for i := 0 to count
        invariant Valid() && logs == old(logs) && config == old(config) && Contents() == old(Contents())
        invariant forall k | 0 <= k < i :: grown[k] == logs[k]
      {
        grown[i] := logs[i];
      }
      grown[count] := entry;
      assert grown[..count + 1] == Contents() + [entry];
      logs, count := grown, count + 1;
      PruneLogs(entry.time);
    }

    /** pruneLogsLocked: newest to oldest, counting per stream, then reversed. */
    method PruneLogs(now: int)
      requires Valid()
      modifies this
      ensures Valid() && (fresh(logs) || logs == old(logs)) && config == old(config)
      ensures Contents() == Prune(config, old(Contents()), now)
    {
      hide Fresh, Prune, FreshCount, Counted, Backwards;
      NothingPruned(config, now);
      if count == 0 {
        return;
      }
      ghost var log := Contents();
      var counts: map<string, nat> := map[];
      var kept := new Entry[count];
      var n := 0;
      assert log[count..] == [] && kept[..0] == [];
      StartPruning(config, now);
      for i := count downto 0
        invariant Valid() && logs == old(logs) && config == old(config) && Contents() == log && n <= count - i
        invariant Counted(config, counts, log[i..], now) && Backwards(kept[..n], Prune(config, log[i..], now))
      {
        var entry := logs[i];
        assert entry == log[i];
        PruneStep(config, log, i, now, counts, kept[..n]);
        if entry.streamID != "" {
          if !Fresh(config, entry, now) {
            continue;
          }
          if CountIn(counts, entry.streamID) >= MAX_PER_STREAM {
            continue;
          }
          counts := counts[entry.streamID := CountIn(counts, entry.streamID) + 1];
        }
        kept[n] := entry;
        n := n + 1;
        assert kept[..n] == kept[..n - 1] + [entry];
      }
      assert log[0..] == log;
      ghost var pruned := kept[..n];
      ReverseInPlace(kept, n);
      Forwards(pruned, kept[..n], Prune(config, log, now));
      logs, count := kept, n;
    }

    /** Logs: the last entries of a stream, or of all, oldest first. */
    method Logs(streamID: string, limit: int) returns (out: seq<Entry>)
      requires Valid()
      ensures out == Last(Selected(Contents(), streamID), PageSize(limit))
    {
      hide Of, Selected;
      var size := PageSize(limit);
      var page := new Entry[size];
      var n, i := 0, count;
      ghost var log := Contents();
      assert log[count..] == [];
      NothingSelected(streamID);
      while i > 0 && n < size
        invariant 0 <= i <= count && n <= size && n == |Selected(log[i..], streamID)|
        invariant forall k | 0 <= k < n :: page[k] == Selected(log[i..], streamID)[n - 1 - k]
      {
        i := i - 1;
        var entry := logs[i];
        SelectStep(log, i, streamID);
        if streamID == "" || entry.streamID == streamID {
          page[n] := entry;
          n := n + 1;
        }
      }
      ReverseInPlace(page, n);
      assert page[..n] == Selected(log[i..], streamID);
      LastOfBoth(log, i, streamID, size);
      out := page[..n];
    }

    /** ClearLogs: the other streams' entries move down within the same array. */
    method ClearLogs(streamID: string)
      requires Valid()
      modifies this, logs
      ensures Valid() && logs == old(logs) && config == old(config)
      ensures Contents() == Others(old(Contents()), streamID)
      ensures forall k | count <= k < logs.Length :: k >= old(count) || streamID == "" ==> logs[k] == old(logs[k])
    {
      hide Others;
      ghost var log := Contents();
      if streamID == "" {
        count := 0;
        NothingLeft(log, "");
        return;
      }
      var m := 0;
      assert log[..0] == [];
      NothingLeft(log, "");
      NothingToClear(streamID);
      for i := 0 to count
        invariant Valid() && logs == old(logs) && config == old(config) && count == old(count) && m <= i
        invariant logs[..m] == Others(log[..i], streamID)
        invariant forall k | i <= k < logs.Length :: logs[k] == old(logs[k])
      {
        var entry := logs[i];
        assert entry == log[i];
        ClearStep(log, i, streamID);
        if entry.streamID != streamID {
          ghost var before := logs[..m];
          logs[m] := entry;
          m := m + 1;
          assert logs[..m] == before + [entry];
        }
      }
      assert log[..count] == log;
      count := m;
    }
  }

  // ---- facts for the loops ----

  lemma StartPruning(cfg: Config, now: int)
    ensures Counted(cfg, map[], [], now) && Backwards([], Prune(cfg, [], now))
  {
  }

  lemma Forwards(before: seq<Entry>, after: seq<Entry>, s: seq<Entry>)
    requires Backwards(before, s) && |after| == |before|
    requires forall k | 0 <= k < |after| :: after[k] == before[|before| - 1 - k]
    ensures after == s
  {
  }

  lemma NothingSelected(id: string)
    ensures Selected([], id) == []
  {
  }

  lemma SelectStep(log: seq<Entry>, i: nat, id: string)
    requires i < |log|
    ensures Selected(log[i..], id) == (if id == "" || log[i].streamID == id then [log[i]] else []) + Selected(log[i + 1..], id)
  {
    assert log[i..] == [log[i]] + log[i + 1..];
    OfCons(log[i], log[i + 1..], id);
  }

  lemma LastOfBoth(log: seq<Entry>, i: nat, id: string, size: nat)
    requires i <= |log| && |Selected(log[i..], id)| <= size
    requires i == 0 || |Selected(log[i..], id)| == size
    ensures Last(Selected(log, id), size) == Selected(log[i..], id)
  {
    assert log == log[..i] + log[i..];
    SelectedAppend(log[..i], log[i..], id);
    assert log[0..] == log;
  }

  lemma NothingToClear(id: string)
    ensures Others([], id) == []
  {
  }

  lemma ClearStep(log: seq<Entry>, i: nat, id: string)
    requires i < |log| && id != ""
    ensures Others(log[..i + 1], id) == Others(log[..i], id) + if log[i].streamID == id then [] else [log[i]]
  {
    assert log[..i + 1] == log[..i] + [log[i]];
    SelectedAppend(log[..i], [log[i]], id);
    OthersCons(log[i], [], id);
    assert [log[i]] + [] == [log[i]];
  }
}
