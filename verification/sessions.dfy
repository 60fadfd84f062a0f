/** Session history and input-status transitions kept by the registry. */
module Sessions {
  import opened Wrappers
  import opened Ordering
  import opened Text
  import RateLimit

  datatype Session = Session(
    id: string, relayID: string, clientID: string, connectedAt: int,
    disconnectedAt: Option<int>, reason: string, stats: int)

  /** Sessions by ID. */
  type History = map<string, Session>

  const MAX_COMPLETED: nat := 1000

  function Completed(h: History): set<string> {
    set id | id in h && h[id].disconnectedAt.Some?
  }

  function EndOf(h: History, id: string): int
    requires id in Completed(h)
  {
    h[id].disconnectedAt.value
  }

  predicate Keyed(h: History) {
    forall id | id in h :: h[id].id == id
  }

  /** What pruning must leave: every active session, and of the completed ones as many
      as allowed, none of them ended before one that was dropped. */
  ghost predicate Pruned(before: History, after: History) {
    && after.Keys <= before.Keys
    && (forall id | id in after :: after[id] == before[id])
    && (forall id | id in before && id !in after :: id in Completed(before))
    && |Completed(after)| == (if |Completed(before)| < MAX_COMPLETED then |Completed(before)| else MAX_COMPLETED)
    && (forall kept, dropped | kept in Completed(after) && dropped in Completed(before) && dropped !in after ::
          EndOf(before, kept) >= EndOf(before, dropped))
  }

  /** sort.Slice by disconnect time, latest first; ties fall anyhow. */
  function InsertByEnd(h: History, id: string, ids: seq<string>): seq<string>
    requires id in Completed(h) && forall i | 0 <= i < |ids| :: ids[i] in Completed(h)
  {
    if ids == [] || EndOf(h, id) >= EndOf(h, ids[0]) then [id] + ids
    else [ids[0]] + InsertByEnd(h, id, ids[1..])
  }

  ghost predicate Ranked(h: History, ids: seq<string>) {
    && (forall i | 0 <= i < |ids| :: ids[i] in Completed(h))
    && (forall i, j | 0 <= i < j < |ids| :: ids[i] != ids[j] && EndOf(h, ids[i]) >= EndOf(h, ids[j]))
  }

  lemma {:induction false} InsertRanks(h: History, id: string, ids: seq<string>)
    requires Ranked(h, ids) && id in Completed(h) && id !in ids
    ensures Ranked(h, InsertByEnd(h, id, ids))
    ensures forall x :: x in InsertByEnd(h, id, ids) <==> x == id || x in ids
    ensures |InsertByEnd(h, id, ids)| == |ids| + 1
  {
    if ids != [] && EndOf(h, id) < EndOf(h, ids[0]) {
      InsertRanks(h, id, ids[1..]);
      var rest := InsertByEnd(h, id, ids[1..]);
      forall j | 0 <= j < |rest| ensures rest[j] != ids[0] && EndOf(h, ids[0]) >= EndOf(h, rest[j]) {
        assert rest[j] in rest;
      }
    }
  }

  lemma {:induction false} DistinctSize(ids: seq<string>)
    requires forall i, j | 0 <= i < j < |ids| :: ids[i] != ids[j]
    ensures |Elements(ids)| == |ids|
  {
    if ids != [] {
      DistinctSize(ids[1..]);
      assert Elements(ids) == Elements(ids[1..]) + {ids[0]};
    }
  }

  lemma RankedSize(h: History, ids: seq<string>)
    requires Ranked(h, ids) && forall id :: id in ids <==> id in Completed(h)
    ensures |ids| == |Completed(h)|
  {
    DistinctSize(ids);
    assert Elements(ids) == Completed(h);
  }

  lemma NoElements(ids: seq<string>, from: nat)
    requires from <= |ids|
    ensures Elements(ids[from..from]) == {}
  {
  }

  lemma OneMoreElement(ids: seq<string>, from: nat, to: nat)
    requires from <= to < |ids|
    ensures Elements(ids[from..to + 1]) == Elements(ids[from..to]) + {ids[to]}
  {
    assert ids[from..to + 1] == ids[from..to] + [ids[to]];
  }

  /** Dropping everything ranked after the first thousand is a pruning. */
  lemma TopIsPruned(h: History, ids: seq<string>)
    requires Ranked(h, ids) && |ids| > MAX_COMPLETED
    requires forall id :: id in ids <==> id in Completed(h)
    ensures Pruned(h, h - Elements(ids[MAX_COMPLETED..]))
  {
    var top, tail := ids[..MAX_COMPLETED], ids[MAX_COMPLETED..];
    var after := h - Elements(tail);
    RankedSize(h, ids);
    DistinctSize(top);
    forall id ensures id in Completed(after) <==> id in top {
      if id in top {
        var i :| 0 <= i < |top| && top[i] == id;
        assert ids[i] == id;
        assert forall j | 0 <= j < |tail| :: tail[j] == ids[MAX_COMPLETED + j] != id;
        assert id in ids;
      } else if id in ids {
        assert id in tail;
      }
    }
    assert Completed(after) == Elements(top);
    forall kept, dropped | kept in Completed(after) && dropped in Completed(h) && dropped !in after
      ensures EndOf(h, kept) >= EndOf(h, dropped)
    {
      var i :| 0 <= i < |top| && top[i] == kept;
      var j :| 0 <= j < |tail| && tail[j] == dropped;
      assert ids[i] == kept && ids[MAX_COMPLETED + j] == dropped;
    }
  }

  lemma NothingToPrune(h: History)
    requires |Completed(h)| <= MAX_COMPLETED
    ensures Pruned(h, h)
  {
  }

  class Log {
    var sessions: History

    constructor ()
      ensures sessions == map[]
    {
      sessions := map[];
    }

    /** Collects the completed sessions, latest first. */
    method Rank() returns (ids: seq<string>)
      ensures Ranked(sessions, ids)
      ensures forall id :: id in ids <==> id in Completed(sessions)
    {
      ids := [];
      var todo := sessions.Keys;
      while todo != {}
        invariant todo <= sessions.Keys
        invariant Ranked(sessions, ids)
        invariant forall id :: id in ids <==> id in Completed(sessions) && id !in todo
        decreases |todo|
      {
        var id :| id in todo;
        if sessions[id].disconnectedAt.Some? {
          assert id !in ids;
          hide Ranked, InsertByEnd;
          InsertRanks(sessions, id, ids);
          ids := InsertByEnd(sessions, id, ids);
        }
        todo := todo - {id};
      }
    }

    /** pruneSessionsLocked. */
    method Prune()
      requires Keyed(sessions)
      modifies this
      ensures Pruned(old(sessions), sessions)
    {
      hide Pruned, Ranked, Elements, Completed;
      var ids := Rank();
      RankedSize(sessions, ids);
      if |ids| <= MAX_COMPLETED {
        NothingToPrune(sessions);
        return;
      }
      TopIsPruned(sessions, ids);
      NoElements(ids, MAX_COMPLETED);
      for k := MAX_COMPLETED to |ids|
        invariant sessions == old(sessions) - Elements(ids[MAX_COMPLETED..k])
      {
        OneMoreElement(ids, MAX_COMPLETED, k);
        sessions := sessions - {ids[k]};
      }
      assert ids[MAX_COMPLETED..|ids|] == ids[MAX_COMPLETED..];
    }

    method Connected(session: Session)
      modifies this
      ensures sessions == Updated(old(sessions), Connect(session))
    {
      sessions := sessions[session.id := session];
    }

    method Stats(id: string, stats: int)
      modifies this
      ensures sessions == Updated(old(sessions), Statistics(id, stats))
    {
      if id in sessions {
        sessions := sessions[id := sessions[id].(stats := stats)];
      }
    }

    method Disconnected(session: Session)
      requires Keyed(sessions)
      modifies this
      ensures Pruned(Updated(old(sessions), Event.Disconnect(session)), sessions)
    {
      sessions := sessions[session.id := session];
      Prune();
    }

    /** CloseRelaySessions: the sessions it ended are returned. */
    method CloseRelay(relayID: string, at: int, reason: string) returns (closed: set<string>)
      requires Keyed(sessions)
      modifies this
      ensures closed == OpenOn(old(sessions), relayID)
      ensures Pruned(Updated(old(sessions), CloseAll(relayID, at, reason)), sessions)
    {
      closed := MarkEnded(relayID, at, reason);
      Prune();
    }

    method MarkEnded(relayID: string, at: int, reason: string) returns (closed: set<string>)
      modifies this
      ensures closed == OpenOn(old(sessions), relayID)
      ensures sessions == Ended(old(sessions), relayID, at, reason)
    {
      ghost var before := sessions;
      closed := {};
      var todo := sessions.Keys;
      EndedOutsideAll(before, relayID, at, reason);
      hide EndedOutside, Ended, EndOn, OpenOn;
      while todo != {}
        invariant todo <= before.Keys
        invariant sessions == EndedOutside(before, todo, relayID, at, reason)
        invariant closed == OpenOn(before, relayID) - todo
        decreases |todo|
      {
        var id :| id in todo;
        EndOne(before, todo, id, relayID, at, reason);
        if sessions[id].relayID == relayID && sessions[id].disconnectedAt.None? {
          sessions := sessions[id := sessions[id].(disconnectedAt := Some(at), reason := reason)];
          closed := closed + {id};
        }
        todo := todo - {id};
      }
    }
  }

  /** The sessions with those outside `todo` already ended. */
  function EndedOutside(h: History, todo: set<string>, relayID: string, at: int, reason: string): History {
    map id | id in h :: if id in todo then h[id] else EndOn(h[id], relayID, at, reason)
  }

  lemma EndedOutsideAll(h: History, relayID: string, at: int, reason: string)
    ensures EndedOutside(h, h.Keys, relayID, at, reason) == h
    ensures EndedOutside(h, {}, relayID, at, reason) == Ended(h, relayID, at, reason)
    ensures OpenOn(h, relayID) <= h.Keys
  {
  }

  lemma EndOne(h: History, todo: set<string>, id: string, relayID: string, at: int, reason: string)
    requires todo <= h.Keys && id in todo
    ensures var m := EndedOutside(h, todo, relayID, at, reason);
            && id in m && m[id] == h[id]
            && EndedOutside(h, todo - {id}, relayID, at, reason) ==
               (if h[id].relayID == relayID && h[id].disconnectedAt.None?
                then m[id := h[id].(disconnectedAt := Some(at), reason := reason)] else m)
    ensures id in OpenOn(h, relayID) <==> h[id].relayID == relayID && h[id].disconnectedAt.None?
  {
    var m, n := EndedOutside(h, todo, relayID, at, reason), EndedOutside(h, todo - {id}, relayID, at, reason);
    assert n == m[id := EndOn(h[id], relayID, at, reason)];
  }

  function OpenOn(h: History, relayID: string): set<string> {
    set id | id in h && h[id].relayID == relayID && h[id].disconnectedAt.None?
  }

  function EndOn(session: Session, relayID: string, at: int, reason: string): Session {
    if session.relayID == relayID && session.disconnectedAt.None?
    then session.(disconnectedAt := Some(at), reason := reason) else session
  }

  function Ended(h: History, relayID: string, at: int, reason: string): History {
    map id | id in h :: EndOn(h[id], relayID, at, reason)
  }

  // ---- runs ----

  /** `dropped` is the latest end among all sessions that pruning has ever dropped. */
  datatype State = State(history: History, dropped: Option<int>)

  const INITIAL: State := State(map[], None)

  datatype Event =
    | Connect(session: Session)
    | Statistics(id: string, stats: int)
    | Disconnect(session: Session)
    | CloseAll(relayID: string, at: int, reason: string)

  /** The history before pruning, if the event prunes. */
  function Updated(h: History, e: Event): History {
    match e
    case Connect(session) => h[session.id := session]
    case Statistics(id, stats) => if id in h then h[id := h[id].(stats := stats)] else h
    case Disconnect(session) => h[session.id := session]
    case CloseAll(relayID, at, reason) => Ended(h, relayID, at, reason)
  }

  predicate Prunes(e: Event) {
    e.Disconnect? || e.CloseAll?
  }

  /** The latest of an earlier end and those of the sessions that a pruning drops. */
  ghost predicate LatestDropped(before: Option<int>, full: History, after: History, latest: Option<int>) {
    && (before.Some? ==> latest.Some? && before.value <= latest.value)
    && (forall id | id in Completed(full) && id !in after :: latest.Some? && EndOf(full, id) <= latest.value)
    && (latest.Some? ==> latest == before || exists id :: id in Completed(full) && id !in after && EndOf(full, id) == latest.value)
  }

  /** Pruning may break ties anyhow. */
  ghost predicate Next(s: State, e: Event, s': State) {
    var full := Updated(s.history, e);
    if Prunes(e) then Pruned(full, s'.history) && LatestDropped(s.dropped, full, s'.history, s'.dropped)
    else s' == State(full, s.dropped)
  }

  /** The only condition on the events: a connect event carries no disconnect time. */
  predicate Opens(e: Event) {
    e.Connect? ==> e.session.disconnectedAt.None?
  }

  /** A run visits states[0], states[1], ... */
  ghost predicate IsRun(states: seq<State>, events: seq<Event>) {
    && |states| == |events| + 1
    && states[0] == INITIAL
    && forall i | 0 <= i < |events| :: Opens(events[i]) && Next(states[i], events[i], states[i + 1])
  }

  lemma RunFront(states: seq<State>, events: seq<Event>)
    requires IsRun(states, events) && events != []
    ensures IsRun(states[..|events|], events[..|events| - 1])
  {
    hide Next;
  }

  // ---- what every run keeps ----

  lemma OpeningCompletesNothing(h: History, e: Event)
    requires Opens(e) && !Prunes(e)
    ensures Completed(Updated(h, e)) <= Completed(h)
    ensures |Completed(Updated(h, e))| <= |Completed(h)|
  {
    RateLimit.SubsetSize(Completed(Updated(h, e)), Completed(h));
  }

  lemma {:induction false} AtMostAThousand(states: seq<State>, events: seq<Event>)
    requires IsRun(states, events)
    ensures |Completed(states[|events|].history)| <= MAX_COMPLETED
  {
    if events != [] {
      var n := |events| - 1;
      RunFront(states, events);
      AtMostAThousand(states[..n + 1], events[..n]);
      if !Prunes(events[n]) { OpeningCompletesNothing(states[n].history, events[n]); }
    }
  }

  /** In every run whose connect events carry no disconnect time, whatever else the
      workers report and in whatever order: at most 1000 completed sessions are kept,
      and a session that an event leaves active stays, as the event left it. */
  lemma HistoryIsBounded(states: seq<State>, events: seq<Event>, i: nat, id: string)
    requires IsRun(states, events) && i < |events|
    ensures |Completed(states[i].history)| <= 1000 && |Completed(states[i + 1].history)| <= 1000
    ensures var full := Updated(states[i].history, events[i]);
            id in full && full[id].disconnectedAt.None? ==> id in states[i + 1].history && states[i + 1].history[id] == full[id]
    ensures id in states[i].history && states[i].history[id].disconnectedAt.None? && id !in states[i + 1].history ==>
              (events[i].Disconnect? && events[i].session.id == id)
              || (events[i].CloseAll? && states[i].history[id].relayID == events[i].relayID)
  {
    PrefixIsRun(states, events, i);
    PrefixIsRun(states, events, i + 1);
    AtMostAThousand(states[..i + 1], events[..i]);
    AtMostAThousand(states[..i + 2], events[..i + 1]);
  }

  /** What an event makes of a session: what it brings, the counters it reports, the end it
      gives to the active sessions of its relay, and nothing else. */
  function After(h: History, e: Event, id: string): Option<Session> {
    match e
    case Connect(session) => if session.id == id then Some(session) else Find(h, id)
    case Disconnect(session) => if session.id == id then Some(session) else Find(h, id)
    case Statistics(other, stats) => if other == id && id in h then Some(h[id].(stats := stats)) else Find(h, id)
    case CloseAll(relayID, at, reason) =>
      if id in h && h[id].relayID == relayID && h[id].disconnectedAt.None?
      then Some(h[id].(disconnectedAt := Some(at), reason := reason)) else Find(h, id)
  }

  function Find(h: History, id: string): Option<Session> {
    if id in h then Some(h[id]) else None
  }

  /** In every run a session is what the event makes of it, or it is dropped; and it is
      dropped only when something ends, it has ended itself, and 1000 others are kept that
      ended no earlier. */
  lemma SessionExactly(states: seq<State>, events: seq<Event>, i: nat, id: string)
    requires IsRun(states, events) && i < |events|
    ensures var (before, after, e) := (states[i].history, states[i + 1].history, events[i]);
            Find(after, id) == After(before, e, id)
            || (&& Find(after, id) == None && (e.Disconnect? || e.CloseAll?)
                && After(before, e, id).value.disconnectedAt.Some? && |Completed(after)| == 1000
                && forall kept | kept in Completed(after) :: EndOf(after, kept) >= After(before, e, id).value.disconnectedAt.value)
  {
    var (before, after, e) := (states[i].history, states[i + 1].history, events[i]);
    var full := Updated(before, e);
    assert Find(full, id) == After(before, e, id);
    assert Next(states[i], e, states[i + 1]);
    if Prunes(e) && id in full && id !in after { FullWhenDropping(full, after); }
  }

  lemma PrefixIsRun(states: seq<State>, events: seq<Event>, i: nat)
    requires IsRun(states, events) && i <= |events|
    ensures IsRun(states[..i + 1], events[..i])
  {
    hide Next;
  }

  // ---- when the kept ones are the latest ----

  /** No completed session that is kept ended before one that was ever dropped. */
  predicate Latest(s: State) {
    s.dropped.Some? ==> forall id | id in Completed(s.history) :: EndOf(s.history, id) >= s.dropped.value
  }

  /** ... and, once something has been dropped, the history is full. */
  predicate LatestAndFull(s: State) {
    Latest(s) && (s.dropped.Some? ==> |Completed(s.history)| == MAX_COMPLETED)
  }

  /** After something was dropped, the event reopens a completed session, or moves the end
      of a completed session to before the latest end dropped. */
  predicate Rewrites(s: State, e: Event) {
    && s.dropped.Some?
    && (e.Connect? || e.Disconnect?)
    && e.session.id in Completed(s.history)
    && (e.session.disconnectedAt.None? || e.session.disconnectedAt.value < s.dropped.value)
  }

  /** Statistics, and ends that come in, leave the other ends as they were. */
  lemma UpdatedEnds(h: History, e: Event, id: string)
    requires id in Completed(h)
    requires (e.Connect? || e.Disconnect?) ==> e.session.id != id
    ensures id in Completed(Updated(h, e)) && EndOf(Updated(h, e), id) == EndOf(h, id)
  {
  }

  lemma KeptOrOutranked(full: History, after: History, olds: set<string>, high: int)
    requires Pruned(full, after) && olds <= Completed(full) && |olds| >= MAX_COMPLETED
    requires forall id | id in olds :: EndOf(full, id) >= high
    ensures forall id | id in Completed(after) :: EndOf(full, id) >= high
    ensures |Completed(after)| == MAX_COMPLETED
  {
    RateLimit.SubsetSize(olds, Completed(full));
    var kept := Completed(after);
    forall id | id in kept ensures EndOf(full, id) >= high {
      if id !in olds {
        if olds <= kept {
          RateLimit.SubsetSize(olds + {id}, kept);
        } else {
          var gone :| gone in olds && gone !in kept;
          assert EndOf(full, id) >= EndOf(full, gone);
        }
      }
    }
  }

  /** The completed sessions of a full history, as a pruning event finds them. */
  lemma OldOnesRemain(s: State, e: Event)
    requires LatestAndFull(s) && s.dropped.Some? && Prunes(e) && !Rewrites(s, e)
    ensures var full := Updated(s.history, e);
            && Completed(s.history) <= Completed(full)
            && forall id | id in Completed(s.history) :: EndOf(full, id) >= s.dropped.value
  {
    var full := Updated(s.history, e);
    forall id | id in Completed(s.history)
      ensures id in Completed(full) && EndOf(full, id) >= s.dropped.value
    {
      if e.CloseAll? || e.session.id != id { UpdatedEnds(s.history, e, id); }
    }
  }

  lemma PruningKeepsLatest(s: State, e: Event, s': State)
    requires LatestAndFull(s) && Next(s, e, s') && Prunes(e) && !Rewrites(s, e)
    ensures LatestAndFull(s')
  {
    var full := Updated(s.history, e);
    if s.dropped.Some? {
      OldOnesRemain(s, e);
      KeptOrOutranked(full, s'.history, Completed(s.history), s.dropped.value);
    } else if s'.dropped.Some? {
      FullWhenDropping(full, s'.history);
    }
    hide Updated, LatestAndFull;
    LatestOfBoth(s.dropped, full, s'.history, s'.dropped);
  }

  lemma FullWhenDropping(full: History, after: History)
    requires Pruned(full, after) && exists id :: id in Completed(full) && id !in after
    ensures |Completed(after)| == MAX_COMPLETED
  {
    if |Completed(full)| < MAX_COMPLETED {
      assert Completed(after) <= Completed(full);
      RateLimit.EqualSizeSubset(Completed(after), Completed(full));
    }
  }

  lemma LatestOfBoth(before: Option<int>, full: History, after: History, latest: Option<int>)
    requires Pruned(full, after) && LatestDropped(before, full, after, latest)
    requires before.Some? ==> forall id | id in Completed(after) :: EndOf(full, id) >= before.value
    ensures Latest(State(after, latest))
  {
    forall id | latest.Some? && id in Completed(after) ensures EndOf(after, id) >= latest.value {
      if latest != before {
        var gone :| gone in Completed(full) && gone !in after && EndOf(full, gone) == latest.value;
        assert EndOf(full, id) >= EndOf(full, gone);
      }
    }
  }

  lemma OpeningKeepsLatest(s: State, e: Event, s': State)
    requires LatestAndFull(s) && Next(s, e, s') && Opens(e) && !Prunes(e) && !Rewrites(s, e)
    ensures LatestAndFull(s')
  {
    if s.dropped.Some? { assert Completed(s'.history) == Completed(s.history); }
  }

  /** A rewriting event breaks it at once; a moved end breaks the order itself. */
  lemma RewritingBreaks(s: State, e: Event, s': State)
    requires LatestAndFull(s) && Next(s, e, s') && Opens(e) && Rewrites(s, e)
    ensures !LatestAndFull(s') && (e.Connect? || e.Disconnect?) && (Latest(s') <==> e.session.disconnectedAt.None?)
  {
    var id, full := e.session.id, Updated(s.history, e);
    if e.session.disconnectedAt.None? {
      assert Completed(full) == Completed(s.history) - {id};
      if Prunes(e) {
        assert |Completed(s'.history)| == MAX_COMPLETED - 1;
        RateLimit.EqualSizeSubset(Completed(s'.history), Completed(full));
        assert s'.dropped == s.dropped;
      }
    } else {
      assert Completed(full) == Completed(s.history);
      assert Completed(s'.history) <= Completed(full);
      RateLimit.EqualSizeSubset(Completed(s'.history), Completed(full));
      assert EndOf(s'.history, id) == e.session.disconnectedAt.value;
    }
  }

  lemma OrderOf(s: State)
    ensures LatestAndFull(s) ==> Latest(s)
  {
  }

  /** Exactly which events keep it, and which of them break the order at once; the others
      make room, which RoomLosesTheLatest uses. */
  lemma LatestExactly(s: State, e: Event, s': State)
    requires LatestAndFull(s) && Next(s, e, s') && Opens(e)
    ensures LatestAndFull(s') <==> !Rewrites(s, e)
    ensures Latest(s') <==> !(Rewrites(s, e) && e.session.disconnectedAt.Some?)
  {
    OrderOf(s');
    hide LatestAndFull, Latest, Next, Rewrites;
    if Rewrites(s, e) {
      RewritingBreaks(s, e, s');
    } else if Prunes(e) {
      PruningKeepsLatest(s, e, s');
    } else {
      OpeningKeepsLatest(s, e, s');
    }
  }

  /** Over runs: the history is at every point full of the latest once something was
      dropped, and no kept session ended before a dropped one, if and only if no event of
      the run reopens a completed session, or moves its end to before the latest end
      dropped, after something was dropped. */
  lemma {:induction false} HistoryKeepsTheLatest(states: seq<State>, events: seq<Event>)
    requires IsRun(states, events)
    ensures (forall i | 0 <= i <= |events| :: LatestAndFull(states[i])) <==> (forall i | 0 <= i < |events| :: !Rewrites(states[i], events[i]))
  {
    hide LatestAndFull, Next, Rewrites;
    assert LatestAndFull(INITIAL) by { InitialIsLatest(); }
    if forall i | 0 <= i <= |events| :: LatestAndFull(states[i]) {
      forall i | 0 <= i < |events| ensures !Rewrites(states[i], events[i]) {
        LatestExactly(states[i], events[i], states[i + 1]);
      }
    }
    if forall i | 0 <= i < |events| :: !Rewrites(states[i], events[i]) {
      for n := 0 to |events|
        invariant forall i | 0 <= i <= n :: LatestAndFull(states[i])
      {
        LatestExactly(states[n], events[n], states[n + 1]);
      }
    }
  }

  lemma InitialIsLatest()
    ensures LatestAndFull(INITIAL)
  {
  }

  /** Why fullness belongs to it: with room left after something was dropped, the end of
      one new session is enough to keep one that ended before a dropped one. */
  lemma RoomLosesTheLatest(s: State, session: Session)
    requires s.dropped.Some? && |Completed(s.history)| < MAX_COMPLETED
    requires session.id !in s.history && session.disconnectedAt.Some? && session.disconnectedAt.value < s.dropped.value
    ensures var s' := State(s.history[session.id := session], s.dropped);
            Next(s, Disconnect(session), s') && !Latest(s')
  {
    var full := s.history[session.id := session];
    assert Completed(full) == Completed(s.history) + {session.id};
    assert EndOf(full, session.id) == session.disconnectedAt.value;
  }

  // ---- a run that loses the latest ----

  function Guest(i: nat): Session {
    Session(Itoa(i), "news", "partner", 0, None, "", 0)
  }

  function Guests(n: nat): History {
    if n == 0 then map[] else Guests(n - 1)[Itoa(n - 1) := Guest(n - 1)]
  }

  lemma {:induction false} GuestsAre(n: nat)
    ensures forall id :: id in Guests(n) <==> exists i: nat :: i < n && id == Itoa(i)
    ensures forall id | id in Guests(n) :: Guests(n)[id] == Session(id, "news", "partner", 0, None, "", 0)
    ensures |Guests(n)| == n
  {
    hide Itoa;
    if n > 0 {
      GuestsAre(n - 1);
      forall i: nat | i < n - 1 ensures Itoa(i) != Itoa(n - 1) {
        if Itoa(i) == Itoa(n - 1) { ItoaInjective(i, n - 1); }
      }
      assert Itoa(n - 1) !in Guests(n - 1);
      forall id ensures id in Guests(n) <==> exists i: nat :: i < n && id == Itoa(i) {
        if id in Guests(n) && id in Guests(n - 1) {
          var i: nat :| i < n - 1 && id == Itoa(i);
        }
      }
    }
  }

  const CROWD: nat := MAX_COMPLETED + 1

  /** After the supervisor has ended all of them at 10, the first one falls out ... */
  function Swept(): History {
    Ended(Guests(CROWD), "news", 10, "exit") - {Itoa(0)}
  }

  /** ... and then the worker's own, earlier report about the second comes in. */
  function Report(): Session {
    Guest(1).(disconnectedAt := Some(5))
  }

  function SampleStates(): seq<State> {
    seq(CROWD + 1, i requires 0 <= i <= CROWD => State(Guests(i), None)) +
      [State(Swept(), Some(10)), State(Swept()[Itoa(1) := Report()], Some(10))]
  }

  function SampleEvents(): seq<Event> {
    seq(CROWD, i requires 0 <= i < CROWD => Connect(Guest(i))) + [CloseAll("news", 10, "exit"), Disconnect(Report())]
  }

  lemma SweptIsPruned()
    ensures Next(State(Guests(CROWD), None), CloseAll("news", 10, "exit"), State(Swept(), Some(10)))
    ensures |Completed(Swept())| == MAX_COMPLETED
    ensures Itoa(1) in Completed(Swept())
    ensures forall id | id in Completed(Swept()) :: Swept()[id].disconnectedAt == Some(10)
  {
    hide Itoa, Guests;
    GuestsAre(CROWD);
    var full := Ended(Guests(CROWD), "news", 10, "exit");
    if Itoa(0) == Itoa(1) { ItoaInjective(0, 1); }
    assert Itoa(0) in Guests(CROWD) && Itoa(1) in Guests(CROWD);
    assert Completed(full) == full.Keys == Guests(CROWD).Keys;
    assert |full.Keys| == CROWD by { assert |Guests(CROWD).Keys| == |Guests(CROWD)|; }
    assert Completed(Swept()) == Completed(full) - {Itoa(0)};
    assert EndOf(full, Itoa(0)) == 10;
  }

  lemma ReportRewrites()
    ensures Next(State(Swept(), Some(10)), Disconnect(Report()), State(Swept()[Itoa(1) := Report()], Some(10)))
    ensures Rewrites(State(Swept(), Some(10)), Disconnect(Report()))
    ensures !Latest(State(Swept()[Itoa(1) := Report()], Some(10)))
  {
    hide Swept, Itoa;
    SweptIsPruned();
    assert Report().id == Itoa(1);
    var after := Swept()[Itoa(1) := Report()];
    assert Completed(after) == Completed(Swept());
    assert EndOf(after, Itoa(1)) == 5;
  }

  /** A run from the empty history, with nothing but open connects, the supervisor's
      closing of a relay whose worker exited and one report that the worker had buffered:
      afterwards a kept session ended before a dropped one. */
  lemma LateReportLosesTheLatest()
    ensures IsRun(SampleStates(), SampleEvents())
    ensures !Latest(SampleStates()[|SampleEvents()|])
  {
    hide Swept, Itoa, Next, Latest, Report;
    SweptIsPruned();
    ReportRewrites();
    var states, events := SampleStates(), SampleEvents();
    forall i | 0 <= i < CROWD ensures Opens(events[i]) && Next(states[i], events[i], states[i + 1]) {
      assert events[i] == Connect(Guest(i));
      assert states[i] == State(Guests(i), None) && states[i + 1] == State(Guests(i + 1), None);
      ConnectingGuest(i);
    }
    assert states[CROWD] == State(Guests(CROWD), None);
    assert states[0] == State(Guests(0), None) == INITIAL;
    forall i | 0 <= i < |events| ensures Opens(events[i]) && Next(states[i], events[i], states[i + 1]) {
      assert i < CROWD || i == CROWD || i == CROWD + 1;
    }
  }

  lemma ConnectingGuest(i: nat)
    ensures Next(State(Guests(i), None), Connect(Guest(i)), State(Guests(i + 1), None))
    ensures Opens(Connect(Guest(i)))
  {
    hide Itoa;
  }

  // ---- input status ----

  const DEGRADED: string := "degraded"

  datatype Transition = Stalled(relay: string) | Restored(relay: string)

  /** Everything that writes a relay's status; `SetStatus` is the supervisor, which
      never writes "degraded", and `Remove` the deletion of the relay. */
  datatype StatusEvent =
    | Ready(relay: string)
    | Metrics(relay: string, reason: string)
    | Error(relay: string)
    | SetStatus(relay: string, status: string)
    | Remove(relay: string)

  datatype Board = Board(statuses: map<string, string>, trail: seq<Transition>)

  function StatusOf(b: Board, relay: string): string {
    if relay in b.statuses then b.statuses[relay] else "stopped"
  }

  function ApplyStatus(b: Board, e: StatusEvent): Board {
    match e
    case Ready(r) => b.(statuses := b.statuses[r := "running"])
    case Error(r) => b.(statuses := b.statuses[r := "error"])
    case SetStatus(r, status) => b.(statuses := b.statuses[r := status])
    case Remove(r) => b.(statuses := b.statuses - {r})
    case Metrics(r, reason) =>
      if reason != "" && StatusOf(b, r) != DEGRADED then
        Board(b.statuses[r := DEGRADED], b.trail + [Stalled(r)])
      else if reason == "" && StatusOf(b, r) == DEGRADED then
        Board(b.statuses[r := "running"], b.trail + [Restored(r)])
      else b.(statuses := b.statuses[r := StatusOf(b, r)])
  }

  function RunStatus(events: seq<StatusEvent>): Board {
    if events == [] then Board(map[], [])
    else ApplyStatus(RunStatus(events[..|events| - 1]), events[|events| - 1])
  }

  predicate Supervised(events: seq<StatusEvent>) {
    forall i | 0 <= i < |events| :: events[i].SetStatus? ==> events[i].status != DEGRADED
  }

  function LastOf(trail: seq<Transition>, relay: string): Option<Transition> {
    if trail == [] then None
    else if trail[|trail| - 1].relay == relay then Some(trail[|trail| - 1])
    else LastOf(trail[..|trail| - 1], relay)
  }

  ghost predicate WellPaired(trail: seq<Transition>) {
    forall j | 0 <= j < |trail| && trail[j].Restored? :: LastOf(trail[..j], trail[j].relay) == Some(Stalled(trail[j].relay))
  }

  lemma StatusStep(b: Board, e: StatusEvent, relay: string)
    requires e.SetStatus? ==> e.status != DEGRADED
    requires StatusOf(b, relay) == DEGRADED ==> LastOf(b.trail, relay) == Some(Stalled(relay))
    ensures var b' := ApplyStatus(b, e);
            StatusOf(b', relay) == DEGRADED ==> LastOf(b'.trail, relay) == Some(Stalled(relay))
  {
    var b' := ApplyStatus(b, e);
    assert b'.trail != b.trail ==> b'.trail[..|b.trail|] == b.trail;
  }

  lemma {:induction false} DegradedMeansStalled(events: seq<StatusEvent>, relay: string)
    requires Supervised(events)
    ensures StatusOf(RunStatus(events), relay) == DEGRADED ==> LastOf(RunStatus(events).trail, relay) == Some(Stalled(relay))
  {
    if events != [] {
      var front := events[..|events| - 1];
      DegradedMeansStalled(front, relay);
      StatusStep(RunStatus(front), events[|events| - 1], relay);
    }
  }

  lemma {:induction false} TrailWellPaired(events: seq<StatusEvent>)
    requires Supervised(events)
    ensures WellPaired(RunStatus(events).trail)
  {
    if events != [] {
      var front, e := events[..|events| - 1], events[|events| - 1];
      TrailWellPaired(front);
      DegradedMeansStalled(front, e.relay);
      var trail, trail' := RunStatus(front).trail, RunStatus(events).trail;
      forall j | 0 <= j < |trail'| && trail'[j].Restored?
        ensures LastOf(trail'[..j], trail'[j].relay) == Some(Stalled(trail'[j].relay))
      {
        assert trail'[..j] == trail[..j];
        assert trail[..|trail|] == trail;
      }
    }
  }

  lemma {:induction false} LastOfBetween(trail: seq<Transition>, i: nat, relay: string)
    requires i < |trail| && trail[i].relay == relay && LastOf(trail, relay) == Some(Stalled(relay)) && trail[i].Restored?
    ensures exists k :: i < k < |trail| && trail[k] == Stalled(relay)
  {
    var last := |trail| - 1;
    if trail[last].relay != relay {
      LastOfBetween(trail[..last], i, relay);
      var k :| i < k < last && trail[..last][k] == Stalled(relay);
      assert trail[k] == Stalled(relay);
    }
  }

  /** In every run, between two restored records of a relay there is a stalled one. */
  lemma RestoredNeedsStalled(events: seq<StatusEvent>, i: nat, j: nat)
    requires Supervised(events)
    requires i < j < |RunStatus(events).trail|
    requires RunStatus(events).trail[i] == RunStatus(events).trail[j] && RunStatus(events).trail[i].Restored?
    ensures exists k :: i < k < j && RunStatus(events).trail[k] == Stalled(RunStatus(events).trail[i].relay)
  {
    TrailWellPaired(events);
    var trail := RunStatus(events).trail;
    LastOfBetween(trail[..j], i, trail[i].relay);
    var k :| i < k < j && trail[..j][k] == Stalled(trail[i].relay);
    assert trail[k] == Stalled(trail[i].relay);
  }

  // ---- the status and the records, from the relay's own events ----

  /** A report of a stall has come in, and nothing about the relay since but more of them. */
  predicate StallStands(events: seq<StatusEvent>, relay: string) {
    exists i | 0 <= i < |events| :: StallAt(events, relay, i)
  }

  predicate StallAt(events: seq<StatusEvent>, relay: string, i: nat)
    requires i < |events|
  {
    && events[i].relay == relay
    && forall k | i <= k < |events| && events[k].relay == relay :: events[k].Metrics? && events[k].reason != ""
  }

  lemma StallStep(events: seq<StatusEvent>, relay: string)
    requires events != []
    ensures var (front, e) := (events[..|events| - 1], events[|events| - 1]);
            StallStands(events, relay) <==>
              if e.relay == relay then e.Metrics? && e.reason != "" else StallStands(front, relay)
  {
    var n := |events| - 1;
    var (front, e) := (events[..n], events[n]);
    if StallStands(events, relay) && e.relay != relay {
      var i :| 0 <= i < |events| && StallAt(events, relay, i);
      assert StallAt(front, relay, i);
    }
    if StallStands(front, relay) && e.relay != relay {
      var i :| 0 <= i < |front| && StallAt(front, relay, i);
      assert events[i] == front[i];
      forall k | i <= k < |events| && events[k].relay == relay ensures events[k].Metrics? && events[k].reason != "" {
        assert front[k] == events[k];
      }
      assert StallAt(events, relay, i);
    }
    if e.relay == relay && e.Metrics? && e.reason != "" { assert StallAt(events, relay, n); }
  }

  /** In every run a relay is degraded exactly while a reported stall stands: since the
      report it has not got ready, failed, been removed or written by the supervisor, and
      every later report has had a reason too. */
  lemma {:induction false} DegradedExactly(events: seq<StatusEvent>, relay: string)
    requires Supervised(events)
    ensures StatusOf(RunStatus(events), relay) == "degraded" <==> StallStands(events, relay)
  {
    if events != [] {
      DegradedExactly(events[..|events| - 1], relay);
      StallStep(events, relay);
    }
  }

  /** In every run an event makes a record exactly if it begins or ends a stall: a report
      with a reason when none stands, or one without when one does. */
  lemma RecordsExactly(events: seq<StatusEvent>, e: StatusEvent)
    requires Supervised(events)
    ensures var (trail, trail') := (RunStatus(events).trail, RunStatus(events + [e]).trail);
            var reports := e.Metrics?;
            && (reports && e.reason != "" && !StallStands(events, e.relay) ==> trail' == trail + [Stalled(e.relay)])
            && (reports && e.reason == "" && StallStands(events, e.relay) ==> trail' == trail + [Restored(e.relay)])
            && (!reports || (e.reason != "" <==> StallStands(events, e.relay)) ==> trail' == trail)
  {
    DegradedExactly(events, e.relay);
    assert (events + [e])[..|events|] == events;
    hide StallStands;
  }

  /** The last event about the relay that is no report gives its status, ... */
  function Written(events: seq<StatusEvent>, relay: string): string {
    if events == [] then "stopped"
    else
      var e := events[|events| - 1];
      if e.relay != relay then Written(events[..|events| - 1], relay)
      else match e
        case Ready(_) => "running"
        case Error(_) => "error"
        case SetStatus(_, status) => status
        case Remove(_) => "stopped"
        case Metrics(_, _) => Written(events[..|events| - 1], relay)
  }

  /** ... unless a stall was reported since. */
  predicate StallSince(events: seq<StatusEvent>, relay: string) {
    && events != []
    && var (front, e) := (events[..|events| - 1], events[|events| - 1]);
       if e.relay == relay && !e.Metrics? then false
       else (e.relay == relay && e.reason != "") || StallSince(front, relay)
  }

  lemma {:induction false} StandingIsSince(events: seq<StatusEvent>, relay: string)
    ensures StallStands(events, relay) ==> StallSince(events, relay)
  {
    if events != [] {
      StandingIsSince(events[..|events| - 1], relay);
      StallStep(events, relay);
      hide StallStands;
    }
  }

  /** In every run: a relay got ready runs, one that failed is in error, one written by the
      supervisor is what was written, one removed or never written is stopped; a stall
      makes it degraded while it stands, and running after. */
  lemma {:induction false} StatusExactly(events: seq<StatusEvent>, relay: string)
    requires Supervised(events)
    ensures StatusOf(RunStatus(events), relay) ==
            if StallStands(events, relay) then "degraded"
            else if StallSince(events, relay) then "running"
            else Written(events, relay)
  {
    DegradedExactly(events, relay);
    StandingIsSince(events, relay);
    if events != [] {
      var front := events[..|events| - 1];
      StatusExactly(front, relay);
      DegradedExactly(front, relay);
      StandingIsSince(front, relay);
      StallStep(events, relay);
      hide StallStands, Supervised;
    }
  }
}
