/** Delivery of the multicast input: the byte stream is cut into packets of a fixed
    size, and each packet is offered to a bounded queue per session. */
module Delivery {
  import opened Wrappers
  import opened Sequences

  type Bytes = seq<bv8>

  // ---- the re-chunker ----

  function Packets(stream: Bytes, size: nat): seq<Bytes>
    requires size > 0
  {
    if |stream| < size then [] else [stream[..size]] + Packets(stream[size..], size)
  }

  function Rest(stream: Bytes, size: nat): Bytes
    requires size > 0
  {
    if |stream| < size then stream else Rest(stream[size..], size)
  }

  lemma {:induction false} FullPackets(stream: Bytes, size: nat)
    requires size > 0
    ensures forall i | 0 <= i < |Packets(stream, size)| :: |Packets(stream, size)[i]| == size
    ensures |Rest(stream, size)| < size
  {
    if |stream| >= size { FullPackets(stream[size..], size); }
  }

  /** Nothing is lost, added or reordered. */
  lemma {:induction false} ChunkingConserves(stream: Bytes, size: nat)
    requires size > 0
    ensures Flatten(Packets(stream, size)) + Rest(stream, size) == stream
  {
    if |stream| < size {
      assert Flatten<bv8>([]) == [] && [] + stream == stream;
    } else {
      var head, tail := stream[..size], stream[size..];
      assert Packets(stream, size) == [head] + Packets(tail, size) && Rest(stream, size) == Rest(tail, size);
      assert head + tail == stream;
      hide Flatten, Packets, Rest;
      ChunkingConserves(tail, size);
      FlattenCons(head, Packets(tail, size));
      Assoc(head, Flatten(Packets(tail, size)), Rest(tail, size));
    }
  }

  /** How the stream arrives does not matter: only the bytes do. */
  lemma {:induction false} ChunkingIgnoresDatagrams(stream: Bytes, datagram: Bytes, size: nat)
    requires size > 0
    ensures Packets(stream + datagram, size) == Packets(stream, size) + Packets(Rest(stream, size) + datagram, size)
    ensures Rest(stream + datagram, size) == Rest(Rest(stream, size) + datagram, size)
  {
    if |stream| >= size {
      ChunkingIgnoresDatagrams(stream[size..], datagram, size);
      CutAppend(stream, datagram, size);
      Assoc([stream[..size]], Packets(stream[size..], size), Packets(Rest(stream, size) + datagram, size));
    }
  }

  // ---- one session's queue ----

  const QUEUE_SIZE: nat := 512
  const MAX_DROP_BURST: nat := 256

  /** `alarms` counts the closes that broadcast has started for this session. */
  datatype Mailbox = Mailbox(queue: seq<Bytes>, drops: nat, burst: nat, done: bool, alarms: nat)

  datatype Verdict = Queued | Skipped | Dropped

  const EMPTY_MAILBOX: Mailbox := Mailbox([], 0, 0, false, 0)

  /** The second select of broadcast. With room in the queue and the session done,
      Go may take either case: `sawDone` is that choice. */
  function Offer(box: Mailbox, packet: Bytes, sawDone: bool): (Mailbox, Verdict) {
    if |box.queue| < QUEUE_SIZE && !(box.done && sawDone) then
      (box.(queue := box.queue + [packet], burst := 0), Queued)
    else if box.done then (box, Skipped)
    else
      (box.(drops := box.drops + 1, burst := box.burst + 1,
            alarms := box.alarms + if box.burst + 1 == MAX_DROP_BURST then 1 else 0), Dropped)
  }

  // ---- its history ----

  /** `accepted[i]` tells whether offer i entered the queue, and `takenBefore[i]` how many
      packets the sender had taken by then. */
  datatype History = History(offered: seq<Bytes>, accepted: seq<bool>, takenBefore: seq<nat>, taken: seq<Bytes>, joined: nat)

  function Selected(offered: seq<Bytes>, accepted: seq<bool>): seq<Bytes>
    requires |offered| == |accepted|
  {
    if offered == [] then []
    else Selected(offered[..|offered| - 1], accepted[..|offered| - 1]) +
         if accepted[|offered| - 1] then [offered[|offered| - 1]] else []
  }

  function Acceptances(accepted: seq<bool>): nat {
    if accepted == [] then 0
    else Acceptances(accepted[..|accepted| - 1]) + if accepted[|accepted| - 1] then 1 else 0
  }

  function Refusals(accepted: seq<bool>): nat {
    if accepted == [] then 0
    else Refusals(accepted[..|accepted| - 1]) + if accepted[|accepted| - 1] then 0 else 1
  }

  /** Length of the run of refusals at the end. */
  function TrailingRefusals(accepted: seq<bool>): (n: nat)
    ensures n <= |accepted|
  {
    if accepted == [] || accepted[|accepted| - 1] then 0
    else TrailingRefusals(accepted[..|accepted| - 1]) + 1
  }

  /** Moments at which a run of refusals reached the limit. */
  function Alarms(accepted: seq<bool>): nat {
    if accepted == [] then 0
    else Alarms(accepted[..|accepted| - 1]) + if TrailingRefusals(accepted) == MAX_DROP_BURST then 1 else 0
  }

  ghost predicate Starved(accepted: seq<bool>, at: nat) {
    at + 256 <= |accepted| && forall i | at <= i < at + 256 :: !accepted[i]
  }

  lemma {:induction false} TrailingMeaning(accepted: seq<bool>)
    ensures var n := TrailingRefusals(accepted);
            && (forall i | |accepted| - n <= i < |accepted| :: !accepted[i])
            && (n < |accepted| ==> accepted[|accepted| - n - 1])
  {
    if accepted != [] && !accepted[|accepted| - 1] {
      TrailingMeaning(accepted[..|accepted| - 1]);
    }
  }

  /** A close is started exactly when some 256 consecutive offers were refused. */
  lemma {:induction false} AlarmMeansStarvation(accepted: seq<bool>)
    ensures Alarms(accepted) > 0 <==> exists at: nat :: Starved(accepted, at)
  {
    if accepted == [] { return; }
    var front, n := accepted[..|accepted| - 1], TrailingRefusals(accepted);
    AlarmMeansStarvation(front);
    TrailingMeaning(accepted);
    if n == MAX_DROP_BURST {
      assert Starved(accepted, |accepted| - n);
    }
    if exists at: nat :: Starved(front, at) {
      var at: nat :| Starved(front, at);
      assert Starved(accepted, at);
    }
    if exists at: nat :: Starved(accepted, at) {
      var at: nat :| Starved(accepted, at);
      if at + MAX_DROP_BURST < |accepted| {
        assert Starved(front, at);
      } else if n > MAX_DROP_BURST {
        assert Starved(front, |front| - MAX_DROP_BURST);
      }
    }
  }

  /** An offer was refused if and only if 512 accepted packets were not yet taken. */
  ghost predicate RefusedWhenFull(accepted: seq<bool>, takenBefore: seq<nat>) {
    && |takenBefore| == |accepted|
    && forall i | 0 <= i < |accepted| ::
         && Acceptances(accepted[..i]) <= takenBefore[i] + 512
         && (!accepted[i] <==> Acceptances(accepted[..i]) == takenBefore[i] + 512)
  }

  /** An open session refuses a packet if and only if 512 are queued, and otherwise queues it
      last. */
  lemma OpenOffer(box: Mailbox, packet: Bytes, sawDone: bool)
    requires !box.done && |box.queue| <= 512
    ensures var (box', verdict) := Offer(box, packet, sawDone);
            && (verdict == Dropped <==> |box.queue| == 512) && (verdict == Queued <==> |box.queue| < 512)
            && box'.queue == (if |box.queue| == 512 then box.queue else box.queue + [packet])
            && box'.drops == box.drops + (if |box.queue| == 512 then 1 else 0) && !box'.done
  {
  }

  /** A finished session drops nothing any more. */
  lemma DoneOffer(box: Mailbox, packet: Bytes, sawDone: bool)
    requires box.done
    ensures var (box', verdict) := Offer(box, packet, sawDone);
            && verdict != Dropped && box'.drops == box.drops && box'.alarms == box.alarms && box'.done
            && (verdict == Queued <==> |box.queue| < 512 && !sawDone)
            && box'.queue == if verdict == Queued then box.queue + [packet] else box.queue
  {
  }

  lemma OneMoreOffer(accepted: seq<bool>, takenBefore: seq<nat>, ok: bool, taken: nat)
    requires RefusedWhenFull(accepted, takenBefore) && Acceptances(accepted) <= taken + 512
    requires !ok <==> Acceptances(accepted) == taken + 512
    ensures RefusedWhenFull(accepted + [ok], takenBefore + [taken])
  {
    var all := accepted + [ok];
    forall i | 0 <= i < |all| ensures all[..i] == accepted[..i] {}
    assert accepted[..|accepted|] == accepted;
    hide Acceptances;
  }

  /** A session's queue and counters are determined by which offers it accepted. */
  ghost predicate Accounts(box: Mailbox, h: History) {
    && |h.accepted| == |h.offered|
    && h.taken + box.queue == Selected(h.offered, h.accepted)
    && |box.queue| <= 512
    && RefusedWhenFull(h.accepted, h.takenBefore)
    && box.drops == Refusals(h.accepted)
    && box.burst == TrailingRefusals(h.accepted)
    && box.alarms == Alarms(h.accepted)
  }

  function Offered(h: History, packet: Bytes, verdict: Verdict): History {
    if verdict.Skipped? then h
    else h.(offered := h.offered + [packet], accepted := h.accepted + [verdict.Queued?], takenBefore := h.takenBefore + [|h.taken|])
  }

  /** What one more verdict adds to the counts. */
  lemma OneMoreVerdict(offered: seq<Bytes>, accepted: seq<bool>, packet: Bytes, ok: bool)
    requires |offered| == |accepted|
    ensures Selected(offered + [packet], accepted + [ok]) == Selected(offered, accepted) + if ok then [packet] else []
    ensures Refusals(accepted + [ok]) == Refusals(accepted) + if ok then 0 else 1
    ensures TrailingRefusals(accepted + [ok]) == if ok then 0 else TrailingRefusals(accepted) + 1
    ensures Alarms(accepted + [ok]) == Alarms(accepted) + if !ok && TrailingRefusals(accepted) + 1 == MAX_DROP_BURST then 1 else 0
  {
    assert (offered + [packet])[..|offered|] == offered && (accepted + [ok])[..|accepted|] == accepted;
  }

  lemma OfferAccounts(box: Mailbox, h: History, packet: Bytes, sawDone: bool)
    requires Accounts(box, h)
    ensures var (box', verdict) := Offer(box, packet, sawDone);
            Accounts(box', Offered(h, packet, verdict))
  {
    hide Selected, Refusals, TrailingRefusals, Alarms, RefusedWhenFull, Acceptances;
    var (box', verdict) := Offer(box, packet, sawDone);
    if !verdict.Skipped? {
      OffersAddUp(h.offered, h.accepted);
      OneMoreVerdict(h.offered, h.accepted, packet, verdict.Queued?);
      OneMoreOffer(h.accepted, h.takenBefore, verdict.Queued?, |h.taken|);
      if verdict.Queued? { Assoc(h.taken, box.queue, [packet]); }
      assert Selected(h.offered, h.accepted) + [] == Selected(h.offered, h.accepted);
    }
  }

  lemma TakeAccounts(box: Mailbox, h: History)
    requires Accounts(box, h) && box.queue != []
    ensures Accounts(box.(queue := box.queue[1..]), h.(taken := h.taken + [box.queue[0]]))
  {
    hide Selected, Refusals, TrailingRefusals, Alarms, Acceptances;
    assert h.taken + box.queue == (h.taken + [box.queue[0]]) + box.queue[1..];
  }

  lemma FinishAccounts(box: Mailbox, h: History)
    requires Accounts(box, h)
    ensures Accounts(box.(done := true), h)
  {
    hide Selected, Refusals, TrailingRefusals, Alarms, RefusedWhenFull;
  }

  lemma {:induction false} OffersAddUp(offered: seq<Bytes>, accepted: seq<bool>)
    requires |offered| == |accepted|
    ensures |Selected(offered, accepted)| + Refusals(accepted) == |offered|
    ensures |Selected(offered, accepted)| == Acceptances(accepted)
  {
    if offered != [] {
      OffersAddUp(offered[..|offered| - 1], accepted[..|offered| - 1]);
    }
  }

  // ---- runs ----

  datatype Session = Session(box: Mailbox, history: History)

  /** `todo` is what is left of the snapshot that the current broadcast took;
      `selecting` is the session whose done channel it has just found open. */
  datatype System = System(
    received: Bytes,
    buffer: Bytes,
    emitted: seq<Bytes>,
    live: set<string>,
    sessions: map<string, Session>,
    todo: set<string>,
    selecting: Option<string>)

  datatype Event =
    | Receive(datagram: Bytes)
    | Cut                                // take one packet and snapshot the sessions
    | Check(id: string)                  // first select: is the session done?
    | Select(id: string, sawDone: bool)  // second select
    | Take(id: string)                   // sendLoop takes a packet
    | Join(id: string)
    | Finish(id: string)                 // close(done)
    | Forget(id: string)                 // the locked delete

  const INITIAL: System := System([], [], [], {}, map[], {}, None)

  /** One step of the input loop, a sender or a closer. Broadcast visits its snapshot
      in any order; an event that is not enabled changes nothing. */
  function Step(sys: System, size: nat, e: Event): System
    requires size > 0
  {
    match e
    case Receive(datagram) =>
      if sys.todo == {} && |sys.buffer| < size
      then sys.(received := sys.received + datagram, buffer := sys.buffer + datagram) else sys
    case Cut =>
      if sys.todo == {} && |sys.buffer| >= size
      then sys.(emitted := sys.emitted + [sys.buffer[..size]], buffer := sys.buffer[size..], todo := sys.live, selecting := None)
      else sys
    case Check(id) =>
      if id !in sys.todo || id !in sys.sessions || sys.selecting.Some? then sys
      else if sys.sessions[id].box.done then sys.(todo := sys.todo - {id})
      else sys.(selecting := Some(id))
    case Select(id, sawDone) =>
      if sys.selecting != Some(id) || id !in sys.todo || id !in sys.sessions || sys.emitted == [] then sys
      else
        var Session(box, history) := sys.sessions[id];
        var packet := sys.emitted[|sys.emitted| - 1];
        var (box', verdict) := Offer(box, packet, sawDone);
        sys.(sessions := sys.sessions[id := Session(box', Offered(history, packet, verdict))],
             todo := sys.todo - {id}, selecting := None)
    case Take(id) =>
      if id !in sys.sessions || sys.sessions[id].box.queue == [] then sys
      else
        var Session(box, h) := sys.sessions[id];
        sys.(sessions := sys.sessions[id := Session(box.(queue := box.queue[1..]), h.(taken := h.taken + [box.queue[0]]))])
    case Join(id) =>
      if id in sys.sessions then sys
      else sys.(live := sys.live + {id},
                sessions := sys.sessions[id := Session(EMPTY_MAILBOX, History([], [], [], [], |sys.emitted|))])
    case Finish(id) =>
      if id !in sys.sessions then sys
      else sys.(sessions := sys.sessions[id := sys.sessions[id].(box := sys.sessions[id].box.(done := true))])
    case Forget(id) =>
      if id in sys.sessions && sys.sessions[id].box.done then sys.(live := sys.live - {id}) else sys
  }

  function Run(events: seq<Event>, size: nat): System
    requires size > 0
  {
    if events == [] then INITIAL
    else Step(Run(events[..|events| - 1], size), size, events[|events| - 1])
  }

  /** Offers follow the emitted packets one by one from the moment of joining; an
      open session lags only by the packet being broadcast right now. */
  ghost predicate Follows(sys: System, id: string) {
    && id in sys.sessions
    && var Session(box, h) := sys.sessions[id];
    && h.joined + |h.offered| <= |sys.emitted|
    && h.offered == sys.emitted[h.joined..h.joined + |h.offered|]
    && (!box.done ==> id in sys.live)
    && (!box.done || (id in sys.todo && sys.selecting == Some(id)) ==>
          h.joined + |h.offered| + (if id in sys.todo then 1 else 0) == |sys.emitted|)
  }

  ghost predicate StreamInv(sys: System, size: nat)
    requires size > 0
  {
    && Flatten(sys.emitted) + sys.buffer == sys.received
    && (forall i | 0 <= i < |sys.emitted| :: |sys.emitted[i]| == size)
  }

  ghost predicate SessionsInv(sys: System) {
    && sys.todo + sys.live <= sys.sessions.Keys
    && forall id | id in sys.sessions :: Accounts(sys.sessions[id].box, sys.sessions[id].history) && Follows(sys, id)
  }

  lemma StreamStep(sys: System, size: nat, e: Event)
    requires size > 0 && StreamInv(sys, size)
    ensures StreamInv(Step(sys, size, e), size)
  {
    if e.Cut? && sys.todo == {} && |sys.buffer| >= size {
      var packet := sys.buffer[..size];
      FlattenAppend(sys.emitted, [packet]);
      assert Flatten([packet]) == packet + Flatten([]) == packet;
      assert sys.buffer == packet + sys.buffer[size..];
    } else if e.Receive? {
      assert Flatten(sys.emitted) + (sys.buffer + e.datagram) == (Flatten(sys.emitted) + sys.buffer) + e.datagram;
    }
  }

  /** What one step does to one session. */
  lemma SessionStep(sys: System, size: nat, e: Event, id: string)
    requires size > 0 && id in Step(sys, size, e).sessions
    ensures var session' := Step(sys, size, e).sessions[id];
            if id !in sys.sessions then session' == Session(EMPTY_MAILBOX, History([], [], [], [], |sys.emitted|))
            else
              var Session(box, h) := sys.sessions[id];
              || session' == Session(box, h)
              || session' == Session(box.(done := true), h)
              || (box.queue != [] && session' == Session(box.(queue := box.queue[1..]), h.(taken := h.taken + [box.queue[0]])))
              || (e.Select? && sys.emitted != []
                  && var (box', verdict) := Offer(box, sys.emitted[|sys.emitted| - 1], e.sawDone);
                     session' == Session(box', Offered(h, sys.emitted[|sys.emitted| - 1], verdict)))
  {
    hide Offer, Offered;
  }

  lemma SessionAccounts(sys: System, size: nat, e: Event, id: string)
    requires size > 0 && SessionsInv(sys) && id in Step(sys, size, e).sessions
    ensures var sys' := Step(sys, size, e);
            Accounts(sys'.sessions[id].box, sys'.sessions[id].history)
  {
    hide Offer, Offered, Follows, Accounts, Step;
    SessionStep(sys, size, e, id);
    if id !in sys.sessions {
      NewAccounts(|sys.emitted|);
    } else {
      var Session(box, h) := sys.sessions[id];
      assert Accounts(box, h);
      FinishAccounts(box, h);
      if box.queue != [] { TakeAccounts(box, h); }
      if e.Select? && sys.emitted != [] { OfferAccounts(box, h, sys.emitted[|sys.emitted| - 1], e.sawDone); }
    }
  }

  lemma NewAccounts(joined: nat)
    ensures Accounts(EMPTY_MAILBOX, History([], [], [], [], joined))
  {
  }

  lemma CutFollows(sys: System, size: nat, id: string)
    requires size > 0 && SessionsInv(sys) && id in sys.sessions
    ensures Follows(Step(sys, size, Cut), id)
  {
    hide Accounts, Offer, Offered;
    assert Follows(sys, id);
    var h, emitted' := sys.sessions[id].history, Step(sys, size, Cut).emitted;
    assert h.offered == emitted'[h.joined..h.joined + |h.offered|];
  }

  lemma SelectFollows(sys: System, size: nat, at: string, sawDone: bool, id: string)
    requires size > 0 && SessionsInv(sys) && id in sys.sessions
    ensures Follows(Step(sys, size, Select(at, sawDone)), id)
  {
    hide Accounts;
    assert Follows(sys, id);
    if at == id && sys.selecting == Some(id) && id in sys.todo {
      var h := sys.sessions[id].history;
      var n := h.joined + |h.offered|;
      assert sys.emitted[h.joined..n] + [sys.emitted[n]] == sys.emitted[h.joined..n + 1];
    }
  }

  lemma CheckFollows(sys: System, size: nat, at: string, id: string)
    requires size > 0 && SessionsInv(sys) && id in sys.sessions
    ensures Follows(Step(sys, size, Check(at)), id)
  {
    hide Accounts, Offer, Offered;
    assert Follows(sys, id);
  }

  lemma OtherFollows(sys: System, size: nat, e: Event, id: string)
    requires size > 0 && SessionsInv(sys) && id in sys.sessions && !e.Cut? && !e.Select? && !e.Check?
    ensures Follows(Step(sys, size, e), id)
  {
    hide Accounts, Offer, Offered, Starved, Selected;
    assert Follows(sys, id);
    hide SessionsInv;
    var sys' := Step(sys, size, e);
    assert sys'.emitted == sys.emitted && sys'.todo == sys.todo && sys'.selecting == sys.selecting;
    assert sys'.sessions[id].history.(taken := []) == sys.sessions[id].history.(taken := []);
  }

  lemma JoinFollows(sys: System, size: nat, id: string)
    requires size > 0 && SessionsInv(sys) && id !in sys.sessions
    ensures Follows(Step(sys, size, Join(id)), id)
  {
    hide Accounts, Offer, Offered;
  }

  lemma SessionsStep(sys: System, size: nat, e: Event)
    requires size > 0 && SessionsInv(sys)
    ensures SessionsInv(Step(sys, size, e))
  {
    var sys' := Step(sys, size, e);
    KnownSessions(sys, size, e);
    forall id | id in sys'.sessions
      ensures Accounts(sys'.sessions[id].box, sys'.sessions[id].history) && Follows(sys', id)
    {
      SessionAccounts(sys, size, e, id);
      hide Accounts, Follows, Step, SessionsInv;
      match e {
        case Cut => CutFollows(sys, size, id);
        case Select(at, sawDone) => SelectFollows(sys, size, at, sawDone, id);
        case Check(at) => if id in sys.sessions { CheckFollows(sys, size, at, id); }
        case _ => if id in sys.sessions { OtherFollows(sys, size, e, id); } else { JoinFollows(sys, size, id); }
      }
    }
  }

  lemma KnownSessions(sys: System, size: nat, e: Event)
    requires size > 0 && SessionsInv(sys)
    ensures var sys' := Step(sys, size, e);
            && sys'.todo + sys'.live <= sys'.sessions.Keys
            && sys.sessions.Keys <= sys'.sessions.Keys
            && forall id | id in sys'.sessions && id !in sys.sessions :: e == Join(id)
  {
    hide Accounts, Follows, Offer, Offered;
  }

  lemma {:induction false} RunKeeps(events: seq<Event>, size: nat)
    requires size > 0
    ensures StreamInv(Run(events, size), size) && SessionsInv(Run(events, size))
  {
    if events != [] {
      hide Step, SessionsInv, StreamInv;
      var sys, e := Run(events[..|events| - 1], size), events[|events| - 1];
      RunKeeps(events[..|events| - 1], size);
      StreamStep(sys, size, e);
      SessionsStep(sys, size, e);
    }
  }

  /** For every schedule: the packets emitted so far followed by the buffer are the
      received bytes, every packet is full, and the packets are those of the whole
      stream cut in one go. */
  lemma EmittedIsTheStream(events: seq<Event>, size: nat)
    requires size > 0
    ensures var sys := Run(events, size);
            && Flatten(sys.emitted) + sys.buffer == sys.received
            && (forall i | 0 <= i < |sys.emitted| :: |sys.emitted[i]| == size)
            && sys.emitted + Packets(sys.buffer, size) == Packets(sys.received, size)
            && Rest(sys.buffer, size) == Rest(sys.received, size)
  {
    RunKeeps(events, size);
    FullPacketsChunk(Run(events, size).emitted, Run(events, size).buffer, size);
  }

  lemma {:induction false} FullPacketsChunk(parts: seq<Bytes>, rest: Bytes, size: nat)
    requires size > 0 && forall i | 0 <= i < |parts| :: |parts[i]| == size
    ensures Packets(Flatten(parts) + rest, size) == parts + Packets(rest, size)
    ensures Rest(Flatten(parts) + rest, size) == Rest(rest, size)
  {
    hide Packets, Rest;
    if parts == [] {
      assert Flatten(parts) + rest == rest;
    } else {
      var head, tail := parts[0], Flatten(parts[1..]) + rest;
      FullPacketsChunk(parts[1..], rest, size);
      Assoc(head, Flatten(parts[1..]), rest);
      FullPacketFirst(head, tail, size);
      Assoc([head], parts[1..], Packets(rest, size));
    }
  }

  lemma FullPacketFirst(head: Bytes, tail: Bytes, size: nat)
    requires size > 0 && |head| == size
    ensures Packets(head + tail, size) == [head] + Packets(tail, size)
    ensures Rest(head + tail, size) == Rest(tail, size)
  {
    CutAppend(head, tail, size);
    assert head[..size] == head && head[size..] + tail == tail;
  }

  /** For every schedule and every session: what was handed to the sender followed by
      what is queued is the in-order selection of accepted offers, offers are a gap-free
      stretch of the emitted packets starting where the session joined, the counters
      add up, the queue is bounded, an offer was refused exactly if 512 accepted packets
      were not yet taken, and a slow-client close has been started exactly if 256
      consecutive offers were refused. */
  lemma {:induction false} SessionDelivery(events: seq<Event>, size: nat, id: string)
    requires size > 0 && id in Run(events, size).sessions
    ensures var sys := Run(events, size);
            var Session(box, h) := sys.sessions[id];
            && |h.accepted| == |h.offered|
            && h.taken + box.queue == Selected(h.offered, h.accepted)
            && |h.offered| == |h.taken| + |box.queue| + box.drops
            && |box.queue| <= 512 && RefusedWhenFull(h.accepted, h.takenBefore)
            && h.joined + |h.offered| <= |sys.emitted|
            && h.offered == sys.emitted[h.joined..h.joined + |h.offered|]
            && (!box.done && id !in sys.todo ==> h.joined + |h.offered| == |sys.emitted|)
            && (box.alarms > 0 <==> exists at: nat :: Starved(h.accepted, at))
  {
    hide Run;
    RunKeeps(events, size);
    var h := Run(events, size).sessions[id].history;
    assert Follows(Run(events, size), id);
    OffersAddUp(h.offered, h.accepted);
    AlarmMeansStarvation(h.accepted);
  }

  /** A session that never dropped carries the stream itself: the packets it took and
      holds are the emitted ones from its join on, byte for byte. */
  lemma LosslessSession(events: seq<Event>, size: nat, id: string)
    requires size > 0 && id in Run(events, size).sessions
    requires var sys := Run(events, size);
             sys.sessions[id].box.drops == 0 && !sys.sessions[id].box.done && sys.todo == {}
    ensures var sys := Run(events, size);
            var Session(box, h) := sys.sessions[id];
            && h.joined <= |sys.emitted|
            && h.taken + box.queue == sys.emitted[h.joined..]
            && Flatten(sys.emitted[..h.joined]) + Flatten(h.taken + box.queue) + sys.buffer == sys.received
  {
    hide Run;
    SessionDelivery(events, size, id);
    RunKeeps(events, size);
    var sys := Run(events, size);
    var h := sys.sessions[id].history;
    assert Accounts(sys.sessions[id].box, h);
    NoRefusalSelectsAll(h.offered, h.accepted);
    assert sys.emitted == sys.emitted[..h.joined] + sys.emitted[h.joined..];
    FlattenAppend(sys.emitted[..h.joined], sys.emitted[h.joined..]);
  }

  lemma {:induction false} NoRefusalSelectsAll(offered: seq<Bytes>, accepted: seq<bool>)
    requires |offered| == |accepted| && Refusals(accepted) == 0
    ensures Selected(offered, accepted) == offered
  {
    if offered != [] {
      NoRefusalSelectsAll(offered[..|offered| - 1], accepted[..|offered| - 1]);
      assert offered == offered[..|offered| - 1] + [offered[|offered| - 1]];
    }
  }
}
