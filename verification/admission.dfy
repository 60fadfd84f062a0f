/** Admission of SRT callers. A handshake callback reserves a slot, the accept loop
    turns the reservation into a session, a timer or the shutdown gives it back.
    Every callback, timer, accept and close may interleave with the others, one
    critical section at a time. */
module Admission {
  import opened Wrappers
  import opened Text
  import opened StreamID
  import RateLimit

  // ---- configuration ----

  /** A parsed address is its bits; a network is a prefix of addresses of one width. */
  type Address = seq<bool>

  datatype Network = Network(width: nat, prefix: seq<bool>)

  predicate Contains(network: Network, address: Address) {
    |address| == network.width && network.prefix <= address
  }

  datatype ACL = ACL(passphrase: string, networks: seq<Network>, maxSessions: int)

  /** What newWorker builds and nothing changes afterwards. `parseIP` is net.ParseIP. */
  datatype Config = Config(
    maxClients: int,
    allowMissingStreamID: bool,
    defaultClientID: string,
    clients: map<string, ACL>,
    parseIP: string -> Option<Address>)

  datatype Request = Request(ip: string, port: int, streamID: string)

  function Key(request: Request): string {
    AttemptKey(request.ip, request.port, request.streamID)
  }

  // ---- the unlocked prefix of authorize ----

  datatype Screening = Passed(clientID: string) | Refused(code: int)

  predicate IPAllowed(cfg: Config, ip: string, networks: seq<Network>) {
    match cfg.parseIP(ip)
    case None => false
    case Some(address) => exists n | 0 <= n < |networks| :: Contains(networks[n], address)
  }

  function Screen(cfg: Config, request: Request): (s: Screening)
    ensures forall c :: s == Passed(c) <==> Entitled(cfg, request, c)
  {
    var identity := ClientIDFromStreamID(request.streamID);
    if identity.Err? && (request.streamID != "" || !cfg.allowMissingStreamID) then Refused(400)
    else
      var clientID := if identity.Ok? then identity.value else cfg.defaultClientID;
      if clientID !in cfg.clients then Refused(404)
      else if !IPAllowed(cfg, request.ip, cfg.clients[clientID].networks) then Refused(403)
      else Passed(clientID)
  }

  /** Who may be served: a configured client that the Stream ID names, or the
      compatibility default for an empty one, calling from one of its networks. */
  predicate Entitled(cfg: Config, request: Request, clientID: string) {
    && clientID in cfg.clients
    && IPAllowed(cfg, request.ip, cfg.clients[clientID].networks)
    && (ClientIDFromStreamID(request.streamID) == Ok(clientID)
        || (request.streamID == "" && cfg.allowMissingStreamID && clientID == cfg.defaultClientID))
  }

  // ---- the locked tables ----

  /** A pending attempt or a session: whose slot it is and for which caller. */
  datatype Slot = Slot(clientID: string, request: Request)

  datatype Table = Table(
    pending: map<string, Slot>,
    reservations: map<string, int>,
    sessions: map<string, Slot>)

  datatype Reply = Granted(secret: string) | Rejected(code: int)

  function Passphrase(cfg: Config, clientID: string): string {
    if clientID in cfg.clients then cfg.clients[clientID].passphrase else ""
  }

  function Reserved(table: Table, clientID: string): int {
    if clientID in table.reservations then table.reservations[clientID] else 0
  }

  function Owned(slots: map<string, Slot>, clientID: string): set<string> {
    set key | key in slots && slots[key].clientID == clientID
  }

  function PendingOf(table: Table, clientID: string): set<string> {
    Owned(table.pending, clientID)
  }

  function SessionsOf(table: Table, clientID: string): set<string> {
    Owned(table.sessions, clientID)
  }

  /** pendingSecret. */
  function PendingSecret(cfg: Config, table: Table, key: string): Option<string> {
    if key in table.pending && table.pending[key].clientID in cfg.clients
    then Some(Passphrase(cfg, table.pending[key].clientID)) else None
  }

  /** The locked suffix of authorize. */
  function Reserve(cfg: Config, table: Table, request: Request, clientID: string): (Table, Reply)
    requires clientID in cfg.clients
  {
    var key := Key(request);
    if key in table.pending then
      (table, Granted(Passphrase(cfg, table.pending[key].clientID)))
    else if Reserved(table, clientID) + |SessionsOf(table, clientID)| >= cfg.clients[clientID].maxSessions then
      (table, Rejected(429))
    else if |table.sessions| + |table.pending| >= cfg.maxClients then
      (table, Rejected(429))
    else
      (table.(pending := table.pending[key := Slot(clientID, request)],
              reservations := table.reservations[clientID := Reserved(table, clientID) + 1]),
       Granted(Passphrase(cfg, clientID)))
  }

  function Release(table: Table, key: string): Table
    requires key in table.pending
  {
    var clientID := table.pending[key].clientID;
    table.(pending := table.pending - {key},
           reservations := table.reservations[clientID := Reserved(table, clientID) - 1])
  }

  /** expireAttempt, whichever handshake armed the timer. */
  function Expire(table: Table, key: string): Table {
    if key in table.pending then Release(table, key) else table
  }

  /** One iteration of acceptLoop; no session ID means the random source failed. */
  function Accept(table: Table, request: Request, sessionID: Option<string>): (Table, Option<Slot>) {
    var key := Key(request);
    if key !in table.pending then (table, None)
    else
      var released := Release(table, key);
      if sessionID.None? then (released, None)
      else
        var session := Slot(table.pending[key].clientID, request);
        (released.(sessions := released.sessions[sessionID.value := session]), Some(session))
  }

  /** The locked part of clientSession.close. */
  function Close(table: Table, sessionID: string): Table {
    table.(sessions := table.sessions - {sessionID})
  }

  /** Shutdown. */
  function Clear(table: Table): Table {
    table.(pending := map[], reservations := map[])
  }

  // ---- conservation of slots ----

  function Cap(n: int): nat {
    if n < 0 then 0 else n
  }

  function Limit(cfg: Config, clientID: string): nat {
    if clientID in cfg.clients then Cap(cfg.clients[clientID].maxSessions) else 0
  }

  ghost predicate VouchedAttempt(cfg: Config, key: string, attempt: Slot) {
    && key == Key(attempt.request)
    && NUL !in attempt.request.ip
    && Entitled(cfg, attempt.request, attempt.clientID)
  }

  ghost predicate Vouched(cfg: Config, table: Table) {
    && (forall key | key in table.pending :: VouchedAttempt(cfg, key, table.pending[key]))
    && (forall id | id in table.sessions :: Entitled(cfg, table.sessions[id].request, table.sessions[id].clientID))
  }

  ghost predicate ConservedFor(cfg: Config, table: Table, clientID: string) {
    && Reserved(table, clientID) == |PendingOf(table, clientID)|
    && |PendingOf(table, clientID)| + |SessionsOf(table, clientID)| <= Limit(cfg, clientID)
  }

  ghost predicate Conserved(cfg: Config, table: Table) {
    && (forall c :: ConservedFor(cfg, table, c))
    && |table.sessions| + |table.pending| <= Cap(cfg.maxClients)
  }

  lemma OwnedGrows(slots: map<string, Slot>, key: string, slot: Slot, c: string)
    ensures |Owned(slots[key := slot], c)| <= |Owned(slots, c)| + (if c == slot.clientID then 1 else 0)
    ensures key !in slots ==> |Owned(slots[key := slot], c)| == |Owned(slots, c)| + (if c == slot.clientID then 1 else 0)
  {
    var before, after := Owned(slots, c), Owned(slots[key := slot], c);
    if c == slot.clientID {
      assert after == before + {key};
    } else {
      assert after == before - {key};
    }
  }

  lemma OwnedShrinks(slots: map<string, Slot>, key: string, c: string)
    ensures |Owned(slots - {key}, c)| <= |Owned(slots, c)|
    ensures key in slots ==> |Owned(slots - {key}, c)| == |Owned(slots, c)| - (if c == slots[key].clientID then 1 else 0)
  {
    assert Owned(slots - {key}, c) == Owned(slots, c) - {key};
  }

  lemma ReserveConserves(cfg: Config, table: Table, request: Request, clientID: string)
    requires Conserved(cfg, table) && clientID in cfg.clients
    ensures Conserved(cfg, Reserve(cfg, table, request, clientID).0)
  {
    var key, table' := Key(request), Reserve(cfg, table, request, clientID).0;
    assert ConservedFor(cfg, table, clientID);
    forall c ensures ConservedFor(cfg, table', c) {
      assert ConservedFor(cfg, table, c);
      if table' != table {
        OwnedGrows(table.pending, key, Slot(clientID, request), c);
      }
    }
  }

  lemma ReleaseConserves(cfg: Config, table: Table, key: string)
    requires Conserved(cfg, table) && key in table.pending
    ensures Conserved(cfg, Release(table, key))
    ensures var c, table' := table.pending[key].clientID, Release(table, key);
            && |PendingOf(table', c)| + |SessionsOf(table', c)| < Limit(cfg, c)
            && |table'.sessions| + |table'.pending| < Cap(cfg.maxClients)
  {
    var table' := Release(table, key);
    forall c
      ensures ConservedFor(cfg, table', c)
      ensures c == table.pending[key].clientID ==> |PendingOf(table', c)| + |SessionsOf(table', c)| < Limit(cfg, c)
    {
      assert ConservedFor(cfg, table, c);
      OwnedShrinks(table.pending, key, c);
    }
    assert table.pending == table'.pending[key := table.pending[key]];
  }

  lemma {:induction false} AcceptConserves(cfg: Config, table: Table, request: Request, sessionID: Option<string>)
    requires Conserved(cfg, table)
    ensures Conserved(cfg, Accept(table, request, sessionID).0)
  {
    var key := Key(request);
    if key in table.pending {
      ReleaseConserves(cfg, table, key);
      if sessionID.Some? {
        var released, table' := Release(table, key), Accept(table, request, sessionID).0;
        forall c ensures ConservedFor(cfg, table', c) {
          assert ConservedFor(cfg, released, c);
          OwnedGrows(released.sessions, sessionID.value, table'.sessions[sessionID.value], c);
        }
      }
    }
  }

  lemma {:induction false} CloseConserves(cfg: Config, table: Table, sessionID: string)
    requires Conserved(cfg, table)
    ensures Conserved(cfg, Close(table, sessionID))
  {
    var table' := Close(table, sessionID);
    forall c ensures ConservedFor(cfg, table', c) {
      assert ConservedFor(cfg, table, c);
      OwnedShrinks(table.sessions, sessionID, c);
    }
    assert table'.sessions.Keys <= table.sessions.Keys;
    RateLimit.SubsetSize(table'.sessions.Keys, table.sessions.Keys);
  }

  lemma ClearConserves(cfg: Config, table: Table)
    requires Conserved(cfg, table)
    ensures Conserved(cfg, Clear(table))
  {
    var table' := Clear(table);
    forall c ensures ConservedFor(cfg, table', c) {
      assert ConservedFor(cfg, table, c);
      assert PendingOf(table', c) == {};
    }
  }

  // ---- who stands behind an entry ----

  lemma PendingIsSound(cfg: Config, table: Table, request: Request)
    requires Vouched(cfg, table) && NUL !in request.ip && Key(request) in table.pending
    ensures table.pending[Key(request)].request == request
    ensures Entitled(cfg, request, table.pending[Key(request)].clientID)
  {
    var kept := table.pending[Key(request)];
    assert VouchedAttempt(cfg, Key(request), kept);
    AttemptKeyInjective(kept.request.ip, kept.request.port, kept.request.streamID, request.ip, request.port, request.streamID);
  }

  lemma InsertVouches(cfg: Config, table: Table, key: string, slot: Slot, reservations: map<string, int>)
    requires Vouched(cfg, table) && VouchedAttempt(cfg, key, slot)
    ensures Vouched(cfg, table.(pending := table.pending[key := slot], reservations := reservations))
  {
    hide Entitled, VouchedAttempt;
  }

  lemma ReserveVouches(cfg: Config, table: Table, request: Request, clientID: string)
    requires Vouched(cfg, table) && NUL !in request.ip && Entitled(cfg, request, clientID)
    ensures clientID in cfg.clients && Vouched(cfg, Reserve(cfg, table, request, clientID).0)
  {
    hide Vouched, AttemptKey, IPAllowed;
    var reserved := table.reservations[clientID := Reserved(table, clientID) + 1];
    InsertVouches(cfg, table, Key(request), Slot(clientID, request), reserved);
  }

  lemma AcceptVouches(cfg: Config, table: Table, request: Request, sessionID: Option<string>)
    requires Vouched(cfg, table) && NUL !in request.ip
    ensures Vouched(cfg, Accept(table, request, sessionID).0)
    ensures var session := Accept(table, request, sessionID).1;
            session.Some? ==> session.value.request == request && Entitled(cfg, request, session.value.clientID)
  {
    if Key(request) in table.pending {
      PendingIsSound(cfg, table, request);
    }
  }

  // ---- runs ----

  /** Where an authorize call stands between two critical sections. */
  datatype Phase = Limiting | Committing(clientID: string) | Replied(reply: Reply)

  datatype Call = Call(request: Request, phase: Phase)

  datatype System = System(
    table: Table,
    attempts: RateLimit.Table,
    calls: map<nat, Call>,
    admitted: seq<Slot>)

  datatype Event =
    | Probe(call: nat, request: Request)        // authorize enters: pendingSecret
    | Screened(call: nat, now: int)             // the limiter, then the unlocked checks
    | Commit(call: nat)                         // the locked suffix
    | Expiry(key: string)
    | Accepted(request: Request, sessionID: Option<string>)
    | Closed(id: string)
    | Cleared

  /** The bridge passes addresses as C strings. */
  predicate FromBridge(e: Event) {
    match e
    case Probe(_, request) => NUL !in request.ip
    case Accepted(request, _) => NUL !in request.ip
    case _ => true
  }

  const INITIAL: System := System(Table(map[], map[], map[]), map[], map[], [])

  /** One critical section; an event that is not enabled changes nothing. */
  function Step(cfg: Config, sys: System, e: Event): System {
    match e
    case Probe(id, request) =>
      if id in sys.calls then sys
      else
        var secret := PendingSecret(cfg, sys.table, Key(request));
        var phase := if secret.Some? then Replied(Granted(secret.value)) else Limiting;
        sys.(calls := sys.calls[id := Call(request, phase)])
    case Screened(id, now) =>
      if id !in sys.calls || !sys.calls[id].phase.Limiting? then sys
      else
        var request := sys.calls[id].request;
        var (attempts, answer) := RateLimit.Allow(sys.attempts, RateLimit.Call(request.ip, now));
        var phase := if !answer.allowed then Replied(Rejected(429))
                     else (match Screen(cfg, request)
                           case Refused(code) => Replied(Rejected(code))
                           case Passed(clientID) => Committing(clientID));
        sys.(attempts := attempts, calls := sys.calls[id := Call(request, phase)])
    case Commit(id) =>
      if id !in sys.calls || !sys.calls[id].phase.Committing? || sys.calls[id].phase.clientID !in cfg.clients then sys
      else
        var request := sys.calls[id].request;
        var (table, reply) := Reserve(cfg, sys.table, request, sys.calls[id].phase.clientID);
        sys.(table := table, calls := sys.calls[id := Call(request, Replied(reply))])
    case Expiry(key) => sys.(table := Expire(sys.table, key))
    case Accepted(request, sessionID) =>
      var (table, session) := Accept(sys.table, request, sessionID);
      sys.(table := table, admitted := sys.admitted + if session.Some? then [session.value] else [])
    case Closed(sessionID) => sys.(table := Close(sys.table, sessionID))
    case Cleared => sys.(table := Clear(sys.table))
  }

  function Run(cfg: Config, events: seq<Event>): System {
    if events == [] then INITIAL
    else Step(cfg, Run(cfg, events[..|events| - 1]), events[|events| - 1])
  }

  ghost predicate CallSound(cfg: Config, call: Call) {
    && NUL !in call.request.ip
    && match call.phase
       case Limiting => true
       case Committing(c) => Entitled(cfg, call.request, c)
       case Replied(Rejected(_)) => true
       case Replied(Granted(secret)) =>
         exists c :: Entitled(cfg, call.request, c) && secret == cfg.clients[c].passphrase
  }

  ghost predicate Inv(cfg: Config, sys: System) {
    && Vouched(cfg, sys.table)
    && Conserved(cfg, sys.table)
    && (forall id | id in sys.calls :: CallSound(cfg, sys.calls[id]))
    && (forall i | 0 <= i < |sys.admitted| :: Entitled(cfg, sys.admitted[i].request, sys.admitted[i].clientID))
  }

  lemma GrantIsSound(cfg: Config, request: Request, clientID: string)
    requires NUL !in request.ip && Entitled(cfg, request, clientID)
    ensures CallSound(cfg, Call(request, Replied(Granted(Passphrase(cfg, clientID)))))
  {
  }

  lemma CallKeeps(cfg: Config, sys: System, id: nat, call: Call)
    requires Inv(cfg, sys) && CallSound(cfg, call)
    ensures Inv(cfg, sys.(calls := sys.calls[id := call]))
  {
  }

  lemma TableKeeps(cfg: Config, sys: System, table: Table, admitted: seq<Slot>)
    requires Inv(cfg, sys) && Vouched(cfg, table) && Conserved(cfg, table)
    requires forall i | 0 <= i < |admitted| :: Entitled(cfg, admitted[i].request, admitted[i].clientID)
    ensures Inv(cfg, sys.(table := table, admitted := sys.admitted + admitted))
    ensures Inv(cfg, sys.(table := table))
  {
    hide Entitled, Vouched, Conserved, CallSound;
  }

  lemma ProbeKeeps(cfg: Config, sys: System, id: nat, request: Request)
    requires Inv(cfg, sys) && NUL !in request.ip
    ensures Inv(cfg, Step(cfg, sys, Probe(id, request)))
  {
    if Key(request) in sys.table.pending {
      PendingIsSound(cfg, sys.table, request);
      GrantIsSound(cfg, request, sys.table.pending[Key(request)].clientID);
    }
    hide Entitled, AttemptKey;
    var secret := PendingSecret(cfg, sys.table, Key(request));
    CallKeeps(cfg, sys, id, Call(request, if secret.Some? then Replied(Granted(secret.value)) else Limiting));
  }

  lemma ScreenedKeeps(cfg: Config, sys: System, id: nat, now: int)
    requires Inv(cfg, sys)
    ensures Inv(cfg, Step(cfg, sys, Screened(id, now)))
  {
    var sys' := Step(cfg, sys, Screened(id, now));
    if sys' != sys {
      assert CallSound(cfg, sys.calls[id]);
      assert CallSound(cfg, sys'.calls[id]);
      CallKeeps(cfg, sys.(attempts := sys'.attempts), id, sys'.calls[id]);
    }
  }

  lemma ReserveReplies(cfg: Config, table: Table, request: Request, clientID: string)
    requires Vouched(cfg, table) && NUL !in request.ip && Entitled(cfg, request, clientID)
    ensures CallSound(cfg, Call(request, Replied(Reserve(cfg, table, request, clientID).1)))
  {
    GrantIsSound(cfg, request, clientID);
    if Key(request) in table.pending {
      PendingIsSound(cfg, table, request);
      GrantIsSound(cfg, request, table.pending[Key(request)].clientID);
    }
  }

  lemma CommitKeeps(cfg: Config, sys: System, id: nat)
    requires Inv(cfg, sys)
    ensures Inv(cfg, Step(cfg, sys, Commit(id)))
  {
    if id in sys.calls && sys.calls[id].phase.Committing? {
      var request, clientID := sys.calls[id].request, sys.calls[id].phase.clientID;
      assert NUL !in request.ip && clientID in cfg.clients && Entitled(cfg, request, clientID) by {
        assert CallSound(cfg, sys.calls[id]);
      }
      hide Entitled, Vouched, Conserved;
      ReserveConserves(cfg, sys.table, request, clientID);
      ReserveVouches(cfg, sys.table, request, clientID);
      ReserveReplies(cfg, sys.table, request, clientID);
      var (table, reply) := Reserve(cfg, sys.table, request, clientID);
      TableKeeps(cfg, sys, table, []);
      CallKeeps(cfg, sys.(table := table), id, Call(request, Replied(reply)));
    }
  }

  lemma ExpiryKeeps(cfg: Config, sys: System, key: string)
    requires Inv(cfg, sys)
    ensures Inv(cfg, Step(cfg, sys, Expiry(key)))
  {
    hide Entitled, Conserved, CallSound, VouchedAttempt;
    if key in sys.table.pending {
      ReleaseConserves(cfg, sys.table, key);
      TableKeeps(cfg, sys, Release(sys.table, key), []);
    }
  }

  lemma AcceptedKeeps(cfg: Config, sys: System, request: Request, sessionID: Option<string>)
    requires Inv(cfg, sys) && NUL !in request.ip
    ensures Inv(cfg, Step(cfg, sys, Accepted(request, sessionID)))
  {
    hide Entitled, Vouched, Conserved, CallSound;
    AcceptConserves(cfg, sys.table, request, sessionID);
    AcceptVouches(cfg, sys.table, request, sessionID);
    var (table, session) := Accept(sys.table, request, sessionID);
    TableKeeps(cfg, sys, table, if session.Some? then [session.value] else []);
  }

  lemma ClosedKeeps(cfg: Config, sys: System, id: string)
    requires Inv(cfg, sys)
    ensures Inv(cfg, Step(cfg, sys, Closed(id)))
  {
    hide Entitled, Conserved, CallSound;
    CloseConserves(cfg, sys.table, id);
    TableKeeps(cfg, sys, Close(sys.table, id), []);
  }

  lemma ClearedKeeps(cfg: Config, sys: System)
    requires Inv(cfg, sys)
    ensures Inv(cfg, Step(cfg, sys, Cleared))
  {
    hide Entitled, Conserved, CallSound;
    ClearConserves(cfg, sys.table);
    TableKeeps(cfg, sys, Clear(sys.table), []);
  }

  lemma StepKeeps(cfg: Config, sys: System, e: Event)
    requires Inv(cfg, sys) && FromBridge(e)
    ensures Inv(cfg, Step(cfg, sys, e))
  {
    hide Inv, Step;
    match e {
      case Probe(id, request) => ProbeKeeps(cfg, sys, id, request);
      case Screened(id, now) => ScreenedKeeps(cfg, sys, id, now);
      case Commit(id) => CommitKeeps(cfg, sys, id);
      case Expiry(key) => ExpiryKeeps(cfg, sys, key);
      case Accepted(request, sessionID) => AcceptedKeeps(cfg, sys, request, sessionID);
      case Closed(id) => ClosedKeeps(cfg, sys, id);
      case Cleared => ClearedKeeps(cfg, sys);
    }
  }

  lemma {:induction false} RunKeeps(cfg: Config, events: seq<Event>)
    requires forall i | 0 <= i < |events| :: FromBridge(events[i])
    ensures Inv(cfg, Run(cfg, events))
  {
    if events == [] {
      forall c ensures ConservedFor(cfg, INITIAL.table, c) {
        assert PendingOf(INITIAL.table, c) == {} && SessionsOf(INITIAL.table, c) == {};
      }
    } else {
      RunKeeps(cfg, events[..|events| - 1]);
      StepKeeps(cfg, Run(cfg, events[..|events| - 1]), events[|events| - 1]);
    }
  }

  /** Under every interleaving, stale timers and shutdown included: a client's
      reservation count is the number of its pending handshakes, no client and no
      relay is ever over its limit, and a client that is not configured holds nothing. */
  lemma AdmissionConservation(cfg: Config, events: seq<Event>, clientID: string)
    requires forall i | 0 <= i < |events| :: FromBridge(events[i])
    ensures var table := Run(cfg, events).table;
            && Reserved(table, clientID) == |PendingOf(table, clientID)|
            && |PendingOf(table, clientID)| + |SessionsOf(table, clientID)| <= Limit(cfg, clientID)
            && |table.sessions| + |table.pending| <= Cap(cfg.maxClients)
  {
    RunKeeps(cfg, events);
    assert ConservedFor(cfg, Run(cfg, events).table, clientID);
  }

  /** Every session ever inserted, in every run, belongs to a configured client
      whose networks contain the caller and whom the caller's Stream ID denotes;
      and a passphrase is only ever handed to a caller entitled to it. */
  lemma AdmissionSoundness(cfg: Config, events: seq<Event>)
    requires forall i | 0 <= i < |events| :: FromBridge(events[i])
    ensures var sys := Run(cfg, events);
            && (forall i | 0 <= i < |sys.admitted| :: Entitled(cfg, sys.admitted[i].request, sys.admitted[i].clientID))
            && (forall id | id in sys.table.sessions :: Entitled(cfg, sys.table.sessions[id].request, sys.table.sessions[id].clientID))
            && (forall id, secret | id in sys.calls && sys.calls[id].phase == Replied(Granted(secret)) ::
                  exists c :: Entitled(cfg, sys.calls[id].request, c) && secret == cfg.clients[c].passphrase)
  {
    RunKeeps(cfg, events);
  }

  /** While a handshake is pending, another callback for it gets the same secret at
      once and leaves the tables and the limiter alone; a callback already past the
      limiter finds the reservation in its locked part and leaves it alone too. */
  lemma RepeatedAuthorizeIsIdempotent(cfg: Config, events: seq<Event>, id: nat, request: Request)
    requires forall i | 0 <= i < |events| :: FromBridge(events[i])
    requires NUL !in request.ip && Key(request) in Run(cfg, events).table.pending
    requires id !in Run(cfg, events).calls
             || (Run(cfg, events).calls[id].request == request && Run(cfg, events).calls[id].phase.Committing?)
    ensures var sys := Run(cfg, events);
            var sys' := Step(cfg, sys, if id in sys.calls then Commit(id) else Probe(id, request));
            && sys'.table == sys.table && sys'.attempts == sys.attempts && sys'.admitted == sys.admitted
            && sys'.calls == sys.calls[id := Call(request, Replied(Granted(Passphrase(cfg, sys.table.pending[Key(request)].clientID))))]
            && Entitled(cfg, request, sys.table.pending[Key(request)].clientID)
  {
    hide Run, Step, FromBridge, Entitled, AttemptKey;
    RunKeeps(cfg, events);
    var sys := Run(cfg, events);
    PendingIsSound(cfg, sys.table, request);
    CallerIsKnown(cfg, request, sys.table.pending[Key(request)].clientID);
    if id in sys.calls {
      CommitterIsKnown(cfg, sys, id);
      CommitAgain(cfg, sys, id, request);
    } else {
      ProbeAgain(cfg, sys, id, request);
    }
  }

  lemma CallerIsKnown(cfg: Config, request: Request, clientID: string)
    requires Entitled(cfg, request, clientID)
    ensures clientID in cfg.clients
  {
  }

  lemma CommitterIsKnown(cfg: Config, sys: System, id: nat)
    requires Inv(cfg, sys) && id in sys.calls && sys.calls[id].phase.Committing?
    ensures sys.calls[id].phase.clientID in cfg.clients
  {
    assert CallSound(cfg, sys.calls[id]);
    CallerIsKnown(cfg, sys.calls[id].request, sys.calls[id].phase.clientID);
  }

  lemma ProbeAgain(cfg: Config, sys: System, id: nat, request: Request)
    requires id !in sys.calls && Key(request) in sys.table.pending && sys.table.pending[Key(request)].clientID in cfg.clients
    ensures Step(cfg, sys, Probe(id, request)) ==
            sys.(calls := sys.calls[id := Call(request, Replied(Granted(Passphrase(cfg, sys.table.pending[Key(request)].clientID))))])
  {
    hide AttemptKey;
  }

  lemma CommitAgain(cfg: Config, sys: System, id: nat, request: Request)
    requires id in sys.calls && sys.calls[id].request == request && sys.calls[id].phase.Committing?
    requires sys.calls[id].phase.clientID in cfg.clients && Key(request) in sys.table.pending
    ensures Step(cfg, sys, Commit(id)) ==
            sys.(calls := sys.calls[id := Call(request, Replied(Granted(Passphrase(cfg, sys.table.pending[Key(request)].clientID))))])
  {
    hide AttemptKey;
  }

  // ---- what each step gives ----

  /** A callback that has passed the checks is granted a slot if and only if its client and
      the relay both have room, counted over the handshakes pending and the sessions open; it
      then gets its client's secret and the slot, and otherwise nothing changes. */
  lemma {:induction false} GrantedExactly(cfg: Config, events: seq<Event>, id: nat)
    requires forall i | 0 <= i < |events| :: FromBridge(events[i])
    requires id in Run(cfg, events).calls && Run(cfg, events).calls[id].phase.Committing?
    requires Key(Run(cfg, events).calls[id].request) !in Run(cfg, events).table.pending
    ensures var sys := Run(cfg, events);
            var request, c := sys.calls[id].request, sys.calls[id].phase.clientID;
            var sys' := Step(cfg, sys, Commit(id));
            && c in cfg.clients && Entitled(cfg, request, c)
            && sys'.table.sessions == sys.table.sessions && sys'.attempts == sys.attempts && sys'.admitted == sys.admitted
            && if |PendingOf(sys.table, c)| + |SessionsOf(sys.table, c)| < cfg.clients[c].maxSessions
                  && |sys.table.sessions| + |sys.table.pending| < cfg.maxClients
               then && sys'.calls == sys.calls[id := Call(request, Replied(Granted(cfg.clients[c].passphrase)))]
                    && sys'.table.pending == sys.table.pending[Key(request) := Slot(c, request)]
               else sys'.calls == sys.calls[id := Call(request, Replied(Rejected(429)))] && sys'.table == sys.table
  {
    hide Run, FromBridge;
    RunKeeps(cfg, events);
    var sys := Run(cfg, events);
    CommitterIsSound(cfg, sys, id);
    CountsAgree(cfg, sys, sys.calls[id].phase.clientID);
    hide Inv, Entitled, AttemptKey, CallSound, Vouched, Reserved, PendingOf, SessionsOf;
  }

  lemma CountsAgree(cfg: Config, sys: System, clientID: string)
    requires Inv(cfg, sys)
    ensures Reserved(sys.table, clientID) == |PendingOf(sys.table, clientID)|
  {
    assert ConservedFor(cfg, sys.table, clientID);
  }

  lemma CommitterIsSound(cfg: Config, sys: System, id: nat)
    requires Inv(cfg, sys) && id in sys.calls && sys.calls[id].phase.Committing?
    ensures Entitled(cfg, sys.calls[id].request, sys.calls[id].phase.clientID) && sys.calls[id].phase.clientID in cfg.clients
  {
    assert CallSound(cfg, sys.calls[id]);
  }

  /** Why a caller is turned away before that: the limiter; no identity and no default; an
      unknown client; or an address outside the client's networks. */
  lemma RefusalCodes(cfg: Config, request: Request)
    ensures var identity := ClientIDFromStreamID(request.streamID);
            var named := identity.Ok? || (request.streamID == "" && cfg.allowMissingStreamID);
            var c := if identity.Ok? then identity.value else cfg.defaultClientID;
            && (Screen(cfg, request) == Refused(400) <==> !named)
            && (Screen(cfg, request) == Refused(404) <==> named && c !in cfg.clients)
            && (Screen(cfg, request) == Refused(403) <==> named && c in cfg.clients && !IPAllowed(cfg, request.ip, cfg.clients[c].networks))
            && (Screen(cfg, request).Passed? <==> named && c in cfg.clients && IPAllowed(cfg, request.ip, cfg.clients[c].networks))
  {
  }

  /** A call that is past the first lookup goes on exactly if the limiter allows it and the
      caller is entitled. */
  lemma ScreenedExactly(cfg: Config, sys: System, id: nat, now: int)
    requires id in sys.calls && sys.calls[id].phase.Limiting?
    ensures var request := sys.calls[id].request;
            var (attempts, answer) := RateLimit.Allow(sys.attempts, RateLimit.Call(request.ip, now));
            var sys' := Step(cfg, sys, Screened(id, now));
            && sys'.attempts == attempts && sys'.table == sys.table && id in sys'.calls
            && (!answer.allowed <==> sys'.calls[id].phase == Replied(Rejected(429)))
            && (forall c :: sys'.calls[id].phase == Committing(c) <==> answer.allowed && Entitled(cfg, request, c))
  {
    hide RateLimit.Allow, Entitled;
  }

  /** The address is of the network's family and begins with its bits. */
  predicate BeginsWith(address: Address, network: Network) {
    && |address| == network.width && |network.prefix| <= |address|
    && forall i | 0 <= i < |network.prefix| :: address[i] == network.prefix[i]
  }

  /** A caller is let in exactly if its address parses and begins with the bits of one of the
      networks. */
  lemma {:induction false} AllowedBitwise(cfg: Config, ip: string, networks: seq<Network>)
    ensures IPAllowed(cfg, ip, networks) <==>
              cfg.parseIP(ip).Some? && exists n | 0 <= n < |networks| :: BeginsWith(cfg.parseIP(ip).value, networks[n])
  {
    if cfg.parseIP(ip).Some? {
      var address := cfg.parseIP(ip).value;
      assert forall n | 0 <= n < |networks| :: Contains(networks[n], address) <==> BeginsWith(address, networks[n]);
    }
  }

  /** An accepted socket becomes a session of the pending handshake's client if there is one
      and an ID could be drawn; either way the handshake is over, and nothing else changes. */
  lemma AcceptedExactly(cfg: Config, sys: System, request: Request, sessionID: Option<string>)
    ensures var sys' := Step(cfg, sys, Accepted(request, sessionID));
            var key := Key(request);
            && sys'.table.pending == sys.table.pending - {key}
            && if key in sys.table.pending && sessionID.Some? then
                 var slot := Slot(sys.table.pending[key].clientID, request);
                 sys'.table.sessions == sys.table.sessions[sessionID.value := slot] && sys'.admitted == sys.admitted + [slot]
               else sys'.table.sessions == sys.table.sessions && sys'.admitted == sys.admitted
  {
    hide AttemptKey;
  }

  /** The timer and the shutdown take away what they should, and nothing else. */
  lemma TakenAway(cfg: Config, sys: System, key: string, sessionID: string)
    ensures var expired, closed, cleared := Step(cfg, sys, Expiry(key)), Step(cfg, sys, Closed(sessionID)), Step(cfg, sys, Cleared);
            && expired.table.pending == sys.table.pending - {key} && expired.table.sessions == sys.table.sessions
            && closed.table.sessions == sys.table.sessions - {sessionID} && closed.table.pending == sys.table.pending
            && cleared.table.pending == map[] && cleared.table.reservations == map[] && cleared.table.sessions == sys.table.sessions
  {
  }

  /** A caller is never served as two different clients. */
  lemma EntitledUnique(cfg: Config, request: Request, c: string, c': string)
    requires Entitled(cfg, request, c) && Entitled(cfg, request, c')
    ensures c == c'
  {
    EmptyStreamIDNamesNobody();
  }
}
