/** The SRT worker process: its tables, and one method per critical section. Each
    method is tied to the step of the same name in Admission, RateLimit or Delivery,
    where the properties over all interleavings are proved. */
module Worker {
  import opened Wrappers
  import opened Sequences
  import Admission
  import RateLimit
  import Delivery

  type Bytes = Delivery.Bytes

  class ClientSession {
    var queue: seq<Bytes>
    var done: bool
    var dropBurst: nat
    var appDrops: nat
    var closesStarted: nat

    constructor ()
      ensures Box() == Delivery.EMPTY_MAILBOX
    {
      queue, done, dropBurst, appDrops, closesStarted := [], false, 0, 0, 0;
    }

    ghost function Box(): Delivery.Mailbox
      reads this
    {
      Delivery.Mailbox(queue, appDrops, dropBurst, done, closesStarted)
    }

    /** The second select of broadcast; `sawDone` picks between two ready cases. */
    method Offer(packet: Bytes, sawDone: bool) returns (verdict: Delivery.Verdict)
      modifies this
      ensures (Box(), verdict) == Delivery.Offer(old(Box()), packet, sawDone)
    {
      if |queue| < Delivery.QUEUE_SIZE && !(done && sawDone) {
        queue := queue + [packet];
        dropBurst := 0;
        return Delivery.Queued;
      }
      if done {
        return Delivery.Skipped;
      }
      appDrops := appDrops + 1;
      dropBurst := dropBurst + 1;
      if dropBurst == Delivery.MAX_DROP_BURST {
        closesStarted := closesStarted + 1;
      }
      return Delivery.Dropped;
    }

    /** sendLoop's receive from the queue. */
    method Take() returns (packet: Option<Bytes>)
      modifies this
      ensures old(queue) == [] ==> packet == None && Box() == old(Box())
      ensures old(queue) != [] ==> packet == Some(old(queue)[0]) && Box() == old(Box()).(queue := old(queue)[1..])
    {
      if queue == [] {
        return None;
      }
      packet := Some(queue[0]);
      queue := queue[1..];
    }

    /** closeOnce: only the first close has an effect. */
    method Finish() returns (first: bool)
      modifies this
      ensures first == !old(done) && Box() == old(Box()).(done := true)
    {
      first := !done;
      done := true;
    }
  }

  /** broadcast without interference: every open session is offered the packet once,
      whatever the order of the snapshot, and finished sessions are left alone. */
  method Broadcast(sessions: seq<ClientSession>, packet: Bytes)
    requires forall i, j | 0 <= i < j < |sessions| :: sessions[i] != sessions[j]
    modifies set s | s in sessions
    ensures forall i | 0 <= i < |sessions| ::
              sessions[i].Box() == if old(sessions[i].done) then old(sessions[i].Box())
                                   else Delivery.Offer(old(sessions[i].Box()), packet, false).0
  {
    for k := 0 to |sessions|
      invariant forall i | 0 <= i < k ::
                  sessions[i].Box() == if old(sessions[i].done) then old(sessions[i].Box())
                                       else Delivery.Offer(old(sessions[i].Box()), packet, false).0
      invariant forall i | k <= i < |sessions| :: sessions[i].Box() == old(sessions[i].Box())
    {
      if sessions[k].done {
        continue;
      }
      var _ := sessions[k].Offer(packet, false);
    }
  }

  /** inputLoop over the datagrams read so far: what it broadcast, and the counters.
      The packets depend on the bytes alone, not on how they were grouped. */
  method InputLoop(datagrams: seq<Bytes>, payloadSize: nat) returns (packets: seq<Bytes>, pending: Bytes, inputBytes: nat)
    requires payloadSize > 0
    ensures packets == Delivery.Packets(Flatten(datagrams), payloadSize)
    ensures pending == Delivery.Rest(Flatten(datagrams), payloadSize)
    ensures inputBytes == |Flatten(datagrams)|
  {
    packets, pending, inputBytes := [], [], 0;
    ghost var stream: Bytes := [];
    for k := 0 to |datagrams|
      invariant stream == Flatten(datagrams[..k]) && inputBytes == |stream|
      invariant packets == Delivery.Packets(stream, payloadSize) && pending == Delivery.Rest(stream, payloadSize)
    {
      var datagram := datagrams[k];
      inputBytes := inputBytes + |datagram|;
      var cut, rest := CutPackets(pending + datagram, payloadSize);
      Delivery.ChunkingIgnoresDatagrams(stream, datagram, payloadSize);
      packets, pending := packets + cut, rest;
      assert datagrams[..k + 1] == datagrams[..k] + [datagram];
      FlattenAppend(datagrams[..k], [datagram]);
      FlattenCons(datagram, []);
      stream := stream + datagram;
    }
    assert datagrams[..|datagrams|] == datagrams;
  }

  /** The inner loop of inputLoop. */
  method CutPackets(buffer: Bytes, payloadSize: nat) returns (packets: seq<Bytes>, pending: Bytes)
    requires payloadSize > 0
    ensures packets == Delivery.Packets(buffer, payloadSize) && pending == Delivery.Rest(buffer, payloadSize)
  {
    packets, pending := [], buffer;
    while |pending| >= payloadSize
      invariant packets + Delivery.Packets(pending, payloadSize) == Delivery.Packets(buffer, payloadSize)
      invariant Delivery.Rest(pending, payloadSize) == Delivery.Rest(buffer, payloadSize)
    {
      var packet := pending[..payloadSize];
      Assoc(packets, [packet], Delivery.Packets(pending[payloadSize..], payloadSize));
      pending := pending[payloadSize..];
      packets := packets + [packet];
    }
  }

  class Worker {
    const config: Admission.Config
    var pending: map<string, Admission.Slot>
    var reservations: map<string, int>
    var sessions: map<string, Admission.Slot>
    var attempts: RateLimit.Table

    ghost function Table(): Admission.Table
      reads this
    {
      Admission.Table(pending, reservations, sessions)
    }

    constructor (config: Admission.Config)
      ensures this.config == config
      ensures Table() == Admission.INITIAL.table && attempts == map[]
    {
      this.config := config;
      pending, reservations, sessions, attempts := map[], map[], map[], map[];
    }

    method PendingSecret(key: string) returns (secret: Option<string>)
      ensures secret == Admission.PendingSecret(config, Table(), key)
    {
      if key !in pending || pending[key].clientID !in config.clients {
        return None;
      }
      return Some(config.clients[pending[key].clientID].passphrase);
    }

    /** Deletes the stale windows one by one. */
    method PruneAttempts(now: int)
      modifies this`attempts
      ensures attempts == RateLimit.Prune(old(attempts), now)
    {
      var todo := attempts.Keys;
      while todo != {}
        invariant todo <= old(attempts).Keys
        invariant attempts == map ip | ip in old(attempts) && (ip in todo || now - old(attempts)[ip].started < RateLimit.MINUTE) :: old(attempts)[ip]
        decreases |todo|
      {
        var ip :| ip in todo;
        if now - attempts[ip].started >= RateLimit.MINUTE {
          attempts := attempts - {ip};
        }
        todo := todo - {ip};
      }
    }

    method AllowConnectionAttempt(ip: string, now: int) returns (allowed: bool, report: bool)
      modifies this`attempts
      ensures var (table, answer) := RateLimit.Allow(old(attempts), RateLimit.Call(ip, now));
              attempts == table && allowed == answer.allowed && report == answer.report
    {
      var known := ip in attempts;
      if !known && |attempts| >= RateLimit.MAX_TRACKED_IPS {
        PruneAttempts(now);
      }
      if !known && |attempts| >= RateLimit.MAX_TRACKED_IPS {
        return false, false;
      }
      if !known || now - attempts[ip].started >= RateLimit.MINUTE {
        attempts := attempts[ip := RateLimit.Entry(now, 1, false)];
        return true, false;
      }
      var window := attempts[ip];
      window := window.(count := window.count + 1);
      if window.count <= RateLimit.ATTEMPTS_PER_MINUTE {
        attempts := attempts[ip := window];
        return true, false;
      }
      report := !window.reported;
      window := window.(reported := true);
      attempts := attempts[ip := window];
      allowed := false;
    }

    /** Counts a client's sessions by walking the table. */
    method CountSessions(clientID: string) returns (n: nat)
      ensures n == |Admission.SessionsOf(Table(), clientID)|
    {
      n := 0;
      var todo := sessions.Keys;
      ghost var counted: set<string> := {};
      while todo != {}
        invariant todo <= sessions.Keys
        invariant counted == set id | id in sessions && id !in todo && sessions[id].clientID == clientID
        invariant n == |counted|
        decreases |todo|
      {
        var id :| id in todo;
        if sessions[id].clientID == clientID {
          n := n + 1;
          counted := counted + {id};
        }
        todo := todo - {id};
      }
      assert counted == Admission.SessionsOf(Table(), clientID);
    }

    /** The locked suffix of authorize. */
    method Reserve(request: Admission.Request, clientID: string) returns (reply: Admission.Reply)
      requires clientID in config.clients
      modifies this`pending, this`reservations
      ensures (Table(), reply) == Admission.Reserve(config, old(Table()), request, clientID)
    {
      var key := Admission.Key(request);
      if key in pending {
        return Admission.Granted(Admission.Passphrase(config, pending[key].clientID));
      }
      var reserved := if clientID in reservations then reservations[clientID] else 0;
      var open := CountSessions(clientID);
      if reserved + open >= config.clients[clientID].maxSessions {
        return Admission.Rejected(429);
      }
      if |sessions| + |pending| >= config.maxClients {
        return Admission.Rejected(429);
      }
      pending := pending[key := Admission.Slot(clientID, request)];
      reservations := reservations[clientID := reserved + 1];
      return Admission.Granted(config.clients[clientID].passphrase);
    }

    /** authorize without interference is its three steps one after the other. */
    method Authorize(request: Admission.Request, now: int) returns (reply: Admission.Reply)
      modifies this`pending, this`reservations, this`attempts
      ensures var sys := Admission.System(old(Table()), old(attempts), map[], []);
              var probed := Admission.Step(config, sys, Admission.Probe(0, request));
              var screened := Admission.Step(config, probed, Admission.Screened(0, now));
              var committed := Admission.Step(config, screened, Admission.Commit(0));
              Admission.System(Table(), attempts, map[0 := Admission.Call(request, Admission.Replied(reply))], []) == committed
    {
      ThreeSteps(config, Table(), attempts, request, now);
      hide Admission.Step, Admission.Reserve, RateLimit.Allow, Admission.Screen, Admission.PendingSecret;
      var secret := PendingSecret(Admission.Key(request));
      if secret.Some? {
        return Admission.Granted(secret.value);
      }
      var allowed, _ := AllowConnectionAttempt(request.ip, now);
      if !allowed {
        return Admission.Rejected(429);
      }
      var screening := Admission.Screen(config, request);
      if screening.Refused? {
        return Admission.Rejected(screening.code);
      }
      ScreenKnows(config, request);
      reply := Reserve(request, screening.clientID);
    }

    method ExpireAttempt(key: string)
      modifies this`pending, this`reservations
      ensures Table() == Admission.Expire(old(Table()), key)
    {
      if key in pending {
        Release(key);
      }
    }

    method Release(key: string)
      requires key in pending
      modifies this`pending, this`reservations
      ensures Table() == Admission.Release(old(Table()), key)
    {
      var clientID := pending[key].clientID;
      pending := pending - {key};
      reservations := reservations[clientID := (if clientID in reservations then reservations[clientID] else 0) - 1];
    }

    /** One accepted socket; false means that the socket is closed at once. */
    method Accept(request: Admission.Request, sessionID: Option<string>) returns (admitted: Option<Admission.Slot>)
      modifies this`pending, this`reservations, this`sessions
      ensures (Table(), admitted) == Admission.Accept(old(Table()), request, sessionID)
    {
      var key := Admission.Key(request);
      if key !in pending {
        return None;
      }
      var clientID := pending[key].clientID;
      Release(key);
      if sessionID.None? {
        return None;
      }
      var session := Admission.Slot(clientID, request);
      sessions := sessions[sessionID.value := session];
      return Some(session);
    }

    method CloseSession(sessionID: string)
      modifies this`sessions
      ensures Table() == Admission.Close(old(Table()), sessionID)
    {
      sessions := sessions - {sessionID};
    }

    /** closeAllSessions, as the shutdown calls it first. */
    method CloseAllSessions()
      modifies this`sessions
      ensures sessions == map[]
    {
      var todo := sessions.Keys;
      while todo != {}
        invariant sessions.Keys == todo
        decreases |todo|
      {
        var id :| id in todo;
        CloseSession(id);
        todo := todo - {id};
      }
    }

    method Shutdown()
      modifies this`pending, this`reservations
      ensures Table() == Admission.Clear(old(Table()))
    {
      pending, reservations := map[], map[];
    }
  }

  /** The tables and the answer of an undisturbed authorize. */
  function Undisturbed(cfg: Admission.Config, table: Admission.Table, attempts: RateLimit.Table, request: Admission.Request, now: int):
    (Admission.Table, RateLimit.Table, Admission.Reply)
  {
    var secret := Admission.PendingSecret(cfg, table, Admission.Key(request));
    if secret.Some? then (table, attempts, Admission.Granted(secret.value))
    else
      var (attempts', answer) := RateLimit.Allow(attempts, RateLimit.Call(request.ip, now));
      if !answer.allowed then (table, attempts', Admission.Rejected(429))
      else
        var screening := Admission.Screen(cfg, request);
        if screening.Refused? then (table, attempts', Admission.Rejected(screening.code))
        else if screening.clientID !in cfg.clients then (table, attempts', Admission.Rejected(404))
        else
          var (table', reply) := Admission.Reserve(cfg, table, request, screening.clientID);
          (table', attempts', reply)
  }

  lemma ThreeSteps(cfg: Admission.Config, table: Admission.Table, attempts: RateLimit.Table, request: Admission.Request, now: int)
    ensures var sys := Admission.System(table, attempts, map[], []);
            var probed := Admission.Step(cfg, sys, Admission.Probe(0, request));
            var screened := Admission.Step(cfg, probed, Admission.Screened(0, now));
            var (table', attempts', reply) := Undisturbed(cfg, table, attempts, request, now);
            Admission.Step(cfg, screened, Admission.Commit(0)) ==
              Admission.System(table', attempts', map[0 := Admission.Call(request, Admission.Replied(reply))], [])
  {
    hide Admission.Reserve, RateLimit.Allow, Admission.Screen, Admission.PendingSecret;
    ScreenKnows(cfg, request);
  }

  lemma ScreenKnows(cfg: Admission.Config, request: Admission.Request)
    ensures Admission.Screen(cfg, request).Passed? ==> Admission.Screen(cfg, request).clientID in cfg.clients
  {
    assert Admission.Screen(cfg, request).Passed? ==> Admission.Entitled(cfg, request, Admission.Screen(cfg, request).clientID);
  }
}
