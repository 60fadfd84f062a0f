/** What each registry call does, told by what the caller can see: which calls go through,
    what is stored then, and when records go. */
module RegistryCalls {
  import opened Wrappers
  import opened Ordering
  import opened Records
  import opened Registry
  import opened Runs

  // ---- storing a relay ----

  /** Another listener is stored with this address and port. */
  predicate Taken(reg: Registry, id: string, bind: string, port: int) {
    exists other | other in reg.data.relays :: other != id
      && reg.data.relays[other].direction == "listener"
      && reg.data.relays[other].bindAddress == bind && reg.data.relays[other].port == port
  }

  /** A call for callers without a Stream ID: the client exists, is enabled and assigned. */
  predicate CanStandIn(reg: Registry, clientID: string, relayID: string) {
    && clientID in reg.data.clients && reg.data.clients[clientID].enabled
    && relayID in reg.data.clients[clientID].allowedRelayIDs
  }

  predicate RelayFits(reg: Registry, r: Relay) {
    && (r.direction == "listener" ==> !Taken(reg, r.id, r.bindAddress, r.port))
    && (r.allowMissingStreamID ==> CanStandIn(reg, r.defaultClientID, r.id))
  }

  predicate PublishesEncrypted(r: Relay) {
    r.direction == "publish" && r.encryptionMode == "aes-256"
  }

  lemma FitsMeans(reg: Registry, r: Relay)
    ensures RelayFits(reg, r) <==> ConflictFree(reg.data, r) && DefaultClientOk(reg.data, r)
  {
    assert LISTENER == "listener";
    forall id | id in reg.data.relays && id != r.id && Conflicts(r, reg.data.relays[id]) ensures !RelayFits(reg, r) {
      assert Taken(reg, r.id, r.bindAddress, r.port);
    }
  }

  /** A relay is stored if and only if it normalises, no other listener has its address and
      port, and its default client can stand in; the call succeeds if and only if the state
      file is written too. A stored relay keeps its version, or gets the next one when it
      starts to encrypt as a publisher, and then the call returns a passphrase, as it does
      for a new one that encrypts. A new relay is stopped. */
  lemma PutRelayExactly(env: Env, reg: Registry, relay: Relay, saved: bool)
    ensures var (reg', result) := UpsertRelay(env, reg, relay, saved);
            var n := NormalizeRelay(env, relay);
            var known := relay.id in reg.data.relays;
            && (result.Ok? <==> n.Ok? && RelayFits(reg, n.value) && saved)
            && (!(n.Ok? && RelayFits(reg, n.value)) ==> reg' == reg)
            && (n.Ok? && RelayFits(reg, n.value) ==>
                  var begins := PublishesEncrypted(n.value) && !(known && PublishesEncrypted(reg.data.relays[relay.id]));
                  var version := if !known then n.value.keyVersion else reg.data.relays[relay.id].keyVersion + if begins then 1 else 0;
                  && reg'.data == reg.data.(relays := reg.data.relays[relay.id := n.value.(keyVersion := version)])
                  && (relay.id in reg'.states && reg'.states[relay.id] == if relay.id in reg.states then reg.states[relay.id] else "stopped")
                  && (forall id | id != relay.id :: StatusOf(reg', id) == StatusOf(reg, id)) && reg'.busy == reg.busy
                  && (saved ==> result.value.keyVersion == version && (result.value.passphrase.Some? <==> begins)))
  {
    var n := NormalizeRelay(env, relay);
    hide NormalizeRelay, RelayPassphrase, ConflictFree, DefaultClientOk, RelayFits, RelayToStore, PublishesEncrypted;
    if n.Ok? {
      NormalizedKeepsID(env, relay);
      ToStoreMeans(reg, n.value);
      FitsMeans(reg, n.value);
      FitsAnyVersion(reg, n.value, RelayToStore(reg.data, n.value).0.keyVersion);
    }
  }

  lemma NormalizedKeepsID(env: Env, relay: Relay)
    ensures NormalizeRelay(env, relay).Ok? ==> NormalizeRelay(env, relay).value.id == relay.id
  {
    if NormalizeRelay(env, relay).Ok? { NormalizedRelayIsCanonical(env, relay); }
  }

  lemma ToStoreMeans(reg: Registry, n: Relay)
    ensures var known := n.id in reg.data.relays;
            var begins := PublishesEncrypted(n) && !(known && PublishesEncrypted(reg.data.relays[n.id]));
            var version := if !known then n.keyVersion else reg.data.relays[n.id].keyVersion + if begins then 1 else 0;
            RelayToStore(reg.data, n) == (n.(keyVersion := version), begins)
  {
  }

  lemma FitsAnyVersion(reg: Registry, r: Relay, version: int)
    ensures ConflictFree(reg.data, r.(keyVersion := version)) == ConflictFree(reg.data, r)
    ensures DefaultClientOk(reg.data, r.(keyVersion := version)) == DefaultClientOk(reg.data, r)
  {
  }

  /** A rotation goes through exactly for an encrypting publish relay and a written file, and
      the version goes up by one. */
  lemma RotateRelayExactly(env: Env, reg: Registry, id: string, saved: bool)
    requires Inv(env, reg)
    ensures var (reg', result) := RotateRelayKey(env, reg, id, saved);
            var rotates := id in reg.data.relays && PublishesEncrypted(reg.data.relays[id]);
            && (result.Ok? <==> rotates && saved)
            && (!rotates ==> reg' == reg)
            && (rotates ==>
                  var version := reg.data.relays[id].keyVersion + 1;
                  && reg'.data == reg.data.(relays := reg.data.relays[id := reg.data.relays[id].(keyVersion := version)])
                  && reg'.states == reg.states && reg'.busy == reg.busy
                  && (saved ==> result.value.keyVersion == version && result.value.passphrase.Some?))
  {
    hide DataInv, RelayPassphrase, Inv, CanonicalRelay;
    if id in reg.data.relays { RelayMode(env, reg, id); }
  }

  lemma RelayMode(env: Env, reg: Registry, id: string)
    requires Inv(env, reg) && id in reg.data.relays
    ensures var r := reg.data.relays[id];
            r.id == id && (r.direction == "publish" && r.encryptionMode != "none" <==> PublishesEncrypted(r))
  {
    RelayFacts(env, reg.data, id);
    hide DataInv, ValidID, SafeStreamID;
  }

  // ---- storing a client ----

  /** Some relay has the client as its stand-in, and it would be disabled or unassigned. */
  predicate BreaksStandIn(reg: Registry, client: Client) {
    exists r | r in reg.data.relays ::
      && reg.data.relays[r].allowMissingStreamID && reg.data.relays[r].defaultClientID == client.id
      && !(client.enabled && r in client.allowedRelayIDs)
  }

  lemma BreaksMeans(env: Env, reg: Registry, client: Client, n: Client)
    requires Inv(env, reg) && n.id == client.id && n.enabled == client.enabled
    requires Elements(n.allowedRelayIDs) == Elements(client.allowedRelayIDs)
    ensures DefaultsKept(reg.data, n) <==> !BreaksStandIn(reg, client)
  {
    forall r | r in reg.data.relays
      ensures reg.data.relays[r].id == r && (r in n.allowedRelayIDs <==> r in client.allowedRelayIDs)
    {
      RelayFacts(env, reg.data, r);
      assert r in Elements(n.allowedRelayIDs) <==> r in Elements(client.allowedRelayIDs);
    }
  }

  /** The record whose normal form counts: a known client keeps its creation time and key
      version, a new one has the present time and version 1. */
  function Dated(reg: Registry, client: Client, now: int): Client {
    if client.id in reg.data.clients
    then client.(createdAt := reg.data.clients[client.id].createdAt, updatedAt := now, keyVersion := reg.data.clients[client.id].keyVersion)
    else client.(createdAt := now, updatedAt := now, keyVersion := 1)
  }

  /** A client is stored if and only if it is not a second creation, normalises and leaves
      every relay it stands in for a stand-in; the call succeeds if and only if the state
      file is written too. The version goes up when encryption starts, and then, or for a
      new client that encrypts, the call returns a passphrase. */
  lemma PutClientExactly(env: Env, reg: Registry, client: Client, createOnly: bool, now: int, saved: bool)
    requires Lawful(env) && Inv(env, reg)
    ensures var (reg', result) := UpsertClient(env, reg, client, createOnly, now, saved);
            var known := client.id in reg.data.clients;
            var n := NormalizeClient(env, reg.data.relays, Dated(reg, client, now));
            var stores := !(createOnly && known) && n.Ok? && !BreaksStandIn(reg, client);
            && (result.Ok? <==> stores && saved)
            && (!stores ==> reg' == reg)
            && (stores ==>
                  var begins := n.value.encryptionMode == "aes-256" && !(known && reg.data.clients[client.id].encryptionMode == "aes-256");
                  var version := n.value.keyVersion + if known && begins then 1 else 0;
                  && reg'.data == reg.data.(clients := reg.data.clients[client.id := n.value.(keyVersion := version)])
                  && reg'.states == reg.states && reg'.busy == reg.busy
                  && (saved ==> result.value.keyVersion == version && (result.value.passphrase.Some? <==> begins)))
  {
    var n := NormalizeClient(env, reg.data.relays, Dated(reg, client, now));
    hide NormalizeClient, Inv, Lawful, DefaultsKept, BreaksStandIn, ClientPassphrase, Stamped, Dated, ClientToStore;
    DatedKeeps(reg, client, now);
    if n.Ok? { NormalClientFacts(env, reg, client, now); }
  }

  lemma NormalClientFacts(env: Env, reg: Registry, client: Client, now: int)
    requires Lawful(env) && Inv(env, reg) && NormalizeClient(env, reg.data.relays, Dated(reg, client, now)).Ok?
    ensures var n := NormalizeClient(env, reg.data.relays, Dated(reg, client, now)).value;
            var known := client.id in reg.data.clients;
            var begins := n.encryptionMode == "aes-256" && !(known && reg.data.clients[client.id].encryptionMode == "aes-256");
            && n.id == client.id
            && (DefaultsKept(reg.data, n) <==> !BreaksStandIn(reg, client))
            && ClientToStore(reg.data, n) == (n.(keyVersion := n.keyVersion + if known && begins then 1 else 0), begins)
  {
    hide NormalizeClient, Inv, Lawful, CanonicalClient, DefaultsKept, BreaksStandIn, Stamped, Dated, ClientToStore, Elements;
    DatedKeeps(reg, client, now);
    NormalizedClientIsCanonical(env, reg.data.relays, Dated(reg, client, now));
    var n := NormalizeClient(env, reg.data.relays, Dated(reg, client, now)).value;
    BreaksMeans(env, reg, client, n);
    ClientToStoreMeans(env, reg, n);
  }

  lemma DatedKeeps(reg: Registry, client: Client, now: int)
    ensures var dated := Dated(reg, client, now);
            dated == Stamped(reg.data, client, now) && dated.id == client.id && dated.enabled == client.enabled && dated.allowedRelayIDs == client.allowedRelayIDs
  {
  }

  lemma ClientToStoreMeans(env: Env, reg: Registry, n: Client)
    requires Inv(env, reg) && CanonicalClient(env, n)
    ensures var known := n.id in reg.data.clients;
            var begins := n.encryptionMode == "aes-256" && !(known && reg.data.clients[n.id].encryptionMode == "aes-256");
            ClientToStore(reg.data, n) == (n.(keyVersion := n.keyVersion + if known && begins then 1 else 0), begins)
  {
    Modes(env, n);
    if n.id in reg.data.clients { ModeOf(env, reg, n.id); }
    hide Inv, CanonicalClient;
  }

  lemma Modes(env: Env, c: Client)
    ensures CanonicalClient(env, c) ==> c.encryptionMode == "aes-256" || c.encryptionMode == "none"
  {
  }

  lemma ModeOf(env: Env, reg: Registry, id: string)
    requires Inv(env, reg) && id in reg.data.clients
    ensures reg.data.clients[id].encryptionMode == "aes-256" || reg.data.clients[id].encryptionMode == "none"
  {
    ClientFacts(env, reg.data, id);
  }

  lemma RotateClientExactly(env: Env, reg: Registry, id: string, now: int, saved: bool)
    requires Inv(env, reg)
    ensures var (reg', result) := RotateClientKey(env, reg, id, now, saved);
            var rotates := id in reg.data.clients && reg.data.clients[id].encryptionMode == "aes-256";
            && (result.Ok? <==> rotates && saved)
            && (!rotates ==> reg' == reg)
            && (rotates ==>
                  var version := reg.data.clients[id].keyVersion + 1;
                  && reg'.data == reg.data.(clients := reg.data.clients[id := reg.data.clients[id].(keyVersion := version, updatedAt := now)])
                  && reg'.states == reg.states && reg'.busy == reg.busy
                  && (saved ==> result.value.keyVersion == version && result.value.passphrase.Some?))
  {
    if id in reg.data.clients { ModeOf(env, reg, id); }
    hide Inv, ClientPassphrase;
  }

  // ---- the status of a relay and the clients that are connected, from the calls alone ----

  /** What was last said of the relay's status, or stopped if nothing was since it was
      removed or the process came up. */
  ghost function LastStatus(env: Env, ops: seq<Op>, id: string): string {
    if ops == [] then "stopped"
    else
      var front, op := ops[..|ops| - 1], ops[|ops| - 1];
      match op
      case SetState(other, status) => if other == id then status else LastStatus(env, front, id)
      case RemoveRelay(_, _) =>
        if id in Run(env, front).data.relays && id !in Run(env, ops).data.relays then "stopped" else LastStatus(env, front, id)
      case Restart => if Restarted(env, Run(env, front)).1 then "stopped" else LastStatus(env, front, id)
      case _ => LastStatus(env, front, id)
  }

  /** The clients last said to have an active session. */
  ghost function LastBusy(env: Env, ops: seq<Op>): set<string> {
    if ops == [] then {}
    else
      var front, op := ops[..|ops| - 1], ops[|ops| - 1];
      match op
      case SetBusy(busy) => busy
      case Restart => if Restarted(env, Run(env, front)).1 then {} else LastBusy(env, front)
      case _ => LastBusy(env, front)
  }

  lemma PutRelayStatus(env: Env, reg: Registry, relay: Relay, saved: bool, id: string)
    ensures StatusOf(UpsertRelay(env, reg, relay, saved).0, id) == StatusOf(reg, id)
    ensures UpsertRelay(env, reg, relay, saved).0.busy == reg.busy
  {
    hide NormalizeRelay, ConflictFree, DefaultClientOk, RelayToStore, RelayPassphrase;
  }

  lemma PutClientStatus(env: Env, reg: Registry, client: Client, createOnly: bool, now: int, saved: bool)
    ensures var reg' := UpsertClient(env, reg, client, createOnly, now, saved).0; reg'.states == reg.states && reg'.busy == reg.busy
  {
    hide NormalizeClient, DefaultsKept, ClientToStore, Stamped, ClientPassphrase;
  }

  lemma OtherStatus(env: Env, reg: Registry, op: Op)
    requires op.RotateRelay? || op.RotateClient? || op.RemoveClient?
    ensures Apply(env, reg, op).0.states == reg.states && Apply(env, reg, op).0.busy == reg.busy
  {
    hide RelayPassphrase, ClientPassphrase, IsDefault;
  }

  lemma RestartStatus(env: Env, reg: Registry, id: string)
    requires Inv(env, reg)
    ensures var (reg', up) := Restarted(env, reg);
            if up then StatusOf(reg', id) == "stopped" && reg'.busy == {} else reg' == reg
  {
    RestartGives(env, reg);
    hide Restarted, Inv, Persistence.AssignmentsListen, Persistence.Repaired;
  }

  lemma RemovalStatus(reg: Registry, id: string, saved: bool, other: string)
    ensures var reg' := DeleteRelay(reg, id, saved).0;
            && reg'.busy == reg.busy
            && (other in reg.data.relays && other !in reg'.data.relays ==> StatusOf(reg', other) == "stopped")
            && (!(other in reg.data.relays && other !in reg'.data.relays) ==> StatusOf(reg', other) == StatusOf(reg, other))
  {
    hide Assigned;
  }

  lemma ApplyIs(env: Env, reg: Registry, op: Op)
    ensures var reg' := Apply(env, reg, op).0;
            match op
            case PutRelay(relay, saved) => reg' == UpsertRelay(env, reg, relay, saved).0
            case PutClient(client, createOnly, now, saved) => reg' == UpsertClient(env, reg, client, createOnly, now, saved).0
            case RemoveRelay(id, saved) => reg' == DeleteRelay(reg, id, saved).0
            case RemoveClient(id, saved) => reg' == DeleteClient(reg, id, saved).0
            case SetState(id, status) => reg' == reg.(states := reg.states[id := status])
            case SetBusy(busy) => reg' == reg.(busy := busy)
            case Restart => reg' == Restarted(env, reg).0
            case _ => true
  {
    hide UpsertRelay, UpsertClient, DeleteRelay, DeleteClient, RotateRelayKey, RotateClientKey, Restarted;
  }

  lemma StatusStep(env: Env, ops: seq<Op>, id: string)
    requires Lawful(env) && ops != []
    requires var front := ops[..|ops| - 1]; StatusOf(Run(env, front), id) == LastStatus(env, front, id) && Run(env, front).busy == LastBusy(env, front)
    ensures StatusOf(Run(env, ops), id) == LastStatus(env, ops, id) && Run(env, ops).busy == LastBusy(env, ops)
  {
    var front, op := ops[..|ops| - 1], ops[|ops| - 1];
    var reg := Run(env, front);
    RunKeeps(env, front);
    assert Run(env, ops) == Apply(env, reg, op).0;
    ApplyIs(env, reg, op);
    hide Lawful, Run, Apply, UpsertRelay, UpsertClient, DeleteRelay, Restarted, Inv;
    match op {
      case PutRelay(relay, saved) => PutRelayStatus(env, reg, relay, saved, id);
      case PutClient(client, createOnly, now, saved) => PutClientStatus(env, reg, client, createOnly, now, saved);
      case RemoveRelay(other, saved) => RemovalStatus(reg, other, saved, id);
      case SetState(_, _) =>
      case SetBusy(_) =>
      case Restart => RestartStatus(env, reg, id);
      case _ => OtherStatus(env, reg, op);
    }
  }

  /** The state of the registry is what the calls said last. */
  lemma {:induction false} StatusFollows(env: Env, ops: seq<Op>, id: string)
    requires Lawful(env)
    ensures StatusOf(Run(env, ops), id) == LastStatus(env, ops, id) && Run(env, ops).busy == LastBusy(env, ops)
  {
    hide Lawful, Apply, Run;
    if ops == [] {
      RunNothing(env);
    } else {
      hide LastStatus, LastBusy;
      StatusFollows(env, ops[..|ops| - 1], id);
      StatusStep(env, ops, id);
    }
  }

  // ---- when records go ----

  predicate MayDelete(status: string) {
    status == "stopped" || status == "error" || status == "flapping"
  }

  lemma DeleteRelayExactly(reg: Registry, id: string, saved: bool)
    ensures var (reg', result) := DeleteRelay(reg, id, saved);
            var goes := id in reg.data.relays && MayDelete(StatusOf(reg, id))
                        && forall c | c in reg.data.clients :: id !in reg.data.clients[c].allowedRelayIDs;
            && (result == Ok(true) <==> goes && saved) && (result == Ok(false) <==> id !in reg.data.relays)
            && reg'.data == (if goes then reg.data.(relays := reg.data.relays - {id}) else reg.data)
  {
  }

  lemma DeleteClientExactly(reg: Registry, id: string, saved: bool)
    ensures var (reg', result) := DeleteClient(reg, id, saved);
            var goes := id in reg.data.clients && id !in reg.busy
                        && forall r | r in reg.data.relays :: !(reg.data.relays[r].allowMissingStreamID && reg.data.relays[r].defaultClientID == id);
            && (result == Ok(true) <==> goes && saved) && (result == Ok(false) <==> id !in reg.data.clients)
            && reg'.data == (if goes then reg.data.(clients := reg.data.clients - {id}) else reg.data)
  {
  }

  lemma StoringKeeps(env: Env, reg: Registry, op: Op, id: string)
    requires Lawful(env) && Inv(env, reg) && !op.Restart?
    ensures id in reg.data.relays && !op.RemoveRelay? ==> id in Apply(env, reg, op).0.data.relays
    ensures id in reg.data.clients && !op.RemoveClient? ==> id in Apply(env, reg, op).0.data.clients
  {
    hide NormalizeRelay, NormalizeClient, ConflictFree, DefaultClientOk, DefaultsKept, RelayToStore, ClientToStore, Stamped, Assigned,
      IsDefault, RelayPassphrase, ClientPassphrase, Lawful, Inv;
  }

  /** Over every run: between restarts a relay goes exactly when it is deleted while what
      was last said of its status is stopped, error or flapping and no client names it, and
      the call returns true exactly then if the state file is written. */
  lemma {:induction false} RelayGoesExactly(env: Env, ops: seq<Op>, op: Op, id: string)
    requires Lawful(env) && id in Run(env, ops).data.relays && !op.Restart?
    ensures var reg := Run(env, ops);
            var goes := op.RemoveRelay? && op.id == id && MayDelete(LastStatus(env, ops, id))
                        && forall c | c in reg.data.clients :: id !in reg.data.clients[c].allowedRelayIDs;
            && (id !in Run(env, ops + [op]).data.relays <==> goes)
            && (op.RemoveRelay? && op.id == id ==> (DeleteRelay(reg, id, op.saved).1 == Ok(true) <==> goes && op.saved))
  {
    var reg := Run(env, ops);
    StatusFollows(env, ops, id);
    RunLast(env, ops, op);
    RunKeeps(env, ops);
    hide Lawful, Run, Apply, DeleteRelay, LastStatus, LastBusy, MayDelete, Inv;
    if op.RemoveRelay? {
      DeleteRelayExactly(reg, op.id, op.saved);
      ApplyIs(env, reg, op);
    } else {
      StoringKeeps(env, reg, op, id);
    }
  }

  /** A client goes exactly when it is deleted while it is not said to have an active session
      and is no relay's default. */
  lemma {:induction false} ClientGoesExactly(env: Env, ops: seq<Op>, op: Op, id: string)
    requires Lawful(env) && id in Run(env, ops).data.clients && !op.Restart?
    ensures var reg := Run(env, ops);
            var goes := op.RemoveClient? && op.id == id && id !in LastBusy(env, ops)
                        && forall r | r in reg.data.relays :: !(reg.data.relays[r].allowMissingStreamID && reg.data.relays[r].defaultClientID == id);
            && (id !in Run(env, ops + [op]).data.clients <==> goes)
            && (op.RemoveClient? && op.id == id ==> (DeleteClient(reg, id, op.saved).1 == Ok(true) <==> goes && op.saved))
  {
    var reg := Run(env, ops);
    StatusFollows(env, ops, id);
    RunLast(env, ops, op);
    RunKeeps(env, ops);
    hide Lawful, Run, Apply, DeleteClient, LastStatus, LastBusy, Inv;
    if op.RemoveClient? {
      DeleteClientExactly(reg, op.id, op.saved);
      ApplyIs(env, reg, op);
    } else {
      StoringKeeps(env, reg, op, id);
    }
  }
}
