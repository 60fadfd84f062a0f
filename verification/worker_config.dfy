/** The configuration handed to a worker, and newWorker's validation of it. */
module WorkerConfig {
  import opened Wrappers
  import opened Ordering
  import opened Records
  import opened Registry
  import opened Runs
  import Admission
  import Text

  datatype WorkerClient = WorkerClient(
    id: string, encryptionMode: string, passphrase: string, allowedCIDRs: seq<string>, maxSessions: int)

  datatype WorkerConfig = WorkerConfig(relay: Relay, publishPassphrase: string, clients: seq<WorkerClient>)

  // ---- the store's side ----

  predicate Serves(data: Data, clientID: string, relayID: string)
    requires clientID in data.clients
  {
    data.clients[clientID].enabled && relayID in data.clients[clientID].allowedRelayIDs
  }

  function ClientEntry(env: Env, c: Client): WorkerClient {
    WorkerClient(c.id, c.encryptionMode, if c.encryptionMode == AES256 then ClientPassphrase(env, c.id, c.keyVersion) else "",
                 c.allowedCIDRs, c.maxSessions)
  }

  /** The enabled clients assigned to a relay, following a list of IDs. */
  function Entries(env: Env, data: Data, ids: seq<string>, relayID: string): seq<WorkerClient>
    requires forall i | 0 <= i < |ids| :: ids[i] in data.clients
  {
    if ids == [] then []
    else
      var n := |ids| - 1;
      Entries(env, data, ids[..n], relayID) + if Serves(data, ids[n], relayID) then [ClientEntry(env, data.clients[ids[n]])] else []
  }

  lemma ListedClients(data: Data)
    ensures forall i | 0 <= i < |Listing(data.clients.Keys)| :: Listing(data.clients.Keys)[i] in data.clients
  {
    var ids := Listing(data.clients.Keys);
    assert forall i | 0 <= i < |ids| :: ids[i] in Elements(ids);
  }

  ghost function WorkerClients(env: Env, data: Data, relayID: string): seq<WorkerClient> {
    ListedClients(data);
    Entries(env, data, Listing(data.clients.Keys), relayID)
  }

  function PublishPassphrase(env: Env, data: Data, id: string): string {
    if id in data.relays && Encrypts(data.relays[id]) then RelayPassphrase(env, id, data.relays[id].keyVersion) else ""
  }

  /** What Manager.start sends, read from one snapshot of the store. */
  ghost function ConfigFor(env: Env, data: Data, id: string): WorkerConfig
    requires id in data.relays
  {
    if data.relays[id].direction == PUBLISH
    then WorkerConfig(data.relays[id], PublishPassphrase(env, data, id), [])
    else WorkerConfig(data.relays[id], "", WorkerClients(env, data, id))
  }

  // ---- newWorker ----

  predicate GoodSecret(secret: string) {
    10 <= |secret| <= 79
  }

  function ParseNetworks(env: Env, values: seq<string>): Result<seq<Admission.Network>> {
    if values == [] then Ok([])
    else
      var n := |values| - 1;
      var before := ParseNetworks(env, values[..n]);
      if before.Err? then before
      else if env.parseCIDR(values[n]).None? then Err("CIDR")
      else Ok(before.value + [env.parseCIDR(values[n]).value])
  }

  function CheckClient(env: Env, client: WorkerClient): Result<Admission.ACL> {
    var mode := if client.encryptionMode == "" then AES256 else client.encryptionMode;
    if client.id == "" || (mode != AES256 && mode != NONE) then Err("invalid client")
    else if mode == AES256 && !GoodSecret(client.passphrase) then Err("passphrase")
    else if mode == NONE && client.passphrase != "" then Err("unexpected passphrase")
    else
      var networks := ParseNetworks(env, client.allowedCIDRs);
      if networks.Err? then Err(networks.reason)
      else Ok(Admission.ACL(client.passphrase, networks.value, client.maxSessions))
  }

  function CheckClients(env: Env, clients: seq<WorkerClient>): Result<map<string, Admission.ACL>> {
    if clients == [] then Ok(map[])
    else
      var n := |clients| - 1;
      var before := CheckClients(env, clients[..n]);
      if before.Err? then before
      else
        var acl := CheckClient(env, clients[n]);
        if acl.Err? then Err(acl.reason) else Ok(before.value[clients[n].id := acl.value])
  }

  function NewWorker(env: Env, config: WorkerConfig): Result<Admission.Config> {
    var relay := config.relay;
    var direction := if relay.direction == "" then LISTENER else relay.direction;
    var timeout := WithDefault(relay.inputTimeoutSeconds, 10);
    if direction == PUBLISH && relay.encryptionMode == AES256 && !GoodSecret(config.publishPassphrase) then Err("publish passphrase")
    else if direction == PUBLISH && relay.encryptionMode == NONE && config.publishPassphrase != "" then Err("unexpected passphrase")
    else if timeout < 3 || timeout > 300 then Err("input_timeout_seconds")
    else
      var clients := CheckClients(env, config.clients);
      if clients.Err? then Err(clients.reason)
      else if relay.allowMissingStreamID && direction != LISTENER then Err("listener-only")
      else if relay.allowMissingStreamID && relay.defaultClientID !in clients.value then Err("default client")
      else Ok(Admission.Config(relay.maxClients, relay.allowMissingStreamID, relay.defaultClientID, clients.value, env.parseIP))
  }

  // ---- what newWorker accepts ----

  lemma {:induction false} ParsesExactly(env: Env, values: seq<string>)
    ensures ParseNetworks(env, values).Ok? <==> forall i | 0 <= i < |values| :: env.parseCIDR(values[i]).Some?
    ensures ParseNetworks(env, values).Ok? ==>
              && |ParseNetworks(env, values).value| == |values|
              && forall i | 0 <= i < |values| :: env.parseCIDR(values[i]) == Some(ParseNetworks(env, values).value[i])
  {
    if values != [] { ParsesExactly(env, values[..|values| - 1]); }
  }

  /** An entry has an ID, a secret of 10 to 79 bytes exactly if it encrypts, which is also
      the default, and networks that parse. */
  predicate GoodClient(env: Env, c: WorkerClient) {
    && c.id != ""
    && (if c.encryptionMode == "aes-256" || c.encryptionMode == "" then 10 <= |c.passphrase| <= 79
        else c.encryptionMode == "none" && c.passphrase == "")
    && forall i | 0 <= i < |c.allowedCIDRs| :: env.parseCIDR(c.allowedCIDRs[i]).Some?
  }

  /** The worker knows the client as this entry says. */
  ghost predicate KnownAs(env: Env, acl: Admission.ACL, c: WorkerClient) {
    && acl.passphrase == c.passphrase && acl.maxSessions == c.maxSessions
    && |acl.networks| == |c.allowedCIDRs|
    && forall i | 0 <= i < |c.allowedCIDRs| :: env.parseCIDR(c.allowedCIDRs[i]) == Some(acl.networks[i])
  }

  lemma ClientExactly(env: Env, c: WorkerClient)
    ensures CheckClient(env, c).Ok? <==> GoodClient(env, c)
    ensures CheckClient(env, c).Ok? ==> KnownAs(env, CheckClient(env, c).value, c)
  {
    ParsesExactly(env, c.allowedCIDRs);
    hide ParseNetworks;
  }

  /** The last entry under an ID. */
  predicate LastUnder(clients: seq<WorkerClient>, id: string, i: nat) {
    i < |clients| && clients[i].id == id && forall k | i < k < |clients| :: clients[k].id != id
  }

  /** The worker knows the IDs listed, each as its last entry says. */
  ghost predicate KnowsList(env: Env, known: map<string, Admission.ACL>, clients: seq<WorkerClient>) {
    && (forall id :: id in known <==> exists i | 0 <= i < |clients| :: clients[i].id == id)
    && forall i: nat, id | LastUnder(clients, id, i) :: id in known && KnownAs(env, known[id], clients[i])
  }

  lemma KnowsMore(env: Env, known: map<string, Admission.ACL>, front: seq<WorkerClient>, c: WorkerClient, acl: Admission.ACL)
    requires KnowsList(env, known, front) && KnownAs(env, acl, c)
    ensures KnowsList(env, known[c.id := acl], front + [c])
  {
    hide KnownAs;
    var n, clients, more := |front|, front + [c], known[c.id := acl];
    forall i: nat, id | LastUnder(clients, id, i) ensures id in more && KnownAs(env, more[id], clients[i]) {
      if i < n {
        assert clients[n].id != id;
        assert forall k | i < k < n :: front[k] == clients[k];
        assert LastUnder(front, id, i);
      }
    }
    forall id ensures id in more <==> exists i | 0 <= i < |clients| :: clients[i].id == id {
      if i :| 0 <= i < n && front[i].id == id { assert clients[i].id == id; }
      if id == c.id { assert clients[n].id == id; }
    }
  }

  lemma {:induction false} ClientsExactly(env: Env, clients: seq<WorkerClient>)
    ensures CheckClients(env, clients).Ok? <==> forall i | 0 <= i < |clients| :: GoodClient(env, clients[i])
    ensures CheckClients(env, clients).Ok? ==> KnowsList(env, CheckClients(env, clients).value, clients)
  {
    if clients != [] {
      var n := |clients| - 1;
      var front, c := clients[..n], clients[n];
      ClientsExactly(env, front);
      ClientExactly(env, c);
      hide CheckClient, GoodClient, KnownAs, KnowsList;
      assert clients == front + [c];
      if CheckClients(env, clients).Ok? {
        KnowsMore(env, CheckClients(env, front).value, front, c, CheckClient(env, c).value);
      }
    }
  }

  /** A configuration is accepted exactly if the publisher's secret fits its encryption, the
      timeout is 3 to 300 seconds or left open, every client entry is good, and a relay that
      lets callers in without a Stream ID listens and knows its default client. */
  lemma {:induction false} NewWorkerExactly(env: Env, config: WorkerConfig)
    ensures var r, secret := config.relay, config.publishPassphrase;
            NewWorker(env, config).Ok? <==>
              && (r.direction == "publish" && r.encryptionMode == "aes-256" ==> 10 <= |secret| <= 79)
              && (r.direction == "publish" && r.encryptionMode == "none" ==> secret == "")
              && (r.inputTimeoutSeconds == 0 || 3 <= r.inputTimeoutSeconds <= 300)
              && (forall i | 0 <= i < |config.clients| :: GoodClient(env, config.clients[i]))
              && (r.allowMissingStreamID ==>
                    && (r.direction == "listener" || r.direction == "")
                    && exists i | 0 <= i < |config.clients| :: config.clients[i].id == r.defaultClientID)
    ensures NewWorker(env, config).Ok? ==>
              var worker := NewWorker(env, config).value;
              && worker.maxClients == config.relay.maxClients && worker.allowMissingStreamID == config.relay.allowMissingStreamID
              && worker.defaultClientID == config.relay.defaultClientID && worker.parseIP == env.parseIP
              && KnowsList(env, worker.clients, config.clients)
  {
    ClientsExactly(env, config.clients);
    hide CheckClients, GoodClient, LastUnder, KnownAs;
  }

  // ---- agreement ----

  lemma {:induction false} NetworksParse(env: Env, mode: string, values: seq<string>)
    requires Lawful(env) && forall i | 0 <= i < |values| :: CanonicalCIDR(env, mode, values[i])
    ensures ParseNetworks(env, values).Ok? && |ParseNetworks(env, values).value| == |values|
    ensures forall i | 0 <= i < |values| :: env.parseCIDR(values[i]) == Some(ParseNetworks(env, values).value[i])
  {
    if values != [] {
      var n := |values| - 1;
      NetworksParse(env, mode, values[..n]);
      assert env.normalizeCIDR(values[n]) == Some(values[n]);
    }
  }

  lemma EntryChecks(env: Env, c: Client)
    requires Lawful(env) && CanonicalClient(env, c)
    ensures CheckClient(env, ClientEntry(env, c)).Ok?
    ensures var acl := CheckClient(env, ClientEntry(env, c)).value;
            && acl.maxSessions == c.maxSessions
            && (c.encryptionMode == AES256 ==> acl.passphrase == ClientPassphrase(env, c.id, c.keyVersion))
            && (c.encryptionMode == NONE ==> acl.passphrase == "")
            && |acl.networks| == |c.allowedCIDRs|
            && forall i | 0 <= i < |c.allowedCIDRs| :: env.parseCIDR(c.allowedCIDRs[i]) == Some(acl.networks[i])
  {
    NetworksParse(env, c.encryptionMode, c.allowedCIDRs);
    ValidIDTrimmed(c.id);
    PassphraseLength(env, c.id, c.keyVersion);
    hide Lawful, ParseNetworks, ClientPassphrase, ValidID, Sorted, Distinct, CanonicalCIDR;
  }

  /** The worker knows exactly the listed clients that serve the relay. */
  ghost predicate Covers(env: Env, data: Data, ids: seq<string>, relayID: string, known: map<string, Admission.ACL>) {
    && (forall id :: id in known <==> id in ids && id in data.clients && Serves(data, id, relayID))
    && (forall id | id in known :: CheckClient(env, ClientEntry(env, data.clients[id])) == Ok(known[id]))
  }

  lemma CoversMore(env: Env, data: Data, ids: seq<string>, id: string, relayID: string, known: map<string, Admission.ACL>)
    requires Covers(env, data, ids, relayID, known) && id in data.clients
    requires CheckClient(env, ClientEntry(env, data.clients[id])).Ok?
    ensures if Serves(data, id, relayID)
            then Covers(env, data, ids + [id], relayID, known[id := CheckClient(env, ClientEntry(env, data.clients[id])).value])
            else Covers(env, data, ids + [id], relayID, known)
  {
    hide CheckClient, ClientEntry, Serves;
  }

  lemma CheckLast(env: Env, clients: seq<WorkerClient>, client: WorkerClient)
    requires CheckClients(env, clients).Ok? && CheckClient(env, client).Ok?
    ensures CheckClients(env, clients + [client]) == Ok(CheckClients(env, clients).value[client.id := CheckClient(env, client).value])
  {
    hide CheckClient;
    assert (clients + [client])[..|clients|] == clients;
  }

  lemma EntriesLast(env: Env, data: Data, ids: seq<string>, id: string, relayID: string)
    requires id in data.clients && forall i | 0 <= i < |ids| :: ids[i] in data.clients
    ensures Entries(env, data, ids + [id], relayID) ==
            Entries(env, data, ids, relayID) + if Serves(data, id, relayID) then [ClientEntry(env, data.clients[id])] else []
  {
    hide Serves, ClientEntry;
    assert (ids + [id])[..|ids|] == ids;
  }

  lemma NoEntries(env: Env, data: Data, relayID: string)
    ensures CheckClients(env, Entries(env, data, [], relayID)) == Ok(map[])
    ensures Covers(env, data, [], relayID, map[])
  {
  }

  lemma EntryPasses(env: Env, data: Data, id: string)
    requires Lawful(env) && DataInv(env, data) && id in data.clients
    ensures CheckClient(env, ClientEntry(env, data.clients[id])).Ok?
    ensures ClientEntry(env, data.clients[id]).id == id
  {
    ClientFacts(env, data, id);
    EntryChecks(env, data.clients[id]);
    hide Lawful, DataInv, CanonicalClient, CheckClient;
  }

  /** Every entry passes. */
  lemma {:induction false} EntriesCheck(env: Env, data: Data, ids: seq<string>, relayID: string)
    requires Lawful(env) && DataInv(env, data)
    requires forall i | 0 <= i < |ids| :: ids[i] in data.clients
    ensures var checked := CheckClients(env, Entries(env, data, ids, relayID));
            checked.Ok? && Covers(env, data, ids, relayID, checked.value)
  {
    hide Lawful, DataInv, CheckClient, ClientEntry, Serves, Covers, Entries, CheckClients;
    if ids == [] {
      NoEntries(env, data, relayID);
    } else {
      var front, id := ids[..|ids| - 1], ids[|ids| - 1];
      assert ids == front + [id];
      assert forall i | 0 <= i < |front| :: front[i] == ids[i];
      EntriesCheck(env, data, front, relayID);
      EntryPasses(env, data, id);
      var before := Entries(env, data, front, relayID);
      EntriesLast(env, data, front, id, relayID);
      CoversMore(env, data, front, id, relayID, CheckClients(env, before).value);
      CheckLast(env, before, ClientEntry(env, data.clients[id]));
      assert before + [] == before;
    }
  }

  lemma ServingClients(env: Env, data: Data, relayID: string)
    requires Lawful(env) && DataInv(env, data)
    ensures var checked := CheckClients(env, WorkerClients(env, data, relayID));
            checked.Ok? && Covers(env, data, Listing(data.clients.Keys), relayID, checked.value)
  {
    ListedClients(data);
    hide DataInv, Lawful, CheckClients, CheckClient, Entries, Covers;
    EntriesCheck(env, data, Listing(data.clients.Keys), relayID);
  }

  ghost predicate Knows(env: Env, data: Data, relayID: string, known: map<string, Admission.ACL>) {
    && known.Keys == (set c | c in data.clients && Serves(data, c, relayID))
    && forall c | c in known :: CheckClient(env, ClientEntry(env, data.clients[c])) == Ok(known[c])
  }

  lemma CoversAll(env: Env, data: Data, relayID: string, known: map<string, Admission.ACL>)
    requires Covers(env, data, Listing(data.clients.Keys), relayID, known)
    ensures Knows(env, data, relayID, known)
  {
    hide CheckClient, ClientEntry, Serves;
    assert forall id :: id in data.clients <==> id in Elements(Listing(data.clients.Keys));
  }

  /** A compatibility default is among the clients the worker knows. */
  lemma DefaultKnown(env: Env, data: Data, id: string, known: map<string, Admission.ACL>)
    requires DataInv(env, data) && id in data.relays && Knows(env, data, id, known)
    ensures data.relays[id].allowMissingStreamID ==> data.relays[id].defaultClientID in known
  {
    hide CheckClient, CanonicalRelay, CanonicalClient;
    assert DefaultClientOk(data, data.relays[id]);
  }

  lemma PublishSecret(env: Env, data: Data, id: string)
    requires Lawful(env) && DataInv(env, data) && id in data.relays && data.relays[id].direction == PUBLISH
    ensures var secret := PublishPassphrase(env, data, id);
            if data.relays[id].encryptionMode == AES256 then GoodSecret(secret) else data.relays[id].encryptionMode == NONE && secret == ""
  {
    hide Lawful, DataInv, RelayPassphrase, CanonicalLimits, SafeStreamID, ValidID;
    RelayFacts(env, data, id);
    PassphraseLength(env, id, data.relays[id].keyVersion);
  }

  lemma PassphraseLength(env: Env, id: string, version: int)
    requires Lawful(env)
    ensures |RelayPassphrase(env, id, version)| == 43 && |ClientPassphrase(env, id, version)| == 43
  {
    hide NetworksLawful, Text.Itoa;
  }

  lemma RelayShape(env: Env, data: Data, id: string)
    requires DataInv(env, data) && id in data.relays
    ensures var r := data.relays[id];
            && (r.direction == LISTENER || (r.direction == PUBLISH && !r.allowMissingStreamID))
            && 3 <= r.inputTimeoutSeconds <= 300
  {
    RelayFacts(env, data, id);
    hide DataInv, ValidID, SafeStreamID;
  }

  lemma PublishAccepted(env: Env, data: Data, id: string)
    requires Lawful(env) && DataInv(env, data) && id in data.relays && data.relays[id].direction == PUBLISH
    ensures var worker := NewWorker(env, ConfigFor(env, data, id));
            worker.Ok? && worker.value.maxClients == data.relays[id].maxClients && worker.value.parseIP == env.parseIP
  {
    hide DataInv, Lawful, WorkerClients, CheckClient, PublishPassphrase, GoodSecret;
    RelayShape(env, data, id);
    PublishSecret(env, data, id);
    assert CheckClients(env, []) == Ok(map[]);
  }

  lemma ListenerAccepted(env: Env, data: Data, id: string)
    requires Lawful(env) && DataInv(env, data) && id in data.relays && data.relays[id].direction == LISTENER
    ensures var worker := NewWorker(env, ConfigFor(env, data, id));
            && worker.Ok?
            && worker.value.maxClients == data.relays[id].maxClients && worker.value.parseIP == env.parseIP
            && Knows(env, data, id, worker.value.clients)
            && worker.value.allowMissingStreamID == data.relays[id].allowMissingStreamID
            && worker.value.defaultClientID == data.relays[id].defaultClientID
  {
    hide DataInv, Lawful, WorkerClients, CheckClients, PublishPassphrase, GoodSecret, Covers, Knows;
    RelayShape(env, data, id);
    ServingClients(env, data, id);
    var known := CheckClients(env, WorkerClients(env, data, id)).value;
    CoversAll(env, data, id, known);
    DefaultKnown(env, data, id, known);
  }

  lemma ConfigAccepted(env: Env, data: Data, id: string)
    requires Lawful(env) && DataInv(env, data) && id in data.relays
    ensures var worker := NewWorker(env, ConfigFor(env, data, id));
            && worker.Ok?
            && worker.value.maxClients == data.relays[id].maxClients && worker.value.parseIP == env.parseIP
            && (data.relays[id].direction == LISTENER ==>
                  && Knows(env, data, id, worker.value.clients)
                  && worker.value.allowMissingStreamID == data.relays[id].allowMissingStreamID
                  && worker.value.defaultClientID == data.relays[id].defaultClientID)
  {
    hide DataInv, Lawful, NewWorker, ConfigFor, Knows;
    RelayShape(env, data, id);
    if data.relays[id].direction == PUBLISH {
      PublishAccepted(env, data, id);
    } else {
      ListenerAccepted(env, data, id);
    }
  }

  /** In every reachable state of the registry, failed saves included, the worker
      accepts the configuration of every relay; and a listener's worker admits exactly
      the enabled clients assigned to it, each with its networks, its session limit and
      the passphrase of its current key version, within the relay's limit and with its
      default client. */
  lemma {:induction false} StoreAndWorkerAgree(env: Env, ops: seq<Op>, id: string)
    requires Lawful(env) && id in Run(env, ops).data.relays
    ensures var data := Run(env, ops).data;
            var worker := NewWorker(env, ConfigFor(env, data, id));
            && worker.Ok?
            && worker.value.maxClients == data.relays[id].maxClients
            && 188 <= data.relays[id].payloadSize <= 1456
            && (data.relays[id].direction == "listener" ==>
                  && worker.value.allowMissingStreamID == data.relays[id].allowMissingStreamID
                  && worker.value.defaultClientID == data.relays[id].defaultClientID
                  && (forall c :: c in worker.value.clients <==>
                        c in data.clients && data.clients[c].enabled && id in data.clients[c].allowedRelayIDs)
                  && forall c | c in worker.value.clients ::
                       var acl := worker.value.clients[c];
                       && acl.maxSessions == data.clients[c].maxSessions
                       && acl.passphrase == (if data.clients[c].encryptionMode == "aes-256"
                                             then env.mac("neotranscoder-srt:" + c + ":" + Text.Itoa(data.clients[c].keyVersion)) else "")
                       && |acl.networks| == |data.clients[c].allowedCIDRs|
                       && forall i | 0 <= i < |acl.networks| :: env.parseCIDR(data.clients[c].allowedCIDRs[i]) == Some(acl.networks[i]))
  {
    RunKeeps(env, ops);
    var data := Run(env, ops).data;
    hide Run, Lawful, Inv, DataInv, NewWorker, ConfigFor, CheckClient, CanonicalClient, CanonicalRelay, ClientEntry, Knows, Text.Itoa;
    ConfigAccepted(env, data, id);
    PayloadInRange(env, data, id);
    if data.relays[id].direction == LISTENER {
      var known := NewWorker(env, ConfigFor(env, data, id)).value.clients;
      KnownServe(env, data, id, known);
      forall c | c in known ensures EntryAgrees(env, data.clients[c], known[c]) && data.clients[c].id == c {
        KnownAgrees(env, data, id, known, c);
      }
    }
  }

  lemma PayloadInRange(env: Env, data: Data, id: string)
    requires DataInv(env, data) && id in data.relays
    ensures 188 <= data.relays[id].payloadSize <= 1456
  {
    RelayFacts(env, data, id);
  }

  lemma KnownServe(env: Env, data: Data, id: string, known: map<string, Admission.ACL>)
    requires Knows(env, data, id, known)
    ensures forall c :: c in known <==> c in data.clients && data.clients[c].enabled && id in data.clients[c].allowedRelayIDs
  {
    hide CheckClient, ClientEntry;
  }

  lemma KnownAgrees(env: Env, data: Data, id: string, known: map<string, Admission.ACL>, c: string)
    requires Lawful(env) && DataInv(env, data) && Knows(env, data, id, known) && c in known
    ensures c in data.clients && data.clients[c].id == c && EntryAgrees(env, data.clients[c], known[c])
  {
    hide Lawful, DataInv, CheckClient, CanonicalClient, ClientEntry;
    ClientFacts(env, data, c);
    EntryChecks(env, data.clients[c]);
    ModeKnown(env, data.clients[c]);
  }

  /** A publish relay's worker is handed the passphrase of the relay's current version if the
      relay encrypts, and none otherwise; a listener's gets none. */
  lemma {:induction false} PublisherSecret(env: Env, ops: seq<Op>, id: string)
    requires Lawful(env) && id in Run(env, ops).data.relays
    ensures var r := Run(env, ops).data.relays[id];
            ConfigFor(env, Run(env, ops).data, id).publishPassphrase ==
            if r.direction == "publish" && r.encryptionMode == "aes-256"
            then env.mac("neotranscoder-srt-publish:" + id + ":" + Text.Itoa(r.keyVersion)) else ""
  {
    hide Run, Text.Itoa, WorkerClients;
  }

  ghost predicate EntryAgrees(env: Env, c: Client, acl: Admission.ACL) {
    && acl.maxSessions == c.maxSessions
    && acl.passphrase == (if c.encryptionMode == AES256 then ClientPassphrase(env, c.id, c.keyVersion) else "")
    && |acl.networks| == |c.allowedCIDRs|
    && forall i | 0 <= i < |acl.networks| :: env.parseCIDR(c.allowedCIDRs[i]) == Some(acl.networks[i])
  }

  lemma ModeKnown(env: Env, c: Client)
    requires CanonicalClient(env, c)
    ensures c.encryptionMode == AES256 || c.encryptionMode == NONE
  {
  }

  /** From the registry to the sessions: whatever the callers do, a session admitted by a
      listener's worker belongs to a client that was enabled and assigned to that relay
      when the worker was started, and that client stays within its stored limit. */
  lemma EndToEndAdmission(env: Env, ops: seq<Op>, id: string, events: seq<Admission.Event>)
    requires Lawful(env) && id in Run(env, ops).data.relays && Run(env, ops).data.relays[id].direction == LISTENER
    requires forall i | 0 <= i < |events| :: Admission.FromBridge(events[i])
    ensures var data := Run(env, ops).data;
            var worker := NewWorker(env, ConfigFor(env, data, id));
            worker.Ok? &&
            var sys := Admission.Run(worker.value, events);
            forall s | s in sys.table.sessions ::
              var c := sys.table.sessions[s].clientID;
              && c in data.clients && data.clients[c].enabled && id in data.clients[c].allowedRelayIDs
              && |Admission.SessionsOf(sys.table, c)| <= data.clients[c].maxSessions
  {
    StoreAndWorkerAgree(env, ops, id);
    var data := Run(env, ops).data;
    var cfg := NewWorker(env, ConfigFor(env, data, id)).value;
    hide Run, Lawful, NewWorker, ConfigFor, Admission.Run, Admission.FromBridge, Text.Itoa;
    forall c | c in cfg.clients ensures c in data.clients && 1 <= cfg.clients[c].maxSessions == data.clients[c].maxSessions {
      LimitPositive(env, ops, c);
    }
    SessionsWithinLimits(cfg, events);
  }

  lemma {:induction false} SessionsWithinLimits(cfg: Admission.Config, events: seq<Admission.Event>)
    requires forall i | 0 <= i < |events| :: Admission.FromBridge(events[i])
    requires forall c | c in cfg.clients :: cfg.clients[c].maxSessions >= 1
    ensures var table := Admission.Run(cfg, events).table;
            forall s | s in table.sessions ::
              var c := table.sessions[s].clientID;
              c in cfg.clients && |Admission.SessionsOf(table, c)| <= cfg.clients[c].maxSessions
  {
    Admission.AdmissionSoundness(cfg, events);
    hide Admission.Run, Admission.FromBridge;
    var table := Admission.Run(cfg, events).table;
    forall s | s in table.sessions
      ensures var c := table.sessions[s].clientID;
              c in cfg.clients && |Admission.SessionsOf(table, c)| <= cfg.clients[c].maxSessions
    {
      var c := table.sessions[s].clientID;
      Admission.AdmissionConservation(cfg, events, c);
    }
  }

  lemma LimitPositive(env: Env, ops: seq<Op>, c: string)
    requires Lawful(env) && c in Run(env, ops).data.clients
    ensures Run(env, ops).data.clients[c].maxSessions >= 1
  {
    RunKeeps(env, ops);
    ClientFacts(env, Run(env, ops).data, c);
  }

  // ---- the code ----

  /** The network loop of newWorker. */
  method CollectNetworks(env: Env, values: seq<string>) returns (r: Result<seq<Admission.Network>>)
    ensures r == ParseNetworks(env, values)
  {
    hide ParseNetworks;
    var networks: seq<Admission.Network> := [];
    NetworksNothing(env);
    assert values[..0] == [] && values[..|values|] == values;
    for i := 0 to |values|
      invariant ParseNetworks(env, values[..i]) == Ok(networks)
    {
      NetworksNext(env, values, i);
      var network := env.parseCIDR(values[i]);
      if network.None? {
        NetworksFail(env, values, i + 1);
        return Err("CIDR");
      }
      networks := networks + [network.value];
    }
    return Ok(networks);
  }

  lemma NetworksNothing(env: Env)
    ensures ParseNetworks(env, []) == Ok([])
  {
  }

  lemma NetworksNext(env: Env, values: seq<string>, i: nat)
    requires i < |values| && ParseNetworks(env, values[..i]).Ok?
    ensures var n := env.parseCIDR(values[i]);
            ParseNetworks(env, values[..i + 1]) ==
              if n.None? then Err("CIDR") else Ok(ParseNetworks(env, values[..i]).value + [n.value])
  {
    assert values[..i + 1][..i] == values[..i];
  }

  lemma {:induction false} NetworksFail(env: Env, values: seq<string>, i: nat)
    requires i <= |values| && ParseNetworks(env, values[..i]).Err?
    ensures ParseNetworks(env, values) == ParseNetworks(env, values[..i])
    decreases |values| - i
  {
    if i < |values| {
      assert values[..i + 1][..i] == values[..i];
      NetworksFail(env, values, i + 1);
    } else {
      assert values[..i] == values;
    }
  }

  /** The body of newWorker's client loop. */
  method MakeACL(env: Env, client: WorkerClient) returns (r: Result<Admission.ACL>)
    ensures r == CheckClient(env, client)
  {
    hide ParseNetworks;
    var mode := client.encryptionMode;
    if mode == "" {
      mode := AES256;
    }
    if client.id == "" || (mode != AES256 && mode != NONE) {
      return Err("invalid client");
    }
    if mode == AES256 && (|client.passphrase| < 10 || |client.passphrase| > 79) {
      return Err("passphrase");
    }
    if mode == NONE && client.passphrase != "" {
      return Err("unexpected passphrase");
    }
    var networks := CollectNetworks(env, client.allowedCIDRs);
    if networks.Err? {
      return Err(networks.reason);
    }
    return Ok(Admission.ACL(client.passphrase, networks.value, client.maxSessions));
  }

  lemma {:induction false} ClientsFail(env: Env, clients: seq<WorkerClient>, i: nat)
    requires i <= |clients| && CheckClients(env, clients[..i]).Err?
    ensures CheckClients(env, clients) == CheckClients(env, clients[..i])
    decreases |clients| - i
  {
    hide CheckClient;
    if i < |clients| {
      assert clients[..i + 1][..i] == clients[..i];
      ClientsFail(env, clients, i + 1);
    } else {
      assert clients[..i] == clients;
    }
  }

  lemma ClientsNext(env: Env, clients: seq<WorkerClient>, i: nat)
    requires i < |clients| && CheckClients(env, clients[..i]).Ok?
    ensures var acl := CheckClient(env, clients[i]);
            CheckClients(env, clients[..i + 1]) ==
              if acl.Err? then Err(acl.reason) else Ok(CheckClients(env, clients[..i]).value[clients[i].id := acl.value])
  {
    hide CheckClient;
    assert clients[..i + 1][..i] == clients[..i];
  }

  lemma ClientsNothing(env: Env)
    ensures CheckClients(env, []) == Ok(map[])
  {
  }

  /** newWorker. */
  method MakeWorker(env: Env, config: WorkerConfig) returns (r: Result<Admission.Config>)
    ensures r == NewWorker(env, config)
  {
    hide CheckClient, CheckClients;
    var relay := config.relay;
    if relay.direction == "" {
      relay := relay.(direction := LISTENER);
    }
    if relay.direction == PUBLISH {
      if relay.encryptionMode == AES256 && (|config.publishPassphrase| < 10 || |config.publishPassphrase| > 79) {
        return Err("publish passphrase");
      }
      if relay.encryptionMode == NONE && config.publishPassphrase != "" {
        return Err("unexpected passphrase");
      }
    }
    if relay.inputTimeoutSeconds == 0 {
      relay := relay.(inputTimeoutSeconds := 10);
    }
    if relay.inputTimeoutSeconds < 3 || relay.inputTimeoutSeconds > 300 {
      return Err("input_timeout_seconds");
    }
    var clients := CollectACLs(env, config.clients);
    if clients.Err? {
      return Err(clients.reason);
    }
    if relay.allowMissingStreamID {
      if relay.direction != LISTENER {
        return Err("listener-only");
      }
      if relay.defaultClientID !in clients.value {
        return Err("default client");
      }
    }
    return Ok(Admission.Config(relay.maxClients, relay.allowMissingStreamID, relay.defaultClientID, clients.value, env.parseIP));
  }

  /** newWorker's client loop. */
  method CollectACLs(env: Env, list: seq<WorkerClient>) returns (r: Result<map<string, Admission.ACL>>)
    ensures r == CheckClients(env, list)
  {
    hide CheckClient, CheckClients;
    var clients: map<string, Admission.ACL> := map[];
    ClientsNothing(env);
    assert list[..0] == [] && list[..|list|] == list;
    for i := 0 to |list|
      invariant CheckClients(env, list[..i]) == Ok(clients)
    {
      ClientsNext(env, list, i);
      var acl := MakeACL(env, list[i]);
      if acl.Err? {
        ClientsFail(env, list, i + 1);
        return Err(acl.reason);
      }
      clients := clients[list[i].id := acl.value];
    }
    return Ok(clients);
  }
}
