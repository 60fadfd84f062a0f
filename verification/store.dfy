/** The registry as the object that the API calls: its maps, its loops and its file. Each
    method is tied to the function of the same name in Records, Registry, Persistence or
    WorkerConfig, about which the properties are proved. */
module Store {
  import opened Wrappers
  import opened Sequences
  import opened Text
  import opened Ordering
  import opened Records
  import Registry
  import Persistence
  import Runs
  import WorkerConfig
  import Sessions

  // ---- normalisers ----

  /** normalizeRelay: its steps in order, each filling in or refusing a field. */
  method MakeCanonicalRelay(env: Env, relay: Relay) returns (r: Result<Relay>)
    ensures r == NormalizeRelay(env, relay)
  {
    hide ValidID, Trim, SafeStreamID;
    var n := relay;
    if !ValidID(n.id) {
      return Err("id");
    }
    if Trim(n.name) == "" {
      n := n.(name := n.id);
    }
    if n.direction == "" {
      n := n.(direction := LISTENER);
    }
    if n.direction != LISTENER && n.direction != PUBLISH {
      return Err("direction");
    }
    if !env.inputURL(n.inputURL) {
      return Err("input_url");
    }
    r := FillSide(env, n);
    if r.Err? {
      return;
    }
    r := FillLimits(r.value);
  }

  method FillSide(env: Env, relay: Relay) returns (r: Result<Relay>)
    ensures r == if relay.direction == PUBLISH then NormalizePublish(env, relay) else NormalizeListener(env, relay)
  {
    hide ValidID, Trim, SafeStreamID;
    var n := relay;
    if n.direction == PUBLISH {
      n := n.(allowMissingStreamID := false, defaultClientID := "", destinationAddress := Trim(n.destinationAddress));
      if !env.destination(n.destinationAddress) {
        return Err("destination_address");
      }
      if n.destinationPort < 1 || n.destinationPort > 65535 {
        return Err("destination_port");
      }
      if !SafeStreamID(n.streamID) {
        return Err("stream_id");
      }
      if n.encryptionMode == "" {
        n := n.(encryptionMode := AES256);
      }
      if n.encryptionMode != AES256 && n.encryptionMode != NONE {
        return Err("encryption_mode");
      }
      if n.keyVersion < 1 {
        n := n.(keyVersion := 1);
      }
      return Ok(n);
    }
    if n.bindAddress == "" {
      n := n.(bindAddress := "0.0.0.0");
    }
    if n.allowMissingStreamID {
      n := n.(defaultClientID := Trim(n.defaultClientID));
      if !ValidID(n.defaultClientID) {
        return Err("default_client_id");
      }
    } else {
      n := n.(defaultClientID := "");
    }
    if env.parseIP(n.bindAddress).None? {
      return Err("bind_address");
    }
    if n.port < 1 || n.port > 65535 {
      return Err("port");
    }
    return Ok(n);
  }

  method FillLimits(relay: Relay) returns (r: Result<Relay>)
    ensures r == NormalizeLimits(relay)
  {
    var n := relay;
    if n.latencyMS == 0 {
      n := n.(latencyMS := 800);
    }
    if n.latencyMS < 20 || n.latencyMS > 60000 {
      return Err("latency_ms");
    }
    if n.payloadSize == 0 {
      n := n.(payloadSize := 1316);
    }
    if n.payloadSize < 188 || n.payloadSize > 1456 || n.payloadSize % 188 != 0 {
      return Err("payload_size");
    }
    if n.maxClients == 0 {
      n := n.(maxClients := 16);
    }
    if n.maxClients < 1 || n.maxClients > 1000 {
      return Err("max_clients");
    }
    if n.inputTimeoutSeconds == 0 {
      n := n.(inputTimeoutSeconds := 10);
    }
    if n.inputTimeoutSeconds < 3 || n.inputTimeoutSeconds > 300 {
      return Err("input_timeout_seconds");
    }
    return Ok(n);
  }

  /** The relay loop of normalizeClientLocked: every relay must listen; repetitions go. */
  method CollectRelays(relays: map<string, Relay>, ids: seq<string>) returns (r: Result<seq<string>>)
    ensures r == if AcceptsClients(relays, ids) then Ok(Listing(Elements(ids))) else Err("relay")
  {
    hide LE;
    var seen: set<string> := {};
    for i := 0 to |ids|
      invariant seen == Elements(ids[..i])
      invariant forall k | 0 <= k < i :: ids[k] in relays && relays[ids[k]].direction == LISTENER
    {
      if ids[i] !in relays {
        return Err("relay");
      }
      if relays[ids[i]].direction != LISTENER {
        return Err("relay");
      }
      assert ids[..i + 1] == ids[..i] + [ids[i]];
      seen := seen + {ids[i]};
    }
    assert ids[..|ids|] == ids;
    var sorted := SortedKeys(seen);
    return Ok(sorted);
  }

  function Prepend(done: seq<string>, rest: Result<seq<string>>): Result<seq<string>> {
    if rest.Err? then rest else Ok(done + rest.value)
  }

  /** The network loop: each entry is replaced by its normal form in place. */
  method NormalizeNetworks(env: Env, mode: string, values: seq<string>) returns (r: Result<seq<string>>)
    ensures r == NormalizeCIDRs(env, mode, values)
  {
    var cidrs := values;
    assert values[0..] == values && values[..0] == [];
    PrependNothing(NormalizeCIDRs(env, mode, values));
    for i := 0 to |values|
      invariant |cidrs| == |values| && cidrs[i..] == values[i..]
      invariant NormalizeCIDRs(env, mode, values) == Prepend(cidrs[..i], NormalizeCIDRs(env, mode, values[i..]))
    {
      var before := cidrs[..i];
      NextNetwork(env, mode, values, i, before);
      assert cidrs[i] == cidrs[i..][0] == values[i..][0] == values[i];
      var normalized := env.normalizeCIDR(cidrs[i]);
      if normalized.None? {
        return Err("allowed_cidrs");
      }
      if mode == NONE && env.unrestricted(normalized.value) {
        return Err("unrestricted");
      }
      cidrs := cidrs[i := normalized.value];
      assert cidrs[..i + 1] == before + [normalized.value];
      assert cidrs[i + 1..] == values[i + 1..];
    }
    assert values[|values|..] == [] && cidrs[..|values|] == cidrs && cidrs + [] == cidrs;
    assert NormalizeCIDRs(env, mode, []) == Ok([]);
    return Ok(cidrs);
  }

  lemma PrependNothing(r: Result<seq<string>>)
    ensures Prepend([], r) == r
  {
    if r.Ok? { assert [] + r.value == r.value; }
  }

  lemma NextNetwork(env: Env, mode: string, values: seq<string>, i: nat, before: seq<string>)
    requires i < |values|
    ensures var n := env.normalizeCIDR(values[i]);
            Prepend(before, NormalizeCIDRs(env, mode, values[i..])) ==
              if n.None? then Err("allowed_cidrs")
              else if mode == NONE && env.unrestricted(n.value) then Err("unrestricted")
              else Prepend(before + [n.value], NormalizeCIDRs(env, mode, values[i + 1..]))
  {
    assert values[i..][0] == values[i] && values[i..][1..] == values[i + 1..];
    var n, rest := env.normalizeCIDR(values[i]), NormalizeCIDRs(env, mode, values[i + 1..]);
    if n.Some? && rest.Ok? {
      Assoc(before, [n.value], rest.value);
    }
  }

  /** normalizeClientLocked. */
  method MakeCanonicalClient(env: Env, relays: map<string, Relay>, client: Client) returns (r: Result<Client>)
    ensures r == NormalizeClient(env, relays, client)
  {
    hide ValidID, Trim, Listing, Elements, Sort, NormalizeCIDRs, AcceptsClients;
    var c := client;
    if !ValidID(c.id) {
      return Err("id");
    }
    if Trim(c.name) == "" {
      c := c.(name := c.id);
    }
    if c.encryptionMode == "" {
      c := c.(encryptionMode := AES256);
    }
    if c.encryptionMode != AES256 && c.encryptionMode != NONE {
      return Err("encryption_mode");
    }
    if |c.allowedRelayIDs| == 0 {
      return Err("allowed_relay_ids");
    }
    var ids := CollectRelays(relays, c.allowedRelayIDs);
    if ids.Err? {
      return Err(ids.reason);
    }
    c := c.(allowedRelayIDs := ids.value);
    if |c.allowedCIDRs| == 0 {
      return Err("allowed_cidrs");
    }
    var cidrs := NormalizeNetworks(env, c.encryptionMode, c.allowedCIDRs);
    if cidrs.Err? {
      return Err(cidrs.reason);
    }
    c := c.(allowedCIDRs := Sort(cidrs.value));
    if c.maxSessions == 0 {
      c := c.(maxSessions := 1);
    }
    if c.maxSessions < 1 || c.maxSessions > 1000 {
      return Err("max_sessions");
    }
    if c.keyVersion < 1 {
      c := c.(keyVersion := 1);
    }
    return Ok(c);
  }

  // ---- the file ----

  /** The state file: the records in the order of their IDs. */
  datatype Image = Image(relays: seq<Relay>, clients: seq<Client>)

  ghost function ImageOf(data: Registry.Data): Image {
    Image(Persistence.SavedRelays(data), Persistence.SavedClients(data))
  }

  /** Records by ID, in the order of the IDs. */
  method InOrder<V>(m: map<string, V>) returns (records: seq<V>)
    ensures Persistence.Matches(m, Listing(m.Keys), records)
  {
    var ids := SortedKeys(m.Keys);
    records := [];
    for i := 0 to |ids|
      invariant |records| == i
      invariant forall k | 0 <= k < i :: ids[k] in m && records[k] == m[ids[k]]
    {
      assert ids[i] in Elements(ids);
      records := records + [m[ids[i]]];
    }
  }

  lemma MatchesUnique<V>(m: map<string, V>, ids: seq<string>, a: seq<V>, b: seq<V>)
    requires Persistence.Matches(m, ids, a) && Persistence.Matches(m, ids, b)
    ensures a == b
  {
  }

  // ---- the object ----

  /** Clients with an active session. */
  function Busy(h: Sessions.History): set<string> {
    set id | id in h && h[id].disconnectedAt.None? :: h[id].clientID
  }

  lemma BusyMeans(h: Sessions.History, clientID: string)
    ensures clientID in Busy(h) <==> exists s | s in h :: h[s].clientID == clientID && h[s].disconnectedAt.None?
  {
  }

  /** In every run a client with an open session keeps counting as busy, so that it cannot be
      deleted, until that session is reported again or its relay's sessions are closed. */
  lemma ActiveClientStays(states: seq<Sessions.State>, events: seq<Sessions.Event>, i: nat, id: string)
    requires Sessions.IsRun(states, events) && i < |events|
    requires id in states[i].history && states[i].history[id].disconnectedAt.None?
    requires (events[i].Connect? || events[i].Disconnect?) ==> events[i].session.id != id
    requires events[i].CloseAll? ==> events[i].relayID != states[i].history[id].relayID
    ensures states[i].history[id].clientID in Busy(states[i + 1].history)
  {
    Sessions.SessionExactly(states, events, i, id);
    hide Sessions.IsRun;
  }

  class Store {
    const env: Env
    const log: Sessions.Log
    var relays: map<string, Relay>
    var clients: map<string, Client>
    var states: map<string, string>
    var file: Option<Image>
    ghost var saved: Option<Registry.Data>

    ghost predicate Valid()
      reads this
    {
      file == if saved.Some? then Some(ImageOf(saved.value)) else None
    }

    ghost function View(): Registry.Registry
      reads this, log
    {
      Registry.Registry(Registry.Data(relays, clients), states, Busy(log.sessions), saved)
    }

    /** Before load: nothing but the file. */
    constructor (env: Env, file: Option<Image>, ghost saved: Option<Registry.Data>)
      requires file == if saved.Some? then Some(ImageOf(saved.value)) else None
      ensures Valid() && fresh(log) && this.env == env
      ensures View() == Registry.Registry(Registry.Data(map[], map[]), map[], {}, saved)
      ensures relays == map[] && clients == map[] && states == map[]
    {
      this.env := env;
      log := new Sessions.Log();
      relays, clients, states := map[], map[], map[];
      this.file, this.saved := file, saved;
    }

    /** saveLocked; `writes` says whether every step of the write succeeds. */
    method Save(writes: bool) returns (ok: bool)
      requires Valid()
      modifies this`file, this`saved
      ensures Valid() && ok == writes && View() == Registry.Save(old(View()), writes)
    {
      hide Persistence.Matches, Persistence.SavedRelays, Persistence.SavedClients;
      if !writes {
        return false;
      }
      var rs := InOrder(relays);
      var cs := InOrder(clients);
      saved := Some(Registry.Data(relays, clients));
      MatchesUnique(relays, Listing(relays.Keys), rs, Persistence.SavedRelays(saved.value));
      MatchesUnique(clients, Listing(clients.Keys), cs, Persistence.SavedClients(saved.value));
      file := Some(Image(rs, cs));
      return true;
    }

    /** The loop over the relays of UpsertRelay. */
    method FindConflict(r: Relay) returns (taken: bool)
      ensures taken == !Registry.ConflictFree(Registry.Data(relays, clients), r)
    {
      var todo := relays.Keys;
      while todo != {}
        invariant todo <= relays.Keys
        invariant forall id | id in relays && id !in todo && id != r.id :: !Registry.Conflicts(r, relays[id])
        decreases |todo|
      {
        var id :| id in todo;
        todo := todo - {id};
        if id != r.id && Registry.Conflicts(r, relays[id]) {
          return true;
        }
      }
      return false;
    }

    /** validateRelayDefaultClientLocked. */
    method CheckDefaultClient(r: Relay) returns (ok: bool)
      ensures ok == Registry.DefaultClientOk(Registry.Data(relays, clients), r)
    {
      if !r.allowMissingStreamID {
        return true;
      }
      if r.defaultClientID !in clients {
        return false;
      }
      var client := clients[r.defaultClientID];
      return client.enabled && r.id in client.allowedRelayIDs;
    }

    method UpsertRelay(relay: Relay, writes: bool) returns (r: Result<Registry.Issued>)
      requires Valid()
      modifies this
      ensures Valid() && (View(), r) == Registry.UpsertRelay(env, old(View()), relay, writes)
    {
      hide NormalizeRelay, Registry.ConflictFree, Registry.DefaultClientOk, Registry.RelayPassphrase, ImageOf;
      NormalizeKeepsID(env, relay);
      var n := MakeCanonicalRelay(env, relay);
      if n.Err? {
        return Err(n.reason);
      }
      var normalized := n.value;
      var known := normalized.id in relays;
      var issues := !known && Registry.Encrypts(normalized);
      if known {
        normalized := normalized.(keyVersion := relays[normalized.id].keyVersion);
        if Registry.Encrypts(normalized) && !Registry.Encrypts(relays[normalized.id]) {
          normalized := normalized.(keyVersion := normalized.keyVersion + 1);
          issues := true;
        }
      }
      assert (normalized, issues) == Registry.RelayToStore(Registry.Data(relays, clients), n.value);
      var taken := FindConflict(normalized);
      if taken {
        return Err("listener in use");
      }
      var ok := CheckDefaultClient(normalized);
      if !ok {
        return Err("default client");
      }
      relays := relays[normalized.id := normalized];
      if normalized.id !in states {
        states := states[normalized.id := "stopped"];
      }
      ok := Save(writes);
      if !ok {
        return Err("save");
      }
      return Ok(Registry.Issued(normalized.keyVersion,
                if issues then Some(Registry.RelayPassphrase(env, normalized.id, normalized.keyVersion)) else None));
    }

    method RotateRelayKey(id: string, writes: bool) returns (r: Result<Registry.Issued>)
      requires Valid()
      modifies this
      ensures Valid() && (View(), r) == Registry.RotateRelayKey(env, old(View()), id, writes)
    {
      hide Registry.RelayPassphrase, ImageOf;
      if id !in relays {
        return Err("not found");
      }
      var relay := relays[id];
      if relay.direction != PUBLISH {
        return Err("not a publish relay");
      }
      if relay.encryptionMode == NONE {
        return Err("encryption is disabled");
      }
      relay := relay.(keyVersion := relay.keyVersion + 1);
      relays := relays[id := relay];
      var ok := Save(writes);
      if !ok {
        return Err("save");
      }
      return Ok(Registry.Issued(relay.keyVersion, Some(Registry.RelayPassphrase(env, relay.id, relay.keyVersion))));
    }

    /** The loop over the clients of DeleteRelay. */
    method IsAssigned(relayID: string) returns (inUse: bool)
      ensures inUse == Registry.Assigned(Registry.Data(relays, clients), relayID)
    {
      var todo := clients.Keys;
      while todo != {}
        invariant todo <= clients.Keys
        invariant forall c | c in clients && c !in todo :: relayID !in clients[c].allowedRelayIDs
        decreases |todo|
      {
        var c :| c in todo;
        todo := todo - {c};
        if relayID in clients[c].allowedRelayIDs {
          return true;
        }
      }
      return false;
    }

    method DeleteRelay(id: string, writes: bool) returns (r: Result<bool>)
      requires Valid()
      modifies this
      ensures Valid() && (View(), r) == Registry.DeleteRelay(old(View()), id, writes)
    {
      hide Registry.Assigned, ImageOf;
      if id !in relays {
        return Ok(false);
      }
      var status := if id in states then states[id] else "stopped";
      if status != "stopped" && status != "error" && status != "flapping" {
        return Err("must be stopped");
      }
      var inUse := IsAssigned(id);
      if inUse {
        return Err("assigned");
      }
      relays, states := relays - {id}, states - {id};
      var ok := Save(writes);
      if !ok {
        return Err("save");
      }
      return Ok(true);
    }

    /** The loop over the relays of upsertClient. */
    method KeepsDefaults(c: Client) returns (ok: bool)
      ensures ok == Registry.DefaultsKept(Registry.Data(relays, clients), c)
    {
      var todo := relays.Keys;
      while todo != {}
        invariant todo <= relays.Keys
        invariant forall id | id in relays && id !in todo && relays[id].allowMissingStreamID && relays[id].defaultClientID == c.id ::
                    c.enabled && relays[id].id in c.allowedRelayIDs
        decreases |todo|
      {
        var id :| id in todo;
        todo := todo - {id};
        var relay := relays[id];
        if relay.allowMissingStreamID && relay.defaultClientID == c.id && (!c.enabled || relay.id !in c.allowedRelayIDs) {
          return false;
        }
      }
      return true;
    }

    method UpsertClient(client: Client, createOnly: bool, now: int, writes: bool) returns (r: Result<Registry.Issued>)
      requires Valid()
      modifies this
      ensures Valid() && (View(), r) == Registry.UpsertClient(env, old(View()), client, createOnly, now, writes)
    {
      hide NormalizeClient, Registry.DefaultsKept, Registry.ClientPassphrase, ImageOf;
      var known := client.id in clients;
      if createOnly && known {
        return Err("already exists");
      }
      var c := client;
      if known {
        c := c.(createdAt := clients[client.id].createdAt, keyVersion := clients[client.id].keyVersion);
      } else {
        c := c.(createdAt := now, keyVersion := 1);
      }
      c := c.(updatedAt := now);
      NormalizeClientKeepsID(env, relays, c);
      var n := MakeCanonicalClient(env, relays, c);
      if n.Err? {
        return Err(n.reason);
      }
      var ok := KeepsDefaults(n.value);
      if !ok {
        return Err("compatibility default");
      }
      var normalized := n.value;
      var issues := !known && normalized.encryptionMode == AES256;
      if known && clients[client.id].encryptionMode == NONE && normalized.encryptionMode == AES256 {
        normalized := normalized.(keyVersion := normalized.keyVersion + 1);
        issues := true;
      }
      clients := clients[normalized.id := normalized];
      ok := Save(writes);
      if !ok {
        return Err("save");
      }
      return Ok(Registry.Issued(normalized.keyVersion,
                if issues then Some(Registry.ClientPassphrase(env, normalized.id, normalized.keyVersion)) else None));
    }

    method RotateClientKey(id: string, now: int, writes: bool) returns (r: Result<Registry.Issued>)
      requires Valid()
      modifies this
      ensures Valid() && (View(), r) == Registry.RotateClientKey(env, old(View()), id, now, writes)
    {
      hide Registry.ClientPassphrase, ImageOf;
      if id !in clients {
        return Err("not found");
      }
      var client := clients[id];
      if client.encryptionMode == NONE {
        return Err("encryption is disabled");
      }
      client := client.(keyVersion := client.keyVersion + 1, updatedAt := now);
      clients := clients[id := client];
      var ok := Save(writes);
      if !ok {
        return Err("save");
      }
      return Ok(Registry.Issued(client.keyVersion, Some(Registry.ClientPassphrase(env, client.id, client.keyVersion))));
    }

    /** The two loops of DeleteClient. */
    method IsDefaultClient(id: string) returns (found: bool)
      ensures found == Registry.IsDefault(Registry.Data(relays, clients), id)
    {
      var todo := relays.Keys;
      while todo != {}
        invariant todo <= relays.Keys
        invariant forall r | r in relays && r !in todo :: !(relays[r].allowMissingStreamID && relays[r].defaultClientID == id)
        decreases |todo|
      {
        var r :| r in todo;
        todo := todo - {r};
        if relays[r].allowMissingStreamID && relays[r].defaultClientID == id {
          return true;
        }
      }
      return false;
    }

    method HasActiveSession(clientID: string) returns (found: bool)
      ensures found == (clientID in Busy(log.sessions))
    {
      var todo := log.sessions.Keys;
      while todo != {}
        invariant todo <= log.sessions.Keys
        invariant forall s | s in log.sessions && s !in todo ::
                    !(log.sessions[s].clientID == clientID && log.sessions[s].disconnectedAt.None?)
        decreases |todo|
      {
        var s :| s in todo;
        todo := todo - {s};
        if log.sessions[s].clientID == clientID && log.sessions[s].disconnectedAt.None? {
          return true;
        }
      }
      return false;
    }

    method DeleteClient(id: string, writes: bool) returns (r: Result<bool>)
      requires Valid()
      modifies this
      ensures Valid() && (View(), r) == Registry.DeleteClient(old(View()), id, writes)
    {
      hide Registry.IsDefault, ImageOf, Busy;
      if id !in clients {
        return Ok(false);
      }
      var isDefault := IsDefaultClient(id);
      if isDefault {
        return Err("compatibility default");
      }
      var active := HasActiveSession(id);
      if active {
        return Err("active session");
      }
      clients := clients - {id};
      var ok := Save(writes);
      if !ok {
        return Err("save");
      }
      return Ok(true);
    }

    method WorkerClients(relayID: string) returns (out: seq<WorkerConfig.WorkerClient>)
      ensures out == WorkerConfig.WorkerClients(env, Registry.Data(relays, clients), relayID)
    {
      ghost var data := Registry.Data(relays, clients);
      WorkerConfig.ListedClients(data);
      hide WorkerConfig.Entries, Registry.ClientPassphrase, Listing;
      var ids := SortedKeys(clients.Keys);
      out := [];
      NoEntries(env, data, relayID);
      assert ids[..0] == [];
      for n := 0 to |ids|
        invariant out == WorkerConfig.Entries(env, data, ids[..n], relayID)
      {
        WorkerConfig.EntriesLast(env, data, ids[..n], ids[n], relayID);
        assert ids[..n + 1] == ids[..n] + [ids[n]];
        var client := clients[ids[n]];
        if !client.enabled || relayID !in client.allowedRelayIDs {
          continue;
        }
        var entry := WorkerConfig.WorkerClient(client.id, client.encryptionMode, "", client.allowedCIDRs, client.maxSessions);
        if client.encryptionMode == AES256 {
          entry := entry.(passphrase := Registry.ClientPassphrase(env, client.id, client.keyVersion));
        }
        out := out + [entry];
      }
      assert ids[..|ids|] == ids;
    }

    /** The status part of ApplyWorkerEvent, with the audit record it causes. */
    method ApplyStatus(e: Sessions.StatusEvent) returns (transition: Option<Sessions.Transition>)
      requires e.Ready? || e.Metrics? || e.Error?
      modifies this`states
      ensures forall trail ::
                Sessions.ApplyStatus(Sessions.Board(old(states), trail), e) ==
                Sessions.Board(states, if transition.Some? then trail + [transition.value] else trail)
    {
      transition := None;
      var status := if e.relay in states then states[e.relay] else "stopped";
      match e {
        case Ready(_) => status := "running";
        case Metrics(_, reason) =>
          if reason != "" && status != Sessions.DEGRADED {
            status := Sessions.DEGRADED;
            transition := Some(Sessions.Stalled(e.relay));
          } else if reason == "" && status == Sessions.DEGRADED {
            status := "running";
            transition := Some(Sessions.Restored(e.relay));
          }
        case Error(_) => status := "error";
      }
      states := states[e.relay := status];
    }

    /** The two loops of load. */
    method LoadRelays(records: seq<Relay>) returns (ok: bool)
      requires relays == map[] && states == map[]
      modifies this`relays, this`states
      ensures ok == Persistence.LoadRelays(env, records).Ok?
      ensures ok ==> relays == Persistence.LoadRelays(env, records).value && states == map id | id in relays :: "stopped"
    {
      hide Persistence.LoadRelays, NormalizeRelay;
      LoadNothing(env);
      assert records[..0] == [] && records[..|records|] == records;
      for i := 0 to |records|
        invariant Persistence.LoadRelays(env, records[..i]) == Ok(relays)
        invariant states == map id | id in relays :: "stopped"
      {
        NextRelay(env, records, i);
        var n := MakeCanonicalRelay(env, records[i]);
        if n.Err? {
          RelaysFail(env, records, i + 1);
          return false;
        }
        relays := relays[n.value.id := n.value];
        states := states[n.value.id := "stopped"];
      }
      return true;
    }

    method LoadClients(records: seq<Client>) returns (ok: bool)
      requires clients == map[]
      modifies this`clients
      ensures ok == Persistence.LoadClients(env, relays, records).Ok?
      ensures ok ==> clients == Persistence.LoadClients(env, relays, records).value
    {
      hide Persistence.LoadClients, NormalizeClient;
      LoadNothing(env);
      assert records[..0] == [] && records[..|records|] == records;
      for i := 0 to |records|
        invariant Persistence.LoadClients(env, relays, records[..i]) == Ok(clients)
      {
        NextClient(env, relays, records, i);
        var n := MakeCanonicalClient(env, relays, records[i]);
        if n.Err? {
          ClientsFail(env, relays, records, i + 1);
          return false;
        }
        clients := clients[n.value.id := n.value];
      }
      return true;
    }

    /** load, on a store that has just been made. */
    method Load() returns (ok: bool)
      requires Valid() && relays == map[] && clients == map[] && states == map[]
      modifies this`relays, this`clients, this`states
      ensures saved.None? ==> ok && View() == old(View())
      ensures saved.Some? ==>
                var loaded := Persistence.Reload(env, saved.value);
                && ok == loaded.Ok?
                && (ok ==> Registry.Data(relays, clients) == loaded.value && states == map id | id in relays :: "stopped")
    {
      hide Persistence.Load, Persistence.LoadRelays, Persistence.LoadClients, Persistence.SavedRelays, Persistence.SavedClients;
      if file.None? {
        return true;
      }
      LoadOutcome(env, file.value.relays, file.value.clients);
      ok := LoadRelays(file.value.relays);
      if !ok {
        return;
      }
      ok := LoadClients(file.value.clients);
      if !ok {
        return;
      }
      ok := CheckDefaults();
    }

    /** The cross-check that ends load. */
    method CheckDefaults() returns (ok: bool)
      ensures ok == forall r | r in relays :: Registry.DefaultClientOk(Registry.Data(relays, clients), relays[r])
    {
      hide Registry.DefaultClientOk;
      var todo := relays.Keys;
      while todo != {}
        invariant todo <= relays.Keys
        invariant forall r | r in relays && r !in todo :: Registry.DefaultClientOk(Registry.Data(relays, clients), relays[r])
        decreases |todo|
      {
        var r :| r in todo;
        todo := todo - {r};
        var fine := CheckDefaultClient(relays[r]);
        if !fine {
          return false;
        }
      }
      return true;
    }
  }

  /** NewStore: what comes up from the state file that an earlier life left. */
  method NewStore(env: Env, file: Option<Image>, ghost before: Registry.Registry) returns (store: Store, ok: bool)
    requires file == if before.file.Some? then Some(ImageOf(before.file.value)) else None
    ensures fresh(store) && store.Valid() && store.env == env
    ensures ok == Runs.Restarted(env, before).1
    ensures ok ==> store.View() == Runs.Restarted(env, before).0
  {
    hide Persistence.Reload, ImageOf;
    store := new Store(env, file, before.file);
    ok := store.Load();
  }

  // ---- facts for the methods ----

  lemma NormalizeKeepsID(env: Env, relay: Relay)
    ensures NormalizeRelay(env, relay).Ok? ==> NormalizeRelay(env, relay).value.id == relay.id
  {
    if NormalizeRelay(env, relay).Ok? { NormalizedRelayIsCanonical(env, relay); }
  }

  lemma NormalizeClientKeepsID(env: Env, relays: map<string, Relay>, c: Client)
    ensures NormalizeClient(env, relays, c).Ok? ==> NormalizeClient(env, relays, c).value.id == c.id
  {
    hide ValidID, Trim, Listing, Elements, Sort, NormalizeCIDRs, AcceptsClients;
  }

  lemma NoEntries(env: Env, data: Registry.Data, relayID: string)
    ensures WorkerConfig.Entries(env, data, [], relayID) == []
  {
  }

  lemma LoadNothing(env: Env)
    ensures Persistence.LoadRelays(env, []) == Ok(map[])
    ensures forall relays :: Persistence.LoadClients(env, relays, []) == Ok(map[])
  {
  }

  lemma NextRelay(env: Env, relays: seq<Relay>, i: nat)
    requires i < |relays|
    ensures var before, n := Persistence.LoadRelays(env, relays[..i]), NormalizeRelay(env, relays[i]);
            Persistence.LoadRelays(env, relays[..i + 1]) ==
              if before.Err? then before else if n.Err? then Err(n.reason) else Ok(before.value[n.value.id := n.value])
  {
    hide NormalizeRelay;
    assert relays[..i + 1][..i] == relays[..i];
  }

  lemma NextClient(env: Env, relays: map<string, Relay>, clients: seq<Client>, i: nat)
    requires i < |clients|
    ensures var before, n := Persistence.LoadClients(env, relays, clients[..i]), NormalizeClient(env, relays, clients[i]);
            Persistence.LoadClients(env, relays, clients[..i + 1]) ==
              if before.Err? then before else if n.Err? then Err(n.reason) else Ok(before.value[n.value.id := n.value])
  {
    hide NormalizeClient;
    assert clients[..i + 1][..i] == clients[..i];
  }

  lemma {:induction false} RelaysFail(env: Env, relays: seq<Relay>, i: nat)
    requires i <= |relays| && Persistence.LoadRelays(env, relays[..i]).Err?
    ensures Persistence.LoadRelays(env, relays).Err?
    decreases |relays| - i
  {
    hide NormalizeRelay, Persistence.LoadRelays;
    if i < |relays| {
      NextRelay(env, relays, i);
      RelaysFail(env, relays, i + 1);
    } else {
      assert relays[..i] == relays;
    }
  }

  lemma {:induction false} ClientsFail(env: Env, relays: map<string, Relay>, clients: seq<Client>, i: nat)
    requires i <= |clients| && Persistence.LoadClients(env, relays, clients[..i]).Err?
    ensures Persistence.LoadClients(env, relays, clients).Err?
    decreases |clients| - i
  {
    hide NormalizeClient, Persistence.LoadClients;
    if i < |clients| {
      NextClient(env, relays, clients, i);
      ClientsFail(env, relays, clients, i + 1);
    } else {
      assert clients[..i] == clients;
    }
  }

  lemma LoadOutcome(env: Env, relays: seq<Relay>, clients: seq<Client>)
    ensures var rs := Persistence.LoadRelays(env, relays);
            var loaded := Persistence.Load(env, relays, clients);
            && (rs.Err? ==> loaded.Err?)
            && (rs.Ok? ==>
                  var cs := Persistence.LoadClients(env, rs.value, clients);
                  && (cs.Err? ==> loaded.Err?)
                  && (cs.Ok? ==>
                        var data := Registry.Data(rs.value, cs.value);
                        loaded == if forall r | r in rs.value :: Registry.DefaultClientOk(data, rs.value[r]) then Ok(data)
                                  else Err("default client")))
  {
    hide Persistence.LoadRelays, Persistence.LoadClients, Registry.DefaultClientOk;
  }
}
