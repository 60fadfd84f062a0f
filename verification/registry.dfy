/** The SRT registry: relays, clients and their cross-references, every operation as a
    function of the whole state, and the invariant that each keeps even when saving fails.
    Runs of operations are in Runs. */
module Registry {
  import opened Wrappers
  import opened Text
  import opened Records

  /** What is persisted. */
  datatype Data = Data(relays: map<string, Relay>, clients: map<string, Client>)

  /** `busy` holds the clients with an active session; `file` is the state file. */
  datatype Registry = Registry(data: Data, states: map<string, string>, busy: set<string>, file: Option<Data>)

  /** A view or credential: the record's key version and, if a key was issued, the passphrase. */
  datatype Issued = Issued(keyVersion: int, passphrase: Option<string>)

  const EMPTY: Registry := Registry(Data(map[], map[]), map[], {}, None)

  // ---- passphrases ----

  function RelayPassphrase(env: Env, id: string, version: int): string {
    env.mac("neotranscoder-srt-publish:" + id + ":" + Itoa(version))
  }

  function ClientPassphrase(env: Env, id: string, version: int): string {
    env.mac("neotranscoder-srt:" + id + ":" + Itoa(version))
  }

  predicate Encrypts(relay: Relay) {
    relay.direction == PUBLISH && relay.encryptionMode == AES256
  }

  // ---- operations ----

  /** saveLocked: the file changes only if every step of the write succeeds. */
  function Save(reg: Registry, ok: bool): Registry {
    if ok then reg.(file := Some(reg.data)) else reg
  }

  predicate Conflicts(r: Relay, other: Relay) {
    && r.direction == LISTENER && other.direction == LISTENER
    && r.bindAddress == other.bindAddress && r.port == other.port
  }

  predicate DefaultClientOk(data: Data, r: Relay) {
    r.allowMissingStreamID ==>
      && r.defaultClientID in data.clients
      && data.clients[r.defaultClientID].enabled
      && r.id in data.clients[r.defaultClientID].allowedRelayIDs
  }

  predicate ConflictFree(data: Data, r: Relay) {
    forall id | id in data.relays && id != r.id :: !Conflicts(r, data.relays[id])
  }

  /** The record UpsertRelay would store, and whether it issues a passphrase. */
  function RelayToStore(data: Data, normalized: Relay): (Relay, bool) {
    if normalized.id !in data.relays then (normalized, Encrypts(normalized))
    else
      var existing := data.relays[normalized.id];
      var reissued := Encrypts(normalized) && !Encrypts(existing);
      (normalized.(keyVersion := existing.keyVersion + if reissued then 1 else 0), reissued)
  }

  ghost function UpsertRelay(env: Env, reg: Registry, relay: Relay, saved: bool): (Registry, Result<Issued>) {
    var normalized := NormalizeRelay(env, relay);
    if normalized.Err? then (reg, Err(normalized.reason))
    else
      var (r, issues) := RelayToStore(reg.data, normalized.value);
      if !ConflictFree(reg.data, r) then (reg, Err("listener in use"))
      else if !DefaultClientOk(reg.data, r) then (reg, Err("default client"))
      else
        var reg' := Save(reg.(data := reg.data.(relays := reg.data.relays[r.id := r]),
                              states := if r.id in reg.states then reg.states else reg.states[r.id := "stopped"]), saved);
        if !saved then (reg', Err("save"))
        else (reg', Ok(Issued(r.keyVersion, if issues then Some(RelayPassphrase(env, r.id, r.keyVersion)) else None)))
  }

  function RotateRelayKey(env: Env, reg: Registry, id: string, saved: bool): (Registry, Result<Issued>) {
    if id !in reg.data.relays then (reg, Err("not found"))
    else
      var relay := reg.data.relays[id];
      if relay.direction != PUBLISH then (reg, Err("not a publish relay"))
      else if relay.encryptionMode == NONE then (reg, Err("encryption is disabled"))
      else
        var r := relay.(keyVersion := relay.keyVersion + 1);
        var reg' := Save(reg.(data := reg.data.(relays := reg.data.relays[id := r])), saved);
        if !saved then (reg', Err("save"))
        else (reg', Ok(Issued(r.keyVersion, Some(RelayPassphrase(env, r.id, r.keyVersion)))))
  }

  function StatusOf(reg: Registry, id: string): string {
    if id in reg.states then reg.states[id] else "stopped"
  }

  predicate Assigned(data: Data, relayID: string) {
    exists c | c in data.clients :: relayID in data.clients[c].allowedRelayIDs
  }

  function DeleteRelay(reg: Registry, id: string, saved: bool): (Registry, Result<bool>) {
    if id !in reg.data.relays then (reg, Ok(false))
    else if StatusOf(reg, id) !in {"stopped", "error", "flapping"} then (reg, Err("must be stopped"))
    else if Assigned(reg.data, id) then (reg, Err("assigned"))
    else
      var reg' := Save(reg.(data := reg.data.(relays := reg.data.relays - {id}), states := reg.states - {id}), saved);
      (reg', if saved then Ok(true) else Err("save"))
  }

  /** Relays that count on this client as their compatibility default keep it usable. */
  predicate DefaultsKept(data: Data, c: Client) {
    forall id | id in data.relays && data.relays[id].allowMissingStreamID && data.relays[id].defaultClientID == c.id ::
      c.enabled && data.relays[id].id in c.allowedRelayIDs
  }

  function Stamped(data: Data, c: Client, now: int): Client {
    if c.id in data.clients
    then c.(createdAt := data.clients[c.id].createdAt, keyVersion := data.clients[c.id].keyVersion, updatedAt := now)
    else c.(createdAt := now, keyVersion := 1, updatedAt := now)
  }

  function ClientToStore(data: Data, normalized: Client): (Client, bool) {
    if normalized.id !in data.clients then (normalized, normalized.encryptionMode == AES256)
    else
      var reissued := data.clients[normalized.id].encryptionMode == NONE && normalized.encryptionMode == AES256;
      (normalized.(keyVersion := normalized.keyVersion + if reissued then 1 else 0), reissued)
  }

  ghost function UpsertClient(env: Env, reg: Registry, client: Client, createOnly: bool, now: int, saved: bool): (Registry, Result<Issued>) {
    if createOnly && client.id in reg.data.clients then (reg, Err("already exists"))
    else
      var normalized := NormalizeClient(env, reg.data.relays, Stamped(reg.data, client, now));
      if normalized.Err? then (reg, Err(normalized.reason))
      else if !DefaultsKept(reg.data, normalized.value) then (reg, Err("compatibility default"))
      else
        var (c, issues) := ClientToStore(reg.data, normalized.value);
        var reg' := Save(reg.(data := reg.data.(clients := reg.data.clients[c.id := c])), saved);
        if !saved then (reg', Err("save"))
        else (reg', Ok(Issued(c.keyVersion, if issues then Some(ClientPassphrase(env, c.id, c.keyVersion)) else None)))
  }

  function RotateClientKey(env: Env, reg: Registry, id: string, now: int, saved: bool): (Registry, Result<Issued>) {
    if id !in reg.data.clients then (reg, Err("not found"))
    else if reg.data.clients[id].encryptionMode == NONE then (reg, Err("encryption is disabled"))
    else
      var c := reg.data.clients[id].(keyVersion := reg.data.clients[id].keyVersion + 1, updatedAt := now);
      var reg' := Save(reg.(data := reg.data.(clients := reg.data.clients[id := c])), saved);
      if !saved then (reg', Err("save"))
      else (reg', Ok(Issued(c.keyVersion, Some(ClientPassphrase(env, c.id, c.keyVersion)))))
  }

  predicate IsDefault(data: Data, clientID: string) {
    exists r | r in data.relays :: data.relays[r].allowMissingStreamID && data.relays[r].defaultClientID == clientID
  }

  function DeleteClient(reg: Registry, id: string, saved: bool): (Registry, Result<bool>) {
    if id !in reg.data.clients then (reg, Ok(false))
    else if IsDefault(reg.data, id) then (reg, Err("compatibility default"))
    else if id in reg.busy then (reg, Err("active session"))
    else
      var reg' := Save(reg.(data := reg.data.(clients := reg.data.clients - {id})), saved);
      (reg', if saved then Ok(true) else Err("save"))
  }

  // ---- the invariant ----

  /** Every record is stored under its own ID in canonical form, and the references hold. */
  ghost predicate DataInv(env: Env, data: Data) {
    && (forall id | id in data.relays :: data.relays[id].id == id && CanonicalRelay(env, data.relays[id]))
    && (forall id | id in data.clients :: data.clients[id].id == id && CanonicalClient(env, data.clients[id]))
    && ReferencesHold(data)
  }

  predicate ReferencesHold(data: Data) {
    && (forall c, i | c in data.clients && 0 <= i < |data.clients[c].allowedRelayIDs| ::
          data.clients[c].allowedRelayIDs[i] in data.relays)
    && (forall r | r in data.relays :: DefaultClientOk(data, data.relays[r]))
    && (forall r, s | r in data.relays && s in data.relays && r != s :: !Conflicts(data.relays[r], data.relays[s]))
  }

  lemma RelayFacts(env: Env, data: Data, id: string)
    requires DataInv(env, data) && id in data.relays
    ensures data.relays[id].id == id && CanonicalRelay(env, data.relays[id])
  {
  }

  lemma ClientFacts(env: Env, data: Data, id: string)
    requires DataInv(env, data) && id in data.clients
    ensures data.clients[id].id == id && CanonicalClient(env, data.clients[id])
  {
  }

  ghost predicate Inv(env: Env, reg: Registry) {
    && DataInv(env, reg.data)
    && reg.data.relays.Keys <= reg.states.Keys
    && (reg.file.Some? ==> DataInv(env, reg.file.value))
  }

  lemma StoredRelayCanonical(env: Env, data: Data, relay: Relay)
    requires NormalizeRelay(env, relay).Ok?
    ensures var r := RelayToStore(data, NormalizeRelay(env, relay).value).0;
            CanonicalRelay(env, r) && r.id == relay.id
  {
    NormalizedRelayIsCanonical(env, relay);
  }

  lemma PutRelayKeeps(env: Env, data: Data, r: Relay)
    requires DataInv(env, data) && CanonicalRelay(env, r)
    requires ConflictFree(data, r) && DefaultClientOk(data, r)
    ensures DataInv(env, data.(relays := data.relays[r.id := r]))
  {
    hide CanonicalRelay, CanonicalClient;
    var data' := data.(relays := data.relays[r.id := r]);
    forall s | s in data'.relays ensures DefaultClientOk(data', data'.relays[s]) {
      assert s == r.id || DefaultClientOk(data, data.relays[s]);
    }
  }

  lemma UpsertRelayKeeps(env: Env, reg: Registry, relay: Relay, saved: bool)
    requires Inv(env, reg)
    ensures Inv(env, UpsertRelay(env, reg, relay, saved).0)
  {
    hide NormalizeRelay, DataInv, ConflictFree, DefaultClientOk, CanonicalRelay;
    var normalized := NormalizeRelay(env, relay);
    if normalized.Ok? {
      StoredRelayCanonical(env, reg.data, relay);
      var r := RelayToStore(reg.data, normalized.value).0;
      if ConflictFree(reg.data, r) && DefaultClientOk(reg.data, r) {
        PutRelayKeeps(env, reg.data, r);
      }
    }
  }

  lemma BumpRelayKeeps(env: Env, data: Data, id: string, version: int)
    requires DataInv(env, data) && id in data.relays
    ensures DataInv(env, data.(relays := data.relays[id := data.relays[id].(keyVersion := version)]))
  {
    var before, r := data.relays[id], data.relays[id].(keyVersion := version);
    assert CanonicalRelay(env, before) && CanonicalRelay(env, r);
    assert DefaultClientOk(data, before);
    hide CanonicalRelay, CanonicalClient;
    forall s | s in data.relays && s != id ensures !Conflicts(r, data.relays[s]) {
      assert !Conflicts(before, data.relays[s]);
    }
    PutRelayKeeps(env, data, r);
  }

  lemma RotateRelayKeeps(env: Env, reg: Registry, id: string, saved: bool)
    requires Inv(env, reg)
    ensures Inv(env, RotateRelayKey(env, reg, id, saved).0)
  {
    hide DataInv;
    if id in reg.data.relays {
      BumpRelayKeeps(env, reg.data, id, reg.data.relays[id].keyVersion + 1);
    }
  }

  lemma DropRelayKeeps(env: Env, data: Data, id: string)
    requires DataInv(env, data) && !Assigned(data, id)
    ensures DataInv(env, data.(relays := data.relays - {id}))
  {
    hide CanonicalRelay, CanonicalClient;
    var data' := data.(relays := data.relays - {id});
    forall r | r in data'.relays ensures DefaultClientOk(data', data'.relays[r]) {
      assert DefaultClientOk(data, data.relays[r]);
    }
    forall c, i | c in data.clients && 0 <= i < |data.clients[c].allowedRelayIDs|
      ensures data.clients[c].allowedRelayIDs[i] in data'.relays
    {
      assert data.clients[c].allowedRelayIDs[i] in data.clients[c].allowedRelayIDs;
    }
  }

  lemma DeleteRelayKeeps(env: Env, reg: Registry, id: string, saved: bool)
    requires Inv(env, reg)
    ensures Inv(env, DeleteRelay(reg, id, saved).0)
  {
    hide DataInv, Assigned;
    if !Assigned(reg.data, id) { DropRelayKeeps(env, reg.data, id); }
  }

  lemma PutClientKeeps(env: Env, data: Data, c: Client)
    requires DataInv(env, data) && CanonicalClient(env, c) && DefaultsKept(data, c)
    requires forall i | 0 <= i < |c.allowedRelayIDs| :: c.allowedRelayIDs[i] in data.relays
    ensures DataInv(env, data.(clients := data.clients[c.id := c]))
  {
    hide CanonicalRelay, CanonicalClient;
    var data' := data.(clients := data.clients[c.id := c]);
    forall r | r in data.relays ensures DefaultClientOk(data', data.relays[r]) {
      assert DefaultClientOk(data, data.relays[r]);
    }
  }

  /** The client UpsertClient stores, if it gets that far. */
  lemma StoredClientFacts(env: Env, data: Data, client: Client, now: int)
    requires Lawful(env) && DataInv(env, data)
    requires NormalizeClient(env, data.relays, Stamped(data, client, now)).Ok?
    ensures var n := NormalizeClient(env, data.relays, Stamped(data, client, now)).value;
            var c := ClientToStore(data, n).0;
            && n.id == client.id && CanonicalClient(env, c) && AcceptsClients(data.relays, c.allowedRelayIDs)
            && n.keyVersion == (if client.id in data.clients then data.clients[client.id].keyVersion else 1)
            && (DefaultsKept(data, n) ==> DefaultsKept(data, c))
  {
    assert client.id in data.clients ==> CanonicalClient(env, data.clients[client.id]);
    NormalizedClientIsCanonical(env, data.relays, Stamped(data, client, now));
  }

  lemma UpsertClientKeeps(env: Env, reg: Registry, client: Client, createOnly: bool, now: int, saved: bool)
    requires Lawful(env) && Inv(env, reg)
    ensures Inv(env, UpsertClient(env, reg, client, createOnly, now, saved).0)
  {
    hide NormalizeClient, DataInv, CanonicalClient, DefaultsKept, ClientToStore, Lawful;
    var normalized := NormalizeClient(env, reg.data.relays, Stamped(reg.data, client, now));
    if normalized.Ok? && DefaultsKept(reg.data, normalized.value) {
      StoredClientFacts(env, reg.data, client, now);
      PutClientKeeps(env, reg.data, ClientToStore(reg.data, normalized.value).0);
    }
  }

  lemma BumpClientKeeps(env: Env, data: Data, id: string, now: int)
    requires DataInv(env, data) && id in data.clients
    ensures var c := data.clients[id].(keyVersion := data.clients[id].keyVersion + 1, updatedAt := now);
            DataInv(env, data.(clients := data.clients[id := c]))
  {
    hide CanonicalClient, CanonicalRelay;
    var before := data.clients[id];
    var c := before.(keyVersion := before.keyVersion + 1, updatedAt := now);
    BumpedClientCanonical(env, before, now);
    forall r | r in data.relays && data.relays[r].allowMissingStreamID && data.relays[r].defaultClientID == c.id
      ensures c.enabled && data.relays[r].id in c.allowedRelayIDs
    {
      assert DefaultClientOk(data, data.relays[r]);
    }
    PutClientKeeps(env, data, c);
  }

  lemma BumpedClientCanonical(env: Env, c: Client, now: int)
    requires CanonicalClient(env, c)
    ensures CanonicalClient(env, c.(keyVersion := c.keyVersion + 1, updatedAt := now))
  {
  }

  lemma RotateClientKeeps(env: Env, reg: Registry, id: string, now: int, saved: bool)
    requires Inv(env, reg)
    ensures Inv(env, RotateClientKey(env, reg, id, now, saved).0)
  {
    hide DataInv;
    if id in reg.data.clients { BumpClientKeeps(env, reg.data, id, now); }
  }

  lemma DropClientKeeps(env: Env, data: Data, id: string)
    requires DataInv(env, data) && !IsDefault(data, id)
    ensures DataInv(env, data.(clients := data.clients - {id}))
  {
    hide CanonicalRelay, CanonicalClient;
    var data' := data.(clients := data.clients - {id});
    forall r | r in data.relays ensures DefaultClientOk(data', data.relays[r]) {
      assert DefaultClientOk(data, data.relays[r]);
    }
  }

  lemma DeleteClientKeeps(env: Env, reg: Registry, id: string, saved: bool)
    requires Inv(env, reg)
    ensures Inv(env, DeleteClient(reg, id, saved).0)
  {
    hide DataInv, IsDefault;
    if !IsDefault(reg.data, id) { DropClientKeeps(env, reg.data, id); }
  }
}
