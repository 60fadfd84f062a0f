/** Saving and reloading the registry. */
module Persistence {
  import opened Wrappers
  import opened Ordering
  import opened Records
  import opened Registry

  // ---- load ----

  /** load: relays first, then clients against those relays, then the cross-check. */
  ghost function LoadRelays(env: Env, relays: seq<Relay>): Result<map<string, Relay>> {
    if relays == [] then Ok(map[])
    else
      var before := LoadRelays(env, relays[..|relays| - 1]);
      if before.Err? then before
      else
        var normalized := NormalizeRelay(env, relays[|relays| - 1]);
        if normalized.Err? then Err(normalized.reason) else Ok(before.value[normalized.value.id := normalized.value])
  }

  ghost function LoadClients(env: Env, relays: map<string, Relay>, clients: seq<Client>): Result<map<string, Client>> {
    if clients == [] then Ok(map[])
    else
      var before := LoadClients(env, relays, clients[..|clients| - 1]);
      if before.Err? then before
      else
        var normalized := NormalizeClient(env, relays, clients[|clients| - 1]);
        if normalized.Err? then Err(normalized.reason) else Ok(before.value[normalized.value.id := normalized.value])
  }

  ghost function Load(env: Env, relays: seq<Relay>, clients: seq<Client>): Result<Data> {
    var rs := LoadRelays(env, relays);
    if rs.Err? then Err(rs.reason)
    else
      var cs := LoadClients(env, rs.value, clients);
      if cs.Err? then Err(cs.reason)
      else if exists r | r in rs.value :: !DefaultClientOk(Data(rs.value, cs.value), rs.value[r]) then Err("default client")
      else Ok(Data(rs.value, cs.value))
  }

  // ---- save ----

  /** saveLocked writes the records in the order of their sorted IDs. */
  ghost function SavedRelays(data: Data): (s: seq<Relay>)
    ensures Matches(data.relays, Listing(data.relays.Keys), s)
  {
    var ids := Listing(data.relays.Keys);
    assert forall i | 0 <= i < |ids| :: ids[i] in Elements(ids);
    seq(|ids|, i requires 0 <= i < |ids| => data.relays[ids[i]])
  }

  ghost function SavedClients(data: Data): (s: seq<Client>)
    ensures Matches(data.clients, Listing(data.clients.Keys), s)
  {
    var ids := Listing(data.clients.Keys);
    assert forall i | 0 <= i < |ids| :: ids[i] in Elements(ids);
    seq(|ids|, i requires 0 <= i < |ids| => data.clients[ids[i]])
  }

  ghost function Reload(env: Env, data: Data): Result<Data> {
    Load(env, SavedRelays(data), SavedClients(data))
  }

  // ---- what survives ----

  /** All assigned relays are listeners: what load insists on. */
  predicate AssignmentsListen(data: Data) {
    forall c | c in data.clients :: AcceptsClients(data.relays, data.clients[c].allowedRelayIDs)
  }

  /** Publish relays carry a version that the normaliser keeps. */
  predicate VersionsSound(data: Data) {
    forall r | r in data.relays :: data.relays[r].keyVersion == SoundVersion(data.relays[r])
  }

  function Repaired(relays: map<string, Relay>): map<string, Relay> {
    map r | r in relays :: relays[r].(keyVersion := SoundVersion(relays[r]))
  }

  function Part<V>(m: map<string, V>, ids: seq<string>): map<string, V> {
    map id | id in m && id in ids :: m[id]
  }

  predicate Matches<V(==)>(m: map<string, V>, ids: seq<string>, records: seq<V>) {
    && |records| == |ids|
    && forall i | 0 <= i < |ids| :: ids[i] in m && records[i] == m[ids[i]]
  }

  lemma MatchesFront<V>(m: map<string, V>, ids: seq<string>, records: seq<V>)
    requires ids != [] && Matches(m, ids, records)
    ensures var n := |ids| - 1;
            && Matches(m, ids[..n], records[..n])
            && ids[n] in m && records[n] == m[ids[n]]
  {
  }

  lemma PartGrows<V>(m: map<string, V>, ids: seq<string>)
    requires ids != [] && ids[|ids| - 1] in m
    ensures Part(m, ids) == Part(m, ids[..|ids| - 1])[ids[|ids| - 1] := m[ids[|ids| - 1]]]
  {
    assert ids == ids[..|ids| - 1] + [ids[|ids| - 1]];
  }

  lemma {:induction false} RelaysReload(env: Env, data: Data, ids: seq<string>, relays: seq<Relay>)
    requires DataInv(env, data) && Matches(data.relays, ids, relays)
    ensures LoadRelays(env, relays) == Ok(Part(Repaired(data.relays), ids))
  {
    if ids != [] {
      hide DataInv, NormalizeRelay, CanonicalRelay, Matches, Part;
      var n := |ids| - 1;
      assert |relays| == |ids| by { SameLength(data.relays, ids, relays); }
      MatchesFront(data.relays, ids, relays);
      RelaysReload(env, data, ids[..n], relays[..n]);
      RelayFacts(env, data, ids[n]);
      CanonicalRelayIsFixed(env, relays[n]);
      PartGrows(Repaired(data.relays), ids);
    }
  }

  lemma SameLength<V>(m: map<string, V>, ids: seq<string>, records: seq<V>)
    requires Matches(m, ids, records)
    ensures |records| == |ids|
  {
  }

  predicate AllAccepted(relays: map<string, Relay>, clients: seq<Client>) {
    forall i | 0 <= i < |clients| :: AcceptsClients(relays, clients[i].allowedRelayIDs)
  }

  lemma AllAcceptedLast(relays: map<string, Relay>, clients: seq<Client>)
    requires clients != []
    ensures var n := |clients| - 1;
            AllAccepted(relays, clients) <==> AllAccepted(relays, clients[..n]) && AcceptsClients(relays, clients[n].allowedRelayIDs)
  {
    hide AcceptsClients;
  }

  lemma {:induction false} ClientsReload(env: Env, data: Data, relays: map<string, Relay>, ids: seq<string>, clients: seq<Client>)
    requires DataInv(env, data) && Matches(data.clients, ids, clients)
    ensures if AllAccepted(relays, clients) then LoadClients(env, relays, clients) == Ok(Part(data.clients, ids))
            else LoadClients(env, relays, clients).Err?
  {
    if ids != [] {
      hide DataInv, NormalizeClient, CanonicalClient, AcceptsClients, Matches, Part, AllAccepted;
      var n := |ids| - 1;
      SameLength(data.clients, ids, clients);
      MatchesFront(data.clients, ids, clients);
      ClientsReload(env, data, relays, ids[..n], clients[..n]);
      ClientFacts(env, data, ids[n]);
      CanonicalClientIsFixed(env, relays, clients[n]);
      AllAcceptedLast(relays, clients);
      PartGrows(data.clients, ids);
    }
  }

  lemma WholePart<V>(m: map<string, V>)
    ensures Part(m, Listing(m.Keys)) == m
  {
    assert forall id | id in m :: id in Elements(Listing(m.Keys));
  }

  lemma RepairKeeps(data: Data)
    requires ReferencesHold(data)
    ensures AcceptsSame(data.relays, Repaired(data.relays))
    ensures forall r | r in data.relays :: DefaultClientOk(Data(Repaired(data.relays), data.clients), Repaired(data.relays)[r])
    ensures VersionsSound(data) <==> Repaired(data.relays) == data.relays
  {
    forall r | r in data.relays ensures DefaultClientOk(Data(Repaired(data.relays), data.clients), Repaired(data.relays)[r]) {
      assert DefaultClientOk(data, data.relays[r]);
    }
    if Repaired(data.relays) == data.relays {
      forall r | r in data.relays ensures data.relays[r].keyVersion == SoundVersion(data.relays[r]) {
        assert Repaired(data.relays)[r] == data.relays[r];
      }
    }
  }

  ghost predicate AcceptsSame(relays: map<string, Relay>, other: map<string, Relay>) {
    forall ids :: AcceptsClients(relays, ids) <==> AcceptsClients(other, ids)
  }

  /** Exactly what a reload gives: it fails if and only if a client is assigned to a
      relay that is no longer a listener; otherwise it rebuilds every client and every
      relay, raising a publish relay's key version to 1 where it was lower. */
  lemma ReloadOutcome(env: Env, data: Data)
    requires DataInv(env, data)
    ensures if AssignmentsListen(data) then Reload(env, data) == Ok(Data(Repaired(data.relays), data.clients))
            else Reload(env, data).Err?
  {
    hide LoadRelays, LoadClients, DataInv, AcceptsClients, SavedRelays, SavedClients, Matches, AllAccepted;
    var relays, clients := SavedRelays(data), SavedClients(data);
    RelaysReload(env, data, Listing(data.relays.Keys), relays);
    ClientsReload(env, data, Repaired(data.relays), Listing(data.clients.Keys), clients);
    WholePart(Repaired(data.relays));
    assert Repaired(data.relays).Keys == data.relays.Keys;
    WholePart(data.clients);
    References(env, data);
    RepairKeeps(data);
    AssignmentsByIndex(data, Repaired(data.relays));
  }

  lemma References(env: Env, data: Data)
    requires DataInv(env, data)
    ensures ReferencesHold(data)
  {
  }

  lemma AssignmentsByIndex(data: Data, relays: map<string, Relay>)
    requires AcceptsSame(data.relays, relays)
    ensures AssignmentsListen(data) <==> AllAccepted(relays, SavedClients(data))
  {
    hide AcceptsClients, SavedClients;
    var ids, clients := Listing(data.clients.Keys), SavedClients(data);
    forall c | c in data.clients ensures exists i :: 0 <= i < |clients| && clients[i] == data.clients[c] {
      assert c in Elements(ids);
      var i :| 0 <= i < |ids| && ids[i] == c;
      assert clients[i] == data.clients[c];
    }
  }

  /** Saving and reloading is the identity exactly if every assigned relay listens and
      every publish relay has a key version of at least 1. */
  lemma ReloadIdentity(env: Env, data: Data)
    requires DataInv(env, data)
    ensures Reload(env, data) == Ok(data) <==> AssignmentsListen(data) && VersionsSound(data)
  {
    ReloadOutcome(env, data);
    RepairKeeps(data);
  }

  // ---- what keeps a state reloadable ----

  /** The update turns an existing relay from listener to publish or back. */
  ghost predicate ChangesDirection(env: Env, data: Data, relay: Relay) {
    var n := NormalizeRelay(env, relay);
    n.Ok? && n.value.id in data.relays && n.value.direction != data.relays[n.value.id].direction
  }

  predicate ReloadSafe(data: Data) {
    AssignmentsListen(data) && VersionsSound(data)
  }

  lemma PutRelaySafe(data: Data, r: Relay)
    requires ReferencesHold(data) && ReloadSafe(data) && r.keyVersion == SoundVersion(r)
    requires r.id in data.relays ==> r.direction == data.relays[r.id].direction
    ensures ReloadSafe(data.(relays := data.relays[r.id := r]))
  {
    var data' := data.(relays := data.relays[r.id := r]);
    forall c | c in data'.clients ensures AcceptsClients(data'.relays, data'.clients[c].allowedRelayIDs) {
      assert AcceptsClients(data.relays, data.clients[c].allowedRelayIDs);
    }
  }

  lemma UpsertRelaySafe(env: Env, reg: Registry, relay: Relay, saved: bool)
    requires Inv(env, reg) && ReloadSafe(reg.data) && !ChangesDirection(env, reg.data, relay)
    ensures ReloadSafe(UpsertRelay(env, reg, relay, saved).0.data)
  {
    var normalized := NormalizeRelay(env, relay);
    if normalized.Ok? {
      NormalizedRelayIsCanonical(env, relay);
      hide NormalizeRelay, CanonicalRelay, CanonicalClient, ReloadSafe, ConflictFree, DefaultClientOk;
      var r := RelayToStore(reg.data, normalized.value).0;
      assert r.keyVersion == SoundVersion(r) by {
        SafeVersions(reg.data);
      }
      PutRelaySafe(reg.data, r);
    }
  }

  lemma SafeVersions(data: Data)
    requires ReloadSafe(data)
    ensures forall r | r in data.relays && data.relays[r].direction == PUBLISH :: data.relays[r].keyVersion >= 1
  {
  }

  lemma RotateRelaySafe(env: Env, reg: Registry, id: string, saved: bool)
    requires Inv(env, reg) && ReloadSafe(reg.data)
    ensures ReloadSafe(RotateRelayKey(env, reg, id, saved).0.data)
  {
    hide CanonicalRelay, CanonicalClient, ReloadSafe;
    if id in reg.data.relays && reg.data.relays[id].direction == PUBLISH {
      SafeVersions(reg.data);
      var relay := reg.data.relays[id];
      PutRelaySafe(reg.data, relay.(keyVersion := relay.keyVersion + 1));
    }
  }

  lemma DeleteRelaySafe(env: Env, reg: Registry, id: string, saved: bool)
    requires Inv(env, reg) && ReloadSafe(reg.data)
    ensures ReloadSafe(DeleteRelay(reg, id, saved).0.data)
  {
    hide CanonicalRelay, CanonicalClient;
    var data' := DeleteRelay(reg, id, saved).0.data;
    if data' != reg.data {
      forall c | c in data'.clients ensures AcceptsClients(data'.relays, data'.clients[c].allowedRelayIDs) {
        var ids := reg.data.clients[c].allowedRelayIDs;
        assert AcceptsClients(reg.data.relays, ids);
        assert id !in ids;
      }
    }
  }

  lemma UpsertClientSafe(env: Env, reg: Registry, client: Client, createOnly: bool, now: int, saved: bool)
    requires Lawful(env) && Inv(env, reg) && ReloadSafe(reg.data)
    ensures ReloadSafe(UpsertClient(env, reg, client, createOnly, now, saved).0.data)
  {
    hide NormalizeClient, CanonicalClient, CanonicalRelay, Lawful, AcceptsClients, DefaultsKept, ClientToStore;
    if NormalizeClient(env, reg.data.relays, Stamped(reg.data, client, now)).Ok? {
      StoredClientFacts(env, reg.data, client, now);
    }
  }

  lemma RotateClientSafe(env: Env, reg: Registry, id: string, now: int, saved: bool)
    requires ReloadSafe(reg.data)
    ensures ReloadSafe(RotateClientKey(env, reg, id, now, saved).0.data)
  {
    hide AcceptsClients;
  }

  lemma DeleteClientSafe(reg: Registry, id: string, saved: bool)
    requires ReloadSafe(reg.data)
    ensures ReloadSafe(DeleteClient(reg, id, saved).0.data)
  {
  }

  // ---- why the side condition is needed ----

  /** The update turns a listener into a publish relay although clients are assigned to
      it, or although its key version stays below 1. */
  predicate Strands(data: Data, normalized: Relay) {
    && normalized.id in data.relays
    && data.relays[normalized.id].direction == LISTENER && normalized.direction == PUBLISH
    && (Assigned(data, normalized.id)
        || data.relays[normalized.id].keyVersion + (if Encrypts(normalized) then 1 else 0) < 1)
  }

  lemma StoredVersion(env: Env, data: Data, relay: Relay)
    requires DataInv(env, data) && ReloadSafe(data) && NormalizeRelay(env, relay).Ok?
    ensures var n := NormalizeRelay(env, relay).value;
            var r := RelayToStore(data, n).0;
            && r.direction == n.direction && r.id == n.id
            && (n.direction == LISTENER || n.direction == PUBLISH)
            && (r.id in data.relays ==> data.relays[r.id].direction == LISTENER || data.relays[r.id].direction == PUBLISH)
            && (r.keyVersion != SoundVersion(r) ==> Strands(data, n))
            && (Strands(data, n) && !Assigned(data, n.id) ==> r.keyVersion != SoundVersion(r))
  {
    NormalizedRelayIsCanonical(env, relay);
    SafeVersions(data);
    var n := NormalizeRelay(env, relay).value;
    if n.id in data.relays { RelayFacts(env, data, n.id); }
    hide NormalizeRelay, DataInv, CanonicalClient, ReloadSafe;
  }

  /** From a state that reloads, a stored relay update leads to one that reloads
      exactly if it does not strand its clients or its key version. */
  lemma UpdateReloadsUnlessStranding(env: Env, reg: Registry, relay: Relay)
    requires Lawful(env) && Inv(env, reg) && ReloadSafe(reg.data)
    requires UpsertRelay(env, reg, relay, true).1.Ok?
    ensures var data' := UpsertRelay(env, reg, relay, true).0.data;
            Reload(env, data') == Ok(data') <==> !Strands(reg.data, NormalizeRelay(env, relay).value)
  {
    UpsertRelayKeeps(env, reg, relay, true);
    StoredVersion(env, reg.data, relay);
    hide NormalizeRelay, DataInv, ConflictFree, DefaultClientOk, Reload, Lawful;
    var n := NormalizeRelay(env, relay).value;
    var r := RelayToStore(reg.data, n).0;
    var data' := UpsertRelay(env, reg, relay, true).0.data;
    assert data' == reg.data.(relays := reg.data.relays[r.id := r]);
    ReloadIdentity(env, data');
    PutRelayReloads(reg.data, r);
  }

  lemma PutRelayReloads(data: Data, r: Relay)
    requires ReloadSafe(data) && (r.direction == LISTENER || r.direction == PUBLISH)
    requires r.id in data.relays ==> data.relays[r.id].direction == LISTENER || data.relays[r.id].direction == PUBLISH
    ensures var data' := data.(relays := data.relays[r.id := r]);
            ReloadSafe(data') <==> r.keyVersion == SoundVersion(r) && (r.direction == LISTENER || !Assigned(data, r.id))
  {
    var data' := data.(relays := data.relays[r.id := r]);
    if r.direction == PUBLISH && Assigned(data, r.id) {
      var c :| c in data.clients && r.id in data.clients[c].allowedRelayIDs;
      assert !AcceptsClients(data'.relays, data'.clients[c].allowedRelayIDs);
    } else {
      forall c | c in data.clients ensures AcceptsClients(data'.relays, data.clients[c].allowedRelayIDs) {
        assert AcceptsClients(data.relays, data.clients[c].allowedRelayIDs);
        assert Assigned(data, r.id) || r.id !in data.clients[c].allowedRelayIDs;
      }
    }
    assert data'.relays[r.id] == r;
  }

  /** Once a stored update has turned a listener with an assigned client into a publish
      relay, the saved state no longer loads. */
  lemma DirectionChangeBreaksReload(env: Env, reg: Registry, relay: Relay)
    requires Lawful(env) && Inv(env, reg)
    requires UpsertRelay(env, reg, relay, true).1.Ok? && NormalizeRelay(env, relay).value.direction == PUBLISH
    requires Assigned(reg.data, NormalizeRelay(env, relay).value.id)
    ensures var reg' := UpsertRelay(env, reg, relay, true).0;
            reg'.file == Some(reg'.data) && Reload(env, reg'.data).Err?
  {
    var reg' := UpsertRelay(env, reg, relay, true).0;
    UpsertRelayKeeps(env, reg, relay, true);
    var id := NormalizeRelay(env, relay).value.id;
    hide NormalizeRelay, CanonicalRelay, CanonicalClient, ConflictFree, DefaultClientOk, Reload;
    var c :| c in reg.data.clients && id in reg.data.clients[c].allowedRelayIDs;
    assert !AcceptsClients(reg'.data.relays, reg'.data.clients[c].allowedRelayIDs);
    ReloadOutcome(env, reg'.data);
  }
}
