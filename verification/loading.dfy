/** What load makes of any state file, also one that no run of the registry wrote. */
module Loading {
  import opened Wrappers
  import opened Records
  import opened Registry
  import opened Persistence

  /** The last record of the file under this ID. */
  predicate LastRelay(records: seq<Relay>, id: string, i: nat) {
    i < |records| && records[i].id == id && forall k | i < k < |records| :: records[k].id != id
  }

  predicate LastClient(records: seq<Client>, id: string, i: nat) {
    i < |records| && records[i].id == id && forall k | i < k < |records| :: records[k].id != id
  }

  /** Each ID on file has its last record, normalised. */
  ghost predicate TakesRelays(env: Env, records: seq<Relay>, relays: map<string, Relay>) {
    && (forall id :: id in relays <==> exists i | 0 <= i < |records| :: records[i].id == id)
    && forall i: nat, id | LastRelay(records, id, i) :: id in relays && NormalizeRelay(env, records[i]) == Ok(relays[id])
  }

  ghost predicate TakesClients(env: Env, relays: map<string, Relay>, records: seq<Client>, clients: map<string, Client>) {
    && (forall id :: id in clients <==> exists i | 0 <= i < |records| :: records[i].id == id)
    && forall i: nat, id | LastClient(records, id, i) :: id in clients && NormalizeClient(env, relays, records[i]) == Ok(clients[id])
  }

  lemma MoreRelays(env: Env, front: seq<Relay>, r: Relay, relays: map<string, Relay>)
    requires TakesRelays(env, front, relays) && NormalizeRelay(env, r).Ok?
    ensures TakesRelays(env, front + [r], relays[r.id := NormalizeRelay(env, r).value])
  {
    hide NormalizeRelay;
    var n, records, more := |front|, front + [r], relays[r.id := NormalizeRelay(env, r).value];
    forall i: nat, id | LastRelay(records, id, i) ensures id in more && NormalizeRelay(env, records[i]) == Ok(more[id]) {
      if i < n {
        assert records[n].id != id;
        assert forall k | i < k < n :: front[k] == records[k];
        assert LastRelay(front, id, i);
      }
    }
    forall id ensures id in more <==> exists i | 0 <= i < |records| :: records[i].id == id {
      if i :| 0 <= i < n && front[i].id == id { assert records[i].id == id; }
      if id == r.id { assert records[n].id == id; }
    }
  }

  lemma MoreClients(env: Env, relays: map<string, Relay>, front: seq<Client>, c: Client, clients: map<string, Client>)
    requires TakesClients(env, relays, front, clients) && NormalizeClient(env, relays, c).Ok?
    ensures TakesClients(env, relays, front + [c], clients[c.id := NormalizeClient(env, relays, c).value])
  {
    hide NormalizeClient;
    var n, records, more := |front|, front + [c], clients[c.id := NormalizeClient(env, relays, c).value];
    forall i: nat, id | LastClient(records, id, i) ensures id in more && NormalizeClient(env, relays, records[i]) == Ok(more[id]) {
      if i < n {
        assert records[n].id != id;
        assert forall k | i < k < n :: front[k] == records[k];
        assert LastClient(front, id, i);
      }
    }
    forall id ensures id in more <==> exists i | 0 <= i < |records| :: records[i].id == id {
      if i :| 0 <= i < n && front[i].id == id { assert records[i].id == id; }
      if id == c.id { assert records[n].id == id; }
    }
  }

  lemma NormalID(env: Env, r: Relay)
    ensures NormalizeRelay(env, r).Ok? ==> NormalizeRelay(env, r).value.id == r.id
  {
    if NormalizeRelay(env, r).Ok? { NormalizedRelayIsCanonical(env, r); }
  }

  lemma {:induction false} RelaysExactly(env: Env, records: seq<Relay>)
    ensures LoadRelays(env, records).Ok? <==> forall i | 0 <= i < |records| :: NormalizeRelay(env, records[i]).Ok?
    ensures LoadRelays(env, records).Ok? ==> TakesRelays(env, records, LoadRelays(env, records).value)
  {
    hide NormalizeRelay;
    if records != [] {
      var front, r := records[..|records| - 1], records[|records| - 1];
      RelaysExactly(env, front);
      hide TakesRelays;
      assert records == front + [r];
      NormalID(env, r);
      if LoadRelays(env, records).Ok? { MoreRelays(env, front, r, LoadRelays(env, front).value); }
    }
  }

  lemma {:induction false} ClientsExactly(env: Env, relays: map<string, Relay>, records: seq<Client>)
    ensures LoadClients(env, relays, records).Ok? <==> forall i | 0 <= i < |records| :: NormalizeClient(env, relays, records[i]).Ok?
    ensures LoadClients(env, relays, records).Ok? ==> TakesClients(env, relays, records, LoadClients(env, relays, records).value)
  {
    hide NormalizeClient;
    if records != [] {
      var front, c := records[..|records| - 1], records[|records| - 1];
      ClientsExactly(env, relays, front);
      hide TakesClients;
      assert records == front + [c];
      NormalizedClientExactly(env, relays, c);
      if LoadClients(env, relays, records).Ok? { MoreClients(env, relays, front, c, LoadClients(env, relays, front).value); }
    }
  }

  /** Any file loads exactly if its relays normalise, its clients do with those relays, and
      every relay's compatibility default is there, enabled and assigned; the last record
      under an ID counts. */
  lemma {:induction false} LoadExactly(env: Env, relays: seq<Relay>, clients: seq<Client>)
    ensures var rs, loaded := LoadRelays(env, relays), Load(env, relays, clients);
            && (rs.Ok? <==> forall i | 0 <= i < |relays| :: NormalizeRelay(env, relays[i]).Ok?)
            && (loaded.Ok? ==> rs.Ok?)
            && (rs.Ok? ==>
                  var cs := LoadClients(env, rs.value, clients);
                  && TakesRelays(env, relays, rs.value)
                  && (cs.Ok? <==> forall i | 0 <= i < |clients| :: NormalizeClient(env, rs.value, clients[i]).Ok?)
                  && (cs.Ok? ==> TakesClients(env, rs.value, clients, cs.value))
                  && (loaded.Ok? <==> cs.Ok? && forall r | r in rs.value && rs.value[r].allowMissingStreamID ::
                        var d := rs.value[r].defaultClientID;
                        d in cs.value && cs.value[d].enabled && rs.value[r].id in cs.value[d].allowedRelayIDs)
                  && (loaded.Ok? ==> loaded.value == Data(rs.value, cs.value)))
  {
    RelaysExactly(env, relays);
    hide TakesRelays, TakesClients, LoadRelays, LoadClients, NormalizeRelay, NormalizeClient;
    if LoadRelays(env, relays).Ok? { ClientsExactly(env, LoadRelays(env, relays).value, clients); }
  }
}
