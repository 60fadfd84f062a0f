/** Which passphrases the registry issues over a run. A record's passphrase is
    determined by its ID and key version, so the versions are what is tracked; what was
    issued is remembered with the state file, as the file outlives the process. */
module KeyIssuance {
  import opened Wrappers
  import opened Records
  import opened Registry
  import opened Persistence
  import opened Runs

  datatype Kind = OfClients | OfRelays

  /** A record's key version, and whether its passphrase is in use. */
  datatype Key = Key(version: int, encrypts: bool)

  type Keys = map<string, Key>

  function KeysOf(kind: Kind, data: Data): Keys {
    match kind
    case OfClients => map id | id in data.clients :: Key(data.clients[id].keyVersion, data.clients[id].encryptionMode == AES256)
    case OfRelays => map id | id in data.relays :: Key(data.relays[id].keyVersion, Encrypts(data.relays[id]))
  }

  lemma ClientKeysChange(data: Data, id: string, c: Client)
    ensures KeysOf(OfClients, data.(clients := data.clients[id := c])) ==
            KeysOf(OfClients, data)[id := Key(c.keyVersion, c.encryptionMode == AES256)]
    ensures KeysOf(OfClients, data.(clients := data.clients - {id})) == KeysOf(OfClients, data) - {id}
    ensures forall i | i in data.clients ::
              i in KeysOf(OfClients, data)
              && KeysOf(OfClients, data)[i] == Key(data.clients[i].keyVersion, data.clients[i].encryptionMode == AES256)
    ensures KeysOf(OfClients, data).Keys == data.clients.Keys
  {
  }

  lemma RelayKeysChange(data: Data, id: string, r: Relay)
    ensures KeysOf(OfRelays, data.(relays := data.relays[id := r])) == KeysOf(OfRelays, data)[id := Key(r.keyVersion, Encrypts(r))]
    ensures KeysOf(OfRelays, data.(relays := data.relays - {id})) == KeysOf(OfRelays, data) - {id}
    ensures forall i | i in data.relays ::
              i in KeysOf(OfRelays, data) && KeysOf(OfRelays, data)[i] == Key(data.relays[i].keyVersion, Encrypts(data.relays[i]))
    ensures KeysOf(OfRelays, data).Keys == data.relays.Keys
  {
  }

  // ---- what one operation does to the keys of one kind of record ----

  /** The record an operation is about. */
  function Subject(op: Op): string {
    match op
    case PutRelay(relay, _) => relay.id
    case RotateRelay(id, _) => id
    case RemoveRelay(id, _) => id
    case PutClient(client, _, _, _) => client.id
    case RotateClient(id, _, _) => id
    case RemoveClient(id, _) => id
    case SetState(id, _) => id
    case SetBusy(_) => ""
    case Restart => ""
  }

  predicate About(kind: Kind, op: Op) {
    match kind
    case OfClients => op.PutClient? || op.RotateClient? || op.RemoveClient?
    case OfRelays => op.PutRelay? || op.RotateRelay? || op.RemoveRelay?
  }

  /** The version whose passphrase the call returned, if any. */
  function Version(result: Result<Issued>): Option<int> {
    if result.Ok? && result.value.passphrase.Some? then Some(result.value.keyVersion) else None
  }

  /** The key in use of a record is a new one. */
  predicate Changed(keys: Keys, keys': Keys, id: string) {
    id in keys' && keys'[id].encrypts && !(id in keys && keys[id] == keys'[id])
  }

  /** No version goes down; a new key in use has a new version; and exactly that version is
      issued, if the file was written. */
  ghost predicate Moves(keys: Keys, id: string, keys': Keys, issued: Option<int>, wrote: bool) {
    || (issued == None && (keys' == keys || keys' == keys - {id}))
    || (&& id in keys' && keys' == keys[id := keys'[id]]
        && (id in keys ==> keys[id].version <= keys'[id].version)
        && (if Changed(keys, keys', id)
            then issued == (if wrote then Some(keys'[id].version) else None) && (id in keys ==> keys[id].version < keys'[id].version)
            else issued == None))
  }

  lemma PutClientMoves(env: Env, reg: Registry, client: Client, createOnly: bool, now: int, saved: bool)
    requires Lawful(env) && Inv(env, reg)
    ensures var (reg', result) := UpsertClient(env, reg, client, createOnly, now, saved);
            && Moves(KeysOf(OfClients, reg.data), client.id, KeysOf(OfClients, reg'.data), Version(result), result.Ok?)
            && (Version(result).Some? ==> result.value.passphrase == Some(ClientPassphrase(env, client.id, result.value.keyVersion)))
  {
    hide NormalizeClient, DataInv, CanonicalClient, DefaultsKept, Lawful, ClientPassphrase, KeysOf;
    var n := NormalizeClient(env, reg.data.relays, Stamped(reg.data, client, now));
    if n.Ok? {
      StoredClientFacts(env, reg.data, client, now);
      StoredMode(env, reg.data, client, now);
      ClientKeysChange(reg.data, client.id, ClientToStore(reg.data, n.value).0);
      if client.id in reg.data.clients {
        OldMode(env, reg.data, client.id);
      }
    }
  }

  lemma OldMode(env: Env, data: Data, id: string)
    requires DataInv(env, data) && id in data.clients
    ensures data.clients[id].encryptionMode == AES256 || data.clients[id].encryptionMode == NONE
  {
  }

  lemma StoredMode(env: Env, data: Data, client: Client, now: int)
    requires Lawful(env) && DataInv(env, data)
    requires NormalizeClient(env, data.relays, Stamped(data, client, now)).Ok?
    ensures var n := NormalizeClient(env, data.relays, Stamped(data, client, now)).value;
            n.encryptionMode == AES256 || n.encryptionMode == NONE
  {
    NormalizedClientIsCanonical(env, data.relays, Stamped(data, client, now));
    hide NormalizeClient, Lawful, DataInv;
  }

  lemma RotateClientMoves(env: Env, reg: Registry, id: string, now: int, saved: bool)
    requires Inv(env, reg)
    ensures var (reg', result) := RotateClientKey(env, reg, id, now, saved);
            && Moves(KeysOf(OfClients, reg.data), id, KeysOf(OfClients, reg'.data), Version(result), result.Ok?)
            && (Version(result).Some? ==> result.value.passphrase == Some(ClientPassphrase(env, id, result.value.keyVersion)))
  {
    hide ClientPassphrase, DataInv, CanonicalClient, KeysOf;
    if id in reg.data.clients {
      ClientFacts(env, reg.data, id);
      OldMode(env, reg.data, id);
      var c := reg.data.clients[id];
      ClientKeysChange(reg.data, id, c.(keyVersion := c.keyVersion + 1, updatedAt := now));
    }
  }

  lemma PutRelayMoves(env: Env, reg: Registry, relay: Relay, saved: bool)
    requires Inv(env, reg)
    ensures var (reg', result) := UpsertRelay(env, reg, relay, saved);
            && Moves(KeysOf(OfRelays, reg.data), relay.id, KeysOf(OfRelays, reg'.data), Version(result), result.Ok?)
            && (Version(result).Some? ==> result.value.passphrase == Some(RelayPassphrase(env, relay.id, result.value.keyVersion)))
  {
    hide NormalizeRelay, DataInv, ConflictFree, DefaultClientOk, CanonicalRelay, RelayPassphrase, KeysOf;
    var n := NormalizeRelay(env, relay);
    if n.Ok? {
      StoredRelayCanonical(env, reg.data, relay);
      RelayKeysChange(reg.data, relay.id, RelayToStore(reg.data, n.value).0);
    }
  }

  lemma RotateRelayMoves(env: Env, reg: Registry, id: string, saved: bool)
    requires Inv(env, reg)
    ensures var (reg', result) := RotateRelayKey(env, reg, id, saved);
            && Moves(KeysOf(OfRelays, reg.data), id, KeysOf(OfRelays, reg'.data), Version(result), result.Ok?)
            && (Version(result).Some? ==> result.value.passphrase == Some(RelayPassphrase(env, id, result.value.keyVersion)))
  {
    hide RelayPassphrase, DataInv, KeysOf;
    if id in reg.data.relays {
      RelayFacts(env, reg.data, id);
      RotatedEncrypts(env, reg.data.relays[id]);
      hide CanonicalRelay;
      var r := reg.data.relays[id];
      RelayKeysChange(reg.data, id, r.(keyVersion := r.keyVersion + 1));
    }
  }

  /** A publish relay whose encryption is not off encrypts. */
  lemma RotatedEncrypts(env: Env, r: Relay)
    requires CanonicalRelay(env, r)
    ensures r.direction == PUBLISH && r.encryptionMode != NONE ==> Encrypts(r)
  {
    hide ValidID, SafeStreamID;
  }

  lemma DeleteClientMoves(reg: Registry, id: string, saved: bool, wrote: bool)
    ensures Moves(KeysOf(OfClients, reg.data), id, KeysOf(OfClients, DeleteClient(reg, id, saved).0.data), None, wrote)
  {
    hide KeysOf, IsDefault;
    if id in reg.data.clients { ClientKeysChange(reg.data, id, reg.data.clients[id]); }
  }

  lemma DeleteRelayMoves(reg: Registry, id: string, saved: bool, wrote: bool)
    ensures Moves(KeysOf(OfRelays, reg.data), id, KeysOf(OfRelays, DeleteRelay(reg, id, saved).0.data), None, wrote)
  {
    hide KeysOf, Assigned;
    if id in reg.data.relays { RelayKeysChange(reg.data, id, reg.data.relays[id]); }
  }

  /** What every operation but a restart does to the keys of either kind. */
  ghost predicate OpMoves(env: Env, kind: Kind, reg: Registry, op: Op) {
    var (reg', result) := Apply(env, reg, op);
    var keys, keys' := KeysOf(kind, reg.data), KeysOf(kind, reg'.data);
    if About(kind, op) then Moves(keys, Subject(op), keys', Version(result), result.Ok?) else keys' == keys
  }

  lemma RelayOpsSpareClients(env: Env, reg: Registry, relay: Relay, id: string, saved: bool)
    ensures UpsertRelay(env, reg, relay, saved).0.data.clients == reg.data.clients
    ensures RotateRelayKey(env, reg, id, saved).0.data.clients == reg.data.clients
    ensures DeleteRelay(reg, id, saved).0.data.clients == reg.data.clients
  {
    hide NormalizeRelay, ConflictFree, DefaultClientOk, RelayToStore, Assigned, RelayPassphrase;
  }

  lemma ClientOpsSpareRelays(env: Env, reg: Registry, client: Client, id: string, createOnly: bool, now: int, saved: bool)
    ensures UpsertClient(env, reg, client, createOnly, now, saved).0.data.relays == reg.data.relays
    ensures RotateClientKey(env, reg, id, now, saved).0.data.relays == reg.data.relays
    ensures DeleteClient(reg, id, saved).0.data.relays == reg.data.relays
  {
    hide NormalizeClient, DefaultsKept, ClientToStore, Stamped, IsDefault, ClientPassphrase;
  }

  lemma SameKeysOf(kind: Kind, data: Data, data': Data)
    requires if kind == OfClients then data'.clients == data.clients else data'.relays == data.relays
    ensures KeysOf(kind, data') == KeysOf(kind, data)
  {
  }

  lemma OtherKindUntouched(env: Env, kind: Kind, reg: Registry, op: Op)
    requires !op.Restart? && !About(kind, op)
    ensures KeysOf(kind, Apply(env, reg, op).0.data) == KeysOf(kind, reg.data)
  {
    hide UpsertRelay, RotateRelayKey, DeleteRelay, UpsertClient, RotateClientKey, DeleteClient, KeysOf;
    match op {
      case PutRelay(relay, saved) => RelayOpsSpareClients(env, reg, relay, "", saved);
      case RotateRelay(id, saved) => RelayOpsSpareClients(env, reg, NO_RELAY, id, saved);
      case RemoveRelay(id, saved) => RelayOpsSpareClients(env, reg, NO_RELAY, id, saved);
      case PutClient(client, createOnly, now, saved) => ClientOpsSpareRelays(env, reg, client, "", createOnly, now, saved);
      case RotateClient(id, now, saved) => ClientOpsSpareRelays(env, reg, NO_CLIENT, id, false, now, saved);
      case RemoveClient(id, saved) => ClientOpsSpareRelays(env, reg, NO_CLIENT, id, false, 0, saved);
      case SetState(_, _) =>
      case SetBusy(_) =>
    }
    SameKeysOf(kind, reg.data, Apply(env, reg, op).0.data);
  }

  const NO_RELAY: Relay := Relay("", "", "", "", "", "", 0, "", 0, "", "", 0, 0, 0, 0, 0, false, "", false)
  const NO_CLIENT: Client := Client("", "", false, "", [], [], 0, 0, 0, 0)

  lemma ClientOpMoves(env: Env, reg: Registry, op: Op)
    requires Lawful(env) && Inv(env, reg) && About(OfClients, op)
    ensures OpMoves(env, OfClients, reg, op)
  {
    hide Lawful, Inv, UpsertClient, RotateClientKey, DeleteClient, Moves, KeysOf;
    match op {
      case PutClient(client, createOnly, now, saved) => PutClientMoves(env, reg, client, createOnly, now, saved);
      case RotateClient(id, now, saved) => RotateClientMoves(env, reg, id, now, saved);
      case RemoveClient(id, saved) => DeleteClientMoves(reg, id, saved, Apply(env, reg, op).1.Ok?);
    }
  }

  lemma RelayOpMoves(env: Env, reg: Registry, op: Op)
    requires Lawful(env) && Inv(env, reg) && About(OfRelays, op)
    ensures OpMoves(env, OfRelays, reg, op)
  {
    hide Lawful, Inv, UpsertRelay, RotateRelayKey, DeleteRelay, Moves, KeysOf;
    match op {
      case PutRelay(relay, saved) => PutRelayMoves(env, reg, relay, saved);
      case RotateRelay(id, saved) => RotateRelayMoves(env, reg, id, saved);
      case RemoveRelay(id, saved) => DeleteRelayMoves(reg, id, saved, Apply(env, reg, op).1.Ok?);
    }
  }

  lemma EveryOpMoves(env: Env, kind: Kind, reg: Registry, op: Op)
    requires Lawful(env) && Inv(env, reg) && !op.Restart?
    ensures OpMoves(env, kind, reg, op)
  {
    hide Lawful, Inv, Moves, Apply, KeysOf;
    if !About(kind, op) {
      OtherKindUntouched(env, kind, reg, op);
    } else if kind == OfClients {
      ClientOpMoves(env, reg, op);
    } else {
      RelayOpMoves(env, reg, op);
    }
  }

  lemma NothingIssued(keys: Keys, id: string, keys': Keys, wrote: bool)
    requires keys' == keys || keys' == keys - {id}
    ensures Moves(keys, id, keys', None, wrote)
  {
  }

  // ---- restarts ----

  function OnFile(reg: Registry): Data {
    if reg.file.Some? then reg.file.value else NO_DATA
  }

  /** Loading keeps every key, but raises a publish relay's version to 1. */
  ghost predicate Loads(keys: Keys, keys': Keys) {
    && keys'.Keys == keys.Keys
    && forall id | id in keys ::
         && keys'[id].encrypts == keys[id].encrypts
         && (keys'[id].version == keys[id].version || (keys[id].version < 1 && keys'[id].version == 1))
         && (keys[id].encrypts ==> 1 <= keys'[id].version)
  }

  lemma ClientsLoad(env: Env, data: Data)
    requires DataInv(env, data)
    ensures Loads(KeysOf(OfClients, data), KeysOf(OfClients, data))
  {
    forall id | id in data.clients ensures data.clients[id].keyVersion >= 1 {
      ClientFacts(env, data, id);
    }
    hide DataInv, CanonicalClient;
  }

  lemma RelaysLoad(data: Data)
    ensures Loads(KeysOf(OfRelays, data), KeysOf(OfRelays, Data(Repaired(data.relays), data.clients)))
  {
  }

  lemma RestartLoads(env: Env, kind: Kind, reg: Registry)
    requires Inv(env, reg) && Restarted(env, reg).1
    ensures Loads(KeysOf(kind, OnFile(reg)), KeysOf(kind, Restarted(env, reg).0.data))
  {
    RestartGives(env, reg);
    hide Restarted, DataInv, AssignmentsListen, Repaired, KeysOf, Loads;
    if reg.file.Some? {
      var data := reg.file.value;
      ClientsLoad(env, data);
      RelaysLoad(data);
      SameKeysOf(OfClients, data, Data(Repaired(data.relays), data.clients));
    } else {
      RelaysLoad(NO_DATA);
      SameKeysOf(OfRelays, Data(Repaired(NO_DATA.relays), NO_DATA.clients), NO_DATA) by { assert Repaired(map[]) == map[] by { NothingRepaired(); } }
      ClientsLoad(env, NO_DATA) by { assert DataInv(env, NO_DATA) by { NoDataKeeps(env); } }
    }
  }

  lemma NothingRepaired()
    ensures Repaired(map[]) == map[]
  {
  }

  lemma NoDataKeeps(env: Env)
    ensures DataInv(env, NO_DATA)
  {
  }

  // ---- the versions issued for each record ----

  type Ledger = map<string, set<int>>

  function IssuedFor(ledger: Ledger, id: string): set<int> {
    if id in ledger then ledger[id] else {}
  }

  /** The ledger of the records there are, with one more entry. */
  function Enter(ledger: Ledger, keys': Keys, id: string, issued: Option<int>): Ledger {
    map i | i in keys' :: IssuedFor(ledger, i) + if i == id && issued.Some? then {issued.value} else {}
  }

  /** What was issued for the records in memory and for those on file. */
  datatype Books = Books(memory: Ledger, file: Ledger)

  function Entry(kind: Kind, op: Op, result: Result<Issued>): Option<int> {
    if About(kind, op) then Version(result) else None
  }

  /** The books after a run: writing the file puts the ledger with it, and a restart takes
      up the ledger on file. */
  ghost function Kept(env: Env, kind: Kind, ops: seq<Op>): Books {
    if ops == [] then Books(map[], map[])
    else
      var front, op := ops[..|ops| - 1], ops[|ops| - 1];
      var before, reg := Kept(env, kind, front), Run(env, front);
      var (reg', result) := Apply(env, reg, op);
      var keys' := KeysOf(kind, reg'.data);
      if op.Restart? then
        if Restarted(env, reg).1 then Books(Enter(before.file, keys', "", None), before.file) else before
      else
        var memory := Enter(before.memory, keys', Subject(op), Entry(kind, op, result));
        Books(memory, if result.Ok? then memory else before.file)
  }

  ghost predicate Bounded(ledger: Ledger, keys: Keys) {
    && ledger.Keys == keys.Keys
    && forall id, v | id in ledger && v in ledger[id] :: v <= keys[id].version
  }

  // ---- whether the last change of a key was saved ----

  /** The last change of the record's key in use, as memory has it, was a call that was
      saved. A restart takes up what is on file, and changes the key where it raises the
      version. */
  ghost predicate SavedChange(env: Env, kind: Kind, ops: seq<Op>, id: string)
    decreases |ops|, 0
  {
    && ops != []
    && var front, op, reg := ops[..|ops| - 1], ops[|ops| - 1], Run(env, ops[..|ops| - 1]);
       var (reg', result) := Apply(env, reg, op);
       if op.Restart? && Restarted(env, reg).1 then
         SavedOnFile(env, kind, front, id) && !Changed(KeysOf(kind, OnFile(reg)), KeysOf(kind, reg'.data), id)
       else if Changed(KeysOf(kind, reg.data), KeysOf(kind, reg'.data), id) then result.Ok?
       else SavedChange(env, kind, front, id)
  }

  /** The same as the state file has it: as memory had it when the file was written. */
  ghost predicate SavedOnFile(env: Env, kind: Kind, ops: seq<Op>, id: string)
    decreases |ops|, 1
  {
    && ops != []
    && var front := ops[..|ops| - 1];
       if Apply(env, Run(env, front), ops[|ops| - 1]).1.Ok? then SavedChange(env, kind, ops, id)
       else SavedOnFile(env, kind, front, id)
  }

  /** Each key in use is an issued one exactly as the flag says. */
  ghost predicate MemoryTells(env: Env, kind: Kind, ops: seq<Op>) {
    var keys, ledger := KeysOf(kind, Run(env, ops).data), Kept(env, kind, ops).memory;
    && Bounded(ledger, keys)
    && forall id | id in keys && keys[id].encrypts ::
         keys[id].version in IssuedFor(ledger, id) <==> SavedChange(env, kind, ops, id)
  }

  ghost predicate FileTells(env: Env, kind: Kind, ops: seq<Op>) {
    var keys, ledger := KeysOf(kind, OnFile(Run(env, ops))), Kept(env, kind, ops).file;
    && Bounded(ledger, keys)
    && forall id | id in keys && keys[id].encrypts ::
         keys[id].version in IssuedFor(ledger, id) <==> SavedOnFile(env, kind, ops, id)
  }

  /** A changed key is an issued one if its call was saved; the others are as before. */
  ghost predicate Follows(ledger: Ledger, keys: Keys, ledger': Ledger, keys': Keys, wrote: bool) {
    && Bounded(ledger', keys')
    && forall id | id in keys' && keys'[id].encrypts ::
         if Changed(keys, keys', id) then keys'[id].version in IssuedFor(ledger', id) <==> wrote
         else id in keys && keys[id] == keys'[id] && (keys'[id].version in IssuedFor(ledger', id) <==> keys[id].version in IssuedFor(ledger, id))
  }

  lemma MovesFollow(ledger: Ledger, keys: Keys, id: string, keys': Keys, issued: Option<int>, wrote: bool)
    requires Moves(keys, id, keys', issued, wrote) && Bounded(ledger, keys)
    ensures Follows(ledger, keys, Enter(ledger, keys', id, issued), keys', wrote)
    ensures issued.Some? ==> forall v | v in IssuedFor(ledger, id) :: v < issued.value
  {
  }

  lemma LoadsFollow(ledger: Ledger, keys: Keys, keys': Keys)
    requires Loads(keys, keys') && Bounded(ledger, keys)
    ensures Follows(ledger, keys, Enter(ledger, keys', "", None), keys', false)
  {
  }

  lemma OpFollows(env: Env, kind: Kind, reg: Registry, op: Op, ledger: Ledger)
    requires Lawful(env) && Inv(env, reg) && !op.Restart? && Bounded(ledger, KeysOf(kind, reg.data))
    ensures var (reg', result) := Apply(env, reg, op);
            var keys, keys' := KeysOf(kind, reg.data), KeysOf(kind, reg'.data);
            && Follows(ledger, keys, Enter(ledger, keys', Subject(op), Entry(kind, op, result)), keys', result.Ok?)
            && (Entry(kind, op, result).Some? ==> forall v | v in IssuedFor(ledger, Subject(op)) :: v < Entry(kind, op, result).value)
            && (forall id | id in keys && id in keys' :: keys[id].version <= keys'[id].version)
  {
    EveryOpMoves(env, kind, reg, op);
    var (reg', result) := Apply(env, reg, op);
    hide Lawful, Inv, Apply, KeysOf, Follows, Bounded, Subject, Moves, Enter;
    var keys, keys' := KeysOf(kind, reg.data), KeysOf(kind, reg'.data);
    if !About(kind, op) { NothingIssued(keys, Subject(op), keys', result.Ok?); }
    MovesFollow(ledger, keys, Subject(op), keys', Entry(kind, op, result), result.Ok?);
    MovesGrow(keys, Subject(op), keys', Entry(kind, op, result), result.Ok?);
  }

  lemma MovesGrow(keys: Keys, id: string, keys': Keys, issued: Option<int>, wrote: bool)
    requires Moves(keys, id, keys', issued, wrote)
    ensures forall i | i in keys && i in keys' :: keys[i].version <= keys'[i].version
  {
  }

  lemma MemoryFollows(env: Env, kind: Kind, ops: seq<Op>)
    requires ops != [] && MemoryTells(env, kind, ops[..|ops| - 1])
    requires var reg, ledger := Run(env, ops[..|ops| - 1]), Kept(env, kind, ops[..|ops| - 1]).memory;
             var (reg', result) := Apply(env, reg, ops[|ops| - 1]);
             Follows(ledger, KeysOf(kind, reg.data), Kept(env, kind, ops).memory, KeysOf(kind, reg'.data), result.Ok?)
    requires !ops[|ops| - 1].Restart?
    ensures MemoryTells(env, kind, ops)
  {
    assert Run(env, ops) == Apply(env, Run(env, ops[..|ops| - 1]), ops[|ops| - 1]).0;
    hide Run, Apply, Kept, KeysOf, Changed;
  }

  lemma RestartFollows(env: Env, kind: Kind, ops: seq<Op>)
    requires ops != [] && ops[|ops| - 1].Restart? && Restarted(env, Run(env, ops[..|ops| - 1])).1
    requires FileTells(env, kind, ops[..|ops| - 1])
    requires var reg, ledger := Run(env, ops[..|ops| - 1]), Kept(env, kind, ops[..|ops| - 1]).file;
             Follows(ledger, KeysOf(kind, OnFile(reg)), Kept(env, kind, ops).memory, KeysOf(kind, Restarted(env, reg).0.data), false)
    ensures MemoryTells(env, kind, ops)
  {
    assert Run(env, ops) == Restarted(env, Run(env, ops[..|ops| - 1])).0;
    hide Run, Restarted, Kept, KeysOf, Changed;
  }

  /** A write puts memory on file; anything else leaves the file as it was. */
  lemma FileStep(env: Env, kind: Kind, ops: seq<Op>)
    requires ops != []
    ensures var front, reg, reg' := ops[..|ops| - 1], Run(env, ops[..|ops| - 1]), Run(env, ops);
            if Apply(env, reg, ops[|ops| - 1]).1.Ok?
            then OnFile(reg') == reg'.data && Kept(env, kind, ops).file == Kept(env, kind, ops).memory && !ops[|ops| - 1].Restart?
            else OnFile(reg') == OnFile(reg) && Kept(env, kind, ops).file == Kept(env, kind, front).file
  {
    hide Apply, KeysOf, Enter, Restarted, Subject, Entry;
    FileFollowsData(env, Run(env, ops[..|ops| - 1]), ops[|ops| - 1]);
  }

  lemma FileTellsStep(env: Env, kind: Kind, ops: seq<Op>)
    requires ops != [] && FileTells(env, kind, ops[..|ops| - 1]) && MemoryTells(env, kind, ops)
    ensures FileTells(env, kind, ops)
  {
    FileStep(env, kind, ops);
    hide Run, Kept, Apply, KeysOf, SavedChange;
  }

  lemma NothingTold(env: Env, kind: Kind)
    ensures MemoryTells(env, kind, []) && FileTells(env, kind, [])
  {
  }

  lemma FailedRestartSame(env: Env, kind: Kind, ops: seq<Op>)
    requires ops != [] && ops[|ops| - 1].Restart? && !Restarted(env, Run(env, ops[..|ops| - 1])).1
    ensures Run(env, ops) == Run(env, ops[..|ops| - 1])
    ensures Kept(env, kind, ops).memory == Kept(env, kind, ops[..|ops| - 1]).memory
  {
    hide KeysOf, Enter, Subject, Entry, Reload;
  }

  lemma FailedRestartFlag(env: Env, kind: Kind, ops: seq<Op>, id: string)
    requires ops != [] && ops[|ops| - 1].Restart? && !Restarted(env, Run(env, ops[..|ops| - 1])).1
    requires Run(env, ops) == Run(env, ops[..|ops| - 1])
    ensures SavedChange(env, kind, ops, id) == SavedChange(env, kind, ops[..|ops| - 1], id)
  {
    assert Apply(env, Run(env, ops[..|ops| - 1]), ops[|ops| - 1]).0 == Run(env, ops);
    hide KeysOf, Apply, Restarted, SavedOnFile;
    SameKeys(KeysOf(kind, Run(env, ops).data));
  }

  lemma FailedRestart(env: Env, kind: Kind, ops: seq<Op>)
    requires ops != [] && ops[|ops| - 1].Restart? && !Restarted(env, Run(env, ops[..|ops| - 1])).1
    requires MemoryTells(env, kind, ops[..|ops| - 1])
    ensures MemoryTells(env, kind, ops)
  {
    hide Run, Restarted, Apply, KeysOf, SavedChange, Kept, Bounded;
    FailedRestartSame(env, kind, ops);
    forall id ensures SavedChange(env, kind, ops, id) == SavedChange(env, kind, ops[..|ops| - 1], id) {
      FailedRestartFlag(env, kind, ops, id);
    }
  }

  lemma SameKeys(keys: Keys)
    ensures forall id :: !Changed(keys, keys, id)
  {
  }

  lemma KeptStep(env: Env, kind: Kind, ops: seq<Op>)
    requires ops != []
    ensures var before, reg, op := Kept(env, kind, ops[..|ops| - 1]), Run(env, ops[..|ops| - 1]), ops[|ops| - 1];
            var (reg', result) := Apply(env, reg, op);
            && Run(env, ops) == reg'
            && (!op.Restart? ==> Kept(env, kind, ops).memory == Enter(before.memory, KeysOf(kind, reg'.data), Subject(op), Entry(kind, op, result)))
            && (op.Restart? ==> reg' == Restarted(env, reg).0)
            && (op.Restart? && Restarted(env, reg).1 ==>
                  Kept(env, kind, ops).memory == Enter(before.file, KeysOf(kind, Restarted(env, reg).0.data), "", None))
  {
    hide Enter, KeysOf, Restarted, Subject, Entry, UpsertRelay, RotateRelayKey, DeleteRelay, UpsertClient, RotateClientKey, DeleteClient;
  }

  lemma {:induction false} RunTells(env: Env, kind: Kind, ops: seq<Op>)
    requires Lawful(env)
    ensures MemoryTells(env, kind, ops) && FileTells(env, kind, ops)
  {
    hide Lawful, Run, Kept, Apply, Inv, KeysOf, Restarted, MemoryTells, FileTells, Follows, Enter, Subject, Entry, Bounded, Loads;
    if ops == [] {
      NothingTold(env, kind);
    } else {
      var front, op := ops[..|ops| - 1], ops[|ops| - 1];
      var reg := Run(env, front);
      RunTells(env, kind, front);
      RunKeeps(env, front);
      KeptStep(env, kind, ops);
      LedgersBounded(env, kind, front);
      if !op.Restart? {
        OpFollows(env, kind, reg, op, Kept(env, kind, front).memory);
        MemoryFollows(env, kind, ops);
      } else if Restarted(env, reg).1 {
        RestartLoads(env, kind, reg);
        LoadsFollow(Kept(env, kind, front).file, KeysOf(kind, OnFile(reg)), KeysOf(kind, Restarted(env, reg).0.data));
        RestartFollows(env, kind, ops);
      } else {
        FailedRestart(env, kind, ops);
      }
      FileTellsStep(env, kind, ops);
    }
  }

  lemma LedgersBounded(env: Env, kind: Kind, ops: seq<Op>)
    requires MemoryTells(env, kind, ops) && FileTells(env, kind, ops)
    ensures Bounded(Kept(env, kind, ops).memory, KeysOf(kind, Run(env, ops).data))
    ensures Bounded(Kept(env, kind, ops).file, KeysOf(kind, OnFile(Run(env, ops))))
  {
    hide Bounded, Kept, Run, KeysOf;
  }

  // ---- the results ----

  /** In every run, failed saves and restarts included: no operation but a restart lowers
      the key version of a record that stays, and every passphrase returned is that of a
      version strictly larger than any returned before for the same record. */
  lemma {:induction false} VersionsOnlyGrow(env: Env, kind: Kind, ops: seq<Op>, op: Op)
    requires Lawful(env) && !op.Restart?
    ensures var reg, ledger := Run(env, ops), Kept(env, kind, ops).memory;
            var (reg', result) := Apply(env, reg, op);
            var keys, keys' := KeysOf(kind, reg.data), KeysOf(kind, reg'.data);
            && (forall id | id in keys && id in keys' :: keys[id].version <= keys'[id].version)
            && (Entry(kind, op, result).Some? ==>
                  && Subject(op) in keys' && Entry(kind, op, result) == Some(keys'[Subject(op)].version)
                  && forall v | v in IssuedFor(ledger, Subject(op)) :: v < Entry(kind, op, result).value)
  {
    hide Lawful, Run, Kept, Apply, Inv, KeysOf, Subject, Follows;
    RunTells(env, kind, ops);
    LedgersBounded(env, kind, ops);
    RunKeeps(env, ops);
    OpFollows(env, kind, Run(env, ops), op, Kept(env, kind, ops).memory);
    EveryOpMoves(env, kind, Run(env, ops), op);
  }

  /** In every run, failed saves and restarts included: the key in use of a record, the one
      a worker is handed, is an issued one, and then the last one issued for it, if and
      only if the last change of that key was saved. */
  lemma {:induction false} WorkerHoldsLastIssued(env: Env, kind: Kind, ops: seq<Op>, id: string)
    requires Lawful(env)
    requires var keys := KeysOf(kind, Run(env, ops).data); id in keys && keys[id].encrypts
    ensures var version, issued := KeysOf(kind, Run(env, ops).data)[id].version, IssuedFor(Kept(env, kind, ops).memory, id);
            && (version in issued <==> SavedChange(env, kind, ops, id))
            && forall v | v in issued :: v <= version
  {
    hide Lawful, Run, Kept, KeysOf, SavedChange;
    RunTells(env, kind, ops);
  }

  lemma SavedAfterRestart(env: Env, kind: Kind, ops: seq<Op>, id: string)
    requires Restarted(env, Run(env, ops)).1
    ensures SavedChange(env, kind, ops + [Restart], id) <==>
            && SavedOnFile(env, kind, ops, id)
            && !Changed(KeysOf(kind, OnFile(Run(env, ops))), KeysOf(kind, Restarted(env, Run(env, ops)).0.data), id)
  {
    assert (ops + [Restart])[..|ops|] == ops;
    assert Apply(env, Run(env, ops), Restart).0 == Restarted(env, Run(env, ops)).0;
    hide Run, Apply, KeysOf, Restarted, SavedOnFile, Changed;
  }

  lemma LoadsChanged(keys: Keys, keys': Keys, id: string)
    requires Loads(keys, keys') && id in keys && keys[id].encrypts
    ensures id in keys' && keys'[id].encrypts && (Changed(keys, keys', id) <==> keys[id].version < 1)
  {
  }

  /** A restart keeps the key in use an issued one if and only if it was one on file and a
      relay's version there is at least 1. */
  lemma {:induction false} RestartKeepsKey(env: Env, kind: Kind, ops: seq<Op>, id: string)
    requires Lawful(env) && Restarted(env, Run(env, ops)).1
    requires var keys := KeysOf(kind, OnFile(Run(env, ops))); id in keys && keys[id].encrypts
    ensures SavedChange(env, kind, ops + [Restart], id) <==>
            SavedOnFile(env, kind, ops, id) && KeysOf(kind, OnFile(Run(env, ops)))[id].version >= 1
  {
    hide Lawful, Run, Inv, KeysOf, Restarted, SavedOnFile, SavedChange, Loads, Changed;
    RunKeeps(env, ops);
    RestartLoads(env, kind, Run(env, ops));
    SavedAfterRestart(env, kind, ops, id);
    LoadsChanged(KeysOf(kind, OnFile(Run(env, ops))), KeysOf(kind, Restarted(env, Run(env, ops)).0.data), id);
  }
}
