/** What saves and restarts do to a record's key over its life. */
module KeyLifetimes {
  import opened Wrappers
  import opened Records
  import opened Registry
  import opened Persistence
  import opened Runs
  import opened KeyIssuance

  // ---- saves of the record's own calls are enough ----

  predicate Calls(kind: Kind, op: Op, id: string) {
    About(kind, op) && Subject(op) == id
  }

  predicate OwnCallsSaved(kind: Kind, ops: seq<Op>, id: string) {
    forall i | 0 <= i < |ops| && Calls(kind, ops[i], id) :: ops[i].saved
  }

  /** The relay is created with no negative key version, which only callers can bring in. */
  ghost predicate BornSound(env: Env, kind: Kind, ops: seq<Op>, id: string) {
    forall i | 0 <= i < |ops| && Creates(env, kind, ops[..i], ops[i], id) :: ops[i].relay.keyVersion >= 0
  }

  ghost predicate Creates(env: Env, kind: Kind, before: seq<Op>, op: Op, id: string) {
    kind == OfRelays && op.PutRelay? && op.relay.id == id && id !in Run(env, before).data.relays
  }

  lemma SavedOrUnchanged(env: Env, reg: Registry, op: Op)
    requires (About(OfClients, op) || About(OfRelays, op)) && op.saved && !Apply(env, reg, op).1.Ok?
    ensures Apply(env, reg, op).0.data == reg.data
  {
    hide NormalizeRelay, NormalizeClient, ConflictFree, DefaultClientOk, DefaultsKept, RelayToStore, ClientToStore, Stamped, Assigned,
      IsDefault, RelayPassphrase, ClientPassphrase, Restarted;
  }

  lemma NewRelay(env: Env, reg: Registry, relay: Relay, saved: bool)
    requires Inv(env, reg) && relay.keyVersion >= 0 && relay.id !in reg.data.relays
    ensures var data' := UpsertRelay(env, reg, relay, saved).0.data;
            relay.id in data'.relays ==> data'.relays[relay.id].keyVersion >= (if data'.relays[relay.id].direction == PUBLISH then 1 else 0)
  {
    hide NormalizeRelay, CanonicalRelay, ConflictFree, DefaultClientOk, DataInv, RelayPassphrase;
    if NormalizeRelay(env, relay).Ok? { NormalizedRelayIsCanonical(env, relay); }
  }

  lemma OnlyPutsCreate(env: Env, reg: Registry, op: Op, id: string)
    requires About(OfRelays, op) && id !in reg.data.relays && id in Apply(env, reg, op).0.data.relays
    ensures op.PutRelay?
  {
    hide UpsertRelay;
  }

  /** A key that comes into being is above 0, or at 0 and not in use. */
  lemma Birth(env: Env, kind: Kind, reg: Registry, op: Op, id: string)
    requires Lawful(env) && Inv(env, reg) && !op.Restart?
    requires kind == OfRelays && op.PutRelay? && op.relay.id == id && id !in reg.data.relays ==> op.relay.keyVersion >= 0
    requires id !in KeysOf(kind, reg.data) && id in KeysOf(kind, Apply(env, reg, op).0.data)
    ensures Positive(KeysOf(kind, Apply(env, reg, op).0.data)[id])
  {
    hide Lawful, Inv, Apply, DataInv;
    EveryOpMoves(env, kind, reg, op);
    assert About(kind, op) && Subject(op) == id;
    if kind == OfClients {
      ApplyKeeps(env, reg, op);
      ClientVersion(env, Apply(env, reg, op).0, id);
    } else {
      OnlyPutsCreate(env, reg, op, id);
      PutIs(env, reg, op);
      hide UpsertRelay, Moves;
      NewRelay(env, reg, op.relay, op.saved);
    }
  }

  lemma PutIs(env: Env, reg: Registry, op: Op)
    requires op.PutRelay?
    ensures Apply(env, reg, op) == UpsertRelay(env, reg, op.relay, op.saved)
  {
    hide UpsertRelay;
  }

  lemma ClientVersion(env: Env, reg: Registry, id: string)
    requires Inv(env, reg) && id in reg.data.clients
    ensures reg.data.clients[id].keyVersion >= 1
  {
    ClientFacts(env, reg.data, id);
  }

  predicate Positive(key: Key) {
    key.version >= 0 && (key.encrypts ==> key.version >= 1)
  }

  ghost predicate Firm(env: Env, kind: Kind, ops: seq<Op>, id: string) {
    var keys := KeysOf(kind, Run(env, ops).data);
    id in keys ==> Positive(keys[id]) && (keys[id].encrypts ==> SavedChange(env, kind, ops, id))
  }

  ghost predicate FirmOnFile(env: Env, kind: Kind, ops: seq<Op>, id: string) {
    var keys := KeysOf(kind, OnFile(Run(env, ops)));
    id in keys ==> Positive(keys[id]) && (keys[id].encrypts ==> SavedOnFile(env, kind, ops, id))
  }

  lemma OwnCallsPrefix(env: Env, kind: Kind, ops: seq<Op>, id: string)
    requires ops != [] && OwnCallsSaved(kind, ops, id) && BornSound(env, kind, ops, id)
    ensures var front, op := ops[..|ops| - 1], ops[|ops| - 1];
            && OwnCallsSaved(kind, front, id) && BornSound(env, kind, front, id)
            && (Calls(kind, op, id) ==> op.saved)
            && (Creates(env, kind, front, op, id) ==> op.relay.keyVersion >= 0)
  {
    var n := |ops| - 1;
    forall i | 0 <= i < n && Creates(env, kind, ops[..n][..i], ops[..n][i], id) ensures ops[..n][i].relay.keyVersion >= 0 {
      assert ops[..n][..i] == ops[..i];
      assert Creates(env, kind, ops[..i], ops[i], id);
    }
    assert ops[..n] == ops[..|ops| - 1];
  }

  /** How a key of one record can move when its calls are saved. */
  lemma OwnMove(env: Env, kind: Kind, reg: Registry, op: Op, id: string)
    requires Lawful(env) && Inv(env, reg) && !op.Restart? && (Calls(kind, op, id) ==> op.saved)
    ensures var (reg', result) := Apply(env, reg, op);
            var keys, keys' := KeysOf(kind, reg.data), KeysOf(kind, reg'.data);
            && (Changed(keys, keys', id) ==> result.Ok?)
            && (id in keys && id in keys' && Positive(keys[id]) ==> Positive(keys'[id]))
  {
    hide Apply, KeysOf, Lawful, Inv, Subject;
    EveryOpMoves(env, kind, reg, op);
    if Calls(kind, op, id) && !Apply(env, reg, op).1.Ok? { SavedOrUnchanged(env, reg, op); }
  }

  lemma FirmStep(env: Env, kind: Kind, ops: seq<Op>, id: string)
    requires Lawful(env) && ops != [] && !ops[|ops| - 1].Restart?
    requires Firm(env, kind, ops[..|ops| - 1], id) && Inv(env, Run(env, ops[..|ops| - 1]))
    requires var front, op := ops[..|ops| - 1], ops[|ops| - 1];
             (Calls(kind, op, id) ==> op.saved) && (Creates(env, kind, front, op, id) ==> op.relay.keyVersion >= 0)
    ensures Firm(env, kind, ops, id)
  {
    var reg, op := Run(env, ops[..|ops| - 1]), ops[|ops| - 1];
    assert Run(env, ops) == Apply(env, reg, op).0;
    hide Run, Apply, KeysOf, Lawful, Inv, Calls, Changed, Positive, SavedOnFile;
    OwnMove(env, kind, reg, op, id);
    if id in KeysOf(kind, Run(env, ops).data) && id !in KeysOf(kind, reg.data) {
      Birth(env, kind, reg, op, id);
      NewIsChanged(KeysOf(kind, reg.data), KeysOf(kind, Run(env, ops).data), id);
    } else if id in KeysOf(kind, Run(env, ops).data) {
      UnchangedKey(KeysOf(kind, reg.data), KeysOf(kind, Run(env, ops).data), id);
    }
  }

  lemma NewIsChanged(keys: Keys, keys': Keys, id: string)
    requires id !in keys && id in keys'
    ensures keys'[id].encrypts ==> Changed(keys, keys', id)
  {
  }

  lemma UnchangedKey(keys: Keys, keys': Keys, id: string)
    requires id in keys && id in keys'
    ensures keys'[id].encrypts && !Changed(keys, keys', id) ==> keys[id] == keys'[id]
  {
  }

  lemma FirmRestart(env: Env, kind: Kind, ops: seq<Op>, id: string)
    requires Lawful(env) && ops != [] && ops[|ops| - 1].Restart?
    requires Firm(env, kind, ops[..|ops| - 1], id) && FirmOnFile(env, kind, ops[..|ops| - 1], id) && Inv(env, Run(env, ops[..|ops| - 1]))
    ensures Firm(env, kind, ops, id)
  {
    hide Run, Apply, KeysOf, Lawful, Inv, Restarted, SavedChange, SavedOnFile, Loads, Changed;
    var front := ops[..|ops| - 1];
    var reg := Run(env, front);
    if Restarted(env, reg).1 {
      assert ops == front + [Restart];
      RunRestart(env, front);
      RestartLoads(env, kind, reg);
      SavedAfterRestart(env, kind, front, id);
      LoadsFirm(KeysOf(kind, OnFile(reg)), KeysOf(kind, Restarted(env, reg).0.data), id);
    } else {
      FailedRestartSame(env, kind, ops);
      FailedRestartFlag(env, kind, ops, id);
    }
  }

  lemma LoadsFirm(keys: Keys, keys': Keys, id: string)
    requires Loads(keys, keys') && (id in keys ==> Positive(keys[id]))
    ensures id in keys' ==> id in keys && Positive(keys'[id]) && keys'[id].encrypts == keys[id].encrypts && !Changed(keys, keys', id)
  {
  }

  lemma FirmFileStep(env: Env, kind: Kind, ops: seq<Op>, id: string)
    requires ops != [] && Firm(env, kind, ops, id) && FirmOnFile(env, kind, ops[..|ops| - 1], id)
    ensures FirmOnFile(env, kind, ops, id)
  {
    FileStep(env, kind, ops);
    hide Run, Apply, KeysOf, Kept, SavedChange, Positive;
  }

  lemma FirmStart(env: Env, kind: Kind, id: string)
    ensures Firm(env, kind, [], id) && FirmOnFile(env, kind, [], id)
  {
  }

  lemma {:induction false} RunFirm(env: Env, kind: Kind, ops: seq<Op>, id: string)
    requires Lawful(env) && OwnCallsSaved(kind, ops, id) && BornSound(env, kind, ops, id)
    ensures Firm(env, kind, ops, id) && FirmOnFile(env, kind, ops, id)
  {
    hide Lawful, Run, Inv, Firm, FirmOnFile, OwnCallsSaved, BornSound, Calls, Creates;
    if ops == [] {
      FirmStart(env, kind, id);
    } else {
      var front := ops[..|ops| - 1];
      OwnCallsPrefix(env, kind, ops, id);
      RunFirm(env, kind, front, id);
      RunKeeps(env, front);
      if ops[|ops| - 1].Restart? {
        FirmRestart(env, kind, ops, id);
      } else {
        FirmStep(env, kind, ops, id);
      }
      FirmFileStep(env, kind, ops, id);
    }
  }

  /** Whatever becomes of the saves of other records, and over any restarts: if the calls
      about a record itself are saved, and a relay is created with no negative version, the
      worker always holds the last key issued for it. */
  lemma {:induction false} OwnSavesSuffice(env: Env, kind: Kind, ops: seq<Op>, id: string)
    requires Lawful(env) && OwnCallsSaved(kind, ops, id) && BornSound(env, kind, ops, id)
    requires var keys := KeysOf(kind, Run(env, ops).data); id in keys && keys[id].encrypts
    ensures var version, issued := KeysOf(kind, Run(env, ops).data)[id].version, IssuedFor(Kept(env, kind, ops).memory, id);
            version in issued && forall v | v in issued :: v <= version
  {
    hide Lawful, Run, KeysOf, Kept, OwnCallsSaved, BornSound, SavedChange, FirmOnFile;
    RunFirm(env, kind, ops, id);
    WorkerHoldsLastIssued(env, kind, ops, id);
  }

  // ---- when a restart lowers a version ----

  /** A record as memory has it, against the state file: as written or loaded; with a
      version raised since, without a write; or created since, without a write. */
  datatype Standing = AsOnFile | Raised | Replaced

  ghost function StandingOf(env: Env, kind: Kind, ops: seq<Op>, id: string): Standing {
    if ops == [] then AsOnFile
    else
      var front, op := ops[..|ops| - 1], ops[|ops| - 1];
      var before, reg := StandingOf(env, kind, front, id), Run(env, front);
      var (reg', result) := Apply(env, reg, op);
      var keys, keys' := KeysOf(kind, reg.data), KeysOf(kind, reg'.data);
      if result.Ok? || (op.Restart? && Restarted(env, reg).1) then AsOnFile else NextStanding(keys, keys', before, id)
  }

  /** After an operation that did not write the file. */
  function NextStanding(keys: Keys, keys': Keys, before: Standing, id: string): Standing {
    if id in keys' && id !in keys then Replaced
    else if id in keys' && keys[id].version < keys'[id].version && before != Replaced then Raised
    else before
  }

  /** The version that loading gives. */
  function LoadedVersion(kind: Kind, data: Data, id: string): int
    requires id in KeysOf(kind, data)
  {
    if kind == OfRelays then SoundVersion(data.relays[id]) else data.clients[id].keyVersion
  }

  ghost predicate Stands(kind: Kind, reg: Registry, books: Books, standing: Standing, id: string) {
    var keys, file := KeysOf(kind, reg.data), KeysOf(kind, OnFile(reg));
    id in keys && standing != Replaced ==>
      && id in file
      && file[id].version <= keys[id].version
      && (standing == AsOnFile ==> keys[id].version <= LoadedVersion(kind, OnFile(reg), id))
      && (standing == Raised ==> file[id].version < keys[id].version)
      && IssuedFor(books.memory, id) == IssuedFor(books.file, id)
  }

  lemma LoadedAtLeast(kind: Kind, data: Data, id: string)
    requires id in KeysOf(kind, data)
    ensures KeysOf(kind, data)[id].version <= LoadedVersion(kind, data, id)
  {
  }

  lemma StandsWritten(kind: Kind, reg: Registry, books: Books, id: string)
    requires OnFile(reg) == reg.data && books.file == books.memory
    ensures Stands(kind, reg, books, AsOnFile, id)
  {
    hide KeysOf, LoadedVersion;
    if id in KeysOf(kind, reg.data) { LoadedAtLeast(kind, reg.data, id); }
  }

  lemma StandsUnwritten(kind: Kind, reg: Registry, reg': Registry, books: Books, books': Books, standing: Standing, id: string)
    requires Stands(kind, reg, books, standing, id) && OnFile(reg') == OnFile(reg) && books'.file == books.file
    requires var keys, keys' := KeysOf(kind, reg.data), KeysOf(kind, reg'.data);
             && (id in keys && id in keys' ==> keys[id].version <= keys'[id].version)
             && (id in keys' ==> IssuedFor(books'.memory, id) == IssuedFor(books.memory, id))
    ensures Stands(kind, reg', books', NextStanding(KeysOf(kind, reg.data), KeysOf(kind, reg'.data), standing, id), id)
  {
    hide KeysOf, LoadedVersion, IssuedFor, OnFile;
  }

  lemma StandsStep(env: Env, kind: Kind, ops: seq<Op>, id: string)
    requires Lawful(env) && ops != [] && !ops[|ops| - 1].Restart?
    requires var front := ops[..|ops| - 1];
             Stands(kind, Run(env, front), Kept(env, kind, front), StandingOf(env, kind, front, id), id)
             && Inv(env, Run(env, front))
    ensures Stands(kind, Run(env, ops), Kept(env, kind, ops), StandingOf(env, kind, ops, id), id)
  {
    hide Run, Apply, Kept, Lawful, Inv, KeysOf, StandingOf, LoadedVersion, Subject, Stands, Moves, Entry, Enter;
    var front, op := ops[..|ops| - 1], ops[|ops| - 1];
    var reg := Run(env, front);
    FileStep(env, kind, ops);
    KeptStep(env, kind, ops);
    StandingStep(env, kind, ops, id);
    var (reg', result) := Apply(env, reg, op);
    var keys' := KeysOf(kind, reg'.data);
    if result.Ok? {
      StandsWritten(kind, reg', Kept(env, kind, ops), id);
    } else {
      NothingNew(kind, op, result);
      if id in keys' {
        EnteredNothing(Kept(env, kind, front).memory, keys', Subject(op), id);
        if id in KeysOf(kind, reg.data) {
          EveryOpMoves(env, kind, reg, op);
          GrowthAt(KeysOf(kind, reg.data), Subject(op), keys', Version(result), false, About(kind, op), id);
        }
      }
      StandsUnwritten(kind, reg, reg', Kept(env, kind, front), Kept(env, kind, ops), StandingOf(env, kind, front, id), id);
    }
  }

  lemma NothingNew(kind: Kind, op: Op, result: Result<Issued>)
    ensures !result.Ok? ==> Entry(kind, op, result) == None
  {
  }

  lemma EnteredNothing(ledger: Ledger, keys': Keys, subject: string, id: string)
    requires id in keys'
    ensures IssuedFor(Enter(ledger, keys', subject, None), id) == IssuedFor(ledger, id)
  {
  }

  lemma GrowthAt(keys: Keys, subject: string, keys': Keys, issued: Option<int>, wrote: bool, about: bool, id: string)
    requires if about then Moves(keys, subject, keys', issued, wrote) else keys' == keys
    requires id in keys && id in keys'
    ensures keys[id].version <= keys'[id].version
  {
  }

  lemma StandingStep(env: Env, kind: Kind, ops: seq<Op>, id: string)
    requires ops != []
    ensures var front, op := ops[..|ops| - 1], ops[|ops| - 1];
            var before, reg := StandingOf(env, kind, front, id), Run(env, front);
            var (reg', result) := Apply(env, reg, op);
            var keys, keys' := KeysOf(kind, reg.data), KeysOf(kind, reg'.data);
            StandingOf(env, kind, ops, id) ==
              if result.Ok? || (op.Restart? && Restarted(env, reg).1) then AsOnFile else NextStanding(keys, keys', before, id)
  {
    hide Run, Apply, KeysOf, Restarted;
  }

  lemma LoadedKeys(env: Env, kind: Kind, reg: Registry, id: string)
    requires Inv(env, reg) && Restarted(env, reg).1 && id in KeysOf(kind, OnFile(reg))
    ensures var keys := KeysOf(kind, Restarted(env, reg).0.data);
            id in keys && keys[id].version == LoadedVersion(kind, OnFile(reg), id)
  {
    RestartGives(env, reg);
    hide Restarted, DataInv, AssignmentsListen;
  }

  lemma StandsLoaded(env: Env, kind: Kind, reg: Registry, reg': Registry, books: Books, id: string)
    requires Inv(env, reg) && Restarted(env, reg).1 && reg'.data == Restarted(env, reg).0.data && OnFile(reg') == OnFile(reg)
    requires id in KeysOf(kind, reg'.data) ==> IssuedFor(books.memory, id) == IssuedFor(books.file, id)
    ensures Stands(kind, reg', books, AsOnFile, id)
  {
    hide Inv, Restarted, KeysOf, LoadedVersion, IssuedFor;
    RestartLoads(env, kind, reg);
    if id in KeysOf(kind, reg'.data) {
      LoadedKeys(env, kind, reg, id);
      LoadedAtLeast(kind, OnFile(reg), id);
    }
  }

  lemma StandsRestart(env: Env, kind: Kind, ops: seq<Op>, id: string)
    requires ops != [] && ops[|ops| - 1].Restart? && Inv(env, Run(env, ops[..|ops| - 1]))
    requires var front := ops[..|ops| - 1];
             Stands(kind, Run(env, front), Kept(env, kind, front), StandingOf(env, kind, front, id), id)
    ensures Stands(kind, Run(env, ops), Kept(env, kind, ops), StandingOf(env, kind, ops, id), id)
  {
    hide Run, Apply, Kept, Inv, KeysOf, StandingOf, LoadedVersion, Restarted, Stands, Enter, IssuedFor;
    var front := ops[..|ops| - 1];
    var reg := Run(env, front);
    FileStep(env, kind, ops);
    KeptStep(env, kind, ops);
    StandingStep(env, kind, ops, id);
    if Restarted(env, reg).1 {
      NotWritten(env, reg, ops[|ops| - 1]);
      if id in KeysOf(kind, Run(env, ops).data) {
        EnteredNothing(Kept(env, kind, front).file, KeysOf(kind, Run(env, ops).data), "", id);
      }
      StandsLoaded(env, kind, reg, Run(env, ops), Kept(env, kind, ops), id);
    } else {
      FailedRestartSame(env, kind, ops);
      NotWritten(env, reg, ops[|ops| - 1]);
      StandsUnwritten(kind, reg, Run(env, ops), Kept(env, kind, front), Kept(env, kind, ops), StandingOf(env, kind, front, id), id);
    }
  }

  lemma NotWritten(env: Env, reg: Registry, op: Op)
    requires op.Restart?
    ensures !Apply(env, reg, op).1.Ok?
  {
    hide Restarted;
  }

  lemma StandsStart(env: Env, kind: Kind, id: string)
    ensures Stands(kind, Run(env, []), Kept(env, kind, []), StandingOf(env, kind, [], id), id)
  {
  }

  lemma {:induction false} RunStands(env: Env, kind: Kind, ops: seq<Op>, id: string)
    requires Lawful(env)
    ensures Stands(kind, Run(env, ops), Kept(env, kind, ops), StandingOf(env, kind, ops, id), id)
  {
    hide Lawful, Run, Kept, Inv, StandingOf, Stands;
    if ops == [] {
      StandsStart(env, kind, id);
    } else {
      RunStands(env, kind, ops[..|ops| - 1], id);
      RunKeeps(env, ops[..|ops| - 1]);
      if ops[|ops| - 1].Restart? {
        StandsRestart(env, kind, ops, id);
      } else {
        StandsStep(env, kind, ops, id);
      }
    }
  }

  /** Exactly when a stored version goes down: at a restart that comes up after the version
      was raised without a write since, where it stood for a client, or for a relay that
      listens on file, or was raised above the 1 that loading gives a publish relay. No
      issued key of the record is forgotten. A record created without a write since is
      another record than the one that may come back under its ID. */
  lemma {:induction false} RestartLowers(env: Env, kind: Kind, ops: seq<Op>, id: string)
    requires Lawful(env) && Restarted(env, Run(env, ops)).1
    requires id in KeysOf(kind, Run(env, ops).data) && StandingOf(env, kind, ops, id) != Replaced
    ensures var reg := Run(env, ops);
            var keys, keys' := KeysOf(kind, reg.data), KeysOf(kind, Restarted(env, reg).0.data);
            && id in keys' && id in KeysOf(kind, OnFile(reg))
            && (keys'[id].version < keys[id].version <==>
                  && StandingOf(env, kind, ops, id) == Raised
                  && (kind == OfClients || OnFile(reg).relays[id].direction == LISTENER || keys[id].version > 1))
            && IssuedFor(Kept(env, kind, ops).memory, id) == IssuedFor(Kept(env, kind, ops).file, id)
  {
    hide Lawful, Run, Kept, Inv, StandingOf, Restarted, KeysOf, LoadedVersion;
    RunStands(env, kind, ops, id);
    RunKeeps(env, ops);
    var reg := Run(env, ops);
    LoadedKeys(env, kind, reg, id);
    VersionThatLoads(env, kind, reg, id);
  }

  lemma VersionThatLoads(env: Env, kind: Kind, reg: Registry, id: string)
    requires Inv(env, reg) && id in KeysOf(kind, OnFile(reg))
    ensures var version := KeysOf(kind, OnFile(reg))[id].version;
            && (kind == OfRelays ==> id in OnFile(reg).relays)
            && LoadedVersion(kind, OnFile(reg), id) ==
               if kind == OfClients || OnFile(reg).relays[id].direction == LISTENER || version >= 1 then version else 1
  {
    if kind == OfRelays { RelayFacts(env, OnFile(reg), id); }
    hide DataInv;
  }

  // ---- two runs that lose a key ----

  /** A rotation whose save fails leaves the worker with a version that was never issued. */
  lemma {:induction false} FailedSaveHidesKey(env: Env, ops: seq<Op>, id: string, now: int)
    requires Lawful(env)
    requires id in Run(env, ops).data.clients && Run(env, ops).data.clients[id].encryptionMode == AES256
    ensures var more := ops + [RotateClient(id, now, false)];
            var keys := KeysOf(OfClients, Run(env, more).data);
            && id in keys && keys[id].encrypts
            && keys[id].version !in IssuedFor(Kept(env, OfClients, more).memory, id)
  {
    var op := RotateClient(id, now, false);
    RunLast(env, ops, op);
    FailedRotation(env, Run(env, ops), id, now);
    assert (ops + [op])[..|ops|] == ops;
    FailedIsUnsaved(env, ops, op, id);
    hide Lawful, Run, Kept, KeysOf, SavedChange, Apply;
    WorkerHoldsLastIssued(env, OfClients, ops + [op], id);
  }

  lemma FailedRotation(env: Env, reg: Registry, id: string, now: int)
    requires id in reg.data.clients && reg.data.clients[id].encryptionMode == AES256
    ensures var (reg', result) := Apply(env, reg, RotateClient(id, now, false));
            var keys, keys' := KeysOf(OfClients, reg.data), KeysOf(OfClients, reg'.data);
            id in keys' && keys'[id].encrypts && Changed(keys, keys', id) && !result.Ok?
  {
    hide ClientPassphrase;
  }

  lemma FailedIsUnsaved(env: Env, ops: seq<Op>, op: Op, id: string)
    requires var (reg', result) := Apply(env, Run(env, ops), op);
             !op.Restart? && Changed(KeysOf(OfClients, Run(env, ops).data), KeysOf(OfClients, reg'.data), id) && !result.Ok?
    ensures !SavedChange(env, OfClients, ops + [op], id)
  {
    assert (ops + [op])[..|ops|] == ops;
    hide Run, Apply, KeysOf, Changed, SavedOnFile;
  }

  function Sample(direction: string, version: int): Relay {
    SampleRelay(direction).(keyVersion := version)
  }

  lemma SampleNormal(direction: string, version: int)
    requires direction == LISTENER || (direction == PUBLISH && version >= 1)
    ensures NormalizeRelay(SAMPLE_ENV, Sample(direction, version)) == Ok(Sample(direction, version))
  {
    SampleCanonical(direction);
    VersionDoesNotMatter(SAMPLE_ENV, SampleRelay(direction), version);
    CanonicalRelayIsFixed(SAMPLE_ENV, Sample(direction, version));
    hide NormalizeRelay, CanonicalRelay;
  }

  lemma SampleCreated()
    ensures UpsertRelay(SAMPLE_ENV, EMPTY, Sample(LISTENER, -5), true).0.data == Data(map["news" := Sample(LISTENER, -5)], map[])
  {
    SampleNormal(LISTENER, -5);
    hide NormalizeRelay;
  }

  lemma SampleStored(data: Data)
    requires data == Data(map["news" := Sample(LISTENER, -5)], map[])
    ensures RelayToStore(data, Sample(PUBLISH, 1)) == (Sample(PUBLISH, -4), true)
    ensures ConflictFree(data, Sample(PUBLISH, -4)) && DefaultClientOk(data, Sample(PUBLISH, -4))
    ensures data.relays["news" := Sample(PUBLISH, -4)] == map["news" := Sample(PUBLISH, -4)]
    ensures Sample(PUBLISH, -4).id == "news" && Sample(PUBLISH, -4).keyVersion == -4
  {
  }

  lemma SamplePublished(reg: Registry)
    requires reg.data == Data(map["news" := Sample(LISTENER, -5)], map[])
    ensures var (reg', result) := UpsertRelay(SAMPLE_ENV, reg, Sample(PUBLISH, 1), true);
            && reg'.data == Data(map["news" := Sample(PUBLISH, -4)], map[]) && reg'.file == Some(reg'.data)
            && result == Ok(Issued(-4, Some(RelayPassphrase(SAMPLE_ENV, "news", -4))))
  {
    hide NormalizeRelay, RelayPassphrase, Sample, RelayToStore, ConflictFree, DefaultClientOk;
    SampleNormal(PUBLISH, 1);
    SampleStored(reg.data);
  }

  lemma SampleKeys(reg: Registry)
    requires reg.file == Some(Data(map["news" := Sample(PUBLISH, -4)], map[]))
    ensures var keys := KeysOf(OfRelays, OnFile(reg)); "news" in keys && keys["news"] == Key(-4, true)
    ensures AssignmentsListen(OnFile(reg))
  {
  }

  lemma NegativeRun()
    ensures var a, b := PutRelay(Sample(LISTENER, -5), true), PutRelay(Sample(PUBLISH, 1), true);
            Run(SAMPLE_ENV, [a, b]).file == Some(Data(map["news" := Sample(PUBLISH, -4)], map[]))
  {
    var a, b := PutRelay(Sample(LISTENER, -5), true), PutRelay(Sample(PUBLISH, 1), true);
    hide UpsertRelay, Run, Sample;
    RunNothing(SAMPLE_ENV);
    RunLast(SAMPLE_ENV, [], a);
    RunLast(SAMPLE_ENV, [a], b);
    assert [] + [a] == [a] && [a] + [b] == [a, b];
    SampleCreated();
    SamplePublished(Run(SAMPLE_ENV, [a]));
  }

  lemma SampleLawful()
    ensures Lawful(SAMPLE_ENV)
  {
  }

  lemma SampleLoads(env: Env, reg: Registry)
    requires Inv(env, reg) && reg.file == Some(Data(map["news" := Sample(PUBLISH, -4)], map[]))
    ensures var (reg', up) := Restarted(env, reg);
            var keys := KeysOf(OfRelays, reg'.data);
            up && "news" in keys && keys["news"] == Key(1, true)
  {
    hide Inv, Restarted, KeysOf, Sample, AssignmentsListen;
    SampleKeys(reg);
    RestartGives(env, reg);
    RestartLoads(env, OfRelays, reg);
  }

  /** With every save successful: a listener created with key version -5 and then published
      is issued version -4, and after a restart its worker holds version 1, which was never
      issued. */
  lemma NegativeVersionLosesKey()
    ensures var ops := [PutRelay(Sample(LISTENER, -5), true), PutRelay(Sample(PUBLISH, 1), true), Restart];
            var keys := KeysOf(OfRelays, Run(SAMPLE_ENV, ops).data);
            && "news" in keys && keys["news"] == Key(1, true)
            && 1 !in IssuedFor(Kept(SAMPLE_ENV, OfRelays, ops).memory, "news")
  {
    var ab := [PutRelay(Sample(LISTENER, -5), true), PutRelay(Sample(PUBLISH, 1), true)];
    hide Lawful, Run, Kept, KeysOf, Inv, Restarted, Sample, SavedChange, SavedOnFile, Apply;
    assert ab + [Restart] == [PutRelay(Sample(LISTENER, -5), true), PutRelay(Sample(PUBLISH, 1), true), Restart];
    SampleLawful();
    NegativeRun();
    RunKeeps(SAMPLE_ENV, ab);
    SampleLoads(SAMPLE_ENV, Run(SAMPLE_ENV, ab));
    SampleKeys(Run(SAMPLE_ENV, ab));
    RunRestart(SAMPLE_ENV, ab);
    RestartKeepsKey(SAMPLE_ENV, OfRelays, ab, "news");
    WorkerHoldsLastIssued(SAMPLE_ENV, OfRelays, ab + [Restart], "news");
  }

  lemma RunRestart(env: Env, ops: seq<Op>)
    ensures Run(env, ops + [Restart]) == Restarted(env, Run(env, ops)).0
  {
    hide Restarted;
    RunLast(env, ops, Restart);
  }
}
