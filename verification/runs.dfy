/** Runs of the registry over any number of lifetimes of the process: the API calls, each
    with the outcome of its save, and restarts from the state file. */
module Runs {
  import opened Wrappers
  import opened Text
  import opened Records
  import opened Registry
  import opened Persistence
  import Admission

  /** `SetState` and `SetBusy` stand for the supervisor's and the worker's updates of relay
      states and sessions, and `Restart` for the end of the process and a new NewStore. */
  datatype Op =
    | PutRelay(relay: Relay, saved: bool)
    | RotateRelay(id: string, saved: bool)
    | RemoveRelay(id: string, saved: bool)
    | PutClient(client: Client, createOnly: bool, now: int, saved: bool)
    | RotateClient(id: string, now: int, saved: bool)
    | RemoveClient(id: string, saved: bool)
    | SetState(id: string, status: string)
    | SetBusy(busy: set<string>)
    | Restart

  const NO_DATA: Data := Data(map[], map[])

  /** NewStore on the state file, and whether it comes up: every relay is stopped and nobody
      is connected. A file that does not load leaves everything to the next attempt. */
  ghost function Restarted(env: Env, reg: Registry): (Registry, bool) {
    if reg.file.None? then (EMPTY, true)
    else
      var loaded := Reload(env, reg.file.value);
      if loaded.Err? then (reg, false)
      else (Registry(loaded.value, map r | r in loaded.value.relays :: "stopped", {}, reg.file), true)
  }

  function Removal(result: Result<bool>): Result<Issued> {
    if result == Ok(true) then Ok(Issued(0, None)) else Err("not removed")
  }

  /** The state after an operation, and what it issued; Ok if and only if the state file was
      written. */
  ghost function Apply(env: Env, reg: Registry, op: Op): (Registry, Result<Issued>) {
    match op
    case PutRelay(relay, saved) => UpsertRelay(env, reg, relay, saved)
    case RotateRelay(id, saved) => RotateRelayKey(env, reg, id, saved)
    case RemoveRelay(id, saved) => var (reg', result) := DeleteRelay(reg, id, saved); (reg', Removal(result))
    case PutClient(client, createOnly, now, saved) => UpsertClient(env, reg, client, createOnly, now, saved)
    case RotateClient(id, now, saved) => RotateClientKey(env, reg, id, now, saved)
    case RemoveClient(id, saved) => var (reg', result) := DeleteClient(reg, id, saved); (reg', Removal(result))
    case SetState(id, status) => (reg.(states := reg.states[id := status]), Err("no call"))
    case SetBusy(busy) => (reg.(busy := busy), Err("no call"))
    case Restart => (Restarted(env, reg).0, Err("no call"))
  }

  ghost function Run(env: Env, ops: seq<Op>): Registry {
    if ops == [] then EMPTY else Apply(env, Run(env, ops[..|ops| - 1]), ops[|ops| - 1]).0
  }

  lemma RunLast(env: Env, ops: seq<Op>, op: Op)
    ensures Run(env, ops + [op]) == Apply(env, Run(env, ops), op).0
  {
    hide Apply;
    assert (ops + [op])[..|ops|] == ops;
  }

  // ---- the invariant ----

  lemma VersionDoesNotMatter(env: Env, r: Relay, version: int)
    requires CanonicalRelay(env, r)
    ensures CanonicalRelay(env, r.(keyVersion := version))
  {
  }

  lemma RepairedReferences(data: Data)
    requires ReferencesHold(data)
    ensures ReferencesHold(Data(Repaired(data.relays), data.clients))
  {
    RepairKeeps(data);
    hide AcceptsSame, DefaultClientOk;
    forall r, s | r in data.relays && s in data.relays && r != s
      ensures !Conflicts(Repaired(data.relays)[r], Repaired(data.relays)[s])
    {
      assert !Conflicts(data.relays[r], data.relays[s]);
    }
  }

  lemma RepairedKeeps(env: Env, data: Data)
    requires DataInv(env, data)
    ensures DataInv(env, Data(Repaired(data.relays), data.clients))
  {
    RepairedReferences(data);
    hide ReferencesHold, CanonicalRelay, CanonicalClient;
    forall r | r in data.relays ensures CanonicalRelay(env, Repaired(data.relays)[r]) && Repaired(data.relays)[r].id == r {
      VersionDoesNotMatter(env, data.relays[r], SoundVersion(data.relays[r]));
    }
  }

  /** What comes up after a restart. */
  lemma RestartGives(env: Env, reg: Registry)
    requires Inv(env, reg)
    ensures var (reg', up) := Restarted(env, reg);
            && (reg.file.None? ==> up && reg' == EMPTY)
            && (reg.file.Some? ==> up == AssignmentsListen(reg.file.value))
            && (reg.file.Some? && up ==>
                  && reg'.data == Data(Repaired(reg.file.value.relays), reg.file.value.clients)
                  && reg'.states == map r | r in reg'.data.relays :: "stopped")
            && (!up ==> reg' == reg) && (up ==> reg'.file == reg.file && reg'.busy == {})
  {
    hide DataInv, AssignmentsListen, Reload, Repaired;
    if reg.file.Some? { ReloadOutcome(env, reg.file.value); }
  }

  lemma RestartKeeps(env: Env, reg: Registry)
    requires Inv(env, reg)
    ensures Inv(env, Restarted(env, reg).0)
  {
    RestartGives(env, reg);
    assert DataInv(env, NO_DATA);
    hide DataInv, AssignmentsListen, Restarted;
    if reg.file.Some? { RepairedKeeps(env, reg.file.value); }
  }

  lemma ApplyKeeps(env: Env, reg: Registry, op: Op)
    requires Lawful(env) && Inv(env, reg)
    ensures Inv(env, Apply(env, reg, op).0)
  {
    if op.SetState? || op.SetBusy? { return; }
    hide Lawful, Inv, UpsertRelay, RotateRelayKey, DeleteRelay, UpsertClient, RotateClientKey, DeleteClient, Restarted;
    match op {
      case PutRelay(relay, saved) => UpsertRelayKeeps(env, reg, relay, saved);
      case RotateRelay(id, saved) => RotateRelayKeeps(env, reg, id, saved);
      case RemoveRelay(id, saved) => DeleteRelayKeeps(env, reg, id, saved);
      case PutClient(client, createOnly, now, saved) => UpsertClientKeeps(env, reg, client, createOnly, now, saved);
      case RotateClient(id, now, saved) => RotateClientKeeps(env, reg, id, now, saved);
      case RemoveClient(id, saved) => DeleteClientKeeps(env, reg, id, saved);
      case Restart => RestartKeeps(env, reg);
    }
  }

  lemma EmptyKeeps(env: Env)
    ensures Inv(env, EMPTY)
  {
  }

  lemma {:induction false} RunKeeps(env: Env, ops: seq<Op>)
    requires Lawful(env)
    ensures Inv(env, Run(env, ops))
  {
    hide Lawful, Apply, Inv;
    if ops == [] {
      EmptyKeeps(env);
    } else {
      RunKeeps(env, ops[..|ops| - 1]);
      ApplyKeeps(env, Run(env, ops[..|ops| - 1]), ops[|ops| - 1]);
    }
  }

  /** After any run of operations and restarts, failed saves included: every assigned relay
      exists, every compatibility default exists, is enabled and is assigned, no two
      listeners share an address and port, every relay has a state, and every relay is
      within the normaliser's bounds. */
  lemma {:induction false} RegistryInvariant(env: Env, ops: seq<Op>)
    requires Lawful(env)
    ensures var reg := Run(env, ops);
            && (forall c, i | c in reg.data.clients && 0 <= i < |reg.data.clients[c].allowedRelayIDs| ::
                  reg.data.clients[c].allowedRelayIDs[i] in reg.data.relays)
            && (forall r | r in reg.data.relays && reg.data.relays[r].allowMissingStreamID ::
                  var d := reg.data.relays[r].defaultClientID;
                  d in reg.data.clients && reg.data.clients[d].enabled && r in reg.data.clients[d].allowedRelayIDs)
            && (forall r, s | r in reg.data.relays && s in reg.data.relays && r != s
                  && reg.data.relays[r].direction == LISTENER && reg.data.relays[s].direction == LISTENER ::
                  (reg.data.relays[r].bindAddress, reg.data.relays[r].port) != (reg.data.relays[s].bindAddress, reg.data.relays[s].port))
            && (forall r | r in reg.data.relays :: r in reg.states && CanonicalRelay(env, reg.data.relays[r]))
  {
    RunKeeps(env, ops);
    var data := Run(env, ops).data;
    hide CanonicalRelay, CanonicalClient, Run;
    forall r | r in data.relays && data.relays[r].allowMissingStreamID
      ensures DefaultClientOk(data, data.relays[r]) && data.relays[r].id == r {}
    forall r, s | r in data.relays && s in data.relays && r != s ensures !Conflicts(data.relays[r], data.relays[s]) {}
  }

  // ---- the file ----

  lemma FileFollowsData(env: Env, reg: Registry, op: Op)
    ensures var (reg', result) := Apply(env, reg, op);
            && reg'.file == (if result.Ok? then Some(reg'.data) else reg.file)
            && (result.Ok? ==> !op.Restart? && !op.SetState? && !op.SetBusy? && op.saved)
  {
    hide NormalizeRelay, NormalizeClient, ConflictFree, DefaultClientOk, DefaultsKept, RelayToStore, ClientToStore, Stamped, Assigned,
      IsDefault, RelayPassphrase, ClientPassphrase, Reload;
  }

  ghost predicate KeepsDirections(env: Env, ops: seq<Op>) {
    forall i | 0 <= i < |ops| && ops[i].PutRelay? :: !ChangesDirection(env, Run(env, ops[..i]).data, ops[i].relay)
  }

  lemma KeepsPrefix(env: Env, ops: seq<Op>)
    requires KeepsDirections(env, ops) && ops != []
    ensures KeepsDirections(env, ops[..|ops| - 1])
    ensures var (front, op) := (ops[..|ops| - 1], ops[|ops| - 1]);
            op.PutRelay? ==> !ChangesDirection(env, Run(env, front).data, op.relay)
  {
    hide Run, ChangesDirection;
    var n := |ops| - 1;
    forall i | 0 <= i < n && ops[..n][i].PutRelay? ensures !ChangesDirection(env, Run(env, ops[..n][..i]).data, ops[..n][i].relay) {
      assert ops[..n][..i] == ops[..i];
    }
  }

  ghost predicate BothSafe(reg: Registry) {
    ReloadSafe(reg.data) && (reg.file.Some? ==> ReloadSafe(reg.file.value))
  }

  lemma RestartSafe(env: Env, reg: Registry)
    requires Inv(env, reg) && BothSafe(reg)
    ensures BothSafe(Restarted(env, reg).0)
    ensures Restarted(env, reg).1
    ensures reg.file.Some? ==> Restarted(env, reg).0.data == reg.file.value
  {
    RestartGives(env, reg);
    hide Restarted, DataInv;
    if reg.file.Some? { References(env, reg.file.value); RepairKeeps(reg.file.value); }
  }

  lemma ApplySafe(env: Env, reg: Registry, op: Op)
    requires Lawful(env) && Inv(env, reg) && BothSafe(reg)
    requires op.PutRelay? ==> !ChangesDirection(env, reg.data, op.relay)
    ensures BothSafe(Apply(env, reg, op).0)
  {
    FileFollowsData(env, reg, op);
    hide Lawful, Inv, ReloadSafe, ChangesDirection, UpsertRelay, RotateRelayKey, DeleteRelay, UpsertClient, RotateClientKey, DeleteClient, Restarted;
    match op {
      case PutRelay(relay, saved) => UpsertRelaySafe(env, reg, relay, saved);
      case RotateRelay(id, saved) => RotateRelaySafe(env, reg, id, saved);
      case RemoveRelay(id, saved) => DeleteRelaySafe(env, reg, id, saved);
      case PutClient(client, createOnly, now, saved) => UpsertClientSafe(env, reg, client, createOnly, now, saved);
      case RotateClient(id, now, saved) => RotateClientSafe(env, reg, id, now, saved);
      case RemoveClient(id, saved) => DeleteClientSafe(reg, id, saved);
      case SetState(_, _) =>
      case SetBusy(_) =>
      case Restart => RestartSafe(env, reg);
    }
  }

  lemma EmptySafe()
    ensures BothSafe(EMPTY)
  {
  }

  lemma {:induction false} RunSafe(env: Env, ops: seq<Op>)
    requires Lawful(env) && KeepsDirections(env, ops)
    ensures BothSafe(Run(env, ops))
  {
    hide Lawful, Apply, ChangesDirection, BothSafe, KeepsDirections, Inv;
    if ops == [] {
      EmptySafe();
    } else {
      var n := |ops| - 1;
      KeepsPrefix(env, ops);
      RunSafe(env, ops[..n]);
      RunKeeps(env, ops[..n]);
      ApplySafe(env, Run(env, ops[..n]), ops[n]);
    }
  }

  /** In every run, restarts and failed saves included, that changes no existing relay's
      direction: the state file and the state in memory both reload to exactly themselves,
      and a restart comes up with exactly what was last saved. */
  lemma {:induction false} PersistenceIdentity(env: Env, ops: seq<Op>)
    requires Lawful(env) && KeepsDirections(env, ops)
    ensures var reg := Run(env, ops);
            && (reg.file.Some? ==> Reload(env, reg.file.value) == Ok(reg.file.value))
            && Reload(env, reg.data) == Ok(reg.data)
            && Restarted(env, reg).1
            && Restarted(env, reg).0.data == (if reg.file.Some? then reg.file.value else NO_DATA)
  {
    RunSafe(env, ops);
    RunKeeps(env, ops);
    var reg := Run(env, ops);
    hide Run, Reload, Lawful, KeepsDirections, DataInv;
    ReloadIdentity(env, reg.data);
    if reg.file.Some? { ReloadIdentity(env, reg.file.value); }
    RestartSafe(env, reg);
  }

  // ---- a concrete stranding ----

  const SAMPLE_ENV: Env := Env(
    s => true, s => true, s => Some([]), s => Some(s), s => Some(Admission.Network(0, [])), s => false,
    s => "0123456789012345678901234567890123456789012")

  function SampleRelay(direction: string): Relay {
    Relay("news", "news", direction, "udp://239.0.0.1:1234", "", "0.0.0.0", 9000, "10.0.0.1", 9000, "feed",
          AES256, 1, 800, 1316, 16, 10, false, "", true)
  }

  const SAMPLE_CLIENT: Client := Client("partner", "partner", true, AES256, ["news"], ["10.0.0.0/8"], 1, 1, 0, 0)

  lemma SampleStrings()
    ensures ValidID("news") && Trim("news") == "news"
    ensures Trim("10.0.0.1") == "10.0.0.1" && SafeStreamID("feed")
  {
    ASCIITrimmed("news");
    TrimIsTrimmed("news");
    ASCIITrimmed("10.0.0.1");
    TrimIsTrimmed("10.0.0.1");
    ASCIITrimmed("feed");
    TrimIsTrimmed("feed");
  }

  lemma SampleCanonical(direction: string)
    requires direction == LISTENER || direction == PUBLISH
    ensures CanonicalRelay(SAMPLE_ENV, SampleRelay(direction))
  {
    hide Trim, ValidID, SafeStreamID;
    SampleStrings();
  }

  lemma SampleClientCanonical()
    ensures CanonicalClient(SAMPLE_ENV, SAMPLE_CLIENT)
  {
    ASCIITrimmed("partner");
    TrimIsTrimmed("partner");
  }

  const SAMPLE_DATA: Data := Data(map["news" := SampleRelay(LISTENER)], map["partner" := SAMPLE_CLIENT])

  lemma SampleFirst()
    ensures UpsertRelay(SAMPLE_ENV, EMPTY, SampleRelay(LISTENER), true).0 ==
            Registry(SAMPLE_DATA.(clients := map[]), map["news" := "stopped"], {}, Some(SAMPLE_DATA.(clients := map[])))
  {
    SampleCanonical(LISTENER);
    CanonicalRelayIsFixed(SAMPLE_ENV, SampleRelay(LISTENER));
    hide NormalizeRelay, CanonicalRelay;
  }

  lemma SampleSecond(reg: Registry)
    requires reg.data == SAMPLE_DATA.(clients := map[])
    ensures UpsertClient(SAMPLE_ENV, reg, SAMPLE_CLIENT, true, 0, true).0 == reg.(data := SAMPLE_DATA, file := Some(SAMPLE_DATA))
  {
    SampleClientCanonical();
    assert SAMPLE_CLIENT.allowedRelayIDs == ["news"];
    CanonicalClientIsFixed(SAMPLE_ENV, reg.data.relays, SAMPLE_CLIENT);
    hide NormalizeClient, CanonicalClient;
  }

  lemma SampleThird(reg: Registry)
    requires reg.data == SAMPLE_DATA
    ensures UpsertRelay(SAMPLE_ENV, reg, SampleRelay(PUBLISH), true).1.Ok?
    ensures NormalizeRelay(SAMPLE_ENV, SampleRelay(PUBLISH)) == Ok(SampleRelay(PUBLISH))
    ensures Assigned(SAMPLE_DATA, "news")
  {
    SampleCanonical(PUBLISH);
    CanonicalRelayIsFixed(SAMPLE_ENV, SampleRelay(PUBLISH));
    hide NormalizeRelay, CanonicalRelay;
    assert SAMPLE_CLIENT.allowedRelayIDs[0] == "news";
    assert "partner" in SAMPLE_DATA.clients && "news" in SAMPLE_DATA.clients["partner"].allowedRelayIDs;
  }

  lemma SampleRun()
    ensures var a, b := PutRelay(SampleRelay(LISTENER), true), PutClient(SAMPLE_CLIENT, true, 0, true);
            Run(SAMPLE_ENV, [a, b]).data == SAMPLE_DATA
  {
    var a, b := PutRelay(SampleRelay(LISTENER), true), PutClient(SAMPLE_CLIENT, true, 0, true);
    hide UpsertRelay, UpsertClient, Run, SampleRelay;
    SampleFirst();
    RunNothing(SAMPLE_ENV);
    RunLast(SAMPLE_ENV, [], a);
    RunLast(SAMPLE_ENV, [a], b);
    assert [] + [a] == [a] && [a] + [b] == [a, b];
    SampleSecond(Run(SAMPLE_ENV, [a]));
  }

  lemma RunNothing(env: Env)
    ensures Run(env, []) == EMPTY
  {
  }

  /** Three successful calls after which the process cannot restart: create a listener,
      assign a client to it, turn it into a publish relay. */
  lemma StrandingExample()
    ensures var ops := [PutRelay(SampleRelay(LISTENER), true), PutClient(SAMPLE_CLIENT, true, 0, true), PutRelay(SampleRelay(PUBLISH), true)];
            var reg := Run(SAMPLE_ENV, ops);
            && Lawful(SAMPLE_ENV) && reg.file == Some(reg.data) && Reload(SAMPLE_ENV, reg.data).Err?
            && !Restarted(SAMPLE_ENV, reg).1
  {
    var ab := [PutRelay(SampleRelay(LISTENER), true), PutClient(SAMPLE_CLIENT, true, 0, true)];
    var c := PutRelay(SampleRelay(PUBLISH), true);
    assert Lawful(SAMPLE_ENV);
    hide Reload, UpsertRelay, Lawful, NormalizeRelay, Assigned, Inv, Run, SampleRelay;
    SampleRun();
    RunLast(SAMPLE_ENV, ab, c);
    assert ab + [c] == [PutRelay(SampleRelay(LISTENER), true), PutClient(SAMPLE_CLIENT, true, 0, true), PutRelay(SampleRelay(PUBLISH), true)];
    SampleThird(Run(SAMPLE_ENV, ab));
    SampleDirection();
    RunKeeps(SAMPLE_ENV, ab);
    DirectionChangeBreaksReload(SAMPLE_ENV, Run(SAMPLE_ENV, ab), SampleRelay(PUBLISH));
  }

  lemma SampleDirection()
    ensures SampleRelay(PUBLISH).direction == PUBLISH && SampleRelay(PUBLISH).id == "news"
  {
  }
}
