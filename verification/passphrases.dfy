/** The passphrases themselves: what is under the MAC tells the record and its version
    apart, so a run returns the same passphrase twice only for the same version of the
    same record. */
module Passphrases {
  import opened Text
  import opened Wrappers
  import opened Records
  import opened Registry
  import opened Runs
  import opened KeyIssuance

  /** What the MAC is taken of. */
  function Signed(kind: Kind, id: string, version: int): string {
    match kind
    case OfClients => "neotranscoder-srt:" + id + ":" + Itoa(version)
    case OfRelays => "neotranscoder-srt-publish:" + id + ":" + Itoa(version)
  }

  lemma Regroup(domain: string, id: string, number: string)
    ensures domain + [':'] + id + ":" + number == domain + [':'] + (id + [':'] + number)
  {
  }

  lemma SignedParts(kind: Kind, id: string, version: int)
    requires ValidID(id)
    ensures var domain := match kind case OfClients => "neotranscoder-srt" case OfRelays => "neotranscoder-srt-publish";
            Signed(kind, id, version) == domain + [':'] + (id + [':'] + Itoa(version)) && ':' !in domain && ':' !in id
  {
    var number := Itoa(version);
    hide Itoa;
    match kind {
      case OfClients =>
        Regroup("neotranscoder-srt", id, number);
        assert "neotranscoder-srt:" == "neotranscoder-srt" + [':'];
      case OfRelays =>
        Regroup("neotranscoder-srt-publish", id, number);
        assert "neotranscoder-srt-publish:" == "neotranscoder-srt-publish" + [':'];
    }
  }

  /** Kind, ID and version can be read off the signed text. */
  lemma SignedInjective(kind: Kind, id: string, version: int, kind': Kind, id': string, version': int)
    requires ValidID(id) && ValidID(id') && Signed(kind, id, version) == Signed(kind', id', version')
    ensures kind == kind' && id == id' && version == version'
  {
    SignedParts(kind, id, version);
    SignedParts(kind', id', version');
    hide Signed, Itoa, ValidID;
    var domain := match kind case OfClients => "neotranscoder-srt" case OfRelays => "neotranscoder-srt-publish";
    var domain' := match kind' case OfClients => "neotranscoder-srt" case OfRelays => "neotranscoder-srt-publish";
    FirstCutUnique(domain, id + [':'] + Itoa(version), domain', id' + [':'] + Itoa(version'), ':');
    FirstCutUnique(id, Itoa(version), id', Itoa(version'), ':');
    ItoaInjective(version, version');
    assert |"neotranscoder-srt"| != |"neotranscoder-srt-publish"|;
  }

  /** The MAC does not tell two different texts apart. */
  predicate Collide(env: Env, s: string, t: string) {
    s != t && env.mac(s) == env.mac(t)
  }

  // ---- what a call returns ----

  ghost function ResultAt(env: Env, ops: seq<Op>, i: nat): Result<Issued>
    requires i < |ops|
  {
    Apply(env, Run(env, ops[..i]), ops[i]).1
  }

  /** The call at i is about a record of this kind, and returned a passphrase. */
  ghost predicate Returns(env: Env, kind: Kind, ops: seq<Op>, i: nat)
    requires i < |ops|
  {
    About(kind, ops[i]) && Version(ResultAt(env, ops, i)).Some?
  }

  /** What it returned. */
  ghost function IssuedAt(env: Env, kind: Kind, ops: seq<Op>, i: nat): Issued
    requires i < |ops| && Returns(env, kind, ops, i)
  {
    ResultAt(env, ops, i).value
  }

  /** A passphrase returned is the MAC over the record and the version the call reports. */
  lemma OwnPassphrase(env: Env, kind: Kind, reg: Registry, op: Op)
    requires Lawful(env) && Inv(env, reg) && About(kind, op) && Version(Apply(env, reg, op).1).Some?
    ensures var result := Apply(env, reg, op).1;
            result.value.passphrase == Some(env.mac(Signed(kind, Subject(op), result.value.keyVersion)))
  {
    hide Lawful, Inv, UpsertRelay, RotateRelayKey, DeleteRelay, UpsertClient, RotateClientKey, DeleteClient, Moves, KeysOf, Itoa;
    match op {
      case PutRelay(relay, saved) => PutRelayMoves(env, reg, relay, saved);
      case RotateRelay(id, saved) => RotateRelayMoves(env, reg, id, saved);
      case PutClient(client, createOnly, now, saved) => PutClientMoves(env, reg, client, createOnly, now, saved);
      case RotateClient(id, now, saved) => RotateClientMoves(env, reg, id, now, saved);
      case RemoveRelay(_, _) =>
      case RemoveClient(_, _) =>
    }
  }

  lemma KeyIsValid(env: Env, kind: Kind, reg: Registry, id: string)
    requires Inv(env, reg) && id in KeysOf(kind, reg.data)
    ensures ValidID(id)
  {
    match kind {
      case OfClients => ClientFacts(env, reg.data, id);
      case OfRelays => RelayFacts(env, reg.data, id);
    }
  }

  lemma RunAt(env: Env, ops: seq<Op>, i: nat)
    requires i < |ops|
    ensures Run(env, ops[..i + 1]) == Apply(env, Run(env, ops[..i]), ops[i]).0
  {
    hide Apply, Run;
    RunLast(env, ops[..i], ops[i]);
    assert ops[..i + 1] == ops[..i] + [ops[i]];
  }

  lemma ReturnedIs(env: Env, kind: Kind, ops: seq<Op>, i: nat)
    requires Lawful(env) && i < |ops| && Returns(env, kind, ops, i)
    ensures var (id, issued) := (Subject(ops[i]), IssuedAt(env, kind, ops, i));
            && ValidID(id) && id in KeysOf(kind, Run(env, ops[..i + 1]).data)
            && issued.passphrase == Some(env.mac(Signed(kind, id, issued.keyVersion)))
  {
    hide Lawful, Run, Apply, KeysOf, Inv, Signed, Subject, ValidID;
    RunKeeps(env, ops[..i]);
    RunKeeps(env, ops[..i + 1]);
    RunAt(env, ops, i);
    OwnPassphrase(env, kind, Run(env, ops[..i]), ops[i]);
    VersionsOnlyGrow(env, kind, ops[..i], ops[i]);
    KeyIsValid(env, kind, Run(env, ops[..i + 1]), Subject(ops[i]));
  }

  /** In every run, failed saves and restarts included: two calls return the same
      passphrase if and only if they are about the same version of the same record, unless
      the MAC collides on the two texts. Clients and relays never share one. */
  lemma {:induction false} SamePassphraseExactly(env: Env, ops: seq<Op>, kind: Kind, i: nat, kind': Kind, j: nat)
    requires Lawful(env) && i < |ops| && j < |ops| && Returns(env, kind, ops, i) && Returns(env, kind', ops, j)
    ensures var (a, b) := (IssuedAt(env, kind, ops, i), IssuedAt(env, kind', ops, j));
            var (id, id') := (Subject(ops[i]), Subject(ops[j]));
            a.passphrase == b.passphrase <==>
              || (kind == kind' && id == id' && a.keyVersion == b.keyVersion)
              || Collide(env, Signed(kind, id, a.keyVersion), Signed(kind', id', b.keyVersion))
  {
    hide Lawful, Run, Apply, KeysOf, Signed, Subject, ValidID;
    ReturnedIs(env, kind, ops, i);
    ReturnedIs(env, kind', ops, j);
    var (a, b) := (IssuedAt(env, kind, ops, i), IssuedAt(env, kind', ops, j));
    if Signed(kind, Subject(ops[i]), a.keyVersion) == Signed(kind', Subject(ops[j]), b.keyVersion) {
      SignedInjective(kind, Subject(ops[i]), a.keyVersion, kind', Subject(ops[j]), b.keyVersion);
    }
  }

  // ---- a record that stays never gets a passphrase twice ----

  /** The version is in the books of memory and file. */
  ghost predicate Booked(env: Env, kind: Kind, ops: seq<Op>, id: string, version: int) {
    version in IssuedFor(Kept(env, kind, ops).memory, id) && version in IssuedFor(Kept(env, kind, ops).file, id)
  }

  lemma BookedAtIssue(env: Env, kind: Kind, ops: seq<Op>, i: nat)
    requires Lawful(env) && i < |ops| && Returns(env, kind, ops, i)
    ensures Booked(env, kind, ops[..i + 1], Subject(ops[i]), IssuedAt(env, kind, ops, i).keyVersion)
  {
    hide Lawful, Run, Apply, KeysOf, Signed, Subject, ValidID, Kept;
    ReturnedIs(env, kind, ops, i);
    RunAt(env, ops, i);
    assert ops[..i + 1][..i] == ops[..i];
    KeptStep(env, kind, ops[..i + 1]);
    FileStep(env, kind, ops[..i + 1]);
  }

  lemma EnteredMore(ledger: Ledger, keys': Keys, subject: string, issued: Option<int>, id: string)
    requires id in keys'
    ensures IssuedFor(ledger, id) <= IssuedFor(Enter(ledger, keys', subject, issued), id)
  {
  }

  lemma BookedStays(env: Env, kind: Kind, ops: seq<Op>, op: Op, id: string, version: int)
    requires Booked(env, kind, ops, id, version) && id in KeysOf(kind, Run(env, ops + [op]).data)
    ensures Booked(env, kind, ops + [op], id, version)
  {
    hide Run, Apply, KeysOf, Subject, Kept, Enter, IssuedFor, Restarted;
    var more := ops + [op];
    assert more[..|ops|] == ops;
    KeptStep(env, kind, more);
    FileStep(env, kind, more);
    var before, keys' := Kept(env, kind, ops), KeysOf(kind, Run(env, more).data);
    if op.Restart? {
      if Restarted(env, Run(env, ops)).1 {
        EnteredMore(before.file, keys', "", None, id);
      } else {
        FailedRestartSame(env, kind, more);
      }
    } else {
      EnteredMore(before.memory, keys', Subject(op), Entry(kind, op, Apply(env, Run(env, ops), op).1), id);
    }
  }

  ghost predicate Stays(env: Env, kind: Kind, ops: seq<Op>, i: nat, j: nat, id: string) {
    forall k | i < k <= j && k <= |ops| :: id in KeysOf(kind, Run(env, ops[..k]).data)
  }

  lemma {:induction false} BookedUntil(env: Env, kind: Kind, ops: seq<Op>, i: nat, j: nat)
    requires Lawful(env) && i < j <= |ops| && Returns(env, kind, ops, i)
    requires Stays(env, kind, ops, i, j, Subject(ops[i]))
    ensures Booked(env, kind, ops[..j], Subject(ops[i]), IssuedAt(env, kind, ops, i).keyVersion)
  {
    hide Lawful, Run, KeysOf, Subject, Booked, Returns, IssuedAt;
    if j == i + 1 {
      BookedAtIssue(env, kind, ops, i);
    } else {
      BookedUntil(env, kind, ops, i, j - 1);
      assert ops[..j] == ops[..j - 1] + [ops[j - 1]];
      BookedStays(env, kind, ops[..j - 1], ops[j - 1], Subject(ops[i]), IssuedAt(env, kind, ops, i).keyVersion);
    }
  }

  lemma LaterVersion(env: Env, kind: Kind, ops: seq<Op>, j: nat)
    requires Lawful(env) && j < |ops| && Returns(env, kind, ops, j)
    ensures forall v | v in IssuedFor(Kept(env, kind, ops[..j]).memory, Subject(ops[j])) :: v < IssuedAt(env, kind, ops, j).keyVersion
  {
    hide Lawful, Run, Apply, KeysOf, Subject, Kept;
    VersionsOnlyGrow(env, kind, ops[..j], ops[j]);
  }

  /** While a record stays, restarts and failed saves included, each passphrase returned
      for it is a new one, of a larger version. */
  lemma {:induction false} NewPassphraseEachTime(env: Env, kind: Kind, ops: seq<Op>, i: nat, j: nat)
    requires Lawful(env) && i < j < |ops| && Returns(env, kind, ops, i) && Returns(env, kind, ops, j)
    requires Subject(ops[i]) == Subject(ops[j]) && Stays(env, kind, ops, i, j, Subject(ops[i]))
    ensures var (a, b, id) := (IssuedAt(env, kind, ops, i), IssuedAt(env, kind, ops, j), Subject(ops[i]));
            && a.keyVersion < b.keyVersion
            && (a.passphrase != b.passphrase || Collide(env, Signed(kind, id, a.keyVersion), Signed(kind, id, b.keyVersion)))
  {
    hide Lawful, Run, Apply, KeysOf, Subject, Signed, Kept, Returns, IssuedAt;
    BookedUntil(env, kind, ops, i, j);
    LaterVersion(env, kind, ops, j);
    SamePassphraseExactly(env, ops, kind, i, kind, j);
  }

  // ---- a record that comes back does ----

  lemma CreatedClient(env: Env, reg: Registry, client: Client, createOnly: bool, now: int, saved: bool)
    requires Lawful(env) && Inv(env, reg) && client.id !in reg.data.clients
    ensures var result := UpsertClient(env, reg, client, createOnly, now, saved).1;
            result.Ok? ==> result.value.keyVersion == 1
  {
    hide Lawful, Inv, NormalizeClient, DataInv, CanonicalClient, DefaultsKept, ClientPassphrase;
    var n := NormalizeClient(env, reg.data.relays, Stamped(reg.data, client, now));
    if n.Ok? {
      ClientStart(env, reg, client, now);
    }
  }

  lemma ClientStart(env: Env, reg: Registry, client: Client, now: int)
    requires Lawful(env) && Inv(env, reg) && NormalizeClient(env, reg.data.relays, Stamped(reg.data, client, now)).Ok?
    ensures var n := NormalizeClient(env, reg.data.relays, Stamped(reg.data, client, now)).value;
            n.id == client.id && (client.id !in reg.data.clients ==> n.keyVersion == 1)
  {
    StoredClientFacts(env, reg.data, client, now);
  }

  /** Every creation of a client under one ID, at any two points of a run, returns the same
      passphrase: after a deletion the old one is valid again. */
  lemma {:induction false} RecreatedClientRepeats(env: Env, ops: seq<Op>, i: nat, j: nat)
    requires Lawful(env) && i < |ops| && j < |ops| && ops[i].PutClient? && ops[j].PutClient? && ops[i].client.id == ops[j].client.id
    requires Returns(env, OfClients, ops, i) && Returns(env, OfClients, ops, j)
    requires ops[i].client.id !in Run(env, ops[..i]).data.clients && ops[j].client.id !in Run(env, ops[..j]).data.clients
    ensures IssuedAt(env, OfClients, ops, i).keyVersion == IssuedAt(env, OfClients, ops, j).keyVersion == 1
    ensures IssuedAt(env, OfClients, ops, i).passphrase == IssuedAt(env, OfClients, ops, j).passphrase
            == Some(env.mac("neotranscoder-srt:" + ops[i].client.id + ":1"))
  {
    hide Lawful, Run, KeysOf, ValidID, Returns, IssuedAt, Signed;
    ReturnedIs(env, OfClients, ops, i);
    ReturnedIs(env, OfClients, ops, j);
    CreatedAt(env, ops, i);
    CreatedAt(env, ops, j);
    FirstSigned(ops[i].client.id);
  }

  lemma FirstSigned(id: string)
    ensures Signed(OfClients, id, 1) == "neotranscoder-srt:" + id + ":1"
  {
    assert Itoa(1) == "1";
  }

  lemma CreatedAt(env: Env, ops: seq<Op>, i: nat)
    requires Lawful(env) && i < |ops| && ops[i].PutClient? && ops[i].client.id !in Run(env, ops[..i]).data.clients
    requires Returns(env, OfClients, ops, i)
    ensures IssuedAt(env, OfClients, ops, i).keyVersion == 1
  {
    hide Lawful, Run, Inv, UpsertClient;
    RunKeeps(env, ops[..i]);
    var op := ops[i];
    CreatedClient(env, Run(env, ops[..i]), op.client, op.createOnly, op.now, op.saved);
  }
}
