/** Relay and client records and their canonical form. */
module Records {
  import opened Wrappers
  import opened Text
  import opened Ordering
  import Admission

  const LISTENER: string := "listener"
  const PUBLISH: string := "publish"
  const AES256: string := "aes-256"
  const NONE: string := "none"

  datatype Relay = Relay(
    id: string, name: string, direction: string, inputURL: string, networkInterface: string,
    bindAddress: string, port: int, destinationAddress: string, destinationPort: int, streamID: string,
    encryptionMode: string, keyVersion: int, latencyMS: int, payloadSize: int, maxClients: int,
    inputTimeoutSeconds: int, allowMissingStreamID: bool, defaultClientID: string, enabled: bool)

  datatype Client = Client(
    id: string, name: string, enabled: bool, encryptionMode: string,
    allowedRelayIDs: seq<string>, allowedCIDRs: seq<string>, maxSessions: int, keyVersion: int,
    createdAt: int, updatedAt: int)

  /** What the code takes from the URL, address and HMAC libraries. `inputURL` accepts a
      udp multicast URL with a numeric port; `destination` an IP address or DNS name;
      `mac` is the base64 HMAC-SHA256 under the master key. */
  datatype Env = Env(
    inputURL: string -> bool,
    destination: string -> bool,
    parseIP: string -> Option<Admission.Address>,
    normalizeCIDR: string -> Option<string>,
    parseCIDR: string -> Option<Admission.Network>,
    unrestricted: string -> bool,
    mac: string -> string)

  /** A normalised network is its own normal form and parses; 32 bytes make 43 characters. */
  ghost predicate Lawful(env: Env) {
    NetworksLawful(env) && forall m :: |env.mac(m)| == 43
  }

  ghost predicate NetworksLawful(env: Env) {
    forall v :: env.normalizeCIDR(v).Some? ==>
      var n := env.normalizeCIDR(v).value;
      env.normalizeCIDR(n) == Some(n) && env.parseCIDR(n).Some?
  }

  predicate IDStart(c: char) {
    'A' <= c <= 'Z' || 'a' <= c <= 'z' || '0' <= c <= '9'
  }

  /** idPattern. */
  predicate ValidID(id: string) {
    && 3 <= |id| <= 64
    && IDStart(id[0])
    && forall i | 0 <= i < |id| :: IDStart(id[i]) || id[i] in {'_', '.', '-'}
  }

  lemma ValidIDTrimmed(id: string)
    requires ValidID(id)
    ensures Trim(id) == id && id != ""
  {
    ASCIITrimmed(id);
    TrimIsTrimmed(id);
  }

  // ---- relays ----

  predicate SafeStreamID(s: string) {
    && Trim(s) != ""
    && |s| <= 512
    && forall i | 0 <= i < |s| :: s[i] !in {'\r', '\n', NUL}
  }

  function WithDefault(value: int, fallback: int): int {
    if value == 0 then fallback else value
  }

  function NormalizePublish(env: Env, r: Relay): Result<Relay> {
    var destination := Trim(r.destinationAddress);
    var mode := if r.encryptionMode == "" then AES256 else r.encryptionMode;
    if !env.destination(destination) then Err("destination_address")
    else if r.destinationPort < 1 || r.destinationPort > 65535 then Err("destination_port")
    else if !SafeStreamID(r.streamID) then Err("stream_id")
    else if mode != AES256 && mode != NONE then Err("encryption_mode")
    else Ok(r.(allowMissingStreamID := false, defaultClientID := "", destinationAddress := destination,
               encryptionMode := mode, keyVersion := if r.keyVersion < 1 then 1 else r.keyVersion))
  }

  function NormalizeListener(env: Env, r: Relay): Result<Relay> {
    var bind := if r.bindAddress == "" then "0.0.0.0" else r.bindAddress;
    var clientID := if r.allowMissingStreamID then Trim(r.defaultClientID) else "";
    if r.allowMissingStreamID && !ValidID(clientID) then Err("default_client_id")
    else if env.parseIP(bind).None? then Err("bind_address")
    else if r.port < 1 || r.port > 65535 then Err("port")
    else Ok(r.(bindAddress := bind, defaultClientID := clientID))
  }

  function NormalizeLimits(r: Relay): Result<Relay> {
    var latency, payload := WithDefault(r.latencyMS, 800), WithDefault(r.payloadSize, 1316);
    var clients, timeout := WithDefault(r.maxClients, 16), WithDefault(r.inputTimeoutSeconds, 10);
    if latency < 20 || latency > 60000 then Err("latency_ms")
    else if payload < 188 || payload > 1456 || payload % 188 != 0 then Err("payload_size")
    else if clients < 1 || clients > 1000 then Err("max_clients")
    else if timeout < 3 || timeout > 300 then Err("input_timeout_seconds")
    else Ok(r.(latencyMS := latency, payloadSize := payload, maxClients := clients, inputTimeoutSeconds := timeout))
  }

  function NormalizeRelay(env: Env, r: Relay): Result<Relay> {
    if !ValidID(r.id) then Err("id")
    else
      var named := r.(name := if Trim(r.name) == "" then r.id else r.name,
                      direction := if r.direction == "" then LISTENER else r.direction);
      if named.direction != LISTENER && named.direction != PUBLISH then Err("direction")
      else if !env.inputURL(r.inputURL) then Err("input_url")
      else
        var sided := if named.direction == PUBLISH then NormalizePublish(env, named) else NormalizeListener(env, named);
        if sided.Err? then sided else NormalizeLimits(sided.value)
  }

  predicate CanonicalSide(env: Env, r: Relay) {
    && (r.direction == LISTENER || r.direction == PUBLISH)
    && (r.direction == PUBLISH ==>
          && !r.allowMissingStreamID && r.defaultClientID == ""
          && Trim(r.destinationAddress) == r.destinationAddress && env.destination(r.destinationAddress)
          && 1 <= r.destinationPort <= 65535 && SafeStreamID(r.streamID)
          && (r.encryptionMode == AES256 || r.encryptionMode == NONE))
    && (r.direction == LISTENER ==>
          && r.bindAddress != "" && env.parseIP(r.bindAddress).Some? && 1 <= r.port <= 65535
          && (r.allowMissingStreamID ==> ValidID(r.defaultClientID))
          && (!r.allowMissingStreamID ==> r.defaultClientID == ""))
  }

  predicate CanonicalLimits(r: Relay) {
    && 20 <= r.latencyMS <= 60000
    && 188 <= r.payloadSize <= 1456 && r.payloadSize % 188 == 0
    && 1 <= r.maxClients <= 1000
    && 3 <= r.inputTimeoutSeconds <= 300
  }

  /** A stored relay, up to its key version: a fixed point of the normaliser. */
  predicate CanonicalRelay(env: Env, r: Relay) {
    && ValidID(r.id) && Trim(r.name) != "" && env.inputURL(r.inputURL)
    && CanonicalSide(env, r)
    && CanonicalLimits(r)
  }

  function SoundVersion(r: Relay): int {
    if r.direction == PUBLISH && r.keyVersion < 1 then 1 else r.keyVersion
  }

  lemma NormalizedSide(env: Env, r: Relay)
    requires r.direction == LISTENER || r.direction == PUBLISH
    ensures var sided := if r.direction == PUBLISH then NormalizePublish(env, r) else NormalizeListener(env, r);
            sided.Ok? ==>
              && CanonicalSide(env, sided.value)
              && sided.value == r.(allowMissingStreamID := sided.value.allowMissingStreamID,
                                   defaultClientID := sided.value.defaultClientID,
                                   destinationAddress := sided.value.destinationAddress,
                                   bindAddress := sided.value.bindAddress,
                                   encryptionMode := sided.value.encryptionMode,
                                   keyVersion := SoundVersion(r))
  {
    TrimIsTrimmed(r.destinationAddress);
    TrimIsTrimmed(Trim(r.destinationAddress));
  }

  lemma NormalizedLimits(env: Env, r: Relay)
    requires CanonicalSide(env, r) && NormalizeLimits(r).Ok?
    ensures var n := NormalizeLimits(r).value;
            && CanonicalSide(env, n) && CanonicalLimits(n)
            && n == r.(latencyMS := n.latencyMS, payloadSize := n.payloadSize, maxClients := n.maxClients,
                       inputTimeoutSeconds := n.inputTimeoutSeconds)
  {
  }

  /** Normalising yields a canonical relay, ... */
  lemma NormalizedRelayIsCanonical(env: Env, r: Relay)
    requires NormalizeRelay(env, r).Ok?
    ensures CanonicalRelay(env, NormalizeRelay(env, r).value)
    ensures NormalizeRelay(env, r).value.id == r.id
    ensures NormalizeRelay(env, r).value.keyVersion == SoundVersion(r.(direction := NormalizeRelay(env, r).value.direction))
  {
    ValidIDTrimmed(r.id);
    var named := r.(name := if Trim(r.name) == "" then r.id else r.name,
                    direction := if r.direction == "" then LISTENER else r.direction);
    NormalizedSide(env, named);
    var sided := if named.direction == PUBLISH then NormalizePublish(env, named) else NormalizeListener(env, named);
    hide NormalizePublish, NormalizeListener, NormalizeLimits, CanonicalSide, CanonicalLimits, Trim, ValidID;
    NormalizedLimits(env, sided.value);
  }

  /** ... and keeps a canonical one, except that a publish relay's version becomes at least 1. */
  lemma CanonicalRelayIsFixed(env: Env, r: Relay)
    requires CanonicalRelay(env, r)
    ensures NormalizeRelay(env, r) == Ok(r.(keyVersion := SoundVersion(r)))
  {
    if r.direction == LISTENER && r.allowMissingStreamID {
      ValidIDTrimmed(r.defaultClientID);
    }
  }

  /** The relay with its empty and zero fields filled in. */
  function FilledRelay(r: Relay): Relay {
    var filled := r.(
      name := if Trim(r.name) == "" then r.id else r.name,
      latencyMS := if r.latencyMS == 0 then 800 else r.latencyMS,
      payloadSize := if r.payloadSize == 0 then 1316 else r.payloadSize,
      maxClients := if r.maxClients == 0 then 16 else r.maxClients,
      inputTimeoutSeconds := if r.inputTimeoutSeconds == 0 then 10 else r.inputTimeoutSeconds);
    if r.direction == "publish" then
      filled.(allowMissingStreamID := false, defaultClientID := "", destinationAddress := Trim(r.destinationAddress),
              encryptionMode := if r.encryptionMode == "" then "aes-256" else r.encryptionMode,
              keyVersion := if r.keyVersion < 1 then 1 else r.keyVersion)
    else
      filled.(direction := if r.direction == "" then "listener" else r.direction,
              bindAddress := if r.bindAddress == "" then "0.0.0.0" else r.bindAddress,
              defaultClientID := if r.allowMissingStreamID then Trim(r.defaultClientID) else "")
  }

  lemma PublishExactly(env: Env, r: Relay)
    requires r.direction == "publish"
    ensures var filled := r.(allowMissingStreamID := false, defaultClientID := "", destinationAddress := Trim(r.destinationAddress),
                             encryptionMode := if r.encryptionMode == "" then "aes-256" else r.encryptionMode,
                             keyVersion := if r.keyVersion < 1 then 1 else r.keyVersion);
            if CanonicalSide(env, filled) then NormalizePublish(env, r) == Ok(filled) else NormalizePublish(env, r).Err?
  {
    TrimIsTrimmed(r.destinationAddress);
    TrimIsTrimmed(Trim(r.destinationAddress));
    hide Trim, SafeStreamID, ValidID;
  }

  lemma ListenerExactly(env: Env, r: Relay)
    requires r.direction == "listener"
    ensures var filled := r.(bindAddress := if r.bindAddress == "" then "0.0.0.0" else r.bindAddress,
                             defaultClientID := if r.allowMissingStreamID then Trim(r.defaultClientID) else "");
            if CanonicalSide(env, filled) then NormalizeListener(env, r) == Ok(filled) else NormalizeListener(env, r).Err?
  {
    hide Trim, SafeStreamID, ValidID;
  }

  lemma LimitsExactly(r: Relay)
    ensures var filled := r.(latencyMS := if r.latencyMS == 0 then 800 else r.latencyMS,
                             payloadSize := if r.payloadSize == 0 then 1316 else r.payloadSize,
                             maxClients := if r.maxClients == 0 then 16 else r.maxClients,
                             inputTimeoutSeconds := if r.inputTimeoutSeconds == 0 then 10 else r.inputTimeoutSeconds);
            if CanonicalLimits(filled) then NormalizeLimits(r) == Ok(filled) else NormalizeLimits(r).Err?
  {
  }

  lemma SideIgnoresRest(env: Env, r: Relay, s: Relay)
    requires s == r.(name := s.name, latencyMS := s.latencyMS, payloadSize := s.payloadSize, maxClients := s.maxClients,
                     inputTimeoutSeconds := s.inputTimeoutSeconds)
    ensures CanonicalSide(env, r) == CanonicalSide(env, s)
  {
  }

  /** The normaliser fills in the defaults and accepts exactly what is canonical then. */
  lemma NormalizedRelayExactly(env: Env, r: Relay)
    ensures NormalizeRelay(env, r).Ok? <==> CanonicalRelay(env, FilledRelay(r))
    ensures NormalizeRelay(env, r).Ok? ==> NormalizeRelay(env, r).value == FilledRelay(r)
  {
    hide Trim, ValidID, CanonicalSide, CanonicalLimits, NormalizePublish, NormalizeListener, NormalizeLimits, FilledRelay;
    FilledName(r);
    FilledSide(env, r);
    var named := r.(name := if Trim(r.name) == "" then r.id else r.name,
                    direction := if r.direction == "" then LISTENER else r.direction);
    if named.direction == LISTENER {
      SidedExactly(env, r, named, NormalizeListener(env, named));
    } else if named.direction == PUBLISH {
      SidedExactly(env, r, named, NormalizePublish(env, named));
    }
  }

  lemma FilledSide(env: Env, r: Relay)
    ensures var named := r.(name := if Trim(r.name) == "" then r.id else r.name, direction := if r.direction == "" then LISTENER else r.direction);
            var filled := FilledRelay(r).(latencyMS := r.latencyMS, payloadSize := r.payloadSize, maxClients := r.maxClients,
                                          inputTimeoutSeconds := r.inputTimeoutSeconds);
            && FilledRelay(r).id == r.id && FilledRelay(r).inputURL == r.inputURL
            && (named.direction == LISTENER ==>
                  if CanonicalSide(env, filled) then NormalizeListener(env, named) == Ok(filled) else NormalizeListener(env, named).Err?)
            && (named.direction == PUBLISH ==>
                  if CanonicalSide(env, filled) then NormalizePublish(env, named) == Ok(filled) else NormalizePublish(env, named).Err?)
            && (named.direction != LISTENER && named.direction != PUBLISH ==> !CanonicalSide(env, FilledRelay(r)))
  {
    var named := r.(name := if Trim(r.name) == "" then r.id else r.name, direction := if r.direction == "" then LISTENER else r.direction);
    hide NormalizeListener, NormalizePublish, Trim;
    if named.direction == LISTENER {
      hide CanonicalSide;
      ListenerExactly(env, named);
    } else if named.direction == PUBLISH {
      hide CanonicalSide;
      PublishExactly(env, named);
    }
  }

  lemma FilledName(r: Relay)
    ensures ValidID(r.id) ==> Trim(FilledRelay(r).name) != ""
  {
    if ValidID(r.id) { ValidIDTrimmed(r.id); }
  }

  lemma SidedExactly(env: Env, r: Relay, named: Relay, sided: Result<Relay>)
    requires named == r.(name := if Trim(r.name) == "" then r.id else r.name, direction := if r.direction == "" then "listener" else r.direction)
    requires named.direction == "listener" || named.direction == "publish"
    requires var filled := FilledRelay(r).(latencyMS := r.latencyMS, payloadSize := r.payloadSize, maxClients := r.maxClients,
                                           inputTimeoutSeconds := r.inputTimeoutSeconds);
             if CanonicalSide(env, filled) then sided == Ok(filled) else sided.Err?
    ensures var result := if sided.Err? then sided else NormalizeLimits(sided.value);
            && (result.Ok? <==> CanonicalSide(env, FilledRelay(r)) && CanonicalLimits(FilledRelay(r)))
            && (result.Ok? ==> result.value == FilledRelay(r))
  {
    hide Trim, CanonicalSide, CanonicalLimits, NormalizeLimits;
    var filled := FilledRelay(r).(latencyMS := r.latencyMS, payloadSize := r.payloadSize, maxClients := r.maxClients,
                                  inputTimeoutSeconds := r.inputTimeoutSeconds);
    SideIgnoresRest(env, filled, FilledRelay(r));
    LimitsExactly(filled);
  }

  // ---- clients ----

  function NormalizeCIDRs(env: Env, mode: string, values: seq<string>): Result<seq<string>> {
    if values == [] then Ok([])
    else
      var n := env.normalizeCIDR(values[0]);
      if n.None? then Err("allowed_cidrs")
      else if mode == NONE && env.unrestricted(n.value) then Err("unrestricted")
      else
        var rest := NormalizeCIDRs(env, mode, values[1..]);
        if rest.Err? then rest else Ok([n.value] + rest.value)
  }

  predicate AcceptsClients(relays: map<string, Relay>, ids: seq<string>) {
    forall i | 0 <= i < |ids| :: ids[i] in relays && relays[ids[i]].direction == LISTENER
  }

  /** normalizeClientLocked. */
  ghost function NormalizeClient(env: Env, relays: map<string, Relay>, c: Client): Result<Client> {
    var mode := if c.encryptionMode == "" then AES256 else c.encryptionMode;
    if !ValidID(c.id) then Err("id")
    else if mode != AES256 && mode != NONE then Err("encryption_mode")
    else if c.allowedRelayIDs == [] then Err("allowed_relay_ids")
    else if !AcceptsClients(relays, c.allowedRelayIDs) then Err("relay")
    else if c.allowedCIDRs == [] then Err("allowed_cidrs")
    else
      var cidrs := NormalizeCIDRs(env, mode, c.allowedCIDRs);
      var sessions := WithDefault(c.maxSessions, 1);
      if cidrs.Err? then Err(cidrs.reason)
      else if sessions < 1 || sessions > 1000 then Err("max_sessions")
      else Ok(c.(name := if Trim(c.name) == "" then c.id else c.name, encryptionMode := mode,
                 allowedRelayIDs := Listing(Elements(c.allowedRelayIDs)), allowedCIDRs := Sort(cidrs.value),
                 maxSessions := sessions, keyVersion := if c.keyVersion < 1 then 1 else c.keyVersion))
  }

  ghost predicate CanonicalCIDR(env: Env, mode: string, value: string) {
    env.normalizeCIDR(value) == Some(value) && !(mode == NONE && env.unrestricted(value))
  }

  ghost predicate CanonicalClient(env: Env, c: Client) {
    && ValidID(c.id) && Trim(c.name) != ""
    && (c.encryptionMode == AES256 || c.encryptionMode == NONE)
    && c.allowedRelayIDs != [] && Sorted(c.allowedRelayIDs) && Distinct(c.allowedRelayIDs)
    && c.allowedCIDRs != [] && Sorted(c.allowedCIDRs)
    && (forall i | 0 <= i < |c.allowedCIDRs| :: CanonicalCIDR(env, c.encryptionMode, c.allowedCIDRs[i]))
    && 1 <= c.maxSessions <= 1000
    && c.keyVersion >= 1
  }

  lemma {:induction false} NormalizedCIDRs(env: Env, mode: string, values: seq<string>)
    requires Lawful(env) && NormalizeCIDRs(env, mode, values).Ok?
    ensures |NormalizeCIDRs(env, mode, values).value| == |values|
    ensures forall i | 0 <= i < |values| :: CanonicalCIDR(env, mode, NormalizeCIDRs(env, mode, values).value[i])
  {
    if values != [] { NormalizedCIDRs(env, mode, values[1..]); }
  }

  lemma {:induction false} CanonicalCIDRsFixed(env: Env, mode: string, values: seq<string>)
    requires forall i | 0 <= i < |values| :: CanonicalCIDR(env, mode, values[i])
    ensures NormalizeCIDRs(env, mode, values) == Ok(values)
  {
    if values != [] {
      CanonicalCIDRsFixed(env, mode, values[1..]);
      assert [values[0]] + values[1..] == values;
    }
  }

  lemma SortedCIDRsCanonical(env: Env, mode: string, values: seq<string>)
    requires Lawful(env) && NormalizeCIDRs(env, mode, values).Ok?
    ensures var sorted := Sort(NormalizeCIDRs(env, mode, values).value);
            && Sorted(sorted) && |sorted| == |values|
            && forall i | 0 <= i < |sorted| :: CanonicalCIDR(env, mode, sorted[i])
  {
    var cidrs := NormalizeCIDRs(env, mode, values).value;
    NormalizedCIDRs(env, mode, values);
    SortSorts(cidrs);
    forall i | 0 <= i < |Sort(cidrs)| ensures CanonicalCIDR(env, mode, Sort(cidrs)[i]) {
      assert Sort(cidrs)[i] in multiset(cidrs);
    }
  }

  lemma NormalizedClientIsCanonical(env: Env, relays: map<string, Relay>, c: Client)
    requires Lawful(env) && NormalizeClient(env, relays, c).Ok?
    ensures var n := NormalizeClient(env, relays, c).value;
            && CanonicalClient(env, n) && AcceptsClients(relays, n.allowedRelayIDs)
            && n.id == c.id && (c.keyVersion >= 1 ==> n.keyVersion == c.keyVersion)
            && n.enabled == c.enabled && n.createdAt == c.createdAt && n.updatedAt == c.updatedAt
            && Elements(n.allowedRelayIDs) == Elements(c.allowedRelayIDs)
  {
    var n := NormalizeClient(env, relays, c).value;
    ValidIDTrimmed(c.id);
    SortedCIDRsCanonical(env, n.encryptionMode, c.allowedCIDRs);
    assert c.allowedRelayIDs[0] in Elements(c.allowedRelayIDs);
    forall i | 0 <= i < |n.allowedRelayIDs|
      ensures n.allowedRelayIDs[i] in relays && relays[n.allowedRelayIDs[i]].direction == LISTENER
    {
      assert n.allowedRelayIDs[i] in Elements(n.allowedRelayIDs);
    }
  }

  /** A canonical client is accepted again exactly while every relay it names is a
      listener, and then it is unchanged. */
  lemma CanonicalClientIsFixed(env: Env, relays: map<string, Relay>, c: Client)
    requires CanonicalClient(env, c)
    ensures if AcceptsClients(relays, c.allowedRelayIDs) then NormalizeClient(env, relays, c) == Ok(c)
            else NormalizeClient(env, relays, c).Err?
  {
    CanonicalCIDRsFixed(env, c.encryptionMode, c.allowedCIDRs);
    SortKeepsSorted(c.allowedCIDRs);
    ListingUnique(c.allowedRelayIDs, Listing(Elements(c.allowedRelayIDs)));
  }

  lemma {:induction false} CIDRsExactly(env: Env, mode: string, values: seq<string>)
    ensures NormalizeCIDRs(env, mode, values).Ok? <==>
              forall i | 0 <= i < |values| ::
                env.normalizeCIDR(values[i]).Some? && !(mode == "none" && env.unrestricted(env.normalizeCIDR(values[i]).value))
    ensures NormalizeCIDRs(env, mode, values).Ok? ==>
              && |NormalizeCIDRs(env, mode, values).value| == |values|
              && forall i | 0 <= i < |values| :: env.normalizeCIDR(values[i]) == Some(NormalizeCIDRs(env, mode, values).value[i])
  {
    if values != [] {
      CIDRsExactly(env, mode, values[1..]);
      assert forall i | 1 <= i < |values| :: values[i] == values[1..][i - 1];
    }
  }

  /** A client is accepted exactly if its ID and mode are valid, it names relays, all of them
      listeners, and networks, all of which normalise and none of which is unrestricted
      without encryption, and its session limit is in range; an empty mode is "aes-256" and
      a limit of 0 is 1. The stored record names the same relays in order, has the
      normalised networks, and a version of at least 1. */
  lemma {:induction false} NormalizedClientExactly(env: Env, relays: map<string, Relay>, c: Client)
    ensures var mode := if c.encryptionMode == "" then "aes-256" else c.encryptionMode;
            var sessions := if c.maxSessions == 0 then 1 else c.maxSessions;
            NormalizeClient(env, relays, c).Ok? <==>
              && ValidID(c.id) && (mode == "aes-256" || mode == "none")
              && c.allowedRelayIDs != []
              && (forall i | 0 <= i < |c.allowedRelayIDs| ::
                    c.allowedRelayIDs[i] in relays && relays[c.allowedRelayIDs[i]].direction == "listener")
              && c.allowedCIDRs != []
              && (forall i | 0 <= i < |c.allowedCIDRs| ::
                    && env.normalizeCIDR(c.allowedCIDRs[i]).Some?
                    && !(mode == "none" && env.unrestricted(env.normalizeCIDR(c.allowedCIDRs[i]).value)))
              && 1 <= sessions <= 1000
    ensures NormalizeClient(env, relays, c).Ok? ==>
              var n := NormalizeClient(env, relays, c).value;
              && n.id == c.id && n.name == (if Trim(c.name) == "" then c.id else c.name)
              && n.enabled == c.enabled && n.createdAt == c.createdAt && n.updatedAt == c.updatedAt
              && n.encryptionMode == (if c.encryptionMode == "" then "aes-256" else c.encryptionMode)
              && n.maxSessions == (if c.maxSessions == 0 then 1 else c.maxSessions)
              && n.keyVersion == (if c.keyVersion < 1 then 1 else c.keyVersion)
              && Elements(n.allowedRelayIDs) == Elements(c.allowedRelayIDs)
              && Sorted(n.allowedRelayIDs) && Distinct(n.allowedRelayIDs) && Sorted(n.allowedCIDRs)
              && multiset(n.allowedCIDRs) == multiset(NormalizeCIDRs(env, n.encryptionMode, c.allowedCIDRs).value)
  {
    var mode := if c.encryptionMode == "" then AES256 else c.encryptionMode;
    CIDRsExactly(env, mode, c.allowedCIDRs);
    hide ValidID, Trim, NormalizeCIDRs;
    if NormalizeClient(env, relays, c).Ok? {
      SortSorts(NormalizeCIDRs(env, mode, c.allowedCIDRs).value);
    }
  }

  /** Identifiers, by their octets. */
  lemma ValidIDMeans(id: string)
    ensures ValidID(id) <==>
            && 3 <= |id| <= 64 && id[0] !in {'_', '.', '-'}
            && forall i | 0 <= i < |id| ::
                 var c := id[i] as int;
                 48 <= c <= 57 || 65 <= c <= 90 || 97 <= c <= 122 || id[i] in {'_', '.', '-'}
  {
  }
}
