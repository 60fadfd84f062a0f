# NeoTranscoder control plane: a verified model

NeoTranscoder's Go backend supervises FFmpeg and SRT processes. This project models
the stateful logic left when sockets, processes and the user interface are taken
away, and proves what it keeps over every run.

| file | what it models |
|---|---|
| `admission.dfy`, `stream_id.dfy`, `rate_limit.dfy`, `fixed_window.dfy` | Admission of SRT callers: the callback that reserves a slot, the accept loop, the expiry timers and the shutdown, as critical sections that interleave in any order; caller identity; the connection limiter |
| `delivery.dfy`, `continuity.dfy` | Cutting the multicast input into packets, the queue of each session, and the continuity counters of ISO/IEC 13818-1 |
| `worker.dfy` | The worker process as objects; every method is tied to a step of the files above |
| `ordering.dfy`, `records.dfy`, `registry.dfy`, `persistence.dfy`, `loading.dfy`, `runs.dfy`, `registry_calls.dfy`, `key_issuance.dfy`, `key_lifetimes.dfy`, `passphrases.dfy`, `sessions.dfy` | The SRT registry: normal forms, cross-references, saving and loading, runs with restarts, when records come and go, key versions and passphrases, session history and input status |
| `worker_config.dfy` | The configuration the registry hands to a worker, and the worker's validation of it |
| `store.dfy` | The registry as the object the API calls, with its loops and its file |
| `audit.dfy`, `audit_meaning.dfy`, `stream_logs.dfy`, `log_meaning.dfy`, `splitter.dfy`, `line_meaning.dfy` | The audit journal, the log buffer, and the line splitter on FFmpeg's output |
| `supervision.dfy`, `supervision_steps.dfy`, `watchdog.dfy` | Process life cycle with restart budgets, for both managers; the watchdog over runs of samples |
| `pbkdf2.dfy` | The password key derivation loop of section 5.2 of RFC 8018 |

Protocols are state machines: an event is one critical section, `Run` folds a sequence
of events, and the main theorems quantify over all sequences. Methods and loops of the
code are Dafny methods over the same fields, each proved equal to a step or function of
the specification; a map iteration picks its keys in any order. Outcomes that depend on
the outside, such as a failed write, a failed spawn, the clock, a random session ID or
an abandoned select case, are parameters.

`Records.Env` holds what comes from libraries: URL and address parsing, network normal
forms, and the HMAC. Only two facts about it are used: a normalised network parses and
is its own normal form, and a passphrase has 43 characters. That no two texts have the
same MAC is not assumed; where it matters, a collision is the stated exception. Strings
are sequences of bytes, one `char` each; times are integers.

Where the code and its surroundings say different things, the code is followed:

- A stored change of an existing relay from listener to publish is accepted although
  clients are assigned to it, and the resulting file is then refused on the next start.
  `Persistence` proves exactly which updates do that.
- Memory is changed before the file is written. When the write fails, the call reports
  an error but the change stays, and a rotated key is in use without having been
  returned, unless a restart takes it back. `KeyIssuance` and `KeyLifetimes` prove exactly
  when a worker holds an issued key and when a version goes down.
- A relay may be created with a negative key version; loading raises it to 1 once it
  publishes, and the passphrase in use is then one that was never issued.
- A client that is deleted and created again starts at version 1 and gets the passphrase
  it had then; `Passphrases` proves that a record that stays never gets one twice.
- A worker's buffered report about a session that the supervisor has already ended
  replaces its end. `Sessions` proves exactly which such reports make the history keep a
  session that ended before one it dropped.
- The continuity tracker counts a permitted duplicate packet (ISO/IEC 13818-1, section
  2.4.3.3) as an error, exactly one.
- An operator's stop does not cancel a restart that is already in its backoff, nor the
  retry of a relay that is still marked as flapping; `Supervision` proves exactly when a
  stop is final.
- A log entry with an earlier time than the one before it, or a retention that is raised,
  does not bring back what was dropped; `StreamLogs` proves exactly when that shows.
- An unfiltered audit clear returns the number of files, a filtered one that of events.

## Model

| member | source | states |
|---|---|---|
| Admission.AdmissionConservation | internal/srtworker/worker.go:308-336 | Under every interleaving of authorize steps, stale expiry timers, accepts, closes and the shutdown clear: a client's reservation count is the number of its pending handshakes, its pending and open sessions together stay within max(0, MaxSessions) (0 if it is not configured), and all of them within max(0, MaxClients) |
| Admission.AdmissionSoundness | internal/srtworker/worker.go:416-456 | In every run each session ever inserted belongs to a configured client, calls from one of that client's networks, and is the one its Stream ID denotes, or the default for an empty Stream ID in compatibility mode; a passphrase is only ever handed to such a caller |
| Admission.GrantedExactly | internal/srtworker/worker.go:308-335 | In every run, a callback past the checks whose handshake is not pending is granted its slot if and only if its client's pending handshakes and open sessions together are below the client's limit and all sessions and pending handshakes below the relay's; it then gets that client's secret, and otherwise 429 and no change |
| Admission.ScreenedExactly | internal/srtworker/worker.go:280-306 | A callback goes on to the locked part as client c if and only if the limiter allows it and the caller is entitled as c |
| Admission.RefusalCodes | internal/srtworker/worker.go:288-306 | Which code a refused caller gets: 400 without an identity, 404 for an unknown client, 403 outside its networks, each if and only if |
| Admission.AcceptedExactly | internal/srtworker/worker.go:416-456 | In every state an accepted socket becomes a session of the client it was pending for if and only if it was pending and an ID could be drawn; the handshake is over either way |
| Admission.TakenAway | internal/srtworker/worker.go:387-394 | Expiry removes the pending entry, a close the session and the shutdown all pending entries, and nothing else |
| Admission.AllowedBitwise | internal/srtworker/worker.go:732-739 | An address is allowed if and only if it parses and, for one of the networks, is of its family and begins with its bits |
| Admission.RepeatedAuthorizeIsIdempotent | internal/srtworker/worker.go:276-313 | While a handshake is pending, another callback for it, fresh or already past the limiter, gets the same secret and changes neither the tables nor the limiter |
| Admission.EntitledUnique | internal/srtworker/streamid.go:9-29 | No caller can be served as two different clients |
| Admission.Screen | internal/srtworker/worker.go:288-306 | The unlocked checks pass a caller as client c if and only if c is entitled, for an entitlement stated without the order of the checks |
| Admission.ReserveConserves | internal/srtworker/worker.go:308-332 | The locked suffix of authorize keeps the three counts consistent and within both limits |
| Admission.AcceptConserves | internal/srtworker/worker.go:416-456 | Turning a reservation into a session, or losing it because no session ID could be drawn, keeps the counts |
| Admission.ReleaseConserves | internal/srtworker/worker.go:387-394 | Giving a reservation back keeps the counts, whichever attempt the key stands for by then |
| Admission.CloseConserves | internal/srtworker/worker.go:535-546 | Closing a session, which the method CloseSession of the worker does, keeps the counts, known or not |
| Admission.ClearConserves | internal/srtworker/worker.go:169-172 | The shutdown clear, which the method Shutdown of the worker does, keeps the counts while sessions are still open |
| Admission.PendingIsSound | internal/srtworker/worker.go:416-422 | An entry found under a caller's key was reserved for exactly that address, port and Stream ID |
| StreamID.AttemptKeyInjective | internal/srtworker/worker.go:741-743 | Handshakes share a key only if address, port and Stream ID agree, for addresses without NUL |
| StreamID.AccessControlRoundTrip | internal/srtworker/streamid.go:14-28 | A percent-encoded u= field is read back as the client ID whatever fields surround it; the first u= field decides |
| StreamID.PlainIDRoundTrip | internal/srtworker/streamid.go:10-16 | A Stream ID outside the access-control syntax and without white space around it, Unicode white space in UTF-8 included, denotes itself |
| StreamID.EmptyStreamIDNamesNobody | internal/srtworker/streamid.go:10-13 | An empty Stream ID denotes no client |
| StreamID.IdentityExactly | internal/srtworker/streamid.go:9-20 | Which of the two syntaxes applies: the prefix #!:: behind white space decides |
| StreamID.FieldsExactly | internal/srtworker/streamid.go:18-28 | In the access-control syntax the first u= field is the identity, decoded; without one, or if it is empty or badly escaped, there is none |
| StreamID.DecodesExactly | internal/srtworker/streamid.go:22-26 | An identity decodes if and only if every percent sign begins an escape of two hexadecimal digits; without percent and plus signs it stays as it is |
| Text.TrimCuts | internal/srtworker/streamid.go:10-10 | Trimming takes white space off both ends and nothing else |
| Text.SpacesByCodePoint | internal/srtworker/streamid.go:10-10 | Which UTF-8 sequences are white space, by code point |
| Worker.Worker.PendingSecret | internal/srtworker/worker.go:338-350 | Returns the passphrase of the pending attempt's client, if both exist |
| Worker.Worker.Reserve | internal/srtworker/worker.go:308-335 | The locked suffix, with its walk over the sessions, is the reservation step of the protocol |
| Worker.Worker.CountSessions | internal/srtworker/worker.go:314-319 | The walk over the sessions counts exactly the client's sessions |
| Worker.Worker.Authorize | internal/srtworker/worker.go:273-336 | Without interference one call is its three protocol steps in a row, with the same tables and the same answer |
| Worker.Worker.ExpireAttempt | internal/srtworker/worker.go:387-394 | Removes whatever is pending under the key and gives its reservation back |
| Worker.Worker.Accept | internal/srtworker/worker.go:416-456 | One accepted socket: the session inserted, or none, and the tables afterwards |
| Worker.Worker.CloseAllSessions | internal/srtworker/worker.go:624-634 | Closing them one by one leaves no session |
| RateLimit.RefinesUnbounded | internal/srtworker/worker.go:352-385 | With nondecreasing times the pruned table answers every call as an unbounded limiter that is fed the same calls minus those refused at the ceiling, and never tracks more than 10000 addresses |
| RateLimit.CeilingIsFull | internal/srtworker/worker.go:360-371 | A call is refused at the ceiling if and only if its address is unknown and 10000 tracked addresses all have windows younger than a minute |
| RateLimit.AnsweredExactly | internal/srtworker/worker.go:352-385 | How a tracked or new address is answered: allowed up to the 60th call of its window, and reported exactly at the 61st |
| RateLimit.AddressBudget | internal/srtworker/worker.go:372-384 | Over every run each address gets at most 60 attempts and one report per window, and at most 120 attempts in any half-open minute |
| Worker.Worker.AllowConnectionAttempt | internal/srtworker/worker.go:352-385 | The method over the attempts map computes the limiter step: new table, verdict and report |
| Worker.Worker.PruneAttempts | internal/srtworker/worker.go:360-366 | The deletion loop leaves exactly the windows younger than a minute |
| FixedWindow.AtMostTwiceTheLimit | internal/srtrelay/manager.go:328-338 | A fixed-window counter grants at most twice its limit in any closed span as long as its window |
| FixedWindow.WindowBudget | internal/srtrelay/manager.go:328-338 | One window grants at most its limit and overflows once at most, in whatever order the times come |
| FixedWindow.WindowMeaning | internal/srtrelay/manager.go:328-338 | Where the current window began, in terms of the times alone: it counts every hit since and grants exactly as many as the limit |
| Delivery.EmittedIsTheStream | internal/srtworker/worker.go:464-492 | For every schedule the packets emitted, followed by the buffer, are the bytes received; every packet has exactly PayloadSize bytes; and they are the packets of the whole stream cut at once |
| Delivery.SessionDelivery | internal/srtworker/worker.go:494-533 | For every schedule and session: packets sent then queued are the in-order selection of accepted offers, offered = taken + queued + dropped, queue at most 512, offers are a gap-free stretch of the emitted packets from the session's join, at each dropped offer the offers accepted before it less the packets taken by then are exactly 512, and a slow-client close was started if and only if 256 consecutive offers were dropped |
| Delivery.OpenOffer | internal/srtworker/worker.go:507-516 | An offer to an open session is refused if and only if 512 packets are queued; it then changes the drop counters and not the queue, and otherwise is queued last |
| Delivery.DoneOffer | internal/srtworker/worker.go:507-510 | An offer to a closed session is never counted as a drop, and can be queued only while there is room |
| Delivery.LosslessSession | internal/srtworker/worker.go:464-533 | A session that dropped nothing and is between broadcasts holds, byte for byte, the stream since it joined |
| Delivery.AlarmMeansStarvation | internal/srtworker/worker.go:508-515 | The drop-burst counter reaches 256 if and only if some 256 consecutive offers were refused |
| Delivery.ChunkingConserves | internal/srtworker/worker.go:482-487 | Packets and remainder, put together, are the stream |
| Delivery.ChunkingIgnoresDatagrams | internal/srtworker/worker.go:482-487 | Packets depend on the bytes and not on how they were grouped into datagrams |
| Worker.InputLoop | internal/srtworker/worker.go:464-492 | The loop over datagrams broadcasts exactly the packets of their concatenation and keeps its remainder and byte count |
| Worker.CutPackets | internal/srtworker/worker.go:483-487 | The inner loop cuts all full packets and leaves the remainder |
| Worker.Broadcast | internal/srtworker/worker.go:494-518 | Every open session is offered the packet once, in whatever order; finished ones stay as they were |
| Worker.ClientSession.Offer | internal/srtworker/worker.go:507-516 | One offer: queued, skipped or dropped, with counters and a started close as the protocol step says |
| Worker.ClientSession.Take | internal/srtworker/worker.go:526-526 | Removes the oldest queued packet |
| Worker.ClientSession.Finish | internal/srtworker/worker.go:536-537 | Only the first close has an effect |
| Continuity.Tracker.Observe | internal/srtworker/continuity.go:11-46 | The packet loop returns the errors and leaves the counters of the packet-by-packet specification, one error more for an unaligned length |
| Continuity.Tracker.ObservePacket | internal/srtworker/continuity.go:17-44 | The bit arithmetic on one packet: sync byte, PID, adaptation field, discontinuity flag and counter |
| Continuity.PacketInNumbers | internal/srtworker/continuity.go:17-44 | One packet by its octets, in integer arithmetic: sync byte 71, PID of 13 bits, adaptation field control, discontinuity indicator and 4-bit counter; which packets are errors, passed over, or set their PID's counter |
| Continuity.ObserveAdditive | internal/srtworker/continuity.go:11-46 | Observing an aligned a then b gives the sum of the errors and the state of observing a + b |
| Continuity.ObserveDecomposes | internal/srtworker/continuity.go:11-46 | For aligned input the errors are the malformed packets plus, over all PIDs, the gaps within that PID's own payload packets, and the state per PID depends on those packets alone |
| Continuity.LossCost | internal/srtworker/continuity.go:11-46 | Whatever the tracker saw before: if aligned a, b, c pass without an error, then dropping all payload packets of one PID from b costs exactly one error if the PID was known by then, a payload packet of it follows and the number dropped is no multiple of 16, and none otherwise; no packet dropped, nor the next one, declares a discontinuity |
| Continuity.DuplicateCost | internal/srtworker/continuity.go:39-43 | A payload packet repeated at once without a declared discontinuity costs exactly one error and leaves the same state |
| Continuity.NthReturns | internal/srtworker/continuity.go:40-40 | The 4-bit counter returns to a value exactly after multiples of 16 |
| Records.NormalizedRelayIsCanonical | internal/srtrelay/store.go:620-711 | Whatever normalizeRelay accepts comes out canonical, under the same ID, with the key version raised to 1 only for publish relays |
| Records.CanonicalRelayIsFixed | internal/srtrelay/store.go:620-711 | A canonical relay is a fixed point of normalizeRelay, except that a publish relay's version becomes at least 1 |
| Records.NormalizedRelayExactly | internal/srtrelay/store.go:620-711 | What an empty or zero field of a relay becomes, and that the relay is accepted if and only if it is canonical then |
| Records.NormalizedClientIsCanonical | internal/srtrelay/store.go:553-609 | Whatever normalizeClientLocked accepts comes out canonical: same relays without repetition in order, sorted normal networks, limits in range |
| Records.CanonicalClientIsFixed | internal/srtrelay/store.go:553-609 | A canonical client is accepted again, unchanged, if and only if every relay it names exists and is a listener |
| Records.NormalizedClientExactly | internal/srtrelay/store.go:553-609 | A client is accepted if and only if its ID and mode are valid, it names listeners and networks that normalise, none of them unrestricted without encryption, and its session limit is in range; and what each stored field is, defaults included |
| Ordering.ListingUnique | internal/srtrelay/store.go:957-964 | A set of IDs has one sorted listing without repetition, so iteration order never shows |
| Ordering.SortedKeys | internal/srtrelay/store.go:957-964 | Collecting keys in any order and sorting gives that listing |
| Ordering.LEMeans | internal/srtrelay/store.go:957-964 | The order of the IDs is by the first byte that differs, a prefix first |
| Store.MakeCanonicalRelay | internal/srtrelay/store.go:620-711 | The field-by-field normaliser computes the specified normal form or the same refusal |
| Store.MakeCanonicalClient | internal/srtrelay/store.go:553-609 | Likewise for clients, with the relay loop, the in-place network loop and both sorts |
| Store.CollectRelays | internal/srtrelay/store.go:569-584 | The relay loop succeeds if and only if all relays listen, and gives each of them once, in order |
| Store.NormalizeNetworks | internal/srtrelay/store.go:588-598 | The in-place loop normalises every network or reports the first that fails |
| Runs.RegistryInvariant | internal/srtrelay/store.go:114-323 | After any run of operations and restarts, failed saves included: every assigned relay exists; every compatibility default exists, is enabled and is assigned; no two listeners share bind address and port; every relay has a state entry and is canonical |
| RegistryCalls.RelayGoesExactly | internal/srtrelay/store.go:188-210 | In every run, between restarts: a relay goes if and only if it is deleted while what was last said of its status is stopped, error or flapping and no client names it, and with a successful save the call returns true exactly then |
| RegistryCalls.ClientGoesExactly | internal/srtrelay/store.go:301-323 | In every run, between restarts: a client goes if and only if it is deleted while it has no active session and is no relay's default, and with a successful save the call returns true exactly then |
| RegistryCalls.StatusFollows | internal/srtrelay/store.go:114-210 | In every run the status of a relay is what was last said of it, or stopped if nothing was since it was removed or the process came up |
| RegistryCalls.PutRelayExactly | internal/srtrelay/store.go:114-152 | A relay is stored if and only if it normalises, no other listener has its address and port and its default client can stand in; what is stored, with which version and status, and when a passphrase is returned |
| RegistryCalls.PutClientExactly | internal/srtrelay/store.go:238-279 | A client is stored if and only if it is no second creation, normalises and stays usable for every relay it stands in for; what is stored, with which version and times, and when a passphrase is returned |
| RegistryCalls.RotateRelayExactly | internal/srtrelay/store.go:164-186 | A rotation goes through exactly for an encrypting publish relay and raises the version by one |
| RegistryCalls.RotateClientExactly | internal/srtrelay/store.go:281-299 | A rotation goes through exactly for an encrypting client, raises the version by one and stamps the record |
| Store.ActiveClientStays | internal/srtrelay/store.go:311-315 | In every run of session events a client with an open session counts as active until that session is reported again or its relay's sessions are closed |
| Runs.RestartKeeps | internal/srtrelay/store.go:757-793 | A restart from the state file keeps the invariant |
| Runs.RestartGives | internal/srtrelay/store.go:44-67 | What a restart gives: it comes up if and only if all assigned relays on file listen, with the records on file, publish versions below 1 raised to 1, every relay stopped and nobody connected |
| Registry.UpsertRelayKeeps | internal/srtrelay/store.go:114-152 | Storing a relay keeps the invariant, saved or not |
| Registry.DeleteRelayKeeps | internal/srtrelay/store.go:188-210 | Deleting a relay keeps it: no client and no default is left dangling |
| Registry.UpsertClientKeeps | internal/srtrelay/store.go:238-279 | Storing a client keeps it, including the relays that count on the client as their default |
| Registry.DeleteClientKeeps | internal/srtrelay/store.go:301-323 | Deleting a client keeps it |
| Registry.RotateRelayKeeps | internal/srtrelay/store.go:164-186 | Rotating a relay key keeps it |
| Registry.RotateClientKeeps | internal/srtrelay/store.go:281-299 | Rotating a client key keeps it |
| Store.Store.UpsertRelay | internal/srtrelay/store.go:114-152 | The object's maps, its file and the returned credential or refusal after storing a relay, with the loop for listener conflicts and the default-client check, are those of the registry operation of the same name |
| Store.Store.RotateRelayKey | internal/srtrelay/store.go:164-186 | The object's maps, its file and the returned credential or refusal after rotating a relay key, are those of the registry operation of the same name |
| Store.Store.DeleteRelay | internal/srtrelay/store.go:188-210 | The object's maps, its file and the returned credential or refusal after deleting a relay, with the loop over the clients, are those of the registry operation of the same name |
| Store.Store.UpsertClient | internal/srtrelay/store.go:238-279 | The object's maps, its file and the returned credential or refusal after storing or creating a client, with the loop over the relays, are those of the registry operation of the same name |
| Store.Store.RotateClientKey | internal/srtrelay/store.go:281-299 | The object's maps, its file and the returned credential or refusal after rotating a client key, are those of the registry operation of the same name |
| Store.Store.DeleteClient | internal/srtrelay/store.go:301-323 | The object's maps, its file and the returned credential or refusal after deleting a client, with the loops over relays and sessions, are those of the registry operation of the same name |
| Store.Store.FindConflict | internal/srtrelay/store.go:125-129 | The loop finds a listener on the same address and port if and only if there is one |
| Store.Store.CheckDefaultClient | internal/srtrelay/store.go:719-734 | Holds if and only if the compatibility default exists, is enabled and is assigned, or none is needed |
| Store.Store.ApplyStatus | internal/srtrelay/store.go:435-480 | The status part of a worker event: new status, and the stalled or restored record it causes |
| Store.NewStore | internal/srtrelay/store.go:44-67 | The object made from the state file of an earlier life comes up exactly when a restart of the specification does, and then is in its state |
| Runs.PersistenceIdentity | internal/srtrelay/store.go:757-835 | In every run, restarts and failed saves included, that changes no existing relay's direction: the file reloads to exactly what was last saved, the state in memory would reload to itself, and a restart comes up with exactly what was last saved |
| Persistence.ReloadOutcome | internal/srtrelay/store.go:757-793 | What a reload gives in every invariant state: failure if and only if a client is assigned to a relay that no longer listens; otherwise all records, with publish versions below 1 raised to 1 |
| Persistence.ReloadIdentity | internal/srtrelay/store.go:757-835 | Save then load is the identity if and only if all assigned relays listen and every publish relay's version is at least 1 |
| Loading.LoadExactly | internal/srtrelay/store.go:757-793 | Any file, written by the registry or not, loads if and only if its relays normalise, its clients do with those relays, and every compatibility default is there, enabled and assigned; the last record under an ID counts |
| Persistence.UpdateReloadsUnlessStranding | internal/srtrelay/store.go:114-152 | From a state that reloads, a stored relay update leads to one that reloads if and only if it does not turn a listener with assigned clients, or with a version that stays below 1, into a publish relay |
| Persistence.DirectionChangeBreaksReload | internal/srtrelay/store.go:574-577 | Once a listener with an assigned client has been stored as a publish relay, the saved file no longer loads |
| Runs.StrandingExample | internal/srtrelay/store.go:114-152 | Three successful calls from the empty registry after which the process cannot restart |
| Store.Store.Save | internal/srtrelay/store.go:795-835 | Writes the records in the order of their IDs; a failed write leaves the file as it was |
| Store.Store.Load | internal/srtrelay/store.go:757-793 | On a new store, succeeds exactly when the specified reload does, with the same records, every relay stopped |
| Store.Store.LoadRelays | internal/srtrelay/store.go:772-779 | The relay loop of load |
| Store.Store.LoadClients | internal/srtrelay/store.go:780-786 | The client loop of load |
| Store.Store.CheckDefaults | internal/srtrelay/store.go:787-791 | The closing cross-check of load |
| Store.InOrder | internal/srtrelay/store.go:803-808 | The records in the order of their sorted IDs |
| KeyIssuance.VersionsOnlyGrow | internal/srtrelay/store.go:114-299 | In every run, failed saves and restarts included: no operation but a restart lowers the key version of a record that stays, and every passphrase returned has a version strictly larger than any returned before for that record |
| KeyIssuance.WorkerHoldsLastIssued | internal/srtrelay/store.go:154-347 | In every run, failed saves and restarts included: the version behind the passphrase handed to a worker is an issued one, and then the last one issued for that record, if and only if the last change of that record's key in use was saved |
| KeyIssuance.RestartKeepsKey | internal/srtrelay/store.go:757-793 | A restart leaves a record with an issued key if and only if it had one on file and the version there is at least 1 |
| KeyLifetimes.OwnSavesSuffice | internal/srtrelay/store.go:114-347 | Whatever becomes of other records' saves, and over any restarts: if the calls about a record itself are saved, and a relay is not created with a negative version, the worker always holds its last issued key |
| KeyLifetimes.RestartLowers | internal/srtrelay/store.go:757-835 | For a record that is not newer than the last write, a restart lowers its version if and only if the version was raised since without a write, where for a relay that publishes on file it must have been raised above 1; no issued key of the record is forgotten |
| KeyLifetimes.NegativeVersionLosesKey | internal/srtrelay/store.go:664-666 | A run with every save successful, of a listener created with version -5 and then published, after which the worker holds a version that was never issued |
| KeyLifetimes.FailedSaveHidesKey | internal/srtrelay/store.go:291-296 | After any run, a rotation whose save fails leaves the worker with a version that was never issued |
| Passphrases.SamePassphraseExactly | internal/srtrelay/store.go:713-755 | In every run, failed saves and restarts included: two calls return the same passphrase if and only if they are about the same version of the same record, clients and relays told apart, unless the MAC collides on the two texts |
| Passphrases.NewPassphraseEachTime | internal/srtrelay/store.go:114-299 | While a record stays, over any restarts, every passphrase returned for it differs from every one before and has a larger version, unless the MAC collides |
| Passphrases.RecreatedClientRepeats | internal/srtrelay/store.go:242-248 | Every creation of a client under one ID returns the same passphrase, that of version 1: the exception, after a deletion, to the row before |
| Passphrases.SignedInjective | internal/srtrelay/store.go:751-755 | Kind, ID and version can be read off the text under the MAC |
| Passphrases.OwnPassphrase | internal/srtrelay/store.go:713-755 | A passphrase returned is the MAC over the call's own record and the version it reports |
| KeyIssuance.EveryOpMoves | internal/srtrelay/store.go:114-323 | What each call does to the versions of its own record: a new key in use has a new version, issued exactly if the file was written; and that it touches no other record |
| WorkerConfig.StoreAndWorkerAgree | internal/srtrelay/manager.go:70-75 | In every registry state reached by operations and restarts, for every relay, newWorker accepts the configuration built from one snapshot; a listener's worker knows exactly the enabled clients assigned to it, each with its networks, session limit and the MAC over its ID and current version, and the relay's own limit and default client |
| WorkerConfig.PublisherSecret | internal/srtrelay/store.go:154-162 | In every such state a publish relay's worker is handed the passphrase of the relay's current version if and only if the relay encrypts |
| WorkerConfig.NewWorkerExactly | internal/srtworker/worker.go:208-271 | Which configurations newWorker accepts, for any configuration, and what the worker then knows |
| WorkerConfig.EndToEndAdmission | internal/srtrelay/manager.go:70-75 | Registry and worker together: every session of a listener's worker belongs to a client that was enabled and assigned to that relay in the registry, within the session limit stored there |
| WorkerConfig.NetworksParse | internal/srtworker/worker.go:243-249 | Stored networks all parse |
| WorkerConfig.MakeWorker | internal/srtworker/worker.go:208-271 | The validation of newWorker, step by step, is the specified one |
| WorkerConfig.CollectACLs | internal/srtworker/worker.go:230-251 | Its client loop |
| WorkerConfig.CollectNetworks | internal/srtworker/worker.go:243-249 | Its network loop |
| Store.Store.WorkerClients | internal/srtrelay/store.go:325-347 | The loop over the sorted clients yields the enabled, assigned ones with their passphrases, in order |
| Sessions.HistoryIsBounded | internal/srtrelay/store.go:424-520 | In every run whose connect events carry no disconnect time, with any reports in any order: at most 1000 completed sessions are kept, and a session that an event leaves active is not pruned |
| Sessions.SessionExactly | internal/srtrelay/store.go:363-520 | In every run each session is what the event makes of it or is dropped, and it is dropped only when it has ended and 1000 others are kept that ended no earlier |
| Sessions.HistoryKeepsTheLatest | internal/srtrelay/store.go:503-520 | In every such run the history stays full of the latest completed sessions, so that none kept ended before any ever dropped, if and only if no event, after something was dropped, reopens a completed session or moves its end to before the latest end dropped |
| Sessions.LatestExactly | internal/srtrelay/store.go:469-473 | The same for one event: which ones keep the history full of the latest, and which break the order at once |
| Sessions.RoomLosesTheLatest | internal/srtrelay/store.go:503-520 | Once something was dropped and there is room again, one new session's end is enough to keep one that ended before a dropped one |
| Sessions.LateReportLosesTheLatest | internal/srtrelay/store.go:363-380 | A run from the start that loses the order: open connects, the closing of an exited worker's sessions, and one report of its own that the worker had buffered |
| Sessions.RestoredNeedsStalled | internal/srtrelay/store.go:442-457 | In every run, between two input_restored records of a relay there is an input_stalled one |
| Sessions.TrailWellPaired | internal/srtrelay/store.go:442-457 | Every input_restored record follows an input_stalled one of the same relay with no transition of that relay between them |
| Sessions.DegradedExactly | internal/srtrelay/store.go:435-480 | In every run a relay is degraded if and only if a metrics event with a reason has come in and nothing about the relay since but more of those |
| Sessions.RecordsExactly | internal/srtrelay/store.go:442-457 | In every run an event makes an input_stalled record exactly when it makes the relay degraded, an input_restored one exactly when metrics without a reason end that, and no record otherwise |
| Sessions.StatusExactly | internal/srtrelay/store.go:435-480 | In every run the status from the relay's own events: running once ready, error once failed, what the supervisor wrote, stopped once removed or before anything, degraded while a stall stands and running after it |
| Sessions.TopIsPruned | internal/srtrelay/store.go:503-520 | Dropping what ranks after the first thousand drops only completed sessions, keeps as many as allowed, and none that ended before a dropped one |
| Sessions.Log.Prune | internal/srtrelay/store.go:503-520 | pruneSessionsLocked is such a pruning |
| Sessions.Log.Rank | internal/srtrelay/store.go:505-516 | Lists exactly the completed sessions, latest first |
| Sessions.Log.Disconnected | internal/srtrelay/store.go:469-473 | Records the end of a session and prunes |
| Sessions.Log.CloseRelay | internal/srtrelay/store.go:363-393 | Ends exactly the relay's active sessions, returns them and prunes |
| Sessions.Log.MarkEnded | internal/srtrelay/store.go:369-380 | The loop over the sessions ends those of the relay and no others |
| Audit.AuditStore.List | internal/srtrelay/audit.go:84-111 | The listing is the first Limit elements of the reversed, filtered, oldest-to-newest concatenation of all files, and fails if and only if a file that cannot be read comes up before newer files have filled it |
| Audit.ReadAuditFile | internal/srtrelay/audit.go:154-190 | The ring buffer returns the newest matches of one file, newest first; fails exactly on a line beyond the buffer |
| Audit.ReadOut | internal/srtrelay/audit.go:184-189 | The index arithmetic that reads the ring backwards |
| Audit.AuditStore.Clear | internal/srtrelay/audit.go:113-137 | Files from the newest down to the first failure are rewritten or removed, the rest untouched; a filtered clear returns the number of events removed, an unfiltered one the number of files |
| Audit.ClearAuditFile | internal/srtrelay/audit.go:192-237 | The rewritten lines are those that do not match, undecodable ones included, and the count is the number of matches |
| Audit.ClearRemovesTheMatches | internal/srtrelay/audit.go:113-137 | After a complete clear with f, a listing with any g sees the same journal without the records matching f, nothing matches f, and the count accounts for every record that went |
| Audit.ListAfterClear | internal/srtrelay/audit.go:128-136 | The same after a clear that stopped half way, file by file |
| Audit.AuditStore.Append | internal/srtrelay/audit.go:43-82 | Fills in ID, time and level, adds the record to its day's file and removes the files past retention; and what each failure leaves behind: nothing, part of a line, or the line without the retention |
| Audit.TornLineSwallows | internal/srtrelay/audit.go:65-72 | A line left torn by a failed write costs the next record as well |
| Audit.AppendedIsNewest | internal/srtrelay/audit.go:64-80 | A record at least as new as every file, on a day whose name reads back and whose file is not torn, is the last of the journal, survives the retention of its own append and heads every listing that matches it |
| AuditMeaning.HitsExactly | internal/srtrelay/audit.go:239-243 | The events found in a file are those of exactly the lines that agree with every field the filter names, each once and in order |
| AuditMeaning.RemainingExactly | internal/srtrelay/audit.go:192-237 | A filtered clear leaves exactly the other lines, those that do not decode among them, each once and in order |
| AuditMeaning.ListingExactly | internal/srtrelay/audit.go:84-111 | A listing shows that many of them, newest first: as many as asked for, and 200 for a limit below 1 or above 1000 |
| AuditMeaning.ListFailsExactly | internal/srtrelay/audit.go:92-110 | A listing fails exactly at a file that cannot be opened or has a line beyond the buffer, unless newer files show as many events as asked for |
| AuditMeaning.ClearStopsExactly | internal/srtrelay/audit.go:113-137 | A clear goes from the newest file to the first that cannot be opened or, with a filter, read |
| AuditMeaning.FilesAfterClear | internal/srtrelay/audit.go:226-236 | A cleared file stays exactly if it has lines left, with those lines; the others stay as they are |
| AuditMeaning.AppendExactly | internal/srtrelay/audit.go:43-82 | The level, day and ID that are filled in, and which other files an append removes: exactly the audit files dated more than the retention period before its day |
| AuditMeaning.AuditNameMeans | internal/srtrelay/audit.go:145-148 | Which names are audit files |
| AuditMeaning.PutAddsBytes | internal/srtrelay/audit.go:65-72 | However much of a record is written, the file's bytes grow by exactly that much of the record and its line end, on a torn last line too |
| Audit.NewestAt | internal/srtrelay/audit.go:184-188 | What newest first means, index by index |
| StreamLogs.PruneByStream | internal/streams/store.go:521-548 | What pruning leaves of a stream is exactly its latest 500 fresh entries; entries of no stream all stay |
| StreamLogs.PruneIsolates | internal/streams/store.go:521-548 | Pruning and looking at one stream is pruning that stream alone, and leaves at most 500 of it |
| StreamLogs.PruneKeepsOrder | internal/streams/store.go:521-548 | What is kept is a subsequence, in order |
| StreamLogs.AppendedSurvives | internal/streams/store.go:427-441 | The entry just appended always survives its own pruning, as the newest |
| StreamLogs.BufferIsPrunedHistory | internal/streams/store.go:427-480 | In every run of appends, clears and changes of retention: as long as no append is late, the buffer equals one single pruning, at the last append, of everything logged and not cleared since; and if each stream's entries are in order, it does so at every point exactly if no append is late, that is, none is by whose time and settings something dropped before would still be kept |
| StreamLogs.SteadyIsNeverLate | internal/streams/store.go:427-441 | No append is late if appends come in the order of their times and no retention is raised while anything is logged |
| StreamLogs.PruneAgainExactly | internal/streams/store.go:521-548 | For any two settings and times, with each stream in order: an earlier pruning makes a difference to a later one if and only if it dropped what the later one would keep |
| StreamLogs.DisorderDiffers | internal/streams/store.go:427-441 | Three appends, the last with an earlier time, after which the buffer is not the pruned history |
| LogMeaning.KeptExactly | internal/streams/store.go:521-548 | A pruning keeps exactly the entries of no stream and those within their stream's retention, 60 seconds unless configured, that have fewer than 500 such entries of their stream after them, each once and in order |
| LogMeaning.OwnExactly | internal/streams/store.go:464-480 | A clearing leaves exactly the entries of other streams, and a listing of a stream has exactly its own, each once and in order |
| LogMeaning.PageExactly | internal/streams/store.go:443-462 | A page is the end of that listing: as many as asked for, and 200 for a limit below 1 or above 500 |
| StreamLogs.PruneAgain | internal/streams/store.go:521-548 | An earlier pruning that dropped nothing the later one would keep makes no difference to it |
| StreamLogs.ClearIsolates | internal/streams/store.go:464-480 | Clearing a stream removes its entries and no others |
| StreamLogs.ClearThenPrune | internal/streams/store.go:464-480 | Clearing and pruning commute |
| StreamLogs.LogStore.PruneLogs | internal/streams/store.go:521-548 | The reverse scan with counters and the reversal in place compute the pruning |
| StreamLogs.LogStore.AppendLogCode | internal/streams/store.go:427-441 | Appends, then prunes at the entry's time |
| StreamLogs.LogStore.Logs | internal/streams/store.go:443-462 | Returns the last entries of a stream, or of all, oldest first, 200 for a limit out of range |
| StreamLogs.LogStore.ClearLogs | internal/streams/store.go:464-480 | Compacts in place, in the same array, to exactly the other streams' entries in order |
| StreamLogs.ReverseInPlace | internal/streams/store.go:458-460 | Reverses the first n slots and leaves the rest |
| Splitter.TokensAreRuns | internal/streams/jobs.go:167-182 | However the reads cut the output into chunks, the non-empty tokens are exactly the maximal runs without CR or LF, in order |
| Splitter.ScannedRuns | internal/streams/jobs.go:275-316 | With the limit on a line: the non-empty tokens are the maximal runs before the first one that is as long as the limit, and the scanner gets to the end if and only if there is none |
| Splitter.ScannedTokens | internal/streams/jobs.go:276-279 | A scanner that gets to the end delivers the tokens of its reads, which are all of the output; the limit only cuts the reads |
| Splitter.ChunksOnlyTear | internal/streams/jobs.go:275-316 | The number of tokens exceeds that of reading everything at once by exactly the CR LF pairs split between chunks, and without such pairs the tokens are the same |
| Splitter.ScanAll | internal/streams/jobs.go:275-316 | The scanning loop, with its limit of 1 MiB, delivers those tokens and reports whether it got to the end |
| Splitter.TakeTokens | internal/streams/jobs.go:279-279 | Scanning until a read is needed takes all complete tokens |
| Splitter.TakeLast | internal/streams/jobs.go:178-180 | At the end of the input an unterminated line is a token |
| Splitter.LinesAreRuns | internal/streams/jobs.go:167-182 | The same for a single buffer at the end of the input |
| LineMeaning.RunsExactly | internal/streams/jobs.go:167-182 | The runs have text, no CR and no LF, are kept apart by CR and LF only, and together with those are the whole output |
| LineMeaning.LinesExactly | internal/streams/jobs.go:167-182 | The lines of a buffer at the end of the input, empty ones included: each ends with CR LF, CR or LF, only the last may lack an end if it has text, and no CR is taken alone before an LF |
| Supervision.SupervisionSafety | internal/streams/jobs.go:227-273 | At every point of every run of either manager: no ID has two processes started and not waited for, the job table lists exactly the live ones, a stream's done channel has been closed exactly once if its process was waited for and never otherwise, and no stopped process had a restart scheduled for it |
| Supervision.RestartBudget | internal/srtrelay/manager.go:328-338 | In every run, whatever the times: while an ID's tracker is not deleted, one window grants at most its budget; and if the decisions come in the order of their times, any closed span of its length at most twice that, 10 relay restarts in 5 minutes |
| Supervision.CountGrants | internal/srtrelay/manager.go:278-296 | In every run a decision goes on to a restart if and only if its window still grants one; otherwise a relay is marked as flapping and a stream gets nothing |
| SupervisionSteps.EventsExactly | internal/srtrelay/manager.go:239-326 | At every point of every run: which events start a process, and that a running one goes exactly with its own exit; which events count against the restart budget and which start the tracker anew; and from when until when an ID is flapping |
| SupervisionSteps.WorkExactly | internal/srtrelay/manager.go:274-326 | At every point of every run: the backoffs, retries and status writes that each event carries out and leaves to be done, enabled or not, granted or not, started or not |
| SupervisionSteps.ExitsExactly | internal/srtrelay/manager.go:239-252 | At every point of every run: which exits await a decision, and that each is decided once, with the mark of an operator's stop |
| Supervision.StopIsFinal | internal/srtrelay/manager.go:150-184 | Over every run of either manager, status writes that trail the lock included: no continuation without an operator's start launches a stopped ID again if and only if, at the stop, no backoff or failed start of it is under way, no flapping retry is ahead that will find it flapping or is past that test, and no exit of an unstopped process of it awaits its decision; for streams, clean exits and a budget of 0 do not count |
| Supervision.HaltedStep | internal/streams/jobs.go:184-212 | What a final stop leaves is kept by every event but a start of the ID, and nothing of the ID is launched |
| Supervision.Revival | internal/srtrelay/manager.go:239-326 | If something of that kind is under way, events that bring the ID back without a start |
| Supervision.StopMissesPendingRestart | internal/srtrelay/manager.go:150-159 | A run from the start in which a stop is not final: start, exit, decision, stop, end of the backoff |
| Supervision.StartDisarmsRetry | internal/srtrelay/manager.go:299-303 | A run from the start of a relay that crashes once more than its budget: while it is flapping a stop would not be final, but after an operator's start a stop is, although the retry is still ahead |
| Supervision.LaunchKeeps | internal/srtrelay/manager.go:81-108 | Starting keeps the invariant, restarted or not, spawned or not |
| Supervision.ExitKeeps | internal/streams/jobs.go:230-238 | Reaping a process keeps it: the job found is always the process's own, so closing its channel is safe |
| Supervision.SettleKeeps | internal/srtrelay/manager.go:250-296 | Deciding after an exit keeps it |
| Supervision.Manager.Start | internal/srtrelay/manager.go:81-108 | The locked part of start |
| Supervision.Manager.Stop | internal/streams/jobs.go:184-191 | The locked part of Stop: marks the job and deletes the tracker |
| Supervision.Manager.Reap | internal/streams/jobs.go:230-238 | The locked part of wait: what it finds is the process's own job |
| Supervision.Manager.Count | internal/streams/jobs.go:324-345 | The tracker update and the choice of what follows; allowed if and only if the window still grants |
| Supervision.Manager.NoteExit | internal/srtrelay/manager.go:250-271 | wait writes the status, which is then not flapping |
| Supervision.Manager.Settle | internal/srtrelay/manager.go:274-296 | The decision that ends wait |
| Supervision.Manager.BeginBackoff | internal/srtrelay/manager.go:288-292 | A granted restart writes the status and sets the backoff |
| Supervision.Manager.MarkFlapping | internal/srtrelay/manager.go:279-285 | A spent budget writes the status flapping and sets the retry |
| Supervision.Manager.FireRestart | internal/streams/jobs.go:357-367 | The end of the backoff |
| Supervision.Manager.RestartFailed | internal/streams/jobs.go:363-366 | A failed automatic start of a stream counts as another failure |
| Supervision.Manager.CheckFlapping | internal/srtrelay/manager.go:299-303 | retryFlapping goes on if and only if the relay is still flapping |
| Supervision.Manager.ClearTracker | internal/srtrelay/manager.go:304-310 | Under the lock the tracker is deleted; a running process is left alone |
| Supervision.Manager.AnnounceRestart | internal/srtrelay/manager.go:311-315 | The status is no longer flapping |
| Supervision.Manager.ResumeFlapping | internal/srtrelay/manager.go:316-325 | The start of retryFlapping, and the way back to flapping if that fails |
| Supervision.Manager.TellStatus | internal/srtrelay/manager.go:110-119 | The status write that follows a start or a stop |
| Watchdog.ActionIsVerdict | internal/streams/jobs.go:435-467 | With no earlier kill, a sample kills for memory if and only if progress is not overdue and all samples from some earlier one on exceeded the limit with the grace time passed since; one sample at or below the limit restarts the clock |
| Watchdog.Monitor | internal/streams/jobs.go:370-428 | The loop stops at the first sample whose verdict is to kill, with its reason, and at no other |
| Pbkdf2.Key | internal/auth/auth.go:178-203 | For any pseudorandom function of fixed output length, any iteration count (below 1 counts as 1) and any key length, the loops return the first keyLen octets of T_1, T_2, ..., T_l concatenated, as in section 5.2 of RFC 8018 |
| Pbkdf2.Block | internal/auth/auth.go:186-199 | With u reused in place and sum accumulated in place, one block is the exclusive-or of U_1 to U_c |
| Pbkdf2.KeyByte | internal/auth/auth.go:185-202 | Each octet of the key is the exclusive-or of its column over U_1 to U_c of its block |
| Pbkdf2.Int32Value | internal/auth/auth.go:188-188 | The four octets of the block number by their place values, most significant first |
| Pbkdf2.KeysArePrefixes | internal/auth/auth.go:200-202 | Shorter keys are prefixes of longer ones |
| Pbkdf2.XorInto | internal/auth/auth.go:196-198 | The inner loop |

## Left out

- Sockets, the libsrt bridge, multicast, signals, `/proc`, HTTP, tokens, the event stream to subscribers, the user interface, FFmpeg arguments and error classification.
- Audit records that are emitted along the way, except the input stalled and restored ones; emission order relative to the tables is not modelled, so `session_connected` may trail `session_disconnected`.
- The worker's publish direction: its single caller session is not part of the admission and delivery machines.
- `metricsLoop` and the capacity management of byte slices: nothing observable depends on the latter.
- Delivery.SessionDelivery: sessions have distinct IDs; a collision of two random session IDs is not modelled there. In the admission machine a collision overwrites, as in the code.
- Admission.AdmissionSoundness: an address parses to bits and a network is a prefix of addresses of one width; the identification of IPv4 with IPv4-mapped IPv6 addresses is inside `parseIP`.
- Timers are events that may happen at any moment, also late, early or never; nothing is said about when.
- Slices shared between a caller's record and a stored one: records are values, so the normaliser's in-place writes to the caller's slices are not modelled.
- JSON encoding of the state file and of audit lines: a file is a sequence of records, and a line decodes to an event, does not decode, or is too long.
- Audit.AuditStore.Append: days in zones other than UTC are not modelled, and a line joined from two is taken not to decode.
- Audit.AuditStore.List and its partner Clear: the failure to read the directory itself is not modelled; nothing happens then.
- Runs.RegistryInvariant: an ephemeral store, which has no state file and is never restarted, is not distinguished from one that is never restarted; a restart whose file does not load is a step that changes nothing, as the process then does not come up.
- Sessions.HistoryKeepsTheLatest: the condition is on events that rewrite completed sessions, since without it the order is lost (Sessions.LateReportLosesTheLatest).
- KeyIssuance.VersionsOnlyGrow: leaves out restarts, after which a version can be lower; KeyLifetimes.RestartLowers says exactly when.
- Supervision.RestartBudget: a stream's restart policy is fixed for the run; the bound on a span asks for decisions in the order of their times, which the code does not enforce because it reads the clock before it takes the lock.
- Supervision.Manager: one class stands for both managers, whose steps agree but for the branches on `kind`; a job is identified by the number of its process instead of by a pointer, and of the statuses shown to users only whether a relay is flapping is kept.
- Watchdog.Monitor: samples of a stream that is no longer configured, which the loop skips, and the CPU percentage are not modelled.
- Pbkdf2.Key: beyond 2^32 - 1 blocks the counter wraps as in the code, where RFC 8018 would refuse.
- Widths of Go integers, except for the block counter, the PID and the 4-bit continuity counter: the counts in question stay far below them, and durations in nanoseconds below 292 years.
