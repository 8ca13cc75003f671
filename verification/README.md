# Baffle, verified

Baffle is a daemon that runs one proxy per session on a Unix socket. A session can be created, reloaded, drained and
stopped while its clients stay connected. This project models the parts of Baffle whose correctness depends on many
steps or many inputs at once, and proves what they promise:

* **Sessions and listeners** (`Slots` to `SlotTheorems`, `SessionProperties`). Every registry critical
  section, every step of an accept loop and every effect that a task without the registry lock can see is one action.
  Operations have a program counter and the listeners they own; the per-session reload lock has an owner; the listener
  cutover holds the registry lock over three actions, because accept loops read the gate without it. Exit events arrive
  arbitrarily late, and operations are cancelled at their `await` points during shutdown. `SlotTheorems.Keeps` shows that
  every action keeps one invariant.
* **The daemon** (`SessionRuns`, `SlotEffects`, `Daemon`, `DaemonProofs`, `DaemonTheorems`). All sessions, the registry
  lock, the gauge and the ordered shutdown, as one state machine. Its invariant gives capacity, the exact gauge and the
  end of the shutdown in every run, and `DaemonTheorems.Projects` shows that each run of the daemon is a run of each of
  its sessions, so that the theorems of `SessionRuns` hold in it.
* **What operations achieve** (`Operations`, `ReloadRuns`, `ReloadTheorems`, `Draining`). Safety holds of a daemon that refuses
  everything, so these say what succeeds: an undisturbed create, stop or reload has exactly the stated outcome, and in
  every run a reload that reports success has installed the file that it read.
* **The registry in place** (`SessionViews`, `SessionTables`, `SessionRegistry`, `ProxyRuntimes`). The maps, sets, counters
  and vectors that the daemon mutates are fields of classes. A ghost field holds the sessions of the state machine; every
  critical section takes it along its own action, and the class invariant says that the tables show exactly what the
  registry may see of these sessions.
* **Import composition** (`ImportGraph`, `ImportNames`, `Composition*`). The depth-first walk with its stack, limits and conflict checks
  equals a limit-free walk followed by one merge per file, and that equals a declarative description.
* **Socket directories** (`Director*`). Reference-counted leases over a file system given as a map.
* **Paths, policy and credentials** (`Paths`, `PathAcceptance`, `Dns`, `Policy`, `Authorization`, `Effective`, `Serving`,
  `Forwarding`, `Base64`, `Credentials`, `SecretStores`, `Validation`, `Wire`). Each check has an exact statement of what
  it accepts and returns, in terms of the rule list, the document or the bytes.
* **The CONNECT reader** (`Connect`, `ConnectBytes`). Chunked reading, replay buffer and copy loop against the whole stream.

Text is a `string` in which one character stands for one byte of UTF-8. Integers are unbounded except where the source
saturates or checks (`U64_MAX`, ports). Foreign computations are parameters: acceptance of a host name by `Host::parse`
and the IP address test (`Dns.Acceptance`), derivation of fake credentials (`Policy.Foreign.fake`), reading of secret
files (`SecretStores.SecretStore`), the directory of session files (`Composition.Files`), and the sizes of reads.

Verify with `dafny verify --resource-limit 2000000 --verification-time-limit 0 dfyconfig.toml`.

Three places where the code and its description differ, modelled as the code does it:

* `docs/configuration.md:262` limits an import chain to 32 files. The code limits the files on the stack of its walk, and
  a file that is already loaded is not walked again. `CompositionTheorems.LongChainAccepted` gives, for every length up to
  128, files that are accepted although they hold a chain of that length; `CompositionTheorems.ImportOrderMatters` shows
  that these are refused from 32 on if the root lists its imports in another order; `CompositionTheorems.ComposesExactly`
  says exactly what is accepted, and `CompositionTheorems.ComposesWithinLimits` that the documented limits are sufficient.
* A failed bind is meant to leave nothing behind, but two exits do: a directory that was just made cannot be reopened or
  examined (`src/proxy_runtime/rama/ingress.rs:451-457`), and a socket that was just bound cannot be examined
  (`src/proxy_runtime/rama/ingress.rs:170-171`). `DirectoryTheorems.LeaksHappen` gives both runs, and
  `DirectoryTheorems.AllGone` says that the tree comes back exactly if no bind took one of these exits, and else differs
  by exactly the entries left there and the directories on the way to them.
* A substitution header name longer than 65535 bytes passes validation and denies every request of its rule.
  `SecretStores.ResolvedIsEnough` shows that this is the only way in which the rewrite of a validated rule can fail.

## Model

| member | source | states |
|---|---|---|
| `SlotTheorems.Keeps` | src/control/session.rs:76-366 | every action of a session (sections of create, stop, remove, runtime_exit, shutdown_all, list and reload, accept-loop and exit steps, cancellation) keeps the invariant of ownership, gate, retired listeners, policy generations, events and permits |
| `SlotTheorems.RejectKeeps` | src/control/session.rs:186-188 | switching `accepting_sessions` off keeps the invariant of every session |
| `SlotTurns.StartFirstKeeps` | src/control/session.rs:118-141 | the first listener gets number 1 and the creating operation owns it |
| `SlotTurns.PublishKeeps` | src/control/session.rs:150-171 | publication hands the listener to the registry entry; the entry is running with it as current |
| `SlotTurns.TakeKeeps` | src/control/session.rs:199-211 | ending a session moves current and retired listeners to the operation and leaves none in the entry |
| `SlotTurns.EraseKeeps` | src/control/session.rs:213-223 | the entry is erased only after the session stopped, so no listener loses its owner |
| `SlotActions.ExitDropKeeps` | src/control/session.rs:276-281 | an exit event of an older listener drops only retired listeners that have exited |
| `SlotActions.CancelKeeps` | src/control/server.rs:281-289 | an operation cancelled at an `await` during shutdown drops what it owns and keeps the invariant |
| `SlotActions.PruneKeeps` | src/control/session.rs:350-357 | dropping finished retired listeners keeps the invariant |
| `SlotProofs.ListenerKeeps` | src/proxy_runtime/rama/ingress.rs:67-116 | every step of the accept loop, its connections, its exit and its report keeps the invariant |
| `SlotReloads.SelectKeeps` | src/control/reload.rs:175-197 | selecting a new policy generation on the current listener keeps the invariant, with at most eight generations tracked |
| `SlotCutover.StartReplacementKeeps` | src/control/reload.rs:227-249 | the replacement listener is owned by the reload and cannot admit: its number is above the gate |
| `SlotCutover.InstallKeeps` | src/control/reload.rs:267-277 | installing the replacement and marking the old listener keeps the invariant while the registry lock is held |
| `SlotCutover.StoreGateKeeps` | src/control/reload.rs:278-280 | moving the gate keeps the invariant |
| `SlotCutover.RetireKeeps` | src/control/reload.rs:281-284 | retiring the old listener keeps at most eight retired listeners, all with smaller numbers |
| `SlotProgress.Advances` | src/proxy_runtime/rama.rs:156-175 | seed and persistence never change; gate, committed numbers, policy histories and listener flags only grow; a connection keeps what it pinned |
| `SessionProperties.ExactlyOneOwner` | src/control/reload.rs:251-284 | every started listener has exactly one owner (current, retired list or one operation in flight) or was dropped: cancelled, aborted and, in service, exited |
| `SessionProperties.RunningIffCurrent` | src/control/session.rs:203-211 | a session is running exactly when it has a current listener; a stopping one has no listener at all |
| `SessionProperties.RemovedLeavesNoListener` | src/control/session.rs:212-225 | a removed session with no operation in flight has only dropped listeners |
| `SessionProperties.GateAgrees` | src/control/reload.rs:277-283 | with the registry lock free, gate, listener generation and number of the current listener agree, and retired numbers are smaller |
| `SessionProperties.OneListenerAdmits` | src/proxy_runtime/rama/ingress.rs:78-83 | at any moment at most one listener of a session can pass the admission check |
| `SessionProperties.CommittedNumbersDiffer` | src/control/reload.rs:213-215 | listeners that were cut over to carry strictly increasing numbers |
| `SessionProperties.ExitEndsOnlyTheExited` | src/control/session.rs:275-292 | an exit event that ends a session was sent by its current listener, which has exited |
| `SessionProperties.LateExitOnlyForgets` | src/control/session.rs:276-281 | any other exit event changes the entry only by dropping its own sender from the retired listeners |
| `SessionProperties.LiveGenerationsBounded` | src/proxy_runtime/rama.rs:208-225 | every live policy generation of a listener is tracked, and at most eight are |
| `SessionProperties.SessionGenerationsBounded` | src/control/reload.rs:199-226 | a session has at most eight retired listeners and at most 72 live policy generations |
| `SessionProperties.ConnectionsBounded` | src/proxy_runtime/rama/ingress.rs:84-88 | permits are conserved over all listeners of a session, so connections never exceed the limit |
| `SessionProperties.CurrentServesConfiguration` | src/control/reload.rs:192-193 | the current listener has selected exactly the stored configuration and secrets under the session's one seed |
| `SessionProperties.CutoverFindsListener` | src/control/reload.rs:267-271 | the branch for a running session without a current listener is dead |
| `SessionProperties.PrepareCaptures` | src/control/reload.rs:77-107 | the first section of a reload captures the session's core |
| `SessionProperties.UnsuccessfulSection` | src/control/reload.rs:77-271 | a section that answers failed or unchanged leaves configuration, secrets, socket, both counters and the gate alone |
| `SessionProperties.UnsuccessfulReload` | src/control/reload.rs:71-286 | a reload that reports failed or unchanged ends with exactly the core that it captured |
| `ReloadTheorems.UnchangedServesCandidate` | src/control/reload.rs:164-173 | when a reload answers unchanged, the selected generation answers every CONNECT, interception test and request as one compiled from the file would |
| `ReloadTheorems.SelectInstalls` | src/control/reload.rs:186-196 | a successful reload on the same socket installs exactly its candidate and moves nothing else |
| `ReloadRuns.ReloadInstallsFile` | src/control/reload.rs:71-286 | in every run a reload that read a file and answers reloaded, on the same or a new socket, leaves that file's configuration (with the session's own lifetime), secrets and path in the entry and a generation compiled from it selected by the current listener; one that answers unchanged found them equal |
| `Operations.CreateRegisters` | src/control/session.rs:118-171 | an undisturbed create registers exactly the session asked for, served by listener 1 |
| `Operations.CreateServesRequest` | src/control/session.rs:76-184 | in every run the session that appears has the configuration, secrets and source of its reservation, and its current listener serves them |
| `Operations.EndsRunning` | src/control/session.rs:199-211 | a stop, removal, sweep or exit of the current listener that finds the session running leaves it stopping without listeners and owns all of them |
| `Operations.EndsOnce` | src/control/session.rs:204-206 | a stop, removal or exit that finds the session stopping leaves it alone and is over |
| `Operations.EndTakesAll` | src/control/session.rs:190-211 | from its start, such an operation finds the session and its lock and takes every listener |
| `Operations.EndRemoves` | src/control/session.rs:212-225 | once the listeners are down it removes the session, counts it down once and is over |
| `Operations.ReloadDecides` | src/control/reload.rs:76-197 | a reload fails exactly without a running session with a source file or a usable file, answers unchanged exactly if path, secrets and configuration are those in force, else goes on with the file on the same or a new socket |
| `Operations.MoveSucceeds` | src/control/reload.rs:199-284 | with a number and a place among the retired left, a reload to a new socket succeeds: the whole new entry, the gate, the new listener and the retired one are as stated |
| `Operations.AcceptsExactly` | src/proxy_runtime/rama/ingress.rs:67-106 | a connection is served exactly if its listener has the gate's number and a permit is left, by the policy selected at that moment |
| `Operations.ReportsExactly` | src/proxy_runtime/rama.rs:156-175 | an exited listener reports exactly if it was retired or still has the gate's number |
| `SessionRuns.RunKeeps` | src/control/session.rs:76-366 | the session's invariant holds in every state of every run, from its reservation to the end of shutdown_all |
| `SessionRuns.RunKept` | src/proxy_runtime/rama.rs:156-175 | between any two states of a run no listener is forgotten and gate, numbers, histories and flags only grow |
| `SessionRuns.NoAdmissionAfterCutover` | src/proxy_runtime/rama/ingress.rs:78-83 | once the gate has moved past a listener, none of its later admission checks succeeds |
| `SessionRuns.NumbersNotReused` | src/control/reload.rs:213-215 | two listeners that were current at any two moments of a run and share a number are the same listener |
| `SessionRuns.ConnectionForLife` | src/proxy_runtime/rama/ingress.rs:84-106 | a connection that stays open keeps its listener and one policy and secrets pair of it over any stretch of a run |
| `Draining.ConnectionStays` | src/proxy_runtime/rama/ingress.rs:84-116 | over any stretch of a run a connection with what it pinned is released only by its own end, never by a step of a reload, stop or shutdown |
| `Draining.DrainsUntilDone` | src/proxy_runtime/rama/ingress.rs:107-116 | a draining listener does not exit while a connection of it is open, unless it is aborted |
| `SessionRuns.GoneLeavesNoListener` | src/control/session.rs:212-225 | whenever a session is gone and no operation is left, every listener it ever started was cancelled and aborted and, in service, has exited |
| `DaemonProofs.TurnKeeps` | src/control/server.rs:281-289 | every turn of the daemon (reservation, action of a session, each stage of the ordered shutdown) keeps the daemon's invariant |
| `DaemonProofs.Projects` | src/control/session.rs:76-366 | a turn of the daemon is, for each session, one step of that session or none |
| `DaemonTheorems.RunKeeps` | src/control/session.rs:76-366 | the daemon's invariant holds in every state of every run |
| `DaemonTheorems.SessionSafe` | src/control/session.rs:76-366 | in every state of every run each session satisfies its invariant |
| `DaemonTheorems.CapacityHolds` | src/control/session.rs:93-104 | in every run registered and provisioning sessions are disjoint and together never exceed the limit |
| `DaemonTheorems.GaugeExact` | src/telemetry.rs:40-46 | in every run the gauge is the number of registered sessions plus the operations that have erased theirs and not yet decremented it, plus what the end of shutdown_all still has to take off; so it never underflows |
| `DaemonTheorems.ShutdownComplete` | src/control/session.rs:306-339 | after the ordered shutdown nothing is registered or reserved, the gauge is zero and every listener ever started was cancelled and aborted |
| `DaemonTheorems.CreateSucceeds` | src/control/session.rs:93-184 | while the daemon serves and has room, a create under a fresh id registers its session, counts it and changes nothing else |
| `DaemonTheorems.Projects` | src/control/session.rs:76-366 | every run of the daemon is, from the reservation on, a run of each of its sessions |
| `DaemonTheorems.NoAdmissionAfterCutover` | src/proxy_runtime/rama/ingress.rs:78-83 | in a run of the daemon, once the gate of a session has moved past a listener, none of its later admission checks succeeds |
| `SessionViews.PublishSeen` | src/control/session.rs:150-171 | of the state machine's publication the registry sees the stored entry and the removed mark, and nothing else |
| `SessionViews.DecideSeen` | src/control/session.rs:270-293 | of the section that ends a session it sees the stored entry; what the operation then owns are all listeners of the entry |
| `SessionViews.PruneSeen` | src/control/session.rs:352-357 | of pruning it sees the entry without its finished retired listeners, with the draining count |
| `SessionViews.SelectSeen` | src/control/reload.rs:175-197 | of a same-socket reload it sees the candidate in the entry exactly if the reload answers reloaded |
| `SessionViews.CutIsActions` | src/control/reload.rs:267-284 | one cutover section is the three actions of the state machine |
| `SessionViews.CutSeen` | src/control/reload.rs:267-284 | of these it sees the entry with the replacement current and the old listener retired, and the moved gate |
| `SessionViews.Unseen` | src/control/session.rs:190-292 | every action that is neither a critical section nor the start or end of a listener leaves all that the registry sees |
| `SessionTables.PutConsistent` | src/control/session.rs:93-172 | a section that takes no further place keeps capacity, disjointness and coupling, with the gauge changed by what the session counts |
| `SessionRegistry.SessionManager.Reserve` | src/control/session.rs:93-104 | reserves an id exactly while accepting, below the limit and unknown, with a new session of the state machine |
| `SessionRegistry.SessionManager.Unreserve` | src/control/session.rs:111-141 | a failed create gives its reservation back, as the state machine does |
| `SessionRegistry.SessionManager.StartFirst` | src/control/session.rs:119-137 | the first listener gets the next handle and number 1 |
| `SessionRegistry.SessionManager.StartReplacement` | src/control/reload.rs:227-243 | the replacement gets the next handle and the number that the reload chose |
| `SessionRegistry.SessionManager.ListenerFinished` | src/proxy_runtime/rama.rs:156-175 | a listener whose task ends is one that `is_finished` reports |
| `SessionRegistry.SessionManager.Publish` | src/control/session.rs:150-172 | unmarks the id and registers the session with a counted gauge if still accepting, else only unmarks it |
| `SessionRegistry.SessionManager.Decide` | src/control/session.rs:270-293 | takes all listeners of the session, drops the listener of a late event by its number, or finds nothing to do; the caller gets what the operation owns |
| `SessionRegistry.SessionManager.Erase` | src/control/session.rs:213-214 | removes the entry and says whether it was there; the operation then owes a decrement |
| `SessionRegistry.SessionManager.SessionStopped` | src/telemetry.rs:44-46 | an operation that owes a decrement takes it off the gauge, which stays non-negative |
| `SessionRegistry.SessionManager.RemoveSession` | src/control/session.rs:213-223 | removes a session that is still registered and decrements the gauge once, or does neither |
| `SessionRegistry.SessionManager.PrepareReload` | src/control/reload.rs:76-88 | the first section of a reload prunes the entry and goes on as the state machine does |
| `SessionRegistry.SessionManager.CommitSelection` | src/control/reload.rs:175-197 | stores the candidate and counts the generation exactly when the reload answers reloaded |
| `SessionRegistry.SessionManager.PlanReload` | src/control/reload.rs:199-226 | prunes, then chooses the next listener number or refuses, as the state machine does |
| `SessionRegistry.SessionManager.Cutover` | src/control/reload.rs:251-284 | installs the replacement, moves the gate and retires the old listener in one section, or changes nothing |
| `SessionRegistry.SessionManager.List` | src/control/session.rs:350-357 | drops finished retired listeners of every session and updates the draining counts |
| `SessionRegistry.SessionManager.BeginShutdown` | src/control/session.rs:307-312 | stops accepting, forgets reservations and returns the registered ids |
| `SessionRegistry.SessionManager.TakeEverything` | src/control/session.rs:313-333 | visits sessions at rest: each that is still registered stops, gives up its listeners and is counted |
| `SessionRegistry.SessionManager.FinishShutdown` | src/control/session.rs:335-338 | clears the registry and counts the gauge down to zero |
| `SessionRegistry.SessionManager.ShutdownAll` | src/control/session.rs:306-339 | from sessions at rest: all listeners are taken, nothing stays registered or reserved, the gauge is zero, and each session went through the visit, join and clearing of the state machine |
| `ProxyRuntimes.ProxyRuntime.ReplaceGeneration` | src/proxy_runtime/rama.rs:208-225 | the handle of the current listener becomes that listener after the reload section of the state machine, and the answer is that reload's |
| `ProxyRuntimes.ProxyRuntime.RetireReplaced` | src/control/reload.rs:277-281 | marking and retiring the replaced handle makes it that of the listener after the cutover of the state machine |
| `ProxyRuntimes.ProxyRuntime.Retire` | src/proxy_runtime/rama.rs:232-240 | the handle of a listener becomes that of the same listener marked and told to retire, all else unchanged |
| `ProxyRuntimes.ProxyRuntime.Drop` | src/proxy_runtime/rama.rs:274-283 | the handle of a dropped listener is that of the listener after the state machine's drop |
| `ProxyRuntimes.ReplaceIsSelect` | src/control/reload.rs:183-196 | the current listener after the reload section: dead generations forgotten, the new one added unless eight are alive |
| `Paths.CanonicalizePath` | crates/baffle-client/src/policy.rs:401-450 | the loop computes the canonical form or the first error |
| `Paths.CanonicalIdempotent` | crates/baffle-client/src/policy.rs:401-450 | canonicalisation is idempotent and preserves the percent-decoded bytes |
| `Paths.DecodedIsSafe` | crates/baffle-client/src/policy.rs:415-448 | an accepted path, fully decoded, has the segments of its canonical form decoded one by one, no dot segment, no repeated slash, and nothing left to decode |
| `Paths.ValidatedIsPattern` | crates/baffle-client/src/policy.rs:355-382 | validation returns a canonical path, recursive only after a final slash |
| `Paths.PatternIsValid` | crates/baffle-client/src/policy.rs:355-382 | every such pattern validates to itself |
| `Paths.ValidatePathIdempotent` | crates/baffle-client/src/policy.rs:355-382 | validation is idempotent |
| `Paths.OverlapIsSharedPath` | crates/baffle-client/src/policy.rs:384-399 | two patterns overlap exactly when some canonical path matches both |
| `Paths.RecursiveMatchStaysBelow` | src/policy.rs:245-249 | a path that matches a recursive pattern lies below its directory also when decoded |
| `PathAcceptance.HexTable` | crates/baffle-client/src/policy.rs:452-459 | a hexadecimal digit has the value of its place in the row of digits, in either case |
| `PathAcceptance.DecodeEscapes` | crates/baffle-client/src/policy.rs:415-425 | decoding a text escaped byte by byte returns it |
| `PathAcceptance.AcceptsExactly` | crates/baffle-client/src/policy.rs:401-450 | a path is accepted exactly if it starts with a slash, consists of path characters and escapes that hide no separator, and decoded has no repeated slash and no dot segment |
| `Dns.NormalizeDnsIdempotent` | crates/baffle-client/src/policy.rs:92-123 | a normalised host is lower-case, has no colon and is its own normal form |
| `Policy.CompileAgreesWithScan` | src/policy.rs:59-93 | the compiled index finds a rule exactly when a scan of the list does, and it is the compilation of that rule |
| `Authorization.NormalizesExactly` | crates/baffle-client/src/policy.rs:92-123 | a name normalises to `h` exactly if `h` is a valid host that it spells up to case, perhaps with a final dot |
| `Authorization.ParsesPort` | src/policy.rs:208-212 | the decimal digits of a number, with leading zeros or a plus sign, are read as that number up to 65535 and refused beyond |
| `Authorization.ParsesAuthority` | src/policy.rs:195-224 | an authority is read as a destination exactly if it is plain text naming a host alone, then port 443, or a host and a non-zero port |
| `Authorization.ConnectsExactly` | src/policy.rs:96-114 | a CONNECT is answered with a mode and a destination exactly if its authority and Host texts name it and the scanned rule lists the port with that mode, or no rule matches, unmatched hosts are tunnelled and the port is 443 |
| `Authorization.InterceptsExactly` | src/policy.rs:117-130 | TLS is intercepted exactly if the authority names a destination with an intercept rule for its port and the server name normalises to its host |
| `Authorization.RequestAllowed` | src/policy.rs:133-241 | a decrypted request is allowed exactly if it is no CONNECT, is https if anything, gives an authority, all given ones name the CONNECT destination, the scanned rule lists the port, and the canonical path matches a pattern if there are any; it then gets that rule's compiled credentials and the canonical path |
| `Effective.Canonicalize` | src/control/reload.rs:358-371 | sorts and lower-cases local copies into the canonical form |
| `Effective.SameEffectiveRules` | src/control/reload.rs:354-374 | compares canonical forms |
| `Effective.SameRulesIffSameMeaning` | src/control/reload.rs:354-374 | without duplicates the test holds exactly when both lists hold the same rules up to order of rules, ports, paths, injections and header case |
| `Serving.Handle` | src/proxy_runtime/rama/http.rs:65-116 | the handler forwards exactly what the specification says, rewriting path and headers in place, or denies with untouched headers |
| `Serving.UnchangedIsSound` | src/control/reload.rs:164-173 | configurations that the test calls unchanged give identical CONNECT answers, interception tests and forwarded requests under one seed and one set of secrets |
| `Forwarding.ModePrecedence` | crates/baffle-client/src/lib.rs:331-339 | the mode set for a secret beats the default, which beats injection |
| `Forwarding.InjectSets` | src/proxy_runtime/rama/http.rs:157-172 | an injected credential sets its header to the formatted secret, whatever the request had there |
| `Forwarding.SubstituteSets` | src/proxy_runtime/rama/http.rs:157-214 | a substituted credential rewrites exactly the only, readable value that carries the session's fake secret, to the actual one under the same scheme word |
| `Forwarding.DisabledSets` | src/proxy_runtime/rama/http.rs:157-160 | a disabled credential never touches a request |
| `Forwarding.AsksUpgrade` | src/proxy_runtime/rama/http.rs:130-142 | a request asks for an upgrade exactly if it has the header or a readable Connection list names it between blanks, in any case |
| `Forwarding.ForwardsExactly` | src/proxy_runtime/rama/http.rs:65-116 | a request is forwarded, as `out`, exactly if its Host values are readable, the rules allow it, it asks for no upgrade where a secret is used and all credentials apply; `out` differs only in the canonical path and the headers that credentials set |
| `Base64.DecodeEncode` | src/proxy_runtime/rama/http.rs:222-225 | decoding an encoding returns the bytes |
| `Base64.EncodeDecode` | src/proxy_runtime/rama/http.rs:200-211 | every text that decodes is the encoding of what it decodes to |
| `Base64.EncodesGroup` | src/proxy_runtime/rama/http.rs:222-225 | three bytes are written as the four digits, of the alphabet of section 4 of RFC 4648, of the same number, the last ones with padding |
| `Credentials.SubstitutesExactly` | src/proxy_runtime/rama/http.rs:176-214 | a header is rewritten exactly when it carries the fake credential, under any case of its scheme, and then carries the actual secret |
| `Credentials.SubstituteIsInject` | src/proxy_runtime/rama/http.rs:176-228 | substituting in a header formatted with the fake value gives the header that injection would produce, for all three formats |
| `Credentials.Request.ApplyHeaderCredentials` | src/proxy_runtime/rama/http.rs:144-174 | all headers are rewritten from the unchanged request, or none |
| `Credentials.OverlayAt` | src/proxy_runtime/rama/http.rs:169-172 | each outgoing header is the one that some credential sets, else the incoming one |
| `Credentials.OrderIndependent` | src/proxy_runtime/rama/http.rs:144-174 | the outcome depends neither on the order of the credentials nor on the case of their headers |
| `SecretStores.Resolve` | src/secrets.rs:81-111 | resolves exactly the secrets of injections that are not disabled, or fails as not entitled or unavailable |
| `SecretStores.SameValuesIsEquality` | src/secrets.rs:40-48 | the comparison of resolved secrets is equality |
| `SecretStores.ResolvedIsEnough` | src/secrets.rs:85-109 | with resolved secrets the lookup never misses, and the rewrite of a valid rule fails only on an oversized header name |
| `Validation.ValidateRule` | crates/baffle-client/src/policy.rs:254-333 | the loops accept a rule or return the first error |
| `Validation.ValidatedIsValid` | crates/baffle-client/src/policy.rs:254-333 | accepted rules have distinct non-zero ports, non-overlapping patterns, distinct valid headers and matching usernames; only paths are respelled |
| `Validation.ValidValidates` | crates/baffle-client/src/policy.rs:254-333 | every such rule validates to itself |
| `Validation.AtMostOneMatch` | crates/baffle-client/src/policy.rs:284-296 | in a valid rule a request path matches at most one pattern |
| `Validation.ValidatesExactly` | crates/baffle-client/src/policy.rs:254-333 | a rule is accepted, as `r`, exactly if its ports are some, distinct and non-zero, a tunnel has no further features, its paths are valid and do not overlap when respelled, and its injections are valid and distinct; `r` differs only in the spelling of paths |
| `Wire.ValidateNamedRules` | crates/baffle-client/src/policy.rs:200-252 | the loop infers modes and defaults and accepts the table or returns the first error |
| `Wire.ValidatedIsOk` | crates/baffle-client/src/policy.rs:130-178 | an accepted document yields distinct normal hosts, valid rules, a valid socket name and valid secret identifiers |
| `Wire.NamesExactly` | crates/baffle-client/src/policy.rs:200-252 | a table is accepted exactly as the rules for its entries, in order and with distinct hosts: a missing mode is interception exactly with paths or injections, missing ports are 443 |
| `Wire.AcceptsExactly` | crates/baffle-client/src/policy.rs:130-178 | a document is accepted, as `c`, exactly if version, fields, word for unmatched hosts, table, socket name and secret names are valid, and `c` takes each of them over |
| `Wire.ToWire` | crates/baffle-client/src/lib.rs:688-728 | refuses exactly duplicate hosts and lists the rules in host order |
| `Wire.WireRoundTrip` | crates/baffle-client/src/lib.rs:743-777 | sending a valid configuration and validating it returns it, with its rules in host order |
| `Wire.ValidatedRoundTrip` | crates/baffle-client/src/policy.rs:130-178 | validating, sending and validating again agrees with validating once, up to rule order |
| `Wire.WireIsUnchanged` | src/control/reload.rs:354-374 | the order that the wire form imposes is one that a reload calls unchanged |
| `Composition.ResolveImportName` | src/control/file_config.rs:361-398 | the loop resolves an import to a valid name inside the directory or refuses it |
| `ImportNames.ResolvesRelative` | src/control/file_config.rs:361-398 | steps up and then plain components, with dots anywhere, name those components that many levels above the importing file, or nothing without so many levels or with an invalid name |
| `ImportNames.StepUpCancels` | src/control/file_config.rs:387-391 | a step up undoes the plain component before it |
| `ImportNames.EmptyPieceRefused` | src/control/file_config.rs:385 | an empty piece is refused |
| `ImportNames.ResolvedIsName` | src/control/file_config.rs:394-397 | whatever resolves is a valid name without dot components |
| `Composition.ConfigComposer.ComposeFile` | src/control/file_config.rs:104-136 | the stack, the loaded set and the limits follow the specification; the stack is restored |
| `Composition.ConfigComposer.ComposeContents` | src/control/file_config.rs:138-278 | imports first, then the file's own settings |
| `Composition.ConfigComposer.MergePolicy` | src/control/file_config.rs:192-244 | adds the settings of a file or reports a conflict |
| `Composition.ConfigComposer.MergeModes` | src/control/file_config.rs:223-233 | adds credential modes unless one differs |
| `Composition.ConfigComposer.PushRules` | src/control/file_config.rs:235-244 | adds rules unless a host is defined twice |
| `Composition.ConfigComposer.ReadSession` | src/control/file_config.rs:85-102 | returns the composed session or the error kind |
| `ImportGraph.WalkMeaning` | src/control/file_config.rs:104-136 | the walk meets a cycle exactly when a chain comes back to a file, else lists the reachable files once each, imports first, root last |
| `CompositionWalk.ComposeIsWalk` | src/control/file_config.rs:104-278 | composing a file succeeds exactly when the limit-free walk fits the limits and its files merge, and gives that merge |
| `CompositionTheorems.ComposesExactly` | src/control/file_config.rs:85-278 | composition succeeds exactly for acyclic graphs of at most 128 files with at most 32 stacked, valid files, lifecycle fields only in the root and no conflict |
| `CompositionTheorems.ComposesReachableOnce` | src/control/file_config.rs:85-278 | the rules are those of the reachable files, each file once and after its imports, with distinct hosts; every explicit setting equals the effective one |
| `CompositionTheorems.CyclesFail` | src/control/file_config.rs:110-114 | a reachable import cycle always fails |
| `CompositionTheorems.ComposesWithinLimits` | src/control/file_config.rs:118-127 | the documented limits are sufficient |
| `CompositionTheorems.ImportOrderIrrelevant` | src/control/file_config.rs:181-184 | permuting imports keeps success, all settings and the multiset of rules |
| `CompositionTheorems.ImportOrderUnchanged` | src/control/reload.rs:354-374 | so a reload after permuting imports finds the session unchanged |
| `CompositionTheorems.LongChainAccepted` | src/control/file_config.rs:118-122 | a session is accepted although it holds an import chain of more than 32 files |
| `CompositionTheorems.ImportOrderMatters` | src/control/file_config.rs:118-127 | for every length up to 128 the same files with the root's imports in another order are accepted only below 32: import order matters beyond the documented limit |
| `Connect.ReadHeaderBlock` | src/proxy_runtime/rama/connect.rs:175-221 | whatever the read sizes, the outcome is that of the whole stream, nothing after the terminator is lost, and the buffer stays below 20480 bytes |
| `Connect.HeaderEndIsFirst` | src/proxy_runtime/rama/connect.rs:203-204 | the header block ends at the first terminator |
| `Connect.ParseHeaders` | src/proxy_runtime/rama/connect.rs:245-267 | the loop computes host and body flag or the first error |
| `Connect.HeadersMeaning` | src/proxy_runtime/rama/connect.rs:245-267 | accepted exactly when every line has a colon and at most one is Host; the flag says whether a line announces a body |
| `Connect.HostMeaning` | src/proxy_runtime/rama/connect.rs:249-255 | the host is the trimmed value of the Host line |
| `Connect.ReadConnectRequest` | src/proxy_runtime/rama/connect.rs:175-274 | the request of the whole stream, and the bytes after its header |
| `Connect.ReplayStream.Read` | src/proxy_runtime/rama/connect.rs:292-312 | replays the bytes read ahead, then the stream, in order |
| `Connect.CopyUntilEof` | src/proxy_runtime/rama/connect.rs:150-166 | delivers exactly the remaining bytes in order, or a prefix of them if a write fails |
| `Connect.HandleClient` | src/proxy_runtime/rama/connect.rs:28-147 | the response depends on the stream only as a whole; a tunnel delivers a prefix of the bytes after the header, and all of them if the copy succeeds |
| `ConnectBytes.LineMeaning` | src/proxy_runtime/rama/connect.rs:245-267 | which header lines are Host lines and which announce a body, by name in any case and value |
| `ConnectBytes.TrimsSpaces` | src/proxy_runtime/rama/connect.rs:249-255 | a value is read without the spaces around it |
| `ConnectBytes.ParsesBytes` | src/proxy_runtime/rama/connect.rs:222-274 | the bytes of a CONNECT request are accepted exactly if its lines are well formed, and give its authority, the host of its Host line and whether a line announces a body |
| `ConnectBytes.ClientExactly` | src/proxy_runtime/rama/connect.rs:28-94 | a client that sends these bytes is forbidden, tunnelled or intercepted exactly as the rules grant the destination that its authority and Host line both name, and served only if no line announces a body |
| `ConnectBytes.ServedOnlyIf` | src/proxy_runtime/rama/connect.rs:28-94 | whatever a client sends, it is served only after a header block of that kind |
| `Directories.DirectoryRegistry.RegisterDirectory` | src/proxy_runtime/rama/ingress.rs:336-360 | adds a lease to the record of a directory |
| `Directories.DirectoryRegistry.EnterComponent` | src/proxy_runtime/rama/ingress.rs:426-490 | opens or makes one component and registers it; removes what it made if setup fails, leaves it if reopening or examining it fails |
| `Directories.DirectoryRegistry.OpenParent` | src/proxy_runtime/rama/ingress.rs:386-502 | walks down and leases every component until one fails |
| `Directories.DirectoryRegistry.ReleaseLease` | src/proxy_runtime/rama/ingress.rs:282-319 | the last lease of a directory that Baffle made removes it, if its identity is unchanged |
| `Directories.DirectoryRegistry.ReleaseSet` | src/proxy_runtime/rama/ingress.rs:269-280 | gives back the leases of a guard, deepest first |
| `DirectoryTheorems.StepKeeps` | src/proxy_runtime/rama/ingress.rs:119-502 | every step of a bind, a failed bind or a drop keeps the invariant of leases and tree |
| `DirectoryTheorems.LeasesAreGuards` | src/proxy_runtime/rama/ingress.rs:336-360 | in every run the leases of a directory are the live guards through it, and it is in the tree under its name |
| `DirectoryTheorems.LeasedStays` | src/proxy_runtime/rama/ingress.rs:282-319 | no leased directory and nothing that was there first is ever removed |
| `DirectoryTheorems.AllGone` | src/proxy_runtime/rama/ingress.rs:269-319 | when no guard is left, the registry is empty, all that was there first is there, and beyond it exactly the entries left by the two failing exits and the directories on the way to them; so the tree is as at the start if and only if no bind took such an exit |
| `DirectoryTheorems.LeaksHappen` | src/proxy_runtime/rama/ingress.rs:169-171 | a run for each of the two exits after which no guard is left and an entry is |
| `DirectoryTheorems.WalkIsSteps` | src/proxy_runtime/rama/ingress.rs:386-502 | the walk under the lock is a run of steps |
| `DirectoryTheorems.ReleaseIsSteps` | src/proxy_runtime/rama/ingress.rs:269-280 | the release of a guard is a run of steps |
| `DirectoryBinds.BindsExactly` | src/proxy_runtime/rama/ingress.rs:119-192 | from every reachable state a bind without faults succeeds exactly if every component on its path is a directory or missing and the name is free; its guard then holds the directories that the path leads to, existing ones with their identities, its socket is in the last one, and nothing that was there changes |

## Left out

- TLS interception, certificate issuing, CA files and the Rama relay: foreign libraries.
- TOML and JSON syntax and serde: documents are values; a session file is what its parsed table contains.
- Liveness: nothing is claimed about when a shutdown, a drain or a cleanup ends. In particular a replacement listener that exits before the gate moves to it reports no event, so its session is not removed by its exit.
- Timeouts, grace periods, metrics other than the session gauge, logging, CLI and benchmarks.
- System calls, permission bits and symbolic links of session, secret and socket files: reading them is given by its outcome.
- Socket paths with `..` components: directory names are normal components.
- Reuse of file identities: a directory or socket gets an identity that was never used before.
- The order of header lines with different names in a forwarded request: headers are a map from name to values.
- `reload_all`: it is a sequence of reloads, each of which is modelled; its sorting of results is not.
- Reasons of a failed reload: all are one answer, `Failed`.
- Upstream connection failures and read timeouts of a CONNECT client: they only choose a response status.
- Fresh session ids: the model assumes that a random id which is not registered was not used before.
- Connect.HandleClient: does not model the answer direction of a tunnel, which is the same copy loop without a replay buffer; a failure there only cuts this direction short.
- Failing system calls while a guard is dropped: examining, unlinking and removing an entry succeeds if the entry is there and, for a directory, empty.
- Writers of the socket directories other than Baffle: between its steps nothing else changes the tree.
- SessionRegistry.SessionManager.ShutdownAll: one call without interference; the interleaving of its visits with listener tasks is in `Daemon`.
