# cfzt-warp: a verified model

A Dafny model of the stateful parts of the Cloudflare Zero Trust plugin for OPNsense, with proofs
about them: the MASQUE tunnel daemon `cfzt-warp` (Go) and the backend scripts that configure, start
and watch it (Python). `dafny verify dfyconfig.toml` checks the whole project.

Paths below are relative to the repository root; `scripts/` stands for
`net/cloudflare-zt/src/opnsense/scripts/CloudflareZT/`.

## How the code is modelled

| module | what it models | form |
|---|---|---|
| `Tunnel` | `MaintainTunnel` and its pumps (`go/cfzt-warp/daemon/tunnel.go:44-200`), `bufPool` (`:261-280`) | a step machine. One action is one access to something shared: the pool, the device, an error channel, a cancel flag, a connection. Sessions stay in the machine after the shutdown grace, so any number of stale pumps runs beside the current session |
| `TunnelSessions`, `TunnelBuffers`, `TunnelPackets`, `TunnelMain` | one invariant family each: channels and flags, buffer ownership, packets, sockets and delay | lemmas about every action |
| `TunnelTheorems`, `TunnelAccounts` | the properties of every reachable state and every run | lemmas |
| `TunnelFlow`, `TunnelPumps` | which statement of main and of the pumps follows which answer, by counts over every run | lemmas |
| `Delays` | `backoff` with int64 wrap-around, and the delay over a history | functions and lemmas |
| `Connect` | `ConnectMASQUE`, `connectH3` (`go/cfzt-warp/api/masque.go`), `closeResult` | a class with a log of opens and closes |
| `Routes`, `FullTunnel`, `SplitTunnel`, `Endpoints`, `SystemDns` | `runMASQUE` with its defers (`go/cfzt-warp/main.go`), `go/cfzt-warp/tun/tun_freebsd.go` | classes over a routing table; loops |
| `RouteTheorems`, `RouteDeaths` | what a run does to routing, while up, afterwards, and when it dies at any statement | lemmas |
| `Lifecycle`, `LifecycleTheorems`, `LifecycleRoundTrips`, `LifecycleLimits` | `scripts/service.py` against the daemon's start-up and shutdown; the last module says exactly when each guarantee fails | a class over the host's state; the daemons take steps between the script's statements |
| `Monitor` | `scripts/cfzt_monitor.py` | a class; histories of polls |
| `Rotation`, `RotationTheorems`, `RotationSecrets`, `WarpCommands` | `scripts/warp.py` over the server's key, the secret store and the configuration | a class; a script of failures is a parameter |
| `Secrets` | `scripts/cfzt_secrets.py` | a class over the file; the primitives are given functions |
| `Dns`, `Text`, `Basics` | `scripts/dns.py`, and the string operations of both languages | methods with loops, a class for the override; functions |

What comes from outside is a parameter: answers of the network, the device, route(8), the
Cloudflare API and the clock, and whether each write succeeds. The class methods follow the
statements of the source and are proved equal to a specification function; the theorems are about
those functions.

## What is taken for granted

- After `IPConn.Close` every `ReadPacketZeroCopy` returns a CloseError, and `WritePacketBuffer` does
  not keep the buffer after it returns. Inside `Device.Read` and `WritePacketBuffer` the callee may
  write anything to the buffer it was given.
- `Device.Read` fits what it returns into the buffer and never returns more than the MTU.
- `sync.Pool` gives out an array that was put and not yet given out, or a new one; it may drop any.
- `route add` fails when the prefix is present and may fail at any time; `change` and `delete` fail
  when it is absent, and `change default` succeeds otherwise. Re-adding the saved default after a
  failed change succeeds. The kernel drops the routes through an interface that goes away. Closing
  the TUN device removes its interface; when a process dies otherwise the interface may stay or go.
  `route add -net` with a bare host address makes a host route.
- Commands of `service.py` run one after the other and process ids are not reused. SIGKILL acts at once.
  A restart by the monitor is one more start command. A connection does not change between WARP and
  cloudflared, which would change the name of its pid file.
- Decryption undoes encryption, a MAC has 32 bytes, and UTF-8 decoding undoes encoding. Nothing is
  assumed of forgeries.
- The clock does not run backwards where `RotationSpacing` says so (`ClockedAll`).

## What the code does that one might not expect

- The documentation says failures wait 5s, 10s, 20s (`docs/developer.md:108`). `backoff` doubles before
  the first sleep, so the first failure waits 2D (`FailureSleepFromStart`). With int64 arithmetic the
  cap of 60s fails exactly when D is at least 2^62 ns (`CapHoldsUnlessDoublingWraps`); the configurable
  300 s is far below (`ConfiguredDelayDoesNotWrap`), but above the cap, where a lost session sleeps
  300 s and a failed connect 60 s.
- The default route survives a full-tunnel run exactly when MaintainTunnel returns and the old default had
  a gateway address to save (`DefaultSurvivesExactlyWhen`). A TLS configuration that does not parse
  (`log.Fatalf`), SIGKILL from `stop`, or a crash skips the defers; wherever the run dies, the default
  survives exactly when it was not changed yet or had been restored (`DefaultSurvivesDeathExactlyWhen`).
  The DNS host routes stay behind then (`DeathLeaves`), and no later run brings the default back
  (`LostForGood`). The endpoint pins are never removed (`RestoredBeforeClose`), and a second run is
  without effect exactly when it adds no pin (`SecondRunChangesNothing`).
- A start issued before the previous daemon has written its pid file launches a second one; so does a
  start issued after the previous daemon has removed its pid file and before it has exited, and
  nothing else does (`SecondDaemonExactlyWhen`, with runs in `TwoStartsTwoDaemons` and
  `LeavingBesideLaunched`). Interface names take the last four hex digits of the uuid and collide exactly
  when these are the same (`NamesCollideExactlyWhen`); a start then destroys a live daemon's interface
  exactly when a state file was left over (`CleanupTakesExactly`, `CleanupTakesLiveInterface`). A
  daemon that dies between creating its interface and writing the state file, or fails to write it,
  leaves an interface that no command removes (`CrashLeavesOrphan`, `OrphanBlocksForever`): a daemon
  comes up exactly when no interface has its name or a state file names it (`InterfaceComesUpExactlyWhen`).
- A monitor restart that does not take is not repeated until the connection was seen up
  (`RestartsNeedUp`). Notices alternate exactly unless a connection was seen to recover, fall while
  unregistered and recover again (`NoticesAlternateExactlyWhen`, `UnregisteredRecoversTwice`).
- In the rotation check nothing catches a `set_secret` that raises: the connections after it are not
  tried and no reply is given. Which trials raise can be told before the check from the answers of the
  server and the store (`RaisesExactlyWhen`, `CheckTriesDueOnce`, `RaiseStopsCheck`).
- A registration stores the new device's token and key before it writes the device id, so a failure
  between leaves the new token beside the old device (`TokenMatchesExactlyWhen`, `RegisterAgreesExactlyWhen`).
- A failed certificate generation leaves the new private key beside the old certificate
  (`PairMatchesExactlyWhenCertificateStored`); a refused enrolment may still have reached the server
  (`EnrollAgreesExactlyWhen`).
- Disabling the DNS override removes the file without a reload, so Unbound keeps the old forwarders
  (`AgreesExactlyUnlessDisabled`); a failed reload is never repeated (`FailedReloadIsNotRetried`), and leaves
  file and Unbound apart exactly when `AppliedIsLoadedExactlyWhen` says.
- `has_secret` answers yes for a blob that cannot be read (`BadMacReadsNone`), so the store is a plain map
  exactly when every stored value opens (`RefinesExactlyWhenAllOpen`), and a secrets file that is
  not JSON is replaced by the next `set_secret` (`SetAfterCorruption`). The README and
  `docs/developer.md:115` speak of AES-256-GCM; the code is AES-256-CBC with HMAC-SHA256, and its key
  comes from the first of three host files, not only `/etc/hostid`.

## Model

| member | source | states |
|---|---|---|
| TunnelTheorems.InvReachable | go/cfzt-warp/daemon/tunnel.go:44-200 | every state reachable by any interleaving of main, all pumps (stale ones too), the device, the connections, the garbage collector and a cancellation satisfies the five invariants below together |
| TunnelAccounts.RunConservation | go/cfzt-warp/daemon/tunnel.go:64-154 | over every run, counting what happened at the device and the connections: packets returned by Device.Read = reads that only woke the idle loop + writes accepted + writes failed + drops at the cancel check + one for each pump with a packet in hand; drops never exceed the pumps that quit unreported, all of them cancelled |
| TunnelAccounts.AccountFollowsRun | go/cfzt-warp/daemon/tunnel.go:64-154 | from any state that meets the invariants, the fates noted down agree with the reads and write results of the run that follows |
| TunnelTheorems.PacketConservation | go/cfzt-warp/daemon/tunnel.go:64-154 | in every reachable state the packets read divide into those that woke the idle loop, accepted, failed, dropped and carried by a pump, with no packet in two of these and none lost |
| TunnelTheorems.InFlightAreCarried | go/cfzt-warp/daemon/tunnel.go:125-139 | the packets in flight are as many as the pumps that carry one: every such pump has one packet and every such packet one pump |
| TunnelTheorems.HandedInOrderUnchanged | go/cfzt-warp/daemon/tunnel.go:125-139 | what a session hands to WritePacketBuffer is an in-order selection of the TUN stream, byte for byte, although buffers travel between sessions and the device scribbles on them while it reads |
| TunnelTheorems.HandedOnce | go/cfzt-warp/daemon/tunnel.go:119-154 | no packet is handed to two sessions |
| TunnelTheorems.BufferOwnership | go/cfzt-warp/daemon/tunnel.go:261-280 | every backing array ever made is MTU+1 long and in exactly one place: once in the pool, let go by it, with main, or with exactly one pump, whatever the number of stale pumps |
| TunnelTheorems.RegionInsideBuffer | go/cfzt-warp/daemon/tunnel.go:127-138 | the region [1, 1+n) handed to the connection lies inside its buffer, n is at most the MTU, and it holds the packet that was read |
| TunnelTheorems.SendsNeverBlock | go/cfzt-warp/daemon/tunnel.go:112-175 | a pump with something to report can always send at once, so errCh never holds more than its capacity of 2, even when nobody reads it any more |
| TunnelTheorems.WaitingHasInbound | go/cfzt-warp/daemon/tunnel.go:180 | while main waits at an empty errCh the inbound pump of that session has not ended; the outbound one has exited only under a cancelled context |
| TunnelTheorems.DropsPerSession | go/cfzt-warp/daemon/tunnel.go:134-137 | packets dropped at cancel checks are at most the sessions main has cancelled, and one more if a cancelled context interrupts a session main has not |
| TunnelMain.MainShutdown | go/cfzt-warp/daemon/tunnel.go:59-199 | after the context is cancelled main takes at most thirteen more statements in every continuation: it starts no second round of the loop |
| TunnelTheorems.OneSessionUncancelled | go/cfzt-warp/daemon/tunnel.go:183-184 | every session but the one main is running has been cancelled and its connection closed |
| TunnelTheorems.OutboundNeverStuck | go/cfzt-warp/daemon/tunnel.go:119-154 | whatever the device and the connection answer, a running outbound pump can take its next statement: no panic on a slice, no blocked send |
| TunnelTheorems.SocketsDisciplined | go/cfzt-warp/api/masque.go:137-192 | at every instant of every run (every prefix of the open/close log) no socket, transport or IP connection is opened twice, closed before it is opened or closed twice, and no two of a kind are open together |
| TunnelTheorems.SocketsReleased | go/cfzt-warp/daemon/tunnel.go:88-107 | at the loop head, asleep, idle or returned, whatever was opened, in failed dials, second attempts and non-200 replies too, has been closed exactly once |
| TunnelTheorems.SocketsNested | go/cfzt-warp/api/masque.go:148-192 | at every instant of every run an open IP connection has its transport open, and an open transport its socket: nothing is closed under a user |
| TunnelTheorems.SleepTrace | go/cfzt-warp/daemon/tunnel.go:57-199 | every sleep of every run has the closed-form length that the outcomes before it determine, and for 0 < D <= 60s lies in [D, 60s] |
| TunnelSessions.OutboundShutdown | go/cfzt-warp/daemon/tunnel.go:119-183 | after cancelPumps, or after the daemon's context is cancelled, in every continuation, the outbound pump completes at most one more Device.Read or one more WritePacketBuffer, never both, and takes at most five more steps |
| TunnelSessions.InboundShutdown | go/cfzt-warp/daemon/tunnel.go:157-184 | after IPConn.Close the inbound pump writes at most one more packet to the TUN and takes at most three more steps |
| TunnelSessions.CancelledOutStep | go/cfzt-warp/daemon/tunnel.go:119-154 | each step of a cancelled outbound pump lowers its rank, and a completed read or write uses up the only one it had left |
| TunnelSessions.SessionsStep | go/cfzt-warp/daemon/tunnel.go:112-193 | every action keeps: reports sent are in the channel or taken, a silent exit follows a cancellation, and the cancel, close and receive of a session happen at main's own statements |
| TunnelBuffers.GetLoosens | go/cfzt-warp/daemon/tunnel.go:275 | bufPool.get takes exactly the array it returns out of the pool, and that array was free |
| TunnelBuffers.PutTightens | go/cfzt-warp/daemon/tunnel.go:276-280 | bufPool.put puts back exactly the array it is given, which was in use |
| TunnelBuffers.BuffersStep | go/cfzt-warp/daemon/tunnel.go:66-139 | every action keeps: no array twice in the pool, none held by two threads, none held while in the pool, none lost |
| TunnelPackets.PacketsScribble | go/cfzt-warp/daemon/tunnel.go:127 | while the device or the connection works on one pump's buffer, no packet of any other pump changes: pool ownership gives this, for readMu belongs to one session |
| TunnelPackets.PacketsStep | go/cfzt-warp/daemon/tunnel.go:64-154 | every action keeps the account of packets: each read packet has one fate, and what a pump has in hand is what it read |
| TunnelMain.NetStep | go/cfzt-warp/daemon/tunnel.go:88-193 | every action keeps: main holds exactly the handles that its next clean-up will close |
| TunnelMain.DelayStep | go/cfzt-warp/daemon/tunnel.go:57-199 | every action keeps the delay variable equal to its value computed from the history of sleeps alone |
| TunnelFlow.ConnectDecides | go/cfzt-warp/daemon/tunnel.go:88-112 | a connect leads to a session if and only if the first answer it gets is 200, to a rejection if and only if that answer is another, and to a sleep when there is none |
| TunnelFlow.SessionsWereAnswered200 | go/cfzt-warp/daemon/tunnel.go:89-112 | over every run each session belongs to a call that the network answered 200, and what main rejects to a call with another status |
| TunnelFlow.MainFlow | go/cfzt-warp/daemon/tunnel.go:59-199 | over every run, by counts of the statements executed: which statement of main follows which answer, the idle read only without AlwaysReconnect, a session for exactly the connects answered 200, and one sleep of the right kind for each round that ends in one |
| TunnelFlow.ReturnsOnlyCancelled | go/cfzt-warp/daemon/tunnel.go:59-63 | MaintainTunnel returns only after its context was cancelled |
| TunnelFlow.MainStuckOnlyAtReceive | go/cfzt-warp/daemon/tunnel.go:59-199 | in every reachable state, whatever the environment answers, main can take its next statement if and only if it does not wait at an empty errCh |
| TunnelPumps.PumpFlow | go/cfzt-warp/daemon/tunnel.go:119-178 | over every run and for every session, by counts of what each pump was answered: a soft write or read failure and a failed ICMP reply lead to the next round, a read error, a closed connection and a failed TUN write to a report, and a cancelled check to a silent exit |
| TunnelPumps.ReportsAreCaused | go/cfzt-warp/daemon/tunnel.go:129-175 | every error in errCh, or about to be sent, is one that happened to a pump of that session |
| Delays.DelayClosedForm | go/cfzt-warp/daemon/tunnel.go:57-199 | for every mix of outcomes the delay is min(60s, 2^e * D), e counting connect failures since the last lost session |
| Delays.BackoffDoubles | go/cfzt-warp/daemon/tunnel.go:250-259 | one backoff moves from one closed-form value to the next |
| Delays.FailureSleepFromStart | go/cfzt-warp/daemon/tunnel.go:91-97 | from start-up the k-th connect failure in a row sleeps min(60s, 2^k * D) |
| Delays.FailureSleepAfterLoss | go/cfzt-warp/daemon/tunnel.go:195-198 | after a lost session main sleeps D, and the k-th failure in a row then sleeps min(60s, 2^(k+1) * D) |
| Delays.QuietOutcomesKeepDelay | go/cfzt-warp/daemon/tunnel.go:69-86 | failed idle reads and failed endpoint selections leave the delay alone and sleep it |
| Delays.SleepWithinBounds | go/cfzt-warp/daemon/tunnel.go:250-259 | for 0 < D <= 60s no sleep is shorter than D or longer than 60s |
| Delays.CapHoldsUnlessDoublingWraps | go/cfzt-warp/daemon/tunnel.go:250-259 | with int64 arithmetic the first failure sleeps the capped double exactly when D < 2^62 ns, and from there on D itself |
| Delays.ConfiguredDelayDoesNotWrap | go/cfzt-warp/main.go:164 | a configured delay of 0 to 300 s never wraps, in nanoseconds or when doubled |
| Connect.Network.ConnectH3 | go/cfzt-warp/api/masque.go:148-192 | one attempt: on each failing path what was opened is closed in the order of the code, on success the three handles stay open |
| Connect.Network.ConnectMASQUE | go/cfzt-warp/api/masque.go:137-146 | at most two attempts; the reply and the handles are those of the first that succeeds |
| Connect.AttemptsReplay | go/cfzt-warp/api/masque.go:137-192 | from nothing open, ConnectMASQUE leaves either nothing open or exactly the bundle of one attempt, never reopening or double-closing on the way |
| Connect.AttemptReplays | go/cfzt-warp/api/masque.go:148-192 | the same for one attempt: a failed one is balanced |
| Connect.AttemptOpens | go/cfzt-warp/api/masque.go:148-192 | which of the three a call opens tells how far it got |
| Connect.CloseResultReplays | go/cfzt-warp/daemon/tunnel.go:224-234 | closeResult closes exactly the transport and socket that are open |
| Routes.LookupIsLongestMatch | go/cfzt-warp/tun/tun_freebsd.go:131-142 | the lookup that the routing theorems speak of is longest match (section 5.2.4.3 of RFC 1812): the most specific covering route decides, and none exactly when no route covers |
| FullTunnel.Daemon.AddDefaultRoute | go/cfzt-warp/tun/tun_freebsd.go:131-142 | pins every endpoint through the gateway where route(8) lets it, then changes or else adds the default |
| FullTunnel.Daemon.AddHostRoutes | go/cfzt-warp/main.go:139-150 | adds a host route for each DNS server and defers a deletion for exactly the adds that succeeded, duplicates and servers already routed left out |
| FullTunnel.Daemon.Prepare | go/cfzt-warp/main.go:102-153 | the table and the stack of defers when MaintainTunnel is called |
| FullTunnel.Daemon.Unwind | go/cfzt-warp/main.go:106-149 | the deferred calls run last first, each once |
| FullTunnel.Daemon.RunMasque | go/cfzt-warp/main.go:97-171 | a whole run and how it ends: MaintainTunnel returns and every defer runs, or the process dies with the tunnel up, by log.Fatalf (tunnel.go:48), a signal or a crash, and none does |
| RouteTheorems.RestoredBeforeClose | go/cfzt-warp/main.go:119-153 | for every table with a default via a gateway, every server list and every pattern of refused adds: when all defers but Close have run, the table is the initial one, default included, plus the pins this run added; Close runs last |
| RouteTheorems.UndoEnds | go/cfzt-warp/main.go:106-149 | every route is put back, then the state file removed, and the interface closed last |
| RouteTheorems.DefaultIntoTunnelExactlyWhen | go/cfzt-warp/tun/tun_freebsd.go:138-141 | in full mode there is a default while up if and only if there was one or route(8) takes a new one, and it leads into the TUN |
| RouteTheorems.NoGatewayUpTable | go/cfzt-warp/main.go:120-152 | with no gateway to save, every other route is as before: no pin and no host route |
| RouteTheorems.IntoTunnelWithoutGateway | go/cfzt-warp/tun/tun_freebsd.go:131-142 | then an address goes into the TUN if and only if no other route covers it, the endpoints included |
| RouteTheorems.DeletesUndoHosts | go/cfzt-warp/main.go:139-149 | deleting the added host routes in reverse gives back the table they were added to |
| RouteTheorems.AddedHostsAreNew | go/cfzt-warp/main.go:139-145 | only servers without a route are added, each once, so no deletion takes a route that was there before |
| RouteTheorems.SecondRunChangesNothing | go/cfzt-warp/main.go:119-153 | a second run saves the same gateway and leaves the same table if and only if it adds no pin: every endpoint has a route or is refused again |
| RouteTheorems.SettledAfterOneRun | go/cfzt-warp/tun/tun_freebsd.go:131-136 | so with no pin refused the first time, further runs change nothing |
| RouteTheorems.DefaultSurvivesExactlyWhen | go/cfzt-warp/main.go:119-153 | the default route survives a full-tunnel run whose routes came into place if and only if MaintainTunnel returned and the old default had a gateway address; otherwise there is none, or one into a dead interface |
| RouteDeaths.DefaultSurvivesDeathExactlyWhen | go/cfzt-warp/main.go:119-153 | wherever in its start, its life or its unwinding a full-tunnel run dies, and whether or not its interface stays behind: the default route survives if and only if it was not changed yet or the deferred call that restores it had run |
| RouteDeaths.WholeRunReturns | go/cfzt-warp/main.go:102-171 | the statements whose prefixes that is about, executed to the end, leave the table that RunMasque leaves |
| RouteDeaths.DeathWhileUp | go/cfzt-warp/main.go:170 | and a death between the last route and the first deferred call leaves the one that RunMasque leaves when it is killed |
| RouteTheorems.DeathLeaves | go/cfzt-warp/main.go:127-150 | a daemon that dies while the tunnel is up leaves every old route but the default, its new pins and its DNS host routes |
| RouteTheorems.LostForGood | go/cfzt-warp/main.go:120-133 | once the default is lost no run, however it ends, brings it back |
| RouteTheorems.SplitModeLeavesTable | go/cfzt-warp/main.go:119 | outside full mode a run leaves the table alone, but for routes through its own interface |
| RouteTheorems.IntoTunnelExactlyWhen | go/cfzt-warp/tun/tun_freebsd.go:131-142 | while up, an address goes into the TUN if and only if its only covering route was the default and no new pin or new DNS host covers it |
| RouteTheorems.EndpointsOutsideTunnel | go/cfzt-warp/tun/tun_freebsd.go:132-136 | nothing that an endpoint in place covers goes into the tunnel |
| RouteTheorems.SpecificRoutesKept | go/cfzt-warp/tun/tun_freebsd.go:129-142 | addresses with an earlier, more specific route resolve as before |
| RouteTheorems.ExceptionsViaGateway | go/cfzt-warp/tun/tun_freebsd.go:134-136 | addresses inside a new pin or DNS host resolve through the saved gateway unless an older route is more specific |
| RouteTheorems.AddedServersViaGateway | go/cfzt-warp/main.go:135-150 | every DNS server whose route was added resolves through the saved gateway |
| RouteTheorems.ServersOutsideTunnel | go/cfzt-warp/main.go:135-150 | in system DNS mode every configured server whose add was not refused resolves outside the tunnel: by its own older route or through the saved gateway |
| RouteTheorems.NoHostsOtherwise | go/cfzt-warp/main.go:138-151 | in any other DNS mode no host route is added |
| Endpoints.SourceListDistinct | go/cfzt-warp/tun/tun_freebsd.go:133 | the three endpoints are three different routes and the /24 covers the other two |
| Endpoints.EndpointNetCovers | go/cfzt-warp/tun/tun_freebsd.go:133 | the third endpoint covers exactly the addresses whose octets are 162.159.198.x |
| Endpoints.EndpointHostsCover | go/cfzt-warp/tun/tun_freebsd.go:133 | the other two exactly 162.159.198.1 and 162.159.198.2 |
| Endpoints.IntoTunnelWithSourceList | go/cfzt-warp/tun/tun_freebsd.go:131-142 | with these endpoints and no pin refused, an address goes into the TUN if and only if its only route was the default, it lies outside 162.159.198.0/24 and it is no added DNS host |
| SplitTunnel.ApplySplitTunnelRules | go/cfzt-warp/tun/tun_freebsd.go:158-175 | the two loops of adds and the errors they collect, in order |
| SplitTunnel.NilExactlyWhen | go/cfzt-warp/tun/tun_freebsd.go:171-174 | nil is returned if and only if the rules are all different, all new, and no add was refused |
| SplitTunnel.RulesRoute | go/cfzt-warp/tun/tun_freebsd.go:155-170 | then every address follows the most specific of rules and old routes: include to the TUN, exclude to the gateway, otherwise as before |
| SplitTunnel.IncludeWins | go/cfzt-warp/tun/tun_freebsd.go:160-170 | a new prefix in both lists: the include wins and the exclude is reported |
| SplitTunnel.RulesReport | go/cfzt-warp/tun/tun_freebsd.go:158-174 | what is reported in any case: the includes that fail, as includes, then the excludes that fail, as excludes, each in order; one fails if and only if it is refused, had a route, or has one from an earlier rule |
| SplitTunnel.RulesTable | go/cfzt-warp/tun/tun_freebsd.go:158-170 | the table in any case: nothing old is touched, every unrefused new prefix has a route, an include before an exclude, and nothing is rolled back |
| SystemDns.OpnsenseDNSServers | go/cfzt-warp/main.go:252-269 | the addresses named line by line in config.xml, in order |
| SystemDns.TagsDoNotOverlap | go/cfzt-warp/main.go:261-262 | the slice between the tags cannot panic: a line with both the prefix and the suffix is long enough for both |
| SystemDns.ElementOnOneLine | go/cfzt-warp/main.go:259-266 | an element on one line contributes exactly its address, however indented and padded |
| SystemDns.FileGives | go/cfzt-warp/main.go:252-269 | a whole file of padded elements, blank elements and other lines gives exactly the addresses of its elements, in order |
| Lifecycle.Service.CleanupStaleIface | net/cloudflare-zt/src/opnsense/scripts/CloudflareZT/service.py:126-136 | destroys the interface the state file names and removes the file, or does nothing |
| Lifecycle.Service.StartConnection | net/cloudflare-zt/src/opnsense/scripts/CloudflareZT/service.py:139-166 | the outcome and the host after start, with the daemons moving during the pause |
| Lifecycle.Service.StopConnection | net/cloudflare-zt/src/opnsense/scripts/CloudflareZT/service.py:185-213 | the outcome and the host after stop, for every behaviour of the daemons between SIGTERM and the fifty polls |
| Lifecycle.Service.CmdStop | net/cloudflare-zt/src/opnsense/scripts/CloudflareZT/service.py:228-234 | stops every connection in the order of the configuration |
| Lifecycle.Service.CmdStart | net/cloudflare-zt/src/opnsense/scripts/CloudflareZT/service.py:216-225 | starts the enabled connections in that order |
| Lifecycle.Service.Restart | net/cloudflare-zt/src/opnsense/scripts/CloudflareZT/service.py:237-240 | restart is all stops, a pause and the enabled starts |
| LifecycleTheorems.OneDaemonPerConnection | net/cloudflare-zt/src/opnsense/scripts/CloudflareZT/service.py:139-213 | over every sequence of start, stop, restart, crash, clean exit and daemon step, with distinct interface names and starts issued while no process of the uuid is launching or has removed its pid file: at most one live process for each uuid in whatever phase, its pid file names it, and its interface is its own |
| LifecycleTheorems.OneActiveDaemon | net/cloudflare-zt/src/opnsense/scripts/CloudflareZT/service.py:139-213 | with the weaker condition that no process of the uuid is launching: at most one process for each uuid that has not removed its pid file yet |
| LifecycleTheorems.GoodDaemonStep | go/cfzt-warp/main.go:58-114 | every step of a daemon, crashes included, keeps the invariant |
| LifecycleTheorems.GoodStart | net/cloudflare-zt/src/opnsense/scripts/CloudflareZT/service.py:139-166 | start keeps it: the clean-up before the launch destroys no live daemon's interface |
| LifecycleTheorems.GoodStop | net/cloudflare-zt/src/opnsense/scripts/CloudflareZT/service.py:185-213 | stop keeps it always, and when quiet leaves no active daemon of that uuid |
| LifecycleTheorems.GoodCleanup | net/cloudflare-zt/src/opnsense/scripts/CloudflareZT/service.py:126-136 | clean-up for a uuid without an interface-owning daemon keeps every live daemon's interface |
| LifecycleTheorems.KillOnlyAfterFiftyPolls | net/cloudflare-zt/src/opnsense/scripts/CloudflareZT/service.py:193-202 | SIGKILL is sent if and only if the daemon was alive at SIGTERM and at all fifty polls |
| LifecycleTheorems.StopEndsAtFirstDeadPoll | net/cloudflare-zt/src/opnsense/scripts/CloudflareZT/service.py:193-213 | the host and the answer after a stop: the first moment that finds the daemon dead, at SIGTERM or at a poll, ends the polling, and after fifty polls it is killed |
| LifecycleTheorems.StopRemoves | net/cloudflare-zt/src/opnsense/scripts/CloudflareZT/service.py:185-213 | a stop of a running connection takes away its pid file, its state file, its process, and the interface the state file named when the polling ended, after SIGKILL too, and nothing else |
| LifecycleTheorems.StopAnswers | net/cloudflare-zt/src/opnsense/scripts/CloudflareZT/service.py:187-189 | a stop answers not_running if and only if the pid file names no live process, and then changes nothing |
| LifecycleTheorems.StopLeavesNoInterface | net/cloudflare-zt/src/opnsense/scripts/CloudflareZT/service.py:185-213 | after a quiet stop the connection has an interface if and only if one was left by the end of the polling with no state file to find it by |
| LifecycleTheorems.StartAnswers | net/cloudflare-zt/src/opnsense/scripts/CloudflareZT/service.py:139-166 | each answer of a start, and what it says of the processes: already running, not registered, no binary, exited at once, started |
| LifecycleRoundTrips.StartServes | net/cloudflare-zt/src/opnsense/scripts/CloudflareZT/service.py:139-166 | a start whose daemon comes up in the pause gives one serving daemon with its pid file, state file and interface, and changes nothing else |
| LifecycleRoundTrips.StopUndoesStart | net/cloudflare-zt/src/opnsense/scripts/CloudflareZT/service.py:139-213 | start and then stop of a daemon that obeys SIGTERM give back the host, one process id used up |
| LifecycleRoundTrips.KillUndoesStart | net/cloudflare-zt/src/opnsense/scripts/CloudflareZT/service.py:139-213 | so they do when it ignores SIGTERM and is killed: the clean-up does what the daemon did not |
| LifecycleTheorems.RestartIsQuiet | net/cloudflare-zt/src/opnsense/scripts/CloudflareZT/service.py:216-240 | a whole restart, stops, pause and starts, from a host where no daemon to be started is launching issues every start under that condition, and keeps the invariant |
| LifecycleLimits.SecondDaemonExactlyWhen | net/cloudflare-zt/src/opnsense/scripts/CloudflareZT/service.py:139-166 | after a start there are two active daemons of the uuid if and only if one was launching, its pid file unwritten, and two live processes if and only if one was launching or had removed its pid file without having exited |
| LifecycleLimits.TwoStartsTwoDaemons | net/cloudflare-zt/src/opnsense/scripts/CloudflareZT/service.py:139-166 | two starts in a row from an empty host give two active daemons |
| LifecycleLimits.LeavingBesideLaunched | go/cfzt-warp/main.go:91-95 | a start while the old daemon is between removing its pid file and exiting puts a second live process beside it |
| LifecycleLimits.CleanupTakesExactly | net/cloudflare-zt/src/opnsense/scripts/CloudflareZT/service.py:139-148 | after any commands whatever, the clean-up before a start of u takes a live daemon's interface if and only if u is not running, has a leftover state file, and shares its interface name with that daemon's connection |
| LifecycleLimits.CleanupTakesLiveInterface | net/cloudflare-zt/src/opnsense/scripts/CloudflareZT/service.py:126-148 | a run that gets there: u crashes and leaves its state file, v of the same name comes up, and the next start of u destroys its interface |
| LifecycleLimits.NamesCollideExactlyWhen | go/cfzt-warp/main.go:273-284 | two uuids share an interface name if and only if their last four hex digits are the same, whatever comes before |
| LifecycleLimits.NumberOfFinalDigits | go/cfzt-warp/main.go:273-284 | the interface number is the value of the last four hex digits, of either case |
| LifecycleLimits.NumberOtherwise | go/cfzt-warp/main.go:276-283 | and 0 when there are fewer than four characters or one of the last four is no hex digit |
| LifecycleLimits.CrashLeavesOrphan | go/cfzt-warp/main.go:102-113 | a daemon that dies after creating its interface and before writing its state file leaves an orphaned interface |
| LifecycleLimits.InterfaceComesUpExactlyWhen | net/cloudflare-zt/src/opnsense/scripts/CloudflareZT/service.py:126-166 | a started daemon gets its interface if and only if no interface of that name is there or the connection has a state file to clean it up by |
| LifecycleLimits.OrphanBlocksForever | go/cfzt-warp/tun/tun_freebsd.go:144-148 | an interface orphaned without a state file stays: no command sequence gives that uuid a tunnel interface again |
| Monitor.Daemon.PollOnce | net/cloudflare-zt/src/opnsense/scripts/CloudflareZT/cfzt_monitor.py:111-161 | one poll: the acts and the new last_status |
| Monitor.Daemon.RunMonitor | net/cloudflare-zt/src/opnsense/scripts/CloudflareZT/cfzt_monitor.py:107-167 | all polls of a monitor's life |
| Monitor.Pause | net/cloudflare-zt/src/opnsense/scripts/CloudflareZT/cfzt_monitor.py:122-167 | the pause is max(5, interval) seconds in naps of at most 5, cut after any nap by SIGTERM |
| Monitor.RefinesEdgeDetector | net/cloudflare-zt/src/opnsense/scripts/CloudflareZT/cfzt_monitor.py:126-161 | what a poll does about u depends on this observation and the last one of u alone, however many polls skipped u: a restart if and only if registered, down, and last seen up or never; notices if and only if a change |
| Monitor.MemoryIsLastObservation | net/cloudflare-zt/src/opnsense/scripts/CloudflareZT/cfzt_monitor.py:107-161 | last_status is the last observation, skipped polls left out |
| Monitor.RestartsNeedUp | net/cloudflare-zt/src/opnsense/scripts/CloudflareZT/cfzt_monitor.py:134-149 | between two polls that restart a connection some poll saw it up: a restart that does not take is never repeated |
| Monitor.EdgesAlternate | net/cloudflare-zt/src/opnsense/scripts/CloudflareZT/cfzt_monitor.py:134-161 | over the acts of a run of polls: between two failure notices lies a recovery notice; between two recovery notices lies a poll that saw the connection go down, with a failure notice if and only if it was registered and the flag on |
| Monitor.NoticesSentAre | net/cloudflare-zt/src/opnsense/scripts/CloudflareZT/cfzt_monitor.py:126-161 | with both flags on, the notices sent about u by a run of polls are those its observations call for: one for each registered fall and each rise |
| Monitor.NoticesAlternateExactlyWhen | net/cloudflare-zt/src/opnsense/scripts/CloudflareZT/cfzt_monitor.py:134-161 | with both flags on, the notices sent about u strictly alternate if and only if u was not seen to recover, fall while unregistered and recover again |
| Monitor.NoticesAlternate | net/cloudflare-zt/src/opnsense/scripts/CloudflareZT/cfzt_monitor.py:134-161 | so while a connection stays registered its notices alternate, and the last one tells its last observed state |
| Monitor.UnregisteredRecoversTwice | net/cloudflare-zt/src/opnsense/scripts/CloudflareZT/cfzt_monitor.py:134-159 | four polls of an unregistered connection that send two recovery notices in a row |
| WarpCommands.Warp.UpdateConfigXml | net/cloudflare-zt/src/opnsense/scripts/CloudflareZT/warp.py:30-56 | one entry changes, or nothing: wrong uuid, missing entry, unwritable file |
| WarpCommands.Warp.CmdEnroll | net/cloudflare-zt/src/opnsense/scripts/CloudflareZT/warp.py:161-213 | enrolment with failure possible at each step |
| WarpCommands.Warp.CmdRegister | net/cloudflare-zt/src/opnsense/scripts/CloudflareZT/warp.py:59-158 | registration with failure possible at each step |
| WarpCommands.Warp.CmdRotateKeysCheck | net/cloudflare-zt/src/opnsense/scripts/CloudflareZT/warp.py:221-254 | tries the due connections in order until a trial raises; gives a reply unless some due connection would raise, seen from the world before the check, and then rotated <= len(results) <= checked |
| RotationTheorems.EnrolledAlwaysHaveKeys | net/cloudflare-zt/src/opnsense/scripts/CloudflareZT/warp.py:114-149 | over every sequence of register, enroll and rotation check with failures anywhere, an enrolled connection has a stored private key and certificate |
| RotationTheorems.EnrollOkMeansOnePair | net/cloudflare-zt/src/opnsense/scripts/CloudflareZT/warp.py:188-213 | an ok enrolment leaves server key, stored key and stored certificate of the one new key pair |
| RotationTheorems.RegisterOkMeansOnePair | net/cloudflare-zt/src/opnsense/scripts/CloudflareZT/warp.py:89-158 | so does an ok MASQUE registration, for the new device |
| RotationSecrets.EnrollOkExactlyWhen | net/cloudflare-zt/src/opnsense/scripts/CloudflareZT/warp.py:161-213 | an enrolment is ok if and only if a key was sent and accepted and every write went through |
| RotationSecrets.EnrollHands | net/cloudflare-zt/src/opnsense/scripts/CloudflareZT/warp.py:186-211 | after an ok enrolment the four secrets that start hands to the daemon are the new pair, the new endpoint key if there is one, and the old WireGuard key; token, device and every other field stay, status and stamp change |
| RotationSecrets.RegisterHandsMasque | net/cloudflare-zt/src/opnsense/scripts/CloudflareZT/warp.py:114-149 | after an ok MASQUE registration they are the new pair, the enrolment's endpoint key if it has one, and the WireGuard key that was registered; token, device id, status enrolled and stamp are the new ones |
| RotationSecrets.RegisterHandsWireGuard | net/cloudflare-zt/src/opnsense/scripts/CloudflareZT/warp.py:93-149 | after an ok WireGuard registration they are the WireGuard key that was registered and the peer's key if it has one, with the MASQUE secrets as before; token, device id, status registered and stamp are the new ones |
| RotationSecrets.EnrollServerKey | net/cloudflare-zt/src/opnsense/scripts/CloudflareZT/warp.py:175-186 | the server has the new key for the device if and only if the request reached it, however it was answered |
| RotationSecrets.RegisterServerKey | net/cloudflare-zt/src/opnsense/scripts/CloudflareZT/warp.py:84-112 | in a registration only MASQUE sends a key, and for the device just registered |
| RotationSecrets.RegisterRaisesExactlyWhen | net/cloudflare-zt/src/opnsense/scripts/CloudflareZT/warp.py:114-126 | a registration raises if and only if the store refuses a secret outside the certificate's try block |
| RotationTheorems.RefusalChangesNothingHere | net/cloudflare-zt/src/opnsense/scripts/CloudflareZT/warp.py:109-112 | an API failure leaves store and configuration as they were |
| RotationTheorems.PairMatchesExactlyWhenCertificateStored | net/cloudflare-zt/src/opnsense/scripts/CloudflareZT/warp.py:188-194 | once the new private key is stored, the stored pair matches if and only if the certificate was generated and stored |
| RotationTheorems.EnrollAgreesExactlyWhen | net/cloudflare-zt/src/opnsense/scripts/CloudflareZT/warp.py:175-211 | an enrolment with a new key, however it ends, leaves server key, stored key and certificate of one pair if and only if it sent no key, or the server refused and did not commit it, or key and certificate were both stored |
| RotationTheorems.RegisterAgreesExactlyWhen | net/cloudflare-zt/src/opnsense/scripts/CloudflareZT/warp.py:89-149 | a registration of a MASQUE connection for a new device, however it ends, leaves them so if and only if it stored no private key or went through to the end |
| RotationTheorems.TokenMatchesExactlyWhen | net/cloudflare-zt/src/opnsense/scripts/CloudflareZT/warp.py:114-149 | after it the stored token and the configured device id belong together if and only if the token was not stored or the registration went through to the end |
| RotationTheorems.NamesInjective | net/cloudflare-zt/src/opnsense/scripts/CloudflareZT/warp.py:114-126 | the secret names are injective in kind and uuid, for all uuid strings |
| RotationTheorems.EnrollTouchesOnly | net/cloudflare-zt/src/opnsense/scripts/CloudflareZT/warp.py:161-213 | enrolment touches no other connection's secrets or configuration, however it ends |
| RotationTheorems.OthersAgreeExactlyWhen | net/cloudflare-zt/src/opnsense/scripts/CloudflareZT/warp.py:171-186 | a new key that reached the server leaves another connection's keys in agreement if and only if the two are not registered as the same device |
| RotationTheorems.RegisterTouchesOnly | net/cloudflare-zt/src/opnsense/scripts/CloudflareZT/warp.py:59-158 | so does registration |
| RotationTheorems.DueMeansOld | net/cloudflare-zt/src/opnsense/scripts/CloudflareZT/warp.py:233-243 | a connection with a valid stamp is due if and only if it rotates automatically, is registered and days*86400 seconds have passed since the stamp |
| RotationSecrets.DueWithoutStamp | net/cloudflare-zt/src/opnsense/scripts/CloudflareZT/warp.py:228-245 | without a stamp, or with one that is no date, it is due if and only if it rotates automatically and is registered |
| RotationSecrets.DueInOrder | net/cloudflare-zt/src/opnsense/scripts/CloudflareZT/warp.py:227-251 | the due connections are tried in the order of the configuration |
| RotationSecrets.CountOkIs | net/cloudflare-zt/src/opnsense/scripts/CloudflareZT/warp.py:253 | the reply counts exactly the results that are ok |
| RotationSecrets.UuidOkExactlyWhen | net/cloudflare-zt/src/opnsense/scripts/CloudflareZT/warp.py:27-33 | the pattern accepts exactly five groups of 8, 4, 4, 4 and 12 lower-case hex digits, and a final newline besides |
| RotationTheorems.CheckTriesDueOnce | net/cloudflare-zt/src/opnsense/scripts/CloudflareZT/warp.py:227-251 | a check tries each due connection exactly once unless it comes behind one that would raise, and tries nothing else |
| RotationTheorems.EnrollRaisesExactlyWhen | net/cloudflare-zt/src/opnsense/scripts/CloudflareZT/warp.py:188-201 | an enrolment raises if and only if the server accepted the key and the store refuses the private key, or refuses a new endpoint key once the certificate is stored |
| RotationTheorems.RaisesExactlyWhen | net/cloudflare-zt/src/opnsense/scripts/CloudflareZT/warp.py:248-254 | a check ends in an exception if and only if some due connection would raise, judged on the world before the check and the scripts alone |
| RotationTheorems.TriedExactlyWhen | net/cloudflare-zt/src/opnsense/scripts/CloudflareZT/warp.py:248-251 | the i-th due connection is tried if and only if none before it would raise, judged on the world before the check |
| RotationTheorems.TrialIs | net/cloudflare-zt/src/opnsense/scripts/CloudflareZT/warp.py:249-251 | result i is that of enrolling the i-th due connection in the world the trials before it left |
| RotationTheorems.RaiseStopsCheck | net/cloudflare-zt/src/opnsense/scripts/CloudflareZT/warp.py:188-251 | two due connections: the store refuses the first one's key, and the second is never tried although its rotation would have succeeded |
| RotationTheorems.AutomaticRotationSpacing | net/cloudflare-zt/src/opnsense/scripts/CloudflareZT/warp.py:239-243 | a check that rotates a connection with a valid stamp stamps it at least days*86400 seconds later |
| RotationTheorems.RotationSpacing | net/cloudflare-zt/src/opnsense/scripts/CloudflareZT/warp.py:204-254 | so over any commands in between, under a clock that does not run backwards, once a valid stamp exists |
| Secrets.StoreRefinesMap | net/cloudflare-zt/src/opnsense/scripts/CloudflareZT/cfzt_secrets.py:89-117 | every sequence of set, get, del and has answers as on a plain map of strings |
| Secrets.SetIsUpdate | net/cloudflare-zt/src/opnsense/scripts/CloudflareZT/cfzt_secrets.py:89-94 | set_secret is a map update, whatever else is in the file, readable or not, and leaves every other entry as it is |
| Secrets.DelIsRemoval | net/cloudflare-zt/src/opnsense/scripts/CloudflareZT/cfzt_secrets.py:109-113 | del_secret is a map removal |
| Secrets.SealRoundTrip | net/cloudflare-zt/src/opnsense/scripts/CloudflareZT/cfzt_secrets.py:42-68 | slicing iv(16)+mac(32)+ciphertext apart gives back what was sealed |
| Secrets.SealLayout | net/cloudflare-zt/src/opnsense/scripts/CloudflareZT/cfzt_secrets.py:42-53 | a blob is 16 bytes of iv, 32 of MAC over iv and ciphertext, and the ciphertext |
| Secrets.OpensExactlyWhen | net/cloudflare-zt/src/opnsense/scripts/CloudflareZT/cfzt_secrets.py:56-68 | a blob opens if and only if it carries the MAC of its iv and ciphertext and these decrypt, and gives their decryption |
| Secrets.HexRoundTrip | net/cloudflare-zt/src/opnsense/scripts/CloudflareZT/cfzt_secrets.py:93-103 | bytes.fromhex undoes hex() on all byte strings |
| Secrets.HexDigits | net/cloudflare-zt/src/opnsense/scripts/CloudflareZT/cfzt_secrets.py:93 | hex() writes two lower-case digits for each byte, the high one first |
| Secrets.FromHexReads | net/cloudflare-zt/src/opnsense/scripts/CloudflareZT/cfzt_secrets.py:103 | fromhex reads pairs of digits of either case and leaves white space between them out |
| Secrets.FromHexRaises | net/cloudflare-zt/src/opnsense/scripts/CloudflareZT/cfzt_secrets.py:103 | it raises when anything but white space and pairs of digits is there, a single digit included |
| Secrets.DerivationIsHkdf | net/cloudflare-zt/src/opnsense/scripts/CloudflareZT/cfzt_secrets.py:18-38 | the two keys are HKDF-Extract and HKDF-Expand of 32 bytes (sections 2.2 and 2.3 of RFC 5869) with the salt and the two infos of the code, and there are none if and only if no identity file is usable |
| Secrets.BadMacReadsNone | net/cloudflare-zt/src/opnsense/scripts/CloudflareZT/cfzt_secrets.py:59-62 | a blob whose MAC does not verify reads as None, is still reported by has_secret, and harms no other key |
| Secrets.HasAgreesWithGetExactlyWhen | net/cloudflare-zt/src/opnsense/scripts/CloudflareZT/cfzt_secrets.py:97-117 | has_secret and get_secret agree on a key if and only if it is absent or its value opens |
| Secrets.RefinesExactlyWhenAllOpen | net/cloudflare-zt/src/opnsense/scripts/CloudflareZT/cfzt_secrets.py:89-117 | the store answers all operation sequences as a plain map if and only if every stored value opens |
| Secrets.SetAfterCorruption | net/cloudflare-zt/src/opnsense/scripts/CloudflareZT/cfzt_secrets.py:71-76 | a file that is not JSON counts as empty: the next set replaces all of it |
| Secrets.StartsEmpty | net/cloudflare-zt/src/opnsense/scripts/CloudflareZT/cfzt_secrets.py:71-117 | from a file that is missing or not JSON every sequence of operations answers as on the empty map |
| Secrets.FindIdentity | net/cloudflare-zt/src/opnsense/scripts/CloudflareZT/cfzt_secrets.py:25-35 | the key material is the content of the first host identity file that can be read and is not blank, and none exactly when there is no such file |
| Secrets.IdentityIsFirstUsable | net/cloudflare-zt/src/opnsense/scripts/CloudflareZT/cfzt_secrets.py:26-31 | files after the first usable one, and unusable ones before it, do not matter for the derived keys |
| Secrets.SecretStore.SetSecret | net/cloudflare-zt/src/opnsense/scripts/CloudflareZT/cfzt_secrets.py:89-94 | the file after set_secret; nothing is written when the value cannot be encoded |
| Secrets.SecretStore.GetSecret | net/cloudflare-zt/src/opnsense/scripts/CloudflareZT/cfzt_secrets.py:97-106 | None for a missing key and for every failure on the way |
| Dns.BuildUnboundConf | net/cloudflare-zt/src/opnsense/scripts/CloudflareZT/dns.py:23-46 | the loops that append lines produce the text of the specification |
| Dns.ConfRoundTrip | net/cloudflare-zt/src/opnsense/scripts/CloudflareZT/dns.py:23-46 | for all input strings: read clause by clause, an option counting in its own clause only, the text gives exactly the cleaned servers and domains in order, every server non-empty, and no line that is not accounted for, so no field contributes more than its own line |
| Dns.CustomForwards | net/cloudflare-zt/src/opnsense/scripts/CloudflareZT/dns.py:27-35 | in mode custom, for a comma-separated list of padded and blank entries, Unbound forwards to exactly the entries that are not blank, in order |
| Dns.GatewayForwards | net/cloudflare-zt/src/opnsense/scripts/CloudflareZT/dns.py:19-35 | in mode cloudflare_gateway it forwards to 162.159.36.1 and 2606:4700:4700::1111, whatever the custom field holds |
| Dns.OtherwiseNoForward | net/cloudflare-zt/src/opnsense/scripts/CloudflareZT/dns.py:25-35 | in any other mode there is no forwarder |
| Dns.DomainsExcepted | net/cloudflare-zt/src/opnsense/scripts/CloudflareZT/dns.py:37-44 | in every mode the domains excepted from validation are exactly the search domains that are not blank, in order |
| Dns.ConfReadsBack | net/cloudflare-zt/src/opnsense/scripts/CloudflareZT/dns.py:61-72 | reading the written file in text mode gives the generated text |
| Dns.Override.CmdApplyDns | net/cloudflare-zt/src/opnsense/scripts/CloudflareZT/dns.py:49-75 | the file, what Unbound loaded, and the reply |
| Dns.Override.CmdRemoveDns | net/cloudflare-zt/src/opnsense/scripts/CloudflareZT/dns.py:78-81 | removes the file and reloads |
| Dns.FileIsLoaded | net/cloudflare-zt/src/opnsense/scripts/CloudflareZT/dns.py:49-81 | over every sequence of configuration changes and commands, an existing override file is the loaded one |
| Dns.LastCommandDecides | net/cloudflare-zt/src/opnsense/scripts/CloudflareZT/dns.py:49-81 | after any sequence of commands the last one decides: an apply that wants an override leaves its text in the file and loaded, another apply leaves no file, a remove neither file nor loaded text |
| Dns.RemoveLeavesNothing | net/cloudflare-zt/src/opnsense/scripts/CloudflareZT/dns.py:78-81 | after remove there is no override, and none loaded if the reload succeeds |
| Dns.ApplyIsIdempotent | net/cloudflare-zt/src/opnsense/scripts/CloudflareZT/dns.py:54-75 | after apply the file reads as build(config) or is absent, and applying again is no change |
| Dns.AgreesExactlyUnlessDisabled | net/cloudflare-zt/src/opnsense/scripts/CloudflareZT/dns.py:54-56 | Unbound agrees with the file after a command if and only if the command did not just disable an existing override: that path never reloads |
| Dns.AppliedIsLoadedExactlyWhen | net/cloudflare-zt/src/opnsense/scripts/CloudflareZT/dns.py:49-75 | apply leaves an existing file loaded if and only if the reload succeeds, or the override is disabled, or the file already reads as the new text, or Unbound has that text loaded from before |
| Dns.ReenabledStaysLoaded | net/cloudflare-zt/src/opnsense/scripts/CloudflareZT/dns.py:54-75 | the last case occurs: apply, disable, and apply again with a failing reload |
| Dns.FailedReloadIsNotRetried | net/cloudflare-zt/src/opnsense/scripts/CloudflareZT/dns.py:66-75 | after a failed reload, applying the same configuration again finds no change, however often |
| Text.SpacesAre | go/cfzt-warp/main.go:260 | what TrimSpace strips: tab to carriage return, space, and the spaces of Unicode above ASCII; strip() of dns.py takes the four information separators besides |
| Text.BreakIsRemoved | net/cloudflare-zt/src/opnsense/scripts/CloudflareZT/dns.py:33-41 | a line break inside a value goes, and nothing else does |
| Text.ReturnsRead | net/cloudflare-zt/src/opnsense/scripts/CloudflareZT/dns.py:61-63 | a text-mode read turns a carriage return, alone or before a line feed, into one line feed |

## Left out

- OutboundNeverStuck: says that a pump can step, not that main returns; `<-errCh` does not watch the context, so no liveness of a cancelled daemon is claimed. MainShutdown bounds the statements main still takes, not how long it waits in one.
- LifecycleTheorems.OneDaemonPerConnection: needs starts to be issued while no process of that uuid is launching or leaving, and distinct interface names; SecondDaemonExactlyWhen, NamesCollideExactlyWhen and CleanupTakesExactly say when it fails. That a daemon leaves promptly after a stop is real time and not promised.
- SocketsDisciplined: follows UDP sockets, HTTP/3 transports and IP connections; the QUIC connection that `connectH3` closes with an error code on one path has no handle of its own.
- SystemDns.OpnsenseDNSServers: yields strings; the routing theorems take IPv4 addresses, and a server that is not one counts as a refused add.
- FullTunnel.Daemon.Prepare: the interface's own address routes and a failing `tun.New` are not part of it; IPv6 routes are never added by this code.
- The HTTP/2 path of `ConnectMASQUE`, `selectEndpoint` and the inbound pump: `main.go:162` always passes `UseH2: false`. Endpoint parsing is a success or a failure.
- `readMu`: one per session and used by its outbound pump alone, so it is never contended.
- The pool as a class: its steps belong to several threads at once, so it is part of the machine's state, with aliasing modelled by indices into one memory.
- `TLSConfig`, certificates, `cfzt_api.py`, `cfzt_keys.py`, OpenSSL: their results are given.
- `runWireGuard`, syslog, signal handling, ifconfig text: plumbing.
- cloudflared: it writes its own pid file, so the lifecycle claims are about cfzt-warp.
- Real time: sleeps, the shutdown grace and timeouts are steps that can happen at any moment.
- Fields of the configuration that only the GUI reads (addresses, endpoints, references to secrets), and the lock in `_update_config_xml`, which is on a file that gets replaced: updates are sequential.
- JSON values of the secrets file that are not strings, file modes, and a crash between writing a temporary file and renaming it.
- `monitor.py` probes, `cfzt_config.py`, PHP controllers, views, packaging: no state of their own.
