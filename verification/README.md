# muvee: a verified model of its stateful cores

A Dafny 4.11 model of the parts of muvee where state, concurrency or rewriting carries an invariant,
with proofs of what those parts promise. `dafny verify dfyconfig.toml` checks the whole project.

## What is modelled

- **L4 tunnel.** Many browser connections share one WebSocket as framed messages. `TunnelWire` has the
  frame codec and the chunk loop; `TunnelPipe` is the step machine of one stream (server handler, its
  reader goroutine, both read loops, the client's reader and writer, two FIFO wires), `TunnelSafety` its
  invariant; `TunnelSystem` the whole tunnel over raw bytes with any number of streams, projected stream
  by stream onto the first machine. `TunnelServer` and `TunnelClient` are the two ends as classes that
  update their maps, inboxes and flags in place, tied to the machine's steps through `StreamTable`,
  `HandlingIsTunnelSteps` and `TunnelEnding`. `TunnelLeaving` says how the goroutines of a stream leave,
  `TunnelExchange` has a whole exchange, and `TunnelSolo` proves that the tunnel can do whatever the
  one-stream machine can. `Registries` holds the tunnel and agent registries.
- **Traefik table and its Cloudflare Tunnel rewrite.** `TraefikConfig` generates routers as the
  configuration handler does. `HostRules` is the host-rule printer and parser at character level.
  `CfTunnel` is the rewrite as a map function and as the loop over names in any order, `CfMeaning` what it
  preserves, `CfTcp` the TCP half, `CfTunnelConfig` the code in place on maps whose entries share TLS
  blocks by pointer. Which hosts are tunnel hosts is an arbitrary predicate throughout.
- **Host ownership.** `HostOwnership` has the validation and the project and alias handlers as atomic
  steps on stored rows, `HostClaims` the invariant and exact success conditions, `HostLookup` the
  host-to-project lookup and several base domains, `HostPermissions` who may do what and why requests are
  refused, `HostHandlers` the handlers in place.
  `TraefikNames` has the names one deployment writes. `TraefikOwnership` ties every generated router to
  one deployment and to the lookup, `TraefikRouting` says exactly when a claimed host is routed,
  `TraefikMentions` which hosts the rules mention, `TraefikServices` exactly where services lead,
  `TraefikGates` which of them pass a project's authentication, `TraefikFronts` what tunnels and placeholders take away, and `RoutingEndToEnd` what remains after the
  Cloudflare rewrite. A router mentions a host when its rule holds the host's token anywhere.
- **Agent control.** `AgentRelay` is the bounded, lossy relay over every interleaving, `AgentControl` its
  session map and channels in place, `AgentSessions` the loops that emit a session's frames and their
  grammar, `AgentInbound` the agent's session map and what client input does.
- **Project columns.** `ProjectMerge` is the pointer-safe merge on the heap, `ProjectStore` the create and
  update handlers with pinned ports and TCP routes, refining host ownership, `ProjectPins` the
  administrator's columns, `ProjectHostnames` TCP hostnames against claimed hosts.
- **Smaller cores.** `HostPorts` (in-place suppression and
  the server's fold), `Sessions` (sliding cookies), `LoginTokens` (single-use sign-in tokens),
  `Whitelists` (canonical lists). `TextTools` and `Wrappers` are shared helpers.

Steps are atomic as follows: a frame write under its mutex, one channel operation with the connection
write it feeds, one map operation under its lock, one agent-control dispatch, one poll, and each project
or alias handler. Inputs of the outside world (dial results, failing writes, clocks, request bodies,
subprocess output, identifiers and tokens) are parameters.

## Where code and comments disagree

- The comment at `cmd/muveectl/tunnel.go:360-366` says the client's drain lets the local service always
  see the complete request. `closeS` (`cmd/muveectl/tunnel.go:276-281`) closes the connection together with
  the done flag, so the drain writes to a closed connection: `LocalDrainIffInboxEmpty` gives the exact
  condition, `LocalDrainCanTruncate` a run. On the server side the same promise holds (`TunnelDrain`).
- The comment at `internal/api/cftunnel.go:26-28` says siblings cannot collide because prefixes hold no
  underscore. True among generated names (`TableSuitsRewrite`), but the two panel routers take the sibling
  names of projects called `panel` and `panel-oauth` (`SiblingsSurviveIff`).
- The comment at `internal/api/server.go:4990-4994` gives alias routers the project's own backend. Their
  bypass routers name a service after the alias router instead (`internal/api/server.go:5009,4759`), which
  is never the project's own: `AliasBypassNeverHome`, `AlwaysResolvesIff`, `AlwaysHomeIff`.
- Router names are prefixes with suffixes, and a prefix may end in such a suffix: `LostHost` shows a claimed
  host without a router, `AlwaysRoutedIff` and `ApartIff` when that cannot happen.
- The comment at `internal/api/cftunnel.go:66-69` says every generated rule has the shape the rewrite takes
  apart. Bypass lines are pasted into rules unchecked (`internal/api/server.go:4742-4763`), and one that holds
  a host token makes a foreign rule that mentions that host: `AlwaysBelongsIff`, `AlwaysHomeIff` and
  `AlwaysLeavesIff` give the exact conditions, `TokenLeadsAwayReachable` and `TokenSticks` the input.
- The comment at `db/migrations/051_project_tcp_route.sql:23-27` says a TCP hostname must be no project's
  `domain_prefix`. The handlers check that when the TCP route changes, not when a prefix does, before an
  omitted prefix becomes the name, and never for aliases: `ExclusiveIff`, `CreateSwallowed`,
  `UpdateSwallowed`, `AliasSwallowed`.
- The comment at `internal/api/server.go:1836-1839` lets owners save the rest of a project without the pinned
  port. They can exactly while port and node are both set or both empty, which ends when the node is deleted:
  `OwnerSavesIff`, `NodeDeletionLocksOut`, `LockedOutReachable`.
- The comment at `db/migrations/043_project_aliases.sql:8-9` keeps aliases out of `<any prefix>.<base>`; the
  handlers accept one there while no project has the prefix, and the model follows the handlers.

## Model

| member | source | states |
|---|---|---|
| `TunnelWire.DecodeEncode` | cmd/muveectl/tunnel.go:312-317 | what `writeFrame` writes, the other side's header parsing reads back exactly: kind, 32-bit big-endian id, payload |
| `TunnelWire.DecodeExact` | internal/api/tunnel.go:133-138 | a message parses as a frame if and only if it is that frame's encoding; short messages parse as nothing |
| `TunnelWire.BuildFrame` | internal/api/tunnel.go:71-79 | the buffer filled in place is the encoding of the frame and parses back to it |
| `TunnelWire.ReplayRequest` | internal/api/tunnel.go:535-544 | the chunk loop ends, emits DATA frames of 1 to 16384 bytes, and the far side reads back a prefix of the request, all of it when no write failed; it succeeds exactly when enough writes succeed |
| `TunnelSafety.NextKeepsInv` | internal/api/tunnel.go:529-599 | every atomic step of the handler, the reader goroutine, both read loops and the client's goroutines keeps the one-stream invariant |
| `TunnelSafety.RunKeepsInv` | internal/api/tunnel.go:529-599 | the invariant holds after every run of one stream's machine |
| `TunnelSafety.PrefixBothWays` | internal/api/tunnel.go:126-156 | in an invariant state the browser has a prefix of what the local connection produced, and the local connection a prefix of the replayed request plus later browser bytes |
| `TunnelSafety.DrainIsComplete` | internal/api/tunnel.go:566-594 | a handler that left by the closed branch without a write error wrote exactly the accepted bytes, which are all bytes sent before the CLOSE |
| `TunnelSafety.ResponseIsComplete` | internal/api/tunnel.go:568-576 | a local service that closes after its response reaches the browser in full |
| `TunnelSafety.ClosedConnIsFrozen` | cmd/muveectl/tunnel.go:276-281 | once the client closed its local connection no further byte reaches the local service, in any continuation |
| `TunnelSafety.LocalDrainIffInboxEmpty` | cmd/muveectl/tunnel.go:360-388 | the client's drain delivers everything accepted if and only if the inbox held no byte when the connection was closed |
| `TunnelSafety.LocalDrainCanTruncate` | cmd/muveectl/tunnel.go:360-388 | a concrete run in which the request is accepted but never reaches the local service, contrary to the comment on the drain |
| `TunnelSafety.ConnClosedEarly` | cmd/muveectl/tunnel.go:413-415 | the run up to the point where CLOSE closed the connection under a waiting inbox |
| `TunnelSystem.StepProjects` | internal/api/tunnel.go:54-156 | an event of the whole tunnel is, seen from one stream, a step of that stream or nothing |
| `TunnelSystem.RunProjects` | internal/api/tunnel.go:54-156 | a run of the whole tunnel projects to a run of each stream |
| `TunnelSystem.StepKeepsWellFormed` | internal/api/tunnel.go:81-96 | ids handed out stay below the counter, and a busy read loop is busy with a known stream |
| `TunnelSystem.Isolation` | internal/api/tunnel.go:33-34 | two runs that agree on a stream's own steps agree on all that stream's ends have received |
| `TunnelSystem.EveryStreamInv` | internal/api/tunnel.go:126-156 | every stream of every reachable state satisfies the one-stream invariant |
| `TunnelSystem.TunnelPrefix` | cmd/muveectl/tunnel.go:304-417 | per-stream prefix in both directions in every reachable state of server, client and both channels, late frames and overflow aborts included |
| `TunnelSystem.TunnelDrain` | internal/api/tunnel.go:577-599 | in every interleaving, a clean closed-branch exit has written all accepted DATA payloads in order |
| `TunnelSystem.ReadFrameOf` | cmd/muveectl/tunnel.go:319-320 | a frame written for a stream is dispatched as that request for that stream |
| `TunnelSystem.ProjectFrames` | internal/api/tunnel.go:139-142 | a written frame is seen by its own stream and by no other |
| `StreamTable.EventMovesTable` | internal/api/tunnel.go:81-121 | each atomic event of the tunnel changes the server's stream table by the function the class methods are proved against |
| `StreamTable.AcceptMovesTable` | internal/api/tunnel.go:81-96 | accepting a browser connection enters the next id into the table |
| `StreamTable.DispatchIsTakeThenDeliver` | internal/api/tunnel.go:143-154 | one turn of the read loop is the take step followed by the delivery step of the tunnel |
| `StreamTable.DispatchKeepsFlags` | internal/api/tunnel.go:104-112 | the close flag is never up while the stream is still in the map |
| `StreamTable.DispatchAllServes` | internal/api/tunnel.go:132-155 | over any messages a stream in the map gets the payloads addressed to it, in order, up to its first CLOSE, which takes it out and raises its flag; others stay as they are |
| `StreamTable.BlocksIffCannotPush` | internal/api/tunnel.go:143-150 | the read loop waits exactly when the payload it took cannot be pushed yet |
| `TunnelEnding.ServerEnds` | internal/api/tunnel.go:114-127 | in every reachable state the read loop's end followed by raising the flag of each stream it took out leaves the table the closing method leaves: flags up, inboxes kept, other streams as they were |
| `TunnelEnding.ClientEnds` | cmd/muveectl/tunnel.go:295-302 | the same at the client's end, every local connection of those streams closed besides |
| `TunnelLeaving.HandlerTellsIff` | internal/api/tunnel.go:566-599 | in every run a handler that has left tried a CLOSE frame if and only if it stopped for a failed browser write or a gone browser, and it leaves cleanly only because the stream was closed |
| `TunnelLeaving.EveryHandlerTells` | internal/api/tunnel.go:566-599 | so for every stream in every run of the whole tunnel |
| `TunnelLeaving.ReaderStopsIff` | internal/api/tunnel.go:546-563 | the reader of the browser connection has stopped exactly when the end was read, a frame could not be sent or the last read was forwarded |
| `TunnelLeaving.ClientTells` | cmd/muveectl/tunnel.go:337-417 | in every run a local reader that stopped, and a writer that exited after a failed write, tried a CLOSE frame, unless forwarding had failed, and the stream is out of the map |
| `TunnelLeaving.ClosesAreAttempts` | cmd/muveectl/tunnel.go:337-417 | in every run the CLOSE frames ever on a wire are exactly the attempts to send one whose write succeeded |
| `TunnelLeaving.EmptyDrainWroteAll` | cmd/muveectl/tunnel.go:376-388 | a drain of the client that ends with an empty inbox has written every accepted byte |
| `TunnelLeaving.DrainsWhole` | cmd/muveectl/tunnel.go:376-388 | while the local connection is open, a drain whose writes succeed delivers everything in the inbox |
| `TunnelLeaving.HandlerWaitsIff` | internal/api/tunnel.go:566-599 | a handler waits exactly while its inbox is empty, its stream open and its browser there; otherwise some step of it is possible |
| `TunnelLeaving.ClientWaitsIff` | cmd/muveectl/tunnel.go:337-417 | the client's writer waits exactly while its inbox is empty and done is down, its reader never |
| `TunnelExchange.RunSized` | internal/api/tunnel.go:535-563 | in every run every DATA frame carries between 1 and 16384 bytes |
| `TunnelExchange.Exchange` | internal/api/tunnel.go:500-599 | a run that carries a request, a later byte and the response, both ways in full, to a clean end |
| `TunnelSolo.EveryRunIsReal` | internal/api/tunnel.go:54-156 | the converse of projection: every run of one stream's machine is a run of the whole tunnel |
| `TunnelSolo.TunnelExchanges` | internal/api/tunnel.go:500-599 | so the whole tunnel carries that exchange to its clean end |
| `TunnelServer.TunnelStream.Close` | internal/api/tunnel.go:50-52 | closing is idempotent and raises the flag |
| `TunnelServer.TunnelStream.Drain` | internal/api/tunnel.go:585-594 | the drain loop empties the inbox into the connection in order, and succeeds exactly when the connection takes all of it |
| `TunnelServer.TunnelConn.WriteFrame` | internal/api/tunnel.go:71-79 | a written frame is one whole message appended to the wire |
| `TunnelServer.TunnelConn.NewStream` | internal/api/tunnel.go:81-96 | a fresh id, the next number, enters the table; earlier streams stay |
| `TunnelServer.TunnelConn.GetStream` | internal/api/tunnel.go:98-102 | finds exactly the streams still in the map |
| `TunnelServer.TunnelConn.RemoveStream` | internal/api/tunnel.go:104-112 | unlinks and flags the stream, or does nothing when it is gone |
| `TunnelServer.TunnelConn.CloseAllStreams` | internal/api/tunnel.go:114-121 | raises the flag of every stream of the map, whose inbox stays, touches no other stream, and empties the map |
| `TunnelServer.TunnelConn.HandleMessage` | internal/api/tunnel.go:133-154 | one message moves the table by the dispatch function; it waits exactly on a full inbox |
| `TunnelServer.TunnelConn.ServeConn` | internal/api/tunnel.go:126-156 | the loop over any messages ends with every stream that was in the map flagged, its inbox extended by the payloads addressed to it up to its first CLOSE, and no other stream touched |
| `TunnelClient.CliStream.Close` | cmd/muveectl/tunnel.go:276-281 | raises done and closes the local connection together, once |
| `TunnelClient.ShutAll` | cmd/muveectl/tunnel.go:295-302 | every stream of an ending session is closed |
| `TunnelClient.CliSession.WriteFrame` | cmd/muveectl/tunnel.go:256-256 | a written frame is one whole message appended to the wire |
| `TunnelClient.CliSession.CloseStream` | cmd/muveectl/tunnel.go:285-293 | out of the map first, then closed; a second call finds nothing |
| `TunnelClient.CliSession.CloseAll` | cmd/muveectl/tunnel.go:295-302 | done is raised and the local connection closed for every stream of the map, inboxes and other streams stay, the map is emptied |
| `TunnelClient.CliSession.OpenStream` | cmd/muveectl/tunnel.go:329-336 | the new stream replaces any older one under the id |
| `TunnelClient.CliSession.Deliver` | cmd/muveectl/tunnel.go:391-411 | pushes into a free inbox, otherwise aborts the stream with a CLOSE frame; never waits |
| `TunnelClient.CliSession.HandleMessage` | cmd/muveectl/tunnel.go:312-417 | one message moves the client's map and its answered frames by the dispatch function |
| `TunnelClient.HandlingIsTunnelSteps` | cmd/muveectl/tunnel.go:312-417 | handling one message is a short run of the tunnel's atomic steps with the same effect on streams and wire |
| `TunnelClient.AbortIsTunnelSteps` | cmd/muveectl/tunnel.go:403-410 | the overflow abort is four atomic steps of the tunnel |
| `Registries.TunnelRegistry.Register` | internal/api/tunnel.go:171-179 | registering succeeds exactly when the domain is free, and then maps it to the connection |
| `Registries.TunnelRegistry.Unregister` | internal/api/tunnel.go:181-187 | removes the domain only while it maps to this connection |
| `Registries.TunnelOwner` | internal/api/tunnel.go:331-387 | in every interleaving of checks, registrations and disconnects a domain maps to a connection exactly when that is the live registered one; a race loser never evicts it |
| `Registries.RegistersIffFree` | internal/api/tunnel.go:171-187 | in every reachable state a connect handler passes the check, and one past it registers, exactly when nobody holds the domain by then; a connection that leaves frees it |
| `Registries.RaceRuns` | internal/api/tunnel.go:331-387 | two connects pass the check together, the first to register wins and the other loses |
| `Registries.AgentRegistry.Register` | internal/api/agentcontrol.go:77-84 | the newer channel replaces the older one, whose socket is closed |
| `Registries.AgentRegistry.Unregister` | internal/api/agentcontrol.go:86-92 | removes the node only while it maps to this channel |
| `Registries.AgentOwner` | internal/api/agentcontrol.go:77-97 | in every interleaving a node maps to its latest registered channel while that is running; an older channel's deferred unregister changes nothing, and exactly older channels have had their socket closed |
| `Registries.ReconnectRuns` | internal/api/agentcontrol.go:77-97 | a node reconnects: the newer channel takes over, the older is cut and its leaving changes nothing |
| `HostRules.SplitPrinted` | internal/api/cftunnel.go:70-86 | splitting a generated rule returns exactly its hosts and the rest when the rest holds no host token, and nothing when it holds one: the rule then counts as foreign |
| `HostRules.SplitSound` | internal/api/cftunnel.go:70-86 | whatever `splitRule` accepts is the print of the hosts it returns followed by the rest, and the hosts are non-empty and backtick-free |
| `HostRules.HostsOfAlternatives` | internal/api/cftunnel.go:35-73 | the token scan over printed alternatives finds exactly their hosts, in order, then those of what follows |
| `HostRules.RulesDiverge` | internal/api/server.go:4786-4795 | a printed rule never starts with the print of its hosts plus further ones |
| `HostRules.KindsDoNotMix` | internal/api/server.go:4825-4834 | an SNI rule is never split as an HTTP rule, nor the reverse |
| `CfTunnel.SiblingSplits` | internal/api/cftunnel.go:113-118 | the sibling's rule splits into the tunnel hosts and the same rest |
| `CfTunnel.RemainderSplits` | internal/api/cftunnel.go:124-131 | the narrowed rule splits into the public hosts and the same rest |
| `CfTunnel.SiblingMovesAgain` | internal/api/cftunnel.go:96-98 | a sibling handled again would be moved wholesale and deleted, which is why names are snapshotted |
| `CfTunnel.AfterOneMore` | internal/api/cftunnel.go:103-131 | one round of the loop takes the map of a set of handled names to that of one name more |
| `CfTunnel.RewriteIsOrderIndependent` | internal/api/cftunnel.go:99-131 | without a taken sibling name, every iteration order yields the one map given by a pure function |
| `CfTunnel.OrderIndependentIffNoClash` | internal/api/cftunnel.go:26-29 | the in-place loop is independent of the order if and only if no router that gets a sibling has its sibling's name taken |
| `CfTunnel.ClashMatters` | internal/api/cftunnel.go:118-121 | with a taken sibling name two orders give different maps |
| `CfTunnel.PlainNamesDoNotClash` | internal/api/cftunnel.go:26-29 | names without an underscore never clash |
| `CfMeaning.PublicHostsUnchanged` | internal/api/cftunnel.go:88-132 | for a host that is not a tunnel host every entrypoint offers the same routers with the same service, middlewares, path rule and priority |
| `CfMeaning.TunnelHostsLeave` | internal/api/cftunnel.go:66-132 | on a public entrypoint a tunnel host keeps exactly the foreign rules that hold its token, so it leaves the entrypoint if and only if there is none |
| `CfMeaning.TunnelHostsArrive` | internal/api/cftunnel.go:113-118 | a tunnel host is matched on the tunnel entrypoint by exactly the siblings of the routers that named it, without TLS and with the same target |
| `CfMeaning.TunnelEntryHoldsSiblings` | internal/api/cftunnel.go:113-118 | the tunnel entrypoint offers a host exactly its expected siblings, nothing to public hosts |
| `CfMeaning.UnmovedRoutersStay` | internal/api/cftunnel.go:104-112 | a router stays exactly as it was if and only if its rule is foreign or names no tunnel host |
| `CfMeaning.RemainderCertificates` | internal/api/cftunnel.go:124-131 | the certificate list of a narrowed router is exactly its remaining hosts, none of them a tunnel host |
| `CfMeaning.ApplyOnPublicEntry` | internal/api/cftunnel.go:88-166 | the whole apply on a public entrypoint: same matches for public hosts, the foreign rules holding its token for a tunnel host, less routers under the panel's two names |
| `CfMeaning.ApplyOnTunnelEntry` | internal/api/cftunnel.go:88-198 | the whole apply on the tunnel entrypoint: the siblings whose names the panel does not take, plus exactly the panel routers on panel hosts |
| `CfMeaning.PanelAdds` | internal/api/cftunnel.go:180-192 | adding the panel replaces what had its two names, adds its routers to the panel's hosts and changes no other match |
| `CfMeaning.PanelHostsListed` | internal/api/cftunnel.go:176-179 | the panel's hosts are each tunnel base and its `app.` host, nothing else |
| `CfMeaning.PanelServes` | internal/api/cftunnel.go:180-192 | both panel routers answer for exactly the panel's hosts on the tunnel entrypoint |
| `CfMeaning.SiblingsSurviveIff` | internal/api/cftunnel.go:181-187 | every sibling survives the panel if and only if no moved router is called `panel` or `panel-oauth` |
| `CfMeaning.ApplyKeepsReferences` | internal/api/cftunnel.go:193-197 | if every router named a defined or foreign-provider service before, it does so afterwards |
| `CfTcp.TcpKeepsPublicHosts` | internal/api/cftunnel.go:134-159 | a TCP router keeps exactly its public hosts, service and entrypoints, or goes when it has none |
| `CfTcp.TcpMapKeepsPublicHosts` | internal/api/cftunnel.go:134-159 | over the whole map: a TCP router matches a host afterwards exactly when it did and the host is public |
| `CfTcp.TcpReferencesStayClosedIff` | internal/api/cftunnel.go:146-149 | after dropping routers with their services, references stay closed if and only if no surviving router shares a dropped service |
| `CfTcp.OwnNamesNotShared` | internal/api/server.go:4853-4864 | generated TCP routers name services of their own, so none is shared |
| `CfTunnelConfig.SplitHosts` | internal/api/cftunnel.go:55-64 | both lists are the filtered input in order |
| `CfTunnelConfig.NamesOf` | internal/api/cftunnel.go:99-102 | the snapshot lists every name once, in arbitrary order |
| `CfTunnelConfig.Narrow` | internal/api/cftunnel.go:124-130 | a narrowed entry gets a TLS block of its own; the shared one is untouched |
| `CfTunnelConfig.Section.SplitRouter` | internal/api/cftunnel.go:103-131 | one round on the live map equals one round of the specification, with every TLS pointer followed |
| `CfTunnelConfig.Section.SplitInTwo` | internal/api/cftunnel.go:113-131 | sibling inserted first, then the router narrowed or deleted |
| `CfTunnelConfig.Section.Rewrite` | internal/api/cftunnel.go:95-132 | the in-place loop equals the ordered processing and, without a clash, the pure rewrite |
| `CfTunnelConfig.Section.RewriteTcp` | internal/api/cftunnel.go:136-159 | narrowing and deleting while the live map is ranged over equals the pointwise specification, services included |
| `CfTunnelConfig.Section.AddPanel` | internal/api/cftunnel.go:176-197 | the two panel routers are set and the missing backend is added, an existing one kept |
| `CfTunnelConfig.ListPanelHosts` | internal/api/cftunnel.go:176-179 | the list the loop builds is the specified one |
| `CfTunnelConfig.DynamicConfig.RewriteSections` | internal/api/cftunnel.go:95-159 | both halves rewritten independently: the HTTP half to what some order of processing gives, the TCP half to the specification |
| `CfTunnelConfig.DynamicConfig.AddPanelRouters` | internal/api/cftunnel.go:169-198 | an absent HTTP section is created first; the TCP half is untouched |
| `CfTunnelConfig.DynamicConfig.Apply` | internal/api/cftunnel.go:91-162 | a no-op without tunnel domains; otherwise the HTTP half becomes what some order of processing followed by the panel gives, the pure rewrite without a clash, and the TCP half the specified one |
| `HostOwnership.ValidateAliasHost` | internal/api/project_aliases.go:36-73 | accepts exactly the hosts of the specification: two or more short labels, not the base, and a valid unreserved label directly under it |
| `HostClaims.SubPrefixIff` | internal/api/project_aliases.go:81-92 | a host is recognised as `<label>.<base>` exactly when it is that label's default host |
| `HostClaims.CreateIffUnclaimed` | internal/api/server.go:2339-2357 | past validation and with a free name, a project is created if and only if no project claims its default host, and claims it afterwards |
| `HostClaims.UpdateIffUnclaimed` | internal/api/server.go:2555-2573 | an update succeeds if and only if no other project claims the new default host; an alias of one's own may become the prefix |
| `HostClaims.AddAliasIffUnclaimed` | internal/api/project_aliases.go:147-172 | a well-formed alias is accepted if and only if no project claims the host, the caller's own included |
| `HostClaims.ClaimedDefaultHost` | internal/api/server.go:2339-2357 | the two checks together decide exactly whether a default host is claimed |
| `HostClaims.ClaimedAliasHost` | internal/api/project_aliases.go:148-166 | prefix check and uniqueness together decide exactly whether an alias host is claimed, for single-label and multi-label hosts |
| `HostClaims.OneOwner` | internal/api/project_aliases.go:20-30 | the invariant gives one owner per host |
| `HostClaims.StepKeepsInv` | internal/api/server.go:2314-2421 | every handler keeps the ownership invariant |
| `HostClaims.RunKeepsInv` | internal/api/server.go:2506-2615 | so does every run |
| `HostClaims.NoHostHasTwoOwners` | internal/api/project_aliases.go:121-208 | over every run from an empty database no two projects claim the same host |
| `HostClaims.StepFrames` | internal/api/project_aliases.go:195-203 | no request gives hosts to or takes hosts from any project but its own |
| `HostClaims.DeleteReleases` | db/migrations/043_project_aliases.sql:23-26 | a deleted project gives up every host it had, aliases included |
| `HostClaims.RunKeepsNames` | internal/api/server.go:2358-2364 | over every run an owner's projects have distinct names |
| `HostClaims.PlatformHostsUnclaimed` | internal/api/server.go:1783-1789 | no project ever claims the apex or a reserved prefix of the base domain, through prefix or alias |
| `HostClaims.NoAliasOnEmptyBase` | internal/api/project_aliases.go:44-46 | without a base domain no alias equals a default host |
| `HostPermissions.CreateAliasForbiddenIff` | internal/api/project_aliases.go:121-146 | adding an alias is forbidden exactly when the project exists and the caller is neither administrator nor its owner, and then nothing changes |
| `HostPermissions.DeleteAliasForbiddenIff` | internal/api/project_aliases.go:175-208 | removing one likewise, and past that only an alias of the project itself goes |
| `HostPermissions.StrangersChangeNoAlias` | internal/api/project_aliases.go:121-208 | over every run without such requests by an administrator or whoever owns the project then, or its deletion, the project's aliases stay the same |
| `HostPermissions.CreateStatus` | internal/api/server.go:2314-2421 | a creation is a bad request exactly when a check on the fields fails, a conflict exactly when the host is claimed or the owner has the name, and stores exactly the project asked for otherwise |
| `HostPermissions.UpdateStatus` | internal/api/server.go:2506-2615 | an update is forbidden exactly without access, touches one project, and keeps its owner and kind |
| `HostPermissions.DeleteStatus` | internal/api/server.go:3035-3040 | a project is deleted exactly when it is there, with its aliases and nothing else |
| `HostPermissions.ChangeOwnerStatus` | internal/api/server.go:2617-2670 | an owner change succeeds exactly for an existing user without a project of the name, or the owner already, and moves the owner alone |
| `HostPermissions.LabelIs` | internal/api/server.go:1791-1793 | the label shape spelled out: lower-case letters, digits and hyphens, a letter or digit at both ends |
| `HostPermissions.PrefixIs` | internal/api/server.go:1795-1806 | the prefix a project gets, or the exact reasons for none |
| `HostPermissions.RunKeepsNamespace` | internal/api/server.go:2092-2095 | over every run no domain-only project is in the namespace of ephemeral tunnels |
| `HostPermissions.AcceptedIff` | internal/api/project_aliases.go:36-73 | an alias is accepted exactly when it is two or more labels of 1 to 63 characters, 253 in all, and neither the base domain nor a reserved label directly under it |
| `HostLookup.LookupFindsOnlyClaimants` | internal/api/server.go:371-409 | the lookup never answers with a project that does not claim the host, for any base domain |
| `HostLookup.LookupIffClaims` | internal/api/server.go:371-409 | the lookup returns a project exactly when that project claims the host, where without a base domain only claims by alias are seen |
| `HostLookup.LookupAgreesIffBaseSet` | internal/api/server.go:371-409 | lookup and claims agree on every host if and only if a base domain is configured (or there is no project) |
| `HostLookup.OneOwnerUnderIff` | internal/api/server.go:4766-4780 | with several base domains one owner per host survives if and only if no alias is another project's default host under any base |
| `HostLookup.OwnersStayIff` | internal/api/server.go:4766-4780 | request by request: with one owner per host under all bases, a request keeps it so if and only if it is refused or its host meets no other project's alias or default host under any base |
| `HostLookup.ExtraBaseClash` | internal/api/project_aliases.go:151-162 | three accepted requests from the empty database give a host two owners under an extra base |
| `HostLookup.ExtraBaseClashExists` | internal/api/project_aliases.go:151-162 | such a run for the bases `a.b` and `c.d` and the alias `p.c.d` |
| `HostHandlers.Rows.constructor` | internal/api/server.go:2314-2421 | an empty store satisfies the invariant |
| `HostHandlers.Rows.HostIsFree` | internal/api/server.go:2339-2357 | the two conflict checks, own rows excluded on update |
| `HostHandlers.Rows.CreateProject` | internal/api/server.go:2314-2421 | the stored rows change by the specification step and stay valid |
| `HostHandlers.Rows.UpdateProject` | internal/api/server.go:2506-2615 | the stored rows change by the specification step and stay valid |
| `HostHandlers.Rows.ChangeOwner` | internal/api/server.go:2617-2670 | an owner change needs a free name with the new owner and touches nothing but the owner |
| `HostHandlers.Rows.DeleteProject` | internal/api/server.go:3035-3040 | removes the project and, by cascade, its aliases |
| `HostHandlers.Rows.CreateAlias` | internal/api/project_aliases.go:121-173 | the stored rows change by the specification step and stay valid |
| `HostHandlers.Rows.DeleteAlias` | internal/api/project_aliases.go:175-208 | removes an alias of this project only |
| `HostHandlers.Rows.ProjectByHost` | internal/api/server.go:363-412 | answers with a project exactly when it claims the host as far as the lookup sees it, with or without a base domain; an empty host is a bad request |
| `TraefikConfig.Builder.AddBypassRouters` | internal/api/server.go:4742-4764 | writes one router per non-blank line under its line number, in order |
| `TraefikConfig.Builder.AddDeviceFlowRouter` | internal/api/server.go:4709-4717 | writes the sign-in router |
| `TraefikConfig.Builder.AddDeployment` | internal/api/server.go:4922-5016 | default hosts, then aliases with the same backend and chain; service and ForwardAuth entry set |
| `TraefikConfig.Builder.AddAll` | internal/api/server.go:4922-5016 | the whole loop over deployments writes exactly the specified emissions in order |
| `TraefikOwnership.RouterBelongsToLookup` | internal/api/server.go:4922-5016 | a generated router whose rule holds a host's token is the write of one deployment, with its chain or none, to its service, the sign-in backend or one of its alias names; that deployment's project claims the host and is the one the lookup returns, or the token stands in one of its bypass lines |
| `TraefikNames.EmitIs` | internal/api/server.go:4922-5016 | a deployment writes exactly the user-facing, sign-in and bypass routers of its default hosts and of each alias |
| `TraefikNames.TakesGroupName` | internal/api/server.go:4996-4996 | which names of another deployment can be the name of a user-facing router: for an alias only a prefix spelling it, for a prefix only a sign-in, bypass or alias name |
| `TraefikRouting.TableAt` | internal/api/server.go:4922-5016 | an entry of the table is the last one written under its name by the last deployment that wrote that name |
| `TraefikRouting.LastWriterIs` | internal/api/server.go:4922-5016 | a deployment keeps a user-facing name if and only if no later deployment spells it |
| `TraefikRouting.ClaimedHostIsRouted` | internal/api/server.go:4939-5015 | a host is routed to a running project's backend through its chain if and only if some group naming the host is not overwritten by a later deployment |
| `TraefikRouting.ClaimsAreGroups` | internal/api/server.go:4924-4996 | the hosts a running project claims are exactly the hosts of its groups |
| `TraefikRouting.AlwaysRoutedIff` | internal/api/server.go:4922-5016 | a host reaches its project in every order of the deployments if and only if no other deployment spells the name of some group naming it |
| `TraefikRouting.ApartIff` | internal/api/server.go:4710-4755 | no deployed prefix is a sign-in, bypass or alias name of another deployment if and only if every user-facing name is undisputed |
| `TraefikRouting.ApartRoutesAll` | internal/api/server.go:4922-5016 | with prefixes apart every claimed host of every running project is routed, in every order |
| `TraefikRouting.LostHost` | internal/api/server.go:4710-4710 | a project whose prefix is another's with the sign-in suffix, written first, has no router for its default host: the other's sign-in router replaced it |
| `TraefikRouting.LostHostReachable` | internal/api/server.go:4922-5016 | two requests from the empty database lead to such a pair, under every base domain |
| `TraefikServices.ServiceLeads` | internal/api/server.go:4902-4988 | a service name is defined exactly when it is the sign-in backend's or a deployed prefix, and leads to the project of that prefix |
| `TraefikServices.ServiceKinds` | internal/api/server.go:4709-4762 | every write names its deployment's service, the sign-in backend or, only with bypass lines, an alias name |
| `TraefikServices.AlwaysResolvesIff` | internal/api/server.go:5008-5010 | in every order every router names a defined service if and only if the alias names of deployments with bypass lines are themselves deployed prefixes |
| `TraefikServices.AliasBypassNeverHome` | internal/api/server.go:5008-5010 | a bypass router of an alias never leads to its own project: its service is undefined or another project's |
| `TraefikMentions.AlwaysBelongsIff` | internal/api/server.go:4742-4763 | in every order every router that mentions a host is the write for the project claiming it if and only if bypass lines hold tokens of hosts of their own deployment only |
| `TraefikMentions.PlainLinesSuffice` | internal/api/server.go:4749-4754 | bypass lines without backticks meet that condition |
| `TraefikMentions.WriterIsUnique` | internal/api/server.go:4922-5016 | a router of the table is the write of one deployment only |
| `TraefikMentions.BypassHosts` | internal/api/server.go:4742-4763 | a bypass router mentions the hosts of its group and then those of its line, and is foreign exactly when the line holds any |
| `TraefikMentions.NeverStuckIff` | internal/api/cftunnel.go:66-86 | in every order no foreign rule holds a host's token if and only if no deployment with a token in a bypass line has the host or holds its token there |
| `TraefikServices.AlwaysHomeIff` | internal/api/server.go:4922-5016 | in every order no router that mentions a claimed host leads to another project's backend if and only if no other deployment is called like the sign-in backend, no prefix spells the alias name of a deployment with bypass lines, and no bypass line holds the token of a host another project claims |
| `TraefikServices.BypassLeadsAway` | internal/api/server.go:4755-4759 | the bypass router of an alias leads to the project whose prefix spells the alias name |
| `TraefikServices.BypassLeadsAwayReachable` | internal/api/server.go:4922-5016 | three requests from the empty database lead to it, under every base domain and for every custom domain |
| `TraefikServices.TokenLeadsAway` | internal/api/server.go:4755-4759 | a bypass router that holds the token of another project's host leads to its own project |
| `TraefikServices.TokenLeadsAwayReachable` | internal/api/server.go:4742-4763 | two requests from the empty database and one bypass line lead to it, under every base domain a line can hold |
| `TraefikGates.EmitGates` | internal/api/server.go:4953-5010 | every router of a deployment is a sign-in or bypass router without middlewares, or leads to its own service through `<prefix>-auth`, if it needs authentication, and the embed bridge |
| `TraefikGates.OnlyExemptSkipsGate` | internal/api/server.go:4953-5010 | whatever leads to the backend of a project that needs authentication passes that project's own gate, which is defined and asks about that project, except its bypass lines and services spelled like its prefix by accident |
| `TraefikGates.ClaimedHostPassesGate` | internal/api/cftunnel.go:10-19 | after the rewrite a host reaches the backend of such a project through its own gate exactly when some group naming the host arrives |
| `TraefikGates.OfferedPassesGate` | internal/api/cftunnel.go:10-19 | and whatever else is offered and leads there passes the gate or is exempt |
| `TraefikConfig.Builder.AddTunnels` | internal/api/server.go:5030-5084 | the loop over active tunnels writes their bypass, sign-in and user-facing routers and services |
| `TraefikConfig.Builder.AddPlaceholders` | internal/api/server.go:5090-5142 | the loop over reserved prefixes writes those without a router of their own or their tunnel's name |
| `TraefikFronts.ReachesIff` | internal/api/server.go:5018-5142 | with tunnels and placeholders written, a host reaches a running project's own backend if and only if none of them is called like its prefix and some group naming the host is kept and called like none of their routers |
| `TraefikFronts.TunnelTakesProject` | internal/api/server.go:5031-5083 | one request leads to a project called like an active tunnel's router, and none of its hosts reaches it |
| `TraefikOwnership.AuthVerifiesOwner` | internal/api/server.go:4953-4967 | a project's ForwardAuth middleware verifies against that project, however many share the table |
| `TraefikOwnership.GroupPrecedence` | internal/api/server.go:4709-4762 | routers that skip the chain outrank the user-facing one, and the sign-in router outranks every bypass path |
| `TraefikOwnership.PathNamesNoHost` | internal/api/server.go:4749-4754 | a bypass path without backticks adds no host to its rule |
| `TraefikOwnership.DeploymentHosts` | internal/api/server.go:4924-4924 | hosts of a deployment are claimed by its project, printable and in normal form |
| `TraefikOwnership.HostsUnderEveryBase` | internal/api/server.go:4766-4780 | a prefix is served under every base domain, in their order |
| `TraefikOwnership.EmitAllMadeFor` | internal/api/server.go:4922-5016 | every emitted router is a write of one deployment, names a service of it, and mentions its hosts, the first of them first, and otherwise only what its bypass lines hold |
| `TraefikOwnership.TableSuitsRewrite` | internal/api/cftunnel.go:26-29 | the generated table has no taken sibling name and nothing on the tunnel entrypoint |
| `RoutingEndToEnd.ClaimedHostReachesProject` | internal/api/cftunnel.go:10-19 | after generation and rewrite a host reaches a running project's backend through its chain on the entrypoint its traffic arrives on if and only if some group naming it is not overwritten and, for a tunnel host, not called like the panel; elsewhere a tunnel host is matched by foreign rules only |
| `RoutingEndToEnd.AlwaysLeavesIff` | internal/api/cftunnel.go:10-22 | a tunnel host leaves the public entrypoint in every order if and only if no deployment with a token in a bypass line has the host or holds its token there |
| `RoutingEndToEnd.TokenSticks` | internal/api/cftunnel.go:66-69 | so the host of one project stays there while another has its token in a bypass line |
| `RoutingEndToEnd.ServedRouterBelongsToLookup` | internal/api/cftunnel.go:10-19 | after generation and rewrite whatever matches a host, the panel apart, leads where one deployment's write leads, service included, and the host belongs to that deployment's project or its token stands in one of its bypass lines |
| `RoutingEndToEnd.AlwaysServedForIff` | internal/api/cftunnel.go:10-19 | in every order the host belongs to that deployment's project if and only if bypass lines hold tokens of hosts of their own deployment only |
| `RoutingEndToEnd.ServedStaysHome` | internal/api/cftunnel.go:10-19 | in every order nothing offered for a claimed host leads to another project's backend if and only if the condition of `AlwaysHomeIff` holds |
| `ProjectMerge.DecodeInto` | internal/api/server.go:2473-2482 | null clears a column, a value is written through an existing pointer |
| `ProjectMerge.Decode` | internal/api/server.go:2484-2486 | the decoded project is the row patched member by member |
| `ProjectMerge.DetachPointerFields` | internal/api/server.go:2493-2504 | every pointer column becomes the copy's own; values stay |
| `ProjectMerge.MergeProjectUpdate` | internal/api/server.go:2471-2488 | the result is the patched row on fresh memory; everything reachable from the stored project is unchanged, for any body |
| `ProjectMerge.PatchedColumn` | internal/api/server.go:2467-2470 | a column the body names takes its last value there, a column it does not name keeps the stored one |
| `ProjectMerge.ValidateTcpRoute` | internal/api/server.go:1902-1934 | accepts and normalises exactly as specified, assigning new pointers |
| `ProjectMerge.TcpRouteNormalises` | internal/api/server.go:1899-1934 | what is accepted is absent or complete and valid, and exactly the well-formed rows pass unchanged |
| `ProjectMerge.ValidateProject` | internal/api/server.go:2029-2072 | accepts exactly the valid rows, and leaves the normalised route and the resolved prefix |
| `ProjectMerge.StoredRoute` | internal/api/server.go:1923-1929 | a stored route is complete and valid, and its hostname is the project's own exactly when the prefix was left out and the name that replaced it is that hostname |
| `ProjectMerge.UpdateGates` | internal/api/server.go:2524-2598 | after merge and full validation the row to store, and each administrator check fires exactly when the merged value differs from the stored one |
| `ProjectMerge.UntouchedTriggersNothing` | internal/api/server.go:1836-1839 | a body that leaves the guarded columns alone triggers neither check |
| `ProjectMerge.ShallowMergePort` | internal/api/server.go:2473-2482 | without detaching, the stored project changes along and the check fires only when the column appears or disappears |
| `ProjectStore.StepKeepsSound` | internal/api/server.go:2506-2615 | every handler keeps subdomains, TCP hostnames and pinned ports each with one project |
| `ProjectStore.RunKeepsSound` | db/migrations/051_project_tcp_route.sql:35-39 | so does every run |
| `ProjectStore.StepRefinesHosts` | internal/api/server.go:2314-2421 | seen from host ownership every step is one of its own steps or changes nothing |
| `ProjectStore.RunKeepsHosts` | internal/api/server.go:2506-2615 | so over every run of the full handlers no two projects claim the same host |
| `ProjectPins.OwnersSetNothing` | internal/api/server.go:2584-2606 | without an administrator the guarded columns of no project change, and a new project has none |
| `ProjectPins.OwnersNeverSet` | internal/api/server.go:2365-2388 | so over every run of owners' requests no project gets a pinned port or a TCP route |
| `ProjectPins.RunKeepsPins` | internal/api/server.go:1815-1834 | over every run a stored port is in range and a stored node stands beside one |
| `ProjectPins.OwnerSavesIff` | internal/api/server.go:1836-1839 | an owner's update that leaves the guarded columns alone and passes the other checks is stored if and only if port and node are both set or both empty |
| `ProjectPins.NodeDeletionLocksOut` | db/migrations/032_project_fixed_port.sql:14-20 | after the node of a pinned port is deleted, no run of owners' requests changes the project any more |
| `ProjectPins.LockedOutReachable` | internal/api/server.go:4090-4098 | from the empty store: a node, a pinned project and the node's deletion; the owner's rename is stored before it and a bad request after it |
| `ProjectHostnames.ExclusiveIff` | db/migrations/051_project_tcp_route.sql:23-27 | request by request: while no TCP route sits on a host a project claims, a request keeps it so if and only if it is refused, or its subdomain is no other project's TCP hostname nor its own by an omitted prefix, its TCP hostname is no alias, and its alias is no TCP hostname |
| `ProjectHostnames.ExclusiveParts` | internal/store/store.go:605-618 | in terms of the columns: no TCP hostname is a subdomain, and none is an alias |
| `ProjectHostnames.CreateSwallowed` | internal/store/store.go:605-624 | two requests from an empty store put a project under a hostname routed by TCP |
| `ProjectHostnames.UpdateSwallowed` | internal/api/server.go:1923-1929 | so does an owner who clears the prefix of a project named like its TCP hostname |
| `ProjectHostnames.AliasSwallowed` | internal/api/project_aliases.go:147-166 | so does an owner who takes a TCP hostname as an alias |
| `ProjectHostnames.AcceptableAliasExists` | internal/api/project_aliases.go:36-73 | the alias handler accepts such a host, for instance `t.a.b` under the base `a.b` |
| `AgentRelay.ClientSeesSubsequence` | internal/api/agentcontrol.go:234-275 | in every run a client's frames are an in-order subsequence of the agent's frames for its session, at most one exit or error, nothing after it; a session whose open was not sent gets one local error |
| `AgentRelay.CompleteIffNothingLost` | internal/api/agentcontrol.go:58-70 | a forwarder that ran to its end has delivered everything up to the exit if and only if no frame found the buffer full |
| `AgentRelay.ExitCanBeLost` | internal/api/agentcontrol.go:65-69 | a run from the start in which an exit finds the buffer full and is dropped: the client sees its session end without one |
| `AgentRelay.StepKeeps` | internal/api/agentcontrol.go:38-70 | every step of read loop, forwarder and handler keeps the session invariant |
| `AgentRelay.RunKeeps` | internal/api/agentcontrol.go:130-149 | so does every run |
| `AgentControl.FrameChan.TrySend` | internal/api/agentcontrol.go:65-69 | a non-blocking send that drops on a full buffer |
| `AgentControl.AgentControlConn.OpenSession` | internal/api/agentcontrol.go:38-47 | a fresh channel of capacity 32 under the session |
| `AgentControl.AgentControlConn.CloseSession` | internal/api/agentcontrol.go:49-56 | closes and removes; a second close finds nothing |
| `AgentControl.AgentControlConn.Dispatch` | internal/api/agentcontrol.go:58-70 | pushes into the session's channel or drops |
| `AgentControl.AgentControlConn.HandleFrame` | internal/api/agentcontrol.go:137-148 | one turn of the read loop moves the session's channel exactly as the relay step |
| `AgentControl.LinkSteps` | internal/api/agentcontrol.go:49-70 | the methods' effect on a channel is the relay's |
| `AgentSessions.ForwardOutput` | cmd/muvee/agent_control.go:262-278 | the forwarding loop emits non-empty frames of one kind whose payloads are exactly what was read, up to the end of stream |
| `AgentSessions.ExecSession` | cmd/muvee/agent_control.go:243-288 | a lone error, or terminal output followed by one exit with the process's own code, 0 when it reported none; output bytes preserved |
| `AgentSessions.UploadSession` | cmd/muvee/agent_control.go:296-334 | a lone error, or standard error exactly on a failure that said something, then one exit with the process's own code |
| `AgentSessions.DownloadSession` | cmd/muvee/agent_control.go:336-387 | a lone error, or tar frames, the end mark, standard error only on failure, one exit with the process's own code; tar and error bytes preserved |
| `AgentSessions.CopyTail` | cmd/muvee/agent_control.go:373-386 | standard error is sent exactly when the copy failed and said something |
| `AgentSessions.UnknownDirection` | cmd/muvee/agent_control.go:389-394 | any other direction gets a lone error |
| `AgentSessions.WordShape` | cmd/muvee/agent_control.go:239-293 | every word of the grammar ends with its only exit or error and belongs to one session |
| `AgentSessions.SessionsInterleave` | cmd/muvee/agent_control.go:44-48 | however sessions and heartbeats interleave, the log restricted to a session is a prefix of its word |
| `AgentSessions.ClientReceivesWord` | internal/api/agentcontrol.go:255-275 | end to end: a client receives a subsequence of its session's word, and the whole word if and only if nothing was dropped once the forwarder ran to its end |
| `AgentInbound.Subprocess.Drive` | cmd/muvee/agent_control.go:178-216 | one frame's effect on the subprocess it names |
| `AgentInbound.SpikeAgent.Set` | cmd/muvee/agent_control.go:50-57 | the session exists with an untouched subprocess before the next frame |
| `AgentInbound.SpikeAgent.Drop` | cmd/muvee/agent_control.go:65-69 | the session is gone, others stay |
| `AgentInbound.SpikeAgent.HandleFrame` | cmd/muvee/agent_control.go:147-220 | a frame drives its own session's subprocess and nothing else |
| `AgentInbound.InputArrives` | cmd/muvee/agent_control.go:50-69 | over every history of registrations, ends and frames, a session is registered exactly since its last registration, and its subprocess has received exactly the payloads its client sent since, in order, up to the client's end of input |
| `HostPorts.CountPrefixes` | cmd/muvee/agent.go:897-900 | the map holds the number of containers per prefix |
| `HostPorts.SuppressAmbiguousHostPorts` | cmd/muvee/agent.go:896-907 | in place, exactly the reports of shared prefixes lose their port |
| `HostPorts.Deployments.HandleContainerStatuses` | internal/api/server.go:4227-4240 | the loop folds the batch into the rows |
| `HostPorts.StoredPort` | internal/api/server.go:4216-4240 | after suppression a prefix's stored port becomes its reported port exactly when one container carries it with a positive port |
| `HostPorts.PortsIgnoreOrder` | cmd/muvee/agent.go:887-895 | any permutation of a batch leaves the same ports |
| `HostPorts.SuppressionKeepsRuntime` | cmd/muvee/agent.go:893-895 | suppression touches ports only: restart count and memory flag are those of the last report made |
| `HostPorts.UnsuppressedDependsOnOrder` | cmd/muvee/agent.go:887-895 | without suppression two containers sharing a prefix make the stored port depend on the order |
| `HostPorts.SuppressionIsIdempotent` | cmd/muvee/agent.go:896-907 | silencing twice is silencing once |
| `Sessions.Browser.RenewSessionCookie` | cmd/muvee/authservice.go:426-450 | the cookie slot changes exactly when a valid roaming cookie is at least a day old |
| `Sessions.Browser.HandleVerify` | cmd/muvee/authservice.go:305-404 | answer and cookie as specified: project-scoped and denied requests return before renewal |
| `Sessions.VerifyAnswers` | cmd/muvee/authservice.go:291-404 | who gets in: a live cookie decides alone, a live bearer token only without one, nobody with neither; scoped sessions exactly on their own project, roaming ones exactly when keyed and permitted |
| `Sessions.VerifyRenews` | cmd/muvee/authservice.go:400-450 | the cookie is re-issued to seven days exactly by an allowed request with a live roaming cookie that has at most six days to go |
| `Sessions.FrequentNeverLogsIn` | cmd/muvee/authservice.go:406-414 | no request of a roaming session is sent to the login page while allowed ones come at most six days apart |
| `Sessions.RoamingNeverExpires` | cmd/muvee/authservice.go:2555-2598 | so a roaming session in regular use never expires from its issue on |
| `Sessions.SixDaysIsTight` | cmd/muvee/authservice.go:435-437 | six days is the exact bound on the gap |
| `Sessions.RenewalsADayApart` | cmd/muvee/authservice.go:410-414 | two renewals are at least a day apart, the first a day after issue |
| `Sessions.ScopedEndsAfterSevenDays` | cmd/muvee/authservice.go:324-331 | for seven days a project-scoped session admits exactly its own project's requests, bearer tokens or not; afterwards a live bearer token decides, or nobody gets in |
| `Sessions.OnlyAllowedRenews` | cmd/muvee/authservice.go:400-403 | only an allowed request renews, only a roaming cookie, to exactly seven days ahead |
| `Sessions.BearerNeverSlides` | cmd/muvee/authservice.go:416-419 | a bearer token leaves no cookie behind |
| `LoginTokens.TokenEntry.Finish` | cmd/muvee/login_token.go:302-307 | identity and success are written through the held entry |
| `LoginTokens.TokenStore.Create` | cmd/muvee/login_token.go:122-134 | a pending entry that expires after ten minutes |
| `LoginTokens.TokenStore.Poll` | cmd/muvee/login_token.go:173-206 | the answer and the consumption of the entry, as specified |
| `LoginTokens.TokenStore.Look` | cmd/muvee/login_token.go:252-263 | a callback holds the entry unless it is gone or expired, and expiry deletes it |
| `LoginTokens.TokenStore.MarkError` | cmd/muvee/login_token.go:213-219 | marks the entry only while it is stored |
| `LoginTokens.TokenStore.FinishHeld` | cmd/muvee/login_token.go:302-307 | the final write reaches the held entry, in the map or not |
| `LoginTokens.RunKeeps` | cmd/muvee/login_token.go:156-219 | every run keeps the token invariant |
| `LoginTokens.SingleUse` | cmd/muvee/login_token.go:152-155 | a token is answered success or error at most once, and expired ever after |
| `LoginTokens.SuccessIsBacked` | cmd/muvee/login_token.go:288-307 | a success answer comes no later than expiry and carries the identity whose upsert had completed last |
| `LoginTokens.ExpiredIff` | cmd/muvee/login_token.go:173-183 | in every reachable state a created token reads as expired if and only if its lifetime is over or it was answered success or error before |
| `LoginTokens.PollIsDue` | cmd/muvee/login_token.go:173-206 | in every reachable state a poll answers from the history alone: expired after ten minutes or once answered, otherwise as the last callback to complete did, or pending |
| `LoginTokens.BeginTakesIff` | cmd/muvee/login_token.go:252-263 | a callback gets past its lookup exactly when its token was created, is within its ten minutes and has not been answered |
| `LoginTokens.SignInCompletes` | cmd/muvee/login_token.go:122-206 | create, begin, finish, poll: the identity is delivered |
| `LoginTokens.ExpiredIsDropped` | cmd/muvee/login_token.go:131-134 | an expired token leaves the map when a callback or a poll meets it or it is collected |
| `LoginTokens.LateFinishIsInvisible` | cmd/muvee/login_token.go:209-212 | a callback that finishes after its entry left the map changes no answer |
| `LoginTokens.CollectIsInvisible` | cmd/muvee/login_token.go:131-134 | collection changes no answer |
| `Whitelists.NormaliseEnabledProjectTypes` | internal/api/project_types.go:31-59 | the loop computes the specified canonical list or error |
| `Whitelists.ParseEnabledProjectTypes` | internal/api/project_types.go:65-83 | the loop computes the specified reading |
| `Whitelists.TypesKeepMeaning` | internal/api/project_types.go:22-83 | canonicalising is idempotent, and the canonical list allows exactly what the raw one allowed |
| `Whitelists.AcceptedTypesRestrict` | internal/api/project_types.go:27-30 | an accepted list restricts to the types it names; only a blank one lifts the restriction |
| `Whitelists.TypesAcceptedIff` | internal/api/project_types.go:22-50 | accepted are exactly blank texts and lists that name something and nothing unknown, with the exact error otherwise |
| `Whitelists.ParsedTypes` | internal/api/project_types.go:61-83 | a stored list reads as the known types it names, or all of them when it names none |
| `Whitelists.ProjectTypesAreClean` | internal/api/project_types.go:52-57 | the known project types are clean names, so the two results above hold for them |
| `Whitelists.NormaliseEnabledProviders` | internal/api/server.go:1988-2013 | the loop computes the specified canonical list or error |
| `Whitelists.ProjectEnabledProviders` | cmd/muvee/authservice.go:2229-2261 | shows each allowed loaded provider once, the built-in ones first in display order |
| `Whitelists.ProvidersIdempotent` | internal/api/server.go:1981-2013 | canonicalising twice is canonicalising once |
| `Whitelists.ProvidersAcceptedIff` | internal/api/server.go:1981-2010 | accepted are exactly blank texts, `none`, and lists that name nothing unknown |
| `Whitelists.ProvidersSorted` | internal/api/server.go:1996-2013 | a stored list is sorted and names each provider once, exactly those named |
| `Whitelists.ProvidersKeepMeaningIff` | cmd/muvee/authservice.go:2224-2240 | the stored list shows what the raw text shows if and only if that is blank, says none, or names a provider |
| `Whitelists.SeparatorsOnly` | internal/api/server.go:1996-2000 | a single comma is the exception: it names nobody but is stored as the empty list |
| `Whitelists.SortFacts` | internal/api/server.go:2011-2011 | sorting keeps members and distinctness |

## Left out

- Stream ids increment without a wrap check (`internal/api/tunnel.go:84`); a tunnel carries fewer than 2^32 streams here.
- TunnelServer.TunnelConn.HandleMessage: a full inbox is reported as waiting instead of blocking; the wait itself is the push step of `TunnelSystem`.
- TunnelServer.TunnelConn.ServeConn: ends at the first message that has to wait, where the source waits and goes on; going on is the business of `TunnelSystem`.
- TunnelServer.TunnelConn.RemoveStream: unlinking and flagging are one call here, and two separate atomic steps in the machine.
- TunnelClient.HandlingIsTunnelSteps: says the handled message matches atomic steps taken with nobody in between; other interleavings are covered by the machine only.
- TunnelSystem.TunnelPrefix: claims only a prefix in the browser-to-local direction, since completeness is false there.
- Liveness, head-of-line blocking, WebSocket pings, deadlines and reconnection of the tunnel.
- Reconstruction of the replayed HTTP request: the request is an arbitrary byte string.
- Traefik's own router precedence, ACME and certificate reporting: `priority` is a preserved number; a path rule is the text after the hosts.
- CfTunnelConfig.DynamicConfig.Apply: for HTTP maps with a taken sibling name it promises the result of some order; `OrderIndependentIffNoClash` says why no single result can be promised.
- The membership test behind `isCFTunnelHost` (domain matching is not part of this model) is an arbitrary predicate.
- TraefikFronts.ReachesIff: which tunnels are active is a parameter, their ForwardAuth entries are not modelled, and the results on the Cloudflare rewrite and on mentioned hosts are about the deployments' routers.
- `pruneEmpty`, and the generation of TCP routers beyond their names.
- TraefikOwnership.RouterBelongsToLookup: for one base domain, as the lookup knows only the canonical one; `OneOwnerUnderIff` and `OwnersStayIff` treat several. Running deployments of one project carry the same project columns.
- TraefikServices.AlwaysHomeIff: a rule counts as mentioning every host whose token it holds; how Traefik combines the parts of a rule is not modelled.
- The base domain is taken as stored trimmed and in lower case (`Canonical`); what handlers do with one that is not is left out.
- HostHandlers.Rows.CreateProject: checks on fields that have nothing to do with hosts are one yes/no; pinned ports and TCP routes are in `ProjectStore`, hosted repositories nowhere.
- ProjectStore.StepKeepsSound: the handlers are steps on values there; in place are only merge and validation (`ProjectMerge`) and the host columns (`HostHandlers`).
- HostHandlers.Rows.DeleteProject: only the rows and the cascade, not the cleanup of deployments.
- Case folding and trimming are ASCII (`TextTools`); Unicode letters and spaces are not modelled.
- ProjectMerge.MergeProjectUpdate: two plain columns stand for all of them, beside the five pointer columns; a JSON body is a list of members.
- AgentRelay.ClientSeesSubsequence: a dispatch is atomic, so a send on a channel closed between lookup and send is not modelled.
- AgentSessions.ClientReceivesWord: one open frame per session; a client that repeats its open frame starts a second emitter, which only the relay theorem covers.
- Terminal size, signals, container lookup, heartbeats other than their interleaving, and reconnection backoff of the agent.
- Sessions: signing, cookie attributes, invite tokens and avatars; a request carries what the access checks would say.
- LoginTokens: OAuth exchange, CORS and the session cookie issued beside the token; tokens are fresh.
- PostgreSQL, scheduling, deployment failover, builds, pause and resume: their code is not part of this model.
