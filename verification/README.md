# h3llo verification

A Dafny model of h3llo, a layer-3 overlay built from actors, and proofs of what its
control plane, packet path, route handling, transport framing and actor links promise.

## What is modelled

- **Control plane** (`Peers`, `PeerRules`, `Dns`, `DnsActor`, `DnsCache`, `DnsTiming`, `Orch`, `OrchActor`,
  `ControlPlane`, `Progress`, `Connections`, `Dials`, `Flapping`, `Downstream`, `Disputes`, `Auth`). The orchestrator and
  the DNS resolver exchange hostname sets and snapshots over FIFO queues. `Dns` and `Orch` say what each handler
  does to the actor's state; the classes in `DnsActor` and `OrchActor` perform the handlers in place, loop by
  loop, and are proved against them. `ControlPlane` composes the two with dial tasks, API requests, channel
  closes and time into one system whose runs are all interleavings, and `Progress` bounds the turns until nothing
  is queued. `Dials` projects such a run onto one address of one peer, and `Flapping` builds the runs in which
  dials overlap. `Downstream` adds the inboxes of the router and the listener, and `Disputes` runs in which the
  router keeps an old table. `DnsCache` says which addresses the resolver knows, and `DnsTiming` adds a clock to it.
- **Packet path** (`Ttl`, `Routing`, `Metrics`, `Ingress`, `Layout`, `Accounting`, `Forwarding`). TTL decrement with the incremental checksum
  on an array, the longest-prefix table, saturating counters, and the batch handler against routing
  every packet alone. `Layout` builds packets from their header fields, and `Forwarding` ties what becomes of
  them to the control plane's state.
- **System routes** (`RouteSync`, `RouteRank`). Reconciliation of the TUN's routes with failures at any
  operation, and the ranking of outbound interfaces.
- **Transport** (`Datagram`, `UdpBatch`, `Engine`). The CONNECT-IP datagram prefix, cutting batches into
  segmentation-offload transmits, and the engine's two backpressure slots.
- **Actor links** (`Links`). The four channel operations of a link call interleaved with the monitors
  of both actors.

`Base`, `Net` and `Sequences` hold shared types: addresses are bit strings, most significant bit first.

## Findings

- *One dial per address.* The dial state of an address goes with its entry, also while its dial is running. If the
  peer is deleted and posted again before that dial reports, the address is dialed again: from every valid
  configuration with a peer behind a DNS name, and for every number, a run in which no time passes leads to that
  many outstanding dials (`Flapping.OverlapHappens`). While an address stays resolved its dials are exclusive
  exactly when no dial was outstanding at the moment it became resolved (`Dials.ExclusiveIffNothingStale`).
- *TTL floor.* The configuration check warns when the TTL floor is below twice the refresh interval. The exact
  condition for an address present in every answer never to be lost is a floor of twice the interval plus the
  whole intervals an answer may take (`DnsTiming.NeverLostIffLongEnough`); the recommended floor is right exactly
  when answers take less than one interval (`DnsTiming.RecommendedFloorIffFastAnswers`).
- *Disputed prefixes.* Validation compares allowed networks within a peer only, so a POST whose peer shares a
  network with another is accepted. Once both have a sender the table cannot be built and the router keeps the
  one it had, also when nothing is queued any more: any two valid HTTP/3 peers that share a network give such a
  run (`Disputes.AcceptedPostLeavesOldTable`). The router's table is the current one exactly when nothing is
  disputed (`Downstream.RouterHasCurrentTableIffUndisputed`).
- *Expired packets.* A packet whose TTL runs out counts as dropped and is still handed to the TUN; it is counted a
  second time exactly when the TUN channel is closed (`Accounting.CountersFromBatch`, with a batch in
  `Accounting.ExpiredCountedTwice`).
- *Leaving the engine loop.* The backpressure comment in `src/h3engine.rs` promises no drops. That holds while
  the loop runs. When it ends, a direction has lost nothing exactly when its slot is empty and its last offer was
  not refused; a batch waiting for the UDP channel is dropped and only the closing batch is sent
  (`Engine.NothingLostIffNothingLeft`, `Engine.ClosingFollowsEverythingIffNothingLeft`,
  `Engine.WaitingBatchIsDropped`).
- *Prepending without headroom.* `prepend` can fail after it has written the Context ID; the buffer then starts
  with that byte (`Datagram.Prepend`). With the reserved headroom it never fails.
- *Stopping the UDP sender.* The comment on `spawn_udp_tx` says only a closed input ends it; the code also reacts
  to Stop, by closing the input and draining it. The model follows the code.
- *Kernel routes.* The link-local test looks at the network address, so `fe80::/9` is protected as well
  (`RouteSync.KernelRangeIsPrefix`, `RouteSync.WiderThanLinkLocal`).

## Model

| member | source | states |
|---|---|---|
| PeerRules.TrimFacts | src/config.rs:721-741 | trimming empties exactly the blank texts and leaves exactly those without outer whitespace unchanged |
| PeerRules.WhitespaceIs | src/config.rs:721-741 | whitespace is exactly the 25 code points with the Unicode property White_Space |
| PeerRules.Utf8LenIsShortest | src/config.rs:759-766 | a token's length adds up over its characters, each counting the fewest bytes whose payload bits hold it (RFC 3629) |
| PeerRules.CheckUnique | src/config.rs:704-718 | adds the value to the seen set and reports it exactly when it was there already |
| PeerRules.CheckTrimmed | src/config.rs:721-741 | reports a blank value when that is checked, else a value with outer whitespace, else nothing |
| PeerRules.CheckAllowed | src/config.rs:790-793 | reports, in order, each allowed network that occurred earlier in the peer's list; none exactly when all are distinct |
| PeerRules.CheckPeer | src/config.rs:754-793 | one peer's errors in source order: id, token, SNI, bind interface, allowed list; the seen sets grow by that peer |
| PeerRules.ValidatePeers | src/config.rs:748-801 | returns the concatenated errors of all peers, and none exactly when the list satisfies the declarative rules: each peer valid, ids and HTTP/3 tokens pairwise distinct |
| PeerRules.NoErrorsIffValid | src/config.rs:748-801 | the sequential checks with seen sets find nothing exactly when the order-free rules hold |
| PeerRules.ListingOrderIsIrrelevant | src/orch.rs:764-777 | for any order in which a map of peers is listed, the list is valid exactly when the map is |
| Dns.NewestSnapshotIsCache | src/dns.rs:162-224 | from a state with nothing unsent, a hostname update always emits a snapshot and any other turn exactly when it changed the view; what is emitted is the view the turn left |
| Dns.EveryRunKeepsQueryInv | src/dns.rs:74-304 | in every reachable state queued and in-flight queries are disjoint, tasks are one to one with in-flight queries, queued hostnames are registered, and each registered non-literal hostname and record type is queued, in flight or answered since registration |
| Dns.HostnamesKeepQueryInv | src/dns.rs:228-244 | a new hostname set keeps that invariant, re-asking what is new and not forgetting what was in flight |
| Dns.TaskDoneKeepsQueryInv | src/dns.rs:290-332 | a finished query keeps it, whether it answers, fails and is queued again, or belongs to a hostname that is gone |
| Dns.TicksKeepQueryInv | src/dns.rs:194-287 | refresh and query ticks keep it |
| DnsActor.Resolver.SetHostnames | src/dns.rs:109-129 | the in-place update drops unregistered hostnames and their queued queries, adds the new ones due at once, and marks a change exactly when the key sets differ |
| DnsActor.Resolver.RecordIp | src/dns.rs:132-143 | renews one address with the larger of its TTL and the floor; marks a change only for a new address; ignores unknown hostnames |
| DnsActor.Resolver.HandleResponse | src/dns.rs:307-332 | recording the answers one after the other equals renewing them all at once |
| DnsActor.Resolver.ExpireStale | src/dns.rs:146-159 | removes exactly the addresses whose expiry has come and marks a change exactly when there is one |
| DnsActor.Resolver.TriggerRefresh | src/dns.rs:250-272 | every due non-literal hostname is rescheduled and both its queries are queued unless in flight |
| DnsActor.Resolver.HandleSetHostnames | src/dns.rs:228-244 | registers, records IP literals, refreshes, and always asks for a snapshot |
| DnsActor.Resolver.HandleQueryResult | src/dns.rs:290-304 | ends its task; records, requeues, or drops the result of an unregistered hostname |
| DnsActor.Resolver.EmitSnapshot | src/dns.rs:162-175 | sends the cache's view exactly when something changed and clears the mark |
| DnsActor.Resolver.Turn | src/dns.rs:194-224 | one turn of the loop is the handler of the chosen arm followed by the snapshot |
| DnsCache.KnownIffAlive | src/dns.rs:132-159 | in every run, at any times, an address is in the view exactly when some step recorded it and, since the newest such step, its host stayed registered and every tick came within the record's seconds or within the floor |
| DnsCache.LiteralStaysKnown | src/dns.rs:228-244 | in every run, a registered IP literal is in the view from its newest hostname update until a tick u32::MAX seconds later |
| DnsCache.LiteralHasOneAddress | src/dns.rs:228-244 | in every run, no other address is ever known for an IP literal |
| DnsCache.LiteralsAreNeverAsked | src/dns.rs:250-272 | in every run, no query for an IP literal is queued or in flight |
| DnsTiming.StableAddressNeverExpires | src/dns.rs:132-159 | with ticks on time, answers within the delay bound and a floor of two intervals plus the delay rounded down to whole intervals, an address every answer contains is known whenever no query for it is open and then never expires, in every run |
| DnsTiming.RefreshesOneToTwoIntervalsApart | src/dns.rs:250-272 | in every run and for every TTL floor, two refreshes of a hostname with none between are at least one interval and less than two intervals apart |
| DnsTiming.RefreshNeverOverdue | src/dns.rs:250-272 | in every run less than two intervals have passed since the registration or the latest refresh |
| DnsTiming.EveryRunIsPaced | src/dns.rs:250-272 | in every run and for every TTL floor the next refresh lies after the last tick and at most one interval ahead |
| DnsTiming.EveryRunIsSettled | src/dns.rs:146-159 | with a long enough floor, in every run a known address outlasts every tick that can come before its next answer |
| DnsTiming.ShorterFloorLosesAddress | src/dns.rs:146-159 | for every interval, delay and floor below that bound and for every address its record type can return there is a timed run in which that address is in every answer and expires |
| DnsTiming.NeverLostIffLongEnough | src/dns.rs:132-159 | for every hostname that is no IP literal and every address its record type can return, no run loses the address if and only if the floor is at least two intervals plus the whole intervals in the delay |
| DnsTiming.RecommendedFloorIffFastAnswers | src/config.rs:639-651 | the recommended floor of two intervals never loses an address if and only if answers take less than one interval |
| OrchActor.RetainBounds | src/orch.rs:147-177 | the retain loop keeps, in order, the connections whose channel is open and whose endpoint and address are still current |
| OrchActor.Orchestrator.Prune | src/orch.rs:147-184 | drops closed and outdated connections and the dial state of unresolved addresses, and reports exactly whether the preferred sender changed |
| OrchActor.Orchestrator.TryConnect | src/orch.rs:192-277 | starts one dial for each resolved address that is neither connected, in flight nor in backoff, and marks it in flight |
| OrchActor.Orchestrator.UpdateRouting | src/orch.rs:416-449 | builds the table of the current configurations and preferred senders, sends it exactly when it can be built, and tells the route synchroniser all allowed networks either way |
| OrchActor.Orchestrator.Reconcile | src/orch.rs:718-733 | prunes and connects every peer and rebuilds routing exactly when some preferred sender changed |
| OrchActor.Orchestrator.HandleDnsSnapshot | src/orch.rs:874-896 | replaces every peer's resolved addresses by the snapshot's, then prunes, connects, rebuilds routing and accepted sources |
| OrchActor.Orchestrator.UpdateBound | src/orch.rs:902-932 | adds a reported connection to its peer, clears the dial state of its address, prunes, and rebuilds routing when the connection is the first or the preferred sender changed |
| OrchActor.Orchestrator.HandleDialFailed | src/orch.rs:938-963 | records the failure in the dial state that still exists |
| OrchActor.Orchestrator.HandlePostConfig | src/orch.rs:764-790 | reports errors and changes nothing, or installs every posted peer over the existing ones; no errors exactly when the merged map is valid, in whatever order it was listed |
| Orch.LastDefinitionWins | src/orch.rs:764-777 | an id posted more than once is merged with its last definition |
| OrchActor.Orchestrator.HandleDeleteConfig | src/orch.rs:793-803 | removes the named peers and sends the rest on |
| OrchActor.Orchestrator.HandleEvent | src/orch.rs:806-869 | dispatches each event to the handler that computes the specified next state |
| ControlPlane.AgreementAtQuiescence | src/orch.rs:358-409 | in every interleaving, once no hostname update and no snapshot is queued, the resolver tracks exactly the current hostnames and each peer's resolved addresses are the resolver's live ones |
| ControlPlane.SourcesAtQuiescence | src/orch.rs:358-378 | in every run, once nothing is queued, an address is an accepted source exactly when the resolver knows it for the host of some BareUDP peer |
| ControlPlane.HostsAtQuiescence | src/orch.rs:380-409 | in every run, once nothing is queued, the resolver tracks exactly the hosts of the endpoints, for HTTP/3 without the brackets around them, and each such peer has exactly the addresses known for its host |
| ControlPlane.NoEndpointNoAddress | src/orch.rs:874-932 | in every run, once nothing is queued, an HTTP/3 peer without endpoint has no address |
| ControlPlane.RunKeepsAgreement | src/orch.rs:806-896 | the invariant behind it holds in every reachable state: the newest hostname update in flight, or else the resolver, has the current hostnames, and the newest snapshot in flight, or else the peers, has the resolver's view |
| ControlPlane.RoutingFreshOrQueued | src/orch.rs:416-449 | after every step the newest routing build read the current configurations and preferred senders, or a hostname update or snapshot that will rebuild it is queued; tokens are always current and the peers always valid |
| ControlPlane.OnlyEditsMakeRoutingStale | src/orch.rs:764-803 | a step that makes routing stale is a configuration edit and sends the new hostnames to the resolver |
| Progress.TurnsAreBounded | src/orch.rs:625-643 | over any stretch of any run, the messages the two actors take and the work left at its end are at most the work at its start plus what arrived: three for an API edit, one for any other event |
| Progress.EnoughTurnsSettle | src/orch.rs:625-643 | once arrivals stop, as many turns as there was work leave nothing queued, whatever ticks, closes and time pass between them |
| Progress.EveryRunSettles | src/dns.rs:194-224 | every run can be continued to quiescence by turns of the two actors alone, with no time passing and no more turns than there is work |
| ControlPlane.PostInstallsWhatItValidated | src/orch.rs:764-790 | a POST leaves exactly the merged map it validated, and tells both actors, or changes nothing; valid peers stay valid either way |
| ControlPlane.DeleteKeepsRules | src/orch.rs:793-803 | a DELETE keeps the peers that are left valid and unchanged |
| Connections.PruneKeepsLive | src/orch.rs:147-184 | pruning keeps exactly the connections whose channel is open and that are inbound or lead to the configured endpoint at a resolved address |
| Connections.ConnectionsCurrentAtQuiescence | src/orch.rs:874-932 | in every interleaving, once no hostname update and no snapshot is queued, every outbound connection leads to its peer's configured endpoint, port included, at a resolved address, and routing sends to exactly the peers with a connection, through the oldest one |
| Connections.OldestStaysWhileLive | src/orch.rs:147-184 | in every run, a peer's oldest connection stays its oldest as long as it is open and current, whatever connects beside it |
| Connections.ReconcileRoutesAroundClosed | src/orch.rs:718-733 | a reconcile from fresh routing leaves routing fresh and without any sender that was closed |
| Dials.EveryMarkHasADial | src/orch.rs:192-313 | in every reachable state dial state exists only for resolved addresses and each in-flight mark has a running dial or an undelivered report |
| Dials.StepIsKeyStep | src/orch.rs:147-313 | seen through one address, every step of the whole system resolves, forgets, marks, fails or connects it, or leaves it alone |
| Dials.PassLeavesNothingOut | src/orch.rs:192-277 | after a prune-and-connect pass every resolved address is connected, in flight or in backoff |
| Dials.PassDialsAsNeeded | src/orch.rs:192-277 | a pass starts one dial, at the peer's configured endpoint, exactly for each address that is resolved, has no open and current connection, and has no dial running or held back |
| Dials.ExclusiveIffNothingStale | src/orch.rs:147-184 | when an address becomes resolved its dials are exclusive exactly when none was outstanding; otherwise a new dial overlaps at once |
| Dials.AtMostOneDial | src/orch.rs:192-313 | while an address that had no outstanding dial stays resolved, at most one dial is outstanding, exactly when it is marked in flight |
| Dials.DialsAreSpaced | src/orch.rs:204-235 | during such a stay the dial after n failures starts no earlier than the sum of the first n delays after the stay began |
| Dials.NextDialWaits | src/orch.rs:204-235 | the next dial after a failure starts no earlier than the matching delay later and keeps the failure count |
| Dials.NextDialComes | src/orch.rs:204-235 | a pass at or after the failure time plus the capped doubled delay dials a still resolved, unconnected address again |
| Dials.DelaysGrowWithinBounds | src/config.rs:653-661 | for validated tuning the delays are min(max, min * 2^min(k, 30)), start at the minimum, never shrink and stay within the bounds |
| Flapping.OverlapHappens | src/orch.rs:764-803 | for every valid configuration with a peer behind a DNS name, every tuning, address and positive number n there is a run in which no time passes and that ends with n dials for that address outstanding |
| Flapping.OverlapExample | src/orch.rs:186-277 | one HTTP/3 peer with an endpoint is such a configuration, here with two dials |
| Downstream.RouterHasCurrentTableIffUndisputed | src/orch.rs:416-435 | in every run, once nothing is queued for the resolver, the orchestrator or the router, the router's table is the one the current peers and senders give if and only if no prefix is disputed |
| Downstream.DisputeFreezesTable | src/orch.rs:416-435 | in every run, over any stretch whose states are all disputed, the router's inbox only loses tables from its front and its newest table stays the same |
| Downstream.ListenerHasCurrentTokens | src/orch.rs:380-398 | in every run, once its inbox is empty, the listener has exactly the tokens of the configured HTTP/3 peers |
| Disputes.AcceptedPostLeavesOldTable | src/orch.rs:764-790 | for any two valid HTTP/3 peers that dial in and share a network there is a run, whose inbound connections all carry a token the listener has, in which the second is posted and connects; nothing is queued at its end, yet the router has the table of the first alone, which is not the one the current peers give |
| Disputes.RivalsExist | src/config.rs:748-801 | such peers pass validation: any two distinct tokens and any network give a pair |
| Forwarding.PacketsReachTheirPeer | src/router.rs:425-516 | in every run, once nothing is queued and no prefix is served by two peers, a packet goes to the oldest connection of the peer serving the longest prefix claimed for the destination in its header, decremented, or back to the TUN when its hop count runs out; to the TUN when only a local address claims that prefix; to the no-route drop exactly when nothing claims it; to the malformed drop exactly when it has no IPv4 or IPv6 header |
| Forwarding.LaidOutPacketsReachTheirPeer | src/router.rs:425-516 | the same for a packet written out from header fields, source, destination and rest, by the address put in as destination |
| Layout.ExtractsDestination | src/router.rs:105-125 | the destination read from a packet is an address exactly when the packet is laid out with it by RFC 791 or RFC 8200, and nothing is read exactly when there is no such layout |
| Layout.ExtractsWhatWasPut | src/router.rs:105-125 | writing a destination into a header and reading it gives it back, whatever the source and the other fields |
| Forwarding.MadeRoutes | src/router.rs:212-257 | the table routes exactly the claimed prefixes, served ones to their peer's sender and the others to the TUN |
| Auth.FirstMatchFinds | src/auth.rs:65-87 | the scan returns a pair carrying the token, or fails exactly when no pair does |
| Auth.AuthenticatesExactly | src/auth.rs:65-87 | with distinct non-empty tokens, a header authenticates as a peer exactly when it is that peer's bearer header, whatever the scan order |
| Auth.RefusalsSayWhy | src/auth.rs:65-87 | each refusal exactly in its case: no header, not a Bearer header, nothing after Bearer, a token nobody has |
| Auth.PeersAuthenticateAsThemselves | src/auth.rs:49-87 | in every run with API edits, once the listener has received what was sent to it, a header authenticates as id exactly when id is a configured HTTP/3 peer and the header carries its token |
| Ttl.UpdatedCheck | src/router.rs:66-81 | the folded sum is congruent to the old checksum plus 0x100 modulo 0xFFFF and never 0xFFFF |
| Ttl.DecrementTtl | src/router.rs:53-100 | edits the packet in place: TTL and checksum for IPv4, hop limit for IPv6, nothing at zero or when malformed; returns the value before |
| Ttl.ValidChecksumIsFromScratch | src/router.rs:53-86 | a checksum below 0xFFFF that makes a header valid is the one computed from scratch (RFC 1071) |
| Ttl.HopKeepsChecksum | src/router.rs:53-86 | one hop keeps a valid header valid and an invalid one invalid, leaves the from-scratch checksum on a valid one whatever the options and the incoming checksum, and changes no other byte |
| Ttl.HopsKeepChecksum | src/router.rs:53-86 | the same for any number of hops the TTL allows |
| Ttl.HopLowersHopLimit | src/router.rs:53-86 | a hop of an IPv6 packet lowers the byte at 7 by one unless it is zero and changes no other byte |
| Ttl.HopsLowerHopLimit | src/router.rs:53-86 | n hops lower it by n and change no other byte |
| Routing.LookupIsLongestMatch | src/router.rs:283-292 | lookup returns the entry of the unique longest prefix that contains the address, or none exactly when no prefix does |
| Routing.RoutingTable.Insert | src/router.rs:264-280 | inserts, ignores a repeat by the same peer, or refuses and changes nothing |
| Routing.ErrorNamesConflict | src/router.rs:264-280 | a refused table names the first claim that could not be inserted and the earlier peer whose claim has the same prefix |
| Routing.RoutingTable.Make | src/router.rs:212-257 | builds the table of all claims and local host routes or fails at the first conflict |
| Routing.InsertedAllFacts | src/router.rs:264-280 | inserting one after the other succeeds exactly when no prefix is claimed for two peers, and then the table is the set of claims |
| Routing.MadeFacts | src/router.rs:212-257 | fails exactly when two peers with channels share a prefix; on success each owned prefix leads to its owner's channel, each other local host prefix to the TUN, and there is nothing else |
| Routing.PeerOrderIsIrrelevant | src/router.rs:212-257 | outcome and table do not depend on the order of the peers |
| Routing.LocalAddressesStayLocal | src/router.rs:241-254 | a local TUN address resolves to the TUN unless a peer owns that exact host prefix |
| Metrics.AddTwice | src/metrics.rs:134-138 | saturating recording in two steps equals recording the sum once |
| Metrics.Record | src/metrics.rs:134-138 | adds one batch, the packets and the bytes, saturating at 64 bits |
| Metrics.Counters.RecordSuccess | src/metrics.rs:200-202 | only the success counters grow |
| Metrics.Counters.RecordDrop | src/metrics.rs:207-210 | the total and the reason's counters grow alike |
| Metrics.Counters.SendAndRecord | src/metrics.rs:221-241 | counts a success when the channel takes the batch and a closed-channel drop otherwise, and a wait exactly when the channel was full and took the batch in the end |
| Ingress.DestinationImpliesTtl | src/router.rs:105-125 | a packet has a destination exactly when it has a TTL, so the malformed-after-extract branch is never taken |
| Ingress.SplitGroup | src/router.rs:477-493 | decrements every packet of a group and separates, in order, those that live on from those that expired |
| Ingress.GroupEnd | src/router.rs:441-448 | finds the end of the longest run of packets with the same destination |
| Ingress.HandleIngressBatch | src/router.rs:425-516 | drains the batch group by group, offering each group to its outlet and counting it, exactly as the specified log |
| Ingress.BatchRefinesPackets | src/router.rs:425-516 | for every batch, table and channel behaviour, each outlet is offered, in order, exactly what routing every packet alone would send there |
| Ingress.OpenChannelsReceiveAll | src/router.rs:425-516 | when channels neither open nor close during the batch, each open channel receives exactly its share in order and a closed one nothing |
| Accounting.BatchAccounting | src/router.rs:425-516 | whatever the channels do, total and per-reason counters grow by exactly the packets and bytes of the log; every packet counts once, and an expired one a closed TUN refuses twice |
| Accounting.LogCountsBatch | src/router.rs:425-516 | however packets are chosen by outlet and expiry, the handler's log holds as many of them as routing each packet alone |
| Accounting.CountersFromBatch | src/router.rs:425-516 | when channels neither open nor close, every counter grows by the packets that routing each alone assigns to it, and the packets counted twice are those whose TTL runs out, exactly when the TUN channel is closed |
| Accounting.ExpiredCountedTwice | src/router.rs:502-514 | one packet with TTL 1, a default route and a closed TUN: two drops are counted |
| Accounting.CountedOnce | src/router.rs:495-514 | successes plus drops are the packets plus the refused expired ones |
| RouteSync.SplitIsExactAndDisjoint | src/route.rs:283-289 | only a /0 is split, into two /1 halves that share no address and together hold exactly its addresses |
| RouteSync.ExpandAllowedPrefixes | src/route.rs:262-280 | the loop builds exactly the union of the pieces |
| RouteSync.ExpansionKeepsAddresses | src/route.rs:262-280 | an address is covered after the expansion exactly when it was before |
| RouteSync.DesiredCoversAllowed | src/route.rs:185-189 | every allowed address lies in a desired route or in a TUN prefix, and desired routes hold only allowed addresses |
| RouteSync.DesiredReachesBeyond | src/route.rs:185-189 | the desired networks are exactly the expanded ones with, for every TUN network, an address outside it |
| RouteSync.KernelRoutesBySense | src/route.rs:197-211 | the protected networks by their members: for each TUN address its network without host bits and the address alone, for IPv4 up to 30 bits also the member with all host bits zero and the one with all host bits one, and 255.255.255.255 |
| RouteSync.KernelRangeIsPrefix | src/route.rs:304-312 | the IPv6 kernel test depends on the prefix bits alone, missing ones read as zero |
| RouteSync.KernelRangeByBytes | src/route.rs:304-312 | the test on the first two bytes of the network: 0xfe followed by bits 10, or 0xff |
| RouteSync.WiderThanLinkLocal | src/route.rs:304-312 | fe80::/9 is protected although it holds addresses outside fe80::/10 |
| RouteSync.DeleteStale | src/route.rs:213-238 | deletes only TUN routes that are neither wanted nor protected, all of them when deletes succeed, none when there are none |
| RouteSync.AddMissing | src/route.rs:240-251 | adds only wanted TUN routes, all missing ones when adds succeed, in any order |
| RouteSync.SyncTunRoutes | src/route.rs:172-254 | with failures anywhere, other interfaces' routes, wanted TUN routes and those the system keeps, told by their members, survive; without failures the TUN has exactly the wanted routes and the protected ones it had, so every other IPv4 route is gone; a table in sync costs no operation; a failed lookup or listing changes nothing |
| RouteSync.SyncAgain | src/route.rs:172-254 | repeating a synchronisation whose operations all succeeded performs none |
| RouteRank.PrecedesIsStrictOrder | src/bind.rs:510-514 | the sort key with listing order on ties is a strict total order on matches |
| RouteRank.SortStable | src/bind.rs:510-514 | the sorted matches are the matches, each once, in that order |
| RouteRank.Dedupe | src/bind.rs:516-522 | keeps the first occurrence of every interface other than the TUN, in order, each once |
| RouteRank.MatchingRouteIndexes | src/bind.rs:504-523 | returns every non-TUN interface with a route to the target, each once, ordered by its earliest route: longer prefix, table 254, lower metric with none as zero, place in the listing |
| RouteRank.RankingOfRoutes | src/bind.rs:504-555 | a ranking of the extracted matches is a ranking of the listed routes by their own fields |
| RouteRank.RankingIsUnique | src/bind.rs:490-499 | those three clauses determine the result |
| Datagram.DecodeInvertsEncode | src/h3session.rs:268-291 | decoding an encoded Quarter Stream ID gives it back with its length, whatever follows (section 16 of RFC 9000) |
| Datagram.EncodingIsShortest | src/h3session.rs:268-291 | the encoding takes the fewest of 1, 2, 4 and 8 bytes that hold the value beside two tag bits |
| Datagram.EncodingExamples | src/h3session.rs:268-291 | two examples of section A.1 of RFC 9000 encode as given there |
| Datagram.CanonicalIsEncoding | src/h3session.rs:281-291 | a value decoded from as many bytes as its shortest encoding was decoded from that encoding |
| Datagram.TagIsRange | src/h3session.rs:281-291 | the two tag bits announce the length exactly when the number lies in the range of that length |
| Datagram.PacketBuf.AddPrefix | src/h3session.rs:241-243 | writes the prefix into the headroom when it fits and otherwise changes nothing |
| Datagram.FramedIffPrefixed | src/h3session.rs:245-263 | the checks of strip accept exactly the codec's own prefix followed by a payload that is not empty |
| Datagram.OtherStreamsRejected | src/h3session.rs:250-252 | a frame of one Quarter Stream ID is never accepted for another |
| Datagram.CodecsDiffer | src/h3session.rs:227-235 | for all 64-bit stream IDs codecs are equal exactly when the Quarter Stream IDs are, and the prefix fits the headroom |
| Datagram.PrefixNamesStream | src/h3session.rs:227-235 | what a codec sends decodes to the stream ID divided by four, followed by a zero byte and the packet |
| Datagram.Prepend | src/h3session.rs:241-243 | succeeds exactly when the headroom holds the prefix, always with the reserved headroom; otherwise at most the Context ID was written |
| Datagram.Strip | src/h3session.rs:245-263 | removes the prefix exactly from datagrams that carry it before a payload and leaves every other buffer unchanged |
| Datagram.RoundTrip | src/h3session.rs:241-263 | prepending and stripping gives the payload back, and fails exactly on an empty one |
| UdpBatch.ChunksJoin | src/udp.rs:125-131 | cutting loses no byte |
| UdpBatch.CutInvertsJoin | src/udp.rs:125-131 | cutting joined packets at their size gives the packets back, the last one possibly shorter |
| UdpBatch.CollectRun | src/udp.rs:229-238 | joins a longest run of equal packets under the segment limit |
| UdpBatch.RunFits | src/udp.rs:209-238 | a transmit fits the payload limit unless it is a single packet, is a single packet without offload, and cuts back into its packets |
| UdpBatch.SegmentsAsManyAsFit | src/udp.rs:209-238 | exactly one packet, or as many as offload and system allow and a datagram of 65535 bytes with its headers holds, may be joined |
| UdpBatch.SendBatch | src/udp.rs:201-281 | terminates; attempts follow one another from the start of the batch under the limit of their moment until all is sent or one fails, and the outcome is the last attempt's |
| UdpBatch.TransmitsAreTheBatch | src/udp.rs:214-281 | the first n transmits, cut at their segment size, are the batch up to the n-th cut: all of it, or a prefix after a failure |
| UdpBatch.ReceiveInvertsSend | src/udp.rs:125-131 | a transmit received with its segment size as stride yields the packets it joined |
| UdpBatch.ReceiveKeepsBytes | src/udp.rs:125-131 | whatever the stride, received packets are not empty, all but the last have the stride, and together they are the bytes received |
| UdpBatch.DrainsBeforeStopping | src/udp.rs:187-199 | in every run without a fatal error, handled and queued batches are the accepted ones in order, and the loop ends only when all are handled |
| UdpBatch.ClosingLoopEnds | src/udp.rs:187-199 | a loop asked to stop, or left without senders, has handled every accepted batch and ended once its turns outnumber the batches waiting |
| Engine.Loop.Select | src/h3engine.rs:372-461 | each branch of the select, under its guard, has the specified effect on slots and channels |
| Engine.Loop.Flush | src/h3engine.rs:463-475 | output is offered only when nothing is pending, and kept when the channel is full |
| Engine.Loop.RunTurn | src/h3engine.rs:368-481 | one trip round the loop, including every way out of it |
| Engine.NoBatchLost | src/h3engine.rs:368-481 | after every turn of every run and in both directions, the batches taken, the one waiting and the one just refused are the batches produced, in order; a refusal ends the loop and never meets a waiting batch |
| Engine.NothingLostIffNothingLeft | src/h3engine.rs:368-481 | a direction has lost nothing if and only if its slot is empty and its latest offer was not refused |
| Engine.ClosingFollowsEverythingIffNothingLeft | src/h3engine.rs:483-489 | after the loop the UDP channel has taken everything produced and then the closing batch if and only if the loop ended with nothing waiting or refused |
| Engine.WaitingBatchIsDropped | src/h3engine.rs:483-489 | a run in which a batch waits for a full channel, Stop arrives, and only the closing batch is sent |
| Links.PromisesLast | src/actor.rs:506-537 | no step of any actor or call withdraws a Stop that is due |
| Links.RunKeepsInv | src/actor.rs:68-75 | the protocol invariant holds in every reachable state |
| Links.ReportedStopsLinked | src/actor.rs:68-75 | in every interleaving, once link has returned and one of the two actors is reported, Stop has been sent to the other |
| Links.StopHasReason | src/actor.rs:68-75 | in every interleaving, an actor is sent Stop only if a link call joins it with an actor that is past its end or is a mailbox |
| Links.RunningActorsStopNobody | src/actor.rs:68-75 | as long as every actor is open, linking stops nobody |
| Links.GroupFallsTogether | src/actor.rs:506-537 | when a run has gone quiet, every actor connected by links, through any others, to one that ended is reported too, if actors end on Stop |
| Links.WorkBoundsRuns | src/actor.rs:506-537 | without new link calls a run takes at most a number of steps fixed by its state, so it goes quiet |

## Left out

- QUIC, TLS and HTTP/3 internals, the dialer and listener handshakes: a dial is a task that reports success or failure.
- Sockets, interface binding, TUN I/O and buffer pools; the system route table is a list whose operations may fail.
- The management API server, metrics text and metrics events, which leave the modelled state alone.
- URI and YAML parsing, and reading a hostname as an IP literal, which is a parameter.
- DNS messages on the wire: a query ends with records or fails; record TTLs are a map from address to seconds.
- Runtimes, thread shutdown and certificate reload.
- Egress batches from the TUN (`handle_output_batch`), which route by their first packet without a TTL change.
- The prefix trie is a map from prefixes without host bits, and comparing MACs of tokens is comparing tokens.
- Clocks are monotone, dial tasks always report, and BareUDP and HTTP/3 listeners are always present as receivers.
- Hash maps and sets are visited in an arbitrary order; sorting is a stable insertion sort in place of the library's.
- RouteRank.MatchingRouteIndexes: the Linux variant, where tables and metrics are known.
- RouteSync.SyncTunRoutes: the table stores prefixes as given; a system that refuses a prefix with host bits counts as a failed add.
- UdpBatch.SendBatch: packets are not empty, which the source asserts; transient errors have been retried when an outcome is known.
- DnsTiming.StableAddressNeverExpires: ticks are exactly one interval apart and answers arrive within a fixed delay.
- Engine.NoBatchLost: what a batch contains and how long it waits are not modelled.
- Links.RunKeepsInv: all actors of a run exist from its start; spawning and the registration queue are not modelled.
- Links.GroupFallsTogether: that a stopped actor ends is an assumption about actor code, stated as part of being quiet.
