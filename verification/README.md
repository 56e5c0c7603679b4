# snocat in Dafny

A model of the parts of snocat whose correctness is hardest to see from the code, with proofs about every input or
every run. `dafny verify dfyconfig.toml` checks the whole project.

| files | component |
|---|---|
| `Prelude` | options, results, runs of a state machine |
| `RedisRegistry`, `RedisSafety`, `RedisCalls`, `RedisExpiry`, `RedisTiming`, `RedisMargin` | the Redis-backed tunnel registry: any number of registries, calls and renewal tasks, interleaved one Redis command at a time, with lost commands and replies, failures, outside deletions and the passing of time |
| `Daemon`, `DaemonSafety`, `DaemonHistory`, `TunnelIds` | the daemon's peer tables and tunnel lifecycle, one map operation or drop at a time |
| `Negotiation`, `NegotiationSafety`, `NegotiationAlone` | address negotiation between a client and a server over bounded byte channels, and each side against arbitrary input |
| `RouteAddress`, `Utf8`, `Framing` | address text, its bytes, and length-prefixed frames |
| `PortAllocator` | the port range allocator and its handles |
| `TunnelCache` | the write-through cache over an in-memory or a rid-based registry |
| `Dropkick` | the one-shot drop callback behind a shared mutex |
| `QuinnControl` | close reason, cancellation tokens and authentication latch of a QUIC tunnel |
| `ProxyTarget` | TCP proxy targets as route addresses and as text |
| `Tracked` | tracked futures and the published count of outstanding ones |

Concurrent code is a state machine: a state, an `Action` for each atomic operation of a task, a call or the
environment, `Enabled` and `Do`, and theorems over every sequence of states linked by such steps. Sequential loops and
objects are methods and classes, specified by the same functions.

What the proofs brought out about the code, all of it followed as written:

- Renewal needs more slack than one round's latency, and not only of the registry itself. A renewal round extends the
  reference of its name whoever holds it (`redis.rs:199-207`), so every registry that may register the name counts:
  lookups of the last holder can never miss if and only if its renewal interval plus *twice* the latency is below its
  entry lifetime and below the reference lifetime of every registry, in whole seconds (`FoundExactly`). With any less
  there is a prompt, undisturbed run in which a key of a live registration is gone (`MarginIsNecessary`,
  `SharedNameMargin`, `NeighbourLosesName`), and renewal never puts a missing reference back
  (`OnlyRegistrationRestoresReference`).
- Deleting an entry, by GETDEL or by GET and DEL, removes it for good exactly when its renewal task is not inside a
  round; a round in flight can write the entry again (`DeletionFinalUnlessMidRound`).
- `write_frame` casts the length to 32 bits, so a frame reads back exactly when its payload is shorter than 2^32 bytes
  (`ReadFrameExact`).
- Over a rid-based target the cache answers the deregistration of an identifier whose name has been registered anew
  and is cached with the newer record (`OvertakenAnswers`, `StaleIdentifierAnswers`); every other answer is the
  target's own (`CacheRefinesTarget`).
- A wrong or short magic that is already there ends the handshake before anything of the own hello is written, because
  the reading half of the join is polled first (`ExchangeMagic`).
- A tunnel's join task listens to a token whose only owning handle the constructor drops on return
  (`quinn_tunnel.rs:148-165`), and the uplink's own token is a third one (line 281). So a failed downlink alone closes
  the tunnel and a failed uplink never does, unlike the comment at lines 141-145 says (`ClosesExactlyOnCause`).
- IPv6 targets lose flow label and scope id in their text form; a bare port comes back as IPv4 loopback, not as the
  IPv6 preference the comment at `proxy_tcp.rs:374-375` speaks of (`AddressRoundTrip`). Segments after the fourth are
  ignored, signs and leading zeros of ports are lost (`AddressKeptExactly`).

## Model

| member | source | states |
|---|---|---|
| `RedisRegistry.KeyTextInjective` | snocat/src/common/protocol/tunnel/registry/redis.rs:126-132 | reference keys and entry keys never collide, and each family is injective |
| `RedisRegistry.ConfigMeans` | snocat/src/common/protocol/tunnel/registry/redis.rs:175-186 | lifetimes are the configured ones in whole seconds, rounded down, up to a signed 64-bit number; the sleep is the least that is neither below the renewal rate nor below a second |
| `RedisSafety.DoKeeps` | snocat/src/common/protocol/tunnel/registry/redis.rs:134-485 | every command of every call and renewal task keeps the invariant: each stored entry is the record its rid was registered with and expires within its lifetime, each stored reference is the last one written, unfinished registrations are nobody else's; history only grows |
| `RedisSafety.CallEffectOk` | snocat/src/common/protocol/tunnel/registry/redis.rs:350-441 | every command a call issues writes its own registration's record, name and lifetimes, from the copies the call carries |
| `RedisSafety.TaskEffectOk` | snocat/src/common/protocol/tunnel/registry/redis.rs:163-226 | every command of a renewal task renews the name it was registered for and rewrites exactly the record registered, from the copies it was given |
| `RedisSafety.LookupReturnsLastWriter` | snocat/src/common/protocol/tunnel/registry/redis.rs:323-348 | in every run, a record returned by a lookup of a name was registered under that name by the registration whose reference write was the latest at the very step in which this lookup read the reference key |
| `RedisSafety.EntryNeverChanges` | snocat/src/common/protocol/tunnel/registry/redis.rs:386-410 | in every run, what is stored under a rid is the same whenever it is present |
| `RedisSafety.DeletesOnlyOwnEntries` | snocat/src/common/protocol/tunnel/registry/redis.rs:229-252 | an entry removed by a step of a call was created by the registry making the call, and its renewal is already cancelled |
| `RedisSafety.IdentifierDeregistrationSpares` | snocat/src/common/protocol/tunnel/registry/redis.rs:467-485 | every step of deregistering an identifier leaves all reference keys, all other entries and all renewal tasks alone, and all entries if the identifier is another registry's; the record returned is that identifier's |
| `RedisSafety.CreateEntry` | snocat/src/common/protocol/tunnel/registry/redis.rs:381-412 | the bounded retry: the entry is live under the first rid whose SET is accepted, the call fails after exactly ten refusals, and nothing but entries of drawn rids changes |
| `RedisCalls.CallsEnd` | snocat/src/common/protocol/tunnel/registry/redis.rs:323-485 | every own step brings a call closer to its end, and of its own accord it fails only after ten refused attempts or for a reference lifetime the server refuses |
| `RedisCalls.CallsCanGoOn` | snocat/src/common/protocol/tunnel/registry/redis.rs:323-485 | any registry can start any call, stale identifiers included, and no unfinished call is ever stuck |
| `RedisCalls.DeregistrationRemoves` | snocat/src/common/protocol/tunnel/registry/redis.rs:443-465 | in every run, a deregistration by name that returned read the reference and deleted it; finding none it answers nothing; otherwise it went on with the rid read, answers what it then read under that rid, and if the registration was its own, that is cancelled for good and the call deleted the entry |
| `RedisCalls.IdentifierDeregistrationRemoves` | snocat/src/common/protocol/tunnel/registry/redis.rs:467-485 | in every run, a deregistration by identifier that returned answers what it read under the rid; if the registration was its own, that is cancelled for good and the call deleted the entry |
| `RedisCalls.RegistrationEstablishes` | snocat/src/common/protocol/tunnel/registry/redis.rs:375-438 | in every run, a registration that returned created an entry with its record under a new rid, then made the name refer to it, then started its renewal and tracks it |
| `RedisCalls.LookupTrace` | snocat/src/common/protocol/tunnel/registry/redis.rs:323-348 | in every run, a lookup that is done answers what it read under the rid it read before; one that returned without found no reference when it looked |
| `RedisExpiry.CancelledRoundRunsOut` | snocat/src/common/protocol/tunnel/registry/redis.rs:189-226 | after cancellation each renewal command uses up the current round, no step starts another, and afterwards no step writes or extends the entry |
| `RedisExpiry.CancelledFinishesRound` | snocat/src/common/protocol/tunnel/registry/redis.rs:189-198 | in every run, a cancelled registration stays cancelled and its task only completes the round it is in |
| `RedisExpiry.CancelledEntryExpires` | snocat/src/common/protocol/tunnel/registry/redis.rs:134-226 | in every run, from one entry lifetime after that round on the rid key is absent for good |
| `RedisExpiry.DroppedEntryExpires` | snocat/src/common/protocol/tunnel/registry/redis.rs:134-161 | in every run, dropping a registry cancels all it registered, dropping the last identifier that registration, and the entry is absent for good one lifetime after the round it was in |
| `RedisExpiry.CancelledTaskStops` | snocat/src/common/protocol/tunnel/registry/redis.rs:189-197 | in every run, a cancelled renewal task never waits and every step brings it closer to stopping; a sleeping one stops at once |
| `RedisExpiry.RoundNeedsConnection` | snocat/src/common/protocol/tunnel/registry/redis.rs:198 | without a connection the task ends and writes nothing, with one the round goes on |
| `RedisExpiry.SleepsForItsRate` | snocat/src/common/protocol/tunnel/registry/redis.rs:180-197 | in every run, an uncancelled task sleeps for the configured rate or a second, whichever is longer, after being started and after every round, then wakes, and only then |
| `RedisExpiry.DeletionFinalUnlessMidRound` | snocat/src/common/protocol/tunnel/registry/redis.rs:98-252 | after any deletion of an entry by a call, by GETDEL or by the DEL of the fallback, some run brings it back if and only if its renewal task was inside a round |
| `RedisTiming.RenewedNeverExpires` | snocat/src/common/protocol/tunnel/registry/redis.rs:175-226 | in every prompt, undisturbed run in which interval plus two latencies are below the entry lifetime and below the reference lifetimes of all registrations of the name, an uncancelled registration's entry is live, and so is its reference until overwritten, so a lookup of the current holder finds its record |
| `RedisTiming.OnlyRegistrationRestoresReference` | snocat/src/common/protocol/tunnel/registry/redis.rs:199-225 | no renewal step, and no step but the reference write of a registration of that name, makes a missing reference present again |
| `RedisMargin.MarginSuffices` | snocat/src/common/protocol/tunnel/registry/redis.rs:175-226 | for every set of registries, interval plus two latencies below the own entry lifetime and every registry's reference lifetime make every prompt, undisturbed run keep both keys of the last holder |
| `RedisMargin.MarginIsNecessary` | snocat/src/common/protocol/tunnel/registry/redis.rs:175-187 | for every configuration and latency there is a prompt, undisturbed run in which each of the two keys is alive if and only if interval plus two latencies are below its lifetime |
| `RedisMargin.SharedNameMargin` | snocat/src/common/protocol/tunnel/registry/redis.rs:199-207 | for every two configurations and latency there is a prompt, undisturbed run in which the last holder's reference is alive if and only if its interval plus two latencies are below the other registry's reference lifetime |
| `RedisMargin.NeighbourLosesName` | snocat/src/common/protocol/tunnel/registry/redis.rs:199-207 | a concrete pair of configurations, the holder's own lifetimes ample, in which the reference is gone |
| `RedisMargin.FoundExactly` | snocat/src/common/protocol/tunnel/registry/redis.rs:163-226 | for every set of registries: the last holder is found in every prompt, undisturbed run if and only if interval plus two latencies are below its entry lifetime and below every registry's reference lifetime |
| `TunnelIds.IdsCollide` | snocat/src/common/protocol/tunnel/id.rs:377-380 | two calls of the generator get the same identifier if and only if their distance is a multiple of 2^64 |
| `TunnelIds.MonotonicAtomicGenerator.constructor` | snocat/src/common/protocol/tunnel/id.rs:371-375 | the generator starts at the given value, none issued |
| `TunnelIds.MonotonicAtomicGenerator.Next` | snocat/src/common/protocol/tunnel/id.rs:377-380 | hands out the next identifier of the sequence and advances, wrapping at 64 bits |
| `DaemonSafety.StepKeepsInv` | snocat/src/common/daemon/mod.rs:942-1216 | every step of every tunnel keeps the invariant relating phases, holders, both tables, buckets, pending prunes and the event log |
| `DaemonSafety.NoInsertLost` | snocat/src/common/daemon/mod.rs:215-286 | in every run, a tunnel is in the by-id table, and in the bucket currently in use for its name, exactly from its insertion to its own removal step, whatever prunes happen meanwhile |
| `DaemonSafety.TablesAgree` | snocat/src/common/daemon/mod.rs:258-277 | whenever no table operation is half done, the by-name table is exactly the by-id table grouped by name, with no empty bucket |
| `DaemonSafety.MaxByKey` | snocat/src/common/daemon/mod.rs:144-180 | the maximum over an iteration order: a greatest element, the last among equals, none exactly for no elements |
| `DaemonSafety.PeersNamedExact` | snocat/src/common/daemon/mod.rs:102-115 | in every state of every run the bucket in use for a name holds exactly the tunnels of that name between entering it and leaving it |
| `DaemonSafety.FindByComparator` | snocat/src/common/daemon/mod.rs:144-156 | a maximum over all peers still held, in any iteration order |
| `DaemonSafety.FindByNameAndComparator` | snocat/src/common/daemon/mod.rs:159-180 | in every state of every run and any iteration order, a maximum over the tunnels of that name in their bucket; when no table operation is half done, a maximum over the full peer list filtered by name, and the only one if keys are distinct |
| `DaemonSafety.HandledTunnelIsListed` | snocat/src/common/daemon/mod.rs:1032-1059 | in every run, a tunnel with a running request handler is in both peer tables |
| `DaemonSafety.FinalisersAtMostOnce` | snocat/src/common/daemon/mod.rs:303-353 | in every run, at most one finaliser of a tunnel has fired, its disconnected event at most once and only after the deregistering one, never before an authenticated event |
| `DaemonSafety.AdmittedWasListed` | snocat/src/common/daemon/mod.rs:993-1022 | in every run, a tunnel past registration was listed by id at some earlier moment |
| `DaemonSafety.ListedStaysAdmitted` | snocat/src/common/daemon/mod.rs:993-1022 | in every run, a tunnel once listed by id never counts as unregistered again |
| `DaemonSafety.ExactlyOneFinaliser` | snocat/src/common/daemon/mod.rs:238-353 | in every run, a finished tunnel ran exactly one finaliser: deregistration, with exactly one disconnected event, if it was ever inserted as a peer, otherwise the authentication-failure close with none |
| `DaemonSafety.UnfinishedCanStep` | snocat/src/common/daemon/mod.rs:942-1022 | in every run, a tunnel that is not finished has an enabled step of its own |
| `DaemonHistory.PeersWereAdmitted` | snocat/src/common/daemon/mod.rs:961-982 | in every run, a tunnel in either table was authenticated successfully at an earlier step and then registered successfully |
| `DaemonHistory.RejectedStaysOut` | snocat/src/common/daemon/mod.rs:961-982 | in every run, after a failed authentication or registration a tunnel is in neither table for good, is never announced or deregistered, and finishes with the close finaliser alone |
| `DaemonHistory.OutcomesOpen` | snocat/src/common/daemon/mod.rs:961-982 | authentication, registration and the report may each go either way |
| `DaemonHistory.AuthenticatedEventExact` | snocat/src/common/daemon/mod.rs:1194-1206 | in every run, the authenticated event has fired, exactly once, if and only if the tunnel took the report of its authentication |
| `DaemonHistory.HoldersExact` | snocat/src/common/daemon/mod.rs:1032-1059 | in every run, the handlers and kept handles of a tunnel are exactly those the steps so far began or took and did not end or give back |
| `DaemonHistory.ServedTunnelIsListed` | snocat/src/common/daemon/mod.rs:1032-1059 | in every run, while a request begun has not ended, or a handle taken from one is kept, the tunnel is in both tables and no finaliser of it has run |
| `DaemonHistory.LifecyclesEnd` | snocat/src/common/daemon/mod.rs:942-1022 | from any moment of any run, winding a tunnel up takes no more steps than it is from its end, and one that cannot go on has it closed or gone |
| `NegotiationSafety.JudgeText` | snocat/src/common/protocol/negotiation.rs:261-293 | the server understands exactly the address the client rendered, and answers as the service registry decides for it |
| `NegotiationSafety.StepKeeps` | snocat/src/common/protocol/negotiation.rs:81-297 | every step keeps, in each direction: read, in flight and yet to send make up exactly the protocol's bytes |
| `NegotiationSafety.StepDecreases` | snocat/src/common/protocol/negotiation.rs:81-297 | every step strictly decreases the work left |
| `NegotiationSafety.NeverStuck` | snocat/src/common/protocol/negotiation.rs:81-297 | while a side is unfinished some step is enabled, for any channel capacity of at least one byte |
| `NegotiationSafety.RunsAreBounded` | snocat/src/common/protocol/negotiation.rs:81-297 | no run is longer than its initial work |
| `NegotiationSafety.NegotiationAgrees` | snocat/src/common/protocol/negotiation.rs:146-297 | every maximal run ends with both sides accepted, with the client's address and the registry's service, or both refused, and no byte left in either channel; an oversized address ends in a violation on one side and an input or output error on the other |
| `NegotiationSafety.AcceptedMeansServing` | snocat/src/common/protocol/negotiation.rs:146-201 | at every moment, an accepted client faces a server already serving its address, with nothing unread ahead of the payload |
| `NegotiationSafety.AsksReads` | snocat/src/common/protocol/negotiation.rs:227-270 | input that starts with a request for an address reads as exactly that address |
| `NegotiationSafety.ReadsAsks` | snocat/src/common/protocol/negotiation.rs:227-270 | input that reads as an address starts with exactly the request for it |
| `NegotiationSafety.ExchangeMagic` | snocat/src/common/protocol/negotiation.rs:101-126 | however the two halves are polled: success exactly for the right magic, with the own hello written in full; otherwise some prefix of it is written, none if the wrong or short magic is there at the first poll |
| `NegotiationSafety.NegotiateService` | snocat/src/common/protocol/negotiation.rs:227-297 | the server on any input whatever and any polling: success exactly on requests for served addresses, refusal exactly on the others, each error told apart; success consumes the request and nothing more; the bytes written are hello and verdict, or a prefix of the hello after a failed magic |
| `NegotiationAlone.ClientAgainstAnyInput` | snocat/src/common/protocol/negotiation.rs:146-201 | in every run of a client against any input, however its writes interleave: accepted, refused, newer version, end of stream and violation each exactly for the inputs that call for it; accepted, it has read nothing beyond |
| `NegotiationAlone.ServerAgainstAnyInput` | snocat/src/common/protocol/negotiation.rs:227-297 | in every run of a server against any input, however its writes interleave: the outcome is the verdict on that input, and serving it has read nothing beyond the request |
| `NegotiationAlone.ServerVerdictUnique` | snocat/src/common/protocol/negotiation.rs:227-297 | no two outcomes fit the same input |
| `Framing.BigEndianInverse` | snocat/src/util/framed.rs:54-60 | four bytes are the encoding of the length they decode to |
| `Framing.FromBigEndianInverse` | snocat/src/util/framed.rs:80-87 | a 32-bit length decodes from its encoding |
| `Framing.ReadFrameExact` | snocat/src/util/framed.rs:49-87 | a frame followed by anything reads back exactly and leaves what follows, if and only if the payload is shorter than 2^32 |
| `Framing.ReadFrameLimited` | snocat/src/util/framed.rs:61-68 | a length limit changes nothing for payloads within it and refuses larger ones after the four length bytes |
| `Framing.ReadFrameInverse` | snocat/src/util/framed.rs:49-78 | whatever reads as a payload was that payload's frame |
| `Framing.CutFrameEnds` | snocat/src/util/framed.rs:49-78 | a frame cut short anywhere yields the unexpected-end error for the part it was cut in, never data |
| `Framing.FramesReadBack` | snocat/src/util/framed.rs:49-87 | any list of payloads written one after another and followed by anything reads back as that list, leaving what follows |
| `Framing.ByteStream.ReadExact` | snocat/src/util/framed.rs:54-77 | fills the buffer from the stream, or fails and uses the stream up |
| `Framing.ByteStream.ReadFrame` | snocat/src/util/framed.rs:49-78 | result and remaining stream are those of the specification |
| `Framing.ByteStream.WriteFrame` | snocat/src/util/framed.rs:80-87 | appends the payload's frame |
| `Utf8.DecodeEncode` | snocat/src/common/protocol/address.rs:127-129 | UTF-8 decoding inverts encoding, for every text (section 3 of RFC 3629) |
| `Utf8.EncodeDecode` | snocat/src/common/protocol/negotiation.rs:261-267 | whatever decodes was the encoding of its result |
| `RouteAddress.ParseRendered` | snocat/src/common/protocol/address.rs:95-125 | parsing inverts rendering, for every segment list |
| `RouteAddress.RenderedParse` | snocat/src/common/protocol/address.rs:176-206 | rendering inverts parsing, for every accepted text |
| `RouteAddress.ParseExact` | snocat/src/common/protocol/address.rs:176-206 | a text is accepted if and only if it is some address's rendering; the prefix error is raised exactly for a missing slash |
| `RouteAddress.ParseConcat` | snocat/src/common/protocol/address.rs:176-206 | concatenated accepted texts parse to concatenated segments |
| `RouteAddress.BoundExact` | snocat/src/common/protocol/address.rs:84-125 | the length bound reserved for rendering is the exact byte length |
| `RouteAddress.Render` | snocat/src/common/protocol/address.rs:100-125 | the rendering loops produce the specified text, within the reserved bound |
| `RouteAddress.FromStr` | snocat/src/common/protocol/address.rs:176-206 | the parsing loop computes the specified result; an accepted text is the rendering of the result, a refused one of no address |
| `RouteAddress.StripSegmentPrefix` | snocat/src/common/protocol/address.rs:66-82 | succeeds exactly for a prefix, with exactly what follows it |
| `PortAllocator.FirstFree` | snocat/src/server/mod.rs:53-58 | the least port of the range not taken, none exactly if all are |
| `PortAllocator.StepKeepsSound` | snocat/src/server/mod.rs:40-110 | every step of allocations, drains and handle drops keeps the allocator sound |
| `PortAllocator.AllocatorSafe` | snocat/src/server/mod.rs:40-143 | in every run, live handles hold distinct ports of the range, the allocated set is the disjoint union of live and marked ports, and no mark is queued twice |
| `PortAllocator.AllocationExact` | snocat/src/server/mod.rs:45-62 | in every run, an allocation yields the least port neither live nor still marked, and fails only if there is none |
| `PortAllocator.DrainedMeansExact` | snocat/src/server/mod.rs:77-90 | in every run, once the queue is drained exactly the live ports are allocated, so no dropped port is lost |
| `PortAllocator.DrainedSound` | snocat/src/server/mod.rs:77-90 | a drain stopped anywhere keeps live handles and frees exactly the ports whose marks it consumed |
| `PortAllocator.PortRangeAllocator.constructor` | snocat/src/server/mod.rs:26-38 | an allocator over the range with nothing allocated or marked |
| `PortAllocator.PortRangeAllocator.CleanupFreedPorts` | snocat/src/server/mod.rs:77-90 | the drain loop consumes exactly the marks available |
| `PortAllocator.PortRangeAllocator.Allocate` | snocat/src/server/mod.rs:40-63 | the least port neither live nor still marked after the drain, or failure if there is none; the allocator stays sound |
| `PortAllocator.PortRangeAllocator.DropHandle` | snocat/src/server/mod.rs:92-143 | frees at once when the lock is free, leaves a mark otherwise; the allocator stays sound |
| `TunnelCache.CacheStepCoherent` | snocat/src/common/protocol/tunnel/registry/cache.rs:67-166 | every operation keeps each cached record equal to the decoded record in the target, and moves the target as without a cache |
| `TunnelCache.CacheHolds` | snocat/src/common/protocol/tunnel/registry/cache.rs:67-166 | what an operation leaves in the cache: what was found or registered is there, what was deregistered is not, and by name it is gone from the target too |
| `TunnelCache.RegisterIssues` | snocat/src/common/protocol/tunnel/registry/redis.rs:375-438 | deregistering by the identifier just handed out answers the record registered; over rids that identifier is current and was never handed out before |
| `TunnelCache.DeregisterRemoves` | snocat/src/common/protocol/tunnel/registry/memory.rs:84-93 | after a deregistration by name the name is gone and the answer is what it held |
| `TunnelCache.DeregisterIdentRemoves` | snocat/src/common/protocol/tunnel/registry/memory.rs:95-101 | after a deregistration by identifier its record is gone and the answer is that record; in memory, whatever the name holds |
| `TunnelCache.CacheStepAnswers` | snocat/src/common/protocol/tunnel/registry/cache.rs:67-166 | every answer is the target's own, unless an identifier is deregistered that a newer, cached registration of its name has overtaken |
| `TunnelCache.OvertakenAnswers` | snocat/src/common/protocol/tunnel/registry/cache.rs:147-166 | in that case the cache answers the current holder's record, the target the identifier's own, and the holder's registration stays and is no longer cached |
| `TunnelCache.CacheRefinesTarget` | snocat/src/common/protocol/tunnel/registry/cache.rs:67-166 | for every sequence of operations: coherence, the same target states, and the target's own answer to every operation except the deregistration of an overtaken identifier |
| `TunnelCache.CacheTransparent` | snocat/src/common/protocol/tunnel/registry/cache.rs:67-166 | over an in-memory target all answers of every sequence equal the target's alone |
| `TunnelCache.StaleIdentifierAnswers` | snocat/src/common/protocol/tunnel/registry/cache.rs:147-166 | a concrete sequence in which the excepted answer differs |
| `TunnelCache.InMemoryTunnelRegistry.LookupRecord` | snocat/src/common/protocol/tunnel/registry/memory.rs:50-66 | finds the record under the name |
| `TunnelCache.InMemoryTunnelRegistry.RegisterRecord` | snocat/src/common/protocol/tunnel/registry/memory.rs:68-82 | replaces the record under the name; the identifier is the name |
| `TunnelCache.InMemoryTunnelRegistry.DeregisterRecord` | snocat/src/common/protocol/tunnel/registry/memory.rs:84-101 | removes and returns the record under the name |
| `TunnelCache.WriteThroughCache.LookupRecord` | snocat/src/common/protocol/tunnel/registry/cache.rs:67-100 | both stores and the answer are those of the specified operation |
| `TunnelCache.WriteThroughCache.RegisterRecord` | snocat/src/common/protocol/tunnel/registry/cache.rs:102-124 | both stores and the answer are those of the specified operation |
| `TunnelCache.WriteThroughCache.DeregisterRecord` | snocat/src/common/protocol/tunnel/registry/cache.rs:126-145 | both stores and the answer are those of the specified operation |
| `TunnelCache.WriteThroughCache.DeregisterIdentifier` | snocat/src/common/protocol/tunnel/registry/cache.rs:147-166 | both stores and the answer are those of the specified operation |
| `Dropkick.OneCallbackKept` | snocat/src/util/dropkick.rs:71-83 | every step keeps the callback in exactly one place: the slot, one agent's hands, run, or returned to a counter-take |
| `Dropkick.ContentNeedsLock` | snocat/src/util/dropkick.rs:239-304 | the content of the slot is touched only by whoever holds the lock, or by a wrapper nobody shares the slot with |
| `Dropkick.AtMostOnce` | snocat/src/util/dropkick.rs:112-121 | in every interleaving the callback has run at most once, at most one counter-take has come back with it, and never both |
| `Dropkick.ExactlyOnce` | snocat/src/util/dropkick.rs:272-304 | in every interleaving, once some wrapper has been dropped or some counter-take has come back and nothing is half done, the callback has run exactly once, or not at all if a counter-take came back with it |
| `Dropkick.DropsFinish` | snocat/src/util/dropkick.rs:213-304 | from any reachable state in which no outside clone holds the lock, no run of drop steps is longer than the work left, and one that cannot go on has every begun drop done and the callback run exactly once, or not at all if a counter-take has it |
| `Dropkick.FinalisingShrinks` | snocat/src/util/dropkick.rs:213-304 | every drop step brings its agent strictly closer to the end and moves no other |
| `QuinnSafety.OneCloseWins` | snocat/src/common/protocol/tunnel/quinn_tunnel.rs:290-328 | in every interleaving a specified reason never becomes unspecified again, and at most one `close` with a specified reason is told it was first, whatever the error hooks store |
| `QuinnSafety.CloseAnswers` | snocat/src/common/protocol/tunnel/quinn_tunnel.rs:311-330 | in every interleaving a close is answered with the reason that stood when it tried to set its own, which it set exactly if there was none; when it has returned the tunnel is closed |
| `QuinnSafety.ClosedIsFinal` | snocat/src/common/protocol/tunnel/quinn_tunnel.rs:464-467 | in every interleaving closing is permanent, closes both halves, and every link, downlink, report or watch started later is refused |
| `QuinnSafety.HalvesDecide` | snocat/src/common/protocol/tunnel/quinn_tunnel.rs:464-467 | in every interleaving a link is turned away exactly if the uplink, a downlink exactly if the downlink was closed when asked for, whether or not the tunnel is |
| `QuinnSafety.AdmittedOutcome` | snocat/src/common/protocol/tunnel/quinn_tunnel.rs:473-549 | an admitted link opens, or its error is the answer, the reason and the end of the uplink; an admitted downlink is granted |
| `QuinnSafety.OneName` | snocat/src/common/protocol/tunnel/quinn_tunnel.rs:331-414 | in every interleaving at most one authentication report succeeds, and every name learnt is that report's |
| `QuinnSafety.LateReportFails` | snocat/src/common/protocol/tunnel/quinn_tunnel.rs:342-356 | in every interleaving a report that has not found the tunnel open under the lock when it closes never succeeds and is answered with the reason |
| `QuinnSafety.WatchAloneOutcome` | snocat/src/common/protocol/tunnel/quinn_tunnel.rs:388-397 | an uninterrupted watch answers the reason of a closed tunnel, or the announced name, and waits exactly if there is neither |
| `QuinnSafety.WaitingWatchOutcome` | snocat/src/common/protocol/tunnel/quinn_tunnel.rs:398-411 | a waiting watch goes on exactly when a name is announced or the tunnel closed, and answers that name or the reason |
| `QuinnSafety.ClosesExactlyOnCause` | snocat/src/common/protocol/tunnel/quinn_tunnel.rs:139-166 | in every interleaving a closed tunnel had a finished `close`, a failed downlink or dropped handles; after any of those it is closed or two steps of the join task close it |
| `QuinnSafety.QuinnTunnel.constructor` | snocat/src/common/protocol/tunnel/quinn_tunnel.rs:267-284 | a tunnel starts open, with no reason and no name |
| `QuinnSafety.QuinnTunnel.Close` | snocat/src/common/protocol/tunnel/quinn_tunnel.rs:311-328 | Ok exactly when no reason had been given, with the previous reason either way; the tunnel and both halves are closed; the cells are those of the machine's steps |
| `QuinnSafety.ReportAloneOutcome` | snocat/src/common/protocol/tunnel/quinn_tunnel.rs:331-358 | the machine steps of an uninterrupted report come to: refused with the reason, refused without one, or name stored and announced; the lock is free again and nothing else has changed |
| `QuinnSafety.QuinnTunnel.ReportAuthenticationSuccess` | snocat/src/common/protocol/tunnel/quinn_tunnel.rs:331-358 | cells and answer are those of the report's machine steps taken one after the other; Ok exactly when that makes it the successful report, that is when open and without a name |
| `QuinnSafety.QuinnTunnel.IncomingFailed` | snocat/src/common/protocol/tunnel/quinn_tunnel.rs:256-264 | overwrites the reason and closes the downlink only |
| `QuinnSafety.QuinnTunnel.OutgoingFailed` | snocat/src/common/protocol/tunnel/quinn_tunnel.rs:540-547 | overwrites the reason and closes the uplink only |
| `NumberText.ParsePortExact` | snocat/src/common/protocol/proxy_tcp.rs:292 | a port is read from exactly its plain number behind any zeros and perhaps a plus sign, below 2^16 |
| `NumberText.DigitsParsePort` | snocat/src/common/protocol/proxy_tcp.rs:292 | reading a port and writing it gives the same text if and only if it has no sign and no superfluous zero |
| `NumberText.Ip4Text` | snocat/src/common/protocol/proxy_tcp.rs:302-305 | IPv4 text: reading and writing are inverse to each other |
| `ProxyTarget.AddressRoundTrip` | snocat/src/common/protocol/proxy_tcp.rs:233-334 | every target, whatever its host, comes back from its address normalised, and unchanged if and only if it is no bare port and carries no IPv6 flow label or scope |
| `ProxyTarget.TextRoundTrip` | snocat/src/common/protocol/proxy_tcp.rs:336-400 | displaying and parsing a target gives it normalised, and unchanged under the same condition |
| `ProxyTarget.ShortTextRoundTrip` | snocat/src/common/protocol/proxy_tcp.rs:378-400 | every target is understood, normalised, from its text without the protocol prefix |
| `ProxyTarget.PrefixOptional` | snocat/src/common/protocol/proxy_tcp.rs:378-400 | an accepted text starting with dns, dns4, dns6, ip4, ip6 or tcp parses, success or error, as with the protocol prefix added |
| `ProxyTarget.OtherTexts` | snocat/src/common/protocol/proxy_tcp.rs:378-400 | an unparsable text says why, one with the prefix means its address, and any other matches no format |
| `ProxyTarget.TryFromExact` | snocat/src/common/protocol/proxy_tcp.rs:277-334 | which addresses are targets, and exactly when each error is reported, a bad port first |
| `ProxyTarget.PortSpelling` | snocat/src/common/protocol/proxy_tcp.rs:292 | the target does not depend on how the port number is spelt |
| `ProxyTarget.AddressKeptExactly` | snocat/src/common/protocol/proxy_tcp.rs:277-334 | an accepted address is reproduced by its target if and only if it has exactly five segments, a plain port number, and an IPv6 address, if any, in the writer's form |
| `ProxyTarget.TrailingSegmentsIgnored` | snocat/src/common/protocol/proxy_tcp.rs:281-289 | segments after the fourth behind the prefix do not matter |
| `Tracked.SpawnSound` | snocat/src/ext/stream.rs:94-107 | a spawned task is counted at once exactly if preregistered; no other task changes |
| `Tracked.PollSound` | snocat/src/ext/future/tracked.rs:80-107 | a poll is ready exactly if the task is not completed, the inner result is there and the registration is or has been; then the task is completed and no longer counted, otherwise, unless completed before, it waits for whichever is missing and is counted; the count stays exact and no other task changes |
| `Tracked.DropSound` | snocat/src/ext/stream.rs:55-60 | dropping a task removes it and keeps the count exact |
| `Tracked.CountIsExact` | snocat/src/ext/stream.rs:31-60 | in every run of spawns, polls and drops the published count is the number of outstanding registered tasks; each task registers and yields at most once, yielding only after registering |
| `Tracked.BoundCounter.Register` | snocat/src/ext/stream.rs:31-43 | one more reference, published less the baseline |
| `Tracked.BoundCounter.Release` | snocat/src/ext/stream.rs:45-60 | one reference less, published less the baseline |
| `Tracked.TrackedFuture.constructor` | snocat/src/ext/stream.rs:95-107 | counted at once if preregistered, not before the first poll otherwise |
| `Tracked.TrackedFuture.Poll` | snocat/src/ext/future/tracked.rs:80-107 | the poll loop ends, ready exactly if the result is there and the registration is or has been, with the state and count of the specified poll; the published count is exact |

## Left out

- QUIC, TLS, sockets, DNS, TCP connections and byte copying: foreign code and input or output; their outcomes are choices of the environment.
- JSON encoding of records, UUID generation and the text form of IPv6: an encoded record is its text, drawn rids are fresh, and the IPv6 codec is a parameter assumed to read what it writes.
- Bare atomics, locks, DashMap shards and ArcSwap: each operation is one atomic step; lock poisoning does not occur.
- Update in place of the Redis registry, the daemon, Dropkick and the negotiating client: modelled on values, one atomic step at a time, because their promises are about interleavings; only the retry loop, the maximum, the server side of negotiation and the state of one tunnel are methods.
- The 10 ms renewal floor of test builds: the model has the one-second floor of other builds.
- RedisTiming.RenewedNeverExpires: assumes that every connection, command and reply of the observed renewal task gets through, as a lost one is not made up for before the next round.
- The server's clock in the limit on lifetimes: seconds are refused if they overflow 64 bits in milliseconds, not if only their sum with the time of day does.
- RedisSafety.CreateEntry: the retry loop alone, without interleaving; all interleavings are covered by the run theorems.
- DaemonSafety.FindByNameAndComparator: iterates one state of the table; which records are still held by somebody is a parameter.
- DaemonSafety.UnfinishedCanStep: possibility of progress, not fairness of the scheduler; cancelling a task in the middle of registration is not modelled.
- Wrap-around of tunnel identifiers in the daemon: at most 2^64 tunnels arrive, the bound up to which `TunnelIds.IdsCollide` gives distinct identifiers.
- TunnelCache.CacheRefinesTarget: sequential use and a target without expiry, since the code promises no consistency for concurrent use of the cache.
- Tracked.CountIsExact: tasks of one driver; two threads dropping counters at once could publish in either order.
- QuinnSafety.QuinnTunnel.ReportAuthenticationSuccess: one report, uninterrupted; competing reports are in `QuinnSafety.OneName`.
- PortAllocator.PortRangeAllocator.Allocate: the public `free` and handles built by hand bypass ownership and are not modelled.
- SimpleAck and NoOp authentication, `DemandProxyService`, dynamic stream sets, the mapped and boxed adapters, `Delayed`, `PollUntil` and the fused streams: would only add easy members.
- Command line, certificates, logging: plumbing with nothing to prove.
