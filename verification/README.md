# Verified model of rotonda

Rotonda collects BGP and BMP feeds. Each peer or router gets an ingress id from a register, routes
flow from units to other units and targets over gates and links, and a manager starts and reloads
the components. This project models the parts of it where several tasks share state or where bytes
must be cut and counted exactly, and proves what they promise. Nothing here is executed; `dafny
verify dfyconfig.toml` checks every statement.

| file | what it models |
|---|---|
| `Ingress.dfy`, `Register.dfy` | the ingress register, and who may hold an id |
| `SessionModel.dfy`, `SessionOwnership.dfy`, `SessionReuse.dfy` | the life of BGP sessions: live sessions, register and per-peer stats under any interleaving |
| `SessionPaths.dfy`, `SessionOverlap.dfy`, `SessionLateMark.dfy` | concrete runs that show where the promises about sessions end |
| `PeerStats.dfy`, `PeerStatsFlow.dfy`, `StatsReport.dfy`, `Bytes.dfy` | per-peer counters and the BMP Statistics Report made of them |
| `Frim.dfy`, `FrimContention.dfy` | the copy-on-write map, alone and under contention |
| `Gate.dfy`, `GateTraffic.dfy` | a gate: its subscriptions, and what links and reloads do to them |
| `GateClones.dfy`, `GateConvergence.dfy`, `GateStranding.dfy` | gates with clones: what the shared map of senders comes to, and exactly what spoils it |
| `GateReload.dfy`, `GateShutdown.dfy` | runs of reloads, how clones end |
| `Manager.dfy`, `StartBarrier.dfy` | what a reload does to each component, and the two-phase start |
| `Interner.dfy`, `InternerRuns.dfy` | sharing of path attribute blobs, with copy on write, by one thread and by several |
| `BmpFraming.dfy` | cutting a byte stream into BMP messages |
| `LineIndex.dfy` | line and column of a byte offset |

Objects that the code updates in place are classes; code that runs concurrently is a state machine
whose steps end where the code releases a lock or awaits, and whose theorems are about every run.

## What was found

Some promises hold only under a condition, or not at all. The code is modelled as it is; each such
case has a concrete run and the condition under which the promise holds.

- Two connections of one peer that negotiate at the same time leave two register entries and leak an
  id (`SessionOverlap.OverlapLeaks`). When the negotiations of one peer do not overlap, there is one
  entry per peer and nothing is left behind, however late the cleanups run (`SessionReuse`). It is not
  enough that overlapping negotiations reuse the same id (`SessionSameId.SameIdOverlapLeaks`).
- The RIB marks an id Connected when a route arrives under it again, registered or not. A mark that comes
  when the id is not registered makes an entry with nothing but a state. It stays until a session publishes
  itself under the id, which completes the entry, or a cleanup removes it; if neither comes it is left
  (`SessionLateMark.LateMarkStays`). `SessionReuse.BareMarkExactly` says that this is exactly when there is
  such an entry, and `SessionReuse.LeftExactly` that nothing else is ever left.
- A gate clone may leave with an empty command queue and still strand a slot, if it goes between
  putting the slot back and being told to take it out (`GateStranding.LeavingMidwayStrandsASlot`).
- A Reconfigure empties the map of senders, but a clone that has not followed a subscription yet puts the
  slot of the old channel back, and nobody will tell it to take it out (`GateStranding.OldSlotComesBack`).
- `GateConvergence.Harms` lists the steps that do such harm: a clone goes that alone would have taken a dead
  slot out; the order to take it out does not fit into a queue and is needed; a Reconfigure is read while a
  clone has still to follow a live subscription. Without them the maps come out right
  (`GateConvergence.Convergence`); each of them can be seen in the map when all is quiet
  (`GateStranding.HarmShows`).
- A link that is suspended is delivered to all the same once a clone has followed its subscription
  (`GateStranding.CloneUndoesSuspension`); `GateConvergence.LiveSlots` says exactly for which slots.
- A clone that is still attaching when its root is reconfigured is cut off: it terminates while the root
  lives (`GateShutdown.ReconfigureCutsOff`); `GateShutdown.WhyTerminated` and
  `GateShutdown.CutOffExactly` say exactly when a clone ends.
- A Reconfigure does not clear the suspended senders, and a resumption of one of them would bring it back
  (`Gate.Suspended`); no such command can be read any more (`GateTraffic.RequestsAreCurrent`).
- `FrimMap::remove` can return a value that somebody else removed, since what a failed attempt found is
  kept (`Frim.SomeIsNoProofOfRemoval`); `Frim.RemoveResult` says exactly when.
- `update_info` says in a comment that it returns the replaced info; it always returns nothing
  (`Register.Register.UpdateInfo`).
- A comment speaks of 13 fixed statistics in a Statistics Report; the code writes 12
  (`StatsReport.RoundTrip`).
- A name spawned both as a target and as a unit makes the coordinator panic; that is the only way
  (`Manager.Manager.SpawnInternal`).

## Model

| member | source | states |
|---|---|---|
| `SessionOwnership.RunKept` | src/units/bgp_tcp_in/router_handler.rs:464-659 | In every interleaving, overlapping negotiations included: an entry of the live sessions is that of the connection it names, with its session id and ingress id; session ids are unique; ids are used only by the peer they were drawn for; whoever holds the lock to clean up holds it for an id no live session has |
| `SessionOwnership.RetiredAtMostOnce` | src/units/bgp_tcp_in/router_handler.rs:509-628 | A session gives its entry up at most once, by losing it or by retiring it; at most one cleanup Withdraw follows, only in the second case; one that lost its entry cannot pass the session-id check |
| `SessionOwnership.LostForGood` | src/units/bgp_tcp_in/router_handler.rs:509-628 | A session whose entry was replaced or overwritten has sent no cleanup Withdraw and never will |
| `SessionOwnership.CleanupSparesTheLiving` | src/units/bgp_tcp_in/router_handler.rs:603-650 | When a cleanup marks an id Disconnected or removes its register or stats entry, no live session has that id |
| `SessionReuse.SerialRunKept` | src/units/bgp_tcp_in/router_handler.rs:464-659 | The invariant behind the theorems below, over every run in which the negotiations of one peer do not overlap; the RIB may mark any id Connected at any time |
| `SessionReuse.LiveSessionsStand` | src/units/bgp_tcp_in/router_handler.rs:464-659 | Late cleanup never harms a live session: once registered it is in the register as Connected, type Bgp, with its own address and ASN, and the stats it counts into are those in the registry |
| `SessionReuse.OneEntryPerPeer` | src/units/bgp_tcp_in/router_handler.rs:475-579 | Never two Bgp entries for one (address, ASN); an id of a connection is registered in full or bears nothing but a mark of the RIB |
| `SessionReuse.ReplacedUnderTheSameId` | src/units/bgp_tcp_in/router_handler.rs:513-535 | The branch for an old session with a different ingress id is never taken |
| `SessionReuse.NothingLeft` | src/units/bgp_tcp_in/router_handler.rs:599-659 | Once all sessions and cleanups have ended, no live session, no stats entry and no Bgp register entry is left; under an id of a connection there can only be a bare mark of the RIB |
| `SessionReuse.BareMarkExactly` | src/units/rib_unit/rib.rs:486-507 | At any moment of every such run an id of a connection bears nothing but a mark of the RIB exactly if the RIB marked it while it was not registered and since then no session published itself under it and no cleanup removed it |
| `SessionReuse.LeftExactly` | src/units/bgp_tcp_in/router_handler.rs:599-659 | Once all sessions and cleanups have ended, an id of a connection is still registered exactly if such a mark stays |
| `SessionLateMark.LateMarkStays` | src/units/rib_unit/rib.rs:486-507 | A run without overlapping negotiations in which a replaced session, still inside its update, makes the RIB mark the id after the cleanup; the mark is left |
| `SessionOverlap.OverlapLeaks` | src/units/bgp_tcp_in/router_handler.rs:509-551 | A run with overlapping negotiations that ends with two register entries for one peer and one of them never released |
| `SessionSameId.SameIdOverlapLeaks` | src/units/bgp_tcp_in/router_handler.rs:541-586 | A run in which overlapping negotiations reuse the same id, no entry is displaced by one with another id, and a register and a stats entry are left all the same |
| `Register.Register.constructor` | src/ingress/register.rs:244-249 | An empty register whose first id is 1 |
| `Register.Register.Register` | src/ingress/register.rs:364-366 | The counter's value, which then wraps at 2^32 |
| `Register.Register.UpdateInfo` | src/ingress/register.rs:187-205 | The given fields are merged over the stored ones, other entries stay, and nothing is ever reported as replaced |
| `Register.Register.FindExistingBgpSession` | src/ingress/register.rs:482-495 | Some entry that matches address, ASN and type, or none exists |
| `Register.Register.FindExistingAndClaim` | src/ingress/register.rs:579-644 | Some matching entry that was not Connected is Connected in the same step, or there was none and nothing changes |
| `Register.Register.RemoveIfDisconnected` | src/ingress/register.rs:462-475 | An entry goes exactly if it is Disconnected, and is returned |
| `Claims.RunKept` | src/ingress/register.rs:579-644 | Over every interleaving of drawing, publishing, releasing, claiming, restoring and sweeping, ids are held by one holder and registered ones are not free to claim |
| `Claims.NoDoubleHold` | src/ingress/register.rs:579-644 | No two sessions ever hold the same id |
| `Claims.HeldEntryStays` | src/ingress/register.rs:462-475 | A held id keeps its entry, and no sweep or claim touches it |
| `PeerStats.BgpPeerStats.AddAdjRibIn` | src/ingress/peer_stats.rs:58-65 | The total and the family both grow by n; nothing else changes |
| `PeerStats.BgpPeerStats.SubAdjRibIn` | src/ingress/peer_stats.rs:69-81 | The family shrinks by at most what it has, and the total by the same |
| `PeerStats.BgpPeerStats.ResetAdjRibIn` | src/ingress/peer_stats.rs:85-88 | Total and families are cleared |
| `PeerStats.BgpPeerStats.Snapshot` | src/ingress/peer_stats.rs:112-155 | Whatever the counters are: every one as it is, what nobody counts as zero, and each family once with its value |
| `PeerStats.AddedBalanced` | src/ingress/peer_stats.rs:58-65 | Adding keeps the total equal to the sum over the families |
| `PeerStats.RemovedBalanced` | src/ingress/peer_stats.rs:69-81 | Withdrawing keeps it too, also where more is withdrawn than is there |
| `PeerStatsFlow.Tally` | src/units/bgp_tcp_in/router_handler.rs:719-736 | How many routes of each family a message has |
| `PeerStatsFlow.AddBuckets` | src/units/bgp_tcp_in/router_handler.rs:719-736 | Announced routes are added bucket by bucket, every bucket once, in some order |
| `PeerStatsFlow.SubBuckets` | src/units/bgp_tcp_in/router_handler.rs:719-736 | Withdrawn routes are taken off bucket by bucket, every bucket once, in some order |
| `PeerStatsFlow.ProcessUpdate` | src/units/bgp_tcp_in/router_handler.rs:675-759 | The gauges are those that adding the announced buckets and then taking off the withdrawn ones makes, in some orders; the payloads come out in order; a message whose routes cannot be listed changes nothing |
| `PeerStatsFlow.ProcessedFollows` | src/units/bgp_tcp_in/router_handler.rs:719-736 | In whatever orders: from gauges that balance, every family gains what is announced and loses what is withdrawn, down to zero, and the gauges balance again |
| `PeerStatsFlow.FollowsOneWay` | src/units/bgp_tcp_in/router_handler.rs:719-736 | The gauges after a message do not depend on the order of the buckets |
| `PeerStatsFlow.RunBalanced` | src/ingress/peer_stats.rs:58-88 | Over every run of messages, processed bucket by bucket, and resets the total is the sum over the families, while no count comes to 2^64 |
| `PeerStatsFlow.RunConserves` | src/units/bgp_tcp_in/stats_builder.rs:114-127 | The report made at any point of every such run, read back, has one type 7 gauge and it is the sum of its type 9 gauges, however many unseen routes are withdrawn |
| `PeerStatsFlow.SnapshotAll` | src/ingress/peer_stats.rs:195-202 | One snapshot for every peer of the registry, showing its counters |
| `PeerStatsFlow.Emit` | src/units/bgp_tcp_in/unit.rs:338-358 | The reports of the snapshots whose id is Connected and of type Bgp when the register is asked for it, in order; the register may change between two questions |
| `PeerStatsFlow.EmittedFrom` | src/units/bgp_tcp_in/unit.rs:338-358 | Every report shows the counters of some peer that is up when it is asked for |
| `PeerStatsFlow.EmittedFor` | src/units/bgp_tcp_in/unit.rs:338-358 | Every peer that is up when it is asked for gets its report |
| `PeerStatsFlow.EmittedOnce` | src/units/bgp_tcp_in/unit.rs:338-358 | No peer gets two |
| `StatsReport.PutCounterTlv` | src/units/bgp_tcp_in/stats_builder.rs:46-51 | One 32-bit statistic is appended, clamped to 2^32 - 1 |
| `StatsReport.PutGaugeTlv` | src/units/bgp_tcp_in/stats_builder.rs:53-57 | One 64-bit statistic is appended |
| `StatsReport.PutPerAfiSafiTlv` | src/units/bgp_tcp_in/stats_builder.rs:59-71 | One per-family statistic is appended |
| `StatsReport.PutPerFamily` | src/units/bgp_tcp_in/stats_builder.rs:118-137 | One statistic per family is appended, in order, and counted |
| `StatsReport.BuildStatsBody` | src/units/bgp_tcp_in/stats_builder.rs:77-156 | The body is the count followed by the statistics of the snapshot in their order |
| `StatsReport.RoundTrip` | src/units/bgp_tcp_in/stats_builder.rs:77-156 | Walking any body by type and length uses it up exactly and gives back every statistic; it announces 12 plus one per family entry and is 108 plus 15 per entry long |
| `StatsReport.StatsByType` | src/units/bgp_tcp_in/stats_builder.rs:77-156 | What is found under each statistic type: every gauge exactly, every counter clamped |
| `FrimVector.FrimMap.Get` | src/common/frim.rs:186-192 | The value the map has under the key |
| `FrimVector.FrimMap.Insert` | src/common/frim.rs:212-221 | The key is bound to the new value, old binding or not, and no key occurs twice |
| `FrimVector.FrimMap.Retain` | src/common/frim.rs:227-238 | Exactly the bindings the predicate accepts are kept |
| `FrimVector.FrimMap.Replace` | src/common/frim.rs:241-243 | The contents are those of the other map |
| `FrimVector.FrimMap.Remove` | src/common/frim.rs:247-258 | The key is gone and its value, if it had one, is returned |
| `FrimVector.FrimMap.OrInsert` | src/common/frim.rs:138-150 | The present value wins, and what is returned is in the map |
| `Frim.Linearizable` | src/common/frim.rs:186-258 | For any interleaving of load, compute and compare-and-swap, the contents are the map operations applied one by one in the order of the successful swaps, and keys are unique |
| `Frim.RemoveResult` | src/common/frim.rs:247-258 | What `remove` returns at its commit, exactly; None means the key was absent |
| `Frim.SeenBefore` | src/common/frim.rs:247-258 | What an earlier attempt of a call had found was in the vector it had loaded, and another commit came before its swap |
| `Frim.SomeIsNoProofOfRemoval` | src/common/frim.rs:247-258 | A run in which two calls return the same value for one removal |
| `Gate.Gate.Subscribe` | src/comms.rs:798-846 | A fresh slot with the sender asked for, active or suspended; none if the response is refused; other subscriptions untouched |
| `Gate.Gate.Suspension` | src/comms.rs:788-796 | Whatever slot it names: a subscription that is held changes between active and suspended with its sender, any other stays as it is |
| `Gate.Gate.Unsubscribe` | src/comms.rs:848-853 | The slot is live no more; others untouched |
| `Gate.Gate.Reconfigure` | src/comms.rs:478-516 | Nothing is delivered to any more; what is suspended stays where it is |
| `Gate.Gate.UpdateData` | src/comms.rs:695-775 | An update reaches every open, unsuspended subscription exactly once, and no other |
| `GateTraffic.RunKept` | src/comms.rs:1428-1540 | Over every run of links sending through the channel they were made for and reloads changing the channel that is read: a request in a channel is about slots given out through it, and only slots of the channel that is read can be delivered to |
| `GateTraffic.RequestsAreCurrent` | src/comms.rs:435-457 | Every suspension, resumption or unsubscription that is read names a slot of the current generation |
| `GateTraffic.OldSlotsStayOut` | src/comms.rs:478-516 | At a gate without clones, after a Reconfigure no slot of an older generation is ever delivered to again, suspended or not when it came, whatever its link still sends |
| `GateTraffic.GenerationGrows` | src/comms.rs:506-511 | The generation moves on by one with every Reconfigure that is read, and never back |
| `GateConvergence.RunKept` | src/comms.rs:435-516 | The invariant over every run of subscriptions, suspensions, reconfigurations and clones that come, follow and go: notes under way are true, and every live subscription is where it should be |
| `GateConvergence.LiveSlots` | src/comms.rs:788-846 | At any moment a live subscription is suspended exactly if its link last asked for that, and is delivered to exactly if it is not suspended or a clone has followed it since; its sender never changes |
| `GateConvergence.HarmExactly` | src/comms.rs:555-613 | From a state in which every dead slot is left to a clone to take out, a step leads to such a state exactly if it is not one of those `Harms` lists |
| `GateConvergence.Convergence` | src/comms.rs:459-516 | Over every run without harm, once nothing is under way the map of senders holds exactly the live subscriptions that are not suspended or that a clone has followed since, none of an older channel, and the map of suspended ones those suspended and what was suspended when a Reconfigure came |
| `GateConvergence.ConvergenceUnsuspended` | src/comms.rs:840-853 | With links that are not suspended, exactly the live subscriptions |
| `GateConvergence.StaleSlotsGo` | src/comms.rs:848-853 | At any moment of such a run a stale slot in the map is one that some clone has queued, or is about to be sent, a FollowUnsubscribe for |
| `GateStranding.HarmShows` | src/comms.rs:555-613 | After the first step that does harm, of whatever run, there is a way to finish what is under way after which all is quiet and a slot that is nobody's is delivered to |
| `GateStranding.LeavingMidwayStrandsASlot` | src/comms.rs:555-613 | A run in which a clone with an empty queue goes while the root notifies, and a dead slot stays in the map |
| `GateStranding.OldSlotComesBack` | src/comms.rs:459-516 | A run in which a slot given out before a Reconfigure is delivered to after it |
| `GateStranding.CloneUndoesSuspension` | src/comms.rs:824-845 | A run in which a suspended subscription ends up among those that get updates |
| `GateReload.AppliedInOrder` | src/comms.rs:478-516 | Over every run of reloads, configurations are applied once each in reload order, and the unit ends only after all of them and a Terminate |
| `GateReload.AgentReachesUnit` | src/manager.rs:928-951 | From the channel the unit reads, the single command the manager addressed to each channel leads to the next, and the last is that of the stored agent |
| `GateReload.ReceivesTheExpected` | src/comms.rs:506-510 | The only Reconfigure the unit can read names the channel created next; a Terminate is read only at the agent's channel; nothing of the manager's is lost with the old receiver |
| `GateReload.NeverStuck` | src/manager.rs:1146-1162 | While anything is outstanding the unit can read, or the next command can be sent now |
| `GateReload.Settles` | src/manager.rs:1146-1189 | The sends already spawned suffice for the unit to apply every reload, and to end if told to |
| `GateShutdown.RunKept` | src/comms.rs:877-937 | Over every run: the sending end of a clone is in one attach task, in one command of the root's queue or in `clone_senders`, and in no two of them; queues hold at most 16 |
| `GateShutdown.NoSenderSurvives` | src/comms.rs:877-937 | Once the root is dropped only an attach task can still have a sending end, and a clone that has lost it never gets it back |
| `GateShutdown.OrphanDrains` | src/comms.rs:380-401 | In every continuation with the root dropped, a clone reads what is queued and no more: at most 16 commands |
| `GateShutdown.EndsSoon` | src/comms.rs:380-401 | From every state with the root dropped, a clone that is left alone terminates by its own steps, at most 17: reads, one step of its attach task, one look at the closed channel |
| `GateShutdown.OwnStep` | src/comms.rs:380-401 | Until it has terminated, one of those steps can be taken, whatever others have done |
| `GateShutdown.WhyTerminated` | src/comms.rs:380-401 | A clone ends by reading a Terminate, which the root has read before, or by finding its channel closed with the root gone or after a Reconfigure has cut it off; while the root lives and is not reconfigured only a Terminate ends it |
| `GateShutdown.CutOffExactly` | src/comms.rs:506-510 | Nobody has the sending end of a clone exactly if its attach task is through and the root is gone, or has taken over another channel before reading the attach command |
| `GateShutdown.ReconfigureCutsOff` | src/comms.rs:506-510 | A run in which a clone that is attaching terminates while the root lives and nobody has sent Terminate |
| `Manager.Manager.Track` | src/manager.rs:1281-1294 | Succeeds exactly for a new name within the announced number |
| `Manager.Manager.ActOnTarget` | src/manager.rs:851-896 | A target is reconfigured, or terminated and spawned, or spawned, as its running type asks for |
| `Manager.Manager.ActOnUnit` | src/manager.rs:899-973 | The same for a unit, which without a pending gate is only terminated |
| `Manager.Manager.ReconcileTargets` | src/manager.rs:851-896 | Every target of the configuration gets its actions once, whatever the order; targets not in it are untouched |
| `Manager.Manager.ReconcileUnits` | src/manager.rs:899-973 | The same for units; it panics exactly if a unit to be spawned has a tracked name |
| `Manager.Manager.Finish` | src/manager.rs:975-988 | Whatever still runs is terminated, and the new running sets take over |
| `Manager.Manager.SpawnInternal` | src/manager.rs:812-990 | A reload panics exactly if a name is spawned as target and as unit; otherwise each component gets exactly the actions its old and new type call for, the running targets are those of the configuration, the running units those with a pending gate, with the new agents |
| `StartBarrier.RunKept` | src/manager.rs:1235-1358 | Over every run, arrivals at the barrier are those of the components and of the coordinator in this phase, and nobody is ahead of the barrier |
| `StartBarrier.NobodyGoesAhead` | src/manager.rs:1296-1330 | No component passes a phase before all tracked components and the coordinator have arrived at it |
| `StartBarrier.WaitIsForAll` | src/manager.rs:1235-1258 | Every component comes to the barrier at most twice, and exactly twice before `wait` returns, with `ready` then `running` and with `running` alone |
| `StartBarrier.NoUnderflow` | src/manager.rs:1330-1337 | The number of unused places is between 1 and the maximum plus 1 |
| `StartBarrier.NeverStuck` | src/manager.rs:1315-1358 | Until all components run and the coordinator is through, somebody can take a step |
| `Interner.Store.Intern` | src/payload.rs:180-204 | The scan with `swap_remove` computes `Interning`; while a blob with these bytes is interned and alive the result is that very blob; otherwise a new one; nothing else alive changes |
| `InternerRuns.RunKept` | src/payload.rs:180-204 | Over every interleaving of threads inside `intern`, slot by slot under the lock of their shard, with new blobs, Arc clones and drops and `set_rpki_info` by others: live entries are in the bucket and shard of their hash and pairwise distinct, weak counts are right, and no slot a search has passed has its bytes |
| `InternerRuns.ReturnsInterned` | src/payload.rs:180-204 | What a call of `intern` returns is interned under its bytes, and no other blob was when it returned |
| `InternerRuns.SameBlobWhileAlive` | src/payload.rs:180-204 | Over every such run, two calls with the same bytes return the same blob if it is alive when the second returns |
| `InternerRuns.InternedWhileAlive` | src/payload.rs:180-204 | Over every such run, a blob that was interned and is still alive is interned under the same bytes |
| `InternerRuns.Alone` | src/payload.rs:180-204 | A search that nobody interrupts comes to what `Interner.Store.Intern` computes |
| `Interner.Store.SetRpkiInfo` | src/payload.rs:285-287 | The first byte is written to a blob nobody else sees: in place only if it is neither shared nor interned; interned bytes never change |
| `Interner.Store.NewPaMap` | src/payload.rs:266-277 | A new blob of the RPKI info, the parse info and the attributes, which is not interned |
| `Interner.Store.Stats` | src/payload.rs:218-234 | The buckets, the slots, and as live count the number of distinct byte strings interned and in use |
| `BmpFraming.FirstFrame` | src/units/bmp_tcp_in/io.rs:86-110 | A stream begins with a frame exactly if some prefix is as long as it announces and within bounds |
| `BmpFraming.BmpRead` | src/units/bmp_tcp_in/io.rs:66-118 | Takes one whole frame off the stream and hands it over if it parses; a bad length or the end of the stream is reported as such |
| `BmpFraming.BmpStream.Next` | src/units/bmp_tcp_in/io.rs:160-212 | What one call returns and whether the receiver is kept, for every stream and every sequence of gate events |
| `BmpFraming.StaysAligned` | src/units/bmp_tcp_in/io.rs:160-212 | While the receiver is held, the consumed bytes are one whole frame per call, each handed over or reported once and in order |
| `BmpFraming.LostForGood` | src/units/bmp_tcp_in/io.rs:190-212 | Once the receiver is lost no message is ever returned |
| `BmpFraming.LostExactly` | src/units/bmp_tcp_in/io.rs:160-212 | Over every run the receiver is gone exactly if in an earlier call the gate terminated or no frame followed |
| `LineIndex.LineStarts` | src/config.rs:409-420 | The offsets at which the lines begin, and one past the end |
| `LineIndex.PieceOf` | src/config.rs:440-457 | The entry an offset falls under counts the newlines before it and is where its line begins |
| `LineIndex.ConfigFile.ResolvePos` | src/config.rs:440-457 | One plus the newlines before the offset, and one plus the distance from the last of them, for every offset up to the length; also what comes out beyond it |

## Left out

- Routes, and the order of a cleanup Withdraw against a successor's routes: the Withdraw is sent outside the lock, so nothing is promised about it.
- A second negotiation on one connection: a task negotiates at most once.
- Six fields of an ingress entry that no decision modelled here reads (unit name, file name, description, local ASN and the two capability lists) are not part of `IngressInfo`.
- Ids beyond 2^32: `Register.Register.Register` wraps around as the code does, and the claims are about runs with fewer ids.
- `Register.remove`, `ids_for_parent` and the searches for display: easy.
- Torn snapshots of peer stats during a concurrent update: `PeerStats.BgpPeerStats` has a single user at a time.
- Gate status (`Dormant` compares the sizes of two unrelated maps) and gate metrics.
- Trigger at a gate with clones (cloning the command panics).
- Which overlapping negotiations do no harm: that they do not overlap is sufficient; that no entry is displaced by one with another id is shown not to be.
- Queue lengths of links and back-pressure: whether a receiver is open is an input of `Gate.Gate.UpdateData`.
- `stats` while others intern: `Interner.Store.Stats` counts a store at rest. Address reuse by the allocator is not modelled.
- Hashing and BMP parsing are parameters.
- BmpFraming.BmpRead: the only read failure is the end of the stream; a time-out in the middle of a frame is not modelled.
- A component that ends before it has come to the start barrier.
- `Manager::load` and `prepare`: the pending gates are an input.
- The BMP state machine, the RIB, bmp-out, RTR and MRT units, roto, HTTP, the command line, logging, MQTT and file targets.
