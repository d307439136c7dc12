# A verified model of NetQ VPN

NetQ VPN is a relay-mesh overlay network: endpoints seal packets to each other end to end, a
coordinator replicates a generation-numbered view of the network to them, and each endpoint keeps
its host's routing table in line with that view. This project models the four parts of it whose
correctness spans many steps, in Dafny, and proves what they promise over whole runs.

`dafny verify dfyconfig.toml` checks everything.

**End-to-end sessions** (`ReplayWindow`, `Seal`, `Sessions`, `Engine`, `Node`, `Agreement`,
`Freshness`, `Deadlines`, `Queues`, `Authenticity`, `Network`, `Rekey`, `Greeting`). Noise IK
(section 7.5 of the Noise Protocol Framework, revision 34) is symbolic: a completed handshake yields
a key named by both ephemerals and the transcript, and a frame opens under a key only if it was
sealed under it. The mutable classes of the first four files are proved equal to functions on
values; `Node` runs those functions at the granularity of the two locks, `Network` puts any number
of nodes over a network that drops, duplicates, reorders and injects, and `Rekey` adds time to a
pair of them, which `Greeting` starts from no session at all. In `Network` a transport key between
two honest static keys is known to nobody else.

**View replication** (`Lists`, `Snapshot`, `Directory`, `Control`, `Ownership`, `Replication`,
`Convergence`, `Grace`). Members are process instances that connect, report, lose their connection and
come back; the coordinator publishes, overflows, crashes and restarts; the wall clock moves as it
likes. A digest is modelled by the content it is a function of. The content of a view is an input
of a recompute; all that is used of it is that the network MTU is at least the IPv6 minimum.

**Routes and pins** (`Cidr`, `Routes`, `OsRoutes`, `Pins`, `RouteAll`). Prefixes are address
ranges; longest-prefix match is a specification, not a trie.

**Addresses and leases** (`Ipam`, `Leases`).

Four promises do not hold of the code as it is. Each has a concrete counterexample and the exact
condition under which it does hold.

- A handshake timestamp has a later successor except at the very last representable one
  (`Seal.SuccIsNext`).
- A synced session's queue can hold a generation gap if the restart grace window opens again in a
  running process, because its configured length was raised (`crates/nqvpn-coord/src/admin.rs:207`)
  or the clock stepped back: a session registered within the reopened window is not caught up, and
  a late report of an earlier instance of its node, folded in by node and not by session, starts its
  catch-up too far ahead (`Convergence.ReplacedInstanceCanGap`). Folding a report in is right exactly
  if it is harmless (`Convergence.StepKeepsFlow`), and every report is as long as no window opens
  again before the next restart (`Grace.OneWindowConverges`). A member that meets a gap asks to be
  resynced, and recovers.
- A pin can be left in the kernel without a journal entry: a refused deletion is not noticed and the
  entry is forgotten all the same (`Pins.RefusedDeletionOrphans`). Deleting and forgetting is safe
  exactly if the kernel obeys (`Pins.DeleteThenForgetIff`), and refused deletions are the only way a
  pin is orphaned (`Pins.PinsAreNeverOrphaned`). A crash costs the journal its exactness exactly if it
  strikes an entry with no route behind it (`Pins.CrashKeepsExactIff`); an inexact journal can cost a
  route somebody else created (`Pins.InexactCanCost`, `Pins.CrashCanCostAForeignRoute`).
- A credential refresh marks a member as seen without publishing, so a member whose lease had run
  out is online in the leases and offline in the view until something else publishes, which the
  sweep does every second (`Leasing.RefreshKeepsIff`, `Leasing.RefreshCanLoseAReturn`).

Re-running a kernel reconcile is silent exactly when no wanted prefix is one of the node's own
addresses (`OsRoutes.ReconcileSettles`), which for the routes of a view can only be a reserved
default (`OsRoutes.ViewReconcileSettles`).

## Model

| member | source | states |
|---|---|---|
| `Replay.ReplayWindow.Check` | crates/nqvpn-proto/src/seal.rs:275-283 | a counter is accepted exactly when it was never committed and is less than a window behind the highest committed one |
| `Replay.ReplayWindow.Commit` | crates/nqvpn-proto/src/seal.rs:287-309 | after a commit, whatever the jump, the circular bitmap stands for the old set of committed counters plus the new one |
| `Replay.ReplayWindow.Slide` | crates/nqvpn-proto/src/seal.rs:298-303 | clearing the slots between the old and the new top leaves exactly the committed counters of the new window, slot reuse included |
| `Replay.ReplayWindow.Accept` | crates/nqvpn-proto/src/seal.rs:313-319 | check then commit: a refused counter changes nothing, an accepted one is added |
| `Replay.AcceptAll` | crates/nqvpn-proto/src/seal.rs:251-320 | over every sequence of counters, each verdict is the reference rule of section 2 of RFC 6479 applied to the plain set of counters accepted before |
| `Replay.NoCounterTwice` | crates/nqvpn-proto/src/seal.rs:313-319 | in such a sequence no counter is accepted twice |
| `Seal.SuccIsNext` | crates/nqvpn-proto/src/seal.rs:104-111 | the successor of a handshake timestamp is later than it and nothing lies between, exactly until the last representable one, where the code steps back |
| `Seal.UnsealIsAuthentic` | crates/nqvpn-proto/src/seal.rs:484-497 | a frame opens exactly when it was sealed under the session's key by the other side with that counter and the window accepts it; it then yields the sealed payload and commits the counter, and otherwise the session is unchanged |
| `Seal.PairSession.FinishHandshake` | crates/nqvpn-proto/src/seal.rs:437-453 | consuming a reply is the specified transition; a message that is no reply leaves the session as it was |
| `Seal.PairSession.SealPacket` | crates/nqvpn-proto/src/seal.rs:471-480 | each sealed frame uses the next nonce of the direction and is counted |
| `Seal.PairSession.UnsealFrame` | crates/nqvpn-proto/src/seal.rs:484-497 | window check, authentication, then commit, in that order: a frame that fails authentication changes nothing |
| `Sessions.TrialOrderIsHarmless` | crates/nqvpn-endpoint/src/peers.rs:512-544 | a frame opens exactly when some slot the receiver tries could open it, whatever the order of trial, and yields exactly what was sealed under that counter |
| `Sessions.FailureIsReported` | crates/nqvpn-endpoint/src/peers.rs:512-544 | a frame that does not open is reported as a replay exactly if some window tried refuses its counter, as having no session exactly if there was none to try, and as failing authentication otherwise |
| `Sessions.SessionTable.InstallResponder` | crates/nqvpn-endpoint/src/peers.rs:434-445 | an answered session becomes current only if there is no ready current one; otherwise it waits in next |
| `Sessions.SessionTable.PromotePeer` | crates/nqvpn-endpoint/src/peers.rs:345-353 | next becomes current and the ready current one becomes previous with the time of the switch |
| `Sessions.SessionTable.Unseal` | crates/nqvpn-endpoint/src/peers.rs:498-544 | the in-place trial of current, next and previous (within its grace), with promotion when next opened, equals the specified function |
| `Sessions.SessionTable.QueuePacket` | crates/nqvpn-endpoint/src/peers.rs:547-555 | a full queue drops its oldest packet; the queue never exceeds the limit |
| `Sessions.SessionTable.AcceptHandshakeTs` | crates/nqvpn-endpoint/src/peers.rs:571-582 | a handshake timestamp is accepted exactly if it is later than the watermark of that peer and key |
| `Sessions.SessionTable.ExpireAll` | crates/nqvpn-endpoint/src/peers.rs:627-665 | the sweep equals expiring every peer's slots and dropping peers left with nothing, and reports exactly the timed-out handshakes |
| `Sessions.SessionTable.SyncToView` | crates/nqvpn-endpoint/src/peers.rs:670-698 | the loops equal the specified sync: sessions that do not authenticate to the published key of their peer go, with the queues and watermarks of peers and keys no longer published, and exactly the peers that lost one are reported |
| `EngineSpec.MsgOneClockAdvances` | crates/nqvpn-endpoint/src/engine.rs:155-166 | each first handshake message carries a later timestamp than the one before, however the clock moves, exactly unless the last one was the last representable and the clock is not later |
| `EngineSpec.Engine.SendPacket` | crates/nqvpn-endpoint/src/engine.rs:244-340 | sealing for a ready session, queueing behind a handshake, refusing without a key, or starting a handshake: the new state and the frames sent are as specified |
| `EngineSpec.Engine.BeginRekey` | crates/nqvpn-endpoint/src/engine.rs:342-345 | a rekey is started only with a published key, on a fresh ephemeral and timestamp |
| `EngineSpec.Engine.ReceiveData` | crates/nqvpn-endpoint/src/engine.rs:349-423 | an opened frame updates its session, is answered with a keepalive when one is due, and yields its packet; a frame that does not open changes nothing |
| `EngineSpec.Engine.ReceiveHandshake` | crates/nqvpn-endpoint/src/engine.rs:425-516 | answered rekey, crossed rekey yielded by the lower node id, first handshake, and refusals: the whole new state is as specified |
| `EngineSpec.Engine.AnswerFirst` | crates/nqvpn-endpoint/src/engine.rs:477-516 | a first message is answered only for the published key and a fresh timestamp; the watermark moves only then, and carried packets are queued again |
| `EngineSpec.Engine.Flush` | crates/nqvpn-endpoint/src/engine.rs:520-546 | the whole queue is sealed in order once the session is ready, and nothing otherwise |
| `EngineSpec.Engine.SyncPeers` | crates/nqvpn-endpoint/src/engine.rs:183-212 | the two critical sections together replace the peer table and bring the sessions in line with it |
| `Queues.QueueHoldsTheLatest` | crates/nqvpn-endpoint/src/peers.rs:547-555 | a queue holds the latest packets up to its limit, in the order they were sent, and no other queue is touched |
| `Queues.FlushSealsTheQueue` | crates/nqvpn-endpoint/src/engine.rs:520-546 | once the session is ready every packet that waited is sealed in order, once, under consecutive nonces; before that nothing is |
| `Queues.PacketWaits` | crates/nqvpn-endpoint/src/engine.rs:244-340 | a packet for a peer without a ready session waits last in line, calls the peer if no call is under way, and is dropped with the queue if the peer has no key |
| `Queues.YieldKeepsTheQueue` | crates/nqvpn-endpoint/src/engine.rs:463-476 | the side that yields a crossed first handshake takes its whole queue over to the session it answers with |
| `Queues.ReplacementStartsIff` | crates/nqvpn-endpoint/src/peers.rs:446-461 | sending on a ready session seals the packet, and starts a replacement exactly if none is under way, the key is known, and the session is 120 seconds old (130 for its responder), has sealed 2^40 frames or went unanswered for ten seconds |
| `Queues.SilenceIsNoticed` | crates/nqvpn-endpoint/src/peers.rs:463-469 | however many packets follow the first unanswered one, one sent ten seconds later finds or starts a replacement |
| `Queues.KeepaliveIff` | crates/nqvpn-endpoint/src/engine.rs:349-423 | a frame that opens is answered with one empty frame exactly if it carries a packet and nothing was sent for five seconds; empty frames are never answered or delivered, and what was heard ends the wait for an answer |
| `Freshness.AnswersIff` | crates/nqvpn-endpoint/src/engine.rs:477-516 | a first message is answered exactly if it is addressed to this node under its static key and the key published for its sender, its timestamp is later by seconds and nanoseconds than the last one answered, and a handshake of our own has to yield |
| `Freshness.NoHandshakeIsAnsweredTwice` | crates/nqvpn-endpoint/src/peers.rs:571-582 | in every run, whatever is repeated or injected, of two first messages of one peer and key that were answered with no restart or reset of that peer between, the second carries the later timestamp |
| `Deadlines.SweepIsExact` | crates/nqvpn-endpoint/src/peers.rs:627-665 | a sweep leaves of a peer exactly the half-open sessions within the handshake timeout, the ready ones short of both hard limits and the previous one within its grace, and leaves no ready session waiting behind none |
| `Deadlines.TableSweepIsExact` | crates/nqvpn-endpoint/src/peers.rs:627-665 | the same over the whole table: peers left with nothing go, queues and watermarks stay, and exactly the peers with an overdue handshake are reported |
| `Deadlines.NothingIsSealedPastTheDeadline` | crates/nqvpn-endpoint/src/peers.rs:627-665 | in every run a session that was past its hard deadline, or half open past the timeout, when a sweep ran seals nothing afterwards, whatever is received, replayed or restarted |
| `Deadlines.PreviousOutlivesTheDeadline` | crates/nqvpn-endpoint/src/peers.rs:653-661 | a replaced session is swept by its grace alone, so it may outlive the hard deadline there, receiving only |
| `Deadlines.OpensIff` | crates/nqvpn-endpoint/src/peers.rs:498-544 | a frame opens exactly under a session in use, or under the one it replaced within ten seconds of the switch |
| `Agreement.StepKeepsInvariant` | crates/nqvpn-endpoint/src/engine.rs:183-212 | every step at lock granularity keeps: sessions match the keys of the peer table or of the sync under way, queues bounded and only for usable keys |
| `Agreement.SettledNodesAreInLine` | crates/nqvpn-endpoint/src/engine.rs:183-212 | in every run, whenever the sessions lock is free and no sync is between its critical sections, every session in every slot authenticates to the key now published for its peer, no queue exists for a peer without a usable key, and none exceeds the limit |
| `Agreement.ViewTakesExactly` | crates/nqvpn-endpoint/src/peers.rs:670-690 | applying a view takes exactly the sessions that do not authenticate to the key it publishes for their peer, leaves every other one in its slot, and reports exactly the peers that lost one |
| `Agreement.ViewKeepsExactly` | crates/nqvpn-endpoint/src/peers.rs:691-696 | a queue stays exactly if its peer has a usable key and did not lose its last session, a watermark exactly if its key is the one published and its peer did not log in anew |
| `Agreement.ReloggedIff` | crates/nqvpn-endpoint/src/engine.rs:183-212 | a view counts a peer as logged in anew exactly if it was known with another login or key, and publishes the key of every member but this node |
| `Authenticity.InboundSound` | crates/nqvpn-endpoint/src/engine.rs:349-423 | opening a frame keeps the node's history sound and records the packet under a counter never recorded before |
| `Authenticity.HandshakeSound` | crates/nqvpn-endpoint/src/engine.rs:425-516 | every handshake outcome keeps sessions bound to vouched keys, own ephemerals and fresh nonces |
| `Network.WorldStepKeeps` | crates/nqvpn-endpoint/src/engine.rs:349-516 | every step of any node, with a network that drops, duplicates, reorders and injects, keeps all opened packets genuine |
| `Network.DeliveredOnceAndGenuine` | crates/nqvpn-endpoint/src/peers.rs:498-544 | in every run every packet opened from a peer was sealed by that peer for this node, and no sealed frame is opened twice, across rekeys, promotions, yields, expiries, syncs and restarts |
| `Network.NoncesNeverReused` | crates/nqvpn-proto/src/seal.rs:471-480 | in every run no key seals two different frames in one direction under one nonce |
| `Rekey.StepKeeps` | crates/nqvpn-endpoint/src/peers.rs:312-353 | every step of the timed two-ended link, once both ends share a session, keeps the phase invariant of the rekey under way or of none |
| `Rekey.DueIsOnKey` | crates/nqvpn-endpoint/src/peers.rs:446-461 | a session becomes due for replacement by age or by silence only once every frame on an older key has arrived |
| `Greeting.FirstHandshakeJoins` | crates/nqvpn-endpoint/src/engine.rs:455-462 | stepping two ends without a session through the first packet, the handshake and any further packets queued meanwhile: when the answer arrives both ends share one key, every packet that waited is sealed in order and in the air, and the other end's session awaits each of those frames |
| `Greeting.RekeysLoseNothing` | crates/nqvpn-endpoint/src/engine.rs:277-305 | in every run from two ends without a session, with nothing dropped in transit, delays within the handshake timeout, no hard deadline reached and reordering within the window: no data frame that arrives fails to open, in any delivery order and through any number of one-sided rekeys; from the end of the first handshake on both ends always have a session to send on; and a responder seals on a later key only after a frame on it arrived |
| `Greeting.NothingOpensYet` | crates/nqvpn-endpoint/src/engine.rs:455-462 | until its answer arrives a caller opens no data frame, which is why the answering side has to wait for its caller in those runs |
| `Lists.KeepLastSorted` | crates/nqvpn-proto/src/control.rs:287-291 | reverse, stable sort and dropping repeats gives the canonical form: ascending keys, the last entry of each key |
| `Lists.CanonicalIffSameMeaning` | crates/nqvpn-proto/src/control.rs:151-166 | two lists have one canonical form exactly when collecting them into a map gives the same map; canonicalising is idempotent and changes no meaning |
| `Lists.Patch` | crates/nqvpn-proto/src/control.rs:232-247 | removing and inserting one by one and listing the values in order equals the patched map |
| `Lists.DifferencePatches` | crates/nqvpn-proto/src/control.rs:187-205 | patching with the removed keys and changed entries of two maps gives the second map |
| `Snapshots.PrefixOrder` | crates/nqvpn-proto/src/control.rs:293-300 | the sort key of prefixes is the lexicographic order of family, address and length, and determines the prefix |
| `Snapshots.NormalForm` | crates/nqvpn-proto/src/control.rs:151-166 | two views normalise to the same view exactly when they mean the same; normalising is idempotent and keeps the meaning |
| `Snapshots.DiffThenApply` | crates/nqvpn-proto/src/control.rs:187-270 | for all views a and b with a older, duplicates in any order included, applying their difference to normalised a gives normalised b |
| `Snapshots.DeltaIsMinimal` | crates/nqvpn-proto/src/control.rs:187-220 | a delta names a member exactly if its entry differs or is gone, and replaces a list only if it differs |
| `Snapshots.View.Normalize` | crates/nqvpn-proto/src/control.rs:159-166 | normalising in place gives the normal form of every list |
| `Snapshots.View.Apply` | crates/nqvpn-proto/src/control.rs:225-270 | a delta up to the held generation is a no-op, one with another base is refused untouched with the gap reported, any other is merged and normalised |
| `Snapshots.View.Install` | crates/nqvpn-sync/src/link.rs:69-79 | a received snapshot replaces the copy, normalised, unless it is older than the copy |
| `Snapshots.SnapshotRepairs` | crates/nqvpn-sync/src/link.rs:69-79 | a copy takes on the meaning of any snapshot as new as itself, another one at its own generation included |
| `Directories.Directory.Recompute` | crates/nqvpn-coord/src/directory.rs:195-218 | unchanged content publishes nothing; a change takes one generation, later than the last and not before the clock, and its delta enters the bounded ring |
| `Directories.Directory.Since` | crates/nqvpn-coord/src/directory.rs:222-237 | the in-place search and contiguity check equal the specified lookup |
| `Directories.RecomputedKeepsRing` | crates/nqvpn-coord/src/directory.rs:204-217 | whatever is published, the ring leads delta by delta through the most recent views to the published one |
| `Directories.QuietIffSameContent` | crates/nqvpn-coord/src/directory.rs:195-218 | nothing is published and nothing changes exactly if the content means what is published, generation apart; a change is published as it is, under the next generation or the time if that is later |
| `Directories.CatchUpIsExact` | crates/nqvpn-coord/src/directory.rs:220-237 | a catch-up chain exists exactly for the current generation and the base generations still in the ring, and folding it over the view of that generation gives the published view |
| `Control.NetState.CatchUp` | crates/nqvpn-coord/src/control.rs:304-323 | the chain or the whole view is queued push by push; the session is synced exactly if everything fitted |
| `Control.NetState.Broadcast` | crates/nqvpn-coord/src/control.rs:333-342 | the loop queues the delta on every synced session with room and marks and closes the others |
| `Control.NetView.BroadcastQueue` | crates/nqvpn-coord/src/control.rs:333-342 | a broadcast changes no queue but those of synced sessions with room, which gain exactly the delta |
| `Control.SendAllQueues` | crates/nqvpn-coord/src/control.rs:304-329 | what is queued is a prefix of what was offered, all of it exactly if the send succeeded |
| `Control.SentIffFits` | crates/nqvpn-coord/src/control.rs:304-329 | a catch-up goes through exactly if the queue has its receiver and room for all of it |
| `Control.CatchUpSyncsIff` | crates/nqvpn-coord/src/control.rs:304-329 | a session is synced after a catch-up, with all of it queued, exactly if it fits, and closed otherwise; no other session or queue changes |
| `Control.NetState.Publish` | crates/nqvpn-coord/src/state.rs:99-113 | recompute, note and save the generation mark when it is passed, then broadcast |
| `Control.NetState.Register` | crates/nqvpn-coord/src/control.rs:206-241 | a new session supersedes the old one, the view is published, and the session is caught up outside the grace window |
| `Control.NetState.OnHeartbeat` | crates/nqvpn-coord/src/control.rs:501-513 | outside the grace window a report of another generation is caught up, one of the same generation and other content resynced from nothing |
| `Control.NetState.Teardown` | crates/nqvpn-coord/src/control.rs:274-300 | a session is removed only if it was not superseded, and then the view is published |
| `Replication.StepKeepsTruth` | crates/nqvpn-coord/src/control.rs:206-342 | every step of coordinator, members and crashes keeps: queued pushes are true, copies and reports are true, the ring is the recent past, minted generations are below the durable mark |
| `Replication.CopiesAreWhatWasPublished` | crates/nqvpn-coord/src/control.rs:501-512 | in every run a member's copy is the empty one or exactly what was published at its generation, and no report at the coordinator's generation differs from its content |
| `Replication.HeartbeatsNeverDisagree` | crates/nqvpn-coord/src/control.rs:495-512 | in every run, where the coordinator stands after a heartbeat's own publish, a report at its generation has its content: the different-view branch is never taken |
| `Replication.SuccessiveViewsDiffer` | crates/nqvpn-coord/src/directory.rs:204-206 | in every run each view a coordinator process publishes means something else than the one before it |
| `Replication.RestartIsAhead` | crates/nqvpn-coord/src/registry.rs:108-120 | in every run a restarted coordinator starts past every generation ever handed out and not before the clock |
| `Replication.GenerationsNeverRepeat` | crates/nqvpn-coord/src/registry.rs:108-120 | in every run with crashes, restarts and arbitrary clocks, generations are handed out in strictly increasing order and each names one view; saves are assumed to succeed |
| `Convergence.CatchUpWalks` | crates/nqvpn-coord/src/control.rs:304-323 | any part of a catch-up from a generation not ahead of the holder meets no gap, and all of it ends at the current generation |
| `Convergence.CatchUpReachesIff` | crates/nqvpn-coord/src/control.rs:304-323 | a whole catch-up from a reported generation takes a holder to the current view exactly if the ring no longer reaches back to it or the report is not ahead of the holder |
| `Convergence.StepKeepsFlow` | crates/nqvpn-coord/src/control.rs:206-342 | a step keeps every queue free of gaps and every open synced session on its way to the published view exactly if the report it folds in, if any, is harmless: nobody reads the session, the catch-up does not fit and closes it, the ring no longer reaches back to the reported generation, or what is already queued leads at least that far |
| `Convergence.OwnReportsAreGuarded` | crates/nqvpn-coord/src/control.rs:501-513 | a report of the instance whose session is registered is always harmless, taken after its own publish |
| `Convergence.SyncedSessionsConverge` | crates/nqvpn-coord/src/control.rs:304-342 | in every run in which no report folded in does harm, whoever reports it, no member meets a generation gap on what it still reads and every open synced session's queue takes its copy to the published view |
| `Grace.OneWindowConverges` | crates/nqvpn-coord/src/state.rs:93-95 | in every run in which no process's grace window opens again before the next restart, with replaced instances, late reports, overflows, lost connections and crashes, every report folded in is harmless, so every session converges at every point |
| `Convergence.ReplacedInstanceCanGap` | crates/nqvpn-coord/src/control.rs:443-450 | if the grace window opens again in one process, a late report of a replaced instance is caught up from a generation its replacement never held: a reachable state in which a synced session's queue meets a gap |
| `Ownership.Registrants` | crates/nqvpn-coord/src/registry.rs:176-198 | the collected lists hold, for every prefix, exactly the registrations of members that are not disabled |
| `Ownership.BestOfList` | crates/nqvpn-coord/src/registry.rs:176-198 | the first living one of a sorted list is the oldest living registrant |
| `Ownership.BestIsFirst` | crates/nqvpn-coord/src/registry.rs:176-198 | the best claim on a prefix is the one of an online member, not disabled, registered first, by the lower id within one second |
| `Ownership.DecideIsFair` | crates/nqvpn-coord/src/directory.rs:249-264 | the decision for one prefix meets the ownership rules whatever the owner before |
| `Ownership.Directory.Resolve` | crates/nqvpn-coord/src/directory.rs:240-270 | for every prefix: owned exactly while a registrant is alive, always by somebody alive; a dead owner is replaced at once by the oldest living registrant; a living registered one only by an older one past its hold-down |
| `Ownership.OwnershipSettles` | crates/nqvpn-coord/src/directory.rs:240-270 | over any run of recomputes in which nobody comes or goes, ownership changes at most once, to the oldest living registrant, and has done so once its hold-down is over |
| `Cidrs.SharedMeansNested` | crates/nqvpn-proto/src/lpm.rs:18-22 | of two prefixes that share an address the shorter contains the longer |
| `Cidrs.OverlapsIffShared` | crates/nqvpn-proto/src/lpm.rs:18-22 | the overlap test holds exactly if the prefixes share an address, and exactly if one contains the other |
| `Routes.ComputeWanted` | crates/nqvpn-endpoint/src/routes.rs:536-570 | the loops over reserved and members' prefixes give the specified set, own space left out |
| `Routes.PeerTable.Upsert` | crates/nqvpn-endpoint/src/peers.rs:128-151 | a member's routable prefixes go in under its id and what it no longer claims comes out |
| `Routes.PeerTable.ReplaceAll` | crates/nqvpn-endpoint/src/peers.rs:164-178 | the table is rebuilt from nothing by putting the members in one after the other |
| `Routes.PicksOne` | crates/nqvpn-proto/src/lpm.rs:44-53 | longest-prefix match over truncated prefixes picks at most one entry |
| `Routes.LastClaimantOwns` | crates/nqvpn-endpoint/src/peers.rs:128-151 | with distinct members and truncated prefixes every routable claimed prefix is in the table, owned by the last member that claims it |
| `Routes.TableIsExact` | crates/nqvpn-endpoint/src/peers.rs:62-151 | with distinct members and truncated prefixes the table holds exactly the prefixes another member claims that are no default and inside the allowlist, or without one at least a /8 or /16 |
| `Routes.WantedIff` | crates/nqvpn-endpoint/src/routes.rs:536-570 | exactly the reserved prefixes the policy takes, and other members' outside those, are wanted, apart from this node's own space |
| `Routes.TablesAgree` | crates/nqvpn-endpoint/src/routes.rs:536-570 | every address the rebuilt table sends to a peer lies in a wanted route or in this node's own space, although covered member routes are dropped |
| `Routes.WantedIsNotOurs` | crates/nqvpn-endpoint/src/routes.rs:557-568 | no wanted route lies in this node's own space, apart from defaults |
| `OsRoutes.ExcludeLocal` | crates/nqvpn-endpoint/src/routes.rs:591-605 | wanted routes are split without loss into those without a reason for exclusion and those with one, the reason attached |
| `OsRoutes.OffTunnelStaysOff` | crates/nqvpn-endpoint/src/routes.rs:573-605 | installing the kept routes changes nothing for any address on a connected network or any underlay host: longest-prefix match chooses exactly the same off-tunnel routes |
| `OsRoutes.RouteSet.ReconcileViaKernel` | crates/nqvpn-endpoint/src/routes.rs:665-729 | for any table and any set of refused calls: the final table, the number of calls and the error are as computed from the three rounds |
| `OsRoutes.ReconcileSettles` | crates/nqvpn-endpoint/src/routes.rs:665-729 | if no call is refused the table ends at the wanted routes plus the connected own-address routes from any start; running again makes no call exactly if no wanted prefix is one of our own addresses |
| `OsRoutes.ReaddressingRebinds` | crates/nqvpn-endpoint/src/routes.rs:676-685 | under own addresses that changed since the last reconcile every route of the device goes and every wanted one is put back; otherwise no wanted route that is there is touched |
| `OsRoutes.ViewReconcileSettles` | crates/nqvpn-endpoint/src/routes.rs:536-729 | whatever part of a view's wanted routes is reconciled from any table, running it again changes nothing and is silent unless a default is reserved, wanted and one of this node's own prefixes |
| `Pins.Pinner.Sweep` | crates/nqvpn-endpoint/src/routes.rs:334-340 | unwanted pins go, kernel before journal, each operation one step of the crash machine; what the kernel would not delete is among the stuck routes |
| `Pins.Pinner.PinOne` | crates/nqvpn-endpoint/src/routes.rs:342-375 | delete, then forget a moved pin; record, then add, then forget again what is not ours, each one step of the crash machine; other hosts are untouched, a host is reported exactly if it has a gateway and its route can be added or is journaled through it, and it is then journaled through the gateway or has a route through it |
| `Pins.Pinner.ReconcilePins` | crates/nqvpn-endpoint/src/routes.rs:332-378 | for any gateways, refused adds and refused deletions the loops are a path of the crash machine from idle to idle; only wanted hosts stay journaled, an empty want set leaves of ours only what the kernel refused to delete, and exactly those hosts are reported |
| `Pins.PinsAreNeverOrphaned` | crates/nqvpn-endpoint/src/routes.rs:188-282 | over any run of reconciles, gateway moves, refused calls, crashes and restarts, between any two operations every route we created and have not deleted is journaled with its gateway or its deletion was refused; until an entry outlives its route the journal is exact between reconciles and no foreign route was deleted |
| `Pins.EmptyWantLeavesNothing` | crates/nqvpn-endpoint/src/routes.rs:326-329 | a reconcile that wants nothing ends, after any history of crashes, with an empty journal and of our routes only those the kernel refused to delete |
| `Pins.DeleteThenForgetIff` | crates/nqvpn-endpoint/src/routes.rs:337-338 | deleting a journaled route and forgetting it leaves every route of ours journaled exactly if the kernel obeyed or the route was not there as ours |
| `Pins.PinGoesIff` | crates/nqvpn-endpoint/src/routes.rs:334-356 | one of our routes goes in a step exactly if the kernel dropped it, or obeyed a deletion of a host journaled with that gateway and no longer wanted or reached through another gateway |
| `Pins.PinComesIff` | crates/nqvpn-endpoint/src/routes.rs:357-363 | one of our routes comes exactly if it was journaled and about to be added, the kernel obeyed and nobody else had it |
| `Pins.RefusedDeletionOrphans` | crates/nqvpn-endpoint/src/routes.rs:1132-1142 | a run in which the kernel refuses a deletion, the error is dropped and the entry forgotten: a route of ours stays behind without an entry |
| `Pins.CrashKeepsExactIff` | crates/nqvpn-endpoint/src/routes.rs:357-373 | while no entry has outlived its route, a crash leaves the journal exact exactly unless the host in hand is still journaled with no route of ours behind it |
| `Pins.InexactCanCost` | crates/nqvpn-endpoint/src/routes.rs:334-340 | from any idle state whose journal lists a route that is not ours, a foreign route put there meanwhile is deleted by the next reconcile |
| `Pins.CrashCanCostAForeignRoute` | crates/nqvpn-endpoint/src/routes.rs:357-368 | a crash between journaling a pin and learning that the route is somebody else's lets the next process delete that route |
| `RouteAll.ExitIsUsable` | crates/nqvpn-endpoint/src/routes.rs:423-431 | the chosen exit is an online owner of the default, there is none only if nobody qualifies, the preferred name wins if it qualifies, else the relay attached to |
| `RouteAll.ExitIffClaimed` | crates/nqvpn-endpoint/src/routes.rs:423-431 | there is an exit exactly if somebody online claims the whole family |
| `RouteAll.LowestExit` | crates/nqvpn-endpoint/src/routes.rs:430-430 | with neither preference nor attachment to go by, the exit has the lowest id of those that qualify |
| `RouteAll.HalvesCover` | crates/nqvpn-endpoint/src/routes.rs:66-75 | the two catch-all halves cover every address of their family exactly once and are longer than the default |
| `RouteAll.RouteAllPlan` | crates/nqvpn-endpoint/src/routes.rs:470-499 | the loop over the two families builds the specified plan |
| `RouteAll.ArmedExactly` | crates/nqvpn-endpoint/src/routes.rs:470-499 | a family is armed exactly if it has a usable exit and arming is safe, its routes and exits say the same, and it is marked failed closed exactly if some host of it is unpinned |
| `RouteAll.LeftOffIff` | crates/nqvpn-endpoint/src/routes.rs:444-499 | on the addresses alone: a family stays on the real default exactly if nobody online claims it whole, or one of its transport addresses is neither pinned nor on a connected network and the other family has no transport or such an address too; an exposed resolver alone never keeps it off but marks it failed closed |
| `RouteAll.ExitsAreChosen` | crates/nqvpn-endpoint/src/routes.rs:485-488 | the exit of an armed family is the one chosen for that family |
| `RouteAll.TransportSurvives` | crates/nqvpn-endpoint/src/routes.rs:384-391 | for every view, non-empty transport, connected networks and pin outcome, some transport address is pinned, on a connected network, or of a family left alone |
| `RouteAll.DegradedAlone` | crates/nqvpn-endpoint/src/routes.rs:485-490 | a family with unpinned transport is armed only if the other family's transport is whole, so never both in that state |
| `Ipam.ScanFromCursor` | crates/nqvpn-coord/src/ipam.rs:189-207 | the scan grants the first free address from the cursor on, wrapping, and moves the cursor just past it |
| `Ipam.ScanFailsIffFull` | crates/nqvpn-coord/src/ipam.rs:189-207 | a scan grants nothing exactly if every address of the span is taken |
| `Ipam.SpanIsTheHosts` | crates/nqvpn-coord/src/ipam.rs:211-219 | a scan covers every IPv4 address of the range but the first and last, or all of a /31 or /32, and the first so many IPv6 addresses after the network address |
| `Ipam.CursorIsFair` | crates/nqvpn-coord/src/ipam.rs:185-207 | over an unchanged range, between two scan grants of one address every other address was granted or found taken |
| `Ipam.CursorIsFairInRuns` | crates/nqvpn-coord/src/ipam.rs:185-207 | in every run, with reclaims, refused joins, rolled-back saves, edits and deletions in between: if a scan grants one address twice over an unchanged range, every other address of it was granted or found taken by a scan in between |
| `Ipam.FindVictim` | crates/nqvpn-coord/src/ipam.rs:141-183 | the victim is the longest gone of the offline, unattached, configured clients holding a dynamic address in the range; there is none only if nobody qualifies |
| `Ipam.VictimIff` | crates/nqvpn-coord/src/ipam.rs:157-181 | on the fields: an address can be reclaimed exactly from another configured client, offline and attached nowhere, that was seen to leave or last joined a liveness window ago, if it lies in the range and is nobody's static address; the victim is the one heard of longest ago, by the lower id |
| `Ipam.ReclaimedOnlyWhenFull` | crates/nqvpn-coord/src/ipam.rs:221-250 | an address is reclaimed only when every host address is taken, from that victim alone, whose login generation is bumped |
| `Ipam.Network.Alloc` | crates/nqvpn-coord/src/ipam.rs:221-286 | one family: a scan grant, a reclaim, or nothing with the registry untouched |
| `Ipam.Network.Allocate` | crates/nqvpn-coord/src/ipam.rs:50-116 | both wanted addresses are checked before anything changes; every failure leaves the registry as it was |
| `Ipam.RefusedIff` | crates/nqvpn-coord/src/ipam.rs:70-97 | a wanted address is refused as in use exactly if, routable and in the range, another record holds it or another member has it configured, and granted exactly if it is free for the member |
| `Ipam.UnroutableRanges` | crates/nqvpn-coord/src/ipam.rs:119-131 | the addresses never granted as static ones are exactly the unspecified, loopback, multicast and IPv4 broadcast ranges |
| `Ipam.RejoinKeepsTheAddress` | crates/nqvpn-coord/src/ipam.rs:99-115 | a member without a static address that holds one in the range is granted that one when it joins again |
| `Ipam.Network.Join` | crates/nqvpn-coord/src/state.rs:510-588 | refusal, failed allocation or failed save leave the registry unchanged; success enrols the member under its old or a never-used id with exactly the granted addresses |
| `Ipam.JoinRecords` | crates/nqvpn-coord/src/state.rs:510-588 | a join changes nothing unless the member is configured, not disabled and the save succeeded; else it writes that member's record, bumping its login generation exactly if it was replaced, under its old id or one not below the counter, and of other records changes at most addresses and login generations |
| `Ipam.IdsNeverReused` | crates/nqvpn-coord/src/registry.rs:134-146 | in every run an id belongs to one name for good, and the id of a deleted record never comes back |
| `Ipam.ValidateAssignments` | crates/nqvpn-coord/src/admin.rs:89-114 | the loops accept a configuration exactly if everything held stays in its range and no static address is held by somebody else |
| `Ipam.Network.EditConfig` | crates/nqvpn-coord/src/admin.rs:197-216 | a configuration is taken over exactly if it fits what is held |
| `Ipam.JoinKeeps` | crates/nqvpn-coord/src/state.rs:510-588 | every join keeps the registry's invariant |
| `Ipam.AddressesNeverCollide` | crates/nqvpn-coord/src/ipam.rs:50-116 | over any interleaving of joins, reclaims, deletions and accepted edits no two records hold one address, nobody holds another configured member's static address, and every address lies in its tunnel range |
| `Ipam.StaticIsGrantedAgain` | crates/nqvpn-coord/src/ipam.rs:72-97 | in every run a member whose record holds its static addresses holds them while they stay configured, whoever joins or is reclaimed, and is granted exactly them by every later join |
| `Leasing.Leases.Heartbeat` | crates/nqvpn-coord/src/leases.rs:84-135 | folding a report in is the specified transition and keeps claim numbers distinct |
| `Leasing.Leases.Declare` | crates/nqvpn-coord/src/leases.rs:98-124 | known sessions keep their claim, others take the next number, claims not repeated are dropped |
| `Leasing.ClaimsAfterReport` | crates/nqvpn-coord/src/leases.rs:98-124 | after a relay's report it claims exactly the clients it named, each under the session it said last; a claim keeps its number exactly if that session was declared before, and is numbered above every claim otherwise; no other relay's claims change |
| `Leasing.NewSessionAttaches` | crates/nqvpn-coord/src/leases.rs:98-124 | a client that shows up at a relay under a new session and does not say otherwise is attached there |
| `Leasing.ReportsChangeIff` | crates/nqvpn-coord/src/leases.rs:98-124 | a relay that names nobody twice reports a change exactly if its claims are not what they were |
| `Leasing.HeartbeatClaims` | crates/nqvpn-coord/src/leases.rs:84-135 | a relay's heartbeat leaves it claiming exactly the known clients among as many entries as are read, a client's leaves it saying what it said and every claim as it was |
| `Leasing.Leases.Expire` | crates/nqvpn-coord/src/leases.rs:140-151 | everybody silent for longer than the window goes offline, nobody else, and claims stay |
| `Leasing.OnlineIff` | crates/nqvpn-coord/src/leases.rs:67-75 | in every run a member is online exactly if it was heard from and since then has neither left, nor been forgotten, nor been silent for longer than the window of a sweep; its lease dates from that time |
| `Leasing.ForgottenIsGone` | crates/nqvpn-coord/src/leases.rs:155-169 | nobody claims a forgotten member, a forgotten relay claims nobody, nothing else is dropped |
| `Leasing.Leases.Attachments` | crates/nqvpn-coord/src/leases.rs:204-220 | each client with a standing claim is at the relay of its most recent standing claim |
| `Leasing.OneTable` | crates/nqvpn-coord/src/leases.rs:204-220 | with distinct claim numbers there is only one such table, whatever the order of iteration |
| `Leasing.ClientHasTheLastWord` | crates/nqvpn-coord/src/leases.rs:204-220 | a client that says where it is attached is shown there exactly if that relay claims it, and nowhere else; one that does not say is shown at the relay of the most recent claim, if there is one |
| `Leasing.QuietHeartbeat` | crates/nqvpn-coord/src/leases.rs:84-135 | a heartbeat that reports no change leaves the online set, the online-since times and the attachments as they were |
| `Leasing.NetState.PublishSoon` | crates/nqvpn-coord/src/state.rs:121-132 | publish now or schedule a trailing publish once, within the debounce interval |
| `Leasing.NetState.OnHeartbeat` | crates/nqvpn-coord/src/control.rs:474-500 | after a heartbeat the view is up to date or a trailing publish is scheduled |
| `Leasing.ReportPublishesIff` | crates/nqvpn-coord/src/control.rs:474-500 | a report recomputes the view exactly if it changed something and the last publish is at least 150 ms old, schedules a trailing publish if it is younger, and changes no MTU but the sender's |
| `Leasing.MtuIs` | crates/nqvpn-coord/src/directory.rs:62-66 | a reported MTU is taken as the ceiling if it reaches it, else as the largest multiple of eight in it, and never below the IPv6 minimum, not even under a ceiling below it, which the comment there does not say |
| `Leasing.NoReportIsLost` | crates/nqvpn-coord/src/state.rs:677-688 | at every point of every run the published view is derived from what is held now, or a trailing publish is scheduled, or a member counted as offline refreshed its credential since the last publish; and claim numbers are distinct |
| `Leasing.RefreshKeepsIff` | crates/nqvpn-coord/src/control.rs:451-465 | a credential refresh, which marks a member seen without publishing, loses nothing exactly if the member was online or a trailing publish was scheduled |
| `Leasing.RefreshCanLoseAReturn` | crates/nqvpn-coord/src/control.rs:464-464 | a member registers, is swept offline, and its late refresh leaves the view behind with nothing scheduled |

## Left out

- Noise, AEAD, Ed25519, X25519, TLS: symbolic keys and sealed frames only; no claim about the primitives.
- Packet parsing, the ingress filter and the outbound lookup: a packet is an opaque value addressed to a peer, and an opened packet may be dropped before the TUN.
- Nonce exhaustion and the failure of a library call while sealing: sealing on a ready session succeeds.
- Greeting.RekeysLoseNothing: covers rekeys started by one side at a time under one shared clock, and one that is due only by the number of frames sealed waits out frames on an older key; crossings are covered by `Network`, without time. The answering side of the first handshake sends once its caller has the answer; see `Greeting.NothingOpensYet` for why.
- The building of a view's content from registry and leases (members' prefixes, attachments, reserved prefixes, relay endpoints): an input of a recompute.
- Key ids are numbers in the order of their spellings; names, addresses and fingerprints are opaque strings.
- Counters are unbounded: generations, claim numbers, clocks in milliseconds and login generations do not wrap; the saturating login generation of a reclaim is modelled as such.
- Replication.GenerationsNeverRepeat: assumes that saving the generation mark succeeds; the code logs a failed save and goes on.
- Convergence.SyncedSessionsConverge: assumes that no report folded in does harm, which is exact (`Convergence.StepKeepsFlow`) and follows where no grace window opens again (`Grace.OneWindowConverges`).
- Sessions.SessionTable: the hash maps of the source are maps; iteration order is arbitrary where the source's is.
- The cache-based reconcile, re-asserting routes, set_default_exit and the device's own life cycle: only the reconcile against the kernel is modelled.
- Writing the pin journal to disk: each record and forget is one durable step; a failed write is not modelled. Whether a route exists before a deletion is the kernel's answer to that deletion.
- The relay's forwarding, the session transport, UDP forwarding and the TUN: not part of this model.
- SQLite, JSON, TOML and bincode encodings, HTTP and WebSocket interfaces, admin login, secrets and tokens: wrappers around what is modelled.
- Heartbeat budget, traffic samples, counters, traces and status output: nothing derived from them is published.
