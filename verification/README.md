# corosync: message layer, synchronization, process groups and configuration

Dafny 4.11 models of the parts of corosync that sit on top of the totally ordered
multicast, with proofs about them. `dafny verify dfyconfig.toml` checks all of it.

The models take Totem's agreed order as given: every member of a ring delivers one
log in one order. On top of that, in the system's own terms:

* **Packing, fragmentation, reassembly** (`exec/totempg.c`): messages are staged,
  packed, cut into numbered fragments and rebuilt per sender. `Packing`, `Fragments`,
  `Stream`, `Reassembly`, `Delivery`, `RoundTrip`, `LateJoiner`, `Wire`, `EndToEnd` and
  `Groups` are the functions and the laws, `Sender` and `Receiver` the code with its buffers
  and loops. Main results: `RoundTrip.DeliveredIsSent`, `EndToEnd.BytesDelivered`,
  `LateJoiner.LateJoinerSuffix`, `Delivery.RunsExactly`, `Groups.GroupDelivery`,
  `Stream.ScheduleBounds`.
* **The barrier protocol** (`exec/sync.c`, driven by `confchg_fn` of `exec/main.c`): any
  number of nodes, any sequence of configuration changes and restarts, one log per ring,
  and the two queues of unsent messages that totemsrp has for the time of a
  synchronization and for the rest (`exec/totemsrp.c:2510-2514`, `2741-2745`). `Sync` has
  the handlers, `SyncProtocol` the state machine, `SyncInvariant` what every step keeps,
  `SyncOpening` and `SyncDiscipline` what a service sees, `SyncService` the code. Main
  results: `SyncSafety.BarrierIsCurrent`, `SyncSafety.BarrierSafety`,
  `SyncBarrier.FinishedBefore`, `SyncSafety.ServiceListAgreement`,
  `SyncProgress.Completion`, `SyncProgress.ComesToRest`, `SyncDiscipline.ActivateOrAbort`.
* **Closed process groups** (`exec/cpg.c`) on top of that protocol: `Cpg` has the
  handlers, `CpgChain`, `CpgActivation` and `CpgReasons` the configuration changes that
  clients see, `CpgWorld` the two machines together, `CpgConvergence` and `CpgDownlist` the
  invariants of the composition, `CpgService` and `CpgIteration` the code. Main results:
  `CpgAgreement.Agreement`, `CpgAgreement.Convergence`, `CpgFlow.OnlyExits`,
  `CpgAgreement.ClientsAreTold`, `CpgActivation.ActivateExactly`,
  `CpgDownlist.DownlistIs`, `CpgDownlist.DeadAreReported`.
* **Sequential parts**: the ring buffer (`CsQueue`), the per-connection event queue
  (`OutQueue`), the configuration map and its reload (`Icmap`, `KeyOrder`,
  `ConfigReload`), and the configuration file parser (`ConfLine`, `ConfParser`,
  `ConfRoundTrip`, `ConfExact`).

What is given rather than computed: the answers of the queue-space test, of
`sync_process` and of the multicast calls, of the parser callback and of the IPC
library, and the order in which nodes take steps. Each of them is a parameter, and
the theorems hold for all values. Which unsent messages are in which of the two queues
is more general than in the code, where the queues change places at a transitional
configuration and when the synchronization is over: while a node does not synchronize,
its queues may be exchanged, split and reordered at any time (`Exchange` of
`SyncProtocol`), and at a regular configuration any of the messages in the queue in use
may survive.

## Where the code does not do what one might expect

* Two members of a ring need not end a synchronization with the same processes. They do
  exactly when both still have, on activation, the processes they announced
  (`CpgAgreement.Agreement`). Flow control leaves one way in which they do not
  (`CpgFlow.OnlyExits`), and `CpgExitRun.Disagreement` is a run of it: a client exits
  between the joinlist of its node and the activation; its leave message is not subject
  to flow control (`exec/cpg.c:1046-1061`), and the other node adds the process again
  from the joinlist.
* The batched configuration changes are looked up by C string: on the downlist that of
  the name, on the joinlist that of the whole buffer with the bytes a client left behind
  the name (`exec/cpg.c:864`, `1220`). So a zero byte in a name can leave a group without
  its change (`CpgChain.ZeroByteBreaksChain`), and bytes behind a name can split the
  change of a group or merge those of two (`CpgChain.BytesBehindBreakChain`). The exact
  conditions are in `CpgChain.DownlistChain`, `CpgChain.JoinlistChain` and, for both
  together, `CpgActivation.ActivateExactly` and `CpgActivation.ActivateSoundly`. Clients are
  told the truth if their names have no zero byte and a zero behind them
  (`CpgAgreement.ClientsAreTold`).
* A batch has room for 128 processes and is filled without a test. An array is written
  past its end exactly if more processes have one key (`CpgChain.FitsExactly`); `overrun`
  records this, and nothing is claimed about clients afterwards.
* A receiver that has missed the beginning of a message can trip the capacity assertion
  on messages within the size limit: the only piece of a packet with fragment number 1
  is counted twice (`exec/totempg.c:694`, `737`). `LateJoiner.LateOverflow` is such a
  message, `Delivery.RunsExactly` the exact condition, and messages of half the limit
  are safe (`LateJoiner.LateNoOverflow`).
* After a hard error in a flush of the event queue nothing schedules another one, so
  the queued events stay there for good (`OutQueue.FlushScheduled`,
  `OutQueue.StallIsFinal`).
* A string value of 16384 characters can be set but not copied, so a reload that has to
  copy one fails (`Icmap.LongestStringIsNotCopied`, `ConfigReload.Reload`).
* The check of `cs_queue_avail` fails exactly for a full buffer (`CsQueue.Queue.Avail`),
  removing no items from a full buffer trips the other one, and removing more than one
  item too many passes it (`CsQueue.TailMeetsHead`).
* The check for an empty key misses lines such as `: v` (`ConfLine.ColonInKey`).

## Model

| member | source | states |
|---|---|---|
| `Packing.FitTestDoesNotWrap` | exec/totempg.c:903-939 | in every reachable stage at least two bytes of room are left for the next length, so the unsigned subtraction of the fit test never wraps |
| `Packing.PackBounds` | exec/totempg.c:927-1028 | every packet sent by the copy loop has at least one piece, no empty piece, and at most the bytes of the MTU |
| `Packing.FlushBounds` | exec/totempg.c:748-797 | so has the packet of a token flush |
| `Fragments.StagedExactly` | exec/totempg.c:939-1041 | a message is only staged, and then behind the others, if and only if with them and their lengths it leaves room in the packet; otherwise packets go out |
| `Fragments.BufferIsCut` | exec/totempg.c:955-1010 | the packets of one buffer are full to the byte and have fragment numbers one after the other that wrap past zero, up to a last one that ends it; from the second on they carry nothing else, and neither does the first if nothing was staged |
| `Stream.PackSpells` | exec/totempg.c:927-1028 | what is on the wire and staged spells the messages before plus the part of the current one that was copied, at every point of the copy loop |
| `Stream.StreamConservation` | exec/totempg.c:748-1044 | over every schedule of sends, refused sends and token flushes: completed messages followed by the partial and staged ones are the messages accepted, in order; after a token that finds queue space nothing is staged, and the packets alone spell them; continuation numbers match, and number 0 stands only on packets that end with a whole message |
| `Stream.TokenSends` | exec/totempg.c:748-797 | a token that finds space sends one unfragmented packet with all that is staged, if anything is, and leaves the stage empty; without space it changes nothing |
| `Stream.ScheduleBounds` | exec/totempg.c:870-1044 | over every schedule of sends and token flushes every packet carries data and at most the bytes of the MTU |
| `Reassembly.DeliverInStep` | exec/totempg.c:662-738 | a receiver that is in step with the sender delivers exactly the messages that end in the packet and keeps exactly the open fragment |
| `Reassembly.DeliverLost` | exec/totempg.c:687-738 | a receiver that has missed the beginning delivers nothing and stays so until a packet that ends a message |
| `Delivery.ReceiveEntry` | exec/totempg.c:290-376 | a packet changes the assembly of its sender only; there is at most one assembly per node in each list |
| `Delivery.RunAgrees` | exec/totempg.c:589-739 | over any interleaving of senders the receiver tracks for each of them the reference reading of its packets |
| `Delivery.ReceiveLists` | exec/totempg.c:290-344 | while the acknowledgement of a configuration change is awaited only the transitional list changes, otherwise only the other; an assembly is made only if the node has none and none is free |
| `RoundTrip.NoOverflow` | exec/totempg.c:662-664 | with messages up to the size limit the assembly buffer never overflows, over any interleaving of any schedules |
| `RoundTrip.DeliveredIsSent` | exec/totempg.c:589-1044 | round trip: for every schedule and packet size of every sender and any interleaving of their packets, what is delivered per sender is a prefix of what it sent, and all of it when all packets have arrived and its schedule ends with a token that finds queue space |
| `LateJoiner.FollowLate` | exec/totempg.c:687-738 | a receiver that starts at an arbitrary packet reads exactly the messages from the next boundary on |
| `Delivery.RunsExactly` | exec/totempg.c:662-664 | over any interleaving of streams seen from anywhere, the capacity assertion holds if and only if every packet finds room behind what the reference receiver has in its buffer |
| `LateJoiner.LateJoinerSuffix` | exec/totempg.c:687-738 | late joiner: for all senders at once, each seen from an arbitrary packet on, the receiver survives if and only if every packet finds room, and then has delivered exactly the messages from the next boundary on; never a part of one |
| `LateJoiner.HeldTwice` | exec/totempg.c:687-738 | a late joiner never has more than twice the unfinished message in its buffer |
| `LateJoiner.LateNoOverflow` | exec/totempg.c:662-738 | with messages up to half the size limit a late joiner never trips the capacity assertion |
| `LateJoiner.LateOverflow` | exec/totempg.c:662-738 | a message within the size limit of whose packets a receiver misses the first, and then trips the capacity assertion |
| `Wire.DecodeEncode` | exec/totempg.c:611-660 | a packet that is encoded and decoded is the packet |
| `Wire.Layout` | exec/totempg.c:611-660 | the bytes of a packet: eight of header with fragment number, continuation and count, two per length with the low byte first, then the data |
| `Wire.MalformedIsIgnored` | exec/totempg.c:608-660 | bytes that fail a length check deliver nothing and leave every assembly as it was; a sender without one gets an empty one |
| `Wire.DecodeIsExact` | exec/totempg.c:611-660 | bytes pass the three length checks if and only if they are the encoding of a frame, and then of the one that is read |
| `Wire.PacketEncodable` | exec/totempg.c:990-997 | packets within the packet size have lengths that fit 16 bits |
| `EndToEnd.RunBytesIsRun` | exec/totempg.c:589-739 | receiving the encoded packets is receiving the packets, whatever the log |
| `EndToEnd.BytesDelivered` | exec/totempg.c:589-1044 | round trip on bytes: for every schedule and packet size of every sender and any interleaving of the bytes they send, the receiver survives and delivers per sender a prefix of what it sent, all of it when everything has arrived and its schedule ends with a token that finds queue space |
| `EndToEnd.LateBytes` | exec/totempg.c:589-739 | late joiner on bytes: whatever the place at which the receiver starts in each stream, it survives if and only if every packet finds room, and then delivers the messages from the place of resumption on |
| `EndToEnd.GroupBytes` | exec/totempg.c:506-739 | group addressing on bytes: per sender in order, an instance is given exactly the payloads addressed to one of its groups, all of them when everything has arrived and the sender's schedule ends with a token that finds queue space |
| `Groups.GroupMatches` | exec/totempg.c:448-503 | the nested search answers whether the message names a group of the instance, and how long the header is |
| `Groups.AddressRead` | exec/totempg.c:1251-1267 | a message addressed to groups is read back with these groups and this payload |
| `Groups.GroupDelivery` | exec/totempg.c:506-572 | end to end: per sender in order, an instance is given exactly the payloads of the messages addressed to one of its groups, for any interleaving; all of them when everything has arrived and the sender's schedule ends with a token that finds queue space |
| `Sender.PacketSender.SendWhatFits` | exec/totempg.c:955-1010 | the send branch with its buffers emits the packet of the specification and empties the stage |
| `Sender.PacketSender.CopyLoop` | exec/totempg.c:927-1028 | the loop terminates and computes the packing of the specification |
| `Sender.PacketSender.McastMsg` | exec/totempg.c:870-1044 | a send is refused without a change or packs the message as specified; the staged lengths always add up to the bytes in the buffer |
| `Sender.PacketSender.TokenReceived` | exec/totempg.c:748-797 | a token with space flushes the staged messages in one packet and leaves none; it does nothing when there are none or no space |
| `Receiver.AssemblyBuffer.DeliverFrame` | exec/totempg.c:662-738 | the capacity assertion, then copying, delivering and moving within the buffer, give the outcome of the specification |
| `Receiver.PacketReceiver.AssemblyRef` | exec/totempg.c:290-344 | the assembly of the node is found, reused from the free list, or made |
| `Receiver.PacketReceiver.DeliverFn` | exec/totempg.c:589-739 | whatever arrives, malformed packets and those that end the program included, has the effect of the specification |
| `Receiver.PacketReceiver.WaitingTransAckChanged` | exec/totempg.c:284-288 | which list is in use changes, the lists do not |
| `Receiver.PacketReceiver.NodesLeft` | exec/totempg.c:352-376 | the assemblies of nodes that left go from both lists to the head of the free list, in this order |
| `Receiver.ReclaimedCount` | exec/totempg.c:352-376 | no assembly is lost and none is made when nodes leave |
| `SyncLists.MergeMore` | exec/sync.c:265-298 | adding the unknown ids of a message and sorting keeps the list sorted and free of duplicates, with all ids of both |
| `SyncLists.MergedIsSorted` | exec/sync.c:265-298 | such a list is the sorted sequence of its ids, whatever the order of arrival |
| `SyncInvariant.AcceptedBarrierIsCurrent` | exec/sync.c:197-207 | in a good state, a barrier message of the current ring is about the service being processed, and the ring is not completed |
| `SyncInvariant.DeliverBuild` | exec/sync.c:252-313 | delivering a service list keeps the invariant of the node |
| `SyncInvariant.DeliverBarrier` | exec/sync.c:191-229 | delivering a barrier message keeps the invariant of the node |
| `SyncInvariant.WorkStep` | exec/sync.c:493-510 | the scheduled call keeps the invariant of the node |
| `SyncInvariant.OriginateRing` | exec/sync.c:333-374 | in every prefix of the log the members stay at most one message apart |
| `SyncInvariant.BothClear` | exec/totemsrp.c:2741-2745 | while a node does not synchronize, neither of its two queues has a synchronization message of its ring |
| `SyncInvariant.InvStep` | exec/sync.c:191-559 | every step of every node, configuration changes included, keeps the invariant of the system |
| `SyncInvariant.Reachable` | exec/sync.c:191-559 | the invariant holds after every sequence of steps |
| `SyncSafety.BarrierIsCurrent` | exec/sync.c:197-229 | in every run a barrier message that passes the ring check is for the current index, none is accepted after completion, and the service list is never indexed beyond its end |
| `SyncSafety.BarrierSafety` | exec/sync.c:191-229 | in every run no node activates a service before every member of the ring has finished processing it |
| `SyncBarrier.FinishedBefore` | exec/sync.c:191-229 | the same on the steps of a run: before a delivery takes a node past a service, on every member of the ring a scheduled call was a successful `sync_process` of that service in that ring |
| `SyncBarrier.ActivationIsCommit` | exec/sync.c:217-221 | a step in which a service is told to activate is such a delivery |
| `SyncBarrier.FinishedInSteps` | exec/sync.c:493-510 | every recorded finish of a service is a successful scheduled call in the run |
| `SyncSafety.ServiceListAgreement` | exec/sync.c:252-313 | past the exchange every node has the duplicate-free sorted union of all members' services |
| `SyncProgress.NoDeadlock` | exec/sync.c:408-510 | in a stable ring with an incomplete member some member can send, deliver or process |
| `SyncProgress.ProgressFalls` | exec/sync.c:191-229 | a measure on what is left falls with every step that makes progress |
| `SyncProgress.BoundedWork` | exec/sync.c:408-510 | so the number of such steps is bounded by the measure |
| `SyncProgress.Completion` | exec/sync.c:408-510 | from every reachable state with a stable ring, whatever progress its members make: they make only so much, and when they can make no more all of them have activated every service |
| `SyncProgress.ComesToRest` | exec/sync.c:408-510 | from there some run of such steps does end at rest, with all members completed |
| `SyncDiscipline.ActivateOrAbort` | exec/sync.c:535-559 | in every run each service that was processed in a round is activated or aborted before the next round begins, never both; and each round begins with the `sync_init` of all loaded services, ascending, and makes none later and no call to any other service |
| `SyncOpening.OpenReachable` | exec/sync.c:398-405 | in every run a node that is in a ring has begun its round so, with the services loaded in that ring |
| `SyncOpening.InitBefore` | exec/sync.c:398-405 | so every processing, activation and abort of a service comes behind its `sync_init` in the same round |
| `SyncOpening.InitOnce` | exec/sync.c:398-405 | and no service gets two in one round |
| `SyncService.Synchronizer.BarrierHandler` | exec/sync.c:191-229 | the handler with its two loops is the step of the specification |
| `SyncService.Synchronizer.ServiceBuildHandler` | exec/sync.c:252-313 | the nested searches, the sort and the bookkeeping are the step of the specification |
| `SyncService.Synchronizer.ProcessEnter` | exec/sync.c:408-429 | clearing and scheduling, or completing when there are no services |
| `SyncService.Synchronizer.FilterTransitional` | exec/sync.c:383-396 | the transitional list keeps its members that are in the new ring |
| `SyncService.Synchronizer.LoadedServices` | exec/sync.c:459-479 | the ids of the services with callbacks, ascending |
| `SyncService.Synchronizer.ServicelistBuildEnter` | exec/sync.c:431-491 | the state, the message and the calls of a new round |
| `SyncService.Synchronizer.Start` | exec/sync.c:512-522 | a new round under the new ring id |
| `SyncService.Synchronizer.SchedwrkProcessor` | exec/sync.c:493-510 | a barrier message follows a successful call, nothing an unsuccessful one |
| `SyncService.Synchronizer.Abort` | exec/sync.c:535-559 | the service in progress is aborted and the ring id cleared |
| `SyncService.Synchronizer.Confchg` | exec/main.c:380-424 | what is aborted, saved and started on transitional and regular configurations |
| `SyncService.Synchronizer.SyncCompleted` | exec/main.c:301-317 | the in-process flag is cleared |
| `CpgLists.InsertOk` | exec/cpg.c:1195-1208 | inserting a process that is not in the list keeps it sorted by node and pid and free of duplicates |
| `CpgLists.RemoveOk` | exec/cpg.c:1253-1261 | so does removing one |
| `CpgLists.SameProcessesSameMembers` | exec/cpg.c:644-685 | two good lists of the same processes give the same member sequence for every group |
| `CpgLists.MembersAscend` | exec/cpg.c:644-685 | the members of a group are listed by node id, then process id, ascending |
| `CpgChain.JoinChain` | exec/cpg.c:1168-1232 | a join is reported as the previous members plus the process, and clients are up to date |
| `CpgChain.LeaveChain` | exec/cpg.c:1234-1262 | a leave is reported as the previous members minus the process, and clients are up to date |
| `CpgChain.BatchCollects` | exec/cpg.c:850-880 | whatever the buffers, there is one batch per key, named after the first process with that key, with all processes of the key and as many entries |
| `CpgChain.DownlistChain` | exec/cpg.c:825-906 | for the processes of nodes that left, the chain of changes continues if and only if no two names with the same C string are involved, and an array is too short if and only if more than 128 processes have one key |
| `CpgChain.JoinlistChain` | exec/cpg.c:954-995 | for the processes that joinlists add: the chain continues if and only if every group leads exactly one batch and those under its key are those of the group; an array is too short if and only if more than 128 processes have one key |
| `CpgChain.FaithfulSound` | exec/cpg.c:1220-1231 | this holds if equal keys mean equal groups and the other way round, and only then if no process id joins two groups at once |
| `CpgChain.FitsExactly` | exec/cpg.c:862-876 | an array is written past its end if and only if more than 128 processes have one key |
| `CpgChain.ZombieChain` | exec/cpg.c:911-952 | removing processes that no joinlist mentions continues the chain |
| `CpgChain.ActivateChain` | exec/cpg.c:578-591 | activation as a whole continues the chain if the keys stand for the groups; an array is too short if and only if it is for one of the two batches |
| `CpgActivation.ActivateExactly` | exec/cpg.c:578-591 | activation as a whole continues the chain if and only if equal keys and equal groups are the same, for the processes that the downlist removes and for those that the joinlists add: nothing later makes a missing change good |
| `CpgActivation.ActivateSoundly` | exec/cpg.c:578-591 | with a downlist that tells the groups apart, activation continues the chain if and only if the batches of the joinlist tell every group what it gains, also with process ids in several groups |
| `CpgActivation.ComesBackUnnoticed` | exec/cpg.c:578-591 | a process in two groups leaves and comes back with its node: neither list tells the groups apart, one group is told nothing, and clients still know the members |
| `CpgReasons.MessageReasons` | exec/cpg.c:1272-1339 | a join message is reported as a join (reason 1) of that process only, a leave message with the reason it has, other messages not at all |
| `CpgReasons.ActivateReasons` | exec/cpg.c:578-591 | an activation reports first the processes of nodes that are down (3), then those that joined with their nodes (4), then those that are gone (5) |
| `CpgReasons.DownIsReported` | exec/cpg.c:825-906 | a process of a node in the downlist is reported to its group as left for that reason, before any join of the activation, if the downlist tells the groups apart |
| `CpgChain.ZeroByteBreaksChain` | exec/cpg.c:863-871 | two names that differ after a zero byte: a group is not told that a process left |
| `CpgChain.BytesBehindBreakChain` | exec/cpg.c:1220-1224 | two processes of one group whose buffers go on differently, and processes of two groups whose buffers are the same C string: the chain breaks |
| `CpgWorld.ActivateList` | exec/cpg.c:578-591 | activation leaves exactly the own processes and the remote ones that joinlists mention |
| `CpgConvergence.StoredAtCommit` | exec/cpg.c:1317-1339 | when the barrier lets a node activate, it has stored exactly what all members announced |
| `CpgConvergence.JoinlistSent` | exec/cpg.c:1470-1520 | a node that is through with a ring has no joinlist of it left in its queue |
| `CpgConvergence.CommitResult` | exec/cpg.c:578-591 | the outcome of activation in terms of what was announced |
| `CpgConvergence.WorldInvStep` | exec/cpg.c:521-597 | every step of the protocol and of the service keeps the invariant of the composition |
| `CpgConvergence.WorldReachable` | exec/cpg.c:521-597 | it holds in every run |
| `CpgAgreement.Outcome` | exec/cpg.c:825-995 | in every run a node that activated has its own processes and those announced by the other members, all of whom did announce |
| `CpgAgreement.Agreement` | exec/cpg.c:578-591 | two members have the same processes if and only if both kept the processes they announced, and then the same member sequence for every group |
| `CpgAgreement.Convergence` | exec/cpg.c:1470-1520 | with no join or leave of an own process between announcing and activating a node ends with exactly what all members announced |
| `CpgAgreement.ClientsAreTold` | exec/cpg.c:644-745 | in every run, with names without zero bytes and with a zero behind them: until an array is too short, every reported change is the previous membership minus left plus joined, joined processes were no members, clients are up to date, and the list is sorted and free of duplicates; no array is too short if at most 128 of the processes that join have one group |
| `CpgDownlist.SurvivingElements` | exec/sync.c:383-396 | the transitional list of a round has the members of both configurations |
| `CpgDownlist.InitFindsGone` | exec/cpg.c:537-558 | `cpg_sync_init` finds exactly the old members that are not in the transitional list |
| `CpgDownlist.DownReachable` | exec/cpg.c:521-591 | every step keeps this: the old members are those of the ring in which the service was last activated, none after a restart, and the downlist belongs to the round |
| `CpgDownlist.DownlistIs` | exec/cpg.c:521-559 | in every run, from the beginning of a round to the activation, the downlist of a node is exactly the members of the ring in which it last activated the service without those that are in the last transitional and in the new configuration |
| `CpgDownlist.DeadAreReported` | exec/cpg.c:578-591 | in every run with names without zero bytes and with a zero behind them: on activation each process of a node that did not come along is reported to its group as left because its node is down, before any join of the activation |
| `CpgDownlist.AbortForgets` | exec/cpg.c:593-597 | in a run, a transitional configuration that aborts the service makes it forget the stored joinlists |
| `CpgFlow.NoLateJoin` | exec/main.c:762-777 | because joins wait for the end of a synchronization, a node delivers no join of its own between announcing and activating |
| `CpgFlow.FlowStep` | exec/main.c:762-777 | every step keeps joins out of the rounds, in the log and in every queue |
| `CpgFlow.OnlyExits` | exec/cpg.c:578-591 | in every run a node activates with part of what it announced, so two members have the same processes if and only if no announced process of theirs has gone since |
| `CpgExitRun.Disagreement` | exec/cpg.c:1046-1061 | a run in which a client exits during a round and the two members end with different processes |
| `CpgIteration.IterationInitialize` | exec/cpg.c:1893-1963 | the loops compute the copy of the specification |
| `CpgIteration.FullCopy` | exec/cpg.c:1893-1963 | the full copy is a permutation of the list with every group in one piece |
| `CpgIteration.GroupCopy` | exec/cpg.c:1921-1930 | the copy of one group is a permutation of that group |
| `CpgIteration.NameCopy` | exec/cpg.c:1900-1920 | the copy of the names has every group name of the list exactly once |
| `CpgService.Service.FillMemberList` | exec/cpg.c:644-685 | the group's processes that are not in the left list, in list order |
| `CpgService.Service.NotifyLibJoinlist` | exec/cpg.c:687-730 | the change that is sent |
| `CpgService.Service.ProcessInfoFind` | exec/cpg.c:1153-1166 | whether the process is in the list |
| `CpgService.Service.DoProcJoin` | exec/cpg.c:1168-1232 | a known process is ignored, a new one is put in its place and reported |
| `CpgService.Service.DoProcLeave` | exec/cpg.c:1234-1262 | reported first, then removed |
| `CpgService.Service.StoreJoinlist` | exec/cpg.c:1317-1339 | entries are stored newest first |
| `CpgService.Service.Handle` | exec/cpg.c:1272-1339 | the effect of each message of the service |
| `CpgService.Service.AbortSync` | exec/cpg.c:593-597 | an abort forgets the stored joinlists and nothing else |
| `CpgService.Service.Init` | exec/cpg.c:521-559 | the two nested loops find the old members that are gone, as CpgDownlist.InitFindsGone says |
| `CpgService.Service.ProcessSync` | exec/cpg.c:561-576 | downlist, then joinlist, and when it is to be called again |
| `CpgService.Service.JoinlistEntries` | exec/cpg.c:1480-1511 | the own processes |
| `CpgService.Service.Collect` | exec/cpg.c:866-876 | the process goes into the batch of its key, and whether the array was too short |
| `CpgService.Service.DownlistInformClients` | exec/cpg.c:825-906 | processes of nodes that left are removed and reported group by group |
| `CpgService.Service.JoinAllStored` | exec/cpg.c:965-981 | which stored entries become members, with their buffers, and the batches by whole buffer |
| `CpgService.Service.RemoveZombieEntries` | exec/cpg.c:911-952 | remote processes that no joinlist mentions leave |
| `CpgService.Service.JoinlistInformClients` | exec/cpg.c:954-995 | joins, their reports, then zombies |
| `CpgService.Service.Activate` | exec/cpg.c:578-591 | the activation of the specification |
| `CsQueue.TailMeetsHead` | exec/cs_queue.h:140-191 | a tail moved by n meets the head if and only if n is one more than the items, up to whole turns; up to that number the checks fail exactly when adding to a full buffer, removing from an empty one or one item too many, or removing nothing from a full one |
| `CsQueue.Queue.constructor` | exec/cs_queue.h:57-75 | an empty queue |
| `CsQueue.Queue.Reinit` | exec/cs_queue.h:77-92 | an empty queue again, in the same memory |
| `CsQueue.Queue.IsEmpty` | exec/cs_queue.h:114-125 | whether there are no items |
| `CsQueue.Queue.Add` | exec/cs_queue.h:127-150 | appends to the contents; the high-water mark follows |
| `CsQueue.Queue.Get` | exec/cs_queue.h:152-167 | the oldest item |
| `CsQueue.Queue.Remove` | exec/cs_queue.h:169-182 | drops the oldest item; both checks hold |
| `CsQueue.Queue.RemoveMany` | exec/cs_queue.h:184-197 | drops that many of the oldest items; the check holds |
| `CsQueue.Queue.IsFull` | exec/cs_queue.h:101-112 | full at size minus one items |
| `CsQueue.Queue.Avail` | exec/cs_queue.h:250-260 | two less than the free slots; not negative if and only if the buffer is not full |
| `CsQueue.Queue.IteratorGet` | exec/cs_queue.h:211-232 | the item at the iterator, or nothing at the head, however often it was advanced |
| `CsQueue.Queue.IteratorNext` | exec/cs_queue.h:234-248 | advances and says whether it is at the head, however often it was advanced |
| `CsQueue.Queue.Visit` | exec/cs_queue.h:200-248 | a pass of the iterator sees every item once, in order |
| `OutQueue.OrderKept` | exec/ipc_glue.c:383-472 | over every sequence of sends and flushes with any answers: sent followed by queued is what was accepted, in order; queuing exactly when the queue is not empty; the count is the length |
| `OutQueue.SentCounts` | exec/ipc_glue.c:383-472 | the counter is the number of events the client got since one last had to be queued or a flush left nothing |
| `OutQueue.FlushScheduled` | exec/ipc_glue.c:383-419 | a flush is scheduled if and only if something is queued and the last flush met no hard error |
| `OutQueue.StallIsFinal` | exec/ipc_glue.c:395-398 | after a hard error in a flush the client gets nothing more |
| `OutQueue.Stall` | exec/ipc_glue.c:395-398 | a message that has to be queued and a hard error in the flush it schedules: it stays in the queue whatever follows |
| `OutQueue.FlushEmpties` | exec/ipc_glue.c:391-418 | a flush empties the queue if and only if every attempt succeeds |
| `OutQueue.Connection.OutqFlush` | exec/ipc_glue.c:383-419 | the loop with its three exits is the flush of the specification |
| `OutQueue.Connection.MsgSendOrQueue` | exec/ipc_glue.c:421-472 | sends, queues or drops as specified; the check before the direct send holds |
| `OutQueue.Gather` | exec/ipc_glue.c:463-467 | the queued bytes are those of the iovec |
| `Icmap.EqIsIdentity` | exec/icmap.c:364-387 | the comparison answers whether the item would be stored unchanged, for strings with and without terminator too |
| `Icmap.ItemsEq` | exec/icmap.c:389-409 | two items of maps compare equal if and only if they are equal |
| `Icmap.StoredOk` | exec/icmap.c:334-362 | what is stored is well formed |
| `Icmap.NamesSpelled` | exec/icmap.c:274-308 | which key names are valid: 3 to 255 letters, digits and signs, each written out |
| `Icmap.LengthsSpelled` | exec/icmap.c:310-362 | which lengths go with which type, in numbers |
| `Icmap.TextStored` | exec/icmap.c:445-457 | a string is stored up to the given length with a zero behind it |
| `Icmap.CopyOfItem` | exec/icmap.c:1318-1327 | an item can be copied if and only if it is within the length limit, and the copy is the item |
| `Icmap.LongestStringIsNotCopied` | exec/icmap.c:445-457 | a string of 16384 characters can be set but not copied |
| `Icmap.Map.Set` | exec/icmap.c:411-489 | status and new map for every key, value, length and type |
| `Icmap.Map.Delete` | exec/icmap.c:637-655 | the key is gone; the status says whether it was there |
| `Icmap.Map.KeyValueEq` | exec/icmap.c:389-409 | both maps have the key with equal items |
| `Icmap.Map.CopyFrom` | exec/icmap.c:1302-1334 | all items up to the first one that is too long are copied |
| `KeyOrder.RemoveDeletedEntries` | exec/cfg.c:660-708 | for any two strictly sorted key lists the nested loops terminate and delete exactly the old keys that are not new |
| `KeyOrder.DeleteSmaller` | exec/cfg.c:680-686 | the first inner loop deletes exactly the old keys below the new one |
| `KeyOrder.PassSmaller` | exec/cfg.c:696-699 | the second inner loop passes the new keys below the old one |
| `KeyOrder.Compared` | exec/cfg.c:592-603 | what the comparison with missing keys says |
| `KeyOrder.PrefixMeans` | exec/icmap.c:1088-1091 | the iterator visits the keys that are the prefix and some rest |
| `KeyOrder.LessMeans` | exec/cfg.c:602 | keys are ordered by the first byte in which they differ, a shorter one before its extensions |
| `ConfigReload.RemoveDeleted` | exec/cfg.c:756-762 | exactly the keys under a reloaded prefix that the file lacks are removed |
| `ConfigReload.SectionsSpelled` | exec/cfg.c:756-762 | the reloaded keys are those that begin with `totem.`, `logging.`, `nodelist.`, `quorum.`, `uidgid.config.` and `nozzle.` |
| `ConfigReload.DeleteIfChanged` | exec/cfg.c:608-615 | a guarded key with another value, or without a live one, is held back |
| `ConfigReload.RemoveRoEntries` | exec/cfg.c:623-651 | this for all guarded keys |
| `ConfigReload.GuardedSpelled` | exec/cfg.c:623-651 | which keys are guarded, by name |
| `ConfigReload.Composition` | exec/cfg.c:756-765 | removing, holding back and copying give for every key what is expected of it |
| `ConfigReload.ReloadTwice` | exec/cfg.c:756-829 | a second reload of the same file copies the same entries and leaves the map as it is |
| `ConfigReload.Swap` | exec/cfg.c:756-833 | the three phases on the two maps, with the exact condition for success |
| `ConfigReload.Reload` | exec/cfg.c:713-843 | a reload succeeds if and only if all values it has to copy are below the limit; then a key of the file has the file's value, or its old value or absence if guarded, a key beginning with one of the six section names that the file lacks is gone, and every other key is untouched; the status and the two progress keys are named |
| `ConfigReload.ReloadSpelled` | exec/cfg.c:756-833 | what is expected of every key means this for the six sections in their own words |
| `ConfLine.RemoveWhitespaceLoop` | exec/coroparse.c:269-288 | trims both ends, but never the first character |
| `ConfLine.StrchrRsLoop` | exec/coroparse.c:247-258 | the place behind the character and the blanks after it |
| `ConfLine.ColonInKey` | exec/coroparse.c:407-418 | a key has a colon in it if and only if the line begins with the colon |
| `ConfLine.ColonIsAKey` | exec/coroparse.c:407-418 | such a line is read, the same without the blank is refused |
| `ConfParser.ParseStructure` | exec/coroparse.c:292-491 | for every file and every callback: one start first, one clean-up last, sections opened and closed properly with paths below each other and within the limit; all closed and the end reported exactly on success |
| `ConfParser.SectionEnds` | exec/coroparse.c:317-478 | how any section ends, by induction over the file |
| `ConfParser.Parser.ReadLine` | exec/coroparse.c:317-465 | what a line means, with all checks in order |
| `ConfParser.Parser.ParseSection` | exec/coroparse.c:292-491 | the recursive loop terminates and makes the calls of the specification |
| `ConfExact.OpenIsExact` | exec/coroparse.c:363-390 | a line opens a section with a name if and only if it is blanks, the name, blanks and colons, and the brace at the end, at most 510 characters with a path below 255; a blank is a space, a tab or a no-break space |
| `ConfExact.CloseIsExact` | exec/coroparse.c:438-445 | a line closes a section if and only if it is blanks and the brace |
| `ConfExact.EntryIsExact` | exec/coroparse.c:407-428 | a line sets a key to a value if and only if it has no opening brace and is blanks, the key, the first colon with blanks around it, and the value to its end, within the same limits; or it begins with a colon and a blank, and the colon is the key |
| `ConfExact.IgnoredIsExact` | exec/coroparse.c:345-360 | a line is skipped if and only if it is blanks, or blanks and a remark |
| `ConfExact.ChompIsExact` | exec/coroparse.c:331-343 | what is left of a line is it without a line end and without the blanks before that |
| `ConfExact.LineLimit` | exec/coroparse.c:320-329 | a line of 510 characters is read, a longer one refused |
| `ConfRoundTrip.SettingReads` | exec/coroparse.c:407-436 | a written setting is read as it is, with any blanks around |
| `ConfRoundTrip.HeadReads` | exec/coroparse.c:363-404 | so is the start of a section |
| `ConfRoundTrip.WhiteIsBlank` | exec/coroparse.c:253 | white space is the space, the tab and the no-break space |
| `ConfRoundTrip.RoundTrip` | exec/coroparse.c:292-491 | every well-formed configuration, with any indentation, comments and line ends, is reported as exactly its sections and settings |

## Left out

- Totem itself (`exec/totemsrp.c`, transports, sockets): agreed order, one log per ring and unique ring ids are assumed.
- A change of the MTU at run time, the arithmetic of `byte_count_send_ok`, and failing `totemsrp_mcast` calls: the packet size is constant and the space test is an answer.
- Endian conversion and alignment copies.
- Receiver.AssemblyBuffer.DeliverFrame: not for packets with a fragment number but no message, for which the code reads beside its array; Receiver.PacketReceiver.DeliverFn says only that such a packet may end the program.
- Receiver.PacketReceiver: the lists hold assemblies as values, and AssemblyBuffer is the in-place form of what is done to one; sharing between lists through pointers is not modelled.
- LateJoiner.LateNoOverflow: half the size limit is enough; between half and all of it the condition is that of Delivery.RunsExactly, on the packets.
- Groups.GroupMatches: reads messages whose header is complete; the code does not check this either.
- SyncService.Synchronizer.Confchg: the services' own configuration callbacks and the lists of members kept for them.
- SyncService.Synchronizer.SyncCompleted: the acknowledgement to totem, which appears as the exchange of queues in SyncProtocol, and the notification of IPC.
- CpgChain.DownlistChain: changes of one batch are in order of first appearance, not in the order of the skip list, which matters to no group.
- CpgService.Service.NotifyLibJoinlist: the states of the clients' connections, which of them get a change, and the reset to the unjoined state.
- CpgService.Service.Activate: the totem membership that is sent to clients that ask for it.
- CpgChain.JoinlistChain: the C string of a buffer without any zero byte ends with the buffer, while the code reads on behind it; names of the full 128 bytes are such.
- CpgActivation.ActivateExactly: assumes that no process id joins two groups in one synchronization, which CpgActivation.ComesBackUnnoticed shows to be needed; CpgActivation.ActivateSoundly needs a downlist that tells the groups apart instead.
- CpgAgreement.ClientsAreTold: the bound counts all processes that ever join a group, of which at one time there may be fewer; the exact bound of one activation is in CpgChain.ActivateChain.
- Other services' callbacks beyond the calls to them, and group messages of clients.
- A message of the process groups that arrives between a transitional and a regular configuration: rings that begin with joinlists of an older ring around are marked, and CpgAgreement speaks of the others.
- CpgIteration.IterationInitialize: handles and memory failures.
- CpgService: lists are sequences, so removal while walking a list is modelled by walking the list as it was.
- ConfigReload.Reload: what totemconfig adds to the staging map, the validation, and the failing paths before the copy.
- Icmap: tracking of changes, and the trie, of which only the sorted iteration is used.
- ConfParser.Parser.ParseSection: files with zero bytes; the text of error messages; the line buffer is a string that is replaced instead of edited.
- The meaning of the settings (`main_config_parser_cb`), which is a callback here.
- Mutexes, logging, memory failures, shutdown voting, quorum, statistics, bindings and tools.
