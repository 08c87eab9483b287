# Odyssey: a verified model

Odyssey is a library for replicated key-value stores over RDMA. Its workers exchange messages
through credit-based broadcasts and acks, its clients issue requests through shared rings, and
its test clients run lock-free data structures on top of the store. This project models that
core in Dafny and proves what it is relied on for, over every run and every interleaving.

| files | what they model |
|---|---|
| `MsQueue`, `MsQueueProofs`, `MsQueueTheorems`, `MsQueueProgress`, `MsClients` | the Michael and Scott queues of the client, as state machines with one store access per step, and the clients that run them |
| `Treiber`, `TreiberTheorems`, `TreiberProgress` | the Treiber stacks, in the same way |
| `Seqlock`, `SeqlockProgress` | the sequence lock that guards a value, with word-by-word copies in any order |
| `Quorum`, `Broadcasts` | the quorum lists, the credit check, the links of the work requests and the posting of broadcasts, updated in place |
| `Credits`, `CreditsTheorems`, `CreditsNeeded`, `CreditsProgress` | the network of machines that broadcast, ack, refill receives and lose messages |
| `Delivery` | how the batches that a worker posts and pays for are a run of that network |
| `Acks` | the ack slots of a receiver and the mapping of an ack to a reorder buffer |
| `Signalling` | selective signalling and the depth of the send queue |
| `SendFifo`, `MirrorBuffer`, `RecvRing`, `RequestRing` | the ring buffers |
| `Mica`, `MicaPopulate` | the bucket index and the log of the store |
| `Rings`, `Division`, `Common` | pointers that wrap around, products and remainders, and what several parts share |

How to read it. A concurrent protocol is a datatype of its whole state and a function `Next` from
a state and a choice to the next state; a run is any sequence of choices. Code that updates an
object in place is a class whose methods are proved against these functions, through a ghost
`View()` of the fields. History variables (chains, places, logs, what was inserted, what was
posted) are only there to state properties: no step reads them. `LinkSwapIsNotStale` and its
siblings, for instance, state what the history says in terms of the pointers that the store holds.

Safety alone would hold of code that does nothing. So each protocol also has theorems on what it
achieves: a session, writer or reader that is left alone completes from wherever it is with exactly
the promised effect, credits that are not lost can always come home, and requests can always be
finished. These are the `Progress` parts.

Assumptions. Memory is sequentially consistent. Version counters, tickets, ids and the counters
of pointers and tops do not wrap. The handler of a received message calls `ctx_ack_insert` once for
it. All ack slots start as sent (`OP_ACK`). Every swap of the clients is weak (`src/client/od_client.c:1798`
and 1951) and may fail early (`src/client/od_wrkr_side_calls.c:121-132`); it is assumed to fail only on
a mismatch and to hand back the current value, on which `NeverAborts` relies, as a failed swap of a
top is retried with the top handed back. The queues and stacks are set up before a session takes
its first step. `CLIENT_ASSERTIONS` is 0, as shipped, so the queue counts a pointer only where it
links a node (`src/client/od_client.c:1801`) and not where a node is reused; the checks of the
Treiber stacks on tops, nodes and keys are modelled as enabled, and shown never to fail.

Where the code does not do all that one might expect, the project says exactly when it does:

- One pass over the missing machines revives every ready one if and only if no two neighbours of
  the list are both ready (`Quorum.AllReadyAreRevived`), because the list shrinks while it is indexed.
- The store can be populated without an abort if and only if no two keys share bucket and tag, no
  bucket gets more than eight keys, and the log has room (`MicaPopulate.PopulatesExactlyWhen`).
- The send queue is deep enough for every run of broadcasts if and only if there are at most eleven
  recipients (`Signalling.DepthSuffices`).
- No run drops a message or an ack for want of a receive if and only if each machine posts a receive
  for a message for each credit of the others, and one for an ack for each credit of its own
  (`CreditsNeeded.ReceivesNeeded`).
- Acks tile the ids of the messages if and only if each message starts where its ack ends
  (`Acks.TilesMeansNoGaps`); the code only refuses other messages when assertions are enabled.
- `poll` pulls at most one request per call although it loops, since it keeps looking at the slot it
  has just freed. It leaves no completed request in front if and only if not both of the first two
  were complete (`RequestRing.PollDrains`); `RequestRing.PollLeavesCompleted` is a run where it does.

## Model

| member | source | states |
|---|---|---|
| MsQueue.LegalLogIsFifo | src/client/od_client.c:1783-1810 | in any log that sequential queues accept, what was dequeued from a queue and then what it still holds is what it held at first and then what was enqueued |
| MsQueueProofs.NeverEmpty | src/client/od_client.c:1915-1932 | a session that owes a dequeue finds an element linked behind the dummy of its queue |
| MsQueueProofs.LinkSucceeds | src/client/od_client.c:1783-1810 | a link swap that succeeds finds the node last in the session's queue, the tail on it, and the node not reused since it was read |
| MsQueueProofs.HeadSucceeds | src/client/od_client.c:1934-1955 | a head swap that succeeds finds the pointer and the body that the session has read still stored, and a second node |
| MsQueueProofs.StepKeepsInv | src/client/od_client.c:1720-1986 | every access of either machine keeps chains, places, counts, sessions and the replayed log consistent |
| MsQueueTheorems.InitHolds | src/client/od_client.c:1677-1717 | the state that the set-up leaves satisfies the invariant |
| MsQueueTheorems.RunKeepsInv | src/client/od_client.c:1989-2050 | the invariant holds in every state of every interleaving of any number of sessions |
| MsQueueTheorems.StepRefines | src/client/od_client.c:1720-1986 | a link swap that succeeds enqueues the owned node with the body written for it, a head swap that succeeds dequeues the node the head was on with the body read from it, and any other access leaves the sequential queues alone |
| MsQueueTheorems.FifoOverRuns | src/client/od_client.c:1783-1955 | in every reachable state, the items dequeued from a queue and then those reachable from its stored head are those it began with and then those enqueued, keys and bodies, in order |
| MsQueueTheorems.ChainIsInStore | src/client/od_client.c:1754-1810 | following stored pointers from the stored head gives exactly the chain of the queue |
| MsQueueTheorems.QueueShape | src/client/od_client.c:1811-1836 | head, tail and last node lie in order on one acyclic chain, the tail at most one behind, and the elements count the sessions that owe a dequeue |
| MsQueueTheorems.NodesArePartitioned | src/client/od_client.c:1953-1977 | every node is in exactly one queue or owned by exactly one session |
| MsQueueTheorems.LinkSwapIsNotStale | src/client/od_client.c:1784-1801 | a link swap succeeds only on a node not recycled since its pointer was read, and appends exactly the owned node |
| MsQueueTheorems.HeadSwapIsNotStale | src/client/od_client.c:1934-1955 | a head swap that succeeds removes exactly the first node and installs the true second one, never null |
| MsQueueTheorems.TailSwapIsNotStale | src/client/od_client.c:1811-1846 | a tail swap that succeeds moves the tail from the last but one node to the last, never to null |
| MsQueueProgress.EnqueuedIsWritten | src/client/od_client.c:1741-1746 | in every run, what a session enqueues is the node it owns, with that node's id and the bytes that the session was given when it last wrote a body |
| MsQueueProgress.LoggedIsWritten | src/client/od_client.c:1741-1810 | in every run the same holds of every item in the log of enqueues |
| MsQueueProgress.EnqueueAlone | src/client/od_client.c:1720-1855 | from any reachable state and program point, a session that owns a node and is left alone enqueues just that node, with its id and the given bytes, within eleven accesses |
| MsQueueProgress.DequeueAlone | src/client/od_client.c:1857-1986 | from any reachable state and program point, a session that owes a dequeue and is left alone takes the first node and its body within sixteen accesses, owns the node and goes on to the given queue |
| MsClients.Cas | src/client/od_wrkr_side_calls.c:78-118 | a swap writes only if the stored value is the expected one, and the value seen overwrites the expectation otherwise (weak swaps, as assumed above) |
| MsClients.Clients.constructor | src/client/od_client.c:1677-1717 | the set-up gives each queue its dummy and each session its own node, which is an initial state of the protocol |
| MsClients.Clients.EnqueueStep | src/client/od_client.c:1720-1855 | one access of the enqueue machine, in place, is exactly a step of the protocol; the body it writes has the id of the owned node and the client's bytes, and is kept until the link |
| MsClients.Clients.DequeueStep | src/client/od_client.c:1857-1986 | the same for the dequeue machine |
| MsClients.Clients.SwingHead | src/client/od_client.c:1934-1977 | the head swap hands the first node to the session, or shows it the current head |
| MsClients.Clients.EnqueueDequeueMultiSession | src/client/od_client.c:1989-2050 | under any schedule the main loop makes just the scheduled moves, and the queues stay first in, first out, in terms of the stored pointers and bodies |
| MsClients.SetUpIsInit | src/client/od_client.c:1677-1717 | what the set-up loops build is an initial state with the promised queues and sessions |
| Treiber.PushChecksHold | src/client/od_client.c:1265-1293 | the assertions of a push on tops, on its node and on the range of keys hold of every top it can read |
| Treiber.PopChecksHold | src/client/od_client.c:1172-1179 | the assertions of a pop hold of every top it can read |
| Treiber.PopSucceeds | src/client/od_client.c:1205-1233 | a pop swap that succeeds finds its node on top and its second node right |
| Treiber.StepKeepsInv | src/client/od_client.c:1155-1307 | every access keeps stacks, places, counters, sessions and the replayed log consistent |
| TreiberTheorems.RunKeepsInv | src/client/od_client.c:1311-1369 | the invariant holds in every state of every interleaving |
| TreiberTheorems.StepRefines | src/client/od_client.c:1155-1307 | each access is one push or pop of the sequential stacks or changes nothing there |
| TreiberTheorems.LifoOverRuns | src/client/od_client.c:1180-1287 | in every reachable state the pushes and pops so far are a legal log of sequential stacks and leave exactly the nodes reachable from each stored top |
| TreiberTheorems.ChainIsInStore | src/client/od_client.c:1266-1287 | following stored pointers from the stored top gives exactly the chain of the stack |
| TreiberTheorems.CountersCount | src/client/od_client.c:1296-1302 | pushes minus pops is the length of the stack and the number of sessions that owe a pop |
| TreiberTheorems.NeverAborts | src/client/od_client.c:1175-1281 | in no run does an assertion on tops, nodes or keys fail, in a push or in a pop |
| TreiberTheorems.PopSwapIsNotStale | src/client/od_client.c:1205-1233 | a pop swap that succeeds removes exactly the top node and installs the true second one |
| TreiberTheorems.PushSwapIsNotStale | src/client/od_client.c:1266-1287 | a push swap that succeeds puts the owned node in front of the whole stack, and the session remembers the push counter it installed |
| TreiberTheorems.FilterRejectsOnlyStaleTops | src/client/od_client.c:1210-1217 | the filter gives up only on pops whose swap would have failed |
| TreiberTheorems.TriesOnlyConsistentTops | src/client/od_client.c:1210-1228 | a pop is tried exactly if the top it would install is null just when its counters are equal |
| TreiberTheorems.NextIsStable | src/client/od_client.c:1266-1287 | the pointer of a node does not change while the node is in a stack |
| TreiberTheorems.NodesArePartitioned | src/client/od_client.c:1184-1191 | every node is in exactly one stack or owned by exactly one session |
| TreiberProgress.PushAlone | src/client/od_client.c:1240-1307 | from any reachable state and program point, a session that owns a node and is left alone pushes just that node on top within four accesses, three from the start |
| TreiberProgress.PopAlone | src/client/od_client.c:1155-1237 | from any reachable state and program point, a session that owes a pop and is left alone pops the top node within four accesses, three from the start, owns it and goes on to the given stack |
| TreiberTheorems.Clients.constructor | src/client/od_client.c:1337-1354 | the set-up is an initial state of the protocol |
| TreiberTheorems.Clients.PushStep | src/client/od_client.c:1240-1307 | one access of the push machine, in place, is exactly a step of the protocol, and goes on to the write, the swap, and after a failed swap to the write again |
| TreiberTheorems.Clients.PopStep | src/client/od_client.c:1155-1237 | one access of the pop machine, in place, is exactly a step of the protocol; it gives up a node only if the top has moved |
| TreiberTheorems.Clients.PushPullMultiSession | src/client/od_client.c:1311-1369 | under any schedule the main loop makes just the scheduled moves, the stacks stay last in, first out, the counters count them, and nothing aborts |
| Seqlock.ProcStaysOk | include/general_util/od_generic_inline_util.h:22-92 | every access of every process keeps each reader and writer consistent with the lock and the stored words |
| Seqlock.RegisterStaysOk | include/general_util/od_generic_inline_util.h:22-92 | every access keeps the lock counting the writes, and the reads so far atomic |
| Seqlock.RunKeepsInv | include/mica/od_kvs.h:145-171 | both hold in every state of every interleaving |
| Seqlock.OddIs | include/general_util/od_generic_inline_util.h:14-20 | parity as the model has it is the remainder that the source tests |
| Seqlock.ReadsAreAtomic | include/mica/od_kvs.h:145-171 | in every run a read returns one whole write, the one current at its final check, never a mix |
| Seqlock.ReadReturnsCurrent | include/general_util/od_generic_inline_util.h:74-92 | a check that succeeds finds the copy equal to the stored value and nobody writing |
| Seqlock.LockCountsWrites | include/general_util/od_generic_inline_util.h:22-55 | the lock is odd exactly while one process holds it, at most one does, and half of it counts the writes |
| Seqlock.QuietValueIsLastWrite | include/mica/od_kvs.h:166-171 | while the lock is even the stored value is the last write, whole |
| SeqlockProgress.WrittenIsAsked | include/mica/od_kvs.h:165-170 | in every run, every write in the log is the value that its process was last asked to write |
| SeqlockProgress.QuietValueWasAsked | include/mica/od_kvs.h:165-170 | in every run, while the lock is even the stored value is the initial one or what the last writer was asked to write |
| SeqlockProgress.WriteAlone | include/general_util/od_generic_inline_util.h:22-55 | from any program point, a writer that holds the lock or finds it free, and is left alone, stores its whole buffer and releases the lock, within five accesses more than there are words |
| SeqlockProgress.AskedIsStored | include/mica/od_kvs.h:165-170 | asked to write v, a process left alone stores v and adds two to the lock |
| SeqlockProgress.ReadAlone | include/mica/od_kvs.h:157-160 | from any program point, a reader left alone while the lock is free returns the stored value, within four accesses more than twice the words |
| SeqlockProgress.AskedIsRead | include/mica/od_kvs.h:145-163 | asked to read, a process left alone returns the stored value |
| Seqlock.KvEntry.StartWriting | include/mica/od_kvs.h:165-166 | a call of the write takes over the value it is given |
| Seqlock.KvEntry.WriterStep | include/general_util/od_generic_inline_util.h:22-55 | one access of a writer, on the array that holds the value, is exactly a step of the protocol |
| Seqlock.KvEntry.ReaderStep | include/general_util/od_generic_inline_util.h:58-92 | one access of a reader is exactly a step of the protocol, and what it returns is the stored value |
| Quorum.IdsAreInverse | include/general_util/od_generic_inline_util.h:431-440 | machine ids and remote ids translate into each other and never name the own machine |
| Quorum.OnList | include/general_util/od_config_util.h:68-101 | a machine is on the active or the missing list exactly when the send vector says so |
| Quorum.ListsPartition | include/general_util/od_config_util.h:68-101 | both lists are sorted, and each remote machine is on exactly one |
| Quorum.ReviveRemoves | include/general_util/od_config_util.h:68-101 | reviving the i-th missing machine removes just that one from the missing list |
| Quorum.KeptStep | include/general_util/od_config_util.h:162-174 | one iteration of the revival loop, whether it revives or not, leads to what the whole pass leaves missing |
| Quorum.AllReadyAreRevived | include/general_util/od_config_util.h:162-174 | a pass revives every ready machine exactly when no two neighbours of the missing list are both ready |
| Quorum.KeptAreNotRevived | include/general_util/od_config_util.h:162-174 | a pass revives exactly the ready machines whose neighbour before was not revived in the same pass |
| Quorum.ReadyMachineIsSkipped | include/general_util/od_config_util.h:162-174 | with two ready neighbours the second stays missing |
| Quorum.OrderIsExact | include/general_util/od_rdma_gen_util.h:85-118 | the order in which a batch is posted has each (broadcast, active machine) once, in lexicographic order, and nothing else |
| Quorum.BatchFollows | include/general_util/od_rdma_gen_util.h:209-214 | links within broadcasts, joins between them and the final null lead from each request of the batch to the next in that order |
| Broadcasts.Worker.constructor | src/network_api/od_init_ctx.c:349-394 | at the start all remote machines are active and the requests link them all |
| Broadcasts.InitSendWrs | src/network_api/od_init_ctx.c:146-163 | within each broadcast every request leads to the next machine's |
| Broadcasts.Worker.UpdateQInfo | include/general_util/od_config_util.h:17-53 | after a timeout the active machines are exactly those with enough credits, and lists, vector and extremes agree |
| Broadcasts.FundedAt | include/general_util/od_config_util.h:26-45 | the rebuilt vector has a remote machine exactly when its credits reach the minimum |
| Broadcasts.Worker.AllTargetsReached | include/general_util/od_config_util.h:56-64 | a machine is ready exactly when every broadcast queue pair has all its credits for it |
| Broadcasts.Worker.ReviveMachine | include/general_util/od_config_util.h:68-101 | reviving keeps lists, vector and extremes in agreement and removes just that machine from the missing ones |
| Broadcasts.Worker.ReviveReady | include/general_util/od_config_util.h:162-174 | a pass leaves missing exactly what the shrinking list leaves, and every array of requests is relinked |
| Broadcasts.Worker.UpdateBcastWrLinks | include/general_util/od_config_util.h:104-126 | whatever the links were, afterwards each broadcast links the active machines in order |
| Broadcasts.Worker.QuorumIsSound | include/general_util/od_config_util.h:17-101 | after any history the lists are sorted, disjoint and cover the remote machines, and the ends are the extremes |
| Broadcasts.Worker.CountTimeOut | include/general_util/od_config_util.h:140-153 | a round without credits is counted, and the quorum is rebuilt and relinked exactly when the count reaches the timeout |
| Broadcasts.Worker.TimesOutOnTime | include/general_util/od_config_util.h:140-153 | rounds without credits are only counted until as many as the timeout have passed, and exactly then the vector is rebuilt and the count starts again |
| Broadcasts.Worker.LeastCredits | include/general_util/od_config_util.h:179-188 | the credits returned are the least of any active machine |
| Broadcasts.Worker.FindLacking | include/general_util/od_config_util.h:139-141 | a round is refused exactly when some active machine lacks credits |
| Broadcasts.Worker.CheckBcastCredits | include/general_util/od_config_util.h:130-189 | true exactly when no active machine lacked credits and a remote quorum is active after the revivals, and then with the least active credits; what each outcome does to timeout, lists and vector |
| Broadcasts.Worker.DecreaseCredits | include/general_util/od_config_util.h:191-204 | each active machine pays once, no other pays, none goes below zero |
| Broadcasts.Worker.FormLinks | include/general_util/od_rdma_gen_util.h:278-296 | joining one more broadcast keeps all earlier joins and all links within broadcasts |
| Broadcasts.Worker.PostSend | include/general_util/od_rdma_gen_util.h:212-214 | following the links takes exactly the requests of the batch, in order, and ends |
| Broadcasts.Worker.PostBatch | include/general_util/od_rdma_gen_util.h:195-216 | after any history a posted batch reaches each active machine once for each of its broadcasts |
| Broadcasts.Worker.SendBroadcasts | src/network_api/od_main_loop_api.c:66-104 | if some active machine lacks a credit nothing is sent and the round counts towards the timeout; otherwise ready machines are revived and, with a quorum, exactly as many messages go as wait and as the least credits allow, in full batches and a rest, and each active machine pays for each |
| Broadcasts.OneRequestPerCredit | src/network_api/od_main_loop_api.c:77-103 | over all posted batches, each active machine is sent exactly as many messages as it pays credits, and no other machine any |
| Broadcasts.BatchesAreFull | src/network_api/od_main_loop_api.c:77-102 | all posted batches are full but the last, which has the rest |
| Credits.NextKeepsInv | src/network_api/od_main_loop_api.c:66-405 | every step of every machine and of the network conserves credits and keeps enough receives posted |
| Credits.NextKeepsPair | src/network_api/od_main_loop_api.c:66-405 | every step conserves the credits of each pair of machines, with any number of receives |
| CreditsTheorems.CreditsAreConserved | src/network_api/od_main_loop_api.c:295-348 | in every run, however few receives are posted, credits held, on messages, owed, on acks and lost add up to the maximum, and the clamp never cuts an ack |
| CreditsTheorems.NothingLost | src/network_api/od_main_loop_api.c:295-348 | in every run in which the network loses nothing, no credit is lost |
| CreditsProgress.LostIsCounted | src/network_api/od_main_loop_api.c:295-348 | in every run the credits lost are one for each message and those of each ack that the network lost |
| CreditsTheorems.ReceivesNeverRunOut | src/network_api/od_main_loop_api.c:363-404 | in every run, for messages and for acks, what is on its way has receives posted for it, counts stay in range, and the clamp is never used |
| Credits.ClampIsIdle | src/network_api/od_main_loop_api.c:295-305 | an ack never brings credits above the maximum |
| CreditsTheorems.FullCreditsMeanQuiet | include/general_util/od_config_util.h:56-64 | a sender has all credits back exactly when nothing is under way, owed or lost, which is when a machine may be revived |
| CreditsProgress.AckGivesBack | src/network_api/od_main_loop_api.c:295-305 | in every state of every run, handling an ack gives its sender exactly the credits it carries, and uses up the ack and one receive |
| CreditsProgress.CreditsComeHome | src/network_api/od_main_loop_api.c:261-405 | after any run in which nothing of a pair was lost, further steps without losses give the sender all its credits back |
| CreditsNeeded.ReceivesNeeded | src/network_api/od_main_loop_api.c:7-16 | no run drops a message or an ack exactly when each machine posts a receive for a message for each credit of each other machine, and one for an ack for each credit of its own |
| CreditsNeeded.MessagesOverrun | src/network_api/od_main_loop_api.c:7-16 | with fewer receives for messages, a run in which all machines send at once drops one |
| CreditsNeeded.AcksOverrun | src/network_api/od_main_loop_api.c:94-103 | with fewer receives for acks, a run in which single acks pile up drops one |
| CreditsTheorems.RunKeepsInv | src/network_api/od_main_loop_api.c:66-405 | the invariant of credits and receives holds in every state of every run |
| Delivery.SendingPaysOnce | src/network_api/od_main_loop_api.c:66-104 | the broadcasts that a worker sends and pays for at the end are a run of the network, with one enabled step for each batch, that leaves the credits of the worker and one message under way for each broadcast and active machine |
| Delivery.StepsAreBatches | src/network_api/od_main_loop_api.c:77-102 | the steps of this run are the posted batches, one for one and of the same size |
| Acks.TakeMore | src/network_api/od_main_loop_api.c:336-348 | adding a message to a due ack keeps the tiling exactly when the message starts where the ack ends |
| Acks.AcksTile | src/network_api/od_main_loop_api.c:310-350 | for contiguous messages the acks of every run cover exactly the ids handled, in order, with one credit for each message |
| Acks.AllAreTaken | src/network_api/od_main_loop_api.c:336-348 | without checks, the ids the acks are compared with are those of all messages that came |
| Acks.SendSendsAll | src/network_api/od_main_loop_api.c:363-383 | after a send nothing is due, and all that was covered has been sent |
| Acks.CheckedAcksTile | src/network_api/od_main_loop_api.c:319-328 | with assertions on, other messages are refused and the acks of every run tile |
| Acks.TilesMeansNoGaps | src/network_api/od_main_loop_api.c:336-348 | without them, for messages that carry ids, the acks of a run tile exactly if no message leaves a gap; after one gap they never tile again |
| Acks.AckedOnce | src/network_api/od_main_loop_api.c:363-383 | if ids ascend, no two acks sent have an id in common |
| Acks.TooOldMeansNonePending | src/network_api/od_main_loop_api.c:271-277 | an ack is too old exactly when none of its ids is pending |
| Acks.AckVisitsPending | src/network_api/od_main_loop_api.c:279-292 | any other ack visits exactly the slots of its pending ids, each once and in order, in spite of the 32-bit sum |
| Acks.VisitsMeansCovers | src/network_api/od_main_loop_api.c:271-292 | the slot of a pending id is visited exactly when the ack covers the id |
| Acks.PendingVisitedOnce | src/network_api/od_main_loop_api.c:261-292 | over a run, wherever the pull pointer is when each ack comes, no two acks visit the slot of the same pending id |
| Acks.AckBuffer.Insert | src/network_api/od_main_loop_api.c:310-350 | the slot of one machine takes the message or refuses it, and the other slots are left alone |
| Acks.AckBuffer.LinkDue | src/network_api/od_main_loop_api.c:363-383 | every due slot is freed and their requests are linked in order |
| Acks.AckBuffer.SendAcks | src/network_api/od_main_loop_api.c:354-405 | what is posted are the requests of exactly the machines whose acks were due |
| Acks.DueIsExact | src/network_api/od_main_loop_api.c:363-365 | the machines acked are those with a due slot, in increasing order |
| Signalling.UnicastQueue.Signal | include/general_util/od_rdma_gen_util.h:248-273 | every ss-th request asks for a completion, and a wait is always for a request already posted |
| Signalling.UnicastQueue.SendBatch | src/network_api/od_init_qp_meta.c:79-90 | in any history of batches up to the number of work requests, at most 2 ss - 2 sends are unconfirmed, which the queue depth holds |
| Signalling.FormKeeps | include/general_util/od_rdma_gen_util.h:278-296 | forming a broadcast keeps which request asks for which completion, and any wait ends |
| Signalling.NeverWaitsForever | include/general_util/od_rdma_gen_util.h:285-292 | in every run, with ss at least two more than a batch, a worker waits only for a completion of a request it has posted |
| Signalling.BoundHolds | src/network_api/od_init_qp_meta.c:67-76 | at most (2 ss + 1) R - 1 messages are ever unconfirmed |
| Signalling.WorstRun | include/general_util/od_rdma_gen_util.h:285-292 | a run that reaches this bound |
| Signalling.DepthSuffices | src/network_api/od_init_qp_meta.c:67-76 | the send queue is deep enough for every run exactly when there are at most eleven recipients |
| Signalling.BroadcastQueue.FormBcast | include/general_util/od_rdma_gen_util.h:278-296 | the flag, the count and the wait of one broadcast, in place, are a step of the model |
| Signalling.BroadcastQueue.Post | include/general_util/od_rdma_gen_util.h:195-216 | after every posted batch to up to eleven recipients the queue has not overflowed |
| Rings.ModIncrIs | include/fifo/od_fifo.h:38-41 | the pointers wrap around as the remainder that the source computes |
| SendFifo.CapacitiesAgree | include/fifo/od_fifo.h:332-343 | the capacity and the net capacity are zero together |
| SendFifo.OpensMeans | include/fifo/od_fifo.h:303-313 | an entry opens a message exactly if it asks to be alone and something waits, or does not fit behind the newest message, or the replies counted for that message exceed the MTU |
| SendFifo.RepliesCounted | include/fifo/od_fifo.h:302-319 | an insertion adds its reply to those counted for the newest message, and leaves none counted where it opens one |
| SendFifo.InsertedHeld | include/fifo/od_fifo.h:281-329 | after an insertion every waiting message, the newest with the new entry included, tiles its slot from the header without overlap |
| SendFifo.InsertKeeps | include/fifo/od_fifo.h:297-329 | an insertion keeps the counts, the pointers and every waiting message, and appends the entry to what waits |
| SendFifo.SendKeeps | include/fifo/od_fifo.h:333-343 | sending takes exactly the oldest message and resets the next slot only if none is left |
| SendFifo.SendQueue.GetSendFifoPtr | include/fifo/od_fifo.h:297-329 | the entry gets the bytes behind the ones reserved so far, in the newest slot or in a fresh one |
| SendFifo.SendQueue.InsertEntry | src/network_api/od_main_loop_api.c:22-44 | after any history, everything sent and then everything waiting is everything inserted, in order; an entry that asks to be alone starts a message, and one that fits joins the newest |
| SendFifo.SendQueue.SendOldest | include/fifo/od_fifo.h:333-343 | the bytes sent are the entries of the oldest message, in the order of insertion |
| MirrorBuffer.RemovedConserves | include/fifo/od_fifo.h:391-411 | removing n takes n from the total and leaves the rest in order |
| MirrorBuffer.RemovedCountsWhole | include/fifo/od_fifo.h:391-411 | the credits are the number of whole leading entries whose running total is at most n |
| MirrorBuffer.RemovedTwice | include/fifo/od_fifo.h:391-411 | removing a and then b is removing a + b, in what is left and in the credits |
| MirrorBuffer.Mirror.Remove | include/fifo/od_fifo.h:379-411 | the loop over the ring ends and does exactly this |
| MirrorBuffer.Mirror.Add | include/fifo/od_fifo.h:359-376 | with room the size is appended behind all that are mirrored; in a full mirror it replaces the oldest |
| RecvRing.HandledInOrder | src/network_api/od_main_loop_api.c:243-257 | in every run messages are handled in order of arrival without a gap or a repeat, the k-th from the slot that the k-th receive named |
| RecvRing.NeverReposted | include/general_util/od_rdma_gen_util.h:132-154 | in every run a new receive never names the slot of an unhandled message |
| RecvRing.CompletionsFit | include/general_util/od_rdma_gen_util.h:219-244 | in every run the completions that can be shown, and those kept, fit in recv_wr_num |
| RecvRing.QueuePair.Refill | src/network_api/od_main_loop_api.c:7-16 | afterwards recv_wr_num receives are posted, and no earlier one is lost |
| RecvRing.QueuePair.Handle | src/network_api/od_main_loop_api.c:246-252 | the handler is given the next message in order of arrival |
| RecvRing.QueuePair.Poll | src/network_api/od_main_loop_api.c:224-257 | a poll hands over those messages until the handler refuses one, and keeps and counts the rest exactly |
| RequestRing.PickedInIssueOrder | src/network_api/od_main_loop_api.c:481-503 | in every run the worker has picked up a prefix of the requests issued, each once |
| RequestRing.TakenMeansFull | src/client_api/od_interface.c:68-72 | in every run the next slot is taken exactly when PER_SESSION_REQ_NUM requests are outstanding |
| RequestRing.ActiveIsOneRange | src/client/od_wrkr_side_calls.c:52-75 | in every run the active slots are the cyclic range from the worker's pointer to the client's |
| RequestRing.PolledMeansComplete | src/client_api/od_interface.c:150-179 | in every run, once a ticket is polled, its request and all earlier ones are complete, though they complete in any order |
| RequestRing.CompletesItsTicket | src/client/od_wrkr_side_calls.c:10-33 | for any request that is with the worker, one step completes it and no other |
| RequestRing.CompleteInAnyOrder | src/client/od_wrkr_side_calls.c:10-33 | any requests that are with the worker can be completed in any order, by one step each |
| RequestRing.AllCanBePulled | src/client_api/od_interface.c:122-147 | from any reachable state, all that was issued can be picked up, completed and pulled |
| RequestRing.PollDrains | src/client_api/od_interface.c:122-141 | one poll leaves no completed request in front exactly when the first two were not both complete |
| RequestRing.PollsPullOneEach | src/client_api/od_interface.c:122-147 | k polls in a row pull all the leading completed requests, but at most k |
| RequestRing.PollLeavesCompleted | src/client_api/od_interface.c:130-139 | a run with two completed requests of which a poll pulls only the first |
| RequestRing.FreedStaysFree | src/client_api/od_interface.c:128-136 | whatever the worker does meanwhile, the slot that a poll has freed, and looks at again, stays free |
| RequestRing.ClientSession.PollOnce | src/client_api/od_interface.c:122-141 | the loop on a fixed slot runs at most once, and exactly if the oldest request is complete |
| RequestRing.ClientSession.PollOneBlocking | src/client_api/od_interface.c:164-175 | blocking ends with the first step of the worker that completes the oldest request, and pulls just that one |
| RequestRing.ClientSession.AccessAsync | src/client_api/od_interface.c:221-271 | a request is issued with the next ticket at once unless the ring is full; then it is issued as soon as the oldest request is complete if the access is strong, and only if it is complete at once if it is weak |
| RequestRing.ClientSession.PickUp | src/client/od_wrkr_side_calls.c:136-151 | the worker gets the oldest request not picked up, and none exactly when there is none |
| RequestRing.ClientSession.SignalCompletion | src/client/od_wrkr_side_calls.c:10-33 | completing a request in progress marks its slot, whatever the other slots hold, and completes just its ticket |
| Mica.InsertKeeps | src/mica/od_kvs.c:117-187 | an insertion keeps used slots a suffix with distinct tags, entries disjoint and aligned, and every earlier entry |
| Mica.TakenMeansInserted | src/mica/od_kvs.c:132-145 | a tag is taken in a bucket exactly when a key with both was inserted |
| Mica.LocateAgrees | include/mica/od_kvs.h:97-125 | lookup agrees with the map of what was inserted, by bucket and tag |
| Mica.InsertedAreFound | src/mica/od_kvs.c:210-232 | after any run without an abort, looking up an inserted key gives its own entry, aligned |
| Mica.AbsentAreNotFound | include/mica/od_kvs.h:97-125 | after any run without an abort, a key is found exactly when one of its bucket and tag was inserted |
| MicaPopulate.AbortsMeans | src/mica/od_kvs.c:130-187 | after any run, the next insertion aborts exactly if its bucket and tag were inserted, its bucket has eight keys, or the log has no room |
| MicaPopulate.PopulatesExactlyWhen | src/mica/od_kvs.c:210-232 | populating the store never aborts exactly if no two keys share bucket and tag, no bucket gets more than eight, and the log has room for one more entry and 32 bytes |
| Mica.Store.FindSlot | src/mica/od_kvs.c:130-145 | the scan aborts exactly on a taken tag, and otherwise picks the last free slot |
| Mica.Store.InsertOne | src/mica/od_kvs.c:117-202 | an insertion in place adds exactly its entry to the map, unless it would abort |
| Mica.Store.LocateOne | include/mica/od_kvs.h:97-125 | the lookup loop finds exactly what the map has |

## Left out

- The Harris and Michael list (`src/client/od_client.c:2058-2720`): it resets the counter of a pointer when a node is reused, so the argument against stale swaps is not available.
- Producer/consumer, release/acquire, trace and debug clients: test drivers around the same calls.
- Debug fields of `ms_ptr` (`queue_id`, `my_key_id`, `pushed`): they are not part of a pointer's identity here, as they are only written for assertions; the set-up leaves one of them unset.
- Bodies and nodes of more than one key: `MS_WRITES_NUM` and `TREIBER_WRITES_NUM` are 1.
- Weak memory orders, the flag that announces the set-up to other clients, and the `PAUSE` of spinning loops.
- Configurations that switch locking off: `DISABLE_LOCKING`, one worker per machine, and reading under the lock.
- Unicast credits (`src/network_api/od_main_loop_api.c:192-196`) and `ctx_insert_commit`: they rest on protocol code that is not in the repository.
- Multicast, address handles, sockets, shared memory, statistics and latency measurement.
- CityHash: a key is its bucket and its tag.
- The bound of a message's replies by the MTU: the first entry of a new message is not counted (`include/fifo/od_fifo.h:302-319`), so only what the code compares is modelled.
- The client's check of its inputs, and the copying of values in and out of a request: a request is an opaque value.
- Broadcasts.Worker.SendBroadcasts: `pending` is the number of waiting messages, and the refill of receives for acks is in `Credits` and `RecvRing`; signalling is in `Signalling`.
- Broadcasts.Worker.AllTargetsReached: reads the arrays of credits of all broadcast queue pairs of one worker; other workers are not part of this model.
- Credits.NextKeepsInv: the batch, not the single message, is the step of a sender, since receives are refilled just before each batch is posted; the entry for the machine itself, never used, has no credits.
- Acks.AckVisitsPending: for reorder buffers of up to 2^31 slots, as the byte size of a fifo is a 32-bit number; an ack names no id beyond those in the buffer. The same holds for `Acks.VisitsMeansCovers` and `Acks.PendingVisitedOnce`.
- Signalling.UnicastQueue.SendBatch: the device is a counter of confirmed requests; it completes requests in order.
- SendFifo.SendQueue.InsertEntry: an entry that does not fit in an empty slot, and a new message in a full ring, are errors of the caller that the source checks by assertions or not at all; the header's bytes belong to the protocol.
- MirrorBuffer.Mirror.Remove: from a mirror that has been filled beyond its size, or more than is mirrored, is not modelled; with assertions on, the source aborts on the latter.
- RecvRing.QueuePair.Poll: flows without payload (`buf_slots` of 0) name no slots.
- RequestRing.ClientSession.AccessAsync: the worker's steps are an argument, and polls come between any two of them; a weak access aborts where it returns no ticket.
- TreiberTheorems.NeverAborts: the assertion on the statistics of pushes and pops (`src/client/od_client.c:1297-1299`) is not covered.
- Mica.Store.InsertOne: answers false where the source aborts, without the writes that come before an abort at the end of the log.
