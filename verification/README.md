# A verified model of the message-passing stack

This project models the library's collectives, its RDMA transport and its start-up in Dafny and proves what
they promise, over every interleaving and for every number of processes.  Check it with `dafny verify
dfyconfig.toml`.

## What is modelled

**Collectives** (`src/mpi.cc`).  Ranks run code over reliable FIFO channels, one for each ordered pair, and
messages carry no tags; a receive may refuse a message by its length and so end its call early.  `Network`
gives the meaning of such programs and shows that their steps commute, so that one complete schedule settles
all others.  `Phases` gives a condition under which a round of messages completes, a logical clock on its
steps, and says what is done when messages are refused; `Collectives` shows that the staggered ring, the
fan-out, the fan-in and the broadcasts in turn meet it.  `Jobs` is about any sequence of collectives: if and
only if all lengths fit, a condition on the arguments of the calls, do they run without getting in each
other's way.  The code of each collective is a method over an `Endpoint`, which records its sends and
receives and is fed what arrives (`MpiRing`, `MpiRooted`, `MpiReduce`); `Delivery` shows that the methods
perform the patterns.  `RingResults`, `RootedResults` and `Agreement` put the halves together: at any moment
of any interleaving among other calls they say what the code has left in the buffers, from the messages that
the network has brought; `Cells` says it cell by cell, `Reductions` what the reductions compute.
`Refusals`, `Waiting` and `StaleMessage` are about calls that refuse a length, `Barriers` about barriers.

**Transport** (`rsocket/src`).  `Transport` is a state machine of two sockets, one thread each, and their
adapters: posted slots, completion queue with its armed or fired notification, `wr_queue`, `recv_queue`,
registered copies.  `SocketObject` is the socket as the object the code updates; its steps are those that
the interleavings are made of, and a caller sees the invariant kept and the flows changed. `Flow` is the
protocol without slots and queues; `Sockets`, `SocketSteps`, `Connection` and `Adapters` prove that every
step keeps the invariant; `TransportResults`, `TransportCalls` and `WholeCalls` (whole calls), `Wakeups`
(what a waiting thread waits for) and `OneWay` state what follows. The FIFO channels of the collectives rest
on `TransportResults.ReturnedArePrefix`.  `LinkedQueue` is the linked list behind all queues, with its nodes
and their lifetime; `Receiver` and `ManyToOne` are the many-to-one queue above it.

**Communicators and start-up** (`src/process.cc`, `src/fmpi.cc`, `include`, `tools/ffrun/pkg`).
`Communicators` is the local computation of a split, `Splits` its agreement over any tree of splits, `Mesh`
the start-up of the connections, `CommSplit` the gathering inside a split and the sockets behind a
communicator.  `Texts`, `Hosts`, `Launcher` and `RankAgreement` are the host list and the ranks on both
sides of the process boundary.

Steps of a thread are cut where it may wait or where the adapter or another thread can see the result; what
lies between two cuts is one step.

## What the code does that its documentation does not say

- `RDMA_Allgatherv_exp` multiplies the caller's `recvcount` and `displs` arrays in place
  (`src/mpi.cc:142-145`), so with elements wider than a byte a second call with the same arrays works on
  other counts (`MpiRing.AllgathervExp`).
- A rank that refuses a length returns with code 5 and stops sending and receiving (`src/mpi.cc:166-169`,
  `src/mpi.cc:182-185`, `src/mpi.cc:304-311`).  Others may then wait for ever
  (`Waiting.RefusalLeavesWaiting`; `Waiting.WhoReturns` says who), and messages that are left in a channel
  are taken for those of a later call, so that even a barrier can be passed alone
  (`StaleMessage.PassesAlone`).  Calls are kept apart exactly if every message has the length its receiver
  was told (`Jobs.CallsDoNotInterfere`, `Jobs.CallsThatDoNotFit`).
- `RDMA_Allgather_exp` and `RDMA_Alltoall` copy the caller's own send count from every message and never
  look at the message's length (`src/mpi.cc:113-125`, `src/mpi.cc:259-270`).  The messages are long enough
  exactly if no other rank contributes less (`RingResults.LongEnoughIff`, `RingResults.WideEnoughIff`;
  `RingResults.OneRankShort` is a call that fails); the methods require it, as what is copied otherwise is
  not in the message.
- `RDMA_Allreduce` ignores the codes of its two parts (`src/mpi.cc:583-593`): a rank that asks for another
  number of elements than rank 0 keeps its buffer and returns 0 (`RootedResults.AllreduceGivesTotal`).
- `recv_` that returns NULL because the peer has closed leaves `close_lock` held
  (`rsocket/src/rdma_socket.cpp:445-448`): every later call returns at once, and `close_` sends no CLOSE
  (`TransportResults.NullMeansEverything`).
- `irecv_` gives NULL with messages still queued when it comes to CLOSE in that call
  (`rsocket/src/rdma_socket.cpp:387-390`); `TransportCalls.IrecvCall` says exactly when, and
  `OverlookedMessage.IrecvOverlooks` is such a run.  `RDMA_Irecv` looks at `close_flag` before the message
  (`src/mpi.cc:441-447`), so it takes those messages off the queue later without handing them out
  (`TransportCalls.IrecvLosesQueued`).
- `send_close_md` holds `close_lock` while it waits for the completion of CLOSE, and `poll_wc` returns -1
  when that lock is held (`rsocket/src/rdma_socket.cpp:70-76`, `rsocket/src/poll_wc.cpp:44-46`), so it does
  not wait.  The model's CLOSE therefore ends the thread at once.
- `poll_wc` asks for the next notification after it has emptied the completion queue and does not look again
  (`rsocket/src/poll_wc.cpp:53-69`).  A completion that arrives in between is not announced, and `recv_` may
  wait with a message that is there (`Wakeups.RecvSleeps`); this happens exactly so
  (`Wakeups.LostOnlyAtRearm`).
- `Decoder::decode` refuses the empty text, although `FromString` accepts it as an empty map, and a port
  that is a Go int but not a C++ one (`RankAgreement.DecodeReadsBack`, `RankAgreement.LauncherReadsBack`).
- A port listed twice for a host gives the launcher two ranks and the library one
  (`RankAgreement.RanksAgree`).

## Model

| member | source | states |
|---|---|---|
| `Network.Diamond` | src/mpi.cc:11-52 | Steps of two different ranks commute and neither disables the other, because a send is buffered and each channel has one reader. |
| `Network.Strip` | src/mpi.cc:11-52 | One step of a rank and any run from the same state can be continued to a common state, also when messages are refused on the way. |
| `Network.Join` | src/mpi.cc:11-52 | Any two runs from the same state can be continued to a common state, each by as many steps as the other is longer. |
| `Network.EveryScheduleCompletes` | src/mpi.cc:80-129 | If one schedule of the ranks completes, every partial schedule can be completed, in the same number of steps and with the same result. |
| `Network.EveryInterleaving` | src/mpi.cc:80-129 | If the ranks can run to their end, then in every state any interleaving reaches no message has been refused, some rank can step or all have finished, inboxes are prefixes of the one-at-a-time result, and at the end they are that result with empty channels. |
| `Network.SameLength` | src/mpi.cc:80-129 | No interleaving takes more steps than the complete one, and it takes as many exactly when all ranks have finished. |
| `Network.Compose` | src/mpi.cc:583-593 | Two programs that complete one after the other complete when joined, although ranks run ahead into the second. |
| `Network.FirstPartIsSettled` | src/mpi.cc:583-593 | What ranks take in during the first of two joined programs is settled whatever the second is, even if messages are refused there, and nothing in the second keeps a rank from coming through the first. |
| `Network.RunConserves` | src/mpi.cc:595-619 | On every channel, messages sent are messages received plus messages in the channel, over whole runs in which no message is refused. |
| `Network.RealisedIsBalanced` | src/mpi.cc:595-619 | A program that completes sends on every channel exactly what is received from it. |
| `Phases.Progress` | src/mpi.cc:80-129 | While no message has been refused and a rank has not finished, some rank can step: follow the logical clock of the pattern downwards. |
| `Phases.PhaseRealises` | src/mpi.cc:80-129 | A pattern in which each ordered pair is used once, every send is clocked before its receive and every message has the length its receiver wants completes with its table of deliveries. |
| `Phases.PhaseRefuses` | src/mpi.cc:164-185 | If one message has not the length its receiver wants, every interleaving, however far it has come, can be continued to a refusal. |
| `Phases.PhaseStops` | src/mpi.cc:164-185 | When no rank of such a pattern can step any more, the steps done are exactly those that depend on no step left out by a refusal, whatever the interleaving. |
| `Offsets.RingMeetsEveryRankOnce` | src/mpi.cc:54-78 | Right and left offsets undo each other and the distance names the only way between two ranks, so the ring meets every other rank exactly once on each side. |
| `Collectives.RingSends` | src/mpi.cc:80-129 | At which step of the ring a rank sends to a given rank, both directions. |
| `Collectives.RingReceives` | src/mpi.cc:80-129 | At which step of the ring a rank receives from a given rank, both directions. |
| `Collectives.RingPattern` | src/mpi.cc:80-129 | The staggered ring is a clocked pattern for every n >= 2: receive k waits on a send that waits on receive k - 2. |
| `Collectives.FanOutPattern` | src/mpi.cc:11-52 | One root sending to all others is a clocked pattern. |
| `Collectives.FanInPattern` | src/mpi.cc:276-326 | All others sending to one root is a clocked pattern. |
| `Collectives.TurnsPattern` | src/mpi.cc:192-223 | A broadcast from each rank in turn is a clocked pattern, although the broadcasts overlap. |
| `Jobs.CollectiveRealises` | src/mpi.cc:80-129 | Each collective called by all ranks completes and delivers its table if every message has the length its receiver is told, a condition on the arguments of the ranks (LengthsFit); payloads may depend on all that was received before the call. |
| `Jobs.CollectiveRefuses` | src/mpi.cc:164-185 | If the lengths do not fit, every interleaving, however far it has come, can be continued to a refused message. |
| `Jobs.JobRealises` | src/mpi.cc:464-619 | Any finite sequence of collectives whose lengths fit completes with the result of running them one at a time. |
| `Jobs.CallsDoNotInterfere` | src/mpi.cc:11-378 | For any sequence of collectives whose lengths fit and any interleaving: no message refused, never stuck, every inbox a prefix of the one-at-a-time result, and that result at the end; no tags are needed. |
| `Jobs.CallsThatDoNotFit` | src/mpi.cc:164-185 | And only for those: with one length wrong in one call, every reachable state can be continued to one in which some rank has returned early with a refusal. |
| `Jobs.EachCallGetsItsOwn` | src/mpi.cc:11-378 | In every interleaving, the messages a rank takes in by some calls are those of these calls in their order, whatever was called before with fitting lengths and whatever is called after, with fitting lengths or not. |
| `Jobs.EveryoneTakesIn` | src/mpi.cc:11-378 | When no rank can step any more, every rank has taken in all that such calls bring. |
| `Delivery.RingPerforms` | src/mpi.cc:80-190 | The sends and receives of the ring methods are exactly a run of the ring program, ended by a refused length (code 5) or complete, so the network results apply to the code. |
| `Delivery.BcastPerforms` | src/mpi.cc:11-52 | Bcast performs the fan-out program, at the root and elsewhere. |
| `Delivery.ScatterPerforms` | src/mpi.cc:328-378 | Scatter performs the fan-out program with the blocks of the root. |
| `Delivery.GatherPerforms` | src/mpi.cc:276-326 | The root of Gather, which skips its own turn, performs the fan-in program, also when it stops at a wrong length. |
| `Delivery.AllgatherPerforms` | src/mpi.cc:192-223 | The loop of broadcasts performs the turns program, also when it stops at a wrong length. |
| `Delivery.ReducePerforms` | src/mpi.cc:464-581 | Reduce performs the fan-in program. |
| `Delivery.AllreducePerforms` | src/mpi.cc:583-593 | Allreduce performs the fan-in program and then the fan-out program with what it has folded. |
| `Delivery.BarrierPerforms` | src/mpi.cc:595-619 | Barrier performs the fan-in program and then the fan-out program with its fixed message. |
| `Endpoints.ByteCount` | include/mpi.hpp:15 | A count of elements is 8 bytes each for types 0 and 2, 4 for type 1, 1 for type 3; all typed collectives send and file that many. |
| `Offsets.OffsetsAre` | src/mpi.cc:54-78 | The rank i places to the right is r + i but for a whole turn, and r is i places to the right of the rank on the left. |
| `MpiRing.AllgatherExp` | src/mpi.cc:80-129 | Result codes 1 and 2 exactly for null buffers and non-positive counts, without effect; otherwise the ring: its actions, its result code and the whole receive buffer, also when a receive gives NULL. |
| `MpiRing.AllgathervExp` | src/mpi.cc:131-190 | Allgatherv_exp likewise, with lengths checked (code 5) and ranges from the displacement array; the caller's recvcount and displs arrays are left multiplied by the element size. |
| `MpiRing.Alltoall` | src/mpi.cc:225-274 | Alltoall likewise, with block d of the send buffer going to rank d. |
| `MpiRooted.Bcast` | src/mpi.cc:11-52 | What the root sends and what a non-root takes in, including the error codes. |
| `MpiRooted.Scatter` | src/mpi.cc:328-378 | Block d of the root's buffer goes to rank d, the root keeps its own; error codes. |
| `MpiRooted.Gather` | src/mpi.cc:276-326 | The root files each message in its rank's block in rank order and stops at the first NULL or wrong length; the others send their block. |
| `MpiRooted.Allgather` | src/mpi.cc:192-223 | A loop of broadcasts, one from each rank, each into its rank's block. |
| `MpiReduce.CombineInto` | src/mpi.cc:493-520 | The element loop: each element is combined with that of the message (Reductions.ResultOfOneMore says how), the cells behind the count stay. |
| `MpiReduce.Reduce` | src/mpi.cc:464-581 | The root's buffer is the fold of its own data and the received messages in rank order, rest unchanged; a non-root sends its data and changes nothing. |
| `MpiReduce.Allreduce` | src/mpi.cc:583-593 | Rank 0 folds and sends the result to everyone; the others take over what arrives if it has the right length; count 0 passes the check of Reduce and is refused by Bcast. |
| `MpiReduce.Barrier` | src/mpi.cc:595-619 | Rank 0 receives from all others, then sends to all; the others send, then receive. |
| `MpiReduce.FoldFromIs` | src/mpi.cc:464-581 | For integer sum, minimum and maximum, the fold that starts at the root equals the fold in rank order. |
| `Buffers.PutAllReads` | src/mpi.cc:80-129 | Pieces that do not overlap all read back after being copied in, in any order, and nothing else changes. |
| `Filling.FilledIsUnique` | src/mpi.cc:80-129 | What pieces in their places with all else unchanged looks like leaves no choice. |
| `Filling.PutAllFills` | src/mpi.cc:80-129 | Copying in order of arrival gives the buffer described in order of ranks. |
| `RingResults.AllgatherExpGathers` | src/mpi.cc:80-129 | At any moment of any interleaving among other calls at which a rank has taken in the messages of the call, and nobody contributes less than it: code 0, block j equal to rank j's data cut to its own length, all other cells unchanged, and the code's sends and receives are those the network has run. |
| `RingResults.LongEnoughIff` | src/mpi.cc:113-125 | What Allgather_exp copies is in the messages a rank gets if and only if no other rank contributes less than itself. |
| `RingResults.OneRankShort` | src/mpi.cc:113-125 | Two ranks that contribute 1 and 2 cells: the second copies more than it gets. |
| `RingResults.AllgathervExpGathers` | src/mpi.cc:131-190 | At any such moment of Allgatherv_exp, for ranges that do not overlap: code 0, every range filled with its rank's data and no byte outside changed. |
| `RingResults.AlltoallTransposes` | src/mpi.cc:225-274 | At any such moment of Alltoall, if nobody's blocks are narrower than the rank's own: block j of its receive buffer is block r of rank j's send buffer, all other cells unchanged. |
| `RingResults.WideEnoughIff` | src/mpi.cc:259-270 | What Alltoall copies is in the messages a rank gets if and only if no other rank's blocks are narrower than its own. |
| `RingResults.AlltoallTwiceRestores` | src/mpi.cc:225-274 | Two transpositions give every rank its first send buffer back. |
| `RingResults.TwoAlltoallsRestore` | src/mpi.cc:225-274 | That holds for two calls that follow each other in any interleaving, the second sending what the first delivered. |
| `RootedResults.GatherGathers` | src/mpi.cc:276-326 | At any moment at which the root has taken in what Gather brings: code 0, block j of its buffer is rank j's data, no other cell changes. |
| `RootedResults.AllgatherGathers` | src/mpi.cc:192-223 | At any such moment of Allgather: block j of every rank's buffer is rank j's data, no other cell changes. |
| `RootedResults.BcastReaches` | src/mpi.cc:11-52 | At any such moment of Bcast: code 0 and the root's data in the buffer if and only if the lengths agree, code 5 and the buffer as it was otherwise. |
| `RootedResults.ScatterReaches` | src/mpi.cc:328-378 | At any such moment of Scatter: code 0 and the root's block for the rank in its buffer if and only if the widths agree, code 5 and the buffer as it was otherwise; the root keeps its own block. |
| `RootedResults.FoldIsTotal` | src/mpi.cc:464-581 | What a root folds together in order of arrival is the fold over all ranks in rank order, whichever rank is the root. |
| `RootedResults.ReduceGivesTotal` | src/mpi.cc:464-581 | At any such moment of Reduce, if nobody contributes less than the root: the front of the root's receive buffer is that fold, the rest and all other ranks' buffers are as they were. |
| `RootedResults.AllArriveIff` | src/mpi.cc:493-520 | What Reduce reads is in the messages the root gets if and only if nobody contributes less than the root. |
| `RootedResults.AllreduceGivesTotal` | src/mpi.cc:583-593 | At any such moment of Allreduce: every rank that asks for as many elements as rank 0 holds that fold in its receive buffer, so all hold the same; a rank that asks for another number keeps its buffer and has code 0 all the same. |
| `Reductions.ResultOfOneMore` | src/mpi.cc:493-520 | The sum, the minimum or the maximum of some elements, combined with one more, is that of all of them. |
| `Reductions.FoldIsResult` | src/mpi.cc:464-581 | Folding a column gives for operation 0 its sum, for 1 an element of it that no other is below, for all other operations one that no other is above. |
| `Reductions.ReduceComputes` | src/mpi.cc:464-581 | At any moment at which the root has taken in what Reduce brings: in each place of its buffer is the sum, the minimum or the maximum of the ranks' elements in that place. |
| `Reductions.AllreduceComputes` | src/mpi.cc:583-593 | The same for Allreduce at every rank that asks for as many elements as rank 0. |
| `Cells.AllgatherExpCells` | src/mpi.cc:80-129 | Allgather_exp with equal counts, cell by cell: cell i of rank j is at j * recvcount + i, and all cells outside the blocks are as they were. |
| `Cells.AllgatherCells` | src/mpi.cc:192-223 | Allgather likewise. |
| `Cells.GatherCells` | src/mpi.cc:276-326 | Gather likewise, at the root. |
| `Cells.AlltoallInPlace` | src/mpi.cc:225-274 | Alltoall: the block from rank j is at j * recvcount of the receive buffer. |
| `Cells.ExchangedCells` | src/mpi.cc:225-274 | That block is cell by cell the part of rank j's send buffer that begins at r times its sendcount. |
| `Cells.BlockCells` | src/mpi.cc:328-378 | What Scatter hands to rank d is cell by cell the part of the root's buffer that begins at d times the width. |
| `Agreement.ThreeAllgathersAgree` | src/mpi.cc:80-223 | Allgather, Allgather_exp and Allgatherv_exp with equal counts and displacements j * count, each called in any interleaving among other calls, leave the same receive buffer on every rank. |
| `Refusals.ReturnedRank` | src/mpi.cc:164-185 | In every interleaving, a rank that has returned from a collective has taken in a prefix of what it was sent, all of it acceptable if the prefix is everything, and otherwise ending in the first message of a wrong length. |
| `Refusals.AllgathervExpRefuses` | src/mpi.cc:164-185 | In every interleaving, although ranks that have refused a message stop sending: a rank that has returned from Allgatherv_exp has code 0 or 5, and 5 exactly if some other rank contributes a length it was not told. |
| `Refusals.GatherRefuses` | src/mpi.cc:300-316 | The same for the root of Gather and for every rank of Allgather. |
| `Waiting.WhoReturns` | src/mpi.cc:164-185 | When no rank of a ring collective can step any more, exactly those ranks have returned that take in everything or refuse a message that is sent; the lengths alone decide which, and the others wait for good. |
| `Waiting.RefusalLeavesWaiting` | src/mpi.cc:164-185 | Four ranks told counts 5, 1, 1, 1 of which the first contributes 4: in every interleaving rank 1 returns with the refusal and rank 0, to which everybody contributes what it was told, never returns. |
| `StaleMessage.PassesAlone` | src/mpi.cc:304-311 | Three ranks, a Gather in which rank 1 contributes too much, then a Barrier: a reachable state in which rank 0 has passed the barrier and rank 2 has not arrived, its block having been taken for its report. |
| `Barriers.RingPairs` | src/mpi.cc:80-129 | Which send each receive of the ring belongs to. |
| `Barriers.ReceiveWaitsForItsSend` | src/mpi.cc:11-378 | In any sequence of calls whose lengths fit and any interleaving, a rank past a receive means the sender is past the matching send of the same call. |
| `Barriers.NobodyPassesAlone` | src/mpi.cc:595-619 | Whatever is called before and after, if the lengths fit, no rank has passed a barrier in a reachable state unless every rank has arrived at it. |
| `Barriers.BarriersKeepStep` | src/mpi.cc:595-619 | In a run of barriers the numbers of completed barriers of two ranks never differ by more than one. |
| `Barriers.BarriersGoOn` | src/mpi.cc:595-619 | As long as some rank has not come to the end of its barriers, some rank can step. |
| `LinkedQueue.Queue.Push` | rsocket/src/queue.cpp:22-41 | One new node at the tail; head, tail, next pointers and node_num stay consistent with the abstract sequence. |
| `LinkedQueue.Queue.Pop` | rsocket/src/queue.cpp:43-67 | The oldest message, or none; its node is freed and is no longer part of the queue. |
| `LinkedQueue.Queue.PushQ` | rsocket/src/queue.cpp:80-94 | The constant-time splice is concatenation, and the nodes of the source now belong to the destination. |
| `LinkedQueue.Queue.Reset` | rsocket/src/queue.cpp:96-102 | The source is empty afterwards, whatever has become of the nodes it pointed at. |
| `LinkedQueue.ChainJoin` | rsocket/src/queue.cpp:83-89 | Redirecting the last next pointer of one chain makes one chain of two. |
| `LinkedQueue.Splice` | rsocket/src/queue.cpp:80-102 | Splice and reset with any pops of the consumer and pushes of other senders in between: what is popped and the queue together are the two sequences one after the other and then the pushes, the popped nodes are freed although the source still points at them, the source is empty. |
| `Receiver.GroupCuts` | rsocket/src/receiver.cpp:40-49 | Grouping frames into messages loses, adds and moves nothing; every group is frames of flag 128 and a last one of another flag, and the open rest is frames of flag 128. |
| `Receiver.Handle` | rsocket/src/receiver.cpp:40-52 | A frame of flag 128 is held back; any other releases the whole message into the shared queue in one operation. |
| `Receiver.Flush` | rsocket/src/receiver.cpp:29-38 | At close the held-back frames and then the socket's own queue go into the shared queue. |
| `Receiver.RecvProcess` | rsocket/src/receiver.cpp:23-66 | The thread alone moves its frames into the shared queue in order, and only whole messages before close. |
| `ManyToOne.ActKeeps` | rsocket/src/receiver.cpp:28-53 | Each step of a thread adds to what it has written exactly the next whole message, or at close its rest. |
| `ManyToOne.WholeMessagesOnly` | rsocket/src/receiver.cpp:23-66 | In every interleaving of threads and consumer, the shared queue has received a sequence of operations, each one whole message of one sender or, at close, its rest. |
| `ManyToOne.EachSenderInOrder` | rsocket/src/receiver.cpp:23-66 | Each sender's frames are a prefix of what it sent, in order and once each; all of it after close. |
| `ManyToOne.MessagesStayTogether` | rsocket/src/receiver.cpp:28-53 | A frame that announces another, of a message that its sender had completed before its close, is directly followed by that message's next frame, through the flush at close too. |
| `ManyToOne.FramesStayTogether` | rsocket/src/receiver.cpp:111-123 | On an open connection that holds of every frame that announces another. |
| `SocketObject.FreshInOrder` | rsocket/src/init.cpp:58-77 | A fresh socket satisfies the invariant and nothing is under way from it or to it. |
| `SocketObject.Socket.EmptyCq` | rsocket/src/poll_wc.cpp:55-66 | The polling loop moves all receive completions to wr_queue in order and reports whether it saw another completion. |
| `SocketObject.Socket.Advance` | rsocket/src/rdma_socket.cpp:290-466 | One stretch of the code between two waits, by the object: the invariant, the balance of credits and of slots and the order of both flows are kept, and the flows change by exactly what the stretch is for: a message posted and its credit taken, received, acknowledged, its credit back and its copy freed, handed out, or nothing; a send_ that waited for a credit goes on to post what it prepared, and a CLOSE is noted outside close_. |
| `Flow.FlowPosts` | rsocket/src/rdma_socket.cpp:335-341 | Posting a message keeps the order of descriptors in flight. |
| `Flow.FlowArrives` | rsocket/src/poll_wc.cpp:61-65 | Delivery into a slot keeps that order. |
| `Flow.FlowReads` | rsocket/src/poll_wc.cpp:146-170 | The message in hand is unacknowledged, so its sender still keeps its copy. |
| `Flow.FlowAcks` | rsocket/src/poll_wc.cpp:180-194 | The arrival of an acknowledgement keeps it too. |
| `Flow.FlowFrees` | rsocket/src/poll_wc.cpp:206-219 | An acknowledgement that is handled is that of the oldest unacknowledged message. |
| `Flow.FlowEnds` | rsocket/src/poll_wc.cpp:79-82 | A handled message is the next one of those sent. |
| `Sockets.SlotOnce` | rsocket/src/init.cpp:61-63 | A slot that is in one place is in no other. |
| `SocketSteps.SendPostKeeps` | rsocket/src/rdma_socket.cpp:335-341 | The socket's invariant over posting, and exactly what it changes in its flow. |
| `SocketSteps.HandleNormalKeeps` | rsocket/src/poll_wc.cpp:142-176 | The invariant over taking up a message, empty or not, and what it changes in the flow. |
| `SocketSteps.AckPostKeeps` | rsocket/src/poll_wc.cpp:180-187 | The invariant over posting the acknowledgement, which changes nothing in either flow. |
| `SocketSteps.AckFinishedKeeps` | rsocket/src/poll_wc.cpp:189-204 | The invariant when the acknowledgement has gone out: the slot is reposted and the message queued. |
| `SocketSteps.HandleAckKeeps` | rsocket/src/poll_wc.cpp:206-229 | The invariant when an acknowledgement is handled: a credit comes back and its copy is freed. |
| `SocketSteps.HandleCloseKeeps` | rsocket/src/poll_wc.cpp:230-238 | The invariant over CLOSE; nothing is behind it. |
| `SocketSteps.CopyFreed` | rsocket/src/poll_wc.cpp:212-215 | Freeing the oldest message's copy frees a live copy and no other's. |
| `Connection.ThreadKeepsPair` | rsocket/src/rdma_socket.cpp:290-466 | Every step of a thread keeps the invariant of the connection. |
| `Adapters.DeliverKeepsPair` | rsocket/README.md:72 | Every delivery into a slot keeps the invariant of the connection. |
| `Adapters.ReadKeepsPair` | rsocket/src/poll_wc.cpp:156-166 | Every remote read keeps the invariant of the connection. |
| `Adapters.ReportKeepsPair` | rsocket/src/poll_wc.cpp:49-53 | Every completion keeps the invariant of the connection. |
| `Adapters.ReadFinds` | rsocket/src/poll_wc.cpp:156-166 | A remote read finds a registered copy with exactly the bytes sent. |
| `Adapters.ReachableIsOk` | rsocket/src/init.cpp:58-77 | The invariant holds in every state two fresh sockets can come to. |
| `TransportResults.ReturnedArePrefix` | rsocket/src/rdma_socket.cpp:364-466 | The messages recv_ and irecv_ return are a prefix of those sent, bytes and flags, in order, once each, empty ones included. |
| `TransportResults.RemoteReadIsValid` | rsocket/src/poll_wc.cpp:156-166 | Every remote read hits a live copy holding the bytes of the next message. |
| `TransportResults.LiveCopies` | rsocket/src/rdma_socket.cpp:306-327 | The live copies are exactly those of unacknowledged non-empty messages and of the one a send_ is about to post. |
| `TransportResults.AcknowledgementFreesItsCopy` | rsocket/src/poll_wc.cpp:206-219 | The acknowledgement at the head of wr_queue names a live copy, that of the oldest unacknowledged message, and handling it frees that one. |
| `TransportResults.CreditsAreConserved` | rsocket/src/rdma_socket.cpp:335-354 | peer_buff_count plus everything in flight is 50 always; between calls wr_queue is empty and metadata_counter - ack_counter is what is in flight. |
| `TransportResults.SlotsAreConserved` | rsocket/src/poll_wc.cpp:180-227 | Each of the 50 slots is in exactly one of posted, completed, wr_queue, being handled; the source of an outgoing acknowledgement is never posted. |
| `TransportResults.CloseIsLast` | rsocket/src/rdma_socket.cpp:59-74 | CLOSE is posted only when everything is acknowledged; then no copy is left and nothing is in flight. |
| `TransportResults.CloseComesLast` | rsocket/src/poll_wc.cpp:230-238 | When the peer handles CLOSE it has received every message, and nothing is behind it. |
| `TransportResults.ClosedMeansAllReceived` | rsocket/src/rdma_socket.cpp:438-448 | A socket that has noted CLOSE has received everything; with its queue empty it has handed out everything. |
| `TransportResults.NullMeansEverything` | rsocket/src/rdma_socket.cpp:443-448 | recv_ that gives NULL at close has handed out every message; close_lock stays held, so later calls return at once and no CLOSE is ever sent back. |
| `OverlookedMessage.IrecvOverlooks` | rsocket/src/rdma_socket.cpp:386-390 | A run of one empty message, an irecv_ and a close that ends with irecv_ having given NULL and the message still queued. |
| `TransportCalls.IrecvCall` | rsocket/src/rdma_socket.cpp:364-399 | A whole irecv_ call, begun in any reachable state, with any moves of both ends: it gives NULL with messages queued if and only if close_flag is set during it and messages are queued then, never when it was set before; otherwise it gives the peer's next message or none is queued. |
| `TransportCalls.RecvCall` | rsocket/src/rdma_socket.cpp:412-466 | A whole recv_ call likewise: it gives the peer's next message, or NULL, and that only when the peer has closed and every message it sent has been handed out; NULL leaves close_lock held if the close had been noted before. |
| `TransportCalls.IrecvLosesQueued` | src/mpi.cc:423-455 | RDMA_Irecv: code 1 if and only if CLOSE has been noted when it returns, code 6 if and only if it has not and there is no message or one of another length, code 0 otherwise; after CLOSE it takes queued messages off the queue all the same. |
| `WholeCalls.SendCall` | rsocket/src/rdma_socket.cpp:290-360 | A whole send_ call, begun in any reachable state, with any moves of both ends: without close_lock it posts exactly one descriptor, which describes its message, after those posted before, gives nothing back, queues the messages that had arrived and notes a CLOSE that had arrived; with close_lock it does nothing. |
| `WholeCalls.SendPostsInTime` | rsocket/src/rdma_socket.cpp:329-341 | When send_ posts: with a credit as its first step, without one after one notification of poll_wc, whatever that brought. |
| `WholeCalls.CloseCall` | rsocket/src/rdma_socket.cpp:48-88 | A whole close_ call likewise: without close_lock it ends with CLOSE posted as its last descriptor, everything acknowledged and no copy left, having sent and given back nothing; with close_lock it posts nothing. |
| `WholeCalls.IrecvTakesWhatArrived` | rsocket/src/rdma_socket.cpp:364-399 | If a message was queued or had arrived when irecv_ began, it gives one, unless CLOSE has been noted; a CLOSE that had arrived is noted. |
| `WholeCalls.CloseIsNotLost` | rsocket/src/poll_wc.cpp:230-238 | In every reachable state a CLOSE that has been posted is on its way, waits at the other end, or is noted there, unless that end is closing too; whatever calls are made. |
| `Wakeups.WaitingIsRight` | rsocket/src/rdma_socket.cpp:329-332 | In every reachable state a thread waits for a notification only with wr_queue handled: in recv_ with no message queued and no CLOSE noted, in close_ with acknowledgements missing, in send_ without a credit. |
| `Wakeups.LostOnlyAtRearm` | rsocket/src/poll_wc.cpp:49-69 | A notification is lost, by any move of either end, if and only if poll_wc asks for the next one while a completion it has not looked at stands in the queue. |
| `Wakeups.RecvSleeps` | rsocket/src/poll_wc.cpp:53-69 | A run that ends so: recv_ waits with a message in its completion queue, and no move but a further call of the peer is possible. |
| `OneWay.CreditsSuffice` | rsocket/src/rdma_socket.cpp:329-354 | One-way traffic: peer_buff_count is >= 0 between calls and >= -1 always, and at most 50 descriptors are posted whose acknowledgement has not arrived. |
| `OneWay.OneDescriptorMayWait` | rsocket/src/poll_wc.cpp:180-202 | One-way traffic: at most one descriptor is on its way, and it lacks a posted slot only while the receiver is between the arrival of an acknowledgement and the reposting of its slot. |
| `OneWay.SenderKeeps` | rsocket/src/rdma_socket.cpp:329-354 | The credit guard's single poll brings an acknowledgement, because only acknowledgements can wake it. |
| `Communicators.Communicator.SetRank` | include/comm.hpp:57-60 | If the two tables are those of some members, setRank for a new one with the next rank makes them those of one member more. |
| `Communicators.TablesGrow` | include/comm.hpp:57-60 | setRank for the next rank keeps the two tables inverse to each other. |
| `Communicators.Communicator.IsMem` | include/comm.hpp:62 | True exactly for the members. |
| `Communicators.SortersExist` | src/process.cc:51-54 | There is a way of sorting by key as the splits assume it, so what is said of all of them is said of some. |
| `Communicators.NewConfigsAre` | src/process.cc:38-54 | The new members are exactly those of the same colour, in the order of their keys; for colour -1, and no other, only oneself. |
| `Communicators.RdmaProcess.SetupRootCommWorld` | src/process.cc:106-116 | Communicator 0 has everyone with the rank they have in the world. |
| `Communicators.RdmaProcess.SplitComm` | src/process.cc:24-70 | An invalid handle is refused; otherwise one communicator is added with the tables of the sorted members of the own colour, and the caller's own rank in it. |
| `Splits.SplitTables` | src/process.cc:38-69 | The tables a member ends with, from colours and keys alone: a rank for exactly the members of its colour, or for itself alone if its colour is -1, -1 for everyone else, the inverse table, the smaller rank for the smaller key, and as size the number of those members. |
| `Splits.SplitAgrees` | src/process.cc:56-69 | Members of the same colour get equal tables and size, and each finds its own rank in the other's. |
| `Splits.SplitSeparates` | src/process.cc:39-49 | Members of different colours, or without colour, are not in each other's tables. |
| `Splits.SplitKeepsOk` | src/process.cc:24-70 | A split keeps all communicators of all processes consistent, old and new. |
| `Splits.AllTablesAgree` | src/fmpi.cc:86-134 | After any tree of splits every communicator is the same for all its members although their handles differ. |
| `CommSplit.ReadConfigs` | src/fmpi.cc:115-123 | The loop reads the pair of each member out of the gathered buffer. |
| `CommSplit.EveryoneReadsTheSame` | src/fmpi.cc:97-123 | At whatever moment of whatever interleaving a member has come through the Allgather_exp inside the split, it reads the same list of colours and keys out of its buffer as every other. |
| `CommSplit.Split` | src/fmpi.cc:86-134 | RDMA_Comm_split as a whole: an invalid handle is refused, a failed gathering gives an error, and otherwise one communicator is added, made of the list read out of the own buffer, and a barrier follows. |
| `CommSplit.MembersSplitAlike` | src/fmpi.cc:86-134 | Members that each split by the list they have read in their own buffers have split by one list, that of the colours and keys passed, so all communicators stay consistent. |
| `CommSplit.MembersReachEachOther` | include/process.hpp:87-106 | In every communicator of any tree of splits, two members' sockets for each other are the two ends of one connection. |
| `Mesh.FiledIsClient` | src/process.cc:148-151 | The rank an accepted connection names is the client's and lower than the server's, as the code asserts. |
| `Mesh.StepKeeps` | src/process.cc:118-154 | Every step of start-up keeps the mesh invariant. |
| `Mesh.ConnectingMoves` | src/process.cc:130-140 | A process that is still connecting, or one above it that it waits for, can go on. |
| `Mesh.NeverStuck` | src/process.cc:99-154 | As long as not all processes are ready, some process can take a step. |
| `Mesh.EveryRunEnds` | src/process.cc:99-154 | Start-up takes a bounded number of steps, retries apart. |
| `Mesh.SocketsMeet` | src/process.cc:137-151 | When all are ready, for any two processes the sockets filed under each other's rank are the two ends of one connection, in whatever order the accepts came. |
| `Texts.SplitJoin` | include/utils/decoder.hpp:27-47 | Splitting undoes joining for parts free of the separator. |
| `Texts.Spliter.GetNext` | include/utils/decoder.hpp:27-47 | Hands out the stretches one after the other, then empty texts. |
| `Texts.StoiReads` | include/utils/decoder.hpp:103-103 | What std::stoi makes of white space, a sign, digits and anything behind them. |
| `Texts.AtoiReads` | tools/ffrun/pkg/types/types.go:67-70 | What strconv.Atoi makes of a sign, digits and anything behind them. |
| `Texts.NumbersReadBack` | include/utils/decoder.hpp:103-103 | std::stoi and strconv.Atoi read back what strconv.Itoa prints exactly between -2^31 and 2^31 - 1 and between -2^63 and 2^63 - 1, and refuse it otherwise. |
| `Hosts.InsertIs` | include/utils/decoder.hpp:76-82 | map::insert fails exactly for a key that is there, and otherwise keeps the order. |
| `Hosts.DecodePortList` | include/utils/decoder.hpp:97-107 | The ports in order, or the first number that is none. |
| `Hosts.Decode` | include/utils/decoder.hpp:68-85 | The sorted map of sets of ports, or the first error: no number or a duplicate host. |
| `Hosts.DecodedPorts` | include/utils/decoder.hpp:97-107 | For any texts: all are numbers and give the ports in order, or the error is that of the first that is none. |
| `Hosts.DecodedHosts` | include/utils/decoder.hpp:68-85 | For any texts: the map of all hosts, each once, in order; or the error of the first text that is malformed or names a host again. |
| `Hosts.CalRank` | include/utils/rank_alg.hpp:16-29 | Every process has the rank that is its place in the sorted list of addresses. |
| `Hosts.GetRank` | include/utils/rank_alg.hpp:31-40 | The first entry with the address, none exactly if there is none. |
| `Hosts.RanksAreFound` | include/utils/rank_alg.hpp:31-40 | Looking up a process's address in the rank list gives its own rank. |
| `Launcher.Print` | tools/ffrun/pkg/types/types.go:40-47 | The map printed in whatever order it is traversed. |
| `Launcher.FromString` | tools/ffrun/pkg/types/types.go:50-76 | Reads a host map, refusing malformed text. |
| `Launcher.PortsRead` | tools/ffrun/pkg/types/types.go:64-73 | For any texts: all are numbers and give the ports in order, or nothing. |
| `Launcher.EntriesRead` | tools/ffrun/pkg/types/types.go:50-76 | For any texts: nothing exactly if one is malformed; otherwise each host has the ports of the last text that names it. |
| `Launcher.CalculateRank` | tools/ffrun/pkg/algorithm/rank_alg.go:9-28 | Ranks are places in the list sorted by host and port. |
| `Orders.BeforeIs` | tools/ffrun/pkg/types/types.go:30-37 | Hosts are compared at the first difference: one is before another if it is a proper front of it or has the smaller character in the first place where they differ. |
| `Orders.SortedIsUnique` | tools/ffrun/pkg/types/types.go:30-37 | Sorting by host and port leaves no choice, ties being equal addresses. |
| `RankAgreement.EntryReadsBack` | include/utils/decoder.hpp:88-107 | A printed host reads back on each side exactly if it has ports and all are in the range of that side; otherwise it is refused. |
| `RankAgreement.DecodeReadsBack` | include/utils/decoder.hpp:68-85 | Decoding the printed map succeeds exactly if the map is not empty, every host has a port and every port fits an int, and then gives the map back, for every printing order. |
| `RankAgreement.LauncherReadsBack` | tools/ffrun/pkg/types/types.go:40-76 | FromString undoes String exactly for maps in which every host has a port, all 64-bit, and refuses the text of any other. |
| `RankAgreement.LibraryOrder` | include/utils/rank_alg.hpp:16-29 | On the library side, of two ranks the smaller one has the smaller host in that sense, or the same host and the smaller port. |
| `RankAgreement.LauncherOrder` | tools/ffrun/pkg/algorithm/rank_alg.go:9-28 | On the launcher side likewise, ports possibly equal. |
| `RankAgreement.RanksAgree` | include/utils/rank_alg.hpp:16-29 | The library's list and the launcher's are equal exactly if no host has a port twice. |
| `RankAgreement.SameProcessList` | tools/ffrun/pkg/algorithm/rank_alg.go:9-28 | The process list that the library computes from the printed text is the one the launcher computes from its map exactly if no host has a port twice. |

## Left out

- MpiRing.AllgathervExp: the release of messages is not modelled; when the last receive fails or is refused the code releases `send_msg` a second time (`src/mpi.cc:173-183`).
- MpiRing.AllgatherExp: does not model a failing `send_`, whose return value the collectives only pass on; nor a receive buffer that overlaps the send buffer.
- MpiRing.Alltoall: a communicator of size 1 is excluded, as for the other ring collectives; there is no socket to oneself.
- MpiRooted.Gather: `recvcount` is the count per rank; two of the repository's programs pass the total.
- MpiReduce.Reduce: elements are unbounded integers; floating-point rounding, fixed-width overflow and reductions on the byte type are not modelled.
- Network.EveryInterleaving: channels never fail; a receive that gives NULL is in the contracts of the methods (code 4) but is not followed across ranks.
- SocketObject.Socket.Advance: failure returns, error completions, failed allocation and the teardown after close are not modelled.
- SocketObject.Socket.EmptyCq: what the adapter puts into the completion queue while the loop runs comes before or after it in the model.
- OneWay.CreditsSuffice: nothing is claimed for two-way traffic, where a message of the peer can wake the guard's single poll.
- TransportResults.LiveCopies: addresses come from an allocator that gives any address that is not live; registration and memory keys are not modelled.
- ManyToOne.EachSenderInOrder: senders are known by their connection, not by the `node_id` of a message.
- Splits.AllTablesAgree: the sort is one fixed function that all processes use; what it does with equal keys is left open.
- Mesh.EveryRunEnds: a refused connection may be tried again any number of times; the bound of ten and the sleeping are not modelled.
- Texts.Spliter.GetNext: separators are single characters, as in all uses, and the overflow warning, never switched on, is not modelled.
- Launcher.CalculateRank: the sort is any function that sorts by Less; swaps in place are not modelled.
- RDMA_Send, RDMA_Recv: thin wrappers around the transport.
- TransportCalls.IrecvLosesQueued: of RDMA_Irecv, the argument checks and the copy are not modelled.
- The disconnect thread, close_handle and what close_ does after CLOSE: foreign state, torn down across threads.
- receiver_recv: its waiting is the consumer's step of the many-to-one model; condition variables are not modelled.
- ibverbs, rdma_cm, thread creation, timing, abort and freeComm: outside the library or stubs.
- HostMapNumproc, argument parsing, port selection and the executors: glue without protocol.
