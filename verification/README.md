# Channel monitor, ring workload and distance-vector network

This project models the concurrent core of `concurrencylab-edit` and proves what its stress programs
rely on:

* **The distance-vector network** (`stress.c`). Routers exchange pointers to rotating vectors over channels
  of capacity one; main probes them with `check_done` until it believes they have converged, and compares
  what they hold with a sequential Floyd-Warshall solution. The network is a state machine whose runs are
  all interleavings of the routers' and main's steps; one turn of a relaxation loop is one step, so a
  vector can be read while its owner goes on.
* **The channel** (`channel.c`): a monitor with one mutex and two condition variables, for any number of
  threads, with spurious wake-ups and barging calls.
* **The ring** (`stress_send_recv.c`): workers passing messages round, main feeding, draining and stopping
  them.
* **The buffer** (`buffer.c`): a circular array that refines a bounded FIFO queue.

## Main results

1. In every reachable state the vectors are real distances, a vector that a neighbour can see is never
   written, and for every link the receiver has accounted for the sender's vector unless it is still
   pending or waiting (`NetworkInv.RunInv`). So a quiescent network holds exactly what the in-place 32-bit
   solver computes (`Protocol.QuiescentIsSolved`, `FloydWarshall.Solve`), and left to itself the network
   gets there in finitely many steps, whatever the interleaving (`Progress.DataRunsConverge`). With main
   probing as it likes, the routers' own steps are bounded by the load at the start and the number of answers
   they give (`Progress.DataStepsAreBounded`).
2. main, unlike a neighbour, holds pointers to vectors that are recycled: what such a pointer leads to stays
   the same exactly as long as its router has not rotated three times (`Recycling.KeptIsIntactIff`).
   `check_done` compares epochs through these pointers. Its verdict is true exactly when every router rotated
   a multiple of four times between its answers and no epoch was rewritten between the two reads of a
   comparison (`Verdict.VerdictCountsRotationsModuloFour`).
   * With epochs compared by value detection is sound without condition (`Verdict.UnrotatedIsSolved`). Through
     pointers a true verdict agrees with it exactly when no router rotated four times or more; that is
     sufficient for the network to be at rest and the assertion to hold (`Verdict.EveryTrueVerdictIsRight`),
     not necessary. What main holds passes the assertion exactly when no link can improve it
     (`Verdict.AssertionHoldsIffSettled`).
   * Before the call: if every router has fewer than four rotations left, counted as the sum by which its
     distances still exceed the solution and one for unannounced news, the verdict can be trusted
     (`Budget.CheckIsRightIfLittleIsLeft`); so it can on every topology whose rows of links exceed those of the
     solution by less than four (`Budget.NearTopologiesAreSafe`).
   * The bound is exact: trust in all topologies within `b` of their solution is justified if and only if
     `b <= 4` (`Bound.FourIsTheBound`). Beyond it, `FalseVerdict.CheckDoneCanBeWrong` is a run of six routers,
     all of whose selects go through their lists in order and take the first entry found available, in which
     the hub rotates four times, `check_done` finds its pointer unchanged, and the assertion at the end of
     `check_done` fails for a neighbour.
   * In the other direction a `check_done` that starts on a network at rest can only return true
     (`Completeness.RestIsDetected`).
3. The probed network never deadlocks with capacity one (`Liveness.NoDeadlock`) and never gets anywhere with
   capacity zero (`Liveness.UnbufferedNeverJudges`).
4. The channel is linearizable: for any number of threads and any interleaving of blocking, non-blocking and
   closing calls there is an order of the calls, compatible with when they begin and return, in which each has,
   performed alone on a queue, the result and value it returns with (`MonitorTheorems.Linearizable`). No value is
   handed out twice (`MonitorTheorems.DifferentReceives`), exactly one close succeeds
   (`MonitorTheorems.OneCloseSucceeds`), no wake-up is lost, and a close releases everybody.
5. In the ring every message is always in exactly one place. main's checks are safe from a sleeping state
   exactly when the start period is over (`RingTheorems.ChecksAreSafeIffStarted`); the workers can jam
   exactly when there are `n*(b+1)` messages or more (`RingJam.JamsIffTooMany`). From a timely `done` on at most
   `5*num + 2*n` steps are left, and below that bound every run ends with each message back once and all workers
   gone (`RingDrain.TimelyRunEnds`).

## Modules

| module | what it holds |
|---|---|
| `Distances` | link matrices, walks, shortest distances, 32-bit addition |
| `FloydWarshall` | the reference solver: specification on matrices, methods on the flat arrays |
| `Routers` | one router as a value: its operations and invariant |
| `RouterThreads` | the router in the program's own form (a class with four shared vectors and a send list), proved to do what `Routers` says |
| `Network` | the step relation over routers, channels and main |
| `NetworkInv`, `Protocol`, `Progress` | the network's invariant; what follows from it; termination of the routers' own steps |
| `Recycling` | how long a pointer leads to what it led to |
| `DetectorInv`, `Detector`, `Verdict` | the bookkeeping of `check_done`, its second round, and what a true verdict means |
| `Completeness` | a network at rest is recognised |
| `Budget` | how many rotations a router has left, and when that makes a verdict trustworthy |
| `Liveness` | absence of deadlock, and capacity zero |
| `Selects` | what a select that goes through its list in order may do |
| `Schedules`, `Probes`, `FalseVerdict` | building blocks for such runs, and the run with the wrong verdict |
| `Bound` | the bound of `Budget` is the best possible |
| `Buffers` | the circular buffer and the queue |
| `Monitor`, `MonitorTheorems`, `Channels` | the channel as a monitor; its theorems; its critical sections on the real buffer |
| `Ring`, `RingInv`, `RingTheorems`, `RingDrain`, `RingJam` | the ring workload |

Transitions follow the program: `Network.ApplyTake`, `ApplySend`, `ApplyRelax`, `ApplyDecide`, `ApplyAnswer`
and `ApplyStop` are the branches of `router` (concurrencylab-edit/stress.c:177-235), `ApplyMain` is
`check_done` and the loop around it (244-300, 329-335), with the receive and the two reads of a comparison as steps of their own; `Ring.Apply` is concurrencylab-edit/stress_send_recv.c:26-53
and 84-116; `Monitor.Apply` is concurrencylab-edit/channel.c:27-177, one step for each access to shared state.

## Model

| member | source | states |
|---|---|---|
| FloydWarshall.LoadTopology | concurrencylab-edit/stress.c:101-112 | exactly the negative ones of the scanned integers become the infinite distance 0x7fffffff; all others, from 0 to 0x7fffffff itself, are kept |
| FloydWarshall.IndexInjective | concurrencylab-edit/stress.c:24-38 | two entries of a flat matrix never share a cell |
| FloydWarshall.StoreHolds | concurrencylab-edit/stress.c:28-38 | a setter changes its own entry of the matrix and no other |
| FloydWarshall.PivotStaysFixed | concurrencylab-edit/stress.c:44-50 | row and column k stay as they are throughout phase k, however far the phase has come |
| FloydWarshall.RelaxPair | concurrencylab-edit/stress.c:46-48 | one pair, in place and in 32-bit arithmetic, advances the phase by exactly that pair |
| FloydWarshall.SolvePhase | concurrencylab-edit/stress.c:43-51 | one pass of the two inner loops over the array is one phase of the specification |
| FloydWarshall.Solve | concurrencylab-edit/stress.c:40-52 | the array ends with all phases done, so each cell holds the smaller of the infinite distance and the least weight of any walk |
| FloydWarshall.PhaseSolves | concurrencylab-edit/stress.c:43-51 | if all entries are right for walks whose inner vertices are below k, then after phase k they are right for inner vertices up to k, cycles at k included |
| FloydWarshall.PhasesAreShortest | concurrencylab-edit/stress.c:40-52 | for any clamped non-negative topology the last phase leaves the shortest distances of all pairs |
| FloydWarshall.PhasesStayClamped | concurrencylab-edit/stress.c:16-47 | no entry exceeds the infinite distance in any phase, which is why no 32-bit sum of two entries wraps |
| FloydWarshall.PhasesAreSettled | concurrencylab-edit/stress.c:40-52 | no link can improve the solver's result |
| Distances.SettledIsShortest | concurrencylab-edit/stress.c:187-193 | real distances that no link can improve are the shortest distances: the fixed point of relaxation is unique |
| Routers.NeighboursListed | concurrencylab-edit/stress.c:153-176 | the send list names each linked other router exactly once and nobody else |
| Routers.InitialInv | concurrencylab-edit/stress.c:127-176 | a new router satisfies the router invariant: consecutive epochs in the four slots, real distances, nothing sent yet |
| Routers.RelaxOneInv | concurrencylab-edit/stress.c:184-192 | relaxing with a real distance finds an existing link, does not wrap, and keeps all vectors real and falling |
| Routers.SwapServes | concurrencylab-edit/stress.c:201-205 | the swap keeps the list a permutation and takes exactly the served neighbour out of the part still to be served |
| Routers.AfterSendInv | concurrencylab-edit/stress.c:200-206 | after a send the router invariant holds: the served neighbour is linked and has been sent every epoch so far exactly once, in order |
| Routers.RotateRoles | concurrencylab-edit/stress.c:212-220 | a rotation moves every vector to the next older role, recycles the oldest, which is none of the other three, and advances the epoch by one |
| Routers.RotateInv | concurrencylab-edit/stress.c:208-227 | a rotation with everybody served keeps the router invariant and owes the new vector to every neighbour |
| Routers.SlotEpoch | concurrencylab-edit/stress.c:142-217 | each slot only ever holds epochs of its own remainder by four, and only the last four epochs are held |
| Routers.EndOfLoopInv | concurrencylab-edit/stress.c:207-228 | the end of an iteration keeps the router invariant on every branch |
| RouterThreads.RouterThread.constructor | concurrencylab-edit/stress.c:127-176 | four new separate vectors of epochs 0 to 3, all with the router's number as source and its row as distances; a fully armed send list behind the two receive entries (done_channel, own channel), which every later operation keeps |
| RouterThreads.RouterThread.CountNeighbours | concurrencylab-edit/stress.c:152-157 | two more than the number of linked other routers |
| RouterThreads.RouterThread.BuildSelectList | concurrencylab-edit/stress.c:158-176 | the two receive entries, then one send entry for each neighbour in order, all with the current vector |
| RouterThreads.RouterThread.Relax | concurrencylab-edit/stress.c:184-193 | with the link to the source of the vector received, the loop over all destinations, in place, is the relaxation of the value model with the neighbour's vector |
| RouterThreads.RouterThread.RelaxAt | concurrencylab-edit/stress.c:188-192 | one destination in place, with 32-bit addition; sets `changed` exactly on an improvement |
| RouterThreads.RouterThread.EndOfIteration | concurrencylab-edit/stress.c:207-228 | rotates and re-arms exactly when everybody is served and there is news, else changes nothing |
| RouterThreads.RouterThread.Cycle | concurrencylab-edit/stress.c:211-226 | pointer cycling, copying and re-arming together are one rotation of the value model |
| RouterThreads.RouterThread.CycleRoles | concurrencylab-edit/stress.c:212-216 | the four pointers stay four different vectors, each moved to the next older role |
| RouterThreads.RouterThread.CopyForward | concurrencylab-edit/stress.c:217-220 | the recycled vector gets the next epoch and the current distances |
| RouterThreads.RouterThread.Rearm | concurrencylab-edit/stress.c:221-225 | every send entry carries the new current vector and is to be served again; nothing else in the list changes |
| RouterThreads.RouterThread.ProbeReply | concurrencylab-edit/stress.c:195-197 | NULL while there is news or somebody is still to be served, else the current vector with its epoch |
| RouterThreads.RouterThread.Sent | concurrencylab-edit/stress.c:200-205 | the swap in the array is the swap of the value model; the two receive entries, the directions and the vector pointers stay |
| RouterThreads.RouterThread.SwapWithLast | concurrencylab-edit/stress.c:201-205 | the selected and the last pending entry exchange their channels and nothing else in the list changes |
| NetworkInv.InitInv | concurrencylab-edit/stress.c:302-326 | the network invariant holds when the threads have just been started |
| NetworkInv.PairSend | concurrencylab-edit/stress.c:178-206 | sending keeps what is said of the ordered pair: what now waits is the last epoch sent, and nothing is owed any more |
| NetworkInv.PairRelax | concurrencylab-edit/stress.c:187-193 | each turn of the relaxation loop covers one more destination of the sender's current vector |
| NetworkInv.PairSenderDecides | concurrencylab-edit/stress.c:207-228 | a rotation of the sender keeps what is said of the pair, though every role and the epoch change |
| NetworkInv.ReadIsReal | concurrencylab-edit/stress.c:184-188 | whatever a router reads from a neighbour's shared vector is a real distance |
| NetworkInv.StepInv | concurrencylab-edit/stress.c:177-300 | every step of every thread keeps the network invariant |
| NetworkInv.RunInv | concurrencylab-edit/stress.c:177-300 | it holds in every state of every run |
| Protocol.WrittenSlotsAreUnobserved | concurrencylab-edit/stress.c:207-226 | the vector being relaxed is never in a channel or in a reader's hands, and the oldest one is not once everybody has been served |
| Protocol.StepWrites | concurrencylab-edit/stress.c:187-220 | a step writes the upcoming vector of a router or, while rotating, its oldest one, and no other |
| Protocol.ObservedIsImmutable | concurrencylab-edit/stress.c:177-228 | no step of any thread changes a vector that a neighbour has a pointer to: four vectors are enough for capacity one |
| Protocol.SlotHoldsEpoch | concurrencylab-edit/stress.c:142-217 | in every reachable state a slot's epoch has the slot's remainder by four and is one of the last four |
| Protocol.RelaxationIsSound | concurrencylab-edit/stress.c:184-188 | the assertion that the link to the sender exists never fails, and the 32-bit sum is the true sum |
| Protocol.DistancesAreReal | concurrencylab-edit/stress.c:184-220 | every entry of every vector lies between the shortest distance and the infinite distance and is the weight of a walk or infinite; no epoch is worse than the one before |
| Protocol.BroadcastIsComplete | concurrencylab-edit/stress.c:200-225 | when nothing is left to send, every neighbour has been sent every epoch from the first to the current one exactly once and in order, and nobody else anything |
| Protocol.HeardWhenQuiescent | concurrencylab-edit/stress.c:177-228 | at rest no router's distance exceeds a link plus its neighbour's distance |
| Protocol.QuiescentIsSettled | concurrencylab-edit/stress.c:177-228 | at rest the routers' vectors form a fixed point of relaxation |
| Protocol.QuiescentIsSolved | concurrencylab-edit/stress.c:177-228 | at rest every current vector is the solver's row, and shortest |
| Progress.RelaxLightens | concurrencylab-edit/stress.c:187-193 | one relaxation, improving or not, lowers the router's load |
| Progress.DecideLightens | concurrencylab-edit/stress.c:207-228 | the end of an iteration lowers the load even when it starts a new broadcast |
| Progress.DataStepLightens | concurrencylab-edit/stress.c:182-227 | every receive, relaxation, send and end of iteration lowers the load of the whole network |
| Progress.DataRunsAreFinite | concurrencylab-edit/stress.c:182-227 | the routers take no more steps of their own than the load, in any interleaving |
| Progress.NoDataStepIsQuiescent | concurrencylab-edit/stress.c:177-228 | routers that cannot take another step of their own are at rest |
| Progress.DataStepsAreBounded | concurrencylab-edit/stress.c:177-300 | in every run, with main probing throughout, the routers' own steps are no more than the load at the start plus one for every probe answered |
| Progress.DataRunsConverge | concurrencylab-edit/stress.c:177-228 | every maximal run of the routers' own steps ends, within the load, with every vector equal to the solver's row |
| DetectorInv.StepMain | concurrencylab-edit/stress.c:194-300 | every step keeps the bookkeeping of probes, answers and main's locals |
| DetectorInv.RunMain | concurrencylab-edit/stress.c:194-300 | it holds in every state of every run |
| DetectorInv.PointersCompareModuloFour | concurrencylab-edit/stress.c:284-286 | comparing two answers' epochs through their pointers, read at two moments, succeeds exactly when the epochs at the time of the answers differ by a multiple of four and the epoch behind the pointer was not rewritten between the reads |
| DetectorInv.AbsorbAccepts | concurrencylab-edit/stress.c:257-288 | one reply keeps the verdict so far exactly if it is a pointer and, in the second round, of an epoch congruent to the first by four with no rewriting between the reads; it is stored for the right router |
| DetectorInv.HeldReply | concurrencylab-edit/stress.c:194-198 | the reply main holds is the latest answer of its sender, not collected before, and no other of it is on the channel |
| DetectorInv.LastReply | concurrencylab-edit/stress.c:256-288 | after the last reply of a round the verdict is true exactly if every router's reply was accepted and no comparison was torn |
| Detector.DoomStays | concurrencylab-edit/stress.c:194-226 | a router that has moved on from its first answer cannot come back to it by epoch value |
| Detector.StepDetect | concurrencylab-edit/stress.c:268-288 | in the second round, either some answer differs or is bound to differ by value, or every router is calm and nothing can reach those that have answered; every step keeps this |
| Detector.RunDetect | concurrencylab-edit/stress.c:268-288 | it holds in every state of every run |
| Verdict.VerdictCountsRotationsModuloFour | concurrencylab-edit/stress.c:268-288 | the second round's verdict is true exactly when all answers are pointers, every router rotated a multiple of four times between its two answers, and no epoch was rewritten between the two reads of a comparison |
| Verdict.UnrotatedIsCalm | concurrencylab-edit/stress.c:268-288 | the epochs agree by value exactly when every router is still calm in the epoch of its first answer; then all channels are empty and nothing is pending or being read |
| Verdict.UnrotatedIsSolved | concurrencylab-edit/stress.c:289-295 | with epochs compared by value the final assertion cannot fail |
| Verdict.AssertionHoldsIffSettled | concurrencylab-edit/stress.c:289-295 | whenever main holds a pointer for every router, recycled or not, the final assertion passes exactly when no link can improve what they lead to |
| Verdict.TrueVerdictIsRight | concurrencylab-edit/stress.c:268-295 | a true verdict agrees with comparing epochs by value exactly when no router rotated four times or more between its answers; then the network is at rest and the assertion holds |
| Verdict.EveryTrueVerdictIsRight | concurrencylab-edit/stress.c:244-300 | in every state of every run in which check_done is about to return true: fewer than four rotations suffice for rest and the assertion, and the assertion holds exactly when what main holds is settled |
| Recycling.StepKeeps | concurrencylab-edit/stress.c:187-220 | no step changes the vector of an epoch that is still one of the last three its router has published |
| Recycling.KeptIsIntactIff | concurrencylab-edit/stress.c:211-220 | a pointer to the vector of epoch e, in completed[] or anywhere, leads to the same epoch and distances exactly as long as the router has not gone beyond epoch e+2 |
| Budget.StepSpends | concurrencylab-edit/stress.c:187-227 | no step of any thread lowers a router's epoch or raises its epoch plus what it has left |
| Budget.RotationsAreLeft | concurrencylab-edit/stress.c:187-227 | however a run goes on, a router makes no more rotations than its distances still exceed the solution, plus one for unannounced news |
| Budget.CheckIsNewer | concurrencylab-edit/stress.c:250-288 | everything main holds from a router was answered in this call of check_done, in an epoch not older than at its start |
| Budget.CheckIsRightIfLittleIsLeft | concurrencylab-edit/stress.c:244-300 | if every router has fewer than four rotations left when check_done is called and it returns true, the network is at rest and the assertion holds |
| Budget.NearTopologiesAreSafe | concurrencylab-edit/stress.c:244-333 | on a topology whose rows of links exceed those of the solution by less than four, every true verdict of every run is right |
| Bound.FourIsTheBound | concurrencylab-edit/stress.c:244-333 | trusting check_done on all topologies within b of their solution is justified if and only if b is at most four |
| Bound.CaseIsNear | concurrencylab-edit/stress.c:40-52 | the topology of the false verdict is within five of its solution in every row |
| Verdict.CompletedIsSetBeforeUse | concurrencylab-edit/stress.c:265-284 | every entry of completed[] has been set before the second round dereferences it |
| Verdict.OneReplyEach | concurrencylab-edit/stress.c:256-287 | a round takes exactly one reply of each router: the loop counter is the number of routers collected, and the replies main is not done with are of others, one each |
| Verdict.FinishedForGood | concurrencylab-edit/stress.c:230-345 | after a right verdict no step changes any vector, and a router that stops has no unannounced news: the assertion before `break` cannot fail |
| Completeness.RestedStep | concurrencylab-edit/stress.c:244-300 | a network at rest stays at rest while it is probed, and all its answers are its current vectors |
| Completeness.RestIsDetected | concurrencylab-edit/stress.c:244-300 | a check_done that starts on a network at rest goes through both rounds and can only return true |
| Selects.FirstIsScanned | concurrencylab-edit/channel.c:203-209 | taking the first entry available at one instant is going through the list in order |
| Selects.Resume | concurrencylab-edit/channel.c:203-209 | a select that found done_channel open and its own channel empty may go on to its next entry although a message has arrived meanwhile |
| Selects.ReadyIsEnabled | concurrencylab-edit/channel.c:203-209 | an entry is available exactly when the router can take its action |
| Selects.AvailableIsNotPassed | concurrencylab-edit/channel.c:203-209 | a select that goes through its list in order never passes an entry that has been available in every state since the router entered it: it picks that entry or an earlier one |
| FalseVerdict.CheckDoneCanBeWrong | concurrencylab-edit/stress.c:284-293 | some run, with every select going through its list in order, reaches a true verdict with four rotations of one router in between, and the assertion fails |
| FalseVerdict.VictimIsWrong | concurrencylab-edit/stress.c:289-295 | in that topology the solver's distance is at most 30 where the router still holds 31 |
| Liveness.RunStops | concurrencylab-edit/stress.c:229-334 | routers stop only after done_channel has been closed |
| Liveness.NoDeadlock | concurrencylab-edit/stress.c:178-281 | with both capacities one, until done_channel is closed some thread can always take a step |
| Liveness.EverybodyCanStop | concurrencylab-edit/stress.c:178-339 | after the close every router that is still there can take a step, so main's joins are not left waiting for a blocked router |
| Liveness.UnbufferedIsStuck | concurrencylab-edit/buffer.c:18-22 | with capacity zero for the routers' channels no step at all is possible |
| Liveness.UnbufferedNeverJudges | concurrencylab-edit/stress.c:302-331 | with capacity zero for either kind of channel, sizes run_stress admits, no run reaches a verdict |
| Buffers.Buffer.constructor | concurrencylab-edit/buffer.c:4-13 | an empty queue of the given capacity |
| Buffers.Buffer.CellIsModulo | concurrencylab-edit/buffer.c:23-26 | one conditional subtraction gives the index modulo the capacity |
| Buffers.Buffer.Add | concurrencylab-edit/buffer.c:18-30 | succeeds exactly when there is room, and then appends; otherwise the queue is unchanged; 64-bit arithmetic does not wrap |
| Buffers.Buffer.Remove | concurrencylab-edit/buffer.c:35-47 | succeeds exactly when there is an element, and then returns and drops the oldest |
| Buffers.Buffer.CurrentSize | concurrencylab-edit/buffer.c:63-66 | the length of the queue held |
| Buffers.FirstInFirstOut | concurrencylab-edit/buffer.c:15-47 | over any operation sequence, what was accepted is what was returned followed by what is held, never more than the capacity |
| Channels.Channel.constructor | concurrencylab-edit/channel.c:5-19 | an open channel with an empty queue |
| Channels.Channel.SendSection | concurrencylab-edit/channel.c:30-48 | under the mutex: closed refuses, room appends, a full queue waits; the queue changes in the second case only |
| Channels.Channel.ReceiveSection | concurrencylab-edit/channel.c:61-79 | under the mutex: closed refuses, an element is taken from the front, an empty queue waits |
| Channels.Channel.NonBlockingSend | concurrencylab-edit/channel.c:96-112 | the same without waiting: full is reported and nothing changes |
| Channels.Channel.NonBlockingReceive | concurrencylab-edit/channel.c:129-145 | the same without waiting: empty is reported and nothing changes |
| Channels.Channel.Close | concurrencylab-edit/channel.c:162-176 | succeeds exactly on an open channel; the queue stays |
| Channels.SectionIsSteps | concurrencylab-edit/channel.c:30-176 | a critical section of any call, blocking, non-blocking or closing, is one or two steps of the monitor: same end, same queue, same value received, mutex given up exactly when it waits |
| Channels.SettledStays | concurrencylab-edit/channel.c:44-176 | what a section has settled, result and value, is what the call returns, whatever the other threads do |
| Monitor.SendersMove | concurrencylab-edit/channel.c:37-46 | when one thread moves, free slots facing sleeping senders stay covered unless the thread uses up more cover than it takes away need |
| Monitor.SignalWake | concurrencylab-edit/channel.c:45-76 | a signal passes its cover on to the thread it wakes |
| Monitor.StepInv | concurrencylab-edit/channel.c:27-177 | every step of every thread keeps mutual exclusion, the histories, the wake-up cover and what each call has done |
| Monitor.RunInv | concurrencylab-edit/channel.c:27-177 | they hold in every state of every run of any number of threads |
| Monitor.StepHistory | concurrencylab-edit/channel.c:31-169 | whatever takes effect, takes effect on the queue as the same call does alone |
| Monitor.StepCall | concurrencylab-edit/channel.c:27-177 | a thread's own step keeps its call in step with the log: one entry with its result and value once its end is settled, none before |
| MonitorTheorems.Linearizable | concurrencylab-edit/channel.c:27-177 | in every run the log is an order in which the calls, performed one at a time, have the results and values they return with and leave the channel as it is; each returned call is in it exactly once, between its beginning and its return |
| MonitorTheorems.Moment | concurrencylab-edit/channel.c:27-177 | each entry took effect at a moment of the run, by a step of its own thread, when the channel was what the calls before it make of it |
| MonitorTheorems.ReceivedIsSentInOrder | concurrencylab-edit/channel.c:27-177 | in every run the values put in are the values handed out, in the same order, followed by what the buffer holds |
| MonitorTheorems.EachReceiveHoldsItsOwn | concurrencylab-edit/channel.c:68-145 | a receive that has returned gave its caller the oldest value sent and not yet received when it took effect |
| MonitorTheorems.DifferentReceives | concurrencylab-edit/channel.c:58-147 | no value is handed out twice: different calls, of different threads or of one thread at different times, hold values at different places of the order of sending |
| MonitorTheorems.ResultTellsEffect | concurrencylab-edit/channel.c:21-177 | a returned call took effect once, on some queue: it returned CLOSED_ERROR exactly if that was closed, else SUCCESS exactly if there was room (send) or an element (receive); full or empty only for non-blocking calls, so every close ends in SUCCESS or, on a closed channel, CLOSED_ERROR; a receive got the first element exactly on SUCCESS |
| MonitorTheorems.NoLostWakeUp | concurrencylab-edit/channel.c:37-76 | whenever the mutex is free, sleeping senders imply no more free slots than woken senders, and sleeping receivers no more items than woken receivers |
| MonitorTheorems.SomebodyMoves | concurrencylab-edit/channel.c:27-177 | unless every thread is between calls or asleep, some thread can take a step |
| MonitorTheorems.SleepIsJustified | concurrencylab-edit/channel.c:37-76 | if nobody can go on, sleeping senders face a full open buffer and sleeping receivers an empty one; with capacity at least one never both |
| MonitorTheorems.UnbufferedPairSleeps | concurrencylab-edit/channel.c:5-79 | with capacity zero a sender and a receiver can end up asleep together |
| MonitorTheorems.ClosedForGood | concurrencylab-edit/channel.c:149-177 | after a close the buffer never changes, whatever takes effect ends in CLOSED_ERROR, and nobody falls asleep |
| MonitorTheorems.ClosedReleases | concurrencylab-edit/channel.c:31-74 | after a close each step of its own brings a thread nearer to returning, nobody takes it back, and a call that had not done its operation returns CLOSED_ERROR |
| MonitorTheorems.NobodySleepsAfterClose | concurrencylab-edit/channel.c:168-174 | once the closing call has finished nobody is asleep |
| MonitorTheorems.ClosedThenDeserted | concurrencylab-edit/channel.c:179-201 | what channel_destroy leaves to its caller can be done: after a close, threads that begin no new call take a bounded number of steps, and when none is left the mutex is free, nobody sleeps and every call has returned |
| MonitorTheorems.OneCloseSucceeds | concurrencylab-edit/channel.c:163-176 | in every run the calls of channel_close that have returned SUCCESS and those about to are together one if the channel is closed and none if it is open |
| MonitorTheorems.OneCloseHasSucceeded | concurrencylab-edit/channel.c:154-177 | once all calls have returned, exactly one channel_close has returned SUCCESS if the channel is closed, none if it is open |
| Ring.ReceiveConserves | concurrencylab-edit/stress_send_recv.c:28-43 | a worker that receives holds what it took, and loses nothing but NULL |
| Ring.SendConserves | concurrencylab-edit/stress_send_recv.c:44-52 | a message passed on is where it was passed to, once |
| Ring.MainConserves | concurrencylab-edit/stress_send_recv.c:84-116 | main adds each message once and moves the ones it takes to those returned |
| Ring.RunConserves | concurrencylab-edit/stress_send_recv.c:15-116 | in every run, however short the sleep, every message put in so far is in exactly one place and no other message is anywhere |
| RingInv.RunEarly | concurrencylab-edit/stress_send_recv.c:26-96 | until `done`, each worker in its start period is owed one NULL, messages come before NULLs, and only NULLs are left once a worker has had its own |
| RingInv.StepInv | concurrencylab-edit/stress_send_recv.c:26-116 | every step keeps the invariant of main's phase, as long as `done` is set only after the start period |
| RingInv.RunInv | concurrencylab-edit/stress_send_recv.c:26-116 | it holds in every state of every run with a long enough sleep |
| RingInv.DrainedIsNew | concurrencylab-edit/stress_send_recv.c:100-109 | what main takes back is one of the messages, and one it has not had |
| RingTheorems.LoadBelowOne | concurrencylab-edit/stress_send_recv.c:63-63 | the number of messages is below n*(b+1) exactly when the load is below one |
| RingTheorems.StuckSpreadsRound | concurrencylab-edit/stress_send_recv.c:18-52 | one worker that cannot pass its message on means that no worker can and every ring channel is full |
| RingTheorems.RingNeverStuck | concurrencylab-edit/stress_send_recv.c:15-109 | with fewer than n*(b+1) messages and capacity at least one, until main has everything back some thread can move, and while main sleeps some worker can |
| RingTheorems.StopProceeds | concurrencylab-edit/stress_send_recv.c:111-120 | while workers are being stopped somebody can move until all are gone |
| RingTheorems.DrainChecksHold | concurrencylab-edit/stress_send_recv.c:105-108 | in every run with a long enough sleep, main's two checks on each value it takes back succeed |
| RingTheorems.EverythingReturns | concurrencylab-edit/stress_send_recv.c:98-116 | when the stop messages begin main has every message exactly once, all channels are empty and every worker waits on its own |
| RingTheorems.CheckMarks | concurrencylab-edit/stress_send_recv.c:64-109 | the loop over msg_check gets through exactly when every value is one of 1..num_msgs and none comes twice |
| RingTheorems.EarlyDoneFails | concurrencylab-edit/stress_send_recv.c:95-106 | if `done` could be set before the start period is over, some run makes main take a NULL for a message |
| RingTheorems.ChecksAreSafeIffStarted | concurrencylab-edit/stress_send_recv.c:95-108 | from a state in which main sleeps, no run takes a NULL for a message if and only if every worker has had its NULL |
| RingDrain.DrainNears | concurrencylab-edit/stress_send_recv.c:28-109 | while main drains, every step of whatever thread brings exactly one message one step nearer to main; workers that send do so to main |
| RingDrain.DrainIsBounded | concurrencylab-edit/stress_send_recv.c:98-109 | the drain ends: it takes at most five steps for each message, whatever the interleaving |
| RingDrain.EveryRunEnds | concurrencylab-edit/stress_send_recv.c:98-120 | from a timely `done` on at most 5*num + 2*n steps are left; with fewer than n*(b+1) messages every run that cannot go on has each message back exactly once and all workers gone |
| RingDrain.TimelyRunEnds | concurrencylab-edit/stress_send_recv.c:15-120 | the same for every run with a long enough sleep |
| RingDrain.PassedOnInOrder | concurrencylab-edit/stress_send_recv.c:18-52 | a message passed on by worker i waits in the channel of worker (i+1) % n behind those already there, and is what this worker takes after them |
| RingDrain.MainChannelStep | concurrencylab-edit/stress_send_recv.c:28-103 | whoever takes from main's channel, main or a worker in its start period, takes the message waiting longest |
| RingJam.JamIsForever | concurrencylab-edit/stress_send_recv.c:50-51 | if every worker holds a message for a full neighbour, no worker ever moves again |
| RingJam.TooManyMessagesJam | concurrencylab-edit/stress_send_recv.c:63-96 | with n*(b+1) messages or more some run gets there |
| RingJam.JamsIffTooMany | concurrencylab-edit/stress_send_recv.c:63-96 | no run jams the workers before `done` if and only if the messages are fewer than n*(b+1) |

## Left out

- Verdict.TrueVerdictIsRight: the assertion at concurrencylab-edit/stress.c:293 is meant to hold after every true verdict; it does not (`FalseVerdict.CheckDoneCanBeWrong`). Fewer than four rotations are sufficient for it, not necessary; the exact condition on what main holds is `Verdict.AssertionHoldsIffSettled`.
- Budget.CheckIsRightIfLittleIsLeft: sufficient before the call, not necessary; its bound cannot be raised (`Bound.FourIsTheBound`).
- FalseVerdict.CheckDoneCanBeWrong: one select of the run relies on the scan not being atomic; what a select that looks at all entries at one instant would allow is not settled here.
- channel_select and linked_list.c have no implementation (concurrencylab-edit/channel.c:210-214); a select is any enabled entry of the list, which covers every policy; where a run is exhibited its selects obey `Selects.Scanning`.
- The main thread's check_done is a sequence of steps in `Network`, not a method: between any two of its channel operations or reads of an epoch all routers may move. The order in which C reads the two operands of a comparison is open; for equal pointers it makes no difference, and different ones never compare equal.
- A send by select together with the swap that follows, and a rotation with its copying loop, are one step each: no other thread sees the list, no neighbour the vectors written (`Protocol.WrittenSlotsAreUnobserved`), and of those main points to it reads only the epoch while routers move. The assertion's reads of distances are taken in one state.
- Stages of probes, logs of epochs sent, the epoch inside an answer, the second round's answers, the mark of a torn comparison and the monitor's log are auxiliary: no step depends on them.
- The round trip through a mutex inside each channel operation is one step in `Network` and `Ring`; `Monitor` justifies it separately and the two are not composed into one machine.
- Capacity zero as a rendezvous, promised by concurrencylab-edit/channel.h:54-55, is not what the code does; the lemmas on capacity zero state what it does instead.
- channel_close on NULL returns CLOSED_ERROR where its comment says GEN_ERROR; the NULL-channel branches and GEN_ERROR are not modelled.
- CHANNEL_FULL and CHANNEL_EMPTY share the value 0; `Monitor` has one result for both, `Channels` keeps the names apart.
- usleep is replaced by the hypothesis that `done` is set after the start period; fairness of the scheduler is not assumed, so liveness is stated as "some thread can move" and as bounds on steps.
- RingTheorems.LoadBelowOne: the load is a real number here, where the program computes with doubles and may round.
- Weights are assumed finite in both directions or in neither, which concurrencylab-edit/stress.c:186 needs; the weights themselves may differ.
- malloc and free, thread creation and joining, the freeing done by channel_destroy, reading the topology file, printing, and peek_buffer.
