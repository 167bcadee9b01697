# Verified models of the concurrency labs

Dafny models of the four labs whose processes and threads share state, with proofs of what holds
in every run of them. `dafny verify dfyconfig.toml` checks everything.

A protocol is a state machine: a state, one function per process that takes its next step, and a
run that gives turns to processes in any order. One step is one semaphore operation, one
assignment inside a critical section, one message-queue call or one system call. A process that
would block does not move when its turn comes, so a schedule is any sequence of turns and "for
every schedule" means for every interleaving. Data that the source updates in place on its own
(the shared memory segment, a frame buffer, the chat server's tables) is a class whose methods are
proved against the same specification functions as the state machine.

## lab5/zad3: two task queues, producers, consumers and an ageing manager

* `TaskQueues` is what users see: two first-in-first-out queues that together hold at most `K`
  tasks, with the operations insert, remove (priority queue first) and age. It proves order per
  lane and the starvation bound.
* `Rings` and `SharedMemory` (module `SharedTasks`) are the rings with their modular indices and
  the three critical sections as methods that update the segment in place.
* `CriticalSections`, `BoundedBuffer` and `BufferRuns` are the fine-grained machine for any `K`,
  any number of processes and any lists of tasks: every interleaving of single assignments is
  shown to be a legal run of `TaskQueues`, by a phase that says how far the critical section in
  progress has come. The token accounting that makes this work is part of the invariant.
* `BufferProgress` proves deadlock freedom and total correctness.

What is false of the code: the manager warns of a "data inconsistency" when its task total differs
from `full`. This happens in runs in which nothing is inconsistent (`WarningWithoutFault`): the
total exceeds `full` by exactly the tasks inserted and not posted plus those claimed and not
removed, and the warning appears if and only if there are such tasks (`MonitorLaw`).

The monitor reads are modelled one by one, with the other processes free to move in between.
`Holder` records who is inside a critical section and a task carries the lane it was produced for;
both are bookkeeping that no step of the machine but the insertion looks at. A producer's list of
tasks stands for its fifteen random ones.

## lab6, levels 2 and 3: lossy frame buffers and the stereo pipeline

* `Frames` is the specification of a buffer: a bounded queue that discards its oldest frame to
  admit a new one, with its history of pushes, pops and drops. `FrameBuffer` is the ring itself,
  as a class. A pop's wait loop takes as inputs what it reads from the flag and what the other
  threads push during each wait, none after a spurious wake-up.
* `StereoPipeline`, `StereoLaws`: the cameras, the synchronizer, the writer, the watchdog and the
  interrupt as interleaved steps, for every buffer size. Both readings of the flag in a pop are
  steps of their own.
* `StereoRounds` says what each thread does in one round of its loop, what it waits for, when it
  finishes, and that the pipeline comes to rest after the interrupt.
* `StereoTolerance` adds the cameras' pace: a camera sleeps for its period of 40 ms, twice the
  tolerance, between two frames. `StereoMismatch` has the counterexample run.

What is false of the code: lab6/README.md (line 22) promises that written pairs were taken less than
20 ms apart. The synchronizer accepts only such pairs, but it hands their halves to two separate
lossy buffers. For every buffer size there is a run at the cameras' pace that writes as a pair two
frames taken 40 ms apart (`MismatchHappens`). The exact condition is `PromiseKeptIff`: in every run
at that pace the k-th written pair is within the tolerance if and only if equally many frames had
been dropped on the left before its left pop as on the right before its right pop. Under the same
condition, and no other, the halves were accepted together (`WrittenPairsMatchIff`, which needs no
pace). `SkewBound` and `PairingLaw` say how far apart the sides can get, and
`MatchedWithoutOverflow` that in every run without an overflow behind the synchronizer the writer
writes the accepted pairs.

Level 2 has the same cameras, synchronizer and writer; the counters and the watchdog are those of
level 3.

## lab4: the chat hub

* `ChatHub` has the server, and for each client the main process and the forked receiver, with
  queues of ten messages between them; `ChatServer` has the server's receive loop as a class that
  handles a message at once.
* `ChatDelivery` and `ChatLaws`: the history invariant, the handshake, one order for all clients,
  and every typed line delivered once and in order. `ChatProgress`: no run blocks before everything
  has been delivered.

A process that registers when ten clients are connected gets no answer and waits forever; the
model shows that this is the only way not to be connected (`EveryRunSettles`).

## lab3/zad1: integration over processes and pipes

* `Integrator`: the loop, the split into slices and the error bound, over exact reals. The integral
  is stated through a function `G` that grows by no less than the lower and no more than the upper
  rectangle over every stretch of [0, 1], as four times the arctangent does. That any two results
  agree, whatever their widths and numbers of processes, is proved without it (`ResultsAgree`), and so is
  a bracket for the number itself (`ResultIs`).
* `PipeFork`, `PipeRuns`: the fork loop with every `close`, the children and the collection loop.
  All open descriptors are part of the state, a read blocks while somebody can still write, and a
  write that nobody can read kills the writer.

## Model

| member | source | states |
|---|---|---|
| Rings.WritePast | lab5/zad3/src/producer.c:69-71 | Storing at the next free slot of a ring leaves the window of stored elements alone and extends it by the new one, wrap-around included. |
| Rings.DropOldest | lab5/zad3/src/consumer.c:92-94 | Moving the head one slot on takes exactly the oldest element off the window. |
| SharedTasks.SharedMemory.constructor | lab5/zad3/src/common.h:29-41 | A zeroed segment stands for two empty queues. |
| SharedTasks.SharedMemory.Insert | lab5/zad3/src/producer.c:66-76 | The producer's critical section appends the task to its queue and does nothing else. |
| SharedTasks.SharedMemory.RemoveTask | lab5/zad3/src/consumer.c:91-102 | The consumer's critical section takes the oldest priority task, or the oldest normal one if there is none, and says which. |
| SharedTasks.SharedMemory.AgeOldest | lab5/zad3/src/manager.c:78-90 | Ageing moves the oldest normal task to the end of the priority queue, and does nothing exactly when there is none. |
| TaskQueues.CapacityKept | lab5/zad3/src/common.h:16 | The two queues never hold more than `K` tasks between them. |
| TaskQueues.LaneOrder | lab5/zad3/src/manager.c:78-90 | In every run, per lane: removed tasks followed by those still buffered (aged ones first) equal those buffered at first followed by those inserted. |
| TaskQueues.NeverOvertaken | lab5/zad3/src/consumer.c:91-102 | From empty queues, the tasks of a lane leave in insertion order, in spite of ageing and priority service. |
| TaskQueues.FollowIsTheTask | lab5/zad3/src/manager.c:78-90 | A task stays at the place that is followed, its place in a queue never moves back, and it is gone exactly when a consumer removes what is at that very place, which is that task. |
| TaskQueues.GoneWasTaken | lab5/zad3/src/consumer.c:91-102 | A task that is gone was, at some turn of the run, at the head of the queues, and that turn was its removal. |
| TaskQueues.AgeingPromotes | lab5/zad3/src/manager.c:65-90 | `n` rounds of the manager bring a normal task `n` places closer to being aged, whatever happens in between. |
| TaskQueues.RemovalsDrain | lab5/zad3/src/consumer.c:91-94 | `n` removals bring a priority task `n` places closer to the front, whatever is inserted or aged in between. |
| TaskQueues.NoStarvation | lab5/zad3/src/manager.c:65-90 | Any run with `i + 1` rounds of the manager followed by `K` removals contains the removal of the task that was at place `i` of the normal queue, whatever else happens; a priority task needs no round. |
| CriticalSections.InsertWrites | lab5/zad3/src/producer.c:69 | Writing the slot changes neither queue. |
| CriticalSections.InsertMovesTail | lab5/zad3/src/producer.c:70 | Moving the tail changes neither queue, although tail and count disagree from here on. |
| CriticalSections.InsertCounts | lab5/zad3/src/producer.c:71 | Raising the count is the insertion. |
| CriticalSections.RemoveChooses | lab5/zad3/src/consumer.c:91 | With a task present, the branch taken leads to a ring that is not empty, and to the normal one only if the priority ring is empty. |
| CriticalSections.RemoveMovesHead | lab5/zad3/src/consumer.c:93 | Moving the head is the removal, of the task copied before it. |
| CriticalSections.RemoveCounts | lab5/zad3/src/consumer.c:94 | Lowering the count brings head, tail and count back in order and changes neither queue. |
| CriticalSections.AgeMovesHead | lab5/zad3/src/manager.c:84 | Between leaving one ring and being counted in the other, the task in the manager's local variable is still the oldest normal task. |
| CriticalSections.AgeWrites | lab5/zad3/src/manager.c:88 | The append overwrites no priority task. |
| CriticalSections.AgeCounts | lab5/zad3/src/manager.c:90 | Raising the priority count is the ageing. |
| BoundedBuffer.InitInv | lab5/zad3/src/common.h:29-41 | Fresh semaphores and zeroed memory satisfy the invariant and stand for empty queues. |
| BoundedBuffer.StepKeeps | lab5/zad3/src/producer.c:59-85 | Every step of every process keeps mutual exclusion, ring shape and token accounting, and performs on the queues exactly the one legal operation it completes, or nothing. |
| BoundedBuffer.TokensPromise | lab5/zad3/src/consumer.c:83-111 | A producer with an `empty` token finds room and a consumer with a `full` token finds a task, whoever else is under way. |
| BufferRuns.RunRefines | lab5/zad3/src/manager.c:71-119 | Every interleaving is a legal run of the two queues, linearized inside the critical sections, and ends in the state that run ends in. |
| BufferRuns.ServedInOrder | lab5/zad3/src/consumer.c:83-111 | Order per lane for every interleaving from the start. |
| BufferRuns.RoundsAge | lab5/zad3/src/manager.c:71-119 | Every taking of the mutex by the manager ages once and every taking by a consumer removes once: the ageings of a run are the manager's rounds, its removals the consumers' services, up to those still due at either end. |
| BufferRuns.BufferedTaskIsServed | lab5/zad3/src/manager.c:65-90 | The starvation bound for every interleaving from every reachable state, counted in rounds of the manager and services of the consumers: after `i + 1` rounds that have aged and then `K` services that have removed, the task's removal is in the trace. |
| BufferRuns.TokenLaw | lab5/zad3/src/producer.c:59-85 | `empty` + `full` + tokens held by processes = `K`, and the two counters exceed `full` by the tasks inserted and not posted plus those claimed and not removed, corrected at the three points where a counter lags. |
| BufferRuns.AccessesAreSafe | lab5/zad3/src/consumer.c:96-101 | No slot write hits a stored task and no removal or ageing reads an empty ring, the consumer's unguarded `else` included. |
| BufferRuns.OthersLeaveMemory | lab5/zad3/src/manager.c:97-119 | While the manager holds the mutex, no turns of the others touch the rings. |
| BufferRuns.MonitorLaw | lab5/zad3/src/manager.c:97-114 | With any turns of the others between the monitor's reads: total minus the `full` read equals the tasks in flight when `full` was read, the warning appears if and only if there were some, and the `empty` read plus the total falls short of `K` by exactly the places that producers and consumers held at that reading. |
| BufferRuns.WarningWithoutFault | lab5/zad3/src/manager.c:111-114 | A run, for every `K`, in which the warning appears although the state is consistent. |
| BufferProgress.StepWorks | lab5/zad3/src/producer.c:59-85 | Every step of a producer or consumer uses up exactly one unit of work; the manager uses none. |
| BufferProgress.WaitsIff | lab5/zad3/src/producer.c:59-62 | A producer waits only for a place or the mutex, a consumer only for a task or the mutex, the manager only for the mutex, and for the mutex exactly while somebody is inside. |
| BufferProgress.NoDeadlock | lab5/zad3/src/consumer.c:83-111 | With work left and one consumer, some producer or consumer can step, or the manager holds the mutex and can. |
| BufferProgress.CanFinish | lab5/zad3/src/consumer.c:83-111 | From every reachable state all work can be finished. |
| BufferProgress.ManagerCanAge | lab5/zad3/src/manager.c:71-119 | From every reachable state with the manager between rounds, a whole round can be completed, and it ages once. |
| BufferProgress.EveryTaskServedOnce | lab5/zad3/src/producer.c:45-91 | Producers and consumers make at most fifteen steps per task in any run; when they have made them all, the consumers have taken exactly the produced tasks, each once, each lane in order, and all places are free. |
| BufferProgress.SomeRunServesAll | lab5/zad3/src/producer.c:45-91 | With at least one consumer, there is a run in which they make all these steps. |
| Frames.ToleranceInNanoseconds | lab6/src/program3.c:109-112 | The test accepts a pair exactly when the captures are less than 20 000 000 ns apart, in either order. |
| Frames.PushIsTruthful | lab6/src/common.c:51-69 | A push keeps: the buffer holds the latest frames that fit, drops only when full and the oldest, pop `k` returned push `k` + drops before it, and no frame is lost or duplicated. |
| Frames.PopIsTruthful | lab6/src/common.c:85-87 | A pop keeps the same. |
| Frames.KeepsTheNewest | lab6/src/common.c:56-63 | Without pops, a buffer keeps exactly the newest frames that fit and drops exactly the older ones, in order; nothing is dropped while everything fits. |
| FrameBuffers.FrameBuffer.constructor | lab6/src/common.c:42-49 | A new buffer is empty, whatever its size. |
| FrameBuffers.FrameBuffer.Push | lab6/src/common.c:51-69 | The ring with its wrapping indices does what the bounded queue does, dropping the oldest frame when full. |
| FrameBuffers.FrameBuffer.TakeOldest | lab6/src/common.c:85-87 | The frame taken is the oldest one. |
| FrameBuffers.FrameBuffer.Pop | lab6/src/common.c:71-92 | For every sequence of wake-ups and every moment at which the flag is cleared: a frame is returned if one is there, the pop gives up exactly when it finds the buffer empty and the flag cleared, and it never reads an empty ring. |
| StereoPipeline.StepKeeps | lab6/src/program3.c:67-139 | Every step of every thread keeps the whole invariant: order, conservation, pairing, skew, counters, accepted pairs within the tolerance and rejected pairs outside it. |
| StereoPipeline.TakenIsNext | lab6/src/program3.c:106-107 | The synchronizer takes the frame numbered right after all popped or dropped before. |
| StereoLaws.NeverUnderflows | lab6/src/common.c:75-87 | In no run of the threads does a pop read an empty buffer. |
| StereoLaws.SkewBound | lab6/src/program3.c:112-115 | The numbers of frames dropped on the left and on the right behind the synchronizer differ by at most one, always. |
| StereoLaws.PairingLaw | lab6/src/program3.c:123-125 | The k-th half written is that of accepted pair k plus the drops before its pop, on either side; the right half is at most one pair behind the left. |
| StereoLaws.AcceptedInOrder | lab6/src/program3.c:105-116 | Accepted frames have increasing numbers on either side. |
| StereoLaws.WrittenPairsMatchIff | lab6/src/program3.c:112-125 | Two frames written together were accepted together if and only if equally many had been dropped before their pops, and then they lie within the tolerance, whatever the cameras' pace. |
| StereoLaws.InStepIff | lab6/src/program3.c:112-125 | The k-th written pair is the k-th accepted one if and only if nothing was dropped before either of its pops. |
| StereoLaws.MatchedWithoutOverflow | lab6/src/program3.c:112-125 | In every run, however long, in which neither ring behind the synchronizer overflows, the writer writes the accepted pairs in order, each within the tolerance. |
| StereoLaws.MatchedUntilFull | lab6/src/program3.c:112-125 | In particular while no more pairs have been accepted than a buffer holds. |
| StereoLaws.EveryFrameInOnePlace | lab6/src/program3.c:67-139 | Every frame of a camera is in exactly one of nine places at every moment. |
| StereoLaws.WrittenInOrderAlways | lab6/src/program3.c:120-139 | Frames are written in the order in which they were taken. |
| StereoLaws.CountersAgree | lab6/src/program3.c:76-78 | Total = harvested + recent, plus one exactly between a camera's two increments; after the cameras have finished, the reported total is the number of frames. |
| StereoLaws.CapacityKept | lab6/include/common.h:36 | All four buffers keep the size they were given. |
| StereoRounds.CameraGoesRound | lab6/src/program3.c:70-81 | One round of a camera puts a frame with the next number and the time of the clock into its ring and counts it in both counters. |
| StereoRounds.SyncGoesRound | lab6/src/program3.c:105-116 | One round of the synchronizer pops the oldest frame of either ring; captures less than 20 000 000 ns apart go on as a pair, any others are discarded. |
| StereoRounds.WriterGoesRound | lab6/src/program3.c:123-134 | One round of the writer takes the oldest frame of either ring and writes both. |
| StereoRounds.WatchdogGoesRound | lab6/src/program3.c:183-190 | One round of the watchdog reads both recent counters and resets them. |
| StereoRounds.ExchangeReadsAll | lab6/src/program3.c:187-189 | In every run, an exchange brings the harvest to the total, less one exactly between the camera's two increments, and leaves nothing over. |
| StereoRounds.RecentSinceExchange | lab6/src/program3.c:76-78 | Between two exchanges the recent counters count exactly the cameras' increments. |
| StereoRounds.TestedPairs | lab6/src/program3.c:109-115 | In every run the accepted pairs are less than 20 ms apart, and the rejected frames were rejected in pairs at least 20 ms apart. |
| StereoRounds.CameraWaitsIff | lab6/src/common.c:51-69 | A camera waits exactly while the synchronizer holds the mutex of its buffer. |
| StereoRounds.SyncWaitsIff | lab6/src/common.c:71-77 | The synchronizer waits exactly for a frame while the flag is set, or for the writer to give up the mutex of a buffer it pushes to. |
| StereoRounds.WriterWaitsIff | lab6/src/common.c:71-77 | The writer waits exactly for a frame while the flag is set. |
| StereoRounds.FinishesIff | lab6/src/common.c:79-83 | A thread finishes exactly when it finds the flag cleared at its loop test or, in a pop, with the ring empty. |
| StereoRounds.ShutdownCompletes | lab6/src/program3.c:37-46 | After the interrupt, wherever it comes, all threads together take at most 27 more steps, and when none can take one all have finished. |
| StereoTolerance.HalvesMatchIff | lab6/src/program3.c:109-115 | If one camera keeps its period, a left and a right half of accepted pairs are within the tolerance if and only if they belong to the same pair. |
| StereoTolerance.WrittenWithinToleranceIff | lab6/src/program3.c:112-125 | If one camera keeps its period, a written pair is within the tolerance if and only if equally many frames had been dropped before its two pops. |
| StereoTolerance.PacedIsSpaced | lab6/src/program3.c:70-81 | Sleeping for a period between frames keeps the frames of a camera a period apart, in every run. |
| StereoTolerance.PromiseKeptIff | lab6/src/program3.c:112-125 | The promised 20 ms, exactly: in every run at the cameras' pace, a written pair keeps it if and only if equally many frames had been dropped before its two pops. |
| StereoMismatch.MismatchHappens | lab6/src/program3.c:112-125 | For every buffer size, a run at the cameras' pace that writes as a pair two frames that were not accepted together and are not within the tolerance. |
| ChatServers.ChatServer.constructor | lab4/src/server.c:22-27 | No queue is open and nobody is registered. |
| ChatServers.ChatServer.Handle | lab4/src/server.c:57-90 | A registration takes the next free identifier and is answered with it, or is ignored when the hub is full; a text is sent to all others in order of identifier. |
| ChatServers.DeliveredToTheOthers | lab4/src/server.c:85-89 | A broadcast reaches every registered client but the sender exactly once. |
| ChatServers.DeliveredToNobodyElse | lab4/src/server.c:85-89 | It reaches nobody else, and unchanged. |
| ChatServers.AnsweredInInboxOrder | lab4/src/server.c:49-91 | In every run, what the server has sent and still owes for the current message is what handling its inbox message by message sends, in the same order. |
| ChatDelivery.StepKeeps | lab4/src/server.c:57-90 | Every step keeps the history invariant: what a client has received, then its queue, then what the broadcast in progress owes it, is its identifier followed by the other clients' texts since it joined. |
| ChatLaws.Handshake | lab4/src/client.c:65-78 | Identifiers go to different processes, no client shuts down, the first message of client `j` assigns it `j`, and all later ones are texts of others. |
| ChatLaws.TotalOrder | lab4/src/server.c:85-89 | Of the messages that concern neither of two clients, the later one is sent exactly a final part of what the earlier one is sent. |
| ChatLaws.EveryLineOnceInOrder | lab4/src/client.c:106-119 | The lines of `j` other than `"\n"` are, in order: those before `i` joined, those sent to `i`, those on their way to the server, those still to be typed; nothing is lost, repeated or reordered. |
| ChatProgress.StepWorks | lab4/src/server.c:85-89 | Every step lowers a measure of what is still to be typed, queued and broadcast. |
| ChatProgress.MovesAreBounded | lab4/src/client.c:106-119 | So every run makes a bounded number of steps. |
| ChatProgress.WaitsIff | lab4/src/client.c:106-119 | The server waits only for a message or for room on a client's queue that holds ten, a client for its identifier, its user or room on the server's queue, a receiver for a message. |
| ChatProgress.ReceiversNeverBlock | lab4/src/client.c:91-98 | A client with a message waiting can always take it. |
| ChatProgress.ReplyNeverBlocks | lab4/src/server.c:66-72 | The server's answer to a registration always finds room. |
| ChatProgress.EveryRunSettles | lab4/src/server.c:59-80 | A run in which nothing can move has everything sent, delivered and read, and everybody is connected if and only if at most ten processes tried. |
| ChatProgress.EverythingArrives | lab4/src/client.c:91-119 | By then a client has received exactly the lines other than `"\n"`, in order, of everybody who joined after it. |
| ChatProgress.TextArrives | lab4/src/client.c:110-118 | If `j` typed no mere line break, its lines have arrived exactly as typed. |
| ChatProgress.CanSettle | lab4/src/server.c:84-89 | From every reachable state such an end can be reached: server and clients never block each other. |
| Integrator.IntegrandIs | lab3/zad1/integrator.c:3-5 | The integrand times one plus the square of its argument is four. |
| Integrator.IntegrandDecreases | lab3/zad1/integrator.c:3-5 | The integrand is positive, at most four, and decreasing from zero on. |
| Integrator.StepsReach | lab3/zad1/integrator.c:11 | The number of rectangles is the least that reaches the end of the interval. |
| Integrator.RectangularIntegration | lab3/zad1/integrator.c:7-17 | The loop ends after that number of rectangles with their sum. |
| Integrator.SlicesAreEqual | lab3/zad1/main.c:51 | The slices are equally wide, and edge `i` is `i` of `k` parts. |
| Integrator.IntegrateSlice | lab3/zad1/main.c:81-86 | A child's partial result, from the edges of its slice. |
| Integrator.IntegrateWith | lab3/zad1/main.c:107-118 | The total of a round is the sum of the partial results in order. |
| Integrator.IntegrateForEach | lab3/zad1/main.c:17-35 | A negative width or a count that is not positive is rejected, zero means the default width, and there is one result for every number of processes. |
| Integrator.RectanglesExcess | lab3/zad1/integrator.c:11-14 | `n` rectangles exceed the growth of any function that grows by at least the lower rectangles by at most the first minus the next one. |
| Integrator.RectanglesCover | lab3/zad1/integrator.c:11-14 | They cover the growth of any function that grows by at most the upper rectangles. |
| Integrator.SliceExcess | lab3/zad1/integrator.c:7-17 | A slice is overestimated by at most one rectangle, the overshoot past its end included. |
| Integrator.SliceCover | lab3/zad1/integrator.c:7-17 | A slice is never underestimated. |
| Integrator.SplitError | lab3/zad1/main.c:51-118 | The result for `k` processes exceeds the integral by between zero and `4 * k * dx`. |
| Integrator.SplitStairs | lab3/zad1/main.c:51-118 | The rectangles of a split, cut off at the slice ends, form a staircase over the integrand that rises by no more than the result. |
| Integrator.ResultsAgree | lab3/zad1/main.c:34-35 | For any two numbers of processes and any two widths, neither result exceeds the other by more than `4 * dx` of its own for each of its own processes. |
| Integrator.ResultIs | lab3/zad1/main.c:51-118 | For every number of processes and every width, the result is more than 3.1 and less than 3.2 plus `4 * k * dx`. |
| PipeFork.StepKeeps | lab3/zad1/main.c:54-125 | Every system call of every process keeps the exact descriptor table of each process, the contents of the pipes and the running sum. |
| PipeFork.WritersArePrivate | lab3/zad1/main.c:98-104 | Only child `i` ever holds the write end of pipe `i` besides the parent, and the parent none after the fork loop. |
| PipeFork.ReadsFindTheResult | lab3/zad1/main.c:111-118 | The parent's read returns child `i`'s result; it never meets an end of file and waits only until the child has written. |
| PipeFork.WritesFindAReader | lab3/zad1/main.c:88-92 | A child's write finds its pipe empty and a reader present, so it is never killed by it. |
| PipeRuns.StepWorks | lab3/zad1/main.c:54-125 | Every step of any process uses up exactly one unit of work. |
| PipeRuns.WaitsIff | lab3/zad1/main.c:111-125 | The parent waits exactly for the result of the child whose turn it is, or for a child to end; a child waits for nothing. |
| PipeRuns.StuckIsDone | lab3/zad1/main.c:111-125 | In every reachable state either the round is over or some process can step: no read and no wait deadlocks. |
| PipeRuns.CanFinish | lab3/zad1/main.c:107-125 | From every reachable state the round can be brought to its end. |
| PipeRuns.EveryRoundAddsUp | lab3/zad1/main.c:53-125 | In every order of the steps a round of `k` processes takes `k(k+19)/2` of them, ends with the in-order sum of the results, and leaves no open descriptor, no data in a pipe and no child unreaped. |
| PipeRuns.SomeRoundAddsUp | lab3/zad1/main.c:53-125 | For any results to compute, a round can begin and be brought to that end. |
| PipeRuns.RoundIntegrates | lab3/zad1/main.c:82-118 | The total of a finished round is the one of the integrator for every schedule, so the error bound holds for it. |

## Left out

- lab1, lab2 and lab7: process-creation demos, signal modes over a fixed loop, and socket calls with text formatting.
- lab3/zad2: the same integrator behind named pipes.
- lab5/zad1 and lab5/zad2: the same buffer with one queue or without the manager.
- lab6 program 1, the robot-state and logger threads and their counter: single-slot hand-off, weaker than the frame buffers.
- Level 2's own frame counter, a mutex-guarded increment.
- Floating-point rounding: sums, slices and time differences are exact; the number of steps of the rounded loop can differ.
- Real time: frequencies, scheduling priorities, elapsed-time report and watchdog thresholds. A camera's clock reading is an arbitrary input; only `StereoTolerance` uses that its sleep lasts a period.
- StereoRounds.ShutdownCompletes: a waiting pop tests again whenever its turn comes. The handler broadcasts without the mutex, so a waiter may miss the wake-up; what is proved holds for the waiters that are woken.
- Process death, signals, cleanup handlers, stale IPC objects, interrupted and failing calls; chat clients that leave; client queues that cannot be opened.
- Overflow of identifiers and counters, which are unbounded here; the `K` and the buffer size are parameters, not 10 and 64.
- The text of tasks and lines beyond its identity: random strings, buffer lengths and truncation at `TASK_LEN` and `MAX_TEXT`.
- Output: printing, image files, the final report's layout.
- Integrator.SplitError: takes the integral as a function `G` with the rectangle bounds; that four times the arctangent is one is not proved.
- Pipe capacity: a result is one unit, and a pipe never holds more than one.
