# A verified model of PGM^RT

PGM^RT is a runtime for dataflow graphs. Every node is a thread; edges carry tokens or bytes; a
node fires when each edge into it holds enough tokens. This project models the parts of the runtime whose
correctness depends on how threads interleave, and its graph and rate algorithms, and proves properties of
them over all runs and all inputs. `dafny verify dfyconfig.toml` checks everything.

## How the source is modelled

**Concurrent code** (the token protocol, the locks, the condition variable, the ring buffer) runs in several
threads at once, which a Dafny method cannot express. It is modelled as step machines: a state holds
the shared fields and, for each thread, its program counter and local variables, and one step is one access to
a shared field. A step determines the new state from the old one, `Next` allows any
thread to step, and a `Run` is any finite sequence of steps from an initial state. Fields called history
record what happened; the steps of the code do not depend on them, only the choice of a client's next call may.
Steps are sequentially consistent.

**Sequential code that updates state** (the framed stream, the graph searches, the rate worklist) is modelled by
classes and methods with loops, each proved against a specification.

| module | what it models |
|---|---|
| `TokenModel`, `TokenRely` | `pgm_wait`, `pgm_complete`, `pgm_terminate` on graphs of condition-variable edges, edge by edge |
| `TokenWakeup`, `TokenRest`, `TokenAnswers`, `TokenConservation`, `TokenTermination`, `TokenCycle` | what holds in every run of that machine, on any graph |
| `TokenRounds`, `TokenDrain`, `TokenEarly`, `TokenRace` | how a pipeline of unit edges comes to rest, and when it has drained then |
| `QueueLock` | the MCS queue lock |
| `TicketLock` | the ticket lock on one packed word |
| `CondVar` | the futex condition variable |
| `Monitor` | what the token protocol does to a node's lock and condition variable, and that the implementations do nothing else |
| `Framing` | the tagged byte stream of data edges |
| `RingInit`, `Ring`, `RingQueue`, `RingProgress` | the ring buffer: its size, its steps, the queue it implements, and when its calls go on |
| `RingEdge` | a ring edge between two nodes, across the token and the data layer |
| `GraphSearch` | `pgm_is_dag` and `pgm_is_ancestor` |
| `Divisibility`, `RateArithmetic`, `Rates` | the propagation of execution rates in `pgmrt` |
| `Base`, `Modular` | an option type and bytes; division with remainder |

## What was found

Where a promise does not hold of the code as it is, the model keeps the code, exhibits a run that breaks the
promise, and proves exactly when it holds.

- The lock-free evaluation in `pgm_wait_for_tokens` is not one read. A producer that completes and terminates in
  between makes the consumer leave with a token unread (`TokenRace.TokenLeftBehind`). A run of a pipeline drains if and
  only if no node leaves through that guard while a forward edge into it is ready
  (`TokenDrain.DrainsIffNobodyLeftEarly`), and a pipeline drains in all its runs if and only if it has no edge or its
  sources send nothing (`TokenEarly.AlwaysDrainsIffNoToken`). Were the evaluation atomic, every pipeline would drain
  (`TokenDrain.DrainTheorem`).
- `pgm_consume_skips` also runs in the wait that returns PGM_TERMINATE, so a terminated node keeps one skip
  in hand exactly if the edge had more skips than the node had firings (`TokenCycle.HandMeaning`).
- On a ring edge `nr_pending` does exceed the bytes in the ring, exactly between a read and
  `pgm_consume_tokens` with no unannounced write at the same time (`RingEdge.CountExact`). Some run gets there if and
  only if the edge can carry an element to its consumer (`RingEdge.ExceedsIffSomethingRead`).
- A ring edge whose capacity times element size is below the threshold deadlocks as soon as more elements
  than the capacity are sent; `__pgm_init_edge` accepts it (`RingEdge.DrainsIffThresholdFits`).
- The capacity 2^63 reads as a negative `ssize_t`. A multi-writer ring of that size accepts an element in some run if
  and only if it has more than one writer: a claim succeeds only while another one is failing
  (`RingQueue.HugeRingAcceptsIffTwoWriters`).
- `pgm_is_dag` compares nodes by name. With different names its answer is exact; for every list of names with two
  equal ones there is an acyclic graph that it takes for a cyclic one (`GraphSearch.IsDag`,
  `GraphSearch.MistakenWithout`).
- The ticket lock excludes if and only if there are no more threads than a half of its word can count
  (`TicketLock.ExclusiveIffCountable`).
- The condition variable misses no signal to its one waiter if and only if fewer signals than its sequence word can
  count fall between the waiter's read of that word and its futex call (`CondVar.NoneMissedIffWordSuffices`).

## Model

| member | source | states |
|---|---|---|
| `TokenWakeup.NextKept` | src/pgm.cpp:3346-3389 | every step of every thread, spurious wake-ups included, keeps: a consumer that is committed to sleep although it could fire or terminate is on some producer's list |
| `TokenWakeup.NoLostWakeup` | src/pgm.cpp:3813-3869 | in every state of every run, on any graph and with any calls: a sleeping consumer each of whose edges has `nr_pending` at its threshold or a skip left is still held in some thread's `to_wake`; one whose forward edges all lack both, and have all signaled, is held by a terminating thread |
| `TokenRest.NoReadySleeper` | src/pgm.cpp:3346-3389 | with any rates and skips: in a state in which no call can go on, every lock is free, every thread is between calls or asleep, and a sleeper has an edge with neither the threshold nor a skip |
| `TokenRest.NoExhaustedSleeper` | src/pgm.cpp:3375-3380 | in such a state nobody sleeps behind forward edges that have all signaled, unless one of them could still serve it |
| `TokenAnswers.TerminatesOnlyUnserved` | src/pgm.cpp:3353-3380 | a wait ends in termination only if in its last evaluation every forward edge lacked tokens when looked at, and the count of signals then was the number of forward edges and not 0 |
| `TokenAnswers.WokenForAReason` | src/pgm.cpp:3856-3864 | a sleeper is woken by a completion only when no edge into its node lacks tokens, else by a termination or spuriously |
| `TokenAnswers.ExaminesIffCrossed` | src/pgm.cpp:3415-3427 | a completion puts a consumer on `to_wake` exactly if its tokens bring the edge from below the threshold to it |
| `TokenAnswers.FiresWithoutLock` | src/pgm.cpp:3352-3355 | a wait that finds no edge lacking goes on to consume without taking the lock |
| `TokenConservation.TokensConserved` | src/pgm.cpp:3403-3427 | in every run `nr_pending` is the initial tokens plus `nr_produce` per delivery minus `nr_consume` per pass beyond the skips, and never negative |
| `TokenConservation.FiringsCounted` | src/pgm.cpp:3767-3811 | between calls every in-edge has been passed once per firing, and at most once more per wait that returned PGM_TERMINATE, exactly once more while it has skips left; every out-edge has received one delivery per completion |
| `TokenCycle.QuitsCounted` | src/pgm.cpp:3802-3808 | for clients that stop at PGM_TERMINATE the count is exact: the last wait passes an in-edge once more exactly if the edge had more skips than the node had firings |
| `TokenConservation.NoUnderflow` | src/pgm.cpp:3327-3365 | at the subtraction the edge still holds its threshold, hence `nr_consume`, however old the lock-free scan is |
| `TokenTermination.SignalsCounted` | src/pgm.cpp:3843-3852 | `nr_terminate_signals` is the number of forward in-edges signaled, and equals their total if and only if all have been |
| `TokenTermination.TerminationOrder` | src/pgm.cpp:3807-3808 | a node that has decided to terminate has only forward ancestors that are in or past their own `pgm_terminate` |
| `TokenRounds.FiredAtMost` | src/pgm.cpp:3767-3811 | on a forward DAG of unit edges whose sources complete k times and terminate, no node fires more than k times |
| `TokenRounds.StepLowers` | src/pgm.cpp:3767-3869 | every step other than a spurious wake-up lowers a measure of the work that is left |
| `TokenRounds.ComesToRest` | src/pgm.cpp:3767-3869 | from every state of every run a state without a further step is reached within as many steps as the measure says |
| `TokenDrain.DrainsIffNobodyLeftEarly` | src/pgm.cpp:3346-3389 | with the lock-free evaluation in its real steps, a run that has come to rest has terminated all nodes after exactly k firings, if and only if in no step of it a node left by the lock-free guard while a forward edge into it was ready |
| `TokenDrain.DrainTheorem` | src/pgm.cpp:3346-3389 | the corollary for an evaluation that is one step: no node can leave early, so every run that has come to rest has drained |
| `TokenEarly.LosesToken` | src/pgm.cpp:3353-3365 | for every pipeline with an edge and k > 0 a run comes to rest without having drained |
| `TokenEarly.AlwaysDrainsIffNoToken` | src/pgm.cpp:3346-3389 | a pipeline drains in all its runs if and only if k is 0 or it has no edge |
| `TokenRace.TokenLeftBehind` | src/pgm.cpp:3353-3365 | with the lock-free evaluation in its real steps, a run on two nodes comes to rest with the consumer terminated, unfired, and a token on its edge |
| `TokenCycle.CycleConserved` | src/pgm.cpp:3391-3427 | around every cycle of unit edges, pending tokens, skips and firings in hand add up to the initial tokens and skips in every state, which bounds every edge of the cycle |
| `TokenCycle.HandMeaning` | src/pgm.cpp:3802-3805 | what is in hand is the firings not yet completed; after termination it is one skip exactly if the edge had more skips than the node firings |
| `QueueLock.NextKeeps` | include/queuelock.h:45-104 | every load, store and compare-and-swap of any thread keeps the queue of nodes consistent with what each thread knows, nodes being reused and overwritten when free |
| `QueueLock.MutualExclusion` | include/queuelock.h:45-73 | in every run no two threads own the lock |
| `QueueLock.EntryOrderIsSwapOrder` | include/queuelock.h:54-72 | threads enter in the order of their successful swaps of the tail, although the tail may come back to an old value |
| `QueueLock.EveryCallEnters` | include/queuelock.h:45-73 | in every run a thread has swapped itself in, and entered, exactly once for each of its calls of `ql_lock`, except for the call it is in |
| `QueueLock.FailedSwapMeansProgress` | include/queuelock.h:54-57 | a swap fails only if another thread has joined or left the queue since the tail was read |
| `QueueLock.CallsEnd` | include/queuelock.h:45-104 | a thread inside a call always has a step, and every step but a turn of a spin loop and a failed swap, after which it reads the tail again, brings it closer to its return |
| `QueueLock.StoresHitQueuedNodes` | include/queuelock.h:60-104 | the stores through `prev->next` and `next->blocked` hit the node of the neighbour in the queue, which is still queued |
| `QueueLock.SomeoneMoves` | include/queuelock.h:81-104 | while the queue is not empty its first thread, or the second about to link itself, has a step that is not a spin |
| `QueueLock.HandsOverDirectly` | include/queuelock.h:87-103 | an owner that sees its successor unblocks exactly that one, without touching the tail |
| `QueueLock.HandOffShrinks` | include/queuelock.h:81-104 | those steps make progress: a measure of the hand-over never grows and they shrink it |
| `TicketLock.AddToHigh` | include/ticketlock.h:46-48 | the add to the packed word adds one to the high half modulo its size and leaves the low half alone |
| `TicketLock.NoCarry` | include/ticketlock.h:28-64 | in every run, with any number of threads, the word is two independent modular counters of adds and releases |
| `TicketLock.NextKeeps` | include/ticketlock.h:46-64 | every step keeps the tickets that are out distinct and owned by distinct threads, the first one alone being able to enter |
| `TicketLock.EntersInOrder` | include/ticketlock.h:46-52 | with at most as many threads as a half counts, over unbounded runs with wrap-around: entries happen in the order of the adds and at most one thread is inside |
| `TicketLock.SomeoneEnters` | include/ticketlock.h:49-51 | while tickets are out and nobody is inside, the thread in turn enters with its next step, or with the one after a failed comparison |
| `TicketLock.CrowdCollides` | include/ticketlock.h:46-52 | with one thread more, a run puts two threads inside |
| `TicketLock.ExclusiveIffCountable` | include/ticketlock.h:19-37 | exclusion in all runs holds if and only if the number of threads is at most the size of a half |
| `CondVar.BasicKept` | include/condvar.h:39-54 | every step keeps the waiter count exact and the sequence word equal to the number of signals modulo its size |
| `CondVar.SkippedIffNobody` | include/condvar.h:71-81 | the signal of the thread that holds the lock is skipped exactly when no thread is registered, and else goes on to bump the word |
| `CondVar.SleepsIffUnsignaled` | include/condvar.h:43-47 | the futex call puts a waiter to sleep exactly if no signal has been sent since it read the word, within the bound of the word |
| `CondVar.CallsEnd` | include/condvar.h:39-81 | a thread inside a call has a step unless it sleeps or waits for the lock, and every step brings it closer to its return |
| `CondVar.SignalReaches` | include/condvar.h:71-81 | a signal that finds threads before or in the futex call leaves at least one of them running |
| `CondVar.RefinesAbstract` | include/condvar.h:39-81 | with one waiter every step is one of an abstract condition variable, in which unlocking and starting to wait is atomic, and no signaled sleeper is left without its wake under way |
| `CondVar.WordComesRound` | include/condvar.h:43-47 | after as many signals as the word counts, a run puts the signaled waiter to sleep with nobody to wake it |
| `CondVar.NoneMissedIffWordSuffices` | include/condvar.h:39-81 | no signal is ever missed if and only if fewer signals than the word counts fall into the window |
| `Monitor.ProtocolMoves` | src/pgm.cpp:3367-3385 | every step of the token protocol is, for every node, a move of one monitor: enter, leave, give the lock back and wait in one step, be woken; a sleeper is woken only while some thread holds the lock, or spuriously |
| `Monitor.CondVarMoves` | include/condvar.h:39-81 | every step of the futex condition variable with one waiter, within the bound of its word, is a move of that monitor |
| `Monitor.QueueLockMoves` | include/queuelock.h:45-104 | every step of the queue lock leaves the holder, takes the free lock or frees it, the holder being the thread that owns it |
| `Monitor.TicketLockMoves` | include/ticketlock.h:46-64 | the same of the ticket lock, with no more threads than a half counts |
| `Framing.Sender.SendStdData` | src/pgm.cpp:3439-3481 | the pipe receives exactly as much of the tag and, unless it terminates, the message as the writes take before one fails; success, failure and being blocked are told apart exactly |
| `Framing.Sender.WriteOut` | src/pgm.cpp:3452-3479 | the loop succeeds if and only if the writes before a failing one take all bytes, fails if and only if a write fails before that, and waits through any number of full pipes |
| `Framing.Receiver.ReadHead` | src/pgm.cpp:3642-3683 | reading tag and data together takes as much as has arrived, up to a block and the next tag, delivers the first unread bytes behind the tag and leaves `next_tag` at the distance to the next tag |
| `Framing.Receiver.ReadBody` | src/pgm.cpp:3684-3703 | reading inside a message takes as much as has arrived, up to the block and the next tag, and delivers the next unread bytes |
| `Framing.Receiver.ReadTag` | src/pgm.cpp:3704-3729 | reading a tag between two parts of a block loses no byte |
| `Framing.Receiver.ReadMore` | src/pgm.cpp:3638-3729 | one turn of the read appends exactly the next unread bytes to the block within the buffer, or ends the stream; it gets further if and only if something unread has arrived and is taken |
| `Framing.Receiver.FillBlock` | src/pgm.cpp:3638-3747 | a delivered block is the next `nr_consume` unread bytes; termination comes only with fewer left; only the end of the events interrupts it, after every one has been used, EAGAIN or not, and then the block holds what has been read |
| `Framing.Receiver.RecvData` | src/pgm.cpp:3638-3747 | the k-th block delivered is bytes k·consume to (k+1)·consume of the concatenated payloads, and nothing is lost while it waits |
| `Framing.WireIsFrames` | src/pgm.cpp:3439-3481 | the wire format that the receiver takes apart is the sequence of frames that the sender writes |
| `Framing.SendAll` | src/pgm.cpp:3439-3481 | the pipe holds a prefix of the wire format, and all of it if and only if every message and the terminate tag find room before a write fails |
| `Framing.RecvAll` | src/pgm.cpp:3638-3747 | repeated calls deliver the payload in order, and end with termination once it is used up, given enough fruitful reads with any others between them |
| `Framing.RoundTrip` | src/pgm.cpp:3439-3481 | for all sizes, messages and fragmentations of writes and reads the blocks received are the payload sent, cut at multiples of `nr_consume`; sending succeeds if and only if the writes have room |
| `RingInit.RingCountIsLeastPow2` | include/ring.h:82-93 | for every count from 1 to 2^63 the capacity is the least power of two not below it, and divides 2^64 |
| `RingInit.RingCountRefuses` | include/ring.h:86-96 | initialization fails exactly for a zero count or a zero size |
| `Ring.WriterCounts` | include/ring.h:162-216 | every step of a writer, the failed claims included, keeps `nfree` equal to the free elements less claims and failing writers, modulo 2^64 |
| `Ring.IncSlot` | include/ring.h:179-204 | an index that wraps around at 2^64 still moves to the next slot |
| `Ring.NextKeeps` | include/ring.h:162-240 | every step of any writer or the reader keeps each ticket's slot free, being written by its owner alone, or ready with the whole element |
| `RingQueue.ReadsInTicketOrder` | include/ring.h:220-240 | tickets are handed out once and for all, and the elements returned are those of the first tickets, in order |
| `RingQueue.SlotsNotShared` | include/ring.h:162-190 | in every state no two tickets in the ring, no two writers, and no writer and the reader share a slot |
| `RingQueue.UnreadNotOverwritten` | include/ring.h:162-216 | no step changes the bytes of a published element before its release |
| `RingQueue.RefinesBoundedQueue` | include/ring.h:162-240 | every step of every run appends one element to a queue that has room, removes and returns its first, or leaves it alone; this holds for the single-writer and the multi-writer variant and across index wrap-around |
| `RingQueue.SingleWriterAnswers` | include/ring.h:195-232 | with one writer `nfree` is exactly the room left, and the reader that finds the ring not empty finds its slot ready |
| `RingQueue.MultiWriterAnswers` | include/ring.h:162-232 | with several, a claim is refused exactly if elements, claims and failing writers fill the ring, or if the ring is idle and its capacity is 2^63; a read exactly if it is empty or its first ticket is unpublished |
| `RingProgress.SingleWriterSteps` | include/ring.h:195-232 | with one writer, a write is refused if and only if the queue is full and a read if and only if it is empty |
| `RingProgress.MultiWriterSteps` | include/ring.h:162-232 | with several, exactly when the check refuses, when the claim fails and when the read is refused, in elements, claims and failing writers |
| `RingProgress.EveryoneSteps` | include/ring.h:162-240 | every writer inside a call, and the reader, has a next step in every state of every run |
| `RingProgress.WritesEnd` | include/ring.h:162-216 | every step of a writer but a refusal and a failed claim brings its call closer to the end |
| `RingProgress.ReadsEnd` | include/ring.h:220-240 | every step of a read but a refusal brings it closer to the end |
| `RingQueue.InitRingFits` | include/ring.h:82-110 | a ring made by `init_ring` for any count up to 2^63 meets the conditions of these results if and only if it has one writer, or is a multi-writer ring with at most 2^63 writers, capacity and writers together being below 2^64 |
| `RingQueue.LoneWriterStarves` | include/ring.h:168-176 | in a multi-writer ring of 2^63 slots with one writer, no run hands out a ticket |
| `RingQueue.TwoWritersSucceed` | include/ring.h:168-180 | with two or more, a run does: one claims while the other has not undone its failed claim |
| `RingQueue.HugeRingAcceptsIffTwoWriters` | include/ring.h:162-184 | some run writes an element into such a ring if and only if there is more than one writer |
| `RingEdge.NextKeeps` | src/pgm.cpp:3483-3490 | every step of producer and consumer, scans not being atomic, keeps tokens, elements, termination and sleep consistent |
| `RingEdge.CountExact` | src/pgm.cpp:3415-3427 | `nr_pending` is element size times elements in the ring, less one just written, plus one just read, never negative, and at most the bytes in the ring exactly outside the window of the read |
| `RingEdge.ExceedsIffSomethingRead` | src/pgm.cpp:3790-3803 | for every configuration some run reaches a state in which it exceeds the bytes in the ring, if and only if there is input and it drains |
| `RingEdge.WokenForAReason` | src/pgm.cpp:3856-3864 | the consumer is woken only with tokens up to the threshold, after the termination, or spuriously |
| `RingEdge.LockedIffNeeded` | src/pgm.cpp:3415-3427 | the producer goes for the lock exactly if its tokens bring the count to the threshold, the consumer exactly if it finds neither tokens nor termination |
| `RingEdge.EndOnlyOnCommand` | src/pgm.cpp:3628-3636 | an empty ring ends the stream only after the producer has said that it terminates |
| `RingEdge.ReadNeverSpins` | src/pgm.cpp:3628-3636 | the read after a token wait always finds an element |
| `RingEdge.TerminatesOnceDrained` | src/pgm.cpp:3628-3636 | elements are read in order, and PGM_TERMINATE is returned only once every element written has been |
| `RingEdge.StepLowers` | src/pgm.cpp:3628-3636 | every step of producer or consumer lowers a measure |
| `RingEdge.ComesToRest` | src/pgm.cpp:3628-3636 | from every state of every run a state of rest is reached within as many steps as the measure says |
| `RingEdge.DrainsIffThresholdFits` | src/pgm.cpp:1970-1989 | in all runs both threads end with everything read, if and only if a full ring reaches the threshold or the input fits into it |
| `GraphSearch.DagSearch.DagVisit` | src/pgm.cpp:2850-2889 | success leaves the name of the node and all names it reaches in an inverse topological order; failure proves a path between two nodes of one name; the unvisited set shrinks on the way down |
| `GraphSearch.OrderedIsAcyclic` | src/pgm.cpp:2891-2918 | if names differ, a complete inverse topological order excludes cycles |
| `GraphSearch.IsDag` | src/pgm.cpp:2891-2918 | on every graph, without explicit backedges when ignored: yes means that every name has a node in an inverse topological order, no means an invalid handle or a path between two nodes of one name; if names differ, yes if and only if there is no cycle |
| `GraphSearch.MistakenWithout` | src/pgm.cpp:2850-2918 | whenever two names are equal, the answer is wrong on some acyclic graph with these names |
| `GraphSearch.AncestorSearch.Search` | src/pgm.cpp:2777-2807 | success means a forward path from the query; failure means that the node and all newly visited nodes have only visited parents and are not the query |
| `GraphSearch.IsAncestor` | src/pgm.cpp:2809-2839 | on cyclic graphs too: 1 if and only if the nodes differ and a path of forward edges leads from the query to the node, -1 for different or invalid graphs, else 0 |
| `RateArithmetic.IntervalExact` | tools/pgmrt.cpp:754-754 | the division that gives the new interval is exact |
| `RateArithmetic.ArrivalsExact` | tools/pgmrt.cpp:763-770 | the division that gives the new arrival count is exact, and the new rate is what the edge turns the source's rate into |
| `RateArithmetic.IntervalGrows` | tools/pgmrt.cpp:754-754 | a longer interval at the source asks for a multiple of the interval at the destination |
| `Rates.SpreadOver` | tools/pgmrt.cpp:745-773 | one turn of the successor loop keeps every edge of a finished node satisfied and, on a balanced graph, every rate at its path-independent ratio and no interval longer than asked for |
| `Rates.ParseGraphRates` | tools/pgmrt.cpp:727-778 | on any DAG the worklist ends, whatever node it takes next, because nodes listed plus paths going on from them get fewer, exactly the nodes that can be reached have rates, and each interval is a common multiple of what its in-edges ask for; on a balanced one it is the least common multiple of what its in-edges ask for at their sources' final rates |
| `Rates.SolutionUnique` | tools/pgmrt.cpp:727-778 | there is only one such assignment, so the result does not depend on the order of the worklist |
| `Rates.ValidateRate` | tools/pgmrt.cpp:635-692 | comparing neighbours finds the predecessors valid if and only if all those with known rates agree pairwise |
| `Rates.BalancedAgrees` | tools/pgmrt.cpp:757-760 | on a balanced graph the comparison made at an update never finds a disagreement |

## Left out

- Opening, creating and closing FIFOs, message queues and sockets, shared memory and directories: operating-system input and output. A pipe is a byte queue with arbitrary short reads and writes.
- `pgm_get_max_depth` and `pgm_get_min_depth`: the work is done by the Boost Graph Library.
- `select`, `errno` values, time-outs, and a read that returns end of file.
- The retry of several data edges after EAGAIN, and nodes that mix signaled with other data edges; `Framing` is about one inbound edge.
- Data passing inside the token machine: `TokenModel` has condition-variable edges only; `RingEdge` covers one ring edge.
- The test of one edge for readiness is one step although it reads two fields; the second is written by the consumer alone.
- `nr_pending`, `nr_terminate_signals` and `waiters` do not overflow upwards.
- Spurious wake-ups are steps of every run, but a state is at rest in `TokenRounds` and `RingEdge` when no other step is left, and only the other steps lower the measures.
- The concurrent objects are values in a step machine rather than classes, because their methods run at the same time; memory ordering weaker than sequential consistency, interrupts and preemption control are not modelled.
- TokenDrain.DrainTheorem: the lock-free evaluation is one step, which the code does not do; `TokenDrain.DrainsIffNobodyLeftEarly` and `TokenEarly.AlwaysDrainsIffNoToken` are about its real steps.
- Monitor.CondVarMoves: one waiter, as in the token protocol, and fewer signals in its window than the word counts; beyond that `CondVar.WordComesRound` shows a missed signal.
- RingQueue.InitRingFits: requested counts above 2^63 are left out, because the code then shifts by a negative amount, which C leaves undefined.
- RingEdge.TerminatesOnceDrained: the ring takes whole elements in one step, which `RingQueue.RefinesBoundedQueue` justifies.
- Rates.ParseGraphRates: numbers are unbounded and positive, and two nodes are joined by at most one edge; the parsing of the rate string and the conversion to milliseconds are not modelled.
- Buffers and their swapping, getters, degree counts, lookup by name, claiming of nodes, drawing of graphs, command-line parsing and timing loops: each is a short computation without a property that spans calls.
