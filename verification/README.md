# Verified models of the kt-kernel host-side protocols

The host side of kt-kernel moves expert weights between processes, hands work to
background threads, routes tokens to experts and shares one scratch buffer.
This project models that logic in Dafny and proves what it keeps and what it
delivers, over every schedule, every number of ranks, threads, clients and
tokens.  `dafny verify dfyconfig.toml` checks everything.

## What is modelled

**FP8 layerwise transport** (`Transport*.dfy`). One labelled transition system:
per rank a caller thread (`join`, `wait`, `close`), a consumer thread and a copy
engine with its stream; on rank zero the producer thread. Every store of a
control cell, every load whose value matters, the return of the writer, each
store of the writer, the issue and the execution of each copy, and the two
halves of the poison publication are steps of their own. The transition functions are in
`TransportModel`: `OpenerStep`, `JoinStep` (`fp8_layerwise_transport.cpp:271-327`), `WaitStep`
(329-363), `CallStep`, `ExpertStep`, `DrainStep` (365-451), `CloseStep` (453-463),
`CopyStep` (562-588), `SeekStep`, `PollStep`, `FinishStep`, `CatchStep` (591-682).
The number of ranks, experts and epochs is a parameter without bound; a timeout
or an error is an `Outcome` the environment may choose at any step that can time
out or fail. Over infinite executions, `TransportProgress` and `TransportClean`
prove that epochs end, `TransportLeaving`, `TransportPoisoned` and
`TransportEnding` that with the latch set waits and background threads end, and
that `close` ends, and `TransportScript` to `TransportRoundRobin` that a
whole script of jobs completes, with an execution for every script in which it
does. `TransportWriter` follows the writer's single stores to the GPU, and
`TransportBlame` says what each error code means, that no failure is passed
over, and what `close` does. `TransportObject` wraps the same state in an object whose methods
are the atomic steps and whose contracts carry the theorems.

**Poison latch** (`PoisonLatch.dfy`). Any number of publishers and readers,
every cell and every character stored and loaded separately, the 256-byte text
cell with its truncation included.

**TaskQueue** (`TaskQueue*.dfy`). Any number of enqueuers, with the gap between
`tail.exchange` and the `next` store, the worker, bounded `sync`, the error slot
and the destructor's walk; nodes record how often they are deleted.

**CPUInfer errors** (`CpuInfer.dfy`). The worker with an error not yet booked, the
queue's slot, device callbacks waiting in `sync_` or in the middle of recording,
the device slot, and host threads at each stage of `sync`. `CpuInferQueue.dfy` runs it together with
the whole TaskQueue: each step of the queue is one of its steps or nothing to it.

**Worker pool** (`WorkerPool*.dfy`). The caller and the workers of one
`InNumaPool`, claim by claim, over any sequence of jobs.

**Dispatch** (`MoeDispatch.dfy`, `ExpertParallel.dfy`, `MoeGate.dfy`, with the
general facts in `Segments.dfy`). Rows and weights are opaque, an expert is an
arbitrary function of a row, the sum over the slots is a fold in slot order.
`argsort` and `topk` are parameters: any result their documentation allows.

**SharedMemBuffer** (`SharedMemBuffer.dfy`). The arena and the pointer cells it
rewrites.

## Findings

* The sorted dispatch and the batched dispatch differ on two kinds of input. A
  token that names an expert twice is counted once, so the sorted form ends in a
  shape error (`FormsDiffer` is such a token); and an empty batch cannot be viewed
  as tokens by slots. `MoeInfer` states the exact condition. In the expert-parallel form one rank's repeated
  expert strands all other ranks in the exchange (`Expected`); that a collective
  waits for every rank to enter it is part of the model (`Stranded`), not proved.
* The gate keeps to the chosen groups exactly when those hold at least `top_k`
  experts; otherwise masked experts are selected (`StaysInGroupsIff`; `LeavesItsGroup` is a
  configuration and a token where they are).
* `wait` copies the poison diagnostics into its statistics without the wait that
  `poison_message` makes, so they can be torn (`TornStats`); `StatsWholeIff`
  says exactly from which states they cannot.
* `do_work_stealing_job` with no tasks still runs the init and finalize functions
  of thread 0, although no worker is counted active (`ExactlyOnce`, by `Active`;
  `NoTasksStillInits` is such a call).
* A second `run_producer` for an epoch whose end is announced passes all its checks
  and never completes; a caller can tell beforehand from producer_done_epoch
  (`RunCompletesIff`, `SecondCallReruns`, and a run that gets there, `RerunHappens`).

## Model

| member | source | states |
|---|---|---|
| TransportTheorems.EndToEndDelivery | kt-kernel/fp8_layerwise_transport.cpp:336-345 | When `wait(e)` is past its gate on any rank, the log is the run of e, it holds every expert the rank joined with, and every rank's GPU shows for every expert and kind exactly what was logged for that rank. |
| TransportWriter.DeliveredAsStored | kt-kernel/fp8_layerwise_transport.cpp:409-417 | The same in terms of the writer's stores: in every schedule, past the gate of `wait(e)` on any rank, every rank's GPU shows for each expert that rank joined with and each kind the block last stored for exactly them in the run of e; a kind never stored shows what its slot held (the expert two before, or for the first two what was there when the run began). |
| TransportTheorems.LogIsHistory | kt-kernel/fp8_layerwise_transport.cpp:400-427 | The log cannot be made up: it changes only by a producer step, which starts a run of a later epoch, counts a publication, or appends for the next expert what all ranks' host slots hold at the writer's return. |
| TransportTheorems.SlotReuse | kt-kernel/fp8_layerwise_transport.cpp:395-407 | While the writer is running, in any run including failed and closing ones and across epochs, no rank has a copy from that slot queued, is copying it, or still has a published expert of that slot to copy. |
| TransportTheorems.CopiesIntact | kt-kernel/fp8_layerwise_transport.cpp:562-572 | Every copy waiting in a stream, in any reachable state however the run ends, belongs to the run under way, to a published expert, and its host slot still holds what the writer left there for that rank. |
| TransportTheorems.EpochLockstep | kt-kernel/fp8_layerwise_transport.cpp:276-326 | On every rank wait_returned <= consumer_done <= join <= active, wait_returned <= producer_done <= active, and wait_returned is the active epoch or the one before it. |
| TransportTheorems.PreviousIsPreceding | kt-kernel/fp8_layerwise_transport.cpp:277-310 | "The one before" is history kept honest: it moves only when rank zero activates, to the epoch that was active. |
| TransportTheorems.StoresAfterReturns | kt-kernel/fp8_layerwise_transport.cpp:281-310 | From the gate of rank zero's wait to the activation, every rank has joined, consumed and returned from the active epoch and its end is announced, so the cells that are overwritten are read by nobody. |
| TransportTheorems.BoundedLag | kt-kernel/fp8_layerwise_transport.cpp:401-426 | Every rank is at most two publications behind, and no two ranks are more than two apart. |
| TransportTheorems.ConsumedInOrder | kt-kernel/fp8_layerwise_transport.cpp:617-640 | What a rank consumed is a prefix of all publications, whose sequences strictly increase: each consumed once, in order, none skipped. |
| TransportTheorems.Untorn | kt-kernel/fp8_layerwise_transport.cpp:621-633 | Once the generation check succeeded, the sequence, epoch and expert read in three loads belong to one publication, the next one this rank has to consume. |
| TransportTheorems.NoSilentAbandonment | kt-kernel/fp8_layerwise_transport.cpp:444-463 | A producer out of an unfinished run, or a stopped or stopping consumer short of what its rank joined, implies that the latch is set; and a producer that leaves `run_producer` at any point but the announcement of the end, the wait for the joins included, leaves the latch set. |
| TransportTheorems.CallersLeave | kt-kernel/fp8_layerwise_transport.cpp:488-513 | With the latch set, every own step of a caller inside `wait_until` brings it nearer to throwing, in at most three. |
| TransportTheorems.OpenerLeaves | kt-kernel/fp8_layerwise_transport.cpp:282-297 | The same for rank zero waiting for the previous layer. |
| TransportTheorems.ProducerLeaves | kt-kernel/fp8_layerwise_transport.cpp:379-450 | The same for the producer: it ends in its catch clause within one pass over the ranks. |
| TransportTheorems.ConsumersLeave | kt-kernel/fp8_layerwise_transport.cpp:620-634 | The same for a consumer waiting for a generation or for its copies. |
| TransportLeaving.WaitersThrow | kt-kernel/fp8_layerwise_transport.cpp:488-513 | In every execution with the latch set, any caller, producer or consumer inside `wait_until` that gets its turns throws out of it in the end, whatever the others do: a caller is then out of its call with its join and wait_returned cells as they were, so it did not return normally. |
| TransportTheorems.PoisonStays | kt-kernel/fp8_layerwise_transport.cpp:174-182 | No step makes a claimed or set latch healthy again or changes its code. |
| TransportTheorems.StableStatistics | kt-kernel/fp8_layerwise_transport.cpp:347-362 | The first `wait(e)` of a rank returns the layer and the expert count that rank joined with, and expert count times the four expert sizes as bytes, modulo 2^64. |
| TransportTheorems.TotalBytesIsProduct | kt-kernel/fp8_layerwise_transport.cpp:587-587 | Adding the four sizes once per expert in 64-bit arithmetic is the product modulo 2^64. |
| TransportRerun.RunCompletesIff | kt-kernel/fp8_layerwise_transport.cpp:365-443 | In every fair execution, a run of epoch e that passes its gate while the latch stays clear announces the end of e if and only if producer_done_epoch was below e when `run_producer` was called. |
| TransportRerun.GateDecides | kt-kernel/fp8_layerwise_transport.cpp:378-395 | At the gate a run turns out to be a repetition if and only if its epoch is at most producer_done_epoch. |
| TransportRerun.RerunNeverCompletes | kt-kernel/fp8_layerwise_transport.cpp:400-443 | Once a repetition has begun no step of anybody announces an end again, the producer never reaches the announcement, and if it is out of its call the latch is set. |
| TransportRerun.SecondCallReruns | kt-kernel/fp8_layerwise_transport.cpp:365-395 | From every reachable healthy state with a finished epoch and an idle producer, a second call for that epoch passes all checks and begins a repetition, for any number of ranks. |
| TransportWitness.RerunHappens | kt-kernel/fp8_layerwise_transport.cpp:271-451 | Such a state is reached: one rank, one expert, from the initialised region through join, production, copies and acknowledgement to the end, step by step, and on into the repetition. |
| TransportProgress.HealthyEpochsEnd | kt-kernel/fp8_layerwise_transport.cpp:400-443 | In every infinite execution from a reachable state with all ranks joined and the producer begun, in which producer, consumers and copy engines get their turns, the epoch is finished on all ranks or the latch is set, whatever the callers do. |
| TransportClean.CleanEpochsFinish | kt-kernel/fp8_layerwise_transport.cpp:271-682 | If the callers follow one script and nothing times out, fails or closes, the latch stays clear for good and, fairly scheduled, every epoch that got under way is finished on every rank. |
| TransportCompletes.ScriptCompletes | kt-kernel/fp8_layerwise_transport.cpp:271-463 | In every infinite execution from the initialised region with no timeout, error or close, in which all threads get their turns and each idle caller makes its next call of the script in the end (join the next job once returned from the last, wait for what it joined, produce it), all ranks return from every job, so the script completes. |
| TransportCompletes.WaitReturns | kt-kernel/fp8_layerwise_transport.cpp:329-363 | In those executions every `wait(e)` that has begun, on any rank, the first or a repeated one, returns with wait_returned == e. |
| TransportCompletes.JobEnds | kt-kernel/fp8_layerwise_transport.cpp:271-443 | One job of it: from all ranks returned from the epoch before to all ranks returned from the job's own. |
| TransportReturns.Opens | kt-kernel/fp8_layerwise_transport.cpp:276-310 | Once all ranks have returned, rank zero activates exactly the script's next job. |
| TransportRoundRobin.RoundRobinIsWhole | kt-kernel/fp8_layerwise_transport.cpp:271-463 | Such an execution exists for every configuration and every script: producer, callers, consumers and copy engines taking turns in a fixed order. |
| TransportRoundRobin.RoundRobinCompletes | kt-kernel/fp8_layerwise_transport.cpp:271-463 | So for every configuration and script a state is reachable in which all ranks have returned from the last job. |
| TransportEnding.CloseReturns | kt-kernel/fp8_layerwise_transport.cpp:453-463 | In every execution, failing or not, a `close` whose thread and whose rank's consumer get their turns returns, and the consumer has stopped by then. |
| TransportEnding.ConsumerEnds | kt-kernel/fp8_layerwise_transport.cpp:591-682 | In every execution a consumer whose stopping flag is set and that gets its turns stops. |
| TransportClean.CleanStep | kt-kernel/fp8_layerwise_transport.cpp:271-682 | One such step keeps the latch clear and leaves no thread in a catch clause, stopped, or closing. |
| TransportProgress.StepApproaches | kt-kernel/fp8_layerwise_transport.cpp:515-531 | The measure behind it: every step of an unfinished healthy epoch, by whichever thread, decreases the experts left to publish and acknowledge, or the due agent's way, or leaves the due agent due. |
| TransportProgress.WorkIsNatural | kt-kernel/fp8_layerwise_transport.cpp:617-646 | That measure is never negative, and the due agent is the producer or an existing rank's consumer or copy engine. |
| TransportDiscipline.NoProtocolErrors | kt-kernel/fp8_layerwise_transport.cpp:316-375 | If all ranks walk one script of strictly increasing epochs with arguments all accept, no interleaving with any failures, timeouts and closes reports a protocol error. |
| TransportSafety.StepKept | kt-kernel/fp8_layerwise_transport.cpp:271-682 | The invariant, some thirty local predicates over the shared part and one rank, survives each of the ten kinds of steps. |
| TransportSafety.RunInv | kt-kernel/fp8_layerwise_transport.cpp:271-682 | The invariant holds after every schedule. |
| TransportSafety.InitInv | kt-kernel/fp8_layerwise_transport.cpp:195-207 | The freshly initialised control region satisfies it. |
| TransportModel.ShapeKept | kt-kernel/fp8_layerwise_transport.cpp:66-92 | No step leaves the ranges of slots, kinds and ranks. |
| TransportObject.Transport.CallerOnce | kt-kernel/fp8_layerwise_transport.cpp:329-363 | One caller step in place; the step that stores wait_returned does so with every rank's GPU holding the epoch. |
| TransportObject.Transport.OpenerOnce | kt-kernel/fp8_layerwise_transport.cpp:276-310 | One step of rank zero's `join` in place: it activates a larger epoch, and it clears a byte counter, only when every rank has joined, consumed and returned from the old one and its end is announced. |
| TransportObject.Transport.ProducerOnce | kt-kernel/fp8_layerwise_transport.cpp:365-451 | One producer step in place; it touches neither ranks nor their memory, and moves the log only as history. |
| TransportObject.Transport.WriteBlock | kt-kernel/fp8_layerwise_transport.cpp:409-417 | The writer's store in place: the block lands in the current expert's slot at its rank and kind, every other slot, kind and rank keeps what it held, and no rank is copying from that slot or has still to. |
| TransportObject.Transport.ConsumerOnce | kt-kernel/fp8_layerwise_transport.cpp:591-682 | One consumer step in place; what is consumed stays a prefix of what is published. |
| TransportObject.Transport.CopyOnce | kt-kernel/fp8_layerwise_transport.cpp:570-572 | The oldest copy of a stream leaves it and brings onto the GPU, at its expert and kind, what the writer produced for that rank, and no other entry changes. |
| TransportObject.Transport.ReleasePoison | kt-kernel/fp8_layerwise_transport.cpp:181-181 | The winner of the claim sets the latch, with its own code. |
| TransportObject.Transport.Call | kt-kernel/fp8_layerwise_transport.cpp:271-274 | With the latch set a call other than `close` changes nothing; any call changes threads' places only, no cell, memory or history; a `wait` that gets in waits for what its rank joined, and only a `wait` for anything else claims the latch; a call gets in exactly when its thread is between calls on an open rank, the latch is healthy (or it is `close`), and its epoch, layer and count are in range. |
| TransportPoisoned.ConsumerEndsPoisoned | kt-kernel/fp8_layerwise_transport.cpp:591-682 | In every execution with the latch set, a consumer that gets its turns stops, wherever it stood. |
| TransportPoisoned.ProducerEndsPoisoned | kt-kernel/fp8_layerwise_transport.cpp:365-451 | In every execution with the latch set, a producer that gets its turns leaves `run_producer`, wherever it stood. |
| TransportBlame.CountersCleared | kt-kernel/fp8_layerwise_transport.cpp:305-310 | In every run, once rank zero has passed a rank's byte counter on its way to activating, and at the activation for every rank, that counter is zero. |
| TransportBlame.CodeTellsWhy | kt-kernel/fp8_layerwise_transport.cpp:174-182 | A step claims a healthy latch if and only if it has one of five reasons, and with that reason's code: a mismatch between what a thread asks for and the cell it reads, a deadline in a wait, a caught consumer failure of a rank not told to stop, a caught producer failure, a close in the middle of an epoch. |
| TransportBlame.FailureThrows | kt-kernel/fp8_layerwise_transport.cpp:409-448 | When the writer, a copy, an event or a deadline fails, the thread throws at that very step; nothing is published, acknowledged, finished or returned from. |
| TransportBlame.CatchTells | kt-kernel/fp8_layerwise_transport.cpp:444-450 | A catch clause ends its thread with the latch set, a consumer told to stop excepted. |
| TransportBlame.StoppingEndsWaits | kt-kernel/fp8_layerwise_transport.cpp:488-513 | On a rank told to stop every own step inside a wait brings its end nearer, whatever the latch. |
| TransportBlame.StoppingEndsZero | kt-kernel/fp8_layerwise_transport.cpp:515-531 | The same for the scans of the producer and of rank zero's `join`. |
| TransportBlame.CloseAlone | kt-kernel/fp8_layerwise_transport.cpp:453-463 | `close` run by itself: a rank that has finished the active epoch, or never had one, leaves a healthy latch healthy; any other reports that it closed in the middle; the rank is closed, its consumer told to stop, and nothing else changes. |
| PoisonLatch.LatchMoves | kt-kernel/fp8_layerwise_transport.cpp:174-182 | In every run the state moves only healthy, claimed, poisoned, one place at a time; winner and record never change once claimed; only the winner's steps change diagnostics, and none once poisoned. |
| PoisonLatch.NeverMixed | kt-kernel/fp8_layerwise_transport.cpp:156-172 | Every reader of `poison_message` reports the winner's complete record (text truncated to 255 characters) or that publication did not complete. |
| PoisonLatch.WinnerAsked | kt-kernel/fp8_layerwise_transport.cpp:174-182 | In every run the record is exactly what the winning thread's call was given. |
| PoisonLatch.StoredIsStart | kt-kernel/fp8_layerwise_transport.cpp:179-179 | The text kept is the beginning of the message, up to its first NUL and to 255 characters: a shorter message is kept whole. |
| PoisonLatch.PublisherEnds | kt-kernel/fp8_layerwise_transport.cpp:174-182 | In every run each own step of a publisher brings its end nearer, and when it has ended the latch is not healthy. |
| PoisonLatch.ReaderEnds | kt-kernel/fp8_layerwise_transport.cpp:156-172 | A reader that finds the latch not healthy begins; each own step brings its report nearer once the cell is set or its wait has expired; and with the cell set it never starts to report incompleteness. |
| PoisonLatch.TornStats | kt-kernel/fp8_layerwise_transport.cpp:357-360 | A concrete interleaving in which the statistics say "not poisoned" and carry the winner's code. |
| PoisonLatch.StatsWholeIff | kt-kernel/fp8_layerwise_transport.cpp:357-360 | From a reachable state the statistics are whole under every interleaving if and only if the latch is claimed or set and the cells already hold the winner's record; so always once it is set. |
| PoisonLatch.Diagnostics.PublishPoison | kt-kernel/fp8_layerwise_transport.cpp:174-182 | The first publisher leaves its code, rank and truncated text and sets the cell; a later one changes nothing. |
| PoisonLatch.Diagnostics.PoisonMessage | kt-kernel/fp8_layerwise_transport.cpp:156-172 | Reading a set cell returns the record stored in it, character by character up to the NUL; a claimed cell gives the incomplete report. |
| TaskQueueProofs.CalledInOrder | kt-kernel/cpu_backend/task_queue.cpp:67-82 | In every run the endings on record are, place by place, those of the requests in `tail.exchange` order (empty functions skipped, all others called), each once and none left out; what is booked at a place is the result of the call of that place; no node is touched after it was freed. |
| TaskQueueProofs.BoundedSync | kt-kernel/cpu_backend/task_queue.cpp:53-65 | When `sync(n)` may return and there was no shutdown, at most n of the enqueues begun are unfinished; the finished ones are the first in exchange order, their outcomes are the results of those very calls, and `sync` throws the outcome at the first place since the slot was last taken that has one, with no failure at any earlier place, and nothing exactly when no place has. |
| TaskQueueProofs.IdleMeansDrained | kt-kernel/cpu_backend/task_queue.cpp:71-95 | A sleeping worker that has no reason to wake, with no enqueue under way, has called everything, and pending is zero: the gap never hides a node for good. |
| TaskQueueProofs.WorkerMoves | kt-kernel/cpu_backend/task_queue.cpp:67-97 | In every run each own step of the worker brings it nearer to the end of what is placed, unless it has exited after a shutdown or sleeps behind the last linked node with none. |
| TaskQueueProofs.EnqueuerMoves | kt-kernel/cpu_backend/task_queue.cpp:42-51 | No enqueuer is ever held up; its last step links its node behind the one it displaced from the tail. |
| TaskQueueProofs.FreedExactlyOnce | kt-kernel/cpu_backend/task_queue.cpp:26-40 | No node is ever freed twice, and after the destructor's walk every node ever allocated was freed exactly once. |
| TaskQueueProofs.StepKept | kt-kernel/cpu_backend/task_queue.cpp:42-97 | Every step of every thread keeps the node-ownership, counting and error-slot invariant. |
| TaskQueueProofs.SyncPromise | kt-kernel/cpu_backend/task_queue.cpp:53-65 | The same for any state that satisfies the invariant: the bound, the link between places and outcomes, and the error slot as the failure at the first failing place. |
| TaskQueueObject.Queue.CountTask | kt-kernel/cpu_backend/task_queue.cpp:43-43 | Pending is incremented before anything else; the invariant is kept. |
| TaskQueueObject.Queue.AllocateNode | kt-kernel/cpu_backend/task_queue.cpp:44-44 | A node outside the order, owned by its enqueuer. |
| TaskQueueObject.Queue.ExchangeTail | kt-kernel/cpu_backend/task_queue.cpp:45-45 | The node takes its place in the order; its predecessor is not linked yet. |
| TaskQueueObject.Queue.LinkNode | kt-kernel/cpu_backend/task_queue.cpp:46-46 | The link is stored into a node that has not been freed. |
| TaskQueueObject.Queue.TakeFirstException | kt-kernel/cpu_backend/task_queue.cpp:53-65 | What is thrown is the failure at the first failing place among the tasks finished since the last take (nothing if none failed), and unless shut down all but `allowed` enqueues have finished. |
| TaskQueueObject.Queue.Look | kt-kernel/cpu_backend/task_queue.cpp:69-70 | The worker's loads of `done` and of `next`, from a node that has not been freed. |
| TaskQueueObject.Queue.CallNext | kt-kernel/cpu_backend/task_queue.cpp:71-79 | The worker calls the next request of the exchange order, and its result goes on record as that request's ending. |
| TaskQueueObject.Queue.Retire | kt-kernel/cpu_backend/task_queue.cpp:80-82 | The node deleted has then been deleted exactly once; the head stored has not been deleted. |
| TaskQueueObject.Queue.BookOutcome | kt-kernel/cpu_backend/task_queue.cpp:83-89 | After it every ending on record is booked at its place, and the slot holds the failure at the first failing place since it was last taken, nothing if there is none. |
| TaskQueueObject.Queue.StopWorker | kt-kernel/cpu_backend/task_queue.cpp:26-32 | The destructor sets done, with no client inside; the invariant is kept. |
| TaskQueueObject.Queue.FreeRemaining | kt-kernel/cpu_backend/task_queue.cpp:34-39 | The destructor's loop terminates and leaves every node freed exactly once. |
| CpuInfer.ErrorsConserved | kt-kernel/cpu_backend/cpuinfer.h:131-194 | In every run each failure is delivered, dropped behind an earlier one, or on its way (with the worker, in a slot, in a callback, being thrown), counted error by error; and while one has not been followed by a delivery, something is on its way. |
| CpuInfer.QuietSyncThrows | kt-kernel/cpu_backend/cpuinfer.h:136-141 | Once callbacks are quiet and the queue is drained, the next host `sync` throws a failure that happened whenever one is owed, and throws exactly when one of the two slots is filled. |
| CpuInfer.QuietSync | kt-kernel/cpu_backend/cpuinfer.h:136-141 | It throws the device slot's error first, else the queue's. |
| CpuInfer.HostMoves | kt-kernel/cpu_backend/cpuinfer.h:136-141 | Where a host's `sync` can go: it waits only with the device slot found empty, leaves the wait only at its own step with the queue ready and with the queue's error if there is one, looks at the device slot once more, and what it takes it throws. |
| CpuInfer.DeviceKeepsFirst | kt-kernel/cpu_backend/cpuinfer.h:168-194 | The device slot changes in two ways only: an error in it goes to a host that throws it, and an empty one takes what a callback has to record; so the first recorded is the one kept. |
| CpuInfer.QuietCallback | kt-kernel/cpu_backend/cpuinfer.h:143-150 | A callback's own failure, or the queue error its `sync_` throws, ends in the device slot unless an error is there already. |
| CpuInfer.QuietStreamSync | kt-kernel/cpu_backend/cpuinfer.h:152-166 | `sync_with_cuda_stream` throws exactly what the device slot holds and leaves the queue's alone. |
| CpuInfer.StepConserves | kt-kernel/cpu_backend/cpuinfer.h:143-194 | Every step conserves errors, the worker's call and its later booking included. |
| CpuInferQueue.NoErrorLost | kt-kernel/cpu_backend/task_queue.cpp:53-89 | Slots and linked queue run together, any schedule: every error thrown by a task the queue called, or by a device callback, is delivered, dropped behind an earlier one, still carried by the worker between call and booking, in the queue's `first_exception`, in the device slot, in a callback, or being thrown; counted error by error. |
| CpuInferQueue.DrainedSyncThrows | kt-kernel/cpu_backend/cpuinfer.h:136-141 | With the queue's pending count zero and no callback or host at work, `sync` throws exactly when a slot is filled, always while a failure is owed, and only what a called task or a device callback threw. |
| CpuInferQueue.QueueRefines | kt-kernel/cpu_backend/task_queue.cpp:67-89 | Every step of the linked queue is the corresponding step of the slot model (enqueue, call, book, stop), or leaves what the slots see unchanged. |
| CpuInferQueue.MovesOfSlots | kt-kernel/cpu_backend/cpuinfer.h:131-194 | Every step of a host or a callback in the slot model is a step of the two together. |
| CpuInferQueue.SyncRefines | kt-kernel/cpu_backend/task_queue.cpp:53-65 | The queue's locked region of `sync` is, for a host and for a callback, the slot model's take. |
| CpuInferQueue.HostLeavesIff | kt-kernel/cpu_backend/task_queue.cpp:53-65 | For every move of anybody: a host leaves its wait in `sync(n)` if and only if the move is its own turn in the queue's locked region and the queue has at most n pending or is done. |
| CpuInferQueue.CallbackLeavesIff | kt-kernel/cpu_backend/cpuinfer.h:143-150 | The same for a device callback in `sync_`. |
| CpuInferQueue.SyncWaits | kt-kernel/cpu_backend/cpuinfer.h:131-141 | In every run: if a host that waited in `sync(n)` waits no longer, there was a step of its own at which at most n of the enqueues begun were unfinished (unless shut down), and it went on with the failure at the first failing place since the last take, or with none when there was none. |
| CpuInferQueue.CallbackGoes | kt-kernel/cpu_backend/cpuinfer.h:143-150 | The same for a device callback, step by step. |
| CpuInferQueue.SlotsRun | kt-kernel/cpu_backend/cpuinfer.h:131-194 | Every run of the two together is, seen from the slots, a run of the slot model, so its theorems carry over. |
| CpuInfer.Slots.Sync | kt-kernel/cpu_backend/cpuinfer.h:136-141 | The method agrees with the interleaved model run alone, and what it does not throw stays in its slot. |
| CpuInfer.Slots.RethrowDevice | kt-kernel/cpu_backend/cpuinfer.h:168-178 | Takes the device slot and throws what was in it. |
| CpuInfer.Slots.RecordDevice | kt-kernel/cpu_backend/cpuinfer.h:185-194 | Keeps an earlier error, otherwise stores the new one. |
| CpuInfer.Slots.RunSyncCallback | kt-kernel/cpu_backend/cpuinfer.h:143-150 | An error taken from the queue ends in the device slot. |
| WorkerPoolTheorems.ExactlyOnce | kt-kernel/cpu_backend/worker_pool.cpp:143-210 | When the call returns, every index was computed once, each active thread (and thread 0 in any case) went through init and finalize once and no other did, all threads poll, and the counter is at most worker_count - 1 past the end. |
| WorkerPoolTheorems.NoTasksStillInits | kt-kernel/cpu_backend/worker_pool.cpp:155-166 | A concrete call with no tasks that is about to return with worker count zero, having run init and finalize once on thread 0. |
| WorkerPoolTheorems.SameAsSequential | kt-kernel/cpu_backend/worker_pool.cpp:149-203 | For tasks on their own cells, a job started on an idle pool after any earlier run leaves what the sequential loop leaves, under every interleaving. |
| WorkerPoolTheorems.NoStaleJob | kt-kernel/cpu_backend/worker_pool.cpp:118-122 | Between calls every thread polls with status WAITING, so the job's fields are replaced while nobody reads them and no earlier closure can run. |
| WorkerPoolTheorems.JobProgress | kt-kernel/cpu_backend/worker_pool.cpp:118-236 | In every reachable state every effective step lowers a measure, and during a call some step is effective: the barrier never deadlocks and a job takes boundedly many effective steps. |
| WorkerPool.StepKept | kt-kernel/cpu_backend/worker_pool.cpp:149-236 | Every step keeps the thread, claim, cell and counter invariants. |
| WorkerPoolObject.InNumaPool.StoreJob | kt-kernel/cpu_backend/worker_pool.cpp:152-157 | The fields of a job are stored while every thread is polling. |
| WorkerPoolObject.InNumaPool.Advance | kt-kernel/cpu_backend/worker_pool.cpp:158-166 | One step of the calling thread, releasing workers and polling their statuses. |
| WorkerPoolObject.InNumaPool.ClaimTask | kt-kernel/cpu_backend/worker_pool.cpp:178-191 | A claim gets the counter's old value and computes it exactly if it is below the end. |
| WorkerPoolObject.InNumaPool.Compute | kt-kernel/cpu_backend/worker_pool.cpp:193-198 | The claimed index is applied to its cell. |
| WorkerPoolObject.InNumaPool.Work | kt-kernel/cpu_backend/worker_pool.cpp:201-223 | The remaining steps of a thread, in place. |
| WorkerPoolObject.SequentialLoop | kt-kernel/cpu_backend/worker_pool.cpp:193-198 | The reference loop computes the reference function. |
| MoeDispatch.MoeInfer | kt-kernel/examples/modeling_deepseek_v3.py:536-609 | The sorted form succeeds if and only if there are slots and no token repeats an expert, and then gives, for every sorting permutation, each token the last of its running sums: from zero, slot by slot in order, plus its own expert's output scaled by that slot's weight. |
| MoeDispatch.MoeBatched | kt-kernel/bench/bench_moe_torch.py:175-202 | The batched form gives every token of every routed batch those running sums over its own slots. |
| MoeDispatch.FormsDiffer | kt-kernel/examples/modeling_deepseek_v3.py:537-543 | On one token that names expert 0 in both slots the sorted form is refused and the batched form gives the weighted sum of the expert's output with itself. |
| MoeDispatch.SortedKeys | kt-kernel/bench/bench_moe_torch.py:105-124 | With distinct experts per token, expanding the counts gives the sorted keys: each counted segment is exactly that expert's slots. |
| MoeDispatch.CountsComplete | kt-kernel/bench/bench_moe_torch.py:105-107 | The scattered 0/1 counts add up to the number of slots if and only if no token repeats an expert, and then are the frequencies. |
| MoeDispatch.RunSegments | kt-kernel/bench/bench_moe_torch.py:112-124 | The loop with its running start index applies to every row the expert of its segment, for any counts, skipping empty ones. |
| MoeDispatch.Scatter | kt-kernel/bench/bench_moe_torch.py:126-128 | `reordered[idxs] = out` puts row i at idxs[i]. |
| MoeDispatch.ScatterUndoesSort | kt-kernel/examples/modeling_deepseek_v3.py:600-601 | Gathering by a permutation, applying row by row and scattering back is applying row by row. |
| MoeDispatch.CombineSlots | kt-kernel/examples/modeling_deepseek_v3.py:602-608 | The flat rows viewed as tokens by slots and reduced are each token's running sums over its own slots. |
| Segments.SegmentsAreRuns | kt-kernel/examples/modeling_deepseek_v3.py:577-587 | A sorted sequence is the expansion of its own frequencies. |
| Segments.GatherKeeps | kt-kernel/examples/modeling_deepseek_v3.py:540-541 | Indexing by a permutation keeps all elements with multiplicity. |
| ExpertParallel.MoeInferParallel | kt-kernel/examples/modeling_deepseek_v3.py:543-609 | For any number of ranks and tokens and any sorting permutations, each rank ends as told without exchanges: the running sums of its own tokens over their own slots, a shape error, or stranded by another rank's error. |
| ExpertParallel.ExchangeAndRun | kt-kernel/examples/modeling_deepseek_v3.py:560-598 | Exchange, owners' work, exchange back: every rank gets its own rows back, each through its global expert. |
| ExpertParallel.SizesAgree | kt-kernel/examples/modeling_deepseek_v3.py:548-563 | The sizes announced in the first exchange are the sizes received in the second, on every pair of ranks. |
| ExpertParallel.LabelReceived | kt-kernel/examples/modeling_deepseek_v3.py:567-571 | The filling loop labels every received row with its expert number modulo the experts per rank. |
| ExpertParallel.LocalKeys | kt-kernel/examples/modeling_deepseek_v3.py:567-571 | Those labels are the senders' local segments, end to end. |
| ExpertParallel.RunLocalExperts | kt-kernel/examples/modeling_deepseek_v3.py:564-592 | Sorting the received rows by label, running segments and scattering back applies to each received row the owner's expert of its label. |
| ExpertParallel.SenderBlocks | kt-kernel/examples/modeling_deepseek_v3.py:593-598 | The blocks returned by the owners, in rank order, are the sender's sorted rows through their global experts. |
| ExpertParallel.Stranded | kt-kernel/examples/modeling_deepseek_v3.py:559-563 | If some rank's split sizes do not add up, that rank raises and every other rank is left in the exchange. |
| MoeGate.Choose | kt-kernel/examples/modeling_deepseek_v3.py:440-461 | The chosen groups have the largest top-two sums; the selected experts are distinct, and are the best of the chosen groups exactly when those hold at least top_k experts. |
| MoeGate.StaysInGroupsIff | kt-kernel/examples/modeling_deepseek_v3.py:449-461 | The selection stays inside the chosen groups if and only if top_k is at most topk_group times the group width. |
| MoeGate.LeavesItsGroup | kt-kernel/examples/modeling_deepseek_v3.py:458-461 | With two groups of two experts, one group chosen and three experts selected, every result of the masked top-k contains an expert outside the group. |
| MoeGate.MaskedTopKIsBest | kt-kernel/examples/modeling_deepseek_v3.py:458-461 | Under that condition the masked top-k may return a list if and only if it is a list of best experts of the chosen groups. |
| MoeGate.TopGroupsAreBest | kt-kernel/examples/modeling_deepseek_v3.py:441-448 | Top-k over top-two sums gives groups that no other group beats. |
| MoeGate.NormalisedWeights | kt-kernel/examples/modeling_deepseek_v3.py:462-472 | Over the reals normalised weights are positive and keep the proportions of the scores. |
| MoeGate.NormalisedSum | kt-kernel/examples/modeling_deepseek_v3.py:469-472 | They add up to the scaling factor times S/(S+1e-20), hence to less than the scaling factor. |
| MoeGate.MoeForward | kt-kernel/examples/modeling_deepseek_v3.py:523-533 | Gate and dispatch together: refused only for unsupported configurations or no slots, otherwise each token gets the running sums over the experts the gate chose for it; in its own scores and biases, no pair of experts of a group left out beats the best pair of a chosen one, no expert left out of the chosen groups beats one selected, and the weights are the selected scores (as shares of their sum plus 1e-20 when normalised) times the scaling factor. |
| MoeGate.GatedIsRouted | kt-kernel/examples/modeling_deepseek_v3.py:523-530 | Whatever the gate returns meets what dispatch needs. |
| SharedMemBuffer.Buffer.Alloc | kt-kernel/cpu_backend/shared_mem_buffer.cpp:49-75 | Everything registered before is still registered at its place, the new request comes after its owner's others, and nothing else is; every cell of all of them is the current base plus the sizes before it; the size is the largest total ever asked for; it fails only if it had to grow and could not. |
| SharedMemBuffer.BothFollow | kt-kernel/cpu_backend/test/test_shared_mem_buffer_lifetime.cpp:76-82 | Two live requests of one owner and a larger one of another owner that moves the arena: all cells point into the new buffer. |
| SharedMemBuffer.Buffer.Dealloc | kt-kernel/cpu_backend/shared_mem_buffer.cpp:77-80 | The owner's requests are forgotten, everything else stays valid, base and size stay. |
| SharedMemBuffer.Buffer.UpdateBasePtr | kt-kernel/cpu_backend/shared_mem_buffer.cpp:25-31 | Each cell gets base plus the sizes before it; other cells are untouched. |
| SharedMemBuffer.Buffer.UpdateAll | kt-kernel/cpu_backend/shared_mem_buffer.cpp:67-71 | Whatever order the owners are visited in, all registered cells end at the new base. |
| SharedMemBuffer.Buffer.TotalSize | kt-kernel/cpu_backend/shared_mem_buffer.cpp:17-23 | The loop computes the sum of the sizes. |
| SharedMemBuffer.PiecesDisjoint | kt-kernel/cpu_backend/shared_mem_buffer.cpp:25-31 | Every piece of a registered request, of one pointer or many, lies inside the buffer, and ends before any later piece of the request begins. |

## Left out

- TransportModel.Step: memory is sequentially consistent; the release stores and acquire loads are steps in the order the code gives, and no weaker order is considered.
- TransportModel.Step: epochs and sequence numbers are unbounded; the wrap of the 64-bit counters, and of the byte product in the GPU offset, is not modelled. The byte statistics are modulo 2^64.
- TransportModel.Step: when a wait's predicate comes out false, the look at the latch and at the stopping flag happens in the same step as the failing load.
- TransportModel.Step: the consumer's start-up failure, a second transport for one rank, and initialising a live control region are not part of it; each rank's host slots are the ones rank zero writes through.
- TransportModel.Step: the transport keeps the error code of the latch only; rank and text are in PoisonLatch.
- TransportProgress.HealthyEpochsEnd: the producer, the consumers and the copy engines are assumed to get their turns; the wall-clock timeout is a step that may happen, and sets the latch. CleanEpochsFinish is the statement without timeouts, errors and closes.
- TransportCompletes.ScriptCompletes: what the callers do is the assumption (`TransportScript.Whole`): they follow the script, join only after they have returned, and make their next call in the end; a caller that stops calling holds the others up in the code too, until the timeout.
- TransportDiscipline.NoProtocolErrors: the callers' script is the assumption; without it a protocol error is the code's intended answer.
- PoisonLatch.ReadStats: the statistics' other fields and the timings are not modelled there.
- TaskQueueProofs.IdleMeansDrained: that a wake-up reaches the right waiter (one condition variable serves worker and sync, and enqueue wakes one) is not claimed; waits are guarded steps.
- TaskQueue.ShutdownStep: the destructor is entered only when no client is inside `enqueue`, as C++ demands of any object's users.
- CpuInfer.RecordStep: the failure of the device mutex itself, which the code swallows together with the error, is not modelled.
- CpuInfer.Next: launching callbacks on a device stream, their order in the stream and the launch's own failure are not modelled; any number of them may run at once.
- CpuInferQueue.Step: the queue's `sync` is called through CPUInfer only; after the queue is told to stop no new enqueue begins, as in TaskQueue.
- WorkerPool.StartStep: the six fields of a job are stored in one step, which NoStaleJob justifies; the restricted worker count is fixed, `do_work_stealing_job_async` without `wait` and the pool's destructor are left out, and so is a task that throws.
- WorkerPoolTheorems.SameAsSequential: a task changes only its own cell.
- NumaJobDistributor: the same status barrier without the shared counter; it would only repeat the pool's claims.
- MoeDispatch.MoeInfer: expert numbers outside the layer are not modelled, since the gate never produces one; types, devices and rounding are not either.
- ExpertParallel.MoeInferParallel: the expert count is a multiple of the number of ranks, as the view in the code demands; a collective is a block transpose that completes when every rank enters it.
- MoeGate.Weights: scores are positive reals, as the logistic function's are; floating-point rounding and underflow are not modelled, and neither is the matrix product before it.
- moe_expert_int8, moe_batched_einsum, shared experts: numeric variants of the same dispatch.
- SharedMemBuffer.Buffer.Alloc: registered pointer cells are pairwise distinct, as they are for members of distinct objects; general registered functions, 64-bit overflow of sizes, alignment and the per-node SharedMemBufferNuma map are left out.
- Thread pinning, memory binding, CUDA and hwloc calls, Python bindings, timing statistics and the progress mixer that only refreshes a deadline.
- Attention, rotary embedding, normalisation, quantisation, benchmarks' drivers and scripts.
