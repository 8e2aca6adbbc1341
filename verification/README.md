# mtdp: verification of the pipeline and of its block deque

mtdp moves user buffers through a chain of threads. A pipeline has a source, `n` internal stages
and a sink, each with a thread of its own, and `n + 1` pipes between them. A pipe holds a pool of
empty buffers (a stack), a FIFO of full ones (a deque of blocks that grows and shifts in place),
two mutexes and a semaphore. This project models the default, dynamic configuration and proves what
the library is for:

* whatever the threads' interleaving, the sink is given a prefix of what running the callbacks one
  after the other would give; nothing is lost, duplicated, reordered or overwritten, also across
  stop and start;
* no buffer is ever in two places or in none, the library's own assertion never fires, returning a
  buffer never fails, and disabling gives every buffer back;
* the pipeline does not deadlock, and after the source has ended every fair schedule empties it;
* the block deque is a queue under every pattern of allocation failures, within a memory bound and
  an amortised cost;
* no wake-up of a worker is lost, and the two mutexes of a pipe never end in a circular wait.

## How the files go together

* `FifoShape`, `BlockChain`, `Fifo`, `FifoClient`: the deque of `src/buffer.c` as a class over a
  real vector of real block arrays. Its shape (claimed blocks, capacity, offset, size) follows a
  function of the old shape and the allocator's answers, and the bounds over whole runs are proved
  about that function. Allocation results are parameters, the block size is any positive number and
  the filling ratio any positive fraction.
* `Pool`, `PipeImpl`: the pool and the pipe as classes. Each critical section of `src/pipe.c` is
  proved to do to the view of the pipe what `Channel` says on values.
* `Program`, `Channel`, `Machine`: the pipeline as a transition system for any `n`. A step is one
  critical section, one semaphore operation, one callback or one group of writes to the thread's own
  context, with an explicit program counter per worker. Callbacks are arbitrary deterministic
  functions of the user data and the input's contents; the contents of the buffers are in the state.
* `Turns`, `StepEffects`, `Session`: the real pipes of a whole pipeline and the real contexts of its
  threads. Each critical section does its work on them and records the step it stands for; the session
  is valid when pipes and contexts are those of the transition system after the recorded schedule, each
  pool still has the array that the user was given, and every refused push found its deque full. So everything proved about reachable states
  holds of the real objects. `Perform` takes one turn of any thread, or of the user who switches or
  destroys a worker; between two critical sections of a thread the others take any turns (`Others`).
* `RoutineParts`, `StageRoutine`, `SourceRoutine`, `SinkRoutine`: the three routines as methods on a
  session. `Grew` says what a routine has done to the session: steps of its own worker inside the
  callback, one round of them, each decided by what the allocator and the semaphore answered, and the
  given turns of the others, nothing else; so what one thread does leaves the context of every other one
  as it was. `Rounds` has each routine as one function, which the single steps come to.
* `Clearing`, `Pipeline`, `Lifetime`: starting, stopping, joining and clearing on a session; a thread
  with its loop and routine; and one method from new pipes to the buffers in the user's hands again.
* `Invariant`, `Steps`, `Reachable`: the inductive invariant. Ownership goes by program counter: right
  after a push (or a put-back) the context still names a buffer that the pipe owns already.
* `Safety`, `Progress`, `Drain`, `Stopping`: what follows from it.
* `WorkerGate`, `Lock2`: the worker's mutex and condition variable, and the two mutexes of a pipe,
  one lock, wait and signal at a time, for any number of threads.

Four findings are stated. The documentation (include/mtdp/pipeline.h:57-61) says that after the source
has ended the pipeline finishes what was filled in the buffers; a buffer flagged in the very call that
declares the end is never pushed, and that is the only exception (`NothingFlaggedIsLostExactlyWhen`;
`OneShotIsLost` and `OneShotHappens` give the input). Resizing a pipe gives the number of buffers asked
for exactly when its pool was full (`Pipe.Resize`; `ResizeMisses` gives the input). The loop of
`mtdp_lock2` cannot deadlock but can livelock: under every fair schedule without new calls some thread
in the loop returns, if and only if at most one thread is in it (`LivelockFreeExactly`). New calls that
lock one of the two mutexes for ever could starve even a lone thread. Without assertions the loop is run
only by resizing and clearing. With filling ratio 0, which the build accepts, the deque soon reads
before its block, and only then (`PopsStayInsideExactly`).

## Model

| member | source | states |
|---|---|---|
| Arithmetic.CeilLog2IsLeast | src/buffer.c:66 | the integer exponent is the least one whose power of two reaches the number |
| Arithmetic.GrowthDoubles | src/buffer.c:301 | growing a capacity that is a power of two doubles it and gives a power of two again |
| FifoShape.FreshIsWellShaped | src/buffer.c:204-217 | a new deque has the shape invariant that no line of the code states |
| FifoShape.ReserveCases | src/buffer.c:357-378 | what asking for a block comes to, for each pair of answers of the allocator |
| FifoShape.ReserveKeepsShape | src/buffer.c:357-378 | a further block is claimed only when all others are in use |
| FifoShape.ShiftKeepsShape | src/buffer.c:384-387 | shifting keeps the invariant and the size |
| FifoShape.PushKeepsShape | src/buffer.c:317-412 | a push keeps the invariant whatever the allocator answers |
| FifoShape.PushFailsExactlyWhen | src/buffer.c:357-411 | a push is refused if and only if every slot is taken and a needed allocation was refused (or the ratio never asks for one) |
| FifoShape.PushExactly | src/buffer.c:357-398 | the filling ratio decides, in numbers: memory is asked for exactly when there is no room on the left and the ratio is reached; a granted block takes the push without moving anything; otherwise all elements move, exactly when there is room on the right |
| FifoShape.PopKeepsShape | src/buffer.c:414-462 | a pop keeps the oldest element in the last block |
| FifoShape.RatioZeroBreaksTheInvariant | src/buffer.c:364 | with filling ratio 0 a run of B pushes, B pops and a push breaks the invariant, and the next pop computes an entry before its block |
| FifoShape.PositiveRatioExactly | src/buffer.c:364 | every run keeps the invariant if and only if the ratio is positive |
| FifoShape.PopsStayInsideExactly | src/buffer.c:436-438 | after every run the next pop stays inside the last block if and only if the ratio is positive |
| FifoShape.RunIsBounded | src/buffer.c:355-377 | over every run the blocks beyond two are paid for by the largest size reached |
| FifoShape.PeakIsReached | src/buffer.c:300-377 | the peak in these bounds is the largest size the run reaches |
| FifoShape.MemoryBound | src/buffer.c:300-377 | over every run at most peak/B + 2 blocks are held, in a vector at most twice as long |
| FifoShape.ShiftOnlyInOneBlock | src/buffer.c:357-387 | with a ratio of at most one half only a deque of one block shifts, and only when less than half full |
| FifoShape.StepPaysForShifts | src/buffer.c:241-280 | the potential pays for every shift |
| FifoShape.AmortisedCost | src/buffer.c:241-387 | with granted allocations and that ratio, a run moves no more elements than it pushes |
| BlockChain.FlatAt | src/buffer.c:395-397 | logical slot k is entry k % B of block k / B |
| BlockChain.MirrorSlot | src/buffer.c:270-274 | the index arithmetic counted from the right names the mirrored slot |
| BlockChain.ShiftOneMore | src/buffer.c:269-277 | a round of the overlapping move destroys no element that is still to be read |
| BlockChain.RotatedElements | src/buffer.c:451-456 | the rotation permutes the blocks |
| BlockChain.RotatedHolds | src/buffer.c:440-458 | rotating the emptied last block keeps the queue |
| BlockChain.OccupiedBlocks | src/buffer.c:452 | the loop bound of the rotation is the number of blocks still occupied right of the first |
| Fifo.Fifo.Init | src/buffer.c:171-217 | a new deque is empty and has one free block |
| Fifo.Fifo.CopyToTheRight | src/buffer.c:270-276 | one round copies the mirrored slot and changes no other |
| Fifo.Fifo.RightShift | src/buffer.c:241-280 | the in-place shift moves the whole queue to the right end, in order |
| Fifo.Fifo.AlignRight | src/buffer.c:307-309 | the copy to the right end leaves the old prefix intact |
| Fifo.Fifo.TryReserveABlock | src/buffer.c:291-314 | a grown vector is right-aligned and still shows the claimed blocks through the old capacity |
| Fifo.Fifo.ClaimBlock | src/buffer.c:368-376 | a claimed block gives B free slots on the left of the same queue |
| Fifo.Fifo.AskForABlock | src/buffer.c:357-378 | the blocks are found through the caller's capacity even when the vector grew and the block was refused |
| Fifo.Fifo.Reserve | src/buffer.c:333-378 | the first branch of a push follows the shape function, keeps the queue and every block, and claims at most one new one |
| Fifo.Fifo.TakeSlot | src/buffer.c:393-398 | the slot taken with the possibly stale capacity is the one left of the queue |
| Fifo.Fifo.PushBack | src/buffer.c:403-412 | a push appends to the queue, or changes nothing in it when refused, exactly as the shape function says; no block is ever lost, and a block is claimed or the vector doubled exactly when the filling ratio asks for it and memory is granted |
| Fifo.Fifo.RotateVector | src/buffer.c:451-456 | the pointer loop moves the last entry k places to the left and nothing else |
| Fifo.Fifo.ExposeLastBlock | src/buffer.c:440-458 | the emptied last block becomes a free one on the left, no block is lost |
| Fifo.Fifo.FrontSlot | src/buffer.c:436-438 | the oldest element is in the last block, at the computed entry |
| Fifo.Fifo.PopFront | src/buffer.c:414-473 | a pop removes and returns the oldest element, and fails exactly when empty |
| Fifo.Fifo.Destroy | src/buffer.c:219-239 | every block ever allocated is released, each once |
| FifoClient.WithinBounds | src/buffer.c:300-377 | memory bound and amortised cost of a real deque after any run |
| FifoClient.ReplayAndDestroy | src/buffer.c:219-239 | after any run, exactly the blocks handed out by the allocator during it are released, each once |
| FifoClient.Replay | test/fifo.c:36-55 | for every run and every failure pattern, what comes out followed by what is left is what was stored, in order |
| Pool.Pool.Realloc | src/buffer.c:31-43 | reallocation keeps the old entries, and everything when refused |
| Pool.Pool.PreventiveRealloc | src/buffer.c:58-71 | room for one more, without the allocator if there is room already |
| Pool.Pool.PushBack | src/buffer.c:96-104 | a push on the stack; with spare capacity the array stays the same |
| Pool.Pool.PopBack | src/buffer.c:106-113 | takes the last buffer, none if empty |
| Pool.Pool.Resize | src/buffer.c:124-149 | moves the size by what the capacity would gain or lose |
| Channel.GrownPoolIsLeast | src/buffer.c:58-71 | a full pool grows to the least power of two with room for one more, at least 16 |
| PipeImpl.Pipe.Init | src/pipe.c:148-172 | a new pipe is an empty channel |
| PipeImpl.Pipe.GetEmptyBuffer | src/pipe.c:184-196 | does to the view what the channel does |
| PipeImpl.Pipe.PushBuffer | src/pipe.c:198-210 | appends to the channel, or leaves it unchanged exactly when the deque is full and memory refused |
| PipeImpl.Pipe.GetFullBuffer | src/pipe.c:212-224 | takes the oldest buffer of the channel |
| PipeImpl.Pipe.PutBack | src/pipe.c:226-238 | returns a buffer; with room, in the same array |
| PipeImpl.Pipe.CheckInvariants | src/pipe.c:54-70 | computes the asserted condition of the view |
| PipeImpl.Pipe.Clear | src/pipe.c:130-146 | moves every queued buffer to the pool, oldest first, and loses one only with neither room nor memory |
| PipeImpl.Pipe.Resize | src/pipe.c:72-120 | exactly when growing gives the number asked for, and exactly when the library's assertion holds afterwards |
| PipeImpl.NewPipe | src/pipe.c:72-172 | a pipe sized once and filled is the channel the transition system starts from |
| PipeImpl.ResizeMisses | src/pipe.c:72-120 | a pipe of four buffers, three of them queued, resized to six has three buffers, and the library's assertion fails |
| Turns.OthersLeave | src/pipeline.c:232-288 | whatever the others do, a worker stays where it is, up to its two flags |
| Turns.GrewLeavesOthers | src/worker.c:86-96 | what one thread does, with the turns given to others in between, leaves every worker without such a turn as it was |
| StepEffects.NothingRefused | src/stage.c:82-155 | with memory granted and waits undisturbed no step of a worker is refused |
| StepEffects.GenerousTurnIsGranted | src/worker.c:86-96 | nor a turn of any other thread |
| Session.NewPipes | src/pipeline.c:109-121 | all pipes of a pipeline, sized and filled, share no memory; refused exactly when memory that is needed is refused |
| Session.Session.Enable | src/pipeline.c:175-198 | sized and filled pipes and fresh contexts are the initial state of the transition system; no flag is set and every context is empty |
| Session.Session.RealPipesAreReachable | src/pipe.c:184-238 | at every moment the real pipes are those of a reachable state, in the arrays the user was given: conservation, the library's assertion and schedule independence hold of them |
| Session.Session.RefusedPushesWereFull | src/buffer.c:355-398 | every push that was ever refused found all slots of the deque's blocks taken |
| Session.Session.AtPush | src/stage.c:88 | a push on the real deque is the recorded step, and is refused exactly when the deque is full and gets no memory |
| Session.Session.AtPost | src/stage.c:89 | the release of the real semaphore is the recorded step |
| Session.Session.AtTake | src/stage.c:131-133 | the pop from the real pool is the recorded step |
| Session.Session.AtAcquire | src/stage.c:109 | the wait on the real semaphore is the recorded step and succeeds exactly when there is a permit in time |
| Session.Session.AtPull | src/stage.c:122-128 | the pop from the real deque is the recorded step, and after a permit it always yields a buffer |
| Session.Session.AtPutBack | src/stage.c:143 | the put-back is the recorded step and always succeeds |
| Session.Session.SourceCallback | src/source.c:58-64 | init before the first call only, then process |
| Session.Session.SourceAtCall | src/source.c:57-109 | the callback's write and flags, and its declaration of the end, are the recorded step |
| Session.Session.StageCallback | src/stage.c:135-141 | init before the first call only, then process |
| Session.Session.StageAtCall | src/stage.c:134-141 | the callback's write and flags are the recorded step, on what its input buffer really holds |
| Session.Session.SinkAtCall | src/sink.c:82-89 | the callback's flags are the recorded step, on what its input buffer really holds |
| Session.Session.SwitchWorker | src/worker.c:127-153 | the real flag and the recorded step agree |
| Session.Session.DestroyWorker | src/worker.c:155-163 | the real flag and the recorded step agree |
| Session.Session.TakeTurn | src/worker.c:86-96 | wherever a thread is, its next step can be done on the real objects and is the recorded one; a push is refused exactly when the deque is full and gets no memory, a wait exactly when it is disturbed |
| Session.Session.Run | src/worker.c:86-163 | any turns of anybody lead from valid sessions to valid ones, by exactly the actions of these turns |
| Session.Session.Others | src/stage.c:82-155 | between two critical sections the others take any turns on the real objects; the worker stays where it is |
| Session.Session.Pass | src/worker.c:86-95 | the worker loop up to the callback, on the real flags; a worker still at the gate has found it closed |
| RoutineParts.PushIfReady | src/stage.c:87-98 | a flagged buffer is pushed, its permit released and its fields reset, and the routine returns before that only when the deque is full and gets no memory |
| RoutineParts.PullIfReady | src/stage.c:99-129 | an input is fetched if one is wanted and comes in time; after a permit there always is one |
| RoutineParts.TakeIfNone | src/stage.c:131-133 | an empty buffer is asked for unless there is one already |
| RoutineParts.ReturnInput | src/sink.c:41-51 | the put-back always succeeds and the field is reset, so the branch for its failure is dead |
| StageRoutine.ProcessAndReturn | src/stage.c:135-145 | one callback on the input's contents; the input is put back exactly when the callback asks for the next one |
| StageRoutine.Routine | src/stage.c:82-155 | from first line to return, on the real pipes and context: one round of the stage's own steps, decided by what is answered to them, and the given turns of the others, nothing else |
| SourceRoutine.Routine | src/source.c:36-70 | the same for the source |
| SinkRoutine.Routine | src/sink.c:36-96 | the same for the sink |
| Rounds.SourceRoundIsRoutine | src/source.c:36-70 | a source left alone does in its steps what the routine does as one function |
| Rounds.StageRoundIsRoutine | src/stage.c:82-155 | so does a stage: push, release and reset, then fetch, then callback and put-back, returning early where the code does |
| Rounds.SinkRoundIsRoutine | src/sink.c:36-96 | so does the sink |
| Program.StreamIsPrepared | src/source.c:58-63 | `init` runs once: the sequential composition is that of the same callbacks on user data initialized beforehand |
| Program.RunStage | src/stage.c:130-146 | the sequential run uses no more inputs and calls than there are |
| Program.RunStageExtends | src/stage.c:141-145 | a run goes the same way when more inputs follow |
| Invariant.InitHolds | src/pipeline.c:175-198 | the enabled pipeline satisfies the invariant |
| Invariant.PushKeepsPipe | src/stage.c:88 | a push keeps conservation, ledger and contents of the pipe |
| Invariant.TakeKeepsPipe | src/stage.c:131-133 | so does taking an empty buffer |
| Invariant.WriteKeepsPipe | src/stage.c:141 | a callback writes only the buffer in its hand, so nothing queued or in use is overwritten |
| Invariant.PullKeepsPipe | src/stage.c:122-128 | a granted permit always yields a buffer |
| Invariant.PutBackHasRoom | src/buffer.c:96-104 | the pool has room for every buffer that is returned |
| Invariant.PutBackKeepsPipe | src/stage.c:142-145 | returning a buffer keeps the pipe |
| Steps.SourceKeepsItself | src/source.c:36-70 | the source stays in step with its sequential run |
| Steps.StageKeepsItself | src/stage.c:82-155 | a stage stays in step with its sequential run |
| Steps.SinkKeepsItself | src/sink.c:36-96 | the sink stays in step with its sequential run |
| Reachable.StepKeepsInv | src/worker.c:86-96 | every step of any worker or control thread keeps the invariant |
| Reachable.ExecKeepsInv | src/worker.c:86-96 | so does every schedule |
| Safety.BufferConservation | src/pipe.c:54-70 | in every reachable state each buffer is in exactly one place, and the library's assertion holds |
| Safety.SemaphoreLedger | src/stage.c:109-127 | the semaphore counts the full buffers up to one push and one pop in progress; the branch without a buffer is dead |
| Safety.PutBackNeverFails | src/sink.c:41-51 | a put-back succeeds without the allocator and keeps the pool's array |
| Safety.ScheduleIndependence | src/stage.c:82-155 | under every schedule the sink gets a prefix of the sequential composition, and user data agree with it |
| Safety.InitRunsOnce | src/stage.c:135-140 | in every reachable state, user data before the first call are the user's own, and from then on what the callbacks make of the initialized ones |
| Safety.NothingLostOrOverwritten | src/pipe.c:198-224 | what was pushed is what was popped followed by what the queued buffers hold now |
| Safety.ExecContinues | src/pipeline.c:232-288 | no schedule, with whatever stops and restarts, takes back what has gone through a pipe |
| Safety.FinishedSourceHasSentAll | src/source.c:103-109 | once the stream has ended everything flagged in earlier calls has been pushed |
| Safety.NothingFlaggedIsLostExactlyWhen | src/source.c:41-109 | everything flagged gets into the first pipe if and only if the finishing call does not flag |
| Safety.OneShotIsLost | examples/finite_datastream.c:100-123 | a source that flags and ends in one call never gets its buffer pushed |
| Safety.OneShotHappens | examples/finite_datastream.c:100-123 | with one buffer such a source gets there in six steps |
| Safety.StageMonotone | src/stage.c:82-155 | more inputs and more calls give more outputs, never different ones |
| Safety.Determinacy | src/pipeline.c:232-288 | any two runs, with any numbers of buffers, give the sink the same items in the same order |
| Safety.SinkSeesMappedItems | src/stage.c:130-146 | with one output per input, item j at the sink is item j of the source after all stages |
| Progress.OtherStepHelps | src/pipe.c:184-238 | no other worker can block a worker that is not blocked |
| Progress.ProductiveStepAdvances | src/stage.c:82-155 | a productive step moves a buffer or a permit, resets a field or calls the callback |
| Progress.SoloProgress | src/worker.c:86-96 | a worker that is not blocked is productive after at most six steps |
| Progress.BlockedMeansStarved | src/stage.c:87-153 | if everybody right of a pipe waits, its FIFO is empty and the producer has a buffer |
| Progress.DeadlockFreedom | src/stage.c:87-153 | with enabled workers, a live source and a buffer per pipe some worker can get on |
| Progress.FairProgress | src/stage.c:87-153 | then every schedule without refusals that gives each worker seven turns, in any order, contains a productive step |
| Drain.WorkInFlightShrinks | src/stage.c:82-155 | after the source's exit the weighted work in flight drops exactly at the productive steps |
| Drain.RoundShrinks | src/worker.c:86-96 | a fair round shrinks it unless nothing is left to do |
| Drain.QuiescenceLasts | src/worker.c:86-96 | when nothing is left to do, that stays so |
| Drain.QuiescentIsWhole | src/stage.c:82-155 | then every pipe has carried what the stages make of everything |
| Drain.EverythingDrains | src/source.c:103-109 | every fair schedule empties the FIFOs, and the sink has got everything the source pushed, processed once each |
| Drain.EveryItemArrives | examples/finite_datastream.c:100-141 | with mapping stages every item flagged before the finishing call arrives, in order, and nothing else |
| Drain.OneItemArrives | src/source.c:36-109 | a reachable state with an item queued at the source's exit, and fair schedules, exist; each of them brings the item to the sink |
| Stopping.DestroyedExits | src/worker.c:86-96 | a destroyed worker exits after at most ten turns and begins at most one more callback |
| Stopping.StoppedSleeps | src/worker.c:142-153 | a disabled worker that nobody enables begins at most one more callback |
| Stopping.StoppedRests | src/worker.c:86-96 | and after at most eleven turns of its own it is at the gate (or, destroyed, has exited) and stays there |
| Stopping.NothingBeforeStart | src/worker.c:88-90 | whatever the schedule, a worker that nobody has enabled has never begun its callback and has taken no buffer |
| Pipeline.JoinEnds | src/pipeline.c:50-58 | joining comes to an end and leaves every buffer accounted for |
| Pipeline.Start | src/pipeline.c:232-259 | enables every worker, sink first, while others go on and does nothing else to the pipeline; refused exactly when active |
| Pipeline.Stop | src/pipeline.c:261-288 | disables every worker, source first, while others go on and does nothing else, so what is in the pipeline stays; refused exactly when not active |
| Pipeline.StartsFromTheSink | src/pipeline.c:241-245 | the workers are enabled from the sink to the source |
| Pipeline.StopsFromTheSource | src/pipeline.c:270-274 | they are disabled from the source to the sink |
| Clearing.Clear | src/pipeline.c:60-84 | on the real pipes and contexts of joined threads: empties every FIFO and every context; each pool holds its buffers again, in the very array the user was given |
| Pipeline.Disable | src/pipeline.c:200-230 | after disabling a running pipeline every buffer is back, and what had been popped stays as it was |
| Lifetime.Thread | src/worker.c:86-96 | a thread for any number of passes through its loop and its routine: its own steps, at least one each pass until it exits, and the given turns of the others, nothing else |
| Lifetime.SourceThenSink | src/source.c:36-70 | two routines compose: each leaves the other's worker where it was |
| Lifetime.SomeCourse | src/pipeline.c:200-288 | there is such a session for every pipeline, every thread and any passes of it |
| Lifetime.WholeSession | src/pipeline.c:86-288 | from new pipes through sizing, enabling, starting, the threads, stopping and disabling: the schedule is exactly what was asked for, every buffer is home in the user's arrays, and the sink has been given a prefix of the sequential composition |
| WorkerGate.StepKeepsInv | src/worker.c:86-163 | who holds the mutex, and a flag set while the worker sleeps has a signal still to come |
| WorkerGate.NoLostWakeUp | src/worker.c:88-90 | a sleeping worker with a flag set is awake after two steps of some caller that waits for nothing |
| WorkerGate.CallbackWithoutMutex | src/worker.c:91-95 | the callback never finds the mutex held by its own thread |
| WorkerGate.DestroyedCanExit | src/worker.c:86-98 | from every reachable state a destroyed worker can reach its exit in nine steps, without spurious wake-ups |
| WorkerGate.DestroyedExitsFairly | src/worker.c:86-98 | every fair schedule without new calls brings a destroyed worker to its exit |
| WorkerGate.FlagsFollowCalls | src/worker.c:127-163 | the flags change at the assignments of the calls, to their values, and nowhere else |
| WorkerGate.DestroyedExactlyWhen | src/worker.c:155-163 | the worker is destroyed exactly when some call has done so |
| WorkerGate.ReturnedCallTookEffect | src/worker.c:127-163 | once a call has returned its flag is set, unless an opposite call came between; nothing takes back a destroy |
| WorkerGate.CallCanReturn | src/worker.c:127-163 | from every reachable state a call can return in six steps |
| WorkerGate.ShadowIsStep | src/worker.c:86-163 | what is seen of an assignment or a test at the gate is the step of the transition system |
| WorkerGate.GateRefinesLoop | src/worker.c:86-163 | every schedule of locks, waits and signals is seen as steps of the worker loop and changes of the flags |
| Lock2.StepKeepsInv | src/pipe.c:28-44 | each mutex is owned by exactly the thread whose code says so |
| Lock2.BothOnReturn | src/pipe.c:28-44 | on return the thread has both mutexes and nobody else has any |
| Lock2.WaitingHoldsNothing | src/pipe.c:28-44 | a thread that waits holds nothing, and the one it waits for can go on |
| Lock2.NoCircularWait | src/pipe.c:28-44 | no circular wait of any length, in either argument order, mixed with single locks |
| Lock2.BothCanBeHad | src/pipe.c:28-44 | from every reachable state a thread in the loop can get both mutexes in eight steps |
| Lock2.LivelockIsPossible | src/pipe.c:31-43 | from a reachable state two threads in step go round for ever under a fair schedule, without either returning |
| Lock2.AloneReturns | src/pipe.c:31-43 | a thread alone in the loop returns under every fair schedule without new calls, within a bound |
| Lock2.LivelockFreeExactly | src/pipe.c:31-43 | with at most c threads in the loop one always returns, if and only if c is at most one |

## Left out

- The static-memory configurations (fixed block vectors, static instances): another algorithm.
- Shrinking in `mtdp_pipe_resize` and resizing a pool after a shrink: the code does not match its documentation there; `Pipe.Resize` grows only.
- Pool.Pool.Resize: requires that the size does not wrap below zero, which happens only in a shrink.
- PipeImpl.Pipe.Resize: grows a pipe only, and requires that a pool with spare capacity does not wrap.
- Lifetime.WholeSession: the thread that is followed through its own code enters its loop once the workers have been enabled; before that, and for all other threads, the steps are turns.
- Enabling a pipeline again after it was disabled: `destroyed` is never reset and the semaphore is not drained, so the model covers one session.
- `mtdp_pipeline_wait` and the `done` flags: they influence no other thread, and detecting quiescence with them depends on timing.
- Timeouts are steps that any wait may take: when the semaphore is 0, or when the wait is disturbed.
- Callbacks are deterministic, set only the flags and write their whole output buffer; they do not read what a fresh output buffer held before, nor ask whether a stop was requested. `init` runs as part of the first call.
- Consecutive writes of a thread to its own context are one step, since no other thread reads it; the mutexes make each pipe operation one step.
- The width of `size_t` and the floating-point `log2`, `pow` and ratio: unbounded integers and a fraction instead.
- Mutexes, condition variables, semaphores and threads are taken to be correct and sequentially consistent; the unlocked reads of `destroyed` are atomic.
- The `else` results of an API call in the wrong state other than start and stop, error numbers, getters, null checks and `mtdp_pipeline_create`: easy.
