# Verification of libseff

libseff is a C and assembly runtime for shallow effect handlers: coroutines that yield effects to
handlers, a work-stealing scheduler, concurrent queues, actors, segmented stacks, and programs built on
them. This project models the parts with the hardest invariants and proves them in Dafny.

What follows the form of the source:

- Sequential code that changes objects is written as classes and methods with loops: the coroutine machine
  (registers, `resume_point`, `parent_coroutine`, the current coroutine), segmented stacks, the adjoint cells
  of automatic differentiation, the ring queue and the search loops. Each method is proved against a
  specification function whose own properties are lemmas.
- Concurrent code is a state machine. One atomic load, store, exchange or compare-and-swap is one step, any
  number of threads take steps in any order, and memory is sequentially consistent. Each protocol has an
  inductive invariant and theorems about all its runs. Where the operation of one thread is what matters
  (the scheduler, the fork/await tree, the chameneos game), queues and mailboxes are atomic; `TlQueue`
  proves that the spin-locked queue with its priority slot refines the atomic object.

The modules:

- `ShallowHandlers`: the list semantics of shallow handlers. A program state is a list of active coroutines
  and a set of captured lists; resuming puts a captured list on top, yielding cuts a prefix off, leaving
  drops it. `CoroutineMachine`: the pointer machine, and the refinement between the two.
- `CircularArrays`, `ChaseLev`, `TkQueue`, `TlQueue`: the three task queues over growing circular arrays.
  `QueueCalls`: from the history of a thread's calls, what its slot has to hold and what each call has to do.
- `Scheduler`: workers, priority slots, sleeping tasks and the counter that ends the program. `TaskLife`: what
  each answer of a task does to it, over whole runs. `ServiceOrder`: in which order workers serve tasks.
  `Skynet`: the fork/await tree on sleep/wake promises, down to every lock operation; `SkynetWorkers` adds
  the workers that run it.
- `Mailbox`, `Chameneos`, `Rendezvous`: the actor mailbox, the broker game on actors, and the older
  semaphore version.
- `SegmentedStacks`: segment chains, stack limits and the release of a coroutine's memory.
- `AutoDiff`: reverse-mode differentiation as a recursive handler, over exact reals.
- `Lookups`: many binary searches as coroutines and as a hand-written state machine.
- `Sieve`: the prime sieve made of nested handlers.
- `Basics`: optional values, lists without repetition, and sums, shared.

Three promises turned out to hold only under a condition, and the exact condition is proved:

- The mailbox asserts that a removed message is not null. It holds in every run if and only if at most one
  thread inserts, or the mailbox has room for at most one message (`Mailbox.NeverFailsIff`): with two
  producers, a later place can be published before an earlier one is written.
- A take from the `tk` queue returns the element of the position it claims if and only if the array it
  loaded at the start of its call has not been replaced since, or that position had been pushed before the
  replacement (`TkQueue.TakeIsRightIff`). All runs are in order if and only if there is no thief or no more
  elements go through the ring than it has room for at first (`TkQueue.AlwaysInOrderIff`).
- The coroutine lookup never resumes a null coroutine if and only if there is nothing to look up, or there is a
  stream and no more than 256 searches can be under way (`Lookups.SeffMultiLookup`): a full ring refuses a
  coroutine and the caller does not look at the answer.

## Model

| member | source | states |
|---|---|---|
| ShallowHandlers.RunKeepsWellFormed | asm/seff.S:90-258 | in every run of resume, yield, exit and init the active list and all captured lists stay duplicate-free, pairwise disjoint, and each captured list ends in the coroutine it is named by |
| ShallowHandlers.CapturedIsFrozen | asm/seff.S:90-127 | a captured continuation (its coroutines, handled sets and contexts) is unchanged by anything the program does until it is resumed |
| ShallowHandlers.YieldThenResume | asm/seff.S:90-186 | yielding to a handler, running anything else, then resuming that handler puts the whole captured prefix back in order on whatever is active by then, and the processor continues in the context it yielded from |
| ShallowHandlers.YieldThenResumeAtOnce | asm/seff.S:90-186 | under the same parent the state is exactly the one before the yield, except for the handled set and the delivered value |
| ShallowHandlers.ResumeThenExit | asm/seff.S:135-258 | leaving through the root of a resumed continuation gives the resumer exactly its own state back, with the request delivered and the coroutine finished |
| ShallowHandlers.YieldReachesResumer | asm/seff.S:90-127 | a yield to any active handler continues whoever resumed that handler, in its saved context, with exactly the effect and payload in its result registers; the cut prefix is captured under the handler |
| ShallowHandlers.FirstResumption | src/seff.c:100-136 | a new coroutine, when first resumed from any state, is at the prelude with its own address, its argument and its function in the registers the prelude reads, a null frame pointer, a 16-byte aligned stack at the end of its memory and the limit of that memory |
| ShallowHandlers.ReturnReachesResumer | asm/seff.S:192-258 | the return of a coroutine gives the computation that resumed it its own context back, with the return effect and the result |
| ShallowHandlers.Locate | src/seff.c:154-163 | the depth found is that of the innermost active coroutine that catches the effect, or the length of the list when none does |
| ShallowHandlers.LocateAfterMove | tests/eff_move.c:23-60 | effects performed inside a moved continuation meet its captured handlers first, then those of its new parents |
| CoroutineMachine.Machine.Init | src/seff.c:100-136 | the assignments to a new coroutine, with the rounding of its stack pointer, are the init step of the list semantics |
| CoroutineMachine.Machine.FirstRun | asm/seff.S:135-222 | the first thing a coroutine runs is its own function applied to its own argument, above its resumer and on an aligned stack inside its memory |
| CoroutineMachine.Machine.PreludeCall | asm/seff.S:192-213 | the prelude passes the argument as first parameter, pushes a return address and jumps to the function |
| CoroutineMachine.Machine.PreludeReturn | asm/seff.S:213-258 | when the function returns, its coroutine is finished and its resumer goes on in its own context with the return effect and the result |
| CoroutineMachine.Machine.SwapRegisters | asm/seff.S:54-74 | registers and saved registers change places and nothing else changes |
| CoroutineMachine.Machine.SwapStack | asm/seff.S:76-85 | base and stack pointers change places and nothing else changes |
| CoroutineMachine.Machine.Resume | asm/seff.S:135-186 | the instructions of resume are the resume step of the list semantics, and every saved context is again where the layout predicts |
| CoroutineMachine.Machine.Yield | asm/seff.S:90-127 | the instructions of yield, to any active coroutine, are the yield step of the list semantics |
| CoroutineMachine.Machine.Exit | asm/seff.S:224-258 | the instructions of exit are the exit step of the list semantics |
| CoroutineMachine.ResumeLayout | asm/seff.S:135-186 | patching one coroutine keeps the layout: an active coroutine saves its resumer's context, a suspended root saves the context of the top of its captured list |
| CoroutineMachine.CutLayout | asm/seff.S:90-127 | cutting the active list at any depth keeps parent links and saved contexts of both parts |
| CoroutineMachine.YieldLayout | asm/seff.S:90-127 | the cut-off prefix satisfies the layout of a captured list once its root is patched |
| CoroutineMachine.ExitLayout | asm/seff.S:224-258 | the layout survives an exit through any active coroutine |
| CoroutineMachine.Machine.FindEffectIn | src/seff.c:138-152 | true exactly when the set handles the effect: everything, nothing for a null set, or a member of the zero-terminated list |
| CoroutineMachine.Machine.LocateHandler | src/seff.c:154-163 | walking the parent links ends at the innermost handler of the active list, null exactly when there is none |
| CoroutineMachine.Machine.Perform | src/seff.h:69-81 | an effect yields to its innermost handler; when there is none its default handler answers in place and leaves machine and coroutines alone, and a null default handler crashes |
| CoroutineMachine.Machine.SetDefaultHandler | src/seff.c:165-171 | replaces the default handler of one effect, returns the previous one and leaves those of all other effects alone |
| CoroutineMachine.Machine.Throw | src/seff.c:202-215 | a throw leaves through the innermost handler; when there is none the default handler runs and the process ends with code -1, or a null default handler crashes |
| CoroutineMachine.Machine.Execute | asm/seff.S:90-258 | every run of the pointer machine is the run of the list semantics on the abstract state |
| CircularArrays.MaskIsModulo | utils/circular_array.h:23-25 | masking an index with size minus one is the remainder by the size |
| CircularArrays.SlotsApart | utils/circular_array.h:23-25 | indices less than a lap apart never share a slot |
| CircularArrays.Ring.Set | utils/circular_array.h:23-25 | a store is read back at its index and leaves every other index within a lap alone |
| ChaseLev.NextInv | utils/cl_queue.c:31-92 | every atomic step of owner and thieves keeps the invariant: whoever still sees the current top also holds the right element, even through a ring replaced meanwhile |
| ChaseLev.NextIsDequeStep | utils/cl_queue.c:31-92 | every step is a step of a plain deque, by who moves: a thief does nothing or steals the oldest, a pop does nothing, takes the newest or returns what it holds, a push does nothing or appends its own argument |
| ChaseLev.RunConserves | utils/cl_queue.c:31-92 | in every run, pushed elements equal returned plus held plus still contained, as multisets |
| ChaseLev.EachElementOnce | utils/cl_queue.c:31-92 | from an empty deque, with growth in the middle of steals: every argument ever given to a push has been returned, is held, is inside, or belongs to the push under way, once for each time it was given; so nothing is lost, invented or returned twice |
| ChaseLev.GrowsWhenFull | utils/cl_queue.c:58-73 | a push replaces the ring exactly when it has seen it full, and otherwise goes on to store its element |
| ChaseLev.OwnerFinishes | utils/cl_queue.c:31-73 | pushes and pops are wait-free: whatever the thieves do, every step of the owner lowers the number of steps its call has left |
| ChaseLev.ThiefFinishes | utils/cl_queue.c:77-92 | steals are wait-free too |
| ChaseLev.PushAlone | utils/cl_queue.c:58-73 | from any state between calls, a push that nobody disturbs ends with its argument appended, growth included, and nothing else changed |
| ChaseLev.PopAlone | utils/cl_queue.c:31-56 | an undisturbed pop returns the newest element and removes it, and reports empty only when there is none |
| ChaseLev.StealAlone | utils/cl_queue.c:77-92 | wherever the owner stands still in its own call, an undisturbed steal returns and removes the oldest element, unless top has reached bottom |
| ChaseLev.NothingIsReportedForAReason | utils/cl_queue.c:51-90 | an empty pop found the deque empty, an empty steal found at most the element a pop has reserved, an aborted steal lost its element to someone else |
| TkQueue.NextInv | utils/tk_queue.c:34-98 | every step of the owner, on the ring or on its slot, and of the thieves keeps the invariant: the current array holds everything between head and tail, a replaced one the last elements pushed before its replacement |
| TkQueue.TakeIsRightIff | utils/tk_queue.c:82-98 | claims go through positions in order; the element returned is the one pushed there exactly when the loaded array is current or the position is below the tail at its replacement |
| TkQueue.TakenInOrder | utils/tk_queue.c:34-98 | in every run in which no growth overlaps a take, elements leave exactly in push order |
| TkQueue.StaleTake | utils/tk_queue.c:39-92 | for any initial size and any elements: a run in which a thief's stale array makes it return the first element a second time and lose the one that caused the growth |
| TkQueue.AlwaysInOrderIff | utils/tk_queue.c:34-98 | for distinct elements, every run that pushes them returns them in order exactly when there is no thief or they are no more than the initial size |
| TkQueue.EmptyIsEmpty | utils/tk_queue.c:82-90 | a take reports empty exactly when the tail it loads equals its head, and then the queue is empty |
| TkQueue.EveryElementOnce | utils/tk_queue.c:50-63 | in every run each element given to the owner's calls has been pushed, popped from the slot, or is in the slot or the owner's hands, once for each time it was given |
| TkQueue.EveryCallIsRight | utils/tk_queue.c:50-80 | in every run, from the history of the owner's calls alone: a pop returns what the last priority push left in the slot, and only without that what it took from the ring; a priority push puts what it displaced into the ring; between calls the slot holds the last priority push not popped since |
| TkQueue.EmptyPop | utils/tk_queue.c:58-80 | a pop reports empty only when the slot and the ring are empty |
| TkQueue.OwnerGetsOn | utils/tk_queue.c:34-63 | the owner never waits: each step of its call brings it nearer to its end, or to its take |
| TkQueue.TakeGetsOn | utils/tk_queue.c:64-98 | a take is lock-free: each step brings it nearer to its end unless another take has succeeded since this one read the head |
| TlQueue.NextInv | utils/tl_queue.c:35-100 | every step keeps the invariant; the steps at which an operation takes effect or returns are exactly the steps of an atomic queue with an owner's slot, by the same thread, and all others are invisible |
| TlQueue.RunRefines | utils/tl_queue.c:35-100 | every run is the run of the atomic object over its visible moves: `EveryCallIsRight` says from the calls alone what that object does |
| TlQueue.EveryElementOnce | utils/tl_queue.c:35-100 | in every run each element handed to a push or priority push has been returned, or is in the ring, the slot or a thread's hands, once for each time it was handed in |
| TlQueue.EveryCallIsRight | utils/tl_queue.c:35-100 | in every run, from each thread's history of calls alone: a push puts its argument into the ring, a priority push exactly what the last one had left in the slot, a pop returns what is in the slot or else what it took from the ring; between the owner's calls the slot holds the last priority push not popped since |
| TlQueue.EmptyPop | utils/tl_queue.c:62-94 | a pop reports empty only when the slot and the ring are empty |
| TlQueue.StepGetsOn | utils/tl_queue.c:35-100 | each step of a call brings it nearer to its end unless it waits for the lock |
| TlQueue.HolderMoves | utils/atomic.h:28-33 | when a thread waits for the lock, another thread holds it and does not wait |
| TlQueue.GrowsWhenFull | utils/tl_queue.c:35-52 | a push replaces the array exactly when the ring is full |
| TlQueue.NothingLeaks | utils/tl_queue.c:35-52 | in every run, whenever nobody holds the lock, exactly the replaced arrays have been freed, and none is freed twice |
| TlQueue.NoElementTwice | utils/tl_queue.c:35-100 | when no element is handed in twice, none is returned twice |
| TlQueue.RestIsComplete | utils/tl_queue.c:35-100 | when no call is under way, what was handed in is what was returned plus the ring and the slot |
| TlQueue.LockedAndAllocated | utils/atomic.h:28-33 | at most one thread is between acquire and release, only it is about to touch an array, that array is not freed, and only the owner is in an operation on the slot |
| TlQueue.FirstInFirstOut | utils/tl_queue.c:35-100 | in every run, across wrap-around and doubling, what has entered the ring is what has left it followed by what it holds |
| TlQueue.EmptyIsEmpty | utils/tl_queue.c:69-94 | a take reports empty exactly when the queue is empty at its load of tail |
| Scheduler.NextInv | scheduler/scheff.c:180-281 | every step keeps: each live task in exactly one place, the counter equal to live tasks plus open windows, no worker gone while the counter is positive |
| Scheduler.EveryRunIsSafe | scheduler/scheff.c:124-281 | for any workers, tasks and interleaving: no finished coroutine is resumed, every live task is asleep or at exactly one worker, the counter never drops below the live tasks, a worker leaves only when nothing is live |
| Scheduler.ZeroIsStable | scheduler/scheff.c:188-195 | once the counter is zero, nothing is live and nothing ever comes back |
| Scheduler.StealFromInv | scheduler/scheff.c:140-152 | a steal moves the oldest task of the victim to the thief and nothing else |
| TaskLife.PollerWaits | scheduler/scheff.c:201-206 | in every run a task that answered a poll does not run again before a check found its condition true |
| TaskLife.SleeperWaits | scheduler/scheff.c:248-266 | in every run a task whose waker was kept is neither run nor dequeued before some task wakes it |
| TaskLife.StaysAtWork | scheduler/scheff.c:216-272 | after a fork, a poll, a refused sleep, a wake that is to go on, its own creation or its waking, a task is at exactly one worker, in one place, unfinished and not about to be freed, at least until it answers again |
| TaskLife.LeavesByItself | scheduler/scheff.c:166-178 | in every run a task is freed only after its own return or its own wake that was not to go on |
| TaskLife.GivenUpIsGone | scheduler/scheff.c:166-178 | after that it is neither run nor dequeued again before it has been freed |
| TaskLife.FinishedIff | scheduler/scheff.c:197-214 | in every run the finished coroutines, which the run never resumes, are exactly those that returned and whose tasks have not been freed yet |
| TaskLife.CheckDecides | scheduler/scheff.c:197-208 | in every run a dequeued task is resumed exactly if no poll of it is pending or its condition holds now; otherwise it is enqueued again |
| ServiceOrder.FirstComeFirstServed | scheduler/scheff.c:124-281 | in every run each worker's line is first in, first out, whoever takes from it: answers that go on enter at the end, after the tasks they wake |
| ServiceOrder.ServedNext | scheduler/scheff.c:216-266 | the task created by a fork, and the last task of a wake, is the next one that worker takes |
| ServiceOrder.NextDuty | scheduler/scheff.c:124-281 | each answer changes the order of service at once, and the steps that carry it out keep that order; a worker takes the task it is bound to, or else the one waiting longest |
| ServiceOrder.TheftIsFirst | scheduler/scheff.c:137-152 | a worker takes from another one only when it has nothing itself, and then the task that has waited longest there |
| ServiceOrder.FindsATask | scheduler/scheff.c:124-195 | left to itself, a worker gets a task within one round if its slot or any queue has one, and otherwise leaves if no tasks remain, or looks again |
| ServiceOrder.EveryStepCounts | scheduler/scheff.c:188-278 | whatever the others do, a worker finishes carrying out an answer, or a round of looking, in a bounded number of its own steps |
| Skynet.NextInv | bench/skynet_bench/libseff_scheff_sleep.c:23-94 | every lock, load, store, fork, sleep and wake step keeps the promise and tree invariant |
| Skynet.WakerSleeps | bench/skynet_bench/libseff_scheff_sleep.c:23-45 | whoever is about to wake a task finds it asleep on exactly that promise: no wakeup is lost and none is sent twice |
| Skynet.SleeperWaitsForRunning | bench/skynet_bench/libseff_scheff_sleep.c:53-94 | below every sleeping task there is one that is queued or running |
| Skynet.SomeoneCanMove | bench/skynet_bench/libseff_scheff_sleep.c:23-94 | as long as a task is unfinished, some enabled step changes the state: no deadlock at any depth |
| Skynet.QuietMeansDone | bench/skynet_bench/libseff_scheff_sleep.c:69-94 | when no task is queued or held by a worker all are done and the root promise holds L(L-1)/2, for L leaves |
| Skynet.RootSum | bench/skynet_bench/libseff_scheff_sleep.c:69-94 | the sum over the tree is L(L-1)/2 |
| Skynet.EveryTaskIsBounded | bench/skynet_bench/libseff_scheff_sleep.c:69-94 | in every run each task is taken from a queue at most 21 times and makes a bounded number of moves that change anything |
| Skynet.PromiseOutlivesItsUse | bench/skynet_bench/libseff_scheff_sleep.c:23-59 | a promise lives while its task may touch it, is not touched after the unlock that publishes it, and its result is read only once written |
| Skynet.AwaitAlone | bench/skynet_bench/libseff_scheff_sleep.c:23-59 | an await that nobody disturbs adds the result of a fulfilled promise without giving up its worker, and sleeps on an empty one with its waker stored there |
| Skynet.EveryRunIsBounded | bench/skynet_bench/libseff_scheff_sleep.c:69-94 | in every run all tasks together make a bounded number of moves that change anything |
| SkynetWorkers.NextInv | scheduler/scheff.c:188-278 | with any number of workers, each running or unplaced task stays in the hands of exactly one worker, which takes a task only when it has none |
| SkynetWorkers.SomeWorkerCanMove | scheduler/scheff.c:188-278 | with one worker or more, while a task is unfinished some worker can make a step that changes the tree |
| SkynetWorkers.RunProjects | scheduler/scheff.c:188-278 | every run of the workers is a run of the fork/await tree |
| SkynetWorkers.EveryRunFinishes | bench/skynet_bench/libseff_scheff_sleep.c:69-94 | for any depth and any number of workers from one on: the moves of a run are bounded, a run that cannot go on has finished every task, and then the root promise holds L(L-1)/2 |
| Mailbox.NextInv | utils/actors.c:41-82 | every step of producers and consumer keeps the counters, and every place between the next read and the last given out holds its message unless still to be written |
| Mailbox.EveryRunIsInOrder | utils/actors.c:41-82 | with any number of producers, reservations never exceed the capacity, places in use never share a slot, and the received messages are those of the first places in order |
| Mailbox.EveryInsertIsAnswered | utils/actors.c:41-59 | in every run the answers to a thread are to its inserts in order, and each accepted message has a place of its own, given to that thread, from which the actor reads it in turn |
| Mailbox.RefusedForAReason | utils/actors.c:44-52 | an insert is refused only if it saw the mailbox full or the reservations changed between its two accesses |
| Mailbox.EmptyForAReason | utils/actors.c:66-74 | a removal returns null only if nothing was ready or the count of ready messages changed between its two accesses |
| Mailbox.EveryStepCounts | utils/actors.c:41-82 | inserts and removals are wait-free: every step of a call brings it nearer to its end |
| Mailbox.OneAtATimeIsSafe | utils/actors.c:41-82 | the assertion holds in every run in which inserts do not overlap, as on one worker |
| Mailbox.NeverFailsIff | utils/actors.c:63-82 | the assertion holds in every run exactly when at most one thread inserts or the capacity is at most one |
| Mailbox.OvertakingFails | utils/actors.c:41-79 | for two producers and any capacity from two on, a run in which the assertion fails |
| Chameneos.ComplementMeaning | bench/chameneos_bench/chameneos_common.h:16-22 | the complement is symmetric, keeps equal colours and gives the third for different ones |
| Chameneos.NextInv | bench/chameneos_bench/chameneos_actor.c:24-143 | every send and receive keeps the protocol invariant on mailboxes, requests, meetings and totals |
| Chameneos.FinishedMeansAgreed | bench/chameneos_bench/chameneos_actor.c:104-143 | at the broker's end the total is twice the meetings, the partners of every meeting are different creatures that computed the same colour, and nobody met itself |
| Chameneos.EveryColourIsEarned | bench/chameneos_bench/chameneos_actor.c:35-68 | in every run both partners enter each meeting with the colours that their earlier meetings gave them, starting from those handed out, and at the end each creature has the colour of all its meetings |
| Chameneos.EveryGame | bench/chameneos_bench/chameneos_actor.c:35-143 | in every run the `!finish` assertions hold, at most 8 (creatures + meetings) + 4 steps have an effect, and a run that cannot go on has ended with total 2N |
| Chameneos.SomeoneCanMove | bench/chameneos_bench/chameneos_actor.c:35-143 | no deadlock with at least two creatures and mailboxes of any positive capacity |
| Chameneos.NeverStuckIff | bench/chameneos_bench/chameneos_actor.c:104-123 | no run gets stuck exactly when there are two creatures or no meetings to arrange |
| Chameneos.RunsAreBounded | bench/chameneos_bench/chameneos_actor.c:35-143 | every step that changes anything lowers the work still to do |
| Rendezvous.NextInv | bench/chameneos_bench/c_solution/cooperation.c:16-41 | every step of every caller keeps one lock between the mutex, the private semaphore and the threads, and two tokens of AtMostTwo |
| Rendezvous.PairsSwapColours | bench/chameneos_bench/c_solution/cooperation.c:16-41 | with any number of threads, calls are served in pairs of different threads and each returns the colour of the other |
| Rendezvous.ColoursAreNotOverwritten | bench/chameneos_bench/c_solution/cooperation.c:22-37 | AColour is written only between pairs and BColour only by the second of the current pair before it hands over, so neither is overwritten before both have read it |
| Rendezvous.RestIsComplete | bench/chameneos_bench/c_solution/cooperation.c:16-47 | when no call is under way both calls of every pair have returned and the semaphores have their initial values |
| Rendezvous.EveryCallIsServed | bench/chameneos_bench/c_solution/cooperation.c:16-41 | in every run of any number of threads, the returns of a thread are those of its calls in order; each call was one of the two of a pair, no other call had its place there, and it returned the colour of the other |
| Rendezvous.EveryStepCounts | bench/chameneos_bench/c_solution/cooperation.c:16-41 | every step of a call that is not blocked brings it nearer to its end |
| Rendezvous.TwoCallersMove | bench/chameneos_bench/c_solution/cooperation.c:16-41 | two callers never wait for ever: some thread can move |
| Rendezvous.OneLockIsExclusive | bench/chameneos_bench/c_solution/cooperation.c:19-38 | at most one thread has the lock, and none while a semaphore holds it |
| SegmentedStacks.Stack.NextSegment | src/mem/seff_mem_segmented.c:74-98 | the three cases keep a well-formed doubly linked chain that is the old one, with at most one new segment behind the current one |
| SegmentedStacks.Stack.AllocateFrame | src/mem/seff_mem_segmented.c:74-114 | the new stack is 16-byte aligned, holds the parameters, has at least the asked size, its limit is at most 15 bytes under the payload and never in the header fields, and other memory is untouched |
| SegmentedStacks.Stack.AlignDown | src/mem/seff_mem_segmented.c:106-109 | the result is a multiple of 16 at most 15 bytes below |
| SegmentedStacks.Stack.ReleaseFrame | src/mem/seff_mem_segmented.c:116-121 | moves back one segment, keeps the chain, and the limit is that segment's payload |
| SegmentedStacks.Stack.ReleaseAll | src/seff.c:65-79 | from any position every segment of the chain is freed exactly once, in order |
| SegmentedStacks.Stack.Execute | src/mem/seff_mem_segmented.S:113-151 | every run of calls and returns on the linked structure is a run of the chain walk |
| SegmentedStacks.BalancedRun | src/mem/seff_mem_segmented.S:113-151 | balanced calls and returns come back to the very segment they started from, and the chain up to it is unchanged |
| SegmentedStacks.RunOrder | src/mem/seff_mem_segmented.c:83-95 | no run loses a segment or changes the order of two |
| SegmentedStacks.RunGrows | src/mem/seff_mem_segmented.c:83-95 | in no run does the segment behind a given one become smaller |
| SegmentedStacks.CallsAreReused | src/mem/seff_mem_segmented.c:83-95 | once a call was served from a segment, later calls from it that need no more allocate nothing |
| AutoDiff.TangentIsDerivative | tests/ad.c:108-136 | moving the variables by h in a direction changes every result by h times its tangent, up to an explicit constant times the square of h |
| AutoDiff.TangentsLinear | tests/ad.c:122-133 | tangents are linear in the direction |
| AutoDiff.ChainRule | tests/ad.c:84-134 | the influence of a variable is its influence through later operations plus its share in the next result times that result's influence |
| AutoDiff.Handle | tests/ad.c:73-138 | for every straight-line program with any sharing, after the activations unwind every adjoint cell holds the partial derivative of the result |
| AutoDiff.Accumulate | tests/ad.c:96-133 | unwinding one operation adds exactly its contribution to each argument, also when the arguments share a cell |
| AutoDiff.Evaluate | tests/ad.c:151-192 | the arithmetic handler answers every request with its exact value |
| AutoDiff.ExampleTracks | tests/ad.c:53-71 | after each turn of the example the recorded values are powers of 1 - x and their sum, the tangents their derivatives |
| AutoDiff.Record | tests/ad.c:61-68 | the example's loop performs exactly the operations of the recorded program |
| AutoDiff.Reverse | tests/ad.c:140-150 | the reverse pass over the example yields the derivative of the sum of (1 - x)^i for i from 0 to iters |
| Lookups.NaiveBinarySearch | bench/prefetching_lookups_bench_/external/naive.cpp:28-44 | on sorted data the search finds the key exactly when it occurs |
| Lookups.Resume | bench/prefetching_lookups_bench_/libseff.c:5-31 | a resumption ends with the right answer or leaves a window of at most half the size that still decides the key |
| Lookups.CoroQueue.Enqueue | bench/prefetching_lookups_bench_/libseff_infra.h:42-50 | appends to the contents unless the ring is full, and then changes nothing |
| Lookups.CoroQueue.Dequeue | bench/prefetching_lookups_bench_/libseff_infra.h:52-60 | removes and returns the oldest element, null when empty |
| Lookups.SeffMultiLookup | bench/prefetching_lookups_bench_/libseff.c:33-102 | the result is the number of keys that occur, each counted once, exactly under the condition that no coroutine is refused; otherwise a null coroutine is resumed |
| Lookups.SmBinarySearch | bench/prefetching_lookups_bench_/external/sm.cpp:91-97 | the state machine alone finds the key exactly when it occurs |
| Lookups.ReplaceOne | bench/prefetching_lookups_bench_/external/sm.cpp:116-127 | running streams in turn ends one and gives it the next key; all streams still run and the pending hits balance |
| Lookups.SmMultiLookup | bench/prefetching_lookups_bench_/external/sm.cpp:100-142 | for any number of streams from one on the result is the number of keys that occur |
| Lookups.RunFrameSteps | bench/prefetching_lookups_bench_/external/sm.cpp:65-88 | a step ends with the right answer or halves the window |
| Lookups.HitsCount | bench/prefetching_lookups_bench_/external/naive.cpp:46-54 | the count is the number of positions whose key occurs in the data |
| Sieve.QuestionUnder | bench/internet_bench/handler_sieve/main.c:33-56 | a question gets through a stack of handlers exactly when none of their numbers divides it; the stack stays either way |
| Sieve.SearchUnder | bench/internet_bench/handler_sieve/main.c:58-73 | under handlers for exactly the primes found so far, the rest of the search adds exactly the primes to come |
| Sieve.PrimeIff | bench/internet_bench/handler_sieve/main.c:42-43 | a number is prime exactly when no smaller prime divides it |
| Sieve.Run | bench/internet_bench/handler_sieve/main.c:75-84 | the result is the sum of all primes below n |
| Sieve.RunToplevel | bench/internet_bench/handler_sieve/main.c:12-31 | the outermost loop answers yes to every question and returns the final result |
| Sieve.SumIsOverPrimes | bench/internet_bench/handler_sieve/main.c:58-84 | the sum is that of the increasing list of exactly those primes |

## Left out

- Weak memory orders and fences: every atomic is sequentially consistent.
- Integer width: counters, indices and sums are mathematical integers; `malloc` always succeeds.
- Skynet.EveryTaskIsBounded: counts moves that change something; spinning on a held lock is not a move.
- Scheduler.EveryRunIsSafe: assumes what the scheduler asks of its clients, namely that a wakeup manager keeps a waker exactly when it returns true and that a kept waker is woken at most once; `Skynet` proves this of its promises.
- TaskLife.CheckDecides: what a poll condition answers is an input; which function a task polls, and with which argument, is not recorded.
- TlQueue.EmptyIsEmpty: stated at the load of `tail`; the release that follows it is a separate step.
- TkQueue.TakenInOrder: leaves out runs in which a growth overlaps a take, where the order does not hold.
- Chameneos.EveryGame: mailboxes are atomic first-in first-out queues of any positive capacity, as on the single worker the program asks for; the exact mailbox is in `Mailbox`. Printing and `free` are left out.
- Lookups.SeffMultiLookup: a suspended search is reachable only through the ring, so its locals are stored there by value rather than as a heap object.
- Lookups.SmMultiLookup: `&v[0]` of an empty vector, undefined in C++, is not modelled; the state machine on empty data is.
- Sieve.SearchUnder: a coroutine is the tree of what it asks next, so the interleaving of nested handlers is expressed by functions on trees; only the outermost loop is a loop.
- AutoDiff.Handle: a differentiated program is the list of operations it performs, by position of their arguments; rounding is not modelled, and `printf` is left out.
- CoroutineMachine.Machine.Perform: a default handler is a function of the payload, so what it writes to memory is not modelled; generative effect ids, whose cells overlap the place of a default handler, are left out.
- Registers are values of a context; unwinding tables, system-call wrappers and thread start-up have no state here.
- SegmentedStacks.Stack.AllocateFrame: the block's address is a parameter; `__morestack_non_split` and the debug fill of new segments are left out.
- `utils/net.c`, `utils/http_response.c` and the HTTP and echo servers: input and output.
- `bench/skynet_bench/libseff_async.c` and the other benchmark variants: the same ideas with easier invariants.
