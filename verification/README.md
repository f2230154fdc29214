# Verified model of the task schedulers

The repository holds a Chase-Lev work-stealing deque, a bounded lock-free ring, two schedulers built on
them and a task-graph layer that runs on either scheduler.  This project models all five and proves what
they are for: no task is lost or run twice, whatever the threads do, and a graph of tasks is executed in order
of its dependencies.

## How it is built

Each concurrent component is first a **transition system**: one step is one atomic access of one thread, any
number of threads take steps in any order, and a state also carries histories (what was pushed, which
ticket got which task, which functions have begun).  An inductive invariant is proved over every step,
and the theorems speak of every state that any run reaches.

* `DequeModel`, `DequeInvariant`, `DequeSteps`: the deque under x86-TSO.  The owner's plain stores (slots, `array_`, `bot_`)
  pass through a FIFO store buffer that drains at arbitrary moments, and is empty at the pop fence and at the
  owner's CAS.  A sequentially consistent run is one in which every store drains at once.
  `DequeTheorems` has the safety theorems, `DequeRefinement` linearizability, empty answers included, `DequeCost` capacity
  and amortised cost, `DequeHistories` what the recorded peak and winners mean.
* `RingModel`, `RingInvariant`, `RingSteps`, `RingTheorems`: the ring, for every size of at least two: safety,
  linearizability to a FIFO queue that knows which enqueues are still open, and the price of retries.
* `BagScheduler`, `BagTheorems`: what a client may expect of any scheduler, an unordered bag of tasks.
* `WorkStealingModel` ... `WorkStealingTheorems`: the work-stealing scheduler over one store-buffered deque for each worker;
  `RingScheduler` ... `RingSchedulerTheorems`: the ring scheduler over the ring.  Both refine the bag, through any number of
  consecutive runs.  `WorkStealingProgress` proves that the first can always go on, `RingEarly` and `RingProgress` exactly when
  the second can.
* `Graphs`, `DagModel`, `DagInvariant`, `DagSteps`, `DagTheorems`, `DagTermination`: a task graph executed on the bag.
* `GraphOnSchedulers`: the graph on each of the two schedulers, down to the accesses of deques and ring.  `GraphProgress`,
  `GraphOnRing`, `GraphOnRingProgress` and `GraphOnOneWorker` say where the two together can get stuck, and where they cannot.
* `WorkStealingCalls`, `RingSchedulerCalls`: one call as a series of accesses, and the event it stands for.  `RingRuns`,
  `WorkStealingRuns`, `RingSchedulerRuns`: what one thread has done since some step of a run.

The components then appear once more **in the code's own form**, as objects with the code's fields, loops and
branches: `CircularArrays.CircularArray`, `ChaseLevDeques.ChaseLevDeque`, `LockFreeRings.LockFreeRing`,
`TaskGraphs.DagNode` and `TaskGraphs.TaskGraph`, `WorkStealingSchedulers.WorkStealingScheduler` and
`LockFreeQueueSchedulers.LockFreeQueueScheduler`.  Their methods make the code's accesses in the code's order.  A ghost
history records the steps, `Valid()` says that the history is a run of the transition system and that the fields
are what that run leads to, so every theorem about runs holds of the objects.  Between two accesses of
a method stands a call of `Others`, of which only a contract is known: the other threads may take any steps that
leave the caller's own program counter alone.  The lemmas `OthersLeaveMine` show that every step of another thread meets
that contract.

## Assumptions

* The deque's owner stores under TSO; thieves only load and CAS.  The ring, `pending_`, `shutdown_` and the graph's counters
  are sequentially consistent.  Starting and joining a thread drains its store buffer.
* Indices, tickets and sequence numbers are mathematical integers, which is what the 64-bit counters are below
  2^63; in-degrees stay below 2^31.
* Tasks are opaque identities; one task object is submitted once (`submit` takes a unique pointer).  Tasks and node functions
  neither throw nor run for ever where a theorem speaks of a run that has returned.
* `run` is called with at least one worker, with the same number each time.  On both schedulers, tasks from outside
  are submitted by the thread that calls `run`, and so never while a `run` is active; tasks submit others at any time.

## Where code and documentation differ

The model follows the code.

* `include/chase_lev_deque.hpp:37` calls `top_` and `bot_` strictly increasing, and `Docs/ENGINEERING.md:88-90` says that `bot_`
  only decreases on a path that restores it.  Every pop lowers `bot_` (`include/chase_lev_deque.hpp:180`); only `top_` is monotone.
* `Docs/ENGINEERING.md:233-235` says that a cycle makes `execute()` never return.  Nodes on or behind a cycle are never
  submitted, so a cycle keeps `run` from nothing: the graph's own steps are bounded (`ExecutionIsBounded`), on a bag that takes every
  submission some step is always possible (`BagExecutionIsNeverStuck`), and on work stealing every reachable state can
  be continued until `run` returns (`ExecuteCanAlwaysReturn`).  The closing assertion then fails exactly when there is a cycle
  (`ClosingAssertionIffAcyclic`).
* What does keep `execute()` from returning is the ring scheduler's fixed capacity, which `Docs/ENGINEERING.md:233-235` does not mention:
  a graph with more sources than the ring has slots never gets as far as `run`, and any other does (`SeedingFitsExactly`).
  During `run` the scheduler stands still exactly when every worker is inside a submission and the ring is full
  (`StandstillMeansJammed`), as happens on one worker at any node with more successors of its own than slots
  (`FanOutStallsOneWorker`).  Every execution whose sources fit can be continued until `run` returns or the ring is jammed
  (`ExecuteCanReturnOrJam`), and a graph with fewer nodes than slots and twice the workers never jams it (`JamNeedsNodes`).
  For one worker the condition on the graph is exact (`OneWorkerReturnsExactly`).
* `include/lockfree_queue_scheduler.hpp:160` explains a positive `diff` by a slot that is reserved but not filled.  A positive `diff` means that
  the ticket has already been released; a slot reserved but not filled gives a negative one (`DiffMeans`).

## Model

| member | source | states |
|---|---|---|
| Arithmetic.MaskIsModulo | include/chase_lev_deque.hpp:47-64 | bitwise masking with capacity minus one selects the slot "index modulo capacity", for every index and every power of two |
| Arithmetic.NearbyIndicesDiffer | include/chase_lev_deque.hpp:56-64 | two indices less than one capacity apart never share a slot |
| CircularArrays.GrownKeepsEntries | include/chase_lev_deque.hpp:69-74 | after growing, every live index finds its own entry, however both rings wrap around |
| CircularArrays.CircularArray.constructor | include/chase_lev_deque.hpp:47-51 | a new array has 2^log2_cap null slots |
| CircularArrays.CircularArray.PutAt | include/chase_lev_deque.hpp:56-59 | stores one entry in place and changes no other slot |
| CircularArrays.CircularArray.GetAt | include/chase_lev_deque.hpp:61-64 | reads the entry of an index |
| CircularArrays.CircularArray.Grow | include/chase_lev_deque.hpp:69-74 | the copying loop makes a fresh array of twice the capacity in which all live entries keep their index |
| DequeSteps.InitHasInv | include/chase_lev_deque.hpp:134-137 | a new deque satisfies the deque invariant |
| DequeInvariant.IssueKeepsShape | include/chase_lev_deque.hpp:158-180 | a store of the owner that touches no occupied slot of a reachable array preserves what every thief relies on, at whatever later moment it drains |
| DequeSteps.PopLoadTopKeepsShape | include/chase_lev_deque.hpp:180-199 | behind the fence, a pop that sees top below its index may take the task without a CAS: no thief can reach it any more |
| DequeSteps.ThiefCasKeepsShape | include/chase_lev_deque.hpp:223-236 | a thief's CAS on a possibly stale index keeps the memory invariant for the owner and all other thieves |
| DequeSteps.StepConserves | include/chase_lev_deque.hpp:158-237 | every step keeps: pushed tasks = returned + claimed + content, as multisets |
| DequeSteps.StepKeepsWinners | include/chase_lev_deque.hpp:201-236 | every step keeps: each index below top was won exactly once, and by nobody still trying for it |
| DequeSteps.StepKeepsInv | include/chase_lev_deque.hpp:158-237 | every access of every thread, and every drain of the store buffer, keeps the whole invariant |
| DequeTheorems.RunKeepsInv | include/chase_lev_deque.hpp:158-237 | the invariant holds after every run, for any number of thieves and growths |
| DequeTheorems.RunConserves | include/chase_lev_deque.hpp:158-237 | in every reachable state the pushed tasks are those returned, those claimed and those in the deque, each once |
| DequeTheorems.NoTaskReturnedTwice | include/chase_lev_deque.hpp:158-237 | a task pushed once is returned at most once, and never while it is still in the deque |
| DequeTheorems.WinningStealGetsOldest | include/chase_lev_deque.hpp:216-236 | a steal whose CAS succeeds returns the oldest task, and removes just that one |
| DequeTheorems.StaleArrayIsSafe | include/chase_lev_deque.hpp:163-224 | the array a thief holds is still allocated, and its slot holds the oldest task as long as top has not moved |
| DequeTheorems.EmptyStealMeans | include/chase_lev_deque.hpp:216-221 | an empty result means that memory shows no untaken index; at most one task was left, which a pop was undecided about, if and only if the owner's own bot is not above top, as it is when no store is pending |
| DequeTheorems.EmptyStealMayMissPushes | include/chase_lev_deque.hpp:216-221 | with bot stores pending the same result is possible while two tasks are in the deque: a run that does it, with the owner's own bot two above top |
| DequeTheorems.LostStealMeans | include/chase_lev_deque.hpp:226-234 | a lost race means that another agent has won the very index the thief was after |
| DequeRefinement.StepRefines | include/chase_lev_deque.hpp:158-237 | every step is a step of an atomic sequence: append at the bot store, remove the last at the top load or CAS, remove the first at the thief's CAS, else nothing |
| DequeRefinement.StepRefinesObserved | include/chase_lev_deque.hpp:158-237 | the same with the series of bot values that memory shows, now and after each store still pending: it changes only as a store drains, a push stores, a pop announces itself by an end one too low, or bot is stored; pops are decided with nothing pending, and a steal answers empty only when the bot shown now leaves no untaken index |
| DequeRefinement.RunRefinesAtomicSequence | include/chase_lev_deque.hpp:158-237 | linearizability: the events of any run are a run of the atomic sequence and of what memory shows of it, in which a null pop finds it empty, a steal loses only to another removal of the oldest task, and empty answers are as above |
| DequeRefinement.DrainedEmptyAnswerMeans | include/chase_lev_deque.hpp:216-221 | in any trace of these: an empty answer with no store pending leaves nothing but one task that an undecided pop has announced |
| DequeRefinement.EmptyAnswerAfterPopIsTrue | include/chase_lev_deque.hpp:177-221 | from the events alone: between the moment a pop is decided and the owner's next event, a thief is told empty only if the sequence is empty |
| DequeCost.RetiredIsLessThanCurrent | include/chase_lev_deque.hpp:24-34 | all retired arrays together have fewer slots than the current one |
| DequeCost.RunKeepsCost | include/chase_lev_deque.hpp:157-174 | capacity and copying stay accounted for along every run |
| DequeCost.CapacityAndCost | include/chase_lev_deque.hpp:157-174 | one slot always stays free, growth starts only when exactly one is free, capacity is at most twice the recorded peak plus two, copying costs at most two entries a push |
| DequeHistories.PeakIsReached | include/chase_lev_deque.hpp:157-174 | the recorded peak is the number of tasks the deque held at some moment of the run |
| DequeHistories.WinnerTookIndex | include/chase_lev_deque.hpp:201-236 | the recorded winner of an index is the agent whose CAS raised top past it, at the moment it did |
| DequeHistories.EveryIndexWasTaken | include/chase_lev_deque.hpp:201-236 | every index below top was taken by such a CAS of the run |
| ChaseLevDeques.OthersLeaveMine | include/chase_lev_deque.hpp:90-95 | no access of another thread moves the owner's or a thief's own place, nor adds to its events |
| ChaseLevDeques.NextAllocation | include/chase_lev_deque.hpp:69-74 | the next array to become visible has the capacity its number says |
| ChaseLevDeques.OwnerHoldsTask | include/chase_lev_deque.hpp:194-211 | a pop that has claimed reads just the task it claimed; one that wins the race holds a task, not null |
| ChaseLevDeques.ThiefHoldsTask | include/chase_lev_deque.hpp:223-236 | a thief's array and index are in range, and a thief that can win holds a task, not null |
| ChaseLevDeques.MemoryShows | include/chase_lev_deque.hpp:239-249 | memory never shows more tasks than there are, and shows just the content between calls of the owner |
| ChaseLevDeques.ChaseLevDeque.constructor | include/chase_lev_deque.hpp:134-137 | a new deque is empty, with one array of the initial capacity |
| ChaseLevDeques.ChaseLevDeque.LoadBotToPush | include/chase_lev_deque.hpp:159 | the push reads its own latest bot, drained or not |
| ChaseLevDeques.ChaseLevDeque.LoadTopToPush | include/chase_lev_deque.hpp:160 | the push reads top as it is at the load |
| ChaseLevDeques.ChaseLevDeque.LoadArrayToPush | include/chase_lev_deque.hpp:161-165 | the push reads the array and allocates the next one just when fewer than two slots are free |
| ChaseLevDeques.ChaseLevDeque.CopyEntry | include/chase_lev_deque.hpp:71-72 | one entry is copied at its own index |
| ChaseLevDeques.ChaseLevDeque.InstallArray | include/chase_lev_deque.hpp:166-168 | the copied array becomes the current one, and every old one is kept |
| ChaseLevDeques.ChaseLevDeque.Grow | include/chase_lev_deque.hpp:69-74 | the copying loop goes through all live indices before the array is installed, and changes nothing in the sequence |
| ChaseLevDeques.ChaseLevDeque.FindRoom | include/chase_lev_deque.hpp:161-169 | a push finds an array with room for it, grown if need be |
| ChaseLevDeques.ChaseLevDeque.StoreSlot | include/chase_lev_deque.hpp:171 | the task is stored in the slot of its index before it is published |
| ChaseLevDeques.ChaseLevDeque.PublishBot | include/chase_lev_deque.hpp:172-173 | storing bot appends the task to the sequence |
| ChaseLevDeques.ChaseLevDeque.PushBottom | include/chase_lev_deque.hpp:158-174 | whatever others do meanwhile, a push appends its task exactly once |
| ChaseLevDeques.ChaseLevDeque.LoadBotToPop | include/chase_lev_deque.hpp:178 | the pop aims one below its own latest bot |
| ChaseLevDeques.ChaseLevDeque.LoadArrayToPop | include/chase_lev_deque.hpp:179 | the pop reads the array it will read the slot from |
| ChaseLevDeques.ChaseLevDeque.Fence | include/chase_lev_deque.hpp:184 | the fence returns with no store of the owner pending |
| ChaseLevDeques.ChaseLevDeque.LowerBot | include/chase_lev_deque.hpp:180-184 | bot is lowered, and visibly so, before top is read |
| ChaseLevDeques.ChaseLevDeque.LoadTopToPop | include/chase_lev_deque.hpp:186-199 | the load of top decides: empty at this instant, or the last task to be raced for, or a task taken at this instant |
| ChaseLevDeques.ChaseLevDeque.ReadTaken | include/chase_lev_deque.hpp:194-199 | the slot read after the claim yields the claimed task |
| ChaseLevDeques.ChaseLevDeque.ReadRaced | include/chase_lev_deque.hpp:194 | the slot of the last task is read before the race |
| ChaseLevDeques.ChaseLevDeque.RaceForLast | include/chase_lev_deque.hpp:205-208 | winning the CAS takes the last task, losing it finds the deque empty |
| ChaseLevDeques.ChaseLevDeque.RestoreBot | include/chase_lev_deque.hpp:210-211 | bot is restored and the decided result returned |
| ChaseLevDeques.ChaseLevDeque.PopBottom | include/chase_lev_deque.hpp:177-212 | a pop returns the task it atomically removed from the end, or null if the deque was empty at one instant of the call |
| ChaseLevDeques.ChaseLevDeque.LoadTopToSteal | include/chase_lev_deque.hpp:217 | the thief aims at top as it is at the load |
| ChaseLevDeques.ChaseLevDeque.LoadBotToSteal | include/chase_lev_deque.hpp:219-221 | the thief gives up just when bot in memory shows no task at its index |
| ChaseLevDeques.ChaseLevDeque.LoadArrayToSteal | include/chase_lev_deque.hpp:223 | the thief takes the array that is current in memory at the load |
| ChaseLevDeques.ChaseLevDeque.ReadSlot | include/chase_lev_deque.hpp:224 | the entry of the thief's index is read from the thief's array, retired or not |
| ChaseLevDeques.ChaseLevDeque.CasToSteal | include/chase_lev_deque.hpp:228-236 | winning the CAS removes the first task, and the slot read earlier was that task |
| ChaseLevDeques.ChaseLevDeque.Steal | include/chase_lev_deque.hpp:216-237 | a steal returns the task it atomically removed from the front, or tells an empty-looking deque from a lost race |
| ChaseLevDeques.ChaseLevDeque.Size | include/chase_lev_deque.hpp:245-249 | bot at its load less top at the later one, or zero: never more than the content at the load of bot, and exact at rest |
| ChaseLevDeques.ChaseLevDeque.Empty | include/chase_lev_deque.hpp:239-243 | bot at its load against top at the later one: "not empty" is true at the load of bot, and both answers are exact at rest |
| ChaseLevDeques.ChaseLevDeque.Destroy | include/chase_lev_deque.hpp:139-150 | the destructor frees each remaining task once, oldest first, then the current array and each retired one |
| RingSteps.InitHasInv | include/lockfree_queue_scheduler.hpp:83-90 | a ring whose slot numbers start at their index satisfies the ring invariant |
| RingSteps.StepKeepsInv | include/lockfree_queue_scheduler.hpp:121-165 | every access of every producer and consumer keeps the ring invariant |
| RingTheorems.RunKeepsInv | include/lockfree_queue_scheduler.hpp:121-165 | the ring invariant holds after every run |
| RingTheorems.ReturnsItsOwnTask | include/lockfree_queue_scheduler.hpp:121-153 | what a ticket returned is the very task enqueued under it, never null |
| RingTheorems.NoTicketConsumedTwice | include/lockfree_queue_scheduler.hpp:144-153 | a dequeue about to return has a ticket nobody returned before, and that ticket's task |
| RingTheorems.NoPayloadOverwritten | include/lockfree_queue_scheduler.hpp:126-134 | a producer only ever stores into an empty slot |
| RingTheorems.NothingLostAtRest | include/lockfree_queue_scheduler.hpp:121-165 | with all calls over, the claimed tickets are exactly those returned and every other waits in its slot with its task |
| RingTheorems.WaitsForPreviousGeneration | include/lockfree_queue_scheduler.hpp:126-128 | a producer waits exactly while its slot's previous ticket has not been released |
| RingTheorems.SequenceAdvances | include/lockfree_queue_scheduler.hpp:127-152 | a slot's sequence only goes from p to p+1 (publication) and from p+1 to p+size (release) |
| RingTheorems.OneThreadPerSlot | include/lockfree_queue_scheduler.hpp:126-152 | at most one thread is in the write or take section of a slot |
| RingTheorems.DiffMeans | include/lockfree_queue_scheduler.hpp:138-164 | for any stale ticket: negative iff it is the next one and unpublished, zero iff filled, positive iff already released |
| RingTheorems.RetryMeansProgress | include/lockfree_queue_scheduler.hpp:138-164 | every retry that is not spurious finds that another consumer has advanced the tail |
| RingTheorems.RetriesArePaidFor | include/lockfree_queue_scheduler.hpp:138-164 | during one dequeue, in any run, the retries that are not spurious are at most as many as the claims of other consumers |
| RingTheorems.StepRefines | include/lockfree_queue_scheduler.hpp:121-165 | every step is a step of an atomic FIFO queue: append at the fetch-add, remove the first at the winning CAS if its enqueue is over, answer empty only with no task or with the first one's enqueue still open, else nothing |
| RingTheorems.RunRefinesQueue | include/lockfree_queue_scheduler.hpp:121-165 | linearizability: the events of any run are a run of that queue, so claims happen in ticket order and empty answers have their reason |
| LockFreeRings.OthersLeaveMine | include/lockfree_queue_scheduler.hpp:121-165 | no access of another thread moves a producer's or consumer's own place, nor adds to its events |
| LockFreeRings.TakenIsTask | include/lockfree_queue_scheduler.hpp:150-153 | what a winner takes out of its slot is a task, not null |
| LockFreeRings.LockFreeRing.constructor | include/lockfree_queue_scheduler.hpp:83-90 | the initialising loop makes slot i ready for ticket i |
| LockFreeRings.LockFreeRing.FetchAddHead | include/lockfree_queue_scheduler.hpp:123 | taking a ticket appends the task to the queue |
| LockFreeRings.LockFreeRing.LoadSequenceToFill | include/lockfree_queue_scheduler.hpp:127 | a look at the slot: ready just when its sequence is the ticket at that moment |
| LockFreeRings.LockFreeRing.PutPayload | include/lockfree_queue_scheduler.hpp:131 | the payload is in its slot before it is published, and nowhere else |
| LockFreeRings.LockFreeRing.PublishSequence | include/lockfree_queue_scheduler.hpp:134 | the slot shows its ticket plus one, no other slot changes, and the call is over |
| LockFreeRings.LockFreeRing.Enqueue | include/lockfree_queue_scheduler.hpp:121-135 | an enqueue appends its task exactly once, and is over unless each of its rounds looked at the slot and found it held back by the ticket one generation before; a slot that is ready at the call is filled at the first look |
| RingRuns.ReadySlotStays | include/lockfree_queue_scheduler.hpp:126-134 | a slot that is ready for a ticket stays so, whatever others do, until its producer makes use of it |
| LockFreeRings.LockFreeRing.CallDequeue | include/lockfree_queue_scheduler.hpp:137-138 | a dequeue begins, with the tail of the load as its ticket and no look made yet |
| LockFreeRings.LockFreeRing.ReloadTail | include/lockfree_queue_scheduler.hpp:162 | the ticket is reloaded from the tail of that moment |
| LockFreeRings.LockFreeRing.LoadDiff | include/lockfree_queue_scheduler.hpp:140-158 | the sign of diff decides between a claim, an empty result and a retry |
| LockFreeRings.LockFreeRing.CasTailWeak | include/lockfree_queue_scheduler.hpp:146-155 | winning removes the first task of the queue; failing, also spuriously, reloads the ticket |
| LockFreeRings.LockFreeRing.ExchangePayload | include/lockfree_queue_scheduler.hpp:150 | the winner takes a task and leaves the slot empty |
| LockFreeRings.LockFreeRing.ReleaseSlot | include/lockfree_queue_scheduler.hpp:152-153 | the slot shows the next generation's number, no other slot changes, and the task is returned |
| LockFreeRings.LockFreeRing.Dequeue | include/lockfree_queue_scheduler.hpp:137-165 | a dequeue returns the task it atomically removed from the front, or found the queue empty-looking, unless each of its rounds has looked at a slot in vain; those rounds are at most the claims of other consumers since the call and its own CASes that failed without cause |
| RingRuns.SearchIsPaidFor | include/lockfree_queue_scheduler.hpp:138-164 | along any run, one consumer looks again only for a claim of another or for a CAS of its own that failed without cause |
| BagTheorems.EachStationOnce | include/scheduler.hpp:10-16 | under the bag, a task is submitted, started and finished at most once each, in that order |
| BagTheorems.ReturnedMeansAllRanOnce | include/scheduler.hpp:13-14 | when run returns, each submitted task has been started once and finished once |
| BagTheorems.ReuseChangesNothing | include/scheduler.hpp:13-14 | between two runs the bag forgets nothing: starts, finishes and submissions count over all runs |
| RingSchedulerSteps.InitHasInv | include/lockfree_queue_scheduler.hpp:83-90 | a new ring scheduler satisfies its invariant |
| RingSchedulerSteps.StepKeepsInv | include/lockfree_queue_scheduler.hpp:98-177 | every step of every thread keeps the ring scheduler's invariant, ring included |
| RingSchedulerSteps.StepAllowed | include/lockfree_queue_scheduler.hpp:98-177 | every submission, start, finish and return of the ring scheduler is one the bag allows |
| RingSchedulerSteps.RestKeepsInv | include/lockfree_queue_scheduler.hpp:103-116 | after a run the ring, whatever its tickets are by then, is as good as new for the next one |
| RingSchedulerTheorems.RunRefinesBag | include/lockfree_queue_scheduler.hpp:98-177 | every run of the ring scheduler is a run of the bag |
| RingSchedulerTheorems.RunReturnsWhenAllIsDone | include/lockfree_queue_scheduler.hpp:103-116 | when run returns, every task submitted has run exactly once and the ring is empty |
| RingSchedulerTheorems.NobodyLeavesEarly | include/lockfree_queue_scheduler.hpp:111-116 | while pending is positive no worker has left and run has not stopped waiting |
| RingEarly.EarlySubmissionsFit | include/lockfree_queue_scheduler.hpp:121-135 | when run is called, no more tasks are in the ring than it has slots |
| RingEarly.EarlySubmissionWaits | include/lockfree_queue_scheduler.hpp:126-128 | an early submission is left spinning at its slot if and only if more tasks are submitted than the ring has slots |
| RingEarly.OneTooManyStalls | include/lockfree_queue_scheduler.hpp:126-128 | with one early submission too many no continuation ever reaches run |
| RingEarly.EnqueueCanFinish | include/lockfree_queue_scheduler.hpp:121-135 | an early submission that fits can always be finished |
| RingProgress.StandstillMeansJammed | include/lockfree_queue_scheduler.hpp:121-177 | during run, no continuation lets a client see anything any more if and only if every worker is inside a submission and as many tasks are queued as the ring has slots and workers |
| RingProgress.JammedMeansBeyond | include/lockfree_queue_scheduler.hpp:121-128 | that is so if and only if no worker has, or would get, a ticket that the ring has a slot for |
| RingProgress.JammedForGood | include/lockfree_queue_scheduler.hpp:121-128 | once jammed, no continuation starts or finishes a task or makes run return |
| RingProgress.CanGoOn | include/lockfree_queue_scheduler.hpp:121-177 | unless jammed, some steps the client does not see make a task start, or a running task able to move, or run able to return |
| RingProgress.FirstIsFilled | include/lockfree_queue_scheduler.hpp:121-165 | with work left and nobody running, claiming or able to finish a submission, the first ticket's task is in its slot |
| RingProgress.DoneCanReturn | include/lockfree_queue_scheduler.hpp:111-116 | with all work done, every worker can leave wherever it is, and run can return |
| LockFreeQueueSchedulers.OthersLeaveMine | include/lockfree_queue_scheduler.hpp:98-177 | no step of another thread moves a worker's own place in its loop and its calls, or forgets a task |
| LockFreeQueueSchedulers.PlacesAgree | include/lockfree_queue_scheduler.hpp:167-177 | a worker is inside the ring just while its loop says so, and has left only when no work remains |
| LockFreeQueueSchedulers.LockFreeQueueScheduler.SubmitFromTask | include/lockfree_queue_scheduler.hpp:98-101 | a child is counted, then appended to the queue; it is known to the scheduler from then on; the call is over unless all its rounds have made their access to the ring |
| LockFreeQueueSchedulers.LockFreeQueueScheduler.SubmitBeforeRun | include/lockfree_queue_scheduler.hpp:98-101 | an early submission is counted at once, and is appended and over just when the ring had a slot left and the loop could make its four accesses; at a full ring it waits |
| LockFreeQueueSchedulers.LockFreeQueueScheduler.Dequeue | include/lockfree_queue_scheduler.hpp:137-169 | a dequeue leaves the worker with the first task of the queue in hand, taken at one instant of the call, or at its shutdown check after one instant at which there was no first task or its enqueue was still open, unless all its rounds have made their access to the ring |
| LockFreeQueueSchedulers.LockFreeQueueScheduler.RunAndCount | include/lockfree_queue_scheduler.hpp:169-171 | a task is run to its end, then counted as done |
| LockFreeQueueSchedulers.LockFreeQueueScheduler.Round | include/lockfree_queue_scheduler.hpp:167-177 | a round runs and counts the first task of the queue, or the queue has answered empty and the flag decides, or the dequeue has used up its rounds |
| LockFreeQueueSchedulers.LockFreeQueueScheduler.CheckShutdownFlag | include/lockfree_queue_scheduler.hpp:173-174 | a worker leaves exactly when it reads the flag as set |
| LockFreeQueueSchedulers.LockFreeQueueScheduler.WorkerLoop | include/lockfree_queue_scheduler.hpp:167-177 | a worker that has left its loop left no work behind: pending is zero, nothing queued, nothing running; one that has not has made an access for every round it was given |
| LockFreeQueueSchedulers.LockFreeQueueScheduler.AwaitZero | include/lockfree_queue_scheduler.hpp:111-112 | run stops waiting only after reading zero, does so at once if pending is zero, and otherwise has read a positive pending at every poll |
| RingSchedulerRuns.QuiescenceIsStable | include/lockfree_queue_scheduler.hpp:111-112 | once run was called, pending at zero stays zero until run has returned |
| LockFreeQueueSchedulers.LockFreeQueueScheduler.Run | include/lockfree_queue_scheduler.hpp:103-116 | run is called and the workers launched; if it returns, every task ever submitted has run exactly once, no ticket is unclaimed, and the scheduler is ready for the next run; otherwise it is still waiting after all its polls, or joining, which it reaches if pending is zero at the call |
| TaskGraphs.InDegreeAfterWiring | include/task_graph.hpp:66-72 | one more edge raises the in-degree of its target by one and no other, parallel edges included |
| TaskGraphs.InDegreeWithNewNode | include/task_graph.hpp:114-119 | a new node has in-degree zero and changes no other |
| TaskGraphs.DagNode.DependsOn | include/task_graph.hpp:66-72 | appends one successor entry and raises one counter by one, also from a node to itself |
| TaskGraphs.TaskGraph.Node | include/task_graph.hpp:114-119 | adds a fresh unconnected node; all counters stay in-degrees |
| TaskGraphs.TaskGraph.AddDependency | include/task_graph.hpp:66-72 | the graph gains just that edge; all counters stay in-degrees |
| TaskGraphs.DagNode.FetchSub | include/task_graph.hpp:158-160 | the counter is lowered by one and its old value returned |
| TaskGraphs.TaskGraph.BeginExecution | include/task_graph.hpp:124-128 | every node is counted as remaining before any is submitted |
| TaskGraphs.TaskGraph.SeedNode | include/task_graph.hpp:131-135 | the walk submits a node just when its counter is zero |
| TaskGraphs.TaskGraph.Seed | include/task_graph.hpp:123-135 | exactly the nodes without incoming edges are submitted before run |
| TaskGraphs.SourcesHaveJobs | include/task_graph.hpp:131-138 | once the walk is over, every node without incoming edges has its task, at any later moment too |
| TaskGraphs.TaskGraph.Execute | include/task_graph.hpp:123-144 | in every outcome each node without incoming edges has been submitted and run was called; if run returns, exactly the nodes not reachable from a cycle have run and the closing assertion holds iff the graph is acyclic |
| TaskGraphs.TaskGraph.RunFunction | include/task_graph.hpp:150-152 | the node's function ends before any successor is touched |
| TaskGraphs.TaskGraph.DecrementSuccessor | include/task_graph.hpp:158-160 | one edge is passed and one counter lowered by one; who reads one, and nobody else, must submit |
| TaskGraphs.TaskGraph.SubmitSuccessor | include/task_graph.hpp:160-163 | the ready successor, and no other node, is submitted as a new task |
| TaskGraphs.TaskGraph.WalkSuccessors | include/task_graph.hpp:157-164 | the loop passes every edge once, whatever other tasks do meanwhile |
| TaskGraphs.TaskGraph.MarkDone | include/task_graph.hpp:167 | the node is counted as done after its last edge |
| TaskGraphs.TaskGraph.RunNode | include/task_graph.hpp:149-168 | a node task that has ended has run its function and passed all its edges |
| DagSteps.InitHasInv | include/task_graph.hpp:66-72 | a graph as wired satisfies the execution invariant |
| DagSteps.PredecessorsHaveEnded | include/task_graph.hpp:157-163 | when a node has its task, the functions of all its predecessors have ended |
| DagSteps.StepKeepsInv | include/task_graph.hpp:123-168 | every step of driver and node tasks keeps the execution invariant |
| DagTheorems.PrecedenceHolds | include/task_graph.hpp:149-164 | a function begins only after all predecessors' functions have ended, and begins only once |
| DagTheorems.SubmittedOnce | include/task_graph.hpp:157-164 | no two tasks are ever submitted for one node |
| DagTheorems.CounterMeans | include/task_graph.hpp:66-72 | each counter is the number of incoming edges not yet passed, and zero exactly when none is left |
| DagTheorems.BehindCycleNeverBegins | include/task_graph.hpp:131-164 | nothing on a cycle or reachable from one ever begins |
| DagTheorems.LeftBehindWaitForEachOther | include/task_graph.hpp:140-143 | when run has returned, every node left behind has a predecessor left behind |
| DagTheorems.ExactlyTheseNodesRun | include/task_graph.hpp:123-168 | for any finite multigraph, when run returns exactly the nodes not reachable from a cycle have run, to their end, and the counter is the number of the others |
| DagTheorems.ClosingAssertionIffAcyclic | include/task_graph.hpp:142-143 | the closing assertion holds if and only if the graph is acyclic |
| DagTermination.StepDoesWork | include/task_graph.hpp:123-168 | every step strictly lowers the work left |
| DagTermination.ExecutionIsBounded | include/task_graph.hpp:123-168 | every execution, on cyclic graphs too, has at most six steps a node and two an edge, plus two |
| DagTermination.BagExecutionIsNeverStuck | Docs/ENGINEERING.md:233-235 | contrary to the text, on a bag that takes every submission some step of the graph is possible until run has returned, cycles or not |
| WorkStealingSteps.InitHasInv | include/work_stealing_scheduler.hpp:102-109 | a new work-stealing scheduler satisfies its invariant |
| WorkStealingSteps.VictimIsNotSelf | include/work_stealing_scheduler.hpp:174-176 | a victim is always another worker, for every start and attempt |
| WorkStealingSteps.StepKeepsInv | include/work_stealing_scheduler.hpp:88-198 | every step of every thread keeps the scheduler's invariant, deques and store buffers included |
| WorkStealingSteps.StepAllowed | include/work_stealing_scheduler.hpp:88-198 | every submission, start, finish and return of the scheduler is one the bag allows |
| WorkStealingSteps.ClearWorkersKeepsInv | include/work_stealing_scheduler.hpp:134-135 | throwing the workers away after a run leaves a scheduler that can run again |
| WorkStealingTheorems.RunRefinesBag | include/work_stealing_scheduler.hpp:88-198 | every run of the work-stealing scheduler is a run of the bag |
| WorkStealingTheorems.RunReturnsWhenAllIsDone | include/work_stealing_scheduler.hpp:102-136 | when run returns, every task submitted before or during it has run exactly once and all deques are empty, in memory too |
| WorkStealingTheorems.PendingIsExact | include/work_stealing_scheduler.hpp:88-100 | pending counts the injected, resident, popped, stolen, running and half-submitted tasks, no more and no less |
| WorkStealingTheorems.QuiescenceIsStable | include/work_stealing_scheduler.hpp:128-131 | once run was called, pending at zero stays zero until the workers are thrown away |
| WorkStealingTheorems.NobodyLeavesEarly | include/work_stealing_scheduler.hpp:151-164 | while pending is positive no worker has left and run has not stopped waiting |
| WorkStealingTheorems.OwnerDiscipline | include/work_stealing_scheduler.hpp:88-151 | a deque is pushed and popped only by its worker, or by run before the launch, and never stolen from by its own worker |
| WorkStealingTheorems.SweepCovers | include/work_stealing_scheduler.hpp:168-189 | an unsuccessful sweep tries every other worker but the one before its start, and misses that one exactly when the start is neither the next worker nor the one after |
| WorkStealingTheorems.AnyoneCanBeFirst | include/work_stealing_scheduler.hpp:171-176 | every other worker is the first victim for some draw |
| WorkStealingTheorems.DrawPicks | include/work_stealing_scheduler.hpp:171-172 | a draw picks a worker as first victim if and only if its remainder modulo n-1 is that worker's place among the others |
| WorkStealingProgress.QueuedCanStart | include/work_stealing_scheduler.hpp:149-197 | while nothing runs, a queued task can be started from any reachable state, without the client's help |
| WorkStealingProgress.PushCanFinish | include/work_stealing_scheduler.hpp:90-93 | a submission in progress can always be finished, growth and all |
| WorkStealingProgress.LaunchIsPossible | include/work_stealing_scheduler.hpp:113-125 | run can always bring its injected tasks to deque 0 and start the workers |
| WorkStealingProgress.DoneCanReturn | include/work_stealing_scheduler.hpp:128-132 | with all work done, every worker can leave wherever it is, and run can return |
| WorkStealingSchedulers.OthersLeaveMine | include/work_stealing_scheduler.hpp:88-198 | no step of another thread moves a worker's own place in its loop and its calls, or forgets a task |
| WorkStealingTheorems.BetweenCalls | include/work_stealing_scheduler.hpp:150-152 | a worker that is not popping or submitting finds its deque between calls |
| WorkStealingTheorems.AimsAtOther | include/work_stealing_scheduler.hpp:174-178 | a sweeping worker aims at another worker's deque, where it is no thief yet |
| WorkStealingTheorems.LeavingMeansDone | include/work_stealing_scheduler.hpp:151-164 | a worker has left only when no work remains |
| WorkStealingTheorems.LastToFinishLeaves | include/work_stealing_scheduler.hpp:153-155 | whoever counts a task as done leaves at once if and only if nothing is queued or running any more, that is, if its own task was the only one left |
| WorkStealingSchedulers.WorkStealingScheduler.Pop | include/work_stealing_scheduler.hpp:151 | a pop leaves the worker with the last task of its own deque in hand, or at its exit check with that deque empty at one instant of the call |
| WorkStealingSchedulers.WorkStealingScheduler.CompletePop | include/work_stealing_scheduler.hpp:151 | a pop in progress ends, as one removal of the last task or one look at an empty deque |
| WorkStealingSchedulers.WorkStealingScheduler.CompletePush | include/work_stealing_scheduler.hpp:93 | a push in progress ends, having appended its task |
| WorkStealingSchedulers.WorkStealingScheduler.SubmitFromTask | include/work_stealing_scheduler.hpp:90-93 | a child is counted, then appended to the submitting worker's own deque |
| WorkStealingSchedulers.WorkStealingScheduler.SubmitExternally | include/work_stealing_scheduler.hpp:94-99 | an early submission is counted and appended to the injection queue |
| WorkStealingSchedulers.WorkStealingScheduler.Submit | include/work_stealing_scheduler.hpp:88-100 | the thread-local number decides between own deque, on which the task is then pushed, and injection queue; the submitted work is known from then on |
| WorkStealingSchedulers.WorkStealingScheduler.Attempt | include/work_stealing_scheduler.hpp:178-180 | one steal is begun on the victim, ending with the victim's oldest task in hand or at the next attempt |
| WorkStealingSchedulers.WorkStealingScheduler.Sweep | include/work_stealing_scheduler.hpp:168-189 | the loop tries exactly the victims of the sweep, in order, with a steal begun on each, until one succeeds or n-1 have failed |
| WorkStealingSchedulers.WorkStealingScheduler.RunAndCount | include/work_stealing_scheduler.hpp:152-155 | a task is run to its end and counted; its worker leaves exactly if nothing was left anywhere at that moment |
| WorkStealingSchedulers.WorkStealingScheduler.CheckPendingZero | include/work_stealing_scheduler.hpp:161 | the first exit check: a worker leaves exactly when it reads zero |
| WorkStealingSchedulers.WorkStealingScheduler.CheckShutdownAndDraw | include/work_stealing_scheduler.hpp:162-172 | the second exit check reads the flag, and the draw decides the start, which is never the worker itself |
| WorkStealingSchedulers.WorkStealingScheduler.Round | include/work_stealing_scheduler.hpp:149-197 | a round pops its own deque's last task, runs and counts it; or finds the deque empty and leaves with nothing left anywhere, or runs and counts another worker's oldest task, or has begun a steal on every victim of a sweep |
| WorkStealingSchedulers.WorkStealingScheduler.WorkerLoop | include/work_stealing_scheduler.hpp:141-198 | a worker that has left its loop left no work behind: pending is zero, nothing queued, nothing running; one that has not has gone through a round for every draw |
| WorkStealingSchedulers.WorkStealingScheduler.DrainInjected | include/work_stealing_scheduler.hpp:113-119 | each injected task is pushed on deque 0, which ends up holding just the injection queue, in order |
| WorkStealingSchedulers.WorkStealingScheduler.DrainAll | include/work_stealing_scheduler.hpp:121-125 | starting the threads publishes every store of run: all buffers are empty |
| WorkStealingSchedulers.WorkStealingScheduler.Launch | include/work_stealing_scheduler.hpp:118-125 | the injection queue is cleared and the workers start, with all stores of run drained and deque 0 as it was filled |
| WorkStealingSchedulers.WorkStealingScheduler.AwaitZero | include/work_stealing_scheduler.hpp:128-129 | run stops waiting only after reading zero, does so at once if pending is zero, and otherwise has read a positive pending at every poll |
| WorkStealingSchedulers.WorkStealingScheduler.Clear | include/work_stealing_scheduler.hpp:134-135 | the workers are thrown away, and the scheduler is ready for the next run |
| WorkStealingSchedulers.WorkStealingScheduler.Run | include/work_stealing_scheduler.hpp:102-136 | the injected tasks are pushed on deque 0, in order, and the workers launched with them; if run returns, every task ever submitted, in this run or an earlier one, has run exactly once, every deque was empty at the return, and the scheduler is ready for the next run; otherwise it is still waiting after all its polls, or joining, which it reaches if pending is zero at the call |
| GraphOnSchedulers.StealingSimulates | include/task_graph.hpp:123-168 | whatever a graph and the work-stealing scheduler do together, graph and bag can do |
| GraphOnSchedulers.StealingRunsExactlyTheseNodes | include/task_graph.hpp:123-168 | on work stealing, for every worker count, interleaving and draw: exactly the nodes not reachable from a cycle run, and the closing assertion holds iff the graph is acyclic |
| GraphOnSchedulers.StealingKeepsPrecedence | include/task_graph.hpp:149-164 | on work stealing, a function begins once and only after its predecessors' have ended |
| GraphOnSchedulers.RingSimulates | include/task_graph.hpp:123-168 | whatever a graph and the ring scheduler do together, graph and bag can do |
| GraphOnSchedulers.RingRunsExactlyTheseNodes | include/task_graph.hpp:123-168 | the same on the ring scheduler, for every ring size and worker count |
| GraphOnSchedulers.RingKeepsPrecedence | include/task_graph.hpp:149-164 | on the ring scheduler, a function begins once and only after its predecessors' have ended |
| GraphProgress.ExecuteCanAlwaysReturn | Docs/ENGINEERING.md:233-235 | contrary to the text, on work stealing every state that any run on any graph reaches, cycles or not, can be continued until run returns |
| GraphOnRing.SeedingFitsExactly | include/task_graph.hpp:131-138 | on the ring scheduler run can be called if and only if the graph has at most as many sources as the ring has slots |
| GraphOnRing.TooManySourcesStall | include/task_graph.hpp:131-135 | with more sources than slots no execution ever calls run |
| GraphOnRing.WalkCanFinish | include/task_graph.hpp:131-138 | with no more sources than slots, the walk can be finished from wherever it is |
| GraphOnRingProgress.ExecuteCanReturnOrJam | include/task_graph.hpp:123-144 | with no more sources than slots, every state that any run on any graph reaches can be continued until run returns or the ring is jammed |
| GraphOnRingProgress.JamNeedsNodes | include/task_graph.hpp:157-163 | a jam takes as many nodes as the ring has slots and two more for each worker |
| GraphOnRingProgress.ExecuteCanAlwaysReturn | include/task_graph.hpp:123-144 | so with fewer nodes every reachable state can be continued until run returns, cycles or not |
| GraphOnRingProgress.FanOutStallsOneWorker | include/task_graph.hpp:157-163 | one worker never returns from run on a graph with a node, not behind a cycle, that is the only predecessor of more nodes than the ring has slots |
| GraphOnRingProgress.FanOutJamsOneWorker | include/task_graph.hpp:157-163 | and if its sources fit, every state that any run on such a graph reaches can be continued to a jam |
| GraphOnOneWorker.OneWorkerReturnsExactly | include/task_graph.hpp:123-168 | on one worker, from any state an execution has reached, run can return if and only if Kahn's algorithm with a first-in-first-out list never has more nodes on the list than the ring has slots |
| GraphOnOneWorker.ExecutionIsOnTrack | include/task_graph.hpp:123-168 | with one worker every execution, whatever the interleaving, is at some step of that algorithm, and its list has always fitted unless the ring is jammed |
| GraphOnOneWorker.LineMoves | include/lockfree_queue_scheduler.hpp:98-171 | with one worker, every step of the scheduler leaves the line of queued tasks alone, adds a submitted task at its end, or starts its first |

## Left out

- LockFreeRings.LockFreeRing.Enqueue: does not promise that the slot ever becomes free; it need not (JammedForGood), so the spin loop is cut after any number of rounds; the contract says what they found.
- LockFreeRings.LockFreeRing.Dequeue: does not promise that a claim is won within any number of rounds (compare_exchange_weak may fail without cause); the contract bounds the rounds made in vain by those failures and the claims of others.
- WorkStealingSchedulers.WorkStealingScheduler.WorkerLoop: rounds and draws are given as a sequence of any length; the generator, `yield` and the backoff count, which only spend time, are not modelled.
- WorkStealingSchedulers.WorkStealingScheduler.Run: that `run` does return is not proved, since it depends on fair scheduling of the threads; GraphProgress.ExecuteCanAlwaysReturn says that it always can. The same goes for TaskGraphs.TaskGraph.Execute.
- LockFreeQueueSchedulers.LockFreeQueueScheduler.Run: that `run` does return is not proved, for the same reason; RingProgress says when it can.
- GraphOnRingProgress.ExecuteCanAlwaysReturn: its bound on the nodes is sufficient, not necessary. For one worker OneWorkerReturnsExactly is exact; with more, which larger graphs can jam the ring depends on which nodes run side by side, and the exact condition is one on states (StandstillMeansJammed).
- WorkStealingSchedulers.WorkStealingScheduler.Submit: a submission from outside while `run` is active is not modelled; the code would append it to the injection queue, which is emptied only by the next `run`.
- LockFreeQueueSchedulers.LockFreeQueueScheduler.SubmitBeforeRun: one thread submits before `run`; submissions from several outside threads, or during `run`, are not modelled.
- WorkStealingSchedulers.WorkStealingScheduler.constructor: the deques exist from the start, and anew after each `run`, instead of being made when `run` begins.
- Joining the threads (`Join`), the scheduler under `execute` (`RunScheduler`) and the tasks' own code (`RunTask`) stand in the objects by their contracts alone.
- The scheduler objects move their deques and ring as values of the component models, one access at a time; ChaseLevDeques and LockFreeRings have the same components with arrays updated in place.
- Memory models weaker than TSO for the deque, and weaker than sequential consistency elsewhere: the C++ acquire, release, consume and relaxed orders are not modelled beyond that.
- Wrap-around of the 64-bit counters and of the 32-bit in-degree.
- `run(0)`, nested schedulers that share the thread-local worker number, tasks that throw.
- Alignment and false sharing.
- The variadic form of `depends_on`, which calls the single form once for each predecessor.
- include/mutex_queue_scheduler.hpp: a queue under one lock; it would add only easy members.
- bench/, include/benchmark.hpp and src/tests.cpp: programs that use the library.
