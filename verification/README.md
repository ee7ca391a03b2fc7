# uThreads: a model and its proofs

uThreads multiplexes user-level threads (uThreads) over kernel threads (kThreads). What is hard about it is a set of
concurrent protocols that all share the one intrusive link inside a uThread: a lock-free run queue whose consumer goes
to sleep on a semaphore, blocking primitives whose enqueue and unlock happen only after the context switch, an I/O slot
that a blocking uThread and the poller race on. This project models those protocols, the containers under them, two of
the alternative schedulers, and the body framing of the HTTP parser that ships with the web server sample.

`dafny verify dfyconfig.toml` checks the whole project.

## How the model is built

**Protocols** are step systems over values: a `State`, the `Action`s that any participant may take next (`Enabled`,
`Apply`), an inductive invariant `Inv`, and `Run`, which holds of every finite sequence of states and actions that
starts in `Init`. The number of participants is unbounded and every interleaving of the steps is a run. A step is one
access to shared memory in `RunQueue`, `NodeQueue`, `NodeOwnership` and `IoParking`, one access to the protected data or
to the base lock in `MutexBaton`, `ConditionVariable`, `UserSemaphore` and `Join`, and one critical section in
`ThreadPool` and `Scheduler1`. Fields named as history in the state types (logs, counters, owners) are not read by the
modelled code. Three guards do read them, as assumptions on the environment: an element or node that is pushed is in
nobody's hands (`RunQueue`, `NodeQueue`), a uThread that is scheduled is on no run queue, and a new node is new
(`NodeOwnership`). Under scheduler 2, with one uThread as one element, `Placement` shows that the runtime keeps the first
of them. The theorems speak about all runs; `RunInv` and `StepKeeps` are the induction behind them.

**Sequential code that works in place** is imperative: the containers are classes over heap links with the loops of the
source, the ready queue of scheduler 1 works on these containers, the poller round is a class whose methods are proved
against specification functions, and `http_parser_execute` is a class whose loop skips ahead in bulk and is proved to
refine a machine that is fed one byte at a time. That machine starts where the headers are complete. Behind the message
it reads up to the first byte of the next message or of a trailer field; from there on it records only that the parser
got there, and the theorems about streams are to be read so.

| module | what it is |
|---|---|
| `Containers` | `IntrusiveStack`, `IntrusiveQueue`, `IntrusiveList` on the heap |
| `GappedChain` | linked chains in which the link behind an exchange is not written yet |
| `RunQueue` | `BlockingMPSCQueue` and the sleep and wake protocol of scheduler 2 |
| `Placement` | where uThreads are, over start, yield, migrate, suspend, resume and terminate |
| `BlockingQueue` | wait lists and hand-offs, as the blocking primitives share them |
| `MutexBaton`, `ConditionVariable`, `UserSemaphore`, `Join`, `ThreadPool`, `ThreadPoolOrder` | blocking synchronisation |
| `IoParking`, `IoPoll` | the race on a poll slot; one round of the poller |
| `Scheduler1`, `ReadyQueue` | the shared ready queue with chained wake-ups: its steps, and its code |
| `NodeQueue`, `NodeOwnership`, `NodeSteps`, `NodeExchange` | the non-intrusive queue of scheduler 4; the exchange of its nodes, step by step and over runs |
| `HttpBody`, `HttpExecute`, `HttpCuts`, `HttpChunks` | body framing of the HTTP parser |

## Where the code does not do what one would expect

- Behind an upgraded message the bytes of the other protocol are left alone in the same buffer, but a later call reads
  them as the next message: on a connection that is not kept alive it refuses them, and on one that is it takes them for
  a request or response, refuses them or reports that a message begins. So the final state depends on where the stream is
  cut. `HttpCuts.CutKeepsState` shows that this is the only case (an if-and-only-if); `HttpChunks.OtherProtocolReadOn`
  and `HttpChunks.OtherProtocolBegins` are inputs.
- The callback trace depends on the cut when a message begins there, and in one more case: when the byte behind chunk data
  is not a carriage return and arrives in the same buffer as data of that chunk, the error exit drops the body piece that
  the mark holds back. `HttpCuts.CutKeepsTrace` shows that these are the only cases (an if-and-only-if), and
  `HttpChunks.DroppedPiece` is an input for the second.
- Between responses every line end is reported as the beginning of a message (`HttpCuts.BetweenOpens`).
- A call of the parser without bytes is the end of the connection, never an empty piece (`HttpCuts.EmptyPieceIsEof`).
- A uThread that is about to be parked on a descriptor while that is being closed is dropped. `Placement.NothingIsLost`
  shows that this is the only way to lose one in the modelled steps, and `Placement.LostToClose` is a run.
- A chunk of more than 2^64 - 17 bytes is refused although its size fits into 64 bits, and bytes from 128 up pass for
  the digit zero in a chunk size (`HttpChunks.RoundTrip`, `HttpChunks.DigitsOfTheTable`).
- The thread pool takes queued tasks in order and need not start them in order: `ThreadPoolOrder.SecondStartsFirst` is a
  run, and `ThreadPool.TakenTasksStart` says what holds.
- `uThread::resume` is public and does not take the uThread out of a wait list: called by a program on a waiting uThread it
  links it into two containers. `Placement.ResumeNeedsDequeue` says exactly when.
- `pop(count)` and `remove(first, count)` called with zero take one element and report zero; the count they report is
  the number of elements taken exactly when it was not zero (`Containers.Walk`).
- `onQueue` misses the last element of a queue, and only that one (`Containers.OnQueueMissesTheTail`).
- `IntrusiveList::removeAll` leaves the anchor pointing at the removed elements, and no sequence of elements describes
  the list afterwards (`Containers.RemoveAllBreaksTheRing`).

## Model

| member | source | states |
|---|---|---|
| `RunQueue.StepKeeps` | src/generic/IntrusiveContainers.h:305-346 | every step of any producer (single elements or linked batches), of `pop`, and of the kThread's semaphore protocol keeps the invariant over chains with unwritten links |
| `RunQueue.RunInv` | src/runtime/schedulers/Scheduler_02.h:56-110 | the invariant holds in every state of every run |
| `RunQueue.PopsInExchangeOrder` | src/generic/IntrusiveContainers.h:305-346 | pops are a prefix of the exchange order with batches contiguous; the rest of that order is exactly what is in hand or still in the chain, and nothing is there twice |
| `RunQueue.StubOnce` | src/generic/IntrusiveContainers.h:323-346 | the stub is in the chain exactly when `pop` is not moving it, once, and a marked tail means head and tail are both the stub |
| `RunQueue.NullPopMeansEmpty` | src/generic/IntrusiveContainers.h:323-346 | `pop` returns null only in a step at which everything exchanged has been popped, and leaves the tail marked |
| `RunQueue.PopNeverStuck` | src/generic/IntrusiveContainers.h:323-346 | `pop` never follows a null link |
| `RunQueue.SpinHasOneProducer` | src/generic/IntrusiveContainers.h:325-345 | whenever the consumer waits on a null link, exactly one producer has exchanged and not linked there, and its next step ends the wait |
| `RunQueue.PopAdvances` | src/generic/IntrusiveContainers.h:323-346 | outside such waits every step of `pop` brings it closer to its return |
| `RunQueue.NoLostWakeUp` | src/runtime/schedulers/Scheduler_02.h:56-110 | a kThread asleep with semaphore count zero has its queue marked empty, or a producer owes the post |
| `RunQueue.DebtStays` | src/runtime/schedulers/Scheduler_02.h:56-61 | in every run, whatever the others do, a producer that owes a post owes it until it posts, and its next step is always enabled |
| `RunQueue.OwedPostArrives` | src/runtime/schedulers/Scheduler_02.h:56-110 | in every run, once such a producer has posted, a kThread in `sem.wait` can leave it and stays able to, whatever the others do, until it does |
| `RunQueue.AsleepMeansDrained` | src/runtime/schedulers/Scheduler_02.h:89-110 | with no producer under way and the kThread asleep, everything pushed has been popped |
| `RunQueue.OneReportPerMark` | src/generic/IntrusiveContainers.h:305-312 | each marked-empty period is ended by exactly one "was empty" report, and every report is owed, stored in the semaphore or spent |
| `GappedChain.GapHasOwner` | src/generic/IntrusiveContainers.h:305-312 | the first link of a chain is either written and right, or missing and recorded with the insertion under way that will write it |
| `Placement.StepKeeps` | src/runtime/kThread.cpp:170-199 | every step of start, yield, migrate, suspend, terminate, the two halves of the context switch, signal, resume, unblock and bulk push keeps the placement invariant |
| `Placement.RunInv` | src/runtime/kThread.cpp:103-199 | the placement invariant holds in every state of every run, which starts with `initUT` on the default kThread |
| `Placement.ExactlyOnePlace` | src/runtime/kThread.cpp:170-199 | a uThread is in exactly one container (current, chosen, run queue, wait list, slot, bulk queue, in transit, new, cached), and once in it |
| `Placement.NothingIsLost` | src/runtime/uThread.cpp:128-138 | a uThread has been dropped if and only if one was to be parked on a descriptor that was being closed: `postSwitchFunc` and `resume` handle every other state that reaches them |
| `Placement.LostToClose` | src/io/IOHandler.cpp:80-86 | a run in which that happens |
| `Placement.QueuedAtHome` | src/runtime/schedulers/Scheduler_02.h:117-135 | every uThread on a run queue, a bulk queue or chosen next has that kThread as its home, and a kThread runs and chooses at most one |
| `Placement.ResumeKeeps` | src/runtime/uThread.cpp:128-138 | when a caller of the runtime has taken a waiting, new, migrating or yielding uThread out of its place, `resume` puts it on the run queue of its home and leaves the other places alone |
| `Placement.ResumeNeedsDequeue` | src/runtime/uThread.h:289-293 | in every run, `resume` on its own links the uThread twice if and only if it is on a run queue, a wait list or a bulk queue |
| `Placement.SwitchOutKeeps` | src/runtime/kThread.cpp:170-194 | after the first half of `postSwitchFunc` the kThread has no current uThread, the chosen one is untouched, and the old one is somewhere |
| `Placement.SwitchInKeeps` | src/runtime/kThread.cpp:195-199 | the second half, a step of its own, keeps the placement invariant: the chosen uThread becomes the current one |
| `MutexBaton.StepKeeps` | src/runtime/BlockingSync.h:141-170 | every step of acquire and release keeps the invariant on base lock, owner, queue and hand-off |
| `MutexBaton.RunInv` | src/runtime/BlockingSync.h:141-170 | the invariant holds in every state of every run |
| `MutexBaton.MutualExclusion` | src/runtime/BlockingSync.h:141-195 | at most one uThread is between `acquire` and `release`, and it is the owner |
| `MutexBaton.FifoHandOff` | src/runtime/BlockingSync.cpp:38-49 | the Mutex is handed on in the order of queueing, each wait once; the rest of that order is the queue |
| `MutexBaton.OwnerSurvivesUnlock` | src/runtime/BlockingSync.cpp:38-49 | the second read of `owner`, after the base lock is gone, yields the dequeued uThread, which then holds the Mutex |
| `MutexBaton.NobodyForgotten` | src/runtime/BlockingSync.h:107-170 | a null owner implies an empty queue, a queued uThread waits behind an owner, and a dequeued one has exactly one releaser that will resume it |
| `MutexBaton.SomeoneCanMove` | src/runtime/BlockingSync.h:141-170 | while anybody is inside, some step is enabled |
| `ConditionVariable.StepKeeps` | src/runtime/BlockingSync.h:254-285 | every step of wait, signal and signalAll keeps the invariant on mutex, queue and hand-offs |
| `ConditionVariable.RunInv` | src/runtime/BlockingSync.h:254-285 | the invariant holds in every state of every run |
| `ConditionVariable.StepRefines` | src/runtime/BlockingSync.cpp:51-75 | every step is one operation of a monitor with indivisible wait, signal and signalAll, or invisible in it |
| `ConditionVariable.RunRefines` | src/runtime/BlockingSync.h:254-285 | in every run the operations completed so far are, one by one, allowed by that monitor and lead to what the state stands for |
| `ConditionVariable.WokenInOrder` | src/runtime/BlockingSync.cpp:51-75 | waiters are woken in the order of queueing, each wait once; the rest of that order is the queue |
| `ConditionVariable.NoLostSignal` | src/runtime/BlockingSync.h:107-116 | a uThread that has given up the mutex in `wait` is on the queue or woken, and one dequeued by a signal has exactly one signaller that will resume it |
| `UserSemaphore.StepKeeps` | src/runtime/BlockingSync.h:294-341 | every step of P and V keeps the invariant on counter, queue, grants and hand-offs |
| `UserSemaphore.RunInv` | src/runtime/BlockingSync.h:294-341 | the invariant holds in every state of every run |
| `UserSemaphore.Conservation` | src/runtime/BlockingSync.h:294-341 | initial value plus V's equals counter plus granted P's, and the grants are, as a multiset, the returned and the returning calls |
| `UserSemaphore.FifoGrants` | src/runtime/BlockingSync.h:299-340 | waiters are granted in the order of queueing; the rest of that order is the queue |
| `UserSemaphore.NoIdleUnits` | src/runtime/BlockingSync.h:299-340 | a positive counter means nobody is queued or about to be |
| `UserSemaphore.HandOffHasOneV` | src/runtime/BlockingSync.cpp:51-63 | a dequeued waiter has exactly one V that will resume it, and that step ends its P |
| `Join.MoveKeeps` | src/runtime/uThread.h:122-133 | every step of joiner and target keeps the rendezvous invariant |
| `Join.RecycleKeeps` | src/runtime/uThread.cpp:43-49 | recycling, which resets only the join state, keeps it too |
| `Join.RunInv` | src/runtime/uThread.cpp:139-160 | the rendezvous invariant holds over any number of recycles |
| `Join.RecycledFieldsAreFresh` | src/runtime/uThread.cpp:43-49 | when the target can be recycled the joiner has no step left, one side has waited, and all join fields have their initial values |
| `Join.OneSideWaits` | src/runtime/uThread.h:122-133 | in a round at most one side waits on `joinWait`; the other one, once inside, signals it |
| `Join.NeitherStaysBlocked` | src/runtime/uThread.h:122-133 | until both sides are done, one of them can move |
| `Join.RoundsAreShort` | src/runtime/uThread.h:122-133 | any schedule of moves in a round is at most 42 steps long |
| `ThreadPool.StepKeeps` | src/runtime/uThreadPool.cpp:31-83 | every step of submitters and workers keeps the invariant on task list, idle counter and condition variable |
| `ThreadPool.RunInv` | src/runtime/uThreadPool.cpp:31-83 | the invariant holds in every state of every run |
| `ThreadPool.TasksStartOnce` | src/runtime/uThreadPool.cpp:31-83 | every submitted task is carried by one submitter or worker, on the list once, or started once |
| `ThreadPool.TasksAreFifo` | src/runtime/uThreadPool.cpp:46-76 | queued tasks are taken in the order of queueing; the rest of that order is the list |
| `ThreadPool.TakenTasksStart` | src/runtime/uThreadPool.cpp:66-81 | a queued task is on the list, or started, or with exactly one worker that is about to start it and can do so at once, and only one of these |
| `ThreadPoolOrder.SecondStartsFirst` | src/runtime/uThreadPool.cpp:66-81 | a run in which two tasks are queued and taken in one order and started in the other |
| `ThreadPool.IdleNeverUnderflows` | src/runtime/uThreadPool.cpp:66-81 | the idle counter is the number of idle workers and is positive whenever it is decremented |
| `ThreadPool.NoSleepOverWork` | src/runtime/uThreadPool.cpp:46-76 | with a task on the list some worker is off the condition variable, and it or the submitter that is to resume it can take a step; while any worker sleeps, every queued task has such a worker that is idle |
| `IoParking.StepKeeps` | src/io/IOHandler.cpp:56-170 | every access to the slot by the uThread or the poller keeps the parking invariant |
| `IoParking.RunInv` | src/io/IOHandler.cpp:56-170 | the parking invariant holds in every state of every run |
| `IoParking.NoLostNotification` | src/io/IOHandler.cpp:143-170 | after a processed event the slot is READY or the uThread is on its way to retry, never left parked |
| `IoParking.OneWakePerPark` | src/io/IOHandler.cpp:80-104 | parks and wakes balance, and the poller delivers only a uThread that is waiting |
| `IoParking.PlainWritesAreSafe` | src/io/IOHandler.cpp:61-91 | whenever the uThread clears the slot with a plain write, the slot holds READY |
| `IoParking.RetryComes` | src/io/IOHandler.cpp:80-170 | after a processed event some enabled step other than a new event brings the next attempt closer, and no step of the poller moves it away |
| `IoPoll.UnblockedOnce` | src/io/IOHandler.cpp:143-175 | for every list of reported ports exactly the uThreads parked on them are unblocked, each once, and the other slots keep theirs |
| `IoPoll.DeliveredOnce` | src/runtime/schedulers/Scheduler_02.h:117-135 | a kThread is handed, without duplicates, exactly the unblocked uThreads whose home it is |
| `IoPoll.IoHandler.Unblock` | src/io/IOHandler.cpp:143-170 | a parked uThread is taken out and put on the bulk queue of its home; otherwise the slot becomes READY |
| `IoPoll.IoHandler.PollReady` | src/io/IOHandler.cpp:172-175 | the read and the write flag are worked off in this order and counted |
| `IoPoll.IoHandler.BulkPush` | src/runtime/schedulers/Scheduler_02.h:123-135 | afterwards all bulk queues are empty and each run queue has grown by its bulk queue |
| `IoPoll.IoHandler.Poll` | src/io/IOHandler.cpp:127-137 | bulk queues empty and counters zero, every unblocked uThread appended to its home run queue in unblock order, and their number returned; a failing poll changes nothing |
| `Scheduler1.PopNum` | src/runtime/schedulers/Scheduler_01.h:127-135 | a bulk removal takes at most `size` and, if there is work, at least one |
| `Scheduler1.StepKeeps` | src/runtime/schedulers/Scheduler_01.h:127-299 | every critical section keeps the invariant on queue, stack and notifications |
| `Scheduler1.RunInv` | src/runtime/schedulers/Scheduler_01.h:127-299 | the invariant holds in every state of every run |
| `Scheduler1.SizeIsLength` | src/runtime/schedulers/Scheduler_01.h:127-299 | between sections `size` is the queue length, and removals are a prefix of the pushes with the queue as the rest |
| `Scheduler1.RemovalsAreBounded` | src/runtime/schedulers/Scheduler_01.h:127-141 | every removing section takes between one and `size` uThreads from the front |
| `Scheduler1.NoStrandedWork` | src/runtime/schedulers/Scheduler_01.h:225-272 | work queued while a kThread sleeps implies a notified kThread that can take some of it and passes the notification on if it leaves some |
| `Scheduler1.NotAllAsleep` | src/runtime/schedulers/Scheduler_01.h:225-299 | the kThreads are never all asleep over queued work |
| `Scheduler1.UnBlockKeeps` | src/runtime/schedulers/Scheduler_01.h:151-158 | a notification restores the wake-up property, whatever was queued before |
| `ReadyQueue.Ready.TakeShare` | src/runtime/schedulers/Scheduler_01.h:127-141 | on the heap queues, the front of the shared queue moves in order to the local queue, `transferFrom` reports as many as were asked for, and `size` stays the length |
| `ReadyQueue.Ready.UnBlock` | src/runtime/schedulers/Scheduler_01.h:151-158 | the kThread that went to sleep last is off the stack, unlinked, flagged and notified, nothing else changes, and nobody is left asleep over queued work without a kThread on its way |
| `ReadyQueue.Ready.Push` | src/runtime/schedulers/Scheduler_01.h:278-284 | the section that pushes one uThread is the step and keeps the invariant |
| `ReadyQueue.Ready.PushAll` | src/runtime/schedulers/Scheduler_01.h:293-299 | the section that pushes a list is the step and keeps the invariant; the list is empty afterwards |
| `ReadyQueue.Ready.TryPop` | src/runtime/schedulers/Scheduler_01.h:214-219 | the non-blocking section, once it has the mutex, is the step, keeps the invariant and fills the local queue from the front |
| `ReadyQueue.Ready.PopOrSleep` | src/runtime/schedulers/Scheduler_01.h:225-249 | `__popMany` up to the wait, or to its end, is the step and keeps the invariant |
| `ReadyQueue.Ready.AfterWait` | src/runtime/schedulers/Scheduler_01.h:234-272 | the rest of `__popMany` after the wait is the step and keeps the invariant |
| `NodeQueue.StepKeeps` | src/runtime/schedulers/Scheduler_04.h:37-80 | every step of producers and `pop` keeps the invariant over chains with unwritten links and payloads |
| `NodeQueue.RunInv` | src/runtime/schedulers/Scheduler_04.h:37-80 | the invariant holds in every state of every run |
| `NodeQueue.PopsInPushOrder` | src/runtime/schedulers/Scheduler_04.h:37-80 | uThreads are popped in exchange order, although each pop returns another uThread's node; the rest of that order is in hand or in the payloads behind the dummy |
| `NodeQueue.PopNeverStuck` | src/runtime/schedulers/Scheduler_04.h:55-80 | `pop` never misses a link or payload, and returns null only on an empty queue, leaving it marked |
| `NodeQueue.SpinHasOneProducer` | src/runtime/schedulers/Scheduler_04.h:67-70 | a spin waits for exactly one producer, whose next step ends it |
| `NodeSteps.StepKeeps` | src/runtime/schedulers/Scheduler_04.h:118-165 | every write of a node pointer or payload in creation, `schedule`, `pop` and the node exchange keeps the ownership invariant |
| `NodeExchange.RunInv` | src/runtime/schedulers/Scheduler_04.h:118-165 | the ownership invariant holds in every state of every run |
| `NodeExchange.NodeAlwaysThere` | src/runtime/schedulers/Scheduler_04.h:118-127 | the assertion in `schedule` never fails: a uThread is without a node exactly from the moment a producer has taken it until a kThread that has chosen it gives it another |
| `NodeExchange.NoNodeTwice` | src/runtime/schedulers/Scheduler_04.h:118-165 | across all producers and kThreads no two pointers name one node and none names a queued one, except a `tmpNode` that is about to be overwritten |
| `NodeExchange.QueuesAreDisjoint` | src/runtime/schedulers/Scheduler_04.h:118-165 | no node is twice in a chain or in two chains |
| `NodeExchange.PopIsReady` | src/runtime/schedulers/Scheduler_04.h:55-80 | whenever `pop` advances or reads a payload what it needs is there; uThreads leave a queue in the order in which they entered it, and the one that is returned is the one that left |
| `NodeExchange.KeepsANode` | src/runtime/schedulers/Scheduler_04.h:155-161 | a kThread allocates a node at its first switch only |
| `Containers.Walk` | src/generic/IntrusiveContainers.h:150-155 | the counting loop stops at the last element to be taken and reports min(count, length), or zero when asked for zero |
| `Containers.IntrusiveStack.PushSegment` | src/generic/IntrusiveContainers.h:66-70 | the segment is placed on top |
| `Containers.IntrusiveStack.Pop` | src/generic/IntrusiveContainers.h:76-82 | the top is taken and unlinked |
| `Containers.IntrusiveStack.PopMany` | src/generic/IntrusiveContainers.h:84-94 | splits the stack after min(count, length) elements; the taken ones are a list of their own |
| `Containers.IntrusiveStack.TransferFrom` | src/generic/IntrusiveContainers.h:96-101 | moves them on top of the other stack in the same order; both stay well formed |
| `Containers.IntrusiveQueue.PushSegment` | src/generic/IntrusiveContainers.h:127-135 | appends a linked batch |
| `Containers.IntrusiveQueue.Pop` | src/generic/IntrusiveContainers.h:141-148 | takes and unlinks the first element |
| `Containers.IntrusiveQueue.PopMany` | src/generic/IntrusiveContainers.h:150-161 | splits the queue after min(count, length) elements and reports that number |
| `Containers.IntrusiveQueue.TransferFrom` | src/generic/IntrusiveContainers.h:163-168 | exactly min(count, length) elements move in order; both queues stay well formed |
| `Containers.IntrusiveQueue.RemoveAll` | src/generic/IntrusiveContainers.h:170-177 | empties the queue and leaves its elements as one list |
| `Containers.IntrusiveQueue.TransferAllFrom` | src/generic/IntrusiveContainers.h:179-187 | appends all elements of the other queue, which is empty afterwards |
| `Containers.OnQueueMissesTheTail` | src/generic/IntrusiveContainers.h:124-124 | `onQueue` is false of a queued element exactly if it is the last one |
| `Containers.IntrusiveList.InsertAfter` | src/generic/IntrusiveContainers.h:226-234 | a linked piece is inserted at any position of the ring |
| `Containers.IntrusiveList.Remove` | src/generic/IntrusiveContainers.h:240-247 | one element is taken out from any position and unlinked |
| `Containers.IntrusiveList.RemoveMany` | src/generic/IntrusiveContainers.h:249-261 | min(count, what follows) elements are taken out from any position as a linked piece |
| `Containers.IntrusiveList.PushBack` | src/generic/IntrusiveContainers.h:273-273 | appends an element |
| `Containers.IntrusiveList.PopFront` | src/generic/IntrusiveContainers.h:276-276 | takes and unlinks the first element |
| `Containers.IntrusiveList.PopBack` | src/generic/IntrusiveContainers.h:277-277 | takes and unlinks the last element |
| `Containers.IntrusiveList.Empty` | src/generic/IntrusiveContainers.h:198-198 | the anchor names itself exactly if there is no element |
| `Containers.IntrusiveList.TransferFrom` | src/generic/IntrusiveContainers.h:279-284 | exactly min(count, length) elements move in order; both lists stay well formed |
| `Containers.IntrusiveList.TransferAllFrom` | src/generic/IntrusiveContainers.h:286-294 | all elements move in order and the other list is empty |
| `Containers.IntrusiveList.RemoveAll` | src/generic/IntrusiveContainers.h:263-270 | the elements become a list of their own while the anchor still points at them |
| `Containers.RemoveAllBreaksTheRing` | src/generic/IntrusiveContainers.h:263-270 | in that state no sequence of elements makes the list well formed |
| `HttpBody.AddDigit` | test/include/http_parser.c:1979-1990 | a size digit is accepted exactly under the overflow test, and then nothing wraps and the sentinel is not reached |
| `HttpBody.AssertionsHold` | test/include/http_parser.c:1888-2058 | after any headers and any bytes the conditions asserted in the body states hold |
| `HttpBody.RunConcat` | test/include/http_parser.c:1888-2058 | feeding two parts one after the other is feeding their concatenation |
| `HttpExecute.HttpParser.Execute` | test/include/http_parser.c:642-2096 | one call: without bytes it is the end of the connection; with bytes the loop with bulk skips ends in the state of the byte-at-a-time machine, reads as many bytes, and reports its trace, less the held-back piece at a bad chunk end |
| `HttpExecute.HttpParser.ExecuteEof` | test/include/http_parser.c:648-667 | the end of the connection, as the theorems on streams use it: it completes a read-to-EOF body, is silent between messages, and is an error elsewhere |
| `HttpExecute.BulkChunk` | test/include/http_parser.c:2021-2041 | a bulk skip over chunk data is that many single steps |
| `HttpExecute.BulkIdentity` | test/include/http_parser.c:1888-1922 | a bulk skip over an identity body is that many single steps, including the completion |
| `HttpExecute.BulkEof` | test/include/http_parser.c:1925-1928 | a bulk skip over a read-to-EOF body is that many single steps |
| `HttpCuts.CutKeepsState` | test/include/http_parser.c:1888-2089 | for every cut into non-empty pieces the final state and error are those of the whole stream, if and only if no piece starts behind an upgraded message; a parser that has begun the next message counts as different from one that has not |
| `HttpCuts.CutKeepsTrace` | test/include/http_parser.c:1888-2096 | for every cut into non-empty pieces the joined trace is that of the byte-at-a-time machine, if and only if no byte behind chunk data is other than the carriage return without a piece starting at it, and no message begins in the pieces that start behind an upgraded message |
| `HttpCuts.BetweenOpens` | test/include/http_parser.c:742-766 | what is reported behind a message are beginnings of messages, exactly where the byte passes the test of the start state: a letter of a method for requests, `H` or a line end for responses |
| `HttpCuts.BetweenRun` | test/include/http_parser.c:947-990 | behind a message the parser stays there, begins another one or fails; every byte is counted, and it is never left to another protocol again |
| `HttpCuts.CutsAgree` | test/include/http_parser.c:1888-2096 | any two cuts of one stream give the same state, and the same trace, each unless one of the cuts is exceptional in the respective way |
| `HttpCuts.BadChunkEndGuard` | test/include/http_parser.c:2044-2050 | a call drops a piece exactly if, after some of its bytes, the parser awaits the carriage return behind chunk data and the next byte is another |
| `HttpCuts.EmptyPieceIsEof` | test/include/http_parser.c:648-667 | a call without bytes, after any calls, is the end of the connection and nothing else |
| `HttpCuts.ReadToEof` | test/include/http_parser.c:1925-1928 | a message without a length, in any pieces and then the end of the connection, reports exactly its bytes and then its completion |
| `HttpCuts.FeedAll` | test/include/http_parser.c:1888-2096 | successive calls, empty ones included, report what the cut theorems speak about |
| `HttpChunks.SizeIsExact` | test/include/http_parser.c:1940-1991 | a chunk size is accepted if and only if it fits the header limit and the overflow test, and is then the value of its digits, below the sentinel |
| `HttpChunks.OneChunk` | test/include/http_parser.c:1940-2058 | one coded chunk is decoded to its header, its bytes and its completion, back at the start of a chunk |
| `HttpChunks.LastChunk` | test/include/http_parser.c:1792-1801 | the last chunk with an empty trailer completes the message |
| `HttpChunks.TooLarge` | test/include/http_parser.c:1979-1988 | a chunk beyond the overflow test is an error |
| `HttpChunks.RoundTrip` | test/include/http_parser.c:1940-2058 | decoding the chunked coding of any non-empty chunks succeeds if and only if each passes the overflow test, and then reports exactly them and ends the message |
| `HttpChunks.RoundTripInPieces` | test/include/http_parser.c:1888-2096 | the same through the bulk loop, for every cut of the coded stream |
| `HttpChunks.TruncatedIsAnError` | test/include/http_parser.c:648-667 | after any proper prefix of the coding, in any pieces, the end of the connection is an error, and the message is never reported complete |
| `HttpChunks.DroppedPiece` | test/include/http_parser.c:2044-2050 | bytes after which a body byte is reported in one cut and not in the other |
| `HttpChunks.OtherProtocolReadOn` | test/include/http_parser.c:704-712 | bytes on a connection that is not kept alive that are left alone in one cut and an error in the other |
| `HttpChunks.OtherProtocolBegins` | test/include/http_parser.c:947-990 | bytes on a connection that is kept alive that are left alone in one cut, and an invalid method or the beginning of a message in the other |
| `HttpChunks.ContentLengthIsExact` | test/include/http_parser.c:1585-1610 | a Content-Length value is accepted if and only if it starts with a digit, holds digits and spaces only and passes the overflow test; it is then the value of its digits, below the sentinel |

## Left out

- `IOHandler::close`, which sets the closing flag, unblocks and resets the slots, and descriptor reuse: `IoParking` has one blocking uThread and an open descriptor, and `Placement` models of closing only what `postSwitchFunc` does when it finds the flag set.
- A reader and a writer blocking on one PollData at once; `Placement` lets a uThread park only on an empty slot.
- The protocol models are step systems over values, so the in-place update of the queue, Mutex, Semaphore and pool objects is not part of them.
- `ThreadPool` and `Scheduler1` take a critical section as one step (for the condition variable of the pool, `ConditionVariable.RunRefines` is the reason why that is enough), and `Placement` takes each push and pop as one move.
- `NodeOwnership` leaves the links inside a queue to `NodeQueue`: its `pop` may advance whenever there is a second node, which allows more runs than the code has.
- The Mutex is a lock with one holder inside `ConditionVariable`, `UserSemaphore`, `Join` and `ThreadPool`; its own protocol is the subject of `MutexBaton`.
- Atomics are sequentially consistent; weak memory orders and spin back-off are not modelled.
- `uThread::detach` and several joiners of one uThread: the documentation calls waiting from other uThreads undefined.
- Spurious returns of the condition variables of scheduler 1: the model's waits return only after a notify. A failed `try_lock` in `__tryPopMany` changes nothing and is no step.
- Scheduler 4's `blockingSwitch` on a null pop, which it does not test for.
- `OwnerLock`, and timeouts, which the source does not implement yet.
- `insert_before` and `push_front` of the list: mirror images of modelled operations.
- The preconditions of the containers are what their debug assertions and the disjointness of linked elements demand.
- The HTTP request line, header fields, trailer fields, URL splitting, and callbacks that pause or change the parser.
- `HttpExecute.HttpParser.Execute`: what a call reads behind the first byte of the next message or of a trailer field is not followed, in that call and in later ones; the count it returns is the count up to there.
- `Placement.ExactlyOnePlace`: calls of `resume` by a program are not among the steps; the runtime calls it only after it has taken the uThread out of its container (see `Placement.ResumeNeedsDequeue`).
- `Placement` models scheduler 2. That a uThread is scheduled under scheduler 4 only while it is on no run queue, which `NodeOwnership` assumes, is not proved: scheduler 4 has no bulk queues.
- Overflow of `size`, `idleuThreads`, `bulkCounter` and the semaphore counts.
- Scheduler 3, which is a simpler case of scheduler 1.
- Stack switching, memory allocation, epoll, sockets, the C wrapper and the sample programs.
