# Coroutine protocols of CoAwaitLib, verified

CoAwaitLib is a library of stackful coroutines. What makes it hard is a handful of lock-free and
lock-based protocols that stand on one another. This project models them as state machines, one
step for each atomic operation or each section under a lock, with any number of threads and
coroutines taking their steps in any order, and proves what holds in every run.

| files | part of the library |
|---|---|
| `Future.dfy` | `LightFutureData` and `ConditionVariableTask`: one word decides the race between setting and waiting |
| `FutureRuns.dfy`, `FutureRefinement.dfy` | the same told from the steps of a run alone; every word of the resume protocol is such a future |
| `Mutex.dfy`, `MutexRuns.dfy` | `BaseMutex` with both policies |
| `BufferedChannel.dfy`, `BufferedChannelRuns.dfy` | `BufferedChannel`, many senders and many receivers |
| `UnbufferedChannel.dfy` | `UnbufferedChannel`, a rendezvous over two futures |
| `Stacks.dfy`, `Wakeups.dfy`, `Resumption.dfy`, `ResumptionRuns.dfy`, `AwaitRuns.dfy`, `ResumptionExample.dfy`, `RoutineViews.dfy`, `Routines.dfy` | `Routine::Data`, `Runner`, `ResultSetter` and `await()`: how a coroutine leaves its stack and is resumed |
| `Lifetime.dfy` | who frees a finished or detached coroutine |
| `ForEach.dfy`, `ForEachChannel.dfy`, `ForEachChannelRuns.dfy` | `forEach`: the partition loop, and the workers that are fed through a channel |

Every protocol has the same layout. `State`, `Step`, `Enabled` and `Next` say what can happen.
`Enabled` holds only what the code demands of its callers and the order of operations inside a
call. `Inv` is inductive, `IsRun` and `After` describe whole runs, and the theorems speak of every
run from the initial state. A class with the fields of the original has one method for each
operation, proved to take the object from one state of the machine to the next; a ghost field of
it holds where the threads are. The methods branch on the object's own fields, as the code does,
and say what becomes of these. Where a theorem needs a history, as the values pushed, it is read off
the steps of the run.

In `Resumption` the state has two halves. `Stacks.Control` holds the thread-local `current()` and
the `mOuter` links next to the real call stacks, `Wakeups.Wakes` all words from which a coroutine
can be woken. The core of the proof is that the right to resume a parked coroutine has exactly
one holder at any time: the word of a future, a runner that is being called, a runner in an
`io_context`, or the routine it awaits.

Code of the program runs not only in bodies and outside of all coroutines. The callable of a
finished body is destroyed when `current()` has already been restored and `mPull()` has not yet
returned, and the storage of a detached coroutine is destroyed after its result has been set. In
both places the destructors may construct coroutines, set futures, call runners and block, so a
coroutine can be resumed on top of an unfinished frame. `State.InCode` admits all of this.

In these places the code does not do what its interface suggests. The model follows the code, a
lemma gives a run or a step that shows it, and another says exactly when, or under which policy,
the code does keep the promise.

- `wait_for` overwrites the mark of a future that has just become ready (`include/co/future.hpp:269`):
  `Future.ReadyThenUnready`, and `Future.WaitForOverwritesIff` with what an overwrite means in
  `Future.ReadyIff`, `Future.TaskAliveIff` and `Future.BlocksForeverIff`.
- `ConditionVariableTask` notifies after it has released its lock, when the waiter may have left
  (`include/co/future.hpp:147`): `Future.EarlyReturnRun`, `Future.NotifySafeIff`.
- `setMaxQueueSize` answers the senders it releases with false although their values stay
  buffered (`include/co/channel.hpp:146`): `BufferedChannelRuns.FalseButDelivered`,
  `BufferedChannelRuns.SetMaxKeepsPromiseIff`. It releases nobody when the buffer is not below the
  new capacity: `BufferedChannelRuns.HigherButNobodyReleased`, `BufferedChannelRuns.SetMaxExactIff`,
  `BufferedChannelRuns.SetMaxEstablishesIff`.
- A `detach()` between the CAS on `mIsDetached` and the end of `ResultSetter` frees storage in use
  (`include/co/routine.hpp:99-103`, `463-474`): `Lifetime.LateDetachTouchesFreed`,
  `Lifetime.DetachIsSafeIff`, `Lifetime.DestroyIsSafeIff`.
- The high-throughput policy of the mutex lets a waiter starve: `MutexRuns.HighThroughputStarves`.
  The fair policy bounds exactly how often a waiter is bypassed: `MutexRuns.BypassBound`.

## Model

| member | source | states |
|---|---|---|
| `ResumptionRuns.OneExecutor` | include/co/routine.hpp:324-365 | No coroutine is executed by two threads, or twice by one thread, in any reachable state |
| `ResumptionRuns.ExactlyOneResumption` | include/co/routine.hpp:175-224 | In every run, every await of every coroutine that is over was ended by exactly one resumption (inline false, wake-up by a runner, or the continuation that resume() returns), and nothing else resumes a coroutine |
| `AwaitRuns.RegistersWhereItAwaits` | include/co/await.hpp:210-226 | While a coroutine is inside an await, its place and its registration are at the future or routine that its latest await names, until that is ready |
| `AwaitRuns.ResumedWhenReady` | include/co/routine.hpp:205-224 | Whatever step resumes a coroutine, what its latest await names is ready then |
| `AwaitRuns.ReadyMeans` | include/co/future.hpp:281-304 | A future is ready iff a step of the run has set it, a routine only if its body has ended in the run |
| `AwaitRuns.AwaitReturnsDuly` | include/co/await.hpp:195-229 | So an await returns only after the future it names has been set, or the body of the routine it names has ended |
| `AwaitRuns.EveryAwaitIsEndedOnce` | include/co/routine.hpp:175-224 | The awaits that a coroutine begins in a run are those it is resumed from, each once, and the one it may still be in |
| `AwaitRuns.BlocksWhereItWaits` | include/co/future.hpp:241-256 | A blocked thread has its task in the word of what its latest wait names, and may go on iff that is ready |
| `AwaitRuns.StepsMove` | include/co/routine.hpp:175-224 | No operation stands still but a wait that finds the word ready and a look in the spin that comes too early; a posted runner that is run is called |
| `ResumptionRuns.RunnerAlive` | include/co/await.hpp:210-228 | A runner is touched only while its coroutine is still inside the await whose frame holds that runner |
| `ResumptionRuns.ResumedFromAwait` | include/co/routine.hpp:344-365 | A coroutine is resumed only while it is inside an await and executed nowhere else, never on top of itself, and by a runner only on a thread with no current coroutine |
| `ResumptionRuns.StackDiscipline` | include/co/routine.hpp:280-305 | current() is the innermost body on the stack of its thread and every mOuter is the innermost body below, whatever other frames are in between, so the chain of links goes strictly down the stack |
| `ResumptionRuns.EnterAndLeave` | include/co/routine.hpp:333-351 | Every step that enters a body records in its mOuter what was current, every step that leaves one makes exactly that current again, and no step changes current() or mOuter otherwise |
| `ResumptionRuns.DestructorResumes` | include/co/channel.hpp:220-221 | A future set by a destructor of a finished callable, as closeReceiver() of the last forEach worker does, resumes its waiter on top of the unfinished frame |
| `ResumptionExample.NestedResumption` | include/co/foreach.hpp:100-110 | A concrete run from the initial state that comes to that point and nests the two coroutines |
| `ResumptionRuns.NoForgottenWaiter` | include/co/future.hpp:217-256 | A thread that blocks in wait(), get() or join(), inside a body or not, has its task in the word until the word says ready, and may go on from then on; for join() that is exactly when the routine has finished |
| `ResumptionRuns.SpinEnds` | include/co/routine.hpp:214-221 | While the spin of await_suspend waits, the awaited routine is in its finish step on top of some thread, each operation of that thread reduces what remains, and with nothing left mCaller is 1 |
| `ResumptionRuns.OthersLeaveFinisher` | include/co/routine.hpp:458-475 | No step of another thread changes where a routine is in its finish step, so nothing undoes the progress that the spin waits for |
| `ResumptionRuns.NoForgottenAwaiter` | include/co/routine.hpp:458-475 | When a routine is done, no coroutine is parked at it and every awaiter before or in the spin may go on |
| `ResumptionRuns.ParkedIsHeld` | include/co/routine.hpp:205-224 | A parked coroutine can still be woken: some future, call, io_context or routine holds it |
| `ResumptionRuns.FailedCasFindsOne` | include/co/routine.hpp:214-216 | The assertion in await_suspend: a failed CAS on mContinuation finds the sentinel 1 |
| `ResumptionRuns.StepEnds` | include/co/routine.hpp:344-365 | A step ends an await of a coroutine exactly if it resumes that coroutine |
| `ResumptionRuns.FinReturnEnds` | include/co/routine.hpp:303-304 | What resume() returns is always resumed; the constructor, which ignores the result, never gets a coroutine from it |
| `Resumption.StepKeeps` | include/co/routine.hpp:163-224 | The coupling of call stacks, current() links and wake-up words is kept by every atomic step of every thread |
| `Resumption.CallRunnerStep` | include/co/routine.hpp:175-202 | Runner::operator() keeps the invariant whether it posts itself or resumes |
| `Resumption.JoinStep` | include/co/routine.hpp:205-224 | So does every operation of await_suspend |
| `Resumption.FinishStep` | include/co/routine.hpp:353-359 | So does every operation after the end of a body |
| `Resumption.HandOverStep` | include/co/routine.hpp:193-201 | A coroutine that resume() returns is resumed by the loop of a runner, never by the constructor |
| `Stacks.StartKeeps` | include/co/routine.hpp:348-351 | Starting or resuming a body keeps current() and mOuter equal to the call stack |
| `Stacks.LeaveKeeps` | include/co/routine.hpp:333-342 | Leaving a body restores what was current before |
| `Stacks.RetryKeeps` | include/co/routine.hpp:346-360 | So does going round the loop of resume() |
| `Stacks.NothingBelow` | include/co/routine.hpp:177-182 | Below a coroutine that the loop of a runner executes there is no body on its thread, and nothing is current once its body is left |
| `Wakeups.RegisterKeeps` | include/co/routine.hpp:210-211 | Registering a runner at a routine's result keeps one holder for every right to resume |
| `Wakeups.WaitAtRoutineKeeps` | include/co/routine.hpp:131-131 | So does a thread that blocks in join() |
| `Wakeups.ParkAtRoutineKeeps` | include/co/routine.hpp:213-223 | So does the successful CAS on mContinuation |
| `Wakeups.UnwoundKeeps` | include/co/routine.hpp:351-353 | So does the return of mPull() after the callable has been destroyed |
| `Wakeups.ExchangeContKeeps` | include/co/routine.hpp:355-355 | So does the exchange on mContinuation in resume() |
| `Wakeups.CloseContKeeps` | include/co/routine.hpp:467-470 | So does the CAS in ResultSetter |
| `Wakeups.SetResultKeeps` | include/co/routine.hpp:471-474 | So does setting the result |
| `Wakeups.CallAwaiterKeeps` | include/co/routine.hpp:190-191 | So does the exchange on mCaller by the finishing routine |
| `Wakeups.HandOverKeeps` | include/co/routine.hpp:353-358 | So does handing the awaiter to the loop that called resume() |
| `Wakeups.WakeKeeps` | include/co/routine.hpp:190-198 | So does a runner that resumes its coroutine |
| `Wakeups.PostKeeps` | include/co/routine.hpp:177-182 | So does a runner that posts itself |
| `Wakeups.ParkAtFutureKeeps` | include/co/future.hpp:229-239 | So does a coroutine that suspends at a future |
| `Routines.Library.Construct` | include/co/routine.hpp:282-284 | The object of a new coroutine with its body current, one step of the protocol |
| `Routines.Library.LeaveForFuture` | include/co/routine.hpp:333-342 | leave() with a fresh runner: the thread gets back what was current before |
| `Routines.Library.AwaitFuture` | include/co/await.hpp:195-229 | await() on a LightFutureData: at once iff ready; otherwise it blocks iff nothing is current, or leaves exactly the body it was called in |
| `Routines.Library.AwaitRoutine` | include/co/await.hpp:195-229 | The same for a routine |
| `Routines.Library.WaitAtFuture` | include/co/future.hpp:253-255 | The CAS of a blocking wait(), inside a body or not: the thread blocks with its own task in the word, or the word says ready |
| `Routines.Library.WaitAtRoutine` | include/co/routine.hpp:131-131 | The same for the join() of a routine |
| `Routines.Library.FinishBody` | include/co/routine.hpp:289-293 | The end of a body, one step of the protocol; the coroutine was current, and what was current before is again |
| `Routines.Library.PullReturns` | include/co/routine.hpp:351-353 | The return of mPull(), after the destructors of the callable have run any code they like |
| `Routines.Library.SuspendAtFuture` | include/co/future.hpp:229-239 | The CAS in suspend(): true iff the word was empty, and then the coroutine is parked; otherwise it is current again |
| `Routines.Library.TakeCaller` | include/co/routine.hpp:209-209 | The exchange of mCaller to null, one step of the protocol |
| `Routines.Library.SuspendAtRoutine` | include/co/routine.hpp:210-211 | Registration at mResult: true iff the word was empty |
| `Routines.Library.CasContinuation` | include/co/routine.hpp:213-216 | The CAS on mContinuation: on failure the word is 1 |
| `Routines.Library.Spin` | include/co/routine.hpp:217-220 | One look at mCaller: the coroutine goes on iff it is 1 |
| `Routines.Library.ExchangeContinuation` | include/co/routine.hpp:355-355 | What resume() is going to return |
| `Routines.Library.CloseContinuation` | include/co/routine.hpp:467-470 | The CAS in ResultSetter never finds an awaiter there and leaves 1 |
| `Routines.Library.SetResult` | include/co/future.hpp:294-304 | The exchange in on_ready() of mResult: the registered runner to call, if any |
| `Routines.Library.Continue` | include/co/routine.hpp:193-201 | The loop of a runner resumes what resume() returned, with no current coroutine before |
| `Routines.Library.SetFuture` | include/co/future.hpp:294-304 | The exchange in on_ready() of a future: the registered runner to call, if any |
| `Routines.Library.RunnerCall` | include/co/routine.hpp:175-202 | operator() with its tests of current() and mCaller: posted iff a coroutine is current; called by a finishing routine it finds null and resumes nobody, called otherwise it finds its coroutine and resumes it; the sentinel 1 is never found |
| `Lifetime.FreedExactlyOnce` | include/co/routine.hpp:95-104 | Counted over the steps of a run, the storage is freed at most once, and exactly once when the finishing thread has done its operations and the owner is gone |
| `Lifetime.TouchedAfterFreeIff` | include/co/routine.hpp:458-487 | Once the finishing thread is through, freed storage was touched iff the owner freed it before the result was ready |
| `Lifetime.DetachIsSafeIff` | include/co/routine.hpp:95-104 | At every reachable call of detach(): nothing that follows touches freed storage iff the finishing thread has not claimed the flag or the result is ready |
| `Lifetime.DestroyIsSafeIff` | include/co/routine.hpp:308-315 | The same for destroying the owner of a coroutine whose body is over: iff the result is ready |
| `Lifetime.EarlyDetachIsSafe` | include/co/routine.hpp:99-101 | A detach() before the finishing thread claims the flag leads to exactly one free, by that thread, and to no later access |
| `Lifetime.LateDetachTouchesFreed` | include/co/routine.hpp:102-103 | A run in which a detach() after the claim frees storage that is accessed three more times |
| `Lifetime.StepKeeps` | include/co/routine.hpp:460-465 | mIsDetached always tells who has to free the storage |
| `Lifetime.Data.DetachCas` | include/co/routine.hpp:99-103 | detach() releases the storage iff the finishing thread has not claimed it |
| `Lifetime.Data.Claim` | include/co/routine.hpp:460-465 | ResultSetter does not free what an owner still has |
| `Future.WokenOnceWithValue` | include/co/future.hpp:281-304 | At most one task is run, after the value is written; whoever is told ready finds a value |
| `FutureRuns.ValueIsWritten` | include/co/future.hpp:281-291 | In every run the value is the argument of its set_value() or set_exception(), and unset before that |
| `FutureRuns.ReadyFromTheExchange` | include/co/future.hpp:294-304 | In every run the word says ready iff the exchange of the setter is in the run and no timeout has met the ready mark |
| `FutureRuns.LooksTellTheTruth` | include/co/future.hpp:185-188 | Every is_ready() in a call, and every suspend(), ends the call iff the exchange is in the run and no timeout has met the ready mark; the answer is ready then and the value set |
| `FutureRuns.AnswersAreDue` | include/co/future.hpp:229-279 | A step ends a call iff an answer is due, and with that answer; false only by a timeout that has found its own task; an answer never changes |
| `FutureRuns.WaitLooksFiveTimes` | include/co/future.hpp:241-253 | wait() on a future that is not ready looks exactly five times before it suspends |
| `Future.NoLostWakeUp` | include/co/future.hpp:229-256 | A blocked waiter is in the word before the exchange and about to be woken after it, unless wait_for() overwrote the ready mark |
| `Future.ReadyIff` | include/co/future.hpp:258-279 | After the exchange the future is ready in every later state iff no timeout met the ready mark |
| `Future.BlocksForeverIff` | include/co/future.hpp:241-256 | A later await or wait() blocks for ever iff the ready mark was overwritten |
| `Future.TaskAliveIff` | include/co/future.hpp:294-303 | The task that the setter runs still exists iff the ready mark was not overwritten |
| `Future.NotifySafeIff` | include/co/future.hpp:141-148 | At every reachable exchange in on_ready(): in all that can follow the task exists at notify_one() iff the word does not hold the task of a wait() or wait_for() |
| `Future.WaitForOverwritesIff` | include/co/future.hpp:258-279 | At every reachable call of wait_for(): the call can overwrite the ready mark iff the setter has not exchanged, which is what is_ready() tells unless it has happened before |
| `Future.ValueStays` | include/co/future.hpp:281-291 | The value, once written, is the value for good |
| `Future.StepKeeps` | include/co/future.hpp:173-308 | The invariant of word, setter and waiter is kept by every step |
| `Future.ReadyThenUnready` | include/co/future.hpp:267-275 | A run in which wait_for() reports ready and leaves a future that is not, with a dead task about to be run |
| `Future.EarlyReturnRun` | include/co/future.hpp:141-148 | A run in which notify_one() is called on a task that is gone |
| `FutureRefinement.WordIsAFuture` | include/co/future.hpp:229-304 | In every run of the resume protocol, every word that coroutines and threads wait at, of a future or of the result of a routine, goes through a run of the future proved above, without timeouts and with the same number of wake-ups |
| `FutureRefinement.WakesOnce` | include/co/future.hpp:294-304 | So in every run of the resume protocol no such word wakes twice |
| `Future.LightFutureData.IsReady` | include/co/future.hpp:185-188 | True iff the word says ready; then the call is over and there is a value |
| `Future.LightFutureData.IsReadyInWait` | include/co/future.hpp:245-251 | One look in the loop of wait(): true iff the word says ready, otherwise another follows unless it was the fifth |
| `Future.LightFutureData.Suspend` | include/co/future.hpp:229-239 | The CAS: true iff the word was empty, and it holds the task then; on failure the word said ready and the value is visible |
| `Future.LightFutureData.ExchangeAfterTimeout` | include/co/future.hpp:267-275 | Timeout iff the word held the caller's own task; otherwise it said ready, as asserted |
| `Future.LightFutureData.StoreValue` | include/co/future.hpp:281-291 | The write before on_ready(): the value is the argument |
| `Future.LightFutureData.OnReady` | include/co/future.hpp:294-304 | The exchange never finds the ready mark, and hands out the registered task |
| `MutexRuns.MutualExclusion` | include/co/mutex.hpp:77-132 | At most one thread holds the mutex, has been given it or is still handing it over |
| `MutexRuns.CountLaw` | include/co/mutex.hpp:93-100 | The counter is the threads about to enqueue, plus the queue, plus one if the mutex is held or a waiter is selected; it is positive iff somebody has the mutex |
| `MutexRuns.LockEndsInHolding` | include/co/mutex.hpp:77-101 | A call of lock(), whoever takes a step, ends only in holding the mutex; every fetch_add counts, and whoever waits is in the queue until it is given the mutex |
| `MutexRuns.UnlockEndsInHandOver` | include/co/mutex.hpp:111-132 | unlock() ends at once iff nobody else is counted, otherwise only by giving the mutex to the waiter taken from the queue |
| `MutexRuns.CounterAndQueue` | include/co/mutex.hpp:16-132 | In every run the counter is what the successful CASes, fetch_adds and fetch_subs make it, and the queue first in first out or last in first out by the policy |
| `MutexRuns.NobodyAtZero` | include/co/mutex.hpp:72-75 | With the counter at 0 nobody holds the mutex or waits for it |
| `MutexRuns.CountNeverNegative` | include/co/mutex.hpp:113-114 | The assertions about the counter hold |
| `MutexRuns.GrabbedWasFree` | include/co/mutex.hpp:80-95 | A CAS or fetch_add takes the mutex only when nobody has it and nobody waits |
| `MutexRuns.HandOverAdvances` | include/co/mutex.hpp:111-132 | An unlocker with waiters can always be brought nearer to the hand-over, by itself or by a thread about to enqueue; every such step counts and none is undone |
| `MutexRuns.FairQueue` | include/co/mutex.hpp:36-54 | Over any run the fair policy selects waiters in the order in which they enqueued |
| `MutexRuns.BypassBound` | include/co/mutex.hpp:36-54 | A waiter at index k is selected after exactly the k before it, and until then nobody takes the mutex by a CAS or fetch_add |
| `MutexRuns.HighThroughputStarves` | include/co/mutex.hpp:16-34 | Under the other policy there is a reachable waiter and, for every n, a run in which n others are selected before it |
| `Mutex.StepKeeps` | include/co/mutex.hpp:77-132 | One ownership token iff the counter is positive, kept by every step |
| `Mutex.BaseMutex.CompareExchangeWeak` | include/co/mutex.hpp:80-81 | The weak CAS, which may fail spuriously, for the counter |
| `Mutex.BaseMutex.TryInLock` | include/co/mutex.hpp:79-89 | One of at most eight attempts of lock(): successful iff the counter was 0 and the CAS not spurious; another follows iff the counter was at most 1 |
| `Mutex.BaseMutex.DoTryLock` | include/co/mutex.hpp:103-109 | try_lock(): true iff the caller holds the mutex afterwards |
| `Mutex.BaseMutex.AddInLock` | include/co/mutex.hpp:93-95 | The fetch_add: the counter grows by 1, and the caller holds the mutex iff it became 1, otherwise it has to enqueue |
| `Mutex.BaseMutex.AddToWaiter` | include/co/mutex.hpp:98-99 | The caller is the last in the queue and waits |
| `Mutex.BaseMutex.SubInUnlock` | include/co/mutex.hpp:113-116 | The fetch_sub leaves a counter of at least 0 |
| `Mutex.TransferKeeps` | include/co/mutex.hpp:111-116 | The holder may leave it to another coroutine to call unlock() |
| `Mutex.BaseMutex.GetNextWaiter` | include/co/mutex.hpp:27-53 | The oldest waiter under the fair policy, the newest under the other |
| `Mutex.BaseMutex.PopInUnlock` | include/co/mutex.hpp:119-129 | One round of the loop of unlock(): the waiter taken out is the first or the last by the policy, or the queue is empty |
| `Mutex.BaseMutex.SetInUnlock` | include/co/mutex.hpp:131-131 | The selected waiter has been given the mutex |
| `BufferedChannelRuns.Conservation` | include/co/channel.hpp:171-254 | The arguments of the pushes before closeReceiver() are the values matched with pops, in order, followed by the buffer |
| `BufferedChannelRuns.KthPopGetsKthPush` | include/co/channel.hpp:224-253 | The k-th pop gets the argument of the k-th push, or none, and then the sender has been closed and all values are out |
| `BufferedChannelRuns.HistoryIsRun` | include/co/channel.hpp:124-253 | The history that the other theorems speak of is that of the calls of the run: pushed values, values before closeReceiver(), number of pops, last capacity, both closes |
| `BufferedChannelRuns.LatePushIsRefused` | include/co/channel.hpp:186-190 | A push after closeReceiver() is answered false at once |
| `BufferedChannelRuns.EveryCallIsSomewhere` | include/co/channel.hpp:171-253 | Every push and every pop of a run either waits in its queue or is answered, never both |
| `BufferedChannelRuns.WaitEndsDuly` | include/co/channel.hpp:124-250 | Only a pop (the first in the queue, with true), closeReceiver() (all, with false) and a higher capacity (the first ones, with false) let a waiting sender go on |
| `BufferedChannelRuns.NotifyCompletes` | include/co/channel.hpp:145-250 | Completing a waiter makes its call return with the answer it was given |
| `BufferedChannelRuns.AssertsHold` | include/co/channel.hpp:124-253 | Every assertion in the channel holds, and every future that is set was unset |
| `BufferedChannelRuns.AnsweredOnce` | include/co/channel.hpp:145-146 | What a push or pop is answered never changes again |
| `BufferedChannelRuns.WhoWaits` | include/co/channel.hpp:115-121 | Senders and receivers never wait together, waiting receivers mean an empty buffer, and after both closes nobody waits |
| `BufferedChannelRuns.Backpressure` | include/co/channel.hpp:193-197 | With a capacity set once, a push waits iff its value is not among the first capacity - 1 of the buffer |
| `BufferedChannelRuns.ExactRun` | include/co/channel.hpp:171-253 | The number of waiting senders is max(0, size + 1 - capacity), and they are those of the last values, in order |
| `BufferedChannelRuns.UndeliveredAcks` | include/co/channel.hpp:191-205 | The buffered values whose push was answered true are exactly the first capacity - 1 |
| `BufferedChannelRuns.CloseReceiverRefuses` | include/co/channel.hpp:207-222 | closeReceiver() answers false exactly to the pushes beyond the first capacity - 1 |
| `BufferedChannelRuns.WaitersAreBuffered` | include/co/channel.hpp:124-147 | Whatever the capacities, every waiting sender's own value is buffered, and they wait in the order of their values |
| `BufferedChannelRuns.DrainFreesAll` | include/co/channel.hpp:224-253 | Whatever the capacities, popping the buffer empty frees every sender |
| `BufferedChannelRuns.SetMaxExactIff` | include/co/channel.hpp:132-142 | A new capacity keeps the backpressure law iff it is above what is buffered or unchanged |
| `BufferedChannelRuns.SetMaxEstablishesIff` | include/co/channel.hpp:132-142 | From any state, a new capacity above what is buffered establishes the backpressure law iff it leaves no sender blocked |
| `BufferedChannelRuns.HigherButNobodyReleased` | include/co/channel.hpp:132-132 | A run in which a higher capacity releases nobody and the law fails |
| `BufferedChannelRuns.SetMaxKeepsPromiseIff` | include/co/channel.hpp:132-146 | No later run delivers a value whose push was answered false iff setMaxQueueSize() releases nobody |
| `BufferedChannelRuns.FalseButDelivered` | include/co/channel.hpp:145-146 | A run in which such a value is delivered |
| `BufferedChannelRuns.LostStaysLost` | include/co/channel.hpp:207-222 | Without a release, a value whose push was answered false is never delivered |
| `BufferedChannel.CloseFindsNoPeer` | include/co/channel.hpp:149-214 | Nobody of a side waits when its last peer closes |
| `BufferedChannel.StepKeeps` | include/co/channel.hpp:78-254 | Every push and pop is in exactly one place, and its answer tells what became of the value |
| `BufferedChannel.Channel.TakeWaiting` | include/co/channel.hpp:134-139 | The loop releases the longest waiting senders, min(cnt - old capacity, all) of them |
| `BufferedChannel.Channel.SetMaxQueueSize` | include/co/channel.hpp:124-147 | The section under the lock, and whom it releases |
| `BufferedChannel.Channel.DoCloseSender` | include/co/channel.hpp:149-169 | The section under the lock, and the receivers to wake |
| `BufferedChannel.Channel.DoCloseReceiver` | include/co/channel.hpp:207-222 | The section under the lock, and the senders to wake |
| `BufferedChannel.Channel.DoPush` | include/co/channel.hpp:171-205 | The section under the lock: the first receiver gets the value, or a closed receiver refuses it, or it is buffered and waits iff the buffer is full with it |
| `BufferedChannel.Channel.DoPop` | include/co/channel.hpp:224-253 | The section under the lock: the oldest value and the first sender to wake, or none if closed, or a place at the end of the queue |
| `UnbufferedChannel.AlwaysSafe` | include/co/channel.hpp:35-63 | Each future is set once per round, read only when set, and never re-created while needed; the address of val is followed only while its push is pending |
| `UnbufferedChannel.Rendezvous` | include/co/channel.hpp:37-63 | The values that pops have taken are the arguments of the first pushes of the run, in order, and a push returns true iff a pop has taken its value |
| `UnbufferedChannel.StepsMove` | include/co/channel.hpp:35-63 | No operation stands still but a pop at a closed channel |
| `UnbufferedChannel.OnlyACloseEndsIt` | include/co/channel.hpp:35-50 | null and false are seen only after the other side has closed, null with nothing outstanding |
| `UnbufferedChannel.PushNeverStuck` | include/co/channel.hpp:37-43 | A waiting push is always one step of a peer from progress |
| `UnbufferedChannel.StepKeeps` | include/co/channel.hpp:17-64 | The positions of both sides determine both futures, kept by every step |
| `UnbufferedChannel.Channel.AwaitAnswer` | include/co/channel.hpp:40-42 | push() returns true iff everything pushed has been popped |
| `UnbufferedChannel.Channel.AwaitValue` | include/co/channel.hpp:54-54 | pop() gets null, or the address of a val whose frame exists |
| `UnbufferedChannel.Channel.StoreAddress` | include/co/channel.hpp:37-39 | push() puts the address of its own parameter there |
| `UnbufferedChannel.Channel.CopyValue` | include/co/channel.hpp:56-59 | pop() returns the parameter of the push whose address it got |
| `UnbufferedChannel.Channel.PublishValue` | include/co/channel.hpp:35-39 | The exchange that makes the value ready, one step of the protocol |
| `UnbufferedChannel.Channel.PublishAnswer` | include/co/channel.hpp:49-58 | The exchange that makes the answer ready, one step of the protocol |
| `ForEachPartition.Partition` | include/co/foreach.hpp:57-75 | min(max, s) contiguous, ordered, nonempty slices from 0 to s whose sizes differ by at most one; remaining ends at 0 |
| `ForEachPartition.PartitionCovers` | include/co/foreach.hpp:77-81 | The slices, one after the other, are the range: every item once and in order |
| `ForEachChannelRuns.ForEachEnds` | include/co/foreach.hpp:92-125 | Every run has at most 7 * items + 5 * workers + 1 steps, and it can go on iff the sender is open or a worker has not left: forEach always ends, in every interleaving |
| `ForEachChannelRuns.ForEachProcessesAll` | include/co/foreach.hpp:94-129 | An error is rethrown iff the callable has thrown; otherwise the calls of the callable in the run are one for every item, with that item |
| `ForEachChannelRuns.NeverTwice` | include/co/foreach.hpp:103-104 | The callable gets the right item, one that no worker has had or has |
| `ForEachChannelRuns.FalsePushFindsError` | include/co/foreach.hpp:116-120 | The assertion in the feeding loop: after a push that returned false, every worker has left by an exception and firstError is set |
| `ForEachChannelRuns.AlwaysSafe` | include/co/foreach.hpp:96-121 | forEach keeps to what the channel demands: no push or pop after a close, and closes by the last peer |
| `ForEachChannelRuns.SomebodyGoesOn` | include/co/foreach.hpp:100-125 | No deadlock |
| `ForEachChannelRuns.RankDrops` | include/co/foreach.hpp:100-125 | Every step uses something up, so termination needs no fairness |
| `ForEachChannel.StepKeeps` | include/co/foreach.hpp:94-121 | Every popped value is in the hands of one worker, processed, or failed; kept by every step of feeder, workers and channel |

## Left out

- Memory orders: every atomic operation is sequentially consistent; compare_exchange_weak may still fail spuriously.
- Switching stacks, stack memory and allocators: a body runs until its next await or its end.
- Awaitables with an await_suspend() of their own; io_context, executors, timers, sockets and pplx tasks: a posted runner is called later by some thread where it runs code of the program.
- AwaitFuture: the awaitable is a LightFutureData. `co::future` has the same word, but its `await_ready()` is always false (`include/co/future.hpp:332-335`), so a ready one leaves the body too and comes back by the failing `suspend()`. An await() in a destructor of a callable whose own coroutine was constructed in a body is excluded, because the code would leave that body with the unfinished coroutine still on its stack; where nothing is current, destructors may await.
- AwaitRoutine: excludes the same await() in a destructor.
- The timed mutex: it dereferences a pointer that may be null and takes no count before it waits, so no invariant of its intent exists.
- async, generate, yieldto and the per-routine storage: thin uses of what is modelled here.
- mAwaitableCnt of Runner, for waiting on several awaitables at once; await() never sets it.
- The contents of exceptions, whether the body of a routine ended by one, and copying and moving of values.
- Library: coroutines and runners are named by numbers where the code has pointers, mPostLeave is folded into where a coroutine is, and the queue of an io_context is in the ghost state only.
- PostLeave: a second awaiter of a future or routine, coroutine or blocked thread, is excluded, as the code asserts in `include/co/future.hpp:236`.
- SetFuture: a future is set once, as the code asserts in `include/co/future.hpp:301`; the write of its value before the exchange is in `Future.dfy`.
- Future: one waiter at a time and one setter; ConditionVariableTask is modelled by steps and not by a class of its own, and spurious wake-ups of the condition variable, which its predicate filters, are left out.
- LateDetachTouchesFreed: accesses are counted after the free; what a program does then is not modelled.
- Mutex: waiting in await(p) is the state Waiting until p is set, which rests on the contract proved in `Future.dfy`; unlock() is called once for every lock, by the holder or by whom it leaves that to.
- BufferedChannel: the futures of waiting peers are their answers, unset or set; the close calls come after the calls of the same side have returned, since the last peer closes; a notify list may be completed in any order, which includes the order of the code.
- UnbufferedChannel: one sender and one receiver, no push after a push that returned false, and no call after the own close.
- ForEachChannel: feeder, workers and channel are one state machine on values instead of a class, since forEach is one function that runs them on different coroutines; the callable returns or throws, and the range itself does not throw.
- Partition: an empty range or a maximal parallelity of 0 is excluded, because the code then divides by 0.
- ForEachEnds: a maximal parallelity of 0 is excluded, which violates the channel's own demand on its capacity.
