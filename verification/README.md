# Verification of MyLibCo

MyLibCo is a server of asymmetric coroutines: routines sit on a call stack, `coctx_swap` moves the
processor from one to another, and an event loop over epoll and a timerfd resumes the routine whose
descriptor is ready or whose three seconds are over. This project models the three cores of the
library and proves what they promise: for every input, and for every run of the server under the
hypotheses below, whatever the modelled system calls answer. "Left out" says what is not modelled.

`dafny verify dfyconfig.toml` checks everything.

## Structure

| module | models |
|---|---|
| `Wrappers` | `Option`, and `Outcome`, which is a value or one of the ways in which the program can go wrong |
| `Routines`, `RoutineEnv` | the call stack of `routine.cpp`: on values, and as the objects that refine it |
| `Timers`, `TimeHeap` | the multimap and the timerfd of `MiniHeap.cpp`: on values, and as an object |
| `TimerActs` | what resumed routines do to the multimap, one after the other |
| `EpollSpec`, `Epoll` | `channels_`, `index_` and the kernel's interest set: on values, and as objects |
| `Reactor` | the server as a transition system: one action per code segment between two suspension points |
| `ReactorInvariant`, `ReactorSteps` | the invariant, and that each action keeps it |
| `Server`, `TimerAccounts`, `WakeUps` | what follows for every run: routines and connections, timers, and why and when a routine is woken |
| `Witnesses` | three complete runs that go wrong when a hypothesis is dropped |
| `Machine`, `Processor` | the instructions that `coctx_swap.S` uses: on values, and as an object that executes them |
| `ContextSwap`, `Coctx` | `coctx_swap`, instruction by instruction, and the contexts of `coctx.cpp` |
| `SwapRuns` | arbitrary interleavings of routines on the machine |
| `ServerOnMachine` | the runs of the server on the machine |
| `LockstepRuns` | that there are such runs, whatever the routines compute and the kernel reports |
| `BufferLayout`, `Buffer` | the indices of `Buffer`, and the buffer over an array |

In `Reactor`, the results of `accept`, `read` and `write`, the passing of time, which descriptors
epoll reports and in which order, and which of several equal deadlines `multimap::find` returns are
all part of the action, and so are arbitrary. `accept_routine` and `readwrite_routine` are cut where
they yield or resume; `addEpoll` is cut at its `Yield`; the event loop dispatches one entry of
`activeChannels_` at a time; `handleRead` runs one expired timer at a time, so the routines it
resumes add and cancel timers in the middle of its loop.

## Hypotheses

The code is correct only under conditions that it does not check. They are stated where they are
used, and the first three are shown to be exact.

* `delTimer` looks a timer up by its deadline alone (`src/MiniHeap.cpp:130`). In the runs of `Server`
  no cancel erases the entry of another routine (`NoWrongCancel`). A cancel keeps the invariant if
  and only if that is so (`CancelIsSafeIffOwn`); it is so whatever `find` returns if and only if no
  second live timer has the deadline (`CancelIsSafeIffUnshared`); pairwise distinct deadlines suffice
  (`DistinctDeadlinesSuffice`); and `SharedDeadlineDuplicatesWorker` is a run without the hypothesis,
  in which `find` returns the first entry of a deadline, as it does in libstdc++, and a worker ends
  up on `g_readwrite` twice. `TimerAccounts` needs it only for `OverdueAreWoken`.
* `activeChannels_` holds raw pointers for a whole batch. A dead channel is dispatched if and only if
  a timer has resumed its owner since the poll (`GoesWrongOnlyAt`). A timerfd that is reported last
  rules this out (`TimerFdLastIsSafe`); `TimerFdFirstDangles` is a run in which it happens.
* `getExpired` asserts that no deadline equals `now` (`src/MiniHeap.cpp:158`); the assertion fails if
  and only if handleRead starts at the very microsecond of a live deadline (`GoesWrongOnlyAt`), and
  `DeadlineNowFailsAssertion` is a run in which it does.
* `runAfter` has no `return` statement (`src/EventLoop.cpp:48-52`), though `src/Channel.cpp:64` uses
  its result. The model returns the timer of `runAt`.
* accept returns descriptors that are not open, epoll reports a registered descriptor at most once a
  batch, and there is one clock, which does not go back.
* In `SwapRuns` the contexts and stacks are aligned and do not overlap, and the running routine leaves
  the contexts in use alone. What it stores anywhere else is arbitrary: a routine comes back to every
  word of its stack as it was that no code has changed in between. The server does change one: at a
  poll, `set_revents` (`src/Epoll.cpp:76`) stores into the Channel of a suspended routine, on that
  routine's stack. `ServerStackKept` allows this store; that there is no other into the stack of a
  suspended routine is its hypothesis (`StoreOnlyRevents`).

Two results say that the code does less than one might read into it:

* The echo loop goes by one return value (`src/TcpServer.cpp:174-185`). A connection is kept exactly
  when read delivered bytes and write returned a positive number or -1 with EAGAIN, or read returned
  -1 with EAGAIN (`EchoDecides`). So it is kept with bytes lost when write takes only a part of them,
  and when, for instance, read returns 5 and write returns -1 with EAGAIN.
* `shrink` leaves the indices alone (`src/Buffer.h:139-144`). It keeps all contents of a length if and
  only if `readerIndex_ == kCheapPrepend`, or there are none and the indices stay inside
  (`ShrinkKeepsIff`). After `append` of two bytes, `retrieve(1)` and `shrink(0)` the writer index is
  outside the storage; after `shrink(1)` the byte left has become a zero (`ShrinkAfterRetrieve`).

Where the repository's README and its code differ, the model follows the code: the README offers
shared stacks and several processes (`README.md:12`, `README.md:48`), but the code for the first
never runs (`src/routine.cpp:31-32`) and that for the second is commented out
(`src/TcpServer.cpp:193-215`). A comment calls accepted descriptors positive
(`src/TcpServer.cpp:121`); the code also takes descriptor 0, and so does the model.

## Model

| member | source | states |
|---|---|---|
| Server.RunsKeepInv | src/TcpServer.cpp:105-236 | The invariant over routines, idle stack, connections, descriptors, channels, kernel set, timers, timerfd and batch holds in every state of every run, with any number of workers |
| Server.StepKeeps | src/TcpServer.cpp:105-236 | Every action keeps the invariant; the only failures are a dead channel in the batch and the assertion of getExpired, each exactly under its condition |
| Server.GoesWrongOnlyAt | src/Epoll.cpp:81-138 | From every reachable state: no assertion of updateChannel or removeChannel fails, no timer is used after its deletion, no swap loads dead registers, CallStack_ is not left and only open descriptors are closed; the two remaining failures happen exactly under conditions that are visible beforehand |
| Server.NeverStuck | src/EventLoop.cpp:29-41 | In every run, whoever is running has exactly one piece of code to go on with, whatever the kernel answers; at a poll that is any at most 1024 registered descriptors, each once, the timerfd only when its time has come |
| Server.NoRoutineIsLost | src/TcpServer.cpp:105-188 | Where main is about to poll, each worker is on g_readwrite exactly once with fd -1 and has no channel and no timer, or is suspended in addEpoll with exactly one channel in the kernel set and exactly one timer, for the connection it owns; the acceptor waits like this for the listening socket; nobody else has a channel or a timer; idle workers and connections add up to routineNum |
| Server.RefusedIffAllServe | src/TcpServer.cpp:122-141 | An accepted connection is refused exactly when routineNum connections are open; otherwise the worker on top of g_readwrite, which has none, runs with it |
| Server.LatestIdleServes | src/TcpServer.cpp:132-141 | In every run, the worker that became idle last is the first to be given a connection |
| Server.ConnectionsConserved | src/TcpServer.cpp:113-185 | Accepted connections are refused, closed or open, each counted once; the open ones are open descriptors with one worker each, and no two have the same worker |
| Server.ConnectionStep | src/TcpServer.cpp:152-185 | A step either is the close of this connection by its own worker, after which the descriptor is not open and not owned, or leaves it with its worker |
| Server.EchoDecides | src/TcpServer.cpp:171-185 | A connection is kept if and only if read delivered bytes and write returned a positive number or -1 with EAGAIN, or read returned -1 with EAGAIN; otherwise the worker that owns it closes it. Whether all bytes read were written plays no part |
| Server.ServedByOneWorker | src/TcpServer.cpp:152-185 | Over any run, from its acceptance to its close, a connection stays with one worker |
| Server.NoDanglingPointers | src/Channel.cpp:57-70 | Every descriptor in the kernel set is open and in channels_, with the same pointer, to a live Channel of that descriptor, kAdded and of the kernel's mask, which is POLLIN, POLLPRI and POLLOUT (7), or POLLIN and POLLPRI (3) for the timerfd, and whose routine is inside addEpoll and, where main runs, suspended |
| Server.DeletedTimersAreForgotten | src/MiniHeap.cpp:138-172 | When reset deletes the expired timers, the timer of a routine inside addEpoll is not among them, and is still queued |
| Server.NestingIsBounded | src/routine.cpp:116-138 | The call stack is one to three deep and disciplined, and exactly the contexts of the created routines that do not run may be loaded |
| Server.YieldsHaveResumers | src/TcpServer.cpp:216-235 | Whoever yields has a resumer below; channels are dispatched, timers run and routines created by main alone on the stack |
| Server.ResumesOnlySuspended | src/routine.cpp:116-138 | Every step of the server keeps the routines as they are, yields to the resumer, or resumes a routine that is not on the call stack: the condition that Resume does not check |
| Server.CancelIsSafeIffOwn | src/MiniHeap.cpp:128-136 | A cancel never fails, and keeps the invariant if and only if it erases no entry of another routine |
| Server.CancelIsSafeIffUnshared | src/MiniHeap.cpp:128-136 | The cancel of addEpoll keeps the invariant for every entry that find may return, if and only if no second live timer has that deadline |
| Server.DistinctDeadlinesSuffice | src/MiniHeap.cpp:128-136 | With pairwise distinct deadlines no cancel erases the entry of another routine |
| Server.TimerFdLastIsSafe | src/EventLoop.cpp:29-41 | In runs whose batches list the timerfd last, main never dispatches a dead channel |
| Witnesses.SharedDeadlineDuplicatesWorker | src/MiniHeap.cpp:128-136 | A run exists, in which find always returns the first entry of a deadline, that puts the only worker on g_readwrite twice after a cancel has erased another routine's entry |
| Witnesses.TimerFdFirstDangles | src/EventLoop.cpp:36-40 | A run in which every cancel erases its own entry exists in which main dispatches a Channel that has left its scope |
| Witnesses.DeadlineNowFailsAssertion | src/MiniHeap.cpp:154-158 | A run in which every cancel erases its own entry exists in which the assertion of getExpired fails, main having called handleRead at the very microsecond of a live deadline |
| TimerAccounts.EachTimerOnce | src/MiniHeap.cpp:114-195 | Over every run, even with colliding deadlines, each timer from addTimer is live, taken out to be run, run or cancelled: exactly one of these, exactly once |
| TimerAccounts.FiresAtMostOnce | src/MiniHeap.cpp:138-151 | No timer runs twice, and none runs that was cancelled |
| TimerAccounts.PassRunsTheExpired | src/MiniHeap.cpp:138-151 | One pass of handleRead runs the timers that getExpired took out, in order, and nothing else, whatever the resumed routines do to the queue |
| TimerAccounts.NewTimersWait | src/MiniHeap.cpp:138-151 | A timer added during a pass is not run in that pass |
| TimerAccounts.OverdueAreWoken | src/MiniHeap.cpp:138-151 | A pass of handleRead wakes everyone who is overdue: for each routine inside addEpoll with a deadline before `now` when the pass starts, its timer has been run and the routine has been resumed by the time reset is called |
| TimerAccounts.TimerFdIsSetRight | src/MiniHeap.cpp:114-183 | In every run the timerfd changes in two ways only: a passed expiry is read, or it is set, at the time of the step, for the earliest deadline of the queue exactly, or for 100 microseconds ahead when that deadline is nearer |
| TimerAccounts.ReadConsumes | src/MiniHeap.cpp:50-59 | When handleRead has read the timerfd, it is not readable any more |
| TimerAccounts.DeletedIffRun | src/MiniHeap.cpp:164-172 | In every run, outside handleRead, the Timer objects that have been deleted are exactly those that have been run; cancelled ones are never deleted |
| TimerAccounts.TimerFdCoversEarliest | src/MiniHeap.cpp:114-183 | Outside handleRead, in every run, the timerfd is set no later than the earliest deadline or 100 microseconds after it was set; once both are over it is readable |
| WakeUps.ReportedAreWoken | src/EventLoop.cpp:29-41 | Over every run: whoever waits in addEpoll for a descriptor that a poll reports has run when main ends the batch of that poll |
| WakeUps.DispatchedInOrder | src/EventLoop.cpp:29-41 | The dispatches after a poll follow the order of its report: the m-th one starts handleRead if the m-th descriptor is the timerfd, and otherwise resumes the routine that waited for it |
| WakeUps.AllDispatched | src/EventLoop.cpp:29-41 | Main dispatches as many entries as the poll has reported before it ends the batch |
| WakeUps.WokenForAReason | src/Channel.cpp:57-70 | Nobody is woken for no reason: a routine that waits in addEpoll is resumed only by the dispatch of its Channel, its descriptor having been reported since it waits and by the poll whose batch is being dispatched, or by its timer, more than 3000000 microseconds after the call |
| WakeUps.NotBeforeThreeSeconds | src/Channel.cpp:57-70 | A routine that a timer resumes has waited in addEpoll for more than 3000000 microseconds |
| WakeUps.AfterThreeSeconds | src/EventLoop.cpp:48-52 | And when handleRead starts more than 3000000 microseconds after the call, the routine is resumed before reset is called |
| WakeUps.BatchIsReported | src/Epoll.cpp:68-79 | After a poll, activeChannels_ has the channels of exactly the routines that wait in addEpoll for a reported descriptor |
| Timers.LowerBound | src/MiniHeap.cpp:157 | The first entry that is not before `now` |
| Timers.InsertKeeps | src/MiniHeap.cpp:184-195 | An insertion keeps the queue sorted, adds exactly the one entry, and changes the front exactly when insert says so |
| Timers.InsertBehindEquals | src/MiniHeap.cpp:184-195 | An insertion goes behind every entry that is not later, and in front of every later one |
| Timers.InsertNoRepeats | src/MiniHeap.cpp:184-195 | Inserting a new timer leaves every timer in the queue at most once |
| Timers.EraseKeeps | src/MiniHeap.cpp:128-136 | An erasure keeps the queue sorted, removes exactly the one entry, and does not make the earliest deadline earlier |
| Timers.SplitAtNow | src/MiniHeap.cpp:154-163 | getExpired splits the queue into exactly the entries before `now`, in order, and the others |
| TimeHeap.HowMuchTimeFromNow | src/MiniHeap.cpp:32-48 | Seconds and nanoseconds make up the time left exactly when it is at least 100 microseconds, and are 0 s and 100000 ns otherwise, so never the zero that disarms the timerfd |
| TimeHeap.TimeHeap.AddTimer | src/MiniHeap.cpp:114-126 | The new timer is queued behind the entries that are not later, the timerfd is set, for the new deadline or 100 microseconds ahead, exactly when the front changes, and coverage is kept |
| TimeHeap.TimeHeap.Find | src/MiniHeap.cpp:130 | Some entry of the deadline, if there is one |
| TimeHeap.TimeHeap.DelTimer | src/MiniHeap.cpp:128-136 | At most one entry goes, of the timer's deadline, and none only if there is none; it is the timer's own when no other entry shares the deadline; the timerfd still covers the queue though it is not set again |
| TimeHeap.TimeHeap.GetExpired | src/MiniHeap.cpp:154-163 | The entries before `now`, in order, leave the queue; those after `now` stay |
| TimeHeap.TimeHeap.Reset | src/MiniHeap.cpp:164-183 | Every expired timer is deleted, none twice and none that is queued, and the timerfd is set for the earliest deadline left, or 100 microseconds ahead when that is nearer |
| TimeHeap.TimeHeap.RunExpired | src/MiniHeap.cpp:145-149 | Every expired timer runs once, in order, while the routines add and cancel; the queue afterwards is what exactly their calls, one after the other, have made of it: whatever was there or was added and was not cancelled is queued, and nothing else |
| TimeHeap.TimeHeap.HandleRead | src/MiniHeap.cpp:138-151 | Exactly the timers before `now` run, in order, and are deleted; the queue is what the calls of the resumed routines make of the rest, so timers added meanwhile are queued and have not run unless their deadline was cancelled; the timerfd covers the queue again |
| TimerActs.StaysUnlessCancelled | src/MiniHeap.cpp:114-136 | Over any sequence of additions and cancellations, an entry that was queued or has been added is queued at the end if no cancellation has its deadline |
| TimerActs.CancelledIsGone | src/MiniHeap.cpp:128-136 | A cancellation of a deadline that one entry has removes that entry, for the rest of the sequence unless it is added again |
| TimerActs.ReplayBalances | src/MiniHeap.cpp:114-136 | Over any sequence, what was queued and what was inserted is, as a multiset, what is queued and what was erased |
| TimerActs.InsertsAdded | src/MiniHeap.cpp:114-126 | What is inserted has the deadlines of the additions, all of them, in order |
| TimerActs.ErasesCancelled | src/MiniHeap.cpp:128-136 | What is erased has the deadlines of cancellations, at most one entry for each |
| Epoll.CallKeepsMirror | src/Epoll.cpp:81-138 | updateChannel fails exactly for a second channel on a mapped descriptor, removeChannel exactly for a channel that is not mapped; otherwise kAdded, kDeleted and kNew mirror channels_ and the kernel set, and the kernel accepts the operation |
| Epoll.RunsKeepMirror | src/Epoll.cpp:81-147 | The mirror is kept by any sequence of calls on any number of channels |
| Epoll.Epoll.UpdateChannel | src/Epoll.cpp:81-119 | On objects: the three branches, the new index_ and the mirror; no ADD of a present descriptor, no MOD or DEL of an absent one |
| Epoll.Epoll.RemoveChannel | src/Epoll.cpp:120-138 | The channel leaves channels_ and the kernel set, and is kNew |
| Epoll.Epoll.FillActiveChannels | src/Epoll.cpp:68-79 | The reported descriptors give their registered channels, in order; each gets the events reported for it as revents_, and no other channel changes |
| Epoll.Epoll.NewChannel | src/Channel.cpp:29-36 | A new channel has no events, is kNew, and remembers the routine that is running |
| Epoll.Channel.HandleFun | src/Channel.cpp:51-55 | An event resumes the routine that constructed the channel, above the one that runs |
| Epoll.Channel.EnableReading | src/Channel.h:45-49 | The read bits are added and the kernel follows |
| Epoll.Channel.EnableWriting | src/Channel.h:50-54 | The write bit is added and the kernel follows |
| Epoll.Channel.DisableAll | src/Channel.h:55-59 | A kAdded channel leaves the kernel set but stays mapped, kDeleted; a kNew or kDeleted one is added with an empty mask |
| Routines.ResumeDisciplined | src/routine.cpp:116-126 | Resume of a routine that is not on the stack fails exactly when 128 routines are on it; otherwise the routine runs above its resumer, whose registers are the saved ones |
| Routines.YieldDisciplined | src/routine.cpp:132-138 | Yield fails exactly in main; otherwise control goes to the resumer with a context that was saved and not used since |
| Routines.YieldUndoesResume | src/routine.cpp:116-138 | A Yield takes back a Resume: same stack, and the resumed routine may be loaded again |
| RoutineEnv.RoutineEnv.Create | src/routine.cpp:77-85 | A new routine is neither started nor ended; the call stack is as it was |
| RoutineEnv.RoutineEnv.Resume | src/routine.cpp:116-126 | The array, its size and start_ refine Resume on values |
| RoutineEnv.RoutineEnv.Yield | src/routine.cpp:132-138 | They refine Yield on values, with the indices size-1 and size-2 in range |
| RoutineEnv.RoutineEnv.CurrentRoutine | src/routine.cpp:162-167 | The routine on top of the stack |
| RoutineEnv.RoutineEnv.Finish | src/routine.cpp:151-161 | A routine whose function returned is marked ended and yields |
| Machine.PushesStore | src/coctx_swap.S:58-72 | A run of pushq stores its registers downwards and changes nothing else but rsp |
| Machine.PopsLoad | src/coctx_swap.S:74-88 | A run of popq loads its registers upwards and changes nothing else but rsp |
| ContextSwap.SwapSwitches | src/coctx_swap.S:55-93 | Executed instruction by instruction: the outgoing context holds the registers, the return address and the stack pointer after the return; the incoming frame is in the registers and control at its return address with rax 0; memory differs only in the 14 words of the outgoing context and in the word below the incoming stack pointer, which holds the return address |
| Processor.Processor.Execute | src/coctx_swap.S:55-93 | Executing instructions that update registers and memory in place refines the run on values |
| Processor.Processor.SwapContexts | src/coctx_swap.S:55-93 | The call coctx_swap(curr, next) on such a processor |
| Coctx.StackSize | src/routine.cpp:87-104 | For every requested size the stack is a multiple of 4096 in [4096, 8 MiB]: 128 KiB without attributes and for requests that are not positive, 8 MiB for larger requests, and otherwise the request rounded up to the next page |
| Coctx.Context.Make | src/coctx.cpp:89-103 | The regs array: the entry point, the two arguments, a stack pointer of 8 modulo 16 within the last 24 bytes of the stack, so that all of the stack lies below, and zeros elsewhere |
| Coctx.Context.Init | src/coctx.cpp:106-110 | The whole context is zeroed |
| Coctx.FreshEntry | src/coctx.cpp:89-103 | The first swap into a made context enters the function with its arguments in rdi and rsi, rsp congruent to 8 modulo 16 (System V AMD64 psABI, sections 3.2.2 and 3.2.3) and at the end of the stack, and writes just below it |
| SwapRuns.StepKeeps | src/routine.cpp:116-138 | A step fails exactly when a 129th routine is resumed; otherwise every suspended routine keeps an aligned stack pointer into its own stack with room for its return address below it |
| SwapRuns.RoundTrip | src/routine.cpp:24-49 | After a swap out of a routine, whatever finite sequence of swaps and of code follows that leaves the contexts in use alone, the first swap back into it continues at its return address, with the stack pointer after the return and all saved registers (psABI section 3.2.1), and with every word of its stack as it was that none of that code has changed |
| SwapRuns.RoundTripInRun | src/routine.cpp:24-49 | The round trip between any two states of any run that starts with main alone on the call stack |
| SwapRuns.SwapFootprint | src/coctx_swap.S:55-93 | A swap into a routine that ran before changes at most the outgoing context and the word below the incoming stack pointer, which receives the return address; nothing but the context if and only if the word held it already |
| SwapRuns.SwapBackFootprint | src/coctx_swap.S:55-93 | In any run, the swap back into a routine changes only the outgoing context, if no code in between has changed the word with the return address |
| SwapRuns.FirstResume | src/routine.cpp:116-126 | The first Resume enters RoutineFunc with the routine in rdi at the end of the routine's own stack, less than 24 bytes from it, and writes only the two contexts and one word of that stack |
| ServerOnMachine.LockstepAgrees | src/routine.cpp:116-138 | Whatever the segments compute that leaves the contexts in use alone, the machine's call stack is the server's throughout, and every suspended routine can be continued |
| ServerOnMachine.ServerRoundTrip | src/Channel.cpp:57-70 | In every run of the server a routine that yielded in addEpoll or when idle, or that resumed another one, continues when it next runs at its return address with the registers that it had |
| ServerOnMachine.ServerStackKept | src/Epoll.cpp:68-79 | A routine comes back to the stack that it had, word for word, but for revents_ of its Channel, the only thing that others store there: the word with it keeps its other half, changes only if a poll has reported the Channel, and the routine is inside addEpoll then |
| LockstepRuns.LayoutExists | src/routine.cpp:87-104 | For any number of workers that fits into the address space, contexts and default-size stacks can be laid out without overlap |
| LockstepRuns.LockstepExists | src/TcpServer.cpp:189-236 | With the routines laid out in memory, every run of the server is a run of the machine, for any computation of the segments that leaves the contexts alone: each Resume and Yield executes coctx_swap, and none fails |
| LockstepRuns.LockstepStoresRevents | src/Epoll.cpp:68-79 | In particular when each poll stores whatever events the kernel reports into revents_ of the Channel of every routine that waits for a reported descriptor, on the stacks of the suspended routines |
| BufferLayout.EnsureWritableWorks | src/Buffer.h:107-181 | When makeSpace is called, its assertion kCheapPrepend < readerIndex_ holds in the branch that compacts, and the space is there afterwards with as many readable bytes |
| BufferLayout.AppendCases | src/Buffer.h:95-181 | An append that fits behind the bytes moves nothing; one that fits with 8 bytes in front moves the bytes there; any other grows the storage to the end of the bytes |
| BufferLayout.ReadFdAppends | src/Buffer.cpp:10-34 | readFd leaves indices and size as an append of the same bytes would |
| BufferLayout.NoSlack | src/Buffer.h:163-181 | Over any run the storage is as large as it was or as the writer index has ever got: a growing append leaves nothing writable |
| BufferLayout.SpaceBound | src/Buffer.h:95-181 | Over any run of operations the storage does not shrink and never exceeds its first size and the largest readable + 2 * len + 7 over the bytes that arrived |
| BufferLayout.SpaceBoundOfNew | src/Buffer.h:20-30 | A new buffer has 1032 bytes; after any run it has as many, or as its bytes have ever needed, within the bound |
| Buffer.Buffer.Compact | src/Buffer.h:170-180 | The forward copy over itself moves the readable bytes to the front and keeps them |
| Buffer.Buffer.Resize | src/Buffer.h:167 | Growth keeps indices and contents |
| Buffer.Buffer.Append | src/Buffer.h:95-100 | The contents grow by the data at the end, through compaction and growth; the storage grows only to the end of the bytes |
| Buffer.Buffer.Prepend | src/Buffer.h:131-137 | The data come in front of the contents |
| Buffer.Buffer.Retrieve | src/Buffer.h:64-68 | The first len bytes go |
| Buffer.Buffer.RetrieveUntil | src/Buffer.h:70-75 | The bytes before the position go |
| Buffer.Buffer.RetrieveAsString | src/Buffer.h:83-88 | All bytes are returned, and the buffer is empty |
| Buffer.Buffer.ReadFd | src/Buffer.cpp:10-34 | For every layout and every n up to writable + 65536, the contents grow by the n bytes in order, also when the overflow compacts or grows the storage; an error changes nothing |
| Buffer.Perform | src/Buffer.h:64-137 | One operation retrieves from, and leaves, the deque of bytes: append and readFd put bytes at the end, prepend in front, retrieve takes them from the front |
| Buffer.PerformAll | src/Buffer.h:64-137 | Over any run, also with prepends, the bytes retrieved and the readable ones are those of the deque, and the storage is as large as it was or as the bytes have ever needed, within the space bound; without prepends the buffer is FIFO: the bytes retrieved followed by the readable ones are the bytes given, in order |
| BufferLayout.FirstInFirstOut | src/Buffer.h:64-137 | Without prepends the deque is a queue |
| BufferLayout.PrependedFirst | src/Buffer.h:131-137 | Prepended bytes are retrieved first, in order, and the queue goes on behind them |
| Buffer.PrependThenRetrieve | src/Buffer.h:64-137 | A prepend is undone by the retrieval of as many bytes |
| Buffer.Buffer.Shrink | src/Buffer.h:139-144 | The new storage has the readable bytes at kCheapPrepend; the indices stay |
| Buffer.ShrinkAfterRetrieve | src/Buffer.h:139-144 | A concrete history that shrink spoils: append of two bytes, retrieve(1), shrink |
| Buffer.ShrinkKeepsIff | src/Buffer.h:139-144 | shrink keeps all contents of a length if and only if the reader index is kCheapPrepend, or there are none and the indices stay inside |

## Left out

- System calls are results chosen by the environment, with the kernel's interest set, the armed deadline and the open descriptors as state; `Socket`, `InetAddress`, `SocketsOps` and socket creation are not modelled.
- Errors of epoll_wait, timerfd_settime and epoll_ctl, and interruption by signals: a poll that reports nothing stands for the first.
- Shared-stack copying and several processes, which the code never runs, and thread identifiers.
- The 32-bit branch of `coctx_swap.S`, floating-point state, and memory accesses that are not 8-byte aligned.
- `accept_routine`, `readwrite_routine` and `EventLoop::loop` are a transition system on values, since Dafny has no coroutines: their local variables are program counters and fields, not objects on a stack, and a Channel that leaves its scope is marked dead instead of being reused.
- The statements between two suspension points as code of the machine: on the machine a segment computes anything that meets the hypotheses above.
- Resuming a routine whose function has returned: the server's routines never return, and `Routine_t::Resume` does not look at `end_`.
- User callbacks, logging, time formatting, `double` arithmetic in `addTime` (deadlines are integer microseconds), and the wrap-around of 64-bit timestamps and sizes.
- `Buffer::swap`, the capacity of `std::vector` as opposed to its size, and the leak of cancelled timers.
- Destructors of `TimeHeap` and `Epoll`, and `createTimerfd`.
- Liveness: that a ready descriptor is reported at all, and that every poll returns.
