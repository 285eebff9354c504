# A verified model of the reactor server

A Dafny model of a muduo-style C++ reactor: event loops with pollers and timers, TCP connections
that live across loops, byte buffers, a publish/subscribe line codec, and an asynchronous logger.
`dafny verify dfyconfig.toml` checks everything.

Each component is a module. Its state is a value (a datatype) moved by step functions, and the
main results are about every run of those steps from the initial state. What a state records is
tied to the list of steps that led there, so that no operation may drop, repeat or alter what it
was given. Where the C++ updates an
object in place, a class with the same fields has methods whose postconditions equate its new
state with steps of its old state, so the whole-run results apply to the objects:
`Servers.TcpServer.Perform` does any step of the lifecycle, and the methods of
`EventLoops.EventLoop` are runs of the atomic steps that other threads' steps may interleave with.

In the state machines `Lifecycle`, `AsyncLogs` and `Timers` an assertion of the C++ sets a `fault`
flag instead of restricting the steps, and the theorems say that the flag is never set. In
`TcpOutput` the assertion on the direct write does the same with `aborted`; the state assertions
of `connectEstablished` and `handleClose` are premises there, which `Lifecycle` discharges. The
methods of `Buffers` and `Polling` take what the C++ asserts of their callers as preconditions and
prove their inner assertions.

| file | component |
|---|---|
| `Lifecycle.dfy` | connections across the base loop and the I/O loops: accept, establish, close, erase, destroy, descriptor reuse |
| `Servers.dfy` | the server as an object that performs those steps |
| `Hangups.dfy` | why a hang-up must not come with urgent data: the double close |
| `ServerRuns.dfy` | what a run of the server amounts to, read off its steps: connections, their output, callbacks, functors |
| `TcpOutput.dfy` | the output side of one connection: direct and partial writes, the fallback buffer, half-close |
| `Polling.dfy` | the poller's vector, map and index bookkeeping; dispatch of events |
| `EventLoops.dfy` | the task queue, batches and wakeups of one loop under any number of threads |
| `AsyncLogs.dfy` | the logger's exchange of buffers between front ends and back end |
| `Timers.dfy` | the ordered timer set, expiry, restarting and arming of the timerfd |
| `Buffers.dfy`, `Bytes.dfy` | the byte buffer, its in-place compaction and its capacity |
| `Codec.dfy` | the incremental parser and its encoding |
| `Delivery.dfy` | the output side and the parser joined end to end |
| `LogStreams.dfy` | integer formatting into fixed buffers |

What the outside world is taken to promise:

- `poll` reports registered entries with a non-negative descriptor, each at most once, and counts
  them; a hang-up without input comes without urgent data or peer shutdown (`Lifecycle.Polite`;
  `Hangups.EventClosesOnceExactly` shows that exactly this is needed).
- `write` and `readv` transfer at most what they were given; a direct write does not fail
  (`TcpOutput.AbortsExactly` shows that the assertion behind it fails exactly when it does, and
  `TcpOutput.FailedDirectWriteAborts` a run, as a full socket makes it).
- The kernel hands out a descriptor again only after it was closed; the allocator hands out an
  address only while nothing lives there, and never the highest one.
- Connections are removed only through `handleClose`, and `send` and `shutdown` are called on the
  connection's own loop thread.

Where the code does not do what its comments, its tests or its intent suggest, the model follows
the code and the difference is a theorem:

- `handleClose` leaves the connection state as it is, so a second close passes the state
  assertion and fails only at the connection map (`Hangups.DoubleCloseFaults`), and `send` and
  `shutdown` still act after it; a `shutdown` then can cut off accepted bytes
  (`TcpOutput.ShutdownAfterCloseTruncates`, exact condition in `TcpOutput.ShutdownTruncatesExactly`).
- `BufferPtr` is a raw pointer, so `std::move` leaves `nextBuffer_` set. The intended owning
  pointer makes the logger lossless on every run (`AsyncLogs.MovingBuffersAreLossless`); as
  written it is lossless on all runs with at most `k` overflows exactly for `k <= 1`, however
  short the lines are (`AsyncLogs.RawPointersLosslessExactly`).
- A task the loop thread queues outside `loop` wakes nobody. A wakeup is lost exactly at the first
  poll of a `loop` entered with tasks pending, the eventfd at zero and no thread about to write it
  (`EventLoops.WakeupIsLostExactly`, `EventLoops.FirstWakeupIsLostExactly`).
- `quit` before `loop` is forgotten: a quit is honoured exactly when it comes after the last entry
  (`EventLoops.QuitIsHeardExactly`, `EventLoops.LoopStopsExactly`).
- The timerfd is re-armed only for a positive expiration. `Timers.ArmsExactly` says for every
  queue, clock and set of added timers when that leaves it due in time; with a clock past the
  epoch it always does (`Timers.HandleReadArms`), before it a timer can be left behind
  (`Timers.NegativeClockLosesTimer`).
- A log line as long as a large buffer is dropped: everything given to `append` is there exactly
  when no line is that long (`AsyncLogs.DroppedExactly`, `AsyncLogs.OversizeLineIsDropped`).

## Model

| member | source | states |
|---|---|---|
| Lifecycle.LifecycleIsSafe | src/TcpServer.cpp:39-74 | on every interleaving of any number of loops no assertion fails, those on the calling thread included, and nothing destroyed is called; each connection passes establish, close, erase, destroy in that order and at most once each, is released only after the last, and conserves its output; the map holds exactly the connections not erased; each owed functor is queued exactly once on the right loop |
| Lifecycle.HandlersFindTheirChannels | src/EventLoop.cpp:78-87 | on every run, each channel still to be handled is registered, not ignored and alive; the one being handled is registered and alive |
| Hangups.EventClosesOnceExactly | src/Channel.cpp:25-44 | handling an event at end of stream keeps a connection on its path without a failed assertion if and only if the event does not combine a hang-up without input with urgent data or peer shutdown; it closes the connection if and only if it reports a hang-up, input, urgent data or peer shutdown |
| ServerRuns.ConnectionsFollowTheirSteps | src/TcpConnection.cpp:34-173 | on every run of the server the connection of each accept is on the loop and descriptor given there, its output is exactly the `TcpOutput` run of its own establishment, sends, shutdowns, write callbacks, closes and destruction, and it is released exactly if a step released it |
| ServerRuns.ConnectionsAreAccepted | src/TcpServer.cpp:39-60 | there are exactly as many connections as accepts |
| ServerRuns.ServerMessagesArrive | src/TcpConnection.cpp:136-173 | so on every connection of every run, encoded messages sent arrive as a beginning of what was sent, and all of them once nothing is left |
| ServerRuns.CallbacksAreThoseReported | src/EventLoop.cpp:80-85 | on every run each loop makes exactly the callbacks the events reported to it call for, in the order reported, each once |
| ServerRuns.FunctorsAreThosePushed | src/EventLoop.cpp:124-153 | on every run each loop calls exactly the functors that accepts, closes and erasures hand to it, in that order, each once |
| ServerRuns.InterestExactly | include/Channel.h:47-53 | on every run the poller watches an open connection for input, and for output exactly while some is buffered |
| ServerRuns.OperationsFaultExactly | src/TcpConnection.cpp:34-51 | the operations fail an assertion exactly on the wrong thread, in the wrong state, or when map or poller refuse |
| Hangups.DoubleCloseFaults | src/TcpServer.cpp:67-71 | a concrete run with such an event on which the erase assertion fails |
| Lifecycle.StepKeeps | src/TcpConnection.cpp:34-108 | every step keeps the whole-system invariant |
| Lifecycle.UpdateAllowed | src/Poller.cpp:49-65 | the poller's update assertions hold whenever a connection changes its interest, also when its descriptor was used before |
| Lifecycle.DestroyEffect | src/TcpConnection.cpp:43-51 | from an erased connection the assertions of `connectDestroyed` and `removeChannel` hold and exactly its slot goes |
| Lifecycle.HandleCloseKeeps | src/TcpConnection.cpp:100-108 | closing an open connection hands it to the base loop, directly or by one functor, and keeps the invariant |
| Lifecycle.UnreferencedIsDestroyed | src/TcpServer.cpp:67-74 | a connection no functor and no map entry refers to has passed all its milestones and owns no slot of any poller |
| Lifecycle.NamesAreUnique | src/TcpServer.cpp:44-47 | different connection numbers give different names |
| Servers.TcpServer.constructor | src/TcpServer.cpp:15-20 | no connections, every loop idle |
| Servers.TcpServer.OnNewConnection | src/TcpServer.cpp:39-60 | the server state moves as `NewConnection` |
| Servers.TcpServer.OnRemoveInLoop | src/TcpServer.cpp:67-74 | the server state moves as `RemoveInLoop`, whose erase assertion never fails on a run |
| Servers.TcpServer.OnEstablished | src/TcpConnection.cpp:34-41 | the server state moves as `Establish` |
| Servers.TcpServer.OnHandleClose | src/TcpConnection.cpp:100-108 | the server state moves as `HandleClose`, including `removeConnection` |
| Servers.TcpServer.OnDestroyed | src/TcpConnection.cpp:43-51 | the server state moves as `Destroy` |
| Servers.TcpServer.QueueInLoop | src/EventLoop.cpp:124-128 | the functor is last in the loop's pending ones, and nothing else changes |
| Servers.TcpServer.UpdateChannelOf | src/Channel.cpp:22-24 | interest and registration change together, or the assertion is recorded as failed |
| Servers.TcpServer.Perform | src/EventLoop.cpp:70-90 | any enabled step: the server moves as `Next`, so every run of the state machine is one of the object |
| Servers.TcpServer.PerformAll | src/EventLoop.cpp:70-90 | a whole run: the server moves as `Run`, and from the initial state keeps the invariant and fails no assertion |
| Servers.TcpServer.MakeCallback | src/Channel.cpp:25-44 | the step `Callback`: the next callback of the channel being handled, with the removal it may start |
| Servers.TcpServer.RunNextFunctor | src/EventLoop.cpp:149-151 | the step `RunFunctor`: the next functor of the batch |
| Servers.TcpServer.FollowOutput | src/TcpConnection.cpp:72-98 | the output side changes and the poller is told exactly when the writing interest does |
| Servers.TcpServer.RemoveChannelOf | src/EventLoop.cpp:107-111 | the slot goes if the poller's assertions hold, else the failure is recorded |
| TcpOutput.OutputIsConserved | src/TcpConnection.cpp:72-173 | on every run of sends, partial writes, shutdowns and a close: bytes written then bytes buffered are the bytes accepted, in order; write-complete is announced only with nothing left; the half-close comes at most once, before `handleClose` only with everything written, and nothing is written after it; conversely, once nothing is left the last write has been announced and a requested half-close has happened |
| TcpOutput.WrittenExactly | src/TcpConnection.cpp:74-96 | on every run the bytes written are the first of the accepted ones, as many as write(2) reported to have taken, and all the rest is buffered |
| TcpOutput.StepNotes | src/TcpConnection.cpp:72-173 | what each event makes happen: the bytes taken, a write-complete notice exactly when it finishes, a half-close exactly when one is due |
| TcpOutput.StateExactly | src/TcpConnection.cpp:115-122 | on every run the state follows from the events: connected exactly when established with no shutdown since and not destroyed, so a shutdown is remembered while output is pending |
| TcpOutput.StrLenIsFirstNul | src/TcpConnection.cpp:152-152 | the length of the direct write is the position of the first NUL byte |
| TcpOutput.StepKeeps | src/TcpConnection.cpp:72-173 | every operation keeps the invariant behind it, with writing interest equivalent to a non-empty buffer up to `handleClose` |
| TcpOutput.AbortsExactly | src/TcpConnection.cpp:151-166 | the assertion on the direct write fails exactly when that write is made and reports an error |
| TcpOutput.FailedDirectWriteAborts | src/TcpConnection.cpp:151-166 | a run on which it does, for any message |
| TcpOutput.ShutdownTruncatesExactly | src/TcpConnection.cpp:115-130 | `shutdown` half-closes over unwritten bytes exactly in a connected state without writing interest and with buffered bytes, which implies an earlier `handleClose` |
| TcpOutput.ShutdownAfterCloseTruncates | src/TcpConnection.cpp:100-130 | a run on which it does |
| TcpOutput.TcpConnection.SendMessage | src/TcpConnection.cpp:136-173 | the connection moves as `Send`: direct write up to the first NUL, remainder buffered, interest enabled |
| TcpOutput.TcpConnection.OnWritable | src/TcpConnection.cpp:72-98 | the connection moves as `HandleWrite` |
| TcpOutput.TcpConnection.RequestShutdown | src/TcpConnection.cpp:115-122 | the connection moves as `Shutdown` |
| TcpOutput.TcpConnection.DoShutdownInLoop | src/TcpConnection.cpp:124-130 | half-close unless writing interest is on |
| TcpOutput.TcpConnection.OnClose | src/TcpConnection.cpp:100-105 | interest goes, state and buffer stay |
| TcpOutput.TcpConnection.constructor | src/TcpConnection.cpp:19-28 | connecting, nothing buffered, no interest |
| TcpOutput.TcpConnection.OnEstablished | src/TcpConnection.cpp:34-38 | the connection moves by the step `Establish` |
| TcpOutput.TcpConnection.OnDestroyed | src/TcpConnection.cpp:43-47 | the connection moves by the step `Destroy` |
| Delivery.SentMessagesArrive | src/TcpConnection.cpp:136-173 | encoded messages given to `send`, written in any partial writes and received in any pieces, arrive as a beginning of what was sent, without parse error; and all of them, with nothing left over, once the sender's buffer is empty and what was written has come |
| Delivery.ReceivePiece | src/TcpConnection.cpp:53-62 | on the buffer object: `readFd` and then `parseMessage` until it stops succeeding give the messages, the rest and the verdict of draining what was held and what came |
| Delivery.ReceiveAll | src/codec.cpp:8-41 | piece by piece, the buffer object gives exactly what `SentMessagesArrive` speaks of |
| Delivery.DrainBuffer | src/codec.cpp:8-41 | `parseMessage` on the buffer object, until it stops succeeding, is `Drain` of its readable bytes |
| Delivery.AcceptedIsTaken | src/TcpConnection.cpp:136-173 | the bytes accepted on a run are exactly the messages sent while connected, in order |
| Delivery.DrainPrefix | src/codec.cpp:8-41 | the beginning of a stream gives the beginning of its messages, and an error in it is an error of the whole |
| Polling.RunRefinesTable | src/Poller.cpp:49-105 | every sequence of admitted update and remove calls keeps vector, map and stored indices in bijection and refines a table from descriptor to interest and sticky ignored flag |
| Polling.UnregisterRefines | src/Poller.cpp:81-105 | swap-with-last removal takes exactly one slot out, whichever entry is last and whether or not it is ignored |
| Polling.ModifyRefines | src/Poller.cpp:65-79 | an update in place changes one slot, which stays ignored once it was |
| Polling.RegisterRefines | src/Poller.cpp:52-64 | a new channel adds one slot |
| Polling.IgnoredIsSticky | src/Poller.cpp:70-77 | an ignored descriptor stays ignored over any calls without its removal |
| Polling.CallbacksExactly | src/Channel.cpp:25-44 | each of the four callbacks is made exactly for its flags, close before error before read before write |
| Polling.ClosesOnceExactly | src/Channel.cpp:25-44 | callbacks of one event are distinct, and close and read do not both occur exactly unless a hang-up without input comes with urgent data or peer shutdown |
| Polling.Channel.HandleEvent | src/Channel.cpp:25-44 | the callbacks in order |
| Polling.Channel.constructor | src/Channel.cpp:16-18 | no interest, no events, not registered |
| Polling.Poller.UpdateChannel | src/Poller.cpp:49-80 | the poller's table becomes the updated one, the internal assertions hold, and the bijection is kept |
| Polling.Poller.RemoveChannel | src/Poller.cpp:81-105 | the poller's table loses the descriptor, the bijection is kept, the removed channel keeps its index |
| Polling.Poller.FillActiveChannels | src/Poller.cpp:36-48 | given the poll contract, the result is the ready channels in vector order despite the early exit, each carrying its reported events |
| Polling.ReadyFdsDistinct | src/Poller.cpp:36-48 | no channel is listed twice, and each listed one is registered and not ignored |
| Polling.ReadyFdsExactly | src/Poller.cpp:38-39 | every entry with events is listed |
| Polling.ReadyFdsSound | src/Poller.cpp:38-39 | every listed entry has events |
| EventLoops.WakeupIsLostExactly | src/EventLoop.cpp:70-99 | on every interleaving with any number of threads and over any number of calls of `loop`: a loop is about to block with tasks pending or a quit issued since it began, a zero eventfd and no thread about to write it, if and only if it has just entered `loop` with tasks pending and unheard, nobody acting since |
| EventLoops.FirstWakeupIsLostExactly | src/EventLoop.cpp:124-132 | during the first `loop` that is so exactly when only the loop thread has acted so far and it had queued a task |
| EventLoops.NoWakeupLostOnAnyRun | src/EventLoop.cpp:124-168 | never, when the loop thread queues only from handlers and functors |
| EventLoops.EarlyQueueLosesWakeup | src/EventLoop.cpp:124-132 | a run on which such a task is lost |
| EventLoops.QuitIsHeardExactly | src/EventLoop.cpp:70-99 | on every interleaving the flag is set exactly when a quit came after the last entry into `loop` |
| EventLoops.LoopStopsExactly | src/EventLoop.cpp:78-78 | the test at the head of the loop ends it exactly then |
| EventLoops.EarlyQuitIsForgotten | src/EventLoop.cpp:70-78 | whatever quits came before, entering `loop` goes on to poll |
| EventLoops.TasksRunInOrder | src/EventLoop.cpp:124-153 | the tasks given to `queueInLoop` are called in that order and each at most once: those called, swapped out and pending are all of them; each is called in exactly the first batch started after it was queued |
| EventLoops.EventfdExactly | src/EventLoop.cpp:154-168 | the eventfd holds the number of its writes since the last read, as far as it can count, and exactly the wakeups still owed are to come |
| EventLoops.WokenLoopCallsAll | src/EventLoop.cpp:78-90 | a turn from poll to poll calls everything pending and polls again, or stops if told to |
| EventLoops.EventLoop.constructor | src/EventLoop.cpp:45-45 | the initial loop |
| EventLoops.EventLoop.QueueInLoop | src/EventLoop.cpp:124-132 | the loop moves by the run of the push and, unless the loop thread queues outside a drain, the wakeup |
| EventLoops.EventLoop.Quit | src/EventLoop.cpp:94-99 | the loop moves by the run of setting the flag and, from another thread, the wakeup |
| EventLoops.EventLoop.Wakeup | src/EventLoop.cpp:154-160 | the eventfd counter grows, or stays full, and nothing else changes |
| EventLoops.EventLoop.HandleRead | src/EventLoop.cpp:162-168 | the loop moves by the step `ReadWakeup` |
| EventLoops.EventLoop.EnterLoop | src/EventLoop.cpp:70-76 | the loop moves by the step `Enter` |
| EventLoops.EventLoop.TestQuit | src/EventLoop.cpp:78-78 | the loop moves by the step `Decide` and the result says whether it goes on |
| EventLoops.EventLoop.DoPendingFunctors | src/EventLoop.cpp:142-153 | whatever its functors and other threads queue meanwhile, the loop moves by the run of flag, swap, each functor and the end; exactly the tasks pending at the swap are called, in order |
| EventLoops.EventLoop.RunBatch | src/EventLoop.cpp:149-151 | the loop over the swapped-out functors calls each in order and moves by the run of their steps |
| AsyncLogs.MovingBuffersAreLossless | src/AsyncLogging.cpp:18-125 | ownership-moving form: on every interleaving of appends with back-end steps, freed addresses being reused, file, unwritten buffers, full buffers and current buffer together are the lines appended that fit a buffer, in order; all buffers are distinct and every one that exists is in use; a null `nextBuffer_` means a full buffer waits; no back-end assertion fails |
| AsyncLogs.DroppedExactly | src/AsyncLogging.cpp:25-38 | in either form, the raw one with at most one overflow: file, unwritten, full and current buffer together are everything given to `append` if and only if no line is as long as a buffer |
| AsyncLogs.OversizeLineIsDropped | include/LogStream.h:23-31 | a run with any such line, which leaves nothing behind |
| AsyncLogs.AcceptedIsKept | src/AsyncLogging.cpp:18-41 | the conserved text is the lines of the run that fit a buffer, in order |
| AsyncLogs.RawPointersLosslessExactly | include/AsyncLogging.h:21-22 | raw-pointer form as written, for every bound on the length of lines: the same conservation of the lines that fit, without failed assertion, holds on all runs with at most k overflows if and only if k is at most one |
| AsyncLogs.TwoOverflowsLose | src/AsyncLogging.cpp:29-39 | a run with two overflows, of lines of one byte, that loses a line |
| AsyncLogs.TurnDelivers | src/AsyncLogging.cpp:62-125 | one undisturbed turn of the back end puts everything appended so far into the file |
| AsyncLogs.RecycleKeeps | src/AsyncLogging.cpp:105-123 | recycling finds enough buffers and empties only buffers already in the file |
| AsyncLogs.ExchangeKeeps | src/AsyncLogging.cpp:68-90 | the exchange under the lock conserves the stream and keeps buffers distinct |
| AsyncLogs.AsyncLogging.AppendText | src/AsyncLogging.cpp:18-41 | the logger moves as `Append` |
| AsyncLogs.CheckKeeps | src/AsyncLogging.cpp:64-66 | the assertions at the head of the back end's loop hold |
| AsyncLogs.AsyncLogging.CheckSpares | src/AsyncLogging.cpp:64-66 | the logger moves as `DoCheck`; appends may come between it and the exchange |
| AsyncLogs.AsyncLogging.ExchangeBuffers | src/AsyncLogging.cpp:68-89 | after any wait, the logger moves as `DoExchange` |
| AsyncLogs.AsyncLogging.WriteOut | src/AsyncLogging.cpp:99-103 | the file grows by the text of the remaining buffers, in order |
| AsyncLogs.AsyncLogging.RecycleBuffers | src/AsyncLogging.cpp:105-123 | the logger moves as `DoRecycle` |
| AsyncLogs.AsyncLogging.BackEndTurn | src/AsyncLogging.cpp:62-125 | the logger moves as `Turn` |
| AsyncLogs.AsyncLogging.constructor | include/AsyncLogging.h:26-33 | the initial logger |
| Timers.TimersAreSafe | src/TimerQueue.cpp:79-152 | on every run, with callbacks free to add timers, no assertion fails, the set and the live timers correspond, one-shot timers run at most once ever, and with a positive clock the timerfd has fired or is due in time |
| Timers.TimersKeepTheirTerms | src/TimerQueue.cpp:79-94 | on every run each live timer is the last one that an `addTimer` or a callback created at its address, with the interval given there, due at the time given there until it first runs and one interval after it last ran from then on; only timers given an interval run more than once |
| Timers.MicrosExactly | src/Timer.cpp:5-8 | an interval in microseconds is within one of the exact value, never away from zero, and exact for whole microseconds |
| Timers.AddArmsExactly | src/TimerQueue.cpp:86-92 | adding arms the timerfd exactly when the new timer comes first, for its time or 100 microseconds from the clock reading |
| Timers.RearmExactly | src/TimerQueue.cpp:134-139 | `reset` arms it exactly for a positive earliest expiration |
| Timers.HandleReadExactly | src/TimerQueue.cpp:96-140 | `handleRead` runs exactly the timers due by now in key order; afterwards the set is the later ones, those added by callbacks and the repeating ones restarted at now plus interval; timers not due are unchanged |
| Timers.HandleReadArms | src/TimerQueue.cpp:107-140 | with a positive clock and timers present it ends with the timerfd fired or armed no later than the earliest expiration or 100 microseconds after arming |
| Timers.ArmsExactly | src/TimerQueue.cpp:107-140 | for all queues, clocks and added timers: `handleRead` leaves the timerfd due in time if and only if every later, added or restarted timer has a positive expiration or is served by the timerfd as the callbacks leave it |
| Timers.RearmsExactly | src/TimerQueue.cpp:134-139 | when the timerfd had fired and callbacks add nothing: if and only if every later or restarted timer has a positive expiration |
| Timers.NegativeClockLosesTimer | src/TimerQueue.cpp:134-139 | a run before the epoch: the timerfd fires for the first of two timers, which runs, and nothing is armed for the second |
| Timers.ExpiredExactly | src/TimerQueue.cpp:96-105 | the sentinel splits the set exactly into due and later timers |
| Timers.TimespecIsExact | src/TimerQueue.cpp:25-35 | normalised, never zero, exactly the delay clamped to 100 microseconds |
| Timers.DeadlineIsExact | src/TimerQueue.cpp:46-57 | an armed timerfd fires at the later of the expiration and 100 microseconds from now |
| Timers.AddArms | src/TimerQueue.cpp:86-94 | adding a timer keeps the timerfd due in time |
| Timers.InsertedSorted | src/TimerQueue.cpp:142-152 | insertion keeps key order |
| Timers.TimerQueue.InsertTimer | src/TimerQueue.cpp:142-152 | the queue moves as `Insert`; the result says whether the earliest expiration changed |
| Timers.TimerQueue.AddTimer | src/TimerQueue.cpp:79-94 | the queue moves as `Add` |
| Timers.TimerQueue.GetExpired | src/TimerQueue.cpp:96-105 | exactly the due prefix is returned and leaves the set |
| Timers.TimerQueue.RunCallbacks | src/TimerQueue.cpp:115-117 | the queue moves as `RunAll` |
| Timers.TimerQueue.ResetTimers | src/TimerQueue.cpp:121-140 | the queue moves as `ResetAll` and `Rearm` |
| Timers.TimerQueue.ResetTimer | src/Timer.cpp:5-12 | a repeating timer restarts from now and is inserted again, another is deleted |
| Timers.TimerQueue.HandleTimerfd | src/TimerQueue.cpp:107-119 | the queue moves as `HandleRead` and keeps its invariant |
| Buffers.RunRefinesQueue | include/Buffer.h:51-102 | any sequence of append, prepend, retrieve and `readFd` acts on the readable bytes as on a plain byte queue |
| Buffers.CapacityBound | include/Buffer.h:121-135 | on every run the store is at most max(1032, 2P + 7) bytes, P the peak readable size |
| Buffers.CapacityBoundIsReached | include/Buffer.h:121-135 | for every peak above the initial size some run reaches 2P + 7 |
| Buffers.HeadroomIsKept | include/Buffer.h:13-13 | on every run 8 bytes stay free in front, but for what has been prepended |
| Buffers.MakeSpace | include/Buffer.h:121-135 | the readable bytes stay, the requested room is there, the indices stay in order |
| Buffers.Buffer.Compact | include/Buffer.h:126-134 | overlapping in-place move of the readable bytes to offset 8 |
| Buffers.Buffer.EnsureWritableBytes | include/Buffer.h:80-87 | the buffer moves as `EnsureWritable` |
| Buffers.Buffer.AppendChars | include/Buffer.h:72-76 | the buffer moves as `AppendBytes` |
| Buffers.Buffer.PrependChars | include/Buffer.h:97-102 | the buffer moves as `PrependBytes` |
| Buffers.Buffer.RetrieveBytes | include/Buffer.h:51-54 | the first bytes go |
| Buffers.Buffer.RetrieveUntil | include/Buffer.h:55-59 | the bytes before a position go |
| Buffers.Buffer.RetrieveEverything | include/Buffer.h:60-63 | both indices return to 8 |
| Buffers.Buffer.RetrieveAsString | include/Buffer.h:64-68 | returns exactly the readable bytes and empties the buffer |
| Buffers.Buffer.ReadFromFd | src/Buffer.cpp:13-33 | what `readv` delivers is appended, the spilled tail included; a failed read changes only the saved errno |
| Buffers.Buffer.FindCRLF | include/Buffer.h:41-50 | the first CR LF at or after a position, or none |
| Buffers.Buffer.constructor | include/Buffer.h:16-20 | empty, with 8 bytes in front |
| Codec.StreamIndependentOfChunks | src/codec.cpp:8-41 | however a stream is cut, draining after each chunk gives the messages, rest and error of the whole stream |
| Codec.TransmittedMessagesArrive | src/codec.cpp:8-41 | encoded messages, however cut, arrive exactly and in order with nothing left over |
| Codec.ParseCharacterised | src/codec.cpp:10-32 | a message is parsed with its encoding consumed if and only if it is encodable and the bytes start with its encoding |
| Codec.ParseEncoded | src/codec.cpp:10-32 | an encoded message followed by any bytes parses to its fields and leaves those bytes |
| Codec.ParsedIsEncoded | src/codec.cpp:10-32 | whatever parses is an encodable message and what is consumed is its encoding |
| Codec.ParseExtends | src/codec.cpp:8-41 | success and error do not change when more bytes arrive |
| Codec.ErrorIsHopeless | src/codec.cpp:33-39 | an error is reported if and only if no further bytes could make the input parse; what is incomplete can always be completed |
| Codec.DrainStops | src/codec.cpp:8-41 | draining ends at an incomplete or erroneous rest |
| Codec.ParseMessage | src/codec.cpp:8-41 | verdict, consumed bytes and every out-parameter agree with `Parse`; nothing is consumed without success |
| LogStreams.DecimalRoundTrip | src/LogStream.cpp:24-40 | the text of an integer is canonical decimal and reads back as the integer |
| LogStreams.CanonicalIsDecimal | src/LogStream.cpp:24-40 | it is the only canonical text that does |
| LogStreams.DecimalFits | src/LogStream.cpp:68-74 | at most 20 characters for every signed or unsigned 64-bit value |
| LogStreams.LastDigit | src/LogStream.cpp:19-31 | truncating remainder and mirrored table give the last decimal digit for either sign |
| LogStreams.Convert | src/LogStream.cpp:24-40 | the canonical text and a NUL are written in place, nothing else in the array changes |
| LogStreams.EmitDigits | src/LogStream.cpp:28-32 | the digits appear in reverse |
| LogStreams.ReverseRange | src/LogStream.cpp:37-37 | in-place reversal of a range |
| LogStreams.AlwaysOneFreeByte | include/LogStream.h:23-47 | any insertions leave at least one free byte |
| LogStreams.LinesAreCompleteExactly | src/LogStream.cpp:68-74 | nothing is dropped if and only if each item finds room behind those before it: 32 bytes for a number, its length and one byte for text |
| LogStreams.FixedBuffer.Append | include/LogStream.h:23-31 | the whole text or nothing |
| LogStreams.FixedBuffer.Reset | include/LogStream.h:49-51 | empty again |
| LogStreams.FixedBuffer.constructor | include/LogStream.h:17-19 | empty |
| LogStreams.LogStream.FormatInteger | src/LogStream.cpp:68-74 | the number's text is added if 32 bytes are free |
| LogStreams.LogStream.InsertText | include/LogStream.h:106-122 | the text is added if it fits with a byte to spare |
| LogStreams.LogStream.InsertBool | include/LogStream.h:83-86 | "1" or "0" is added if it fits |

## Left out

- Sockets, acceptor, addresses, files, threads, mutexes, conditions and process information: only what they promise to the modelled code appears, as steps and premises.
- `LogFile` and `Logging`: the log file is the sequence of bytes appended to it.
- `Buffer::shrink`: it moves the data without the indices, so it is right only when the reader index is already 8.
- `convertHex` and insertion of pointers: `convertHex` returns no length.
- Insertion of floating-point numbers and `Fmt`: they are what `snprintf` makes of them.
- `CerPacket`: it indexes into empty strings.
- The relay and handshake of `test_multithreads.cc`, including its direct calls to `removeConnection`.
- `send` and `shutdown` from another thread: they bind a bare `this`, whose lifetime nothing ensures.
- Delivery of lines still in memory when the logger stops: the back end leaves without a last exchange.
- `RegisterTable`, the round robin of the loop pool, `StringPiece` and `CountDownLatch`: they would only add easy members.
- Wrap-around of `size_t` lengths, of 64-bit microseconds, of the 32-bit connection number and of `int` lengths.
- Floating-point rounding of timer intervals: intervals are real numbers, cut to whole microseconds as the cast does.
- Wakeup, timer and listening channels inside `Lifecycle`: their descriptors never close while the server lives.
- References held by queued write-complete functors and by user code: without them connections may be released earlier than in the program, so the result covers more runs.
- The memory behind timers and log buffers is a map from addresses, and the back end's local variables are a value handed from method to method.
- One object, `TcpServer` in `Servers`, holds all loops and connections, so the separation of the C++ objects in memory is not captured.
- Delivery.ReceiveAll: takes pieces of at most 65536 bytes, because room for more depends on the buffer; `Delivery.ReceivePiece` takes whatever fits. The program leaves the loop around `parseMessage` to its users.
- Interleaving inside a method of `EventLoops.EventLoop`: methods are undisturbed runs, apart from what other threads queue during a drain; free interleaving is in the run theorems.
