# A verified model of the muduo reactor core

This project models the parts of the network library whose correctness depends on order, ownership and
interleaving, and proves what they keep over whole runs.  Each component is one Dafny file with one
module:

| file | module | component |
|---|---|---|
| `TimerQueue.dfy` | `Timers` | timer queue: two ordered sets over reusable `Timer*` addresses, a one-shot timerfd |
| `EventLoop.dfy` | `EventLoops` | event loop with its cross-thread functor queue and eventfd |
| `Lifecycle.dfy` | `Lifecycle` | server map, connections and channels across a base loop and any number of I/O loops |
| `OutputStream.dfy` | `OutputStreams` | sending half of a connection: direct write, buffer, drain, half-close |
| `Buffer.dfy` | `Buffers` | gap buffer with in-place overlapping move |
| `Http.dfy` | `Http` | incremental HTTP parser over the gap buffer |
| `Connector.dfy` | `Connectors` | connector: descriptor ownership, deferred channel reset, capped backoff |
| `PollPoller.dfy` | `Pollers` | dense `poll` array with swap-remove, back-indices and descriptor map |
| `BlockingQueue.dfy` | `Monitors` | bounded blocking queue and count-down latch as monitors |
| `LogStream.dfy` | `LogStreams` | integer formatting and the fixed log buffer |
| `ConnectionNames.dfy` | `ConnectionNames` | names under which the server files its connections |
| `Inspector.dfy` | `Inspectors` | path splitting and command dispatch |
| `Options.dfy` | `Options` | the type of a value that may be missing |

## How the model is built

The concurrent and callback-driven components are state machines.  `State` holds the fields, `Event`
lists every step that the code, its callers, other threads or the kernel can take, `Enabled` says when,
and `Next` does the step.  Where the code has an assert, or would use a freed or null object, `Next`
answers `Broken`.  A run is any sequence of enabled events, so a theorem about `Play(INIT, es)` is about
every interleaving.  Beside each machine a class holds the same fields, updated in place by methods with
the branches and loops of the code, and each method is proved to do the step of the machine: its
`ensures` equates the new value of the object with `Next` (or a part of it, such as `AfterWrite`) of the
old one.

System calls, clocks and callbacks are parameters: `write` and `readv` give any prefix or an error,
`connect` any `errno`, `poll` any events, a user callback any calls that it may make.

What a step should do is also stated without the machine: as a relation between its event and the
fields before and after (`EventExactly`, `CallsExactly`, `HandedOverExactly`, `EveryCallIsAnswered`), as a
reading of the calls of a whole run (`TimersRunAsAsked`, `ByteStream`, `WakeupsAreCounted`,
`RegisteredExactly`), or by a grammar (`ReferenceIsTheGrammar`).

Facts of the code that shape the results:

- `handleRead` may run at any positive reading of the clock and whether or not the timerfd is readable,
  as after a handler dispatched just before it re-armed it.  Only `NoLostTimer`, which says when the
  timerfd is readable, takes the timerfd and `gettimeofday` to share a clock.  Intervals are whole
  microseconds, as `addTime` leaves them.
- `callingPendingFunctors_` is not initialised by the constructor (muduo/net/EventLoop.cc:53-64) and is
  taken to be false.  A functor that the loop's own thread queues before `loop()` gets no wakeup;
  `NoLostWakeupExactly` says that this is the only way to lose one.
- `handleClose` asserts that the connection is open, so one `handleEvent` must not close it twice;
  `ClosesOnceExactly` gives the poll results for which it does not.
- `send` and `shutdown` on another thread test the state first and post later, and the functor binds a raw
  `this` (muduo/net/TcpConnection.cc:72-86, muduo/net/TcpConnection.cc:189-196).  If the connection is
  destroyed in between and the thread lets its pointer go, the functor can run on a freed object:
  `FreedConnectionExample` is such a run, `NothingElseGoesWrong` says that nothing else can go wrong, and
  `ReleaseIsSafeExactly` when a pointer may be let go.
- `doPendingFunctors` keeps the functors of a batch, with their shared pointers, until the whole batch has
  run (muduo/net/EventLoop.cc:217-230).  So a raw functor in the batch of the destruction still finds the
  connection, as in `SameBatchExample`.  The connection is freed once the batch that destroyed it and the
  base loop's batch that erased it have ended and nobody holds a pointer (`RawFindsConnectionExactly`).
- `sendInLoop` refuses only a disconnected connection and `shutdownInLoop` refuses nothing, so functors
  of other threads can write after a half-close, half-close again, or half-close with bytes unsent.
  `CallIsSafeExactly` says which calls of `shutdown` rule that out; sends are always safe.  The kernel
  refuses bytes with EPIPE after a half-close or an earlier EPIPE; such a write still counts as one after
  the half-close.
- `PollPoller` negates a descriptor when its events become none and never restores it, and stores a
  positive descriptor for a channel registered without events; `WatchedExactly` states what is watched.
- A PUT request is stored as a HEAD; headers end at the first line without a colon; `onMessage` serves
  at most one request for each call.  A bad request line may leave its method behind, on which
  the next call fails the assert in `setMethod`; `NextCallFailsAssertExactly` says when.
- A one-shot timer cancelled by a callback of its own batch still runs in that batch.
- The formatted part of a connection name is cut to 31 characters; `NamesAreDistinctExactly` gives the
  number of connections up to which names differ, `NextConnectionCollides` the first collision.
- `start` must not be called before an attempt under way, waiting or queued is over, and `restart` not
  while the old channel waits for its reset; `DisciplineIsExact` shows that these conditions and the one
  on `stop` are exactly what the asserts need.
- A bounded queue of capacity 0 is both full and empty, so it can deadlock; `NoDeadlockExactly` shows
  that no other can.

The reference parser in `Http.dfy` reads the grammar that the code accepts, which is close to that of
sections 3.1.1 and 3.2 of RFC 7230 but is not the standard's.

## Model

| member | source | states |
|---|---|---|
| Timers.HowMuchTimeFromNow | muduo/net/TimerQueue.cc:30-44 | The timespec is never zero, its nanoseconds are in range, and it denotes the time left but at least 100 microseconds |
| Timers.InOrder | muduo/net/TimerQueue.cc:170-173 | The iteration order of the ordered set: each element once, ascending by expiration and then address |
| Timers.RunKeeps | muduo/net/TimerQueue.cc:118-239 | No sequence of adds, cancels, calls of `handleRead` at any time and callbacks fails an assert, those of `insert` inside `reset` included, or touches a freed timer, and each keeps ownership, index agreement, unique sequences and arming |
| Timers.NoLostTimer | muduo/net/TimerQueue.cc:118-164 | In every run, outside `handleRead`, a non-empty queue has the timerfd armed, and at any reading of its clock from the later of the earliest expiration and 100 microseconds after the arming it is readable |
| Timers.EveryTimerInOnePlace | muduo/net/TimerQueue.cc:129-239 | In every run each live timer is in exactly one of functor, queue and batch, a freed one in none, and both indexes hold the same timers under matching keys |
| Timers.SameSize | muduo/net/TimerQueue.cc:132-146 | The two `size()` calls compared by the asserts agree whenever the two sets hold the same timers |
| Timers.ExpireTakesTheDue | muduo/net/TimerQueue.cc:166-184 | `handleRead` takes exactly the timers with expiration at or before now, in ascending order, leaves the others, disarms a descriptor that it read, and forgets older cancellations |
| Timers.RunsAreTimely | muduo/net/TimerQueue.cc:149-212 | In every run no callback runs early, runs of a repeating timer are at least its interval apart by batch time, and a one-shot timer runs at most once |
| Timers.TimersRunAsAsked | muduo/net/TimerQueue.cc:100-109 | In every run, read off the calls: the first run of a timer has the deadline its creator gave, each further one is an interval after the batch of the run before, never early, and with the flag and interval asked for |
| Timers.NoTimerIsDropped | muduo/net/TimerQueue.cc:100-239 | In every run a timer never cancelled and not run yet waits, for the time its creator gave, in its functor, the queue or the rest of the batch; a repeating timer is freed only for a cancel, a one-shot one only for a cancel or after its run |
| Timers.InsertArmsExactly | muduo/net/TimerQueue.cc:118-127 | The timerfd is armed exactly for a timer earlier than all in the queue, at its expiration but not in less than 100 microseconds |
| Timers.FinishArmsExactly | muduo/net/TimerQueue.cc:204-211 | After a batch the timerfd is armed for the earliest timer left |
| Timers.FinishDecides | muduo/net/TimerQueue.cc:186-212 | `reset` puts a timer of the batch back one interval later exactly if it repeats and was not cancelled meanwhile, frees it otherwise, and leaves every other timer alone |
| Timers.GoneForever | muduo/net/TimerQueue.cc:129-147 | A freed timer never runs again in any continuation, even when its address is reused |
| Timers.CancelledNeverRuns | muduo/net/TimerQueue.cc:129-147 | After the cancel of a queued timer, no continuation runs it |
| Timers.CancelledInItsBatch | muduo/net/TimerQueue.cc:142-164 | A timer cancelled during its own batch runs once more in that batch exactly if its turn has not come, is freed when the batch ends, and never runs after that |
| Timers.StaleIdIsHarmless | muduo/net/TimerQueue.cc:133-141 | Cancelling with an id whose sequence is not that of the timer now at the address leaves that timer alone |
| Timers.TimerQueue.constructor | muduo/net/TimerQueue.cc:79-89 | An empty queue satisfies the invariant |
| Timers.TimerQueue.AddTimer | muduo/net/TimerQueue.cc:100-109 | Allocates a timer with the expiration, flag and interval asked for and a sequence above all others, and returns its id |
| Timers.TimerQueue.Insert | muduo/net/TimerQueue.cc:214-239 | Adds the timer to both sets and says whether it became the earliest |
| Timers.TimerQueue.AddTimerInLoop | muduo/net/TimerQueue.cc:118-127 | Puts the timer in the queue under its expiration, as the insert step says |
| Timers.TimerQueue.CancelInLoop | muduo/net/TimerQueue.cc:129-147 | Does the cancel step of the machine for any id, live or stale; the size and erase asserts hold |
| Timers.TimerQueue.GetExpired | muduo/net/TimerQueue.cc:166-184 | The copying and erasing loops leave the batch and both sets as the expire step says |
| Timers.TimerQueue.Reset | muduo/net/TimerQueue.cc:186-212 | The loop restarts and inserts or frees each timer of the batch, where the asserts of `insert` hold, and re-arms, as the finish step says |
| Timers.TimerQueue.HandleRead | muduo/net/TimerQueue.cc:149-164 | At any clock reading, with the descriptor readable or not, and whatever the callbacks do to the queue: exactly the due timers run, in order, once each, and the invariant holds at the end |
| EventLoops.FunctorsRunInOrder | muduo/net/EventLoop.cc:137-147 | In every interleaving the queued functors are the executed ones, the rest of the batch and the pending ones, in that order; so those of each thread run in the order queued |
| EventLoops.EveryCallIsQueued | muduo/net/EventLoop.cc:137-147 | In every interleaving the queued functors are those of the calls, in order, with none left out |
| EventLoops.BatchIsWhatWasSwapped | muduo/net/EventLoop.cc:217-230 | Until a batch ends, executed functors and the rest of the batch stay what was swapped out, whatever is queued meanwhile |
| EventLoops.NoLostWakeup | muduo/net/EventLoop.cc:137-147 | In every interleaving after an announced entry, the loop never blocks in poll beside a pending functor or `quit_` unless the eventfd is readable or some thread is about to write it |
| EventLoops.WakeupsAreCounted | muduo/net/EventLoop.cc:196-215 | In every interleaving the eventfd holds the number of writes since the last read, and `poll` reports the wakeup channel exactly if there were any |
| EventLoops.EarlyFunctorIsLost | muduo/net/EventLoop.cc:53-64 | If the loop is entered with an unannounced functor, it blocks beside it in its first poll |
| EventLoops.NoLostWakeupExactly | muduo/net/EventLoop.cc:84-147 | The loop never blocks beside work in any continuation exactly if nothing queued before `loop()` is unannounced |
| EventLoops.EarlyFunctorExample | muduo/net/EventLoop.cc:143-146 | A concrete run in which a functor queued by the loop's own thread before `loop()` is not noticed |
| EventLoops.EventLoop.constructor | muduo/net/EventLoop.cc:53-77 | Starts in the initial state, with the flag of running functors false |
| EventLoops.EventLoop.QueueInLoop | muduo/net/EventLoop.cc:137-147 | Appends the functor; leaves the eventfd readable if the caller is another thread or functors are running, and as it was otherwise |
| EventLoops.EventLoop.Quit | muduo/net/EventLoop.cc:116-123 | Sets the flag; leaves the eventfd readable if the caller is another thread, and as it was otherwise |
| EventLoops.EventLoop.Wakeup | muduo/net/EventLoop.cc:196-205 | Does the wakeup step: adds one to the eventfd |
| EventLoops.EventLoop.HandleRead | muduo/net/EventLoop.cc:207-215 | Does the step that reads the eventfd, which is 0 afterwards |
| EventLoops.EventLoop.DoPendingFunctors | muduo/net/EventLoop.cc:217-230 | Runs exactly the functors present at the swap, in order, whatever is queued meanwhile, which stays pending |
| EventLoops.EventLoop.Loop | muduo/net/EventLoop.cc:84-114 | From an announced entry, the loop ends only after `quit_`, and is never stuck; everything queued is executed or pending, in order |
| EventLoops.EventLoop.Check | muduo/net/EventLoop.cc:92 | Leaves the loop exactly if `quit_` is set |
| Lifecycle.ClosesOnceExactly | muduo/net/Channel.cc:69-102 | One `handleEvent` of an open connection fails no assert exactly unless poll reports a hangup without input but with priority data or a peer shutdown and the read finds the end of the stream |
| Lifecycle.EventExactly | muduo/net/TcpConnection.cc:240-316 | One `handleEvent` of an open connection, up or half-closed, whose poll result closes it at most once: if the peer hung up or the read finds the end of the stream, it is disconnected with DOWN reported and all events disabled, and its erase is done or asked for; otherwise nothing changes but that writing ends with an emptied buffer |
| Lifecycle.RunKeeps | muduo/net/TcpServer.cc:67-123 | Every interleaving of the loops and of calls on other threads, tested and posted in two steps, keeps the invariant of the protocol as long as it has not gone wrong |
| Lifecycle.NothingElseGoesWrong | muduo/net/TcpConnection.cc:72-120 | In every interleaving no assert ever fails, and a step uses a freed connection exactly if it runs a raw functor when the batches of the erase and the destruction have ended and user code holds no pointer |
| Lifecycle.PointersKeptInTime | muduo/net/TcpConnection.cc:72-120 | An interleaving in which pointers are let go in time never goes wrong |
| Lifecycle.ReleaseIsSafeExactly | muduo/net/TcpConnection.cc:72-86 | In a safe state a pointer may be let go exactly if it is not the last to a connection with a raw functor in a later batch than its destruction; otherwise the loops alone run the functor on a freed connection |
| Lifecycle.SafeExactly | muduo/net/TcpConnection.cc:189-205 | Every raw functor in a later batch than a destruction is protected by a pointer exactly if no continuation without a release uses a freed connection |
| Lifecycle.HoldingOnSuffices | muduo/net/TcpConnection.cc:72-86 | A thread that keeps its pointer while raw functors of the connection are queued lets it go in time |
| Lifecycle.FreedConnectionExample | muduo/net/TcpConnection.cc:72-86 | A run in which a worker tests, the loop destroys the connection, and the worker posts and lets go: the functor runs on a freed connection |
| Lifecycle.SameBatchExample | muduo/net/EventLoop.cc:217-230 | A run in which the worker posts and lets go before the loop swaps its queue: one batch destroys the connection and runs the functor, which finds it |
| Lifecycle.ConnectionLifecycle | muduo/net/TcpServer.cc:67-123 | In every interleaving each connection is established, closed, erased and destroyed at most once and in that order, the user hears UP before DOWN and each at most once, both exactly once if destroyed, with no events enabled then; the map holds it exactly until the erase, the map or a queued functor owns it exactly until it is destroyed, and the library keeps it exactly until the batches of its erase and its destruction have ended |
| Lifecycle.OneFunctorPerStage | muduo/net/TcpServer.cc:95-119 | In every interleaving the queue of each loop holds, besides raw functors, exactly the functors that the stage of a connection calls for |
| Lifecycle.OwnedUntilDestroyed | muduo/net/TcpServer.cc:105-123 | A connection is owned by the map or by a queued functor with a shared pointer exactly until it is destroyed |
| Lifecycle.KeptUntilBatchesEnd | muduo/net/EventLoop.cc:217-230 | With the shared pointers of executed functors, the library keeps a connection exactly until it is destroyed and no batch that destroyed it on its loop or erased it on the base loop is still running |
| Lifecycle.HandlersRunWhileUp | muduo/net/TcpConnection.cc:240-316 | A handler runs only on a connection that is up and owned, and one that may close it only before it was closed |
| Lifecycle.RawFindsConnectionExactly | muduo/net/TcpConnection.cc:127-205 | A functor that binds a raw `this` finds its connection alive exactly if it is not destroyed yet, or the batch that destroyed it or one that erased it has not ended, or user code holds a pointer to it |
| Lifecycle.DestroyNeedsCloseExactly | muduo/net/TcpConnection.cc:226-238 | Destroying a registered connection passes its asserts exactly if it is not half-closed |
| Lifecycle.DispatchRunsHandlers | muduo/net/Channel.cc:50-102 | The dispatch of a channel and the steps for its handlers are one `handleEvent`, of a channel that may be handled and a poll result that closes at most once, with the effect of `EventExactly` |
| Lifecycle.CallsExactly | muduo/net/TcpConnection.cc:72-205 | `shutdown` half-closes a connection that is up and no other, on any thread; `send` and its functor ask for write events as they should; a call that fails its test does nothing; a functor is posted to the loop of its connection; a connection accepted for a loop belongs to it |
| Lifecycle.TcpServer.constructor | muduo/net/TcpServer.cc:15-30 | Starts with idle loops and no connections |
| Lifecycle.TcpServer.QueueInLoop | muduo/net/EventLoop.cc:137-147 | Appends the functor to the queue of one loop |
| Lifecycle.TcpServer.NewConnection | muduo/net/TcpServer.cc:67-98 | Does the accept step: files the connection and establishes it at once or through its loop |
| Lifecycle.TcpServer.ConnectEstablished | muduo/net/TcpConnection.cc:212-224 | Does the establish step |
| Lifecycle.TcpServer.HandleClose | muduo/net/TcpConnection.cc:302-316 | Does the close step: disconnects, disables all events, reports DOWN and asks for the removal |
| Lifecycle.TcpServer.RemoveConnection | muduo/net/TcpServer.cc:100-103 | Removes at once on the base loop, otherwise posts the removal to it |
| Lifecycle.TcpServer.RemoveConnectionInLoop | muduo/net/TcpServer.cc:105-123 | Erases the connection, which is there, and posts its destruction to its loop |
| Lifecycle.TcpServer.ConnectDestroyed | muduo/net/TcpConnection.cc:226-238 | Does the destroy step |
| Lifecycle.TcpServer.HandleEvent | muduo/net/Channel.cc:69-102 | The tests on the poll result, in the order of the code, do what the machine's steps for the handlers do, with the effect of `EventExactly` |
| Lifecycle.TcpServer.HandleWrite | muduo/net/TcpConnection.cc:262-300 | Disables writing exactly if the buffer was emptied |
| Lifecycle.TcpServer.Hold | muduo/net/TcpConnection.cc:72-86 | User code copies a pointer to a live connection |
| Lifecycle.TcpServer.TestSend | muduo/net/TcpConnection.cc:72-86 | Does the test of `send` on another thread |
| Lifecycle.TcpServer.TestShutdown | muduo/net/TcpConnection.cc:189-196 | Does the test and the change of state of `shutdown` on another thread |
| Lifecycle.TcpServer.PostCall | muduo/net/EventLoop.cc:137-147 | Posts the raw functor of a call that passed its test |
| Lifecycle.TcpServer.Release | muduo/net/TcpConnection.cc:72-86 | Letting a pointer go in time keeps every raw functor of a later batch than the destruction protected |
| OutputStreams.ByteStream | muduo/net/TcpConnection.cc:127-187 | In every run, with `sent` the data of all sends that passed their tests, read off the calls in order: the wire is a prefix of it; wire and buffer are all of it until EPIPE, even after a close; state, functors and settings are what the calls make them; while the connection is open writing is enabled exactly while the buffer is non-empty |
| OutputStreams.StepMovesBytes | muduo/net/TcpConnection.cc:127-187 | Every step puts on the wire exactly what the kernel takes, the data of a send only if nothing is buffered before it, and until EPIPE wire and buffer together grow by exactly the data sent |
| OutputStreams.CallbacksExactly | muduo/net/TcpConnection.cc:147-180 | A step queues the write-complete callback exactly when a successful write left nothing to write, and the high-water callback exactly when the buffer crosses the mark upwards, with its new size |
| OutputStreams.StepKeepsSafe | muduo/net/TcpConnection.cc:189-205 | In a safe state nothing that the loop, the kernel or a call under way does spoils the half-close |
| OutputStreams.SafeExactly | muduo/net/TcpConnection.cc:262-300 | The safety condition, read off the state, holds exactly if no continuation without a call half-closes twice or with bytes buffered, or writes after a half-close |
| OutputStreams.CallIsSafeExactly | muduo/net/TcpConnection.cc:72-205 | A call meets its guard exactly if no such continuation exists after it: `shutdown` on the loop thread needs no functor under way, unless the buffer will never drain; on another thread it needs an empty buffer, no other call under way, and no bytes posted unless the peer is gone; sends need nothing |
| OutputStreams.GracefulHalfClose | muduo/net/TcpConnection.cc:262-300 | In every run whose calls meet their guards, from any threads, `shutdownWrite` happens at most once, with an empty buffer and with no write after it, and follows every accepted byte |
| OutputStreams.LoopThreadIsGraceful | muduo/net/TcpConnection.cc:72-205 | With `send` and `shutdown` on the loop thread every half-close is graceful and follows the whole stream |
| OutputStreams.LateSendExample | muduo/net/TcpConnection.cc:135-139 | A send that passed its test on another thread before a half-close on the loop thread is tried after it, and fails with EPIPE |
| OutputStreams.HalfCloseIsNotForgotten | muduo/net/TcpConnection.cc:275-284 | In every run a disconnecting connection has been half-closed, waits for its drain or has the half-close under way, and a half-closed one buffers nothing; draining sends all accepted bytes and then the half-close |
| OutputStreams.TcpConnection.constructor | muduo/net/TcpConnection.cc:33-63 | Starts connecting with an empty buffer and the default mark |
| OutputStreams.TcpConnection.SendInLoop | muduo/net/TcpConnection.cc:127-187 | Over the gap buffer, does the send step for any result of `write` |
| OutputStreams.TcpConnection.Send | muduo/net/TcpConnection.cc:72-87 | On the loop thread, sends at once if connected |
| OutputStreams.TcpConnection.SendFromOther | muduo/net/TcpConnection.cc:80-86 | On another thread, passes the test of `send` if connected |
| OutputStreams.TcpConnection.Post | muduo/net/TcpConnection.cc:83-84 | Posts the functor of a call that passed its test |
| OutputStreams.TcpConnection.ShutdownInLoop | muduo/net/TcpConnection.cc:198-205 | Half-closes unless writing is enabled |
| OutputStreams.TcpConnection.Shutdown | muduo/net/TcpConnection.cc:189-196 | On the loop thread, disconnects and half-closes or leaves it to the drain |
| OutputStreams.TcpConnection.ShutdownFromOther | muduo/net/TcpConnection.cc:189-196 | On another thread, passes the test of `shutdown` and changes the state if connected |
| OutputStreams.TcpConnection.HandleWrite | muduo/net/TcpConnection.cc:262-300 | Does the drain step for any result of `write`, with the half-close that waited for it |
| OutputStreams.TcpConnection.ConnectEstablished | muduo/net/TcpConnection.cc:212-224 | Does the establish step |
| OutputStreams.TcpConnection.HandleClose | muduo/net/TcpConnection.cc:302-316 | Disconnects and disables writing, and keeps the unsent bytes |
| OutputStreams.TcpConnection.ConnectDestroyed | muduo/net/TcpConnection.cc:226-238 | Disconnects if still connected |
| Buffers.FindCrlf | muduo/net/Buffer.h:64-68 | The first position of CR LF, or none if there is none |
| Buffers.FindCrlfExtends | muduo/net/Buffer.h:64-68 | A CR LF that was found stays the first when bytes are appended |
| Buffers.IntegerRoundTrip | muduo/net/Buffer.h:180-239 | Reading the big-endian bytes of a signed integer of any width gives it back |
| Buffers.BytesRoundTrip | muduo/net/Buffer.h:218-239 | Any bytes are the bytes of the integer read from them |
| Buffers.NetworkByteOrder | muduo/net/Buffer.h:180-216 | The bytes of an integer are those of its two's complement, the most significant first |
| Buffers.EncodingIsPrefixFree | muduo/net/Buffer.h:197-216 | Whatever follows, the integer read is the one written and the rest is what followed |
| Buffers.Buffer.constructor | muduo/net/Buffer.h:27-35 | An empty buffer with the initial sizes of its three parts |
| Buffers.Buffer.SlideDown | muduo/net/Buffer.h:293-299 | The overlapping forward copy keeps the readable bytes |
| Buffers.Buffer.MakeSpace | muduo/net/Buffer.h:285-301 | Makes room and keeps the readable bytes; the assert on the reader index holds, even after prepends |
| Buffers.Buffer.EnsureWritableBytes | muduo/net/Buffer.h:155-162 | Makes room and keeps the readable bytes, without a change if there is room |
| Buffers.Buffer.Append | muduo/net/Buffer.h:143-148 | Appends to the readable bytes |
| Buffers.Buffer.Retrieve | muduo/net/Buffer.h:78-89 | Drops the first bytes |
| Buffers.Buffer.RetrieveAll | muduo/net/Buffer.h:113-117 | Drops all bytes |
| Buffers.Buffer.RetrieveAsString | muduo/net/Buffer.h:124-130 | Returns the first bytes and drops them |
| Buffers.Buffer.Prepend | muduo/net/Buffer.h:260-266 | Puts bytes in front of the readable ones |
| Buffers.Buffer.Shrink | muduo/net/Buffer.h:268-274 | Keeps the readable bytes and leaves the reserve writable |
| Buffers.Buffer.ReadFd | muduo/net/Buffer.cc:15-44 | Appends exactly what `readv` put into the tail and the overflow area; an error changes nothing |
| Buffers.Buffer.FindCRLF | muduo/net/Buffer.h:64-68 | Finds the first CR LF of the readable bytes |
| Buffers.Buffer.AppendInt | muduo/net/Buffer.h:180-195 | Appends the big-endian bytes of an integer |
| Buffers.Buffer.PrependInt | muduo/net/Buffer.h:243-258 | Prepends the big-endian bytes of an integer |
| Buffers.Buffer.PeekInt | muduo/net/Buffer.h:218-239 | Returns the integer whose bytes come first |
| Buffers.Buffer.ReadInt | muduo/net/Buffer.h:197-216 | Returns the integer whose bytes come first and drops them |
| Http.RequestLineExactly | muduo/net/http/HttpServer.cc:19-53 | `processRequestLine` accepts exactly the lines of the grammar and stores their parts |
| Http.HeaderIsStored | muduo/net/http/HttpRequest.h:121-135 | From a line made of a name without a colon, a colon, and a value with blanks around it, the value without the blanks is stored under the name |
| Http.ColonMakesHeader | muduo/net/http/HttpRequest.h:121-135 | Every line with a colon is made so |
| Http.HeaderIsReadOnce | muduo/net/http/HttpRequest.h:121-135 | And in one way only |
| Http.Parse | muduo/net/http/HttpServer.cc:55-110 | A call never leaves the context expecting a body; without an error it stops at a complete request or where no line is complete |
| Http.ParseStaysLegal | muduo/net/http/HttpServer.cc:55-110 | A call that wants more bytes leaves a state from which the next call may go on |
| Http.ParseExtends | muduo/net/http/HttpServer.cc:55-110 | A call on two pieces together does what a call on the first and one on its leftover and the second do |
| Http.ParseIgnoresTime | muduo/net/http/HttpServer.cc:69 | The time of receipt affects nothing else |
| Http.ReceiveTimeExactly | muduo/net/http/HttpServer.cc:63-75 | A request carries the time of the message with which its request line was read |
| Http.ChunkIndependence | muduo/net/http/HttpServer.cc:55-110 | From any legal state two calls give the verdict, request and leftover of one call on all the bytes, wherever the cut falls; once a call has finished or failed, later bytes change only the leftover |
| Http.ParsePays | muduo/net/http/HttpServer.cc:55-110 | What a whole-stream reference parser still owes is what the call delivers and what the reference owes afterwards |
| Http.MessageConserves | muduo/net/http/HttpServer.cc:154-171 | Consumed and buffered bytes together are the bytes received |
| Http.MessageStaysLegal | muduo/net/http/HttpServer.cc:154-171 | `onMessage` never leaves the context complete or expecting a body |
| Http.ServerServesTheReference | muduo/net/http/HttpServer.cc:154-171 | Under any chunking, up to the first bad request line the requests served are a prefix of those of the whole-stream reference parser, the rest is owed for the bytes held, and consumed and buffered bytes are all that came |
| Http.ReferenceIsTheGrammar | muduo/net/http/HttpServer.cc:55-105 | The reference is the reading by the grammar: request line, header lines and the first line without a colon after each other, each map holding for each name the value of its last line and no other name, with no complete request behind the last |
| Http.ServedAsWritten | muduo/net/http/HttpServer.cc:154-171 | Under any chunking the requests served are, by the grammar, the first of the stream |
| Http.ChunkingsAgree | muduo/net/http/HttpServer.cc:154-171 | Two chunkings of the same bytes serve the same requests as far as both go |
| Http.BadLineLeavesMethodExactly | muduo/net/http/HttpRequest.h:42-72 | A failed call leaves a method behind exactly when its line begins with a known method and a space |
| Http.LegalCallsFailNoAssert | muduo/net/http/HttpServer.cc:55-110 | A call from a legal state fails no assert |
| Http.NextCallFailsAssertExactly | muduo/net/http/HttpRequest.h:42-44 | After a failed call the next one, with whatever bytes have come, fails the assert in `setMethod` exactly when the bad line begins with a known method and a space |
| Http.HttpContext.constructor | muduo/net/http/HttpContext.h:24-27 | Starts expecting a request line, with an empty request |
| Http.HttpContext.Clear | muduo/net/http/HttpContext.h:47-52 | `reset` empties the context except for the version, which `swap` does not exchange |
| Http.HttpContext.SetMethod | muduo/net/http/HttpRequest.h:42-72 | Stores the method of the word, with PUT as HEAD, and says whether it is known |
| Http.HttpContext.AddHeader | muduo/net/http/HttpRequest.h:121-135 | The trimming loops store the value without surrounding space under the field name |
| Http.ProcessRequestLine | muduo/net/http/HttpServer.cc:19-53 | The pointer-moving code computes the specification function of a request line |
| Http.ParseLine | muduo/net/http/HttpServer.cc:59-108 | A turn that goes on consumes at least two bytes and keeps the outcome of the whole call |
| Http.ParseRequest | muduo/net/http/HttpServer.cc:55-110 | The loop ends and computes the specification function over the gap buffer |
| Http.HandleMessage | muduo/net/http/HttpServer.cc:154-171 | Serves at most one request and resets the context |
| Http.MessageIsStep | muduo/net/http/HttpServer.cc:154-171 | The method is the step of the session that the theorems are about |
| Connectors.StepKeeps | muduo/net/Connector.cc:33-217 | A disciplined step fails no assert and keeps the invariant |
| Connectors.RunKeeps | muduo/net/Connector.cc:33-217 | No disciplined run fails an assert |
| Connectors.DescriptorsAreAccountedFor | muduo/net/Connector.cc:70-217 | In every disciplined run no assert fails, each descriptor is held by the channel, or closed once, or handed over once, and the channel exists exactly while connecting or until its one reset has run |
| Connectors.HandedOverExactly | muduo/net/Connector.cc:151-198 | In every disciplined run a step hands a descriptor over exactly if it is the channel's, becomes writable without error or self-connect, and the connection is wanted; the connector is then connected; every descriptor given up in another way is closed |
| Connectors.RetriedExactly | muduo/net/Connector.cc:70-119 | In every disciplined run a retry timer is set exactly if the connection is wanted and an attempt fails in a way worth another try, with the next delay; a restart begins the delays anew; each call posts the functor of its name |
| Connectors.RetriesBackOff | muduo/net/Connector.cc:200-217 | The k-th retry since the last restart waits min(500 * 2^k, 30000) milliseconds |
| Connectors.NoAttemptIsForgotten | muduo/net/Connector.cc:33-68 | A connector that is to connect, is disconnected and has not given up has exactly one attempt to come |
| Connectors.DisciplineIsExact | muduo/net/Connector.cc:33-68 | A call keeps to the discipline exactly if, whatever `connect` answers, neither it nor the later steps of the loop can fail an assert |
| Connectors.TimerIsTimelyExactly | muduo/net/Connector.cc:121-127 | A retry timer can fail an assert exactly if it fires before the pending reset while a connection is wanted |
| Connectors.Connector.constructor | muduo/net/Connector.cc:16-25 | A new connector satisfies the invariant |
| Connectors.Connector.Connect | muduo/net/Connector.cc:70-110 | The switch on `errno` waits, retries or closes as the connect step says |
| Connectors.Connector.Retry | muduo/net/Connector.cc:200-217 | Closes the descriptor and, if still wanted, sets a timer and doubles the delay up to the cap |
| Connectors.Connector.RemoveAndResetChannel | muduo/net/Connector.cc:136-144 | Disables the channel, queues its reset and returns its descriptor |
| Connectors.Connector.StartInLoop | muduo/net/Connector.cc:39-51 | Connects if still wanted |
| Connectors.Connector.StopInLoop | muduo/net/Connector.cc:59-68 | Gives up the attempt under way |
| Connectors.Connector.Start | muduo/net/Connector.cc:33-37 | Does the start step and keeps the invariant |
| Connectors.Connector.Stop | muduo/net/Connector.cc:53-57 | Does the stop step and keeps the invariant |
| Connectors.Connector.Restart | muduo/net/Connector.cc:112-119 | Does the restart step, with the delay back at its start, and keeps the invariant |
| Connectors.Connector.StartFromOther | muduo/net/Connector.cc:33-37 | On another thread, posts the start and keeps the invariant |
| Connectors.Connector.StopFromOther | muduo/net/Connector.cc:53-57 | On another thread, posts the stop and keeps the invariant |
| Connectors.Connector.TimerFires | muduo/net/Connector.cc:209-210 | The retry timer, in time, does its step and keeps the invariant |
| Connectors.Connector.HandleWrite | muduo/net/Connector.cc:151-188 | Retries, hands over or closes the descriptor as the socket's error and the flags say |
| Connectors.Connector.HandleError | muduo/net/Connector.cc:190-198 | Gives the descriptor back and retries |
| Connectors.Connector.HandleEvent | muduo/net/Channel.cc:86-99 | The error callback and then the write callback, in one event, keep the invariant |
| Connectors.Connector.RunTask | muduo/net/Connector.cc:146-149 | The oldest functor, a reset among them, does its step and keeps the invariant |
| Pollers.UpdateAssertsExactly | muduo/net/poller/PollPoller.cc:61-94 | Where the indices agree, the asserts of `updateChannel` hold exactly if the channel is registered, or new with a free descriptor |
| Pollers.RemoveAssertsExactly | muduo/net/poller/PollPoller.cc:96-124 | The asserts of `removeChannel` hold exactly if the channel is registered, has no events and was updated so after its registration |
| Pollers.IndicesAgree | muduo/net/poller/PollPoller.cc:61-124 | After any disciplined sequence of adds, updates and swap-removes no assert has failed, map and array have one size, and each channel's index is that of the one entry that decodes to its descriptor and carries its events |
| Pollers.WatchedExactly | muduo/net/poller/PollPoller.cc:85-92 | In every such sequence the entry of a channel carries its last events, and is watched exactly if no update after the first had no events |
| Pollers.RegisteredExactly | muduo/net/poller/PollPoller.cc:61-130 | After any disciplined calls a channel is known to the poller exactly if it was updated and not removed since |
| Pollers.ReadyOnce | muduo/net/poller/PollPoller.cc:42-59 | No descriptor is ready twice |
| Pollers.NoMoreReady | muduo/net/poller/PollPoller.cc:44-45 | When as many entries were found as are ready, the early exit skips none |
| Pollers.Channel.constructor | muduo/net/Channel.cc:15-24 | A new channel has no events and no index |
| Pollers.PollPoller.constructor | muduo/net/poller/PollPoller.cc:13-16 | An empty poller satisfies the agreement |
| Pollers.PollPoller.UpdateChannel | muduo/net/poller/PollPoller.cc:61-94 | Does the update step on the array, the map and the channel's index |
| Pollers.PollPoller.SetEvents | muduo/net/Channel.h:43-47 | Changing a channel's events and updating does the step and keeps the agreement |
| Pollers.PollPoller.RemoveChannel | muduo/net/poller/PollPoller.cc:96-124 | The swap-remove does the remove step and keeps the agreement |
| Pollers.PollPoller.SwapOut | muduo/net/poller/PollPoller.cc:113-123 | The last entry takes the place of the removed one and its channel gets the new index |
| Pollers.PollPoller.Poll | muduo/net/poller/PollPoller.cc:22-40 | The kernel's contract: it sets the entries' events, none on a negated entry, and returns their number |
| Pollers.PollPoller.FillActiveChannels | muduo/net/poller/PollPoller.cc:42-59 | Returns exactly the channels of the ready entries, once each and in order, each with its events, and touches no other |
| Monitors.StepKeeps | muduo/base/BoundedBlockingQueue.h:23-47 | Every step of any thread, with spurious wakeups and barging, keeps order, capacity and the attendance of sleepers by signalled threads |
| Monitors.BoundedFifo | muduo/base/BoundedBlockingQueue.h:23-47 | In every interleaving the size stays within the capacity, elements come out in the order they went in, and beside a sleeping consumer (producer) there are no more elements (free slots) than signalled threads to use them |
| Monitors.EveryCallIsAnswered | muduo/base/BoundedBlockingQueue.h:23-47 | In every interleaving a step of `put` pushes its element last if there is room and keeps it asleep otherwise, one of `take` pops the oldest element or sleeps, and the calls of `put` are as many as the elements pushed or kept |
| Monitors.WokenCanGoOn | muduo/base/BoundedBlockingQueue.h:23-47 | A woken thread finds its call where it left it and can go on |
| Monitors.NoDeadlockExactly | muduo/base/BoundedBlockingQueue.h:26-40 | Producers and consumers never all wait for each other, exactly if the capacity is not 0 |
| Monitors.BoundedBlockingQueue.constructor | muduo/base/BoundedBlockingQueue.h:18-21 | An empty queue satisfies the invariant |
| Monitors.BoundedBlockingQueue.Put | muduo/base/BoundedBlockingQueue.h:23-33 | With any steps of others in its waits, `put` returns with its element pushed last or is still waiting with it, and keeps the invariant |
| Monitors.BoundedBlockingQueue.Take | muduo/base/BoundedBlockingQueue.h:35-47 | `take` returns the element it popped last or is still waiting, and keeps the invariant |
| Monitors.BoundedBlockingQueue.Perform | muduo/base/BoundedBlockingQueue.h:23-47 | One step of one thread does the step of the machine |
| Monitors.LatchOpensInTime | muduo/base/CountDownLatch.cc:11-28 | In every run the count is what the calls of `countDown` leave of it; no `wait` returns before enough of them, after that no thread sleeps in it, and each thread that called `wait` has returned or is in it |
| Monitors.CountDownLatch.constructor | muduo/base/CountDownLatch.cc:5-9 | Starts with the count and no waiters |
| Monitors.CountDownLatch.CountDown | muduo/base/CountDownLatch.cc:20-28 | Does the count-down step, waking everyone at zero |
| Monitors.CountDownLatch.Wait | muduo/base/CountDownLatch.cc:11-18 | Returns only when the latch has opened; while the thread sleeps, it has not |
| Monitors.CountDownLatch.Perform | muduo/base/CountDownLatch.cc:11-28 | One step of one thread does the step of the machine |
| LogStreams.DecimalRoundTrip | muduo/base/LogStream.cc:27-47 | The text of any integer is canonical and denotes it |
| LogStreams.CanonicalRoundTrip | muduo/base/LogStream.cc:27-47 | Every canonical text is the text of the integer it denotes |
| LogStreams.NumeralRoundTrip | muduo/base/LogStream.cc:49-62 | The digits of a number in any base up to 16 denote it, without a superfluous zero |
| LogStreams.ValueRoundTrip | muduo/base/LogStream.cc:49-62 | Every numeral without a superfluous zero is that of the number it denotes |
| LogStreams.DigitCount | muduo/base/LogStream.cc:33-38 | A number has at most k digits exactly if it is below the k-th power of the base |
| LogStreams.DecimalFits | muduo/base/LogStream.cc:87-103 | The text of a 64-bit integer, signed or not, has at most 20 characters |
| LogStreams.HexFits | muduo/base/LogStream.cc:153-165 | A 64-bit pointer has at most 16 hexadecimal digits |
| LogStreams.LowestDigit | muduo/base/LogStream.cc:21-38 | The digit that the truncating remainder picks from the mirrored table, for either sign, is the lowest digit of the magnitude |
| LogStreams.Reverse | muduo/base/LogStream.cc:45 | Reverses a range of the array in place and touches nothing else |
| LogStreams.Convert | muduo/base/LogStream.cc:27-47 | Leaves the text of the integer and its NUL in the array and touches nothing else, for every value including the minimum |
| LogStreams.ConvertHex | muduo/base/LogStream.cc:49-62 | Leaves the hexadecimal text and its NUL in the array and touches nothing else |
| LogStreams.GuardSuffices | muduo/base/LogStream.cc:95-103 | An item that passes its guard leaves room for a NUL |
| LogStreams.NeverOverrun | muduo/base/LogStream.h:35-48 | Any sequence of insertions stays below the size of the buffer and only appends |
| LogStreams.NothingDropped | muduo/base/LogStream.h:35-42 | A line that stays clear of the end by the numeric reserve is complete |
| LogStreams.FixedBuffer.constructor | muduo/base/LogStream.h:24-28 | Starts empty |
| LogStreams.FixedBuffer.Append | muduo/base/LogStream.h:35-42 | Appends all of a text or nothing |
| LogStreams.FixedBuffer.Add | muduo/base/LogStream.h:48 | Takes over what the caller wrote at the current position |
| LogStreams.FixedBuffer.Reset | muduo/base/LogStream.h:49 | Empties the buffer |
| LogStreams.FixedBuffer.DebugString | muduo/base/LogStream.cc:67-72 | There is always room for the NUL behind the contents |
| LogStreams.LogStream.FormatInteger | muduo/base/LogStream.cc:95-103 | Appends the text of an integer of any type, or nothing |
| LogStreams.LogStream.FormatPointer | muduo/base/LogStream.cc:153-165 | Appends 0x and the hexadecimal text of a pointer, or nothing |
| LogStreams.LogStream.Insert | muduo/base/LogStream.h:73-113 | Any insertion appends all of its text or nothing |
| ConnectionNames.NamesCollideExactly | muduo/net/TcpServer.cc:71-74 | Two connections get one name exactly if the digits of their numbers that fit are the same |
| ConnectionNames.NamesAreDistinctExactly | muduo/net/TcpServer.cc:71-74 | The first n connections have different names exactly if n is below the power of ten that the room for digits allows |
| ConnectionNames.FirstConnectionsAreDistinct | muduo/net/TcpServer.cc:71-74 | Whatever the address, the first 99,999,999 names differ |
| ConnectionNames.NextConnectionCollides | muduo/net/TcpServer.cc:71-74 | With the longest address the next connection gets a name given before |
| ConnectionNames.ConnectionMap.constructor | muduo/net/TcpServer.cc:15-30 | Starts with number 1 and no connections |
| ConnectionNames.ConnectionMap.NewConnection | muduo/net/TcpServer.cc:67-88 | Files the connection under its name; until numbers lose digits every live connection is filed under its own |
| ConnectionNames.ConnectionMap.RemoveConnectionInLoop | muduo/net/TcpServer.cc:113-117 | Until numbers lose digits exactly one entry, its own, is erased |
| Inspectors.Split | muduo/net/inspect/Inspector.cc:20-41 | The loop computes the pieces of the path |
| Inspectors.SplitIsExact | muduo/net/inspect/Inspector.cc:20-41 | The pieces are exactly the maximal non-empty slash-free stretches of the path, from left to right |
| Inspectors.SplitInvertsPathExactly | muduo/net/inspect/Inspector.cc:20-41 | Splitting a path gives back what it was made of exactly if that is non-empty and slash-free |
| Inspectors.TablesHoldLastAdds | muduo/net/inspect/Inspector.cc:66-74 | After any registrations both tables hold exactly the registered commands, with what was registered last |
| Inspectors.ListedPathIsDispatched | muduo/net/inspect/Inspector.cc:81-153 | The path listed for a proper module and command is dispatched to the callback registered last, with no arguments, unless that is empty |
| Inspectors.PathIsDispatched | muduo/net/inspect/Inspector.cc:81-153 | After any registrations a path of names is dispatched to the callback registered last for its first two, with the others as arguments, or is not found; the root is the index |
| Inspectors.ListedPathIsReadBackExactly | muduo/net/inspect/Inspector.cc:97-100 | A listed path is read back as its module and command exactly if both are non-empty and slash-free |
| Inspectors.Inspector.constructor | muduo/net/inspect/Inspector.cc:45-58 | Starts without commands |
| Inspectors.Inspector.Add | muduo/net/inspect/Inspector.cc:66-74 | Records the registration in both tables |
| Inspectors.Inspector.OnRequest | muduo/net/inspect/Inspector.cc:81-154 | The nested look-ups answer as the dispatch function says |
| Inspectors.Inspector.IndexPage | muduo/net/inspect/Inspector.cc:85-105 | Lists each registered command exactly once, with its last help |

## Left out

- Lifecycle.ConnectionLifecycle: assumes that `poll` never reports a hangup with priority data or a peer shutdown but without input (`ClosesOnceExactly` says why), that the server outlives the run and that names are distinct (`ConnectionNames` says for how many connections they are).
- Lifecycle.KeptUntilBatchesEnd: the functors of the write-complete and high-water callbacks, which also bind shared pointers, are not modelled; they are queued only before the close, so none is in a later batch than the destruction.
- Lifecycle.HandlersRunWhileUp: user callbacks are steps after the handler rather than nested in it.
- Timers.NoLostTimer: takes the clock of the expirations and that of the timerfd to be one.
- Connectors.DescriptorsAreAccountedFor: its runs have no retry timer that fires before the reset pending when it was set (`TimerIsTimelyExactly` says that this is needed; half a second is longer than a pass of the loop), and descriptors are numbered by creation, not by reuse.
- OutputStreams.CallIsSafeExactly: the test and the change of `state_` in `shutdown` are one step; the data race on `state_` is not modelled.  That a functor finds its connection alive is the subject of `Lifecycle`.
- Lifecycle.TcpServer.TestShutdown: the test and the change of `state_` are one step.
- Inspectors.Inspector.IndexPage: the order of the lines on the page, which is that of `std::map`.
- Buffers.Buffer.FindCRLF: the overload with a start position.
- Http.HandleMessage: the 400 answer, `onRequest` with its response, and the connection's shutdown after a bad line.
- Http.Parse: `kExpectBody`, which no transition enters and in which the loop of the code would not end.
- The destructors of `TcpServer` and `TcpClient`, which bind a raw `this` and destroy connections that may be half-closed.
- `Acceptor`, `Socket`, `SocketsOps`, `InetAddress`: thin wrappers of system calls, whose results are parameters here.
- `TcpClient`: its one connection at a time follows the life cycle of the server's.
- `EPollPoller` and the choice of a poller are not part of this model.
- `ThreadPool`, `BlockingQueue`, `EventLoopThreadPool`: nothing beyond what is proved of the components above.
- `HttpResponse::appendToBuffer`: its status line is written with a fixed size and a broken format.
- The boolean `size()` and `capacity()` of the bounded queue, and the `getCount` of the latch.
- Floating-point formatting, the logging front end, log files, process information and thread helpers.
- Data races other than through the functor queue, and memory limits: allocation always succeeds.
