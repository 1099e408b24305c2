# A verified model of the reactor's state-keeping layer

The repository is a C++ network library in the reactor style: one event loop per thread, an epoll
poller under it, channels that tie a descriptor to its callbacks, TCP connections over buffers, a
timer queue over a timerfd, and a server that hands connections to the loops. This project models the
parts of it that keep state from one event to the next, and proves what they promise over whole runs.

Each component is written down twice.

- As a **state machine over values**: a datatype for the state, an `Event` for each thing that can
  happen (calls from the loop's thread, steps of other threads, answers of the kernel), `Enabled` and
  `Apply`, and `IsRun` for the runs from the initial state. The theorems are about these: they hold on
  every run, for every answer the kernel may give and every interleaving.
- As a **class** with the fields of the C++ class, whose methods change them in place with the branches
  and loops of the source. Every such method is proved to take the abstract value of the object exactly
  where the state machine's function takes it, which carries the theorems over to it. (The server's class
  holds its connections as values of their state machine, not as objects.)

| files | component |
|---|---|
| `BufferSpace.dfy`, `Buffer.dfy` | the growing, compacting byte queue |
| `EpollRegistry.dfy`, `EpollPoller.dfy` | channels, the poller's map, the kernel's interest list, dispatch |
| `Connection.dfy`, `ConnectionTheorems.dfy`, `ConnectionRuns.dfy`, `ConnectionLaws.dfy`, `TcpConnection.dfy` | the connection and its output stream |
| `LoopProtocol.dfy`, `LoopHistory.dfy`, `EventLoop.dfy` | the hand-off of functors to a loop |
| `TimerArithmetic.dfy`, `TimerSchedule.dfy`, `TimerInvariant.dfy`, `TimerRuns.dfy`, `TimerHistory.dfy`, `TimerQueue.dfy` | timers and the timerfd |
| `Ownership.dfy`, `Teardown.dfy`, `TcpServer.dfy` | the server's map, the teardown of connections across loops, and the end of the server |
| `Watching.dfy` | server, connections and pollers as one machine |

Invariants leave much of a step open, so each step is also pinned from outside: by lemmas that say what it
does in terms of what was asked and what the kernel answered (`SendInLoopExactly`, `StateStep`,
`CallbacksMade`, `DueExactly`, `SetEventsIndex`, `MakeSpaceExactly`), and by laws that give a field, on every
run, as the sum of its history (`WireIsWhatWasTaken`, `InputIsWhatCame`, `ThreadsInFlight`,
`CounterIsWritesSince`, `QuitExactly`, `DueTimes`).

## The outside world

System calls are oracles. `write` answers `Wrote(n)` with any `n` up to the length offered, `Faulted`
(EPIPE, ECONNRESET) or `Stalled` (any other error: the code treats them alike). `readv` answers an error
or any bytes that fit. `epoll_wait` may return at any time, with any watched descriptors, each at most
once. The clock never goes back, and time passes between reading it and setting the timerfd. The
application's callbacks are not code here: what they do to a connection, a loop or a timer queue are
further events of the run, or arguments that say what they do.

## Where the code and its evident intent differ

The code is modelled as it is written, and what follows from that is proved.

- `TcpConnection.cpp:150` appends the rest of the data from `data + nwroter`. After a direct write that
  failed without a fault `nwroter` is -1, so the byte before the data goes out and the last one is lost.
  `StreamConservation` says that the stream is intact if and only if no send met such an answer (but for
  data that merely repeats the byte before it); `SlipExample` shows one that did. Its length is always
  right.
- `TcpConnection.cpp:190` switches off reading, not writing, when the output has drained. The option
  `Drain` has both forms: `AsWritten` and `Intended`. The class is the form as written. As written, write
  interest stays on until the next close once a byte was buffered (`WriteInterestSticks`), the connection no longer
  reads after its first drain (`DeafAfterDrain`), and the FIN is sent if and only if a shutdown came
  while no byte had been buffered since the last close (`FinOnlyIfNeverBuffered`). The liveness of the half-close is proved of the
  intended form (`HalfCloseLiveness`); everything else is proved of both.
- `TcpConnection.cpp:271-273` tests the state and then sets it, without a lock. Another thread's store
  can come after a close, and then a closed connection is half open again (`LateShutdownReopens`), may be
  told Down twice (`SecondDown`), and may shut down writing over pending bytes (`LateFinOvertakes`). The
  theorems hold on every run, such late stores included, and say in each case exactly what they cost:
  `StrandedExactly`, `NeverStranded`, `ShutOverExactly`, `HalfCloseSafety`, `CallbackDiscipline`, `ClosedForGood`.
- `TcpConnection.cpp:68-73` and `TcpConnection.cpp:274-276` queue functors that hold no reference, and
  nothing stops a send queued behind `connectDestroyed` from running: in the batch that ran
  `connectDestroyed` it finds the connection in `kDisconnecting`, writes, and puts the removed channel back
  into the poller, where it stays when the batch is dropped and the connection with it
  (`SendOrphansChannel`). These functors are steps of the model as long as the connection exists.
  `Channel.cpp:102-125` comes to the same when the message callback destructs the server: `handleWrite`,
  called in the same dispatch, drains a connection that `connectDestroyed` has already removed, and `TcpConnection.cpp:190` registers its
  channel again (`DrainOrphansChannel`). That channels leave the poller in time, and that the pollers agree
  with the kernel, holds if and only if no such send and no such drain put one back
  (`OwnershipAcrossTeardown`, `EveryLoopAgrees`, `OrphanedExactly`).
- `TcpServer.cpp:36-48` leaves close callbacks and removals that come after it to call a server that is gone:
  a removal that waits (`RemovalOutlivesServer`), the close callback of the very connection whose down
  callback runs the destructor (`DownCallbackDestructs`), or the close of a connection that something else
  keeps, be it only a queued write-complete callback (`KeptSendCallsServer`). The model lets them happen, as
  if the memory were still there and its map empty; `SafeToDestruct` says exactly when none can.
- `TcpConnection.cpp:258-260` tests the state and then sets it, too: another thread's shutdown that stores
  in between is overwritten, and only its functor is left (`ShutdownIsLost`).
- `TcpConnection.cpp:258` makes no down callback when a connection is destroyed while disconnecting.
- `EventLoop.cpp:111` does not wake the loop for what the loop thread itself queues before `loop()`, so
  the first poll may sleep on it (`FirstPollMaySleep`); and `EventLoop.cpp:58` forgets a quit that comes
  before `loop()` (`EarlyQuitIsForgotten`). `NoLostWakeup` says exactly when the loop can sleep on work.
- `TimerQueue.cpp:134` pairs `now` with a null pointer, so a timer whose expiration equals `now` is not
  expired yet. Expiry is strict throughout.
- `TimerQueue.cpp:108-114` looks for a cancelled timer among the set ones only. `CancelIsEffective` says
  exactly which timers a cancel stops for good and which it does not.
- `CurrentThread.cpp:11` assigns where it should compare, so that all thread ids are 0.
  `isInLoopThread` is modelled as the comparison of real thread ids that `EventLoop.h:48` declares.
- `TcpConnection.cpp:68-73` binds a pointer into a string that is gone when the functor runs. A send from
  another thread is modelled as carrying its bytes.

## Model

| member | source | states |
|---|---|---|
| Buffers.Buffer.constructor | Buffer.h:13-19 | an empty queue, indices at the prepend mark |
| Buffers.Buffer.Retrieve | Buffer.h:39-50 | drops the first len bytes, or all of them, without touching the vector |
| Buffers.Buffer.RetrieveAll | Buffer.h:51-54 | leaves nothing readable |
| Buffers.Buffer.RetrieveAsString | Buffer.h:60-65 | result and what remains make up the old contents; a longer result starts with all of them |
| Buffers.Buffer.RetrieveAllAsString | Buffer.h:56-59 | returns the contents exactly and leaves nothing |
| Buffers.Buffer.EnsureWritableBytes | Buffer.h:66-73 | len bytes fit behind the writer index and the contents are as they were |
| Buffers.Buffer.MakeSpace | Buffer.h:95-108 | growth and the ascending overlapping copy both keep the contents and make the room asked for |
| Buffers.Buffer.Append | Buffer.h:75-80 | concatenates at the end of the plain byte sequence |
| Buffers.Buffer.ReadFd | Buffer.cpp:8-39 | all that readv delivered is appended in order, wherever its two parts landed; an error changes nothing |
| BufferSpace.EnsureWritableMakesRoom | Buffer.h:66-73 | index order kept, readable count kept, room for len, never shrinks |
| BufferSpace.CompactionMovesDown | Buffer.h:95-108 | compaction happens only when the bytes move down and then leave enough room |
| BufferSpace.MakeSpaceExactly | Buffer.h:66-108 | nothing moves as long as there is room; else the vector grows to just the writer index plus len, or the bytes move down to the prepend mark |
| BufferSpace.RetrieveExactly | Buffer.h:39-54 | taking a part moves the reader index only, taking all or more resets both |
| BufferSpace.ApplyKeepsValid | Buffer.h:39-108 | 8 <= reader <= writer <= size after every operation, and what it does to the readable count |
| BufferSpace.GrowthStep | Buffer.h:95-108 | one growth is to at most twice the demand plus 7 |
| BufferSpace.SpaceBound | Buffer.h:66-108 | over any history the vector is at most max(first size, 2 * peak + 7), the peak being the most bytes it ever held or had room reserved for |
| BufferSpace.PeakIsLargestEver | Buffer.h:66-108 | when nothing is only reserved, that peak is the largest readable count ever reached |
| EpollRegistry.SetEventsAgrees | EpollPoller.cpp:68-97 | an update keeps index, map, kernel mask and refusal count in agreement and touches no other channel |
| EpollRegistry.RemoveChannelAgrees | EpollPoller.cpp:100-114 | so does a removal, after which the channel is new again |
| EpollRegistry.SetEventsIndex | EpollPoller.cpp:68-97 | after an update a channel is added, even for no events if it was not there, or deleted if and only if it was added and asks for none any more |
| EpollRegistry.CtlFailsExactly | EpollPoller.cpp:129-150 | epoll_ctl fails if and only if it adds a watched descriptor or touches an unwatched one, and then changes nothing; otherwise it changes just that descriptor's entry |
| EpollRegistry.ApplyAgrees | EpollPoller.cpp:68-150 | every step of a channel's life keeps the agreement |
| EpollRegistry.RunAgrees | EpollPoller.cpp:68-150 | on every run: added iff watched with its own mask, deleted implies an empty mask, known iff not new, no epoll_ctl ever refused |
| EpollRegistry.SharedFdIsRefused | EpollPoller.cpp:129-150 | why distinct descriptors are needed: a second channel on one is refused and hides the first |
| Epoll.Channel.constructor | Channel.cpp:19-28 | new, no interest, untied, and the poller's records still agree |
| Epoll.Channel.EnableReading | Channel.h:45-49 | mask grows by the read bits and poller and kernel follow |
| Epoll.Channel.DisableReading | Channel.h:50-54 | mask loses the read bits and poller and kernel follow |
| Epoll.Channel.EnableWriting | Channel.h:55-59 | mask grows by the write bit and poller and kernel follow |
| Epoll.Channel.DisableWriting | Channel.h:60-64 | mask loses the write bit and poller and kernel follow |
| Epoll.Channel.DisableAll | Channel.h:65-69 | mask is empty and poller and kernel follow |
| Epoll.Channel.Remove | Channel.cpp:48-52 | the channel is out of map and kernel and new |
| Epoll.Channel.HandleEvent | Channel.cpp:53-68 | nothing runs once the owner of a tied channel is gone; otherwise what the returned events call for |
| Epoll.Channel.HandleEventWithGuard | Channel.cpp:70-127 | the callbacks made, in order, of those that are set; reading and writing each exactly when asked for and not hidden by an error or hang-up; a missing read callback ends the process |
| Epoll.DispatchPriority | Channel.cpp:70-127 | error hides all, hang-up hides reading and writing, read before write, some callback due iff some event |
| Epoll.DueExactly | Channel.cpp:70-127 | each of the four callbacks is due if and only if its events were returned and none that hides them, once, and reading before writing |
| Epoll.DispatchIsComplete | Channel.cpp:70-127 | unless the process ends, exactly the callbacks that are due and set are made, with all set all that are due; it ends if and only if something is to be read, nothing worse happened and the read callback is missing |
| Epoll.EpollPoller.UpdateChannel | EpollPoller.cpp:68-97 | the in-place index, map and kernel changes are those of the registry |
| Epoll.EpollPoller.RemoveChannel | EpollPoller.cpp:100-114 | likewise |
| Epoll.EpollPoller.Update | EpollPoller.cpp:129-150 | epoll_ctl: ADD wants the descriptor absent, MOD and DEL present; failures are counted |
| Epoll.EpollPoller.HasChannel | Poller.cpp:8-12 | the lookup by descriptor and identity answers exactly whether the index is not new |
| Epoll.EpollPoller.FillActiveChannels | EpollPoller.cpp:117-127 | the active channels exist, are registered, and carry the events of their own entry, in order |
| ConnectionTheorems.KeepRestEffect | TcpConnection.cpp:136-155 | buffering adds the rest at the end and turns on write interest, nothing else |
| ConnectionTheorems.SendInLoopEffect | TcpConnection.cpp:82-156 | the stream grows by exactly what was accepted, whichever path it took; direct bytes never overtake buffered ones |
| ConnectionTheorems.StepShape | TcpConnection.cpp:82-287 | every event closes, sends, writes, establishes or destroys, or leaves stream and channel alone |
| ConnectionTheorems.ApplyInv | TcpConnection.cpp:82-287 | every event, late shutdowns, functors queued behind connectDestroyed and write events dispatched behind it included, keeps the channel, interest, callback, queue, length and half-close invariants |
| ConnectionTheorems.RunInv | TcpConnection.cpp:82-287 | so they hold on every run |
| ConnectionRuns.SlipIsInvisible | TcpConnection.cpp:150 | appending from one byte too early shows if and only if the data does not merely repeat that byte |
| ConnectionRuns.StreamConservation | TcpConnection.cpp:82-216 | on every run: bytes the kernel took ++ output buffer == accepted bytes, if and only if no send slipped visibly; equal length always |
| ConnectionRuns.SlipExample | TcpConnection.cpp:97-150 | a run on which 1 2 is sent and 0 1 is buffered |
| ConnectionRuns.StepReports | TcpConnection.cpp:82-216 | for each event, exactly when it queues a write-complete or high-water callback or shuts down writing |
| ConnectionRuns.StrandedExactly | TcpConnection.cpp:136-287 | on every run, pending bytes of a live connection lack write interest if and only if a late shutdown stored over a close that had left bytes behind and nothing was accepted since |
| ConnectionRuns.ShutOverExactly | TcpConnection.cpp:218-266 | on every run, a closed connection has bytes pending if and only if some close came over them and nothing was accepted since |
| ConnectionRuns.HalfCloseSafety | TcpConnection.cpp:179-287 | on every run, before and after connectDestroyed: when writing is shut down every accepted byte is with the kernel, if and only if none was left behind, by a late shutdown over a close while the connection is not closed, by a close when it is |
| ConnectionRuns.LateFinOvertakes | TcpConnection.cpp:269-287 | the run on which the FIN goes out ahead of a pending byte |
| ConnectionRuns.WriteCompleteTruth | TcpConnection.cpp:185-197 | on every run, a write-complete is queued only when the kernel has all that was accepted, byte for byte unless a send slipped, and whenever a send or drain gets there |
| ConnectionRuns.HighWaterMarksCrossings | TcpConnection.cpp:142-149 | one is queued if and only if the pending length crosses the mark upwards, with the new length |
| ConnectionRuns.HighWaterAlternates | TcpConnection.cpp:142-149 | between any two of them a write event took the length below the mark |
| ConnectionRuns.ClosedIsFinal | TcpConnection.cpp:82-93 | a closed connection moves no byte; it stays closed if and only if no late shutdown stores over it; no callback unless its channel is registered |
| ConnectionRuns.CallbackDiscipline | TcpConnection.cpp:218-266 | on every run: up once and first; down at least once exactly when it is closed or a late shutdown came; at most once if and only if no close came after a late shutdown or in the closed state |
| ConnectionRuns.ClosedForGood | TcpConnection.cpp:218-279 | closed from some moment on, with no byte moved, if and only if no late shutdown comes |
| ConnectionRuns.SecondDown | TcpConnection.cpp:57-134 | the run on which a send queued before the close makes a second down callback on the reopened connection |
| ConnectionRuns.LateShutdownReopens | TcpConnection.cpp:269-279 | the run on which check and store of shutdown straddle a hang-up |
| ConnectionRuns.ShutdownIsLost | TcpConnection.cpp:256-279 | the run on which the store of shutdown comes between check and store of connectDestroyed |
| ConnectionRuns.StaleHangUpRepeats | TcpConnection.cpp:218-227 | a hang-up dispatched to a closed connection would make a second down callback |
| ConnectionRuns.WriteInterestSticks | TcpConnection.cpp:185-202 | as written, on every run: write interest is on if and only if some byte was buffered since the last close |
| ConnectionRuns.DeafAfterDrain | TcpConnection.cpp:185-202 | as written, on every run: read interest is on if and only if the connection was established, never closed and never drained |
| ConnectionRuns.FinOnlyIfNeverBuffered | TcpConnection.cpp:198-287 | as written, on every run: writing was shut down if and only if some shutdown ran while no byte had been buffered since the last close |
| ConnectionRuns.NeverStranded | TcpConnection.cpp:136-227 | on every run, pending bytes of a live connection have write interest on a registered channel if and only if no late shutdown left them behind; as intended, nothing else has write interest |
| ConnectionRuns.HalfCloseLiveness | TcpConnection.cpp:198-287 | as intended, on every run: once nothing is pending, a shut-down connection has sent its FIN |
| ConnectionRuns.ShutForGood | TcpConnection.cpp:57-279 | a connection that is not registered, and closed or without write interest, never closes again unless a send is under way that would fail or register it, or the write event of the dispatch it was removed in is due and would drain its output |
| ConnectionRuns.CloserByOne | TcpConnection.cpp:57-279 | any other can still close, and this step, of a send or shutdown under way, of the dispatch or of the channel, brings it closer |
| ConnectionRuns.ShutUntilPolled | TcpConnection.cpp:82-156 | after connectDestroyed, while its loop does not poll and no thread is inside send or shutdown, nothing closes it or queues a callback on a connection that may close, unless the next queued send can fail or the queued ones reach the high-water mark |
| ConnectionRuns.OverflowsByOne | TcpConnection.cpp:136-155 | if they do, the next of them queues the high-water callback on a registered channel, or leaves the others to |
| ConnectionRuns.QueuesExactly | TcpConnection.cpp:97-197 | a step queues a callback with a reference to the connection if and only if it reports a write-complete or a high-water mark |
| ConnectionRuns.RevivedStep | TcpConnection.cpp:82-216 | exactly which steps put a removed channel back into the poller: a queued send after connectDestroyed, in kDisconnecting without write interest, that fails or leaves bytes; and a write event after connectDestroyed that drains |
| ConnectionRuns.RevivedExactly | TcpConnection.cpp:82-266 | on every run, the channel of a destroyed connection is out of the poller unless such a send or drain came since connectDestroyed last ran |
| ConnectionRuns.SendsInOrder | TcpConnection.cpp:57-93 | on every run, what other threads hand over runs or waits in the order it was handed over; each is accepted or dropped, dropped if and only if the connection is closed or that send closes it; what is accepted is the accepted data in order |
| ConnectionLaws.SendInLoopExactly | TcpConnection.cpp:82-156 | a send by what write answered: of n bytes taken the first n are on the wire and the rest pending; after a fault nothing; after another error the data shifted by one byte; without a write all of it behind what was pending |
| ConnectionLaws.WireIsWhatWasTaken | TcpConnection.cpp:98-202 | on every run the bytes on the wire are what each write call took, in order |
| ConnectionLaws.InputIsWhatCame | TcpConnection.cpp:158-178 | on every run the bytes received are those the application has taken followed by the input buffer, in order |
| ConnectionLaws.CallbacksMade | TcpConnection.cpp:158-263 | for each event, exactly whether it makes the up, message, down and close callbacks, the last two in this order |
| ConnectionLaws.StateStep | TcpConnection.cpp:57-279 | the state after each event, from the event and the state before |
| ConnectionLaws.ConnectedExactly | TcpConnection.cpp:218-279 | on every run, connected if and only if established and not yet shut down, closed or destroyed |
| ConnectionLaws.ShutdownIsFinal | TcpConnection.cpp:57-279 | after a shutdown on the loop's thread the connection is never connected again and no send has any effect |
| ConnectionLaws.ThreadsInFlight | TcpConnection.cpp:57-279 | on every run, threads inside send and shutdown and queued shutdownInLoop calls are just those begun and not finished |
| TcpConnections.TcpConnection.constructor | TcpConnection.cpp:19-50 | connecting, with an unregistered channel that has all its callbacks, and empty buffers |
| TcpConnections.TcpConnection.ConnectEstablished | TcpConnection.cpp:245-254 | the connection, its channel, poller and buffers go where the state machine's step goes, and the channel is tied |
| TcpConnections.TcpConnection.ConnectDestroyed | TcpConnection.cpp:256-266 | likewise |
| TcpConnections.TcpConnection.HandleClose | TcpConnection.cpp:218-227 | likewise |
| TcpConnections.TcpConnection.Send | TcpConnection.cpp:57-78 | sent at once on the loop thread, queued last from any other; nothing unless connected |
| TcpConnections.TcpConnection.RunSend | TcpConnection.cpp:68-93 | the first queued send leaves the queue and is sent |
| TcpConnections.SendElsewhere | TcpConnection.cpp:57-78 | an uninterrupted send of another thread is the state machine's check and queueing in a row |
| TcpConnections.TcpConnection.SendInLoop | TcpConnection.cpp:82-156 | likewise, through the direct write and the buffered rest; what a direct write took is on the wire and the rest in the output buffer |
| TcpConnections.TcpConnection.HandleRead | TcpConnection.cpp:158-178 | likewise, for bytes, end of stream and error; the bytes read are at the end of the input buffer |
| TcpConnections.TcpConnection.HandleWrite | TcpConnection.cpp:179-216 | likewise, through a partial write and through a drain |
| TcpConnections.TcpConnection.Shutdown | TcpConnection.cpp:269-279 | a connected connection is disconnecting, on any thread; on the loop thread shutdownInLoop follows at once, from any other one more is queued; nothing unless connected |
| TcpConnections.ShutdownElsewhere | TcpConnection.cpp:269-279 | an uninterrupted shutdown of another thread is the state machine's check and store in a row |
| TcpConnections.TcpConnection.ShutdownInLoop | TcpConnection.cpp:280-287 | shuts down writing unless write interest is on |
| TcpConnections.PendingIsWatched | TcpConnection.cpp:150-154 | a live connection with pending bytes is in its poller's kernel list under its own channel, for EPOLLOUT, if and only if it is not stranded |
| LoopProtocol.ApplyInv | EventLoop.cpp:55-162 | every step of any thread keeps: nothing lost, and what no swap will fetch is signalled |
| LoopProtocol.NoLostWakeup | EventLoop.cpp:55-134 | asleep implies no quit outstanding, and work waiting if and only if the loop thread queued it silently before loop() |
| LoopProtocol.NeverSleepsOnWork | EventLoop.cpp:55-162 | from the second poll, or the first if the queue was empty: never asleep over a functor or a quit |
| LoopProtocol.FirstPollMaySleep | EventLoop.cpp:104-115 | the run that shows why the first poll is different |
| LoopProtocol.EarlyQuitIsForgotten | EventLoop.cpp:55-58 | the run on which a quit before loop() is lost |
| LoopProtocol.ExactlyOnceInOrder | EventLoop.cpp:147-162 | executed ++ rest of the batch ++ pending == all queued, under every interleaving |
| LoopProtocol.BatchRunsItself | EventLoop.cpp:147-162 | a batch runs exactly what was waiting at the swap; what is queued meanwhile stays, in order |
| LoopProtocol.QuitLeavesTheRest | EventLoop.cpp:61-90 | when loop() returns, everything queued up to the last swap has run and exactly what was queued since is left, in order |
| LoopProtocol.QuitLeavesWork | EventLoop.cpp:61-90 | a run on which something is left |
| LoopProtocol.NextStepIsCloser | EventLoop.cpp:61-80 | while work is left some step is enabled that brings its end closer |
| LoopProtocol.WorkGetsDone | EventLoop.cpp:55-162 | wakeups already under way suffice to run everything queued, with no new request and no timeout |
| LoopHistory.CounterIsWritesSince | EventLoop.cpp:116-134 | on every run the eventfd counts the writes since it was last read |
| LoopHistory.ReturnsOnlyWhenWoken | EventLoop.cpp:62-134 | a poll returns with the eventfd only if somebody wrote to it since it was last read |
| LoopHistory.QuitExactly | EventLoop.cpp:55-90 | on every run, quit is set if and only if somebody asked for it since loop() started |
| LoopHistory.OwingExactly | EventLoop.cpp:83-115 | a thread owes a wakeup exactly from its change to its write |
| LoopHistory.ReportedExactly | EventLoop.cpp:66-124 | the eventfd is to be read exactly from a poll that reported it to its read |
| LoopHistory.SilentExactly | EventLoop.cpp:104-115 | what a first poll may sleep over is exactly what the loop thread queued outside loop() and no swap has taken since |
| EventLoops.EventLoop.Loop | EventLoop.cpp:55-81 | runs, round by round, exactly what was queued before each swap, by any thread; ends after the first round in which anybody quits, from wherever; is a run of the protocol |
| EventLoops.EventLoop.Quit | EventLoop.cpp:83-90 | sets the flag and, from another thread, wakes |
| EventLoops.EventLoop.RunInLoop | EventLoop.cpp:92-102 | run at once on the loop thread, with what is queued meanwhile; queued and signalled from any other |
| EventLoops.EventLoop.QueueInLoop | EventLoop.cpp:104-115 | queued last; signalled if from another thread or from a running batch |
| EventLoops.EventLoop.HandleRead | EventLoop.cpp:116-124 | the eventfd counts nothing afterwards |
| EventLoops.EventLoop.DoPendingFunctors | EventLoop.cpp:147-162 | runs the old queue, leaves exactly what was queued meanwhile by the batch and by other threads, with at least a wakeup for each of those, and heeds a quit only afterwards |
| EventLoops.QueueInLoopLeads | EventLoop.cpp:104-115 | an uninterrupted queueInLoop is the protocol's request followed, when due, by its wakeup |
| TimerArithmetic.SettingIsLegal | TimerQueue.cpp:34-49 | never zero, nanoseconds in range: arming never disarms |
| TimerArithmetic.DelayIsClose | TimerQueue.cpp:34-49 | 100 microseconds, or less than a microsecond short of the time left |
| TimerArithmetic.DeadlineIsEarlyEnough | TimerQueue.cpp:34-64 | the deadline is at most the target plus the time between reading and setting, or the shortest delay |
| TimerArithmetic.DeadlineIsLateEnough | TimerQueue.cpp:34-64 | the deadline is less than a microsecond before the target |
| TimerArithmetic.SecondDeadlineSuffices | TimerQueue.cpp:34-64 | re-armed for the same target after an early deadline, the next one is strictly after it |
| TimerInvariant.InsertFacts | TimerQueue.cpp:160-176 | insertion keeps order and distinctness and adds just this timer |
| TimerInvariant.ReinsertedFacts | TimerQueue.cpp:141-150 | the loop of reset adds just the repeating timers of the batch, in order, an interval after now |
| TimerInvariant.RestartedFacts | TimerQueue.cpp:141-150 | and changes the expirations of just those |
| TimerInvariant.ApplyInv | TimerQueue.cpp:89-176 | every step keeps order, one place for each timer, keys, arming and history |
| TimerInvariant.RunInv | TimerQueue.cpp:89-176 | so every run does: in particular every stored key is its timer's current expiration |
| TimerRuns.AlwaysArmed | TimerQueue.cpp:103-176 | back in the loop with a timer set: the timerfd is armed or fired unread, with a deadline early enough |
| TimerRuns.ReadOnce | TimerQueue.cpp:117-157 | handleRead empties the timerfd: it reads as fired only if it reached a deadline since it was last read, never while a batch runs, and afterwards it is set if and only if a timer is, for the earliest |
| TimerRuns.EarlyFireCostsOneWakeup | TimerQueue.cpp:117-157 | an early fire runs nothing, keeps the set and arms past the expiration |
| TimerRuns.DueTimerExpires | TimerQueue.cpp:131-139 | the earliest timer is in the batch if and only if its expiration is strictly past |
| TimerRuns.ExpiryPartition | TimerQueue.cpp:131-139 | batch ++ rest == old set, cut exactly at expiration < now |
| TimerRuns.FiringGuarantee | TimerQueue.cpp:117-157 | never early, one-shot at most once, repeats more than an interval apart |
| TimerHistory.DueTimes | TimerQueue.cpp:89-157 | of every timer added: its first run is due when it was asked for, each later one an interval after the batch that ran it before |
| TimerRuns.MayRunCanRun | TimerQueue.cpp:89-157 | a timer that is set, about to be, or in the batch with a run or renewal to come has a continuation, through a timerfd that fires when due, on which it runs |
| TimerRuns.NeverRunsExactly | TimerQueue.cpp:89-157 | on no continuation does it run, if and only if it is in none of those places |
| TimerRuns.CancelRemovesFromSet | TimerQueue.cpp:103-115 | removes exactly that sequence number from the set, and nothing from elsewhere |
| TimerRuns.CancelIsEffective | TimerQueue.cpp:103-115 | stops the timer for good if and only if it is not waiting to be inserted and not in the batch with a run or renewal to come |
| TimerQueues.Timer.constructor | Timer.h:16-23 | repeats iff the interval is positive |
| TimerQueues.Timer.Restart | Timer.cpp:6-16 | now plus the interval, or the null time point for a one-shot timer |
| TimerQueues.TimerQueue.AddTimer | TimerQueue.cpp:89-102 | a fresh timer with the next sequence number and the expiration and interval asked for, its insertion queued |
| TimerQueues.TimerQueue.Cancel | TimerQueue.cpp:103-115 | the scan's removal is the state machine's, and the timerfd stays as it is |
| TimerQueues.TimerQueue.Fire | TimerQueue.cpp:14-22 | the kernel's part: at the deadline or later the armed timerfd becomes readable |
| TimerQueues.TimerQueue.ResetTimerfd | TimerQueue.cpp:51-64 | armed for the target, clock read before it is set |
| TimerQueues.TimerQueue.InsertSlot | TimerQueue.cpp:160-176 | entry put in its place; the timerfd set exactly for a new front |
| TimerQueues.TimerQueue.Insert | TimerQueue.cpp:95-99 | the queued functor is the state machine's insertion |
| TimerQueues.TimerQueue.GetExpired | TimerQueue.cpp:131-139 | cuts the set in two at now |
| TimerQueues.TimerQueue.Reset | TimerQueue.cpp:141-157 | renewed timers are back with their new expirations and the timerfd is set for the front |
| TimerQueues.TimerQueue.HandleRead | TimerQueue.cpp:117-129 | of a timerfd that has fired: reads it, runs exactly the expired timers, in order, whatever their callbacks cancel and add, and leaves it set for the earliest timer, or unset if there is none; is a run of the state machine |
| Ownership.RunInv | TcpServer.cpp:36-125 | the life of every connection is in order on every run of accepts, events, close callbacks, functors, batches, dispatches, pointers kept and dropped, and the destructor, in any order |
| Ownership.RemoveInv | TcpServer.cpp:116-125 | removeConnectionInLoop turns one removal into one connectDestroyed on the connection's loop and keeps every connection's life in order |
| Teardown.EveryEndIsServed | TcpServer.cpp:36-125 | closes plus the destructor's letting go == close callbacks to come, removals and connectDestroyed queued, and connectDestroyed run: none lost, none made twice |
| Teardown.OwnershipAcrossTeardown | TcpServer.cpp:36-125 | until connectDestroyed the map names the connection or connectDestroyed is queued; afterwards, and when nobody holds it, its channel is out of the poller if and only if no send and no drain since has put it back; it is held longer only by its batch, by what the application, a callback or a dispatch keeps, or because its end was asked for again |
| Teardown.SendOrphansChannel | TcpConnection.cpp:57-287 | the run on which a send behind connectDestroyed leaves the channel in the poller with nobody holding the connection |
| Teardown.DrainOrphansChannel | Channel.cpp:102-125 | the run on which the message callback destructs the server and the write event of the same dispatch leaves the channel in the poller, with no send queued |
| Teardown.SendOutlivesConnection | TcpConnection.cpp:57-78 | the run on which a queued send is left when the connection is gone |
| Teardown.HeldFdsAreDistinct | TcpServer.cpp:66-109 | held connections, and channels a poller knows, have distinct descriptors, but over an orphaned channel |
| Teardown.ClosedIsOnItsWayOut | TcpServer.cpp:110-125 | a closed connection has its close callback to come or its removal queued while the map names it and its destruction afterwards; one of these in all if and only if its end was asked for once |
| Teardown.TasksComeInOrder | TcpServer.cpp:108-125 | connectEstablished and connectDestroyed each find the connection in the state they need, on any schedule of the loops; a second connectDestroyed only removes the channel again |
| Teardown.DestructionReachesAll | TcpServer.cpp:36-48 | after the server is gone every connection is destroyed or has its connectDestroyed queued, whatever still closes |
| Teardown.GoneForGood | TcpServer.cpp:110-125 | no continuation calls a server that is gone, if and only if no close callback is about to be made, no removal waits and no connection that exists, whoever holds it, may close any more |
| Teardown.SafeToDestruct | TcpServer.cpp:36-48 | nothing calls the server after its destructor, on any continuation, if and only if before it no close callback is about to be made, no removal waits on the base loop, and whatever exists and may still close is in the map and lives on the base loop, on whose thread the destructor runs, and nothing else keeps it or it cannot close any more once connectDestroyed has run |
| Teardown.RemovalOutlivesServer | TcpServer.cpp:36-125 | the run on which a waiting removal is run on a server that is gone |
| Teardown.DownCallbackDestructs | TcpConnection.cpp:218-227 | the run on which the down callback of a closing connection destructs the server and the close callback follows |
| Teardown.KeptSendCallsServer | TcpConnection.cpp:100-134 | the run on which a queued write-complete callback keeps a connection beyond the server, and a send queued behind it fails and calls the server |
| TcpServers.TcpServer.NewConnection | TcpServer.cpp:66-109 | the new connection is new, held and named, up at once on the base loop and else connecting with just its connectEstablished queued; the server stays in order |
| TcpServers.TcpServer.RemoveConnection | TcpServer.cpp:110-115 | of a connection that has closed: the one task that keeps it on its way out is queued, it is held, and the server stays in order |
| TcpServers.TcpServer.RunHead | TcpServer.cpp:108-125 | a loop runs its next functor: it finds the connection in the state it needs, a removal leaves it unnamed but with its connectDestroyed queued, and the server stays in order |
| TcpServers.TcpServer.Destruct | TcpServer.cpp:36-48 | on the base loop's thread or on none of a loop: lets go of every connection once, in some order; each is destroyed or has its connectDestroyed queued; the server stays in order |
| Watching.CallsRight | TcpConnection.cpp:82-287 | the channel calls an event makes, applied in turn, bring the channel where the connection's own record has it |
| Watching.RunFollows | TcpServer.cpp:36-125 | on every run of server and pollers, each poller made by the calls of its connections, every poller follows the connections of its loop until a channel is orphaned, and from then on some step was refused |
| Watching.EveryLoopAgrees | EpollPoller.cpp:68-150 | every poller knows just the connections that exist on its loop, in their states, its map and the kernel agree, and no call was ever refused, if and only if no channel was orphaned |
| Watching.OrphaningIsRefused | EpollPoller.cpp:100-114 | when it is, the last hold on a connection, a batch's or a pointer, goes while its channel is still in the poller's map |
| Watching.OrphanedExactly | TcpConnection.cpp:82-266 | a channel is orphaned if and only if a send or a drain after connectDestroyed put it back |
| Watching.ServersRun | TcpServer.cpp:36-125 | the server's part of such a run is a run of the server |
| Watching.ServersHavePollers | TcpServer.cpp:36-125 | every run of the server is the server's part of such a run |
| Watching.LiveConnectionsAreWatched | TcpConnection.cpp:136-227 | as long as none is orphaned, the loop's kernel list holds an existing connection if and only if it is registered, with its interest; every live one no late shutdown reopened; pending bytes for EPOLLOUT if and only if not stranded |
| Watching.NothingElseIsWatched | EpollPoller.cpp:100-114 | as long as none is orphaned, whatever a loop's kernel list holds belongs to a connection that exists on that loop and is registered |

## Left out

- Connector and TcpClient: their retry paths remove a channel twice and pass a descriptor as a delay, so little holds of them.
- Acceptor, Socket, SocketsOps, InetAddress and Endian: wrappers over system calls, whose results are oracles here.
- Thread, EventLoopThread, EventLoopThreadPoll and CurrentThread: thread start-up and round robin; a connection's loop is a parameter of `Accept`.
- Logger, Timestamp and the messages: log calls change nothing, the malformed `snprintf` at TcpConnection.cpp:115 included; `LOG_FATAL` after a refused epoll_ctl is only counted, and proved not to happen as long as no channel is orphaned.
- Integer wrap-around of `size_t`, of the eventfd counter and of the sequence numbers.
- User callbacks as code: they are further events of a run. A message callback that replaces callbacks or the high-water mark of a live connection is left out, both are fixed from the start.
- How many references the application, callbacks, dispatches and queued write-complete and high-water functors hold: `kept` says whether there is one, a step that queues such a functor makes it so, and the last one may go at any time but while a thread is inside send() or shutdown() or a write event is due. A callback's own argument counts as one.
- A functor of a connection that is gone (`SendOutlivesConnection`): it runs on freed memory, and the model ends there.
- Where a loop's batch begins and ends, and the order of a connection's queued sends and shutdowns among each other and with its connectEstablished and connectDestroyed: sends run in their own order, any of these may come next, and a loop may drop what it has run at any time. What a poll reports comes only when the connection's loop has dropped its batch. While a connection's dispatch or close is under way its loop runs none of its sends and shutdowns, but the model does not keep the loop from its other functors.
- Stale events: an event already in the active list is not dispatched to a connection that the callback of another connection, in the same round, closed or destroyed; `StaleHangUpRepeats` shows what a hang-up would do. So `SafeToDestruct` does not speak of a destructor run by one connection's callback while another one's event is in the active list.
- Other channels on a loop (eventfd, timerfd, listening socket) beside the connections' in `Watching.dfy`.
- The growth of the poller's event array and the return of `poll` on errors (EpollPoller.cpp:26-60).
- The mutex of TimerQueue, and its destructor.
- ConnectionRuns.HalfCloseLiveness: of the intended drain only; `FinOnlyIfNeverBuffered` is what holds as written.
- TimerRuns.AlwaysArmed: the bound allows for the time between reading the clock and setting the timerfd, which the code cannot exclude.
- Ownership.RunInv: a server that is gone is modelled by its memory with an empty map, for as long as others still call it.
- TcpServers.TcpServer.Destruct: not on the thread of an io loop, where connectDestroyed could run before connectEstablished; and the thread pool it owns then quits and joins the io loops (EventLoopThread.cpp:10-19), after which a queued connectDestroyed may never run: whether a loop goes on is left open, `DestructionReachesAll` says only that it is queued.
- TcpServers.TcpServer.NewConnection: connections are values held by the server's map and are told apart by the number in their names; the callbacks it copies are not modelled.
- EventLoops.EventLoop.Loop: calls come one after the other, none in the middle of another; every finer interleaving is in the protocol of `LoopProtocol.dfy`, which the method is a run of.
- Epoll.EpollPoller.FillActiveChannels: each watched descriptor is reported at most once, which is what the kernel guarantees.
