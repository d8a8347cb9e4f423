# Verified model of a Reactor network library

This project models the stateful protocols of a C++ network library in the style of muduo and proves invariants over
every run of them. `dafny verify dfyconfig.toml` checks all of it.

Each component is one module in one file:

| file | module | source | what runs over it |
|---|---|---|---|
| `Buffer.dfy` | `Buffers` | `muduo/Buffer.h`, `muduo/Buffer.cpp` | append, readfd, prepend, retrieve in any order |
| `TcpConnection.dfy` | `TcpConnections` | `muduo/net/TcpConnection.cpp` | sends, shutdowns, writable events, closes, from the loop and from other threads |
| `AsyncLogging.dfy` | `AsyncLoggings` | `muduo/log/base/AsyncLogging.cpp` | any number of producers against the backend thread |
| `TimerQueue.dfy` | `TimerQueues` | `muduo/TimerQueue.cpp` | adds, cancels, expiries, repeats, address reuse |
| `EventLoop.dfy` | `EventLoops` | `muduo/EventLoop.cpp` | the loop thread against any number of queueing threads |
| `Poller.dfy` | `Pollers` | `muduo/Poll.cpp` | updateChannel and removeChannel over shared Channel objects |
| `TcpServer.dfy` | `TcpServers` | `muduo/net/TcpServer.cpp` | the accept loop against the I/O loops |
| `Connector.dfy` | `Connectors` | `muduo/net/Connector.cpp` | start, stop, restart, retries, channel events |
| `LogStream.dfy` | `LogStreams` | `muduo/log/base/LogStream.cpp`, `muduo/log/base/LogStream.h` | integer printing into fixed buffers |

A module has two halves. The first is a state machine on values: a record of the component's state with the histories
the properties talk about, an `Event` type, `Allowed` (what the source demands of its callers, and what program order
and the system calls permit), a `Step` function, and `Run` over a sequence of events. A failing assertion of the source
is a state of the machine (`Crashed`, `crashed`, `fault`), so that no assertion fails is a theorem and not an
assumption. The second half is a class with the source's fields, whose methods update them in place, loops included,
and are proved equal to the machine's functions through `View()`. Results of system calls are parameters.

## What the code does that its notes do not say

- A default `Buffer` sets its write index to 1024, so it starts with 1016 readable zero bytes (`muduo/Buffer.h:29-30`;
  the notes at `muduo/materials/Buffer.md:177-187` show an empty one). The first bytes a `TcpConnection` puts on the wire
  are therefore those. `TcpConnections.OnlyMessagesIffEmptyStart` says that the peer sees nothing but messages exactly
  when the buffer starts empty.
- A `shutdown` can shut the write side while a message that `send` accepted from another thread is still posted
  (`TcpConnections.ForeignShutdownDropsAMessage`). `TcpConnections.ShutdownCutsOffIffRisky` says which calls can: on a
  connection not yet closed, those made while a non-empty message is posted and either the call runs in the loop's
  thread, or writing is enabled, or a second non-empty message is posted. One posted message followed by a posted
  shutdown with writing off is safe.
- A connection shut down before any message byte was given shuts its write side with the initial zeros still queued
  (`TcpConnections.GracefulShutdown`).
- A `send` from another thread can still be posted when its connection is destroyed; if it then cannot write everything
  it enables writing on a removed channel and `updateChannel` fails its assertion
  (`TcpServers.PostedSendOutlivesConnection`). `TcpServers.RunFault` says that this is the only assertion that can fail
  and exactly when it does.
- `Connector::start` called in the loop thread before the old channel's reset has run fails `assert(!channel_)`
  (`Connectors.StartBeforeResetCollides`); `Connectors.RunFault` says exactly when.
- After an unexpected errno from `connect` the connector closes the socket and stays idle although still wanted
  (`muduo/net/Connector.cpp:68-71`, `Connectors.UnexpectedErrnoStrands`); `Connectors.KeepsTrying` says that this is
  exactly when it stops trying.
- Cancelling a timer whose add is still posted has no effect (`TimerQueues.CancelBeforeAddFires`);
  `TimerQueues.CancelledRunsNoMore` and `TimerQueues.PostedCancelIsLost` say that this is exactly when a cancel is lost.
- A functor that the loop's own thread queues before `loop()` starts is not signalled
  (`EventLoops.QueuedBeforeLoopWaits`); `EventLoops.NoLostWakeup` says that a wakeup is lost exactly when `loop()` is
  called with such functors waiting and no signal on the way.
- A log line of 4,000,000 bytes or more is dropped, and a batch of more than 25 buffers keeps its two oldest. When every
  line fits a buffer, lines are missing exactly when some batch had more than 25 buffers
  (`AsyncLoggings.LogConservation`); `AsyncLoggings.OversizedBatchLoses` is a run in which they are.
- `updateChannel` never makes an ignored slot watched again, and `removeChannel` leaves the channel's index stale.
- `kReadEvent` is the quotient `POLLIN/POLLPRI` (`muduo/Channel.cpp:17`). Event masks are abstract here;
  `TcpServers` carries a flag for whether it has a bit set and proves its results for both.
- `assertInLoopThread` only logs (`muduo/EventLoop.cpp:113-118`). The model counts a wrong thread as a failure and proves
  that none occurs.

## Assumptions

- POSIX.1-2017 (IEEE Std 1003.1), System Interfaces, `poll()`: a negative descriptor is ignored and its revents is 0;
  `write()` takes at most what it is offered; a `write` of any size to the eventfd makes it readable.
- The channels of the eventfd and of the timerfd are watched for reading, so that a readable one ends the poll. The
  quotient `kReadEvent` does not give that where it is 0.
- The clock is monotone. `new` returns an address that no live object has. A posted functor runs once, in order; this is
  itself proved in `EventLoops`.
- A check of a flag or of `state_` and the write that follows it are one atomic step.
- All callbacks of `TcpServer`, `TcpConnection` and `Connector` are set.

## Model

| member | source | states |
|---|---|---|
| Buffers.MakeSpaceFits | muduo/Buffer.h:146-157 | makeSpace always leaves room for len bytes, the reader sees the same bytes, storage grows at most to 2(readable+len)+8, and the assertion before compaction holds |
| Buffers.EnsureWritable | muduo/Buffer.h:97-102 | afterwards at least len bytes are writable, the readable bytes are unchanged and storage stays within the bound |
| Buffers.AppendRefines | muduo/Buffer.h:91-95 | append is concatenation on the readable bytes, whether it fits, compacts or grows |
| Buffers.ReadRefines | muduo/Buffer.cpp:12-30 | the two-segment read appends exactly the bytes delivered; a failed read changes nothing |
| Buffers.PrependRefines | muduo/Buffer.h:120-125 | prepend puts the bytes in front and leaves the storage size alone |
| Buffers.ApplyRefinesQueue | muduo/Buffer.h:64-125 | every operation, seen through the readable bytes, is the operation of a plain byte queue, and keeps indexes and storage bound |
| Buffers.RunRefinesQueue | muduo/Buffer.h:64-157 | over any run the readable bytes equal a plain queue under the same operations, and storage is at most max(start, 2*peak+8) |
| Buffers.NewBufferRun | muduo/Buffer.h:29-32 | a default buffer shows 1016 zero bytes first; storage over any run is at most max(1032, 2*peak+8) |
| Buffers.Buffer.constructor | muduo/Buffer.h:29-32 | the default buffer as written |
| Buffers.Buffer.Peek | muduo/Buffer.h:56-58 | reads the front of the readable bytes |
| Buffers.Buffer.ReadableBytes | muduo/Buffer.h:39-41 | the number of readable bytes |
| Buffers.Buffer.Retrieve | muduo/Buffer.h:64-67 | drops exactly the first len readable bytes |
| Buffers.Buffer.RetrieveAll | muduo/Buffer.h:74-78 | nothing readable is left and both indexes are back at 8 |
| Buffers.Buffer.RetrieveAsString | muduo/Buffer.h:81-85 | returns all readable bytes and empties the buffer |
| Buffers.Buffer.CopyDown | muduo/Buffer.h:152-152 | the overlapping copy in one array moves the old bytes, not half-overwritten ones |
| Buffers.Buffer.CopyIn | muduo/Buffer.h:93-93 | the copy from outside changes exactly that range |
| Buffers.Buffer.Resize | muduo/Buffer.h:148-148 | the old bytes are kept, with zeros behind them |
| Buffers.Buffer.MakeSpaceFor | muduo/Buffer.h:146-157 | the array, grown or compacted in place, is the one MakeSpaceFits is about |
| Buffers.Buffer.EnsureWritableBytes | muduo/Buffer.h:97-102 | room for len bytes after the call |
| Buffers.Buffer.Append | muduo/Buffer.h:91-95 | readable bytes become the old ones followed by data |
| Buffers.Buffer.Prepend | muduo/Buffer.h:120-125 | readable bytes become data followed by the old ones |
| Buffers.Buffer.Readfd | muduo/Buffer.cpp:12-30 | readable bytes become the old ones followed by those delivered; returns their number or -1 |
| TcpConnections.SendInLoopConserves | muduo/net/TcpConnection.cpp:58-86 | wire then queue is initial bytes then all messages, after any outcome of the direct write |
| TcpConnections.StepConserves | muduo/net/TcpConnection.cpp:46-180 | the same for every handler, closes and destroys included |
| TcpConnections.StreamIntegrityFrom | muduo/net/TcpConnection.cpp:58-171 | from any conserving state, over any run, bytes written then bytes queued are initial bytes then all messages given to sendInLoop, in order |
| TcpConnections.StreamIntegrity | muduo/net/TcpConnection.cpp:58-171 | the same from construction, with any bytes the buffer starts with |
| TcpConnections.OnlyMessagesIffEmptyStart | muduo/net/TcpConnection.cpp:58-86 | the wire carries nothing but messages in every run, if and only if the output buffer starts empty |
| TcpConnections.StrayByteRun | muduo/net/TcpConnection.cpp:144-171 | for any non-empty start, a run that puts a foreign byte on the wire |
| TcpConnections.StepKeepsWritingMatches | muduo/net/TcpConnection.cpp:58-180 | while live, whatever the buffer started with: writing is enabled exactly when bytes wait and a message byte has been given, and until one is given the buffer still holds what it started with |
| TcpConnections.StepKeepsGraceful | muduo/net/TcpConnection.cpp:88-102 | every in-loop step keeps the write side shut at most once with no byte after it, and, in a connection being shut down, shut exactly when no given byte waits |
| TcpConnections.GracefulShutdown | muduo/net/TcpConnection.cpp:88-171 | with in-loop calls, for every starting buffer: at most one shutdown and no byte after it; while live it has happened if and only if shutdown was called and every byte given is on the wire, and writing is enabled if and only if some given byte is not |
| TcpConnections.ShutsExactly | muduo/net/TcpConnection.cpp:88-102 | the write side is shut, behind the bytes written by then, in exactly these steps: shutdown called in the loop on a connected connection or a posted shutdown run, each with writing off, and a writable event that takes all that is queued in a connection being shut down |
| TcpConnections.ShutdownCarriedOut | muduo/net/TcpConnection.cpp:88-102 | no shutdown is lost, other threads' calls included: over every run and every starting buffer, a live connection being shut down has its call still posted, or its write side shut, or writing enabled; and once all given bytes are out and the call is not posted, it is shut |
| TcpConnections.RunKeepsTally | muduo/net/TcpConnection.cpp:46-56 | over any run from construction or later, bytes that passed the state check of send have reached sendInLoop or are still posted |
| TcpConnections.ShutLosesOnlyPosted | muduo/net/TcpConnection.cpp:88-102 | with other threads too, for every starting buffer: when the write side is shut, all that reached sendInLoop is on the wire, so what is cut off of the bytes that send accepted is exactly what is still posted |
| TcpConnections.ForeignShutdownDropsAMessage | muduo/net/TcpConnection.cpp:88-102 | for every starting buffer, that of the constructor included, a run in which send then shutdown from another thread loses the message |
| TcpConnections.RiskyCutsOff | muduo/net/TcpConnection.cpp:88-102 | after a risky call of shutdown some continuation, a full drain or a blocked send and then a drain, shuts the write side before a posted message |
| TcpConnections.SafeShutdown | muduo/net/TcpConnection.cpp:88-102 | any other call leaves nothing to cut off, or one message sure to go before the shutdown |
| TcpConnections.ShutdownCutsOffIffRisky | muduo/net/TcpConnection.cpp:88-171 | for every starting buffer and every run up to a call of shutdown on a connected connection: some continuation shuts the live write side with an accepted byte still posted if and only if the connection is not closed, a non-empty message is posted, and the call is in the loop, or writing is enabled, or a second non-empty message is posted |
| TcpConnections.WriteCompleteExactly | muduo/net/TcpConnection.cpp:64-70 | in a live connection after any run, a step queues one write-complete callback if and only if it empties the queue or writes a whole message at once, an empty one when write returns 0 |
| TcpConnections.MessagesDelivered | muduo/net/TcpConnection.cpp:46-56 | over any run messages reach sendInLoop whole: those that send accepts in the loop's thread at once, those of other threads in the order accepted and once each, the rest still posted |
| TcpConnections.RunKeepsReading | muduo/net/TcpConnection.cpp:109-127 | over any run, reading is enabled exactly from connectEstablished to handleClose or connectDestroyed |
| TcpConnections.TcpConnection.constructor | muduo/net/TcpConnection.cpp:14-38 | the output buffer is a default Buffer, so 1016 zero bytes are queued from the start |
| TcpConnections.Socket.Write | muduo/net/TcpConnection.cpp:63-63 | the wire gains exactly the bytes the kernel took |
| TcpConnections.Socket.ShutdownWrite | muduo/net/TcpConnection.cpp:100-100 | the shutdown is recorded behind the bytes written so far |
| TcpConnections.TcpConnection.TryWrite | muduo/net/TcpConnection.cpp:61-77 | the direct write is tried only with nothing queued and writing disabled |
| TcpConnections.TcpConnection.QueueRest | muduo/net/TcpConnection.cpp:79-85 | the rest goes behind the queue and writing is enabled |
| TcpConnections.TcpConnection.Drain | muduo/net/TcpConnection.cpp:148-152 | the whole queue is offered and what the socket took is dropped |
| TcpConnections.TcpConnection.DoSend | muduo/net/TcpConnection.cpp:46-56 | direct, posted or ignored, by thread and state |
| TcpConnections.TcpConnection.DoSendInLoop | muduo/net/TcpConnection.cpp:58-86 | what is not taken by the direct write is queued through the real Buffer, and writing enabled |
| TcpConnections.TcpConnection.DoHandleWrite | muduo/net/TcpConnection.cpp:144-171 | the queue loses exactly what the socket took; when it empties, writing is disabled and a due shutdown is done |
| TcpConnections.TcpConnection.DoShutdown | muduo/net/TcpConnection.cpp:88-94 | only a connected connection starts to shut down, at once or through its loop |
| TcpConnections.TcpConnection.DoShutdownInLoop | muduo/net/TcpConnection.cpp:96-102 | the write side is shut only while writing is disabled |
| TcpConnections.TcpConnection.RunPosted | muduo/EventLoop.cpp:162-164 | the oldest posted functor is taken out and carried out: a posted message goes through sendInLoop, a posted shutdown through shutdownInLoop; ShutsExactly and MessagesDelivered say what that does |
| TcpConnections.TcpConnection.ConnectEstablished | muduo/net/TcpConnection.cpp:109-116 | connecting becomes connected |
| TcpConnections.TcpConnection.DoHandleClose | muduo/net/TcpConnection.cpp:173-180 | all events off, state kept, queue kept |
| TcpConnections.TcpConnection.ConnectDestroyed | muduo/net/TcpConnection.cpp:118-127 | disconnected, all events off |
| LogStreams.DecimalRoundTrip | muduo/log/base/LogStream.cpp:9-33 | for every integer, parsing the printed text gives the value back, and the text is canonical |
| LogStreams.CanonicalUnique | muduo/log/base/LogStream.cpp:9-33 | every canonical text is what printing its value gives, so there is no second spelling |
| LogStreams.DecimalLength | muduo/log/base/LogStream.h:104-104 | any 64-bit value, signed or not, takes at most 20 characters |
| LogStreams.LastDigit | muduo/log/base/LogStream.cpp:9-23 | the symmetric digit table, indexed by a truncated remainder of either sign, gives the last digit of the magnitude |
| LogStreams.TakeDigit | muduo/log/base/LogStream.cpp:20-24 | one turn of the loop moves the last digit to the end of the text written backwards |
| LogStreams.ReverseRange | muduo/log/base/LogStream.cpp:30-30 | reverses the range in place and touches nothing else |
| LogStreams.PutDigits | muduo/log/base/LogStream.cpp:17-24 | the do-while loop leaves the digits of the magnitude, last first, also for the most negative value |
| LogStreams.PutText | muduo/log/base/LogStream.cpp:16-28 | digits and sign stand in the buffer backwards, and nothing else is touched |
| LogStreams.Convert | muduo/log/base/LogStream.cpp:15-33 | the buffer holds the decimal text and a NUL behind it, nothing else is touched, and the length is returned |
| LogStreams.FixedBuffer.Append | muduo/log/base/LogStream.h:19-24 | all of the text or none of it, and one byte always stays unused |
| LogStreams.FixedBuffer.Avail | muduo/log/base/LogStream.h:30-30 | the room left |
| LogStreams.FixedBuffer.Add | muduo/log/base/LogStream.h:31-31 | advances the end of the text |
| LogStreams.FixedBuffer.Reset | muduo/log/base/LogStream.h:33-33 | empties the text |
| LogStreams.FixedBuffer.constructor | muduo/log/base/LogStream.h:15-15 | an empty buffer of its size |
| LogStreams.LogStream.FormatInteger | muduo/log/base/LogStream.cpp:38-45 | the whole decimal text is appended, or nothing when fewer than 32 bytes are left; convert never overruns |
| AsyncLoggings.StepHolds | muduo/log/base/AsyncLogging.cpp:27-113 | a step of either thread moves, frees or freshly allocates a buffer, never duplicates it |
| AsyncLoggings.StepKeepsBackend | muduo/log/base/AsyncLogging.cpp:27-113 | no step fails an assertion, and a null nextBuffer_ always means a non-empty buffers_ |
| AsyncLoggings.StepKeepsPool | muduo/log/base/AsyncLogging.cpp:27-113 | both pool invariants together are inductive over both threads |
| AsyncLoggings.PoolSafety | muduo/log/base/AsyncLogging.cpp:54-111 | in every interleaving no assertion fails, both spares exist and are empty at each loop head, and no buffer is held twice |
| AsyncLoggings.AppendAccounted | muduo/log/base/AsyncLogging.cpp:27-41 | append adds a short line behind all others, rotating or not, and drops a line that fits no buffer |
| AsyncLoggings.SwapAccounted | muduo/log/base/AsyncLogging.cpp:58-72 | the exchange moves lines from the shared buffers to the batch and loses none |
| AsyncLoggings.FreshCopy | muduo/log/base/AsyncLogging.cpp:38-38 | a line enters an empty buffer exactly when it is shorter than the buffer |
| AsyncLoggings.DroppedExactly | muduo/log/base/AsyncLogging.cpp:76-85 | lines taken are lines written plus lines cut from batches of more than 25 |
| AsyncLoggings.LogConservation | muduo/log/base/AsyncLogging.cpp:27-113 | in every interleaving: short lines given are lines taken, then buffers_, then currentBuffer_, in order; the file and the batch are the lines taken with each batch over 25 cut to its two oldest; the number missing is the number cut; if every line fits a buffer, none is missing if and only if no batch had more than 25 buffers; and the lines given are those of the append calls |
| AsyncLoggings.StepFullBuffers | muduo/log/base/AsyncLogging.cpp:27-72 | if every line fits a buffer, producers queue no empty buffer and only the last of a batch can be empty |
| AsyncLoggings.DroppedIffCut | muduo/log/base/AsyncLogging.cpp:76-85 | then a cut always loses a line |
| AsyncLoggings.OversizedBatchLoses | muduo/log/base/AsyncLogging.cpp:27-85 | a run of lines that each fit a buffer in which lines go missing |
| AsyncLoggings.AllocatesOnlyWithoutSpare | muduo/log/base/AsyncLogging.cpp:27-41 | append allocates a buffer if and only if the line does not fit the current one and there is no spare; with a spare the spare becomes current; either way the full buffer goes behind buffers_ |
| AsyncLoggings.StopStops | muduo/log/base/AsyncLogging.cpp:53-113 | after stop() the backend begins no further turn in any run, and may leave as soon as it is at the loop head |
| AsyncLoggings.WriteUpToStep | muduo/log/base/AsyncLogging.cpp:87-90 | each turn of the write loop is one step of the machine |
| AsyncLoggings.IterationIsRun | muduo/log/base/AsyncLogging.cpp:53-113 | that turn is a run of the machine, so every result about runs speaks of it |
| AsyncLoggings.AsyncLogging.DoAppend | muduo/log/base/AsyncLogging.cpp:27-41 | the producer's critical section, through shared buffer pointers |
| AsyncLoggings.AsyncLogging.constructor | muduo/log/base/AsyncLogging.cpp:10-25 | four empty buffers, each held once |
| AsyncLoggings.AsyncLogging.AppendToCurrent | muduo/log/base/AsyncLogging.cpp:30-30 | only the current buffer's contents change |
| AsyncLoggings.AsyncLogging.QueueCurrent | muduo/log/base/AsyncLogging.cpp:32-32 | the current buffer is pushed behind the others |
| AsyncLoggings.AsyncLogging.DoRotate | muduo/log/base/AsyncLogging.cpp:32-37 | the full buffer is queued and replaced by the spare or a new one |
| AsyncLoggings.AsyncLogging.DoEnter | muduo/log/base/AsyncLogging.cpp:53-63 | the loop head, whose assertions hold, up to the wait |
| AsyncLoggings.AsyncLogging.DoSwap | muduo/log/base/AsyncLogging.cpp:64-72 | the critical section after the wait |
| AsyncLoggings.AsyncLogging.DoExchange | muduo/log/base/AsyncLogging.cpp:64-68 | the current buffer joins the batch, the batch takes all of buffers_, and the first spare becomes current |
| AsyncLoggings.AsyncLogging.DoTrim | muduo/log/base/AsyncLogging.cpp:74-85 | a batch of more than 25 keeps its two oldest buffers |
| AsyncLoggings.AsyncLogging.WriteBuffers | muduo/log/base/AsyncLogging.cpp:87-90 | the write loop adds the text of every buffer of the batch to the file, in order |
| AsyncLoggings.AsyncLogging.PopReset | muduo/log/base/AsyncLogging.cpp:99-101 | the last buffer of the batch is taken out and emptied, no other buffer changes |
| AsyncLoggings.AsyncLogging.FillFirst | muduo/log/base/AsyncLogging.cpp:97-102 | the first spare is refilled from the batch and no buffer is held twice |
| AsyncLoggings.AsyncLogging.FillSecond | muduo/log/base/AsyncLogging.cpp:104-109 | the second spare is refilled from the batch |
| AsyncLoggings.AsyncLogging.DoFillSpares | muduo/log/base/AsyncLogging.cpp:97-109 | each missing spare is refilled, in that order |
| AsyncLoggings.AsyncLogging.DoRecycle | muduo/log/base/AsyncLogging.cpp:92-111 | both refills find a buffer, and the rest of the batch is let go |
| AsyncLoggings.AsyncLogging.AppendAll | muduo/log/base/AsyncLogging.cpp:27-41 | any number of lines appended by other threads keeps the pool invariant |
| AsyncLoggings.AsyncLogging.LoopOnce | muduo/log/base/AsyncLogging.cpp:53-113 | one turn of the loop, with producers appending at the wait and while it works unlocked, keeps the pool invariant and returns to the loop head |
| TimerQueues.InsertionSorts | muduo/TimerQueue.cpp:224-227 | insertion keeps the set sorted, adds exactly one element, and it comes first exactly when it is least |
| TimerQueues.RemovalSorts | muduo/TimerQueue.cpp:138-139 | erase removes exactly one element and keeps the order |
| TimerQueues.LowerBoundSplits | muduo/TimerQueue.cpp:170-172 | lower_bound separates the smaller from the rest |
| TimerQueues.HowMuchTimeFromNow | muduo/TimerQueue.cpp:32-46 | the timespec is normalised and is the time to go, but never under 100 microseconds |
| TimerQueues.InsertIndexed | muduo/TimerQueue.cpp:214-233 | insert keeps the two indexes in agreement and no assertion of it fails |
| TimerQueues.CancelIndexed | muduo/TimerQueue.cpp:130-147 | cancelInLoop keeps the two indexes in agreement and no assertion of it fails |
| TimerQueues.GetExpiredCuts | muduo/TimerQueue.cpp:166-183 | no assertion of getExpired fails and it cuts both indexes at the clock |
| TimerQueues.ResetAllSound | muduo/TimerQueue.cpp:186-202 | the loop of reset gives every timer of the batch an owner or deletes it once |
| TimerQueues.TimerOwnership | muduo/TimerQueue.cpp:107-233 | over any run no assertion fails and no deleted timer is touched, both indexes list the same timers under their current expirations, and each timer in memory is in exactly one of posted, queued, current batch |
| TimerQueues.AlarmNeverLate | muduo/TimerQueue.cpp:122-213 | over any run with a clock after the epoch, while timers are queued outside a batch the alarm is pending and due by max(earliest expiration, 100 microseconds after it was set) |
| TimerQueues.ReadClearsDueAlarm | muduo/TimerQueue.cpp:149-154 | handling an expiry leaves a due alarm idle, and an alarm that is not due alone |
| TimerQueues.AddMovesAlarm | muduo/TimerQueue.cpp:122-128 | an added timer moves the alarm, to its own expiration but at least 100 microseconds away, if and only if it expires strictly before every queued timer |
| TimerQueues.DeadNeverRuns | muduo/TimerQueue.cpp:107-213 | a deleted timer stays deleted and its callback never runs again, in any run |
| TimerQueues.CancelledNeverRuns | muduo/TimerQueue.cpp:130-141 | a queued timer that is cancelled never runs afterwards, in any run |
| TimerQueues.CancelDoomsUnlessPosted | muduo/TimerQueue.cpp:130-147 | cancelling a living timer leaves it gone, or marked in its batch, if and only if its add has already run in the loop |
| TimerQueues.ResetAllKillsCondemned | muduo/TimerQueue.cpp:186-202 | a timer of the batch found in cancelingTimers_ is deleted, not restarted |
| TimerQueues.DoomedDiesWithBatch | muduo/TimerQueue.cpp:149-202 | a timer cancelled during its batch is gone when the batch ends, whatever else happens |
| TimerQueues.CancelledRunsNoMore | muduo/TimerQueue.cpp:130-202 | from any run: a living timer cancelled after its add has run, queued or in the current batch, never runs again once that batch is over |
| TimerQueues.PostedCancelIsLost | muduo/TimerQueue.cpp:107-147 | from any run: a living timer cancelled while its add is posted can still run in a later batch, so the cancel is lost exactly while the add is posted |
| TimerQueues.CancelBeforeAddFires | muduo/TimerQueue.cpp:107-147 | the shortest run in which a cancelled timer fires |
| TimerQueues.StaleCancelHarmless | muduo/TimerQueue.cpp:130-147 | cancelling an id whose timer is gone changes nothing for the rest of any run, even when the address was reused |
| TimerQueues.ExpireTakesExactlyDue | muduo/TimerQueue.cpp:166-183 | the batch is exactly the queued timers due at the clock, and the rest stays queued |
| TimerQueues.NeverEarly | muduo/TimerQueue.cpp:149-183 | in any run, every callback that ran was due |
| TimerQueues.BatchRunsInOrder | muduo/TimerQueue.cpp:158-161 | whatever its callbacks add and cancel, a batch runs each of its timers once, in order, and can end exactly when all have run |
| TimerQueues.BatchSettles | muduo/TimerQueue.cpp:186-213 | over any run, when a batch ends each of its timers that repeats and was not cancelled is queued again one interval after the batch's time, every other one is deleted, and no other timer changes; TimerRepeatsAsAskedFor ties both to the addTimer call |
| TimerQueues.TimerAsAskedFor | muduo/TimerQueue.cpp:107-113 | over any run before and after addTimer: as long as its timer lives it has the repeat flag, interval and sequence number it was made with, and until its first batch ends the expiration asked for |
| TimerQueues.TimerRepeatsAsAskedFor | muduo/TimerQueue.cpp:186-213 | composed over the whole run from addTimer to the end of a batch the timer is in: not cancelled since that batch began, a timer added with repeat is queued again at the batch's time plus the interval asked for, and one added without is gone |
| TimerQueues.TimerQueue.DoInsert | muduo/TimerQueue.cpp:214-233 | both indexes gain the timer and the result says whether it is now the earliest |
| TimerQueues.TimerQueue.DoAddTimerInLoop | muduo/TimerQueue.cpp:122-128 | the alarm is moved only when the earliest timer changed |
| TimerQueues.TimerQueue.DoCancelInLoop | muduo/TimerQueue.cpp:130-147 | a queued timer leaves both indexes and memory; during a batch any other id is noted |
| TimerQueues.TimerQueue.EraseExpired | muduo/TimerQueue.cpp:175-180 | the loop takes exactly the ids of the batch out of the second index |
| TimerQueues.TimerQueue.DoGetExpired | muduo/TimerQueue.cpp:166-183 | the entries due go to the batch |
| TimerQueues.TimerQueue.ResetTimerfdTo | muduo/TimerQueue.cpp:58-76 | the alarm is due at the expiration, but not within 100 microseconds |
| TimerQueues.TimerQueue.DoBeginRead | muduo/TimerQueue.cpp:149-156 | handleRead up to its callbacks |
| TimerQueues.TimerQueue.constructor | muduo/TimerQueue.cpp:85-94 | empty, with the alarm idle |
| TimerQueues.TimerQueue.ReadAlarm | muduo/TimerQueue.cpp:49-56 | reading the timerfd makes a due alarm idle |
| TimerQueues.TimerQueue.ResetFirst | muduo/TimerQueue.cpp:191-201 | one timer of the batch is restarted and inserted, or deleted |
| TimerQueues.TimerQueue.ResetBatch | muduo/TimerQueue.cpp:186-202 | the loop of reset over the batch, with restarts and deletions in place |
| TimerQueues.TimerQueue.DoEndRead | muduo/TimerQueue.cpp:162-213 | handleRead after its callbacks: the batch is settled and the alarm set for the first timer left |
| EventLoops.RunWoken | muduo/EventLoop.cpp:69-104 | in every state of every run, unsignalled work outside the handling phase was queued outside loop() |
| EventLoops.FallsAsleepWhen | muduo/EventLoop.cpp:88-104 | a step puts the loop to sleep on waiting functors if and only if it is a loop() called with unsignalled functors |
| EventLoops.AsleepOnlyFromStart | muduo/EventLoop.cpp:88-104 | the same over any run from any awake state |
| EventLoops.NoLostWakeup | muduo/EventLoop.cpp:69-104 | with any number of threads: the loop at some moment sits in poll with functors waiting and no signal on the way if and only if some loop() is called in that state; all of those functors were queued by the loop's own thread outside loop() |
| EventLoops.QueuedBeforeLoopWaits | muduo/EventLoop.cpp:69-77 | the exception is real: a run in which such a functor waits in poll |
| EventLoops.StepInOrder | muduo/EventLoop.cpp:69-166 | functors run, then the rest of the batch, then the queue equal what was queued, after every step |
| EventLoops.TaskOrder | muduo/EventLoop.cpp:69-166 | over any run functors run once each, in the order in which callers gave them to queueInLoop; those not yet run are the rest of the batch and the queue; those run at once are the runInLoop calls of the loop's own thread |
| EventLoops.RunHandsOver | muduo/EventLoop.cpp:61-77 | over any run, from any state: the functors run at once are exactly those given to runInLoop on the loop's own thread, and those queued exactly those given to queueInLoop by any thread, in order |
| EventLoops.QuitLeaves | muduo/EventLoop.cpp:88-125 | after quit by any thread, until loop() is called again, the loop never sits in poll without a signal and its next drain is its last |
| EventLoops.DrainRunsSnapshot | muduo/EventLoop.cpp:154-166 | whatever is queued meanwhile, one drain calls exactly the functors of its snapshot, in order, and can end exactly when all were called |
| EventLoops.DrainEventsDrain | muduo/EventLoop.cpp:154-166 | a drain whose functors queue more leaves exactly those queued, and signalled |
| EventLoops.WholeDrain | muduo/EventLoop.cpp:154-166 | a whole dePendingFunctors is a run of the machine that runs the snapshot and leaves what was queued |
| EventLoops.EventLoop.QueueInLoop | muduo/EventLoop.cpp:69-77 | pushes the functor and signals when called from another thread or from a functor |
| EventLoops.EventLoop.RunInLoop | muduo/EventLoop.cpp:61-67 | in the loop's thread the functor runs at once and the queue is untouched; from any other it is queued and signalled; RunHandsOver says what the two steps hand over |
| EventLoops.EventLoop.DoQuit | muduo/EventLoop.cpp:120-125 | the loop is told to quit, and woken when another thread calls |
| EventLoops.EventLoop.HandleRead | muduo/EventLoop.cpp:168-176 | empties the wakeup fd |
| EventLoops.EventLoop.constructor | muduo/EventLoop.cpp:36-53 | outside loop(), with nothing queued |
| EventLoops.EventLoop.DoWakeup | muduo/EventLoop.cpp:79-85 | the wakeup fd is readable |
| EventLoops.EventLoop.DePendingFunctors | muduo/EventLoop.cpp:154-166 | runs exactly the swapped-out snapshot; what it queues is left for the next drain |
| EventLoops.EventLoop.CallFunctors | muduo/EventLoop.cpp:162-164 | the loop runs the functors in order |
| EventLoops.EventLoop.CallFunctor | muduo/EventLoop.cpp:163-163 | what one functor queues is appended and signalled |
| Pollers.IgnoredExactly | muduo/Poll.cpp:59-73 | while it stays registered, a descriptor is ignored if and only if it was, or some update enabled none of its events |
| Pollers.IgnoredSinceAdded | muduo/Poll.cpp:44-74 | in any run, a registered descriptor is ignored if and only if some update since it was last added enabled none of its events |
| Pollers.DisabledThenRemoved | muduo/Poll.cpp:76-116 | disabling all events of a registered channel is all that the assertions of removeChannel ask |
| Pollers.FirstActiveCuts | muduo/Poll.cpp:28-41 | the scan finds the first numEvents of all active slots, in array order |
| Pollers.AllActiveAt | muduo/Poll.cpp:28-41 | a slot is found, behind the active ones before it, if its revents are positive, and there are exactly as many found as such slots |
| Pollers.EarlyStopLosesNothing | muduo/Poll.cpp:28-41 | stopping after numEvents slots finds all active slots if and only if there are no more than numEvents |
| Pollers.AppendSlot | muduo/Poll.cpp:48-58 | a new slot keeps slots and indexes in bijection |
| Pollers.RewriteSlot | muduo/Poll.cpp:59-73 | rewriting a slot keeps the bijection; no events means ignored, and ignored is kept |
| Pollers.RemoveKeepsSlots | muduo/Poll.cpp:98-115 | after swap-with-last every other descriptor still finds its own slot |
| Pollers.RemoveSlot | muduo/Poll.cpp:76-116 | swap-with-last keeps the bijection, with the moved channel ignored or not, and removes exactly one descriptor |
| Pollers.PolledSlots | muduo/Poll.cpp:14-15 | poll(2) changes neither |
| Pollers.AddedOk | muduo/Poll.cpp:48-58 | a new channel keeps the whole table right: indexes in bijection with slots, and every slot holding its channel's events |
| Pollers.RewrittenOk | muduo/Poll.cpp:59-73 | so does a channel whose mask changed, once its slot is rewritten |
| Pollers.RemovedOk | muduo/Poll.cpp:98-115 | so does swap-with-last removal, which takes out exactly one descriptor |
| Pollers.RemovableSlot | muduo/Poll.cpp:82-93 | for an ignored channel without events the right slot is found, holding -fd-1 and the channel's events |
| Pollers.ScanTells | muduo/Poll.cpp:28-41 | the scan tells each channel it finds its own slot's revents and no other channel anything |
| Pollers.Poller.UpdateChannel | muduo/Poll.cpp:44-74 | over shared Channel objects: a new channel is registered at the end or a slot rewritten, after which every slot holds its channel's events, whatever mask the channel had taken since the last update |
| Pollers.Poller.SetEvents | muduo/Channel.h:38-40 | a new mask followed by update(): every slot holds its channel's events again |
| Pollers.Poller.DisableAll | muduo/Channel.h:41-41 | a registered channel is then ignored without events, as removeChannel wants it |
| Pollers.Poller.DisableAndRemove | muduo/net/Connector.cpp:99-101 | disableAll then removeChannel unregisters exactly the channel |
| Pollers.Poller.StoreEvents | muduo/Channel.h:38-41 | only this channel's mask changes |
| Pollers.Poller.Register | muduo/Poll.cpp:54-57 | only this channel is added, under its descriptor and with its index |
| Pollers.Channel.constructor | muduo/Channel.cpp:20-23 | no events and no index |
| Pollers.Poller.AddSlotFor | muduo/Poll.cpp:48-58 | a new channel gets the last slot and its index |
| Pollers.Poller.RewriteSlotOf | muduo/Poll.cpp:59-73 | the slot takes the channel's events and no revents, and is ignored when there are no events |
| Pollers.Poller.Poll | muduo/Poll.cpp:14-15 | only the revents change |
| Pollers.Poller.DropSlot | muduo/Poll.cpp:101-115 | swaps, pops and repairs the index stored in the channel that moved |
| Pollers.Poller.MoveTo | muduo/Poll.cpp:112-112 | only the moved channel's index changes |
| Pollers.Poller.RemoveChannel | muduo/Poll.cpp:76-116 | after DisableAll its assertions hold; exactly this descriptor is unregistered, every slot still holds its channel's events, and the removed channel keeps its stale index |
| Pollers.Poller.FillActiveChannels | muduo/Poll.cpp:28-41 | returns the channels of the first numEvents active slots in array order; what the channels hold changes only by each of these being told its slot's revents; every lookup succeeds |
| Pollers.Poller.TellChannel | muduo/Poll.cpp:33-38 | the channel under the slot's descriptor is found and only its revents change |
| TcpServers.NamesDiffer | muduo/net/TcpServer.cpp:57-62 | two connections of a server never share a name |
| TcpServers.TakeJob | muduo/net/TcpServer.cpp:90-103 | running a connection's lifecycle functor leaves none posted for it in any loop |
| TcpServers.GiveJob | muduo/net/TcpServer.cpp:90-103 | posting the functor of the next stage makes it the only one posted |
| TcpServers.EstablishSound | muduo/net/TcpConnection.cpp:109-116 | connectEstablished finds the connection connecting, in its own loop |
| TcpServers.CloseSound | muduo/net/TcpConnection.cpp:173-180 | handleClose finds its state and leaves one removal under way, done at once when the loop is the accept loop |
| TcpServers.EraseSound | muduo/net/TcpServer.cpp:97-104 | removeConnectionInLoop erases exactly one name and leaves one destruction under way |
| TcpServers.DestroySound | muduo/net/TcpConnection.cpp:118-127 | connectDestroyed finds its state, and removeChannel an ignored slot without events |
| TcpServers.AcceptSound | muduo/net/TcpServer.cpp:54-91 | newConnection adds a fresh name and one establishment |
| TcpServers.ClosedStops | muduo/Channel.cpp:34-56 | a pass whose peer is gone is exactly one handleClose: after the close the rest of the pass changes nothing, so it is not closed twice |
| TcpServers.PassClosesExactly | muduo/net/TcpConnection.cpp:129-142 | a handleEvent pass takes a connection past its opening if and only if it reports a hang-up without input, or input that is end of file; so an ordinary message closes nothing |
| TcpServers.OtherPassKeeps | muduo/Channel.cpp:34-56 | any other pass changes no connection, name or posted functor, except that it clears writing, and its poller slot with it, if and only if writing was set, there is no input, and the write callback found its buffer emptied |
| TcpServers.ClosedExactlyWhenGone | muduo/net/TcpConnection.cpp:129-142 | over all interleavings, a connection has been closed if and only if some pass over it found its peer gone |
| TcpServers.StepSound | muduo/net/TcpServer.cpp:54-104 | every step of every loop keeps the invariant, and fails an assertion exactly when a posted send is left unfinished on a destroyed connection |
| TcpServers.RunFault | muduo/Poll.cpp:59-63 | over whole runs: updateChannel fails if and only if such a send occurs, and nothing else ever fails |
| TcpServers.Lifecycle | muduo/net/TcpServer.cpp:54-104 | over all interleavings each connection is established, closed, erased and destroyed in that order, each at most once; erase finds its name, and the state and thread checks hold |
| TcpServers.RunGrows | muduo/net/TcpServer.cpp:54-104 | what has happened to a connection is never undone |
| TcpServers.NothingLeftBehind | muduo/net/TcpServer.cpp:93-104 | when all queues are empty, a connection is open and in the map, or has been through its whole life and is out of it |
| TcpServers.OwnSendsNeverFail | muduo/net/TcpConnection.cpp:46-86 | if no other thread calls send, no assertion ever fails |
| TcpServers.UpdateCalls | muduo/Poll.cpp:44-74 | the slot tag of a connection changes as the poller model says updateChannel does, and no other loop's poller changes |
| TcpServers.DestroyCalls | muduo/net/TcpConnection.cpp:118-127 | connectDestroyed is disableAll then removeChannel on its own loop's poller, both meeting their assertions |
| TcpServers.StepCalls | muduo/net/TcpServer.cpp:54-104 | every step acts on every loop's poller through calls that meet the assertions of updateChannel and removeChannel |
| TcpServers.PollersUsedRightly | muduo/net/TcpServer.cpp:54-104 | over any run, each loop's poller is the result of such calls from empty on |
| TcpServers.EstablishShows | muduo/net/TcpConnection.cpp:109-116 | connectEstablished here and in the connection model agree on state and events |
| TcpServers.SendShows | muduo/net/TcpConnection.cpp:58-86 | sendInLoop agrees with the connection model when unfinished means a direct write short of the message, so the stale update is exactly such a write on a removed channel |
| TcpServers.OwnSendShows | muduo/net/TcpConnection.cpp:46-56 | so does send in the loop's thread |
| TcpServers.WriteShows | muduo/net/TcpConnection.cpp:144-171 | handleWrite agrees when emptied means that the output buffer is empty afterwards |
| TcpServers.CloseShows | muduo/net/TcpConnection.cpp:173-180 | handleClose agrees |
| TcpServers.DestroyShows | muduo/net/TcpConnection.cpp:118-127 | connectDestroyed agrees |
| TcpServers.ShutdownShows | muduo/net/TcpConnection.cpp:88-94 | shutdown agrees |
| TcpServers.PostedSendShows | muduo/net/TcpConnection.cpp:46-86 | the functor that a send from another thread posted agrees with the connection model when it runs, and fails exactly when it enables writing on a removed channel |
| TcpServers.PostedSendOutlivesConnection | muduo/net/TcpConnection.cpp:58-86 | whatever kReadEvent is, a run on one loop in which a posted send hits the removed channel |
| TcpServers.TcpServer.NewConnection | muduo/net/TcpServer.cpp:54-91 | a fresh id and name in the map, the connection established at once or by its loop |
| TcpServers.TcpServer.constructor | muduo/net/TcpServer.cpp:15-27 | ids start at 1, no connections |
| TcpServers.TcpServer.UpdateChannel | muduo/Poll.cpp:44-74 | a registered slot follows the channel's events by the rule of the poller model, which UpdateCalls proves; a removed channel fails the assertion |
| TcpServers.TcpServer.QueueInLoop | muduo/EventLoop.cpp:69-77 | the functor goes behind those already posted to that loop |
| TcpServers.TcpServer.RemoveConnection | muduo/net/TcpServer.cpp:93-95 | removed at once in the accept loop, posted to it from any other |
| TcpServers.TcpServer.RemoveConnectionInLoop | muduo/net/TcpServer.cpp:97-104 | the name is erased and the destruction handed to the connection's loop |
| TcpServers.TcpServer.ConnectEstablished | muduo/net/TcpConnection.cpp:109-116 | connected and watched, under the source's checks |
| TcpServers.TcpServer.HandleClose | muduo/net/TcpConnection.cpp:173-180 | the slot is ignored and the removal begins |
| TcpServers.TcpServer.ConnectDestroyed | muduo/net/TcpConnection.cpp:118-127 | disconnected and out of the poller, under the source's checks |
| Connectors.StartSound | muduo/net/Connector.cpp:35-97 | startInLoop fails exactly when the old channel is still there and connect() goes as far as connecting() |
| Connectors.HandleSound | muduo/net/Connector.cpp:111-141 | an error and a writable event in one pass find the states their assertions ask for |
| Connectors.FunctorSound | muduo/net/Connector.cpp:30-43 | a posted start never collides, as it runs behind the reset |
| Connectors.StepSound | muduo/net/Connector.cpp:30-158 | every step keeps the invariant, and fails exactly on an in-loop start before the reset |
| Connectors.RunFault | muduo/net/Connector.cpp:88-90 | over whole runs: assert(!channel_) fails if and only if such a start occurs, and no other assertion ever fails |
| Connectors.ClearNeverCollides | muduo/net/Connector.cpp:30-97 | starting only while channel_ is null is enough |
| Connectors.StartBeforeResetCollides | muduo/net/Connector.cpp:30-109 | a run that fails: stop while connecting, a failed connection, start again in the same iteration |
| Connectors.StepFates | muduo/net/Connector.cpp:45-158 | a step gives each old socket the same number of fates as before, and a new one exactly one |
| Connectors.SocketConservation | muduo/net/Connector.cpp:35-158 | over any run without such a start, each opened socket is held by the current channel, or was closed once, or was handed over once, exactly one of the three |
| Connectors.StepCalls | muduo/net/Connector.cpp:88-105 | every step uses the poller only through calls that meet the assertions of updateChannel and removeChannel |
| Connectors.RunCalls | muduo/net/Connector.cpp:88-105 | so does every run without a collision |
| Connectors.RetryDelays | muduo/net/Connector.cpp:143-158 | over any run, the k-th retry since the last restart waits min(500*2^k, 30000) ms |
| Connectors.StoppedStaysQuiet | muduo/net/Connector.cpp:83-86 | after stop and until the next start, in any run no socket is opened or handed over and no retry is set |
| Connectors.KeepsTrying | muduo/net/Connector.cpp:30-158 | in every run, a wanted connector is at every moment connected, connecting, or has its next attempt posted or timed, if and only if no connect() that it makes fails with an errno outside the nine that the switch names |
| Connectors.StepTrying | muduo/net/Connector.cpp:30-158 | a step strands a wanted connector if and only if it makes an attempt that fails with an errno outside the nine that the switch names |
| Connectors.AttemptsExactly | muduo/net/Connector.cpp:45-73 | a step calls connect() exactly when a retry timer, a posted start, start in the loop or restart finds the connector wanted; the attempt opens one socket, which, when no old channel is left, becomes the channel's for success, EINPROGRESS, EINTR and EISCONN and is closed for every other errno; and exactly for EAGAIN, EADDRINUSE, EADDRNOTAVAIL, ECONNREFUSED and ENETUNREACH one timer is set, in this iteration and for the current delay, which doubles up to 30 s |
| Connectors.ChannelExactly | muduo/net/Connector.cpp:111-158 | an error event, or a writable event with a pending error, closes the socket and, while wanted, sets one timer for the current delay; a writable event without one hands the socket over, or closes it when not wanted; in both cases the channel leaves the poller and its reset is queued |
| Connectors.StopStops | muduo/net/Connector.cpp:83-86 | after stop and until the next start nothing is opened, handed over or set, in any run; called before the retry timer expires, it takes the timer out, so that none fires |
| Connectors.UnexpectedErrnoStrands | muduo/net/Connector.cpp:68-71 | one such attempt leaves a wanted connector idle, with no assertion failing |
| Connectors.IdleStays | muduo/net/Connector.cpp:30-43 | an idle connector opens no socket until start or restart is called |
| Connectors.HandsOverExactly | muduo/net/Connector.cpp:111-130 | a step hands over a socket if and only if a wanted connector's channel is writable with no error in the same pass |
| Connectors.Connector.DoConnect | muduo/net/Connector.cpp:45-73 | a new socket goes to a channel, to a retry or is closed, by errno; AttemptsExactly says which errno does which |
| Connectors.Connector.DoDispatch | muduo/net/Connector.cpp:51-72 | by outcome the socket gets a channel, a retry or a close |
| Connectors.Connector.DoConnecting | muduo/net/Connector.cpp:88-97 | the channel is made unless one is still there |
| Connectors.Connector.DoStart | muduo/net/Connector.cpp:30-33 | at once in the loop thread, posted from any other |
| Connectors.Connector.DoStartInLoop | muduo/net/Connector.cpp:35-43 | connects if disconnected and still wanted |
| Connectors.Connector.DoRestart | muduo/net/Connector.cpp:75-81 | the delay is back at 500 ms and a new attempt starts |
| Connectors.Connector.DoStop | muduo/net/Connector.cpp:83-86 | not wanted any more; the retry timer goes unless it has already expired |
| Connectors.Connector.RemoveAndResetChannel | muduo/net/Connector.cpp:99-105 | the channel leaves the poller, its reset is queued, its socket returned |
| Connectors.Connector.DoResetChannel | muduo/net/Connector.cpp:107-109 | the channel is gone |
| Connectors.Connector.constructor | muduo/net/Connector.cpp:13-22 | disconnected, not wanted, delay 500 ms |
| Connectors.Connector.DoHandleWrite | muduo/net/Connector.cpp:111-130 | the socket is handed over, closed or retried |
| Connectors.Connector.DoHandleError | muduo/net/Connector.cpp:133-141 | the socket is closed and a retry due |
| Connectors.Connector.DoRetry | muduo/net/Connector.cpp:143-158 | the socket is closed, and while wanted a timer set and the delay doubled up to the cap |

## Left out

- System calls: `poll`, `readv`, `write`, `eventfd`, `timerfd`, `connect` and `shutdown` are nondeterministic results.
- `Buffer::shrink` and `swap_demo`: they do not keep storage and indexes together.
- `EPoller`: the event loop does not use it.
- `EventLoopThreadPool`: the loop of a new connection is any loop; TcpServer never assigns its pool.
- Object lifetimes under `shared_ptr` and `unique_ptr`, the `eventHandling_` flag, destructors, and `~Connector`'s assertion.
- 32-bit overflow of the timer sequence, of `nextConnId_` and of `int` lengths other than FixedBuffer's.
- Timer intervals are integer microseconds, and `repeat_` (`interval > 0.0`) is a parameter of its own, as a positive interval can be under a microsecond; floating point, wall-clock jumps and `Timestamp` formatting are not modelled.
- Data races on plain bools and on `state_`, and memory ordering.
- The receiving side of `TcpConnection` (`inputBuffer_`, message callbacks) beyond end of file.
- The narrowing of event masks to `short`, and the values of the masks.
- `LogFile`, `AppendFile`, `Logger`, thread and mutex wrappers, address helpers: the log file is an append-only sequence of lines.
- `LogStream` operators other than the integer ones.
- AsyncLoggings.AsyncLogging.DoAppend: buffer objects are contents in a store reached by number, so pointer aliasing is modelled but not the bytes inside each buffer; those are LogStreams.FixedBuffer.
- TimerQueues.TimerQueue.DoCancelInLoop: Timer objects live in an explicit memory map by address, so reuse of an address is modelled, and calls from inside callbacks are steps between DoBeginRead and DoEndRead.
- TcpServers.TcpServer.NewConnection: connections are entries of a table by id; their output buffers are in TcpConnections, to which TcpServers.SendShows and its neighbours tie each handler; a joint run of both machines is not stated.
- TcpServers.Lifecycle: a loop may start a new poll before its queue is empty at any point between two functors, which allows more interleavings than one snapshot per iteration.
- Connectors.Connector.DoHandleWrite: the new-connection callback is taken as set, although its setter has an empty body.
- Pollers.Poller.UpdateChannel: the assertions of the source are preconditions; TcpServers.StepCalls and Connectors.StepCalls prove that every call those components make meets them, but for the stale update that TcpServers.RunFault is about.
