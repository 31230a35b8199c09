# MOBAN in Dafny

A verified model of the parts of MOBAN whose correctness depends on whole runs: the reactor (`plugins/Muduo`),
the FTP server built on it (`example/miniftpd`), and the queues, pools, text, configuration and file helpers
of `deps/common`. Everything the system asks of its surroundings (socket and file calls, the clock, the
allocator, thread scheduling, the peer) is a parameter of an action or of a method, so a statement about all
runs is a statement about all answers. Atomics are sequentially consistent. Nothing here was executed.

`dafny verify dfyconfig.toml` checks the project.

## How it is built

Code that one thread updates in place is a class whose methods are proved against a specification: `Buffers`,
`Tcp`, `ControlLine`, `TimerQueue`, `Poller`, `LoopPool`, the ring in `BoundedQueue`, `Config` in `ConfigTree`,
and the loops of `Text`. Code that several threads interleave is a state machine: a `State`, a list of actions
as labels, a total `Step` (an action that is not enabled changes nothing) and `Run` over any sequence of
actions. Invariants are proved step by step and stated at the end of each module as facts about `Run`.

- `Bytes`, `Sequences`, `Wrappers`: signed big-endian integers, concatenation, `Option`.
- `Buffers`, `Tcp`, `DoubleShut`: the byte buffer, the connection built on it, and when its write side can be shut
  twice.
- `ControlLine`: framing of the FTP control connection and the login sequence (sections 4.1.1, 5.3 and 5.4 of RFC 959).
- `Transfer`: the data transfer as a state machine (session callbacks, the loop's functor queue, the disk pool,
  data connections, descriptors). `StaleResults`, `Retrieve`, `FullReads` and `Descriptors` prove what no run
  can do wrong, `Replies` what each step of any run answers, `Delivery` that the pump gets every transfer to its end,
  `Survival` and `Crashes` when a run can end in a call through a null pointer.
- `Timers`, `Rounds`, `TimerQueue`, `LostCancels`: the timer protocol, what a round leaves behind, the object that
  implements both, and what cancellations miss.
- `Loop`, `LoopPool`, `Poller`: wakeups, round robin, agreement with the kernel's interest list.
- `DrainPool`, `BoundedQueue`, `DiskPool`: the two thread pools and the two blocking queues. `PoolProgress` and
  `DiskProgress` prove that the pools get their work done.
- `Text`, `ConfigTree`, `ConfigPaths`, `ConfigLookup`: split, join, replace; the configuration tree, its dotted paths
  and what a lookup finds.
- `AtomicReplace`: replacing a file through a temporary one.

## What turned out not to hold

The code is modelled as it is; these are theorems about it, with the exact condition where there is one.

- `queueInLoop` by the loop's own thread outside `loop()` sends no wakeup. `Loop.QueuedOutsideWaits`: the functor
  can be left waiting in `poll` without a wakeup, that is until some other event or the 10-second poll timeout,
  exactly when the eventfd was idle at the call, whatever other threads do. `Loop.NoLostWakeupAtAll`: without such
  calls nothing pending is left without a wakeup.
- `shutdown` can shut the write side twice. `DoubleShut.ForeignShutdownTwice`: from another thread, exactly when output
  is buffered or a non-empty send of another thread is still deferred; `DoubleShut.LoopShutdownTwice`: from the
  loop's own thread, exactly when such a send is deferred; `DoubleShut.TwiceShut` has the shortest runs. With all
  sends and shutdowns on the loop thread it happens once (`Tcp.HalfClose`).
- A cancellation that overtakes the insertion of its timer is lost. `LostCancels.CancelBeforeInsertionIsLost`: a live
  timer's cancellation reaches it exactly unless the insertion is still to come, and then some continuation fires it.
  One that reaches its timer lets it fire once more exactly when the timer is in the round being run and its turn is
  still to come (`LostCancels.CancelledFiresAgain`; `LostCancels.CancelledInItsRound` is such a run), and in no
  later round (`Timers.CancelledStaysSilent`).
- RETR advances by whole chunks whatever a read returned. `Retrieve.RetrieveStream`: the connection carries what its
  reads deliver, in order and without repeat; without a gap exactly when no read that returned bytes follows one that
  was cut short (`Retrieve.GaplessExactly`); and a 226 stands for the whole file exactly when no read was cut short
  (`Delivery.CutShort` is a run that announces one byte of two). `FullReads.WholeFiles`: reads that may return the
  chunk they ask for, which is what regular files give, deliver whole files.
- A client that does not overlap transfers can still make the server call through a null pointer or fail an assertion.
  `Crashes.PasvFailsExactly`: a PASV can lead to that exactly when the data connection is up at the time.
  `Crashes.ConnectFailsExactly`: a connection can exactly when it comes through a listener the session has released and
  not yet deleted, and is risky: it is refused, or the transfer waiting for it cannot start, or no transfer is waiting
  and one can still be asked for. Nothing else does (`Survival.NeverFails`).
- A pool of the base library started with no workers loses what it accepts (`DrainPool.NoWorkersNoDrain`,
  `DrainPool.StopWithoutWorkers`); with one or more it loses nothing (`DrainPool.StopDrains`).
- A delimiter longer than one character may not survive a join (`Text.LongDelimiterMerges`); `Text.SplitOfJoin`
  says exactly which lists do.
- A key that is empty or has a dot hides its node (`ConfigPaths.EmptyKeyHides`); `ConfigPaths.PathRoundTrip` says
  exactly which nodes their recorded path leads back to.
- The disk pool's bound of 256 is soft: with n submitters the count stays within 256 + n - 1 and can reach it
  (`DiskPool.Admission`, `DiskPool.AdmissionIsTight`).
- A channel can be in the kernel's list with an empty mask. `Poller.IdleAddedExactly`: exactly when an odd number of
  updates in a row asked for nothing since it was new or removed, or an even number, at least two, since it last
  wanted something (`Poller.IdleChannelAdded` has two such inputs).
- LIST does not forget an end reached before it. `Replies.AnsweredExactly`: a data connection that goes down is answered
  with the 226 of the transfer's own kind exactly when an end was reached since the last RETR and since a transfer was
  last over, and with 426 otherwise; so a LIST sent over a transfer past its end is announced as complete
  (`Replies.ListInheritsEnd`).
- Once every worker of the disk pool has left, a task that was put late stays where it is.
  `DiskProgress.EverythingRunsExactly`: everything put can still be executed exactly while a worker is left or
  nothing is queued.
- After QUIT the control connection is half-closed: commands that still arrive are carried out, and no reply is heard
  (`ControlLine.HeardUntilQuit`).

## Model

| member | source | states |
|---|---|---|
| `Bytes.UnsignedRoundTrip` | plugins/Muduo/muduo/net/buffer.cpp:114-174 | reading big-endian bytes gives back every unsigned value written, at any width |
| `Bytes.SignedRoundTrip` | plugins/Muduo/muduo/net/buffer.cpp:114-174 | two's-complement values and byte strings of a width are in bijection: write then read, read then write |
| `Bytes.LeadingInteger` | plugins/Muduo/muduo/net/buffer.cpp:126-162 | whatever the bytes are, the first ones encode exactly one value, the one read |
| `Buffers.Buffer.Swap` | plugins/Muduo/muduo/net/buffer.cpp:24-28 | the two contents change places, also when a buffer is swapped with itself |
| `Buffers.Buffer.FindCrlf` | plugins/Muduo/muduo/net/buffer.cpp:38-42 | the first CR LF of the unread bytes, or none exists |
| `Buffers.Buffer.Retrieve` | plugins/Muduo/muduo/net/buffer.cpp:52-76 | drops exactly the first len bytes; an emptied buffer has its indexes reset |
| `Buffers.Buffer.RetrieveAsString` | plugins/Muduo/muduo/net/buffer.cpp:82-87 | returns the first len bytes and leaves the rest |
| `Buffers.Buffer.MakeSpace` | plugins/Muduo/muduo/net/buffer.cpp:221-234 | room is made, unread bytes kept, storage at most max(old, readable + 2 len + 7), no growth when sliding is enough |
| `Buffers.Buffer.SlideDown` | plugins/Muduo/muduo/net/buffer.cpp:226-232 | the overlapping forward copy keeps every unread byte |
| `Buffers.Buffer.Append` | plugins/Muduo/muduo/net/buffer.cpp:91-106 | contents grow by exactly the bytes given, within the same storage bound |
| `Buffers.Buffer.Prepend` | plugins/Muduo/muduo/net/buffer.cpp:176-181 | contents are preceded by exactly the bytes given, storage unchanged |
| `Buffers.Buffer.Shrink` | plugins/Muduo/muduo/net/buffer.cpp:183-188 | contents survive, the requested reserve is writeable |
| `Buffers.Buffer.ReadFd` | plugins/Muduo/muduo/net/buffer.cpp:197-219 | whatever readv returned, split over the buffer and the stack block, is appended in order; an error changes nothing |
| `Buffers.Buffer.AppendInt` | plugins/Muduo/muduo/net/buffer.cpp:114-124 | appends the encoding of the value |
| `Buffers.Buffer.PrependInt` | plugins/Muduo/muduo/net/buffer.cpp:164-174 | prepends the encoding of the value |
| `Buffers.Buffer.ReadInt` | plugins/Muduo/muduo/net/buffer.cpp:126-142 | returns the only value whose encoding leads the contents, and drops it |
| `Buffers.Execute` | plugins/Muduo/muduo/net/buffer.cpp:52-234 | any sequence of append, prepend, retrieve, readFd, shrink and swap gives what it gives on a plain byte sequence; no internal assertion fails |
| `Tcp.SendKeepsStream` | plugins/Muduo/muduo/net/TcpConnection.cpp:202-248 | kernel bytes + output buffer = accepted messages, for any partial or failed write; a message refused by a broken peer is dropped whole |
| `Tcp.WriteKeepsStream` | plugins/Muduo/muduo/net/TcpConnection.cpp:96-126 | the same over a POLLOUT, and what has been accepted does not change |
| `Tcp.WriteMoves` | plugins/Muduo/muduo/net/TcpConnection.cpp:96-126 | exactly the bytes the socket took move from the front of the output buffer to the kernel, while the connection is writing; otherwise none do |
| `Tcp.SocketAccount` | plugins/Muduo/muduo/net/TcpConnection.cpp:96-280 | in every run the messages accepted are those sent while the connection was connected, but for a send that found the peer gone, and the kernel holds as many of their bytes as the socket said it took, the oldest first |
| `Tcp.SendStream` | plugins/Muduo/muduo/net/TcpConnection.cpp:96-280 | in every run of any threads the stream is the accepted messages in order, and write interest is on exactly while something is buffered |
| `Tcp.HalfClose` | plugins/Muduo/muduo/net/TcpConnection.cpp:96-126 | for calls on the loop thread the write side is shut at most once, only with every accepted byte in the kernel, and as soon as that is so |
| `Tcp.NothingAfterHalfClose` | plugins/Muduo/muduo/net/TcpConnection.cpp:174-262 | after the half-close nothing more is accepted or sent |
| `DoubleShut.ForeignShutdownTwice` | plugins/Muduo/muduo/net/TcpConnection.cpp:250-262 | from every reachable connected state, a shutdown from another thread has a continuation that shuts twice exactly when output is buffered or a non-empty send is deferred |
| `DoubleShut.LoopShutdownTwice` | plugins/Muduo/muduo/net/TcpConnection.cpp:96-126 | one from the loop's thread exactly when a non-empty send is deferred |
| `DoubleShut.TwiceShut` | plugins/Muduo/muduo/net/TcpConnection.cpp:250-262 | the shortest runs that lead to two shuts, one of each kind |
| `Tcp.TcpConnection.SendNow` | plugins/Muduo/muduo/net/TcpConnection.cpp:202-248 | the object does what the connection model says, and queues the write-complete callback exactly when all went out at once |
| `Tcp.TcpConnection.OnWritable` | plugins/Muduo/muduo/net/TcpConnection.cpp:96-126 | the object does the same for POLLOUT, byte for byte, with the deferred half-close |
| `Tcp.TcpConnection.ShutdownHere` | plugins/Muduo/muduo/net/TcpConnection.cpp:250-262 | the same for shutdown on the loop thread |
| `Tcp.TcpConnection.OnClose` | plugins/Muduo/muduo/net/TcpConnection.cpp:144-154 | the same for the close of the peer |
| `Tcp.TcpConnection.ForceCloseHere` | plugins/Muduo/muduo/net/TcpConnection.cpp:267-273 | the same for forceClose; says whether the close was queued |
| `ControlLine.LinesOfConcat` | example/miniftpd/src/ftp_session.cpp:88-107 | lines of two pieces are the lines of the first, then those of its remainder with the second |
| `ControlLine.FramingSound` | example/miniftpd/src/ftp_session.cpp:88-107 | lines with their terminators and the remainder give the stream back; none of them contains CR LF |
| `ControlLine.FramingUnique` | example/miniftpd/src/ftp_session.cpp:88-107 | no other cut of the stream has that property |
| `ControlLine.FeedIsFraming` | example/miniftpd/src/ftp_session.cpp:88-107 | reads in any pieces dispatch the lines of the whole stream, up to the first tail of more than 4096 bytes |
| `ControlLine.CuttingIrrelevant` | example/miniftpd/src/ftp_session.cpp:88-107 | two ways of cutting the same stream, neither with an overlong tail, dispatch the same lines and leave the same remainder |
| `ControlLine.LoginByHistory` | example/miniftpd/src/ftp_session.cpp:149-163 | the login state is a fact about the history: logged in exactly if a PASS came after the last USER |
| `ControlLine.ServedOnlyAfterLogin` | example/miniftpd/src/ftp_session.cpp:109-178 | a guarded command is served exactly when the commands before it authenticate; 530, 257 and 200 are answered exactly as login and verb say, and only before a QUIT |
| `ControlLine.UnguardedCodes` | example/miniftpd/src/ftp_session.cpp:123-167 | before a QUIT the other commands get 331, 215, 221 and 502, and PASS gets 230 exactly when a USER came and no PASS since the last one, else 503 |
| `ControlLine.ParseExactly` | example/miniftpd/src/ftp_session.cpp:109-134 | a word means a command exactly when it spells one of its names, each letter in either case; the argument is what follows the first space, as it is |
| `ControlLine.LineSplits` | example/miniftpd/src/ftp_session.cpp:113-120 | every line is a word without a space, alone or followed by a space and the argument |
| `ControlLine.HeardUntilQuit` | example/miniftpd/src/ftp_session.cpp:540-543 | a command is answered, or its service heard, exactly when no QUIT came before it |
| `ControlLine.ControlSession.OnMessage` | example/miniftpd/src/ftp_session.cpp:88-107 | the loop over the buffer dispatches every complete line and keeps the remainder, or closes |
| `ControlLine.ControlSession.OnReadable` | example/miniftpd/src/ftp_session.cpp:88-107 | one read, as one step of the framing model |
| `ControlLine.ServeControl` | example/miniftpd/src/ftp_session.cpp:88-178 | any pieces: the answers, silent after a QUIT, are those to the commands of the framed stream |
| `StaleResults.StaleNeverSent` | example/miniftpd/src/ftp_session.cpp:405-472 | in every run, with any commands, nothing read through a descriptor closed by an abort is ever sent, whatever bytes such a read returns |
| `StaleResults.EveryCloseMovesOn` | example/miniftpd/src/ftp_session.cpp:452-472 | generations never go back, and every step that closes a descriptor moves to the next one |
| `Replies.AnsweredExactly` | example/miniftpd/src/ftp_session.cpp:239-536 | in every run, with any commands, each step adds exactly the replies that the commands, the environment's answers and the history call for; when a connection goes down a transfer in progress is over and gets one reply, the 226 of its own kind, with the file last asked for, exactly when its end was reached, and 426 otherwise |
| `Replies.RunRecorded` | example/miniftpd/src/ftp_session.cpp:405-482 | in every run the session's record of kind, file and end agrees with what the commands and results so far say |
| `Replies.OverExactly` | example/miniftpd/src/ftp_session.cpp:258-482 | a transfer in progress is over exactly when a connection goes down, a read fails or the disk pool refuses |
| `Replies.DownExactly` | example/miniftpd/src/ftp_session.cpp:239-271 | an open data connection goes down exactly when its peer closes it, its queued close runs or its server is deleted |
| `Replies.ListInheritsEnd` | example/miniftpd/src/ftp_session.cpp:494-506 | a LIST taken over a transfer past its end is answered 150 and then announced as complete |
| `Retrieve.RetrieveStream` | example/miniftpd/src/ftp_session.cpp:239-443 | for any disk timing, short reads and partial writes, accepted bytes are what the connection's reads deliver, in order and without repeat, without gap exactly when no read that returned bytes follows a short one; one read at most is under way; 226 comes only when all delivered was written and a read found no more, with the whole file exactly when none was cut short |
| `Retrieve.GaplessExactly` | example/miniftpd/src/ftp_session.cpp:300-332 | the positions of the file that reads at whole-chunk offsets deliver are 0, 1, 2, ... exactly when no read that returned bytes follows one that was cut short |
| `Retrieve.PositionsPick` | example/miniftpd/src/ftp_session.cpp:300-332 | what is delivered are the bytes at those positions, which only grow |
| `FullReads.WholeFiles` | example/miniftpd/src/ftp_session.cpp:300-332 | with reads allowed a whole chunk, accepted bytes are a prefix of the file and a RETR is answered 226 only after the whole file was written |
| `Descriptors.NothingLeaks` | example/miniftpd/src/ftp_session.cpp:273-298 | without overlaps at most one descriptor is open, it is the running RETR's, and none is left between transfers |
| `Delivery.EveryFileArrives` | example/miniftpd/src/ftp_session.cpp:239-482 | for every file, and whatever the first write of each chunk is answered, each in its own way, short of a broken connection, some run without overlaps delivers it whole and announces it |
| `Delivery.EveryTransferEnds` | example/miniftpd/src/ftp_session.cpp:239-482 | for every file and any limits of its reads, some run without overlaps delivers exactly what those reads find and announces it; whole exactly when none is cut short |
| `Delivery.CutShort` | example/miniftpd/src/ftp_session.cpp:310-332 | a run that announces a file of two bytes of which one was sent |
| `Survival.NeverFails` | example/miniftpd/src/ftp_session.cpp:239-492 | without a PASV while the data connection is up and without a risky connection through a released listener, and with a channel's read handled before its write, no run calls through a null pointer or an empty callback or fails an assertion |
| `Survival.StepSteady` | example/miniftpd/src/ftp_session.cpp:239-492 | every step keeps: one open connection, which is the data server's, or leaves before its server is deleted, or goes down with a released listener before anything happens on it; no completion without its callback; the running transfer's single token |
| `Crashes.PasvFailsExactly` | example/miniftpd/src/ftp_session.cpp:195-199 | in every such run, a PASV between transfers has a continuation that fails exactly when the data connection is up |
| `Crashes.ConnectFailsExactly` | example/miniftpd/src/ftp_session.cpp:239-257 | in every such run, a first connection to a listener has a continuation that fails exactly when the listener was released and the connection is risky |
| `Crashes.PoliteRunFails` | example/miniftpd/src/ftp_session.cpp:427-433 | there is such a PASV: a run without overlaps half-closes a null data connection |
| `Crashes.ReleasedListenerFails` | plugins/Muduo/muduo/net/TcpServer.cpp:31-40 | there is such a connection: a released server is deleted with its connection half closed |
| `Retrieve.StepInv` | example/miniftpd/src/ftp_session.cpp:239-492 | every session, loop, disk and peer step keeps the pump's single token, the queue, connection and descriptor invariants |
| `Retrieve.ShortReadsLoseBytes` | example/miniftpd/src/ftp_session.cpp:310-332 | what reads at whole-chunk offsets deliver is the file exactly when they reach its end and none was cut short before it |
| `Timers.DelayMeans` | plugins/Muduo/muduo/net/TimerQueue.cpp:28-41 | the timespec is proper, never zero, and means the wait clamped to 100 microseconds |
| `Timers.RunInv` | plugins/Muduo/muduo/net/TimerQueue.cpp:82-225 | every step of every run keeps ownership, the two indexes, the batch, the history of firings and the alarm |
| `Timers.Ownership` | plugins/Muduo/muduo/net/TimerQueue.cpp:105-225 | each live timer is in exactly one place, the indexes have one size, freed timers are never reachable, although addresses are reused |
| `Timers.StaleIdHarmless` | plugins/Muduo/muduo/net/TimerQueue.cpp:105-122 | a stale id removes and frees no timer but its own |
| `Timers.CancelledStaysSilent` | plugins/Muduo/muduo/net/TimerQueue.cpp:124-198 | a timer reached by a cancellation fires in no later round; firings are due and in deadline order |
| `Timers.UnreachedChangesNothing` | plugins/Muduo/muduo/net/TimerQueue.cpp:105-122 | a cancellation that reaches no timer changes neither timers nor indexes |
| `LostCancels.CancelBeforeInsertionIsLost` | plugins/Muduo/muduo/net/TimerQueue.cpp:82-122 | in every run, a live timer's cancellation reaches it exactly unless its insertion is still to come, and then some continuation fires it after all |
| `LostCancels.CancelledFiresAgain` | plugins/Muduo/muduo/net/TimerQueue.cpp:105-147 | in every run, a timer reached by a cancellation fires again in some continuation exactly when it is in the round being run and its turn is still to come |
| `LostCancels.CancelledInItsRound` | plugins/Muduo/muduo/net/TimerQueue.cpp:124-147 | a run in which a callback's cancellation of the next timer of its round does not stop that one |
| `LostCancels.JustAllocated` | plugins/Muduo/muduo/net/TimerQueue.cpp:82-93 | every newly allocated timer is one whose insertion is still to come |
| `Timers.RoundTakesTheDue` | plugins/Muduo/muduo/net/TimerQueue.cpp:149-173 | a round takes exactly the timers due, in deadline order, and leaves the others |
| `Timers.RoundPutsBack` | plugins/Muduo/muduo/net/TimerQueue.cpp:175-198 | after a round each timer that repeats and was not cancelled is back in both indexes one interval on, every other one is freed |
| `Timers.AlwaysArmed` | plugins/Muduo/muduo/net/TimerQueue.cpp:95-103 | whenever the loop waits with timers pending the timerfd is set no later than the earliest deadline, clamped |
| `Timers.AlarmExactly` | plugins/Muduo/muduo/net/TimerQueue.cpp:95-198 | a step that changes the timerfd sets it for the earliest deadline then in the queue, clamped, or is the round for which it went off |
| `TimerQueue.CopyDue` | plugins/Muduo/muduo/net/TimerQueue.cpp:153-162 | walking the index up to now lists exactly the due entries in order |
| `TimerQueue.TimerQueue.Allocate` | plugins/Muduo/muduo/net/Timer.cpp:8-14 | a new timer gets the next sequence number |
| `TimerQueue.TimerQueue.Insert` | plugins/Muduo/muduo/net/TimerQueue.cpp:200-225 | both indexes gain the timer; says whether it is the new earliest |
| `TimerQueue.TimerQueue.AddTimerInLoop` | plugins/Muduo/muduo/net/TimerQueue.cpp:95-103 | the object takes the step of the timer protocol |
| `TimerQueue.TimerQueue.Cancel` | plugins/Muduo/muduo/net/TimerQueue.cpp:105-122 | removes and frees, or remembers the id while callbacks run, or does nothing |
| `TimerQueue.TimerQueue.GetExpired` | plugins/Muduo/muduo/net/TimerQueue.cpp:149-173 | exactly the due entries leave both indexes |
| `TimerQueue.TimerQueue.Callback` | plugins/Muduo/muduo/net/TimerQueue.cpp:82-122 | the timers in the queue are the old ones with the callback's additions and cancellations carried out in order, additions numbered on; of the round's timers exactly the cancelled ones are marked |
| `TimerQueue.TimerQueue.Reset` | plugins/Muduo/muduo/net/TimerQueue.cpp:175-198 | both indexes and the heap are the old ones with each timer of the batch that repeats and is not marked for removal back at now + interval, and every other one of the batch gone; the timerfd is set again |
| `TimerQueue.TimerQueue.HandleRead` | plugins/Muduo/muduo/net/TimerQueue.cpp:124-147 | each timer that was due, by its sequence number, fires once, in deadline order, and nothing else does; then the queue holds exactly the timers not due, with what the callbacks added and cancelled in order, and those due that repeat and that no callback cancelled, at now + interval; the indexes agree and what left them is freed |
| `Loop.NoLostWakeup` | plugins/Muduo/muduo/net/EventLoop.cpp:81-106 | blocked in poll with a functor from another thread, a functor or a handler pending, or a quit requested: the eventfd is readable or about to be |
| `Loop.NoLostWakeupAtAll` | plugins/Muduo/muduo/net/EventLoop.cpp:214-226 | without calls outside loop() by its own thread, whatever is pending wakes the loop |
| `Loop.QueuedOutsideWaits` | plugins/Muduo/muduo/net/EventLoop.cpp:214-226 | for every run and whatever other threads do next, a functor so queued can be left in poll without a wakeup exactly if the eventfd was idle |
| `Loop.EarlyQuitKept` | plugins/Muduo/muduo/net/EventLoop.cpp:81-92 | a quit before the first loop() makes that call return without polling |
| `Loop.EntryPolls` | plugins/Muduo/muduo/net/EventLoop.cpp:81-92 | loop() gets to polling exactly unless it is the first call and a quit came before it; later calls forget old quits |
| `Loop.QuitEndsLoop` | plugins/Muduo/muduo/net/EventLoop.cpp:81-106 | after a quit from any thread, unless loop() is entered anew, whatever the threads do in between, the next check of the flag leaves loop() |
| `Loop.QuitLeavesPoll` | plugins/Muduo/muduo/net/EventLoop.cpp:147-152 | blocked in poll after a quit, the eventfd is readable or a write to it is due, and the round that then runs leaves loop() |
| `Loop.ExactlyOnceInOrder` | plugins/Muduo/muduo/net/EventLoop.cpp:193-226 | executed, current batch and pending make up everything queued, in order |
| `Loop.WokenRunsEverything` | plugins/Muduo/muduo/net/EventLoop.cpp:92-103 | once the eventfd is readable one round of the loop runs all that was pending |
| `LoopPool.FairShare` | plugins/Muduo/muduo/net/EventLoopThreadPool.cpp:38-52 | in n turns each of k gets the floor or the ceiling of n / k |
| `LoopPool.EventLoopThreadPool.Start` | plugins/Muduo/muduo/net/EventLoopThreadPool.cpp:24-36 | one loop per thread, in order |
| `LoopPool.EventLoopThreadPool.GetNextLoop` | plugins/Muduo/muduo/net/EventLoopThreadPool.cpp:38-52 | the choice is the next of the rotation, or the base loop without threads |
| `LoopPool.EventLoopThreadPool.Balanced` | plugins/Muduo/muduo/net/EventLoopThreadPool.cpp:38-52 | after any calls every loop was chosen floor or ceiling of calls / loops times |
| `Poller.EPollPoller.Ctl` | plugins/Muduo/muduo/net/EpollPoller.cpp:90-103 | callable only where epoll_ctl cannot fail for presence or absence; all callers meet that |
| `Poller.EPollPoller.UpdateChannel` | plugins/Muduo/muduo/net/EpollPoller.cpp:64-88 | restores agreement of map, kernel and index after a mask change, other descriptors untouched |
| `Poller.EPollPoller.RemoveChannel` | plugins/Muduo/muduo/net/EpollPoller.cpp:105-115 | the channel is gone from map and kernel, the others untouched |
| `Poller.EPollPoller.EnableReading` | plugins/Muduo/muduo/net/Channel.cpp:63-66 | the kernel watches the channel for reading |
| `Poller.EPollPoller.EnableWriting` | plugins/Muduo/muduo/net/Channel.cpp:68-71 | the kernel watches the channel for writing |
| `Poller.EPollPoller.DisableWriting` | plugins/Muduo/muduo/net/Channel.cpp:73-76 | it no longer does |
| `Poller.EPollPoller.DisableAll` | plugins/Muduo/muduo/net/Channel.cpp:78-81 | no events wanted; out of the kernel if it was in |
| `Poller.EPollPoller.Poll` | plugins/Muduo/muduo/net/EpollPoller.cpp:34-62 | every channel handed out is alive, added and in the map, and holds what the kernel reported for it, the others what they held; a filled list doubles |
| `Poller.Serve` | plugins/Muduo/muduo/net/EpollPoller.cpp:64-115 | after any requests each channel is as its own requests make it, and the kernel holds exactly the added ones with those masks |
| `Poller.AddedOrIdle` | plugins/Muduo/muduo/net/Channel.cpp:63-99 | a channel that wants any event is in the kernel's list |
| `Poller.IdleChannelAdded` | plugins/Muduo/muduo/net/EpollPoller.cpp:68-79 | two such inputs: asking for nothing at once, and twice after wanting something |
| `Poller.IdleAddedExactly` | plugins/Muduo/muduo/net/EpollPoller.cpp:64-88 | for every request list, exactly when a channel ends in the kernel's list with an empty mask |
| `Poller.WishDecides` | plugins/Muduo/muduo/net/EpollPoller.cpp:64-88 | index and mask of a channel are decided by what it last wanted and by how many updates since then asked for nothing |
| `DrainPool.FirstInFirstOut` | deps/common/base/thread_pool.h:22-32 | tasks leave in the order accepted, none executed more often than accepted, no pop from an empty queue |
| `DrainPool.StopDrains` | deps/common/base/thread_pool.cpp:31-65 | with a worker or more, when the winning stop returns every accepted task has been executed exactly once |
| `DrainPool.StopWithoutWorkers` | deps/common/base/thread_pool.cpp:17-29 | with none, exactly if nothing was accepted |
| `DrainPool.NoWorkersNoDrain` | deps/common/base/thread_pool.cpp:17-65 | a run in which a pool without workers loses a task |
| `DrainPool.NobodySleepsAfterStop` | deps/common/base/thread_pool.cpp:51-60 | after notify_all no worker sleeps or is about to, although the flag flips outside the mutex |
| `DrainPool.StopNeverStuck` | deps/common/base/thread_pool.cpp:51-65 | until stop returns some thread inside the pool can move |
| `DrainPool.NoLostNotification` | deps/common/base/thread_pool.cpp:31-49 | a worker sleeps only while tasks queued are no more than workers up and not executing and notifications to come; with none of either the queue is empty |
| `DrainPool.RefusedOnlyAfterStop` | deps/common/base/thread_pool.h:25-28 | tasks are refused only once stop was called; once a worker has left, the queue is empty and no submitter is past the check |
| `PoolProgress.TakesOldest` | deps/common/base/thread_pool.cpp:31-49 | in every run, a ready worker that finds the mutex free and a task queued dequeues the oldest and executes it by its own steps |
| `PoolProgress.EverythingRuns` | deps/common/base/thread_pool.cpp:31-49 | with a worker or more, every run can go on to where everything accepted is executed, without a stop, a new submission or a spurious wakeup |
| `PoolProgress.StopReturns` | deps/common/base/thread_pool.cpp:51-65 | once stop was called, every run can go on likewise to where it returns |
| `PoolProgress.EveryTaskAnswered` | deps/common/base/thread_pool.h:22-32 | the tasks whose submitters got the mutex are those accepted, those refused and the one being submitted |
| `BoundedQueue.Ring.EmplaceInternal` | deps/common/base/bounded_blocking_queue.h:74-80 | the item becomes the last; back stays front + size around the ring |
| `BoundedQueue.Ring.PopInternal` | deps/common/base/bounded_blocking_queue.h:82-88 | the first item leaves |
| `BoundedQueue.Ring.TryPush` | deps/common/base/bounded_blocking_queue.h:37-42 | refuses exactly when full or stopped |
| `BoundedQueue.Ring.PopAfterWait` | deps/common/base/bounded_blocking_queue.h:44-61 | nothing exactly when empty or stopped, else the oldest item |
| `BoundedQueue.Execute` | deps/common/base/bounded_blocking_queue.h:23-88 | any calls in any order: the ring is a bounded first-in-first-out queue and hands out what that hands out |
| `BoundedQueue.FirstInFirstOut` | deps/common/base/bounded_blocking_queue.h:30-61 | over every interleaving values leave in the order they came, each once, never more than the capacity inside |
| `BoundedQueue.ThreadsUseAFifo` | deps/common/base/bounded_blocking_queue.h:30-61 | over every interleaving the queue holds, took in and handed out what a plain bounded queue asked the same would have |
| `BoundedQueue.WaitsExactly` | deps/common/base/bounded_blocking_queue.h:30-61 | a consumer waits exactly when it finds the queue empty and not stopped and is patient, a producer exactly when it finds it full and not stopped |
| `BoundedQueue.NoLostNotification` | deps/common/base/bounded_blocking_queue.h:30-61 | a consumer sleeps only while items are no more than consumers notified, a producer only while free slots are no more than producers notified |
| `BoundedQueue.NoStandoff` | deps/common/base/bounded_blocking_queue.h:30-61 | with any room, both sides never sleep with nobody on the way |
| `BoundedQueue.StopWakesAll` | deps/common/base/bounded_blocking_queue.h:23-28 | after stop nobody is asleep, whatever happens next |
| `DiskPool.Admission` | example/miniftpd/src/thread_pool.h:55-77 | the count is the tasks being put, queued and running, and at most 256 + n - 1 with n submitters |
| `DiskPool.AdmissionIsTight` | example/miniftpd/src/thread_pool.h:55-65 | a run reaches that bound |
| `DiskPool.FirstInFirstOut` | deps/common/base/blocking_queue.h:23-51 | tasks start in the order put; executed, running and queued make up what was put |
| `DiskPool.NoLostNotification` | deps/common/base/blocking_queue.h:23-51 | a worker sleeps only while tasks are no more than workers notified and notifications to come |
| `DiskPool.ShutdownDrains` | deps/common/base/blocking_queue.h:64-70 | after the shutdown nobody sleeps; when all have left and nothing came late, everything put was executed |
| `DiskProgress.EverythingRunsExactly` | example/miniftpd/src/thread_pool.h:54-77 | every run can go on, without new submissions or spurious wakeups, to where everything put is executed, exactly while a worker is left or nothing is queued |
| `DiskProgress.ShutdownCompletes` | example/miniftpd/src/thread_pool.h:45-52 | once the shutdown has begun, every run can go on likewise to where every worker has left |
| `Text.Find` | deps/common/utilities/string_utils.cpp:218-218 | the first occurrence at or after a position |
| `Text.FirstIsFirst` | deps/common/utilities/string_utils.cpp:218-218 | it is one, and there is none before it, or none at all |
| `Text.Split` | deps/common/utilities/string_utils.cpp:209-227 | the loop computes the fields; an empty delimiter is refused |
| `Text.Join` | deps/common/utilities/string_utils.h:92-111 | the loop computes the join; the space reserved is exactly what it fills |
| `Text.FieldCount` | deps/common/utilities/string_utils.cpp:209-227 | one field more than delimiters |
| `Text.CountOccurrences` | deps/common/utilities/string_utils.cpp:249-253 | the first pass counts the occurrences |
| `Text.ReplaceAll` | deps/common/utilities/string_utils.cpp:241-267 | replace_all is split then join, within the space reserved; an empty pattern is refused |
| `Text.ReplaceFirst` | deps/common/utilities/string_utils.cpp:269-284 | only the first delimiter of the split is replaced |
| `Text.JoinOfFields` | deps/common/utilities/string_utils.cpp:209-227 | joining what was split gives the input back |
| `Text.FieldsAreFree` | deps/common/utilities/string_utils.cpp:209-227 | no field contains the delimiter |
| `Text.SplitOfJoin` | deps/common/utilities/string_utils.h:92-111 | splitting a join gives the parts back exactly when no delimiter starts inside a part followed by one and the last part has none |
| `Text.SplitOfJoinChar` | deps/common/utilities/string_utils.h:92-111 | for one character, exactly when the parts are free of it |
| `Text.LongDelimiterMerges` | deps/common/utilities/string_utils.cpp:209-227 | delimiter-free parts that do not come back |
| `ConfigTree.MakeObject` | deps/common/config/config_value.cpp:57-74 | refuses exactly the objects with a key twice, naming the later field |
| `ConfigTree.Convert` | deps/common/config/config_json.cpp:15-70 | the recursion with its loops builds the converted tree, or fails exactly when there is none |
| `ConfigPaths.RefusedExactly` | deps/common/config/config_json.cpp:15-70 | there is none exactly when some object of the document, however deep, has a key twice |
| `ConfigTree.Config.Load` | deps/common/config/config.cpp:45-54 | a root that is no object and a document with a repeated key are refused, and leave the old tree |
| `ConfigTree.Config.Find` | deps/common/config/config.cpp:56-93 | the lookup is the recursive walk over the dot-separated segments, and returns the node at that position; an unloaded configuration is an error |
| `ConfigTree.Descend` | deps/common/config/config.cpp:69-88 | one segment leads to the child it means, or to none |
| `ConfigLookup.FindExactly` | deps/common/config/config.cpp:56-93 | a path finds a position exactly when its segments mean the children on the way: the first field of that name, or the number in decimal, zeros in front allowed, in at most 19 digits |
| `ConfigLookup.ChildForExactly` | deps/common/config/config.cpp:69-88 | so for one segment: nothing is found exactly when it means no child |
| `ConfigPaths.ConvertedIsTagged` | deps/common/config/config_json.cpp:42-64 | every node carries its path, no object a key twice |
| `ConfigPaths.RecordedPath` | deps/common/config/config_value.cpp:76-83 | the path is made of the names on the way |
| `ConfigPaths.PathRoundTrip` | deps/common/config/config.cpp:56-93 | looking up a node's recorded path finds that very node exactly when every key on the way is non-empty and dot-free |
| `ConfigPaths.PathsAreUnique` | deps/common/config/config.cpp:56-93 | among such nodes paths are unique |
| `ConfigPaths.EmptyKeyHides` | deps/common/config/config_value.cpp:76-83 | an empty key gives its node the path of its parent |
| `ConfigPaths.IndexNeverOverflows` | deps/common/config/config.cpp:71-78 | an index that is parsed at all fits in 64 bits |
| `ConfigPaths.TreeMirrorsDocument` | deps/common/config/config_json.cpp:15-70 | position by position the tree is the document: same scalars and sizes, strings and keys cut at their first NUL, unsigned numbers with the same 64 bits |
| `ConfigPaths.CStringExactly` | deps/common/config/config_json.cpp:36-64 | what is left of a string is what comes before its first NUL, and nothing else is |
| `AtomicReplace.WriteAll` | deps/common/utilities/file_utils.cpp:165-181 | the file grows by a prefix of the content, and by all of it exactly on success; after a signal or a short write it calls again for what is left, and stops exactly when all is written or a call fails or writes nothing |
| `AtomicReplace.StepInv` | deps/common/utilities/file_utils.cpp:370-427 | every call, failure, partial write and crash keeps names and files owned and flushed before they are bound |
| `AtomicReplace.ReaderSeesWhole` | deps/common/utilities/file_utils.cpp:370-427 | at every moment, also after a crash, the target shows the original or one writer's whole content |
| `AtomicReplace.OpenedFileStable` | deps/common/utilities/file_utils.cpp:407-422 | a file the target ever named never changes, so an open reader sees one version |
| `AtomicReplace.RenameInstalls` | deps/common/utilities/file_utils.cpp:420-423 | whoever else creates, renames and unlinks, a writer's temporary name still denotes its own file: the rename is possible and installs exactly its content |
| `AtomicReplace.SyncedSurvives` | deps/common/utilities/file_utils.cpp:295-302 | after the directory sync following a rename, no crash takes the target back to a binding before that rename |
| `AtomicReplace.NoTemporaryRemains` | deps/common/utilities/file_utils.cpp:218-274 | without a crash, and if unlinks succeed, no temporary file is left when no writer is active |
| `AtomicReplace.ToldTheTruth` | deps/common/utilities/file_utils.cpp:370-427 | a call that returns reports success exactly when it renamed its file over the target |
| `AtomicReplace.UndisturbedSucceeds` | deps/common/utilities/file_utils.cpp:370-427 | in every run, a writer about to start that finds a free name can by its own steps alone bind the target to its whole content and report success |

## Left out

- Retrieve.RetrieveStream: for clients that send PASV, LIST and RETR only while no transfer is in progress and open one data connection per PASV; overlapping transfers share an untagged write-complete callback, and the close of a second connection aborts the transfer of the first.
- LIST: batching by `readdir` and the text of its lines; only its replies, its use of the pump and its error paths are in `Transfer`.
- RETR argument checks (501, 550), the PASV idle timer as a timer (its firing is an action), what QUIT does to a transfer in progress.
- Timer intervals are whole microseconds; `double` seconds and `Timestamp` formatting are not modelled. One clock serves timers and timerfd.
- The timer queue's and the loop's destructors, `EventLoopThread` start-up, and destruction of `TcpServer` beyond taking its connections down.
- `Connector`, `TcpClient`, `Acceptor`, socket wrappers and addresses.
- The high-water-mark callback of `TcpConnection`, and `send` of a `Buffer`.
- A `write` that fails in other ways than would-block or a broken peer counts as having written nothing.
- Weak memory orders of `running_`: loads and stores are sequentially consistent.
- A restart of the base library's pool while a `stop` is under way, `stop` called from a worker, and tasks that throw (both pools).
- Reused descriptors of channels that are still registered: descriptors are distinct while their channels live.
- JSON text parsing, YAML and XML backends, numeric reads of `Config::get`, floating-point and integer parsing of strings, `trim`, case mapping.
- The permission bits, the name, the device and inode check and the directory part of `write_file_atomic`; the return of a temporary name whose rename or unlink a crash undid.
- Logging, `CountDownLatch`, directory listing, file queries.
