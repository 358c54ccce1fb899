# Verified models of the concurrent protocols in linuxapi

linuxapi is a collection of sample programs for Linux system calls. Most of them make one call and print
the result. This project is about those whose correctness depends on the order of steps taken by
several processes, threads or signal handlers, and about two sequential algorithms on kernel data.

Each protocol is a module with the same shape:

- `State` is the whole system: kernel objects, the processes' variables, and a program counter for each
  process, with one constructor for each atomic action of the C function.
- `Step(s, m)` performs one move of one process, or is `None` when that process is blocked. Everything that
  the kernel or the scheduler may choose (who moves, how many bytes a `read` returns, which child is
  collected) is part of the move. A theorem about every sequence of moves is therefore a theorem about every
  interleaving and every choice.
- `Inv` is an inductive invariant, from which the safety theorems follow for every reachable state.
- `AnyChunk` (`AnyBlock`, `AnyRead`) says that the transfers of a module really may have every size that there is and
  fits, so that its theorems cover every chunking.
- `Measure` bounds the number of moves still to come, and `NeverStuck` (or `WorkLeft`, `NoDeadlock`) finds an
  enabled move in every state that is not final. Together they give termination with the right result.
- The last part of a module is the C function itself as an imperative program, with its loops. Between any two of its
  actions the other processes may run for as long as they like (`World.Interfere`), and its blocking calls let
  them run until they can return (`World.WaitUntil`). `ShmPrograms` does the same on separate fields and a byte
  array that are changed in place. `Daemon` and `InotifyWalk` are imperative programs proper.

Numbers of children, threads, processes and descriptors, buffer sizes and channel capacities are parameters.

| file | what it models |
|---|---|
| `ShmTransfer.dfy`, `ShmPrograms.dfy` | block transfer through shared memory between two semaphores (`ipc_systemv_shm_writer.c`, `ipc_systemv_shm_reader.c`) |
| `MessageQueue.dfy`, `NotifyBySignal.dfy`, `NotifyByThread.dfy` | one-shot message-queue notification, by signal and by thread (`ipc_posix_mq.c`) |
| `ChildReaper.dfy` | collecting children through a coalescing SIGCHLD (`process_wait_by_signal.c`) |
| `EchoRelay.dfy` | the echo client's two processes, the connection and the echoing server child (`socket_echo_client_example.c`, `socket_echo_server_example.c`) |
| `EchoSingle.dfy` | the same relay with a client that sends everything first, for comparison |
| `SemaphoreRace.dfy` | electing a creator and waiting for its initialisation through `sem_otime` (`ipc_systemv_sem.c`) |
| `WorkCounter.dfy` | producers and a consumer around a condition variable (`pthread_condition_variable.c`) |
| `EpollDrain.dfy` | the level-triggered epoll loop (`alt_io_sample.c`) |
| `FifoRecords.dfy` | fixed-size records through a FIFO (`ipc_fifo_server.c`, `ipc_fifo_client.c`) |
| `PipeRelay.dfy` | end of file through reference-counted pipe ends (`ipc_pipe.c`) |
| `Daemon.dfy` | becoming a daemon (`process_daemonize.c`) |
| `InotifyWalk.dfy` | the walk over variable-length inotify events (`file_directory.c`) |
| `Runs.dfy`, `Sums.dfy`, `Streams.dfy` | runs and their invariants, totals over processes, streams cut into places |

Some claims that one might make are false of the code, or depend on a condition. For each there is an exact statement:

- The shared-memory reader's running total is right on every complete run only if there was nothing to copy
  (`ReaderTotalIsRightIffNoInput`); the reader adds the count after it has let the writer overwrite it.
- The notified consumers strand messages exactly when the queue was not empty at the first registration
  (`StrandedIffNotEmptyAtFirst`, `NothingLeftIffEmptyAtFirst`), which can happen for every queue capacity
  (`EarlyMessageStrands`, `EarlyMessageStays`).
- Processes can be blocked at the counted section for good once others are killed. One that waits there can get in without
  anybody being killed exactly if the semaphore has been given its value, or its creator is still alive to do it, and fewer
  processes have died in the section than it has places (`EntersIffAdmits`). Both ways of failing are reachable: the creator
  killed between its `semop` (line 57) and its second SETVAL (line 64), with no place lost (`KilledCreatorShuts`), and as
  many processes killed in the section as it has places (`LostPlacesShut`). The comment at `ipc_systemv_sem.c:103-106`
  speaks of an interruption while blocked in `semop`, which loses nothing; it is an interruption after `semop` has
  returned that loses the place.
- The process that creates the semaphore can give up after it has initialised it, for it tests a `sem_otime` that it never
  read (`CreatorCanGiveUp`, `ipc_systemv_sem.c:88`). Any other process gives up only if all its polls come before the stamp
  (`GivesUpIff`).
- Without its own writing end the FIFO server is shown end of file exactly while every client that has opened the FIFO has
  exited and everything written has been received (`EndOfFileIff`).

Four more theorems compare the program with a variant, and say exactly what a step of it is for: the order of
registering and draining, the FIFO server's own writing end, the child's closing of its writing end, and the echo
client's second process.

## Assumptions

- `read` returns between one byte and a bufferful until end of file; writes to standard output are complete; `fork`,
  `semget`, `shmget`, `open` and the allocation of memory succeed, unless a parameter says otherwise.
- The shared-memory reader starts after the writer has set the semaphores up and attached the segment.
- `mq_notify()`, `sigsuspend()`, pending signals, `write()` to a FIFO: as in POSIX.1-2017 (XSH sections 2.4.1 and 3).
  Nobody else sends the notification signal or receives from the queue.
- A receiving loop ends only if the senders pause in the end: `NotifyBySignal.Drain` (and with it `ReadBySignal`) and
  `NotifyByThread.ThreadFunc` let them go on for any number of turns that is fixed when the loop starts (`budget`).
- `pthread_cond_wait()` may return without a signal any number of times, but not for ever.
- The connection keeps the order of bytes, and a half-close is seen after all of them (section 3.6.1 of RFC 9293).
- A FIFO watched by epoll gets no new writer after losing its last one. A request record is at most PIPE_BUF bytes long.
- The kernel never gives a new process an identifier that is still in use, and `open` returns the lowest free descriptor.
- The kernel puts only whole events into the inotify buffer.

## Model

| member | source | states |
|---|---|---|
| `ShmTransfer.TransferIsExact` | LinuxAPI2/ipc_systemv_shm_writer.c:49-72 | in every reachable state the input is the reader's output, then the block in the segment, then the unread rest; the writer's total counts exactly the bytes handed over |
| `ShmTransfer.OneToken` | LinuxAPI2/ipc_systemv_shm_writer.c:30-67 | READ, WRITE and the two holders always add up to one token, so filling and copying the block never overlap |
| `ShmTransfer.TeardownIsSafe` | LinuxAPI2/ipc_systemv_shm_writer.c:47-92 | whoever is about to use the semaphore set or the segment finds it existing; removal begins only after the reader is done and everything is copied |
| `ShmTransfer.NeverStuck` | LinuxAPI2/ipc_systemv_shm/ipc_systemv_shm_reader.c:26-62 | every state of the invariant but the final one has an enabled move |
| `ShmTransfer.TransferCompletes` | LinuxAPI2/ipc_systemv_shm_writer.c:47-94 | no run is longer than 11 moves per input byte plus 13; a run that cannot go on has both processes finished, output equal to input, and the writer's total equal to its length |
| `ShmTransfer.ReaderTotalCanBeShort` | LinuxAPI2/ipc_systemv_shm/ipc_systemv_shm_reader.c:26-48 | for every non-empty input some complete run copies everything and yet ends with a reader's total that is too small |
| `ShmTransfer.ReaderTotalIsRightIffNoInput` | LinuxAPI2/ipc_systemv_shm/ipc_systemv_shm_reader.c:26-48 | the reader's total is right on all complete runs if and only if the input is empty |
| `ShmPrograms.Machine.ReadIntoSegment` | LinuxAPI2/ipc_systemv_shm_writer.c:59 | puts the next bytes of the input at the start of the segment's buffer, leaves the rest of the buffer, and removes them from the input |
| `ShmPrograms.Machine.WriterMove` | LinuxAPI2/ipc_systemv_shm_writer.c:49-92 | each atomic action of the writer changes the fields and the array as the transition system says |
| `ShmPrograms.Machine.ReaderMove` | LinuxAPI2/ipc_systemv_shm/ipc_systemv_shm_reader.c:26-62 | each atomic action of the reader changes the fields as the transition system says |
| `ShmPrograms.Machine.TakeWrite` | LinuxAPI2/ipc_systemv_shm_writer.c:52-57 | the blocking wait for WRITE returns, whatever the reader is doing |
| `ShmPrograms.Machine.TakeRead` | LinuxAPI2/ipc_systemv_shm/ipc_systemv_shm_reader.c:27-33 | the blocking wait for READ returns, whatever the writer is doing |
| `ShmPrograms.Machine.RunWriter` | LinuxAPI2/ipc_systemv_shm_writer.c:47-94 | against every reader schedule the function returns with everything delivered, an exact total, and both objects removed after their last use |
| `ShmPrograms.Machine.RunReader` | LinuxAPI2/ipc_systemv_shm/ipc_systemv_shm_reader.c:23-62 | against every writer schedule the function returns having copied the whole input |
| `MessageQueue.SendBlocksIff` | LinuxAPI2/ipc_posix_mq.c:65-74 | a sender blocks if and only if the queue holds as many messages as it can; otherwise its message is in the queue |
| `NotifyBySignal.ReregistrationSucceeds` | LinuxAPI2/ipc_posix_mq.c:181-188 | registration, pending signal and about-to-register are always exactly one, and nobody is registered when the consumer is about to register, so `mq_notify` never fails |
| `NotifyBySignal.StrandedIffNotEmptyAtFirst` | LinuxAPI2/ipc_posix_mq.c:166-202 | messages wait for a sleeping consumer with no signal on the way if and only if the queue was not empty at the first registration |
| `NotifyBySignal.EarlyMessageStrands` | LinuxAPI2/ipc_posix_mq.c:166-188 | for every capacity a message sent before the first registration reaches a state in which it is stranded |
| `NotifyBySignal.BlockedSenderHasAwakeConsumer` | LinuxAPI2/ipc_posix_mq.c:181-202 | a sender is blocked on the full queue only while the consumer is awake or its signal is pending |
| `NotifyBySignal.WakeUpCollects` | LinuxAPI2/ipc_posix_mq.c:181-202 | whatever a wake-up finds in the queue has been received when the consumer suspends itself again |
| `NotifyBySignal.EverythingIsDelivered` | LinuxAPI2/ipc_posix_mq.c:181-202 | once sending stops the system comes to rest after a bounded number of moves, with received and sent the same multiset of messages |
| `NotifyBySignal.DrainingFirstStrands` | LinuxAPI2/ipc_posix_mq.c:185-188 | draining before registering strands a message, for every queue capacity |
| `NotifyBySignal.OnlyRegisteringFirstIsSafe` | LinuxAPI2/ipc_posix_mq.c:185-188 | with an empty queue at the start, no message is ever stranded if and only if the order is the program's |
| `NotifyBySignal.ReadBySignal` | LinuxAPI2/ipc_posix_mq.c:175-203 | the function, among active senders, ends suspended after the given number of wake-ups in its history, or after fewer with no signal pending; what each wake-up found has been received; it sleeps with messages left if and only if it started on a non-empty queue |
| `NotifyBySignal.Drain` | LinuxAPI2/ipc_posix_mq.c:192-201 | the receiving loop leaves an empty queue and a consumer ready to suspend, the invariant intact, among senders that pause in the end |
| `NotifyByThread.ReregistrationSucceeds` | LinuxAPI2/ipc_posix_mq.c:222-227 | at most one thread is about to register and then nobody is registered; no thread's registration ever fails |
| `NotifyByThread.QueuedMessageHasThread` | LinuxAPI2/ipc_posix_mq.c:206-242 | a message in the queue has a thread that is still to register or still draining |
| `NotifyByThread.NothingLeftIffEmptyAtFirst` | LinuxAPI2/ipc_posix_mq.c:206-242 | when all threads have returned the queue is empty if and only if it was at the first registration, and each message that got in was received exactly once |
| `NotifyByThread.EarlyMessageStays` | LinuxAPI2/ipc_posix_mq.c:248-265 | for every capacity a message sent before the first registration stays in the queue with all threads returned |
| `NotifyByThread.EverythingIsDelivered` | LinuxAPI2/ipc_posix_mq.c:206-265 | once sending stops the threads finish after a bounded number of moves, having received exactly what was sent |
| `NotifyByThread.ThreadFunc` | LinuxAPI2/ipc_posix_mq.c:206-242 | a handler thread registers, leaves an empty queue and returns, among any number of other threads and senders that pause in the end |
| `ChildReaper.NoLostWakeup` | LinuxAPI/process_wait_by_signal.c:36-54 | an exited child that is not collected has a pending signal or a running handler |
| `ChildReaper.CounterIsExact` | LinuxAPI/process_wait_by_signal.c:42-45 | the counter is the number of children not collected, and the loop is left exactly when there is none |
| `ChildReaper.HandlerCallsAreBounded` | LinuxAPI/process_wait_by_signal.c:36-38 | on every run the counter of handler calls is the number of signals delivered, less one that is just calling the handler; it is at most one per exit or stop, so at most N when signals come from exits only, and at least one before all children are collected |
| `ChildReaper.ExitsAndStopsSignal` | LinuxAPI/process_wait_by_signal.c:36-54 | no exit and no stop goes without a signal: on every run on from it, once none is pending one has been delivered |
| `ChildReaper.EveryCallCanBeNeeded` | LinuxAPI/process_wait_by_signal.c:36-54 | the upper bound is attained: for every N and number of stops some run to the end has one handler call for each exit and each stop |
| `ChildReaper.OneCallCanBeEnough` | LinuxAPI/process_wait_by_signal.c:36-54 | the lower bound is attained: for every N some run collects all children in a single handler call |
| `ChildReaper.SomeChildRuns` | LinuxAPI/process_wait_by_signal.c:105-108 | while the parent sleeps without a pending signal some child is still running and will wake it |
| `ChildReaper.EveryRunCollectsAll` | LinuxAPI/process_wait_by_signal.c:62-113 | every run is bounded, and one that cannot go on has collected every child and ended the function, with no signal pending |
| `ChildReaper.Handler` | LinuxAPI/process_wait_by_signal.c:36-54 | the handler counts its call once and returns with no exited child left, also when children exit during it |
| `ChildReaper.ProcessWaitBySignal` | LinuxAPI/process_wait_by_signal.c:62-113 | for every schedule of the children the function returns with all of them collected, the child counter at zero, no signal pending, and the signal counter equal to the deliveries in its history |
| `EchoRelay.StreamIsPreserved` | LinuxAPI2/socket_echo_client_example.c:59-96 | the input is always what was received, then the return channel, the server's buffer, the forward channel, the client's buffer and the unread rest; channels stay within their capacities and buffers within their size |
| `EchoRelay.ReceiverReads` | LinuxAPI2/socket_echo_client_example.c:64-74 | each `read` of the receiver prints the next bytes of the input, a bufferful at most, or is end of file after the whole input |
| `EchoRelay.EndOfFileMeansAll` | LinuxAPI2/socket_echo_client_example.c:64-74 | when the receiver sees end of file it has received the whole input |
| `EchoRelay.NeverStuck` | LinuxAPI2/socket_echo_client_example.c:59-96 | for all capacities of at least one byte somebody can always go on |
| `EchoRelay.EchoCompletes` | LinuxAPI2/socket_echo_client_example.c:59-96 | no run is longer than five moves per byte plus five, and one that cannot go on has echoed the whole input |
| `EchoRelay.Echo` | LinuxAPI2/socket_echo_server_example.c:114-125 | the server child ends, with everything the client sent written back |
| `EchoRelay.Send` | LinuxAPI2/socket_echo_client_example.c:77-95 | the sending process ends with its whole input sent and its side of the connection shut down |
| `EchoRelay.Receive` | LinuxAPI2/socket_echo_client_example.c:64-74 | the receiving process ends having received the whole input |
| `EchoSingle.SendingFirstDeadlocksIff` | LinuxAPI2/socket_echo_client_example.c:54-59 | a client that sent everything before receiving could deadlock if and only if the input is at least two bytes longer than both channels hold together |
| `EchoSingle.LongInputDeadlocks` | LinuxAPI2/socket_echo_client_example.c:54-59 | the run into that deadlock, for every such input and all capacities |
| `SemaphoreRace.NobodyIsEarly` | LinuxAPI2/ipc_systemv_sem.c:35-90 | before the creator's `semop` nobody has got past the polling, and only one process does the creator's part |
| `SemaphoreRace.InitialisationIsUndisturbed` | LinuxAPI2/ipc_systemv_sem.c:44-66 | for every initial value the creator's `semop(0)` does not block, and its second SETVAL overwrites nobody's operation |
| `SemaphoreRace.CreatorCanGiveUp` | LinuxAPI2/ipc_systemv_sem.c:40-89 | for every initial value some run has the creator initialise the semaphore and then give up at its test of a `sem_otime` it never read |
| `SemaphoreRace.SlotsAreConserved` | LinuxAPI2/ipc_systemv_sem.c:95-119 | value, processes in the section and processes killed in it add up to the number of places; never more processes than places are inside |
| `SemaphoreRace.GivesUpIff` | LinuxAPI2/ipc_systemv_sem.c:76-89 | a polling process can still give up if and only if `sem_otime` is not set or its polls are used up: with one poll left after the stamp it never does, on no run and whoever is killed |
| `SemaphoreRace.PolledInVain` | LinuxAPI2/ipc_systemv_sem.c:76-89 | a process that did not see `sem_otime` set has polled exactly the allowed number of times, each time before the stamp |
| `SemaphoreRace.EntersIffAdmits` | LinuxAPI2/ipc_systemv_sem.c:54-106 | a process waiting at the section can be brought in without a kill if and only if the value is set or the creator is alive to set it, and fewer processes died in the section than it has places |
| `SemaphoreRace.ShutForGood` | LinuxAPI2/ipc_systemv_sem.c:61-106 | once `sem_otime` is set and that condition fails, it fails for good, and nobody ever enters the section again, whoever else is killed or not |
| `SemaphoreRace.KilledCreatorShuts` | LinuxAPI2/ipc_systemv_sem.c:54-65 | for two or more processes and any positive numbers of places and tries: the creator is killed before its second SETVAL and blocks the others though no place is lost |
| `SemaphoreRace.LostPlacesShut` | LinuxAPI2/ipc_systemv_sem.c:100-119 | for any number of places and of tries above zero, and more processes than places: as many are killed in the section as it has places, and the next one is blocked |
| `SemaphoreRace.NoDeadlock` | LinuxAPI2/ipc_systemv_sem.c:35-119 | whoever has been killed, an unfinished process means that somebody can go on, unless it waits at a section that is shut by the condition above |
| `SemaphoreRace.LeftOverIff` | LinuxAPI2/ipc_systemv_sem.c:35-119 | where nothing but a kill is possible, the unfinished processes are exactly those that wait at a section that is shut |
| `SemaphoreRace.EverybodyFinishes` | LinuxAPI2/ipc_systemv_sem.c:35-119 | every run, kills included, has at most tries plus seven moves per process, and leaves over only processes at a section that is shut; none if nobody was killed |
| `SemaphoreRace.AwaitInitialisation` | LinuxAPI2/ipc_systemv_sem.c:68-86 | the polling loop ends; it reports initialisation only if it has happened, and always if it had before the first poll |
| `SemaphoreRace.TakePlace` | LinuxAPI2/ipc_systemv_sem.c:95-102 | the blocking `semop` returns with a place, or the section is shut, which needs a killed process |
| `SemaphoreRace.IpcSystemvSem` | LinuxAPI2/ipc_systemv_sem.c:25-122 | as any one of the processes, among others that may be killed, the function does its job, gives up, or waits at a section that is shut; it returns if nobody was killed; a process that starts after the stamp does not give up |
| `WorkCounter.WorkIsConserved` | LinuxAPI2/pthread_condition_variable.c:22-33 | produced is consumed plus `work`; what is produced and still to come is constant; nobody else touches `work` while a producer adds to it |
| `WorkCounter.NoLostWakeup` | LinuxAPI2/pthread_condition_variable.c:72-73 | a consumer asleep without a signal and with work to do has a producer between adding the work and its signal |
| `WorkCounter.NoDeadlock` | LinuxAPI2/pthread_condition_variable.c:22-80 | somebody can go on until all producers are done and the consumer sleeps |
| `WorkCounter.RestMeansAllConsumed` | LinuxAPI2/pthread_condition_variable.c:59-80 | when the producers are done and the consumer sleeps, everything produced has been consumed |
| `WorkCounter.RunsAreFinite` | LinuxAPI2/pthread_condition_variable.c:17-80 | a run has at most nine moves per item, plus one per producer, plus five per spurious wake-up, plus four |
| `WorkCounter.AllWorkIsConsumed` | LinuxAPI2/pthread_condition_variable.c:17-80 | a reachable state in which nothing but a spurious wake-up can happen has the producers done and all their work consumed |
| `WorkCounter.WokenAnyNumberOfTimes` | LinuxAPI2/pthread_condition_variable.c:59-75 | any number of spurious wake-ups can be counted on some run, each of which leaves the consumer asleep again with nothing consumed |
| `WorkCounter.Consumer` | LinuxAPI2/pthread_condition_variable.c:57-80 | for every schedule of the producers and any number of spurious wake-ups the consumer's loop consumes all that will be produced |
| `WorkCounter.ThreadFunc` | LinuxAPI2/pthread_condition_variable.c:17-39 | a producer adds all its items and returns, among the consumer, its spurious wake-ups and the other producers |
| `EpollDrain.ClosedMeansDrained` | LinuxAPI2/alt_io_sample.c:249-292 | the counter is the number of open descriptors, a closed one was read to its end and has no writer, no descriptor is closed twice, and what was read is a prefix of what was written |
| `EpollDrain.AnyReport` | LinuxAPI2/alt_io_sample.c:260-264 | `epoll_wait` may report any distinct descriptors, as many as fit, that are open with input or without writers, and no others; the flags say which |
| `EpollDrain.WritersAreCounted` | LinuxAPI2/alt_io_sample.c:229-236 | on every run the writers of a FIFO are those it began with plus those opened less those closed |
| `EpollDrain.ReadsFindInput` | LinuxAPI2/alt_io_sample.c:280-289 | a report is still true when its turn comes: `read` neither blocks nor returns end of file, and a descriptor is closed only once, empty and without a writer |
| `EpollDrain.ReadsAreBounded` | LinuxAPI2/alt_io_sample.c:280-283 | an action of the loop reads from one FIFO at most, the next bytes in order, and a bufferful at most |
| `EpollDrain.LoopEndMeansAllRead` | LinuxAPI2/alt_io_sample.c:250-294 | when the loop ends every descriptor is closed and everything ever written has been read, in order |
| `EpollDrain.StopsOnlyToWait` | LinuxAPI2/alt_io_sample.c:260-266 | the loop can go on unless it waits with every open FIFO empty and still having a writer |
| `EpollDrain.EverythingIsRead` | LinuxAPI2/alt_io_sample.c:249-292 | among active writers and interruptions a run has no more moves than the unread bytes, the bytes written and the others' own moves account for; the loop comes to rest only with everything read, and ends if no writer is left |
| `EpollDrain.AnyContentsComeThrough` | LinuxAPI2/alt_io_sample.c:229-294 | for every contents of the FIFOs some run, with writers that come and go, ends with exactly those contents read |
| `EpollDrain.HandleEvents` | LinuxAPI2/alt_io_sample.c:273-290 | the loop over the returned events ends, with writers active all the time |
| `EpollDrain.EpollWait` | LinuxAPI2/alt_io_sample.c:260-266 | it returns events or interrupted, or waits because no descriptor is ready |
| `EpollDrain.AltIoEpoll` | LinuxAPI2/alt_io_sample.c:249-294 | among active writers and interrupting signals: the function ends with everything read and closed, or has taken all its turns, counted in its history, or waits with no descriptor ready |
| `FifoRecords.OnlyWholeRecords` | LinuxAPI2/ipc_fifo_server.c:43-55 | the FIFO holds a whole number of records within its capacity and no `read` ever returns a fragment |
| `FifoRecords.ReceivedInOrder` | LinuxAPI2/ipc_fifo/ipc_fifo_client.c:22-37 | the records received are those of distinct clients, in the order of their writes |
| `FifoRecords.EndOfFileIff` | LinuxAPI2/ipc_fifo_server.c:31-48 | without it, `read` returns end of file if and only if every client that has opened the FIFO has exited and everything written has been received, and never before a record |
| `FifoRecords.EndOfFileWithoutDummy` | LinuxAPI2/ipc_fifo_server.c:45-48 | without the server's own writing end the first client writes and exits, and the server receives its record and then sees end of file any number of times |
| `FifoRecords.NoEndOfFileIffDummy` | LinuxAPI2/ipc_fifo_server.c:35-39 | the server never sees end of file if and only if it keeps a writing end open |
| `FifoRecords.AllRecordsArrive` | LinuxAPI2/ipc_fifo_server.c:31-55 | every run is bounded, and one that cannot go on has delivered the record of every client |
| `FifoRecords.ReadRequest` | LinuxAPI2/ipc_fifo_server.c:49-53 | a `read` that finds something returns one whole record |
| `FifoRecords.ServeRequests` | LinuxAPI2/ipc_fifo_server.c:44-55 | the loop's successive reads return exactly the next records written, in order; it makes fewer than asked only if the FIFO is empty |
| `PipeRelay.StreamIsPreserved` | LinuxAPI2/ipc_pipe.c:36-90 | the argument is always the output, then the child's buffer, the pipe and the unwritten rest; no write ever finds the pipe without a reader; the buffer keeps to its size and the pipe to its capacity |
| `PipeRelay.EndsAreExact` | LinuxAPI2/ipc_pipe.c:41-84 | which of the four ends are open at each place of the two programs; while there is something to write, a reader and a writer are open |
| `PipeRelay.EndOfFileIsLast` | LinuxAPI2/ipc_pipe.c:54-62 | the child sees end of file only after the whole argument, and the parent returns only after the argument and the newline have been output |
| `PipeRelay.NeverStuck` | LinuxAPI2/ipc_pipe.c:36-90 | for all capacities and buffer sizes one of the two processes can go on |
| `PipeRelay.RelayCompletes` | LinuxAPI2/ipc_pipe.c:36-90 | no run is longer than three moves per byte plus nine, and one that cannot go on has output the argument and a newline and closed all four ends |
| `PipeRelay.ParentReturnsIffChildCloses` | LinuxAPI2/ipc_pipe.c:42-44 | the parent can return if and only if the child closes its copy of the writing end |
| `PipeRelay.ParentSide` | LinuxAPI2/ipc_pipe.c:71-90 | the parent's side returns, with the child's output complete |
| `PipeRelay.ChildSide` | LinuxAPI2/ipc_pipe.c:41-68 | the child's side ends having output the argument and a newline, never with more than a bufferful in hand |
| `Daemon.BecomeDaemon` | LinuxAPI/process_daemonize.c:18-101 | fails exactly when a fork fails; otherwise the caller and the middle child have exited, the result is alive, leads neither a group nor its session, the session is the one the middle child began, and descriptors, mask and directory are, descriptor by descriptor and bit by bit, as the flags say; with flags 0 the mask is 0, the directory "/", 0 to 2 are /dev/null and nothing else below the limit is open |
| `Daemon.Process.Setsid` | LinuxAPI/process_daemonize.c:39-40 | fails exactly for a process group leader, and otherwise makes the process leader of a new session and group |
| `Daemon.CloseAll` | LinuxAPI/process_daemonize.c:67-75 | of the descriptors open before exactly those at or above the limit stay open |
| `Daemon.ReopenStandard` | LinuxAPI/process_daemonize.c:78-95 | whatever was open before, it succeeds and descriptors 0 to 2 share one description of /dev/null that was not open before, with all others unchanged |
| `Daemon.DaemonFdsAt` | LinuxAPI/process_daemonize.c:66-95 | which descriptors are open afterwards, and on what, in terms of the literal bits 2 and 4 and the limit (8192 if there is none) |
| `Daemon.OthersAreClosedIff` | LinuxAPI/process_daemonize.c:66-95 | nothing above descriptor 2 is open afterwards if and only if nothing was, or closing was asked for and the limit covers it |
| `Daemon.TableIsKeptIff` | LinuxAPI/process_daemonize.c:66-95 | the table is the caller's own if and only if redirection was declined and there was nothing to close |
| `InotifyWalk.WalkInvertsEncoding` | api3/file_directory.c:311-321 | the walk over the layout of any list of events visits exactly those events in order |
| `InotifyWalk.EncodingInvertsWalk` | api3/file_directory.c:311-321 | a buffer over which the walk ends is the layout of the events it visits |
| `InotifyWalk.WalkStaysInsideIff` | api3/file_directory.c:311-321 | the walk stays inside the buffer if and only if the buffer is the layout of some events |
| `InotifyWalk.EventAt` | api3/file_directory.c:313-314 | reading the fields at the cursor gives the event that starts there, within the bytes read |
| `InotifyWalk.VisitEvents` | api3/file_directory.c:301-321 | the loop visits the events in order, accesses nothing outside the bytes read, and ends with the cursor at their number |

## Left out

- Error messages, `printf` output, `errExit` and the error-handling helpers; option and number parsing.
- Programs that demonstrate a single call (stat, chmod, mount, mmap, limits, priorities, capabilities, syslog, and so on).
- The reader's running total in the shared-memory transfer is not claimed right; its exact condition is proved instead.
- The width of C's `int` and `ssize_t`: totals and counters are unbounded, so inputs of 2 GB and more are not modelled.
- A `read` that fails, and the error branches after a failing system call, apart from those that a theorem rules out.
- Echo: address lookup, connecting and accepting, the listener's loop over clients, and the server's SIGCHLD handler (it is the collecting loop of `ChildReaper` again); the terminating NUL written for `printf`.
- Message priorities: `mq_receive` may return any queued message, so the results hold for every priority order. The layout of `struct mq_message`.
- `NotifyBySignal.ReadBySignal`, `EpollDrain.AltIoEpoll` and `FifoRecords.ServeRequests` follow endless loops for any number of turns, and stop where the C code would stay blocked; `WorkCounter.Consumer` follows one until there is nothing left to consume.
- `SemaphoreRace.IpcSystemvSem`: a process blocked for good at a shut section, which needs a killed process, makes the method stop where the C code would wait for ever.
- Apart from `ShmPrograms`, `Daemon` and `InotifyWalk`, the in-place state of a program is one field that holds the system's state as a value; separate objects and aliasing between them are not modelled there.
- FIFO and pipe: creation and opening of the FIFO's file, permissions, and the fields inside `struct request` (a record is any sequence of bytes of its size).
- `alt_io_signal`, `ipc_pipe_stdinout`, the logging loop after `become_daemon`, `timer_advanced_thread.c`: the natural claims do not hold of them.
- Mutex-protected sums, cancellation, thread-specific data, file locks, System V message queues: easier than the protocols above, or properties of the kernel.
- Wall-clock time, sleeping, and interruption of system calls by signals other than in `sigsuspend` and `epoll_wait`.
