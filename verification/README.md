# A verified model of the PTY session protocol

The repository runs a program on a pseudo-terminal from Dart. A native session,
shared by several worker threads and one Dart isolate, moves input and output
between them. This project models that protocol in Dafny and proves what it is
for: bytes are neither lost nor reordered, buffers stay bounded, no wake-up is
missed, a session ends exactly once, and no signal reaches a stranger's process.

Code that changes objects step by step is modelled by classes and methods over
the heap (the native write queue, the Dart flow controllers, the session state,
the descriptor and pipe loops, the command-line printer); each is proved against
a specification on values. Code whose point is the race of several threads is
modelled as a state machine: one state, one label per critical section or system
call, `Possible` and `After` for runs, and an invariant that every step keeps.
System calls, scheduling, the native side's answers, partial reads and writes,
failing posts and failing thread creation are free choices of the label. All
theorems about runs hold for every run, of any length.

| file | what it models |
|---|---|
| `Wrappers.dfy` | options, bytes, 64-bit unsigned arithmetic |
| `WriteQueue.dfy` | the native write queue, as a sequence and as a linked list with counters |
| `WriteCounters.dfy` | the process-wide write statistics over the life of all queues |
| `InputSpec.dfy` | the Dart input controller as a value and its small steps |
| `InputHandlers.dfy` | its methods as whole turns of the isolate; when a write is left behind |
| `InputController.dfy` | its objects and methods on the heap |
| `InputPipeline.dfy` | Dart controller, native queue, reactor and event port together |
| `OutputControl.dfy` | the Dart output controller, the lifecycle futures and the session state |
| `OutputPipeline.dfy` | terminal, reactor, credit window, event port and isolate together |
| `Pipes.dfy` | the loops that read and write a pipe in full |
| `Descriptors.dfy` | closing inherited descriptors before `execve` |
| `Supervisor.dfy` | launcher, supervisor, program, and the session that signals it |
| `UnixSession.dfy` | start, shutdown and reference count of a Unix session |
| `WindowsSession.dfy` | the same on Windows, with the pseudo-console's ownership |
| `CommandLine.dfy` | the Windows command line and the parser it must survive |

## Model

| member | source | states |
|---|---|---|
| InputPipeline.EveryRun | src/unix/pty_unix_session.c:270-320 | end to end, in every interleaving: the bytes written are a prefix of the data submitted, in order; until something is thrown away, written bytes, rest of the chunk in hand and queue are exactly what was accepted; a write future succeeds only once all its bytes, and all before them, are written; both ends stay within the limit |
| InputPipeline.NoLostWakeUp | src/unix/pty_unix_session.c:241-258 | while Dart waits for WRITABLE and nobody is closing, one is in the port or about to be posted, or the reactor still works on a chunk or has a non-empty queue that it will not sleep on for good |
| InputPipeline.DartRefines | lib/src/internal/input_flow_controller.dart:195-243 | every isolate step of the pipeline, with the native queue's real answer, is a step of the controller of InputSpec or leaves it alone |
| InputPipeline.NextInv | src/unix/pty_unix_session.c:998-1040 | every step of every thread keeps the pipeline's invariant |
| InputSpec.EveryRun | lib/src/internal/input_flow_controller.dart:54-243 | whatever the native side answers: it got a prefix of the submissions in order; in-flight bytes sum to the owned bytes and stay within the limit; at most one request waits and owns all request pieces in flight; a success means everything up to its end was acknowledged; after closing no future is open |
| InputSpec.RunsAreSafe | lib/src/internal/input_flow_controller.dart:127-180 | settled futures never change again, submissions and sent bytes only grow, and nothing is sent after closing |
| InputSpec.OutstandingIsOwed | lib/src/internal/input_flow_controller.dart:110-118 | a future is outstanding exactly if some queued request, waiting request or piece of a tryWrite accounts for it |
| InputHandlers.WritesAloneNeverStarve | lib/src/internal/input_flow_controller.dart:54-68 | as long as no tryWrite is accepted, every unfinished future has bytes in flight or waits for WRITABLE between any two turns |
| InputHandlers.StarvesExactly | lib/src/internal/input_flow_controller.dart:181-193 | one turn leaves queued writes behind exactly if it is a write that finds nothing waiting and the window full, or they were left behind before and it is neither a write with room nor a close |
| InputHandlers.StarvingRuns | lib/src/internal/input_flow_controller.dart:127-150 | in every run writes are left behind at a point exactly if an earlier write found the window full with nothing waiting and no turn since relieved it |
| InputHandlers.AWriteIsLeftBehind | lib/src/internal/input_flow_controller.dart:132-149 | a run of three turns after which a write is open with nothing in flight and no WRITABLE to wait for |
| InputHandlers.StarvedUntilNextWrite | lib/src/internal/input_flow_controller.dart:120-150 | left behind with nothing in flight, a write stays open and nothing is sent until the next write or the close |
| InputHandlers.FullWindowIsTryWrites | lib/src/internal/input_flow_controller.dart:70-108 | without a waiting request every byte in flight belongs to a tryWrite |
| InputController.InputFlowController.Write | lib/src/internal/input_flow_controller.dart:54-68 | on the heap: one new open future or none, and the controller's value takes exactly the turn of InputHandlers |
| InputController.InputFlowController.TryWrite | lib/src/internal/input_flow_controller.dart:70-107 | refused, too long, back-pressured, accepted or closing, exactly as the turn of InputHandlers says |
| InputController.InputFlowController.HandleWriteComplete | lib/src/internal/input_flow_controller.dart:127-150 | an unknown number changes nothing; a known one settles its piece, finishes its request if that was the last, and only then starts queued writes |
| InputController.InputFlowController.HandleWritable | lib/src/internal/input_flow_controller.dart:120-125 | clears the wait and offers chunks as far as possible |
| InputController.InputFlowController.CloseWithError | lib/src/internal/input_flow_controller.dart:156-179 | fails every open future, each once, and forgets all requests and pieces |
| InputController.InputFlowController.Pump | lib/src/internal/input_flow_controller.dart:195-243 | terminates after a run of offers when none is possible any more; requests stay where they are unless the session closes |
| InputController.InputFlowController.PumpAdmissions | lib/src/internal/input_flow_controller.dart:181-193 | starts the first queued request if nothing waits and the window has room, and no other |
| InputController.InputFlowController.Flush | lib/src/internal/input_flow_controller.dart:110-118 | waits for exactly the futures that are open |
| QueueSpec.CountersAreSums | src/common/pty_debug_stats.c:112-141 | an operation that shifts the counters by its own queue's change keeps them the sums over all queues modulo 2^64 |
| QueueSpec.DisposeCounts | src/common/pty_write_queue.c:63-80 | discarding chunk by chunk shifts the counters by the queue's whole queued weight |
| WriteCounters.CountersNeverDrift | src/common/pty_debug_stats.c:112-141 | in every run of creating, using and disposing of any number of queues the three counters are, modulo 2^64, the sums over all live queues and the chunks that outlived theirs; with none left they are zero |
| WriteCounters.NextExact | src/common/pty_write_queue.c:63-188 | every queue operation, with its own counter updates, keeps the sums exact |
| WriteQueue.WriteQueue.TryEnqueue | src/common/pty_write_queue.c:82-127 | the linked list appends the chunk exactly if it fits the limit, otherwise nothing changes; the answer is the specification's |
| WriteQueue.WriteQueue.Dequeue | src/common/pty_write_queue.c:129-146 | the first chunk leaves the list and is accounted for as in flight; on an empty queue nothing changes |
| WriteQueue.WriteQueue.RequeueFront | src/common/pty_write_queue.c:148-170 | a dequeued chunk always goes back to the front, with what is left of it, whatever its owner wrote meanwhile |
| WriteQueue.WriteQueue.CompleteChunk | src/common/pty_write_queue.c:172-188 | the chunk's accounted bytes leave the in-flight sum, never clamped |
| WriteQueue.WriteQueue.Dispose | src/common/pty_write_queue.c:63-80 | every queued chunk is dropped and counted off |
| OutputPipeline.EveryRun | src/pty_internal.h:71-77 | credit, bytes on the way or with the isolate, and bytes dropped after a failed post always make up the window; the saturating branches of both credit updates are never taken; the isolate has received the beginning of what was posted |
| OutputPipeline.NoOutputLost | src/unix/pty_unix_session.c:384-485 | when the reactor comes to post OUTPUT_CLOSED and nobody stopped it, discarded output, failed a read or a post, all slave descriptors are closed and the posted bytes are exactly those written to the terminal |
| OutputPipeline.NoLostCredit | src/unix/pty_unix_session.c:1042-1052 | a reactor that polls without asking for output and without a wake-up on the way has no credit: the whole window is outstanding |
| OutputPipeline.NextInv | src/unix/pty_unix_session.c:322-382 | every step keeps credit conserved, no read larger than its credit, and output whole and in order |
| OutputControl.OutputFlowController.AddNativeOutput | lib/src/internal/output_flow_controller.dart:47-58 | a chunk is delivered, queued or acknowledged and dropped; acknowledgements stay balanced with what was received, is pending or in the listener's hands |
| OutputControl.OutputFlowController.Drain | lib/src/internal/output_flow_controller.dart:111-121 | delivers a prefix of what is pending in order, all of it while the listener stays; reports the drain exactly when native output ended and nothing is pending |
| OutputControl.OutputFlowController.HandleCancel | lib/src/internal/output_flow_controller.dart:100-109 | everything pending is acknowledged and dropped, native output is discarded |
| OutputControl.OutputFlowController.CloseAndDiscard | lib/src/internal/output_flow_controller.dart:71-83 | every received chunk has been acknowledged once when acknowledgements are disarmed; nothing more is delivered |
| OutputControl.OutputFlowController.Close | lib/src/internal/output_flow_controller.dart:65-69 | leaves a usable controller exactly if nothing was pending |
| OutputControl.StrandedByClose | lib/src/internal/output_flow_controller.dart:65-69 | a chunk without a listener at that point is stranded, and listening throws |
| OutputControl.SessionState.DoneIsHonestWhenValid | lib/src/internal/ffi_session.dart:185-194 | `done` succeeds only with the value of `processExit`, after OUTPUT_CLOSED and with everything delivered or dropped on cancel |
| OutputControl.SessionState.Run | lib/src/internal/ffi_session.dart:100-194 | in every sequence of messages, malformed messages and listener calls `done` completes at most once, and after it succeeded no byte reaches the listener |
| OutputControl.SessionState.HandleProtocolError | lib/src/internal/ffi_session.dart:135-155 | the first malformed message fails `done` unless it was complete, and seals the output; later ones change nothing but the closed flag |
| OutputControl.SessionState.HandleOutputClosed | lib/src/internal/ffi_session.dart:109-113 | the end of output is handled once and completes `done` if the exit is known and everything is drained |
| Pipes.ReadFully | src/unix/pty_unix_spawn.c:642-657 | complete with exactly the next bytes, end of file before any byte, or an error, over partial and interrupted reads |
| Pipes.WriteFully | src/unix/pty_unix_spawn.c:623-638 | all bytes in order, or a prefix and a failure |
| Pipes.Transfer | src/unix/pty_unix_spawn.c:623-657 | what one side writes fully the other reads unchanged, however the pieces fall |
| Descriptors.CloseFdsExcept | src/unix/pty_unix_spawn.c:606-621 | terminates and closes exactly the numbers from 3 to the maximum that are not kept, for an unsorted keep list |
| Descriptors.CloseListedFdsExcept | src/unix/pty_unix_spawn.c:489-520 | closes exactly the listed numbers that are not kept, if the list is complete |
| Descriptors.CloseInherited | src/unix/pty_unix_spawn.c:1099-1116 | after both passes only the standard streams and the status pipe are open |
| Descriptors.CheapPassSuffices | src/unix/pty_unix_spawn.c:1152-1159 | the pass up to the program's own limit leaves what a pass over every number would leave |
| Supervisor.StraySignalsExactly | src/unix/pty_unix_session.c:563-589 | in every run a signal meets a reused pid exactly if it comes after init took the program, after the supervisor reaped it on a failed release read, or in giving up a spawn after the program was reaped |
| Supervisor.GoneWhileSignalling | src/unix/pty_unix_session.c:1130-1152 | while the session may signal, the pid is free exactly if init took the program or the supervisor's release read had failed |
| Supervisor.NoStraySignal | src/unix/pty_unix_spawn.c:714-734 | as long as the supervisor neither dies nor fails that read and the spawn's status is valid, no signal meets a reused pid and whoever is about to signal has it reserved |
| Supervisor.InitWaitsForDeath | src/unix/pty_unix_spawn.c:1060-1066 | init takes the program only from a supervisor that died |
| Supervisor.HostReapsTheLauncherOnly | src/unix/pty_unix_spawn.c:1171-1176 | whatever children the host's runtime reaps, that is the launcher at most and never the program |
| Supervisor.ClosedAndReportedOnce | src/unix/pty_unix_session.c:487-544 | each pipe end is closed at most once, exactly once by the time the session is freed or the exit is posted; a posted exit is how the program ended, whoever reaped it |
| Supervisor.DeadSupervisorReservesNothing | src/unix/pty_unix_session.c:514-516 | a reachable state in which the waiter has signalled a reused pid because the supervisor died |
| Supervisor.FailedReadReservesNothing | src/unix/pty_unix_spawn.c:728-732 | the same after a failed release read |
| Supervisor.FailedSpawnSignalsTooLate | src/unix/pty_unix_spawn.c:1183-1194 | the same in a spawn that read an invalid status, with a supervisor that did nothing wrong |
| UnixSession.ClosedOnce | src/unix/pty_unix_session.c:166-184 | over every race of closes with startup and every failing thread creation SESSION_CLOSED is attempted at most once, and exactly once when all threads have finished after a close request or a failed start |
| UnixSession.ClosedComesLast | src/unix/pty_unix_session.c:504-544 | if reactor and waiter were both started it comes after OUTPUT_CLOSED and after the exit or the error of the wait |
| UnixSession.CountIsExact | src/common/pty_refcount.c:32-72 | the count is always the owner's reference plus those of live threads and calls in progress; the session is freed exactly once, when nobody is left, however many failed posts race the finalizer |
| UnixSession.NeverReopens | src/unix/pty_unix_session.c:1171-1212 | a session that is closing or closed never goes back before closing |
| UnixSession.ClosedIsOverwrittenExactly | src/unix/pty_unix_session.c:825-846 | in every reachable state that is CLOSED a step stores another state exactly if it is the bootstrap's store of CLOSING after the waiter could not be created, and that is then CLOSING |
| UnixSession.EveryOverwriteIsTheWaiters | src/unix/pty_unix_session.c:825-846 | the same for every run from the start: no other step ever overwrites CLOSED |
| UnixSession.ClosedIsDecided | src/unix/pty_unix_session.c:825-846 | a reachable CLOSED state has a waiter or no reactor, or else the waiter could not be created: there is no third case |
| UnixSession.ClosedIsFinal | src/unix/pty_unix_session.c:847-889 | a run that reached CLOSED, unless its waiter could not be created, stays CLOSED whatever follows |
| UnixSession.ClosedCanBeOverwritten | src/unix/pty_unix_session.c:825-846 | a run that reaches CLOSED and then goes back to CLOSING |
| WindowsSession.ConsoleIsClosedOnce | src/windows/pty_windows_session.c:114-191 | the pseudo-console is closed at most once and never while it is being released or owned, exactly once by the time a published session is freed, and at that time neither a release nor a close is in progress |
| WindowsSession.ClosedOnce | src/windows/pty_windows_session.c:370-388 | SESSION_CLOSED is attempted at most once, after reader, writer, waiter and closer are done and the console is closed; whenever it is due some thread is still to look for it |
| WindowsSession.ClosedWhenQuiet | src/windows/pty_windows_session.c:629-720 | when all threads have finished after a close request or a failed start, it was attempted exactly once |
| WindowsSession.CountIsExact | src/windows/pty_windows_session.c:722-743 | the count is the owner's reference plus those of live threads and calls in progress; the session is freed exactly when nobody is left, once |
| CommandLine.ArgumentsRoundTrip | src/windows/pty_windows_commandline.c:37-67 | parsing the printed arguments by the Microsoft rules gives every argument list back, whatever it contains |
| CommandLine.LineRoundTrip | src/windows/pty_windows_commandline.c:94-114 | the whole line comes back exactly if the executable has no quote and no trailing backslash |
| CommandLine.AppendQuotedArgument | src/windows/pty_windows_commandline.c:37-67 | the loop writes exactly the quoted argument and nothing else |
| CommandLine.LineFits | src/windows/pty_windows_commandline.c:77-90 | line and terminator need at most the meant sum, and a line of ASCII at least half of it |
| CommandLine.AllocationIsExact | src/windows/pty_windows_commandline.c:77-91 | the meant sum is allocated exactly if twice of it is a size_t; beyond that the guard fires or less than half of it is allocated |
| CommandLine.SmallLinesFit | src/windows/pty_windows_commandline.c:69-115 | up to that bound no build writes past its allocation, and every one succeeds that converts and gets its memory |
| CommandLine.HugeLinesOverrun | src/windows/pty_windows_commandline.c:77-91 | for ASCII texts a build writes past its allocation exactly if the bound is exceeded and the guard did not fire |
| CommandLine.AHugeLineOverruns | src/windows/pty_windows_commandline.c:77-79 | 1 GiB of ASCII on a 32-bit system does |
| CommandLine.BuildCommandLine | src/windows/pty_windows_commandline.c:69-115 | returns the terminated line, NULL, or would write past its allocation, exactly as the size arithmetic decides; no input is excluded |

## Findings

Properties the source does not have, each with the input that shows it and the
exact condition under which it does hold.

- CLOSED is not final. If the waiter cannot be created, the bootstrap stores
  CLOSING after it has marked the waiter done, and the reactor may have closed the
  session in between (src/unix/pty_unix_session.c:825-846). The run is
  `UnixSession.ClosedCanBeOverwritten`; `ClosedIsOverwrittenExactly` says that this
  store is the only one, and `ClosedIsFinal` that CLOSED stays unless the waiter's creation failed.
- A `write` can be left behind. A `write` queued while `tryWrite` data fills the
  window is not started when that data completes, because only the completion of a
  `write` starts queued ones (lib/src/internal/input_flow_controller.dart:132-149).
  The run is `InputHandlers.AWriteIsLeftBehind`; `StarvesExactly` and `StarvingRuns`
  give the exact condition; the next `write` or the close ends it.
- The pid is reserved by a supervisor that is alive and waits. The comment at
  src/unix/pty_unix_session.c:514-516 says that after its death the pid is still
  known to be the session's; it is not, since init may have reaped the program by
  then (`Supervisor.DeadSupervisorReservesNothing`). A release read that fails with
  another error than EINTR has the same effect (src/unix/pty_unix_spawn.c:728-732,
  `FailedReadReservesNothing`), and a spawn whose status is invalid closes the
  release pipe before it signals (src/unix/pty_unix_spawn.c:1191-1193,
  `FailedSpawnSignalsTooLate`). `StraySignalsExactly` says that there is no other way.
- The guard of the command-line capacity tests the sum, while the allocation doubles
  it (src/windows/pty_windows_commandline.c:79-91). Where size_t has 32 bits 1 GiB of
  text passes the guard and gets four wide characters (`CommandLine.AHugeLineOverruns`);
  `HugeLinesOverrun` and `SmallLinesFit` give the exact bound.
- The executable's name does not survive the command line if it has a quote or ends
  in a backslash (src/windows/pty_windows_commandline.c:94-102); `LineRoundTrip` says
  that these are the only ones.
- `close()` of the output controller closes the stream over chunks that wait for a
  listener; listening or resuming then throws
  (lib/src/internal/output_flow_controller.dart:65-69, `OutputControl.StrandedByClose`).
  `Close` states that an empty queue is the exact condition.

## Left out

Contracts weaker than one might expect:

- InputPipeline.NoLostWakeUp: says that the cause of a wake-up is there, not that the scheduler or the terminal lets it happen.
- OutputPipeline.NoLostCredit: is the safety half only; the drain at exit tests a credit value read before `poll`, so its progress is not claimed.
- OutputControl.OutputFlowController.AddNativeOutput: compares acknowledged with received chunks by their number and their bytes; that it is the same chunks is visible in the method bodies and not stated.
- WindowsSession.ClosedWhenQuiet: holds for sessions that were not abandoned; an abandoned one whose close worker cannot be started drops its console without a message.
- WriteCounters.CountersNeverDrift: takes an operation with its counter updates as one step; the source counts completed and discarded chunks just after it unlocks the queue.
- CommandLine.SmallLinesFit: assumes that conversion never needs more UTF-16 units than the text has bytes; the conversion itself is not part of this model.
- Supervisor.StraySignalsExactly: a signal to the program's process group, or to the terminal's foreground group, counts as one to the program's pid.

Assumptions of the state machines:

- A post does not fail any more once the isolate has detached from the session, and the explicit release comes only when no call to abandon is pending. Without the first, a bootstrap post that fails after the port was closed could drop the owner's reference a second time.
- The finalizer runs before the session is freed; one that runs after a failed post dropped the owner's reference and the last thread left is not modelled.
- An abandoning call drops the owner's reference only when the isolate is not inside a call of its own: a caller holds a reference while it calls.
- Listener callbacks are atomic, except that they may pause or cancel; they do not call back into the controller otherwise.
- The kernel's terminal delivers bytes in order, hangs up only when all slave descriptors are closed, and reports end of file only then. The host is not a subreaper, so orphans go to init.
- Memory is sequentially consistent: the atomics and mutexes of the source do what they promise.

Parts of the repository:

- System and library calls, ConPTY, Job Objects and `Dart_PostCObject` as code: they are free choices here.
- FFI marshalling, bindings, native symbols, the build hook, CMake, benchmarks and the example: no protocol of their own.
- Event encoding, capability bits, size validation, environment blocks, options and the PATH search: true but easy.
- Weak references and garbage collection, and the finalizer's timing beyond the above.
- Output credit on Windows after a discard, which resets it; the Windows reader's and writer's data paths.
- `exec` itself and the child's own error reports beyond their effect on the spawn's status.
