# libcold, modelled and proved

A Dafny model of libcold's concurrency and event-loop machinery and of the incremental codecs
that run on top of it, with proofs of what they promise. `dafny verify dfyconfig.toml` checks
everything.

| module | models |
|---|---|
| `AsyncMutex`, `Links` | the coroutine mutex, one atomic step at a time, for any number of coroutines |
| `ConditionVariable` | Wait, NotifyOne and NotifyAll as steps on top of the mutex |
| `TimerQueue` | the heap of timers with its reverse index, as a class over a plain map |
| `IoWatcher` | the descriptor table as a class, over a small model of edge-triggered epoll |
| `EdgeReaders` | ReadAwaitable and AcceptAwaitable on that table: try first, then arm |
| `TimedIo` | the phases of the loop and the race of an I/O with its timer |
| `WebSocketFrames`, `WebSocketParser` | framing, masking, the incremental parser and the encoder (RFC 6455, sections 5.2 to 5.5) |
| `WebSocketWriter`, `WebSocketEndToEnd` | the double-buffered writer, and writer, wire and reader together |
| `Pacing` | readers that hand over one thing for each read: how many wait |
| `RequestParser` | the resumable HTTP request parser of the simple server |
| `StringUtils`, `Router` | splitting, and the two route trees on the heap against flat lists |
| `Base64` | encoder and decoder (RFC 4648, sections 3.5 and 4) |
| `LogFormatter`, `LocalTimeFormatter` | the log-pattern compiler and the cached time formatter |

How it is built. Code that several coroutines interleave in is a transition system: a state, a
datatype of steps, `Enabled` and `Apply`, one step for each atomic access or each segment between
two suspensions, an invariant, and theorems over every run. Code that one caller drives is a class
whose methods are proved against specification functions, about which the theorems are. Where a
proof needs to know who is in which list, the lists are a ghost `Shape` or a ghost map beside the
real pointers, and its agreement with the pointers is part of the invariant.

## Where the code falls short of what one would expect

For each there is the input that shows it, and the exact condition under which the code does what
is expected.

| what happens | input | exact condition |
|---|---|---|
| a control frame inside a fragmented message is merged into the message | `WebSocketParser.PingIsSwallowed` | `WebSocketParser.FollowsStandardIff` |
| `DoRead` hands over one frame for each read, however many there are | `WebSocketEndToEnd.OneTurnOneFrame` | `WebSocketEndToEnd.NothingWaitsIff` |
| the simple HTTP server answers one request for each read | `RequestParser.OneRequestPerRead` | `RequestParser.NothingWaitsIff` |
| `ListenReadEvent` on an entry made for writing does not ask for EPOLLIN, and the entry takes the reader with it when the writer is done | `IoWatcher.DeafComes`, `IoWatcher.DeafLoses` | `IoWatcher.HeardIff`, `IoWatcher.StopWriteKeepsReaderIff` |
| `AcceptAwaitable` arms after any error of accept4, not only EAGAIN, when its edge may be gone | `EdgeReaders.ConnectionOverlooked`, `EdgeReaders.OverlookedStays` | `EdgeReaders.FailedAcceptIff` |
| a timer that fires before its operation's task has started runs the task early, and the loop later resumes what has ended | `TimedIo.TimerTooEarly` | `TimedIo.RoundInOrderIff` |
| a new `LocalTimeFormatter` takes second 0 for shown already, and fractions before 1970 are not digits | `LocalTimeFormatter.SignForDigit` | `LocalTimeFormatter.ShownRightIff` |

## Model

| member | source | states |
|---|---|---|
| AsyncMutex.StepKeeps | cold/coro/AsyncMutex.h:21-130 | one atomic step of any coroutine: Unlock's asserts hold, the invariant on word, stack and waiter list survives, and owner and queue move as the step's event says |
| AsyncMutex.Refines | cold/coro/AsyncMutex.h:21-130 | every interleaving of any number of coroutines shows a run of a plain mutex with an owner and a FIFO queue, and the next step fails no assert |
| AsyncMutex.SpecIsFifo | cold/coro/AsyncMutex.h:112-129 | the plain mutex grants in the order of joining, each waiter once, those not granted being still queued |
| AsyncMutex.Guarantees | cold/coro/AsyncMutex.h:95-130 | in every reachable state: one owner at most, grants in the order of successful pushes, nobody lost or served twice, an unlocked word only with nobody waiting |
| AsyncMutex.QuiescentIsFree | cold/coro/AsyncMutex.h:79-82 | when no coroutine uses the mutex, the two conditions its destructor asserts hold |
| AsyncMutex.ReverseOneOrder | cold/coro/AsyncMutex.h:118-123 | a round of the reversal loop leaves the order of service as it was |
| AsyncMutex.QueueIsUnique | cold/coro/AsyncMutex.h:136-137 | the queue that the proofs speak of is determined by the word and the links |
| AsyncMutex.UnlockCanMove | cold/coro/AsyncMutex.h:102-130 | a coroutine inside Unlock always has a step |
| AsyncMutex.UnlockAdvances | cold/coro/AsyncMutex.h:102-130 | each of its steps brings it nearer to the end of Unlock |
| AsyncMutex.UnlockUndisturbed | cold/coro/AsyncMutex.h:102-130 | no step of another coroutine sets it back |
| AsyncMutex.EveryoneCanMove | cold/coro/AsyncMutex.h:21-39 | every coroutine inside Lock, Unlock or neither has a step of its own; only a suspended one has to wait |
| AsyncMutex.LockNeverGivesUp | cold/coro/AsyncMutex.h:25-38 | no step of anybody ends Lock but by holding the mutex or by joining the queue, and a suspended coroutine leaves only with the mutex handed to it |
| AsyncMutex.LockQueues | cold/coro/AsyncMutex.h:23-37 | Lock on a mutex that is held, with or without waiters, is three accesses and ends suspended, last in the queue |
| AsyncMutex.LockAcquires | cold/coro/AsyncMutex.h:23-28 | Lock and TryLock on a free mutex end holding it, the queue empty |
| AsyncMutex.TryLockRefused | cold/coro/AsyncMutex.h:95-100 | TryLock on a mutex that is held changes nothing |
| AsyncMutex.UnlockEnds | cold/coro/AsyncMutex.h:102-130 | undisturbed, Unlock ends, with the mutex free if nobody waits and else owned by the first who does, the others in order |
| ConditionVariable.StepKeeps | cold/coro/ConditionVariable.h:24-76 | one atomic step of mutex or condition variable keeps the joint invariant |
| ConditionVariable.MutexRun | cold/coro/ConditionVariable.h:30-30 | without the condition variable's own steps, every run is a run of the mutex alone, so its guarantees carry over |
| ConditionVariable.NoLostWakeup | cold/coro/ConditionVariable.h:70-76 | whenever somebody holds the mutex to change data or notify, everyone who saw its predicate false and was not notified since is on the stack, suspended |
| ConditionVariable.ReleasedOnlyWhenParked | cold/coro/ConditionVariable.h:24-31 | Wait gives the mutex up only after its awaiter is on the stack |
| ConditionVariable.WaitReturns | cold/coro/ConditionVariable.h:70-76 | whichever step it is that ends Wait: the coroutine owns the mutex then, alone, and the predicate it waits for is true of the data |
| ConditionVariable.WaitEndsTrue | cold/coro/ConditionVariable.h:70-76 | no step of anybody takes a coroutine out of Wait, or changes what it waits for, while its predicate is false |
| ConditionVariable.WaitPasses | cold/coro/ConditionVariable.h:72-72 | Wait with a true predicate returns at once and touches nothing |
| ConditionVariable.WaitParks | cold/coro/ConditionVariable.h:24-31 | with a false one the awaiter becomes the head of the stack, linked to the old head, and then the mutex is unlocked |
| ConditionVariable.TestDecides | cold/coro/ConditionVariable.h:72-72 | the test of Wait lets a coroutine out or has it park as the data are at that step |
| ConditionVariable.HolderChangesData | cold/coro/ConditionVariable.h:70-76 | whoever holds the mutex outside these calls can change the data at will, and nobody else can |
| ConditionVariable.NotifiedAreRequeued | cold/coro/ConditionVariable.h:48-68 | over every run, those notified join the mutex's queue once each, in the same order, but for at most one still on its way |
| ConditionVariable.ParkedAreNotifiedOnce | cold/coro/ConditionVariable.h:24-68 | over every run, parkings are matched one for one by notifications and by those still waiting |
| ConditionVariable.NotifyOneTakesLatest | cold/coro/ConditionVariable.h:48-56 | NotifyOne resumes the waiter that parked last |
| ConditionVariable.NotifyAllDelivers | cold/coro/ConditionVariable.h:58-68 | when NotifyAll, working on the list as it took it, returns, everyone who was waiting has been resumed once, newest first, and has joined the mutex's queue in that order (the code reads the links again while it resumes) |
| ConditionVariable.NotifyOneResumes | cold/coro/ConditionVariable.h:48-56 | with somebody on the stack NotifyOne takes its head off and resumes it to lock the mutex again |
| ConditionVariable.NotifyAllTakes | cold/coro/ConditionVariable.h:58-68 | with somebody on the stack NotifyAll empties it and resumes its first |
| ConditionVariable.NotifyNobodyReturns | cold/coro/ConditionVariable.h:48-64 | with nobody on the stack both return and change nothing |
| ConditionVariable.NotifyOneEnds | cold/coro/ConditionVariable.h:48-56 | no step ends NotifyOne with nobody resumed unless nobody waits, and it stays until the one resumed has joined the mutex's queue |
| ConditionVariable.NotifyAllEnds | cold/coro/ConditionVariable.h:58-68 | the same for NotifyAll, for one of its list after the other |
| ConditionVariable.EveryoneCanMove | cold/coro/ConditionVariable.h:24-76 | in every reachable state a coroutine has a step of its own unless it is suspended in the mutex, parked, or resuming somebody who has one |
| TimerQueue.TimerQueue.AddTimer | cold/time/TimerQueue.cpp:9-20 | the map of timers gains the timer, or nothing changes if the id is there already; heap and index stay valid |
| TimerQueue.TimerQueue.CancelTimer | cold/time/TimerQueue.cpp:22-30 | the timer stays in the map and becomes invalid; an id that is not there changes nothing |
| TimerQueue.TimerQueue.UpdateTimer | cold/time/TimerQueue.cpp:32-44 | the timer's expiry changes, earlier or later, and nothing else in the map |
| TimerQueue.TimerQueue.Fixup | cold/time/TimerQueue.cpp:46-55 | sifting up turns a heap with one node too low into a heap with the same entries, the index being the inverse of the positions throughout |
| TimerQueue.TimerQueue.FixDown | cold/time/TimerQueue.cpp:57-67 | sifting down leaves at most the start out of order with its ancestors, with the same entries |
| TimerQueue.TimerQueue.HandleTimeout | cold/time/TimerQueue.cpp:69-91 | exactly the timers with expiry at or before now leave the map, the tasks of the valid ones are handed out by expiry and then by id, the others stay, and the wait is as WaitTime says |
| TimerQueue.TimerQueue.WaitTime | cold/time/TimerQueue.cpp:83-90 | the wait is within 0 and 500 ms, ends less than a millisecond after the first remaining timer, in nanoseconds, and when it is less than 500 no more than a millisecond before it |
| TimerQueue.RootIsLeast | cold/time/TimerQueue.h:33-38 | the root of a heap is least under (expiry, id) |
| TimerQueue.GreaterIsAfter | cold/time/TimerQueue.h:33-38 | the heap's comparison is the order by expiry and then by id |
| TimerQueue.SwapKeeps | cold/time/TimerQueue.cpp:50-52 | the paired swaps keep the index the inverse of the positions and change no entry |
| TimerQueue.PopKeeps | cold/time/TimerQueue.cpp:77-81 | erasing the root removes its entry and no other and leaves a heap up to sifting the new root down |
| TimerQueue.DueIsUnique | cold/time/TimerQueue.h:33-38 | there is one list of what is due: the order is total |
| TimerQueue.DueExists | cold/time/TimerQueue.h:33-38 | and there always is one |
| TimerQueue.TimersConserved | cold/time/TimerQueue.cpp:9-82 | over any sequence of operations, the timers accepted under an id are those handed out, those dropped and at most one still there |
| TimerQueue.TickPartitions | cold/time/TimerQueue.cpp:71-82 | one tick parts the timers into handed out, dropped, and left unchanged |
| TimerQueue.WaitIsSafe | cold/time/TimerQueue.cpp:83-90 | a wait computed from a root later than now has these bounds for every timer there |
| TimerQueue.MillisecondsMonotone | cold/time/TimerQueue.cpp:85-86 | truncating to milliseconds keeps the order |
| IoWatcher.IoWatcher.constructor | cold/coro/IoWatcher.cpp:13-33 | table and epoll set hold the eventfd only, level-triggered |
| IoWatcher.IoWatcher.ListenReadEvent | cold/coro/IoWatcher.cpp:41-59 | a new entry with EPOLLIN, or only the handle of an old one; table and kernel still agree, so the epoll_ctl call is legal |
| IoWatcher.IoWatcher.ListenWriteEvent | cold/coro/IoWatcher.cpp:61-78 | EPOLLOUT is added to a new or old entry, with the handle; agreement is kept |
| IoWatcher.IoWatcher.StopListeningReadEvent | cold/coro/IoWatcher.cpp:80-85 | the read handle goes, the registration stays |
| IoWatcher.IoWatcher.StopListeningWriteEvent | cold/coro/IoWatcher.cpp:87-102 | handle and EPOLLOUT go, and the whole entry when EPOLLIN is not set; agreement is kept |
| IoWatcher.IoWatcher.StopListeningAll | cold/coro/IoWatcher.cpp:104-116 | the entry and its registration go |
| IoWatcher.IoWatcher.WatchIo | cold/coro/IoWatcher.cpp:135-179 | the coroutines returned are those that the reports find armed at the start, in the order of the reports, none of them the no-op |
| IoWatcher.ReportsFit | cold/coro/IoWatcher.cpp:146-149 | what epoll reports concerns entries of the table, each once, within their masks |
| IoWatcher.ReportKeeps | cold/coro/IoWatcher.cpp:150-174 | one report keeps the agreement and touches no other entry, so the pointers in later reports stay good |
| IoWatcher.BatchResumes | cold/coro/IoWatcher.cpp:146-175 | a batch resumes exactly the slots armed at its start that are reported, report by report, the reader before the writer |
| IoWatcher.StepBalanced | cold/coro/IoWatcher.cpp:41-179 | each operation accounts for every armed handle: armed, delivered, stopped, lost or waiting as before |
| IoWatcher.RunBalanced | cold/coro/IoWatcher.cpp:41-179 | over every run table and kernel agree on descriptors and masks, EPOLLOUT is set exactly while a write handle is armed, and every handle armed is delivered once, stopped once, lost once, or waits |
| IoWatcher.WriterTakenIff | cold/coro/IoWatcher.cpp:170-174 | an epoll_wait disarms a writer exactly when it looks at its descriptor and there is room |
| IoWatcher.NoWriterLost | cold/coro/IoWatcher.cpp:61-78 | over every run, a writer that waits where there is room is on the ready list, and an epoll_wait that looks there resumes it: arming looks at the descriptor again |
| IoWatcher.NothingLost | cold/net/TcpSocket.h:31-34 | when every descriptor is registered for reading first, none is lost |
| IoWatcher.HeardIff | cold/coro/IoWatcher.cpp:42-58 | data wakes a reader exactly when its entry was new or had EPOLLIN |
| IoWatcher.DeafComes | cold/coro/IoWatcher.cpp:54-58 | arming a writer, then a reader, gives an entry without EPOLLIN that data does not queue |
| IoWatcher.DeafLoses | cold/coro/IoWatcher.cpp:170-174 | when that entry is reported writable, the writer is resumed and the reader is lost |
| IoWatcher.StopWriteKeepsReaderIff | cold/coro/IoWatcher.cpp:87-102 | stopping a writer keeps the reader exactly when there is none or EPOLLIN is set |
| EdgeReaders.ArmKeeps | cold/net/IoAwaitable.h:78-89 | arming after EAGAIN loses nothing although data may come in between |
| EdgeReaders.TryIs | cold/net/IoAwaitable.h:78-84 | a try with data or a hang-up there takes all of it or a part and leaves the reader free; with neither the reader is about to wait |
| EdgeReaders.ArmIs | cold/net/IoAwaitable.h:86-89 | then nothing but arming comes, and it stores the reader's own handle |
| EdgeReaders.FailsIs | cold/net/IoAwaitable.h:195-203 | after another error a read returns at once, an accept is about to wait |
| EdgeReaders.TimeoutIs | cold/coro/Io.h:56-59 | a reader that waits can be timed out, and is disarmed then |
| EdgeReaders.WokenReadsAgain | cold/coro/IoService.cpp:47-52 | whoever was woken reads again: resuming the batch, in at most as many steps as it is long, gets to it |
| EdgeReaders.EventKeeps | cold/net/IoAwaitable.h:78-86 | data may come at any point and leaves an edge for whoever has tried or waits |
| EdgeReaders.WatchKeeps | cold/coro/IoWatcher.cpp:164-169 | edges that find nobody armed are thrown away and the invariant stays |
| EdgeReaders.NoLostWakeup | cold/net/IoAwaitable.h:78-120 | in every reachable state of every run, a reader that waits while there is something to read has an edge pending, unless it is an acceptor whose last accept failed, for another reason than EAGAIN, with the edge gone; one that has been woken will be resumed and finds something |
| EdgeReaders.WatchWakesIff | cold/coro/IoWatcher.cpp:135-179 | an epoll_wait wakes an armed reader exactly when it looks at its descriptor and there is something to read |
| EdgeReaders.WokenIff | cold/coro/IoWatcher.cpp:135-179 | a waiting reader is woken in some continuation without anything new at its descriptor if and only if there is something to read and its edge is pending; else in none |
| EdgeReaders.FailedAcceptIff | cold/net/IoAwaitable.h:195-203 | an acceptor that arms after another error is woken in some continuation without anything new at its descriptor exactly when a connection is there and its edge had not been taken |
| EdgeReaders.ConnectionOverlooked | cold/coro/IoWatcher.cpp:164-169 | a run from the start: a listening descriptor, a connection, an epoll_wait with nobody armed, and the connection is there without an edge |
| EdgeReaders.OverlookedStays | cold/net/IoAwaitable.h:195-203 | an accept that fails then waits with the connection there, and no continuation without anything new wakes it |
| EdgeReaders.SleepsOn | cold/coro/IoWatcher.cpp:135-179 | a reader without a pending edge, or without anything to read, stays unwoken through every continuation with nothing new at its descriptor |
| TimedIo.BeginKeeps | cold/coro/Io.h:82-96 | starting a timed operation keeps the invariant: the new one is in one place, a spawned task, with its timer set |
| TimedIo.BeginIs | cold/coro/Io.h:82-96 | starting one adds an operation not started yet, a pending task and a timer with the expiry asked for, and wakes the loop |
| TimedIo.TimersFireIff | cold/coro/IoService.cpp:35-46 | the timer phase fires the timers set whose expiry is not after now, and no other timer changes |
| TimedIo.DueIff | cold/coro/IoService.cpp:47-52 | the I/O phase takes up the operations that wait where epoll reported their direction |
| TimedIo.EndsIff | cold/coro/Io.h:82-101 | a task that finds its descriptor ready, an expired timer, and a coroutine resumed by the watcher end their operation, timed out only by the timer, the timer cancelled otherwise; a task that finds nothing waits at its descriptor with its own handle |
| TimedIo.OthersEndNothing | cold/coro/IoService.cpp:20-60 | no other step ends an operation |
| TimedIo.LoopCanMove | cold/coro/IoService.cpp:20-60 | in every state the loop has a step, in the order of its phases and whatever the time |
| TimedIo.RunKeeps | cold/coro/IoService.cpp:29-33 | running a task keeps the invariant: it has resumed its outer coroutine and cancelled its timer, or waits at its descriptor |
| TimedIo.FiredOnce | cold/coro/IoService.cpp:35-40 | each expired valid timer leaves the queue and is fired once |
| TimedIo.FireKeeps | cold/coro/Io.h:56-59 | a timer that fires keeps the invariant: the descriptor is disarmed, the outer coroutine resumed once, and nothing of the operation left |
| TimedIo.WatchMoves | cold/coro/IoService.cpp:48-52 | WatchIo moves each handle from the table to the batch or leaves it |
| TimedIo.ResumeKeeps | cold/coro/Io.h:98-101 | an I/O that comes keeps the invariant: the timer is invalid, the outer coroutine resumed once, and nothing of the operation left |
| TimedIo.StepKeeps | cold/coro/IoService.cpp:22-64 | every step of the loop in which no timer of a task not yet started fires keeps the invariant |
| TimedIo.ResumedExactlyOnce | cold/coro/Io.h:82-101 | in every such run an operation resumes its coroutine at most once, by the I/O or by the timeout; until then it is in one place with its timer set or firing; afterwards nothing is left that could resume it again |
| TimedIo.TasksWakeTheLoop | cold/coro/IoService.cpp:72-76 | a spawned task that the loop has not taken up keeps its next epoll_wait from sleeping |
| TimedIo.HurriedIff | cold/coro/IoService.cpp:35-46 | a timer is fired whose task has not started exactly when such a timer has expired at HandleTimeout |
| TimedIo.RoundInOrderIff | cold/coro/IoService.cpp:35-46 | after a round of expired timers, whatever else the resumed coroutines and the kernel did meanwhile, every operation is in order if and only if no timer was due whose task had not started |
| TimedIo.TimerTooEarly | cold/coro/Io.h:82-96 | a run from the start of the loop: a read begins in the pending phase with its time up, its timer starts its task, and whether the read then succeeds at once or waits, an ended coroutine is resumed in the end |
| WebSocketFrames.VerdictStands | cold/net/http/WebSocketParser.cpp:29-65 | a verdict on the front of the buffer is not changed by more bytes |
| WebSocketFrames.PartialIsForgotten | cold/net/http/WebSocketParser.cpp:33-62 | what an unfinished attempt wrote into the frame is written over |
| WebSocketFrames.EncodingDecodes | cold/net/http/WebSocketParser.cpp:29-82 | every frame, in each of the three length forms, masked or not, is read back with flags, opcode, key and payload, whatever follows |
| WebSocketFrames.MaskTwice | cold/net/http/WebSocketParser.cpp:72-76 | unmasking undoes masking |
| WebSocketFrames.XorIsBitwise | cold/net/http/WebSocketParser.cpp:72-76 | every bit of a masked byte is the sum of the bits of byte and key, modulo two |
| WebSocketFrames.MaskedHello | cold/net/http/WebSocketParser.cpp:52-80 | the masked frame of section 5.7 decodes to the text Hello |
| WebSocketFrames.MaskedLetter | cold/net/http/WebSocketParser.cpp:72-76 | the byte 0x60 under the key byte 0x01 is delivered as 0x61 |
| WebSocketFrames.PlainHello | cold/net/http/WebSocketParser.cpp:29-80 | the unmasked frame of section 5.7 decodes to the text Hello |
| WebSocketFrames.HeaderFields | cold/net/http/WebSocketParser.cpp:33-46 | the bits of the two header bytes: FIN, three that are ignored, opcode, mask bit, length |
| WebSocketFrames.ErrorIff | cold/net/http/WebSocketParser.cpp:39-41 | decoding fails exactly on two bytes or more with opcode 3 to 7 or 11 |
| WebSocketFrames.BigEndianByte | cold/net/http/WebSocketParser.cpp:110-125 | of an extended length the most significant byte comes first |
| WebSocketFrames.LongerLengths | cold/net/http/WebSocketParser.cpp:55-63 | the headers of 256 and 65536 bytes, in two and eight bytes of length |
| WebSocketFrames.GreatestLengthWraps | cold/net/http/WebSocketParser.cpp:64-71 | a length of 2^64 - 1 makes the sum wrap, and the header alone passes for a whole frame whose payload cannot be reserved |
| WebSocketFrames.BigEndianRoundTrip | cold/net/http/WebSocketParser.cpp:55-63 | extended lengths survive the change of byte order |
| WebSocketParser.AttemptProgress | cold/net/http/WebSocketParser.cpp:11-14 | each successful attempt consumes at least two bytes, so the loop ends |
| WebSocketParser.ChunksJoin | cold/net/http/WebSocketParser.cpp:9-99 | from every state, Parse(a) then Parse(b) leaves status, completed frames, partial frame and buffer as Parse(a ++ b) |
| WebSocketParser.AnyCutting | cold/net/http/WebSocketParser.cpp:9-16 | the same for any number of chunks |
| WebSocketParser.ErrorSticks | cold/net/http/WebSocketParser.cpp:40-41 | after an error no input completes a frame or changes the verdict |
| WebSocketParser.CompleteAppends | cold/net/http/WebSocketParser.cpp:95-95 | frames are completed in order, whatever the caller has taken out |
| WebSocketParser.ParserAssembles | cold/net/http/WebSocketParser.cpp:83-97 | from the encodings of any frames the parser delivers what its merging rule says, and keeps the rest |
| WebSocketParser.MessageReassembled | cold/net/http/WebSocketParser.cpp:83-97 | a message in any number of fragments, each masked or not and in any form, comes out as one frame with the first opcode and the whole data |
| WebSocketParser.FollowsStandardIff | cold/net/http/WebSocketParser.cpp:85-94 | the parser does what sections 5.4 and 5.5 ask of a legal stream, and its assert holds, exactly when no control frame comes inside a fragmented message |
| WebSocketParser.PingIsSwallowed | cold/net/http/WebSocketParser.cpp:85-94 | a text fragment, a ping: the standard delivers the ping, the parser merges it |
| WebSocketParser.PrefixCompletes | cold/net/http/WebSocketParser.cpp:9-16 | frames completed on a prefix of a stream are a prefix of those completed on all of it |
| WebSocketParser.WebSocketParser.Parse | cold/net/http/WebSocketParser.cpp:9-16 | the object's fields and result after a chunk are those of the specification |
| WebSocketParser.WebSocketParser.DoParse | cold/net/http/WebSocketParser.cpp:18-99 | one attempt, with merging, is the specified attempt |
| WebSocketParser.WebSocketParser.ReadFrame | cold/net/http/WebSocketParser.cpp:29-51 | header fields, reserved opcodes and sizes are read as decoding says |
| WebSocketParser.WebSocketParser.ReadBody | cold/net/http/WebSocketParser.cpp:52-80 | extended length, key and payload are read as decoding says, with the sum of lengths wrapping in size_t |
| WebSocketParser.WebSocketParser.MergeFrames | cold/net/http/WebSocketParser.cpp:85-94 | the first frame with everybody's payload |
| WebSocketParser.WebSocketParser.TakeFrame | cold/net/http/WebSocketParser.h:37-41 | the oldest completed frame leaves, the others stay |
| WebSocketParser.WebSocketParser.MakeFrameToBuffer | cold/net/http/WebSocketParser.cpp:101-137 | what is appended is the encoding of a final frame in the shortest length form |
| WebSocketParser.FrameBytes | cold/net/http/WebSocketParser.cpp:101-137 | byte by byte: FIN and opcode, mask bit and the length in as few bytes as it fits, key, payload masked with it |
| WebSocketWriter.WebSocket.SendTask | cold/net/http/WebSocket.cpp:58-68 | the encoded frame is appended to the second buffer, and writing starts unless somebody writes |
| WebSocketWriter.WebSocket.NextRound | cold/net/http/WebSocket.cpp:85-87 | the loop head swaps the buffers, or leaves when closed or when there is nothing to write |
| WebSocketWriter.WebSocket.AfterWriteN | cold/net/http/WebSocket.cpp:88-96 | a complete write clears the buffer and goes on, anything else closes |
| WebSocketWriter.StepKeeps | cold/net/http/WebSocket.cpp:53-109 | every step of any task keeps: one writer, all bytes accounted for in order, none stranded |
| WebSocketWriter.WriterGuarantees | cold/net/http/WebSocket.cpp:53-109 | over every run: at most one DoWrite; the bytes enqueued are those on the wire, then the unsent part of the first buffer, then the second; waiting bytes on a live connection have a writer |
| WebSocketWriter.AnyFrameStarts | cold/net/http/WebSocket.cpp:53-109 | in every state a task can enqueue any frame, whole and last; on an idle live connection it starts writing, and whoever writes goes on writing |
| WebSocketWriter.PartKeepsWriting | cold/net/http/WebSocket.cpp:83-98 | a write of a part leaves its task writing, the connection alive and the buffers as they are |
| WebSocketWriter.TwoWritesDrain | cold/net/http/WebSocket.cpp:83-98 | on a live connection with a writer two writes that succeed put all that is queued on the wire and end it; the connection is closed then only by Close's task |
| WebSocketEndToEnd.TurnKeeps | cold/net/http/WebSocket.cpp:12-30 | one turn of DoRead keeps frames taken and waiting those of the bytes received |
| WebSocketEndToEnd.TurnGoesOn | cold/net/http/WebSocket.cpp:29-50 | a turn that parses takes the first frame there is, and leaves the reader reading exactly when there is none or it is text, binary, ping or pong |
| WebSocketEndToEnd.ReadsOnIff | cold/net/http/WebSocket.cpp:17-50 | over every run the peer can read more of the wire if and only if all frames taken were text, binary, ping or pong |
| WebSocketEndToEnd.FramesArriveInOrder | cold/net/http/WebSocket.cpp:12-109 | for every interleaving of sends, every schedule of partial writes and every cutting into reads, the peer's parser never fails and its frames are the first of those enqueued, in order and byte for byte |
| WebSocketEndToEnd.AllFramesArrive | cold/net/http/WebSocket.cpp:83-98 | when nobody writes on a live connection and the wire has been read, they are all of them |
| WebSocketEndToEnd.OneTurnOneFrame | cold/net/http/WebSocket.cpp:24-30 | of any frames that arrive in the first read the first is handed over and the others wait |
| WebSocketEndToEnd.TurnTakesOne | cold/net/http/WebSocket.cpp:19-30 | of the frames there are after a read, those left before and those it completes, one is taken |
| WebSocketEndToEnd.NothingWaitsIff | cold/net/http/WebSocket.cpp:12-30 | after any reads on a connection that goes on, no frame waits if and only if no last k reads have completed more than k frames |
| RequestParser.TurnStands | examples/simple/simplehttp/RequestParser.cpp:80-182 | a turn of the loop that had enough text has the same outcome with more, the 8-character cutoff of the method included |
| RequestParser.RunStands | examples/simple/simplehttp/RequestParser.cpp:75-184 | after KEEP more text leads where the whole text leads, OK stays OK with the remainder extended, BAD stays BAD |
| RequestParser.PiecesJoin | examples/simple/simplehttp/RequestParser.cpp:75-79 | two Parse calls after KEEP give verdict, request and remainder of one call |
| RequestParser.AnyCutting | examples/simple/simplehttp/RequestParser.cpp:75-184 | any cutting of the text recovers the same requests and the same verdict |
| RequestParser.Pipelined | examples/simple/simplehttp/RequestParser.cpp:165-180 | n texts that are one request each, one after the other, give those n requests in order and nothing over |
| RequestParser.PipelinedUnderAnyCut | examples/simple/simplehttp/RequestParser.cpp:75-184 | the same however the text is cut |
| RequestParser.OneRequestPerRead | examples/simple/simplehttp/RequestParser.cpp:165-180 | of requests that come in one piece Parse completes the first, the others stay in the parser |
| RequestParser.TurnAnswersOne | examples/simple/simplehttp/HttpServer.cpp:39-63 | of the requests whole after a read, those left before and those it completes, one is answered |
| RequestParser.NothingWaitsIff | examples/simple/simplehttp/HttpServer.cpp:39-63 | after any reads on a connection that goes on, no whole request waits if and only if no last k reads have completed more than k requests |
| Pacing.WaitingIsExcess | examples/simple/simplehttp/HttpServer.cpp:39-63 | the number that waits is the greatest excess, over any last k reads, of what they complete over k |
| RequestParser.WrittenParses | examples/simple/simplehttp/RequestParser.cpp:75-184 | a request written down of acceptable pieces, with a body of the announced length, is one request: it parses into the one meant, nothing left |
| RequestParser.WrittenVerdict | examples/simple/simplehttp/RequestParser.cpp:75-184 | every text with the separators of a request is BAD if and only if its method is none of the nine, its target empty or with a control character, its version not 1.0 or 1.1, a header name empty or a value without a space and something before its end, or a Content-Length not all digits; else OK exactly when the body announced is there, with the request meant and the text after its body kept, else KEEP |
| RequestParser.CompletesIff | examples/simple/simplehttp/RequestParser.cpp:75-184 | a text completes a request if and only if it can be written down so, of acceptable pieces and with body enough, and the request is the one written |
| RequestParser.NeverBadEarly | examples/simple/simplehttp/RequestParser.cpp:75-184 | no beginning of such a text is BAD |
| RequestParser.NoSpaceYet | examples/simple/simplehttp/RequestParser.cpp:81-94 | without a space the verdict is KEEP up to seven characters and BAD from eight on |
| RequestParser.BodyIsAnnounced | examples/simple/simplehttp/RequestParser.cpp:69-73 | the body of a completed request is as long as its own Content-Length says in decimal, up to LONG_MAX, and empty without one |
| RequestParser.LastValueCounts | examples/simple/simplehttp/RequestParser.cpp:52-61 | the value of a header is what stands behind the space in the last one of its name |
| RequestParser.NamesThere | examples/simple/simplehttp/RequestParser.cpp:60-60 | and the names in a request are those written |
| RequestParser.ServerTakes | examples/simple/simplehttp/HttpServer.cpp:49-62 | of a first read the server answers the request and goes on exactly for version 1.1, waits while the body is short, and closes when a piece is not acceptable |
| RequestParser.TargetIsWhole | examples/simple/simplehttp/RequestParser.cpp:15-34 | the target of an accepted request is its path, query and fragment put together again, cut at the last # and then the last ? |
| RequestParser.LengthStaysDigits | examples/simple/simplehttp/RequestParser.cpp:56-60 | a Content-Length in a request parsed from an empty one is all digits |
| RequestParser.AtolSaturates | examples/simple/simplehttp/RequestParser.cpp:72-72 | on digits the body size is their value, up to LONG_MAX |
| RequestParser.RequestParser.Parse | examples/simple/simplehttp/RequestParser.cpp:75-184 | verdict, request and, unless BAD, the parser's fields are those of the specification; the loop ends |
| RequestParser.RequestParser.Reset | examples/simple/simplehttp/RequestParser.h:17-20 | back to the method state with nothing unsolved |
| StringUtils.SplitToViews | cold/util/StringUtils.h:15-34 | the views collected are those of the specification |
| StringUtils.CollectsPieces | cold/util/StringUtils.h:20-32 | they are the pieces between delimiters, or the non-empty ones |
| StringUtils.PiecesJoin | cold/util/StringUtils.h:20-32 | the pieces joined by the delimiter are the string again |
| StringUtils.PiecesFree | cold/util/StringUtils.h:20-32 | no piece contains the delimiter |
| StringUtils.PiecesUnique | cold/util/StringUtils.h:20-32 | no other list of strings is like that |
| StringUtils.SplitUrl | cold/util/StringUtils.h:15-34 | what becomes of /a/** with and without empty pieces |
| Router.Tree.Reach | cold/net/http/Router.h:54-65 | walking makes the nodes that are missing on the path, blank, and changes no other, in place on the heap |
| Router.InsertServlet | cold/net/http/Router.h:54-67 | the servlet replaces the one at the path |
| Router.InsertFilter | cold/net/http/Router.h:99-112 | the filter is added behind those at the path |
| Router.ServletInserted | cold/net/http/Router.h:54-67 | inserting in the tree is adding a route to the flat list |
| Router.FilterInserted | cold/net/http/Router.h:99-112 | the same for filters |
| Router.ServletRouter.AddRoute | cold/net/http/Router.h:33-35 | the list of routes grows by the path split from the URL, and the tree still agrees with it |
| Router.ServletRouter.MatchServlet | cold/net/http/Router.h:69-84 | after any routes: the last servlet at the exact path, else the last one of the wildcard where the path first leaves the routes, else none |
| Router.FilterRouter.AddRoute | cold/net/http/Router.h:29-31 | the same for filters |
| Router.FilterRouter.MatchFilters | cold/net/http/Router.h:114-137 | the wildcard filters of each node on the way, outermost first and in order of insertion, then those at the exact path |
| Router.ServedIff | cold/net/http/Router.h:69-84 | a path is served by the last route of its own path or of the path that ends in ** where it leaves all routes, and by no other |
| Router.FilteredIff | cold/net/http/Router.h:114-137 | the filters of a path are those added at it and those added at ** anywhere above it |
| Router.WildcardWins | cold/net/http/Router.h:74-77 | the servlet added last at a path and ** gets every path that leaves the routes there |
| Router.AddedWins | cold/net/http/Router.h:66-66 | the servlet added last at a path is the one that path gets |
| Router.InteriorGetsNothing | cold/net/http/Router.h:82-83 | a path that only leads on to routes gets none, whatever wildcards it passed |
| Base64.Base64Encode | cold/util/Crypto.h:86-125 | the shifts and table look-ups give the symbols of each group, with padding |
| Base64.Base64Decode | cold/util/Crypto.h:22-84 | the bytes that the text stands for, or nothing; every write is inside a buffer of three quarters of the input |
| Base64.PackedSixes | cold/util/Crypto.h:113-120 | the packed number cut into sixes |
| Base64.PackedBytes | cold/util/Crypto.h:73-79 | the packed number cut into bytes |
| Base64.ChecksRead | cold/util/Crypto.h:34-71 | the checks made character by character accept exactly the groups of symbols with at most two pads at the end |
| Base64.SymbolsMatch | cold/util/Crypto.h:46-59 | the decoder's ranges invert the symbols |
| Base64.TableIs | cold/util/Crypto.h:87-88 | the encoder's table is the same alphabet |
| Base64.RoundTrip | cold/util/Crypto.h:22-125 | decoding undoes encoding on all bytes, and the length is 4 * ceil(n / 3) |
| Base64.VectorOfOne | cold/util/Crypto.h:86-125 | the vector of section 10 for one byte |
| Base64.VectorOfTwo | cold/util/Crypto.h:86-125 | for two |
| Base64.VectorOfThree | cold/util/Crypto.h:86-125 | for three |
| Base64.Reencoded | cold/util/Crypto.h:22-125 | encoding an accepted text again gives it back up to the unused bits of its last symbol |
| Base64.CanonicalIff | cold/util/Crypto.h:22-125 | it gives exactly the text if and only if those bits are zero |
| Base64.DecodedFits | cold/util/Crypto.h:24-24 | the bytes of an accepted text fit in three quarters of its length |
| LogFormatter.CompilingMeans | cold/log/LogFormatter.cpp:225-255 | compilation fails exactly when the pattern read character by character means nothing; else formatting with the sequence is interpreting the pattern |
| LogFormatter.FlagShows | cold/log/LogFormatter.cpp:179-218 | what each of the eleven flags shows of a message, each level by its text, and that no other character is a flag |
| LogFormatter.DecimalIs | cold/log/LogFormatter.cpp:69-75 | a line number is shown in digits, without leading zeros, that say what it is |
| LogFormatter.CompiledIsTidy | cold/log/LogFormatter.cpp:239-252 | text nodes are not empty and never adjacent |
| LogFormatter.CloneFormatsAlike | cold/log/LogFormatter.cpp:265-271 | a clone compiles exactly when the original does, and formats every message alike if the clones of custom flags do |
| LogFormatter.LogFormatter.CompilePattern | cold/log/LogFormatter.cpp:225-255 | the loop computes the specified sequence; on failure the old one stays |
| LogFormatter.LogFormatter.Format | cold/log/LogFormatter.h:46-50 | what the pattern means is appended to the buffer |
| LogFormatter.LogFormatter.SetPattern | cold/log/LogFormatter.cpp:273-276 | the sequence is that of the new pattern |
| LogFormatter.LogFormatter.Clone | cold/log/LogFormatter.cpp:265-271 | a new formatter with the same pattern and cloned flags, which never aborts |
| LocalTimeFormatter.LocalTimeFormatter.Format | cold/log/LogFormatter.cpp:155-171 | the buffer gains the cached date, refreshed when the second changed, and the milliseconds |
| LocalTimeFormatter.ShownRightIff | cold/log/LogFormatter.cpp:155-175 | a time is shown as the decimal digits of its date and thousandths, rounded down, if and only if the formatter has been given some other second than 0 and the time is not in the middle of a second before 1970 |
| LocalTimeFormatter.DateIsRight | cold/log/LogFormatter.cpp:139-153 | padding writes the decimal digits of years and of two-digit fields |
| LocalTimeFormatter.SignForDigit | cold/log/LogFormatter.cpp:144-148 | at -1500 ms the thousandths come out as +00 and should be 500 |

## Left out

* AsyncMutex, ConditionVariable, EdgeReaders and TimedIo are transition systems on values instead
  of classes with methods, because their point is what happens between two steps of one method;
  links between waiters are a map from a coroutine to the next. The WebSocket writer is both: a
  class for each segment between suspensions, and the transition system of all tasks.
* Memory orders (all steps are sequentially consistent), coroutine frames and their lifetime: a
  coroutine is an id with a program counter.
* ConditionVariable: Wait and the notifications are called with the mutex held.
* ConditionVariable.NotifyAllDelivers: works on the list as NotifyAll took it, although the code
  reads `next_` of an awaiter after resuming it, when that awaiter is gone.
* One service is driven by one thread; epoll_ctl succeeds; a descriptor has one reader and, for
  timed operations, one operation for each direction at a time.
* TimedIo: a descriptor is not destroyed while a timed operation waits on it. The code would
  violate the assert in StopListeningReadEvent or StopListeningWriteEvent then.
* TimedIo: plain waits and sleep timers beside the timed operations, which `EdgeReaders` and
  `TimerQueue` cover on their own; completed tasks being erased.
* ReadAwaitable's and WriteAwaitable's return values, and errno.
* detail::AsyncRead and RecvFromAwaitable, which do not try before they arm.
* TcpSocket's ReadN and WriteN as loops of their own: the writer's steps `Written` and `Failed` are
  WriteN's loop, with any number of partial writes, also of no bytes. Nothing is claimed about its
  ending when writes take no bytes for ever.
* The kernel: sockets, epoll, eventfd and files are the small model in `IoWatcher`. EPOLLERR and
  EPOLLHUP are one flag. The growth of the event vector is not modelled.
* WebSocketParser: the assert on merged frames is taken as compiled out, and
  `FollowsStandardIff` says when it would fail. A 64-bit length whose sum with the header wraps
  size_t makes `reserve` throw; that is a status of its own. Opcodes 0xc to 0xf, reserved by the
  standard as well, are accepted by the code and so by the model. The random masking key is an
  argument.
* WebSocket: callbacks, ping timeout and the reply to a ping; a task may start with any valid
  opcode.
* RequestParser: what happens after BAD. atol beyond LONG_MAX is glibc's saturation. iscntrl and
  isdigit are those of the C locale, on characters below 128. The eight-character branch of the
  method state cannot accept, and the model ends it there.
* Router: servlets and filters are numbers. The two node classes are one class with the value at a
  node as a type parameter, and the two trees are two routers.
* LogFormatter: a local time node inside a compiled pattern formats by a given function, and
  `ShownRightIff` says when the cached formatter agrees with it. A string that has been moved from
  is taken to be empty.
* LocalTimeFormatter: the calendar is a function of the second, years have four digits.
* WebSocketEndToEnd.NothingWaitsIff: the peer's timeout, which closes a connection, is not in the
  model; neither is a failure to write the answer in RequestParser.NothingWaitsIff.
* SSL, RPC, HttpRequestParser (llhttp is not part of this model), HttpServer, sessions, static
  files, Config, log sinks, thread wrappers, UrlEncode, ParseKV.
