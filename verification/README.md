# A model of roc-net's host runtime

roc-net's host runs Roc programs as tasks on a few worker threads, and gives them sockets, channels, encrypted streams, logs, standard input and signals. Its guarantees live in small concurrent state machines and in loops that turn an arbitrarily interrupted byte stream into something orderly. This project models those and proves what they promise, for every run and every input.

`dafny verify dfyconfig.toml` checks all of it.

## What is modelled, and how

**Scheduling.** `Sched` is a transition system with any number of tasks, workers and plain threads: state bits, wait ids, outcomes, run queues, the injected queue, stealing, timers and cancelling. `SchedPlaces` proves where each task is, `SchedWaits` that no wake-up is lost, that waits end for true reasons, that cancelling reaches every wait and that timers end with their waits, and `SchedClaims` that a wait ends once, for the reason its claim recorded. `Scope` runs a task group on top of that scheduler. `Readiness` is one socket under edge-triggered events, with ownership moving between workers.

- Each mutex section and each atomic operation on a task's state bits is one step, and the steps of all threads interleave freely and sequentially consistently.
- Two groups of operations are one step each: the three stores at the start of `begin_wait`, and a wake-up's claim of a wait id with its store of the outcome (`schedule` is a later, separate step). Where each task is does not depend on this; how a wait ended does.
- A task begins a wait only when it is in none, as all callers of `begin_wait` do (src/sched.rs:1049, 1133, 1220, 1268), and commits to suspending for it without having yielded since it last looked at it, as `park` does (src/sched.rs:1286-1291). `NoLostWakeup` rests on this: `SchedStale.StaleCommitSleeps` is a run in which a task that did not look again would sleep for ever.
- Registering with an event queue, and starting a thread, succeed.

**Waiting lists.** `Waiting` is the `Waiters` list, as an object and as a list together with what has become of each wait started for it. `Pool` (locks, helper threads, heap slots) and `Channel` are built on it, each both as a state machine over mutex sections and as objects whose methods are those sections. In them a waiter comes back cancelled only from a wait that cancelling ended, never from one that a wake-up claimed; `SchedClaims.ClaimDecides` is that fact of the scheduler.

**Byte streams.** `Noise` and `NoiseSession` are the encrypted transport over a wire that delivers any bytes in any pieces, with an ideal cipher: a message opens only if it is what the peer sealed with that number. `Copy` is one-way copying, with a script of what each system call does as its input, so that its contracts hold for every pattern of short reads, blocking, partial writes and failures. `Stdin` reads lines from a buffer.

**Logging.** `Calendar` and `Timestamp` are dates and RFC 3339 timestamps. `Escape`, `LogLine` and `FormatLine` are the formatting of a line, against readers that take the line apart again. `LogQueue` and `LogMachine` are the queue and the writer thread.

**Ownership.** `Slots` is the resource heap. `Signals` is the hand-off from signal handlers to tasks.

Methods with loops in the source are methods here, proved against the functions that specify them. State that the source changes in place is in classes (`Waiting.Waiters`, `Pool.Units`, `Channel.ChannelState`, `Noise.Sender`, `Noise.Receiver`, `LogQueue.SharedQueue`, `Slots.ResourceHeap`), whose methods are tied to the same functions the state machines step by.

### Where the code and its documentation differ

- platform/Task.roc:103-106 says no task started in a scope is still running when it returns. That holds exactly of scopes to which nothing is added once the close has taken the group's list (`Scope.ScopeLeavesNoneRunning`, with the run `Scope.LateTaskOutlivesScope`).
- src/log.rs:11-12 says the log holds no more than its cap, give or take one line. That is so exactly when no line is longer than the cap (`LogMachine.OneLineOver`); the cap may be as low as 4 KiB, and a line may have more than 64 KiB.
- src/log.rs:274-275 promises RFC 3339. Years before 0 and after 9999 would be written in a way that is no timestamp at all, and all others read back (`Timestamp.TimestampReadsBack`). No such year reaches it: its caller passes a reading of the clock, which lies between 1677 and 2262 (src/log.rs:102, 255-265), and all of those read back (`Timestamp.ClockReadsBack`).

## Model

| member | source | states |
|---|---|---|
| SchedPlaces.ExactlyOnePlace | src/sched.rs:181-220 | in every reachable state a task is suspended, done, or in exactly one place (a run queue, the injected queue, a thread's hands), its bits say which, and at most one worker has its coroutine |
| SchedPlaces.InvKept | src/sched.rs:480-518 | every step of every thread keeps one place per task, places agreeing with bits, and every queued or running task placed |
| SchedPlaces.InvHolds | src/sched.rs:480-518 | every run keeps one place per task, places agreeing with bits, and every queued or running task placed |
| SchedPlaces.InvInit | src/sched.rs:767-780 | all of that holds before anything runs |
| SchedPlaces.StepMoves | src/sched.rs:585-623 | every step moves tasks by nothing, by shifting the front of one place to the end of another, by one entering, or by one leaving |
| SchedPlaces.OnePlaceKept | src/sched.rs:599-623 | moving tasks so never puts one in two places |
| SchedPlaces.AgreeAt | src/sched.rs:181-195 | a task wherever it is after a step has the bits of that place |
| SchedPlaces.EnterFresh | src/sched.rs:181-195 | a task that is marked for queueing was nowhere before |
| SchedPlaces.PlacedKept | src/sched.rs:494-518 | a task that is neither suspended nor done after a step is somewhere |
| SchedPlaces.QueueMoves | src/sched.rs:585-623 | what popping, requeueing, taking injected tasks, stealing and delivering do to every place |
| SchedPlaces.RunMoves | src/sched.rs:480-518 | what resuming and settling a task do to every place |
| SchedPlaces.WakerMoves | src/sched.rs:168-220 | what waking, scheduling and pushing do to every place |
| SchedWaits.NoLostWakeup | src/sched.rs:168-195 | a suspended task whose wait was claimed has its claimant on the way to `schedule`; with nobody in the middle of anything with that task, it is queued or running |
| SchedWaits.OutcomesAreTrue | src/sched.rs:905-935 | Cancelled only if the wait was cancellable and the task cancelled, TimedOut only after the wait's own deadline |
| SchedWaits.CancelReaches | src/sched.rs:808-816 | once no canceller of it is under way and it is not beginning a wait, in either order, no cancellable wait of a cancelled task is unclaimed, whatever else is being done with the task |
| SchedWaits.TimersEndWithWaits | src/sched.rs:567-583 | a timer that is set belongs to a task still in the wait it was set for, one at most |
| SchedWaits.InvKept | src/sched.rs:905-935 | every step keeps what is true of waits: their outcomes, timers, wakers and cancellers |
| SchedWaits.InvHolds | src/sched.rs:905-935 | every run keeps that |
| SchedWaits.Reached | src/sched.rs:767-780 | every reachable state satisfies the invariants of places and of waits |
| SchedWaits.WokenKept | src/sched.rs:494-499 | after any step a task in need of a waker has one under way, also when woken while suspending |
| SchedWaits.CancelKept | src/sched.rs:808-816 | after any step a cancelled task's wait in need of cancelling has a canceller under way, or is still beginning |
| SchedWaits.TimerKept | src/sched.rs:905-920 | after any step each set timer is its task's own, for the wait it is in |
| SchedWaits.DueKept | src/sched.rs:567-583 | after any step each timer collected to fire is due, and is its wait's own deadline |
| SchedWaits.TaskKept | src/sched.rs:925-935 | after any step each task's phase, bits, timer and recorded outcome fit together |
| SchedWaits.ThreadKept | src/sched.rs:808-816 | after any step what a thread in the middle of cancelling has seen is still meaningful |
| SchedWaits.SteppedOutcome | src/sched.rs:1278-1292 | a task's own steps keep its recorded outcome true |
| SchedWaits.RunNeedsNoOther | src/sched.rs:480-518 | a turn of `run_task` leaves no wait in need of a waker that was not in need before |
| SchedClaims.ClaimDecides | src/sched.rs:168-176 | over every run, until its task begins another wait, what a wait reads is what the step that claimed it recorded: one claimed by a wake-up never reads Cancelled or TimedOut |
| SchedClaims.RunFollows | src/sched.rs:925-935 | over every run the ids of a task's waits only grow, and how a wait ended is settled until the next |
| SchedClaims.StepFollows | src/sched.rs:168-176 | every step keeps that, and a wait it ends is ended for the reason it records |
| SchedStale.StaleCommitSleeps | src/sched.rs:1286-1291 | a run to a state from which suspending for a wait without looking at it again sleeps with the wait claimed and nobody to wake it |
| SchedStale.FromStart | src/sched.rs:480-518 | the run there, step by step: spawned, waiting, woken, yielding, resumed |
| Scope.AddTask | src/tasks.rs:287-302 | adding keeps the unfinished tasks in order and appends the new one |
| Scope.ScopeOutlastsTasks | src/tasks.rs:319-334 | when a close has returned, every task added before it took the list has finished, whatever was cancelled |
| Scope.ScopeLeavesNoneRunning | platform/Task.roc:103-106 | over all runs no task of a scope is left running when the close returns, exactly if none may be added once it has taken the list |
| Scope.LateTaskOutlivesScope | src/tasks.rs:319-334 | a run from the start in which one is added then, and is left running |
| Scope.GroupInvKept | src/sched.rs:862-877 | every step of the scheduler and of the group loses track of no unfinished task |
| Scope.GroupInvHolds | src/tasks.rs:319-334 | every run of a scheduler and a group loses track of no unfinished task |
| Scope.FinishedStays | src/sched.rs:505-509 | a finished task stays finished |
| Scope.UncancellableStays | src/sched.rs:862-877 | nothing but the closing task itself can make its wait cancellable |
| Scope.Unfinished | src/tasks.rs:292-300 | exactly the unfinished tasks are kept |
| Readiness.ReadinessNeverMissed | src/sched.rs:520-565 | while a socket is ready in a direction a listed task waits for, an event is pending at the owner's queue or in the owner's hands |
| Readiness.ComingArrives | src/sched.rs:520-565 | the owner gets from there to the waiter by polling and handling alone |
| Readiness.HandleWakes | src/sched.rs:548-562 | handling an event takes each waiter for it off the list, to be woken |
| Readiness.WatchKeepsPromise | src/sched.rs:1075-1117 | watching on the owning worker is safe exactly when the direction is not ready or its event is still to come, which is why a wait follows a WouldBlock |
| Readiness.ClosedListEmpty | src/sched.rs:1010-1020 | over every run, once the socket is closed nobody is listed, and nobody ever joins again |
| Readiness.CloseWakesAll | src/sched.rs:1010-1020 | everyone listed when it is closed is woken: in every later state their waits are claimed or about to be |
| Readiness.InvKept | src/sched.rs:1041-1117 | every step, and every move of ownership, keeps an event coming for each listed waiter of a ready direction |
| Readiness.InvHolds | src/sched.rs:1041-1117 | every run keeps that |
| Readiness.BlockedKept | src/sockets.rs:135-155 | what became ready since a running task's WouldBlock stays in its worker's queue |
| Readiness.MissedNoneKept | src/sched.rs:1075-1117 | no step leaves a listed waiter of a ready direction without an event |
| Readiness.Split | src/sched.rs:549-559 | one pass keeps the waiters for other directions and takes those for this one, in order |
| Waiting.Waiters.constructor | src/sched.rs:1319-1321 | an empty list, with no id drawn |
| Waiting.Waiters.Add | src/sched.rs:1324-1339 | ids are drawn in order and listed at the end |
| Waiting.Waiters.Remove | src/sched.rs:1341-1343 | the list without that id |
| Waiting.Waiters.WakeOne | src/sched.rs:1349-1355 | the first task still waiting is woken; those before it are dropped |
| Waiting.Waiters.WakeAll | src/sched.rs:1357-1361 | every task still waiting is woken, and the list is empty |
| Waiting.Waiters.WakeFrom | src/sched.rs:1370-1376 | those listed since an id are woken, and the older ones kept |
| Waiting.SleeperFound | src/sched.rs:1349-1355 | what is skipped has ended, and the one found has not |
| Waiting.WakeOne | src/sched.rs:1349-1355 | a notification is never spent on a wait that has ended: one more is notified whenever anyone sleeps |
| Waiting.WakeAll | src/sched.rs:1357-1361 | nobody is left asleep, and everyone who was is notified |
| Waiting.Leave | src/sched.rs:1341-1343 | a returning task takes itself off the list and keeps the rest in order |
| Waiting.ParkedWakeOne | src/sched.rs:1349-1355 | waking changes what has become of a wait, and loses none |
| Waiting.BeforePrefix | src/sched.rs:1370-1376 | ids being in order, those older than an id are a prefix of the list |
| Pool.NotificationsNeverWasted | src/sched.rs:1407-1431 | over every run units are conserved, and while a waiter sleeps the free units are at most the woken waiters on their way |
| Pool.InvKept | src/sched.rs:1455-1474 | every step conserves units and wastes no notification, despite cancelling, deadlines, barging and early returns |
| Pool.InvHolds | src/resource.rs:90-111 | every run keeps that |
| Pool.Units.constructor | src/sched.rs:1388-1390 | all units free, nobody waiting |
| Pool.Units.TryTake | src/sched.rs:1398-1404 | a unit at once or not at all |
| Pool.Units.TakeOrList | src/sched.rs:1407-1421 | one turn of the waiting loop: a unit, or a listed wait |
| Pool.Units.TakeOrWait | src/resource.rs:90-96 | the same for a newcomer, as a step of the machine |
| Pool.Units.Return | src/resource.rs:97-104 | a waiter that is back takes itself off, and gives up, takes a unit or waits again |
| Pool.Units.FreeOne | src/sched.rs:1426-1431 | a unit more is free, and one waiter is woken |
| Pool.Units.GiveBack | src/resource.rs:107-111 | a unit comes back and wakes one waiter |
| Channel.ConservedInOrder | src/channels.rs:189-273 | accepted values are those received, then those dropped with the receiver, then the queue, in order; the queue is bounded, and empty once the receiver is gone |
| Channel.FatesAreFinal | src/channels.rs:189-224 | no value enters twice or after being refused, and every value offered is accepted, refused or with a waiting sender, one of these only |
| Channel.NobodySleepsThroughWork | src/channels.rs:67-76 | while a receiver (a sender) sleeps, each queued value (each free place) has a woken one on its way; nobody sleeps on a closed channel, and no Select watches a ready end |
| Channel.FifoKept | src/channels.rs:108-125 | every step keeps order and conservation |
| Channel.FatesKept | src/channels.rs:189-224 | every step keeps accepted, refused and waiting values apart |
| Channel.SendersStay | src/channels.rs:235-273 | no step but a sender's own changes which senders wait or what they offer |
| Channel.TrackKept | src/channels.rs:189-224 | no step lets a value vanish |
| Channel.TrackHolds | src/channels.rs:189-224 | no run lets a value vanish |
| Channel.DisciplineKept | src/channels.rs:67-84 | every step keeps the notification discipline |
| Channel.InvKept | src/channels.rs:189-273 | every step keeps order, fates and discipline |
| Channel.InvHolds | src/channels.rs:189-273 | every run keeps order, fates and discipline |
| Channel.SenderBackDiscipline | src/channels.rs:212-221 | a sender coming back, cancelled or not, wastes no notification |
| Channel.ReceiverBackDiscipline | src/channels.rs:263-270 | a receiver coming back, cancelled or late or not, wastes no notification |
| Channel.ChannelState.constructor | src/channels.rs:157-186 | an empty channel with four empty lists |
| Channel.ChannelState.TrySend | src/channels.rs:195-212 | one turn of the sending loop: sent, closed, full, or waiting, and what each does to the queue |
| Channel.ChannelState.Accept | src/channels.rs:67-71 | a value is appended, and one receiver and all watchers are woken |
| Channel.ChannelState.TryReceive | src/channels.rs:245-263 | one turn of the receiving loop: the oldest value, the end, nothing, or waiting |
| Channel.ChannelState.SenderReturns | src/channels.rs:212-221 | a sender back from waiting sends, waits again or gives up |
| Channel.ChannelState.ReceiverReturns | src/channels.rs:263-270 | likewise a receiver |
| Channel.ChannelState.WakeLists | src/channels.rs:78-84 | all four lists are woken |
| Channel.ChannelState.Close | src/channels.rs:95-100 | sending is closed, and everyone is woken |
| Channel.ChannelState.ReleaseReceiver | src/channels.rs:108-125 | the queue is dropped and stays empty, and everyone is woken |
| Noise.NoncesUnique | src/noise.rs:163-174 | over any writes, every number used is below 2^64 - 1, and no two are the same |
| Noise.NonceBytesDistinct | src/noise.rs:163-174 | so the nonces themselves are distinct, in either byte order |
| Noise.Chunks | src/noise.rs:446 | the pieces of a write are short enough to seal, not empty, and join to it |
| Noise.Sender.constructor | src/noise.rs:150-158 | a sender at its first number |
| Noise.Sender.NextNonce | src/noise.rs:163-174 | each number is used once, and the last is refused |
| Noise.Sender.SendMessage | src/noise.rs:447-459 | one piece becomes one frame, within 65,535 bytes |
| Noise.Sender.WriteAll | src/noise.rs:444-462 | a write becomes the frames of its pieces, in order |
| Noise.Receiver.constructor | src/noise.rs:177-192 | a receiver with nothing received |
| Noise.Receiver.Take | src/noise.rs:199-207 | at most so many of the opened bytes, in order |
| Noise.Receiver.ReceiveMore | src/noise.rs:358-365 | what arrives is appended; nothing means the end |
| Noise.Receiver.NextPlain | src/noise.rs:227-253 | the loop computes what the decoder specifies, in state and result |
| Noise.Receiver.OpenFront | src/noise.rs:245-251 | the message at the front is taken off and opened as the decoder specifies, or refused |
| NoiseSession.Soundness | src/noise.rs:227-253 | whatever bytes arrive in whatever pieces, what reads deliver is a prefix of what the peer wrote |
| NoiseSession.DeliversPrefix | src/noise.rs:227-253 | the same from any state in step with the peer |
| NoiseSession.SafeKept | src/noise.rs:227-253 | each arrival, write and read keeps them in step |
| NoiseSession.DecodeSafe | src/noise.rs:227-253 | one read delivers only the next of what was sealed |
| NoiseSession.NothingAfterFailure | src/noise.rs:228-249 | once a read has met a message that fails to authenticate, over every run after it no read delivers anything and every read fails |
| NoiseSession.FailureIsKept | src/noise.rs:247-250 | a read that fails so leaves the receiver failed |
| NoiseSession.WaitsOnlyUnreadable | src/noise.rs:219-221 | on any wire, a read that must wait leaves nothing readable |
| NoiseSession.FrontFrame | src/noise.rs:211-215 | a frame is found exactly when all of it has arrived |
| NoiseSession.DecodeHonest | src/noise.rs:219-253 | on an honest wire a read returns bytes, the end at a frame boundary, UnexpectedEof inside a frame, or must wait with nothing readable |
| NoiseSession.WriteHonest | src/noise.rs:444-462 | a write, as far as its messages got sent, keeps the connection honest, and has written all its data if all were |
| NoiseSession.HonestKept | src/noise.rs:358-365 | every write, arrival and read keeps an honest connection so |
| NoiseSession.HonestHolds | src/noise.rs:358-365 | every run of an honest connection keeps it so |
| NoiseSession.EndIsEverything | src/noise.rs:235-243 | an empty read at the end means everything was delivered |
| NoiseSession.ReadsGetEverything | src/noise.rs:199-253 | once all has arrived, enough reads of any sizes return all that was written |
| NoiseSession.Completeness | src/noise.rs:444-462 | over every list of writes of any data, every fragmentation and every sequence of reads, what is delivered is a prefix of the data written, and once all has arrived enough reads deliver all of it and then the end |
| Copy.CopyTo | src/copy.rs:425-440 | the sink gets the prefix, then the source from its start; a limit is never read past; it succeeds exactly when the limit was copied, or the source ended without one; if nothing fails, exactly when the source has enough; pooled pipes are empty |
| Copy.PrefixThenCopy | src/copy.rs:433-438 | a prefix and then a copy up to the limit past it is what `copy_to` promises |
| Copy.OneWay | src/copy.rs:390-396 | of one copy, spliced, buffered or one after the other: bytes in order, none past the limit, an end only where the source ends, a limit only when reached |
| Copy.Splice | src/copy.rs:569-641 | the same through a pipe; giving up leaves everything read written and counted |
| Copy.SpliceTurn | src/copy.rs:602-639 | one splice: a pipe is given back only when empty |
| Copy.Buffered | src/copy.rs:353-386 | the same through a buffer |
| Copy.BufferTurn | src/copy.rs:369-384 | one read and the write of it; an end is the source's, never the limit's |
| Copy.CarriesOn | src/copy.rs:563-568 | a splice carried on by a buffer is one copy |
| Copy.ChunkAdds | src/copy.rs:375-378 | a chunk extends what was copied, and what was counted once all of it is written |
| Copy.WriteAll | src/sockets.rs:165-174 | what is written is the start of what was asked, all of it exactly if that is reported |
| Copy.DrainPipe | src/copy.rs:623-634 | bytes leave the pipe for the sink in order, none lost |
| Copy.ForwardPipe | src/copy.rs:604-639 | a spliced chunk, as far as it got |
| Copy.ForwardBuffer | src/copy.rs:375-377 | a buffered chunk, as far as it got |
| Copy.GiveBackBuffer | src/copy.rs:270-279 | the pool keeps only buffers of the small size, and few |
| Copy.TakeBuffer | src/copy.rs:263-265 | a buffer taken has that size |
| Copy.GiveBackPipe | src/copy.rs:540-547 | giving back an empty pipe keeps all spare pipes empty, and few |
| Copy.TakePipe | src/copy.rs:531-536 | a pipe taken is empty |
| Calendar.CivilIsTheDate | src/log.rs:291-301 | for every integer day, a valid date of the calendar, whose day number it is |
| Calendar.CivilUndoesCounting | src/log.rs:291-301 | and counting to a valid date and back gives that date |
| Calendar.ConsecutiveDates | src/log.rs:291-301 | consecutive days have consecutive dates |
| Calendar.YearOfEraFits | src/log.rs:295-296 | the division formula finds the year of the era the day is in |
| Calendar.YearOfEraIs | src/log.rs:295 | it is the year given by centuries, four-year spans and days |
| Calendar.MarchMonthFits | src/log.rs:297-299 | the month formula finds the month the day of the year is in |
| Calendar.DayNumberIs | src/log.rs:291-301 | day numbers in eras, years from March and their months |
| Calendar.DayNumberGrows | src/log.rs:289-290 | later dates have greater day numbers |
| Timestamp.TimestampReadsBack | src/log.rs:276-287 | a timestamp reads back as its millisecond exactly from year 0 to 9999, and is none otherwise |
| Timestamp.ClockReadsBack | src/log.rs:255-265 | every reading of the clock reads back |
| Timestamp.OneTimestampEach | src/log.rs:276-287 | no other text reads as that millisecond |
| Timestamp.WrittenReadsBack | src/log.rs:280-286 | the fields of a timestamp read back |
| Timestamp.WrittenOfFields | src/log.rs:280-286 | writing the fields of a timestamp gives it back |
| Timestamp.MillisOfStamp | src/log.rs:277-279 | the fields are those of that millisecond |
| Timestamp.StampOfMillis | src/log.rs:277-279 | and of no other |
| Timestamp.PaddedFits | src/log.rs:280-286 | a number that fits its width fills it and reads back |
| Timestamp.FourDigitYears | src/log.rs:276-287 | which milliseconds have years of four digits |
| Timestamp.Rfc3339Chars | src/log.rs:276-287 | nothing in a timestamp needs escaping |
| Escape.JsonString | src/log.rs:414-428 | appends the string in quotes, escaped |
| Escape.Quote | src/log.rs:468-478 | likewise in text |
| Escape.EscapeControls | src/log.rs:432-442 | appends the string with its control characters escaped |
| Escape.TextValue | src/log.rs:457-464 | appends the value bare exactly if nothing in it could mislead, else in quotes |
| Escape.TextKey | src/log.rs:446-453 | appends the key with what could mislead replaced |
| Escape.Sanitised | src/log.rs:446-453 | such a key is never empty and holds no space, control character, equals sign or quote |
| Escape.QuotesRead | src/log.rs:414-428 | a reader of JSON strings gets every string back, and what follows it |
| Escape.EscapedReads | src/log.rs:414-428 | the same past the opening quote, for JSON and for text |
| Escape.CharReads | src/log.rs:417-426 | each escaped character reads back, whatever follows |
| Escape.TextReads | src/log.rs:457-464 | a reader of text values gets every string back, bare or in quotes |
| Escape.EscapedOneLine | src/log.rs:430-442 | no escaped string holds a newline |
| LogLine.Cap | src/log.rs:317-326 | the longest part that fits in the limit, cut between characters, and marked |
| LogLine.FittingIs | src/log.rs:321-324 | that is the longest: so many characters fit, and no more |
| LogLine.ItemsRead | src/log.rs:350-367 | reading the fields of a line gives them back, in order, in both formats |
| LogLine.ItemReads | src/log.rs:355-366 | each field's key and value read back, and what follows is left |
| LogLine.MessageReads | src/log.rs:374-381 | whatever the message, it cannot pass for fields: they start where it ends |
| LogLine.LineReads | src/log.rs:370-402 | a line in text reads back as its timestamp, level, message and fields |
| FormatLine.FormatLine | src/log.rs:336-404 | one newline, at the end; and the line reads back, in either format, as its timestamp, level, capped message, task, and the fields up to where it got too long |
| FormatLine.FormatJson | src/log.rs:340-368 | a line in JSON is one line, and reads back as its members |
| FormatLine.FormatText | src/log.rs:369-402 | a line in text is one line, and reads back as its parts |
| FormatLine.WriteFields | src/log.rs:382-397 | the fields kept are those before the line exceeded its limit, and a mark if there were more |
| FormatLine.WriteField | src/log.rs:355-366 | one field's key and value |
| FormatLine.WriteValue | src/log.rs:358-366 | one value: strings escaped, numbers and words as they are, no NaN or infinity in JSON |
| FormatLine.BeginObject | src/log.rs:341-346 | the members every JSON line starts with |
| FormatLine.AddTask | src/log.rs:347-349 | the task's number, if there is one |
| FormatLine.ObjectReads | src/log.rs:368-402 | a finished object is one line and reads back |
| FormatLine.ItemsOneLine | src/log.rs:334-335 | no field holds a newline |
| LogQueue.SharedQueue.constructor | src/log.rs:78-82 | an empty queue |
| LogQueue.SharedQueue.Push | src/log.rs:119-133 | appends the line and drops the oldest to make room, counting them; whether to wake the writer |
| LogQueue.SharedQueue.Take | src/log.rs:158-174 | takes a batch and the count of dropped lines |
| LogQueue.TakeBatch | src/log.rs:162-173 | the loop takes the batch off the front |
| LogQueue.TrimmedIs | src/log.rs:122-128 | what is kept is the longest end of the queue that fits, or the newest line |
| LogQueue.BatchIs | src/log.rs:160-170 | a batch is as many of the oldest as fit, or one |
| LogMachine.LinesKeepOrder | src/log.rs:111-201 | over every run what is written, being written and queued is what was logged, in order, less what was dropped, and every drop is reported or still to be |
| LogMachine.WriterWakesForWork | src/log.rs:129-133 | the writer never waits while there is work, but for a notification on its way |
| LogMachine.FlushLeavesNothing | src/log.rs:205-215 | a flush that ends before its timeout leaves every line written or reported, and one that waits untold has something to wait for |
| LogMachine.MemoryBounded | src/log.rs:119-128 | over every run the bytes queued and in flight are within the cap unless only one line is queued, and then at most a batch (or a line, if longer) and a line |
| LogMachine.OneLineOver | src/log.rs:11-12 | within the cap give or take one line, exactly if no line is longer than the cap |
| LogMachine.TwoLongLines | src/log.rs:119-128 | a run in which two longer ones are held |
| LogMachine.InvKept | src/log.rs:148-201 | every step keeps order, counts, wake-ups and the bound |
| LogMachine.InvHolds | src/log.rs:148-201 | every run keeps order, counts, wake-ups and the bound |
| LogMachine.OrderKept | src/log.rs:111-201 | every step keeps order and counts |
| LogMachine.SleepKept | src/log.rs:150-159 | every step keeps the writer and flushers from waiting for nothing |
| LogMachine.MemoryKept | src/log.rs:119-128 | every step keeps the bound |
| Slots.OnePlaceEach | src/resource.rs:83-111 | over every run each slot is free, reserved, live or being closed, one of these only, and none is free twice |
| Slots.TokensAreDistinct | src/resource.rs:203-220 | a slot's tokens have growing generations; below 2^48 no token is issued twice, and each says its slot and generation |
| Slots.LiveIsAccepted | src/resource.rs:118-129 | what `get` checks of a slot whose handle is out holds exactly while it is live and its generation is below 2^48 |
| Slots.ReleasedOnce | src/resource.rs:148-156 | until it is filled again, releasing a slot again changes nothing |
| Slots.TokenReads | src/resource.rs:215 | a token is taken apart again exactly while its generation is below 2^48 |
| Slots.BaseIndexIs | src/resource.rs:178-184 | an address is a slot's exactly when it is where that slot starts |
| Slots.Contained | src/resource.rs:168-171 | a slot's address is inside the heap |
| Slots.PlacesKept | src/resource.rs:83-184 | every step keeps each slot in one place, and moves only its own |
| Slots.IssuedKept | src/resource.rs:203-220 | every step keeps generations growing and live slots holding their own tokens |
| Slots.StoreKeepsIssued | src/resource.rs:212-218 | a stored token has the greatest generation its slot has had |
| Slots.InvHolds | src/resource.rs:83-228 | every run keeps one place per slot and tokens in order |
| Slots.FreshInv | src/resource.rs:60-80 | a new heap has every slot free, once |
| Slots.ResourceHeap.constructor | src/resource.rs:60-80 | a new heap |
| Slots.ResourceHeap.TryReserve | src/resource.rs:83-86 | claims a slot no one has, or reports that there is none |
| Slots.ResourceHeap.Fill | src/resource.rs:203-210 | a reserved slot becomes live, in a new generation |
| Slots.ResourceHeap.StoreToken | src/resource.rs:212-218 | its token is stored after that, newer than any it had |
| Slots.ResourceHeap.DropReservation | src/resource.rs:222-228 | an unused reservation is free again |
| Slots.ResourceHeap.BeginRelease | src/resource.rs:135-159 | which addresses are the heap's, and which release a live slot, once |
| Slots.ResourceHeap.FinishRelease | src/resource.rs:161-164 | a closed slot is free again |
| Stdin.ReadLine | src/stdin.rs:93-139 | the line up to the first newline of all the bytes to come before an error, however they arrive: stripped of one carriage return, too long exactly above the limit, the last one without an ending kept, and then the end; an error exactly if one comes before the line ends |
| Stdin.ReadLines | src/stdin.rs:71-90 | reading on, past errors, gives exactly the lines of the input between them, and each error once |
| Stdin.ResultsStep | src/stdin.rs:71-90 | what reading gives is its first result and what the rest gives |
| Stdin.ReadPart | src/stdin.rs:109-128 | one buffer's worth of that |
| Stdin.TakePart | src/stdin.rs:113-122 | the line so far, given up exactly when it cannot fit any more |
| Stdin.Finish | src/stdin.rs:129-138 | what a complete line reads as |
| Stdin.FinishInput | src/stdin.rs:102-108 | what the end of the input reads as |
| Stdin.WrittenLinesRead | src/stdin.rs:17-31 | lines written with either ending, and one with none, read back |
| Signals.NothingLost | src/signals.rs:40-55 | from when a signal's bit is set until it is queued, it is pending or in the reader's hands |
| Signals.PendingIsOnItsWay | src/signals.rs:102-121 | a pending signal has a handler yet to write, a byte in the pipe or the reader on its way; none is queued twice at once, and no task waits while one is queued |
| Signals.PendingGetsQueued | src/signals.rs:102-121 | from every such state the reader and the handlers under way can by themselves get a noted signal queued |
| Signals.QueueCodes | src/signals.rs:114-118 | the loop appends what is pending and not queued, in order |
| Signals.QueuedOnce | src/signals.rs:114-118 | so everything pending is queued, and nothing twice |
| Signals.InvKept | src/signals.rs:40-121 | every step of handlers, reader and tasks keeps a reader coming for what is pending, also with a full pipe |
| Signals.InvHolds | src/signals.rs:40-121 | every run keeps that |

## Left out

- The operating system and foreign code: mio, corosensei, libc, rustls, AWS-LC. Sockets, event queues, pipes and the cipher are parameters or nondeterministic steps.
- Weak memory: every atomic operation is sequentially consistent.
- `begin_wait`'s three stores, and a wake-up's claim and outcome, as separate steps: they are one step each.
- Plain-thread wakers and the blocking fallbacks outside tasks, whose wake-ups always report success.
- `notify_idle`, searching and sleeping workers, saturation and budgets: they decide when work is shared, not what is kept.
- `IoReg` being dropped, and event tokens with generations: one socket keeps its registration.
- `src/select.rs` and `src/tls.rs`: a Select is only a watcher on the lists it registers with.
- `copy_both`: its two directions are each `one_way` without a limit; when it aborts or shuts down sockets depends on the kernel.
- Copy.CopyTo: does not say which error is reported when several calls fail, or that a deadline is met in time; the events are a list, and a copy that has used it up is still going on.
- Sums in 64 bits: `copy_to` is called with prefix and limit below 2^64 together, and byte counts and generations do not wrap, but for a token's shift, which does.
- Noise handshakes, and reading with a deadline: sessions start with keys agreed.
- Readiness.ComingArrives: says that the owner can get to the waiter, not that it is scheduled to.
- Scope.ScopeOutlastsTasks: one close per group, as platform/Task.roc:148-157 has it.
- Slots.LiveIsAccepted: does not say that a stale pointer to a reused slot is rejected; `get` reads the token out of the slot itself.
- Slots.ResourceHeap.BeginRelease: a slot is not released while it is being filled, before its handle is returned; the source would drop a resource not yet written.
- Slots.ResourceHeap.TryReserve: waiting for a free slot is not part of it, but of `Pool`.
- LogLine.MessageReads: a message in text that needs no quotes reads back with its control characters still escaped, since a backslash in it is not.
- FormatLine.FormatLine: a float's text is a parameter (letters, digits, signs and points, as Rust writes it), and a clock reading is any integer.
- LogMachine.WriterWakesForWork: says that a notification is on its way, not that the writer then runs; failed writes to stderr count as written.
- Stdin.ReadLine: which bytes are UTF-8, and what an I/O error says, are not part of it.
- The queue between the stdin reader thread and its readers, and spawning that thread.
- Signals.PendingGetsQueued: says that the reader and handlers can get there, not that they are scheduled to.
- Signals.PendingIsOnItsWay: installing handlers, and a `read` that fails for good, are not modelled.
- The limit on live tasks (`try_claim_slot`), joining and results: a counter that is compared and swapped, and a value handed over under a lock.
- `src/net.rs`, `src/files.rs`, `src/sockopts.rs`, `src/crypto.rs`, `src/random.rs`, `src/resolve.rs`, `src/time.rs`, `src/limits.rs`, `src/lib.rs`, `src/alloc.rs`, `src/roc_platform_abi.rs`: wrappers over the system, or generated.
