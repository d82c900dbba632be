# Turn and session machinery of the gateway

This project models how the gateway talks to its agents and keeps its books: the turns and native
compactions of the Codex app-server, the queues, clocks and line splitter that every backend is
built on, Grok's create-or-resume protocol, the companion heartbeat, and four small bounded
structures. It proves what these promise over every interleaving of calls, answers,
notifications, timers and crashes.

## How it is built

JavaScript runs one thing at a time, so a method body up to its next `await`, a timer callback, a
process event and the continuation of a settled promise are each one atomic step. Every stateful
component appears twice:

* as a `State` datatype with one function per step, on which invariants and whole-run theorems are proved
  for all runs, that is, for all sequences of steps in any order;
* as a class that holds the fields of the original, perhaps grouped into records, and whose methods have
  its branches in its order. Each method's `ensures` says that the fields change as the step function says
  (`View() == old(View()).Step(...)`). The constructor establishes and every entry point keeps `Valid()`: some run
  of the steps leads to where the object is. So the theorems on reachable states are theorems on the object, and
  an `ObjectPromises` lemma beside each class states the main ones in terms of its fields.

Beside the invariants, the `...Effects` modules say what each event does that a reader can see, in words of their own and not of the
step functions: which events a queue gets, which requests are sent, which barrier is released, which rows change.

Whole-run claims are read off a log of what others can see (requests sent, events delivered,
barriers made and released, ticks, dispatches, recorded failures), which the steps append to and
nothing erases.

| file | repository | content |
|---|---|---|
| `Options.dfy`, `Sequences.dfy` | | optional values; facts about sequences |
| `AsyncQueue.dfy` | `backends/types.ts` | turn events, the async FIFO |
| `TurnTimeouts.dfy` | `backends/turnTimeouts.ts` | the idle and the hard clock of a turn |
| `Utf8.dfy`, `JsonlProcess.dfy` | `backends/jsonlProcess.ts` | bytes to lines, and UTF-8 text to lines |
| `CodexProtocol.dfy`, `CodexInvariant.dfy`, `CodexTheorems.dfy`, `CodexEffects.dfy`, `CodexStaleRefusal.dfy`, `CodexAppServer.dfy` | `backends/codexAppServer.ts` | the steps, their invariant, its consequences, what each event does, one thing the code gets wrong, the class |
| `GrokProtocol.dfy`, `GrokSelfCorrection.dfy`, `GrokEffects.dfy`, `GrokCli.dfy` | `backends/grokCli.ts` | the steps, the retry against the session store, what each event does, the class |
| `HeartbeatPolicy.dfy`, `HeartbeatReceipts.dfy`, `HeartbeatProtocol.dfy`, `HeartbeatInvariant.dfy`, `HeartbeatTheorems.dfy`, `HeartbeatEffects.dfy`, `CompanionHeartbeat.dfy` | `companion/heartbeatPolicy.ts`, `heartbeat/companionHeartbeat.ts` | silence and receipts, the ledger of sessions and runs, what each request and settlement does, the class |
| `DelegateTools.dfy` | `jobs/delegateTools.ts` | the repeated-read detector and paging |
| `TaobaoBridge.dfy` | `devices/taobaoBridge.ts` | the rendezvous broker and its text bound |
| `LifeEvents.dfy` | `companion/lifeEvents.ts` | lazy expiry and the budgeted block |

## Assumptions

* Callers serialise turns (server/src/backends/types.ts:70): a turn is sent only when none is open.
* The clock never goes back. Safety does not depend on timers being on time; the two statements about
  how long a Codex turn can wait are about runs with prompt timers (`Env.prompt`), and the Taobao
  broker's clock does not pass a timer that is due.
* What writing to the Codex pipe returns is an arbitrary function of the request number, so every outcome of
  every write is covered.
* Codex: matching is by thread, as in the code, never by generation (server/src/backends/codexAppServer.ts:815, 817, 823);
  the theorems hold in spite of it.
* Grok: exit and lines of a process arrive before the next `sendTurn`, since `handleExit` is not
  tied to a process (server/src/backends/grokCli.ts:344, 427). Only the self-correction theorems need this.
* Heartbeat: the runtime of a contact is not idle while a dispatched run of it is unsettled;
  `tickIfDue` acts on the current row of a session that is not stopped; a new session id is new.
* Heartbeat: the reply of a finished turn is a row of text, never one of a tool call: its id is always that of the text row
  the runtime inserts (server/src/runtime/runtime.ts:1315-1320, 1530-1543, 1562-1565, 1610-1621, 1629-1632).
* Contact ids hold no colon: they are slugs of small letters, digits and hyphens
  (server/src/contacts/contactRoutes.ts:85-92).
* Turn limits are at most 2147483647 ms, beyond which the timers of Node go off after 1 ms. The limits of a contact are positive
  integers of at most a day by schema (shared/contact-config/index.js:67); the global ones have no such bound.
* Random identifiers are new, and random samples lie in [0, 1).

## What the code does not do

* The Taobao text bound is a bound on the contents of the blocks, not on the text handed back, which joins the blocks with line
  feeds (server/src/devices/taobaoBridge.ts:106-110, 142-150). The text has length min(total, 200000), and is the first
  characters of all texts, if and only if there is at most one text or the first alone spends the bound
  (`TaobaoContent.TextWithinBound`). The blocks "a", "b" are enough to exceed it, and since an empty block spends
  nothing, n empty blocks give n - 1 line feeds, for any n.
* A `turn/start` refused as "not steerable" clears `userTurnStartRequested` of whatever turn is open by
  then (server/src/backends/codexAppServer.ts:503-505). `CodexStaleRefusal` shows a reachable state in
  which the refusal of a turn already closed silences the turn after it, whose output and completion are then
  dropped, and proves that nothing else takes the flag from an open turn. No compaction can
  start because of it, and the turn's clocks still end it.
* `positiveMs` by itself floors after it has checked the sign, so a fraction of a millisecond becomes 0
  (server/src/backends/turnTimeouts.ts:18-21). It never gets to a clock: limits are resolved in the factory and once more in the
  backend, and twice resolved they are positive (`TurnTimeouts.ControllerLimits`).

## Model

| member | source | states |
|---|---|---|
| AsyncQueues.RefinesSequence | server/src/backends/types.ts:79-108 | Under any interleaving of push, end and next, the n-th `next` is answered by the n-th item pushed before the first `end`, else by done once ended, else it is still waiting |
| AsyncQueues.NothingLost | server/src/backends/types.ts:84-107 | Items and waiters are never both non-empty; what was handed out followed by what is buffered is exactly what was pushed, in order |
| AsyncQueues.ObjectRefinesSequence | server/src/backends/types.ts:79-108 | Whatever a queue object went through, it holds and has answered what the list of pushes says |
| AsyncQueues.AsyncQueue.Push | server/src/backends/types.ts:84-89 | The queue's fields change as a push of the sequence model does, the first waiter being served before anything is buffered |
| AsyncQueues.AsyncQueue.End | server/src/backends/types.ts:91-95 | Ends once, and answers every waiter with done |
| AsyncQueues.AsyncQueue.Next | server/src/backends/types.ts:99-105 | Takes the oldest item, or reports the end, or waits |
| TurnTimeouts.TwoClocks | server/src/backends/turnTimeouts.ts:60-106 | While a turn is live the hard deadline is its start plus the hard limit, whatever happens, and the idle deadline its last accepted activity plus the idle limit; otherwise both clocks are off |
| TurnTimeouts.CallbackMeansSilence | server/src/backends/turnTimeouts.ts:77-105 | A callback belongs to a started, unfinished turn; an idle one means that no activity was accepted for the whole idle limit, a hard one that the hard limit has passed |
| TurnTimeouts.OneCallbackPerStart | server/src/backends/turnTimeouts.ts:70-75 | Between two callbacks there is a start |
| TurnTimeouts.PositiveMsIsPositive | server/src/backends/turnTimeouts.ts:18-21 | Resolved once, a limit comes out positive if and only if it is not a fraction of a millisecond; half a millisecond becomes 0 |
| TurnTimeouts.ControllerLimits | server/src/backends/turnTimeouts.ts:23-43 | Resolved by the factory and again by the backend, every limit is positive: the configured one less its fraction if that is at least 1 ms, else the default |
| TurnTimeouts.TurnTimeoutController.Deliver | server/src/backends/turnTimeouts.ts:60-106 | Any call or due timer takes the object along the run of its history; a callback is made exactly when a timer goes off |
| TurnTimeouts.ObjectTwoClocks | server/src/backends/turnTimeouts.ts:60-106 | Whatever the object went through, its timers are those its history alone tells of |
| TurnTimeouts.TurnTimeoutController.Start | server/src/backends/turnTimeouts.ts:70-75 | Restarts both clocks as the two-clock model does |
| TurnTimeouts.TurnTimeoutController.Activity | server/src/backends/turnTimeouts.ts:77-80 | Only deltas, thinking, tool uses and tool results move the idle clock, and only while live |
| TurnTimeouts.TurnTimeoutController.Pulse | server/src/backends/turnTimeouts.ts:83-86 | Moves the idle clock while live |
| TurnTimeouts.TurnTimeoutController.Finish | server/src/backends/turnTimeouts.ts:88-94 | Clears both clocks |
| TurnTimeouts.TurnTimeoutController.Fire | server/src/backends/turnTimeouts.ts:101-105 | Calls back exactly when not finished, and finishes first |
| JsonlProcess.ChunkingDoesNotMatter | server/src/backends/jsonlProcess.ts:50-64 | However a stream is cut into chunks, feeding them yields the lines and the rest of splitting the whole stream at once |
| JsonlProcess.SplitLosesNothing | server/src/backends/jsonlProcess.ts:53-56 | Lines rejoined with newlines, followed by the rest, are the stream, and no line holds a newline |
| JsonlProcess.JsonlProcess.Feed | server/src/backends/jsonlProcess.ts:50-64 | Keeps exactly the bytes after the last newline and reports the lines before it, in order |
| JsonlProcess.FeedChunks | server/src/backends/jsonlProcess.ts:38-64 | A stream fed in any chunks is reported as if fed whole |
| JsonlProcess.EveryLineReported | server/src/backends/jsonlProcess.ts:56-62 | Every line that is not blank is reported as what it is, in its place |
| JsonlProcess.BlankLineSkipped | server/src/backends/jsonlProcess.ts:57 | A blank line is as good as none |
| JsonlProcess.SplitEncoded | server/src/backends/jsonlProcess.ts:11-18 | Splitting the bytes of a text at 0x0A gives the bytes of the lines of the text |
| JsonlProcess.DecodedLinesAreTextLines | server/src/backends/jsonlProcess.ts:11-18 | For UTF-8 text in any chunks, each decoded line is the corresponding line of the text |
| Utf8.NewlineStandsAlone | server/src/backends/jsonlProcess.ts:53 | 0x0A occurs in the encoding of a character only if the character is a line feed (section 3 of RFC 3629) |
| Utf8.DecodeEncode | server/src/backends/jsonlProcess.ts:56 | Decoding what was encoded gives the text back |
| Utf8.EncodedExamples | server/src/backends/jsonlProcess.ts:56 | The encodings that section 7 of RFC 3629 gives as examples |
| Utf8.ForbiddenSequences | server/src/backends/jsonlProcess.ts:56 | Overlong forms, surrogates and bytes that section 3 of RFC 3629 forbids decode to nothing |
| CodexInvariant.StepKeeps | server/src/backends/codexAppServer.ts:415-865 | Every step, whatever its kind, keeps the invariant that ties the open turn, requests, compaction, barriers, timers, queues and log together |
| CodexTheorems.UserTurnNeverOverlapsCompaction | server/src/backends/codexAppServer.ts:459-536 | In every reachable log, `turn/start` is sent and deltas, thinking, tool and done events are delivered only after every barrier made before has been released |
| CodexTheorems.RequestedMeansOpenAndAlone | server/src/backends/codexAppServer.ts:611-689 | A requested user turn is open and no compaction is in flight |
| CodexTheorems.EveryBarrierResolvedOnce | server/src/backends/codexAppServer.ts:802-840 | A compaction is in flight exactly when a barrier is unresolved; it is of the current thread and has an unanswered request, a continuation or an armed timer to release it; all other barriers were resolved exactly once |
| CodexTheorems.BarriersOnce | server/src/backends/codexAppServer.ts:802-840 | In every legal log each barrier is made once and resolved at most once, all but the open one |
| CodexTheorems.CompactionHysteresis | server/src/backends/codexAppServer.ts:785-800 | Between two `thread/compact/start` requests the thread changed or usage below the threshold was seen with nothing queued or in flight |
| CodexTheorems.QueuedOrInFlight | server/src/backends/codexAppServer.ts:785-840 | Queued and in flight exclude each other, and either implies the latch |
| CodexTheorems.QueueOfATurn | server/src/backends/codexAppServer.ts:665-763 | A turn's queue gets at most one terminal event, last, and exactly one once closed unless `stop()` closed it; a final text is the concatenation of the deltas; a tool result follows a use of the same tool |
| CodexTheorems.RequestsSettleOnce | server/src/backends/codexAppServer.ts:547-575 | Request numbers are never reused, each is settled exactly once unless it is still pending, and never before it was sent (section 5 of the JSON-RPC 2.0 Specification) |
| CodexTheorems.StrayAnswersChangeNothing | server/src/backends/codexAppServer.ts:563-575 | Late and unknown answers and the timeout of a settled request change nothing; an answer to a pending request settles that one only |
| CodexTheorems.ExitLeavesNothingPending | server/src/backends/codexAppServer.ts:433-444 | The exit of a process settles every request sent before it; that of the current process leaves none pending, that of an earlier one at most a compaction request sent since |
| CodexTheorems.BarrierReleasedInTime | server/src/backends/codexAppServer.ts:802-828 | With prompt timers a barrier is released within the ack limit plus the completion limit |
| CodexTheorems.NoTurnStranded | server/src/backends/codexAppServer.ts:492-499 | A turn that waits behind a compaction can go on, or will within that time |
| CodexEffects.CompletionEndsTurn | server/src/backends/codexAppServer.ts:726-739 | A completion of a requested turn, unless it names another known turn, appends one event and closes the turn: done, with the text streamed, if and only if the status is "completed", else an error that is not fatal; a queued compaction begins |
| CodexEffects.OtherCompletionIgnored | server/src/backends/codexAppServer.ts:727 | The completion of another known turn changes nothing |
| CodexEffects.StreamDelivered | server/src/backends/codexAppServer.ts:665-684 | Text and reasoning of a requested turn reach its queue, one event each, and no other queue |
| CodexEffects.ToolAnnounced | server/src/backends/codexAppServer.ts:691-706 | A started tool is announced under its name and remembered under its item; another item is not |
| CodexEffects.ItemFinished | server/src/backends/codexAppServer.ts:708-724 | A completed item gives the result of the tool remembered, good only if it neither failed nor erred, or the text of an agent message nothing was streamed of, or nothing |
| CodexEffects.UnrequestedIsDropped | server/src/backends/codexAppServer.ts:655-668 | Without a requested open turn these notifications change nothing |
| CodexEffects.TurnOpens | server/src/backends/codexAppServer.ts:459-490 | A new turn gets its own queue, announces a thread not yet announced, and sends `turn/start` unless a barrier holds it back, the thread is unknown or the backend is stopping |
| CodexEffects.WaitingTurnBegins | server/src/backends/codexAppServer.ts:492-499 | Released from its barrier, a turn still open sends `turn/start`; one that is over does nothing |
| CodexEffects.TurnStartAnswered | server/src/backends/codexAppServer.ts:500-536 | The answer gives the open turn its id, interrupts a turn that is over, or fails the send |
| CodexEffects.FailedSendEndsTurn | server/src/backends/codexAppServer.ts:482-487 | A failed send ends its turn with an error, if it is still open |
| CodexEffects.TimeoutEndsTurn | server/src/backends/codexAppServer.ts:474-480 | A timeout sends `turn/interrupt` if the turn's id is known and ends the turn with an error that is not fatal |
| CodexEffects.ExitEndsTurn | server/src/backends/codexAppServer.ts:433-444 | The exit of a process ends the turn with a fatal error |
| CodexEffects.ExitRejects | server/src/backends/codexAppServer.ts:435-439 | and rejects each request that was pending |
| CodexEffects.StopEndsTurn | server/src/backends/codexAppServer.ts:452-457 | `stop` closes the turn without an event, releases the barrier and sends nothing |
| CodexEffects.ThreadCaptured | server/src/backends/codexAppServer.ts:741-753 | A new thread is announced to the open turn and drops what was queued, latched or in flight |
| CodexEffects.HighUsageCompacts | server/src/backends/codexAppServer.ts:790-800 | Usage at the threshold begins a compaction between turns and queues one during a turn, unless latched |
| CodexEffects.LowUsageRearms | server/src/backends/codexAppServer.ts:787-789 | Usage below the threshold or not finite clears the latch of an idle compaction |
| CodexEffects.OtherUsageIgnored | server/src/backends/codexAppServer.ts:785-787 | Usage of another thread, or with compaction off, changes nothing |
| CodexEffects.NoticeReleases | server/src/backends/codexAppServer.ts:842-860 | A completion notice releases the barrier if and only if it names thread and turn of the compaction in flight |
| CodexEffects.CompactionCompletes | server/src/backends/codexAppServer.ts:620-633 | A compaction whose turn is started and then reported complete releases its barrier |
| CodexEffects.AckDecides | server/src/backends/codexAppServer.ts:814-828 | A refusal releases the barrier; an acknowledgement arms a timer of the hard limit, but at least two minutes |
| CodexEffects.TimerReleases | server/src/backends/codexAppServer.ts:820-826 | A due timer releases the barrier of a compaction of its thread, and else nothing |
| CodexEffects.DeadlineRejects | server/src/backends/codexAppServer.ts:550-553 | A request is rejected at its deadline and not before |
| CodexEffects.RequestSent | server/src/backends/codexAppServer.ts:547-561 | A request written awaits its answer until its deadline; one not written is rejected at once |
| CodexEffects.CompactionTurnIdentified | server/src/backends/codexAppServer.ts:620-633 | The first turn started on the thread of a compaction in flight is the compaction's, and no other |
| CodexEffects.StartShakesHands | server/src/backends/codexAppServer.ts:373-397 | Starting sends the handshake to a live process; its answer is awaited for 20 s |
| CodexEffects.InterruptAsks | server/src/backends/codexAppServer.ts:538-545 | Interrupting sends `turn/interrupt` if thread and turn are known, and nothing else |
| CodexEffects.Threshold | server/src/backends/codexAppServer.ts:774-779 | The threshold is what is configured, less its fraction, if positive, else 200000 |
| CodexStaleRefusal.FlagLostOnlyToRefusal | server/src/backends/codexAppServer.ts:492-509 | While a turn stays open its requested flag is lost if and only if the step is the continuation of a not-steerable refusal, of whatever turn |
| CodexStaleRefusal.StaleRefusalDeafensNewerTurn | server/src/backends/codexAppServer.ts:503-505 | A reachable state in which the refusal of a turn already closed clears the flag of the turn open now, whose own request is pending |
| CodexStaleRefusal.ClocksStillEndTurn | server/src/backends/codexAppServer.ts:474-480 | In every reachable state with an open turn, a timeout closes it |
| CodexStaleRefusal.DeafWithoutFlag | server/src/backends/codexAppServer.ts:655-668 | Without the flag the turn's deltas and completion are dropped |
| CodexAppServer.ObjectPromises | server/src/backends/codexAppServer.ts:255-281 | From construction on, through any calls: a requested turn is open with no compaction in flight, a compaction in flight holds the barrier of the current thread and is attended, user turn acts come after every release, every queue is well formed |
| CodexAppServer.CodexAppServerBackend.SendTurn | server/src/backends/codexAppServer.ts:459-490 | Opens the turn, announces the thread once, and waits for the barrier or begins |
| CodexAppServer.CodexAppServerBackend.BeginTurnAfterCompaction | server/src/backends/codexAppServer.ts:492-499 | Begins only if the turn is still open and the backend is not stopping |
| CodexAppServer.CodexAppServerBackend.BeginTurn | server/src/backends/codexAppServer.ts:512-536 | Sets the flag and sends `turn/start`, or fails without a thread |
| CodexAppServer.CodexAppServerBackend.AfterTurnStart | server/src/backends/codexAppServer.ts:500-536 | Keeps the turn id, interrupts a turn that is no longer open, or fails the send |
| CodexAppServer.CodexAppServerBackend.SendRequest | server/src/backends/codexAppServer.ts:547-561 | Numbers the request; it is pending with a deadline, or rejected at once when it cannot be written |
| CodexAppServer.CodexAppServerBackend.Answer | server/src/backends/codexAppServer.ts:563-575 | Settles the pending request of that number and no other |
| CodexAppServer.CodexAppServerBackend.Route | server/src/backends/codexAppServer.ts:563-581 | A notification takes the object from one reachable state to another |
| CodexAppServer.CodexAppServerBackend.HandleNotification | server/src/backends/codexAppServer.ts:611-689 | Routes thread, usage, compaction and turn notifications as the step function does |
| CodexAppServer.CodexAppServerBackend.HandleItemStarted | server/src/backends/codexAppServer.ts:691-706 | Records and announces the tool of an item |
| CodexAppServer.CodexAppServerBackend.HandleItemCompleted | server/src/backends/codexAppServer.ts:708-724 | Streams an agent message nothing was streamed of, or reports the result of a recorded tool |
| CodexAppServer.CodexAppServerBackend.HandleTurnCompleted | server/src/backends/codexAppServer.ts:726-739 | Closes the turn with done or error, unless the completion is of another known turn |
| CodexAppServer.CodexAppServerBackend.CaptureThread | server/src/backends/codexAppServer.ts:741-753 | A new thread drops queued and running compaction and is announced |
| CodexAppServer.CodexAppServerBackend.FinishTurn | server/src/backends/codexAppServer.ts:755-763 | Closes the turn, and only then may a queued compaction start |
| CodexAppServer.CodexAppServerBackend.ConsiderNativeCompact | server/src/backends/codexAppServer.ts:785-800 | Re-arms below the threshold, queues once above it |
| CodexAppServer.CodexAppServerBackend.StartQueuedNativeCompact | server/src/backends/codexAppServer.ts:802-813 | Makes the barrier and sends `thread/compact/start` only with no turn open |
| CodexAppServer.CodexAppServerBackend.AfterCompactStart | server/src/backends/codexAppServer.ts:814-828 | Arms the completion timer, or settles after a failure, if the compaction of that thread is in flight |
| CodexAppServer.CodexAppServerBackend.SettleNativeCompact | server/src/backends/codexAppServer.ts:830-840 | Clears the timer and releases the barrier |
| CodexAppServer.CodexAppServerBackend.CompleteNativeCompact | server/src/backends/codexAppServer.ts:842-860 | Settles only for the thread and the turn of the compaction |
| CodexAppServer.CodexAppServerBackend.ProcessExited | server/src/backends/codexAppServer.ts:433-444 | Rejects every pending request and ends the turn with a fatal error, whichever process exits; only without the current one can no request be written |
| CodexAppServer.CodexAppServerBackend.Stop | server/src/backends/codexAppServer.ts:452-457 | Closes the turn without a terminal event and settles the compaction |
| CodexAppServer.CodexAppServerBackend.Resume | server/src/backends/codexAppServer.ts:255-281 | Delivers any timer or continuation that can run as the step function does |
| CodexAppServer.CodexAppServerBackend.Dispatch | server/src/backends/codexAppServer.ts:255-281 | Any event does to the fields what a step does to the state |
| GrokProtocol.TurnsAreBounded | server/src/backends/grokCli.ts:240-296 | In every run each turn spawns at most two processes and gets exactly one terminal event, last, once it is over; the last announced session id is the stored one |
| GrokSelfCorrection.RetryAgrees | server/src/backends/grokCli.ts:427-480 | From any mismatch of flag and store one retry makes the arguments acceptable |
| GrokSelfCorrection.AcceptedExit | server/src/backends/grokCli.ts:427-480 | A process that was accepted ends the turn and leaves a session that can be resumed |
| GrokSelfCorrection.EveryTurnReachesAgreement | server/src/backends/grokCli.ts:144-160 | Whatever the store becomes between turns, every uninterrupted turn ends after at most one retry, and the arguments of its last process agreed with the store |
| GrokSelfCorrection.AgreementLasts | server/src/backends/grokCli.ts:408-418 | Once they agree and nobody touches the store, one process per turn is enough |
| GrokEffects.CleanExitEndsTurn | server/src/backends/grokCli.ts:448-470 | Exit 0 of a turn nobody interrupted appends one event: done, with the text its process streamed, if and only if the stop reason is not abnormal; from then on the session is resumed |
| GrokEffects.FailedExitEndsTurn | server/src/backends/grokCli.ts:448-480 | An interrupted turn, or a nonzero exit not retried, ends in an error, and the session stays as it is |
| GrokEffects.ComplaintIsRetried | server/src/backends/grokCli.ts:427-447 | A complaint about the session is met by one more process with the other flag; a session created anew is announced |
| GrokEffects.StreamDelivered | server/src/backends/grokCli.ts:370-392 | Thoughts and text reach the turn's queue, one event each |
| GrokEffects.ToolAnnounced | server/src/backends/grokCli.ts:385-396 | A tool call is announced and remembered |
| GrokEffects.ToolFinished | server/src/backends/grokCli.ts:396-407 | The end of a tool gives its result under the remembered name, good if and only if completed |
| GrokEffects.EndLineRead | server/src/backends/grokCli.ts:408-418 | A session id that is a UUID and new is taken over and announced |
| GrokEffects.TurnOpens | server/src/backends/grokCli.ts:240-280 | A turn announces its session once and spawns one process with the flag and id held, or ends at once without a readable image |
| GrokEffects.TimeoutEndsTurn | server/src/backends/grokCli.ts:265-275 | A timeout ends the turn with an error |
| GrokEffects.InterruptedTurnEnds | server/src/backends/grokCli.ts:349-353 | An interrupted turn ends with its process in an error, never in a retry |
| GrokEffects.StartChooses | server/src/backends/grokCli.ts:213-222 | A UUID is resumed, anything else created under the new id |
| GrokCli.ObjectPromises | server/src/backends/grokCli.ts:240-296 | Through any calls, every turn has spawned at most two processes and ended with one terminal event; the announced id is the stored one |
| GrokCli.GrokCliBackend.Start | server/src/backends/grokCli.ts:213-222 | Resumes a token that is a UUID, else creates a new session |
| GrokCli.GrokCliBackend.SendTurn | server/src/backends/grokCli.ts:240-280 | Opens the turn, announces the session once, and spawns unless an image cannot be read |
| GrokCli.GrokCliBackend.SpawnAttempt | server/src/backends/grokCli.ts:282-296 | Resets what belongs to one attempt |
| GrokCli.GrokCliBackend.Route | server/src/backends/grokCli.ts:370-425 | Streams text and tools, and takes over the session id of the end line |
| GrokCli.GrokCliBackend.HandleExit | server/src/backends/grokCli.ts:427-480 | Retries once with the flag flipped, or ends the turn with one terminal event |
| HeartbeatPolicy.ReceiptSpeaks | server/src/companion/heartbeatPolicy.ts:10-15 | A blank or silent text becomes a receipt exactly when a tool may have written, and the receipt is neither blank nor silent |
| HeartbeatPolicy.SomeWrite | server/src/companion/heartbeatPolicy.ts:12-13 | The listed writes are empty exactly when no tool may have written |
| HeartbeatReceipts.SilentExactly | server/src/companion/heartbeatPolicy.ts:1 | A text is silent if and only if it is HEARTBEAT_OK between white space and marks |
| HeartbeatReceipts.WritesListed | server/src/companion/heartbeatPolicy.ts:12 | The writes listed are the write tools called, each once |
| HeartbeatReceipts.WritesInOrder | server/src/companion/heartbeatPolicy.ts:12 | They are listed in the order of their first calls |
| HeartbeatReceipts.ReceiptNamesWrites | server/src/companion/heartbeatPolicy.ts:14 | A receipt names every tool that may have written |
| HeartbeatReceipts.SpeakingTextKept | server/src/companion/heartbeatPolicy.ts:11 | A text that speaks is left as it is |
| HeartbeatProtocol.RandomIntervalMinutes | server/src/heartbeat/companionHeartbeat.ts:27-34 | Every sample in [0, 1) gives between 4 and 7 minutes |
| HeartbeatEffects.IntervalsEvenlyDrawn | server/src/heartbeat/companionHeartbeat.ts:27-34 | Each of 4, 5, 6 and 7 minutes is drawn from its quarter of the samples |
| HeartbeatInvariant.StepKeeps | server/src/heartbeat/companionHeartbeat.ts:76-389 | Every step keeps the ledger's invariant |
| HeartbeatTheorems.OneActiveSession | server/src/heartbeat/companionHeartbeat.ts:101-162 | A contact never has two sessions that are not stopped, although expiry is found lazily |
| HeartbeatTheorems.StartReplacesExpired | server/src/heartbeat/companionHeartbeat.ts:113-124 | A start is refused as already active if and only if an unexpired session exists; otherwise the new session is the only one |
| HeartbeatTheorems.FailureAndIntervalBounds | server/src/heartbeat/companionHeartbeat.ts:352-368 | The interval lies in 4..30; `failure_count` is at most 3, and 3 means paused with nothing in flight |
| HeartbeatTheorems.TicksArePaced | server/src/heartbeat/companionHeartbeat.ts:195-213 | Ticks of a session are at least 4 minutes apart, and the f-th failure in a row delays the next by min(30, 5·2^(f-1)) minutes |
| HeartbeatTheorems.FailuresInARow | server/src/heartbeat/companionHeartbeat.ts:359-367 | `failure_count` is the number of failures recorded since the last success, each is recorded under its number, and there are at most three |
| HeartbeatTheorems.NoRetryAfterWrite | server/src/heartbeat/companionHeartbeat.ts:358-367 | After a failure that may have written, or the third in a row, nothing happens in the session any more: no tick, no dispatch, no record |
| HeartbeatTheorems.FailedWriteHalts | server/src/heartbeat/companionHeartbeat.ts:338-368 | A failed or interrupted run with a possible write is recorded with `write_attempted` and halts the session |
| HeartbeatTheorems.HaltedForever | server/src/heartbeat/companionHeartbeat.ts:192-194 | A session that is paused with no run in flight stays so and never dispatches again, over any run and any restart |
| HeartbeatTheorems.SilentWriteGetsReceipt | server/src/heartbeat/companionHeartbeat.ts:306-323 | A finished run with a known reply, blank or silent, that may have written gets the receipt as content, nothing is pruned, it is recorded visible and as a write, and its session halts |
| HeartbeatTheorems.SilentExactlyWhenPruned | server/src/heartbeat/companionHeartbeat.ts:338-389 | A settled run is recorded silent exactly when its prompt, its reply and the rows of its turn are deleted, and otherwise no row is |
| HeartbeatTheorems.DuplicateUnreachable | server/src/heartbeat/companionHeartbeat.ts:262-277 | Before a tick there is no run row, message or dispatch of it, so the "duplicate" branch is never taken |
| HeartbeatTheorems.DispatchedOnce | server/src/heartbeat/companionHeartbeat.ts:297-304 | No (session, tick) is dispatched twice |
| HeartbeatTheorems.DispatchedUnlessSkipped | server/src/heartbeat/companionHeartbeat.ts:198-213 | The ticks with a row are 1..tick_count, and those dispatched are those not recorded as skipped |
| HeartbeatTheorems.LedgerConservation | server/src/heartbeat/companionHeartbeat.ts:421-429 | tick_count = skipped + running + silent + visible + failed, in the terms of `stats` |
| HeartbeatEffects.RestartPauses | server/src/heartbeat/companionHeartbeat.ts:76-83 | A restart pauses exactly the unstopped sessions with a run left running, marks exactly those runs interrupted, and changes nothing else |
| HeartbeatEffects.RestartHalts | server/src/heartbeat/companionHeartbeat.ts:76-83 | After a restart of the gateway such a session is halted, and no run is running |
| HeartbeatEffects.CutOffRunIsNotRetried | server/src/heartbeat/companionHeartbeat.ts:76-83 | So it never dispatches again, over any run that follows |
| HeartbeatEffects.SilentTurnIsGone | server/src/heartbeat/companionHeartbeat.ts:371-389 | After a run recorded silent the prompt is gone and no row of the contact carries the reply's turn; every other row is as it was |
| HeartbeatEffects.SilentReplyIsGone | server/src/heartbeat/companionHeartbeat.ts:373-386 | The reply is gone if and only if it is of the contact, has no turn, or is the prompt |
| HeartbeatEffects.NoTick | server/src/heartbeat/companionHeartbeat.ts:185-196 | A pass over a session that need not tick stops it if it has expired, and else changes nothing |
| HeartbeatEffects.DueTick | server/src/heartbeat/companionHeartbeat.ts:198-305 | A due tick counts one, is dispatched if and only if the runtime is free, the user away, the contact there and the queue not full, and is skipped otherwise; a runtime in error pauses the session |
| HeartbeatEffects.StartRefused | server/src/heartbeat/companionHeartbeat.ts:101-113 | The reasons for which a session is not started, in their order |
| HeartbeatEffects.StartedSession | server/src/heartbeat/companionHeartbeat.ts:117-125 | A started session runs from now for the minutes asked for, or without end, with counters at zero |
| HeartbeatEffects.SessionsStopped | server/src/heartbeat/companionHeartbeat.ts:136-162 | Stopping stops the contact's sessions, looking the expired ones, and no other |
| HeartbeatEffects.FailureSettled | server/src/heartbeat/companionHeartbeat.ts:338-368 | A failed run is recorded with its tools; the session is tried again if and only if the error is worth it, nothing may have been written and it is not the third in a row, not before 5, 10 or 20 minutes |
| HeartbeatEffects.SuccessSettled | server/src/heartbeat/companionHeartbeat.ts:338-357 | A finished run is recorded, ends the row of failures, and pauses the session if and only if it left a write unexplained |
| HeartbeatEffects.FailedSettlement | server/src/heartbeat/companionHeartbeat.ts:324-335 | A settlement that fails leaves the run failed and the session halted |
| HeartbeatEffects.FailedSettlementKeepsRecords | server/src/heartbeat/companionHeartbeat.ts:306-335 | What the settlement had recorded, rewritten or pruned by then stays so |
| HeartbeatEffects.WroteMeansWriteRow | server/src/heartbeat/companionHeartbeat.ts:339-344 | A turn may have written if and only if one of its tool rows, for the contact, is not known to only read |
| HeartbeatEffects.ToolRowsCounted | server/src/heartbeat/companionHeartbeat.ts:341-351 | The tool count is the number of tool rows of the turn |
| CompanionHeartbeats.ObjectPromises | server/src/heartbeat/companionHeartbeat.ts:66-70 | Through any calls: one unstopped session a contact, interval in 4..30, at most 3 failures and then halted, a ledger that adds up |
| CompanionHeartbeats.ActiveRowDecides | server/src/heartbeat/companionHeartbeat.ts:136-160 | Stopping the one row found stops every session of the contact there is to stop, and only its expiry decides whether one is active |
| CompanionHeartbeats.CompanionHeartbeat.ActiveRow | server/src/heartbeat/companionHeartbeat.ts:398-403 | Finds the newest session of a contact that is not stopped, if there is one |
| CompanionHeartbeats.CompanionHeartbeat.StartSession | server/src/heartbeat/companionHeartbeat.ts:101-134 | Its checks in their order, then a new row |
| CompanionHeartbeats.CompanionHeartbeat.StopSession | server/src/heartbeat/companionHeartbeat.ts:136-148 | Stops every unstopped session of the contact by stopping the one found |
| CompanionHeartbeats.CompanionHeartbeat.Status | server/src/heartbeat/companionHeartbeat.ts:150-162 | Stops an expired session when looked at, and says whether one is active |
| CompanionHeartbeats.CompanionHeartbeat.TickIfDue | server/src/heartbeat/companionHeartbeat.ts:183-196 | Stops an expired session, leaves a paused or early one alone, and else takes the tick |
| CompanionHeartbeats.CompanionHeartbeat.OpenTick | server/src/heartbeat/companionHeartbeat.ts:198-213 | Opens the run row and moves the counters of a due tick |
| CompanionHeartbeats.CompanionHeartbeat.Dispatch | server/src/heartbeat/companionHeartbeat.ts:215-305 | Skips with the right side effects, or inserts the prompt and marks the run as running |
| CompanionHeartbeats.CompanionHeartbeat.Complete | server/src/heartbeat/companionHeartbeat.ts:306-323 | Rewrites, records, prunes and looks at the session, in this order |
| CompanionHeartbeats.CompanionHeartbeat.CompleteFailing | server/src/heartbeat/companionHeartbeat.ts:324-335 | Whatever stage the continuation threw after, the run is recorded failed and the session paused |
| CompanionHeartbeats.CompanionHeartbeat.RecordBeat | server/src/heartbeat/companionHeartbeat.ts:338-369 | The run row, and success, retry or pause |
| CompanionHeartbeats.CompanionHeartbeat.SettleBeat | server/src/heartbeat/companionHeartbeat.ts:371-389 | Deletes the rows of a silent turn and nothing else |
| CompanionHeartbeats.CompanionHeartbeat.Start | server/src/heartbeat/companionHeartbeat.ts:76-83 | Runs left running are interrupted and their unstopped sessions paused |
| DelegateTools.PaginationReads.RecordPaginationRead | server/src/jobs/delegateTools.ts:52-67 | Answers true if and only if the key was last read within 20 minutes and fewer than 2047 other keys were read since, by the whole history; at most 2048 entries are kept, in the order of their last reads |
| DelegateTools.OneRead | server/src/jobs/delegateTools.ts:54-66 | Expiry and eviction keep exactly the recent part of the history that the answer needs |
| DelegateTools.KeptAgrees | server/src/jobs/delegateTools.ts:62-63 | The bounded map holds a key if and only if the history says repeated |
| DelegateTools.KeysAreDistinct | server/src/jobs/delegateTools.ts:62 | Different contact, job or offset give different keys, for contact ids without a colon |
| DelegateTools.PagesAreThePayload | server/src/jobs/delegateTools.ts:447-475 | Following `nextOffset` from 0 with any limits of at least 1 ends, asks for no offset twice, and gives exactly the payload |
| DelegateTools.PageHolds | server/src/jobs/delegateTools.ts:452-457 | A page starts at its offset, has min(limit, what is left) characters, and is the last if and only if nothing is left behind it |
| DelegateTools.PageBehindEnd | server/src/jobs/delegateTools.ts:452-457 | Behind the end there is an empty last page |
| TaobaoBridges.AtMostFourContacts | server/src/devices/taobaoBridge.ts:59-66 | At most four requests are pending, of distinct contacts |
| TaobaoBridges.ResolvedExactlyOnce | server/src/devices/taobaoBridge.ts:68-82 | An accepted request is pending or resolved, never both, and resolved once; a pending one is within its time |
| TaobaoBridges.ResolvedByItsOwnId | server/src/devices/taobaoBridge.ts:100-131 | A settlement resolves the request it names and touches no other; an unknown or late one does nothing |
| TaobaoBridges.ClaimedInOrder | server/src/devices/taobaoBridge.ts:85-98 | Requests are claimed at most once, in the order of acceptance |
| TaobaoBridges.ClaimAnswers | server/src/devices/taobaoBridge.ts:85-98 | A claim hands out the oldest request not claimed before, under its own id, name and arguments, for at most 45 s and its own time; a capable worker gets none if and only if all are claimed |
| TaobaoBridges.RequestAnswers | server/src/devices/taobaoBridge.ts:53-83 | Busy while the contact has one pending, full while four are, otherwise parked as it is, behind the others |
| TaobaoBridges.ObjectPromises | server/src/devices/taobaoBridge.ts:48-136 | Through any calls: at most four pending, of distinct contacts; accepted means pending or resolved, not both; claims in order |
| TaobaoBridges.TaobaoBridge.Request | server/src/devices/taobaoBridge.ts:53-83 | Refuses a second request of a contact and a fifth request, else accepts |
| TaobaoBridges.TaobaoBridge.TakePending | server/src/devices/taobaoBridge.ts:85-98 | Claims the oldest unclaimed request, with a limit of at most 45 s |
| TaobaoBridges.TaobaoBridge.Fulfill | server/src/devices/taobaoBridge.ts:100-122 | Resolves with exactly the kept texts of the answer and their join |
| TaobaoContent.BoundedContent | server/src/devices/taobaoBridge.ts:138-152 | The loop keeps exactly the texts that the recursive bound keeps, none after the budget is spent |
| TaobaoContent.KeptContents | server/src/devices/taobaoBridge.ts:141-149 | Concatenated, what is kept is the first min(total, budget) characters of all texts |
| TaobaoContent.KeptBlocks | server/src/devices/taobaoBridge.ts:147-149 | Block by block a prefix of what came, and all but the last block whole |
| TaobaoContent.KeptWhileBudgetLasts | server/src/devices/taobaoBridge.ts:142-148 | A text is kept if and only if those before it are shorter than the budget together |
| TaobaoContent.BoundedText | server/src/devices/taobaoBridge.ts:106-110 | The text handed back is a prefix of all texts joined, longer than its contents by one line feed between blocks |
| TaobaoContent.TextWithinBound | server/src/devices/taobaoBridge.ts:106-110 | It is the first min(total, 200000) characters of the texts, or just as long, if and only if there is at most one text or the first alone reaches 200000 |
| TaobaoContent.TwoBlocksBreakBound | server/src/devices/taobaoBridge.ts:109 | The texts "a" and "b" give "a", line feed, "b" |
| TaobaoContent.EmptyBlocksAreUnbounded | server/src/devices/taobaoBridge.ts:142-150 | n empty texts are all kept and give n - 1 line feeds |
| LifeEvents.LifeEventRepo.ActiveEvents | server/src/companion/lifeEvents.ts:234-249 | Answers the active events not over age, newest first, and marks exactly the others as expired |
| LifeEvents.LazyExpiryUnseen | server/src/companion/lifeEvents.ts:233-249 | Expiring lazily is unobservable: having looked at any earlier time changes no later answer |
| LifeEvents.LifeEventService.TurnBlock | server/src/companion/lifeEvents.ts:374-416 | The lines are those chosen from what the reader may be told, and none when the reader takes no part |
| LifeEvents.TurnBlockPromises | server/src/companion/lifeEvents.ts:374-406 | For every table: at most five lines, none of the reader's own or over age; a missing safety event is no newer than three that are told; over 441 characters only when all lines are safety lines |
| LifeEvents.OfferedFor | server/src/companion/lifeEvents.ts:57-62 | An event is told for 48, 24, 12 or 6 hours after its last update, by its severity |
| LifeEvents.ToldInOrder | server/src/companion/lifeEvents.ts:379-383 | Safety before health before schedule before mood, and the newest first |
| LifeEvents.JoinedLengthIsLength | server/src/companion/lifeEvents.ts:401 | The budget is measured on the lines joined by line feeds |
| LifeEvents.SafetyAlwaysIn | server/src/companion/lifeEvents.ts:392-405 | Of n safety events exactly the first min(3, n) are chosen, whatever their length |
| LifeEvents.ChosenIsSubsequence | server/src/companion/lifeEvents.ts:379-405 | The chosen events are a subsequence of the severity-then-recency order, at most five |
| LifeEvents.LeftOutForRoom | server/src/companion/lifeEvents.ts:393-402 | Another event is left out only because five lines are full or its line would not fit |
| LifeEvents.SortSorts | server/src/companion/lifeEvents.ts:379-383 | The order offered is sorted and a permutation of the events |

## Left out

- Process spawning, stdio, HTTP, SSE, SQLite, the file system, JSON text and MCP: what they deliver are inputs of the steps, tables are maps or sequences.
- Job store, room task ledger, triage worker, summaries and the runtime manager, whose sources are not part of this model; the heartbeat sees the runtime through a state, a queue result and a turn result.
- `claudeCli.ts`, `kimiCli.ts`, `opencodeCli.ts`, `cameraSnap.ts`, `dshHarness.ts`: simpler repeats of the patterns above, or network polling.
- Approvals and other server requests of Codex, model and rate-limit queries, login and error classification: decision tables beside the protocol.
- Token usage, summaries of tool input and output, detail texts, time stamps of display and the fixed lines around the life-event block.
- Regular expressions on tool names, error messages and UUIDs are arbitrary predicates; the silent pattern is written out, with the white space of `trim`.
- The texts of Codex and Grok error messages are shortened; which event they are part of is kept.
- An identifier the code tests for truth is `None` when it is missing or the empty string.
- The queue objects a Codex or Grok turn writes to are known by the order in which they were made, with the history of what was pushed; that readers see that history is `AsyncQueues.RefinesSequence`. Sharing of queue objects with other holders is not modelled.
- The fields of the Codex backend are grouped into records for requests, conversation and compaction; the methods reassign them.
- CodexAppServer.CodexAppServerBackend.TurnTimedOut: takes the callback of the turn's clocks as an event at any moment; when it comes is `TurnTimeouts`.
- CodexTheorems.NoTurnStranded: is about runs with prompt timers, since a late event loop can delay any timer.
- `runOnce` and its guard against overlapping scans: a tick is one step on the current row.
- Expiry dates that do not parse, and the time in a time stamp beyond milliseconds.
- Inserting, updating and resolving life events, their extraction by a model and the daily cost: single statements, or library behaviour.
- Life events whose time stamp does not parse: the table only ever holds time stamps written by `toISOString`.
- Characters are UTF-16 units in string lengths, and the Unicode scalar values of section 3 of RFC 3629 in `Utf8`; how malformed bytes are replaced is not modelled.
