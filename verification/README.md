# Verified model of the agent runtime, the daemon, the browser clients and the evaluation oracles

This project models the parts of Solo where several things happen at once or where an algorithm has
to be exactly right, and proves what they promise. `dafny verify dfyconfig.toml` checks everything.

## What is modelled

- **ACP turns** (`AcpTurn`, `AcpTurnSafety`, `AcpTurnTrace`, `AcpTurnProgress`, `AcpTurnCalls`). Every goroutine that
  emits, records, finishes, fails or begins a turn is a program counter over single lock, channel and
  memory steps. Which lock a goroutine has follows from its program counter; the waiting writer of the
  read-write lock blocks new readers, as Go's does. A log of events records what happened, and the
  theorems speak about the logs of all interleavings: order, exclusion, one result, no lost context
  event, completion of every finish even when nobody reads, and what each call has done when it returns.
- **ACP tool calls** (`AcpTools`) and the **stderr sniffer** (`Sniffer`): classes with the program's
  fields, proved against functions of the notifications, and against the whole byte stream.
- **Codex turns** (`CodexTurn`): completions, failures, interrupts and process exit interleave section
  by section of the turn lock. (`CodexSession`): the turn token of the session around them.
  (`CodexContext`, `CodexContextTurn`): the context machine composed with the daemon's observer, against
  a reference that reads the stream forwards. (`CodexHandover`): the reader's handlers and the end of the
  turn interleaved section by section, and what the next turn finds. (`TokenWindow`): the transcript scan.
- **The daemon** (`TaskHistory`, `Forwarder`, `AgentTurns`): the bounded event history, the forwarders
  of one task interleaved with its processing, and the one token per agent that the credential lookup
  relies on.
- **The browser** (`WsClient`, `ReliableSend`): classes with the program's fields; sockets, requests and
  timers are an environment that acts at any moment.
- **Evaluation oracles** (`Order`, `Closure`, `Covered`, `Allocate`, `Batches`, `MergePatch`): the
  loops and recursions themselves, against mathematical specifications. `MergePatch` follows section 2
  of RFC 7396.

`Wrappers` and `Collections` hold what several modules share.

## Assumptions

- A Codex turn keeps one id: the notifications of its own thread that record an id record this one
  (`OneTurn`, `OfTurn`), and `Orderly` says the same of the signals. The completion path does not compare the
  id it is given with the current one, as the failure path does; `ForeignDoneEndsTurn` and
  `AbandonedTurnEndsTheNext` show what happens otherwise.
- A send that follows a failed one finds no callback owed (`Calm`): a failed send gives the turn token back
  without a result. `SendIsSafeIff` shows that this is exactly what is needed; otherwise the token takes care
  of it (`EachTurnCallsBackOnce`).
- The theorems of `CodexContextTurn` handle one notification after the other. `CodexHandover` says exactly
  when that still describes the next turn.
- A forwarded task id has no earlier history and one attempt. Registering a task does not reset the
  history of its id, and a `done` event that is pushed after `complete` was delivered starts a new one;
  the model has both, and claims no full cleanup.
- Outside shutdown. A shutdown suppresses the end of a turn; `AmbiguousIff` says exactly from which states
  that can make the credential lookup ambiguous.
- A task id that comes again is for the same agent, and task ids are not empty.
- A client message id of a reliable send is not used again while it is pending; `NewSendIsHarmlessIff`
  shows that this is exactly what is needed. An id that has settled may be used again, and a late answer
  to the old request then confirms the new send. The callbacks of a send do not throw; that a throwing
  `onConfirmed` still resolves is the `finally` of the source.

## Where the code does not do what it seems to promise

- The close handler of the WebSocket client resets its counters after an intentional close
  (`frontend/lib/ws-client.ts:143-147`). That branch never runs: closing intentionally first removes
  the handler (`CloseSchedulesReconnect`).
- An interrupt waits a while for its turn to end and otherwise ends it locally, under whatever id is current
  by then: `LateInterruptEndsTheNext` is the run in which that is the turn after, `UnnamedEndsAnotherIff` the
  exact condition.
- The end of a turn finishes the context in a section of its own, so that a compaction accepted before the
  turn is marked done is reported by the turn after (`LateItemIsReportedByTheNext`, `NextTurnReportsIff`).
- `connect()` without a token returns before it does anything, but the reconnect timer, the watchdog and
  `forceReconnect` have by then given up the timer or the socket, so the client stays down
  (`AliveUnlessNoToken`).

## Model

| member | source | states |
|---|---|---|
| AcpTurnTrace.EveryRunIsWellFormed | pkg/agent/acp.go:102-226 | in every interleaving of any number of callers: nothing accepted or recorded after the finished flag, nothing sent after the message channel is closed, each channel closed once and in order, messages read in the order sent, ordinary chunks dropped only at 256 unread, and no panic |
| AcpTurnTrace.LocksExclude | pkg/agent/acp.go:102-167 | two goroutines are never inside sections that exclude each other, although the model has no lock owner field |
| AcpTurnTrace.OneResultPerTurn | pkg/agent/acp.go:142-167 | a turn that is no longer current finished once, closed each channel once and delivered one result with the accepted text and the usage recorded |
| AcpTurnTrace.ResultIsTextBeforeFinish | pkg/agent/acp.go:142-167 | the output of the one result is the concatenation of the text chunks accepted before the flag was set |
| AcpTurnTrace.OutputPrecedesFinish | pkg/agent/acp.go:102-113 | after a finish no text is added to a turn, and it is not finished again |
| AcpTurnTrace.MessagesAreFifo | pkg/agent/acp.go:92-120 | the consumer reads a prefix of what was sent, in order, and the rest is in the buffer |
| AcpTurnTrace.ContextIsLossless | pkg/agent/claude.go:1271-1289 | a context event accepted by an unfinished turn was sent or its emitter still waits for room |
| AcpTurnProgress.StuckMeansWaiting | pkg/agent/acp.go:102-167 | no deadlock: when nothing can move, a goroutine is done or waits for room in an unfinished turn |
| AcpTurnProgress.SchedulesAreFinite | pkg/agent/acp.go:102-226 | every schedule of the goroutines in flight is bounded by a measure of their remaining steps |
| AcpTurnProgress.RunsComplete | pkg/agent/acp.go:102-226 | left alone, in any order, all operations return, except context senders waiting for room in an unfinished turn |
| AcpTurnProgress.RunsCanComplete | pkg/agent/acp.go:102-226 | such a schedule exists from every reachable state |
| AcpTurnProgress.FinishCompletes | pkg/agent/acp.go:142-167 | once the flag is set, the turn is closed and its result delivered and no emitter is left on it, even if nobody reads |
| AcpTurnSafety.SafeKept | pkg/agent/acp.go:102-226 | every step keeps mutual exclusion and the phase of each turn and goroutine |
| AcpTurnCalls.EmitTakesEffect | pkg/agent/acp.go:102-120 | a chunk emitted while a turn is active, by an emit that has returned, was accepted by that turn if it is still unfinished, and was then sent, or, if ordinary, dropped with 256 unread |
| AcpTurnCalls.RecordTakesEffect | pkg/agent/acp.go:122-140 | usage recorded while a turn is active, by a call that has returned, counts for that turn if it is still unfinished |
| AcpTurnCalls.BeginAnswers | pkg/agent/acp.go:178-187 | a begin installs an empty turn and answers true exactly when none is active, and otherwise changes nothing |
| AcpTurnCalls.BeginTakesEffect | pkg/agent/acp.go:178-187 | a begin that succeeded made a turn; one that was refused met an active turn |
| AcpTurnCalls.FinishTakesEffect | pkg/agent/acp.go:206-226 | a finish that answers true finished a turn that it names, whose result has its status and error; one that answers false finished nothing; a turn that it names and that was active when it was called is finished when it has returned |
| AcpTools.AcpClient.HandleToolCallStart | pkg/agent/acp.go:608-653 | the pending calls and the chunks after a start |
| AcpTools.AcpClient.EmitDeferredToolUse | pkg/agent/acp.go:739-767 | adds the deferred use, none for a call that was reported at its start |
| AcpTools.AcpClient.HandleToolCallUpdate | pkg/agent/acp.go:655-708 | the pending calls and the chunks after an update |
| AcpTools.CallsAreIndependent | pkg/agent/acp.go:608-767 | the chunks of a call id, and what is kept of it, are those of its own notifications, however calls interleave |
| AcpTools.CallIsReportedOnce | pkg/agent/acp.go:608-767 | a call that starts, even over a pending one of its id, is updated and ends gives one use and one result in this order, with its own input or the last text collected for it, and nothing is kept of it |
| AcpTools.ResultsHaveUses | pkg/agent/acp.go:655-708 | at every moment, for any notifications, a call id has no more results than uses |
| Sniffer.ProviderErrorSniffer.Write | pkg/agent/acp.go:1037-1072 | after a write the four fields describe the whole stream so far: last eight distinct errors, all seen, terminal flag, unfinished line |
| Sniffer.WriteAll | pkg/agent/acp.go:1037-1072 | the fields depend on the concatenation of the writes alone, not on how it is cut |
| Sniffer.StreamSplits | pkg/agent/acp.go:1041-1052 | the completed lines of two pieces are those of the first and those of its unfinished line with the second |
| Sniffer.SplitAtLast | pkg/agent/acp.go:1042-1054 | splitting up to the last newline gives exactly the completed lines |
| CodexTurn.TurnSignals.PrepareTurn | pkg/agent/codex.go:941-961 | the turn fields after prepareTurn |
| CodexTurn.TurnSignals.RecordTurnID | pkg/agent/codex.go:1012-1021 | a recorded id is kept only while the turn is not done |
| CodexTurn.TurnSignals.WaitForTurnDone | pkg/agent/codex.go:990-1001 | the channel is made for a turn that is not done |
| CodexTurn.TurnSignals.SignalTurnDone | pkg/agent/codex.go:1111-1133 | which completion ends the turn, and the fields after it |
| CodexTurn.TurnSignals.SignalTurnFailure | pkg/agent/codex.go:1064-1094 | which failure ends the turn, and the fields after it |
| CodexTurn.TurnsEndOnce | pkg/agent/codex.go:1023-1135 | in every run a turn ends at most once, its channel is never closed twice, an id that ended never ends another turn, and failures end only their own turn |
| CodexTurn.CompletedOnlyGrows | pkg/agent/codex.go:941-947 | no step removes a completed turn id |
| CodexTurn.CallbacksFireOnce | pkg/agent/codex.go:972-988 | if no prepareTurn runs while a callback is owed, each turn calls back at most once |
| CodexTurn.PrepareIsSafeIff | pkg/agent/codex.go:941-961 | from every state that keeps the invariant a prepareTurn leads to at most one callback, for every continuation, exactly when no callback is owed at that moment |
| CodexTurn.TurnsEndUnderTheirId | pkg/agent/codex.go:1064-1135 | with one id per turn every turn ends under its own id, and late notifications of ended turns end nothing |
| CodexTurn.FailureEndsItsTurnIff | pkg/agent/codex.go:1064-1096 | a failure ends the turn, closes its channel and owes the callback exactly when the turn is not done and the failure names no turn, or the current one or one not yet announced, that has not completed |
| CodexTurn.CompletionEndsTurnIff | pkg/agent/codex.go:1110-1135 | a completion ends the turn exactly when the turn is not done and its id, if any, has not completed, and marks its id in any case |
| CodexTurn.InterruptWaitsIff | pkg/agent/codex.go:1023-1058 | an interrupt waits exactly for an announced turn that is not done, and then signals without a name |
| CodexTurn.ForeignDoneEndsTurn | pkg/agent/codex.go:1074-1078 | a completion with a foreign id ends the current turn exactly when that id has not completed; a failure with it does nothing |
| CodexTurn.AbandonedTurnEndsTheNext | pkg/agent/codex.go:944-949 | a turn replaced before it ended leaves its id unmarked, and its completion ends the next turn |
| CodexTurn.UnnamedEndsAnotherIff | pkg/agent/codex.go:1023-1058 | with one id per turn, a completion without a name ends a turn other than the one it was issued for exactly when its claim ends a turn and another turn was prepared before it last read the id |
| CodexTurn.UnnamedCanEndTheNext | pkg/agent/codex.go:1098-1135 | whenever its turn ended before it read the id, it can still end the next turn, under that turn's own id |
| CodexTurn.LateInterruptEndsTheNext | pkg/agent/codex.go:1023-1058 | the run for any two ids: the timer of an interrupt runs out, its turn completes and calls back, and the interrupt ends the next turn |
| CodexSession.EachTurnCallsBackOnce | pkg/agent/session.go:540-587 | in every run of the session without a failed send, or whose sends after failed ones are calm, no callback is owed at any prepareTurn and each turn calls back at most once |
| CodexSession.TokenGoesRound | pkg/agent/session.go:946-986 | a free token can be taken and the next turn prepared; it is free again after the result, a failed send or a withdrawal, and a held one cannot be taken |
| CodexSession.NoFailureIsCalm | pkg/agent/session.go:766-780 | every run without a failed send qualifies |
| CodexSession.SendIsSafeIff | pkg/agent/session.go:766-780 | a send leads to at most one callback, for every continuation, exactly when the send before did not fail or nobody owes a callback |
| CodexSession.FailedSendOwes | pkg/agent/session.go:615-625 | whenever a send fails whose turn a completion can still end, the next send can be about to prepare while that callback is owed |
| CodexContext.CodexClient.BeginContextTurn | pkg/agent/codex.go:1310-1331 | the context and the events after a turn started |
| CodexContext.CodexClient.HandleContextUsage | pkg/agent/codex.go:1343-1400 | the context and the events after a usage |
| CodexContext.CodexClient.HandleItemStarted | pkg/agent/codex.go:1410-1451 | the context and the events after a compaction item started |
| CodexContext.CodexClient.HandleItemCompleted | pkg/agent/codex.go:1453-1462 | the context after a compaction item completed |
| CodexContext.CodexClient.FinishContextTurn | pkg/agent/codex.go:1466-1483 | the context and the events when a turn ends |
| CodexContext.CodexClient.HandleNotice | pkg/agent/codex.go:1186-1200 | which notification reaches which handler, foreign threads excluded |
| CodexContext.BackendContextTurn.ObserveEvent | cmd/daemon/handler.go:1003-1027 | what the daemon's observer holds after an event |
| CodexContext.BackendContextTurn.Observation | cmd/daemon/handler.go:1040-1046 | the report in terms of all events observed: the compaction ends in order, the last event if it is a valid snapshot, and incomplete exactly when some last part of the events starts more compactions than it ends |
| CodexContext.PendingIsSurplus | cmd/daemon/handler.go:1003-1027 | the pending count is the largest surplus of starts over ends that any last part of the events has |
| CodexContext.FinalIsLastEvent | cmd/daemon/handler.go:1029-1038 | there is a final snapshot exactly when the last event is a usage with positive used and window counts or a compaction end with positive after and window counts, and it is that event |
| CodexContextTurn.RunFollows | pkg/agent/codex.go:1310-1483 | the events of a turn depend only on the signals of its own thread and id heard after the id is recorded and the context open |
| CodexContextTurn.TurnIsReported | pkg/agent/codex.go:1310-1483 | the observer's compactions are those of the ended episodes, in order and with their counts, pending counts the abandoned ones, and the context is settled again |
| CodexContextTurn.EndsNeverExceedStarts | cmd/daemon/handler.go:1003-1027 | at every prefix no more compactions ended than started, and the observer's count is the difference |
| CodexContextTurn.FinalSnapshotIsLastUse | cmd/daemon/handler.go:1003-1038 | the final snapshot is the last usage heard exactly when its used and window counts are both there and positive and nothing after it started or completed a compaction |
| CodexContextTurn.NoFinalWithoutUse | cmd/daemon/handler.go:1003-1038 | a turn that hears no usage has no final snapshot |
| CodexContextTurn.LateNoticesAreQuiet | pkg/agent/codex.go:1333-1341 | after the turn is done notifications emit nothing and the context stays settled for the next turn |
| CodexHandover.SectionsMakeHandler | pkg/agent/codex.go:1343-1462 | the check and the context section of a handler, undisturbed, are the handler |
| CodexHandover.ContextIsSettledIff | pkg/agent/codex.go:1102-1135 | however the reader's sections and the end of a turn interleave, the context is settled exactly when no item start and no usage was applied since it was last finished |
| CodexHandover.NextTurnIsPreparedIff | pkg/agent/codex.go:941-961 | that is also exactly when the next turn begins as the theorems about whole turns require |
| CodexHandover.NextTurnReportsIff | pkg/agent/codex.go:1310-1331 | the next turn's start reports a compaction of the turn before exactly when the late signals left a completed one, and settles the context |
| CodexHandover.ShutHearsAtMostOne | pkg/agent/codex.go:1333-1341 | once the turn is claimed it hears at most the one notification that was already accepted |
| CodexHandover.ClaimedFirstIsNotReported | pkg/agent/codex.go:1083-1094 | so a turn that is claimed before its context is finished, as by a failure, leaves no completed compaction to the next |
| CodexHandover.LateItemIsReportedByTheNext | pkg/agent/codex.go:1102-1135 | a compaction accepted between the two sections of a completion is ended and reported by the next turn, which never started it |
| TokenWindow.ParseWindow | pkg/agent/codex.go:1663-1732 | the one-pass scan equals the last total in the window minus the last total before it, or the last usage reported, or nothing |
| TokenWindow.UsageAddsUp | pkg/agent/codex.go:1734-1753 | cached and uncached input add up to the raw input, with the cached input under either of its names |
| TokenWindow.WindowEnd | pkg/agent/codex.go:1663-1732 | in a sorted file with totals the last total of a window is the counter at its end |
| TokenWindow.WindowCountsGrowth | pkg/agent/codex.go:1734-1753 | a window counts the growth of the counter, exactly if it did not go down |
| TokenWindow.TilesTelescope | pkg/agent/codex.go:1663-1753 | windows that tile the time add up to the growth of the counter, if and only if no window saw it go down |
| TaskHistory.TaskManager.AddTask | cmd/daemon/task.go:143-151 | the same attempt is refused; the history is left alone |
| TaskHistory.TaskManager.UpdateStatus | cmd/daemon/task.go:162-171 | only the status of a known task changes |
| TaskHistory.TaskManager.BeginForward | cmd/daemon/task.go:57-66 | forwarding begins only for the known attempt and only once |
| TaskHistory.TaskManager.EndForward | cmd/daemon/task.go:68-82 | a delivered task is dropped with its history |
| TaskHistory.TaskManager.PushSSEEvent | cmd/daemon/task.go:297-309 | the history after a push with eviction; other tasks are left alone |
| TaskHistory.TaskManager.EventsAfter | cmd/daemon/task.go:325-336 | exactly the retained events above the number, in order |
| TaskHistory.HistoryIsLongestSuffix | cmd/daemon/task.go:297-309 | after any pushes the history is the longest suffix of all pushed events within 16 MiB, or the last event, with consecutive numbers and an exact byte count |
| TaskHistory.PushNumbers | cmd/daemon/task.go:297-309 | a pushed event is the newest one; it gets the next number unless it has one |
| TaskHistory.AfterIsSuffix | cmd/daemon/task.go:325-336 | of consecutive events those above a number are a suffix |
| Forwarder.DeliveryIsInOrder | cmd/daemon/control_client.go:403-451 | in every run each forwarder's acknowledged numbers increase and skip only evicted events, and at most one forwarder is live |
| Forwarder.DroppedMeansDelivered | cmd/daemon/control_client.go:403-451 | the task is dropped only after a terminal event was acknowledged, and then one forwarder had every other event that was not evicted acknowledged |
| Forwarder.NewestIsTerminal | cmd/daemon/handler.go:1080-1104 | once processing ended and until the drop the newest retained event is terminal |
| Forwarder.DeliveryCompletes | cmd/daemon/control_client.go:403-451 | after processing ended, in every schedule without a cancellation, with any pushes, wakeups, status changes, failed uploads and lost connections in between: the task is dropped, or each turn of the forwarder has brought it closer, so that it needs at most two turns for each event left and two more |
| Forwarder.DeliveryCanComplete | cmd/daemon/control_client.go:403-451 | while connected, the forwarder's own successful steps alone drop the task within that bound |
| Forwarder.WakeStartsIff | cmd/daemon/control_client.go:399-401 | a wakeup starts one forwarder, polling from the first event, exactly when none is live |
| Forwarder.EndedTaskCanBeDelivered | cmd/daemon/control_client.go:399-451 | once processing has ended, a connected task that is not cancelled can be delivered, starting with a wakeup |
| Forwarder.WholeTaskIsDelivered | cmd/daemon/control_client.go:399-451 | from a new task, through any ordinary events, the final one and "done", to the drop: there is such a run, and if the events fit 16 MiB one forwarder had every ordinary one of them acknowledged |
| Forwarder.CancelledForwarderFreesTask | cmd/daemon/control_client.go:403-407 | a cancelled forwarder gives the task back with its history |
| AgentTurns.ExecutingCredential | cmd/daemon/task.go:235-255 | the run id, or the task id if it is empty, and the token of the one matching task, whatever the iteration order, and nothing when none or several match |
| AgentTurns.OneTokenPerAgent | cmd/daemon/task.go:123-139 | in every run free tokens plus holders of an agent are one, so giving the token back never blocks |
| AgentTurns.OneThinkerPerAgent | cmd/daemon/handler.go:784-806 | outside shutdown at most one task of an agent is thinking |
| AgentTurns.LookupIsUnambiguous | cmd/daemon/task.go:231-255 | outside shutdown the lookup never has two matches, and a thinking task in scope is the match |
| AgentTurns.ThinkerGetsItsCredential | cmd/daemon/task.go:235-255 | outside shutdown a lookup with the agent and node of a thinking task, and its channel or none, answers the task's run id, or its task id if it has none, and its token |
| AgentTurns.TaskTakesItsTurn | cmd/daemon/handler.go:784-806 | a new attempt is queued, takes the free token, thinks, settles its status and gives the token back; the same attempt again is refused |
| AgentTurns.WaiterNeedsToken | cmd/daemon/task.go:123-139 | without the token nobody thinks, and a cancelled waiter leaves with its task cancelled |
| AgentTurns.AmbiguousIff | cmd/daemon/handler.go:1519-1523 | from a reachable state and without further arrivals, the lookup can get two matches if and only if two tasks in its scope are each thinking or have a thread that can still get there |
| AgentTurns.ShutdownMakesItAmbiguous | cmd/daemon/handler.go:1519-1523 | whenever one task thinks and another of its agent waits, five steps of a shutdown make two match |
| WsClient.WSClient.ConnectSocket | frontend/lib/ws-client.ts:79-102 | the client after connect(), with or without a token |
| WsClient.WSClient.HandleOpen | frontend/lib/ws-client.ts:104-132 | the client and what was sent after a socket opened |
| WsClient.WSClient.HandleClose | frontend/lib/ws-client.ts:134-148 | the client after its socket closed |
| WsClient.WSClient.DisconnectSocket | frontend/lib/ws-client.ts:161-166 | the client after disconnect() |
| WsClient.WSClient.Reconnect | frontend/lib/ws-client.ts:168-174 | the client after forceReconnect() |
| WsClient.WSClient.SubscribeChannel | frontend/lib/ws-client.ts:177-185 | the client after subscribe(), connected or not |
| WsClient.WSClient.UnsubscribeChannel | frontend/lib/ws-client.ts:188-193 | the client after unsubscribe() |
| WsClient.WSClient.SubscribeThread | frontend/lib/ws-client.ts:196-203 | the client after subscribeThread() |
| WsClient.WSClient.UnsubscribeThread | frontend/lib/ws-client.ts:206-211 | the client after unsubscribeThread() |
| WsClient.WSClient.SubscribeDM | frontend/lib/ws-client.ts:214-221 | the client after subscribeDM() |
| WsClient.WSClient.UnsubscribeDM | frontend/lib/ws-client.ts:224-229 | the client after unsubscribeDM() |
| WsClient.WSClient.Schedule | frontend/lib/ws-client.ts:284-297 | the timer's delay and the next one |
| WsClient.WSClient.CleanupSocket | frontend/lib/ws-client.ts:321-332 | the old socket loses its callbacks and is closed |
| WsClient.ServerMirrorsClient | frontend/lib/ws-client.ts:79-229 | in every run replaying what was sent on the open socket gives the wanted channels, threads and DMs, and the delay is min(1000 * 2^k, 30000) for k reconnects since the last open |
| WsClient.WantedIsLastSaid | frontend/lib/ws-client.ts:177-229 | in every run, connected or not, a topic is wanted exactly when the last call about it was to subscribe |
| WsClient.CallsConnect | frontend/lib/ws-client.ts:79-174 | connect() makes a socket unless there is one, forceReconnect() in any case, and disconnect() gives up the socket, the timer and the watchdog |
| WsClient.TimersReconnect | frontend/lib/ws-client.ts:284-332 | a pending reconnect, and the watchdog, make a new socket if there is a token, leaving the old one behind |
| WsClient.CloseSchedulesReconnect | frontend/lib/ws-client.ts:134-148 | each close of the current socket schedules one reconnect with that delay and is never taken for intentional |
| WsClient.StaleSocketsAreSilent | frontend/lib/ws-client.ts:321-332 | events of a replaced socket change nothing of the client |
| WsClient.DisconnectIsQuiet | frontend/lib/ws-client.ts:161-166 | in every run disconnect() leaves no socket and no timer, and no timer or socket event after it changes the client |
| WsClient.AliveUnlessNoToken | frontend/lib/ws-client.ts:88-96 | a client with a socket or a pending reconnect keeps one, except exactly when a timer, the watchdog or forceReconnect finds no token |
| WsClient.NeverStranded | frontend/lib/ws-client.ts:79-148 | with a token at these moments the client never stays down by itself |
| ReliableSend.ReliableSends.SendReliably | frontend/lib/reliable-send.ts:33-48 | the entry, the request and the marks of a new send |
| ReliableSend.ReliableSends.StartRequest | frontend/lib/reliable-send.ts:94-102 | an attempt is made only for a pending entry without one |
| ReliableSend.ReliableSends.AcknowledgeReliableSend | frontend/lib/reliable-send.ts:50-62 | a pending send is removed, its timer cleared, confirmed and resolved |
| ReliableSend.ReliableSends.RetryReliableSend | frontend/lib/reliable-send.ts:64-72 | the timer is cleared and an attempt made, unless one is under way |
| ReliableSend.ReliableSends.CancelReliableSend | frontend/lib/reliable-send.ts:74-80 | a pending send is removed, its timer cleared and resolved with nothing |
| ReliableSend.ReliableSends.HandleFailure | frontend/lib/reliable-send.ts:106-115 | a failure counts only for the entry it belongs to, and is timed while fewer than three attempts were made |
| ReliableSend.EachSendIsOrderly | frontend/lib/reliable-send.ts:33-116 | in every run that does not reuse a pending id a send's requests, failures, confirmation and resolution come in the allowed order, it is settled exactly when no longer pending, at most one request is under way, at most three attempts beyond the user's |
| ReliableSend.NothingAfterResolve | frontend/lib/reliable-send.ts:50-62 | a send resolves once, confirms once, and reports nothing after it resolved |
| ReliableSend.PendingSendSettles | frontend/lib/reliable-send.ts:50-80 | a pending send resolves with nothing when cancelled, and is confirmed and resolves when acknowledged or answered |
| ReliableSend.PendingSendGoesOn | frontend/lib/reliable-send.ts:64-116 | a failed request counts for its pending send, and its timer or a retry by hand makes the next request |
| ReliableSend.NoSendIsForgotten | frontend/lib/reliable-send.ts:94-116 | a pending send has a request under way, or a retry timed after 3 or 4 seconds, or three failed attempts |
| ReliableSend.TimersBelongToWaiting | frontend/lib/reliable-send.ts:64-72 | an armed timer belongs to a pending send without a request |
| ReliableSend.ReusedIdNeverResolves | frontend/lib/reliable-send.ts:37-48 | a send under the id of a pending one takes its place, and the first never resolves |
| ReliableSend.NewSendIsHarmlessIff | frontend/lib/reliable-send.ts:37-48 | a new send leaves every earlier unsettled one able to settle exactly when its id is not pending |
| Order.TopologicalOrder | evals/cases.py:51-62 | raises exactly when the graph has a cycle, self-loops included; otherwise the lexicographically least list of all nodes in which each follows its prerequisites |
| Order.GraphMeans | evals/cases.py:51-54 | the nodes are the keys and everything listed under one, and a node depends on what is listed under it |
| Order.PopAll | evals/cases.py:54-60 | the heap loop places, at every step, the least node whose prerequisites are placed |
| Order.GreedyIsLeast | evals/cases.py:54-60 | that list is least among all orders |
| Order.OrderHasNoCycle | evals/cases.py:61-61 | a graph with an order has no cycle |
| Order.RestHasCycle | evals/cases.py:61-61 | when the loop stops early, what is left contains a cycle |
| Closure.TransitiveDeps | evals/cases.py:177-185 | raises exactly when a cycle is reachable from the target; otherwise the ascending list of the nodes reachable from it without itself |
| Closure.Visitor.Visit | evals/cases.py:179-184 | the search adds only and all reachable nodes, and fails only with a cycle from the root |
| Covered.UnionLength | evals/cases.py:140-146 | rejects exactly the reversed intervals; otherwise the measure of the union of the half-open intervals |
| Covered.ComponentsAreUnique | evals/cases.py:140-146 | the maximal components of a set of points are unique |
| Covered.MeasureIsUnique | evals/cases.py:140-146 | the measure depends on the covered points alone, so not on order, duplicates, nesting or touching ends |
| Allocate.Apportion | evals/cases.py:162-171 | the error cases, shares that add up to the total, nothing for a zero weight, each share within a cent of its exact quota, and the extra cents for the largest remainders, ties by index |
| Allocate.ShareByRemainder | evals/cases.py:168-171 | floors plus one cent for the largest remainders, ties by index |
| Allocate.AllocationIsUnique | evals/cases.py:162-171 | there is only one largest-remainder allocation |
| Batches.SplitIntoBatches | evals/cases.py:256-265 | the error cases, an order-preserving split within both limits, and no such split has fewer batches |
| Batches.BytesMeans | evals/cases.py:260-260 | the size of an item is its length in UTF-8 |
| Batches.GreedyStaysAhead | evals/cases.py:259-264 | j greedy batches cover at least as much as j batches of any other split |
| Batches.GreedyIsFewest | evals/cases.py:256-265 | a greedy split is optimal |
| MergePatch.MergeInto | evals/cases.py:272-278 | the loop over a copy computes the recursive merge |
| MergePatch.MergedMembers | evals/cases.py:272-278 | which members the result has, and what each of them is |
| MergePatch.MergeIsIdempotent | evals/cases.py:272-278 | applying a patch twice is applying it once |
| MergePatch.DiffReaches | evals/cases.py:272-278 | the difference of two documents is a patch from one to the other |
| MergePatch.PatchExistsIff | evals/cases.py:272-278 | a patch between two documents exists exactly when the goal's nulls inside objects were already there |
| MergePatch.NullFreeIsReachable | evals/cases.py:272-278 | a document without null members is reachable from any other |

## Left out

- Processes, pipes, HTTP, WebSocket frames, files and the database are steps that may happen or inputs.
- JSON decoding: notifications are parsed values; missing strings are empty, and a missing thread id is told apart from an empty one.
- Regular expressions, trimming, tool name lookup and argument parsing are function parameters of `Sniffer` and `AcpTools`.
- 64-bit token counters and sequence numbers are unbounded integers.
- Time: timestamps are integers, timers are steps that may fire; durations in results are not modelled, nor is the model name under which ACP usage is filed.
- The ACP turn, the Codex turn signals in flight, the forwarders and the agent turns are modelled as state machines over values and not as objects on a heap, because the order of their steps is the point; the two classes they share fields with are `CodexTurn.TurnSignals` and `TaskHistory.TaskManager`.
- `ReliableSend` and `WsClient` keep entries, sockets and timers in tables with indices in place of references; reentrant calls from callbacks are not modelled.
- cancelAllReliableSends and retryFailedReliableSends are runs of single cancellations and retries.
- `CodexHandover` delivers the events of a section at once; the gap between the section and the chunk callback is not modelled.
- The waiter of an interrupt looks at the current turn's end and not at the channel of its own turn; it may give up at any moment all the same.
- Node names of `Order` and `Closure` are integers; only their order matters. The heap of `Order` is the set of its elements.
- CodexTurn.CallbacksFireOnce: takes a quiet prepareTurn as a condition; `CodexSession` derives it from the session's turn token.
- Of the session manager only the turn token and the outcome of a send are modelled; the second token per agent, starts, sleeping and crash recovery are not.
- AgentTurns.OneThinkerPerAgent: claims nothing during shutdown, where it fails.
- Forwarder.NewestIsTerminal: claims nothing when a shutdown suppressed the end of processing, where no terminal event is pushed.
- Replay to live SSE subscribers is not modelled.
- Restarted attempts of one task id in the forwarder, and truncation of large uploads.
- `Covered` is over exact numbers; floating-point end points, which Python accepts too, would be rounded.
- The other oracles (csv, datetime, text sections, redact, conflicts, safe_path, dedupe, delay, route): short, or resting on Python's library.
- The router, mail, React components, dashboard URLs, migrations, code gate decisions, command lines and report statistics.
