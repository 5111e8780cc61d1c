# Agentic worker: verified model

A Dafny model of the agentic-worker runtime's stateful core, with proofs about whole runs. The
theorems are for all inputs, all interleavings or all reachable states of the model; where the code
does not do what is documented, a lemma shows that at an input and a theorem says exactly when it
does.

`dafny verify dfyconfig.toml` checks the project.

| part | files |
|---|---|
| Chat transcript, suspended `flow:` tools, history truncation, the agent loop | `Transcript`, `Edits`, `History`, `Conversation`, `CallIds`, `AgentLoop`, `SideTurns`, `ParkedCalls`, `Requests`, `ParkedRuns` |
| JetStream request life cycle: error table, settlement, deliveries, pull loop | `ErrorAttempts`, `Settlement`, `RequestLife`, `PullLoop` |
| Attachments: references, document text, blocks, materialisation | `AttachmentRefs`, `Utf8Text`, `DocumentText`, `Blocks`, `Materialize` |
| Guardrail chains and the document guard | `Guardrails` |
| Streaming reply and tool names | `SseLines`, `StreamReply`, `ToolNames` |
| Retry decorators | `Retry` |

Objects the runtime changes in place are classes whose methods are proved against functions on
values; the theorems are about those functions. The agent loop, the request life and the pull
loop are state machines: an event that cannot happen leaves the state alone, so a theorem about
`Exec` of any event sequence is a theorem about every run.

## How the pieces fit

- A transcript is judged by position (`Transcript.ProviderValid`) and by a single scan
  (`Transcript.Unanswered`); the two are proved equal, every edit is shown to answer exactly the
  call it names in the scan, and the loop's invariant is stated on the scan.
- The error table is compared with its history by `ErrorsSince` and `NewerThan`, which never look
  at the table. The life of one request is then followed through a table shared with any other
  requests.
- A document block is read back by a reader (`Blocks.ReadBlocks`) that knows nothing but the
  opening delimiter and the width of the label in front of the name.
- Concurrent fetching is a schedule: how many files had been consumed when each fetch started.
  `NoCheck` is the same run without the early budget check.
- The stream decoder's meaning is a function of the lines; the lines are a function of the bytes.

## Where the code and its documentation differ

The model follows the code.

- `encode_tool_name` is documented to round-trip exactly (`llm_openai.rs:666-672`). It does not for
  ids such as `a_FN` or `a_DOT_b`; `ToolNames.RoundTripExactly` says for which pairs it does.
- The streaming path emits one delta per chunk: of two choices with text in one chunk only the last
  is emitted, while both go into the response. `StreamReply.ReplyShowsContent` gives the exact
  condition.
- The side-turn cap counts stored steps. A step that ends without storing the conversation gives
  its side turn back (`SideTurns.AbortedSideTurnsAreFree`); `SideTurns.SideTurnsAreBounded` says
  exactly when the cap bounds the turns granted.
- `pending_tool` is documented to mean that the call has no result yet (`state.rs:46-50`). Under the
  side-turn policy a placeholder is recorded with the park itself (`loop.rs:1129-1141`), and a side
  turn puts one in where there is none; the answer replaces it. `ParkedRuns.ParkedAndAnswered` is
  such a run and `ParkedCalls.ParkedCallWaitsExactly` says exactly when the documented meaning holds.
- Files sent with an answer that parked the flow again are documented to be announced in the call's
  result once it is answered (`state.rs:318-320`). A conversation that ends in a side turn answers
  the call without them (`ParkedRuns.EndForgetsFiles`); `ParkedCalls.UnreadFilesAreToldExactly` says
  that this is the only such end.
- After side turns the model is told that the form's result is in the conversation
  (`flow_suspend.rs:164-166`). The park no longer protects its turn by then, so truncation can drop
  it before the request (`ParkedRuns.ResultNotSent`); `Requests.ResultIsSentExactly` says when.
- Truncation is documented to leave a history that starts at a user message (`state.rs:82-84`). With
  an opening message it can start there (`ParkedRuns.OpeningIsSentFirst`); `Requests.UserSpeaksFirst`
  says that nothing else ever comes first.
- The early budget check is invisible except for an empty image after the budget is exactly spent
  (`Materialize.EmptyImageDependsOnSchedule`).

## Model

| member | source | states |
|---|---|---|
| `AgentLoop.EveryRequestIsValid` | crates/greentic-aw-runtime/src/loop.rs:639-770 | in every run (parks, refusals, resumes, re-parks, side turns, cancels, ends, failed and aborted steps, in any order), every transcript handed to the LLM is provider-valid: each result in the run right after the turn that made its call, no call unanswered |
| `AgentLoop.NeverOrphaned` | crates/greentic-aw-runtime/src/flow_suspend.rs:11-14 | at every point of every run no stored or live result is an orphan, none is repeated, and between steps the only unanswered call there can be is the parked one |
| `AgentLoop.StepKeeps` | crates/greentic-aw-runtime/src/loop.rs:225-1413 | every event of the loop keeps the invariant that ties the phase, the pending park and the unanswered calls together |
| `Requests.LastWord` | crates/greentic-aw-runtime/src/loop.rs:244-1345 | what the user, the model or the agent said is the last message of the transcript and of the next request if nothing is said in between; a final reply and an opening are stored so |
| `Requests.WhyAStepEnds` | crates/greentic-aw-runtime/src/loop.rs:617-1275 | each end reason exactly by what happened: time ran out; a flow waits for the user; the model ended the conversation; or there is a reply, which also stands for an end that was blocked |
| `Requests.WhenAStepGoesOn` | crates/greentic-aw-runtime/src/loop.rs:905-1275 | a step goes on exactly while the model makes calls, they are answered one by one in order, in time, and none parks |
| `Requests.ToolValueIsSent` | crates/greentic-aw-runtime/src/loop.rs:905-1250 | in every run, what a call of a batch was answered with is what the next request holds for it, whatever the rest of the batch returns and whatever is truncated |
| `ParkedCalls.ParkHoldsTheLatest` | crates/greentic-aw-runtime/src/flow_suspend.rs:377-418 | in every run, a park live, stored or with the flow has the snapshot and card of the last event that parked the call, and the flow of the call itself |
| `ParkedCalls.FreshlyParked` | crates/greentic-aw-runtime/src/loop.rs:1113-1141 | right after a park or a re-park the expiry is one hour away and no side turn is used |
| `ParkedCalls.SideTurnExtends` | crates/greentic-aw-runtime/src/flow_suspend.rs:243-250 | a side turn counts one and moves the expiry to an hour from now, but not past a day after the first parking |
| `SideTurns.CarriedStep` | crates/greentic-aw-runtime/src/flow_suspend.rs:181-250 | one event keeps the park, drops it, parks the same call again, or grants it exactly one side turn, and only when allowed |
| `SideTurns.SideTurnsAreBounded` | crates/greentic-aw-runtime/src/flow_suspend.rs:231-250 | between two parks at most what the cap left is granted if no step is cut short in a side turn; in general the cap is exceeded by no more than the turns cut short, and holds exactly when those fit into what the stored and running ones leave |
| `SideTurns.GrantedAreAccounted` | crates/greentic-aw-runtime/src/flow_suspend.rs:243-250 | in every run each side turn granted is stored, still running, or belongs to a step that was cut short |
| `SideTurns.StoredTurnsAreBounded` | crates/greentic-aw-runtime/src/flow_suspend.rs:231-250 | without a new park, the turns stored plus the one still running never exceed what the cap left, and the counters, live and stored, grow by exactly those |
| `SideTurns.TypedMessagesEndThePark` | crates/greentic-aw-runtime/src/flow_suspend.rs:181-226 | with no new park and no step cut short, one more typed message than the cap left and no park is left, live or, between steps, stored |
| `SideTurns.AbortedSideTurnsAreFree` | crates/greentic-aw-runtime/src/loop.rs:281-410 | a step that ends without storing the conversation gives its side turn back: any number can be granted that way without a new park |
| `SideTurns.SameParkThroughout` | crates/greentic-aw-runtime/src/flow_suspend.rs:408-418 | however often the flow parks again, the park keeps its call and its first parking time |
| `SideTurns.SideTurnsEndWithTheDay` | crates/greentic-aw-runtime/src/flow_suspend.rs:231-250 | however often the flow parks again, no side turn is granted at or after the first parking time plus the age cap, and each one leaves the expiry within it |
| `ParkedCalls.EveryParkGetsItsResult` | crates/greentic-aw-runtime/src/flow_suspend.rs:11-14 | in every run, whatever ends a park records its call's result: the flow's own, or a cancellation with the reason that holds; a step that is cut short ends no stored park, and no other event ends one |
| `ParkedCalls.UnreadFilesAreToldExactly` | crates/greentic-aw-runtime/src/state.rs:318-320 | in every run, when a park with unread files ends (other than by a step cut short), the result tells of them, exactly unless the conversation ended in a side turn |
| `ParkedCalls.ParkedTurnStays` | crates/greentic-aw-runtime/src/state.rs:76-151 | in every reachable state with a park, live, stored or with the flow, the turn that made the parked call is in the history |
| `ParkedCalls.StoredIsProper` | crates/greentic-aw-runtime/src/loop.rs:1409-1413 | every conversation a run from the empty one leaves in the store can start the runs of the other results: well paired, its park with its turn |
| `ParkedCalls.ParkedCallWaitsExactly` | crates/greentic-aw-runtime/src/state.rs:46-50 | in every run, between steps, the parked call is unanswered exactly when its park was recorded without a placeholder and no side turn was stored since; otherwise nothing waits |
| `ParkedRuns.ParkedAndAnswered` | crates/greentic-aw-runtime/src/loop.rs:1113-1141 | a run that ends parked: with a placeholder nothing waits, against the documented meaning; without one the call does |
| `ParkedRuns.EndForgetsFiles` | crates/greentic-aw-runtime/src/flow_suspend.rs:285-299 | a run whose park has an unread file when the conversation ends in a side turn: the stored result says nothing of it |
| `Requests.ResultIsSentExactly` | crates/greentic-aw-runtime/src/loop.rs:634-720 | in every run, a completed flow's result is in the next request exactly when the parked turn is the newest, or all messages from its start on are within the history limit |
| `Requests.TruncatedContent` | crates/greentic-aw-runtime/src/state.rs:89-151 | an unprotected truncation keeps a result exactly when its turn is the newest or all from it on fits |
| `ParkedRuns.ResultNotSent` | crates/greentic-aw-runtime/src/loop.rs:716-720 | a run in which the answered form's result is dropped before the model sees it |
| `Requests.UserSpeaksFirst` | crates/greentic-aw-runtime/src/state.rs:80-84 | in every run, the first message of a request that is not a system message is the user's, or the opening message; without an opening message always the user's |
| `ParkedRuns.OpeningIsSentFirst` | crates/greentic-aw-runtime/src/loop.rs:244-262 | a request that starts at the agent's opening message |
| `ParkedRuns.CapCanBePassed` | crates/greentic-aw-runtime/src/loop.rs:281-410 | a run that parks, from which one more side turn than the cap is granted without a new park, each by a step cut short |
| `Transcript.ScanIsPairing` | crates/greentic-aw-runtime/src/flow_suspend.rs:11-14 | the one-pass scan accepts a transcript with a given set of open calls exactly when results and calls pair up by position with that set open |
| `Transcript.ScanIsProviderValid` | crates/greentic-aw-runtime/src/loop.rs:905-914 | the scan ends with nothing open exactly on the transcripts a provider accepts |
| `Edits.PatchedScan` | crates/greentic-aw-runtime/src/flow_suspend.rs:65-89 | writing a result answers exactly that call and keeps the transcript well paired |
| `Edits.PatchLastWriteWins` | crates/greentic-aw-runtime/src/flow_suspend.rs:65-89 | writing twice is writing the last value |
| `Edits.PatchReadBack` | crates/greentic-aw-runtime/src/flow_suspend.rs:65-89 | what was written is what is read back for that call, exactly as long as the turn that made it is there |
| `Edits.AnnounceReadBack` | crates/greentic-aw-runtime/src/flow_suspend.rs:102-141 | the note is added to what the call returned |
| `Edits.AnnouncedKeeps` | crates/greentic-aw-runtime/src/flow_suspend.rs:102-141 | the note is one more member of an object, or stands beside any other value; nothing of the result is lost, and the note names the number of files |
| `Edits.PatchTouchesOneResult` | crates/greentic-aw-runtime/src/flow_suspend.rs:65-89 | writing changes one result of that call, adds one message, or changes nothing |
| `Edits.AnswerOpen` | crates/greentic-aw-runtime/src/flow_suspend.rs:424-444 | for an open call, adding its result at the end is recording it: that call alone is answered and reads back |
| `Edits.PlaceholderScan` | crates/greentic-aw-runtime/src/flow_suspend.rs:256-281 | holding a call with a placeholder answers exactly it; it can only fail if the call is not open |
| `Edits.PlaceholderReadBack` | crates/greentic-aw-runtime/src/flow_suspend.rs:256-281 | a call can be held exactly when its turn is there, and then reads as waiting for the user unless it had a result |
| `Edits.AnnounceUnreadScan` | crates/greentic-aw-runtime/src/flow_suspend.rs:102-141 | announcing unread files never changes how results and calls pair up |
| `Edits.OpenCallIsLatest` | crates/greentic-aw-runtime/src/flow_suspend.rs:44-61 | an open call is found in the latest turn that made it, whose run of results reaches the end of the transcript and has none for it |
| `Conversation.ConversationState.LatestTurn` | crates/greentic-aw-runtime/src/flow_suspend.rs:44-50 | the backward search finds the last assistant turn with the call |
| `Conversation.ConversationState.RunEnd` | crates/greentic-aw-runtime/src/flow_suspend.rs:52-61 | the scan stops at the first message after the turn that is not a result |
| `Conversation.ConversationState.PatchToolResult` | crates/greentic-aw-runtime/src/flow_suspend.rs:65-89 | the in-place edit replaces, inserts or leaves alone exactly as `Edits.Patched` |
| `Conversation.ConversationState.AnnounceUnreadAttachments` | crates/greentic-aw-runtime/src/flow_suspend.rs:102-141 | the in-place edit adds the note to exactly the result `Edits.AnnounceUnread` names |
| `Conversation.ConversationState.EnsurePlaceholder` | crates/greentic-aw-runtime/src/flow_suspend.rs:256-281 | the in-place edit holds the parked call exactly when its turn is still there, and does nothing otherwise |
| `Conversation.ConversationState.TakeParked` | crates/greentic-aw-runtime/src/flow_suspend.rs:181-226 | the whole state after taking a park: resumed, side turn, cancelled or expired |
| `Conversation.ConversationState.ResumeParked` | crates/greentic-aw-runtime/src/flow_suspend.rs:387-420 | the whole state after the flow completed or parked again; what it then holds is said by `Conversation.ResumeRecords`, `ParkedCalls.ParkHoldsTheLatest` and `ParkedCalls.FreshlyParked` |
| `Conversation.ConversationState.FinishSide` | crates/greentic-aw-runtime/src/flow_suspend.rs:285-310 | the whole state and the end reason after a side turn |
| `Conversation.ConversationState.RefuseBehind` | crates/greentic-aw-runtime/src/flow_suspend.rs:424-444 | an open call behind a park, and no other, leaves the unanswered calls, and its result reads back as the refusal |
| `Conversation.TakePendingReady` | crates/greentic-aw-runtime/src/flow_suspend.rs:181-226 | from any stored conversation, everything but a resume leaves it ready for the LLM, and the park survives exactly in a side turn |
| `Conversation.TakePendingExactly` | crates/greentic-aw-runtime/src/flow_suspend.rs:181-226 | the answer reaches the flow exactly when there is one and the park has not expired; without one a side turn is granted exactly when the policy asks for it, the park is within its hour, its day and its 20 turns, has a card, and its turn is there; a cancellation is recorded with the reason that holds, exactly as long as the call's turn is there (which `ParkedCalls.ParkedTurnStays` shows it is) |
| `Conversation.SideTurnHoldsTheCall` | crates/greentic-aw-runtime/src/flow_suspend.rs:181-226 | in a side turn the parked call reads as waiting for the user, or as what was recorded before |
| `Conversation.ResumeRecords` | crates/greentic-aw-runtime/src/loop.rs:634-669 | a completed flow's result is what the call returned, with unread files announced, exactly as long as the call's turn is there (which `ParkedCalls.ParkedTurnStays` shows it is) |
| `Conversation.ResumeKeeps` | crates/greentic-aw-runtime/src/flow_suspend.rs:387-420 | a completed flow leaves the conversation ready; a new park leaves it at rest with the same call parked |
| `Conversation.FinishSideTurnReady` | crates/greentic-aw-runtime/src/flow_suspend.rs:285-310 | ending a side turn keeps the conversation ready, and touches nothing while the park lives on |
| `Conversation.FinishSideTurnExactly` | crates/greentic-aw-runtime/src/flow_suspend.rs:285-310 | a conversation that ended cancels the park for that reason; otherwise the park is untouched and its card is offered again as awaiting input |
| `Conversation.ConversationState.TruncateHistory` | crates/greentic-aw-runtime/src/state.rs:89-116 | the removal loop computes `History.Truncated`, protecting the parked call |
| `History.TruncatedScan` | crates/greentic-aw-runtime/src/state.rs:76-151 | truncation leaves exactly the same calls open |
| `History.TruncatedProtects` | crates/greentic-aw-runtime/src/state.rs:89-151 | truncation keeps everything that mentions the protected call |
| `History.TruncatedKeeps` | crates/greentic-aw-runtime/src/state.rs:76-151 | truncation keeps every system message, everything of the protected call and the newest turn, and stops only within the limit or when every turn left is the newest or holds the protected call |
| `History.TruncatedExactly` | crates/greentic-aw-runtime/src/state.rs:89-151 | while there is too much, the oldest turn that is neither the newest nor holds the protected call goes, all but its system messages; otherwise nothing changes. These equations determine the truncation |
| `CallIds.EnsureUniqueCallIds` | crates/greentic-aw-runtime/src/tools.rs:918-926 | the in-place loop renames exactly the calls whose id is blank or taken by an earlier call |
| `CallIds.RenamedIsDistinct` | crates/greentic-aw-runtime/src/tools.rs:912-926 | afterwards all ids of the batch differ and none is blank, given random ids that are new |
| `CallIds.RenamedOnce` | crates/greentic-aw-runtime/src/tools.rs:918-926 | a second pass changes nothing |
| `ErrorAttempts.ErrorTable.RecordError` | crates/aw-event-bridge/src/jetstream.rs:346-369 | the map and the queue after a record, in place, with the count returned; the table stays valid |
| `ErrorAttempts.ErrorTable.ClearSequence` | crates/aw-event-bridge/src/jetstream.rs:371-378 | the map and the queue after a clear, in place; the table stays valid |
| `ErrorAttempts.AfterIsValid` | crates/aw-event-bridge/src/jetstream.rs:331-378 | over any trace the queue has no duplicates, holds exactly the keys of the map and never exceeds the cap |
| `ErrorAttempts.TableMatchesHistory` | crates/aw-event-bridge/src/jetstream.rs:345-378 | over any trace a sequence is tracked exactly when it has errors since its last clear or eviction, with exactly that count, behind exactly the sequences recorded after it |
| `ErrorAttempts.KeptWhileFewOthers` | crates/aw-event-bridge/src/jetstream.rs:314-318 | a sequence not cleared since its last record keeps its exact count as long as fewer than 4096 other sequences were recorded since |
| `Settlement.SettleAndCount` | crates/aw-event-bridge/src/jetstream.rs:397-416 | the settlement with its effect on the shared table |
| `Settlement.BusyDelaySchedule` | crates/aw-event-bridge/src/jetstream.rs:454-466 | the busy delays are 5, 10, 20, 40 and then 60 seconds, whatever the delivery count |
| `Settlement.HandleTimeoutFollows` | crates/aw-event-bridge/src/jetstream.rs:474-486 | the handler bound is the agent's own timeout plus 35 seconds, between 4 and 30 minutes; the busy budget is a minute more |
| `Settlement.BusyPolicyExactly` | crates/aw-event-bridge/src/jetstream.rs:517-531 | a busy request is put off exactly while a delivery is left and the next one is still within the budget |
| `Settlement.BusyBudgetIsFinite` | crates/aw-event-bridge/src/jetstream.rs:470-486 | the age budget of a busy request is bounded for every step timeout |
| `Settlement.PrivateCounter` | crates/aw-event-bridge/src/jetstream.rs:345-416 | for any interleaving of requests, the shared table serves a request that is not evicted as a private counter of its own errors would |
| `Settlement.FewOthersNeverEvict` | crates/aw-event-bridge/src/jetstream.rs:314-369 | a request is not evicted as long as fewer than 4096 others fail |
| `Settlement.ErrorBudget` | crates/aw-event-bridge/src/jetstream.rs:397-416 | for any interleaving, a failing delivery ends the request exactly on its sixth error since its last non-Nak settlement or at the delivery backstop; busy deliveries never count; it stays tracked exactly when Nak'd with errors |
| `RequestLife.Bridge.HandleMessage` | crates/aw-event-bridge/src/lib.rs:413-474 | the outcome and the responses published for one message; which response and when is said by `RequestLife.WhichResponse` |
| `RequestLife.Bridge.PublishFinalError` | crates/aw-event-bridge/src/lib.rs:492-509 | the last error response is published or not, as its scope and the publisher allow |
| `RequestLife.Bridge.HandleDelivery` | crates/aw-event-bridge/src/jetstream.rs:818-925 | the settlement, the table and the published responses of one delivery |
| `RequestLife.WhichResponse` | crates/aw-event-bridge/src/lib.rs:413-474 | which response a delivery publishes and exactly when: the agent's reply, busy, invalid, timed out or failed |
| `RequestLife.HowSettled` | crates/aw-event-bridge/src/jetstream.rs:818-925 | acked exactly when something was published in time; terminated when late or refused; put off as busy with the schedule's delay, otherwise after an error by 2 seconds |
| `RequestLife.WithoutMetadata` | crates/aw-event-bridge/src/jetstream.rs:830-847 | a delivery without metadata is the last: never put off, a busy session answered |
| `RequestLife.OneDelivery` | crates/aw-event-bridge/src/jetstream.rs:818-925 | a delivery publishes at most one response, none if Nak'd, one if Ack'd; a Nak is only sent below the delivery cap, with or without metadata |
| `RequestLife.AtMostOneResponse` | crates/aw-event-bridge/src/lib.rs:413-474 | over a whole life at most one response is published, on the last delivery, exactly one if that was Ack'd, and every Nak leaves a delivery |
| `RequestLife.BoundedLife` | crates/aw-event-bridge/src/jetstream.rs:298-312 | with every delivery handled by one process, for any interleaving of outcomes and of other requests: at most 33 busy Naks, 5 error Naks and 39 deliveries, settled by the 39th, so the delivery-cap guards are never what ends it |
| `RequestLife.AnsweredExactlyOnce` | crates/aw-event-bridge/src/jetstream.rs:896-899 | a correlated request whose answers of last resort can be published gets exactly one response, when it is settled for good, which is by its 39th delivery; no request gets two |
| `RequestLife.AnswerIsTheLast` | crates/aw-event-bridge/src/jetstream.rs:818-925 | over a whole life, what a request got is exactly what its last delivery published |
| `RequestLife.ReplyReachesTheCaller` | crates/aw-event-bridge/src/lib.rs:413-474 | over a whole life, the caller gets the agent's reply exactly when the last delivery could be read, ran in time, was answered and published; busy, invalid and late requests are told so |
| `RequestLife.WorstCase` | crates/aw-event-bridge/src/jetstream.rs:454-486 | the three bounds are attained by one run, so none can be smaller |
| `PullLoop.Puller.AcquireBatch` | crates/aw-event-bridge/src/jetstream.rs:187-200 | takes all free permits up to a batch, at least one |
| `PullLoop.Puller.OnMessage` | crates/aw-event-bridge/src/jetstream.rs:692-706 | a message moves one slot to a running handler; without a slot it is left |
| `PullLoop.Puller.OnPullError` | crates/aw-event-bridge/src/jetstream.rs:640-690 | the counters, permits and delay after each class of pull error |
| `PullLoop.Puller.OnOpenFailed` | crates/aw-event-bridge/src/jetstream.rs:719-735 | the counters, permits and delay after a failed pull |
| `PullLoop.Puller.OnBatchEnd` | crates/aw-event-bridge/src/jetstream.rs:707-718 | the state after a pull that ended cleanly or after a pause; an empty batch pauses within its window, any other not at all |
| `PullLoop.Puller.RecreateConsumer` | crates/aw-event-bridge/src/jetstream.rs:751-816 | the counters and the delay after re-creating the consumer, successful or not |
| `PullLoop.PermitsAreConserved` | crates/aw-event-bridge/src/jetstream.rs:616-739 | in every run free permits, held slots and running handlers add up to the in-flight limit |
| `PullLoop.EveryMessageRuns` | crates/aw-event-bridge/src/jetstream.rs:187-200 | if the server honours the batch size, every message finds a slot |
| `PullLoop.BatchSize` | crates/aw-event-bridge/src/jetstream.rs:187-200 | in every run a pull takes the free permits up to 16, at least one, and asks for that many messages |
| `PullLoop.CountersMatchHistory` | crates/aw-event-bridge/src/jetstream.rs:141-157 | in every run the fault count is the failed pulls since the last proof of life or re-creation, and the backoff attempt the pauses and re-creations since the last proof of life |
| `PullLoop.AttemptGrows` | crates/aw-event-bridge/src/jetstream.rs:751-816 | without a proof of life the backoff attempt never shrinks |
| `PullLoop.GoneDelaysEscalate` | crates/aw-event-bridge/src/jetstream.rs:506-515 | without a proof of life, repeated consumer-gone delays never decrease and reach 30 s |
| `PullLoop.BackoffSchedule` | crates/aw-event-bridge/src/jetstream.rs:511-515 | the pauses are half a second, doubling up to 30 seconds |
| `PullLoop.EmptyPullsPause` | crates/aw-event-bridge/src/jetstream.rs:160-169 | a pull that brought nothing pauses from 50 to under 100 milliseconds, any other not at all |
| `PullLoop.FaultPauses` | crates/aw-event-bridge/src/jetstream.rs:640-816 | in every run, how long each fault pauses, by the history alone: the escalating pause, half a second after the third failure whose re-creation succeeds, and half a second for a full queue |
| `PullLoop.RecreationAbandonsThePull` | crates/aw-event-bridge/src/jetstream.rs:654-688 | in every run, a gone consumer or the third failure in a row abandons the pull and gives its slots back; any other pull error keeps both |
| `AttachmentRefs.ParseFlowAttachments` | crates/greentic-aw-runtime/src/attachments.rs:117-187 | the loop yields the references and skip codes of `Entries`, one verdict per element |
| `AttachmentRefs.FirstFiveDistinct` | crates/greentic-aw-runtime/src/attachments.rs:117-187 | the references are the first five distinct valid ones in order; every element gives exactly one reference or one skip code |
| `AttachmentRefs.EntrySays` | crates/greentic-aw-runtime/src/attachments.rs:117-187 | what becomes of each list element: the reference's type, name, size, kind and text, or the skip code, read off the element, its metadata and its note at the same index |
| `AttachmentRefs.ArtifactRefIs` | crates/greentic-aw-runtime/src/attachments.rs:21-30 | a reference is valid exactly when it is the scheme followed by 64 lower-case hexadecimal digits |
| `AttachmentRefs.CleanStays` | crates/greentic-aw-runtime/src/attachments.rs:131-180 | a clean trimmed name of at most 120 characters is kept as it is |
| `AttachmentRefs.DroppedLeavesNoTrace` | crates/greentic-aw-runtime/src/attachments.rs:131-180 | what is dropped from a name leaves no trace |
| `DocumentText.SanitizeIdempotent` | crates/greentic-aw-runtime/src/attachments_materialize.rs:560-569 | sanitising twice is sanitising once |
| `DocumentText.SanitizeExactly` | crates/greentic-aw-runtime/src/attachments_materialize.rs:560-569 | what becomes of each character wherever it stands: kept, made a newline or a parenthesis, or dropped |
| `DocumentText.OrdinaryTextStays` | crates/greentic-aw-runtime/src/attachments_materialize.rs:560-569 | text without stripped characters and delimiters is not changed |
| `DocumentText.CleanNameStays` | crates/greentic-aw-runtime/src/attachments_materialize.rs:534-547 | a clean trimmed name of at most 120 characters is itself |
| `Utf8Text.Utf8IsEncodedLength` | crates/greentic-aw-runtime/src/attachments_materialize.rs:519-530 | the size limits count the bytes of the UTF-8 encoding |
| `DocumentText.KeepText` | crates/greentic-aw-runtime/src/attachments_materialize.rs:519-530 | the loop over lazily sanitised characters computes `KeptText` and whether anything was cut |
| `DocumentText.KeptTextIsLongest` | crates/greentic-aw-runtime/src/attachments_materialize.rs:519-530 | what is kept is the longest prefix of the sanitised text within both limits, marked as cut exactly when it is not everything |
| `DocumentText.KeptSomething` | crates/greentic-aw-runtime/src/attachments_materialize.rs:519-530 | something is kept exactly when there is a character and the first one fits both limits |
| `DocumentText.KeptTextIdempotent` | crates/greentic-aw-runtime/src/attachments_materialize.rs:519-530 | keeping kept text changes nothing |
| `DocumentText.SanitizeName` | crates/greentic-aw-runtime/src/attachments_materialize.rs:534-547 | a name is one non-empty line of at most 120 characters without delimiters |
| `Blocks.Unforgeable` | crates/greentic-aw-runtime/src/attachments_materialize.rs:47-51 | for all sanitised names and texts and any plain nonce, the lines that start with the delimiter are exactly the begin and end lines written, in order, and splitting on them gives back every name and text |
| `Blocks.MarkersAreDistinct` | crates/greentic-aw-runtime/src/attachments_materialize.rs:492-504 | a marker determines its document number, its nonce and which end it is |
| `Blocks.IntroQuotesTheEnd` | crates/greentic-aw-runtime/src/attachments_materialize.rs:492-504 | the sentence before a block quotes that block's end marker |
| `Blocks.JoinedLines` | crates/greentic-aw-runtime/src/attachments_materialize.rs:496-504 | joining the lines of a text gives the text back |
| `Blocks.RenderLines` | crates/greentic-aw-runtime/src/attachments_materialize.rs:427-514 | the lines of the appended text are, in order, one bracketed line per note and, per document, its introduction, begin line, name, text and end line, with a note of the cut when there was one |
| `Materialize.PlanAll` | crates/greentic-aw-runtime/src/attachments_materialize.rs:342-372 | each plan is decided by the file and the declared sizes before it; which plan is said by `Materialize.PlannedExactly` |
| `Materialize.PlannedExactly` | crates/greentic-aw-runtime/src/attachments_materialize.rs:342-372 | a document is fetched by its text, an image by its id unless it cannot be seen or its declared size, with those of the earlier images planned for fetching, is over 20 MiB |
| `Materialize.AllImagesAreFetched` | crates/greentic-aw-runtime/src/attachments_materialize.rs:342-372 | if the declared sizes of all images add up to at most 20 MiB, every image is fetched by a model that can see |
| `Materialize.BudgetsHold` | crates/greentic-aw-runtime/src/attachments_materialize.rs:285-327 | for false declared sizes, guard rewrites and every schedule: the byte counter is exactly what is kept and within the budget, each document keeps at most 15,000 characters and all together 30,000 |
| `Materialize.ScheduleIndependent` | crates/greentic-aw-runtime/src/attachments_materialize.rs:258-327 | whatever each fetch sees of the byte counter, every file ends as in a run without the early check, up to the wording of a note; the exact exception is an empty image whose fetch finds the budget spent |
| `Materialize.SameOutput` | crates/greentic-aw-runtime/src/attachments_materialize.rs:258-327 | with no empty images, the images and blocks equal those of a run without the early check |
| `Materialize.EmptyImageDependsOnSchedule` | crates/greentic-aw-runtime/src/attachments_materialize.rs:258-279 | two images of 10 MiB, a missing one and an empty one, through a reader like the artifact door's and with three fetches in flight: two schedules, two outputs |
| `Materialize.NoSilentDrop` | crates/greentic-aw-runtime/src/attachments_materialize.rs:231-238 | every reference gets exactly one image, block or note, in order and true of its file; "more than five" is said exactly of those past the fifth |
| `Materialize.ShownExactlyWhen` | crates/greentic-aw-runtime/src/attachments_materialize.rs:285-327 | an image is sent exactly when it can be seen, was not declared too big, can be read and fits what the items before it left; a document is shown exactly when something of it passes the caps and the guard; a note gives a reason exactly when it is the reason |
| `Materialize.ParsedEndToEnd` | crates/greentic-aw-runtime/src/attachments_materialize.rs:329-336 | after parsing, list elements are references or skip codes, references are items, and "more than five" is never said |
| `Materialize.OutputUnforgeable` | crates/greentic-aw-runtime/src/attachments_materialize.rs:427-514 | whatever the names, the texts and the guard's rewrites, the blocks of the output cannot be forged and read back exactly |
| `Materialize.BlocksAreLongest` | crates/greentic-aw-runtime/src/attachments_materialize.rs:446-490 | without a rewrite, each block holds the longest prefix of its sanitised text within 15,000 characters, what the blocks before it left of 30,000, and what was left of 20 MiB, with a truncation note exactly when it is not all |
| `Materialize.IdentityGuard` | crates/greentic-aw-runtime/src/attachments_materialize.rs:456-480 | a guard that returns every text unchanged gives the output of no guard |
| `Materialize.RewriteOfTheSameText` | crates/greentic-aw-runtime/src/attachments_materialize.rs:470-480 | re-keeping the guard's answer always gives the same as first comparing it with the text |
| `Materialize.ShownTextPassedTheChain` | crates/greentic-aw-runtime/src/attachments_materialize.rs:456-480 | every document shown passed the whole inbound chain, with no evaluation failing, on exactly what was kept of it, and what is shown is what the chain left, kept again |
| `Materialize.Materialized.PushImage` | crates/greentic-aw-runtime/src/attachments_materialize.rs:391-408 | the output after one image, and the bytes it kept |
| `Materialize.Materialized.PushDocument` | crates/greentic-aw-runtime/src/attachments_materialize.rs:427-514 | the output after one document, the characters left and the bytes it kept |
| `Materialize.Materialize` | crates/greentic-aw-runtime/src/attachments_materialize.rs:239-337 | the images and the text are those of the items of the run; nothing for no files, one note without a reader |
| `Guardrails.RunChainTracked` | crates/greentic-aw-runtime/src/guardrail.rs:429-517 | the loop with early return computes `RunChain`, and the flag says whether any evaluation failed; what the chain does is said from the verdicts by `Guardrails.PassedByVerdicts` and `Guardrails.DeniedByVerdict` |
| `Guardrails.ChainsCompose` | crates/greentic-aw-runtime/src/guardrail.rs:429-517 | running `a + b` is running `b` on what `a` left, observations joined |
| `Guardrails.EvaluatesUpToTheFirstBlock` | crates/greentic-aw-runtime/src/guardrail.rs:429-517 | exactly the prefix up to the first guardrail that blocks (by `Guardrails.BlocksExactly`) is evaluated, in order |
| `Guardrails.BlocksExactly` | crates/greentic-aw-runtime/src/guardrail.rs:429-517 | from the verdict alone: what blocks is an enforced denial, or a mandatory guardrail that could not be evaluated |
| `Guardrails.PassedByVerdicts` | crates/greentic-aw-runtime/src/guardrail.rs:429-517 | of a chain that passes, from the verdicts alone: each guardrail was shown the content after the verdict before it, the result is the last rewrite or the text itself, and the observations are exactly the monitored denials in order |
| `Guardrails.DeniedByVerdict` | crates/greentic-aw-runtime/src/guardrail.rs:429-517 | a denied chain reports the verdict of the guardrail that blocked, or that a required one is unavailable |
| `Guardrails.ShownWhatIsLeft` | crates/greentic-aw-runtime/src/guardrail.rs:429-517 | each guardrail is shown what the ones before it left |
| `Guardrails.Check` | crates/greentic-aw-runtime/src/attachment_guard.rs:94-140 | a text is allowed exactly when the message path passes it and no evaluation failed, with that same content |
| `Guardrails.FailOpenIsWithheld` | crates/greentic-aw-runtime/src/attachment_guard.rs:142-159 | where the message path fails open on a guardrail, the document is withheld |
| `Guardrails.AssembleChain` | crates/greentic-aw-runtime/src/guardrail.rs:259-300 | mandatory guardrails first, then the agent's; unresolved mandatory ones are reported together |
| `Guardrails.NoMandatoryIsSkipped` | crates/greentic-aw-runtime/src/guardrail.rs:259-300 | a chain is built exactly when every mandatory capability resolves, and then holds each of them |
| `Guardrails.ResolvedInOrder` | crates/greentic-aw-runtime/src/guardrail.rs:259-300 | the references that resolve become guardrails in order, each with its own extension, capability, mode and configuration; the capabilities of the others are reported in order |
| `SseLines.SseLineBuffer.PushBytes` | crates/greentic-aw-runtime/src/llm_openai.rs:403-416 | the drain loop yields the complete lines and keeps the rest, never a newline |
| `SseLines.SseLineBuffer.TakeRemainder` | crates/greentic-aw-runtime/src/llm_openai.rs:418-426 | the last line without a newline, once |
| `SseLines.SplitConserves` | crates/greentic-aw-runtime/src/llm_openai.rs:403-426 | lines and remainder together are the bytes, none lost or duplicated |
| `SseLines.LinesAreLines` | crates/greentic-aw-runtime/src/llm_openai.rs:403-416 | each line has exactly one newline, at its end |
| `SseLines.TrimEndIs` | crates/greentic-aw-runtime/src/llm_openai.rs:403-426 | a line loses all line-ending characters at its end and nothing else |
| `SseLines.ChunkingIndependent` | crates/greentic-aw-runtime/src/llm_openai.rs:380-427 | any two ways of cutting the same bytes give the same lines and remainder |
| `StreamReply.StreamAccumulator.Push` | crates/greentic-aw-runtime/src/llm_openai.rs:484-531 | the accumulator after one line and what it emits; a bad line changes nothing; how a line is read is said by `StreamReply.DataLine` and `StreamReply.OtherLine` |
| `StreamReply.DataLine` | crates/greentic-aw-runtime/src/llm_openai.rs:484-503 | a line `data:` with white space anywhere around its payload is the end mark exactly for `[DONE]`, and otherwise the parsed payload or an error |
| `StreamReply.OtherLine` | crates/greentic-aw-runtime/src/llm_openai.rs:484-503 | every other line is skipped |
| `StreamReply.StreamAccumulator.Finish` | crates/greentic-aw-runtime/src/llm_openai.rs:533-551 | the response: content, tokens, and the calls by increasing index with decoded name and arguments |
| `StreamReply.CompleteStreaming` | crates/greentic-aw-runtime/src/llm_openai.rs:351-377 | the whole streaming loop gives `Reply`: the response or first error, and the deltas |
| `StreamReply.ReplyIsOfLines` | crates/greentic-aw-runtime/src/llm_openai.rs:351-377 | response or error and deltas are a function of the stream's lines alone |
| `StreamReply.ReplyCallsReassembled` | crates/greentic-aw-runtime/src/llm_openai.rs:505-551 | the response has exactly the calls of the stream's fragments, by increasing index, each from its own fragments, whatever the interleaving |
| `StreamReply.ExpectedArguments` | crates/greentic-aw-runtime/src/llm_openai.rs:603-641 | each call's arguments are decoded from its own fragments joined in arrival order |
| `StreamReply.ArgsExactly` | crates/greentic-aw-runtime/src/llm_openai.rs:603-641 | blank arguments are an empty object, JSON is decoded, anything else is flagged with the longest prefix of at most 512 bytes |
| `StreamReply.ReplyCountsTokens` | crates/greentic-aw-runtime/src/llm_openai.rs:484-551 | the token counts are those of the last chunk that has any |
| `StreamReply.WhichError` | crates/greentic-aw-runtime/src/llm_openai.rs:472-482 | which error a stream without a response ends with, and exactly when |
| `StreamReply.ReplyShowsContent` | crates/greentic-aw-runtime/src/llm_openai.rs:484-551 | the deltas join to the response's content exactly when no chunk has two content-bearing choices, and are shorter otherwise |
| `StreamReply.CallsReachTheirTool` | crates/greentic-aw-runtime/src/llm_openai.rs:603-618 | a call by a declared tool's wire name reaches that tool, unless another declared tool shares the name |
| `StreamReply.ReplyIgnoresChunking` | crates/greentic-aw-runtime/src/llm_openai.rs:351-377 | deltas and response or first error do not depend on how the bytes were cut |
| `StreamReply.ToolCallsReassembled` | crates/greentic-aw-runtime/src/llm_openai.rs:505-531 | a call is there exactly when it has fragments, and its arguments are its own fragments in arrival order |
| `StreamReply.InterleavingDoesNotMatter` | crates/greentic-aw-runtime/src/llm_openai.rs:505-531 | streams with the same fragments per index give the same calls |
| `StreamReply.DeltasAreContent` | crates/greentic-aw-runtime/src/llm_openai.rs:484-531 | the deltas join to the content exactly when no chunk has two content-bearing choices, and otherwise are shorter |
| `StreamReply.TwoBearersLoseText` | crates/greentic-aw-runtime/src/llm_openai.rs:484-531 | a chunk with two content-bearing choices emits only the second |
| `StreamReply.ReplyExactlyWhenComplete` | crates/greentic-aw-runtime/src/llm_openai.rs:472-482 | a response is returned exactly when every line decodes, the end was marked or a finish reason given, and no tool call was cut at the token limit |
| `ToolNames.RoundTripExactly` | crates/greentic-aw-runtime/src/llm_openai.rs:673-688 | splitting undoes encoding exactly for the pairs `Faithful` describes, over all ids and tool names |
| `ToolNames.WithoutUnderscores` | crates/greentic-aw-runtime/src/llm_openai.rs:673-688 | for a non-empty id without underscores that is: no dot-separated segment after the first equals `FN` |
| `ToolNames.EncodingIsInjective` | crates/greentic-aw-runtime/src/llm_openai.rs:673-688 | faithful pairs never share a name |
| `ToolNames.NotEveryPairRoundTrips` | crates/greentic-aw-runtime/src/llm_openai.rs:666-672 | two ids whose names do not split back, against the documentation |
| `ToolNames.NoDots` | crates/greentic-aw-runtime/src/llm_openai.rs:673-680 | a name has no dot when the tool name has none |
| `ToolNames.EveryNameIsWireSafe` | crates/greentic-aw-runtime/src/tool_wire_name.rs:53-100 | every pair gets a name of 1 to 64 accepted characters |
| `ToolNames.NamesAreReadable` | crates/greentic-aw-runtime/src/tool_wire_name.rs:68-90 | the plain name is used exactly when it is accepted and splits back; otherwise the name is the two slugs and the digest, the slugs whole when they fit |
| `ToolNames.BodyKeepsBoth` | crates/greentic-aw-runtime/src/tool_wire_name.rs:171-198 | within 55 characters a tool slug of up to 43 and an extension slug of up to 8 are kept whole, both when together they fit |
| `ToolNames.SlugJoinsWords` | crates/greentic-aw-runtime/src/tool_wire_name.rs:153-169 | a word stays, any run of other characters after it is one underscore, and nothing at the end; with `ToolNames.SlugOfWord` and `ToolNames.SlugSkipsLeading` this determines the slug |
| `ToolNames.SlugOfWord` | crates/greentic-aw-runtime/src/tool_wire_name.rs:153-169 | letters, digits and dashes are their own slug |
| `ToolNames.SlugSkipsLeading` | crates/greentic-aw-runtime/src/tool_wire_name.rs:153-169 | other characters in front are dropped |
| `ToolNames.ToolNameCodec.Decode` | crates/greentic-aw-runtime/src/tool_wire_name.rs:130-138 | declared names are looked up, others split |
| `ToolNames.DecodesDeclaredTools` | crates/greentic-aw-runtime/src/tool_wire_name.rs:105-138 | a declared tool decodes to itself, unless another declared tool has the very same wire name |
| `ToolNames.DecodesTheFirst` | crates/greentic-aw-runtime/src/tool_wire_name.rs:105-138 | of several declared tools with one wire name, the first is meant |
| `ToolNames.UndeclaredNamesAreSplit` | crates/greentic-aw-runtime/src/tool_wire_name.rs:130-138 | the plain name of a pair nobody declared still reaches it, if the pair is faithful |
| `ToolNames.PlainNamesDoNotCollide` | crates/greentic-aw-runtime/src/tool_wire_name.rs:53-100 | tools whose plain name is used unchanged never collide |
| `Retry.Complete` | crates/greentic-aw-runtime/src/llm.rs:123-239 | the decorators' loops give `Invoke`, in both modes |
| `Retry.TowerIsItsInnermost` | crates/greentic-aw-runtime/src/llm.rs:123-204 | a tower of decorators behaves as its innermost retrying one |
| `Retry.AttemptsRun` | crates/greentic-aw-runtime/src/llm.rs:128-204 | attempts stop at the first success or non-retryable error, in streaming also after the first delta, with doubling delays; all deltas come from the attempt whose result is returned |
| `Retry.DoubledIs` | crates/greentic-aw-runtime/src/llm.rs:128-204 | the pause before the n-th retry is the backoff times two to the n, up to the longest duration |
| `Retry.TowersNeverMultiply` | crates/greentic-aw-runtime/src/llm.rs:123-239 | any nesting calls the backend at most max(1, attempts of the innermost decorator) times, with everything said of a single loop |
| `Retry.LimitsYieldToTheBackend` | crates/greentic-aw-runtime/src/llm.rs:243-252 | the agent's attempts and backoff govern a backend that does not retry by itself, and do nothing to one that does |

## Left out

- RequestLife.BoundedLife: assumes that one process handles every delivery of the request (the error count is local to a process, so a redelivery to another replica starts from zero), that redelivery comes only through Naks and not before the asked delay, that the request is never evicted from the error table (`Settlement.FewOthersNeverEvict`), and that the consumer is not re-created; a re-created consumer restarts the delivery count.
- RequestLife.AtMostOneResponse: assumes that publishing is atomic and that settlements reach the server; a crash between publishing and acknowledging is absorbed by the dispatch ledger, which is not part of this model.
- Materialize.ScheduleIndependent: the reader is a function of the artifact id; a reader whose answers change between reads is outside it.
- Materialize.OutputUnforgeable: is about the appended text; the user's own words before it are not rewritten by the code and are outside it.
- CallIds.RenamedIsDistinct: takes new random ids to be new.
- ToolNames.DecodesDeclaredTools: a truncated SHA-256 digest is any function with eight accepted characters, so collisions are possible and are named in the statement.
- NATS, Redis, HTTP, wasmtime and secrets clients, billing, observers, telemetry and the tool ledger: outcomes of a step, or absent.
- Clocks, tokio scheduling, `select!`, progress acks and the lock keep-alive: time is a parameter; durations are whole milliseconds, and only the doubling of the retry delay saturates.
- JSON and base64 coding, decoding of UTF-8, Unicode categories and white space, SHA-256: parameters.
- The wording of notes and prompts: any sentences without newline and delimiter. Their kind, order and place are modelled.
- Message attachments inside the transcript, tool-result size caps, the per-turn memo of materialised attachments and the retry without images.
- Recognising pull errors by their text, and converging the consumer's configuration.
- Transport errors in the middle of a stream: they end it with an error and no response.
- Agent cards, URL rules, configuration and manifest providers, caches, prompt augmentation and tool catalogs: wire shapes and single lookups that none of the results depends on.
