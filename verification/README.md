# Verification models

Dafny models of the parts of this repository whose correctness is hardest to see, each with proofs
about every input, every run or every interleaving. `dafny verify dfyconfig.toml` checks all of it.

- **Catalogue refresh** (`models.dfy`): generation-stamped, per-provider publication chains, as a
  state machine over every interleaving of refreshes, publications, store operations and provider
  replacement, and a class whose methods take exactly the machine's steps.
- **Agent runs** (`transcript.dfy`, `agent_events.dfy`, `agent_loop.dfy`, `agent_run.dfy`): declaring
  tool changes, the event trace and the state reduced from it, queues, tool batches, and the nested
  loop of turns. Hooks, tools and the provider stream are arbitrary; one script value fixes what they
  do in one turn, and the interleaving of parallel tools is left open.
- **RPC client** (`connection.dfy`, `client.dfy`, `subscription.dfy`, `unix.dfy`): the connection
  lifecycle and the request table with callbacks that re-enter them to any depth, the three-stage
  buffer of a subscription, and the byte-bounded writer over a socket.
- **Proxy stream** (`proxy.dfy`): line cutting and the reconstruction of a message from its deltas.
- **Strict JSON** (`json.dfy`): the recursive check over a heap that may be shared or cyclic.
- **Intake** (`intake_registry.dfy`, `intake_store.dfy`, `intake.dfy`, `intake_replies.dfy`, `intake_runs.dfy`):
  tables and transactions, the content-addressed store, the orchestrator and its replies, and a state machine in which any number
  of requests interleave and may stop for good between any two atomic steps.
- **Listing** (`listing.dfy`): keyset pagination and its cursors.

Code between two suspension points is one atomic step. In the connection and the client, where a
listener, a transport or a factory is called, the models let it use the object again before it returns:
`Callback(depth)` performs any number of operations, nested to any finite depth. The other models have
no such callbacks. In `models.dfy` aborting a superseded refresh is part of an atomic step, except in the
lemmas about `Install`, which say what a re-entrant abort listener can change.

Six places where code and documentation differ, or where a promise needs a condition:

- The comment above `declareToolChanges` promises that replay always yields `context.tools`. That holds
  if and only if the tool list is shadow-free; `Transcript.RepeatedToolIsMisdeclared` is a list for
  which it does not (`pi-mono/packages/agent/src/agent-loop.ts:322-331`).
- A deleted all-duplicate batch, executed again, vanishes again only when no storage or database fault
  strikes; `IntakeOrchestration.ExecuteTwice` gives the exact condition and
  `IntakeOrchestration.DisturbedSecondExecution` an instance. A fault leaves a failed row or
  an unfinished batch.
- A late response to an aborted request still runs its transform, so it is absorbed unless the
  transform rejects it, in which case the connection fails
  (`pi-mono/packages/client/src/client.ts:271-283`). `RpcClient.LateResponseIsAbsorbed` and
  `RpcClient.RejectedLateResponse` show both.
- A proxy stream delivers nothing after its first terminal event, but goes on changing the message that
  this event carried (`pi-mono/packages/agent/src/proxy.ts:187-256`,
  `pi-mono/packages/ai/src/utils/event-stream.ts:43-44`). `ProxyStreams.StopReasonAgrees` says exactly when
  the two still agree, and `ProxyStreams.AbortAfterDone` is a stream for which they do not.
- A run that ends by itself can leave messages queued: steering that arrives during the wait for
  follow-ups, and anything that an `agent_end` listener enqueues
  (`pi-mono/packages/agent/src/agent-loop.ts:293-319`). `AgentRuns.AgentRun.RunPrompts` and
  `AgentLoop.NothingIsLeft` say that this is all there is, and `AgentRuns.LateSteering` is such a run.
- An abort listener that refreshes the provider being replaced gives the replaced object the newest
  generation (`pi-mono/packages/ai/src/models.ts:281-284`, `332-348`).
  `CatalogueRefresh.InstallKeepsExactly` gives the exact condition and
  `CatalogueRefresh.ReentrantAbortMissesInstalled` an instance.

## Model

| member | source | states |
|---|---|---|
| CatalogueRefresh.PublicationsNeverOverlap | pi-mono/packages/ai/src/models.ts:350-377 | In every execution, once a publication of a provider is past its wait, every earlier publication of that provider has settled, although chain entries are deleted as tails settle |
| CatalogueRefresh.OneStoreOpAtATime | pi-mono/packages/ai/src/models.ts:355-372 | Two publications of one provider are never inside their store operations together |
| CatalogueRefresh.EffectsInGenerationOrder | pi-mono/packages/ai/src/models.ts:350-371 | Store operations and in-memory updates of one provider begin in non-decreasing generation order |
| CatalogueRefresh.NoStaleEffect | pi-mono/packages/ai/src/models.ts:359-368 | Every store operation and update began with the newest generation and an unaborted signal, and an update reached only the provider object then installed, for every interleaving of atomic steps |
| CatalogueRefresh.MemoryChangesOnlyWhenLive | pi-mono/packages/ai/src/models.ts:358-369 | In every step from a state of an execution, the catalogue of a provider object changes only while it is installed, through a publication of a refresh of its own with the newest generation and an unaborted signal, and to what this publication gives |
| CatalogueRefresh.StoreChangesOnlyWhileStoring | pi-mono/packages/ai/src/models.ts:361-365 | In every step a persisted catalogue changes only through a publication that is at its store operation, and becomes exactly what this one writes or deletes |
| CatalogueRefresh.PublicationsMove | pi-mono/packages/ai/src/models.ts:358-370 | A publication enters its store operation or publishes only while its refresh is newest and unaborted, is dropped only while it is not, and when dropped or failed has changed nothing in that step |
| CatalogueRefresh.ChainsGoOn | pi-mono/packages/ai/src/models.ts:355-376 | A chain never gets stuck: when the tails before it have settled, a publication has a step to take |
| CatalogueRefresh.TasksEnd | pi-mono/packages/ai/src/models.ts:357-371 | Every such step brings a publication nearer to the end of its tail, so each tail settles after at most four of them |
| CatalogueRefresh.TailsAreDropped | pi-mono/packages/ai/src/models.ts:373-375 | The clean-up deletes the chain entry of this tail, and leaves one of a later publication in place |
| CatalogueRefresh.ProvidersChange | pi-mono/packages/ai/src/models.ts:281-296 | Replacing, deleting and clearing: exactly the named providers change, every refresh of a named or cleared id gets a newer generation and an aborted, forgotten controller, and no other id is touched |
| CatalogueRefresh.RefreshesBeginAndEnd | pi-mono/packages/ai/src/models.ts:332-348 | A refresh begins for the installed object with the next generation and the registered controller; its end forgets the controller only while it is its own; an aborted caller aborts all its refreshes |
| CatalogueRefresh.ReplacingInTwoHalves | pi-mono/packages/ai/src/models.ts:281-289 | Replacing or deleting a provider is superseding its refreshes and then installing |
| CatalogueRefresh.InstallKeepsExactly | pi-mono/packages/ai/src/models.ts:281-284 | Whatever abort listeners do between these halves, installing keeps the invariant on refreshes if and only if no refresh with the newest generation of this id has been begun for another object than the one installed |
| CatalogueRefresh.ReentrantAbortMissesInstalled | pi-mono/packages/ai/src/models.ts:332-348 | A concrete run in which an abort listener refreshes the provider being replaced: the refresh has the newest generation and an unaborted signal, and its update reaches the object that is no longer installed |
| CatalogueRefresh.UpdateFollowsOwnStoreOp | pi-mono/packages/ai/src/models.ts:361-368 | An in-memory update finds in the store exactly what its own publication persisted |
| CatalogueRefresh.SupersededRefreshIsAborted | pi-mono/packages/ai/src/models.ts:332-348 | A superseded refresh that has not returned sees its signal aborted |
| CatalogueRefresh.StoreAgreesWithMemory | pi-mono/packages/ai/src/models.ts:824-848 | When the last effect on a provider is the update of a fetched overlay, the persisted catalogue and the in-memory one are the same |
| CatalogueRefresh.ExecutionKeepsInv | pi-mono/packages/ai/src/models.ts:332-377 | Every state of every execution of refreshes, publications, store operations and provider replacement satisfies the invariant behind the theorems above |
| CatalogueRefresh.NextKeepsRefreshes | pi-mono/packages/ai/src/models.ts:332-348 | Each step keeps: a refresh of the newest generation is unfinished only while its controller is registered, and an older unfinished one is aborted |
| CatalogueRefresh.NextKeepsChains | pi-mono/packages/ai/src/models.ts:355-376 | Each step keeps: the chain map names the last unsettled tail of a provider, and publications are ordered along it |
| CatalogueRefresh.NextKeepsLog | pi-mono/packages/ai/src/models.ts:359-369 | Each step keeps the effect log free of stale effects and in generation order |
| CatalogueRefresh.NextKeepsCatalogues | pi-mono/packages/ai/src/models.ts:824-848 | Each step keeps the last update of each provider visible in memory and its persisted catalogue in the store |
| CatalogueRefresh.ModelsImpl.SupersedeProviderRefresh | pi-mono/packages/ai/src/models.ts:332-341 | Takes the next generation, aborts the registered controller and forgets it, and changes nothing else |
| CatalogueRefresh.ModelsImpl.SetProvider | pi-mono/packages/ai/src/models.ts:281-284 | The new state is the supersede-and-install step of the state machine |
| CatalogueRefresh.ModelsImpl.DeleteProvider | pi-mono/packages/ai/src/models.ts:286-289 | The new state is the supersede-and-remove step |
| CatalogueRefresh.ModelsImpl.ClearProviders | pi-mono/packages/ai/src/models.ts:291-296 | Nothing is installed or registered afterwards, and each installed id has the next generation: superseding one id after another amounts to one step over all installed and refreshing ids |
| CatalogueRefresh.ModelsImpl.BeginProviderRefresh | pi-mono/packages/ai/src/models.ts:343-348 | The new refresh has the next generation and the only registered controller of its provider |
| CatalogueRefresh.ModelsImpl.FinishProviderRefresh | pi-mono/packages/ai/src/models.ts:443-447 | The `finally` block removes the controller only while it is still this refresh's |
| CatalogueRefresh.ModelsImpl.PublishProviderModels | pi-mono/packages/ai/src/models.ts:350-376 | The publication is queued behind the registered tail and becomes the tail |
| CatalogueRefresh.ModelsImpl.ResumePublication | pi-mono/packages/ai/src/models.ts:358-367 | After the previous tail settles, the task is dropped, enters its store operation, or updates memory, as its signal and generation say |
| CatalogueRefresh.ModelsImpl.PerformStoreOp | pi-mono/packages/ai/src/models.ts:361-365 | The store ends up with exactly what the publication persists |
| CatalogueRefresh.ModelsImpl.StoreOpSettled | pi-mono/packages/ai/src/models.ts:367-369 | The second check decides between the update and dropping it |
| CatalogueRefresh.ModelsImpl.SettleTailOf | pi-mono/packages/ai/src/models.ts:371-371 | A tail settles when its task has ended |
| CatalogueRefresh.ModelsImpl.DropTailOf | pi-mono/packages/ai/src/models.ts:373-375 | The chain entry is deleted only while it is still this tail |
| CatalogueRefresh.ModelsImpl.IsCurrent | pi-mono/packages/ai/src/models.ts:359-359 | The staleness test: unaborted, and the generation is the newest |
| Transcript.DeclareToolChanges | pi-mono/packages/agent/src/agent-loop.ts:332-362 | The loops over the pending messages compute `Declare`, about which the lemmas below are proved |
| Transcript.DeclareYieldsExecutableTools | pi-mono/packages/agent/src/agent-loop.ts:322-362 | Replaying the transcript and the declared messages yields the executable tools if and only if no tool name is listed twice with an earlier definition that differs from an already declared last one |
| Transcript.DistinctToolsAreAlwaysDeclared | pi-mono/packages/agent/src/agent-loop.ts:322-362 | With distinct tool names the replay yields exactly the executable tools, for any transcript and any pending list |
| Transcript.RepeatedToolIsMisdeclared | pi-mono/packages/agent/src/agent-loop.ts:322-362 | A concrete list that repeats a name, for which the replay declares a tool other than the last one listed |
| Transcript.ChangesReachTarget | pi-mono/packages/ai/src/utils/transcript.ts:150-167 | Applying the computed changes to the previous tools gives the target exactly when the target list is shadow-free |
| Transcript.DeclareReplays | pi-mono/packages/ai/src/utils/transcript.ts:58-66 | Replaying the declared messages equals applying the changes to the replayed baseline |
| Transcript.DeclareKeepsMessages | pi-mono/packages/agent/src/agent-loop.ts:352-361 | Every other message and the order of the input are kept |
| Transcript.DeclareIsIdempotent | pi-mono/packages/agent/src/agent-loop.ts:352-361 | A second application changes nothing |
| AgentEvents.ReducedTranscript | pi-mono/packages/agent/src/agent.ts:561-574 | Whatever the trace, the reduced transcript is the snapshot followed by the messages of the `message_end` events |
| AgentEvents.PendingExactly | pi-mono/packages/agent/src/agent.ts:576-588 | Whatever the trace, an id is in the pending set if and only if a call with this id was started and none with it has ended since |
| AgentEvents.PendingCallsAreRunning | pi-mono/packages/agent/src/agent.ts:576-588 | In a legal trace the pending set never holds the id of a call that is not running, even when ids repeat |
| AgentEvents.StreamingExactly | pi-mono/packages/agent/src/agent.ts:561-574 | Whatever the trace, the streaming message is the one that was started or updated last, unless a message or the run has ended since |
| AgentEvents.StreamingWhileOpen | pi-mono/packages/agent/src/agent.ts:563-574 | A streaming message is set exactly while a `message_start` is open |
| AgentEvents.EndedIsMessagesEnded | pi-mono/packages/agent/src/agent-loop.ts:210-215 | The monitor's list of ended messages is the list of `message_end` payloads in order |
| AgentEvents.AcceptedTraceEndsOnce | pi-mono/packages/agent/src/agent-loop.ts:248-320 | An accepted trace starts with `agent_start` and has exactly one `agent_end`; it is last and carries the ended messages in order |
| AgentEvents.EverythingStartedEnds | pi-mono/packages/agent/src/agent-loop.ts:162-320 | Every tool call and every message of an accepted trace that starts also ends, before the next `turn_end` |
| AgentEvents.StartedCallRuns | pi-mono/packages/agent/src/agent-loop.ts:527-657 | A call that has started and not ended is running, and its turn has not ended |
| AgentEvents.NothingAfterToolEnd | pi-mono/packages/agent/src/agent-loop.ts:527-657 | No start, update or end of a tool call follows its end within the turn |
| AgentEvents.EndedCallStaysEnded | pi-mono/packages/agent/src/agent-loop.ts:527-657 | A call that has ended stays ended, and is not running again, until the next turn |
| AgentEvents.ResultsHaveEvents | pi-mono/packages/agent/src/agent-loop.ts:527-657 | Result k that a `turn_end` carries has its events: slot k was started and then ended in that turn, with the call, content and error flag of the result |
| AgentEvents.EndsHaveResults | pi-mono/packages/agent/src/agent-loop.ts:527-657 | Conversely, every call that ended in a turn has its result in the `turn_end` |
| AgentEvents.TurnsAlternate | pi-mono/packages/agent/src/agent-loop.ts:178-298 | Between two `turn_start` events there is a `turn_end` |
| AgentEvents.OneThingAtATime | pi-mono/packages/agent/src/agent-loop.ts:210-277 | A message that has started has ended before another message or a call starts, and a call has ended before a message starts |
| AgentEvents.NothingOutOfTheBlue | pi-mono/packages/agent/src/agent-loop.ts:414-814 | Updates and ends concern a message that has started and not ended, and a call that was started in this turn |
| AgentEvents.TurnEndsCarry | pi-mono/packages/agent/src/agent-loop.ts:285-286 | A `turn_end` carries the last messages that have ended: the response and its results, in order |
| AgentLoop.PendingMessageQueue.Enqueue | pi-mono/packages/agent/src/agent.ts:150-152 | The message is last among those accepted; nothing else changes |
| AgentLoop.PendingMessageQueue.Peek | pi-mono/packages/agent/src/agent.ts:158-162 | The whole queue, or in one-at-a-time mode its first message, if there is one |
| AgentLoop.PendingMessageQueue.Drain | pi-mono/packages/agent/src/agent.ts:164-168 | What is returned moves from the queue to the end of what was handed out: accepted is always drained followed by queued |
| AgentLoop.PendingMessageQueue.Clear | pi-mono/packages/agent/src/agent.ts:170-172 | Only what was handed out remains accepted |
| AgentLoop.BatchLength | pi-mono/packages/agent/src/agent-loop.ts:593-641 | A batch stops after the first call at which abort is seen; it is never empty when there are calls, and complete when abort is never seen |
| AgentLoop.BatchGoesOnExactly | pi-mono/packages/agent/src/agent-loop.ts:685-687 | A batch that is run calls for another request if and only if one of the calls that were run has an outcome that does not ask to terminate |
| AgentLoop.NoBatchGoesOn | pi-mono/packages/agent/src/agent-loop.ts:242-277 | A failed, aborted or empty response never does, and a truncated one with tool calls always does |
| AgentLoop.OutcomeMeans | pi-mono/packages/agent/src/agent-loop.ts:703-861 | The outcome of a call: an unknown tool and an abort before a deferred call are errors, an immediate outcome is kept, and an override wins field by field over what the tool returned |
| AgentLoop.FindToolFinds | pi-mono/packages/agent/src/agent-loop.ts:711-711 | The tool of a call is the first one with its name |
| AgentLoop.ParallelExactly | pi-mono/packages/agent/src/agent-loop.ts:511-520 | A batch runs in parallel if and only if the agent is not configured to be sequential and no call names a tool, the first with its name, that asks for it |
| AgentLoop.OutcomesUpTo | pi-mono/packages/agent/src/agent-loop.ts:703-861 | Outcome k is that of call k in its own environment, so completion order cannot matter |
| AgentLoop.ResultMessages | pi-mono/packages/agent/src/agent-loop.ts:645-651 | Result k answers call k: results are in source order |
| AgentLoop.BatchResultsOk | pi-mono/packages/agent/src/agent-loop.ts:583-657 | The results of a response are a non-empty prefix of its calls in source order, none after a hard stop, and answer all of them when abort is never signalled or the response was truncated |
| AgentLoop.TruncatedResults | pi-mono/packages/agent/src/agent-loop.ts:475-500 | A truncated response executes nothing: every call is answered by an error |
| AgentLoop.RecordMeans | pi-mono/packages/agent/src/agent-loop.ts:182-298 | What the record of a turn comes to, for every context, queue and environment: all messages queued for it are kept, replay yields the tools of its context when their names are distinct, and its results answer its calls |
| AgentLoop.PushRecord | pi-mono/packages/agent/src/agent-loop.ts:178-298 | A run is a chain of turns: each takes what the one before it polled, and starts from the context that one left unless a hook replaced it |
| AgentLoop.TurnsFollowWhenDue | pi-mono/packages/agent/src/agent-loop.ts:242-314 | A turn that is followed by another was neither failed, aborted nor ended by its hook, and tool calls, steering, follow-ups or the hook called for more; follow-ups are asked for if and only if tool calls and steering did not |
| AgentLoop.RunsEndWhenDone | pi-mono/packages/agent/src/agent-loop.ts:242-319 | A run ends with a turn only for one of these reasons: a failed or aborted response, a hook that ends it, or nothing left to do |
| AgentLoop.HooksAreTakenUp | pi-mono/packages/agent/src/agent-loop.ts:183-263 | A turn starts with the context and messages of `prepareNextTurn`, or else with the context the turn before it left; its request, response and results go with the context and tools of `prepareRequest`, or else with those of the turn and its inputs |
| AgentLoop.StepsRemaining | pi-mono/packages/agent/src/agent-loop.ts:643-645 | Every step of a deferred call brings the batch closer to its end, so `Promise.all` over any interleaving ends |
| AgentLoop.TurnAccounted | pi-mono/packages/agent/src/agent-loop.ts:182-298 | A turn and the polls after it keep the accounts: the run so far is a history in which each turn takes up what the one before left pending, or polls again when that was nothing, and each poll returns exactly what its mode takes of what was queued and arrived |
| AgentLoop.FollowUpsAccounted | pi-mono/packages/agent/src/agent-loop.ts:300-307 | Asking for follow-ups after the last turn keeps such a history |
| AgentLoop.QueuesAreConserved | pi-mono/packages/agent/src/agent.ts:150-168 | For every history: what each queue held and everything that arrived before its polls is, in order, what the turns took up, what is pending, and what is still queued; nothing is lost, duplicated or reordered |
| AgentLoop.OneMessagePerTurn | pi-mono/packages/agent/src/agent-loop.ts:198-202 | For every history: if each steering poll that was made found one-at-a-time mode, each turn has at most one steering message, and likewise for follow-ups, whatever the mode of the other queue |
| AgentLoop.FirstTurnTakes | pi-mono/packages/agent/src/agent.ts:381-408 | The first turn takes no steering of its own when its prompts were taken from the steering queue, and otherwise what is queued by then, or the first of it |
| AgentLoop.NothingIsLeft | pi-mono/packages/agent/src/agent-loop.ts:293-317 | After a run that ends without being stopped early, the steering queue holds what arrived before the last follow-up poll, and the follow-up queue nothing |
| AgentLoop.ContextFollows | pi-mono/packages/agent/src/agent-loop.ts:182-277 | For every history in which no hook replaced it, the loop's own context is the opening one followed by what the turns produced |
| AgentRuns.AgentRun.Emit | pi-mono/packages/agent/src/agent.ts:561-599 | The state is the fold of all events so far, and the monitor takes one step |
| AgentRuns.AgentRun.StreamAssistantResponse | pi-mono/packages/agent/src/agent-loop.ts:380-466 | For any stream with at most one start, one message is started and ended once and becomes the last of the context |
| AgentRuns.AgentRun.ReportProgress | pi-mono/packages/agent/src/agent-loop.ts:773-814 | Progress callbacks become updates of a running call only |
| AgentRuns.AgentRun.FailToolCallsFromTruncatedMessage | pi-mono/packages/agent/src/agent-loop.ts:475-500 | Every call of a truncated response gets a start, an end and an error result, one call after the other in order |
| AgentRuns.AgentRun.ExecuteToolCallsSequential | pi-mono/packages/agent/src/agent-loop.ts:527-581 | Results are those of the specified outcomes in source order, each has its start and end event, at most one call runs at any time, and none is left running |
| AgentRuns.AgentRun.PreflightCall | pi-mono/packages/agent/src/agent-loop.ts:594-615 | A call is started, and ended at once when its outcome is immediate |
| AgentRuns.AgentRun.Preflight | pi-mono/packages/agent/src/agent-loop.ts:593-641 | The calls up to the one at which abort is seen are started, in source order |
| AgentRuns.AgentRun.Advance | pi-mono/packages/agent/src/agent-loop.ts:616-637 | One step of one deferred call keeps the trace legal and the set of running calls exact |
| AgentRuns.AgentRun.RunDeferred | pi-mono/packages/agent/src/agent-loop.ts:643-645 | For every interleaving the outcomes are those of the specification and every started call has ended |
| AgentRuns.AgentRun.EmitResults | pi-mono/packages/agent/src/agent-loop.ts:646-651 | Result messages are emitted in source order after all calls have ended |
| AgentRuns.AgentRun.ExecuteToolCallsParallel | pi-mono/packages/agent/src/agent-loop.ts:583-657 | Whatever the completion order, the results and the decision to go on equal the specification, each result has its start and end event, and nothing is left running |
| AgentRuns.AgentRun.ExecuteToolCalls | pi-mono/packages/agent/src/agent-loop.ts:505-520 | One sequential tool makes the whole batch sequential, so that no two calls run together; in both ways the results equal the specification, and no call is pending afterwards |
| AgentRuns.AgentRun.PollSteering | pi-mono/packages/agent/src/agent.ts:492-498 | What is polled and what both queues hold afterwards, exactly, for whatever arrived and whatever modes they have by then; the first poll after `continue` took steering is skipped |
| AgentRuns.AgentRun.PollFollowUps | pi-mono/packages/agent/src/agent.ts:499-499 | The same for the follow-up queue |
| AgentRuns.AgentRun.AdmitInputs | pi-mono/packages/agent/src/agent-loop.ts:209-215 | The inputs, with the tool changes declared on them, are emitted and appended to both transcripts in order |
| AgentRuns.AgentRun.RespondAndExecute | pi-mono/packages/agent/src/agent-loop.ts:240-277 | The response and its results are appended to both transcripts; the results, which are exactly the outcomes of the calls that ended in this turn, and whether tool calls call for another turn are those of the specified batch, in which a truncated response executes nothing |
| AgentRuns.AgentRun.PrepareTurn | pi-mono/packages/agent/src/agent-loop.ts:183-207 | Between turns the hook's context and messages are taken up, and the steering queue is polled again exactly when nothing is pending; both queues afterwards are stated |
| AgentRuns.AgentRun.RunTurn | pi-mono/packages/agent/src/agent-loop.ts:182-286 | A turn leaves the trace between turns, new messages equal to ended messages, the context that its record gives, and a record that fixes its inputs, results, decision and what it found queued |
| AgentRuns.AgentRun.TakeTurn | pi-mono/packages/agent/src/agent-loop.ts:182-297 | A turn and the poll after it keep the history, the messages, the context and the contents of both queues as the accounts have them |
| AgentRuns.AgentRun.RunTurns | pi-mono/packages/agent/src/agent-loop.ts:181-298 | The inner loop goes on exactly while tool calls of the last batch or pending messages call for it, and keeps the accounts; it breaks off without a decision exactly when every script of the environment is used up and another turn is due |
| AgentRuns.AgentRun.TakeFollowUps | pi-mono/packages/agent/src/agent-loop.ts:300-307 | Follow-ups become pending for the next turn, and the accounts hold |
| AgentRuns.AgentRun.RunCycle | pi-mono/packages/agent/src/agent-loop.ts:178-317 | One pass of the outer loop: it settles with another pass due exactly for follow-ups or an explicit continuation, and otherwise the last turn ends the run |
| AgentRuns.AgentRun.FinishRun | pi-mono/packages/agent/src/agent-loop.ts:316-319 | The run is over, and each queue holds what the last poll left followed by what the `agent_end` listeners enqueued |
| AgentRuns.AgentRun.RunLoop | pi-mono/packages/agent/src/agent-loop.ts:162-320 | The loop returns incomplete only when every script is used up and another turn is due; otherwise the run is over: its trace is accepted and its last turn ends it. In both cases messages, context and queues are exactly those of its history |
| AgentRuns.AgentRun.BeginRun | pi-mono/packages/agent/src/agent.ts:503-517 | A run starts from the agent's own transcript with an empty trace |
| AgentRuns.AgentRun.EndRunLifecycle | pi-mono/packages/agent/src/agent.ts:546-552 | Afterwards the agent is idle, the transcripts agree, and what is still queued after a run that was not stopped early is exactly what arrived since the last poll of its queue |
| AgentRuns.AgentRun.RunPrompts | pi-mono/packages/agent/src/agent-loop.ts:101-125 | Completed or not: the new messages are the declared prompts followed by what the turns produced; each queue's contents before the run and all that arrived are, in order, what the turns took up, what is pending and what is left; each turn has at most one message of a queue polled one at a time; the context is that of the last turn, and the snapshot followed by the new messages when no hook replaced it. A completed run has an accepted trace whose ended messages are the new ones, and leaves queued exactly what arrived since the last polls unless it was stopped early. It is incomplete only when all scripts are used and another turn is due |
| AgentRuns.AgentRun.RunContinuation | pi-mono/packages/agent/src/agent-loop.ts:127-150 | The same for a run without a prompt |
| AgentRuns.AgentRun.Continue | pi-mono/packages/agent/src/agent.ts:381-408 | When it refuses; after an assistant message the front of the steering queue, or else of the follow-up queue, becomes the prompts, and the run's new messages begin with them, whether or not it completes; the accounts of the run start from the queues without them, so nothing is lost |
| AgentRuns.AgentRun.DueIsUnderway | pi-mono/packages/agent/src/agent-loop.ts:168-180 | A run that outlasts its scripts has a legal trace, a state that is the snapshot followed by the new messages, and queues that hold what the last poll left |
| AgentRuns.LateSteering | pi-mono/packages/agent/src/agent.ts:555-598 | A concrete run of one turn, not stopped early, whose `agent_end` listener steers: it completes with that message still queued |
| RpcConnection.Run | pi-mono/packages/client/src/connection.ts:67-245 | Between any two tasks, whatever callbacks did: a promise is pending exactly while its attempt is being made; a resolved one got the expected serverId from its own transport; every returned transport is held, closed, or reported its end; an attempt without a transport still waits for its factory, and a held transport is neither closed nor ended, so nothing pending is forgotten; the last notification is the actual state |
| RpcConnection.NotesFollowTheLifecycle | pi-mono/packages/client/src/connection.ts:67-240 | Notifications run through whole cycles: connected follows connecting, connecting follows disconnected, and no state is announced twice |
| RpcConnection.Connection.Callback | pi-mono/packages/client/src/connection.ts:195-213 | Any re-entrant use, nested to any depth, keeps the invariant and settles no promise a second time |
| RpcConnection.Connection.Connect | pi-mono/packages/client/src/connection.ts:67-91 | A promise that is rejected at once exactly when a connection is active; else a fresh attempt, of which listeners hear before its factory is called |
| RpcConnection.Connection.StartOpening | pi-mono/packages/client/src/connection.ts:120-127 | The factory is called for the new attempt; if it throws, the attempt is over, and nothing else is when it was not current |
| RpcConnection.Connection.FactoryReturned | pi-mono/packages/client/src/connection.ts:128-141 | A transport of an attempt that is no longer current is closed; otherwise it becomes the attempt's |
| RpcConnection.Connection.FactoryFailed | pi-mono/packages/client/src/connection.ts:124-127 | A rejected factory promise ends the attempt that called it if that is current, and otherwise only counts as settled |
| RpcConnection.Connection.SendFailed | pi-mono/packages/client/src/connection.ts:112-117 | A failed send ends the connection if its transport is still the current one, and otherwise changes nothing |
| RpcConnection.Connection.Send | pi-mono/packages/client/src/connection.ts:102-118 | Refused exactly when not connected; a transport that throws ends the attempt |
| RpcConnection.Connection.Disconnect | pi-mono/packages/client/src/connection.ts:93-96 | The attempt ends, its promise is rejected if pending, its transport is closed |
| RpcConnection.Connection.Fail | pi-mono/packages/client/src/connection.ts:234-240 | The attempt ends and its pending promise is rejected before listeners hear of it; without callbacks nothing else changes |
| RpcConnection.Connection.FailAndClose | pi-mono/packages/client/src/connection.ts:227-232 | The promise is rejected, then listeners are told, then the transport held before is closed, even if listeners reconnect meanwhile; without callbacks nothing else changes |
| RpcConnection.Connection.OnClose | pi-mono/packages/client/src/connection.ts:82-84 | A close event ends the attempt of that transport if it is current, and otherwise only marks the transport |
| RpcConnection.Connection.OnError | pi-mono/packages/client/src/connection.ts:85-87 | An error event ends the attempt of that transport if it is current, and otherwise only marks the transport |
| RpcConnection.Connection.HandleData | pi-mono/packages/client/src/connection.ts:143-161 | Data of another attempt changes nothing; data before the transport is known, or undecodable, ends the attempt; when no callback intervenes, any other chunk has exactly the effect of its messages handled one after the other (`HandledAll`) |
| RpcConnection.MessagesInOrder | pi-mono/packages/client/src/connection.ts:157-213 | A connected client passes on the messages of a chunk in order up to the first handshake message, which ends the connection; nothing after it is handled |
| RpcConnection.FirstMessageDecides | pi-mono/packages/client/src/connection.ts:163-205 | While connecting, the first message of a chunk decides: anything but the expected hello ends the attempt, and after an accepted hello the rest is handled by the connection |
| RpcConnection.HelloCompletes | pi-mono/packages/client/src/connection.ts:186-205 | A chunk holding just the expected hello completes the attempt: connected, announced, promise resolved |
| RpcConnection.SurvivesExactly | pi-mono/packages/client/src/connection.ts:143-213 | An attempt survives its first chunk if and only if the chunk begins with the expected hello, holds no other handshake message, and `onHandshake` does not throw |
| RpcConnection.Connection.HandleMessage | pi-mono/packages/client/src/connection.ts:163-213 | While connecting, anything but the expected hello ends the attempt, and that hello completes it when no callback intervenes; once connected, a handshake message ends it, and any other is passed on; without callbacks this is its exact effect |
| RpcConnection.Connection.CompleteHandshake | pi-mono/packages/client/src/connection.ts:186-204 | `onHandshake` first, then the state listener, then the promise, which is resolved only if neither has ended the attempt; if `onHandshake` throws, the attempt is over |
| RpcConnection.Connection.AnnounceConnected | pi-mono/packages/client/src/connection.ts:201-204 | Announces, and resolves the promise with the server unless a listener intervenes |
| RpcConnection.Connection.EventLoop | pi-mono/packages/client/src/connection.ts:67-245 | Any number of tasks in any order keep the invariant; settled promises never change |
| RpcClient.Run | pi-mono/packages/client/src/client.ts:238-392 | Between any two tasks: pending is exactly the unanswered requests of the current connection, and empty when not connected; every unsettled promise is pending; success means an ok response and no abort; every cancel belongs to an aborted request of the same connection, and every sent and aborted request of the current connection has its cancel on the wire; a disposed client is disconnected, and so never connects again |
| RpcClient.WireOrder | pi-mono/packages/client/src/client.ts:252-300 | No frame is sent twice, and a cancel comes after its request on the same connection |
| RpcClient.Client.Callback | pi-mono/packages/client/src/client.ts:345-359 | Any re-entrant use by listeners keeps the invariant; outcomes, answers and the wire only grow |
| RpcClient.Client.Request | pi-mono/packages/client/src/client.ts:238-302 | When a promise is rejected at once; otherwise a new request of the current connection, sent or, if it cannot be encoded, failed |
| RpcClient.Client.SendRequest | pi-mono/packages/client/src/client.ts:271-301 | The request is on the wire once; if it is aborted while being sent, its cancel follows on the wire unless the connection is lost |
| RpcClient.Client.SendCancel | pi-mono/packages/client/src/client.ts:252-261 | Nothing is sent before the request or after the connection is lost; a cancel that cannot be encoded or sent loses the connection |
| RpcClient.Client.Abort | pi-mono/packages/client/src/client.ts:262-270 | The promise of a pending cancellable request is settled by its abort and stays pending for its response |
| RpcClient.Client.HandleResponse | pi-mono/packages/client/src/client.ts:333-343 | An unknown or second response, or a rejected transform, loses the connection; any other response settles only its own request, and one to an aborted request is absorbed |
| RpcClient.Client.HandleAttachment | pi-mono/packages/client/src/client.ts:305-312 | An attachment of another server loses the connection |
| RpcClient.Client.HandleDisconnected | pi-mono/packages/client/src/client.ts:345-351 | Whatever the attachment listeners do first, everything that was pending is settled |
| RpcClient.Client.RejectPendingRequests | pi-mono/packages/client/src/client.ts:370-377 | Exactly the pending requests are rejected, and none that an abort has settled changes |
| RpcClient.Client.Fail | pi-mono/packages/client/src/connection.ts:234-240 | Losing the connection settles everything that waited for it, and it cannot be connected again in this task |
| RpcClient.Client.Dispose | pi-mono/packages/client/src/client.ts:379-392 | The first call settles everything pending; afterwards the client is disconnected, whatever listeners did |
| RpcClient.Client.Connect | pi-mono/packages/client/src/client.ts:128-132 | Refused when disposed or active; otherwise a new attempt |
| RpcClient.Client.EventLoop | pi-mono/packages/client/src/client.ts:238-392 | Over any number of tasks requests keep their answers and outcomes and the wire only grows |
| RpcClient.LateResponseIsAbsorbed | pi-mono/packages/client/src/client.ts:333-343 | A response to an aborted request records its answer and changes nothing else |
| RpcClient.RejectedLateResponse | pi-mono/packages/client/src/client.ts:271-283 | A concrete aborted request whose late response is absorbed when its transform accepts it, and takes the connection down when it does not |
| ServiceSubscriptions.Subscribe | pi-mono/packages/client/src/client.ts:172-236 | For any interleaving: the listener's calls are a prefix of one stream, the decoder run over the snapshot and then the arrivals in order; none before `start`; all of it once nothing is left to deliver; the snapshot offered is the one decoded from the response that started the decoder |
| ServiceSubscriptions.Codec.DecodedAppend | pi-mono/packages/client/src/client.ts:200-202 | Decoding is incremental: one more update adds at most one more result at the end |
| ServiceSubscriptions.Codec.DecodedPrefix | pi-mono/packages/client/src/client.ts:313-331 | What is decoded of a prefix stays decoded, and after a rejection nothing more is |
| ServiceSubscriptions.Subscription.HandleUpdate | pi-mono/packages/client/src/client.ts:313-331 | An attached subscription gains exactly this arrival, decoded at once when hydrated; a rejected update detaches |
| ServiceSubscriptions.Subscription.Hydrate | pi-mono/packages/client/src/client.ts:197-204 | The snapshot starts the decoder and everything that waited is decoded once, in order; any rejection detaches |
| ServiceSubscriptions.Subscription.DecodeWaiting | pi-mono/packages/client/src/client.ts:200-202 | What waited is decoded in order up to the first rejection |
| ServiceSubscriptions.Subscription.DecodeUpdate | pi-mono/packages/client/src/client.ts:320-330 | An update of a hydrated subscription advances the decoder, or detaches when it is rejected |
| ServiceSubscriptions.Subscription.Offer | pi-mono/packages/client/src/client.ts:206-215 | The snapshot is offered exactly when the subscription is still attached |
| ServiceSubscriptions.Subscription.Start | pi-mono/packages/client/src/client.ts:216-220 | Ready from then on, without losing or reordering anything decoded |
| ServiceSubscriptions.Subscription.CallListener | pi-mono/packages/client/src/client.ts:417-421 | The next listener call gets the oldest undelivered update, and begins only when the call before has settled |
| ServiceSubscriptions.Subscription.ListenerSettled | pi-mono/packages/client/src/client.ts:418-420 | A failing listener does not stop the deliveries after it |
| ServiceSubscriptions.Subscription.Detach | pi-mono/packages/client/src/client.ts:350-350 | A detached subscription receives nothing more |
| ServiceSubscriptions.Subscription.BeginDispose | pi-mono/packages/client/src/client.ts:221-224 | Disposing detaches |
| ServiceSubscriptions.Subscription.EndDispose | pi-mono/packages/client/src/client.ts:229-233 | What is dropped is exactly what was decoded and never handed to the delivery chain, which is nothing once the subscription has started; calls and chain stay as they are |
| UnixTransport.Transmit | pi-mono/packages/client/src/unix.ts:147-235 | At any time pending bytes are those of accepted unfinished writes and within the limit; writes reach the socket one at a time in send order; a write has succeeded if and only if it was called back without error and has drained if that was asked for, and has failed if and only if the socket refused, threw, closed under it or called back with an error |
| UnixTransport.PendingTotalUpdate | pi-mono/packages/client/src/unix.ts:169-174 | The sum of pending bytes changes by exactly the change of one write |
| UnixTransport.UnixByteTransport.Send | pi-mono/packages/client/src/unix.ts:161-177 | Accepted exactly when open and within the limit; then queued last and counted |
| UnixTransport.UnixByteTransport.Begin | pi-mono/packages/client/src/unix.ts:186-233 | Where a write stands when the socket's `write` returns, for a closed, throwing, calling-back or full socket |
| UnixTransport.WrittenStage | pi-mono/packages/client/src/unix.ts:219-229 | Resolved at once exactly when called back without error and not asked to drain |
| UnixTransport.StageIsJustified | pi-mono/packages/client/src/unix.ts:186-233 | What the socket says about one write changes the stage of that write only |
| UnixTransport.UnixByteTransport.CallBack | pi-mono/packages/client/src/unix.ts:219-226 | Success only with the required drain; failure rejects; a settled write ignores it |
| UnixTransport.UnixByteTransport.Drain | pi-mono/packages/client/src/unix.ts:194-197 | A drained write succeeds exactly when it was called back |
| UnixTransport.UnixByteTransport.SocketClosed | pi-mono/packages/client/src/unix.ts:215-218 | The write at the socket is rejected |
| UnixTransport.UnixByteTransport.Release | pi-mono/packages/client/src/unix.ts:172-174 | A settled write stops counting as pending, once |
| UnixTransport.UnixByteTransport.Live | pi-mono/packages/client/src/unix.ts:161-235 | Any sequence of events keeps the invariant; settled writes never change and the wire only grows |
| UnixTransport.UnixSocket.OnConnect | pi-mono/packages/client/src/unix.ts:123-131 | Opening is reported first and only if nothing ended before |
| UnixTransport.UnixSocket.OnData | pi-mono/packages/client/src/unix.ts:132-134 | Data is reported only between opening and end |
| UnixTransport.UnixSocket.OnClose | pi-mono/packages/client/src/unix.ts:115-121 | One end is reported: closed after opening, a failed opening before |
| UnixTransport.UnixSocket.OnError | pi-mono/packages/client/src/unix.ts:137-143 | One end is reported: an error after opening, a failed opening before |
| UnixTransport.UnixSocket.MarkLocalClose | pi-mono/packages/client/src/unix.ts:127-129 | After a local close nothing is reported |
| UnixTransport.Listen | pi-mono/packages/client/src/unix.ts:115-143 | Over a whole life: opening or its failure comes first and once, data only between opening and the end, and one end, after which nothing is reported |
| UnixTransport.UnixByteTransport.SomeWriteGoesOn | pi-mono/packages/client/src/unix.ts:169-177 | Writes never get stuck: the first one that still counts is settled, at the socket, or may begin |
| ProxyStreams.ChunksDoNotMatter | pi-mono/packages/agent/src/proxy.ts:204-230 | Two bodies with the same text, cut into chunks anywhere, leave the same session, and a last line counts with or without its newline |
| ProxyStreams.LinesJoin | pi-mono/packages/agent/src/proxy.ts:213-214 | Cutting loses nothing, and no line contains a newline |
| ProxyStreams.LinesCarryOver | pi-mono/packages/agent/src/proxy.ts:212-214 | Cutting text after carrying over the unfinished line equals cutting the whole text |
| ProxyStreams.BlocksAreTheirDeltas | pi-mono/packages/agent/src/proxy.ts:270-334 | For any interleaving, each text or thinking block equals the concatenation of its deltas since its last start, and so do the unparsed arguments of an unfinished tool call |
| ProxyStreams.StreamedBlocksAreTheirDeltas | pi-mono/packages/agent/src/proxy.ts:192-219 | The same for the message that a stream of lines leaves |
| ProxyStreams.EndCarriesItsDeltas | pi-mono/packages/agent/src/proxy.ts:296-308 | An end event carries the concatenation of the deltas since the start of its block, and is delivered unless a terminal event has been |
| ProxyStreams.LinesAreEvents | pi-mono/packages/agent/src/proxy.ts:192-202 | Processing lines is processing the events they hold, up to the first line that throws |
| ProxyStreams.StreamsTerminate | pi-mono/packages/ai/src/utils/event-stream.ts:43-70 | Whatever the proxy sends, exactly one terminal event is delivered, and it is the last one: the first that the proxy sent, a done event as done and an error as an error, and without one an error with the reason and message of what ended the stream |
| ProxyStreams.StopReasonAgrees | pi-mono/packages/agent/src/proxy.ts:232-256 | The stop reason that the message ends up with is the one that was delivered if and only if the proxy sent no terminal event, or the first one agrees with what came last: the reason of the exception, if a line throws, a read fails or the signal is aborted, and otherwise the last terminal event |
| ProxyStreams.DoneAgrees | pi-mono/packages/agent/src/proxy.ts:232-256 | A stream delivered as done keeps its reason if and only if nothing throws, fails or aborts before the end and the last terminal event has the same reason |
| ProxyStreams.AbortAfterDone | pi-mono/packages/agent/src/proxy.ts:204-225 | A concrete stream, aborted between its done event and the end of the body: the consumer gets `stop`, and the message ends up `aborted` |
| ProxyStreams.StreamedReached | pi-mono/packages/agent/src/proxy.ts:204-256 | What a stream leaves is what its lines leave, followed by the caught exception or the end of the body |
| ProxyStreams.FirstEndIsTold | pi-mono/packages/agent/src/proxy.ts:381-398 | The stream is done if and only if a terminal event was processed, and what was delivered last is the first of them, of the same kind |
| ProxyStreams.DeliversExactly | pi-mono/packages/agent/src/proxy.ts:270-398 | What each accepted event delivers, told from the events before it, while the stream is not done |
| ProxyStreams.RefusedExactly | pi-mono/packages/agent/src/proxy.ts:281-368 | An event is refused if and only if it continues or ends a block whose last start was not of its kind; the end of a tool call that was not started is ignored |
| ProxyStreams.BlocksAreLabelled | pi-mono/packages/agent/src/proxy.ts:292-380 | A block has the signature of its last end, and a tool call the id and name of its last start or end |
| ProxyStreams.ErrorMessageIsLast | pi-mono/packages/agent/src/proxy.ts:388-398 | The error message is that of the last error event |
| ProxyStreams.LinesRead | pi-mono/packages/agent/src/proxy.ts:192-198 | A line holds the JSON after `data: `; other lines and blank data are skipped |
| ProxyStreams.RunOk | pi-mono/packages/ai/src/utils/event-stream.ts:43-58 | After any events the consumer has been told the first terminal reason, and the message has the last |
| ProxyStreams.ThrownStays | pi-mono/packages/agent/src/proxy.ts:246-256 | Text after a line that throws has no effect |
| ProxyStreams.ProxyReader.Feed | pi-mono/packages/agent/src/proxy.ts:212-218 | A chunk processes the complete lines of the buffer and the chunk and keeps the rest |
| ProxyStreams.ProxyReader.ReadAll | pi-mono/packages/agent/src/proxy.ts:204-219 | The session depends only on the text before the first read that fails |
| ProxyStreams.ProxyReader.Stream | pi-mono/packages/agent/src/proxy.ts:120-256 | The session is the specified function of the text received, and its last delivered event is its only terminal one |
| StrictJson.IsJsonValue | pi-mono/packages/chord/src/json.ts:4-6 | True exactly when every path from the value has at most 512 edges and ends in an admissible value: a primitive, a finite number, a dense array without other keys, or a plain record of enumerable data |
| StrictJson.Checker.Check | pi-mono/packages/chord/src/json.ts:8-50 | The same below any depth; the ancestor set is restored and never decides the answer; the recursion ends on cyclic heaps |
| StrictJson.Checker.CheckSlots | pi-mono/packages/chord/src/json.ts:18-29 | All entries are enumerable data and pass the check one level deeper |
| StrictJson.TestsMeanStrict | pi-mono/packages/chord/src/json.ts:11-47 | Counting an array's own keys and finding every element amounts to its having all elements and no other key, names and symbols included; a record has a plain prototype, no symbols, and enumerable data only |
| StrictJson.WithinStep | pi-mono/packages/chord/src/json.ts:8-50 | A value is within the limit exactly when it is admissible and its children are within the limit one deeper |
| StrictJson.CyclesAreTooDeep | pi-mono/packages/chord/src/json.ts:15-15 | A value on a cycle has paths longer than any limit |
| StrictJson.AncestorIsTooDeep | pi-mono/packages/chord/src/json.ts:38-38 | The ancestor test refuses only values that the depth limit would refuse |
| IntakeRegistry.BlobsAreRegisteredRows | backend/app/infrastructure/database/registry_repository.py:138-196 | There are as many blob rows as registered file rows, and each hash with a blob row has a registered row |
| IntakeRegistry.FindRegistered | backend/app/infrastructure/database/registry_repository.py:167-172 | A registered row of this content, if and only if there is one |
| IntakeRegistry.CreateBatchKeeps | backend/app/infrastructure/database/registry_repository.py:98-131 | Creating a batch keeps the tables consistent, unique keys included |
| IntakeRegistry.RegisterFileKeeps | backend/app/infrastructure/database/registry_repository.py:138-196 | A new blob row is committed only together with its file row; a duplicate changes nothing |
| IntakeRegistry.RecordFailedFileKeeps | backend/app/infrastructure/database/registry_repository.py:198-233 | A failed row refers to no content and to an existing batch |
| IntakeRegistry.CompleteBatchKeeps | backend/app/infrastructure/database/registry_repository.py:235-251 | Completing changes only the batch row and keeps its key |
| IntakeRegistry.DeleteEmptyBatchKeeps | backend/app/infrastructure/database/registry_repository.py:312-319 | Only a batch without rows is deleted, so no row loses its batch |
| IntakeRegistry.FileRegistry.GetBatchByIdempotencyKey | backend/app/infrastructure/database/registry_repository.py:133-136 | The one batch with this key |
| IntakeRegistry.FileRegistry.GetBatchDetail | backend/app/infrastructure/database/registry_repository.py:253-263 | The batch row and each of its rows once, by creation time and id |
| IntakeRegistry.FileRegistry.Create | backend/app/infrastructure/database/registry_repository.py:98-131 | Commits the specified tables, or reports a conflict and changes nothing |
| IntakeRegistry.FileRegistry.Register | backend/app/infrastructure/database/registry_repository.py:138-196 | Commits the specified tables and the duplicate found, or rolls back |
| IntakeRegistry.FileRegistry.RecordFailed | backend/app/infrastructure/database/registry_repository.py:198-233 | Commits the specified tables or rolls back |
| IntakeRegistry.FileRegistry.Complete | backend/app/infrastructure/database/registry_repository.py:235-251 | Commits the specified tables or rolls back |
| IntakeRegistry.FileRegistry.DeleteEmpty | backend/app/infrastructure/database/registry_repository.py:312-319 | Deletes exactly when the batch has no rows |
| OriginalFiles.StoreOriginalKeeps | backend/app/infrastructure/storage/local_original_file_store.py:18-63 | Originals are only added, under the hash of their content; a stored blob is on disk with its size, which is positive and within the limit |
| OriginalFiles.StoringAgain | backend/app/infrastructure/storage/local_original_file_store.py:83-97 | Storing content that is there has no effect and succeeds unless a fault strikes |
| OriginalFiles.LocalOriginalFileStore.Store | backend/app/infrastructure/storage/local_original_file_store.py:18-63 | Equals the specification for every chunking and fault; nothing stays staged under this upload |
| OriginalFiles.LocalOriginalFileStore.Receive | backend/app/infrastructure/storage/local_original_file_store.py:35-46 | The chunk loop accepts exactly the contents within the limit and stages all of them, however they are cut |
| OriginalFiles.LocalOriginalFileStore.LinkOriginal | backend/app/infrastructure/storage/local_original_file_store.py:83-97 | A new original appears, or one of equal size is accepted, and none changes |
| IntakeOrchestration.ExecuteTwice | backend/app/application/intake/orchestrator.py:67-145 | Executing a request again, whatever became of the first: nothing changes when its batch is found by the key, and otherwise the first left the world as it was; a batch that was deleted vanishes again if and only if creating it is refused or no fault strikes |
| IntakeOrchestration.KeyIsFoundOrNothingChanged | backend/app/application/intake/orchestrator.py:67-145 | After any execution, failed or not, the key is found or the world is as it was |
| IntakeOrchestration.FailedBatchIsFound | backend/app/application/intake/orchestrator.py:94-141 | A request that fails after its batch was created leaves the batch |
| IntakeOrchestration.EveryFileIsAccountedFor | backend/app/application/intake/orchestrator.py:94-145 | For every reply to a new request: registered plus failed is the number submitted; rows plus duplicates too; the batch stays exactly when it has a row; row sizes obey the file limit and their sum the batch limit |
| IntakeOrchestration.ExecuteKeeps | backend/app/application/intake/orchestrator.py:67-145 | However a request ends, the world stays consistent and no original changes |
| IntakeOrchestration.ReplayChangesNothing | backend/app/application/intake/orchestrator.py:70-77 | A known key changes nothing |
| IntakeOrchestration.DeletedBatchLeavesNothing | backend/app/application/intake/orchestrator.py:142-144 | A batch of duplicates only leaves the world as it was |
| IntakeOrchestration.DeletedBatchAgain | backend/app/application/intake/orchestrator.py:142-145 | Rebuilding it finds the same duplicates and deletes it again |
| IntakeOrchestration.FaultLeavesABatch | backend/app/application/intake/orchestrator.py:216-245 | A fault that strikes during the rebuilding leaves a batch behind |
| IntakeOrchestration.KeptBatchIsFound | backend/app/application/intake/orchestrator.py:70-77 | A kept batch is found by its key, with its fingerprint |
| IntakeOrchestration.ProcessFilesAccounted | backend/app/application/intake/orchestrator.py:94-114 | After every file, also when cut short, the world is consistent and the counters match the rows |
| IntakeOrchestration.ProcessFileAdds | backend/app/application/intake/orchestrator.py:157-245 | One file adds a registered row, a failed row, or nothing when it is a duplicate, and touches no other row |
| IntakeOrchestration.QuietOutcome | backend/app/application/intake/orchestrator.py:157-245 | When no fault strikes, acceptance, duplicate and each failure code are decided by exactly these conditions on the file, the limits and the rows |
| IntakeOrchestration.DisturbedSecondExecution | backend/app/application/intake/orchestrator.py:142-145 | A concrete request of one known file that leaves nothing the first time and something the second time, when linking fails then |
| IntakeOrchestration.ProcessFileKeeps | backend/app/application/intake/orchestrator.py:157-245 | One file keeps the world consistent |
| IntakeOrchestration.DuplicateAgain | backend/app/application/intake/orchestrator.py:201-214 | A duplicate leaves no trace, and is the same duplicate again when no fault strikes |
| IntakeOrchestration.AllDuplicatesAgain | backend/app/application/intake/orchestrator.py:99-114 | The same for a whole request of duplicates |
| IntakeOrchestration.IntakeOrchestrator.ExecuteRequest | backend/app/application/intake/orchestrator.py:67-145 | World and reply are those of the specification; nothing stays staged |
| IntakeOrchestration.IntakeOrchestrator.ExecuteNewRequest | backend/app/application/intake/orchestrator.py:79-145 | The same for a new key |
| IntakeOrchestration.IntakeOrchestrator.ProcessUploads | backend/app/application/intake/orchestrator.py:94-114 | The loop computes the specified world and tally |
| IntakeOrchestration.IntakeOrchestrator.ProcessUpload | backend/app/application/intake/orchestrator.py:157-245 | One file: store, register, and record a failure, as specified |
| IntakeOrchestration.IntakeOrchestrator.FinishRequest | backend/app/application/intake/orchestrator.py:118-145 | Completion, reply and deletion, as specified |
| IntakeReplies.InvalidRequests | backend/app/application/intake/orchestrator.py:147-155 | An invalid request is refused with the first reason that applies, exactly then, and changes nothing |
| IntakeReplies.KnownKey | backend/app/application/intake/orchestrator.py:70-77 | A valid request with a known key changes nothing; it is answered with the batch of that key and its rows if the fingerprints agree, and refused as a conflict otherwise |
| IntakeReplies.NewReply | backend/app/application/intake/orchestrator.py:79-145 | The reply to a new request: its project stripped, its key and fingerprint, registered and failed as its files came out, completed, failed or partial as all, none or some were accepted; an undeleted batch is stored just so |
| IntakeReplies.NewFails | backend/app/application/intake/orchestrator.py:79-145 | A new request fails exactly when the key or id is taken, creating, completing or deleting the batch fails, or a failure cannot be recorded |
| IntakeReplies.FileLeaves | backend/app/application/intake/orchestrator.py:157-245 | What a file leaves in the tables: an accepted one its row with hash, size and time, and a blob row; a duplicate nothing, naming a row with the same content; a rejected one a row with its code |
| IntakeReplies.OnlyAllowedExtensions | backend/app/application/intake/orchestrator.py:171-172 | A file is refused for its extension if and only if that is missing or not allowed |
| IntakeReplies.StruckFile | backend/app/application/intake/orchestrator.py:216-245 | A file that an input or output error strikes is recorded as a storage failure |
| IntakeReplies.UnregisteredFile | backend/app/application/intake/orchestrator.py:230-245 | So is a stored file that the registry fails to register |
| IntakeReplies.TallyMeans | backend/app/application/intake/orchestrator.py:94-114 | Registered counts the accepted files, failed all others, and the bytes used up are those of the accepted and the duplicate ones |
| IntakeReplies.RestOfTheBatch | backend/app/application/intake/orchestrator.py:99-106 | Each file is processed with what the files before it left of the byte limit of the batch |
| IntakeRuns.ConsistentAtEveryStep | backend/app/infrastructure/database/registry_repository.py:138-196 | At every step of every execution, wherever requests stop: blob rows and registered rows are in bijection by hash with equal sizes, each original is on disk under the hash of its content, and every row's batch exists |
| IntakeRuns.NothingIsUndone | backend/app/infrastructure/storage/local_original_file_store.py:83-97 | Originals, blob rows and file rows, once there, never change |
| IntakeRuns.ExecutionKeepsInv | backend/app/application/intake/orchestrator.py:67-145 | Every interleaving of the atomic steps of any number of requests keeps the invariant |
| IntakeRuns.NextKeepsInv | backend/app/infrastructure/database/registry_repository.py:98-319 | Each atomic step keeps the invariant |
| IntakeRuns.ExecuteReaches | backend/app/application/intake/orchestrator.py:67-145 | Executing a request is a run of these steps |
| IntakeRuns.ProcessFileReaches | backend/app/application/intake/orchestrator.py:157-245 | Processing a file is a run of these steps |
| IntakeRuns.StoreReaches | backend/app/infrastructure/storage/local_original_file_store.py:18-63 | Storing is opening, writing, linking and unlinking, in this order |
| IntakeRuns.ReachesExecutes | backend/app/application/intake/orchestrator.py:67-145 | A run of steps extends any execution |
| FileListing.PagesAreTheWholeListing | backend/app/infrastructure/database/registry_repository.py:276-310 | Following `next_cursor` ends; the pages hold every row that matches each given filter, once, by creation time and id from the newest on; only the first can be empty, and all but the last are full |
| FileListing.FollowFrom | backend/app/infrastructure/database/registry_repository.py:293-310 | The same from any cursor on |
| FileListing.SelectAfter | backend/app/infrastructure/database/registry_repository.py:293-303 | What a cursor selects is exactly what comes after its row |
| FileListing.SelectSorted | backend/app/infrastructure/database/registry_repository.py:286-303 | A selection holds each selected row once, newest first |
| FileListing.PageOf | backend/app/infrastructure/database/registry_repository.py:301-310 | A page is the first rows of its selection, and has a cursor exactly when there are more |
| FileListing.CursorRoundTrip | backend/app/infrastructure/database/registry_repository.py:80-91 | Decoding an encoded cursor gives back its pair |
| FileListing.UnreadableCursor | backend/app/infrastructure/database/registry_repository.py:84-91 | A listing fails if and only if its cursor is not empty and cannot be decoded or loaded; an empty cursor is none |
| FileListing.CharOfIsTheAlphabet | backend/app/infrastructure/database/registry_repository.py:80-82 | The URL-safe alphabet in its order (section 5 of RFC 4648) |
| FileListing.GroupIsItsNumber | backend/app/infrastructure/database/registry_repository.py:80-82 | A group of bytes is its big-endian number in digits of six bits (section 4 of RFC 4648) |
| FileListing.EncodeByGroups | backend/app/infrastructure/database/registry_repository.py:80-82 | The text is that of its groups of three bytes |
| FileListing.GroupsAccepted | backend/app/infrastructure/database/registry_repository.py:84-88 | Only digits, filled up with padding at the end, are decoded |
| FileListing.StrippedRoundTrip | backend/app/infrastructure/database/registry_repository.py:80-88 | Stripping the padding and restoring it loses nothing (section 5 of RFC 4648) |
| FileListing.EncodeRoundTrip | backend/app/infrastructure/database/registry_repository.py:80-82 | Decoding what was encoded gives back the bytes |
| FileListing.PadAfterStrip | backend/app/infrastructure/database/registry_repository.py:87-87 | Padding to a multiple of four restores exactly what stripping removed |

## Left out

- Agent: throwing hooks and listeners, and the synthetic events of `handleRunFailure`, which break the normal trace shape on purpose.
- Agent: validation of tool arguments, message conversion, API keys, timestamps and model selection; tool calls and messages carry only the fields that the loop looks at.
- AgentRuns.AgentRun.RunLoop: the environment's scripts are finite; of a run that outlasts them it says what holds when they are used up, for any number of scripts, and nothing of fairness or of eventual termination.
- AgentRuns.AgentRun.PollSteering: what arrives at a queue is enqueued and its mode may change, but clearing a queue while a run is on is not modelled.
- Catalogue refresh: what `refresh` returns to its caller (`raceWithAbortSignal`, the error map), credentials and authentication; the two phases of a refresh appear only as the publications they make.
- CatalogueRefresh.NoStaleEffect: speaks of executions in which no abort listener uses the models object before `previous.abort()` returns (`models.ts:332-348`); what such a listener can change is stated by `InstallKeepsExactly` and `ReentrantAbortMissesInstalled`.
- CatalogueRefresh.ModelsImpl.BeginProviderRefresh: begins the refresh of the object that is installed at that moment. `refresh` takes its list of providers first and then begins each of them, so a credential store or an abort listener that is called while one begins can replace a later one, whose old object is then refreshed with the newest generation (`models.ts:399-419`); like an abort listener inside `setProvider`, this is not part of the executions.
- CatalogueRefresh.StoreAgreesWithMemory: a store operation either takes effect or rejects without effect; one that rejects and still reaches the store later is not modelled.
- Catalogues are opaque values; filtering and cloning of models are not part of this model.
- RpcConnection.Connection.HandleData: the messages left of a chunk when a message callback reconnects are handled by the new attempt, as in the source (`connection.ts:157-160`); no isolation is claimed for them, only that the new attempt, having no transport yet, cannot be connected by them.
- RpcConnection: error values, frame lengths and the bytes of frames; the decoder is the list of messages that a chunk yields, or its rejection.
- RpcClient: the connection below the client is represented by its contract (an attempt becomes connected only in a later task, and ends at most once), not by an instance of `RpcConnection.Connection`; encoding may fail at any time.
- RpcClient: the order in which pending promises are rejected, which no caller can observe synchronously.
- ServiceSubscriptions: the unsubscribe request itself is not modelled; its failure is one of the points at which `EndDispose` may happen.
- UnixTransport: the socket, discovery of servers and the probing timeout; socket events come in any order.
- ProxyStreams: parsing of partial tool arguments, usage and cost; `JSON.parse`, trimming and text decoding are uninterpreted functions, and the decoder's last flush is text without newlines.
- StrictJson: proxies and getters that change the heap while it is checked.
- OriginalFiles: paths and permissions; a storage key is determined by the hash, so originals are a map from hashes to contents. A failing unlink in the clean-up handler and task cancellation are not modelled.
- OriginalFiles.LocalOriginalFileStore.Store: link, unlink and write faults are single events; a fault of several operations at once is not modelled.
- IntakeRegistry: SQLAlchemy and SQLite; a transaction is an atomic update that either commits or is rolled back, under the unique indexes and foreign keys of the schema.
- IntakeOrchestration.IntakeOrchestrator.ExecuteRequest: a reply holds the set of the rows of its batch; their order is that of `GetBatchDetail`.
- IntakeOrchestration: `hashlib`, JSON and string stripping are uninterpreted functions; empty staging directories and log events are left out; a replayed reply carries no duplicates, so idempotence is stated of the tables and originals.
- IntakeOrchestration.EveryFileIsAccountedFor: speaks of requests that reply; a request cut short keeps the world consistent (`ExecuteKeeps`) but its counters stay as they were.
- FileListing: file ids are numbers, of which only the order matters; dates are instants; the JSON of a cursor is an uninterpreted faithful serialization. Decoding rejects characters outside the alphabet, which the library function skips.
- FileListing.PagesAreTheWholeListing: the table does not change while the cursors are followed.
- Front end, HTTP routes, provider adapters, command line, generators and migrations.
