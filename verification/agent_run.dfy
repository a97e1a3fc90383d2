/** One `Agent` executing runs of the agent loop over its queues and its reduced state. */
module AgentRuns {
  import opened Wrappers
  import opened Transcript
  import opened AgentEvents
  import opened AgentLoop

  lemma EndsWithTail(s: seq<Message>, m: Message, tail: seq<Message>)
    ensures EndsWith(s + [m] + tail, [m] + tail)
  {
  }

  lemma Associative(a: seq<Message>, b: seq<Message>, m: Message)
    ensures a + b + [m] == a + (b + [m])
  {
  }

  /** How the inner loop of a run ended: scripts used up, run over, or nothing left to do. */
  datatype LoopStatus = Exhausted | Over | Settled

  /** `Agent.continue` refuses an empty transcript and an assistant message with nothing queued. */
  datatype ContinueResult =
    | NothingToContinue
    | FromAssistant
    | Ran(completed: bool, fromSteering: seq<Message>, fromFollowUps: seq<Message>)

  class AgentRun {
    const steeringQueue: PendingMessageQueue
    const followUpQueue: PendingMessageQueue
    const toolExecutionSequential: bool

    var state: AgentState                 // `_state`, reduced from the events
    var tools: seq<AgentTool>
    var context: Context                  // `currentContext` of the loop
    var newMessages: seq<Message>
    var skipInitialSteeringPoll: bool

    ghost var startState: AgentState
    ghost var events: seq<Event>
    ghost var turns: seq<TurnRecord>

    constructor (messages: seq<Message>, tools: seq<AgentTool>, steeringMode: QueueMode, followUpMode: QueueMode,
                 sequential: bool)
      ensures Synced() && QueuesOk() && Idle()
      ensures fresh(steeringQueue) && fresh(followUpQueue)
      ensures state.messages == messages && Contents() == EMPTY
    {
      steeringQueue := new PendingMessageQueue(steeringMode);
      followUpQueue := new PendingMessageQueue(followUpMode);
      toolExecutionSequential := sequential;
      state := AgentState(messages, None, {});
      startState := AgentState(messages, None, {});
      this.tools, context, newMessages := tools, Context(messages, tools), [];
      skipInitialSteeringPoll := false;
      events, turns := [], [];
    }

    /** Between runs nothing is streaming and no tool call is pending. */
    ghost predicate Idle()
      reads this
    {
      state.streaming == None && state.pendingToolCalls == {}
    }

    /** The reduced state is the fold of the events emitted so far. */
    ghost predicate Synced()
      reads this
    {
      state == ReduceAll(startState, events)
    }

    ghost predicate QueuesOk()
      reads steeringQueue, followUpQueue
    {
      steeringQueue != followUpQueue && steeringQueue.Valid() && followUpQueue.Valid()
    }

    function Contents(): Queues
      reads steeringQueue, followUpQueue
    {
      Queues(steeringQueue.messages, followUpQueue.messages)
    }

    ghost function CurrentPhase(): Phase
      reads this
    {
      Observe(events).phase
    }

    ghost function Ended(): seq<Message>
      reads this
    {
      Observe(events).ended
    }

    method Emit(e: Event)
      requires Synced()
      modifies this`events, this`state
      ensures Synced() && events == old(events) + [e] && state == Reduce(old(state), e)
      ensures Observe(events) == Follow(old(Observe(events)), e)
    {
      state := Reduce(state, e);
      events := events + [e];
      assert events[..|events| - 1] == old(events);
    }

    /** Inside a turn, with no message open and no call running. */
    ghost predicate Quiet()
      reads this
    {
      Synced() && CurrentPhase().InTurn? && !CurrentPhase().open && CurrentPhase().running == map[]
    }

    method EmitMessage(message: Message)
      requires Quiet()
      modifies this`events, this`state
      ensures Synced() && old(events) <= events
      ensures CurrentPhase() == old(CurrentPhase()).(turn := old(CurrentPhase()).turn + [message])
      ensures Ended() == old(Ended()) + [message]
      ensures forall from | OneByOne(old(events), from) :: OneByOne(events, from)
    {
      Emit(MessageStart(message));
      Emit(MessageEnd(message));
      assert events == old(events) + [MessageStart(message)] + [MessageEnd(message)];
      assert Together(old(events) + [MessageStart(message)]) == 0;
      forall from | OneByOne(old(events), from) ensures OneByOne(events, from) {
        OneByOneGrows(old(events), from, MessageStart(message));
        OneByOneGrows(old(events) + [MessageStart(message)], from, MessageEnd(message));
      }
    }

    method EmitToolStart(slot: nat, call: ToolCall)
      requires Synced() && CurrentPhase().InTurn? && !CurrentPhase().open
      requires slot !in CurrentPhase().running && slot !in CurrentPhase().finished
      modifies this`events, this`state
      ensures Synced() && events == old(events) + [ToolStart(slot, call)] && Ended() == old(Ended())
      ensures CurrentPhase() == old(CurrentPhase()).(running := old(CurrentPhase()).running[slot := call])
    {
      Emit(ToolStart(slot, call));
    }

    method EmitToolUpdate(slot: nat, call: ToolCall, partial: string)
      requires Synced() && CurrentPhase().InTurn?
      requires slot in CurrentPhase().running && CurrentPhase().running[slot] == call
      modifies this`events, this`state
      ensures Synced() && events == old(events) + [ToolUpdate(slot, call, partial)] && Observe(events) == old(Observe(events))
    {
      Emit(ToolUpdate(slot, call, partial));
    }

    method EmitToolEnd(slot: nat, call: ToolCall, outcome: Outcome)
      requires Synced() && CurrentPhase().InTurn?
      requires slot in CurrentPhase().running && CurrentPhase().running[slot] == call
      modifies this`events, this`state
      ensures Synced() && events == old(events) + [ToolEnd(slot, call, outcome.content, outcome.isError)]
      ensures Ended() == old(Ended())
      ensures CurrentPhase() == old(CurrentPhase()).(running := old(CurrentPhase()).running - {slot},
                                                    finished := old(CurrentPhase()).finished[slot := ResultMessage(call, outcome)])
    {
      Emit(ToolEnd(slot, call, outcome.content, outcome.isError));
    }

    method StreamAssistantResponse(stream: seq<StreamEvent>, result: AssistantMessage)
      requires Quiet() && StartsOnce(stream)
      modifies this`events, this`state, this`context
      ensures Synced() && old(events) <= events
      ensures CurrentPhase() == old(CurrentPhase()).(turn := old(CurrentPhase()).turn + [result])
      ensures Ended() == old(Ended()) + [result]
      ensures context == old(context).(messages := old(context.messages) + [result])
    {
      var addedPartial := false;
      var i := 0;
      while i < |stream| && !stream[i].Terminal?
        invariant 0 <= i <= |stream|
        invariant Synced() && old(events) <= events
        invariant Ended() == old(Ended())
        invariant CurrentPhase() == old(CurrentPhase()).(open := addedPartial)
        invariant addedPartial ==> exists j | 0 <= j < i :: stream[j].Started?
        invariant context.tools == old(context.tools)
        invariant if addedPartial then |context.messages| == |old(context.messages)| + 1
                                       && context.messages[..|old(context.messages)|] == old(context.messages)
                  else context.messages == old(context.messages)
      {
        match stream[i] {
          case Started(partial) =>
            context := context.(messages := context.messages + [partial]);
            addedPartial := true;
            Emit(MessageStart(partial));
          case Partial(partial) =>
            if addedPartial {
              context := context.(messages := context.messages[|context.messages| - 1 := partial]);
              Emit(MessageUpdate(partial));
            }
          case Terminal =>
        }
        i := i + 1;
      }
      if addedPartial {
        context := context.(messages := context.messages[|context.messages| - 1 := result]);
      } else {
        context := context.(messages := context.messages + [result]);
        Emit(MessageStart(result));
      }
      assert context.messages == old(context.messages) + [result];
      Emit(MessageEnd(result));
    }

    // ---------- Tool batches ----------

    /** `executePreparedToolCall` of one call on its own: some progress callbacks arrive, then it returns. */
    method ReportProgress(slot: nat, call: ToolCall, updates: seq<string>)
      requires Synced() && CurrentPhase().InTurn?
      requires slot in CurrentPhase().running && CurrentPhase().running[slot] == call
      modifies this`events, this`state
      ensures Synced() && old(events) <= events
      ensures Observe(events) == old(Observe(events))
      ensures Together(old(events)) <= 1 ==> forall from | OneByOne(old(events), from) :: OneByOne(events, from)
    {
      hide OneByOne;
      var sent: nat :| sent <= |updates|;
      var i := 0;
      while i < sent
        invariant 0 <= i <= sent
        invariant Synced() && old(events) <= events
        invariant Observe(events) == old(Observe(events))
        invariant Together(old(events)) <= 1 ==> forall from | OneByOne(old(events), from) :: OneByOne(events, from)
      {
        ghost var before := events;
        EmitToolUpdate(slot, call, updates[i]);
        if Together(old(events)) <= 1 {
          forall from | OneByOne(old(events), from) ensures OneByOne(events, from) {
            OneByOneGrows(before, from, ToolUpdate(slot, call, updates[i]));
          }
        }
        i := i + 1;
      }
    }

    /** The state of a batch that runs its calls one after the other. */
    ghost predicate SequentialAt(results: seq<Message>, turn: seq<Message>, ended: seq<Message>)
      reads this
    {
      && Synced()
      && CurrentPhase() == InTurn(false, map[], BySlot(results), turn + results)
      && Ended() == ended + results
    }

    /** Start, end and result message of the next call; `prepared` calls report progress in between. */
    method RunCall(k: nat, call: ToolCall, outcome: Outcome, updates: seq<string>,
                   ghost results: seq<Message>, ghost turn: seq<Message>, ghost ended: seq<Message>)
      requires k == |results| && SequentialAt(results, turn, ended)
      modifies this`events, this`state
      ensures SequentialAt(results + [ResultMessage(call, outcome)], turn, ended)
      ensures old(events) <= events
      ensures forall from | OneByOne(old(events), from) :: OneByOne(events, from)
    {
      hide OneByOne;
      PushSlot(results, ResultMessage(call, outcome));
      EmitToolStart(k, call);
      assert Together(events) == 1;
      forall from | OneByOne(old(events), from) ensures OneByOne(events, from) {
        OneByOneGrows(old(events), from, ToolStart(k, call));
      }
      ReportProgress(k, call, updates);
      ghost var reported := events;
      EmitToolEnd(k, call, outcome);
      assert map[k := call] - {k} == map[];
      forall from | OneByOne(reported, from) ensures OneByOne(events, from) {
        OneByOneGrows(reported, from, ToolEnd(k, call, outcome.content, outcome.isError));
      }
      EmitMessage(ResultMessage(call, outcome));
      Associative(turn, results, ResultMessage(call, outcome));
      Associative(ended, results, ResultMessage(call, outcome));
    }

    method FailToolCallsFromTruncatedMessage(calls: seq<ToolCall>) returns (results: seq<Message>)
      requires Quiet() && CurrentPhase().finished == map[]
      modifies this`events, this`state
      ensures SequentialAt(results, old(CurrentPhase()).turn, old(Ended())) && old(events) <= events
      ensures |results| == |calls|
      ensures forall k | 0 <= k < |calls| :: results[k] == ResultMessage(calls[k], ErrorOutcome(TRUNCATED))
      ensures OneByOne(events, |old(events)|)
    {
      results := [];
      ghost var turn, ended := CurrentPhase().turn, Ended();
      OneByOneStarts();
      hide OneByOne;
      var k := 0;
      while k < |calls|
        invariant 0 <= k <= |calls| && |results| == k
        invariant forall j | 0 <= j < k :: results[j] == ResultMessage(calls[j], ErrorOutcome(TRUNCATED))
        invariant SequentialAt(results, turn, ended) && old(events) <= events && OneByOne(events, |old(events)|)
      {
        RunCall(k, calls[k], ErrorOutcome(TRUNCATED), [], results, turn, ended);
        results := results + [ResultMessage(calls[k], ErrorOutcome(TRUNCATED))];
        k := k + 1;
      }
    }

    lemma OneByOneStarts()
      requires Quiet()
      ensures OneByOne(events, |events|)
    {
      assert events[..|events|] == events;
    }

    method ExecuteToolCallsSequential(calls: seq<ToolCall>, scripts: nat -> CallScript)
      returns (results: seq<Message>, terminate: bool)
      requires Quiet() && CurrentPhase().finished == map[]
      modifies this`events, this`state
      ensures Synced() && old(events) <= events
      ensures results == ResultMessages(calls, Outcomes(context.tools, calls, scripts, false))
      ensures terminate == ShouldTerminate(Outcomes(context.tools, calls, scripts, false))
      ensures SequentialAt(results, old(CurrentPhase()).turn, old(Ended()))
      ensures OneByOne(events, |old(events)|)
    {
      results := [];
      ghost var turn, ended := CurrentPhase().turn, Ended();
      OneByOneStarts();
      var finalizedCalls: seq<Outcome> := [];
      var k := 0;
      assert SequentialAt([], turn, ended);
      hide Observe, ReduceAll, Quiet, CurrentPhase, Ended, OutcomeOf, ShouldTerminate, OneByOne;
      while k < |calls|
        invariant 0 <= k <= |calls|
        invariant BatchLength(scripts, k, |calls|) == BatchLength(scripts, 0, |calls|)
        invariant finalizedCalls == OutcomesUpTo(context.tools, calls, scripts, false, k)
        invariant results == ResultMessages(calls, finalizedCalls)
        invariant SequentialAt(results, turn, ended) && old(events) <= events && OneByOne(events, |old(events)|)
      {
        finalizedCalls, results := RunNextCall(k, calls, scripts, finalizedCalls, results, turn, ended);
        k := k + 1;
        if scripts(k - 1).abortedAfter {
          break;
        }
      }
      terminate := ShouldTerminate(finalizedCalls);
    }

    method RunNextCall(k: nat, calls: seq<ToolCall>, scripts: nat -> CallScript, finalizedCalls: seq<Outcome>,
                       results: seq<Message>, ghost turn: seq<Message>, ghost ended: seq<Message>)
      returns (moreCalls: seq<Outcome>, moreResults: seq<Message>)
      requires k < |calls| && SequentialAt(results, turn, ended)
      requires finalizedCalls == OutcomesUpTo(context.tools, calls, scripts, false, k)
      requires results == ResultMessages(calls, finalizedCalls)
      modifies this`events, this`state
      ensures moreCalls == OutcomesUpTo(context.tools, calls, scripts, false, k + 1)
      ensures moreResults == ResultMessages(calls, moreCalls)
      ensures SequentialAt(moreResults, turn, ended) && old(events) <= events
      ensures forall from | OneByOne(old(events), from) :: OneByOne(events, from)
    {
      hide OneByOne;
      var outcome := OutcomeOf(context.tools, calls[k], scripts(k), false);
      var prepared := PreparationOf(context.tools, calls[k], scripts(k)).Prepared?;
      RunCall(k, calls[k], outcome, if prepared then scripts(k).updates else [], results, turn, ended);
      ResultMessagesSnoc(calls, finalizedCalls, outcome);
      moreCalls := finalizedCalls + [outcome];
      moreResults := results + [ResultMessage(calls[k], outcome)];
    }

    /** The state of a parallel batch: the running calls are the tasks that are not done. */
    ghost predicate ParallelAt(tasks: seq<Task>, calls: seq<ToolCall>, turn: seq<Message>, ended: seq<Message>)
      requires |tasks| <= |calls|
      reads this
    {
      && Synced()
      && CurrentPhase() == InTurn(false, Running(tasks, calls), Finished(tasks, calls), turn)
      && Ended() == ended
    }

    /** Every finished task holds the outcome its own call and environment determine. */
    ghost predicate TasksOk(tasks: seq<Task>, calls: seq<ToolCall>, scripts: nat -> CallScript)
      requires |tasks| <= |calls|
      reads this
    {
      forall k | 0 <= k < |tasks| ::
        match tasks[k]
        case Done(outcome) => outcome == OutcomeOf(context.tools, calls[k], scripts(k), true)
        case NotStarted => PreparationOf(context.tools, calls[k], scripts(k)).Prepared?
        case _ => PreparationOf(context.tools, calls[k], scripts(k)).Prepared? && !scripts(k).abortedAtStart
    }

    /** Preflight of the next call: its start event, and its end event when the outcome is immediate. */
    method PreflightCall(tasks: seq<Task>, calls: seq<ToolCall>, scripts: nat -> CallScript,
                         ghost turn: seq<Message>, ghost ended: seq<Message>) returns (task: Task)
      requires |tasks| < |calls| && ParallelAt(tasks, calls, turn, ended) && TasksOk(tasks, calls, scripts)
      modifies this`events, this`state
      ensures ParallelAt(tasks + [task], calls, turn, ended) && old(events) <= events
      ensures TasksOk(tasks + [task], calls, scripts)
    {
      var k := |tasks|;
      PushTask(tasks, calls, NotStarted);
      EmitToolStart(k, calls[k]);
      match PreparationOf(context.tools, calls[k], scripts(k)) {
        case Immediate(outcome) =>
          PushTask(tasks, calls, Done(outcome));
          EmitToolEnd(k, calls[k], outcome);
          task := Done(outcome);
        case Prepared =>
          task := NotStarted;
      }
    }

    /** The sequential preflight of a batch: it stops after the call at which abort is seen. */
    method Preflight(calls: seq<ToolCall>, scripts: nat -> CallScript) returns (tasks: seq<Task>)
      requires Quiet() && CurrentPhase().finished == map[]
      modifies this`events, this`state
      ensures |tasks| == BatchLength(scripts, 0, |calls|) && old(events) <= events
      ensures ParallelAt(tasks, calls, old(CurrentPhase()).turn, old(Ended()))
      ensures TasksOk(tasks, calls, scripts)
    {
      tasks := [];
      ghost var turn, ended := CurrentPhase().turn, Ended();
      while |tasks| < |calls|
        invariant |tasks| <= |calls|
        invariant BatchLength(scripts, |tasks|, |calls|) == BatchLength(scripts, 0, |calls|)
        invariant ParallelAt(tasks, calls, turn, ended) && TasksOk(tasks, calls, scripts) && old(events) <= events
        decreases |calls| - |tasks|
      {
        var task := PreflightCall(tasks, calls, scripts, turn, ended);
        tasks := tasks + [task];
        if scripts(|tasks| - 1).abortedAfter {
          break;
        }
      }
    }

    /** One step of one deferred call: start, progress, return, or end. */
    method Advance(k: nat, tasks: seq<Task>, calls: seq<ToolCall>, scripts: nat -> CallScript,
                   ghost turn: seq<Message>, ghost ended: seq<Message>) returns (task: Task)
      requires k < |tasks| <= |calls| && !tasks[k].Done?
      requires ParallelAt(tasks, calls, turn, ended) && TasksOk(tasks, calls, scripts)
      modifies this`events, this`state
      ensures Remaining(task, |scripts(k).updates|) < Remaining(tasks[k], |scripts(k).updates|)
      ensures ParallelAt(tasks[k := task], calls, turn, ended) && TasksOk(tasks[k := task], calls, scripts)
      ensures old(events) <= events
    {
      var call, updates := calls[k], scripts(k).updates;
      match tasks[k] {
        case NotStarted =>
          task := if scripts(k).abortedAtStart then Done(ErrorOutcome("Operation aborted")) else Executing(0);
        case Executing(sent) =>
          var returns': bool := *;
          if returns' || sent >= |updates| {
            task := Finalizing(sent);
          } else {
            EmitToolUpdate(k, call, updates[sent]);
            task := Executing(sent + 1);
          }
        case Finalizing(sent) =>
          // a callback that arrives now is dropped: `acceptingUpdates` is false
          var late: bool := *;
          task := if late && sent < |updates| then Finalizing(sent + 1)
                  else Done(Finalized(scripts(k).execution, scripts(k).override));
      }
      SetTask(tasks, calls, k, task);
      if task.Done? {
        EmitToolEnd(k, call, task.outcome);
      }
    }

    /** `Promise.all` over the deferred calls: they advance in any order until all are done. */
    method RunDeferred(started: seq<Task>, calls: seq<ToolCall>, scripts: nat -> CallScript,
                       ghost turn: seq<Message>, ghost ended: seq<Message>) returns (outcomes: seq<Outcome>)
      requires |started| <= |calls| && ParallelAt(started, calls, turn, ended) && TasksOk(started, calls, scripts)
      modifies this`events, this`state
      ensures |outcomes| == |started| && old(events) <= events
      ensures forall k | 0 <= k < |outcomes| :: outcomes[k] == OutcomeOf(context.tools, calls[k], scripts(k), true)
      ensures Synced() && Ended() == ended
      ensures CurrentPhase() == InTurn(false, map[], BySlot(ResultMessages(calls, outcomes)), turn)
    {
      var tasks := started;
      while exists k :: 0 <= k < |tasks| && !tasks[k].Done?
        invariant |tasks| == |started|
        invariant ParallelAt(tasks, calls, turn, ended) && TasksOk(tasks, calls, scripts) && old(events) <= events
        decreases TotalRemaining(tasks, scripts)
      {
        var k: nat :| 0 <= k < |tasks| && !tasks[k].Done?;
        var task := Advance(k, tasks, calls, scripts, turn, ended);
        StepsRemaining(tasks, scripts, k, task);
        tasks := tasks[k := task];
      }
      outcomes := seq(|tasks|, k requires 0 <= k < |tasks| => tasks[k].outcome);
      AllFinished(tasks, calls, outcomes);
    }

    /** Tool-result messages are emitted in source order once all calls have ended. */
    method EmitResults(calls: seq<ToolCall>, outcomes: seq<Outcome>) returns (results: seq<Message>)
      requires Quiet() && |outcomes| <= |calls|
      modifies this`events, this`state
      ensures results == ResultMessages(calls, outcomes)
      ensures Synced() && old(events) <= events && Ended() == old(Ended()) + results
      ensures CurrentPhase() == old(CurrentPhase()).(turn := old(CurrentPhase()).turn + results)
    {
      results := [];
      ghost var turn, ended, all := CurrentPhase().turn, Ended(), ResultMessages(calls, outcomes);
      var k := 0;
      while k < |outcomes|
        invariant 0 <= k <= |outcomes| && results == all[..k]
        invariant Synced() && old(events) <= events && Ended() == ended + results
        invariant CurrentPhase() == old(CurrentPhase()).(turn := turn + results)
      {
        var message := ResultMessage(calls[k], outcomes[k]);
        EmitMessage(message);
        Associative(turn, results, message);
        Associative(ended, results, message);
        results := results + [message];
        k := k + 1;
      }
    }

    method ExecuteToolCallsParallel(calls: seq<ToolCall>, scripts: nat -> CallScript)
      returns (results: seq<Message>, terminate: bool)
      requires Quiet() && CurrentPhase().finished == map[]
      modifies this`events, this`state
      ensures Synced() && old(events) <= events
      ensures results == ResultMessages(calls, Outcomes(context.tools, calls, scripts, true))
      ensures terminate == ShouldTerminate(Outcomes(context.tools, calls, scripts, true))
      ensures SequentialAt(results, old(CurrentPhase()).turn, old(Ended()))
    {
      ghost var turn, ended := CurrentPhase().turn, Ended();
      var tasks := Preflight(calls, scripts);
      var outcomes := RunDeferred(tasks, calls, scripts, turn, ended);
      assert outcomes == Outcomes(context.tools, calls, scripts, true);
      results := EmitResults(calls, outcomes);
      terminate := ShouldTerminate(outcomes);
    }

    method ExecuteToolCalls(calls: seq<ToolCall>, scripts: nat -> CallScript)
      returns (results: seq<Message>, terminate: bool)
      requires Quiet() && CurrentPhase().finished == map[]
      modifies this`events, this`state
      ensures Synced() && old(events) <= events
      ensures SequentialAt(results, old(CurrentPhase()).turn, old(Ended()))
      ensures var outcomes := Outcomes(context.tools, calls, scripts, Deferred(context.tools, toolExecutionSequential, calls));
              results == ResultMessages(calls, outcomes) && terminate == ShouldTerminate(outcomes)
      ensures !Deferred(context.tools, toolExecutionSequential, calls) ==> OneByOne(events, |old(events)|)
      ensures startState.pendingToolCalls == {} ==> state.pendingToolCalls == {}
    {
      var hasSequentialToolCall := exists c | c in calls :: IsSequential(context.tools, c);
      if toolExecutionSequential || hasSequentialToolCall {
        results, terminate := ExecuteToolCallsSequential(calls, scripts);
      } else {
        results, terminate := ExecuteToolCallsParallel(calls, scripts);
      }
      NothingPending();
    }

    /** When no call is running, none is pending. */
    lemma NothingPending()
      requires Quiet()
      ensures startState.pendingToolCalls == {} ==> state.pendingToolCalls == {}
    {
      if startState.pendingToolCalls == {} {
        PendingCallsAreRunning(startState, events);
      }
    }

    // ---------- Turns ----------

    method PollSteering(arrivals: Arrivals) returns (messages: seq<Message>)
      requires QueuesOk()
      modifies this`skipInitialSteeringPoll, steeringQueue, followUpQueue
      ensures QueuesOk() && !skipInitialSteeringPoll
      ensures Polled(messages, Contents()) == FirstPoll(old(Contents()), arrivals, old(skipInitialSteeringPoll))
      ensures steeringQueue.accepted == old(steeringQueue.accepted) + arrivals.steering
      ensures steeringQueue.drained == old(steeringQueue.drained) + messages
      ensures followUpQueue.accepted == old(followUpQueue.accepted) + arrivals.followUps
      ensures followUpQueue.drained == old(followUpQueue.drained)
    {
      Receive(arrivals);
      if skipInitialSteeringPoll {
        skipInitialSteeringPoll := false;
        return [];
      }
      messages := steeringQueue.Drain();
    }

    method PollFollowUps(arrivals: Arrivals) returns (messages: seq<Message>)
      requires QueuesOk()
      modifies steeringQueue, followUpQueue
      ensures QueuesOk()
      ensures Polled(messages, Contents()) == FollowUpPoll(old(Contents()), arrivals)
      ensures steeringQueue.accepted == old(steeringQueue.accepted) + arrivals.steering
      ensures steeringQueue.drained == old(steeringQueue.drained)
      ensures followUpQueue.accepted == old(followUpQueue.accepted) + arrivals.followUps
      ensures followUpQueue.drained == old(followUpQueue.drained) + messages
    {
      Receive(arrivals);
      messages := followUpQueue.Drain();
    }

    /** What callers of `steer`, `followUp` and the mode setters did since the last poll. */
    method Receive(arrivals: Arrivals)
      requires QueuesOk()
      modifies steeringQueue, followUpQueue
      ensures QueuesOk()
      ensures steeringQueue.mode == arrivals.steeringMode && steeringQueue.drained == old(steeringQueue.drained)
      ensures steeringQueue.accepted == old(steeringQueue.accepted) + arrivals.steering
      ensures steeringQueue.messages == old(steeringQueue.messages) + arrivals.steering
      ensures followUpQueue.mode == arrivals.followUpMode && followUpQueue.drained == old(followUpQueue.drained)
      ensures followUpQueue.accepted == old(followUpQueue.accepted) + arrivals.followUps
      ensures followUpQueue.messages == old(followUpQueue.messages) + arrivals.followUps
    {
      EnqueueAll(steeringQueue, arrivals.steering, arrivals.steeringMode);
      EnqueueAll(followUpQueue, arrivals.followUps, arrivals.followUpMode);
    }

    method EnqueueAll(queue: PendingMessageQueue, arrived: seq<Message>, mode: QueueMode)
      requires queue.Valid()
      modifies queue
      ensures queue.Valid() && queue.mode == mode && queue.drained == old(queue.drained)
      ensures queue.accepted == old(queue.accepted) + arrived
      ensures queue.messages == old(queue.messages) + arrived
    {
      var i := 0;
      while i < |arrived|
        invariant 0 <= i <= |arrived| && queue.Valid() && queue.drained == old(queue.drained)
        invariant queue.accepted == old(queue.accepted) + arrived[..i]
        invariant queue.messages == old(queue.messages) + arrived[..i]
      {
        queue.Enqueue(arrived[i]);
        assert arrived[..i + 1] == arrived[..i] + [arrived[i]];
        i := i + 1;
      }
      assert arrived[..i] == arrived;
      queue.mode := mode;
    }

    /** Emit pending messages and append them to the context and to the new messages. */
    method AppendInputs(messages: seq<Message>)
      requires Quiet() && Ended() == newMessages
      modifies this`events, this`state, this`context, this`newMessages
      ensures Synced() && old(events) <= events && Ended() == newMessages
      ensures newMessages == old(newMessages) + messages
      ensures context == old(context).(messages := old(context.messages) + messages)
      ensures CurrentPhase() == old(CurrentPhase()).(turn := old(CurrentPhase()).turn + messages)
    {
      hide Observe, ReduceAll, MessagesEnded;
      var i := 0;
      ghost var phase := CurrentPhase();
      while i < |messages|
        invariant 0 <= i <= |messages|
        invariant Synced() && old(events) <= events && Ended() == newMessages
        invariant newMessages == old(newMessages) + messages[..i]
        invariant context == old(context).(messages := old(context.messages) + messages[..i])
        invariant CurrentPhase() == phase.(turn := phase.turn + messages[..i])
      {
        EmitMessage(messages[i]);
        context := context.(messages := context.messages + [messages[i]]);
        newMessages := newMessages + [messages[i]];
        assert messages[..i + 1] == messages[..i] + [messages[i]];
        i := i + 1;
      }
      assert messages[..i] == messages;
    }

    /** The tool calls of a response, unless it is a hard stop. */
    method RunBatch(response: AssistantMessage, scripts: nat -> CallScript) returns (results: seq<Message>, more: bool)
      requires Quiet() && CurrentPhase().finished == map[]
      modifies this`events, this`state
      ensures Quiet() && old(events) <= events && SequentialAt(results, old(CurrentPhase()).turn, old(Ended()))
      ensures results == BatchResults(context.tools, toolExecutionSequential, response, scripts)
      ensures more == BatchGoesOn(context.tools, toolExecutionSequential, response, scripts)
      ensures startState.pendingToolCalls == {} ==> state.pendingToolCalls == {}
    {
      hide Observe, ReduceAll, Outcomes, ShouldTerminate, Deferred;
      results, more := [], false;
      var calls := response.toolCalls;
      if !HardStop(response) && |calls| > 0 {
        if response.stopReason == Length {
          results := FailToolCallsFromTruncatedMessage(calls);
          TruncatedGoesOn(context.tools, toolExecutionSequential, response, scripts);
          assert results == BatchResults(context.tools, toolExecutionSequential, response, scripts);
          more := true;
        } else {
          var terminate;
          results, terminate := ExecuteToolCalls(calls, scripts);
          BatchIsNotEmpty(context.tools, toolExecutionSequential, response, scripts);
          more := !terminate;
        }
      } else {
        NoBatch(context.tools, toolExecutionSequential, response, scripts);
        assert old(Ended()) + [] == old(Ended()) && old(CurrentPhase()).turn + [] == old(CurrentPhase()).turn;
      }
      NothingPending();
    }

    /** The response of the turn and its tool batch, appended to the context and to the new messages. */
    method RespondAndExecute(script: TurnScript) returns (results: seq<Message>, more: bool)
      requires Quiet() && CurrentPhase().finished == map[] && StartsOnce(script.stream)
      requires Ended() == newMessages
      modifies this`events, this`state, this`context, this`newMessages
      ensures Quiet() && old(events) <= events && Ended() == newMessages
      ensures EndsWith(CurrentPhase().turn, [script.response] + results) && CurrentPhase().finished == BySlot(results)
      ensures newMessages == old(newMessages) + [script.response] + results
      ensures context == old(context).(messages := old(context.messages) + [script.response] + results)
      ensures results == BatchResults(old(context.tools), toolExecutionSequential, script.response, script.calls)
      ensures more == BatchGoesOn(old(context.tools), toolExecutionSequential, script.response, script.calls)
    {
      hide BatchResults, BatchGoesOn;
      ghost var turn := CurrentPhase().turn;
      Respond(script);
      results, more := RunBatch(script.response, script.calls);
      EndsWithTail(turn, script.response, results);
      AppendResults(results);
    }

    method Respond(script: TurnScript)
      requires Quiet() && StartsOnce(script.stream) && Ended() == newMessages
      modifies this`events, this`state, this`context, this`newMessages
      ensures Quiet() && old(events) <= events && Ended() == newMessages
      ensures CurrentPhase() == old(CurrentPhase()).(turn := old(CurrentPhase()).turn + [script.response])
      ensures newMessages == old(newMessages) + [script.response]
      ensures context == old(context).(messages := old(context.messages) + [script.response])
    {
      StreamAssistantResponse(script.stream, script.response);
      newMessages := newMessages + [script.response];
    }

    method AppendResults(results: seq<Message>)
      modifies this`context, this`newMessages
      ensures newMessages == old(newMessages) + results
      ensures context == old(context).(messages := old(context.messages) + results)
    {
      context := context.(messages := context.messages + results);
      newMessages := newMessages + results;
    }

    /** The start of a turn after the first: hooks, a late look at the steering queue, `turn_start`. */
    method PrepareTurn(script: TurnScript, steering: seq<Message>, followUps: seq<Message>)
      returns (prepared: seq<Message>, allSteering: seq<Message>)
      requires QueuesOk() && Synced() && CurrentPhase().Between? && Ended() == newMessages
      modifies this`state, this`context, this`skipInitialSteeringPoll, this`events, steeringQueue, followUpQueue
      ensures QueuesOk() && Quiet() && CurrentPhase().finished == map[] && CurrentPhase().turn == []
      ensures old(events) <= events && Ended() == newMessages
      ensures prepared == PreparedMessages(script) && context == Opening(old(context), script)
      ensures Polled(allSteering, Contents()) ==
              if steering + followUps != [] then Polled(steering, old(Contents()))
              else FirstPoll(old(Contents()), script.afterPrepare, old(skipInitialSteeringPoll))
      ensures skipInitialSteeringPoll ==> old(skipInitialSteeringPoll)
    {
      prepared, allSteering := [], steering;
      match script.nextTurn {
        case None =>
        case Some(next) =>
          prepared := next.messages;
          if next.context.Some? {
            context := next.context.value;
          }
      }
      if |steering + followUps| == 0 {
        allSteering := PollSteering(script.afterPrepare);
      }
      Emit(TurnStart);
    }

    /** Prepared and queued messages with the tool changes declared on them, emitted and appended. */
    method AdmitInputs(prepared: seq<Message>, queued: seq<Message>)
      returns (inputs: seq<Message>)
      requires Quiet() && Ended() == newMessages
      modifies this`events, this`state, this`context, this`newMessages
      ensures Quiet() && CurrentPhase().finished == old(CurrentPhase().finished)
      ensures old(events) <= events && Ended() == newMessages
      ensures newMessages == old(newMessages) + inputs
      ensures context == old(context).(messages := old(context.messages) + inputs)
      ensures inputs == Declare(old(context.messages), Declarations(context.tools), prepared + queued)
    {
      hide Declare;
      inputs := DeclareToolChanges(context.messages, Declarations(context.tools), prepared + queued);
      AppendInputs(inputs);
    }

    method PrepareRequest(request: Option<Context>)
      modifies this`context
      ensures context == if request.Some? then request.value else old(context)
    {
      if request.Some? {
        context := request.value;
      }
    }

    method EmitTurnEnd(response: AssistantMessage, results: seq<Message>)
      requires Quiet() && EndsWith(CurrentPhase().turn, [response] + results) && CurrentPhase().finished == BySlot(results)
      modifies this`events, this`state
      ensures Synced() && CurrentPhase().Between? && old(events) <= events && Ended() == old(Ended())
    {
      Emit(TurnEnd(response, results));
    }

    /** One iteration of the inner loop: prepare, append inputs, stream, execute, finish. */
    method RunTurn(script: TurnScript, steering: seq<Message>, followUps: seq<Message>, first: bool) returns (r: TurnRecord)
      requires QueuesOk() && Synced() && StartsOnce(script.stream) && !skipInitialSteeringPoll
      requires if first then Quiet() && CurrentPhase().finished == map[] else CurrentPhase().Between?
      requires Ended() == newMessages
      modifies this`state, this`context, this`newMessages, this`skipInitialSteeringPoll, this`events
      modifies steeringQueue, followUpQueue
      ensures QueuesOk() && Synced() && CurrentPhase().Between? && old(events) <= events && !skipInitialSteeringPoll
      ensures Ended() == newMessages == old(newMessages) + r.inputs + [r.response] + r.results
      ensures RecordOk(r, script, toolExecutionSequential) && context == Closing(r, script)
      ensures TakesPending(r, old(Contents()), steering, followUps, script, first)
      ensures r.opening == (if first then old(context) else Opening(old(context), script))
      ensures r.prepared == (if first then [] else PreparedMessages(script))
      ensures !r.asked && r.nextSteering == r.nextFollowUps == [] && r.found == r.left == Contents()
    {
      hide Declare, BatchResults, BatchGoesOn, ReduceAll, Observe;
      var prepared: seq<Message> := [];
      var allSteering := steering;
      if !first {
        prepared, allSteering := PrepareTurn(script, steering, followUps);
      }
      var opening := context;
      var inputs := AdmitInputs(prepared, allSteering + followUps);
      PrepareRequest(script.request);
      var results, more := RespondAndExecute(script);
      EmitTurnEnd(script.response, results);
      r := TurnRecord(opening, prepared, allSteering, followUps, inputs, script.response, results, more, script.decision,
                      Contents(), [], false, [], Contents());
    }

    // ---------- The loop ----------

    ghost function LoopViewNow(steering: seq<Message>, followUps: seq<Message>): LoopView
      reads this, steeringQueue, followUpQueue
    {
      LoopView(turns, newMessages, context, Contents(), Queues(steering, followUps))
    }

    /** What holds of the run whether or not it is over. */
    ghost predicate RunOk()
      reads this, steeringQueue, followUpQueue
    {
      QueuesOk() && Synced() && Ended() == newMessages
    }

    ghost predicate AtTurnBoundary()
      reads this
    {
      !skipInitialSteeringPoll
      && if turns == [] then Quiet() && CurrentPhase().finished == map[] else CurrentPhase().Between?
    }

    /** Between two turns, with the given messages pending. */
    ghost predicate Paused(steering: seq<Message>, followUps: seq<Message>, scripts: seq<TurnScript>, o: Origin)
      reads this, steeringQueue, followUpQueue
    {
      RunOk() && AtTurnBoundary() && Accounted(LoopViewNow(steering, followUps), o, scripts, toolExecutionSequential)
    }

    lemma PausedFacts(steering: seq<Message>, followUps: seq<Message>, scripts: seq<TurnScript>, o: Origin)
      requires Paused(steering, followUps, scripts, o)
      ensures |turns| <= |scripts| && AgentLoop.Pending(turns, o.first) == Queues(steering, followUps)
      ensures turns != [] ==> Contents() == turns[|turns| - 1].left && steering == turns[|turns| - 1].nextSteering
      ensures RunOk() && Accounted(LoopViewNow(steering, followUps), o, scripts, toolExecutionSequential)
    {
    }

    /** Run the next turn, poll for steering unless the run ends, and record both. */
    method TakeTurn(scripts: seq<TurnScript>, t: nat, steering: seq<Message>, followUps: seq<Message>, ghost o: Origin)
      returns (r: TurnRecord)
      requires forall script | script in scripts :: StartsOnce(script.stream)
      requires t == |turns| < |scripts| && Paused(steering, followUps, scripts, o) && MayTakeTurn(turns)
      modifies this`state, this`context, this`newMessages, this`skipInitialSteeringPoll, this`events, this`turns
      modifies steeringQueue, followUpQueue
      ensures turns == old(turns) + [r] && !r.asked && r.nextFollowUps == [] && old(events) <= events
      ensures Paused(r.nextSteering, [], scripts, o)
    {
      hide HistoryOk, RecordOk, PollsOk, SteeringPoll, Observe, ReduceAll, Accounted, Closing, Opening, StartsOnce;
      ghost var v := LoopViewNow(steering, followUps);
      r := RunTurn(scripts[t], steering, followUps, t == 0);
      r := PollAfterTurn(r, scripts[t]);
      turns := turns + [r];
      TurnAccounted(v, LoopViewNow(r.nextSteering, []), o, scripts, toolExecutionSequential, r);
    }

    /** Unless the run ends with this turn, the steering queue is polled before the loop decides. */
    method PollAfterTurn(r: TurnRecord, script: TurnScript) returns (polled: TurnRecord)
      requires RunOk() && !skipInitialSteeringPoll && RecordOk(r, script, toolExecutionSequential)
      requires !r.asked && r.nextSteering == r.nextFollowUps == [] && r.found == r.left == Contents()
      modifies this`skipInitialSteeringPoll, steeringQueue, followUpQueue
      ensures RunOk() && !skipInitialSteeringPoll
      ensures RecordOk(polled, script, toolExecutionSequential) && PollsOk(polled, script)
      ensures polled == r.(nextSteering := polled.nextSteering, left := Contents())
      ensures Closing(polled, script) == Closing(r, script)
    {
      polled := r;
      if !StoppedEarly(r) {
        var next := PollSteering(script.afterTurn);
        polled := r.(nextSteering := next, left := Contents());
        RecordKeepsPolls(r, script, toolExecutionSequential, polled);
      }
    }

    /** `agent_end`, whose listeners may enqueue more. */
    method FinishRun(ghost scripts: seq<TurnScript>, final: Arrivals, ghost o: Origin)
      requires Paused([], [], scripts, o) && turns != [] && Ends(turns[|turns| - 1])
      modifies this`events, this`state, steeringQueue, followUpQueue
      ensures RunOver(scripts, final, o) && old(events) <= events
    {
      hide Accounted, Observe, ReduceAll, Ends;
      PausedFacts([], [], scripts, o);
      Emit(AgentEnd(newMessages));
      Receive(final);
    }

    /** A run that has ended: its trace is legal, its last turn ended it, and its listeners have had their say. */
    ghost predicate RunOver(scripts: seq<TurnScript>, final: Arrivals, o: Origin)
      reads this, steeringQueue, followUpQueue
    {
      && RunOk() && Accepted(events) && turns != [] && Ends(turns[|turns| - 1])
      && Contents() == Received(turns[|turns| - 1].left, final)
      && Accounted(LoopViewNow([], []).(queues := turns[|turns| - 1].left), o, scripts, toolExecutionSequential)
    }

    /** A run that its scripts do not end: all of them have been used, and another turn is due. */
    ghost predicate StillDue(scripts: seq<TurnScript>, o: Origin)
      reads this, steeringQueue, followUpQueue
    {
      && |turns| == |scripts| && MayTakeTurn(turns)
      && var pending := AgentLoop.Pending(turns, o.first); Paused(pending.steering, pending.followUps, scripts, o)
    }

    /** The inner loop: turns while there are tool calls or pending messages.  It is `Exhausted` only when
        every script has been used and another turn is due. */
    method RunTurns(scripts: seq<TurnScript>, t: nat, initialSteering: seq<Message>, initialFollowUps: seq<Message>,
                    final: Arrivals, ghost o: Origin)
      returns (status: LoopStatus, next: nat, explicitContinuation: bool)
      requires forall script | script in scripts :: StartsOnce(script.stream)
      requires t == |turns| <= |scripts| && MayTakeTurn(turns)
      requires Paused(initialSteering, initialFollowUps, scripts, o)
      modifies this`state, this`context, this`newMessages, this`skipInitialSteeringPoll, this`events, this`turns
      modifies steeringQueue, followUpQueue
      ensures old(events) <= events
      ensures status == Exhausted ==> StillDue(scripts, o)
      ensures status == Over ==> RunOver(scripts, final, o) && StoppedEarly(turns[|turns| - 1])
      ensures status == Settled ==>
        && t < next == |turns| <= |scripts| && Paused([], [], scripts, o)
        && !turns[next - 1].moreToolCalls && turns[next - 1].nextSteering == []
        && !turns[next - 1].asked && !StoppedEarly(turns[next - 1])
        && explicitContinuation == (turns[next - 1].decision == ContinueRun)
    {
      hide Paused, RunOver, StillDue, PollsOk, HardStop;
      next, explicitContinuation := t, false;
      var steering, followUps := initialSteering, initialFollowUps;
      var hasMoreToolCalls := true;
      while hasMoreToolCalls || |steering + followUps| > 0
        invariant t <= next == |turns| <= |scripts| && old(events) <= events
        invariant Paused(steering, followUps, scripts, o)
        invariant next == t ==> hasMoreToolCalls && MayTakeTurn(turns)
        invariant next > t ==>
          && hasMoreToolCalls == turns[next - 1].moreToolCalls && followUps == []
          && steering == turns[next - 1].nextSteering
          && !turns[next - 1].asked && !StoppedEarly(turns[next - 1])
          && explicitContinuation == (turns[next - 1].decision == ContinueRun && !hasMoreToolCalls && steering == [])
        decreases |scripts| - next
      {
        if next == |scripts| {
          PausedIsDue(steering, followUps, scripts, o);
          return Exhausted, next, explicitContinuation;
        }
        var r := TakeTurn(scripts, next, steering, followUps, o);
        next := next + 1;
        steering, followUps := r.nextSteering, [];
        if StoppedEarly(r) {
          StoppedHoldsNothing(steering, scripts, o);
          FinishRun(scripts, final, o);
          return Over, next, explicitContinuation;
        }
        hasMoreToolCalls := r.moreToolCalls;
        explicitContinuation := r.decision == ContinueRun;
        if hasMoreToolCalls || |steering| > 0 {
          explicitContinuation := false;
        }
      }
      return Settled, next, explicitContinuation;
    }

    lemma PausedIsDue(steering: seq<Message>, followUps: seq<Message>, scripts: seq<TurnScript>, o: Origin)
      requires Paused(steering, followUps, scripts, o) && |turns| == |scripts| && MayTakeTurn(turns)
      ensures StillDue(scripts, o)
    {
    }

    /** Nothing is polled after a turn that ends the run. */
    lemma StoppedHoldsNothing(steering: seq<Message>, scripts: seq<TurnScript>, o: Origin)
      requires Paused(steering, [], scripts, o) && turns != [] && StoppedEarly(turns[|turns| - 1])
      ensures steering == []
    {
    }

    /** Ask for follow-ups and make them pending. */
    method TakeFollowUps(scripts: seq<TurnScript>, t: nat, ghost o: Origin) returns (followUps: seq<Message>)
      requires 0 < t == |turns| <= |scripts| && Paused([], [], scripts, o)
      requires !turns[t - 1].asked && !StoppedEarly(turns[t - 1])
      modifies this`turns, steeringQueue, followUpQueue
      ensures Paused([], followUps, scripts, o)
      ensures turns == old(turns)[t - 1 := Asked(old(turns[t - 1]), scripts[t - 1])]
      ensures followUps == turns[t - 1].nextFollowUps
    {
      hide Accounted, Observe, ReduceAll, StoppedEarly, FollowUpPoll, Asked;
      PausedFacts([], [], scripts, o);
      ghost var v := LoopViewNow([], []);
      AskedPolls(turns[t - 1], scripts[t - 1]);
      followUps := PollFollowUps(scripts[t - 1].beforeStop);
      turns := turns[t - 1 := Asked(turns[t - 1], scripts[t - 1])];
      FollowUpsAccounted(v, LoopViewNow([], followUps), o, scripts, toolExecutionSequential, turns[t - 1]);
    }

    lemma AskedPolls(r: TurnRecord, script: TurnScript)
      ensures Polled(Asked(r, script).nextFollowUps, Asked(r, script).left) == FollowUpPoll(r.left, script.beforeStop)
      ensures Asked(r, script).nextSteering == r.nextSteering
    {
    }

    /** The poll before the first turn. */
    method StartLoop(initial: Arrivals, ghost scripts: seq<TurnScript>, ghost o: Origin) returns (steering: seq<Message>)
      requires RunOk() && Quiet() && CurrentPhase().finished == map[] && turns == []
      requires o.start == newMessages && o.opening == context
      requires o.first == FirstPoll(Contents(), initial, skipInitialSteeringPoll)
      modifies this`skipInitialSteeringPoll, steeringQueue, followUpQueue
      ensures Paused(steering, [], scripts, o)
    {
      hide Observe, ReduceAll;
      steering := PollSteering(initial);
      assert o.start + Produced([]) == o.start;
    }

    /** `runLoop`.  It returns false only when all scripts have been used and another turn is due. */
    method RunLoop(scripts: seq<TurnScript>, initial: Arrivals, final: Arrivals, ghost o: Origin) returns (completed: bool)
      requires forall script | script in scripts :: StartsOnce(script.stream)
      requires RunOk() && Quiet() && CurrentPhase().finished == map[] && turns == []
      requires o.start == newMessages && o.opening == context
      requires o.first == FirstPoll(Contents(), initial, skipInitialSteeringPoll)
      modifies this`state, this`context, this`newMessages, this`skipInitialSteeringPoll, this`events, this`turns
      modifies steeringQueue, followUpQueue
      ensures old(events) <= events
      ensures if completed then RunOver(scripts, final, o) else StillDue(scripts, o)
    {
      hide Paused, RunOver, RunOk, Quiet, CurrentPhase, FirstPoll, GoesOn;
      var steering := StartLoop(initial, scripts, o);
      var followUps: seq<Message> := [];
      var t := 0;
      var more := true;
      while more
        invariant t == |turns| <= |scripts| && old(events) <= events && Paused(steering, followUps, scripts, o)
        invariant if more then MayTakeTurn(turns) else turns != [] && Ends(turns[t - 1]) && steering == followUps == []
        decreases |scripts| - t, more
      {
        var status;
        status, t, followUps, more := RunCycle(scripts, t, steering, followUps, final, o);
        if status != Settled {
          return status == Over;
        }
        steering := [];
      }
      FinishRun(scripts, final, o);
      return true;
    }

    /** One pass of the outer loop: turns until nothing is pending, and then the follow-ups; `more` says that
        they, or an explicit continuation, call for another pass. */
    method RunCycle(scripts: seq<TurnScript>, t: nat, steering: seq<Message>, followUps: seq<Message>,
                    final: Arrivals, ghost o: Origin)
      returns (status: LoopStatus, next: nat, nextFollowUps: seq<Message>, more: bool)
      requires forall script | script in scripts :: StartsOnce(script.stream)
      requires t == |turns| <= |scripts| && MayTakeTurn(turns) && Paused(steering, followUps, scripts, o)
      modifies this`state, this`context, this`newMessages, this`skipInitialSteeringPoll, this`events, this`turns
      modifies steeringQueue, followUpQueue
      ensures old(events) <= events
      ensures status == Exhausted ==> StillDue(scripts, o)
      ensures status == Over ==> RunOver(scripts, final, o)
      ensures status == Settled ==>
                t < next == |turns| <= |scripts| && Paused([], nextFollowUps, scripts, o) &&
                if more then MayTakeTurn(turns) else Ends(turns[next - 1]) && nextFollowUps == []
    {
      hide Paused, RunOver;
      var explicitContinuation;
      nextFollowUps, more := [], false;
      status, next, explicitContinuation := RunTurns(scripts, t, steering, followUps, final, o);
      if status == Settled {
        nextFollowUps := TakeFollowUps(scripts, next, o);
        more := |nextFollowUps| > 0 || explicitContinuation;
      }
    }

    // ---------- Runs of the agent ----------

    /** `runWithLifecycle` and `createContextSnapshot`: a run starts from the agent's own transcript. */
    method BeginRun()
      requires QueuesOk() && Idle()
      modifies this`state, this`context, this`newMessages, this`startState, this`events, this`turns
      ensures RunOk() && Quiet() && CurrentPhase().finished == map[]
      ensures state.messages == old(state.messages) && Idle() && startState == state
      ensures newMessages == [] && turns == [] && context == Context(state.messages, tools)
    {
      state := state.(streaming := None);
      startState, events, turns := state, [], [];
      context, newMessages := Context(state.messages, tools), [];
      NothingObserved();
      hide Observe, ReduceAll;
      Emit(AgentStart);
      Emit(TurnStart);
    }

    lemma NothingObserved()
      requires events == [] && startState == state
      ensures Synced() && Observe(events) == Monitor(Before, [])
    {
    }

    /** What a finished run leaves: a legal trace, copies of one transcript that agree, and an idle agent. */
    ghost predicate RunResult(base: seq<Message>)
      reads this
    {
      && Accepted(events)
      && newMessages == MessagesEnded(events)
      && state.messages == base + newMessages
      && Idle()
    }

    /** What the turns of a run come to, for a run that began with queues holding `q`: every turn keeps its
        record and follows the one before it; nothing is lost between the queues and the turns; a queue that
        is polled one at a time gives each turn at most one message; and the context is that of the last turn,
        which is the whole transcript unless a hook replaced it. */
    ghost predicate TurnsOk(base: seq<Message>, q: Queues, scripts: seq<TurnScript>, initial: Arrivals, first: Polled,
                            opening: Context)
      reads this`turns, this`newMessages, this`context
    {
      && HistoryOk(turns, scripts, toolExecutionSequential) && StartsWith(turns, opening, first)
      && Balanced(q, initial, turns, scripts, first)
      && (SingleSteering(initial, turns, scripts) ==> OneSteering(turns))
      && (SingleFollowUps(turns, scripts) ==> OneFollowUp(turns))
      && context == ContextAfter(turns, scripts, opening)
      && (ContextKept(turns, scripts) ==> context == Context(base + newMessages, opening.tools))
    }

    /** What a completed run does with its turns and queues: the last turn ends it, and what is queued is what
        the last poll left and the listeners of `agent_end` added; unless the run was stopped early, that is
        exactly what arrived since the last poll of each queue. */
    ghost predicate RunTotals(scripts: seq<TurnScript>, final: Arrivals)
      reads this`turns, steeringQueue, followUpQueue
    {
      && 0 < |turns| <= |scripts| && Ends(turns[|turns| - 1])
      && Contents() == Received(turns[|turns| - 1].left, final)
      && (!StoppedEarly(turns[|turns| - 1]) ==>
            Contents() == Queues(scripts[|turns| - 1].beforeStop.steering + final.steering, final.followUps))
    }

    lemma TurnsAreOk(v: LoopView, o: Origin, scripts: seq<TurnScript>, q: Queues, initial: Arrivals, skip: bool)
      requires |turns| <= |scripts| && Accounted(v, o, scripts, toolExecutionSequential) && o.first == FirstPoll(q, initial, skip)
      requires v.turns == turns && v.newMessages == newMessages && v.context == context
      requires o.opening.messages == o.base + o.start
      ensures TurnsOk(o.base, q, scripts, initial, o.first, o.opening)
      ensures newMessages == o.start + Produced(turns)
    {
      hide HistoryOk, StartsWith, FirstPoll, Balanced, Closing, SingleSteering, SingleFollowUps, OneSteering, OneFollowUp;
      QueuesAreConserved(turns, scripts, toolExecutionSequential, q, initial, skip, o.opening);
      OneMessagePerTurn(turns, scripts, toolExecutionSequential, q, initial, skip, o.opening);
      if ContextKept(turns, scripts) {
        ContextFollows(turns, scripts, toolExecutionSequential, o.opening, o.first);
        assert o.base + o.start + Produced(turns) == o.base + (o.start + Produced(turns));
      }
    }

    lemma TranscriptsAgree(scripts: seq<TurnScript>, final: Arrivals, o: Origin)
      requires RunOver(scripts, final, o) && startState == AgentState(o.base, None, {})
      ensures Accepted(events) && newMessages == MessagesEnded(events) && state.messages == o.base + newMessages
      ensures QueuesOk()
    {
      hide Accounted, Ends, MessagesEnded;
      assert !Observe(events).phase.Illegal?;
      ReducedTranscript(startState, events);
      EndedIsMessagesEnded(events);
      hide Observe, ReduceAll;
    }

    lemma TotalsHold(scripts: seq<TurnScript>, final: Arrivals, o: Origin)
      requires RunOver(scripts, final, o)
      ensures RunTotals(scripts, final)
    {
      hide Observe, ReduceAll, RecordOk, PollsOk, Follows, StartsWith, Closing, Produced, StoppedEarly;
      var n := |turns| - 1;
      LastRecord(turns, scripts, toolExecutionSequential);
      if !StoppedEarly(turns[n]) {
        NothingIsLeft(turns[n], scripts[n]);
        assert [] + final.followUps == final.followUps;
      }
    }

    /** `finishRun`, after the last event has been reduced. */
    method EndRunLifecycle(ghost scripts: seq<TurnScript>, ghost final: Arrivals, ghost o: Origin)
      requires RunOver(scripts, final, o) && startState == AgentState(o.base, None, {})
      modifies this`state
      ensures RunResult(o.base) && QueuesOk() && RunTotals(scripts, final)
    {
      hide RunOver, Accepted, MessagesEnded, QueuesOk, RunTotals;
      TranscriptsAgree(scripts, final, o);
      TotalsHold(scripts, final, o);
      state := state.(streaming := None, pendingToolCalls := {});
    }

    /** A run that its scripts do not end: every script has been used and another turn is due; the trace so far
        is legal, and the queues hold what the last poll left. */
    ghost predicate Underway(base: seq<Message>, scripts: seq<TurnScript>, first: Polled)
      reads this, steeringQueue, followUpQueue
    {
      && |turns| == |scripts| && MayTakeTurn(turns) && Contents() == LeftIn(turns, first)
      && RunOk() && !CurrentPhase().Illegal? && state.messages == base + newMessages
    }

    lemma DueIsUnderway(scripts: seq<TurnScript>, o: Origin)
      requires StillDue(scripts, o) && startState == AgentState(o.base, None, {})
      ensures Underway(o.base, scripts, o.first)
    {
      ReducedTranscript(startState, events);
      hide Observe, ReduceAll, HistoryOk, Produced;
    }

    /** `runAgentLoop`: the prompts are declared, appended and emitted before the loop starts. */
    method RunPrompts(prompts: seq<Message>, scripts: seq<TurnScript>, initial: Arrivals, final: Arrivals)
      returns (completed: bool)
      requires forall script | script in scripts :: StartsOnce(script.stream)
      requires QueuesOk() && Idle()
      modifies this`state, this`context, this`newMessages, this`skipInitialSteeringPoll, this`startState
      modifies this`events, this`turns, steeringQueue, followUpQueue
      ensures QueuesOk()
      ensures completed ==> RunResult(old(state.messages)) && RunTotals(scripts, final)
      ensures var first := FirstPoll(old(Contents()), initial, old(skipInitialSteeringPoll));
              && (!completed ==> Underway(old(state.messages), scripts, first))
              && Answered(old(state.messages), prompts, old(Contents()), scripts, initial, first)
      ensures old(skipInitialSteeringPoll) && turns != [] ==> turns[0].steering == []
    {
      hide Observe, ReduceAll, Produced, Declare, StartsOnce, FirstPoll;
      hide RunResult, RunTotals, RunOver, StillDue, TurnsOk, Underway;
      ghost var base, queues := state.messages, Contents();
      BeginRun();
      var inputs := AdmitInputs([], prompts);
      assert [] + prompts == prompts;
      ghost var o := Origin(base, newMessages, context, FirstPoll(queues, initial, skipInitialSteeringPoll));
      completed := RunLoop(scripts, initial, final, o);
      CloseRun(completed, scripts, initial, final, queues, old(skipInitialSteeringPoll), o);
      TurnsStart(base, queues, scripts, initial, old(skipInitialSteeringPoll), o.opening);
    }

    lemma TurnsStart(base: seq<Message>, q: Queues, scripts: seq<TurnScript>, initial: Arrivals, skip: bool, opening: Context)
      requires TurnsOk(base, q, scripts, initial, FirstPoll(q, initial, skip), opening)
      ensures skip && turns != [] ==> turns[0].steering == []
    {
    }

    ghost function ClosingView(completed: bool, scripts: seq<TurnScript>, final: Arrivals, o: Origin): (v: LoopView)
      requires if completed then RunOver(scripts, final, o) else StillDue(scripts, o)
      reads this, steeringQueue, followUpQueue
      ensures Accounted(v, o, scripts, toolExecutionSequential) && QueuesOk()
      ensures |turns| <= |scripts| && v.turns == turns && v.newMessages == newMessages && v.context == context
    {
      LoopViewNow([], []).(queues := LeftIn(turns, o.first), pending := AgentLoop.Pending(turns, o.first))
    }

    /** What follows the loop: `finishRun`, if the run has ended. */
    method CloseRun(completed: bool, ghost scripts: seq<TurnScript>, ghost initial: Arrivals, ghost final: Arrivals,
                    ghost q: Queues, ghost skip: bool, ghost o: Origin)
      requires if completed then RunOver(scripts, final, o) else StillDue(scripts, o)
      requires startState == AgentState(o.base, None, {}) && o.opening.messages == o.base + o.start
      requires o.first == FirstPoll(q, initial, skip)
      modifies this`state
      ensures QueuesOk()
      ensures if completed then RunResult(o.base) && RunTotals(scripts, final) else Underway(o.base, scripts, o.first)
      ensures newMessages == o.start + Produced(turns) && TurnsOk(o.base, q, scripts, initial, o.first, o.opening)
    {
      hide RunOver, StillDue, Accounted, TurnsOk, RunTotals, RunResult, Underway, FirstPoll, Produced, QueuesOk;
      ghost var v := ClosingView(completed, scripts, final, o);
      TurnsAreOk(v, o, scripts, q, initial, skip);
      if completed {
        EndRunLifecycle(scripts, final, o);
      } else {
        DueIsUnderway(scripts, o);
      }
    }

    /** The run took up the prompts, with the tool changes declared on them, and then produced its turns. */
    ghost predicate Answered(base: seq<Message>, prompts: seq<Message>, q: Queues, scripts: seq<TurnScript>,
                             initial: Arrivals, first: Polled)
      reads this
    {
      var inputs := Declare(base, Declarations(tools), prompts);
      newMessages == inputs + Produced(turns) && TurnsOk(base, q, scripts, initial, first, Context(base + inputs, tools))
    }

    /** `runAgentLoopContinue`: no prompt, the transcript already ends with something to answer. */
    method RunContinuation(scripts: seq<TurnScript>, initial: Arrivals, final: Arrivals) returns (completed: bool)
      requires forall script | script in scripts :: StartsOnce(script.stream)
      requires QueuesOk() && Idle()
      modifies this`state, this`context, this`newMessages, this`skipInitialSteeringPoll, this`startState
      modifies this`events, this`turns, steeringQueue, followUpQueue
      ensures QueuesOk()
      ensures completed ==> RunResult(old(state.messages)) && RunTotals(scripts, final)
      ensures var first := FirstPoll(old(Contents()), initial, old(skipInitialSteeringPoll));
              && (!completed ==> Underway(old(state.messages), scripts, first))
              && newMessages == Produced(turns)
              && TurnsOk(old(state.messages), old(Contents()), scripts, initial, first, Context(old(state.messages), tools))
    {
      hide Observe, ReduceAll, Produced, StartsOnce, RunResult, RunTotals, RunOver, StillDue, TurnsOk, Underway, FirstPoll;
      ghost var base, queues := state.messages, Contents();
      BeginRun();
      ghost var o := Origin(base, newMessages, context, FirstPoll(queues, initial, skipInitialSteeringPoll));
      completed := RunLoop(scripts, initial, final, o);
      assert base + [] == base;
      CloseRun(completed, scripts, initial, final, queues, old(skipInitialSteeringPoll), o);
      assert [] + Produced(turns) == Produced(turns);
    }

    /** `Agent.continue`: answer the last message, or use queued messages as prompts after an assistant message. */
    method Continue(scripts: seq<TurnScript>, initial: Arrivals, final: Arrivals)
      returns (result: ContinueResult)
      requires forall script | script in scripts :: StartsOnce(script.stream)
      requires QueuesOk() && Idle() && !skipInitialSteeringPoll
      modifies this`state, this`context, this`newMessages, this`skipInitialSteeringPoll, this`startState
      modifies this`events, this`turns, steeringQueue, followUpQueue
      ensures QueuesOk()
      ensures result.NothingToContinue? <==> forall m | m in old(state.messages) :: m.System?
      ensures result.FromAssistant? <==>
                && old(state.messages) != [] && old(state.messages[|state.messages| - 1]).Assistant?
                && old(Contents()) == EMPTY
      ensures result.NothingToContinue? || result.FromAssistant? ==> state == old(state) && Contents() == old(Contents())
      ensures result.Ran? ==>
                var queued := old(state.messages[|state.messages| - 1]).Assistant?;
                && result.fromSteering == (if queued then old(steeringQueue.Peek()) else [])
                && result.fromFollowUps == (if queued && result.fromSteering == [] then old(followUpQueue.Peek()) else [])
                && (queued ==> result.fromSteering + result.fromFollowUps != [])
      ensures result.Ran? && result.completed ==> RunResult(old(state.messages)) && RunTotals(scripts, final)
      ensures result.Ran? ==>
                var queues := Queues(old(steeringQueue.messages)[|result.fromSteering|..],
                                     old(followUpQueue.messages)[|result.fromFollowUps|..]);
                var first := FirstPoll(queues, initial, result.fromSteering != []);
                var prompts := result.fromSteering + result.fromFollowUps;
                && (!result.completed ==> Underway(old(state.messages), scripts, first))
                && (result.fromSteering != [] && turns != [] ==> turns[0].steering == [])
                && if prompts != [] then Answered(old(state.messages), prompts, queues, scripts, initial, first)
                   else newMessages == Produced(turns) &&
                        TurnsOk(old(state.messages), queues, scripts, initial, first, Context(old(state.messages), tools))
    {
      hide HistoryOk, Observe, ReduceAll, Accounted, Produced, Declare, StartsOnce, RunTotals, RunResult, TurnsOk;
      hide Answered, Underway, FirstPoll, Front;
      assert state.messages != [] ==> state.messages[|state.messages| - 1] in state.messages;
      assert steeringQueue.messages[0..] == steeringQueue.messages && followUpQueue.messages[0..] == followUpQueue.messages;
      if forall m | m in state.messages :: m.System? {
        return NothingToContinue;
      }
      if state.messages[|state.messages| - 1].Assistant? {
        var queuedSteering := steeringQueue.Drain();
        if |queuedSteering| > 0 {
          assert queuedSteering + [] == queuedSteering;
          skipInitialSteeringPoll := true;
          var completed := RunPrompts(queuedSteering, scripts, initial, final);
          return Ran(completed, queuedSteering, []);
        }
        var queuedFollowUps := followUpQueue.Drain();
        if |queuedFollowUps| > 0 {
          assert [] + queuedFollowUps == queuedFollowUps;
          var completed := RunPrompts(queuedFollowUps, scripts, initial, final);
          return Ran(completed, [], queuedFollowUps);
        }
        return FromAssistant;
      }
      var completed := RunContinuation(scripts, initial, final);
      return Ran(completed, [], []);
    }
  }

  /** A turn that answers and calls no tool, with hooks that do nothing. */
  function PlainTurn(): TurnScript {
    TurnScript(None, NO_ARRIVALS, None, [], Assistant("done", [], Stop),
               (k: nat) => CallScript(Prepared, [], Outcome("", false, None), None, false, false),
               Undecided, NO_ARRIVALS, NO_ARRIVALS)
  }

  /** A plain turn is the last one when nothing has been polled after it. */
  lemma PlainTurnIsLast(r: TurnRecord, sequential: bool)
    ensures RecordOk(r, PlainTurn(), sequential) && r.nextSteering == r.nextFollowUps == [] ==> !GoesOn(r)
    ensures RecordOk(r, PlainTurn(), sequential) ==> !StoppedEarly(r)
    ensures PollsOk(r, PlainTurn()) && r.found == EMPTY ==> r.nextSteering == r.nextFollowUps == [] && r.left == EMPTY
  {
    NoBatch(RequestTools(r.opening, PlainTurn()), sequential, PlainTurn().response, PlainTurn().calls);
  }

  /** A run of one plain turn whose `agent_end` listener steers ends with that message still queued. */
  method LateSteering(m: Message) returns (agent: AgentRun)
    ensures fresh(agent) && Accepted(agent.events) && |agent.turns| == 1 && !StoppedEarly(agent.turns[0])
    ensures agent.Contents() == Queues([m], [])
  {
    hide Observe, ReduceAll, Declare, BatchResults, BatchGoesOn, Produced, MessagesEnded, PollsOk;
    agent := new AgentRun([User("hello")], [], OneAtATime, OneAtATime, false);
    var scripts := [PlainTurn()];
    var completed := agent.RunContinuation(scripts, NO_ARRIVALS, Arrivals([m], OneAtATime, [], OneAtATime));
    if |agent.turns| == 1 {
      PlainTurnIsLast(agent.turns[0], agent.toolExecutionSequential);
    }
    assert completed;
  }
}
