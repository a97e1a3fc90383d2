/** The agent run loop: turns, steering and follow-up queues, tool batches and the event stream.

  Hooks, tools and the provider stream are the environment.  One `TurnScript` fixes what they
  answer in one turn, so a theorem for every script is a theorem for every environment; the
  interleaving of parallel tools is left to nondeterministic choice.
 */
module AgentLoop {
  import opened Wrappers
  import opened Transcript
  import opened AgentEvents

  // ---------- Queues ----------

  datatype QueueMode = All | OneAtATime

  /** What a poll takes from a queue: everything, or its first message. */
  function Front(queue: seq<Message>, mode: QueueMode): (next: seq<Message>)
    ensures next <= queue && (queue != [] ==> next != [])
    ensures mode == OneAtATime ==> |next| <= 1
    ensures mode == All ==> next == queue
  {
    if mode == All then queue else if queue == [] then [] else [queue[0]]
  }

  class PendingMessageQueue {
    var messages: seq<Message>
    var mode: QueueMode
    ghost var accepted: seq<Message>  // every message enqueued and not cleared, in order
    ghost var drained: seq<Message>   // every message handed out, in order

    ghost predicate Valid()
      reads this
    {
      accepted == drained + messages
    }

    constructor (mode: QueueMode)
      ensures Valid() && messages == [] && this.mode == mode && accepted == []
    {
      messages, this.mode, accepted, drained := [], mode, [], [];
    }

    method Enqueue(message: Message)
      requires Valid()
      modifies this
      ensures Valid() && messages == old(messages) + [message] && mode == old(mode)
      ensures accepted == old(accepted) + [message] && drained == old(drained)
    {
      messages := messages + [message];
      accepted := accepted + [message];
    }

    function Peek(): (next: seq<Message>)
      reads this
      ensures next <= messages
      ensures messages != [] ==> next != []
      ensures mode == OneAtATime ==> |next| <= 1
      ensures mode == All ==> next == messages
    {
      Front(messages, mode)
    }

    method Drain() returns (next: seq<Message>)
      requires Valid()
      modifies this
      ensures Valid() && accepted == old(accepted) && mode == old(mode)
      ensures next == old(Peek()) && drained == old(drained) + next && messages == old(messages)[|next|..]
    {
      next := Peek();
      messages := messages[|next|..];
      drained := drained + next;
    }

    method Clear()
      requires Valid()
      modifies this
      ensures Valid() && messages == [] && accepted == drained == old(drained) && mode == old(mode)
    {
      messages := [];
      accepted := drained;
    }
  }

  // ---------- Tool calls ----------

  datatype AgentTool = AgentTool(tool: Tool, sequential: bool)

  datatype Context = Context(messages: seq<Message>, tools: seq<AgentTool>)

  datatype Outcome = Outcome(content: string, isError: bool, terminate: Option<bool>)

  datatype Override = Override(content: Option<string>, isError: Option<bool>, terminate: Option<bool>)

  datatype Preparation = Immediate(outcome: Outcome) | Prepared

  /** What hooks, tool and abort signal do around one call.  `updates` are the calls of the progress
      callback, some of which may arrive after the tool has returned. */
  datatype CallScript = CallScript(
    preparation: Preparation, updates: seq<string>, execution: Outcome, override: Option<Override>,
    abortedAtStart: bool, abortedAfter: bool)

  function Declarations(tools: seq<AgentTool>): seq<Tool> {
    seq(|tools|, i requires 0 <= i < |tools| => tools[i].tool)
  }

  function FindTool(tools: seq<AgentTool>, name: string): Option<AgentTool> {
    if tools == [] then None
    else if tools[0].tool.name == name then Some(tools[0])
    else FindTool(tools[1..], name)
  }

  predicate IsSequential(tools: seq<AgentTool>, call: ToolCall) {
    var tool := FindTool(tools, call.name);
    tool.Some? && tool.value.sequential
  }

  function ErrorOutcome(text: string): Outcome {
    Outcome(text, true, None)
  }

  /** `prepareToolCall`: an unknown tool fails at once, everything else is up to validation and hooks. */
  function PreparationOf(tools: seq<AgentTool>, call: ToolCall, script: CallScript): Preparation {
    if FindTool(tools, call.name).None? then Immediate(ErrorOutcome("Tool " + call.name + " not found"))
    else script.preparation
  }

  function Or<T>(a: Option<T>, b: T): T {
    if a.Some? then a.value else b
  }

  /** `finalizeExecutedToolCall`: the `afterToolCall` hook overrides field by field. */
  function Finalized(execution: Outcome, override: Option<Override>): Outcome {
    match override
    case None => execution
    case Some(o) => Outcome(Or(o.content, execution.content), Or(o.isError, execution.isError),
                            if o.terminate.Some? then o.terminate else execution.terminate)
  }

  /** The outcome of one call; it depends on nothing but the call and its own environment. */
  function OutcomeOf(tools: seq<AgentTool>, call: ToolCall, script: CallScript, deferred: bool): Outcome {
    match PreparationOf(tools, call, script)
    case Immediate(outcome) => outcome
    case Prepared =>
      if deferred && script.abortedAtStart then ErrorOutcome("Operation aborted")
      else Finalized(script.execution, script.override)
  }

  /** How many calls of a batch are started: all, or up to the one after which abort is seen. */
  function BatchLength(scripts: nat -> CallScript, from: nat, count: nat): (n: nat)
    requires from <= count
    ensures n <= count && (from < count ==> from < n)
    ensures (forall k | from <= k < count :: !scripts(k).abortedAfter) ==> n == count
    ensures forall k | from <= k < n - 1 :: !scripts(k).abortedAfter
    ensures from <= n && (n < count ==> from < n && scripts(n - 1).abortedAfter)
    decreases count - from
  {
    if from == count then count
    else if scripts(from).abortedAfter then from + 1
    else BatchLength(scripts, from + 1, count)
  }

  function OutcomesUpTo(tools: seq<AgentTool>, calls: seq<ToolCall>, scripts: nat -> CallScript, deferred: bool, n: nat)
    : (outcomes: seq<Outcome>)
    requires n <= |calls|
    ensures |outcomes| == n
    ensures forall k | 0 <= k < n :: outcomes[k] == OutcomeOf(tools, calls[k], scripts(k), deferred)
  {
    if n == 0 then []
    else OutcomesUpTo(tools, calls, scripts, deferred, n - 1)
         + [OutcomeOf(tools, calls[n - 1], scripts(n - 1), deferred)]
  }

  /** The outcomes of a batch in source order. */
  function Outcomes(tools: seq<AgentTool>, calls: seq<ToolCall>, scripts: nat -> CallScript, deferred: bool): seq<Outcome> {
    OutcomesUpTo(tools, calls, scripts, deferred, BatchLength(scripts, 0, |calls|))
  }

  function ResultMessage(call: ToolCall, outcome: Outcome): Message {
    ToolResult(call, outcome.content, outcome.isError)
  }

  function ResultMessages(calls: seq<ToolCall>, outcomes: seq<Outcome>): (messages: seq<Message>)
    requires |outcomes| <= |calls|
    ensures |messages| == |outcomes|
    ensures forall k | 0 <= k < |messages| :: messages[k] == ResultMessage(calls[k], outcomes[k])
  {
    if outcomes == [] then []
    else
      var n := |outcomes| - 1;
      ResultMessages(calls, outcomes[..n]) + [ResultMessage(calls[n], outcomes[n])]
  }

  predicate ShouldTerminate(outcomes: seq<Outcome>) {
    |outcomes| > 0 && forall o | o in outcomes :: o.terminate == Some(true)
  }

  const TRUNCATED := "Tool call was not executed: the response hit the output token limit"

  /** Where one deferred call stands; `sent` counts the progress callbacks that have arrived. */
  datatype Task = NotStarted | Executing(sent: nat) | Finalizing(sent: nat) | Done(outcome: Outcome)

  function Running(tasks: seq<Task>, calls: seq<ToolCall>): map<nat, ToolCall>
    requires |tasks| <= |calls|
  {
    map k: nat | k < |tasks| && !tasks[k].Done? :: calls[k]
  }

  function Finished(tasks: seq<Task>, calls: seq<ToolCall>): map<nat, Message>
    requires |tasks| <= |calls|
  {
    map k: nat | k < |tasks| && tasks[k].Done? :: ResultMessage(calls[k], tasks[k].outcome)
  }

  /** The finished slots after `task` takes its place at `k`. */
  function FinishedWith(finished: map<nat, Message>, k: nat, call: ToolCall, task: Task): map<nat, Message> {
    if task.Done? then finished[k := ResultMessage(call, task.outcome)] else finished
  }

  lemma PushTask(tasks: seq<Task>, calls: seq<ToolCall>, task: Task)
    requires |tasks| < |calls|
    ensures var k, more := |tasks|, tasks + [task];
      && k !in Running(tasks, calls) && k !in Finished(tasks, calls)
      && Running(tasks, calls)[k := calls[k]] - {k} == Running(tasks, calls)
      && Running(more, calls) == (if task.Done? then Running(tasks, calls) else Running(tasks, calls)[k := calls[k]])
      && Finished(more, calls) == FinishedWith(Finished(tasks, calls), k, calls[k], task)
  {
    var k, more := |tasks|, tasks + [task];
    assert Running(tasks, calls)[k := calls[k]] - {k} == Running(tasks, calls);
    assert Running(more, calls) == (if task.Done? then Running(tasks, calls) else Running(tasks, calls)[k := calls[k]]);
    assert Finished(more, calls) == FinishedWith(Finished(tasks, calls), k, calls[k], task);
  }

  lemma SetTask(tasks: seq<Task>, calls: seq<ToolCall>, k: nat, task: Task)
    requires k < |tasks| <= |calls| && !tasks[k].Done?
    ensures var next := tasks[k := task];
      && k in Running(tasks, calls) && Running(tasks, calls)[k] == calls[k]
      && Running(next, calls) == (if task.Done? then Running(tasks, calls) - {k} else Running(tasks, calls))
      && Finished(next, calls) == FinishedWith(Finished(tasks, calls), k, calls[k], task)
  {
    var next := tasks[k := task];
    assert Running(next, calls) == (if task.Done? then Running(tasks, calls) - {k} else Running(tasks, calls));
    assert Finished(next, calls) == FinishedWith(Finished(tasks, calls), k, calls[k], task);
  }

  lemma ResultMessagesSnoc(calls: seq<ToolCall>, outcomes: seq<Outcome>, outcome: Outcome)
    requires |outcomes| < |calls|
    ensures ResultMessages(calls, outcomes + [outcome])
            == ResultMessages(calls, outcomes) + [ResultMessage(calls[|outcomes|], outcome)]
  {
    assert (outcomes + [outcome])[..|outcomes|] == outcomes;
  }

  /** When all tasks are done, the slots hold the results. */
  lemma AllFinished(tasks: seq<Task>, calls: seq<ToolCall>, outcomes: seq<Outcome>)
    requires |tasks| == |outcomes| <= |calls|
    requires forall k | 0 <= k < |tasks| :: tasks[k] == Done(outcomes[k])
    ensures Running(tasks, calls) == map[] && Finished(tasks, calls) == BySlot(ResultMessages(calls, outcomes))
  {
    assert Running(tasks, calls) == map[];
    assert Finished(tasks, calls) == BySlot(ResultMessages(calls, outcomes));
  }

  lemma PushSlot(results: seq<Message>, result: Message)
    ensures BySlot(results)[|results| := result] == BySlot(results + [result])
    ensures |results| !in BySlot(results)
  {
  }

  function Remaining(task: Task, updates: nat): nat {
    match task
    case NotStarted => updates + 3
    case Executing(sent) => (if sent <= updates then updates - sent else 0) + 2
    case Finalizing(sent) => (if sent <= updates then updates - sent else 0) + 1
    case Done(_) => 0
  }

  function TotalRemaining(tasks: seq<Task>, scripts: nat -> CallScript): nat {
    if tasks == [] then 0
    else TotalRemaining(tasks[..|tasks| - 1], scripts)
         + Remaining(tasks[|tasks| - 1], |scripts(|tasks| - 1).updates|)
  }

  lemma {:induction false} StepsRemaining(tasks: seq<Task>, scripts: nat -> CallScript, k: nat, task: Task)
    requires k < |tasks|
    requires Remaining(task, |scripts(k).updates|) < Remaining(tasks[k], |scripts(k).updates|)
    ensures TotalRemaining(tasks[k := task], scripts) < TotalRemaining(tasks, scripts)
  {
    var n := |tasks| - 1;
    if k < n {
      StepsRemaining(tasks[..n], scripts, k, task);
      assert tasks[k := task][..n] == tasks[..n][k := task];
    } else {
      assert tasks[k := task][..n] == tasks[..n];
    }
  }

  // ---------- The environment of one turn ----------

  /** What was enqueued at both queues since the last poll of either, and the modes they have by then. */
  datatype Arrivals = Arrivals(
    steering: seq<Message>, steeringMode: QueueMode, followUps: seq<Message>, followUpMode: QueueMode)

  /** What both queues hold. */
  datatype Queues = Queues(steering: seq<Message>, followUps: seq<Message>)

  const EMPTY := Queues([], [])

  /** What a poll returns, and what it leaves. */
  datatype Polled = Polled(messages: seq<Message>, left: Queues)

  const NO_ARRIVALS := Arrivals([], OneAtATime, [], OneAtATime)

  function Received(q: Queues, a: Arrivals): Queues {
    Queues(q.steering + a.steering, q.followUps + a.followUps)
  }

  /** A poll of the steering queue, after what has arrived. */
  function SteeringPoll(q: Queues, a: Arrivals): (p: Polled)
    ensures q.steering + a.steering == p.messages + p.left.steering && p.left.followUps == q.followUps + a.followUps
    ensures a.steeringMode == OneAtATime ==> |p.messages| <= 1
    ensures p.messages == [] ==> p.left.steering == []
  {
    var all := Received(q, a);
    var front := Front(all.steering, a.steeringMode);
    Polled(front, all.(steering := all.steering[|front|..]))
  }

  /** A poll of the follow-up queue, after what has arrived. */
  function FollowUpPoll(q: Queues, a: Arrivals): (p: Polled)
    ensures q.followUps + a.followUps == p.messages + p.left.followUps && p.left.steering == q.steering + a.steering
    ensures a.followUpMode == OneAtATime ==> |p.messages| <= 1
    ensures p.messages == [] ==> p.left.followUps == []
  {
    var all := Received(q, a);
    var front := Front(all.followUps, a.followUpMode);
    Polled(front, all.(followUps := all.followUps[|front|..]))
  }

  /** The poll before a run, which is skipped when its prompts came from the steering queue. */
  function FirstPoll(q: Queues, a: Arrivals, skip: bool): Polled {
    if skip then Polled([], Received(q, a)) else SteeringPoll(q, a)
  }

  datatype StreamEvent = Started(partial: Message) | Partial(partial: Message) | Terminal

  datatype Decision = Undecided | EndRun | ContinueRun

  datatype NextTurn = NextTurn(context: Option<Context>, messages: seq<Message>)

  type AssistantMessage = m: Message | m.Assistant? witness Assistant("", [], Stop)

  datatype TurnScript = TurnScript(
    nextTurn: Option<NextTurn>,       // prepareNextTurn
    afterPrepare: Arrivals,
    request: Option<Context>,         // prepareRequest
    stream: seq<StreamEvent>,
    response: AssistantMessage,
    calls: nat -> CallScript,
    decision: Decision,               // finishTurn
    afterTurn: Arrivals,
    beforeStop: Arrivals)             // before the follow-up queue is polled

  /** The stream contract: at most one `start`. */
  ghost predicate StartsOnce(stream: seq<StreamEvent>) {
    forall i, j | 0 <= i < j < |stream| && stream[i].Started? :: !stream[j].Started?
  }

  /** What one completed turn took in, produced and led to.  `opening` is the context at its start, and
      `found` what the queues held then; `asked` says that follow-ups were asked for after it, and `left` is
      what the last poll after it left. */
  datatype TurnRecord = TurnRecord(
    opening: Context, prepared: seq<Message>, steering: seq<Message>, followUps: seq<Message>, inputs: seq<Message>,
    response: AssistantMessage, results: seq<Message>, moreToolCalls: bool, decision: Decision,
    found: Queues, nextSteering: seq<Message>, asked: bool, nextFollowUps: seq<Message>, left: Queues)

  predicate HardStop(m: AssistantMessage) {
    m.stopReason == StopReason.Error || m.stopReason == Aborted
  }

  /** Results answer a prefix of the tool calls in source order: none after a hard stop, at least one
      otherwise, and all of them when abort is never signalled or the response was truncated. */
  ghost predicate ResultsOk(response: AssistantMessage, results: seq<Message>, calls: nat -> CallScript) {
    var toolCalls := response.toolCalls;
    && |results| <= |toolCalls|
    && (forall k | 0 <= k < |results| :: results[k].ToolResult? && results[k].call == toolCalls[k])
    && (HardStop(response) ==> results == [])
    && (!HardStop(response) && toolCalls != [] ==> results != [])
    && (!HardStop(response)
        && (response.stopReason == Length || forall k | 0 <= k < |toolCalls| :: !calls(k).abortedAfter) ==>
          |results| == |toolCalls|)
  }

  /** The outcomes of a response's tool calls: none after a hard stop, errors when the response was
      truncated, and otherwise those of the batch, which one sequential tool makes sequential. */
  function BatchOutcomes(tools: seq<AgentTool>, sequential: bool, response: AssistantMessage, scripts: nat -> CallScript)
    : (outcomes: seq<Outcome>)
    ensures |outcomes| <= |response.toolCalls|
  {
    var calls := response.toolCalls;
    if HardStop(response) then []
    else if response.stopReason == Length then seq(|calls|, _ => ErrorOutcome(TRUNCATED))
    else Outcomes(tools, calls, scripts, Deferred(tools, sequential, calls))
  }

  predicate Deferred(tools: seq<AgentTool>, sequential: bool, calls: seq<ToolCall>) {
    !(sequential || exists c | c in calls :: IsSequential(tools, c))
  }

  function BatchResults(tools: seq<AgentTool>, sequential: bool, response: AssistantMessage, scripts: nat -> CallScript)
    : seq<Message>
  {
    ResultMessages(response.toolCalls, BatchOutcomes(tools, sequential, response, scripts))
  }

  /** Whether a batch asks for another request. */
  predicate BatchGoesOn(tools: seq<AgentTool>, sequential: bool, response: AssistantMessage, scripts: nat -> CallScript) {
    var outcomes := BatchOutcomes(tools, sequential, response, scripts);
    outcomes != [] && !ShouldTerminate(outcomes)
  }

  lemma NoBatch(tools: seq<AgentTool>, sequential: bool, response: AssistantMessage, scripts: nat -> CallScript)
    requires HardStop(response) || response.toolCalls == []
    ensures BatchResults(tools, sequential, response, scripts) == []
    ensures !BatchGoesOn(tools, sequential, response, scripts)
  {
  }

  lemma TruncatedGoesOn(tools: seq<AgentTool>, sequential: bool, response: AssistantMessage, scripts: nat -> CallScript)
    requires response.stopReason == Length && response.toolCalls != []
    ensures BatchGoesOn(tools, sequential, response, scripts)
  {
    var outcomes := BatchOutcomes(tools, sequential, response, scripts);
    assert outcomes[0] in outcomes && outcomes[0] == ErrorOutcome(TRUNCATED);
  }

  lemma BatchIsNotEmpty(tools: seq<AgentTool>, sequential: bool, response: AssistantMessage, scripts: nat -> CallScript)
    requires !HardStop(response) && response.stopReason != Length && response.toolCalls != []
    ensures var outcomes := Outcomes(tools, response.toolCalls, scripts, Deferred(tools, sequential, response.toolCalls));
            && BatchResults(tools, sequential, response, scripts) == ResultMessages(response.toolCalls, outcomes)
            && BatchGoesOn(tools, sequential, response, scripts) == !ShouldTerminate(outcomes)
  {
  }

  /** Whether tool calls call for another request, told from the calls alone: one of those that were run does
      not ask to terminate.  Only `Some(true)` asks for it. */
  lemma BatchGoesOnExactly(tools: seq<AgentTool>, sequential: bool, response: AssistantMessage, scripts: nat -> CallScript)
    requires response.stopReason != StopReason.Error && response.stopReason != Aborted
    requires response.stopReason != Length
    ensures var calls := response.toolCalls;
            var deferred := !sequential && forall k | 0 <= k < |calls| :: !IsSequential(tools, calls[k]);
            BatchGoesOn(tools, sequential, response, scripts) <==>
              exists k | 0 <= k < BatchLength(scripts, 0, |calls|) ::
                OutcomeOf(tools, calls[k], scripts(k), deferred).terminate != Some(true)
  {
    hide Outcomes, OutcomeOf, BatchLength, Deferred, IsSequential;
    var calls := response.toolCalls;
    var deferred := Deferred(tools, sequential, calls);
    DeferredMeans(tools, sequential, calls);
    var outcomes := Outcomes(tools, calls, scripts, deferred);
    assert outcomes == BatchOutcomes(tools, sequential, response, scripts);
    OutcomesAre(tools, calls, scripts, deferred);
    if k :| 0 <= k < |outcomes| && outcomes[k].terminate != Some(true) {
      assert outcomes[k] in outcomes;
    }
    if o :| o in outcomes && o.terminate != Some(true) {
      var k :| 0 <= k < |outcomes| && outcomes[k] == o;
    }
  }

  lemma DeferredMeans(tools: seq<AgentTool>, sequential: bool, calls: seq<ToolCall>)
    ensures Deferred(tools, sequential, calls) <==>
              !sequential && forall k | 0 <= k < |calls| :: !IsSequential(tools, calls[k])
  {
    hide IsSequential;
  }

  lemma OutcomesAre(tools: seq<AgentTool>, calls: seq<ToolCall>, scripts: nat -> CallScript, deferred: bool)
    ensures var outcomes := Outcomes(tools, calls, scripts, deferred);
            && |outcomes| == BatchLength(scripts, 0, |calls|)
            && forall k | 0 <= k < |outcomes| :: outcomes[k] == OutcomeOf(tools, calls[k], scripts(k), deferred)
  {
  }

  /** A failed, aborted or empty response never calls for another request on account of its tool calls, and a
      truncated one with tool calls always does. */
  lemma NoBatchGoesOn(tools: seq<AgentTool>, sequential: bool, response: AssistantMessage, scripts: nat -> CallScript)
    ensures response.stopReason == StopReason.Error || response.stopReason == Aborted || response.toolCalls == [] ==>
              !BatchGoesOn(tools, sequential, response, scripts) && BatchResults(tools, sequential, response, scripts) == []
    ensures response.stopReason == Length && response.toolCalls != [] ==> BatchGoesOn(tools, sequential, response, scripts)
  {
    if response.stopReason == Length && response.toolCalls != [] {
      TruncatedGoesOn(tools, sequential, response, scripts);
    }
  }

  /** What a call comes to: an unknown tool and an abort before execution are errors, and a hook's override
      wins field by field over what the tool returned. */
  lemma OutcomeMeans(tools: seq<AgentTool>, call: ToolCall, script: CallScript, deferred: bool)
    ensures var o := OutcomeOf(tools, call, script, deferred);
            var known := exists k | 0 <= k < |tools| :: tools[k].tool.name == call.name;
            var execution := script.execution;
            && (!known ==> o.isError && o.terminate == None)
            && (known && script.preparation.Immediate? ==> o == script.preparation.outcome)
            && (known && script.preparation.Prepared? && deferred && script.abortedAtStart ==> o.isError && o.terminate == None)
            && (known && script.preparation.Prepared? && !(deferred && script.abortedAtStart) ==>
                  match script.override
                  case None => o == execution
                  case Some(changes) =>
                    && (changes.content.Some? ==> o.content == changes.content.value)
                    && (changes.isError.Some? ==> o.isError == changes.isError.value)
                    && (changes.terminate.Some? ==> o.terminate == changes.terminate)
                    && (changes.content.None? ==> o.content == execution.content)
                    && (changes.isError.None? ==> o.isError == execution.isError)
                    && (changes.terminate.None? ==> o.terminate == execution.terminate))
  {
    FindToolFinds(tools, call.name);
  }

  /** The position of the tool with a name: the first one that has it. */
  ghost predicate IsAt(tools: seq<AgentTool>, j: int, name: string) {
    0 <= j < |tools| && tools[j].tool.name == name && forall i | 0 <= i < j :: tools[i].tool.name != name
  }

  /** A batch is run call by call if it is configured so or one of its tools asks for it, and else in parallel. */
  lemma ParallelExactly(tools: seq<AgentTool>, sequential: bool, calls: seq<ToolCall>)
    ensures Deferred(tools, sequential, calls) <==>
              !sequential && forall k, j | 0 <= k < |calls| && IsAt(tools, j, calls[k].name) :: !tools[j].sequential
  {
    forall k | 0 <= k < |calls|
      ensures IsSequential(tools, calls[k]) <==> exists j :: IsAt(tools, j, calls[k].name) && tools[j].sequential
    {
      FindToolFinds(tools, calls[k].name);
      var found := FindTool(tools, calls[k].name);
      forall i, j | IsAt(tools, i, calls[k].name) && IsAt(tools, j, calls[k].name) ensures i == j {
      }
      if found.Some? {
        var j :| 0 <= j < |tools| && tools[j] == found.value && tools[j].tool.name == calls[k].name &&
          forall i | 0 <= i < j :: tools[i].tool.name != calls[k].name;
        assert IsAt(tools, j, calls[k].name);
      }
    }
    if !sequential && !Deferred(tools, sequential, calls) {
      var c :| c in calls && IsSequential(tools, c);
      var k :| 0 <= k < |calls| && calls[k] == c;
    }
    if k, j :| 0 <= k < |calls| && IsAt(tools, j, calls[k].name) && tools[j].sequential {
      assert IsSequential(tools, calls[k]) && calls[k] in calls;
    }
  }

  /** The tool with a name is the first one that has it. */
  lemma {:induction false} FindToolFinds(tools: seq<AgentTool>, name: string)
    ensures FindTool(tools, name).Some? <==> exists k | 0 <= k < |tools| :: tools[k].tool.name == name
    ensures FindTool(tools, name).Some? ==>
              exists k | 0 <= k < |tools| ::
                tools[k] == FindTool(tools, name).value && tools[k].tool.name == name &&
                forall j | 0 <= j < k :: tools[j].tool.name != name
  {
    if tools != [] && tools[0].tool.name != name {
      FindToolFinds(tools[1..], name);
      if k :| 0 <= k < |tools| && tools[k].tool.name == name {
        assert tools[1..][k - 1] == tools[k];
      }
      if FindTool(tools, name).Some? {
        var k :| 0 <= k < |tools[1..]| && tools[1..][k] == FindTool(tools, name).value && tools[1..][k].tool.name == name
          && forall j | 0 <= j < k :: tools[1..][j].tool.name != name;
        assert tools[k + 1] == tools[1..][k];
        forall j | 0 <= j < k + 1 ensures tools[j].tool.name != name {
          assert j > 0 ==> tools[j] == tools[1..][j - 1];
        }
      }
    }
  }

  /** A batch answers a non-empty prefix of its calls, and all of them when abort is never seen. */
  lemma BatchResultsOk(tools: seq<AgentTool>, sequential: bool, response: AssistantMessage, scripts: nat -> CallScript)
    ensures ResultsOk(response, BatchResults(tools, sequential, response, scripts), scripts)
  {
  }

  // ---------- The context from turn to turn ----------

  function PreparedMessages(script: TurnScript): seq<Message> {
    if script.nextTurn.Some? then script.nextTurn.value.messages else []
  }

  /** The context of a turn after the first, which `prepareNextTurn` may replace. */
  function Opening(context: Context, script: TurnScript): Context {
    if script.nextTurn.Some? && script.nextTurn.value.context.Some? then script.nextTurn.value.context.value else context
  }

  /** The context of the request, which `prepareRequest` may replace. */
  function AtRequest(r: TurnRecord, script: TurnScript): Context {
    if script.request.Some? then script.request.value else r.opening.(messages := r.opening.messages + r.inputs)
  }

  /** The context that a turn leaves. */
  function Closing(r: TurnRecord, script: TurnScript): Context {
    var context := AtRequest(r, script);
    context.(messages := context.messages + [r.response] + r.results)
  }

  function RequestTools(opening: Context, script: TurnScript): seq<AgentTool> {
    if script.request.Some? then script.request.value.tools else opening.tools
  }

  /** The record of a turn: its inputs are what was prepared and queued with the tool changes declared on
      them, and its results and whether tool calls call for another turn are those of the specified batch. */
  function RecordFor(opening: Context, prepared: seq<Message>, steering: seq<Message>, followUps: seq<Message>,
                     script: TurnScript, sequential: bool): TurnRecord
  {
    var tools := RequestTools(opening, script);
    TurnRecord(opening, prepared, steering, followUps,
               Declare(opening.messages, Declarations(opening.tools), prepared + (steering + followUps)),
               script.response, BatchResults(tools, sequential, script.response, script.calls),
               BatchGoesOn(tools, sequential, script.response, script.calls), script.decision,
               EMPTY, [], false, [], EMPTY)
  }

  /** What a completed turn owes to its hooks and its environment; what it found and what is polled after it
      is open. */
  ghost predicate RecordOk(r: TurnRecord, script: TurnScript, sequential: bool) {
    r == RecordFor(r.opening, r.prepared, r.steering, r.followUps, script, sequential)
         .(found := r.found, nextSteering := r.nextSteering, asked := r.asked, nextFollowUps := r.nextFollowUps,
           left := r.left)
  }

  /** Every turn keeps all its messages, declares the tools of its context, and answers its calls. */
  lemma RecordMeans(opening: Context, prepared: seq<Message>, steering: seq<Message>, followUps: seq<Message>,
                    script: TurnScript, sequential: bool)
    ensures var r := RecordFor(opening, prepared, steering, followUps, script, sequential);
            && RecordOk(r, script, sequential)
            && SameModuloTools(prepared + (steering + followUps), r.inputs)
            && ResultsOk(r.response, r.results, script.calls)
            && (DistinctNames(Declarations(opening.tools)) ==>
                  Declared(CurrentTools(opening.messages + r.inputs)) == Declared(Declarations(opening.tools)))
            && (r.response.stopReason == Length ==> forall m | m in r.results :: m.isError && m.content == TRUNCATED)
            && (r.moreToolCalls ==> r.results != [])
  {
    hide BatchOutcomes, Declare;
    var pending := prepared + (steering + followUps);
    var tools := RequestTools(opening, script);
    DeclareKeepsMessages(opening.messages, Declarations(opening.tools), pending);
    BatchResultsOk(tools, sequential, script.response, script.calls);
    if DistinctNames(Declarations(opening.tools)) {
      DistinctToolsAreAlwaysDeclared(opening.messages, Declarations(opening.tools), pending);
    }
    if script.response.stopReason == Length {
      TruncatedResults(tools, sequential, script.response, script.calls);
    }
  }

  /** A truncated response executes nothing. */
  lemma TruncatedResults(tools: seq<AgentTool>, sequential: bool, response: AssistantMessage, scripts: nat -> CallScript)
    requires response.stopReason == Length
    ensures var results := BatchResults(tools, sequential, response, scripts);
            |results| == |response.toolCalls| &&
            forall k | 0 <= k < |results| :: results[k] == ToolResult(response.toolCalls[k], TRUNCATED, true)
  {
  }

  predicate StoppedEarly(r: TurnRecord) {
    HardStop(r.response) || r.decision == EndRun
  }

  /** What a turn takes up: what was pending, or else, after the first turn, what one more poll gives. */
  predicate TakesPending(r: TurnRecord, before: Queues, steering: seq<Message>, followUps: seq<Message>,
                         script: TurnScript, first: bool)
  {
    && r.followUps == followUps
    && if first || steering + followUps != [] then r.steering == steering && r.found == before
       else Polled(r.steering, r.found) == SteeringPoll(before, script.afterPrepare)
  }

  /** What is polled after a turn: nothing when the run ends with it, and otherwise the steering queue, and
      perhaps the follow-up queue. */
  predicate PollsOk(r: TurnRecord, script: TurnScript) {
    if StoppedEarly(r) then !r.asked && r.nextSteering == r.nextFollowUps == [] && r.left == r.found
    else
      var polled := SteeringPoll(r.found, script.afterTurn);
      && r.nextSteering == polled.messages
      && if r.asked then Polled(r.nextFollowUps, r.left) == FollowUpPoll(polled.left, script.beforeStop)
         else r.nextFollowUps == [] && r.left == polled.left
  }

  /** The run goes on after a turn, and follow-ups have been asked for just when nothing else keeps it going. */
  predicate GoesOn(r: TurnRecord) {
    && !StoppedEarly(r) && (r.asked <==> !r.moreToolCalls && r.nextSteering == [])
    && (r.moreToolCalls || r.nextSteering != [] || r.nextFollowUps != [] || r.decision == ContinueRun)
  }

  /** The run ends with a turn: it is stopped early, or nothing was left to do when follow-ups were asked for. */
  predicate Ends(r: TurnRecord) {
    StoppedEarly(r) ||
    (r.asked && !r.moreToolCalls && r.nextSteering == r.nextFollowUps == [] && r.decision != ContinueRun)
  }

  function Produced(turns: seq<TurnRecord>): seq<Message> {
    if turns == [] then []
    else Produced(turns[..|turns| - 1]) + turns[|turns| - 1].inputs + [turns[|turns| - 1].response]
         + turns[|turns| - 1].results
  }

  function Steering(turns: seq<TurnRecord>): seq<Message> {
    if turns == [] then [] else Steering(turns[..|turns| - 1]) + turns[|turns| - 1].steering
  }

  function FollowUps(turns: seq<TurnRecord>): seq<Message> {
    if turns == [] then [] else FollowUps(turns[..|turns| - 1]) + turns[|turns| - 1].followUps
  }

  /** How a turn follows another: it takes up what that one left pending, and its context is the one that turn
      left, unless a hook replaced it. */
  ghost predicate Follows(r: TurnRecord, script: TurnScript, next: TurnRecord, nextScript: TurnScript) {
    && GoesOn(r) && TakesPending(next, r.left, r.nextSteering, r.nextFollowUps, nextScript, false)
    && next.prepared == PreparedMessages(nextScript) && next.opening == Opening(Closing(r, script), nextScript)
  }

  /** Every turn keeps its record and follows the one before it. */
  ghost predicate HistoryOk(turns: seq<TurnRecord>, scripts: seq<TurnScript>, sequential: bool) {
    && |turns| <= |scripts|
    && (forall i | 0 <= i < |turns| :: RecordOk(turns[i], scripts[i], sequential) && PollsOk(turns[i], scripts[i]))
    && (forall i | 0 <= i < |turns| - 1 :: Follows(turns[i], scripts[i], turns[i + 1], scripts[i + 1]))
  }

  /** A run starts with the given context, nothing prepared, and what its first poll gave. */
  ghost predicate StartsWith(turns: seq<TurnRecord>, opening: Context, first: Polled) {
    turns != [] ==>
      && turns[0].opening == opening && turns[0].prepared == turns[0].followUps == []
      && turns[0].steering == first.messages && turns[0].found == first.left
  }

  ghost predicate OneSteering(turns: seq<TurnRecord>) {
    forall r | r in turns :: |r.steering| <= 1
  }

  ghost predicate OneFollowUp(turns: seq<TurnRecord>) {
    forall r | r in turns :: |r.followUps| <= 1
  }

  lemma PushRecord(turns: seq<TurnRecord>, scripts: seq<TurnScript>, sequential: bool, r: TurnRecord)
    requires HistoryOk(turns, scripts, sequential) && |turns| < |scripts|
    requires RecordOk(r, scripts[|turns|], sequential) && PollsOk(r, scripts[|turns|])
    requires turns != [] ==> Follows(turns[|turns| - 1], scripts[|turns| - 1], r, scripts[|turns|])
    ensures HistoryOk(turns + [r], scripts, sequential)
  {
    hide RecordOk, PollsOk, Follows;
    var all := turns + [r];
    forall i | 0 <= i < |all| ensures RecordOk(all[i], scripts[i], sequential) && PollsOk(all[i], scripts[i]) {
      assert i < |turns| ==> all[i] == turns[i];
    }
    forall i | 0 <= i < |all| - 1 ensures Follows(all[i], scripts[i], all[i + 1], scripts[i + 1]) {
      assert all[i] == turns[i];
      assert i + 1 < |turns| ==> all[i + 1] == turns[i + 1];
    }
  }

  lemma PrefixOk(turns: seq<TurnRecord>, scripts: seq<TurnScript>, sequential: bool)
    requires HistoryOk(turns, scripts, sequential) && turns != []
    ensures HistoryOk(turns[..|turns| - 1], scripts, sequential)
  {
    hide RecordOk, PollsOk, Follows;
  }

  /** Why a turn was followed by another: its response is neither failed nor aborted, its hook did not end the
      run, and tool calls, steering, follow-ups or the hook call for more.  Follow-ups are asked for only when
      tool calls and steering do not. */
  lemma TurnsFollowWhenDue(turns: seq<TurnRecord>, scripts: seq<TurnScript>, sequential: bool, i: nat)
    requires HistoryOk(turns, scripts, sequential) && i + 1 < |turns|
    ensures var r, script := turns[i], scripts[i];
            var tools := RequestTools(r.opening, script);
            var calls := BatchGoesOn(tools, sequential, script.response, script.calls);
            && script.response.stopReason != StopReason.Error && script.response.stopReason != Aborted
            && script.decision != EndRun
            && (calls || r.nextSteering != [] || r.nextFollowUps != [] || script.decision == ContinueRun)
            && (r.asked <==> !calls && r.nextSteering == [])
            && (!r.asked ==> r.nextFollowUps == [])
  {
    assert Follows(turns[i], scripts[i], turns[i + 1], scripts[i + 1]);
    assert RecordOk(turns[i], scripts[i], sequential) && PollsOk(turns[i], scripts[i]);
    hide HistoryOk, TakesPending, BatchGoesOn, Closing, Opening;
  }

  /** What hooks give is taken up: a turn after the first starts with the context and messages of
      `prepareNextTurn`, or else with the context that the turn before it left; the request is made in the
      context of `prepareRequest`, or else in that of the turn and its inputs, and what follows is appended to it. */
  lemma HooksAreTakenUp(turns: seq<TurnRecord>, scripts: seq<TurnScript>, sequential: bool, i: nat)
    requires HistoryOk(turns, scripts, sequential) && i < |turns|
    ensures var r, script := turns[i], scripts[i];
            var made := if script.request.Some? then script.request.value else Context(r.opening.messages + r.inputs, r.opening.tools);
            && ContextAfter(turns[..i + 1], scripts, r.opening) == Context(made.messages + [script.response] + r.results, made.tools)
            && r.response == script.response
            && r.results == BatchResults(made.tools, sequential, script.response, script.calls)
            && (i > 0 ==>
                  && r.prepared == (if script.nextTurn.Some? then script.nextTurn.value.messages else [])
                  && r.opening == if script.nextTurn.Some? && script.nextTurn.value.context.Some? then script.nextTurn.value.context.value
                                  else ContextAfter(turns[..i], scripts, r.opening))
  {
    assert RecordOk(turns[i], scripts[i], sequential);
    assert i > 0 ==> Follows(turns[i - 1], scripts[i - 1], turns[i], scripts[i]);
    hide HistoryOk, TakesPending, BatchResults, BatchGoesOn, Declare, GoesOn, PollsOk, StoppedEarly;
    assert turns[..i + 1][i] == turns[i] && (i > 0 ==> turns[..i][i - 1] == turns[i - 1]);
  }

  /** Why a run ended with a turn: one of these, and none of the reasons to go on. */
  lemma RunsEndWhenDone(r: TurnRecord, script: TurnScript, sequential: bool)
    requires RecordOk(r, script, sequential) && PollsOk(r, script) && Ends(r)
    ensures || script.response.stopReason == StopReason.Error || script.response.stopReason == Aborted
            || script.decision == EndRun
            || (&& r.asked && !BatchGoesOn(RequestTools(r.opening, script), sequential, script.response, script.calls)
                && r.nextSteering == r.nextFollowUps == [] && script.decision == Undecided)
    ensures !GoesOn(r)
  {
    hide BatchGoesOn;
  }

  lemma PushTotals(turns: seq<TurnRecord>, r: TurnRecord, start: seq<Message>)
    ensures start + Produced(turns + [r]) == start + Produced(turns) + r.inputs + [r.response] + r.results
  {
    assert (turns + [r])[..|turns|] == turns;
  }

  // ---------- What whole runs do with their queues and their context ----------

  /** What is pending after these turns. */
  function Pending(turns: seq<TurnRecord>, first: Polled): Queues {
    if turns == [] then Queues(first.messages, [])
    else Queues(turns[|turns| - 1].nextSteering, turns[|turns| - 1].nextFollowUps)
  }

  /** What the last poll left in the queues. */
  function LeftIn(turns: seq<TurnRecord>, first: Polled): Queues {
    if turns == [] then first.left else turns[|turns| - 1].left
  }

  /** The context that the turns so far leave. */
  function ContextAfter(turns: seq<TurnRecord>, scripts: seq<TurnScript>, opening: Context): Context
    requires |turns| <= |scripts|
  {
    if turns == [] then opening else Closing(turns[|turns| - 1], scripts[|turns| - 1])
  }

  predicate PolledAgain(turns: seq<TurnRecord>, k: nat)
    requires k < |turns|
  {
    k > 0 && turns[k - 1].nextSteering + turns[k - 1].nextFollowUps == []
  }

  function If(c: bool, a: Arrivals): seq<Arrivals> {
    if c then [a] else []
  }

  /** What arrived before the polls of a run, poll by poll. */
  function PollsMade(initial: Arrivals, turns: seq<TurnRecord>, scripts: seq<TurnScript>): seq<Arrivals>
    requires |turns| <= |scripts|
  {
    if turns == [] then [initial]
    else
      var n := |turns| - 1;
      PollsMade(initial, turns[..n], scripts) + If(PolledAgain(turns, n), scripts[n].afterPrepare)
      + If(!StoppedEarly(turns[n]), scripts[n].afterTurn) + If(turns[n].asked, scripts[n].beforeStop)
  }

  function Steered(polls: seq<Arrivals>): seq<Message> {
    if polls == [] then [] else Steered(polls[..|polls| - 1]) + polls[|polls| - 1].steering
  }

  function FollowedUp(polls: seq<Arrivals>): seq<Message> {
    if polls == [] then [] else FollowedUp(polls[..|polls| - 1]) + polls[|polls| - 1].followUps
  }

  lemma {:induction false} SteeredConcat(a: seq<Arrivals>, b: seq<Arrivals>)
    ensures Steered(a + b) == Steered(a) + Steered(b)
  {
    if b == [] {
      assert a + b == a;
    } else {
      assert (a + b)[..|a + b| - 1] == a + b[..|b| - 1];
      SteeredConcat(a, b[..|b| - 1]);
    }
  }

  lemma {:induction false} FollowedUpConcat(a: seq<Arrivals>, b: seq<Arrivals>)
    ensures FollowedUp(a + b) == FollowedUp(a) + FollowedUp(b)
  {
    if b == [] {
      assert a + b == a;
    } else {
      assert (a + b)[..|a + b| - 1] == a + b[..|b| - 1];
      FollowedUpConcat(a, b[..|b| - 1]);
    }
  }

  lemma PollsConcat(a: seq<Arrivals>, b: seq<Arrivals>)
    ensures Steered(a + b) == Steered(a) + Steered(b) && FollowedUp(a + b) == FollowedUp(a) + FollowedUp(b)
  {
    SteeredConcat(a, b);
    FollowedUpConcat(a, b);
  }

  lemma OnePoll(c: bool, a: Arrivals)
    ensures Steered(If(c, a)) == (if c then a.steering else []) && FollowedUp(If(c, a)) == if c then a.followUps else []
  {
    assert c ==> If(c, a)[..0] == [];
  }

  /** What two queues held and got is what was taken from them, what is pending, and what is left, in order. */
  ghost predicate AddsUp(q: Queues, polls: seq<Arrivals>, taken: Queues, pending: Queues, left: Queues) {
    && q.steering + Steered(polls) == taken.steering + pending.steering + left.steering
    && q.followUps + FollowedUp(polls) == taken.followUps + pending.followUps + left.followUps
  }

  function Taken(turns: seq<TurnRecord>): Queues {
    Queues(Steering(turns), FollowUps(turns))
  }

  /** Nothing that was in a queue or came into it is lost, duplicated or reordered: turns took it up, it is
      pending, or it is still queued. */
  ghost predicate Balanced(q: Queues, initial: Arrivals, turns: seq<TurnRecord>, scripts: seq<TurnScript>, first: Polled)
    requires |turns| <= |scripts|
  {
    AddsUp(q, PollsMade(initial, turns, scripts), Taken(turns), Pending(turns, first), LeftIn(turns, first))
  }

  /** What arrived while a turn was prepared, and after it. */
  function ArrivedIn(r: TurnRecord, script: TurnScript, again: bool): seq<Arrivals> {
    If(again, script.afterPrepare) + If(!StoppedEarly(r), script.afterTurn) + If(r.asked, script.beforeStop)
  }

  lemma ArrivedInSums(r: TurnRecord, script: TurnScript, again: bool)
    ensures var arrived := ArrivedIn(r, script, again);
            && Steered(arrived) == (if again then script.afterPrepare.steering else [])
                                   + (if StoppedEarly(r) then [] else script.afterTurn.steering)
                                   + (if r.asked then script.beforeStop.steering else [])
            && FollowedUp(arrived) == (if again then script.afterPrepare.followUps else [])
                                      + (if StoppedEarly(r) then [] else script.afterTurn.followUps)
                                      + (if r.asked then script.beforeStop.followUps else [])
  {
    hide Steered, FollowedUp;
    var a, b, c := If(again, script.afterPrepare), If(!StoppedEarly(r), script.afterTurn), If(r.asked, script.beforeStop);
    PollsConcat(a + b, c);
    PollsConcat(a, b);
    OnePoll(again, script.afterPrepare);
    OnePoll(!StoppedEarly(r), script.afterTurn);
    OnePoll(r.asked, script.beforeStop);
  }

  /** One queue through a turn: what arrives before it, after it, and before follow-ups are asked for. */
  lemma Flow(have: seq<Message>, a: seq<Message>, taken: seq<Message>, found: seq<Message>, b: seq<Message>,
             next: seq<Message>, kept: seq<Message>, c: seq<Message>, last: seq<Message>, left: seq<Message>)
    requires have + a == taken + found && found + b == next + kept && kept + c == last + left
    ensures have + (a + b + c) == taken + next + last + left
  {
    calc {
      have + (a + b + c);
    ==
      (have + a) + b + c;
    ==
      taken + (found + b) + c;
    ==
      taken + next + (kept + c);
    }
  }

  /** One turn takes up what was pending, or polls again, and leaves the rest pending or queued. */
  lemma TurnConserves(r: TurnRecord, before: Queues, pending: Queues, script: TurnScript, first: bool)
    requires TakesPending(r, before, pending.steering, pending.followUps, script, first) && PollsOk(r, script)
    ensures var arrived := ArrivedIn(r, script, !first && pending.steering + pending.followUps == []);
            && pending.steering + before.steering + Steered(arrived) == r.steering + r.nextSteering + r.left.steering
            && pending.followUps + before.followUps + FollowedUp(arrived) == r.followUps + r.nextFollowUps + r.left.followUps
  {
    var again := !first && pending.steering + pending.followUps == [];
    ArrivedInSums(r, script, again);
    hide ArrivedIn, Steered, FollowedUp;
    var a := if again then script.afterPrepare else NO_ARRIVALS;
    var b := if StoppedEarly(r) then NO_ARRIVALS else script.afterTurn;
    var c := if r.asked then script.beforeStop else NO_ARRIVALS;
    var kept := if StoppedEarly(r) then r.found else SteeringPoll(r.found, b).left;
    TakenUp(r, before, pending, script, first);
    PolledAfter(r, script);
    hide TakesPending, PollsOk, SteeringPoll;
    Flow(pending.steering + before.steering, a.steering, r.steering, r.found.steering, b.steering,
         r.nextSteering, kept.steering, c.steering, [], r.left.steering);
    Flow(pending.followUps + before.followUps, a.followUps, r.followUps, r.found.followUps, b.followUps,
         [], kept.followUps, c.followUps, r.nextFollowUps, r.left.followUps);
    assert r.steering + r.nextSteering + [] == r.steering + r.nextSteering && r.followUps + [] == r.followUps;
  }

  lemma TakenUp(r: TurnRecord, before: Queues, pending: Queues, script: TurnScript, first: bool)
    requires TakesPending(r, before, pending.steering, pending.followUps, script, first)
    ensures var again := !first && pending.steering + pending.followUps == [];
            var a := if again then script.afterPrepare else NO_ARRIVALS;
            && pending.steering + before.steering + a.steering == r.steering + r.found.steering
            && pending.followUps + before.followUps + a.followUps == r.followUps + r.found.followUps
  {
    if !first && pending.steering + pending.followUps == [] {
      assert pending.steering == pending.followUps == [] && [] + before.steering == before.steering;
      assert [] + before.followUps == before.followUps;
      assert [] + (before.followUps + script.afterPrepare.followUps) == before.followUps + script.afterPrepare.followUps;
    }
  }

  lemma PolledAfter(r: TurnRecord, script: TurnScript)
    requires PollsOk(r, script)
    ensures var b := if StoppedEarly(r) then NO_ARRIVALS else script.afterTurn;
            var c := if r.asked then script.beforeStop else NO_ARRIVALS;
            var kept := if StoppedEarly(r) then r.found else SteeringPoll(r.found, b).left;
            && r.found.steering + b.steering == r.nextSteering + kept.steering
            && r.found.followUps + b.followUps == [] + kept.followUps
            && kept.steering + c.steering == [] + r.left.steering
            && kept.followUps + c.followUps == r.nextFollowUps + r.left.followUps
  {
  }

  /** The last turn of a run, seen from the turns before it. */
  lemma LastTurn(turns: seq<TurnRecord>, scripts: seq<TurnScript>, sequential: bool, opening: Context, first: Polled)
    requires HistoryOk(turns, scripts, sequential) && StartsWith(turns, opening, first) && turns != []
    ensures var n := |turns| - 1;
            var pending := Pending(turns[..n], first);
            && HistoryOk(turns[..n], scripts, sequential) && StartsWith(turns[..n], opening, first)
            && RecordOk(turns[n], scripts[n], sequential) && PollsOk(turns[n], scripts[n])
            && TakesPending(turns[n], LeftIn(turns[..n], first), pending.steering, pending.followUps, scripts[n], n == 0)
            && (PolledAgain(turns, n) <==> n > 0 && pending.steering + pending.followUps == [])
            && turns[n].opening == (if n == 0 then opening
                                    else Opening(ContextAfter(turns[..n], scripts, opening), scripts[n]))
  {
    var n := |turns| - 1;
    assert n > 0 ==> Follows(turns[n - 1], scripts[n - 1], turns[n], scripts[n]);
    PrefixOk(turns, scripts, sequential);
    assert RecordOk(turns[n], scripts[n], sequential) && PollsOk(turns[n], scripts[n]);
    hide HistoryOk, RecordOk, PollsOk, Closing, Opening;
  }

  lemma TurnBalances(turns: seq<TurnRecord>, scripts: seq<TurnScript>, sequential: bool, q: Queues, initial: Arrivals,
                     first: Polled, opening: Context)
    requires HistoryOk(turns, scripts, sequential) && StartsWith(turns, opening, first) && turns != []
    requires Balanced(q, initial, turns[..|turns| - 1], scripts, first)
    ensures Balanced(q, initial, turns, scripts, first)
  {
    var n := |turns| - 1;
    assert n < |scripts|;
    hide HistoryOk, RecordOk, PollsOk, TakesPending, StartsWith, ArrivedIn, AddsUp, Closing, Opening;
    LastTurn(turns, scripts, sequential, opening, first);
    var before, pending := LeftIn(turns[..n], first), Pending(turns[..n], first);
    var arrived := ArrivedIn(turns[n], scripts[n], PolledAgain(turns, n));
    PollsStep(initial, turns, scripts);
    hide PollsMade;
    StillAddsUp(q, PollsMade(initial, turns[..n], scripts), Taken(turns[..n]), before, pending, scripts[n], turns[n], n == 0);
  }

  /** The accounts of a queue go on adding up with one more turn. */
  lemma StillAddsUp(q: Queues, polls: seq<Arrivals>, taken: Queues, before: Queues, pending: Queues,
                    script: TurnScript, r: TurnRecord, first: bool)
    requires AddsUp(q, polls, taken, pending, before)
    requires TakesPending(r, before, pending.steering, pending.followUps, script, first) && PollsOk(r, script)
    ensures AddsUp(q, polls + ArrivedIn(r, script, !first && pending.steering + pending.followUps == []),
                   Queues(taken.steering + r.steering, taken.followUps + r.followUps),
                   Queues(r.nextSteering, r.nextFollowUps), r.left)
  {
    var arrived := ArrivedIn(r, script, !first && pending.steering + pending.followUps == []);
    TurnConserves(r, before, pending, script, first);
    PollsConcat(polls, arrived);
    hide TakesPending, PollsOk, ArrivedIn, Steered, FollowedUp;
    Chain(q.steering, Steered(polls), Steered(arrived), taken.steering, pending.steering, before.steering,
          r.steering, r.nextSteering, r.left.steering);
    Chain(q.followUps, FollowedUp(polls), FollowedUp(arrived), taken.followUps, pending.followUps, before.followUps,
          r.followUps, r.nextFollowUps, r.left.followUps);
  }

  lemma Chain(q: seq<Message>, a: seq<Message>, b: seq<Message>, taken: seq<Message>, pending: seq<Message>,
              before: seq<Message>, more: seq<Message>, next: seq<Message>, left: seq<Message>)
    requires q + a == taken + pending + before && pending + before + b == more + next + left
    ensures q + (a + b) == taken + more + next + left
  {
    calc {
      q + (a + b);
    ==
      (q + a) + b;
    ==
      taken + (pending + before + b);
    }
  }

  lemma PollsStep(initial: Arrivals, turns: seq<TurnRecord>, scripts: seq<TurnScript>)
    requires 0 < |turns| <= |scripts|
    ensures var n := |turns| - 1;
            PollsMade(initial, turns, scripts) ==
            PollsMade(initial, turns[..n], scripts) + ArrivedIn(turns[n], scripts[n], PolledAgain(turns, n))
  {
  }

  lemma {:induction false} QueuesAreConserved(
      turns: seq<TurnRecord>, scripts: seq<TurnScript>, sequential: bool, q: Queues, initial: Arrivals, skip: bool,
      opening: Context)
    requires HistoryOk(turns, scripts, sequential) && StartsWith(turns, opening, FirstPoll(q, initial, skip))
    ensures Balanced(q, initial, turns, scripts, FirstPoll(q, initial, skip))
  {
    var first := FirstPoll(q, initial, skip);
    if turns == [] {
      OnePoll(true, initial);
      assert [initial] == If(true, initial);
    } else {
      hide HistoryOk, RecordOk, PollsOk, TakesPending, StartsWith, Balanced, FirstPoll, Opening, Closing;
      LastTurn(turns, scripts, sequential, opening, first);
      QueuesAreConserved(turns[..|turns| - 1], scripts, sequential, q, initial, skip, opening);
      TurnBalances(turns, scripts, sequential, q, initial, first, opening);
    }
  }

  /** Every steering poll that a run made found one-at-a-time mode. */
  ghost predicate SingleSteering(initial: Arrivals, turns: seq<TurnRecord>, scripts: seq<TurnScript>)
    requires |turns| <= |scripts|
  {
    initial.steeringMode == OneAtATime &&
    forall k | 0 <= k < |turns| ::
      && (PolledAgain(turns, k) ==> scripts[k].afterPrepare.steeringMode == OneAtATime)
      && (!StoppedEarly(turns[k]) ==> scripts[k].afterTurn.steeringMode == OneAtATime)
  }

  /** Every follow-up poll that a run made found one-at-a-time mode. */
  ghost predicate SingleFollowUps(turns: seq<TurnRecord>, scripts: seq<TurnScript>)
    requires |turns| <= |scripts|
  {
    forall k | 0 <= k < |turns| && turns[k].asked :: scripts[k].beforeStop.followUpMode == OneAtATime
  }

  /** A queue that is always polled one at a time gives each turn at most one message, whatever the mode of
      the other. */
  lemma OneMessagePerTurn(turns: seq<TurnRecord>, scripts: seq<TurnScript>, sequential: bool, q: Queues,
                          initial: Arrivals, skip: bool, opening: Context)
    requires HistoryOk(turns, scripts, sequential) && StartsWith(turns, opening, FirstPoll(q, initial, skip))
    ensures SingleSteering(initial, turns, scripts) ==> OneSteering(turns)
    ensures SingleFollowUps(turns, scripts) ==> OneFollowUp(turns)
  {
    hide RecordOk, Closing, Opening, SteeringPoll, FollowUpPoll;
    forall k | 0 <= k < |turns|
      ensures SingleSteering(initial, turns, scripts) ==> |turns[k].steering| <= 1
      ensures SingleFollowUps(turns, scripts) ==> |turns[k].followUps| <= 1
    {
      if k > 0 {
        assert Follows(turns[k - 1], scripts[k - 1], turns[k], scripts[k]);
        assert PollsOk(turns[k - 1], scripts[k - 1]);
      }
    }
  }

  /** The first turn takes no steering of its own when its prompts were steering, and otherwise what is queued
      by then, or the first of it. */
  lemma FirstTurnTakes(turns: seq<TurnRecord>, q: Queues, initial: Arrivals, skip: bool, opening: Context)
    requires StartsWith(turns, opening, FirstPoll(q, initial, skip)) && turns != []
    ensures var queued := q.steering + initial.steering;
            turns[0].steering == if skip || queued == [] then [] else if initial.steeringMode == All then queued else [queued[0]]
    ensures turns[0].followUps == []
  {
  }

  /** What is still queued when a run that was not stopped early ends has arrived since the last poll of its
      queue. */
  lemma NothingIsLeft(r: TurnRecord, script: TurnScript)
    requires PollsOk(r, script) && Ends(r) && !StoppedEarly(r)
    ensures r.left == Queues(script.beforeStop.steering, [])
  {
    var polled := SteeringPoll(r.found, script.afterTurn);
    assert [] + script.beforeStop.steering == script.beforeStop.steering;
  }

  predicate KeepsContext(script: TurnScript) {
    script.nextTurn.Some? ==> script.nextTurn.value.context.None?
  }

  /** No hook replaced the context of a run. */
  ghost predicate ContextKept(turns: seq<TurnRecord>, scripts: seq<TurnScript>)
    requires |turns| <= |scripts|
  {
    forall k | 0 <= k < |turns| :: scripts[k].request.None? && (k > 0 ==> KeepsContext(scripts[k]))
  }

  /** Then the loop's own context is the one it started from, followed by what the turns produced. */
  lemma {:induction false} ContextFollows(
      turns: seq<TurnRecord>, scripts: seq<TurnScript>, sequential: bool, opening: Context, first: Polled)
    requires HistoryOk(turns, scripts, sequential) && StartsWith(turns, opening, first) && ContextKept(turns, scripts)
    ensures ContextAfter(turns, scripts, opening) == opening.(messages := opening.messages + Produced(turns))
  {
    if turns == [] {
      assert opening.messages + [] == opening.messages;
    } else {
      assert |turns| <= |scripts|;
      hide HistoryOk, RecordOk, PollsOk, TakesPending, StartsWith;
      LastTurn(turns, scripts, sequential, opening, first);
      ContextFollows(turns[..|turns| - 1], scripts, sequential, opening, first);
      var n := |turns| - 1;
      Extends(opening.messages, Produced(turns[..n]), turns[n]);
      assert KeepsContext(scripts[n]) || n == 0;
      hide ContextKept, Produced;
    }
  }

  lemma Extends(start: seq<Message>, before: seq<Message>, r: TurnRecord)
    ensures start + before + r.inputs + [r.response] + r.results == start + (before + r.inputs + [r.response] + r.results)
  {
  }

  // ---------- What the loop keeps ----------

  /** What a run started from: the base transcript, the messages of its prompt, the context they are part
      of, and what its first poll gave. */
  datatype Origin = Origin(base: seq<Message>, start: seq<Message>, opening: Context, first: Polled)

  /** The loop between two turns, with `pending` told apart by the queue it came from. */
  datatype LoopView = LoopView(
    turns: seq<TurnRecord>, newMessages: seq<Message>, context: Context, queues: Queues, pending: Queues)

  /** The view is what the history makes of the origin. */
  ghost predicate Accounted(v: LoopView, o: Origin, scripts: seq<TurnScript>, sequential: bool) {
    && HistoryOk(v.turns, scripts, sequential) && StartsWith(v.turns, o.opening, o.first)
    && v.newMessages == o.start + Produced(v.turns) && v.context == ContextAfter(v.turns, scripts, o.opening)
    && v.queues == LeftIn(v.turns, o.first) && v.pending == Pending(v.turns, o.first)
  }

  predicate MayTakeTurn(turns: seq<TurnRecord>) {
    turns != [] ==> GoesOn(turns[|turns| - 1])
  }

  /** How the record of the next turn arises from what is pending and the context between two turns. */
  ghost predicate TakesUp(v: LoopView, script: TurnScript, r: TurnRecord) {
    && TakesPending(r, v.queues, v.pending.steering, v.pending.followUps, script, v.turns == [])
    && r.opening == (if v.turns == [] then v.context else Opening(v.context, script))
    && r.prepared == (if v.turns == [] then [] else PreparedMessages(script))
  }

  /** One turn, with what is polled after it. */
  lemma TurnAccounted(v: LoopView, w: LoopView, o: Origin, scripts: seq<TurnScript>, sequential: bool, r: TurnRecord)
    requires Accounted(v, o, scripts, sequential) && MayTakeTurn(v.turns) && |v.turns| < |scripts|
    requires var script := scripts[|v.turns|];
             && RecordOk(r, script, sequential) && PollsOk(r, script) && TakesUp(v, script, r)
             && w.context == Closing(r, script)
    requires w.turns == v.turns + [r] && w.queues == r.left && w.pending == Queues(r.nextSteering, r.nextFollowUps)
    requires w.newMessages == v.newMessages + r.inputs + [r.response] + r.results
    ensures Accounted(w, o, scripts, sequential)
  {
    hide RecordOk, PollsOk, Produced, Closing, Opening, SteeringPoll;
    PushRecord(v.turns, scripts, sequential, r);
    PushTotals(v.turns, r, o.start);
  }

  lemma RecordKeepsPolls(r: TurnRecord, script: TurnScript, sequential: bool, polled: TurnRecord)
    requires RecordOk(r, script, sequential)
    requires polled == r.(nextSteering := polled.nextSteering, asked := polled.asked,
                          nextFollowUps := polled.nextFollowUps, left := polled.left)
    ensures RecordOk(polled, script, sequential) && Closing(polled, script) == Closing(r, script)
  {
  }

  /** The record of a turn once follow-ups have been asked for. */
  function Asked(r: TurnRecord, script: TurnScript): TurnRecord {
    var polled := FollowUpPoll(r.left, script.beforeStop);
    r.(asked := true, nextFollowUps := polled.messages, left := polled.left)
  }

  /** The follow-up poll amends the last record and makes what it returned pending. */
  lemma FollowUpsAccounted(v: LoopView, w: LoopView, o: Origin, scripts: seq<TurnScript>, sequential: bool, r: TurnRecord)
    requires Accounted(v, o, scripts, sequential) && v.turns != []
    requires var n := |v.turns| - 1;
             && !v.turns[n].asked && !StoppedEarly(v.turns[n])
             && r == Asked(v.turns[n], scripts[n]) && w.turns == v.turns[n := r]
    requires w.newMessages == v.newMessages && w.context == v.context
    requires w.queues == r.left && w.pending == Queues(r.nextSteering, r.nextFollowUps)
    ensures Accounted(w, o, scripts, sequential)
  {
    hide HistoryOk, RecordOk, PollsOk, Produced, Closing, FollowUpPoll, StoppedEarly, StartsWith, Asked;
    var n := |v.turns| - 1;
    LastRecord(v.turns, scripts, sequential);
    AmendStarts(v.turns, scripts[n], o.opening, o.first);
    AmendHistory(v.turns, scripts, sequential);
    AmendProduced(v.turns, scripts[n]);
    AskedOk(v.turns[n], scripts[n], sequential);
  }

  lemma LastRecord(turns: seq<TurnRecord>, scripts: seq<TurnScript>, sequential: bool)
    requires HistoryOk(turns, scripts, sequential) && turns != []
    ensures |turns| <= |scripts|
    ensures var n := |turns| - 1; RecordOk(turns[n], scripts[n], sequential) && PollsOk(turns[n], scripts[n])
  {
  }

  lemma AskedOk(r: TurnRecord, script: TurnScript, sequential: bool)
    requires RecordOk(r, script, sequential) && PollsOk(r, script) && !r.asked && !StoppedEarly(r)
    ensures RecordOk(Asked(r, script), script, sequential) && PollsOk(Asked(r, script), script)
    ensures Closing(Asked(r, script), script) == Closing(r, script)
  {
    RecordKeepsPolls(r, script, sequential, Asked(r, script));
  }

  lemma AmendHistory(turns: seq<TurnRecord>, scripts: seq<TurnScript>, sequential: bool)
    requires turns != [] && HistoryOk(turns, scripts, sequential)
    requires !turns[|turns| - 1].asked && !StoppedEarly(turns[|turns| - 1])
    ensures HistoryOk(turns[|turns| - 1 := Asked(turns[|turns| - 1], scripts[|turns| - 1])], scripts, sequential)
  {
    var n := |turns| - 1;
    var r := Asked(turns[n], scripts[n]);
    AskedOk(turns[n], scripts[n], sequential);
    if n > 0 {
      FollowsAsked(turns[n - 1], scripts[n - 1], turns[n], scripts[n]);
    }
    hide Asked, StoppedEarly;
    AmendLast(turns, scripts, sequential, r);
  }

  lemma AmendLast(turns: seq<TurnRecord>, scripts: seq<TurnScript>, sequential: bool, r: TurnRecord)
    requires turns != [] && HistoryOk(turns, scripts, sequential)
    requires var n := |turns| - 1;
             && RecordOk(r, scripts[n], sequential) && PollsOk(r, scripts[n])
             && (n > 0 ==> Follows(turns[n - 1], scripts[n - 1], r, scripts[n]))
    ensures HistoryOk(turns[|turns| - 1 := r], scripts, sequential)
  {
    hide RecordOk, PollsOk, Follows;
  }

  lemma AmendStarts(turns: seq<TurnRecord>, script: TurnScript, opening: Context, first: Polled)
    requires turns != [] && StartsWith(turns, opening, first)
    ensures StartsWith(turns[|turns| - 1 := Asked(turns[|turns| - 1], script)], opening, first)
  {
  }

  lemma AmendProduced(turns: seq<TurnRecord>, script: TurnScript)
    requires turns != []
    ensures Produced(turns[|turns| - 1 := Asked(turns[|turns| - 1], script)]) == Produced(turns)
  {
    var n := |turns| - 1;
    assert turns[n := Asked(turns[n], script)][..n] == turns[..n];
  }

  lemma FollowsAsked(r: TurnRecord, script: TurnScript, next: TurnRecord, nextScript: TurnScript)
    requires Follows(r, script, next, nextScript)
    ensures Follows(r, script, Asked(next, nextScript), nextScript)
  {
  }
}
