/** The events of an agent run: what a legal trace is, and how `Agent.processEvents` reduces one.

  `Observe` is an independent reference: an automaton that accepts exactly the legal traces.
  `Reduce` is the second component that builds its own transcript from the same events.
 */
module AgentEvents {
  import opened Wrappers
  import opened Transcript

  /** `slot` is the position of a tool call in its assistant message: the identity of the call
      object, which stays unambiguous when a message repeats a call id. */
  datatype Event =
    | AgentStart
    | TurnStart
    | MessageStart(message: Message)
    | MessageUpdate(message: Message)
    | MessageEnd(message: Message)
    | ToolStart(slot: nat, call: ToolCall)
    | ToolUpdate(slot: nat, call: ToolCall, partial: string)
    | ToolEnd(slot: nat, call: ToolCall, content: string, isError: bool)
    | TurnEnd(message: Message, toolResults: seq<Message>)
    | AgentEnd(messages: seq<Message>)

  // ---------- The reference automaton ----------

  datatype Phase =
    | Before
    | Between
    | InTurn(open: bool, running: map<nat, ToolCall>, finished: map<nat, Message>, turn: seq<Message>)
    | After
    | Illegal

  /** `running` has the call that was started at a slot and `finished` the result that ended it; `ended`
      collects the messages of all `message_end` events. */
  datatype Monitor = Monitor(phase: Phase, ended: seq<Message>)

  predicate EndsWith(s: seq<Message>, tail: seq<Message>) {
    |tail| <= |s| && s[|s| - |tail|..] == tail
  }

  /** The results of a turn by the slots of their calls. */
  function BySlot(results: seq<Message>): map<nat, Message> {
    map k: nat | k < |results| :: results[k]
  }

  function Follow(m: Monitor, e: Event): Monitor {
    match (m.phase, e)
    case (Before, AgentStart) => m.(phase := Between)
    case (Between, TurnStart) => m.(phase := InTurn(false, map[], map[], []))
    case (Between, AgentEnd(messages)) => m.(phase := if messages == m.ended then After else Illegal)
    case (InTurn(open, running, finished, turn), MessageStart(_)) =>
      m.(phase := if !open && running == map[] then m.phase.(open := true) else Illegal)
    case (InTurn(open, running, finished, turn), MessageUpdate(_)) =>
      m.(phase := if open then m.phase else Illegal)
    case (InTurn(open, running, finished, turn), MessageEnd(message)) =>
      if open then Monitor(InTurn(false, running, finished, turn + [message]), m.ended + [message])
      else m.(phase := Illegal)
    case (InTurn(open, running, finished, turn), ToolStart(slot, call)) =>
      m.(phase := if !open && slot !in running && slot !in finished
                  then InTurn(open, running[slot := call], finished, turn) else Illegal)
    case (InTurn(open, running, finished, turn), ToolUpdate(slot, call, _)) =>
      m.(phase := if Lookup(running, slot) == Some(call) then m.phase else Illegal)
    case (InTurn(open, running, finished, turn), ToolEnd(slot, call, content, isError)) =>
      m.(phase := if Lookup(running, slot) == Some(call)
                  then InTurn(open, running - {slot}, finished[slot := ToolResult(call, content, isError)], turn) else Illegal)
    case (InTurn(open, running, finished, turn), TurnEnd(message, results)) =>
      m.(phase := if !open && running == map[] && finished == BySlot(results) && EndsWith(turn, [message] + results)
                  then Between else Illegal)
    case _ => m.(phase := Illegal)
  }

  function Observe(events: seq<Event>): Monitor {
    if events == [] then Monitor(Before, [])
    else Follow(Observe(events[..|events| - 1]), events[|events| - 1])
  }

  predicate Accepted(events: seq<Event>) {
    Observe(events).phase.After?
  }

  /** How many calls run at once. */
  function Together(events: seq<Event>): nat {
    var phase := Observe(events).phase;
    if phase.InTurn? then |phase.running| else 0
  }

  /** From some point on, at most one call runs at a time. */
  ghost predicate OneByOne(events: seq<Event>, from: nat) {
    forall n | from <= n <= |events| :: Together(events[..n]) <= 1
  }

  lemma OneByOneGrows(events: seq<Event>, from: nat, e: Event)
    requires OneByOne(events, from) && Together(events + [e]) <= 1
    ensures OneByOne(events + [e], from)
  {
    var more := events + [e];
    forall n | from <= n <= |more| ensures Together(more[..n]) <= 1 {
      assert n <= |events| ==> more[..n] == events[..n];
      assert n == |more| ==> more[..n] == more;
    }
  }

  // ---------- Agent.processEvents ----------

  datatype AgentState = AgentState(messages: seq<Message>, streaming: Option<Message>, pendingToolCalls: set<string>)

  function Reduce(s: AgentState, e: Event): AgentState {
    match e
    case MessageStart(message) => s.(streaming := Some(message))
    case MessageUpdate(message) => s.(streaming := Some(message))
    case MessageEnd(message) => s.(streaming := None, messages := s.messages + [message])
    case ToolStart(_, call) => s.(pendingToolCalls := s.pendingToolCalls + {call.id})
    case ToolEnd(_, call, _, _) => s.(pendingToolCalls := s.pendingToolCalls - {call.id})
    case AgentEnd(_) => s.(streaming := None)
    case _ => s
  }

  function ReduceAll(s: AgentState, events: seq<Event>): AgentState {
    if events == [] then s
    else Reduce(ReduceAll(s, events[..|events| - 1]), events[|events| - 1])
  }

  // ---------- What acceptance means ----------

  lemma {:induction false} LegalPrefix(events: seq<Event>, n: nat)
    requires n <= |events| && !Observe(events).phase.Illegal?
    ensures !Observe(events[..n]).phase.Illegal?
  {
    if n < |events| {
      LegalPrefix(events[..|events| - 1], n);
      assert events[..|events| - 1][..n] == events[..n];
    } else {
      assert events[..n] == events;
    }
  }

  /** Whatever the trace, the reduced transcript is the snapshot followed by the ended messages. */
  lemma {:induction false} ReducedTranscript(s: AgentState, events: seq<Event>)
    requires !Observe(events).phase.Illegal?
    ensures ReduceAll(s, events).messages == s.messages + Observe(events).ended
  {
    if events != [] {
      var n := |events| - 1;
      LegalPrefix(events, n);
      ReducedTranscript(s, events[..n]);
    }
  }

  function RunningIds(p: Phase): set<string> {
    if p.InTurn? then set k | k in p.running :: p.running[k].id else {}
  }

  /** The pending set never holds the id of a call that is not running, even when ids repeat. */
  lemma {:induction false} PendingCallsAreRunning(s: AgentState, events: seq<Event>)
    requires !Observe(events).phase.Illegal? && s.pendingToolCalls == {}
    ensures ReduceAll(s, events).pendingToolCalls <= RunningIds(Observe(events).phase)
  {
    if events != [] {
      var n := |events| - 1;
      LegalPrefix(events, n);
      PendingCallsAreRunning(s, events[..n]);
      var before, after := Observe(events[..n]).phase, Observe(events).phase;
      if events[n].ToolStart? || events[n].ToolEnd? {
        var slot, id := events[n].slot, events[n].call.id;
        assert events[n].ToolStart? ==> after.running[slot].id == id;
        forall x | x in RunningIds(before) && x != id ensures x in RunningIds(after) {
          var k :| k in before.running && before.running[k].id == x;
          assert after.running[k].id == x;
        }
      }
    }
  }

  /** Event `i` started a call with this id, and none with this id has ended since. */
  ghost predicate StartedLast(events: seq<Event>, i: int, id: string) {
    && 0 <= i < |events| && events[i].ToolStart? && events[i].call.id == id
    && forall k | i < k < |events| && events[k].ToolEnd? :: events[k].call.id != id
  }

  lemma StartedLastGrows(events: seq<Event>, i: int, id: string)
    requires 0 <= i < |events|
    ensures var n := |events| - 1;
            StartedLast(events, i, id) <==>
              if i == n then events[n].ToolStart? && events[n].call.id == id
              else StartedLast(events[..n], i, id) && !(events[n].ToolEnd? && events[n].call.id == id)
  {
    var n := |events| - 1;
    assert forall k | i < k < n :: events[..n][k] == events[k];
  }

  /** Whatever the trace, an id is pending exactly when a call with it was started and none has ended since. */
  lemma {:induction false} PendingExactly(s: AgentState, events: seq<Event>, id: string)
    requires id !in s.pendingToolCalls
    ensures id in ReduceAll(s, events).pendingToolCalls <==> exists i :: StartedLast(events, i, id)
  {
    if events != [] {
      var n := |events| - 1;
      PendingExactly(s, events[..n], id);
      StartedLastGrows(events, n, id);
      if i :| StartedLast(events, i, id) {
        StartedLastGrows(events, i, id);
      }
      if i :| StartedLast(events[..n], i, id) {
        StartedLastGrows(events, i, id);
      }
    }
  }

  /** Event `i` shows this message, and no event since has ended it, shown another or ended the run. */
  ghost predicate ShownLast(events: seq<Event>, i: int, message: Message) {
    && 0 <= i < |events| && (events[i] == MessageStart(message) || events[i] == MessageUpdate(message))
    && forall k | i < k < |events| ::
         !events[k].MessageStart? && !events[k].MessageUpdate? && !events[k].MessageEnd? && !events[k].AgentEnd?
  }

  lemma ShownLastGrows(events: seq<Event>, i: int, message: Message)
    requires 0 <= i < |events|
    ensures var n := |events| - 1;
            var e := events[n];
            ShownLast(events, i, message) <==>
              if i == n then e == MessageStart(message) || e == MessageUpdate(message)
              else ShownLast(events[..n], i, message) &&
                   !e.MessageStart? && !e.MessageUpdate? && !e.MessageEnd? && !e.AgentEnd?
  {
    var n := |events| - 1;
    assert forall k | i < k < n :: events[..n][k] == events[k];
  }

  /** Whatever the trace, the streaming message is the one that was started or updated last and not ended. */
  lemma {:induction false} StreamingExactly(s: AgentState, events: seq<Event>, message: Message)
    requires s.streaming == None
    ensures ReduceAll(s, events).streaming == Some(message) <==> exists i :: ShownLast(events, i, message)
  {
    if events != [] {
      var n := |events| - 1;
      StreamingExactly(s, events[..n], message);
      ShownLastGrows(events, n, message);
      if i :| ShownLast(events, i, message) {
        ShownLastGrows(events, i, message);
      }
      if i :| ShownLast(events[..n], i, message) {
        ShownLastGrows(events, i, message);
      }
    }
  }

  /** The message that is being streamed is the one whose `message_start` is still open. */
  lemma {:induction false} StreamingWhileOpen(s: AgentState, events: seq<Event>)
    requires !Observe(events).phase.Illegal? && s.streaming == None
    ensures var p := Observe(events).phase;
            ReduceAll(s, events).streaming.Some? <==> p.InTurn? && p.open
  {
    if events != [] {
      LegalPrefix(events, |events| - 1);
      StreamingWhileOpen(s, events[..|events| - 1]);
    }
  }

  function MessagesEnded(events: seq<Event>): seq<Message> {
    if events == [] then []
    else
      var rest := MessagesEnded(events[..|events| - 1]);
      if events[|events| - 1].MessageEnd? then rest + [events[|events| - 1].message] else rest
  }

  lemma {:induction false} EndedIsMessagesEnded(events: seq<Event>)
    requires !Observe(events).phase.Illegal?
    ensures Observe(events).ended == MessagesEnded(events)
  {
    if events != [] {
      LegalPrefix(events, |events| - 1);
      EndedIsMessagesEnded(events[..|events| - 1]);
    }
  }

  lemma {:induction false} AfterOnlyAtTheEnd(events: seq<Event>, i: nat)
    requires i < |events| && !Observe(events).phase.Illegal? && events[i].AgentEnd?
    ensures i == |events| - 1 && Observe(events).phase.After?
  {
    var n := |events| - 1;
    LegalPrefix(events, n);
    if i < n {
      AfterOnlyAtTheEnd(events[..n], i);
    }
  }

  lemma {:induction false} TraceStarts(events: seq<Event>)
    requires events != [] && !Observe(events).phase.Illegal?
    ensures events[0].AgentStart?
  {
    var n := |events| - 1;
    LegalPrefix(events, n);
    if n > 0 {
      TraceStarts(events[..n]);
    } else {
      assert events[..0] == [];
    }
  }

  /** The event that ends a run carries what has ended. */
  lemma LastEvent(m: Monitor, e: Event)
    requires Follow(m, e).phase.After?
    ensures e == AgentEnd(m.ended) && Follow(m, e).ended == m.ended
  {
  }

  /** An accepted trace starts with `agent_start`, has exactly one `agent_end`, which is last and
      carries the messages of all `message_end` events in order. */
  lemma AcceptedTraceEndsOnce(events: seq<Event>)
    requires Accepted(events)
    ensures |events| > 0 && events[0].AgentStart?
    ensures |events| > 0 && events[|events| - 1] == AgentEnd(MessagesEnded(events))
    ensures forall i | 0 <= i < |events| && events[i].AgentEnd? :: i == |events| - 1
  {
    var n := |events| - 1;
    assert events != [];
    TraceStarts(events);
    assert Observe(events) == Follow(Observe(events[..n]), events[n]);
    LastEvent(Observe(events[..n]), events[n]);
    hide Observe, Follow, MessagesEnded;
    EndedIsMessagesEnded(events);
    forall i | 0 <= i < |events| && events[i].AgentEnd? ensures i == n {
      AfterOnlyAtTheEnd(events, i);
    }
  }

  lemma {:induction false} EndedCallStaysEnded(events: seq<Event>, i: nat)
    requires i < |events| && events[i].ToolEnd? && !Observe(events).phase.Illegal?
    requires forall k | i < k < |events| :: !events[k].TurnStart?
    ensures var p := Observe(events).phase; p.InTurn? ==> events[i].slot in p.finished && events[i].slot !in p.running
    ensures !Observe(events).phase.Before?
  {
    var n := |events| - 1;
    LegalPrefix(events, n);
    if i < n {
      EndedCallStaysEnded(events[..n], i);
    }
  }

  lemma FinishedSlotIsClosed(m: Monitor, e: Event, slot: nat)
    requires m.phase.InTurn? ==> slot in m.phase.finished && slot !in m.phase.running
    requires e.ToolUpdate? || e.ToolEnd? || e.ToolStart?
    requires !Follow(m, e).phase.Illegal?
    ensures e.slot != slot
  {
  }

  /** No update, second start or second end of a tool call follows its end inside the turn. */
  lemma NothingAfterToolEnd(events: seq<Event>, i: nat, j: nat)
    requires i < j < |events| && !Observe(events).phase.Illegal?
    requires events[i].ToolEnd? && forall k | i < k < j :: !events[k].TurnStart?
    requires events[j].ToolUpdate? || events[j].ToolEnd? || events[j].ToolStart?
    ensures events[j].slot != events[i].slot
  {
    LegalPrefix(events, j);
    LegalPrefix(events, j + 1);
    assert events[..j + 1][..j] == events[..j];
    assert Observe(events[..j + 1]) == Follow(Observe(events[..j]), events[j]);
    hide Observe, Follow;
    EndedCallStaysEnded(events[..j], i);
    FinishedSlotIsClosed(Observe(events[..j]), events[j], events[i].slot);
  }

  /** Turns alternate: between two `turn_start` events there is a `turn_end`. */
  lemma {:induction false} TurnsAlternate(events: seq<Event>, i: nat)
    requires i < |events| && events[i].TurnStart? && !Observe(events).phase.Illegal?
    requires forall k | i < k < |events| :: !events[k].TurnEnd?
    ensures Observe(events).phase.InTurn? && forall k | i < k < |events| :: !events[k].TurnStart?
  {
    var n := |events| - 1;
    LegalPrefix(events, n);
    if i < n {
      TurnsAlternate(events[..n], i);
      assert forall k | i < k < n :: events[..n][k] == events[k];
    }
  }

  /** A call that has started and not ended keeps running, and its turn with it. */
  lemma {:induction false} StartedCallRuns(events: seq<Event>, i: nat)
    requires i < |events| && events[i].ToolStart? && !Observe(events).phase.Illegal?
    requires forall k | i < k < |events| :: !(events[k].ToolEnd? && events[k].slot == events[i].slot)
    ensures Observe(events).phase.InTurn? && events[i].slot in Observe(events).phase.running
  {
    var n := |events| - 1;
    LegalPrefix(events, n);
    if i < n {
      StartedCallRuns(events[..n], i);
      assert !(events[n].ToolEnd? && events[n].slot == events[i].slot);
    }
  }

  /** A message that has started and not ended stays open, and its turn with it. */
  lemma {:induction false} StartedMessageIsOpen(events: seq<Event>, i: nat)
    requires i < |events| && events[i].MessageStart? && !Observe(events).phase.Illegal?
    requires forall k | i < k < |events| :: !events[k].MessageEnd?
    ensures Observe(events).phase.InTurn? && Observe(events).phase.open
  {
    var n := |events| - 1;
    LegalPrefix(events, n);
    if i < n {
      StartedMessageIsOpen(events[..n], i);
      assert !events[n].MessageEnd?;
    }
  }

  /** What the monitor needs for the next event to be legal. */
  lemma LegalNext(events: seq<Event>, j: nat)
    requires j < |events| && !Observe(events).phase.Illegal?
    ensures var phase, e := Observe(events[..j]).phase, events[j];
            && !phase.Illegal?
            && (e.MessageStart? ==> phase.InTurn? && !phase.open && phase.running == map[])
            && (e.ToolStart? ==> phase.InTurn? && !phase.open)
            && (e.MessageUpdate? || e.MessageEnd? ==> phase.InTurn? && phase.open)
            && (e.ToolUpdate? ==> phase.InTurn? && e.slot in phase.running && phase.running[e.slot] == e.call)
            && (e.TurnEnd? ==> phase.InTurn? && EndsWith(phase.turn, [e.message] + e.toolResults))
  {
    LegalPrefix(events, j);
    LegalPrefix(events, j + 1);
    assert events[..j + 1][..j] == events[..j];
  }

  /** Messages come one at a time, and never together with tool calls: a message that has started has ended
      before another message or a call starts, and a call before a message does. */
  lemma OneThingAtATime(events: seq<Event>, i: nat, j: nat)
    requires i < j < |events| && !Observe(events).phase.Illegal?
    ensures events[i].MessageStart? && (events[j].MessageStart? || events[j].ToolStart?) ==>
              exists k | i < k < j :: events[k].MessageEnd?
    ensures events[i].ToolStart? && events[j].MessageStart? ==>
              exists k | i < k < j :: events[k].ToolEnd? && events[k].slot == events[i].slot
  {
    var trace := events[..j];
    LegalNext(events, j);
    hide Observe;
    if events[i].MessageStart? && forall k | i < k < j :: !events[k].MessageEnd? {
      assert forall k | i < k < |trace| :: trace[k] == events[k];
      StartedMessageIsOpen(trace, i);
    }
    if events[i].ToolStart? && forall k | i < k < j :: !(events[k].ToolEnd? && events[k].slot == events[i].slot) {
      assert forall k | i < k < |trace| :: trace[k] == events[k];
      StartedCallRuns(trace, i);
    }
  }

  /** An update or end of a message concerns one that has started and not ended, and an update of a call one
      that was started in this turn with this call. */
  lemma NothingOutOfTheBlue(events: seq<Event>, j: nat)
    requires j < |events| && !Observe(events).phase.Illegal?
    ensures events[j].MessageUpdate? || events[j].MessageEnd? ==>
              exists i | 0 <= i < j :: events[i].MessageStart? && forall k | i < k < j :: !events[k].MessageEnd?
    ensures events[j].ToolUpdate? ==> exists i :: StartsSlot(events, i, j, events[j].slot, events[j].call)
  {
    LegalNext(events, j);
    hide Observe;
    if events[j].MessageUpdate? || events[j].MessageEnd? {
      OpenWasStarted(events, j);
    }
    if events[j].ToolUpdate? {
      RunningWasStarted(events, j, events[j].slot);
    }
  }

  lemma {:induction false} OpenWasStarted(events: seq<Event>, j: nat)
    requires j <= |events| && Observe(events[..j]).phase.InTurn? && Observe(events[..j]).phase.open
    ensures exists i | 0 <= i < j :: events[i].MessageStart? && forall k | i < k < j :: !events[k].MessageEnd?
  {
    assert j > 0 && events[..j][..j - 1] == events[..j - 1];
    if !events[j - 1].MessageStart? {
      OpenWasStarted(events, j - 1);
    }
  }

  lemma {:induction false} TurnIsEnded(events: seq<Event>)
    ensures var m := Observe(events); m.phase.InTurn? ==> EndsWith(m.ended, m.phase.turn)
  {
    if events != [] {
      TurnIsEnded(events[..|events| - 1]);
    }
  }

  /** A `turn_end` carries the last messages that have ended: the response and its results, in order. */
  lemma TurnEndsCarry(events: seq<Event>, j: nat)
    requires j < |events| && !Observe(events).phase.Illegal? && events[j].TurnEnd?
    ensures var ended, carried := MessagesEnded(events[..j]), [events[j].message] + events[j].toolResults;
            |carried| <= |ended| && ended[|ended| - |carried|..] == carried
  {
    LegalNext(events, j);
    TurnIsEnded(events[..j]);
    EndedIsMessagesEnded(events[..j]);
    hide Observe, MessagesEnded;
  }

  /** A turn ends with no message open and no call running, and so does a run. */
  lemma NothingOpenBefore(events: seq<Event>, j: nat)
    requires Accepted(events) && j < |events| && (events[j].TurnEnd? || j == |events| - 1)
    ensures var phase := Observe(events[..j]).phase;
            !phase.Illegal? && (phase.InTurn? ==> !phase.open && phase.running == map[])
  {
    LegalPrefix(events, j);
    LegalPrefix(events, j + 1);
    assert events[..j + 1][..j] == events[..j];
    assert events[..|events|] == events;
  }

  /** Event `i` ended the call at a slot with this result, within the turn that is under way at `j`. */
  ghost predicate EndsSlot(events: seq<Event>, i: int, j: int, slot: nat, result: Message) {
    && 0 <= i < j <= |events| && (forall k | i < k < j :: !events[k].TurnStart?)
    && events[i].ToolEnd? && events[i].slot == slot
    && result == ToolResult(events[i].call, events[i].content, events[i].isError)
  }

  /** Event `i` started this call at a slot, within the turn that is under way at `j`. */
  ghost predicate StartsSlot(events: seq<Event>, i: int, j: int, slot: nat, call: ToolCall) {
    && 0 <= i < j <= |events| && (forall k | i < k < j :: !events[k].TurnStart?)
    && events[i] == ToolStart(slot, call)
  }

  lemma {:induction false} RunningWasStarted(events: seq<Event>, j: nat, slot: nat)
    requires j <= |events| && Observe(events[..j]).phase.InTurn? && slot in Observe(events[..j]).phase.running
    ensures exists i :: StartsSlot(events, i, j, slot, Observe(events[..j]).phase.running[slot])
  {
    assert j > 0 && events[..j][..j - 1] == events[..j - 1];
    var e, before := events[j - 1], Observe(events[..j - 1]).phase;
    if e == ToolStart(slot, Observe(events[..j]).phase.running[slot]) {
      assert StartsSlot(events, j - 1, j, slot, e.call);
    } else {
      RunningWasStarted(events, j - 1, slot);
      var i :| StartsSlot(events, i, j - 1, slot, before.running[slot]);
      assert StartsSlot(events, i, j, slot, before.running[slot]);
    }
  }

  /** Each finished slot of a turn was started and then ended in it, with the result that is kept. */
  lemma {:induction false} FinishedHasEvents(events: seq<Event>, j: nat, slot: nat)
    requires j <= |events| && Observe(events[..j]).phase.InTurn? && slot in Observe(events[..j]).phase.finished
    ensures exists h, i :: h < i && EndsSlot(events, i, j, slot, Observe(events[..j]).phase.finished[slot])
                           && StartsSlot(events, h, i, slot, events[i].call)
  {
    assert j > 0 && events[..j][..j - 1] == events[..j - 1];
    var e, before := events[j - 1], Observe(events[..j - 1]).phase;
    var result := Observe(events[..j]).phase.finished[slot];
    if e.ToolEnd? && e.slot == slot {
      RunningWasStarted(events, j - 1, slot);
      var h :| StartsSlot(events, h, j - 1, slot, e.call);
      assert EndsSlot(events, j - 1, j, slot, result);
    } else {
      FinishedHasEvents(events, j - 1, slot);
      var h, i :| h < i && EndsSlot(events, i, j - 1, slot, result) && StartsSlot(events, h, i, slot, events[i].call);
      assert EndsSlot(events, i, j, slot, result);
    }
  }

  /** The results that a `turn_end` carries are exactly the outcomes of the calls of its turn: slot `k` was
      started and then ended in this turn, with the content of result `k`. */
  lemma ResultsHaveEvents(events: seq<Event>, j: nat, k: nat)
    requires j < |events| && !Observe(events).phase.Illegal?
    requires events[j].TurnEnd? && k < |events[j].toolResults|
    ensures exists h, i :: h < i && EndsSlot(events, i, j, k, events[j].toolResults[k])
                           && StartsSlot(events, h, i, k, events[i].call)
  {
    TurnEndIsFull(events, j);
    assert k in BySlot(events[j].toolResults);
    hide Observe, EndsSlot, StartsSlot;
    FinishedHasEvents(events, j, k);
  }

  lemma OnlyFullTurnsEnd(m: Monitor, e: Event)
    requires e.TurnEnd? && !Follow(m, e).phase.Illegal?
    ensures m.phase.InTurn? && m.phase.finished == BySlot(e.toolResults)
  {
  }

  lemma TurnEndIsFull(events: seq<Event>, j: nat)
    requires j < |events| && !Observe(events).phase.Illegal? && events[j].TurnEnd?
    ensures var phase := Observe(events[..j]).phase; phase.InTurn? && phase.finished == BySlot(events[j].toolResults)
    ensures !Observe(events[..j]).phase.Illegal?
  {
    assert events[..j + 1][..j] == events[..j];
    assert Observe(events[..j + 1]) == Follow(Observe(events[..j]), events[j]);
    hide Observe, Follow;
    LegalPrefix(events, j);
    LegalPrefix(events, j + 1);
    OnlyFullTurnsEnd(Observe(events[..j]), events[j]);
  }

  /** And no other call ended in this turn. */
  lemma EndsHaveResults(events: seq<Event>, i: nat, j: nat)
    requires i < j < |events| && !Observe(events).phase.Illegal? && events[i].ToolEnd? && events[j].TurnEnd?
    requires forall k | i < k < j :: !events[k].TurnStart? && !events[k].TurnEnd?
    ensures events[i].slot < |events[j].toolResults|
  {
    TurnEndIsFull(events, j);
    hide Observe;
    EndedCallStaysEnded(events[..j], i);
    assert events[i].slot in BySlot(events[j].toolResults);
  }

  /** Every tool call and every message of an accepted trace that starts also ends, and does so before
      the next `turn_end`. */
  lemma EverythingStartedEnds(events: seq<Event>, i: nat, j: nat)
    requires Accepted(events) && i < j < |events| && (events[j].TurnEnd? || j == |events| - 1)
    ensures events[i].ToolStart? ==> exists k | i < k < j :: events[k].ToolEnd? && events[k].slot == events[i].slot
    ensures events[i].MessageStart? ==> exists k | i < k < j :: events[k].MessageEnd?
  {
    var trace := events[..j];
    NothingOpenBefore(events, j);
    hide Observe, Accepted;
    if events[i].ToolStart? && forall k | i < k < j :: !(events[k].ToolEnd? && events[k].slot == events[i].slot) {
      assert forall k | i < k < |trace| :: trace[k] == events[k];
      StartedCallRuns(trace, i);
    }
    if events[i].MessageStart? && forall k | i < k < j :: !events[k].MessageEnd? {
      assert forall k | i < k < |trace| :: trace[k] == events[k];
      StartedMessageIsOpen(trace, i);
    }
  }
}
