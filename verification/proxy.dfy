/** Streaming through a proxy: cutting text into lines, and rebuilding the message from its events. */
module ProxyStreams {
  import opened Wrappers

  // ---------- Lines ----------

  /** The complete lines of a text, without their newlines. */
  function CompleteLines(text: string): seq<string> {
    if text == "" then []
    else
      var init, last := text[..|text| - 1], text[|text| - 1];
      if last == '\n' then CompleteLines(init) + [Rest(init)] else CompleteLines(init)
  }

  /** What follows the last newline. */
  function Rest(text: string): string {
    if text == "" then ""
    else
      var init, last := text[..|text| - 1], text[|text| - 1];
      if last == '\n' then "" else Rest(init) + [last]
  }

  function Joined(lines: seq<string>): string {
    if lines == [] then "" else Joined(lines[..|lines| - 1]) + lines[|lines| - 1] + "\n"
  }

  ghost predicate OneLine(line: string) {
    '\n' !in line
  }

  /** Cutting loses nothing and cuts at every newline. */
  lemma {:induction false} LinesJoin(text: string)
    ensures Joined(CompleteLines(text)) + Rest(text) == text
    ensures OneLine(Rest(text)) && forall k | 0 <= k < |CompleteLines(text)| :: OneLine(CompleteLines(text)[k])
  {
    if text != "" {
      var init := text[..|text| - 1];
      LinesJoin(init);
      assert text == init + [text[|text| - 1]];
      if text[|text| - 1] == '\n' {
        assert CompleteLines(text)[..|CompleteLines(init)|] == CompleteLines(init);
      }
    }
  }

  /** Text may be cut off anywhere and the unfinished line carried over. */
  lemma {:induction false} LinesCarryOver(a: string, b: string)
    ensures CompleteLines(a + b) == CompleteLines(a) + CompleteLines(Rest(a) + b)
    ensures Rest(a + b) == Rest(Rest(a) + b)
    decreases |b|
  {
    if b == "" {
      LinesJoin(a);
      SingleLine(Rest(a));
      assert a + b == a && Rest(a) + b == Rest(a);
    } else {
      var init, last := b[..|b| - 1], b[|b| - 1];
      LinesCarryOver(a, init);
      assert (a + b)[..|a + b| - 1] == a + init;
      assert (Rest(a) + b)[..|Rest(a) + b| - 1] == Rest(a) + init;
    }
  }

  lemma {:induction false} SingleLine(line: string)
    requires OneLine(line)
    ensures CompleteLines(line) == [] && Rest(line) == line
  {
    if line != "" {
      SingleLine(line[..|line| - 1]);
    }
  }

  // ---------- Events ----------

  datatype Kind = Text | Thinking

  datatype ProxyEvent =
    | Start
    | BlockStart(kind: Kind, index: int)
    | BlockDelta(kind: Kind, index: int, delta: string)
    | BlockEnd(kind: Kind, index: int, signature: Option<string>)
    | ToolStart(index: int, id: string, name: string)
    | ToolDelta(index: int, delta: string)
    | ToolEnd(index: int, id: string, name: string)
    | Done(reason: string)
    | Error(reason: string, message: string)
    | Unknown

  /** A tool call keeps its unparsed arguments until its end. */
  datatype Block =
    | Prose(kind: Kind, text: string, signature: Option<string>)
    | ToolCall(id: string, name: string, partialJson: Option<string>)

  datatype Pushed =
    | Began
    | Opened(index: int)
    | Grew(index: int, delta: string)
    | Ended(index: int, content: string)
    | ToolEnded(index: int)
    | Finished(reason: string)
    | Failed(reason: string)

  predicate Terminal(p: Pushed) {
    p.Finished? || p.Failed?
  }

  /** The message that is rebuilt, and the event stream: `delivered` is what its consumer gets, and `done`
      says that the stream takes no more. */
  datatype Session = Session(
    content: map<int, Block>, stopReason: string, errorMessage: Option<string>, sawTerminal: bool,
    delivered: seq<Pushed>, done: bool)

  const NEW_SESSION: Session := Session(map[], "pending", None, false, [], false)

  /** `EventStream.push`: after a terminal event, pushes have no effect. */
  function Push(s: Session, p: Pushed): Session {
    if s.done then s else s.(delivered := s.delivered + [p], done := Terminal(p))
  }

  /** A stream is done exactly when a terminal event has been delivered, which is then the last. */
  ghost predicate DeliveredOk(s: Session) {
    && (forall k | 0 <= k < |s.delivered| && Terminal(s.delivered[k]) :: k == |s.delivered| - 1)
    && (s.done <==> s.delivered != [] && Terminal(s.delivered[|s.delivered| - 1]))
  }

  /** The reason that the consumer is told. */
  function Told(s: Session): string
    requires DeliveredOk(s) && s.done
  {
    s.delivered[|s.delivered| - 1].reason
  }

  lemma PushDelivers(s: Session, p: Pushed)
    requires DeliveredOk(s)
    ensures DeliveredOk(Push(s, p)) && s.delivered <= Push(s, p).delivered
    ensures Push(s, p).done <==> s.done || Terminal(p)
    ensures Push(s, p).done ==> Told(Push(s, p)) == if s.done then Told(s) else p.reason
  {
  }

  function SetBlock(s: Session, index: int, block: Block): Session {
    s.(content := s.content[index := block])
  }

  predicate IsProse(s: Session, index: int, kind: Kind) {
    index in s.content && s.content[index].Prose? && s.content[index].kind == kind
  }

  predicate IsToolCall(s: Session, index: int) {
    index in s.content && s.content[index].ToolCall?
  }

  /** `processProxyEvent` and the push of its result; `None` is the exception of a misplaced event. */
  function Process(s: Session, e: ProxyEvent): Option<Session> {
    match e
    case Start => Some(Push(s, Began))
    case BlockStart(kind, i) => Some(Push(SetBlock(s, i, Prose(kind, "", None)), Opened(i)))
    case BlockDelta(kind, i, delta) =>
      if !IsProse(s, i, kind) then None
      else Some(Push(SetBlock(s, i, s.content[i].(text := s.content[i].text + delta)), Grew(i, delta)))
    case BlockEnd(kind, i, signature) =>
      if !IsProse(s, i, kind) then None
      else Some(Push(SetBlock(s, i, s.content[i].(signature := signature)), Ended(i, s.content[i].text)))
    case ToolStart(i, id, name) => Some(Push(SetBlock(s, i, ToolCall(id, name, Some(""))), Opened(i)))
    case ToolDelta(i, delta) =>
      if !IsToolCall(s, i) then None
      else
        var before := if s.content[i].partialJson.Some? then s.content[i].partialJson.value else "undefined";
        Some(Push(SetBlock(s, i, s.content[i].(partialJson := Some(before + delta))), Grew(i, delta)))
    case ToolEnd(i, id, name) =>
      if !IsToolCall(s, i) then Some(s)
      else Some(Push(SetBlock(s, i, ToolCall(id, name, None)), ToolEnded(i)))
    case Done(reason) => Some(Push(s.(stopReason := reason, sawTerminal := true), Finished(reason)))
    case Error(reason, message) =>
      Some(Push(s.(stopReason := reason, errorMessage := Some(message), sawTerminal := true), Failed(reason)))
    case Unknown => Some(s)
  }

  /** The events of a run, up to the first one that throws. */
  datatype Run = Run(session: Session, log: seq<ProxyEvent>, thrown: bool)

  function ProcessAll(events: seq<ProxyEvent>): Run {
    if events == [] then Run(NEW_SESSION, [], false) else
    var before := ProcessAll(events[..|events| - 1]);
    var e := events[|events| - 1];
    if before.thrown then before else
    match Process(before.session, e)
    case None => Run(before.session, before.log, true)
    case Some(s) => Run(s, before.log + [e], false)
  }

  predicate Starts(e: ProxyEvent, i: int) {
    (e.BlockStart? || e.ToolStart?) && e.index == i
  }

  /** The deltas of block `i`, concatenated. */
  function Deltas(events: seq<ProxyEvent>, i: int): string {
    if events == [] then "" else
    var e := events[|events| - 1];
    Deltas(events[..|events| - 1], i) + if (e.BlockDelta? || e.ToolDelta?) && e.index == i then e.delta else ""
  }

  ghost predicate LastStart(log: seq<ProxyEvent>, i: int, k: int) {
    0 <= k < |log| && Starts(log[k], i) && forall j | k < j < |log| :: !Starts(log[j], i)
  }

  /** Block `i` is what its deltas since its start at `k` add up to. */
  ghost predicate BlockSince(log: seq<ProxyEvent>, i: int, block: Block, k: int) {
    && LastStart(log, i, k)
    && match block
       case Prose(kind, text, _) => log[k] == BlockStart(kind, i) && text == Deltas(log[k + 1..], i)
       case ToolCall(_, _, partialJson) =>
         log[k].ToolStart? && (!EndsTool(log[k + 1..], i) ==> partialJson == Some(Deltas(log[k + 1..], i)))
  }

  predicate EndsTool(log: seq<ProxyEvent>, i: int) {
    log != [] && var e := log[|log| - 1]; (e.ToolEnd? && e.index == i) || EndsTool(log[..|log| - 1], i)
  }

  lemma EndsToolGrows(log: seq<ProxyEvent>, e: ProxyEvent, i: int)
    ensures EndsTool(log + [e], i) <==> EndsTool(log, i) || (e.ToolEnd? && e.index == i)
  {
    assert (log + [e])[..|log|] == log;
  }

  ghost predicate BlockOk(log: seq<ProxyEvent>, i: int, block: Block) {
    exists k :: BlockSince(log, i, block, k)
  }

  lemma BlockOkGrows(log: seq<ProxyEvent>, i: int, block: Block, e: ProxyEvent, after: Block)
    requires BlockOk(log, i, block) && !Starts(e, i) && after.Prose? == block.Prose?
    requires var grows := (e.BlockDelta? || e.ToolDelta?) && e.index == i;
             match block
             case Prose(kind, text, _) => after.kind == kind && after.text == if grows then text + e.delta else text
             case ToolCall(_, _, partialJson) =>
               (e.ToolEnd? && e.index == i) ||
               (partialJson.Some? ==> after.partialJson == Some(if grows then partialJson.value + e.delta else partialJson.value))
    ensures BlockOk(log + [e], i, after)
  {
    hide EndsTool, Deltas;
    var k :| BlockSince(log, i, block, k);
    var more := log + [e];
    assert LastStart(more, i, k) && k < |log|;
    assert 0 <= k;
    hide LastStart;
    assert more[k] == log[k] && more[k + 1..] == log[k + 1..] + [e];
    DeltasGrow(log[k + 1..], e, i);
    EndsToolGrows(log[k + 1..], e, i);
    assert BlockSince(more, i, after, k);
  }

  lemma DeltasGrow(events: seq<ProxyEvent>, e: ProxyEvent, i: int)
    ensures Deltas(events + [e], i) ==
            if (e.BlockDelta? || e.ToolDelta?) && e.index == i then Deltas(events, i) + e.delta else Deltas(events, i)
  {
    assert (events + [e])[..|events|] == events;
  }

  lemma BlockOkStarts(log: seq<ProxyEvent>, i: int, e: ProxyEvent, block: Block)
    requires Starts(e, i)
    requires block == if e.BlockStart? then Prose(e.kind, "", None) else ToolCall(e.id, e.name, Some(""))
    ensures BlockOk(log + [e], i, block)
  {
    var more := log + [e];
    assert more[|log| + 1..] == [];
    assert BlockSince(more, i, block, |log|);
  }

  /** Whatever the interleaving of blocks, each equals the concatenation of its deltas since its start. */
  lemma {:induction false} BlocksAreTheirDeltas(events: seq<ProxyEvent>, i: int)
    requires i in ProcessAll(events).session.content
    ensures BlockOk(ProcessAll(events).log, i, ProcessAll(events).session.content[i])
  {
    hide BlockOk;
    if events != [] {
      var before := ProcessAll(events[..|events| - 1]);
      var run := ProcessAll(events);
      var e := events[|events| - 1];
      if run.log == before.log {
        BlocksAreTheirDeltas(events[..|events| - 1], i);
      } else if Starts(e, i) {
        BlockOkStarts(before.log, i, e, run.session.content[i]);
      } else {
        BlocksAreTheirDeltas(events[..|events| - 1], i);
        BlockOkGrows(before.log, i, before.session.content[i], e, run.session.content[i]);
      }
    }
  }

  /** The content of an end event is the concatenation of the deltas since the start of its block; it is
      delivered unless the stream is done. */
  lemma EndCarriesItsDeltas(events: seq<ProxyEvent>, kind: Kind, i: int, signature: Option<string>)
    requires !ProcessAll(events + [BlockEnd(kind, i, signature)]).thrown
    ensures var run := ProcessAll(events);
            exists k :: LastStart(run.log, i, k) && run.log[k] == BlockStart(kind, i) &&
                        ProcessAll(events + [BlockEnd(kind, i, signature)]).session.delivered ==
                        run.session.delivered + if run.session.done then [] else [Ended(i, Deltas(run.log[k + 1..], i))]
  {
    var all := events + [BlockEnd(kind, i, signature)];
    assert all[..|all| - 1] == events;
    BlocksAreTheirDeltas(events, i);
    var run := ProcessAll(events);
    var k :| BlockSince(run.log, i, run.session.content[i], k);
    assert run.session.delivered + [] == run.session.delivered;
  }

  // ---------- Terminal events ----------

  /** The reasons of the terminal events of a log, in order. */
  function Reasons(log: seq<ProxyEvent>): seq<string> {
    if log == [] then [] else
    var e := log[|log| - 1];
    Reasons(log[..|log| - 1]) + if IsEnd(e) then [e.reason] else []
  }

  /** The consumer is told the first reason, and the message keeps the last. */
  ghost predicate SessionOk(s: Session, reasons: seq<string>) {
    && DeliveredOk(s) && s.sawTerminal == s.done == (reasons != [])
    && (s.done ==> Told(s) == reasons[0])
    && s.stopReason == if reasons == [] then "pending" else reasons[|reasons| - 1]
  }

  predicate IsEnd(e: ProxyEvent) {
    e.Done? || e.Error?
  }

  /** Terminal events set the stop reason, and the stream takes the first of them. */
  lemma ProcessEffect(s: Session, e: ProxyEvent)
    requires Process(s, e).Some?
    ensures var t := Process(s, e).value;
            if IsEnd(e) then
              t.stopReason == e.reason && t.sawTerminal && t.done &&
              (if s.done then t.delivered == s.delivered
               else t.delivered in [s.delivered + [Finished(e.reason)], s.delivered + [Failed(e.reason)]])
            else
              t.stopReason == s.stopReason && t.sawTerminal == s.sawTerminal && t.done == s.done &&
              (t.delivered == s.delivered ||
               (!s.done && |t.delivered| == |s.delivered| + 1 && s.delivered <= t.delivered &&
                !Terminal(t.delivered[|s.delivered|])))
  {
  }

  lemma ProcessOk(s: Session, reasons: seq<string>, e: ProxyEvent)
    requires SessionOk(s, reasons) && Process(s, e).Some?
    ensures SessionOk(Process(s, e).value, reasons + if IsEnd(e) then [e.reason] else [])
  {
    ProcessEffect(s, e);
    hide Process;
    assert reasons + [] == reasons;
  }

  lemma {:induction false} RunOk(events: seq<ProxyEvent>)
    ensures var run := ProcessAll(events); SessionOk(run.session, Reasons(run.log))
  {
    if events != [] {
      var before := ProcessAll(events[..|events| - 1]);
      var e := events[|events| - 1];
      RunOk(events[..|events| - 1]);
      hide SessionOk;
      if !before.thrown && Process(before.session, e).Some? {
        ProcessOk(before.session, Reasons(before.log), e);
        assert (before.log + [e])[..|before.log|] == before.log;
      }
    }
  }

  ghost predicate IsFirstEnd(log: seq<ProxyEvent>, k: int) {
    0 <= k < |log| && IsEnd(log[k]) && forall j | 0 <= j < k :: !IsEnd(log[j])
  }

  /** What the consumer is told of a terminal event. */
  ghost predicate Tells(p: Pushed, e: ProxyEvent) {
    match e
    case Done(reason) => p == Finished(reason)
    case Error(reason, _) => p == Failed(reason)
    case _ => false
  }

  /** The stream is done exactly when the proxy has sent a terminal event, and what was delivered last is the
      first of them: a done event as done, and an error as an error. */
  lemma {:induction false} FirstEndIsTold(events: seq<ProxyEvent>)
    ensures var run := ProcessAll(events);
            && (run.session.done <==> exists k :: IsFirstEnd(run.log, k))
            && (forall k | IsFirstEnd(run.log, k) ::
                  run.session.delivered != [] && Tells(run.session.delivered[|run.session.delivered| - 1], run.log[k]))
  {
    if events != [] {
      var before, run := ProcessAll(events[..|events| - 1]), ProcessAll(events);
      var e := events[|events| - 1];
      FirstEndIsTold(events[..|events| - 1]);
      if run.log != before.log {
        FirstEndGrows(before.log, e);
        EndIsTold(before.session, e);
        hide Process, IsFirstEnd, Tells;
      }
    }
  }

  lemma EndIsTold(s: Session, e: ProxyEvent)
    requires Process(s, e).Some?
    ensures var t := Process(s, e).value;
            && (t.done <==> s.done || IsEnd(e))
            && (s.done ==> t.delivered == s.delivered)
            && (!s.done && IsEnd(e) ==> t.delivered != [] && Tells(t.delivered[|t.delivered| - 1], e))
  {
  }

  lemma FirstEndGrows(log: seq<ProxyEvent>, e: ProxyEvent)
    ensures forall k | k != |log| :: IsFirstEnd(log + [e], k) <==> IsFirstEnd(log, k)
    ensures IsFirstEnd(log + [e], |log|) <==> IsEnd(e) && forall k :: !IsFirstEnd(log, k)
  {
    var more := log + [e];
    assert forall j | 0 <= j < |log| :: more[j] == log[j];
    if IsEnd(e) && forall k :: !IsFirstEnd(log, k) {
      NoFirstNoEnd(log);
    }
  }

  lemma {:induction false} NoFirstNoEnd(log: seq<ProxyEvent>)
    requires forall k :: !IsFirstEnd(log, k)
    ensures forall j | 0 <= j < |log| :: !IsEnd(log[j])
  {
    if log != [] {
      var n := |log| - 1;
      forall k ensures !IsFirstEnd(log[..n], k) {
        assert !IsFirstEnd(log, k);
      }
      NoFirstNoEnd(log[..n]);
      assert !IsFirstEnd(log, n);
    }
  }

  // ---------- What each event does ----------

  lemma {:induction false} StartedBlocks(events: seq<ProxyEvent>, i: int)
    ensures i in ProcessAll(events).session.content <==> exists k :: LastStart(ProcessAll(events).log, i, k)
  {
    if events != [] {
      var before, run := ProcessAll(events[..|events| - 1]), ProcessAll(events);
      var e := events[|events| - 1];
      StartedBlocks(events[..|events| - 1], i);
      if run.log != before.log {
        LastStartGrows(before.log, e, i);
        StartsPut(before.session, e, i);
        hide LastStart, Starts, Process;
      }
    }
  }

  lemma StartsPut(s: Session, e: ProxyEvent, i: int)
    requires Process(s, e).Some?
    ensures i in Process(s, e).value.content <==> i in s.content || Starts(e, i)
  {
  }

  lemma LastStartGrows(log: seq<ProxyEvent>, e: ProxyEvent, i: int)
    ensures forall k | k != |log| :: LastStart(log + [e], i, k) <==> LastStart(log, i, k) && !Starts(e, i)
    ensures LastStart(log + [e], i, |log|) <==> Starts(e, i)
  {
    var more := log + [e];
    assert more[|log|] == e && forall j | 0 <= j < |log| :: more[j] == log[j];
    forall k | k != |log| ensures LastStart(more, i, k) <==> LastStart(log, i, k) && !Starts(e, i) {
    }
  }

  ghost predicate LastStartedAs(log: seq<ProxyEvent>, kind: Kind, i: int) {
    exists k :: LastStart(log, i, k) && log[k] == BlockStart(kind, i)
  }

  ghost predicate LastStartedAsTool(log: seq<ProxyEvent>, i: int) {
    exists k :: LastStart(log, i, k) && log[k].ToolStart?
  }

  /** An event continues or ends a block whose last start was not of its kind. */
  ghost predicate Misplaced(log: seq<ProxyEvent>, e: ProxyEvent) {
    match e
    case BlockDelta(kind, i, _) => !LastStartedAs(log, kind, i)
    case BlockEnd(kind, i, _) => !LastStartedAs(log, kind, i)
    case ToolDelta(i, _) => !LastStartedAsTool(log, i)
    case _ => false
  }

  /** Exactly the misplaced events throw; the end of a tool call that was not started is ignored. */
  lemma RefusedExactly(events: seq<ProxyEvent>, e: ProxyEvent)
    requires !ProcessAll(events).thrown
    ensures ProcessAll(events + [e]).thrown <==> Misplaced(ProcessAll(events).log, e)
  {
    var run := ProcessAll(events);
    assert (events + [e])[..|events|] == events;
    if e.BlockDelta? || e.BlockEnd? || e.ToolDelta? {
      StartedBlocks(events, e.index);
      if e.index in run.session.content {
        BlocksAreTheirDeltas(events, e.index);
        var k :| BlockSince(run.log, e.index, run.session.content[e.index], k);
        assert LastStart(run.log, e.index, k);
      }
    }
  }

  ghost predicate LastError(log: seq<ProxyEvent>, k: int) {
    0 <= k < |log| && log[k].Error? && forall j | k < j < |log| :: !log[j].Error?
  }

  /** The error message is that of the last error event. */
  lemma {:induction false} ErrorMessageIsLast(events: seq<ProxyEvent>)
    ensures var run := ProcessAll(events);
            && (run.session.errorMessage.Some? <==> exists k :: LastError(run.log, k))
            && (forall k | LastError(run.log, k) :: run.session.errorMessage == Some(run.log[k].message))
  {
    if events != [] {
      var before, run := ProcessAll(events[..|events| - 1]), ProcessAll(events);
      var e := events[|events| - 1];
      ErrorMessageIsLast(events[..|events| - 1]);
      if run.log != before.log {
        LastErrorGrows(before.log, e);
        hide LastError;
      }
    }
  }

  lemma LastErrorGrows(log: seq<ProxyEvent>, e: ProxyEvent)
    ensures forall k | k != |log| :: LastError(log + [e], k) <==> LastError(log, k) && !e.Error?
    ensures LastError(log + [e], |log|) <==> e.Error?
    ensures forall k | LastError(log, k) :: (log + [e])[k] == log[k]
  {
    var more := log + [e];
    assert more[|log|] == e && forall j | 0 <= j < |log| :: more[j] == log[j];
    forall k | k != |log| ensures LastError(more, k) <==> LastError(log, k) && !e.Error? {
    }
  }

  /** What gives a block its name or signature: its starts, and the ends of its kind. */
  predicate GivesLabel(e: ProxyEvent, i: int, tool: bool) {
    (e.BlockStart? || e.ToolStart? || (if tool then e.ToolEnd? else e.BlockEnd?)) && e.index == i
  }

  ghost predicate LastLabel(log: seq<ProxyEvent>, i: int, tool: bool, k: int) {
    0 <= k < |log| && GivesLabel(log[k], i, tool) && forall j | k < j < |log| :: !GivesLabel(log[j], i, tool)
  }

  ghost predicate LabelledBy(block: Block, e: ProxyEvent) {
    match block
    case Prose(_, _, signature) => signature == if e.BlockEnd? then e.signature else None
    case ToolCall(id, name, _) => (e.ToolStart? || e.ToolEnd?) && e.id == id && e.name == name
  }

  /** A block has the signature of its last end, and a tool call the id and name of its last start or end. */
  lemma {:induction false} BlocksAreLabelled(events: seq<ProxyEvent>, i: int)
    requires i in ProcessAll(events).session.content
    ensures var run := ProcessAll(events);
            var block := run.session.content[i];
            exists k :: LastLabel(run.log, i, block.ToolCall?, k) && LabelledBy(block, run.log[k])
  {
    if events != [] {
      var before, run := ProcessAll(events[..|events| - 1]), ProcessAll(events);
      var e := events[|events| - 1];
      if run.log == before.log {
        BlocksAreLabelled(events[..|events| - 1], i);
      } else {
        var tool := run.session.content[i].ToolCall?;
        LastLabelGrows(before.log, e, i, tool);
        LabelsPut(before.session, e, i);
        hide Process, LastLabel, LabelledBy;
        if !GivesLabel(e, i, tool) {
          BlocksAreLabelled(events[..|events| - 1], i);
          var k :| LastLabel(before.log, i, tool, k) && LabelledBy(before.session.content[i], before.log[k]);
          assert k != |before.log| && run.log[k] == before.log[k] by {
            LastLabelIsIn(before.log, i, tool, k);
          }
          assert LastLabel(run.log, i, tool, k);
        } else {
          assert run.log[|before.log|] == e;
          assert LastLabel(run.log, i, tool, |before.log|);
        }
      }
    }
  }

  lemma LastLabelIsIn(log: seq<ProxyEvent>, i: int, tool: bool, k: int)
    requires LastLabel(log, i, tool, k)
    ensures 0 <= k < |log|
  {
  }

  lemma LastLabelGrows(log: seq<ProxyEvent>, e: ProxyEvent, i: int, tool: bool)
    ensures GivesLabel(e, i, tool) ==> LastLabel(log + [e], i, tool, |log|)
    ensures !GivesLabel(e, i, tool) ==> forall k | LastLabel(log, i, tool, k) :: LastLabel(log + [e], i, tool, k)
  {
    var more := log + [e];
    assert more[|log|] == e && forall j | 0 <= j < |log| :: more[j] == log[j];
  }

  lemma LabelsPut(s: Session, e: ProxyEvent, i: int)
    requires Process(s, e).Some? && i in Process(s, e).value.content
    ensures var block := Process(s, e).value.content[i];
            if GivesLabel(e, i, block.ToolCall?) then LabelledBy(block, e)
            else i in s.content && s.content[i].ToolCall? == block.ToolCall? &&
                 forall x :: LabelledBy(s.content[i], x) ==> LabelledBy(block, x)
  {
  }

  /** What an event says to the consumer, told from the events before it. */
  ghost predicate Says(log: seq<ProxyEvent>, e: ProxyEvent, told: seq<Pushed>) {
    match e
    case Start => told == [Began]
    case BlockStart(_, i) => told == [Opened(i)]
    case ToolStart(i, _, _) => told == [Opened(i)]
    case BlockDelta(_, i, delta) => told == [Grew(i, delta)]
    case ToolDelta(i, delta) => told == [Grew(i, delta)]
    case BlockEnd(_, i, _) => exists k :: LastStart(log, i, k) && told == [Ended(i, Deltas(log[k + 1..], i))]
    case ToolEnd(i, _, _) => told == if LastStartedAsTool(log, i) then [ToolEnded(i)] else []
    case Done(reason) => told == [Finished(reason)]
    case Error(reason, _) => told == [Failed(reason)]
    case Unknown => told == []
  }

  /** What processing pushes, in terms of the blocks there are. */
  function Answer(s: Session, e: ProxyEvent): seq<Pushed> {
    match e
    case Start => [Began]
    case BlockStart(_, i) => [Opened(i)]
    case ToolStart(i, _, _) => [Opened(i)]
    case BlockDelta(_, i, delta) => [Grew(i, delta)]
    case ToolDelta(i, delta) => [Grew(i, delta)]
    case BlockEnd(_, i, _) => [Ended(i, if i in s.content && s.content[i].Prose? then s.content[i].text else "")]
    case ToolEnd(i, _, _) => if IsToolCall(s, i) then [ToolEnded(i)] else []
    case Done(reason) => [Finished(reason)]
    case Error(reason, _) => [Failed(reason)]
    case Unknown => []
  }

  lemma ProcessAnswers(s: Session, e: ProxyEvent)
    requires Process(s, e).Some?
    ensures Process(s, e).value.delivered == s.delivered + if s.done then [] else Answer(s, e)
  {
    assert s.delivered + [] == s.delivered;
  }

  lemma AnswerSays(events: seq<ProxyEvent>, e: ProxyEvent)
    requires !ProcessAll(events).thrown && Process(ProcessAll(events).session, e).Some?
    ensures Says(ProcessAll(events).log, e, Answer(ProcessAll(events).session, e))
  {
    hide ProcessAll, Deltas, EndsTool;
    var run := ProcessAll(events);
    if e.BlockEnd? || e.ToolEnd? {
      StartedBlocks(events, e.index);
      if e.index in run.session.content {
        BlocksAreTheirDeltas(events, e.index);
        var k :| BlockSince(run.log, e.index, run.session.content[e.index], k);
        assert LastStart(run.log, e.index, k);
      }
    }
  }

  /** An accepted event delivers what it says while the stream is not done, and nothing afterwards. */
  lemma DeliversExactly(events: seq<ProxyEvent>, e: ProxyEvent)
    requires !ProcessAll(events + [e]).thrown
    ensures var before, after := ProcessAll(events).session, ProcessAll(events + [e]).session;
            exists told :: Says(ProcessAll(events).log, e, told) &&
                           after.delivered == before.delivered + if before.done then [] else told
  {
    hide ProcessAll, Process, Says, Answer;
    OneMore(events, e);
    AnswerSays(events, e);
    ProcessAnswers(ProcessAll(events).session, e);
  }

  lemma OneMore(events: seq<ProxyEvent>, e: ProxyEvent)
    requires !ProcessAll(events + [e]).thrown
    ensures var run := ProcessAll(events);
            && !run.thrown && Process(run.session, e).Some?
            && ProcessAll(events + [e]).session == Process(run.session, e).value
  {
    assert (events + [e])[..|events|] == events;
  }

  // ---------- The stream ----------

  /** What a line holds: no event, something that is not JSON, or an event. */
  datatype Line = Skipped | Malformed | Holds(event: ProxyEvent)

  /** Trimming and JSON parsing are functions of the text, and nothing more is assumed of them. */
  datatype Parser = Parser(trim: string -> string, parse: string -> Option<ProxyEvent>)
  {
    function ReadLine(line: string): Line {
      if !("data: " <= line) then Skipped
      else
        var data := trim(line[6..]);
        if data == "" then Skipped
        else if parse(data).None? then Malformed
        else Holds(parse(data).value)
    }
  }

  /** Lines hold JSON after `data: `; other lines, and blank ones, are skipped. */
  lemma LinesRead(p: Parser, rest: string)
    ensures p.ReadLine("data: " + rest) ==
            if p.trim(rest) == "" then Skipped
            else match p.parse(p.trim(rest)) case None => Malformed case Some(e) => Holds(e)
    ensures forall line | |line| < 6 || line[..6] != "data: " :: p.ReadLine(line) == Skipped
  {
    assert ("data: " + rest)[6..] == rest;
  }

  /** The session after processing lines, and whether one of them has thrown. */
  datatype Step = Step(session: Session, thrown: bool)

  function ProcessLine(p: Parser, s: Session, line: string): Step {
    match p.ReadLine(line)
    case Skipped => Step(s, false)
    case Malformed => Step(s, true)
    case Holds(e) => if Process(s, e).None? then Step(s, true) else Step(Process(s, e).value, false)
  }

  function ProcessLines(p: Parser, s: Session, lines: seq<string>): Step
    decreases |lines|
  {
    if lines == [] then Step(s, false) else
    var first := ProcessLine(p, s, lines[0]);
    if first.thrown then first else ProcessLines(p, first.session, lines[1..])
  }

  lemma {:induction false} ProcessLinesConcat(p: Parser, s: Session, a: seq<string>, b: seq<string>)
    ensures ProcessLines(p, s, a + b) ==
            var first := ProcessLines(p, s, a);
            if first.thrown then first else ProcessLines(p, first.session, b)
    decreases |a|
  {
    if a == [] {
      assert a + b == b;
    } else {
      assert (a + b)[1..] == a[1..] + b;
      var first := ProcessLine(p, s, a[0]);
      if !first.thrown {
        ProcessLinesConcat(p, first.session, a[1..], b);
      }
    }
  }

  /** One read of the response body: decoded text, a failure, or a read after which the signal is aborted. */
  datatype Read = Chunk(text: string) | ReadFails | ReadAborted

  /** The texts of the chunks, one after the other. */
  function TextOf(pieces: seq<Read>): string {
    if pieces == [] then ""
    else
      var last := pieces[|pieces| - 1];
      TextOf(pieces[..|pieces| - 1]) + if last.Chunk? then last.text else ""
  }

  /** How many reads give a chunk before one does not. */
  function Usable(pieces: seq<Read>): (n: nat)
    ensures n <= |pieces| && (forall k | 0 <= k < n :: pieces[k].Chunk?) && (n < |pieces| ==> !pieces[n].Chunk?)
  {
    if pieces == [] || !pieces[0].Chunk? then 0 else 1 + Usable(pieces[1..])
  }

  function AtEnd(s: Session): Session {
    if s.sawTerminal then s
    else
      Push(s.(stopReason := "error", errorMessage := Some("Connection closed by proxy server before the response completed")),
           Failed("error"))
  }

  function Caught(s: Session, aborted: bool, message: string): Session {
    var reason := if aborted then "aborted" else "error";
    Push(s.(stopReason := reason, errorMessage := Some(message)), Failed(reason))
  }

  predicate AbortedRead(pieces: seq<Read>) {
    var n := Usable(pieces);
    n < |pieces| && pieces[n].ReadAborted?
  }

  /** `abortedAtEnd`: the signal is found aborted after the last read.  `flush` is what the text decoder
      still holds then. */
  datatype Response = NoResponse | Body(pieces: seq<Read>, flush: string, abortedAtEnd: bool)

  /** The unterminated last line, and the end. */
  function LastLine(p: Parser, lines: Step, last: string, aborted: bool, message: string): Session {
    var all := if last == "" then lines else ProcessLine(p, lines.session, last);
    if all.thrown then Caught(all.session, aborted, message) else AtEnd(all.session)
  }

  /** The session that a stream leaves, as a function of the text received; `aborted` is the state of the
      signal when an exception is caught, and `message` is that of the exception. */
  function Streamed(p: Parser, response: Response, aborted: bool, message: string): Session {
    match response
    case NoResponse => Caught(NEW_SESSION, aborted, message)
    case Body(pieces, flush, abortedAtEnd) =>
      var n := Usable(pieces);
      var text := TextOf(pieces[..n]);
      var lines := ProcessLines(p, NEW_SESSION, CompleteLines(text));
      if lines.thrown then Caught(lines.session, aborted, message)
      else if n < |pieces| then Caught(lines.session, aborted || AbortedRead(pieces), message)
      else if abortedAtEnd then Caught(lines.session, true, message)
      else LastLine(p, lines, Rest(text) + flush, aborted, message)
  }

  /** Only the text counts, not its chunks; and a last line without a newline counts as if it had one. */
  lemma ChunksDoNotMatter(p: Parser, a: Response, b: Response, aborted: bool, message: string)
    requires a.Body? && b.Body? && !a.abortedAtEnd && !b.abortedAtEnd && a.flush == b.flush == ""
    requires Usable(a.pieces) == |a.pieces| && Usable(b.pieces) == |b.pieces|
    requires TextOf(a.pieces) == TextOf(b.pieces) || TextOf(a.pieces) + "\n" == TextOf(b.pieces)
    ensures Streamed(p, a, aborted, message) == Streamed(p, b, aborted, message)
  {
    assert a.pieces[..|a.pieces|] == a.pieces && b.pieces[..|b.pieces|] == b.pieces;
    assert Rest(TextOf(a.pieces)) + "" == Rest(TextOf(a.pieces)) && Rest(TextOf(b.pieces)) + "" == Rest(TextOf(b.pieces));
    FinalLine(p, TextOf(a.pieces));
    hide ProcessLines, ProcessLine, CompleteLines, Rest, TextOf;
  }

  /** All the lines of a text, of which the last may be unterminated. */
  function ProcessText(p: Parser, text: string): Step {
    var lines := ProcessLines(p, NEW_SESSION, CompleteLines(text));
    if lines.thrown || Rest(text) == "" then lines else ProcessLine(p, lines.session, Rest(text))
  }

  lemma FinalLine(p: Parser, text: string)
    ensures ProcessText(p, text + "\n") == ProcessText(p, text)
  {
    LastLineTerminated(text);
    var lines := ProcessLines(p, NEW_SESSION, CompleteLines(text));
    ProcessLinesConcat(p, NEW_SESSION, CompleteLines(text), [Rest(text)]);
    EmptyLine(p, lines.session);
  }

  lemma LastLineTerminated(text: string)
    ensures CompleteLines(text + "\n") == CompleteLines(text) + [Rest(text)] && Rest(text + "\n") == ""
  {
    assert (text + "\n")[..|text|] == text;
  }

  lemma EmptyLine(p: Parser, s: Session)
    ensures ProcessLine(p, s, "") == Step(s, false)
  {
  }

  // ---------- What the consumer is told ----------

  /** The lines that are processed, up to one that throws: the last one is only when the body ends. */
  function Reached(response: Response): seq<string> {
    match response
    case NoResponse => []
    case Body(pieces, flush, abortedAtEnd) =>
      var n := Usable(pieces);
      var text := TextOf(pieces[..n]);
      var last := Rest(text) + flush;
      CompleteLines(text) + if n == |pieces| && !abortedAtEnd && last != "" then [last] else []
  }

  /** The stream ends with an exception: a line throws, a read fails, or the signal is found aborted. */
  predicate Breaks(p: Parser, response: Response) {
    || response.NoResponse? || Usable(response.pieces) < |response.pieces| || response.abortedAtEnd
    || ProcessLines(p, NEW_SESSION, Reached(response)).thrown
  }

  /** Whether the signal is aborted when the exception is caught. */
  predicate AbortedWhenCaught(p: Parser, response: Response, aborted: bool) {
    aborted ||
    (response.Body? && !ProcessLines(p, NEW_SESSION, Reached(response)).thrown &&
     (AbortedRead(response.pieces) || (response.abortedAtEnd && Usable(response.pieces) == |response.pieces|)))
  }

  function CaughtReason(aborted: bool): string {
    if aborted then "aborted" else "error"
  }

  lemma StreamedReached(p: Parser, response: Response, aborted: bool, message: string)
    ensures var s := ProcessLines(p, NEW_SESSION, Reached(response)).session;
            Streamed(p, response, aborted, message) ==
            if Breaks(p, response) then Caught(s, AbortedWhenCaught(p, response, aborted), message) else AtEnd(s)
  {
    if response.Body? {
      var text := TextOf(response.pieces[..Usable(response.pieces)]);
      var lines := CompleteLines(text);
      ProcessLinesConcat(p, NEW_SESSION, lines, [Rest(text) + response.flush]);
      SingleLineProcessed(p, ProcessLines(p, NEW_SESSION, lines).session, Rest(text) + response.flush);
      assert lines + [] == lines;
      hide ProcessLines, ProcessLine, CompleteLines, Rest, TextOf, Caught, AtEnd;
    }
  }

  lemma SingleLineProcessed(p: Parser, s: Session, line: string)
    ensures ProcessLines(p, s, [line]) == ProcessLine(p, s, line)
  {
  }

  /** The terminal events that a response brings before it throws, if it does. */
  function TerminalReasons(p: Parser, response: Response): seq<string> {
    Reasons(ProcessAll(EventsOf(p, Reached(response))).log)
  }

  lemma ReachedOk(p: Parser, response: Response)
    ensures SessionOk(ProcessLines(p, NEW_SESSION, Reached(response)).session, TerminalReasons(p, response))
  {
    var events := EventsOf(p, Reached(response));
    LinesAreEvents(p, [], Reached(response));
    assert [] + events == events;
    RunOk(events);
  }

  lemma CaughtDelivers(s: Session, reasons: seq<string>, aborted: bool, message: string)
    requires SessionOk(s, reasons)
    ensures var end := Caught(s, aborted, message);
            DeliveredOk(end) && end.done && end.stopReason == CaughtReason(aborted) &&
            Told(end) == if reasons == [] then CaughtReason(aborted) else reasons[0]
  {
  }

  lemma AtEndDelivers(s: Session, reasons: seq<string>)
    requires SessionOk(s, reasons)
    ensures var end := AtEnd(s);
            DeliveredOk(end) && end.done &&
            end.stopReason == (if reasons == [] then "error" else reasons[|reasons| - 1]) &&
            Told(end) == if reasons == [] then "error" else reasons[0]
  {
  }

  function Last(s: Session): Pushed {
    if s.delivered == [] then Began else s.delivered[|s.delivered| - 1]
  }

  lemma EndIsDelivered(p: Parser, response: Response, aborted: bool, message: string)
    ensures var end := Streamed(p, response, aborted, message);
            var log := ProcessAll(EventsOf(p, Reached(response))).log;
            && (forall k | IsFirstEnd(log, k) :: Tells(Last(end), log[k]))
            && ((forall k :: !IsFirstEnd(log, k)) ==>
                  Last(end) == Failed(if Breaks(p, response) && AbortedWhenCaught(p, response, aborted) then "aborted" else "error"))
            && (Breaks(p, response) ==> end.errorMessage == Some(message))
            && ((forall k :: !IsFirstEnd(log, k)) && !Breaks(p, response) ==>
                  end.errorMessage == Some("Connection closed by proxy server before the response completed"))
  {
    hide IsFirstEnd, Tells, Streamed, Breaks, AbortedWhenCaught, SessionOk, ProcessAll, ProcessLines, Caught, AtEnd, Last;
    var events := EventsOf(p, Reached(response));
    var s := ProcessLines(p, NEW_SESSION, Reached(response)).session;
    StreamedReached(p, response, aborted, message);
    ReachedOk(p, response);
    LastOfReached(s, TerminalReasons(p, response), AbortedWhenCaught(p, response, aborted), message);
    RunOfNothing();
    LinesAreEvents(p, [], Reached(response));
    assert [] + events == events;
    hide Reached, EventsOf;
    FirstEndIsTold(events);
    LastIsLast(s);
  }

  lemma RunOfNothing()
    ensures ProcessAll([]) == Run(NEW_SESSION, [], false)
  {
  }

  lemma LastIsLast(s: Session)
    ensures s.delivered != [] ==> Last(s) == s.delivered[|s.delivered| - 1]
  {
  }

  /** What was delivered last, after the end of the body or a caught exception. */
  lemma LastOfReached(s: Session, reasons: seq<string>, aborted: bool, message: string)
    requires SessionOk(s, reasons)
    ensures Last(Caught(s, aborted, message)) == if s.done then Last(s) else Failed(CaughtReason(aborted))
    ensures Caught(s, aborted, message).errorMessage == Some(message)
    ensures Last(AtEnd(s)) == if s.done then Last(s) else Failed("error")
    ensures !s.done ==> AtEnd(s).errorMessage == Some("Connection closed by proxy server before the response completed")
  {
  }

  /** Consumers always learn of the end: whatever the proxy sends, exactly one terminal event is delivered,
      and it is the last event.  It is the first one that the proxy sent, and without one it is an error. */
  lemma StreamsTerminate(p: Parser, response: Response, aborted: bool, message: string)
    ensures var end := Streamed(p, response, aborted, message); DeliveredOk(end) && end.done
    ensures var end := Streamed(p, response, aborted, message);
            var log := ProcessAll(EventsOf(p, Reached(response))).log;
            && (forall k | IsFirstEnd(log, k) :: Tells(Last(end), log[k]))
            && ((forall k :: !IsFirstEnd(log, k)) ==>
                  Last(end) == Failed(if Breaks(p, response) && AbortedWhenCaught(p, response, aborted) then "aborted" else "error"))
            && (Breaks(p, response) ==> end.errorMessage == Some(message))
            && ((forall k :: !IsFirstEnd(log, k)) && !Breaks(p, response) ==>
                  end.errorMessage == Some("Connection closed by proxy server before the response completed"))
  {
    EndIsDelivered(p, response, aborted, message);
    StreamedReached(p, response, aborted, message);
    ReachedOk(p, response);
    var s := ProcessLines(p, NEW_SESSION, Reached(response)).session;
    hide SessionOk, Caught, AtEnd, Streamed, Breaks;
    CaughtDelivers(s, TerminalReasons(p, response), AbortedWhenCaught(p, response, aborted), message);
    AtEndDelivers(s, TerminalReasons(p, response));
  }

  /** The stop reason that the message ends up with is the one that its consumer was told exactly when the
      proxy sent no terminal event before, or what came last agrees with the first one it sent: the reason
      of the exception, if the stream breaks, and otherwise the last terminal event. */
  lemma StopReasonAgrees(p: Parser, response: Response, aborted: bool, message: string)
    ensures var end := Streamed(p, response, aborted, message);
            var reasons := TerminalReasons(p, response);
            && DeliveredOk(end) && end.done
            && (end.stopReason == Told(end) <==>
                  || reasons == []
                  || reasons[0] == if Breaks(p, response) then CaughtReason(AbortedWhenCaught(p, response, aborted))
                                   else reasons[|reasons| - 1])
  {
    StreamedReached(p, response, aborted, message);
    ReachedOk(p, response);
    var s := ProcessLines(p, NEW_SESSION, Reached(response)).session;
    hide SessionOk, Caught, AtEnd, Streamed, Breaks;
    CaughtDelivers(s, TerminalReasons(p, response), AbortedWhenCaught(p, response, aborted), message);
    AtEndDelivers(s, TerminalReasons(p, response));
  }

  /** In particular: a message reported as done keeps the reason told if and only if afterwards no line
      throws, no read fails or is aborted, and the last terminal event has the same reason. */
  lemma DoneAgrees(p: Parser, response: Response, aborted: bool, message: string)
    requires TerminalReasons(p, response) != [] && TerminalReasons(p, response)[0] !in ["aborted", "error"]
    ensures var end := Streamed(p, response, aborted, message);
            var reasons := TerminalReasons(p, response);
            && DeliveredOk(end) && end.done && Told(end) == reasons[0]
            && (end.stopReason == Told(end) <==> !Breaks(p, response) && reasons[|reasons| - 1] == reasons[0])
  {
    StopReasonAgrees(p, response, aborted, message);
    StreamedReached(p, response, aborted, message);
    ReachedOk(p, response);
    var s := ProcessLines(p, NEW_SESSION, Reached(response)).session;
    hide SessionOk, Caught, AtEnd, Streamed, Breaks;
    CaughtDelivers(s, TerminalReasons(p, response), AbortedWhenCaught(p, response, aborted), message);
    AtEndDelivers(s, TerminalReasons(p, response));
  }

  function OneWordParser(): Parser {
    Parser((s: string) => s, (s: string) => if s == "d" then Some(Done("stop")) else None)
  }

  lemma OneWordLine()
    ensures ProcessLines(OneWordParser(), NEW_SESSION, ["data: d"]) ==
            Step(Session(map[], "stop", None, true, [Finished("stop")], true), false)
  {
    assert "data: d"[6..] == "d";
    assert OneWordParser().ReadLine("data: d") == Holds(Done("stop"));
    SingleLineProcessed(OneWordParser(), NEW_SESSION, "data: d");
    assert [] + [Finished("stop")] == [Finished("stop")];
  }

  lemma OneWordText()
    ensures var pieces := [Chunk("data: d\n")];
            Usable(pieces) == 1 && TextOf(pieces[..1]) == "data: d\n" && CompleteLines("data: d\n") == ["data: d"]
  {
    var text := "data: d\n";
    var pieces := [Chunk(text)];
    assert pieces[..1] == pieces && pieces[..0] == [] && "" + text == text;
    SingleLine("data: d");
    LastLineTerminated("data: d");
    assert "data: d" + "\n" == text && [] + ["data: d"] == ["data: d"];
  }

  /** The signal is aborted between the done event and the end of the body: the consumer has been told
      `stop`, and the message it was given ends up aborted. */
  lemma AbortAfterDone()
    ensures var end := Streamed(OneWordParser(), Body([Chunk("data: d\n")], "", true), true, "Request aborted by user");
            end.delivered == [Finished("stop")] && end.stopReason == "aborted"
  {
    OneWordText();
    OneWordLine();
    hide CompleteLines, Rest, TextOf, Usable, ProcessLines;
  }

  class ProxyReader {
    const parser: Parser
    var session: Session
    var buffer: string

    constructor (parser: Parser)
      ensures this.parser == parser && session == NEW_SESSION && buffer == ""
    {
      this.parser := parser;
      session, buffer := NEW_SESSION, "";
    }

    /** One chunk: the complete lines are processed and the rest is kept. */
    method Feed(text: string) returns (thrown: bool)
      modifies this
      ensures Step(session, thrown) == ProcessLines(parser, old(session), CompleteLines(old(buffer) + text))
      ensures buffer == Rest(old(buffer) + text)
    {
      var lines := CompleteLines(buffer + text);
      buffer := Rest(buffer + text);
      for i := 0 to |lines|
        invariant buffer == Rest(old(buffer) + text)
        invariant ProcessLines(parser, old(session), lines[..i]) == Step(session, false)
      {
        ProcessLinesConcat(parser, old(session), lines[..i], [lines[i]]);
        ProcessLinesConcat(parser, old(session), lines[..i + 1], lines[i + 1..]);
        assert lines[..i] + [lines[i]] == lines[..i + 1] && lines[..i + 1] + lines[i + 1..] == lines;
        var step := ProcessLine(parser, session, lines[i]);
        session := step.session;
        if step.thrown {
          return true;
        }
      }
      assert lines[..|lines|] == lines;
      return false;
    }

    /** The read loop, up to the end of the body, a read that gives no chunk, or a line that throws. */
    method ReadAll(pieces: seq<Read>) returns (thrown: bool, count: nat)
      requires session == NEW_SESSION && buffer == ""
      modifies this
      ensures Step(session, thrown) == ProcessLines(parser, NEW_SESSION, CompleteLines(TextOf(pieces[..Usable(pieces)])))
      ensures !thrown ==> count == Usable(pieces) && buffer == Rest(TextOf(pieces[..count]))
    {
      assert pieces[..0] == [] && Rest("") == "";
      assert ProcessLines(parser, NEW_SESSION, CompleteLines("")) == Step(NEW_SESSION, false);
      hide CompleteLines, Rest, ProcessLines;
      count := 0;
      while count < |pieces| && pieces[count].Chunk?
        invariant count <= Usable(pieces) && buffer == Rest(TextOf(pieces[..count]))
        invariant Step(session, false) == ProcessLines(parser, NEW_SESSION, CompleteLines(TextOf(pieces[..count])))
      {
        var before := pieces[..count];
        count := count + 1;
        FeedMore(parser, before, pieces[count - 1]);
        assert before + [pieces[count - 1]] == pieces[..count];
        thrown := Feed(pieces[count - 1].text);
        if thrown {
          ThrownStays(parser, pieces, count, Usable(pieces));
          return;
        }
      }
      return false, count;
    }

    /** `streamProxy`; the end of the stream is its return. */
    method Stream(response: Response, aborted: bool, message: string)
      requires session == NEW_SESSION && buffer == ""
      modifies this
      ensures session == Streamed(parser, response, aborted, message)
      ensures DeliveredOk(session) && session.done
    {
      StreamsTerminate(parser, response, aborted, message);
      hide IsFirstEnd, Tells, Breaks, AbortedWhenCaught, Reached, ProcessAll, EventsOf, CompleteLines, Rest, TextOf, DeliveredOk;
      if response.NoResponse? {
        session := Caught(session, aborted, message);
        return;
      }
      var thrown, count := ReadAll(response.pieces);
      if thrown {
        session := Caught(session, aborted, message);
      } else if count < |response.pieces| {
        session := Caught(session, aborted || response.pieces[count].ReadAborted?, message);
      } else if response.abortedAtEnd {
        session := Caught(session, true, message);
      } else {
        buffer := buffer + response.flush;
        var last := if buffer == "" then Step(session, false) else ProcessLine(parser, session, buffer);
        session := if last.thrown then Caught(last.session, aborted, message) else AtEnd(last.session);
      }
    }
  }

  /** Processing goes on with the rest of the text before and the new chunk. */
  lemma FeedMore(p: Parser, before: seq<Read>, piece: Read)
    requires piece.Chunk?
    ensures var text := TextOf(before);
            && Rest(TextOf(before + [piece])) == Rest(Rest(text) + piece.text)
            && var first := ProcessLines(p, NEW_SESSION, CompleteLines(text));
               ProcessLines(p, NEW_SESSION, CompleteLines(TextOf(before + [piece]))) ==
               if first.thrown then first else ProcessLines(p, first.session, CompleteLines(Rest(text) + piece.text))
  {
    var text := TextOf(before);
    assert (before + [piece])[..|before|] == before;
    LinesCarryOver(text, piece.text);
    ProcessLinesConcat(p, NEW_SESSION, CompleteLines(text), CompleteLines(Rest(text) + piece.text));
  }

  /** Once a line has thrown, more text changes nothing. */
  lemma {:induction false} ThrownStays(p: Parser, pieces: seq<Read>, k: nat, n: nat)
    requires k <= n <= Usable(pieces) && ProcessLines(p, NEW_SESSION, CompleteLines(TextOf(pieces[..k]))).thrown
    ensures ProcessLines(p, NEW_SESSION, CompleteLines(TextOf(pieces[..n]))) ==
            ProcessLines(p, NEW_SESSION, CompleteLines(TextOf(pieces[..k])))
  {
    hide ProcessLines, CompleteLines, Rest, TextOf;
    if k < n {
      ThrownStays(p, pieces, k, n - 1);
      assert pieces[..n - 1] + [pieces[n - 1]] == pieces[..n];
      FeedMore(p, pieces[..n - 1], pieces[n - 1]);
    }
  }

  // ---------- The message that a stream leaves ----------

  /** The events that lines hold, up to the first line that is malformed. */
  function EventsOf(p: Parser, lines: seq<string>): seq<ProxyEvent> {
    if lines == [] then [] else
    match p.ReadLine(lines[0])
    case Skipped => EventsOf(p, lines[1..])
    case Malformed => []
    case Holds(e) => [e] + EventsOf(p, lines[1..])
  }

  lemma {:induction false} ThrownRunStays(events: seq<ProxyEvent>, more: seq<ProxyEvent>)
    requires ProcessAll(events).thrown
    ensures ProcessAll(events + more) == ProcessAll(events)
    decreases |more|
  {
    if more == [] {
      assert events + more == events;
    } else {
      assert (events + more)[..|events + more| - 1] == events + more[..|more| - 1];
      ThrownRunStays(events, more[..|more| - 1]);
    }
  }

  /** Processing lines is processing the events that they hold. */
  lemma {:induction false} LinesAreEvents(p: Parser, before: seq<ProxyEvent>, lines: seq<string>)
    requires !ProcessAll(before).thrown
    ensures ProcessLines(p, ProcessAll(before).session, lines).session == ProcessAll(before + EventsOf(p, lines)).session
    decreases |lines|
  {
    if lines == [] {
      assert before + [] == before;
    } else {
      var read := p.ReadLine(lines[0]);
      if read.Skipped? {
        LinesAreEvents(p, before, lines[1..]);
      } else if read.Malformed? {
        assert before + [] == before;
      } else {
        var longer := before + [read.event];
        assert longer[..|before|] == before;
        assert before + EventsOf(p, lines) == longer + EventsOf(p, lines[1..]);
        if ProcessAll(longer).thrown {
          ThrownRunStays(longer, EventsOf(p, lines[1..]));
        } else {
          LinesAreEvents(p, longer, lines[1..]);
        }
      }
    }
  }

  /** Every block of the message that a stream leaves equals the concatenation of its deltas. */
  lemma StreamedBlocksAreTheirDeltas(p: Parser, lines: seq<string>, i: int)
    requires i in ProcessLines(p, NEW_SESSION, lines).session.content
    ensures BlockOk(ProcessAll(EventsOf(p, lines)).log, i, ProcessLines(p, NEW_SESSION, lines).session.content[i])
  {
    LinesAreEvents(p, [], lines);
    assert [] + EventsOf(p, lines) == EventsOf(p, lines);
    BlocksAreTheirDeltas(EventsOf(p, lines), i);
  }
}
