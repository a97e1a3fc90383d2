/** Messages, the tool state their system messages declare, and `declareToolChanges`.

  The transcript's system messages tell the model which tools it may call; `context.tools` is
  what the runtime can execute.  Before each request the difference between the two is put on
  a system message, so that replaying the transcript gives the executable tools again.
 */
module Transcript {
  import opened Wrappers

  /** What a tool declares to the model; two tools are the same interface when both fields agree. */
  datatype Tool = Tool(name: string, definition: string)

  datatype ToolCall = ToolCall(id: string, name: string, arguments: string)

  datatype StopReason = Stop | Length | ToolUse | Error | Aborted

  datatype Message =
    | System(text: string, toolsAdded: seq<Tool>, toolsRemoved: seq<string>)
    | User(text: string)
    | Assistant(text: string, toolCalls: seq<ToolCall>, stopReason: StopReason)
    | ToolResult(call: ToolCall, content: string, isError: bool)
    | Custom(text: string)

  datatype ToolStateChanges = ToolStateChanges(toolsAdded: seq<Tool>, toolsRemoved: seq<string>)

  const NO_CHANGES := ToolStateChanges([], [])

  // ---------- Replay of system messages ----------

  /** `Map.set`: an existing name keeps its place. */
  function SetTool(tools: seq<Tool>, tool: Tool): seq<Tool> {
    if tools == [] then [tool]
    else if tools[0].name == tool.name then [tool] + tools[1..]
    else [tools[0]] + SetTool(tools[1..], tool)
  }

  /** `Map.delete`. */
  function DeleteTool(tools: seq<Tool>, name: string): seq<Tool> {
    if tools == [] then []
    else if tools[0].name == name then tools[1..]
    else [tools[0]] + DeleteTool(tools[1..], name)
  }

  function DeleteTools(tools: seq<Tool>, names: seq<string>): seq<Tool>
    decreases |names|
  {
    if names == [] then tools else DeleteTools(DeleteTool(tools, names[0]), names[1..])
  }

  function SetTools(tools: seq<Tool>, added: seq<Tool>): seq<Tool>
    decreases |added|
  {
    if added == [] then tools else SetTools(SetTool(tools, added[0]), added[1..])
  }

  function ApplyMessage(tools: seq<Tool>, message: Message): seq<Tool> {
    if message.System? then SetTools(DeleteTools(tools, message.toolsRemoved), message.toolsAdded) else tools
  }

  function Replay(tools: seq<Tool>, messages: seq<Message>): seq<Tool>
    decreases |messages|
  {
    if messages == [] then tools else Replay(ApplyMessage(tools, messages[0]), messages[1..])
  }

  /** `getCurrentTools`: the tools available after applying every transcript delta in order. */
  function CurrentTools(messages: seq<Message>): seq<Tool> {
    Replay([], messages)
  }

  /** A tool list read as a map from name to definition; the last of several entries wins. */
  function Declared(tools: seq<Tool>): map<string, string> {
    if tools == [] then map[]
    else map[tools[0].name := tools[0].definition] + Declared(tools[1..])
  }

  predicate Has(declared: map<string, string>, tool: Tool) {
    tool.name in declared && declared[tool.name] == tool.definition
  }

  /** The entries of `tools` that `declared` does not already hold with the same definition. */
  function Missing(tools: seq<Tool>, declared: map<string, string>): seq<Tool> {
    if tools == [] then []
    else (if Has(declared, tools[0]) then [] else [tools[0]]) + Missing(tools[1..], declared)
  }

  function Names(tools: seq<Tool>): seq<string> {
    if tools == [] then [] else [tools[0].name] + Names(tools[1..])
  }

  /** `getToolStateChanges`: a changed definition is a removal followed by an addition. */
  function ToolChanges(previous: seq<Tool>, current: seq<Tool>): ToolStateChanges {
    ToolStateChanges(Missing(current, Declared(previous)), Names(Missing(previous, Declared(current))))
  }

  // ---------- declareToolChanges ----------

  function WithToolChanges(message: Message, changes: ToolStateChanges): Message
    requires message.System?
  {
    message.(toolsAdded := changes.toolsAdded, toolsRemoved := changes.toolsRemoved)
  }

  function LastSystem(messages: seq<Message>): (index: int)
    ensures -1 <= index < |messages|
    ensures index >= 0 ==> messages[index].System?
    ensures forall i | index < i < |messages| :: !messages[i].System?
  {
    if messages == [] then -1
    else if messages[|messages| - 1].System? then |messages| - 1
    else LastSystem(messages[..|messages| - 1])
  }

  lemma {:induction false} LastSystemUnique(messages: seq<Message>, k: int)
    requires -1 <= k < |messages|
    requires k >= 0 ==> messages[k].System?
    requires forall i | k < i < |messages| :: !messages[i].System?
    ensures LastSystem(messages) == k
  {
    if messages != [] && k < |messages| - 1 {
      LastSystemUnique(messages[..|messages| - 1], k);
    }
  }

  /** The pending messages with the tool fields of the last system message taken as intent and dropped. */
  function Baseline(pending: seq<Message>): seq<Message> {
    var k := LastSystem(pending);
    if k < 0 then pending else pending[k := WithToolChanges(pending[k], NO_CHANGES)]
  }

  function PendingChanges(context: seq<Message>, tools: seq<Tool>, pending: seq<Message>): ToolStateChanges {
    ToolChanges(CurrentTools(context + Baseline(pending)), tools)
  }

  /** The messages that are appended instead of `pending` when `tools` is what can be executed. */
  function Declare(context: seq<Message>, tools: seq<Tool>, pending: seq<Message>): seq<Message> {
    var k := LastSystem(pending);
    var changes := PendingChanges(context, tools, pending);
    if k >= 0 then
      if changes == NO_CHANGES && pending[k].toolsAdded == [] && pending[k].toolsRemoved == [] then pending
      else pending[k := WithToolChanges(pending[k], changes)]
    else if changes == NO_CHANGES then pending
    else [System("", changes.toolsAdded, changes.toolsRemoved)] + pending
  }

  /** `findIndex` of the first message that is not a system message, or the length. */
  function FirstNonSystem(messages: seq<Message>): (index: nat)
    ensures index <= |messages|
    ensures index < |messages| ==> !messages[index].System?
    ensures forall i | 0 <= i < index :: messages[i].System?
  {
    if messages == [] || !messages[0].System? then 0 else 1 + FirstNonSystem(messages[1..])
  }

  method DeclareToolChanges(context: seq<Message>, tools: seq<Tool>, pending: seq<Message>)
    returns (result: seq<Message>)
    ensures result == Declare(context, tools, pending)
  {
    var systemIndex := -1;
    var i := |pending| - 1;
    while i >= 0
      invariant -1 <= i < |pending|
      invariant systemIndex == -1
      invariant forall j | i < j < |pending| :: !pending[j].System?
    {
      if pending[i].System? {
        systemIndex := i;
        break;
      }
      i := i - 1;
    }
    LastSystemUnique(pending, systemIndex);
    var baseline := if systemIndex >= 0
      then pending[systemIndex := WithToolChanges(pending[systemIndex], NO_CHANGES)] else pending;
    var changes := ToolChanges(CurrentTools(context + baseline), tools);
    var same := changes.toolsAdded == [] && changes.toolsRemoved == [];
    if systemIndex >= 0 {
      if same && pending[systemIndex].toolsAdded == [] && pending[systemIndex].toolsRemoved == [] {
        return pending;
      }
      return baseline[systemIndex := WithToolChanges(pending[systemIndex], changes)];
    }
    if same {
      return pending;
    }
    var update := System("", changes.toolsAdded, changes.toolsRemoved);
    var index := FirstNonSystem(pending);
    result := pending[..index] + [update] + pending[index..];
  }

  // ---------- What replaying the declared messages yields ----------

  predicate DistinctNames(tools: seq<Tool>) {
    tools == [] || (tools[0].name !in Declared(tools[1..]) && DistinctNames(tools[1..]))
  }

  lemma {:induction false} SetToolDeclares(tools: seq<Tool>, tool: Tool)
    requires DistinctNames(tools)
    ensures DistinctNames(SetTool(tools, tool))
    ensures Declared(SetTool(tools, tool)) == Declared(tools)[tool.name := tool.definition]
  {
    if tools != [] && tools[0].name != tool.name {
      SetToolDeclares(tools[1..], tool);
      assert SetTool(tools, tool)[1..] == SetTool(tools[1..], tool);
    }
  }

  lemma {:induction false} DeleteToolDeclares(tools: seq<Tool>, name: string)
    requires DistinctNames(tools)
    ensures DistinctNames(DeleteTool(tools, name))
    ensures Declared(DeleteTool(tools, name)) == Declared(tools) - {name}
  {
    if tools != [] && tools[0].name != name {
      DeleteToolDeclares(tools[1..], name);
      assert DeleteTool(tools, name)[1..] == DeleteTool(tools[1..], name);
    }
  }

  lemma PutThenAll(m: map<string, string>, name: string, definition: string, rest: map<string, string>)
    ensures m[name := definition] + rest == m + (map[name := definition] + rest)
  {
  }

  lemma {:induction false} SetToolsDeclares(tools: seq<Tool>, added: seq<Tool>)
    requires DistinctNames(tools)
    ensures DistinctNames(SetTools(tools, added))
    ensures Declared(SetTools(tools, added)) == Declared(tools) + Declared(added)
    decreases |added|
  {
    if added != [] {
      SetToolDeclares(tools, added[0]);
      hide DistinctNames, SetTool;
      SetToolsDeclares(SetTool(tools, added[0]), added[1..]);
      PutThenAll(Declared(tools), added[0].name, added[0].definition, Declared(added[1..]));
    }
  }

  lemma {:induction false} DeleteToolsDeclares(tools: seq<Tool>, names: seq<string>)
    requires DistinctNames(tools)
    ensures DistinctNames(DeleteTools(tools, names))
    ensures Declared(DeleteTools(tools, names)) == Declared(tools) - (set n | n in names)
    decreases |names|
  {
    hide DistinctNames, Declared, DeleteTool;
    if names != [] {
      DeleteToolDeclares(tools, names[0]);
      DeleteToolsDeclares(DeleteTool(tools, names[0]), names[1..]);
      var rest := set x | x in names[1..];
      assert (set x | x in names) == {names[0]} + rest;
      assert (Declared(tools) - {names[0]}) - rest == Declared(tools) - ({names[0]} + rest);
    }
  }

  lemma {:induction false} ReplayDistinct(tools: seq<Tool>, messages: seq<Message>)
    requires DistinctNames(tools)
    ensures DistinctNames(Replay(tools, messages))
    decreases |messages|
  {
    if messages != [] {
      if messages[0].System? {
        DeleteToolsDeclares(tools, messages[0].toolsRemoved);
        SetToolsDeclares(DeleteTools(tools, messages[0].toolsRemoved), messages[0].toolsAdded);
      }
      ReplayDistinct(ApplyMessage(tools, messages[0]), messages[1..]);
    }
  }

  lemma {:induction false} ReplayConcat(tools: seq<Tool>, a: seq<Message>, b: seq<Message>)
    ensures Replay(tools, a + b) == Replay(Replay(tools, a), b)
    decreases |a|
  {
    if a == [] {
      assert a + b == b;
    } else {
      assert (a + b)[1..] == a[1..] + b;
      ReplayConcat(ApplyMessage(tools, a[0]), a[1..], b);
    }
  }

  lemma {:induction false} ReplayNoSystem(tools: seq<Tool>, messages: seq<Message>)
    requires forall m | m in messages :: !m.System?
    ensures Replay(tools, messages) == tools
  {
    if messages != [] {
      ReplayNoSystem(tools, messages[1..]);
    }
  }

  /** Which names are among the missing entries, and with which definition. */
  lemma {:induction false} MissingDeclares(tools: seq<Tool>, declared: map<string, string>, n: string)
    ensures var all, missing := Declared(tools), Declared(Missing(tools, declared));
      && (n !in all ==> n !in missing)
      && (n in all && !Has(declared, Tool(n, all[n])) ==> n in missing && missing[n] == all[n])
      && (n in all && Has(declared, Tool(n, all[n])) ==>
            && (n in missing <==> exists t :: t in tools && t.name == n && t.definition != all[n])
            && (n in missing ==> missing[n] != all[n]))
  {
    if tools != [] {
      MissingDeclares(tools[1..], declared, n);
      var rest := Missing(tools[1..], declared);
      assert Has(declared, tools[0]) ==> Missing(tools, declared) == rest;
      assert !Has(declared, tools[0]) ==> Missing(tools, declared)[1..] == rest;
      assert forall t :: t in tools <==> t == tools[0] || t in tools[1..];
      assert n !in Declared(tools[1..]) ==> !exists t :: t in tools[1..] && t.name == n by { DeclaredNames(tools[1..]); }
    }
  }

  lemma {:induction false} DeclaredNames(tools: seq<Tool>)
    ensures forall t | t in tools :: t.name in Declared(tools)
  {
    if tools != [] { DeclaredNames(tools[1..]); }
  }

  /** No entry of `tools` redefines a name whose effective (last) definition is declared already. */
  ghost predicate ShadowFree(declared: map<string, string>, tools: seq<Tool>) {
    forall t | t in tools ::
      t.name in Declared(tools) && Has(declared, Tool(t.name, Declared(tools)[t.name])) ==>
        t.definition == Declared(tools)[t.name]
  }

  function Changed(previous: seq<Tool>, current: seq<Tool>): seq<Tool> {
    var changes := ToolChanges(previous, current);
    SetTools(DeleteTools(previous, changes.toolsRemoved), changes.toolsAdded)
  }

  lemma {:induction false} RemovedNames(previous: seq<Tool>, declared: map<string, string>, n: string)
    requires DistinctNames(previous)
    ensures n in Names(Missing(previous, declared)) <==>
            n in Declared(previous) && !Has(declared, Tool(n, Declared(previous)[n]))
  {
    if previous != [] {
      RemovedNames(previous[1..], declared, n);
      var rest := Missing(previous[1..], declared);
      assert Has(declared, previous[0]) ==> Missing(previous, declared) == rest;
      assert !Has(declared, previous[0]) ==> Missing(previous, declared)[1..] == rest;
    }
  }

  lemma ChangedAt(previous: seq<Tool>, current: seq<Tool>, n: string)
    requires DistinctNames(previous)
    ensures var after, target := Declared(Changed(previous, current)), Declared(current);
      if n !in target then n !in after
      else (n in after && after[n] == target[n]) <==>
        (Has(Declared(previous), Tool(n, target[n])) ==>
          forall t | t in current && t.name == n :: t.definition == target[n])
  {
    var changes := ToolChanges(previous, current);
    DeleteToolsDeclares(previous, changes.toolsRemoved);
    SetToolsDeclares(DeleteTools(previous, changes.toolsRemoved), changes.toolsAdded);
    MissingDeclares(current, Declared(previous), n);
    RemovedNames(previous, Declared(current), n);
  }

  /** Applying the computed changes gives the target exactly when the target list is shadow-free. */
  lemma ChangesReachTarget(previous: seq<Tool>, current: seq<Tool>)
    requires DistinctNames(previous)
    ensures Declared(Changed(previous, current)) == Declared(current) <==> ShadowFree(Declared(previous), current)
  {
    var after, target := Declared(Changed(previous, current)), Declared(current);
    DeclaredNames(current);
    forall n ensures n !in target ==> n !in after
      ensures n in target ==> ((n in after && after[n] == target[n]) <==>
        (Has(Declared(previous), Tool(n, target[n])) ==>
          forall t | t in current && t.name == n :: t.definition == target[n]))
    {
      ChangedAt(previous, current, n);
    }
    if ShadowFree(Declared(previous), current) {
      assert forall n | n in target :: n in after && after[n] == target[n];
    }
    if after == target {
      forall t | t in current ensures Has(Declared(previous), Tool(t.name, target[t.name])) ==> t.definition == target[t.name] {
        assert t.name in after;
      }
    }
  }

  lemma ReplayOne(tools: seq<Tool>, m: Message, rest: seq<Message>)
    requires forall x | x in rest :: !x.System?
    ensures Replay(tools, [m] + rest) == ApplyMessage(tools, m)
  {
    assert ([m] + rest)[1..] == rest;
    ReplayNoSystem(ApplyMessage(tools, m), rest);
  }

  /** Replaying the declared messages is applying the changes to the replayed baseline. */
  lemma DeclareReplays(context: seq<Message>, tools: seq<Tool>, pending: seq<Message>)
    ensures CurrentTools(context + Declare(context, tools, pending))
            == Changed(CurrentTools(context + Baseline(pending)), tools)
  {
    var k := LastSystem(pending);
    var changes := PendingChanges(context, tools, pending);
    var out := Declare(context, tools, pending);
    if k >= 0 {
      var head, rest := context + pending[..k], pending[k + 1..];
      assert out[k] == WithToolChanges(pending[k], changes);
      assert context + out == head + ([WithToolChanges(pending[k], changes)] + rest);
      assert context + Baseline(pending) == head + ([WithToolChanges(pending[k], NO_CHANGES)] + rest);
      ReplayConcat([], head, [WithToolChanges(pending[k], changes)] + rest);
      ReplayConcat([], head, [WithToolChanges(pending[k], NO_CHANGES)] + rest);
      ReplayOne(Replay([], head), WithToolChanges(pending[k], changes), rest);
      ReplayOne(Replay([], head), WithToolChanges(pending[k], NO_CHANGES), rest);
    } else {
      ReplayConcat([], context, pending);
      ReplayConcat([], context, out);
      ReplayNoSystem(Replay([], context), pending);
      ReplayOne(Replay([], context), System("", changes.toolsAdded, changes.toolsRemoved), pending);
    }
  }

  /** Replaying all system messages yields the executable tools, for any pending list, exactly when no
      tool name is listed twice with an earlier definition that differs from an already declared last one. */
  lemma DeclareYieldsExecutableTools(context: seq<Message>, tools: seq<Tool>, pending: seq<Message>)
    ensures Declared(CurrentTools(context + Declare(context, tools, pending))) == Declared(tools) <==>
            ShadowFree(Declared(CurrentTools(context + Baseline(pending))), tools)
  {
    ReplayDistinct([], context + Baseline(pending));
    DeclareReplays(context, tools, pending);
    ChangesReachTarget(CurrentTools(context + Baseline(pending)), tools);
  }

  lemma {:induction false} DistinctNamesMeanDefinitions(tools: seq<Tool>)
    requires DistinctNames(tools)
    ensures forall t | t in tools :: Has(Declared(tools), t)
  {
    if tools != [] {
      DistinctNamesMeanDefinitions(tools[1..]);
      DeclaredNames(tools[1..]);
      forall t | t in tools ensures Has(Declared(tools), t) {
        assert t == tools[0] || t in tools[1..];
      }
    }
  }

  /** With pairwise distinct tool names the replay always yields the executable tools. */
  lemma DistinctToolsAreAlwaysDeclared(context: seq<Message>, tools: seq<Tool>, pending: seq<Message>)
    requires DistinctNames(tools)
    ensures Declared(CurrentTools(context + Declare(context, tools, pending))) == Declared(tools)
  {
    DistinctNamesMeanDefinitions(tools);
    DeclareYieldsExecutableTools(context, tools, pending);
  }

  /** A list that repeats a name: the tool the replay declares is not the last one listed. */
  lemma RepeatedToolIsMisdeclared()
    ensures var context, tools := [System("", [Tool("grep", "new")], [])], [Tool("grep", "old"), Tool("grep", "new")];
            Declared(CurrentTools(context + Declare(context, tools, []))) != Declared(tools)
  {
    var context, tools := [System("", [Tool("grep", "new")], [])], [Tool("grep", "old"), Tool("grep", "new")];
    DeclareYieldsExecutableTools(context, tools, []);
    assert context + Baseline([]) == context;
    var latest := [Tool("grep", "new")];
    assert DeleteTools([], []) == [] && SetTools([], latest) == latest by { assert latest[1..] == []; }
    assert CurrentTools(context) == latest by { assert context[1..] == []; }
    assert Declared(latest) == map["grep" := "new"] by { assert latest[1..] == []; }
    assert Declared(tools) == map["grep" := "new"] by { assert tools[1..] == latest; }
    var t := tools[0];
    assert t in tools && Declared(tools)[t.name] == "new";
    assert !ShadowFree(Declared(CurrentTools(context + Baseline([]))), tools);
  }

  /** A message with its tool fields erased. */
  function Erased(m: Message): Message {
    if m.System? then WithToolChanges(m, NO_CHANGES) else m
  }

  /** `out` is `pending` up to the tool fields of system messages, or `pending` behind one new update. */
  ghost predicate SameModuloTools(pending: seq<Message>, out: seq<Message>) {
    || (|out| == |pending| && forall i | 0 <= i < |pending| :: Erased(out[i]) == Erased(pending[i]))
    || (|out| == |pending| + 1 && out[0].System? && Erased(out[0]) == System("", [], [])
        && out[1..] == pending && LastSystem(pending) == -1)
  }

  /** Every other message and the order of the input are kept, and a second application changes nothing. */
  lemma DeclareKeepsMessages(context: seq<Message>, tools: seq<Tool>, pending: seq<Message>)
    ensures var out := Declare(context, tools, pending);
            SameModuloTools(pending, out)
            && (forall i | 0 <= i < |pending| && |out| == |pending| && i != LastSystem(pending) :: out[i] == pending[i])
    ensures var out := Declare(context, tools, pending);
            if exists m :: m in pending && m.System? then
              && |out| == |pending|
              && forall i | 0 <= i < |pending| ::
                   || out[i] == pending[i]
                   || (out[i].System? && pending[i].System? && out[i].text == pending[i].text)
            else out == pending || (out != [] && out[0].System? && out[0].text == "" && out[1..] == pending)
  {
    if m :| m in pending && m.System? {
      var i :| 0 <= i < |pending| && pending[i] == m;
      assert LastSystem(pending) >= i;
    }
  }

  lemma EmptyUpdateReplaysNothing(context: seq<Message>, pending: seq<Message>)
    requires forall m | m in pending :: !m.System?
    ensures CurrentTools(context + ([System("", [], [])] + pending)) == CurrentTools(context + pending)
  {
    ReplayConcat([], context, [System("", [], [])] + pending);
    ReplayConcat([], context, pending);
    ReplayOne(Replay([], context), System("", [], []), pending);
    ReplayNoSystem(Replay([], context), pending);
  }

  lemma DeclareIsIdempotent(context: seq<Message>, tools: seq<Tool>, pending: seq<Message>)
    ensures var out := Declare(context, tools, pending); Declare(context, tools, out) == out
  {
    var k := LastSystem(pending);
    var out := Declare(context, tools, pending);
    if k >= 0 {
      LastSystemUnique(out, k);
      assert Baseline(out) == Baseline(pending);
    } else if out != pending {
      LastSystemUnique(out, 0);
      assert Baseline(out) == [System("", [], [])] + pending;
      EmptyUpdateReplaysNothing(context, pending);
    }
  }
}
