/** Messages, tools and events of the agent package (packages/agent/src/types.ts). */
module AgentTypes {
  import opened Wrappers

  datatype ToolCall = ToolCall(id: string, name: string, arguments: string)

  datatype Content =
    | Text(text: string)
    | Thinking(thinking: string)
    | Call(call: ToolCall)

  datatype StopReason = Stop | Length | ToolUse | Error | Aborted

  datatype Message =
    | User(text: string)
    | Custom(role: string, text: string)
    | Assistant(content: seq<Content>, stopReason: StopReason, errorMessage: Option<string>)
    | ToolResult(toolCallId: string, toolName: string, output: string, details: string, isError: bool)

  /** `sideEffects` is optional in the source; `None` means the tool did not declare it. */
  datatype Tool = Tool(name: string, sideEffects: Option<bool>)

  datatype AgentEvent =
    | AgentStart
    | AgentEnd(messages: seq<Message>)
    | TurnStart
    | TurnEnd(message: Message, toolResults: seq<Message>)
    | MessageStart(message: Message)
    | MessageUpdate(message: Message)
    | MessageEnd(message: Message)
    | ToolStart(call: ToolCall)
    | ToolUpdate(call: ToolCall, partialResult: string)
    | ToolEnd(toolCallId: string, toolName: string, result: Message)

  /** The tool calls of an assistant message, in content order. */
  function ToolCalls(content: seq<Content>): seq<ToolCall> {
    if content == [] then []
    else (if content[0].Call? then [content[0].call] else []) + ToolCalls(content[1..])
  }

  function CallsOf(m: Message): seq<ToolCall> {
    if m.Assistant? then ToolCalls(m.content) else []
  }

  lemma {:induction false} ToolCallsAppend(a: seq<Content>, b: seq<Content>)
    ensures ToolCalls(a + b) == ToolCalls(a) + ToolCalls(b)
  {
    if a == [] {
      assert a + b == b;
    } else {
      assert (a + b)[0] == a[0] && (a + b)[1..] == a[1..] + b;
      ToolCallsAppend(a[1..], b);
      var head := if a[0].Call? then [a[0].call] else [];
      assert ToolCalls(a + b) == head + ToolCalls(a[1..] + b) && ToolCalls(a) == head + ToolCalls(a[1..]);
    }
  }

  /** Every call counts once, in its place; texts and thinking do not count. */
  lemma {:induction false} CallsInPlace(content: seq<Content>, k: nat)
    requires k < |content|
    ensures ToolCalls([]) == [] && match content[k]
      case Call(call) =>
        ToolCalls(content) == ToolCalls(content[..k]) + [call] + ToolCalls(content[k + 1..])
      case Text(_) => ToolCalls(content) == ToolCalls(content[..k]) + ToolCalls(content[k + 1..])
      case Thinking(_) => ToolCalls(content) == ToolCalls(content[..k]) + ToolCalls(content[k + 1..])
  {
    var rest := content[k..];
    assert content == content[..k] + rest && rest[1..] == content[k + 1..];
    ToolCallsAppend(content[..k], rest);
  }

  /** The first tool of that name, as `Array.find` returns it. */
  function FindTool(tools: seq<Tool>, name: string): Option<Tool> {
    if tools == [] then None
    else if tools[0].name == name then Some(tools[0])
    else FindTool(tools[1..], name)
  }

  /** Unknown and undeclared tools count as having side effects. */
  predicate HasSideEffects(tools: seq<Tool>, name: string) {
    var tool := FindTool(tools, name);
    !(tool.Some? && tool.value.sideEffects == Some(false))
  }

  /** The tool at `j` has the name and no tool before it does. */
  predicate FirstNamed(tools: seq<Tool>, name: string, j: nat) {
    j < |tools| && tools[j].name == name && forall i | 0 <= i < j :: tools[i].name != name
  }

  lemma {:induction false} FindToolIff(tools: seq<Tool>, name: string, t: Tool)
    ensures FindTool(tools, name) == Some(t) <==>
            exists j: nat | j < |tools| :: FirstNamed(tools, name, j) && tools[j] == t
  {
    if tools != [] {
      var rest := tools[1..];
      FindToolIff(rest, name, t);
      if tools[0].name == name {
        assert FirstNamed(tools, name, 0);
      } else {
        forall j: nat
          ensures FirstNamed(tools, name, j) <==> j > 0 && FirstNamed(rest, name, j - 1)
        {
          BehindOther(tools, name, j);
        }
        if j: nat :| j < |rest| && FirstNamed(rest, name, j) && rest[j] == t {
          assert FirstNamed(tools, name, j + 1) && tools[j + 1] == t;
        }
        if j: nat :| j < |tools| && FirstNamed(tools, name, j) && tools[j] == t {
          assert FirstNamed(rest, name, j - 1) && rest[j - 1] == t;
        }
      }
    }
  }

  lemma {:induction false} BehindOther(tools: seq<Tool>, name: string, j: nat)
    requires tools != [] && tools[0].name != name
    ensures FirstNamed(tools, name, j) <==> j > 0 && FirstNamed(tools[1..], name, j - 1)
  {
    if j > 0 && FirstNamed(tools[1..], name, j - 1) {
      forall i | 0 <= i < j
        ensures tools[i].name != name
      {
        assert i > 0 ==> tools[1..][i - 1] == tools[i];
      }
    }
  }

  /** The first tool of that name is declared without side effects; unknown and undeclared tools are not. */
  predicate DeclaredReadOnly(tools: seq<Tool>, name: string) {
    exists j: nat | j < |tools| :: FirstNamed(tools, name, j) && tools[j].sideEffects == Some(false)
  }

  lemma {:induction false} ReadOnlyIff(tools: seq<Tool>, name: string)
    ensures !HasSideEffects(tools, name) <==> DeclaredReadOnly(tools, name)
  {
    var tool := FindTool(tools, name);
    if tool.Some? {
      FindToolIff(tools, name, tool.value);
    }
    forall j: nat | j < |tools| && FirstNamed(tools, name, j)
      ensures tool == Some(tools[j])
    {
      FindToolIff(tools, name, tools[j]);
    }
  }

  predicate Known(tools: seq<Tool>, name: string) {
    exists j: nat | j < |tools| :: tools[j].name == name
  }

  lemma {:induction false} KnownIff(tools: seq<Tool>, name: string)
    ensures FindTool(tools, name).Some? <==> Known(tools, name)
  {
    if tools != [] {
      KnownIff(tools[1..], name);
      if j: nat :| j < |tools| && tools[j].name == name {
        assert j > 0 ==> tools[1..][j - 1].name == name;
      }
    }
  }

  /** The messages whose `message_end` event occurs, in event order. */
  function Ended(log: seq<AgentEvent>): seq<Message> {
    if log == [] then []
    else (if log[0].MessageEnd? then [log[0].message] else []) + Ended(log[1..])
  }

  lemma {:induction false} EndedAppend(a: seq<AgentEvent>, b: seq<AgentEvent>)
    ensures Ended(a + b) == Ended(a) + Ended(b)
  {
    if a == [] {
      assert a + b == b;
    } else {
      EndedAppend(a[1..], b);
      assert (a + b)[1..] == a[1..] + b;
    }
  }

  /** The calls whose `tool_execution_start` event occurs, in event order. */
  function Started(log: seq<AgentEvent>): seq<ToolCall> {
    if log == [] then []
    else (if log[0].ToolStart? then [log[0].call] else []) + Started(log[1..])
  }

  lemma {:induction false} StartedAppend(a: seq<AgentEvent>, b: seq<AgentEvent>)
    ensures Started(a + b) == Started(a) + Started(b)
  {
    if a == [] {
      assert a + b == b;
    } else {
      StartedAppend(a[1..], b);
      assert (a + b)[1..] == a[1..] + b;
    }
  }

  /** The messages of the `turn_end` events, in event order. */
  function TurnsEnded(log: seq<AgentEvent>): seq<Message> {
    if log == [] then []
    else (if log[0].TurnEnd? then [log[0].message] else []) + TurnsEnded(log[1..])
  }

  lemma {:induction false} TurnsEndedAppend(a: seq<AgentEvent>, b: seq<AgentEvent>)
    ensures TurnsEnded(a + b) == TurnsEnded(a) + TurnsEnded(b)
  {
    if a == [] {
      assert a + b == b;
    } else {
      TurnsEndedAppend(a[1..], b);
      assert (a + b)[1..] == a[1..] + b;
    }
  }

  /** The start and end events of messages that are pushed without streaming. */
  function MessageEvents(messages: seq<Message>): seq<AgentEvent> {
    if messages == [] then []
    else [MessageStart(messages[0]), MessageEnd(messages[0])] + MessageEvents(messages[1..])
  }

  lemma {:induction false} EndedMessageEvents(messages: seq<Message>)
    ensures Ended(MessageEvents(messages)) == messages && TurnsEnded(MessageEvents(messages)) == []
  {
    if messages != [] {
      var m, rest := messages[0], messages[1..];
      EndedMessageEvents(rest);
      var head := [MessageStart(m), MessageEnd(m)];
      EndedAppend(head, MessageEvents(rest));
      TurnsEndedAppend(head, MessageEvents(rest));
      assert head[1..] == [MessageEnd(m)] && [MessageEnd(m)][1..] == [];
      assert Ended([MessageEnd(m)]) == [m] && TurnsEnded([MessageEnd(m)]) == [];
    }
  }
}
