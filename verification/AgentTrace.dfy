/**
 * The bracket discipline of the agent's event stream, as an automaton that is
 * independent of the loop: one agent bracket, alternating turns, at most one
 * open message, every tool update and end inside its own tool bracket, and a
 * side-effecting tool never open together with another tool.
 */
module AgentTrace {
  import opened Wrappers
  import opened AgentTypes

  datatype Phase = NotStarted | InAgent | Over

  /**
   * What is open after a prefix of the events. `tools` counts the ids of the
   * open tool executions; `exclusive` says that the only open one has side effects.
   */
  datatype Bracket = Bracket(
    phase: Phase, turn: bool, message: bool, tools: multiset<string>, exclusive: bool)

  const Fresh := Bracket(NotStarted, false, false, multiset{}, false)

  /** A turn is open and nothing inside it is. */
  const InTurn := Bracket(InAgent, true, false, multiset{}, false)

  const Between := Bracket(InAgent, false, false, multiset{}, false)

  const Closed := Bracket(Over, false, false, multiset{}, false)

  function Accept(tools: seq<Tool>, b: Bracket, e: AgentEvent): Option<Bracket> {
    match e
    case AgentStart =>
      if b.phase.NotStarted? then Some(b.(phase := InAgent)) else None
    case AgentEnd(_) =>
      if b == Between then Some(b.(phase := Over)) else None
    case TurnStart =>
      if b == Between then Some(b.(turn := true)) else None
    case TurnEnd(_, _) =>
      if b == InTurn then Some(b.(turn := false)) else None
    case MessageStart(_) =>
      if b.turn && !b.message then Some(b.(message := true)) else None
    case MessageUpdate(_) =>
      if b.message then Some(b) else None
    case MessageEnd(_) =>
      if b.message then Some(b.(message := false)) else None
    case ToolStart(call) =>
      if !b.turn || b.message || b.exclusive then None
      else if HasSideEffects(tools, call.name) && b.tools != multiset{} then None
      else Some(b.(tools := b.tools + multiset{call.id}, exclusive := HasSideEffects(tools, call.name)))
    case ToolUpdate(call, _) =>
      if call.id in b.tools then Some(b) else None
    case ToolEnd(id, _, _) =>
      if id in b.tools then Some(b.(tools := b.tools - multiset{id}, exclusive := false)) else None
  }

  function AcceptAll(tools: seq<Tool>, b: Bracket, log: seq<AgentEvent>): Option<Bracket>
    decreases log
  {
    if log == [] then Some(b)
    else match Accept(tools, b, log[0])
      case None => None
      case Some(b') => AcceptAll(tools, b', log[1..])
  }

  lemma {:induction false} AcceptAppend(tools: seq<Tool>, b: Bracket, x: seq<AgentEvent>, y: seq<AgentEvent>)
    ensures AcceptAll(tools, b, x + y) ==
            match AcceptAll(tools, b, x)
            case None => None
            case Some(b') => AcceptAll(tools, b', y)
    decreases x
  {
    if x == [] {
      assert x + y == y;
    } else {
      assert (x + y)[1..] == x[1..] + y;
      match Accept(tools, b, x[0])
      case None =>
      case Some(b') => AcceptAppend(tools, b', x[1..], y);
    }
  }

  lemma {:induction false} MessageEventsAccepted(tools: seq<Tool>, b: Bracket, messages: seq<Message>)
    requires b.turn && !b.message
    ensures AcceptAll(tools, b, MessageEvents(messages)) == Some(b)
  {
    if messages != [] {
      var m := messages[0];
      var head := [MessageStart(m), MessageEnd(m)];
      assert head[1..] == [MessageEnd(m)] && [MessageEnd(m)][1..] == [];
      assert AcceptAll(tools, b.(message := true), [MessageEnd(m)]) == Some(b);
      assert AcceptAll(tools, b, head) == Some(b);
      AcceptAppend(tools, b, head, MessageEvents(messages[1..]));
      MessageEventsAccepted(tools, b, messages[1..]);
    }
  }

  // ---------------------------------------------------------------------
  // What acceptance means for tools
  // ---------------------------------------------------------------------

  /** An open tool, alone if it has side effects. */
  predicate OpenTool(tools: seq<Tool>, b: Bracket, call: ToolCall) {
    call.id in b.tools && (HasSideEffects(tools, call.name) ==> b.exclusive && b.tools == multiset{call.id})
  }

  predicate Ends(e: AgentEvent, id: string) {
    e.ToolEnd? && e.toolCallId == id
  }

  lemma {:induction false} StaysOpenOnce(tools: seq<Tool>, b: Bracket, e: AgentEvent, call: ToolCall)
    requires Accept(tools, b, e).Some? && OpenTool(tools, b, call) && !Ends(e, call.id)
    ensures OpenTool(tools, Accept(tools, b, e).value, call)
  {
  }

  lemma {:induction false} StaysOpen(tools: seq<Tool>, b: Bracket, log: seq<AgentEvent>, call: ToolCall)
    requires AcceptAll(tools, b, log).Some? && OpenTool(tools, b, call)
    requires forall k | 0 <= k < |log| :: !Ends(log[k], call.id)
    ensures OpenTool(tools, AcceptAll(tools, b, log).value, call)
    decreases log
  {
    if log != [] {
      StaysOpenOnce(tools, b, log[0], call);
      StaysOpen(tools, Accept(tools, b, log[0]).value, log[1..], call);
    }
  }

  lemma {:induction false} OpensTool(tools: seq<Tool>, b: Bracket, call: ToolCall)
    requires Accept(tools, b, ToolStart(call)).Some?
    ensures OpenTool(tools, Accept(tools, b, ToolStart(call)).value, call)
  {
  }

  lemma {:induction false} RefusesSecond(tools: seq<Tool>, b: Bracket, call: ToolCall, second: ToolCall)
    requires OpenTool(tools, b, call) && !(DeclaredReadOnly(tools, call.name) && DeclaredReadOnly(tools, second.name))
    ensures Accept(tools, b, ToolStart(second)).None?
  {
    ReadOnlyIff(tools, call.name);
    ReadOnlyIff(tools, second.name);
  }

  /** Between the starts of two calls the first one ends, unless both tools are declared read-only. */
  lemma {:induction false} NoOverlap(tools: seq<Tool>, b: Bracket, log: seq<AgentEvent>, i: nat, j: nat)
    requires AcceptAll(tools, b, log).Some?
    requires i < j < |log| && log[i].ToolStart? && log[j].ToolStart?
    requires !(DeclaredReadOnly(tools, log[i].call.name) && DeclaredReadOnly(tools, log[j].call.name))
    ensures exists m | i < m < j :: Ends(log[m], log[i].call.id)
  {
    var b1 := AcceptedAt(tools, b, log, i);
    OpensTool(tools, b1, log[i].call);
    var rest, n := log[i..][1..], j - i - 1;
    assert rest[n] == log[j];
    var k := EndsBefore(tools, Accept(tools, b1, log[i]).value, rest, n, log[i].call);
    assert rest[k] == log[i + 1 + k];
  }

  /** An open call ends before the next one starts. */
  lemma {:induction false} EndsBefore(tools: seq<Tool>, b: Bracket, log: seq<AgentEvent>, n: nat, call: ToolCall)
    returns (k: nat)
    requires AcceptAll(tools, b, log).Some? && OpenTool(tools, b, call)
    requires n < |log| && log[n].ToolStart?
    requires !(DeclaredReadOnly(tools, call.name) && DeclaredReadOnly(tools, log[n].call.name))
    ensures k < n && Ends(log[k], call.id)
  {
    var b' := AcceptedAt(tools, b, log, n);
    if m: nat :| m < n && Ends(log[m], call.id) {
      k := m;
    } else {
      StaysOpen(tools, b, log[..n], call);
      RefusesSecond(tools, b', call, log[n].call);
    }
  }

  lemma {:induction false} AcceptedAt(tools: seq<Tool>, b: Bracket, log: seq<AgentEvent>, k: nat) returns (b': Bracket)
    requires AcceptAll(tools, b, log).Some? && k < |log|
    ensures AcceptAll(tools, b, log[..k]) == Some(b') && Accept(tools, b', log[k]).Some?
    ensures AcceptAll(tools, Accept(tools, b', log[k]).value, log[k..][1..]).Some?
  {
    assert log == log[..k] + log[k..];
    AcceptAppend(tools, b, log[..k], log[k..]);
    b' := AcceptAll(tools, b, log[..k]).value;
  }

  // ---------------------------------------------------------------------
  // What acceptance means for all brackets: counting starts and ends
  // ---------------------------------------------------------------------

  datatype Kind = AgentKind | TurnKind | MessageKind | ToolKind(id: string)

  /** 1 for an event that opens a bracket of the kind, -1 for one that closes it. */
  function Change(kind: Kind, e: AgentEvent): int {
    match kind
    case AgentKind => if e.AgentStart? then 1 else if e.AgentEnd? then -1 else 0
    case TurnKind => if e.TurnStart? then 1 else if e.TurnEnd? then -1 else 0
    case MessageKind => if e.MessageStart? then 1 else if e.MessageEnd? then -1 else 0
    case ToolKind(id) =>
      if e.ToolStart? && e.call.id == id then 1 else if e.ToolEnd? && e.toolCallId == id then -1 else 0
  }

  /** How many brackets of the kind a log leaves open. */
  function Depth(kind: Kind, log: seq<AgentEvent>): int {
    if log == [] then 0 else Depth(kind, log[..|log| - 1]) + Change(kind, log[|log| - 1])
  }

  function Opened(b: Bracket, kind: Kind): int {
    match kind
    case AgentKind => if b.phase.InAgent? then 1 else 0
    case TurnKind => if b.turn then 1 else 0
    case MessageKind => if b.message then 1 else 0
    case ToolKind(id) => b.tools[id]
  }

  lemma {:induction false} OpenedOnce(tools: seq<Tool>, b: Bracket, e: AgentEvent, kind: Kind)
    requires Accept(tools, b, e).Some?
    ensures Opened(Accept(tools, b, e).value, kind) == Opened(b, kind) + Change(kind, e)
  {
  }

  lemma {:induction false} AcceptSnoc(tools: seq<Tool>, b: Bracket, log: seq<AgentEvent>, e: AgentEvent)
    requires AcceptAll(tools, b, log).Some?
    ensures AcceptAll(tools, b, log + [e]) == Accept(tools, AcceptAll(tools, b, log).value, e)
  {
    AcceptAppend(tools, b, log, [e]);
    assert [e][1..] == [];
  }

  lemma {:induction false} DepthIs(tools: seq<Tool>, log: seq<AgentEvent>, kind: Kind)
    requires AcceptAll(tools, Fresh, log).Some?
    ensures Depth(kind, log) == Opened(AcceptAll(tools, Fresh, log).value, kind)
    decreases |log|
  {
    if log != [] {
      var n := |log| - 1;
      var b := AcceptedAt(tools, Fresh, log, n);
      DepthIs(tools, log[..n], kind);
      OpenedOnce(tools, b, log[n], kind);
      AcceptSnoc(tools, Fresh, log[..n], log[n]);
      assert log == log[..n] + [log[n]];
    }
  }

  /** Nothing is open inside a turn. */
  predicate Quiet(log: seq<AgentEvent>, id: string) {
    Depth(MessageKind, log) == 0 && Depth(ToolKind(id), log) == 0
  }

  /**
   * In an accepted trace every event stands where it belongs: inside the agent bracket,
   * messages and tools inside a turn, updates and ends inside their own brackets, and turns
   * start and end with no message and no tool open, whatever `id` is looked at.
   */
  lemma {:induction false} Discipline(tools: seq<Tool>, log: seq<AgentEvent>, k: nat, id: string)
    requires AcceptAll(tools, Fresh, log).Some? && k < |log|
    ensures Depth(AgentKind, log[..k]) == if log[k].AgentStart? then 0 else 1
    ensures match log[k]
      case AgentStart => Depth(TurnKind, log[..k]) == 0 && Quiet(log[..k], id)
      case AgentEnd(_) => Depth(TurnKind, log[..k]) == 0 && Quiet(log[..k], id)
      case TurnStart => Depth(TurnKind, log[..k]) == 0 && Quiet(log[..k], id)
      case TurnEnd(_, _) => Depth(TurnKind, log[..k]) == 1 && Quiet(log[..k], id)
      case MessageStart(_) => Depth(TurnKind, log[..k]) == 1 && Depth(MessageKind, log[..k]) == 0
      case MessageUpdate(_) => Depth(TurnKind, log[..k]) == 1 && Depth(MessageKind, log[..k]) == 1
      case MessageEnd(_) => Depth(TurnKind, log[..k]) == 1 && Depth(MessageKind, log[..k]) == 1
      case ToolStart(_) => Depth(TurnKind, log[..k]) == 1 && Depth(MessageKind, log[..k]) == 0
      case ToolUpdate(call, _) => Depth(TurnKind, log[..k]) == 1 && Depth(ToolKind(call.id), log[..k]) > 0
      case ToolEnd(toolCallId, _, _) => Depth(TurnKind, log[..k]) == 1 && Depth(ToolKind(toolCallId), log[..k]) > 0
  {
    var b := AcceptedAt(tools, Fresh, log, k);
    InsideAgent(tools, Fresh, log[..k]);
    DepthIs(tools, log[..k], AgentKind);
    DepthIs(tools, log[..k], TurnKind);
    DepthIs(tools, log[..k], MessageKind);
    DepthIs(tools, log[..k], ToolKind(id));
    match log[k]
    case ToolUpdate(call, _) => DepthIs(tools, log[..k], ToolKind(call.id));
    case ToolEnd(toolCallId, _, _) => DepthIs(tools, log[..k], ToolKind(toolCallId));
    case _ =>
  }

  /** A turn is open only inside the agent bracket, a message or a tool only inside a turn. */
  predicate Nested(b: Bracket) {
    && (b.turn ==> b.phase.InAgent?)
    && (b.message || b.tools != multiset{} ==> b.turn)
  }

  lemma {:induction false} InsideAgent(tools: seq<Tool>, b: Bracket, log: seq<AgentEvent>)
    requires Nested(b) && AcceptAll(tools, b, log).Some?
    ensures Nested(AcceptAll(tools, b, log).value)
    decreases log
  {
    if log != [] {
      InsideAgent(tools, Accept(tools, b, log[0]).value, log[1..]);
    }
  }
}
