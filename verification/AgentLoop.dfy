/**
 * `runLoop` and `streamAssistantResponse` (packages/agent/src/agent-loop.ts).
 * A run is recorded as a sequence of turns; `WellRun` says which records the
 * loop can produce, and the theorems about whole runs are about such records.
 */
module AgentLoop {
  import opened Sequences
  import opened Wrappers
  import opened AgentTypes
  import opened AgentTrace
  import opened ToolRuntime
  import opened ToolScheduler
  import opened Mailboxes

  // ---------------------------------------------------------------------
  // Provider streams
  // ---------------------------------------------------------------------

  /** `Final` is `done` or `error`; both carry the response through `result`. */
  datatype StreamEvent = Start(partial: Message) | Update(partial: Message) | Final

  datatype LlmStream = LlmStream(events: seq<StreamEvent>, result: Message)

  /** The events the loop reads: those before the first `done` or `error`. */
  function Before(events: seq<StreamEvent>): seq<StreamEvent> {
    if events == [] || events[0].Final? then [] else [events[0]] + Before(events[1..])
  }

  predicate Finishes(events: seq<StreamEvent>) {
    exists k :: 0 <= k < |events| && events[k].Final?
  }

  function Starts(events: seq<StreamEvent>): nat {
    if events == [] then 0 else (if events[0].Start? then 1 else 0) + Starts(events[1..])
  }

  /** start? update* (done | error) */
  predicate WellFormed(s: LlmStream) {
    s.result.Assistant? && Finishes(s.events) && Starts(Before(s.events)) <= 1
  }

  /** The partial messages a stream has pushed onto the context; updates replace the last. */
  function Partials(pushed: seq<Message>, events: seq<StreamEvent>): seq<Message>
    decreases events
  {
    if events == [] then pushed
    else match events[0]
      case Start(p) => Partials(pushed + [p], events[1..])
      case Update(p) => Partials(if pushed == [] then [] else pushed[|pushed| - 1 := p], events[1..])
      case Final => pushed
  }

  /** What a stream leaves on the context. */
  function Added(s: LlmStream): seq<Message> {
    var pushed := Partials([], s.events);
    if !Finishes(s.events) then pushed
    else if pushed == [] then [s.result]
    else pushed[|pushed| - 1 := s.result]
  }

  lemma {:induction false} PartialsCount(pushed: seq<Message>, events: seq<StreamEvent>)
    ensures |Partials(pushed, events)| == |pushed| + Starts(Before(events))
    decreases events
  {
    if events != [] && !events[0].Final? {
      var e := events[0];
      assert Before(events)[1..] == Before(events[1..]);
      PartialsCount(
        if e.Start? then pushed + [e.partial] else if pushed == [] then [] else pushed[|pushed| - 1 := e.partial],
        events[1..]);
    }
  }

  /**
   * A finishing stream leaves exactly its response on the context if and only if
   * it has at most one `start`.
   */
  lemma {:induction false} StreamAddsResponse(s: LlmStream)
    requires Finishes(s.events)
    ensures Added(s) == [s.result] <==> Starts(Before(s.events)) <= 1
  {
    PartialsCount([], s.events);
  }

  /** Two starts leave a partial message behind. */
  lemma {:induction false} TwoStarts(p: Message, result: Message)
    ensures var s := LlmStream([Start(p), Start(p), Final], result);
            Finishes(s.events) && Added(s) == [p, result] && Added(s) != [s.result]
  {
    var s := LlmStream([Start(p), Start(p), Final], result);
    var es := s.events;
    assert es[2].Final?;
    assert es[1..] == [Start(p), Final] && es[1..][1..] == [Final];
    assert [] + [p] == [p] && [p] + [p] == [p, p];
    assert Partials([p, p], [Final]) == [p, p];
    assert Partials([p], es[1..]) == [p, p];
    assert [p, p][1 := result] == [p, result];
  }

  /** The events pushed for a finishing stream; `open` says whether a partial message is shown. */
  function StreamLog(events: seq<StreamEvent>, result: Message, open: bool): seq<AgentEvent>
    decreases events
  {
    if events == [] then []
    else match events[0]
      case Start(p) => [MessageStart(p)] + StreamLog(events[1..], result, true)
      case Update(p) => (if open then [MessageUpdate(p)] else []) + StreamLog(events[1..], result, open)
      case Final => (if open then [] else [MessageStart(result)]) + [MessageEnd(result)]
  }

  /** Events `from` to `to` are updates. */
  predicate Updates(events: seq<StreamEvent>, from: nat, to: nat) {
    to <= |events| && forall i | from <= i < to :: events[i].Update?
  }

  lemma {:induction false} OpenLog(events: seq<StreamEvent>, result: Message, k: nat)
    requires Updates(events, 0, k) && k < |events| && events[k].Final?
    ensures var log := StreamLog(events, result, true);
            && |log| == k + 1 && log[k] == MessageEnd(result)
            && forall i | 0 <= i < k :: log[i] == MessageUpdate(events[i].partial)
    decreases k
  {
    if k > 0 {
      OpenLog(events[1..], result, k - 1);
    }
  }

  lemma {:induction false} StartedAtOnce(events: seq<StreamEvent>, result: Message, k: nat)
    requires 0 < k < |events| && events[0].Start? && events[k].Final? && Updates(events, 1, k)
    ensures var log := StreamLog(events, result, false);
            && |log| == k + 1 && log[0] == MessageStart(events[0].partial) && log[k] == MessageEnd(result)
            && forall i | 0 < i < k :: log[i] == MessageUpdate(events[i].partial)
  {
    var rest := events[1..];
    OpenLog(rest, result, k - 1);
    assert StreamLog(events, result, false) == [MessageStart(events[0].partial)] + StreamLog(rest, result, true);
  }

  lemma {:induction false} BeforeStart(events: seq<StreamEvent>, result: Message, s: nat)
    requires Updates(events, 0, s)
    ensures StreamLog(events, result, false) == StreamLog(events[s..], result, false)
  {
    if s == 0 {
      assert events[0..] == events;
    } else {
      BeforeStart(events[1..], result, s - 1);
      assert events[1..][s - 1..] == events[s..];
      assert [] + StreamLog(events[1..], result, false) == StreamLog(events[1..], result, false);
    }
  }

  /**
   * The log of a stream that starts at `s` and finishes at `k`: the start, every update
   * behind it, and the end with the response; updates before the start push nothing.
   */
  lemma {:induction false} StartedLog(events: seq<StreamEvent>, result: Message, s: nat, k: nat)
    requires s < k < |events| && events[s].Start? && events[k].Final?
    requires Updates(events, 0, s) && Updates(events, s + 1, k)
    ensures var log := StreamLog(events, result, false);
            && |log| == k - s + 1 && log[0] == MessageStart(events[s].partial) && log[k - s] == MessageEnd(result)
            && forall i | 0 < i < k - s :: log[i] == MessageUpdate(events[s + i].partial)
  {
    BeforeStart(events, result, s);
    StartedAtOnce(events[s..], result, k - s);
  }

  /** A stream that never starts shows its response alone. */
  lemma {:induction false} UnstartedLog(events: seq<StreamEvent>, result: Message, k: nat)
    requires Updates(events, 0, k) && k < |events| && events[k].Final?
    ensures StreamLog(events, result, false) == [MessageStart(result), MessageEnd(result)]
    decreases k
  {
    if k > 0 {
      UnstartedLog(events[1..], result, k - 1);
      assert [] + StreamLog(events[1..], result, false) == StreamLog(events[1..], result, false);
    }
  }

  lemma {:induction false} LastPartial(p: Message, events: seq<StreamEvent>)
    requires Updates(events, 0, |events|)
    ensures Partials([p], events) == [if events == [] then p else events[|events| - 1].partial]
    decreases events
  {
    if events != [] {
      assert [p][0 := events[0].partial] == [events[0].partial];
      LastPartial(events[0].partial, events[1..]);
    }
  }

  /** A stream that starts and breaks off leaves its last partial message. */
  lemma {:induction false} BrokenOffAdds(s: LlmStream)
    requires s.events != [] && s.events[0].Start? && Updates(s.events, 1, |s.events|)
    ensures Added(s) == [s.events[|s.events| - 1].partial]
  {
    var p, rest := s.events[0].partial, s.events[1..];
    assert [] + [p] == [p];
    assert forall k | 0 <= k < |s.events| :: !s.events[k].Final?;
    assert Partials([], s.events) == Partials([p], rest);
    LastPartial(p, rest);
  }

  lemma {:induction false} FinalLogAccepted(tools: seq<Tool>, events: seq<StreamEvent>, result: Message, open: bool)
    requires events != [] && events[0].Final?
    ensures AcceptAll(tools, InTurn.(message := open), StreamLog(events, result, open)) == Some(InTurn)
    ensures Ended(StreamLog(events, result, open)) == [result]
    ensures Started(StreamLog(events, result, open)) == [] && TurnsEnded(StreamLog(events, result, open)) == []
  {
    var last := [MessageEnd(result)];
    assert last[1..] == [];
    assert AcceptAll(tools, InTurn.(message := true), last) == Some(InTurn);
    assert Ended(last) == [result] && Started(last) == [] && TurnsEnded(last) == [];
    if open {
      assert [] + last == last;
    } else {
      assert ([MessageStart(result)] + last)[1..] == last;
    }
  }

  /** A message start or update in front of a log. */
  lemma {:induction false} InFront(tools: seq<Tool>, b: Bracket, e: AgentEvent, log: seq<AgentEvent>)
    requires (e.MessageStart? || e.MessageUpdate?) && Accept(tools, b, e).Some?
    ensures AcceptAll(tools, b, [e] + log) == AcceptAll(tools, Accept(tools, b, e).value, log)
    ensures Ended([e] + log) == Ended(log) && Started([e] + log) == Started(log)
    ensures TurnsEnded([e] + log) == TurnsEnded(log)
  {
    assert ([e] + log)[1..] == log;
    assert [] + Ended(log) == Ended(log) && [] + Started(log) == Started(log);
    assert [] + TurnsEnded(log) == TurnsEnded(log);
  }

  lemma {:induction false} StreamLogAccepted(
      tools: seq<Tool>, events: seq<StreamEvent>, result: Message, open: bool, k: nat)
    requires k < |events| && events[k].Final?
    requires Starts(Before(events)) <= if open then 0 else 1
    ensures AcceptAll(tools, InTurn.(message := open), StreamLog(events, result, open)) == Some(InTurn)
    ensures Ended(StreamLog(events, result, open)) == [result]
    ensures Started(StreamLog(events, result, open)) == [] && TurnsEnded(StreamLog(events, result, open)) == []
    decreases events
  {
    var rest := events[1..];
    match events[0]
    case Start(p) =>
      assert Before(events)[1..] == Before(rest);
      StreamLogAccepted(tools, rest, result, true, k - 1);
      InFront(tools, InTurn, MessageStart(p), StreamLog(rest, result, true));
    case Update(p) =>
      assert Before(events)[1..] == Before(rest);
      StreamLogAccepted(tools, rest, result, open, k - 1);
      if open {
        InFront(tools, InTurn.(message := true), MessageUpdate(p), StreamLog(rest, result, open));
      } else {
        assert [] + StreamLog(rest, result, open) == StreamLog(rest, result, open);
      }
    case Final => FinalLogAccepted(tools, events, result, open);
  }

  // ---------------------------------------------------------------------
  // Turns
  // ---------------------------------------------------------------------

  /**
   * One turn: the messages injected before the response, the context handed to
   * the provider, the response stream, the execution of its tool calls, the
   * steering batch dequeued by the end of the turn, and the follow-up batch if
   * the follow-up queue was polled after it.
   */
  datatype Turn = Turn(
    injected: seq<Message>, context: seq<Message>, stream: LlmStream, execution: Execution,
    polled: seq<Message>, followUp: Option<seq<Message>>, before: World, after: World)
  {
    predicate Failed() {
      stream.result.Assistant? && (stream.result.stopReason.Error? || stream.result.stopReason.Aborted?)
    }

    function Calls(): seq<ToolCall> {
      CallsOf(stream.result)
    }

    /** What the turn appends to the conversation. */
    function Block(): seq<Message> {
      injected + [stream.result] + execution.results
    }

    function Log(): seq<AgentEvent> {
      MessageEvents(injected) + StreamLog(stream.events, stream.result, false) + execution.log
      + [TurnEnd(stream.result, execution.results)]
    }

    function FollowedUp(): seq<Message> {
      if followUp.Some? then followUp.value else []
    }

    /** The batch the next turn injects. */
    function Next(): seq<Message> {
      polled + FollowedUp()
    }
  }

  function Conversation(turns: seq<Turn>): seq<Message> {
    if turns == [] then [] else Conversation(turns[..|turns| - 1]) + turns[|turns| - 1].Block()
  }

  function LoopLog(turns: seq<Turn>): seq<AgentEvent> {
    if turns == [] then []
    else LoopLog(turns[..|turns| - 1]) + (if |turns| > 1 then [TurnStart] else []) + turns[|turns| - 1].Log()
  }

  function Polled(turns: seq<Turn>): seq<Message> {
    if turns == [] then [] else Polled(turns[..|turns| - 1]) + turns[|turns| - 1].polled
  }

  function FollowUpsOf(turns: seq<Turn>): seq<Message> {
    if turns == [] then [] else FollowUpsOf(turns[..|turns| - 1]) + turns[|turns| - 1].FollowedUp()
  }

  function Waiting(first: seq<Message>, turns: seq<Turn>): seq<Message> {
    if turns == [] then first else turns[|turns| - 1].Next()
  }

  lemma {:induction false} Snoc(turns: seq<Turn>, t: Turn)
    ensures (turns + [t])[..|turns + [t]| - 1] == turns
    ensures Conversation(turns + [t]) == Conversation(turns) + t.Block()
    ensures LoopLog(turns + [t]) == LoopLog(turns) + (if turns != [] then [TurnStart] else []) + t.Log()
    ensures Polled(turns + [t]) == Polled(turns) + t.polled
    ensures FollowUpsOf(turns + [t]) == FollowUpsOf(turns) + t.FollowedUp()
  {
    assert (turns + [t])[..|turns + [t]| - 1] == turns;
  }

  /** A turn is closed with its response and its results. */
  lemma {:induction false} LastTurnEnd(turns: seq<Turn>)
    requires turns != []
    ensures var t, log := turns[|turns| - 1], LoopLog(turns);
            log != [] && log[|log| - 1] == TurnEnd(t.stream.result, t.execution.results)
  {
  }

  /** What one turn of a run looks like by itself. */
  ghost predicate WellTurned(rt: Runtime, t: Turn) {
    && WellFormed(t.stream)
    && (t.Failed() ==>
          t.execution == NothingExecuted && t.polled == [] && t.followUp.None? && t.after == t.before)
    && (!t.Failed() ==> Executed(rt, t.Calls(), t.execution, t.before, t.after))
    && (t.Calls() == [] ==> t.execution == NothingExecuted)
    && (t.execution.steering != [] ==> t.polled == t.execution.steering)
    && (t.followUp.Some? ==> !t.Failed() && t.Calls() == [] && t.polled == [])
  }

  /** How turn `k` hangs together with the turns before it. */
  ghost predicate Linked(start: seq<Message>, first: seq<Message>, world: World, turns: seq<Turn>, k: nat)
    requires k < |turns|
  {
    && turns[k].context == start + Conversation(turns[..k]) + turns[k].injected
    && turns[k].injected == Waiting(first, turns[..k])
    && turns[k].before == (if k == 0 then world else turns[k - 1].after)
    && (k > 0 ==> !turns[k - 1].Failed() && (turns[k - 1].Calls() != [] || turns[k].injected != []))
  }

  ghost predicate WellRun(
      rt: Runtime, start: seq<Message>, first: seq<Message>, world: World, turns: seq<Turn>)
  {
    && (forall k | 0 <= k < |turns| :: WellTurned(rt, turns[k]))
    && (forall k {:trigger Linked(start, first, world, turns, k)} | 0 <= k < |turns| ::
          Linked(start, first, world, turns, k))
  }

  /** The loop has left both of its loops. */
  predicate RunOver(turns: seq<Turn>) {
    turns != [] && (turns[|turns| - 1].Failed() || turns[|turns| - 1].followUp == Some([]))
  }

  lemma {:induction false} WellRunSnoc(
      rt: Runtime, start: seq<Message>, first: seq<Message>, world: World, turns: seq<Turn>, t: Turn)
    requires WellRun(rt, start, first, world, turns) && WellTurned(rt, t)
    requires Linked(start, first, world, turns + [t], |turns|)
    ensures WellRun(rt, start, first, world, turns + [t])
  {
    var ts := turns + [t];
    forall k | 0 <= k < |ts|
      ensures WellTurned(rt, ts[k]) && Linked(start, first, world, ts, k)
    {
      if k < |turns| {
        assert WellTurned(rt, turns[k]) && Linked(start, first, world, turns, k);
        LinkedSnoc(start, first, world, turns, t, k);
      }
    }
  }

  lemma {:induction false} LinkedSnoc(
      start: seq<Message>, first: seq<Message>, world: World, turns: seq<Turn>, t: Turn, k: nat)
    requires k < |turns|
    ensures Linked(start, first, world, turns + [t], k) <==> Linked(start, first, world, turns, k)
  {
    assert (turns + [t])[..k] == turns[..k] && (turns + [t])[k] == turns[k];
    assert k > 0 ==> (turns + [t])[k - 1] == turns[k - 1];
  }

  // ---------------------------------------------------------------------
  // The state of a run, as a value
  // ---------------------------------------------------------------------

  /** What a run appends to or replaces, with the queue histories. */
  datatype Snapshot = Snapshot(
    messages: seq<Message>, newMessages: seq<Message>, events: seq<AgentEvent>, world: World,
    steeringTaken: seq<Message>, followUpTaken: seq<Message>,
    past: History)

  /** The turn took the run from `a` to `b`. */
  ghost predicate Took(firstTurn: bool, a: Snapshot, t: Turn, b: Snapshot) {
    && t.context == a.messages + t.injected
    && t.before == a.world && t.after == b.world
    && b.messages == a.messages + t.Block()
    && b.newMessages == a.newMessages + t.Block()
    && b.events == a.events + (if firstTurn then [] else [TurnStart]) + t.Log()
    && b.steeringTaken == a.steeringTaken + t.polled
    && b.followUpTaken == a.followUpTaken + t.FollowedUp()
  }

  /** The record of the turns agrees with what the run has appended since `a`. */
  ghost predicate Recorded(rt: Runtime, a: Snapshot, first: seq<Message>, turns: seq<Turn>, b: Snapshot) {
    && WellRun(rt, a.messages, first, a.world, turns)
    && Appended(a, first, turns, b)
  }

  ghost predicate Appended(a: Snapshot, first: seq<Message>, turns: seq<Turn>, b: Snapshot) {
    && b.messages == a.messages + Conversation(turns)
    && b.newMessages == a.newMessages + Conversation(turns)
    && b.events == a.events + LoopLog(turns)
    && b.world == (if turns == [] then a.world else turns[|turns| - 1].after)
    && b.steeringTaken == a.steeringTaken + first + Polled(turns)
    && b.followUpTaken == a.followUpTaken + FollowUpsOf(turns)
  }

  lemma {:induction false} AppendedTurn(
      a: Snapshot, first: seq<Message>, turns: seq<Turn>, b: Snapshot, t: Turn, c: Snapshot)
    requires Appended(a, first, turns, b) && Took(turns == [], b, t, c)
    ensures Appended(a, first, turns + [t], c)
  {
    Snoc(turns, t);
    Associate(a.messages, Conversation(turns), t.Block());
    Associate(a.newMessages, Conversation(turns), t.Block());
    Associate(a.steeringTaken + first, Polled(turns), t.polled);
    Associate(a.followUpTaken, FollowUpsOf(turns), t.FollowedUp());
    var open := if turns == [] then [] else [TurnStart];
    Associate(a.events, LoopLog(turns), open);
    Associate(a.events, LoopLog(turns) + open, t.Log());
  }

  /** After these turns the inner loop runs again. */
  predicate MayContinue(turns: seq<Turn>, pending: seq<Message>) {
    turns == [] ||
    (!turns[|turns| - 1].Failed() && (turns[|turns| - 1].Calls() != [] || pending != []))
  }

  /** The test of the inner loop: what `hasMoreToolCalls` and `pendingMessages` say about the turns so far. */
  predicate Head(first: seq<Message>, turns: seq<Turn>, hasMoreToolCalls: bool, pending: seq<Message>) {
    && pending == Waiting(first, turns)
    && (hasMoreToolCalls ==> MayContinue(turns, pending))
    && (!hasMoreToolCalls ==> turns != [] && turns[|turns| - 1].Calls() == [])
    && (turns != [] ==> !turns[|turns| - 1].Failed())
    && (turns != [] && pending == [] ==> turns[|turns| - 1].followUp.None?)
  }

  /** No tool calls, no steering, and the follow-up queue not yet polled. */
  predicate Idle(t: Turn) {
    !t.Failed() && t.Calls() == [] && t.polled == [] && t.followUp.None?
  }

  predicate EndsIdle(turns: seq<Turn>) {
    turns != [] && Idle(turns[|turns| - 1])
  }

  ghost predicate Follows(script: seq<LlmStream>, turns: seq<Turn>) {
    |turns| <= |script| && forall k | 0 <= k < |turns| :: turns[k].stream == script[k]
  }

  lemma {:induction false} FollowsSnoc(script: seq<LlmStream>, turns: seq<Turn>, t: Turn)
    requires Follows(script, turns) && |turns| < |script| && t.stream == script[|turns|]
    ensures Follows(script, turns + [t])
  {
  }

  lemma {:induction false} FollowsNoted(script: seq<LlmStream>, init: seq<Turn>, t: Turn, t': Turn)
    requires Follows(script, init + [t]) && t'.stream == t.stream
    ensures Follows(script, init + [t'])
  {
    assert (init + [t])[|init|] == t;
    forall k | 0 <= k < |init| + 1
      ensures (init + [t'])[k].stream == script[k]
    {
      assert (init + [t])[k].stream == script[k];
    }
  }

  /**
   * What a run from `a` to `b` is: its turns are recorded, and it either ended, on
   * a failed response or with both queues found empty after an idle turn, and
   * pushed `agent_end`, or it stopped where it needed one more response with
   * `pending` not yet injected.
   */
  ghost predicate RunOutcome(
      rt: Runtime, responses: nat, a: Snapshot, ended: bool, first: seq<Message>, turns: seq<Turn>,
      pending: seq<Message>, b: Snapshot)
  {
    if ended then
      && Recorded(rt, a, first, turns, b.(events := a.events + LoopLog(turns)))
      && b.events == a.events + LoopLog(turns) + [AgentEnd(b.newMessages)]
      && RunOver(turns) && pending == []
    else
      && Recorded(rt, a, first, turns, b)
      && MayContinue(turns, pending) && pending == Waiting(first, turns) && |turns| == responses
  }

  lemma {:induction false} Stopped(
      rt: Runtime, responses: nat, a: Snapshot, first: seq<Message>, turns: seq<Turn>, hasMoreToolCalls: bool,
      pending: seq<Message>, b: Snapshot)
    requires Recorded(rt, a, first, turns, b) && |turns| == responses
    requires Head(first, turns, hasMoreToolCalls, pending) && (hasMoreToolCalls || |pending| > 0)
    ensures RunOutcome(rt, responses, a, false, first, turns, pending, b)
  {
  }

  lemma {:induction false} WentIdleAfter(
      rt: Runtime, a: Snapshot, first: seq<Message>, turns: seq<Turn>, pending: seq<Message>, b: Snapshot)
    requires Recorded(rt, a, first, turns, b) && Head(first, turns, false, pending) && |pending| == 0
    ensures EndsIdle(turns)
  {
    LastIn(rt, a.messages, first, a.world, turns);
  }

  lemma {:induction false} LastIn(rt: Runtime, start: seq<Message>, first: seq<Message>, world: World, turns: seq<Turn>)
    requires WellRun(rt, start, first, world, turns) && turns != []
    ensures WellTurned(rt, turns[|turns| - 1])
  {
  }

  lemma {:induction false} RecordedTurn(
      rt: Runtime, a: Snapshot, first: seq<Message>, turns: seq<Turn>, b: Snapshot, t: Turn, c: Snapshot)
    requires Recorded(rt, a, first, turns, b) && Took(turns == [], b, t, c) && WellTurned(rt, t)
    requires t.injected == Waiting(first, turns)
    requires MayContinue(turns, t.injected)
    ensures Recorded(rt, a, first, turns + [t], c)
  {
    AppendedTurn(a, first, turns, b, t, c);
    assert (turns + [t])[..|turns|] == turns;
    assert Linked(a.messages, first, a.world, turns + [t], |turns|);
    WellRunSnoc(rt, a.messages, first, a.world, turns, t);
  }

  /** Noting on the last turn that the follow-up queue was polled after it. */
  lemma {:induction false} RecordedFollowUp(
      rt: Runtime, a: Snapshot, first: seq<Message>, init: seq<Turn>, t: Turn, b: Snapshot,
      batch: seq<Message>, c: Snapshot)
    requires Recorded(rt, a, first, init + [t], b)
    requires Idle(t)
    requires c == b.(followUpTaken := b.followUpTaken + batch, past := c.past)
    ensures Recorded(rt, a, first, init + [t.(followUp := Some(batch))], c)
  {
    AppendedFollowUp(a, first, init, t, b, batch, c);
    LastTurned(rt, a.messages, first, a.world, init, t);
    FollowUpTurned(rt, t, batch);
    NotedRun(rt, a.messages, first, a.world, init, t, t.(followUp := Some(batch)));
  }

  lemma {:induction false} LastTurned(
      rt: Runtime, start: seq<Message>, first: seq<Message>, world: World, init: seq<Turn>, t: Turn)
    requires WellRun(rt, start, first, world, init + [t])
    ensures WellTurned(rt, t)
  {
    assert (init + [t])[|init|] == t;
  }

  lemma {:induction false} FollowUpTurned(rt: Runtime, t: Turn, batch: seq<Message>)
    requires WellTurned(rt, t) && !t.Failed() && t.Calls() == [] && t.polled == []
    ensures WellTurned(rt, t.(followUp := Some(batch)))
  {
  }

  lemma {:induction false} AppendedFollowUp(
      a: Snapshot, first: seq<Message>, init: seq<Turn>, t: Turn, b: Snapshot, batch: seq<Message>, c: Snapshot)
    requires Appended(a, first, init + [t], b) && t.followUp.None?
    requires c == b.(followUpTaken := b.followUpTaken + batch, past := c.past)
    ensures Appended(a, first, init + [t.(followUp := Some(batch))], c)
  {
    var t' := t.(followUp := Some(batch));
    Snoc(init, t);
    Snoc(init, t');
    assert t'.Block() == t.Block() && t'.Log() == t.Log();
    assert FollowUpsOf(init) + [] == FollowUpsOf(init);
    Associate(a.followUpTaken, FollowUpsOf(init), batch);
  }

  lemma {:induction false} NotedRun(
      rt: Runtime, start: seq<Message>, first: seq<Message>, world: World, init: seq<Turn>, t: Turn, t': Turn)
    requires WellRun(rt, start, first, world, init + [t])
    requires t' == t.(followUp := t'.followUp) && WellTurned(rt, t')
    ensures WellRun(rt, start, first, world, init + [t'])
  {
    var n := |init|;
    var old', new' := init + [t], init + [t'];
    forall k | 0 <= k < n
      ensures WellTurned(rt, init[k]) && Linked(start, first, world, init, k)
    {
      assert WellTurned(rt, old'[k]) && Linked(start, first, world, old', k);
      LinkedSnoc(start, first, world, init, t, k);
    }
    assert Linked(start, first, world, old', n);
    assert old'[..n] == init == new'[..n];
    assert Linked(start, first, world, new', n);
    WellRunSnoc(rt, start, first, world, init, t');
  }

  // ---------------------------------------------------------------------
  // The loop
  // ---------------------------------------------------------------------

  /**
   * The objects one run mutates: `currentContext.messages`, `newMessages` and the
   * event stream. `script` lists the provider's responses; a run that would need
   * more of them is left where it asks for the next one.
   */
  class LoopRun {
    const rt: Runtime
    const config: LoopConfig
    const schedules: Schedules
    const script: seq<LlmStream>
    var messages: seq<Message>
    var newMessages: seq<Message>
    var events: seq<AgentEvent>
    var world: World
    var clock: nat

    /** What the run assumes of its environment: responses are well formed and tool calls finish. */
    ghost predicate Able() {
      && Completes(rt, schedules)
      && forall k | 0 <= k < |script| :: WellFormed(script[k])
    }

    /** The queues are sound and the initial poll has been made. */
    ghost predicate Polling()
      reads config, config.mailbox
    {
      config.Ready()
    }

    constructor (
        rt: Runtime, config: LoopConfig, schedules: Schedules, script: seq<LlmStream>,
        messages: seq<Message>, newMessages: seq<Message>, events: seq<AgentEvent>, world: World)
      ensures this.rt == rt && this.config == config && this.schedules == schedules && this.script == script
      ensures this.messages == messages && this.newMessages == newMessages && this.events == events
      ensures this.world == world
    {
      this.rt, this.config, this.schedules, this.script := rt, config, schedules, script;
      this.messages, this.newMessages, this.events := messages, newMessages, events;
      this.world, clock := world, 0;
    }

    method Push(e: AgentEvent)
      modifies this`events
      ensures events == old(events) + [e]
    {
      events := events + [e];
    }

    method StreamAssistantResponse(response: LlmStream) returns (message: Message)
      modifies this`messages, this`events
      ensures message == response.result
      ensures messages == old(messages) + Added(response)
      ensures events == old(events) + StreamLog(response.events, response.result, false)
    {
      var partialMessage := None;
      var addedPartial := false;
      var k := 0;
      ghost var pushed := [];
      while k < |response.events|
        invariant 0 <= k <= |response.events|
        invariant forall j | 0 <= j < k :: !response.events[j].Final?
        invariant messages == old(messages) + pushed
        invariant addedPartial == partialMessage.Some? == (pushed != [])
        invariant Partials(pushed, response.events[k..]) == Partials([], response.events)
        invariant events + StreamLog(response.events[k..], response.result, addedPartial) ==
                  old(events) + StreamLog(response.events, response.result, false)
      {
        var event := response.events[k];
        assert response.events[k..][0] == event && response.events[k..][1..] == response.events[k + 1..];
        match event {
        case Start(p) =>
          partialMessage := Some(p);
          messages := messages + [p];
          pushed := pushed + [p];
          addedPartial := true;
          Middle(events, MessageStart(p), StreamLog(response.events[k + 1..], response.result, true));
          Push(MessageStart(p));
        case Update(p) =>
          if partialMessage.Some? {
            partialMessage := Some(p);
            messages := messages[|messages| - 1 := p];
            pushed := pushed[|pushed| - 1 := p];
            Middle(events, MessageUpdate(p), StreamLog(response.events[k + 1..], response.result, true));
            Push(MessageUpdate(p));
          } else {
            assert events + ([] + StreamLog(response.events[k + 1..], response.result, false)) ==
                   events + StreamLog(response.events[k + 1..], response.result, false);
          }
        case Final =>
          if addedPartial {
            messages := messages[|messages| - 1 := response.result];
          } else {
            messages := messages + [response.result];
          }
          if !addedPartial {
            Push(MessageStart(response.result));
          }
          Push(MessageEnd(response.result));
          return response.result;
        }
        k := k + 1;
      }
      return response.result;
    }

    method Inject(pending: seq<Message>)
      modifies this`messages, this`newMessages, this`events
      ensures messages == old(messages) + pending && newMessages == old(newMessages) + pending
      ensures events == old(events) + MessageEvents(pending)
    {
      var k := 0;
      while k < |pending|
        invariant 0 <= k <= |pending|
        invariant messages == old(messages) + pending[..k] && newMessages == old(newMessages) + pending[..k]
        invariant events + MessageEvents(pending[k..]) == old(events) + MessageEvents(pending)
      {
        assert pending[k..][1..] == pending[k + 1..] && pending[..k + 1] == pending[..k] + [pending[k]];
        Push(MessageStart(pending[k]));
        Push(MessageEnd(pending[k]));
        messages := messages + [pending[k]];
        newMessages := newMessages + [pending[k]];
        k := k + 1;
      }
      assert pending[..|pending|] == pending;
    }

    ghost function Now(): Snapshot
      reads this, config, config.mailbox
    {
      Snapshot(messages, newMessages, events, world,
               config.mailbox.steeringTaken, config.mailbox.followUpTaken,
               config.Past())
    }

    /** The first half of a turn: inject what is pending and stream the response. */
    method Respond(firstTurn: bool, pending: seq<Message>, response: LlmStream)
      returns (message: Message, context: seq<Message>)
      requires WellFormed(response)
      modifies this`messages, this`newMessages, this`events
      ensures message == response.result && context == old(messages) + pending
      ensures messages == old(messages) + (pending + [message])
      ensures newMessages == old(newMessages) + (pending + [message])
      ensures events == old(events) + ((if firstTurn then [] else [TurnStart]) + MessageEvents(pending)
                                       + StreamLog(response.events, response.result, false))
    {
      if !firstTurn {
        Push(TurnStart);
      }
      Inject(pending);
      context := messages;
      StreamAddsResponse(response);
      message := StreamAssistantResponse(response);
      newMessages := newMessages + [message];
    }

    /** Run the tool calls of a response, if it has any. */
    method ExecuteTools(message: Message) returns (x: Execution)
      requires Able() && Polling()
      modifies this, config, config.mailbox
      ensures Polling()
      ensures Executed(rt, CallsOf(message), x, old(world), world)
      ensures CallsOf(message) == [] ==> x == NothingExecuted
      ensures messages == old(messages) + x.results && newMessages == old(newMessages) + x.results
      ensures events == old(events) + x.log
      ensures FirstTaken(config.arrivals, old(config.Entries()), old(config.mailbox.Now()),
                         config.Entries(), config.mailbox.Now(), x.steering)
    {
      x := NothingExecuted;
      var toolCalls := CallsOf(message);
      NothingToExecute(rt, world);
      NothingTaken(config.arrivals, config.Entries(), config.mailbox.Now());
      if |toolCalls| > 0 {
        var after, clock';
        x, after, clock' := ExecuteToolCalls(rt, toolCalls, config, schedules, clock, world);
        world, clock := after, clock';
        messages := messages + x.results;
        newMessages := newMessages + x.results;
        events := events + x.log;
      }
    }

    /** The second half: run the tool calls, close the turn and poll for steering. */
    method ExecuteAndPoll(message: Message) returns (x: Execution, polled: seq<Message>)
      requires Able() && Polling()
      modifies this, config, config.mailbox
      ensures Polling()
      ensures Executed(rt, CallsOf(message), x, old(world), world)
      ensures CallsOf(message) == [] ==> x == NothingExecuted
      ensures x.steering != [] ==> polled == x.steering
      ensures polled == [] ==> config.mailbox.steeringQueue == []
      ensures messages == old(messages) + x.results && newMessages == old(newMessages) + x.results
      ensures events == old(events) + (x.log + [TurnEnd(message, x.results)])
      ensures FirstTaken(config.arrivals, old(config.Entries()), old(config.mailbox.Now()),
                         config.Entries(), config.mailbox.Now(), polled)
    {
      ghost var start, p := config.Entries(), config.mailbox.Now();
      x := ExecuteTools(message);
      Push(TurnEnd(message, x.results));
      polled := x.steering;
      if |polled| == 0 {
        polled := PollSince(config, start, p);
      }
    }

    /** One iteration of the inner loop. */
    method TakeTurn(firstTurn: bool, pending: seq<Message>, response: LlmStream) returns (t: Turn)
      requires Able() && WellFormed(response) && Polling()
      modifies this, config, config.mailbox
      ensures Polling()
      ensures WellTurned(rt, t) && t.followUp.None? && t.stream == response && t.injected == pending
      ensures Took(firstTurn, old(Now()), t, Now())
      ensures response.result.stopReason.Error? || response.result.stopReason.Aborted? ==>
                t.execution == NothingExecuted && t.polled == [] && config.polls == old(config.polls)
      ensures FirstTaken(config.arrivals, old(config.Entries()), old(config.mailbox.Now()),
                         config.Entries(), config.mailbox.Now(), t.polled)
    {
      ghost var a := Now();
      var message, context := Respond(firstTurn, pending, response);
      ghost var b := Now();
      t := Turn(pending, context, response, NothingExecuted, [], None, world, world);
      NothingTaken(config.arrivals, config.Entries(), config.mailbox.Now());
      if t.Failed() {
        Push(TurnEnd(message, []));
      } else {
        var x, polled := ExecuteAndPoll(message);
        t := t.(execution := x, polled := polled, after := world);
      }
      TurnHalves(firstTurn, a, b, Now(), t);
    }

    /** The turns so far are those of a run of this script that began at `a`. */
    ghost predicate InRun(a: Snapshot, first: seq<Message>, turns: seq<Turn>)
      reads this, config, config.mailbox
    {
      Recorded(rt, a, first, turns, Now()) && Follows(script, turns) && Since(config.arrivals, a.past, config.Past())
    }

    /** The run that began at `a` has ended, or wants another response than the script has. */
    ghost predicate Outcome(a: Snapshot, ended: bool, first: seq<Message>, turns: seq<Turn>, pending: seq<Message>)
      reads this, config, config.mailbox
    {
      && RunOutcome(rt, |script|, a, ended, first, turns, pending, Now()) && Follows(script, turns)
      && Since(config.arrivals, a.past, config.Past())
    }

    /** The run is over: `agent_end` carries the new messages. */
    method Finish(ghost a: Snapshot, ghost first: seq<Message>, ghost turns: seq<Turn>)
      requires InRun(a, first, turns) && RunOver(turns)
      modifies this`events
      ensures Outcome(a, true, first, turns, [])
    {
      ghost var b := Now();
      Push(AgentEnd(newMessages));
      assert Now() == b.(events := b.events + [AgentEnd(b.newMessages)]);
      assert Now().(events := a.events + LoopLog(turns)) == b;
    }

    /** One iteration of the inner loop, with its record. */
    method RecordTurn(
        ghost a: Snapshot, ghost first: seq<Message>, turns: seq<Turn>, ghost hasMoreToolCalls: bool,
        pending: seq<Message>)
      returns (t: Turn)
      requires Able() && Polling()
      requires InRun(a, first, turns) && |turns| < |script| && Head(first, turns, hasMoreToolCalls, pending)
      requires hasMoreToolCalls || |pending| > 0
      modifies this, config, config.mailbox
      ensures Polling() && InRun(a, first, turns + [t]) && t.followUp.None?
    {
      ghost var b := Now();
      t := TakeTurn(|turns| == 0, pending, script[|turns|]);
      SinceThen(config.arrivals, a.past, b.past, config.Past());
      RecordedTurn(rt, a, first, turns, b, t, Now());
      FollowsSnoc(script, turns, t);
    }

    /** The inner loop's body; a failed response ends the run with `agent_end`. */
    method NextTurn(
        ghost a: Snapshot, ghost first: seq<Message>, turns: seq<Turn>, ghost hasMoreToolCalls: bool,
        pending: seq<Message>)
      returns (t: Turn)
      requires Able() && Polling()
      requires InRun(a, first, turns) && |turns| < |script| && Head(first, turns, hasMoreToolCalls, pending)
      requires hasMoreToolCalls || |pending| > 0
      modifies this, config, config.mailbox
      ensures Polling()
      ensures if t.Failed() then Outcome(a, true, first, turns + [t], [])
              else InRun(a, first, turns + [t]) && Head(first, turns + [t], |t.Calls()| > 0, t.polled)
    {
      t := RecordTurn(a, first, turns, hasMoreToolCalls, pending);
      if t.Failed() {
        Finish(a, first, turns + [t]);
      }
    }

    /** The outer loop's poll after the idle turn `last`, with its record. */
    method PollFollowUps(ghost a: Snapshot, ghost first: seq<Message>, ghost init: seq<Turn>, last: Turn)
      returns (followUp: seq<Message>)
      requires Able() && Polling()
      requires InRun(a, first, init + [last]) && Idle(last)
      modifies config, config.mailbox
      ensures Polling()
      ensures InRun(a, first, init + [last.(followUp := Some(followUp))])
      ensures var turns := init + [last.(followUp := Some(followUp))];
              if |followUp| == 0 then RunOver(turns) && followUp == [] else Head(first, turns, true, followUp)
      ensures followUp == [] ==> config.mailbox.followUpQueue == []
    {
      ghost var b := Now();
      followUp := config.GetFollowUpMessages();
      SinceThen(config.arrivals, a.past, b.past, config.Past());
      RecordedFollowUp(rt, a, first, init, last, b, followUp, Now());
      FollowsNoted(script, init, last, last.(followUp := Some(followUp)));
    }

    /**
     * The inner loop. It stops for want of a response, on a failed response
     * (having pushed `agent_end`), or because the last turn was idle.
     */
    method InnerLoop(ghost a: Snapshot, ghost first: seq<Message>, turns: seq<Turn>, waiting: seq<Message>)
      returns (exit: LoopExit, turns': seq<Turn>, pending: seq<Message>)
      requires Able() && Polling() && InRun(a, first, turns) && Head(first, turns, true, waiting)
      modifies this, config, config.mailbox
      ensures Polling()
      ensures !exit.WentIdle? ==> Outcome(a, exit.SawFailure?, first, turns', pending)
      ensures exit.SawFailure? ==> turns' != [] && turns'[|turns'| - 1].Failed()
      ensures exit.WentIdle? ==>
        InRun(a, first, turns') && |turns'| > |turns| && EndsIdle(turns')
    {
      var hasMoreToolCalls := true;
      turns', pending := turns, waiting;
      while hasMoreToolCalls || |pending| > 0
        invariant Polling() && InRun(a, first, turns') && Head(first, turns', hasMoreToolCalls, pending)
        invariant |turns'| > |turns| || (turns' == turns && hasMoreToolCalls)
        decreases |script| - |turns'|
      {
        if |turns'| == |script| {
          Stopped(rt, |script|, a, first, turns', hasMoreToolCalls, pending, Now());
          return Suspended, turns', pending;
        }
        var t := NextTurn(a, first, turns', hasMoreToolCalls, pending);
        turns' := turns' + [t];
        if t.Failed() {
          return SawFailure, turns', [];
        }
        hasMoreToolCalls := |t.Calls()| > 0;
        pending := t.polled;
      }
      WentIdleAfter(rt, a, first, turns', pending, Now());
      return WentIdle, turns', pending;
    }

    /** The follow-up poll after an idle turn, noted in that turn. */
    method NoteFollowUps(ghost a: Snapshot, ghost first: seq<Message>, turns: seq<Turn>)
      returns (turns': seq<Turn>, pending: seq<Message>)
      requires Able() && Polling() && InRun(a, first, turns) && turns != [] && EndsIdle(turns)
      modifies config, config.mailbox
      ensures Polling() && |turns'| == |turns| && InRun(a, first, turns')
      ensures if |pending| == 0 then RunOver(turns') && pending == [] else Head(first, turns', true, pending)
      ensures pending == [] ==> config.mailbox.followUpQueue == []
    {
      var init, last := turns[..|turns| - 1], turns[|turns| - 1];
      SplitLast(turns);
      pending := PollFollowUps(a, first, init, last);
      turns' := init + [last.(followUp := Some(pending))];
    }

    /** After the inner loop went idle: go on with follow-ups, or end with none in the queue. */
    method FollowUpOrFinish(ghost a: Snapshot, ghost first: seq<Message>, turns: seq<Turn>)
      returns (ended: bool, turns': seq<Turn>, pending: seq<Message>)
      requires Able() && Polling() && InRun(a, first, turns) && turns != [] && EndsIdle(turns)
      modifies this, config, config.mailbox
      ensures Polling() && |turns'| == |turns|
      ensures ended ==> Outcome(a, true, first, turns', pending)
      ensures ended ==> config.mailbox.followUpQueue == []
      ensures !ended ==> InRun(a, first, turns') && Head(first, turns', true, pending)
    {
      turns', pending := NoteFollowUps(a, first, turns);
      ended := |pending| == 0;
      if ended {
        Finish(a, first, turns');
      }
    }

    /** The run is over, or wants another response than the script has. */
    ghost predicate Left(a: Snapshot, first: seq<Message>, ended: bool, turns: seq<Turn>, pending: seq<Message>)
      reads this, config, config.mailbox
    {
      && Outcome(a, ended, first, turns, pending)
      && (ended ==> turns != [] && (turns[|turns| - 1].Failed() || config.mailbox.followUpQueue == []))
    }

    /** The outer loop goes on with `pending`. */
    ghost predicate Going(a: Snapshot, first: seq<Message>, turns: seq<Turn>, pending: seq<Message>)
      reads this, config, config.mailbox
    {
      InRun(a, first, turns) && |turns| <= |script| && Head(first, turns, true, pending)
    }

    /** One iteration of the outer loop. */
    method OuterRound(ghost a: Snapshot, ghost first: seq<Message>, turns: seq<Turn>, waiting: seq<Message>)
      returns (again: bool, ended: bool, turns': seq<Turn>, pending: seq<Message>)
      requires Able() && Polling() && Going(a, first, turns, waiting)
      modifies this, config, config.mailbox
      ensures Polling()
      ensures again ==> Going(a, first, turns', pending) && |turns| < |turns'|
      ensures !again ==> Left(a, first, ended, turns', pending)
    {
      var exit;
      exit, turns', pending := InnerLoop(a, first, turns, waiting);
      again, ended := false, exit.SawFailure?;
      if exit.WentIdle? {
        ended, turns', pending := FollowUpOrFinish(a, first, turns');
        again := !ended;
      }
    }

    /**
     * Both loops end only as the source ends them, or for want of a response. A run that
     * ends without a failure leaves no follow-up in the queue.
     */
    method RunLoop() returns (ended: bool, first: seq<Message>, turns: seq<Turn>, pending: seq<Message>)
      requires Able() && config.mailbox.Valid()
      modifies this, config, config.mailbox
      ensures config.mailbox.Valid()
      ensures old(config.skipInitialSteeringPoll) ==> first == []
      ensures Left(old(Now()), first, ended, turns, pending)
    {
      ghost var a := Now();
      first := config.GetSteeringMessages();
      ended, turns, pending := false, [], first;
      var again := true;
      while again
        invariant Polling()
        invariant again ==> Going(a, first, turns, pending)
        invariant !again ==> Left(a, first, ended, turns, pending)
        decreases again, |script| - |turns|
      {
        again, ended, turns, pending := OuterRound(a, first, turns, pending);
      }
    }
  }

  datatype LoopExit = Suspended | SawFailure | WentIdle

  lemma {:induction false} TurnHalves(firstTurn: bool, a: Snapshot, b: Snapshot, c: Snapshot, t: Turn)
    requires t.context == a.messages + t.injected && t.before == a.world && t.after == c.world && t.followUp.None?
    requires b.messages == a.messages + (t.injected + [t.stream.result])
    requires b.newMessages == a.newMessages + (t.injected + [t.stream.result])
    requires b.events == a.events + ((if firstTurn then [] else [TurnStart]) + MessageEvents(t.injected)
                                     + StreamLog(t.stream.events, t.stream.result, false))
    requires b.steeringTaken == a.steeringTaken && b.followUpTaken == a.followUpTaken
    requires c.messages == b.messages + t.execution.results && c.newMessages == b.newMessages + t.execution.results
    requires c.events == b.events + (t.execution.log + [TurnEnd(t.stream.result, t.execution.results)])
    requires c.steeringTaken == b.steeringTaken + t.polled && c.followUpTaken == b.followUpTaken
    ensures Took(firstTurn, a, t, c)
  {
    var open := if firstTurn then [] else [TurnStart];
    var log := StreamLog(t.stream.events, t.stream.result, false);
    var end := [TurnEnd(t.stream.result, t.execution.results)];
    Associate(a.messages, t.injected + [t.stream.result], t.execution.results);
    Associate(a.newMessages, t.injected + [t.stream.result], t.execution.results);
    assert a.events + (open + MessageEvents(t.injected) + log) + (t.execution.log + end)
        == a.events + open + (MessageEvents(t.injected) + log + t.execution.log + end);
  }

  lemma {:induction false} NothingToExecute(rt: Runtime, world: World)
    ensures Executed(rt, [], NothingExecuted, world, world)
  {
    NothingHandled(rt.tools);
    InBatchesIff(rt, [], 0, []);
  }
}
