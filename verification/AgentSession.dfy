/** Class Agent (packages/agent/src/agent.ts): the event fold, `prompt` and `continue`. */
module AgentSession {
  import opened Reordering
  import opened Sequences
  import opened Wrappers
  import opened AgentTypes
  import opened AgentTrace
  import opened ToolRuntime
  import opened ToolScheduler
  import opened Mailboxes
  import opened AgentLoop
  import opened AgentRuns

  /** The part of AgentState the events change. */
  datatype AgentState = AgentState(
    messages: seq<Message>, isStreaming: bool, streamMessage: Option<Message>,
    pendingToolCalls: set<string>, error: Option<string>)

  /** The message carries an error; the empty text counts as none. */
  predicate HasError(m: Message) {
    m.Assistant? && m.errorMessage.Some? && m.errorMessage.value != ""
  }

  function Handle(s: AgentState, e: AgentEvent): AgentState {
    match e
    case MessageStart(m) => s.(streamMessage := Some(m))
    case MessageUpdate(m) => s.(streamMessage := Some(m))
    case MessageEnd(m) => s.(streamMessage := None, messages := s.messages + [m])
    case ToolStart(call) => s.(pendingToolCalls := s.pendingToolCalls + {call.id})
    case ToolEnd(id, _, _) => s.(pendingToolCalls := s.pendingToolCalls - {id})
    case TurnEnd(m, _) => if HasError(m) then s.(error := m.errorMessage) else s
    case AgentEnd(_) => s.(isStreaming := false, streamMessage := None)
    case _ => s
  }

  function Fold(s: AgentState, log: seq<AgentEvent>): AgentState
    decreases log
  {
    if log == [] then s else Fold(Handle(s, log[0]), log[1..])
  }

  lemma {:induction false} FoldAppend(s: AgentState, a: seq<AgentEvent>, b: seq<AgentEvent>)
    ensures Fold(s, a + b) == Fold(Fold(s, a), b)
    decreases a
  {
    if a == [] {
      assert a + b == b;
    } else {
      assert (a + b)[1..] == a[1..] + b;
      FoldAppend(Handle(s, a[0]), a[1..], b);
    }
  }

  /** The fold appends exactly the messages that end, in that order. */
  lemma {:induction false} FoldMessages(s: AgentState, log: seq<AgentEvent>)
    ensures Fold(s, log).messages == s.messages + Ended(log)
    decreases log
  {
    if log != [] {
      FoldMessages(Handle(s, log[0]), log[1..]);
      var first := if log[0].MessageEnd? then [log[0].message] else [];
      assert Handle(s, log[0]).messages == s.messages + first;
      Associate(s.messages, first, Ended(log[1..]));
    }
  }

  /** The state shows nothing that the brackets do not have open. */
  ghost predicate Within(s: AgentState, b: Bracket) {
    && (forall id | id in s.pendingToolCalls :: id in b.tools)
    && (s.streamMessage.Some? ==> b.message)
  }

  lemma {:induction false} HandleWithin(tools: seq<Tool>, s: AgentState, b: Bracket, e: AgentEvent)
    requires Within(s, b) && Accept(tools, b, e).Some?
    ensures Within(Handle(s, e), Accept(tools, b, e).value)
  {
  }

  lemma {:induction false} FoldWithin(tools: seq<Tool>, s: AgentState, b: Bracket, log: seq<AgentEvent>)
    requires Within(s, b) && AcceptAll(tools, b, log).Some?
    ensures Within(Fold(s, log), AcceptAll(tools, b, log).value)
    decreases log
  {
    if log != [] {
      HandleWithin(tools, s, b, log[0]);
      FoldWithin(tools, Handle(s, log[0]), Accept(tools, b, log[0]).value, log[1..]);
    }
  }

  /**
   * At every turn end of a well-bracketed trace no tool call is pending and no
   * message is being streamed, even if ids repeat.
   */
  lemma {:induction false} NothingPendingAtTurnEnd(tools: seq<Tool>, s: AgentState, log: seq<AgentEvent>, k: nat)
    requires s.pendingToolCalls == {} && s.streamMessage.None? && AcceptAll(tools, Fresh, log).Some?
    requires k < |log| && log[k].TurnEnd?
    ensures Fold(s, log[..k]).pendingToolCalls == {} && Fold(s, log[..k]).streamMessage.None?
  {
    var rest := log[k..];
    assert log == log[..k] + rest;
    AcceptAppend(tools, Fresh, log[..k], rest);
    FoldWithin(tools, s, Fresh, log[..k]);
    assert rest[0] == log[k];
  }

  /** The start of the call at `j` has no end of the same id behind it. */
  predicate Unended(log: seq<AgentEvent>, id: string, j: nat) {
    && j < |log| && log[j].ToolStart? && log[j].call.id == id
    && forall i | j < i < |log| :: !Ends(log[i], id)
  }

  lemma {:induction false} UnendedSnoc(log: seq<AgentEvent>, e: AgentEvent, id: string, j: nat)
    ensures Unended(log + [e], id, j) <==>
            || (Unended(log, id, j) && !Ends(e, id))
            || (j == |log| && e.ToolStart? && e.call.id == id)
  {
    var log' := log + [e];
    if j < |log| {
      assert forall i | j < i < |log| :: log'[i] == log[i];
      assert log'[|log|] == e;
    }
  }

  lemma {:induction false} FoldSnoc(s: AgentState, log: seq<AgentEvent>, e: AgentEvent)
    ensures Fold(s, log + [e]) == Handle(Fold(s, log), e)
  {
    FoldAppend(s, log, [e]);
    assert [e][1..] == [];
  }

  /** A call is pending exactly if it was started and no end of its id came after. */
  lemma {:induction false} PendingIff(s: AgentState, log: seq<AgentEvent>, id: string)
    requires s.pendingToolCalls == {}
    ensures id in Fold(s, log).pendingToolCalls <==> exists j: nat | j < |log| :: Unended(log, id, j)
    decreases |log|
  {
    if log != [] {
      var init, e := log[..|log| - 1], log[|log| - 1];
      assert log == init + [e];
      PendingIff(s, init, id);
      FoldSnoc(s, init, e);
      PendingSnoc(init, e, id);
    }
  }

  lemma {:induction false} PendingSnoc(log: seq<AgentEvent>, e: AgentEvent, id: string)
    ensures (exists j: nat | j < |log + [e]| :: Unended(log + [e], id, j)) <==>
            || (e.ToolStart? && e.call.id == id)
            || ((exists j: nat | j < |log| :: Unended(log, id, j)) && !Ends(e, id))
  {
    forall j: nat
      ensures Unended(log + [e], id, j) <==>
              (Unended(log, id, j) && !Ends(e, id)) || (j == |log| && e.ToolStart? && e.call.id == id)
    {
      UnendedSnoc(log, e, id, j);
    }
    if e.ToolStart? && e.call.id == id {
      assert Unended(log + [e], id, |log|);
    }
  }

  /** The message that an event shows or takes away, if it does either. */
  predicate Touches(e: AgentEvent) {
    e.MessageStart? || e.MessageUpdate? || e.MessageEnd? || e.AgentEnd?
  }

  /** Event `j` shows the message, and nothing behind it shows another or takes it away. */
  predicate LastShown(log: seq<AgentEvent>, m: Message, j: nat) {
    && j < |log| && (log[j] == MessageStart(m) || log[j] == MessageUpdate(m))
    && forall i | j < i < |log| :: !Touches(log[i])
  }

  /** The message shown is the one started or updated last, if it has not ended. */
  lemma {:induction false} StreamingIff(s: AgentState, log: seq<AgentEvent>, m: Message)
    requires s.streamMessage.None?
    ensures Fold(s, log).streamMessage == Some(m) <==> exists j: nat | j < |log| :: LastShown(log, m, j)
    decreases |log|
  {
    if log != [] {
      var init, e := log[..|log| - 1], log[|log| - 1];
      assert log == init + [e];
      StreamingIff(s, init, m);
      FoldSnoc(s, init, e);
      ShownSnoc(init, e, m);
    }
  }

  lemma {:induction false} ShownSnoc(log: seq<AgentEvent>, e: AgentEvent, m: Message)
    ensures (exists j: nat | j < |log + [e]| :: LastShown(log + [e], m, j)) <==>
            || e == MessageStart(m) || e == MessageUpdate(m)
            || ((exists j: nat | j < |log| :: LastShown(log, m, j)) && !Touches(e))
  {
    var log' := log + [e];
    forall j: nat
      ensures LastShown(log', m, j) <==>
              || (LastShown(log, m, j) && !Touches(e))
              || (j == |log| && (e == MessageStart(m) || e == MessageUpdate(m)))
    {
      assert log'[|log|] == e && forall i | 0 <= i < |log| :: log'[i] == log[i];
    }
    if e == MessageStart(m) || e == MessageUpdate(m) {
      assert LastShown(log', m, |log|);
    }
  }

  /** After any well-bracketed log a message is shown exactly if one is open. */
  lemma {:induction false} ShownWhileOpen(tools: seq<Tool>, s: AgentState, log: seq<AgentEvent>)
    requires s.streamMessage.None? && AcceptAll(tools, Fresh, log).Some?
    ensures Fold(s, log).streamMessage.Some? <==> Depth(MessageKind, log) == 1
    decreases |log|
  {
    if log != [] {
      var init, e := log[..|log| - 1], log[|log| - 1];
      assert log == init + [e];
      var b := AcceptedAt(tools, Fresh, log, |init|);
      ShownWhileOpen(tools, s, init);
      FoldSnoc(s, init, e);
      Discipline(tools, log, |init|, "");
    }
  }

  /** The run is on exactly until `agent_end`. */
  lemma {:induction false} StreamingUntilEnd(s: AgentState, log: seq<AgentEvent>)
    ensures Fold(s, log).isStreaming <==> s.isStreaming && forall k | 0 <= k < |log| :: !log[k].AgentEnd?
    decreases log
  {
    if log != [] {
      StreamingUntilEnd(Handle(s, log[0]), log[1..]);
      assert forall k | 0 < k < |log| :: log[k] == log[1..][k - 1];
    }
  }

  /** The error of the last message that carries one, else the error there was. */
  function LastError(error: Option<string>, messages: seq<Message>): Option<string> {
    if messages == [] then error
    else
      var m := messages[|messages| - 1];
      if HasError(m) then m.errorMessage else LastError(error, messages[..|messages| - 1])
  }

  lemma {:induction false} LastErrorSnoc(error: Option<string>, messages: seq<Message>, m: Message)
    ensures LastError(error, messages + [m]) == if HasError(m) then m.errorMessage else LastError(error, messages)
  {
    assert (messages + [m])[..|messages|] == messages;
  }

  lemma {:induction false} FoldErrorOnce(s: AgentState, error: Option<string>, ended: seq<Message>, e: AgentEvent)
    requires s.error == LastError(error, ended)
    ensures Fold(s, [e]).error == LastError(error, ended + TurnsEnded([e]))
  {
    assert [e][1..] == [];
    if e.TurnEnd? {
      LastErrorSnoc(error, ended, e.message);
      assert TurnsEnded([e]) == [e.message];
    } else {
      assert ended + TurnsEnded([e]) == ended;
    }
  }

  /** The error is that of the last message that carries a non-empty one. */
  lemma {:induction false} LastErrorIs(error: Option<string>, messages: seq<Message>, text: string)
    requires forall m | m in messages :: m.Assistant?
    ensures LastError(error, messages) == Some(text) <==>
            || (exists i | 0 <= i < |messages| ::
                  && messages[i].errorMessage == Some(text) && text != ""
                  && forall j | i < j < |messages| :: messages[j].errorMessage in {None, Some("")})
            || (error == Some(text) && forall j | 0 <= j < |messages| :: messages[j].errorMessage in {None, Some("")})
  {
    if messages != [] {
      var init, m := messages[..|messages| - 1], messages[|messages| - 1];
      LastErrorIs(error, init, text);
      assert forall j | 0 <= j < |init| :: messages[j] == init[j];
    }
  }

  /** The fold leaves the error of the last turn that ended with one. */
  lemma {:induction false} FoldError(s: AgentState, log: seq<AgentEvent>)
    ensures Fold(s, log).error == LastError(s.error, TurnsEnded(log))
    decreases |log|
  {
    if log != [] {
      var init, e := log[..|log| - 1], log[|log| - 1];
      assert log == init + [e];
      FoldError(s, init);
      FoldAppend(s, init, [e]);
      TurnsEndedAppend(init, [e]);
      FoldErrorOnce(Fold(s, init), s.error, TurnsEnded(init), e);
    }
  }

  // ---------------------------------------------------------------------
  // The class
  // ---------------------------------------------------------------------

  /** Everything outside the agent that a run depends on. */
  datatype Host = Host(
    rt: Runtime, schedules: Schedules, script: seq<LlmStream>, arrivals: nat -> seq<QueueOp>, world: World)

  /** Responses are well formed and tool calls finish; `Agent` leaves `maxParallelTools` at its default. */
  ghost predicate Hosts(host: Host) {
    && host.rt.maxParallelTools.None? && Completes(host.rt, host.schedules)
    && forall k | 0 <= k < |host.script| :: WellFormed(host.script[k])
  }

  /** What a call of `_runLoop` did. `pending` is only non-empty when the script ran out; `polls` counts the polls. */
  datatype Report = Report(
    prompts: seq<Message>, first: seq<Message>, turns: seq<Turn>, ended: bool, pending: seq<Message>,
    newMessages: seq<Message>, log: seq<AgentEvent>, polls: nat)

  /**
   * A report is true of a run that found the messages `before` and left `after`:
   * the state holds the old messages, the prompts and the conversation, exactly so when
   * no pool ran and else with the results of each pool permuted among themselves; and
   * every message dequeued is in the conversation once, except what still waits.
   */
  ghost predicate Told(rt: Runtime, world: World, before: seq<Message>, r: Report, after: seq<Message>) {
    && WellRun(rt, before + r.prompts, r.first, world, r.turns)
    && r.log == RunLog(r.prompts, r.turns) + (if r.ended then [AgentEnd(r.newMessages)] else [])
    && r.newMessages == r.prompts + Conversation(r.turns)
    && after == before + r.prompts + Shown(r.turns)
    && Permuted(Shown(r.turns), Conversation(r.turns), Segments(r.turns))
    && (NoPools(r.turns) ==> after == before + r.newMessages)
    && Injected(r.turns) + r.pending == r.first + Dequeued(r.turns)
    && (r.ended ==> RunOver(r.turns) && r.pending == [])
  }

  datatype Refusal = AlreadyStreaming | NoMessages | LastIsAssistant

  predicate LastIsFromAssistant(messages: seq<Message>) {
    messages != [] && messages[|messages| - 1].Assistant?
  }

  class Agent {
    const mailbox: Mailbox
    var messages: seq<Message>
    var isStreaming: bool
    var streamMessage: Option<Message>
    var pendingToolCalls: set<string>
    var error: Option<string>

    function State(): AgentState
      reads this
    {
      AgentState(messages, isStreaming, streamMessage, pendingToolCalls, error)
    }

    /** Between runs nothing is streaming or pending. */
    ghost predicate AtRest()
      reads this
    {
      !isStreaming && streamMessage.None? && pendingToolCalls == {}
    }

    constructor (messages: seq<Message>, steeringMode: Mode, followUpMode: Mode)
      ensures AtRest() && this.messages == messages && fresh(mailbox) && mailbox.Valid()
    {
      mailbox := new Mailbox(steeringMode, followUpMode);
      this.messages := messages;
      isStreaming, streamMessage, pendingToolCalls, error := false, None, {}, None;
    }

    /** `reset`, between runs: nothing is left of the conversation or in the queues. */
    method Reset()
      requires mailbox.Valid()
      modifies this, mailbox
      ensures AtRest() && mailbox.Valid() && State() == AgentState([], false, None, {}, None)
      ensures mailbox.Waiting() == Queues([], [])
      ensures mailbox.steeringTaken == old(mailbox.steeringTaken)
      ensures mailbox.followUpTaken == old(mailbox.followUpTaken)
    {
      messages, isStreaming, streamMessage, pendingToolCalls, error := [], false, None, {}, None;
      mailbox.ClearAllQueues();
    }

    method HandleEvent(e: AgentEvent)
      modifies this
      ensures State() == Handle(old(State()), e)
    {
      match e
      case MessageStart(m) => streamMessage := Some(m);
      case MessageUpdate(m) => streamMessage := Some(m);
      case MessageEnd(m) =>
        streamMessage := None;
        messages := messages + [m];
      case ToolStart(call) => pendingToolCalls := pendingToolCalls + {call.id};
      case ToolEnd(id, _, _) => pendingToolCalls := pendingToolCalls - {id};
      case TurnEnd(m, _) =>
        if HasError(m) {
          error := m.errorMessage;
        }
      case AgentEnd(_) =>
        isStreaming := false;
        streamMessage := None;
      case _ =>
    }

    method HandleEvents(log: seq<AgentEvent>)
      modifies this
      ensures State() == Fold(old(State()), log)
    {
      var k := 0;
      while k < |log|
        invariant 0 <= k <= |log|
        invariant Fold(State(), log[k..]) == Fold(old(State()), log)
      {
        assert log[k..][0] == log[k] && log[k..][1..] == log[k + 1..];
        HandleEvent(log[k]);
        k := k + 1;
      }
    }

    /**
     * `_runLoop`: start the loop, with the prompts or from the context, and fold
     * its events into the state.
     */
    method Launch(host: Host, prompts: seq<Message>, skipInitialSteeringPoll: bool) returns (r: Report)
      requires Hosts(host) && AtRest() && mailbox.Valid()
      modifies this, mailbox
      ensures mailbox.Valid() && r.prompts == prompts && (skipInitialSteeringPoll ==> r.first == [])
      ensures Told(host.rt, host.world, old(messages), r, messages)
      ensures pendingToolCalls == {} && streamMessage.None? && isStreaming == !r.ended
      ensures error == LastError(None, Responses(r.turns))
      ensures Accounted(host.arrivals, r, false, false, old(mailbox.Waiting()), mailbox.Waiting())
    {
      isStreaming, streamMessage, error := true, None, None;
      ghost var s0 := State();
      var config := new LoopConfig(mailbox, host.arrivals, skipInitialSteeringPoll);
      var head := [AgentStart, TurnStart] + MessageEvents(prompts);
      var run := new LoopRun(
        host.rt, config, host.schedules, host.script, messages + prompts, prompts, head, host.world);
      ghost var a := run.Now();
      var ended, first, turns, pending := run.RunLoop();
      r := Report(prompts, first, turns, ended, pending, run.newMessages, run.events, config.polls);
      Launched(host.rt, |host.script|, host.arrivals, s0, a, run.Now(), r, old(mailbox.Waiting()), mailbox.Waiting());
      HandleEvents(r.log);
      if ended {
        isStreaming, streamMessage, pendingToolCalls := false, None, {};
      }
    }

    method Prompt(host: Host, input: seq<Message>) returns (r: Result<Report, Refusal>)
      requires Hosts(host) && (isStreaming || AtRest()) && mailbox.Valid()
      modifies this, mailbox
      ensures mailbox.Valid()
      ensures r.Err? <==> old(isStreaming)
      ensures r.Err? ==> r.error == AlreadyStreaming && State() == old(State())
      ensures r.Ok? ==>
        && r.value.prompts == input
        && Told(host.rt, host.world, old(messages), r.value, messages)
        && Accounted(host.arrivals, r.value, false, false, old(mailbox.Waiting()), mailbox.Waiting())
        && (r.value.ended ==> AtRest()) && error == LastError(None, Responses(r.value.turns))
    {
      if isStreaming {
        return Err(AlreadyStreaming);
      }
      var report := Launch(host, input, false);
      return Ok(report);
    }

    /**
     * `continue`: what it dequeues itself becomes the prompts of the run, and the
     * run's initial poll is skipped after a steering batch, so every dequeued
     * message is still placed exactly once.
     */
    method Continue(host: Host) returns (r: Result<Report, Refusal>)
      requires Hosts(host) && (isStreaming || AtRest()) && mailbox.Valid()
      modifies this, mailbox
      ensures mailbox.Valid()
      ensures r.Err? <==>
              (|| old(isStreaming)
               || old(messages) == []
               || (&& old(messages)[|old(messages)| - 1].Assistant?
                   && old(mailbox.steeringQueue) == [] && old(mailbox.followUpQueue) == []))
      ensures r.Err? ==>
                && State() == old(State())
                && mailbox.Waiting() == old(mailbox.Waiting())
      ensures r.Ok? ==>
                && (r.value.prompts == [] <==> !old(messages)[|old(messages)| - 1].Assistant?)
                && Told(host.rt, host.world, old(messages), r.value, messages)
                && (r.value.ended ==> AtRest()) && error == LastError(None, Responses(r.value.turns))
      ensures r.Ok? ==>
                var steering := old(messages)[|old(messages)| - 1].Assistant? && old(mailbox.steeringQueue) != [];
                Accounted(host.arrivals, r.value, steering, !steering, old(mailbox.Waiting()), mailbox.Waiting())
    {
      if isStreaming {
        return Err(AlreadyStreaming);
      }
      if |messages| == 0 {
        return Err(NoMessages);
      }
      ghost var q0 := mailbox.Waiting();
      var prompts, skip := [], false;
      if LastIsFromAssistant(messages) {
        prompts, skip := DequeueToContinue();
        if |prompts| == 0 {
          return Err(LastIsAssistant);
        }
      }
      ghost var q := mailbox.Waiting();
      assert q0.steering == (if skip then prompts else []) + q.steering;
      assert q0.followUp == (if skip then [] else prompts) + q.followUp;
      var report := Launch(host, prompts, skip);
      Account(host.arrivals, report, skip, q0, q, mailbox.Waiting());
      return Ok(report);
    }

    /** After an assistant message, queued messages become the prompts: steering first, else follow-ups. */
    method DequeueToContinue() returns (prompts: seq<Message>, steering: bool)
      requires mailbox.Valid()
      modifies mailbox
      ensures mailbox.Valid() && mailbox.steered == old(mailbox.steered) && mailbox.followed == old(mailbox.followed)
      ensures steering == (old(mailbox.steeringQueue) != [])
      ensures prompts == [] <==> old(mailbox.steeringQueue) == [] && old(mailbox.followUpQueue) == []
      ensures old(mailbox.steeringQueue) == (if steering then prompts else []) + mailbox.steeringQueue
      ensures old(mailbox.followUpQueue) == (if steering then [] else prompts) + mailbox.followUpQueue
    {
      prompts := mailbox.DequeueSteeringMessages();
      steering := |prompts| > 0;
      if !steering {
        prompts := mailbox.DequeueFollowUpMessages();
      }
    }
  }

  /**
   * What waited in a queue and what arrived is what the run took and what waits now: the
   * prompts, when `continue` dequeued them itself, then the initial poll and the later batches.
   */
  ghost predicate Accounted(
      arrivals: nat -> seq<QueueOp>, r: Report, steering: bool, followUp: bool, before: Queues, after: Queues)
  {
    && before.steering + SteeredBy(arrivals, 0, r.polls) ==
       (if steering then r.prompts else r.first) + Polled(r.turns) + after.steering
    && before.followUp + FollowedBy(arrivals, 0, r.polls) ==
       (if followUp then r.prompts else []) + FollowUpsOf(r.turns) + after.followUp
    && (steering ==> r.first == [])
  }

  /** `middle` is what waits between what `continue` dequeues and the run. */
  lemma {:induction false} Account(
      arrivals: nat -> seq<QueueOp>, r: Report, steering: bool, before: Queues, middle: Queues, after: Queues)
    requires steering ==> r.first == []
    requires before.steering == (if steering then r.prompts else []) + middle.steering
    requires before.followUp == (if steering then [] else r.prompts) + middle.followUp
    requires Accounted(arrivals, r, false, false, middle, after)
    ensures Accounted(arrivals, r, steering, !steering, before, after)
  {
    var s, f := SteeredBy(arrivals, 0, r.polls), FollowedBy(arrivals, 0, r.polls);
    assert [] + Polled(r.turns) == Polled(r.turns) && [] + FollowUpsOf(r.turns) == FollowUpsOf(r.turns);
    assert [] + middle.steering == middle.steering && [] + middle.followUp == middle.followUp;
    Associate(r.prompts, middle.steering, s);
    Associate(r.prompts, middle.followUp, f);
    Associate(r.prompts, Polled(r.turns), after.steering);
    Associate(r.prompts, FollowUpsOf(r.turns), after.followUp);
  }

  /** What opens and closes the log of a run ends no message and no turn. */
  lemma {:induction false} NothingEnds(end: seq<AgentEvent>)
    requires |end| <= 1 && forall k | 0 <= k < |end| :: end[k].AgentEnd?
    ensures Ended([AgentStart, TurnStart]) == [] && Ended(end) == []
    ensures TurnsEnded([AgentStart, TurnStart]) == [] && TurnsEnded(end) == []
  {
    assert [AgentStart, TurnStart][1..] == [TurnStart] && [TurnStart][1..] == [];
    assert Ended([TurnStart]) == [] && TurnsEnded([TurnStart]) == [];
    assert end != [] ==> end[1..] == [];
  }

  lemma {:induction false} EndedInside(
      head: seq<AgentEvent>, a: seq<AgentEvent>, b: seq<AgentEvent>, end: seq<AgentEvent>)
    requires Ended(head) == [] && Ended(end) == []
    ensures Ended(head + a + b + end) == Ended(a) + Ended(b)
  {
    EndedAppend(head, a);
    EndedAppend(head + a, b);
    EndedAppend(head + a + b, end);
  }

  lemma {:induction false} TurnsEndedInside(
      head: seq<AgentEvent>, a: seq<AgentEvent>, b: seq<AgentEvent>, end: seq<AgentEvent>)
    requires TurnsEnded(head) == [] && TurnsEnded(end) == []
    ensures TurnsEnded(head + a + b + end) == TurnsEnded(a) + TurnsEnded(b)
  {
    TurnsEndedAppend(head, a);
    TurnsEndedAppend(head + a, b);
    TurnsEndedAppend(head + a + b, end);
  }

  /** What ends in a run: the prompts, then what the loop logs. */
  lemma {:induction false} RunLogEnded(prompts: seq<Message>, turns: seq<Turn>, end: seq<AgentEvent>)
    requires |end| <= 1 && forall k | 0 <= k < |end| :: end[k].AgentEnd?
    ensures Ended(RunLog(prompts, turns) + end) == prompts + Ended(LoopLog(turns))
    ensures TurnsEnded(RunLog(prompts, turns) + end) == TurnsEnded(LoopLog(turns))
  {
    NothingEnds(end);
    EndedMessageEvents(prompts);
    EndedInside([AgentStart, TurnStart], MessageEvents(prompts), LoopLog(turns), end);
    TurnsEndedInside([AgentStart, TurnStart], MessageEvents(prompts), LoopLog(turns), end);
  }

  lemma {:induction false} OverStays(tools: seq<Tool>, b: Bracket, log: seq<AgentEvent>)
    requires b.phase == Phase.Over && AcceptAll(tools, b, log).Some?
    ensures AcceptAll(tools, b, log).value.phase == Phase.Over
    decreases log
  {
    if log != [] {
      OverStays(tools, Accept(tools, b, log[0]).value, log[1..]);
    }
  }

  /** The streaming flag changes only with `agent_end`. */
  lemma {:induction false} FoldStreaming(tools: seq<Tool>, s: AgentState, b: Bracket, log: seq<AgentEvent>)
    requires AcceptAll(tools, b, log).Some? && AcceptAll(tools, b, log).value.phase != Phase.Over
    ensures Fold(s, log).isStreaming == s.isStreaming
    decreases log
  {
    if log != [] {
      var b' := Accept(tools, b, log[0]).value;
      if log[0].AgentEnd? {
        OverStays(tools, b', log[1..]);
      }
      FoldStreaming(tools, Handle(s, log[0]), b', log[1..]);
    }
  }

  /** What a run reports, and the state its events are folded into. */
  ghost predicate Reported(
      rt: Runtime, start: seq<Message>, first: seq<Message>, world: World, s: AgentState, r: Report)
  {
    && WellRun(rt, start, first, world, r.turns) && (r.ended ==> r.turns != [])
    && s.pendingToolCalls == {} && s.streamMessage.None?
    && r.log == RunLog(r.prompts, r.turns) + (if r.ended then [AgentEnd(r.newMessages)] else [])
  }

  lemma {:induction false} FoldRunMessages(
      rt: Runtime, start: seq<Message>, first: seq<Message>, world: World, s: AgentState, r: Report)
    requires Reported(rt, start, first, world, s, r)
    ensures Fold(s, r.log).messages == s.messages + r.prompts + Ended(LoopLog(r.turns))
  {
    FoldMessages(s, r.log);
    RunLogEnded(r.prompts, r.turns, if r.ended then [AgentEnd(r.newMessages)] else []);
  }

  lemma {:induction false} FoldRunStreaming(
      rt: Runtime, start: seq<Message>, first: seq<Message>, world: World, s: AgentState, r: Report)
    requires Reported(rt, start, first, world, s, r)
    ensures Fold(s, r.log).isStreaming == (s.isStreaming && !r.ended)
  {
    var log := RunLog(r.prompts, r.turns);
    TraceWellBracketed(rt, start, first, world, r.prompts, r.turns, r.newMessages);
    FoldStreaming(rt.tools, s, Fresh, log);
    if r.ended {
      FoldAppend(s, log, [AgentEnd(r.newMessages)]);
      assert [AgentEnd(r.newMessages)][1..] == [];
    } else {
      assert r.log == log;
    }
  }

  lemma {:induction false} FoldRunSettled(
      rt: Runtime, start: seq<Message>, first: seq<Message>, world: World, s: AgentState, r: Report)
    requires Reported(rt, start, first, world, s, r)
    ensures Fold(s, r.log).pendingToolCalls == {} && Fold(s, r.log).streamMessage.None?
  {
    TraceWellBracketed(rt, start, first, world, r.prompts, r.turns, r.newMessages);
    if !r.ended {
      assert r.log == RunLog(r.prompts, r.turns);
    }
    FoldWithin(rt.tools, s, Fresh, r.log);
  }

  lemma {:induction false} FoldRunError(
      rt: Runtime, start: seq<Message>, first: seq<Message>, world: World, s: AgentState, r: Report)
    requires Reported(rt, start, first, world, s, r)
    ensures Fold(s, r.log).error == LastError(s.error, Responses(r.turns))
  {
    FoldError(s, r.log);
    RunLogEnded(r.prompts, r.turns, if r.ended then [AgentEnd(r.newMessages)] else []);
    TurnsEndWithResponses(rt, start, first, world, r.turns);
  }

  lemma {:induction false} FoldRun(
      rt: Runtime, start: seq<Message>, first: seq<Message>, world: World, s: AgentState, r: Report)
    requires Reported(rt, start, first, world, s, r)
    ensures Fold(s, r.log).messages == s.messages + r.prompts + Ended(LoopLog(r.turns))
    ensures Fold(s, r.log).pendingToolCalls == {} && Fold(s, r.log).streamMessage.None?
    ensures Fold(s, r.log).isStreaming == (s.isStreaming && !r.ended)
    ensures Fold(s, r.log).error == LastError(s.error, Responses(r.turns))
  {
    FoldRunMessages(rt, start, first, world, s, r);
    FoldRunStreaming(rt, start, first, world, s, r);
    FoldRunSettled(rt, start, first, world, s, r);
    FoldRunError(rt, start, first, world, s, r);
  }

  /** Folding the events of a run started by `_runLoop`. */
  lemma {:induction false} Launched(
      rt: Runtime, responses: nat, arrivals: nat -> seq<QueueOp>, s: AgentState, a: Snapshot, b: Snapshot, r: Report,
      before: Queues, after: Queues)
    requires RunOutcome(rt, responses, a, r.ended, r.first, r.turns, r.pending, b)
    requires s.pendingToolCalls == {} && s.streamMessage.None? && s.isStreaming
    requires a.events == [AgentStart, TurnStart] + MessageEvents(r.prompts)
    requires a.messages == s.messages + r.prompts && a.newMessages == r.prompts
    requires r.newMessages == b.newMessages && r.log == b.events
    requires Since(arrivals, a.past, b.past) && a.past.polls == 0 && r.polls == b.past.polls
    requires Holding(a, before) && Holding(b, after)
    ensures var s' := Fold(s, r.log);
            && Told(rt, a.world, s.messages, r, s'.messages)
            && s'.pendingToolCalls == {} && s'.streamMessage.None? && s'.isStreaming == !r.ended
            && s'.error == LastError(s.error, Responses(r.turns))
    ensures Accounted(arrivals, r, false, false, before, after)
  {
    LaunchedQueues(rt, responses, arrivals, a, b, r, before, after);
    Conservation(rt, responses, a, r.ended, r.first, r.turns, r.pending, b);
    LoopLogEnded(rt, a.messages, r.first, a.world, r.turns);
    FoldRun(rt, a.messages, r.first, a.world, s, r);
    Associate(s.messages, r.prompts, Shown(r.turns));
  }

  lemma {:induction false} LaunchedQueues(
      rt: Runtime, responses: nat, arrivals: nat -> seq<QueueOp>, a: Snapshot, b: Snapshot, r: Report,
      before: Queues, after: Queues)
    requires RunOutcome(rt, responses, a, r.ended, r.first, r.turns, r.pending, b)
    requires Since(arrivals, a.past, b.past) && a.past.polls == 0 && r.polls == b.past.polls
    requires Holding(a, before) && Holding(b, after)
    ensures Accounted(arrivals, r, false, false, before, after)
  {
    QueuesConserved(rt, responses, arrivals, a, r.ended, r.first, r.turns, r.pending, b, before, after);
    assert [] + FollowUpsOf(r.turns) == FollowUpsOf(r.turns);
  }
}
