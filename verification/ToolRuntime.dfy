/**
 * One tool call (`executeSingleToolCall`), cut at its awaits: a tool keeps a
 * local state between awaits and each stretch between two awaits is one atomic
 * step on the world.
 */
module ToolRuntime {
  import opened Wrappers
  import opened AgentTypes
  import opened AgentTrace

  /** Whatever tools can read and change: files, processes, the network. */
  type World(!new, ==)

  /** What a suspended tool remembers. */
  type Local(!new, ==)

  datatype Outcome =
    | Continue(local: Local, world: World, updates: seq<string>)
    | Done(world: World, output: string, details: string)
    | Throw(world: World, error: string)

  /**
   * The tools, how their calls begin and go on, and `maxParallelTools` of the loop's
   * configuration.
   */
  datatype Runtime = Runtime(
    tools: seq<Tool>,
    maxParallelTools: Option<int>,
    begin: ToolCall -> Local,
    step: (ToolCall, Local, World) -> Outcome)

  datatype CallState =
    | Running(local: Local, world: World)
    | Finished(result: Message, world: World)

  function UpdateEvents(call: ToolCall, updates: seq<string>): seq<AgentEvent> {
    if updates == [] then [] else [ToolUpdate(call, updates[0])] + UpdateEvents(call, updates[1..])
  }

  /** The three events pushed together when a tool returns or throws. */
  function FinishEvents(result: Message): (events: seq<AgentEvent>)
    requires result.ToolResult?
  {
    [ToolEnd(result.toolCallId, result.toolName, result), MessageStart(result), MessageEnd(result)]
  }

  predicate Answers(result: Message, call: ToolCall) {
    result.ToolResult? && result.toolCallId == call.id && result.toolName == call.name
  }

  /** The step of a call; a call of a tool that does not exist throws at once. */
  function CallStep(rt: Runtime, call: ToolCall, local: Local, world: World): Outcome {
    if FindTool(rt.tools, call.name).None? then Throw(world, "Tool " + call.name + " not found")
    else rt.step(call, local, world)
  }

  /** One atomic stretch of a call: its next state and the events it pushes. */
  function Advance(rt: Runtime, call: ToolCall, local: Local, world: World): (r: (CallState, seq<AgentEvent>))
    ensures r.0.Finished? ==> Answers(r.0.result, call) && r.1 == FinishEvents(r.0.result)
  {
    match CallStep(rt, call, local, world)
    case Continue(l, w, updates) =>
      (Running(l, w), UpdateEvents(call, updates))
    case Done(w, output, details) =>
      var result := ToolResult(call.id, call.name, output, details, false);
      (Finished(result, w), FinishEvents(result))
    case Throw(w, error) =>
      var result := ToolResult(call.id, call.name, error, "{}", true);
      (Finished(result, w), FinishEvents(result))
  }

  /** The state of a call run alone from `world`, after `k` stretches. */
  function Alone(rt: Runtime, call: ToolCall, world: World, k: nat): (r: CallState)
    ensures r.Finished? ==> Answers(r.result, call)
  {
    if k == 0 then Running(rt.begin(call), world)
    else match Alone(rt, call, world, k - 1)
      case Finished(result, w) => Finished(result, w)
      case Running(l, w) => Advance(rt, call, l, w).0
  }

  /** The events a call run alone has pushed after `k` stretches. */
  function AloneLog(rt: Runtime, call: ToolCall, world: World, k: nat): seq<AgentEvent> {
    if k == 0 then [ToolStart(call)]
    else AloneLog(rt, call, world, k - 1) +
         match Alone(rt, call, world, k - 1)
         case Finished(_, _) => []
         case Running(l, w) => Advance(rt, call, l, w).1
  }

  /** The call, run alone from `world`, returns `result` and leaves `after`. */
  ghost predicate Returns(rt: Runtime, call: ToolCall, world: World, result: Message, after: World) {
    exists k: nat :: Alone(rt, call, world, k) == Finished(result, after)
  }

  /** The calls, run one by one in order, return `results` and leave `after`. */
  ghost predicate Sequentially(rt: Runtime, calls: seq<ToolCall>, world: World, results: seq<Message>, after: World)
    decreases calls
  {
    if calls == [] then results == [] && after == world
    else
      results != [] &&
      exists middle ::
        Returns(rt, calls[0], world, results[0], middle) &&
        Sequentially(rt, calls[1..], middle, results[1..], after)
  }

  /** Calling this tool never changes the world. */
  ghost predicate LeavesWorld(rt: Runtime, name: string) {
    forall call: ToolCall, local, world | call.name == name ::
      CallStep(rt, call, local, world).world == world
  }

  /** Every tool that declares `sideEffects === false` keeps the promise. */
  ghost predicate Honest(rt: Runtime) {
    forall name | !HasSideEffects(rt.tools, name) :: LeavesWorld(rt, name)
  }

  lemma {:induction false} FinishedStays(rt: Runtime, call: ToolCall, world: World, k: nat, n: nat)
    requires k <= n && Alone(rt, call, world, k).Finished?
    ensures Alone(rt, call, world, n) == Alone(rt, call, world, k)
    decreases n
  {
    if k < n {
      FinishedStays(rt, call, world, k, n - 1);
    }
  }

  /** Running a call alone has at most one outcome. */
  lemma {:induction false} ReturnsOnce(
      rt: Runtime, call: ToolCall, world: World, r: Message, w: World, r': Message, w': World)
    requires Returns(rt, call, world, r, w) && Returns(rt, call, world, r', w')
    ensures r == r' && w == w'
  {
    var k: nat :| Alone(rt, call, world, k) == Finished(r, w);
    var n: nat :| Alone(rt, call, world, n) == Finished(r', w');
    if k <= n {
      FinishedStays(rt, call, world, k, n);
    } else {
      FinishedStays(rt, call, world, n, k);
    }
  }

  /** One-by-one execution has at most one outcome, so `Sequentially` is a reference result. */
  lemma {:induction false} SequentiallyOnce(
      rt: Runtime, calls: seq<ToolCall>, world: World, rs: seq<Message>, w: World, rs': seq<Message>, w': World)
    requires Sequentially(rt, calls, world, rs, w) && Sequentially(rt, calls, world, rs', w')
    ensures rs == rs' && w == w'
    decreases calls
  {
    if calls != [] {
      var m :| Returns(rt, calls[0], world, rs[0], m) && Sequentially(rt, calls[1..], m, rs[1..], w);
      var m' :| Returns(rt, calls[0], world, rs'[0], m') && Sequentially(rt, calls[1..], m', rs'[1..], w');
      ReturnsOnce(rt, calls[0], world, rs[0], m, rs'[0], m');
      SequentiallyOnce(rt, calls[1..], m, rs[1..], w, rs'[1..], w');
      assert rs == [rs[0]] + rs[1..] && rs' == [rs'[0]] + rs'[1..];
    }
  }

  lemma {:induction false} SequentiallyAppend(
      rt: Runtime, a: seq<ToolCall>, b: seq<ToolCall>,
      w0: World, ra: seq<Message>, w1: World, rb: seq<Message>, w2: World)
    requires Sequentially(rt, a, w0, ra, w1) && Sequentially(rt, b, w1, rb, w2)
    ensures Sequentially(rt, a + b, w0, ra + rb, w2)
    decreases a
  {
    if a == [] {
      assert a + b == b && ra + rb == rb;
    } else {
      var m :| Returns(rt, a[0], w0, ra[0], m) && Sequentially(rt, a[1..], m, ra[1..], w1);
      SequentiallyAppend(rt, a[1..], b, m, ra[1..], w1, rb, w2);
      assert (a + b)[1..] == a[1..] + b && (ra + rb)[1..] == ra[1..] + rb;
    }
  }

  lemma {:induction false} SequentiallyOne(rt: Runtime, call: ToolCall, world: World, result: Message, after: World)
    requires Returns(rt, call, world, result, after)
    ensures Sequentially(rt, [call], world, [result], after)
  {
    assert [call][1..] == [] && [result][1..] == [];
    assert Sequentially(rt, [], after, [], after);
  }

  // ---------------------------------------------------------------------
  // What a call returns and pushes, from what its tool does
  // ---------------------------------------------------------------------

  /** Stretch `k` goes on where the tool was left. */
  predicate GoesOn(rt: Runtime, call: ToolCall, os: seq<Outcome>, k: nat)
    requires 0 < k < |os|
  {
    os[k - 1].Continue? && os[k] == rt.step(call, os[k - 1].local, os[k - 1].world)
  }

  /** What the tool does at its stretches, up to some point, when the call runs alone from `world`. */
  ghost predicate Trail(rt: Runtime, call: ToolCall, world: World, os: seq<Outcome>) {
    && os != [] && os[0] == rt.step(call, rt.begin(call), world)
    && forall k | 0 < k < |os| :: GoesOn(rt, call, os, k)
  }

  /** The updates of some outcomes, one after the other. */
  function UpdatesOf(os: seq<Outcome>): seq<string> {
    if os == [] then []
    else UpdatesOf(os[..|os| - 1]) + (if os[|os| - 1].Continue? then os[|os| - 1].updates else [])
  }

  lemma {:induction false} AloneOnTrail(rt: Runtime, call: ToolCall, world: World, os: seq<Outcome>, k: nat)
    requires Known(rt.tools, call.name) && Trail(rt, call, world, os) && k < |os|
    ensures k > 0 ==> os[k - 1].Continue?
    ensures Alone(rt, call, world, k) ==
            if k == 0 then Running(rt.begin(call), world) else Running(os[k - 1].local, os[k - 1].world)
    ensures var state := Alone(rt, call, world, k); CallStep(rt, call, state.local, state.world) == os[k]
  {
    KnownIff(rt.tools, call.name);
    if k > 0 {
      AloneOnTrail(rt, call, world, os, k - 1);
      assert GoesOn(rt, call, os, k);
    }
  }

  /** A call whose tool throws in the end returns the error and the world the tool left. */
  lemma {:induction false} ThrownReturns(
      rt: Runtime, call: ToolCall, world: World, os: seq<Outcome>, result: Message, after: World)
    requires Known(rt.tools, call.name) && Trail(rt, call, world, os) && os[|os| - 1].Throw?
    ensures Returns(rt, call, world, result, after) <==>
            && result == ToolResult(call.id, call.name, os[|os| - 1].error, "{}", true)
            && after == os[|os| - 1].world
  {
    KnownIff(rt.tools, call.name);
    AloneOnTrail(rt, call, world, os, |os| - 1);
    var r := ToolResult(call.id, call.name, os[|os| - 1].error, "{}", true);
    assert Alone(rt, call, world, |os|) == Finished(r, os[|os| - 1].world);
    if Returns(rt, call, world, result, after) {
      ReturnsOnce(rt, call, world, result, after, r, os[|os| - 1].world);
    }
  }

  /** A call whose tool is done in the end returns the output and the details. */
  lemma {:induction false} DoneReturns(
      rt: Runtime, call: ToolCall, world: World, os: seq<Outcome>, result: Message, after: World)
    requires Known(rt.tools, call.name) && Trail(rt, call, world, os) && os[|os| - 1].Done?
    ensures Returns(rt, call, world, result, after) <==>
            && result == ToolResult(call.id, call.name, os[|os| - 1].output, os[|os| - 1].details, false)
            && after == os[|os| - 1].world
  {
    KnownIff(rt.tools, call.name);
    AloneOnTrail(rt, call, world, os, |os| - 1);
    var r := ToolResult(call.id, call.name, os[|os| - 1].output, os[|os| - 1].details, false);
    assert Alone(rt, call, world, |os|) == Finished(r, os[|os| - 1].world);
    if Returns(rt, call, world, result, after) {
      ReturnsOnce(rt, call, world, result, after, r, os[|os| - 1].world);
    }
  }

  /** A call of a tool that does not exist returns an error and leaves the world alone. */
  lemma {:induction false} UnknownReturns(rt: Runtime, call: ToolCall, world: World, result: Message, after: World)
    requires !Known(rt.tools, call.name)
    ensures Returns(rt, call, world, result, after) <==>
            && result == ToolResult(call.id, call.name, "Tool " + call.name + " not found", "{}", true)
            && after == world
  {
    KnownIff(rt.tools, call.name);
    var r := ToolResult(call.id, call.name, "Tool " + call.name + " not found", "{}", true);
    assert Alone(rt, call, world, 0).Running?;
    assert Alone(rt, call, world, 1) == Finished(r, world);
    if Returns(rt, call, world, result, after) {
      ReturnsOnce(rt, call, world, result, after, r, world);
    }
  }

  /** The outcomes of the first `k` stretches of a call that has not finished before them. */
  lemma {:induction false} TrailOf(rt: Runtime, call: ToolCall, world: World, k: nat) returns (os: seq<Outcome>)
    requires Known(rt.tools, call.name) && k > 0 && Alone(rt, call, world, k - 1).Running?
    ensures |os| == k && Trail(rt, call, world, os)
  {
    KnownIff(rt.tools, call.name);
    var state := Alone(rt, call, world, k - 1);
    if k == 1 {
      os := [rt.step(call, state.local, state.world)];
    } else {
      var before := TrailOf(rt, call, world, k - 1);
      AloneOnTrail(rt, call, world, before, k - 2);
      os := before + [rt.step(call, state.local, state.world)];
      forall i | 0 < i < |os|
        ensures GoesOn(rt, call, os, i)
      {
        assert i < k - 1 ==> GoesOn(rt, call, before, i);
      }
    }
  }

  /** Only calls whose tool throws or is done in the end return. */
  lemma {:induction false} ReturnsOnTrail(rt: Runtime, call: ToolCall, world: World, result: Message, after: World)
    requires Known(rt.tools, call.name) && Returns(rt, call, world, result, after)
    ensures exists os: seq<Outcome> :: Trail(rt, call, world, os) && !os[|os| - 1].Continue?
  {
    var k: nat :| Alone(rt, call, world, k) == Finished(result, after);
    FirstFinished(rt, call, world, k);
  }

  lemma {:induction false} FirstFinished(rt: Runtime, call: ToolCall, world: World, k: nat)
    requires Known(rt.tools, call.name) && Alone(rt, call, world, k).Finished?
    ensures exists os: seq<Outcome> :: Trail(rt, call, world, os) && !os[|os| - 1].Continue?
  {
    KnownIff(rt.tools, call.name);
    if Alone(rt, call, world, k - 1).Finished? {
      FirstFinished(rt, call, world, k - 1);
    } else {
      var os := TrailOf(rt, call, world, k);
      AloneOnTrail(rt, call, world, os, k - 1);
      assert !os[|os| - 1].Continue?;
    }
  }

  lemma {:induction false} UpdateEventsAre(call: ToolCall, updates: seq<string>)
    ensures |UpdateEvents(call, updates)| == |updates|
    ensures forall k | 0 <= k < |updates| :: UpdateEvents(call, updates)[k] == ToolUpdate(call, updates[k])
  {
    if updates != [] {
      UpdateEventsAre(call, updates[1..]);
    }
  }

  /** The events of a call: its start and an update for every partial result, in order. */
  predicate Opening(call: ToolCall, updates: seq<string>, log: seq<AgentEvent>) {
    && |log| == |updates| + 1 && log[0] == ToolStart(call)
    && forall k | 0 <= k < |updates| :: log[k + 1] == ToolUpdate(call, updates[k])
  }

  lemma {:induction false} OpeningMore(call: ToolCall, updates: seq<string>, log: seq<AgentEvent>, more: seq<string>)
    requires Opening(call, updates, log)
    ensures Opening(call, updates + more, log + UpdateEvents(call, more))
  {
    UpdateEventsAre(call, more);
  }

  lemma {:induction false} PushesUpdates(rt: Runtime, call: ToolCall, local: Local, world: World)
    requires CallStep(rt, call, local, world).Continue?
    ensures Advance(rt, call, local, world).1 == UpdateEvents(call, CallStep(rt, call, local, world).updates)
  {
  }

  lemma {:induction false} LogGoesOn(rt: Runtime, call: ToolCall, world: World, os: seq<Outcome>, k: nat)
    requires Known(rt.tools, call.name) && Trail(rt, call, world, os) && 0 < k < |os|
    ensures os[k - 1].Continue?
    ensures AloneLog(rt, call, world, k) == AloneLog(rt, call, world, k - 1) + UpdateEvents(call, os[k - 1].updates)
  {
    KnownIff(rt.tools, call.name);
    assert GoesOn(rt, call, os, k);
    AloneOnTrail(rt, call, world, os, k - 1);
    var state := Alone(rt, call, world, k - 1);
    PushesUpdates(rt, call, state.local, state.world);
  }

  lemma {:induction false} UpdatesTake(os: seq<Outcome>, k: nat)
    requires 0 < k <= |os| && os[k - 1].Continue?
    ensures UpdatesOf(os[..k]) == UpdatesOf(os[..k - 1]) + os[k - 1].updates
  {
    assert os[..k][..k - 1] == os[..k - 1];
  }

  lemma {:induction false} OpeningOnTrail(rt: Runtime, call: ToolCall, world: World, os: seq<Outcome>, k: nat)
    requires Known(rt.tools, call.name) && Trail(rt, call, world, os) && k < |os|
    ensures Opening(call, UpdatesOf(os[..k]), AloneLog(rt, call, world, k))
  {
    if k > 0 {
      OpeningOnTrail(rt, call, world, os, k - 1);
      LogGoesOn(rt, call, world, os, k);
      UpdatesTake(os, k);
      OpeningMore(call, UpdatesOf(os[..k - 1]), AloneLog(rt, call, world, k - 1), os[k - 1].updates);
    }
  }

  /** The call, run alone from `world`, returns `result`, leaves `after` and has pushed `log`. */
  ghost predicate Pushes(
      rt: Runtime, call: ToolCall, world: World, result: Message, after: World, log: seq<AgentEvent>)
  {
    exists k: nat :: Alone(rt, call, world, k) == Finished(result, after) && AloneLog(rt, call, world, k) == log
  }

  lemma {:induction false} FinishedLogStays(rt: Runtime, call: ToolCall, world: World, k: nat, n: nat)
    requires k <= n && Alone(rt, call, world, k).Finished?
    ensures AloneLog(rt, call, world, n) == AloneLog(rt, call, world, k)
    decreases n
  {
    if k < n {
      FinishedStays(rt, call, world, k, n - 1);
      FinishedLogStays(rt, call, world, k, n - 1);
    }
  }

  lemma {:induction false} PushesOnce(
      rt: Runtime, call: ToolCall, world: World, k: nat, result: Message, after: World, log: seq<AgentEvent>)
    requires Alone(rt, call, world, k).Finished? && Pushes(rt, call, world, result, after, log)
    ensures Alone(rt, call, world, k) == Finished(result, after) && AloneLog(rt, call, world, k) == log
  {
    var n: nat :| Alone(rt, call, world, n) == Finished(result, after) && AloneLog(rt, call, world, n) == log;
    if k <= n {
      FinishedStays(rt, call, world, k, n);
      FinishedLogStays(rt, call, world, k, n);
    } else {
      FinishedStays(rt, call, world, n, k);
      FinishedLogStays(rt, call, world, n, k);
    }
  }

  /** The log of a call that returns: start, updates, end, and the message of the result. */
  lemma {:induction false} PushedOnTrail(
      rt: Runtime, call: ToolCall, world: World, os: seq<Outcome>, result: Message, after: World, log: seq<AgentEvent>)
    requires Known(rt.tools, call.name) && Trail(rt, call, world, os) && !os[|os| - 1].Continue?
    requires Pushes(rt, call, world, result, after, log)
    ensures exists opening ::
              && Opening(call, UpdatesOf(os), opening)
              && log == opening + [ToolEnd(call.id, call.name, result), MessageStart(result), MessageEnd(result)]
  {
    KnownIff(rt.tools, call.name);
    var n := |os| - 1;
    AloneOnTrail(rt, call, world, os, n);
    OpeningOnTrail(rt, call, world, os, n);
    PushesOnce(rt, call, world, |os|, result, after, log);
    assert UpdatesOf(os) == UpdatesOf(os[..n]);
    assert Opening(call, UpdatesOf(os), AloneLog(rt, call, world, n));
  }

  lemma {:induction false} PushedUnknown(
      rt: Runtime, call: ToolCall, world: World, result: Message, after: World, log: seq<AgentEvent>)
    requires !Known(rt.tools, call.name) && Pushes(rt, call, world, result, after, log)
    ensures log == [ToolStart(call), ToolEnd(call.id, call.name, result), MessageStart(result), MessageEnd(result)]
  {
    KnownIff(rt.tools, call.name);
    assert Alone(rt, call, world, 0).Running?;
    assert Alone(rt, call, world, 1).Finished?;
    PushesOnce(rt, call, world, 1, result, after, log);
    assert AloneLog(rt, call, world, 0) == [ToolStart(call)];
  }

  lemma {:induction false} UpdateEventsPlain(tools: seq<Tool>, b: Bracket, call: ToolCall, updates: seq<string>)
    requires call.id in b.tools
    ensures AcceptAll(tools, b, UpdateEvents(call, updates)) == Some(b)
    ensures Ended(UpdateEvents(call, updates)) == [] && Started(UpdateEvents(call, updates)) == []
    ensures TurnsEnded(UpdateEvents(call, updates)) == []
    decreases updates
  {
    if updates != [] {
      UpdateEventsPlain(tools, b, call, updates[1..]);
    }
  }

  /** The closing events of a call close exactly its own bracket and end one message. */
  lemma {:induction false} FinishEventsClose(tools: seq<Tool>, b: Bracket, result: Message)
    requires result.ToolResult? && result.toolCallId in b.tools && b.turn && !b.message
    ensures AcceptAll(tools, b, FinishEvents(result)) ==
            Some(b.(tools := b.tools - multiset{result.toolCallId}, exclusive := false))
    ensures Ended(FinishEvents(result)) == [result] && Started(FinishEvents(result)) == []
    ensures TurnsEnded(FinishEvents(result)) == []
  {
    var es := FinishEvents(result);
    assert es[1..] == [MessageStart(result), MessageEnd(result)];
    assert es[1..][1..] == [MessageEnd(result)];
    assert [MessageEnd(result)][1..] == [];
    var b1 := b.(tools := b.tools - multiset{result.toolCallId}, exclusive := false);
    assert AcceptAll(tools, b1.(message := true), [MessageEnd(result)]) == Some(b1);
    assert AcceptAll(tools, b1, es[1..]) == Some(b1);
    assert Ended([MessageEnd(result)]) == [result] && Started([MessageEnd(result)]) == [];
    assert Ended(es[1..]) == [result] && Started(es[1..]) == [];
    assert TurnsEnded([MessageEnd(result)]) == [] && TurnsEnded(es[1..]) == [];
  }

  /** One stretch of an open call. */
  lemma {:induction false} AdvanceAccepted(rt: Runtime, b: Bracket, call: ToolCall, local: Local, world: World)
    requires call.id in b.tools && b.turn && !b.message
    ensures var (state, events) := Advance(rt, call, local, world);
            && AcceptAll(rt.tools, b, events) ==
               Some(if state.Finished? then b.(tools := b.tools - multiset{call.id}, exclusive := false) else b)
            && Ended(events) == (if state.Finished? then [state.result] else [])
            && Started(events) == [] && TurnsEnded(events) == []
  {
    var (state, events) := Advance(rt, call, local, world);
    if state.Finished? {
      FinishEventsClose(rt.tools, b, state.result);
    } else {
      UpdateEventsPlain(rt.tools, b, call, CallStep(rt, call, local, world).updates);
    }
  }

  /** A log in which no message has ended goes on with one that starts no call. */
  lemma {:induction false} LogGrows(
      tools: seq<Tool>, log: seq<AgentEvent>, events: seq<AgentEvent>, b: Bracket, calls: seq<ToolCall>,
      ended: seq<Message>)
    requires AcceptAll(tools, InTurn, log) == Some(b) && Ended(log) == [] && Started(log) == calls
    requires TurnsEnded(log) == [] && TurnsEnded(events) == [] && Started(events) == [] && Ended(events) == ended
    ensures AcceptAll(tools, InTurn, log + events) == AcceptAll(tools, b, events)
    ensures Ended(log + events) == ended && Started(log + events) == calls && TurnsEnded(log + events) == []
  {
    AcceptAppend(tools, InTurn, log, events);
    EndedAppend(log, events);
    StartedAppend(log, events);
    TurnsEndedAppend(log, events);
  }

  /** The log of a call of which so much is done: open, or closed with the message of its result. */
  ghost predicate LogOf(rt: Runtime, call: ToolCall, state: CallState, log: seq<AgentEvent>) {
    && AcceptAll(rt.tools, InTurn, log) ==
       Some(if state.Finished? then InTurn
            else InTurn.(tools := multiset{call.id}, exclusive := HasSideEffects(rt.tools, call.name)))
    && Ended(log) == (if state.Finished? then [state.result] else [])
    && Started(log) == [call] && TurnsEnded(log) == []
  }

  lemma {:induction false} LogOpens(rt: Runtime, call: ToolCall, world: World)
    ensures LogOf(rt, call, Running(rt.begin(call), world), [ToolStart(call)])
  {
    var e := ToolStart(call);
    assert [e][1..] == [];
    assert multiset{} + multiset{call.id} == multiset{call.id};
    assert Accept(rt.tools, InTurn, e).Some?;
  }

  lemma {:induction false} LogAdvances(rt: Runtime, call: ToolCall, local: Local, world: World, log: seq<AgentEvent>)
    requires LogOf(rt, call, Running(local, world), log)
    ensures var (state, events) := Advance(rt, call, local, world); LogOf(rt, call, state, log + events)
  {
    var (state, events) := Advance(rt, call, local, world);
    var b := InTurn.(tools := multiset{call.id}, exclusive := HasSideEffects(rt.tools, call.name));
    AdvanceAccepted(rt, b, call, local, world);
    LogGrows(rt.tools, log, events, b, [call], if state.Finished? then [state.result] else []);
    assert multiset{call.id} - multiset{call.id} == multiset{};
  }

  /** A call run alone inside a turn is well bracketed and ends in its own result message. */
  lemma {:induction false} AloneAccepted(rt: Runtime, call: ToolCall, world: World, k: nat)
    ensures LogOf(rt, call, Alone(rt, call, world, k), AloneLog(rt, call, world, k))
  {
    if k == 0 {
      LogOpens(rt, call, world);
    } else {
      AloneAccepted(rt, call, world, k - 1);
      var before, log := Alone(rt, call, world, k - 1), AloneLog(rt, call, world, k - 1);
      if before.Running? {
        LogAdvances(rt, call, before.local, before.world, log);
      } else {
        assert log + [] == log;
      }
    }
  }
}
