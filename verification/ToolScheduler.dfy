/** `groupToolCalls`, `executeToolCalls` and `skipToolCall` of the agent loop. */
module ToolScheduler {
  import opened Reordering
  import opened Sequences
  import opened Wrappers
  import opened AgentTypes
  import opened AgentTrace
  import opened ToolRuntime
  import opened AgentWorkers
  import opened Mailboxes

  // ---------------------------------------------------------------------
  // Grouping
  // ---------------------------------------------------------------------

  datatype Group = Group(calls: seq<ToolCall>, parallel: bool)

  function FlatMap(groups: seq<Group>): seq<ToolCall> {
    if groups == [] then [] else groups[0].calls + FlatMap(groups[1..])
  }

  predicate ReadOnlyCalls(tools: seq<Tool>, calls: seq<ToolCall>) {
    forall i | 0 <= i < |calls| :: !HasSideEffects(tools, calls[i].name)
  }

  predicate WellGrouped(tools: seq<Tool>, g: Group) {
    if g.parallel then g.calls != [] && ReadOnlyCalls(tools, g.calls)
    else |g.calls| == 1 && HasSideEffects(tools, g.calls[0].name)
  }

  /** Maximal runs of read-only calls, and every side-effecting call by itself. */
  ghost predicate Grouping(tools: seq<Tool>, calls: seq<ToolCall>, groups: seq<Group>) {
    && FlatMap(groups) == calls
    && (forall k | 0 <= k < |groups| :: WellGrouped(tools, groups[k]))
    && (forall k | 0 <= k < |groups| - 1 :: !(groups[k].parallel && groups[k + 1].parallel))
  }

  lemma {:induction false} FlatMapAppend(a: seq<Group>, b: seq<Group>)
    ensures FlatMap(a + b) == FlatMap(a) + FlatMap(b)
  {
    if a == [] {
      assert a + b == b;
    } else {
      assert (a + b)[1..] == a[1..] + b;
      FlatMapAppend(a[1..], b);
    }
  }

  lemma {:induction false} FlatMapOne(g: Group)
    ensures FlatMap([g]) == g.calls
  {
    assert [g][1..] == [];
  }

  lemma {:induction false} GroupingNonempty(tools: seq<Tool>, calls: seq<ToolCall>, groups: seq<Group>)
    requires Grouping(tools, calls, groups)
    ensures groups == [] <==> calls == []
    ensures groups != [] ==> WellGrouped(tools, groups[0]) && groups[0].calls[0] == calls[0]
    ensures groups != [] && groups[0].parallel ==>
              |groups[0].calls| <= |calls| &&
              forall i | 0 <= i < |groups[0].calls| :: !HasSideEffects(tools, calls[i].name)
  {
    if groups != [] {
      assert WellGrouped(tools, groups[0]);
    }
  }

  /** A parallel group is maximal: the call after it has side effects. */
  lemma {:induction false} RunIsMaximal(tools: seq<Tool>, calls: seq<ToolCall>, groups: seq<Group>)
    requires Grouping(tools, calls, groups) && groups != [] && groups[0].parallel
    requires |groups[0].calls| < |calls|
    ensures HasSideEffects(tools, calls[|groups[0].calls|].name)
  {
    var n := |groups[0].calls|;
    TailGrouping(tools, calls, groups);
    GroupingNonempty(tools, calls[n..], groups[1..]);
    assert groups[1..][0] == groups[0 + 1];
    assert calls[n..][0] == calls[n];
  }

  lemma {:induction false} GroupingHead(tools: seq<Tool>, calls: seq<ToolCall>, a: seq<Group>, b: seq<Group>)
    requires Grouping(tools, calls, a) && Grouping(tools, calls, b) && a != []
    ensures b != [] && |a[0].calls| <= |b[0].calls| && a[0].parallel == b[0].parallel
  {
    GroupingNonempty(tools, calls, a);
    GroupingNonempty(tools, calls, b);
    var n := |b[0].calls|;
    if a[0].parallel && n < |calls| {
      RunIsMaximal(tools, calls, b);
    }
  }

  /** There is exactly one grouping, so `Grouping` determines what groupToolCalls returns. */
  lemma {:induction false} GroupingUnique(tools: seq<Tool>, calls: seq<ToolCall>, a: seq<Group>, b: seq<Group>)
    requires Grouping(tools, calls, a) && Grouping(tools, calls, b)
    ensures a == b
    decreases |a|
  {
    GroupingNonempty(tools, calls, a);
    GroupingNonempty(tools, calls, b);
    if a != [] {
      GroupingHead(tools, calls, a, b);
      GroupingHead(tools, calls, b, a);
      var n := |a[0].calls|;
      assert a[0].calls == calls[..n] && b[0].calls == calls[..n];
      assert FlatMap(a[1..]) == calls[n..] && FlatMap(b[1..]) == calls[n..];
      assert Grouping(tools, calls[n..], a[1..]) by { TailGrouping(tools, calls, a); }
      assert Grouping(tools, calls[n..], b[1..]) by { TailGrouping(tools, calls, b); }
      GroupingUnique(tools, calls[n..], a[1..], b[1..]);
      assert a == [a[0]] + a[1..] && b == [b[0]] + b[1..];
    }
  }

  lemma {:induction false} TailGrouping(tools: seq<Tool>, calls: seq<ToolCall>, a: seq<Group>)
    requires Grouping(tools, calls, a) && a != []
    ensures |a[0].calls| <= |calls| && Grouping(tools, calls[|a[0].calls|..], a[1..])
  {
    var t := a[1..];
    forall k | 0 <= k < |t|
      ensures WellGrouped(tools, t[k])
    {
      assert t[k] == a[k + 1];
    }
    forall k | 0 <= k < |t| - 1
      ensures !(t[k].parallel && t[k + 1].parallel)
    {
      assert t[k] == a[k + 1] && t[k + 1] == a[k + 1 + 1];
    }
  }

  /** The group that holds call `n`. */
  function GroupOf(groups: seq<Group>, n: nat): (k: nat)
    requires n < |FlatMap(groups)|
    ensures k < |groups| && FlatMap(groups)[n] in groups[k].calls
  {
    var g := groups[0].calls;
    if n < |g| then 0 else 1 + GroupOf(groups[1..], n - |g|)
  }

  /**
   * A call is in a parallel group exactly if the first tool of its name is declared without
   * side effects; every other call, also of a tool that is not known, is alone in its group.
   */
  lemma {:induction false} ParallelIff(tools: seq<Tool>, calls: seq<ToolCall>, groups: seq<Group>, n: nat)
    requires Grouping(tools, calls, groups) && n < |calls|
    ensures groups[GroupOf(groups, n)].parallel <==> DeclaredReadOnly(tools, calls[n].name)
    ensures !DeclaredReadOnly(tools, calls[n].name) ==> groups[GroupOf(groups, n)].calls == [calls[n]]
  {
    assert WellGrouped(tools, groups[GroupOf(groups, n)]);
    ReadOnlyIff(tools, calls[n].name);
  }

  /** Neighbouring calls share a group exactly if both are declared read-only. */
  lemma {:induction false} SameGroupIff(tools: seq<Tool>, calls: seq<ToolCall>, groups: seq<Group>, n: nat)
    requires Grouping(tools, calls, groups) && n + 1 < |calls|
    ensures GroupOf(groups, n) == GroupOf(groups, n + 1) <==>
            DeclaredReadOnly(tools, calls[n].name) && DeclaredReadOnly(tools, calls[n + 1].name)
    decreases |groups|
  {
    var m := |groups[0].calls|;
    ReadOnlyIff(tools, calls[n].name);
    ReadOnlyIff(tools, calls[n + 1].name);
    assert WellGrouped(tools, groups[0]);
    TailGrouping(tools, calls, groups);
    if n >= m {
      SameGroupIff(tools, calls[m..], groups[1..], n - m);
    } else if n + 1 == m {
      if groups[0].parallel {
        RunIsMaximal(tools, calls, groups);
      }
    } else {
      assert !HasSideEffects(tools, groups[0].calls[n].name) && !HasSideEffects(tools, groups[0].calls[n + 1].name);
    }
  }

  lemma {:induction false} GroupingSnoc(tools: seq<Tool>, calls: seq<ToolCall>, groups: seq<Group>, g: Group)
    requires Grouping(tools, calls, groups) && WellGrouped(tools, g)
    requires g.parallel ==> groups == [] || !groups[|groups| - 1].parallel
    ensures Grouping(tools, calls + g.calls, groups + [g])
  {
    FlatMapAppend(groups, [g]);
    FlatMapOne(g);
  }

  /** The number of read-only calls in front. */
  function ReadOnlyRun(tools: seq<Tool>, calls: seq<ToolCall>): (n: nat)
    ensures n <= |calls| && ReadOnlyCalls(tools, calls[..n])
    ensures n < |calls| ==> HasSideEffects(tools, calls[n].name)
  {
    if calls == [] || HasSideEffects(tools, calls[0].name) then 0 else 1 + ReadOnlyRun(tools, calls[1..])
  }

  /** The groups of some calls. */
  function Groups(tools: seq<Tool>, calls: seq<ToolCall>): seq<Group>
    decreases |calls|
  {
    if calls == [] then []
    else if HasSideEffects(tools, calls[0].name) then [Group(calls[..1], false)] + Groups(tools, calls[1..])
    else
      var n := ReadOnlyRun(tools, calls);
      [Group(calls[..n], true)] + Groups(tools, calls[n..])
  }

  lemma {:induction false} GroupsAreGrouping(tools: seq<Tool>, calls: seq<ToolCall>)
    ensures Grouping(tools, calls, Groups(tools, calls))
    decreases |calls|
  {
    if calls != [] {
      if HasSideEffects(tools, calls[0].name) {
        GroupsAreGrouping(tools, calls[1..]);
        GroupingNext(tools, calls, 1, false);
      } else {
        var n := ReadOnlyRun(tools, calls);
        GroupsAreGrouping(tools, calls[n..]);
        GroupingNext(tools, calls, n, true);
      }
    }
  }

  lemma {:induction false} GroupingNext(tools: seq<Tool>, calls: seq<ToolCall>, n: nat, parallel: bool)
    requires n <= |calls| && WellGrouped(tools, Group(calls[..n], parallel))
    requires parallel && n < |calls| ==> HasSideEffects(tools, calls[n].name)
    requires Grouping(tools, calls[n..], Groups(tools, calls[n..]))
    ensures Grouping(tools, calls, [Group(calls[..n], parallel)] + Groups(tools, calls[n..]))
  {
    var rest := Groups(tools, calls[n..]);
    GroupingNonempty(tools, calls[n..], rest);
    GroupingCons(tools, Group(calls[..n], parallel), calls[n..], rest);
    Halves(calls, n);
  }

  lemma {:induction false} GroupingCons(tools: seq<Tool>, g: Group, calls: seq<ToolCall>, groups: seq<Group>)
    requires WellGrouped(tools, g) && Grouping(tools, calls, groups)
    requires g.parallel && groups != [] ==> !groups[0].parallel
    ensures Grouping(tools, g.calls + calls, [g] + groups)
  {
    var gs := [g] + groups;
    assert gs[1..] == groups;
    forall k | 0 <= k < |gs|
      ensures WellGrouped(tools, gs[k])
    {
      assert k > 0 ==> gs[k] == groups[k - 1];
    }
    forall k | 0 <= k < |gs| - 1
      ensures !(gs[k].parallel && gs[k + 1].parallel)
    {
      assert gs[k + 1] == groups[k] && (k > 0 ==> gs[k] == groups[k - 1]);
      assert k > 0 ==> !(groups[k - 1].parallel && groups[k - 1 + 1].parallel);
    }
  }

  method GroupToolCalls(calls: seq<ToolCall>, tools: seq<Tool>) returns (groups: seq<Group>)
    ensures Grouping(tools, calls, groups) && groups == Groups(tools, calls)
  {
    groups := [];
    var currentReadOnly := [];
    ghost var grouped := [];
    for k := 0 to |calls|
      invariant grouped + currentReadOnly == calls[..k]
      invariant Grouping(tools, grouped, groups)
      invariant groups == [] || !groups[|groups| - 1].parallel
      invariant ReadOnlyCalls(tools, currentReadOnly)
    {
      var call := calls[k];
      Associate(grouped, currentReadOnly, [call]);
      assert calls[..k + 1] == grouped + (currentReadOnly + [call]);
      if HasSideEffects(tools, call.name) {
        if |currentReadOnly| > 0 {
          GroupingSnoc(tools, grouped, groups, Group(currentReadOnly, true));
          groups := groups + [Group(currentReadOnly, true)];
          grouped := grouped + currentReadOnly;
          currentReadOnly := [];
        }
        assert calls[..k + 1] == grouped + [call];
        GroupingSnoc(tools, grouped, groups, Group([call], false));
        groups := groups + [Group([call], false)];
        grouped := grouped + [call];
      } else {
        currentReadOnly := currentReadOnly + [call];
      }
    }
    if |currentReadOnly| > 0 {
      GroupingSnoc(tools, grouped, groups, Group(currentReadOnly, true));
      groups := groups + [Group(currentReadOnly, true)];
    }
    assert calls[..|calls|] == calls;
    GroupsAreGrouping(tools, calls);
    GroupingUnique(tools, calls, groups, Groups(tools, calls));
  }

  // ---------------------------------------------------------------------
  // What a stretch of executed calls guarantees; it composes
  // ---------------------------------------------------------------------

  function SkippedResult(call: ToolCall): Message {
    ToolResult(call.id, call.name, "Skipped due to queued user message.", "{}", true)
  }

  /** One result per call, in call order, under a well-bracketed log. */
  ghost predicate Handled(
      tools: seq<Tool>, calls: seq<ToolCall>, results: seq<Message>, log: seq<AgentEvent>, batches: seq<nat>)
  {
    && |results| == |calls|
    && (forall i | 0 <= i < |calls| :: Answers(results[i], calls[i]))
    && Logged(tools, calls, results, log, batches)
  }

  /**
   * The calls start in order, all brackets close and no turn ends. The calls ran in batches: one
   * call each, or the read-only calls of one pool; the results end batch by batch,
   * in any order inside a batch.
   */
  ghost predicate Logged(
      tools: seq<Tool>, calls: seq<ToolCall>, results: seq<Message>, log: seq<AgentEvent>, batches: seq<nat>)
  {
    && Started(log) == calls && TurnsEnded(log) == []
    && Permuted(Ended(log), results, batches)
    && PooledReadOnly(tools, calls, batches)
    && AcceptAll(tools, InTurn, log) == Some(InTurn)
  }

  /** Only read-only calls share a batch. */
  predicate PooledReadOnly(tools: seq<Tool>, calls: seq<ToolCall>, batches: seq<nat>)
    decreases |batches|
  {
    if batches == [] then calls == []
    else
      && 0 < batches[0] <= |calls|
      && (batches[0] > 1 ==> ReadOnlyCalls(tools, calls[..batches[0]]))
      && PooledReadOnly(tools, calls[batches[0]..], batches[1..])
  }

  function Total(sizes: seq<nat>): nat {
    if sizes == [] then 0 else sizes[0] + Total(sizes[1..])
  }

  /** A call that shares its batch with another is declared read-only. */
  lemma {:induction false} SharedReadOnly(
      tools: seq<Tool>, calls: seq<ToolCall>, batches: seq<nat>, k: nat, i: nat)
    requires PooledReadOnly(tools, calls, batches) && k < |batches| && batches[k] > 1
    requires Total(batches[..k]) <= i < Total(batches[..k]) + batches[k]
    ensures i < |calls| && DeclaredReadOnly(tools, calls[i].name)
    decreases k
  {
    var n := batches[0];
    if k == 0 {
      assert calls[..n][i] == calls[i];
      ReadOnlyIff(tools, calls[i].name);
    } else {
      assert batches[..k][1..] == batches[1..][..k - 1];
      SharedReadOnly(tools, calls[n..], batches[1..], k - 1, i - n);
    }
  }

  lemma {:induction false} PooledAppend(
      tools: seq<Tool>, a: seq<ToolCall>, ba: seq<nat>, b: seq<ToolCall>, bb: seq<nat>)
    requires PooledReadOnly(tools, a, ba) && PooledReadOnly(tools, b, bb)
    ensures PooledReadOnly(tools, a + b, ba + bb)
    decreases |ba|
  {
    if ba == [] {
      assert a + b == b && ba + bb == bb;
    } else {
      Split(a, b, ba[0]);
      Split(ba, bb, 1);
      PooledAppend(tools, a[ba[0]..], ba[1..], b, bb);
    }
  }

  lemma {:induction false} HandledAppend(
      tools: seq<Tool>, a: seq<ToolCall>, ra: seq<Message>, la: seq<AgentEvent>, ba: seq<nat>,
      b: seq<ToolCall>, rb: seq<Message>, lb: seq<AgentEvent>, bb: seq<nat>)
    requires Handled(tools, a, ra, la, ba) && Handled(tools, b, rb, lb, bb)
    ensures Handled(tools, a + b, ra + rb, la + lb, ba + bb)
  {
    LogsAppend(la, lb);
    PermutedAppend(Ended(la), ra, ba, Ended(lb), rb, bb);
    PooledAppend(tools, a, ba, b, bb);
    BracketsAppend(tools, la, lb);
  }

  lemma {:induction false} LogsAppend(la: seq<AgentEvent>, lb: seq<AgentEvent>)
    ensures Started(la + lb) == Started(la) + Started(lb)
    ensures Ended(la + lb) == Ended(la) + Ended(lb)
    ensures TurnsEnded(la + lb) == TurnsEnded(la) + TurnsEnded(lb)
  {
    StartedAppend(la, lb);
    EndedAppend(la, lb);
    TurnsEndedAppend(la, lb);
  }

  lemma {:induction false} BracketsAppend(tools: seq<Tool>, la: seq<AgentEvent>, lb: seq<AgentEvent>)
    requires AcceptAll(tools, InTurn, la) == Some(InTurn) && AcceptAll(tools, InTurn, lb) == Some(InTurn)
    ensures AcceptAll(tools, InTurn, la + lb) == Some(InTurn)
  {
    AcceptAppend(tools, InTurn, la, lb);
  }

  /** A call that runs alone is a batch of its own. */
  lemma {:induction false} LoneBatch(tools: seq<Tool>, call: ToolCall, result: Message, log: seq<AgentEvent>)
    requires Answers(result, call) && Started(log) == [call] && Ended(log) == [result]
    requires AcceptAll(tools, InTurn, log) == Some(InTurn) && TurnsEnded(log) == []
    ensures Handled(tools, [call], [result], log, [1])
  {
    PermutedWhole([result], [result]);
    assert [call][1..] == [] && [1][1..] == [];
  }

  lemma {:induction false} HandledAlone(rt: Runtime, call: ToolCall, world: World, k: nat)
    requires Alone(rt, call, world, k).Finished?
    ensures Handled(rt.tools, [call], [Alone(rt, call, world, k).result], AloneLog(rt, call, world, k), [1])
  {
    AloneAccepted(rt, call, world, k);
    LoneBatch(rt.tools, call, Alone(rt, call, world, k).result, AloneLog(rt, call, world, k));
  }

  /** `executeSingleToolCall`: resume the call until it has finished. */
  method ExecuteSingleToolCall(rt: Runtime, call: ToolCall, world: World, ghost steps: nat)
    returns (result: Message, after: World, log: seq<AgentEvent>)
    requires Alone(rt, call, world, steps).Finished?
    ensures Returns(rt, call, world, result, after) && Pushes(rt, call, world, result, after, log)
    ensures Handled(rt.tools, [call], [result], log, [1])
  {
    var state := Running(rt.begin(call), world);
    log := [ToolStart(call)];
    ghost var k: nat := 0;
    while state.Running?
      invariant k <= steps
      invariant state == Alone(rt, call, world, k) && log == AloneLog(rt, call, world, k)
      decreases steps - k
    {
      var (next, events) := Advance(rt, call, state.local, state.world);
      state, log := next, log + events;
      k := k + 1;
      if k > steps {
        FinishedStays(rt, call, world, steps, k - 1);
      }
    }
    HandledAlone(rt, call, world, k);
    assert Alone(rt, call, world, k) == Finished(state.result, state.world);
    result, after := state.result, state.world;
  }

  /** `skipToolCall`: the events and the result of a call that is not run. */
  method SkipToolCall(tools: seq<Tool>, call: ToolCall) returns (result: Message, log: seq<AgentEvent>)
    ensures result == SkippedResult(call)
    ensures result == ToolResult(call.id, call.name, "Skipped due to queued user message.", "{}", true)
    ensures log == [ToolStart(call), ToolEnd(call.id, call.name, result), MessageStart(result), MessageEnd(result)]
    ensures Handled(tools, [call], [result], log, [1])
  {
    result := SkippedResult(call);
    log := [ToolStart(call)] + FinishEvents(result);
    SkipHandled(tools, call);
  }

  lemma {:induction false} SkipHandled(tools: seq<Tool>, call: ToolCall)
    ensures Handled(tools, [call], [SkippedResult(call)],
                    [ToolStart(call)] + FinishEvents(SkippedResult(call)), [1])
  {
    var head, tail := [ToolStart(call)], FinishEvents(SkippedResult(call));
    var b := InTurn.(tools := multiset{} + multiset{call.id}, exclusive := HasSideEffects(tools, call.name));
    assert head[1..] == [];
    assert Accept(tools, InTurn, ToolStart(call)) == Some(b);
    AcceptAppend(tools, InTurn, head, tail);
    FinishEventsClose(tools, b, SkippedResult(call));
    EndedAppend(head, tail);
    StartedAppend(head, tail);
    TurnsEndedAppend(head, tail);
    LoneBatch(tools, call, SkippedResult(call), head + tail);
  }

  // ---------------------------------------------------------------------
  // Executing the calls of one response
  // ---------------------------------------------------------------------

  /**
   * The interleaving of every pool and the length of every single run, chosen
   * per execution (`clock` counts them), calls and world: each execution may
   * resolve its races differently.
   */
  datatype Schedules = Schedules(
    pool: (nat, seq<ToolCall>, World) -> seq<nat>,
    solo: (nat, ToolCall, World) -> nat)

  /** Every call that is started, alone or in a pool of read-only calls, returns or throws eventually. */
  ghost predicate Completes(rt: Runtime, s: Schedules) {
    && (forall k: nat, calls: seq<ToolCall>, w: World | ReadOnlyCalls(rt.tools, calls) ::
          AllReturned(Reached(rt, calls, Concurrency(rt.maxParallelTools), w, s.pool(k, calls, w))))
    && AloneCompletes(rt, s)
  }

  /** The same for the calls that run by themselves. */
  ghost predicate AloneCompletes(rt: Runtime, s: Schedules) {
    forall k: nat, call: ToolCall, w: World :: Alone(rt, call, w, s.solo(k, call, w)).Finished?
  }

  function Concurrency(maxParallelTools: Option<int>): int {
    Max(1, if maxParallelTools.Some? then maxParallelTools.value else 5)
  }

  /** A group runs in a pool if it is parallel, has several calls and may use several workers. */
  predicate InPool(group: Group, maxParallelTools: Option<int>) {
    group.parallel && |group.calls| > 1 && Concurrency(maxParallelTools) > 1
  }

  /** The width of a pool: `maxParallelTools`, or five, but at least one and no more than there are calls. */
  lemma {:induction false} PoolWidth(rt: Runtime, calls: seq<ToolCall>, world: World, schedule: seq<nat>)
    requires calls != []
    ensures |Reached(rt, calls, Concurrency(rt.maxParallelTools), world, schedule).workers| ==
            match rt.maxParallelTools
            case None => if |calls| < 5 then |calls| else 5
            case Some(m) => if m < 1 then 1 else if m < |calls| then m else |calls|
  {
    PoolSafety(rt, calls, Concurrency(rt.maxParallelTools), world, schedule);
  }

  lemma {:induction false} SharesGroupIff(groups: seq<Group>, n: nat)
    requires n < |FlatMap(groups)| && forall k | 0 <= k < |groups| :: groups[k].calls != []
    ensures |groups[GroupOf(groups, n)].calls| > 1 <==>
            || (n > 0 && GroupOf(groups, n - 1) == GroupOf(groups, n))
            || (n + 1 < |FlatMap(groups)| && GroupOf(groups, n + 1) == GroupOf(groups, n))
  {
    var m := |groups[0].calls|;
    assert groups[0].calls != [];
    if n >= m {
      SharesGroupIff(groups[1..], n - m);
    }
  }

  /**
   * A call belongs to a pool exactly if it and a neighbour are declared read-only and the limit
   * is not one: by default five may run at a time.
   */
  lemma {:induction false} PooledIff(
      tools: seq<Tool>, calls: seq<ToolCall>, groups: seq<Group>, maxParallelTools: Option<int>, n: nat)
    requires Grouping(tools, calls, groups) && n < |calls|
    ensures InPool(groups[GroupOf(groups, n)], maxParallelTools) <==>
            && (maxParallelTools.None? || maxParallelTools.value > 1)
            && DeclaredReadOnly(tools, calls[n].name)
            && (|| (n > 0 && DeclaredReadOnly(tools, calls[n - 1].name))
                || (n + 1 < |calls| && DeclaredReadOnly(tools, calls[n + 1].name)))
  {
    forall k | 0 <= k < |groups|
      ensures groups[k].calls != []
    {
      assert WellGrouped(tools, groups[k]);
    }
    SharesGroupIff(groups, n);
    ParallelIff(tools, calls, groups, n);
    if n > 0 {
      SameGroupIff(tools, calls, groups, n - 1);
    }
    if n + 1 < |calls| {
      SameGroupIff(tools, calls, groups, n);
    }
  }

  /** The batches of a group of which `n` calls ran. */
  function GroupBatches(g: Group, maxParallelTools: Option<int>, n: nat): seq<nat> {
    if InPool(g, maxParallelTools) then [n] else Ones(n)
  }

  /** The batches of the first `executed` calls of some groups. */
  function BatchSizes(groups: seq<Group>, maxParallelTools: Option<int>, executed: nat): seq<nat> {
    if groups == [] then []
    else
      var n := |groups[0].calls|;
      if executed < n then Ones(executed)
      else GroupBatches(groups[0], maxParallelTools, n) + BatchSizes(groups[1..], maxParallelTools, executed - n)
  }

  /** The first `executed` calls end inside no group that runs in a pool. */
  predicate PoolsWhole(groups: seq<Group>, maxParallelTools: Option<int>, executed: nat) {
    groups != [] ==>
      var n := |groups[0].calls|;
      if executed < n then executed == 0 || !InPool(groups[0], maxParallelTools)
      else PoolsWhole(groups[1..], maxParallelTools, executed - n)
  }

  /** Some calls of group `k` run after all calls of the groups before it. */
  lemma {:induction false} BatchesStep(groups: seq<Group>, maxParallelTools: Option<int>, k: nat, n: nat)
    requires k < |groups| && forall i | 0 <= i < |groups| :: groups[i].calls != []
    requires n <= |groups[k].calls| && (InPool(groups[k], maxParallelTools) ==> n == |groups[k].calls|)
    ensures var e := |FlatMap(groups[..k])|;
            && BatchSizes(groups, maxParallelTools, e + n)
               == BatchSizes(groups, maxParallelTools, e) + GroupBatches(groups[k], maxParallelTools, n)
            && PoolsWhole(groups, maxParallelTools, e + n)
    decreases k
  {
    var g, rest := groups[0], groups[1..];
    assert groups[0].calls != [];
    if k == 0 {
      FirstBatches(groups, maxParallelTools, n);
    } else {
      var e := |FlatMap(rest[..k - 1])|;
      BatchesStep(rest, maxParallelTools, k - 1, n);
      FirstCounted(groups, k);
      BatchesBehind(groups, maxParallelTools, e);
      BatchesBehind(groups, maxParallelTools, e + n);
      Associate(GroupBatches(g, maxParallelTools, |g.calls|), BatchSizes(rest, maxParallelTools, e),
                GroupBatches(rest[k - 1], maxParallelTools, n));
    }
  }

  lemma {:induction false} FirstCounted(groups: seq<Group>, k: nat)
    requires 0 < k <= |groups|
    ensures |FlatMap(groups[..k])| == |groups[0].calls| + |FlatMap(groups[1..][..k - 1])|
  {
    assert groups[..k][1..] == groups[1..][..k - 1];
  }

  lemma {:induction false} BatchesBehind(groups: seq<Group>, maxParallelTools: Option<int>, n: nat)
    requires groups != []
    ensures var m := |groups[0].calls|;
            && BatchSizes(groups, maxParallelTools, m + n)
               == GroupBatches(groups[0], maxParallelTools, m) + BatchSizes(groups[1..], maxParallelTools, n)
            && PoolsWhole(groups, maxParallelTools, m + n) == PoolsWhole(groups[1..], maxParallelTools, n)
  {
  }

  lemma {:induction false} NoBatches(groups: seq<Group>, maxParallelTools: Option<int>)
    requires groups != [] ==> groups[0].calls != []
    ensures BatchSizes(groups, maxParallelTools, 0) == [] && PoolsWhole(groups, maxParallelTools, 0)
  {
  }

  lemma {:induction false} FirstBatches(groups: seq<Group>, maxParallelTools: Option<int>, n: nat)
    requires groups != [] && forall i | 0 <= i < |groups| :: groups[i].calls != []
    requires n <= |groups[0].calls| && (InPool(groups[0], maxParallelTools) ==> n == |groups[0].calls|)
    ensures BatchSizes(groups, maxParallelTools, n) == [] + GroupBatches(groups[0], maxParallelTools, n)
    ensures PoolsWhole(groups, maxParallelTools, n)
    ensures FlatMap(groups[..0]) == [] && BatchSizes(groups, maxParallelTools, 0) == []
  {
    NoBatches(groups, maxParallelTools);
    NoBatches(groups[1..], maxParallelTools);
  }

  /** Group `k` ran, all of it, and in a pool. */
  predicate PoolRan(groups: seq<Group>, maxParallelTools: Option<int>, executed: nat, k: nat)
    requires k < |groups|
  {
    InPool(groups[k], maxParallelTools) && |FlatMap(groups[..k + 1])| <= executed
  }

  predicate NoPoolRan(groups: seq<Group>, maxParallelTools: Option<int>, executed: nat) {
    forall k | 0 <= k < |groups| :: !PoolRan(groups, maxParallelTools, executed, k)
  }

  /** All batches are single calls if and only if no pool ran. */
  lemma {:induction false} NoPoolsRanIff(groups: seq<Group>, maxParallelTools: Option<int>, executed: nat)
    ensures AllOnes(BatchSizes(groups, maxParallelTools, executed)) <==>
            NoPoolRan(groups, maxParallelTools, executed)
    decreases |groups|
  {
    if groups != [] {
      var n := |groups[0].calls|;
      assert groups[..1] == [groups[0]];
      FlatMapOne(groups[0]);
      if executed < n {
        forall k | 0 <= k < |groups|
          ensures !PoolRan(groups, maxParallelTools, executed, k)
        {
          FirstCounted(groups, k + 1);
        }
      } else {
        NoPoolsRanIff(groups[1..], maxParallelTools, executed - n);
        PoolsRanFrom(groups, maxParallelTools, executed);
        PoolIsNoOne(groups[0], maxParallelTools);
        BatchesBehind(groups, maxParallelTools, executed - n);
        OnesAppend(GroupBatches(groups[0], maxParallelTools, n),
                   BatchSizes(groups[1..], maxParallelTools, executed - n));
      }
    }
  }

  lemma {:induction false} PoolIsNoOne(g: Group, maxParallelTools: Option<int>)
    ensures AllOnes(GroupBatches(g, maxParallelTools, |g.calls|)) <==> !InPool(g, maxParallelTools)
  {
    assert [|g.calls|][0] == |g.calls|;
  }

  /** A pool ran in front or behind. */
  lemma {:induction false} PoolsRanFrom(groups: seq<Group>, maxParallelTools: Option<int>, executed: nat)
    requires groups != [] && |groups[0].calls| <= executed
    ensures NoPoolRan(groups, maxParallelTools, executed) <==>
            && !InPool(groups[0], maxParallelTools)
            && NoPoolRan(groups[1..], maxParallelTools, executed - |groups[0].calls|)
  {
    var rest, e := groups[1..], executed - |groups[0].calls|;
    assert groups[..1] == [groups[0]];
    FlatMapOne(groups[0]);
    assert PoolRan(groups, maxParallelTools, executed, 0) <==> InPool(groups[0], maxParallelTools);
    forall k | 0 <= k < |rest|
      ensures PoolRan(rest, maxParallelTools, e, k) <==> PoolRan(groups, maxParallelTools, executed, k + 1)
    {
      FirstCounted(groups, k + 2);
    }
    if NoPoolRan(rest, maxParallelTools, e) && !InPool(groups[0], maxParallelTools) {
      forall k | 0 <= k < |groups|
        ensures !PoolRan(groups, maxParallelTools, executed, k)
      {
        assert k > 0 ==> !PoolRan(rest, maxParallelTools, e, k - 1);
      }
    }
  }

  lemma {:induction false} OnesAppend(a: seq<nat>, b: seq<nat>)
    ensures AllOnes(a + b) <==> AllOnes(a) && AllOnes(b)
  {
    assert forall k | 0 <= k < |b| :: b[k] == (a + b)[|a| + k];
    assert forall k | 0 <= k < |a| :: a[k] == (a + b)[k];
  }

  /**
   * `executed` counts the calls that ran; `steering` is empty when nothing interrupted;
   * `batches` are the sizes of the pools, and 1 for each call outside a pool.
   */
  datatype Execution = Execution(
    results: seq<Message>, steering: seq<Message>, log: seq<AgentEvent>, executed: nat, batches: seq<nat>)

  const NothingExecuted := Execution([], [], [], 0, [])

  /**
   * Every call gets exactly one result, in call order. The calls that ran are a
   * prefix; without steering it is all of them; the rest are skipped. A group that
   * runs in a pool ran as a whole and is one batch; every other call is a batch of
   * its own. For honest tools the prefix has the results and the world of one-by-one
   * execution, whatever the interleaving and the limit were.
   */
  ghost predicate Executed(rt: Runtime, calls: seq<ToolCall>, x: Execution, world: World, after: World) {
    match x
    case Execution(results, steering, log, executed, batches) =>
      && Handled(rt.tools, calls, results, log, batches)
      && executed <= |calls|
      && (steering == [] ==> executed == |calls|)
      && (forall i | executed <= i < |calls| :: results[i] == SkippedResult(calls[i]))
      && (Honest(rt) ==> Sequentially(rt, calls[..executed], world, results[..executed], after))
      && InBatches(rt, calls, executed, batches)
  }

  /** The batches are those of the groups as far as they ran, and one for each skipped call. */
  ghost predicate InBatches(rt: Runtime, calls: seq<ToolCall>, executed: nat, batches: seq<nat>)
    requires executed <= |calls|
  {
    forall groups | Grouping(rt.tools, calls, groups) ::
      && batches == BatchSizes(groups, rt.maxParallelTools, executed) + Ones(|calls| - executed)
      && PoolsWhole(groups, rt.maxParallelTools, executed)
  }

  /** There is exactly one grouping to speak of. */
  lemma {:induction false} InBatchesIff(rt: Runtime, calls: seq<ToolCall>, executed: nat, batches: seq<nat>)
    requires executed <= |calls|
    ensures var groups := Groups(rt.tools, calls);
            InBatches(rt, calls, executed, batches) <==>
            && batches == BatchSizes(groups, rt.maxParallelTools, executed) + Ones(|calls| - executed)
            && PoolsWhole(groups, rt.maxParallelTools, executed)
  {
    GroupsAreGrouping(rt.tools, calls);
    forall groups | Grouping(rt.tools, calls, groups)
      ensures groups == Groups(rt.tools, calls)
    {
      GroupingUnique(rt.tools, calls, groups, Groups(rt.tools, calls));
    }
  }

  /** The executed stretch so far. */
  ghost predicate Ran(
      rt: Runtime, done: seq<ToolCall>, results: seq<Message>, log: seq<AgentEvent>, batches: seq<nat>,
      world: World, now: World)
  {
    match rt
    case Runtime(tools, _, _, _) =>
      && Handled(tools, done, results, log, batches)
      && (Honest(rt) ==> Sequentially(rt, done, world, results, now))
  }

  lemma {:induction false} RanAppend(
      rt: Runtime, a: seq<ToolCall>, ra: seq<Message>, la: seq<AgentEvent>, ba: seq<nat>, w0: World, w1: World,
      b: seq<ToolCall>, rb: seq<Message>, lb: seq<AgentEvent>, bb: seq<nat>, w2: World)
    requires Ran(rt, a, ra, la, ba, w0, w1) && Ran(rt, b, rb, lb, bb, w1, w2)
    ensures Ran(rt, a + b, ra + rb, la + lb, ba + bb, w0, w2)
  {
    HandledAppend(rt.tools, a, ra, la, ba, b, rb, lb, bb);
    if Honest(rt) {
      SequentiallyAppend(rt, a, b, w0, ra, w1, rb, w2);
    }
  }

  lemma {:induction false} RanNothing(rt: Runtime, world: World)
    ensures Ran(rt, [], [], [], [], world, world)
  {
  }

  lemma {:induction false} FlatMapSplit(a: seq<Group>, g: Group, b: seq<Group>)
    ensures FlatMap(a + [g] + b) == FlatMap(a) + g.calls + FlatMap(b)
  {
    FlatMapAppend(a + [g], b);
    FlatMapSnoc(a, g);
  }

  lemma {:induction false} FlatMapPrefix(groups: seq<Group>, k: nat)
    requires k < |groups|
    ensures FlatMap(groups[..k + 1]) == FlatMap(groups[..k]) + groups[k].calls
    ensures FlatMap(groups[..k]) + groups[k].calls + FlatMap(groups[k + 1..]) == FlatMap(groups)
  {
    var a, g, b := groups[..k], groups[k], groups[k + 1..];
    FlatMapSnoc(a, g);
    FlatMapSplit(a, g, b);
    CutAround(groups, k);
  }

  lemma {:induction false} FlatMapSnoc(a: seq<Group>, g: Group)
    ensures FlatMap(a + [g]) == FlatMap(a) + g.calls
  {
    FlatMapAppend(a, [g]);
    FlatMapOne(g);
  }

  lemma {:induction false} RanSnoc(
      rt: Runtime, calls: seq<ToolCall>, j: nat, results: seq<Message>, log: seq<AgentEvent>, world: World,
      after: World, result: Message, events: seq<AgentEvent>, now: World)
    requires j < |calls| && Ran(rt, calls[..j], results, log, Ones(j), world, after)
    requires Ran(rt, [calls[j]], [result], events, [1], after, now)
    ensures Ran(rt, calls[..j + 1], results + [result], log + events, Ones(j + 1), world, now)
  {
    RanAppend(rt, calls[..j], results, log, Ones(j), world, after, [calls[j]], [result], events, [1], now);
    CutAround(calls, j);
    assert Ones(j + 1) == Ones(j) + [1];
  }

  /** The next call, after the first `j` of them. */
  method RunNext(
      rt: Runtime, calls: seq<ToolCall>, j: nat, results: seq<Message>, log: seq<AgentEvent>,
      ghost schedules: Schedules, clock: nat, ghost world: World, after: World)
    returns (results': seq<Message>, log': seq<AgentEvent>, now: World)
    requires j < |calls| && Ran(rt, calls[..j], results, log, Ones(j), world, after)
    requires AloneCompletes(rt, schedules)
    ensures |results'| == |results| + 1 && Ran(rt, calls[..j + 1], results', log', Ones(j + 1), world, now)
  {
    var result, after', events :=
      ExecuteSingleToolCall(rt, calls[j], after, schedules.solo(clock, calls[j], after));
    SequentiallyOne(rt, calls[j], after, result, after');
    RanSnoc(rt, calls, j, results, log, world, after, result, events, after');
    results', log', now := results + [result], log + events, after';
  }

  /** One poll for steering; since `start` and `p` none has taken anything. */
  method PollSince(config: LoopConfig, ghost start: Ledger, ghost p: Post) returns (steering: seq<Message>)
    requires config.Ready()
    requires FirstTaken(config.arrivals, start, p, config.Entries(), config.mailbox.Now(), [])
    modifies config, config.mailbox
    ensures config.Ready() && config.polls == old(config.polls) + 1
    ensures FirstTaken(config.arrivals, start, p, config.Entries(), config.mailbox.Now(), steering)
    ensures steering == [] ==> config.mailbox.steeringQueue == []
  {
    ghost var before, q := config.Entries(), config.mailbox.Now();
    steering := config.GetSteeringMessages();
    TakenNext(config.arrivals, start, p, before, q, config.Entries(), steering);
  }

  /**
   * The first `x.executed` calls ran one by one with one poll after each, of which only
   * the last took something, namely `x.steering`. There were `polls` polls before; the
   * polls since `start` and `p` led to `entries` and `q`.
   */
  ghost predicate OneByOne(
      rt: Runtime, calls: seq<ToolCall>, x: Execution, world: World, now: World,
      arrivals: nat -> seq<QueueOp>, start: Ledger, p: Post, polls: nat, entries: Ledger, q: Post)
  {
    match x
    case Execution(results, steering, log, executed, batches) =>
      && executed == |results| <= |calls| && batches == Ones(executed)
      && Ran(rt, calls[..executed], results, log, batches, world, now)
      && FirstTaken(arrivals, start, p, entries, q, steering)
      && entries.past.polls == polls + executed
  }

  lemma {:induction false} NothingYet(
      rt: Runtime, calls: seq<ToolCall>, world: World,
      arrivals: nat -> seq<QueueOp>, start: Ledger, p: Post, entries: Ledger, q: Post)
    requires FirstTaken(arrivals, start, p, entries, q, [])
    ensures OneByOne(rt, calls, NothingExecuted, world, world, arrivals, start, p, entries.past.polls, entries, q)
  {
    RanNothing(rt, world);
    assert calls[..0] == [];
  }

  /** The next call and the poll after it. */
  method RunAndPoll(
      rt: Runtime, calls: seq<ToolCall>, x: Execution, ghost schedules: Schedules, clock: nat,
      ghost world: World, now: World, config: LoopConfig, ghost start: Ledger, ghost p: Post, ghost polls: nat)
    returns (y: Execution, after: World)
    requires AloneCompletes(rt, schedules) && config.Ready() && x.executed < |calls| && x.steering == []
    requires OneByOne(rt, calls, x, world, now, config.arrivals, start, p, polls, config.Entries(),
                      config.mailbox.Now())
    modifies config, config.mailbox
    ensures config.Ready() && y.executed == x.executed + 1
    ensures OneByOne(rt, calls, y, world, after, config.arrivals, start, p, polls, config.Entries(),
                     config.mailbox.Now())
  {
    var results, log;
    results, log, after := RunNext(rt, calls, x.executed, x.results, x.log, schedules, clock, world, now);
    var steering := PollSince(config, start, p);
    y := Execution(results, steering, log, x.executed + 1, Ones(x.executed + 1));
  }

  /**
   * The sequential branch: one call at a time, and one poll after each that was run. It
   * stops at the first poll that takes something, whatever arrives before it.
   */
  method ExecuteInTurn(
      rt: Runtime, calls: seq<ToolCall>, config: LoopConfig, ghost schedules: Schedules, clock: nat, world: World,
      ghost start: Ledger, ghost p: Post)
    returns (x: Execution, after: World, clock': nat)
    requires AloneCompletes(rt, schedules) && config.Ready()
    requires FirstTaken(config.arrivals, start, p, config.Entries(), config.mailbox.Now(), [])
    modifies config, config.mailbox
    ensures config.Ready()
    ensures OneByOne(rt, calls, x, world, after, config.arrivals, start, p, old(config.polls),
                     config.Entries(), config.mailbox.Now())
    ensures x.steering == [] ==> x.executed == |calls|
  {
    ghost var polls := config.polls;
    x, after, clock' := NothingExecuted, world, clock;
    NothingYet(rt, calls, world, config.arrivals, start, p, config.Entries(), config.mailbox.Now());
    while x.executed < |calls| && |x.steering| == 0
      invariant config.Ready() && x.executed <= |calls|
      invariant OneByOne(rt, calls, x, world, after, config.arrivals, start, p, polls, config.Entries(),
                         config.mailbox.Now())
      decreases |calls| - x.executed
    {
      x, after := RunAndPoll(rt, calls, x, schedules, clock', world, after, config, start, p, polls);
      clock' := clock' + 1;
    }
  }

  lemma {:induction false} HandledSnoc(
      tools: seq<Tool>, calls: seq<ToolCall>, k: nat, results: seq<Message>, log: seq<AgentEvent>,
      result: Message, events: seq<AgentEvent>)
    requires k < |calls| && Handled(tools, calls[..k], results, log, Ones(k))
    requires Handled(tools, [calls[k]], [result], events, [1])
    ensures Handled(tools, calls[..k + 1], results + [result], log + events, Ones(k + 1))
  {
    HandledAppend(tools, calls[..k], results, log, Ones(k), [calls[k]], [result], events, [1]);
    CutAround(calls, k);
    assert Ones(k + 1) == Ones(k) + [1];
  }

  method SkipAll(tools: seq<Tool>, calls: seq<ToolCall>) returns (results: seq<Message>, log: seq<AgentEvent>)
    ensures Handled(tools, calls, results, log, Ones(|calls|))
    ensures forall i | 0 <= i < |calls| :: results[i] == SkippedResult(calls[i])
  {
    results, log := [], [];
    for k := 0 to |calls|
      invariant |results| == k && forall i | 0 <= i < k :: results[i] == SkippedResult(calls[i])
      invariant Handled(tools, calls[..k], results, log, Ones(k))
    {
      var result, events := SkipToolCall(tools, calls[k]);
      HandledSnoc(tools, calls, k, results, log, result, events);
      results, log := results + [result], log + events;
    }
    assert calls[..|calls|] == calls;
  }

  /** The calls of a pool are one batch. */
  lemma {:induction false} PoolBatch(
      tools: seq<Tool>, calls: seq<ToolCall>, results: seq<Message>, log: seq<AgentEvent>)
    requires calls != [] && ReadOnlyCalls(tools, calls) && |results| == |calls|
    requires forall i | 0 <= i < |calls| :: Answers(results[i], calls[i])
    requires Started(log) == calls && multiset(Ended(log)) == multiset(results)
    requires AcceptAll(tools, InTurn, log) == Some(InTurn) && TurnsEnded(log) == []
    ensures Handled(tools, calls, results, log, [|calls|])
  {
    assert |multiset(Ended(log))| == |Ended(log)| && |multiset(results)| == |results|;
    PermutedWhole(Ended(log), results);
    assert calls[..|calls|] == calls && calls[|calls|..] == [] && [|calls|][1..] == [];
  }

  /** The calls of a group that ran: all of them, unless a call outside a pool was interrupted. */
  ghost predicate RanGroup(rt: Runtime, g: Group, x: Execution, world: World, now: World) {
    match x
    case Execution(results, steering, log, executed, batches) =>
      && executed == |results| <= |g.calls|
      && (steering == [] || InPool(g, rt.maxParallelTools) ==> executed == |g.calls|)
      && batches == GroupBatches(g, rt.maxParallelTools, executed)
      && Ran(rt, g.calls[..executed], results, log, batches, world, now)
  }

  /** A group whose calls run in a pool. */
  method ExecuteInPool(
      rt: Runtime, calls: seq<ToolCall>, schedules: Schedules, clock: nat, world: World)
    returns (results: seq<Message>, log: seq<AgentEvent>, after: World)
    requires Completes(rt, schedules) && calls != [] && ReadOnlyCalls(rt.tools, calls)
    ensures |results| == |calls| && Ran(rt, calls, results, log, [|results|], world, after)
  {
    results, after, log := ExecuteWithConcurrencyLimit(
      rt, calls, Concurrency(rt.maxParallelTools), world, schedules.pool(clock, calls, world));
    PoolBatch(rt.tools, calls, results, log);
  }

  /** One group, and the poll after it unless a call was already interrupted. */
  method ExecuteGroup(
      rt: Runtime, group: Group, config: LoopConfig, schedules: Schedules, clock: nat, world: World,
      ghost start: Ledger, ghost p: Post)
    returns (x: Execution, after: World, clock': nat)
    requires Completes(rt, schedules) && WellGrouped(rt.tools, group) && config.Ready()
    requires FirstTaken(config.arrivals, start, p, config.Entries(), config.mailbox.Now(), [])
    modifies config, config.mailbox
    ensures config.Ready()
    ensures FirstTaken(config.arrivals, start, p, config.Entries(), config.mailbox.Now(), x.steering)
    ensures RanGroup(rt, group, x, world, after)
    ensures x.steering == [] ==> config.mailbox.steeringQueue == []
    ensures x.steering == [] ==>
              config.polls == old(config.polls) + (if InPool(group, rt.maxParallelTools) then 1 else x.executed + 1)
  {
    if InPool(group, rt.maxParallelTools) {
      var results, log;
      results, log, after := ExecuteInPool(rt, group.calls, schedules, clock, world);
      x, clock' := Execution(results, [], log, |results|, [|results|]), clock + 1;
      assert group.calls[..|results|] == group.calls;
    } else {
      x, after, clock' := ExecuteInTurn(rt, group.calls, config, schedules, clock, world, start, p);
    }
    if |x.steering| == 0 {
      var steering := PollSince(config, start, p);
      x := x.(steering := steering);
    }
  }

  // ---------------------------------------------------------------------
  // All groups
  // ---------------------------------------------------------------------

  /** `n` calls of the next group ran after the groups before it. */
  lemma {:induction false} GroupRan(groups: seq<Group>, k: nat, calls: seq<ToolCall>, n: nat)
    requires k < |groups| && FlatMap(groups) == calls && n <= |groups[k].calls|
    ensures FlatMap(groups[..k]) + groups[k].calls[..n] <= calls
    ensures n == |groups[k].calls| ==> FlatMap(groups[..k]) + groups[k].calls[..n] == FlatMap(groups[..k + 1])
  {
    FlatMapPrefix(groups, k);
    assert FlatMap(groups[..k]) + groups[k].calls <= calls;
    assert groups[k].calls[..|groups[k].calls|] == groups[k].calls;
  }

  /** `k` groups were handled, the last of them perhaps in part. */
  ghost predicate Progress(
      rt: Runtime, calls: seq<ToolCall>, groups: seq<Group>, k: nat, x: Execution, world: World, now: World)
  {
    match x
    case Execution(results, steering, log, executed, batches) =>
      && k <= |groups| && Grouping(rt.tools, calls, groups)
      && executed == |results| <= |calls|
      && (steering == [] ==> executed == |FlatMap(groups[..k])|)
      && Ran(rt, calls[..executed], results, log, batches, world, now)
      && batches == BatchSizes(groups, rt.maxParallelTools, executed)
      && PoolsWhole(groups, rt.maxParallelTools, executed)
  }

  lemma {:induction false} NoProgress(rt: Runtime, calls: seq<ToolCall>, groups: seq<Group>, world: World)
    requires Grouping(rt.tools, calls, groups)
    ensures Progress(rt, calls, groups, 0, NothingExecuted, world, world)
  {
    GroupingNonempty(rt.tools, calls, groups);
    NoBatches(groups, rt.maxParallelTools);
    RanNothing(rt, world);
    assert calls[..0] == [];
  }

  /** A group, or the first part of one, that ran after the groups before it. */
  function WithGroup(x: Execution, more: Execution): Execution {
    Execution(x.results + more.results, more.steering, x.log + more.log, x.executed + more.executed,
              x.batches + more.batches)
  }

  lemma {:induction false} ProgressStep(
      rt: Runtime, calls: seq<ToolCall>, groups: seq<Group>, k: nat, x: Execution, world: World, now: World,
      more: Execution, then': World)
    requires Progress(rt, calls, groups, k, x, world, now) && x.steering == [] && k < |groups|
    requires RanGroup(rt, groups[k], more, now, then')
    ensures Progress(rt, calls, groups, k + 1, WithGroup(x, more), world, then')
  {
    var y := WithGroup(x, more);
    RanWithGroup(rt, calls, groups, k, x, world, now, more, then');
    BatchesWithGroup(rt, calls, groups, k, x, more);
    ProgressFrom(rt, calls, groups, k + 1, y, world, then');
  }

  lemma {:induction false} BatchesWithGroup(
      rt: Runtime, calls: seq<ToolCall>, groups: seq<Group>, k: nat, x: Execution, more: Execution)
    requires Grouping(rt.tools, calls, groups) && k < |groups|
    requires x.executed == |FlatMap(groups[..k])| && x.batches == BatchSizes(groups, rt.maxParallelTools, x.executed)
    requires more.executed <= |groups[k].calls|
    requires more.steering == [] || InPool(groups[k], rt.maxParallelTools) ==> more.executed == |groups[k].calls|
    requires more.batches == GroupBatches(groups[k], rt.maxParallelTools, more.executed)
    ensures var y := WithGroup(x, more);
            && (y.steering == [] ==> y.executed == |FlatMap(groups[..k + 1])|)
            && y.batches == BatchSizes(groups, rt.maxParallelTools, y.executed)
            && PoolsWhole(groups, rt.maxParallelTools, y.executed)
  {
    BatchedGroup(rt.tools, calls, groups, rt.maxParallelTools, k, more.executed);
    GroupCount(groups, k);
  }

  lemma {:induction false} GroupCount(groups: seq<Group>, k: nat)
    requires k < |groups|
    ensures |FlatMap(groups[..k + 1])| == |FlatMap(groups[..k])| + |groups[k].calls|
  {
    FlatMapPrefix(groups, k);
  }

  lemma {:induction false} ProgressFrom(
      rt: Runtime, calls: seq<ToolCall>, groups: seq<Group>, k: nat, y: Execution, world: World, now: World)
    requires k <= |groups| && Grouping(rt.tools, calls, groups) && y.executed == |y.results| <= |calls|
    requires y.steering == [] ==> y.executed == |FlatMap(groups[..k])|
    requires Ran(rt, calls[..y.executed], y.results, y.log, y.batches, world, now)
    requires y.batches == BatchSizes(groups, rt.maxParallelTools, y.executed)
    requires PoolsWhole(groups, rt.maxParallelTools, y.executed)
    ensures Progress(rt, calls, groups, k, y, world, now)
  {
  }

  lemma {:induction false} RanWithGroup(
      rt: Runtime, calls: seq<ToolCall>, groups: seq<Group>, k: nat, x: Execution, world: World, now: World,
      more: Execution, then': World)
    requires k < |groups| && Grouping(rt.tools, calls, groups)
    requires x.executed == |x.results| == |FlatMap(groups[..k])| && x.executed <= |calls|
    requires Ran(rt, calls[..x.executed], x.results, x.log, x.batches, world, now)
    requires RanGroup(rt, groups[k], more, now, then')
    ensures x.executed + more.executed <= |calls|
    ensures Ran(rt, calls[..x.executed + more.executed], x.results + more.results, x.log + more.log,
                x.batches + more.batches, world, then')
  {
    GroupRan(groups, k, calls, more.executed);
    DoneWith(calls, FlatMap(groups[..k]), groups[k].calls[..more.executed]);
    assert calls[..x.executed + more.executed] == calls[..x.executed] + groups[k].calls[..more.executed];
    RanAppend(rt, calls[..x.executed], x.results, x.log, x.batches, world, now, groups[k].calls[..more.executed],
              more.results, more.log, more.batches, then');
  }

  lemma {:induction false} BatchedGroup(
      tools: seq<Tool>, calls: seq<ToolCall>, groups: seq<Group>, maxParallelTools: Option<int>, k: nat, n: nat)
    requires Grouping(tools, calls, groups) && k < |groups| && n <= |groups[k].calls|
    requires InPool(groups[k], maxParallelTools) ==> n == |groups[k].calls|
    ensures var e := |FlatMap(groups[..k])|;
            && BatchSizes(groups, maxParallelTools, e + n)
               == BatchSizes(groups, maxParallelTools, e) + GroupBatches(groups[k], maxParallelTools, n)
            && PoolsWhole(groups, maxParallelTools, e + n)
  {
    forall i | 0 <= i < |groups|
      ensures groups[i].calls != []
    {
      assert WellGrouped(tools, groups[i]);
    }
    BatchesStep(groups, maxParallelTools, k, n);
  }

  lemma {:induction false} DoneWith<T>(s: seq<T>, a: seq<T>, b: seq<T>)
    requires a + b <= s
    ensures s[..|a|] == a && s[..|a| + |b|] == a + b
  {
  }

  /** The next group. */
  method ExecuteNextGroup(
      rt: Runtime, ghost calls: seq<ToolCall>, groups: seq<Group>, k: nat, x: Execution, config: LoopConfig,
      schedules: Schedules, clock: nat, ghost start: Ledger, ghost p: Post, ghost world: World, now: World)
    returns (y: Execution, after: World, clock': nat)
    requires Completes(rt, schedules) && config.Ready()
    requires FirstTaken(config.arrivals, start, p, config.Entries(), config.mailbox.Now(), [])
    requires Progress(rt, calls, groups, k, x, world, now) && x.steering == [] && k < |groups|
    modifies config, config.mailbox
    ensures config.Ready()
    ensures FirstTaken(config.arrivals, start, p, config.Entries(), config.mailbox.Now(), y.steering)
    ensures y.steering == [] ==> config.mailbox.steeringQueue == []
    ensures Progress(rt, calls, groups, k + 1, y, world, after)
  {
    assert WellGrouped(rt.tools, groups[k]);
    var more;
    more, after, clock' := ExecuteGroup(rt, groups[k], config, schedules, clock, now, start, p);
    ProgressStep(rt, calls, groups, k, x, world, now, more, after);
    y := WithGroup(x, more);
  }

  /** The loop over the groups, which the first steering batch ends. */
  method ExecuteGroups(
      rt: Runtime, ghost calls: seq<ToolCall>, groups: seq<Group>, config: LoopConfig, schedules: Schedules,
      clock: nat, world: World)
    returns (x: Execution, after: World, clock': nat, k: nat)
    requires Completes(rt, schedules) && config.Ready() && Grouping(rt.tools, calls, groups)
    modifies config, config.mailbox
    ensures config.Ready()
    ensures FirstTaken(config.arrivals, old(config.Entries()), old(config.mailbox.Now()),
                       config.Entries(), config.mailbox.Now(), x.steering)
    ensures x.steering == [] && groups != [] ==> config.mailbox.steeringQueue == []
    ensures Progress(rt, calls, groups, k, x, world, after) && (x.steering == [] ==> k == |groups|)
  {
    x, after, clock', k := NothingExecuted, world, clock, 0;
    NoProgress(rt, calls, groups, world);
    ghost var start, p := config.Entries(), config.mailbox.Now();
    NothingTaken(config.arrivals, start, p);
    while k < |groups| && |x.steering| == 0
      invariant 0 <= k <= |groups|
      invariant Progress(rt, calls, groups, k, x, world, after)
      invariant x.steering == [] && k > 0 ==> config.mailbox.steeringQueue == []
      invariant config.Ready()
      invariant FirstTaken(config.arrivals, start, p, config.Entries(), config.mailbox.Now(), x.steering)
      decreases |groups| - k
    {
      x, after, clock' := ExecuteNextGroup(
        rt, calls, groups, k, x, config, schedules, clock', start, p, world, after);
      k := k + 1;
    }
  }

  /** All polls but the last take nothing; one that takes something ends the execution. */
  method ExecuteToolCalls(
      rt: Runtime, calls: seq<ToolCall>, config: LoopConfig, schedules: Schedules, clock: nat, world: World)
    returns (x: Execution, after: World, clock': nat)
    requires Completes(rt, schedules) && config.Ready()
    modifies config, config.mailbox
    ensures config.Ready()
    ensures FirstTaken(config.arrivals, old(config.Entries()), old(config.mailbox.Now()),
                       config.Entries(), config.mailbox.Now(), x.steering)
    ensures x.steering == [] && |calls| > 0 ==> config.mailbox.steeringQueue == []
    ensures Executed(rt, calls, x, world, after)
  {
    var groups := GroupToolCalls(calls, rt.tools);
    GroupingNonempty(rt.tools, calls, groups);
    var k;
    x, after, clock', k := ExecuteGroups(rt, calls, groups, config, schedules, clock, world);
    assert k == |groups| ==> groups[..k] == groups;
    x := SkipRemaining(rt, calls, x, world, after);
  }

  /** If steering interrupted, the calls that have not run are skipped. */
  method SkipRemaining(rt: Runtime, calls: seq<ToolCall>, x: Execution, ghost world: World, ghost after: World)
    returns (y: Execution)
    requires x.executed == |x.results| <= |calls| && (x.steering == [] ==> x.executed == |calls|)
    requires Ran(rt, calls[..x.executed], x.results, x.log, x.batches, world, after)
    requires x.batches == BatchSizes(Groups(rt.tools, calls), rt.maxParallelTools, x.executed)
    requires PoolsWhole(Groups(rt.tools, calls), rt.maxParallelTools, x.executed)
    ensures Executed(rt, calls, y, world, after) && y.steering == x.steering
  {
    var rest := calls[x.executed..];
    var skipped, events := [], [];
    if |x.steering| > 0 {
      skipped, events := SkipAll(rt.tools, rest);
    } else {
      NothingHandled(rt.tools);
    }
    y := x.(results := x.results + skipped, log := x.log + events, batches := x.batches + Ones(|rest|));
    SkippedRest(rt, calls, x, rest, skipped, events, y, world, after);
  }

  lemma {:induction false} NothingHandled(tools: seq<Tool>)
    ensures Handled(tools, [], [], [], []) && Ones(0) == []
  {
  }

  lemma {:induction false} SkippedRest(
      rt: Runtime, calls: seq<ToolCall>, x: Execution, rest: seq<ToolCall>, skipped: seq<Message>,
      events: seq<AgentEvent>, y: Execution, world: World, after: World)
    requires x.executed == |x.results| <= |calls| && rest == calls[x.executed..]
    requires x.steering == [] ==> x.executed == |calls|
    requires Ran(rt, calls[..x.executed], x.results, x.log, x.batches, world, after)
    requires x.batches == BatchSizes(Groups(rt.tools, calls), rt.maxParallelTools, x.executed)
    requires PoolsWhole(Groups(rt.tools, calls), rt.maxParallelTools, x.executed)
    requires Handled(rt.tools, rest, skipped, events, Ones(|rest|))
    requires forall i | 0 <= i < |rest| :: skipped[i] == SkippedResult(rest[i])
    requires y == x.(results := x.results + skipped, log := x.log + events, batches := x.batches + Ones(|rest|))
    ensures Executed(rt, calls, y, world, after)
  {
    RanMeans(rt, calls[..x.executed], x.results, x.log, x.batches, world, after);
    HandledRest(rt, calls, x, rest, skipped, events, world, after);
    InBatchesThenSkipped(rt, calls, x.executed, x.batches);
    SkippedResults(calls, x.executed, x.results, rest, skipped);
    ExecutedFrom(rt, calls, x.executed, x.results, y, world, after);
  }

  lemma {:induction false} InBatchesThenSkipped(rt: Runtime, calls: seq<ToolCall>, n: nat, batches: seq<nat>)
    requires n <= |calls| && batches == BatchSizes(Groups(rt.tools, calls), rt.maxParallelTools, n)
    requires PoolsWhole(Groups(rt.tools, calls), rt.maxParallelTools, n)
    ensures InBatches(rt, calls, n, batches + Ones(|calls[n..]|))
  {
    InBatchesIff(rt, calls, n, batches + Ones(|calls[n..]|));
  }

  lemma {:induction false} ExecutedFrom(
      rt: Runtime, calls: seq<ToolCall>, n: nat, ran: seq<Message>, y: Execution, world: World, after: World)
    requires Handled(rt.tools, calls, y.results, y.log, y.batches) && y.executed == n <= |calls|
    requires y.steering == [] ==> y.executed == |calls|
    requires forall i | y.executed <= i < |calls| :: y.results[i] == SkippedResult(calls[i])
    requires y.results[..n] == ran && (Honest(rt) ==> Sequentially(rt, calls[..n], world, ran, after))
    requires InBatches(rt, calls, n, y.batches)
    ensures Executed(rt, calls, y, world, after)
  {
  }

  lemma {:induction false} RanMeans(
      rt: Runtime, done: seq<ToolCall>, results: seq<Message>, log: seq<AgentEvent>, batches: seq<nat>,
      world: World, now: World)
    requires Ran(rt, done, results, log, batches, world, now)
    ensures Honest(rt) ==> Sequentially(rt, done, world, results, now)
  {
  }

  lemma {:induction false} HandledRest(
      rt: Runtime, calls: seq<ToolCall>, x: Execution, rest: seq<ToolCall>, skipped: seq<Message>,
      events: seq<AgentEvent>, world: World, after: World)
    requires x.executed == |x.results| <= |calls| && rest == calls[x.executed..]
    requires Ran(rt, calls[..x.executed], x.results, x.log, x.batches, world, after)
    requires Handled(rt.tools, rest, skipped, events, Ones(|rest|))
    ensures Handled(rt.tools, calls, x.results + skipped, x.log + events, x.batches + Ones(|rest|))
  {
    HandledAppend(rt.tools, calls[..x.executed], x.results, x.log, x.batches, rest, skipped, events, Ones(|rest|));
    Halves(calls, x.executed);
  }

  lemma {:induction false} SkippedResults(
      calls: seq<ToolCall>, n: nat, results: seq<Message>, rest: seq<ToolCall>, skipped: seq<Message>)
    requires n == |results| <= |calls| && rest == calls[n..] && |skipped| == |rest|
    requires forall i | 0 <= i < |rest| :: skipped[i] == SkippedResult(rest[i])
    ensures (results + skipped)[..n] == results
    ensures forall i | n <= i < |calls| :: (results + skipped)[i] == SkippedResult(calls[i])
  {
    forall i | n <= i < |calls|
      ensures (results + skipped)[i] == SkippedResult(calls[i])
    {
      assert skipped[i - n] == SkippedResult(rest[i - n]) && rest[i - n] == calls[i];
    }
  }
}
