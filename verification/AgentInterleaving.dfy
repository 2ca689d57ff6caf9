/** What the log of a worker pool shows of each of its calls. */
module AgentInterleaving {
  import opened Wrappers
  import opened AgentTypes
  import opened ToolRuntime
  import opened AgentWorkers

  // ---------------------------------------------------------------------
  // The events of one call
  // ---------------------------------------------------------------------

  /** The event belongs to the call with this id: its start, updates and end, and the message of its result. */
  predicate About(e: AgentEvent, id: string) {
    match e
    case ToolStart(call) => call.id == id
    case ToolUpdate(call, _) => call.id == id
    case ToolEnd(toolCallId, _, _) => toolCallId == id
    case MessageStart(m) => m.ToolResult? && m.toolCallId == id
    case MessageEnd(m) => m.ToolResult? && m.toolCallId == id
    case _ => false
  }

  /** The events of one call, in order. */
  function Of(log: seq<AgentEvent>, id: string): seq<AgentEvent> {
    if log == [] then []
    else (if About(log[0], id) then [log[0]] else []) + Of(log[1..], id)
  }

  lemma {:induction false} OfAppend(a: seq<AgentEvent>, b: seq<AgentEvent>, id: string)
    ensures Of(a + b, id) == Of(a, id) + Of(b, id)
  {
    if a == [] {
      assert a + b == b;
    } else {
      assert (a + b)[0] == a[0] && (a + b)[1..] == a[1..] + b;
      OfAppend(a[1..], b, id);
      var head := if About(a[0], id) then [a[0]] else [];
      assert Of(a + b, id) == head + Of(a[1..] + b, id) && Of(a, id) == head + Of(a[1..], id);
    }
  }

  /** Events of one call only. */
  predicate OnlyAbout(log: seq<AgentEvent>, id: string) {
    forall k | 0 <= k < |log| :: About(log[k], id)
  }

  lemma {:induction false} OfOwn(log: seq<AgentEvent>, id: string)
    requires OnlyAbout(log, id)
    ensures Of(log, id) == log
  {
    if log != [] {
      OfOwn(log[1..], id);
    }
  }

  lemma {:induction false} OfOther(log: seq<AgentEvent>, id: string, other: string)
    requires OnlyAbout(log, id) && id != other
    ensures Of(log, other) == []
  {
    if log != [] {
      assert About(log[0], id);
      OfOther(log[1..], id, other);
    }
  }

  lemma {:induction false} AdvanceAbout(rt: Runtime, call: ToolCall, local: Local, world: World)
    ensures OnlyAbout(Advance(rt, call, local, world).1, call.id)
  {
    match CallStep(rt, call, local, world)
    case Continue(_, _, updates) => UpdateEventsAre(call, updates);
    case _ =>
  }

  // ---------------------------------------------------------------------
  // The pool
  // ---------------------------------------------------------------------

  /** The log shows of the call what it shows when the call runs alone and gets as far as `state`. */
  ghost predicate Traced(rt: Runtime, call: ToolCall, world: World, log: seq<AgentEvent>, state: CallState) {
    exists k: nat :: Alone(rt, call, world, k) == state && AloneLog(rt, call, world, k) == Of(log, call.id)
  }

  predicate DistinctIds(calls: seq<ToolCall>) {
    forall i, j | 0 <= i < j < |calls| :: calls[i].id != calls[j].id
  }

  /** Every call is traced up to where it is. */
  ghost predicate AllTraced(rt: Runtime, calls: seq<ToolCall>, world: World, p: Pool) {
    && Claims(calls, p) && p.world == world
    && (forall i | p.next <= i < |calls| :: Of(p.log, calls[i].id) == [])
    && (forall w | 0 <= w < |p.workers| && p.workers[w].Busy? ::
          Traced(rt, calls[p.workers[w].index], world, p.log, Running(p.workers[w].local, world)))
    && (forall w | 0 <= w < |p.workers| && p.workers[w].Settled? ::
          Traced(rt, calls[p.workers[w].index], world, p.log, Finished(p.workers[w].result, world)))
    && (forall i | 0 <= i < |calls| && p.slots[i].Some? ::
          Traced(rt, calls[i], world, p.log, Finished(p.slots[i].value, world)))
  }

  lemma {:induction false} TwoHolders(workers: seq<Worker>, w: nat, v: nat, i: nat)
    requires w < v < |workers| && Holds(workers[w], i) && Holds(workers[v], i)
    ensures Holders(workers, i) > 1
  {
    if w == 0 {
      HolderCounts(workers[1..], v - 1, i);
    } else {
      TwoHolders(workers[1..], w - 1, v - 1, i);
    }
  }

  /** What a worker holds is neither stored nor held by another. */
  lemma {:induction false} HeldOnce(calls: seq<ToolCall>, p: Pool, w: nat, i: nat)
    requires Claims(calls, p) && w < |p.workers| && Holds(p.workers[w], i) && i < |calls|
    ensures p.slots[i].None?
    ensures forall v | 0 <= v < |p.workers| && v != w :: !Holds(p.workers[v], i)
  {
    assert OnePlace(calls, p, i);
    HolderCounts(p.workers, w, i);
    forall v | 0 <= v < |p.workers| && v != w
      ensures !Holds(p.workers[v], i)
    {
      if Holds(p.workers[v], i) {
        if v < w {
          TwoHolders(p.workers, v, w, i);
        } else {
          TwoHolders(p.workers, w, v, i);
        }
      }
    }
  }

  /** Events of one call leave the others traced. */
  lemma {:induction false} OthersTraced(
      rt: Runtime, call: ToolCall, world: World, log: seq<AgentEvent>, events: seq<AgentEvent>, id: string,
      state: CallState)
    requires Traced(rt, call, world, log, state) && OnlyAbout(events, id) && id != call.id
    ensures Traced(rt, call, world, log + events, state)
  {
    OfAppend(log, events, call.id);
    OfOther(events, id, call.id);
    assert Of(log, call.id) + [] == Of(log, call.id);
  }

  lemma {:induction false} CallAdvances(
      rt: Runtime, call: ToolCall, world: World, log: seq<AgentEvent>, local: Local)
    requires Traced(rt, call, world, log, Running(local, world)) && LeavesWorld(rt, call.name)
    ensures var (state, events) := Advance(rt, call, local, world);
            state.world == world && Traced(rt, call, world, log + events, state)
  {
    var (state, events) := Advance(rt, call, local, world);
    var k: nat :|
      Alone(rt, call, world, k) == Running(local, world) && AloneLog(rt, call, world, k) == Of(log, call.id);
    assert CallStep(rt, call, local, world).world == world;
    AdvanceAbout(rt, call, local, world);
    OfAppend(log, events, call.id);
    OfOwn(events, call.id);
    assert Alone(rt, call, world, k + 1) == state;
    assert AloneLog(rt, call, world, k + 1) == AloneLog(rt, call, world, k) + events;
  }

  lemma {:induction false} CallBegins(rt: Runtime, call: ToolCall, world: World, log: seq<AgentEvent>)
    requires Of(log, call.id) == []
    ensures Traced(rt, call, world, log + [ToolStart(call)], Running(rt.begin(call), world))
  {
    OfAppend(log, [ToolStart(call)], call.id);
    OfOwn([ToolStart(call)], call.id);
    assert [] + [ToolStart(call)] == [ToolStart(call)];
    assert AloneLog(rt, call, world, 0) == [ToolStart(call)];
  }

  /** What is untraced or traced of all calls but one stays so when that one pushes events. */
  ghost predicate RestTraced(
      rt: Runtime, calls: seq<ToolCall>, world: World, p: Pool, log: seq<AgentEvent>, i: nat, w: nat)
    requires Shape(calls, p)
  {
    && (forall j | p.next <= j < |calls| && j != i :: Of(log, calls[j].id) == [])
    && (forall v | 0 <= v < |p.workers| && v != w && p.workers[v].Busy? ::
          Traced(rt, calls[p.workers[v].index], world, log, Running(p.workers[v].local, world)))
    && (forall v | 0 <= v < |p.workers| && v != w && p.workers[v].Settled? ::
          Traced(rt, calls[p.workers[v].index], world, log, Finished(p.workers[v].result, world)))
    && (forall j | 0 <= j < |calls| && p.slots[j].Some? ::
          Traced(rt, calls[j], world, log, Finished(p.slots[j].value, world)))
  }

  lemma {:induction false} RestStays(
      rt: Runtime, calls: seq<ToolCall>, world: World, p: Pool, i: nat, w: nat, events: seq<AgentEvent>)
    requires AllTraced(rt, calls, world, p) && DistinctIds(calls) && i < |calls| && OnlyAbout(events, calls[i].id)
    requires p.slots[i].None? && forall v | 0 <= v < |p.workers| && v != w :: !Holds(p.workers[v], i)
    ensures RestTraced(rt, calls, world, p, p.log + events, i, w)
  {
    forall j | p.next <= j < |calls| && j != i
      ensures Of(p.log + events, calls[j].id) == []
    {
      assert calls[i].id != calls[j].id;
      OfAppend(p.log, events, calls[j].id);
      OfOther(events, calls[i].id, calls[j].id);
    }
    forall v | 0 <= v < |p.workers| && v != w && p.workers[v].Busy?
      ensures Traced(rt, calls[p.workers[v].index], world, p.log + events, Running(p.workers[v].local, world))
    {
      assert !Holds(p.workers[v], i) && calls[p.workers[v].index].id != calls[i].id;
      OthersTraced(rt, calls[p.workers[v].index], world, p.log, events, calls[i].id,
                   Running(p.workers[v].local, world));
    }
    forall v | 0 <= v < |p.workers| && v != w && p.workers[v].Settled?
      ensures Traced(rt, calls[p.workers[v].index], world, p.log + events, Finished(p.workers[v].result, world))
    {
      assert !Holds(p.workers[v], i) && calls[p.workers[v].index].id != calls[i].id;
      OthersTraced(rt, calls[p.workers[v].index], world, p.log, events, calls[i].id,
                   Finished(p.workers[v].result, world));
    }
    forall j | 0 <= j < |calls| && p.slots[j].Some?
      ensures Traced(rt, calls[j], world, p.log + events, Finished(p.slots[j].value, world))
    {
      assert calls[j].id != calls[i].id;
      OthersTraced(rt, calls[j], world, p.log, events, calls[i].id, Finished(p.slots[j].value, world));
    }
  }

  lemma {:induction false} ClaimTraced(rt: Runtime, calls: seq<ToolCall>, world: World, p: Pool, w: nat)
    requires AllTraced(rt, calls, world, p) && DistinctIds(calls)
    requires w < |p.workers| && p.workers[w].Idle? && p.next < |calls|
    ensures AllTraced(rt, calls, world, Step(rt, calls, p, w))
  {
    var i := p.next;
    assert OnePlace(calls, p, i);
    forall v | 0 <= v < |p.workers|
      ensures !Holds(p.workers[v], i)
    {
    }
    ClaimsStep(rt, calls, p, w);
    RestStays(rt, calls, world, p, i, w, [ToolStart(calls[i])]);
    CallBegins(rt, calls[i], world, p.log);
  }

  lemma {:induction false} AdvanceTraced(rt: Runtime, calls: seq<ToolCall>, world: World, p: Pool, w: nat)
    requires AllTraced(rt, calls, world, p) && DistinctIds(calls) && ReadOnly(rt, calls)
    requires w < |p.workers| && p.workers[w].Busy?
    ensures AllTraced(rt, calls, world, Step(rt, calls, p, w))
  {
    var i, local := p.workers[w].index, p.workers[w].local;
    HeldOnce(calls, p, w, i);
    ClaimsStep(rt, calls, p, w);
    AdvanceAbout(rt, calls[i], local, world);
    RestStays(rt, calls, world, p, i, w, Advance(rt, calls[i], local, world).1);
    CallAdvances(rt, calls[i], world, p.log, local);
  }

  lemma {:induction false} StoreTraced(rt: Runtime, calls: seq<ToolCall>, world: World, p: Pool, w: nat)
    requires AllTraced(rt, calls, world, p)
    requires w < |p.workers| && (p.workers[w].Settled? || p.workers[w].Returned? || p.next == |calls|)
    requires !p.workers[w].Busy?
    ensures AllTraced(rt, calls, world, Step(rt, calls, p, w))
  {
    ClaimsStep(rt, calls, p, w);
  }

  lemma {:induction false} StepTraced(rt: Runtime, calls: seq<ToolCall>, world: World, p: Pool, w: nat)
    requires AllTraced(rt, calls, world, p) && DistinctIds(calls) && ReadOnly(rt, calls)
    ensures AllTraced(rt, calls, world, Step(rt, calls, p, w))
  {
    if w < |p.workers| {
      if p.workers[w].Busy? {
        AdvanceTraced(rt, calls, world, p, w);
      } else if p.workers[w].Idle? && p.next < |calls| {
        ClaimTraced(rt, calls, world, p, w);
      } else {
        StoreTraced(rt, calls, world, p, w);
      }
    }
  }

  lemma {:induction false} RunTraced(
      rt: Runtime, calls: seq<ToolCall>, world: World, p: Pool, schedule: seq<nat>)
    requires AllTraced(rt, calls, world, p) && DistinctIds(calls) && ReadOnly(rt, calls)
    ensures AllTraced(rt, calls, world, Run(rt, calls, p, schedule))
    decreases schedule
  {
    if schedule != [] {
      StepTraced(rt, calls, world, p, schedule[0]);
      RunTraced(rt, calls, world, Step(rt, calls, p, schedule[0]), schedule[1..]);
    }
  }

  /**
   * However the calls of a pool are interleaved: the events of each, taken out of the log,
   * are exactly those the call pushes when it runs alone, in the same order.
   */
  lemma {:induction false} PoolShowsEachCall(
      rt: Runtime, calls: seq<ToolCall>, concurrency: int, world: World, schedule: seq<nat>, i: nat)
    requires DistinctIds(calls) && ReadOnly(rt, calls) && i < |calls|
    requires AllReturned(Reached(rt, calls, concurrency, world, schedule))
    ensures var p := Reached(rt, calls, concurrency, world, schedule);
            p.slots[i].Some? && Pushes(rt, calls[i], world, p.slots[i].value, world, Of(p.log, calls[i].id))
  {
    var limit := Limit(concurrency, |calls|);
    StartTraced(rt, calls, limit, world);
    RunTraced(rt, calls, world, Init(|calls|, limit, world), schedule);
    PoolComplete(rt, calls, concurrency, world, schedule);
    TracedPushes(rt, calls, world, Reached(rt, calls, concurrency, world, schedule), i);
  }

  lemma {:induction false} StartTraced(rt: Runtime, calls: seq<ToolCall>, limit: nat, world: World)
    ensures AllTraced(rt, calls, world, Init(|calls|, limit, world))
  {
    InitInv(rt, calls, limit, world);
  }

  lemma {:induction false} TracedPushes(rt: Runtime, calls: seq<ToolCall>, world: World, p: Pool, i: nat)
    requires AllTraced(rt, calls, world, p) && i < |calls| && p.slots[i].Some?
    ensures Pushes(rt, calls[i], world, p.slots[i].value, world, Of(p.log, calls[i].id))
  {
  }
}
