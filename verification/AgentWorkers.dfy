/**
 * The worker pool of `executeWithConcurrencyLimit`, driving the calls of one
 * parallel group. A schedule names, step by step, the worker that runs next;
 * every stretch between two awaits is one step, so all interleavings are the
 * schedules.
 */
module AgentWorkers {
  import opened Wrappers
  import opened AgentTypes
  import opened AgentTrace
  import opened ToolRuntime

  datatype Worker =
    | Idle
    | Busy(index: nat, local: Local)
    | Settled(index: nat, result: Message)
    | Returned

  datatype Pool = Pool(
    next: nat,
    workers: seq<Worker>,
    slots: seq<Option<Message>>,
    world: World,
    log: seq<AgentEvent>)

  function Min(a: int, b: int): int {
    if a < b then a else b
  }

  function Limit(concurrency: int, n: nat): nat {
    Max(1, Min(concurrency, n))
  }

  function Init(n: nat, limit: nat, world: World): Pool {
    Pool(0, seq(limit, _ => Idle), seq(n, _ => None), world, [])
  }

  predicate Holds(worker: Worker, i: nat) {
    (worker.Busy? || worker.Settled?) && worker.index == i
  }

  /** Every index a worker holds is an index of the group. */
  predicate Shape(calls: seq<ToolCall>, p: Pool) {
    && |p.slots| == |calls|
    && p.next <= |calls|
    && forall w | 0 <= w < |p.workers| && (p.workers[w].Busy? || p.workers[w].Settled?) :: p.workers[w].index < p.next
  }

  /** One step of worker `w`; a worker that has returned or does not exist does nothing. */
  function Step(rt: Runtime, calls: seq<ToolCall>, p: Pool, w: nat): (q: Pool)
    requires Shape(calls, p)
    ensures Shape(calls, q) && |q.workers| == |p.workers|
  {
    if w >= |p.workers| then p
    else match p.workers[w]
      case Idle =>
        if p.next < |calls| then
          p.(next := p.next + 1,
             workers := p.workers[w := Busy(p.next, rt.begin(calls[p.next]))],
             log := p.log + [ToolStart(calls[p.next])])
        else p.(workers := p.workers[w := Returned])
      case Busy(i, local) =>
        var (state, events) := Advance(rt, calls[i], local, p.world);
        (match state
         case Running(l, world) =>
           p.(workers := p.workers[w := Busy(i, l)], world := world, log := p.log + events)
         case Finished(result, world) =>
           p.(workers := p.workers[w := Settled(i, result)], world := world, log := p.log + events))
      case Settled(i, result) =>
        p.(slots := p.slots[i := Some(result)], workers := p.workers[w := Idle])
      case Returned => p
  }

  function Run(rt: Runtime, calls: seq<ToolCall>, p: Pool, schedule: seq<nat>): (q: Pool)
    requires Shape(calls, p)
    ensures Shape(calls, q) && |q.workers| == |p.workers|
    decreases schedule
  {
    if schedule == [] then p
    else Run(rt, calls, Step(rt, calls, p, schedule[0]), schedule[1..])
  }

  /** `Promise.all(workers)` has resolved. */
  predicate AllReturned(p: Pool) {
    forall w | 0 <= w < |p.workers| :: p.workers[w].Returned?
  }

  // ---------------------------------------------------------------------
  // Claims: every index below `next` has exactly one place
  // ---------------------------------------------------------------------

  /** How many workers hold index `i`. */
  function Holders(workers: seq<Worker>, i: nat): nat {
    if workers == [] then 0
    else (if Holds(workers[0], i) then 1 else 0) + Holders(workers[1..], i)
  }

  lemma {:induction false} HoldersUpdate(workers: seq<Worker>, w: nat, x: Worker, i: nat)
    requires w < |workers|
    ensures Holders(workers[w := x], i) ==
            Holders(workers, i) - (if Holds(workers[w], i) then 1 else 0) + (if Holds(x, i) then 1 else 0)
  {
    if w == 0 {
      assert workers[w := x][1..] == workers[1..];
    } else {
      assert workers[w := x][1..] == workers[1..][w - 1 := x];
      HoldersUpdate(workers[1..], w - 1, x, i);
    }
  }

  lemma {:induction false} HolderCounts(workers: seq<Worker>, w: nat, i: nat)
    requires w < |workers| && Holds(workers[w], i)
    ensures Holders(workers, i) >= 1
  {
    if w > 0 {
      HolderCounts(workers[1..], w - 1, i);
    }
  }

  lemma {:induction false} NoHolders(workers: seq<Worker>, i: nat)
    requires forall w | 0 <= w < |workers| :: !Holds(workers[w], i)
    ensures Holders(workers, i) == 0
  {
    if workers != [] {
      assert forall w | 0 <= w < |workers[1..]| :: workers[1..][w] == workers[w + 1];
      NoHolders(workers[1..], i);
    }
  }

  /**
   * An index is in exactly one place: unclaimed, held by exactly one worker,
   * or in its result slot.
   */
  predicate OnePlace(calls: seq<ToolCall>, p: Pool, i: nat)
    requires i < |p.slots|
  {
    Holders(p.workers, i) + (if p.slots[i].Some? then 1 else 0) == (if i < p.next then 1 else 0)
  }

  ghost predicate Claims(calls: seq<ToolCall>, p: Pool) {
    && Shape(calls, p)
    && (forall i | 0 <= i < |calls| :: OnePlace(calls, p, i))
    && Started(p.log) == calls[..p.next] && TurnsEnded(p.log) == []
    && (forall w | 0 <= w < |p.workers| && p.workers[w].Returned? :: p.next == |calls|)
  }

  lemma {:induction false} NewEvents(rt: Runtime, call: ToolCall, local: Local, world: World, log: seq<AgentEvent>)
    ensures var (state, events) := Advance(rt, call, local, world);
            && Started(log + events) == Started(log) && TurnsEnded(log + events) == TurnsEnded(log)
            && Ended(log + events) == Ended(log) + (if state.Finished? then [state.result] else [])
  {
    var (state, events) := Advance(rt, call, local, world);
    StartedAppend(log, events);
    EndedAppend(log, events);
    TurnsEndedAppend(log, events);
    AdvanceAccepted(rt, InTurn.(tools := multiset{call.id}), call, local, world);
  }

  /** A claim starts the next call. */
  lemma {:induction false} NewStart(calls: seq<ToolCall>, next: nat, log: seq<AgentEvent>)
    requires next < |calls| && Started(log) == calls[..next]
    ensures Started(log + [ToolStart(calls[next])]) == calls[..next + 1]
    ensures TurnsEnded(log + [ToolStart(calls[next])]) == TurnsEnded(log)
  {
    StartedAppend(log, [ToolStart(calls[next])]);
    TurnsEndedAppend(log, [ToolStart(calls[next])]);
    assert [ToolStart(calls[next])][1..] == [];
  }

  lemma {:induction false} PlaceStep(rt: Runtime, calls: seq<ToolCall>, p: Pool, w: nat, i: nat)
    requires Shape(calls, p) && i < |calls| && OnePlace(calls, p, i)
    ensures OnePlace(calls, Step(rt, calls, p, w), i)
  {
    if w < |p.workers| {
      HoldersUpdate(p.workers, w, Step(rt, calls, p, w).workers[w], i);
      if Holds(p.workers[w], i) {
        HolderCounts(p.workers, w, i);
      }
    }
  }

  lemma {:induction false} ClaimsStep(rt: Runtime, calls: seq<ToolCall>, p: Pool, w: nat)
    requires Claims(calls, p)
    ensures Claims(calls, Step(rt, calls, p, w))
  {
    forall i | 0 <= i < |calls|
      ensures OnePlace(calls, Step(rt, calls, p, w), i)
    {
      PlaceStep(rt, calls, p, w, i);
    }
    if w < |p.workers| {
      match p.workers[w]
      case Idle =>
        if p.next < |calls| {
          NewStart(calls, p.next, p.log);
        }
      case Busy(i, local) =>
        NewEvents(rt, calls[i], local, p.world, p.log);
      case _ =>
    }
  }

  // ---------------------------------------------------------------------
  // Results: right index, right call, finishing order is a permutation
  // ---------------------------------------------------------------------

  /** The result of a finished index answers its own call. */
  ghost predicate Answered(calls: seq<ToolCall>, p: Pool) {
    && Shape(calls, p)
    && (forall i | 0 <= i < |calls| && p.slots[i].Some? :: Answers(p.slots[i].value, calls[i]))
    && (forall w | 0 <= w < |p.workers| && p.workers[w].Settled? ::
          Answers(p.workers[w].result, calls[p.workers[w].index]))
  }

  lemma {:induction false} AnsweredStep(rt: Runtime, calls: seq<ToolCall>, p: Pool, w: nat)
    requires Answered(calls, p)
    ensures Answered(calls, Step(rt, calls, p, w))
  {
  }

  /** How often `m` is stored in a result slot. */
  function Stored(slots: seq<Option<Message>>, m: Message): nat {
    if slots == [] then 0
    else (if slots[0] == Some(m) then 1 else 0) + Stored(slots[1..], m)
  }

  predicate Settles(worker: Worker, m: Message) {
    worker.Settled? && worker.result == m
  }

  /** How many workers have finished with `m` and not yet stored it. */
  function Pending(workers: seq<Worker>, m: Message): nat {
    if workers == [] then 0
    else (if Settles(workers[0], m) then 1 else 0) + Pending(workers[1..], m)
  }

  lemma {:induction false} StoredUpdate(slots: seq<Option<Message>>, i: nat, r: Message, m: Message)
    requires i < |slots| && slots[i].None?
    ensures Stored(slots[i := Some(r)], m) == Stored(slots, m) + (if r == m then 1 else 0)
  {
    if i == 0 {
      assert slots[i := Some(r)][1..] == slots[1..];
    } else {
      assert slots[i := Some(r)][1..] == slots[1..][i - 1 := Some(r)];
      StoredUpdate(slots[1..], i - 1, r, m);
    }
  }

  lemma {:induction false} PendingUpdate(workers: seq<Worker>, w: nat, x: Worker, m: Message)
    requires w < |workers|
    ensures Pending(workers[w := x], m) ==
            Pending(workers, m) - (if Settles(workers[w], m) then 1 else 0) + (if Settles(x, m) then 1 else 0)
  {
    if w == 0 {
      assert workers[w := x][1..] == workers[1..];
    } else {
      assert workers[w := x][1..] == workers[1..][w - 1 := x];
      PendingUpdate(workers[1..], w - 1, x, m);
    }
  }

  lemma {:induction false} StoredAll(slots: seq<Option<Message>>, results: seq<Message>, m: Message)
    requires |slots| == |results|
    requires forall i | 0 <= i < |slots| :: slots[i] == Some(results[i])
    ensures Stored(slots, m) == multiset(results)[m]
  {
    if slots != [] {
      StoredAll(slots[1..], results[1..], m);
      assert results == [results[0]] + results[1..];
    }
  }

  lemma {:induction false} NothingStored(slots: seq<Option<Message>>, m: Message)
    requires forall i | 0 <= i < |slots| :: slots[i].None?
    ensures Stored(slots, m) == 0
  {
    if slots != [] {
      NothingStored(slots[1..], m);
    }
  }

  lemma {:induction false} NothingPending(workers: seq<Worker>, m: Message)
    requires forall w | 0 <= w < |workers| :: !workers[w].Settled?
    ensures Pending(workers, m) == 0
  {
    if workers != [] {
      NothingPending(workers[1..], m);
    }
  }

  /** Result messages end exactly once each, at the moment their call finishes. */
  ghost predicate EndsMatch(calls: seq<ToolCall>, p: Pool) {
    && Claims(calls, p)
    && forall m: Message :: multiset(Ended(p.log))[m] == Stored(p.slots, m) + Pending(p.workers, m)
  }

  lemma {:induction false} EndsMatchStep(rt: Runtime, calls: seq<ToolCall>, p: Pool, w: nat)
    requires EndsMatch(calls, p)
    ensures EndsMatch(calls, Step(rt, calls, p, w))
  {
    var q := Step(rt, calls, p, w);
    ClaimsStep(rt, calls, p, w);
    if w < |p.workers| {
      forall m
        ensures multiset(Ended(q.log))[m] == Stored(q.slots, m) + Pending(q.workers, m)
      {
        EndsCount(rt, calls, p, w, m);
      }
    }
  }

  lemma {:induction false} EndsCount(rt: Runtime, calls: seq<ToolCall>, p: Pool, w: nat, m: Message)
    requires EndsMatch(calls, p) && w < |p.workers|
    ensures var q := Step(rt, calls, p, w);
            multiset(Ended(q.log))[m] == Stored(q.slots, m) + Pending(q.workers, m)
  {
    match p.workers[w]
    case Idle => EndsCountIdle(rt, calls, p, w, m);
    case Busy(i, local) => EndsCountBusy(rt, calls, p, w, m);
    case Settled(i, result) => EndsCountSettled(rt, calls, p, w, m);
    case Returned =>
  }

  lemma {:induction false} EndsCountIdle(rt: Runtime, calls: seq<ToolCall>, p: Pool, w: nat, m: Message)
    requires EndsMatch(calls, p) && w < |p.workers| && p.workers[w].Idle?
    ensures var q := Step(rt, calls, p, w);
            multiset(Ended(q.log))[m] == Stored(q.slots, m) + Pending(q.workers, m)
  {
    PendingUpdate(p.workers, w, Step(rt, calls, p, w).workers[w], m);
    if p.next < |calls| {
      var e := ToolStart(calls[p.next]);
      EndedAppend(p.log, [e]);
      assert [e][1..] == [];
    }
  }

  lemma {:induction false} EndsCountBusy(rt: Runtime, calls: seq<ToolCall>, p: Pool, w: nat, m: Message)
    requires EndsMatch(calls, p) && w < |p.workers| && p.workers[w].Busy?
    ensures var q := Step(rt, calls, p, w);
            multiset(Ended(q.log))[m] == Stored(q.slots, m) + Pending(q.workers, m)
  {
    PendingUpdate(p.workers, w, Step(rt, calls, p, w).workers[w], m);
    NewEvents(rt, calls[p.workers[w].index], p.workers[w].local, p.world, p.log);
  }

  lemma {:induction false} EndsCountSettled(rt: Runtime, calls: seq<ToolCall>, p: Pool, w: nat, m: Message)
    requires EndsMatch(calls, p) && w < |p.workers| && p.workers[w].Settled?
    ensures var q := Step(rt, calls, p, w);
            multiset(Ended(q.log))[m] == Stored(q.slots, m) + Pending(q.workers, m)
  {
    var i := p.workers[w].index;
    PendingUpdate(p.workers, w, Step(rt, calls, p, w).workers[w], m);
    assert OnePlace(calls, p, i);
    HolderCounts(p.workers, w, i);
    StoredUpdate(p.slots, i, p.workers[w].result, m);
  }

  // ---------------------------------------------------------------------
  // Read-only groups: every interleaving agrees with running each call alone
  // ---------------------------------------------------------------------

  ghost predicate ReadOnly(rt: Runtime, calls: seq<ToolCall>) {
    forall i | 0 <= i < |calls| :: LeavesWorld(rt, calls[i].name)
  }

  ghost predicate Reaches(rt: Runtime, call: ToolCall, world: World, local: Local) {
    exists k: nat :: Alone(rt, call, world, k) == Running(local, world)
  }

  ghost predicate AsAlone(rt: Runtime, calls: seq<ToolCall>, world: World, p: Pool) {
    && Shape(calls, p)
    && p.world == world
    && (forall w | 0 <= w < |p.workers| && p.workers[w].Busy? ::
          Reaches(rt, calls[p.workers[w].index], world, p.workers[w].local))
    && (forall w | 0 <= w < |p.workers| && p.workers[w].Settled? ::
          Returns(rt, calls[p.workers[w].index], world, p.workers[w].result, world))
    && (forall i | 0 <= i < |calls| && p.slots[i].Some? ::
          Returns(rt, calls[i], world, p.slots[i].value, world))
  }

  lemma {:induction false} ReachesNext(rt: Runtime, call: ToolCall, world: World, local: Local)
    requires Reaches(rt, call, world, local) && LeavesWorld(rt, call.name)
    ensures match Advance(rt, call, local, world).0
            case Running(l, w) => w == world && Reaches(rt, call, world, l)
            case Finished(r, w) => w == world && Returns(rt, call, world, r, world)
  {
    var k: nat :| Alone(rt, call, world, k) == Running(local, world);
    assert CallStep(rt, call, local, world).world == world;
    assert Alone(rt, call, world, k + 1) == Advance(rt, call, local, world).0;
  }

  lemma {:induction false} AsAloneStep(rt: Runtime, calls: seq<ToolCall>, world: World, p: Pool, w: nat)
    requires AsAlone(rt, calls, world, p) && ReadOnly(rt, calls)
    ensures AsAlone(rt, calls, world, Step(rt, calls, p, w))
  {
    if w < |p.workers| {
      match p.workers[w]
      case Idle =>
        if p.next < |calls| {
          assert Alone(rt, calls[p.next], world, 0) == Running(rt.begin(calls[p.next]), world);
        }
      case Busy(i, local) =>
        ReachesNext(rt, calls[i], world, local);
      case _ =>
    }
  }

  // ---------------------------------------------------------------------
  // Brackets: tools of the group overlap only each other
  // ---------------------------------------------------------------------

  predicate Opens(calls: seq<ToolCall>, worker: Worker, id: string)
    requires worker.Busy? ==> worker.index < |calls|
  {
    worker.Busy? && calls[worker.index].id == id
  }

  /** How many workers are inside a call with this id. */
  function Open(calls: seq<ToolCall>, workers: seq<Worker>, id: string): nat
    requires forall w | 0 <= w < |workers| && workers[w].Busy? :: workers[w].index < |calls|
  {
    if workers == [] then 0
    else (if Opens(calls, workers[0], id) then 1 else 0) + Open(calls, workers[1..], id)
  }

  lemma {:induction false} OpenUpdate(calls: seq<ToolCall>, workers: seq<Worker>, w: nat, x: Worker, id: string)
    requires forall v | 0 <= v < |workers| && workers[v].Busy? :: workers[v].index < |calls|
    requires x.Busy? ==> x.index < |calls|
    requires w < |workers|
    ensures Open(calls, workers[w := x], id) ==
            Open(calls, workers, id) - (if Opens(calls, workers[w], id) then 1 else 0)
            + (if Opens(calls, x, id) then 1 else 0)
  {
    if w == 0 {
      assert workers[w := x][1..] == workers[1..];
    } else {
      assert workers[w := x][1..] == workers[1..][w - 1 := x];
      OpenUpdate(calls, workers[1..], w - 1, x, id);
    }
  }

  lemma {:induction false} NothingOpen(calls: seq<ToolCall>, workers: seq<Worker>, id: string)
    requires forall w | 0 <= w < |workers| :: !workers[w].Busy?
    ensures Open(calls, workers, id) == 0
  {
    if workers != [] {
      NothingOpen(calls, workers[1..], id);
    }
  }

  lemma {:induction false} OpenCounts(calls: seq<ToolCall>, workers: seq<Worker>, w: nat, id: string)
    requires forall v | 0 <= v < |workers| && workers[v].Busy? :: workers[v].index < |calls|
    requires w < |workers| && Opens(calls, workers[w], id)
    ensures Open(calls, workers, id) >= 1
  {
    if w > 0 {
      OpenCounts(calls, workers[1..], w - 1, id);
    }
  }

  predicate NoSideEffects(rt: Runtime, calls: seq<ToolCall>) {
    forall i | 0 <= i < |calls| :: !HasSideEffects(rt.tools, calls[i].name)
  }

  /** `b` is inside a turn with exactly the busy workers' tools open. */
  ghost predicate Mirrors(calls: seq<ToolCall>, workers: seq<Worker>, b: Bracket)
    requires forall w | 0 <= w < |workers| && workers[w].Busy? :: workers[w].index < |calls|
  {
    && b == InTurn.(tools := b.tools)
    && forall id :: b.tools[id] == Open(calls, workers, id)
  }

  ghost predicate Bracketed(rt: Runtime, calls: seq<ToolCall>, p: Pool) {
    && Shape(calls, p)
    && var b := AcceptAll(rt.tools, InTurn, p.log);
       b.Some? && Mirrors(calls, p.workers, b.value)
  }

  lemma {:induction false} MirrorsUpdate(
      calls: seq<ToolCall>, workers: seq<Worker>, w: nat, x: Worker, b: Bracket, c: Bracket)
    requires forall v | 0 <= v < |workers| && workers[v].Busy? :: workers[v].index < |calls|
    requires x.Busy? ==> x.index < |calls|
    requires w < |workers| && Mirrors(calls, workers, b) && c == InTurn.(tools := c.tools)
    requires forall id :: c.tools[id] + (if Opens(calls, workers[w], id) then 1 else 0) ==
                          b.tools[id] + (if Opens(calls, x, id) then 1 else 0)
    ensures Mirrors(calls, workers[w := x], c)
  {
    forall id
      ensures c.tools[id] == Open(calls, workers[w := x], id)
    {
      OpenUpdate(calls, workers, w, x, id);
    }
  }

  lemma {:induction false} BracketedClaim(rt: Runtime, calls: seq<ToolCall>, p: Pool, w: nat)
    requires Bracketed(rt, calls, p) && NoSideEffects(rt, calls)
    requires w < |p.workers| && p.workers[w].Idle? && p.next < |calls|
    ensures Bracketed(rt, calls, Step(rt, calls, p, w))
  {
    var q, b := Step(rt, calls, p, w), AcceptAll(rt.tools, InTurn, p.log).value;
    var e := ToolStart(calls[p.next]);
    AcceptAppend(rt.tools, InTurn, p.log, [e]);
    assert !HasSideEffects(rt.tools, e.call.name) && [e][1..] == [];
    MirrorsUpdate(calls, p.workers, w, q.workers[w], b, b.(tools := b.tools + multiset{e.call.id}));
  }

  lemma {:induction false} BracketedAdvance(rt: Runtime, calls: seq<ToolCall>, p: Pool, w: nat)
    requires Bracketed(rt, calls, p) && w < |p.workers| && p.workers[w].Busy?
    ensures Bracketed(rt, calls, Step(rt, calls, p, w))
  {
    var q, b := Step(rt, calls, p, w), AcceptAll(rt.tools, InTurn, p.log).value;
    var call, local := calls[p.workers[w].index], p.workers[w].local;
    var (state, events) := Advance(rt, call, local, p.world);
    OpenCounts(calls, p.workers, w, call.id);
    AcceptAppend(rt.tools, InTurn, p.log, events);
    AdvanceAccepted(rt, b, call, local, p.world);
    MirrorsUpdate(calls, p.workers, w, q.workers[w], b,
                  if state.Finished? then b.(tools := b.tools - multiset{call.id}) else b);
  }

  lemma {:induction false} BracketedStep(rt: Runtime, calls: seq<ToolCall>, p: Pool, w: nat)
    requires Bracketed(rt, calls, p) && NoSideEffects(rt, calls)
    ensures Bracketed(rt, calls, Step(rt, calls, p, w))
  {
    if w < |p.workers| {
      var b := AcceptAll(rt.tools, InTurn, p.log).value;
      match p.workers[w]
      case Idle =>
        if p.next < |calls| {
          BracketedClaim(rt, calls, p, w);
        } else {
          MirrorsUpdate(calls, p.workers, w, Returned, b, b);
        }
      case Busy(_, _) => BracketedAdvance(rt, calls, p, w);
      case Settled(_, _) => MirrorsUpdate(calls, p.workers, w, Idle, b, b);
      case Returned =>
    }
  }

  // ---------------------------------------------------------------------
  // All schedules
  // ---------------------------------------------------------------------

  ghost predicate Inv(rt: Runtime, calls: seq<ToolCall>, world: World, p: Pool) {
    && EndsMatch(calls, p)
    && Answered(calls, p)
    && (NoSideEffects(rt, calls) ==> Bracketed(rt, calls, p))
    && (ReadOnly(rt, calls) ==> AsAlone(rt, calls, world, p))
  }

  lemma {:induction false} InitInv(rt: Runtime, calls: seq<ToolCall>, limit: nat, world: World)
    ensures Inv(rt, calls, world, Init(|calls|, limit, world))
  {
    var p := Init(|calls|, limit, world);
    forall i | 0 <= i < |calls|
      ensures OnePlace(calls, p, i)
    {
      NoHolders(p.workers, i);
    }
    forall m
      ensures Stored(p.slots, m) + Pending(p.workers, m) == 0
    {
      NothingStored(p.slots, m);
      NothingPending(p.workers, m);
    }
    forall id
      ensures Open(calls, p.workers, id) == 0
    {
      NothingOpen(calls, p.workers, id);
    }
    assert calls[..0] == [];
  }

  lemma {:induction false} RunInv(rt: Runtime, calls: seq<ToolCall>, world: World, p: Pool, schedule: seq<nat>)
    requires Inv(rt, calls, world, p)
    ensures Inv(rt, calls, world, Run(rt, calls, p, schedule))
    decreases schedule
  {
    if schedule != [] {
      var w := schedule[0];
      EndsMatchStep(rt, calls, p, w);
      AnsweredStep(rt, calls, p, w);
      if NoSideEffects(rt, calls) {
        BracketedStep(rt, calls, p, w);
      }
      if ReadOnly(rt, calls) {
        AsAloneStep(rt, calls, world, p, w);
      }
      RunInv(rt, calls, world, Step(rt, calls, p, w), schedule[1..]);
    }
  }

  /** No more indices are held than there are workers. */
  lemma {:induction false} HeldBound(workers: seq<Worker>, held: set<nat>)
    requires forall i | i in held :: Holders(workers, i) > 0
    ensures |held| <= |workers|
  {
    if workers == [] {
      if i :| i in held {
        assert false;
      }
    } else {
      var first := if workers[0].Busy? || workers[0].Settled? then {workers[0].index} else {};
      HeldBound(workers[1..], held - first);
      assert held <= (held - first) + first;
      assert |held - first| + |first| >= |held - first + first|;
    }
  }

  /** The pool after any schedule, started as `executeWithConcurrencyLimit` starts it. */
  function Reached(rt: Runtime, calls: seq<ToolCall>, concurrency: int, world: World, schedule: seq<nat>): (p: Pool)
    ensures Shape(calls, p)
  {
    Run(rt, calls, Init(|calls|, Limit(concurrency, |calls|), world), schedule)
  }

  lemma {:induction false} ReachedInv(
      rt: Runtime, calls: seq<ToolCall>, concurrency: int, world: World, schedule: seq<nat>)
    ensures Inv(rt, calls, world, Reached(rt, calls, concurrency, world, schedule))
  {
    InitInv(rt, calls, Limit(concurrency, |calls|), world);
    RunInv(rt, calls, world, Init(|calls|, Limit(concurrency, |calls|), world), schedule);
  }

  /**
   * At every point of every schedule: the claimed items are exactly the first
   * `next`, claimed once each and in order; each is in exactly one place; and
   * no more than the limit are in flight.
   */
  lemma {:induction false} PoolSafety(
      rt: Runtime, calls: seq<ToolCall>, concurrency: int, world: World, schedule: seq<nat>)
    ensures var p := Reached(rt, calls, concurrency, world, schedule);
            && Started(p.log) == calls[..p.next]
            && |p.workers| ==
               (if concurrency < 1 || |calls| < 1 then 1 else if concurrency < |calls| then concurrency else |calls|)
            && |set i | 0 <= i < p.next && p.slots[i].None?| <= |p.workers|
            && (forall i | 0 <= i < |calls| ::
                  Holders(p.workers, i) + (if p.slots[i].Some? then 1 else 0) == (if i < p.next then 1 else 0))
            && (forall i | 0 <= i < |calls| && p.slots[i].Some? :: Answers(p.slots[i].value, calls[i]))
  {
    ReachedInv(rt, calls, concurrency, world, schedule);
    var p := Reached(rt, calls, concurrency, world, schedule);
    var unstored := set i: nat | i < p.next && p.slots[i].None?;
    forall i | i in unstored
      ensures Holders(p.workers, i) > 0
    {
      assert OnePlace(calls, p, i);
    }
    HeldBound(p.workers, unstored);
    assert unstored == set i | 0 <= i < p.next && p.slots[i].None?;
    forall i | 0 <= i < |calls|
      ensures Holders(p.workers, i) + (if p.slots[i].Some? then 1 else 0) == (if i < p.next then 1 else 0)
    {
      assert OnePlace(calls, p, i);
    }
  }

  function Results(slots: seq<Option<Message>>): (rs: seq<Message>)
    requires forall i | 0 <= i < |slots| :: slots[i].Some?
    ensures |rs| == |slots| && forall i | 0 <= i < |rs| :: slots[i] == Some(rs[i])
  {
    if slots == [] then [] else [slots[0].value] + Results(slots[1..])
  }

  lemma {:induction false} AllAlone(
      rt: Runtime, calls: seq<ToolCall>, world: World, results: seq<Message>)
    requires |results| == |calls|
    requires forall i | 0 <= i < |calls| :: Returns(rt, calls[i], world, results[i], world)
    ensures Sequentially(rt, calls, world, results, world)
    decreases calls
  {
    if calls != [] {
      assert forall i | 0 <= i < |calls[1..]| :: calls[1..][i] == calls[i + 1] && results[1..][i] == results[i + 1];
      AllAlone(rt, calls[1..], world, results[1..]);
      assert Returns(rt, calls[0], world, results[0], world);
    }
  }

  /** A pool whose workers have all returned has claimed and stored everything. */
  lemma {:induction false} FullSlots(calls: seq<ToolCall>, p: Pool)
    requires EndsMatch(calls, p) && AllReturned(p) && p.workers != []
    ensures p.next == |calls| && forall i | 0 <= i < |p.slots| :: p.slots[i].Some?
  {
    assert p.workers[0].Returned?;
    forall i | 0 <= i < |p.slots|
      ensures p.slots[i].Some?
    {
      assert OnePlace(calls, p, i);
      NoHolders(p.workers, i);
    }
  }

  lemma {:induction false} EndsArePermuted(calls: seq<ToolCall>, p: Pool)
    requires EndsMatch(calls, p) && AllReturned(p)
    requires forall i | 0 <= i < |p.slots| :: p.slots[i].Some?
    ensures multiset(Ended(p.log)) == multiset(Results(p.slots))
  {
    forall m
      ensures multiset(Ended(p.log))[m] == multiset(Results(p.slots))[m]
    {
      StoredAll(p.slots, Results(p.slots), m);
      NothingPending(p.workers, m);
    }
  }

  lemma {:induction false} BracketsClosed(rt: Runtime, calls: seq<ToolCall>, p: Pool)
    requires Bracketed(rt, calls, p) && AllReturned(p)
    ensures AcceptAll(rt.tools, InTurn, p.log) == Some(InTurn)
  {
    var b := AcceptAll(rt.tools, InTurn, p.log).value;
    forall id
      ensures b.tools[id] == 0
    {
      NothingOpen(calls, p.workers, id);
    }
    assert b.tools == multiset{};
  }

  /**
   * Once all workers have returned: every slot holds the result of its own
   * index, all calls were started in order, the result messages that ended are
   * the results in some order, every tool bracket is closed again, and for
   * read-only tools the results and the world are those of one-by-one execution.
   */
  lemma {:induction false} PoolComplete(
      rt: Runtime, calls: seq<ToolCall>, concurrency: int, world: World, schedule: seq<nat>)
    requires AllReturned(Reached(rt, calls, concurrency, world, schedule))
    ensures var p := Reached(rt, calls, concurrency, world, schedule);
            && (forall i | 0 <= i < |p.slots| :: p.slots[i].Some?)
            && var results := Results(p.slots);
            && |results| == |calls|
            && (forall i | 0 <= i < |calls| ::
                  && results[i].ToolResult?
                  && results[i].toolCallId == calls[i].id && results[i].toolName == calls[i].name)
            && Started(p.log) == calls && TurnsEnded(p.log) == []
            && multiset(Ended(p.log)) == multiset(results)
            && (NoSideEffects(rt, calls) ==> AcceptAll(rt.tools, InTurn, p.log) == Some(InTurn))
            && (ReadOnly(rt, calls) ==> Sequentially(rt, calls, world, results, p.world))
  {
    ReachedInv(rt, calls, concurrency, world, schedule);
    var p := Reached(rt, calls, concurrency, world, schedule);
    FullSlots(calls, p);
    EndsArePermuted(calls, p);
    assert calls[..|calls|] == calls;
    if NoSideEffects(rt, calls) {
      BracketsClosed(rt, calls, p);
    }
    if ReadOnly(rt, calls) {
      AllAlone(rt, calls, world, Results(p.slots));
    }
  }

  // ---------------------------------------------------------------------
  // The pool as the source writes it
  // ---------------------------------------------------------------------

  /** The variables the worker closures share. */
  class SharedPool {
    const rt: Runtime
    const calls: seq<ToolCall>
    const groupResults: array<Option<Message>>
    var nextIndex: nat
    var workers: seq<Worker>
    var world: World
    var log: seq<AgentEvent>

    ghost function View(): Pool
      reads this, groupResults
    {
      Pool(nextIndex, workers, groupResults[..], world, log)
    }

    constructor (rt: Runtime, calls: seq<ToolCall>, limit: nat, world: World)
      ensures this.rt == rt && this.calls == calls && fresh(groupResults)
      ensures View() == Init(|calls|, limit, world) && Shape(calls, View())
    {
      this.rt := rt;
      this.calls := calls;
      groupResults := new Option<Message>[|calls|](_ => None);
      nextIndex := 0;
      workers := seq(limit, _ => Idle);
      this.world := world;
      log := [];
    }

    /** Run worker `w` to its next await. */
    method Resume(w: nat)
      requires Shape(calls, View())
      modifies this, groupResults
      ensures View() == Step(rt, calls, old(View()), w)
    {
      if w >= |workers| {
        return;
      }
      match workers[w]
      case Idle =>
        if nextIndex < |calls| {
          var current := nextIndex;
          nextIndex := nextIndex + 1;
          workers := workers[w := Busy(current, rt.begin(calls[current]))];
          log := log + [ToolStart(calls[current])];
        } else {
          workers := workers[w := Returned];
        }
      case Busy(i, local) =>
        var (state, events) := Advance(rt, calls[i], local, world);
        log := log + events;
        world := state.world;
        workers := workers[w := if state.Finished? then Settled(i, state.result) else Busy(i, state.local)];
      case Settled(i, result) =>
        groupResults[i] := Some(result);
        workers := workers[w := Idle];
      case Returned =>
    }
  }

  /** Runs the pool under a schedule that takes all workers to their end. */
  method ExecuteWithConcurrencyLimit(
      rt: Runtime, calls: seq<ToolCall>, concurrency: int, world: World, schedule: seq<nat>)
    returns (results: seq<Message>, after: World, log: seq<AgentEvent>)
    requires AllReturned(Reached(rt, calls, concurrency, world, schedule))
    ensures |results| == |calls| && forall i | 0 <= i < |calls| :: Answers(results[i], calls[i])
    ensures Started(log) == calls && multiset(Ended(log)) == multiset(results) && TurnsEnded(log) == []
    ensures NoSideEffects(rt, calls) ==> AcceptAll(rt.tools, InTurn, log) == Some(InTurn)
    ensures ReadOnly(rt, calls) ==> Sequentially(rt, calls, world, results, after)
    ensures var p := Reached(rt, calls, concurrency, world, schedule);
            log == p.log && after == p.world && forall i | 0 <= i < |results| :: p.slots[i] == Some(results[i])
  {
    var pool := new SharedPool(rt, calls, Limit(concurrency, |calls|), world);
    ghost var start := pool.View();
    var k := 0;
    while k < |schedule|
      invariant 0 <= k <= |schedule|
      invariant pool.rt == rt && pool.calls == calls && fresh(pool) && fresh(pool.groupResults)
      invariant Shape(calls, pool.View())
      invariant Run(rt, calls, pool.View(), schedule[k..]) == Run(rt, calls, start, schedule)
    {
      assert schedule[k..][1..] == schedule[k + 1..];
      pool.Resume(schedule[k]);
      k := k + 1;
    }
    PoolComplete(rt, calls, concurrency, world, schedule);
    results := Results(pool.groupResults[..]);
    after := pool.world;
    log := pool.log;
  }
}
