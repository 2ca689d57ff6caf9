/**
 * The worker pool comes to its end: if every call of the group ends, so does every
 * schedule that resumes each worker often enough.
 */
module AgentLiveness {
  import opened Reordering
  import opened AgentTypes
  import opened ToolRuntime
  import opened AgentWorkers
  import opened ToolScheduler

  // ---------------------------------------------------------------------
  // Calls that end
  // ---------------------------------------------------------------------

  /**
   * From this local state the call ends within `k` stretches, whatever happens between
   * them, as long as the world stays among `worlds`; and the call keeps it there.
   */
  ghost predicate EndsIn(rt: Runtime, call: ToolCall, local: Local, worlds: World -> bool, k: nat) {
    && k > 0
    && forall world | worlds(world) ::
         match CallStep(rt, call, local, world)
         case Continue(next, world', _) => worlds(world') && EndsIn(rt, call, next, worlds, k - 1)
         case Done(world', _, _) => worlds(world')
         case Throw(world', _) => worlds(world')
  }

  /** All calls of a group end within `k` stretches. */
  ghost predicate AllEndIn(rt: Runtime, calls: seq<ToolCall>, worlds: World -> bool, k: nat) {
    forall i | 0 <= i < |calls| :: EndsIn(rt, calls[i], rt.begin(calls[i]), worlds, k)
  }

  // ---------------------------------------------------------------------
  // What is left to do
  // ---------------------------------------------------------------------

  /** Steps left for a worker: those of its call, storing the result, and returning. */
  ghost predicate Funded(rt: Runtime, calls: seq<ToolCall>, worlds: World -> bool, worker: Worker, left: nat) {
    match worker
    case Idle => left == 1
    case Busy(i, local) => i < |calls| && left >= 2 && EndsIn(rt, calls[i], local, worlds, left - 2)
    case Settled(_, _) => left == 2
    case Returned => left == 0
  }

  function Sum(s: seq<nat>): nat {
    if s == [] then 0 else s[0] + Sum(s[1..])
  }

  /** Steps left for the pool: each unclaimed call costs its stretches, the claim and the result. */
  function Left(calls: seq<ToolCall>, p: Pool, lefts: seq<nat>, k: nat): nat
    requires p.next <= |calls|
  {
    Sum(lefts) + (|calls| - p.next) * (k + 2)
  }

  ghost predicate AllFunded(
      rt: Runtime, calls: seq<ToolCall>, worlds: World -> bool, k: nat, p: Pool, lefts: seq<nat>)
  {
    && Shape(calls, p) && worlds(p.world) && |lefts| == |p.workers|
    && forall w | 0 <= w < |p.workers| :: Funded(rt, calls, worlds, p.workers[w], lefts[w])
  }

  lemma {:induction false} SumUpdate(s: seq<nat>, w: nat, x: nat)
    requires w < |s|
    ensures Sum(s[w := x]) + s[w] == Sum(s) + x
  {
    if w == 0 {
      assert s[w := x][1..] == s[1..];
    } else {
      assert s[w := x][1..] == s[1..][w - 1 := x];
      SumUpdate(s[1..], w - 1, x);
    }
  }

  lemma {:induction false} SumAtLeast(s: seq<nat>, w: nat)
    requires w < |s|
    ensures Sum(s) >= s[w]
  {
    if w > 0 {
      SumAtLeast(s[1..], w - 1);
    }
  }

  /** What a step of this worker takes from the budget of the unclaimed calls. */
  function Spent(calls: seq<ToolCall>, p: Pool, w: nat, k: nat): nat
    requires w < |p.workers|
  {
    if p.workers[w].Idle? && p.next < |calls| then k + 2 else 0
  }

  /** A worker that has not returned pays for its step. */
  lemma {:induction false} WorkerPays(
      rt: Runtime, calls: seq<ToolCall>, worlds: World -> bool, k: nat, p: Pool, w: nat, left: nat)
    returns (left': nat)
    requires Shape(calls, p) && worlds(p.world) && AllEndIn(rt, calls, worlds, k)
    requires w < |p.workers| && Funded(rt, calls, worlds, p.workers[w], left)
    ensures worlds(Step(rt, calls, p, w).world)
    ensures Funded(rt, calls, worlds, Step(rt, calls, p, w).workers[w], left')
    ensures left' + (if p.workers[w].Returned? then 0 else 1) <= left + Spent(calls, p, w, k)
  {
    match p.workers[w]
    case Idle => left' := if p.next < |calls| then k + 2 else 0;
    case Busy(i, local) => left' := BusyPays(rt, calls, worlds, p, w, left);
    case Settled(_, _) => left' := 1;
    case Returned => left' := 0;
  }

  lemma {:induction false} BusyPays(
      rt: Runtime, calls: seq<ToolCall>, worlds: World -> bool, p: Pool, w: nat, left: nat)
    returns (left': nat)
    requires Shape(calls, p) && worlds(p.world)
    requires w < |p.workers| && p.workers[w].Busy? && Funded(rt, calls, worlds, p.workers[w], left)
    ensures worlds(Step(rt, calls, p, w).world)
    ensures Funded(rt, calls, worlds, Step(rt, calls, p, w).workers[w], left') && left' + 1 <= left
  {
    var i, local := p.workers[w].index, p.workers[w].local;
    CallPays(rt, calls[i], local, p.world, worlds, left - 2);
    BusySteps(rt, calls, p, w);
    left' := if Advance(rt, calls[i], local, p.world).0.Running? then left - 1 else 2;
  }

  lemma {:induction false} CallPays(
      rt: Runtime, call: ToolCall, local: Local, world: World, worlds: World -> bool, k: nat)
    requires EndsIn(rt, call, local, worlds, k) && worlds(world)
    ensures k > 0 && worlds(Advance(rt, call, local, world).0.world)
    ensures var state := Advance(rt, call, local, world).0;
            state.Running? ==> EndsIn(rt, call, state.local, worlds, k - 1)
  {
  }

  lemma {:induction false} BusySteps(rt: Runtime, calls: seq<ToolCall>, p: Pool, w: nat)
    requires Shape(calls, p) && w < |p.workers| && p.workers[w].Busy?
    ensures var i := p.workers[w].index;
            var q, state := Step(rt, calls, p, w), Advance(rt, calls[i], p.workers[w].local, p.world).0;
            && q.world == state.world
            && q.workers[w] == if state.Running? then Busy(i, state.local) else Settled(i, state.result)
  {
  }

  /** A step costs what it takes; no other worker is affected. */
  lemma {:induction false} StepPays(
      rt: Runtime, calls: seq<ToolCall>, worlds: World -> bool, k: nat, p: Pool, lefts: seq<nat>, w: nat)
    returns (lefts': seq<nat>)
    requires AllFunded(rt, calls, worlds, k, p, lefts) && AllEndIn(rt, calls, worlds, k)
    ensures AllFunded(rt, calls, worlds, k, Step(rt, calls, p, w), lefts')
    ensures Left(calls, Step(rt, calls, p, w), lefts', k)
            + (if w < |p.workers| && !p.workers[w].Returned? then 1 else 0) <= Left(calls, p, lefts, k)
  {
    lefts' := lefts;
    if w < |p.workers| {
      var q := Step(rt, calls, p, w);
      var left' := WorkerPays(rt, calls, worlds, k, p, w, lefts[w]);
      lefts' := lefts[w := left'];
      OthersStay(rt, calls, p, w);
      StillFunded(rt, calls, worlds, k, p, lefts, w, left');
      LeftChanges(calls, p, q, lefts, w, left', k);
    }
  }

  lemma {:induction false} LeftChanges(
      calls: seq<ToolCall>, p: Pool, q: Pool, lefts: seq<nat>, w: nat, left': nat, k: nat)
    requires w < |p.workers| == |lefts| && p.next <= |calls|
    requires q.next == p.next + if p.workers[w].Idle? && p.next < |calls| then 1 else 0
    ensures Left(calls, q, lefts[w := left'], k) + lefts[w] + Spent(calls, p, w, k) == Left(calls, p, lefts, k) + left'
  {
    SumUpdate(lefts, w, left');
    Unclaimed(|calls|, p.next, q.next, k, Spent(calls, p, w, k));
  }

  lemma {:induction false} StillFunded(
      rt: Runtime, calls: seq<ToolCall>, worlds: World -> bool, k: nat, p: Pool, lefts: seq<nat>, w: nat, left': nat)
    requires AllFunded(rt, calls, worlds, k, p, lefts) && w < |p.workers|
    requires var q := Step(rt, calls, p, w); worlds(q.world) && Funded(rt, calls, worlds, q.workers[w], left')
    ensures AllFunded(rt, calls, worlds, k, Step(rt, calls, p, w), lefts[w := left'])
  {
    OthersStay(rt, calls, p, w);
  }

  lemma {:induction false} OthersStay(rt: Runtime, calls: seq<ToolCall>, p: Pool, w: nat)
    requires Shape(calls, p) && w < |p.workers|
    ensures var q := Step(rt, calls, p, w);
            && (forall v | 0 <= v < |p.workers| && v != w :: q.workers[v] == p.workers[v])
            && q.next == p.next + if p.workers[w].Idle? && p.next < |calls| then 1 else 0
  {
  }

  lemma {:induction false} Unclaimed(n: nat, next: nat, next': nat, k: nat, claims: nat)
    requires next <= next' <= n
    requires if next' == next then claims == 0 else next' == next + 1 && claims == k + 2
    ensures (n - next') * (k + 2) + claims == (n - next) * (k + 2)
  {
  }

  // ---------------------------------------------------------------------
  // Every schedule that is long enough ends
  // ---------------------------------------------------------------------

  /** How often worker `w` is resumed. */
  function Resumed(schedule: seq<nat>, w: nat): nat {
    if schedule == [] then 0 else (if schedule[0] == w then 1 else 0) + Resumed(schedule[1..], w)
  }

  lemma {:induction false} ReturnedStays(rt: Runtime, calls: seq<ToolCall>, p: Pool, schedule: seq<nat>, w: nat)
    requires Shape(calls, p) && w < |p.workers| && p.workers[w].Returned?
    ensures Run(rt, calls, p, schedule).workers[w].Returned?
    decreases schedule
  {
    if schedule != [] {
      if schedule[0] < |p.workers| {
        OthersStay(rt, calls, p, schedule[0]);
      }
      ReturnedStays(rt, calls, Step(rt, calls, p, schedule[0]), schedule[1..], w);
    }
  }

  lemma {:induction false} NotDone(
      rt: Runtime, calls: seq<ToolCall>, worlds: World -> bool, k: nat, p: Pool, lefts: seq<nat>, w: nat)
    requires AllFunded(rt, calls, worlds, k, p, lefts) && w < |p.workers| && !p.workers[w].Returned?
    ensures Left(calls, p, lefts, k) > 0
  {
    assert Funded(rt, calls, worlds, p.workers[w], lefts[w]);
    LeftAtLeast(calls, p, lefts, w, k);
  }

  lemma {:induction false} LeftAtLeast(calls: seq<ToolCall>, p: Pool, lefts: seq<nat>, w: nat, k: nat)
    requires p.next <= |calls| && w < |lefts|
    ensures Left(calls, p, lefts, k) >= lefts[w]
  {
    SumAtLeast(lefts, w);
    NotNegative(|calls| - p.next, k + 2);
  }

  lemma {:induction false} NotNegative(a: nat, b: nat)
    ensures a * b >= 0
  {
  }

  lemma {:induction false} OnePaid(schedule: seq<nat>, w: nat, left: nat, left': nat)
    requires schedule != [] && Resumed(schedule[1..], w) < left' <= left && (schedule[0] == w ==> left' < left)
    ensures Resumed(schedule, w) < left
  {
  }

  /** A worker that has not returned at the end has paid for every time it was resumed. */
  lemma {:induction false} RunPays(
      rt: Runtime, calls: seq<ToolCall>, worlds: World -> bool, k: nat, p: Pool, lefts: seq<nat>,
      schedule: seq<nat>, w: nat)
    requires AllFunded(rt, calls, worlds, k, p, lefts) && AllEndIn(rt, calls, worlds, k)
    requires w < |p.workers| && !Run(rt, calls, p, schedule).workers[w].Returned?
    ensures Resumed(schedule, w) < Left(calls, p, lefts, k)
    decreases schedule
  {
    if p.workers[w].Returned? {
      ReturnedStays(rt, calls, p, schedule, w);
    } else if schedule == [] {
      NotDone(rt, calls, worlds, k, p, lefts, w);
    } else {
      var v, rest := schedule[0], schedule[1..];
      var q := Step(rt, calls, p, v);
      var lefts' := StepPays(rt, calls, worlds, k, p, lefts, v);
      RunPays(rt, calls, worlds, k, q, lefts', rest, w);
      OnePaid(schedule, w, Left(calls, p, lefts, k), Left(calls, q, lefts', k));
    }
  }

  lemma {:induction false} SumOnes(n: nat)
    ensures Sum(Ones(n)) == n
  {
    if n > 0 {
      SumOnes(n - 1);
      assert Ones(n)[1..] == Ones(n - 1);
    }
  }

  /** The number of times each worker may have to be resumed. */
  function Enough(calls: seq<ToolCall>, concurrency: int, k: nat): nat {
    Limit(concurrency, |calls|) + |calls| * (k + 2)
  }

  /**
   * If every call of the group ends within `k` stretches however the others interfere,
   * all workers return under every schedule that resumes each of them often enough.
   */
  lemma {:induction false} PoolReturns(
      rt: Runtime, calls: seq<ToolCall>, concurrency: int, world: World, schedule: seq<nat>,
      worlds: World -> bool, k: nat)
    requires worlds(world) && AllEndIn(rt, calls, worlds, k)
    requires forall w: nat | w < Limit(concurrency, |calls|) :: Resumed(schedule, w) >= Enough(calls, concurrency, k)
    ensures AllReturned(Reached(rt, calls, concurrency, world, schedule))
  {
    var limit := Limit(concurrency, |calls|);
    var p := Init(|calls|, limit, world);
    forall w | 0 <= w < limit
      ensures Reached(rt, calls, concurrency, world, schedule).workers[w].Returned?
    {
      if !Run(rt, calls, p, schedule).workers[w].Returned? {
        SumOnes(limit);
        RunPays(rt, calls, worlds, k, p, Ones(limit), schedule, w);
      }
    }
  }

  // ---------------------------------------------------------------------
  // Read-only groups
  // ---------------------------------------------------------------------

  /** Run alone, the call has finished after `k` stretches. */
  predicate FinishedBy(rt: Runtime, call: ToolCall, world: World, k: nat) {
    Alone(rt, call, world, k).Finished?
  }

  /** A call that leaves the world and has come this far alone goes on as it does alone. */
  lemma {:induction false} AloneEndsIn(rt: Runtime, call: ToolCall, world: World, j: nat, k: nat, local: Local)
    requires LeavesWorld(rt, call.name) && j < k && Alone(rt, call, world, j) == Running(local, world)
    requires Alone(rt, call, world, k).Finished?
    ensures EndsIn(rt, call, local, w => w == world, k - j)
    decreases k - j
  {
    var step := CallStep(rt, call, local, world);
    assert step.world == world;
    if step.Continue? {
      assert Alone(rt, call, world, j + 1) == Running(step.local, world);
      AloneEndsIn(rt, call, world, j + 1, k, step.local);
    }
  }

  /**
   * A read-only group whose calls finish alone: all workers return under every schedule
   * that resumes each of them often enough.
   */
  lemma {:induction false} ReadOnlyPoolReturns(
      rt: Runtime, calls: seq<ToolCall>, concurrency: int, world: World, schedule: seq<nat>, k: nat)
    requires ReadOnly(rt, calls) && forall i | 0 <= i < |calls| :: FinishedBy(rt, calls[i], world, k)
    requires forall w: nat | w < Limit(concurrency, |calls|) :: Resumed(schedule, w) >= Enough(calls, concurrency, k)
    ensures AllReturned(Reached(rt, calls, concurrency, world, schedule))
  {
    forall i | 0 <= i < |calls|
      ensures EndsIn(rt, calls[i], rt.begin(calls[i]), w => w == world, k)
    {
      assert FinishedBy(rt, calls[i], world, k);
      AloneEndsIn(rt, calls[i], world, 0, k, rt.begin(calls[i]));
    }
    PoolReturns(rt, calls, concurrency, world, schedule, w => w == world, k);
  }

  // ---------------------------------------------------------------------
  // Schedules that complete
  // ---------------------------------------------------------------------

  /** Every worker in turn. */
  function Round(limit: nat): seq<nat> {
    if limit == 0 then [] else Round(limit - 1) + [limit - 1]
  }

  lemma {:induction false} RunAppend(rt: Runtime, calls: seq<ToolCall>, p: Pool, a: seq<nat>, b: seq<nat>)
    requires Shape(calls, p)
    ensures Run(rt, calls, p, a + b) == Run(rt, calls, Run(rt, calls, p, a), b)
    decreases a
  {
    if a == [] {
      assert a + b == b;
    } else {
      assert (a + b)[0] == a[0] && (a + b)[1..] == a[1..] + b;
      RunAppend(rt, calls, Step(rt, calls, p, a[0]), a[1..], b);
    }
  }

  /** The first `k` workers have claimed a call each. */
  predicate FirstBusy(p: Pool, k: nat) {
    && p.next == k <= |p.workers|
    && (forall w | 0 <= w < k :: p.workers[w].Busy? && p.workers[w].index == w)
    && (forall w | k <= w < |p.workers| :: p.workers[w].Idle?)
  }

  lemma {:induction false} RoundClaims(rt: Runtime, calls: seq<ToolCall>, p: Pool, k: nat)
    requires Shape(calls, p) && FirstBusy(p, 0) && k <= |p.workers| <= |calls|
    ensures FirstBusy(Run(rt, calls, p, Round(k)), k)
  {
    if k > 0 {
      RoundClaims(rt, calls, p, k - 1);
      RunAppend(rt, calls, p, Round(k - 1), [k - 1]);
      assert [k - 1][1..] == [];
    }
  }

  /** The whole width of a pool is used: there is a schedule after which every worker runs a call. */
  lemma {:induction false} WidthIsUsed(rt: Runtime, calls: seq<ToolCall>, concurrency: int, world: World)
    requires calls != []
    ensures exists schedule ::
              var p := Reached(rt, calls, concurrency, world, schedule);
              forall w | 0 <= w < |p.workers| :: p.workers[w].Busy? && p.workers[w].index == w
  {
    var limit := Limit(concurrency, |calls|);
    RoundClaims(rt, calls, Init(|calls|, limit, world), limit);
    assert FirstBusy(Reached(rt, calls, concurrency, world, Round(limit)), limit);
  }

  function Rounds(limit: nat, n: nat): seq<nat> {
    if n == 0 then [] else Round(limit) + Rounds(limit, n - 1)
  }

  lemma {:induction false} ResumedAppend(a: seq<nat>, b: seq<nat>, w: nat)
    ensures Resumed(a + b, w) == Resumed(a, w) + Resumed(b, w)
  {
    if a == [] {
      assert a + b == b;
    } else {
      assert (a + b)[0] == a[0] && (a + b)[1..] == a[1..] + b;
      ResumedAppend(a[1..], b, w);
    }
  }

  lemma {:induction false} RoundResumes(limit: nat, w: nat)
    ensures Resumed(Round(limit), w) == if w < limit then 1 else 0
  {
    if limit > 0 {
      RoundResumes(limit - 1, w);
      ResumedAppend(Round(limit - 1), [limit - 1], w);
      assert [limit - 1][1..] == [];
    }
  }

  lemma {:induction false} RoundsResume(limit: nat, n: nat, w: nat)
    requires w < limit
    ensures Resumed(Rounds(limit, n), w) == n
  {
    if n > 0 {
      RoundResumes(limit, w);
      RoundsResume(limit, n - 1, w);
      ResumedAppend(Round(limit), Rounds(limit, n - 1), w);
    }
  }

  /** Every call, run alone, finishes. */
  ghost predicate Finishing(rt: Runtime) {
    forall call: ToolCall, world: World :: Finishes(rt, call, world)
  }

  ghost predicate Finishes(rt: Runtime, call: ToolCall, world: World) {
    exists k: nat :: FinishedBy(rt, call, world, k)
  }

  ghost function FinishTime(rt: Runtime, call: ToolCall, world: World): (k: nat)
    requires Finishing(rt)
    ensures FinishedBy(rt, call, world, k)
  {
    assert Finishes(rt, call, world);
    var k: nat :| FinishedBy(rt, call, world, k);
    k
  }

  ghost function FinishTimes(rt: Runtime, calls: seq<ToolCall>, world: World): nat
    requires Finishing(rt)
  {
    if calls == [] then 0 else FinishTime(rt, calls[0], world) + FinishTimes(rt, calls[1..], world)
  }

  lemma {:induction false} FinishedLater(rt: Runtime, call: ToolCall, world: World, k: nat, n: nat)
    requires k <= n && FinishedBy(rt, call, world, k)
    ensures FinishedBy(rt, call, world, n)
  {
    FinishedStays(rt, call, world, k, n);
  }

  lemma {:induction false} AllFinished(rt: Runtime, calls: seq<ToolCall>, world: World, i: nat, k: nat)
    requires Finishing(rt) && i < |calls| && k >= FinishTimes(rt, calls, world)
    ensures FinishedBy(rt, calls[i], world, k)
  {
    if i == 0 {
      FinishedLater(rt, calls[0], world, FinishTime(rt, calls[0], world), k);
    } else {
      AllFinished(rt, calls[1..], world, i - 1, k);
    }
  }

  /** A schedule for the pool of a read-only group: enough rounds. */
  ghost function Fair(rt: Runtime, calls: seq<ToolCall>, world: World): seq<nat>
    requires Finishing(rt)
  {
    var concurrency := Concurrency(rt.maxParallelTools);
    Rounds(Limit(concurrency, |calls|), Enough(calls, concurrency, FinishTimes(rt, calls, world)))
  }

  lemma {:induction false} FairReturns(rt: Runtime, calls: seq<ToolCall>, world: World)
    requires Finishing(rt) && ReadOnly(rt, calls)
    ensures AllReturned(Reached(rt, calls, Concurrency(rt.maxParallelTools), world, Fair(rt, calls, world)))
  {
    var concurrency, k := Concurrency(rt.maxParallelTools), FinishTimes(rt, calls, world);
    var limit := Limit(concurrency, |calls|);
    forall i | 0 <= i < |calls|
      ensures FinishedBy(rt, calls[i], world, k)
    {
      AllFinished(rt, calls, world, i, k);
    }
    forall w: nat | w < limit
      ensures Resumed(Fair(rt, calls, world), w) >= Enough(calls, concurrency, k)
    {
      RoundsResume(limit, Enough(calls, concurrency, k), w);
    }
    ReadOnlyPoolReturns(rt, calls, concurrency, world, Fair(rt, calls, world), k);
  }

  /**
   * The assumption that all calls complete can be met: for honest tools whose calls
   * finish there are schedules under which every pool and every single call ends.
   */
  lemma {:induction false} SchedulesExist(rt: Runtime)
    requires Honest(rt) && Finishing(rt)
    ensures exists s :: Completes(rt, s)
  {
    var s := Schedules(
      (k: nat, calls: seq<ToolCall>, world: World) => Fair(rt, calls, world),
      (k: nat, call: ToolCall, world: World) => FinishTime(rt, call, world));
    forall k: nat, calls: seq<ToolCall>, world: World | ReadOnlyCalls(rt.tools, calls)
      ensures AllReturned(Reached(rt, calls, Concurrency(rt.maxParallelTools), world, s.pool(k, calls, world)))
    {
      FairReturns(rt, calls, world);
    }
    assert Completes(rt, s);
  }
}
