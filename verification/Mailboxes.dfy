/**
 * The queue half of class Agent (packages/agent/src/agent.ts): steering and
 * follow-up messages, their delivery modes, and the callbacks through which the
 * loop polls them.
 */
module Mailboxes {
  import opened Sequences
  import opened AgentTypes

  datatype Mode = All | OneAtATime

  /** What callers can do to the queues while the loop waits. */
  datatype QueueOp =
    | Steer(message: Message)
    | FollowUp(message: Message)
    | SetSteeringMode(mode: Mode)
    | SetFollowUpMode(mode: Mode)

  /** What waits in the two queues. */
  datatype Queues = Queues(steering: seq<Message>, followUp: seq<Message>)

  /** The queues with their delivery modes. */
  datatype Post = Post(waiting: Queues, steeringMode: Mode, followUpMode: Mode)

  function Delivered(p: Post, op: QueueOp): Post {
    match op
    case Steer(m) => p.(waiting := p.waiting.(steering := p.waiting.steering + [m]))
    case FollowUp(m) => p.(waiting := p.waiting.(followUp := p.waiting.followUp + [m]))
    case SetSteeringMode(mode) => p.(steeringMode := mode)
    case SetFollowUpMode(mode) => p.(followUpMode := mode)
  }

  function DeliveredAll(p: Post, ops: seq<QueueOp>): Post
    decreases |ops|
  {
    if ops == [] then p else DeliveredAll(Delivered(p, ops[0]), ops[1..])
  }

  /** The size of the next batch of a queue. */
  function BatchSize(queue: seq<Message>, mode: Mode): (n: nat)
    ensures n <= |queue| && (n == 0 <==> queue == [])
  {
    if mode.OneAtATime? && |queue| > 0 then 1 else |queue|
  }

  /** What a poll for steering takes when these operations come before it. */
  function Caught(p: Post, ops: seq<QueueOp>): seq<Message> {
    var q := DeliveredAll(p, ops);
    q.waiting.steering[..BatchSize(q.waiting.steering, q.steeringMode)]
  }

  /** What such a poll leaves. */
  function Uncaught(p: Post, ops: seq<QueueOp>): Post {
    var q := DeliveredAll(p, ops);
    q.(waiting := q.waiting.(steering := q.waiting.steering[BatchSize(q.waiting.steering, q.steeringMode)..]))
  }

  /** What `n` polls for steering leave, the first of them being poll `from` of the run. */
  function AfterPolls(p: Post, arrivals: nat -> seq<QueueOp>, from: nat, n: nat): Post {
    if n == 0 then p else Uncaught(AfterPolls(p, arrivals, from, n - 1), arrivals(from + n - 1))
  }

  /** What poll `k` of these takes. */
  function CaughtAt(p: Post, arrivals: nat -> seq<QueueOp>, from: nat, k: nat): seq<Message> {
    Caught(AfterPolls(p, arrivals, from, k), arrivals(from + k))
  }

  /** The first `n` of these take nothing. */
  predicate NothingCaught(p: Post, arrivals: nat -> seq<QueueOp>, from: nat, n: nat) {
    n > 0 ==> NothingCaught(p, arrivals, from, n - 1) && CaughtAt(p, arrivals, from, n - 1) == []
  }

  /** Of `n` polls from `p` to `q` all but the last took nothing, and the last took `batch`. */
  predicate LastCaught(
      p: Post, arrivals: nat -> seq<QueueOp>, from: nat, n: nat, batch: seq<Message>, q: Post)
  {
    && q == AfterPolls(p, arrivals, from, n)
    && if n == 0 then batch == []
       else NothingCaught(p, arrivals, from, n - 1) && batch == CaughtAt(p, arrivals, from, n - 1)
  }

  lemma {:induction false} LastCaughtNext(p: Post, arrivals: nat -> seq<QueueOp>, from: nat, n: nat, q: Post)
    requires LastCaught(p, arrivals, from, n, [], q)
    ensures LastCaught(p, arrivals, from, n + 1, Caught(q, arrivals(from + n)), Uncaught(q, arrivals(from + n)))
  {
  }

  /**
   * The four ghost fields are histories: what was queued and not cleared, and
   * what was dequeued, per queue.
   */
  class Mailbox {
    var steeringQueue: seq<Message>
    var followUpQueue: seq<Message>
    var steeringMode: Mode
    var followUpMode: Mode
    ghost var steered: seq<Message>
    ghost var steeringTaken: seq<Message>
    ghost var followed: seq<Message>
    ghost var followUpTaken: seq<Message>

    /** Conservation and FIFO: queued is dequeued followed by waiting. */
    ghost predicate Valid()
      reads this
    {
      steered == steeringTaken + steeringQueue && followed == followUpTaken + followUpQueue
    }

    function Waiting(): Queues
      reads this
    {
      Queues(steeringQueue, followUpQueue)
    }

    function Now(): Post
      reads this
    {
      Post(Waiting(), steeringMode, followUpMode)
    }

    constructor (steeringMode: Mode, followUpMode: Mode)
      ensures Valid() && steered == [] && followed == []
      ensures this.steeringMode == steeringMode && this.followUpMode == followUpMode
    {
      steeringQueue, followUpQueue := [], [];
      this.steeringMode, this.followUpMode := steeringMode, followUpMode;
      steered, steeringTaken, followed, followUpTaken := [], [], [], [];
    }

    /** Execute one queue operation. */
    method Perform(op: QueueOp)
      requires Valid()
      modifies this
      ensures Valid() && steeringTaken == old(steeringTaken) && followUpTaken == old(followUpTaken)
      ensures steered == old(steered) + (if op.Steer? then [op.message] else [])
      ensures followed == old(followed) + (if op.FollowUp? then [op.message] else [])
      ensures Now() == Delivered(old(Now()), op)
      ensures steeringQueue == old(steeringQueue) + (if op.Steer? then [op.message] else [])
      ensures followUpQueue == old(followUpQueue) + (if op.FollowUp? then [op.message] else [])
      ensures steeringMode == if op.SetSteeringMode? then op.mode else old(steeringMode)
      ensures followUpMode == if op.SetFollowUpMode? then op.mode else old(followUpMode)
    {
      match op
      case Steer(m) =>
        steeringQueue := steeringQueue + [m];
        steered := steered + [m];
      case FollowUp(m) =>
        followUpQueue := followUpQueue + [m];
        followed := followed + [m];
      case SetSteeringMode(mode) => steeringMode := mode;
      case SetFollowUpMode(mode) => followUpMode := mode;
    }

    method PerformAll(ops: seq<QueueOp>)
      requires Valid()
      modifies this
      ensures Valid() && steeringTaken == old(steeringTaken) && followUpTaken == old(followUpTaken)
      ensures steered == old(steered) + Steering(ops)
      ensures followed == old(followed) + FollowUps(ops)
      ensures Now() == DeliveredAll(old(Now()), ops)
    {
      var k := 0;
      while k < |ops|
        invariant 0 <= k <= |ops|
        invariant Valid() && steeringTaken == old(steeringTaken) && followUpTaken == old(followUpTaken)
        invariant steered + Steering(ops[k..]) == old(steered) + Steering(ops)
        invariant followed + FollowUps(ops[k..]) == old(followed) + FollowUps(ops)
        invariant DeliveredAll(Now(), ops[k..]) == DeliveredAll(old(Now()), ops)
      {
        assert ops[k..][1..] == ops[k + 1..];
        Perform(ops[k]);
        k := k + 1;
      }
    }

    method ClearAllQueues()
      requires Valid()
      modifies this
      ensures Valid() && steeringQueue == [] && followUpQueue == []
      ensures steeringTaken == old(steeringTaken) && followUpTaken == old(followUpTaken)
    {
      steeringQueue, followUpQueue := [], [];
      steered, followed := steeringTaken, followUpTaken;
    }

    method DequeueSteeringMessages() returns (batch: seq<Message>)
      requires Valid()
      modifies this
      ensures Valid() && batch + steeringQueue == old(steeringQueue)
      ensures batch == [] <==> old(steeringQueue) == []
      ensures |batch| <= 1 || (steeringMode.All? && steeringQueue == [])
      ensures match steeringMode
        case All => batch == old(steeringQueue)
        case OneAtATime => batch == old(if steeringQueue == [] then [] else [steeringQueue[0]])
      ensures |batch| == BatchSize(old(steeringQueue), steeringMode)
      ensures steeringMode == old(steeringMode) && followUpMode == old(followUpMode)
      ensures followUpQueue == old(followUpQueue)
      ensures steeringTaken == old(steeringTaken) + batch && steered == old(steered)
      ensures followUpTaken == old(followUpTaken) && followed == old(followed)
    {
      batch := [];
      if steeringMode.OneAtATime? {
        if |steeringQueue| > 0 {
          batch := [steeringQueue[0]];
          steeringQueue := steeringQueue[1..];
        }
      } else {
        batch := steeringQueue;
        steeringQueue := [];
      }
      steeringTaken := steeringTaken + batch;
    }

    method DequeueFollowUpMessages() returns (batch: seq<Message>)
      requires Valid()
      modifies this
      ensures Valid() && batch + followUpQueue == old(followUpQueue)
      ensures batch == [] <==> old(followUpQueue) == []
      ensures |batch| <= 1 || (followUpMode.All? && followUpQueue == [])
      ensures match followUpMode
        case All => batch == old(followUpQueue)
        case OneAtATime => batch == old(if followUpQueue == [] then [] else [followUpQueue[0]])
      ensures |batch| == BatchSize(old(followUpQueue), followUpMode)
      ensures steeringMode == old(steeringMode) && followUpMode == old(followUpMode)
      ensures steeringQueue == old(steeringQueue)
      ensures followUpTaken == old(followUpTaken) + batch && followed == old(followed)
      ensures steeringTaken == old(steeringTaken) && steered == old(steered)
    {
      batch := [];
      if followUpMode.OneAtATime? {
        if |followUpQueue| > 0 {
          batch := [followUpQueue[0]];
          followUpQueue := followUpQueue[1..];
        }
      } else {
        batch := followUpQueue;
        followUpQueue := [];
      }
      followUpTaken := followUpTaken + batch;
    }
  }

  function Steering(ops: seq<QueueOp>): seq<Message> {
    if ops == [] then []
    else (if ops[0].Steer? then [ops[0].message] else []) + Steering(ops[1..])
  }

  function FollowUps(ops: seq<QueueOp>): seq<Message> {
    if ops == [] then []
    else (if ops[0].FollowUp? then [ops[0].message] else []) + FollowUps(ops[1..])
  }

  /** The polls made so far, and what was queued and not cleared by then, per queue. */
  datatype History = History(polls: nat, steered: seq<Message>, followed: seq<Message>)

  /** What arrives for steering before the polls from `from` on and before `to`. */
  function SteeredBy(arrivals: nat -> seq<QueueOp>, from: nat, to: nat): seq<Message>
    decreases to
  {
    if from >= to then [] else SteeredBy(arrivals, from, to - 1) + Steering(arrivals(to - 1))
  }

  /** The same for follow-ups. */
  function FollowedBy(arrivals: nat -> seq<QueueOp>, from: nat, to: nat): seq<Message>
    decreases to
  {
    if from >= to then [] else FollowedBy(arrivals, from, to - 1) + FollowUps(arrivals(to - 1))
  }

  /** From `a` to `b` exactly what arrived was queued. */
  predicate Since(arrivals: nat -> seq<QueueOp>, a: History, b: History) {
    && a.polls <= b.polls
    && b.steered == a.steered + SteeredBy(arrivals, a.polls, b.polls)
    && b.followed == a.followed + FollowedBy(arrivals, a.polls, b.polls)
  }

  lemma {:induction false} ArrivedBetween(arrivals: nat -> seq<QueueOp>, i: nat, j: nat, k: nat)
    requires i <= j <= k
    ensures SteeredBy(arrivals, i, k) == SteeredBy(arrivals, i, j) + SteeredBy(arrivals, j, k)
    ensures FollowedBy(arrivals, i, k) == FollowedBy(arrivals, i, j) + FollowedBy(arrivals, j, k)
    decreases k
  {
    if j < k {
      ArrivedBetween(arrivals, i, j, k - 1);
    }
  }

  lemma {:induction false} SinceThen(arrivals: nat -> seq<QueueOp>, a: History, b: History, c: History)
    requires Since(arrivals, a, b) && Since(arrivals, b, c)
    ensures Since(arrivals, a, c)
  {
    ArrivedBetween(arrivals, a.polls, b.polls, c.polls);
    Associate(a.steered, SteeredBy(arrivals, a.polls, b.polls), SteeredBy(arrivals, b.polls, c.polls));
    Associate(a.followed, FollowedBy(arrivals, a.polls, b.polls), FollowedBy(arrivals, b.polls, c.polls));
  }

  lemma {:induction false} SinceNothing(arrivals: nat -> seq<QueueOp>, a: History)
    ensures Since(arrivals, a, a)
  {
    assert a.steered + [] == a.steered && a.followed + [] == a.followed;
  }

  lemma {:induction false} SinceOnce(arrivals: nat -> seq<QueueOp>, a: History, b: History)
    requires b.polls == a.polls + 1
    requires b.steered == a.steered + Steering(arrivals(a.polls))
    requires b.followed == a.followed + FollowUps(arrivals(a.polls))
    ensures Since(arrivals, a, b)
  {
    assert SteeredBy(arrivals, a.polls, a.polls) == [] && FollowedBy(arrivals, a.polls, a.polls) == [];
    assert [] + Steering(arrivals(a.polls)) == Steering(arrivals(a.polls));
    assert [] + FollowUps(arrivals(a.polls)) == FollowUps(arrivals(a.polls));
  }

  /** The history of a run's polls, and what they have taken. */
  datatype Ledger = Ledger(past: History, steeringTaken: seq<Message>, followUpTaken: seq<Message>)

  /** From `a` to `b` polls for steering took `steering`, and exactly what arrived was queued. */
  predicate Moved(arrivals: nat -> seq<QueueOp>, a: Ledger, b: Ledger, steering: seq<Message>) {
    match b
    case Ledger(past, steeringTaken, followUpTaken) =>
      && Since(arrivals, a.past, past)
      && steeringTaken == a.steeringTaken + steering && followUpTaken == a.followUpTaken
  }

  lemma {:induction false} NotMoved(arrivals: nat -> seq<QueueOp>, a: Ledger)
    ensures Moved(arrivals, a, a, [])
  {
    SinceNothing(arrivals, a.past);
    assert a.steeringTaken + [] == a.steeringTaken;
  }

  lemma {:induction false} MovedThen(
      arrivals: nat -> seq<QueueOp>, a: Ledger, b: Ledger, c: Ledger, steering: seq<Message>)
    requires Moved(arrivals, a, b, []) && Moved(arrivals, b, c, steering)
    ensures Moved(arrivals, a, c, steering)
  {
    SinceThen(arrivals, a.past, b.past, c.past);
    assert a.steeringTaken + [] == a.steeringTaken;
  }

  /**
   * From `a` to `b`, and with the queues from `p` to `q`, polls for steering took nothing
   * from the queues as the arrivals left them, until the last took `steering`.
   */
  predicate FirstTaken(
      arrivals: nat -> seq<QueueOp>, a: Ledger, p: Post, b: Ledger, q: Post, steering: seq<Message>)
  {
    && Moved(arrivals, a, b, steering)
    && LastCaught(p, arrivals, a.past.polls, b.past.polls - a.past.polls, steering, q)
  }

  lemma {:induction false} NothingTaken(arrivals: nat -> seq<QueueOp>, a: Ledger, p: Post)
    ensures FirstTaken(arrivals, a, p, a, p, [])
  {
    NotMoved(arrivals, a);
  }

  /** One more poll. */
  lemma {:induction false} TakenNext(
      arrivals: nat -> seq<QueueOp>, a: Ledger, p: Post, b: Ledger, q: Post, c: Ledger, steering: seq<Message>)
    requires FirstTaken(arrivals, a, p, b, q, []) && Moved(arrivals, b, c, steering)
    requires c.past.polls == b.past.polls + 1 && steering == Caught(q, arrivals(b.past.polls))
    ensures FirstTaken(arrivals, a, p, c, Uncaught(q, arrivals(b.past.polls)), steering)
  {
    MovedThen(arrivals, a, b, c, steering);
    LastCaughtNext(p, arrivals, a.past.polls, b.past.polls - a.past.polls, q);
  }

  /**
   * The part of AgentLoopConfig the loop needs. `arrivals(k)` is what other code
   * does to the queues before the k-th poll, so every timing of arrivals and
   * mode switches is some `arrivals`.
   */
  class LoopConfig {
    const mailbox: Mailbox
    const arrivals: nat -> seq<QueueOp>
    var polls: nat
    var skipInitialSteeringPoll: bool

    constructor (mailbox: Mailbox, arrivals: nat -> seq<QueueOp>, skip: bool)
      ensures this.mailbox == mailbox && this.arrivals == arrivals
      ensures polls == 0 && skipInitialSteeringPoll == skip
    {
      this.mailbox, this.arrivals := mailbox, arrivals;
      polls, skipInitialSteeringPoll := 0, skip;
    }

    /** The queues are sound and the initial poll has been made. */
    ghost predicate Ready()
      reads this, mailbox
    {
      mailbox.Valid() && !skipInitialSteeringPoll
    }

    ghost function Entries(): Ledger
      reads this, mailbox
    {
      Ledger(Past(), mailbox.steeringTaken, mailbox.followUpTaken)
    }

    ghost function Past(): History
      reads this, mailbox
    {
      History(polls, mailbox.steered, mailbox.followed)
    }

    method GetSteeringMessages() returns (batch: seq<Message>)
      requires mailbox.Valid()
      modifies this, mailbox
      ensures mailbox.Valid() && polls == old(polls) + 1 && !skipInitialSteeringPoll
      ensures old(skipInitialSteeringPoll) ==> batch == []
      ensures !old(skipInitialSteeringPoll) && batch == [] ==> mailbox.steeringQueue == []
      ensures !old(skipInitialSteeringPoll) ==>
                && batch == Caught(old(mailbox.Now()), arrivals(old(polls)))
                && mailbox.Now() == Uncaught(old(mailbox.Now()), arrivals(old(polls)))
      ensures mailbox.steeringTaken == old(mailbox.steeringTaken) + batch
      ensures mailbox.followUpTaken == old(mailbox.followUpTaken)
      ensures Since(arrivals, old(Past()), Past())
    {
      mailbox.PerformAll(arrivals(polls));
      polls := polls + 1;
      if skipInitialSteeringPoll {
        skipInitialSteeringPoll := false;
        batch := [];
      } else {
        batch := mailbox.DequeueSteeringMessages();
      }
      SinceOnce(arrivals, old(Past()), Past());
    }

    method GetFollowUpMessages() returns (batch: seq<Message>)
      requires mailbox.Valid()
      modifies this, mailbox
      ensures mailbox.Valid() && polls == old(polls) + 1
      ensures skipInitialSteeringPoll == old(skipInitialSteeringPoll)
      ensures batch == [] ==> mailbox.followUpQueue == []
      ensures var p := DeliveredAll(old(mailbox.Now()), arrivals(old(polls)));
              && mailbox.Now() == p.(waiting := p.waiting.(followUp := mailbox.followUpQueue))
              && p.waiting.followUp == batch + mailbox.followUpQueue
              && |batch| == BatchSize(p.waiting.followUp, p.followUpMode)
      ensures mailbox.steeringTaken == old(mailbox.steeringTaken)
      ensures mailbox.followUpTaken == old(mailbox.followUpTaken) + batch
      ensures Since(arrivals, old(Past()), Past())
    {
      mailbox.PerformAll(arrivals(polls));
      polls := polls + 1;
      batch := mailbox.DequeueFollowUpMessages();
      SinceOnce(arrivals, old(Past()), Past());
    }
  }
}
