/**
 * One Slack channel: its queue (packages/mom/src/slack.ts) and its handler state
 * (packages/mom/src/main.ts), as a state machine whose steps are the stretches of
 * code between awaits.
 */
module ChannelLine {
  /** A queued piece of work. `starts` says whether its handler gets as far as setting the running flag. */
  datatype Work = Work(id: string, starts: bool)

  /** The work the queue awaits: being handled, or done while the queue has not resumed yet. */
  datatype Flight = Idle | Handling(work: Work) | Returned(work: Work)

  datatype Mark = Began(work: Work) | Ended(work: Work)

  /** `accepted`, `started` and `log` record what happened so far. */
  datatype Line = Line(
    waiting: seq<Work>,
    flight: Flight,
    running: bool,
    stopRequested: bool,
    accepted: seq<Work>,
    started: seq<Work>,
    log: seq<Mark>)

  const Quiet := Line([], Idle, false, false, [], [], [])

  datatype Move =
    | Event(work: Work)      // enqueueEvent
    | UserMessage(work: Work)
    | Stop
    | HandlerEnds            // the handler's promise settles, normally or not
    | QueueResumes

  /** `handleEvent` up to its first await. One that throws at once never runs. */
  function Begin(l: Line, w: Work): Line {
    var l' := l.(started := l.started + [w]);
    if w.starts then
      l'.(flight := Handling(w), running := true, stopRequested := false, log := l.log + [Began(w)])
    else l'.(flight := Returned(w), log := l.log + [Began(w), Ended(w)])
  }

  /** `processNext` */
  function ProcessNext(l: Line): Line {
    if l.flight != Idle || l.waiting == [] then l
    else Begin(l.(waiting := l.waiting[1..]), l.waiting[0])
  }

  function Enqueue(l: Line, w: Work): Line {
    ProcessNext(l.(waiting := l.waiting + [w], accepted := l.accepted + [w]))
  }

  const MaxWaiting := 5

  /** A move that is not possible now does nothing. */
  function Step(l: Line, m: Move): Line {
    match m
    case Event(w) => if |l.waiting| >= MaxWaiting then l else Enqueue(l, w)
    case UserMessage(w) => if l.running then l else Enqueue(l, w)
    case Stop => if l.running then l.(stopRequested := true) else l
    case HandlerEnds =>
      if l.flight.Handling? then
        l.(flight := Returned(l.flight.work), running := false, log := l.log + [Ended(l.flight.work)])
      else l
    case QueueResumes => if l.flight.Returned? then ProcessNext(l.(flight := Idle)) else l
  }

  function Run(l: Line, moves: seq<Move>): Line
    decreases |moves|
  {
    if moves == [] then l else Run(Step(l, moves[0]), moves[1..])
  }

  // ---------------------------------------------------------------------
  // Safety over all interleavings
  // ---------------------------------------------------------------------

  /** Works handled one after the other. */
  function OneByOne(works: seq<Work>): seq<Mark> {
    if works == [] then []
    else OneByOne(works[..|works| - 1]) + [Began(works[|works| - 1]), Ended(works[|works| - 1])]
  }

  /**
   * Works start in the order they were accepted, each once; at most one is being
   * handled, exactly then the channel is running; and an idle queue is empty.
   */
  predicate Serial(l: Line) {
    && l.accepted == l.started + l.waiting
    && (l.flight == Idle ==> l.waiting == [])
    && (l.running <==> l.flight.Handling?)
    && (l.flight != Idle ==> l.started != [] && l.started[|l.started| - 1] == l.flight.work)
    && l.log == if l.flight.Handling? then OneByOne(l.started[..|l.started| - 1]) + [Began(l.flight.work)]
                else OneByOne(l.started)
  }

  /** A work begins: the one that was first in line. */
  lemma {:induction false} BeginSerial(l: Line, w: Work)
    requires l.flight == Idle && !l.running && l.log == OneByOne(l.started)
    requires l.accepted == l.started + ([w] + l.waiting)
    ensures Serial(Begin(l, w))
  {
    var l' := Begin(l, w);
    assert l.started + ([w] + l.waiting) == l.started + [w] + l.waiting;
    assert l'.started[..|l'.started| - 1] == l.started;
    if !w.starts {
      assert l.log + [Began(w), Ended(w)] == OneByOne(l'.started);
    }
  }

  lemma {:induction false} ProcessNextSerial(l: Line)
    requires l.flight == Idle && !l.running && l.log == OneByOne(l.started) && l.accepted == l.started + l.waiting
    ensures Serial(ProcessNext(l))
  {
    if l.waiting != [] {
      assert l.waiting == [l.waiting[0]] + l.waiting[1..];
      BeginSerial(l.(waiting := l.waiting[1..]), l.waiting[0]);
    }
  }

  lemma {:induction false} EnqueueSerial(l: Line, w: Work)
    requires Serial(l)
    ensures Serial(Enqueue(l, w))
  {
    assert l.started + l.waiting + [w] == l.started + (l.waiting + [w]);
    if l.flight == Idle {
      ProcessNextSerial(l.(waiting := l.waiting + [w], accepted := l.accepted + [w]));
    }
  }

  lemma {:induction false} StepSerial(l: Line, m: Move)
    requires Serial(l)
    ensures Serial(Step(l, m))
  {
    match m
    case Event(w) => EnqueueSerial(l, w);
    case UserMessage(w) => EnqueueSerial(l, w);
    case Stop =>
    case HandlerEnds =>
      if l.flight.Handling? {
        var n := |l.started| - 1;
        assert OneByOne(l.started[..n]) + [Began(l.flight.work)] + [Ended(l.flight.work)] == OneByOne(l.started);
      }
    case QueueResumes =>
      if l.flight.Returned? {
        ProcessNextSerial(l.(flight := Idle));
      }
  }

  lemma {:induction false} RunSerial(l: Line, moves: seq<Move>)
    requires Serial(l)
    ensures Serial(Run(l, moves))
    decreases |moves|
  {
    if moves != [] {
      StepSerial(l, moves[0]);
      RunSerial(Step(l, moves[0]), moves[1..]);
    }
  }

  /** Over all interleavings of messages, events, stops and completions, a channel works serially. */
  lemma {:induction false} AlwaysSerial(moves: seq<Move>)
    ensures Serial(Run(Quiet, moves))
  {
    RunSerial(Quiet, moves);
  }

  /** An event is accepted if and only if fewer than five wait, and then at most five wait. */
  lemma {:induction false} EventAccepted(moves: seq<Move>, w: Work)
    ensures var l, l' := Run(Quiet, moves), Step(Run(Quiet, moves), Event(w));
            && (|l.waiting| < 5 <==> l'.accepted == l.accepted + [w])
            && (|l.waiting| >= 5 <==> l'.accepted == l.accepted)
            && (l'.accepted == l.accepted + [w] ==> |l'.waiting| <= 5)
  {
    AlwaysSerial(moves);
  }

  /** A message is accepted if and only if no handler runs. */
  lemma {:induction false} MessageAccepted(moves: seq<Move>, w: Work)
    ensures var l, l' := Run(Quiet, moves), Step(Run(Quiet, moves), UserMessage(w));
            && (!l.flight.Handling? <==> l'.accepted == l.accepted + [w])
            && (l.flight.Handling? <==> l'.accepted == l.accepted)
  {
    AlwaysSerial(moves);
  }

  /** With move `i` a work is taken up whose handler sets the running flag. */
  predicate BeginsAt(moves: seq<Move>, i: nat)
    requires i < |moves|
  {
    var before, after := Run(Quiet, moves[..i]).started, Run(Quiet, moves[..i + 1]).started;
    |before| < |after| && after[|after| - 1].starts
  }

  /** Move `j` asks the running handler to stop, and none begins after it. */
  predicate StopsAt(moves: seq<Move>, j: nat) {
    && j < |moves| && moves[j].Stop? && Run(Quiet, moves[..j]).flight.Handling?
    && forall i | j < i < |moves| :: !BeginsAt(moves, i)
  }

  /** A stop is requested exactly as long as nothing has begun after a stop of a running handler. */
  lemma {:induction false} StopIff(moves: seq<Move>)
    ensures Run(Quiet, moves).stopRequested <==> exists j | 0 <= j < |moves| :: StopsAt(moves, j)
    decreases |moves|
  {
    if moves != [] {
      var n := |moves| - 1;
      var init := moves[..n];
      StopIff(init);
      RunSnoc(Quiet, init, moves[n]);
      assert moves == init + [moves[n]];
      AlwaysSerial(init);
      StopStep(Run(Quiet, init), moves[n]);
      assert BeginsAt(moves, n) <==> |Run(Quiet, init).started| < |Run(Quiet, moves).started|
                                     && Run(Quiet, moves).started[|Run(Quiet, moves).started| - 1].starts by {
        assert moves[..n + 1] == moves;
      }
      StopsSnoc(moves);
    }
  }

  lemma {:induction false} StopStep(l: Line, m: Move)
    requires Serial(l)
    ensures var l' := Step(l, m);
            && (l'.started == l.started || |l'.started| == |l.started| + 1)
            && (l'.stopRequested <==>
                  && (l.stopRequested || (m.Stop? && l.flight.Handling?))
                  && !(|l.started| < |l'.started| && l'.started[|l'.started| - 1].starts))
  {
    match m
    case Event(w) => StopNext(l.(waiting := l.waiting + [w], accepted := l.accepted + [w]));
    case UserMessage(w) => StopNext(l.(waiting := l.waiting + [w], accepted := l.accepted + [w]));
    case Stop =>
    case HandlerEnds =>
    case QueueResumes => StopNext(l.(flight := Idle));
  }

  lemma {:induction false} StopNext(l: Line)
    ensures var l' := ProcessNext(l);
            && (l'.started == l.started || |l'.started| == |l.started| + 1)
            && (l'.stopRequested <==>
                  l.stopRequested && !(|l.started| < |l'.started| && l'.started[|l'.started| - 1].starts))
  {
    if l.flight == Idle && l.waiting != [] {
      assert |l.started + [l.waiting[0]]| == |l.started| + 1;
    }
  }

  lemma {:induction false} StopsSnoc(moves: seq<Move>)
    requires moves != []
    ensures var n := |moves| - 1;
            (exists j | 0 <= j < |moves| :: StopsAt(moves, j)) <==>
            || (moves[n].Stop? && Run(Quiet, moves[..n]).flight.Handling?)
            || ((exists j | 0 <= j < n :: StopsAt(moves[..n], j)) && !BeginsAt(moves, n))
  {
    var n := |moves| - 1;
    forall i | 0 <= i < n
      ensures BeginsAt(moves[..n], i) <==> BeginsAt(moves, i)
    {
      assert moves[..n][..i] == moves[..i] && moves[..n][..i + 1] == moves[..i + 1];
    }
    forall j | 0 <= j < n
      ensures StopsAt(moves, j) <==> StopsAt(moves[..n], j) && !BeginsAt(moves, n)
    {
      assert moves[..n][..j] == moves[..j];
    }
    assert StopsAt(moves, n) <==> moves[n].Stop? && Run(Quiet, moves[..n]).flight.Handling?;
  }

  lemma {:induction false} RunSnoc(l: Line, moves: seq<Move>, m: Move)
    ensures Run(l, moves + [m]) == Step(Run(l, moves), m)
    decreases |moves|
  {
    if moves == [] {
      assert [m][1..] == [] && [] + [m] == [m];
    } else {
      assert (moves + [m])[0] == moves[0] && (moves + [m])[1..] == moves[1..] + [m];
      RunSnoc(Step(l, moves[0]), moves[1..], m);
    }
  }

  // ---------------------------------------------------------------------
  // Nothing is forgotten
  // ---------------------------------------------------------------------

  /** One work is done: its handler ends and the queue resumes. */
  function Round(l: Line): Line {
    Step(Step(l, HandlerEnds), QueueResumes)
  }

  function Drain(l: Line, rounds: nat): Line
    decreases rounds
  {
    if rounds == 0 then l else Drain(Round(l), rounds - 1)
  }

  lemma {:induction false} RoundAdvances(l: Line)
    requires Serial(l)
    ensures Serial(Round(l)) && Round(l).accepted == l.accepted
    ensures l.waiting != [] ==> Round(l).waiting == l.waiting[1..]
    ensures l.waiting == [] ==> Round(l).flight == Idle
  {
    StepSerial(l, HandlerEnds);
    StepSerial(Step(l, HandlerEnds), QueueResumes);
  }

  lemma {:induction false} AtRest(l: Line)
    requires Serial(l) && l.flight == Idle
    ensures l.waiting == [] && l.started == l.accepted && l.log == OneByOne(l.accepted)
  {
    assert l.started + [] == l.started;
  }

  /** If every handler ends, everything accepted is handled, in order, and the queue comes to rest. */
  lemma {:induction false} DrainsAll(l: Line)
    requires Serial(l)
    ensures var r := Drain(l, |l.waiting| + 1);
            r.flight == Idle && r.waiting == [] && r.started == l.accepted && r.log == OneByOne(l.accepted)
    decreases |l.waiting|
  {
    RoundAdvances(l);
    if l.waiting != [] {
      DrainsAll(Round(l));
    } else {
      assert Drain(Round(l), 0) == Round(l);
      AtRest(Round(l));
    }
  }
}
