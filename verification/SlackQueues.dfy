/** The queues of packages/mom/src/slack.ts and the handler of packages/mom/src/main.ts. */
module SlackQueues {
  import opened ChannelLine

  /** A channel's queue, with the flags the handler keeps for that channel. */
  class ChannelQueue {
    var waiting: seq<Work>
    var processing: bool
    var running: bool
    var stopRequested: bool
    ghost var flight: Flight
    ghost var accepted: seq<Work>
    ghost var started: seq<Work>
    ghost var log: seq<Mark>
    /** All moves so far. */
    ghost var moves: seq<Move>

    constructor ()
      ensures Valid() && Now() == Quiet && moves == []
    {
      waiting, processing, running, stopRequested := [], false, false, false;
      flight, accepted, started, log, moves := Idle, [], [], [], [];
    }

    ghost function Now(): Line
      reads this
    {
      Line(waiting, flight, running, stopRequested, accepted, started, log)
    }

    /** The channel is where its moves have brought it, and the queue knows whether a work is in flight. */
    ghost predicate Valid()
      reads this
    {
      (processing <==> flight != Idle) && Now() == Run(Quiet, moves)
    }

    /** `handleEvent` up to its first await. */
    method HandleEvent(w: Work)
      requires processing
      modifies this`flight, this`started, this`log, this`running, this`stopRequested
      ensures Now() == Begin(old(Now()), w)
    {
      started := started + [w];
      if w.starts {
        running := true;
        stopRequested := false;
        flight, log := Handling(w), log + [Began(w)];
      } else {
        flight, log := Returned(w), log + [Began(w), Ended(w)];
      }
    }

    method ProcessNextWork()
      requires processing <==> flight != Idle
      modifies this
      ensures processing <==> flight != Idle
      ensures Now() == ProcessNext(old(Now())) && moves == old(moves)
    {
      if processing || |waiting| == 0 {
        return;
      }
      processing := true;
      var work := waiting[0];
      waiting := waiting[1..];
      HandleEvent(work);
    }

    method EnqueueWork(w: Work)
      requires processing <==> flight != Idle
      modifies this
      ensures processing <==> flight != Idle
      ensures Now() == Enqueue(old(Now()), w) && moves == old(moves)
    {
      waiting := waiting + [w];
      accepted := accepted + [w];
      ProcessNextWork();
    }

    /** `enqueueEvent` on this channel. */
    method OfferEvent(w: Work) returns (taken: bool)
      requires Valid()
      modifies this
      ensures Valid() && moves == old(moves) + [Event(w)]
      ensures taken <==> |old(waiting)| < 5
      ensures taken <==> accepted == old(accepted) + [w]
      ensures taken ==> |waiting| <= 5
    {
      EventAccepted(moves, w);
      RunSnoc(Quiet, moves, Event(w));
      taken := |waiting| < MaxWaiting;
      if taken {
        EnqueueWork(w);
      }
      moves := moves + [Event(w)];
    }

    /** A user's message to the bot. It is turned away while the handler runs. */
    method OfferMessage(w: Work) returns (taken: bool)
      requires Valid()
      modifies this
      ensures Valid() && moves == old(moves) + [UserMessage(w)]
      ensures taken <==> !old(running)
    {
      RunSnoc(Quiet, moves, UserMessage(w));
      taken := !running;
      if taken {
        EnqueueWork(w);
      }
      moves := moves + [UserMessage(w)];
    }

    method RequestStop()
      requires Valid()
      modifies this
      ensures Valid() && moves == old(moves) + [Stop]
    {
      RunSnoc(Quiet, moves, Stop);
      if running {
        stopRequested := true;
      }
      moves := moves + [Stop];
    }

    /** The end of `handleEvent`, by whatever way. */
    method EndHandler()
      requires Valid() && flight.Handling?
      modifies this`flight, this`log, this`moves, this`running
      ensures Valid() && moves == old(moves) + [HandlerEnds]
    {
      RunSnoc(Quiet, moves, HandlerEnds);
      running := false;
      flight, log := Returned(flight.work), log + [Ended(flight.work)];
      moves := moves + [HandlerEnds];
    }

    /** `processNext` after its await. */
    method Resume()
      requires Valid() && flight.Returned?
      modifies this
      ensures Valid() && moves == old(moves) + [QueueResumes]
    {
      RunSnoc(Quiet, moves, QueueResumes);
      flight := Idle;
      processing := false;
      ProcessNextWork();
      moves := moves + [QueueResumes];
    }
  }

  class SlackBot {
    var queues: map<string, ChannelQueue>

    constructor ()
      ensures Valid() && queues == map[]
    {
      queues := map[];
    }

    ghost function Objects(): set<object>
      reads this
    {
      set c | c in queues :: queues[c]
    }

    /** Every channel has a valid queue of its own. */
    ghost predicate Valid()
      reads this, Objects()
    {
      && (forall c | c in queues :: queues[c].Valid())
      && (forall c, d | c in queues && d in queues && c != d :: queues[c] != queues[d])
    }

    ghost function MovesOf(channel: string): seq<Move>
      reads this, Objects()
    {
      if channel in queues then queues[channel].moves else []
    }

    /** The state the moves of a channel have led to. */
    ghost function LineOf(channel: string): Line
      reads this, Objects()
    {
      Run(Quiet, MovesOf(channel))
    }

    method GetQueue(channel: string) returns (q: ChannelQueue)
      requires Valid()
      modifies this
      ensures Valid() && channel in queues && queues[channel] == q
      ensures forall c :: MovesOf(c) == old(MovesOf(c))
      ensures fresh(Objects() - old(Objects()))
    {
      if channel !in queues {
        q := new ChannelQueue();
        queues := queues[channel := q];
      } else {
        q := queues[channel];
      }
    }

    /** An event for a channel moves that channel only. */
    method EnqueueEvent(channel: string, w: Work) returns (taken: bool)
      requires Valid()
      modifies this, Objects()
      ensures Valid() && fresh(Objects() - old(Objects()))
      ensures MovesOf(channel) == old(MovesOf(channel)) + [Event(w)]
      ensures forall c | c != channel :: MovesOf(c) == old(MovesOf(c))
      ensures taken <==> |old(LineOf(channel)).waiting| < 5
    {
      var q := GetQueue(channel);
      taken := q.OfferEvent(w);
    }

    /** A direct message or mention; `stop` is not queued. */
    method OnMessage(channel: string, w: Work, stop: bool) returns (taken: bool)
      requires Valid()
      modifies this, Objects()
      ensures Valid() && fresh(Objects() - old(Objects()))
      ensures MovesOf(channel) == old(MovesOf(channel)) + [if stop then Move.Stop else UserMessage(w)]
      ensures forall c | c != channel :: MovesOf(c) == old(MovesOf(c))
      ensures taken <==> !stop && !old(LineOf(channel)).running
    {
      var q := GetQueue(channel);
      if stop {
        q.RequestStop();
        taken := false;
      } else {
        taken := q.OfferMessage(w);
      }
    }

    /** Whatever has happened, every channel works serially. */
    lemma EveryChannelSerial(channel: string)
      requires Valid() && channel in queues
      ensures Serial(queues[channel].Now())
    {
      AlwaysSerial(MovesOf(channel));
    }
  }
}
