/** What the consumer of the stream of packages/agent/src/proxy.ts is told. */
module ProxyConsumer {
  import opened Wrappers
  import opened Strings
  import opened ProxyLines
  import opened ProxyMessage
  import opened ProxyDecoder

  // ---------------------------------------------------------------------
  // The consumer can follow the message
  // ---------------------------------------------------------------------

  /** A block as its start and its deltas show it. */
  datatype Seen = Seen(kind: Kind, text: string)

  /** What the pushed events tell of block `i`. */
  function Replay(pushed: seq<Pushed>, i: nat): Option<Seen> {
    if pushed == [] then None
    else
      var seen := Replay(pushed[..|pushed| - 1], i);
      match pushed[|pushed| - 1]
      case BlockStarted(kind, index) => if index == i then Some(Seen(kind, "")) else seen
      case BlockGrew(kind, index, delta) =>
        if index == i && seen.Some? && seen.value.kind == kind then Some(Seen(kind, seen.value.text + delta)) else seen
      case _ => seen
  }

  /** The held text of a call is what was pushed, or what was pushed behind its end, behind "undefined". */
  predicate HoldsTail(held: string, text: string) {
    held == text || exists n | 0 <= n <= |text| :: held == "undefined" + text[n..]
  }

  /** The events pushed show block `i` as it is. */
  predicate Follows(content: Blocks, pushed: seq<Pushed>, i: nat) {
    match At(content, i)
    case None => Replay(pushed, i) == None
    case Some(TextBlock(text, _)) => Replay(pushed, i) == Some(Seen(TextKind, text))
    case Some(ThinkingBlock(thinking, _)) => Replay(pushed, i) == Some(Seen(ThinkingKind, thinking))
    case Some(ToolBlock(_, _, _, partialJson)) =>
      && Replay(pushed, i).Some? && Replay(pushed, i).value.kind == ToolKind
      && (partialJson.Some? ==> HoldsTail(partialJson.value, Replay(pushed, i).value.text))
  }

  lemma {:induction false} ReplaySnoc(pushed: seq<Pushed>, p: Pushed, i: nat)
    ensures Replay(pushed + [p], i) ==
            match p
            case BlockStarted(kind, index) => if index == i then Some(Seen(kind, "")) else Replay(pushed, i)
            case BlockGrew(kind, index, delta) =>
              if index == i && Replay(pushed, i).Some? && Replay(pushed, i).value.kind == kind then
                Some(Seen(kind, Replay(pushed, i).value.text + delta))
              else Replay(pushed, i)
            case _ => Replay(pushed, i)
  {
    assert (pushed + [p])[..|pushed|] == pushed;
  }

  lemma {:induction false} TailGrows(held: string, text: string, delta: string)
    requires HoldsTail(held, text)
    ensures HoldsTail(held + delta, text + delta)
  {
    if held != text {
      var n :| 0 <= n <= |text| && held == "undefined" + text[n..];
      assert (text + delta)[n..] == text[n..] + delta;
      assert held + delta == "undefined" + (text + delta)[n..];
    }
  }

  lemma {:induction false} TailBegins(text: string, delta: string)
    ensures HoldsTail("undefined" + delta, text + delta)
  {
    assert (text + delta)[|text|..] == delta;
  }

  /** An event about another block, or about none. */
  lemma {:induction false} OtherFollows(codec: Codec, d: Decoded, e: ProxyEvent, i: nat)
    requires Follows(d.message.content, d.pushed, i) && !(Indexed(e) && e.index == i)
    ensures var d' := DecodeEvent(codec, d, e); Follows(d'.message.content, d'.pushed, i)
  {
    var d' := DecodeEvent(codec, d, e);
    if Step(codec, d.message, e).Ok? {
      assert At(d'.message.content, i) == At(d.message.content, i);
      if PushedFor(d'.message, e).Some? {
        ReplaySnoc(d.pushed, PushedFor(d'.message, e).value, i);
      } else {
        assert d.pushed + [] == d.pushed;
      }
    }
  }

  lemma {:induction false} StartFollows(codec: Codec, d: Decoded, e: ProxyEvent, i: nat)
    requires Starts(e) && e.index == i
    ensures var d' := DecodeEvent(codec, d, e); Follows(d'.message.content, d'.pushed, i)
  {
    var d' := DecodeEvent(codec, d, e);
    ReplaySnoc(d.pushed, PushedFor(d'.message, e).value, i);
  }

  lemma {:induction false} TextFollows(codec: Codec, d: Decoded, e: ProxyEvent, i: nat)
    requires Follows(d.message.content, d.pushed, i) && (e.TextDelta? || e.ThinkingDelta?) && e.index == i
    ensures var d' := DecodeEvent(codec, d, e); Follows(d'.message.content, d'.pushed, i)
  {
    var d' := DecodeEvent(codec, d, e);
    if Step(codec, d.message, e).Ok? {
      ReplaySnoc(d.pushed, PushedFor(d'.message, e).value, i);
    }
  }

  lemma {:induction false} EndFollows(codec: Codec, d: Decoded, e: ProxyEvent, i: nat)
    requires Follows(d.message.content, d.pushed, i)
    requires (e.TextEnd? || e.ThinkingEnd? || e.ToolEnd?) && e.index == i
    ensures var d' := DecodeEvent(codec, d, e); Follows(d'.message.content, d'.pushed, i)
  {
    var d' := DecodeEvent(codec, d, e);
    if Step(codec, d.message, e).Ok? {
      if PushedFor(d'.message, e).Some? {
        ReplaySnoc(d.pushed, PushedFor(d'.message, e).value, i);
      } else {
        assert d.pushed + [] == d.pushed;
      }
    }
  }

  lemma {:induction false} EventFollows(codec: Codec, d: Decoded, e: ProxyEvent, i: nat)
    requires Follows(d.message.content, d.pushed, i)
    ensures var d' := DecodeEvent(codec, d, e); Follows(d'.message.content, d'.pushed, i)
  {
    if !(Indexed(e) && e.index == i) {
      OtherFollows(codec, d, e, i);
    } else if Starts(e) {
      StartFollows(codec, d, e, i);
    } else if e.TextDelta? || e.ThinkingDelta? {
      TextFollows(codec, d, e, i);
    } else if e.ToolDelta? {
      DeltaFollows(codec, d, e, i);
    } else {
      EndFollows(codec, d, e, i);
    }
  }

  lemma {:induction false} DeltaFollows(codec: Codec, d: Decoded, e: ProxyEvent, i: nat)
    requires Follows(d.message.content, d.pushed, i) && e.ToolDelta? && e.index == i
    ensures var d' := DecodeEvent(codec, d, e); Follows(d'.message.content, d'.pushed, i)
  {
    if Step(codec, d.message, e).Ok? {
      HeldFollows(codec, d, e, i);
    }
  }

  lemma {:induction false} HeldFollows(codec: Codec, d: Decoded, e: ProxyEvent, i: nat)
    requires Follows(d.message.content, d.pushed, i) && e.ToolDelta? && e.index == i
    requires Step(codec, d.message, e).Ok?
    ensures var d' := DecodeEvent(codec, d, e); Follows(d'.message.content, d'.pushed, i)
  {
    var text, held := Replay(d.pushed, i).value.text, At(d.message.content, i).value.partialJson;
    ReplaySnoc(d.pushed, BlockGrew(ToolKind, i, e.delta), i);
    if held.Some? {
      TailGrows(held.value, text, e.delta);
    } else {
      TailBegins(text, e.delta);
    }
  }

  lemma {:induction false} LinesFollow(codec: Codec, d: Decoded, lines: seq<string>, i: nat)
    requires Follows(d.message.content, d.pushed, i)
    ensures var d' := DecodeLines(codec, d, lines); Follows(d'.message.content, d'.pushed, i)
    decreases |lines|
  {
    if lines != [] {
      var data := DataOf(lines[0]);
      if d.failure.None? && data.Some? && codec.parse(data.value).Ok? {
        EventFollows(codec, d, codec.parse(data.value).value, i);
      }
      LinesFollow(codec, DecodeLine(codec, d, lines[0]), lines[1..], i);
    }
  }

  /**
   * Whatever the stream holds, well formed or not, up to its end or to its first failure: the
   * events pushed for a block show its kind and its text as the message has them.
   */
  lemma {:induction false} ConsumerFollows(codec: Codec, text: string, i: nat)
    ensures Follows(Outcome(codec, text).message.content, Outcome(codec, text).pushed, i)
  {
    LinesFollow(codec, Initial, Lines(text), i);
    var d := DecodeLines(codec, Initial, Lines(text));
    ReplaySnoc(d.pushed, ErrorPushed(StopReason.Error), i);
  }

  // ---------------------------------------------------------------------
  // Ends and failures
  // ---------------------------------------------------------------------

  /** The end of a block is pushed with the block as it is then; that of a call only for a call. */
  lemma {:induction false} EndIsPushed(codec: Codec, d: Decoded, e: ProxyEvent)
    requires Step(codec, d.message, e).Ok?
    ensures var d' := DecodeEvent(codec, d, e);
      match e
      case TextEnd(i, s) =>
        && At(d'.message.content, i).Some? && At(d'.message.content, i).value.TextBlock?
        && At(d'.message.content, i).value.textSignature == s
        && d'.pushed == d.pushed + [BlockEnded(i, At(d'.message.content, i).value)]
      case ThinkingEnd(i, s) =>
        && At(d'.message.content, i).Some? && At(d'.message.content, i).value.ThinkingBlock?
        && At(d'.message.content, i).value.thinkingSignature == s
        && d'.pushed == d.pushed + [BlockEnded(i, At(d'.message.content, i).value)]
      case ToolEnd(i) =>
        var b := At(d'.message.content, i);
        d'.pushed == d.pushed + if b.Some? && b.value.ToolBlock? then [BlockEnded(i, b.value)] else []
      case Start => d'.pushed == d.pushed + [StartPushed] && d'.message == d.message
      case Done(reason, usage) =>
        && d'.pushed == d.pushed + [DonePushed(reason)]
        && d'.message == d.message.(stopReason := reason, usage := usage)
      case Failure(reason, message, usage) =>
        && d'.pushed == d.pushed + [ErrorPushed(reason)]
        && d'.message == d.message.(stopReason := reason, errorMessage := message, usage := usage)
      case Unknown(_) => d' == d
      case _ => |d'.pushed| == |d.pushed| + 1
  {
  }

  /** An event is rejected exactly if it is a delta or an end for a block of another kind, or for none. */
  lemma {:induction false} RejectedIff(codec: Codec, m: Partial, e: ProxyEvent)
    ensures Step(codec, m, e).Err? <==>
      match e
      case TextDelta(i, _) => At(m.content, i).None? || !At(m.content, i).value.TextBlock?
      case TextEnd(i, _) => At(m.content, i).None? || !At(m.content, i).value.TextBlock?
      case ThinkingDelta(i, _) => At(m.content, i).None? || !At(m.content, i).value.ThinkingBlock?
      case ThinkingEnd(i, _) => At(m.content, i).None? || !At(m.content, i).value.ThinkingBlock?
      case ToolDelta(i, _) => At(m.content, i).None? || !At(m.content, i).value.ToolBlock?
      case _ => false
    ensures Step(codec, m, e).Err? <==> OutOfKind(m.content, e)
  {
  }

  /** A delta of a call leaves its arguments as what the streaming parser makes of the held text. */
  lemma {:induction false} ArgumentsAre(codec: Codec, m: Partial, i: nat, delta: string)
    requires At(m.content, i).Some? && At(m.content, i).value.ToolBlock?
    ensures var r := Step(codec, m, ToolDelta(i, delta));
      && r.Ok? && At(r.value.content, i).Some? && At(r.value.content, i).value.ToolBlock?
      && At(r.value.content, i).value.partialJson.Some?
      && var text := At(r.value.content, i).value.partialJson.value;
         At(r.value.content, i).value.arguments ==
         match codec.streaming(text) case Some(a) => a case None => EmptyObject
  {
  }

  /** A delta or an end for a block of another kind stops the decoding with its own message. */
  lemma {:induction false} RejectedWith(codec: Codec, d: Decoded, e: ProxyEvent)
    requires d.failure.None? && OutOfKind(d.message.content, e)
    ensures var d' := DecodeEvent(codec, d, e);
      && d'.message == d.message && d'.pushed == d.pushed
      && match e
         case TextDelta(_, _) => d'.failure == Some("Received text_delta for non-text content")
         case TextEnd(_, _) => d'.failure == Some("Received text_end for non-text content")
         case ThinkingDelta(_, _) => d'.failure == Some("Received thinking_delta for non-thinking content")
         case ThinkingEnd(_, _) => d'.failure == Some("Received thinking_end for non-thinking content")
         case ToolDelta(_, _) => d'.failure == Some("Received toolcall_delta for non-toolCall content")
         case _ => false
  {
  }

  /** A line without data is passed over; data that cannot be parsed stops the decoding. */
  lemma {:induction false} LineDecides(codec: Codec, d: Decoded, line: string)
    requires d.failure.None?
    ensures match DataOf(line)
      case None => DecodeLine(codec, d, line) == d
      case Some(data) =>
        && (codec.parse(data).Err? ==>
              && DecodeLine(codec, d, line).failure == Some(codec.parse(data).error)
              && DecodeLine(codec, d, line).message == d.message && DecodeLine(codec, d, line).pushed == d.pushed)
        && (codec.parse(data).Ok? ==>
              DecodeLine(codec, d, line) == DecodeEvent(codec, d, codec.parse(data).value))
  {
  }

  /** A failure ends the stream as an error that carries its text; a stream without lines leaves an empty message. */
  lemma {:induction false} FailureSettles(codec: Codec, text: string)
    ensures var d := DecodeLines(codec, Initial, Lines(text));
      match d.failure
      case None => Outcome(codec, text) == d
      case Some(x) =>
        && Outcome(codec, text).message ==
           Partial(d.message.content, StopReason.Error, Some(x), d.message.usage)
        && Outcome(codec, text).pushed == d.pushed + [ErrorPushed(StopReason.Error)]
    ensures Lines(text) == [] ==>
              Outcome(codec, text) == Decoded(Partial([], Stop, None, Usage(0, 0, 0, 0, 0)), [], None)
  {
  }

  /** A line counts exactly if it begins with "data: " and something other than space follows. */
  lemma {:induction false} DataIff(line: string, data: string)
    ensures DataOf(line) == Some(data) <==> "data: " <= line && data == Trim(line[6..]) && data != ""
  {
    if |line| >= 6 {
      assert "data: " <= line <==> line[..6] == "data: ";
    }
  }
}
