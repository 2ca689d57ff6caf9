/** The reader loop of packages/agent/src/proxy.ts: chunks to lines to events to a message. */
module ProxyDecoder {
  import opened Wrappers
  import opened Strings
  import opened ProxyLines
  import opened ProxyMessage

  datatype Kind = TextKind | ThinkingKind | ToolKind

  /** What is pushed to the consumer's stream. The message that goes along is shared, not copied. */
  datatype Pushed =
    | StartPushed
    | BlockStarted(kind: Kind, index: nat)
    | BlockGrew(kind: Kind, index: nat, delta: string)
    | BlockEnded(index: nat, block: Block)
    | DonePushed(reason: StopReason)
    | ErrorPushed(reason: StopReason)

  /** The event pushed for a proxy event that led to the message `m`, if any. */
  function PushedFor(m: Partial, e: ProxyEvent): Option<Pushed> {
    match e
    case Start => Some(StartPushed)
    case TextStart(i) => Some(BlockStarted(TextKind, i))
    case ThinkingStart(i) => Some(BlockStarted(ThinkingKind, i))
    case ToolStart(i, _, _) => Some(BlockStarted(ToolKind, i))
    case TextDelta(i, d) => Some(BlockGrew(TextKind, i, d))
    case ThinkingDelta(i, d) => Some(BlockGrew(ThinkingKind, i, d))
    case ToolDelta(i, d) => Some(BlockGrew(ToolKind, i, d))
    case TextEnd(i, _) => Ended(m, i)
    case ThinkingEnd(i, _) => Ended(m, i)
    case ToolEnd(i) =>
      var b := At(m.content, i);
      if b.Some? && b.value.ToolBlock? then Ended(m, i) else None
    case Done(reason, _) => Some(DonePushed(reason))
    case Failure(reason, _, _) => Some(ErrorPushed(reason))
    case Unknown(_) => None
  }

  function Ended(m: Partial, i: nat): Option<Pushed> {
    match At(m.content, i)
    case Some(b) => Some(BlockEnded(i, b))
    case None => None
  }

  /** A delta or end for a block of another kind, or for none. */
  predicate OutOfKind(content: Blocks, e: ProxyEvent) {
    match e
    case TextDelta(i, _) => !(At(content, i).Some? && At(content, i).value.TextBlock?)
    case TextEnd(i, _) => !(At(content, i).Some? && At(content, i).value.TextBlock?)
    case ThinkingDelta(i, _) => !(At(content, i).Some? && At(content, i).value.ThinkingBlock?)
    case ThinkingEnd(i, _) => !(At(content, i).Some? && At(content, i).value.ThinkingBlock?)
    case ToolDelta(i, _) => !(At(content, i).Some? && At(content, i).value.ToolBlock?)
    case _ => false
  }

  // ---------------------------------------------------------------------
  // Lines
  // ---------------------------------------------------------------------

  /** The payload of a data line. */
  function DataOf(line: string): Option<string> {
    if |line| >= 6 && line[..6] == "data: " && Trim(line[6..]) != "" then Some(Trim(line[6..])) else None
  }

  datatype Decoded = Decoded(message: Partial, pushed: seq<Pushed>, failure: Option<string>)

  function DecodeEvent(codec: Codec, d: Decoded, e: ProxyEvent): Decoded {
    match Step(codec, d.message, e)
    case Err(x) => d.(failure := Some(x))
    case Ok(m) =>
      d.(message := m, pushed := d.pushed + match PushedFor(m, e) case Some(p) => [p] case None => [])
  }

  /** The first failure ends the decoding. */
  function DecodeLine(codec: Codec, d: Decoded, line: string): Decoded {
    if d.failure.Some? then d
    else match DataOf(line)
      case None => d
      case Some(data) =>
        match codec.parse(data)
        case Err(x) => d.(failure := Some(x))
        case Ok(e) => DecodeEvent(codec, d, e)
  }

  function DecodeLines(codec: Codec, d: Decoded, lines: seq<string>): Decoded
    decreases |lines|
  {
    if lines == [] then d else DecodeLines(codec, DecodeLine(codec, d, lines[0]), lines[1..])
  }

  lemma {:induction false} DecodeAppend(codec: Codec, d: Decoded, a: seq<string>, b: seq<string>)
    ensures DecodeLines(codec, d, a + b) == DecodeLines(codec, DecodeLines(codec, d, a), b)
    decreases |a|
  {
    if a == [] {
      assert a + b == b;
    } else {
      assert (a + b)[0] == a[0] && (a + b)[1..] == a[1..] + b;
      DecodeAppend(codec, DecodeLine(codec, d, a[0]), a[1..], b);
    }
  }

  lemma {:induction false} FailureStays(codec: Codec, d: Decoded, lines: seq<string>)
    requires d.failure.Some?
    ensures DecodeLines(codec, d, lines) == d
    decreases |lines|
  {
    if lines != [] {
      FailureStays(codec, d, lines[1..]);
    }
  }

  const Initial := Decoded(Empty, [], None)

  /** A failure is recorded in the message and pushed. */
  function Settled(d: Decoded): Decoded {
    match d.failure
    case None => d
    case Some(x) =>
      d.(message := d.message.(stopReason := StopReason.Error, errorMessage := Some(x)),
         pushed := d.pushed + [ErrorPushed(StopReason.Error)])
  }

  /** What a whole stream amounts to. Only its complete lines matter. */
  function Outcome(codec: Codec, text: string): Decoded {
    Settled(DecodeLines(codec, Initial, Lines(text)))
  }

  // ---------------------------------------------------------------------
  // The decoder
  // ---------------------------------------------------------------------

  class Decoder {
    const codec: Codec
    var content: Blocks
    var stopReason: StopReason
    var errorMessage: Option<string>
    var usage: Usage
    var buffer: string
    var pushed: seq<Pushed>

    constructor (codec: Codec)
      ensures this.codec == codec && Now(None) == Initial && buffer == ""
    {
      this.codec := codec;
      content, stopReason, errorMessage, usage := [], Stop, None, NoUsage;
      buffer, pushed := "", [];
    }

    function Message(): Partial
      reads this
    {
      Partial(content, stopReason, errorMessage, usage)
    }

    function Now(failure: Option<string>): Decoded
      reads this
    {
      Decoded(Message(), pushed, failure)
    }

    /** An event is rejected exactly when it is out of kind, and then nothing changes. */
    method ProcessEvent(e: ProxyEvent) returns (r: Result<Option<Pushed>, string>)
      modifies this`content, this`stopReason, this`errorMessage, this`usage
      ensures r.Err? <==> OutOfKind(old(content), e)
      ensures match Step(codec, old(Message()), e)
              case Ok(m) => Message() == m && r == Ok(PushedFor(m, e))
              case Err(x) => Message() == old(Message()) && r == Err(x)
    {
      match e
      case Start =>
        r := Ok(Some(StartPushed));
      case TextStart(i) =>
        content := SetAt(content, i, TextBlock("", None));
        r := Ok(Some(BlockStarted(TextKind, i)));
      case ThinkingStart(i) =>
        content := SetAt(content, i, ThinkingBlock("", None));
        r := Ok(Some(BlockStarted(ThinkingKind, i)));
      case ToolStart(i, id, name) =>
        content := SetAt(content, i, ToolBlock(id, name, EmptyObject, Some("")));
        r := Ok(Some(BlockStarted(ToolKind, i)));
      case TextDelta(_, _) => r := ProcessText(e);
      case TextEnd(_, _) => r := ProcessText(e);
      case ThinkingDelta(_, _) => r := ProcessThinking(e);
      case ThinkingEnd(_, _) => r := ProcessThinking(e);
      case ToolDelta(_, _) => r := ProcessTool(e);
      case ToolEnd(_) => r := ProcessTool(e);
      case Done(reason, u) =>
        stopReason, usage := reason, u;
        r := Ok(Some(DonePushed(reason)));
      case Failure(reason, message, u) =>
        stopReason, errorMessage, usage := reason, message, u;
        r := Ok(Some(ErrorPushed(reason)));
      case Unknown(_) =>
        r := Ok(None);
    }

    method ProcessText(e: ProxyEvent) returns (r: Result<Option<Pushed>, string>)
      requires e.TextDelta? || e.TextEnd?
      modifies this`content
      ensures match Step(codec, old(Message()), e)
              case Ok(m) => Message() == m && r == Ok(PushedFor(m, e))
              case Err(x) => Message() == old(Message()) && r == Err(x)
    {
      var b := At(content, e.index);
      if b.Some? && b.value.TextBlock? {
        if e.TextDelta? {
          content := content[e.index := Some(TextBlock(b.value.text + e.delta, b.value.textSignature))];
          r := Ok(Some(BlockGrew(TextKind, e.index, e.delta)));
        } else {
          content := content[e.index := Some(TextBlock(b.value.text, e.signature))];
          r := Ok(Some(BlockEnded(e.index, content[e.index].value)));
        }
      } else {
        r := Err(if e.TextDelta? then "Received text_delta for non-text content"
                 else "Received text_end for non-text content");
      }
    }

    method ProcessThinking(e: ProxyEvent) returns (r: Result<Option<Pushed>, string>)
      requires e.ThinkingDelta? || e.ThinkingEnd?
      modifies this`content
      ensures match Step(codec, old(Message()), e)
              case Ok(m) => Message() == m && r == Ok(PushedFor(m, e))
              case Err(x) => Message() == old(Message()) && r == Err(x)
    {
      var b := At(content, e.index);
      if b.Some? && b.value.ThinkingBlock? {
        if e.ThinkingDelta? {
          content := content[e.index := Some(ThinkingBlock(b.value.thinking + e.delta, b.value.thinkingSignature))];
          r := Ok(Some(BlockGrew(ThinkingKind, e.index, e.delta)));
        } else {
          content := content[e.index := Some(ThinkingBlock(b.value.thinking, e.signature))];
          r := Ok(Some(BlockEnded(e.index, content[e.index].value)));
        }
      } else {
        r := Err(if e.ThinkingDelta? then "Received thinking_delta for non-thinking content"
                 else "Received thinking_end for non-thinking content");
      }
    }

    method ProcessTool(e: ProxyEvent) returns (r: Result<Option<Pushed>, string>)
      requires e.ToolDelta? || e.ToolEnd?
      modifies this`content
      ensures match Step(codec, old(Message()), e)
              case Ok(m) => Message() == m && r == Ok(PushedFor(m, e))
              case Err(x) => Message() == old(Message()) && r == Err(x)
    {
      var b := At(content, e.index);
      if b.Some? && b.value.ToolBlock? {
        if e.ToolDelta? {
          var text := (if b.value.partialJson.Some? then b.value.partialJson.value else Undefined) + e.delta;
          content := content[e.index :=
                             Some(ToolBlock(b.value.id, b.value.name, ArgumentsOf(codec, text), Some(text)))];
          r := Ok(Some(BlockGrew(ToolKind, e.index, e.delta)));
        } else {
          content := content[e.index := Some(ToolBlock(b.value.id, b.value.name, b.value.arguments, None))];
          r := Ok(Some(BlockEnded(e.index, content[e.index].value)));
        }
      } else if e.ToolDelta? {
        r := Err("Received toolcall_delta for non-toolCall content");
      } else {
        r := Ok(None);
      }
    }

    method PushEvent(e: ProxyEvent) returns (failure: Option<string>)
      modifies this`content, this`stopReason, this`errorMessage, this`usage, this`pushed
      ensures Now(failure) == DecodeEvent(codec, old(Now(None)), e)
    {
      failure := None;
      var r := ProcessEvent(e);
      if r.Err? {
        failure := Some(r.error);
      } else if r.value.Some? {
        pushed := pushed + [r.value.value];
      }
    }

    method ProcessLine(line: string) returns (failure: Option<string>)
      modifies this`content, this`stopReason, this`errorMessage, this`usage, this`pushed
      ensures Now(failure) == DecodeLine(codec, old(Now(None)), line)
    {
      failure := None;
      var data := DataOf(line);
      if data.Some? {
        var e := codec.parse(data.value);
        if e.Err? {
          failure := Some(e.error);
        } else {
          failure := PushEvent(e.value);
        }
      }
    }

    method ProcessLines(lines: seq<string>) returns (failure: Option<string>)
      modifies this`content, this`stopReason, this`errorMessage, this`usage, this`pushed
      ensures Now(failure) == DecodeLines(codec, old(Now(None)), lines)
    {
      failure := None;
      var k := 0;
      assert lines[0..] == lines;
      while k < |lines| && failure.None?
        invariant 0 <= k <= |lines|
        invariant DecodeLines(codec, Now(failure), lines[k..]) == DecodeLines(codec, old(Now(None)), lines)
        decreases |lines| - k
      {
        assert lines[k..][0] == lines[k] && lines[k..][1..] == lines[k + 1..];
        failure := ProcessLine(lines[k]);
        k := k + 1;
      }
      if failure.Some? {
        FailureStays(codec, Now(failure), lines[k..]);
      }
    }

    /** One round of the reader loop. */
    method Feed(chunk: string) returns (failure: Option<string>)
      modifies this
      ensures Now(failure) == DecodeLines(codec, old(Now(None)), Lines(old(buffer) + chunk))
      ensures buffer == Tail(old(buffer) + chunk)
    {
      var pieces := Split(buffer + chunk, '\n');
      buffer := pieces[|pieces| - 1];
      failure := ProcessLines(pieces[..|pieces| - 1]);
    }

    /** However the text is cut into chunks, the result is that of the whole text. */
    method ReadAll(chunks: seq<string>) returns (failure: Option<string>)
      requires Now(None) == Initial && buffer == ""
      modifies this
      ensures Now(failure) == Outcome(codec, Concat(chunks))
      ensures failure.None? ==> buffer == Tail(Concat(chunks))
    {
      failure := None;
      var k := 0;
      while k < |chunks| && failure.None?
        invariant 0 <= k <= |chunks|
        invariant Now(failure) == DecodeLines(codec, Initial, Lines(Concat(chunks[..k])))
        invariant buffer == Tail(Concat(chunks[..k]))
        decreases |chunks| - k
      {
        ghost var text := Concat(chunks[..k]);
        failure := Feed(chunks[k]);
        ConcatSnoc(chunks, k);
        LinesAppend(text, chunks[k]);
        DecodeAppend(codec, Initial, Lines(text), Lines(Tail(text) + chunks[k]));
        k := k + 1;
      }
      FailedEarly(codec, chunks, k);
      assert k == |chunks| ==> chunks[..k] == chunks;
      if failure.Some? {
        stopReason, errorMessage := StopReason.Error, failure;
        pushed := pushed + [ErrorPushed(StopReason.Error)];
      }
    }
  }

  /** Once decoding has failed, the chunks not yet read do not matter. */
  lemma {:induction false} FailedEarly(codec: Codec, chunks: seq<string>, k: nat)
    requires k <= |chunks|
    requires k < |chunks| ==> DecodeLines(codec, Initial, Lines(Concat(chunks[..k]))).failure.Some?
    ensures DecodeLines(codec, Initial, Lines(Concat(chunks))) ==
            DecodeLines(codec, Initial, Lines(Concat(chunks[..k])))
    decreases |chunks| - k
  {
    if k < |chunks| {
      var text := Concat(chunks[..k]);
      ConcatSnoc(chunks, k);
      LinesAppend(text, chunks[k]);
      DecodeAppend(codec, Initial, Lines(text), Lines(Tail(text) + chunks[k]));
      FailureStays(codec, DecodeLines(codec, Initial, Lines(text)), Lines(Tail(text) + chunks[k]));
      FailedEarly(codec, chunks, k + 1);
    } else {
      assert chunks[..k] == chunks;
    }
  }

  // ---------------------------------------------------------------------
  // End to end
  // ---------------------------------------------------------------------

  /** The data lines hold these events; the other lines carry nothing. */
  predicate Carries(codec: Codec, lines: seq<string>, events: seq<ProxyEvent>)
    decreases |lines|
  {
    if lines == [] then events == []
    else match DataOf(lines[0])
      case None => Carries(codec, lines[1..], events)
      case Some(data) =>
        events != [] && codec.parse(data) == Ok(events[0]) && Carries(codec, lines[1..], events[1..])
  }

  /** Decoding lines is folding the events they carry. */
  lemma {:induction false} DecodeIsFold(codec: Codec, d: Decoded, lines: seq<string>, events: seq<ProxyEvent>)
    requires d.failure.None? && Carries(codec, lines, events) && Fold(codec, d.message, events).Ok?
    ensures DecodeLines(codec, d, lines).failure.None?
    ensures Ok(DecodeLines(codec, d, lines).message) == Fold(codec, d.message, events)
    decreases |lines|
  {
    if lines != [] {
      var d' := DecodeLine(codec, d, lines[0]);
      if DataOf(lines[0]).None? {
        DecodeIsFold(codec, d, lines[1..], events);
      } else {
        DecodeIsFold(codec, d', lines[1..], events[1..]);
      }
    }
  }

  /**
   * The message a server streams is rebuilt, however its blocks are cut into deltas and
   * interleaved, whatever lines without data come between, and however the text arrives.
   */
  lemma {:induction false} StreamRebuilt(
      codec: Codec, lines: seq<string>, events: seq<ProxyEvent>, sources: seq<Source>, last: ProxyEvent)
    requires Shuffles(events, sources) && (last.Done? || last.Failure?) && Carries(codec, lines, events + [last])
    requires forall k | 0 <= k < |lines| :: '\n' !in lines[k]
    ensures Outcome(codec, Terminated(lines)).failure.None?
    ensures Outcome(codec, Terminated(lines)).message == Closed(Originals(codec, sources), last)
  {
    TerminatedLines(lines);
    MessageRebuilt(codec, events, sources, last);
    DecodeIsFold(codec, Initial, lines, events + [last]);
  }
}
