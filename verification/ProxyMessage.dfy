/** Rebuilding a message from stripped events, as in packages/agent/src/proxy.ts. */
module ProxyMessage {
  import opened Wrappers

  datatype StopReason = Stop | Length | ToolUse | Error | Aborted

  datatype Usage = Usage(input: nat, output: nat, cacheRead: nat, cacheWrite: nat, totalTokens: nat)

  /** The arguments of a tool call: `{}` or what the streaming JSON parser made of a text. */
  datatype Arguments = EmptyObject | Json(value: string)

  datatype Block =
    | TextBlock(text: string, textSignature: Option<string>)
    | ThinkingBlock(thinking: string, thinkingSignature: Option<string>)
    | ToolBlock(id: string, name: string, arguments: Arguments, partialJson: Option<string>)

  datatype ProxyEvent =
    | Start
    | TextStart(index: nat)
    | TextDelta(index: nat, delta: string)
    | TextEnd(index: nat, signature: Option<string>)
    | ThinkingStart(index: nat)
    | ThinkingDelta(index: nat, delta: string)
    | ThinkingEnd(index: nat, signature: Option<string>)
    | ToolStart(index: nat, id: string, toolName: string)
    | ToolDelta(index: nat, delta: string)
    | ToolEnd(index: nat)
    | Done(reason: StopReason, usage: Usage)
    | Failure(reason: StopReason, message: Option<string>, usage: Usage)
    | Unknown(kind: string)

  /** The functions of other packages: `JSON.parse` of a data line, and `parseStreamingJson`. */
  datatype Codec = Codec(parse: string -> Result<ProxyEvent, string>, streaming: string -> Option<Arguments>)

  predicate Indexed(e: ProxyEvent) {
    !(e.Start? || e.Done? || e.Failure? || e.Unknown?)
  }

  predicate Starts(e: ProxyEvent) {
    e.TextStart? || e.ThinkingStart? || e.ToolStart?
  }

  /** What `undefined` is when a text is added to it. */
  const Undefined := "undefined"

  /** `parseStreamingJson(text) || {}` */
  function ArgumentsOf(codec: Codec, text: string): Arguments {
    match codec.streaming(text)
    case Some(a) => a
    case None => EmptyObject
  }

  // ---------------------------------------------------------------------
  // One block
  // ---------------------------------------------------------------------

  /** What an event does to the block it is about; `None` is a block that does not exist. */
  function StepBlock(codec: Codec, b: Option<Block>, e: ProxyEvent): Result<Option<Block>, string>
    requires Indexed(e)
  {
    match e
    case TextStart(_) => Ok(Some(TextBlock("", None)))
    case ThinkingStart(_) => Ok(Some(ThinkingBlock("", None)))
    case ToolStart(_, id, name) => Ok(Some(ToolBlock(id, name, EmptyObject, Some(""))))
    case TextDelta(_, d) =>
      if b.Some? && b.value.TextBlock? then Ok(Some(b.value.(text := b.value.text + d)))
      else Err("Received text_delta for non-text content")
    case TextEnd(_, s) =>
      if b.Some? && b.value.TextBlock? then Ok(Some(b.value.(textSignature := s)))
      else Err("Received text_end for non-text content")
    case ThinkingDelta(_, d) =>
      if b.Some? && b.value.ThinkingBlock? then Ok(Some(b.value.(thinking := b.value.thinking + d)))
      else Err("Received thinking_delta for non-thinking content")
    case ThinkingEnd(_, s) =>
      if b.Some? && b.value.ThinkingBlock? then Ok(Some(b.value.(thinkingSignature := s)))
      else Err("Received thinking_end for non-thinking content")
    case ToolDelta(_, d) =>
      if b.Some? && b.value.ToolBlock? then
        var text := (if b.value.partialJson.Some? then b.value.partialJson.value else Undefined) + d;
        Ok(Some(b.value.(partialJson := Some(text), arguments := ArgumentsOf(codec, text))))
      else Err("Received toolcall_delta for non-toolCall content")
    case ToolEnd(_) =>
      if b.Some? && b.value.ToolBlock? then Ok(Some(b.value.(partialJson := None))) else Ok(b)
  }

  function FoldBlock(codec: Codec, b: Option<Block>, events: seq<ProxyEvent>): Result<Option<Block>, string>
    requires forall k | 0 <= k < |events| :: Indexed(events[k])
    decreases |events|
  {
    if events == [] then Ok(b)
    else
      var b' :- StepBlock(codec, b, events[0]);
      FoldBlock(codec, b', events[1..])
  }

  // ---------------------------------------------------------------------
  // The message
  // ---------------------------------------------------------------------

  /** A JavaScript array: `None` is a hole. */
  type Blocks = seq<Option<Block>>

  datatype Partial = Partial(content: Blocks, stopReason: StopReason, errorMessage: Option<string>, usage: Usage)

  const NoUsage := Usage(0, 0, 0, 0, 0)

  const Empty := Partial([], Stop, None, NoUsage)

  function At(content: Blocks, i: nat): Option<Block> {
    if i < |content| then content[i] else None
  }

  /** Assigning an element: an index past the end leaves holes before it. */
  function SetAt(content: Blocks, i: nat, b: Block): (r: Blocks)
    ensures |r| == if i < |content| then |content| else i + 1
    ensures forall j: nat :: At(r, j) == if j == i then Some(b) else At(content, j)
  {
    if i < |content| then content[i := Some(b)]
    else content + seq(i - |content|, _ => None) + [Some(b)]
  }

  function Step(codec: Codec, m: Partial, e: ProxyEvent): Result<Partial, string> {
    if Indexed(e) then
      var b :- StepBlock(codec, At(m.content, e.index), e);
      Ok(if b.None? then m else m.(content := SetAt(m.content, e.index, b.value)))
    else match e
      case Done(reason, usage) => Ok(m.(stopReason := reason, usage := usage))
      case Failure(reason, message, usage) => Ok(m.(stopReason := reason, errorMessage := message, usage := usage))
      case _ => Ok(m)
  }

  function Fold(codec: Codec, m: Partial, events: seq<ProxyEvent>): Result<Partial, string>
    decreases |events|
  {
    if events == [] then Ok(m)
    else
      var m' :- Step(codec, m, events[0]);
      Fold(codec, m', events[1..])
  }

  lemma {:induction false} FoldAppend(codec: Codec, m: Partial, a: seq<ProxyEvent>, b: seq<ProxyEvent>)
    ensures Fold(codec, m, a + b) ==
            if Fold(codec, m, a).Err? then Fold(codec, m, a) else Fold(codec, Fold(codec, m, a).value, b)
    decreases |a|
  {
    if a == [] {
      assert a + b == b;
    } else {
      assert (a + b)[0] == a[0] && (a + b)[1..] == a[1..] + b;
      if Step(codec, m, a[0]).Ok? {
        FoldAppend(codec, Step(codec, m, a[0]).value, a[1..], b);
      }
    }
  }

  // ---------------------------------------------------------------------
  // Blocks do not interfere
  // ---------------------------------------------------------------------

  /** The events about block `i`, in order. */
  function Project(events: seq<ProxyEvent>, i: nat): (r: seq<ProxyEvent>)
    ensures forall k | 0 <= k < |r| :: Indexed(r[k]) && r[k].index == i
  {
    if events == [] then []
    else (if Indexed(events[0]) && events[0].index == i then [events[0]] else []) + Project(events[1..], i)
  }

  /** What the events about block `i` alone make of it. */
  function Alone(codec: Codec, m: Partial, events: seq<ProxyEvent>, i: nat): Result<Option<Block>, string> {
    FoldBlock(codec, At(m.content, i), Project(events, i))
  }

  /** One event: its own block takes a step, the others none. */
  lemma {:induction false} AloneStep(codec: Codec, m: Partial, events: seq<ProxyEvent>, i: nat)
    requires events != []
    ensures Step(codec, m, events[0]).Ok? ==>
              Alone(codec, m, events, i) == Alone(codec, Step(codec, m, events[0]).value, events[1..], i)
    ensures Step(codec, m, events[0]).Err? ==>
              Indexed(events[0]) && (i == events[0].index ==> Alone(codec, m, events, i).Err?)
  {
    var e, rest := events[0], Project(events[1..], i);
    if Indexed(e) && e.index == i {
      assert ([e] + rest)[1..] == rest;
    } else {
      assert Project(events, i) == rest;
    }
  }

  /**
   * Blocks may be interleaved in any way: the fold succeeds if and only if every
   * block's own events are in order, and then each block is what its own events make it.
   */
  lemma {:induction false} FoldIsLocal(codec: Codec, m: Partial, events: seq<ProxyEvent>)
    ensures Fold(codec, m, events).Ok? <==> forall i: nat :: Alone(codec, m, events, i).Ok?
    ensures Fold(codec, m, events).Ok? ==>
              forall i: nat :: Alone(codec, m, events, i) == Ok(At(Fold(codec, m, events).value.content, i))
    decreases |events|
  {
    if events != [] {
      var s := Step(codec, m, events[0]);
      forall i: nat
        ensures s.Ok? ==> Alone(codec, m, events, i) == Alone(codec, s.value, events[1..], i)
        ensures s.Err? ==> Indexed(events[0]) && (i == events[0].index ==> Alone(codec, m, events, i).Err?)
      {
        AloneStep(codec, m, events, i);
      }
      if s.Ok? {
        FoldIsLocal(codec, s.value, events[1..]);
      } else {
        AloneStep(codec, m, events, 0);
        assert Alone(codec, m, events, events[0].index).Err?;
      }
    }
  }

  predicate Below(events: seq<ProxyEvent>, n: nat) {
    forall k | 0 <= k < |events| :: Indexed(events[k]) ==> events[k].index < n
  }

  lemma {:induction false} FoldLength(codec: Codec, m: Partial, events: seq<ProxyEvent>, n: nat)
    requires Below(events, n) && |m.content| <= n && Fold(codec, m, events).Ok?
    ensures |Fold(codec, m, events).value.content| <= n
    decreases |events|
  {
    if events != [] {
      FoldLength(codec, Step(codec, m, events[0]).value, events[1..], n);
    }
  }

  // ---------------------------------------------------------------------
  // Round trip
  // ---------------------------------------------------------------------

  function Joined(deltas: seq<string>): string {
    if deltas == [] then "" else deltas[0] + Joined(deltas[1..])
  }

  /** A block as the server streams it. */
  datatype Source =
    | SourceText(deltas: seq<string>, signature: Option<string>)
    | SourceThinking(deltas: seq<string>, signature: Option<string>)
    | SourceCall(id: string, name: string, deltas: seq<string>)

  function Deltas(s: Source, i: nat, deltas: seq<string>): (r: seq<ProxyEvent>)
    ensures forall k | 0 <= k < |r| :: Indexed(r[k])
  {
    if deltas == [] then []
    else
      [match s
       case SourceText(_, _) => TextDelta(i, deltas[0])
       case SourceThinking(_, _) => ThinkingDelta(i, deltas[0])
       case SourceCall(_, _, _) => ToolDelta(i, deltas[0])]
      + Deltas(s, i, deltas[1..])
  }

  function Streamed(s: Source, i: nat): (r: seq<ProxyEvent>)
    ensures forall k | 0 <= k < |r| :: Indexed(r[k])
  {
    [StartOf(s, i)] + Deltas(s, i, s.deltas) + [EndOf(s, i)]
  }

  /** The block that was streamed. */
  function Original(codec: Codec, s: Source): Block {
    match s
    case SourceText(deltas, signature) => TextBlock(Joined(deltas), signature)
    case SourceThinking(deltas, signature) => ThinkingBlock(Joined(deltas), signature)
    case SourceCall(id, name, deltas) =>
      ToolBlock(id, name, if deltas == [] then EmptyObject else ArgumentsOf(codec, Joined(deltas)), None)
  }

  lemma {:induction false} FoldBlockAppend(codec: Codec, b: Option<Block>, x: seq<ProxyEvent>, y: seq<ProxyEvent>)
    requires forall k | 0 <= k < |x| :: Indexed(x[k])
    requires forall k | 0 <= k < |y| :: Indexed(y[k])
    ensures FoldBlock(codec, b, x + y) ==
            if FoldBlock(codec, b, x).Err? then FoldBlock(codec, b, x)
            else FoldBlock(codec, FoldBlock(codec, b, x).value, y)
    decreases |x|
  {
    if x == [] {
      assert x + y == y;
    } else {
      assert (x + y)[0] == x[0] && (x + y)[1..] == x[1..] + y;
      if StepBlock(codec, b, x[0]).Ok? {
        FoldBlockAppend(codec, StepBlock(codec, b, x[0]).value, x[1..], y);
      }
    }
  }

  /** A block of the right kind, with some text received. */
  function Received(codec: Codec, s: Source, text: string, some: bool): Block {
    match s
    case SourceText(_, _) => TextBlock(text, None)
    case SourceThinking(_, _) => ThinkingBlock(text, None)
    case SourceCall(id, name, _) =>
      ToolBlock(id, name, if some then ArgumentsOf(codec, text) else EmptyObject, Some(text))
  }

  lemma {:induction false} FoldDeltas(codec: Codec, s: Source, i: nat, deltas: seq<string>, text: string, some: bool)
    ensures FoldBlock(codec, Some(Received(codec, s, text, some)), Deltas(s, i, deltas)) ==
            Ok(Some(Received(codec, s, text + Joined(deltas), some || deltas != [])))
    decreases |deltas|
  {
    if deltas == [] {
      assert text + "" == text;
    } else {
      FoldDeltas(codec, s, i, deltas[1..], text + deltas[0], true);
      assert text + deltas[0] + Joined(deltas[1..]) == text + (deltas[0] + Joined(deltas[1..]));
      var es := Deltas(s, i, deltas);
      assert es[1..] == Deltas(s, i, deltas[1..]);
    }
  }

  function StartOf(s: Source, i: nat): (e: ProxyEvent)
    ensures Indexed(e)
  {
    match s
    case SourceText(_, _) => TextStart(i)
    case SourceThinking(_, _) => ThinkingStart(i)
    case SourceCall(id, name, _) => ToolStart(i, id, name)
  }

  function EndOf(s: Source, i: nat): (e: ProxyEvent)
    ensures Indexed(e)
  {
    match s
    case SourceText(_, signature) => TextEnd(i, signature)
    case SourceThinking(_, signature) => ThinkingEnd(i, signature)
    case SourceCall(_, _, _) => ToolEnd(i)
  }

  lemma {:induction false} Ends(codec: Codec, s: Source, i: nat)
    ensures FoldBlock(codec, Some(Received(codec, s, Joined(s.deltas), s.deltas != [])), [EndOf(s, i)]) ==
            Ok(Some(Original(codec, s)))
  {
    assert [EndOf(s, i)][1..] == [];
  }

  /** However a block is cut into deltas, its events rebuild it. */
  lemma {:induction false} StreamedRebuilds(codec: Codec, s: Source, i: nat, before: Option<Block>)
    ensures FoldBlock(codec, before, Streamed(s, i)) == Ok(Some(Original(codec, s)))
  {
    var rest := Deltas(s, i, s.deltas) + [EndOf(s, i)];
    assert Streamed(s, i)[0] == StartOf(s, i) && Streamed(s, i)[1..] == rest;
    assert StepBlock(codec, before, StartOf(s, i)) == Ok(Some(Received(codec, s, "", false)));
    RestRebuilds(codec, s, i);
  }

  lemma {:induction false} RestRebuilds(codec: Codec, s: Source, i: nat)
    ensures FoldBlock(codec, Some(Received(codec, s, "", false)), Deltas(s, i, s.deltas) + [EndOf(s, i)]) ==
            Ok(Some(Original(codec, s)))
  {
    FoldDeltas(codec, s, i, s.deltas, "", false);
    assert "" + Joined(s.deltas) == Joined(s.deltas);
    FoldBlockAppend(codec, Some(Received(codec, s, "", false)), Deltas(s, i, s.deltas), [EndOf(s, i)]);
    Ends(codec, s, i);
  }

  /** The events of all blocks, shuffled in any way; other events are a start or unknown. */
  predicate Shuffles(events: seq<ProxyEvent>, sources: seq<Source>) {
    && Below(events, |sources|)
    && (forall k | 0 <= k < |events| :: !events[k].Done? && !events[k].Failure?)
    && (forall i | 0 <= i < |sources| :: Project(events, i) == Streamed(sources[i], i))
  }

  function Originals(codec: Codec, sources: seq<Source>): (r: Blocks)
    ensures |r| == |sources| && forall i | 0 <= i < |r| :: r[i] == Some(Original(codec, sources[i]))
  {
    seq(|sources|, i requires 0 <= i < |sources| => Some(Original(codec, sources[i])))
  }

  lemma {:induction false} NothingProjected(events: seq<ProxyEvent>, n: nat, i: nat)
    requires Below(events, n) && i >= n
    ensures Project(events, i) == []
  {
    if events != [] {
      NothingProjected(events[1..], n, i);
    }
  }

  lemma {:induction false} FoldKeepsRest(codec: Codec, m: Partial, events: seq<ProxyEvent>)
    requires forall k | 0 <= k < |events| :: !events[k].Done? && !events[k].Failure?
    requires Fold(codec, m, events).Ok?
    ensures var r := Fold(codec, m, events).value;
            r.stopReason == m.stopReason && r.errorMessage == m.errorMessage && r.usage == m.usage
    decreases |events|
  {
    if events != [] {
      FoldKeepsRest(codec, Step(codec, m, events[0]).value, events[1..]);
    }
  }

  /** The blocks of a message are rebuilt from any shuffle of their events. */
  lemma {:induction false} ShuffleRebuilds(codec: Codec, events: seq<ProxyEvent>, sources: seq<Source>)
    requires Shuffles(events, sources)
    ensures Fold(codec, Empty, events) == Ok(Empty.(content := Originals(codec, sources)))
  {
    forall i: nat
      ensures Alone(codec, Empty, events, i) == Ok(if i < |sources| then Some(Original(codec, sources[i])) else None)
    {
      if i < |sources| {
        StreamedRebuilds(codec, sources[i], i, None);
      } else {
        NothingProjected(events, |sources|, i);
      }
    }
    FoldIsLocal(codec, Empty, events);
    FoldLength(codec, Empty, events, |sources|);
    FoldKeepsRest(codec, Empty, events);
    SameContent(codec, Fold(codec, Empty, events).value.content, sources);
  }

  lemma {:induction false} SameContent(codec: Codec, content: Blocks, sources: seq<Source>)
    requires |content| <= |sources|
    requires forall i | 0 <= i < |sources| :: At(content, i) == Some(Original(codec, sources[i]))
    ensures content == Originals(codec, sources)
  {
    if |sources| > 0 {
      assert At(content, |sources| - 1).Some?;
    }
    forall i | 0 <= i < |content|
      ensures content[i] == Originals(codec, sources)[i]
    {
      assert At(content, i) == content[i];
    }
  }

  /** The message of a stream with these blocks that ends normally or with an error of the server. */
  function Closed(content: Blocks, last: ProxyEvent): Partial
    requires last.Done? || last.Failure?
  {
    Partial(content, last.reason, if last.Failure? then last.message else None, last.usage)
  }

  /** With the closing event, the whole message: content, signatures, stop reason, error message and usage. */
  lemma {:induction false} MessageRebuilt(codec: Codec, events: seq<ProxyEvent>, sources: seq<Source>, last: ProxyEvent)
    requires Shuffles(events, sources) && (last.Done? || last.Failure?)
    ensures Fold(codec, Empty, events + [last]) == Ok(Closed(Originals(codec, sources), last))
  {
    ShuffleRebuilds(codec, events, sources);
    FoldAppend(codec, Empty, events, [last]);
    FoldOne(codec, Empty.(content := Originals(codec, sources)), last);
  }

  lemma {:induction false} FoldOne(codec: Codec, m: Partial, e: ProxyEvent)
    ensures Fold(codec, m, [e]) == Step(codec, m, e)
  {
    assert [e][1..] == [];
  }

  // ---------------------------------------------------------------------
  // A tool call continued after its end
  // ---------------------------------------------------------------------

  /** The deltas since the last start of a tool call, joined. */
  function SinceStart(events: seq<ProxyEvent>): string {
    if events == [] then ""
    else
      var last := events[|events| - 1];
      if last.ToolStart? then ""
      else SinceStart(events[..|events| - 1]) + if last.ToolDelta? then last.delta else ""
  }

  /** What had come by the last end of the tool call, if it has ended since it started. */
  function AtEnd(events: seq<ProxyEvent>): Option<string> {
    if events == [] then None
    else
      var last := events[|events| - 1];
      if last.ToolStart? then None
      else if last.ToolEnd? then Some(SinceStart(events))
      else AtEnd(events[..|events| - 1])
  }

  /** The text a tool call holds after these events: a part is "undefined" once the call has ended. */
  predicate Holds(partialJson: Option<string>, came: string, atEnd: Option<string>) {
    match atEnd
    case None => partialJson == Some(came)
    case Some(early) =>
      early <= came &&
      match partialJson
      case None => came == early
      case Some(text) => text == Undefined + came[|early|..]
  }

  lemma {:induction false} HoldsStep(pj: Option<string>, came: string, atEnd: Option<string>, d: string)
    requires Holds(pj, came, atEnd)
    ensures Holds(Some((if pj.Some? then pj.value else Undefined) + d), came + d, atEnd)
    ensures Holds(None, came, Some(came))
  {
    if atEnd.Some? {
      var early := atEnd.value;
      assert (came + d)[|early|..] == came[|early|..] + d;
      assert pj.None? ==> came[|early|..] == "";
    }
  }

  lemma {:induction false} FoldBlockSnoc(codec: Codec, b: Option<Block>, events: seq<ProxyEvent>)
    requires events != [] && forall k | 0 <= k < |events| :: Indexed(events[k])
    ensures var before := FoldBlock(codec, b, events[..|events| - 1]);
            FoldBlock(codec, b, events) ==
            if before.Err? then before else StepBlock(codec, before.value, events[|events| - 1])
  {
    var n := |events| - 1;
    assert events == events[..n] + [events[n]];
    FoldBlockAppend(codec, b, events[..n], [events[n]]);
    assert [events[n]][1..] == [];
  }

  /** The text of a tool call, from the call's own events. */
  lemma {:induction false} TextHeld(codec: Codec, events: seq<ProxyEvent>)
    requires forall k | 0 <= k < |events| :: Indexed(events[k])
    requires var r := FoldBlock(codec, None, events); r.Ok? && r.value.Some? && r.value.value.ToolBlock?
    ensures Holds(FoldBlock(codec, None, events).value.value.partialJson, SinceStart(events), AtEnd(events))
    decreases |events|
  {
    var n := |events| - 1;
    FoldBlockSnoc(codec, None, events);
    if !events[n].ToolStart? {
      TextHeld(codec, events[..n]);
      HoldsStep(FoldBlock(codec, None, events[..n]).value.value.partialJson, SinceStart(events[..n]),
                AtEnd(events[..n]), if events[n].ToolDelta? then events[n].delta else "");
      assert SinceStart(events[..n]) + "" == SinceStart(events[..n]);
    }
  }

  lemma {:induction false} SamePrefix(early: string, came: string, text: string)
    requires early <= came && text == Undefined + came[|early|..]
    ensures text == came <==> early == Undefined
  {
    var rest := came[|early|..];
    assert came == early + rest;
    if text == came {
      assert |early| == |Undefined|;
      assert text[..|Undefined|] == Undefined && came[..|early|] == early;
    }
  }

  /** The events about a block end with a delta of a tool call. */
  predicate EndsInDelta(events: seq<ProxyEvent>) {
    events != [] && events[|events| - 1].ToolDelta?
  }

  /**
   * After a delta, the text whose parse is a tool call's arguments is what the deltas
   * since its start make up if and only if the call had not ended since then, or what
   * had come by its last end was the text "undefined".
   */
  lemma {:induction false} ToolTextIff(codec: Codec, events: seq<ProxyEvent>)
    requires EndsInDelta(events) && forall k | 0 <= k < |events| :: Indexed(events[k])
    requires FoldBlock(codec, None, events).Ok?
    ensures var b := FoldBlock(codec, None, events).value;
            && b.Some? && b.value.ToolBlock? && b.value.partialJson.Some?
            && b.value.arguments == ArgumentsOf(codec, b.value.partialJson.value)
            && (b.value.partialJson.value == SinceStart(events) <==> AtEnd(events) in {None, Some(Undefined)})
  {
    FoldBlockSnoc(codec, None, events);
    TextHeld(codec, events);
    if AtEnd(events).Some? {
      SamePrefix(AtEnd(events).value, SinceStart(events), FoldBlock(codec, None, events).value.value.partialJson.value);
    }
  }

  /** The same for a call among the other blocks of a message. */
  lemma {:induction false} MessageTextIff(codec: Codec, events: seq<ProxyEvent>, i: nat)
    requires Fold(codec, Empty, events).Ok? && EndsInDelta(Project(events, i))
    ensures var b := At(Fold(codec, Empty, events).value.content, i);
            && b.Some? && b.value.ToolBlock? && b.value.partialJson.Some?
            && b.value.arguments == ArgumentsOf(codec, b.value.partialJson.value)
            && (b.value.partialJson.value == SinceStart(Project(events, i)) <==>
                AtEnd(Project(events, i)) in {None, Some(Undefined)})
  {
    FoldIsLocal(codec, Empty, events);
    assert Alone(codec, Empty, events, i).Ok?;
    ToolTextIff(codec, Project(events, i));
  }

  /** A call that starts, ends and goes on. */
  lemma {:induction false} UndefinedInFront(codec: Codec, i: nat, id: string, name: string, d: string)
    ensures var text := Undefined + d;
            FoldBlock(codec, None, [ToolStart(i, id, name), ToolEnd(i), ToolDelta(i, d)]) ==
            Ok(Some(ToolBlock(id, name, ArgumentsOf(codec, text), Some(text))))
  {
    var es := [ToolStart(i, id, name), ToolEnd(i), ToolDelta(i, d)];
    assert es[1..] == [ToolEnd(i), ToolDelta(i, d)] && es[1..][1..] == [ToolDelta(i, d)];
    var ended := Some(ToolBlock(id, name, EmptyObject, None));
    FoldBlockSnoc(codec, ended, [ToolDelta(i, d)]);
    assert FoldBlock(codec, ended, es[1..][1..]) == StepBlock(codec, ended, ToolDelta(i, d));
  }
}
