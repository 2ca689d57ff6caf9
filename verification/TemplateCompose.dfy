/**
 * Rendering is compositional: after a text that closes its tags and blocks,
 * further text renders as if it stood alone.
 */
module TemplateCompose {
  import opened Sequences
  import opened TemplateTokens
  import opened TemplateParser

  // ---------------------------------------------------------------------
  // Closed blocks: a stack of open blocks, independent of the parser
  // ---------------------------------------------------------------------

  datatype Frame = InIf | InElse | InUnless | InEach

  function ScanKind(stack: seq<Frame>, kind: TokenType): seq<Frame> {
    match kind
    case If => [InIf] + stack
    case Unless => [InUnless] + stack
    case Each => [InEach] + stack
    case Else => if stack != [] && stack[0] == InIf then [InElse] + stack[1..] else stack
    case EndIf => if stack != [] && (stack[0] == InIf || stack[0] == InElse) then stack[1..] else stack
    case EndUnless => if stack != [] && stack[0] == InUnless then stack[1..] else stack
    case EndEach => if stack != [] && stack[0] == InEach then stack[1..] else stack
    case _ => stack
  }

  /** The blocks still open after these tokens, innermost first. */
  function OpenBlocks(stack: seq<Frame>, ts: seq<Token>): seq<Frame>
    decreases |ts|
  {
    if ts == [] then stack else OpenBlocks(ScanKind(stack, ts[0].kind), ts[1..])
  }

  lemma {:induction false} OpenAppend(stack: seq<Frame>, a: seq<Token>, b: seq<Token>)
    ensures OpenBlocks(stack, a + b) == OpenBlocks(OpenBlocks(stack, a), b)
    decreases |a|
  {
    if a == [] {
      assert a + b == b;
    } else {
      assert (a + b)[1..] == a[1..] + b;
      OpenAppend(ScanKind(stack, a[0].kind), a[1..], b);
    }
  }

  function Stops(stack: seq<Frame>): set<TokenType> {
    if stack == [] then {}
    else match stack[0]
      case InIf => IfStops
      case InElse => {EndIf}
      case InUnless => {EndUnless}
      case InEach => {EndEach}
  }

  /** The tokens ran out inside a block that was opened above `stack`. */
  predicate RanOut(stack: seq<Frame>, inside: seq<Frame>, ts: seq<Token>, rest: seq<Token>) {
    rest == [] && |OpenBlocks(inside, ts)| > |stack|
  }

  /** Unless they run out, the parser leaves `rest` with exactly `stack` open. */
  predicate Back(stack: seq<Frame>, inside: seq<Frame>, ts: seq<Token>, rest: seq<Token>) {
    RanOut(stack, inside, ts, rest) || OpenBlocks(inside, ts) == OpenBlocks(stack, rest)
  }

  /** Parsing nodes: unless `ts` runs out inside a block, further tokens only add to what it leaves. */
  predicate NodesAgree(ts: seq<Token>, b: seq<Token>, stack: seq<Frame>) {
    var r := ParseNodes(ts, Stops(stack));
    var whole := ParseNodes(ts + b, Stops(stack));
    var more := ParseNodes(r.1 + b, Stops(stack));
    && Back(stack, stack, ts, r.1)
    && (!RanOut(stack, stack, ts, r.1) ==> whole.0 == r.0 + more.0 && whole.1 == more.1)
  }

  /** The same for one node, whose first token has been consumed. */
  predicate NodeAgrees(t: Token, us: seq<Token>, b: seq<Token>, stack: seq<Frame>) {
    var q := ParseNode(t, us);
    var whole := ParseNode(t, us + b);
    var inside := ScanKind(stack, t.kind);
    && Back(stack, inside, us, q.1)
    && (!RanOut(stack, inside, us, q.1) ==> whole.0 == q.0 && whole.1 == q.1 + b)
  }

  /** The same for the branches of an if block. */
  predicate BranchesAgree(ts: seq<Token>, b: seq<Token>, stack: seq<Frame>) {
    var m := ParseBranches(ts);
    var whole := ParseBranches(ts + b);
    && Back(stack, [InIf] + stack, ts, m.1)
    && (!RanOut(stack, [InIf] + stack, ts, m.1) ==> whole.0 == m.0 && whole.1 == m.1 + b)
  }

  lemma {:induction false} PushPop(f: Frame, stack: seq<Frame>)
    ensures ([f] + stack)[0] == f && ([f] + stack)[1..] == stack
  {
  }

  /** Where the parser stopped at a token, further tokens stay behind it. */
  lemma {:induction false} StopThenMore(ts: seq<Token>, b: seq<Token>, stack: seq<Frame>)
    requires ParseNodes(ts, Stops(stack)).1 != []
    ensures var r := ParseNodes(ts, Stops(stack));
            && OpenBlocks(stack, ts) == OpenBlocks(stack, r.1)
            && ParseNodes(ts + b, Stops(stack)) == (r.0, r.1 + b)
            && (r.1 + b)[0] == r.1[0] && (r.1 + b)[1..] == r.1[1..] + b
    decreases |ts|, 6
  {
    NodesThenMore(ts, b, stack);
    var r := ParseNodes(ts, Stops(stack));
    Uncons(r.1, b);
    assert ParseNodes(r.1 + b, Stops(stack)).0 == [];
    assert r.0 + [] == r.0;
  }

  lemma {:induction false} NodesThenMore(ts: seq<Token>, b: seq<Token>, stack: seq<Frame>)
    ensures NodesAgree(ts, b, stack)
    decreases |ts|, 5
  {
    if ts == [] {
      assert [] + b == b;
    } else if ts[0].kind in Stops(stack) {
      Uncons(ts, b);
    } else {
      NodesStep(ts, b, stack);
    }
  }

  lemma {:induction false} NodesStep(ts: seq<Token>, b: seq<Token>, stack: seq<Frame>)
    requires ts != [] && ts[0].kind !in Stops(stack)
    ensures NodesAgree(ts, b, stack)
    decreases |ts|, 4
  {
    var t, us := ts[0], ts[1..];
    Uncons(ts, b);
    NodeThenMore(t, us, b, stack);
    var q := ParseNode(t, us);
    NodesThenMore(q.1, b, stack);
    ParseCons(ts, q.0, q.1, Stops(stack));
    if !RanOut(stack, ScanKind(stack, t.kind), us, q.1) {
      ParseCons(ts + b, q.0, q.1 + b, Stops(stack));
      var rest, more := ParseNodes(q.1, Stops(stack)), ParseNodes(ParseNodes(q.1, Stops(stack)).1 + b, Stops(stack));
      Associate([q.0], rest.0, more.0);
    }
  }

  lemma {:induction false} NodeThenMore(t: Token, us: seq<Token>, b: seq<Token>, stack: seq<Frame>)
    requires t.kind !in Stops(stack)
    ensures NodeAgrees(t, us, b, stack)
    decreases |us|, 12
  {
    match t.kind
    case If => IfThenMore(t, us, b, stack);
    case Unless => BlockThenMore(us, b, stack, InUnless, EndUnless);
    case Each => BlockThenMore(us, b, stack, InEach, EndEach);
    case _ =>
  }

  lemma {:induction false} BlockThenMore(us: seq<Token>, b: seq<Token>, stack: seq<Frame>, frame: Frame, end: TokenType)
    requires (frame == InUnless && end == EndUnless) || (frame == InEach && end == EndEach)
    ensures var r := ParseNodes(us, {end});
            var whole := ParseNodes(us + b, {end});
            && Back(stack, [frame] + stack, us, Skip(end, r.1))
            && (!RanOut(stack, [frame] + stack, us, Skip(end, r.1)) ==>
                  whole.0 == r.0 && Skip(end, whole.1) == Skip(end, r.1) + b)
    decreases |us|, 11
  {
    PushPop(frame, stack);
    NodesThenMore(us, b, [frame] + stack);
    var r := ParseNodes(us, {end});
    if r.1 != [] {
      Uncons(r.1, b);
    }
  }

  lemma {:induction false} IfThenMore(t: Token, us: seq<Token>, b: seq<Token>, stack: seq<Frame>)
    requires t.kind == If
    ensures NodeAgrees(t, us, b, stack)
    decreases |us|, 11
  {
    var inside := [InIf] + stack;
    PushPop(InIf, stack);
    var r := ParseNodes(us, IfStops);
    if r.1 == [] {
      NodesThenMore(us, b, inside);
    } else {
      StopThenMore(us, b, inside);
      BranchesThenMore(r.1, b, stack);
    }
  }

  lemma {:induction false} BranchesThenMore(ts: seq<Token>, b: seq<Token>, stack: seq<Frame>)
    requires ts != [] && ts[0].kind in IfStops
    ensures BranchesAgree(ts, b, stack)
    decreases |ts|, 10
  {
    PushPop(InIf, stack);
    Uncons(ts, b);
    if ts[0].kind == ElseIf {
      ElseIfThenMore(ts, b, stack);
    } else if ts[0].kind == Else {
      ElseThenMore(ts, b, stack);
    }
  }

  lemma {:induction false} ElseIfThenMore(ts: seq<Token>, b: seq<Token>, stack: seq<Frame>)
    requires ts != [] && ts[0].kind == ElseIf
    ensures BranchesAgree(ts, b, stack)
    decreases |ts|, 9
  {
    Uncons(ts, b);
    var r := ParseNodes(ts[1..], IfStops);
    assert OpenBlocks([InIf] + stack, ts) == OpenBlocks([InIf] + stack, ts[1..]);
    if r.1 == [] {
      NodesThenMore(ts[1..], b, [InIf] + stack);
    } else {
      StopThenMore(ts[1..], b, [InIf] + stack);
      BranchesThenMore(r.1, b, stack);
    }
  }

  lemma {:induction false} ElseThenMore(ts: seq<Token>, b: seq<Token>, stack: seq<Frame>)
    requires ts != [] && ts[0].kind == Else
    ensures BranchesAgree(ts, b, stack)
    decreases |ts|, 9
  {
    PushPop(InIf, stack);
    PushPop(InElse, stack);
    Uncons(ts, b);
    var r := ParseNodes(ts[1..], {EndIf});
    if r.1 == [] {
      NodesThenMore(ts[1..], b, [InElse] + stack);
    } else {
      StopThenMore(ts[1..], b, [InElse] + stack);
    }
  }

  // ---------------------------------------------------------------------
  // The condition is exact: an open block swallows what follows
  // ---------------------------------------------------------------------

  /** A text token behind tokens that were all consumed is consumed too, inside the open block if there is one. */
  predicate Swallows(ts: seq<Token>, x: Token, stack: seq<Frame>) {
    var r := ParseNodes(ts, Stops(stack));
    var whole := ParseNodes(ts + [x], Stops(stack));
    whole.1 == [] && (RanOut(stack, stack, ts, r.1) ==> |whole.0| == |r.0|)
  }

  lemma {:induction false} NodesSwallow(ts: seq<Token>, x: Token, stack: seq<Frame>)
    requires x.kind == Text && ParseNodes(ts, Stops(stack)).1 == []
    ensures Swallows(ts, x, stack)
    decreases |ts|, 5
  {
    if ts == [] {
      assert [] + [x] == [x] && [x][1..] == [];
    } else {
      var t, us := ts[0], ts[1..];
      Uncons(ts, [x]);
      var q := ParseNode(t, us);
      NodeThenMore(t, us, [x], stack);
      if RanOut(stack, ScanKind(stack, t.kind), us, q.1) {
        NodeSwallows(t, us, x, stack);
      } else {
        NodesSwallow(q.1, x, stack);
      }
    }
  }

  lemma {:induction false} NodeSwallows(t: Token, us: seq<Token>, x: Token, stack: seq<Frame>)
    requires x.kind == Text && t.kind !in Stops(stack)
    requires RanOut(stack, ScanKind(stack, t.kind), us, ParseNode(t, us).1)
    ensures ParseNode(t, us + [x]).1 == []
    decreases |us|, 12
  {
    match t.kind
    case If => IfSwallows(t, us, x, stack);
    case Unless => BlockSwallows(us, x, stack, InUnless, EndUnless);
    case Each => BlockSwallows(us, x, stack, InEach, EndEach);
    case _ =>
  }

  lemma {:induction false} BlockSwallows(us: seq<Token>, x: Token, stack: seq<Frame>, frame: Frame, end: TokenType)
    requires (frame == InUnless && end == EndUnless) || (frame == InEach && end == EndEach)
    requires x.kind == Text && RanOut(stack, [frame] + stack, us, Skip(end, ParseNodes(us, {end}).1))
    ensures Skip(end, ParseNodes(us + [x], {end}).1) == []
    decreases |us|, 11
  {
    PushPop(frame, stack);
    if ParseNodes(us, {end}).1 == [] {
      NodesSwallow(us, x, [frame] + stack);
    } else {
      StopThenMore(us, [x], [frame] + stack);
    }
  }

  lemma {:induction false} IfSwallows(t: Token, us: seq<Token>, x: Token, stack: seq<Frame>)
    requires x.kind == Text && t.kind == If && RanOut(stack, [InIf] + stack, us, ParseNode(t, us).1)
    ensures ParseNode(t, us + [x]).1 == []
    decreases |us|, 11
  {
    IfLeaves(t, us);
    IfLeaves(t, us + [x]);
    BodySwallows(us, x, stack);
  }

  lemma {:induction false} IfLeaves(t: Token, us: seq<Token>)
    requires t.kind == If
    ensures ParseNode(t, us).1 == ParseBranches(ParseNodes(us, IfStops).1).1
  {
  }

  /** The body of an if or else-if branch and the branches after it. */
  lemma {:induction false} BodySwallows(us: seq<Token>, x: Token, stack: seq<Frame>)
    requires x.kind == Text && RanOut(stack, [InIf] + stack, us, ParseBranches(ParseNodes(us, IfStops).1).1)
    ensures ParseBranches(ParseNodes(us + [x], IfStops).1).1 == []
    decreases |us|, 10
  {
    PushPop(InIf, stack);
    var rest := ParseNodes(us, IfStops).1;
    if rest == [] {
      NodesSwallow(us, x, [InIf] + stack);
    } else {
      StopThenMore(us, [x], [InIf] + stack);
      BranchesSwallow(rest, x, stack);
    }
  }

  lemma {:induction false} BranchesSwallow(ts: seq<Token>, x: Token, stack: seq<Frame>)
    requires x.kind == Text && ts != [] && ts[0].kind in IfStops
    requires RanOut(stack, [InIf] + stack, ts, ParseBranches(ts).1)
    ensures ParseBranches(ts + [x]).1 == []
    decreases |ts|, 9
  {
    if ts[0].kind == ElseIf {
      ElseIfSwallows(ts, x, stack);
    } else if ts[0].kind == Else {
      ElseSwallows(ts, x, stack);
    } else {
      EndIfDoesNotRunOut(ts, stack);
    }
  }

  lemma {:induction false} EndIfDoesNotRunOut(ts: seq<Token>, stack: seq<Frame>)
    requires ts != [] && ts[0].kind == EndIf
    ensures !RanOut(stack, [InIf] + stack, ts, ParseBranches(ts).1)
  {
    PushPop(InIf, stack);
    assert ts[1..] == [] ==> OpenBlocks([InIf] + stack, ts) == OpenBlocks(stack, []) == stack;
  }

  lemma {:induction false} ElseIfSwallows(ts: seq<Token>, x: Token, stack: seq<Frame>)
    requires x.kind == Text && ts != [] && ts[0].kind == ElseIf
    requires RanOut(stack, [InIf] + stack, ts, ParseBranches(ts).1)
    ensures ParseBranches(ts + [x]).1 == []
    decreases |ts|, 8
  {
    Uncons(ts, [x]);
    ElseIfLeaves(ts);
    ElseIfLeaves(ts + [x]);
    BodySwallows(ts[1..], x, stack);
  }

  lemma {:induction false} ElseSwallows(ts: seq<Token>, x: Token, stack: seq<Frame>)
    requires x.kind == Text && ts != [] && ts[0].kind == Else
    requires RanOut(stack, [InIf] + stack, ts, ParseBranches(ts).1)
    ensures ParseBranches(ts + [x]).1 == []
    decreases |ts|, 8
  {
    Uncons(ts, [x]);
    PushPop(InIf, stack);
    ElseLeaves(ts);
    ElseLeaves(ts + [x]);
    ElseBodySwallows(ts[1..], x, stack);
  }

  lemma {:induction false} ElseIfLeaves(ts: seq<Token>)
    requires ts != [] && ts[0].kind == ElseIf
    ensures ParseBranches(ts).1 == ParseBranches(ParseNodes(ts[1..], IfStops).1).1
  {
  }

  lemma {:induction false} ElseLeaves(ts: seq<Token>)
    requires ts != [] && ts[0].kind == Else
    ensures ParseBranches(ts).1 == Skip(EndIf, ParseNodes(ts[1..], {EndIf}).1)
  {
  }

  lemma {:induction false} ElseBodySwallows(us: seq<Token>, x: Token, stack: seq<Frame>)
    requires x.kind == Text && RanOut(stack, [InElse] + stack, us, Skip(EndIf, ParseNodes(us, {EndIf}).1))
    ensures Skip(EndIf, ParseNodes(us + [x], {EndIf}).1) == []
    decreases |us|, 8
  {
    PushPop(InElse, stack);
    if ParseNodes(us, {EndIf}).1 == [] {
      NodesSwallow(us, x, [InElse] + stack);
    } else {
      StopThenMore(us, [x], [InElse] + stack);
    }
  }

  lemma {:induction false} ParseOneText(value: string)
    ensures Parse([TextToken(value)]) == [TextNode(value)]
  {
    var ts := [TextToken(value)];
    assert ts[1..] == [];
    assert ParseNodes(ts[1..], {}).0 == [];
    assert ParseNode(ts[0], ts[1..]) == (TextNode(value), []);
  }

  /**
   * Tokens parse independently of everything that may follow them if and only if
   * they close all their blocks.
   */
  lemma {:induction false} ParseConcatIff(a: seq<Token>)
    ensures OpenBlocks([], a) == [] <==> forall b :: Parse(a + b) == Parse(a) + Parse(b)
  {
    if OpenBlocks([], a) == [] {
      forall b
        ensures Parse(a + b) == Parse(a) + Parse(b)
      {
        ParseConcat(a, b);
      }
    } else {
      var x := TextToken("x");
      NodesSwallow(a, x, []);
      assert |Parse(a + [x])| == |Parse(a)|;
      ParseOneText("x");
      assert |Parse(a) + Parse([x])| == |Parse(a)| + 1;
    }
  }

  /** Tokens that close their blocks parse independently of what follows them. */
  lemma {:induction false} ParseConcat(a: seq<Token>, b: seq<Token>)
    requires OpenBlocks([], a) == []
    ensures Parse(a + b) == Parse(a) + Parse(b)
  {
    NodesThenMore(a, b, []);
    assert [] + b == b;
  }
}
