/**
 * Exactly when printing an AST, tokenizing the text and parsing the tokens gives the
 * AST back.
 */
module TemplateExact {
  import opened Sequences
  import opened Wrappers
  import opened Strings
  import opened TemplateTokens
  import opened TemplateParser
  import opened TemplatePrinter
  import opened TemplateLeaves
  import opened TemplateHeads
  import opened TemplateWritten

  // ---------------------------------------------------------------------
  // The first token of a tokenized text
  // ---------------------------------------------------------------------

  lemma {:induction false} FirstToken(ts: seq<Token>)
    requires ts != [] && LexicallyWellFormed(ts)
    ensures LexicallyWellFormed(ts[1..])
    ensures ts[0].kind == Text ==> (Plain(ts[0]) || Tail(ts[0])) && ts[0].value == ts[0].raw
    ensures ts[0].kind != Text ==> Closed(ts[0])
  {
  }

  /** A text that begins with a tag: the content found ends at the first closing. */
  lemma {:induction false} ContentFound(c: string, more: string, found: string, rest: string)
    requires c + (CLOSE + more) == found + (CLOSE + rest) && !HasTwo(found + "}", '}', '}')
    ensures |found| <= |c| && found == c[..|found|]
    ensures |found| < |c| ==> CutAtBraces(c, |found|)
    ensures |found| == |c| ==> found == c && rest == more
  {
    var s := c + (CLOSE + more);
    var m := |found|;
    assert s[|c|] == '}' && s[|c| + 1] == '}' && s[m] == '}' && s[m + 1] == '}';
    assert forall k | 0 <= k < |c| :: s[k] == c[k];
    assert forall k | 0 <= k < m :: s[k] == found[k];
    assert forall k | 0 <= k <= m :: s[k] == (found + "}")[k];
    assert !TwoAt(found + "}", '}', '}', |c|);
    assert s[m + 2..] == rest && s[|c| + 2..] == more;
    assert s[..m] == found;
  }

  lemma {:induction false} Unglue(a: string, b: string, c: string, d: string)
    requires (OPEN + a + CLOSE) + b == (OPEN + c + CLOSE) + d
    ensures a + (CLOSE + b) == c + (CLOSE + d)
  {
    assert (OPEN + a + CLOSE) + b == OPEN + (a + (CLOSE + b));
    assert (OPEN + c + CLOSE) + d == OPEN + (c + (CLOSE + d));
    Behind(OPEN, a + (CLOSE + b));
    Behind(OPEN, c + (CLOSE + d));
  }

  lemma {:induction false} Behind<T>(p: seq<T>, s: seq<T>)
    ensures (p + s)[|p|..] == s
  {
  }

  lemma {:induction false} ClosedTag(t: Token) returns (found: string)
    requires Closed(t)
    ensures t == TagToken(found) && t.raw == OPEN + found + CLOSE && !HasTwo(found + "}", '}', '}')
  {
    found := t.raw[2..|t.raw| - 2];
  }

  /** The tag at the front of a text that begins with the tag of a content. */
  lemma {:induction false} FirstTag(ts: seq<Token>, c: string, more: string) returns (m: nat)
    requires ts != [] && ts[0].kind != Text && LexicallyWellFormed(ts)
    requires Raw(ts) == TagToken(c).raw + more
    ensures m <= |c| && ts[0] == TagToken(c[..m])
    ensures m < |c| ==> CutAtBraces(c, m)
    ensures m == |c| ==> ts[0] == TagToken(c) && Raw(ts[1..]) == more
  {
    FirstToken(ts);
    var found := ClosedTag(ts[0]);
    m := |found|;
    Unglue(c, more, found, Raw(ts[1..]));
    ContentFound(c, more, found, Raw(ts[1..]));
  }

  lemma {:induction false} WholeTag(ts: seq<Token>, c: string, more: string)
    requires ts != [] && ts[0].kind != Text && LexicallyWellFormed(ts)
    requires Raw(ts) == TagToken(c).raw + more && '}' !in c
    ensures ts[0] == TagToken(c) && Raw(ts[1..]) == more && LexicallyWellFormed(ts[1..])
  {
    var m := FirstTag(ts, c, more);
    FirstToken(ts);
  }

  // ---------------------------------------------------------------------
  // A tokenized text that parses to an AST and begins with its printed text
  // begins with the tokens the AST should have
  // ---------------------------------------------------------------------

  /** The tokens begin with `w`; what is left is tokenized too and has the given text. */
  predicate Rejoins(ts: seq<Token>, w: seq<Token>, left: seq<Token>, rest: string) {
    ts == w + left && LexicallyWellFormed(left) && Raw(left) == rest
  }

  lemma {:induction false} RejoinsTwice(
      ts: seq<Token>, a: seq<Token>, us: seq<Token>, b: seq<Token>, left: seq<Token>, mid: string, rest: string)
    requires Rejoins(ts, a, us, mid) && Rejoins(us, b, left, rest)
    ensures Rejoins(ts, a + b, left, rest)
  {
    Associate(a, b, left);
  }

  lemma {:induction false} RejoinsOne(ts: seq<Token>, rest: string)
    requires ts != [] && LexicallyWellFormed(ts[1..]) && Raw(ts[1..]) == rest
    ensures Rejoins(ts, [ts[0]], ts[1..], rest)
  {
  }

  lemma {:induction false} NotEmpty(ts: seq<Token>, t: Token, more: string)
    requires Raw(ts) == t.raw + more && t.raw != ""
    ensures ts != []
  {
  }

  /** The head of a parsed node is the tag it was parsed from. */
  lemma {:induction false} ParsedHead(t: Token, us: seq<Token>)
    requires t.kind !in Ends && t.kind != Text
    ensures !ParseNode(t, us).0.TextNode? && HeadOf(ParseNode(t, us).0, t)
  {
    if t.kind == If {
      IfParses(t, us);
    } else if t.kind == Each {
      EachParses(t, us);
    }
  }

  /** The token of a text is the token the text should have. */
  lemma {:induction false} TextIsWritten(t: Token, v: string, stopAt: set<TokenType>)
    requires TextOf(t, v) && t.kind !in stopAt
    requires if t.kind == Text then (Plain(t) || Tail(t)) && t.value == t.raw else Closed(t)
    ensures t == WriteText(v, stopAt) && t.raw == v
  {
    if t.kind == Text {
      NotStray(t, stopAt);
    }
  }

  lemma {:induction false} TagPairs(c: string, v: string)
    requires v == OPEN + c + CLOSE
    ensures TwoAt(v, '{', '{', 0) && TwoAt(v[2..], '}', '}', |c|)
  {
  }

  lemma {:induction false} NotStray(t: Token, stopAt: set<TokenType>)
    requires Plain(t) || Tail(t)
    ensures !IsStray(t.raw, stopAt)
  {
    if IsStray(t.raw, stopAt) {
      TagPairs(t.raw[2..|t.raw| - 2], t.raw);
    }
  }

  /** What the parser makes of the tokens. */
  function NodesOf(ts: seq<Token>, stopAt: set<TokenType>): seq<Node> {
    ParseNodes(ts, stopAt).0
  }

  function LeftOf(ts: seq<Token>, stopAt: set<TokenType>): seq<Token> {
    ParseNodes(ts, stopAt).1
  }

  lemma {:induction false} SyncNodes(ts: seq<Token>, stopAt: set<TokenType>, rest: string)
    requires LexicallyWellFormed(ts) && stopAt <= Ends
    requires Raw(ts) == Raw(WriteNodes(NodesOf(ts, stopAt), stopAt)) + rest
    ensures CarriedNodes(NodesOf(ts, stopAt))
    ensures Rejoins(ts, WriteNodes(NodesOf(ts, stopAt), stopAt), LeftOf(ts, stopAt), rest)
    decreases |ts|, 4
  {
    if ts == [] || ts[0].kind in stopAt {
      assert ts == [] + ts;
    } else {
      var n, us := ParseNode(ts[0], ts[1..]).0, ParseNode(ts[0], ts[1..]).1;
      var ns := NodesOf(us, stopAt);
      NodesCons(ts, stopAt);
      RawAppend(WriteNode(n, stopAt), WriteNodes(ns, stopAt));
      Associate(Raw(WriteNode(n, stopAt)), Raw(WriteNodes(ns, stopAt)), rest);
      SyncNode(ts, stopAt, Raw(WriteNodes(ns, stopAt)) + rest);
      SyncNodes(us, stopAt, rest);
      RejoinsTwice(ts, WriteNode(n, stopAt), us, WriteNodes(ns, stopAt), LeftOf(us, stopAt),
                   Raw(WriteNodes(ns, stopAt)) + rest, rest);
    }
  }

  lemma {:induction false} NodesCons(ts: seq<Token>, stopAt: set<TokenType>)
    requires ts != [] && ts[0].kind !in stopAt
    ensures var (n, us) := ParseNode(ts[0], ts[1..]);
            && NodesOf(ts, stopAt) == [n] + NodesOf(us, stopAt) && LeftOf(ts, stopAt) == LeftOf(us, stopAt)
            && WriteNodes(NodesOf(ts, stopAt), stopAt) == WriteNode(n, stopAt) + WriteNodes(NodesOf(us, stopAt), stopAt)
            && (CarriedNodes(NodesOf(ts, stopAt)) <==> CarriedNode(n) && CarriedNodes(NodesOf(us, stopAt)))
  {
    var (n, us) := ParseNode(ts[0], ts[1..]);
    assert ([n] + NodesOf(us, stopAt))[1..] == NodesOf(us, stopAt);
  }

  lemma {:induction false} SyncNode(ts: seq<Token>, stopAt: set<TokenType>, rest: string)
    requires ts != [] && ts[0].kind !in stopAt && LexicallyWellFormed(ts) && stopAt <= Ends
    requires Raw(ts) == Raw(WriteNode(ParseNode(ts[0], ts[1..]).0, stopAt)) + rest
    ensures CarriedNode(ParseNode(ts[0], ts[1..]).0)
    ensures Rejoins(ts, WriteNode(ParseNode(ts[0], ts[1..]).0, stopAt), ParseNode(ts[0], ts[1..]).1, rest)
    decreases |ts|, 3
  {
    var t, us := ts[0], ts[1..];
    var n := ParseNode(t, us).0;
    FirstToken(ts);
    RawCons(WriteFirst(n, stopAt), WriteInside(n));
    Associate(WriteFirst(n, stopAt).raw, Raw(WriteInside(n)), rest);
    if t.kind == Text || t.kind in Ends {
      SyncText(ts, stopAt, rest);
    } else {
      SyncTag(ts, stopAt, rest);
    }
  }

  lemma {:induction false} SyncTag(ts: seq<Token>, stopAt: set<TokenType>, rest: string)
    requires ts != [] && ts[0].kind !in Ends && ts[0].kind != Text && LexicallyWellFormed(ts)
    requires var n := ParseNode(ts[0], ts[1..]).0; Raw(ts) == WriteFirst(n, stopAt).raw + (Raw(WriteInside(n)) + rest)
    ensures CarriedNode(ParseNode(ts[0], ts[1..]).0)
    ensures Rejoins(ts, WriteNode(ParseNode(ts[0], ts[1..]).0, stopAt), ParseNode(ts[0], ts[1..]).1, rest)
    decreases |ts|, 2
  {
    var t, us := ts[0], ts[1..];
    var n := ParseNode(t, us).0;
    FirstToken(ts);
    ParsedHead(t, us);
    SyncHead(ts, Raw(WriteInside(n)) + rest);
    SyncInside(t, us, rest);
    RejoinsOne(ts, Raw(WriteInside(n)) + rest);
    RejoinsTwice(ts, [t], us, WriteInside(n), ParseNode(t, us).1, Raw(WriteInside(n)) + rest, rest);
  }

  lemma {:induction false} SyncText(ts: seq<Token>, stopAt: set<TokenType>, rest: string)
    requires ts != [] && ts[0].kind in Ends + {Text} && ts[0].kind !in stopAt && LexicallyWellFormed(ts)
    requires var n := ParseNode(ts[0], ts[1..]).0; Raw(ts) == WriteFirst(n, stopAt).raw + (Raw(WriteInside(n)) + rest)
    ensures CarriedNode(ParseNode(ts[0], ts[1..]).0)
    ensures Rejoins(ts, WriteNode(ParseNode(ts[0], ts[1..]).0, stopAt), ParseNode(ts[0], ts[1..]).1, rest)
  {
    var v := if ts[0].kind == Text then ts[0].value else ts[0].raw;
    FirstToken(ts);
    TextParses(v, ts[0], ts[1..]);
    TextNodeWritten(v, stopAt);
    RejoinsText(v, ts, stopAt, rest);
  }

  lemma {:induction false} SameFront(a: string, b: string, c: string)
    requires a + b == a + ("" + c)
    ensures b == c
  {
    Behind(a, b);
    Behind(a, "" + c);
  }

  lemma {:induction false} RejoinsText(v: string, ts: seq<Token>, stopAt: set<TokenType>, rest: string)
    requires ts != [] && LexicallyWellFormed(ts) && TextOf(ts[0], v) && ts[0].kind !in stopAt
    requires Raw(ts) == v + ("" + rest)
    ensures Rejoins(ts, [WriteText(v, stopAt)], ts[1..], rest)
  {
    FirstToken(ts);
    TextIsWritten(ts[0], v, stopAt);
    SameFront(v, Raw(ts[1..]), rest);
    RejoinsOne(ts, rest);
  }

  lemma {:induction false} TextNodeWritten(v: string, stopAt: set<TokenType>)
    ensures CarriedNode(TextNode(v)) && WriteInside(TextNode(v)) == []
    ensures WriteFirst(TextNode(v), stopAt) == WriteText(v, stopAt)
    ensures WriteNode(TextNode(v), stopAt) == [WriteText(v, stopAt)]
  {
  }

  lemma {:induction false} SyncHead(ts: seq<Token>, more: string)
    requires ts != [] && ts[0].kind !in Ends && ts[0].kind != Text && LexicallyWellFormed(ts)
    requires Raw(ts) == TagToken(HeadContent(ParseNode(ts[0], ts[1..]).0)).raw + more
    ensures var n := ParseNode(ts[0], ts[1..]).0; HeadCarried(n) && ts[0] == TagToken(HeadContent(n))
    ensures Raw(ts[1..]) == more
  {
    var n := ParseNode(ts[0], ts[1..]).0;
    ParsedHead(ts[0], ts[1..]);
    HeadFits(n, ts, more);
  }

  lemma {:induction false} HeadFits(n: Node, ts: seq<Token>, more: string)
    requires ts != [] && ts[0].kind != Text && LexicallyWellFormed(ts)
    requires !n.TextNode? && HeadOf(n, ts[0]) && Raw(ts) == TagToken(HeadContent(n)).raw + more
    ensures HeadCarried(n) && ts[0] == TagToken(HeadContent(n)) && Raw(ts[1..]) == more
  {
    var m := FirstTag(ts, HeadContent(n), more);
    if m < |HeadContent(n)| {
      CutHeadDiffers(n, m);
    } else {
      HeadIff(n);
    }
  }

  lemma {:induction false} SyncInside(t: Token, us: seq<Token>, rest: string)
    requires t.kind !in Ends && t.kind != Text && LexicallyWellFormed(us) && HeadCarried(ParseNode(t, us).0)
    requires Raw(us) == Raw(WriteInside(ParseNode(t, us).0)) + rest
    ensures CarriedNode(ParseNode(t, us).0)
    ensures Rejoins(us, WriteInside(ParseNode(t, us).0), ParseNode(t, us).1, rest)
    decreases |us|, 8
  {
    if t.kind == If {
      SyncIf(t, us, rest);
    } else if t.kind == Unless {
      SyncUnless(t, us, rest);
    } else if t.kind == Each {
      SyncEach(t, us, rest);
    } else {
      assert us == [] + us;
    }
  }

  lemma {:induction false} RawEnd(w: seq<Token>, e: Token, rest: string)
    ensures Raw(w + [e]) + rest == Raw(w) + (e.raw + rest)
  {
    RawAppend(w, [e]);
    RawCons(e, []);
    assert [e] + [] == [e];
    Associate(Raw(w), e.raw, rest);
  }

  lemma {:induction false} TagNotEmpty(e: string)
    ensures TagToken(e).raw != ""
  {
  }

  lemma {:induction false} EndsNoText(end: TokenType)
    requires end in Ends
    ensures end != Text
  {
  }

  /** The end of a block is the tag it should be. */
  lemma {:induction false} SyncEnd(ts: seq<Token>, end: TokenType, e: string, rest: string)
    requires LexicallyWellFormed(ts) && (ts == [] || ts[0].kind == end) && end in Ends && '}' !in e
    requires Raw(ts) == TagToken(e).raw + rest
    ensures Rejoins(ts, [TagToken(e)], Skip(end, ts), rest)
  {
    EndsNoText(end);
    TagNotEmpty(e);
    NotEmpty(ts, TagToken(e), rest);
    WholeTag(ts, e, rest);
    RejoinsOne(ts, rest);
  }

  lemma {:induction false} SyncBlock(us: seq<Token>, end: TokenType, e: string, inside: seq<Token>, rest: string)
    requires LexicallyWellFormed(us) && end in Ends
    requires EndsWith(inside, WriteNodes(NodesOf(us, {end}), {end}), e) && Raw(us) == Raw(inside) + rest
    ensures CarriedNodes(NodesOf(us, {end}))
    ensures Rejoins(us, inside, Skip(end, LeftOf(us, {end})), rest)
    decreases |us|, 6
  {
    var w, left := WriteNodes(NodesOf(us, {end}), {end}), LeftOf(us, {end});
    RawEnd(w, TagToken(e), rest);
    SyncNodes(us, {end}, TagToken(e).raw + rest);
    LeftStops(us, end);
    SyncEnd(left, end, e, rest);
    RejoinsEnd(us, w, left, [TagToken(e)], Skip(end, left), TagToken(e).raw + rest, inside, rest);
  }

  lemma {:induction false} LeftStops(us: seq<Token>, end: TokenType)
    ensures LeftOf(us, {end}) == [] || LeftOf(us, {end})[0].kind == end
  {
  }

  lemma {:induction false} RejoinsEnd(
      us: seq<Token>, w: seq<Token>, left: seq<Token>, end: seq<Token>, after: seq<Token>, mid: string,
      inside: seq<Token>, rest: string)
    requires Rejoins(us, w, left, mid) && Rejoins(left, end, after, rest) && inside == w + end
    ensures Rejoins(us, inside, after, rest)
  {
    Associate(w, end, after);
  }

  lemma {:induction false} SyncUnless(t: Token, us: seq<Token>, rest: string)
    requires t.kind == Unless && LexicallyWellFormed(us) && HeadCarried(ParseNode(t, us).0)
    requires Raw(us) == Raw(WriteInside(ParseNode(t, us).0)) + rest
    ensures CarriedNode(ParseNode(t, us).0)
    ensures Rejoins(us, WriteInside(ParseNode(t, us).0), ParseNode(t, us).1, rest)
    decreases |us|, 7
  {
    UnlessParses(t, us);
    var n := ParseNode(t, us).0;
    var e := UnlessInside(n);
    SyncBlock(us, EndUnless, e, WriteInside(n), rest);
  }

  lemma {:induction false} SyncEach(t: Token, us: seq<Token>, rest: string)
    requires t.kind == Each && LexicallyWellFormed(us) && HeadCarried(ParseNode(t, us).0)
    requires Raw(us) == Raw(WriteInside(ParseNode(t, us).0)) + rest
    ensures CarriedNode(ParseNode(t, us).0)
    ensures Rejoins(us, WriteInside(ParseNode(t, us).0), ParseNode(t, us).1, rest)
    decreases |us|, 7
  {
    EachParses(t, us);
    var n := ParseNode(t, us).0;
    var e := EachInside(n);
    SyncBlock(us, EndEach, e, WriteInside(n), rest);
  }

  lemma {:induction false} RawInside(w: seq<Token>, b: seq<Token>, e: Token, rest: string)
    ensures Raw(w + (b + [e])) + rest == Raw(w) + (Raw(b) + (e.raw + rest))
  {
    RawAppend(w, b + [e]);
    RawAppend(b, [e]);
    RawCons(e, []);
    assert [e] + [] == [e];
    Inwards(Raw(w), Raw(b), e.raw, rest);
    Associate(Raw(b), e.raw, rest);
  }

  lemma {:induction false} BodyRaw(bs: seq<Branch>, e: string, rest: string)
    requires bs != []
    ensures Raw(WriteBody(bs, TagToken(e))) + rest
            == Raw(WriteNodes(bs[0].body, IfStops)) + (Raw(WriteBranches(bs[1..])) + (TagToken(e).raw + rest))
  {
    RawInside(WriteNodes(bs[0].body, IfStops), WriteBranches(bs[1..]), TagToken(e), rest);
  }

  lemma {:induction false} SyncBody(c: Option<Condition>, us: seq<Token>, e: string, rest: string)
    requires LexicallyWellFormed(us) && ClosesIf(e) && '}' !in e
    requires Raw(us) == Raw(WriteBody(BodyBranches(c, us), TagToken(e))) + rest
    ensures CarriedNodes(BodyBranches(c, us)[0].body) && CarriedBranches(BodyBranches(c, us)[1..])
    ensures Rejoins(us, WriteBody(BodyBranches(c, us), TagToken(e)), AfterBody(us), rest)
    decreases |us|, 6
  {
    var bs, left := BodyBranches(c, us), LeftOf(us, IfStops);
    var w, b := WriteNodes(bs[0].body, IfStops), WriteBranches(bs[1..]);
    BodyRaw(bs, e, rest);
    assert bs[1..] == ParseBranches(left).0;
    SyncNodes(us, IfStops, Raw(b) + (TagToken(e).raw + rest));
    SyncBranches(left, e, rest);
    RejoinsTwice(us, w, left, b + [TagToken(e)], AfterBody(us), Raw(b) + (TagToken(e).raw + rest), rest);
  }

  lemma {:induction false} SyncIf(t: Token, us: seq<Token>, rest: string)
    requires t.kind == If && LexicallyWellFormed(us) && HeadCarried(ParseNode(t, us).0)
    requires Raw(us) == Raw(WriteInside(ParseNode(t, us).0)) + rest
    ensures CarriedNode(ParseNode(t, us).0)
    ensures Rejoins(us, WriteInside(ParseNode(t, us).0), ParseNode(t, us).1, rest)
    decreases |us|, 7
  {
    IfParses(t, us);
    var n := ParseNode(t, us).0;
    var e := IfInside(n);
    SyncBody(Some(ParseCondition(t.value)), us, e, rest);
  }

  lemma {:induction false} StopKinds(ts: seq<Token>)
    requires ts == [] || ts[0].kind in IfStops
    ensures ts != [] && ts[0].kind != EndIf ==> ts[0].kind == (if ts[0].kind == ElseIf then ElseIf else Else)
  {
  }

  lemma {:induction false} SyncBranches(ts: seq<Token>, e: string, rest: string)
    requires LexicallyWellFormed(ts) && (ts == [] || ts[0].kind in IfStops) && ClosesIf(e) && '}' !in e
    requires Raw(ts) == Raw(WriteBranches(ParseBranches(ts).0)) + (TagToken(e).raw + rest)
    ensures CarriedBranches(ParseBranches(ts).0)
    ensures Rejoins(ts, WriteBranches(ParseBranches(ts).0) + [TagToken(e)], ParseBranches(ts).1, rest)
    decreases |ts|, 5
  {
    StopKinds(ts);
    if ts == [] || ts[0].kind == EndIf {
      NoMoreBranches(ts);
      SyncLast(ts, e, rest);
    } else if ts[0].kind == ElseIf {
      SyncElseIf(ts, e, rest);
    } else {
      SyncElse(ts, e, rest);
    }
  }

  lemma {:induction false} NoMoreBranches(ts: seq<Token>)
    requires ts == [] || ts[0].kind == EndIf
    ensures ParseBranches(ts).0 == [] && ParseBranches(ts).1 == Skip(EndIf, ts)
  {
  }

  lemma {:induction false} NoWrittenBranch(e: Token, rest: string)
    ensures WriteBranches([]) + [e] == [e] && Raw(WriteBranches([])) + (e.raw + rest) == e.raw + rest
  {
    assert WriteBranches([]) == [] && Raw([]) == "";
  }

  lemma {:induction false} SyncLast(ts: seq<Token>, e: string, rest: string)
    requires LexicallyWellFormed(ts) && (ts == [] || ts[0].kind == EndIf) && '}' !in e
    requires Raw(ts) == Raw(WriteBranches([])) + (TagToken(e).raw + rest)
    ensures Rejoins(ts, WriteBranches([]) + [TagToken(e)], Skip(EndIf, ts), rest)
  {
    NoWrittenBranch(TagToken(e), rest);
    SyncEnd(ts, EndIf, e, rest);
  }

  lemma {:induction false} RawChain(t: Token, a: seq<Token>, e: Token, rest: string)
    ensures Raw([t] + a) + (e.raw + rest) == t.raw + (Raw(a + [e]) + rest)
  {
    RawCons(t, a);
    RawAppend(a, [e]);
    RawCons(e, []);
    assert [e] + [] == [e];
    Inwards(t.raw, Raw(a), e.raw, rest);
    Associate(Raw(a), e.raw, rest);
    Associate(t.raw, Raw(a), e.raw + rest);
  }

  lemma {:induction false} BranchRaw(bs: seq<Branch>, e: string, rest: string)
    requires bs != []
    ensures var w := WriteNodes(bs[0].body, BranchStops(bs[0].condition));
            Raw(WriteBranches(bs)) + (TagToken(e).raw + rest)
            == TagToken(BranchContent(bs[0].condition)).raw + (Raw(w + WriteBranches(bs[1..]) + [TagToken(e)]) + rest)
  {
    var w := WriteNodes(bs[0].body, BranchStops(bs[0].condition));
    RawChain(TagToken(BranchContent(bs[0].condition)), w + WriteBranches(bs[1..]), TagToken(e), rest);
  }

  /** The tag of an else-if is the tag it should be, and its condition is carried. */
  lemma {:induction false} ElseIfFits(c: Condition, ts: seq<Token>, more: string)
    requires ts != [] && ts[0].kind == ElseIf && LexicallyWellFormed(ts) && ParseCondition(ts[0].value) == c
    requires Raw(ts) == TagToken(BranchContent(Some(c))).raw + more
    ensures ConditionCarried(c) && ts[0] == TagToken(BranchContent(Some(c))) && Raw(ts[1..]) == more
    ensures LexicallyWellFormed(ts[1..])
  {
    var s := BranchContent(Some(c));
    var m := FirstTag(ts, s, more);
    FirstToken(ts);
    if m < |s| {
      CutElseIf(c, m);
    } else {
      ElseIfReads(ConditionText(c));
      CarriedIff(ElseIf, "else if ", c);
    }
  }

  lemma {:induction false} ElseContent(c: string)
    requires c == BranchContent(None)
    ensures '}' !in c
  {
  }

  lemma {:induction false} ElseFits(ts: seq<Token>, more: string)
    requires ts != [] && ts[0].kind == Else && LexicallyWellFormed(ts)
    requires Raw(ts) == TagToken(BranchContent(None)).raw + more
    ensures ts[0] == TagToken(BranchContent(None)) && Raw(ts[1..]) == more && LexicallyWellFormed(ts[1..])
  {
    var c := BranchContent(None);
    ElseContent(c);
    WholeTag(ts, c, more);
  }

  /** The tokens of a branch, of those after it and of the end. */
  lemma {:induction false} RejoinsBranch(
      bs: seq<Branch>, w: seq<Token>, ts: seq<Token>, e: Token, left: seq<Token>, rest: string)
    requires bs != [] && ts != [] && ts[0] == TagToken(BranchContent(bs[0].condition))
    requires w == WriteNodes(bs[0].body, BranchStops(bs[0].condition)) + WriteBranches(bs[1..]) + [e]
    requires Rejoins(ts[1..], w, left, rest)
    ensures Rejoins(ts, WriteBranches(bs) + [e], left, rest)
  {
    var a := WriteNodes(bs[0].body, BranchStops(bs[0].condition)) + WriteBranches(bs[1..]);
    Associate([ts[0]], a, [e]);
    Associate([ts[0]], w, left);
    assert ts == [ts[0]] + ts[1..];
  }

  lemma {:induction false} SyncElseIf(ts: seq<Token>, e: string, rest: string)
    requires ts != [] && ts[0].kind == ElseIf && LexicallyWellFormed(ts) && ClosesIf(e) && '}' !in e
    requires Raw(ts) == Raw(WriteBranches(ParseBranches(ts).0)) + (TagToken(e).raw + rest)
    ensures CarriedBranches(ParseBranches(ts).0)
    ensures Rejoins(ts, WriteBranches(ParseBranches(ts).0) + [TagToken(e)], ParseBranches(ts).1, rest)
    decreases |ts|, 4
  {
    var c, us := ParseCondition(ts[0].value), ts[1..];
    var bs := BodyBranches(Some(c), us);
    ElseIfParses(ts);
    BranchRaw(bs, e, rest);
    Associate(WriteNodes(bs[0].body, IfStops), WriteBranches(bs[1..]), [TagToken(e)]);
    ElseIfFits(c, ts, Raw(WriteBody(bs, TagToken(e))) + rest);
    SyncBody(Some(c), us, e, rest);
    RejoinsBranch(bs, WriteBody(bs, TagToken(e)), ts, TagToken(e), AfterBody(us), rest);
  }

  lemma {:induction false} SyncElse(ts: seq<Token>, e: string, rest: string)
    requires ts != [] && ts[0].kind == Else && LexicallyWellFormed(ts) && ClosesIf(e) && '}' !in e
    requires Raw(ts) == Raw(WriteBranches(ParseBranches(ts).0)) + (TagToken(e).raw + rest)
    ensures CarriedBranches(ParseBranches(ts).0)
    ensures Rejoins(ts, WriteBranches(ParseBranches(ts).0) + [TagToken(e)], ParseBranches(ts).1, rest)
    decreases |ts|, 4
  {
    var us := ts[1..];
    var body := NodesOf(us, {EndIf});
    var bs := [Branch(None, body)];
    var w := WriteNodes(body, {EndIf});
    ElseParses(ts);
    OneBranch(body);
    BranchRaw(bs, e, rest);
    ElseFits(ts, Raw(w + [TagToken(e)]) + rest);
    SyncBlock(us, EndIf, e, w + [TagToken(e)], rest);
    RejoinsBranch(bs, w + [TagToken(e)], ts, TagToken(e), Skip(EndIf, LeftOf(us, {EndIf})), rest);
  }

  lemma {:induction false} OneBranch(body: seq<Node>)
    ensures var bs := [Branch(None, body)];
            && (CarriedBranches(bs) <==> CarriedNodes(body))
            && WriteNodes(body, {EndIf}) + WriteBranches(bs[1..]) == WriteNodes(body, {EndIf})
  {
    assert [Branch(None, body)][1..] == [];
  }

  // ---------------------------------------------------------------------
  // The round trip
  // ---------------------------------------------------------------------

  /** An AST that comes back from its text is carried, and its text tokenizes as it should. */
  lemma {:induction false} RoundTripOnly(ns: seq<Node>)
    requires Parse(Tokens(Print(ns))) == ns
    ensures CarriedNodes(ns) && Tokens(Print(ns)) == WriteNodes(ns, {})
  {
    var ts := Tokens(Print(ns));
    TokensWellFormed(Print(ns));
    TokensLoseNothing(Print(ns));
    WrittenRaw(ns);
    assert Print(ns) == Raw(WriteNodes(ns, {})) + "";
    SyncNodes(ts, {}, "");
    ParseConsumesAll(ts);
    assert WriteNodes(ns, {}) + [] == WriteNodes(ns, {});
  }

  lemma {:induction false} RoundTripBack(ns: seq<Node>)
    requires ShapedNodes(ns) && LexicallyWellFormed(WriteNodes(ns, {})) && CarriedNodes(ns)
    ensures Parse(Tokens(Print(ns))) == ns
  {
    WrittenRaw(ns);
    WellFormedRetokenizes(WriteNodes(ns, {}));
    ParseWritten(ns, [], {});
    assert WriteNodes(ns, {}) + [] == WriteNodes(ns, {});
  }

  /**
   * Printing, tokenizing and parsing gives a shaped AST back if and only if its tags
   * can carry its leaves and the tokens it should become are lexically well formed.
   * A text that is one tag the parser takes for text counts as that tag's token.
   */
  lemma {:induction false} RoundTripIff(ns: seq<Node>)
    requires ShapedNodes(ns)
    ensures Parse(Tokens(Print(ns))) == ns <==> LexicallyWellFormed(WriteNodes(ns, {})) && CarriedNodes(ns)
  {
    if Parse(Tokens(Print(ns))) == ns {
      RoundTripOnly(ns);
      TokensWellFormed(Print(ns));
    }
    if LexicallyWellFormed(WriteNodes(ns, {})) && CarriedNodes(ns) {
      RoundTripBack(ns);
    }
  }

  /** A text that is one stray tag comes back as itself, though not from the token of a text. */
  lemma {:induction false} StrayText(c: string)
    requires TagOf(TagToken(c), c) && TagToken(c).kind in Ends
    ensures var ns := [TextNode(TagToken(c).raw)];
            Parse(Tokens(Print(ns))) == ns && !LexicallyWellFormed(TokensOfNodes(ns))
  {
    var t := TagToken(c);
    var v := t.raw;
    assert v[2..|v| - 2] == c;
    WrittenAlone(v, t);
    TagPairs(c, v);
    TokensAlone(v);
    NotPlain(v, |c|);
    TagOfCloses(t, c);
    assert [t][1..] == [];
    RoundTripIff([TextNode(v)]);
  }

  lemma {:induction false} WrittenAlone(v: string, t: Token)
    requires WriteText(v, {}) == t
    ensures WriteNodes([TextNode(v)], {}) == [t] && CarriedNodes([TextNode(v)]) && ShapedNodes([TextNode(v)])
  {
    TextNodeWritten(v, {});
    AloneIs(TextNode(v));
  }

  lemma {:induction false} AloneIs(n: Node)
    requires n.TextNode?
    ensures WriteNodes([n], {}) == WriteNode(n, {})
    ensures CarriedNodes([n]) <==> CarriedNode(n)
    ensures ShapedNodes([n])
  {
    var ns := [n];
    assert ns[0] == n && ns[1..] == [];
    assert WriteNodes([], {}) == [] && CarriedNodes([]) && ShapedNodes([]);
    assert WriteNode(n, {}) + [] == WriteNode(n, {});
    assert WriteNodes(ns, {}) == WriteNode(ns[0], {}) + WriteNodes(ns[1..], {});
    assert CarriedNodes(ns) == (CarriedNode(ns[0]) && CarriedNodes(ns[1..]));
    assert Shaped(n) && ShapedNodes(ns) == (Shaped(ns[0]) && ShapedNodes(ns[1..]));
  }

  lemma {:induction false} TokensAlone(v: string)
    ensures TokensOfNodes([TextNode(v)]) == [TextToken(v)]
  {
    assert [TextNode(v)][1..] == [];
  }

  lemma {:induction false} NotPlain(v: string, n: nat)
    requires |v| >= 2 && TwoAt(v, '{', '{', 0) && TwoAt(v[2..], '}', '}', n)
    ensures !LexicallyWellFormed([TextToken(v)])
  {
    assert !Plain(TextToken(v)) && !Tail(TextToken(v));
  }

  lemma {:induction false} NoBraces(c: string)
    requires IsElse(c)
    ensures !HasTwo(c + "}", '}', '}')
  {
    var s := c + "}";
    assert |s| == 5 && s[3] == c[3];
    forall k: nat
      ensures !TwoAt(s, '}', '}', k)
    {
      assert k < 4 ==> s[k] == c[k];
    }
  }

  /** The text "{{else}}" on its own. */
  lemma {:induction false} ElseText(c: string)
    requires IsElse(c)
    ensures var ns := [TextNode(TagToken(c).raw)];
            Parse(Tokens(Print(ns))) == ns && !LexicallyWellFormed(TokensOfNodes(ns))
  {
    BeginsElse(c);
    NoBraces(c);
    StrayText(c);
  }

  /** A text that is a tag of its own does not come back: the text of a variable, for instance. */
  lemma {:induction false} VariableText(c: string)
    requires TagOf(TagToken(c), c) && TagToken(c).kind !in Ends
    ensures var ns := [TextNode(TagToken(c).raw)]; ShapedNodes(ns) && Parse(Tokens(Print(ns))) != ns
  {
    var v := TagToken(c).raw;
    assert v[2..|v| - 2] == c;
    WrittenAlone(v, TextToken(v));
    TagPairs(c, v);
    NotPlain(v, |c|);
    RoundTripIff([TextNode(v)]);
  }

  /** The text "{{x}}". */
  lemma {:induction false} LetterText(c: string)
    requires |c| == 1 && c[0] == 'x'
    ensures var ns := [TextNode(TagToken(c).raw)]; ShapedNodes(ns) && Parse(Tokens(Print(ns))) != ns
  {
    assert !IsSpace('x');
    LetterIsVariable(c);
    LetterAlone(c);
    VariableText(c);
  }

  lemma {:induction false} LetterAlone(c: string)
    requires |c| == 1 && c[0] == 'x'
    ensures !HasTwo(c + "}", '}', '}')
  {
  }
}
