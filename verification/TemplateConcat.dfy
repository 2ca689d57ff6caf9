/** Rendering the concatenation of closed templates. */
module TemplateConcat {
  import opened Sequences
  import opened Wrappers
  import opened Strings
  import opened TemplateTokens
  import opened TemplateParser
  import opened TemplateEval
  import opened TemplateCompose

  // ---------------------------------------------------------------------
  // Splitting texts into characters: tokenizing may fuse texts, rendering
  // cannot tell
  // ---------------------------------------------------------------------

  function Chars(s: string): seq<Token> {
    if s == "" then [] else [TextToken(s[..1])] + Chars(s[1..])
  }

  /** Every text token cut into single characters. */
  function Fine(ts: seq<Token>): seq<Token> {
    if ts == [] then []
    else (if ts[0].kind == Text then Chars(ts[0].value) else [ts[0]]) + Fine(ts[1..])
  }

  lemma {:induction false} CharsAppend(a: string, b: string)
    ensures Chars(a + b) == Chars(a) + Chars(b)
  {
    if a == "" {
      assert a + b == b;
    } else {
      assert (a + b)[..1] == a[..1] && (a + b)[1..] == a[1..] + b;
      CharsAppend(a[1..], b);
    }
  }

  lemma {:induction false} FineLeading(text: string, ts: seq<Token>)
    ensures Fine(Leading(text) + ts) == Chars(text) + Fine(ts)
  {
    if text != "" {
      assert (Leading(text) + ts)[1..] == ts;
    } else {
      assert Leading(text) + ts == ts;
    }
  }

  /** The nodes with every text node cut into single characters. */
  function FineNodes(ns: seq<Node>): seq<Node>
    decreases ns
  {
    if ns == [] then [] else FineNode(ns[0]) + FineNodes(ns[1..])
  }

  function CharNodes(s: string): seq<Node> {
    if s == "" then [] else [TextNode(s[..1])] + CharNodes(s[1..])
  }

  function FineNode(n: Node): seq<Node>
    decreases n
  {
    match n
    case TextNode(value) => CharNodes(value)
    case IfNode(branches) => [IfNode(FineBranches(branches))]
    case UnlessNode(variable, body) => [UnlessNode(variable, FineNodes(body))]
    case EachNode(path, item, body) => [EachNode(path, item, FineNodes(body))]
    case _ => [n]
  }

  function FineBranches(bs: seq<Branch>): seq<Branch>
    decreases bs
  {
    if bs == [] then [] else [Branch(bs[0].condition, FineNodes(bs[0].body))] + FineBranches(bs[1..])
  }

  lemma {:induction false} FineNodesAppend(a: seq<Node>, b: seq<Node>)
    ensures FineNodes(a + b) == FineNodes(a) + FineNodes(b)
    decreases |a|
  {
    if a == [] {
      assert a + b == b;
    } else {
      Uncons(a, b);
      FineNodesAppend(a[1..], b);
    }
  }

  // ---------------------------------------------------------------------
  // Fine nodes evaluate the same
  // ---------------------------------------------------------------------

  lemma {:induction false} EvalChars(s: string, variables: Variables, partials: Partials)
    ensures EvalNodes(CharNodes(s), variables, partials) == Ok(s)
  {
    if s != "" {
      EvalChars(s[1..], variables, partials);
      assert CharNodes(s)[1..] == CharNodes(s[1..]);
      assert s[..1] + s[1..] == s;
    }
  }

  lemma {:induction false} EvalFine(ns: seq<Node>, variables: Variables, partials: Partials)
    ensures EvalNodes(FineNodes(ns), variables, partials) == EvalNodes(ns, variables, partials)
    decreases ns, 0, 0
  {
    if ns != [] {
      EvalFineNode(ns[0], variables, partials);
      EvalFine(ns[1..], variables, partials);
      EvalAppend(FineNode(ns[0]), FineNodes(ns[1..]), variables, partials);
    }
  }

  lemma {:induction false} EvalFineNode(n: Node, variables: Variables, partials: Partials)
    ensures EvalNodes(FineNode(n), variables, partials) == EvalNode(n, variables, partials)
    decreases n, 0, 0
  {
    match n
    case TextNode(value) =>
      EvalChars(value, variables, partials);
    case IfNode(branches) =>
      EvalFineBranches(branches, variables, partials);
      EvalOne(IfNode(FineBranches(branches)), variables, partials);
    case UnlessNode(variable, body) =>
      EvalFine(body, variables, partials);
      EvalOne(UnlessNode(variable, FineNodes(body)), variables, partials);
    case EachNode(path, item, body) =>
      var v := ResolvePath(path, variables);
      if v.Arr? {
        EvalFineEach(v.items, item, body, variables, partials);
      }
      EvalOne(EachNode(path, item, FineNodes(body)), variables, partials);
    case _ =>
      EvalOne(n, variables, partials);
  }

  lemma {:induction false} EvalFineBranches(bs: seq<Branch>, variables: Variables, partials: Partials)
    ensures EvalBranches(FineBranches(bs), variables, partials) == EvalBranches(bs, variables, partials)
    decreases bs, 0, 0
  {
    if bs != [] {
      EvalFine(bs[0].body, variables, partials);
      EvalFineBranches(bs[1..], variables, partials);
      assert FineBranches(bs)[1..] == FineBranches(bs[1..]);
    }
  }

  lemma {:induction false} EvalFineEach(
      items: seq<Value>, item: string, body: seq<Node>, variables: Variables, partials: Partials)
    ensures EvalEach(items, item, FineNodes(body), variables, partials)
            == EvalEach(items, item, body, variables, partials)
    decreases body, 1, |items|
  {
    if items != [] {
      EvalFine(body, variables[item := items[0]], partials);
      EvalFineEach(items[1..], item, body, variables, partials);
    }
  }

  // ---------------------------------------------------------------------
  // Parsing fine tokens gives the same fine nodes
  // ---------------------------------------------------------------------

  lemma {:induction false} ParseChars(s: string, rest: seq<Token>, stopAt: set<TokenType>)
    requires Text !in stopAt
    ensures var r := ParseNodes(Chars(s) + rest, stopAt);
            r.0 == CharNodes(s) + ParseNodes(rest, stopAt).0 && r.1 == ParseNodes(rest, stopAt).1
  {
    if s == "" {
      assert Chars(s) + rest == rest;
    } else {
      assert Chars(s) == [TextToken(s[..1])] + Chars(s[1..]);
      Uncons(Chars(s), rest);
      ParseChars(s[1..], rest, stopAt);
    }
  }

  predicate SameFine(ts: seq<Token>, stopAt: set<TokenType>) {
    var r, f := ParseNodes(ts, stopAt), ParseNodes(Fine(ts), stopAt);
    FineNodes(f.0) == FineNodes(r.0) && f.1 == Fine(r.1)
  }

  predicate SameFineNode(t: Token, us: seq<Token>) {
    var q, f := ParseNode(t, us), ParseNode(t, Fine(us));
    FineNode(f.0) == FineNode(q.0) && f.1 == Fine(q.1)
  }

  predicate SameFineBranches(ts: seq<Token>) {
    var m, f := ParseBranches(ts), ParseBranches(Fine(ts));
    FineBranches(f.0) == FineBranches(m.0) && f.1 == Fine(m.1)
  }

  /** A token that is not text stays the first one. */
  lemma {:induction false} FineHead(ts: seq<Token>)
    requires ts != [] && ts[0].kind != Text
    ensures Fine(ts) != [] && Fine(ts)[0] == ts[0] && Fine(ts)[1..] == Fine(ts[1..])
  {
  }

  lemma {:induction false} ParseFine(ts: seq<Token>, stopAt: set<TokenType>)
    requires Text !in stopAt
    ensures SameFine(ts, stopAt)
    decreases |ts|, 5
  {
    if ts != [] {
      if ts[0].kind == Text {
        ParseFineText(ts, stopAt);
      } else {
        FineHead(ts);
        if ts[0].kind !in stopAt {
          ParseFineStep(ts, stopAt);
        }
      }
    }
  }

  lemma {:induction false} ParseFineText(ts: seq<Token>, stopAt: set<TokenType>)
    requires Text !in stopAt && ts != [] && ts[0].kind == Text
    ensures SameFine(ts, stopAt)
    decreases |ts|, 4
  {
    var v, us := ts[0].value, ts[1..];
    ParseFine(us, stopAt);
    ParseChars(v, Fine(us), stopAt);
    var nodes := ParseNodes(us, stopAt).0;
    FineNodesAppend(CharNodes(v), ParseNodes(Fine(us), stopAt).0);
    FineCharNodes(v);
    assert FineNodes([TextNode(v)] + nodes) == CharNodes(v) + FineNodes(nodes) by {
      assert ([TextNode(v)] + nodes)[1..] == nodes;
    }
  }

  lemma {:induction false} FineCharNodes(s: string)
    ensures FineNodes(CharNodes(s)) == CharNodes(s)
  {
    if s != "" {
      var c := s[..1];
      FineCharNodes(s[1..]);
      assert c[..1] == c && c[1..] == "";
      assert CharNodes(c) == [TextNode(c)] + CharNodes("") == [TextNode(c)];
      assert CharNodes(s)[1..] == CharNodes(s[1..]);
    }
  }

  lemma {:induction false} ParseFineStep(ts: seq<Token>, stopAt: set<TokenType>)
    requires Text !in stopAt && ts != [] && ts[0].kind != Text && ts[0].kind !in stopAt
    ensures SameFine(ts, stopAt)
    decreases |ts|, 4
  {
    FineHead(ts);
    var q := ParseNode(ts[0], ts[1..]);
    ParseFineNode(ts[0], ts[1..]);
    ParseFine(q.1, stopAt);
    var f := ParseNode(ts[0], Fine(ts[1..]));
    FineCons(q.0, ParseNodes(q.1, stopAt).0);
    FineCons(f.0, ParseNodes(f.1, stopAt).0);
  }

  lemma {:induction false} FineCons(n: Node, ns: seq<Node>)
    ensures FineNodes([n] + ns) == FineNode(n) + FineNodes(ns)
  {
    assert ([n] + ns)[1..] == ns;
  }

  lemma {:induction false} ParseFineNode(t: Token, us: seq<Token>)
    requires t.kind != Text
    ensures SameFineNode(t, us)
    decreases |us|, 9
  {
    match t.kind
    case If => ParseFineIf(t, us);
    case Unless => ParseFineUnless(t, us);
    case Each => ParseFineEach(t, us);
    case _ =>
  }

  lemma {:induction false} ParseFineUnless(t: Token, us: seq<Token>)
    requires t.kind == Unless
    ensures SameFineNode(t, us)
    decreases |us|, 8
  {
    ParseFine(us, {EndUnless});
    FineSkip(EndUnless, ParseNodes(us, {EndUnless}).1);
  }

  lemma {:induction false} ParseFineEach(t: Token, us: seq<Token>)
    requires t.kind == Each
    ensures SameFineNode(t, us)
    decreases |us|, 8
  {
    ParseFine(us, {EndEach});
    FineSkip(EndEach, ParseNodes(us, {EndEach}).1);
    EachParses(t, us);
    EachParses(t, Fine(us));
  }

  lemma {:induction false} FineSkip(kind: TokenType, ts: seq<Token>)
    requires kind != Text && (ts == [] || ts[0].kind == kind)
    ensures Skip(kind, Fine(ts)) == Fine(Skip(kind, ts))
  {
    if ts != [] {
      FineHead(ts);
    }
  }

  lemma {:induction false} ParseFineIf(t: Token, us: seq<Token>)
    requires t.kind == If
    ensures SameFineNode(t, us)
    decreases |us|, 8
  {
    ParseFineBody(Some(ParseCondition(t.value)), us);
    IfParses(t, us);
    IfParses(t, Fine(us));
    FineIf(BodyBranches(Some(ParseCondition(t.value)), us), BodyBranches(Some(ParseCondition(t.value)), Fine(us)));
  }

  lemma {:induction false} FineIf(a: seq<Branch>, b: seq<Branch>)
    requires FineBranches(a) == FineBranches(b)
    ensures FineNode(IfNode(a)) == FineNode(IfNode(b))
  {
  }

  lemma {:induction false} ParseFineBody(c: Option<Condition>, us: seq<Token>)
    ensures FineBranches(BodyBranches(c, Fine(us))) == FineBranches(BodyBranches(c, us))
    ensures AfterBody(Fine(us)) == Fine(AfterBody(us))
    decreases |us|, 7
  {
    ParseFine(us, IfStops);
    var r, f := ParseNodes(us, IfStops), ParseNodes(Fine(us), IfStops);
    ParseFineBranches(r.1);
    FineBranchCons(c, r.0, ParseBranches(r.1).0);
    FineBranchCons(c, f.0, ParseBranches(f.1).0);
  }

  lemma {:induction false} FineBranchCons(c: Option<Condition>, body: seq<Node>, bs: seq<Branch>)
    ensures FineBranches([Branch(c, body)] + bs) == [Branch(c, FineNodes(body))] + FineBranches(bs)
  {
    assert ([Branch(c, body)] + bs)[1..] == bs;
  }

  lemma {:induction false} ParseFineBranches(ts: seq<Token>)
    requires ts == [] || ts[0].kind in IfStops
    ensures SameFineBranches(ts)
    decreases |ts|, 6
  {
    if ts != [] {
      FineHead(ts);
      if ts[0].kind == ElseIf {
        ParseFineBody(Some(ParseCondition(ts[0].value)), ts[1..]);
        ElseIfParses(ts);
        ElseIfParses(Fine(ts));
      } else if ts[0].kind == Else {
        ParseFineElse(ts);
      }
    }
  }

  lemma {:induction false} ParseFineElse(ts: seq<Token>)
    requires ts != [] && ts[0].kind == Else
    ensures SameFineBranches(ts)
    decreases |ts|, 5
  {
    FineHead(ts);
    var us := ts[1..];
    ParseFine(us, {EndIf});
    FineSkip(EndIf, ParseNodes(us, {EndIf}).1);
    FineBranchOne(ParseNodes(us, {EndIf}).0);
    FineBranchOne(ParseNodes(Fine(us), {EndIf}).0);
  }

  lemma {:induction false} FineBranchOne(body: seq<Node>)
    ensures FineBranches([Branch(None, body)]) == [Branch(None, FineNodes(body))]
  {
    assert [Branch(None, body)][1..] == [];
  }

  lemma {:induction false} OpenFine(stack: seq<Frame>, ts: seq<Token>)
    ensures OpenBlocks(stack, Fine(ts)) == OpenBlocks(stack, ts)
    decreases |ts|
  {
    if ts != [] {
      if ts[0].kind == Text {
        OpenAppend(stack, Chars(ts[0].value), Fine(ts[1..]));
        OpenChars(stack, ts[0].value);
        OpenFine(stack, ts[1..]);
      } else {
        FineHead(ts);
        OpenFine(ScanKind(stack, ts[0].kind), ts[1..]);
      }
    }
  }

  lemma {:induction false} OpenChars(stack: seq<Frame>, s: string)
    ensures OpenBlocks(stack, Chars(s)) == stack
  {
    if s != "" {
      assert Chars(s)[1..] == Chars(s[1..]);
      OpenChars(stack, s[1..]);
    }
  }

  // ---------------------------------------------------------------------
  // Tokenizing a concatenation
  // ---------------------------------------------------------------------

  /** Every tag that is opened is closed. */
  ghost predicate TagsClosed(s: string)
    decreases |s|
  {
    match CutAt(s, '{')
    case Whole => true
    case Before(_, rest) =>
      match CutAt(rest, '}')
      case Whole => false
      case Before(_, after) => TagsClosed(after)
  }

  /** No opening is put together from the end of `p` and the start of `s`. */
  predicate Apart(p: string, s: string) {
    p != "" && s != "" ==> p[|p| - 1] != '{' || s[0] != '{'
  }

  /** The tokens after an opening. */
  ghost function AfterOpen(rest: string): seq<Token> {
    match CutAt(rest, '}')
    case Whole => [TextToken(OPEN + rest)]
    case Before(content, after) => [TagToken(content)] + Tokens(after)
  }

  lemma {:induction false} TokensAtOpen(text: string, rest: string)
    requires !HasTwo(text + "{", '{', '{')
    ensures Tokens(text + OPEN + rest) == Leading(text) + AfterOpen(rest)
  {
    CutUnique(text, rest, '{');
  }

  lemma {:induction false} PlainJoin(p: string, s: string)
    requires !HasTwo(p, '{', '{') && Apart(p, s)
    ensures HasTwo(s, '{', '{') <==> HasTwo(p + s, '{', '{')
  {
    forall k: nat
      ensures TwoAt(p + s, '{', '{', k) <==> k >= |p| && TwoAt(s, '{', '{', k - |p|)
    {
      assert !TwoAt(p, '{', '{', k);
    }
    if HasTwo(s, '{', '{') {
      var k: nat :| k < |s| && TwoAt(s, '{', '{', k);
      assert TwoAt(p + s, '{', '{', |p| + k);
    }
  }

  lemma {:induction false} TextJoin(p: string, s: string)
    requires !HasTwo(p, '{', '{') && Apart(p, s)
    ensures Fine(Tokens(p + s)) == Chars(p) + Fine(Tokens(s))
  {
    PlainJoin(p, s);
    if HasTwo(s, '{', '{') {
      CutClean(s, '{');
      TextBeforeOpen(p, s, CutAt(s, '{').head, CutAt(s, '{').tail);
    } else {
      TokensPlain(p + s);
      TokensPlain(s);
      FineLeadingOnly(p + s);
      FineLeadingOnly(s);
      CharsAppend(p, s);
    }
  }

  lemma {:induction false} FineLeadingOnly(text: string)
    ensures Fine(Leading(text)) == Chars(text)
  {
    assert Leading(text) + [] == Leading(text);
    FineLeading(text, []);
  }

  lemma {:induction false} TextBeforeOpen(p: string, s: string, text: string, rest: string)
    requires !HasTwo(p, '{', '{') && Apart(p, s) && s == text + OPEN + rest && !HasTwo(text + "{", '{', '{')
    ensures Fine(Tokens(p + s)) == Chars(p) + Fine(Tokens(s))
  {
    TextOpens(p, text);
    FineOpen(text, rest);
    FineOpen(p + text, rest);
    CharsAppend(p, text);
    Associate(p, text, OPEN + rest);
    Associate(p + text, OPEN, rest);
    Associate(text, OPEN, rest);
    Associate(Chars(p), Chars(text), Fine(AfterOpen(rest)));
  }

  lemma {:induction false} FineOpen(text: string, rest: string)
    requires !HasTwo(text + "{", '{', '{')
    ensures Fine(Tokens(text + OPEN + rest)) == Chars(text) + Fine(AfterOpen(rest))
  {
    TokensAtOpen(text, rest);
    FineLeading(text, AfterOpen(rest));
  }

  lemma {:induction false} TextOpens(p: string, text: string)
    requires !HasTwo(p, '{', '{') && Apart(p, text + "{") && !HasTwo(text + "{", '{', '{')
    ensures !HasTwo(p + text + "{", '{', '{')
  {
    PlainJoin(p, text + "{");
    assert p + (text + "{") == p + text + "{";
  }

  /** Up to the fusing of texts, closed tags tokenize independently of what follows. */
  lemma {:induction false} TokensJoin(p: string, s: string)
    requires TagsClosed(p) && Apart(p, s)
    ensures Fine(Tokens(p + s)) == Fine(Tokens(p)) + Fine(Tokens(s))
    ensures TagsClosed(s) ==> TagsClosed(p + s)
    decreases |p|
  {
    match CutAt(p, '{')
    case Whole =>
      TextJoin(p, s);
      TokensPlain(p);
      FineLeadingOnly(p);
      TextTagsClosed(p, s);
    case Before(text, rest) =>
      match CutAt(rest, '}')
      case Before(content, after) =>
        TokensJoin(after, s);
        CutClean(p, '{');
        CutClean(rest, '}');
        TagJoin(text, content, after, s);
        TagClosed(text, content, after + s);
        RegroupText(text, content, after, s);
  }

  lemma {:induction false} RegroupText(text: string, content: string, after: string, s: string)
    ensures text + ['{', '{'] + (content + ['}', '}'] + after) + s == text + OPEN + (content + CLOSE + (after + s))
    ensures text + ['{', '{'] + (content + ['}', '}'] + after) == text + OPEN + (content + CLOSE + after)
  {
  }

  lemma {:induction false} TagClosed(text: string, content: string, after: string)
    requires !HasTwo(text + "{", '{', '{') && !HasTwo(content + "}", '}', '}')
    ensures TagsClosed(text + OPEN + (content + CLOSE + after)) <==> TagsClosed(after)
  {
    CutUnique(text, content + CLOSE + after, '{');
    CutUnique(content, after, '}');
  }

  lemma {:induction false} TextTagsClosed(p: string, s: string)
    requires !HasTwo(p, '{', '{') && Apart(p, s)
    ensures TagsClosed(s) ==> TagsClosed(p + s)
  {
    PlainJoin(p, s);
    if HasTwo(s, '{', '{') {
      var text, rest := CutAt(s, '{').head, CutAt(s, '{').tail;
      CutClean(s, '{');
      TextOpens(p, text);
      OpenClosed(text, rest);
      OpenClosed(p + text, rest);
      Associate(p, text, ['{', '{'] + rest);
      Associate(p + text, ['{', '{'], rest);
      Associate(text, ['{', '{'], rest);
    }
  }

  ghost predicate ClosedAfterOpen(rest: string) {
    CutAt(rest, '}').Before? && TagsClosed(CutAt(rest, '}').tail)
  }

  lemma {:induction false} OpenClosed(text: string, rest: string)
    requires !HasTwo(text + "{", '{', '{')
    ensures TagsClosed(text + ['{', '{'] + rest) <==> ClosedAfterOpen(rest)
  {
    CutUnique(text, rest, '{');
  }

  lemma {:induction false} TagJoin(text: string, content: string, after: string, s: string)
    requires !HasTwo(text + "{", '{', '{') && !HasTwo(content + "}", '}', '}')
    requires Fine(Tokens(after + s)) == Fine(Tokens(after)) + Fine(Tokens(s))
    ensures Fine(Tokens(text + OPEN + (content + CLOSE + (after + s)))) ==
            Fine(Tokens(text + OPEN + (content + CLOSE + after))) + Fine(Tokens(s))
  {
    FineTag(text, content, after);
    FineTag(text, content, after + s);
    Associate([TagToken(content)], Fine(Tokens(after)), Fine(Tokens(s)));
    Associate(Chars(text), [TagToken(content)] + Fine(Tokens(after)), Fine(Tokens(s)));
  }

  lemma {:induction false} FineTag(text: string, content: string, after: string)
    requires !HasTwo(text + "{", '{', '{') && !HasTwo(content + "}", '}', '}')
    ensures Fine(Tokens(text + OPEN + (content + CLOSE + after))) ==
            Chars(text) + ([TagToken(content)] + Fine(Tokens(after)))
  {
    var tag, ts := TagToken(content), Tokens(after);
    TokensTag(text, content, after);
    FineLeading(text, [tag] + ts);
    assert ([tag] + ts)[1..] == ts;
  }

  // ---------------------------------------------------------------------
  // Rendering a concatenation
  // ---------------------------------------------------------------------

  /** All tags and all blocks are closed. */
  ghost predicate ClosedTemplate(s: string) {
    TagsClosed(s) && OpenBlocks([], Tokens(s)) == []
  }

  lemma {:induction false} RenderFine(s: string, variables: Variables, partials: Partials)
    ensures Render(s, variables, partials) == EvalNodes(Parse(Fine(Tokens(s))), variables, partials)
  {
    var ts := Tokens(s);
    ParseFine(ts, {});
    EvalFine(Parse(ts), variables, partials);
    EvalFine(Parse(Fine(ts)), variables, partials);
  }

  /** What follows a closed template renders as if it stood alone. */
  lemma {:induction false} RenderJoin(p: string, s: string, variables: Variables, partials: Partials)
    requires ClosedTemplate(p) && Apart(p, s)
    ensures Render(p + s, variables, partials) ==
            Then(Render(p, variables, partials), Render(s, variables, partials))
  {
    RenderFine(p, variables, partials);
    RenderFine(s, variables, partials);
    RenderFine(p + s, variables, partials);
    TokensJoin(p, s);
    OpenFine([], Tokens(p));
    ParseConcat(Fine(Tokens(p)), Fine(Tokens(s)));
    EvalAppend(Parse(Fine(Tokens(p))), Parse(Fine(Tokens(s))), variables, partials);
  }

  lemma {:induction false} ClosedJoin(p: string, s: string)
    requires ClosedTemplate(p) && Apart(p, s)
    ensures ClosedTemplate(s) ==> ClosedTemplate(p + s)
  {
    TokensJoin(p, s);
    OpenFine([], Tokens(p));
    OpenFine([], Tokens(s));
    OpenFine([], Tokens(p + s));
    OpenAppend([], Fine(Tokens(p)), Fine(Tokens(s)));
  }

  lemma {:induction false} RenderNewline(variables: Variables, partials: Partials)
    ensures Render("\n", variables, partials) == Ok("\n") && ClosedTemplate("\n")
  {
    TokensPlain("\n");
    ParseOneText("\n");
    EvalOne(TextNode("\n"), variables, partials);
    var ts := Tokens("\n");
    assert ts[1..] == [] && OpenBlocks([], ts[1..]) == [];
  }

  /**
   * A prompt body put behind another with a newline: if the first closes all its
   * tags and blocks, the two render one after the other.
   */
  lemma {:induction false} RenderConcat(p: string, c: string, variables: Variables, partials: Partials)
    requires ClosedTemplate(p)
    ensures Render(p + "\n" + c, variables, partials) ==
            Then(Then(Render(p, variables, partials), Ok("\n")), Render(c, variables, partials))
    ensures ClosedTemplate(c) ==> ClosedTemplate(p + "\n" + c)
  {
    RenderNewline(variables, partials);
    RenderJoin(p, "\n", variables, partials);
    ClosedJoin(p, "\n");
    RenderJoin(p + "\n", c, variables, partials);
    ClosedJoin(p + "\n", c);
  }
}
