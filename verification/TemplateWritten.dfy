/**
 * The tokens a printed AST should become, how they parse, and why a head cut short is
 * never read as the same head.
 */
module TemplateWritten {
  import opened Sequences
  import opened Wrappers
  import opened Strings
  import opened TemplateTokens
  import opened TemplateParser
  import opened TemplatePrinter
  import opened TemplateLeaves
  import opened TemplateHeads

  // ---------------------------------------------------------------------
  // The tokens a printed AST should have
  // ---------------------------------------------------------------------

  /** The text is one tag that does not belong where it stands: the parser takes it for text. */
  predicate IsStray(v: string, stopAt: set<TokenType>) {
    |v| >= 4 &&
    var content := v[2..|v| - 2];
    && TagOf(TagToken(content), content) && TagToken(content).raw == v
    && TagToken(content).kind in Ends && TagToken(content).kind !in stopAt
  }

  function WriteText(v: string, stopAt: set<TokenType>): Token {
    if IsStray(v, stopAt) then TagToken(v[2..|v| - 2]) else TextToken(v)
  }

  /** The content of the tag that begins a node. */
  function HeadContent(n: Node): string {
    match n
    case TextNode(_) => ""
    case VariableNode(path) => Join(path, '.')
    case PartialNode(name) => "> " + name
    case IfNode(branches) =>
      if branches == [] || branches[0].condition.None? then "/if"
      else "#if " + ConditionText(branches[0].condition.value)
    case UnlessNode(variable, _) => "#unless " + variable
    case EachNode(path, item, _) => "#each " + EachText(path, item)
  }

  function BranchContent(condition: Option<Condition>): string {
    if condition.Some? then "else if " + ConditionText(condition.value) else "else"
  }

  function WriteFirst(n: Node, stopAt: set<TokenType>): Token {
    if n.TextNode? then WriteText(n.value, stopAt) else TagToken(HeadContent(n))
  }

  function WriteNode(n: Node, stopAt: set<TokenType>): seq<Token>
    decreases n, 1
  {
    [WriteFirst(n, stopAt)] + WriteInside(n)
  }

  /** What follows the tag that begins a node, up to its end. */
  function WriteInside(n: Node): seq<Token>
    decreases n, 0
  {
    match n
    case IfNode(branches) =>
      if branches == [] || branches[0].condition.None? then []
      else WriteBody(branches, TagToken("/if"))
    case UnlessNode(_, body) => WriteNodes(body, {EndUnless}) + [TagToken("/unless")]
    case EachNode(_, _, body) => WriteNodes(body, {EndEach}) + [TagToken("/each")]
    case _ => []
  }

  function WriteNodes(ns: seq<Node>, stopAt: set<TokenType>): seq<Token>
    decreases ns
  {
    if ns == [] then [] else WriteNode(ns[0], stopAt) + WriteNodes(ns[1..], stopAt)
  }

  /** What follows the tag of an if or an else-if: its body and the branches after it. */
  function WriteBody(bs: seq<Branch>, last: Token): seq<Token>
    requires bs != []
    decreases bs
  {
    WriteNodes(bs[0].body, IfStops) + (WriteBranches(bs[1..]) + [last])
  }

  function BranchStops(condition: Option<Condition>): set<TokenType> {
    if condition.Some? then IfStops else {EndIf}
  }

  function WriteBranches(bs: seq<Branch>): seq<Token>
    decreases bs
  {
    if bs == [] then []
    else
      [TagToken(BranchContent(bs[0].condition))]
      + (WriteNodes(bs[0].body, BranchStops(bs[0].condition)) + WriteBranches(bs[1..]))
  }

  // ---------------------------------------------------------------------
  // The leaves that tags can carry
  // ---------------------------------------------------------------------

  /** What the head of a node must satisfy to be carried. */
  predicate HeadCarried(n: Node) {
    match n
    case TextNode(_) => true
    case VariableNode(path) => PathKept(path) && Trimmed(Join(path, '.')) && !Keyword(Join(path, '.'))
    case PartialNode(name) => name != "" && Trimmed(name)
    case IfNode(branches) =>
      branches != [] && branches[0].condition.Some? && ConditionCarried(branches[0].condition.value)
    case UnlessNode(variable, _) => variable != "" && Trimmed(variable)
    case EachNode(path, item, _) => EachCarried(path, item)
  }

  predicate CarriedNode(n: Node)
    decreases n
  {
    && HeadCarried(n)
    && match n
       case IfNode(branches) => CarriedNodes(branches[0].body) && CarriedBranches(branches[1..])
       case UnlessNode(_, body) => CarriedNodes(body)
       case EachNode(_, _, body) => CarriedNodes(body)
       case _ => true
  }

  predicate CarriedNodes(ns: seq<Node>)
    decreases ns
  {
    ns == [] || (CarriedNode(ns[0]) && CarriedNodes(ns[1..]))
  }

  predicate CarriedBranches(bs: seq<Branch>)
    decreases bs
  {
    bs == [] ||
    (&& (bs[0].condition.Some? ==> ConditionCarried(bs[0].condition.value))
     && CarriedNodes(bs[0].body) && CarriedBranches(bs[1..]))
  }

  function HeadKind(n: Node): (kind: TokenType)
    ensures !n.TextNode? ==> kind !in Ends && kind != Text
  {
    match n
    case TextNode(_) => Text
    case VariableNode(_) => Variable
    case PartialNode(_) => Partial
    case IfNode(_) => If
    case UnlessNode(_, _) => Unless
    case EachNode(_, _, _) => Each
  }

  /** The value of a tag says what the head of the node says. */
  predicate Says(n: Node, value: string) {
    match n
    case TextNode(_) => false
    case VariableNode(path) => Split(value, '.') == path
    case PartialNode(name) => value == name
    case IfNode(branches) =>
      branches != [] && branches[0].condition.Some? && ParseCondition(value) == branches[0].condition.value
    case UnlessNode(variable, _) => Trim(value) == variable
    case EachNode(path, item, _) => EachIs(value, path, item)
  }

  /** The tag is read as the head of the node. */
  predicate HeadOf(n: Node, t: Token) {
    t.kind == HeadKind(n) && Says(n, t.value)
  }

  lemma {:induction false} TrimmedValueIff(kind: TokenType, p: string, e: string)
    requires ReadsAs(kind, p, e)
    ensures TagToken(p + e).kind == kind && TagToken(p + e).value == e <==> e != "" && Trimmed(e)
    ensures TagToken(p + e).kind == kind && Trim(TagToken(p + e).value) == e <==> e != "" && Trimmed(e)
  {
    NotBlankIff(e);
    var t := TagToken(p + e);
    assert t.kind == kind <==> TrimEnd(e) != "";
    assert t.kind == kind ==> t.value == Trim(e);
  }

  lemma {:induction false} NotBlankIff(e: string)
    ensures TrimEnd(e) != "" && Trim(e) == e <==> e != "" && Trimmed(e)
    ensures Trim(Trim(e)) == Trim(e)
  {
    TrimIsTrimmed(e);
    TrimIsTrimmed(Trim(e));
    if e != "" && Trimmed(e) {
      BlankTrims(e);
    }
  }

  /** The head of a node is read as that head if and only if it is carried. */
  lemma {:induction false} HeadIff(n: Node)
    requires !n.TextNode?
    ensures HeadOf(n, TagToken(HeadContent(n))) <==> HeadCarried(n)
  {
    match n
    case VariableNode(path) => VariableCarriedIff(path);
    case PartialNode(name) =>
      PartialReads(name);
      TrimmedValueIff(Partial, "> ", name);
    case IfNode(branches) =>
      if branches != [] && branches[0].condition.Some? {
        IfReads(ConditionText(branches[0].condition.value));
        CarriedIff(If, "#if ", branches[0].condition.value);
      }
    case UnlessNode(variable, _) =>
      UnlessReads(variable);
      TrimmedValueIff(Unless, "#unless ", variable);
    case EachNode(path, item, _) => EachCarriedIff(path, item);
  }

  // ---------------------------------------------------------------------
  // A head cut short
  // ---------------------------------------------------------------------

  lemma {:induction false} CutVariable(path: seq<string>, m: nat)
    requires m < |Join(path, '.')|
    ensures var t := TagToken(Join(path, '.')[..m]); !(t.kind == Variable && Split(t.value, '.') == path)
  {
    var c := Join(path, '.')[..m];
    KeywordIff(Trim(c), OPEN + c + CLOSE);
    JoinSplit(Trim(c), '.');
    assert |Trim(c)| <= m;
  }

  lemma {:induction false} CutIf(c: Condition, m: nat)
    requires CutAtBraces("#if " + ConditionText(c), m)
    ensures var t := TagToken(("#if " + ConditionText(c))[..m]); !(t.kind == If && ParseCondition(t.value) == c)
  {
    CutBehindKeyword("#if ", ConditionText(c), m);
    IfReads(ConditionText(c)[..m - 4]);
    CutConditionDiffers(c, m - 4);
  }

  lemma {:induction false} CutElseIf(c: Condition, m: nat)
    requires CutAtBraces("else if " + ConditionText(c), m)
    ensures var t := TagToken(("else if " + ConditionText(c))[..m]); !(t.kind == ElseIf && ParseCondition(t.value) == c)
  {
    CutBehindKeyword("else if ", ConditionText(c), m);
    ElseIfReads(ConditionText(c)[..m - 8]);
    CutConditionDiffers(c, m - 8);
  }

  lemma {:induction false} CutEachValue(e: string, m: nat)
    requires CutAtBraces("#each " + e, m)
    ensures m >= 6 && CutAtBraces(e, m - 6)
    ensures var t := TagToken(("#each " + e)[..m]); t.kind == Each ==> t.value == Trim(e[..m - 6])
  {
    CutBehindKeyword("#each ", e, m);
    EachReads(e[..m - 6]);
  }

  /** The token is no head of an each block over this path and item. */
  predicate EachDiffers(t: Token, path: seq<string>, item: string) {
    t.kind == Each ==> !EachIs(t.value, path, item)
  }

  lemma {:induction false} ShortEachDiffers(path: seq<string>, item: string, e: string, k: int, t: Token)
    requires e == EachText(path, item) && k >= 0 && CutAtBraces(e, k)
    requires t.kind == Each ==> t.value == Trim(e[..k])
    ensures EachDiffers(t, path, item)
  {
    CutEachDiffers(path, item, k);
  }

  lemma {:induction false} CutEach(path: seq<string>, item: string, e: string, s: string, m: nat)
    requires e == EachText(path, item) && s == "#each " + e && CutAtBraces(s, m)
    ensures EachDiffers(TagToken(s[..m]), path, item)
  {
    CutEachValue(e, m);
    ShortEachDiffers(path, item, e, m - 6, TagToken(s[..m]));
  }

  lemma {:induction false} CutPartial(name: string, m: nat)
    requires CutAtBraces("> " + name, m)
    ensures var t := TagToken(("> " + name)[..m]); !(t.kind == Partial && t.value == name)
  {
    CutBehindKeyword("> ", name, m);
    PartialReads(name[..m - 2]);
  }

  lemma {:induction false} CutUnless(variable: string, m: nat)
    requires CutAtBraces("#unless " + variable, m)
    ensures var t := TagToken(("#unless " + variable)[..m]); !(t.kind == Unless && Trim(t.value) == variable)
  {
    CutBehindKeyword("#unless ", variable, m);
    UnlessReads(variable[..m - 8]);
    assert |Trim(Trim(variable[..m - 8]))| <= m - 8;
  }

  /** A head that is cut short by braces inside it is not read as that head. */
  lemma {:induction false} CutHeadDiffers(n: Node, m: nat)
    requires CutAtBraces(HeadContent(n), m)
    ensures !HeadOf(n, TagToken(HeadContent(n)[..m]))
  {
    match n
    case TextNode(_) =>
    case VariableNode(path) => CutVariable(path, m);
    case PartialNode(name) => CutPartial(name, m);
    case IfNode(branches) =>
      if branches != [] && branches[0].condition.Some? {
        CutIf(branches[0].condition.value, m);
      }
    case UnlessNode(variable, _) => CutUnless(variable, m);
    case EachNode(path, item, _) => CutEach(path, item, EachText(path, item), HeadContent(n), m);
  }

  // ---------------------------------------------------------------------
  // Their text
  // ---------------------------------------------------------------------

  /** Two token lists with the same texts. */
  predicate Alike(a: seq<Token>, b: seq<Token>) {
    |a| == |b| && forall k | 0 <= k < |a| :: a[k].raw == b[k].raw
  }

  lemma {:induction false} AlikeRaw(a: seq<Token>, b: seq<Token>)
    requires Alike(a, b)
    ensures Raw(a) == Raw(b)
  {
    if a != [] {
      AlikeRaw(a[1..], b[1..]);
    }
  }

  lemma {:induction false} AlikeAppend(a: seq<Token>, b: seq<Token>, c: seq<Token>, d: seq<Token>)
    requires Alike(a, b) && Alike(c, d)
    ensures Alike(a + c, b + d)
  {
  }

  /** A head, an inside and an end. */
  lemma {:induction false} AlikeBlock(t: Token, a: seq<Token>, e: Token, u: Token, b: seq<Token>, f: Token)
    requires t.raw == u.raw && Alike(a, b) && e.raw == f.raw
    ensures Alike([t] + (a + [e]), [u] + b + [f])
  {
  }

  lemma {:induction false} AlikeBranch(t: Token, a: seq<Token>, c: seq<Token>, u: Token, b: seq<Token>, d: seq<Token>)
    requires t.raw == u.raw && Alike(a, b) && Alike(c, d)
    ensures Alike([t] + (a + c), [u] + b + d)
  {
    AlikeAppend([t], [u], a, b);
    AlikeAppend([t] + a, [u] + b, c, d);
    Associate([t], a, c);
  }

  lemma {:induction false} AlikeIf(
      t: Token, a: seq<Token>, c: seq<Token>, e: Token, u: Token, b: seq<Token>, d: seq<Token>, f: Token)
    requires t.raw == u.raw && Alike(a, b) && Alike(c, d) && e.raw == f.raw
    ensures Alike([t] + (a + (c + [e])), [u] + b + d + [f])
  {
    AlikeBranch(t, a, c, u, b, d);
    AlikeAppend([t] + (a + c), [u] + b + d, [e], [f]);
    assert [t] + (a + c) + [e] == [t] + (a + (c + [e]));
  }

  lemma {:induction false} WrittenNodes(ns: seq<Node>, stopAt: set<TokenType>)
    ensures Alike(WriteNodes(ns, stopAt), TokensOfNodes(ns))
    decreases ns, 0
  {
    if ns != [] {
      WrittenNode(ns[0], stopAt);
      WrittenNodes(ns[1..], stopAt);
      AlikeAppend(WriteNode(ns[0], stopAt), TokensOf(ns[0]), WriteNodes(ns[1..], stopAt), TokensOfNodes(ns[1..]));
    }
  }

  lemma {:induction false} WrittenNode(n: Node, stopAt: set<TokenType>)
    ensures Alike(WriteNode(n, stopAt), TokensOf(n))
    decreases n, 1
  {
    if n.IfNode? {
      WrittenIf(n, stopAt);
    } else if n.UnlessNode? {
      WrittenUnless(n, stopAt);
    } else if n.EachNode? {
      WrittenEach(n, stopAt);
    } else {
      WrittenLeaf(n, stopAt);
    }
  }

  lemma {:induction false} WrittenLeaf(n: Node, stopAt: set<TokenType>)
    requires n.TextNode? || n.VariableNode? || n.PartialNode?
    ensures Alike(WriteNode(n, stopAt), TokensOf(n))
  {
    var content := if n.TextNode? then "" else HeadContent(n);
    LeafWritten(n, stopAt, content);
  }

  lemma {:induction false} LeafWritten(n: Node, stopAt: set<TokenType>, content: string)
    requires || n.TextNode? || (n.VariableNode? && content == Join(n.path, '.'))
             || (n.PartialNode? && content == "> " + n.name)
    ensures Alike(WriteNode(n, stopAt), TokensOf(n))
  {
    assert n.VariableNode? ==> "" + content == content;
  }

  lemma {:induction false} MeantRaw(kind: TokenType, p: string, v: string)
    ensures Meant(kind, p, v).raw == TagToken(p + v).raw
  {
  }

  lemma {:induction false} HeadRaw(n: Node, kind: TokenType, p: string, v: string)
    requires HeadContent(n) == p + v
    ensures Meant(kind, p, v).raw == TagToken(HeadContent(n)).raw
  {
    MeantRaw(kind, p, v);
  }

  lemma {:induction false} UnlessTokens(n: Node) returns (u: Token, f: Token)
    requires n.UnlessNode?
    ensures TokensOf(n) == [u] + TokensOfNodes(n.body) + [f]
    ensures u == Meant(Unless, "#unless ", n.variable) && f.raw == OPEN + "/unless" + CLOSE
  {
    u, f := Meant(Unless, "#unless ", n.variable), Token(EndUnless, "", OPEN + "/unless" + CLOSE);
  }

  lemma {:induction false} EndUnlessRaw(e: string, f: Token)
    requires ClosesUnless(e) && f.raw == OPEN + "/unless" + CLOSE
    ensures TagToken(e).raw == f.raw
  {
    UnlessName(e);
  }

  lemma {:induction false} UnlessName(e: string)
    requires ClosesUnless(e)
    ensures e == "/unless"
  {
  }

  lemma {:induction false} WrittenUnless(n: Node, stopAt: set<TokenType>)
    requires n.UnlessNode?
    ensures Alike(WriteNode(n, stopAt), TokensOf(n))
    decreases n, 0
  {
    var e := UnlessInside(n);
    var u, f := UnlessTokens(n);
    EndUnlessRaw(e, f);
    HeadRaw(n, Unless, "#unless ", n.variable);
    WrittenNodes(n.body, {EndUnless});
    AlikeBlock(TagToken(HeadContent(n)), WriteNodes(n.body, {EndUnless}), TagToken(e), u, TokensOfNodes(n.body), f);
  }

  lemma {:induction false} EachTokens(n: Node) returns (u: Token, f: Token)
    requires n.EachNode?
    ensures TokensOf(n) == [u] + TokensOfNodes(n.body) + [f]
    ensures u == Meant(Each, "#each ", EachText(n.arrayPath, n.itemName)) && f.raw == OPEN + "/each" + CLOSE
  {
    u, f := Meant(Each, "#each ", EachText(n.arrayPath, n.itemName)), Token(EndEach, "", OPEN + "/each" + CLOSE);
  }

  lemma {:induction false} EndEachRaw(e: string, f: Token)
    requires ClosesEach(e) && f.raw == OPEN + "/each" + CLOSE
    ensures TagToken(e).raw == f.raw
  {
    assert e == "/each";
  }

  lemma {:induction false} WrittenEach(n: Node, stopAt: set<TokenType>)
    requires n.EachNode?
    ensures Alike(WriteNode(n, stopAt), TokensOf(n))
    decreases n, 0
  {
    var e := EachInside(n);
    var u, f := EachTokens(n);
    EndEachRaw(e, f);
    HeadRaw(n, Each, "#each ", EachText(n.arrayPath, n.itemName));
    WrittenNodes(n.body, {EndEach});
    AlikeBlock(TagToken(HeadContent(n)), WriteNodes(n.body, {EndEach}), TagToken(e), u, TokensOfNodes(n.body), f);
  }

  lemma {:induction false} IfTokens(n: Node, u: Token, f: Token)
    requires n.IfNode? && n.branches != [] && n.branches[0].condition.Some?
    requires u == Meant(If, "#if ", ConditionText(n.branches[0].condition.value)) && f == EndIfToken
    ensures TokensOf(n) == [u] + TokensOfNodes(n.branches[0].body) + TokensOfBranches(n.branches[1..]) + [f]
  {
  }

  lemma {:induction false} EndIfRaw(e: string)
    requires ClosesIf(e)
    ensures TagToken(e).raw == EndIfToken.raw
  {
    assert e == "/if";
  }

  lemma {:induction false} WrittenIf(n: Node, stopAt: set<TokenType>)
    requires n.IfNode?
    ensures Alike(WriteNode(n, stopAt), TokensOf(n))
    decreases n, 0
  {
    if n.branches != [] && n.branches[0].condition.Some? {
      var body, more := n.branches[0].body, n.branches[1..];
      var u, f := Meant(If, "#if ", ConditionText(n.branches[0].condition.value)), EndIfToken;
      var e := IfInside(n);
      EndIfRaw(e);
      HeadRaw(n, If, "#if ", ConditionText(n.branches[0].condition.value));
      IfTokens(n, u, f);
      WrittenNodes(body, IfStops);
      WrittenBranches(more);
      AlikeIf(TagToken(HeadContent(n)), WriteNodes(body, IfStops), WriteBranches(more), TagToken(e),
              u, TokensOfNodes(body), TokensOfBranches(more), f);
    } else {
      NoBranch(n, stopAt);
    }
  }

  lemma {:induction false} NoBranch(n: Node, stopAt: set<TokenType>)
    requires n.IfNode? && (n.branches == [] || n.branches[0].condition.None?)
    ensures Alike(WriteNode(n, stopAt), TokensOf(n))
  {
  }

  lemma {:induction false} WrittenBranches(bs: seq<Branch>)
    ensures Alike(WriteBranches(bs), TokensOfBranches(bs))
    decreases bs
  {
    if bs != [] {
      var c := bs[0].condition;
      WrittenNodes(bs[0].body, BranchStops(c));
      WrittenBranches(bs[1..]);
      AlikeBranch(TagToken(BranchContent(c)), WriteNodes(bs[0].body, BranchStops(c)), WriteBranches(bs[1..]),
                  BranchToken(c), TokensOfNodes(bs[0].body), TokensOfBranches(bs[1..]));
    }
  }

  /** They make up the printed text. */
  lemma {:induction false} WrittenRaw(ns: seq<Node>)
    ensures Raw(WriteNodes(ns, {})) == Print(ns)
  {
    WrittenNodes(ns, {});
    AlikeRaw(WriteNodes(ns, {}), TokensOfNodes(ns));
  }

  // ---------------------------------------------------------------------
  // Parsing them
  // ---------------------------------------------------------------------

  lemma {:induction false} NotSpace(c: char)
    requires c in "/efsh"
    ensures !IsSpace(c)
  {
  }

  lemma {:induction false} NoBlank(s: string)
    requires s != "" && s[0] in "/efsh" && s[|s| - 1] in "/efsh"
    ensures Trim(s) == s
  {
    NotSpace(s[0]);
    NotSpace(s[|s| - 1]);
    TrimIsTrimmed(s);
  }

  lemma {:induction false} EndKinds(s: string, raw: string)
    ensures ClosesIf(s) ==> ClassifyToken(s, raw).kind == EndIf
    ensures ClosesUnless(s) ==> ClassifyToken(s, raw).kind == EndUnless
    ensures ClosesEach(s) ==> ClassifyToken(s, raw).kind == EndEach
    ensures IsElse(s) ==> ClassifyToken(s, raw).kind == Else
  {
  }

  lemma {:induction false} EndsIf(s: string)
    requires ClosesIf(s)
    ensures TagToken(s).kind == EndIf
  {
    NoBlank(s);
    EndKinds(s, OPEN + s + CLOSE);
  }

  lemma {:induction false} EndsUnless(s: string)
    requires ClosesUnless(s)
    ensures TagToken(s).kind == EndUnless
  {
    NoBlank(s);
    EndKinds(s, OPEN + s + CLOSE);
  }

  lemma {:induction false} EndsEach(s: string)
    requires ClosesEach(s)
    ensures TagToken(s).kind == EndEach
  {
    NoBlank(s);
    EndKinds(s, OPEN + s + CLOSE);
  }

  lemma {:induction false} BeginsElse(s: string)
    requires IsElse(s)
    ensures TagToken(s).kind == Else
  {
    NoBlank(s);
    EndKinds(s, OPEN + s + CLOSE);
  }

  /** The first token of a carried node begins that node. */
  lemma {:induction false} FirstBegins(n: Node, t: Token, stopAt: set<TokenType>)
    requires HeadCarried(n) && stopAt <= Ends && t == WriteFirst(n, stopAt)
    ensures t.kind !in stopAt && (!n.TextNode? ==> HeadOf(n, t))
  {
    if !n.TextNode? {
      HeadIff(n);
    }
  }

  lemma {:induction false} WrittenCons(ns: seq<Node>, stopAt: set<TokenType>)
    requires ns != []
    ensures ns == [ns[0]] + ns[1..]
    ensures WriteNodes(ns, stopAt) == [WriteFirst(ns[0], stopAt)] + WriteInside(ns[0]) + WriteNodes(ns[1..], stopAt)
  {
  }

  lemma {:induction false} ParseWritten(ns: seq<Node>, rest: seq<Token>, stopAt: set<TokenType>)
    requires CarriedNodes(ns) && ShapedNodes(ns) && stopAt <= Ends && (rest == [] || rest[0].kind in stopAt)
    ensures var r := ParseNodes(WriteNodes(ns, stopAt) + rest, stopAt); r.0 == ns && r.1 == rest
    decreases ns, 0
  {
    if ns == [] {
      assert [] + rest == rest;
    } else {
      var n, tail := ns[0], WriteNodes(ns[1..], stopAt);
      var t := WriteFirst(n, stopAt);
      FirstBegins(n, t, stopAt);
      Leads(t, WriteInside(n), tail, rest);
      ParseWrittenNode(n, t, tail + rest, stopAt);
      ParseWritten(ns[1..], rest, stopAt);
      ParseCons([t] + WriteInside(n) + tail + rest, n, tail + rest, stopAt);
      WrittenCons(ns, stopAt);
    }
  }

  lemma {:induction false} Leads<T>(t: T, a: seq<T>, b: seq<T>, c: seq<T>)
    ensures var s := [t] + a + b + c; s != [] && s[0] == t && s[1..] == a + (b + c)
  {
  }

  /** The parser takes this token for the text. */
  predicate TextOf(t: Token, v: string) {
    if t.kind == Text then t.value == v else t.kind in Ends && t.raw == v
  }

  lemma {:induction false} WrittenText(v: string, stopAt: set<TokenType>)
    ensures TextOf(WriteText(v, stopAt), v) && WriteText(v, stopAt).kind !in stopAt - {Text}
  {
  }

  lemma {:induction false} PlainParses(t: Token, ts: seq<Token>)
    requires t.kind == Text
    ensures var r := ParseNode(t, ts); r.0 == TextNode(t.value) && r.1 == ts
  {
  }

  lemma {:induction false} StrayParses(t: Token, ts: seq<Token>)
    requires t.kind in Ends
    ensures var r := ParseNode(t, ts); r.0 == TextNode(t.raw) && r.1 == ts
  {
    assert !t.kind.Text? && !t.kind.Variable? && !t.kind.Partial? && !t.kind.If? && !t.kind.Unless? && !t.kind.Each?;
  }

  lemma {:induction false} TextParses(v: string, t: Token, ts: seq<Token>)
    requires TextOf(t, v)
    ensures var r := ParseNode(t, ts); r.0 == TextNode(v) && r.1 == ts
  {
    if t.kind == Text {
      PlainParses(t, ts);
    } else {
      StrayParses(t, ts);
    }
  }

  lemma {:induction false} LeafParses(n: Node, t: Token, ts: seq<Token>)
    requires HeadOf(n, t) && (n.VariableNode? || n.PartialNode?)
    ensures var r := ParseNode(t, ts); r.0 == n && r.1 == ts
  {
  }

  lemma {:induction false} ParseWrittenNode(n: Node, t: Token, rest: seq<Token>, stopAt: set<TokenType>)
    requires CarriedNode(n) && Shaped(n) && (if n.TextNode? then t == WriteText(n.value, stopAt) else HeadOf(n, t))
    ensures var r := ParseNode(t, WriteInside(n) + rest); r.0 == n && r.1 == rest
    decreases n, 1
  {
    if n.IfNode? {
      ParseWrittenIf(n, t, rest);
    } else if n.UnlessNode? {
      ParseWrittenUnless(n, t, rest);
    } else if n.EachNode? {
      ParseWrittenEach(n, t, rest);
    } else {
      assert WriteInside(n) + rest == rest;
      if n.TextNode? {
        WrittenText(n.value, stopAt);
        TextParses(n.value, t, rest);
      } else {
        LeafParses(n, t, rest);
      }
    }
  }

  /** The body of an unless or each block ends at its own end. */
  lemma {:induction false} ParseWrittenBlock(body: seq<Node>, end: TokenType, last: Token, rest: seq<Token>)
    requires CarriedNodes(body) && ShapedNodes(body) && end in Ends && last.kind == end
    ensures var r := ParseNodes(WriteNodes(body, {end}) + [last] + rest, {end}); r.0 == body && Skip(end, r.1) == rest
    decreases body, 1
  {
    Associate(WriteNodes(body, {end}), [last], rest);
    ParseWritten(body, [last] + rest, {end});
  }

  /** The content of the tag that ends the block of a node. */
  predicate EndsWith(inside: seq<Token>, body: seq<Token>, e: string) {
    '}' !in e && inside == body + [TagToken(e)]
  }

  lemma {:induction false} UnlessInside(n: Node) returns (e: string)
    requires n.UnlessNode?
    ensures ClosesUnless(e) && EndsWith(WriteInside(n), WriteNodes(n.body, {EndUnless}), e)
  {
    e := "/unless";
  }

  lemma {:induction false} EachInside(n: Node) returns (e: string)
    requires n.EachNode?
    ensures ClosesEach(e) && EndsWith(WriteInside(n), WriteNodes(n.body, {EndEach}), e)
  {
    e := "/each";
  }

  lemma {:induction false} IfInside(n: Node) returns (e: string)
    requires n.IfNode? && n.branches != [] && n.branches[0].condition.Some?
    ensures ClosesIf(e) && '}' !in e && WriteInside(n) == WriteBody(n.branches, TagToken(e))
  {
    e := "/if";
  }

  lemma {:induction false} ParseWrittenUnless(n: Node, t: Token, rest: seq<Token>)
    requires CarriedNode(n) && Shaped(n) && n.UnlessNode? && HeadOf(n, t)
    ensures var r := ParseNode(t, WriteInside(n) + rest); r.0 == n && r.1 == rest
    decreases n, 0
  {
    var e := UnlessInside(n);
    EndsUnless(e);
    ParseWrittenBlock(n.body, EndUnless, TagToken(e), rest);
    UnlessParses(t, WriteInside(n) + rest);
  }

  lemma {:induction false} ParseWrittenEach(n: Node, t: Token, rest: seq<Token>)
    requires CarriedNode(n) && Shaped(n) && n.EachNode? && HeadOf(n, t)
    ensures var r := ParseNode(t, WriteInside(n) + rest); r.0 == n && r.1 == rest
    decreases n, 0
  {
    var e := EachInside(n);
    EndsEach(e);
    ParseWrittenBlock(n.body, EndEach, TagToken(e), rest);
    EachParses(t, WriteInside(n) + rest);
  }

  /** What follows the body of a branch: the next branch, or the end of the block. */
  lemma {:induction false} BodyStops(bs: seq<Branch>, last: Token, rest: seq<Token>)
    requires CarriedBranches(bs) && last.kind == EndIf
    ensures var after := WriteBranches(bs) + [last] + rest;
            after != [] && after[0].kind in IfStops
    ensures bs == [] ==> WriteBranches(bs) + [last] + rest == [last] + rest
  {
    if bs != [] {
      BranchTag(bs[0].condition);
      Leads(TagToken(BranchContent(bs[0].condition)),
            WriteNodes(bs[0].body, BranchStops(bs[0].condition)) + WriteBranches(bs[1..]), [last], rest);
    }
  }

  lemma {:induction false} BranchTag(condition: Option<Condition>)
    requires condition.Some? ==> ConditionCarried(condition.value)
    ensures var t := TagToken(BranchContent(condition));
            if condition.Some? then t.kind == ElseIf && ParseCondition(t.value) == condition.value
            else t.kind == Else
  {
    BeginsElse("else");
    if condition.Some? {
      ElseIfReads(ConditionText(condition.value));
      CarriedIff(ElseIf, "else if ", condition.value);
    }
  }

  lemma {:induction false} Inwards<T>(a: seq<T>, b: seq<T>, c: seq<T>, d: seq<T>)
    ensures a + b + (c + d) == a + (b + c + d) && a + (b + c) + d == a + (b + c + d)
  {
  }

  lemma {:induction false} FirstBranch(bs: seq<Branch>, c: Option<Condition>, body: seq<Node>)
    requires bs != [] && bs[0].condition == c && bs[0].body == body
    ensures bs == [Branch(c, body)] + bs[1..]
  {
  }

  lemma {:induction false} ParseWrittenBody(bs: seq<Branch>, last: Token, rest: seq<Token>)
    requires bs != [] && CarriedNodes(bs[0].body) && ShapedNodes(bs[0].body)
    requires CarriedBranches(bs[1..]) && ShapedBranches(bs[1..]) && last.kind == EndIf
    ensures var ts := WriteBody(bs, last) + rest;
            BodyBranches(bs[0].condition, ts) == bs && AfterBody(ts) == rest
    decreases bs, 0
  {
    var body, more := bs[0].body, bs[1..];
    FirstBranch(bs, bs[0].condition, body);
    BodyStops(more, last, rest);
    Inwards(WriteNodes(body, IfStops), WriteBranches(more), [last], rest);
    ParseWritten(body, WriteBranches(more) + [last] + rest, IfStops);
    ParseWrittenBranches(more, last, rest);
  }

  lemma {:induction false} IfParsesTo(n: Node, t: Token, ts: seq<Token>)
    requires n.IfNode? && HeadOf(n, t) && BodyBranches(n.branches[0].condition, ts) == n.branches
    ensures ParseNode(t, ts).0 == n && ParseNode(t, ts).1 == AfterBody(ts)
  {
    IfParses(t, ts);
  }

  lemma {:induction false} ParseWrittenIf(n: Node, t: Token, rest: seq<Token>)
    requires CarriedNode(n) && Shaped(n) && n.IfNode? && HeadOf(n, t)
    ensures var r := ParseNode(t, WriteInside(n) + rest); r.0 == n && r.1 == rest
    decreases n, 0
  {
    var e := IfInside(n);
    EndsIf(e);
    ParseWrittenBody(n.branches, TagToken(e), rest);
    IfParsesTo(n, t, WriteInside(n) + rest);
  }

  lemma {:induction false} ParseWrittenBranches(bs: seq<Branch>, last: Token, rest: seq<Token>)
    requires CarriedBranches(bs) && ShapedBranches(bs) && last.kind == EndIf
    ensures var r := ParseBranches(WriteBranches(bs) + [last] + rest); r.0 == bs && r.1 == rest
    decreases bs, 2
  {
    if bs == [] {
      BodyStops(bs, last, rest);
    } else {
      BranchTag(bs[0].condition);
      if bs[0].condition.Some? {
        ParseWrittenElseIf(bs, TagToken(BranchContent(bs[0].condition)), last, rest);
      } else {
        ParseWrittenElse(bs, TagToken(BranchContent(bs[0].condition)), last, rest);
      }
    }
  }

  lemma {:induction false} ParseWrittenElseIf(bs: seq<Branch>, t: Token, last: Token, rest: seq<Token>)
    requires CarriedBranches(bs) && ShapedBranches(bs) && last.kind == EndIf
    requires bs != [] && bs[0].condition.Some? && t == TagToken(BranchContent(bs[0].condition))
    requires t.kind == ElseIf && ParseCondition(t.value) == bs[0].condition.value
    ensures var r := ParseBranches(WriteBranches(bs) + [last] + rest); r.0 == bs && r.1 == rest
    decreases bs, 1
  {
    var body, more := bs[0].body, bs[1..];
    var ts := WriteBranches(bs) + [last] + rest;
    ParseWrittenBody(bs, last, rest);
    Leads(t, WriteNodes(body, IfStops) + WriteBranches(more), [last], rest);
    Inwards(WriteNodes(body, IfStops), WriteBranches(more), [last], rest);
    assert ts[1..] == WriteBody(bs, last) + rest;
    ElseIfParses(ts);
  }

  lemma {:induction false} ParseWrittenElse(bs: seq<Branch>, t: Token, last: Token, rest: seq<Token>)
    requires CarriedBranches(bs) && ShapedBranches(bs) && last.kind == EndIf
    requires bs != [] && bs[0].condition.None? && t == TagToken(BranchContent(None)) && t.kind == Else
    ensures var r := ParseBranches(WriteBranches(bs) + [last] + rest); r.0 == bs && r.1 == rest
    decreases bs, 0
  {
    var body := bs[0].body;
    var ts := WriteBranches(bs) + [last] + rest;
    assert bs[1..] == [];
    assert WriteNodes(body, {EndIf}) + WriteBranches(bs[1..]) == WriteNodes(body, {EndIf});
    Leads(t, WriteNodes(body, {EndIf}), [last], rest);
    ParseWritten(body, [last] + rest, {EndIf});
    ElseParses(ts);
    FirstBranch(bs, None, body);
  }
}
