/** The shape of an AST of the parser, and printing it back to template text. */
module TemplatePrinter {
  import opened Wrappers
  import opened Strings
  import opened TemplateTokens
  import opened TemplateParser

  // ---------------------------------------------------------------------
  // Shape: what an AST of the parser looks like
  // ---------------------------------------------------------------------

  /** An if has a first branch with a condition, and only its last branch may be an else. */
  predicate Shaped(n: Node)
    decreases n
  {
    match n
    case IfNode(branches) =>
      branches != [] && branches[0].condition.Some? && ShapedNodes(branches[0].body) && ShapedBranches(branches[1..])
    case UnlessNode(_, body) => ShapedNodes(body)
    case EachNode(_, _, body) => ShapedNodes(body)
    case _ => true
  }

  predicate ShapedNodes(ns: seq<Node>)
    decreases ns
  {
    ns == [] || (Shaped(ns[0]) && ShapedNodes(ns[1..]))
  }

  predicate ShapedBranches(bs: seq<Branch>)
    decreases bs
  {
    bs == [] ||
    (ShapedNodes(bs[0].body) && (bs[0].condition.None? ==> |bs| == 1) && ShapedBranches(bs[1..]))
  }

  lemma {:induction false} ParsedIsShaped(ts: seq<Token>, stopAt: set<TokenType>)
    ensures ShapedNodes(ParseNodes(ts, stopAt).0)
    decreases |ts|, 0
  {
    if ts != [] && ts[0].kind !in stopAt {
      var (node, rest) := ParseNode(ts[0], ts[1..]);
      ParsedNodeIsShaped(ts[0], ts[1..]);
      ParsedIsShaped(rest, stopAt);
      var nodes := ParseNodes(rest, stopAt).0;
      assert ([node] + nodes)[1..] == nodes;
    }
  }

  lemma {:induction false} ParsedNodeIsShaped(t: Token, ts: seq<Token>)
    ensures Shaped(ParseNode(t, ts).0)
    decreases |ts|, 2
  {
    match t.kind
    case If =>
      ParsedIsShaped(ts, IfStops);
      var rest := ParseNodes(ts, IfStops).1;
      ParsedBranchesAreShaped(rest);
      var branches := ParseIf(t.value, ts).0.branches;
      assert branches[1..] == ParseBranches(rest).0;
    case Unless => ParsedIsShaped(ts, {EndUnless});
    case Each => ParsedIsShaped(ts, {EndEach});
    case _ =>
  }

  lemma {:induction false} ParsedBranchesAreShaped(ts: seq<Token>)
    ensures ShapedBranches(ParseBranches(ts).0)
    decreases |ts|, 0
  {
    if ts != [] && ts[0].kind != EndIf {
      if ts[0].kind == ElseIf {
        ParsedIsShaped(ts[1..], IfStops);
        var rest := ParseNodes(ts[1..], IfStops).1;
        ParsedBranchesAreShaped(rest);
        assert ParseBranches(ts).0[1..] == ParseBranches(rest).0;
      } else if ts[0].kind == Else {
        ParsedIsShaped(ts[1..], {EndIf});
      } else {
        ParsedBranchesAreShaped(ts[1..]);
      }
    }
  }

  // ---------------------------------------------------------------------
  // Printing
  // ---------------------------------------------------------------------

  function ConditionText(c: Condition): string {
    match c.operator
    case Truthy => c.variable
    case Equals => Comparison(c.variable, '=', c.value)
    case Differs => Comparison(c.variable, '!', c.value)
  }

  /** `variable == "value"`, or with `!=` */
  function Comparison(variable: string, op: char, value: string): string {
    variable + [' ', op, '=', ' ', '"'] + value + ['"']
  }

  function EachText(path: seq<string>, item: string): string {
    Join(path, '.') + [' ', 'a', 's', ' '] + item
  }

  /** The token a printed tag is meant to become. */
  function Meant(kind: TokenType, prefix: string, value: string): Token {
    Token(kind, value, OPEN + (prefix + value) + CLOSE)
  }

  const EndIfToken := Token(EndIf, "", OPEN + "/if" + CLOSE)

  function BranchToken(condition: Option<Condition>): Token {
    if condition.Some? then Meant(ElseIf, "else if ", ConditionText(condition.value))
    else Token(Else, "", OPEN + "else" + CLOSE)
  }

  function TokensOf(n: Node): (ts: seq<Token>)
    decreases n
  {
    match n
    case TextNode(value) => [TextToken(value)]
    case VariableNode(path) => [Meant(Variable, "", Join(path, '.'))]
    case PartialNode(name) => [Meant(Partial, "> ", name)]
    case IfNode(branches) =>
      if branches == [] || branches[0].condition.None? then [EndIfToken]
      else [Meant(If, "#if ", ConditionText(branches[0].condition.value))]
           + TokensOfNodes(branches[0].body) + TokensOfBranches(branches[1..]) + [EndIfToken]
    case UnlessNode(variable, body) =>
      [Meant(Unless, "#unless ", variable)] + TokensOfNodes(body) + [Token(EndUnless, "", OPEN + "/unless" + CLOSE)]
    case EachNode(path, item, body) =>
      [Meant(Each, "#each ", EachText(path, item))] + TokensOfNodes(body)
      + [Token(EndEach, "", OPEN + "/each" + CLOSE)]
  }

  function TokensOfNodes(ns: seq<Node>): seq<Token>
    decreases ns
  {
    if ns == [] then [] else TokensOf(ns[0]) + TokensOfNodes(ns[1..])
  }

  function TokensOfBranches(bs: seq<Branch>): seq<Token>
    decreases bs
  {
    if bs == [] then []
    else [BranchToken(bs[0].condition)] + TokensOfNodes(bs[0].body) + TokensOfBranches(bs[1..])
  }

  function Print(ns: seq<Node>): string {
    Raw(TokensOfNodes(ns))
  }
}
