/** The AST and the block parser of packages/prompt/src/renderer.ts. */
module TemplateParser {
  import opened Sequences
  import opened Wrappers
  import opened Strings
  import opened TemplateTokens

  datatype Operator = Truthy | Equals | Differs

  /** `value` is "" for the truthy operator, where the source has none. */
  datatype Condition = Condition(variable: string, operator: Operator, value: string)

  /** A branch without a condition is an else branch. */
  datatype Branch = Branch(condition: Option<Condition>, body: seq<Node>)

  datatype Node =
    | TextNode(value: string)
    | VariableNode(path: seq<string>)
    | PartialNode(name: string)
    | IfNode(branches: seq<Branch>)
    | UnlessNode(variable: string, body: seq<Node>)
    | EachNode(arrayPath: seq<string>, itemName: string, body: seq<Node>)

  // ---------------------------------------------------------------------
  // Tag expressions
  // ---------------------------------------------------------------------

  function StripQuotes(s: string): string {
    if s != "" && s[0] == s[|s| - 1] && (s[0] == '"' || s[0] == '\'') then
      if |s| >= 2 then s[1..|s| - 1] else ""
    else s
  }

  /** The operator of a condition and the texts on its two sides. */
  function ConditionParts(expr: string): (r: (Operator, string, string)) {
    var eq := IndexOfTwo(expr, '=', '=');
    if eq.Some? && (eq.value == 0 || expr[eq.value - 1] != '!') then
      (Equals, expr[..eq.value], expr[eq.value + 2..])
    else
      var neq := IndexOfTwo(expr, '!', '=');
      if neq.Some? then (Differs, expr[..neq.value], expr[neq.value + 2..])
      else (Truthy, expr, "")
  }

  function ParseCondition(expr: string): Condition {
    var (operator, left, right) := ConditionParts(expr);
    Condition(Trim(left), operator, StripQuotes(Trim(right)))
  }

  /** " as " occurs at `k`. */
  predicate AsAt(s: string, k: nat) {
    k + 3 < |s| && s[k] == ' ' && s[k + 1] == 'a' && s[k + 2] == 's' && s[k + 3] == ' '
  }

  predicate HasAs(s: string) {
    exists k: nat | k < |s| :: AsAt(s, k)
  }

  predicate FirstAs(s: string, k: nat) {
    AsAt(s, k) && forall j: nat | j < k :: !AsAt(s, j)
  }

  lemma {:induction false} FirstAsExists(s: string, n: nat)
    requires AsAt(s, n)
    ensures exists k: nat | k < |s| :: FirstAs(s, k)
  {
    if j: nat :| j < n && AsAt(s, j) {
      FirstAsExists(s, j);
    } else {
      assert FirstAs(s, n);
    }
  }

  /** `s.indexOf(" as ")` */
  function IndexOfAs(s: string): (r: Option<nat>)
    ensures r.Some? <==> HasAs(s)
    ensures r.Some? ==> FirstAs(s, r.value)
  {
    if HasAs(s) then
      assert exists k: nat | k < |s| :: FirstAs(s, k) by {
        var n: nat :| n < |s| && AsAt(s, n);
        FirstAsExists(s, n);
      }
      var k: nat :| k < |s| && FirstAs(s, k);
      Some(k)
    else None
  }

  /** The array path and the item name of an each block. */
  function ParseEach(expr: string): (seq<string>, string) {
    match IndexOfAs(expr)
    case None => (Split(Trim(expr), '.'), "item")
    case Some(k) => (Split(Trim(expr[..k]), '.'), Trim(expr[k + 4..]))
  }

  // ---------------------------------------------------------------------
  // What the parser returns: the nodes read, and the tokens left
  // ---------------------------------------------------------------------

  const IfStops: set<TokenType> := {ElseIf, Else, EndIf}

  /** The kinds that only mean something inside a block. */
  const Ends: set<TokenType> := {ElseIf, Else, EndIf, EndUnless, EndEach}

  function ParseNodes(ts: seq<Token>, stopAt: set<TokenType>): (r: (seq<Node>, seq<Token>))
    ensures |r.1| <= |ts|
    ensures r.1 == [] || r.1[0].kind in stopAt
    decreases |ts|, 0
  {
    if ts == [] || ts[0].kind in stopAt then ([], ts)
    else
      var (node, rest) := ParseNode(ts[0], ts[1..]);
      var (nodes, rest') := ParseNodes(rest, stopAt);
      ([node] + nodes, rest')
  }

  /** The node that begins with `t`, which has been consumed. */
  function ParseNode(t: Token, ts: seq<Token>): (r: (Node, seq<Token>))
    ensures |r.1| <= |ts|
    decreases |ts|, 2
  {
    match t.kind
    case Text => (TextNode(t.value), ts)
    case Variable => (VariableNode(Split(t.value, '.')), ts)
    case Partial => (PartialNode(t.value), ts)
    case If => ParseIf(t.value, ts)
    case Unless =>
      var (body, rest) := ParseNodes(ts, {EndUnless});
      (UnlessNode(Trim(t.value), body), Skip(EndUnless, rest))
    case Each =>
      var (path, item) := ParseEach(t.value);
      var (body, rest) := ParseNodes(ts, {EndEach});
      (EachNode(path, item, body), Skip(EndEach, rest))
    case _ => (TextNode(t.raw), ts)
  }

  function ParseIf(condExpr: string, ts: seq<Token>): (r: (Node, seq<Token>))
    ensures |r.1| <= |ts|
    decreases |ts|, 1
  {
    var (body, rest) := ParseNodes(ts, IfStops);
    var (branches, rest') := ParseBranches(rest);
    (IfNode([Branch(Some(ParseCondition(condExpr)), body)] + branches), rest')
  }

  /** The branches after the first, up to and including the end of the block. */
  function ParseBranches(ts: seq<Token>): (r: (seq<Branch>, seq<Token>))
    ensures |r.1| <= |ts|
    decreases |ts|, 0
  {
    if ts == [] then ([], [])
    else if ts[0].kind == EndIf then ([], ts[1..])
    else if ts[0].kind == ElseIf then
      var (body, rest) := ParseNodes(ts[1..], IfStops);
      var (branches, rest') := ParseBranches(rest);
      ([Branch(Some(ParseCondition(ts[0].value)), body)] + branches, rest')
    else if ts[0].kind == Else then
      var (body, rest) := ParseNodes(ts[1..], {EndIf});
      ([Branch(None, body)], Skip(EndIf, rest))
    else ParseBranches(ts[1..])
  }

  function Skip(kind: TokenType, ts: seq<Token>): (r: seq<Token>)
    ensures |r| <= |ts|
  {
    if ts != [] && ts[0].kind == kind then ts[1..] else ts
  }

  /** The whole template: at top level nothing stops the parser. */
  function Parse(ts: seq<Token>): seq<Node> {
    ParseNodes(ts, {}).0
  }

  /** However badly the tokens nest, parsing them all consumes them all. */
  lemma {:induction false} ParseConsumesAll(ts: seq<Token>)
    ensures ParseNodes(ts, {}).1 == []
  {
  }

  lemma {:induction false} ParseCons(ts: seq<Token>, n: Node, us: seq<Token>, stopAt: set<TokenType>)
    requires ts != [] && ts[0].kind !in stopAt && ParseNode(ts[0], ts[1..]).0 == n && ParseNode(ts[0], ts[1..]).1 == us
    ensures ParseNodes(ts, stopAt).0 == [n] + ParseNodes(us, stopAt).0
    ensures ParseNodes(ts, stopAt).1 == ParseNodes(us, stopAt).1
  {
  }

  /** A conditional body and the branches after it. */
  function BodyBranches(c: Option<Condition>, ts: seq<Token>): seq<Branch> {
    var r := ParseNodes(ts, IfStops);
    [Branch(c, r.0)] + ParseBranches(r.1).0
  }

  function AfterBody(ts: seq<Token>): seq<Token> {
    ParseBranches(ParseNodes(ts, IfStops).1).1
  }

  lemma {:induction false} IfParses(t: Token, ts: seq<Token>)
    requires t.kind == If
    ensures ParseNode(t, ts).0 == IfNode(BodyBranches(Some(ParseCondition(t.value)), ts))
    ensures ParseNode(t, ts).1 == AfterBody(ts)
  {
  }

  lemma {:induction false} ElseIfParses(ts: seq<Token>)
    requires ts != [] && ts[0].kind == ElseIf
    ensures ParseBranches(ts).0 == BodyBranches(Some(ParseCondition(ts[0].value)), ts[1..])
    ensures ParseBranches(ts).1 == AfterBody(ts[1..])
  {
  }

  lemma {:induction false} ElseParses(ts: seq<Token>)
    requires ts != [] && ts[0].kind == Else
    ensures var r := ParseNodes(ts[1..], {EndIf});
            ParseBranches(ts).0 == [Branch(None, r.0)] && ParseBranches(ts).1 == Skip(EndIf, r.1)
  {
  }

  lemma {:induction false} UnlessParses(t: Token, ts: seq<Token>)
    requires t.kind == Unless
    ensures var r := ParseNodes(ts, {EndUnless});
            ParseNode(t, ts).0 == UnlessNode(Trim(t.value), r.0) && ParseNode(t, ts).1 == Skip(EndUnless, r.1)
  {
  }

  lemma {:induction false} EachParses(t: Token, ts: seq<Token>)
    requires t.kind == Each
    ensures var head, r := ParseEach(t.value), ParseNodes(ts, {EndEach});
            ParseNode(t, ts).0 == EachNode(head.0, head.1, r.0) && ParseNode(t, ts).1 == Skip(EndEach, r.1)
  {
  }

  // ---------------------------------------------------------------------
  // The parser as the source writes it
  // ---------------------------------------------------------------------

  class ParserState {
    const tokens: seq<Token>
    var pos: nat

    constructor (tokens: seq<Token>)
      ensures this.tokens == tokens && pos == 0
    {
      this.tokens, pos := tokens, 0;
    }

    ghost predicate Valid()
      reads this
    {
      pos <= |tokens|
    }

    function Rest(): seq<Token>
      reads this
      requires Valid()
    {
      tokens[pos..]
    }

    method ReadNodes(stopAt: set<TokenType>) returns (nodes: seq<Node>)
      requires Valid()
      modifies this
      ensures Valid() && old(pos) <= pos
      ensures nodes == ParseNodes(old(Rest()), stopAt).0 && Rest() == ParseNodes(old(Rest()), stopAt).1
      decreases |tokens| - pos, 0
    {
      nodes := [];
      while pos < |tokens| && tokens[pos].kind !in stopAt
        invariant Valid() && old(pos) <= pos
        invariant nodes + ParseNodes(Rest(), stopAt).0 == ParseNodes(old(Rest()), stopAt).0
        invariant ParseNodes(Rest(), stopAt).1 == ParseNodes(old(Rest()), stopAt).1
        decreases |tokens| - pos
      {
        ghost var before := Rest();
        var token := tokens[pos];
        pos := pos + 1;
        assert before[1..] == Rest();
        var node := ReadNode(token);
        Middle(nodes, node, ParseNodes(Rest(), stopAt).0);
        nodes := nodes + [node];
      }
    }

    method ReadNode(token: Token) returns (node: Node)
      requires Valid()
      modifies this
      ensures Valid() && old(pos) <= pos
      ensures node == ParseNode(token, old(Rest())).0 && Rest() == ParseNode(token, old(Rest())).1
      decreases |tokens| - pos, 2
    {
      match token.kind
      case Text => node := TextNode(token.value);
      case Variable => node := VariableNode(Split(token.value, '.'));
      case Partial => node := PartialNode(token.value);
      case If => node := ReadIfBlock(token.value);
      case Unless => node := ReadUnlessBlock(token.value);
      case Each => node := ReadEachBlock(token.value);
      case _ => node := TextNode(token.raw);
    }

    method SkipEnd(kind: TokenType)
      requires Valid()
      modifies this
      ensures Valid() && old(pos) <= pos && Rest() == Skip(kind, old(Rest()))
    {
      if pos < |tokens| && tokens[pos].kind == kind {
        assert Rest()[1..] == tokens[pos + 1..];
        pos := pos + 1;
      }
    }

    method ReadIfBlock(condExpr: string) returns (node: Node)
      requires Valid()
      modifies this
      ensures Valid() && old(pos) <= pos
      ensures node == ParseIf(condExpr, old(Rest())).0 && Rest() == ParseIf(condExpr, old(Rest())).1
      decreases |tokens| - pos, 1
    {
      var body := ReadNodes(IfStops);
      var first := Branch(Some(ParseCondition(condExpr)), body);
      var branches := ReadBranches();
      node := IfNode([first] + branches);
    }

    /** The loop of `parseIfBlock` over else-if, else and end. */
    method ReadBranches() returns (branches: seq<Branch>)
      requires Valid()
      modifies this
      ensures Valid() && old(pos) <= pos
      ensures branches == ParseBranches(old(Rest())).0 && Rest() == ParseBranches(old(Rest())).1
      decreases |tokens| - pos, 0
    {
      branches := [];
      var open := true;
      ghost var before := Rest();
      while open && pos < |tokens|
        invariant Valid() && old(pos) <= pos
        invariant branches + (if open then ParseBranches(Rest()).0 else []) == ParseBranches(before).0
        invariant (if open then ParseBranches(Rest()).1 else Rest()) == ParseBranches(before).1
        decreases |tokens| - pos
      {
        ghost var now := Rest();
        var token := tokens[pos];
        pos := pos + 1;
        assert now[1..] == Rest();
        if token.kind == EndIf {
          open := false;
        } else if token.kind == ElseIf {
          var body := ReadNodes(IfStops);
          var branch := Branch(Some(ParseCondition(token.value)), body);
          Middle(branches, branch, ParseBranches(Rest()).0);
          branches := branches + [branch];
        } else if token.kind == Else {
          var body := ReadNodes({EndIf});
          SkipEnd(EndIf);
          branches := branches + [Branch(None, body)];
          open := false;
        }
      }
    }

    method ReadUnlessBlock(variable: string) returns (node: Node)
      requires Valid()
      modifies this
      ensures Valid() && old(pos) <= pos
      ensures var (body, rest) := ParseNodes(old(Rest()), {EndUnless});
              node == UnlessNode(Trim(variable), body) && Rest() == Skip(EndUnless, rest)
      decreases |tokens| - pos, 1
    {
      var body := ReadNodes({EndUnless});
      SkipEnd(EndUnless);
      node := UnlessNode(Trim(variable), body);
    }

    method ReadEachBlock(expr: string) returns (node: Node)
      requires Valid()
      modifies this
      ensures Valid() && old(pos) <= pos
      ensures var (path, item) := ParseEach(expr);
              var (body, rest) := ParseNodes(old(Rest()), {EndEach});
              node == EachNode(path, item, body) && Rest() == Skip(EndEach, rest)
      decreases |tokens| - pos, 1
    {
      var (path, item) := ParseEach(expr);
      var body := ReadNodes({EndEach});
      SkipEnd(EndEach);
      node := EachNode(path, item, body);
    }
  }

  /** Reading a whole template: tokenize, then parse. */
  method ReadTemplate(template: string) returns (nodes: seq<Node>)
    ensures nodes == Parse(Tokens(template))
  {
    var tokens := Tokenize(template);
    var state := new ParserState(tokens);
    nodes := state.ReadNodes({});
  }
}
