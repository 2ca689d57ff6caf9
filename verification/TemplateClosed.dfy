/**
 * Only closed templates render independently of what follows: a tag or a block left open
 * takes up text of the next template.
 */
module TemplateClosed {
  import opened Sequences
  import opened Wrappers
  import opened Strings
  import opened TemplateTokens
  import opened TemplateParser
  import opened TemplateLeaves
  import opened TemplateEval
  import opened TemplateCompose
  import opened TemplateConcat

  // ---------------------------------------------------------------------
  // Variables that decide a condition
  // ---------------------------------------------------------------------

  function Nest(path: seq<string>, v: Value): Value {
    if path == [] then v else Obj(map[path[0] := Nest(path[1..], v)])
  }

  lemma {:induction false} WalkNest(path: seq<string>, v: Value)
    ensures Walk(Nest(path, v), path) == v
  {
    if path != [] {
      WalkNest(path[1..], v);
    }
  }

  lemma {:induction false} WalkUndefined(path: seq<string>)
    ensures Walk(Undefined, path) == Undefined
  {
    if path != [] {
      WalkUndefined(path[1..]);
    }
  }

  lemma {:induction false} NothingDefined(path: seq<string>)
    requires path != []
    ensures ResolvePath(path, map[]) == Undefined
  {
    WalkUndefined(path[1..]);
  }

  /** Variables under which a path has a value. */
  function Setting(path: seq<string>, v: Value): Variables
    requires path != []
  {
    map[path[0] := Nest(path[1..], v)]
  }

  lemma {:induction false} SettingResolves(path: seq<string>, v: Value)
    requires path != []
    ensures ResolvePath(path, Setting(path, v)) == v
  {
    WalkNest(path[1..], v);
  }

  /** Every condition can be met and can be failed. */
  lemma {:induction false} Decide(c: Condition, holds: bool) returns (variables: Variables)
    ensures Holds(c, variables) == holds
  {
    var path := Split(c.variable, '.');
    var v := match c.operator
      case Truthy => Bool(holds)
      case Equals => Str(if holds then c.value else c.value + "x")
      case Differs => Str(if holds then c.value + "x" else c.value);
    variables := Setting(path, v);
    SettingResolves(path, v);
    Longer(c.value);
  }

  lemma {:induction false} Longer(s: string)
    ensures s + "x" != s
  {
    assert |s + "x"| == |s| + 1;
  }

  // ---------------------------------------------------------------------
  // An open block can hide a text
  // ---------------------------------------------------------------------

  predicate Same(m: Node, n: Node, variables: Variables, partials: Partials) {
    EvalNode(m, variables, partials) == EvalNode(n, variables, partials)
  }

  /** For some variables a text behind tokens that leave a block open is not rendered. */
  lemma {:induction false} NodesHide(ts: seq<Token>, x: Token, partials: Partials) returns (variables: Variables)
    requires x.kind == Text && OpenBlocks([], ts) != []
    ensures EvalNodes(Parse(ts + [x]), variables, partials) == EvalNodes(Parse(ts), variables, partials)
    decreases |ts|
  {
    var t, us := ts[0], ts[1..];
    var q := ParseNode(t, us);
    Uncons(ts, [x]);
    NodeThenMore(t, us, [x], []);
    if RanOut([], ScanKind([], t.kind), us, q.1) {
      variables := NodeHides(t, us, x, partials);
      NodeSwallows(t, us, x, []);
      OneNode(ts, q.0);
      OneNode(ts + [x], ParseNode(t, us + [x]).0);
      EvalOne(q.0, variables, partials);
      EvalOne(ParseNode(t, us + [x]).0, variables, partials);
    } else {
      variables := NodesHide(q.1, x, partials);
      ParseCons(ts, q.0, q.1, {});
      ParseCons(ts + [x], q.0, q.1 + [x], {});
      EvalCons(q.0, Parse(q.1), variables, partials);
      EvalCons(q.0, Parse(q.1 + [x]), variables, partials);
    }
  }

  lemma {:induction false} OneNode(ts: seq<Token>, n: Node)
    requires ts != [] && ParseNode(ts[0], ts[1..]).0 == n && ParseNode(ts[0], ts[1..]).1 == []
    ensures Parse(ts) == [n]
  {
    ParseCons(ts, n, [], {});
    assert ParseNodes([], {}).0 == [];
  }

  lemma {:induction false} EvalCons(n: Node, ns: seq<Node>, variables: Variables, partials: Partials)
    ensures EvalNodes([n] + ns, variables, partials) ==
            Then(EvalNode(n, variables, partials), EvalNodes(ns, variables, partials))
  {
    assert ([n] + ns)[1..] == ns;
  }

  lemma {:induction false} NodeHides(t: Token, us: seq<Token>, x: Token, partials: Partials)
    returns (variables: Variables)
    requires x.kind == Text && RanOut([], ScanKind([], t.kind), us, ParseNode(t, us).1)
    ensures Same(ParseNode(t, us).0, ParseNode(t, us + [x]).0, variables, partials)
  {
    if t.kind == If {
      variables := IfHides(t, us, x, partials);
    } else if t.kind == Unless {
      variables := UnlessHides(t, us, us + [x], partials);
    } else if t.kind == Each {
      variables := EachHides(t, us, us + [x], partials);
    } else {
      variables := map[];
      OtherKind(t, us, us + [x]);
    }
  }

  lemma {:induction false} OtherKind(t: Token, us: seq<Token>, vs: seq<Token>)
    requires t.kind != If && t.kind != Unless && t.kind != Each
    ensures ParseNode(t, us).0 == ParseNode(t, vs).0
  {
  }

  lemma {:induction false} UnlessHides(t: Token, us: seq<Token>, vs: seq<Token>, partials: Partials)
    returns (variables: Variables)
    requires t.kind == Unless
    ensures Same(ParseNode(t, us).0, ParseNode(t, vs).0, variables, partials)
  {
    variables := Setting([Trim(t.value)], Bool(true));
    UnlessParses(t, us);
    UnlessParses(t, vs);
    UnlessSkips(Trim(t.value), ParseNodes(us, {EndUnless}).0, partials);
    UnlessSkips(Trim(t.value), ParseNodes(vs, {EndUnless}).0, partials);
  }

  lemma {:induction false} UnlessSkips(variable: string, body: seq<Node>, partials: Partials)
    ensures EvalNode(UnlessNode(variable, body), Setting([variable], Bool(true)), partials) == Ok("")
  {
    SettingResolves([variable], Bool(true));
  }

  lemma {:induction false} EachHides(t: Token, us: seq<Token>, vs: seq<Token>, partials: Partials)
    returns (variables: Variables)
    requires t.kind == Each
    ensures Same(ParseNode(t, us).0, ParseNode(t, vs).0, variables, partials)
  {
    variables := map[];
    EachParses(t, us);
    EachParses(t, vs);
    EachPath(t.value);
    NothingDefined(ParseEach(t.value).0);
  }

  lemma {:induction false} EachPath(e: string)
    ensures ParseEach(e).0 != []
  {
  }

  /** The branches of an if before and after a text was put behind its tokens. */
  predicate OnlyLastGrows(a: seq<Branch>, b: seq<Branch>, c: Condition) {
    && a != [] && b != [] && a[0].condition == b[0].condition == Some(c)
    && (a[0].body == b[0].body || |a| == |b| == 1)
  }

  lemma {:induction false} BranchesHide(a: seq<Branch>, b: seq<Branch>, c: Condition, partials: Partials)
    returns (variables: Variables)
    requires OnlyLastGrows(a, b, c)
    ensures EvalBranches(a, variables, partials) == EvalBranches(b, variables, partials)
    ensures Same(IfNode(a), IfNode(b), variables, partials)
  {
    if a[0].body == b[0].body {
      variables := Decide(c, true);
      IfRendersChosen(a, 0, variables, partials);
      IfRendersChosen(b, 0, variables, partials);
    } else {
      variables := Decide(c, false);
      IfRendersNothing(a, variables, partials);
      IfRendersNothing(b, variables, partials);
    }
  }

  lemma {:induction false} BodyGrows(c: Condition, us: seq<Token>, x: Token)
    requires x.kind == Text
    ensures OnlyLastGrows(BodyBranches(Some(c), us), BodyBranches(Some(c), us + [x]), c)
  {
    PushPop(InIf, []);
    if ParseNodes(us, IfStops).1 == [] {
      NodesSwallow(us, x, [InIf]);
      OnlyBranch(Some(c), us);
      OnlyBranch(Some(c), us + [x]);
    } else {
      StopThenMore(us, [x], [InIf]);
    }
  }

  lemma {:induction false} IfHides(t: Token, us: seq<Token>, x: Token, partials: Partials)
    returns (variables: Variables)
    requires x.kind == Text && t.kind == If
    ensures Same(ParseNode(t, us).0, ParseNode(t, us + [x]).0, variables, partials)
  {
    var c := ParseCondition(t.value);
    IfParses(t, us);
    IfParses(t, us + [x]);
    BodyGrows(c, us, x);
    variables := BranchesHide(BodyBranches(Some(c), us), BodyBranches(Some(c), us + [x]), c, partials);
  }

  lemma {:induction false} OnlyBranch(c: Option<Condition>, ts: seq<Token>)
    requires ParseNodes(ts, IfStops).1 == []
    ensures |BodyBranches(c, ts)| == 1 && BodyBranches(c, ts)[0].condition == c
  {
  }

  // ---------------------------------------------------------------------
  // Rendering succeeds when all partials do
  // ---------------------------------------------------------------------

  /** Every partial renders as nothing. */
  function Blank(name: string): Result<string, string> {
    Ok("")
  }

  lemma {:induction false} Succeeds(ns: seq<Node>, variables: Variables)
    ensures EvalNodes(ns, variables, Blank).Ok?
    decreases ns, 1, 0
  {
    if ns != [] {
      NodeSucceeds(ns[0], variables);
      Succeeds(ns[1..], variables);
    }
  }

  lemma {:induction false} NodeSucceeds(n: Node, variables: Variables)
    ensures EvalNode(n, variables, Blank).Ok?
    decreases n, 1, 0
  {
    match n
    case IfNode(branches) => BranchesSucceed(branches, variables);
    case UnlessNode(_, body) => Succeeds(body, variables);
    case EachNode(path, item, body) =>
      var v := ResolvePath(path, variables);
      if v.Arr? {
        EachSucceeds(v.items, item, body, variables);
      }
    case _ =>
  }

  lemma {:induction false} BranchesSucceed(bs: seq<Branch>, variables: Variables)
    ensures EvalBranches(bs, variables, Blank).Ok?
    decreases bs, 1, 0
  {
    if bs != [] {
      Succeeds(bs[0].body, variables);
      BranchesSucceed(bs[1..], variables);
    }
  }

  lemma {:induction false} EachSucceeds(items: seq<Value>, item: string, body: seq<Node>, variables: Variables)
    ensures EvalEach(items, item, body, variables, Blank).Ok?
    decreases body, 2, |items|
  {
    if items != [] {
      Succeeds(body, variables[item := items[0]]);
      EachSucceeds(items[1..], item, body, variables);
    }
  }

  // ---------------------------------------------------------------------
  // Texts put behind an unclosed tag
  // ---------------------------------------------------------------------

  lemma {:induction false} StaysUnclosed(rest: string)
    requires !HasTwo(rest, '}', '}')
    ensures !HasTwo(rest + "\n", '}', '}')
  {
    var s := rest + "\n";
    forall k: nat
      ensures !TwoAt(s, '}', '}', k)
    {
      assert !TwoAt(rest, '}', '}', k);
    }
  }

  lemma {:induction false} UnclosedNewline(text: string, rest: string)
    requires !HasTwo(text + "{", '{', '{') && !HasTwo(rest, '}', '}')
    ensures Fine(Tokens(text + OPEN + rest + "\n")) == Fine(Tokens(text + OPEN + rest)) + Chars("\n")
  {
    StaysUnclosed(rest);
    UnclosedFine(text, rest);
    UnclosedFine(text, rest + "\n");
    Associate(text + OPEN, rest, "\n");
    Associate(OPEN, rest, "\n");
    CharsAppend(OPEN + rest, "\n");
    Associate(Chars(text), Chars(OPEN + rest), Chars("\n"));
  }

  lemma {:induction false} UnclosedFine(text: string, rest: string)
    requires !HasTwo(text + "{", '{', '{') && !HasTwo(rest, '}', '}')
    ensures Fine(Tokens(text + OPEN + rest)) == Chars(text) + Chars(OPEN + rest)
  {
    TokensUnclosed(text, rest);
    FineLeading(text, [TextToken(OPEN + rest)]);
    FineOne(OPEN + rest);
  }

  lemma {:induction false} FineOne(s: string)
    ensures Fine([TextToken(s)]) == Chars(s)
  {
    assert [TextToken(s)][1..] == [] && Chars(s) + [] == Chars(s);
  }

  lemma {:induction false} NewlineFine()
    ensures Fine(Tokens("\n")) == Chars("\n") == [TextToken("\n")]
  {
    TokensPlain("\n");
    FineOne("\n");
    assert "\n"[..1] == "\n" && "\n"[1..] == "";
    assert Chars("") == [];
  }

  /** Whatever is open, a newline at the end becomes a text of its own. */
  lemma {:induction false} FineNewline(p: string)
    ensures Fine(Tokens(p + "\n")) == Fine(Tokens(p)) + [TextToken("\n")]
    decreases |p|
  {
    NewlineFine();
    if TagsClosed(p) {
      TokensJoin(p, "\n");
    } else {
      var text, rest := CutAt(p, '{').head, CutAt(p, '{').tail;
      CutClean(p, '{');
      match CutAt(rest, '}')
      case Whole => UnclosedNewline(text, rest);
      case Before(content, after) =>
        FineNewline(after);
        CutClean(rest, '}');
        TagJoin(text, content, after, "\n");
        RegroupText(text, content, after, "\n");
    }
  }

  /** Text that closes no tag, but may end one. */
  predicate Inside(more: string) {
    more != "" && '}' !in more
  }

  lemma {:induction false} ContentGoesOn(rest: string, more: string)
    requires !HasTwo(rest, '}', '}') && Inside(more)
    ensures !HasTwo(rest + more + "}", '}', '}')
  {
    var s := rest + more + "}";
    assert |s| == |rest| + |more| + 1 && forall k | 0 <= k < |rest| :: s[k] == rest[k];
    assert forall k | 0 <= k < |more| :: s[|rest| + k] == more[k];
    forall k: nat
      ensures !TwoAt(s, '}', '}', k)
    {
      assert !TwoAt(rest, '}', '}', k);
    }
  }

  lemma {:induction false} TailCloses(text: string, rest: string, more: string)
    requires !HasTwo(text + "{", '{', '{') && !HasTwo(rest, '}', '}') && Inside(more)
    ensures Fine(Tokens(text + OPEN + rest + (more + CLOSE))) == Chars(text) + [TagToken(rest + more)]
  {
    ContentGoesOn(rest, more);
    BehindTag(text, rest + more, "", []);
    RegroupTail(text, rest, more);
    assert Chars(text) + [TagToken(rest + more)] + [] == Chars(text) + [TagToken(rest + more)];
  }

  lemma {:induction false} RegroupTail(text: string, rest: string, more: string)
    ensures text + OPEN + rest + (more + CLOSE) == text + OPEN + (rest + more + CLOSE + "")
  {
  }

  /** The tokens before an unclosed tag, and its text; closing it later makes it a tag. */
  lemma {:induction false} UnclosedTag(p: string, more: string) returns (before: seq<Token>, rest: string)
    requires !TagsClosed(p) && Inside(more)
    ensures Fine(Tokens(p)) == before + Chars(OPEN + rest)
    ensures Fine(Tokens(p + (more + CLOSE))) == before + [TagToken(rest + more)]
    decreases |p|
  {
    var text := CutAt(p, '{').head;
    rest := CutAt(p, '{').tail;
    CutClean(p, '{');
    match CutAt(rest, '}')
    case Whole =>
      before := Chars(text);
      UnclosedFine(text, rest);
      TailCloses(text, rest, more);
    case Before(content, after) =>
      CutClean(rest, '}');
      var head := Chars(text) + [TagToken(content)];
      before, rest := UnclosedTag(after, more);
      BehindTag(text, content, after, before + Chars(OPEN + rest));
      BehindTag(text, content, after + (more + CLOSE), before + [TagToken(rest + more)]);
      RegroupText(text, content, after, more + CLOSE);
      Associate(head, before, Chars(OPEN + rest));
      Associate(head, before, [TagToken(rest + more)]);
      before := head + before;
  }

  lemma {:induction false} BehindTag(text: string, content: string, after: string, ts: seq<Token>)
    requires !HasTwo(text + "{", '{', '{') && !HasTwo(content + "}", '}', '}') && Fine(Tokens(after)) == ts
    ensures Fine(Tokens(text + OPEN + (content + CLOSE + after))) == Chars(text) + [TagToken(content)] + ts
  {
    FineTag(text, content, after);
    Associate(Chars(text), [TagToken(content)], ts);
  }

  /** A tag alone renders as nothing or, if it does not belong there, as itself. */
  lemma {:induction false} TagAlone(t: Token)
    requires t.kind != Text
    ensures EvalNodes(Parse([t]), map[], Blank) in {Ok(""), Ok(t.raw)}
  {
    NodeAlone(t);
    assert [t][1..] == [];
    OneNode([t], ParseNode(t, []).0);
    EvalOne(ParseNode(t, []).0, map[], Blank);
  }

  lemma {:induction false} NodeAlone(t: Token)
    requires t.kind != Text
    ensures ParseNode(t, []).1 == [] && EvalNode(ParseNode(t, []).0, map[], Blank) in {Ok(""), Ok(t.raw)}
  {
    if t.kind == If {
      IfAloneIsBlank(t);
    } else if t.kind == Unless {
      UnlessAloneIsBlank(t);
    } else if t.kind == Each {
      EachAloneIsBlank(t);
    } else if t.kind == Variable {
      VariableAloneIsBlank(t);
    } else if t.kind != Partial {
      StrayAlone(t);
    }
  }

  lemma {:induction false} StrayAlone(t: Token)
    requires t.kind in {ElseIf, Else, EndIf, EndUnless, EndEach}
    ensures ParseNode(t, []).0 == TextNode(t.raw) && ParseNode(t, []).1 == []
  {
  }

  lemma {:induction false} VariableAloneIsBlank(t: Token)
    requires t.kind == Variable
    ensures ParseNode(t, []).1 == [] && EvalNode(ParseNode(t, []).0, map[], Blank) == Ok("")
  {
    NothingDefined(Split(t.value, '.'));
  }

  lemma {:induction false} NothingParsed(stopAt: set<TokenType>)
    ensures ParseNodes([], stopAt).0 == [] && ParseNodes([], stopAt).1 == []
  {
  }

  lemma {:induction false} UnlessAloneIsBlank(t: Token)
    requires t.kind == Unless
    ensures ParseNode(t, []).1 == [] && EvalNode(ParseNode(t, []).0, map[], Blank) == Ok("")
  {
    UnlessParses(t, []);
    NothingParsed({EndUnless});
  }

  lemma {:induction false} EachAloneIsBlank(t: Token)
    requires t.kind == Each
    ensures ParseNode(t, []).1 == [] && EvalNode(ParseNode(t, []).0, map[], Blank) == Ok("")
  {
    EachParses(t, []);
    NothingParsed({EndEach});
    EachPath(t.value);
    NothingToLoop(ParseEach(t.value).0, ParseEach(t.value).1);
  }

  lemma {:induction false} NothingToLoop(path: seq<string>, item: string)
    requires path != []
    ensures EvalNode(EachNode(path, item, []), map[], Blank) == Ok("")
  {
    NothingDefined(path);
  }

  lemma {:induction false} EmptyBranch(c: Condition)
    ensures EvalNode(IfNode([Branch(Some(c), [])]), map[], Blank) == Ok("")
  {
    var bs := [Branch(Some(c), [])];
    assert bs[1..] == [];
    assert EvalNodes([], map[], Blank) == Ok("") && EvalBranches([], map[], Blank) == Ok("");
    assert EvalBranches(bs, map[], Blank) == Ok("");
  }

  lemma {:induction false} NoBranches(c: Condition)
    ensures BodyBranches(Some(c), []) == [Branch(Some(c), [])] && AfterBody([]) == []
  {
    NothingParsed(IfStops);
  }

  lemma {:induction false} IfAloneIsBlank(t: Token)
    requires t.kind == If
    ensures ParseNode(t, []).1 == [] && EvalNode(ParseNode(t, []).0, map[], Blank) == Ok("")
  {
    var c := ParseCondition(t.value);
    IfParses(t, []);
    NoBranches(c);
    EmptyBranch(c);
  }

  // ---------------------------------------------------------------------
  // The condition is exact
  // ---------------------------------------------------------------------

  /** The two templates render one after the other, with a newline between. */
  ghost predicate InTurn(p: string, c: string, variables: Variables, partials: Partials) {
    Render(p + "\n" + c, variables, partials) ==
    Then(Then(Render(p, variables, partials), Ok("\n")), Render(c, variables, partials))
  }

  lemma {:induction false} RenderNothing(variables: Variables, partials: Partials)
    ensures Render("", variables, partials) == Ok("")
  {
  }

  lemma {:induction false} NewlineRenders(p: string, variables: Variables)
    requires InTurn(p, "", variables, Blank)
    ensures Render(p + "\n", variables, Blank) != Render(p, variables, Blank)
  {
    var a := Render(p, variables, Blank);
    RenderNothing(variables, Blank);
    Succeeds(Parse(Tokens(p)), variables);
    assert p + "\n" + "" == p + "\n";
    assert |a.value + "\n" + ""| == |a.value| + 1;
  }

  /** An open block hides the newline for some variables. */
  lemma {:induction false} BlocksNeeded(p: string) returns (variables: Variables)
    requires OpenBlocks([], Tokens(p)) != []
    ensures !InTurn(p, "", variables, Blank)
  {
    var x := TextToken("\n");
    OpenFine([], Tokens(p));
    FineNewline(p);
    variables := NodesHide(Fine(Tokens(p)), x, Blank);
    RenderFine(p, variables, Blank);
    RenderFine(p + "\n", variables, Blank);
    if InTurn(p, "", variables, Blank) {
      NewlineRenders(p, variables);
    }
  }

  lemma {:induction false} CharsRender(v: string)
    ensures EvalNodes(Parse(Chars(v)), map[], Blank) == Ok(v)
  {
    ParseChars(v, [], {});
    assert Chars(v) + [] == Chars(v) && CharNodes(v) + [] == CharNodes(v);
    NothingParsed({});
    EvalChars(v, map[], Blank);
  }

  /** Closed tokens in front render first. */
  lemma {:induction false} RendersBehind(s: string, before: seq<Token>, ts: seq<Token>)
    requires Fine(Tokens(s)) == before + ts && OpenBlocks([], before) == []
    ensures Render(s, map[], Blank) ==
            Then(EvalNodes(Parse(before), map[], Blank), EvalNodes(Parse(ts), map[], Blank))
  {
    RenderFine(s, map[], Blank);
    ParseConcat(before, ts);
    EvalAppend(Parse(before), Parse(ts), map[], Blank);
  }

  /** A variable without a value. */
  lemma {:induction false} LetterRenders(c: string)
    requires |c| == 1 && c[0] == 'y'
    ensures Render(OPEN + c + CLOSE, map[], Blank) == Ok("")
  {
    assert !IsSpace('y');
    LetterIsVariable(c);
    NoPair(c);
    TokensTag("", c, "");
    RegroupTag(c);
    var t := TagToken(c);
    assert Tokens(OPEN + c + CLOSE) == [t];
    VariableAloneIsBlank(t);
    assert [t][1..] == [];
    OneNode([t], ParseNode(t, []).0);
    EvalOne(ParseNode(t, []).0, map[], Blank);
  }

  lemma {:induction false} NoPair(c: string)
    requires |c| == 1 && c[0] == 'y'
    ensures !HasTwo("" + "{", '{', '{') && !HasTwo(c + "}", '}', '}')
  {
  }

  lemma {:induction false} RegroupTag(c: string)
    ensures "" + OPEN + (c + CLOSE + "") == OPEN + c + CLOSE
  {
  }

  lemma {:induction false} RegroupChild(p: string, c: string)
    ensures p + "\n" + (OPEN + c + CLOSE) == p + (("\n" + OPEN + c) + CLOSE)
  {
  }

  lemma {:induction false} Lengths(a: string, v: string, raw: string)
    requires |raw| > |v| + 1
    ensures a + "" != a + v + "\n" + "" && a + raw != a + v + "\n" + ""
  {
    assert |a + v + "\n" + ""| == |a| + |v| + 1;
    assert |a + raw| == |a| + |raw| && |a + ""| == |a|;
  }

  /** An unclosed tag takes up the beginning of the next one. */
  lemma {:induction false} TagsNeeded(p: string, c: string)
    requires !TagsClosed(p) && OpenBlocks([], Tokens(p)) == [] && |c| == 1 && c[0] == 'y'
    ensures !InTurn(p, OPEN + c + CLOSE, map[], Blank)
  {
    var more := "\n" + OPEN + c;
    var before, rest := UnclosedTag(p, more);
    var v, t := OPEN + rest, TagToken(rest + more);
    OpenFine([], Tokens(p));
    OpenAppend([], before, Chars(v));
    OpenChars(OpenBlocks([], before), v);
    RegroupChild(p, c);
    RendersBehind(p, before, Chars(v));
    RendersBehind(p + "\n" + (OPEN + c + CLOSE), before, [t]);
    CharsRender(v);
    TagAlone(t);
    LetterRenders(c);
    Succeeds(Parse(before), map[]);
    Lengths(EvalNodes(Parse(before), map[], Blank).value, v, t.raw);
  }

  ghost predicate AlwaysInTurn(p: string) {
    forall c, variables, partials :: InTurn(p, c, variables, partials)
  }

  lemma {:induction false} ClosedNeeded(p: string)
    requires !ClosedTemplate(p)
    ensures !AlwaysInTurn(p)
  {
    if OpenBlocks([], Tokens(p)) != [] {
      OpenBlockShows(p);
    } else {
      OpenTagShows(p, "y");
    }
  }

  lemma {:induction false} OpenBlockShows(p: string)
    requires OpenBlocks([], Tokens(p)) != []
    ensures !AlwaysInTurn(p)
  {
    var variables := BlocksNeeded(p);
    Counterexample(p, "", variables, Blank);
  }

  lemma {:induction false} Counterexample(p: string, c: string, variables: Variables, partials: Partials)
    requires !InTurn(p, c, variables, partials)
    ensures !AlwaysInTurn(p)
  {
  }

  lemma {:induction false} OpenTagShows(p: string, c: string)
    requires !TagsClosed(p) && OpenBlocks([], Tokens(p)) == [] && |c| == 1 && c[0] == 'y'
    ensures !AlwaysInTurn(p)
  {
    TagsNeeded(p, c);
    Counterexample(p, OPEN + c + CLOSE, map[], Blank);
  }

  /**
   * A template and whatever is put below it render one after the other, for all
   * variables and partials, if and only if the template closes its tags and blocks.
   */
  lemma {:induction false} RenderConcatIff(p: string)
    ensures ClosedTemplate(p) <==> forall c, variables, partials :: InTurn(p, c, variables, partials)
  {
    if ClosedTemplate(p) {
      forall c, variables, partials
        ensures InTurn(p, c, variables, partials)
      {
        RenderConcat(p, c, variables, partials);
      }
    } else {
      ClosedNeeded(p);
    }
  }
}
