/**
 * The exact conditions under which the conditions and paths of an AST are read back from
 * their printed text, and what the keywords of tags make of it.
 */
module TemplateLeaves {
  import opened Wrappers
  import opened Strings
  import opened TemplateTokens
  import opened TemplateParser
  import opened TemplatePrinter

  // ---------------------------------------------------------------------
  // Conditions
  // ---------------------------------------------------------------------

  /** The first "==" of a value, if any, is the end of a "!==". */
  predicate HidesEquals(x: string) {
    var k := IndexOfTwo(x, '=', '=');
    k.Some? ==> k.value > 0 && x[k.value - 1] == '!'
  }

  predicate ConditionKept(c: Condition) {
    && Trimmed(c.variable)
    && !HasTwo(c.variable, '=', '=')
    && (!c.operator.Equals? ==> !HasTwo(c.variable, '!', '='))
    && (c.operator.Differs? ==> HidesEquals(c.value))
    && (c.operator.Truthy? ==> c.value == "")
  }

  /** Where an operator that ends in "=" occurs in a printed comparison. */
  lemma {:induction false} OperatorsIn(v: string, op: char, x: string, a: char, j: nat)
    requires a == '=' || a == '!'
    requires op == '=' || op == '!'
    ensures TwoAt(Comparison(v, op, x), a, '=', j) <==>
            || TwoAt(v, a, '=', j)
            || (j == |v| + 1 && a == op)
            || (j >= |v| + 5 && TwoAt(x, a, '=', j - |v| - 5))
  {
    var s := Comparison(v, op, x);
    assert |s| == |v| + 5 + |x| + 1;
    assert forall i | 0 <= i < |v| :: s[i] == v[i];
    assert s[|v|] == ' ' && s[|v| + 1] == op && s[|v| + 2] == '=' && s[|v| + 3] == ' ' && s[|v| + 4] == '"';
    assert forall i | 0 <= i < |x| :: s[|v| + 5 + i] == x[i];
    assert s[|s| - 1] == '"';
    if j >= |v| + 5 && j + 1 < |s| {
      assert s[j] == if j - |v| - 5 < |x| then x[j - |v| - 5] else '"';
      assert s[j + 1] == if j + 1 - |v| - 5 < |x| then x[j + 1 - |v| - 5] else '"';
    }
  }

  lemma {:induction false} TrimSpaceAfter(v: string)
    ensures Trim(v + " ") == Trim(v)
    decreases |v|
  {
    if v == "" {
      assert v + " " == " " && " "[1..] == "";
    } else if IsSpace(v[0]) {
      assert (v + " ")[1..] == v[1..] + " ";
      TrimSpaceAfter(v[1..]);
    } else {
      NothingInFront(v);
      NothingInFront(v + " ");
      assert (v + " ")[..|v + " "| - 1] == v;
    }
  }

  lemma {:induction false} TrimSpaceBefore(s: string)
    requires s != "" && Trimmed(s)
    ensures Trim(" " + s) == s
  {
    assert (" " + s)[1..] == s;
    TrimIsTrimmed(s);
  }

  /** The pieces around the operator of a printed comparison. */
  lemma {:induction false} Pieces(v: string, op: char, x: string)
    ensures var s := Comparison(v, op, x);
            |v| + 3 <= |s| && s[|v|] == ' ' && s[..|v| + 1] == v + " " && s[|v| + 3..] == " " + ("\"" + x + "\"")
  {
  }

  lemma {:induction false} ReadVariablePiece(v: string)
    ensures Trim(v + " ") == v <==> Trimmed(v)
  {
    TrimSpaceAfter(v);
    TrimIsTrimmed(v);
  }

  lemma {:induction false} ReadValuePiece(x: string)
    ensures StripQuotes(Trim(" " + ("\"" + x + "\""))) == x
  {
    var q := "\"" + x + "\"";
    TrimSpaceBefore(q);
    assert q[1..|q| - 1] == x;
  }

  /** The first operator of a comparison is its own unless the variable contains one. */
  lemma {:induction false} FirstOperator(v: string, op: char, x: string)
    requires op == '=' || op == '!'
    ensures HasTwo(v, op, '=') ==> IndexOfTwo(Comparison(v, op, x), op, '=') == IndexOfTwo(v, op, '=')
    ensures !HasTwo(v, op, '=') ==> IndexOfTwo(Comparison(v, op, x), op, '=') == Some(|v| + 1)
  {
    var s := Comparison(v, op, x);
    forall j: nat
      ensures TwoAt(s, op, '=', j) <==> TwoAt(v, op, '=', j) || (j == |v| + 1) ||
                                        (j >= |v| + 5 && TwoAt(x, op, '=', j - |v| - 5))
    {
      OperatorsIn(v, op, x, op, j);
    }
    if HasTwo(v, op, '=') {
      IndexOfTwoIs(s, op, '=', IndexOfTwo(v, op, '=').value);
    } else {
      IndexOfTwoIs(s, op, '=', |v| + 1);
    }
  }

  lemma {:induction false} EqualsParts(v: string, x: string)
    ensures var r := ConditionParts(Comparison(v, '=', x));
            if HasTwo(v, '=', '=') then r.0 != Equals || |r.1| < |v|
            else r.0 == Equals && r.1 == v + " " && r.2 == " " + ("\"" + x + "\"")
  {
    FirstOperator(v, '=', x);
    Pieces(v, '=', x);
  }

  /** The first "==" of a printed inequality, if any, is taken for the operator unless it ends a "!==". */
  lemma {:induction false} EqualsBeforeDiffers(v: string, x: string)
    ensures var s := Comparison(v, '!', x);
            var eq := IndexOfTwo(s, '=', '=');
            && (HasTwo(v, '=', '=') ==>
                  eq == IndexOfTwo(v, '=', '=') && (eq.value > 0 ==> s[eq.value - 1] == v[eq.value - 1]))
            && (!HasTwo(v, '=', '=') ==>
                  (HidesEquals(x) <==> !(eq.Some? && (eq.value == 0 || s[eq.value - 1] != '!'))))
  {
    var s := Comparison(v, '!', x);
    forall j: nat
      ensures TwoAt(s, '=', '=', j) <==> TwoAt(v, '=', '=', j) ||
                                         (j >= |v| + 5 && TwoAt(x, '=', '=', j - |v| - 5))
    {
      OperatorsIn(v, '!', x, '=', j);
    }
    if HasTwo(v, '=', '=') {
      IndexOfTwoIs(s, '=', '=', IndexOfTwo(v, '=', '=').value);
    } else if HasTwo(x, '=', '=') {
      var k := IndexOfTwo(x, '=', '=').value;
      assert TwoAt(s, '=', '=', |v| + 5 + k);
      IndexOfTwoIs(s, '=', '=', |v| + 5 + k);
      assert s[|v| + 4] == '"' && (k > 0 ==> s[|v| + 5 + k - 1] == x[k - 1]);
    }
  }

  lemma {:induction false} DiffersParts(v: string, x: string)
    ensures var r := ConditionParts(Comparison(v, '!', x));
            if HasTwo(v, '=', '=') || HasTwo(v, '!', '=') || !HidesEquals(x) then r.0 != Differs || |r.1| < |v|
            else r.0 == Differs && r.1 == v + " " && r.2 == " " + ("\"" + x + "\"")
  {
    EqualsBeforeDiffers(v, x);
    FirstOperator(v, '!', x);
    Pieces(v, '!', x);
    if HasTwo(v, '=', '=') {
      var k := IndexOfTwo(v, '=', '=').value;
      assert k > 0 && v[k - 1] == '!' ==> TwoAt(v, '!', '=', k - 1);
    }
  }

  lemma {:induction false} TruthyParts(v: string)
    ensures var r := ConditionParts(v);
            if HasTwo(v, '=', '=') || HasTwo(v, '!', '=') then r.0 != Truthy
            else r == (Truthy, v, "")
  {
    var eq := IndexOfTwo(v, '=', '=');
    if eq.Some? {
      var k := eq.value;
      assert k > 0 && v[k - 1] == '!' ==> TwoAt(v, '!', '=', k - 1);
    }
  }

  lemma {:induction false} ComparisonKept(c: Condition, r: (Operator, string, string), kept: bool)
    requires !c.operator.Truthy? && r == ConditionParts(ConditionText(c))
    requires if !kept then r.0 != c.operator || |r.1| < |c.variable|
             else r.0 == c.operator && r.1 == c.variable + " " && r.2 == " " + ("\"" + c.value + "\"")
    ensures ParseCondition(ConditionText(c)) == c <==> kept && Trimmed(c.variable)
  {
    ReadVariablePiece(c.variable);
    ReadValuePiece(c.value);
    assert |Trim(r.1)| <= |r.1|;
  }

  lemma {:induction false} TruthyKept(c: Condition)
    requires c.operator.Truthy?
    ensures ParseCondition(c.variable) == c <==> ConditionKept(c)
  {
    TruthyParts(c.variable);
    TrimIsTrimmed(c.variable);
    assert StripQuotes(Trim("")) == "";
  }

  /** A condition is read back from its text if and only if it is kept. */
  lemma {:induction false} ConditionKeptIff(c: Condition)
    ensures ParseCondition(ConditionText(c)) == c <==> ConditionKept(c)
  {
    var r := ConditionParts(ConditionText(c));
    match c.operator
    case Truthy =>
      TruthyKept(c);
    case Equals =>
      EqualsParts(c.variable, c.value);
      ComparisonKept(c, r, !HasTwo(c.variable, '=', '='));
    case Differs =>
      DiffersParts(c.variable, c.value);
      ComparisonKept(c, r, !HasTwo(c.variable, '=', '=') && !HasTwo(c.variable, '!', '=') && HidesEquals(c.value));
  }

  // ---------------------------------------------------------------------
  // Each blocks and variable paths
  // ---------------------------------------------------------------------

  predicate PathKept(path: seq<string>) {
    path != [] && forall k | 0 <= k < |path| :: '.' !in path[k]
  }

  /** `EachText` cuts at its own " as " exactly when the path text brings none along. */
  predicate EachKept(path: seq<string>, item: string) {
    && PathKept(path)
    && Trimmed(Join(path, '.')) && !HasAs(Join(path, '.') + " as")
    && Trimmed(item)
  }

  lemma {:induction false} EachCut(a: string, item: string)
    ensures var s := a + [' ', 'a', 's', ' '] + item;
            var k := IndexOfAs(s);
            && k.Some? && k.value <= |a|
            && (k.value == |a| <==> !HasAs(a + " as"))
            && s[..|a|] == a && s[|a| + 4..] == item
  {
    var s, t := a + [' ', 'a', 's', ' '] + item, a + " as";
    assert AsAt(s, |a|);
    forall j: nat | j < |a|
      ensures AsAt(s, j) <==> AsAt(t, j)
    {
      assert s[..|a| + 3] == t;
      assert forall i | 0 <= i < |t| :: s[i] == t[i];
    }
    if !HasAs(t) {
      assert FirstAs(s, |a|);
    } else {
      var j: nat :| j < |t| && AsAt(t, j);
      assert AsAt(s, j);
    }
  }

  lemma {:induction false} EachReadParts(path: seq<string>, item: string, left: string, right: string)
    requires left == Join(path, '.') && right == item
    ensures Split(Trim(left), '.') == path && Trim(right) == item <==>
            PathKept(path) && Trimmed(left) && Trimmed(item)
  {
    var p, i := Trim(left), Trim(right);
    assert i == item <==> Trimmed(item) by { TrimIsTrimmed(item); }
    assert Split(p, '.') == path <==> PathKept(path) && Trimmed(left) by { PathReadBack(path, left, p); }
  }

  lemma {:induction false} PathReadBack(path: seq<string>, left: string, trimmed: string)
    requires left == Join(path, '.') && trimmed == Trim(left)
    ensures Split(trimmed, '.') == path <==> PathKept(path) && Trimmed(left)
  {
    PathKeptIff(path, left);
    TrimIsTrimmed(left);
    SplitDetermines(path, left, trimmed);
  }

  lemma {:induction false} PathKeptIff(path: seq<string>, left: string)
    requires left == Join(path, '.')
    ensures Split(left, '.') == path <==> PathKept(path)
  {
    SplitJoin(path, '.');
  }

  /** Only its own text splits into a path. */
  lemma {:induction false} SplitDetermines(path: seq<string>, left: string, s: string)
    requires left == Join(path, '.')
    ensures Split(s, '.') == path ==> s == left
  {
    JoinSplit(s, '.');
  }

  lemma {:induction false} ShorterPath(path: seq<string>, left: string)
    requires |left| < |Join(path, '.')|
    ensures Split(Trim(left), '.') != path
  {
    JoinSplit(Trim(left), '.');
  }

  /** The head of an each block is read back from its text if and only if it is kept. */
  lemma {:induction false} EachKeptIff(path: seq<string>, item: string)
    ensures ParseEach(EachText(path, item)) == (path, item) <==> EachKept(path, item)
  {
    var a := Join(path, '.');
    var s := EachText(path, item);
    EachCut(a, item);
    var k := IndexOfAs(s).value;
    if k == |a| {
      EachReadParts(path, item, s[..k], s[k + 4..]);
    } else {
      ShorterPath(path, s[..k]);
    }
  }

  // ---------------------------------------------------------------------
  // Keywords
  // ---------------------------------------------------------------------

  predicate Keyword(inner: string) {
    || OpensIf(inner) || OpensUnless(inner) || OpensEach(inner)
    || ClosesIf(inner) || ClosesUnless(inner) || ClosesEach(inner)
    || IsElseIf(inner) || IsElse(inner) || IsPartial(inner)
  }

  lemma {:induction false} KeywordIff(inner: string, raw: string)
    ensures ClassifyToken(inner, raw) == Token(Variable, inner, raw) <==> !Keyword(inner)
    ensures ClassifyToken(inner, raw).kind == Variable <==> !Keyword(inner)
    ensures ClassifyToken(inner, raw).kind == Variable ==> ClassifyToken(inner, raw).value == inner
  {
  }

  /** A single character is a variable. */
  lemma {:induction false} LetterIsVariable(c: string)
    requires |c| == 1 && !IsSpace(c[0])
    ensures TagToken(c).kind == Variable
  {
    TrimIsTrimmed(c);
    LetterNoKeyword(c);
    KeywordIff(c, OPEN + c + CLOSE);
  }

  lemma {:induction false} LetterNoKeyword(c: string)
    requires |c| == 1
    ensures !Keyword(c)
  {
  }

  /** What trimming leaves of a tag with a keyword. */
  lemma {:induction false} TrimKeyword(p: string, e: string)
    requires |p| >= 2 && !IsSpace(p[0]) && !IsSpace(p[|p| - 2]) && IsSpace(p[|p| - 1])
    ensures Trim(p + e) == if TrimEnd(e) == "" then p[..|p| - 1] else p + TrimEnd(e)
  {
    assert TrimStart(p + e) == p + e;
    if TrimEnd(e) == "" {
      TrimEndBlank(p, e);
      assert TrimEnd(p) == TrimEnd(p[..|p| - 1]) == p[..|p| - 1];
    } else {
      TrimEndKeeps(p, e);
    }
  }

  lemma {:induction false} IfKeyword(f: string, raw: string)
    ensures f != "" ==> ClassifyToken("#if " + f, raw) == Token(If, Trim(f), raw)
  {
    var s := "#if " + f;
    assert s[4..] == f && |s| == 4 + |f|;
    assert s[0] == '#' && s[1] == 'i' && s[2] == 'f' && s[3] == ' ';
  }

  lemma {:induction false} IfAlone(raw: string)
    ensures ClassifyToken("#if "[..3], raw).kind != If
  {
    assert |"#if "[..3]| == 3;
  }

  lemma {:induction false} UnlessKeyword(f: string, raw: string)
    ensures f != "" ==> ClassifyToken("#unless " + f, raw) == Token(Unless, Trim(f), raw)
  {
    var s := "#unless " + f;
    assert s[8..] == f && |s| == 8 + |f|;
    assert s[0] == '#' && s[1] == 'u' && s[2] == 'n' && s[3] == 'l';
    assert s[4] == 'e' && s[5] == 's' && s[6] == 's' && s[7] == ' ';
  }

  lemma {:induction false} UnlessAlone(raw: string)
    ensures ClassifyToken("#unless "[..7], raw).kind != Unless
  {
    assert |"#unless "[..7]| == 7;
  }

  lemma {:induction false} EachKeyword(f: string, raw: string)
    ensures f != "" ==> ClassifyToken("#each " + f, raw) == Token(Each, Trim(f), raw)
  {
    var s := "#each " + f;
    assert s[6..] == f && |s| == 6 + |f|;
    assert s[0] == '#' && s[1] == 'e' && s[2] == 'a' && s[3] == 'c' && s[4] == 'h' && s[5] == ' ';
  }

  lemma {:induction false} EachAlone(raw: string)
    ensures ClassifyToken("#each "[..5], raw).kind != Each
  {
    assert |"#each "[..5]| == 5;
  }

  lemma {:induction false} ElseIfKeyword(f: string, raw: string)
    ensures f != "" ==> ClassifyToken("else if " + f, raw) == Token(ElseIf, Trim(f), raw)
  {
    var s := "else if " + f;
    assert s[8..] == f && |s| == 8 + |f|;
    assert s[0] == 'e' && s[1] == 'l' && s[2] == 's' && s[3] == 'e';
    assert s[4] == ' ' && s[5] == 'i' && s[6] == 'f' && s[7] == ' ';
  }

  lemma {:induction false} ElseIfAlone(raw: string)
    ensures ClassifyToken("else if "[..7], raw).kind != ElseIf
  {
    assert |"else if "[..7]| == 7;
  }

  /** Only the partial keyword begins with '>'. */
  lemma {:induction false} NotOther(s: string, raw: string)
    requires |s| > 2 && s[0] == '>' && s[1] == ' '
    ensures ClassifyToken(s, raw) == Token(Partial, Trim(s[2..]), raw)
  {
  }

  lemma {:induction false} PartialKeyword(f: string, raw: string)
    ensures f != "" ==> ClassifyToken("> " + f, raw) == Token(Partial, Trim(f), raw)
  {
    var s := "> " + f;
    assert s[2..] == f && |s| == 2 + |f| && s[0] == '>' && s[1] == ' ';
    if f != "" {
      NotOther(s, raw);
    }
  }

  lemma {:induction false} PartialAlone(raw: string)
    ensures ClassifyToken("> "[..1], raw).kind != Partial
  {
    assert |"> "[..1]| == 1;
  }
}
