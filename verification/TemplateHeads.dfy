/**
 * What a printed tag is read as, and that a printed tag cut short is never read as
 * the same thing.
 */
module TemplateHeads {
  import opened Wrappers
  import opened Strings
  import opened TemplateTokens
  import opened TemplateParser
  import opened TemplatePrinter
  import opened TemplateLeaves

  // ---------------------------------------------------------------------
  // The token of a printed tag
  // ---------------------------------------------------------------------

  /** Trimming the end first makes no difference. */
  lemma {:induction false} TrimEndFirst(s: string)
    ensures Trim(TrimEnd(s)) == Trim(s)
    decreases |s|
  {
    if s != "" && IsSpace(s[|s| - 1]) {
      TrimEndFirst(s[..|s| - 1]);
      TrimDropsLast(s);
    }
  }

  lemma {:induction false} TrimDropsFirst(s: string)
    requires s != "" && IsSpace(s[0])
    ensures Trim(s) == Trim(s[1..])
  {
  }

  lemma {:induction false} WithoutEnds<T>(s: seq<T>)
    requires |s| > 1
    ensures s[..|s| - 1][1..] == s[1..][..|s| - 2] && s[1..][|s| - 2] == s[|s| - 1] && s[..|s| - 1][0] == s[0]
  {
  }

  lemma {:induction false} TrimEndDropsLast(s: string)
    requires |s| > 1 && IsSpace(s[|s| - 1]) && !IsSpace(s[0])
    ensures Trim(s[..|s| - 1]) == Trim(s)
  {
    NothingInFront(s);
    NothingInFront(s[..|s| - 1]);
  }

  lemma {:induction false} TrimDropsBoth(s: string)
    requires |s| > 1 && IsSpace(s[0])
    ensures Trim(s) == Trim(s[1..]) && Trim(s[..|s| - 1]) == Trim(s[1..][..|s| - 2])
  {
    WithoutEnds(s);
    TrimDropsFirst(s);
    TrimDropsFirst(s[..|s| - 1]);
  }

  lemma {:induction false} TrimDropsLast(s: string)
    requires s != "" && IsSpace(s[|s| - 1])
    ensures Trim(s[..|s| - 1]) == Trim(s)
    decreases |s|
  {
    if |s| == 1 {
      TrimDropsFirst(s);
      assert s[..0] == s[1..];
    } else if IsSpace(s[0]) {
      TrimDropsBoth(s);
      TrimDropsLast(s[1..]);
    } else {
      TrimEndDropsLast(s);
    }
  }

  /** The token of a keyword and a text: it has its kind unless the text is blank, and then the trimmed text. */
  predicate ReadsAs(kind: TokenType, p: string, e: string) {
    var t := TagToken(p + e);
    (t.kind == kind <==> TrimEnd(e) != "") && (t.kind == kind ==> t.value == Trim(e))
  }

  lemma {:induction false} ReadByKeyword(kind: TokenType, p: string, e: string)
    requires |p| >= 2 && !IsSpace(p[0]) && !IsSpace(p[|p| - 2]) && IsSpace(p[|p| - 1])
    requires var raw, f := OPEN + (p + e) + CLOSE, TrimEnd(e);
             && (f != "" ==> ClassifyToken(p + f, raw) == Token(kind, Trim(f), raw))
             && ClassifyToken(p[..|p| - 1], raw).kind != kind
    ensures ReadsAs(kind, p, e)
  {
    TrimKeyword(p, e);
    TrimEndFirst(e);
  }

  lemma {:induction false} IfReads(e: string)
    ensures ReadsAs(If, "#if ", e)
  {
    IfAlone(OPEN + ("#if " + e) + CLOSE);
    IfKeyword(TrimEnd(e), OPEN + ("#if " + e) + CLOSE);
    ReadByKeyword(If, "#if ", e);
  }

  lemma {:induction false} ElseIfReads(e: string)
    ensures ReadsAs(ElseIf, "else if ", e)
  {
    ElseIfAlone(OPEN + ("else if " + e) + CLOSE);
    ElseIfKeyword(TrimEnd(e), OPEN + ("else if " + e) + CLOSE);
    ReadByKeyword(ElseIf, "else if ", e);
  }

  lemma {:induction false} UnlessReads(e: string)
    ensures ReadsAs(Unless, "#unless ", e)
  {
    UnlessAlone(OPEN + ("#unless " + e) + CLOSE);
    UnlessKeyword(TrimEnd(e), OPEN + ("#unless " + e) + CLOSE);
    ReadByKeyword(Unless, "#unless ", e);
  }

  lemma {:induction false} PartialReads(e: string)
    ensures ReadsAs(Partial, "> ", e)
  {
    PartialAlone(OPEN + ("> " + e) + CLOSE);
    PartialKeyword(TrimEnd(e), OPEN + ("> " + e) + CLOSE);
    ReadByKeyword(Partial, "> ", e);
  }

  lemma {:induction false} EachReads(e: string)
    ensures ReadsAs(Each, "#each ", e)
  {
    EachAlone(OPEN + ("#each " + e) + CLOSE);
    EachKeyword(TrimEnd(e), OPEN + ("#each " + e) + CLOSE);
    ReadByKeyword(Each, "#each ", e);
  }

  // ---------------------------------------------------------------------
  // Conditions
  // ---------------------------------------------------------------------

  lemma {:induction false} IndexAfterSpace(e: string, a: char, b: char)
    requires a != ' '
    ensures IndexOfTwo([' '] + e, a, b) ==
            match IndexOfTwo(e, a, b) case None => None case Some(k) => Some(k + 1)
  {
    var s := [' '] + e;
    forall j: nat
      ensures TwoAt(s, a, b, j + 1) <==> TwoAt(e, a, b, j)
    {
    }
    if HasTwo(e, a, b) {
      var k := IndexOfTwo(e, a, b).value;
      forall j: nat | j < k + 1
        ensures !TwoAt(s, a, b, j)
      {
        assert j > 0 ==> !TwoAt(e, a, b, j - 1);
      }
      IndexOfTwoIs(s, a, b, k + 1);
    } else {
      forall j: nat
        ensures !TwoAt(s, a, b, j)
      {
        assert j > 0 ==> !TwoAt(e, a, b, j - 1);
      }
    }
  }

  lemma {:induction false} SlicesAfterSpace(e: string, k: nat)
    requires k + 2 <= |e|
    ensures var s := [' '] + e;
            s[..k + 1] == [' '] + e[..k] && s[k + 3..] == e[k + 2..] && s[k] == if k == 0 then ' ' else e[k - 1]
  {
  }

  lemma {:induction false} PartsAfterSpace(e: string)
    ensures var r, q := ConditionParts(e), ConditionParts([' '] + e);
            q.0 == r.0 && q.1 == [' '] + r.1 && q.2 == r.2
  {
    var eq, neq := IndexOfTwo(e, '=', '='), IndexOfTwo(e, '!', '=');
    IndexAfterSpace(e, '=', '=');
    IndexAfterSpace(e, '!', '=');
    if eq.Some? {
      SlicesAfterSpace(e, eq.value);
    }
    if neq.Some? {
      SlicesAfterSpace(e, neq.value);
    }
  }

  /** A space in front of a condition does not matter. */
  lemma {:induction false} ConditionAfterSpace(e: string)
    ensures ParseCondition([' '] + e) == ParseCondition(e)
  {
    PartsAfterSpace(e);
    var left := ConditionParts(e).1;
    assert ([' '] + left)[1..] == left;
  }

  lemma {:induction false} ParsedVariableTrimmed(e: string)
    ensures Trimmed(ParseCondition(e).variable)
  {
    TrimIsTrimmed(ConditionParts(e).1);
  }

  lemma {:induction false} ComparisonTrimmed(v: string, op: char, x: string)
    requires v != "" && Trimmed(v)
    ensures Trimmed(Comparison(v, op, x))
  {
    var s := Comparison(v, op, x);
    assert s[0] == v[0] && s[|s| - 1] == '"';
  }

  lemma {:induction false} SpaceInFront(t: string)
    requires t != "" && Trimmed(t)
    ensures Trim([' '] + t) == t
  {
    assert ([' '] + t)[1..] == t;
    TrimIsTrimmed(t);
  }

  lemma {:induction false} ComparisonWithoutVariable(op: char, x: string)
    requires op == '=' || op == '!'
    ensures var s := Comparison("", op, x);
            s == [' '] + s[1..] && Trim(s) == s[1..]
  {
    var s := Comparison("", op, x);
    var t := [op, '=', ' ', '"'] + x + ['"'];
    assert s == [' '] + t && s[1..] == t;
    assert t[0] == op && t[|t| - 1] == '"';
    SpaceInFront(t);
  }

  /** Trimming the text of a condition does not change whether it is read back. */
  lemma {:induction false} TrimmedConditionIff(c: Condition)
    ensures ParseCondition(Trim(ConditionText(c))) == c <==> ConditionKept(c)
  {
    var s := ConditionText(c);
    ConditionKeptIff(c);
    if !Trimmed(c.variable) {
      ParsedVariableTrimmed(Trim(s));
    } else if c.operator.Truthy? {
      TrimIsTrimmed(s);
    } else if c.variable == "" {
      var op := if c.operator.Equals? then '=' else '!';
      ComparisonWithoutVariable(op, c.value);
      ConditionAfterSpace(s[1..]);
    } else {
      ComparisonTrimmed(c.variable, if c.operator.Equals? then '=' else '!', c.value);
      TrimIsTrimmed(s);
    }
  }

  /** A condition that a tag can carry. */
  predicate ConditionCarried(c: Condition) {
    ConditionKept(c) && ConditionText(c) != ""
  }

  lemma {:induction false} BlankTrims(s: string)
    requires Trimmed(s)
    ensures TrimEnd(s) == s
  {
  }

  lemma {:induction false} ComparisonNotBlank(v: string, op: char, x: string)
    ensures TrimEnd(Comparison(v, op, x)) == Comparison(v, op, x) != ""
  {
    var s := Comparison(v, op, x);
    assert s[|s| - 1] == '"';
  }

  lemma {:induction false} CarriedIff(kind: TokenType, p: string, c: Condition)
    requires ReadsAs(kind, p, ConditionText(c))
    ensures var t := TagToken(p + ConditionText(c));
            t.kind == kind && ParseCondition(t.value) == c <==> ConditionCarried(c)
  {
    TrimmedConditionIff(c);
    match c.operator
    case Truthy =>
      if ConditionKept(c) {
        BlankTrims(c.variable);
      }
    case Equals => ComparisonNotBlank(c.variable, '=', c.value);
    case Differs => ComparisonNotBlank(c.variable, '!', c.value);
  }

  // ---------------------------------------------------------------------
  // Each heads
  // ---------------------------------------------------------------------

  lemma {:induction false} StartsNonBlank(s: string)
    requires s != "" && !IsSpace(s[0])
    ensures Trim(s) != "" && Trim(s)[0] == s[0]
  {
    NothingInFront(s);
    assert s == [s[0]] + s[1..];
    TrimEndPrefix([s[0]], s[1..]);
  }

  lemma {:induction false} EndsNonBlank(s: string)
    requires s != "" && !IsSpace(s[|s| - 1])
    ensures Trim(s) != ""
    decreases |s|
  {
    if !IsSpace(s[0]) {
      StartsNonBlank(s);
    } else if |s| > 1 {
      WithoutEnds(s);
      TrimDropsFirst(s);
      EndsNonBlank(s[1..]);
    }
  }

  /** What an each head can be read as. */
  lemma {:induction false} ParsedEachFits(e: string)
    ensures var r := ParseEach(e);
            && Trimmed(Join(r.0, '.')) && |Join(r.0, '.')| <= |e|
            && (IndexOfAs(e).None? ==> r.1 == "item")
            && (IndexOfAs(e).Some? ==> Trimmed(r.1) && |Join(r.0, '.')| + 4 + |r.1| <= |e|)
  {
    match IndexOfAs(e)
    case None =>
      JoinSplit(Trim(e), '.');
      TrimIsTrimmed(e);
    case Some(k) =>
      JoinSplit(Trim(e[..k]), '.');
      TrimIsTrimmed(e[..k]);
      TrimIsTrimmed(e[k + 4..]);
  }

  lemma {:induction false} EachPathNonBlank(e: string)
    requires e != "" && !IsSpace(e[0])
    ensures Join(ParseEach(e).0, '.') != ""
  {
    match IndexOfAs(e)
    case None =>
      StartsNonBlank(e);
      JoinSplit(Trim(e), '.');
    case Some(k) =>
      StartsNonBlank(e[..k]);
      JoinSplit(Trim(e[..k]), '.');
  }

  lemma {:induction false} EachItemNonBlank(e: string)
    requires e != "" && !IsSpace(e[|e| - 1])
    ensures ParseEach(e).1 != ""
  {
    match IndexOfAs(e)
    case None =>
    case Some(k) => EndsNonBlank(e[k + 4..]);
  }

  /** An each head that a tag can carry. */
  predicate EachCarried(path: seq<string>, item: string) {
    EachKept(path, item) && Join(path, '.') != "" && item != ""
  }

  const As := [' ', 'a', 's']

  lemma {:induction false} BehindSpace(t: string)
    requires t != "" && !IsSpace(t[0])
    ensures Trim([' '] + t) == Trim(t) != "" && Trim(t)[0] == t[0]
  {
    assert ([' '] + t)[1..] == t;
    TrimDropsFirst([' '] + t);
    StartsNonBlank(t);
  }

  lemma {:induction false} AsWithoutPath(item: string)
    ensures As + ([' '] + item) == [' '] + (['a', 's', ' '] + item)
  {
  }

  /** Trimming the text of an each head with an empty path. */
  lemma {:induction false} NoPathTrims(item: string)
    ensures var e := Trim(As + ([' '] + item)); e != "" && !IsSpace(e[0])
  {
    AsWithoutPath(item);
    BehindSpace(['a', 's', ' '] + item);
  }

  /** Trimming the text of an each head with an empty item. */
  lemma {:induction false} NoItemTrims(p: string)
    requires p != "" && !IsSpace(p[0])
    ensures var e := Trim(p + As + [' ']); e != "" && !IsSpace(e[|e| - 1])
  {
    var t := p + As;
    var s := t + [' '];
    assert s[..|s| - 1] == t;
    TrimDropsLast(s);
    TrimIsTrimmed(t);
    assert t[0] == p[0] && t[|t| - 1] == 's';
  }

  lemma {:induction false} EachTextIs(path: seq<string>, item: string)
    ensures EachText(path, item) == Join(path, '.') + As + ([' '] + item)
  {
    var p := Join(path, '.');
    assert [' ', 'a', 's', ' '] == As + [' '];
  }

  lemma {:induction false} EachTextTrimmed(path: seq<string>, item: string)
    requires Join(path, '.') != "" && Trimmed(Join(path, '.')) && item != "" && Trimmed(item)
    ensures Trim(EachText(path, item)) == EachText(path, item)
  {
    var s := EachText(path, item);
    assert s[0] == Join(path, '.')[0] && s[|s| - 1] == item[|item| - 1];
    TrimIsTrimmed(s);
  }

  lemma {:induction false} NoPathLost(path: seq<string>, item: string)
    requires Join(path, '.') == ""
    ensures Join(ParseEach(Trim(EachText(path, item))).0, '.') != ""
  {
    EachTextIs(path, item);
    assert "" + As + ([' '] + item) == As + ([' '] + item);
    NoPathTrims(item);
    EachPathNonBlank(Trim(EachText(path, item)));
  }

  lemma {:induction false} NoItemLost(path: seq<string>)
    requires Join(path, '.') != "" && Trimmed(Join(path, '.'))
    ensures ParseEach(Trim(EachText(path, ""))).1 != ""
  {
    EachTextIs(path, "");
    assert [' '] + "" == [' '];
    NoItemTrims(Join(path, '.'));
    EachItemNonBlank(Trim(EachText(path, "")));
  }

  /** What trimming and reading the head gives. */
  function EachReread(path: seq<string>, item: string): (seq<string>, string) {
    ParseEach(Trim(EachText(path, item)))
  }

  lemma {:induction false} EachRereadFits(path: seq<string>, item: string)
    ensures var r := EachReread(path, item);
            && Trimmed(Join(r.0, '.')) && (r.1 == "item" || Trimmed(r.1))
            && (Join(path, '.') == "" ==> Join(r.0, '.') != "")
            && (Join(path, '.') != "" && Trimmed(Join(path, '.')) && item == "" ==> r.1 != "")
  {
    ParsedEachFits(Trim(EachText(path, item)));
    if Join(path, '.') == "" {
      NoPathLost(path, item);
    } else if Trimmed(Join(path, '.')) && item == "" {
      NoItemLost(path);
    }
  }

  lemma {:induction false} EachRereadIff(path: seq<string>, item: string)
    requires Tidy(path, item)
    ensures EachReread(path, item) == (path, item) <==> EachKept(path, item)
  {
    EachTextTrimmed(path, item);
    EachKeptIff(path, item);
  }

  /** A path and an item with nothing to trim. */
  predicate Tidy(path: seq<string>, item: string) {
    Join(path, '.') != "" && Trimmed(Join(path, '.')) && item != "" && Trimmed(item)
  }

  lemma {:induction false} CarriedIsTidy(path: seq<string>, item: string)
    ensures EachCarried(path, item) <==> Tidy(path, item) && EachKept(path, item)
  {
  }

  lemma {:induction false} UntidyDiffers(path: seq<string>, item: string, p: seq<string>, i: string)
    requires !Tidy(path, item)
    requires Trimmed(Join(p, '.')) && (i == "item" || Trimmed(i))
    requires Join(path, '.') == "" ==> Join(p, '.') != ""
    requires Join(path, '.') != "" && Trimmed(Join(path, '.')) && item == "" ==> i != ""
    ensures p != path || i != item
  {
    assert Trimmed("item");
  }

  lemma {:induction false} RereadTidy(path: seq<string>, item: string)
    requires !Tidy(path, item)
    ensures EachReread(path, item) != (path, item)
  {
    var r := EachReread(path, item);
    EachRereadFits(path, item);
    UntidyDiffers(path, item, r.0, r.1);
  }

  /** Trimming the text of an each head: it is read back exactly when it is carried. */
  lemma {:induction false} TrimmedEachIff(path: seq<string>, item: string)
    ensures EachReread(path, item) == (path, item) <==> EachCarried(path, item)
  {
    CarriedIsTidy(path, item);
    if Tidy(path, item) {
      EachRereadIff(path, item);
    } else {
      RereadTidy(path, item);
    }
  }

  predicate EachIs(e: string, path: seq<string>, item: string) {
    ParseEach(e).0 == path && ParseEach(e).1 == item
  }

  lemma {:induction false} EachTextNotBlank(path: seq<string>, item: string)
    ensures TrimEnd(EachText(path, item)) != ""
  {
    EachTextIs(path, item);
    var head := Join(path, '.') + As;
    assert head[|head| - 1] == 's';
    TrimEndPrefix(head, [' '] + item);
  }

  lemma {:induction false} EachCarriedIff(path: seq<string>, item: string)
    ensures var t := TagToken("#each " + EachText(path, item));
            t.kind == Each && EachIs(t.value, path, item) <==> EachCarried(path, item)
  {
    EachReads(EachText(path, item));
    EachTextNotBlank(path, item);
    EachValueIff(path, item, Trim(EachText(path, item)));
  }

  lemma {:induction false} EachValueIff(path: seq<string>, item: string, v: string)
    requires v == Trim(EachText(path, item))
    ensures EachIs(v, path, item) <==> EachCarried(path, item)
  {
    TrimmedEachIff(path, item);
  }

  lemma {:induction false} VariableCarriedIff(path: seq<string>)
    ensures var t := TagToken(Join(path, '.'));
            t.kind == Variable && Split(t.value, '.') == path <==>
            PathKept(path) && Trimmed(Join(path, '.')) && !Keyword(Join(path, '.'))
  {
    var v := Join(path, '.');
    KeywordIff(Trim(v), OPEN + v + CLOSE);
    PathReadBack(path, v, Trim(v));
    TrimIsTrimmed(v);
  }

  // ---------------------------------------------------------------------
  // A head cut short is something else
  // ---------------------------------------------------------------------

  /** The text is cut before `}}`, of which at most one brace is behind the text. */
  predicate CutAtBraces(s: string, m: nat) {
    m < |s| && s[m] == '}' && (m + 1 < |s| ==> s[m + 1] == '}')
  }

  lemma {:induction false} PartsAt(e: string) returns (k: nat)
    requires ConditionParts(e).0 != Truthy
    ensures k + 2 <= |e| && (e[k] == '=' || e[k] == '!')
    ensures ConditionParts(e).1 == e[..k] && ConditionParts(e).2 == e[k + 2..]
  {
    var eq := IndexOfTwo(e, '=', '=');
    if eq.Some? && (eq.value == 0 || e[eq.value - 1] != '!') {
      k := eq.value;
    } else {
      k := IndexOfTwo(e, '!', '=').value;
    }
  }

  lemma {:induction false} SpaceTrimsOff(t: string)
    requires t != "" && IsSpace(t[0])
    ensures |Trim(t)| < |t|
  {
    TrimDropsFirst(t);
  }

  lemma {:induction false} ComparisonChars(v: string, op: char, x: string)
    ensures var s := Comparison(v, op, x);
            && |s| == |v| + 6 + |x|
            && s[|v|] == ' ' && s[|v| + 1] == op && s[|v| + 2] == '=' && s[|v| + 3] == ' ' && s[|v| + 4] == '"'
            && s[|s| - 1] == '"'
            && (forall i | 0 <= i < |v| :: s[i] == v[i]) && (forall i | 0 <= i < |x| :: s[|v| + 5 + i] == x[i])
  {
  }

  lemma {:induction false} TrimPrefix(t: string)
    requires t != "" && !IsSpace(t[0])
    ensures |Trim(t)| <= |t| && Trim(t) == t[..|Trim(t)|]
  {
    NothingInFront(t);
  }

  lemma {:induction false} TrimBehind(t: string)
    requires |t| > 1 && IsSpace(t[0]) && !IsSpace(t[1])
    ensures |Trim(t)| + 1 <= |t| && Trim(t) == t[1..1 + |Trim(t)|]
  {
    TrimDropsFirst(t);
    TrimPrefix(t[1..]);
  }

  /** A cut comparison, trimmed, is a stretch of it, without the space in front if there is no variable. */
  predicate StretchOf(s: string, d: nat, m: nat, e: string) {
    d + |e| <= m <= |s| && e == s[d..d + |e|]
  }

  lemma {:induction false} CutTrims(v: string, op: char, x: string, m: nat)
    requires Trimmed(v) && (op == '=' || op == '!') && |v| + 5 <= m < |Comparison(v, op, x)|
    ensures StretchOf(Comparison(v, op, x), if v == "" then 1 else 0, m, Trim(Comparison(v, op, x)[..m]))
  {
    var s := Comparison(v, op, x);
    ComparisonChars(v, op, x);
    TakenTrims(s, m, if v == "" then 1 else 0);
  }

  lemma {:induction false} TakenTrims(s: string, m: nat, d: nat)
    requires 2 <= m <= |s| && d <= 1 && !IsSpace(s[d]) && (d == 1 ==> IsSpace(s[0]))
    ensures StretchOf(s, d, m, Trim(s[..m]))
  {
    if d == 0 {
      TrimPrefix(s[..m]);
    } else {
      TrimBehind(s[..m]);
    }
  }

  /** What stands behind an operator in such a stretch is too short for the value, whose quote is at `n + 4`. */
  lemma {:induction false} RightFits(s: string, d: nat, n: nat, m: nat, e: string, k: nat)
    requires n + 5 <= m < |s| && s[n] == ' ' && s[n + 3] == ' '
    requires StretchOf(s, d, m, e) && d == (if n == 0 then 1 else 0)
    requires n <= k && k + 2 <= |e| && (e[k] == '=' || e[k] == '!')
    ensures |Trim(e[k + 2..])| <= m - n - 4
  {
    OperatorBehind(s, d, n, m, e, k);
    TailTrims(e, k + 2, k + d == n + 1);
  }

  /** The operator is not the space in front of it; right behind that, the space after the operator follows. */
  lemma {:induction false} OperatorBehind(s: string, d: nat, n: nat, m: nat, e: string, k: nat)
    requires n + 3 < |s| && s[n] == ' ' && s[n + 3] == ' ' && StretchOf(s, d, m, e)
    requires n <= k < |e| && (e[k] == '=' || e[k] == '!')
    ensures k + d > n && (k + d == n + 1 && k + 2 < |e| ==> e[k + 2] == ' ')
  {
    StretchAt(s, d, m, e, k);
    StretchAt(s, d, m, e, k + 2);
  }

  lemma {:induction false} StretchAt(s: string, d: nat, m: nat, e: string, i: nat)
    requires StretchOf(s, d, m, e)
    ensures i < |e| ==> e[i] == s[d + i]
  {
  }

  lemma {:induction false} TailTrims(e: string, k: nat, spaced: bool)
    requires k <= |e| && (spaced && k < |e| ==> e[k] == ' ')
    ensures |Trim(e[k..])| <= |e| - k && (spaced && k < |e| ==> |Trim(e[k..])| < |e| - k)
  {
    TrimShrinks(e[k..]);
    if spaced && k < |e| {
      SpaceTrimsOff(e[k..]);
    }
  }

  lemma {:induction false} PartsFit(s: string, n: nat, m: nat, e: string)
    requires n + 5 <= m < |s| && s[n] == ' ' && s[n + 3] == ' '
    requires StretchOf(s, if n == 0 then 1 else 0, m, e)
    requires ConditionParts(e).0 != Truthy && n <= |ConditionParts(e).1|
    ensures |Trim(ConditionParts(e).2)| <= m - n - 4
  {
    var k := PartsAt(e);
    RightFits(s, if n == 0 then 1 else 0, n, m, e, k);
  }

  /** Whatever operator a cut comparison is read with, its value is too short. */
  lemma {:induction false} CutValueFits(v: string, op: char, x: string, m: nat)
    requires Trimmed(v) && (op == '=' || op == '!') && |v| + 5 <= m < |Comparison(v, op, x)|
    requires var r := ConditionParts(Trim(Comparison(v, op, x)[..m])); r.0 != Truthy && |v| <= |r.1|
    ensures |Trim(ConditionParts(Trim(Comparison(v, op, x)[..m])).2)| <= m - |v| - 4
  {
    CutTrims(v, op, x, m);
    ComparisonFits(v, op, x, Comparison(v, op, x), m, Trim(Comparison(v, op, x)[..m]));
  }

  lemma {:induction false} ComparisonFits(v: string, op: char, x: string, s: string, m: nat, e: string)
    requires s == Comparison(v, op, x) && |v| + 5 <= m < |s| && StretchOf(s, if v == "" then 1 else 0, m, e)
    requires ConditionParts(e).0 != Truthy && |v| <= |ConditionParts(e).1|
    ensures |Trim(ConditionParts(e).2)| <= m - |v| - 4
  {
    ComparisonChars(v, op, x);
    PartsFit(s, |v|, m, e);
  }

  lemma {:induction false} ParsedIs(e: string)
    ensures var r, c := ConditionParts(e), ParseCondition(e);
            && c.operator == r.0 && |c.variable| <= |r.1| && |r.1| <= |e|
            && |c.value| <= |Trim(r.2)|
  {
    var r := ConditionParts(e);
    TrimShrinks(r.1);
    StripShrinks(Trim(r.2));
    LeftShrinks(e);
  }

  lemma {:induction false} TrimShrinks(s: string)
    ensures |Trim(s)| <= |s|
  {
  }

  lemma {:induction false} StripShrinks(s: string)
    ensures |StripQuotes(s)| <= |s|
  {
  }

  lemma {:induction false} LeftShrinks(e: string)
    ensures |ConditionParts(e).1| <= |e|
  {
  }

  /** Braces in a comparison stand in its variable or in its value. */
  lemma {:induction false} BracesInside(v: string, op: char, x: string, m: nat)
    requires (op == '=' || op == '!') && CutAtBraces(Comparison(v, op, x), m)
    ensures m < |v| || (|v| + 5 <= m && m - |v| - 3 <= |x|)
  {
    ComparisonChars(v, op, x);
  }

  lemma {:induction false} CutComparisonDiffers(c: Condition, op: char, m: nat)
    requires !c.operator.Truthy? && op == (if c.operator.Equals? then '=' else '!')
    requires CutAtBraces(ConditionText(c), m)
    ensures ParseCondition(Trim(ConditionText(c)[..m])) != c
  {
    var e := Trim(ConditionText(c)[..m]);
    BracesInside(c.variable, op, c.value, m);
    ParsedIs(e);
    ParsedVariableTrimmed(e);
    assert |e| <= m;
    if ParseCondition(e).operator == c.operator && ParseCondition(e).variable == c.variable && m >= |c.variable| + 5 {
      CutValueFits(c.variable, op, c.value, m);
    }
  }

  lemma {:induction false} CutVariableDiffers(c: Condition, m: nat)
    requires c.operator.Truthy? && m < |c.variable|
    ensures ParseCondition(Trim(ConditionText(c)[..m])) != c
  {
    TrimShrinks(c.variable[..m]);
    ParsedIs(Trim(c.variable[..m]));
  }

  /** A condition cut short at the end of its tag is another condition. */
  lemma {:induction false} CutConditionDiffers(c: Condition, m: nat)
    requires CutAtBraces(ConditionText(c), m)
    ensures ParseCondition(Trim(ConditionText(c)[..m])) != c
  {
    match c.operator
    case Truthy => CutVariableDiffers(c, m);
    case Equals => CutComparisonDiffers(c, '=', m);
    case Differs => CutComparisonDiffers(c, '!', m);
  }

  lemma {:induction false} EachTextChars(path: seq<string>, item: string)
    ensures var s, p := EachText(path, item), Join(path, '.');
            && |s| == |p| + 4 + |item|
            && s[|p|] == ' ' && s[|p| + 1] == 'a' && s[|p| + 2] == 's' && s[|p| + 3] == ' '
            && forall i | 0 <= i < |item| :: s[|p| + 4 + i] == item[i]
  {
  }

  lemma {:induction false} BracesInEach(path: seq<string>, item: string, m: nat)
    requires CutAtBraces(EachText(path, item), m)
    ensures m < |Join(path, '.')| || (m >= |Join(path, '.')| + 4 && '}' in item)
  {
    var p := Join(path, '.');
    EachTextChars(path, item);
    if m >= |p| + 4 {
      assert item[m - |p| - 4] == '}';
    }
  }

  lemma {:induction false} EachTooShort(path: seq<string>, item: string, m: nat, p: seq<string>, i: string, found: bool)
    requires m < |Join(path, '.')| || (m >= |Join(path, '.')| + 4 && '}' in item)
    requires m < |Join(path, '.')| + 4 + |item| && |Join(p, '.')| <= m
    requires if found then |Join(p, '.')| + 4 + |i| <= m else i == "item"
    ensures p != path || i != item
  {
    assert '}' !in "item";
  }

  /** An each head cut short at the end of its tag is another head. */
  lemma {:induction false} CutEachDiffers(path: seq<string>, item: string, m: nat)
    requires CutAtBraces(EachText(path, item), m)
    ensures !EachIs(Trim(EachText(path, item)[..m]), path, item)
  {
    var e := Trim(EachText(path, item)[..m]);
    BracesInEach(path, item, m);
    EachTextChars(path, item);
    ParsedEachFits(e);
    assert |e| <= m;
    EachTooShort(path, item, m, ParseEach(e).0, ParseEach(e).1, IndexOfAs(e).Some?);
  }

  lemma {:induction false} CutBehindKeyword(p: string, e: string, m: nat)
    requires '}' !in p && CutAtBraces(p + e, m)
    ensures |p| <= m && (p + e)[..m] == p + e[..m - |p|] && CutAtBraces(e, m - |p|)
  {
    assert forall k | 0 <= k < |p| :: (p + e)[k] == p[k];
  }
}
