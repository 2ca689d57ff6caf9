/** How tags and their expressions are read, for every text. */
module TemplateTags {
  import opened Wrappers
  import opened Strings
  import opened TemplateTokens
  import opened TemplateParser

  predicate AllSpace(s: string) {
    forall c | c in s :: c as int in Spaces
  }

  lemma {:induction false} StartTrimmed(s: string) returns (a: string)
    ensures s == a + TrimStart(s) && AllSpace(a)
  {
    a := "";
    if s != "" && IsSpace(s[0]) {
      a := StartTrimmed(s[1..]);
      SpaceIff(s[0]);
      a := [s[0]] + a;
    }
  }

  lemma {:induction false} EndTrimmed(s: string) returns (b: string)
    ensures s == TrimEnd(s) + b && AllSpace(b)
  {
    b := "";
    if s != "" && IsSpace(s[|s| - 1]) {
      b := EndTrimmed(s[..|s| - 1]);
      SpaceIff(s[|s| - 1]);
      b := b + [s[|s| - 1]];
    }
  }

  /** Trimming takes white space from both ends, and all of it. */
  lemma {:induction false} TrimIs(s: string)
    ensures exists a, b :: s == a + Trim(s) + b && AllSpace(a) && AllSpace(b)
    ensures var t := Trim(s); t != "" ==> t[0] as int !in Spaces && t[|t| - 1] as int !in Spaces
  {
    var a := StartTrimmed(s);
    var b := EndTrimmed(TrimStart(s));
    assert s == a + Trim(s) + b;
    TrimIsTrimmed(s);
    var t := Trim(s);
    if t != "" {
      SpaceIff(t[0]);
      SpaceIff(t[|t| - 1]);
    }
  }

  // ---------------------------------------------------------------------
  // Tags
  // ---------------------------------------------------------------------

  /** What the trimmed content of a tag begins with decides its kind. */
  lemma {:induction false} KindIff(content: string)
    ensures var s, kind := Trim(content), TagToken(content).kind;
      && (kind == If <==> "#if " <= s)
      && (kind == Unless <==> "#unless " <= s)
      && (kind == Each <==> "#each " <= s)
      && (kind == EndIf <==> s == "/if")
      && (kind == EndUnless <==> s == "/unless")
      && (kind == EndEach <==> s == "/each")
      && (kind == ElseIf <==> "else if " <= s)
      && (kind == Else <==> s == "else")
      && (kind == Partial <==> "> " <= s)
      && kind != Text
  {
    WordsIff(Trim(content));
    ClassifiedKind(Trim(content), OPEN + content + CLOSE);
  }

  lemma {:induction false} ClassifiedKind(s: string, raw: string)
    ensures var kind := ClassifyToken(s, raw).kind;
      && (kind == If <==> OpensIf(s))
      && (kind == Unless <==> OpensUnless(s))
      && (kind == Each <==> OpensEach(s))
      && (kind == EndIf <==> ClosesIf(s))
      && (kind == EndUnless <==> ClosesUnless(s))
      && (kind == EndEach <==> ClosesEach(s))
      && (kind == ElseIf <==> IsElseIf(s))
      && (kind == Else <==> IsElse(s))
      && (kind == Partial <==> IsPartial(s))
  {
  }

  lemma {:induction false} WordsIff(s: string)
    ensures OpensIf(s) <==> "#if " <= s
    ensures OpensUnless(s) <==> "#unless " <= s
    ensures OpensEach(s) <==> "#each " <= s
    ensures ClosesIf(s) <==> s == "/if"
    ensures ClosesUnless(s) <==> s == "/unless"
    ensures ClosesEach(s) <==> s == "/each"
    ensures IsElseIf(s) <==> "else if " <= s
    ensures IsElse(s) <==> s == "else"
    ensures IsPartial(s) <==> "> " <= s
  {
    assert ClosesIf(s) ==> s == "/if";
    assert ClosesUnless(s) ==> s == "/unless";
    assert ClosesEach(s) ==> s == "/each";
    assert IsElse(s) ==> s == "else";
  }

  lemma {:induction false} ClassifiedValue(s: string, raw: string)
    ensures var t := ClassifyToken(s, raw);
      match t.kind
      case If => t.value == Trim(s[4..])
      case Unless => t.value == Trim(s[8..])
      case Each => t.value == Trim(s[6..])
      case ElseIf => t.value == Trim(s[8..])
      case Partial => t.value == Trim(s[2..])
      case Variable => t.value == s
      case _ => t.value == ""
  {
  }

  /** The value of a tag is what follows its keyword, trimmed; a variable is the whole content. */
  lemma {:induction false} ValueIs(content: string)
    ensures var s, t := Trim(content), TagToken(content);
      match t.kind
      case If => t.value == Trim(s[4..])
      case Unless => t.value == Trim(s[8..])
      case Each => t.value == Trim(s[6..])
      case ElseIf => t.value == Trim(s[8..])
      case Partial => t.value == Trim(s[2..])
      case Variable => t.value == s
      case _ => t.value == ""
  {
    ClassifiedValue(Trim(content), OPEN + content + CLOSE);
  }

  /** A tag that ends or goes on with a block is text where it is met outside that block. */
  lemma {:induction false} StrayIsText(t: Token, ts: seq<Token>)
    requires t.kind in {ElseIf, Else, EndIf, EndUnless, EndEach}
    ensures ParseNode(t, ts) == (TextNode(t.raw), ts)
  {
  }

  // ---------------------------------------------------------------------
  // Finding words
  // ---------------------------------------------------------------------

  /** The word stands at `k`. */
  predicate Reads(s: string, word: string, k: nat) {
    k + |word| <= |s| && s[k..k + |word|] == word
  }

  /** It stands there and nowhere before. */
  predicate FirstReads(s: string, word: string, k: nat) {
    Reads(s, word, k) && forall j: nat | j < k :: !Reads(s, word, j)
  }

  lemma {:induction false} TwoIff(s: string, a: char, b: char, word: string, k: nat)
    requires word == [a, b]
    ensures IndexOfTwo(s, a, b) == Some(k) <==> FirstReads(s, word, k)
  {
    forall j: nat
      ensures TwoAt(s, a, b, j) <==> Reads(s, word, j)
    {
      if j + 2 <= |s| {
        assert s[j..j + 2] == [s[j], s[j + 1]];
      }
    }
    if FirstReads(s, word, k) {
      IndexOfTwoIs(s, a, b, k);
    }
  }

  lemma {:induction false} AsIff(s: string, k: nat)
    ensures IndexOfAs(s) == Some(k) <==> FirstReads(s, " as ", k)
  {
    forall j: nat
      ensures AsAt(s, j) <==> Reads(s, " as ", j)
    {
      if j + 4 <= |s| {
        assert s[j..j + 4] == [s[j], s[j + 1], s[j + 2], s[j + 3]];
      }
    }
    if FirstReads(s, " as ", k) {
      assert HasAs(s);
      assert FirstAs(s, k) && FirstAs(s, IndexOfAs(s).value);
    }
  }

  // ---------------------------------------------------------------------
  // Conditions
  // ---------------------------------------------------------------------

  /** The first `==` stands at `k`, and no `!` stands before it. */
  predicate ComparesAt(expr: string, k: nat) {
    FirstReads(expr, "==", k) && (k > 0 ==> expr[k - 1] != '!')
  }

  /** A comparison is read at the first `==` unless a `!` stands before it; quotes around the value go. */
  lemma {:induction false} EqualsIff(expr: string)
    ensures ParseCondition(expr).operator == Equals <==> exists k: nat | k < |expr| :: ComparesAt(expr, k)
    ensures forall k: nat | k < |expr| && ComparesAt(expr, k) ::
              ParseCondition(expr) == Condition(Trim(expr[..k]), Equals, StripQuotes(Trim(expr[k + 2..])))
  {
    forall k: nat | k < |expr| && ComparesAt(expr, k)
      ensures ParseCondition(expr) == Condition(Trim(expr[..k]), Equals, StripQuotes(Trim(expr[k + 2..])))
    {
      TwoIff(expr, '=', '=', "==", k);
    }
    if forall k: nat | k < |expr| :: !ComparesAt(expr, k) {
      NotCompared(expr);
    }
  }

  /** Otherwise at the first `!=`, and without either the whole expression is a name. */
  lemma {:induction false} DiffersIff(expr: string)
    requires forall k: nat | k < |expr| :: !ComparesAt(expr, k)
    ensures ParseCondition(expr).operator == Differs <==> exists k: nat | k < |expr| :: FirstReads(expr, "!=", k)
    ensures forall k: nat | k < |expr| && FirstReads(expr, "!=", k) ::
              ParseCondition(expr) == Condition(Trim(expr[..k]), Differs, StripQuotes(Trim(expr[k + 2..])))
    ensures (forall k: nat | k < |expr| :: !FirstReads(expr, "!=", k)) ==>
              ParseCondition(expr) == Condition(Trim(expr), Truthy, "")
  {
    NotCompared(expr);
    var ne := IndexOfTwo(expr, '!', '=');
    if ne.Some? {
      TwoIff(expr, '!', '=', "!=", ne.value);
    }
    forall k: nat | k < |expr| && FirstReads(expr, "!=", k)
      ensures ParseCondition(expr) == Condition(Trim(expr[..k]), Differs, StripQuotes(Trim(expr[k + 2..])))
    {
      TwoIff(expr, '!', '=', "!=", k);
    }
  }

  lemma {:induction false} NotCompared(expr: string)
    requires forall k: nat | k < |expr| :: !ComparesAt(expr, k)
    ensures ParseCondition(expr) ==
            match IndexOfTwo(expr, '!', '=')
            case Some(k) => Condition(Trim(expr[..k]), Differs, StripQuotes(Trim(expr[k + 2..])))
            case None => Condition(Trim(expr), Truthy, "")
  {
    var eq := IndexOfTwo(expr, '=', '=');
    if eq.Some? {
      TwoIff(expr, '=', '=', "==", eq.value);
      assert !ComparesAt(expr, eq.value);
    }
    assert Trim("") == "" && StripQuotes("") == "";
  }

  /** A pair of equal quotes around a text is taken off, and nothing else is. */
  lemma {:induction false} QuotesIff(s: string, x: string)
    ensures StripQuotes("\"" + x + "\"") == x && StripQuotes("'" + x + "'") == x
    ensures StripQuotes("\"") == "" && StripQuotes("'") == ""
    ensures !("\"" <= s && s[|s| - 1] == '"') && !("'" <= s && s[|s| - 1] == '\'') ==> StripQuotes(s) == s
  {
    var double, single := "\"" + x + "\"", "'" + x + "'";
    assert double[1..|double| - 1] == x && single[1..|single| - 1] == x;
  }

  // ---------------------------------------------------------------------
  // Loops
  // ---------------------------------------------------------------------

  /** A loop is over the path before the first " as " and names its items behind it, or calls them "item". */
  lemma {:induction false} EachIs(expr: string)
    ensures forall k: nat | k < |expr| && FirstReads(expr, " as ", k) ::
              ParseEach(expr) == (Split(Trim(expr[..k]), '.'), Trim(expr[k + 4..]))
    ensures (forall k: nat | k < |expr| :: !FirstReads(expr, " as ", k)) ==>
              ParseEach(expr) == (Split(Trim(expr), '.'), "item")
  {
    forall k: nat
      ensures IndexOfAs(expr) == Some(k) <==> FirstReads(expr, " as ", k)
    {
      AsIff(expr, k);
    }
  }
}
