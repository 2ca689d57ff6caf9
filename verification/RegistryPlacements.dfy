/**
 * Manual placements of packages/prompt/src/registry.ts: when a tag that the registry
 * takes for a placement is a partial for the renderer, and when includes are appended.
 */
module RegistryPlacements {
  import opened Wrappers
  import opened Strings
  import opened TemplateTokens
  import opened TemplateLeaves
  import opened TemplateHeads
  import opened RegistryResolution

  // ---------------------------------------------------------------------
  // One tag
  // ---------------------------------------------------------------------

  /** The text has no braces. */
  predicate NoBraces(c: string) {
    '{' !in c && '}' !in c
  }

  lemma {:induction false} TagChars(c: string, body: string)
    requires NoBraces(c) && body == OPEN + c + CLOSE
    ensures |body| == |c| + 4 && (c != "" ==> body[2] == c[0])
    ensures forall j | 0 <= j < |body| :: (body[j] == '{' <==> j < 2) && (body[j] == '}' <==> j >= |c| + 2)
  {
    assert forall j | 2 <= j < |c| + 2 :: body[j] == c[j - 2];
  }

  lemma {:induction false} PlacementOnlyAtMark(c: string, body: string, k: nat, e: nat)
    requires NoBraces(c) && body == OPEN + c + CLOSE && PlacementAt(body, k, e)
    ensures |c| >= 2 && c[0] == '>'
  {
    TagChars(c, body);
  }

  lemma {:induction false} PlacementIn(inner: string)
    requires |inner| >= 2 && inner[0] == '>' && '}' !in inner
    ensures HasPlacement(OPEN + inner + CLOSE)
  {
    var body := OPEN + inner + CLOSE;
    assert body == ['{', '{'] + inner + ['}', '}'];
    assert body[..2] == ['{', '{'] && body[2..|inner| + 2] == inner;
    assert forall j | 2 <= j < |inner| + 2 :: body[j] == inner[j - 2];
    assert PlacementAt(body, 0, |inner| + 2);
  }

  lemma {:induction false} PrefixKeeps<T>(s: seq<T>, t: seq<T>)
    requires |t| <= |s| && t == s[..|t|]
    ensures (|t| > 0 ==> t[0] == s[0]) && (|t| > 1 ==> t[1] == s[1])
  {
  }

  /** A body has a placement exactly if `{{>`, a non-empty text without `}`, and `}}` follow one another in it. */
  lemma {:induction false} HasPlacementIff(body: string)
    ensures HasPlacement(body) <==>
            exists before, c, after :: body == before + "{{>" + c + "}}" + after && c != "" && '}' !in c
  {
    if HasPlacement(body) {
      var k, e :| 0 <= k < |body| && 0 <= e < |body| && PlacementAt(body, k, e);
      var c := body[k + 3..e];
      assert body[k..k + 3] == "{{>" && body[e..e + 2] == "}}";
      assert body == body[..k] + "{{>" + c + "}}" + body[e + 2..];
    }
    if before, c, after :| body == before + "{{>" + c + "}}" + after && c != "" && '}' !in c {
      PlacementCut(before, c, after);
    }
  }

  lemma {:induction false} PlacementCut(before: string, c: string, after: string)
    requires c != "" && '}' !in c
    ensures HasPlacement(before + "{{>" + c + "}}" + after)
  {
    var body, k, e := before + "{{>" + c + "}}" + after, |before|, |before| + 3 + |c|;
    assert forall j | k + 3 <= j < e :: body[j] == c[j - k - 3];
    assert body[k..k + 3] == "{{>" && body[e..e + 2] == "}}";
    assert body[k] == '{' && body[k + 1] == '{' && body[k + 2] == '>' && body[e] == '}' && body[e + 1] == '}';
    assert PlacementAt(body, k, e);
  }

  /** A tag without braces in it is taken for a placement if and only if it begins with '>' and goes on. */
  lemma {:induction false} PlacementIff(c: string)
    requires NoBraces(c)
    ensures HasPlacement(OPEN + c + CLOSE) <==> |c| >= 2 && c[0] == '>'
  {
    var body := OPEN + c + CLOSE;
    if |c| >= 2 && c[0] == '>' {
      PlacementIn(c);
    }
    if HasPlacement(body) {
      var k, e :| 0 <= k < |body| && 0 <= e < |body| && PlacementAt(body, k, e);
      PlacementOnlyAtMark(c, body, k, e);
    }
  }

  /** The text begins with the mark and a plain space, and more than white space follows. */
  predicate NamesPartial(t: string) {
    |t| >= 2 && t[0] == '>' && t[1] == ' ' && TrimEnd(t[2..]) != ""
  }

  lemma {:induction false} TrimAfterStart(c: string)
    ensures Trim(TrimStart(c)) == Trim(c)
  {
  }

  lemma {:induction false} NotPartial(t: string, raw: string)
    ensures ClassifyToken(t, raw).kind == Partial ==> IsPartial(t)
  {
    KeywordIff(t, raw);
    if Keyword(t) && !IsPartial(t) {
      KeywordOther(t, raw);
    }
  }

  lemma {:induction false} KeywordOther(t: string, raw: string)
    requires || OpensIf(t) || OpensUnless(t) || OpensEach(t) || ClosesIf(t) || ClosesUnless(t) || ClosesEach(t)
             || IsElseIf(t) || IsElse(t)
    ensures ClassifyToken(t, raw).kind != Partial
  {
  }

  lemma {:induction false} OnlyPartial(t: string)
    requires t != "" && t[0] == '>' && !IsPartial(t)
    ensures !Keyword(t)
  {
  }

  lemma {:induction false} NotPartialVariable(t: string, raw: string)
    requires t != "" && t[0] == '>' && !IsPartial(t)
    ensures ClassifyToken(t, raw).kind == Variable
  {
    OnlyPartial(t);
    KeywordIff(t, raw);
  }

  lemma {:induction false} MarkAlone(raw: string)
    ensures ClassifyToken(">", raw).kind == Variable
  {
  }

  lemma {:induction false} Marked(t: string, f: string)
    requires t == "> " + f
    ensures TagToken(t).kind == if TrimEnd(f) != "" then Partial else Variable
  {
    PartialReads(f);
    TrimKeyword("> ", f);
    if TrimEnd(f) == "" {
      assert "> "[..1] == ">";
      MarkAlone(OPEN + t + CLOSE);
    }
  }

  /** Content that begins with the mark is a partial or a variable. */
  lemma {:induction false} MarkKind(t: string)
    requires t != "" && t[0] == '>'
    ensures TagToken(t).kind == if NamesPartial(t) then Partial else Variable
  {
    if |t| >= 2 && t[1] == ' ' {
      assert t == "> " + t[2..];
      Marked(t, t[2..]);
    } else {
      Unmarked(t);
      NotPartialVariable(Trim(t), OPEN + t + CLOSE);
    }
  }

  lemma {:induction false} Unmarked(t: string)
    requires t != "" && t[0] == '>' && (|t| >= 2 ==> t[1] != ' ')
    ensures var s := Trim(t); s != "" && s[0] == '>' && (|s| >= 2 ==> s[1] != ' ')
  {
    assert !IsSpace('>');
    StartsNonBlank(t);
    NothingInFront(t);
    PrefixKeeps(t, Trim(t));
  }

  lemma {:induction false} NotMark(t: string)
    requires t == "" || (t[0] != '>' && !IsSpace(t[0]))
    ensures TagToken(t).kind != Partial
  {
    assert TrimStart(t) == t;
    PrefixKeeps(t, Trim(t));
    NotPartial(Trim(t), OPEN + t + CLOSE);
  }

  /** A tag is read as a partial if and only if its content, without white space in front, names one. */
  lemma {:induction false} PartialIff(c: string)
    ensures TagToken(c).kind == Partial <==> NamesPartial(TrimStart(c))
  {
    TrimAfterStart(c);
    SameKind(c, TrimStart(c));
    KindOfStart(TrimStart(c));
  }

  lemma {:induction false} KindOfStart(t: string)
    requires t == "" || !IsSpace(t[0])
    ensures TagToken(t).kind == Partial <==> NamesPartial(t)
  {
    if t != "" && t[0] == '>' {
      MarkKind(t);
    } else {
      NotMark(t);
    }
  }

  lemma {:induction false} KindByInner(inner: string, a: string, b: string)
    ensures ClassifyToken(inner, a).kind == ClassifyToken(inner, b).kind
  {
  }

  lemma {:induction false} SameKind(a: string, b: string)
    requires Trim(a) == Trim(b)
    ensures TagToken(a).kind == TagToken(b).kind
  {
    KindByInner(Trim(a), OPEN + a + CLOSE, OPEN + b + CLOSE);
  }

  /** Behind the mark there must be a plain space and a name; otherwise the tag is a variable. */
  lemma {:induction false} PartialAfterMarkIff(s: string)
    ensures TagToken(">" + s).kind == if s != "" && s[0] == ' ' && TrimEnd(s[1..]) != "" then Partial else Variable
  {
    var c := ">" + s;
    assert s != "" ==> c[2..] == s[1..] && c[1] == s[0];
    MarkKind(c);
  }

  /**
   * Every other tag with the mark in front keeps the includes from being appended, but the
   * renderer does not read it as a partial.
   */
  lemma {:induction false} PlacementWithoutSpace(name: string)
    requires name != "" && '}' !in name && !(name[0] == ' ' && TrimEnd(name[1..]) != "")
    ensures HasPlacement(OPEN + (">" + name) + CLOSE)
    ensures TagToken(">" + name).kind == Variable
  {
    PlacementIn(">" + name);
    PartialAfterMarkIff(name);
  }

  /** A tag with the mark in front has a space behind it; one with white space before the mark has none. */
  predicate ReadAlike(c: string) {
    var t := TrimStart(c);
    if t == c then (|c| >= 2 && c[0] == '>' ==> NamesPartial(c)) else !NamesPartial(t)
  }

  /** Registry and renderer agree on a tag exactly then. */
  lemma {:induction false} AgreeIff(c: string)
    requires NoBraces(c)
    ensures (HasPlacement(OPEN + c + CLOSE) <==> TagToken(c).kind == Partial) <==> ReadAlike(c)
  {
    PlacementIff(c);
    PartialIff(c);
    StartKept(c);
  }

  lemma {:induction false} StartKept(c: string)
    ensures TrimStart(c) != c ==> c != "" && IsSpace(c[0]) && c[0] != '>'
  {
  }

  // ---------------------------------------------------------------------
  // Appending the includes
  // ---------------------------------------------------------------------

  lemma {:induction false} AppendGrows(db: Database, max: nat, body: string, includes: seq<string>, chain: seq<string>)
    requires AppendIncludes(db, max, body, includes, chain).Ok?
    ensures |AppendIncludes(db, max, body, includes, chain).value| >= |body| + |includes|
    decreases |includes|
  {
    if includes != [] {
      var r := Resolve(db, max, db[includes[0]], chain).value;
      AppendGrows(db, max, body + "\n" + r.resolvedBody, includes[1..], chain);
    }
  }

  /** The inherited body stays as it is if and only if it has a placement or there is nothing to include. */
  lemma {:induction false} AppendedIff(db: Database, max: nat, p: Parsed, chain: seq<string>)
    requires Resolve(db, max, p, chain).Ok?
    ensures Inherit(db, max, p, chain + [p.meta.name]).Ok?
    ensures var body := Inherit(db, max, p, chain + [p.meta.name]).value.0;
            Resolve(db, max, p, chain).value.resolvedBody == body <==> HasPlacement(body) || p.meta.includes == []
  {
    var body := Inherit(db, max, p, chain + [p.meta.name]).value.0;
    if !HasPlacement(body) {
      AppendGrows(db, max, body, p.meta.includes, chain + [p.meta.name]);
    }
  }

  // ---------------------------------------------------------------------
  // Lost and doubled includes
  // ---------------------------------------------------------------------

  predicate PartialOf(t: Token, name: string) {
    t.kind == Partial && t.value == name
  }

  /** The renderer finds a partial of this name in the body. */
  ghost predicate Placed(body: string, name: string) {
    exists t :: t in Tokens(body) && PartialOf(t, name)
  }

  /** The body with the parent's in front, before the includes are looked at. */
  function InheritedBody(db: Database, max: nat, p: Parsed, chain: seq<string>): string
    requires Resolve(db, max, p, chain).Ok?
  {
    Inherit(db, max, p, chain + [p.meta.name]).value.0
  }

  predicate AppendedAt(body: string, result: string, text: string, before: string, after: string) {
    body <= before && result == before + "\n" + text + after
  }

  /** Somewhere behind the body the text stands on a new line. */
  ghost predicate StandsBehind(body: string, result: string, text: string) {
    exists before, after :: AppendedAt(body, result, text, before, after)
  }

  /** The resolved body has what the name resolves to behind the inherited body. */
  ghost predicate Appended(db: Database, max: nat, p: Parsed, chain: seq<string>, name: string)
    requires Resolve(db, max, p, chain).Ok?
  {
    && name in db && Resolve(db, max, db[name], chain + [p.meta.name]).Ok?
    && StandsBehind(InheritedBody(db, max, p, chain), Resolve(db, max, p, chain).value.resolvedBody,
                    Resolve(db, max, db[name], chain + [p.meta.name]).value.resolvedBody)
  }

  lemma {:induction false} AppendExtends(
      db: Database, max: nat, body: string, includes: seq<string>, chain: seq<string>)
    requires AppendIncludes(db, max, body, includes, chain).Ok?
    ensures body <= AppendIncludes(db, max, body, includes, chain).value
    decreases |includes|
  {
    if includes != [] {
      var body' := body + "\n" + Resolve(db, max, db[includes[0]], chain).value.resolvedBody;
      AppendExtends(db, max, body', includes[1..], chain);
      PrefixOf(body, body', AppendIncludes(db, max, body', includes[1..], chain).value);
    }
  }

  lemma {:induction false} PrefixOf(a: string, b: string, c: string)
    requires a <= b <= c
    ensures a <= c
  {
  }

  lemma {:induction false} RestBehind(body: string, text: string, result: string)
    requires body + "\n" + text <= result
    ensures StandsBehind(body, result, text)
  {
    assert AppendedAt(body, result, text, body, result[|body + "\n" + text|..]);
  }

  lemma {:induction false} BehindMore(base: string, body: string, result: string, text: string)
    requires base <= body && StandsBehind(body, result, text)
    ensures StandsBehind(base, result, text)
  {
    var before, after :| AppendedAt(body, result, text, before, after);
    assert AppendedAt(base, result, text, before, after);
  }

  /** Appending puts every include behind the body. */
  lemma {:induction false} AppendsEach(
      db: Database, max: nat, body: string, includes: seq<string>, chain: seq<string>, name: string)
    requires AppendIncludes(db, max, body, includes, chain).Ok? && name in includes
    ensures name in db && Resolve(db, max, db[name], chain).Ok?
    ensures StandsBehind(body, AppendIncludes(db, max, body, includes, chain).value,
                         Resolve(db, max, db[name], chain).value.resolvedBody)
    decreases |includes|
  {
    var text := Resolve(db, max, db[includes[0]], chain).value.resolvedBody;
    var body' := body + "\n" + text;
    if name == includes[0] {
      AppendExtends(db, max, body', includes[1..], chain);
      RestBehind(body, text, AppendIncludes(db, max, body', includes[1..], chain).value);
    } else {
      AppendsEach(db, max, body', includes[1..], chain, name);
      BehindMore(body, body', AppendIncludes(db, max, body', includes[1..], chain).value,
                 Resolve(db, max, db[name], chain).value.resolvedBody);
    }
  }

  lemma {:induction false} NothingBehind(body: string, text: string)
    ensures !StandsBehind(body, body, text)
  {
    forall before, after
      ensures !AppendedAt(body, body, text, before, after)
    {
      assert |before + "\n" + text + after| == |before| + 1 + |text| + |after|;
    }
  }

  /** An include is appended if and only if the inherited body has no placement, of whatever name. */
  lemma {:induction false} EachAppendedIff(db: Database, max: nat, p: Parsed, chain: seq<string>, name: string)
    requires Resolve(db, max, p, chain).Ok? && name in p.meta.includes
    ensures Appended(db, max, p, chain, name) <==> !HasPlacement(InheritedBody(db, max, p, chain))
  {
    var body, chain' := InheritedBody(db, max, p, chain), chain + [p.meta.name];
    if HasPlacement(body) {
      if name in db && Resolve(db, max, db[name], chain').Ok? {
        NothingBehind(body, Resolve(db, max, db[name], chain').value.resolvedBody);
      }
    } else {
      AppendsEach(db, max, body, p.meta.includes, chain', name);
    }
  }

  /**
   * No include of a prompt is lost if and only if the inherited body has no placement
   * or has a partial of each of them.
   */
  lemma {:induction false} NothingLostIff(db: Database, max: nat, p: Parsed, chain: seq<string>)
    requires Resolve(db, max, p, chain).Ok?
    ensures var body := InheritedBody(db, max, p, chain);
            (forall name | name in p.meta.includes :: Placed(body, name) || Appended(db, max, p, chain, name)) <==>
            (HasPlacement(body) ==> forall name | name in p.meta.includes :: Placed(body, name))
  {
    forall name | name in p.meta.includes
      ensures Appended(db, max, p, chain, name) <==> !HasPlacement(InheritedBody(db, max, p, chain))
    {
      EachAppendedIff(db, max, p, chain, name);
    }
  }

  /** Some include is placed and appended as well if and only if there is a partial of it and no placement. */
  lemma {:induction false} SomeTwiceIff(db: Database, max: nat, p: Parsed, chain: seq<string>)
    requires Resolve(db, max, p, chain).Ok?
    ensures var body := InheritedBody(db, max, p, chain);
            (exists name :: name in p.meta.includes && Placed(body, name) && Appended(db, max, p, chain, name)) <==>
            !HasPlacement(body) && exists name :: name in p.meta.includes && Placed(body, name)
  {
    forall name | name in p.meta.includes
      ensures Appended(db, max, p, chain, name) <==> !HasPlacement(InheritedBody(db, max, p, chain))
    {
      EachAppendedIff(db, max, p, chain, name);
    }
  }

  /** Every include is placed or appended, and none both, exactly when both of these are avoided. */
  lemma {:induction false} IncludedOnceIff(db: Database, max: nat, p: Parsed, chain: seq<string>)
    requires Resolve(db, max, p, chain).Ok?
    ensures var body := InheritedBody(db, max, p, chain);
            (forall name | name in p.meta.includes ::
               Placed(body, name) <==> !Appended(db, max, p, chain, name)) <==>
            (forall name | name in p.meta.includes :: Placed(body, name) <==> HasPlacement(body))
  {
    forall name | name in p.meta.includes
      ensures Appended(db, max, p, chain, name) <==> !HasPlacement(InheritedBody(db, max, p, chain))
    {
      EachAppendedIff(db, max, p, chain, name);
    }
  }

  // ---------------------------------------------------------------------
  // Failing inputs: bodies of one tag
  // ---------------------------------------------------------------------

  lemma {:induction false} OneTag(c: string)
    requires NoBraces(c)
    ensures Tokens(OPEN + c + CLOSE) == [TagToken(c)]
  {
    NoPairs(c);
    TokensTag("", c, "");
    OneTagText(c);
    assert Tokens("") == [] && Leading("") + ([TagToken(c)] + []) == [TagToken(c)];
  }

  lemma {:induction false} NoPairs(c: string)
    requires NoBraces(c)
    ensures !HasTwo("" + "{", '{', '{') && !HasTwo(c + "}", '}', '}')
  {
    var s := c + "}";
    forall k: nat
      ensures !TwoAt(s, '}', '}', k)
    {
      assert k < |c| ==> s[k] == c[k];
    }
  }

  lemma {:induction false} OneTagText(c: string)
    ensures "" + OPEN + (c + CLOSE + "") == OPEN + c + CLOSE
  {
  }

  /** The tag of a partial places that name and no other. */
  lemma {:induction false} TagPlacesIff(c: string, name: string)
    requires NoBraces(c)
    ensures Placed(OPEN + c + CLOSE, name) <==> PartialOf(TagToken(c), name)
  {
    OneTag(c);
    assert TagToken(c) in [TagToken(c)];
  }

  lemma {:induction false} RawIsInherited(db: Database, max: nat, p: Parsed)
    requires p.meta.ext == "" && Resolve(db, max, p, []).Ok?
    ensures InheritedBody(db, max, p, []) == p.rawBody
  {
  }

  /** A placement of one name loses every include of another. */
  lemma {:induction false} OtherNameLoses(db: Database, max: nat, p: Parsed, other: string, name: string)
    requires max > 0 && p.meta.ext == "" && other != "" && NoBraces(other) && Trimmed(other)
    requires p.rawBody == OPEN + ("> " + other) + CLOSE && name in p.meta.includes && name != other
    ensures Resolve(db, max, p, []) == Ok(Resolved(p.meta, p.rawBody, p.rawBody))
    ensures Placed(p.rawBody, other) && !Placed(p.rawBody, name) && !Appended(db, max, p, [], name)
  {
    var c := "> " + other;
    PlacementIff(c);
    PartialNamed(other);
    TagPlacesIff(c, other);
    TagPlacesIff(c, name);
    RawIsInherited(db, max, p);
    EachAppendedIff(db, max, p, [], name);
  }

  lemma {:induction false} PartialNamed(name: string)
    requires name != "" && Trimmed(name)
    ensures PartialOf(TagToken("> " + name), name)
  {
    PartialReads(name);
    BlankTrims(name);
    TrimIsTrimmed(name);
  }

  /** Without a plain space and a name behind the mark the includes are lost. */
  lemma {:induction false} MarkLoses(db: Database, max: nat, p: Parsed, s: string)
    requires max > 0 && p.meta.ext == "" && NoBraces(s) && p.rawBody == OPEN + (">" + s) + CLOSE
    requires s != "" && !(s[0] == ' ' && TrimEnd(s[1..]) != "")
    ensures TagToken(">" + s).kind == Variable
    ensures Resolve(db, max, p, []) == Ok(Resolved(p.meta, p.rawBody, p.rawBody))
  {
    PlacementWithoutSpace(s);
  }

  /** A tab, for instance. */
  lemma {:induction false} TabLoses(db: Database, max: nat, p: Parsed, name: string)
    requires max > 0 && p.meta.ext == "" && NoBraces(name) && p.rawBody == OPEN + (">" + (['\t'] + name)) + CLOSE
    ensures TagToken(">" + (['\t'] + name)).kind == Variable
    ensures Resolve(db, max, p, []) == Ok(Resolved(p.meta, p.rawBody, p.rawBody))
  {
    var s := ['\t'] + name;
    assert s[0] == '\t';
    MarkLoses(db, max, p, s);
  }

  /** With a space before the mark the include is placed by the tag and appended as well. */
  lemma {:induction false} SpaceDoubles(db: Database, max: nat, p: Parsed, c: string, name: string)
    requires max > 0 && p.meta.ext == "" && p.meta.includes == [name] && name in db
    requires name != "" && Trimmed(name) && NoBraces(name)
    requires c == [' '] + ("> " + name) && p.rawBody == OPEN + c + CLOSE
    requires Resolve(db, max, db[name], [p.meta.name]).Ok?
    ensures TagToken(c).kind == Partial && TagToken(c).value == name
    ensures Resolve(db, max, p, []).Ok?
    ensures Resolve(db, max, p, []).value.resolvedBody ==
            p.rawBody + "\n" + Resolve(db, max, db[name], [p.meta.name]).value.resolvedBody
  {
    PlacementIff(c);
    SpacedIsPartial(c, "> " + name, name);
    assert [] + [p.meta.name] == [p.meta.name];
    AppendsOne(db, max, p.rawBody, name, [p.meta.name]);
  }

  lemma {:induction false} SpacedIsPartial(c: string, t: string, name: string)
    requires name != "" && Trimmed(name) && t == "> " + name && c == [' '] + t
    ensures TagToken(c).kind == Partial && TagToken(c).value == name
  {
    assert c[1..] == t;
    TrimDropsFirst(c);
    MarkedIs(t, name);
    MarkedTrims(t);
    NotOther(t, OPEN + c + CLOSE);
    TrimIsTrimmed(name);
  }

  lemma {:induction false} MarkedIs(t: string, name: string)
    requires name != "" && t == "> " + name
    ensures |t| > 2 && t[0] == '>' && t[1] == ' ' && t[2..] == name && t[|t| - 1] == name[|name| - 1]
  {
  }

  lemma {:induction false} MarkedTrims(t: string)
    requires t != "" && t[0] == '>' && !IsSpace(t[|t| - 1])
    ensures Trim(t) == t
  {
    assert !IsSpace('>');
    TrimIsTrimmed(t);
  }

  lemma {:induction false} AppendsOne(db: Database, max: nat, body: string, name: string, chain: seq<string>)
    requires name in db && Resolve(db, max, db[name], chain).Ok?
    ensures AppendIncludes(db, max, body, [name], chain) ==
            Ok(body + "\n" + Resolve(db, max, db[name], chain).value.resolvedBody)
  {
    assert [name][1..] == [];
  }
}
