/** The tokenizer of packages/prompt/src/renderer.ts. */
module TemplateTokens {
  import opened Sequences
  import opened Wrappers
  import opened Strings

  datatype TokenType =
    | Text | Variable | If | ElseIf | Else | EndIf | Unless | EndUnless | Each | EndEach | Partial

  datatype Token = Token(kind: TokenType, value: string, raw: string)

  const OPEN := "{{"
  const CLOSE := "}}"

  function TextToken(s: string): Token {
    Token(Text, s, s)
  }

  /** `s.startsWith("#if ")` */
  predicate OpensIf(s: string) {
    |s| >= 4 && s[0] == '#' && s[1] == 'i' && s[2] == 'f' && s[3] == ' '
  }

  /** `s.startsWith("#unless ")` */
  predicate OpensUnless(s: string) {
    && |s| >= 8 && s[0] == '#' && s[1] == 'u' && s[2] == 'n' && s[3] == 'l'
    && s[4] == 'e' && s[5] == 's' && s[6] == 's' && s[7] == ' '
  }

  /** `s.startsWith("#each ")` */
  predicate OpensEach(s: string) {
    |s| >= 6 && s[0] == '#' && s[1] == 'e' && s[2] == 'a' && s[3] == 'c' && s[4] == 'h' && s[5] == ' '
  }

  /** `s === "/if"` */
  predicate ClosesIf(s: string) {
    |s| == 3 && s[0] == '/' && s[1] == 'i' && s[2] == 'f'
  }

  /** `s === "/unless"` */
  predicate ClosesUnless(s: string) {
    |s| == 7 && s[0] == '/' && s[1] == 'u' && s[2] == 'n' && s[3] == 'l' && s[4] == 'e' && s[5] == 's' && s[6] == 's'
  }

  /** `s === "/each"` */
  predicate ClosesEach(s: string) {
    |s| == 5 && s[0] == '/' && s[1] == 'e' && s[2] == 'a' && s[3] == 'c' && s[4] == 'h'
  }

  /** `s.startsWith("else if ")` */
  predicate IsElseIf(s: string) {
    && |s| >= 8 && s[0] == 'e' && s[1] == 'l' && s[2] == 's' && s[3] == 'e'
    && s[4] == ' ' && s[5] == 'i' && s[6] == 'f' && s[7] == ' '
  }

  /** `s === "else"` */
  predicate IsElse(s: string) {
    |s| == 4 && s[0] == 'e' && s[1] == 'l' && s[2] == 's' && s[3] == 'e'
  }

  /** `s.startsWith("> ")` */
  predicate IsPartial(s: string) {
    |s| >= 2 && s[0] == '>' && s[1] == ' '
  }

  function ClassifyToken(inner: string, raw: string): (t: Token)
    ensures t.raw == raw && t.kind != Text
  {
    if OpensIf(inner) then Token(If, Trim(inner[4..]), raw)
    else if OpensUnless(inner) then Token(Unless, Trim(inner[8..]), raw)
    else if OpensEach(inner) then Token(Each, Trim(inner[6..]), raw)
    else if ClosesIf(inner) then Token(EndIf, "", raw)
    else if ClosesUnless(inner) then Token(EndUnless, "", raw)
    else if ClosesEach(inner) then Token(EndEach, "", raw)
    else if IsElseIf(inner) then Token(ElseIf, Trim(inner[8..]), raw)
    else if IsElse(inner) then Token(Else, "", raw)
    else if IsPartial(inner) then Token(Partial, Trim(inner[2..]), raw)
    else Token(Variable, inner, raw)
  }

  /** The token of the tag with this content. */
  function TagToken(content: string): (t: Token)
    ensures t.raw == OPEN + content + CLOSE && t.kind != Text
  {
    ClassifyToken(Trim(content), OPEN + content + CLOSE)
  }

  // ---------------------------------------------------------------------
  // Finding a tag
  // ---------------------------------------------------------------------

  /** `s.indexOf(c + c, from)` */
  method FindPair(s: string, c: char, from: nat) returns (r: Option<nat>)
    requires from <= |s|
    ensures r.Some? ==> from <= r.value && TwoAt(s, c, c, r.value)
    ensures forall j | from <= j < (if r.Some? then r.value else |s|) :: !TwoAt(s, c, c, j)
  {
    var k := from;
    while k < |s|
      invariant from <= k <= |s| && forall j | from <= j < k :: !TwoAt(s, c, c, j)
    {
      if k + 1 < |s| && s[k] == c && s[k + 1] == c {
        return Some(k);
      }
      k := k + 1;
    }
    return None;
  }

  /** The text up to the first pair and what follows it, or everything. */
  datatype Cut = Whole | Before(head: string, tail: string)

  function CutAt(s: string, c: char): (r: Cut)
    ensures r.Whole? <==> !HasTwo(s, c, c)
    ensures r.Before? ==> |s| == |r.head| + 2 + |r.tail|
  {
    match IndexOfTwo(s, c, c)
    case Some(k) => Before(s[..k], s[k + 2..])
    case None => Whole
  }

  /** The first pair determines the cut. */
  lemma {:induction false} CutUnique(head: string, tail: string, c: char)
    ensures CutAt(head + [c, c] + tail, c) == Before(head, tail) <==> !HasTwo(head + [c], c, c)
  {
    var s := head + [c, c] + tail;
    assert TwoAt(s, c, c, |head|);
    forall j: nat | j < |head|
      ensures TwoAt(s, c, c, j) <==> TwoAt(head + [c], c, c, j)
    {
    }
    var r := CutAt(s, c);
    if !HasTwo(head + [c], c, c) {
      IndexOfTwoIs(s, c, c, |head|);
      assert s[..|head|] == head && s[|head| + 2..] == tail;
    } else {
      var j: nat :| j < |head + [c]| && TwoAt(head + [c], c, c, j);
      assert TwoAt(s, c, c, j);
    }
  }

  /** A cut leaves out the first pair: the text before it holds none and does not complete one. */
  lemma {:induction false} CutClean(s: string, c: char)
    requires CutAt(s, c).Before?
    ensures s == CutAt(s, c).head + [c, c] + CutAt(s, c).tail
    ensures !HasTwo(CutAt(s, c).head + [c], c, c)
  {
    var r := CutAt(s, c);
    CutUnique(r.head, r.tail, c);
  }

  // ---------------------------------------------------------------------
  // Tokens
  // ---------------------------------------------------------------------

  /** The text token before a tag, if there is any text. */
  function Leading(s: string): seq<Token> {
    if s == "" then [] else [TextToken(s)]
  }

  /** What tokenizing a template yields. */
  ghost function Tokens(s: string): seq<Token>
    decreases |s|
  {
    if s == "" then []
    else match CutAt(s, '{')
      case Whole => [TextToken(s)]
      case Before(text, rest) =>
        match CutAt(rest, '}')
        case Whole => Leading(text) + [TextToken(OPEN + rest)]
        case Before(content, after) => Leading(text) + ([TagToken(content)] + Tokens(after))
  }

  /** The three ways a text goes on, by its pieces. */
  lemma {:induction false} TokensPlain(s: string)
    requires !HasTwo(s, '{', '{')
    ensures Tokens(s) == Leading(s)
  {
  }

  lemma {:induction false} TokensUnclosed(text: string, rest: string)
    requires !HasTwo(text + "{", '{', '{') && !HasTwo(rest, '}', '}')
    ensures Tokens(text + OPEN + rest) == Leading(text) + [TextToken(OPEN + rest)]
  {
    CutUnique(text, rest, '{');
  }

  lemma {:induction false} TokensTag(text: string, content: string, after: string)
    requires !HasTwo(text + "{", '{', '{') && !HasTwo(content + "}", '}', '}')
    ensures Tokens(text + OPEN + (content + CLOSE + after)) == Leading(text) + ([TagToken(content)] + Tokens(after))
  {
    CutUnique(text, content + CLOSE + after, '{');
    CutUnique(content, after, '}');
  }

  /** What `indexOf` finds from `pos` is the cut of the rest of the text. */
  lemma {:induction false} CutFound(s: string, c: char, pos: nat, k: nat)
    requires pos <= k && TwoAt(s, c, c, k) && forall j | pos <= j < k :: !TwoAt(s, c, c, j)
    ensures CutAt(s[pos..], c) == Before(s[pos..k], s[k + 2..])
  {
    var head, tail := s[pos..k], s[k + 2..];
    assert s[pos..] == head + [c, c] + tail;
    forall j: nat
      ensures !TwoAt(head + [c], c, c, j)
    {
      assert TwoAt(head + [c], c, c, j) ==> TwoAt(s, c, c, pos + j);
    }
    CutUnique(head, tail, c);
  }

  lemma {:induction false} CutMissing(s: string, c: char, pos: nat)
    requires pos <= |s| && forall j | pos <= j < |s| :: !TwoAt(s, c, c, j)
    ensures CutAt(s[pos..], c) == Whole
  {
    forall j: nat
      ensures !TwoAt(s[pos..], c, c, j)
    {
      assert TwoAt(s[pos..], c, c, j) ==> TwoAt(s, c, c, pos + j);
    }
  }

  /** One iteration of `tokenize`: the tokens up to the end of the next tag, and where to go on. */
  method NextTokens(template: string, pos: nat) returns (more: seq<Token>, next: nat)
    requires pos < |template|
    ensures pos < next <= |template|
    ensures Tokens(template[pos..]) == more + Tokens(template[next..])
  {
    var start := FindPair(template, '{', pos);
    if start.None? {
      TokensFromText(template, pos);
      more, next := [TextToken(template[pos..])], |template|;
    } else {
      more, next := TokensAtTag(template, pos, start.value);
    }
  }

  /** The tokens around the opening at `start`. */
  method TokensAtTag(template: string, pos: nat, start: nat) returns (more: seq<Token>, next: nat)
    requires pos <= start && TwoAt(template, '{', '{', start)
    requires forall j | pos <= j < start :: !TwoAt(template, '{', '{', j)
    ensures pos < next <= |template|
    ensures Tokens(template[pos..]) == more + Tokens(template[next..])
  {
    more := TextBefore(template, pos, start);
    var last;
    last, next := OpenedToken(template, pos, start, more);
    more := more + [last];
  }

  /** The tag from the opening at `start`, or the rest of the text if nothing closes it. */
  method OpenedToken(template: string, ghost pos: nat, start: nat, ghost before: seq<Token>)
    returns (token: Token, next: nat)
    requires pos <= start && TwoAt(template, '{', '{', start)
    requires forall j | pos <= j < start :: !TwoAt(template, '{', '{', j)
    requires before == Leading(template[pos..start])
    ensures start < next <= |template|
    ensures Tokens(template[pos..]) == before + [token] + Tokens(template[next..])
  {
    var end := FindPair(template, '}', start);
    if end.None? {
      token, next := ReadRest(template, pos, start, before);
    } else {
      token, next := ReadTag(template, pos, start, end.value, before);
    }
  }

  /** The text token before a tag, if there is any text. */
  method TextBefore(template: string, pos: nat, start: nat) returns (more: seq<Token>)
    requires pos <= start <= |template|
    ensures more == Leading(template[pos..start])
  {
    more := [];
    if start > pos {
      var text := template[pos..start];
      more := [TextToken(text)];
    }
  }

  /** The rest of the text, which the opening at `start` belongs to. */
  method ReadRest(template: string, ghost pos: nat, start: nat, ghost before: seq<Token>)
    returns (text: Token, next: nat)
    requires pos <= start && TwoAt(template, '{', '{', start)
    requires forall j | pos <= j < start :: !TwoAt(template, '{', '{', j)
    requires forall j | start <= j < |template| :: !TwoAt(template, '}', '}', j)
    requires before == Leading(template[pos..start])
    ensures start < next <= |template|
    ensures Tokens(template[pos..]) == before + [text] + Tokens(template[next..])
  {
    TokensFromUnclosed(template, pos, start, before);
    text, next := TextToken(template[start..]), |template|;
  }

  /** The tag found between an opening at `start` and the closing at `end`. */
  method ReadTag(template: string, ghost pos: nat, start: nat, end: nat, ghost before: seq<Token>)
    returns (tag: Token, next: nat)
    requires pos <= start && TwoAt(template, '{', '{', start)
    requires forall j | pos <= j < start :: !TwoAt(template, '{', '{', j)
    requires start <= end && TwoAt(template, '}', '}', end)
    requires forall j | start <= j < end :: !TwoAt(template, '}', '}', j)
    requires before == Leading(template[pos..start])
    ensures start < next <= |template|
    ensures Tokens(template[pos..]) == before + [tag] + Tokens(template[next..])
  {
    var raw := template[start..end + 2];
    var inner := Trim(template[start + 2..end]);
    tag, next := ClassifyToken(inner, raw), end + 2;
    TagTokenAt(template, start, end);
    TokensFromTag(template, pos, start, end, before, tag, next);
  }

  /** The loop of `tokenize`. */
  method Tokenize(template: string) returns (tokens: seq<Token>)
    ensures tokens == Tokens(template)
  {
    tokens := [];
    var pos := 0;
    assert template[0..] == template;
    while pos < |template|
      invariant 0 <= pos <= |template|
      invariant tokens + Tokens(template[pos..]) == Tokens(template)
    {
      var more, next := NextTokens(template, pos);
      tokens := tokens + more;
      pos := next;
    }
  }

  /** The raw text and the inner content cut out at a tag make its token. */
  lemma {:induction false} TagTokenAt(s: string, start: nat, end: nat)
    requires TwoAt(s, '{', '{', start) && start + 2 <= end && TwoAt(s, '}', '}', end)
    ensures ClassifyToken(Trim(s[start + 2..end]), s[start..end + 2]) == TagToken(s[start + 2..end])
  {
    assert s[start..end + 2] == OPEN + s[start + 2..end] + CLOSE;
  }

  lemma {:induction false} TokensFromText(s: string, pos: nat)
    requires pos < |s| && forall j | pos <= j < |s| :: !TwoAt(s, '{', '{', j)
    ensures Tokens(s[pos..]) == [TextToken(s[pos..])] + Tokens(s[|s|..])
  {
    CutMissing(s, '{', pos);
  }

  lemma {:induction false} TokensFromUnclosed(s: string, pos: nat, start: nat, before: seq<Token>)
    requires pos <= start && TwoAt(s, '{', '{', start) && forall j | pos <= j < start :: !TwoAt(s, '{', '{', j)
    requires forall j | start <= j < |s| :: !TwoAt(s, '}', '}', j)
    requires before == Leading(s[pos..start])
    ensures Tokens(s[pos..]) == before + [TextToken(s[start..])] + Tokens(s[|s|..])
  {
    CutFound(s, '{', pos, start);
    CutMissing(s, '}', start + 2);
    OpensAt(s, start);
    TokensUncut(s[pos..], s[pos..start], s[start + 2..]);
    NothingLeft(s);
  }

  /** The tokens of a text with an opening and no closing behind it. */
  lemma {:induction false} TokensUncut(s: string, text: string, rest: string)
    requires CutAt(s, '{') == Before(text, rest) && CutAt(rest, '}') == Whole
    ensures Tokens(s) == Leading(text) + [TextToken(OPEN + rest)]
  {
  }

  lemma {:induction false} NothingLeft(s: string)
    ensures Tokens(s[|s|..]) == []
  {
  }

  lemma {:induction false} CutsFound(s: string, pos: nat, start: nat, end: nat)
    requires pos <= start && TwoAt(s, '{', '{', start) && forall j | pos <= j < start :: !TwoAt(s, '{', '{', j)
    requires start + 2 <= end
    requires TwoAt(s, '}', '}', end) && forall j | start <= j < end :: !TwoAt(s, '}', '}', j)
    ensures CutAt(s[pos..], '{') == Before(s[pos..start], s[start + 2..])
    ensures CutAt(s[start + 2..], '}') == Before(s[start + 2..end], s[end + 2..])
  {
    CutFound(s, '{', pos, start);
    CutFound(s, '}', start + 2, end);
  }

  /** The tokens of a text by its two cuts. */
  lemma {:induction false} TokensByCuts(
      s: string, text: string, rest: string, content: string, after: string, before: seq<Token>, tag: Token)
    requires CutAt(s, '{') == Before(text, rest) && CutAt(rest, '}') == Before(content, after)
    requires before == Leading(text) && tag == TagToken(content)
    ensures Tokens(s) == before + [tag] + Tokens(after)
  {
    Middle(before, tag, Tokens(after));
  }

  lemma {:induction false} TokensFromTag(
      s: string, pos: nat, start: nat, end: nat, before: seq<Token>, tag: Token, next: nat)
    requires pos <= start && TwoAt(s, '{', '{', start) && forall j | pos <= j < start :: !TwoAt(s, '{', '{', j)
    requires start <= end && TwoAt(s, '}', '}', end) && forall j | start <= j < end :: !TwoAt(s, '}', '}', j)
    requires start + 2 <= end && next == end + 2
    requires before == Leading(s[pos..start]) && tag == TagToken(s[start + 2..end])
    ensures Tokens(s[pos..]) == before + [tag] + Tokens(s[next..])
  {
    CutsFound(s, pos, start, end);
    TokensByCuts(s[pos..], s[pos..start], s[start + 2..], s[start + 2..end], s[next..], before, tag);
  }

  lemma {:induction false} OpensAt(s: string, start: nat)
    requires TwoAt(s, '{', '{', start)
    ensures s[start..] == OPEN + s[start + 2..]
  {
  }

  /** The original text of a token list. */
  function Raw(tokens: seq<Token>): string {
    if tokens == [] then "" else tokens[0].raw + Raw(tokens[1..])
  }

  lemma {:induction false} RawAppend(a: seq<Token>, b: seq<Token>)
    ensures Raw(a + b) == Raw(a) + Raw(b)
  {
    if a == [] {
      assert a + b == b;
    } else {
      assert (a + b)[1..] == a[1..] + b;
      RawAppend(a[1..], b);
    }
  }

  lemma {:induction false} RawCons(t: Token, ts: seq<Token>)
    ensures Raw([t] + ts) == t.raw + Raw(ts)
  {
    assert ([t] + ts)[1..] == ts;
  }

  lemma {:induction false} RawLeading(s: string, ts: seq<Token>)
    ensures Raw(Leading(s) + ts) == s + Raw(ts)
  {
    if s != "" {
      RawCons(TextToken(s), ts);
    } else {
      assert Leading(s) + ts == ts;
    }
  }

  lemma {:induction false} Glue(text: string, content: string, after: string)
    ensures text + ((OPEN + content + CLOSE) + after) == text + ['{', '{'] + (content + ['}', '}'] + after)
    ensures text + ((OPEN + content + CLOSE) + after) == text + OPEN + (content + CLOSE + after)
  {
  }

  lemma {:induction false} GlueTail(text: string, rest: string)
    ensures text + ((OPEN + rest) + "") == text + ['{', '{'] + rest
    ensures text + ((OPEN + rest) + "") == text + OPEN + rest
  {
  }

  /** Tokenizing loses nothing. */
  lemma {:induction false} TokensLoseNothing(s: string)
    ensures Raw(Tokens(s)) == s
    decreases |s|
  {
    if s != "" {
      match CutAt(s, '{')
      case Whole =>
        RawLeading(s, []);
        assert [TextToken(s)] == Leading(s) + [];
      case Before(text, rest) =>
        CutClean(s, '{');
        match CutAt(rest, '}')
        case Whole =>
          RawLeading(text, [TextToken(OPEN + rest)]);
          RawCons(TextToken(OPEN + rest), []);
          assert [TextToken(OPEN + rest)] + [] == [TextToken(OPEN + rest)];
          GlueTail(text, rest);
        case Before(content, after) =>
          var tag, ts := TagToken(content), Tokens(after);
          CutClean(rest, '}');
          TokensLoseNothing(after);
          RawCons(tag, ts);
          RawLeading(text, [tag] + ts);
          Glue(text, content, after);
    }
  }

  // ---------------------------------------------------------------------
  // Which token lists are tokenizations
  // ---------------------------------------------------------------------

  /** A text token without an opening. */
  predicate Plain(t: Token) {
    t == TextToken(t.raw) && t.raw != "" && !HasTwo(t.raw, '{', '{')
  }

  /** The text token of a tag that is opened and never closed. */
  predicate Tail(t: Token) {
    t == TextToken(t.raw) && OPEN <= t.raw && !HasTwo(t.raw[2..], '}', '}')
  }

  /** The tag with this content, closed at its first closing. */
  predicate TagOf(t: Token, content: string) {
    t == TagToken(content) && !HasTwo(content + "}", '}', '}')
  }

  predicate Closed(t: Token) {
    |t.raw| >= 4 && TagOf(t, t.raw[2..|t.raw| - 2])
  }

  /**
   * The exact lexical conditions: text tokens are not empty, not adjacent and
   * contain no opening, nor complete one with what follows; only the last token may
   * be an unclosed tag; and no tag content contains or completes a closing.
   */
  predicate LexicallyWellFormed(ts: seq<Token>)
    decreases |ts|
  {
    if ts == [] then true
    else if Plain(ts[0]) then
      && (|ts| > 1 ==> !Plain(ts[1]) && !HasTwo(ts[0].raw + "{", '{', '{'))
      && LexicallyWellFormed(ts[1..])
    else if Tail(ts[0]) then |ts| == 1
    else Closed(ts[0]) && LexicallyWellFormed(ts[1..])
  }

  lemma {:induction false} TagOfCloses(t: Token, content: string)
    requires TagOf(t, content)
    ensures Closed(t) && !Plain(t) && !Tail(t)
  {
    assert t.raw[2..|t.raw| - 2] == content;
  }

  lemma {:induction false} WellFormedRetokenizes(ts: seq<Token>)
    requires LexicallyWellFormed(ts)
    ensures Tokens(Raw(ts)) == ts
    decreases |ts|
  {
    if ts != [] {
      if Plain(ts[0]) {
        if |ts| == 1 {
          assert ts[1..] == [] && Raw(ts) == ts[0].raw + "" == ts[0].raw;
          TokensPlain(ts[0].raw);
        } else {
          assert ts == Leading(ts[0].raw) + ts[1..] && ts[1..][0] == ts[1];
          RetokenizesFrom(ts[0].raw, ts[1..]);
        }
      } else {
        assert ts == Leading("") + ts;
        PairNeedsTwo('{');
        RetokenizesFrom("", ts);
        assert Raw(ts) == "" + Raw(ts);
      }
    }
  }

  lemma {:induction false} PairNeedsTwo(c: char)
    ensures !HasTwo("", c, c) && !HasTwo("" + [c], c, c)
  {
  }

  /** Text in front of a well-formed list that begins with a tag. */
  lemma {:induction false} RetokenizesFrom(text: string, ts: seq<Token>)
    requires !HasTwo(text + "{", '{', '{') && ts != [] && !Plain(ts[0]) && LexicallyWellFormed(ts)
    ensures Tokens(text + Raw(ts)) == Leading(text) + ts
    decreases |ts|, 0
  {
    AfterTag(ts);
    if Tail(ts[0]) {
      RetokenizesTail(text, ts, ts[0].raw[2..]);
    } else {
      WellFormedRetokenizes(ts[1..]);
      RetokenizesTag(text, ts, ts[0].raw[2..|ts[0].raw| - 2]);
    }
  }

  /** A well-formed list that begins with a tag: the tag is unclosed and last, or closed. */
  lemma {:induction false} AfterTag(ts: seq<Token>)
    requires ts != [] && !Plain(ts[0]) && LexicallyWellFormed(ts)
    ensures if Tail(ts[0]) then ts[1..] == [] else Closed(ts[0]) && LexicallyWellFormed(ts[1..])
  {
  }

  lemma {:induction false} RetokenizesTail(text: string, ts: seq<Token>, tail: string)
    requires !HasTwo(text + "{", '{', '{') && ts != [] && ts[1..] == [] && Tail(ts[0]) && tail == ts[0].raw[2..]
    ensures Tokens(text + Raw(ts)) == Leading(text) + ts
  {
    var t := ts[0];
    assert ts == [t] && t.raw == OPEN + tail && t == TextToken(OPEN + tail);
    RawCons(t, []);
    assert [t] + [] == ts;
    TokensUnclosed(text, tail);
    GlueTail(text, tail);
  }

  lemma {:induction false} RetokenizesTag(text: string, ts: seq<Token>, content: string)
    requires !HasTwo(text + "{", '{', '{') && ts != [] && TagOf(ts[0], content) && Tokens(Raw(ts[1..])) == ts[1..]
    ensures Tokens(text + Raw(ts)) == Leading(text) + ts
  {
    var rest := ts[1..];
    assert [ts[0]] + rest == ts;
    TokensTag(text, content, Raw(rest));
    Glue(text, content, Raw(rest));
  }

  lemma {:induction false} LeadingWellFormed(text: string, rest: seq<Token>)
    requires !HasTwo(text + "{", '{', '{') && rest != [] && !Plain(rest[0]) && LexicallyWellFormed(rest)
    ensures LexicallyWellFormed(Leading(text) + rest)
  {
    var ts := Leading(text) + rest;
    if text != "" {
      assert ts[1..] == rest && ts[1] == rest[0];
      if HasTwo(text, '{', '{') {
        var k: nat :| k < |text| && TwoAt(text, '{', '{', k);
        assert TwoAt(text + "{", '{', '{', k);
      }
    } else {
      assert ts == rest;
    }
  }

  lemma {:induction false} TokensWellFormed(s: string)
    ensures LexicallyWellFormed(Tokens(s))
    decreases |s|
  {
    if s != "" {
      match CutAt(s, '{')
      case Whole =>
        assert Plain(TextToken(s)) && [TextToken(s)][1..] == [];
      case Before(text, rest) =>
        CutClean(s, '{');
        match CutAt(rest, '}')
        case Whole =>
          var tail := TextToken(OPEN + rest);
          assert tail.raw[2..] == rest && TwoAt(tail.raw, '{', '{', 0);
          LeadingWellFormed(text, [tail]);
        case Before(content, after) =>
          TokensWellFormed(after);
          CutClean(rest, '}');
          TagOfCloses(TagToken(content), content);
          var ts := [TagToken(content)] + Tokens(after);
          assert ts[1..] == Tokens(after);
          LeadingWellFormed(text, ts);
    }
  }

  /**
   * A token list is what its own text tokenizes to if and only if it is lexically
   * well formed; so tokenizing is the only way to cut a text into such a list.
   */
  lemma {:induction false} RetokenizesIff(ts: seq<Token>)
    ensures Tokens(Raw(ts)) == ts <==> LexicallyWellFormed(ts)
  {
    if LexicallyWellFormed(ts) {
      WellFormedRetokenizes(ts);
    } else {
      TokensWellFormed(Raw(ts));
    }
  }
}
