/** The JavaScript string operations the components use. */
module Strings {
  import opened Wrappers

  /** ECMAScript WhiteSpace and LineTerminator, as stripped by `trim` and matched by `\s`. */
  predicate IsSpace(c: char) {
    || c in "\t\n\r "
    || c == '\U{000B}' || c == '\U{000C}' || c == '\U{00A0}' || c == '\U{1680}'
    || '\U{2000}' <= c <= '\U{200A}'
    || c == '\U{2028}' || c == '\U{2029}' || c == '\U{202F}' || c == '\U{205F}' || c == '\U{3000}' || c == '\U{FEFF}'
  }

  /** ECMAScript's WhiteSpace and LineTerminator code points. */
  const Spaces: set<int> :=
    {9, 10, 11, 12, 13, 32, 160, 5760, 8192, 8193, 8194, 8195, 8196, 8197, 8198, 8199, 8200, 8201, 8202,
     8232, 8233, 8239, 8287, 12288, 65279}

  lemma {:induction false} SpaceIff(c: char)
    ensures IsSpace(c) <==> c as int in Spaces
  {
  }

  function TrimStart(s: string): (r: string)
    ensures r == "" || !IsSpace(r[0])
    ensures |r| <= |s|
  {
    if s != "" && IsSpace(s[0]) then TrimStart(s[1..]) else s
  }

  function TrimEnd(s: string): (r: string)
    ensures r == "" || !IsSpace(r[|r| - 1])
    ensures |r| <= |s| && r == s[..|r|]
  {
    if s != "" && IsSpace(s[|s| - 1]) then TrimEnd(s[..|s| - 1]) else s
  }

  function Trim(s: string): string {
    TrimEnd(TrimStart(s))
  }

  lemma {:induction false} NothingInFront(s: string)
    requires s != "" && !IsSpace(s[0])
    ensures Trim(s) == TrimEnd(s)
  {
  }

  /** Nothing to trim. */
  predicate Trimmed(s: string) {
    s != "" ==> !IsSpace(s[0]) && !IsSpace(s[|s| - 1])
  }

  lemma {:induction false} TrimIsTrimmed(s: string)
    ensures Trimmed(Trim(s))
    ensures Trim(s) == s <==> Trimmed(s)
  {
    var t := TrimStart(s);
    var r := TrimEnd(t);
    if r != "" {
      assert r[0] == t[0];
    }
    if Trimmed(s) {
      assert t == s;
    }
  }

  lemma {:induction false} TrimEndPrefix(p: string, e: string)
    requires p != "" && !IsSpace(p[|p| - 1])
    ensures TrimEnd(p + e) == p + TrimEnd(e)
    decreases |e|
  {
    if e == "" {
      assert p + e == p;
    } else if IsSpace(e[|e| - 1]) {
      assert (p + e)[..|p + e| - 1] == p + e[..|e| - 1];
      TrimEndPrefix(p, e[..|e| - 1]);
    }
  }

  lemma {:induction false} TrimEndBlank(p: string, e: string)
    requires TrimEnd(e) == ""
    ensures TrimEnd(p + e) == TrimEnd(p)
    decreases |e|
  {
    if e == "" {
      assert p + e == p;
    } else {
      assert (p + e)[..|p + e| - 1] == p + e[..|e| - 1];
      TrimEndBlank(p, e[..|e| - 1]);
    }
  }

  lemma {:induction false} TrimEndKeeps(p: string, e: string)
    requires TrimEnd(e) != ""
    ensures TrimEnd(p + e) == p + TrimEnd(e)
    decreases |e|
  {
    if IsSpace(e[|e| - 1]) {
      assert (p + e)[..|p + e| - 1] == p + e[..|e| - 1];
      TrimEndKeeps(p, e[..|e| - 1]);
    }
  }

  // ---------------------------------------------------------------------
  // Searching
  // ---------------------------------------------------------------------

  predicate TwoAt(s: string, a: char, b: char, k: nat) {
    k + 1 < |s| && s[k] == a && s[k + 1] == b
  }

  predicate HasTwo(s: string, a: char, b: char) {
    exists k: nat | k < |s| :: TwoAt(s, a, b, k)
  }

  predicate FirstTwo(s: string, a: char, b: char, k: nat) {
    TwoAt(s, a, b, k) && forall j: nat | j < k :: !TwoAt(s, a, b, j)
  }

  lemma {:induction false} FirstTwoExists(s: string, a: char, b: char, n: nat)
    requires TwoAt(s, a, b, n)
    ensures exists k: nat | k < |s| :: FirstTwo(s, a, b, k)
  {
    if j: nat :| j < n && TwoAt(s, a, b, j) {
      FirstTwoExists(s, a, b, j);
    } else {
      assert FirstTwo(s, a, b, n);
    }
  }

  /** `indexOf` of a two-character pattern */
  function IndexOfTwo(s: string, a: char, b: char): (r: Option<nat>)
    ensures r.Some? <==> HasTwo(s, a, b)
    ensures r.Some? ==> FirstTwo(s, a, b, r.value)
  {
    if HasTwo(s, a, b) then
      assert exists k: nat | k < |s| :: FirstTwo(s, a, b, k) by {
        var n: nat :| n < |s| && TwoAt(s, a, b, n);
        FirstTwoExists(s, a, b, n);
      }
      var k: nat :| k < |s| && FirstTwo(s, a, b, k);
      Some(k)
    else None
  }

  /** The first occurrence is where the pattern is found and nowhere before. */
  lemma {:induction false} IndexOfTwoIs(s: string, a: char, b: char, k: nat)
    requires FirstTwo(s, a, b, k)
    ensures IndexOfTwo(s, a, b) == Some(k)
  {
    assert HasTwo(s, a, b);
  }

  // ---------------------------------------------------------------------
  // Splitting and joining on a single character
  // ---------------------------------------------------------------------

  function Split(s: string, sep: char): (r: seq<string>)
    ensures r != [] && forall k | 0 <= k < |r| :: sep !in r[k]
  {
    if s == "" then [""]
    else
      var rest := Split(s[1..], sep);
      if s[0] == sep then [""] + rest else [[s[0]] + rest[0]] + rest[1..]
  }

  function Join(parts: seq<string>, sep: char): string {
    if parts == [] then ""
    else if |parts| == 1 then parts[0]
    else parts[0] + [sep] + Join(parts[1..], sep)
  }

  lemma {:induction false} JoinSplit(s: string, sep: char)
    ensures Join(Split(s, sep), sep) == s
  {
    if s != "" {
      var rest := Split(s[1..], sep);
      JoinSplit(s[1..], sep);
      if s[0] == sep {
        assert ([""] + rest)[1..] == rest;
      } else {
        var head := [s[0]] + rest[0];
        assert ([head] + rest[1..])[1..] == rest[1..];
        if |rest| == 1 {
          assert rest[1..] == [];
        }
        assert Join([head] + rest[1..], sep) == [s[0]] + Join(rest, sep);
      }
    }
  }

  lemma {:induction false} SplitPiece(piece: string, sep: char)
    requires sep !in piece
    ensures Split(piece, sep) == [piece]
  {
    if piece != "" {
      SplitPiece(piece[1..], sep);
      assert [piece[0]] + piece[1..] == piece;
    }
  }

  lemma {:induction false} SplitCons(piece: string, rest: string, sep: char)
    requires sep !in piece
    ensures Split(piece + [sep] + rest, sep) == [piece] + Split(rest, sep)
  {
    var s := piece + [sep] + rest;
    if piece == "" {
      assert s[1..] == rest;
    } else {
      assert s[1..] == piece[1..] + [sep] + rest;
      SplitCons(piece[1..], rest, sep);
      assert ([piece[1..]] + Split(rest, sep))[1..] == Split(rest, sep);
      assert [piece[0]] + piece[1..] == piece;
    }
  }

  /** Splitting inverts joining exactly for non-empty lists of pieces without the separator. */
  lemma {:induction false} SplitJoin(parts: seq<string>, sep: char)
    ensures Split(Join(parts, sep), sep) == parts <==>
            parts != [] && forall k | 0 <= k < |parts| :: sep !in parts[k]
  {
    if parts != [] && forall k | 0 <= k < |parts| :: sep !in parts[k] {
      if |parts| == 1 {
        SplitPiece(parts[0], sep);
      } else {
        var rest := parts[1..];
        assert forall k | 0 <= k < |rest| :: rest[k] == parts[k + 1];
        SplitJoin(rest, sep);
        SplitCons(parts[0], Join(rest, sep), sep);
        assert parts == [parts[0]] + rest;
      }
    }
  }
}
