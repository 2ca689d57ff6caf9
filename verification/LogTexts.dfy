/** Message texts of packages/mom/src/context.ts and packages/mom/src/agent.ts. */
module LogTexts {
  import opened Sequences

  /** The opening of the attachment section of a live message. */
  const Mark := "\n\n<slack_attachments>\n"

  predicate IsDigit(c: char) {
    '0' <= c <= '9'
  }

  /** The text begins like `[2024-01-31 09:05:00+01:00] `. */
  predicate Stamped(s: string) {
    && |s| >= 28
    && s[0] == '[' && IsDigit(s[1]) && IsDigit(s[2]) && IsDigit(s[3]) && IsDigit(s[4])
    && s[5] == '-' && IsDigit(s[6]) && IsDigit(s[7]) && s[8] == '-' && IsDigit(s[9]) && IsDigit(s[10])
    && s[11] == ' ' && IsDigit(s[12]) && IsDigit(s[13]) && s[14] == ':' && IsDigit(s[15]) && IsDigit(s[16])
    && s[17] == ':' && IsDigit(s[18]) && IsDigit(s[19]) && (s[20] == '+' || s[20] == '-')
    && IsDigit(s[21]) && IsDigit(s[22]) && s[23] == ':' && IsDigit(s[24]) && IsDigit(s[25])
    && s[26] == ']' && s[27] == ' '
  }

  function StripStamp(s: string): string {
    if Stamped(s) then s[28..] else s
  }

  predicate Number(s: string) {
    forall c | c in s :: c in "0123456789"
  }

  lemma {:induction false} NumberIff(s: string)
    ensures Number(s) <==> forall k | 0 <= k < |s| :: IsDigit(s[k])
  {
    forall c
      ensures c in "0123456789" <==> IsDigit(c)
    {
      var digits := "0123456789";
      if IsDigit(c) {
        assert digits[c as int - '0' as int] == c;
      }
    }
  }

  lemma {:induction false} TwoDigits(s: string, k: nat)
    requires k + 2 <= |s|
    ensures Number(s[k..k + 2]) <==> IsDigit(s[k]) && IsDigit(s[k + 1])
  {
    NumberIff(s[k..k + 2]);
    assert s[k..k + 2] == [s[k], s[k + 1]];
  }

  /** Date, time and offset, in brackets and followed by a space. */
  lemma {:induction false} StampedIff(s: string)
    ensures Stamped(s) <==>
      && |s| >= 28
      && s[0] == '[' && Number(s[1..3]) && Number(s[3..5]) && s[5] == '-' && Number(s[6..8])
      && s[8] == '-' && Number(s[9..11]) && s[11] == ' '
      && Number(s[12..14]) && s[14] == ':' && Number(s[15..17]) && s[17] == ':' && Number(s[18..20])
      && s[20] in "+-" && Number(s[21..23]) && s[23] == ':' && Number(s[24..26])
      && s[26] == ']' && s[27] == ' '
  {
    if |s| >= 28 {
      TwoDigits(s, 1);
      TwoDigits(s, 3);
      TwoDigits(s, 6);
      TwoDigits(s, 9);
      TwoDigits(s, 12);
      TwoDigits(s, 15);
      TwoDigits(s, 18);
      TwoDigits(s, 21);
      TwoDigits(s, 24);
    }
  }

  predicate MarkAt(s: string, k: nat) {
    k + 22 <= |s| && s[k..k + 22] == Mark
  }

  predicate HasMark(s: string) {
    exists k: nat | k < |s| :: MarkAt(s, k)
  }

  predicate FirstMark(s: string, k: nat) {
    MarkAt(s, k) && forall j: nat | j < k :: !MarkAt(s, j)
  }

  lemma {:induction false} FirstMarkExists(s: string, n: nat)
    requires MarkAt(s, n)
    ensures exists k: nat | k < |s| :: FirstMark(s, k)
  {
    if j: nat :| j < n && MarkAt(s, j) {
      FirstMarkExists(s, j);
    } else {
      assert FirstMark(s, n);
    }
  }

  /** The text before the attachment section, if there is one. */
  function CutSection(s: string): (r: string)
    ensures r <= s && (r == s <==> !HasMark(s))
    ensures forall k: nat | FirstMark(s, k) :: r == s[..k]
  {
    if HasMark(s) then
      assert exists k: nat | k < |s| :: FirstMark(s, k) by {
        var n: nat :| n < |s| && MarkAt(s, n);
        FirstMarkExists(s, n);
      }
      var k: nat :| k < |s| && FirstMark(s, k);
      s[..k]
    else s
  }

  /** How the texts of a session are compared with those of the log. */
  function Normalise(s: string): (r: string)
    ensures |r| <= |s| && (|r| == |s| ==> r == s)
    ensures r == s <==> !Stamped(s) && !HasMark(s)
  {
    CutSection(StripStamp(s))
  }

  /** What is left has no opening of a section. */
  lemma {:induction false} CutUnmarked(s: string)
    ensures !HasMark(CutSection(s))
  {
    if HasMark(s) {
      var n: nat :| n < |s| && MarkAt(s, n);
      FirstMarkExists(s, n);
      var k: nat :| k < |s| && FirstMark(s, k);
      forall j: nat
        ensures !MarkAt(s[..k], j)
      {
        if j + 22 <= k {
          assert s[..k][j..j + 22] == s[j..j + 22];
          assert !MarkAt(s, j);
        }
      }
    }
  }

  /** `value || fallback` on texts */
  function Or(value: string, fallback: string): string {
    if value != "" then value else fallback
  }

  /** A message as it stands in the context. */
  function Said(name: string, text: string): string {
    "[" + name + "]: " + text
  }

  function JoinLines(lines: seq<string>): string {
    if lines == [] then ""
    else if |lines| == 1 then lines[0]
    else lines[0] + "\n" + JoinLines(lines[1..])
  }

  /** The section with the paths of attached files, if there are any. */
  function Section(paths: seq<string>): string {
    if paths == [] then "" else Mark + JoinLines(paths) + "\n</slack_attachments>"
  }

  /** Date, time and offset. */
  predicate IsStamp(ts: string) {
    && |ts| == 25
    && Number(ts[0..2]) && Number(ts[2..4]) && ts[4] == '-' && Number(ts[5..7])
    && ts[7] == '-' && Number(ts[8..10]) && ts[10] == ' '
    && Number(ts[11..13]) && ts[13] == ':' && Number(ts[14..16]) && ts[16] == ':' && Number(ts[17..19])
    && ts[19] in "+-" && Number(ts[20..22]) && ts[22] == ':' && Number(ts[23..25])
  }

  /** A message as it is prompted live. */
  function Live(ts: string, base: string, paths: seq<string>): string {
    "[" + ts + "] " + base + Section(paths)
  }

  lemma {:induction false} StampIsStripped(ts: string)
    requires IsStamp(ts)
    ensures Stamped("[" + ts + "] ")
  {
    TwoDigits(ts, 0);
    TwoDigits(ts, 2);
    TwoDigits(ts, 5);
    TwoDigits(ts, 8);
    TwoDigits(ts, 11);
    TwoDigits(ts, 14);
    TwoDigits(ts, 17);
    TwoDigits(ts, 20);
    TwoDigits(ts, 23);
    var s := "[" + ts + "] ";
    assert forall k | 0 <= k < 25 :: s[k + 1] == ts[k];
  }

  lemma {:induction false} LiveRegroups(ts: string, name: string, text: string, a: string, b: string)
    ensures "[" + ts + "] " + Said(name, text) == "[" + ts + "] [" + name + "]: " + text
    ensures Mark + (a + "\n" + b) + "\n</slack_attachments>" ==
            "\n\n<slack_attachments>\n" + a + "\n" + b + "\n</slack_attachments>"
  {
  }

  /** A live message with its stamp, its text, and the paths of its attachments on lines of their own. */
  lemma {:induction false} LiveIs(ts: string, name: string, text: string, a: string, b: string)
    ensures Live(ts, Said(name, text), []) == "[" + ts + "] [" + name + "]: " + text
    ensures Live(ts, Said(name, text), [a, b]) ==
            "[" + ts + "] [" + name + "]: " + text
            + "\n\n<slack_attachments>\n" + a + "\n" + b + "\n</slack_attachments>"
  {
    assert [a, b][1..] == [b];
    assert JoinLines([a, b]) == a + "\n" + b;
    LiveRegroups(ts, name, text, a, b);
  }

  /** Paths are joined by newlines. */
  lemma {:induction false} LinesJoined(a: seq<string>, b: seq<string>)
    requires a != [] && b != []
    ensures JoinLines(a + b) == JoinLines(a) + "\n" + JoinLines(b) && JoinLines([a[0]]) == a[0]
    decreases |a|
  {
    if |a| == 1 {
      assert (a + b)[1..] == b;
    } else {
      assert (a + b)[1..] == a[1..] + b;
      LinesJoined(a[1..], b);
      Associate(a[0] + "\n", JoinLines(a[1..]) + "\n", JoinLines(b));
    }
  }

  lemma {:induction false} StampStrips(ts: string, rest: string)
    requires IsStamp(ts)
    ensures StripStamp("[" + ts + "] " + rest) == rest
  {
    StampIsStripped(ts);
    var prefix := "[" + ts + "] ";
    var s := prefix + rest;
    assert |prefix| == 28 && forall k | 0 <= k < 28 :: s[k] == prefix[k];
    assert s[28..] == rest;
  }

  /** Two marks cannot overlap by more than one character. */
  lemma {:induction false} MarksApart(base: string, rest: string, p: nat)
    requires p < |base| && MarkAt(base + Mark + rest, p)
    ensures p + 22 <= |base| + 1
  {
    var s := base + Mark + rest;
    assert s[|base|] == Mark[0] && s[|base| + 1] == Mark[1];
    assert s[p + 2] == s[p..p + 22][2] == Mark[2];
    assert forall j | 0 <= j < 22 :: s[p..p + 22][j] == Mark[j];
    if |base| - p < 22 {
      NewlinesOfMark(|base| - p);
    }
    assert |base| - p < 22 ==> s[p..p + 22][|base| - p] == s[|base|];
  }

  lemma {:induction false} NewlinesOfMark(d: nat)
    requires d < 22
    ensures Mark[d] == '\n' <==> d == 0 || d == 1 || d == 21
  {
  }

  /** A mark in front of the section is one in the text and the newline after it. */
  lemma {:induction false} MarkInFront(base: string, rest: string, p: nat)
    requires p < |base|
    ensures MarkAt(base + Mark + rest, p) <==> MarkAt(base + "\n", p)
  {
    var s, b := base + Mark + rest, base + "\n";
    assert Mark[0] == '\n';
    assert s[..|base| + 1] == b;
    if MarkAt(s, p) {
      MarksApart(base, rest, p);
      assert b[p..p + 22] == s[p..p + 22];
    }
    if MarkAt(b, p) {
      assert s[p..p + 22] == b[p..p + 22];
    }
  }

  lemma {:induction false} SectionCuts(base: string, rest: string)
    ensures CutSection(base + Mark + rest) == base <==> !HasMark(base + "\n")
  {
    var s := base + Mark + rest;
    assert s[|base|..|base| + 22] == Mark;
    if HasMark(base + "\n") {
      var p: nat :| p < |base + "\n"| && MarkAt(base + "\n", p);
      MarkInFront(base, rest, p);
      FirstMarkExists(s, p);
      var k: nat :| k < |s| && FirstMark(s, k);
      assert k <= p && |CutSection(s)| == k;
    } else {
      forall j: nat | j < |base|
        ensures !MarkAt(s, j)
      {
        MarkInFront(base, rest, j);
      }
      assert FirstMark(s, |base|);
      assert s[..|base|] == base;
    }
  }

  lemma {:induction false} LiveStrips(ts: string, base: string, paths: seq<string>)
    requires IsStamp(ts)
    ensures StripStamp(Live(ts, base, paths)) == base + Section(paths)
  {
    Associate("[" + ts + "] ", base, Section(paths));
    StampStrips(ts, base + Section(paths));
  }

  lemma {:induction false} SectionIs(base: string, paths: seq<string>)
    requires paths != []
    ensures base + Section(paths) == base + Mark + (JoinLines(paths) + "\n</slack_attachments>")
  {
  }

  /**
   * Normalising a live message gives back what was said if and only if the opening of an
   * attachment section does not occur in it (nor, with attachments, in it and a newline).
   */
  lemma {:induction false} LiveInverseIff(ts: string, base: string, paths: seq<string>)
    requires IsStamp(ts)
    ensures Normalise(Live(ts, base, paths)) == base <==> !HasMark(if paths == [] then base else base + "\n")
  {
    LiveStrips(ts, base, paths);
    if paths == [] {
      assert base + Section(paths) == base;
    } else {
      SectionIs(base, paths);
      SectionCuts(base, JoinLines(paths) + "\n</slack_attachments>");
    }
  }

  lemma {:induction false} SectionNotKept(base: string, rest: string)
    ensures CutSection(base + Mark + rest) <= base
  {
    var s := base + Mark + rest;
    assert s[|base|..|base| + 22] == Mark;
    FirstMarkExists(s, |base|);
    var k: nat :| k < |s| && FirstMark(s, k);
    assert MarkAt(s, |base|) && k <= |base|;
    assert s[..k] == base[..k];
  }

  /** Normalising a live message never gives more than was said. */
  lemma {:induction false} LiveShrinks(ts: string, base: string, paths: seq<string>)
    requires IsStamp(ts)
    ensures Normalise(Live(ts, base, paths)) <= base
  {
    LiveStrips(ts, base, paths);
    if paths == [] {
      assert base + Section(paths) == base;
    } else {
      SectionIs(base, paths);
      SectionNotKept(base, JoinLines(paths) + "\n</slack_attachments>");
    }
  }

  /** Being said by someone without brackets in the name is no timestamp. */
  lemma {:induction false} SaidNotStamped(name: string, text: string)
    requires ']' !in name
    ensures !Stamped(Said(name, text))
  {
    var s := Said(name, text);
    assert s[1 + |name|] == ']' && s[2 + |name|] == ':';
    forall k | 1 <= k <= |name|
      ensures s[k] == name[k - 1] && s[k] != ']'
    {
    }
  }
}
