/**
 * The fuzzy matcher of packages/tui/src/fuzzy.ts. Scores are ten times the source's, so
 * that they are whole numbers.
 */
module Fuzzy {
  import opened Sequences
  import opened Strings
  import opened StableSort

  datatype Match = Match(matches: bool, score: int)

  /** The state of the greedy scan. */
  datatype Scan = Scan(queryIndex: nat, score: int, lastMatchIndex: int, consecutiveMatches: nat)

  const Start := Scan(0, 0, -1, 0)

  /** The first character of a word: at the start, or behind one of `[\s\-_./:]`. */
  predicate IsBoundary(text: string, i: nat)
    requires i < |text|
  {
    i == 0 || IsSpace(text[i - 1]) || text[i - 1] in "-_./:"
  }

  /** White space, hyphen, underscore, dot, slash and colon separate words. */
  lemma {:induction false} BoundaryIff(text: string, i: nat)
    requires i < |text|
    ensures IsBoundary(text, i) <==>
            i == 0 || text[i - 1] as int in Spaces || text[i - 1] in {'-', '_', '.', '/', ':'}
  {
    if i > 0 {
      SpaceIff(text[i - 1]);
    }
  }

  /** The scan looks at character `i` of the text. */
  function Look(query: string, text: string, s: Scan, i: nat): Scan
    requires i < |text|
  {
    if s.queryIndex >= |query| || text[i] != query[s.queryIndex] then s
    else
      var run := if s.lastMatchIndex == i - 1 then s.consecutiveMatches + 1 else 0;
      var gap := if s.lastMatchIndex != i - 1 && s.lastMatchIndex >= 0 then (i - s.lastMatchIndex - 1) * 20 else 0;
      var boundary := if IsBoundary(text, i) then 100 else 0;
      Scan(s.queryIndex + 1, s.score - run * 50 + gap - boundary + i, i, run)
  }

  /** The scan after `n` characters. */
  function ScanTo(query: string, text: string, n: nat): Scan
    requires n <= |text|
  {
    if n == 0 then Start else Look(query, text, ScanTo(query, text, n - 1), n - 1)
  }

  /** `matchQuery` */
  function MatchOf(query: string, text: string): Match {
    if |query| == 0 then Match(true, 0)
    else if |query| > |text| then Match(false, 0)
    else
      var s := ScanTo(query, text, |text|);
      if s.queryIndex < |query| then Match(false, 0) else Match(true, s.score)
  }

  /** Once the query is used up, the rest of the text does not matter. */
  lemma {:induction false} ScanStops(query: string, text: string, i: nat, n: nat)
    requires i <= n <= |text| && ScanTo(query, text, i).queryIndex >= |query|
    ensures ScanTo(query, text, n) == ScanTo(query, text, i)
    decreases n
  {
    if i < n {
      ScanStops(query, text, i, n - 1);
    }
  }

  method MatchQuery(query: string, text: string) returns (r: Match)
    ensures r == MatchOf(query, text)
  {
    if |query| == 0 {
      return Match(true, 0);
    }
    if |query| > |text| {
      return Match(false, 0);
    }
    var queryIndex := 0;
    var score := 0;
    var lastMatchIndex := -1;
    var consecutiveMatches := 0;
    var i := 0;
    while i < |text| && queryIndex < |query|
      invariant 0 <= i <= |text| && 0 <= queryIndex && 0 <= consecutiveMatches
      invariant Scan(queryIndex, score, lastMatchIndex, consecutiveMatches) == ScanTo(query, text, i)
    {
      if text[i] == query[queryIndex] {
        var isWordBoundary := IsBoundary(text, i);
        if lastMatchIndex == i - 1 {
          consecutiveMatches := consecutiveMatches + 1;
          score := score - consecutiveMatches * 50;
        } else {
          consecutiveMatches := 0;
          if lastMatchIndex >= 0 {
            score := score + (i - lastMatchIndex - 1) * 20;
          }
        }
        if isWordBoundary {
          score := score - 100;
        }
        score := score + i;
        lastMatchIndex := i;
        queryIndex := queryIndex + 1;
      }
      i := i + 1;
    }
    if queryIndex >= |query| {
      ScanStops(query, text, i, |text|);
    }
    r := if queryIndex < |query| then Match(false, 0) else Match(true, score);
  }

  // ---------------------------------------------------------------------
  // Greedy matching is subsequence matching
  // ---------------------------------------------------------------------

  /** The characters of the query stand in the text at these increasing positions. */
  predicate Embeds(query: string, text: string, at: seq<nat>) {
    && |at| == |query|
    && (forall k | 0 <= k < |at| :: at[k] < |text| && text[at[k]] == query[k])
    && (forall j, k | 0 <= j < k < |at| :: at[j] < at[k])
  }

  ghost predicate Subsequence(query: string, text: string) {
    exists at :: Embeds(query, text, at)
  }

  /** How many matches without a gap end with match `k`; a match at the very start continues such a stretch. */
  function Stretch(at: seq<nat>, k: nat): nat
    requires k < |at|
  {
    if k == 0 then if at[0] == 0 then 1 else 0
    else if at[k] == at[k - 1] + 1 then Stretch(at, k - 1) + 1
    else 0
  }

  /** What match `m` adds: stretches and word starts lower the score, gaps and lateness raise it. */
  function Gain(text: string, at: seq<nat>, m: nat): int
    requires m < |at| && at[m] < |text|
  {
    var i: int := at[m];
    var gap := if m > 0 && i != at[m - 1] + 1 then i - at[m - 1] - 1 else 0;
    i + 20 * gap - 50 * Stretch(at, m) - (if IsBoundary(text, at[m]) then 100 else 0)
  }

  /** What a match at these positions is worth. */
  function Worth(text: string, at: seq<nat>): int
    requires forall k | 0 <= k < |at| :: at[k] < |text|
  {
    if at == [] then 0 else Worth(text, at[..|at| - 1]) + Gain(text, at, |at| - 1)
  }

  lemma {:induction false} StretchPrefix(at: seq<nat>, i: nat, k: nat)
    requires k < |at|
    ensures Stretch(at + [i], k) == Stretch(at, k)
    decreases k
  {
    if k > 0 {
      StretchPrefix(at, i, k - 1);
    }
  }

  /** Increasing positions below `n` at each of which the scan matched the next character. */
  predicate Placed(query: string, text: string, n: nat, at: seq<nat>) {
    && n <= |text| && |at| <= |query|
    && (forall k | 0 <= k < |at| ::
          at[k] < n && text[at[k]] == query[k] && ScanTo(query, text, at[k]).queryIndex == k)
    && (forall j, k | 0 <= j < k < |at| :: at[j] < at[k])
  }

  /** The state of the scan after matches at these positions. */
  predicate Priced(text: string, s: Scan, at: seq<nat>) {
    && (forall k | 0 <= k < |at| :: at[k] < |text|)
    && s.queryIndex == |at|
    && s.score == Worth(text, at)
    && s.lastMatchIndex == (if at == [] then -1 else at[|at| - 1])
    && s.consecutiveMatches == (if at == [] then 0 else Stretch(at, |at| - 1))
  }

  predicate Matched(query: string, text: string, n: nat, at: seq<nat>) {
    Placed(query, text, n, at) && Priced(text, ScanTo(query, text, n), at)
  }

  lemma {:induction false} ScanMatched(query: string, text: string, n: nat) returns (at: seq<nat>)
    requires n <= |text|
    ensures Matched(query, text, n, at)
    decreases n
  {
    at := [];
    if n > 0 {
      at := ScanMatched(query, text, n - 1);
      if ScanTo(query, text, n).queryIndex > |at| {
        MatchedSnoc(query, text, n, at);
        at := at + [n - 1];
      }
    }
  }

  lemma {:induction false} WorthSnoc(text: string, at: seq<nat>, i: nat)
    requires i < |text| && forall k | 0 <= k < |at| :: at[k] < |text|
    ensures Worth(text, at + [i]) == Worth(text, at) + Gain(text, at + [i], |at|)
  {
    assert (at + [i])[..|at|] == at;
  }

  /** A matching character changes the scan as its position says. */
  lemma {:induction false} LookGain(query: string, text: string, s: Scan, at: seq<nat>, i: nat)
    requires i < |text| && s.queryIndex < |query| && text[i] == query[s.queryIndex]
    requires s.lastMatchIndex == (if at == [] then -1 else at[|at| - 1]) && s.lastMatchIndex < i
    requires s.consecutiveMatches == (if at == [] then 0 else Stretch(at, |at| - 1))
    ensures var s' := Look(query, text, s, i);
            && s'.score == s.score + Gain(text, at + [i], |at|)
            && s'.lastMatchIndex == i && s'.consecutiveMatches == Stretch(at + [i], |at|)
  {
    if at != [] {
      StretchPrefix(at, i, |at| - 1);
      assert (at + [i])[|at| - 1] == at[|at| - 1];
    }
  }

  lemma {:induction false} PricedSnoc(query: string, text: string, s: Scan, at: seq<nat>, i: nat)
    requires i < |text| && s.queryIndex < |query| && text[i] == query[s.queryIndex]
    requires Priced(text, s, at) && s.lastMatchIndex < i
    ensures Priced(text, Look(query, text, s, i), at + [i])
  {
    WorthSnoc(text, at, i);
    LookGain(query, text, s, at, i);
  }

  lemma {:induction false} PlacedSnoc(query: string, text: string, n: nat, at: seq<nat>)
    requires 0 < n <= |text| && Placed(query, text, n - 1, at) && |at| < |query| && text[n - 1] == query[|at|]
    requires ScanTo(query, text, n - 1).queryIndex == |at|
    ensures Placed(query, text, n, at + [n - 1])
  {
    var at' := at + [n - 1];
    forall k | 0 <= k < |at'|
      ensures at'[k] < n && text[at'[k]] == query[k] && ScanTo(query, text, at'[k]).queryIndex == k
      ensures forall j | 0 <= j < k :: at'[j] < at'[k]
    {
      assert k < |at| ==> at'[k] == at[k];
    }
  }

  lemma {:induction false} MatchedSnoc(query: string, text: string, n: nat, at: seq<nat>)
    requires 0 < n <= |text| && Matched(query, text, n - 1, at) && ScanTo(query, text, n).queryIndex > |at|
    ensures Matched(query, text, n, at + [n - 1])
  {
    PricedSnoc(query, text, ScanTo(query, text, n - 1), at, n - 1);
    PlacedSnoc(query, text, n, at);
  }

  /** What the scan has used of the query stands in what it has seen of the text. */
  lemma {:induction false} ScanEmbeds(query: string, text: string, n: nat) returns (at: seq<nat>)
    requires n <= |text|
    ensures ScanTo(query, text, n).queryIndex <= |query|
    ensures Embeds(query[..ScanTo(query, text, n).queryIndex], text[..n], at)
    ensures Matched(query, text, n, at)
  {
    at := ScanMatched(query, text, n);
  }

  /** One more character of the text keeps what was found, and takes the character it is waited for. */
  lemma {:induction false} ScanTakes(query: string, text: string, n: nat, m: nat)
    requires 0 < n <= |text| && m < |query|
    ensures ScanTo(query, text, n).queryIndex >= ScanTo(query, text, n - 1).queryIndex
    ensures ScanTo(query, text, n - 1).queryIndex >= m && text[n - 1] == query[m] ==>
              ScanTo(query, text, n).queryIndex > m
  {
  }

  /** No longer prefix of the query stands in what the scan has seen. */
  lemma {:induction false} ScanIsLongest(query: string, text: string, n: nat, at: seq<nat>)
    requires n <= |text| && |at| <= |query| && Embeds(query[..|at|], text[..n], at)
    ensures |at| <= ScanTo(query, text, n).queryIndex
    decreases n
  {
    if at != [] {
      var m := |at| - 1;
      var init := at[..m];
      assert at[m] < n && text[..n][at[m]] == text[at[m]] == query[..m + 1][m] == query[m];
      assert forall k | 0 <= k < m :: at[k] < at[m] && text[at[k]] == text[..n][at[k]] == query[..m + 1][k] == query[k];
      if at[m] < n - 1 {
        assert forall k | 0 <= k <= m :: text[..n - 1][at[k]] == text[at[k]];
        ScanIsLongest(query, text, n - 1, at);
        ScanTakes(query, text, n, m);
      } else {
        assert forall k | 0 <= k < m :: text[..n - 1][init[k]] == text[at[k]] && query[..m][k] == query[k];
        ScanIsLongest(query, text, n - 1, init);
        ScanTakes(query, text, n, m);
      }
    }
  }

  /** The greedy scan succeeds if and only if the query is a subsequence of the text. */
  lemma {:induction false} MatchIffSubsequence(query: string, text: string)
    ensures MatchOf(query, text).matches <==> Subsequence(query, text)
  {
    var n := |text|;
    assert text[..n] == text && query[..|query|] == query;
    if MatchOf(query, text).matches {
      var at := ScanEmbeds(query, text, n);
      if |query| == 0 {
        assert Embeds(query, text, []);
      } else {
        assert query[..ScanTo(query, text, n).queryIndex] == query;
      }
    }
    if Subsequence(query, text) {
      var at :| Embeds(query, text, at);
      ScanIsLongest(query, text, n, at);
      var none := ScanEmbeds(query, text, n);
      EmbedsShorter(query, text, at, |query|);
    }
  }

  lemma {:induction false} ScanAdvances(query: string, text: string, i: nat, n: nat)
    requires i <= n <= |text|
    ensures ScanTo(query, text, i).queryIndex <= ScanTo(query, text, n).queryIndex
    decreases n
  {
    if i < n {
      ScanAdvances(query, text, i, n - 1);
    }
  }

  /** No position of an embedding comes before that of the greedy scan. */
  predicate Leftmost(query: string, text: string, at: seq<nat>, other: seq<nat>) {
    Embeds(query, text, other) ==> |other| == |at| && forall k | 0 <= k < |at| :: at[k] <= other[k]
  }

  lemma {:induction false} PrefixEmbeds(query: string, text: string, at: seq<nat>, k: nat)
    requires Embeds(query, text, at) && k < |at|
    ensures Embeds(query[..k + 1], text[..at[k] + 1], at[..k + 1])
  {
  }

  lemma {:induction false} MatchedIsLeftmost(query: string, text: string, at: seq<nat>, other: seq<nat>)
    requires Matched(query, text, |text|, at) && |at| == |query|
    ensures Leftmost(query, text, at, other)
  {
    if Embeds(query, text, other) {
      forall k | 0 <= k < |at|
        ensures at[k] <= other[k]
      {
        NoneEarlier(query, text, at, other, k);
      }
    }
  }

  lemma {:induction false} NoneEarlier(query: string, text: string, at: seq<nat>, other: seq<nat>, k: nat)
    requires Placed(query, text, |text|, at) && |at| == |query| && Embeds(query, text, other) && k < |at|
    ensures at[k] <= other[k]
  {
    PrefixEmbeds(query, text, other, k);
    ScanIsLongest(query, text, other[k] + 1, other[..k + 1]);
    if other[k] < at[k] {
      ScanAdvances(query, text, other[k] + 1, at[k]);
    }
  }

  /** The score of a match is what its leftmost embedding is worth. */
  lemma {:induction false} MatchScore(query: string, text: string)
    requires MatchOf(query, text).matches
    ensures exists at ::
              && Embeds(query, text, at) && (forall other :: Leftmost(query, text, at, other))
              && MatchOf(query, text).score == Worth(text, at)
  {
    if |query| == 0 {
      assert Embeds(query, text, []) && Worth(text, []) == 0;
      assert forall other :: Leftmost(query, text, [], other);
    } else {
      var at := ScanMatched(query, text, |text|);
      forall other
        ensures Leftmost(query, text, at, other)
      {
        MatchedIsLeftmost(query, text, at, other);
      }
      assert Embeds(query, text, at);
    }
  }

  lemma {:induction false} EmbedsShorter(query: string, text: string, at: seq<nat>, k: nat)
    requires Embeds(query, text, at) && k <= |query|
    ensures k > 0 ==> k - 1 <= at[k - 1] < |text|
    decreases k
  {
    if k > 0 {
      EmbedsShorter(query, text, at, k - 1);
    }
  }

  // ---------------------------------------------------------------------
  // Scores
  // ---------------------------------------------------------------------

  /** The best score of a match of length `k`: all consecutive, at the start, all word boundaries. */
  function Best(k: nat): int {
    k * (k - 1) / 2 - 25 * k * (k + 1) - 100 * k
  }

  lemma {:induction false} BestStep(k: nat)
    ensures Best(k + 1) == Best(k) - 50 * (k + 1) - 100 + k
  {
  }

  lemma {:induction false} ScoreBound(query: string, text: string, n: nat)
    requires n <= |text|
    ensures var s := ScanTo(query, text, n);
            && s.score >= Best(s.queryIndex) && s.consecutiveMatches <= s.queryIndex <= n
            && s.lastMatchIndex < n
    decreases n
  {
    if n > 0 {
      ScoreBound(query, text, n - 1);
      BestStep(ScanTo(query, text, n - 1).queryIndex);
    }
  }

  /** A match scores no better than `Best` of its length. */
  lemma {:induction false} MatchScoreBound(query: string, text: string)
    requires MatchOf(query, text).matches
    ensures MatchOf(query, text).score >= Best(|query|)
  {
    if |query| > 0 {
      ScoreBound(query, text, |text|);
      var at := ScanEmbeds(query, text, |text|);
    }
  }

  function Dots(n: nat): (r: string)
    ensures |r| == n && forall k | 0 <= k < n :: r[k] == '.'
  {
    seq(n, _ => '.')
  }

  lemma {:induction false} DotsScan(n: nat, k: nat)
    requires k <= n
    ensures ScanTo(Dots(n), Dots(n), k) == Scan(k, Best(k), k - 1, k)
    decreases k
  {
    if k > 0 {
      DotsScan(n, k - 1);
      BestStep(k - 1);
    }
  }

  /** The bound is reached, for every length. */
  lemma {:induction false} BestIsReached(n: nat)
    ensures MatchOf(Dots(n), Dots(n)) == Match(true, Best(n))
  {
    DotsScan(n, n);
  }

  /** `a`, some filling, and `b`. */
  function Filled(n: nat): (r: string)
    ensures |r| == n + 2 && r[0] == 'a' && r[n + 1] == 'b' && forall k | 0 < k <= n :: r[k] == 'x'
  {
    ['a'] + seq(n, _ => 'x') + ['b']
  }

  lemma {:induction false} FilledScan(n: nat, k: nat)
    requires 0 < k <= n + 1
    ensures ScanTo("ab", Filled(n), k) == Scan(1, -150, 0, 1)
    decreases k
  {
    if k > 1 {
      FilledScan(n, k - 1);
    } else {
      assert ScanTo("ab", Filled(n), 0) == Start;
    }
  }

  /**
   * A word start is worth 10 and a stretch 5 for each match so far in it; a gap costs 2 for each
   * character left out, and lateness a tenth for each character before.
   */
  lemma {:induction false} GapScore(n: nat)
    ensures MatchOf("ab", Filled(n)) == Match(true, if n == 0 then -249 else -150 + 20 * n + n + 1)
  {
    FilledScan(n, n + 1);
    var text := Filled(n);
    assert !IsBoundary(text, n + 1);
    assert ScanTo("ab", text, n + 2) == Look("ab", text, ScanTo("ab", text, n + 1), n + 1);
  }

  // ---------------------------------------------------------------------
  // Swapping letters and digits
  // ---------------------------------------------------------------------

  predicate Letters(s: string, from: nat, to: nat) {
    to <= |s| && forall k | from <= k < to :: 'a' <= s[k] <= 'z'
  }

  predicate Digits(s: string, from: nat, to: nat) {
    to <= |s| && forall k | from <= k < to :: '0' <= s[k] <= '9'
  }

  /** Letters then digits, or digits then letters, cut at `k`. */
  predicate SwapsAt(s: string, k: nat) {
    && 0 < k < |s|
    && ((Letters(s, 0, k) && Digits(s, k, |s|)) || (Digits(s, 0, k) && Letters(s, k, |s|)))
  }

  lemma {:induction false} CutOnce(s: string, j: nat, k: nat)
    requires SwapsAt(s, j) && SwapsAt(s, k)
    ensures j == k
  {
    var first, atJ, atK := s[0], s[j], s[k];
  }

  /** The query with letters and digits swapped, or "". */
  function Swapped(s: string): string {
    if exists k | 0 <= k < |s| :: SwapsAt(s, k) then
      assert forall j, k | 0 <= j < |s| && 0 <= k < |s| && SwapsAt(s, j) && SwapsAt(s, k) :: j == k by {
        forall j, k | 0 <= j < |s| && 0 <= k < |s| && SwapsAt(s, j) && SwapsAt(s, k)
          ensures j == k
        {
          CutOnce(s, j, k);
        }
      }
      var k :| 0 <= k < |s| && SwapsAt(s, k);
      s[k..] + s[..k]
    else ""
  }

  lemma {:induction false} SwappedAt(s: string, k: nat)
    requires SwapsAt(s, k)
    ensures Swapped(s) == s[k..] + s[..k]
  {
    var j :| 0 <= j < |s| && SwapsAt(s, j) && Swapped(s) == s[j..] + s[..j];
    CutOnce(s, j, k);
  }

  lemma {:induction false} RotatedSwaps(s: string, k: nat)
    requires SwapsAt(s, k)
    ensures SwapsAt(s[k..] + s[..k], |s| - k)
  {
    var t := s[k..] + s[..k];
    assert forall i | 0 <= i < |s| - k :: t[i] == s[k + i];
    assert forall i | |s| - k <= i < |s| :: t[i] == s[i - (|s| - k)];
  }

  /** Swapping twice gives the query back. */
  lemma {:induction false} SwapsBack(s: string)
    requires Swapped(s) != ""
    ensures Swapped(Swapped(s)) == s
  {
    var k: nat :| 0 <= k < |s| && SwapsAt(s, k);
    SwappedAt(s, k);
    RotatedSwaps(s, k);
    SwappedAt(s[k..] + s[..k], |s| - k);
    RotatedBack(s, k);
  }

  lemma {:induction false} RotatedBack<T>(s: seq<T>, k: nat)
    requires k <= |s|
    ensures (s[k..] + s[..k])[|s| - k..] + (s[k..] + s[..k])[..|s| - k] == s
  {
    assert (s[k..] + s[..k])[|s| - k..] == s[..k] && (s[k..] + s[..k])[..|s| - k] == s[k..];
    assert s[..k] + s[k..] == s;
  }

  /** The text is not empty and its characters are from `a` to `z`. */
  predicate Lettered(s: string) {
    s != "" && forall c | c in s :: 97 <= c as int <= 122
  }

  /** The same with `0` to `9`. */
  predicate Numbered(s: string) {
    s != "" && forall c | c in s :: 48 <= c as int <= 57
  }

  /** Letters and digits change places, in either order. */
  lemma {:induction false} SwapExchanges(a: string, b: string)
    requires Lettered(a) && Numbered(b)
    ensures Swapped(a + b) == b + a && Swapped(b + a) == a + b
  {
    var ab, ba := a + b, b + a;
    assert ab[|a|..] == b && ab[..|a|] == a && ba[|b|..] == a && ba[..|b|] == b;
    assert forall k | 0 <= k < |a| :: ab[k] == a[k] && ba[|b| + k] == a[k] && a[k] in a;
    assert forall k | 0 <= k < |b| :: ab[|a| + k] == b[k] && ba[k] == b[k] && b[k] in b;
    assert SwapsAt(ab, |a|) && SwapsAt(ba, |b|);
    SwappedAt(ab, |a|);
    SwappedAt(ba, |b|);
  }

  /** Only such queries have a swap. */
  lemma {:induction false} OnlySuchSwap(s: string)
    requires Swapped(s) != ""
    ensures exists a, b :: Lettered(a) && Numbered(b) && (s == a + b || s == b + a)
  {
    var k: nat :| k < |s| && SwapsAt(s, k);
    var a, b := s[..k], s[k..];
    assert s == a + b;
    KindsIff(s, k);
    if Lettered(a) && Numbered(b) {
      assert s == a + b;
    } else {
      assert Lettered(b) && Numbered(a) && s == a + b;
    }
  }

  lemma {:induction false} KindsIff(s: string, k: nat)
    requires 0 < k < |s|
    ensures Letters(s, 0, k) <==> Lettered(s[..k])
    ensures Digits(s, 0, k) <==> Numbered(s[..k])
    ensures Letters(s, k, |s|) <==> Lettered(s[k..])
    ensures Digits(s, k, |s|) <==> Numbered(s[k..])
  {
    assert forall j | 0 <= j < k :: s[..k][j] == s[j] && s[j] in s[..k];
    assert forall j | k <= j < |s| :: s[k..][j - k] == s[j] && s[j] in s[k..];
  }

  // ---------------------------------------------------------------------
  // Matching and filtering
  // ---------------------------------------------------------------------

  /** `fuzzyMatch` of texts in lower case */
  function MatchLower(query: string, text: string): Match {
    var primary := MatchOf(query, text);
    if primary.matches then primary
    else
      var swapped := Swapped(query);
      if swapped == "" then primary
      else
        var other := MatchOf(swapped, text);
        if other.matches then Match(true, other.score + 50) else primary
  }

  method FuzzyMatch(query: string, text: string, lower: string -> string) returns (r: Match)
    ensures r == MatchLower(lower(query), lower(text))
  {
    var queryLower := lower(query);
    var textLower := lower(text);
    var primary := MatchQuery(queryLower, textLower);
    if primary.matches {
      return primary;
    }
    var swapped := Swapped(queryLower);
    if swapped == "" {
      return primary;
    }
    var other := MatchQuery(swapped, textLower);
    if !other.matches {
      return primary;
    }
    r := Match(true, other.score + 50);
  }

  /** A query matches if and only if it or its swap is a subsequence of the text. */
  lemma {:induction false} MatchLowerIff(query: string, text: string)
    ensures MatchLower(query, text).matches <==>
            Subsequence(query, text) || (Swapped(query) != "" && Subsequence(Swapped(query), text))
  {
    MatchIffSubsequence(query, text);
    MatchIffSubsequence(Swapped(query), text);
  }

  /** A match of the query counts as it is; one of its swap costs 5 more; anything else is no match. */
  lemma {:induction false} SwapCosts(query: string, text: string)
    ensures MatchOf(query, text).matches ==> MatchLower(query, text) == MatchOf(query, text)
    ensures !MatchOf(query, text).matches && Swapped(query) != "" && MatchOf(Swapped(query), text).matches ==>
              MatchLower(query, text) == Match(true, MatchOf(Swapped(query), text).score + 50)
    ensures !MatchLower(query, text).matches ==> MatchLower(query, text).score == 0
  {
  }

  /** The number of characters before the first space. */
  function WordLength(s: string): (n: nat)
    ensures n <= |s| && (s != "" && !IsSpace(s[0]) ==> n > 0)
  {
    if s == "" || IsSpace(s[0]) then 0 else 1 + WordLength(s[1..])
  }

  /** The non-empty pieces between runs of spaces. */
  function Words(s: string): seq<string> {
    if s == "" then []
    else if IsSpace(s[0]) then Words(s[1..])
    else [s[..WordLength(s)]] + Words(s[WordLength(s)..])
  }

  /** A text without white space. */
  predicate Solid(s: string) {
    forall c | c in s :: c as int !in Spaces
  }

  lemma {:induction false} SolidLength(s: string, rest: string)
    requires Solid(s) && (rest != "" ==> rest[0] as int in Spaces)
    ensures WordLength(s + rest) == |s|
    decreases |s|
  {
    if s == "" {
      assert s + rest == rest;
      if rest != "" {
        SpaceIff(rest[0]);
      }
    } else {
      assert s[0] in s;
      SpaceIff(s[0]);
      assert (s + rest)[1..] == s[1..] + rest;
      assert forall c | c in s[1..] :: c in s;
      SolidLength(s[1..], rest);
    }
  }

  /** The words of a text are what stands between white space. */
  lemma {:induction false} WordsAre(a: string, c: char, rest: string)
    requires Solid(a) && c as int in Spaces
    ensures Words(a) == if a == "" then [] else [a]
    ensures Words(a + ([c] + rest)) == (if a == "" then [] else [a]) + Words(rest)
  {
    var tail := [c] + rest;
    SpaceIff(c);
    assert Words(tail) == Words(rest) by {
      assert tail[1..] == rest;
    }
    SolidLength(a, "");
    SolidLength(a, tail);
    if a == "" {
      assert a + tail == tail && [] + Words(rest) == Words(rest);
    } else {
      assert a[0] in a;
      SpaceIff(a[0]);
      assert a + "" == a && a[..|a|] == a && a[|a|..] == "";
      assert (a + tail)[..|a|] == a && (a + tail)[|a|..] == tail;
    }
  }

  predicate AllMatch(tokens: seq<string>, text: string, lower: string -> string) {
    forall k | 0 <= k < |tokens| :: MatchLower(lower(tokens[k]), lower(text)).matches
  }

  function TotalScore(tokens: seq<string>, text: string, lower: string -> string): int {
    if tokens == [] then 0
    else TotalScore(tokens[..|tokens| - 1], text, lower) + MatchLower(lower(tokens[|tokens| - 1]), lower(text)).score
  }

  lemma {:induction false} AllMatchSnoc(tokens: seq<string>, k: nat, text: string, lower: string -> string)
    requires k < |tokens|
    ensures AllMatch(tokens[..k + 1], text, lower) <==>
            AllMatch(tokens[..k], text, lower) && MatchLower(lower(tokens[k]), lower(text)).matches
  {
    forall j | 0 <= j < k
      ensures tokens[..k + 1][j] == tokens[..k][j]
    {
    }
    assert tokens[..k + 1][k] == tokens[k];
  }

  lemma {:induction false} TotalSnoc(tokens: seq<string>, k: nat, text: string, lower: string -> string)
    requires k < |tokens|
    ensures TotalScore(tokens[..k + 1], text, lower) ==
            TotalScore(tokens[..k], text, lower) + MatchLower(lower(tokens[k]), lower(text)).score
  {
    assert tokens[..k + 1][..k] == tokens[..k];
  }

  method MatchTokens(tokens: seq<string>, text: string, lower: string -> string) returns (allMatch: bool, total: int)
    ensures allMatch <==> AllMatch(tokens, text, lower)
    ensures allMatch ==> total == TotalScore(tokens, text, lower)
  {
    total := 0;
    for k := 0 to |tokens|
      invariant AllMatch(tokens[..k], text, lower)
      invariant total == TotalScore(tokens[..k], text, lower)
    {
      AllMatchSnoc(tokens, k, text, lower);
      TotalSnoc(tokens, k, text, lower);
      var m := FuzzyMatch(tokens[k], text, lower);
      if !m.matches {
        return false, 0;
      }
      total := total + m.score;
    }
    assert tokens[..|tokens|] == tokens;
    allMatch := true;
  }

  /** The items that match, with their scores. */
  function Scored<T>(items: seq<T>, tokens: seq<string>, getText: T -> string, lower: string -> string): seq<Keyed<T>> {
    if items == [] then []
    else
      (if AllMatch(tokens, getText(items[0]), lower)
       then [Keyed(TotalScore(tokens, getText(items[0]), lower), items[0])] else [])
      + Scored(items[1..], tokens, getText, lower)
  }

  function Matching<T>(items: seq<T>, tokens: seq<string>, getText: T -> string, lower: string -> string): seq<T> {
    if items == [] then []
    else
      (if AllMatch(tokens, getText(items[0]), lower) then [items[0]] else [])
      + Matching(items[1..], tokens, getText, lower)
  }

  function Filtered<T>(items: seq<T>, query: string, getText: T -> string, lower: string -> string): seq<T> {
    if Trim(query) == "" then items else Items(Sort(Scored(items, Words(Trim(query)), getText, lower)))
  }

  method FuzzyFilter<T>(items: seq<T>, query: string, getText: T -> string, lower: string -> string)
    returns (r: seq<T>)
    ensures r == Filtered(items, query, getText, lower)
    ensures Trim(query) == "" ==> r == items
  {
    if Trim(query) == "" {
      return items;
    }
    var results := ScoreItems(items, Words(Trim(query)), getText, lower);
    r := Items(Sort(results));
  }

  method ScoreItems<T>(items: seq<T>, tokens: seq<string>, getText: T -> string, lower: string -> string)
    returns (results: seq<Keyed<T>>)
    ensures results == Scored(items, tokens, getText, lower)
  {
    results := [];
    assert items[0..] == items;
    for k := 0 to |items|
      invariant results + Scored(items[k..], tokens, getText, lower) == Scored(items, tokens, getText, lower)
    {
      ScoredCons(items, k, tokens, getText, lower);
      var allMatch, total := MatchTokens(tokens, getText(items[k]), lower);
      if allMatch {
        Associate(results, [Keyed(total, items[k])], Scored(items[k + 1..], tokens, getText, lower));
        results := results + [Keyed(total, items[k])];
      }
    }
  }

  lemma {:induction false} ScoredCons<T>(
      items: seq<T>, k: nat, tokens: seq<string>, getText: T -> string, lower: string -> string)
    requires k < |items|
    ensures Scored(items[k..], tokens, getText, lower) ==
            if AllMatch(tokens, getText(items[k]), lower) then
              [Keyed(TotalScore(tokens, getText(items[k]), lower), items[k])]
              + Scored(items[k + 1..], tokens, getText, lower)
            else Scored(items[k + 1..], tokens, getText, lower)
  {
    assert items[k..][1..] == items[k + 1..];
  }

  lemma {:induction false} ScoredItems<T>(
      items: seq<T>, tokens: seq<string>, getText: T -> string, lower: string -> string)
    ensures Items(Scored(items, tokens, getText, lower)) == Matching(items, tokens, getText, lower)
    ensures forall x | x in Scored(items, tokens, getText, lower) ::
              x.key == TotalScore(tokens, getText(x.item), lower)
  {
    if items != [] {
      ScoredItems(items[1..], tokens, getText, lower);
      if AllMatch(tokens, getText(items[0]), lower) {
        var first := Keyed(TotalScore(tokens, getText(items[0]), lower), items[0]);
        ItemsCons(first, Scored(items[1..], tokens, getText, lower));
      }
    }
  }

  /** A filter gives a permutation of the items that match all tokens, ordered by total score. */
  lemma {:induction false} FilterSpec<T>(items: seq<T>, query: string, getText: T -> string, lower: string -> string)
    requires Trim(query) != ""
    ensures var tokens, r := Words(Trim(query)), Filtered(items, query, getText, lower);
            && multiset(r) == multiset(Matching(items, tokens, getText, lower))
            && forall i, j | 0 <= i < j < |r| ::
                 TotalScore(tokens, getText(r[i]), lower) <= TotalScore(tokens, getText(r[j]), lower)
  {
    var tokens := Words(Trim(query));
    var scored := Scored(items, tokens, getText, lower);
    ScoredItems(items, tokens, getText, lower);
    SortSpec(scored, 0);
    ItemsSort(scored);
    forall i | 0 <= i < |Sort(scored)|
      ensures Sort(scored)[i].key == TotalScore(tokens, getText(Items(Sort(scored))[i]), lower)
    {
      InSort(scored, Sort(scored)[i]);
    }
  }

  /** The matching items with this score, in order. */
  function OfScore<T>(items: seq<T>, tokens: seq<string>, getText: T -> string, lower: string -> string, score: int)
    : seq<T>
  {
    if items == [] then []
    else
      var text := getText(items[0]);
      (if AllMatch(tokens, text, lower) && TotalScore(tokens, text, lower) == score then [items[0]] else [])
      + OfScore(items[1..], tokens, getText, lower, score)
  }

  /** Each element is a matching item with its score. */
  ghost predicate KeyedBy<T>(xs: seq<Keyed<T>>, tokens: seq<string>, getText: T -> string, lower: string -> string) {
    forall x | x in xs ::
      AllMatch(tokens, getText(x.item), lower) && x.key == TotalScore(tokens, getText(x.item), lower)
  }

  lemma {:induction false} OfKey<T>(
      xs: seq<Keyed<T>>, tokens: seq<string>, getText: T -> string, lower: string -> string, score: int)
    requires KeyedBy(xs, tokens, getText, lower)
    ensures OfScore(Items(xs), tokens, getText, lower, score) == Items(WithKey(xs, score))
  {
    if xs != [] {
      assert xs[0] in xs && forall x | x in xs[1..] :: x in xs;
      OfKey(xs[1..], tokens, getText, lower, score);
      assert Items(xs)[1..] == Items(xs[1..]);
      if xs[0].key == score {
        ItemsCons(xs[0], WithKey(xs[1..], score));
      } else {
        assert [] + WithKey(xs[1..], score) == WithKey(xs[1..], score);
      }
    }
  }

  lemma {:induction false} ScoredKeyed<T>(
      items: seq<T>, tokens: seq<string>, getText: T -> string, lower: string -> string, score: int)
    ensures KeyedBy(Scored(items, tokens, getText, lower), tokens, getText, lower)
    ensures OfScore(Items(Scored(items, tokens, getText, lower)), tokens, getText, lower, score) ==
            OfScore(items, tokens, getText, lower, score)
  {
    if items != [] {
      var text, rest := getText(items[0]), Scored(items[1..], tokens, getText, lower);
      ScoredKeyed(items[1..], tokens, getText, lower, score);
      if AllMatch(tokens, text, lower) {
        var first := Keyed(TotalScore(tokens, text, lower), items[0]);
        ItemsCons(first, rest);
        assert ([items[0]] + Items(rest))[1..] == Items(rest);
      } else {
        assert [] + rest == rest;
        assert [] + OfScore(items[1..], tokens, getText, lower, score) ==
               OfScore(items[1..], tokens, getText, lower, score);
      }
    }
  }

  /** Items of equal score keep their order. */
  lemma {:induction false} FilterStable<T>(
      items: seq<T>, query: string, getText: T -> string, lower: string -> string, score: int)
    requires Trim(query) != ""
    ensures var tokens := Words(Trim(query));
            OfScore(Filtered(items, query, getText, lower), tokens, getText, lower, score) ==
            OfScore(items, tokens, getText, lower, score)
  {
    var tokens := Words(Trim(query));
    var scored := Scored(items, tokens, getText, lower);
    ScoredKeyed(items, tokens, getText, lower, score);
    SortSpec(scored, score);
    forall x | x in Sort(scored)
      ensures x in scored
    {
      InSort(scored, x);
    }
    OfKey(scored, tokens, getText, lower, score);
    OfKey(Sort(scored), tokens, getText, lower, score);
  }
}
