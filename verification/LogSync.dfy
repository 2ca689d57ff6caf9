/** Syncing the channel log to the session: packages/mom/src/context.ts. */
module LogSync {
  import opened Sequences
  import opened Wrappers
  import opened StableSort
  import opened LogTexts

  /** A field that is missing is "". */
  datatype LogMessage = LogMessage(date: string, ts: string, user: string, userName: string, text: string, isBot: bool)

  /** The lines of the log; `None` is a line that cannot be read. */
  type Log = seq<Option<LogMessage>>

  datatype Part = TextPart(text: string) | OtherPart

  datatype Entry = UserString(text: string) | UserParts(parts: seq<Part>) | OtherEntry

  /** `new Date(date).getTime()`, with `None` for an invalid date, and the present. */
  datatype Clock = Clock(parse: string -> Option<int>, now: int)

  function TimeOf(clock: Clock, date: string): int {
    match clock.parse(date)
    case Some(t) => if t != 0 then t else clock.now
    case None => clock.now
  }

  /** The time of a line is that of its date; a date that is invalid or at the epoch counts as now. */
  lemma {:induction false} TimeIs(clock: Clock, date: string, t: int)
    ensures TimeOf(clock, date) == t <==>
            (clock.parse(date) == Some(t) && t != 0) || (clock.parse(date) in {None, Some(0)} && t == clock.now)
  {
  }

  /** Lines that may go to the session: dated user messages other than the excluded one. */
  predicate Eligible(line: Option<LogMessage>, exclude: string) {
    && line.Some?
    && line.value.ts != "" && line.value.date != ""
    && !(exclude != "" && line.value.ts == exclude)
    && !line.value.isBot
  }

  function TextOf(m: LogMessage): string {
    Said(Or(Or(m.userName, m.user), "unknown"), m.text)
  }

  // ---------------------------------------------------------------------
  // What the session knows
  // ---------------------------------------------------------------------

  function PartTexts(parts: seq<Part>): set<string> {
    if parts == [] then {}
    else (if parts[0].TextPart? then {Normalise(parts[0].text)} else {}) + PartTexts(parts[1..])
  }

  function EntryTexts(e: Entry): set<string> {
    match e
    case UserString(text) => {Normalise(text)}
    case UserParts(parts) => PartTexts(parts)
    case OtherEntry => {}
  }

  function Known(entries: seq<Entry>): set<string> {
    if entries == [] then {} else EntryTexts(entries[0]) + Known(entries[1..])
  }

  lemma {:induction false} KnownAppend(a: seq<Entry>, b: seq<Entry>)
    ensures Known(a + b) == Known(a) + Known(b)
  {
    if a == [] {
      assert a + b == b;
    } else {
      assert (a + b)[0] == a[0] && (a + b)[1..] == a[1..] + b;
      KnownAppend(a[1..], b);
    }
  }

  /** Some user entry holds this text, by itself or as a part. */
  predicate Says(e: Entry, text: string) {
    match e
    case UserString(t) => t == text
    case UserParts(parts) => exists k | 0 <= k < |parts| :: parts[k] == TextPart(text)
    case OtherEntry => false
  }

  lemma {:induction false} PartTextsIff(parts: seq<Part>, x: string)
    ensures x in PartTexts(parts) <==>
            exists k | 0 <= k < |parts| :: parts[k].TextPart? && Normalise(parts[k].text) == x
    decreases |parts|
  {
    if parts != [] {
      PartTextsIff(parts[1..], x);
      assert forall k | 0 <= k < |parts[1..]| :: parts[1..][k] == parts[k + 1];
      assert forall k | 0 < k < |parts| :: parts[k] == parts[1..][k - 1];
    }
  }

  lemma {:induction false} EntryTextsIff(e: Entry, x: string)
    ensures x in EntryTexts(e) <==> exists text :: Says(e, text) && Normalise(text) == x
  {
    match e
    case UserString(text) => assert Says(e, text);
    case UserParts(parts) =>
      PartTextsIff(parts, x);
      forall k | 0 <= k < |parts| && parts[k].TextPart?
        ensures Says(e, parts[k].text)
      {
        assert parts[k] == TextPart(parts[k].text);
      }
    case OtherEntry =>
  }

  lemma {:induction false} SomeEntryIff(entries: seq<Entry>, x: string)
    ensures x in Known(entries) <==> exists k | 0 <= k < |entries| :: x in EntryTexts(entries[k])
    decreases |entries|
  {
    if entries != [] {
      SomeEntryIff(entries[1..], x);
      assert forall k | 0 <= k < |entries[1..]| :: entries[1..][k] == entries[k + 1];
      assert forall k | 0 < k < |entries| :: entries[k] == entries[1..][k - 1];
    }
  }

  /** A text is known exactly if it is what is left of a text of some user entry. */
  lemma {:induction false} KnownIff(entries: seq<Entry>, x: string)
    ensures x in Known(entries) <==>
            exists k, text | 0 <= k < |entries| :: Says(entries[k], text) && Normalise(text) == x
  {
    SomeEntryIff(entries, x);
    forall k | 0 <= k < |entries|
      ensures x in EntryTexts(entries[k]) <==> exists text :: Says(entries[k], text) && Normalise(text) == x
    {
      EntryTextsIff(entries[k], x);
    }
  }

  method KnownParts(parts: seq<Part>, known: set<string>) returns (r: set<string>)
    ensures r == known + PartTexts(parts)
  {
    r := known;
    assert parts[0..] == parts;
    for k := 0 to |parts|
      invariant r + PartTexts(parts[k..]) == known + PartTexts(parts)
    {
      assert parts[k..][0] == parts[k] && parts[k..][1..] == parts[k + 1..];
      if parts[k].TextPart? {
        r := r + {Normalise(parts[k].text)};
      }
    }
  }

  /** The set of texts the session already holds. */
  method KnownMessages(entries: seq<Entry>) returns (r: set<string>)
    ensures r == Known(entries)
  {
    r := {};
    assert entries[0..] == entries;
    for k := 0 to |entries|
      invariant r + Known(entries[k..]) == Known(entries)
    {
      assert entries[k..][0] == entries[k] && entries[k..][1..] == entries[k + 1..];
      match entries[k]
      case UserString(text) => r := r + {Normalise(text)};
      case UserParts(parts) => r := KnownParts(parts, r);
      case OtherEntry =>
    }
  }

  // ---------------------------------------------------------------------
  // What is new in the log
  // ---------------------------------------------------------------------

  function NewTexts(log: Log, exclude: string, known: set<string>, clock: Clock): seq<Keyed<string>>
    decreases |log|
  {
    if log == [] then []
    else if Eligible(log[0], exclude) && TextOf(log[0].value) !in known then
      [Keyed(TimeOf(clock, log[0].value.date), TextOf(log[0].value))]
      + NewTexts(log[1..], exclude, known + {TextOf(log[0].value)}, clock)
    else NewTexts(log[1..], exclude, known, clock)
  }

  /**
   * What one line adds: nothing if it cannot be read, has no id or no date, is the one being
   * handled, or was written by the bot; else its text under the best name it has, unless known.
   */
  lemma {:induction false} OneLine(line: Option<LogMessage>, exclude: string, known: set<string>, clock: Clock)
    ensures NewTexts([line], exclude, known, clock) ==
            match line
            case None => []
            case Some(m) =>
              var name := if m.userName != "" then m.userName else if m.user != "" then m.user else "unknown";
              var text := "[" + name + "]: " + m.text;
              if m.ts == "" || m.date == "" || m.isBot || m.ts == exclude || text in known then []
              else [Keyed(TimeOf(clock, m.date), text)]
  {
    assert [line][1..] == [];
  }

  predicate Holds(log: Log, exclude: string, text: string, k: nat) {
    k < |log| && Eligible(log[k], exclude) && TextOf(log[k].value) == text
  }

  /** The first line with a text. */
  predicate FirstLine(log: Log, exclude: string, text: string, k: nat) {
    Holds(log, exclude, text, k) && forall j: nat | j < k :: !Holds(log, exclude, text, j)
  }

  lemma {:induction false} FirstLineExists(log: Log, exclude: string, text: string, n: nat)
    requires Holds(log, exclude, text, n)
    ensures exists k: nat :: FirstLine(log, exclude, text, k)
  {
    if j: nat :| j < n && Holds(log, exclude, text, j) {
      FirstLineExists(log, exclude, text, j);
    } else {
      assert FirstLine(log, exclude, text, n);
    }
  }

  /** The text is new, and the time is that of its first line. */
  predicate IsNew(log: Log, exclude: string, known: set<string>, clock: Clock, x: Keyed<string>) {
    x.item !in known && exists k | 0 <= k < |log| :: FirstLineAt(log, exclude, clock, x, k)
  }

  predicate FirstLineAt(log: Log, exclude: string, clock: Clock, x: Keyed<string>, k: nat) {
    FirstLine(log, exclude, x.item, k) && x.key == TimeOf(clock, log[k].value.date)
  }

  /** One line in front of the log. */
  lemma {:induction false} FirstLineCons(log: Log, exclude: string, clock: Clock, x: Keyed<string>, k: nat)
    requires log != []
    ensures FirstLineAt(log, exclude, clock, x, 0) <==>
            Holds(log, exclude, x.item, 0) && x.key == TimeOf(clock, log[0].value.date)
    ensures FirstLineAt(log, exclude, clock, x, k + 1) <==>
            !Holds(log, exclude, x.item, 0) && FirstLineAt(log[1..], exclude, clock, x, k)
  {
    forall j: nat
      ensures Holds(log, exclude, x.item, j + 1) <==> Holds(log[1..], exclude, x.item, j)
    {
    }
    if FirstLineAt(log, exclude, clock, x, k + 1) {
      forall j: nat | j < k
        ensures !Holds(log[1..], exclude, x.item, j)
      {
        assert !Holds(log, exclude, x.item, j + 1);
      }
    }
    if !Holds(log, exclude, x.item, 0) && FirstLineAt(log[1..], exclude, clock, x, k) {
      forall j: nat | j < k + 1
        ensures !Holds(log, exclude, x.item, j)
      {
        assert j > 0 ==> !Holds(log[1..], exclude, x.item, j - 1);
      }
    }
  }

  lemma {:induction false} IsNewCons(log: Log, exclude: string, known: set<string>, clock: Clock, x: Keyed<string>)
    requires log != []
    ensures IsNew(log, exclude, known, clock, x) <==>
            if Holds(log, exclude, x.item, 0) then
              x.item !in known && x.key == TimeOf(clock, log[0].value.date)
            else IsNew(log[1..], exclude, known, clock, x)
  {
    FirstLineCons(log, exclude, clock, x, 0);
    if IsNew(log, exclude, known, clock, x) {
      var k :| 0 <= k < |log| && FirstLineAt(log, exclude, clock, x, k);
      if k > 0 {
        FirstLineCons(log, exclude, clock, x, k - 1);
        assert FirstLineAt(log[1..], exclude, clock, x, k - 1);
      }
    }
    if !Holds(log, exclude, x.item, 0) && IsNew(log[1..], exclude, known, clock, x) {
      var k :| 0 <= k < |log[1..]| && FirstLineAt(log[1..], exclude, clock, x, k);
      FirstLineCons(log, exclude, clock, x, k);
      assert FirstLineAt(log, exclude, clock, x, k + 1);
    }
  }

  /** Exactly the new texts are found, with the times of their first lines. */
  lemma {:induction false} NewTextsIff(log: Log, exclude: string, known: set<string>, clock: Clock, x: Keyed<string>)
    ensures x in NewTexts(log, exclude, known, clock) <==> IsNew(log, exclude, known, clock, x)
    decreases |log|
  {
    if log != [] {
      IsNewCons(log, exclude, known, clock, x);
      if Eligible(log[0], exclude) && TextOf(log[0].value) !in known {
        NewTextsIff(log[1..], exclude, known + {TextOf(log[0].value)}, clock, x);
      } else {
        NewTextsIff(log[1..], exclude, known, clock, x);
      }
    }
  }

  predicate DistinctItems(s: seq<Keyed<string>>) {
    forall i, j | 0 <= i < j < |s| :: s[i].item != s[j].item
  }

  lemma {:induction false} NewTextsDistinct(log: Log, exclude: string, known: set<string>, clock: Clock)
    ensures DistinctItems(NewTexts(log, exclude, known, clock))
    decreases |log|
  {
    if log != [] {
      if Eligible(log[0], exclude) && TextOf(log[0].value) !in known {
        var text := TextOf(log[0].value);
        var rest := NewTexts(log[1..], exclude, known + {text}, clock);
        NewTextsDistinct(log[1..], exclude, known + {text}, clock);
        forall j | 0 <= j < |rest|
          ensures rest[j].item != text
        {
          NewTextsIff(log[1..], exclude, known + {text}, clock, rest[j]);
        }
      } else {
        NewTextsDistinct(log[1..], exclude, known, clock);
      }
    }
  }

  method FindNew(log: Log, exclude: string, known: set<string>, clock: Clock) returns (r: seq<Keyed<string>>)
    ensures r == NewTexts(log, exclude, known, clock)
  {
    r := [];
    var seen := known;
    assert log[0..] == log;
    for k := 0 to |log|
      invariant r + NewTexts(log[k..], exclude, seen, clock) == NewTexts(log, exclude, known, clock)
    {
      assert log[k..][0] == log[k] && log[k..][1..] == log[k + 1..];
      if Eligible(log[k], exclude) {
        var text := TextOf(log[k].value);
        if text !in seen {
          var found := Keyed(TimeOf(clock, log[k].value.date), text);
          assert r + ([found] + NewTexts(log[k + 1..], exclude, seen + {text}, clock)) ==
                 r + [found] + NewTexts(log[k + 1..], exclude, seen + {text}, clock);
          r := r + [found];
          seen := seen + {text};
        }
      }
    }
  }

  // ---------------------------------------------------------------------
  // Syncing
  // ---------------------------------------------------------------------

  function Messages(s: seq<Keyed<string>>): seq<Entry> {
    if s == [] then [] else [UserParts([TextPart(s[0].item)])] + Messages(s[1..])
  }

  /** What a sync appends, in order. */
  function Appended(entries: seq<Entry>, log: Log, exclude: string, clock: Clock): seq<Keyed<string>> {
    Sort(NewTexts(log, exclude, Known(entries), clock))
  }

  function Synced(entries: seq<Entry>, log: Log, exclude: string, clock: Clock): seq<Entry> {
    entries + Messages(Appended(entries, log, exclude, clock))
  }

  lemma {:induction false} MessagesFrom(entries: seq<Entry>, sorted: seq<Keyed<string>>, k: nat)
    requires k < |sorted|
    ensures entries + Messages(sorted[k..]) ==
            entries + [UserParts([TextPart(sorted[k].item)])] + Messages(sorted[k + 1..])
  {
    assert sorted[k..][0] == sorted[k] && sorted[k..][1..] == sorted[k + 1..];
    Middle(entries, UserParts([TextPart(sorted[k].item)]), Messages(sorted[k + 1..]));
  }

  class Session {
    var entries: seq<Entry>

    method AppendMessage(text: string)
      modifies this
      ensures entries == old(entries) + [UserParts([TextPart(text)])]
    {
      entries := entries + [UserParts([TextPart(text)])];
    }

    method Sync(log: Log, exclude: string, clock: Clock) returns (count: nat)
      modifies this
      ensures entries == Synced(old(entries), log, exclude, clock)
      ensures count == |Appended(old(entries), log, exclude, clock)|
    {
      var known := KnownMessages(entries);
      var found := FindNew(log, exclude, known, clock);
      SortSpec(found, 0);
      if |found| == 0 {
        assert entries + [] == entries;
        return 0;
      }
      var sorted := Sort(found);
      assert sorted[0..] == sorted;
      for k := 0 to |sorted|
        invariant entries + Messages(sorted[k..]) == Synced(old(entries), log, exclude, clock)
      {
        MessagesFrom(entries, sorted, k);
        AppendMessage(sorted[k].item);
      }
      count := |sorted|;
    }
  }

  lemma {:induction false} CountTwice<T>(s: seq<T>, i: nat, j: nat)
    requires i < j < |s| && s[i] == s[j]
    ensures multiset(s)[s[i]] >= 2
  {
    assert s == s[..j] + s[j..];
    assert s[i] in s[..j] && s[j] in s[j..];
  }

  lemma {:induction false} CountOnce(s: seq<Keyed<string>>, x: Keyed<string>)
    requires DistinctItems(s)
    ensures multiset(s)[x] <= 1
  {
    if s != [] {
      var init := s[..|s| - 1];
      assert s == init + [s[|s| - 1]];
      CountOnce(init, x);
    }
  }

  /**
   * A sync appends exactly the texts of eligible lines that the session does not know,
   * each once, ordered by the time of its first line, lines of equal time in log order.
   */
  lemma {:induction false} SyncExactlyOnce(entries: seq<Entry>, log: Log, exclude: string, clock: Clock)
    ensures var added, found := Appended(entries, log, exclude, clock), NewTexts(log, exclude, Known(entries), clock);
            && (forall x :: x in added <==> IsNew(log, exclude, Known(entries), clock, x))
            && DistinctItems(added) && Ordered(added)
            && forall t: int :: WithKey(added, t) == WithKey(found, t)
  {
    var known := Known(entries);
    var found := NewTexts(log, exclude, known, clock);
    var added := Sort(found);
    forall x
      ensures x in added <==> IsNew(log, exclude, known, clock, x)
    {
      InSort(found, x);
      NewTextsIff(log, exclude, known, clock, x);
    }
    forall t: int
      ensures WithKey(added, t) == WithKey(found, t)
    {
      SortSpec(found, t);
    }
    SortSpec(found, 0);
    forall i, j | 0 <= i < j < |added|
      ensures added[i].item != added[j].item
    {
      if added[i].item == added[j].item {
        SameTextSameTime(log, exclude, known, clock, added[i], added[j]);
        CountTwice(added, i, j);
        NewTextsDistinct(log, exclude, known, clock);
        CountOnce(found, added[i]);
      }
    }
  }

  lemma {:induction false} SameTextSameTime(
      log: Log, exclude: string, known: set<string>, clock: Clock, x: Keyed<string>, y: Keyed<string>)
    requires IsNew(log, exclude, known, clock, x) && IsNew(log, exclude, known, clock, y) && x.item == y.item
    ensures x == y
  {
    var j :| 0 <= j < |log| && FirstLineAt(log, exclude, clock, x, j);
    var k :| 0 <= k < |log| && FirstLineAt(log, exclude, clock, y, k);
    assert j == k;
  }

  /** After a sync every eligible line is known or was appended. */
  lemma {:induction false} EveryLineRepresented(entries: seq<Entry>, log: Log, exclude: string, clock: Clock, k: nat)
    requires k < |log| && Eligible(log[k], exclude)
    ensures var text := TextOf(log[k].value);
            || text in Known(entries)
            || exists x :: x in Appended(entries, log, exclude, clock) && x.item == text
  {
    var text := TextOf(log[k].value);
    if text !in Known(entries) {
      FirstLineExists(log, exclude, text, k);
      var n: nat :| FirstLine(log, exclude, text, n);
      var x := Keyed(TimeOf(clock, log[n].value.date), text);
      assert FirstLineAt(log, exclude, clock, x, n);
      SyncExactlyOnce(entries, log, exclude, clock);
      assert x in Appended(entries, log, exclude, clock);
    }
  }

  // ---------------------------------------------------------------------
  // Syncing twice
  // ---------------------------------------------------------------------

  /** A text that is its own normal form. */
  predicate Stable(text: string) {
    Normalise(text) == text
  }

  lemma {:induction false} KnownMessagesOf(s: seq<Keyed<string>>, text: string)
    ensures text in Known(Messages(s)) <==> exists x :: x in s && Normalise(x.item) == text
  {
    if s != [] {
      var rest := s[1..];
      KnownMessagesOf(rest, text);
      var parts := [TextPart(s[0].item)];
      assert parts[1..] == [] && PartTexts(parts[1..]) == {};
      assert EntryTexts(UserParts([TextPart(s[0].item)])) == {Normalise(s[0].item)};
      assert forall x :: x in s <==> x == s[0] || x in rest;
    }
  }

  lemma {:induction false} LongestUnstable(s: seq<Keyed<string>>) returns (x: Keyed<string>)
    requires exists y :: y in s && !Stable(y.item)
    ensures x in s && !Stable(x.item)
    ensures forall y | y in s && !Stable(y.item) :: |y.item| <= |x.item|
  {
    var rest := s[1..];
    x := s[0];
    if exists y :: y in rest && !Stable(y.item) {
      var z := LongestUnstable(rest);
      if Stable(x.item) || |x.item| < |z.item| {
        x := z;
      }
    }
    assert forall y :: y in s <==> y == s[0] || y in rest;
  }

  /** What a second sync would append was also appended by the first. */
  lemma {:induction false} AgainWasAdded(entries: seq<Entry>, log: Log, exclude: string, clock: Clock, x: Keyed<string>)
    ensures x in Appended(Synced(entries, log, exclude, clock), log, exclude, clock) <==>
            && x in Appended(entries, log, exclude, clock)
            && !exists y :: y in Appended(entries, log, exclude, clock) && Normalise(y.item) == x.item
  {
    var added := Appended(entries, log, exclude, clock);
    KnownAppend(entries, Messages(added));
    SyncExactlyOnce(entries, log, exclude, clock);
    SyncExactlyOnce(Synced(entries, log, exclude, clock), log, exclude, clock);
    KnownMessagesOf(added, x.item);
  }

  /** A second sync appends nothing exactly when all texts the first one appended are stable. */
  lemma {:induction false} SyncTwiceByTexts(entries: seq<Entry>, log: Log, exclude: string, clock: Clock)
    ensures Appended(Synced(entries, log, exclude, clock), log, exclude, clock) == [] <==>
            forall x | x in Appended(entries, log, exclude, clock) :: Stable(x.item)
  {
    var added := Appended(entries, log, exclude, clock);
    var again := Appended(Synced(entries, log, exclude, clock), log, exclude, clock);
    if forall x | x in added :: Stable(x.item) {
      if again != [] {
        AgainWasAdded(entries, log, exclude, clock, again[0]);
      }
    } else {
      var x := LongestUnstable(added);
      AgainWasAdded(entries, log, exclude, clock, x);
      assert forall y | y in added && Normalise(y.item) == x.item :: Stable(y.item) || |x.item| < |y.item|;
      assert x in again;
    }
  }

  /** The text has neither a stamp in front nor the opening of an attachment section in it. */
  predicate Unadorned(text: string) {
    !Stamped(text) && !HasMark(text)
  }

  /** All lines that are new to the session have texts without stamps and sections. */
  predicate NewLinesUnadorned(entries: seq<Entry>, log: Log, exclude: string) {
    forall k | 0 <= k < |log| && Eligible(log[k], exclude) && TextOf(log[k].value) !in Known(entries) ::
      Unadorned(TextOf(log[k].value))
  }

  /**
   * A second sync appends nothing if and only if no line that is new to the session has
   * a text with a stamp or a section: the session compares normal forms, the log raw texts.
   */
  lemma {:induction false} SyncTwiceIff(entries: seq<Entry>, log: Log, exclude: string, clock: Clock)
    ensures Appended(Synced(entries, log, exclude, clock), log, exclude, clock) == [] <==>
            NewLinesUnadorned(entries, log, exclude)
  {
    SyncTwiceByTexts(entries, log, exclude, clock);
    AppendedUnadornedIff(entries, log, exclude, clock);
  }

  lemma {:induction false} AppendedUnadornedIff(entries: seq<Entry>, log: Log, exclude: string, clock: Clock)
    ensures (forall x | x in Appended(entries, log, exclude, clock) :: Stable(x.item)) <==>
            NewLinesUnadorned(entries, log, exclude)
  {
    var added := Appended(entries, log, exclude, clock);
    SyncExactlyOnce(entries, log, exclude, clock);
    if NewLinesUnadorned(entries, log, exclude) {
      forall x | x in added
        ensures Stable(x.item)
      {
        var k :| 0 <= k < |log| && FirstLineAt(log, exclude, clock, x, k);
      }
    }
    if forall x | x in added :: Stable(x.item) {
      forall k | 0 <= k < |log| && Eligible(log[k], exclude) && TextOf(log[k].value) !in Known(entries)
        ensures Unadorned(TextOf(log[k].value))
      {
        EveryLineRepresented(entries, log, exclude, clock, k);
      }
    }
  }

  /** The session after some more syncs of the same log. */
  function SyncedTimes(entries: seq<Entry>, log: Log, exclude: string, clock: Clock, n: nat): seq<Entry> {
    if n == 0 then entries else Synced(SyncedTimes(entries, log, exclude, clock, n - 1), log, exclude, clock)
  }

  /** Syncing once more makes known nothing that the sync before did not. */
  lemma {:induction false} KnownAgain(entries: seq<Entry>, log: Log, exclude: string, clock: Clock)
    ensures var once := Synced(entries, log, exclude, clock);
            Known(Synced(once, log, exclude, clock)) == Known(once)
  {
    var once := Synced(entries, log, exclude, clock);
    var added, again := Appended(entries, log, exclude, clock), Appended(once, log, exclude, clock);
    KnownAppend(entries, Messages(added));
    KnownAppend(once, Messages(again));
    forall text | text in Known(Messages(again))
      ensures text in Known(Messages(added))
    {
      KnownMessagesOf(again, text);
      var x :| x in again && Normalise(x.item) == text;
      AgainWasAdded(entries, log, exclude, clock, x);
      KnownMessagesOf(added, text);
    }
  }

  /** Every later sync appends the same texts again as the second. */
  lemma {:induction false} LaterSyncs(entries: seq<Entry>, log: Log, exclude: string, clock: Clock, n: nat)
    requires n > 0
    ensures Appended(SyncedTimes(entries, log, exclude, clock, n), log, exclude, clock) ==
            Appended(Synced(entries, log, exclude, clock), log, exclude, clock)
    decreases n
  {
    if n > 1 {
      var before := SyncedTimes(entries, log, exclude, clock, n - 2);
      LaterSyncs(entries, log, exclude, clock, n - 1);
      KnownAgain(before, log, exclude, clock);
      assert SyncedTimes(entries, log, exclude, clock, n - 1) == Synced(before, log, exclude, clock);
    }
  }

  lemma {:induction false} PartsUnmarked(parts: seq<Part>, text: string)
    requires text in PartTexts(parts)
    ensures !HasMark(text)
  {
    if parts[0].TextPart? && text == Normalise(parts[0].text) {
      CutUnmarked(StripStamp(parts[0].text));
    } else {
      PartsUnmarked(parts[1..], text);
    }
  }

  lemma {:induction false} KnownUnmarked(entries: seq<Entry>, text: string)
    requires text in Known(entries)
    ensures !HasMark(text)
  {
    if text in EntryTexts(entries[0]) {
      match entries[0]
      case UserString(t) => CutUnmarked(StripStamp(t));
      case UserParts(parts) => PartsUnmarked(parts, text);
    } else {
      KnownUnmarked(entries[1..], text);
    }
  }

  /** A line whose text opens an attachment section is appended by every sync, whatever the session holds. */
  lemma {:induction false} MarkedReturns(entries: seq<Entry>, log: Log, exclude: string, clock: Clock, k: nat)
    requires k < |log| && Eligible(log[k], exclude) && HasMark(TextOf(log[k].value))
    ensures exists x :: x in Appended(entries, log, exclude, clock) && x.item == TextOf(log[k].value)
  {
    EveryLineRepresented(entries, log, exclude, clock, k);
    if TextOf(log[k].value) in Known(entries) {
      KnownUnmarked(entries, TextOf(log[k].value));
    }
  }

  /** For instance a message that is the opening of a section. */
  lemma {:induction false} SectionReturns(entries: seq<Entry>, m: LogMessage, exclude: string, clock: Clock)
    requires Eligible(Some(m), exclude) && m.text == Mark
    ensures exists x :: x in Appended(entries, [Some(m)], exclude, clock) && x.item == TextOf(m)
  {
    SaidMarked(Or(Or(m.userName, m.user), "unknown"));
    MarkedReturns(entries, [Some(m)], exclude, clock, 0);
  }

  lemma {:induction false} SaidMarked(name: string)
    ensures HasMark(Said(name, Mark))
  {
    var s, n := Said(name, Mark), |name| + 4;
    assert s[n..n + 22] == Mark;
    assert MarkAt(s, n);
  }

  /** Texts of people without `]` in their names are unstable only by an attachment section of their own. */
  lemma {:induction false} StableUnlessMarked(name: string, text: string)
    requires ']' !in name
    ensures Stable(Said(name, text)) <==> !HasMark(Said(name, text))
  {
    SaidNotStamped(name, text);
  }

  // ---------------------------------------------------------------------
  // Live messages
  // ---------------------------------------------------------------------

  /** A message as the agent prompts it. */
  function LiveText(stamp: string, m: LogMessage, paths: seq<string>): string {
    Live(stamp, Said(Or(m.userName, "unknown"), m.text), paths)
  }

  lemma {:induction false} Bracketed(name: string, text: string)
    ensures var s := Said(name, text);
            |s| == |name| + 4 + |text|
            && (forall k | 0 <= k < |name| :: s[k + 1] == name[k]) && s[|name| + 1] == ']'
  {
  }

  /** What one name says begins what another says only for the same name, unless `]` is in it. */
  lemma {:induction false} NameRead(a: string, b: string, text: string)
    requires ']' !in b && Said(a, text) <= Said(b, text)
    ensures a == b
  {
    Bracketed(a, text);
    Bracketed(b, text);
    assert |a| <= |b|;
    assert |a| == |b| by {
      assert Said(b, text)[|a| + 1] == ']';
    }
    forall k | 0 <= k < |a|
      ensures a[k] == b[k]
    {
      assert Said(a, text)[k + 1] == Said(b, text)[k + 1];
    }
  }

  /** The log and the live message call the person by the same name. */
  predicate SameName(m: LogMessage) {
    m.userName != "" || m.user == "" || m.user == "unknown"
  }

  lemma {:induction false} NamesIff(m: LogMessage)
    ensures Or(Or(m.userName, m.user), "unknown") == Or(m.userName, "unknown") <==> SameName(m)
  {
  }

  lemma {:induction false} UnknownIsPlain()
    ensures ']' !in "unknown"
  {
  }

  /**
   * A message that was prompted live is recognised in the log, and so never synced, if and
   * only if the user's name was known and no attachment section opens in what was said.
   */
  lemma {:induction false} LiveIsRecognised(stamp: string, m: LogMessage, paths: seq<string>)
    requires IsStamp(stamp)
    ensures var said := Said(Or(m.userName, "unknown"), m.text);
            TextOf(m) == Normalise(LiveText(stamp, m, paths)) <==>
            !HasMark(if paths == [] then said else said + "\n") && SameName(m)
  {
    var name := Or(m.userName, "unknown");
    NamesIff(m);
    LiveInverseIff(stamp, Said(name, m.text), paths);
    LiveShrinks(stamp, Said(name, m.text), paths);
    if TextOf(m) == Normalise(LiveText(stamp, m, paths)) && m.userName == "" {
      UnknownIsPlain();
      NameRead(Or(Or(m.userName, m.user), "unknown"), name, m.text);
    }
  }

  /** A user without a name but with an id, for instance, is not recognised. */
  lemma {:induction false} NamelessIsNew(stamp: string, m: LogMessage)
    requires IsStamp(stamp) && m.userName == "" && m.user == ['U', '1']
    ensures TextOf(m) != Normalise(LiveText(stamp, m, []))
  {
    LiveIsRecognised(stamp, m, []);
    IdIsNoName(m.user);
  }

  lemma {:induction false} IdIsNoName(user: string)
    requires user == ['U', '1']
    ensures user != "" && user != "unknown"
  {
    assert |user| == 2;
  }
}
