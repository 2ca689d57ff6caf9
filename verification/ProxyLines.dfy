/** The line framing of packages/agent/src/proxy.ts. */
module ProxyLines {
  import opened Sequences
  import opened Strings

  function Concat(chunks: seq<string>): string {
    if chunks == [] then "" else chunks[0] + Concat(chunks[1..])
  }

  /** The newline-terminated lines of a text, without the newlines. */
  function Lines(text: string): seq<string> {
    var pieces := Split(text, '\n');
    pieces[..|pieces| - 1]
  }

  /** The text after the last newline. */
  function Tail(text: string): string {
    var pieces := Split(text, '\n');
    pieces[|pieces| - 1]
  }

  function Terminated(lines: seq<string>): string {
    if lines == [] then "" else lines[0] + "\n" + Terminated(lines[1..])
  }

  /** No text is lost: the lines and the tail make up the whole. */
  lemma {:induction false} LinesAndTail(text: string)
    ensures Terminated(Lines(text)) + Tail(text) == text
    ensures '\n' !in Tail(text) && forall k | 0 <= k < |Lines(text)| :: '\n' !in Lines(text)[k]
  {
    if text != "" {
      LinesAndTail(text[1..]);
      LinesCons(text[0], text[1..]);
    }
  }

  /** One character in front of a text. */
  lemma {:induction false} LinesCons(c: char, rest: string)
    ensures Lines([c] + rest) ==
            if c == '\n' then [""] + Lines(rest)
            else if Lines(rest) == [] then []
            else [[c] + Lines(rest)[0]] + Lines(rest)[1..]
    ensures Tail([c] + rest) == if c != '\n' && Lines(rest) == [] then [c] + Tail(rest) else Tail(rest)
  {
    assert ([c] + rest)[1..] == rest;
  }

  predicate AppendsAt(a: string, b: string) {
    Lines(a + b) == Lines(a) + Lines(Tail(a) + b) && Tail(a + b) == Tail(Tail(a) + b)
  }

  /** A line that is not yet terminated grows at its front. */
  lemma {:induction false} OpenLine(c: char, rest: string, b: string)
    requires c != '\n' && Lines(rest) == [] && AppendsAt(rest, b)
    ensures AppendsAt([c] + rest, b)
  {
    LinesCons(c, rest);
    assert Tail([c] + rest) == [c] + Tail(rest) && Lines([c] + rest) == [];
    assert Lines(rest + b) == Lines(Tail(rest) + b);
    Associate([c], rest, b);
    Associate([c], Tail(rest), b);
    LinesCons(c, rest + b);
    LinesCons(c, Tail(rest) + b);
  }

  lemma {:induction false} NewLine(rest: string, b: string)
    requires AppendsAt(rest, b)
    ensures AppendsAt(['\n'] + rest, b)
  {
    LinesCons('\n', rest);
    Associate(['\n'], rest, b);
    LinesCons('\n', rest + b);
    Associate([""], Lines(rest), Lines(Tail(rest) + b));
  }

  lemma {:induction false} ClosedLine(c: char, rest: string, b: string)
    requires c != '\n' && Lines(rest) != [] && AppendsAt(rest, b)
    ensures AppendsAt([c] + rest, b)
  {
    LinesCons(c, rest);
    Associate([c], rest, b);
    LinesCons(c, rest + b);
    Regrow(Lines(rest), Lines(Tail(rest) + b), [c] + Lines(rest)[0]);
  }

  lemma {:induction false} Regrow<T>(a: seq<T>, b: seq<T>, x: T)
    requires a != []
    ensures (a + b)[0] == a[0] && [x] + (a + b)[1..] == [x] + a[1..] + b
  {
  }

  /** The lines of a text and further text: those of the text, then those of its tail with the further text. */
  lemma {:induction false} LinesAppend(a: string, b: string)
    ensures AppendsAt(a, b)
  {
    if a == "" {
      assert a + b == b && Tail(a) + b == b;
    } else {
      var c, rest := a[0], a[1..];
      LinesAppend(rest, b);
      assert a == [c] + rest;
      if c == '\n' {
        NewLine(rest, b);
      } else if Lines(rest) == [] {
        OpenLine(c, rest, b);
      } else {
        ClosedLine(c, rest, b);
      }
    }
  }

  /** Terminated lines are read back as they were. */
  lemma {:induction false} TerminatedLines(lines: seq<string>)
    requires forall k | 0 <= k < |lines| :: '\n' !in lines[k]
    ensures Lines(Terminated(lines)) == lines && Tail(Terminated(lines)) == ""
  {
    if lines != [] {
      var rest := lines[1..];
      TerminatedLines(rest);
      SplitCons(lines[0], Terminated(rest), '\n');
      assert lines == [lines[0]] + rest;
    }
  }

  lemma {:induction false} ConcatSnoc(chunks: seq<string>, k: nat)
    requires k < |chunks|
    ensures Concat(chunks[..k + 1]) == Concat(chunks[..k]) + chunks[k]
  {
    if k > 0 {
      assert chunks[..k + 1][1..] == chunks[1..][..k] && chunks[..k][1..] == chunks[1..][..k - 1];
      ConcatSnoc(chunks[1..], k - 1);
    } else {
      assert chunks[..1] == [chunks[0]] && [chunks[0]][1..] == [] && chunks[0] + "" == chunks[0];
    }
  }
}
