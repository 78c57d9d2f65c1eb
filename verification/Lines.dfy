/** Splitting a text at its newlines, and sanitizing it line by line. */
module Lines {
  import opened Utf8
  import opened Splitting

  type Sanitizer = Text -> Text

  function MapLines(f: Sanitizer, lines: seq<Text>): (r: seq<Text>)
    ensures |r| == |lines|
  {
    if lines == [] then [] else [f(lines[0])] + MapLines(f, lines[1..])
  }

  /** The whole text, sanitized line by line. */
  function Sanitized(f: Sanitizer, t: Text): Text { Join(MapLines(f, Split(t, NEWLINE)), NEWLINE) }

  function LastLine(t: Text): Text { Last(t, NEWLINE) }

  function Complete(t: Text): seq<Text> { Front(t, NEWLINE) }

  /** Sanitized lines, a newline after each. */
  function Emit(f: Sanitizer, lines: seq<Text>): Text {
    if lines == [] then [] else f(lines[0]) + [NEWLINE] + Emit(f, lines[1..])
  }

  lemma {:induction false} EmitAppend(f: Sanitizer, a: seq<Text>, b: seq<Text>)
    ensures Emit(f, a + b) == Emit(f, a) + Emit(f, b)
  {
    if a == [] {
      assert a + b == b;
    } else {
      EmitAppend(f, a[1..], b);
      assert (a + b)[1..] == a[1..] + b;
    }
  }

  /** What the stream pushes: the lines joined, and one newline more. */
  lemma {:induction false} EmitIsJoin(f: Sanitizer, lines: seq<Text>)
    ensures lines != [] ==> Emit(f, lines) == Join(MapLines(f, lines), NEWLINE) + [NEWLINE]
  {
    if |lines| > 1 {
      EmitIsJoin(f, lines[1..]);
      assert MapLines(f, lines)[1..] == MapLines(f, lines[1..]);
    }
  }

  lemma {:induction false} JoinIsEmit(f: Sanitizer, lines: seq<Text>, last: Text)
    ensures Join(MapLines(f, lines + [last]), NEWLINE) == Emit(f, lines) + f(last)
  {
    if lines == [] {
      assert lines + [last] == [last];
    } else {
      JoinIsEmit(f, lines[1..], last);
      assert (lines + [last])[1..] == lines[1..] + [last];
      assert MapLines(f, lines + [last])[1..] == MapLines(f, lines[1..] + [last]);
    }
  }

  lemma SanitizedIsEmit(f: Sanitizer, t: Text)
    ensures Sanitized(f, t) == Emit(f, Complete(t)) + f(LastLine(t))
  {
    JoinIsEmit(f, Complete(t), LastLine(t));
    assert Split(t, NEWLINE) == Complete(t) + [LastLine(t)];
  }

  lemma CompleteAppend(a: Text, b: Text)
    ensures Complete(a + b) == Complete(a) + Complete(LastLine(a) + b)
    ensures LastLine(a + b) == LastLine(LastLine(a) + b)
  {
    SplitAppend(a, b, NEWLINE);
  }

  /** A text that ends with a newline has an empty last line. */
  lemma {:induction false} EndsAfterNewline(t: Text)
    requires t != [] && t[|t| - 1] == NEWLINE
    ensures LastLine(t) == [] && |Split(t, NEWLINE)| > 1
  {
    if |t| > 1 {
      EndsAfterNewline(t[1..]);
      var later := Split(t[1..], NEWLINE);
      assert later[|later| - 1] == Split(t, NEWLINE)[|Split(t, NEWLINE)| - 1];
    } else {
      assert t == [NEWLINE] + [];
      SplitCons(NEWLINE, [], NEWLINE);
    }
  }
}
