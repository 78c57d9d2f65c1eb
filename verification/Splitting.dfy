/** Cutting a text at a separator, and putting it together again. */
module Splitting {
  import opened Utf8

  /** `text.split(separator)`: never empty. */
  function Split(t: Text, separator: CodePoint): (parts: seq<Text>)
    ensures parts != []
  {
    if t == [] then [[]]
    else if t[0] == separator then [[]] + Split(t[1..], separator)
    else Prepend(t[0], Split(t[1..], separator))
  }

  function Prepend(c: CodePoint, parts: seq<Text>): seq<Text>
    requires parts != []
  {
    [[c] + parts[0]] + parts[1..]
  }

  /** `parts.join(separator)` */
  function Join(parts: seq<Text>, separator: CodePoint): Text {
    if parts == [] then []
    else if |parts| == 1 then parts[0]
    else parts[0] + [separator] + Join(parts[1..], separator)
  }

  lemma SplitCons(c: CodePoint, t: Text, separator: CodePoint)
    ensures Split([c] + t, separator)
            == if c == separator then [[]] + Split(t, separator) else Prepend(c, Split(t, separator))
  {
    assert ([c] + t)[1..] == t;
  }

  lemma {:induction false} OnePart(t: Text, separator: CodePoint)
    requires separator !in t
    ensures Split(t, separator) == [t]
  {
    if t != [] {
      OnePart(t[1..], separator);
      assert [t[0]] + t[1..] == t;
    }
  }

  lemma JoinPrepend(c: CodePoint, parts: seq<Text>, separator: CodePoint)
    requires parts != []
    ensures Join(Prepend(c, parts), separator) == [c] + Join(parts, separator)
  {
    assert Prepend(c, parts)[1..] == parts[1..];
  }

  /** Joining undoes splitting. */
  lemma {:induction false} JoinSplit(t: Text, separator: CodePoint)
    ensures Join(Split(t, separator), separator) == t
    ensures forall part :: part in Split(t, separator) ==> separator !in part
  {
    if t != [] {
      JoinSplit(t[1..], separator);
      var later := Split(t[1..], separator);
      if t[0] == separator {
        assert ([[]] + later)[1..] == later;
      } else {
        JoinPrepend(t[0], later, separator);
      }
    }
  }

  /** Splitting undoes joining, when no part has the separator. */
  lemma {:induction false} SplitJoin(parts: seq<Text>, separator: CodePoint)
    requires parts != [] && forall part :: part in parts ==> separator !in part
    ensures Split(Join(parts, separator), separator) == parts
  {
    if |parts| == 1 {
      OnePart(parts[0], separator);
    } else {
      SplitJoin(parts[1..], separator);
      SplitAfter(parts[0], Join(parts[1..], separator), separator);
    }
  }

  lemma {:induction false} SplitAfter(part: Text, t: Text, separator: CodePoint)
    requires separator !in part
    ensures Split(part + [separator] + t, separator) == [part] + Split(t, separator)
  {
    if part == [] {
      SplitCons(separator, t, separator);
      assert part + [separator] + t == [separator] + t;
    } else {
      SplitAfter(part[1..], t, separator);
      assert part + [separator] + t == [part[0]] + (part[1..] + [separator] + t);
      SplitCons(part[0], part[1..] + [separator] + t, separator);
      assert [part[0]] + part[1..] == part;
    }
  }

  function Front(t: Text, separator: CodePoint): seq<Text> { Split(t, separator)[..|Split(t, separator)| - 1] }

  function Last(t: Text, separator: CodePoint): Text { Split(t, separator)[|Split(t, separator)| - 1] }

  /** Only the part under the seam sees both sides. */
  lemma {:induction false} SplitAppend(a: Text, b: Text, separator: CodePoint)
    ensures Split(a + b, separator) == Front(a, separator) + Split(Last(a, separator) + b, separator)
  {
    if a == [] {
      assert a + b == b;
    } else {
      SplitAppend(a[1..], b, separator);
      SplitAppendOne(a[0], a[1..], b, separator);
      assert a == [a[0]] + a[1..];
    }
  }

  lemma SplitAppendOne(c: CodePoint, a: Text, b: Text, separator: CodePoint)
    requires Split(a + b, separator) == Front(a, separator) + Split(Last(a, separator) + b, separator)
    ensures Split([c] + a + b, separator) == Front([c] + a, separator) + Split(Last([c] + a, separator) + b, separator)
  {
    hide Split, Prepend;
    SplitCons(c, a, separator);
    assert [c] + a + b == [c] + (a + b);
    SplitCons(c, a + b, separator);
    var parts := Split(a, separator);
    if c == separator {
      var n := |parts| - 1;
      assert ([[]] + parts)[..n + 1] == [[]] + parts[..n];
    } else {
      PrependSeam(c, parts, b, separator);
    }
  }

  lemma PrependSeam(c: CodePoint, parts: seq<Text>, b: Text, separator: CodePoint)
    requires parts != [] && c != separator
    ensures var n := |parts| - 1;
            |Prepend(c, parts)| == n + 1
            && Prepend(c, parts[..n] + Split(parts[n] + b, separator))
                == Prepend(c, parts)[..n] + Split(Prepend(c, parts)[n] + b, separator)
  {
    var n := |parts| - 1;
    if n == 0 {
      var seam := [c] + parts[0] + b;
      assert seam[1..] == parts[0] + b;
      assert Prepend(c, parts)[0] + b == seam;
      assert parts[..0] + Split(parts[0] + b, separator) == Split(parts[0] + b, separator);
    } else {
      var later := Split(parts[n] + b, separator);
      assert (parts[..n] + later)[1..] == parts[1..n] + later;
      assert Prepend(c, parts)[..n] == [[c] + parts[0]] + parts[1..n];
    }
  }
}
