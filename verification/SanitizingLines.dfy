/** Sanitizing an Artifact as it streams: what comes out depends on the bytes alone, never on how
    they were cut into chunks, and it is what reading the Artifact chunk by chunk shows. */
module SanitizingLines {
  import opened Utf8
  import opened Splitting
  import opened Lines
  import opened Artifact

  /** The text a whole stream gives: the last line is left out when it is empty. */
  function StreamText(f: Sanitizer, t: Text): Text {
    Emit(f, Complete(t)) + if LastLine(t) == [] then [] else f(LastLine(t))
  }

  /** It is the line-by-line sanitized text, unless the text ends with a newline (or is empty) and
      the sanitizer makes something of an empty line. */
  lemma StreamIsSanitized(f: Sanitizer, t: Text)
    ensures StreamText(f, t) == Sanitized(f, t) <==> LastLine(t) != [] || f([]) == []
  {
    SanitizedIsEmit(f, t);
    if LastLine(t) == [] {
      assert |Sanitized(f, t)| == |StreamText(f, t)| + |f([])|;
    }
  }

  class SanitizingLines {
    const sanitize: Sanitizer
    /** The decoder's bytes that are not a whole character yet. */
    var pending: seq<Byte>
    var rest: Text
    /** What was pushed downstream. */
    var output: Text
    ghost var input: seq<Byte>

    ghost predicate Valid()
      reads this
    {
      && pending == Feed(input).pending
      && rest == LastLine(Feed(input).text)
      && output == Emit(sanitize, Complete(Feed(input).text))
    }

    constructor (sanitize: Sanitizer)
      ensures Valid() && input == [] && this.sanitize == sanitize
    {
      this.sanitize := sanitize;
      pending, rest, output, input := [], [], [], [];
    }

    method Transform(chunk: seq<Byte>)
      requires Valid()
      modifies this
      ensures Valid() && input == old(input) + chunk
      ensures output == Emit(sanitize, Complete(Feed(old(input) + chunk).text))
    {
      var decoded := Feed(pending + chunk);
      pending := decoded.pending;
      var lines := Split(rest + decoded.text, NEWLINE);
      var complete := lines[..|lines| - 1];
      FeedAppend(input, chunk);
      CompleteAppend(Feed(input).text, decoded.text);
      EmitAppend(sanitize, Complete(Feed(input).text), complete);
      EmitIsJoin(sanitize, complete);
      rest := lines[|lines| - 1];
      if |complete| > 0 {
        output := output + (Join(MapLines(sanitize, complete), NEWLINE) + [NEWLINE]);
      }
      input := input + chunk;
    }

    method Flush()
      requires Valid()
      modifies this`output
      ensures output == StreamText(sanitize, Decode(input))
    {
      var tail := rest + FlushText(pending);
      FeedIsDecode(input);
      JoinSplit(Feed(input).text, NEWLINE);
      CompleteAppend(Feed(input).text, FlushText(pending));
      OnePart(tail, NEWLINE);
      assert Complete(tail) == [];
      assert Complete(Decode(input)) == Complete(Feed(input).text);
      if |tail| > 0 {
        output := output + sanitize(tail);
      }
    }
  }

  function Concat<T>(parts: seq<seq<T>>): seq<T> {
    if parts == [] then [] else parts[0] + Concat(parts[1..])
  }

  /** However the input is cut, the same text comes out. */
  method Pipe(f: Sanitizer, chunks: seq<seq<Byte>>) returns (text: Text)
    ensures text == StreamText(f, Decode(Concat(chunks)))
  {
    var stream := new SanitizingLines(f);
    var k := 0;
    while k < |chunks|
      invariant 0 <= k <= |chunks| && stream.Valid() && stream.sanitize == f
      invariant stream.input + Concat(chunks[k..]) == Concat(chunks)
      invariant fresh(stream)
    {
      assert chunks[k..][1..] == chunks[k + 1..];
      assert stream.input + Concat(chunks[k..]) == (stream.input + chunks[k]) + Concat(chunks[k + 1..]);
      stream.Transform(chunks[k]);
      k := k + 1;
    }
    assert stream.input == Concat(chunks);
    stream.Flush();
    text := stream.output;
  }

  // ---------------------------------------------------------------- the stream and the chunk walk agree

  /** Every line, with its newline, fits in the limit. */
  ghost predicate LinesFit(file: seq<Byte>, limit: nat) {
    forall k :: LineStart(file, k) && k + limit < |file| ==> NEWLINE in file[k..k + limit]
  }

  predicate LineStart(file: seq<Byte>, k: int) {
    0 <= k <= |file| && (k == 0 || file[k - 1] == NEWLINE)
  }

  function Contents(chunks: seq<Chunk>): Text {
    if chunks == [] then [] else chunks[0].content + Contents(chunks[1..])
  }

  lemma {:induction false} DecodedEnd(s: seq<Byte>)
    requires s != [] && s[|s| - 1] == NEWLINE
    ensures Decode(s) != [] && Decode(s)[|Decode(s)| - 1] == NEWLINE
  {
    if Unit(s) == |s| {
      OnlyNewline(s);
      assert Decode(s) == [DecodeOne(s)] + [];
    } else {
      DecodedEnd(s[Unit(s)..]);
    }
  }

  lemma OnlyNewline(s: seq<Byte>)
    requires s != [] && s[|s| - 1] == NEWLINE && Unit(s) == |s|
    ensures s == [NEWLINE]
  {
  }

  /** Cutting a text just after a newline cuts its stream in two. */
  lemma StreamAfterNewline(f: Sanitizer, a: Text, b: Text)
    requires a != [] && a[|a| - 1] == NEWLINE
    ensures StreamText(f, a + b) == StreamText(f, a) + StreamText(f, b)
  {
    hide Split;
    EndsAfterNewline(a);
    CompleteAppend(a, b);
    assert [] + b == b;
    EmitAppend(f, Complete(a), Complete(b));
  }

  lemma OneChunk(f: Sanitizer, file: seq<Byte>, offset: nat, limit: nat)
    requires limit >= 1 && f([]) == [] && offset <= |file| && LineStart(file, offset) && LinesFit(file, limit)
    ensures var chunk := ReadChunk(f, file, offset, limit);
            match chunk.nextOffset
            case None => chunk.content == StreamText(f, Decode(file[offset..]))
            case Some(next) =>
              && offset < next < |file| && LineStart(file, next)
              && StreamText(f, Decode(file[offset..])) == chunk.content + StreamText(f, Decode(file[next..]))
  {
    hide Decode, LinesFit, Split, ChunkLength, Sanitized;
    var chunk := ReadChunk(f, file, offset, limit);
    if offset >= |file| {
      assert file[offset..] == [];
      NothingToStream(f);
    } else {
      var end := offset + ChunkLength(file, offset, limit);
      var part := file[offset..end];
      StreamIsSanitized(f, Decode(part));
      if end < |file| {
        FittingChunk(f, file, offset, limit);
        var more := file[end..];
        assert file[offset..] == part + more;
        assert part[|part| - 1] == NEWLINE;
        DecodeAfterNewline(part, more);
        DecodedEnd(part);
        StreamAfterNewline(f, Decode(part), Decode(more));
      } else {
        assert part == file[offset..];
      }
    }
  }

  lemma NothingToStream(f: Sanitizer)
    ensures StreamText(f, Decode([])) == []
  {
  }

  lemma FittingChunk(f: Sanitizer, file: seq<Byte>, offset: nat, limit: nat)
    requires limit >= 1 && offset < |file| && LineStart(file, offset) && LinesFit(file, limit)
    requires offset + ChunkLength(file, offset, limit) < |file|
    ensures file[offset + ChunkLength(file, offset, limit) - 1] == NEWLINE
  {
    CutsAfterNewline(f, file, offset, limit);
  }

  /** When every line fits in the limit, the contents a client collects by following `nextOffset`
      are exactly the streamed text. */
  lemma {:induction false} StreamEqualsWalk(f: Sanitizer, file: seq<Byte>, offset: nat, limit: nat)
    requires limit >= 1 && f([]) == [] && offset <= |file| && LineStart(file, offset) && LinesFit(file, limit)
    ensures Contents(Walk(f, file, offset, limit)) == StreamText(f, Decode(file[offset..]))
    decreases |file| - offset
  {
    hide LinesFit, LineStart, StreamText, ReadChunk, Decode;
    OneChunk(f, file, offset, limit);
    var chunk := ReadChunk(f, file, offset, limit);
    var chunks := Walk(f, file, offset, limit);
    if chunk.nextOffset.Some? {
      StreamEqualsWalk(f, file, chunk.nextOffset.value, limit);
      assert chunks[1..] == Walk(f, file, chunk.nextOffset.value, limit);
    } else {
      assert chunks == [chunk];
      assert Contents(chunks) == chunk.content + Contents([]);
    }
  }
}
