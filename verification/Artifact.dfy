/** Reading an Artifact in chunks that neither lose a byte nor, where it can be helped, cut a line
    or a character. */
module Artifact {
  import opened Options
  import opened Utf8
  import opened Lines

  // ---------------------------------------------------------------- character boundaries

  /** A position of well-formed text with whole characters on both sides. */
  predicate Boundary(t: seq<Byte>, k: int) {
    0 <= k <= |t| && Valid(t[..k]) && Valid(t[k..])
  }

  ghost predicate LargestBoundary(t: seq<Byte>, end: nat, k: int) {
    && Boundary(t, k) && k <= end
    && forall m :: Boundary(t, m) && m <= end ==> m <= k
  }

  lemma {:induction false} ValidAppend(s: seq<Byte>, t: seq<Byte>)
    requires Valid(s)
    ensures Valid(s + t) <==> Valid(t)
  {
    hide Matched;
    if s == [] {
      assert s + t == t;
    } else {
      var n := Needed(s[0]);
      StartsMore(s, t);
      ValidAppend(s[n..], t);
      assert (s + t)[n..] == s[n..] + t;
    }
  }

  lemma StartsMore(s: seq<Byte>, t: seq<Byte>)
    requires StartsWithCharacter(s)
    ensures StartsWithCharacter(s + t)
  {
  }

  /** Only complete characters make a valid prefix. */
  lemma NoBoundaryInside(t: seq<Byte>, k: nat)
    requires StartsWithCharacter(t) && 0 < k < Needed(t[0]) && k <= |t|
    ensures !Valid(t[..k])
  {
  }

  lemma ValidStarts(t: seq<Byte>)
    requires t != [] && Valid(t)
    ensures StartsWithCharacter(t)
  {
  }

  /** Boundaries behind the first character are boundaries of what follows it. */
  lemma BoundaryShift(t: seq<Byte>, k: int)
    requires t != [] && Valid(t) && Needed(t[0]) <= k <= |t|
    ensures Boundary(t, k) <==> Boundary(t[Needed(t[0])..], k - Needed(t[0]))
  {
    ValidStarts(t);
    hide Matched, Valid, StartsWithCharacter;
    var n := Needed(t[0]);
    assert t[..k] == t[..n] + t[n..][..k - n];
    assert t[n..][k - n..] == t[k..];
    FirstCharacter(t);
    ValidAppend(t[..n], t[n..][..k - n]);
  }

  lemma FirstCharacter(t: seq<Byte>)
    requires StartsWithCharacter(t)
    ensures Needed(t[0]) <= |t| && Valid(t[..Needed(t[0])])
    ensures forall k :: 0 < k < Needed(t[0]) ==> Continuation(t[k])
    ensures !Continuation(t[0])
  {
    var n := Needed(t[0]);
    assert t[..n][n..] == [];
    assert StartsWithCharacter(t[..n]);
  }

  // ---------------------------------------------------------------- utf8SafeEnd

  /** Steps back over at most `left` continuation bytes. */
  function Back(b: seq<Byte>, at: nat, left: nat): (r: nat)
    requires at <= |b|
    ensures r <= at <= r + left
  {
    if at > 0 && left > 0 && Continuation(b[at - 1]) then Back(b, at - 1, left - 1) else at
  }

  /** The length the lead byte announces; the code does not ask whether it is a lead byte. */
  function Announced(lead: Byte): nat {
    if lead >= 0xF0 then 4 else if lead >= 0xE0 then 3 else if lead >= 0xC0 then 2 else 1
  }

  /** For any bytes at all, at most three are given back. */
  function SafeEnd(b: seq<Byte>, end: nat): (r: nat)
    requires end <= |b|
    ensures r <= end <= r + 3
  {
    var at := Back(b, end, 4);
    if at > 0 && Announced(b[at - 1]) > end - (at - 1) then at - 1 else end
  }

  method Utf8SafeEnd(buffer: array<Byte>, end: nat) returns (r: nat)
    requires end <= buffer.Length
    ensures r == SafeEnd(buffer[..], end)
  {
    var at := end;
    while at > 0 && end - at < 4 && Continuation(buffer[at - 1])
      invariant 0 <= at <= end && end - at <= 4
      invariant Back(buffer[..], end, 4) == Back(buffer[..], at, 4 - (end - at))
    {
      at := at - 1;
    }
    if at > 0 {
      var lead := buffer[at - 1];
      var needed := if lead >= 0xF0 then 4 else if lead >= 0xE0 then 3 else if lead >= 0xC0 then 2 else 1;
      if needed > end - (at - 1) { return at - 1; }
    }
    return end;
  }

  lemma {:induction false} BackSkips(b: seq<Byte>, at: nat, lead: nat, left: nat)
    requires lead < at <= |b| && at - lead <= left + 1 && !Continuation(b[lead])
    requires forall k :: lead < k < at ==> Continuation(b[k])
    ensures Back(b, at, left) == lead + 1
  {
    if at > lead + 1 { BackSkips(b, at - 1, lead, left - 1); }
  }

  /** The last character that begins before `end`, complete or not. */
  lemma {:induction false} LastCharacter(t: seq<Byte>, end: nat) returns (lead: nat)
    requires Valid(t) && 0 < end <= |t|
    ensures lead < end && Boundary(t, lead) && StartsWithCharacter(t[lead..])
    ensures end <= lead + Needed(t[lead])
  {
    hide Matched;
    var n := Needed(t[0]);
    if end <= n {
      lead := 0;
      assert t[0..] == t;
    } else {
      var rest := LastCharacter(t[n..], end - n);
      lead := n + rest;
      FirstCharacter(t);
      BoundaryShift(t, lead);
      assert t[n..][rest..] == t[lead..];
    }
  }

  /** On well-formed text, whatever follows the buffer, the result is the largest position not
      above `end` that cuts no character. */
  lemma SafeEndIsLargestBoundary(b: seq<Byte>, end: nat, t: seq<Byte>)
    requires end <= |b| && end <= |t| && t[..end] == b[..end] && Valid(t)
    ensures LargestBoundary(t, end, SafeEnd(b, end))
  {
    hide Matched, Valid;
    if end == 0 {
      assert t[..0] == [] && t[0..] == t;
      EmptyIsValid();
    } else {
      var lead := LastCharacter(t, end);
      FirstCharacter(t[lead..]);
      var n := Needed(t[lead]);
      assert forall k :: lead < k < end ==> t[lead..][k - lead] == t[k] && b[..end][k] == b[k] && t[..end][k] == t[k];
      assert b[..end][lead] == t[..end][lead] && b[lead] == t[lead];
      BackSkips(b, end, lead, 4);
      LargestBoundaryAt(t, end, lead);
    }
  }

  lemma EmptyIsValid()
    ensures Valid([])
  {
  }

  /** The largest boundary is after the last character, if that is complete, and before it if not. */
  lemma LargestBoundaryAt(t: seq<Byte>, end: nat, lead: nat)
    requires lead < end <= |t| && Valid(t) && Boundary(t, lead) && StartsWithCharacter(t[lead..])
    requires end <= lead + Needed(t[lead])
    ensures LargestBoundary(t, end, if end == lead + Needed(t[lead]) then end else lead)
  {
    hide Matched, Valid, StartsWithCharacter;
    var n := Needed(t[lead]);
    forall m | lead < m <= end && m < lead + n ensures !Boundary(t, m) {
      NoBoundaryInside(t[lead..], m - lead);
      assert t[..m] == t[..lead] + t[lead..][..m - lead];
      ValidAppend(t[..lead], t[lead..][..m - lead]);
    }
    if end == lead + n {
      FirstCharacter(t[lead..]);
      assert t[..end] == t[..lead] + t[lead..][..n];
      ValidAppend(t[..lead], t[lead..][..n]);
      assert t == t[..end] + t[end..];
      ValidAppend(t[..end], t[end..]);
    }
  }

  // ---------------------------------------------------------------- readArtifact

  datatype Chunk = Chunk(content: Text, offset: nat, nextOffset: Option<nat>, sizeBytes: nat)

  function LastNewline(b: seq<Byte>): (i: int)
    ensures -1 <= i < |b|
    ensures i >= 0 ==> b[i] == NEWLINE
    ensures forall k :: i < k < |b| ==> b[k] != NEWLINE
  {
    if b == [] then -1 else if b[|b| - 1] == NEWLINE then |b| - 1 else LastNewline(b[..|b| - 1])
  }

  function Window(file: seq<Byte>, offset: nat, limit: nat): seq<Byte>
    requires offset <= |file|
  {
    file[offset..if offset + limit <= |file| then offset + limit else |file|]
  }

  /** How many bytes of the window a chunk has. */
  function ChunkLength(file: seq<Byte>, offset: nat, limit: nat): (n: nat)
    requires offset < |file| && limit >= 1
    ensures 1 <= n <= limit && offset + n <= |file|
  {
    var b := Window(file, offset, limit);
    if offset + |b| >= |file| then |b|
    else if LastNewline(b) >= 0 then LastNewline(b) + 1
    else if SafeEnd(b, |b|) == 0 then |b| else SafeEnd(b, |b|)
  }

  function ReadChunk(f: Sanitizer, file: seq<Byte>, offset: nat, limit: nat): Chunk
    requires limit >= 1
  {
    if offset >= |file| then Chunk([], offset, None, |file|)
    else
      var end := offset + ChunkLength(file, offset, limit);
      Chunk(Sanitized(f, Decode(file[offset..end])), offset, if end >= |file| then None else Some(end), |file|)
  }

  method ReadArtifact(f: Sanitizer, file: seq<Byte>, offset: nat, limit: nat) returns (chunk: Chunk)
    requires limit >= 1
    ensures chunk == ReadChunk(f, file, offset, limit)
  {
    hide Sanitized, Decode, SafeEnd, LastNewline;
    var size := |file|;
    if offset >= size { return Chunk([], offset, None, size); }
    var length := if limit <= size - offset then limit else size - offset;
    var buffer := new Byte[length](k requires 0 <= k < length => file[offset + k]);
    assert buffer[..] == Window(file, offset, limit);
    var end := length;
    if offset + length < size {
      var newline := LastNewline(buffer[..]);
      if newline >= 0 {
        end := newline + 1;
      } else {
        end := Utf8SafeEnd(buffer, length);
        if end == 0 { end := length; }
      }
    }
    assert buffer[..end] == file[offset..offset + end];
    var content := Sanitized(f, Decode(buffer[..end]));
    chunk := Chunk(content, offset, if offset + end >= size then None else Some(offset + end), size);
  }

  // ---------------------------------------------------------------- the chunk walk

  /** What a client gets that starts at `offset` and follows `nextOffset` to the end. */
  function Walk(f: Sanitizer, file: seq<Byte>, offset: nat, limit: nat): seq<Chunk>
    requires limit >= 1
    decreases |file| - offset
  {
    var chunk := ReadChunk(f, file, offset, limit);
    [chunk] + if chunk.nextOffset.None? then [] else Walk(f, file, chunk.nextOffset.value, limit)
  }

  function ChunkEnd(c: Chunk): nat { if c.nextOffset.Some? then c.nextOffset.value else c.sizeBytes }

  function Bytes(file: seq<Byte>, chunks: seq<Chunk>): seq<Byte> {
    if chunks == [] then []
    else
      (if chunks[0].offset <= ChunkEnd(chunks[0]) <= |file| then file[chunks[0].offset..ChunkEnd(chunks[0])] else [])
      + Bytes(file, chunks[1..])
  }

  /** The walk from any position partitions the rest of the file: chunks follow one another without
      gap or overlap, only the last one has no successor, and together they are every byte once. */
  lemma {:induction false} WalkPartitions(f: Sanitizer, file: seq<Byte>, offset: nat, limit: nat)
    requires limit >= 1 && offset <= |file|
    ensures var chunks := Walk(f, file, offset, limit);
            && chunks[0].offset == offset
            && Bytes(file, chunks) == file[offset..]
            && (forall k :: 0 <= k < |chunks| - 1 ==>
                  chunks[k].nextOffset == Some(chunks[k + 1].offset) && chunks[k].offset < chunks[k + 1].offset)
            && chunks[|chunks| - 1].nextOffset.None?
    decreases |file| - offset
  {
    hide Sanitized, Decode, ChunkLength;
    var chunk := ReadChunk(f, file, offset, limit);
    if chunk.nextOffset.Some? {
      var next := chunk.nextOffset.value;
      WalkPartitions(f, file, next, limit);
      assert file[offset..] == file[offset..next] + file[next..];
      assert Walk(f, file, offset, limit)[1..] == Walk(f, file, next, limit);
    } else {
      assert Walk(f, file, offset, limit) == [chunk];
      assert Bytes(file, [chunk]) == file[offset..];
    }
  }

  /** A chunk that is not the last ends just after a newline whenever one is within the limit, at the
      last such place. */
  lemma CutsAfterNewline(f: Sanitizer, file: seq<Byte>, offset: nat, limit: nat)
    requires limit >= 1
    ensures var chunk := ReadChunk(f, file, offset, limit);
            chunk.nextOffset.Some? && NEWLINE in file[offset..offset + limit] ==>
              var next := chunk.nextOffset.value;
              file[next - 1] == NEWLINE && NEWLINE !in file[next..offset + limit]
  {
    if offset < |file| {
      var b := Window(file, offset, limit);
      if NEWLINE in b && offset + limit < |file| {
        var next := offset + LastNewline(b) + 1;
        assert file[next - 1] == b[LastNewline(b)];
        assert forall k :: next <= k < offset + limit ==> file[k] == b[k - offset];
      }
    }
  }

  lemma BoundaryCompose(t: seq<Byte>, i: nat, j: nat)
    requires i <= |t| && Boundary(t, i) && Boundary(t[i..], j)
    ensures Boundary(t, i + j)
  {
    assert t[..i + j] == t[..i] + t[i..][..j];
    assert t[i..][j..] == t[i + j..];
    ValidAppend(t[..i], t[i..][..j]);
  }

  lemma InsideIsContinuation(t: seq<Byte>, lead: nat, k: nat)
    requires lead < k < |t| && StartsWithCharacter(t[lead..]) && k < lead + Needed(t[lead])
    ensures Continuation(t[k])
  {
    FirstCharacter(t[lead..]);
    assert t[k] == t[lead..][k - lead];
  }

  /** Right after a newline byte of well-formed text there is a boundary. */
  lemma AfterNewline(t: seq<Byte>, k: nat)
    requires Valid(t) && k < |t| && t[k] == NEWLINE
    ensures Boundary(t, k + 1)
  {
    hide Valid, StartsWithCharacter;
    var lead := LastCharacter(t, k + 1);
    if lead < k { InsideIsContinuation(t, lead, k); }
    LargestBoundaryAt(t, k + 1, lead);
  }

  /** On well-formed text read with a limit of at least four, no chunk cuts a character. */
  lemma ChunkKeepsBoundary(file: seq<Byte>, offset: nat, limit: nat)
    requires limit >= 4 && offset < |file| && Boundary(file, offset) && Valid(file)
    ensures Boundary(file, offset + ChunkLength(file, offset, limit))
  {
    hide Valid;
    var b := Window(file, offset, limit);
    var n := ChunkLength(file, offset, limit);
    var t := file[offset..];
    if offset + |b| >= |file| {
      assert file[..|file|] == file && file[|file|..] == [];
      EmptyIsValid();
    } else if LastNewline(b) >= 0 {
      assert t[LastNewline(b)] == b[LastNewline(b)];
      AfterNewline(t, LastNewline(b));
      BoundaryCompose(file, offset, n);
    } else {
      assert t[..|b|] == b[..|b|];
      SafeEndIsLargestBoundary(b, |b|, t);
      BoundaryCompose(file, offset, n);
    }
  }

  lemma {:induction false} WalkKeepsBoundaries(f: Sanitizer, file: seq<Byte>, offset: nat, limit: nat)
    requires limit >= 4 && offset <= |file| && Boundary(file, offset) && Valid(file)
    ensures forall c :: c in Walk(f, file, offset, limit) ==> Boundary(file, c.offset) && Boundary(file, ChunkEnd(c))
    decreases |file| - offset
  {
    hide Valid, Boundary, Sanitized, Decode, ChunkLength;
    if offset == |file| {
    } else {
      ChunkKeepsBoundary(file, offset, limit);
      var next := offset + ChunkLength(file, offset, limit);
      if next < |file| { WalkKeepsBoundaries(f, file, next, limit); }
    }
  }

  /** Every chunk of the walk through a file begins and ends on a character boundary. */
  ghost predicate WalkCutsNothing(f: Sanitizer, file: seq<Byte>, limit: nat)
    requires limit >= 1
  {
    forall c :: c in Walk(f, file, 0, limit) ==> Boundary(file, c.offset) && Boundary(file, ChunkEnd(c))
  }

  /** U+1F600 and a letter: the character alone is longer than a limit of one, two or three. */
  const WIDE: seq<Byte> := [0xF0, 0x9F, 0x98, 0x80, 65]

  lemma WideIsValid()
    ensures Valid(WIDE) && StartsWithCharacter(WIDE) && Needed(WIDE[0]) == 4
    ensures WIDE == EncodeOne(0x1F600) + [65]
  {
    assert WIDE[4..] == [65] && [65][1..] == [];
  }

  /** No boundary is in reach, so the whole window is taken and its end is inside the character. */
  lemma SmallLimitCuts(f: Sanitizer, limit: nat)
    requires 1 <= limit <= 3
    ensures ReadChunk(f, WIDE, 0, limit).nextOffset == Some(limit) && !WalkCutsNothing(f, WIDE, limit)
  {
    WideIsValid();
    var b := Window(WIDE, 0, limit);
    assert b == WIDE[..limit];
    assert forall k :: 0 <= k < limit ==> b[k] == WIDE[k];
    assert limit > 1 ==> forall k :: 0 < k < limit ==> Continuation(b[k]);
    BackSkips(b, limit, 0, 4);
    NoBoundaryInside(WIDE, limit);
    assert ReadChunk(f, WIDE, 0, limit) in Walk(f, WIDE, 0, limit);
  }

  /** Chunks of well-formed text never cut a character exactly when the limit is at least four. */
  lemma BoundariesIffFour(f: Sanitizer, limit: nat)
    requires limit >= 1
    ensures (forall file :: Valid(file) ==> WalkCutsNothing(f, file, limit)) <==> limit >= 4
  {
    if limit >= 4 {
      forall file | Valid(file) ensures WalkCutsNothing(f, file, limit) {
        assert file[..0] == [] && file[0..] == file;
        EmptyIsValid();
        WalkKeepsBoundaries(f, file, 0, limit);
      }
    } else {
      WideIsValid();
      SmallLimitCuts(f, limit);
    }
  }
}
