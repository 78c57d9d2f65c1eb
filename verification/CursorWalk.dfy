/** What a client sees that follows opaque cursors, page after page, over the wire format. */
module CursorWalk {
  import opened Options
  import opened Utf8
  import opened Keyset
  import Cursor

  // ---------------------------------------------------------------- cursors as positions

  datatype Codec = Codec(encode: Position -> Text, decode: Text -> Option<Position>)

  /** The position of every row survives. */
  ghost predicate Lossless<T(!new)>(codec: Codec, ever: set<Row<T>>) {
    forall r :: r in ever ==> codec.decode(codec.encode(PositionOf(r))) == Some(PositionOf(r))
  }

  /** The text of an identifier, and back. */
  datatype Naming = Naming(text: int -> Text, number: Text -> int)

  ghost predicate Names<T(!new)>(naming: Naming, isId: Text -> bool, ever: set<Row<T>>) {
    forall r :: r in ever ==> isId(naming.text(r.id)) && naming.number(naming.text(r.id)) == r.id
  }

  /** Lists of Payments and entries. */
  function ListCodec(os: Cursor.Platform, naming: Naming): Codec {
    Codec((p: Position) => Cursor.EncodeCursor(os, Cursor.Position(p.createdAt, naming.text(p.id))),
          (t: Text) => match Cursor.DecodeCursor(os, t)
            case None => None
            case Some(p) => Some(Position(p.createdAt, naming.number(p.id))))
  }

  /** The list of Benchmark Runs: a Run's time is its ISO text. */
  function RunCodec(os: Cursor.Platform, naming: Naming): Codec {
    Codec((p: Position) => Cursor.EncodeRunCursor(os, Cursor.RunPosition(os.iso(p.createdAt), naming.text(p.id))),
          (t: Text) => match Cursor.DecodeRunCursor(os, t)
            case None => None
            case Some(p) =>
              match Cursor.CanonicalTime(os, p.startedAt)
              case None => None
              case Some(at) => Some(Position(at, naming.number(p.runId))))
  }

  lemma ListCodecIsLossless<T(!new)>(os: Cursor.Platform, naming: Naming, ever: set<Row<T>>)
    requires Cursor.WellBehaved(os) && Names(naming, Cursor.IsUuid, ever)
    ensures Lossless(ListCodec(os, naming), ever)
  {
    hide Cursor.EncodeCursor, Cursor.DecodeCursor, Cursor.IsUuid;
    var codec := ListCodec(os, naming);
    forall r | r in ever ensures codec.decode(codec.encode(PositionOf(r))) == Some(PositionOf(r)) {
      var q := Cursor.Position(r.createdAt, naming.text(r.id));
      Cursor.CursorsAreInverse(os, Cursor.EncodeCursor(os, q), q);
    }
  }

  lemma RunCodecIsLossless<T(!new)>(os: Cursor.Platform, naming: Naming, ever: set<Row<T>>)
    requires Cursor.WellBehaved(os) && Names(naming, Cursor.IsSafeId, ever)
    ensures Lossless(RunCodec(os, naming), ever)
  {
    hide Cursor.EncodeRunCursor, Cursor.DecodeRunCursor, Cursor.IsSafeId;
    var codec := RunCodec(os, naming);
    forall r | r in ever ensures codec.decode(codec.encode(PositionOf(r))) == Some(PositionOf(r)) {
      var q := Cursor.RunPosition(os.iso(r.createdAt), naming.text(r.id));
      Cursor.RunCursorsAreInverse(os, Cursor.EncodeRunCursor(os, q), q);
    }
  }

  // ---------------------------------------------------------------- pages on the wire

  /** A page as it is sent, or the refusal of a cursor that is none. */
  datatype Sent<T> = Sent(items: seq<Row<T>>, next: Option<Text>) | BadCursor

  /** Where the server reads its pages: queries with a keyset, or all Runs loaded and sliced. */
  datatype Source = Queried | Loaded

  ghost function PageFrom<T(!new)>(source: Source, rows: set<Row<T>>, keep: Row<T> -> bool, after: Option<Position>,
                                   pageSize: nat): Page<T>
    requires DistinctIds(rows) && pageSize >= 1
  {
    if source == Queried then PageAt(rows, keep, after, pageSize) else ListRuns(rows, keep, after, pageSize)
  }

  ghost function Serve<T(!new)>(codec: Codec, source: Source, rows: set<Row<T>>, keep: Row<T> -> bool,
                                cursor: Option<Text>, pageSize: nat): Sent<T>
    requires DistinctIds(rows) && pageSize >= 1
  {
    if cursor.Some? && codec.decode(cursor.value).None? then BadCursor
    else
      var page := PageFrom(source, rows, keep, Asked(codec, cursor), pageSize);
      Sent(page.items, if page.next.None? then None else Some(codec.encode(page.next.value)))
  }

  function Asked(codec: Codec, cursor: Option<Text>): Option<Position> {
    if cursor.None? then None else codec.decode(cursor.value)
  }

  /** The next position is that of a row. */
  lemma NextSurvives<T(!new)>(codec: Codec, rows: set<Row<T>>, ever: set<Row<T>>, keep: Row<T> -> bool,
                              after: Option<Position>, pageSize: nat)
    requires Lossless(codec, ever) && rows <= ever && DistinctIds(rows) && pageSize >= 1
    ensures var next := PageAt(rows, keep, after, pageSize).next;
            next.Some? ==> codec.decode(codec.encode(next.value)) == next
  {
    PageIsNewest(rows, keep, after, pageSize);
    var page := PageAt(rows, keep, after, pageSize);
    if page.next.Some? { assert page.items[pageSize - 1] in page.items; }
  }

  /** The client asks again with the cursor it was sent, until it is sent none or is refused. */
  ghost function Follow<T(!new)>(codec: Codec, source: Source, world: nat -> set<Row<T>>, ever: set<Row<T>>,
                                 keep: Row<T> -> bool, k: nat, cursor: Option<Text>, pageSize: nat): seq<Sent<T>>
    requires Lossless(codec, ever) && Growing(world, ever) && pageSize >= 1
    decreases |Matching(ever, keep, Asked(codec, cursor))|
  {
    assert DistinctIds(world(k)) by { assert world(k) <= ever; }
    var sent := Serve(codec, source, world(k), keep, cursor, pageSize);
    if sent.BadCursor? || sent.next.None? then [sent]
    else
      ListRunsIsKeysetPage(world(k), keep, Asked(codec, cursor), pageSize);
      NextSurvives(codec, world(k), ever, keep, Asked(codec, cursor), pageSize);
      PageShrinks(world, ever, keep, k, Asked(codec, cursor), pageSize);
      [sent] + Follow(codec, source, world, ever, keep, k + 1, sent.next, pageSize)
  }

  /** Sent pages and read pages carry the same rows, and all but the last a cursor. */
  ghost predicate SameWalk<T(!new)>(sent: seq<Sent<T>>, pages: seq<Page<T>>) {
    && |sent| == |pages|
    && forall m :: 0 <= m < |sent| ==>
         sent[m].Sent? && sent[m].items == pages[m].items && (sent[m].next.Some? <==> pages[m].next.Some?)
  }

  /** The wire format changes nothing: the client is served the walk over positions, and is never
      refused a cursor it was sent. */
  lemma {:induction false} FollowIsWalk<T(!new)>(codec: Codec, source: Source, world: nat -> set<Row<T>>,
                                                 ever: set<Row<T>>, keep: Row<T> -> bool, k: nat,
                                                 cursor: Option<Text>, pageSize: nat)
    requires Lossless(codec, ever) && Growing(world, ever) && pageSize >= 1
    requires cursor.Some? ==> codec.decode(cursor.value).Some?
    ensures SameWalk(Follow(codec, source, world, ever, keep, k, cursor, pageSize),
                     Walk(world, ever, keep, k, Asked(codec, cursor), pageSize))
    decreases |Matching(ever, keep, Asked(codec, cursor))|
  {
    hide PageAt, ListRuns, Matching;
    var after := Asked(codec, cursor);
    assert DistinctIds(world(k)) by { assert world(k) <= ever; }
    ListRunsIsKeysetPage(world(k), keep, after, pageSize);
    NextSurvives(codec, world(k), ever, keep, after, pageSize);
    var page := PageAt(world(k), keep, after, pageSize);
    var sent := Serve(codec, source, world(k), keep, cursor, pageSize);
    if page.next.Some? {
      PageShrinks(world, ever, keep, k, after, pageSize);
      FollowIsWalk(codec, source, world, ever, keep, k + 1, sent.next, pageSize);
      assert Asked(codec, sent.next) == page.next;
    }
  }

  function SentItems<T>(sent: seq<Sent<T>>): seq<Row<T>> {
    if sent == [] then []
    else (if sent[0].Sent? then sent[0].items else []) + SentItems(sent[1..])
  }

  lemma {:induction false} SameItems<T(!new)>(sent: seq<Sent<T>>, pages: seq<Page<T>>)
    requires SameWalk(sent, pages)
    ensures SentItems(sent) == Items(pages)
  {
    if sent != [] { SameItems(sent[1..], pages[1..]); }
  }

  /** What a whole walk from the first page promises, as the client sees it. */
  ghost predicate ListsEverything<T(!new)>(sent: seq<Sent<T>>, world: nat -> set<Row<T>>, ever: set<Row<T>>,
                                           keep: Row<T> -> bool, pageSize: nat) {
    && Descending(SentItems(sent))
    && (forall r :: r in Matching(world(0), keep, None) ==> r in SentItems(sent))
    && (forall r :: r in SentItems(sent) ==> r in Matching(ever, keep, None))
    && sent != [] && (forall m :: 0 <= m < |sent| ==> sent[m].Sent?) && sent[|sent| - 1].next.None?
    && (forall m :: 0 <= m < |sent| - 1 ==> sent[m].next.Some? && |sent[m].items| == pageSize)
  }

  lemma FollowListsEverything<T(!new)>(codec: Codec, source: Source, world: nat -> set<Row<T>>, ever: set<Row<T>>,
                                       keep: Row<T> -> bool, pageSize: nat)
    requires Lossless(codec, ever) && Growing(world, ever) && pageSize >= 1
    ensures ListsEverything(Follow(codec, source, world, ever, keep, 0, None, pageSize), world, ever, keep, pageSize)
  {
    hide Follow, Walk, Matching, Items, SentItems, Descending;
    FollowIsWalk(codec, source, world, ever, keep, 0, None, pageSize);
    WalkListsEverything(world, ever, keep, 0, None, pageSize);
    SameItems(Follow(codec, source, world, ever, keep, 0, None, pageSize),
              Walk(world, ever, keep, 0, None, pageSize));
  }

  /** Lists of Payments and entries, by their cursors. */
  lemma CursorWalkListsEverything<T(!new)>(os: Cursor.Platform, naming: Naming, world: nat -> set<Row<T>>,
                                           ever: set<Row<T>>, keep: Row<T> -> bool, pageSize: nat)
    requires Cursor.WellBehaved(os) && Names(naming, Cursor.IsUuid, ever) && Growing(world, ever) && pageSize >= 1
    ensures Lossless(ListCodec(os, naming), ever)
    ensures ListsEverything(Follow(ListCodec(os, naming), Queried, world, ever, keep, 0, None, pageSize),
                            world, ever, keep, pageSize)
  {
    ListCodecIsLossless(os, naming, ever);
    FollowListsEverything(ListCodec(os, naming), Queried, world, ever, keep, pageSize);
  }

  /** Benchmark Runs, sliced from the loaded list, by theirs. */
  lemma RunWalkListsEverything<T(!new)>(os: Cursor.Platform, naming: Naming, world: nat -> set<Row<T>>,
                                        ever: set<Row<T>>, keep: Row<T> -> bool, limit: nat)
    requires Cursor.WellBehaved(os) && Names(naming, Cursor.IsSafeId, ever) && Growing(world, ever) && limit >= 1
    ensures Lossless(RunCodec(os, naming), ever)
    ensures ListsEverything(Follow(RunCodec(os, naming), Loaded, world, ever, keep, 0, None, limit),
                            world, ever, keep, limit)
  {
    RunCodecIsLossless(os, naming, ever);
    FollowListsEverything(RunCodec(os, naming), Loaded, world, ever, keep, limit);
  }
}
