/** Opaque pagination cursors: printing and parsing are exact inverses of each other. */
module Cursor {
  import opened Options
  import opened Utf8
  import opened Splitting
  import opened Base64Url

  const BAR := 124

  type Instant = int

  /** What the cursors use and this model leaves open: how dates print (`toISOString`) and parse
      (`new Date`), and the checksum, the first eight hex digits of a SHA-256. */
  datatype Platform = Platform(iso: Instant -> Text, parse: Text -> Option<Instant>, checksum: Text -> Text)

  predicate Plain(t: Text) { forall c :: c in t ==> c < 0x80 && c != BAR }

  /** All that is used of them: both are plain ASCII without a bar, and an ISO date parses back. */
  ghost predicate WellBehaved(os: Platform) {
    && (forall at :: Plain(os.iso(at)) && os.parse(os.iso(at)) == Some(at))
    && (forall t :: Plain(os.checksum(t)))
  }

  // ---------------------------------------------------------------- identifiers

  predicate Digit(c: CodePoint) { 48 <= c <= 57 }
  predicate Alphabetic(c: CodePoint) { 65 <= c <= 90 || 97 <= c <= 122 }
  predicate Hex(c: CodePoint) { Digit(c) || 65 <= c <= 70 || 97 <= c <= 102 }

  /** Payments, entries and accounts: a UUID, 8-4-4-4-12 hex digits. */
  predicate IsUuid(id: Text) {
    |id| == 36 && forall k :: 0 <= k < 36 ==> if k in {8, 13, 18, 23} then id[k] == 45 else Hex(id[k])
  }

  /** Benchmark Runs: a safe file name. */
  predicate IsSafeId(id: Text) {
    && 1 <= |id| <= 128 && (Alphabetic(id[0]) || Digit(id[0]))
    && forall c :: c in id ==> Alphabetic(c) || Digit(c) || c == 46 || c == 95 || c == 45
  }

  lemma IdsArePlain(id: Text)
    ensures IsUuid(id) || IsSafeId(id) ==> Plain(id)
  {
    if IsUuid(id) {
      forall c | c in id ensures c < 0x80 && c != BAR {
        var k :| 0 <= k < |id| && id[k] == c;
      }
    }
  }

  // ---------------------------------------------------------------- the shared format

  datatype Fields = Fields(time: Text, id: Text)

  function Payload(f: Fields): Text { f.time + [BAR] + f.id }

  /** base64url of `<iso time>|<id>|<checksum>` */
  function Seal(os: Platform, f: Fields): Text {
    Print(Encode(Payload(f) + [BAR] + os.checksum(Payload(f))))
  }

  /** The canonical instant of a time field, if it is one. */
  function CanonicalTime(os: Platform, time: Text): Option<Instant> {
    match os.parse(time)
    case None => None
    case Some(at) => if os.iso(at) == time then Some(at) else None
  }

  function Unseal(os: Platform, isId: Text -> bool, cursor: Text): Option<Fields> {
    if cursor == [] || !Letters(cursor) then None
    else
      var decoded := Parse(cursor);
      if Print(decoded) != cursor then None
      else
        var parts := Split(Decode(decoded), BAR);
        if |parts| != 3 then None
        else
          var f := Fields(parts[0], parts[1]);
          if CanonicalTime(os, f.time).None? || !isId(f.id) || parts[2] != os.checksum(Payload(f)) then None
          else Some(f)
  }

  predicate Sealable(os: Platform, isId: Text -> bool, f: Fields) {
    CanonicalTime(os, f.time).Some? && isId(f.id)
  }

  // ---------------------------------------------------------------- ASCII

  lemma {:induction false} AsciiEncodes(t: Text)
    requires forall c :: c in t ==> c < 0x80
    ensures Decode(Encode(t)) == t && (t != [] ==> Encode(t) != [])
  {
    DecodeEncode(t);
  }

  /** Bytes that decode to ASCII only are that ASCII: nothing was replaced. */
  lemma {:induction false} AsciiDecodes(s: seq<Byte>)
    requires forall c :: c in Decode(s) ==> c < 0x80
    ensures Encode(Decode(s)) == s
  {
    hide DecodeOne, Unit, EncodeOne;
    if s != [] {
      assert Decode(s) == [DecodeOne(s)] + Decode(s[Unit(s)..]);
      assert DecodeOne(s) in Decode(s);
      AsciiUnit(s);
      forall c | c in Decode(s[1..]) ensures c < 0x80 { assert c in Decode(s); }
      AsciiDecodes(s[1..]);
      assert s == [s[0]] + s[1..];
    }
  }

  lemma AsciiUnit(s: seq<Byte>)
    requires s != [] && DecodeOne(s) < 0x80
    ensures Unit(s) == 1 && DecodeOne(s) == s[0] && EncodeOne(DecodeOne(s)) == [s[0]]
  {
  }

  // ---------------------------------------------------------------- exact inverses

  lemma PlainPayload(os: Platform, isId: Text -> bool, f: Fields)
    requires WellBehaved(os) && Sealable(os, isId, f) && Plain(f.id)
    ensures Plain(f.time) && Plain(os.checksum(Payload(f)))
    ensures forall c :: c in Payload(f) + [BAR] + os.checksum(Payload(f)) ==> c < 0x80
    ensures Payload(f) + [BAR] + os.checksum(Payload(f)) == Join([f.time, f.id, os.checksum(Payload(f))], BAR)
  {
    var at := CanonicalTime(os, f.time).value;
    assert Plain(os.iso(at));
    var parts := [f.time, f.id, os.checksum(Payload(f))];
    assert parts[1..] == [f.id, os.checksum(Payload(f))] && parts[1..][1..] == [os.checksum(Payload(f))];
    assert Join(parts[1..], BAR) == f.id + [BAR] + os.checksum(Payload(f));
    assert Join(parts, BAR) == f.time + [BAR] + (f.id + [BAR] + os.checksum(Payload(f)));
  }

  lemma UnsealSeal(os: Platform, isId: Text -> bool, f: Fields)
    requires WellBehaved(os) && Sealable(os, isId, f) && Plain(f.id)
    ensures Unseal(os, isId, Seal(os, f)) == Some(f)
  {
    hide CanonicalTime, WellBehaved, Split, Encode, Decode, Print, Parse, Join;
    PlainPayload(os, isId, f);
    var parts := [f.time, f.id, os.checksum(Payload(f))];
    var text := Payload(f) + [BAR] + os.checksum(Payload(f));
    AsciiEncodes(text);
    ParsePrint(Encode(text));
    SplitJoin(parts, BAR);
    NonEmptyPrint(Encode(text));
  }

  lemma NonEmptyPrint(bytes: seq<Byte>)
    requires bytes != []
    ensures Print(bytes) != []
  {
  }

  lemma SealUnseal(os: Platform, isId: Text -> bool, cursor: Text)
    requires WellBehaved(os) && Unseal(os, isId, cursor).Some? && Plain(Unseal(os, isId, cursor).value.id)
    ensures var f := Unseal(os, isId, cursor).value;
            Sealable(os, isId, f) && Seal(os, f) == cursor
  {
    hide CanonicalTime, WellBehaved, Split, Encode, Decode, Print, Parse, Join;
    var f := Unseal(os, isId, cursor).value;
    PlainPayload(os, isId, f);
    var bytes := Parse(cursor);
    var parts := Split(Decode(bytes), BAR);
    assert parts == [f.time, f.id, os.checksum(Payload(f))];
    JoinSplit(Decode(bytes), BAR);
    AsciiDecodes(bytes);
  }

  // ---------------------------------------------------------------- list cursors

  datatype Position = Position(createdAt: Instant, id: Text)

  function EncodeCursor(os: Platform, p: Position): Text { Seal(os, Fields(os.iso(p.createdAt), p.id)) }

  function DecodeCursor(os: Platform, cursor: Text): Option<Position> {
    match Unseal(os, IsUuid, cursor)
    case None => None
    case Some(f) => Some(Position(CanonicalTime(os, f.time).value, f.id))
  }

  /** A cursor decodes to a position exactly when it is what that position encodes to. */
  lemma CursorsAreInverse(os: Platform, cursor: Text, p: Position)
    requires WellBehaved(os)
    ensures DecodeCursor(os, cursor) == Some(p) <==> IsUuid(p.id) && cursor == EncodeCursor(os, p)
  {
    hide Seal, Unseal, IsUuid;
    IdsArePlain(p.id);
    var f := Fields(os.iso(p.createdAt), p.id);
    assert CanonicalTime(os, f.time) == Some(p.createdAt);
    if IsUuid(p.id) && cursor == EncodeCursor(os, p) { UnsealSeal(os, IsUuid, f); }
    if DecodeCursor(os, cursor) == Some(p) {
      UnsealedIsSealable(os, IsUuid, cursor);
      SealUnseal(os, IsUuid, cursor);
    }
  }

  lemma UnsealedIsSealable(os: Platform, isId: Text -> bool, cursor: Text)
    requires Unseal(os, isId, cursor).Some?
    ensures Sealable(os, isId, Unseal(os, isId, cursor).value)
  {
  }

  // ---------------------------------------------------------------- Run cursors

  datatype RunPosition = RunPosition(startedAt: Text, runId: Text)

  function EncodeRunCursor(os: Platform, p: RunPosition): Text { Seal(os, Fields(p.startedAt, p.runId)) }

  function DecodeRunCursor(os: Platform, cursor: Text): Option<RunPosition> {
    match Unseal(os, IsSafeId, cursor)
    case None => None
    case Some(f) => Some(RunPosition(f.time, f.id))
  }

  /** The start time of a Run position must be a canonical ISO time. */
  lemma RunCursorsAreInverse(os: Platform, cursor: Text, p: RunPosition)
    requires WellBehaved(os)
    ensures DecodeRunCursor(os, cursor) == Some(p) <==>
            CanonicalTime(os, p.startedAt).Some? && IsSafeId(p.runId) && cursor == EncodeRunCursor(os, p)
  {
    hide Seal, Unseal, IsSafeId, CanonicalTime;
    IdsArePlain(p.runId);
    var f := Fields(p.startedAt, p.runId);
    if Sealable(os, IsSafeId, f) && cursor == EncodeRunCursor(os, p) { UnsealSeal(os, IsSafeId, f); }
    if DecodeRunCursor(os, cursor) == Some(p) {
      UnsealedIsSealable(os, IsSafeId, cursor);
      SealUnseal(os, IsSafeId, cursor);
    }
  }
}
