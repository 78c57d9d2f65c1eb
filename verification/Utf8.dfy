/** UTF-8 (RFC 3629): well-formed text, and decoding that replaces what is malformed by U+FFFD,
    all at once or as the bytes arrive. */
module Utf8 {
  type Byte = b: int | 0 <= b < 256
  type CodePoint = c: int | 0 <= c < 0x110000
  type Text = seq<CodePoint>

  const REPLACEMENT: CodePoint := 0xFFFD
  const NEWLINE := 10

  /** `(b & 0xc0) === 0x80` */
  predicate Continuation(b: Byte) { 0x80 <= b < 0xC0 }

  /** How many bytes a character starting with `b` has; 0 when none does. */
  function Needed(b: Byte): (n: nat)
    ensures n <= 4
  {
    if b < 0x80 then 1
    else if 0xC2 <= b < 0xE0 then 2
    else if 0xE0 <= b < 0xF0 then 3
    else if 0xF0 <= b < 0xF5 then 4
    else 0
  }

  /** The second byte rules out overlong forms, surrogates and code points above U+10FFFF. */
  predicate SecondOk(b: Byte, c: Byte) {
    && Continuation(c)
    && (b == 0xE0 ==> c >= 0xA0) && (b == 0xED ==> c < 0xA0)
    && (b == 0xF0 ==> c >= 0x90) && (b == 0xF4 ==> c < 0x90)
  }

  /** The length of the longest prefix that begins a character. */
  function Matched(s: seq<Byte>): (m: nat)
    ensures m <= |s| && m <= 4
    ensures s != [] ==> m <= Needed(s[0])
  {
    if s == [] || Needed(s[0]) == 0 then 0
    else if Needed(s[0]) < 2 || |s| < 2 || !SecondOk(s[0], s[1]) then 1
    else if Needed(s[0]) < 3 || |s| < 3 || !Continuation(s[2]) then 2
    else if Needed(s[0]) < 4 || |s| < 4 || !Continuation(s[3]) then 3
    else 4
  }

  predicate StartsWithCharacter(s: seq<Byte>) {
    s != [] && Needed(s[0]) > 0 && Matched(s) == Needed(s[0])
  }

  /** All of it begins one character, which is not complete yet. */
  predicate Incomplete(s: seq<Byte>) {
    s != [] && Matched(s) == |s| < Needed(s[0])
  }

  function Scalar(s: seq<Byte>): CodePoint
    requires StartsWithCharacter(s)
  {
    match Needed(s[0])
    case 1 => s[0]
    case 2 => Digits(s[0] as int - 0xC0, s[1])
    case 3 => Digits(Digits(s[0] as int - 0xE0, s[1]), s[2])
    case _ => Digits(Digits(Digits(s[0] as int - 0xF0, s[1]), s[2]), s[3])
  }

  /** Six more bits. */
  function Digits(high: int, b: Byte): int { high * 64 + (b as int - 0x80) }

  // ---------------------------------------------------------------- well-formed text

  predicate Valid(s: seq<Byte>) {
    s == [] || (StartsWithCharacter(s) && Valid(s[Needed(s[0])..]))
  }

  predicate IsScalar(c: CodePoint) { !(0xD800 <= c < 0xE000) }

  function EncodeOne(c: CodePoint): seq<Byte> {
    var d := c / 64;
    var e := d / 64;
    if c < 0x80 then [c]
    else if c < 0x800 then [0xC0 + d, 0x80 + c % 64]
    else if c < 0x10000 then [0xE0 + e, 0x80 + d % 64, 0x80 + c % 64]
    else [0xF0 + e / 64, 0x80 + e % 64, 0x80 + d % 64, 0x80 + c % 64]
  }

  function Encode(t: Text): seq<Byte> {
    if t == [] then [] else EncodeOne(t[0]) + Encode(t[1..])
  }

  // ---------------------------------------------------------------- decoding

  /** What the decoder consumes next: a character, or the longest prefix of one, or one byte. */
  function Unit(s: seq<Byte>): (n: nat)
    requires s != []
    ensures 1 <= n <= |s|
  {
    if Matched(s) == 0 then 1 else Matched(s)
  }

  function DecodeOne(s: seq<Byte>): CodePoint
    requires s != []
  {
    if StartsWithCharacter(s) then Scalar(s) else REPLACEMENT
  }

  /** `toString('utf8')` */
  function Decode(s: seq<Byte>): Text {
    if s == [] then [] else [DecodeOne(s)] + Decode(s[Unit(s)..])
  }

  datatype Fed = Fed(text: Text, pending: seq<Byte>)

  /** The streaming decoder: everything decided by now, and the bytes that wait for more. */
  function Feed(s: seq<Byte>): (r: Fed)
    ensures r.pending == [] || Incomplete(r.pending)
  {
    if s == [] || Incomplete(s) then Fed([], s)
    else
      var later := Feed(s[Unit(s)..]);
      Fed([DecodeOne(s)] + later.text, later.pending)
  }

  /** What the streaming decoder still owes when the input ends. */
  function FlushText(pending: seq<Byte>): Text {
    if pending == [] then [] else [REPLACEMENT]
  }

  // ---------------------------------------------------------------- streaming is decoding

  /** What comes later cannot change a unit that was already decided. */
  lemma UnitDecided(s: seq<Byte>, more: seq<Byte>)
    requires s != [] && !Incomplete(s)
    ensures Unit(s + more) == Unit(s) && DecodeOne(s + more) == DecodeOne(s) && !Incomplete(s + more)
  {
  }

  lemma {:induction false} FeedAppend(s: seq<Byte>, more: seq<Byte>)
    ensures var first := Feed(s);
            var second := Feed(first.pending + more);
            Feed(s + more) == Fed(first.text + second.text, second.pending)
  {
    hide Unit, DecodeOne, Incomplete;
    if s == [] || Incomplete(s) {
    } else {
      UnitDecided(s, more);
      FeedAppend(s[Unit(s)..], more);
      assert (s + more)[Unit(s)..] == s[Unit(s)..] + more;
    }
  }

  /** Decoding in pieces, and flushing at the end, is decoding everything at once. */
  lemma {:induction false} FeedIsDecode(s: seq<Byte>)
    ensures Decode(s) == Feed(s).text + FlushText(Feed(s).pending)
  {
    if s == [] {
    } else if Incomplete(s) {
      assert s[Unit(s)..] == [];
    } else {
      FeedIsDecode(s[Unit(s)..]);
    }
  }

  /** A newline byte never waits, so decoding can be cut right after it. */
  lemma DecodeAfterNewline(s: seq<Byte>, more: seq<Byte>)
    requires s != [] && s[|s| - 1] == NEWLINE
    ensures Decode(s + more) == Decode(s) + Decode(more)
  {
    hide Unit, DecodeOne, Feed, Decode;
    FeedAppend(s, more);
    FeedIsDecode(s);
    FeedIsDecode(more);
    FeedIsDecode(s + more);
    NewlineNeverWaits(s);
    assert [] + more == more;
  }

  lemma {:induction false} PendingIsSuffix(s: seq<Byte>)
    ensures var pending := Feed(s).pending;
            |pending| <= |s| && pending == s[|s| - |pending|..]
  {
    hide Unit, DecodeOne, Incomplete;
    if s != [] && !Incomplete(s) { PendingIsSuffix(s[Unit(s)..]); }
  }

  lemma IncompleteEnd(s: seq<Byte>)
    requires Incomplete(s)
    ensures s[|s| - 1] != NEWLINE
  {
  }

  lemma NewlineNeverWaits(s: seq<Byte>)
    requires s != [] && s[|s| - 1] == NEWLINE
    ensures Feed(s).pending == []
  {
    hide Feed, Incomplete;
    PendingIsSuffix(s);
    if Feed(s).pending != [] { IncompleteEnd(Feed(s).pending); }
  }

  /** Newline characters come from newline bytes and from nothing else. */
  lemma {:induction false} NewlinesDecode(s: seq<Byte>)
    ensures NEWLINE in Decode(s) <==> NEWLINE in s
  {
    if s != [] {
      var n := Unit(s);
      NewlinesDecode(s[n..]);
      assert s == s[..n] + s[n..];
      assert DecodeOne(s) == NEWLINE <==> s[0] == NEWLINE;
      assert forall k :: 0 < k < n ==> s[k] != NEWLINE;
      assert NEWLINE in s[..n] <==> s[0] == NEWLINE;
    }
  }

  // ---------------------------------------------------------------- encoding

  lemma EncodeOneDecodes(c: CodePoint, rest: seq<Byte>)
    requires IsScalar(c)
    ensures var s := EncodeOne(c) + rest;
            StartsWithCharacter(s) && Needed(s[0]) == |EncodeOne(c)| && Scalar(s) == c
  {
  }

  /** Every text has one UTF-8 form, which is well formed and decodes to it. */
  lemma {:induction false} DecodeEncode(t: Text)
    requires forall c :: c in t ==> IsScalar(c)
    ensures Valid(Encode(t)) && Decode(Encode(t)) == t
  {
    if t != [] {
      DecodeEncode(t[1..]);
      EncodeOneDecodes(t[0], Encode(t[1..]));
      assert Encode(t)[|EncodeOne(t[0])|..] == Encode(t[1..]);
    }
  }

  lemma DigitsDivide(high: int, b: Byte)
    requires Continuation(b)
    ensures Digits(high, b) / 64 == high && 0x80 + Digits(high, b) % 64 == b
  {
  }

  lemma ScalarEncodes(s: seq<Byte>)
    requires StartsWithCharacter(s)
    ensures IsScalar(Scalar(s)) && EncodeOne(Scalar(s)) == s[..Needed(s[0])]
  {
    match Needed(s[0])
    case 1 =>
    case 2 => DigitsDivide(s[0] as int - 0xC0, s[1]);
    case 3 =>
      var high := Digits(s[0] as int - 0xE0, s[1]);
      DigitsDivide(s[0] as int - 0xE0, s[1]);
      DigitsDivide(high, s[2]);
    case _ =>
      var high := Digits(s[0] as int - 0xF0, s[1]);
      DigitsDivide(s[0] as int - 0xF0, s[1]);
      DigitsDivide(high, s[2]);
      DigitsDivide(Digits(high, s[2]), s[3]);
  }

  /** Well-formed bytes are the UTF-8 form of what they decode to, with nothing replaced. */
  lemma {:induction false} EncodeDecode(s: seq<Byte>)
    requires Valid(s)
    ensures Encode(Decode(s)) == s
  {
    if s != [] {
      EncodeDecode(s[Needed(s[0])..]);
      ScalarEncodes(s);
      assert s == s[..Needed(s[0])] + s[Needed(s[0])..];
    }
  }
}
