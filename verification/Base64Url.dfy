/** base64url without padding (RFC 4648 section 5). */
module Base64Url {
  import opened Utf8

  type Sextet = v: int | 0 <= v < 64

  /** A-Z, a-z, 0-9, '-' and '_'. */
  function Letter(v: Sextet): CodePoint {
    if v < 26 then 65 + v
    else if v < 52 then 97 + (v - 26)
    else if v < 62 then 48 + (v - 52)
    else if v == 62 then 45
    else 95
  }

  predicate IsLetter(c: CodePoint) {
    65 <= c <= 90 || 97 <= c <= 122 || 48 <= c <= 57 || c == 45 || c == 95
  }

  function Value(c: CodePoint): (v: Sextet)
    requires IsLetter(c)
    ensures Letter(v) == c
  {
    if 65 <= c <= 90 then c - 65
    else if 97 <= c <= 122 then c - 97 + 26
    else if 48 <= c <= 57 then c - 48 + 52
    else if c == 45 then 62
    else 63
  }

  lemma ValueOfLetter(v: Sextet)
    ensures IsLetter(Letter(v)) && Value(Letter(v)) == v
  {
  }

  // ---------------------------------------------------------------- encoding

  function First(a: Byte): Sextet { a / 4 }
  function Second(a: Byte, b: Byte): Sextet { a % 4 * 16 + b / 16 }
  function Third(b: Byte, c: Byte): Sextet { b % 16 * 4 + c / 64 }
  function Fourth(c: Byte): Sextet { c % 64 }

  function Print(bytes: seq<Byte>): Text {
    if |bytes| == 0 then []
    else if |bytes| == 1 then [Letter(First(bytes[0])), Letter(Second(bytes[0], 0))]
    else if |bytes| == 2 then
      [Letter(First(bytes[0])), Letter(Second(bytes[0], bytes[1])), Letter(Third(bytes[1], 0))]
    else
      [Letter(First(bytes[0])), Letter(Second(bytes[0], bytes[1])), Letter(Third(bytes[1], bytes[2])),
       Letter(Fourth(bytes[2]))]
      + Print(bytes[3..])
  }

  // ---------------------------------------------------------------- decoding

  predicate Letters(t: Text) { forall c :: c in t ==> IsLetter(c) }

  function HighByte(v: Sextet, w: Sextet): Byte { v * 4 + w / 16 }
  function MiddleByte(w: Sextet, x: Sextet): Byte { w % 16 * 16 + x / 4 }
  function LowByte(x: Sextet, y: Sextet): Byte { x % 4 * 64 + y }

  /** Bits that do not fill a byte are dropped, so several texts give the same bytes. */
  function Parse(t: Text): seq<Byte>
    requires Letters(t)
  {
    if |t| <= 1 then []
    else if |t| == 2 then [HighByte(Value(t[0]), Value(t[1]))]
    else if |t| == 3 then [HighByte(Value(t[0]), Value(t[1])), MiddleByte(Value(t[1]), Value(t[2]))]
    else
      [HighByte(Value(t[0]), Value(t[1])), MiddleByte(Value(t[1]), Value(t[2])), LowByte(Value(t[2]), Value(t[3]))]
      + Parse(t[4..])
  }

  lemma {:induction false} PrintsLetters(bytes: seq<Byte>)
    ensures Letters(Print(bytes))
  {
    if |bytes| >= 3 { PrintsLetters(bytes[3..]); }
  }

  lemma BytesReturn(a: Byte, b: Byte, c: Byte)
    ensures HighByte(First(a), Second(a, b)) == a
    ensures MiddleByte(Second(a, b), Third(b, c)) == b
    ensures LowByte(Third(b, c), Fourth(c)) == c
  {
  }

  lemma LettersReturn(a: Byte, b: Byte, c: Byte)
    ensures Value(Letter(First(a))) == First(a) && Value(Letter(Second(a, b))) == Second(a, b)
    ensures Value(Letter(Third(b, c))) == Third(b, c) && Value(Letter(Fourth(c))) == Fourth(c)
  {
    ValueOfLetter(First(a));
    ValueOfLetter(Second(a, b));
    ValueOfLetter(Third(b, c));
    ValueOfLetter(Fourth(c));
  }

  /** No byte is lost. */
  lemma {:induction false} ParsePrint(bytes: seq<Byte>)
    ensures Letters(Print(bytes)) && Parse(Print(bytes)) == bytes
  {
    hide Value, Letter, First, Second, Third, Fourth, HighByte, MiddleByte, LowByte, IsLetter;
    PrintsLetters(bytes);
    if |bytes| == 0 {
    } else if |bytes| == 1 {
      BytesReturn(bytes[0], 0, 0);
      LettersReturn(bytes[0], 0, 0);
    } else if |bytes| == 2 {
      BytesReturn(bytes[0], bytes[1], 0);
      LettersReturn(bytes[0], bytes[1], 0);
    } else {
      ParsePrint(bytes[3..]);
      BytesReturn(bytes[0], bytes[1], bytes[2]);
      LettersReturn(bytes[0], bytes[1], bytes[2]);
      assert Print(bytes)[4..] == Print(bytes[3..]);
    }
  }

  /** Dropped bits: "QQ" and "QR" both give the byte 0x41, and only the first is canonical. */
  lemma ParseIsNotInjective()
    ensures Letters([81, 81]) && Letters([81, 82]) && Parse([81, 81]) == Parse([81, 82]) == [0x41]
    ensures Print([0x41]) == [81, 81]
  {
    assert Value(81) == 16 && Value(82) == 17;
  }
}
