/** Unpadded base64url encoding (section 5 of RFC 4648, Go's
    `base64.RawURLEncoding`), which turns the 32 random bytes of an asset
    name into its 43-character identifier, and the matching decoder. */
module Base64Url {
  import opened Wrappers

  type Byte = bv8

  /** A six-bit value, the index of one alphabet character. */
  type Sextet = v: bv8 | v < 64

  /** The characters of the URL- and filename-safe alphabet. */
  predicate IsUrlSafe(c: char)
  {
    ('A' <= c <= 'Z') || ('a' <= c <= 'z') || ('0' <= c <= '9') || c == '-' || c == '_'
  }

  /** The alphabet character for a six-bit value (table 2 of RFC 4648). */
  function Digit(v: Sextet): (c: char)
    ensures IsUrlSafe(c)
  {
    if v < 26 then ('A' as int + v as int) as char
    else if v < 52 then ('a' as int + (v as int - 26)) as char
    else if v < 62 then ('0' as int + (v as int - 52)) as char
    else if v == 62 then '-'
    else '_'
  }

  /** The six-bit value of an alphabet character. */
  function ValueOf(c: char): (v: Sextet)
    requires IsUrlSafe(c)
  {
    if 'A' <= c <= 'Z' then (c as int - 'A' as int) as bv8
    else if 'a' <= c <= 'z' then (c as int - 'a' as int + 26) as bv8
    else if '0' <= c <= '9' then (c as int - '0' as int + 52) as bv8
    else if c == '-' then 62
    else 63
  }

  /** Every six-bit value is read back from its character. */
  lemma DigitValue(v: Sextet)
    ensures ValueOf(Digit(v)) == v
  {
  }

  /** The length Go's `RawURLEncoding.EncodedLen` gives for `n` bytes. */
  function EncodedLength(n: nat): nat
  {
    (n * 8 + 5) / 6
  }

  /** The four characters of one full three-byte group. */
  function EncodeGroup(b0: Byte, b1: Byte, b2: Byte): (s: string)
    ensures |s| == 4
    ensures forall k :: 0 <= k < 4 ==> IsUrlSafe(s[k])
  {
    [Digit(b0 >> 2), Digit(((b0 & 3) << 4) | (b1 >> 4)),
     Digit(((b1 & 15) << 2) | (b2 >> 6)), Digit(b2 & 63)]
  }

  /** Unpadded base64url encoding of `b`: full groups of three bytes give
      four characters each, a final one or two bytes give two or three. */
  function Encode(b: seq<Byte>): (s: string)
    ensures |s| == EncodedLength(|b|)
    ensures forall k :: 0 <= k < |s| ==> IsUrlSafe(s[k])
    decreases |b|
  {
    if |b| == 0 then ""
    else if |b| == 1 then [Digit(b[0] >> 2), Digit((b[0] & 3) << 4)]
    else if |b| == 2 then
      [Digit(b[0] >> 2), Digit(((b[0] & 3) << 4) | (b[1] >> 4)), Digit((b[1] & 15) << 2)]
    else EncodeGroup(b[0], b[1], b[2]) + Encode(b[3..])
  }

  /** Decoding of unpadded base64url; `None` for a character outside the
      alphabet or a length that no encoding has. Unused low bits of a final
      partial group are ignored, as Go's non-strict decoder does. */
  function Decode(s: string): (r: Option<seq<Byte>>)
    decreases |s|
  {
    if |s| == 0 then Some([])
    else if |s| == 1 || !IsUrlSafe(s[0]) || !IsUrlSafe(s[1]) then None
    else if |s| == 2 then Some([Join0(ValueOf(s[0]), ValueOf(s[1]))])
    else if !IsUrlSafe(s[2]) then None
    else if |s| == 3 then
      Some([Join0(ValueOf(s[0]), ValueOf(s[1])), Join1(ValueOf(s[1]), ValueOf(s[2]))])
    else if !IsUrlSafe(s[3]) then None
    else
      match Decode(s[4..])
      case None => None
      case Some(rest) =>
        Some([Join0(ValueOf(s[0]), ValueOf(s[1])), Join1(ValueOf(s[1]), ValueOf(s[2])),
              Join2(ValueOf(s[2]), ValueOf(s[3]))] + rest)
  }

  /** The first byte of a group, from its first two sextets. */
  function Join0(v0: Sextet, v1: Sextet): Byte { (v0 << 2) | (v1 >> 4) }

  /** The second byte of a group, from its second and third sextets. */
  function Join1(v1: Sextet, v2: Sextet): Byte { ((v1 & 15) << 4) | (v2 >> 2) }

  /** The third byte of a group, from its last two sextets. */
  function Join2(v2: Sextet, v3: Sextet): Byte { ((v2 & 3) << 6) | v3 }

  /** The sextets of a group, put back together, are the group's bytes. */
  lemma JoinSextets(b0: Byte, b1: Byte, b2: Byte)
    ensures Join0(b0 >> 2, ((b0 & 3) << 4) | (b1 >> 4)) == b0
    ensures Join1(((b0 & 3) << 4) | (b1 >> 4), ((b1 & 15) << 2) | (b2 >> 6)) == b1
    ensures Join1(((b0 & 3) << 4) | (b1 >> 4), (b1 & 15) << 2) == b1
    ensures Join2(((b1 & 15) << 2) | (b2 >> 6), b2 & 63) == b2
  {
  }

  /** One trailing byte survives its two characters. */
  lemma DecodeOne(b0: Byte)
    ensures Decode(Encode([b0])) == Some([b0])
  {
    DigitValue(b0 >> 2);
    DigitValue((b0 & 3) << 4);
    JoinSextets(b0, 0, 0);
  }

  /** Two trailing bytes survive their three characters. */
  lemma DecodeTwo(b0: Byte, b1: Byte)
    ensures Decode(Encode([b0, b1])) == Some([b0, b1])
  {
    DigitValue(b0 >> 2);
    DigitValue(((b0 & 3) << 4) | (b1 >> 4));
    DigitValue((b1 & 15) << 2);
    JoinSextets(b0, b1, 0);
  }

  /** A full group of three bytes survives its four characters, whatever
      follows it. */
  lemma DecodeGroup(b0: Byte, b1: Byte, b2: Byte, tail: string)
    requires Decode(tail).Some?
    ensures Decode(EncodeGroup(b0, b1, b2) + tail) == Some([b0, b1, b2] + Decode(tail).value)
  {
    DigitValue(b0 >> 2);
    DigitValue(((b0 & 3) << 4) | (b1 >> 4));
    DigitValue(((b1 & 15) << 2) | (b2 >> 6));
    DigitValue(b2 & 63);
    JoinSextets(b0, b1, b2);
    var s := EncodeGroup(b0, b1, b2) + tail;
    assert s[4..] == tail;
  }

  /** The encoding of three or more bytes starts with the group of the first
      three. */
  lemma EncodeLeadingGroup(b: seq<Byte>)
    requires |b| >= 3
    ensures Encode(b) == EncodeGroup(b[0], b[1], b[2]) + Encode(b[3..])
  {
  }

  /** A leading full group decodes back when the rest of the encoding
      does. */
  lemma DecodeLeadingGroup(b: seq<Byte>, tail: string)
    requires |b| >= 3 && Decode(tail) == Some(b[3..])
    ensures Decode(EncodeGroup(b[0], b[1], b[2]) + tail) == Some(b)
  {
    DecodeGroup(b[0], b[1], b[2], tail);
    assert b == [b[0], b[1], b[2]] + b[3..];
  }

  /** Decoding an encoding gives back the bytes. */
  lemma {:induction false} DecodeEncode(b: seq<Byte>)
    ensures Decode(Encode(b)) == Some(b)
    decreases |b|
  {
    if |b| == 1 {
      assert b == [b[0]];
      DecodeOne(b[0]);
    } else if |b| == 2 {
      assert b == [b[0], b[1]];
      DecodeTwo(b[0], b[1]);
    } else if |b| >= 3 {
      DecodeEncode(b[3..]);
      EncodeLeadingGroup(b);
      DecodeLeadingGroup(b, Encode(b[3..]));
    }
  }

  /** Different byte strings never share an identifier. */
  lemma EncodeInjective(a: seq<Byte>, b: seq<Byte>)
    requires Encode(a) == Encode(b)
    ensures a == b
  {
    DecodeEncode(a);
    DecodeEncode(b);
  }

  /** The identifier of 32 random bytes is 43 alphabet characters long, and
      so contains neither a slash nor a dot. */
  lemma ThirtyTwoBytes(b: seq<Byte>)
    requires |b| == 32
    ensures |Encode(b)| == 43
    ensures '/' !in Encode(b) && '.' !in Encode(b)
  {
  }
}
