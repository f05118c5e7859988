/**
 * The encoding `to.Base64p` applies to the launch configuration's user
 * data: the text's UTF-8 bytes (RFC 3629) in standard base64 with padding
 * (section 4 of RFC 4648). Each encoding is paired with its decoder and
 * the round trip is proved.
 */
module Encoding {
  import opened Wrappers

  type Byte = x: int | 0 <= x < 256
  type Sextet = x: int | 0 <= x < 64

  //////////
  // UTF-8
  //////////

  /** The number of bytes UTF-8 spends on a character. */
  function Utf8Length(c: char): nat
  {
    if c as int < 0x80 then 1
    else if c as int < 0x800 then 2
    else if c as int < 0x10000 then 3
    else 4
  }

  /** The UTF-8 bytes of one character: a lead byte marking the length, then six bits per continuation byte. */
  function Utf8Char(c: char): (r: seq<Byte>)
    ensures |r| == Utf8Length(c)
    ensures c as int < 0x80 ==> r == [c as int]
    ensures |r| > 1 ==> forall i :: 1 <= i < |r| ==> 0x80 <= r[i] < 0xC0
  {
    var cp := c as int;
    if cp < 0x80 then [cp]
    else if cp < 0x800 then [0xC0 + cp / 64, 0x80 + cp % 64]
    else if cp < 0x10000 then [0xE0 + cp / 4096, 0x80 + (cp / 64) % 64, 0x80 + cp % 64]
    else [0xF0 + cp / 262144, 0x80 + (cp / 4096) % 64, 0x80 + (cp / 64) % 64, 0x80 + cp % 64]
  }

  /** The UTF-8 bytes of a string, character by character. */
  function Utf8(s: string): (r: seq<Byte>)
    ensures |r| >= |s|
    ensures (forall i :: 0 <= i < |s| ==> s[i] as int < 0x80) ==> |r| == |s|
  {
    if s == [] then [] else Utf8Char(s[0]) + Utf8(s[1..])
  }

  /** The length a lead byte announces; 0 for a byte that cannot start a character. */
  function LeadLength(b: Byte): nat
  {
    if b < 0x80 then 1
    else if b < 0xC0 then 0
    else if b < 0xE0 then 2
    else if b < 0xF0 then 3
    else if b < 0xF8 then 4
    else 0
  }

  /** The code point of one encoded character: the lead byte's payload, then six bits per continuation byte. */
  function CodePoint(b: seq<Byte>): int
    requires 1 <= |b| <= 4
  {
    var b0 := b[0] as int;
    if |b| == 1 then b0
    else if |b| == 2 then (b0 - 0xC0) * 64 + (b[1] as int - 0x80)
    else if |b| == 3 then (b0 - 0xE0) * 4096 + (b[1] as int - 0x80) * 64 + (b[2] as int - 0x80)
    else (b0 - 0xF0) * 262144 + (b[1] as int - 0x80) * 4096 + (b[2] as int - 0x80) * 64 + (b[3] as int - 0x80)
  }

  /** A Unicode scalar value: a code point that is not a surrogate. */
  predicate Scalar(cp: int)
  {
    0 <= cp < 0xD800 || 0xE000 <= cp < 0x11_0000
  }

  /** Decoding UTF-8: none when a lead byte is invalid, a character is cut short or a code point is not a scalar value. */
  function DecodeUtf8(b: seq<Byte>): Option<string>
    decreases |b|
  {
    if b == [] then Some("")
    else
      var n := LeadLength(b[0]);
      if n == 0 || |b| < n then None
      else
        var cp := CodePoint(b[..n]);
        if !Scalar(cp) then None
        else match DecodeUtf8(b[n..])
          case None => None
          case Some(rest) => Some([cp as char] + rest)
  }

  /** x / 64 / 64 is x / 4096. */
  lemma DivDiv64(x: nat)
    ensures x / 64 / 64 == x / 4096
  {
    var q, r1 := x / 64, x % 64;
    var q2, r2 := q / 64, q % 64;
    assert x == 4096 * q2 + (64 * r2 + r1);
  }

  /** x / 4096 / 64 is x / 262144. */
  lemma DivDiv4096(x: nat)
    ensures x / 4096 / 64 == x / 262144
  {
    var q, r1 := x / 4096, x % 4096;
    var q2, r2 := q / 64, q % 64;
    assert x == 262144 * q2 + (4096 * r2 + r1);
  }

  /** One character's bytes start with a lead byte announcing their number and give back its code point. */
  lemma Utf8CharRoundTrip(c: char)
    ensures LeadLength(Utf8Char(c)[0]) == |Utf8Char(c)|
    ensures CodePoint(Utf8Char(c)) == c as int
  {
    var cp := c as int;
    if 0x800 <= cp < 0x10000 {
      DivDiv64(cp);
      assert cp / 64 == 64 * (cp / 4096) + (cp / 64) % 64;
    } else if 0x10000 <= cp {
      DivDiv64(cp);
      DivDiv4096(cp);
      assert cp / 64 == 64 * (cp / 4096) + (cp / 64) % 64;
      assert cp / 4096 == 64 * (cp / 262144) + (cp / 4096) % 64;
    }
  }

  /** Decoding the UTF-8 bytes of any string gives the string back. */
  lemma {:induction false} Utf8RoundTrip(s: string)
    ensures DecodeUtf8(Utf8(s)) == Some(s)
  {
    if s != [] {
      var head, rest := Utf8Char(s[0]), Utf8(s[1..]);
      Utf8CharRoundTrip(s[0]);
      Utf8RoundTrip(s[1..]);
      var b := head + rest;
      assert b[0] == head[0];
      assert b[..|head|] == head && b[|head|..] == rest;
      assert [s[0]] + s[1..] == s;
    }
  }

  //////////
  // Base64
  //////////

  /** The alphabet of Table 1 of RFC 4648: A-Z, a-z, 0-9, '+', '/'. */
  function Symbol(i: Sextet): (c: char)
    ensures c != '='
  {
    if i < 26 then ('A' as int + i) as char
    else if i < 52 then ('a' as int + (i - 26)) as char
    else if i < 62 then ('0' as int + (i - 52)) as char
    else if i == 62 then '+'
    else '/'
  }

  /** The value of an alphabet symbol; none for any other character, the pad '=' included. */
  function Value(c: char): Option<Sextet>
  {
    if 'A' <= c <= 'Z' then Some(c as int - 'A' as int)
    else if 'a' <= c <= 'z' then Some(c as int - 'a' as int + 26)
    else if '0' <= c <= '9' then Some(c as int - '0' as int + 52)
    else if c == '+' then Some(62)
    else if c == '/' then Some(63)
    else None
  }

  /** Three bytes as four symbols of six bits each, most significant first. */
  function EncodeGroup(b0: Byte, b1: Byte, b2: Byte): string
  {
    [Symbol(b0 / 4), Symbol((b0 % 4) * 16 + b1 / 16), Symbol((b1 % 16) * 4 + b2 / 64), Symbol(b2 % 64)]
  }

  /**
   * Base64 with padding: every three bytes become four symbols; a final one
   * or two bytes are zero-filled to whole symbols and padded with '=' to four.
   */
  function Base64(b: seq<Byte>): (s: string)
    ensures |s| == 4 * ((|b| + 2) / 3)
  {
    if |b| == 0 then ""
    else if |b| == 1 then [Symbol(b[0] / 4), Symbol((b[0] % 4) * 16), '=', '=']
    else if |b| == 2 then [Symbol(b[0] / 4), Symbol((b[0] % 4) * 16 + b[1] / 16), Symbol((b[1] % 16) * 4), '=']
    else EncodeGroup(b[0], b[1], b[2]) + Base64(b[3..])
  }

  /** The bytes of four symbols, the last group possibly padded; none when a symbol is outside the alphabet. */
  function DecodeQuad(q: string, last: bool): Option<seq<Byte>>
    requires |q| == 4
  {
    var v0, v1, v2, v3 := Value(q[0]), Value(q[1]), Value(q[2]), Value(q[3]);
    if v0.None? || v1.None? then None
    else if last && q[2] == '=' && q[3] == '=' then Some([v0.value * 4 + v1.value / 16])
    else if v2.None? then None
    else if last && q[3] == '=' then Some([v0.value * 4 + v1.value / 16, (v1.value % 16) * 16 + v2.value / 4])
    else if v3.None? then None
    else Some([v0.value * 4 + v1.value / 16, (v1.value % 16) * 16 + v2.value / 4, (v2.value % 4) * 64 + v3.value])
  }

  /** Decoding base64: groups of four symbols, padding allowed only in the last group. */
  function DecodeBase64(s: string): Option<seq<Byte>>
    decreases |s|
  {
    if |s| == 0 then Some([])
    else if |s| < 4 then None
    else match DecodeQuad(s[..4], |s| == 4)
      case None => None
      case Some(g) =>
        match DecodeBase64(s[4..])
        case None => None
        case Some(rest) => Some(g + rest)
  }

  /** Every symbol's value is its index in the alphabet. */
  lemma ValueOfSymbol(i: Sextet)
    ensures Value(Symbol(i)) == Some(i)
  {
  }

  /** The second symbol of a group carries the low two bits of the first byte and the high four of the second. */
  lemma SplitSecond(b0: Byte, b1: Byte)
    ensures ((b0 % 4) * 16 + b1 / 16) / 16 == b0 % 4
    ensures ((b0 % 4) * 16 + b1 / 16) % 16 == b1 / 16
  {
  }

  /** The third symbol of a group carries the low four bits of the second byte and the high two of the third. */
  lemma SplitThird(b1: Byte, b2: Byte)
    ensures ((b1 % 16) * 4 + b2 / 64) / 4 == b1 % 16
    ensures ((b1 % 16) * 4 + b2 / 64) % 4 == b2 / 64
  {
  }

  /** A full group decodes to its three bytes, whether or not it is the last. */
  lemma GroupRoundTrip(b0: Byte, b1: Byte, b2: Byte, last: bool)
    ensures DecodeQuad(EncodeGroup(b0, b1, b2), last) == Some([b0, b1, b2])
  {
    var s0, s1, s2, s3 := b0 / 4, (b0 % 4) * 16 + b1 / 16, (b1 % 16) * 4 + b2 / 64, b2 % 64;
    ValueOfSymbol(s0);
    ValueOfSymbol(s1);
    ValueOfSymbol(s2);
    ValueOfSymbol(s3);
    SplitSecond(b0, b1);
    SplitThird(b1, b2);
    var q := EncodeGroup(b0, b1, b2);
    assert q == [Symbol(s0), Symbol(s1), Symbol(s2), Symbol(s3)];
    assert s0 * 4 + s1 / 16 == b0;
    assert (s1 % 16) * 16 + s2 / 4 == b1;
    assert (s2 % 4) * 64 + s3 == b2;
  }

  /** A single final byte, padded with two '=', decodes to itself. */
  lemma OneByteRoundTrip(b0: Byte)
    ensures DecodeBase64(Base64([b0])) == Some([b0])
  {
    ValueOfSymbol(b0 / 4);
    ValueOfSymbol((b0 % 4) * 16);
    var s := Base64([b0]);
    assert s[..4] == s && s[4..] == [];
    assert DecodeQuad(s, true) == Some([b0]);
    assert [b0] + [] == [b0];
  }

  /** Two final bytes, padded with one '=', decode to themselves. */
  lemma TwoBytesRoundTrip(b0: Byte, b1: Byte)
    ensures DecodeBase64(Base64([b0, b1])) == Some([b0, b1])
  {
    ValueOfSymbol(b0 / 4);
    ValueOfSymbol((b0 % 4) * 16 + b1 / 16);
    ValueOfSymbol((b1 % 16) * 4);
    SplitSecond(b0, b1);
    var s := Base64([b0, b1]);
    assert s[..4] == s && s[4..] == [];
    assert ((b1 % 16) * 4) / 4 == b1 % 16;
    assert DecodeQuad(s, true) == Some([b0, b1]);
    assert [b0, b1] + [] == [b0, b1];
  }

  /** A full group in front of symbols that decode puts its three bytes in front of theirs. */
  lemma DecodeAfterGroup(b0: Byte, b1: Byte, b2: Byte, rest: string, tail: seq<Byte>)
    requires DecodeBase64(rest) == Some(tail)
    ensures DecodeBase64(EncodeGroup(b0, b1, b2) + rest) == Some([b0, b1, b2] + tail)
  {
    var s := EncodeGroup(b0, b1, b2) + rest;
    assert s[..4] == EncodeGroup(b0, b1, b2) && s[4..] == rest;
    GroupRoundTrip(b0, b1, b2, |s| == 4);
  }

  /** Decoding the base64 of any bytes gives the bytes back. */
  lemma {:induction false} Base64RoundTrip(b: seq<Byte>)
    ensures DecodeBase64(Base64(b)) == Some(b)
    decreases |b|
  {
    if |b| == 1 {
      OneByteRoundTrip(b[0]);
      assert [b[0]] == b;
    } else if |b| == 2 {
      TwoBytesRoundTrip(b[0], b[1]);
      assert [b[0], b[1]] == b;
    } else if |b| >= 3 {
      Base64RoundTrip(b[3..]);
      DecodeAfterGroup(b[0], b[1], b[2], Base64(b[3..]), b[3..]);
      assert [b[0], b[1], b[2]] + b[3..] == b;
    }
  }

  //////////
  // Text
  //////////

  /** `to.Base64p`: the base64 of the text's UTF-8 bytes. */
  function Base64Text(s: string): (r: string)
    ensures |r| % 4 == 0 && |r| >= 4 * ((|s| + 2) / 3)
  {
    Base64(Utf8(s))
  }

  /** Decoding base64, then UTF-8. */
  function DecodeBase64Text(s: string): Option<string>
  {
    match DecodeBase64(s)
    case None => None
    case Some(b) => DecodeUtf8(b)
  }

  /** The encoded user data decodes to the text it was made from. */
  lemma Base64TextRoundTrip(s: string)
    ensures DecodeBase64Text(Base64Text(s)) == Some(s)
  {
    Base64RoundTrip(Utf8(s));
    Utf8RoundTrip(s);
  }

  /** The two examples of section 10 of RFC 4648 that need one and two pad characters. */
  lemma Base64Examples()
    ensures Base64Text("f") == "Zg==" && Base64Text("fo") == "Zm8=" && Base64Text("foo") == "Zm9v"
  {
    assert Utf8("f") == [102];
    assert Utf8("fo") == [102, 111];
    assert Utf8("foo") == [102, 111, 111];
  }
}
