/**
 * The UTF-8 encoding of a string and the base64 encoding of section 4 of
 * RFC 4648 (alphabet A-Z a-z 0-9 + /, padding with '='), as used for the
 * password of an M-Pesa STK push request.
 */
module Base64 {
  import opened Wrappers

  type byte = x: int | 0 <= x < 256
  type sextet = x: int | 0 <= x < 64

  /** The encoding of a Unicode scalar value as one to four bytes. */
  function Utf8Char(c: char): (r: seq<byte>)
    ensures 1 <= |r| <= 4
    ensures c as int < 0x80 <==> |r| == 1
    ensures c as int < 0x80 ==> r == [c as int]
  {
    var k := c as int;
    if k < 0x80 then [k]
    else if k < 0x800 then [0xC0 + k / 64, 0x80 + k % 64]
    else if k < 0x10000 then [0xE0 + k / 4096, 0x80 + k / 64 % 64, 0x80 + k % 64]
    else [0xF0 + k / 262144, 0x80 + k / 4096 % 64, 0x80 + k / 64 % 64, 0x80 + k % 64]
  }

  /** `s.encode('utf-8')` */
  function Utf8(s: string): seq<byte>
    decreases |s|
  {
    if |s| == 0 then [] else Utf8Char(s[0]) + Utf8(s[1..])
  }

  predicate IsAscii(s: string) {
    forall i :: 0 <= i < |s| ==> s[i] as int < 0x80
  }

  /** On ASCII text UTF-8 is the identity on code points. */
  lemma {:induction false} Utf8Ascii(s: string)
    requires IsAscii(s)
    ensures |Utf8(s)| == |s|
    ensures forall i :: 0 <= i < |s| ==> Utf8(s)[i] == s[i] as int
    decreases |s|
  {
    if |s| > 0 {
      Utf8Ascii(s[1..]);
    }
  }

  /** The character for a six-bit value (Table 1 of RFC 4648). */
  function Symbol(v: sextet): (c: char)
    ensures c != '='
  {
    if v < 26 then ('A' as int + v) as char
    else if v < 52 then ('a' as int + v - 26) as char
    else if v < 62 then ('0' as int + v - 52) as char
    else if v == 62 then '+'
    else '/'
  }

  /** The six-bit value of an alphabet character, or None for any other character. */
  function SymbolValue(c: char): (r: Option<sextet>)
    ensures r.Some? ==> Symbol(r.value) == c
  {
    if 'A' <= c <= 'Z' then Some(c as int - 'A' as int)
    else if 'a' <= c <= 'z' then Some(c as int - 'a' as int + 26)
    else if '0' <= c <= '9' then Some(c as int - '0' as int + 52)
    else if c == '+' then Some(62)
    else if c == '/' then Some(63)
    else None
  }

  lemma SymbolValueOfSymbol(v: sextet)
    ensures SymbolValue(Symbol(v)) == Some(v)
  {
  }

  /** Three bytes become four characters. */
  function EncodeGroup(b0: byte, b1: byte, b2: byte): string {
    [Symbol(b0 / 4), Symbol(b0 % 4 * 16 + b1 / 16), Symbol(b1 % 16 * 4 + b2 / 64), Symbol(b2 % 64)]
  }

  /** One trailing byte becomes two characters and two pads. */
  function EncodeTail1(b0: byte): string {
    [Symbol(b0 / 4), Symbol(b0 % 4 * 16), '=', '=']
  }

  /** Two trailing bytes become three characters and one pad. */
  function EncodeTail2(b0: byte, b1: byte): string {
    [Symbol(b0 / 4), Symbol(b0 % 4 * 16 + b1 / 16), Symbol(b1 % 16 * 4), '=']
  }

  /** `base64.b64encode(bs)` */
  function Encode(bs: seq<byte>): (r: string)
    ensures |r| == 4 * ((|bs| + 2) / 3)
    decreases |bs|
  {
    if |bs| == 0 then ""
    else if |bs| == 1 then EncodeTail1(bs[0])
    else if |bs| == 2 then EncodeTail2(bs[0], bs[1])
    else EncodeGroup(bs[0], bs[1], bs[2]) + Encode(bs[3..])
  }

  /** The three bytes that four six-bit values spell. */
  function Bytes(s0: sextet, s1: sextet, s2: sextet, s3: sextet): seq<byte> {
    var a: int := s0;
    var b: int := s1;
    var c: int := s2;
    var d: int := s3;
    [a * 4 + b / 16, b % 16 * 16 + c / 4, c % 4 * 64 + d]
  }

  /** The bytes of one group of four characters, or None when it is malformed or carries stray bits. */
  function DecodeQuad(q: string): (r: Option<seq<byte>>)
    requires |q| == 4
    ensures r.Some? ==> 1 <= |r.value| <= 3
  {
    match (SymbolValue(q[0]), SymbolValue(q[1]), SymbolValue(q[2]), SymbolValue(q[3]))
    case (Some(s0), Some(s1), Some(s2), Some(s3)) => Some(Bytes(s0, s1, s2, s3))
    case (Some(s0), Some(s1), Some(s2), None) =>
      if q[3] == '=' && s2 % 4 == 0 then Some(Bytes(s0, s1, s2, 0)[..2]) else None
    case (Some(s0), Some(s1), None, None) =>
      if q[2] == '=' && q[3] == '=' && s1 % 16 == 0 then Some(Bytes(s0, s1, 0, 0)[..1]) else None
    case _ => None
  }

  /** Strict decoding: whole groups of four, padding only in the last group. */
  function Decode(s: string): Option<seq<byte>>
    decreases |s|
  {
    if |s| == 0 then Some([])
    else if |s| < 4 then None
    else
      match DecodeQuad(s[..4])
      case None => None
      case Some(head) =>
        if |s| == 4 then Some(head)
        else if |head| < 3 then None
        else
          match Decode(s[4..])
          case None => None
          case Some(tail) => Some(head + tail)
  }

  lemma Split16(a: int, b: int)
    requires 0 <= b < 16
    ensures (a * 16 + b) / 16 == a && (a * 16 + b) % 16 == b
  {
  }

  lemma Split4(a: int, b: int)
    requires 0 <= b < 4
    ensures (a * 4 + b) / 4 == a && (a * 4 + b) % 4 == b
  {
  }

  lemma Split64(a: int, b: int)
    requires 0 <= b < 64
    ensures (a * 64 + b) / 64 == a && (a * 64 + b) % 64 == b
  {
  }

  /** The sextets a group of three bytes is cut into spell those bytes again. */
  lemma BytesOfGroup(b0: byte, b1: byte, b2: byte)
    ensures Bytes(b0 / 4, b0 % 4 * 16 + b1 / 16, b1 % 16 * 4 + b2 / 64, b2 % 64) == [b0, b1, b2]
  {
    Split16(b0 % 4, b1 / 16);
    Split4(b1 % 16, b2 / 64);
    assert b0 / 4 * 4 + b0 % 4 == b0;
    assert b1 / 16 * 16 + b1 % 16 == b1;
    assert b2 / 64 * 64 + b2 % 64 == b2;
  }

  lemma DecodeGroup(b0: byte, b1: byte, b2: byte)
    ensures DecodeQuad(EncodeGroup(b0, b1, b2)) == Some([b0, b1, b2])
  {
    var q := EncodeGroup(b0, b1, b2);
    var s0: sextet := b0 / 4;
    var s1: sextet := b0 % 4 * 16 + b1 / 16;
    var s2: sextet := b1 % 16 * 4 + b2 / 64;
    var s3: sextet := b2 % 64;
    SymbolValueOfSymbol(s0);
    SymbolValueOfSymbol(s1);
    SymbolValueOfSymbol(s2);
    SymbolValueOfSymbol(s3);
    assert SymbolValue(q[0]) == Some(s0) && SymbolValue(q[1]) == Some(s1);
    assert SymbolValue(q[2]) == Some(s2) && SymbolValue(q[3]) == Some(s3);
    assert DecodeQuad(q) == Some(Bytes(s0, s1, s2, s3));
    BytesOfGroup(b0, b1, b2);
  }

  /** The sextets one trailing byte is cut into spell it again, the unused bits being zero. */
  lemma BytesOfTail1(b0: byte)
    ensures (b0 % 4 * 16) % 16 == 0
    ensures Bytes(b0 / 4, b0 % 4 * 16, 0, 0)[..1] == [b0]
  {
    Split16(b0 % 4, 0);
    assert b0 / 4 * 4 + b0 % 4 == b0;
  }

  /** The sextets two trailing bytes are cut into spell them again, the unused bits being zero. */
  lemma BytesOfTail2(b0: byte, b1: byte)
    ensures (b1 % 16 * 4) % 4 == 0
    ensures Bytes(b0 / 4, b0 % 4 * 16 + b1 / 16, b1 % 16 * 4, 0)[..2] == [b0, b1]
  {
    Split16(b0 % 4, b1 / 16);
    Split4(b1 % 16, 0);
    assert b0 / 4 * 4 + b0 % 4 == b0;
    assert b1 / 16 * 16 + b1 % 16 == b1;
  }

  lemma DecodeTail1(b0: byte)
    ensures DecodeQuad(EncodeTail1(b0)) == Some([b0])
  {
    var q := EncodeTail1(b0);
    var s0: sextet := b0 / 4;
    var s1: sextet := b0 % 4 * 16;
    SymbolValueOfSymbol(s0);
    SymbolValueOfSymbol(s1);
    assert SymbolValue(q[0]) == Some(s0) && SymbolValue(q[1]) == Some(s1);
    assert SymbolValue(q[2]) == None && SymbolValue(q[3]) == None;
    BytesOfTail1(b0);
    assert DecodeQuad(q) == Some(Bytes(s0, s1, 0, 0)[..1]);
  }

  lemma DecodeTail2(b0: byte, b1: byte)
    ensures DecodeQuad(EncodeTail2(b0, b1)) == Some([b0, b1])
  {
    var q := EncodeTail2(b0, b1);
    var s0: sextet := b0 / 4;
    var s1: sextet := b0 % 4 * 16 + b1 / 16;
    var s2: sextet := b1 % 16 * 4;
    SymbolValueOfSymbol(s0);
    SymbolValueOfSymbol(s1);
    SymbolValueOfSymbol(s2);
    assert SymbolValue(q[0]) == Some(s0) && SymbolValue(q[1]) == Some(s1) && SymbolValue(q[2]) == Some(s2);
    assert SymbolValue(q[3]) == None;
    BytesOfTail2(b0, b1);
    assert DecodeQuad(q) == Some(Bytes(s0, s1, s2, 0)[..2]);
  }

  /** A full group in front of a decodable rest decodes to the group's bytes in front of the rest's. */
  lemma DecodeCons(g: string, rest: string, head: seq<byte>, tail: seq<byte>)
    requires |g| == 4 && DecodeQuad(g) == Some(head) && |head| == 3
    requires |rest| > 0 && Decode(rest) == Some(tail)
    ensures Decode(g + rest) == Some(head + tail)
  {
    var s := g + rest;
    assert s[..4] == g && s[4..] == rest;
  }

  /** Decoding undoes encoding. */
  lemma {:induction false} DecodeEncode(bs: seq<byte>)
    ensures Decode(Encode(bs)) == Some(bs)
    decreases |bs|
  {
    if 1 <= |bs| <= 3 {
      DecodeShort(bs);
    } else if |bs| > 3 {
      DecodeEncode(bs[3..]);
      DecodeGroup(bs[0], bs[1], bs[2]);
      DecodeCons(EncodeGroup(bs[0], bs[1], bs[2]), Encode(bs[3..]), [bs[0], bs[1], bs[2]], bs[3..]);
      assert [bs[0], bs[1], bs[2]] + bs[3..] == bs;
    }
  }

  /** One group of four characters decodes as that group alone. */
  lemma DecodeSingle(q: string)
    requires |q| == 4
    ensures Decode(q) == DecodeQuad(q)
  {
    assert q[..4] == q;
  }

  lemma DecodeShort(bs: seq<byte>)
    requires 1 <= |bs| <= 3
    ensures Decode(Encode(bs)) == Some(bs)
  {
    DecodeSingle(Encode(bs));
    if |bs| == 1 {
      DecodeOne(bs);
    } else if |bs| == 2 {
      DecodeTwo(bs);
    } else {
      DecodeThree(bs);
    }
  }

  lemma DecodeOne(bs: seq<byte>)
    requires |bs| == 1
    ensures DecodeQuad(Encode(bs)) == Some(bs)
  {
    assert Encode(bs) == EncodeTail1(bs[0]);
    DecodeTail1(bs[0]);
    assert [bs[0]] == bs;
  }

  lemma DecodeTwo(bs: seq<byte>)
    requires |bs| == 2
    ensures DecodeQuad(Encode(bs)) == Some(bs)
  {
    assert Encode(bs) == EncodeTail2(bs[0], bs[1]);
    DecodeTail2(bs[0], bs[1]);
    assert [bs[0], bs[1]] == bs;
  }

  lemma DecodeThree(bs: seq<byte>)
    requires |bs| == 3
    ensures DecodeQuad(Encode(bs)) == Some(bs)
  {
    assert Encode(bs[3..]) == "";
    assert Encode(bs) == EncodeGroup(bs[0], bs[1], bs[2]);
    DecodeGroup(bs[0], bs[1], bs[2]);
    assert [bs[0], bs[1], bs[2]] == bs;
  }

  /** Every character of an encoding is in the alphabet or is padding. */
  lemma {:induction false} EncodeAlphabet(bs: seq<byte>)
    ensures forall i :: 0 <= i < |Encode(bs)| ==> Encode(bs)[i] == '=' || SymbolValue(Encode(bs)[i]).Some?
    decreases |bs|
  {
    var e := Encode(bs);
    if |bs| >= 3 {
      EncodeAlphabet(bs[3..]);
      var g := EncodeGroup(bs[0], bs[1], bs[2]);
      forall i | 0 <= i < |e| ensures e[i] == '=' || SymbolValue(e[i]).Some? {
        if i < 4 {
          SymbolValueOfSymbol(bs[0] / 4);
          SymbolValueOfSymbol(bs[0] % 4 * 16 + bs[1] / 16);
          SymbolValueOfSymbol(bs[1] % 16 * 4 + bs[2] / 64);
          SymbolValueOfSymbol(bs[2] % 64);
          assert e[i] == g[i];
        } else {
          assert e[i] == Encode(bs[3..])[i - 4];
        }
      }
    } else if |bs| == 2 {
      SymbolValueOfSymbol(bs[0] / 4);
      SymbolValueOfSymbol(bs[0] % 4 * 16 + bs[1] / 16);
      SymbolValueOfSymbol(bs[1] % 16 * 4);
    } else if |bs| == 1 {
      SymbolValueOfSymbol(bs[0] / 4);
      SymbolValueOfSymbol(bs[0] % 4 * 16);
    }
  }
}
