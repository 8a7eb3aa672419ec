/**
 * UTF-8, the byte form of a Rust `String` on the wire.
 * Encoding writes each Unicode scalar value in its shortest form; decoding
 * accepts exactly the well-formed byte sequences that `String::from_utf8`
 * accepts (no overlong forms, no surrogates, nothing above U+10FFFF).
 */
module Utf8 {
  import opened Wrappers
  import opened Bytes

  predicate IsContinuation(b: byte) { 0x80 <= b < 0xC0 }

  /** The UTF-8 bytes of one scalar value. */
  function EncodeChar(c: char): (r: seq<byte>)
    ensures 1 <= |r| <= 4
  {
    var cp := c as int;
    var q1, r1 := cp / 64, cp % 64;
    var q2, r2 := q1 / 64, q1 % 64;
    var q3, r3 := q2 / 64, q2 % 64;
    if cp < 0x80 then [cp]
    else if cp < 0x800 then [0xC0 + q1, 0x80 + r1]
    else if cp < 0x1_0000 then [0xE0 + q2, 0x80 + r2, 0x80 + r1]
    else [0xF0 + q3, 0x80 + r3, 0x80 + r2, 0x80 + r1]
  }

  function Encode(s: string): (r: seq<byte>)
    ensures |s| <= |r| <= 4 * |s|
  {
    if s == [] then [] else EncodeChar(s[0]) + Encode(s[1..])
  }

  /**
   * Decodes the scalar value at the front of bs and says how many bytes it
   * took, or None when the front of bs is not well-formed UTF-8.
   */
  function DecodeChar(bs: seq<byte>): (r: Option<(char, nat)>)
    ensures r.Some? ==> 1 <= r.value.1 <= |bs| && r.value.1 <= 4
  {
    if bs == [] then None
    else
      var b0: int := bs[0];
      if b0 < 0x80 then Some((b0 as char, 1))
      else if 0xC2 <= b0 < 0xE0 then
        if |bs| < 2 || !IsContinuation(bs[1]) then None
        else Some((((b0 - 0xC0) * 64 + (bs[1] as int - 0x80)) as char, 2))
      else if 0xE0 <= b0 < 0xF0 then
        if |bs| < 3 || !IsContinuation(bs[1]) || !IsContinuation(bs[2]) then None
        else
          var cp := (b0 - 0xE0) * 4096 + (bs[1] as int - 0x80) * 64 + (bs[2] as int - 0x80);
          if cp < 0x800 || (0xD800 <= cp < 0xE000) then None else Some((cp as char, 3))
      else if 0xF0 <= b0 < 0xF5 then
        if |bs| < 4 || !IsContinuation(bs[1]) || !IsContinuation(bs[2]) || !IsContinuation(bs[3]) then None
        else
          var cp := (b0 - 0xF0) * 262144 + (bs[1] as int - 0x80) * 4096 + (bs[2] as int - 0x80) * 64 + (bs[3] as int - 0x80);
          if cp < 0x1_0000 || cp >= 0x11_0000 then None else Some((cp as char, 4))
      else None
  }

  /** `String::from_utf8`: the whole of bs must be well-formed. */
  function Decode(bs: seq<byte>): (r: Option<string>)
    decreases |bs|
  {
    if bs == [] then Some([])
    else
      match DecodeChar(bs)
      case None => None
      case Some((c, n)) =>
        match Decode(bs[n..])
        case None => None
        case Some(rest) => Some([c] + rest)
  }

  /** Splitting off the low six bits of a value. */
  lemma SixBits(q: int, d: int)
    requires 0 <= d < 64
    ensures (q * 64 + d) / 64 == q && (q * 64 + d) % 64 == d
  {
  }

  lemma DecodeEncodeTwo(c: char, rest: seq<byte>)
    requires 0x80 <= c as int < 0x800
    ensures DecodeChar(EncodeChar(c) + rest) == Some((c, 2))
  {
    var cp := c as int;
    var q1, r1 := cp / 64, cp % 64;
    var s := EncodeChar(c) + rest;
    assert s[0] == 0xC0 + q1 && s[1] == 0x80 + r1;
    assert 2 <= q1 < 32;
    assert q1 * 64 + r1 == cp;
  }

  lemma DecodeEncodeThree(c: char, rest: seq<byte>)
    requires 0x800 <= c as int < 0x1_0000
    ensures DecodeChar(EncodeChar(c) + rest) == Some((c, 3))
  {
    var cp := c as int;
    var q1, r1 := cp / 64, cp % 64;
    var q2, r2 := q1 / 64, q1 % 64;
    var s := EncodeChar(c) + rest;
    assert s[0] == 0xE0 + q2 && s[1] == 0x80 + r2 && s[2] == 0x80 + r1;
    assert q1 * 64 + r1 == cp && q2 * 64 + r2 == q1;
    assert q2 * 4096 + r2 * 64 + r1 == cp;
    assert 0 <= q2 < 16;
  }

  lemma DecodeEncodeFour(c: char, rest: seq<byte>)
    requires 0x1_0000 <= c as int
    ensures DecodeChar(EncodeChar(c) + rest) == Some((c, 4))
  {
    var cp := c as int;
    var q1, r1 := cp / 64, cp % 64;
    var q2, r2 := q1 / 64, q1 % 64;
    var q3, r3 := q2 / 64, q2 % 64;
    var s := EncodeChar(c) + rest;
    assert s[0] == 0xF0 + q3 && s[1] == 0x80 + r3 && s[2] == 0x80 + r2 && s[3] == 0x80 + r1;
    assert q1 * 64 + r1 == cp && q2 * 64 + r2 == q1 && q3 * 64 + r3 == q2;
    assert q3 * 262144 + r3 * 4096 + r2 * 64 + r1 == cp;
    assert 0 <= q3 < 5;
  }

  /** The decoder reads back the scalar value at the front of its encoding, whatever follows. */
  lemma DecodeEncodeChar(c: char, rest: seq<byte>)
    ensures DecodeChar(EncodeChar(c) + rest) == Some((c, |EncodeChar(c)|))
  {
    var cp := c as int;
    if cp < 0x80 {
      assert (EncodeChar(c) + rest)[0] == cp;
    } else if cp < 0x800 {
      DecodeEncodeTwo(c, rest);
    } else if cp < 0x1_0000 {
      DecodeEncodeThree(c, rest);
    } else {
      DecodeEncodeFour(c, rest);
    }
  }

  lemma EncodeDecodeTwo(bs: seq<byte>)
    requires DecodeChar(bs).Some? && DecodeChar(bs).value.1 == 2
    ensures EncodeChar(DecodeChar(bs).value.0) == bs[..2]
  {
    var b0: int, d1: int := bs[0], bs[1] - 0x80;
    var cp := DecodeChar(bs).value.0 as int;
    assert 0xC2 <= b0 < 0xE0 && 0 <= d1 < 64;
    assert cp == (b0 - 0xC0) * 64 + d1;
    SixBits(b0 - 0xC0, d1);
  }

  lemma EncodeDecodeThree(bs: seq<byte>)
    requires DecodeChar(bs).Some? && DecodeChar(bs).value.1 == 3
    ensures EncodeChar(DecodeChar(bs).value.0) == bs[..3]
  {
    var b0: int, d1: int, d2: int := bs[0], bs[1] - 0x80, bs[2] - 0x80;
    var cp := DecodeChar(bs).value.0 as int;
    assert 0xE0 <= b0 < 0xF0 && 0 <= d1 < 64 && 0 <= d2 < 64;
    var hi := b0 - 0xE0;
    assert cp == (hi * 64 + d1) * 64 + d2;
    SixBits(hi * 64 + d1, d2);
    SixBits(hi, d1);
  }

  lemma EncodeDecodeFour(bs: seq<byte>)
    requires DecodeChar(bs).Some? && DecodeChar(bs).value.1 == 4
    ensures EncodeChar(DecodeChar(bs).value.0) == bs[..4]
  {
    var b0: int, d1: int, d2: int, d3: int := bs[0], bs[1] - 0x80, bs[2] - 0x80, bs[3] - 0x80;
    var cp := DecodeChar(bs).value.0 as int;
    assert 0xF0 <= b0 < 0xF5 && 0 <= d1 < 64 && 0 <= d2 < 64 && 0 <= d3 < 64;
    var hi := b0 - 0xF0;
    assert cp == ((hi * 64 + d1) * 64 + d2) * 64 + d3;
    SixBits((hi * 64 + d1) * 64 + d2, d3);
    SixBits(hi * 64 + d1, d2);
    SixBits(hi, d1);
  }

  /** Every well-formed front of bs is the canonical encoding of the value it decodes to. */
  lemma EncodeDecodeChar(bs: seq<byte>)
    requires DecodeChar(bs).Some?
    ensures EncodeChar(DecodeChar(bs).value.0) == bs[..DecodeChar(bs).value.1]
  {
    var n := DecodeChar(bs).value.1;
    if n == 2 {
      EncodeDecodeTwo(bs);
    } else if n == 3 {
      EncodeDecodeThree(bs);
    } else if n == 4 {
      EncodeDecodeFour(bs);
    }
  }

  /** Decoding an encoded string gives the string back. */
  lemma {:induction false} DecodeEncode(s: string)
    ensures Decode(Encode(s)) == Some(s)
  {
    if s != [] {
      var e := Encode(s);
      assert e == EncodeChar(s[0]) + Encode(s[1..]);
      DecodeEncodeChar(s[0], Encode(s[1..]));
      assert e[|EncodeChar(s[0])|..] == Encode(s[1..]);
      DecodeEncode(s[1..]);
      assert [s[0]] + s[1..] == s;
    }
  }

  /** Whatever the decoder accepts is the encoding of what it returns: the encoding is canonical. */
  lemma {:induction false} EncodeDecode(bs: seq<byte>)
    requires Decode(bs).Some?
    ensures Encode(Decode(bs).value) == bs
    decreases |bs|
  {
    if bs != [] {
      var (c, n) := DecodeChar(bs).value;
      var tail := Decode(bs[n..]).value;
      assert Decode(bs) == Some([c] + tail);
      assert EncodeChar(c) == bs[..n] by { EncodeDecodeChar(bs); }
      assert Encode(tail) == bs[n..] by { EncodeDecode(bs[n..]); }
      var s := [c] + tail;
      assert s[0] == c && s[1..] == tail;
      assert Encode(s) == EncodeChar(c) + Encode(tail);
      assert bs == bs[..n] + bs[n..];
    }
  }
}
