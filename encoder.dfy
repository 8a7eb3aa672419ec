/**
 * The wire codec (src/encoder.rs): bincode 1.x in its default layout, which
 * `bincode::serialize_into` and `bincode::deserialize` use:
 *   - integers are fixed-width little-endian (`usize` as a u64);
 *   - an enum variant is its u32 index followed by its fields in order;
 *   - a string is a u64 byte count followed by its UTF-8 bytes, and so is a `Vec<u8>`;
 *   - an `Option` is one tag byte, 0 for None and 1 for Some followed by the value;
 *   - a tuple is its fields in order, with nothing around them.
 * `deserialize` rejects an unknown variant index, an Option tag other than 0 or 1,
 * ill-formed UTF-8 and input that ends too early, and it ignores bytes left
 * over after a complete value.
 */
module Encoder {
  import opened Wrappers
  import opened Bytes
  import Utf8
  import opened Message
  import opened Text

  const U64_LIMIT: int := 0x1_0000_0000_0000_0000

  // ---------------------------------------------------------------- what fits

  /** A Rust string or vector never holds 2^64 bytes, so its length fits the u64 prefix. */
  predicate FitsString(s: string) { |Utf8.Encode(s)| < U64_LIMIT }
  predicate FitsBytes(b: seq<byte>) { |b| < U64_LIMIT }

  predicate FitsChunk(c: Chunk) { c.Data? ==> FitsBytes(c.bytes) }

  /** The values a `NetMessage` of the source can hold. */
  predicate Encodable(m: NetMessage)
  {
    match m
    case HelloLan(name, _) => FitsString(name)
    case HelloUser(name) => FitsString(name)
    case UserMessage(content) => FitsString(content)
    case UserData(name, chunk) => FitsString(name) && FitsChunk(chunk)
    case Stream(frame) => frame.Some? ==> FitsBytes(frame.value.data)
  }

  // ---------------------------------------------------------------- writing

  function SerializeBytes(b: seq<byte>): (r: seq<byte>)
    requires FitsBytes(b)
  {
    U64LE(|b|) + b
  }

  function SerializeString(s: string): (r: seq<byte>)
    requires FitsString(s)
  {
    SerializeBytes(Utf8.Encode(s))
  }

  function SerializeChunk(c: Chunk): (r: seq<byte>)
    requires FitsChunk(c)
  {
    U32LE(ChunkIndex(c)) + (if c.Data? then SerializeBytes(c.bytes) else [])
  }

  function SerializeFrame(f: Option<Frame>): (r: seq<byte>)
    requires f.Some? ==> FitsBytes(f.value.data)
  {
    match f
    case None => [0]
    case Some(Frame(data, w, h)) => [1] + SerializeBytes(data) + U64LE(w) + U64LE(h)
  }

  function SerializeFields(m: NetMessage): (r: seq<byte>)
    requires Encodable(m)
  {
    match m
    case HelloLan(name, port) => SerializeString(name) + U16LE(port)
    case HelloUser(name) => SerializeString(name)
    case UserMessage(content) => SerializeString(content)
    case UserData(name, chunk) => SerializeString(name) + SerializeChunk(chunk)
    case Stream(frame) => SerializeFrame(frame)
  }

  /** The bytes `bincode::serialize_into` writes for a message. */
  function Serialize(m: NetMessage): (r: seq<byte>)
    requires Encodable(m)
  {
    U32LE(MessageIndex(m)) + SerializeFields(m)
  }

  // ---------------------------------------------------------------- reading

  /** Each reader returns the value at the front of its input and the bytes after it. */
  function ReadFixed(s: seq<byte>, k: nat): (r: Option<(nat, seq<byte>)>)
    ensures r.Some? ==> k <= |s| && r.value.0 < Pow256(k) && r.value.1 == s[k..]
  {
    if |s| < k then None else Some((FromLE(s[..k]), s[k..]))
  }

  function ReadU16(s: seq<byte>): Option<(u16, seq<byte>)>
  {
    match ReadFixed(s, 2)
    case None => None
    case Some((n, rest)) => Pow256Values(); Some((n as u16, rest))
  }

  function ReadU32(s: seq<byte>): Option<(u32, seq<byte>)>
  {
    match ReadFixed(s, 4)
    case None => None
    case Some((n, rest)) => Pow256Values(); Some((n as u32, rest))
  }

  function ReadU64(s: seq<byte>): Option<(u64, seq<byte>)>
  {
    match ReadFixed(s, 8)
    case None => None
    case Some((n, rest)) => Pow256Values(); Some((n as u64, rest))
  }

  function ReadBytes(s: seq<byte>): Option<(seq<byte>, seq<byte>)>
  {
    match ReadU64(s)
    case None => None
    case Some((n, rest)) => if |rest| < n then None else Some((rest[..n], rest[n..]))
  }

  function ReadString(s: seq<byte>): Option<(string, seq<byte>)>
  {
    match ReadBytes(s)
    case None => None
    case Some((b, rest)) =>
      match Utf8.Decode(b)
      case None => None
      case Some(str) => Some((str, rest))
  }

  function ReadChunk(s: seq<byte>): Option<(Chunk, seq<byte>)>
  {
    match ReadU32(s)
    case None => None
    case Some((tag, rest)) =>
      if tag == 0 then
        match ReadBytes(rest)
        case None => None
        case Some((b, rest')) => Some((Data(b), rest'))
      else if tag == 1 then Some((Error, rest))
      else if tag == 2 then Some((End, rest))
      else None
  }

  function ReadFrame(s: seq<byte>): Option<(Option<Frame>, seq<byte>)>
  {
    if s == [] then None
    else if s[0] == 0 then Some((None, s[1..]))
    else if s[0] != 1 then None
    else
      match ReadBytes(s[1..])
      case None => None
      case Some((data, r1)) =>
        match ReadU64(r1)
        case None => None
        case Some((w, r2)) =>
          match ReadU64(r2)
          case None => None
          case Some((h, r3)) => Some((Some(Frame(data, w, h)), r3))
  }

  function ReadFields(tag: u32, s: seq<byte>): Option<(NetMessage, seq<byte>)>
  {
    if tag == 0 then
      match ReadString(s)
      case None => None
      case Some((name, r1)) =>
        match ReadU16(r1)
        case None => None
        case Some((port, r2)) => Some((HelloLan(name, port), r2))
    else if tag == 1 then
      match ReadString(s)
      case None => None
      case Some((name, r1)) => Some((HelloUser(name), r1))
    else if tag == 2 then
      match ReadString(s)
      case None => None
      case Some((content, r1)) => Some((UserMessage(content), r1))
    else if tag == 3 then
      match ReadString(s)
      case None => None
      case Some((name, r1)) =>
        match ReadChunk(r1)
        case None => None
        case Some((chunk, r2)) => Some((UserData(name, chunk), r2))
    else if tag == 4 then
      match ReadFrame(s)
      case None => None
      case Some((frame, r1)) => Some((Stream(frame), r1))
    else None
  }

  function ReadMessage(s: seq<byte>): Option<(NetMessage, seq<byte>)>
  {
    match ReadU32(s)
    case None => None
    case Some((tag, rest)) => ReadFields(tag, rest)
  }

  /** `decode`: the message at the front of the bytes, or None for anything malformed. */
  function Decode(data: seq<byte>): Option<NetMessage>
  {
    match ReadMessage(data)
    case None => None
    case Some((m, _)) => Some(m)
  }

  // ---------------------------------------------------------------- round trip

  lemma ReadFixedToLE(n: nat, k: nat, rest: seq<byte>)
    requires n < Pow256(k)
    ensures ReadFixed(ToLE(n, k) + rest, k) == Some((n, rest))
  {
    var s := ToLE(n, k) + rest;
    assert s[..k] == ToLE(n, k) && s[k..] == rest;
    FromLEToLE(n, k);
  }

  lemma ReadU16Write(n: u16, rest: seq<byte>)
    ensures ReadU16(U16LE(n) + rest) == Some((n, rest))
  {
    Pow256Values();
    ReadFixedToLE(n, 2, rest);
  }

  lemma ReadU32Write(n: u32, rest: seq<byte>)
    ensures ReadU32(U32LE(n) + rest) == Some((n, rest))
  {
    Pow256Values();
    ReadFixedToLE(n, 4, rest);
  }

  lemma ReadU64Write(n: u64, rest: seq<byte>)
    ensures ReadU64(U64LE(n) + rest) == Some((n, rest))
  {
    Pow256Values();
    ReadFixedToLE(n, 8, rest);
  }

  lemma ReadBytesWrite(b: seq<byte>, rest: seq<byte>)
    requires FitsBytes(b)
    ensures ReadBytes(SerializeBytes(b) + rest) == Some((b, rest))
  {
    var s := SerializeBytes(b) + rest;
    assert s == U64LE(|b|) + (b + rest);
    ReadU64Write(|b|, b + rest);
    assert (b + rest)[..|b|] == b && (b + rest)[|b|..] == rest;
  }

  lemma ReadStringWrite(str: string, rest: seq<byte>)
    requires FitsString(str)
    ensures ReadString(SerializeString(str) + rest) == Some((str, rest))
  {
    ReadBytesWrite(Utf8.Encode(str), rest);
    Utf8.DecodeEncode(str);
  }

  lemma ReadChunkWrite(c: Chunk, rest: seq<byte>)
    requires FitsChunk(c)
    ensures ReadChunk(SerializeChunk(c) + rest) == Some((c, rest))
  {
    var tag := ChunkIndex(c);
    var t := SerializeChunk(c)[4..] + rest;
    assert SerializeChunk(c) + rest == U32LE(tag) + t;
    assert ReadU32(U32LE(tag) + t) == Some((tag, t)) by { ReadU32Write(tag, t); }
    if c.Data? {
      assert t == SerializeBytes(c.bytes) + rest;
      assert ReadBytes(t) == Some((c.bytes, rest)) by { ReadBytesWrite(c.bytes, rest); }
    }
  }

  lemma ReadSomeFrameWrite(data: seq<byte>, w: u64, h: u64, rest: seq<byte>)
    requires FitsBytes(data)
    ensures ReadFrame([1] + SerializeBytes(data) + U64LE(w) + U64LE(h) + rest) == Some((Some(Frame(data, w, h)), rest))
  {
    var s := [1] + SerializeBytes(data) + U64LE(w) + U64LE(h) + rest;
    var tail := U64LE(w) + (U64LE(h) + rest);
    assert s[1..] == SerializeBytes(data) + tail;
    ReadBytesWrite(data, tail);
    ReadU64Write(w, U64LE(h) + rest);
    ReadU64Write(h, rest);
  }

  lemma ReadFrameWrite(f: Option<Frame>, rest: seq<byte>)
    requires f.Some? ==> FitsBytes(f.value.data)
    ensures ReadFrame(SerializeFrame(f) + rest) == Some((f, rest))
  {
    if f.Some? {
      ReadSomeFrameWrite(f.value.data, f.value.width, f.value.height, rest);
    } else {
      assert (SerializeFrame(f) + rest)[1..] == rest;
    }
  }

  lemma ReadHelloLanWrite(name: string, port: u16, rest: seq<byte>)
    requires FitsString(name)
    ensures ReadFields(0, SerializeString(name) + U16LE(port) + rest) == Some((HelloLan(name, port), rest))
  {
    var t := U16LE(port) + rest;
    assert SerializeString(name) + U16LE(port) + rest == SerializeString(name) + t;
    assert ReadString(SerializeString(name) + t) == Some((name, t)) by { ReadStringWrite(name, t); }
    assert ReadU16(t) == Some((port, rest)) by { ReadU16Write(port, rest); }
  }

  lemma ReadUserDataWrite(name: string, chunk: Chunk, rest: seq<byte>)
    requires FitsString(name) && FitsChunk(chunk)
    ensures ReadFields(3, SerializeString(name) + SerializeChunk(chunk) + rest) == Some((UserData(name, chunk), rest))
  {
    var t := SerializeChunk(chunk) + rest;
    assert SerializeString(name) + SerializeChunk(chunk) + rest == SerializeString(name) + t;
    assert ReadString(SerializeString(name) + t) == Some((name, t)) by { ReadStringWrite(name, t); }
    assert ReadChunk(t) == Some((chunk, rest)) by { ReadChunkWrite(chunk, rest); }
  }

  lemma ReadFieldsWrite(m: NetMessage, rest: seq<byte>)
    requires Encodable(m)
    ensures ReadFields(MessageIndex(m), SerializeFields(m) + rest) == Some((m, rest))
  {
    match m
    case HelloLan(name, port) =>
      ReadHelloLanWrite(name, port, rest);
    case HelloUser(name) =>
      assert ReadString(SerializeString(name) + rest) == Some((name, rest)) by { ReadStringWrite(name, rest); }
    case UserMessage(content) =>
      assert ReadString(SerializeString(content) + rest) == Some((content, rest)) by { ReadStringWrite(content, rest); }
    case UserData(name, chunk) =>
      ReadUserDataWrite(name, chunk, rest);
    case Stream(frame) =>
      assert ReadFrame(SerializeFrame(frame) + rest) == Some((frame, rest)) by { ReadFrameWrite(frame, rest); }
  }

  /** Every message decodes back from its serialisation, whatever bytes follow it. */
  lemma DecodeSerialize(m: NetMessage, rest: seq<byte>)
    requires Encodable(m)
    ensures ReadMessage(Serialize(m) + rest) == Some((m, rest))
    ensures Decode(Serialize(m) + rest) == Some(m)
  {
    var tag := MessageIndex(m);
    var t := SerializeFields(m) + rest;
    var s := Serialize(m) + rest;
    assert s == U32LE(tag) + t;
    assert ReadU32(s) == Some((tag, t)) by { ReadU32Write(tag, t); }
    assert ReadFields(tag, t) == Some((m, rest)) by { ReadFieldsWrite(m, rest); }
    assert ReadMessage(s) == Some((m, rest));
  }

  /** decode(encode(m)) == Some(m) for every message. */
  lemma RoundTrip(m: NetMessage)
    requires Encodable(m)
    ensures Decode(Serialize(m)) == Some(m)
  {
    DecodeSerialize(m, []);
    assert Serialize(m) + [] == Serialize(m);
  }

  // ---------------------------------------------------------------- canonical form

  lemma ReadFixedSound(s: seq<byte>, k: nat)
    requires ReadFixed(s, k).Some?
    ensures s == ToLE(ReadFixed(s, k).value.0, k) + ReadFixed(s, k).value.1
  {
    ToLEFromLE(s[..k]);
    assert s == s[..k] + s[k..];
  }

  lemma ReadU64Sound(s: seq<byte>)
    requires ReadU64(s).Some?
    ensures s == U64LE(ReadU64(s).value.0) + ReadU64(s).value.1
  {
    Pow256Values();
    ReadFixedSound(s, 8);
  }

  lemma ReadBytesSound(s: seq<byte>)
    requires ReadBytes(s).Some?
    ensures FitsBytes(ReadBytes(s).value.0)
    ensures s == SerializeBytes(ReadBytes(s).value.0) + ReadBytes(s).value.1
  {
    var (n, r1) := ReadU64(s).value;
    assert s == U64LE(n) + r1 by { ReadU64Sound(s); }
    var (b, r2) := ReadBytes(s).value;
    assert b == r1[..n] && r2 == r1[n..];
    assert r1 == b + r2;
    assert s == U64LE(|b|) + b + r2;
  }

  lemma ReadStringSound(s: seq<byte>)
    requires ReadString(s).Some?
    ensures FitsString(ReadString(s).value.0)
    ensures s == SerializeString(ReadString(s).value.0) + ReadString(s).value.1
  {
    var (b, _) := ReadBytes(s).value;
    ReadBytesSound(s);
    Utf8.EncodeDecode(b);
  }

  lemma ReadChunkSound(s: seq<byte>)
    requires ReadChunk(s).Some?
    ensures FitsChunk(ReadChunk(s).value.0)
    ensures s == SerializeChunk(ReadChunk(s).value.0) + ReadChunk(s).value.1
  {
    var (tag, r1) := ReadU32(s).value;
    Pow256Values();
    ReadFixedSound(s, 4);
    if tag == 0 {
      ReadBytesSound(r1);
    }
  }

  /** Regrouping a concatenation of five pieces. */
  lemma Regroup5(a: seq<byte>, b: seq<byte>, c: seq<byte>, d: seq<byte>, e: seq<byte>)
    ensures a + b + c + d + e == a + (b + (c + (d + e)))
  {
  }

  lemma ReadSomeFrameSound(s: seq<byte>)
    requires s != [] && s[0] == 1 && ReadFrame(s).Some?
    ensures var (f, rest) := ReadFrame(s).value;
      f.Some? && FitsBytes(f.value.data) &&
      s == [1] + (SerializeBytes(f.value.data) + (U64LE(f.value.width) + (U64LE(f.value.height) + rest)))
  {
    var (data, r1) := ReadBytes(s[1..]).value;
    var (w, r2) := ReadU64(r1).value;
    var (h, r3) := ReadU64(r2).value;
    assert ReadFrame(s) == Some((Some(Frame(data, w, h)), r3));
    assert FitsBytes(data) && s[1..] == SerializeBytes(data) + r1 by { ReadBytesSound(s[1..]); }
    assert r1 == U64LE(w) + r2 by { ReadU64Sound(r1); }
    assert r2 == U64LE(h) + r3 by { ReadU64Sound(r2); }
    assert s == [1] + s[1..];
  }

  lemma ReadFrameSound(s: seq<byte>)
    requires ReadFrame(s).Some?
    ensures var f := ReadFrame(s).value.0; f.Some? ==> FitsBytes(f.value.data)
    ensures s == SerializeFrame(ReadFrame(s).value.0) + ReadFrame(s).value.1
  {
    if s[0] == 0 {
      assert s == [0] + s[1..];
    } else {
      var (f, rest) := ReadFrame(s).value;
      ReadSomeFrameSound(s);
      Regroup5([1], SerializeBytes(f.value.data), U64LE(f.value.width), U64LE(f.value.height), rest);
    }
  }

  lemma ReadHelloLanSound(s: seq<byte>)
    requires ReadFields(0, s).Some?
    ensures var (m, rest) := ReadFields(0, s).value;
      m.HelloLan? && FitsString(m.userName) && s == SerializeString(m.userName) + U16LE(m.serverPort) + rest
  {
    var (name, r1) := ReadString(s).value;
    var (port, r2) := ReadU16(r1).value;
    assert ReadFields(0, s).value == (HelloLan(name, port), r2);
    assert FitsString(name) && s == SerializeString(name) + r1 by { ReadStringSound(s); }
    assert r1 == U16LE(port) + r2 by { Pow256Values(); ReadFixedSound(r1, 2); }
    assert s == SerializeString(name) + (U16LE(port) + r2);
  }

  lemma ReadUserDataSound(s: seq<byte>)
    requires ReadFields(3, s).Some?
    ensures var (m, rest) := ReadFields(3, s).value;
      m.UserData? && FitsString(m.fileName) && FitsChunk(m.chunk) &&
      s == SerializeString(m.fileName) + SerializeChunk(m.chunk) + rest
  {
    var (name, r1) := ReadString(s).value;
    var (chunk, r2) := ReadChunk(r1).value;
    assert ReadFields(3, s).value == (UserData(name, chunk), r2);
    assert FitsString(name) && s == SerializeString(name) + r1 by { ReadStringSound(s); }
    assert FitsChunk(chunk) && r1 == SerializeChunk(chunk) + r2 by { ReadChunkSound(r1); }
    ConcatAssoc(SerializeString(name), SerializeChunk(chunk), r2);
  }

  lemma ReadFieldsSound(tag: u32, s: seq<byte>)
    requires ReadFields(tag, s).Some?
    ensures var m := ReadFields(tag, s).value.0;
      Encodable(m) && MessageIndex(m) == tag && s == SerializeFields(m) + ReadFields(tag, s).value.1
  {
    if tag == 0 {
      ReadHelloLanSound(s);
    } else if tag == 1 || tag == 2 {
      var (str, r1) := ReadString(s).value;
      assert FitsString(str) && s == SerializeString(str) + r1 by { ReadStringSound(s); }
    } else if tag == 3 {
      ReadUserDataSound(s);
    } else {
      ReadFrameSound(s);
    }
  }

  lemma ReadMessageSound(s: seq<byte>)
    requires ReadMessage(s).Some?
    ensures Encodable(ReadMessage(s).value.0)
    ensures s == Serialize(ReadMessage(s).value.0) + ReadMessage(s).value.1
  {
    var (tag, r1) := ReadU32(s).value;
    Pow256Values();
    ReadFixedSound(s, 4);
    ReadFieldsSound(tag, r1);
  }

  /** Whatever decode accepts starts with the serialisation of the message it returns. */
  lemma DecodeSound(s: seq<byte>)
    requires Decode(s).Some?
    ensures Encodable(Decode(s).value)
    ensures |Serialize(Decode(s).value)| <= |s|
    ensures s[..|Serialize(Decode(s).value)|] == Serialize(Decode(s).value)
  {
    ReadMessageSound(s);
  }

  lemma ReadAfterSerialization(m: NetMessage, r: seq<byte>, tail: seq<byte>)
    requires Encodable(m)
    ensures ReadMessage(Serialize(m) + r + tail) == Some((m, r + tail))
  {
    assert Serialize(m) + r + tail == Serialize(m) + (r + tail);
    DecodeSerialize(m, r + tail);
  }

  /** Bytes appended after a message change only what is left over after it. */
  lemma ReadMessageExtend(p: seq<byte>, tail: seq<byte>)
    requires ReadMessage(p).Some?
    ensures ReadMessage(p + tail) == Some((ReadMessage(p).value.0, ReadMessage(p).value.1 + tail))
  {
    ReadMessageSound(p);
    ReadAfterSerialization(ReadMessage(p).value.0, ReadMessage(p).value.1, tail);
  }

  /** Input that reads as exactly one message has no proper prefix that reads as a message. */
  lemma ReadWholeNoPrefix(w: seq<byte>, m: NetMessage, p: seq<byte>, tail: seq<byte>)
    requires w == p + tail && ReadMessage(w) == Some((m, []))
    requires ReadMessage(p).Some?
    ensures tail == []
  {
    ReadMessageExtend(p, tail);
    assert ReadMessage(p).value.1 + tail == [];
  }

  /** A serialisation cut short anywhere, the empty input included, does not decode. */
  lemma DecodeTruncated(m: NetMessage, n: nat)
    requires Encodable(m) && n < |Serialize(m)|
    ensures Decode(Serialize(m)[..n]) == None
  {
    var whole := Serialize(m);
    var p, tail := whole[..n], whole[n..];
    assert whole == p + tail by {
      assert forall i :: 0 <= i < |whole| ==> whole[i] == (p + tail)[i];
    }
    assert ReadMessage(whole) == Some((m, [])) by {
      DecodeSerialize(m, []);
      assert whole + [] == whole;
    }
    if ReadMessage(p).Some? {
      ReadWholeNoPrefix(whole, m, p, tail);
      assert false;
    }
  }

  /** A variant index past the last message variant does not decode. */
  lemma DecodeUnknownTag(tag: u32, rest: seq<byte>)
    requires tag >= 5
    ensures Decode(U32LE(tag) + rest) == None
  {
    ReadU32Write(tag, rest);
  }

  /** A chunk variant index past End does not decode. */
  lemma DecodeUnknownChunkTag(name: string, tag: u32, rest: seq<byte>)
    requires FitsString(name) && tag >= 3
    ensures Decode(U32LE(3) + SerializeString(name) + U32LE(tag) + rest) == None
  {
    var t2 := U32LE(tag) + rest;
    var t1 := SerializeString(name) + t2;
    var s := U32LE(3) + SerializeString(name) + U32LE(tag) + rest;
    assert s == U32LE(3) + t1;
    assert ReadU32(s) == Some((3, t1)) by { ReadU32Write(3, t1); }
    assert ReadString(t1) == Some((name, t2)) by { ReadStringWrite(name, t2); }
    assert ReadChunk(t2) == None by { ReadU32Write(tag, rest); }
    assert ReadFields(3, t1) == None;
  }

  /** An Option tag byte other than 0 or 1 does not decode. */
  lemma DecodeBadOptionTag(b: byte, rest: seq<byte>)
    requires b >= 2
    ensures Decode(U32LE(4) + [b] + rest) == None
  {
    var s := U32LE(4) + [b] + rest;
    assert s == U32LE(4) + ([b] + rest);
    ReadU32Write(4, [b] + rest);
  }

  // ---------------------------------------------------------------- the encoder object

  /** `Encoder`: one output buffer reused by every call. */
  class Encoder {
    var outputBuffer: seq<byte>

    /** `Encoder::new` */
    constructor()
      ensures outputBuffer == []
    {
      outputBuffer := [];
    }

    /**
     * `Encoder::encode`: clears the buffer, serialises into it and returns
     * what is in it, so the result depends on the message alone.
     */
    method Encode(m: NetMessage) returns (r: seq<byte>)
      requires Encodable(m)
      modifies this
      ensures outputBuffer == Serialize(m) && r == outputBuffer
      ensures Decode(r) == Some(m)
    {
      outputBuffer := [];
      outputBuffer := outputBuffer + Serialize(m);
      r := outputBuffer;
      RoundTrip(m);
    }
  }
}
