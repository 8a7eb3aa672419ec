/**
 * Fixed-width unsigned integers and their little-endian byte encoding.
 * Rust's `u8`, `u16`, `u32` and `u64` are modelled as subset types of `int`;
 * `usize` is taken to be 64 bits wide (a 64-bit target).
 */
module Bytes {

  type byte = x: int | 0 <= x < 0x100
  type u16 = x: int | 0 <= x < 0x1_0000
  type u32 = x: int | 0 <= x < 0x1_0000_0000
  type u64 = x: int | 0 <= x < 0x1_0000_0000_0000_0000

  /** 256^k */
  function Pow256(k: nat): (r: nat)
    ensures r >= 1
  {
    if k == 0 then 1 else 256 * Pow256(k - 1)
  }

  lemma Pow256Values()
    ensures Pow256(2) == 0x1_0000
    ensures Pow256(4) == 0x1_0000_0000
    ensures Pow256(8) == 0x1_0000_0000_0000_0000
  {
    assert Pow256(1) == 256;
    assert Pow256(2) == 0x1_0000;
    assert Pow256(3) == 0x100_0000;
    assert Pow256(4) == 0x1_0000_0000;
    assert Pow256(5) == 0x100_0000_0000;
    assert Pow256(6) == 0x1_0000_0000_0000;
    assert Pow256(7) == 0x100_0000_0000_0000;
  }

  /** The k least significant bytes of n, least significant first. */
  function ToLE(n: nat, k: nat): (r: seq<byte>)
    ensures |r| == k
  {
    if k == 0 then [] else [n % 256] + ToLE(n / 256, k - 1)
  }

  /** The number whose little-endian bytes are bs. */
  function FromLE(bs: seq<byte>): (r: nat)
    ensures r < Pow256(|bs|)
  {
    if bs == [] then 0 else bs[0] + 256 * FromLE(bs[1..])
  }

  /** Writing n in k bytes and reading it back gives n, when n fits in k bytes. */
  lemma {:induction false} FromLEToLE(n: nat, k: nat)
    requires n < Pow256(k)
    ensures FromLE(ToLE(n, k)) == n
  {
    if k > 0 {
      var bs := ToLE(n, k);
      assert bs[1..] == ToLE(n / 256, k - 1);
      FromLEToLE(n / 256, k - 1);
    }
  }

  /** Reading k bytes and writing the number back gives the same bytes. */
  lemma {:induction false} ToLEFromLE(bs: seq<byte>)
    ensures ToLE(FromLE(bs), |bs|) == bs
  {
    if bs != [] {
      var n := FromLE(bs);
      assert n % 256 == bs[0] && n / 256 == FromLE(bs[1..]);
      ToLEFromLE(bs[1..]);
    }
  }

  function U16LE(n: u16): (r: seq<byte>)
    ensures |r| == 2
  {
    ToLE(n, 2)
  }

  function U32LE(n: u32): (r: seq<byte>)
    ensures |r| == 4
  {
    ToLE(n, 4)
  }

  function U64LE(n: u64): (r: seq<byte>)
    ensures |r| == 8
  {
    ToLE(n, 8)
  }

  /** u32::from_be_bytes */
  function U32FromBE(b0: byte, b1: byte, b2: byte, b3: byte): (r: u32)
    ensures r / 0x100_0000 == b0 && r % 256 == b3
  {
    b0 * 0x100_0000 + b1 * 0x1_0000 + b2 * 0x100 + b3
  }
}
