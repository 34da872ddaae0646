/** Byte strings and the fixed-width integers of the account schema. */
module Bytes {

  type byte = x: int | 0 <= x < 0x100

  /** Unsigned 8-bit integer (`u8`). */
  type u8 = byte

  /** Unsigned 64-bit integer (`u64`). */
  type u64 = x: int | 0 <= x < 0x1_0000_0000_0000_0000

  /** Signed 64-bit integer (`i64`). */
  type i64 = x: int | -0x8000_0000_0000_0000 <= x < 0x8000_0000_0000_0000

  /** 256 to the power `k`: the number of values `k` bytes can hold. */
  function Pow256(k: nat): (r: nat)
    ensures r > 0
  {
    if k == 0 then 1 else 0x100 * Pow256(k - 1)
  }

  /** `n` as exactly `k` bytes, least significant byte first. */
  function LittleEndian(n: nat, k: nat): (r: seq<byte>)
    requires n < Pow256(k)
    ensures |r| == k
  {
    if k == 0 then []
    else
      assert n / 0x100 < Pow256(k - 1) by {
        DivBound(n, Pow256(k - 1));
      }
      [(n % 0x100) as byte] + LittleEndian(n / 0x100, k - 1)
  }

  /** The number that the bytes `b` spell, least significant byte first. */
  function FromLittleEndian(b: seq<byte>): (r: nat)
    ensures r < Pow256(|b|)
  {
    if b == [] then 0
    else
      var rest := FromLittleEndian(b[1..]);
      assert b[0] + 0x100 * rest < 0x100 * Pow256(|b| - 1) by {
        MulBound(b[0], rest, Pow256(|b| - 1));
      }
      b[0] + 0x100 * rest
  }

  lemma DivBound(n: nat, p: nat)
    requires n < 0x100 * p
    ensures n / 0x100 < p
  {
  }

  lemma MulBound(d: nat, rest: nat, p: nat)
    requires d < 0x100 && rest < p
    ensures d + 0x100 * rest < 0x100 * p
  {
  }

  /** Decoding the `k` little-endian bytes of `n` gives back `n`. */
  lemma {:induction false} DecodeEncode(n: nat, k: nat)
    requires n < Pow256(k)
    ensures FromLittleEndian(LittleEndian(n, k)) == n
  {
    if k > 0 {
      DivBound(n, Pow256(k - 1));
      DecodeEncode(n / 0x100, k - 1);
      var b := LittleEndian(n, k);
      assert b[1..] == LittleEndian(n / 0x100, k - 1);
    }
  }

  /** Encoding the number spelled by `b` in `|b|` bytes gives back `b`. */
  lemma {:induction false} EncodeDecode(b: seq<byte>)
    ensures LittleEndian(FromLittleEndian(b), |b|) == b
  {
    if b != [] {
      EncodeDecode(b[1..]);
      var n := FromLittleEndian(b);
      assert n % 0x100 == b[0] && n / 0x100 == FromLittleEndian(b[1..]);
      assert b == [b[0]] + b[1..];
    }
  }

  /** Eight bytes hold exactly the `u64` range. */
  lemma Pow256Eight()
    ensures Pow256(8) == 0x1_0000_0000_0000_0000
  {
  }

  /** `new BN(n).toArrayLike(Buffer, 'le', 8)`: a `u64` as eight little-endian bytes. */
  function U64LittleEndian(n: u64): (r: seq<byte>)
    ensures |r| == 8 && FromLittleEndian(r) == n
  {
    Pow256Eight();
    DecodeEncode(n, 8);
    LittleEndian(n, 8)
  }

  /** Different `u64` values have different eight-byte encodings. */
  lemma U64LittleEndianInjective(m: u64, n: u64)
    ensures U64LittleEndian(m) == U64LittleEndian(n) ==> m == n
  {
  }

  /** `Buffer.from(s)` for a string of ASCII characters: one byte per character, its code. */
  function Ascii(s: string): (r: seq<byte>)
    requires forall i :: 0 <= i < |s| ==> s[i] as int < 0x80
    ensures |r| == |s| && forall i :: 0 <= i < |s| ==> r[i] == s[i] as int
  {
    if s == [] then [] else [s[0] as int as byte] + Ascii(s[1..])
  }
}
