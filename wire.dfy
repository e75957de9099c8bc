/**
 * Bytes on the wire and the big-endian unsigned integers the reply records
 * are made of (encoding/binary with binary.BigEndian).
 */
module Wire {

  /** One octet of the TCP stream. */
  type byte = b: int | 0 <= b < 256

  /** 256^n: one more than the largest value an n-byte unsigned field holds. */
  function Pow256(n: nat): (r: nat)
    ensures r >= 1
  {
    if n == 0 then 1 else 256 * Pow256(n - 1)
  }

  /**
   * Value of a big-endian unsigned field: the last byte is the least significant.
   * An n-byte field never decodes to more than 256^n - 1: nothing is lost or wrapped.
   */
  function BeValue(s: seq<byte>): (v: nat)
    ensures v < Pow256(|s|)
  {
    if |s| == 0 then 0 else BeValue(s[..|s| - 1]) * 256 + s[|s| - 1]
  }

  /** The n-byte big-endian representation of v. */
  function BeBytes(v: nat, n: nat): (s: seq<byte>)
    requires v < Pow256(n)
    ensures |s| == n
  {
    if n == 0 then [] else BeBytes(v / 256, n - 1) + [v % 256]
  }

  /** Big-endian order: the first byte is the most significant one. */
  lemma {:induction false} BeValueFirst(s: seq<byte>)
    requires |s| > 0
    ensures BeValue(s) == s[0] * Pow256(|s| - 1) + BeValue(s[1..])
  {
    if |s| > 1 {
      var init := s[..|s| - 1];
      BeValueFirst(init);
      assert init[1..] == s[1..][..|s| - 2];
      assert init[0] == s[0];
      var p := Pow256(|s| - 2);
      assert Pow256(|s| - 1) == 256 * p;
      ShiftByte(s[0], p, BeValue(init[1..]), s[|s| - 1]);
    } else {
      assert s[1..] == [];
    }
  }

  /** Shifting a two-part value one byte left distributes over both parts. */
  lemma ShiftByte(a: int, p: int, b: int, c: int)
    ensures (a * p + b) * 256 + c == a * (256 * p) + (b * 256 + c)
  {
  }

  /** Decoding the encoding of a value gives the value back. */
  lemma {:induction false} BeDecodeEncode(v: nat, n: nat)
    requires v < Pow256(n)
    ensures BeValue(BeBytes(v, n)) == v
  {
    if n > 0 {
      BeDecodeEncode(v / 256, n - 1);
      var s := BeBytes(v, n);
      assert s[..n - 1] == BeBytes(v / 256, n - 1);
    }
  }

  /** Encoding a decoded field gives the same bytes back. */
  lemma {:induction false} BeEncodeDecode(s: seq<byte>)
    ensures BeValue(s) < Pow256(|s|)
    ensures BeBytes(BeValue(s), |s|) == s
  {
    if |s| > 0 {
      var init := s[..|s| - 1];
      BeEncodeDecode(init);
      assert BeValue(s) / 256 == BeValue(init);
      assert BeValue(s) % 256 == s[|s| - 1];
      assert s == init + [s[|s| - 1]];
    }
  }

  /** Number of bytes of a uint64 field. */
  const U64Width: nat := 8

  /** 2^64. */
  const U64Limit: nat := 0x1_0000_0000_0000_0000

  /** binary.Read of a uint64 in big-endian order from an 8-byte buffer. */
  function BeU64(b: seq<byte>): (v: nat)
    requires |b| == U64Width
    ensures v < U64Limit
  {
    assert Pow256(8) == U64Limit;
    BeValue(b)
  }
}
