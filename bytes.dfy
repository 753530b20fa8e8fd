/**
 * Bytes, four-character codes and the little-endian 32-bit integers of the
 * RIFF chunk layout.
 */
module Bytes {

  newtype byte = x: int | 0 <= x < 0x100

  /** A four-character chunk identifier, kept as its four raw bytes. */
  type FourCC = s: seq<byte> | |s| == 4 witness [0, 0, 0, 0]

  const Two32: nat := 0x1_0000_0000

  /** The unsigned value of four bytes, least significant first. */
  function LE32(b: seq<byte>): (n: nat)
    requires |b| == 4
    ensures n < Two32
  {
    b[0] as int + 0x100 * (b[1] as int + 0x100 * (b[2] as int + 0x100 * b[3] as int))
  }

  /** The four bytes, least significant first, of an unsigned 32-bit value. */
  function EncodeLE32(n: nat): (b: seq<byte>)
    requires n < Two32
    ensures |b| == 4
  {
    var n1 := n / 0x100;
    var n2 := n1 / 0x100;
    [(n % 0x100) as byte, (n1 % 0x100) as byte, (n2 % 0x100) as byte, (n2 / 0x100) as byte]
  }

  /** Decoding undoes encoding. */
  lemma DecodeEncodeLE32(n: nat)
    requires n < Two32
    ensures LE32(EncodeLE32(n)) == n
  {
    var n1 := n / 0x100;
    var n2 := n1 / 0x100;
    assert n2 == n2 % 0x100 + 0x100 * (n2 / 0x100);
    assert n1 == n1 % 0x100 + 0x100 * n2;
    assert n == n % 0x100 + 0x100 * n1;
  }

  /** Encoding undoes decoding: every four bytes are the encoding of their value. */
  lemma EncodeDecodeLE32(b: seq<byte>)
    requires |b| == 4
    ensures EncodeLE32(LE32(b)) == b
  {
    var n := LE32(b);
    var x2 := b[2] as int + 0x100 * b[3] as int;
    var x1 := b[1] as int + 0x100 * x2;
    assert n == b[0] as int + 0x100 * x1;
    assert n / 0x100 == x1 && n % 0x100 == b[0] as int;
    assert x1 / 0x100 == x2 && x1 % 0x100 == b[1] as int;
    assert x2 / 0x100 == b[3] as int && x2 % 0x100 == b[2] as int;
  }
}
