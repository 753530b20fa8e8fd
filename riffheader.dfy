/**
 * The RIFF/WAVE container header that must open the stream: the signature
 * "RIFF", a little-endian 32-bit size, then the form type "WAVE".
 */
module WavRiffHeader {
  import opened Bytes
  import opened DataSources

  const RiffHeaderSize: nat := 12

  /** "RIFF" */
  const RiffSignature: FourCC := [0x52, 0x49, 0x46, 0x46]
  /** "WAVE" */
  const WaveSignature: FourCC := [0x57, 0x41, 0x56, 0x45]

  /** The twelve bytes at pos form a RIFF/WAVE header (its size field is not checked). */
  predicate IsValidHeaderAt(bytes: seq<byte>, pos: nat): (valid: bool)
    ensures valid ==> pos + RiffHeaderSize <= |bytes|
  {
    && pos + RiffHeaderSize <= |bytes|
    && bytes[pos..pos + 4] == RiffSignature
    && bytes[pos + 8..pos + 12] == WaveSignature
  }

  /** The header of a RIFF/WAVE container whose size field holds size. */
  function EncodeRiffHeader(size: nat): (b: seq<byte>)
    requires size < Two32
    ensures |b| == RiffHeaderSize
  {
    RiffSignature + EncodeLE32(size) + WaveSignature
  }

  /** Whatever follows it, an encoded header is accepted. */
  lemma EncodedRiffHeaderIsValid(size: nat, rest: seq<byte>)
    requires size < Two32
    ensures IsValidHeaderAt(EncodeRiffHeader(size) + rest, 0)
  {
    var b := EncodeRiffHeader(size) + rest;
    assert b[0..4] == RiffSignature;
    assert b[8..12] == WaveSignature;
  }

  /** Every accepted header is the encoding of the size field it carries. */
  lemma ValidRiffHeaderIsEncoded(bytes: seq<byte>, pos: nat)
    requires IsValidHeaderAt(bytes, pos)
    ensures bytes[pos..pos + RiffHeaderSize] == EncodeRiffHeader(LE32(bytes[pos + 4..pos + 8]))
  {
    EncodeDecodeLE32(bytes[pos + 4..pos + 8]);
    assert bytes[pos..pos + 12] == bytes[pos..pos + 4] + bytes[pos + 4..pos + 8] + bytes[pos + 8..pos + 12];
  }

  /** Checks the header at the cursor; on success the cursor is just past it. */
  method IsValidHeader(src: DataSource) returns (valid: bool)
    modifies src
    ensures valid == IsValidHeaderAt(src.bytes, old(src.pos))
    ensures valid ==> src.pos == old(src.pos) + RiffHeaderSize
  {
    var start := src.pos;
    var header := src.Read(RiffHeaderSize);
    if |header| < RiffHeaderSize {
      return false;
    }
    assert header[..4] == src.bytes[start..start + 4] && header[8..] == src.bytes[start + 8..start + 12];
    valid := header[..4] == RiffSignature && header[8..] == WaveSignature;
  }
}
