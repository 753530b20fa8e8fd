/**
 * The generic IFF/RIFF chunk layer: an 8-byte chunk header (a four-character
 * identifier and a little-endian unsigned 32-bit payload size), the summary
 * record kept for a visited chunk, and the pad-byte rule that keeps chunks on
 * even offsets (chapter 2 of the Multimedia Programming Interface and Data
 * Specifications 1.0).
 */
module Iff {
  import opened Wrappers
  import opened Bytes
  import opened DataSources

  const ChunkHeaderSize: nat := 8

  /** A decoded chunk header; start is the offset at which the header begins. */
  datatype ChunkHeader = ChunkHeader(id: FourCC, size: nat, start: nat)

  /** The (identifier, start offset, size) record of a chunk the walk met. */
  datatype ChunkSummary = ChunkSummary(id: FourCC, start: nat, size: nat)

  function SummaryOf(h: ChunkHeader): ChunkSummary
  {
    ChunkSummary(h.id, h.start, h.size)
  }

  /** Decodes the header at pos; None when fewer than eight bytes remain. */
  function DecodeHeader(bytes: seq<byte>, pos: nat): (r: Option<ChunkHeader>)
    ensures r.None? <==> |bytes| < pos + ChunkHeaderSize
    ensures r.Some? ==> r.value.start == pos && r.value.size < Two32
  {
    if |bytes| < pos + ChunkHeaderSize then None
    else Some(ChunkHeader(bytes[pos..pos + 4], LE32(bytes[pos + 4..pos + 8]), pos))
  }

  /** The eight bytes of a chunk header. */
  function EncodeHeader(id: FourCC, size: nat): (b: seq<byte>)
    requires size < Two32
    ensures |b| == ChunkHeaderSize
  {
    id + EncodeLE32(size)
  }

  /** A header written at any offset of any stream decodes to what was written. */
  lemma DecodeEncodedHeader(prefix: seq<byte>, id: FourCC, size: nat, rest: seq<byte>)
    requires size < Two32
    ensures DecodeHeader(prefix + EncodeHeader(id, size) + rest, |prefix|)
         == Some(ChunkHeader(id, size, |prefix|))
  {
    var bytes := prefix + EncodeHeader(id, size) + rest;
    var p := |prefix|;
    assert bytes[p..p + 4] == id;
    assert bytes[p + 4..p + 8] == EncodeLE32(size);
    DecodeEncodeLE32(size);
  }

  /** Every decoded header is the encoding of what it decodes to. */
  lemma EncodeDecodedHeader(bytes: seq<byte>, pos: nat)
    requires DecodeHeader(bytes, pos).Some?
    ensures var h := DecodeHeader(bytes, pos).value;
            bytes[pos..pos + ChunkHeaderSize] == EncodeHeader(h.id, h.size)
  {
    EncodeDecodeLE32(bytes[pos + 4..pos + 8]);
    assert bytes[pos..pos + 8] == bytes[pos..pos + 4] + bytes[pos + 4..pos + 8];
  }

  /**
   * Where the cursor is after the pad rule: one byte further when the chunk's
   * size is odd and the cursor is not yet at the end of the file.
   */
  function PadStep(bytes: seq<byte>, p: nat, size: nat): (r: nat)
    ensures p <= r <= p + 1
    ensures r == p + 1 <==> size % 2 == 1 && p < |bytes|
    ensures p <= |bytes| ==> r <= |bytes|
  {
    if size % 2 == 1 && p < |bytes| then p + 1 else p
  }

  /** Reads the header at the cursor, moving past it; leaves the cursor alone when none fits. */
  method ReadHeader(src: DataSource) returns (h: Option<ChunkHeader>)
    modifies src
    ensures h == DecodeHeader(src.bytes, old(src.pos))
    ensures src.pos == if h.Some? then old(src.pos) + ChunkHeaderSize else old(src.pos)
  {
    var start := src.pos;
    if src.Size() < start + ChunkHeaderSize {
      return None;
    }
    var data := src.Read(ChunkHeaderSize);
    assert data[..4] == src.bytes[start..start + 4] && data[4..] == src.bytes[start + 4..start + 8];
    h := Some(ChunkHeader(data[..4], LE32(data[4..]), start));
  }

  /** Applies the pad rule to the data source after a chunk of the given header. */
  method EnsureOnEqualBoundary(src: DataSource, h: ChunkHeader)
    modifies src
    ensures src.pos == PadStep(src.bytes, old(src.pos), h.size)
  {
    if h.size % 2 == 1 && src.pos < src.Size() {
      src.Skip(1);
    }
  }
}
