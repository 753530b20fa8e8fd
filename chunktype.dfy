/**
 * The chunk types the tag reader tells apart. The table from identifiers to
 * types is a parameter of the model; an identifier missing from it is not
 * recognised.
 */
module WavChunkTypes {
  import opened Wrappers
  import opened Bytes

  /**
   * List and Id3 carry metadata; the three Corrupt types are the signatures
   * of a LIST or ID3 header met one byte away from its true offset; Other is
   * every other known type (format, data, padding, ...).
   */
  datatype ChunkType = List | Id3 | CorruptList | CorruptId3Early | CorruptId3Late | Other

  type ChunkTable = map<FourCC, ChunkType>

  /** The type of an identifier; None when the table does not know it. */
  function Classify(table: ChunkTable, id: FourCC): (r: Option<ChunkType>)
    ensures r.None? <==> id !in table
    ensures r.Some? ==> table[id] == r.value
  {
    if id in table then Some(table[id]) else None
  }
}
