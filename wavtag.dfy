/**
 * The tag aggregate the reader fills: at most one ID3 tag, at most one INFO
 * tag, the log of visited chunks and the misalignment flag. The two sub-tags
 * are produced by payload parsers outside this model; only their presence
 * matters here.
 */
module WavTags {
  import opened Wrappers
  import opened Bytes
  import opened Iff

  datatype Id3Version = V22 | V23 | V24

  datatype Id3Tag = Id3Tag(version: Id3Version, frames: seq<seq<byte>>)

  datatype InfoTag = InfoTag(fields: seq<(string, string)>)

  /** An empty ID3 v2.3 tag, the default installed when the file has none. */
  const DefaultId3Tag := Id3Tag(V23, [])

  /** An empty INFO tag, the default installed when the file has none. */
  const DefaultInfoTag := InfoTag([])

  /** The value of a tag aggregate. */
  datatype TagState = TagState(
    id3: Option<Id3Tag>,
    info: Option<InfoTag>,
    summaries: seq<ChunkSummary>,
    misaligned: bool)

  const EmptyTag := TagState(None, None, [], false)

  /**
   * Installs default sub-tags in the empty slots: afterwards both slots are
   * filled, a slot that was filled keeps its tag, and nothing else changes.
   */
  function WithDefaults(t: TagState): (r: TagState)
    ensures r.id3.Some? && r.info.Some?
    ensures t.id3.Some? ==> r.id3 == t.id3
    ensures t.info.Some? ==> r.info == t.info
    ensures t.id3.None? ==> r.id3.value == DefaultId3Tag
    ensures t.info.None? ==> r.info.value == DefaultInfoTag
    ensures r.summaries == t.summaries && r.misaligned == t.misaligned
  {
    var withId3 := if t.id3.None? then t.(id3 := Some(DefaultId3Tag)) else t;
    if withId3.info.None? then withId3.(info := Some(DefaultInfoTag)) else withId3
  }

  /** Installing defaults a second time changes nothing. */
  lemma WithDefaultsIdempotent(t: TagState)
    ensures WithDefaults(WithDefaults(t)) == WithDefaults(t)
  {
  }

  class WavTag {
    var id3Tag: Option<Id3Tag>
    var infoTag: Option<InfoTag>
    var chunkSummaries: seq<ChunkSummary>
    var incorrectlyAligned: bool

    /** A new aggregate: no sub-tags, an empty log, not misaligned. */
    constructor ()
      ensures Value() == EmptyTag
    {
      id3Tag, infoTag := None, None;
      chunkSummaries := [];
      incorrectlyAligned := false;
    }

    function Value(): TagState
      reads this
    {
      TagState(id3Tag, infoTag, chunkSummaries, incorrectlyAligned)
    }

    method AddChunkSummary(s: ChunkSummary)
      modifies this
      ensures Value() == old(Value()).(summaries := old(chunkSummaries) + [s])
    {
      chunkSummaries := chunkSummaries + [s];
    }

    method SetID3Tag(t: Id3Tag)
      modifies this
      ensures Value() == old(Value()).(id3 := Some(t))
    {
      id3Tag := Some(t);
    }

    method SetInfoTag(t: InfoTag)
      modifies this
      ensures Value() == old(Value()).(info := Some(t))
    {
      infoTag := Some(t);
    }

    method SetIncorrectlyAlignedTag(b: bool)
      modifies this
      ensures Value() == old(Value()).(misaligned := b)
    {
      incorrectlyAligned := b;
    }
  }
}
