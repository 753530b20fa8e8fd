/**
 * The tag reader itself: the per-chunk routine and the read loop, working on
 * a data source's cursor and a tag aggregate in place, each proved to do what
 * the functions of ChunkWalk describe.
 */
module WavTagReader {
  import opened Wrappers
  import opened Bytes
  import opened DataSources
  import opened Iff
  import opened WavChunkTypes
  import opened WavTags
  import opened WavRiffHeader
  import opened ChunkWalk

  /** Installs an empty ID3 v2.3 tag and an empty INFO tag where the aggregate has none. */
  method CreateDefaultMetadataTagsIfMissing(tag: WavTag)
    modifies tag
    ensures tag.Value() == WithDefaults(old(tag.Value()))
  {
    if tag.id3Tag.None? {
      tag.SetID3Tag(DefaultId3Tag);
    }
    if tag.infoTag.None? {
      tag.SetInfoTag(DefaultInfoTag);
    }
  }

  /**
   * The LIST branch of ReadChunk, from just after the header: logs the chunk,
   * parses the payload while there is no INFO tag, and applies the pad rule
   * unless the parse failed.
   */
  method ReadListChunk(src: DataSource, tag: WavTag, parsers: PayloadParsers, h: ChunkHeader) returns (more: bool)
    requires src.pos == h.start + ChunkHeaderSize <= |src.bytes|
    modifies src, tag
    ensures StepResult(more, src.pos, tag.Value()) == ListStep(src.bytes, parsers, h, old(tag.Value()))
  {
    tag.AddChunkSummary(SummaryOf(h));
    if tag.infoTag.None? {
      var data := src.Read(h.size);
      var res := parsers.list(data);
      if res.tag.Some? {
        tag.SetInfoTag(res.tag.value);
      }
      if !res.ok {
        return false;
      }
    }
    EnsureOnEqualBoundary(src, h);
    return true;
  }

  /** The ID3 branch of ReadChunk, as ReadListChunk for the ID3 slot. */
  method ReadId3Chunk(src: DataSource, tag: WavTag, parsers: PayloadParsers, h: ChunkHeader) returns (more: bool)
    requires src.pos == h.start + ChunkHeaderSize <= |src.bytes|
    modifies src, tag
    ensures StepResult(more, src.pos, tag.Value()) == Id3Step(src.bytes, parsers, h, old(tag.Value()))
  {
    tag.AddChunkSummary(SummaryOf(h));
    if tag.id3Tag.None? {
      var data := src.Read(h.size);
      var res := parsers.id3(data);
      if res.tag.Some? {
        tag.SetID3Tag(res.tag.value);
      }
      if !res.ok {
        return false;
      }
    }
    EnsureOnEqualBoundary(src, h);
    return true;
  }

  /**
   * Reads one chunk at the cursor and records it in the aggregate; returns
   * whether the walk goes on.
   */
  method ReadChunk(src: DataSource, tag: WavTag, table: ChunkTable, parsers: PayloadParsers) returns (more: bool)
    modifies src, tag
    ensures StepResult(more, src.pos, tag.Value()) == ChunkStep(src.bytes, table, parsers, old(src.pos), old(tag.Value()))
  {
    var header := ReadHeader(src);
    if header.None? {
      return false;
    }
    var h := header.value;
    var chunkType := Classify(table, h.id);
    if chunkType.Some? {
      match chunkType.value
      case List =>
        more := ReadListChunk(src, tag, parsers, h);
        return more;
      case CorruptList =>
        if tag.infoTag.None? && tag.id3Tag.None? {
          tag.SetIncorrectlyAlignedTag(true);
        }
        src.Seek(src.pos - (ChunkHeaderSize - 1));
        return true;
      case Id3 =>
        more := ReadId3Chunk(src, tag, parsers, h);
        return more;
      case CorruptId3Early =>
        if tag.infoTag.None? && tag.id3Tag.None? {
          tag.SetIncorrectlyAlignedTag(true);
        }
        src.Seek(src.pos - (ChunkHeaderSize - 1));
        return true;
      case CorruptId3Late =>
        if tag.infoTag.None? && tag.id3Tag.None? {
          tag.SetIncorrectlyAlignedTag(true);
        }
        src.Seek(src.pos - (ChunkHeaderSize - 1));
        return true;
      case Other =>
        tag.AddChunkSummary(SummaryOf(h));
        src.Skip(h.size);
    }
    EnsureOnEqualBoundary(src, h);
    return true;
  }

  /**
   * Reads the tag of the stream at the cursor: fails when the RIFF/WAVE header
   * is not valid; otherwise walks the chunks while the cursor is inside the
   * file and a chunk asks to go on, then fills in the missing sub-tags.
   */
  method Read(src: DataSource, table: ChunkTable, parsers: PayloadParsers) returns (r: Result<WavTag, ReadError>)
    modifies src
    ensures r.Failure? <==> !IsValidHeaderAt(src.bytes, old(src.pos))
    ensures r.Success? ==> fresh(r.value) && Success(r.value.Value()) == ReadTag(src.bytes, old(src.pos), table, parsers)
    ensures r.Success? ==> src.pos == Walk(src.bytes, table, parsers, old(src.pos) + RiffHeaderSize, EmptyTag).pos
  {
    var tag := new WavTag();
    ghost var start := src.pos;
    var valid := IsValidHeader(src);
    if valid {
      ghost var walked := Walk(src.bytes, table, parsers, start + RiffHeaderSize, EmptyTag);
      while src.pos < src.Size()
        invariant Walk(src.bytes, table, parsers, src.pos, tag.Value()) == walked
        decreases src.Size() - src.pos
      {
        var more := ReadChunk(src, tag, table, parsers);
        if !more {
          assert WalkState(src.pos, tag.Value()) == walked;
          break;
        }
      }
      assert WalkState(src.pos, tag.Value()) == walked;
    } else {
      return Failure(InvalidRiffHeader);
    }
    CreateDefaultMetadataTagsIfMissing(tag);
    return Success(tag);
  }
}
