/**
 * Properties of the chunk walk: what one step does for each chunk type, the
 * order of the chunk log, where the sub-tags can come from, and a complete
 * read of a small file.
 */
module ChunkWalkProperties {
  import opened Wrappers
  import opened Bytes
  import opened Iff
  import opened WavChunkTypes
  import opened WavTags
  import opened WavRiffHeader
  import opened ChunkWalk

  /**
   * A LIST chunk is always logged. Its payload is parsed only when there is
   * no INFO tag yet, and a failed parse stops the walk; a duplicate is logged
   * and otherwise ignored: the walk resumes right after its header (plus the
   * pad byte), without skipping its payload.
   */
  lemma StepOnList(bytes: seq<byte>, table: ChunkTable, parsers: PayloadParsers, pos: nat, tag: TagState)
    requires DecodeHeader(bytes, pos).Some?
    requires Classify(table, DecodeHeader(bytes, pos).value.id) == Some(List)
    ensures var h := DecodeHeader(bytes, pos).value;
            var r := ChunkStep(bytes, table, parsers, pos, tag);
            var end := PayloadEnd(bytes, pos + ChunkHeaderSize, h.size);
            var res := parsers.list(Payload(bytes, pos + ChunkHeaderSize, h.size));
            && r.tag.summaries == tag.summaries + [ChunkSummary(h.id, pos, h.size)]
            && r.tag.id3 == tag.id3 && r.tag.misaligned == tag.misaligned
            && (tag.info.Some? ==>
                  r.more && r.tag.info == tag.info && r.pos == PadStep(bytes, pos + ChunkHeaderSize, h.size))
            && (tag.info.None? ==>
                  && r.tag.info == res.tag
                  && (r.more <==> res.ok)
                  && r.pos == (if res.ok then PadStep(bytes, end, h.size) else end))
  {
  }

  /** An ID3 chunk behaves as a LIST chunk does, for the ID3 slot. */
  lemma StepOnId3(bytes: seq<byte>, table: ChunkTable, parsers: PayloadParsers, pos: nat, tag: TagState)
    requires DecodeHeader(bytes, pos).Some?
    requires Classify(table, DecodeHeader(bytes, pos).value.id) == Some(Id3)
    ensures var h := DecodeHeader(bytes, pos).value;
            var r := ChunkStep(bytes, table, parsers, pos, tag);
            var end := PayloadEnd(bytes, pos + ChunkHeaderSize, h.size);
            var res := parsers.id3(Payload(bytes, pos + ChunkHeaderSize, h.size));
            && r.tag.summaries == tag.summaries + [ChunkSummary(h.id, pos, h.size)]
            && r.tag.info == tag.info && r.tag.misaligned == tag.misaligned
            && (tag.id3.Some? ==>
                  r.more && r.tag.id3 == tag.id3 && r.pos == PadStep(bytes, pos + ChunkHeaderSize, h.size))
            && (tag.id3.None? ==>
                  && r.tag.id3 == res.tag
                  && (r.more <==> res.ok)
                  && r.pos == (if res.ok then PadStep(bytes, end, h.size) else end))
  {
  }

  /**
   * A corrupt signature resynchronises the walk one byte after where its
   * header started. Nothing is logged, no pad byte is skipped, the sub-tags
   * are untouched, and the flag is raised exactly when no sub-tag is present.
   */
  lemma StepOnCorrupt(bytes: seq<byte>, table: ChunkTable, parsers: PayloadParsers, pos: nat, tag: TagState)
    requires DecodeHeader(bytes, pos).Some?
    requires Classify(table, DecodeHeader(bytes, pos).value.id) in {Some(CorruptList), Some(CorruptId3Early), Some(CorruptId3Late)}
    ensures var r := ChunkStep(bytes, table, parsers, pos, tag);
            && r.more && r.pos == pos + 1
            && r.tag.summaries == tag.summaries
            && r.tag.id3 == tag.id3 && r.tag.info == tag.info
            && r.tag.misaligned == (tag.misaligned || (tag.id3.None? && tag.info.None?))
  {
  }

  /**
   * Any other known chunk is logged and skipped: the next header is read
   * size bytes after this header, one byte further when size is odd and the
   * file goes on.
   */
  lemma StepOnOther(bytes: seq<byte>, table: ChunkTable, parsers: PayloadParsers, pos: nat, tag: TagState)
    requires DecodeHeader(bytes, pos).Some?
    requires Classify(table, DecodeHeader(bytes, pos).value.id) == Some(Other)
    ensures var h := DecodeHeader(bytes, pos).value;
            var r := ChunkStep(bytes, table, parsers, pos, tag);
            var next := pos + ChunkHeaderSize + h.size;
            && r.more
            && r.tag == tag.(summaries := tag.summaries + [ChunkSummary(h.id, pos, h.size)])
            && r.pos == (if h.size % 2 == 1 && next < |bytes| then next + 1 else next)
  {
  }

  /**
   * An identifier the table does not know is neither logged nor skipped: the
   * walk goes on right after its header, past the pad byte when its size is odd.
   */
  lemma StepOnUnrecognised(bytes: seq<byte>, table: ChunkTable, parsers: PayloadParsers, pos: nat, tag: TagState)
    requires DecodeHeader(bytes, pos).Some?
    requires Classify(table, DecodeHeader(bytes, pos).value.id).None?
    ensures var h := DecodeHeader(bytes, pos).value;
            var r := ChunkStep(bytes, table, parsers, pos, tag);
            var next := pos + ChunkHeaderSize;
            && r.more && r.tag == tag
            && r.pos == (if h.size % 2 == 1 && next < |bytes| then next + 1 else next)
  {
  }

  /** The log entries from index from on have strictly increasing start offsets, all at least lo. */
  ghost predicate LoggedInStreamOrder(log: seq<ChunkSummary>, from: nat, lo: nat, bytes: seq<byte>)
  {
    && (forall i, j :: from <= i < j < |log| ==> log[i].start < log[j].start)
    && (forall i :: from <= i < |log| ==> lo <= log[i].start && log[i].start + ChunkHeaderSize <= |bytes|)
  }

  /**
   * The chunks the walk logs are logged in stream order: their offsets
   * strictly increase, none lies before where the walk began, and each one's
   * full header lies inside the file.
   */
  lemma {:induction false} WalkLogsInStreamOrder(bytes: seq<byte>, table: ChunkTable, parsers: PayloadParsers, pos: nat, tag: TagState)
    decreases |bytes| - pos
    ensures LoggedInStreamOrder(Walk(bytes, table, parsers, pos, tag).tag.summaries, |tag.summaries|, pos, bytes)
  {
    if pos < |bytes| {
      var s := ChunkStep(bytes, table, parsers, pos, tag);
      if s.more {
        WalkLogsInStreamOrder(bytes, table, parsers, s.pos, s.tag);
        var log := Walk(bytes, table, parsers, s.pos, s.tag).tag.summaries;
        if |s.tag.summaries| == |tag.summaries| + 1 {
          assert log[|tag.summaries|] == s.tag.summaries[|tag.summaries|];
        }
      }
    }
  }

  /**
   * Starting without an ID3 tag, the walk ends with one only if it logged a
   * chunk of type Id3.
   */
  lemma {:induction false} WalkFillsId3OnlyFromId3Chunk(bytes: seq<byte>, table: ChunkTable, parsers: PayloadParsers, pos: nat, tag: TagState)
    requires tag.id3.None?
    decreases |bytes| - pos
    ensures var r := Walk(bytes, table, parsers, pos, tag).tag;
            r.id3.Some? ==> exists i :: |tag.summaries| <= i < |r.summaries| && Classify(table, r.summaries[i].id) == Some(Id3)
  {
    if pos < |bytes| {
      var s := ChunkStep(bytes, table, parsers, pos, tag);
      var r := Walk(bytes, table, parsers, pos, tag).tag;
      if s.tag.id3.Some? {
        var i := |tag.summaries|;
        assert |s.tag.summaries| == i + 1 && Classify(table, s.tag.summaries[i].id) == Some(Id3);
        assert r.summaries[i] == s.tag.summaries[i];
      } else if s.more {
        WalkFillsId3OnlyFromId3Chunk(bytes, table, parsers, s.pos, s.tag);
      }
    }
  }

  /**
   * Starting without an INFO tag, the walk ends with one only if it logged a
   * chunk of type List.
   */
  lemma {:induction false} WalkFillsInfoOnlyFromListChunk(bytes: seq<byte>, table: ChunkTable, parsers: PayloadParsers, pos: nat, tag: TagState)
    requires tag.info.None?
    decreases |bytes| - pos
    ensures var r := Walk(bytes, table, parsers, pos, tag).tag;
            r.info.Some? ==> exists i :: |tag.summaries| <= i < |r.summaries| && Classify(table, r.summaries[i].id) == Some(List)
  {
    if pos < |bytes| {
      var s := ChunkStep(bytes, table, parsers, pos, tag);
      var r := Walk(bytes, table, parsers, pos, tag).tag;
      if s.tag.info.Some? {
        var i := |tag.summaries|;
        assert |s.tag.summaries| == i + 1 && Classify(table, s.tag.summaries[i].id) == Some(List);
        assert r.summaries[i] == s.tag.summaries[i];
      } else if s.more {
        WalkFillsInfoOnlyFromListChunk(bytes, table, parsers, s.pos, s.tag);
      }
    }
  }

  /**
   * A file whose walk logs no ID3 chunk ends with the default ID3 v2.3 tag,
   * and one whose walk logs no LIST chunk ends with the default INFO tag.
   */
  lemma NoMetadataChunksGiveDefaults(bytes: seq<byte>, start: nat, table: ChunkTable, parsers: PayloadParsers)
    requires IsValidHeaderAt(bytes, start)
    ensures var log := Walk(bytes, table, parsers, start + RiffHeaderSize, EmptyTag).tag.summaries;
            var t := ReadTag(bytes, start, table, parsers).value;
            && ((forall i :: 0 <= i < |log| ==> Classify(table, log[i].id) != Some(Id3)) ==> t.id3 == Some(DefaultId3Tag))
            && ((forall i :: 0 <= i < |log| ==> Classify(table, log[i].id) != Some(List)) ==> t.info == Some(DefaultInfoTag))
  {
    WalkFillsId3OnlyFromId3Chunk(bytes, table, parsers, start + RiffHeaderSize, EmptyTag);
    WalkFillsInfoOnlyFromListChunk(bytes, table, parsers, start + RiffHeaderSize, EmptyTag);
  }

  /** A file holding one LIST chunk of 8 bytes, then one ID3 chunk of 5 bytes and its pad byte. */
  function SmallFile(riffSize: nat, listId: FourCC, info: seq<byte>, id3Id: FourCC, id3: seq<byte>): seq<byte>
    requires riffSize < Two32 && |info| == 8 && |id3| == 5
  {
    EncodeRiffHeader(riffSize) + EncodeHeader(listId, 8) + info + EncodeHeader(id3Id, 5) + id3 + [0]
  }

  /**
   * Reading that file yields the INFO tag parsed from the 8-byte payload, the
   * ID3 tag parsed from the 5-byte payload, two log entries at offsets 12 and
   * 28, no misalignment, and a walk that ends exactly at the end of the file.
   */
  lemma ReadSmallFile(riffSize: nat, listId: FourCC, info: seq<byte>, id3Id: FourCC, id3: seq<byte>,
                      table: ChunkTable, parsers: PayloadParsers, infoTag: InfoTag, id3Tag: Id3Tag)
    requires riffSize < Two32 && |info| == 8 && |id3| == 5
    requires Classify(table, listId) == Some(List) && Classify(table, id3Id) == Some(Id3)
    requires parsers.list(info) == PayloadResult(Some(infoTag), true)
    requires parsers.id3(id3) == PayloadResult(Some(id3Tag), true)
    ensures var bytes := SmallFile(riffSize, listId, info, id3Id, id3);
            && ReadTag(bytes, 0, table, parsers)
               == Success(TagState(Some(id3Tag), Some(infoTag),
                                   [ChunkSummary(listId, 12, 8), ChunkSummary(id3Id, 28, 5)], false))
            && Walk(bytes, table, parsers, RiffHeaderSize, EmptyTag).pos == |bytes| == 42
  {
    var bytes := SmallFile(riffSize, listId, info, id3Id, id3);
    var riff := EncodeRiffHeader(riffSize);
    var listHeader := EncodeHeader(listId, 8);
    var id3Header := EncodeHeader(id3Id, 5);
    EncodedRiffHeaderIsValid(riffSize, listHeader + info + id3Header + id3 + [0]);
    assert bytes == riff + (listHeader + info + id3Header + id3 + [0]);
    assert IsValidHeaderAt(bytes, 0);

    assert bytes == riff + listHeader + (info + id3Header + id3 + [0]);
    DecodeEncodedHeader(riff, listId, 8, info + id3Header + id3 + [0]);
    assert bytes[20..28] == info;
    var t1 := EmptyTag.(summaries := [ChunkSummary(listId, 12, 8)], info := Some(infoTag));
    assert ChunkStep(bytes, table, parsers, 12, EmptyTag) == StepResult(true, 28, t1);

    assert bytes == (riff + listHeader + info) + id3Header + (id3 + [0]);
    DecodeEncodedHeader(riff + listHeader + info, id3Id, 5, id3 + [0]);
    assert bytes[36..41] == id3;
    var t2 := t1.(summaries := t1.summaries + [ChunkSummary(id3Id, 28, 5)], id3 := Some(id3Tag));
    assert ChunkStep(bytes, table, parsers, 28, t1) == StepResult(true, 42, t2);

    assert Walk(bytes, table, parsers, 42, t2) == WalkState(42, t2);
    assert Walk(bytes, table, parsers, 28, t1) == WalkState(42, t2);
    assert Walk(bytes, table, parsers, 12, EmptyTag) == WalkState(42, t2);
    assert t2 == TagState(Some(id3Tag), Some(infoTag), [ChunkSummary(listId, 12, 8), ChunkSummary(id3Id, 28, 5)], false);
    assert WithDefaults(t2) == t2;
  }
}
