/**
 * The chunk walk as functions of the file's bytes: one step per chunk header,
 * the walk that repeats it while the cursor is inside the file, and the whole
 * tag read (header check, walk, default sub-tags).
 */
module ChunkWalk {
  import opened Wrappers
  import opened Bytes
  import opened Iff
  import opened WavChunkTypes
  import opened WavTags
  import opened WavRiffHeader

  /** What a payload parser reports: the sub-tag it installed, if any, and whether it succeeded. */
  datatype PayloadResult<T> = PayloadResult(tag: Option<T>, ok: bool)

  /** The parsers of LIST/INFO and ID3 payloads, given the payload bytes. */
  datatype PayloadParsers = PayloadParsers(
    list: seq<byte> -> PayloadResult<InfoTag>,
    id3: seq<byte> -> PayloadResult<Id3Tag>)

  /** The outcome of one step: whether to go on, the cursor, the aggregate. */
  datatype StepResult = StepResult(more: bool, pos: nat, tag: TagState)

  datatype WalkState = WalkState(pos: nat, tag: TagState)

  datatype ReadError = InvalidRiffHeader

  /** Where a payload read of size bytes from p stops: at p + size, or at the end of the file. */
  function PayloadEnd(bytes: seq<byte>, p: nat, size: nat): nat
  {
    if p + size <= |bytes| then p + size else if p <= |bytes| then |bytes| else p
  }

  /** The bytes a payload read of size bytes from p yields. */
  function Payload(bytes: seq<byte>, p: nat, size: nat): (data: seq<byte>)
    requires p <= |bytes|
    ensures |data| <= size
    ensures p + size <= |bytes| ==> |data| == size
  {
    bytes[p..PayloadEnd(bytes, p, size)]
  }

  /** Logs the chunk and, unless the slot is filled, parses its payload as an INFO list. */
  function ListStep(bytes: seq<byte>, parsers: PayloadParsers, h: ChunkHeader, tag: TagState): (r: StepResult)
    requires h.start + ChunkHeaderSize <= |bytes|
    ensures r.tag.summaries == tag.summaries + [SummaryOf(h)]
    ensures r.tag.id3 == tag.id3 && r.tag.misaligned == tag.misaligned
    ensures tag.info.Some? ==> r.more && r.tag.info == tag.info && r.pos == PadStep(bytes, h.start + ChunkHeaderSize, h.size)
    ensures tag.info.None? ==> (r.more <==> parsers.list(Payload(bytes, h.start + ChunkHeaderSize, h.size)).ok)
    ensures h.start + ChunkHeaderSize <= r.pos <= |bytes|
  {
    var body := h.start + ChunkHeaderSize;
    var logged := tag.(summaries := tag.summaries + [SummaryOf(h)]);
    if logged.info.Some? then StepResult(true, PadStep(bytes, body, h.size), logged)
    else
      var end := PayloadEnd(bytes, body, h.size);
      var res := parsers.list(Payload(bytes, body, h.size));
      var filled := if res.tag.Some? then logged.(info := res.tag) else logged;
      if res.ok then StepResult(true, PadStep(bytes, end, h.size), filled)
      else StepResult(false, end, filled)
  }

  /** Logs the chunk and, unless the slot is filled, parses its payload as an ID3 tag. */
  function Id3Step(bytes: seq<byte>, parsers: PayloadParsers, h: ChunkHeader, tag: TagState): (r: StepResult)
    requires h.start + ChunkHeaderSize <= |bytes|
    ensures r.tag.summaries == tag.summaries + [SummaryOf(h)]
    ensures r.tag.info == tag.info && r.tag.misaligned == tag.misaligned
    ensures tag.id3.Some? ==> r.more && r.tag.id3 == tag.id3 && r.pos == PadStep(bytes, h.start + ChunkHeaderSize, h.size)
    ensures tag.id3.None? ==> (r.more <==> parsers.id3(Payload(bytes, h.start + ChunkHeaderSize, h.size)).ok)
    ensures h.start + ChunkHeaderSize <= r.pos <= |bytes|
  {
    var body := h.start + ChunkHeaderSize;
    var logged := tag.(summaries := tag.summaries + [SummaryOf(h)]);
    if logged.id3.Some? then StepResult(true, PadStep(bytes, body, h.size), logged)
    else
      var end := PayloadEnd(bytes, body, h.size);
      var res := parsers.id3(Payload(bytes, body, h.size));
      var filled := if res.tag.Some? then logged.(id3 := res.tag) else logged;
      if res.ok then StepResult(true, PadStep(bytes, end, h.size), filled)
      else StepResult(false, end, filled)
  }

  /**
   * One call of the reader's per-chunk routine at cursor pos. It stops the
   * walk, leaving everything as it was, when no full header fits; otherwise
   * it dispatches on the header's type.
   */
  function ChunkStep(bytes: seq<byte>, table: ChunkTable, parsers: PayloadParsers, pos: nat, tag: TagState): (r: StepResult)
    ensures r.more ==> pos < r.pos
    ensures pos <= r.pos
    ensures DecodeHeader(bytes, pos).None? ==> r == StepResult(false, pos, tag)
    ensures tag.summaries <= r.tag.summaries && |r.tag.summaries| <= |tag.summaries| + 1
    ensures |r.tag.summaries| == |tag.summaries| + 1 ==>
              DecodeHeader(bytes, pos).Some? &&
              r.tag.summaries[|tag.summaries|] == SummaryOf(DecodeHeader(bytes, pos).value)
    ensures tag.id3.Some? ==> r.tag.id3 == tag.id3
    ensures tag.info.Some? ==> r.tag.info == tag.info
    ensures tag.misaligned ==> r.tag.misaligned
  {
    match DecodeHeader(bytes, pos)
    case None => StepResult(false, pos, tag)
    case Some(h) =>
      var body := pos + ChunkHeaderSize;
      match Classify(table, h.id)
      case None => StepResult(true, PadStep(bytes, body, h.size), tag)
      case Some(List) => ListStep(bytes, parsers, h, tag)
      case Some(Id3) => Id3Step(bytes, parsers, h, tag)
      case Some(CorruptList) => CorruptStep(pos, tag)
      case Some(CorruptId3Early) => CorruptStep(pos, tag)
      case Some(CorruptId3Late) => CorruptStep(pos, tag)
      case Some(Other) =>
        var logged := tag.(summaries := tag.summaries + [SummaryOf(h)]);
        StepResult(true, PadStep(bytes, body + h.size, h.size), logged)
  }

  /**
   * A corrupt signature at pos: flag the misalignment when no sub-tag has been
   * read yet, and move back to one byte after pos, the header size less one
   * before the end of the header just read.
   */
  function CorruptStep(pos: nat, tag: TagState): (r: StepResult)
    ensures r.more && r.pos == pos + 1
    ensures r.tag.summaries == tag.summaries && r.tag.id3 == tag.id3 && r.tag.info == tag.info
    ensures r.tag.misaligned <==> tag.misaligned || (tag.info.None? && tag.id3.None?)
  {
    var flagged := if tag.info.None? && tag.id3.None? then tag.(misaligned := true) else tag;
    StepResult(true, pos + ChunkHeaderSize - (ChunkHeaderSize - 1), flagged)
  }

  /**
   * The loop of the reader: steps while the cursor is inside the file and the
   * last step asked to go on. Slots once filled keep their tags (the first
   * occurrence of a metadata chunk wins), the log only grows, and the flag
   * once set stays set.
   */
  function Walk(bytes: seq<byte>, table: ChunkTable, parsers: PayloadParsers, pos: nat, tag: TagState): (r: WalkState)
    decreases |bytes| - pos
    ensures pos <= r.pos
    ensures tag.summaries <= r.tag.summaries
    ensures tag.id3.Some? ==> r.tag.id3 == tag.id3
    ensures tag.info.Some? ==> r.tag.info == tag.info
    ensures tag.misaligned ==> r.tag.misaligned
  {
    if |bytes| <= pos then WalkState(pos, tag)
    else
      var s := ChunkStep(bytes, table, parsers, pos, tag);
      if !s.more then WalkState(s.pos, s.tag)
      else Walk(bytes, table, parsers, s.pos, s.tag)
  }

  /**
   * The whole read of a stream whose cursor starts at start: a failure when
   * the RIFF/WAVE header is not there; otherwise the walk from just after it,
   * with both sub-tags filled in afterwards.
   */
  function ReadTag(bytes: seq<byte>, start: nat, table: ChunkTable, parsers: PayloadParsers): (r: Result<TagState, ReadError>)
    ensures r.Failure? <==> !IsValidHeaderAt(bytes, start)
    ensures r.Success? ==> r.value.id3.Some? && r.value.info.Some?
  {
    if !IsValidHeaderAt(bytes, start) then Failure(InvalidRiffHeader)
    else Success(WithDefaults(Walk(bytes, table, parsers, start + RiffHeaderSize, EmptyTag).tag))
  }
}
