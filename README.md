# WAV tag reader: a verified model of the RIFF chunk walk

This project models the chunk walker of jaudiotagger's `WavTagReader`: the
routine that reads the metadata of a WAV file. The file is a RIFF container. Each chunk is a
four-character identifier, a little-endian unsigned 32-bit payload size, the
payload, and one pad byte when the size is odd (chapter 2 of the Multimedia
Programming Interface and Data Specifications 1.0).

`read` checks the RIFF/WAVE header. It then calls `readChunk` while the
cursor is inside the file, and stops early when a call returns false.
Finally it installs an empty ID3 v2.3 tag and an empty INFO tag in whichever
slot is still empty. `readChunk` decodes one 8-byte header and dispatches on
the identifier's chunk type:

- LIST and ID3 chunks are logged, and their payload is parsed only while
  the matching slot is empty. A failed parse stops the walk.
- The three corrupt signatures (a LIST or ID3 header met one byte early or
  late) move the cursor to one byte after where the header began. They
  raise the misalignment flag only when both slots are empty.
- Other known chunks are logged and skipped.
- Unknown identifiers are neither logged nor skipped.

Every path that goes on, except the corrupt one, ends with the pad rule.

The model has two layers:

- Functions on values (`ChunkWalk.ChunkStep`, `ChunkWalk.Walk`,
  `ChunkWalk.ReadTag`, `WavTags.WithDefaults`) describe one step, the loop
  and the whole read.
- Imperative code works in place on a `DataSource` object (the file's bytes
  and a cursor) and a `WavTag` object (the two sub-tag slots, the chunk log
  and the flag). `WavTagReader.ReadChunk`, `WavTagReader.Read` and
  `WavTagReader.CreateDefaultMetadataTagsIfMissing` are proved equal to
  those functions.

The lemmas of `ChunkWalkProperties` state what each chunk type does, that
the log is kept in stream order, and that a sub-tag can only come from a
logged chunk of its type. They also work out one complete read.

Points where the model follows the code as written:

- The doc comment at `WavTagReader.java:99` says the last occurrence of a
  repeated chunk is used. The code at lines 124 and 151 parses a LIST or ID3
  payload only while its slot is empty, so the first occurrence wins.
  `ChunkWalk.Walk` proves the first-wins behaviour.
- A repeated LIST or ID3 chunk is logged, but its payload is not skipped.
  The `else` branches at lines 132-136 and 159-163 only log a warning, so
  the walk resumes right after the repeated chunk's header, plus the pad
  byte when its size is odd. `StepOnList` and `StepOnId3` state this.

Modules, one per file:

- `Wrappers`: Option and Result.
- `Bytes`: bytes, four-character codes and little-endian 32-bit values.
- `DataSources`: the cursor over the file.
- `Iff`: chunk header, chunk summary and the pad rule.
- `WavRiffHeader`: the container header.
- `WavChunkTypes`: the chunk types and the identifier table.
- `WavTags`: the tag aggregate.
- `ChunkWalk`: the walk as functions.
- `WavTagReader`: the reader's methods.
- `ChunkWalkProperties`: the lemmas.

## Model

| member | source | states |
|---|---|---|
| `Bytes.LE32` | src/org/jaudiotagger/audio/wav/WavTagReader.java:109 | the size field of a little-endian chunk header is an unsigned value below 2^32 |
| `Bytes.DecodeEncodeLE32` | src/org/jaudiotagger/audio/wav/WavTagReader.java:109 | decoding four little-endian bytes undoes encoding a 32-bit value |
| `Bytes.EncodeDecodeLE32` | src/org/jaudiotagger/audio/wav/WavTagReader.java:109 | every four bytes are the little-endian encoding of their decoded value |
| `Iff.DecodeHeader` | src/org/jaudiotagger/audio/wav/WavTagReader.java:109-113 | a header is read exactly when eight bytes remain at the cursor; it starts at the cursor and its size is below 2^32 |
| `Iff.DecodeEncodedHeader` | src/org/jaudiotagger/audio/wav/WavTagReader.java:109-113 | a chunk header written at any offset decodes to the identifier and size written, starting at that offset |
| `Iff.EncodeDecodedHeader` | src/org/jaudiotagger/audio/wav/WavTagReader.java:109-113 | every decoded header is the encoding of its identifier and size, so decoding loses nothing |
| `DataSources.DataSource.Seek` | src/org/jaudiotagger/audio/wav/WavTagReader.java:146 | moves the cursor to the given offset, as the corrupt branches do at lines 146, 172 and 181 |
| `DataSources.DataSource.Skip` | src/org/jaudiotagger/audio/wav/WavTagReader.java:186 | moves the cursor forward by exactly the given count without reading, as the default branch does with the chunk size |
| `DataSources.DataSource.Read` | src/org/jaudiotagger/audio/wav/WavTagReader.java:126 | a payload read returns the bytes from the cursor up to the requested count or the end of the file, and advances the cursor by the count it returned (also line 153) |
| `Iff.ReadHeader` | src/org/jaudiotagger/audio/wav/WavTagReader.java:109-113 | reading a header from the data source yields the decoded header and moves past its 8 bytes; with no full header, nothing moves |
| `Iff.PadStep` | src/org/jaudiotagger/audio/wav/WavTagReader.java:189 | the pad rule moves the cursor by at most one byte, by one exactly when the size is odd and the cursor is before the end, and never past the end |
| `Iff.EnsureOnEqualBoundary` | src/org/jaudiotagger/audio/wav/WavTagReader.java:189 | after a chunk of odd size the cursor skips one pad byte unless it is at the end of the file |
| `WavRiffHeader.IsValidHeaderAt` | src/org/jaudiotagger/audio/wav/WavTagReader.java:58 | an accepted header lies wholly inside the file; `EncodedRiffHeaderIsValid` and `ValidRiffHeaderIsEncoded` characterise it as exactly the "RIFF", size, "WAVE" encodings |
| `WavRiffHeader.EncodedRiffHeaderIsValid` | src/org/jaudiotagger/audio/wav/WavTagReader.java:58 | "RIFF", any size field and "WAVE" form a header the check accepts, whatever follows |
| `WavRiffHeader.ValidRiffHeaderIsEncoded` | src/org/jaudiotagger/audio/wav/WavTagReader.java:58 | every header the check accepts is "RIFF", its size field and "WAVE" |
| `WavRiffHeader.IsValidHeader` | src/org/jaudiotagger/audio/wav/WavTagReader.java:58 | the header check answers whether the bytes at the cursor form a RIFF/WAVE header and on success leaves the cursor right after it |
| `WavChunkTypes.Classify` | src/org/jaudiotagger/audio/wav/WavTagReader.java:117-118 | an identifier is recognised exactly when the table holds it, and then it gets the table's type; an unrecognised one plays the part of the null that skips the switch |
| `WavTags.WithDefaults` | src/org/jaudiotagger/audio/wav/WavTagReader.java:83-94 | afterwards both slots are filled; a filled slot keeps its tag; an empty ID3 slot gets an empty v2.3 tag and an empty INFO slot an empty INFO tag; log and flag unchanged |
| `WavTags.WithDefaultsIdempotent` | src/org/jaudiotagger/audio/wav/WavTagReader.java:83-94 | installing defaults a second time changes nothing |
| `WavTags.WavTag.constructor` | src/org/jaudiotagger/audio/wav/WavTagReader.java:57 | a new tag aggregate has no sub-tags, an empty chunk log and no misalignment flag |
| `WavTags.WavTag.AddChunkSummary` | src/org/jaudiotagger/audio/wav/WavTagReader.java:123 | appends one summary to the log and changes nothing else |
| `WavTags.WavTag.SetID3Tag` | src/org/jaudiotagger/audio/wav/WavTagReader.java:88 | fills the ID3 slot and changes nothing else |
| `WavTags.WavTag.SetInfoTag` | src/org/jaudiotagger/audio/wav/WavTagReader.java:92 | fills the INFO slot and changes nothing else |
| `WavTags.WavTag.SetIncorrectlyAlignedTag` | src/org/jaudiotagger/audio/wav/WavTagReader.java:144 | sets the misalignment flag and changes nothing else |
| `ChunkWalk.Payload` | src/org/jaudiotagger/audio/wav/WavTagReader.java:126 | the payload handed to a parser has at most size bytes, and exactly size bytes when the whole payload lies inside the file |
| `ChunkWalk.ListStep` | src/org/jaudiotagger/audio/wav/WavTagReader.java:122-137 | a LIST chunk appends its own summary and leaves the ID3 slot and the flag alone; with the INFO slot filled it goes on at the pad step after its header and keeps that tag; with the slot empty it goes on exactly when the payload parser succeeds; the cursor ends between the end of the header and the end of the file |
| `ChunkWalk.Id3Step` | src/org/jaudiotagger/audio/wav/WavTagReader.java:149-164 | the same as `ListStep` for an ID3 chunk, the ID3 slot and the ID3 parser, leaving the INFO slot alone |
| `ChunkWalk.CorruptStep` | src/org/jaudiotagger/audio/wav/WavTagReader.java:139-147 | a corrupt signature goes on at one byte after the header's start, logs nothing, keeps both slots, and leaves the flag set exactly when it was set or both slots are empty (the same for lines 166-182) |
| `ChunkWalk.ChunkStep` | src/org/jaudiotagger/audio/wav/WavTagReader.java:106-191 | a step that goes on moves the cursor strictly forward; with no full header it stops and changes nothing; it appends at most one summary, the one of the header at the cursor; filled slots keep their tags; a set flag stays set |
| `ChunkWalk.Walk` | src/org/jaudiotagger/audio/wav/WavTagReader.java:60-66 | the loop ends (the cursor only moves forward); the log only grows; the first ID3 and INFO tags installed are never replaced; a set flag stays set |
| `ChunkWalk.ReadTag` | src/org/jaudiotagger/audio/wav/WavTagReader.java:54-75 | the read fails exactly when the RIFF/WAVE header is invalid, and a successful read has both sub-tags filled, even after a walk stopped early |
| `WavTagReader.CreateDefaultMetadataTagsIfMissing` | src/org/jaudiotagger/audio/wav/WavTagReader.java:83-94 | updates the aggregate in place to its value with defaults installed |
| `WavTagReader.ReadListChunk` | src/org/jaudiotagger/audio/wav/WavTagReader.java:122-137 | the LIST branch logs the chunk, parses the payload only into an empty INFO slot, stops on a failed parse, and otherwise applies the pad rule, as one LIST step of the walk |
| `WavTagReader.ReadId3Chunk` | src/org/jaudiotagger/audio/wav/WavTagReader.java:149-164 | the ID3 branch does the same for the ID3 slot, as one ID3 step of the walk |
| `WavTagReader.ReadChunk` | src/org/jaudiotagger/audio/wav/WavTagReader.java:106-191 | the returned flag, the new cursor and the new aggregate are those of one step of the walk from the old cursor and aggregate |
| `WavTagReader.Read` | src/org/jaudiotagger/audio/wav/WavTagReader.java:54-75 | fails exactly when the header is invalid; otherwise returns a new aggregate equal to the read's result, with the cursor where the walk ended |
| `ChunkWalkProperties.StepOnList` | src/org/jaudiotagger/audio/wav/WavTagReader.java:122-137 | a LIST chunk is always logged with its offset and size; it is parsed only when the INFO slot is empty, and a failed parse stops the walk; a duplicate changes nothing but the log, and the walk resumes after its header and pad byte |
| `ChunkWalkProperties.StepOnId3` | src/org/jaudiotagger/audio/wav/WavTagReader.java:149-164 | the same as for LIST, for ID3 chunks and the ID3 slot |
| `ChunkWalkProperties.StepOnCorrupt` | src/org/jaudiotagger/audio/wav/WavTagReader.java:139-147 | for each of the three corrupt signatures (also lines 166-182): the walk goes on one byte after the header's start, nothing is logged, no pad byte is skipped, and the flag is raised exactly when both slots are empty |
| `ChunkWalkProperties.StepOnOther` | src/org/jaudiotagger/audio/wav/WavTagReader.java:184-189 | a known non-metadata chunk is logged once and skipped: the next header is read at start + 8 + size, plus one when size is odd and the file goes on |
| `ChunkWalkProperties.StepOnUnrecognised` | src/org/jaudiotagger/audio/wav/WavTagReader.java:117-118 | an identifier missing from the table changes nothing in the aggregate, and the walk goes on right after its header, past the pad byte when its size is odd (line 189) |
| `ChunkWalkProperties.WalkLogsInStreamOrder` | src/org/jaudiotagger/audio/wav/WavTagReader.java:60-66 | the summaries the walk appends have strictly increasing offsets, none before the walk's start, each with its whole header inside the file |
| `ChunkWalkProperties.WalkFillsId3OnlyFromId3Chunk` | src/org/jaudiotagger/audio/wav/WavTagReader.java:149-158 | a walk that starts without an ID3 tag ends with one only if it logged a chunk of type ID3 |
| `ChunkWalkProperties.WalkFillsInfoOnlyFromListChunk` | src/org/jaudiotagger/audio/wav/WavTagReader.java:122-131 | a walk that starts without an INFO tag ends with one only if it logged a chunk of type LIST |
| `ChunkWalkProperties.NoMetadataChunksGiveDefaults` | src/org/jaudiotagger/audio/wav/WavTagReader.java:83-94 | a file whose walk logs no ID3 chunk ends with the default ID3 v2.3 tag; one whose walk logs no LIST chunk ends with the default INFO tag |
| `ChunkWalkProperties.ReadSmallFile` | src/org/jaudiotagger/audio/wav/WavTagReader.java:54-75 | a header, a LIST chunk of 8 bytes and an ID3 chunk of 5 bytes with its pad byte read to both parsed tags, log entries at offsets 12 and 28, no misalignment, and a walk ending at the end of the file |

## Left out

- The identifier-to-type table of `WavChunkType` is not part of this model. It is a parameter (`ChunkTable`). An identifier missing from it plays the part of the `null` that `WavChunkType.get` returns.
- Parsing of LIST/INFO and ID3 payloads (`WavListChunk`, `WavId3Chunk` and the tag classes) is not part of this model. Each parser is a function from the payload bytes to the sub-tag it installs, if any, and a success flag. Their use of the chunk header's file offsets is not modelled.
- `WavRIFFHeader` is not part of this model. The check follows the RIFF layout: "RIFF", a size field that is not checked, then "WAVE" at the cursor. On success it leaves the cursor right after these 12 bytes. Fewer than 12 bytes count as an invalid header, which leads to the same read failure.
- `ChunkHeader` is not part of this model. The offset recorded in a summary is where the chunk header begins. When fewer than 8 bytes remain, no header is read and the cursor stays where it was.
- ChunkStep: every chunk size is read as an unsigned 32-bit value. The `(int)` casts at lines 126, 153 and 186 turn sizes of 2^31 or more negative, and that is not modelled. A precondition excluding such sizes would have to range over every header the walk can reach. For a recognised chunk with such a size, the source passes a negative count to `dataSource.skip` (line 186) or to `readFileDataIntoBufferLE` (lines 126 and 153). The progress and termination proved for `ChunkStep` and `Walk` therefore hold for sizes read as unsigned, and say nothing about how the source's loop behaves on such input.
- ChunkStep: a payload read that runs past the end of the file hands the parser only the bytes that exist, and stops the cursor at the end. The zero-filled tail of a short buffer read is not modelled. Skipping an unparsed chunk may move the cursor past the end, which ends the loop.
- I/O failures (`IOException`) are not modelled: the file's bytes are a value, and reads past the end return fewer bytes.
- Logging (lines 45, 56, 73, 116, 134, 140, 161, 167 and 176) is not modelled.
- The global options passed to the `WavTag` constructor (line 57) are not modelled.
- `WavFileReader` and the tag synchronisation it may run after the read are not modelled.
- The `WavTag` flags `isExistingId3Tag` and `isExistingInfoTag` (lines 85 and 90) are taken to mean the same as a filled slot (lines 124, 142 and 151). The aggregate has one slot per sub-tag.
