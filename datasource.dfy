/**
 * The seekable byte source the reader walks: the file's bytes and one
 * mutable cursor. Reading at or past the end yields fewer bytes; seeking
 * and skipping may place the cursor beyond the end.
 */
module DataSources {
  import opened Bytes

  class DataSource {
    const bytes: seq<byte>
    var pos: nat

    constructor (bytes: seq<byte>)
      ensures this.bytes == bytes && pos == 0
    {
      this.bytes := bytes;
      pos := 0;
    }

    /** Length of the underlying file. */
    function Size(): nat
    {
      |bytes|
    }

    /** Moves the cursor to an absolute offset. */
    method Seek(p: nat)
      modifies this
      ensures pos == p
    {
      pos := p;
    }

    /** Moves the cursor forward by n bytes without reading them. */
    method Skip(n: nat)
      modifies this
      ensures pos == old(pos) + n
    {
      pos := pos + n;
    }

    /** Reads up to n bytes: those between the cursor and the end of the file. */
    method Read(n: nat) returns (data: seq<byte>)
      modifies this
      ensures old(pos) <= |bytes| ==> data == bytes[old(pos)..if old(pos) + n <= |bytes| then old(pos) + n else |bytes|]
      ensures |bytes| < old(pos) ==> data == []
      ensures pos == old(pos) + |data|
    {
      if pos > |bytes| {
        data := [];
      } else {
        var end := if pos + n <= |bytes| then pos + n else |bytes|;
        data := bytes[pos..end];
        pos := end;
      }
    }
  }
}
