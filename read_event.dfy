/**
 * `read_event.rs`: the thread that reads a file being sent, block by block,
 * and hands each block to a callback as a chunk. The callback's calls are
 * the result of the modelled thread, in order.
 */
module ReadEvent {
  import opened Wrappers
  import opened Bytes
  import opened Files

  /** `read_event::Chunk` */
  datatype FileChunk = FileChunk(id: nat, fileName: string, data: seq<byte>, bytesRead: nat, fileSize: nat)

  /** The read buffer's size (`BLOCK`). */
  const Block: nat := 65536

  /** The file's size and the open file, or the first error met getting them. */
  function Prepare(fs: FileSystem, path: string): (r: Result<(FileEntry, nat), string>)
    ensures fs.metadata(path).Err? ==> r == Err(fs.metadata(path).error)
    ensures fs.metadata(path).Ok? && fs.open(path).Err? ==> r == Err(fs.open(path).error)
    ensures r.Ok? ==> fs.metadata(path) == Ok(r.value.1) && fs.open(path) == Ok(r.value.0)
  {
    match fs.metadata(path)
    case Err(e) => Err(e)
    case Ok(size) =>
      match fs.open(path)
      case Err(e) => Err(e)
      case Ok(entry) => Ok((entry, size))
  }

  /**
   * The callback's calls from position pos on: a chunk per read, up to and
   * including the first empty chunk or the read error.
   */
  function Events(entry: FileEntry, pos: nat, id: nat, fileName: string, fileSize: nat): (r: seq<Result<FileChunk, string>>)
    requires pos <= |entry.content|
    ensures |r| >= 1
    decreases |entry.content| - pos
  {
    if entry.failsAt == Some(pos) then [Err(entry.failure)]
    else
      var n := Min(Block, |entry.content| - pos);
      [Ok(FileChunk(id, fileName, entry.content[pos..pos + n], n, fileSize))]
        + (if n == 0 then [] else Events(entry, pos + n, id, fileName, fileSize))
  }

  /** Everything the thread passes to the callback for one file. */
  function SendEvents(fs: FileSystem, path: string, id: nat, fileName: string): (r: seq<Result<FileChunk, string>>)
    ensures |r| >= 1
  {
    match Prepare(fs, path)
    case Err(e) => [Err(e)]
    case Ok((entry, size)) => Events(entry, 0, id, fileName, size)
  }

  /** The body of the thread `ReadFile::send` starts (between reads it parks, which is not modelled). */
  method ReadThread(fs: FileSystem, id: nat, fileName: string, path: string) returns (events: seq<Result<FileChunk, string>>)
    ensures events == SendEvents(fs, path, id, fileName)
  {
    var prepared := Prepare(fs, path);
    if prepared.Err? {
      events := [Err(prepared.error)];
      return;
    }
    var (entry, size) := prepared.value;
    var file := new OpenFile(entry);
    events := ReadAll(file, entry, id, fileName, size);
  }

  /** The read loop: reads until the callback has had the empty chunk or the error. */
  method ReadAll(file: OpenFile, entry: FileEntry, id: nat, fileName: string, size: nat)
    returns (events: seq<Result<FileChunk, string>>)
    requires Reading(file, entry)
    modifies file
    ensures events == Events(entry, old(file.pos), id, fileName, size)
  {
    ghost var start := file.pos;
    events := [];
    while true
      invariant Reading(file, entry)
      invariant events + Events(entry, file.pos, id, fileName, size) == Events(entry, start, id, fileName, size)
      decreases |file.content| - file.pos
    {
      ghost var before := events;
      var e, last := ReadChunk(file, entry, id, fileName, size);
      events := events + [e];
      if last {
        break;
      }
      AppendOne(before, e, Events(entry, file.pos, id, fileName, size));
    }
  }

  /** The open file reads the entry's bytes and faults. */
  ghost predicate Reading(file: OpenFile, entry: FileEntry)
    reads file
  {
    file.Valid() && file.content == entry.content && file.failsAt == entry.failsAt && file.failure == entry.failure
  }

  lemma AppendOne<T>(a: seq<T>, x: T, b: seq<T>)
    ensures (a + [x]) + b == a + ([x] + b)
  {
  }

  /** One read and the chunk (or error) it hands to the callback; `last` when the thread stops after it. */
  method ReadChunk(file: OpenFile, entry: FileEntry, id: nat, fileName: string, size: nat)
    returns (e: Result<FileChunk, string>, last: bool)
    requires Reading(file, entry)
    modifies file
    ensures Reading(file, entry)
    ensures last ==> Events(entry, old(file.pos), id, fileName, size) == [e]
    ensures !last ==> old(file.pos) < file.pos
    ensures !last ==> Events(entry, old(file.pos), id, fileName, size) == [e] + Events(entry, file.pos, id, fileName, size)
  {
    ghost var pos := file.pos;
    EventsLast(entry, pos, id, fileName, size);
    var r := file.Read(Block);
    if r.Err? {
      return Err(r.error), true;
    }
    var data := r.value;
    e := Ok(FileChunk(id, fileName, data, |data|, size));
    last := |data| == 0;
    if !last {
      EventsStep(entry, pos, id, fileName, size);
    }
  }

  /** When the size or the file cannot be had, the callback is called once, with the error, and never with a chunk. */
  lemma PrepareFailure(fs: FileSystem, path: string, id: nat, fileName: string)
    requires Prepare(fs, path).Err?
    ensures SendEvents(fs, path, id, fileName) == [Err(Prepare(fs, path).error)]
  {
  }

  /** From any position, the reader's calls are `Shaped`. */
  lemma {:induction false} EventsShape(entry: FileEntry, pos: nat, id: nat, fileName: string, fileSize: nat)
    requires pos <= |entry.content|
    ensures Shaped(Events(entry, pos, id, fileName, fileSize), id, fileName, fileSize)
    decreases |entry.content| - pos
  {
    EventsLast(entry, pos, id, fileName, fileSize);
    if entry.failsAt != Some(pos) && pos < |entry.content| {
      var n := Min(Block, |entry.content| - pos);
      EventsStep(entry, pos, id, fileName, fileSize);
      EventsShape(entry, pos + n, id, fileName, fileSize);
      ShapedCons(FileChunk(id, fileName, entry.content[pos..pos + n], n, fileSize), Events(entry, pos + n, id, fileName, fileSize));
    }
  }

  /**
   * The callback's calls: chunks carrying the file's id, name and size and exactly their bytes
   * read, at most a block; every call but the last a non-empty chunk; the
   * last an error or an empty chunk.
   */
  predicate Shaped(r: seq<Result<FileChunk, string>>, id: nat, fileName: string, fileSize: nat)
  {
    && r != []
    && (forall i :: 0 <= i < |r| && r[i].Ok? ==>
          && r[i].value.id == id && r[i].value.fileName == fileName && r[i].value.fileSize == fileSize
          && |r[i].value.data| == r[i].value.bytesRead <= Block)
    && (forall i :: 0 <= i < |r| - 1 ==> r[i].Ok? && r[i].value.bytesRead > 0)
    && (r[|r| - 1].Err? || r[|r| - 1].value.bytesRead == 0)
  }

  lemma ShapedCons(c: FileChunk, rest: seq<Result<FileChunk, string>>)
    requires Shaped(rest, c.id, c.fileName, c.fileSize)
    requires |c.data| == c.bytesRead <= Block && c.bytesRead > 0
    ensures Shaped([Ok(c)] + rest, c.id, c.fileName, c.fileSize)
  {
    var r := [Ok(c)] + rest;
    assert forall i :: 1 <= i < |r| ==> r[i] == rest[i - 1];
  }

  /** The bytes of the Ok chunks, in order. */
  function ChunkData(events: seq<Result<FileChunk, string>>): seq<byte>
  {
    if events == [] then []
    else (if events[0].Ok? then events[0].value.data else []) + ChunkData(events[1..])
  }

  /** One read followed by the rest of the file: how the calls unfold after a non-empty chunk. */
  lemma EventsStep(entry: FileEntry, pos: nat, id: nat, fileName: string, fileSize: nat)
    requires pos < |entry.content| && entry.failsAt != Some(pos)
    ensures var n := Min(Block, |entry.content| - pos);
      && 0 < n
      && Events(entry, pos, id, fileName, fileSize)
         == [Ok(FileChunk(id, fileName, entry.content[pos..pos + n], n, fileSize))] + Events(entry, pos + n, id, fileName, fileSize)
  {
  }

  /** The calls when the read at pos fails, or finds nothing left. */
  lemma EventsLast(entry: FileEntry, pos: nat, id: nat, fileName: string, fileSize: nat)
    requires pos <= |entry.content|
    ensures entry.failsAt == Some(pos) ==> Events(entry, pos, id, fileName, fileSize) == [Err(entry.failure)]
    ensures entry.failsAt != Some(pos) && pos == |entry.content| ==>
      Events(entry, pos, id, fileName, fileSize) == [Ok(FileChunk(id, fileName, [], 0, fileSize))]
  {
    if entry.failsAt != Some(pos) && pos == |entry.content| {
      assert entry.content[pos..pos] == [];
    }
  }

  /** `ChunkData` one call at a time. */
  lemma ChunkDataCons(e: Result<FileChunk, string>, rest: seq<Result<FileChunk, string>>)
    ensures ChunkData([e] + rest) == (if e.Ok? then e.value.data else []) + ChunkData(rest)
  {
    assert ([e] + rest)[1..] == rest;
  }

  /**
   * The calls r deliver the file's bytes from pos on, in order: all of them
   * when the last call is a chunk, those before the failing read when it is
   * an error.
   */
  predicate Delivers(content: seq<byte>, failsAt: Option<nat>, pos: nat, r: seq<Result<FileChunk, string>>)
  {
    && r != []
    && pos + |ChunkData(r)| <= |content|
    && ChunkData(r) == content[pos..pos + |ChunkData(r)|]
    && (r[|r| - 1].Ok? ==> pos + |ChunkData(r)| == |content|)
    && (r[|r| - 1].Err? ==> failsAt == Some(pos + |ChunkData(r)|))
  }

  /** A chunk of the next bytes in front of calls that deliver the rest delivers from the chunk's start. */
  lemma DeliversCons(content: seq<byte>, failsAt: Option<nat>, pos: nat, n: nat, c: FileChunk, rest: seq<Result<FileChunk, string>>)
    requires pos + n <= |content| && c.data == content[pos..pos + n]
    requires Delivers(content, failsAt, pos + n, rest)
    ensures Delivers(content, failsAt, pos, [Ok(c)] + rest)
  {
    var r := [Ok(c)] + rest;
    ChunkDataCons(Ok(c), rest);
    var d := ChunkData(rest);
    assert r[|r| - 1] == rest[|rest| - 1];
    assert pos + n + |d| <= |content| && content[pos + n..pos + n + |d|] == d;
    var whole := content[pos..pos + n + |d|];
    assert whole[..n] == content[pos..pos + n] && whole[n..] == d;
    assert whole == whole[..n] + whole[n..];
  }

  /** The calls from any position deliver the file's bytes from there on, stopping exactly at the end or at the failing read. */
  lemma {:induction false} EventsDeliver(entry: FileEntry, pos: nat, id: nat, fileName: string, fileSize: nat)
    requires pos <= |entry.content|
    ensures Delivers(entry.content, entry.failsAt, pos, Events(entry, pos, id, fileName, fileSize))
    decreases |entry.content| - pos
  {
    EventsLast(entry, pos, id, fileName, fileSize);
    if entry.failsAt != Some(pos) && pos < |entry.content| {
      var n := Min(Block, |entry.content| - pos);
      EventsStep(entry, pos, id, fileName, fileSize);
      EventsDeliver(entry, pos + n, id, fileName, fileSize);
      DeliversCons(entry.content, entry.failsAt, pos, n, FileChunk(id, fileName, entry.content[pos..pos + n], n, fileSize),
        Events(entry, pos + n, id, fileName, fileSize));
    } else {
      var r := Events(entry, pos, id, fileName, fileSize);
      assert ChunkData(r) == [] by { ChunkDataCons(r[0], []); assert r == [r[0]] + []; }
    }
  }

  /** A file that can be opened and read arrives whole: the end-to-end promise of a file transfer. */
  lemma SentFileArrivesWhole(fs: FileSystem, path: string, id: nat, fileName: string)
    requires Prepare(fs, path).Ok? && Prepare(fs, path).value.0.failsAt == None
    ensures ChunkData(SendEvents(fs, path, id, fileName)) == Prepare(fs, path).value.0.content
  {
    var (entry, size) := Prepare(fs, path).value;
    EventsDeliver(entry, 0, id, fileName, size);
    EventsShape(entry, 0, id, fileName, size);
  }
}
