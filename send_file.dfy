/**
 * `commands/send_file.rs`: the `send` command. Its action sends an open file
 * to every connected user, one chunk of at most 65500 bytes per quantum,
 * and shows the transfer as a progress entry on the state.
 */
module SendFile {
  import opened Wrappers
  import opened Bytes
  import opened Files
  import opened Message
  import opened Session
  import opened Actions

  /** `SendFileCommand::name` */
  const Name: string := "send"

  /** `SendFile::CHUNK_SIZE` */
  const ChunkSize: nat := 65500

  const ReadFilenameError: string := "Unable to read file name"

  /** What `SendFile::new` gathers before the action exists: the name, the size and the open file. */
  datatype Opened = Opened(fileName: string, fileSize: nat, entry: FileEntry)

  /**
   * The outcome of `SendFile::new`: the path's file name (or the file name
   * error), then the file's size, then the opened file, each failure
   * stopping the rest.
   */
  function Open(fs: FileSystem, path: string): (r: Result<Opened, string>)
    ensures r.Ok? ==> FileName(path) == Some(r.value.fileName)
    ensures r.Ok? ==> fs.metadata(path) == Ok(r.value.fileSize) && fs.open(path) == Ok(r.value.entry)
    ensures FileName(path).None? ==> r == Err(ReadFilenameError)
    ensures FileName(path).Some? && fs.metadata(path).Err? ==> r == Err(fs.metadata(path).error)
    ensures FileName(path).Some? && fs.metadata(path).Ok? && fs.open(path).Err? ==> r == Err(fs.open(path).error)
  {
    match FileName(path)
    case None => Err(ReadFilenameError)
    case Some(name) =>
      match fs.metadata(path)
      case Err(e) => Err(e)
      case Ok(size) =>
        match fs.open(path)
        case Err(e) => Err(e)
        case Ok(entry) => Ok(Opened(name, size, entry))
  }

  /** `SendFileCommand::parse_params`: the first parameter is the path; the rest are ignored. */
  function Parse(fs: FileSystem, params: seq<string>): (r: Result<Opened, string>)
    ensures params == [] ==> r == Err("No file specified")
    ensures params != [] ==> r == Open(fs, params[0])
  {
    if params == [] then Err("No file specified") else Open(fs, params[0])
  }

  /** Only the first parameter matters. */
  lemma ParseFirstOnly(fs: FileSystem, path: string, more: seq<string>)
    ensures Parse(fs, [path] + more) == Parse(fs, [path])
  {
    assert ([path] + more)[0] == path;
  }

  /** A file that can be read is sent under the last component of its path. */
  lemma OpenNamesLastComponent(fs: FileSystem, dir: string, name: string)
    requires IsNormalComponent(name)
    requires fs.metadata(dir + "/" + name).Ok? && fs.open(dir + "/" + name).Ok?
    ensures Open(fs, dir + "/" + name).Ok? && Open(fs, dir + "/" + name).value.fileName == name
  {
    FileNameOfJoin(dir, name);
  }

  /** A directory path ending in `..`, or the root, gives the file name error, whatever the file system holds. */
  lemma OpenWithoutName(fs: FileSystem, dir: string)
    ensures Open(fs, dir + "/..") == Err(ReadFilenameError)
    ensures Open(fs, "/") == Err(ReadFilenameError)
  {
    FileNameParent(dir);
    FileNameRoot();
  }

  // ---------------------------------------------------------------- one quantum

  /** What one quantum does, given the file's bytes and the read position. */
  datatype Step = Step(chunk: Chunk, bytesRead: nat, errorMessage: Option<string>, processing: Processing)

  /**
   * The chunk sent from position pos: an error when the read fails there,
   * `End` when nothing is left, and otherwise the next bytes, up to a
   * chunk's worth, as `Data`.
   */
  function StepAt(content: seq<byte>, pos: nat, failsAt: Option<nat>, failure: string): (s: Step)
    requires pos <= |content|
    ensures s.processing.Completed? <==> s.chunk.End? || s.chunk.Error?
    ensures pos + s.bytesRead <= |content|
    ensures s.chunk.Data? ==> s.bytesRead == Min(ChunkSize, |content| - pos) > 0
    ensures s.chunk.Data? ==> s.chunk.bytes == content[pos..pos + s.bytesRead]
    ensures s.chunk.End? ==> pos == |content| && s.bytesRead == 0
    ensures s.chunk.Error? <==> failsAt == Some(pos)
    ensures s.errorMessage.Some? <==> s.chunk.Error?
    ensures s.chunk.Error? ==> s.bytesRead == 0 && s.errorMessage == Some("Error sending file. error: " + failure)
  {
    if failsAt == Some(pos) then
      Step(Chunk.Error, 0, Some("Error sending file. error: " + failure), Completed)
    else
      var n := Min(ChunkSize, |content| - pos);
      if n == 0 then Step(End, 0, None, Completed)
      else Step(Data(content[pos..pos + n]), n, None, Partial(0))
  }

  // ---------------------------------------------------------------- a whole transfer

  /** The chunks of a whole transfer from position pos: one per quantum, up to the quantum that completes. */
  function Transfer(content: seq<byte>, pos: nat, failsAt: Option<nat>, failure: string): (r: seq<Chunk>)
    requires pos <= |content|
    ensures |r| >= 1
    decreases |content| - pos
  {
    var s := StepAt(content, pos, failsAt, failure);
    if s.processing.Completed? then [s.chunk]
    else [s.chunk] + Transfer(content, pos + s.bytesRead, failsAt, failure)
  }

  /** The bytes the `Data` chunks carry, in order. */
  function Payloads(chunks: seq<Chunk>): seq<byte>
  {
    if chunks == [] then []
    else (if chunks[0].Data? then chunks[0].bytes else []) + Payloads(chunks[1..])
  }

  /** A transfer is `Data` chunks closed by exactly one `End` or `Error`. */
  lemma {:induction false} TransferShape(content: seq<byte>, pos: nat, failsAt: Option<nat>, failure: string)
    requires pos <= |content|
    ensures var t := Transfer(content, pos, failsAt, failure);
      && (forall i :: 0 <= i < |t| - 1 ==> t[i].Data?)
      && (t[|t| - 1].End? || t[|t| - 1].Error?)
    decreases |content| - pos
  {
    var s := StepAt(content, pos, failsAt, failure);
    if s.processing.Partial? {
      TransferShape(content, pos + s.bytesRead, failsAt, failure);
    }
  }

  /**
   * Without a read failure, the receiver gets the file: the `Data` payloads
   * put together are the bytes from pos on, and the transfer ends with `End`.
   */
  lemma {:induction false} TransferDelivers(content: seq<byte>, pos: nat, failure: string)
    requires pos <= |content|
    ensures var t := Transfer(content, pos, None, failure);
      Payloads(t) == content[pos..] && t[|t| - 1] == End
    decreases |content| - pos
  {
    var s := StepAt(content, pos, None, failure);
    var t := Transfer(content, pos, None, failure);
    if s.processing.Partial? {
      var next := pos + s.bytesRead;
      TransferDelivers(content, next, failure);
      assert t[1..] == Transfer(content, next, None, failure);
      assert content[pos..] == content[pos..next] + content[next..];
    } else {
      assert t == [End];
    }
  }

  /**
   * As the source writes it, a `Data` chunk is the whole 65500-byte read
   * buffer, zero-filled after the bytes actually read.
   */
  function PaddedPayload(read: seq<byte>): (r: seq<byte>)
    requires |read| <= ChunkSize
    ensures |r| == ChunkSize && r[..|read|] == read
    ensures forall i :: |read| <= i < ChunkSize ==> r[i] == 0
  {
    read + seq(ChunkSize - |read|, _ => 0)
  }

  /**
   * With the padded payload, a one-byte file and a two-byte file ending in
   * a zero byte send the same chunk, and both arrive as 65500 bytes:
   * the receiver cannot recover either file.
   */
  lemma PaddedPayloadLosesLength()
    ensures PaddedPayload([7]) == PaddedPayload([7, 0])
    ensures |PaddedPayload([7])| != |[7]|
  {
    var a, b := PaddedPayload([7]), PaddedPayload([7, 0]);
    assert forall i :: 0 <= i < ChunkSize ==> a[i] == b[i];
  }

  // ---------------------------------------------------------------- the action

  /** `SendFile`: the open file, its name and size, and the progress entry once created. */
  class SendFileAction {
    const file: OpenFile
    const fileName: string
    const fileSize: nat
    var progressId: Option<nat>

    constructor(source: Opened)
      ensures fresh(file) && file.Valid() && file.pos == 0
      ensures file.content == source.entry.content && file.failsAt == source.entry.failsAt
      ensures file.failure == source.entry.failure
      ensures fileName == source.fileName && fileSize == source.fileSize && progressId == None
    {
      file := new OpenFile(source.entry);
      fileName, fileSize := source.fileName, source.fileSize;
      progressId := None;
    }

    /**
     * `process`: create the progress entry on the first call only, read the
     * next chunk, report a read error, update the progress by the bytes
     * read and broadcast the chunk; the broadcast's failures are ignored.
     * The `Data` payload is the bytes read (see `PaddedPayload` for the
     * source's zero-filled buffer).
     */
    method Process(state: State, network: Network) returns (p: Processing)
      requires file.Valid()
      modifies this, file, state, network
      ensures file.Valid() && progressId.Some?
      ensures old(progressId).Some? ==>
        progressId == old(progressId) && state.nextProgressId == old(state.nextProgressId)
      ensures old(progressId).None? ==>
        progressId == Some(old(state.nextProgressId)) && state.nextProgressId == old(state.nextProgressId) + 1
      ensures var s := StepAt(file.content, old(file.pos), file.failsAt, file.failure);
        && p == s.processing
        && file.pos == old(file.pos) + s.bytesRead
        && state.log == old(state.log)
             + (if old(progressId).None? then [ProgressCreated(progressId.value, fileName, fileSize)] else [])
             + (if s.errorMessage.Some? then [SystemMessage(s.errorMessage.value, SystemMessageType.Error)] else [])
             + [ProgressUpdated(progressId.value, s.bytesRead)]
        && network.sent == old(network.sent) + [(state.userEndpoints, Wire(UserData(fileName, s.chunk)))]
      ensures (state.stopStream, state.stopAudio, state.x, state.audio, state.userEndpoints)
           == old((state.stopStream, state.stopAudio, state.x, state.audio, state.userEndpoints))
    {
      if progressId.None? {
        var id := state.AddProgressMessage(fileName, fileSize);
        progressId := Some(id);
      }
      var r := file.Read(ChunkSize);
      var bytesRead: nat, chunk: Chunk, processing: Processing;
      match r {
        case Ok(data) =>
          if |data| == 0 {
            bytesRead, chunk, processing := 0, End, Completed;
          } else {
            bytesRead, chunk, processing := |data|, Data(data), Partial(0);
          }
        case Err(e) =>
          state.AddSystemErrorMessage("Error sending file. error: " + e);
          bytesRead, chunk, processing := 0, Chunk.Error, Completed;
      }
      state.ProgressMessageUpdate(progressId.value, bytesRead);
      network.SendAll(state.AllUserEndpoints(), Wire(UserData(fileName, chunk)));
      p := processing;
    }
  }

  /** `SendFile::new`: the action for a path, or the first error met opening it. */
  method New(fs: FileSystem, path: string) returns (r: Result<SendFileAction, string>)
    ensures Open(fs, path).Err? ==> r == Err(Open(fs, path).error)
    ensures Open(fs, path).Ok? ==> r.Ok?
    ensures r.Ok? ==> var o := Open(fs, path).value;
      && fresh(r.value) && fresh(r.value.file) && r.value.file.Valid() && r.value.file.pos == 0
      && r.value.file.content == o.entry.content && r.value.file.failsAt == o.entry.failsAt
      && r.value.file.failure == o.entry.failure
      && r.value.fileName == o.fileName && r.value.fileSize == o.fileSize && r.value.progressId == None
  {
    match Open(fs, path) {
      case Err(e) => r := Err(e);
      case Ok(o) =>
        var action := new SendFileAction(o);
        r := Ok(action);
    }
  }
}
