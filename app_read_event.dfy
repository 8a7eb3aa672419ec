/**
 * `application/read_event.rs`: a revision of the file reader that `application.rs`
 * does not import (it uses `read_event.rs`), modelled on its own.
 * `ReadFile::send` hands an opened file to a callback under a fresh id;
 * `read_file` reads one block of it and emits one event.
 *
 * The callback is not modelled beyond its calls: each call is recorded, in
 * order, with the id it was given.
 */
module AppReadEvent {
  import opened Wrappers
  import opened Files
  import opened ReadEvent

  /** One call of the callback: the opened file, its name, its size and the transfer's id. */
  datatype Handoff = Handoff(entry: FileEntry, fileName: string, fileSize: nat, id: nat)

  /** `ReadFile`: the id counter and the callback's calls so far. */
  class ReadFile {
    var id: nat
    var calls: seq<Handoff>

    /** Every call so far got the id equal to its position: ids are 0, 1, 2, ... and the next one is `id`. */
    ghost predicate Valid()
      reads this
    {
      && id == |calls|
      && forall i :: 0 <= i < |calls| ==> calls[i].id == i
    }

    /** `ReadFile::new` (which leaves out the `files` field the struct declares). */
    constructor()
      ensures Valid() && id == 0 && calls == []
    {
      id, calls := 0, [];
    }

    /**
     * `send`: the file's size and the opened file, or the first error met
     * getting them (then nothing else happens); on success the callback is
     * called once with the current id, which is returned, and the id goes
     * up by one.
     */
    method Send(fs: FileSystem, fileName: string, path: string) returns (r: Result<nat, string>)
      requires Valid()
      modifies this
      ensures Valid()
      ensures Prepare(fs, path).Err? ==>
        r == Err(Prepare(fs, path).error) && id == old(id) && calls == old(calls)
      ensures Prepare(fs, path).Ok? ==>
        && r == Ok(old(id))
        && id == old(id) + 1
        && calls == old(calls) + [Handoff(Prepare(fs, path).value.0, fileName, Prepare(fs, path).value.1, old(id))]
    {
      var prepared := Prepare(fs, path);
      match prepared {
        case Err(e) =>
          r := Err(e);
        case Ok((entry, size)) =>
          var sendId := id;
          calls := calls + [Handoff(entry, fileName, size, sendId)];
          id := id + 1;
          r := Ok(sendId);
      }
    }
  }

  /**
   * `read_file`: one read of up to a block from the file's position, sent
   * as one event; it is the first event the looping reader of
   * `read_event.rs` would send from there.
   */
  method ReadFileOnce(file: OpenFile, fileName: string, fileSize: nat, id: nat) returns (event: Result<FileChunk, string>)
    requires file.Valid()
    modifies file
    ensures file.Valid()
    ensures event == Events(FileEntry(file.content, file.failsAt, file.failure), old(file.pos), id, fileName, fileSize)[0]
    ensures file.pos == old(file.pos) + (if event.Ok? then event.value.bytesRead else 0)
  {
    ghost var entry := FileEntry(file.content, file.failsAt, file.failure);
    EventsLast(entry, file.pos, id, fileName, fileSize);
    if file.pos < |file.content| && file.failsAt != Some(file.pos) {
      EventsStep(entry, file.pos, id, fileName, fileSize);
    }
    var r := file.Read(Block);
    match r {
      case Ok(data) =>
        event := Ok(FileChunk(id, fileName, data, |data|, fileSize));
      case Err(e) =>
        event := Err(e);
    }
  }

  /**
   * The one event of a read: a chunk of the file's id, name and size holding
   * exactly the bytes read, at most a block, taken from the read position; or
   * the read's error exactly when the read fails there.
   */
  lemma FirstEvent(entry: FileEntry, pos: nat, id: nat, fileName: string, fileSize: nat)
    requires pos <= |entry.content|
    ensures var e := Events(entry, pos, id, fileName, fileSize)[0];
      && (e.Err? <==> entry.failsAt == Some(pos))
      && (e.Err? ==> e.error == entry.failure)
      && (e.Ok? ==>
            && e.value.id == id && e.value.fileName == fileName && e.value.fileSize == fileSize
            && |e.value.data| == e.value.bytesRead <= Block
            && pos + e.value.bytesRead <= |entry.content|
            && e.value.data == entry.content[pos..pos + e.value.bytesRead]
            && (e.value.bytesRead == 0 <==> pos == |entry.content|))
  {
    EventsLast(entry, pos, id, fileName, fileSize);
    if pos < |entry.content| && entry.failsAt != Some(pos) {
      EventsStep(entry, pos, id, fileName, fileSize);
    }
  }
}
