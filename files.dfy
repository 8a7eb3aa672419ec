/**
 * The file system as the file senders see it: the final component of a
 * path (`Path::file_name` on a Unix path), file metadata and opening as
 * results supplied from outside, and an open file as its bytes plus a read
 * position.
 */
module Files {
  import opened Wrappers
  import opened Bytes
  import opened Text

  // ---------------------------------------------------------------- paths

  /** A path component that names something: not empty, not `.` and not `..`. */
  predicate IsNormalComponent(c: string)
  {
    c != "" && c != "." && c != ".." && '/' !in c
  }

  /** Path components after dropping empty pieces (repeated or trailing `/`) and `.`. */
  function Components(pieces: seq<string>): (r: seq<string>)
    ensures forall k :: 0 <= k < |r| ==> r[k] != "" && r[k] != "."
  {
    if pieces == [] then []
    else if pieces[0] == "" || pieces[0] == "." then Components(pieces[1..])
    else [pieces[0]] + Components(pieces[1..])
  }

  /**
   * `Path::file_name`: the last component of the path, or None when the path
   * is empty, is the root, or ends in `..`.
   */
  function FileName(path: string): (r: Option<string>)
    ensures r.Some? ==> IsNormalComponent(r.value)
  {
    var cs := Components(Split(path, '/'));
    if cs == [] || cs[|cs| - 1] == ".." then None
    else
      assert '/' !in cs[|cs| - 1] by {
        SplitPiecesFree(path, '/');
        ComponentsFromPieces(Split(path, '/'), |cs| - 1);
      }
      Some(cs[|cs| - 1])
  }

  lemma {:induction false} ComponentsFromPieces(pieces: seq<string>, k: nat)
    requires k < |Components(pieces)|
    ensures Components(pieces)[k] in pieces
  {
    if pieces[0] == "" || pieces[0] == "." {
      ComponentsFromPieces(pieces[1..], k);
    } else if k > 0 {
      ComponentsFromPieces(pieces[1..], k - 1);
    }
  }

  lemma {:induction false} ComponentsAppend(a: seq<string>, b: seq<string>)
    ensures Components(a + b) == Components(a) + Components(b)
  {
    if a == [] {
      assert a + b == b;
    } else {
      assert (a + b)[1..] == a[1..] + b;
      ComponentsAppend(a[1..], b);
    }
  }

  /** The name after the last separator is the file name, whatever directory precedes it. */
  lemma FileNameOfJoin(dir: string, name: string)
    requires IsNormalComponent(name)
    ensures FileName(dir + "/" + name) == Some(name)
  {
    SplitAround(dir, '/', name);
    SegmentLengthWhole(name, '/');
    assert Split(name, '/') == [name];
    ComponentsAppend(Split(dir, '/'), [name]);
    assert Components([name]) == [name];
  }

  /** A trailing separator does not change the file name. */
  lemma FileNameTrailingSlash(path: string)
    ensures FileName(path + "/") == FileName(path)
  {
    SplitAround(path, '/', "");
    assert path + "/" + "" == path + "/";
    ComponentsAppend(Split(path, '/'), [""]);
    assert Components(Split(path, '/') + [""]) == Components(Split(path, '/')) + [];
  }

  /** A bare name is its own file name. */
  lemma FileNameBare(name: string)
    requires IsNormalComponent(name)
    ensures FileName(name) == Some(name)
  {
    SegmentLengthWhole(name, '/');
    assert Split(name, '/') == [name];
    assert Components([name]) == [name];
  }

  /** The root and the empty path have no file name. */
  lemma FileNameRoot()
    ensures FileName("/") == None && FileName("") == None
  {
    assert Split("", '/') == [""];
    assert "/" == "" + ['/'] + "";
    SplitAround("", '/', "");
  }

  /** A path ending in `..` has no file name. */
  lemma FileNameParent(dir: string)
    ensures FileName(dir + "/..") == None
  {
    SplitAround(dir, '/', "..");
    assert dir + "/.." == dir + ['/'] + "..";
    SegmentLengthWhole("..", '/');
    ComponentsAppend(Split(dir, '/'), [".."]);
    assert Components([".."]) == [".."];
  }

  // ---------------------------------------------------------------- file system

  /** An opened file: its bytes, and optionally a position at which a read fails. */
  datatype FileEntry = FileEntry(content: seq<byte>, failsAt: Option<nat>, failure: string)

  /** `std::fs::metadata(path)?.len()` and `File::open(path)`, as results supplied from outside. */
  datatype FileSystem = FileSystem(
    metadata: string -> Result<nat, string>,
    open: string -> Result<FileEntry, string>)

  /** An open `std::fs::File`: its bytes and the position of the next read. */
  class OpenFile {
    const content: seq<byte>
    const failsAt: Option<nat>
    const failure: string
    var pos: nat

    ghost predicate Valid()
      reads this
    {
      pos <= |content|
    }

    constructor(entry: FileEntry)
      ensures content == entry.content && failsAt == entry.failsAt && failure == entry.failure
      ensures pos == 0 && Valid()
    {
      content, failsAt, failure := entry.content, entry.failsAt, entry.failure;
      pos := 0;
    }

    /**
     * `Read::read` into a buffer of `max` bytes: fills as much of the buffer
     * as the rest of the file allows, or fails (without moving) at the
     * failing position.
     */
    method Read(max: nat) returns (r: Result<seq<byte>, string>)
      requires Valid()
      modifies this
      ensures Valid()
      ensures failsAt == Some(old(pos)) ==> r == Err(failure) && pos == old(pos)
      ensures failsAt != Some(old(pos)) ==>
        r.Ok? && pos == old(pos) + |r.value| && r.value == content[old(pos)..pos] &&
        |r.value| == Min(max, |content| - old(pos))
    {
      if failsAt == Some(pos) {
        r := Err(failure);
      } else {
        var n := Min(max, |content| - pos);
        r := Ok(content[pos..pos + n]);
        pos := pos + n;
      }
    }
  }

  function Min(a: nat, b: nat): nat { if a < b then a else b }
}
