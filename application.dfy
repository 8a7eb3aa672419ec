/**
 * `application.rs` and `application/commands.rs`: the application's event
 * loop. It announces itself on the LAN, then takes events off its queue
 * one at a time and routes each to the window state, the network, the disk
 * or the file reader, redrawing the window after every event but `Close`,
 * which ends the run.
 */
module App {
  import opened Wrappers
  import opened Bytes
  import opened Net
  import opened Text
  import opened Files
  import opened ReadEvent
  import opened AppWorld
  import opened Util
  import Commands

  // ---------------------------------------------------------------- the `?send` command

  /** `SEND_COMMAND` */
  const SendCommand: string := "?send"

  /** `READ_FILENAME_ERROR` */
  const ReadFilenameError: string := "Unable to read file name"

  predicate StartsWith(s: string, prefix: string)
  {
    |prefix| <= |s| && s[..|prefix|] == prefix
  }

  /**
   * The file a `?send` line names: its second whitespace token is the path,
   * and the path's last component is the file name.
   */
  function SendTarget(input: string): (r: Result<(string, string), string>)
    ensures |SplitWhitespace(input)| < 2 <==> r == Err("No file specified")
    ensures |SplitWhitespace(input)| >= 2 ==>
      && (FileName(SplitWhitespace(input)[1]).None? <==> r == Err(ReadFilenameError))
      && (r.Ok? ==> r.value == (SplitWhitespace(input)[1], FileName(SplitWhitespace(input)[1]).value))
  {
    var words := SplitWhitespace(input);
    if |words| < 2 then Err("No file specified")
    else
      match FileName(words[1])
      case None => Err(ReadFilenameError)
      case Some(name) => Ok((words[1], name))
  }

  /**
   * What `parse_input` makes of a line: nothing unless it starts with
   * `?send`, and then the file to send or the reason there is none.
   */
  function ParseOutcome(input: string): (r: Result<Option<(string, string)>, string>)
    ensures !StartsWith(input, SendCommand) ==> r == Ok(None)
    ensures StartsWith(input, SendCommand) ==> r.Ok? ==> r.value.Some?
    ensures StartsWith(input, SendCommand) && SendTarget(input).Ok? ==> r == Ok(Some(SendTarget(input).value))
    ensures StartsWith(input, SendCommand) && SendTarget(input).Err? ==> r == Err(SendTarget(input).error)
  {
    if !StartsWith(input, SendCommand) then Ok(None)
    else
      match SendTarget(input)
      case Err(e) => Err(e)
      case Ok(t) => Ok(Some(t))
  }

  /**
   * A `?send` line sends the file its second token names, whatever follows
   * (only the second token is used), and the line's first token may be
   * longer than `?send` (the test is a prefix test): `?sendx a/b c` sends
   * `a/b` as `b`. Tokens are separated here by single spaces.
   */
  lemma SendsSecondToken(verb: string, path: string, rest: seq<string>, name: string)
    requires IsWord(verb) && StartsWith(verb, SendCommand) && IsWord(path)
    requires forall k :: 0 <= k < |rest| ==> IsWord(rest[k])
    requires FileName(path) == Some(name)
    ensures ParseOutcome(verb + " " + JoinWords([path] + rest)) == Ok(Some((path, name)))
  {
    var line := verb + " " + JoinWords([path] + rest);
    SendLineFacts(verb, path, rest);
    ParseSecondToken(line, path, name);
  }

  lemma SendLineFacts(verb: string, path: string, rest: seq<string>)
    requires IsWord(verb) && StartsWith(verb, SendCommand) && IsWord(path)
    requires forall k :: 0 <= k < |rest| ==> IsWord(rest[k])
    ensures var line := verb + " " + JoinWords([path] + rest);
      StartsWith(line, SendCommand) && |SplitWhitespace(line)| >= 2 && SplitWhitespace(line)[1] == path
  {
    SendLineSecondWord(verb, path, rest);
    SendLineStarts(verb, " " + JoinWords([path] + rest));
  }

  lemma SendLineSecondWord(verb: string, path: string, rest: seq<string>)
    requires IsWord(verb) && IsWord(path)
    requires forall k :: 0 <= k < |rest| ==> IsWord(rest[k])
    ensures var words := SplitWhitespace(verb + " " + JoinWords([path] + rest));
      |words| >= 2 && words[1] == path
  {
    Commands.WordsPrepend(path, rest);
    SplitSendLine(verb, [path] + rest);
  }

  lemma SplitSendLine(verb: string, params: seq<string>)
    requires IsWord(verb) && params != [] && forall k :: 0 <= k < |params| ==> IsWord(params[k])
    ensures SplitWhitespace(verb + " " + JoinWords(params)) == [verb] + params
  {
    var line := verb + " " + JoinWords(params);
    assert JoinWords([verb] + params) == line by {
      assert ([verb] + params)[1..] == params;
    }
    Commands.SplitCommandLine("", verb, params);
    assert "" + line == line;
  }

  lemma SendLineStarts(verb: string, tail: string)
    requires StartsWith(verb, SendCommand)
    ensures StartsWith(verb + tail, SendCommand)
  {
    assert (verb + tail)[..|SendCommand|] == verb[..|SendCommand|];
  }

  lemma ParseSecondToken(line: string, path: string, name: string)
    requires StartsWith(line, SendCommand) && |SplitWhitespace(line)| >= 2 && SplitWhitespace(line)[1] == path
    requires FileName(path) == Some(name)
    ensures ParseOutcome(line) == Ok(Some((path, name)))
  {
  }

  /** A `?send` with nothing after it, or only whitespace, has no file. */
  lemma SendWithoutPath(ws: string)
    requires AllWhitespace(ws)
    ensures ParseOutcome(SendCommand + ws) == Err("No file specified")
  {
    var input := SendCommand + ws;
    assert IsWord(SendCommand) by { assert SendCommand == ['?', 's', 'e', 'n', 'd']; }
    Text.SplitWord(SendCommand, ws);
    Text.SplitLeadingWhitespace(ws, []);
    assert ws + [] == ws;
    assert input[..|SendCommand|] == SendCommand;
  }

  /**
   * There is no quoting: `?send "a b"` names the file `"a`, the part of the
   * path up to the space.
   */
  lemma SendQuotedPath(a: string, b: string)
    requires IsWord(a) && IsWord(b) && forall i :: 0 <= i < |a| ==> a[i] != '/'
    ensures ParseOutcome(SendCommand + " \"" + a + " " + b + "\"") == Ok(Some(("\"" + a, "\"" + a)))
  {
    var qa, qb := "\"" + a, b + "\"";
    Commands.QuotedHalvesAreWords(a, b);
    QuotedNameNormal(a);
    FileNameBare(qa);
    SendIsVerb();
    SendsSecondToken(SendCommand, qa, [qb], qa);
    QuotedSendLine(a, b);
  }

  lemma QuotedNameNormal(a: string)
    requires forall i :: 0 <= i < |a| ==> a[i] != '/'
    ensures IsNormalComponent("\"" + a)
  {
    var qa := "\"" + a;
    assert forall i :: 1 <= i < |qa| ==> qa[i] == a[i - 1];
    assert qa[0] == '"' && ".."[0] == '.' && "."[0] == '.';
  }

  lemma SendIsVerb()
    ensures IsWord(SendCommand) && StartsWith(SendCommand, SendCommand)
  {
    assert SendCommand == ['?', 's', 'e', 'n', 'd'];
  }

  lemma QuotedSendLine(a: string, b: string)
    ensures SendCommand + " \"" + a + " " + b + "\"" == SendCommand + " " + JoinWords(["\"" + a] + [b + "\""])
  {
    var qa, qb := "\"" + a, b + "\"";
    assert ([qa] + [qb])[1..] == [qb];
    assert JoinWords([qa] + [qb]) == qa + " " + qb;
  }

  // ---------------------------------------------------------------- received files

  /** What a receiver does with a `UserData` message from a known user. */
  datatype Receipt =
    | Refused(reason: string)
    | Finished(note: string)
    | Store(bytes: seq<byte>)
    | Crash

  /**
   * The sender's error is refused with a message naming the user and the
   * file; data with no error but no chunk is unwrapped and panics; an empty
   * chunk ends the file with a notification; any other chunk's bytes are
   * appended to the file.
   */
  function ReceiptOf(user: string, fileName: string, data: Option<(seq<byte>, nat)>, error: Option<string>): (r: Receipt)
    ensures r.Refused? <==> error.Some?
    ensures r.Crash? <==> error.None? && data.None?
    ensures r.Finished? <==> error.None? && data.Some? && data.value.1 == 0
    ensures r.Store? ==> r.bytes == data.value.0 && data.value.1 > 0
  {
    if error.Some? then
      Refused(user + " encountred an error while sending " + fileName + ", error: " + error.value)
    else if data.None? then Crash
    else if data.value.1 == 0 then
      Finished("Successfully received file " + fileName + " from user " + user + " !")
    else Store(data.value.0)
  }

  /** The two error messages a failed write leaves: who sent the data, then why it failed. */
  function WriteFailure(user: string, reason: string): seq<StateCall>
  {
    [AddMessage(Termchat("termchat: Failed to write data sent from user: " + user, TermchatMessageType.Error)),
     AddMessage(Termchat(reason, TermchatMessageType.Error))]
  }

  /** The message the sender broadcasts for each event of its file reader (none for a read error). */
  function Broadcasts(events: seq<Result<FileChunk, string>>): seq<AppMessage>
  {
    if events == [] then []
    else
      (if events[0].Ok? then [UserData(events[0].value.fileName, Some((events[0].value.data, events[0].value.bytesRead)), None)] else [])
        + Broadcasts(events[1..])
  }

  /** The bytes a receiver appends for the messages, in order. */
  function StoredBytes(user: string, messages: seq<AppMessage>): seq<byte>
  {
    if messages == [] then []
    else
      var m := messages[0];
      (if m.UserData? && ReceiptOf(user, m.fileName, m.data, m.error).Store? then m.data.value.0 else [])
        + StoredBytes(user, messages[1..])
  }

  /** The receiver stores exactly the bytes of the sender's chunks. */
  lemma {:induction false} StoredChunkData(user: string, events: seq<Result<FileChunk, string>>)
    requires forall i :: 0 <= i < |events| && events[i].Ok? ==> |events[i].value.data| == events[i].value.bytesRead
    ensures StoredBytes(user, Broadcasts(events)) == ChunkData(events)
  {
    if events != [] {
      var e := events[0];
      var rest := Broadcasts(events[1..]);
      StoredChunkData(user, events[1..]);
      ChunkDataCons(e, events[1..]);
      assert events == [e] + events[1..];
      if e.Ok? {
        var c := e.value;
        var m := UserData(c.fileName, Some((c.data, c.bytesRead)), None);
        assert |c.data| == c.bytesRead;
        assert Broadcasts(events) == [m] + rest;
        assert ([m] + rest)[0] == m && ([m] + rest)[1..] == rest;
        var stored := if c.bytesRead > 0 then c.data else [];
        assert stored == c.data;
        assert StoredBytes(user, [m] + rest) == stored + StoredBytes(user, rest);
      } else {
        assert Broadcasts(events) == [] + rest == rest;
        assert ChunkData(events) == [] + ChunkData(events[1..]);
      }
    }
  }

  /**
   * A file that can be opened and read arrives whole: the bytes a receiver
   * appends for the messages the sender broadcasts are the file's bytes.
   */
  lemma FileArrivesWhole(fs: FileSystem, path: string, id: nat, fileName: string, user: string)
    requires Prepare(fs, path).Ok? && Prepare(fs, path).value.0.failsAt == None
    ensures StoredBytes(user, Broadcasts(SendEvents(fs, path, id, fileName))) == Prepare(fs, path).value.0.content
  {
    var (entry, size) := Prepare(fs, path).value;
    EventsShape(entry, 0, id, fileName, size);
    StoredChunkData(user, SendEvents(fs, path, id, fileName));
    SentFileArrivesWhole(fs, path, id, fileName);
  }

  // ---------------------------------------------------------------- keys

  /** What a key does. */
  datatype KeyAction = CloseApp | Write(c: char) | Submit | Apply(call: StateCall) | Ignore

  function KeyActionOf(code: KeyCode, control: bool): KeyAction
  {
    match code
    case Esc => CloseApp
    case Char(c) => if c == 'c' && control then CloseApp else Write(c)
    case Enter => Submit
    case Delete => Apply(InputRemove)
    case Backspace => Apply(InputRemovePrevious)
    case Left => Apply(InputMoveCursor(CursorLeft))
    case Right => Apply(InputMoveCursor(CursorRight))
    case Home => Apply(InputMoveCursor(CursorStart))
    case End => Apply(InputMoveCursor(CursorEnd))
    case Up => Apply(MessagesScroll(ScrollUp))
    case Down => Apply(MessagesScroll(ScrollDown))
    case PageUp => Apply(MessagesScroll(ScrollStart))
    case OtherKey => Ignore
  }

  /**
   * Esc and Ctrl+C, and only they, close the application; every other
   * character is typed into the input, Control held or not.
   */
  lemma KeysThatClose(code: KeyCode, control: bool)
    ensures KeyActionOf(code, control) == CloseApp <==> code == Esc || (code == Char('c') && control)
    ensures KeyActionOf(code, control).Write? <==> code.Char? && !(code.c == 'c' && control)
    ensures KeyActionOf(code, control).Write? ==> KeyActionOf(code, control).c == code.c
  {
  }

  // ---------------------------------------------------------------- the application

  /**
   * What handling an event can change: the calls made on the window state
   * and on the network, the appends to the disk and how many were tried,
   * the id of the next file sent, and the transfers started.
   */
  datatype World = World(stateCalls: seq<StateCall>, netCalls: seq<NetCall>, appended: seq<(string, string, seq<byte>)>,
                         attempts: nat, id: nat, sendThreads: map<nat, seq<Result<FileChunk, string>>>)

  /** Each transfer is kept under an id below the next one, so starting one never replaces another. */
  predicate IdsFresh(w: World)
  {
    forall k :: k in w.sendThreads ==> k < w.id
  }

  /**
   * `r` only adds to the logs of `w`, has not taken an id back, and keeps
   * every transfer of `w` as it was, each under an id below the next one.
   */
  predicate Grows(w: World, r: World)
  {
    && w.stateCalls <= r.stateCalls && w.netCalls <= r.netCalls && w.appended <= r.appended
    && w.attempts <= r.attempts && w.id <= r.id
    && (IdsFresh(w) ==> IdsFresh(r) && forall k :: k in w.sendThreads ==> k in r.sendThreads && r.sendThreads[k] == w.sendThreads[k])
  }

  /** A key that puts `Close(None)` on the priority lane. */
  predicate ClosesApp(e: Event)
  {
    e.Terminal? && e.termEvent.Key? && KeyActionOf(e.termEvent.code, e.termEvent.control) == CloseApp
  }

  /**
   * The events taken, against the events queued at the start (priority
   * lane first): all but the last are the first ones queued, in order, and
   * the last is the next one queued or a `Close(None)` that an earlier key
   * queued ahead of it.
   */
  predicate TakenInOrder(handled: seq<Event>, queued: seq<Event>)
  {
    handled != [] ==>
      && |handled| - 1 <= |queued| && handled[..|handled| - 1] == queued[..|handled| - 1]
      && ((|handled| <= |queued| && handled[|handled| - 1] == queued[|handled| - 1])
          || (handled[|handled| - 1] == Close(None) && exists i :: 0 <= i < |handled| - 1 && ClosesApp(handled[i])))
  }

  /**
   * The queue while the loop runs: the priority lane is what is left of
   * `pending` followed only by `Close(None)`s a key queued, and `pending`
   * followed by the normal lane is what is left of the events queued at
   * the start (`rest`).
   */
  ghost predicate Lanes(priority: seq<Event>, normal: seq<Event>, rest: seq<Event>, pending: seq<Event>)
  {
    && |pending| <= |priority| && priority[..|pending|] == pending
    && (forall i :: |pending| <= i < |priority| ==> priority[i] == Close(None))
    && pending + normal == rest
  }

  /** The next event is the next one queued at the start, unless a key has queued a `Close` ahead of it. */
  lemma LanesTake(priority: seq<Event>, normal: seq<Event>, rest: seq<Event>, pending: seq<Event>)
    requires Lanes(priority, normal, rest, pending) && (priority != [] || normal != [])
    ensures var e := if priority != [] then priority[0] else normal[0];
      && (pending != [] ==> rest != [] && e == rest[0] && Lanes(priority[1..], normal, rest[1..], pending[1..]))
      && (pending == [] && priority != [] ==> e == Close(None))
      && (priority == [] ==> rest != [] && e == rest[0] && Lanes(priority, normal[1..], rest[1..], []))
  {
    if pending != [] {
      assert priority[0] == priority[..|pending|][0];
      assert (pending + normal)[1..] == pending[1..] + normal;
      var p1 := priority[1..];
      assert p1[..|pending| - 1] == priority[1..|pending|];
      forall i | |pending| - 1 <= i < |p1|
        ensures p1[i] == Close(None)
      {
        assert p1[i] == priority[i + 1];
      }
    } else if priority != [] {
      assert priority[0] == Close(None);
    } else {
      assert [] + normal == normal;
      assert [] + normal[1..] == normal[1..];
    }
  }

  /** A key's `Close(None)` goes to the back of the priority lane. */
  lemma LanesPush(priority: seq<Event>, normal: seq<Event>, rest: seq<Event>, pending: seq<Event>)
    requires Lanes(priority, normal, rest, pending)
    ensures Lanes(priority + [Close(None)], normal, rest, pending)
  {
    assert (priority + [Close(None)])[..|pending|] == priority[..|pending|];
  }

  lemma PrefixStep<T>(q: seq<T>, k: nat)
    requires k < |q|
    ensures q[..k + 1] == q[..k] + [q[k]] && q[k..][1..] == q[k + 1..] && q[k..][0] == q[k]
  {
  }

  /** How `run` ends: it returns a result, a handler panics, or (in the model) no event is left to wait for. */
  datatype RunOutcome = Returned(result: Result<(), string>) | Panicked | Waiting

  /** The events handled and not followed by a `Close`: the ones drawn after. */
  function Drawn(handled: seq<Event>): nat
  {
    if handled == [] then 0 else (if handled[0].Close? then 0 else 1) + Drawn(handled[1..])
  }

  lemma {:induction false} DrawnAppend(handled: seq<Event>, e: Event)
    ensures Drawn(handled + [e]) == Drawn(handled) + (if e.Close? then 0 else 1)
  {
    if handled == [] {
      assert [] + [e] == [e];
    } else {
      assert (handled + [e])[1..] == handled[1..] + [e];
      DrawnAppend(handled[1..], e);
    }
  }

  class Application {
    const queue: EventQueue
    const network: NetworkManager
    const screen: Screen
    const disk: Disk
    /** The file system the `?send` command opens files on. */
    const fs: FileSystem
    const discoveryAddr: SocketAddr
    const tcpServerAddr: SocketAddr
    const userName: string
    /** An endpoint's `Display`. */
    const show: Endpoint -> string
    /** How the window state answers, given the calls made on it. */
    const userNameOf: (seq<StateCall>, Endpoint) -> Option<string>
    const endpointsOf: seq<StateCall> -> seq<Endpoint>
    const inputOf: seq<StateCall> -> Option<string>
    /** The id of the next file sent, for its progress entry. */
    var id: nat
    /**
     * `send_threads`: the reader thread started for each transfer, by id,
     * each given by the events it sends to the queue.
     */
    var sendThreads: map<nat, seq<Result<FileChunk, string>>>

    /**
     * `Application::new`, given the collaborators it sets up: the server
     * listens on all interfaces at the given port, and ids start at 0.
     */
    constructor(queue: EventQueue, network: NetworkManager, screen: Screen, disk: Disk, fs: FileSystem,
                discoveryAddr: SocketAddr, tcpServerPort: u16, userName: string, show: Endpoint -> string,
                userNameOf: (seq<StateCall>, Endpoint) -> Option<string>, endpointsOf: seq<StateCall> -> seq<Endpoint>,
                inputOf: seq<StateCall> -> Option<string>)
      ensures this.queue == queue && this.network == network && this.screen == screen && this.disk == disk
      ensures this.fs == fs && this.discoveryAddr == discoveryAddr && this.userName == userName && this.show == show
      ensures tcpServerAddr == SocketAddr([0, 0, 0, 0], tcpServerPort)
      ensures this.userNameOf == userNameOf && this.endpointsOf == endpointsOf && this.inputOf == inputOf
      ensures id == 0 && sendThreads == map[]
    {
      this.queue, this.network, this.screen, this.disk := queue, network, screen, disk;
      this.fs, this.discoveryAddr, this.userName, this.show := fs, discoveryAddr, userName, show;
      tcpServerAddr := SocketAddr([0, 0, 0, 0], tcpServerPort);
      this.userNameOf, this.endpointsOf, this.inputOf := userNameOf, endpointsOf, inputOf;
      id, sendThreads := 0, map[];
    }

    // ------------------------------------------------------------ commands

    /**
     * `handle_send_command`: the file the line names, or the reason there is
     * none (and then nothing changes); the transfer is started and kept
     * under the current id, its progress entry is started, and the id goes
     * up by one.
     */
    method HandleSendCommand(input: string, state: WindowState) returns (r: Result<(), string>)
      modifies this, state
      ensures SendTarget(input).Err? ==>
        && r == Err(SendTarget(input).error)
        && id == old(id) && sendThreads == old(sendThreads) && state.calls == old(state.calls)
      ensures SendTarget(input).Ok? ==> var (path, name) := SendTarget(input).value;
        && r == Ok(())
        && id == old(id) + 1
        && state.calls == old(state.calls) + [ProgressStart(old(id))]
        && sendThreads == old(sendThreads)[old(id) := SendEvents(fs, path, old(id), name)]
    {
      var target := SendTarget(input);
      if target.Err? {
        return Err(target.error);
      }
      var (path, name) := target.value;
      var thread := ReadThread(fs, id, name, path);
      sendThreads := sendThreads[id := thread];
      state.Call(ProgressStart(id));
      id := id + 1;
      r := Ok(());
    }

    /** `parse_input`: lines starting with `?send` go to the send command; every other line is left alone. */
    method ParseInput(input: string, state: WindowState) returns (r: Result<(), string>)
      modifies this, state
      ensures r.Err? <==> ParseOutcome(input).Err?
      ensures r.Err? ==> r.error == ParseOutcome(input).error
      ensures ParseOutcome(input) == Ok(None) || ParseOutcome(input).Err? ==>
        id == old(id) && sendThreads == old(sendThreads) && state.calls == old(state.calls)
      ensures ParseOutcome(input).Ok? && ParseOutcome(input).value.Some? ==>
        var (path, name) := ParseOutcome(input).value.value;
        && id == old(id) + 1
        && state.calls == old(state.calls) + [ProgressStart(old(id))]
        && sendThreads == old(sendThreads)[old(id) := SendEvents(fs, path, old(id), name)]
    {
      if StartsWith(input, SendCommand) {
        r := HandleSendCommand(input, state);
      } else {
        r := Ok(());
      }
    }

    // ------------------------------------------------------------ events

    /** The world as the handlers see it. */
    ghost function Now(state: WindowState): World
      reads this, state, network, disk
    {
      World(state.calls, network.calls, disk.appended, disk.attempts, id, sendThreads)
    }

    /** The effect of `HandleReadFile`. */
    function ReadFileEffect(w: World, state: WindowState, chunk: Result<FileChunk, string>): World
    {
      match chunk
      case Err(e) =>
        w.(stateCalls := w.stateCalls + [ProgressStopLast, AddMessage(Termchat("Error sending file. error: " + e, TermchatMessageType.Error))])
      case Ok(c) =>
        var failures := network.sendAllReply(w.netCalls);
        w.(netCalls := w.netCalls + [SendAll(state.endpointsOf(w.stateCalls), UserData(c.fileName, Some((c.data, c.bytesRead)), None))],
           stateCalls := w.stateCalls
             + if failures != [] then
                 [ProgressStopLast,
                  AddMessage(Termchat("Error sending file. error: " + JoinWith(FailureLines(show, failures), '\n'), TermchatMessageType.Error))]
               else [if c.bytesRead == 0 then ProgressStop(c.id) else ProgressPulse(c.id, c.fileSize, c.bytesRead)])
    }

    /**
     * A chunk from the file reader is broadcast to every user as
     * `UserData`; then an empty chunk stops its progress entry and any other
     * advances it. A read error, or a broadcast some user did not get, stops
     * the last progress entry and reports the error.
     */
    method HandleReadFile(state: WindowState, chunk: Result<FileChunk, string>)
      modifies state, network
      ensures Now(state) == ReadFileEffect(old(Now(state)), state, chunk)
    {
      var failure: Option<string> := None;
      match chunk {
        case Err(e) =>
          failure := Some(e);
        case Ok(c) =>
          var sent := network.SendToAll(state.AllUserEndpoints(), UserData(c.fileName, Some((c.data, c.bytesRead)), None));
          if sent.Err? {
            var text := StringifySendallErrors(show, sent.error);
            failure := Some(text);
          } else if c.bytesRead == 0 {
            state.Call(ProgressStop(c.id));
          } else {
            state.Call(ProgressPulse(c.id, c.fileSize, c.bytesRead));
          }
      }
      if failure.Some? {
        state.Call(ProgressStopLast);
        state.Call(AddMessage(Termchat("Error sending file. error: " + failure.value, TermchatMessageType.Error)));
      }
    }

    /** The effect of `HandleHelloLan`. */
    function HelloLanEffect(w: World, endpoint: Endpoint, user: string, serverPort: u16): World
    {
      if user == userName then w
      else
        var connect := ConnectTcp(SocketAddr(endpoint.addr.ip, serverPort));
        var connected := network.connectReply(w.netCalls);
        if connected.Err? then
          w.(netCalls := w.netCalls + [connect],
             stateCalls := w.stateCalls + [AddMessage(Termchat(connected.error, TermchatMessageType.Error))])
        else
          var sent := network.sendReply(w.netCalls + [connect]);
          w.(netCalls := w.netCalls + [connect, Send(connected.value, HelloUser(userName))],
             stateCalls := w.stateCalls
               + [if sent.Err? then AddMessage(Termchat(sent.error, TermchatMessageType.Error)) else ConnectedUser(connected.value, user)])
    }

    /**
     * `HelloLan` from the discovery group: an announcement carrying the
     * own user name is ignored. Otherwise connect to the announcer's server
     * (its address with the announced port), greet it with `HelloUser` and
     * record the user; a failure of either step leaves one error message.
     */
    method HandleHelloLan(state: WindowState, endpoint: Endpoint, user: string, serverPort: u16)
      modifies state, network
      ensures Now(state) == HelloLanEffect(old(Now(state)), endpoint, user, serverPort)
    {
      if user != userName {
        var userEndpoint := network.ConnectTcpTo(SocketAddr(endpoint.addr.ip, serverPort));
        if userEndpoint.Err? {
          state.Call(AddMessage(Termchat(userEndpoint.error, TermchatMessageType.Error)));
          return;
        }
        var sent := network.SendTo(userEndpoint.value, HelloUser(userName));
        if sent.Err? {
          state.Call(AddMessage(Termchat(sent.error, TermchatMessageType.Error)));
          return;
        }
        state.Call(ConnectedUser(userEndpoint.value, user));
      }
    }

    /** The effect of `HandleUserMessage`. */
    function UserMessageEffect(w: World, state: WindowState, endpoint: Endpoint, content: string): World
    {
      match state.userNameOf(w.stateCalls, endpoint)
      case None => w
      case Some(user) => w.(stateCalls := w.stateCalls + [AddMessage(Content(user, content))])
    }

    /** `UserMessage`: from a known user, one message authored by that user; from anyone else, dropped. */
    method HandleUserMessage(state: WindowState, endpoint: Endpoint, content: string)
      modifies state
      ensures Now(state) == UserMessageEffect(old(Now(state)), state, endpoint, content)
    {
      var user := state.UserName(endpoint);
      if user.Some? {
        state.Call(AddMessage(Content(user.value, content)));
      }
    }

    /** The effect of `HandleUserData`; it has none when the handler panics. */
    function UserDataEffect(w: World, state: WindowState, endpoint: Endpoint, fileName: string, data: Option<(seq<byte>, nat)>,
                            error: Option<string>): World
    {
      match state.userNameOf(w.stateCalls, endpoint)
      case None => w
      case Some(user) =>
        match ReceiptOf(user, fileName, data, error)
        case Crash => w
        case Refused(reason) => w.(stateCalls := w.stateCalls + WriteFailure(user, reason))
        case Finished(note) => w.(stateCalls := w.stateCalls + [AddMessage(Termchat(note, Notification))])
        case Store(bytes) =>
          var written := disk.appendReply(w.attempts);
          w.(attempts := w.attempts + 1,
             appended := w.appended + (if written.Ok? then [(user, fileName, bytes)] else []),
             stateCalls := w.stateCalls + (if written.Err? then WriteFailure(user, written.error) else []))
    }

    /** Whether `HandleUserData` panics: on the unwrap of a known user's chunk that has neither data nor an error. */
    function UserDataPanics(w: World, state: WindowState, endpoint: Endpoint, fileName: string, data: Option<(seq<byte>, nat)>,
                            error: Option<string>): bool
    {
      match state.userNameOf(w.stateCalls, endpoint)
      case None => false
      case Some(user) => ReceiptOf(user, fileName, data, error).Crash?
    }

    /**
     * `UserData`: dropped from an unknown endpoint; from a known user, what
     * `ReceiptOf` says, with a refused chunk or a failed append leaving the
     * two write-failure messages. The result says whether the handler
     * panicked.
     */
    method HandleUserData(state: WindowState, endpoint: Endpoint, fileName: string, data: Option<(seq<byte>, nat)>, error: Option<string>)
      returns (panicked: bool)
      modifies state, disk
      ensures Now(state) == UserDataEffect(old(Now(state)), state, endpoint, fileName, data, error)
      ensures panicked == UserDataPanics(old(Now(state)), state, endpoint, fileName, data, error)
    {
      panicked := false;
      var known := state.UserName(endpoint);
      if known.None? {
        return;
      }
      var user := known.value;
      var failure: Option<string> := None;
      if error.Some? {
        failure := Some(user + " encountred an error while sending " + fileName + ", error: " + error.value);
      } else if data.None? {
        panicked := true;
        return;
      } else if data.value.1 == 0 {
        state.Call(AddMessage(Termchat("Successfully received file " + fileName + " from user " + user + " !", Notification)));
      } else {
        var written := disk.Append(user, fileName, data.value.0);
        if written.Err? {
          failure := Some(written.error);
        }
      }
      if failure.Some? {
        state.Call(AddMessage(Termchat("termchat: Failed to write data sent from user: " + user, TermchatMessageType.Error)));
        state.Call(AddMessage(Termchat(failure.value, TermchatMessageType.Error)));
      }
    }

    /** The effect of `HandleKey` on the world; what it queues is stated on the method. */
    function KeyEffect(w: World, code: KeyCode, control: bool): World
    {
      match KeyActionOf(code, control)
      case Write(c) => w.(stateCalls := w.stateCalls + [InputWrite(c)])
      case Apply(call) => w.(stateCalls := w.stateCalls + [call])
      case _ => w
    }

    /**
     * A key other than Enter: Esc and Ctrl+C put `Close(None)` on the
     * priority lane, a character is typed, the editing and scrolling keys
     * make their state call, and other keys do nothing.
     */
    method HandleKey(state: WindowState, code: KeyCode, control: bool)
      requires code != Enter
      modifies state, queue
      ensures Now(state) == KeyEffect(old(Now(state)), code, control)
      ensures queue.normal == old(queue.normal)
      ensures KeyActionOf(code, control) == CloseApp ==> queue.priority == old(queue.priority) + [Close(None)]
      ensures KeyActionOf(code, control) != CloseApp ==> queue.priority == old(queue.priority)
    {
      match KeyActionOf(code, control) {
        case CloseApp => queue.SendWithPriority(Close(None));
        case Write(c) => state.Call(InputWrite(c));
        case Apply(call) => state.Call(call);
        case Ignore =>
        case Submit => assert false;
      }
    }

    /** The effect of `HandleEnter`. */
    function EnterEffect(w: World, state: WindowState): World
    {
      match state.inputOf(w.stateCalls)
      case None => w.(stateCalls := w.stateCalls + [ResetInput])
      case Some(input) =>
        var failures := network.sendAllReply(w.netCalls);
        var message := if failures != [] then Termchat(JoinWith(FailureLines(show, failures), '\n'), TermchatMessageType.Error)
                       else Content(userName + " (me)", input);
        var parsed := ParseOutcome(input);
        var starts := parsed.Ok? && parsed.value.Some?;
        w.(netCalls := w.netCalls + [SendAll(state.endpointsOf(w.stateCalls + [ResetInput]), UserMessage(input))],
           stateCalls := w.stateCalls + [ResetInput, AddMessage(message)]
             + (if starts then [ProgressStart(w.id)] else [])
             + (if parsed.Err? then [AddMessage(Termchat(parsed.error, TermchatMessageType.Error))] else []),
           id := w.id + (if starts then 1 else 0),
           sendThreads := if starts then w.sendThreads[w.id := SendEvents(fs, parsed.value.value.0, w.id, parsed.value.value.1)]
                          else w.sendThreads)
    }

    /**
     * Enter: when `reset_input` gives a line, broadcast it as
     * `UserMessage`, log it as the own message (or log the broadcast's
     * failures instead), then parse it as a command, logging a parse error
     * as one more message.
     */
    method HandleEnter(state: WindowState)
      modifies state, network, this
      ensures Now(state) == EnterEffect(old(Now(state)), state)
    {
      var input := state.TakeInput();
      if input.None? {
        return;
      }
      EchoInput(input.value, state);
      var parsed := ParseInput(input.value, state);
      if parsed.Err? {
        state.Call(AddMessage(Termchat(parsed.error, TermchatMessageType.Error)));
      }
    }

    // ------------------------------------------------------------ run

    /**
     * The typed line broadcast to every user and shown in the own window:
     * as the own message when every user got it, otherwise the failures.
     */
    method EchoInput(input: string, state: WindowState)
      modifies state, network
      ensures network.calls == old(network.calls) + [SendAll(state.endpointsOf(old(state.calls)), UserMessage(input))]
      ensures var failures := network.sendAllReply(old(network.calls));
        state.calls == old(state.calls)
          + [AddMessage(if failures != [] then Termchat(JoinWith(FailureLines(show, failures), '\n'), TermchatMessageType.Error)
                        else Content(userName + " (me)", input))]
    {
      var sent := network.SendToAll(state.AllUserEndpoints(), UserMessage(input));
      var message;
      if sent.Err? {
        var text := StringifySendallErrors(show, sent.error);
        message := Termchat(text, TermchatMessageType.Error);
      } else {
        message := Content(userName + " (me)", input);
      }
      state.Call(AddMessage(message));
    }

    /**
     * What the start of `run` does on the network once its draw has worked,
     * from the calls made before: listen on TCP, join the discovery group,
     * connect to it and announce the own name and server port. Each step
     * is made only when the ones before it worked; the calls made, and the
     * first failure or Ok, are the result.
     */
    function SetupRun(h: seq<NetCall>): (seq<NetCall>, Result<(), string>)
    {
      var listening := network.listenReply(h);
      var h1 := h + [ListenTcp(tcpServerAddr)];
      if listening.Err? then (h1, Err(listening.error))
      else
        var joined := network.multicastReply(h1);
        var h2 := h1 + [ListenUdpMulticast(discoveryAddr)];
        if joined.Err? then (h2, Err(joined.error))
        else
          var discovery := network.connectReply(h2);
          var h3 := h2 + [ConnectUdp(discoveryAddr)];
          if discovery.Err? then (h3, Err(discovery.error))
          else
            var sent := network.sendReply(h3);
            (h3 + [Send(discovery.value, HelloLan(userName, listening.value.port))], if sent.Ok? then Ok(()) else Err(sent.error))
    }

    /**
     * The start of `run`: draw the window once, listen for users on TCP,
     * join the discovery group, and announce the own name and server port
     * to it; the first failure ends the run with its error.
     */
    method Setup(state: WindowState) returns (r: Result<(), string>)
      modifies screen, network
      ensures screen.draws == old(screen.draws) + 1
      ensures screen.drawReply(old(screen.draws)).Err? ==>
        r == Err(screen.drawReply(old(screen.draws)).error) && network.calls == old(network.calls)
      ensures screen.drawReply(old(screen.draws)).Ok? ==> (network.calls, r) == SetupRun(old(network.calls))
    {
      var drawn := screen.Draw();
      if drawn.Err? {
        return Err(drawn.error);
      }
      var server := network.ListenTcpAt(tcpServerAddr);
      if server.Err? {
        return Err(server.error);
      }
      var serverPort := server.value.port;
      var joined := network.ListenUdpMulticastAt(discoveryAddr);
      if joined.Err? {
        return Err(joined.error);
      }
      var discovery := network.ConnectUdpTo(discoveryAddr);
      if discovery.Err? {
        return Err(discovery.error);
      }
      var sent := network.SendTo(discovery.value, HelloLan(userName, serverPort));
      if sent.Err? {
        return Err(sent.error);
      }
      r := Ok(());
    }

    /**
     * The effect of handling one event: each event has its own handler's
     * effect; `HelloUser` records the user and `RemovedEndpoint` forgets
     * it; a new endpoint, the mouse, a resize and `Close` change nothing.
     */
    function Effect(w: World, state: WindowState, event: Event): World
    {
      match event
      case ReadFile(chunk) => ReadFileEffect(w, state, chunk)
      case Network(Message(endpoint, HelloLan(user, port))) => HelloLanEffect(w, endpoint, user, port)
      case Network(Message(endpoint, HelloUser(user))) => w.(stateCalls := w.stateCalls + [ConnectedUser(endpoint, user)])
      case Network(Message(endpoint, UserMessage(content))) => UserMessageEffect(w, state, endpoint, content)
      case Network(Message(endpoint, UserData(fileName, data, error))) => UserDataEffect(w, state, endpoint, fileName, data, error)
      case Network(AddedEndpoint(_)) => w
      case Network(RemovedEndpoint(endpoint)) => w.(stateCalls := w.stateCalls + [DisconnectedUser(endpoint)])
      case Terminal(Key(Enter, _)) => EnterEffect(w, state)
      case Terminal(Key(code, control)) => KeyEffect(w, code, control)
      case Terminal(Mouse) => w
      case Terminal(Resize(_, _)) => w
      case Close(_) => w
    }

    /** Whether handling the event panics: only `UserData` can. */
    function Panics(w: World, state: WindowState, event: Event): bool
    {
      match event
      case Network(Message(endpoint, UserData(fileName, data, error))) => UserDataPanics(w, state, endpoint, fileName, data, error)
      case _ => false
    }

    /** The world after the events are handled in order, starting from `w`. */
    function Replay(w: World, state: WindowState, events: seq<Event>): World
      decreases |events|
    {
      if events == [] then w
      else Effect(Replay(w, state, events[..|events| - 1]), state, events[|events| - 1])
    }

    lemma ReplayAppend(w: World, state: WindowState, events: seq<Event>, e: Event)
      ensures Replay(w, state, events + [e]) == Effect(Replay(w, state, events), state, e)
    {
      assert (events + [e])[..|events|] == events;
    }

    /** `now` is the world after `handled`, none of which panicked. */
    ghost predicate Traced(w: World, state: WindowState, handled: seq<Event>, now: World)
    {
      && now == Replay(w, state, handled)
      && forall i :: 0 <= i < |handled| ==> !Panics(Replay(w, state, handled[..i]), state, handled[i])
    }

    /** One more event handled, as the loop takes it: the events before it did not panic, nor does it unless it is last. */
    lemma ReplayStep(w: World, state: WindowState, before: seq<Event>, e: Event, now: World)
      requires Traced(w, state, before, now)
      ensures (before + [e])[..|before|] == before
      ensures e.Close? ==> Traced(w, state, before + [e], now)
      ensures !Panics(now, state, e) ==>
        forall i :: 0 <= i < |before| + 1 ==> !Panics(Replay(w, state, (before + [e])[..i]), state, (before + [e])[i])
      ensures forall i :: 0 <= i < |before| ==> !Panics(Replay(w, state, (before + [e])[..i]), state, (before + [e])[i])
    {
      ReplayAppend(w, state, before, e);
      assert (before + [e])[..|before|] == before;
      forall i | 0 <= i < |before|
        ensures (before + [e])[..i] == before[..i] && (before + [e])[i] == before[i]
      {
      }
    }

    /**
     * Handling an event only adds to the logs, never takes an id back, and
     * starts a transfer only under a fresh id, leaving the others as they were.
     */
    lemma EffectGrows(w: World, state: WindowState, event: Event)
      ensures Grows(w, Effect(w, state, event))
    {
      match event {
        case ReadFile(chunk) => ReadFileGrows(w, state, chunk);
        case Network(Message(endpoint, UserData(fileName, data, error))) =>
          UserDataGrows(w, state, endpoint, fileName, data, error);
        case Network(_) =>
        case Terminal(Key(Enter, _)) => EnterGrows(w, state);
        case Terminal(_) =>
        case Close(_) =>
      }
    }

    lemma ReadFileGrows(w: World, state: WindowState, chunk: Result<FileChunk, string>)
      ensures Grows(w, ReadFileEffect(w, state, chunk))
    {
    }

    lemma UserDataGrows(w: World, state: WindowState, endpoint: Endpoint, fileName: string, data: Option<(seq<byte>, nat)>,
                        error: Option<string>)
      ensures Grows(w, UserDataEffect(w, state, endpoint, fileName, data, error))
    {
    }

    lemma EnterGrows(w: World, state: WindowState)
      ensures Grows(w, EnterEffect(w, state))
    {
    }

    /** What `EffectGrows` says of one event holds of any run of them. */
    lemma {:induction false} ReplayGrows(w: World, state: WindowState, events: seq<Event>)
      ensures Grows(w, Replay(w, state, events))
      decreases |events|
    {
      if events != [] {
        var before := events[..|events| - 1];
        ReplayGrows(w, state, before);
        EffectGrows(Replay(w, state, before), state, events[|events| - 1]);
      }
    }

    /**
     * Routes one event other than `Close` to its handler, and has exactly
     * that handler's effect: `HelloUser` records the user, `RemovedEndpoint`
     * forgets it, and a new endpoint, the mouse and a resize change nothing.
     * Only a key can queue anything (a `Close`, on the priority lane), only
     * `UserData` can panic, and the window is not drawn here.
     */
    method Handle(state: WindowState, event: Event) returns (panicked: bool)
      requires !event.Close?
      modifies state, network, queue, disk, this
      ensures queue.normal == old(queue.normal)
      ensures queue.priority == old(queue.priority) || queue.priority == old(queue.priority) + [Close(None)]
      ensures queue.priority != old(queue.priority) ==> ClosesApp(event)
      ensures panicked ==> event.Network? && event.netEvent.Message? && event.netEvent.message.UserData?
      ensures Now(state) == Effect(old(Now(state)), state, event)
      ensures panicked == Panics(old(Now(state)), state, event)
    {
      panicked := false;
      match event {
        case ReadFile(chunk) =>
          HandleReadFile(state, chunk);
        case Network(Message(endpoint, HelloLan(user, port))) =>
          HandleHelloLan(state, endpoint, user, port);
        case Network(Message(endpoint, HelloUser(user))) =>
          state.Call(ConnectedUser(endpoint, user));
        case Network(Message(endpoint, UserMessage(content))) =>
          HandleUserMessage(state, endpoint, content);
        case Network(Message(endpoint, UserData(fileName, data, error))) =>
          panicked := HandleUserData(state, endpoint, fileName, data, error);
        case Network(AddedEndpoint(_)) =>
        case Network(RemovedEndpoint(endpoint)) =>
          state.Call(DisconnectedUser(endpoint));
        case Terminal(Key(Enter, _)) =>
          HandleEnter(state);
        case Terminal(Key(code, control)) =>
          HandleKey(state, code, control);
        case Terminal(Mouse) =>
        case Terminal(Resize(_, _)) =>
      }
    }

    /**
     * The loop of `run`: take the next event (priority lane first), route
     * it, and draw the window after it. `Close(None)` returns Ok and
     * `Close(Some(e))` returns `e`, without drawing; a failed draw returns
     * its error. `handled` is every event taken, in order.
     */
    method Loop(state: WindowState) returns (outcome: RunOutcome, ghost handled: seq<Event>)
      modifies state, network, screen, queue, disk, this
      ensures outcome.Waiting? ==>
        && queue.priority == [] && queue.normal == []
        && handled == old(queue.priority) + old(queue.normal)
        && (forall i :: 0 <= i < |handled| ==> !handled[i].Close?)
        && screen.draws == old(screen.draws) + Drawn(handled)
        && Traced(old(Now(state)), state, handled, Now(state))
      ensures !outcome.Waiting? ==>
        Stopped(state, old(Now(state)), old(screen.draws), old(queue.priority) + old(queue.normal), handled, outcome)
    {
      ghost var w0 := Now(state);
      ghost var d0 := screen.draws;
      ghost var queued := queue.priority + queue.normal;
      ghost var pending := queue.priority;
      ghost var closer := -1;
      handled := [];
      outcome := Waiting;
      assert queue.priority[..|pending|] == pending;
      while true
        invariant Running(state, w0, d0, queued, handled, pending, closer)
        invariant outcome == Waiting
        decreases Weight(queue.priority) + Weight(queue.normal)
      {
        if queue.priority == [] && queue.normal == [] {
          assert queued[|handled|..] == [];
          break;
        }
        var event, stop;
        event, stop, pending, closer := Turn(state, w0, d0, queued, handled, pending, closer);
        handled := handled + [event];
        if stop.Some? {
          outcome := stop.value;
          break;
        }
      }
    }

    /**
     * The loop's account after taking `handled`, none of them a `Close`:
     * they are the first events queued at the start, in order, each followed
     * by one draw; the queue holds the events still owed, behind any
     * `Close(None)` a closing key (`closer`) queued; and the world is the
     * one those events leave.
     */
    ghost predicate Running(state: WindowState, w0: World, d0: nat, queued: seq<Event>, handled: seq<Event>, pending: seq<Event>, closer: int)
      reads this, state, network, disk, queue, screen
    {
      && (forall i :: 0 <= i < |handled| ==> !handled[i].Close?)
      && screen.draws == d0 + Drawn(handled)
      && |handled| <= |queued| && handled == queued[..|handled|]
      && Lanes(queue.priority, queue.normal, queued[|handled|..], pending)
      && (|pending| < |queue.priority| ==> 0 <= closer < |handled| && ClosesApp(handled[closer]))
      && Traced(w0, state, handled, Now(state))
    }

    /** How the loop stands when it stops after taking `handled` with `outcome`: what `Loop` promises then. */
    ghost predicate Stopped(state: WindowState, w0: World, d0: nat, queued: seq<Event>, handled: seq<Event>, outcome: RunOutcome)
      reads this, state, network, disk, screen
    {
      && handled != [] && !outcome.Waiting?
      && var last := handled[|handled| - 1];
      && (forall i :: 0 <= i < |handled| - 1 ==> !handled[i].Close?)
      && TakenInOrder(handled, queued)
      && (outcome == Returned(Ok(())) ==> last == Close(None))
      && (last.Close? ==> outcome == Returned(if last.closeError.None? then Ok(()) else Err(last.closeError.value)))
      && (outcome.Panicked? ==> last.Network? && last.netEvent.Message? && last.netEvent.message.UserData?)
      && screen.draws + (if outcome.Panicked? then 1 else 0) == d0 + Drawn(handled)
      && (outcome.Returned? && outcome.result.Err? && !last.Close? ==>
            screen.draws > d0 && screen.drawReply(screen.draws - 1) == Err(outcome.result.error))
      && Now(state) == Replay(w0, state, handled)
      && (forall i :: 0 <= i < |handled| - 1 ==> !Panics(Replay(w0, state, handled[..i]), state, handled[i]))
      && (outcome.Panicked? <==> Panics(Replay(w0, state, handled[..|handled| - 1]), state, last))
    }

    /**
     * One turn of the loop: take the next event, and unless it is a
     * `Close`, handle it and draw. `stop` is how the loop ends, when it
     * ends here.
     */
    method Turn(state: WindowState, ghost w0: World, ghost d0: nat, ghost queued: seq<Event>, ghost handled: seq<Event>,
                ghost pending: seq<Event>, ghost closer: int)
      returns (event: Event, stop: Option<RunOutcome>, ghost pending': seq<Event>, ghost closer': int)
      requires Running(state, w0, d0, queued, handled, pending, closer)
      requires queue.priority != [] || queue.normal != []
      modifies state, network, screen, queue, disk, this
      ensures stop.None? ==> Running(state, w0, d0, queued, handled + [event], pending', closer')
      ensures stop.None? ==> Weight(queue.priority) + Weight(queue.normal) < old(Weight(queue.priority) + Weight(queue.normal))
      ensures stop.Some? ==> Stopped(state, w0, d0, queued, handled + [event], stop.value)
    {
      ghost var fromStart;
      event, pending', fromStart := Take(queued[|handled|..], pending);
      if event.Close? {
        DrawnAppend(handled, event);
        if fromStart {
          PrefixStep(queued, |handled|);
        }
        ReplayStep(w0, state, handled, event, Now(state));
        assert !fromStart ==> (handled + [event])[closer] == handled[closer];
        closer' := closer;
        stop := Some(Returned(if event.closeError.None? then Ok(()) else Err(event.closeError.value)));
        return;
      }
      PrefixStep(queued, |handled|);
      stop, closer' := Advance(state, w0, d0, queued, handled, event, pending', closer);
    }

    /**
     * The rest of a turn once an event other than `Close`, the next one
     * queued at the start, is taken: handle it and draw, keeping the
     * loop's accounting.
     */
    method Advance(state: WindowState, ghost w0: World, ghost d0: nat, ghost queued: seq<Event>, ghost handled: seq<Event>,
                   event: Event, ghost pending: seq<Event>, ghost closer: int)
      returns (stop: Option<RunOutcome>, ghost closer': int)
      requires !event.Close?
      requires forall i :: 0 <= i < |handled| ==> !handled[i].Close?
      requires screen.draws == d0 + Drawn(handled)
      requires |handled| < |queued| && handled + [event] == queued[..|handled| + 1]
      requires Lanes(queue.priority, queue.normal, queued[|handled| + 1..], pending)
      requires |pending| < |queue.priority| ==> 0 <= closer < |handled| && ClosesApp(handled[closer])
      requires Traced(w0, state, handled, Now(state))
      modifies state, network, screen, queue, disk, this
      ensures stop.None? ==> Running(state, w0, d0, queued, handled + [event], pending, closer')
      ensures stop.None? ==> Weight(queue.priority) + Weight(queue.normal) <= old(Weight(queue.priority) + Weight(queue.normal)) + 1
      ensures stop.Some? ==> Stopped(state, w0, d0, queued, handled + [event], stop.value)
    {
      DrawnAppend(handled, event);
      ReplayStep(w0, state, handled, event, Now(state));
      ghost var p1 := queue.priority;
      WeightAppend(p1, Close(None));
      closer' := closer;
      stop := Step(state, event, w0, handled);
      if stop.Some? {
        return;
      }
      if queue.priority != p1 {
        LanesPush(p1, queue.normal, queued[|handled| + 1..], pending);
        closer' := |handled|;
      }
    }

    /**
     * `receive`, with the loop's account of the queue: the event is the
     * next one queued at the start, or a `Close(None)` a key queued ahead
     * of it.
     */
    method Take(ghost rest: seq<Event>, ghost pending: seq<Event>) returns (event: Event, ghost pending': seq<Event>, ghost fromStart: bool)
      requires queue.priority != [] || queue.normal != []
      requires Lanes(queue.priority, queue.normal, rest, pending)
      modifies queue
      ensures Weight(queue.priority) + Weight(queue.normal) + (if event.Close? then 1 else 2)
           == old(Weight(queue.priority) + Weight(queue.normal))
      ensures fromStart ==> rest != [] && event == rest[0] && Lanes(queue.priority, queue.normal, rest[1..], pending')
      ensures fromStart ==> |pending'| < |queue.priority| ==> |pending| < |old(queue.priority)|
      ensures !fromStart ==> event == Close(None) && |pending| < |old(queue.priority)|
    {
      LanesTake(queue.priority, queue.normal, rest, pending);
      fromStart := pending != [] || queue.priority == [];
      pending' := if pending != [] then pending[1..] else [];
      event := queue.Receive();
    }

    /**
     * One turn of the loop after an event other than `Close` is taken:
     * route it, and draw the window unless its handler panicked. The
     * result is how `run` ends, when it ends here.
     */
    method Step(state: WindowState, event: Event, ghost w: World, ghost before: seq<Event>) returns (stop: Option<RunOutcome>)
      requires !event.Close?
      requires Now(state) == Replay(w, state, before)
      modifies state, network, screen, queue, disk, this
      ensures queue.normal == old(queue.normal)
      ensures queue.priority == old(queue.priority) || (queue.priority == old(queue.priority) + [Close(None)] && ClosesApp(event))
      ensures stop == Some(Panicked) ==>
        event.Network? && event.netEvent.Message? && event.netEvent.message.UserData? && screen.draws == old(screen.draws)
      ensures stop != Some(Panicked) ==> screen.draws == old(screen.draws) + 1
      ensures stop.Some? && stop != Some(Panicked) ==>
        screen.drawReply(old(screen.draws)).Err? && stop == Some(Returned(Err(screen.drawReply(old(screen.draws)).error)))
      ensures stop.None? ==> screen.drawReply(old(screen.draws)).Ok?
      ensures Now(state) == Replay(w, state, before + [event])
      ensures stop == Some(Panicked) <==> Panics(Replay(w, state, before), state, event)
    {
      ReplayAppend(w, state, before, event);
      var panicked := Handle(state, event);
      if panicked {
        return Some(Panicked);
      }
      var drawn := screen.Draw();
      if drawn.Err? {
        return Some(Returned(Err(drawn.error)));
      }
      stop := None;
    }

    /**
     * `run`: the window state starts empty; the setup runs, and its first
     * failure is the result; then the loop runs until a `Close`, a failed
     * draw or a panic.
     */
    method Run() returns (outcome: RunOutcome, ghost handled: seq<Event>, ghost state: WindowState)
      modifies screen, network, queue, disk, this
      ensures fresh(state) && state.userNameOf == userNameOf && state.endpointsOf == endpointsOf && state.inputOf == inputOf
      ensures screen.drawReply(old(screen.draws)).Ok? && SetupRun(old(network.calls)).1.Err? ==>
        && outcome == Returned(Err(SetupRun(old(network.calls)).1.error)) && handled == []
        && network.calls == SetupRun(old(network.calls)).0
      ensures screen.drawReply(old(screen.draws)).Ok? && SetupRun(old(network.calls)).1.Ok? ==>
        Now(state) == Replay(World([], SetupRun(old(network.calls)).0, old(disk.appended), old(disk.attempts), old(id), old(sendThreads)),
                             state, handled)
      ensures screen.drawReply(old(screen.draws)).Ok? && SetupRun(old(network.calls)).1.Ok? ==>
        var w0 := World([], SetupRun(old(network.calls)).0, old(disk.appended), old(disk.attempts), old(id), old(sendThreads));
        var queued := old(queue.priority) + old(queue.normal);
        && (!outcome.Waiting? ==> Stopped(state, w0, old(screen.draws) + 1, queued, handled, outcome))
        && (outcome.Waiting? ==> (forall i :: 0 <= i < |handled| ==> !handled[i].Close?) && Traced(w0, state, handled, Now(state)))
      ensures screen.drawReply(old(screen.draws)).Err? ==>
        outcome == Returned(Err(screen.drawReply(old(screen.draws)).error)) && handled == [] && network.calls == old(network.calls)
      ensures handled != [] ==> screen.draws + (if outcome.Panicked? then 1 else 0) == old(screen.draws) + 1 + Drawn(handled)
      ensures forall i :: 0 <= i < |handled| - 1 ==> !handled[i].Close?
      ensures outcome == Returned(Ok(())) ==> handled != [] && handled[|handled| - 1] == Close(None)
      ensures outcome.Panicked? ==> handled != [] && handled[|handled| - 1].Network?
      ensures outcome.Waiting? ==> handled == old(queue.priority) + old(queue.normal)
      ensures TakenInOrder(handled, old(queue.priority) + old(queue.normal))
    {
      var window := new WindowState(userNameOf, endpointsOf, inputOf);
      state := window;
      var setup := Setup(window);
      if setup.Err? {
        return Returned(Err(setup.error)), [], window;
      }
      outcome, handled := Loop(window);
    }
  }
}
