# termchat core, modelled in Dafny

termchat is a terminal chat for a local network. Peers find each other by announcing their
user name on a multicast group, then talk over TCP. Besides text they can send files,
a camera stream and microphone audio. This project models the parts of it that decide
what happens:

- the wire codec: the `Chunk` and `NetMessage` enums in the bincode 1.x layout;
- the `?`-prefixed command registry and the commands' per-quantum actions
  (file send, video stream in two revisions, audio, and the stop actions with their flags);
- the file reader thread that turns a file into chunk events;
- the application's event loop, which routes network, terminal, file-reader and close events;
- the text helpers of `util.rs`;
- the panel decisions of `ui.rs`;
- the playback-stream lifecycle of `state/audio.rs`;
- the configuration merge of `config.rs`.

Each source file is modelled in its own form:

- Code that changes state in place is a class with fields and `modifies` clauses.
  That covers the encoder's output buffer, the command registry, the actions,
  the shared `State`, the reader's id counter and the application.
  Most such methods are proved against a specification function. The application's
  collaborators are summed up as a `World`: the window state's calls, the network's
  calls, the disk's writes, the reader ids and the transfers started. Each handler
  is proved against an effect function on that `World`. `Handle` is proved against
  `Effect`, which routes an event to its handler's effect. The loop and `Run` are
  proved against `Replay`, which folds `Effect` over the events handled, in order.
- Loops are methods with invariants: `split_each`, `stringify_sendall_errors`,
  the YUYV fold, the channel drain and the reader thread's block loop.
- Matches and iterator chains are functions with lemmas about them.

Collaborators outside the modelled sources are kept as the log of calls made on them.
Each answer is a function, given from outside, of the calls made before it.
These are message_io's `NetworkManager` and `EventQueue`, the terminal, the disk,
the file system, the capture device, the window state's own operations,
the clock, and the commands' `State`.

The files:

| file | module | models |
|---|---|---|
| wrappers.dfy | Wrappers | `Option`, `Result` |
| bytes.dfy | Bytes | bytes, fixed-width integers, little-endian encoding |
| utf8.dfy | Utf8 | UTF-8, the byte form of a Rust `String` |
| text.dfy | Text | `split_whitespace`, `split`, joins |
| net.dfy | Net | socket addresses and endpoints |
| files.dfy | Files | `Path::file_name`; files as bytes, a read position and a failing read |
| message.dfy | Message | `src/message.rs` |
| encoder.dfy | Encoder | `src/encoder.rs` and the bincode layout it relies on |
| action.dfy | Actions | `Processing` of `src/action.rs` |
| session.dfy | Session | the commands' `State`, the `AudioStream` handle, the outgoing network |
| util.dfy | Util | `src/util.rs` |
| audio.dfy | Audio | `src/state/audio.rs` |
| commands.dfy | Commands | `src/commands.rs` |
| send_file.dfy | SendFile | `src/commands/send_file.rs` |
| capture.dfy | Capture | the capture stream the video senders read |
| send_stream_linux.dfy | StreamLinux | `src/commands/send_stream/linux.rs` |
| send_stream_legacy.dfy | StreamLegacy | `src/commands/send_stream.rs` |
| send_stream_other.dfy | StreamOther | `src/commands/send_stream/other.rs` |
| send_audio.dfy | SendAudio | `src/commands/send_audio.rs` |
| read_event.dfy | ReadEvent | `src/read_event.rs` |
| app_read_event.dfy | AppReadEvent | `src/application/read_event.rs` |
| state.dfy | AppState | `src/state.rs` |
| app_world.dfy | AppWorld | the application's events, messages and collaborators |
| application.dfy | App | `src/application.rs` and `src/application/commands.rs` |
| ui.dfy | Ui | `src/ui.rs` (message panel decisions) |
| config.dfy | Config | `src/config.rs` |

The source tree holds several revisions side by side, and each file is modelled against
its own signatures. `application.rs` imports the reader of `src/read_event.rs`, and
`application/commands.rs` calls its three-argument `send`. So the application model uses
that reader. `src/application/read_event.rs` has a two-argument `send` that nothing
calls, and it is modelled on its own. Where the code and its comments disagree, the
model follows the code; see "## Findings".

## Model

| member | source | states |
|---|---|---|
| Message.ChunkIndex | src/message.rs:4-8 | the wire tag of a chunk is 0, 1, 2 for Data, Error, End, each tag naming exactly one variant |
| Message.MessageIndex | src/message.rs:11-17 | the wire tags of the five messages are 0 to 4 in declaration order, one variant per tag |
| Bytes.FromLEToLE | src/encoder.rs:12-16 | a number written little-endian in k bytes reads back as itself when it fits |
| Bytes.ToLEFromLE | src/encoder.rs:19-21 | k bytes read as a number and written back are the same bytes |
| Utf8.DecodeEncode | src/encoder.rs:12-21 | the UTF-8 bytes of a string decode to that string |
| Utf8.EncodeDecode | src/encoder.rs:19-21 | bytes accepted as UTF-8 are the canonical encoding of what they decode to |
| Encoder.RoundTrip | src/encoder.rs:12-21 | decode(encode(m)) == Some(m) for every message, including `Data([])` and `Stream(None)` |
| Encoder.DecodeSerialize | src/encoder.rs:19-21 | a message followed by any trailing bytes still decodes to the message |
| Encoder.DecodeSound | src/encoder.rs:19-21 | whatever decodes starts with the serialisation of the message it decodes to |
| Encoder.ReadMessageExtend | src/encoder.rs:19-21 | bytes appended after a message change only the leftover, never the message read |
| Encoder.ReadWholeNoPrefix | src/encoder.rs:19-21 | input that reads as exactly one message has no proper prefix that reads as one |
| Encoder.DecodeTruncated | src/encoder.rs:19-21 | every proper prefix of a serialisation, the empty one included, decodes to None |
| Encoder.DecodeUnknownTag | src/encoder.rs:19-21 | a message tag of 5 or more decodes to None |
| Encoder.DecodeUnknownChunkTag | src/encoder.rs:19-21 | a chunk tag of 3 or more inside `UserData` decodes to None |
| Encoder.DecodeBadOptionTag | src/encoder.rs:19-21 | an `Option` tag byte other than 0 or 1 in `Stream` decodes to None |
| Encoder.Encoder.constructor | src/encoder.rs:8-10 | a new encoder has an empty output buffer |
| Encoder.Encoder.Encode | src/encoder.rs:12-16 | the buffer is cleared and then holds exactly the message's serialisation, which is returned and decodes back to the message |
| Commands.FindCommandAction | src/commands.rs:26-36 | a command is found only for input starting with `?`, only among the registered ones, and with whitespace-free parameters |
| Commands.CommandManager.constructor | src/commands.rs:13-16 | a new registry is empty |
| Commands.CommandManager.With | src/commands.rs:21-24 | registering adds the command under its name and replaces any earlier command of that name |
| Commands.WithReplaces | src/commands.rs:21-24 | after two registrations under one name, the later command is the one found |
| Commands.FindOnlyWhitespace | src/commands.rs:26-36 | `?` followed only by whitespace finds nothing |
| Commands.FindKnown | src/commands.rs:26-36 | a registered verb, after any whitespace, is found with the remaining tokens in order as its parameters |
| Commands.FindUnknown | src/commands.rs:26-36 | an unregistered verb finds nothing, and no error is produced |
| Commands.FindSplitsQuotedPath | src/commands.rs:26-36 | quotes are not honoured: a quoted path with a space reaches the command as two parameters |
| SendFile.Open | src/commands/send_file.rs:39-58 | a file is opened only under its path's last component; a missing name, then a metadata error, then an open error, each ends the attempt with its own error, and success returns the name, the size and the file opened |
| SendFile.Parse | src/commands/send_file.rs:19-25 | no parameter gives "No file specified"; otherwise the first parameter is the path |
| SendFile.ParseFirstOnly | src/commands/send_file.rs:19-25 | parameters after the first are ignored |
| SendFile.OpenNamesLastComponent | src/commands/send_file.rs:40-47 | a readable file `dir/name` is sent as `name` |
| SendFile.OpenWithoutName | src/commands/send_file.rs:40-47 | a path ending in `..`, or the root, fails with "Unable to read file name" |
| SendFile.StepAt | src/commands/send_file.rs:62-89 | one quantum: a read error gives `Error` and `Completed` with one error message; nothing left gives `End` and `Completed`; otherwise up to 65500 next bytes as `Data` and `Partial`; bytes read are 0 unless data. The payload is the bytes read, as corrected in "## Findings" |
| SendFile.TransferShape | src/commands/send_file.rs:62-89 | a whole transfer is data chunks closed by exactly one `End` or `Error` |
| SendFile.TransferDelivers | src/commands/send_file.rs:62-89 | without a read failure, the data payloads put together are the file's bytes, and the transfer ends with `End` |
| SendFile.PaddedPayload | src/commands/send_file.rs:73-75 | the payload as written is the whole 65500-byte buffer, the bytes read followed by zeros |
| SendFile.PaddedPayloadLosesLength | src/commands/send_file.rs:73-75 | with the padded payload, a 1-byte file and a 2-byte file ending in 0 send the same chunk, of the wrong length |
| SendFile.SendFileAction.constructor | src/commands/send_file.rs:49-57 | a new action holds the opened file at position 0, its name and size, and no progress entry |
| SendFile.SendFileAction.Process | src/commands/send_file.rs:62-89 | the progress entry is created on the first call only; then one step of `StepAt`: the file position advances by the bytes read, progress is updated by them, and exactly one `UserData(name, chunk)` is broadcast, its data being the bytes read (the corrected payload of "## Findings") |
| SendFile.New | src/commands/send_file.rs:39-58 | the action is made exactly when `Open` succeeds, from what it opened; otherwise `Open`'s error is returned |
| Session.AudioStream.Update | src/state/audio.rs:14-16 | `update` forwards exactly the buffer given to the playback stream |
| Session.AudioStream.Stop | src/state/audio.rs:18-20 | `stop` sends one stop signal |
| Util.SplitEach | src/util.rs:3-23 | the rows put together are the input; empty input gives no rows; a row closes only when it is full or the next character would overflow it; the first row is empty exactly when the first character is wider than the width |
| Util.RowsFitWidth | src/util.rs:10-16 | when no character is wider than the width, no row is wider either |
| Util.StringifySendallErrors | src/util.rs:30-42 | one "Failed to connect to ..., error: ..." line per failure, in order, joined by newlines, with no newline at the end |
| Util.FailureLines | src/util.rs:30-42 | one line per failure, in the failures' order |
| Util.FailureLinesRecoverable | src/util.rs:30-42 | splitting the message at newlines gives back the lines, when no endpoint or error text has a newline |
| Util.ReportIfErr | src/util.rs:61-67 | Ok leaves the log as it is; Err appends exactly one error message with the error's text |
| Util.ReportSendAllIfErr | src/util.rs:69-75 | Ok leaves the log as it is; Err appends exactly one error message, the aggregated failure lines |
| Util.ReportErr | src/util.rs:77-86 | appends exactly one error message |
| Util.ReportInfo | src/util.rs:88-90 | appends exactly one info message |
| Util.ReportWarn | src/util.rs:92-94 | appends exactly one info message, not a warning |
| Audio.PulseAudio | src/state/audio.rs:53-57 | on Linux a stream is started only when there is none, and afterwards the buffer has been forwarded to the stream, which is reused by later calls; elsewhere nothing changes |
| Audio.StopAudio | src/state/audio.rs:60-64 | on Linux the stream is taken out, leaving none, and signalled to stop exactly once if there was one; elsewhere nothing changes |
| Audio.PlaybackSamples | src/state/audio.rs:36-41 | playback reads one little-endian sample per whole 4-byte group, in order |
| Audio.PlaybackOfSampleBytes | src/state/audio.rs:36-41 | samples written little-endian are played back unchanged |
| Audio.PlaybackAppend | src/state/audio.rs:36-41 | whole groups in front decode on their own |
| Audio.PlaybackDropsTail | src/state/audio.rs:36-41 | a trailing group shorter than 4 bytes is not played |
| SendAudio.Channel.TryRecv | src/commands/send_audio.rs:73 | the channel is first-in first-out: the oldest pending buffer, or None when empty |
| SendAudio.Drain | src/commands/send_audio.rs:73 | all pending buffers, put together in arrival order, leaving the channel empty |
| SendAudio.SendAudioAction.constructor | src/commands/send_audio.rs:35-56 | a new action's channel is empty |
| SendAudio.SendAudioAction.Process | src/commands/send_audio.rs:60-78 | with the stop flag up: clear it, broadcast the audio's end, `Completed`; otherwise broadcast everything pending (even nothing), empty the channel, `Partial(10 ms)`; no message is ever logged |
| SendAudio.StopAudioProcess | src/commands/send_audio.rs:96-99 | raises the stop flag, sends nothing, `Completed` |
| SendAudio.ForwardedSamplesPlayInOrder | src/commands/send_audio.rs:73-75 | samples recorded into several buffers and forwarded in one quantum play back as all the samples in recording order |
| Capture.Camera.Next | src/commands/send_stream/linux.rs:60 | each read yields the stream's next frame or its error |
| StreamLinux.Rgb | src/commands/send_stream/linux.rs:69-88 | the RGB output has 3 bytes per whole 4-byte YUYV group |
| StreamLinux.RgbPixel | src/commands/send_stream/linux.rs:69-88 | pixel i comes from bytes 4i, 4i+1 and 4i+3 of the frame |
| StreamLinux.RgbDropsTail | src/commands/send_stream/linux.rs:69-88 | trailing bytes of a partial group do not change the output |
| StreamLinux.YuyvToRgb | src/commands/send_stream/linux.rs:69-88 | the fold over `chunks_exact(4)` builds exactly `Rgb` of the frame |
| StreamLinux.SendStream.constructor | src/commands/send_stream/linux.rs:38-49 | the action keeps the capture stream and the frame size fixed when it was opened |
| StreamLinux.SendStream.Process | src/commands/send_stream/linux.rs:53-94 | with the stop flag up: clear it, broadcast `Stream(None)`, `Completed`, without reading; a read error: one error message, `Stream(None)`, `Completed`; otherwise broadcast the RGB frame with the fixed size, `Partial(16 ms)` |
| StreamLinux.NewSendStream | src/commands/send_stream/linux.rs:38-49 | a failure to open device 0 panics with "Failed to open device"; a set-up error is returned; otherwise the action has the capture stream, the pixel conversion and the device's frame size |
| StreamLinux.StopStreamProcess | src/commands/send_stream/linux.rs:112-115 | raises the stop flag, sends nothing, `Completed` |
| StreamLegacy.WordsAsWritten | src/commands/send_stream.rs:80-88 | the words as written exist exactly when the frame length is a multiple of 4 (the unwrap fails otherwise) |
| StreamLegacy.Words | src/commands/send_stream.rs:80-88 | one big-endian word per whole 4-byte group, in order |
| StreamLegacy.WordsAgree | src/commands/send_stream.rs:80-88 | where the code as written does not fail, it agrees with `Words` |
| StreamLegacy.WordsAsWrittenFails | src/commands/send_stream.rs:80-88 | a six-byte frame makes the code as written fail |
| StreamLegacy.SendStream.constructor | src/commands/send_stream.rs:50-62 | the action keeps the capture stream and the device's frame size |
| StreamLegacy.SendStream.Process | src/commands/send_stream.rs:66-93 | with `x` at Stop: set it to Run, broadcast `Stream(None)`, `Completed`; a read error: one error message, `Stream(None)`, `Completed`; otherwise broadcast the frame's words with its size, `Partial`. The words are those of the whole 4-byte groups, as corrected in "## Findings" |
| StreamLegacy.StopStreamProcess | src/commands/send_stream.rs:35-38 | sets `x` to Stop, sends nothing, `Completed` |
| StreamOther.ParseParams | src/commands/send_stream/other.rs:8-24 | always an error, "<name> command is not supported on this platform.", so no action is ever made |
| StreamOther.UnsupportedMessages | src/commands/send_stream/other.rs:8-24 | the error does not depend on the parameter, and the two commands' errors differ |
| ReadEvent.Prepare | src/read_event.rs:37-48 | a metadata error, else an open error, is the result; success returns the size and the file opened |
| ReadEvent.Events | src/read_event.rs:54-75 | the reader's calls from a position: at least one, a chunk per read, up to the empty chunk or the error |
| ReadEvent.SendEvents | src/read_event.rs:25-77 | everything the reader thread hands to the callback for one file |
| ReadEvent.ReadThread | src/read_event.rs:33-76 | the thread's block loop makes exactly the calls `SendEvents` lists |
| ReadEvent.PrepareFailure | src/read_event.rs:43-48 | a metadata or open failure gives exactly one error call and no chunk |
| ReadEvent.EventsShape | src/read_event.rs:54-75 | every chunk carries the same id, name and size, with data of exactly its bytes read, at most 65536; only the last call is an empty chunk or an error |
| ReadEvent.EventsDeliver | src/read_event.rs:54-75 | the calls deliver the file's bytes in order, stopping exactly at the end or at the failing read |
| ReadEvent.SentFileArrivesWhole | src/read_event.rs:25-77 | a file that opens and reads has all its bytes, in order, in the chunks |
| AppReadEvent.ReadFile.constructor | src/application/read_event.rs:20-22 | ids start at 0 and the callback has not been called |
| AppReadEvent.ReadFile.Send | src/application/read_event.rs:24-45 | on a failure, the error and nothing else; on success one callback call with the file, its name, its size and the current id, which is returned, and the id goes up by one, so ids are 0, 1, 2, ... |
| AppReadEvent.ReadFileOnce | src/application/read_event.rs:49-78 | one read gives exactly one event, the first the looping reader would give from that position |
| AppReadEvent.FirstEvent | src/application/read_event.rs:58-76 | the event is a chunk with exactly the bytes read, at most 65536, from the read position, or the read's error exactly when the read fails there |
| AppState.New | src/state.rs:17-24 | a new window state has an empty log, no scroll, an empty input and the cursor within it |
| AppWorld.EventQueue.Receive | src/application.rs:121 | events sent with priority are received before all others, each lane in order |
| AppWorld.EventQueue.SendWithPriority | src/application.rs:255-264 | a priority event goes to the end of the priority lane |
| AppWorld.Disk.Append | src/application.rs:217-227 | a write that works appends the data to the user's file; a failed one appends nothing |
| App.SendTarget | src/application/commands.rs:14-24 | fewer than two tokens gives "No file specified"; otherwise the second token is the path, and a path with no last component gives "Unable to read file name" |
| App.ParseOutcome | src/application/commands.rs:6-12 | a line not starting with `?send` is left alone; one that does names the file to send, or gives the reason there is none |
| App.SendsSecondToken | src/application/commands.rs:6-24 | the test is a prefix test, so `?sendx a/b c` also sends, and only the second token is the path |
| App.SendWithoutPath | src/application/commands.rs:14-18 | `?send` with only whitespace after it gives "No file specified" |
| App.SendQuotedPath | src/application/commands.rs:16-24 | quotes are not honoured: `?send "a b"` sends the file `"a` |
| App.ReceiptOf | src/application.rs:186-246 | a sender's error is refused; no error and no data panics on the unwrap; an empty chunk finishes the file; other data is stored |
| App.StoredChunkData | src/application.rs:122-154 | the bytes a receiver stores for the messages the sender broadcasts are the chunks' data, in order |
| App.FileArrivesWhole | src/application.rs:122-246 | a file that opens and reads is stored whole by the receiver |
| App.KeysThatClose | src/application.rs:255-268 | Esc and Ctrl+C, and only they, close the application; every other character is typed into the input |
| App.Application.constructor | src/application.rs:59-104 | the server address is 0.0.0.0 with the given port, ids start at 0, and no transfer has started |
| App.Application.HandleSendCommand | src/application/commands.rs:14-34 | on an error nothing changes; otherwise the transfer is started and stored under the current id, its progress starts, and the id goes up by exactly one |
| App.Application.ParseInput | src/application/commands.rs:6-12 | a line not starting with `?send` changes nothing; a send line is handled as `HandleSendCommand` does, and its error is returned |
| App.Application.HandleReadFile | src/application.rs:122-154 | a chunk is broadcast as `UserData`; then an empty chunk stops its progress and any other advances it; a read or broadcast error stops the last progress and logs one error |
| App.Application.HandleHelloLan | src/application.rs:158-174 | an announcement carrying the own name is ignored; any other connects, sends `HelloUser` with the own name and records the user; a failure logs exactly one error |
| App.Application.HandleUserMessage | src/application.rs:179-185 | from a known user, one message authored by that user; from an unknown endpoint, nothing |
| App.Application.HandleUserData | src/application.rs:186-246 | from an unknown endpoint, nothing; otherwise what `ReceiptOf` says, a refusal or failed write leaving two error messages, an empty chunk one notification and no write |
| App.Application.HandleKey | src/application.rs:253-326 | Esc and Ctrl+C queue `Close(None)` on the priority lane; a character goes to `input_write`; each editing or scrolling key makes its one call; other keys do nothing; the event queue's normal lane is never touched |
| App.Application.HandleEnter | src/application.rs:269-295 | only when `reset_input` gives a line: it is broadcast and exactly one message (the own text or the aggregated send error) is logged before it is parsed; a parse error is logged as one more error; a `?send` line that names a file starts its reader under the current id, and no other line starts one |
| App.Application.Setup | src/application.rs:106-118 | one draw, then the network steps `SetupRun` lists: listen on TCP, join the discovery group, connect to it and announce the own name and server port; the first step that fails is the result, and no later step is attempted; when all work the result is Ok |
| App.Application.EffectGrows | src/application.rs:120-326 | handling any event only adds to the logs and writes, never lowers the reader id, and, when ids are fresh, starts a transfer only under a fresh id, leaving earlier transfers as they were |
| App.Application.ReplayGrows | src/application.rs:120-337 | the same holds of any run of events |
| App.Application.Handle | src/application.rs:120-326 | the world after is `Effect` of the world before and the event, and the handler panics exactly when `Panics` says. `Effect` sends each event to its own handler's effect: a file chunk `HandleReadFile`, `HelloLan` `HandleHelloLan`, `HelloUser` one `connected_user`, `UserMessage` and `UserData` their handlers, a lost endpoint one `disconnected_user`, Enter `HandleEnter` and other keys `HandleKey`; a new endpoint, mouse and resize change nothing. Only a closing key queues anything (a `Close(None)`, on the priority lane), and only `UserData` can panic |
| App.Application.Take | src/application.rs:121 | the event taken is the next one the loop owes, or a `Close(None)` queued by a closing key, and the queue's weight goes down |
| App.Application.Step | src/application.rs:120-337 | one event handled and the window drawn. The world after is `Replay` of the events so far followed by this one; the turn panics exactly when `Panics` says of this event in the world before, and then without a draw; a failed draw stops the loop with its error; otherwise exactly one draw that worked |
| App.Application.Loop | src/application.rs:120-337 | `Close(None)` returns Ok and `Close(Some(e))` returns e, with no draw after; every other event is followed by exactly one draw; a failed draw returns its error; the events are handled in the order the queue held them, priority lane first, except that the last may be a `Close(None)` queued by an earlier closing key; when the queue runs dry every queued event has been handled. The world after is `Replay` of the events handled, in order. No event before the last panicked, and the loop ends in a panic exactly when `Panics` says of the last event |
| App.Application.Run | src/application.rs:106-337 | the window state starts fresh. A failed first draw is the result. Each failed setup step (listen, multicast join, connect, announcement) is the result, with no event handled and no later step attempted. After a setup that works, the world is `Replay` of the events handled, starting from the setup's network calls, and the run ends as `Loop` does: `Close(None)` returns Ok and `Close(Some(e))` returns e, a failed draw returns its error, no event before the last panics, and the run panics exactly when `Panics` says of the last event. Otherwise the window is drawn once at the start and once after every event up to the `Close`, the events being taken in queue order as in `Loop`, and every queued event handled when the queue runs dry |
| Ui.ParseContent | src/ui.rs:157-176 | content not starting with `?` is one plain span of all of it; otherwise one span per whitespace token, the first command-styled and the later ones after a single space |
| Ui.ParseContentShows | src/ui.rs:157-176 | a command line shows its tokens joined by single spaces; any other content shows exactly as typed |
| Ui.AddProgressBar | src/ui.rs:126-155 | the title, then `[`, `#` for the filled cells, `-` for the rest, `]`, with panel width - 20 cells in all |
| Ui.ProgressEnds | src/ui.rs:135-144 | a pending transfer shows no `#` and a finished one only `#` |
| Ui.ProgressMonotone | src/ui.rs:137-142 | the filled part never shrinks while a transfer advances |
| Ui.MessageColor | src/ui.rs:61-67 | the own user takes its own colour; a user with an id takes a palette colour; an empty palette with such a user is the panic of the remainder by zero, and nothing else panics |
| Ui.ColorsCycle | src/ui.rs:61-67 | with distinct palette colours, ids closer than the palette's length differ in colour, and ids a whole palette apart share one |
| Ui.NewestFirst | src/ui.rs:55-58 | the panel lists the messages newest first |
| Ui.NewestOnTop | src/ui.rs:55-58 | a message just logged goes on top, above the earlier ones in the same order |
| Ui.NewestFirstTwice | src/ui.rs:55-58 | listing the listed messages newest first again gives the log's order |
| Config.Default | src/config.rs:14-23 | discovery on 238.255.0.1:5877, TCP port 0, the system user name, bell on |
| Config.FromConfigFile | src/config.rs:29-55 | no directory gives nothing; a file that reads gives what it parses to; a missing file gets the defaults written, which are returned if the write works; any other error gives nothing |
| Config.FallsBackToDefaults | src/config.rs:29-61 | whenever the file cannot be had or parsed, the defaults are used |
| Config.FromMatches | src/config.rs:60-78 | the file's settings, or the defaults, with the options given applied |
| Config.OverridesOwnField | src/config.rs:64-75 | each option present overrides exactly its own setting, and an absent option keeps the file or default value |
| Config.NoOptionsKeepsBase | src/config.rs:64-75 | without options the settings are the file's or the defaults |
| Config.QuietOnlySilences | src/config.rs:73-75 | quiet mode turns the bell off; the command line never turns it on |
| Config.OverrideIdempotent | src/config.rs:64-75 | applying the same options twice changes nothing more |

## Left out

- Threads and timing are not modelled. This covers the reader thread's `park` between
  reads, the terminal event collector, the audio capture and playback threads and their
  `block_on` loops, and the delays `Processing::Partial` asks for, which are kept as numbers.
- The reader thread's events reach the queue asynchronously. The model keeps a started
  transfer as the list of events its thread produces (`sendThreads`). The loop handles
  only the events already queued, and does not interleave them.
- In this revision nothing unparks the reader thread, so in the source only its first read
  happens. The model lets the thread run to its end.
- message_io's `NetworkManager` and `EventQueue`, the terminal, the disk, the file system,
  the camera, the clock and the window state's own operations (`connected_user`,
  `reset_input`, `progress_*` and the others) are not among the modelled sources. Each is
  a log of calls whose answers are given from outside.
- The commands' `State` is not part of this model's sources either. Only the fields the
  commands and `state/audio.rs` use are kept, and its message and progress operations are
  recorded in a log.
- Drawing is not modelled. That covers `ui::draw` and the panel layout, `renderer.rs`,
  `FrameBuffer::render`, `clean_terminal`, and the input panel. The model keeps only how
  many draws happened and whether each worked.
- Floating-point code is left out. The YUYV to RGB colour arithmetic is a per-pixel
  function given from outside, and so is `util::yuyv_to_rgb` of the older stream command.
  `f32::from_le_bytes` in playback is kept as the 32-bit pattern.
- Ui.AddProgressBar: the fraction of filled cells is computed on integers, rounded down.
  The source uses `f64` and truncates, which can differ in the last cell when the product
  is not exact in floating point. A zero total gives no filled cells (NaN becomes 0).
- Ui.AddProgressBar requires a panel at least 20 columns wide and a current count not past
  the total. The source's unsigned subtractions would underflow there.
- `usize` is 64 bits wide. The u64-to-usize conversion of the file size cannot fail and
  is not modelled.
- Encoder.Encoder.Encode requires the message's strings and byte vectors to be shorter
  than 2^64 bytes. The source's `unwrap` assumes serialising never fails, and no shorter
  value exists on a real machine.
- A path that is not valid UTF-8 cannot be written as a Dafny string. So the file name
  error of `to_str` is modelled only for a path with no last component.
- The reads are whole reads of up to a block. Short reads that return fewer bytes while
  more are left are not modelled.
- `main.rs`, its command-line parsing and clap's validators are left out. The options reach
  `Config.FromMatches` already validated. `terminal_events.rs`, `commands/ss.rs` and the
  `generate_unsupported_command!` macro of `send_audio.rs` are left out too.
- The configuration directory lookup, the TOML parser and the file writes are left out.
  Their outcomes are given as `ConfigIo`.
- The set-up failures of `Application::new` (raw mode, alternate screen, the terminal
  collector) are left out. The constructor is given its collaborators already made.
- `SendAudio.SendAudioAction.constructor` does not model the microphone thread or the
  device set-up, which cannot fail in the model.
- SendFile.SendFileAction.Process: sends the bytes read, while `src/commands/send_file.rs:74`
  sends the whole zero-filled 65500-byte buffer. The buffer as written is kept in
  `SendFile.PaddedPayload`; see "## Findings".
- SendFile.StepAt: the `Data` payload is the bytes read, not the padded buffer of
  `src/commands/send_file.rs:74`, for the same reason.
- StreamLegacy.SendStream.Process: broadcasts `Words` for every frame, while the source's
  `unwrap` panics when the frame length is not a multiple of 4. The code as written is kept
  in `StreamLegacy.WordsAsWritten`; see "## Findings".
- StreamLinux.NewSendStream: the device-open panic is modelled by its message only; the
  error detail `expect` adds to it is not.
- `StreamLegacy.SendStream.constructor` does not model the device set-up, whose failures
  panic in the source.
- Revision mismatches are kept, not repaired:
  - `ReadFile::new` in `src/application/read_event.rs` leaves out the declared `files` field.
  - `send_threads` is not declared on `Application`. It is modelled as a map from id to
    the transfer.
  - The `Stream` payload of `src/message.rs` carries bytes, while the older stream
    command sends 32-bit words.
  - `StreamAudio` is not in `src/message.rs`, so the broadcasts of the commands are
    modelled as their own outgoing values, beside the `NetMessage` of the codec.
- The application's own `NetMessage` (with `HelloLan`, `HelloUser`, `UserMessage` and
  `UserData(name, Option<(data, bytes_read)>, Option<error>)`) is a different revision from
  `src/message.rs`. It is modelled as it is used, and is not serialised.

## Findings

| source | as written | input that shows it | evidently intended | confidence | as-written member | corrected member |
|---|---|---|---|---|---|---|
| src/commands/send_file.rs:73-75 | a `Data` chunk is the whole 65500-byte read buffer, not the `bytes_read` bytes read | a 1-byte file `[7]` and a 2-byte file `[7, 0]` send the same 65500-byte chunk | the chunk carries the bytes read, so the chunks put together are the file | not executed | SendFile.PaddedPayloadLosesLength | SendFile.TransferDelivers |
| src/commands/send_stream.rs:80-88 | `chunks(4)` yields a short last chunk, and its `try_from(...).unwrap()` panics despite the comment calling it safe | a 6-byte frame | only whole 4-byte groups are converted (`chunks_exact(4)`) | not executed | StreamLegacy.WordsAsWrittenFails | StreamLegacy.WordsAgree |
