/**
 * The messages termchat peers exchange (src/message.rs). Both enums are
 * serialised by their variant index, which is their declaration order.
 */
module Message {
  import opened Wrappers
  import opened Bytes

  /** One segment of a file transfer. */
  datatype Chunk = Data(bytes: seq<byte>) | Error | End

  /** A video frame: the pixel bytes, then width and height (`usize`). */
  datatype Frame = Frame(data: seq<byte>, width: u64, height: u64)

  datatype NetMessage =
    | HelloLan(userName: string, serverPort: u16)
    | HelloUser(userName: string)
    | UserMessage(content: string)
    | UserData(fileName: string, chunk: Chunk)
    | Stream(frame: Option<Frame>)   // None: the stream has ended

  /** The variant index of a chunk: Data, Error, End in declaration order. */
  function ChunkIndex(c: Chunk): (r: u32)
    ensures r < 3
    ensures (r == 0 <==> c.Data?) && (r == 1 <==> c.Error?) && (r == 2 <==> c.End?)
  {
    match c
    case Data(_) => 0
    case Error => 1
    case End => 2
  }

  /** The variant index of a message, 0 to 4 in declaration order. */
  function MessageIndex(m: NetMessage): (r: u32)
    ensures r < 5
    ensures r == 0 <==> m.HelloLan?
    ensures r == 1 <==> m.HelloUser?
    ensures r == 2 <==> m.UserMessage?
    ensures r == 3 <==> m.UserData?
    ensures r == 4 <==> m.Stream?
  {
    match m
    case HelloLan(_, _) => 0
    case HelloUser(_) => 1
    case UserMessage(_) => 2
    case UserData(_, _) => 3
    case Stream(_) => 4
  }
}
