/**
 * What `application.rs` works with besides its own code: the messages peers
 * exchange, the events it receives, the queue they arrive on, and the
 * network, terminal, disk and window state it acts on.
 *
 * The operations of those collaborators are not among the modelled
 * sources. Each is kept as a record of the calls made on it, in order; what
 * a call answers is a function, supplied from outside, of the calls made
 * before it.
 */
module AppWorld {
  import opened Wrappers
  import opened Bytes
  import opened Net
  import opened ReadEvent

  // ---------------------------------------------------------------- messages and events

  /** The application's `NetMessage` (its own, older set of messages). */
  datatype AppMessage =
    | HelloLan(user: string, serverPort: u16)
    | HelloUser(user: string)
    | UserMessage(content: string)
    | UserData(fileName: string, data: Option<(seq<byte>, nat)>, error: Option<string>)

  /** message_io's `NetEvent` */
  datatype NetEvent =
    | Message(endpoint: Endpoint, message: AppMessage)
    | AddedEndpoint(added: Endpoint)
    | RemovedEndpoint(removed: Endpoint)

  /** The crossterm key codes the application tells apart; every other key is `OtherKey`. */
  datatype KeyCode = Esc | Char(c: char) | Enter | Delete | Backspace | Left | Right | Home | End | Up | Down | PageUp | OtherKey

  /** crossterm's `Event`; `control` says whether the Control modifier was held. */
  datatype TermEvent = Key(code: KeyCode, control: bool) | Mouse | Resize(columns: nat, rows: nat)

  /** `Event`: what the application's queue carries. */
  datatype Event =
    | Network(netEvent: NetEvent)
    | Terminal(termEvent: TermEvent)
    | ReadFile(chunk: Result<FileChunk, string>)
    | Close(closeError: Option<string>)

  // ---------------------------------------------------------------- the window state

  datatype TermchatMessageType = Error | Notification

  /** A `LogMessage`: a user's text, or a message from the application itself (`termchat_message`). */
  datatype LogMessage = Content(user: string, text: string) | Termchat(note: string, kind: TermchatMessageType)

  datatype CursorMovement = CursorLeft | CursorRight | CursorStart | CursorEnd
  datatype ScrollMovement = ScrollUp | ScrollDown | ScrollStart

  /** The operations the application calls on its `ApplicationState`. */
  datatype StateCall =
    | AddMessage(message: LogMessage)
    | ConnectedUser(endpoint: Endpoint, user: string)
    | DisconnectedUser(gone: Endpoint)
    | InputWrite(c: char)
    | ResetInput
    | InputRemove
    | InputRemovePrevious
    | InputMoveCursor(movement: CursorMovement)
    | MessagesScroll(scroll: ScrollMovement)
    | ProgressStart(startId: nat)
    | ProgressPulse(pulseId: nat, fileSize: nat, bytesRead: nat)
    | ProgressStop(stopId: nat)
    | ProgressStopLast

  /**
   * The application's `ApplicationState` as the calls made on it, starting
   * from `ApplicationState::new`; the answers of `user_name`,
   * `all_user_endpoints` and `reset_input` are functions of those calls.
   */
  class WindowState {
    var calls: seq<StateCall>
    const userNameOf: (seq<StateCall>, Endpoint) -> Option<string>
    const endpointsOf: seq<StateCall> -> seq<Endpoint>
    const inputOf: seq<StateCall> -> Option<string>

    constructor(userNameOf: (seq<StateCall>, Endpoint) -> Option<string>, endpointsOf: seq<StateCall> -> seq<Endpoint>,
                inputOf: seq<StateCall> -> Option<string>)
      ensures calls == []
      ensures this.userNameOf == userNameOf && this.endpointsOf == endpointsOf && this.inputOf == inputOf
    {
      calls := [];
      this.userNameOf, this.endpointsOf, this.inputOf := userNameOf, endpointsOf, inputOf;
    }

    /** `user_name`: the user connected at an endpoint, if any. */
    function UserName(endpoint: Endpoint): Option<string>
      reads this
    {
      userNameOf(calls, endpoint)
    }

    /** `all_user_endpoints` */
    function AllUserEndpoints(): seq<Endpoint>
      reads this
    {
      endpointsOf(calls)
    }

    /** Any call that answers nothing. */
    method Call(c: StateCall)
      modifies this
      ensures calls == old(calls) + [c]
    {
      calls := calls + [c];
    }

    /** `reset_input`: the typed line, if there is one, taken out of the input. */
    method TakeInput() returns (input: Option<string>)
      modifies this
      ensures input == inputOf(old(calls)) && calls == old(calls) + [ResetInput]
    {
      input := inputOf(calls);
      calls := calls + [ResetInput];
    }
  }

  // ---------------------------------------------------------------- the network

  /** The calls made on the `NetworkManager`. */
  datatype NetCall =
    | ListenTcp(listenAddr: SocketAddr)
    | ListenUdpMulticast(multicastAddr: SocketAddr)
    | ConnectUdp(udpAddr: SocketAddr)
    | ConnectTcp(tcpAddr: SocketAddr)
    | Send(to: Endpoint, sent: AppMessage)
    | SendAll(toAll: seq<Endpoint>, sentToAll: AppMessage)

  /** message_io's `NetworkManager`: its calls, and what each answers given the calls before it. */
  class NetworkManager {
    var calls: seq<NetCall>
    const listenReply: seq<NetCall> -> Result<SocketAddr, string>
    const multicastReply: seq<NetCall> -> Result<(), string>
    const connectReply: seq<NetCall> -> Result<Endpoint, string>
    const sendReply: seq<NetCall> -> Result<(), string>
    /** The endpoints a `send_all` fails for, with their errors. */
    const sendAllReply: seq<NetCall> -> seq<(Endpoint, string)>

    constructor(listenReply: seq<NetCall> -> Result<SocketAddr, string>, multicastReply: seq<NetCall> -> Result<(), string>,
                connectReply: seq<NetCall> -> Result<Endpoint, string>, sendReply: seq<NetCall> -> Result<(), string>,
                sendAllReply: seq<NetCall> -> seq<(Endpoint, string)>)
      ensures calls == []
      ensures this.listenReply == listenReply && this.multicastReply == multicastReply
      ensures this.connectReply == connectReply && this.sendReply == sendReply && this.sendAllReply == sendAllReply
    {
      calls := [];
      this.listenReply, this.multicastReply := listenReply, multicastReply;
      this.connectReply, this.sendReply, this.sendAllReply := connectReply, sendReply, sendAllReply;
    }

    /** `listen_tcp`: the address the server listens on. */
    method ListenTcpAt(addr: SocketAddr) returns (r: Result<SocketAddr, string>)
      modifies this
      ensures r == listenReply(old(calls)) && calls == old(calls) + [ListenTcp(addr)]
    {
      r := listenReply(calls);
      calls := calls + [ListenTcp(addr)];
    }

    /** `listen_udp_multicast` */
    method ListenUdpMulticastAt(addr: SocketAddr) returns (r: Result<(), string>)
      modifies this
      ensures r == multicastReply(old(calls)) && calls == old(calls) + [ListenUdpMulticast(addr)]
    {
      r := multicastReply(calls);
      calls := calls + [ListenUdpMulticast(addr)];
    }

    /** `connect_udp` */
    method ConnectUdpTo(addr: SocketAddr) returns (r: Result<Endpoint, string>)
      modifies this
      ensures r == connectReply(old(calls)) && calls == old(calls) + [ConnectUdp(addr)]
    {
      r := connectReply(calls);
      calls := calls + [ConnectUdp(addr)];
    }

    /** `connect_tcp` */
    method ConnectTcpTo(addr: SocketAddr) returns (r: Result<Endpoint, string>)
      modifies this
      ensures r == connectReply(old(calls)) && calls == old(calls) + [ConnectTcp(addr)]
    {
      r := connectReply(calls);
      calls := calls + [ConnectTcp(addr)];
    }

    /** `send` */
    method SendTo(endpoint: Endpoint, message: AppMessage) returns (r: Result<(), string>)
      modifies this
      ensures r == sendReply(old(calls)) && calls == old(calls) + [Send(endpoint, message)]
    {
      r := sendReply(calls);
      calls := calls + [Send(endpoint, message)];
    }

    /** `send_all`: Ok, or the endpoints it failed for. */
    method SendToAll(endpoints: seq<Endpoint>, message: AppMessage) returns (r: Result<(), seq<(Endpoint, string)>>)
      modifies this
      ensures sendAllReply(old(calls)) == [] ==> r == Ok(())
      ensures sendAllReply(old(calls)) != [] ==> r == Err(sendAllReply(old(calls)))
      ensures calls == old(calls) + [SendAll(endpoints, message)]
    {
      var failures := sendAllReply(calls);
      r := if failures == [] then Ok(()) else Err(failures);
      calls := calls + [SendAll(endpoints, message)];
    }
  }

  // ---------------------------------------------------------------- terminal and disk

  /** The terminal: how many times the window was drawn, and whether each draw worked. */
  class Screen {
    var draws: nat
    const drawReply: nat -> Result<(), string>

    constructor(drawReply: nat -> Result<(), string>)
      ensures draws == 0 && this.drawReply == drawReply
    {
      draws := 0;
      this.drawReply := drawReply;
    }

    /** `ui::draw` */
    method Draw() returns (r: Result<(), string>)
      modifies this
      ensures r == drawReply(old(draws)) && draws == old(draws) + 1
    {
      r := drawReply(draws);
      draws := draws + 1;
    }
  }

  /**
   * The received files under the temporary directory: the data appended to
   * each user's file, in order, and whether each attempt to open and
   * append worked.
   */
  class Disk {
    var appended: seq<(string, string, seq<byte>)>
    var attempts: nat
    const appendReply: nat -> Result<(), string>

    constructor(appendReply: nat -> Result<(), string>)
      ensures appended == [] && attempts == 0 && this.appendReply == appendReply
    {
      appended, attempts := [], 0;
      this.appendReply := appendReply;
    }

    /** Open `termchat/<user>/<file>` for appending, creating it, and write the data. */
    method Append(user: string, fileName: string, data: seq<byte>) returns (r: Result<(), string>)
      modifies this
      ensures r == appendReply(old(attempts)) && attempts == old(attempts) + 1
      ensures appended == old(appended) + (if r.Ok? then [(user, fileName, data)] else [])
    {
      r := appendReply(attempts);
      attempts := attempts + 1;
      if r.Ok? {
        appended := appended + [(user, fileName, data)];
      }
    }
  }

  // ---------------------------------------------------------------- the event queue

  /** message_io's `EventQueue`: events sent with priority are received before all others. */
  class EventQueue {
    var priority: seq<Event>
    var normal: seq<Event>

    constructor(priority: seq<Event>, normal: seq<Event>)
      ensures this.priority == priority && this.normal == normal
    {
      this.priority, this.normal := priority, normal;
    }

    /** `receive`, when some event is waiting. */
    method Receive() returns (e: Event)
      requires priority != [] || normal != []
      modifies this
      ensures old(priority) != [] ==> e == old(priority)[0] && priority == old(priority)[1..] && normal == old(normal)
      ensures old(priority) == [] ==> e == old(normal)[0] && normal == old(normal)[1..] && priority == old(priority)
    {
      if priority != [] {
        e := priority[0];
        priority := priority[1..];
      } else {
        e := normal[0];
        normal := normal[1..];
      }
    }

    /** `sender().send_with_priority` */
    method SendWithPriority(e: Event)
      modifies this
      ensures priority == old(priority) + [e] && normal == old(normal)
    {
      priority := priority + [e];
    }
  }

  /** A measure of the work queued: a `Close` ends the run, so it weighs less than any other event. */
  function Weight(events: seq<Event>): nat
  {
    if events == [] then 0 else (if events[0].Close? then 1 else 2) + Weight(events[1..])
  }

  lemma {:induction false} WeightAppend(events: seq<Event>, e: Event)
    ensures Weight(events + [e]) == Weight(events) + (if e.Close? then 1 else 2)
  {
    if events == [] {
      assert [] + [e] == [e];
    } else {
      assert (events + [e])[1..] == events[1..] + [e];
      WeightAppend(events[1..], e);
    }
  }
}
