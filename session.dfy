/**
 * The state shared by the commands (`State`), the outgoing side of the
 * network, and the playback stream a `State` may own.
 *
 * `State` itself is not among the modelled sources: only the fields the
 * commands and `state/audio.rs` read and write are kept. Its message and
 * progress operations are recorded, in order, in `log`; progress ids come
 * from a counter.
 */
module Session {
  import opened Wrappers
  import opened Bytes
  import opened Net
  import opened Message

  datatype SystemMessageType = Info | Warning | Error

  /** One call a command made on the state's message log or progress display. */
  datatype Record =
    | SystemMessage(text: string, kind: SystemMessageType)
    | ProgressCreated(id: nat, fileName: string, fileSize: nat)
    | ProgressUpdated(id: nat, bytes: nat)

  /** The run/stop switch of the older video stream command. */
  datatype Xstate = Run | Stop

  /**
   * What the commands broadcast. `Wire` carries a `NetMessage` of the codec;
   * the older video stream sends 32-bit words and the audio command sends
   * raw sample bytes, which that message type does not have.
   */
  datatype Outgoing =
    | Wire(message: NetMessage)
    | StreamWords(words: Option<(seq<u32>, nat, nat)>)
    | StreamAudio(audio: Option<seq<byte>>)

  /** `AudioStream`: the sending ends of the playback thread's data and stop channels. */
  class AudioStream {
    var forwarded: seq<seq<byte>>
    var stopSignals: nat

    constructor()
      ensures forwarded == [] && stopSignals == 0
    {
      forwarded, stopSignals := [], 0;
    }

    /** `update`: one buffer down the data channel. */
    method Update(audio: seq<byte>)
      modifies this
      ensures forwarded == old(forwarded) + [audio] && stopSignals == old(stopSignals)
    {
      forwarded := forwarded + [audio];
    }

    /** `stop`: one signal down the stop channel. */
    method Stop()
      modifies this
      ensures stopSignals == old(stopSignals) + 1 && forwarded == old(forwarded)
    {
      stopSignals := stopSignals + 1;
    }
  }

  class State {
    const onLinux: bool
    var log: seq<Record>
    var nextProgressId: nat
    var stopStream: bool
    var stopAudio: bool
    var x: Xstate
    var audio: Option<AudioStream>
    var userEndpoints: seq<Endpoint>

    constructor(onLinux: bool, endpoints: seq<Endpoint>)
      ensures this.onLinux == onLinux && userEndpoints == endpoints
      ensures log == [] && nextProgressId == 0 && !stopStream && !stopAudio && x == Run && audio == None
    {
      this.onLinux := onLinux;
      userEndpoints := endpoints;
      log, nextProgressId := [], 0;
      stopStream, stopAudio, x, audio := false, false, Run, None;
    }

    /** Everything but the log. */
    function Flags(): (bool, bool, Xstate, Option<AudioStream>, seq<Endpoint>, nat)
      reads this
    {
      (stopStream, stopAudio, x, audio, userEndpoints, nextProgressId)
    }

    /** `all_user_endpoints` */
    function AllUserEndpoints(): seq<Endpoint>
      reads this
    {
      userEndpoints
    }

    /** `add_system_error_message` */
    method AddSystemErrorMessage(text: string)
      modifies this
      ensures log == old(log) + [SystemMessage(text, SystemMessageType.Error)] && Flags() == old(Flags())
    {
      log := log + [SystemMessage(text, SystemMessageType.Error)];
    }

    /** `add_system_info_message` */
    method AddSystemInfoMessage(text: string)
      modifies this
      ensures log == old(log) + [SystemMessage(text, Info)] && Flags() == old(Flags())
    {
      log := log + [SystemMessage(text, Info)];
    }

    /** `add_progress_message`: a new progress entry, and its id. */
    method AddProgressMessage(fileName: string, fileSize: nat) returns (id: nat)
      modifies this
      ensures id == old(nextProgressId) && nextProgressId == id + 1
      ensures log == old(log) + [ProgressCreated(id, fileName, fileSize)]
      ensures (stopStream, stopAudio, x, audio, userEndpoints) == old((stopStream, stopAudio, x, audio, userEndpoints))
    {
      id := nextProgressId;
      nextProgressId := nextProgressId + 1;
      log := log + [ProgressCreated(id, fileName, fileSize)];
    }

    /** `progress_message_update` */
    method ProgressMessageUpdate(id: nat, bytes: nat)
      modifies this
      ensures log == old(log) + [ProgressUpdated(id, bytes)] && Flags() == old(Flags())
    {
      log := log + [ProgressUpdated(id, bytes)];
    }
  }

  /** The sending side of the network as the commands use it: every broadcast is kept, in order. */
  class Network {
    var sent: seq<(seq<Endpoint>, Outgoing)>

    constructor()
      ensures sent == []
    {
      sent := [];
    }

    /**
     * `send_all`. The commands discard its per-endpoint errors, so the
     * model records the broadcast and returns nothing.
     */
    method SendAll(endpoints: seq<Endpoint>, message: Outgoing)
      modifies this
      ensures sent == old(sent) + [(endpoints, message)]
    {
      sent := sent + [(endpoints, message)];
    }
  }
}
