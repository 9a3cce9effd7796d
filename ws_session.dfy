/** A realtime streaming session (`GladiaWebsocketClientSession`, identical in
    both packages). The session is a two-state machine: no socket, or a socket
    opened by `connect_and_start`. Sockets are numbered in the order they are
    opened; what the session writes to them is a log of frames and closes.
    Nineteen callback slots hold opaque handler ids; calling a handler appends
    an invocation to a log. The receive thread is not modelled: the operations
    it would trigger (open, close, error, message) are methods the caller
    invokes. */
module WsSession {
  import opened Wrappers
  import opened PyValue
  import opened Events

  type HandlerId = nat

  /** What a handler is called with: nothing (connect/disconnect), an error
      text, or the whole decoded message. */
  datatype Arg = NoArgs | Text(s: string) | Message(data: Value)

  datatype Invocation = Invocation(handler: HandlerId, slot: Slot, arg: Arg)

  /** Frame opcodes of section 5.2 of RFC 6455. */
  const TextOpcode: bv8 := 0x1
  const BinaryOpcode: bv8 := 0x2

  /** A text frame carries a JSON document (the value `json.dumps` renders);
      a binary frame carries raw bytes. */
  datatype Payload = Json(doc: Value) | Bytes(bytes: seq<bv8>)

  datatype Frame = Frame(opcode: bv8, payload: Payload)

  datatype WireOp = Sent(sock: nat, frame: Frame) | Closed(sock: nat)

  /** An inbound socket message: text that `json.loads` rejects, or the value
      it decodes to. */
  datatype Inbound = Malformed | Decoded(data: Value)

  const InvalidJsonText: string := "Invalid JSON from server"

  /** The session's whole mutable state. */
  datatype State = State(
    ws: Option<nat>,
    sockets: nat,
    wire: seq<WireOp>,
    handlers: map<Slot, HandlerId>,
    log: seq<Invocation>)

  function SockOf(op: WireOp): nat {
    match op
    case Sent(s, _) => s
    case Closed(s) => s
  }

  /** The current socket, if any, and every socket written to, were opened. */
  ghost predicate Consistent(st: State) {
    (st.ws.Some? ==> st.ws.value < st.sockets)
    && forall i :: 0 <= i < |st.wire| ==> SockOf(st.wire[i]) < st.sockets
  }

  const Initial: State := State(None, 0, [], map[], [])

  // ---------------------------------------------------------------- setters

  /** The nineteen setters, named after the session's methods. */
  datatype Setter =
    | SetOnConnected | SetOnDisconnected | SetOnError
    | SetOnSpeechStarted | SetOnSpeechEnded | SetOnTranscript | SetOnTranslation
    | SetOnNamedEntityRecognition | SetOnSentimentAnalysis | SetOnPostTranscript
    | SetOnFinalTranscript | SetOnChapterization | SetOnSummarization
    | SetOnAudioChunkAcknowledged | SetOnStopRecordingAcknowledged
    | SetOnStartSession | SetOnEndSession | SetOnStartRecording | SetOnEndRecording

  /** The slot each setter assigns. */
  function SlotOf(s: Setter): Slot {
    match s
    case SetOnConnected => OnConnected
    case SetOnDisconnected => OnDisconnected
    case SetOnError => OnError
    case SetOnSpeechStarted => OnSpeechStart
    case SetOnSpeechEnded => OnSpeechEnd
    case SetOnTranscript => OnTranscript
    case SetOnTranslation => OnTranslation
    case SetOnNamedEntityRecognition => OnNer
    case SetOnSentimentAnalysis => OnSentiment
    case SetOnPostTranscript => OnPostTranscript
    case SetOnFinalTranscript => OnFinalTranscript
    case SetOnChapterization => OnChapterization
    case SetOnSummarization => OnSummarization
    case SetOnAudioChunkAcknowledged => OnAudioAck
    case SetOnStopRecordingAcknowledged => OnStopAck
    case SetOnStartSession => OnStartSession
    case SetOnEndSession => OnEndSession
    case SetOnStartRecording => OnStartRecording
    case SetOnEndRecording => OnEndRecording
  }

  /** The setter that assigns a slot. */
  function SetterFor(sl: Slot): Setter {
    match sl
    case OnConnected => SetOnConnected
    case OnDisconnected => SetOnDisconnected
    case OnError => SetOnError
    case OnSpeechStart => SetOnSpeechStarted
    case OnSpeechEnd => SetOnSpeechEnded
    case OnTranscript => SetOnTranscript
    case OnTranslation => SetOnTranslation
    case OnNer => SetOnNamedEntityRecognition
    case OnSentiment => SetOnSentimentAnalysis
    case OnPostTranscript => SetOnPostTranscript
    case OnFinalTranscript => SetOnFinalTranscript
    case OnChapterization => SetOnChapterization
    case OnSummarization => SetOnSummarization
    case OnAudioAck => SetOnAudioChunkAcknowledged
    case OnStopAck => SetOnStopRecordingAcknowledged
    case OnStartSession => SetOnStartSession
    case OnEndSession => SetOnEndSession
    case OnStartRecording => SetOnStartRecording
    case OnEndRecording => SetOnEndRecording
  }

  /** Each slot has exactly one setter: `SlotOf` and `SetterFor` are inverse. */
  lemma SetterSlotsBijective()
    ensures forall s :: SetterFor(SlotOf(s)) == s
    ensures forall sl :: SlotOf(SetterFor(sl)) == sl
  {
  }

  /** A setter stores the callback in its slot; passing `None` empties it. */
  function SetCallback(st: State, s: Setter, cb: Option<HandlerId>): State {
    st.(handlers := if cb.Some? then st.handlers[SlotOf(s) := cb.value] else st.handlers - {SlotOf(s)})
  }

  /** A setter changes its own slot and leaves the other eighteen, the socket
      and both logs as they were; a second call overrides the first. */
  lemma SetCallbackOwnSlot(st: State, s: Setter, cb: Option<HandlerId>, sl: Slot)
    ensures var st' := SetCallback(st, s, cb);
      && st'.ws == st.ws && st'.sockets == st.sockets && st'.wire == st.wire && st'.log == st.log
      && (sl == SlotOf(s) ==> (sl in st'.handlers <==> cb.Some?) && (cb.Some? ==> st'.handlers[sl] == cb.value))
      && (sl != SlotOf(s) ==>
            (sl in st'.handlers <==> sl in st.handlers) && (sl in st.handlers ==> st'.handlers[sl] == st.handlers[sl]))
  {
  }

  lemma SetCallbackLastWins(st: State, s: Setter, cb1: Option<HandlerId>, cb2: Option<HandlerId>)
    ensures SetCallback(SetCallback(st, s, cb1), s, cb2) == SetCallback(st, s, cb2)
  {
  }

  // ------------------------------------------------------- socket lifecycle

  /** `connect_and_start`: a new socket replaces the current one (an older
      socket is not closed) and the call reports success. */
  function ConnectAndStart(st: State): State {
    st.(ws := Some(st.sockets), sockets := st.sockets + 1)
  }

  /** `disconnect`: close the current socket, if any, and forget it. */
  function Disconnect(st: State): State {
    if st.ws.Some? then st.(ws := None, wire := st.wire + [Closed(st.ws.value)]) else st
  }

  /** Disconnecting always leaves no socket, and a second disconnect changes
      nothing. Connecting after a disconnect gives a socket again. */
  lemma DisconnectIdempotent(st: State)
    ensures Disconnect(st).ws == None
    ensures Disconnect(Disconnect(st)) == Disconnect(st)
    ensures st.ws == None ==> Disconnect(st) == st
    ensures ConnectAndStart(Disconnect(st)).ws.Some?
  {
  }

  /** Each close names the socket that was current, and only one close is
      written per `disconnect`. */
  lemma DisconnectCloses(st: State)
    requires st.ws.Some?
    ensures Disconnect(st).wire == st.wire + [Closed(st.ws.value)]
    ensures Disconnect(st).handlers == st.handlers && Disconnect(st).log == st.log
  {
  }

  /** Writing one frame to the current socket; without one, nothing is sent. */
  function Send(st: State, f: Frame): State {
    if st.ws.Some? then st.(wire := st.wire + [Sent(st.ws.value, f)]) else st
  }

  /** The first `size` bytes of the buffer (the whole buffer when shorter). */
  function Prefix(audio: seq<bv8>, size: nat): (r: seq<bv8>)
    ensures |r| == if size < |audio| then size else |audio|
    ensures r <= audio
  {
    if size < |audio| then audio[..size] else audio
  }

  const StopPayload: Value := DictV([Entry("type", StrV(StopRecording))])

  function AudioChunkPayload(chunk: string): Value {
    DictV([Entry("type", StrV(AudioChunk)), Entry("data", DictV([Entry("chunk", StrV(chunk))]))])
  }

  function BinaryAudioFrame(audio: seq<bv8>, size: nat): Frame {
    Frame(BinaryOpcode, Bytes(Prefix(audio, size)))
  }

  /** A send without a socket changes nothing; with one it appends exactly
      one frame, to the current socket. */
  lemma SendSoftFailure(st: State, f: Frame)
    ensures st.ws == None ==> Send(st, f) == st
    ensures st.ws.Some? ==> Send(st, f).wire == st.wire + [Sent(st.ws.value, f)]
    ensures Send(st, f).ws == st.ws && Send(st, f).handlers == st.handlers && Send(st, f).log == st.log
    ensures |Send(st, f).wire| == |st.wire| + (if st.ws.Some? then 1 else 0)
  {
  }

  /** The binary audio frame is a binary frame holding the first
      `min(size, len)` bytes; the stop message is a text frame tagged
      `stop_recording`, and the JSON audio message is tagged `audio_chunk`. */
  lemma FrameContents(audio: seq<bv8>, size: nat, chunk: string)
    ensures BinaryAudioFrame(audio, size).opcode == 0x2
    ensures var b := BinaryAudioFrame(audio, size).payload.bytes;
      && |b| == (if size < |audio| then size else |audio|)
      && forall i :: 0 <= i < |b| ==> b[i] == audio[i]
    ensures Get(StopPayload.entries, "type") == Some(StrV(StopRecording))
    ensures Get(AudioChunkPayload(chunk).entries, "type") == Some(StrV(AudioChunk))
    ensures Get(AudioChunkPayload(chunk).entries, "data") == Some(DictV([Entry("chunk", StrV(chunk))]))
  {
  }

  // --------------------------------------------------------- socket events

  /** Calling the handler in a slot, if one is registered. */
  function Notify(st: State, sl: Slot, a: Arg): State {
    if sl in st.handlers then st.(log := st.log + [Invocation(st.handlers[sl], sl, a)]) else st
  }

  /** The socket's `on_open`: the connected handler. */
  function Opened(st: State): State { Notify(st, OnConnected, NoArgs) }

  /** The socket's `on_close`: the disconnected handler; the socket is kept. */
  function SocketClosed(st: State): State { Notify(st, OnDisconnected, NoArgs) }

  /** The socket's `on_error`: the error handler with the error's text. */
  function SocketError(st: State, text: string): State { Notify(st, OnError, Text(text)) }

  /** The socket's own events never change the socket, the wire or the slots:
      `on_close` keeps `_ws`, which only `disconnect` clears. Each calls its
      handler once when one is registered, and nothing otherwise. */
  lemma SocketEventsKeepSocket(st: State, text: string)
    ensures Opened(st).ws == st.ws && SocketClosed(st).ws == st.ws && SocketError(st, text).ws == st.ws
    ensures Opened(st).wire == st.wire && SocketClosed(st).wire == st.wire && SocketError(st, text).wire == st.wire
    ensures Opened(st).handlers == st.handlers && SocketClosed(st).handlers == st.handlers
    ensures SocketError(st, text).handlers == st.handlers
    ensures Opened(st).log == st.log +
      (if OnConnected in st.handlers then [Invocation(st.handlers[OnConnected], OnConnected, NoArgs)] else [])
    ensures SocketClosed(st).log == st.log +
      (if OnDisconnected in st.handlers then [Invocation(st.handlers[OnDisconnected], OnDisconnected, NoArgs)] else [])
    ensures SocketError(st, text).log == st.log +
      (if OnError in st.handlers then [Invocation(st.handlers[OnError], OnError, Text(text))] else [])
  {
  }

  /** The dispatcher's tests, in source order: the first whose tag equals the
      message's `type` AND whose slot is registered. */
  function ChainRoute(t: Option<Value>, h: map<Slot, HandlerId>): (r: Option<Slot>)
    ensures r.Some? ==> r.value in h
  {
    if t == Some(StrV(SpeechStart)) && OnSpeechStart in h then Some(OnSpeechStart)
    else if t == Some(StrV(SpeechEnd)) && OnSpeechEnd in h then Some(OnSpeechEnd)
    else if t == Some(StrV(Transcript)) && OnTranscript in h then Some(OnTranscript)
    else if t == Some(StrV(Translation)) && OnTranslation in h then Some(OnTranslation)
    else if t == Some(StrV(NamedEntityRecognition)) && OnNer in h then Some(OnNer)
    else if t == Some(StrV(SentimentAnalysis)) && OnSentiment in h then Some(OnSentiment)
    else if t == Some(StrV(PostTranscription)) && OnPostTranscript in h then Some(OnPostTranscript)
    else if t == Some(StrV(FinalTranscription)) && OnFinalTranscript in h then Some(OnFinalTranscript)
    else if t == Some(StrV(Chapterization)) && OnChapterization in h then Some(OnChapterization)
    else if t == Some(StrV(Summarization)) && OnSummarization in h then Some(OnSummarization)
    else if t == Some(StrV(AudioChunk)) && OnAudioAck in h then Some(OnAudioAck)
    else if t == Some(StrV(StopRecording)) && OnStopAck in h then Some(OnStopAck)
    else if t == Some(StrV(StartSession)) && OnStartSession in h then Some(OnStartSession)
    else if t == Some(StrV(EndSession)) && OnEndSession in h then Some(OnEndSession)
    else if t == Some(StrV(StartRecording)) && OnStartRecording in h then Some(OnStartRecording)
    else if t == Some(StrV(EndRecording)) && OnEndRecording in h then Some(OnEndRecording)
    else None
  }

  /** The slot the routing table assigns to a `type` value, when it is a known tag. */
  function TableSlot(t: Option<Value>): Option<Slot> {
    if t.Some? && t.value.StrV? then SlotForTag(t.value.s) else None
  }

  /** `on_message`. A decoded message must be a JSON object, as `data.get`
      requires of it. */
  function Dispatch(st: State, m: Inbound): State
    requires m.Decoded? ==> m.data.DictV?
  {
    match m
    case Malformed => Notify(st, OnError, Text(InvalidJsonText))
    case Decoded(data) =>
      var r := ChainRoute(Get(data.entries, "type"), st.handlers);
      if r.Some? then st.(log := st.log + [Invocation(st.handlers[r.value], r.value, Message(data))]) else st
  }

  /** The chain of tests picks exactly the slot the routing table assigns to
      the tag, when that slot is registered, and nothing otherwise: the tags
      are distinct, so a registered later test never shadows an earlier one. */
  lemma ChainRouteIsTable(t: Option<Value>, h: map<Slot, HandlerId>)
    ensures ChainRoute(t, h) == if TableSlot(t).Some? && TableSlot(t).value in h then TableSlot(t) else None
  {
    if t.Some? && t.value.StrV? {
      var s := t.value.s;
      assert Tags == Tags[..4] + Tags[4..8] + Tags[8..12] + Tags[12..];
      if s in Tags[..4] { ChainRouteFirst(s, h); }
      else if s in Tags[4..8] { ChainRouteSecond(s, h); }
      else if s in Tags[8..12] { ChainRouteThird(s, h); }
      else if s in Tags[12..] { ChainRouteFourth(s, h); }
    }
  }

  lemma ChainRouteFirst(s: string, h: map<Slot, HandlerId>)
    requires s in Tags[..4]
    ensures ChainRoute(Some(StrV(s)), h) == if SlotForTag(s).Some? && SlotForTag(s).value in h then SlotForTag(s) else None
  {
  }

  lemma ChainRouteSecond(s: string, h: map<Slot, HandlerId>)
    requires s in Tags[4..8]
    ensures ChainRoute(Some(StrV(s)), h) == if SlotForTag(s).Some? && SlotForTag(s).value in h then SlotForTag(s) else None
  {
  }

  lemma ChainRouteThird(s: string, h: map<Slot, HandlerId>)
    requires s in Tags[8..12]
    ensures ChainRoute(Some(StrV(s)), h) == if SlotForTag(s).Some? && SlotForTag(s).value in h then SlotForTag(s) else None
  {
  }

  lemma ChainRouteFourth(s: string, h: map<Slot, HandlerId>)
    requires s in Tags[12..]
    ensures ChainRoute(Some(StrV(s)), h) == if SlotForTag(s).Some? && SlotForTag(s).value in h then SlotForTag(s) else None
  {
  }

  /** A message that is not JSON reaches only the error handler, and only when
      one is registered. */
  lemma DispatchMalformed(st: State)
    ensures var st' := Dispatch(st, Malformed);
      && st'.ws == st.ws && st'.sockets == st.sockets && st'.wire == st.wire && st'.handlers == st.handlers
      && st'.log == st.log + (if OnError in st.handlers then [Invocation(st.handlers[OnError], OnError, Text(InvalidJsonText))] else [])
  {
  }

  /** A decoded message calls at most one handler: the one registered in the
      slot its `type` names, with the whole message; an unknown or missing
      `type`, or an empty slot, calls nothing. Nothing else changes. */
  lemma DispatchDecoded(st: State, data: Value)
    requires data.DictV?
    ensures var st' := Dispatch(st, Decoded(data));
      var sl := TableSlot(Get(data.entries, "type"));
      && st'.ws == st.ws && st'.sockets == st.sockets && st'.wire == st.wire && st'.handlers == st.handlers
      && st'.log == st.log + (if sl.Some? && sl.value in st.handlers
                               then [Invocation(st.handlers[sl.value], sl.value, Message(data))] else [])
  {
    ChainRouteIsTable(Get(data.entries, "type"), st.handlers);
  }

  /** The handler a message reaches is the newest one set for its slot. */
  lemma NewestHandlerWins(st: State, s: Setter, cb: HandlerId, data: Value, tag: string)
    requires data.DictV? && Get(data.entries, "type") == Some(StrV(tag))
    requires SlotForTag(tag) == Some(SlotOf(s))
    ensures Dispatch(SetCallback(st, s, Some(cb)), Decoded(data)).log
            == st.log + [Invocation(cb, SlotOf(s), Message(data))]
  {
    DispatchDecoded(SetCallback(st, s, Some(cb)), data);
  }

  /** Every operation keeps sockets numbered below the counter. */
  lemma OperationsConsistent(st: State, s: Setter, cb: Option<HandlerId>, f: Frame, m: Inbound, text: string)
    requires Consistent(st)
    requires m.Decoded? ==> m.data.DictV?
    ensures Consistent(ConnectAndStart(st)) && Consistent(Disconnect(st)) && Consistent(Send(st, f))
    ensures Consistent(SetCallback(st, s, cb)) && Consistent(Dispatch(st, m))
    ensures Consistent(Opened(st)) && Consistent(SocketClosed(st)) && Consistent(SocketError(st, text))
  {
    SocketOpsConsistent(st, f);
    HandlerOpsConsistent(st, s, cb, m, text);
  }

  lemma SocketOpsConsistent(st: State, f: Frame)
    requires Consistent(st)
    ensures Consistent(ConnectAndStart(st)) && Consistent(Disconnect(st)) && Consistent(Send(st, f))
  {
  }

  lemma HandlerOpsConsistent(st: State, s: Setter, cb: Option<HandlerId>, m: Inbound, text: string)
    requires Consistent(st)
    requires m.Decoded? ==> m.data.DictV?
    ensures Consistent(SetCallback(st, s, cb)) && Consistent(Dispatch(st, m))
    ensures Consistent(Opened(st)) && Consistent(SocketClosed(st)) && Consistent(SocketError(st, text))
  {
  }

  // ------------------------------------------------------------- the class

  class StreamSession {
    const id: Value
    const url: Value
    const apiKey: string
    var ws: Option<nat>
    var sockets: nat
    var wire: seq<WireOp>
    var handlers: map<Slot, HandlerId>
    var log: seq<Invocation>

    function Snapshot(): State reads this {
      State(ws, sockets, wire, handlers, log)
    }

    ghost predicate Valid() reads this {
      Consistent(Snapshot())
    }

    constructor (sessionId: Value, wsUrl: Value, key: string)
      ensures id == sessionId && url == wsUrl && apiKey == key
      ensures Snapshot() == Initial && Valid()
    {
      id, url, apiKey := sessionId, wsUrl, key;
      ws, sockets, wire, handlers, log := None, 0, [], map[], [];
    }

    /** `get_session_info`: the id and url the session was built with. */
    function SessionInfo(): (info: Value)
      ensures info.DictV? && Keys(info.entries) == ["id", "url"]
      ensures Get(info.entries, "id") == Some(id) && Get(info.entries, "url") == Some(url)
    {
      DictV([Entry("id", id), Entry("url", url)])
    }

    method ConnectAndStartSession() returns (ok: bool)
      requires Valid()
      modifies this
      ensures Valid() && ok
      ensures Snapshot() == ConnectAndStart(old(Snapshot()))
    {
      OperationsConsistent(Snapshot(), SetOnError, None, Frame(TextOpcode, Json(NoneV)), Malformed, "");
      ws := Some(sockets);
      sockets := sockets + 1;
      ok := true;
    }

    method DisconnectSession()
      requires Valid()
      modifies this
      ensures Valid()
      ensures Snapshot() == Disconnect(old(Snapshot()))
    {
      if ws.Some? {
        wire := wire + [Closed(ws.value)];
        ws := None;
      }
    }

    method SendFrame(f: Frame) returns (ok: bool)
      requires Valid()
      modifies this
      ensures Valid() && ok == old(ws).Some?
      ensures Snapshot() == Send(old(Snapshot()), f)
    {
      if ws.None? {
        return false;
      }
      wire := wire + [Sent(ws.value, f)];
      ok := true;
    }

    /** `send_stop_signal` */
    method SendStopSignal() returns (ok: bool)
      requires Valid()
      modifies this
      ensures Valid() && ok == old(ws).Some?
      ensures Snapshot() == Send(old(Snapshot()), Frame(TextOpcode, Json(StopPayload)))
    {
      ok := SendFrame(Frame(TextOpcode, Json(StopPayload)));
    }

    /** `send_audio_binary`, for a non-negative size. */
    method SendAudioBinary(audio: seq<bv8>, size: nat) returns (ok: bool)
      requires Valid()
      modifies this
      ensures Valid() && ok == old(ws).Some?
      ensures Snapshot() == Send(old(Snapshot()), BinaryAudioFrame(audio, size))
    {
      ok := SendFrame(BinaryAudioFrame(audio, size));
    }

    /** `send_audio_json`; `b64` stands for base64 encoding. */
    method SendAudioJson(audio: seq<bv8>, size: nat, b64: seq<bv8> -> string) returns (ok: bool)
      requires Valid()
      modifies this
      ensures Valid() && ok == old(ws).Some?
      ensures Snapshot() == Send(old(Snapshot()), Frame(TextOpcode, Json(AudioChunkPayload(b64(Prefix(audio, size))))))
    {
      ok := SendFrame(Frame(TextOpcode, Json(AudioChunkPayload(b64(Prefix(audio, size))))));
    }

    /** Any of the nineteen `set_on_…_callback` / `setOn…Callback` methods. */
    method SetHandler(s: Setter, cb: Option<HandlerId>)
      requires Valid()
      modifies this
      ensures Valid()
      ensures Snapshot() == SetCallback(old(Snapshot()), s, cb)
    {
      if cb.Some? {
        handlers := handlers[SlotOf(s) := cb.value];
      } else {
        handlers := handlers - {SlotOf(s)};
      }
    }

    method HandleOpen()
      requires Valid()
      modifies this
      ensures Valid()
      ensures Snapshot() == Opened(old(Snapshot()))
    {
      if OnConnected in handlers {
        log := log + [Invocation(handlers[OnConnected], OnConnected, NoArgs)];
      }
    }

    method HandleClose()
      requires Valid()
      modifies this
      ensures Valid()
      ensures Snapshot() == SocketClosed(old(Snapshot()))
    {
      if OnDisconnected in handlers {
        log := log + [Invocation(handlers[OnDisconnected], OnDisconnected, NoArgs)];
      }
    }

    method HandleError(text: string)
      requires Valid()
      modifies this
      ensures Valid()
      ensures Snapshot() == SocketError(old(Snapshot()), text)
    {
      if OnError in handlers {
        log := log + [Invocation(handlers[OnError], OnError, Text(text))];
      }
    }

    method HandleMessage(m: Inbound)
      requires Valid()
      requires m.Decoded? ==> m.data.DictV?
      modifies this
      ensures Valid()
      ensures Snapshot() == Dispatch(old(Snapshot()), m)
    {
      if m.Malformed? {
        if OnError in handlers {
          log := log + [Invocation(handlers[OnError], OnError, Text(InvalidJsonText))];
        }
        return;
      }
      var t := Get(m.data.entries, "type");
      var r := ChainRoute(t, handlers);
      if r.Some? {
        log := log + [Invocation(handlers[r.value], r.value, Message(m.data))];
      }
    }
  }
}
