/** The CLI's Socket.IO client over one WebSocket stream: the Engine.IO and
    Socket.IO handshakes, request/reply events, fire-and-forget events,
    keep-alive and the wait for server events.

    The WebSocket is a script: the sequence of what `next()` yields, a
    cursor into it, and the log of the texts the client sent. Whether the
    peer accepts writes is a fixed property of the script. */
module SocketClient {
  import opened Wrappers
  import opened Digits
  import opened Json
  import opened FrameCodec
  import opened Handshake
  import opened Events

  /** A WebSocket message: a text frame, or any other kind (binary, ping,
      pong, close) that the client never expects. */
  datatype Message = Text(text: string) | NonText

  /** One item of the stream: a message, or a transport error. */
  datatype Incoming = Msg(message: Message) | Failure

  /** Errors of `SocketIoClient::new` (`WebSocketErrors`). */
  datatype WebSocketErrors =
    | ConnectionError
    | InvalidResponse
    | HandshakeError
    | InvalidCredentials
    | ServerError
    | UrlParsingError
    | Unknown(message: string)

  /** What opening the connection did before any handshake: the URL did not
      parse, the TLS connector could not be built, the connection failed,
      or a WebSocket stream is open. */
  datatype Transport = BadUrl | TlsFailure(reason: string) | ConnectFailure | Connected

  /** The scripted WebSocket stream. */
  class WsStream {
    /** Everything `next()` will yield, in order; past its end the stream has ended. */
    const incoming: seq<Incoming>
    /** Whether every write fails. */
    const sendFails: bool
    var cursor: nat
    var sent: seq<string>
    var closed: bool

    predicate Valid()
      reads this
    {
      cursor <= |incoming|
    }

    /** What the next `next()` yields; `None` once the stream has ended. */
    function Peek(): Option<Incoming>
      reads this
    {
      if cursor < |incoming| then Some(incoming[cursor]) else None
    }

    constructor (script: seq<Incoming>, failingWrites: bool)
      ensures Valid() && incoming == script && sendFails == failingWrites
      ensures cursor == 0 && sent == [] && !closed
    {
      incoming := script;
      sendFails := failingWrites;
      cursor := 0;
      sent := [];
      closed := false;
    }

    method Next() returns (m: Option<Incoming>)
      requires Valid()
      modifies this
      ensures Valid() && m == old(Peek())
      ensures cursor == if m.Some? then old(cursor) + 1 else old(cursor)
      ensures sent == old(sent) && closed == old(closed)
    {
      m := Peek();
      if m.Some? {
        cursor := cursor + 1;
      }
    }

    method Send(text: string) returns (ok: bool)
      modifies this
      ensures ok == !sendFails
      ensures sent == if ok then old(sent) + [text] else old(sent)
      ensures cursor == old(cursor) && closed == old(closed)
    {
      ok := !sendFails;
      if ok {
        sent := sent + [text];
      }
    }

    method Close() returns (ok: bool)
      modifies this
      ensures ok == !sendFails && closed == (old(closed) || ok)
      ensures cursor == old(cursor) && sent == old(sent)
    {
      ok := !sendFails;
      if ok {
        closed := true;
      }
    }
  }

  /** The item after the next one, which a second `next()` yields. */
  function PeekSecond(incoming: seq<Incoming>, cursor: nat): Option<Incoming> {
    if cursor + 1 < |incoming| then Some(incoming[cursor + 1]) else None
  }

  // ---------------------------------------------------------------------
  // Handshake outcomes
  // ---------------------------------------------------------------------

  /** The JSON text of an Engine.IO open packet. */
  predicate IsOpenPacket(json: string) {
    Parse(json).Some? && DecodeEngineIOHandshake(Parse(json).value).Some?
  }

  /** `engineio_handshake` succeeds on exactly one kind of item: a text frame
      with code 0 whose JSON is an open packet. */
  predicate EngineIOAccepts(next: Option<Incoming>) {
    match next
    case Some(Msg(Text(t))) =>
      (match SplitCodeJson(t)
       case Some((code, json)) => code == OPEN && IsOpenPacket(json)
       case None => false)
    case _ => false
  }

  /** The CONNECT frame the client sends: "40" and `{"token": …}`. */
  function ConnectFrame(token: string): string {
    "40" + Encode(SocketIOHandshakeRequestJson(SocketIOHandshakeRequest(token)))
  }

  /** The result of `socketio_handshake` once `new` has mapped it: code 44 is
      `InvalidCredentials`; every other failure is `HandshakeError`. */
  function SocketIOOutcome(sendOk: bool, next: Option<Incoming>): (r: Result<Unit, WebSocketErrors>)
    ensures r.Err? ==> r.error == InvalidCredentials || r.error == HandshakeError
    ensures r == Err(InvalidCredentials) <==>
      sendOk && next.Some? && next.value.Msg? && next.value.message.Text?
      && SplitCodeJson(next.value.message.text).Some? && SplitCodeJson(next.value.message.text).value.0 == CONNECT_ERROR
    ensures r.Ok? ==>
      sendOk && next.Some? && next.value.Msg? && next.value.message.Text?
      && SplitCodeJson(next.value.message.text).Some? && SplitCodeJson(next.value.message.text).value.0 == CONNECT
  {
    if !sendOk then Err(HandshakeError)
    else match next
      case Some(Msg(Text(t))) =>
        (match SplitCodeJson(t)
         case None => Err(HandshakeError)
         case Some((code, json)) =>
           if code == CONNECT_ERROR then Err(InvalidCredentials)
           else if code != CONNECT then Err(HandshakeError)
           else
             match Parse(json)
             case Some(j) => if DecodeSocketIOHandshake(j).Some? then Ok(Unit) else Err(HandshakeError)
             case None => Err(HandshakeError))
      case _ => Err(HandshakeError)
  }

  /** The whole of `SocketIoClient::new`: opening the transport, then the
      Engine.IO handshake on the first item, then the CONNECT request and
      its reply on the second. */
  function ConnectOutcome(t: Transport, sendFails: bool, first: Option<Incoming>, second: Option<Incoming>): (r: Result<Unit, WebSocketErrors>)
    ensures r == Err(InvalidCredentials) <==>
      t == Connected && EngineIOAccepts(first) && SocketIOOutcome(!sendFails, second) == Err(InvalidCredentials)
    ensures t == Connected && r.Err? && r.error != InvalidCredentials ==> r.error == HandshakeError
    ensures r.Ok? <==> t == Connected && EngineIOAccepts(first) && SocketIOOutcome(!sendFails, second).Ok?
  {
    match t
    case BadUrl => Err(UrlParsingError)
    case TlsFailure(reason) => Err(Unknown(reason))
    case ConnectFailure => Err(WebSocketErrors.ConnectionError)
    case Connected =>
      if !EngineIOAccepts(first) then Err(HandshakeError)
      else SocketIOOutcome(!sendFails, second)
  }

  // ---------------------------------------------------------------------
  // Event outcomes
  // ---------------------------------------------------------------------

  /** The frame `send_event` and `send_event_noresponse` write. */
  function RequestFrame(event: EventRequest): string {
    "42" + Encode(RequestJson(event))
  }

  /** The JSON text of a reply, read as an `EventResponse`. */
  function ReadEnvelope(json: string): (r: Result<EventResponse, EventError>)
    ensures r.Err? ==> r.error == SerializingError
  {
    match Parse(json)
    case None => Err(SerializingError)
    case Some(j) =>
      match DecodeEventResponse(j)
      case Some(e) => Ok(e)
      case None => Err(SerializingError)
  }

  /** How `send_event` reads its one reply: an unsplittable text, a non-text
      frame, a transport error or the end of the stream is a
      `ConnectionError`; a code other than 42 is `InvalidResponse` whatever
      follows it; a code-42 frame must hold an envelope. */
  function ReplyOutcome(next: Option<Incoming>): (r: Result<EventResponse, EventError>)
    ensures (next.None? || next == Some(Failure) || next == Some(Msg(NonText))) ==> r == Err(EventError.ConnectionError)
    ensures next.Some? && next.value.Msg? && next.value.message.Text? ==>
      var t := next.value.message.text;
      && (SplitCodeJson(t).None? ==> r == Err(EventError.ConnectionError))
      && (SplitCodeJson(t).Some? && SplitCodeJson(t).value.0 != EVENT ==> r == Err(EventError.InvalidResponse))
      && (SplitCodeJson(t).Some? && SplitCodeJson(t).value.0 == EVENT ==> r == ReadEnvelope(SplitCodeJson(t).value.1))
  {
    match next
    case Some(Msg(Text(t))) =>
      (match SplitCodeJson(t)
       case None => Err(EventError.ConnectionError)
       case Some((code, json)) => if code != EVENT then Err(EventError.InvalidResponse) else ReadEnvelope(json))
    case _ => Err(EventError.ConnectionError)
  }

  /** `create_room`'s reading of the reply. */
  function CreateRoomOutcome(reply: Result<EventResponse, EventError>): (r: Result<string, EventError>)
    ensures reply.Err? ==> r == Err(reply.error)
    ensures reply.Ok? && reply.value.name == "create_error" ==> r == Err(CreateRoomError)
    ensures reply.Ok? && reply.value.name != "room_created" && reply.value.name != "create_error" ==> r == Err(EventError.InvalidResponse)
    ensures reply.Ok? && reply.value.name == "room_created" ==>
      match DecodeCreateRoom(reply.value.value)
      case None => r == Err(SerializingError)
      case Some(e) => r == (if e.success then Ok(e.roomId) else Err(EventError.InvalidResponse))
  {
    match reply
    case Err(e) => Err(e)
    case Ok(resp) =>
      if resp.name == "room_created" then
        match DecodeCreateRoom(resp.value)
        case None => Err(SerializingError)
        case Some(e) => if !e.success then Err(EventError.InvalidResponse) else Ok(e.roomId)
      else if resp.name == "create_error" then Err(CreateRoomError)
      else Err(EventError.InvalidResponse)
  }

  /** `join_room`'s reading of the reply: the payload is not looked at. */
  function JoinRoomOutcome(reply: Result<EventResponse, EventError>): (r: Result<Unit, EventError>)
    ensures reply.Err? ==> r == Err(reply.error)
    ensures reply.Ok? ==>
      r == (if reply.value.name == "joined_room" then Ok(Unit)
            else if reply.value.name == "join_error" then Err(JoinRoomError)
            else Err(EventError.InvalidResponse))
  {
    match reply
    case Err(e) => Err(e)
    case Ok(resp) =>
      if resp.name == "joined_room" then Ok(Unit)
      else if resp.name == "join_error" then Err(JoinRoomError)
      else Err(EventError.InvalidResponse)
  }

  /** A server text that is not the keep-alive: the code is ignored, the
      JSON must be an envelope, and the name decides the event. */
  function ClassifyText(t: string): (r: Result<SocketEvents, EventError>)
    ensures SplitCodeJson(t).None? ==> r == Err(EventError.InvalidResponse)
    ensures SplitCodeJson(t).Some? ==> r == ClassifyJsonText(SplitCodeJson(t).value.1)
  {
    match SplitCodeJson(t)
    case None => Err(EventError.InvalidResponse)
    case Some((_, json)) => ClassifyJsonText(json)
  }

  function ClassifyJsonText(json: string): Result<SocketEvents, EventError> {
    match ReadEnvelope(json)
    case Err(e) => Err(e)
    case Ok(resp) => DispatchEvent(resp)
  }

  /** What `wait_for_events` returns for the next item of the stream. */
  function WaitOutcome(sendFails: bool, next: Option<Incoming>): (r: Result<SocketEvents, EventError>)
    ensures next == Some(Msg(Text(PING))) ==> r == (if sendFails then Err(EventError.ConnectionError) else Ok(Ping))
    ensures r.Ok? && r.value.Ping? ==> next == Some(Msg(Text(PING)))
    ensures next == Some(Msg(NonText)) ==> r == Err(EventError.InvalidResponse)
    ensures next.None? || next == Some(Failure) ==> r == Err(EventError.ConnectionError)
  {
    match next
    case None => Err(EventError.ConnectionError)
    case Some(Failure) => Err(EventError.ConnectionError)
    case Some(Msg(NonText)) => Err(EventError.InvalidResponse)
    case Some(Msg(Text(t))) =>
      if t == PING then (if sendFails then Err(EventError.ConnectionError) else Ok(Ping))
      else ClassifyText(t)
  }

  // ---------------------------------------------------------------------
  // The client
  // ---------------------------------------------------------------------

  class SocketIoClient {
    const socket: WsStream

    constructor (stream: WsStream)
      ensures socket == stream
    {
      socket := stream;
    }

    /** `engineio_handshake`: reads one item. */
    static method EngineIOHandshake(socket: WsStream) returns (ok: bool)
      requires socket.Valid()
      modifies socket
      ensures socket.Valid() && ok == EngineIOAccepts(old(socket.Peek()))
      ensures socket.cursor == if old(socket.Peek()).Some? then old(socket.cursor) + 1 else old(socket.cursor)
      ensures socket.sent == old(socket.sent) && socket.closed == old(socket.closed)
    {
      var m := socket.Next();
      match m {
        case Some(Msg(Text(t))) =>
          match SplitCodeJson(t) {
            case Some((code, json)) =>
              if code != OPEN {
                return false;
              }
              var parsed := Parse(json);
              ok := parsed.Some? && DecodeEngineIOHandshake(parsed.value).Some?;
            case None =>
              ok := false;
          }
        case _ =>
          ok := false;
      }
    }

    /** `socketio_handshake`: sends the CONNECT frame, then reads one item. */
    static method SocketIOHandshake(socket: WsStream, token: string) returns (r: Result<Unit, WebSocketErrors>)
      requires socket.Valid()
      modifies socket
      ensures socket.Valid()
      ensures r == SocketIOOutcome(!socket.sendFails, old(socket.Peek()))
      ensures socket.sent == if socket.sendFails then old(socket.sent) else old(socket.sent) + [ConnectFrame(token)]
      ensures socket.cursor == if !socket.sendFails && old(socket.Peek()).Some? then old(socket.cursor) + 1 else old(socket.cursor)
      ensures socket.closed == old(socket.closed)
    {
      var sendOk := socket.Send(ConnectFrame(token));
      if !sendOk {
        return Err(HandshakeError);
      }
      var m := socket.Next();
      match m {
        case Some(Msg(Text(t))) =>
          match SplitCodeJson(t) {
            case None =>
              r := Err(HandshakeError);
            case Some((code, json)) =>
              if code == CONNECT_ERROR {
                return Err(InvalidCredentials);
              } else if code != CONNECT {
                return Err(HandshakeError);
              }
              var parsed := Parse(json);
              if parsed.None? || DecodeSocketIOHandshake(parsed.value).None? {
                return Err(HandshakeError);
              }
              r := Ok(Unit);
          }
        case _ =>
          r := Err(HandshakeError);
      }
    }

    /** `SocketIoClient::new`: a client exists only after both handshakes. */
    static method New(t: Transport, stream: WsStream, token: string) returns (r: Result<SocketIoClient, WebSocketErrors>)
      requires stream.Valid()
      modifies stream
      ensures stream.Valid()
      ensures r.Ok? <==> ConnectOutcome(t, stream.sendFails, old(stream.Peek()), PeekSecond(stream.incoming, old(stream.cursor))).Ok?
      ensures r.Err? ==> r.error == ConnectOutcome(t, stream.sendFails, old(stream.Peek()), PeekSecond(stream.incoming, old(stream.cursor))).error
      ensures r.Ok? ==> fresh(r.value) && r.value.socket == stream
      ensures r.Ok? ==> stream.sent == old(stream.sent) + [ConnectFrame(token)] && stream.cursor == old(stream.cursor) + 2
    {
      match t
      case BadUrl => return Err(UrlParsingError);
      case TlsFailure(reason) => return Err(Unknown(reason));
      case ConnectFailure => return Err(WebSocketErrors.ConnectionError);
      case Connected =>
      ghost var second := PeekSecond(stream.incoming, stream.cursor);
      var ok := EngineIOHandshake(stream);
      if !ok {
        return Err(HandshakeError);
      }
      assert stream.Peek() == second;
      var s := SocketIOHandshake(stream, token);
      if s.Err? {
        return Err(s.error);
      }
      var client := new SocketIoClient(stream);
      r := Ok(client);
    }

    /** `send_event`: writes the request, then reads exactly one reply. */
    method SendEvent(event: EventRequest) returns (r: Result<EventResponse, EventError>)
      requires socket.Valid()
      modifies socket
      ensures socket.Valid()
      ensures r == (if socket.sendFails then Err(EventError.ConnectionError) else ReplyOutcome(old(socket.Peek())))
      ensures socket.sent == if socket.sendFails then old(socket.sent) else old(socket.sent) + [RequestFrame(event)]
      ensures socket.cursor == if !socket.sendFails && old(socket.Peek()).Some? then old(socket.cursor) + 1 else old(socket.cursor)
      ensures socket.closed == old(socket.closed)
    {
      var sendOk := socket.Send(RequestFrame(event));
      if !sendOk {
        return Err(EventError.ConnectionError);
      }
      var m := socket.Next();
      match m {
        case Some(Msg(Text(t))) =>
          match SplitCodeJson(t) {
            case None =>
              r := Err(EventError.ConnectionError);
            case Some((code, json)) =>
              if code != EVENT {
                return Err(EventError.InvalidResponse);
              }
              r := ReadEnvelope(json);
          }
        case _ =>
          r := Err(EventError.ConnectionError);
      }
    }

    /** `send_event_noresponse`: writes the request and reads nothing. */
    method SendEventNoResponse(event: EventRequest) returns (r: Result<Unit, EventError>)
      modifies socket
      ensures r == (if socket.sendFails then Err(EventError.ConnectionError) else Ok(Unit))
      ensures socket.sent == if socket.sendFails then old(socket.sent) else old(socket.sent) + [RequestFrame(event)]
      ensures socket.cursor == old(socket.cursor) && socket.closed == old(socket.closed)
    {
      var sendOk := socket.Send(RequestFrame(event));
      r := if sendOk then Ok(Unit) else Err(EventError.ConnectionError);
    }

    method CreateRoom(room: CreateRoomRequest) returns (r: Result<string, EventError>)
      requires socket.Valid()
      modifies socket
      ensures socket.Valid()
      ensures r == CreateRoomOutcome(if socket.sendFails then Err(EventError.ConnectionError) else ReplyOutcome(old(socket.Peek())))
      ensures socket.sent == if socket.sendFails then old(socket.sent)
                             else old(socket.sent) + [RequestFrame(EventRequest("create_room", Events.CreateRoom(room)))]
      ensures socket.cursor == if !socket.sendFails && old(socket.Peek()).Some? then old(socket.cursor) + 1 else old(socket.cursor)
      ensures socket.closed == old(socket.closed)
    {
      var reply := SendEvent(EventRequest("create_room", Events.CreateRoom(room)));
      r := CreateRoomOutcome(reply);
    }

    method JoinRoom(roomId: string) returns (r: Result<Unit, EventError>)
      requires socket.Valid()
      modifies socket
      ensures socket.Valid()
      ensures r == JoinRoomOutcome(if socket.sendFails then Err(EventError.ConnectionError) else ReplyOutcome(old(socket.Peek())))
      ensures socket.sent == if socket.sendFails then old(socket.sent)
                             else old(socket.sent) + [RequestFrame(EventRequest("join_room", Events.JoinRoom(roomId)))]
      ensures socket.cursor == if !socket.sendFails && old(socket.Peek()).Some? then old(socket.cursor) + 1 else old(socket.cursor)
      ensures socket.closed == old(socket.closed)
    {
      var reply := SendEvent(EventRequest("join_room", Events.JoinRoom(roomId)));
      r := JoinRoomOutcome(reply);
    }

    method PaddleMove(p1: PaddleMoveDirection, p2: PaddleMoveDirection) returns (r: Result<Unit, EventError>)
      modifies socket
      ensures r == (if socket.sendFails then Err(EventError.ConnectionError) else Ok(Unit))
      ensures socket.sent == if socket.sendFails then old(socket.sent)
                             else old(socket.sent) + [RequestFrame(EventRequest("paddle_move", Events.PaddleMove(p1, p2)))]
      ensures socket.cursor == old(socket.cursor) && socket.closed == old(socket.closed)
    {
      r := SendEventNoResponse(EventRequest("paddle_move", Events.PaddleMove(p1, p2)));
    }

    method PauseGame(isPaused: bool) returns (r: Result<Unit, EventError>)
      modifies socket
      ensures r == (if socket.sendFails then Err(EventError.ConnectionError) else Ok(Unit))
      ensures socket.sent == if socket.sendFails then old(socket.sent)
                             else old(socket.sent) + [RequestFrame(EventRequest("game_pause", GamePause(isPaused)))]
      ensures socket.cursor == old(socket.cursor) && socket.closed == old(socket.closed)
    {
      r := SendEventNoResponse(EventRequest("game_pause", GamePause(isPaused)));
    }

    method Close() returns (r: Result<Unit, EventError>)
      modifies socket
      ensures r == (if socket.sendFails then Err(EventError.ConnectionError) else Ok(Unit))
      ensures socket.closed == (old(socket.closed) || r.Ok?)
      ensures socket.sent == old(socket.sent) && socket.cursor == old(socket.cursor)
    {
      var ok := socket.Close();
      r := if ok then Ok(Unit) else Err(EventError.ConnectionError);
    }

    /** `wait_for_events`: reads one item; the keep-alive "2" is answered
        with exactly "3" and nothing is parsed. */
    method WaitForEvents() returns (r: Result<SocketEvents, EventError>)
      requires socket.Valid()
      modifies socket
      ensures socket.Valid()
      ensures r == WaitOutcome(socket.sendFails, old(socket.Peek()))
      ensures socket.sent == if old(socket.Peek()) == Some(Msg(Text(PING))) && !socket.sendFails
                             then old(socket.sent) + [PONG] else old(socket.sent)
      ensures socket.cursor == if old(socket.Peek()).Some? then old(socket.cursor) + 1 else old(socket.cursor)
      ensures socket.closed == old(socket.closed)
    {
      var m := socket.Next();
      match m
      case None =>
        r := Err(EventError.ConnectionError);
      case Some(Failure) =>
        r := Err(EventError.ConnectionError);
      case Some(Msg(NonText)) =>
        r := Err(EventError.InvalidResponse);
      case Some(Msg(Text(t))) =>
        if t == PING {
          var sendOk := socket.Send(PONG);
          if !sendOk {
            return Err(EventError.ConnectionError);
          }
          return Ok(Ping);
        }
        match SplitCodeJson(t)
        case None =>
          r := Err(EventError.InvalidResponse);
        case Some((_, json)) =>
          var parsed := ReadEnvelope(json);
          if parsed.Err? {
            return Err(parsed.error);
          }
          r := DispatchEvent(parsed.value);
    }
  }

  // ---------------------------------------------------------------------
  // Properties of the client
  // ---------------------------------------------------------------------

  /** Apart from the keep-alive, the packet code of a server text is not
      looked at: two frames with the same JSON lead to the same event. */
  lemma OpcodeIgnored(sendFails: bool, c1: nat, c2: nat, json: string)
    requires c1 <= USIZE_MAX && c2 <= USIZE_MAX && |json| > 0 && IsBracket(json[0])
    ensures WaitOutcome(sendFails, Some(Msg(Text(Frame(c1, json)))))
         == WaitOutcome(sendFails, Some(Msg(Text(Frame(c2, json)))))
  {
    SplitFrameRoundTrip(c1, json);
    SplitFrameRoundTrip(c2, json);
    assert |Frame(c1, json)| != |PING| && |Frame(c2, json)| != |PING|;
  }

  /** A reply under any code but 42 is `InvalidResponse`, whatever its JSON. */
  lemma ReplyCodeChecked(code: nat, json: string)
    requires code <= USIZE_MAX && code != EVENT && |json| > 0 && IsBracket(json[0])
    ensures ReplyOutcome(Some(Msg(Text(Frame(code, json))))) == Err(EventError.InvalidResponse)
  {
    SplitFrameRoundTrip(code, json);
  }

  /** Code 44 in reply to CONNECT is reported as `InvalidCredentials`
      whatever its body, once the Engine.IO handshake has passed; no other
      reply is. */
  lemma CredentialsRejected(first: Option<Incoming>, json: string)
    requires EngineIOAccepts(first) && |json| > 0 && IsBracket(json[0])
    ensures ConnectOutcome(Connected, false, first, Some(Msg(Text(Frame(CONNECT_ERROR, json))))) == Err(InvalidCredentials)
  {
    SplitFrameRoundTrip(CONNECT_ERROR, json);
  }
}
