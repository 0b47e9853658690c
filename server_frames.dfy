/** What a server writes on the wire: every event payload is a value the
    compact encoder can write, so the client reads back each server frame as
    the very event it carries. */
module ServerFrames {
  import opened Wrappers
  import opened Digits
  import opened Json
  import opened FrameCodec
  import opened Handshake
  import opened Events
  import opened SocketClient

  /** The event names are plain strings the encoder writes literally. */
  lemma EventNameValid(e: SocketEvents)
    requires !e.Ping?
    ensures ValidString(EventName(e))
  {
  }

  // The keys the server writes are plain ASCII words.

  lemma FirstKeysValid()
    ensures ValidString("message") && ValidString("roomId") && ValidString("ballX") && ValidString("ballY")
    ensures ValidString("ballVX") && ValidString("ballVY") && ValidString("paddle1Y")
  {
  }

  lemma LastKeysValid()
    ensures ValidString("paddle2Y") && ValidString("ownerScore") && ValidString("guestScore") && ValidString("owner")
    ensures ValidString("guest") && ValidString("isOwner") && ValidString("success")
  {
  }

  lemma GameStartKeysValid(x: GameStartEvent)
    ensures var ms := GameStartMembers(x); forall i | 0 <= i < |ms| :: ValidString(ms[i].key)
  {
    FirstKeysValid();
    LastKeysValid();
  }

  lemma GameStartValuesValid(x: GameStartEvent)
    requires WritableEvent(GameStart(x))
    ensures var ms := GameStartMembers(x); forall i | 0 <= i < |ms| :: Valid(ms[i].value)
  {
    GameStartFirstValuesValid(x);
    GameStartLastValuesValid(x);
  }

  lemma GameStartFirstValuesValid(x: GameStartEvent)
    requires WritableEvent(GameStart(x))
    ensures var ms := GameStartMembers(x); forall i | 0 <= i < 7 :: Valid(ms[i].value)
  {
    var ms := GameStartMembers(x);
    forall i | 0 <= i < 7
      ensures Valid(ms[i].value)
    {
      if i == 2 { IntJsonValid(x.ballX.Floor); }
      else if i == 3 { IntJsonValid(x.ballY.Floor); }
      else if i == 4 { IntJsonValid(x.ballVX.Floor); }
      else if i == 5 { IntJsonValid(x.ballVY.Floor); }
      else if i == 6 { IntJsonValid(x.paddle1Y.Floor); }
    }
  }

  lemma GameStartLastValuesValid(x: GameStartEvent)
    requires WritableEvent(GameStart(x))
    ensures var ms := GameStartMembers(x); forall i | 7 <= i < 14 :: Valid(ms[i].value)
  {
    GameStartScoresValid(x);
    GameStartPlayersValid(x);
  }

  lemma GameStartScoresValid(x: GameStartEvent)
    requires WritableEvent(GameStart(x))
    ensures var ms := GameStartMembers(x); forall i | 7 <= i < 10 :: Valid(ms[i].value)
  {
    var ms := GameStartMembers(x);
    forall i | 7 <= i < 10
      ensures Valid(ms[i].value)
    {
      if i == 7 { IntJsonValid(x.paddle2Y.Floor); }
      else if i == 8 { NatJsonAsUsize(x.ownerScore); }
      else { NatJsonAsUsize(x.guestScore); }
    }
  }

  lemma GameStartPlayersValid(x: GameStartEvent)
    requires WritableEvent(GameStart(x))
    ensures var ms := GameStartMembers(x); forall i | 10 <= i < 14 :: Valid(ms[i].value)
  {
    var ms := GameStartMembers(x);
    forall i | 10 <= i < 14
      ensures Valid(ms[i].value)
    {
      if i == 10 { PlayerRoundTrip(x.owner); }
      else if i == 11 { PlayerRoundTrip(x.guest); }
    }
  }

  lemma GameStateKeysValid(x: GameStateEvent)
    ensures var ms := GameStateMembers(x); forall i | 0 <= i < |ms| :: ValidString(ms[i].key)
  {
    FirstKeysValid();
    LastKeysValid();
  }

  lemma GameStateValuesValid(x: GameStateEvent)
    requires WritableEvent(GameState(x))
    ensures var ms := GameStateMembers(x); forall i | 0 <= i < |ms| :: Valid(ms[i].value)
  {
    var ms := GameStateMembers(x);
    forall i | 0 <= i < |ms|
      ensures Valid(ms[i].value)
    {
      if i == 0 { IntJsonValid(x.ballX.Floor); }
      else if i == 1 { IntJsonValid(x.ballY.Floor); }
      else if i == 2 { IntJsonValid(x.paddle1Y.Floor); }
      else if i == 3 { IntJsonValid(x.paddle2Y.Floor); }
      else if i == 4 { NatJsonAsUsize(x.ownerScore); }
      else { NatJsonAsUsize(x.guestScore); }
    }
  }

  lemma GameOverJsonValid(winner: string, message: string, owner: nat, guest: nat)
    requires ValidString(winner) && ValidString(message) && Valid(NatJson(owner)) && Valid(NatJson(guest))
    ensures Valid(JObj([Member("winner", JStr(winner)),
      Member("finalScore", JObj([Member("owner", NatJson(owner)), Member("guest", NatJson(guest))])),
      Member("message", JStr(message))]))
  {
    ValidPair("owner", NatJson(owner), "guest", NatJson(guest));
  }

  /** Every payload a server writes is one the compact encoder can write. */
  lemma EventPayloadValid(e: SocketEvents)
    requires WritableEvent(e)
    ensures Valid(EventPayloadJson(e))
  {
    match e
    case GameStart(x) =>
      GameStartKeysValid(x);
      GameStartValuesValid(x);
      ValidObject(GameStartMembers(x));
    case GameState(x) =>
      GameStateKeysValid(x);
      GameStateValuesValid(x);
      ValidObject(GameStateMembers(x));
    case GameOver(x) =>
      NatJsonAsUsize(x.finalScore.owner);
      NatJsonAsUsize(x.finalScore.guest);
      GameOverJsonValid(x.winner, x.message, x.finalScore.owner, x.finalScore.guest);
    case _ =>
  }

  // ---------------------------------------------------------------------
  // Frames a server sends, as the client reads them
  // ---------------------------------------------------------------------

  /** The envelope of an event as a server writes it. */
  function EventEnvelope(e: SocketEvents): Json
    requires WritableEvent(e)
  {
    EventResponseJson(EventResponse(EventName(e), EventPayloadJson(e)))
  }

  /** The text a server sends for an event, behind a packet code. */
  function EventFrame(code: nat, e: SocketEvents): string
    requires WritableEvent(e)
  {
    Frame(code, Encode(EventEnvelope(e)))
  }

  lemma EnvelopeValid(e: SocketEvents)
    requires WritableEvent(e)
    ensures Valid(EventEnvelope(e))
  {
    EventNameValid(e);
    EventPayloadValid(e);
    var items := EventEnvelope(e).items;
    assert forall i | 0 <= i < |items| :: items[i] == JStr(EventName(e)) || items[i] == EventPayloadJson(e);
  }

  /** `wait_for_events` hands over every event a server writes as that very
      event, whatever packet code precedes it. */
  lemma EventDelivered(sendFails: bool, code: nat, e: SocketEvents)
    requires WritableEvent(e) && code <= USIZE_MAX
    ensures WaitOutcome(sendFails, Some(Msg(Text(EventFrame(code, e))))) == Ok(e)
  {
    var env := EventEnvelope(e);
    EnvelopeValid(e);
    SplitFrameRoundTrip(code, Encode(env));
    RoundTrip(env);
    DispatchRoundTrip(e);
    assert |EventFrame(code, e)| != |PING|;
  }

  /** The open packet as a server writes it is one the encoder can write. */
  lemma OpenPacketValid(h: EngineIOHandshakeResponse)
    requires ValidString(h.sid) && forall i | 0 <= i < |h.upgrades| :: ValidString(h.upgrades[i])
    requires h.pingInterval <= USIZE_MAX && h.pingTimeout <= USIZE_MAX && h.maxPayload <= USIZE_MAX
    ensures Valid(EngineIOHandshakeJson(h))
  {
    NatJsonAsUsize(h.pingInterval);
    NatJsonAsUsize(h.pingTimeout);
    NatJsonAsUsize(h.maxPayload);
    OpenPacketKeysValid();
  }

  lemma OpenPacketKeysValid()
    ensures ValidString("sid") && ValidString("upgrades") && ValidString("pingInterval")
    ensures ValidString("pingTimeout") && ValidString("maxPayload")
  {
  }

  /** The CONNECT reply of a server that accepts the token. */
  function ConnectReply(sid: string): string {
    Frame(CONNECT, Encode(JObj([Member("sid", JStr(sid))])))
  }

  /** The client accepts every open packet a server writes. */
  lemma OpenPacketAccepted(h: EngineIOHandshakeResponse)
    requires ValidString(h.sid) && forall i | 0 <= i < |h.upgrades| :: ValidString(h.upgrades[i])
    requires h.pingInterval <= USIZE_MAX && h.pingTimeout <= USIZE_MAX && h.maxPayload <= USIZE_MAX
    ensures EngineIOAccepts(Some(Msg(Text(Frame(OPEN, Encode(EngineIOHandshakeJson(h)))))))
  {
    var open := EngineIOHandshakeJson(h);
    OpenPacketValid(h);
    SplitFrameRoundTrip(OPEN, Encode(open));
    RoundTrip(open);
    EngineIOHandshakeRoundTrip(h);
  }

  /** The client accepts every CONNECT reply that carries a session id. */
  lemma ConnectReplyAccepted(sid: string)
    requires ValidString(sid)
    ensures SocketIOOutcome(true, Some(Msg(Text(ConnectReply(sid))))) == Ok(Unit)
  {
    var reply := JObj([Member("sid", JStr(sid))]);
    SplitFrameRoundTrip(CONNECT, Encode(reply));
    RoundTrip(reply);
    FieldOfFirst(reply.members, "sid", 0);
  }

  /** A client connects whenever the server opens with its open packet and
      accepts the token. */
  lemma ConnectAccepted(h: EngineIOHandshakeResponse, sid: string)
    requires ValidString(h.sid) && forall i | 0 <= i < |h.upgrades| :: ValidString(h.upgrades[i])
    requires h.pingInterval <= USIZE_MAX && h.pingTimeout <= USIZE_MAX && h.maxPayload <= USIZE_MAX
    requires ValidString(sid)
    ensures ConnectOutcome(Connected, false,
      Some(Msg(Text(Frame(OPEN, Encode(EngineIOHandshakeJson(h)))))),
      Some(Msg(Text(ConnectReply(sid))))) == Ok(Unit)
  {
    OpenPacketAccepted(h);
    ConnectReplyAccepted(sid);
  }

  /** The payload of a `room_created` reply. */
  function RoomCreatedPayload(roomId: string, success: bool): Json {
    JObj([Member("roomId", JStr(roomId)), Member("success", JBool(success))])
  }

  /** A `room_created` reply from the server. */
  function RoomCreatedReply(roomId: string, success: bool): string {
    Frame(EVENT, Encode(EventResponseJson(EventResponse("room_created", RoomCreatedPayload(roomId, success)))))
  }

  /** `send_event` reads back every envelope a server writes under code 42. */
  lemma ReplyRead(name: string, payload: Json)
    requires ValidString(name) && Valid(payload)
    ensures ReplyOutcome(Some(Msg(Text(Frame(EVENT, Encode(EventResponseJson(EventResponse(name, payload))))))))
         == Ok(EventResponse(name, payload))
  {
    var env := EventResponseJson(EventResponse(name, payload));
    assert Valid(env) by {
      assert forall i | 0 <= i < |env.items| :: env.items[i] == JStr(name) || env.items[i] == payload;
    }
    SplitFrameRoundTrip(EVENT, Encode(env));
    RoundTrip(env);
  }

  lemma RoomCreatedRead(roomId: string, success: bool)
    requires ValidString(roomId)
    ensures ReplyOutcome(Some(Msg(Text(RoomCreatedReply(roomId, success)))))
         == Ok(EventResponse("room_created", RoomCreatedPayload(roomId, success)))
  {
    ValidPair("roomId", JStr(roomId), "success", JBool(success));
    ReplyRead("room_created", RoomCreatedPayload(roomId, success));
  }

  lemma RoomCreatedDecoded(roomId: string, success: bool)
    ensures DecodeCreateRoom(RoomCreatedPayload(roomId, success)) == Some(CreateRoomEvent(roomId, success))
  {
    var ms := RoomCreatedPayload(roomId, success).members;
    FieldOfFirst(ms, "roomId", 0);
    FieldOfFirst(ms, "success", 1);
  }

  /** `create_room` returns the room id exactly when the server reports
      success. */
  lemma CreateRoomReplied(roomId: string, success: bool)
    requires ValidString(roomId)
    ensures CreateRoomOutcome(ReplyOutcome(Some(Msg(Text(RoomCreatedReply(roomId, success))))))
         == if success then Ok(roomId) else Err(EventError.InvalidResponse)
  {
    RoomCreatedRead(roomId, success);
    RoomCreatedDecoded(roomId, success);
  }

  /** `join_room` succeeds exactly on a `joined_room` reply, whatever its
      payload. */
  lemma JoinRoomReplied(name: string, payload: Json)
    requires ValidString(name) && Valid(payload)
    ensures JoinRoomOutcome(ReplyOutcome(Some(Msg(Text(Frame(EVENT, Encode(EventResponseJson(EventResponse(name, payload)))))))))
         == if name == "joined_room" then Ok(Unit)
            else if name == "join_error" then Err(JoinRoomError)
            else Err(EventError.InvalidResponse)
  {
    ReplyRead(name, payload);
  }
}
