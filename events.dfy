/** The event layer of the CLI's Socket.IO client: the `[name, payload]`
    envelope it writes, the `(name, value)` envelope it reads, the payload
    schemas of the server's events and the dispatch on event names. */
module Events {
  import opened Wrappers
  import opened Digits
  import opened Json

  /** Errors of the event calls (`EventError`). */
  datatype EventError =
    | SerializingError
    | ConnectionError
    | InvalidResponse
    | CreateRoomError
    | JoinRoomError

  // ---------------------------------------------------------------------
  // Outbound: EventRequest(name, EventTypes)
  // ---------------------------------------------------------------------

  /** The room request of `create_room`: `{isSinglePlayer, isRemote}`. */
  datatype CreateRoomRequest = CreateRoomRequest(isSinglePlayer: bool, isRemote: bool)

  /** `CreateRoomRequest::multiplayer()`: a remote two-player room. */
  const MULTIPLAYER := CreateRoomRequest(false, true)
  /** `CreateRoomRequest::singleplayer()`: a room against the AI. */
  const SINGLEPLAYER := CreateRoomRequest(true, false)

  /** Paddle direction of `paddle_move`, serialized as "up", "down", "none". */
  datatype PaddleMoveDirection = Up | Down | NoMove

  function DirectionText(d: PaddleMoveDirection): string {
    match d
    case Up => "up"
    case Down => "down"
    case NoMove => "none"
  }

  /** How a server reads a direction back. */
  function DirectionOfText(s: string): (r: Option<PaddleMoveDirection>)
    ensures r.Some? ==> DirectionText(r.value) == s
  {
    if s == "up" then Some(Up)
    else if s == "down" then Some(Down)
    else if s == "none" then Some(NoMove)
    else None
  }

  lemma DirectionRoundTrip(d: PaddleMoveDirection)
    ensures DirectionOfText(DirectionText(d)) == Some(d)
  {
    match d
    case Up =>
    case Down => assert "down"[0] != "up"[0];
    case NoMove => assert "none"[0] != "up"[0] && "none"[0] != "down"[0];
  }

  /** The payloads the client sends (`EventTypes`, serialized untagged). */
  datatype EventTypes =
    | CreateRoom(room: CreateRoomRequest)
    | JoinRoom(roomId: string)
    | PaddleMove(moveP1: PaddleMoveDirection, moveP2: PaddleMoveDirection)
    | GamePause(paused: bool)
    | LeaveRoom

  /** Untagged serialization: the variant's content alone, no variant name. */
  function Payload(data: EventTypes): Json {
    match data
    case CreateRoom(room) =>
      JObj([Member("isSinglePlayer", JBool(room.isSinglePlayer)), Member("isRemote", JBool(room.isRemote))])
    case JoinRoom(roomId) => JObj([Member("roomId", JStr(roomId))])
    case PaddleMove(p1, p2) =>
      JObj([Member("moveP1", JStr(DirectionText(p1))), Member("moveP2", JStr(DirectionText(p2)))])
    case GamePause(paused) => JBool(paused)
    case LeaveRoom => JNull
  }

  /** `EventRequest(name, data)`: a tuple struct, serialized as a two-element array. */
  datatype EventRequest = EventRequest(name: string, data: EventTypes)

  function RequestJson(r: EventRequest): Json {
    JArr([JStr(r.name), Payload(r.data)])
  }

  /** The event name each payload is sent under. */
  function RequestName(data: EventTypes): string {
    match data
    case CreateRoom(_) => "create_room"
    case JoinRoom(_) => "join_room"
    case PaddleMove(_, _) => "paddle_move"
    case GamePause(_) => "game_pause"
    case LeaveRoom => "leave_room"
  }

  /** How a server reads a request: the name tells it which payload shape
      to expect, since the payload itself carries no tag. */
  function ReadRequest(j: Json): (r: Option<EventRequest>)
    ensures r.Some? ==> j.JArr? && |j.items| == 2 && j.items[0] == JStr(r.value.name)
  {
    if !j.JArr? || |j.items| != 2 || !j.items[0].JStr? then None
    else
      var name := j.items[0].s;
      var p := j.items[1];
      if name == "create_room" then
        var single := BoolField(p, "isSinglePlayer");
        var remote := BoolField(p, "isRemote");
        if single.Some? && remote.Some? then Some(EventRequest(name, CreateRoom(CreateRoomRequest(single.value, remote.value)))) else None
      else if name == "join_room" then
        var roomId := StringField(p, "roomId");
        if roomId.Some? then Some(EventRequest(name, JoinRoom(roomId.value))) else None
      else if name == "paddle_move" then
        var p1 := StringField(p, "moveP1");
        var p2 := StringField(p, "moveP2");
        if p1.Some? && p2.Some? && DirectionOfText(p1.value).Some? && DirectionOfText(p2.value).Some? then
          Some(EventRequest(name, PaddleMove(DirectionOfText(p1.value).value, DirectionOfText(p2.value).value)))
        else None
      else if name == "game_pause" then
        if p.JBool? then Some(EventRequest(name, GamePause(p.b))) else None
      else if name == "leave_room" then
        if p.JNull? then Some(EventRequest(name, LeaveRoom)) else None
      else None
  }

  /** The strings a request carries can be written by the encoder. */
  predicate ValidRequest(r: EventRequest) {
    ValidString(r.name) && (r.data.JoinRoom? ==> ValidString(r.data.roomId))
  }

  lemma DirectionTextValid(d: PaddleMoveDirection)
    ensures ValidString(DirectionText(d))
  {
  }

  lemma PayloadValid(data: EventTypes)
    requires data.JoinRoom? ==> ValidString(data.roomId)
    ensures Valid(Payload(data))
  {
    match data
    case CreateRoom(room) =>
      ValidPair("isSinglePlayer", JBool(room.isSinglePlayer), "isRemote", JBool(room.isRemote));
    case PaddleMove(p1, p2) =>
      DirectionTextValid(p1);
      DirectionTextValid(p2);
      ValidPair("moveP1", JStr(DirectionText(p1)), "moveP2", JStr(DirectionText(p2)));
    case _ =>
  }

  /** The untagged payload still determines the request once the name is
      known: a server reads back exactly what the client sent. */
  lemma ReadRequestRoundTrip(r: EventRequest)
    requires r.name == RequestName(r.data)
    ensures ReadRequest(RequestJson(r)) == Some(r)
  {
    var p := Payload(r.data);
    match r.data
    case CreateRoom(room) =>
      FieldOfFirst(p.members, "isSinglePlayer", 0);
      FieldOfFirst(p.members, "isRemote", 1);
    case JoinRoom(_) =>
      assert "join_room"[1] != "create_room"[1];
    case PaddleMove(d1, d2) =>
      assert "paddle_move"[0] != "create_room"[0] && "paddle_move"[0] != "join_room"[0];
      FieldOfFirst(p.members, "moveP1", 0);
      FieldOfFirst(p.members, "moveP2", 1);
      DirectionRoundTrip(d1);
      DirectionRoundTrip(d2);
    case GamePause(_) =>
      assert "game_pause"[0] != "create_room"[0] && "game_pause"[0] != "join_room"[0] && "game_pause"[0] != "paddle_move"[0];
    case LeaveRoom =>
      assert "leave_room"[0] != "create_room"[0] && "leave_room"[0] != "join_room"[0]
        && "leave_room"[0] != "paddle_move"[0] && "leave_room"[0] != "game_pause"[0];
  }

  // ---------------------------------------------------------------------
  // Inbound: EventResponse(name, value)
  // ---------------------------------------------------------------------

  /** `EventResponse(String, Value)`: `get_type` is `name`, `get_value` is `value`. */
  datatype EventResponse = EventResponse(name: string, value: Json)

  /** A tuple struct of two fields reads a JSON array of exactly two
      elements whose first is a string; the second may be any value. */
  function DecodeEventResponse(j: Json): (r: Option<EventResponse>)
    ensures r.Some? <==> j.JArr? && |j.items| == 2 && j.items[0].JStr?
    ensures r.Some? ==> j.items == [JStr(r.value.name), r.value.value]
  {
    if j.JArr? && |j.items| == 2 && j.items[0].JStr? then Some(EventResponse(j.items[0].s, j.items[1])) else None
  }

  /** The envelope as a server writes it. */
  function EventResponseJson(e: EventResponse): Json {
    JArr([JStr(e.name), e.value])
  }

  /** The envelope reads back unchanged: name and value are kept as sent. */
  lemma EventResponseRoundTrip(e: EventResponse)
    ensures DecodeEventResponse(EventResponseJson(e)) == Some(e)
  {
  }

  // ---------------------------------------------------------------------
  // Payload schemas (websocketevents.rs)
  // ---------------------------------------------------------------------

  datatype JoinedRoomEvent = JoinedRoomEvent(roomId: string, message: string, success: bool)

  datatype CreateRoomEvent = CreateRoomEvent(roomId: string, success: bool)

  /** A player id: a `u32` number or else a string (an untagged enum). */
  datatype NumberString = Number(n: nat) | Str(s: string)

  datatype GameStartEventPlayer = GameStartEventPlayer(id: NumberString, nickname: string)

  datatype GameStartEvent = GameStartEvent(
    message: string, roomId: string,
    ballX: real, ballY: real, ballVX: real, ballVY: real,
    paddle1Y: real, paddle2Y: real,
    ownerScore: nat, guestScore: nat,
    owner: GameStartEventPlayer, guest: GameStartEventPlayer,
    isOwner: bool, success: bool)

  datatype GameStateEvent = GameStateEvent(
    ballX: real, ballY: real, paddle1Y: real, paddle2Y: real,
    ownerScore: nat, guestScore: nat)

  datatype GameAbortedEvent = GameAbortedEvent(message: string)

  datatype FinalScore = FinalScore(owner: nat, guest: nat)

  datatype GameOverEvent = GameOverEvent(winner: string, finalScore: FinalScore, message: string)

  /** What `wait_for_events` yields (`SocketEvents`). */
  datatype SocketEvents =
    | JoinedRoom(joined: JoinedRoomEvent)
    | GameStart(start: GameStartEvent)
    | GameState(state: GameStateEvent)
    | GamePauseState(isPaused: bool)
    | GameAborted(aborted: GameAbortedEvent)
    | GameOver(over: GameOverEvent)
    | Ping

  function DecodeJoinedRoom(j: Json): (r: Option<JoinedRoomEvent>)
    ensures r.Some? <==>
      StringField(j, "roomId").Some? && StringField(j, "message").Some? && BoolField(j, "success").Some?
  {
    var roomId := StringField(j, "roomId");
    var message := StringField(j, "message");
    var success := BoolField(j, "success");
    if roomId.Some? && message.Some? && success.Some? then Some(JoinedRoomEvent(roomId.value, message.value, success.value))
    else None
  }

  function DecodeCreateRoom(j: Json): (r: Option<CreateRoomEvent>)
    ensures r.Some? <==> StringField(j, "roomId").Some? && BoolField(j, "success").Some?
  {
    var roomId := StringField(j, "roomId");
    var success := BoolField(j, "success");
    if roomId.Some? && success.Some? then Some(CreateRoomEvent(roomId.value, success.value)) else None
  }

  /** The untagged `NumberString`: a `u32` number first, a string second,
      anything else (a negative, fractional or too large number) rejected. */
  function DecodeNumberString(j: Json): (r: Option<NumberString>)
    ensures r.Some? <==> AsU32(j).Some? || j.JStr?
    ensures r.Some? && r.value.Number? ==> r.value.n <= U32_MAX
  {
    if AsU32(j).Some? then Some(Number(AsU32(j).value))
    else if j.JStr? then Some(Str(j.s))
    else None
  }

  function DecodePlayer(j: Json): (r: Option<GameStartEventPlayer>)
    ensures r.Some? <==>
      Field(j, "id").Some? && DecodeNumberString(Field(j, "id").value).Some? && StringField(j, "nickname").Some?
  {
    var id := Field(j, "id");
    var nickname := StringField(j, "nickname");
    if id.Some? && DecodeNumberString(id.value).Some? && nickname.Some? then
      Some(GameStartEventPlayer(DecodeNumberString(id.value).value, nickname.value))
    else None
  }

  function PlayerField(j: Json, key: string): Option<GameStartEventPlayer> {
    match Field(j, key)
    case Some(v) => DecodePlayer(v)
    case None => None
  }

  /** The game start payload: all fourteen fields are required. */
  function DecodeGameStart(j: Json): (r: Option<GameStartEvent>)
    ensures r.Some? ==>
      && StringField(j, "message").Some? && StringField(j, "roomId").Some?
      && F64Field(j, "ballVX").Some? && F64Field(j, "ballVY").Some? && BoolField(j, "success").Some?
      && F64Field(j, "ballX") == Some(r.value.ballX) && F64Field(j, "ballY") == Some(r.value.ballY)
      && F64Field(j, "paddle1Y") == Some(r.value.paddle1Y) && F64Field(j, "paddle2Y") == Some(r.value.paddle2Y)
      && UsizeField(j, "ownerScore") == Some(r.value.ownerScore) && UsizeField(j, "guestScore") == Some(r.value.guestScore)
      && PlayerField(j, "owner") == Some(r.value.owner) && PlayerField(j, "guest") == Some(r.value.guest)
      && BoolField(j, "isOwner") == Some(r.value.isOwner)
  {
    var message := StringField(j, "message");
    var roomId := StringField(j, "roomId");
    var ballX := F64Field(j, "ballX");
    var ballY := F64Field(j, "ballY");
    var ballVX := F64Field(j, "ballVX");
    var ballVY := F64Field(j, "ballVY");
    var paddle1Y := F64Field(j, "paddle1Y");
    var paddle2Y := F64Field(j, "paddle2Y");
    var ownerScore := UsizeField(j, "ownerScore");
    var guestScore := UsizeField(j, "guestScore");
    var owner := PlayerField(j, "owner");
    var guest := PlayerField(j, "guest");
    var isOwner := BoolField(j, "isOwner");
    var success := BoolField(j, "success");
    if message.Some? && roomId.Some? && ballX.Some? && ballY.Some? && ballVX.Some? && ballVY.Some?
      && paddle1Y.Some? && paddle2Y.Some? && ownerScore.Some? && guestScore.Some?
      && owner.Some? && guest.Some? && isOwner.Some? && success.Some?
    then
      Some(GameStartEvent(message.value, roomId.value, ballX.value, ballY.value, ballVX.value, ballVY.value,
        paddle1Y.value, paddle2Y.value, ownerScore.value, guestScore.value, owner.value, guest.value,
        isOwner.value, success.value))
    else None
  }

  /** The game state payload: six fields, scores non-negative `usize`. */
  function DecodeGameState(j: Json): (r: Option<GameStateEvent>)
    ensures r.Some? <==>
      && F64Field(j, "ballX").Some? && F64Field(j, "ballY").Some?
      && F64Field(j, "paddle1Y").Some? && F64Field(j, "paddle2Y").Some?
      && UsizeField(j, "ownerScore").Some? && UsizeField(j, "guestScore").Some?
    ensures r.Some? ==> r.value.ownerScore <= USIZE_MAX && r.value.guestScore <= USIZE_MAX
  {
    var ballX := F64Field(j, "ballX");
    var ballY := F64Field(j, "ballY");
    var paddle1Y := F64Field(j, "paddle1Y");
    var paddle2Y := F64Field(j, "paddle2Y");
    var ownerScore := UsizeField(j, "ownerScore");
    var guestScore := UsizeField(j, "guestScore");
    if ballX.Some? && ballY.Some? && paddle1Y.Some? && paddle2Y.Some? && ownerScore.Some? && guestScore.Some? then
      Some(GameStateEvent(ballX.value, ballY.value, paddle1Y.value, paddle2Y.value, ownerScore.value, guestScore.value))
    else None
  }

  function DecodeGameAborted(j: Json): (r: Option<GameAbortedEvent>)
    ensures r.Some? <==> StringField(j, "message").Some?
  {
    match StringField(j, "message")
    case Some(m) => Some(GameAbortedEvent(m))
    case None => None
  }

  function DecodeFinalScore(j: Json): (r: Option<FinalScore>)
    ensures r.Some? <==> UsizeField(j, "owner").Some? && UsizeField(j, "guest").Some?
  {
    var owner := UsizeField(j, "owner");
    var guest := UsizeField(j, "guest");
    if owner.Some? && guest.Some? then Some(FinalScore(owner.value, guest.value)) else None
  }

  /** The game over payload: `winner`, `finalScore {owner, guest}`, `message`. */
  function DecodeGameOver(j: Json): (r: Option<GameOverEvent>)
    ensures r.Some? <==>
      StringField(j, "winner").Some? && Field(j, "finalScore").Some?
      && DecodeFinalScore(Field(j, "finalScore").value).Some? && StringField(j, "message").Some?
  {
    var winner := StringField(j, "winner");
    var score := Field(j, "finalScore");
    var message := StringField(j, "message");
    if winner.Some? && score.Some? && DecodeFinalScore(score.value).Some? && message.Some? then
      Some(GameOverEvent(winner.value, DecodeFinalScore(score.value).value, message.value))
    else None
  }

  // ---------------------------------------------------------------------
  // Dispatch on the event name (the match in `wait_for_events`)
  // ---------------------------------------------------------------------

  /** The name each server event arrives under. */
  function EventName(e: SocketEvents): string
    requires !e.Ping?
  {
    match e
    case JoinedRoom(_) => "joined_room"
    case GameStart(_) => "game_start"
    case GameState(_) => "game_state"
    case GamePauseState(_) => "game_pause_state"
    case GameAborted(_) => "game_aborted"
    case GameOver(_) => "game_over"
  }

  predicate KnownEventName(name: string) {
    name == "joined_room" || name == "game_start" || name == "game_state"
    || name == "game_pause_state" || name == "game_aborted" || name == "game_over"
  }

  /** A known name with a payload that fits its schema gives that event; a
      known name with a payload that does not gives `SerializingError`; an
      unknown name gives `InvalidResponse`. */
  function DispatchEvent(resp: EventResponse): (r: Result<SocketEvents, EventError>)
    ensures r.Ok? ==> !r.value.Ping? && EventName(r.value) == resp.name
    ensures r == Err(InvalidResponse) <==> !KnownEventName(resp.name)
    ensures r.Err? ==> r.error == InvalidResponse || r.error == SerializingError
  {
    var v := resp.value;
    match resp.name
    case "joined_room" => (match DecodeJoinedRoom(v) case Some(e) => Ok(JoinedRoom(e)) case None => Err(SerializingError))
    case "game_start" => (match DecodeGameStart(v) case Some(e) => Ok(GameStart(e)) case None => Err(SerializingError))
    case "game_state" => (match DecodeGameState(v) case Some(e) => Ok(GameState(e)) case None => Err(SerializingError))
    case "game_pause_state" => (match AsBool(v) case Some(b) => Ok(GamePauseState(b)) case None => Err(SerializingError))
    case "game_aborted" => (match DecodeGameAborted(v) case Some(e) => Ok(GameAborted(e)) case None => Err(SerializingError))
    case "game_over" => (match DecodeGameOver(v) case Some(e) => Ok(GameOver(e)) case None => Err(SerializingError))
    case _ => Err(InvalidResponse)
  }

  // ---------------------------------------------------------------------
  // The payloads as a server writes them, and reading them back
  // ---------------------------------------------------------------------

  /** Number fields hold whole numbers, ids and scores fit their widths,
      and strings can be written by the encoder. */
  predicate WritablePlayer(p: GameStartEventPlayer) {
    ValidString(p.nickname)
    && match p.id
       case Number(n) => n <= U32_MAX
       case Str(s) => ValidString(s)
  }

  predicate WritableEvent(e: SocketEvents) {
    match e
    case JoinedRoom(x) => ValidString(x.roomId) && ValidString(x.message)
    case GameStart(x) =>
      ValidString(x.message) && ValidString(x.roomId)
      && Integral(x.ballX) && Integral(x.ballY) && Integral(x.ballVX) && Integral(x.ballVY)
      && Integral(x.paddle1Y) && Integral(x.paddle2Y)
      && x.ownerScore <= USIZE_MAX && x.guestScore <= USIZE_MAX
      && WritablePlayer(x.owner) && WritablePlayer(x.guest)
    case GameState(x) =>
      Integral(x.ballX) && Integral(x.ballY) && Integral(x.paddle1Y) && Integral(x.paddle2Y)
      && x.ownerScore <= USIZE_MAX && x.guestScore <= USIZE_MAX
    case GamePauseState(_) => true
    case GameAborted(x) => ValidString(x.message)
    case GameOver(x) =>
      ValidString(x.winner) && ValidString(x.message)
      && x.finalScore.owner <= USIZE_MAX && x.finalScore.guest <= USIZE_MAX
    case Ping => false
  }

  function PlayerJson(p: GameStartEventPlayer): Json {
    JObj([
      Member("id", match p.id case Number(n) => NatJson(n) case Str(s) => JStr(s)),
      Member("nickname", JStr(p.nickname))])
  }

  function GameStartMembers(x: GameStartEvent): seq<Member> {
    [ Member("message", JStr(x.message)), Member("roomId", JStr(x.roomId)),
      Member("ballX", IntJson(x.ballX.Floor)), Member("ballY", IntJson(x.ballY.Floor)),
      Member("ballVX", IntJson(x.ballVX.Floor)), Member("ballVY", IntJson(x.ballVY.Floor)),
      Member("paddle1Y", IntJson(x.paddle1Y.Floor)), Member("paddle2Y", IntJson(x.paddle2Y.Floor)),
      Member("ownerScore", NatJson(x.ownerScore)), Member("guestScore", NatJson(x.guestScore)),
      Member("owner", PlayerJson(x.owner)), Member("guest", PlayerJson(x.guest)),
      Member("isOwner", JBool(x.isOwner)), Member("success", JBool(x.success)) ]
  }

  function GameStateMembers(x: GameStateEvent): seq<Member> {
    [ Member("ballX", IntJson(x.ballX.Floor)), Member("ballY", IntJson(x.ballY.Floor)),
      Member("paddle1Y", IntJson(x.paddle1Y.Floor)), Member("paddle2Y", IntJson(x.paddle2Y.Floor)),
      Member("ownerScore", NatJson(x.ownerScore)), Member("guestScore", NatJson(x.guestScore)) ]
  }

  /** The payload a server sends with each event. */
  function EventPayloadJson(e: SocketEvents): Json
    requires WritableEvent(e)
  {
    match e
    case JoinedRoom(x) =>
      JObj([Member("roomId", JStr(x.roomId)), Member("message", JStr(x.message)), Member("success", JBool(x.success))])
    case GameStart(x) => JObj(GameStartMembers(x))
    case GameState(x) => JObj(GameStateMembers(x))
    case GamePauseState(b) => JBool(b)
    case GameAborted(x) => JObj([Member("message", JStr(x.message))])
    case GameOver(x) =>
      JObj([Member("winner", JStr(x.winner)),
            Member("finalScore", JObj([Member("owner", NatJson(x.finalScore.owner)), Member("guest", NatJson(x.finalScore.guest))])),
            Member("message", JStr(x.message))])
  }

  lemma PlayerRoundTrip(p: GameStartEventPlayer)
    requires WritablePlayer(p)
    ensures DecodePlayer(PlayerJson(p)) == Some(p) && Valid(PlayerJson(p))
  {
    var ms := PlayerJson(p).members;
    FieldOfFirst(ms, "id", 0);
    FieldOfFirst(ms, "nickname", 1);
    if p.id.Number? {
      NatJsonAsUsize(p.id.n);
    }
  }

  // One lemma per field of the fourteen-field game start payload, so that
  // each lookup is proved on its own.

  lemma GameStartMessageField(x: GameStartEvent)
    ensures StringField(JObj(GameStartMembers(x)), "message") == Some(x.message)
  {
    FieldOfFirst(GameStartMembers(x), "message", 0);
  }

  lemma GameStartRoomIdField(x: GameStartEvent)
    ensures StringField(JObj(GameStartMembers(x)), "roomId") == Some(x.roomId)
  {
    FieldOfFirst(GameStartMembers(x), "roomId", 1);
  }

  lemma GameStartBallXField(x: GameStartEvent)
    requires Integral(x.ballX)
    ensures F64Field(JObj(GameStartMembers(x)), "ballX") == Some(x.ballX)
  {
    FieldOfFirst(GameStartMembers(x), "ballX", 2);
    IntJsonAsF64(x.ballX);
  }

  lemma GameStartBallYField(x: GameStartEvent)
    requires Integral(x.ballY)
    ensures F64Field(JObj(GameStartMembers(x)), "ballY") == Some(x.ballY)
  {
    FieldOfFirst(GameStartMembers(x), "ballY", 3);
    IntJsonAsF64(x.ballY);
  }

  lemma GameStartBallVXField(x: GameStartEvent)
    requires Integral(x.ballVX)
    ensures F64Field(JObj(GameStartMembers(x)), "ballVX") == Some(x.ballVX)
  {
    FieldOfFirst(GameStartMembers(x), "ballVX", 4);
    IntJsonAsF64(x.ballVX);
  }

  lemma GameStartBallVYField(x: GameStartEvent)
    requires Integral(x.ballVY)
    ensures F64Field(JObj(GameStartMembers(x)), "ballVY") == Some(x.ballVY)
  {
    FieldOfFirst(GameStartMembers(x), "ballVY", 5);
    IntJsonAsF64(x.ballVY);
  }

  lemma GameStartPaddle1YField(x: GameStartEvent)
    requires Integral(x.paddle1Y)
    ensures F64Field(JObj(GameStartMembers(x)), "paddle1Y") == Some(x.paddle1Y)
  {
    FieldOfFirst(GameStartMembers(x), "paddle1Y", 6);
    IntJsonAsF64(x.paddle1Y);
  }

  lemma GameStartPaddle2YField(x: GameStartEvent)
    requires Integral(x.paddle2Y)
    ensures F64Field(JObj(GameStartMembers(x)), "paddle2Y") == Some(x.paddle2Y)
  {
    FieldOfFirst(GameStartMembers(x), "paddle2Y", 7);
    IntJsonAsF64(x.paddle2Y);
  }

  lemma GameStartOwnerScoreField(x: GameStartEvent)
    requires x.ownerScore <= USIZE_MAX
    ensures UsizeField(JObj(GameStartMembers(x)), "ownerScore") == Some(x.ownerScore)
  {
    FieldOfFirst(GameStartMembers(x), "ownerScore", 8);
    NatJsonAsUsize(x.ownerScore);
  }

  lemma GameStartGuestScoreField(x: GameStartEvent)
    requires x.guestScore <= USIZE_MAX
    ensures UsizeField(JObj(GameStartMembers(x)), "guestScore") == Some(x.guestScore)
  {
    FieldOfFirst(GameStartMembers(x), "guestScore", 9);
    NatJsonAsUsize(x.guestScore);
  }

  lemma GameStartOwnerField(x: GameStartEvent)
    requires WritablePlayer(x.owner)
    ensures PlayerField(JObj(GameStartMembers(x)), "owner") == Some(x.owner)
  {
    FieldOfFirst(GameStartMembers(x), "owner", 10);
    PlayerRoundTrip(x.owner);
  }

  lemma GameStartGuestField(x: GameStartEvent)
    requires WritablePlayer(x.guest)
    ensures PlayerField(JObj(GameStartMembers(x)), "guest") == Some(x.guest)
  {
    FieldOfFirst(GameStartMembers(x), "guest", 11);
    PlayerRoundTrip(x.guest);
  }

  lemma GameStartIsOwnerField(x: GameStartEvent)
    ensures BoolField(JObj(GameStartMembers(x)), "isOwner") == Some(x.isOwner)
  {
    FieldOfFirst(GameStartMembers(x), "isOwner", 12);
  }

  lemma GameStartSuccessField(x: GameStartEvent)
    ensures BoolField(JObj(GameStartMembers(x)), "success") == Some(x.success)
  {
    FieldOfFirst(GameStartMembers(x), "success", 13);
  }

  lemma GameStateBallFields(x: GameStateEvent)
    requires Integral(x.ballX) && Integral(x.ballY)
    ensures var j := JObj(GameStateMembers(x));
      F64Field(j, "ballX") == Some(x.ballX) && F64Field(j, "ballY") == Some(x.ballY)
  {
    FieldOfFirst(GameStateMembers(x), "ballX", 0);
    FieldOfFirst(GameStateMembers(x), "ballY", 1);
    IntJsonAsF64(x.ballX);
    IntJsonAsF64(x.ballY);
  }

  lemma GameStatePaddleFields(x: GameStateEvent)
    requires Integral(x.paddle1Y) && Integral(x.paddle2Y)
    ensures var j := JObj(GameStateMembers(x));
      F64Field(j, "paddle1Y") == Some(x.paddle1Y) && F64Field(j, "paddle2Y") == Some(x.paddle2Y)
  {
    FieldOfFirst(GameStateMembers(x), "paddle1Y", 2);
    FieldOfFirst(GameStateMembers(x), "paddle2Y", 3);
    IntJsonAsF64(x.paddle1Y);
    IntJsonAsF64(x.paddle2Y);
  }

  lemma GameStateScoreFields(x: GameStateEvent)
    requires x.ownerScore <= USIZE_MAX && x.guestScore <= USIZE_MAX
    ensures var j := JObj(GameStateMembers(x));
      UsizeField(j, "ownerScore") == Some(x.ownerScore) && UsizeField(j, "guestScore") == Some(x.guestScore)
  {
    FieldOfFirst(GameStateMembers(x), "ownerScore", 4);
    FieldOfFirst(GameStateMembers(x), "guestScore", 5);
    NatJsonAsUsize(x.ownerScore);
    NatJsonAsUsize(x.guestScore);
  }

  lemma JoinedRoomRoundTrip(x: JoinedRoomEvent)
    requires WritableEvent(JoinedRoom(x))
    ensures DecodeJoinedRoom(EventPayloadJson(JoinedRoom(x))) == Some(x)
  {
    var ms := EventPayloadJson(JoinedRoom(x)).members;
    FieldOfFirst(ms, "roomId", 0);
    FieldOfFirst(ms, "message", 1);
    FieldOfFirst(ms, "success", 2);
  }

  lemma GameStartRoundTrip(x: GameStartEvent)
    requires WritableEvent(GameStart(x))
    ensures DecodeGameStart(EventPayloadJson(GameStart(x))) == Some(x)
  {
    GameStartMessageField(x);
    GameStartRoomIdField(x);
    GameStartBallXField(x);
    GameStartBallYField(x);
    GameStartBallVXField(x);
    GameStartBallVYField(x);
    GameStartPaddle1YField(x);
    GameStartPaddle2YField(x);
    GameStartOwnerScoreField(x);
    GameStartGuestScoreField(x);
    GameStartOwnerField(x);
    GameStartGuestField(x);
    GameStartIsOwnerField(x);
    GameStartSuccessField(x);
  }

  lemma GameStateRoundTrip(x: GameStateEvent)
    requires WritableEvent(GameState(x))
    ensures DecodeGameState(EventPayloadJson(GameState(x))) == Some(x)
  {
    GameStateBallFields(x);
    GameStatePaddleFields(x);
    GameStateScoreFields(x);
  }

  lemma GameOverRoundTrip(x: GameOverEvent)
    requires WritableEvent(GameOver(x))
    ensures DecodeGameOver(EventPayloadJson(GameOver(x))) == Some(x)
  {
    var ms := EventPayloadJson(GameOver(x)).members;
    FieldOfFirst(ms, "winner", 0);
    FieldOfFirst(ms, "finalScore", 1);
    FieldOfFirst(ms, "message", 2);
    var fs := ms[1].value.members;
    FieldOfFirst(fs, "owner", 0);
    FieldOfFirst(fs, "guest", 1);
    NatJsonAsUsize(x.finalScore.owner);
    NatJsonAsUsize(x.finalScore.guest);
  }

  /** Every event a server writes under its name is dispatched as that very
      event: the schemas accept exactly what they describe. */
  lemma DispatchRoundTrip(e: SocketEvents)
    requires WritableEvent(e)
    ensures DispatchEvent(EventResponse(EventName(e), EventPayloadJson(e))) == Ok(e)
  {
    match e
    case JoinedRoom(x) => JoinedRoomRoundTrip(x);
    case GameStart(x) => GameStartRoundTrip(x);
    case GameState(x) => GameStateRoundTrip(x);
    case GamePauseState(_) =>
    case GameAborted(x) => FieldOfFirst(EventPayloadJson(e).members, "message", 0);
    case GameOver(x) => GameOverRoundTrip(x);
  }
}
