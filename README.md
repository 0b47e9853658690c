# ft-transcendence Pong platform: a verified model of its sequential core

This project models the parts of the ft-transcendence Pong platform that
have clear, checkable behaviour, and proves what they promise. It has four
parts.

- **The terminal client's Socket.IO transport** (`cli/src/websocket/`):
  - the frame codec that fuses an Engine.IO/Socket.IO packet code with a JSON body (`"0"`, `"40"`, `"42"`, `"44"`);
  - the two-stage handshake;
  - request/reply events, fire-and-forget events and keep-alive;
  - the name-based dispatch of the server's events;
  - the JSON schemas of every payload.

  The WebSocket is a script of incoming frames with a log of the frames sent.
- **The terminal client's application** (`cli/src/app.rs`, `cli/src/ui/`, `cli/src/game/movement.rs`):
  - the orchestrator as one step per event source (socket event, finished background task, page result, tick) over its page, socket slot, host and token;
  - the OAuth callback query check and the endpoint URL;
  - the page union and every page's input machine;
  - the paddle debouncer.
- **The server-side stores**:
  - the room and tournament lobbies of the game service;
  - the live-chat presence, block flags, unread counters and game invitations;
  - the AI-instance registry;
  - the account, friendship and statistics tables with the auth controller's request checks;
  - the duration parser of the auth service.

  Each store is maps and sequences held by a class whose methods are proved against pure step functions.
- **Browser helpers**:
  - chat message tidying, date tags, the block-status footer and the older-message loader;
  - avatar URLs, header-name truncation, unread badges and the new-message counter;
  - the remote game's key, touch and pause flags;
  - the router.

Code that works by changing state is modelled as classes with `modifies` clauses. Each method is tied to a pure function of the old state, and the lemmas about that function state what the source promises. Pure code is modelled as datatypes, functions and lemmas.

Several files of the terminal client disagree with each other. The model follows `cli/src/app.rs` and `cli/src/websocket/mod.rs`, and adds what those two files use:
- `main.rs` calls `App::new()` with no argument, but `app.rs` takes the kitty-support flag; the model takes the flag.
- `ui/pages.rs` lacks the HostSelector, NicknameSelector and TotpPage pages and several `PageResults`. The model has every variant `app.rs` matches on.
- `events/request.rs` lacks `CreateRoom(..)`, `PaddleMove{moveP1, moveP2}` and `GamePause`. The model has them, with the wire names the browser client's socket interfaces use. Inferred from `app.rs`: `CreateRoomRequest::multiplayer()` is `{isSinglePlayer: false, isRemote: true}` and `singleplayer()` is the reverse.
- `events/websocketevents.rs` names the enum `WebSocketEvents` and has no `GamePauseState`. The model uses `SocketEvents` with `GamePauseState(bool)`.
- `ui/game.rs` uses `is_player1` and `PaddleUpdateEvent`, which no file defines. The model takes `is_player1` from the game-start event's `isOwner`, and defines the paddle update as a player id and a position.

## Model

| member | source | states |
|---|---|---|
| Digits.DecimalValue | cli/src/websocket/mod.rs:114 | the decimal text of every number is all digits and reads back as that number |
| FrameCodec.FindBracket | cli/src/websocket/mod.rs:108 | the index found holds '{' or '[' and no bracket comes before it; no index means the text has no bracket |
| FrameCodec.ParseUsize | cli/src/websocket/mod.rs:114 | a prefix that parses as a usize gives a value of at most 2^64-1 |
| FrameCodec.SplitCodeJson | cli/src/websocket/mod.rs:107-118 | on success the JSON part is the text from the first bracket on, that bracket is not at index 0, and the part before it parses as the code |
| FrameCodec.SplitCodeJsonFails | cli/src/websocket/mod.rs:107-118 | splitting fails exactly when there is no bracket, the first character is a bracket, or the prefix before the first bracket is not a usize |
| FrameCodec.FindBracketAfter | cli/src/websocket/mod.rs:108 | a bracket-free prefix is skipped: the search stops at the JSON that follows it |
| FrameCodec.ParseUsizeDecimal | cli/src/websocket/mod.rs:114 | every usize reads back from its own decimal text |
| FrameCodec.SplitFrameRoundTrip | cli/src/websocket/mod.rs:79-124 | splitting a frame written as code then JSON gives back that code and that JSON |
| FrameCodec.KeepAliveIsNotFramed | cli/src/websocket/mod.rs:258-267 | the bare keep-alive texts "2" and "3" never split as framed packets |
| Handshake.DecodeEngineIOHandshake | cli/src/websocket/handshake.rs:3-15 | the open packet is accepted exactly when all five fields are present with their types (sid a string, upgrades a string list, the three numbers usize), and it then holds their values |
| Handshake.DecodeSocketIOHandshake | cli/src/websocket/handshake.rs:30-34 | the CONNECT reply is accepted exactly when it has a string `sid` |
| Handshake.EngineIOHandshakeFields | cli/src/websocket/handshake.rs:4-15 | each of the five named fields is found in the open packet a server writes |
| Handshake.EngineIOHandshakeRoundTrip | cli/src/websocket/handshake.rs:3-15 | every open packet a server writes is accepted and read back unchanged |
| Handshake.SocketIOHandshakeRequestCarriesToken | cli/src/websocket/handshake.rs:17-28 | the CONNECT request is `{"token": token}` with the given token and no other member |
| Handshake.RequestIsNotAReply | cli/src/websocket/handshake.rs:17-34 | the client's own CONNECT request would not pass as a CONNECT reply, since it has no `sid` |
| Json.RoundTrip | cli/src/websocket/mod.rs:79-99 | every value the compact encoder writes parses back as the same value |
| Json.FieldOfFound | cli/src/websocket/handshake.rs:3-15 | a struct field is found exactly when some member has that key, and the value is then the first such member's |
| Events.DirectionOfText | cli/src/websocket/mod.rs:219-231 | a direction text that reads back gives the direction written as that text |
| Events.DirectionRoundTrip | cli/src/websocket/mod.rs:219-231 | "up", "down" and "none" read back as the direction they were written for |
| Events.ReadRequest | cli/src/websocket/events/request.rs:18-19 | a request reads back only from a two-element array whose first element is the event name |
| Events.ReadRequestRoundTrip | cli/src/websocket/events/request.rs:3-24 | the untagged payload still determines the request once the name is known: a server reads back exactly the name and payload the client sent |
| Events.PayloadValid | cli/src/websocket/events/request.rs:3-16 | every payload the client sends is a value the encoder can write |
| Events.DecodeEventResponse | cli/src/websocket/events/response.rs:4-5 | an envelope is read exactly from a two-element array whose first element is a string; the second element is kept whole as the value |
| Events.EventResponseRoundTrip | cli/src/websocket/events/response.rs:4-14 | the envelope is read back with its name and value unchanged, so `get_type` and `get_value` return what was sent |
| Events.DecodeJoinedRoom | cli/src/websocket/events/websocketevents.rs:3-9 | the joined-room payload is accepted exactly when `roomId`, `message` and `success` are present with their types |
| Events.DecodeCreateRoom | cli/src/websocket/events/websocketevents.rs:11-16 | the room-created payload is accepted exactly when `roomId` is a string and `success` a bool |
| Events.DecodeNumberString | cli/src/websocket/events/websocketevents.rs:46-51 | a player id is accepted exactly when it is a u32 number or a string, and a number id is at most 2^32-1 |
| Events.DecodePlayer | cli/src/websocket/events/websocketevents.rs:53-57 | a player is accepted exactly when it has a valid `id` and a string `nickname` |
| Events.DecodeGameStart | cli/src/websocket/events/websocketevents.rs:18-44 | an accepted game-start payload has all fourteen fields, and the result holds the values of the fields the client reads |
| Events.DecodeGameState | cli/src/websocket/events/websocketevents.rs:59-73 | the game-state payload is accepted exactly when its six fields are present, and both scores are usize values |
| Events.DecodeGameAborted | cli/src/websocket/events/websocketevents.rs:75-78 | the game-aborted payload is accepted exactly when it has a string `message` |
| Events.DecodeFinalScore | cli/src/websocket/events/websocketevents.rs:80-84 | a final score is accepted exactly when `owner` and `guest` are usize values |
| Events.DecodeGameOver | cli/src/websocket/events/websocketevents.rs:86-92 | the game-over payload is accepted exactly when it has `winner`, a valid `finalScore` and `message` |
| Events.DispatchEvent | cli/src/websocket/mod.rs:272-301 | an event comes back only under its own name; `InvalidResponse` happens exactly for names outside the six known ones; the only other error is `SerializingError` |
| Events.PlayerRoundTrip | cli/src/websocket/events/websocketevents.rs:46-57 | every player a server writes, with a number id or a string id, is read back unchanged |
| Events.JoinedRoomRoundTrip | cli/src/websocket/events/websocketevents.rs:3-9 | every joined-room payload a server writes is read back unchanged |
| Events.GameStartRoundTrip | cli/src/websocket/events/websocketevents.rs:18-44 | every game-start payload a server writes (whole-number coordinates) is read back unchanged |
| Events.GameStateRoundTrip | cli/src/websocket/events/websocketevents.rs:59-73 | every game-state payload a server writes is read back unchanged |
| Events.GameOverRoundTrip | cli/src/websocket/events/websocketevents.rs:80-92 | every game-over payload a server writes is read back unchanged |
| Events.DispatchRoundTrip | cli/src/websocket/mod.rs:272-301 | every event a server writes under its own name is dispatched as that very event |
| ServerFrames.EventPayloadValid | cli/src/websocket/events/websocketevents.rs:18-92 | every payload a server writes is one the compact encoder can write |
| ServerFrames.EventDelivered | cli/src/websocket/mod.rs:248-301 | `wait_for_events` returns every event a server sends as that event, whatever the packet code in front of it |
| ServerFrames.OpenPacketAccepted | cli/src/websocket/mod.rs:61-76 | the Engine.IO handshake accepts every open packet a server writes under code 0 |
| ServerFrames.ConnectReplyAccepted | cli/src/websocket/mod.rs:78-104 | the Socket.IO handshake accepts every code-40 reply that carries a session id |
| ServerFrames.ConnectAccepted | cli/src/websocket/mod.rs:33-59 | a client connects whenever the server opens with its open packet and then accepts the token |
| ServerFrames.ReplyRead | cli/src/websocket/mod.rs:120-155 | `send_event` reads back every envelope a server writes under code 42 |
| ServerFrames.CreateRoomReplied | cli/src/websocket/mod.rs:182-192 | `create_room` returns the room id exactly when the server's `room_created` reply says success |
| ServerFrames.JoinRoomReplied | cli/src/websocket/mod.rs:209-216 | `join_room` succeeds exactly on a `joined_room` reply, whatever its payload |
| SocketClient.WsStream.Next | cli/src/websocket/mod.rs:131-136 | `next()` yields the next scripted item and moves the cursor past it, or yields nothing once the script has ended (also lines 62, 249-254) |
| SocketClient.WsStream.Send | cli/src/websocket/mod.rs:84-129 | a write succeeds unless the peer refuses writes, and a successful write is appended to the log |
| SocketClient.WsStream.Close | cli/src/websocket/mod.rs:241-246 | closing succeeds unless the peer refuses writes, and a successful close marks the stream closed |
| SocketClient.SocketIOOutcome | cli/src/websocket/mod.rs:50-104 | the Socket.IO handshake fails only with `InvalidCredentials` or `HandshakeError`; `InvalidCredentials` happens exactly on a code-44 reply; success needs a code-40 reply |
| SocketClient.ConnectOutcome | cli/src/websocket/mod.rs:33-59 | once connected, every failure is `HandshakeError` except a code-44 reply after a good open packet; success needs both handshakes |
| SocketClient.ReadEnvelope | cli/src/websocket/mod.rs:148-149 | a reply body that is not an envelope is a `SerializingError` |
| SocketClient.ReplyOutcome | cli/src/websocket/mod.rs:131-154 | a missing, failed, non-text or unsplittable reply is a `ConnectionError`; a code other than 42 is `InvalidResponse` whatever follows; a code-42 reply is read as an envelope |
| SocketClient.CreateRoomOutcome | cli/src/websocket/mod.rs:182-198 | `room_created` with success gives the room id and without it `InvalidResponse`; `create_error` gives `CreateRoomError`; any other name gives `InvalidResponse` |
| SocketClient.JoinRoomOutcome | cli/src/websocket/mod.rs:209-216 | `joined_room` gives Ok, `join_error` gives `JoinRoomError`, and anything else gives `InvalidResponse`; the payload is not looked at |
| SocketClient.ClassifyText | cli/src/websocket/mod.rs:266-301 | an unsplittable text is `InvalidResponse`; otherwise only the JSON after the code decides the event |
| SocketClient.WaitOutcome | cli/src/websocket/mod.rs:248-308 | the text "2" gives Ping exactly when the pong can be written, and it is the only item that gives Ping; a non-text frame is `InvalidResponse`; a missing or failed item is `ConnectionError` |
| SocketClient.SocketIoClient.EngineIOHandshake | cli/src/websocket/mod.rs:61-76 | reads one item and succeeds exactly when it is a code-0 text whose JSON is an open packet |
| SocketClient.SocketIoClient.SocketIOHandshake | cli/src/websocket/mod.rs:78-105 | writes exactly the frame "40" + `{"token":…}`, then reads one item, with the outcome of `SocketIOOutcome` |
| SocketClient.SocketIoClient.New | cli/src/websocket/mod.rs:33-59 | a client exists only when `ConnectOutcome` succeeds; it then wrote only the CONNECT frame and read exactly two items; otherwise it returns the error of `ConnectOutcome` |
| SocketClient.SocketIoClient.SendEvent | cli/src/websocket/mod.rs:120-155 | writes "42" + `[name, payload]` and reads exactly one reply, with the outcome of `ReplyOutcome`; a failed write is a `ConnectionError` and reads nothing |
| SocketClient.SocketIoClient.SendEventNoResponse | cli/src/websocket/mod.rs:157-169 | writes one frame and reads nothing |
| SocketClient.SocketIoClient.CreateRoom | cli/src/websocket/mod.rs:171-199 | sends `create_room` with the room request and maps the one reply by `CreateRoomOutcome`; the script advances by that one reply only when the send succeeded and a reply was there, and the closed flag is unchanged |
| SocketClient.SocketIoClient.JoinRoom | cli/src/websocket/mod.rs:201-217 | sends `join_room` with `{roomId}` and maps the one reply by `JoinRoomOutcome`; the script advances by that one reply only when the send succeeded and a reply was there, and the closed flag is unchanged |
| SocketClient.SocketIoClient.PaddleMove | cli/src/websocket/mod.rs:219-231 | sends `paddle_move` with both directions and reads nothing: the script position and the closed flag are unchanged |
| SocketClient.SocketIoClient.PauseGame | cli/src/websocket/mod.rs:233-239 | sends `game_pause` with the flag and reads nothing: the script position and the closed flag are unchanged |
| SocketClient.SocketIoClient.Close | cli/src/websocket/mod.rs:241-246 | closes the stream; a refused close is a `ConnectionError` |
| SocketClient.SocketIoClient.WaitForEvents | cli/src/websocket/mod.rs:248-308 | reads one item with the outcome of `WaitOutcome`; on "2" it writes exactly "3" and nothing else |
| SocketClient.OpcodeIgnored | cli/src/websocket/mod.rs:266-267 | apart from the keep-alive, two frames with the same JSON and different codes lead to the same event |
| SocketClient.ReplyCodeChecked | cli/src/websocket/mod.rs:143-146 | a reply under any code other than 42 is `InvalidResponse`, whatever its JSON |
| SocketClient.CredentialsRejected | cli/src/websocket/mod.rs:50-94 | once the Engine.IO handshake has passed, a code-44 reply to CONNECT is reported as `InvalidCredentials`, whatever its body |
| PaddleMovement.InvariantKept | cli/src/game/movement.rs:13-42 | `update` and `movement_stopped` keep the time stamp present exactly while there is a direction, so the `unwrap` cannot fail |
| PaddleMovement.CheckOutcome | cli/src/game/movement.rs:40-49 | a reported stop resets to no direction, no first keystroke and no time stamp; no stop changes nothing; with no direction no stop is reported |
| PaddleMovement.PressStops | cli/src/game/movement.rs:28-46 | after a press at time t, the movement stops exactly when 500 ms have passed, or 30 ms have passed and the press repeated the direction already held |
| PaddleMovement.NoEarlyStop | cli/src/game/movement.rs:43 | a movement never stops within 30 ms of the last press |
| PaddleMovement.StopReportedOnce | cli/src/game/movement.rs:41-45 | right after a check that reported a stop, the next check reports none, whenever it runs |
| PaddleMovement.RepeatClearsFirstKeystroke | cli/src/game/movement.rs:29 | a press is a first keystroke exactly when it changes the direction, so pressing the same direction twice clears the flag |
| PaddleMovement.Movement.constructor | cli/src/game/movement.rs:13-19 | starts with no direction, no first keystroke and no time stamp |
| PaddleMovement.Movement.Update | cli/src/game/movement.rs:21-34 | the new fields are `Updated(old, d, now)`: no direction resets all three; a direction sets the flag to "changed", the stamp to now and the direction to d |
| PaddleMovement.Movement.MovementStopped | cli/src/game/movement.rs:40-49 | returns `StopDue(old, now)` and leaves the fields as `AfterCheck` says, keeping the invariant |
| CliApp.EndpointInjective | cli/src/app.rs:470-482 | the endpoint text `wss://<host>:<port>/socket.io/?token=<token>&EIO=4&transport=websocket` (port 3000 in a debug build, 8443 otherwise) gives back the host (which holds no ':'), the token and the build |
| CliApp.Lookup | cli/src/app.rs:104-110 | a parameter is missing iff no query pair has its name; otherwise it is the value of the last pair with that name, as a map collected from the query keeps |
| CliApp.CallbackAccepted | cli/src/app.rs:112-155 | the callback is accepted iff both `token` and `nickname_required` are present and the flag is exactly "true" or "false"; it then sends `RemoteRedirectCallback(token, flag)` with status 200, and every other query gets 400 with `RemoteRedirectError(InvalidResponse)` |
| CliApp.WebserverWaitClearsSlot | cli/src/app.rs:92-168 | every request on the accepted keep-alive connection gets the callback check's event and status, in order; the wait always ends in `ConnectionError`, and that error empties the socket slot without changing the page |
| CliApp.InitialInv | cli/src/app.rs:171-179 | the start state is the host selector with no socket, host or token, and it satisfies the invariant |
| CliApp.StepsKeepInv | cli/src/app.rs:199-442 | every arm (socket, channel, key, tick) keeps the invariant that the login page has a host, the 2FA page a host and a token, and the nickname page a token |
| CliApp.SocketKeepsInv | cli/src/app.rs:199-220 | the socket arm keeps the invariant |
| CliApp.ChannelKeepsInv | cli/src/app.rs:377-432 | the channel arm keeps the invariant |
| CliApp.PageResultKeepsInv | cli/src/app.rs:224-369 | the key arm keeps the invariant |
| CliApp.PageResultsDoNotCrash | cli/src/app.rs:258-305 | a result produced by the page that is shown never reaches an `unwrap` of a missing host or token; the nickname page is a bare tag producing nothing, so its request is not covered |
| CliApp.AbortPaths | cli/src/app.rs:461-467 | `GameAborted`, `BackToMenu` and `GameOver` all abort: the slot is emptied and the menu is shown, host and token kept (also lines 211, 336-338) |
| CliApp.SocketArm | cli/src/app.rs:199-220 | an error empties the slot and keeps the page; `GameStart` shows the game from any page; `GameOver` leaves only a game page; other events change nothing |
| CliApp.CallbackRouting | cli/src/app.rs:408-431 | on the host selector the callback stores the token, empties the slot and goes to the nickname page iff a nickname is required, else to the menu; on any other page it is dropped |
| CliApp.RoomMessages | cli/src/app.rs:421-431 | `RoomCreated` takes the websocket and shows the lobby only from the menu; `RoomJoined` takes the websocket on any page and keeps the page |
| CliApp.GameModeRequirements | cli/src/app.rs:307-334 | `JoinRoom` shows the join page even without a login; single player or a new room without both host and token does nothing; with both, the spawned `Task` gets the endpoint built from them |
| CliApp.HostSelectedRouting | cli/src/app.rs:226-256 | a local login stores the host and shows the login page; a browser login stores the host, keeps the page and occupies the slot with the web server, or reports the bind or port error |
| CliApp.TickArm | cli/src/app.rs:435-442 | a tick changes the state only without the kitty keyboard protocol, on a game page with a websocket, when the flush fails, and then it aborts |
| CliApp.App.constructor | cli/src/app.rs:171-179 | the host selector with the build's default host and no socket, host or token |
| CliApp.App.AbortGame | cli/src/app.rs:461-467 | closes the websocket if the slot holds one, empties the slot and shows a fresh menu with SinglePlayer selected |
| CliApp.App.Render | cli/src/app.rs:447-459 | draws iff forced or the page needs an update; a draw the terminal refuses is the fatal rendering error, and otherwise the page no longer needs an update |
| CliApp.App.OnSocketEvent | cli/src/app.rs:199-220 | the new state is the socket step of the old one; a game start builds the game from the event, a game state updates only a game page, a game over shows the result page |
| CliApp.App.OnTerminalEvent | cli/src/app.rs:222-374 | a key goes to the page, whose result is one the page can produce, and the new state and task are the key step; `Exit` quits before drawing; a refused draw is fatal; otherwise a key or resize leaves the page drawn |
| CliApp.App.OnResult | cli/src/app.rs:225-369 | the new state and task are the key step of the old state on that result |
| CliApp.App.SelectHost | cli/src/app.rs:226-256 | as the key step for `HostSelected` |
| CliApp.App.Request | cli/src/app.rs:258-305 | the nickname, login, 2FA and join results only start a request, and which one (or a crash on a missing host or token) is the key step's task (also lines 339-352) |
| CliApp.App.ChooseMode | cli/src/app.rs:307-334 | as the key step for `GameModeChosen` |
| CliApp.App.Send | cli/src/app.rs:353-366 | the paddle and pause results are written to a websocket, and a failed write aborts the game |
| CliApp.App.OnChannelEvent | cli/src/app.rs:377-432 | the new state is the channel step of the old one; each error reaches only its own page, and a created room opens the lobby with that room id |
| CliApp.App.OnChannelError | cli/src/app.rs:393-430 | the error messages: each is shown on its own page only, and a failed browser open or redirect error also empties the slot |
| CliApp.App.OnChannelSuccess | cli/src/app.rs:379-427 | the login, 2FA, callback and room messages, as the channel step |
| CliApp.App.OnTimerTick | cli/src/app.rs:435-442 | the new state is the tick step; a refused draw is fatal, and otherwise the page is drawn afterwards |
| Pages.KeyEvent | cli/src/ui/pages.rs:35-67 | the key goes to the active page only, its answer is returned unchanged, and it is always one of the results that page can produce |
| Pages.Render | cli/src/ui/pages.rs:24-55 | only the active page is drawn, which clears its redraw flag and nothing else |
| Keys.ToAsciiUppercase | cli/src/ui/join_room.rs:78 | lower-case ASCII letters become capitals and stay alphanumeric; every other character is kept |
| Keys.Backspaced | cli/src/ui/login.rs:132-135 | a backspace removes the last character, and an empty input stays empty |
| GameModes.Index | cli/src/ui/gamemode.rs:11-16 | the three modes in menu order occupy positions 0 to 2 |
| GameModes.ToggleCycles | cli/src/ui/gamemode.rs:19-25 | Tab moves one place down the menu and wraps at the bottom, so three Tabs are the identity |
| GameModes.PrevNextSaturate | cli/src/ui/gamemode.rs:27-39 | Up and Down move one place and stop at the ends of the menu |
| Login.KeyKeepsFieldsBounded | cli/src/ui/login.rs:126-131 | a key keeps both fields at most 32 ASCII graphic characters |
| Login.OtherFieldKept | cli/src/ui/login.rs:117-123 | a key edits only the focused field |
| Login.KeyResults | cli/src/ui/login.rs:125-146 | Esc gives Exit; a result other than Exit comes exactly from Enter on the password field, and it is `Login((email, password))` |
| Login.TabTwice | cli/src/ui/login.rs:136-166 | Tab toggles the focus, so two Tabs restore it |
| Login.ErrorThenType | cli/src/ui/login.rs:153-158 | after a login error the password is empty and focused, so the next character starts a new password |
| Login.LoginPage.constructor | cli/src/ui/login.rs:36-44 | empty email and password, email focused, a redraw pending, no error |
| Login.LoginPage.FocusOtherWidget | cli/src/ui/login.rs:160-166 | toggles the focus and asks for a redraw |
| Login.LoginPage.KeyEvent | cli/src/ui/login.rs:117-151 | the new state and the result are the login page's key step |
| Login.LoginPage.LoginError | cli/src/ui/login.rs:153-158 | clears the password, focuses it, stores the message and asks for a redraw |
| Login.LoginPage.Render | cli/src/ui/login.rs:74-115 | clears the redraw flag only |
| Totp.KeyKeepsCodeBounded | cli/src/ui/totp.rs:88-93 | a key keeps the code at most 6 ASCII digits |
| Totp.EnterOutcome | cli/src/ui/totp.rs:98-106 | Enter submits iff the code has exactly 6 characters, and then submits that code; otherwise it shows "2FA code too short" |
| Totp.SubmittedCodeIsSixDigits | cli/src/ui/totp.rs:84-110 | a submitted code is exactly 6 ASCII digits |
| Totp.TotpPage.constructor | cli/src/ui/totp.rs:22-28 | empty code, a redraw pending, no error |
| Totp.TotpPage.KeyEvent | cli/src/ui/totp.rs:84-112 | the new state and the result are the 2FA page's key step |
| Totp.TotpPage.TotpError | cli/src/ui/totp.rs:114-118 | clears the code, stores the message and asks for a redraw |
| Totp.TotpPage.Render | cli/src/ui/totp.rs:52-82 | clears the redraw flag only |
| JoinRoomInput.KeyKeepsInputWellFormed | cli/src/ui/join_room.rs:76-82 | a key keeps the input at most 6 upper-case ASCII letters or digits |
| JoinRoomInput.SubmittedRoomId | cli/src/ui/join_room.rs:87-91 | a room id is submitted iff Enter is pressed on exactly 6 characters, and it is the input, 6 upper-case alphanumerics |
| JoinRoomInput.LowerCaseStoredUpper | cli/src/ui/join_room.rs:76-82 | a lower-case letter is stored as its capital |
| JoinRoomInput.JoinRoomPage.constructor | cli/src/ui/join_room.rs:22-28 | empty input, a redraw pending, no error |
| JoinRoomInput.JoinRoomPage.KeyEvent | cli/src/ui/join_room.rs:70-96 | the new state and the result are the join page's key step |
| JoinRoomInput.JoinRoomPage.JoinError | cli/src/ui/join_room.rs:98-102 | clears the input, stores the message and asks for a redraw |
| JoinRoomInput.JoinRoomPage.Render | cli/src/ui/join_room.rs:30-68 | clears the redraw flag only |
| HostSelector.DefaultHostsValid | cli/src/ui/host_selector.rs:35-47 | both default hosts, "localhost" for a debug build and "ft-transcendence.at" otherwise, satisfy the page's invariant |
| HostSelector.KeyKeepsHostBounded | cli/src/ui/host_selector.rs:138-143 | a key keeps the host at most 32 ASCII graphic characters |
| HostSelector.EnterOutcome | cli/src/ui/host_selector.rs:157-168 | Enter on a non-empty host returns `HostSelected((host, selected login))` and changes nothing; on an empty host it returns nothing and shows "Host can't be empty" |
| HostSelector.SelectionKeys | cli/src/ui/host_selector.rs:148-186 | Up selects the local login and Down the browser login, and two Tabs restore the selection |
| HostSelector.HostSelectorPage.constructor | cli/src/ui/host_selector.rs:35-47 | the build's default host with the local login selected and a redraw pending |
| HostSelector.HostSelectorPage.FocusOtherWidget | cli/src/ui/host_selector.rs:180-186 | toggles the login selection and asks for a redraw |
| HostSelector.HostSelectorPage.KeyEvent | cli/src/ui/host_selector.rs:134-173 | the new state and the result are the host page's key step |
| HostSelector.HostSelectorPage.HostError | cli/src/ui/host_selector.rs:175-178 | stores the message and asks for a redraw |
| HostSelector.HostSelectorPage.Render | cli/src/ui/host_selector.rs:74-132 | clears the redraw flag only |
| GameModeMenu.FocusKeysRedraw | cli/src/ui/gamemode.rs:119-150 | Tab, Up and Down change the selection, ask for a redraw and return nothing; other keys except Esc and Enter change nothing |
| GameModeMenu.EnterChoosesSelection | cli/src/ui/gamemode.rs:126-136 | Enter returns `GameModeChosen` of the current selection |
| GameModeMenu.DownReachesJoinRoom | cli/src/ui/gamemode.rs:34-39 | from the start, two Downs reach JoinRoom and a third stays there (also lines 125) |
| GameModeMenu.GameModePage.constructor | cli/src/ui/gamemode.rs:50-56 | SinglePlayer selected, a redraw pending |
| GameModeMenu.GameModePage.FocusWidget | cli/src/ui/gamemode.rs:147-150 | selects the mode and asks for a redraw |
| GameModeMenu.GameModePage.KeyEvent | cli/src/ui/gamemode.rs:119-141 | the new state and the result are the menu's key step |
| GameModeMenu.GameModePage.Render | cli/src/ui/gamemode.rs:58-117 | clears the redraw flag only |
| GameLobby.GameLobbyPage.constructor | cli/src/ui/game_lobby.rs:18-23 | stores the room id and asks for a redraw |
| GameLobby.GameLobbyPage.KeyEvent | cli/src/ui/game_lobby.rs:45-52 | Esc returns BackToMenu and every other key nothing; the room id is unchanged |
| GameLobby.GameLobbyPage.Render | cli/src/ui/game_lobby.rs:24-43 | clears the redraw flag and keeps the room id |
| GameOverScreen.Title | cli/src/ui/game_over.rs:35 | the title is "You won" iff the game was won, "You lost" otherwise |
| GameOverScreen.GameOverPage.constructor | cli/src/ui/game_over.rs:17-22 | stores the result and asks for a redraw |
| GameOverScreen.GameOverPage.KeyEvent | cli/src/ui/game_over.rs:50-58 | Esc or Enter returns GameOver, every other key nothing |
| GameOverScreen.GameOverPage.Render | cli/src/ui/game_over.rs:24-48 | clears the redraw flag only |
| GamePage.CurrentPlayerOf | cli/src/ui/game.rs:24-31 | the own side is player A iff the client is player 1 |
| GamePage.StartedFromEvent | cli/src/ui/game.rs:60-75 | player A is the owner and player B the guest, both scores are 0, and the own side is A iff the client owns the room |
| GamePage.StateKeepsOwnPaddle | cli/src/ui/game.rs:78-89 | a state update sets the opponent's paddle, both scores and the ball, and never the own paddle or the players |
| GamePage.PaddleUpdateMovesOpponent | cli/src/ui/game.rs:91-103 | an update carrying the own id is ignored; any other sets the opponent's paddle only |
| GamePage.MoveStaysInField | cli/src/ui/game.rs:179-199 | Up moves at most 20 towards 0 and Down at most 20 towards 500, so the paddle stays in [0, 500]; a position is reported iff it changed |
| GamePage.MoveAtEdge | cli/src/ui/game.rs:186-197 | Up at 0 and Down at 500 report nothing |
| GamePage.OneWinner | cli/src/ui/game.rs:216-221 | with unequal final scores exactly one side wins |
| GamePage.OutcomeScores | cli/src/ui/game.rs:216-233 | the result copies both players with their final scores, and a tie is a loss |
| GamePage.Game.constructor | cli/src/ui/game.rs:60-75 | the game built from the start event |
| GamePage.Game.Update | cli/src/ui/game.rs:78-89 | the state update step |
| GamePage.Game.PaddleUpdate | cli/src/ui/game.rs:91-103 | the paddle update step |
| GamePage.Game.Render | cli/src/ui/game.rs:148-177 | clears the redraw flag only |
| GamePage.Game.UpdatePosition | cli/src/ui/game.rs:179-199 | the own paddle's move and its report |
| GamePage.Game.KeyEvent | cli/src/ui/game.rs:201-210 | Esc returns BackToMenu, Up and Down move the own paddle, and every other key nothing |
| GamePage.Game.GameOver | cli/src/ui/game.rs:216-233 | the result of the final score for the own side |
| Duration.TrimStart | services/auth-user-service/src/parseTimeUnits.ts:11 | the front part of `trim()`: what is removed is white space and what remains does not start with it |
| Duration.TrimEnd | services/auth-user-service/src/parseTimeUnits.ts:11 | the back part of `trim()`: what is removed is white space and what remains does not end with it |
| Duration.TrimStartSuffix | services/auth-user-service/src/parseTimeUnits.ts:11 | trimming the front leaves a suffix of the text |
| Duration.TrimEndPrefix | services/auth-user-service/src/parseTimeUnits.ts:11 | trimming the back leaves a prefix of the text |
| Duration.TrimEmptyIffBlank | services/auth-user-service/src/parseTimeUnits.ts:11-12 | `trim()` leaves nothing iff the text is all white space |
| Duration.Scale | services/auth-user-service/src/parseTimeUnits.ts:28-37 | an accepted product is a safe integer |
| Duration.ParseDurationToSec | services/auth-user-service/src/parseTimeUnits.ts:9-38 | an accepted duration is a non-negative safe integer of seconds |
| Duration.ParseTrimmed | services/auth-user-service/src/parseTimeUnits.ts:12-37 | the same bound for the parse after the trim |
| Duration.EmptyIffBlank | services/auth-user-service/src/parseTimeUnits.ts:11-12 | the input is refused as empty iff it is all white space |
| Duration.UnitCaseInsensitive | services/auth-user-service/src/parseTimeUnits.ts:14-18 | an upper-case unit letter parses as its lower-case letter |
| Duration.ParseBySplit | services/auth-user-service/src/parseTimeUnits.ts:14-37 | the parse depends only on the unit and the number part |
| Duration.CanonicalDuration | services/auth-user-service/src/parseTimeUnits.ts:1-37 | a decimal count followed by s, m, h or d is that count times 1, 60, 3600 or 86400, when the product is a safe integer |
| Duration.CanonicalSeconds | services/auth-user-service/src/parseTimeUnits.ts:2-37 | a bare decimal count is that many seconds |
| Duration.UnknownUnitRefused | services/auth-user-service/src/parseTimeUnits.ts:28-31 | any other letter after the count is refused as an unknown unit |
| Duration.OverflowRefused | services/auth-user-service/src/parseTimeUnits.ts:33-36 | a product beyond the safe integers is refused as an overflow |
| Duration.NumberPartRefused | services/auth-user-service/src/parseTimeUnits.ts:11-23 | the number part is refused iff the trimmed text is neither a bare count nor a count, optional white space and a letter |
| Duration.AcceptedShape | services/auth-user-service/src/parseTimeUnits.ts:11-37 | an accepted duration is a bare count of seconds, or a count, optional white space and s, m, h or d in either case, worth the count times the unit's seconds |
| Duration.TrimInfix | services/auth-user-service/src/parseTimeUnits.ts:11 | `trim()` keeps the text between a white-space prefix and a white-space suffix |
| Duration.UnitNumberPart | services/auth-user-service/src/parseTimeUnits.ts:14-23 | before a final letter, the trimmed number part is a count iff the text is a count, optional white space and the letter, and it is then those digits |
| Duration.TrimTwice | services/auth-user-service/src/parseTimeUnits.ts:11 | trimming is idempotent |
| Rooms.Entries | services/game-service/src/room.ts:295-303 | the broadcast player list has one entry per player |
| Rooms.WithoutPlayer | services/game-service/src/room.ts:270 | `filter` keeps exactly the players with another id, in order, and never grows |
| Rooms.FirstFree | services/game-service/src/room.ts:17-23 | the id settled on is a draw that passes the chosen guard, and every earlier draw failed it |
| Rooms.FirstFreeAt | services/game-service/src/room.ts:19-21 | under either guard, a draw that passes after only failing ones is the id settled on |
| Rooms.GuardsDiffer | services/game-service/src/room.ts:17-23 | a draw whose tournament key a live lobby holds is settled on by the guard as written but passed over by the intended one |
| Rooms.CheckStartTournament | services/game-service/src/room.ts:245-259 | the tournament starts iff the lobby exists and holds at least 3 players; otherwise "Room not found" or the too-few-players message |
| Rooms.EmptyValid | services/game-service/src/room.ts:17-23 | the empty store satisfies the invariant: rooms under their own ids, lobbies of at most 5, every `roomId` naming a room that holds the player |
| Rooms.DeleteRoomSpec | services/game-service/src/room.ts:398-439 | `deleteRoom` removes the key from both dictionaries, clears the `roomId` of exactly the players the room held, and an unknown id changes nothing |
| Rooms.DeleteShrinks | services/game-service/src/room.ts:398-439 | deleting removes only that key and never sets a `roomId` |
| Rooms.DeleteKeepsValid | services/game-service/src/room.ts:398-439 | deleting keeps the invariant |
| Rooms.AddGameRoomKeepsValid | services/game-service/src/room.ts:44-78 | storing a new room under a new six-character id, with its member seated, keeps the invariant |
| Rooms.ReplaceGameRoomKeepsValid | services/game-service/src/room.ts:320-349 | updating a room so that it keeps its players and holds the seated player keeps the invariant |
| Rooms.AddTournamentKeepsValid | services/game-service/src/room.ts:153-179 | storing a new lobby of at most 5 under a new key keeps the invariant |
| Rooms.UnseatKeepsValid | services/game-service/src/room.ts:125 | clearing `roomId`s keeps the invariant (also lines 271, 366) |
| Rooms.CreateRefused | services/game-service/src/room.ts:27-42 | a player already in a room, or one with an active room, gets `create_error` and nothing changes |
| Rooms.OpenGameRoomSpec | services/game-service/src/room.ts:44-127 | the new room holds the player as owner with both movements 'none', typed single, remote or local by the request, announced by `room_created`; a local room renames the owner 'Player1', seats the stand-in 'Player2' and starts, or on failure drops the guest and the owner's `roomId`; no other room changes |
| Rooms.CreateUsesFreeId | services/game-service/src/room.ts:17-44 | a new game room gets the first draw the guard as written passes: neither the id nor its tournament form is a game room's key, and every earlier draw was one of them |
| Rooms.OpenGameRoomKeepsValid | services/game-service/src/room.ts:44-127 | opening a room under a fresh six-character id keeps the invariant |
| Rooms.CreateKeepsValid | services/game-service/src/room.ts:25-127 | `handleCreateRoom` keeps the invariant |
| Rooms.AiUnavailableKeepsValid | services/game-service/src/room.ts:92-99 | a failed AI request tells the owner, deletes the room and keeps the invariant |
| Rooms.CreateTournamentStoresRoom | services/game-service/src/room.ts:153-185 | a new lobby under a key no lobby held before holds only the creator as owner, and `tournament_room_created` lists the creator |
| Rooms.CreateTournamentKeepsValid | services/game-service/src/room.ts:132-186 | `handleCreateTournamentRoom` keeps the invariant, with the id guard that also checks `tournamentRooms` |
| Rooms.JoinTournamentOutcome | services/game-service/src/room.ts:188-241 | refusals in this order: already in a room, unknown lobby, 5 players, an active room; otherwise the player is appended, the lobby stays at most 5, and the lobby is told twice |
| Rooms.ReplaceTournamentKeepsValid | services/game-service/src/room.ts:218-225 | updating a lobby that keeps its players, stays at most 5 and holds the seated player keeps the invariant |
| Rooms.EnlistedKeepsValid | services/game-service/src/room.ts:218-225 | appending a player to a lobby with room keeps the invariant |
| Rooms.JoinTournamentKeepsValid | services/game-service/src/room.ts:188-241 | `joinTournamentRoom` keeps the invariant, so no lobby exceeds 5 players |
| Rooms.JoinTournamentStore | services/game-service/src/room.ts:188-225 | a join either appends the player or leaves the store as it was |
| Rooms.UnlistedKeepsValid | services/game-service/src/room.ts:270-271 | removing a player's entries and `roomId` keeps the invariant |
| Rooms.LeaveTournamentUnseats | services/game-service/src/room.ts:262-293 | the leaving player has no `roomId` afterwards and no other lobby changes |
| Rooms.LeaveTournamentDeletes | services/game-service/src/room.ts:262-293 | the lobby is deleted iff it became empty, or fell below 3 players while its game loop runs; a lobby that stays lost exactly the leaving player |
| Rooms.LeaveTournamentKeepsValid | services/game-service/src/room.ts:262-293 | `leaveTournamentRoom` keeps the invariant |
| Rooms.JoinRoomOutcome | services/game-service/src/room.ts:307-346 | `joinRoom` checks in this order: already in a room, unknown room, no owner (the player becomes owner), a guest present, the player's own room; otherwise the player is seated as guest |
| Rooms.SeatGuestOutcome | services/game-service/src/room.ts:348-370 | a seated guest is announced to the room; a started game keeps both players seated; a failed start deletes the room and clears both players' `roomId` |
| Rooms.JoinRoomKeepsValid | services/game-service/src/room.ts:307-370 | `joinRoom` keeps the invariant |
| Rooms.LeaveRoomOutcome | services/game-service/src/room.ts:372-385 | a socket without a room changes nothing; otherwise the room its player's `roomId` names is deleted, the player has no `roomId`, and the invariant holds |
| Rooms.DisconnectKeepsValid | services/game-service/src/room.ts:387-396 | a disconnect keeps the invariant, and a player who was in a lobby has no `roomId` afterwards |
| Rooms.AsWrittenGuardReplacesTournament | services/game-service/src/room.ts:153-169 | with the guard as written, an id whose tournament key a live lobby holds is accepted, and opening the lobby under that key breaks the invariant (also lines 17-23) |
| Rooms.RoomStore.constructor | services/game-service/src/room.ts:17-23 | both dictionaries and all `roomId`s empty |
| Rooms.RoomStore.GenerateUniqueRoomId | services/game-service/src/room.ts:17-23 | the draw loop returns the first draw the chosen guard passes, without changing the store |
| Rooms.RoomStore.ClearRoomIds | services/game-service/src/room.ts:421-428 | the `forEach` clears exactly the listed players' `roomId` and nothing else |
| Rooms.RoomStore.DeleteTournamentRoom | services/game-service/src/room.ts:416-439 | the new state is the tournament deletion of the old one |
| Rooms.RoomStore.DeleteRoom | services/game-service/src/room.ts:398-414 | the new state is the room deletion of the old one |
| Rooms.RoomStore.HandleCreateRoom | services/game-service/src/room.ts:25-127 | the new state and messages are `handleCreateRoom`'s step, drawing the id under the guard as written |
| Rooms.RoomStore.OpenRoom | services/game-service/src/room.ts:44-127 | the new state and messages once the id is drawn |
| Rooms.RoomStore.AiRequestFailed | services/game-service/src/room.ts:92-99 | the new state and messages of a failed AI request |
| Rooms.RoomStore.HandleCreateTournamentRoom | services/game-service/src/room.ts:132-186 | the new state and messages are the lobby creation step, drawing the id under the intended guard |
| Rooms.RoomStore.JoinTournament | services/game-service/src/room.ts:188-241 | the new state and messages are the tournament join step |
| Rooms.RoomStore.CheckStart | services/game-service/src/room.ts:245-259 | the answer of the start check, without changing the store |
| Rooms.RoomStore.LeaveTournament | services/game-service/src/room.ts:262-293 | the new state and messages are the tournament leave step |
| Rooms.RoomStore.Join | services/game-service/src/room.ts:307-370 | the new state and messages are the room join step |
| Rooms.RoomStore.SeatAsGuest | services/game-service/src/room.ts:348-370 | the new state and messages of seating the guest |
| Rooms.RoomStore.HandleLeaveRoom | services/game-service/src/room.ts:372-385 | the new state and messages are the leave step |
| Rooms.RoomStore.HandleDisconnect | services/game-service/src/room.ts:387-396 | the new state and messages are the disconnect step |
| LiveChat.Notices | services/live-chat/src/io.handler.ts:108-120 | exactly the connected users whose open chat or current target is the user receive the notice |
| LiveChat.Without | services/live-chat/src/io.handler.ts:123-126 | `filter(id => id !== x)` keeps exactly the other ids and never grows |
| LiveChat.Forgotten | services/live-chat/src/io.handler.ts:116-129 | forgetting a user keeps every connected user's entry |
| LiveChat.OnlineStatus | services/live-chat/src/io.handler.ts:131-140 | "Online" iff the target has an `activeUsers` entry, else "Offline" |
| LiveChat.CheckBlocks | services/live-chat/src/io.handler.ts:462-490 | "not friends" iff there is no row under `(min, max)` |
| LiveChat.Conversation | services/live-chat/src/io.handler.ts:504-515 | exactly the messages of the pair's conversation, none without a friendship row |
| LiveChat.Of | services/live-chat/src/io.handler.ts:504-515 | exactly the messages of one conversation |
| LiveChat.Invited | services/live-chat/src/io.handler.ts:864-866 | pushing an invitation keeps the set of connected users |
| LiveChat.Dropped | services/live-chat/src/io.handler.ts:892-909 | removing half an invitation keeps the set of connected users |
| LiveChat.WithoutAbsent | services/live-chat/src/io.handler.ts:123-126 | filtering out an absent id changes nothing |
| LiveChat.WithoutSnoc | services/live-chat/src/io.handler.ts:123-126 | filtering distributes over appending one id |
| LiveChat.ConnectEntry | services/live-chat/src/io.handler.ts:12-48 | a connection gives the user a fresh entry (no open chat, target −1, no invitations), keeps every other entry, and notifies exactly the users watching it |
| LiveChat.RegisteredRows | services/live-chat/src/io.handler.ts:90-106 | `INSERT OR IGNORE` keeps every row and adds the user with the default avatar unless its id or nickname is taken |
| LiveChat.ConnectKeepsValid | services/live-chat/src/io.handler.ts:12-48 | a first connection keeps the invitation invariant: lists name only connected users and every invitation is in both halves |
| LiveChat.DisconnectForgets | services/live-chat/src/io.handler.ts:80-129 | after a disconnect the user has no entry, every other entry stays, and no sent or received list names the user while all other ids are kept |
| LiveChat.DisconnectKeepsValid | services/live-chat/src/io.handler.ts:80-129 | a disconnect keeps the invitation invariant |
| LiveChat.UpdateChatInfoKeepsValid | services/live-chat/src/io.handler.ts:71-74 | changing the open chat and target keeps the invitation invariant |
| LiveChat.KeySymmetric | services/live-chat/src/io.handler.ts:405-462 | both users of a pair find the same friendship row |
| LiveChat.CheckBlocksMeaning | services/live-chat/src/io.handler.ts:462-490 | with a row: "no blocks" iff neither is blocked, "mutual block" iff both are, "blocked by target" iff only the caller is, "target blocked" iff only the target is |
| LiveChat.BlockSetsTargetFlag | services/live-chat/src/io.handler.ts:402-443 | blocking sets and unblocking clears only the target's flag on an existing row; the caller's flag and every other row are kept |
| LiveChat.BlockThenCheck | services/live-chat/src/io.handler.ts:402-490 | from "no blocks", after the caller blocks the target the caller sees "target blocked" and the target sees "blocked by target" |
| LiveChat.UnblockUndoesBlock | services/live-chat/src/io.handler.ts:402-443 | unblocking undoes a block of a target that was not blocked before |
| LiveChat.RecordMessageOutcome | services/live-chat/src/io.handler.ts:564-625 | a message is stored iff the pair has a row, the sender a `users` row and neither flag is set; it is appended to the messages, and a refusal changes nothing |
| LiveChat.RecordMessageUnread | services/live-chat/src/io.handler.ts:592-625 | the receiver's unread counter goes up by one unless the receiver has the sender's chat open; no other counter changes |
| LiveChat.LoadMessagesResets | services/live-chat/src/io.handler.ts:519-528 | loading a conversation that holds messages sets the caller's unread counter to 0 and changes nothing else; an empty one changes nothing |
| LiveChat.LoadAfterRecord | services/live-chat/src/io.handler.ts:592-625 | after a recorded message, the receiver loading that chat has 0 unread (also lines 519-528) |
| LiveChat.RecordInvitationOutcome | services/live-chat/src/io.handler.ts:821-883 | answers in order "error" (no sender entry), "sent", "received", "offline", "can send" for the check option, then "error" unless friends without flags; only "success" changes anything |
| LiveChat.RecordInvitationStores | services/live-chat/src/io.handler.ts:864-866 | a recorded invitation appends the target to the sender's sent list and the sender to the target's received list, and no other entry changes |
| LiveChat.RecordInvitationKeepsValid | services/live-chat/src/io.handler.ts:821-883 | recording an invitation keeps the invitation invariant |
| LiveChat.InvitedKeepsValid | services/live-chat/src/io.handler.ts:864-866 | pushing both halves between connected users keeps the lists closed and paired |
| LiveChat.DroppedLists | services/live-chat/src/io.handler.ts:892-909 | one removal takes exactly that id out of exactly that list |
| LiveChat.DeleteInvitationUninvites | services/live-chat/src/io.handler.ts:887-911 | "received" removes the target's invitation to the caller, any other option the caller's invitation to the target, in both halves and nothing else |
| LiveChat.UninvitedKeepsValid | services/live-chat/src/io.handler.ts:887-911 | removing one invitation in both halves keeps the invariant |
| LiveChat.DeleteInvitationKeepsValid | services/live-chat/src/io.handler.ts:887-911 | deleting an invitation keeps the invitation invariant |
| LiveChat.InvitationWasNew | services/live-chat/src/io.handler.ts:821-866 | a recorded invitation was not in either list before |
| LiveChat.InviteThenCancel | services/live-chat/src/io.handler.ts:821-911 | cancelling an invitation just recorded restores every entry |
| LiveChat.InviteThenDecline | services/live-chat/src/io.handler.ts:821-911 | the target declining an invitation just recorded restores every entry |
| LiveChat.ChatServer.constructor | services/live-chat/src/io.handler.ts:12-48 | nobody connected and empty tables, which satisfy the invariant |
| LiveChat.ChatServer.GoOnline | services/live-chat/src/io.handler.ts:108-114 | the loop notifies exactly the watching users |
| LiveChat.ChatServer.GoOffline | services/live-chat/src/io.handler.ts:116-129 | the loop says goodbye to exactly the watching users and filters the user out of every list, changing nothing else |
| LiveChat.ChatServer.OnConnection | services/live-chat/src/io.handler.ts:12-48 | the connection step |
| LiveChat.ChatServer.OnUpdateChatInfo | services/live-chat/src/io.handler.ts:71-74 | the open chat is the id only for the "chatID" kind; the target is always the id |
| LiveChat.ChatServer.OnDisconnect | services/live-chat/src/io.handler.ts:80-84 | the entry is deleted, then `goOffline` runs |
| LiveChat.ChatServer.UpdateBlock | services/live-chat/src/io.handler.ts:397-455 | the block or unblock step |
| LiveChat.ChatServer.OnRecordMessage | services/live-chat/src/io.handler.ts:562-632 | the record-message step |
| LiveChat.ChatServer.OnLoadMessages | services/live-chat/src/io.handler.ts:502-536 | reports whether the conversation holds messages, and the new state is the load step |
| LiveChat.ChatServer.OnRecordOrCheckGameInvitation | services/live-chat/src/io.handler.ts:819-883 | the invitation step |
| LiveChat.ChatServer.OnDeleteInvitation | services/live-chat/src/io.handler.ts:885-913 | the invitation deletion step |
| AiRegistry.Erase | services/ai-opponent/src/server.ts:72 | deleting a key takes exactly that room out of the insertion order |
| AiRegistry.WasRemoved | services/ai-opponent/src/server.ts:53-74 | `removeAIInstance` answers true iff the room has an instance |
| AiRegistry.ActiveInstances | services/ai-opponent/src/server.ts:76-78 | the ids returned are exactly the rooms with an instance, each once |
| AiRegistry.Expired | services/ai-opponent/src/server.ts:98-102 | the first `forEach` collects exactly the rooms older than the limit |
| AiRegistry.HeaderRoomId | services/ai-opponent/src/server.ts:162-202 | a room id is taken from the header iff there are two or more header lines or one non-empty one; one line gives its value, and the id is the header's joined value |
| AiRegistry.CreatedSpec | services/ai-opponent/src/server.ts:20-50 | a known room keeps its instance and nothing changes; a new room is added with `createdAt = now` at the end of the order; the registry stays well formed |
| AiRegistry.RemovedSpec | services/ai-opponent/src/server.ts:53-74 | a known room's key alone is deleted; an unknown room changes nothing; the registry stays well formed |
| AiRegistry.CreateThenRemove | services/ai-opponent/src/server.ts:20-74 | removing an instance just created restores the registry |
| AiRegistry.RemovedAllSpec | services/ai-opponent/src/server.ts:104-107 | removing rooms one after the other deletes exactly their keys |
| AiRegistry.ExpiredDistinct | services/ai-opponent/src/server.ts:98-102 | the collected rooms are listed once each |
| AiRegistry.CleanupSpec | services/ai-opponent/src/server.ts:94-110 | cleanup keeps exactly the instances not older than the limit, and its count is the number of instances removed |
| AiRegistry.RoutesSpec | services/ai-opponent/src/server.ts:160-209 | a missing or empty header gets 400 from both routes and changes nothing; otherwise GET answers 200 and records the joined header value, and DELETE answers 404 iff that room has no instance |
| AiRegistry.RepeatedHeaderJoined | services/ai-opponent/src/server.ts:162-163 | two `roomid` lines "A" and "B" are accepted as the room "A, B" |
| AiRegistry.AIServer.constructor | services/ai-opponent/src/server.ts:9-13 | the registry starts empty |
| AiRegistry.AIServer.CreateAIInstance | services/ai-opponent/src/server.ts:20-50 | the new state is the creation step, and the time returned is the room's `createdAt` |
| AiRegistry.AIServer.RemoveAIInstance | services/ai-opponent/src/server.ts:53-74 | the removal step and its answer |
| AiRegistry.AIServer.CleanupOldInstances | services/ai-opponent/src/server.ts:94-110 | the two loops collect the expired rooms and remove them; the count is their number |
| AiRegistry.AIServer.HandleGetAi | services/ai-opponent/src/server.ts:160-176 | the GET route's status and new state |
| AiRegistry.AIServer.HandleDeleteAi | services/ai-opponent/src/server.ts:197-209 | the DELETE route's status and new state |
| Accounts.UserByEmail | services/auth-user-service/src/auth.service.ts:102-105 | none iff no user has that e-mail; otherwise a user with it |
| Accounts.EmptyValid | services/auth-user-service/src/auth.service.ts:20-62 | empty tables satisfy the table invariant: ids below the counters, unique nicknames and e-mails, one friendship row per pair |
| Accounts.CreateUserOutcome | services/auth-user-service/src/auth.service.ts:84-100 | `createUser` fails iff the nickname or e-mail is taken; otherwise the new id was free and every other user is untouched |
| Accounts.CreateUserProfile | services/auth-user-service/src/auth.service.ts:84-145 | a created user is found by e-mail, and its profile shows the given values, `default`/`online` for missing ones, and zeroed statistics |
| Accounts.CreateUserKeepsValid | services/auth-user-service/src/auth.service.ts:84-100 | a successful insert keeps the table invariant |
| Accounts.UpdateUserNicknameSpec | services/auth-user-service/src/auth.service.ts:178-190 | fails with "Nickname already exists" iff another user holds the nickname; otherwise answers whether the user exists, sets the nickname and keeps the invariant |
| Accounts.UpdateUserRowKeepsValid | services/auth-user-service/src/auth.service.ts:172-196 | the avatar and status updates answer whether the user exists, set that column and keep the invariant |
| Accounts.FriendsIff | services/auth-user-service/src/auth.service.ts:248-265 | `f` is a friend of `u` iff `f` is a user and an accepted row links the two in either direction |
| Accounts.FriendsSymmetric | services/auth-user-service/src/auth.service.ts:248-265 | friendship is mutual |
| Accounts.FriendRequestsIff | services/auth-user-service/src/auth.service.ts:267-280 | the requests are exactly the pending rows addressed to `u` whose requester is a user |
| Accounts.SendFriendRequestOutcome | services/auth-user-service/src/auth.service.ts:199-222 | refused iff a row already links the two either way; otherwise a pending row appears in the addressee's requests |
| Accounts.SendFriendRequestKeepsValid | services/auth-user-service/src/auth.service.ts:199-222 | a sent request keeps the invariant |
| Accounts.RespondOutcome | services/auth-user-service/src/auth.service.ts:224-246 | fails iff the id is unknown; otherwise only that row's status changes, to the response |
| Accounts.RespondKeepsValid | services/auth-user-service/src/auth.service.ts:224-246 | an answer keeps the invariant |
| Accounts.RespondClearsRequest | services/auth-user-service/src/auth.service.ts:224-280 | an answered request is no longer pending for anyone |
| Accounts.AcceptMakesFriends | services/auth-user-service/src/auth.service.ts:199-265 | sending a request and accepting it makes the two mutual friends |
| Accounts.DeclineKeepsApart | services/auth-user-service/src/auth.service.ts:199-265 | declining a request leaves the two not friends |
| Accounts.RemoveFriendSpec | services/auth-user-service/src/auth.service.ts:302-311 | drops exactly `f` from `u`'s friends, answers whether an accepted row was deleted, and leaves pending requests alone |
| Accounts.RemoveFriendKeepsValid | services/auth-user-service/src/auth.service.ts:302-311 | a removal keeps the invariant |
| Accounts.FriendshipRoundTrip | services/auth-user-service/src/auth.service.ts:199-311 | sending, accepting and removing a friendship between unlinked users restores the friendships table and reports the removal |
| Accounts.UpdateGameStatsSpec | services/auth-user-service/src/auth.service.ts:318-331 | one more game, counted as a win or a loss, with the score added; every game stays counted as exactly one of the two |
| Accounts.UserProfileSpec | services/auth-user-service/src/auth.service.ts:107-145 | none for an unknown user; otherwise its row, the status of a row linking it to the viewer or "none", and zeroed statistics when it has none |
| Accounts.AuthService.constructor | services/auth-user-service/src/auth.service.ts:11-82 | the tables start empty and valid |
| Accounts.AuthService.CreateUser | services/auth-user-service/src/auth.service.ts:84-100 | the insert step, its answer, and the invariant kept |
| Accounts.AuthService.UpdateUserAvatar | services/auth-user-service/src/auth.service.ts:172-176 | the avatar update |
| Accounts.AuthService.UpdateUserStatus | services/auth-user-service/src/auth.service.ts:192-196 | the status update |
| Accounts.AuthService.UpdateUserNickname | services/auth-user-service/src/auth.service.ts:178-190 | the nickname update and its error |
| Accounts.AuthService.SendFriendRequest | services/auth-user-service/src/auth.service.ts:199-222 | the request step, its answer, and the invariant kept |
| Accounts.AuthService.RespondToFriendRequest | services/auth-user-service/src/auth.service.ts:224-246 | the answer step and the invariant kept |
| Accounts.AuthService.RemoveFriend | services/auth-user-service/src/auth.service.ts:302-311 | the removal step and the invariant kept |
| Accounts.AuthService.UpdateGameStats | services/auth-user-service/src/auth.service.ts:318-331 | the statistics update and the invariant kept |
| AuthRoutes.UpdateProfile | services/auth-user-service/src/auth.controller.ts:347-405 | the handler's writes through the service, one step after another, give the new tables and reply of the profile-update function |
| AuthRoutes.SignupSpec | services/auth-user-service/src/auth.controller.ts:42-98 | 400 iff a field is missing, 409 iff the e-mail is registered, 500 iff the nickname is taken; only a 201 writes, and then the new user is found by e-mail with the given hash |
| AuthRoutes.LoginSpec | services/auth-user-service/src/auth.controller.ts:101-150 | 200 iff the e-mail's user has a hash the password matches, and that user is then online; an unknown e-mail and a wrong password get the same 401 and write nothing |
| AuthRoutes.SearchUsersSpec | services/auth-user-service/src/auth.controller.ts:417-434 | a signed-in caller gets 400 iff the query is missing or shorter than two characters once trimmed; never 401 |
| AuthRoutes.SendFriendRequestSpec | services/auth-user-service/src/auth.controller.ts:436-457 | 400 iff the target is missing or the caller, 409 iff the two are linked, 200 otherwise, and then the target sees the pending request |
| AuthRoutes.RespondToFriendRequestSpec | services/auth-user-service/src/auth.controller.ts:459-480 | 400 iff the id is missing or zero or the response is neither "accepted" nor "declined"; 500 iff the id is unknown; a 200 row carries the response |
| AuthRoutes.RespondIgnoresCaller | services/auth-user-service/src/auth.controller.ts:459-480 | the answer does not depend on who calls: the handler never compares the caller with the addressee |
| AuthRoutes.UrlActionSpec | services/auth-user-service/src/auth.controller.ts:295-311 | the URL names the action before the body, "/accept" before "/decline" |
| AuthRoutes.AcceptUrl | services/auth-user-service/src/auth.controller.ts:295-311 | a URL ending in "/accept" names the accept action |
| AuthRoutes.RespondToFriendRequestByIdSpec | services/auth-user-service/src/auth.controller.ts:271-345 | 401 iff no bearer token verifies, 400 iff the id or action is unusable, 404 iff the id is none of the caller's pending requests, never 500; a 200 answers a pending request addressed to the caller with the named action |
| AuthRoutes.RemoveFriendSpec | services/auth-user-service/src/auth.controller.ts:502-520 | for a `friendId` that is a user: 200 iff the id is a friend of the caller other than the caller, 400 otherwise; a 200 drops exactly that friend |
| AuthRoutes.StatusStepSpec | services/auth-user-service/src/auth.controller.ts:376-389 | the status step refuses an unknown status, otherwise answers whether anything was updated; only the caller's status may change |
| AuthRoutes.AvatarStepSpec | services/auth-user-service/src/auth.controller.ts:367-389 | the avatar step refuses an avatar not on offer, then hands over to the status step; the nickname is untouched |
| AuthRoutes.ProfileUpdateSpec | services/auth-user-service/src/auth.controller.ts:347-405 | 409 iff another user holds the nickname; 200 iff the caller exists, some field is given and every given field is acceptable, and then the row shows every given field |
| AuthRoutes.NicknameKeptOnRefusal | services/auth-user-service/src/auth.controller.ts:350-374 | a nickname written before a refused avatar stays written |
| ChatWindow.Split | frontend-src/ts/LiveChat/liveChatRS.ts:188 | `split("\n")` gives at least one line, none holding a newline |
| ChatWindow.JoinSplit | frontend-src/ts/LiveChat/liveChatRS.ts:188-204 | joining the split lines gives the text back |
| ChatWindow.SplitJoin | frontend-src/ts/LiveChat/liveChatRS.ts:188-204 | splitting joined newline-free lines gives the lines back |
| ChatWindow.DropLeadingBlank | frontend-src/ts/LiveChat/liveChatRS.ts:191-192 | the first loop removes exactly the leading lines that trim to empty |
| ChatWindow.DropTrailingBlank | frontend-src/ts/LiveChat/liveChatRS.ts:197-198 | the second loop removes exactly the trailing lines that trim to empty |
| ChatWindow.ShiftBlank | frontend-src/ts/LiveChat/liveChatRS.ts:191-192 | the shift loop computes the leading-blank removal |
| ChatWindow.PopBlank | frontend-src/ts/LiveChat/liveChatRS.ts:197-198 | the pop loop computes the trailing-blank removal |
| ChatWindow.FormatMessage | frontend-src/ts/LiveChat/liveChatRS.ts:186-205 | the loops and the two trims compute the formatted text |
| ChatWindow.ContentLine | frontend-src/ts/LiveChat/liveChatRS.ts:261-264 | a message sent (its trim is not empty) has a line with content, so the loops leave a line |
| ChatWindow.BlankIffTrimEmpty | frontend-src/ts/LiveChat/liveChatRS.ts:191-197 | a line is blank iff its `trim()` is empty |
| ChatWindow.TrimmedEnds | frontend-src/ts/LiveChat/liveChatRS.ts:202-203 | trimming the first and the last line keeps the number of lines |
| ChatWindow.TrimmedEndsSpec | frontend-src/ts/LiveChat/liveChatRS.ts:202-203 | the first and last lines are trimmed and the lines between are unchanged |
| ChatWindow.SplitJoinTrimmed | frontend-src/ts/LiveChat/liveChatRS.ts:202-204 | the joined result splits back into the kept lines with their ends trimmed |
| ChatWindow.SplitFormatted | frontend-src/ts/LiveChat/liveChatRS.ts:186-205 | the formatted text splits back into the kept lines with their ends trimmed |
| ChatWindow.FormattedLines | frontend-src/ts/LiveChat/liveChatRS.ts:186-205 | the formatted text's lines are the kept lines, the first and last trimmed, the rest unchanged |
| ChatWindow.FormattedEdges | frontend-src/ts/LiveChat/liveChatRS.ts:186-205 | a formatted message starts and ends with a character that is not white space |
| ChatWindow.FormattedIdempotent | frontend-src/ts/LiveChat/liveChatRS.ts:186-205 | formatting a formatted message changes nothing |
| ChatWindow.TrimTwice | frontend-src/ts/LiveChat/liveChatRS.ts:202-203 | trimming twice trims once |
| ChatWindow.DatePart | frontend-src/ts/LiveChat/liveChatRS.ts:552 | `split("T")[0]` is the prefix before the first 'T' |
| ChatWindow.DateTagSpec | frontend-src/ts/LiveChat/liveChatRS.ts:549-575 | between two ISO times a tag is added iff their days differ or the message opens or closes what was loaded; a prepended tag carries the first time, an appended one the second |
| ChatWindow.FooterMeaning | frontend-src/ts/LiveChat/liveChatRS.ts:489-523 | with the server's block check: no change iff the two have no friendship row; otherwise the input iff nobody blocks, "You have blocked this user" iff the caller blocks the target, "You have been blocked by this user" iff only the target blocks the caller |
| ChatWindow.OptionsMatchFooter | frontend-src/ts/LiveChat/liveChatRS.ts:489-541 | the options window opened for a status matches the footer shown for it |
| ChatWindow.Opened | frontend-src/ts/LiveChat/liveChatRS.ts:606-627 | opening a chat lets loading resume |
| ChatWindow.EmptyPageStops | frontend-src/ts/LiveChat/liveChatRS.ts:744-755 | an empty page fetched near the top stops loading |
| ChatWindow.StoppedUntilOpen | frontend-src/ts/LiveChat/liveChatRS.ts:744-755 | once loading has stopped, no scroll asks for messages or changes anything until a chat is opened |
| ChatWindow.ChatPager.constructor | frontend-src/ts/LiveChat/liveChatRS.ts:14-15 | loading has not stopped and no cursor is set |
| ChatWindow.ChatPager.OpenChat | frontend-src/ts/LiveChat/liveChatRS.ts:606-627 | the opening step |
| ChatWindow.ChatPager.OnChatScroll | frontend-src/ts/LiveChat/liveChatRS.ts:744-758 | the scroll step; asks with the last cursor iff near the top and loading has not stopped |
| ChatPanel.AvatarPathSpec | frontend-src/ts/LiveChat/liveChat.ts:1275-1289 | every avatar path names an image file; it is under `/uploads/avatars/` iff the name starts with `custom_`, else under `/imgs/avatars/`; the stored name follows the directory and at most an extension follows it |
| ChatPanel.AvatarUrlSpec | frontend-src/ts/LiveChat/liveChat.ts:1275-1292 | the URL is the path, `?t=` and the clock reading in decimal, which reads back from the URL's tail |
| ChatPanel.AvatarUrlBustsCache | frontend-src/ts/LiveChat/liveChat.ts:1290-1292 | two clock readings give two URLs for the same avatar |
| ChatPanel.StripTrailing | frontend-src/ts/LiveChat/liveChat.ts:390-391 | the loop strips exactly the trailing spaces, newlines and tabs |
| ChatPanel.ShowHeaderName | frontend-src/ts/LiveChat/liveChat.ts:386-393 | the cut and the stripping loop compute the name shown |
| ChatPanel.HeaderNameSpec | frontend-src/ts/LiveChat/liveChat.ts:386-393 | a shown name has at most 24 characters; a name that fits is shown whole; a longer one is a prefix of its first 21 characters, with only spaces, newlines and tabs dropped, followed by "..." |
| ChatPanel.BadgeSpec | frontend-src/ts/LiveChat/liveChat.ts:494-495 | the badge text is "99+" iff the count exceeds 99, else the count in decimal; the chat-list dot is hidden iff nothing is unread, the updated dot never (also lines 1041) |
| ChatPanel.CounterSaturates | frontend-src/ts/LiveChat/liveChat.ts:1003-1007 | the counter counts messages up to 99 and then stays; the k-th message shows k up to 99 and "99+" from the 100th on |
| ChatPanel.ChatPanelState.constructor | frontend-src/ts/LiveChat/liveChat.ts:16-22 | the module's initial values |
| ChatPanel.ChatPanelState.Reset | frontend-src/ts/LiveChat/liveChat.ts:59-82 | back to the chat list with no chat open and the counter at 0 |
| ChatPanel.ChatPanelState.ResetCount | frontend-src/ts/LiveChat/liveChat.ts:23-27 | only the counter is reset |
| ChatPanel.ChatPanelState.OnOpenChatMessage | frontend-src/ts/LiveChat/liveChat.ts:1003-1010 | scrolled away, the counter advances and shows the text for it; otherwise nothing changes; the cap is kept |
| MultiplayerGame.DirectionSpec | frontend-src/ts/multiPlayerGame.ts:521-535 | a paddle moves up iff only its up key is held, down iff only its down key is held, and stays iff both or neither are held; swapping the keys reverses the move |
| MultiplayerGame.MovementSpec | frontend-src/ts/multiPlayerGame.ts:514-542 | nothing is sent iff paused; the left move depends on W/S alone and the right move on the arrows alone |
| MultiplayerGame.KeyPressRelease | frontend-src/ts/multiPlayerGame.ts:157-175 | pressing and then releasing a key leaves the flags as releasing it alone would; other keys change nothing |
| MultiplayerGame.TouchSpec | frontend-src/ts/multiPlayerGame.ts:189-226 | from no keys held, a drag of more than 5 px moves the player's own paddle the way it goes and leaves the other pair still; lifting the finger stops both paddles |
| MultiplayerGame.PauseResumeRoundTrip | frontend-src/ts/multiPlayerGame.ts:643-666 | pausing a running game sends `true`; resuming then restores it and sends `false` |
| MultiplayerGame.PauseResumeIdempotent | frontend-src/ts/multiPlayerGame.ts:643-666 | pausing twice pauses once; resuming twice resumes once |
| MultiplayerGame.EchoIsQuiet | frontend-src/ts/multiPlayerGame.ts:643-666 | the server echoing a client's own pause change back changes nothing and sends nothing (also lines 69-80) |
| MultiplayerGame.PausedSendsNothing | frontend-src/ts/multiPlayerGame.ts:630-654 | a paused game sends no paddle moves, ignores the pause button, and the start button resumes it (also lines 514-517) |
| MultiplayerGame.StepsKeepConsistent | frontend-src/ts/multiPlayerGame.ts:617-697 | the buttons, the pause broadcasts, `handleGameStart` and `stop` never make a game both running and paused (also lines 300-330) |
| MultiplayerGame.CountdownKeepsPause | frontend-src/ts/multiPlayerGame.ts:300-330 | a game paused before the next match starts is running and paused after the countdown, sends no moves, and only the start button clears the pause (also lines 373-400, 617-628) |
| MultiplayerGame.ViewsMirror | frontend-src/ts/multiPlayerGame.ts:279-297 | both players see the same ball, each sees the other's paddle and score as the opponent's, and both scoreboards show the owner score on the left (also lines 505-510) |
| MultiplayerGame.PongGame.constructor | frontend-src/ts/multiPlayerGame.ts:20-51 | the field initialisers |
| MultiplayerGame.PongGame.OnKeyDown | frontend-src/ts/multiPlayerGame.ts:159-164 | the keydown step; nothing else changes |
| MultiplayerGame.PongGame.OnKeyUp | frontend-src/ts/multiPlayerGame.ts:166-171 | the keyup step; nothing else changes |
| MultiplayerGame.PongGame.OnTouchStart | frontend-src/ts/multiPlayerGame.ts:190-195 | the drag starts at the touch |
| MultiplayerGame.PongGame.OnTouchMove | frontend-src/ts/multiPlayerGame.ts:197-216 | the drag step on the touch and key flags |
| MultiplayerGame.PongGame.OnTouchEnd | frontend-src/ts/multiPlayerGame.ts:218-226 | the drag ends and all keys are released |
| MultiplayerGame.PongGame.HandlePaddleMovement | frontend-src/ts/multiPlayerGame.ts:514-542 | the move sent, or nothing while paused |
| MultiplayerGame.PongGame.Start | frontend-src/ts/multiPlayerGame.ts:617-628 | `start` is a no-op while running |
| MultiplayerGame.PongGame.PauseGame | frontend-src/ts/multiPlayerGame.ts:643-654 | the pause step and the pause state it sends |
| MultiplayerGame.PongGame.Resume | frontend-src/ts/multiPlayerGame.ts:656-666 | the resume step and the pause state it sends |
| MultiplayerGame.PongGame.StartGame | frontend-src/ts/multiPlayerGame.ts:630-641 | the start-button step |
| MultiplayerGame.PongGame.OnGamePauseState | frontend-src/ts/multiPlayerGame.ts:69-80 | the pause broadcast pauses or resumes |
| MultiplayerGame.PongGame.Stop | frontend-src/ts/multiPlayerGame.ts:687-697 | not running and no countdown |
| MultiplayerGame.PongGame.HandleGameStart | frontend-src/ts/multiPlayerGame.ts:300-371 | ignored while counting down; otherwise records the side, stops the game and starts the countdown |
| MultiplayerGame.PongGame.CountdownEnd | frontend-src/ts/multiPlayerGame.ts:385-397 | the last tick clears the countdown and starts the game unless it is running |
| MultiplayerGame.PongGame.UpdateFromServer | frontend-src/ts/multiPlayerGame.ts:279-297 | the server's state laid out from the player's side |
| Router.Find | frontend-src/ts/router.ts:149 | some route is found iff a route has the path, and then it is the first such route |
| Router.RoutesTable | frontend-src/ts/router.ts:13-43 | '/' is the first route and the only one without `authRequired`; no two routes share a path |
| Router.LookupSpec | frontend-src/ts/router.ts:149-150 | a path in the table gets its own route, any other path the first route; only '/' and unknown paths get a route that needs no signed-in user |
| Router.RedirectSettles | frontend-src/ts/router.ts:147-157 | '/' needs no signed-in user, so the redirect lands there and routing its target again goes nowhere else |
| Router.ShownSpec | frontend-src/ts/router.ts:147-157 | nobody signed in sees the sign-in page whatever the path; a signed-in user stays on the path and sees its route's page, the sign-in page for an unknown path |
| Router.Browser.constructor | frontend-src/ts/router.ts:148 | the browser starts at a location with nothing pushed or rendered |
| Router.Browser.NavigateTo | frontend-src/ts/router.ts:142-145 | pushes the path, then routes: the location, the entries pushed (the path, then '/' when redirected) and the one page rendered |
| Router.Browser.HandleRouting | frontend-src/ts/router.ts:147-157 | renders the current path's route, or navigates to '/' when it needs a signed-in user and nobody is signed in |

## Left out

- The WebSocket itself (tungstenite, TLS, URL parsing): a connection attempt is a transport outcome passed in, and the open stream is a script of incoming items.
- Whether a write to the stream fails is one fixed flag of the script, not a per-write event.
- serde internals: JSON is the project's own datatype. White space between tokens, `\u` escapes and exponents are not read. A real number round-trips only through its literal digits.
- Json.FieldOfFound: a repeated key gives its first member's value. serde's `from_str` refuses a struct with a repeated field, and `from_value` sees only the last value, since a parsed `Value` map keeps the last.
- Handshake.DecodeEngineIOHandshake: accepts only the JSON object form; serde also accepts the struct as an array of its fields in order, and refuses a repeated field.
- Handshake.DecodeSocketIOHandshake: accepts only the JSON object form; serde also accepts `[sid]`, and refuses a reply that repeats `sid`.
- ServerFrames.ConnectReplyAccepted: a code-40 reply repeating `sid` is accepted here with its first value, where `from_str` refuses it; the array form is refused here and accepted by serde.
- Events.DecodeJoinedRoom: accepts only the JSON object form, and takes a repeated field's first value where serde keeps the last.
- Events.DecodeCreateRoom: accepts only the JSON object form, and takes a repeated field's first value where serde keeps the last.
- Events.DecodePlayer: accepts only the JSON object form, and takes a repeated field's first value where serde keeps the last.
- Events.DecodeGameStart: accepts only the JSON object form, and takes a repeated field's first value where serde keeps the last.
- Events.DecodeGameState: accepts only the JSON object form, and takes a repeated field's first value where serde keeps the last.
- Events.DecodeGameAborted: accepts only the JSON object form, and takes a repeated field's first value where serde keeps the last.
- Events.DecodeFinalScore: accepts only the JSON object form, and takes a repeated field's first value where serde keeps the last.
- Events.DecodeGameOver: accepts only the JSON object form, and takes a repeated field's first value where serde keeps the last.
- tokio's `select!`, spawned tasks and channels: the application takes one event per step, and a background task is a `Task` value whose outcome comes back later as a channel event.
- The HTTP calls of the background tasks (login, 2FA, nickname, create and join room, single player): their outcomes are channel events chosen by the caller.
- Binding the OAuth callback's `TcpListener` and opening the web browser: both are outcomes passed in.
- The callback's response body text: only its 200/400 status is modelled.
- Drawing with ratatui (layout, the ball and rectangle widgets, colours): a render only clears the page's redraw flag.
- Login.LoginPage.Render: states only that the redraw flag is cleared, because drawing is left out.
- Totp.TotpPage.Render: states only that the redraw flag is cleared, because drawing is left out.
- JoinRoomInput.JoinRoomPage.Render: states only that the redraw flag is cleared, because drawing is left out.
- HostSelector.HostSelectorPage.Render: states only that the redraw flag is cleared, because drawing is left out.
- GameModeMenu.GameModePage.Render: states only that the redraw flag is cleared, because drawing is left out.
- GameLobby.GameLobbyPage.Render: states only that the redraw flag is cleared and the room id kept, because drawing is left out.
- GameOverScreen.GameOverPage.Render: states only that the redraw flag is cleared, because drawing is left out.
- GamePage.Game.Render: states only that the redraw flag is cleared, because drawing is left out.
- Key modifiers and key kinds (press, repeat, release) other than those the pages match on: a key is its code.
- Letter case is handled for ASCII letters only.
- `cli/src/ui/nickname_selector.rs` is not part of this model: the nickname page is a bare tag.
- The game page's `set_paused` and `GamePauseState` handling and the game's own `tick`: a tick's success is an outcome passed in.
- `UpdatePosition` has no arm in `app.rs`, so it changes nothing in the model.
- GamePage.MoveStaysInField: paddle and ball coordinates are exact reals, where the client holds `f64`. Rounding, NaN and infinities are not modelled; a position the server sends beyond 2^53 would not move by 20 under `f64`.
- The `unwrap` of a failed channel send in the callback server is not modelled: the channel is taken to stay open.
- SQL: tables are relations in memory. Timestamps, the order of rows a query returns and the 500 replies of thrown database errors are left out.
- `Math.random` draws of room ids are a sequence passed in. `checkForExistingRoom` and whether `startGame` returns normally are inputs.
- JavaScript numbers are exact integers. `parseDurationToSec` reads a count exactly, which matches `Number` for every count it accepts.
- JWT verification, bcrypt hashing and comparison, and `parseInt` are results passed in.
- Rooms.DrawsOk: every draw is taken to have six characters. `Math.random().toString(36).substring(2, 8)` is shorter only when the random number's shortest base-36 form has fewer than six digits after the point (roughly one draw in 2^26; `0.5` gives "i"), and empty when `Math.random()` returns 0; an empty id would also be falsy at `if (player.roomId)`. The members below rely on that length.
- Rooms.Valid: game room keys are taken to have six characters and tournament keys seven, which keeps the two kinds of key apart; this rests on the six-character draws above.
- Rooms.RoomStore.GenerateUniqueRoomId: requires six-character draws, as Rooms.DrawsOk says.
- Rooms.RoomStore.HandleCreateRoom: requires six-character draws when a room is created, as Rooms.DrawsOk says.
- Rooms.RoomStore.HandleCreateTournamentRoom: requires six-character draws when a lobby is created, as Rooms.DrawsOk says.
- Rooms.CreateUsesFreeId: requires six-character draws, as Rooms.DrawsOk says.
- Rooms.CreateKeepsValid: requires six-character draws, as Rooms.DrawsOk says.
- Rooms.CreateTournamentStoresRoom: requires six-character draws, as Rooms.DrawsOk says.
- Rooms.CreateTournamentKeepsValid: requires six-character draws, as Rooms.DrawsOk says.
- Rooms.OpenGameRoomKeepsValid: requires a six-character id, as Rooms.Valid says.
- Rooms.AddGameRoomKeepsValid: requires a six-character key, as Rooms.Valid says.
- Rooms.AddTournamentKeepsValid: requires a seven-character key, as Rooms.Valid says.
- Rooms.OpenGameRoomSpec: players are values identified by their id. A local room renames the creator's own player object to 'Player1' (room.ts:105); the model renames only the owner stored in the room, so later requests from that socket still carry the old nickname.
- Rooms.DeleteRoomSpec: the stand-in local guest `123450` (room.ts:108) is identified by its id, so deleting a local room clears the `roomId` of a real user with that id, which the source, holding a separate object, does not do.
- AuthRoutes.SearchUsersSpec: states only the reply status, not which users match the query.
- The auth controller's `getUserById`, `getUserByIdPublic`, `getUserByNickname`, `getStats` and health handlers, and the avatar list as anything but a constant.
- The AI instance's socket manager, its game and the `onGameEnd` callback: only `createdAt` is kept. The 500 replies of a thrown error are left out.
- The clock is a number passed in wherever the source reads `Date.now()`.
- The rest of `io.handler.ts`: friend requests, user search, tournament messages and the texts of the payloads emitted.
- The payload of `broadcastTournamentUpdate` beyond the entries and the count.
- `setTimeout` and `setInterval`: the countdown's five one-second ticks are one `CountdownEnd` step, and each animation frame of the game loop is one `HandlePaddleMovement` call.
- The browser page: the DOM, canvas scaling, status texts, animation frames, the navbar and `popstate`. Whether a user is signed in is a field set from outside.
- String lengths are counted in characters, where the browser counts UTF-16 code units.
- Message times are the ISO texts the server sends: a date tag compares the text before their 'T'. The `lastMsgDateISO` bookkeeping and time zones are left out.
- ChatWindow.Opened: states only that loading resumes, not the messages fetched.

## Findings

| source | as written | input that shows it | evidently intended | confidence | as-written member | corrected member |
|---|---|---|---|---|---|---|
| services/game-service/src/room.ts:21 | `generateUniqueRoomId` rejects an id when `gameRooms` holds it or `"T" + id`, but tournament lobbies are stored in `tournamentRooms` under `"T" + id`, so a live lobby's id can be drawn again | a live tournament lobby `TABCDEF` and the draw `ABCDEF`: the guard accepts it, and `handleCreateTournamentRoom` then replaces the live lobby | reject an id whose tournament key `tournamentRooms` holds; the model uses this guard when creating a lobby, and keeps the guard as written for game rooms, where it does no harm | not executed | Rooms.AsWrittenGuardReplacesTournament | Rooms.CreateTournamentKeepsValid |
