/** The CLI's orchestrator: one step per event source (a socket event, a
    finished background task, a page result, a timer tick). Its state is the
    active page, the socket slot, the host and the session token.

    Background work (HTTP login calls, room set-up) is not performed here: a step
    names the task it would spawn, and the task's eventual message arrives
    later as a channel event. Binding the local web server, opening the
    browser and the game's own tick are outcomes passed in. */
module CliApp {
  import opened Wrappers
  import opened Keys
  import EV = Events
  import PR = PageResult
  import GM = GameModes
  import P = Pages
  import HS = HostSelector
  import LG = Login
  import TP = Totp
  import MN = GameModeMenu
  import JR = JoinRoomInput
  import LB = GameLobby
  import GP = GamePage
  import GO = GameOverScreen
  import SC = SocketClient

  // ---------------------------------------------------------------------
  // Messages
  // ---------------------------------------------------------------------

  /** The errors of the HTTP login calls. */
  datatype LoginErrors = ConnectionError | InvalidResponse | InvalidCredentials | ServerError | Unknown(detail: string)

  /** The text a page shows for a login error. */
  function LoginErrorText(e: LoginErrors): string {
    match e
    case ConnectionError => "Connection Error"
    case InvalidResponse => "Invalid response received from server"
    case InvalidCredentials => "Incorrect email or password"
    case ServerError => "Internal Server Error"
    case Unknown(d) => "Unknown Error: " + d
  }

  /** The text the join page shows for an event error (the deserializer's
      own detail is not modelled). */
  function EventErrorText(e: EV.EventError): string {
    match e
    case SerializingError => "Unable to deserialize Response: "
    case ConnectionError => "Connection Error"
    case InvalidResponse => "Invalid Response"
    case CreateRoomError => "Unable to create room"
    case JoinRoomError => "Unable to join room"
  }

  /** What a background task reports back (`ChannelEvents`). The 2FA
      error is carried as its message. */
  datatype ChannelEvents =
    | LoginSuccess(host: string, token: string)
    | LoginError(error: LoginErrors)
    | NicknameError(error: LoginErrors)
    | TotpRequired(host: string, token: string)
    | TotpSuccess(token: string)
    | TotpError(message: string)
    | RemoteRedirect(url: string)
    | RemoteRedirectCallback(token: string, nicknameRequired: bool)
    | RemoteRedirectError(error: LoginErrors)
    | RoomCreated(client: SC.SocketIoClient, roomId: string)
    | RoomJoined(client: SC.SocketIoClient)
    | RoomJoinError(eventError: EV.EventError)

  /** The outcome of binding the local web server for a browser login. */
  datatype BindOutcome = Bound | BindFailed | PortUnknown

  const BIND_FAILED := "Unable to bind webserver"
  const PORT_UNKNOWN := "Unable to fetch Port from local webserver"
  const BROWSER_FAILED := "Unable to open webbrowser"

  /** The background work a step starts, or the loop's own end. */
  datatype Task =
    | Idle
    | Quit
    /** An `unwrap` of a missing host or token. */
    | Crash
    | RemoteLoginTask(host: string)
    | ReportLoginError(error: LoginErrors)
    | SetNicknameTask(host: string, token: string, nickname: string)
    | LoginTask(host: string, email: string, password: string)
    | Login2faTask(host: string, token: string, code: string)
    | SinglePlayerTask(endpoint: string, token: string)
    | CreateRoomTask(endpoint: string, token: string)
    | JoinRoomTask(endpoint: string, token: string, roomId: string)

  // ---------------------------------------------------------------------
  // The endpoint
  // ---------------------------------------------------------------------

  const DEBUG_PORT: string := "3000"
  const RELEASE_PORT: string := "8443"
  const SCHEME: string := "wss://"
  const QUERY_START: string := "/socket.io/?token="
  const QUERY_END: string := "&EIO=4&transport=websocket"

  function Port(debugBuild: bool): string {
    if debugBuild then DEBUG_PORT else RELEASE_PORT
  }

  /** `get_endpoint`: the Socket.IO URL for a host and a token. */
  function Endpoint(host: string, token: string, debugBuild: bool): string {
    SCHEME + (host + (":" + (Port(debugBuild) + (QUERY_START + (token + QUERY_END)))))
  }

  /** Equal concatenations with equally long heads have equal parts. */
  lemma SplitEqual(a: string, c: string, b: string, d: string)
    requires |a| == |b| && a + c == b + d
    ensures a == b && c == d
  {
    assert a == (a + c)[..|a|] && b == (b + d)[..|b|];
    assert c == (a + c)[|a|..] && d == (b + d)[|b|..];
  }

  /** The character at `i` of a concatenation. */
  lemma CharAt(a: string, b: string, i: int)
    ensures 0 <= i < |a| ==> (a + b)[i] == a[i]
    ensures |a| <= i < |a| + |b| ==> (a + b)[i] == b[i - |a|]
  {
  }

  /** Two words without ':' that are each followed by ':' in the same text
      are the same word. */
  lemma UpToColon(h1: string, r1: string, h2: string, r2: string)
    requires ':' !in h1 && ':' !in h2 && |r1| > 0 && |r2| > 0 && r1[0] == ':' && r2[0] == ':'
    requires h1 + r1 == h2 + r2
    ensures h1 == h2 && r1 == r2
  {
    if |h1| < |h2| {
      CharAt(h1, r1, |h1|);
      CharAt(h2, r2, |h1|);
      assert false;
    } else if |h2| < |h1| {
      CharAt(h2, r2, |h2|);
      CharAt(h1, r1, |h2|);
      assert false;
    }
    SplitEqual(h1, r1, h2, r2);
  }

  /** A host without ':' and a token can be read back from the endpoint,
      and so can the build it was made for. */
  lemma EndpointInjective(h1: string, t1: string, d1: bool, h2: string, t2: string, d2: bool)
    requires ':' !in h1 && ':' !in h2
    requires Endpoint(h1, t1, d1) == Endpoint(h2, t2, d2)
    ensures h1 == h2 && t1 == t2 && d1 == d2
  {
    var tail1 := QUERY_START + (t1 + QUERY_END);
    var tail2 := QUERY_START + (t2 + QUERY_END);
    var rest1 := ":" + (Port(d1) + tail1);
    var rest2 := ":" + (Port(d2) + tail2);
    SplitEqual(SCHEME, h1 + rest1, SCHEME, h2 + rest2);
    UpToColon(h1, rest1, h2, rest2);
    SplitEqual(":", Port(d1) + tail1, ":", Port(d2) + tail2);
    SplitEqual(Port(d1), tail1, Port(d2), tail2);
    SplitEqual(QUERY_START, t1 + QUERY_END, QUERY_START, t2 + QUERY_END);
    assert |t1| == |t2|;
    SplitEqual(t1, QUERY_END, t2, QUERY_END);
  }

  // ---------------------------------------------------------------------
  // The browser-login callback
  // ---------------------------------------------------------------------

  /** A decoded query string, in order. */
  type Query = seq<(string, string)>

  /** The value collected for `key`: the last pair with that name wins. */
  function Lookup(q: Query, key: string): (r: Option<string>)
    ensures r.None? <==> forall i :: 0 <= i < |q| ==> q[i].0 != key
    ensures r.Some? ==> exists i :: 0 <= i < |q| && q[i] == (key, r.value) && forall j :: i < j < |q| ==> q[j].0 != key
  {
    var k := LastIndex(q, key);
    if k < 0 then None else Some(q[k].1)
  }

  /** Where the last pair with the key sits, or -1 when there is none. */
  function LastIndex(q: Query, key: string): (k: int)
    ensures -1 <= k < |q|
    ensures k == -1 ==> forall i :: 0 <= i < |q| ==> q[i].0 != key
    ensures k >= 0 ==> q[k].0 == key && forall j :: k < j < |q| ==> q[j].0 != key
  {
    if |q| == 0 then -1
    else if q[|q| - 1].0 == key then |q| - 1
    else LastIndex(q[..|q| - 1], key)
  }

  const OK_STATUS: nat := 200
  const BAD_REQUEST: nat := 400

  /** The local web server's answer to one callback request: the message
      for the application and the HTTP status. */
  function CallbackReply(q: Query): (ChannelEvents, nat) {
    match (Lookup(q, "token"), Lookup(q, "nickname_required"))
    case (Some(token), Some(flag)) =>
      if flag == "true" then (RemoteRedirectCallback(token, true), OK_STATUS)
      else if flag == "false" then (RemoteRedirectCallback(token, false), OK_STATUS)
      else (RemoteRedirectError(InvalidResponse), BAD_REQUEST)
    case _ => (RemoteRedirectError(InvalidResponse), BAD_REQUEST)
  }

  /** The callback is accepted exactly when both parameters are present and
      the flag is literally "true" or "false"; it then carries the token
      and the flag, and everything else is answered 400 with an error. */
  lemma CallbackAccepted(q: Query)
    ensures CallbackReply(q).0.RemoteRedirectCallback? <==>
      Lookup(q, "token").Some? && Lookup(q, "nickname_required") in {Some("true"), Some("false")}
    ensures CallbackReply(q).0.RemoteRedirectCallback? ==>
      CallbackReply(q).0 == RemoteRedirectCallback(Lookup(q, "token").value, Lookup(q, "nickname_required") == Some("true"))
      && CallbackReply(q).1 == OK_STATUS
    ensures !CallbackReply(q).0.RemoteRedirectCallback? ==>
      CallbackReply(q) == (RemoteRedirectError(InvalidResponse), BAD_REQUEST)
  {
  }

  /** `wait_for_webserver_events`: `requests` are the requests the browser
      makes on the one accepted keep-alive connection, in order (none if no
      connection was accepted). Each is answered with its own channel event
      and status, and the wait itself always ends with a connection error. */
  function WebserverWait(requests: seq<Query>): (r: (seq<(ChannelEvents, nat)>, Result<EV.SocketEvents, EV.EventError>))
    ensures |r.0| == |requests|
  {
    (seq(|requests|, i requires 0 <= i < |requests| => CallbackReply(requests[i])), Err(EV.ConnectionError))
  }

  // ---------------------------------------------------------------------
  // The state and its steps
  // ---------------------------------------------------------------------

  datatype SocketTag = NoSocket | WebsocketTag | WebserverTag

  /** The application's state without the page contents. */
  datatype AppView = AppView(page: P.PageTag, socket: SocketTag, host: Option<string>, token: Option<string>)

  /** `App::new`. */
  const INITIAL := AppView(P.HostSelectorTag, NoSocket, None, None)

  /** A page that reads the host or the token has them. */
  predicate Inv(v: AppView) {
    && (v.page == P.LoginTag ==> v.host.Some?)
    && (v.page == P.TotpTag ==> v.host.Some? && v.token.Some?)
    && (v.page == P.NicknameSelectorTag ==> v.token.Some?)
  }

  /** `abort_game`: no socket, back to the game-mode menu. */
  function Aborted(v: AppView): AppView {
    v.(socket := NoSocket, page := P.GameModeSelectorTag)
  }

  /** The socket arm. */
  function OnSocket(v: AppView, ev: Result<EV.SocketEvents, EV.EventError>): AppView {
    match ev
    case Ok(GameStart(_)) => v.(page := P.GameTag)
    case Ok(GameOver(_)) => if v.page == P.GameTag then v.(page := P.GameOverTag) else v
    case Ok(GameAborted(_)) => Aborted(v)
    case Ok(_) => v
    case Err(_) => v.(socket := NoSocket)
  }

  /** The channel arm; `browserOpens` is whether the browser accepted the
      login URL. */
  function OnChannel(v: AppView, msg: ChannelEvents, browserOpens: bool): AppView {
    match msg
    case LoginSuccess(h, t) => v.(token := Some(t), host := Some(h), page := P.GameModeSelectorTag)
    case TotpRequired(h, t) => v.(token := Some(t), host := Some(h), page := P.TotpTag)
    case TotpSuccess(t) => v.(token := Some(t), page := P.GameModeSelectorTag)
    case RemoteRedirect(_) =>
      if v.page == P.HostSelectorTag && !browserOpens then v.(socket := NoSocket) else v
    case RemoteRedirectCallback(t, nicknameRequired) =>
      if v.page == P.HostSelectorTag then
        v.(token := Some(t), socket := NoSocket,
           page := if nicknameRequired then P.NicknameSelectorTag else P.GameModeSelectorTag)
      else v
    case RemoteRedirectError(_) => if v.page == P.HostSelectorTag then v.(socket := NoSocket) else v
    case RoomCreated(_, _) =>
      if v.page == P.GameModeSelectorTag then v.(socket := WebsocketTag, page := P.GameLobbyTag) else v
    case RoomJoined(_) => v.(socket := WebsocketTag)
    case _ => v
  }

  /** The key arm after the page has answered: the new state and the task
      started. `sendOk` is whether a write on the current websocket
      succeeds. */
  function OnPageResult(v: AppView, r: Option<PR.PageResults>, bind: BindOutcome, sendOk: bool, debugBuild: bool): (AppView, Task) {
    match r
    case None => (v, Idle)
    case Some(res) =>
      match res
      case HostSelected(h, loginType) =>
        var v1 := v.(host := Some(h));
        if loginType == PR.LocalLogin then (v1.(page := P.LoginTag), Idle)
        else (match bind
              case Bound => (v1.(socket := WebserverTag), RemoteLoginTask(h))
              case BindFailed => (v1, ReportLoginError(Unknown(BIND_FAILED)))
              case PortUnknown => (v1, ReportLoginError(Unknown(PORT_UNKNOWN))))
      case NicknameSelected(n) =>
        if v.token.None? || v.host.None? then (v, Crash) else (v, SetNicknameTask(v.host.value, v.token.value, n))
      case Login(email, password) =>
        if v.host.None? then (v, Crash) else (v, LoginTask(v.host.value, email, password))
      case Totp(code) =>
        if v.host.Some? && v.token.Some? then (v, Login2faTask(v.host.value, v.token.value, code)) else (v, Idle)
      case GameModeChosen(mode) =>
        if mode == GM.JoinRoom then (v.(page := P.JoinRoomTag), Idle)
        else if v.host.Some? && v.token.Some? then
          var url := Endpoint(v.host.value, v.token.value, debugBuild);
          (v, if mode == GM.SinglePlayer then SinglePlayerTask(url, v.token.value) else CreateRoomTask(url, v.token.value))
        else (v, Idle)
      case BackToMenu => (Aborted(v), Idle)
      case GameOver => (Aborted(v), Idle)
      case JoinRoom(id) =>
        if v.host.Some? && v.token.Some? then (v, JoinRoomTask(Endpoint(v.host.value, v.token.value, debugBuild), v.token.value, id))
        else (v, Idle)
      case UpdatePaddleMovement(_, _) => (if v.socket == WebsocketTag && !sendOk then Aborted(v) else v, Idle)
      case GamePaused(_) => (if v.socket == WebsocketTag && !sendOk then Aborted(v) else v, Idle)
      case UpdatePosition(_) => (v, Idle)
      case Exit => (v, Quit)
  }

  /** Whether a tick sends the paddle state: only without the keyboard
      protocol that reports key releases, on the game page, over a
      websocket. */
  predicate TickFlushes(v: AppView, kitty: bool) {
    !kitty && v.page == P.GameTag && v.socket == WebsocketTag
  }

  /** The tick arm; `tickOk` is whether the game's own tick succeeded. */
  function OnTick(v: AppView, kitty: bool, tickOk: bool): AppView {
    if TickFlushes(v, kitty) && !tickOk then Aborted(v) else v
  }

  // ---------------------------------------------------------------------
  // Properties of the steps
  // ---------------------------------------------------------------------

  lemma InitialInv()
    ensures Inv(INITIAL) && INITIAL.page == P.HostSelectorTag
    ensures INITIAL.socket == NoSocket && INITIAL.host.None? && INITIAL.token.None?
  {
  }

  /** Every step keeps the invariant, so the login request never unwraps
      a missing host. */
  lemma StepsKeepInv(v: AppView, ev: Result<EV.SocketEvents, EV.EventError>, msg: ChannelEvents, browserOpens: bool,
                     r: Option<PR.PageResults>, bind: BindOutcome, sendOk: bool, debugBuild: bool, kitty: bool, tickOk: bool)
    requires Inv(v)
    ensures Inv(OnSocket(v, ev)) && Inv(OnChannel(v, msg, browserOpens))
    ensures Inv(OnPageResult(v, r, bind, sendOk, debugBuild).0) && Inv(OnTick(v, kitty, tickOk))
  {
    SocketKeepsInv(v, ev);
    ChannelKeepsInv(v, msg, browserOpens);
    PageResultKeepsInv(v, r, bind, sendOk, debugBuild);
  }

  lemma SocketKeepsInv(v: AppView, ev: Result<EV.SocketEvents, EV.EventError>)
    requires Inv(v)
    ensures Inv(OnSocket(v, ev))
  {
  }

  lemma ChannelKeepsInv(v: AppView, msg: ChannelEvents, browserOpens: bool)
    requires Inv(v)
    ensures Inv(OnChannel(v, msg, browserOpens))
  {
  }

  lemma PageResultKeepsInv(v: AppView, r: Option<PR.PageResults>, bind: BindOutcome, sendOk: bool, debugBuild: bool)
    requires Inv(v)
    ensures Inv(OnPageResult(v, r, bind, sendOk, debugBuild).0)
  {
  }

  /** The results a page can produce never crash the application on the
      pages that produce them. The nickname page is a bare tag that
      produces nothing here, so its request, which also needs the host, is
      not covered. */
  lemma PageResultsDoNotCrash(v: AppView, res: PR.PageResults, bind: BindOutcome, sendOk: bool, debugBuild: bool)
    requires Inv(v) && P.Produces(v.page, res)
    ensures OnPageResult(v, Some(res), bind, sendOk, debugBuild).1 != Crash
  {
  }

  /** Aborting a game, however it is asked for, closes the socket slot and
      shows the menu, keeping host and token. */
  lemma AbortPaths(v: AppView, aborted: EV.GameAbortedEvent, bind: BindOutcome, sendOk: bool, debugBuild: bool)
    ensures OnSocket(v, Ok(EV.GameAborted(aborted))) == Aborted(v)
    ensures OnPageResult(v, Some(PR.BackToMenu), bind, sendOk, debugBuild) == (Aborted(v), Idle)
    ensures OnPageResult(v, Some(PR.GameOver), bind, sendOk, debugBuild) == (Aborted(v), Idle)
    ensures Aborted(v).page == P.GameModeSelectorTag && Aborted(v).socket == NoSocket
    ensures Aborted(v).host == v.host && Aborted(v).token == v.token
  {
  }

  /** A failed wait closes the slot and leaves the page; a game start moves
      to the game from any page; a game over only ends a game. */
  lemma SocketArm(v: AppView, e: EV.EventError, start: EV.GameStartEvent, over: EV.GameOverEvent)
    ensures OnSocket(v, Err(e)) == v.(socket := NoSocket)
    ensures OnSocket(v, Ok(EV.GameStart(start))) == v.(page := P.GameTag)
    ensures OnSocket(v, Ok(EV.GameOver(over))).page == (if v.page == P.GameTag then P.GameOverTag else v.page)
    ensures OnSocket(v, Ok(EV.Ping)) == v
  {
  }

  /** Whatever the browser sends, every request on the connection gets the
      callback's answer in order, and the wait ends in an error, which
      clears the socket slot without changing the page. */
  lemma WebserverWaitClearsSlot(v: AppView, requests: seq<Query>)
    ensures OnSocket(v, WebserverWait(requests).1) == v.(socket := NoSocket)
    ensures forall i :: 0 <= i < |requests| ==> WebserverWait(requests).0[i] == CallbackReply(requests[i])
  {
  }

  /** The browser-login callback routes by the nickname flag, and only on
      the host selector. */
  lemma CallbackRouting(v: AppView, token: string, nicknameRequired: bool, browserOpens: bool)
    ensures var v2 := OnChannel(v, RemoteRedirectCallback(token, nicknameRequired), browserOpens);
      if v.page == P.HostSelectorTag then
        v2.token == Some(token) && v2.socket == NoSocket
        && v2.page == (if nicknameRequired then P.NicknameSelectorTag else P.GameModeSelectorTag)
      else v2 == v
  {
  }

  /** A created room takes over the socket only from the menu; a joined
      room does so from any page and keeps it. */
  lemma RoomMessages(v: AppView, c: SC.SocketIoClient, roomId: string, browserOpens: bool)
    ensures OnChannel(v, RoomCreated(c, roomId), browserOpens) ==
      (if v.page == P.GameModeSelectorTag then v.(socket := WebsocketTag, page := P.GameLobbyTag) else v)
    ensures OnChannel(v, RoomJoined(c), browserOpens) == v.(socket := WebsocketTag)
  {
  }

  /** Joining a room needs no login to reach its page; a single-player game
      or a new room needs both host and token, and gets the endpoint made
      from them. */
  lemma GameModeRequirements(v: AppView, mode: GM.GameMode, bind: BindOutcome, sendOk: bool, debugBuild: bool)
    ensures var (v2, task) := OnPageResult(v, Some(PR.GameModeChosen(mode)), bind, sendOk, debugBuild);
      && (mode == GM.JoinRoom ==> v2 == v.(page := P.JoinRoomTag) && task == Idle)
      && (mode != GM.JoinRoom && (v.host.None? || v.token.None?) ==> v2 == v && task == Idle)
      && (mode != GM.JoinRoom && v.host.Some? && v.token.Some? ==>
            v2 == v && task.endpoint == Endpoint(v.host.value, v.token.value, debugBuild) && task.token == v.token.value)
  {
  }

  /** A local login goes to the login page; a browser login keeps the host
      page and listens for the callback, unless the server cannot be
      bound. */
  lemma HostSelectedRouting(v: AppView, h: string, bind: BindOutcome, sendOk: bool, debugBuild: bool)
    ensures OnPageResult(v, Some(PR.HostSelected(h, PR.LocalLogin)), bind, sendOk, debugBuild) ==
      (v.(host := Some(h), page := P.LoginTag), Idle)
    ensures var (v2, task) := OnPageResult(v, Some(PR.HostSelected(h, PR.RemoteLogin)), bind, sendOk, debugBuild);
      && v2.page == v.page && v2.host == Some(h)
      && (bind == Bound ==> v2.socket == WebserverTag && task == RemoteLoginTask(h))
      && (bind != Bound ==> v2.socket == v.socket && task.ReportLoginError?)
  {
  }

  /** A tick changes something only when it flushes and the flush fails. */
  lemma TickArm(v: AppView, kitty: bool, tickOk: bool)
    ensures OnTick(v, kitty, tickOk) != v <==> TickFlushes(v, kitty) && !tickOk && Aborted(v) != v
    ensures kitty ==> OnTick(v, kitty, tickOk) == v
  {
  }

  // ---------------------------------------------------------------------
  // The application object
  // ---------------------------------------------------------------------

  datatype WsOrWeb = Websocket(client: SC.SocketIoClient) | Webserver

  function SlotTag(s: Option<WsOrWeb>): SocketTag {
    match s
    case None => NoSocket
    case Some(Websocket(_)) => WebsocketTag
    case Some(Webserver) => WebserverTag
  }

  /** The stream a websocket slot owns. */
  function Streams(s: Option<WsOrWeb>): set<object> {
    match s
    case Some(Websocket(c)) => {c.socket}
    case _ => {}
  }

  /** Whether a write on the slot's websocket succeeds. */
  function SendOk(s: Option<WsOrWeb>): bool {
    match s
    case Some(Websocket(c)) => !c.socket.sendFails
    case _ => true
  }

  predicate StreamValid(s: Option<WsOrWeb>)
    reads Streams(s)
  {
    s.Some? && s.value.Websocket? ==> s.value.client.socket.Valid()
  }

  predicate ClientValid(msg: ChannelEvents)
    reads if msg.RoomCreated? || msg.RoomJoined? then {msg.client.socket} else {}
  {
    (msg.RoomCreated? || msg.RoomJoined?) ==> msg.client.socket.Valid()
  }

  class App {
    var host: Option<string>
    var authToken: Option<string>
    var currentPage: P.Pages
    var socket: Option<WsOrWeb>
    const kitty: bool
    const debugBuild: bool

    function View(): AppView
      reads this
    {
      AppView(P.Tag(currentPage), SlotTag(socket), host, authToken)
    }

    predicate Valid()
      reads this, P.Obj(currentPage), Streams(socket)
    {
      P.Valid(currentPage) && StreamValid(socket) && Inv(View())
    }

    /** `App::new`: the host selector, nothing else. */
    constructor (kittyProtocolSupport: bool, debug: bool)
      ensures Valid() && View() == INITIAL && kitty == kittyProtocolSupport && debugBuild == debug
      ensures currentPage.HostSelector? && currentPage.hostPage.State() == HS.HostState(HS.DefaultHost(debug), PR.LocalLogin, true, None)
    {
      host := None;
      authToken := None;
      var page := new HS.HostSelectorPage(debug);
      currentPage := P.HostSelector(page);
      socket := None;
      kitty := kittyProtocolSupport;
      debugBuild := debug;
    }

    /** `abort_game`: closes a websocket, then empties the slot and shows a
        fresh menu. */
    method AbortGame()
      requires Valid()
      modifies this, Streams(socket)
      ensures Valid() && View() == Aborted(old(View()))
      ensures currentPage.GameModeSelector? && fresh(currentPage.menuPage) && fresh(P.Obj(currentPage))
      ensures currentPage.menuPage.State() == MN.MenuState(GM.SinglePlayer, true, None)
      ensures old(socket).Some? && old(socket).value.Websocket? ==>
        old(socket).value.client.socket.closed == (old(socket.value.client.socket.closed) || !old(socket).value.client.socket.sendFails)
    {
      match socket {
        case Some(Websocket(c)) => var _ := c.Close();
        case _ =>
      }
      socket := None;
      var menu := new MN.GameModePage();
      currentPage := P.GameModeSelector(menu);
    }

    /** `render`: draws exactly when forced or when the page asks for it.
        `drawOk` is whether the terminal accepts the frame; a refused draw
        is the fatal `RenderingError`, which ends the run loop. */
    method Render(force: bool, drawOk: bool) returns (drawn: bool, fatal: bool)
      requires Valid()
      modifies P.Obj(currentPage)
      ensures Valid() && View() == old(View())
      ensures drawn == (force || old(P.NeedsUpdate(currentPage)))
      ensures fatal == (drawn && !drawOk)
      ensures !fatal ==> !P.NeedsUpdate(currentPage)
    {
      drawn := force || P.NeedsUpdate(currentPage);
      fatal := drawn && !drawOk;
      if drawn && drawOk {
        P.Render(currentPage);
      }
    }

    /** The socket arm of the run loop. */
    method OnSocketEvent(ev: Result<EV.SocketEvents, EV.EventError>)
      requires Valid()
      modifies this, P.Obj(currentPage), Streams(socket)
      ensures Valid() && View() == OnSocket(old(View()), ev)
      ensures ev.Ok? && ev.value.GameStart? ==> currentPage.Game? && currentPage.game.View() == GP.Started(ev.value.start)
      ensures ev.Ok? && ev.value.GameState? && old(currentPage).Game? ==>
        currentPage == old(currentPage) && currentPage.game.View() == GP.StateApplied(old(currentPage.game.View()), ev.value.state)
      ensures ev.Ok? && ev.value.GameOver? && old(currentPage).Game? ==>
        currentPage.GameOver? && currentPage.overPage.gameResult == GP.Outcome(old(currentPage.game.View()), ev.value.over)
    {
      match ev {
        case Ok(e) =>
          match e {
            case GameStart(x) =>
              var g := new GP.Game(x);
              currentPage := P.Game(g);
            case GameState(x) =>
              if currentPage.Game? {
                currentPage.game.Update(x);
              }
            case GameOver(x) =>
              if currentPage.Game? {
                var result := currentPage.game.GameOver(x);
                var page := new GO.GameOverPage(result);
                currentPage := P.GameOver(page);
              }
            case GameAborted(_) => AbortGame();
            case _ =>
          }
        case Err(_) => socket := None;
      }
    }

    /** The terminal arm: a key goes to the page and its result is acted
        on, then the page is drawn if it asks to be; a resize forces a
        redraw. An `Exit` leaves the loop, and a crash ends the program,
        before anything is drawn. `bind` is what binding the login web
        server would give, `drawOk` whether the terminal accepts a frame,
        and `fatal` reports a refused draw. */
    method OnTerminalEvent(e: Event, bind: BindOutcome, drawOk: bool) returns (r: Option<PR.PageResults>, task: Task, fatal: bool)
      requires Valid()
      modifies this, P.Obj(currentPage), Streams(socket)
      ensures Valid()
      ensures e.Key? ==> r.Some? ==> P.Produces(old(View()).page, r.value)
      ensures !e.Key? ==> r.None?
      ensures (View(), task) == OnPageResult(old(View()), r, bind, SendOk(old(socket)), debugBuild)
      ensures r == Some(PR.Exit) ==> task == Quit && !fatal
      ensures fatal ==> !drawOk && !task.Quit? && !task.Crash?
      ensures e.Resize? ==> fatal == !drawOk
      ensures !fatal && (e.Resize? || (e.Key? && !task.Quit? && !task.Crash?)) ==> !P.NeedsUpdate(currentPage)
    {
      r := None;
      task := Idle;
      fatal := false;
      if e.Key? {
        r := P.KeyEvent(currentPage, e);
        task := OnResult(r, bind);
        if !task.Quit? && !task.Crash? {
          var _, f := Render(false, drawOk);
          fatal := f;
        }
      } else if e.Resize? {
        var _, f := Render(true, drawOk);
        fatal := f;
      }
    }

    /** Acts on a page result (the match in the key arm). */
    method OnResult(r: Option<PR.PageResults>, bind: BindOutcome) returns (task: Task)
      requires Valid()
      modifies this, Streams(socket)
      ensures Valid()
      ensures (View(), task) == OnPageResult(old(View()), r, bind, SendOk(old(socket)), debugBuild)
      ensures currentPage == old(currentPage) || fresh(P.Obj(currentPage))
    {
      task := Idle;
      if r.None? {
        return;
      }
      var res := r.value;
      if res.HostSelected? {
        task := SelectHost(res.host, res.loginType, bind);
      } else if res.NicknameSelected? || res.Login? || res.Totp? || res.JoinRoom? {
        task := Request(res);
      } else if res.GameModeChosen? {
        task := ChooseMode(res.mode);
      } else if res.BackToMenu? || res.GameOver? {
        AbortGame();
      } else if res.UpdatePaddleMovement? || res.GamePaused? {
        Send(res);
      } else if res.Exit? {
        task := Quit;
      }
    }

    /** `HostSelected`: remember the host, then log in locally or start
        the browser login. */
    method SelectHost(h: string, loginType: PR.LoginType, bind: BindOutcome) returns (task: Task)
      requires Valid()
      modifies this
      ensures Valid()
      ensures (View(), task) == OnPageResult(old(View()), Some(PR.HostSelected(h, loginType)), bind, SendOk(old(socket)), debugBuild)
      ensures currentPage == old(currentPage) || fresh(P.Obj(currentPage))
    {
      host := Some(h);
      task := Idle;
      if loginType == PR.LocalLogin {
        var page := new LG.LoginPage();
        currentPage := P.Login(page);
      } else {
        match bind {
          case Bound =>
            socket := Some(Webserver);
            task := RemoteLoginTask(h);
          case BindFailed => task := ReportLoginError(Unknown(BIND_FAILED));
          case PortUnknown => task := ReportLoginError(Unknown(PORT_UNKNOWN));
        }
      }
    }

    /** The results that only start a background request. */
    method Request(res: PR.PageResults) returns (task: Task)
      requires res.NicknameSelected? || res.Login? || res.Totp? || res.JoinRoom?
      ensures task == OnPageResult(View(), Some(res), Bound, true, debugBuild).1
      ensures OnPageResult(View(), Some(res), Bound, true, debugBuild).0 == View()
    {
      task := Idle;
      match res {
        case NicknameSelected(n) =>
          if authToken.None? || host.None? {
            task := Crash;
          } else {
            task := SetNicknameTask(host.value, authToken.value, n);
          }
        case Login(email, password) =>
          if host.None? {
            task := Crash;
          } else {
            task := LoginTask(host.value, email, password);
          }
        case Totp(code) =>
          if host.Some? && authToken.Some? {
            task := Login2faTask(host.value, authToken.value, code);
          }
        case JoinRoom(id) =>
          if host.Some? && authToken.Some? {
            task := JoinRoomTask(Endpoint(host.value, authToken.value, debugBuild), authToken.value, id);
          }
      }
    }

    /** `GameModeChosen`. */
    method ChooseMode(mode: GM.GameMode) returns (task: Task)
      requires Valid()
      modifies this
      ensures Valid()
      ensures (View(), task) == OnPageResult(old(View()), Some(PR.GameModeChosen(mode)), Bound, true, debugBuild)
      ensures currentPage == old(currentPage) || fresh(P.Obj(currentPage))
    {
      task := Idle;
      if mode == GM.JoinRoom {
        var page := new JR.JoinRoomPage();
        currentPage := P.JoinRoom(page);
      } else if host.Some? && authToken.Some? {
        var url := Endpoint(host.value, authToken.value, debugBuild);
        task := if mode == GM.SinglePlayer then SinglePlayerTask(url, authToken.value) else CreateRoomTask(url, authToken.value);
      }
    }

    /** `UpdatePaddleMovement` and `GamePaused`: written to a websocket; a
        failed write aborts the game. */
    method Send(res: PR.PageResults)
      requires Valid() && (res.UpdatePaddleMovement? || res.GamePaused?)
      modifies this, Streams(socket)
      ensures Valid()
      ensures View() == OnPageResult(old(View()), Some(res), Bound, SendOk(old(socket)), debugBuild).0
      ensures currentPage == old(currentPage) || fresh(P.Obj(currentPage))
    {
      if socket.Some? && socket.value.Websocket? {
        var c := socket.value.client;
        var sent;
        if res.UpdatePaddleMovement? {
          sent := c.PaddleMove(res.moveP1, res.moveP2);
        } else {
          sent := c.PauseGame(res.isPaused);
        }
        if sent.Err? {
          AbortGame();
        }
      }
    }

    /** The channel arm; `browserOpens` is whether the browser accepted the
        login URL. */
    method OnChannelEvent(msg: ChannelEvents, browserOpens: bool)
      requires Valid() && ClientValid(msg)
      modifies this, P.Obj(currentPage)
      ensures Valid() && View() == OnChannel(old(View()), msg, browserOpens)
      ensures msg.LoginError? && old(currentPage).Login? ==>
        currentPage == old(currentPage) && currentPage.loginPage.State() == LG.OnError(old(currentPage.loginPage.State()), LoginErrorText(msg.error))
      ensures msg.TotpError? && old(currentPage).TotpPage? ==>
        currentPage == old(currentPage) && currentPage.totpPage.State() == TP.OnError(old(currentPage.totpPage.State()), msg.message)
      ensures msg.RoomJoinError? && old(currentPage).JoinRoom? ==>
        currentPage == old(currentPage) && currentPage.joinPage.State() == JR.OnError(old(currentPage.joinPage.State()), EventErrorText(msg.eventError))
      ensures msg.RemoteRedirectError? && old(currentPage).HostSelector? ==>
        currentPage == old(currentPage) && currentPage.hostPage.State() == HS.OnError(old(currentPage.hostPage.State()), LoginErrorText(msg.error))
      ensures msg.RemoteRedirect? && old(currentPage).HostSelector? && !browserOpens ==>
        currentPage == old(currentPage) && currentPage.hostPage.State() == HS.OnError(old(currentPage.hostPage.State()), LoginErrorText(Unknown(BROWSER_FAILED)))
      ensures msg.RoomCreated? && old(currentPage).GameModeSelector? ==> currentPage.GameLobby? && currentPage.lobbyPage.roomId == msg.roomId
    {
      if msg.TotpError? || msg.LoginError? || msg.NicknameError? || msg.RemoteRedirect? || msg.RemoteRedirectError? || msg.RoomJoinError? {
        OnChannelError(msg, browserOpens);
      } else {
        OnChannelSuccess(msg);
      }
    }

    /** The arms that report a failure on the page that asked. */
    method OnChannelError(msg: ChannelEvents, browserOpens: bool)
      requires Valid()
      requires msg.TotpError? || msg.LoginError? || msg.NicknameError? || msg.RemoteRedirect? || msg.RemoteRedirectError? || msg.RoomJoinError?
      modifies this, P.Obj(currentPage)
      ensures Valid() && View() == OnChannel(old(View()), msg, browserOpens)
      ensures msg.LoginError? && old(currentPage).Login? ==>
        currentPage == old(currentPage) && currentPage.loginPage.State() == LG.OnError(old(currentPage.loginPage.State()), LoginErrorText(msg.error))
      ensures msg.TotpError? && old(currentPage).TotpPage? ==>
        currentPage == old(currentPage) && currentPage.totpPage.State() == TP.OnError(old(currentPage.totpPage.State()), msg.message)
      ensures msg.RoomJoinError? && old(currentPage).JoinRoom? ==>
        currentPage == old(currentPage) && currentPage.joinPage.State() == JR.OnError(old(currentPage.joinPage.State()), EventErrorText(msg.eventError))
      ensures msg.RemoteRedirectError? && old(currentPage).HostSelector? ==>
        currentPage == old(currentPage) && currentPage.hostPage.State() == HS.OnError(old(currentPage.hostPage.State()), LoginErrorText(msg.error))
      ensures msg.RemoteRedirect? && old(currentPage).HostSelector? && !browserOpens ==>
        currentPage == old(currentPage) && currentPage.hostPage.State() == HS.OnError(old(currentPage.hostPage.State()), LoginErrorText(Unknown(BROWSER_FAILED)))
    {
      match msg {
        case TotpError(m) =>
          if currentPage.TotpPage? {
            currentPage.totpPage.TotpError(m);
          }
        case LoginError(err) =>
          if currentPage.Login? {
            currentPage.loginPage.LoginError(LoginErrorText(err));
          }
        case NicknameError(_) =>
        case RemoteRedirect(_) =>
          if currentPage.HostSelector? && !browserOpens {
            currentPage.hostPage.HostError(LoginErrorText(Unknown(BROWSER_FAILED)));
            socket := None;
          }
        case RemoteRedirectError(err) =>
          if currentPage.HostSelector? {
            currentPage.hostPage.HostError(LoginErrorText(err));
            socket := None;
          }
        case RoomJoinError(err) =>
          if currentPage.JoinRoom? {
            currentPage.joinPage.JoinError(EventErrorText(err));
          }
      }
    }

    /** The arms that move on: a signed-in user, a room entered. */
    method OnChannelSuccess(msg: ChannelEvents)
      requires Valid() && ClientValid(msg)
      requires !(msg.TotpError? || msg.LoginError? || msg.NicknameError? || msg.RemoteRedirect? || msg.RemoteRedirectError? || msg.RoomJoinError?)
      modifies this
      ensures Valid() && View() == OnChannel(old(View()), msg, true)
      ensures msg.RoomCreated? && old(currentPage).GameModeSelector? ==> currentPage.GameLobby? && currentPage.lobbyPage.roomId == msg.roomId
    {
      match msg {
        case LoginSuccess(h, t) =>
          authToken := Some(t);
          host := Some(h);
          var page := new MN.GameModePage();
          currentPage := P.GameModeSelector(page);
        case TotpRequired(h, t) =>
          authToken := Some(t);
          host := Some(h);
          var page := new TP.TotpPage();
          currentPage := P.TotpPage(page);
        case TotpSuccess(t) =>
          authToken := Some(t);
          var page := new MN.GameModePage();
          currentPage := P.GameModeSelector(page);
        case RemoteRedirectCallback(t, nicknameRequired) =>
          if currentPage.HostSelector? {
            authToken := Some(t);
            socket := None;
            if nicknameRequired {
              currentPage := P.NicknameSelector;
            } else {
              var page := new MN.GameModePage();
              currentPage := P.GameModeSelector(page);
            }
          }
        case RoomCreated(c, roomId) =>
          if currentPage.GameModeSelector? {
            socket := Some(Websocket(c));
            var page := new LB.GameLobbyPage(roomId);
            currentPage := P.GameLobby(page);
          }
        case RoomJoined(c) =>
          socket := Some(Websocket(c));
      }
    }

    /** The timer arm; `tickOk` is whether the game's tick succeeded,
        `drawOk` whether the terminal accepts a frame, and `fatal` reports
        a refused draw. */
    method OnTimerTick(tickOk: bool, drawOk: bool) returns (fatal: bool)
      requires Valid()
      modifies this, P.Obj(currentPage), Streams(socket)
      ensures Valid() && View() == OnTick(old(View()), kitty, tickOk)
      ensures fatal ==> !drawOk
      ensures !fatal ==> !P.NeedsUpdate(currentPage)
    {
      if !kitty && currentPage.Game? && socket.Some? && socket.value.Websocket? && !tickOk {
        AbortGame();
      }
      var _, f := Render(false, drawOk);
      fatal := f;
    }
  }
}
