/** The game modes offered after login, and the closed set of outcomes a
    page hands to the application. */
module GameModes {
  datatype GameMode = SinglePlayer | CreateRoom | JoinRoom

  /** Tab: cycles SinglePlayer, CreateRoom, JoinRoom and back. */
  function Toggle(m: GameMode): GameMode {
    match m
    case SinglePlayer => CreateRoom
    case CreateRoom => JoinRoom
    case JoinRoom => SinglePlayer
  }

  /** Up: one step towards SinglePlayer, staying there. */
  function Prev(m: GameMode): GameMode {
    match m
    case JoinRoom => CreateRoom
    case _ => SinglePlayer
  }

  /** Down: one step towards JoinRoom, staying there. */
  function Next(m: GameMode): GameMode {
    match m
    case SinglePlayer => CreateRoom
    case _ => JoinRoom
  }

  /** The position of a mode in the menu, top first. */
  function Index(m: GameMode): (i: nat)
    ensures i < 3
  {
    match m
    case SinglePlayer => 0
    case CreateRoom => 1
    case JoinRoom => 2
  }

  /** Tab moves one place down the menu, wrapping at the bottom; three Tabs
      are the identity. */
  lemma ToggleCycles(m: GameMode)
    ensures Index(Toggle(m)) == (Index(m) + 1) % 3
    ensures Toggle(Toggle(Toggle(m))) == m
  {
  }

  /** Up and Down move one place and saturate at the ends of the menu. */
  lemma PrevNextSaturate(m: GameMode)
    ensures Index(Prev(m)) == if Index(m) == 0 then 0 else Index(m) - 1
    ensures Index(Next(m)) == if Index(m) == 2 then 2 else Index(m) + 1
    ensures Prev(Next(m)) == (if m == JoinRoom then CreateRoom else m)
    ensures Next(Prev(m)) == (if m == SinglePlayer then CreateRoom else m)
  {
  }
}

module PageResult {
  import opened GameModes
  import opened Events

  /** How the user logs in on the chosen host. */
  datatype LoginType = LocalLogin | RemoteLogin

  /** `PageResults`: what a key event on a page asks the application to do. */
  datatype PageResults =
    | HostSelected(host: string, loginType: LoginType)
    | NicknameSelected(nickname: string)
    | Login(email: string, password: string)
    | Totp(code: string)
    | GameModeChosen(mode: GameMode)
    | BackToMenu
    | GameOver
    | JoinRoom(roomId: string)
    | UpdatePosition(pos: real)
    | UpdatePaddleMovement(moveP1: PaddleMoveDirection, moveP2: PaddleMoveDirection)
    | GamePaused(isPaused: bool)
    | Exit
}
