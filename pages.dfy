/** The CLI's page union: which page is on screen, and the delegation of
    key events, drawing and the redraw flag to exactly that page. */
module Pages {
  import opened Wrappers
  import opened Keys
  import PR = PageResult
  import HS = HostSelector
  import LG = Login
  import TP = Totp
  import MN = GameModeMenu
  import JR = JoinRoomInput
  import LB = GameLobby
  import GP = GamePage
  import GO = GameOverScreen

  /** `Pages`. The nickname page is a bare tag: its source is not part of
      this model. */
  datatype Pages =
    | HostSelector(hostPage: HS.HostSelectorPage)
    | NicknameSelector
    | Login(loginPage: LG.LoginPage)
    | TotpPage(totpPage: TP.TotpPage)
    | GameModeSelector(menuPage: MN.GameModePage)
    | JoinRoom(joinPage: JR.JoinRoomPage)
    | GameLobby(lobbyPage: LB.GameLobbyPage)
    | Game(game: GP.Game)
    | GameOver(overPage: GO.GameOverPage)

  /** Which page is active, without its contents. */
  datatype PageTag =
    | HostSelectorTag | NicknameSelectorTag | LoginTag | TotpTag | GameModeSelectorTag
    | JoinRoomTag | GameLobbyTag | GameTag | GameOverTag

  function Tag(p: Pages): PageTag {
    match p
    case HostSelector(_) => HostSelectorTag
    case NicknameSelector => NicknameSelectorTag
    case Login(_) => LoginTag
    case TotpPage(_) => TotpTag
    case GameModeSelector(_) => GameModeSelectorTag
    case JoinRoom(_) => JoinRoomTag
    case GameLobby(_) => GameLobbyTag
    case Game(_) => GameTag
    case GameOver(_) => GameOverTag
  }

  /** The active page object; the only thing a delegated call may change. */
  function Obj(p: Pages): set<object> {
    match p
    case HostSelector(q) => {q}
    case NicknameSelector => {}
    case Login(q) => {q}
    case TotpPage(q) => {q}
    case GameModeSelector(q) => {q}
    case JoinRoom(q) => {q}
    case GameLobby(q) => {q}
    case Game(q) => {q}
    case GameOver(q) => {q}
  }

  /** The active page's own invariant. */
  predicate Valid(p: Pages)
    reads Obj(p)
  {
    match p
    case HostSelector(q) => q.Valid()
    case Login(q) => q.Valid()
    case TotpPage(q) => q.Valid()
    case JoinRoom(q) => q.Valid()
    case _ => true
  }

  /** `needs_update`: the active page's flag. */
  function NeedsUpdate(p: Pages): bool
    reads Obj(p)
  {
    match p
    case HostSelector(q) => q.needsUpdate
    case NicknameSelector => false
    case Login(q) => q.needsUpdate
    case TotpPage(q) => q.needsUpdate
    case GameModeSelector(q) => q.needsUpdate
    case JoinRoom(q) => q.needsUpdate
    case GameLobby(q) => q.needsUpdate
    case Game(q) => q.needsUpdate
    case GameOver(q) => q.needsUpdate
  }

  /** The results each page can hand to the application. */
  predicate Produces(t: PageTag, r: PR.PageResults) {
    match t
    case HostSelectorTag => r.Exit? || r.HostSelected?
    case NicknameSelectorTag => false
    case LoginTag => r.Exit? || r.Login?
    case TotpTag => r.Exit? || r.Totp?
    case GameModeSelectorTag => r.Exit? || r.GameModeChosen?
    case JoinRoomTag => r.BackToMenu? || r.JoinRoom?
    case GameLobbyTag => r == PR.BackToMenu
    case GameTag => r.BackToMenu? || r.UpdatePosition?
    case GameOverTag => r == PR.GameOver
  }

  /** `key_event`: delegated to the active page only, its result returned
      unchanged. */
  method KeyEvent(p: Pages, e: Event) returns (r: Option<PR.PageResults>)
    requires Valid(p)
    modifies Obj(p)
    ensures Valid(p)
    ensures r.Some? ==> Produces(Tag(p), r.value)
    ensures p.HostSelector? ==> (p.hostPage.State(), r) == HS.OnKey(old(p.hostPage.State()), e)
    ensures p.NicknameSelector? ==> r.None?
    ensures p.Login? ==> (p.loginPage.State(), r) == LG.OnKey(old(p.loginPage.State()), e)
    ensures p.TotpPage? ==> (p.totpPage.State(), r) == TP.OnKey(old(p.totpPage.State()), e)
    ensures p.GameModeSelector? ==> (p.menuPage.State(), r) == MN.OnKey(old(p.menuPage.State()), e)
    ensures p.JoinRoom? ==> (p.joinPage.State(), r) == JR.OnKey(old(p.joinPage.State()), e)
    ensures p.GameLobby? ==> r == (if e == Key(Esc) then Some(PR.BackToMenu) else None)
    ensures p.Game? ==> (p.game.View(), r) == GP.OnKey(old(p.game.View()), e)
    ensures p.GameOver? ==> r == (if e in {Key(Esc), Key(Enter)} then Some(PR.GameOver) else None)
  {
    match p {
      case HostSelector(q) => r := q.KeyEvent(e);
      case NicknameSelector => r := None;
      case Login(q) => r := q.KeyEvent(e);
      case TotpPage(q) => r := q.KeyEvent(e);
      case GameModeSelector(q) => r := q.KeyEvent(e);
      case JoinRoom(q) => r := q.KeyEvent(e);
      case GameLobby(q) => r := q.KeyEvent(e);
      case Game(q) => r := q.KeyEvent(e);
      case GameOver(q) => r := q.KeyEvent(e);
    }
  }

  /** `render`: draws the active page, which clears only its redraw flag. */
  method Render(p: Pages)
    requires Valid(p)
    modifies Obj(p)
    ensures Valid(p) && !NeedsUpdate(p)
    ensures p.HostSelector? ==> p.hostPage.State() == old(p.hostPage.State()).(needsUpdate := false)
    ensures p.Login? ==> p.loginPage.State() == old(p.loginPage.State()).(needsUpdate := false)
    ensures p.TotpPage? ==> p.totpPage.State() == old(p.totpPage.State()).(needsUpdate := false)
    ensures p.GameModeSelector? ==> p.menuPage.State() == old(p.menuPage.State()).(needsUpdate := false)
    ensures p.JoinRoom? ==> p.joinPage.State() == old(p.joinPage.State()).(needsUpdate := false)
    ensures p.Game? ==> p.game.View() == old(p.game.View()).(needsUpdate := false)
  {
    match p {
      case HostSelector(q) => q.Render();
      case NicknameSelector =>
      case Login(q) => q.Render();
      case TotpPage(q) => q.Render();
      case GameModeSelector(q) => q.Render();
      case JoinRoom(q) => q.Render();
      case GameLobby(q) => q.Render();
      case Game(q) => q.Render();
      case GameOver(q) => q.Render();
    }
  }
}
