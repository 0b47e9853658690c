/** The menu page that picks a game mode. */
module GameModeMenu {
  import opened Wrappers
  import opened Keys
  import opened GameModes
  import opened PageResult

  datatype MenuState = MenuState(selection: GameMode, needsUpdate: bool, errorMessage: Option<string>)

  /** `key_event`: Tab, Up and Down move the selection (and always ask for a
      redraw), Enter chooses it, Esc exits. */
  function OnKey(s: MenuState, e: Event): (MenuState, Option<PageResults>) {
    match e
    case Key(Esc) => (s, Some(Exit))
    case Key(Tab) => (s.(selection := Toggle(s.selection), needsUpdate := true), None)
    case Key(Up) => (s.(selection := Prev(s.selection), needsUpdate := true), None)
    case Key(Down) => (s.(selection := Next(s.selection), needsUpdate := true), None)
    case Key(Enter) => (s, Some(GameModeChosen(s.selection)))
    case _ => (s, None)
  }

  /** Every focus change asks for a redraw, even one that keeps the
      selection; other keys change nothing. */
  lemma FocusKeysRedraw(s: MenuState, e: Event)
    ensures e in {Key(Tab), Key(Up), Key(Down)} ==> OnKey(s, e).0.needsUpdate && OnKey(s, e).1.None?
    ensures !(e in {Key(Tab), Key(Up), Key(Down)}) ==> OnKey(s, e).0 == s
  {
  }

  /** Enter chooses what is highlighted. */
  lemma EnterChoosesSelection(s: MenuState)
    ensures OnKey(s, Key(Enter)).1 == Some(GameModeChosen(s.selection))
  {
  }

  /** From the start, Down twice reaches JoinRoom and a further Down stays. */
  lemma DownReachesJoinRoom(s: MenuState)
    requires s.selection == GameMode.SinglePlayer
    ensures var s2 := OnKey(OnKey(s, Key(Down)).0, Key(Down)).0;
      s2.selection == GameMode.JoinRoom && OnKey(s2, Key(Down)).0.selection == GameMode.JoinRoom
  {
  }

  class GameModePage {
    var selection: GameMode
    var needsUpdate: bool
    var errorMessage: Option<string>

    function State(): MenuState
      reads this
    {
      MenuState(selection, needsUpdate, errorMessage)
    }

    /** `GameModePage::new`: SinglePlayer highlighted. */
    constructor ()
      ensures State() == MenuState(GameMode.SinglePlayer, true, None)
    {
      selection := GameMode.SinglePlayer;
      needsUpdate := true;
      errorMessage := None;
    }

    method FocusWidget(mode: GameMode)
      modifies this
      ensures State() == old(State()).(selection := mode, needsUpdate := true)
    {
      needsUpdate := true;
      selection := mode;
    }

    method KeyEvent(e: Event) returns (r: Option<PageResults>)
      modifies this
      ensures (State(), r) == OnKey(old(State()), e)
    {
      r := None;
      match e {
        case Key(k) =>
          match k {
            case Esc => return Some(Exit);
            case Tab => FocusWidget(Toggle(selection));
            case Up => FocusWidget(Prev(selection));
            case Down => FocusWidget(Next(selection));
            case Enter => return Some(GameModeChosen(selection));
            case _ =>
          }
        case _ =>
      }
    }

    method Render()
      modifies this
      ensures State() == old(State()).(needsUpdate := false)
    {
      needsUpdate := false;
    }
  }
}

/** The page shown while waiting in a created room. */
module GameLobby {
  import opened Wrappers
  import opened Keys
  import opened PageResult

  class GameLobbyPage {
    /** The room id never changes once the page exists. */
    const roomId: string
    var needsUpdate: bool

    constructor (id: string)
      ensures roomId == id && needsUpdate
    {
      roomId := id;
      needsUpdate := true;
    }

    /** `key_event`: Esc goes back to the menu; nothing is changed. */
    method KeyEvent(e: Event) returns (r: Option<PageResults>)
      ensures r == if e == Key(Esc) then Some(BackToMenu) else None
    {
      r := if e == Key(Esc) then Some(BackToMenu) else None;
    }

    method Render()
      modifies this
      ensures !needsUpdate
    {
      needsUpdate := false;
    }
  }
}
