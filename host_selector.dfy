/** The first page: which server to use, and whether to log in locally or
    through the browser. */
module HostSelector {
  import opened Wrappers
  import opened Keys
  import opened PageResult

  const MAX_HOST: nat := 32
  const EMPTY_HOST: string := "Host can't be empty"

  /** The host a debug build proposes, and the one a release build does. */
  const DEBUG_HOST: string := "localhost"
  const RELEASE_HOST: string := "ft-transcendence.at"

  function DefaultHost(debugBuild: bool): string {
    if debugBuild then DEBUG_HOST else RELEASE_HOST
  }

  datatype HostState = HostState(host: string, selected: LoginType, needsUpdate: bool, errorMessage: Option<string>)

  predicate Inv(s: HostState) {
    |s.host| <= MAX_HOST && AllAsciiGraphic(s.host)
  }

  function OtherLogin(t: LoginType): LoginType {
    if t == LocalLogin then RemoteLogin else LocalLogin
  }

  /** `key_event`: the new state and the result. */
  function OnKey(s: HostState, e: Event): (HostState, Option<PageResults>) {
    match e
    case Key(Esc) => (s, Some(Exit))
    case Key(Char(c)) =>
      if |s.host| < MAX_HOST && IsAsciiGraphic(c) then (s.(host := s.host + [c], needsUpdate := true), None)
      else (s, None)
    case Key(Backspace) => (s.(host := Backspaced(s.host), needsUpdate := true), None)
    case Key(Tab) => (s.(selected := OtherLogin(s.selected), needsUpdate := true), None)
    case Key(Up) => (s.(selected := LocalLogin, needsUpdate := true), None)
    case Key(Down) => (s.(selected := RemoteLogin, needsUpdate := true), None)
    case Key(Enter) =>
      if |s.host| == 0 then (s.(errorMessage := Some(EMPTY_HOST), needsUpdate := true), None)
      else (s, Some(HostSelected(s.host, s.selected)))
    case _ => (s, None)
  }

  /** `host_error`: the message is shown. */
  function OnError(s: HostState, message: string): HostState {
    s.(needsUpdate := true, errorMessage := Some(message))
  }

  /** Both proposed hosts satisfy the page's own input rule. */
  lemma DefaultHostsValid(debugBuild: bool)
    ensures Inv(HostState(DefaultHost(debugBuild), LocalLogin, true, None))
  {
  }

  lemma KeyKeepsHostBounded(s: HostState, e: Event)
    requires Inv(s)
    ensures Inv(OnKey(s, e).0)
  {
  }

  /** Enter selects the host with the highlighted login type exactly when
      the host is not empty; an empty host only shows the error. */
  lemma EnterOutcome(s: HostState)
    ensures |s.host| > 0 ==> OnKey(s, Key(Enter)) == (s, Some(HostSelected(s.host, s.selected)))
    ensures |s.host| == 0 ==> OnKey(s, Key(Enter)).1.None? && OnKey(s, Key(Enter)).0.errorMessage == Some(EMPTY_HOST)
  {
  }

  /** Up and Down select a login type outright; Tab twice is no change of
      selection. */
  lemma SelectionKeys(s: HostState)
    ensures OnKey(s, Key(Up)).0.selected == LocalLogin && OnKey(s, Key(Down)).0.selected == RemoteLogin
    ensures OnKey(OnKey(s, Key(Tab)).0, Key(Tab)).0.selected == s.selected
  {
  }

  class HostSelectorPage {
    var host: string
    var selected: LoginType
    var needsUpdate: bool
    var errorMessage: Option<string>

    function State(): HostState
      reads this
    {
      HostState(host, selected, needsUpdate, errorMessage)
    }

    predicate Valid()
      reads this
    {
      Inv(State())
    }

    /** `HostSelectorPage::new`, in a debug or a release build. */
    constructor (debugBuild: bool)
      ensures Valid() && State() == HostState(DefaultHost(debugBuild), LocalLogin, true, None)
    {
      DefaultHostsValid(debugBuild);
      host := DefaultHost(debugBuild);
      selected := LocalLogin;
      needsUpdate := true;
      errorMessage := None;
    }

    method FocusOtherWidget()
      modifies this
      ensures State() == old(State()).(selected := OtherLogin(old(selected)), needsUpdate := true)
    {
      needsUpdate := true;
      selected := OtherLogin(selected);
    }

    method KeyEvent(e: Event) returns (r: Option<PageResults>)
      requires Valid()
      modifies this
      ensures Valid()
      ensures (State(), r) == OnKey(old(State()), e)
    {
      r := None;
      match e {
        case Key(k) =>
          match k {
            case Esc => return Some(Exit);
            case Char(c) =>
              if |host| < MAX_HOST && IsAsciiGraphic(c) {
                host := host + [c];
                needsUpdate := true;
              }
            case Backspace =>
              host := Backspaced(host);
              needsUpdate := true;
            case Tab => FocusOtherWidget();
            case Up =>
              selected := LocalLogin;
              needsUpdate := true;
            case Down =>
              selected := RemoteLogin;
              needsUpdate := true;
            case Enter =>
              if |host| == 0 {
                errorMessage := Some(EMPTY_HOST);
                needsUpdate := true;
                return None;
              }
              return Some(HostSelected(host, selected));
            case _ =>
          }
        case _ =>
      }
    }

    method HostError(message: string)
      requires Valid()
      modifies this
      ensures Valid() && State() == OnError(old(State()), message)
    {
      needsUpdate := true;
      errorMessage := Some(message);
    }

    method Render()
      modifies this
      ensures State() == old(State()).(needsUpdate := false)
    {
      needsUpdate := false;
    }
  }
}
