/** The e-mail/password login page. */
module Login {
  import opened Wrappers
  import opened Keys
  import opened PageResult

  /** Longest e-mail or password the page accepts. */
  const MAX_FIELD: nat := 32

  datatype Field = Email | Password

  function Other(f: Field): Field {
    if f == Email then Password else Email
  }

  /** The page's fields as a value. */
  datatype LoginState = LoginState(
    email: string, password: string, selected: Field, needsUpdate: bool, errorMessage: Option<string>)

  /** Each field holds at most 32 ASCII graphic characters. */
  predicate FieldOk(s: string) {
    |s| <= MAX_FIELD && AllAsciiGraphic(s)
  }

  predicate Inv(s: LoginState) {
    FieldOk(s.email) && FieldOk(s.password)
  }

  function Focused(s: LoginState): string {
    if s.selected == Email then s.email else s.password
  }

  /** `s` with the focused field replaced by `v`. */
  function WithFocused(s: LoginState, v: string): LoginState {
    if s.selected == Email then s.(email := v) else s.(password := v)
  }

  /** `key_event`: the new state and the result. */
  function OnKey(s: LoginState, e: Event): (LoginState, Option<PageResults>) {
    match e
    case Key(Esc) => (s, Some(Exit))
    case Key(Char(c)) =>
      if |Focused(s)| < MAX_FIELD && IsAsciiGraphic(c) then (WithFocused(s, Focused(s) + [c]).(needsUpdate := true), None)
      else (s, None)
    case Key(Backspace) => (WithFocused(s, Backspaced(Focused(s))).(needsUpdate := true), None)
    case Key(Tab) => (s.(selected := Other(s.selected), needsUpdate := true), None)
    case Key(Enter) =>
      if s.selected == Email then (s.(selected := Password, needsUpdate := true), None)
      else (s, Some(Login(s.email, s.password)))
    case _ => (s, None)
  }

  /** `login_error`: the password is cleared and focused, the message shown. */
  function OnError(s: LoginState, message: string): LoginState {
    s.(password := [], selected := Password, needsUpdate := true, errorMessage := Some(message))
  }

  // ---------------------------------------------------------------------
  // Properties
  // ---------------------------------------------------------------------

  /** Neither field ever exceeds 32 ASCII graphic characters. */
  lemma KeyKeepsFieldsBounded(s: LoginState, e: Event)
    requires Inv(s)
    ensures Inv(OnKey(s, e).0)
  {
  }

  /** A key changes at most the focused field: the other one is kept. */
  lemma OtherFieldKept(s: LoginState, e: Event)
    ensures s.selected == Email ==> OnKey(s, e).0.password == s.password
    ensures s.selected == Password ==> OnKey(s, e).0.email == s.email
  {
  }

  /** Only Enter on the password field submits, and it submits exactly the
      two fields; Esc exits; nothing else produces a result. */
  lemma KeyResults(s: LoginState, e: Event)
    ensures OnKey(s, e).1 == Some(Exit) <==> e == Key(Esc)
    ensures OnKey(s, e).1.Some? && OnKey(s, e).1 != Some(Exit) <==> e == Key(Enter) && s.selected == Password
    ensures e == Key(Enter) && s.selected == Password ==> OnKey(s, e).1 == Some(Login(s.email, s.password))
  {
  }

  /** Tab twice gives back the focus it started with. */
  lemma TabTwice(s: LoginState)
    ensures OnKey(OnKey(s, Key(Tab)).0, Key(Tab)).0.selected == s.selected
  {
  }

  /** After an error, typing goes to an empty password field. */
  lemma ErrorThenType(s: LoginState, message: string, c: char)
    requires IsAsciiGraphic(c)
    ensures OnKey(OnError(s, message), Key(Char(c))).0.password == [c]
  {
  }

  // ---------------------------------------------------------------------
  // The page object
  // ---------------------------------------------------------------------

  class LoginPage {
    var email: string
    var password: string
    var selected: Field
    var needsUpdate: bool
    var errorMessage: Option<string>

    function State(): LoginState
      reads this
    {
      LoginState(email, password, selected, needsUpdate, errorMessage)
    }

    predicate Valid()
      reads this
    {
      Inv(State())
    }

    /** `LoginPage::new`: empty fields, e-mail focused, to be drawn. */
    constructor ()
      ensures Valid() && State() == LoginState([], [], Email, true, None)
    {
      email := [];
      password := [];
      selected := Email;
      needsUpdate := true;
      errorMessage := None;
    }

    method FocusOtherWidget()
      modifies this
      ensures State() == old(State()).(selected := Other(old(selected)), needsUpdate := true)
    {
      needsUpdate := true;
      selected := Other(selected);
    }

    method KeyEvent(e: Event) returns (r: Option<PageResults>)
      requires Valid()
      modifies this
      ensures Valid()
      ensures (State(), r) == OnKey(old(State()), e)
    {
      r := None;
      match e {
        case Key(code) =>
          match code {
            case Esc => return Some(Exit);
            case Char(c) =>
              var current := if selected == Email then email else password;
              if |current| < MAX_FIELD && IsAsciiGraphic(c) {
                if selected == Email { email := email + [c]; } else { password := password + [c]; }
                needsUpdate := true;
              }
            case Backspace =>
              if selected == Email { email := Backspaced(email); } else { password := Backspaced(password); }
              needsUpdate := true;
            case Tab => FocusOtherWidget();
            case Enter =>
              if selected == Email {
                FocusOtherWidget();
              } else {
                return Some(Login(email, password));
              }
            case _ =>
          }
        case _ =>
      }
    }

    method LoginError(message: string)
      requires Valid()
      modifies this
      ensures Valid() && State() == OnError(old(State()), message)
    {
      password := [];
      selected := Password;
      needsUpdate := true;
      errorMessage := Some(message);
    }

    /** What `render` changes: the page no longer needs drawing. */
    method Render()
      modifies this
      ensures State() == old(State()).(needsUpdate := false)
    {
      needsUpdate := false;
    }

    function NeedsUpdate(): bool
      reads this
    {
      needsUpdate
    }
  }
}
