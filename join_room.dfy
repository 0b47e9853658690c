/** The page where a player types the six-character id of a room to join. */
module JoinRoomInput {
  import opened Wrappers
  import opened Keys
  import opened PageResult

  const ROOM_ID_LENGTH: nat := 6

  datatype JoinRoomState = JoinRoomState(input: string, needsUpdate: bool, errorMessage: Option<string>)

  /** An upper-case ASCII letter or a digit. */
  predicate RoomIdChar(c: char) {
    IsAsciiDigit(c) || IsAsciiUpper(c)
  }

  /** The input is at most six upper-case alphanumerics. */
  predicate Inv(s: JoinRoomState) {
    |s.input| <= ROOM_ID_LENGTH && forall i | 0 <= i < |s.input| :: RoomIdChar(s.input[i])
  }

  /** `key_event`: letters are stored upper-cased. */
  function OnKey(s: JoinRoomState, e: Event): (JoinRoomState, Option<PageResults>) {
    match e
    case Key(Esc) => (s, Some(BackToMenu))
    case Key(Char(c)) =>
      if |s.input| < ROOM_ID_LENGTH && IsAsciiAlphanumeric(c) then
        (s.(input := s.input + [ToAsciiUppercase(c)], needsUpdate := true), None)
      else (s, None)
    case Key(Backspace) => (s.(input := Backspaced(s.input), needsUpdate := true), None)
    case Key(Enter) => (s, if |s.input| == ROOM_ID_LENGTH then Some(JoinRoom(s.input)) else None)
    case _ => (s, None)
  }

  /** `join_error`: the message is shown and the input cleared. */
  function OnError(s: JoinRoomState, message: string): JoinRoomState {
    s.(errorMessage := Some(message), needsUpdate := true, input := [])
  }

  lemma KeyKeepsInputWellFormed(s: JoinRoomState, e: Event)
    requires Inv(s)
    ensures Inv(OnKey(s, e).0)
  {
  }

  /** Every room id the page submits is six upper-case alphanumerics, and
      Enter submits exactly when the input is complete. */
  lemma SubmittedRoomId(s: JoinRoomState, e: Event)
    requires Inv(s)
    ensures OnKey(s, e).1.Some? && OnKey(s, e).1.value.JoinRoom? <==> e == Key(Enter) && |s.input| == ROOM_ID_LENGTH
    ensures OnKey(s, e).1.Some? && OnKey(s, e).1.value.JoinRoom? ==>
      var id := OnKey(s, e).1.value.roomId;
      id == s.input && |id| == ROOM_ID_LENGTH && forall i | 0 <= i < |id| :: RoomIdChar(id[i])
  {
  }

  /** Typing a lower-case letter stores its capital. */
  lemma LowerCaseStoredUpper(s: JoinRoomState, c: char)
    requires |s.input| < ROOM_ID_LENGTH && 'a' <= c <= 'z'
    ensures OnKey(s, Key(Char(c))).0.input == s.input + [(c as int - 32) as char]
  {
  }

  class JoinRoomPage {
    var input: string
    var needsUpdate: bool
    var errorMessage: Option<string>

    function State(): JoinRoomState
      reads this
    {
      JoinRoomState(input, needsUpdate, errorMessage)
    }

    predicate Valid()
      reads this
    {
      Inv(State())
    }

    constructor ()
      ensures Valid() && State() == JoinRoomState([], true, None)
    {
      input := [];
      needsUpdate := true;
      errorMessage := None;
    }

    method KeyEvent(e: Event) returns (r: Option<PageResults>)
      requires Valid()
      modifies this
      ensures Valid()
      ensures (State(), r) == OnKey(old(State()), e)
    {
      r := None;
      match e {
        case Key(k) =>
          match k {
            case Esc => return Some(BackToMenu);
            case Char(c) =>
              if |input| < ROOM_ID_LENGTH && IsAsciiAlphanumeric(c) {
                input := input + [ToAsciiUppercase(c)];
                needsUpdate := true;
              }
            case Backspace =>
              input := Backspaced(input);
              needsUpdate := true;
            case Enter =>
              if |input| == ROOM_ID_LENGTH {
                return Some(JoinRoom(input));
              }
            case _ =>
          }
        case _ =>
      }
    }

    method JoinError(message: string)
      modifies this
      ensures Valid() && State() == OnError(old(State()), message)
    {
      errorMessage := Some(message);
      needsUpdate := true;
      input := [];
    }

    method Render()
      modifies this
      ensures State() == old(State()).(needsUpdate := false)
    {
      needsUpdate := false;
    }
  }
}
