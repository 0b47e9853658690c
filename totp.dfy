/** The page that asks for the six-digit second factor. */
module Totp {
  import opened Wrappers
  import opened Keys
  import opened PageResult

  const CODE_LENGTH: nat := 6
  const TOO_SHORT: string := "2FA code too short"

  datatype TotpState = TotpState(code: string, needsUpdate: bool, errorMessage: Option<string>)

  /** The code is at most six ASCII digits. */
  predicate Inv(s: TotpState) {
    |s.code| <= CODE_LENGTH && forall i | 0 <= i < |s.code| :: IsAsciiDigit(s.code[i])
  }

  /** `key_event`: the new state and the result. */
  function OnKey(s: TotpState, e: Event): (TotpState, Option<PageResults>) {
    match e
    case Key(Esc) => (s, Some(Exit))
    case Key(Char(c)) =>
      if |s.code| < CODE_LENGTH && IsAsciiDigit(c) then (s.(code := s.code + [c], needsUpdate := true), None)
      else (s, None)
    case Key(Backspace) => (s.(code := Backspaced(s.code), needsUpdate := true), None)
    case Key(Enter) =>
      if |s.code| != CODE_LENGTH then (s.(errorMessage := Some(TOO_SHORT), needsUpdate := true), None)
      else (s, Some(Totp(s.code)))
    case _ => (s, None)
  }

  /** `totp_error`: the code is cleared and the message shown. */
  function OnError(s: TotpState, message: string): TotpState {
    s.(code := [], needsUpdate := true, errorMessage := Some(message))
  }

  /** The code never holds more than six digits. */
  lemma KeyKeepsCodeBounded(s: TotpState, e: Event)
    requires Inv(s)
    ensures Inv(OnKey(s, e).0)
  {
  }

  /** Enter submits exactly a full code, and a refused Enter really had a
      code that was too short (it can never be too long). */
  lemma EnterOutcome(s: TotpState)
    requires Inv(s)
    ensures OnKey(s, Key(Enter)).1.Some? <==> |s.code| == CODE_LENGTH
    ensures OnKey(s, Key(Enter)).1.Some? ==> OnKey(s, Key(Enter)).1 == Some(Totp(s.code))
    ensures OnKey(s, Key(Enter)).0.errorMessage == Some(TOO_SHORT) && s.errorMessage != Some(TOO_SHORT) ==> |s.code| < CODE_LENGTH
  {
  }

  /** Every submitted code is six ASCII digits. */
  lemma SubmittedCodeIsSixDigits(s: TotpState, e: Event)
    requires Inv(s) && OnKey(s, e).1.Some? && OnKey(s, e).1.value.Totp?
    ensures var code := OnKey(s, e).1.value.code;
      |code| == CODE_LENGTH && forall i | 0 <= i < |code| :: IsAsciiDigit(code[i])
  {
  }

  class TotpPage {
    var code: string
    var needsUpdate: bool
    var errorMessage: Option<string>

    function State(): TotpState
      reads this
    {
      TotpState(code, needsUpdate, errorMessage)
    }

    predicate Valid()
      reads this
    {
      Inv(State())
    }

    constructor ()
      ensures Valid() && State() == TotpState([], true, None)
    {
      code := [];
      needsUpdate := true;
      errorMessage := None;
    }

    method KeyEvent(e: Event) returns (r: Option<PageResults>)
      requires Valid()
      modifies this
      ensures Valid()
      ensures (State(), r) == OnKey(old(State()), e)
    {
      r := None;
      match e {
        case Key(k) =>
          match k {
            case Esc => return Some(Exit);
            case Char(c) =>
              if |code| < CODE_LENGTH && IsAsciiDigit(c) {
                code := code + [c];
                needsUpdate := true;
              }
            case Backspace =>
              code := Backspaced(code);
              needsUpdate := true;
            case Enter =>
              if |code| != CODE_LENGTH {
                errorMessage := Some(TOO_SHORT);
                needsUpdate := true;
                return None;
              }
              return Some(Totp(code));
            case _ =>
          }
        case _ =>
      }
    }

    method TotpError(message: string)
      modifies this
      ensures Valid() && State() == OnError(old(State()), message)
    {
      code := [];
      needsUpdate := true;
      errorMessage := Some(message);
    }

    method Render()
      modifies this
      ensures State() == old(State()).(needsUpdate := false)
    {
      needsUpdate := false;
    }
  }
}
