/** The CLI's paddle debouncer: a terminal without key-release events only
    sees repeated key presses, so a movement counts as stopped when no
    press has arrived for a while. A first press waits up to 500 ms for the
    key repeat to start; a repeated press is stopped after 30 ms of silence.

    The clock is passed in: `now` is the current instant in milliseconds. */
module PaddleMovement {
  import opened Wrappers
  import opened Events

  /** Milliseconds until a movement whose key repeat never started stops. */
  const FIRST_KEYSTROKE_TIMEOUT: nat := 500
  /** Milliseconds of silence after which a repeating key counts as released. */
  const REPEAT_TIMEOUT: nat := 30

  /** The debouncer's fields as a value. */
  datatype MovementState = MovementState(direction: PaddleMoveDirection, firstKeystroke: bool, since: Option<nat>)

  const IDLE := MovementState(NoMove, false, None)

  /** A time stamp is present exactly while there is a direction, so the
      `unwrap` in `movement_stopped` cannot fail. */
  predicate Inv(m: MovementState) {
    m.since.None? <==> m.direction == NoMove
  }

  /** `Instant::elapsed` in milliseconds; it saturates at zero. */
  function Elapsed(since: nat, now: nat): nat {
    if now >= since then now - since else 0
  }

  /** `update`: no direction resets the debouncer; a direction is a first
      keystroke exactly when it differs from the previous one. */
  function Updated(m: MovementState, d: PaddleMoveDirection, now: nat): MovementState {
    if d == NoMove then IDLE
    else MovementState(d, m.direction != d, Some(now))
  }

  /** Whether `movement_stopped` reports a stop at `now`. */
  predicate StopDue(m: MovementState, now: nat)
    requires Inv(m)
  {
    m.direction != NoMove
    && var elapsed := Elapsed(m.since.value, now);
       elapsed >= FIRST_KEYSTROKE_TIMEOUT || (!m.firstKeystroke && elapsed >= REPEAT_TIMEOUT)
  }

  /** The state after `movement_stopped` at `now`. */
  function AfterCheck(m: MovementState, now: nat): MovementState
    requires Inv(m)
  {
    if StopDue(m, now) then Updated(m, NoMove, now) else m
  }

  // ---------------------------------------------------------------------
  // Properties
  // ---------------------------------------------------------------------

  /** Both operations keep the invariant. */
  lemma InvariantKept(m: MovementState, d: PaddleMoveDirection, now: nat)
    requires Inv(m)
    ensures Inv(Updated(m, d, now)) && Inv(AfterCheck(m, now))
  {
  }

  /** A stop resets to the idle state, and no stop changes nothing. */
  lemma CheckOutcome(m: MovementState, now: nat)
    requires Inv(m)
    ensures StopDue(m, now) ==> AfterCheck(m, now) == IDLE
    ensures !StopDue(m, now) ==> AfterCheck(m, now) == m
    ensures m.direction == NoMove ==> !StopDue(m, now)
  {
  }

  /** After a press of `d` at time `t`, the movement stops at `now` exactly
      when 500 ms have passed, or 30 ms have passed and `d` repeats the
      direction that was already held. */
  lemma PressStops(m: MovementState, d: PaddleMoveDirection, t: nat, now: nat)
    requires d != NoMove
    ensures StopDue(Updated(m, d, t), now) <==>
      Elapsed(t, now) >= FIRST_KEYSTROKE_TIMEOUT || (m.direction == d && Elapsed(t, now) >= REPEAT_TIMEOUT)
  {
  }

  /** A movement never stops within 30 ms of the last press. */
  lemma NoEarlyStop(m: MovementState, now: nat)
    requires Inv(m) && m.since.Some? && Elapsed(m.since.value, now) < REPEAT_TIMEOUT
    ensures !StopDue(m, now)
  {
  }

  /** Right after a check that reported a stop, the next check reports none. */
  lemma StopReportedOnce(m: MovementState, now: nat, later: nat)
    requires Inv(m) && StopDue(m, now)
    ensures Inv(AfterCheck(m, now)) && !StopDue(AfterCheck(m, now), later)
  {
  }

  /** Pressing the same direction twice clears the first-keystroke flag. */
  lemma RepeatClearsFirstKeystroke(m: MovementState, d: PaddleMoveDirection, t1: nat, t2: nat)
    requires d != NoMove
    ensures Updated(m, d, t1).firstKeystroke == (m.direction != d)
    ensures !Updated(Updated(m, d, t1), d, t2).firstKeystroke
  {
  }

  // ---------------------------------------------------------------------
  // The debouncer object
  // ---------------------------------------------------------------------

  class Movement {
    var direction: PaddleMoveDirection
    var firstKeystroke: bool
    var since: Option<nat>

    function State(): MovementState
      reads this
    {
      MovementState(direction, firstKeystroke, since)
    }

    predicate Valid()
      reads this
    {
      Inv(State())
    }

    /** `Movement::new`: no direction, no first keystroke, no time stamp. */
    constructor ()
      ensures Valid() && State() == IDLE
    {
      direction := NoMove;
      firstKeystroke := false;
      since := None;
    }

    /** `update`, at instant `now`. */
    method Update(d: PaddleMoveDirection, now: nat)
      requires Valid()
      modifies this
      ensures Valid() && State() == Updated(old(State()), d, now)
    {
      if d == NoMove {
        direction := NoMove;
        firstKeystroke := false;
        since := None;
      } else {
        firstKeystroke := direction != d;
        since := Some(now);
        direction := d;
      }
    }

    /** `first_keystroke`. */
    function FirstKeystroke(): bool
      reads this
    {
      firstKeystroke
    }

    /** `movement_stopped`, at instant `now`. */
    method MovementStopped(now: nat) returns (stopped: bool)
      requires Valid()
      modifies this
      ensures Valid()
      ensures stopped == StopDue(old(State()), now)
      ensures State() == AfterCheck(old(State()), now)
    {
      if direction != NoMove {
        var elapsed := Elapsed(since.value, now);
        if elapsed >= FIRST_KEYSTROKE_TIMEOUT || (!firstKeystroke && elapsed >= REPEAT_TIMEOUT) {
          Update(NoMove, now);
          return true;
        }
      }
      return false;
    }
  }
}
