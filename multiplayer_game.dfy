/** The browser's remote-game client `PongGame`: the four key flags that
    keyboard and touch handlers set, the running / paused / counting-down
    flags that the start and pause buttons and the server's pause
    broadcasts switch, the paddle move it sends on each tick, and how it
    lays the server's game state out from its own side. Positions are in
    the server's 800x600 coordinates; drawing, the countdown's status
    texts and the animation frames are not modelled. */
module MultiplayerGame {
  import opened Wrappers

  // ---------------------------------------------------------------------
  // Keys and the paddle move
  // ---------------------------------------------------------------------

  /** 'up' | 'down' | 'none'. */
  datatype Direction = Up | Down | Still

  /** The `paddle_move` payload: the left paddle's move, then the right's. */
  datatype PaddleMove = PaddleMove(moveP1: Direction, moveP2: Direction)

  /** `wPressed`, `sPressed`, `upPressed`, `downPressed`. */
  datatype Keys = Keys(w: bool, s: bool, up: bool, down: bool)

  const NO_KEYS := Keys(false, false, false, false)

  /** A paddle goes the way of the one key held of its pair and stays when
      neither or both are held. */
  function DirectionOf(upHeld: bool, downHeld: bool): Direction {
    if upHeld && !downHeld then Up
    else if downHeld && !upHeld then Down
    else Still
  }

  function Opposite(d: Direction): Direction {
    match d
    case Up => Down
    case Down => Up
    case Still => Still
  }

  /** W/S move the left paddle, the arrows the right one. */
  function MoveOf(k: Keys): PaddleMove {
    PaddleMove(DirectionOf(k.w, k.s), DirectionOf(k.up, k.down))
  }

  /** `handlePaddleMovement`: nothing is sent while paused. */
  function Movement(paused: bool, k: Keys): Option<PaddleMove> {
    if paused then None else Some(MoveOf(k))
  }

  /** The keydown handler: W sets `w`, or else S sets `s`; ArrowUp sets
      `up`, or else ArrowDown sets `down`. */
  function KeyDown(k: Keys, key: string): Keys {
    var k1 := if key == "w" || key == "W" then k.(w := true)
              else if key == "s" || key == "S" then k.(s := true)
              else k;
    if key == "ArrowUp" then k1.(up := true)
    else if key == "ArrowDown" then k1.(down := true)
    else k1
  }

  /** The keyup handler clears the flag of the released key. */
  function KeyUp(k: Keys, key: string): Keys {
    var k1 := if key == "w" || key == "W" then k.(w := false) else k;
    var k2 := if key == "s" || key == "S" then k1.(s := false) else k1;
    var k3 := if key == "ArrowUp" then k2.(up := false) else k2;
    if key == "ArrowDown" then k3.(down := false) else k3
  }

  /** A paddle moves one way exactly when that key alone of its pair is
      held; swapping the two keys reverses the move. */
  lemma DirectionSpec(upHeld: bool, downHeld: bool)
    ensures DirectionOf(upHeld, downHeld) == Up <==> upHeld && !downHeld
    ensures DirectionOf(upHeld, downHeld) == Down <==> downHeld && !upHeld
    ensures DirectionOf(upHeld, downHeld) == Still <==> upHeld == downHeld
    ensures DirectionOf(downHeld, upHeld) == Opposite(DirectionOf(upHeld, downHeld))
  {
  }

  /** Nothing is sent exactly while paused; otherwise the left paddle's
      move depends on W and S alone and the right paddle's on the arrows
      alone. */
  lemma MovementSpec(paused: bool, k: Keys, other: Keys)
    ensures Movement(paused, k).None? <==> paused
    ensures !paused && k.w == other.w && k.s == other.s
            ==> Movement(paused, k).value.moveP1 == Movement(paused, other).value.moveP1
    ensures !paused && k.up == other.up && k.down == other.down
            ==> Movement(paused, k).value.moveP2 == Movement(paused, other).value.moveP2
  {
  }

  /** Pressing a key and releasing it leaves the flags as releasing it
      alone does; a key outside W, S and the arrows changes nothing. */
  lemma KeyPressRelease(k: Keys, key: string)
    ensures KeyUp(KeyDown(k, key), key) == KeyUp(k, key)
    ensures key !in {"w", "W", "s", "S", "ArrowUp", "ArrowDown"} ==> KeyDown(k, key) == k && KeyUp(k, key) == k
  {
  }

  // ---------------------------------------------------------------------
  // Touch dragging
  // ---------------------------------------------------------------------

  /** `isDragging`, `touchStartY`, `touchCurrentY`. */
  datatype Touch = Touch(dragging: bool, startY: int, currentY: int)

  /** A drag must pass this many pixels before it counts. */
  const DRAG_THRESHOLD := 5

  function TouchStarted(y: int): Touch {
    Touch(true, y, y)
  }

  /** The touchmove handler: while dragging, a drag of more than five
      pixels holds the up or down key of the player's own pair. */
  function TouchMoved(t: Touch, k: Keys, isPlayer1: bool, y: int): (Touch, Keys) {
    if !t.dragging then (t, k)
    else
      var delta := y - t.startY;
      var k1 :=
        if -DRAG_THRESHOLD <= delta <= DRAG_THRESHOLD then k
        else if delta < 0 then (if isPlayer1 then k.(w := true) else k.(up := true))
        else (if isPlayer1 then k.(s := true) else k.(down := true));
      (t.(currentY := y), k1)
  }

  /** The touchend handler ends the drag and releases all four keys. */
  function TouchEnded(t: Touch): (Touch, Keys) {
    (t.(dragging := false), NO_KEYS)
  }

  /** A drag moves the player's own paddle the way it goes and leaves the
      other pair alone; lifting the finger stops both paddles. */
  lemma TouchSpec(t: Touch, k: Keys, isPlayer1: bool, y: int)
    requires t.dragging && !k.w && !k.s && !k.up && !k.down
    ensures var m := MoveOf(TouchMoved(t, k, isPlayer1, y).1);
      var own := if isPlayer1 then m.moveP1 else m.moveP2;
      var other := if isPlayer1 then m.moveP2 else m.moveP1;
      other == Still
      && (own == Up <==> y - t.startY < -DRAG_THRESHOLD)
      && (own == Down <==> y - t.startY > DRAG_THRESHOLD)
    ensures Movement(false, TouchEnded(t).1) == Some(PaddleMove(Still, Still))
  {
  }

  // ---------------------------------------------------------------------
  // Running, paused and counting down
  // ---------------------------------------------------------------------

  /** `gameRunning`, `isPaused`, and whether the countdown interval is
      set. */
  datatype Play = Play(running: bool, paused: bool, countingDown: bool)

  /** A step of the flags and the pause states it sends the server
      through `setGamePauseState`. */
  datatype Step = Step(play: Play, sent: seq<bool>)

  /** `start`: a no-op while running. */
  function Started(p: Play): Play {
    if p.running then p else p.(running := true)
  }

  /** `pauseGame`: only a running game that is not paused pauses. */
  function PauseStep(p: Play): Step {
    if !p.running || p.paused then Step(p, [])
    else Step(p.(paused := true, running := false), [true])
  }

  /** `resume`: only a paused game resumes. */
  function ResumeStep(p: Play): Step {
    if !p.paused then Step(p, [])
    else Step(p.(paused := false, running := true), [false])
  }

  /** `startGame`, the start button: ignored while running unpaused,
      resumes a paused game and starts any other. */
  function StartClicked(p: Play): Step {
    if p.running && !p.paused then Step(p, [])
    else if p.paused then ResumeStep(p)
    else Step(Started(p), [])
  }

  /** `stop`: not running and no countdown. */
  function Stopped(p: Play): Play {
    p.(running := false, countingDown := false)
  }

  /** The server's `game_pause_state` broadcast. */
  function OnPauseState(p: Play, isPaused: bool): Step {
    if isPaused then PauseStep(p) else ResumeStep(p)
  }

  /** `handleGameStart`: ignored while a countdown runs; otherwise the game
      stops and the countdown begins. */
  function GameStarted(p: Play): Play {
    if p.countingDown then p else p.(running := false, countingDown := true)
  }

  /** The countdown's last tick clears it and starts the game unless it
      runs; a countdown that `stop` cleared never ticks. */
  function CountdownFinished(p: Play): Play {
    if !p.countingDown then p else Started(p.(countingDown := false))
  }

  /** Running and paused are not both set. */
  predicate Consistent(p: Play) {
    !(p.running && p.paused)
  }

  /** Pausing a running game and resuming it restores it, sending `true`
      and then `false`. */
  lemma PauseResumeRoundTrip(p: Play)
    requires p.running && !p.paused
    ensures PauseStep(p).sent == [true]
    ensures ResumeStep(PauseStep(p).play) == Step(p, [false])
  {
  }

  /** Pausing twice pauses once; resuming twice resumes once. */
  lemma PauseResumeIdempotent(p: Play)
    ensures PauseStep(PauseStep(p).play) == Step(PauseStep(p).play, [])
    ensures ResumeStep(ResumeStep(p).play) == Step(ResumeStep(p).play, [])
  {
  }

  /** The server echoes a pause state back to both players: the echo of a
      client's own change changes nothing and sends nothing, so the two
      clients do not bounce it between them. */
  lemma EchoIsQuiet(p: Play, isPaused: bool)
    requires OnPauseState(p, isPaused).sent == [isPaused]
    ensures var q := OnPauseState(p, isPaused).play;
      OnPauseState(q, isPaused) == Step(q, [])
  {
  }

  /** A game that is paused sends no paddle moves, and the start button
      (never the pause button) gets it going again. */
  lemma PausedSendsNothing(p: Play, k: Keys)
    requires p.paused
    ensures Movement(p.paused, k).None?
    ensures PauseStep(p) == Step(p, [])
    ensures StartClicked(p).play.running && !StartClicked(p).play.paused
  {
  }

  /** The buttons, the server's broadcasts, a new game and `stop` never
      leave a game running and paused at once. */
  lemma StepsKeepConsistent(p: Play, isPaused: bool)
    requires Consistent(p)
    ensures Consistent(PauseStep(p).play) && Consistent(ResumeStep(p).play)
    ensures Consistent(StartClicked(p).play) && Consistent(OnPauseState(p, isPaused).play)
    ensures Consistent(Stopped(p)) && Consistent(GameStarted(p))
  {
  }

  /** `handleGameStart` leaves `isPaused` as it was, and the countdown's
      `start` does not clear it: a game paused before the next match
      starts ends up running and paused, sending no paddle moves, until
      the start button resumes it. */
  lemma CountdownKeepsPause(p: Play, k: Keys)
    requires p.paused && !p.running && !p.countingDown
    ensures var q := CountdownFinished(GameStarted(p));
      q.running && q.paused && !Consistent(q) && Movement(q.paused, k).None?
      && PauseStep(q) == Step(q, [])
      && StartClicked(q) == Step(q.(paused := false), [false])
  {
  }

  // ---------------------------------------------------------------------
  // The server's game state from the player's side
  // ---------------------------------------------------------------------

  /** The `game_state` broadcast: the owner plays the left paddle. */
  datatype ServerState = ServerState(ballX: int, ballY: int, paddle1Y: int, paddle2Y: int,
                                     ownerScore: int, guestScore: int)

  /** The client's own copy, arranged as "me" and "the opponent". */
  datatype View = View(ballX: int, ballY: int, playerY: int, opponentY: int,
                       playerScore: int, opponentScore: int)

  /** `updateFromServer`: the owner is the left paddle and owner score,
      the guest the right paddle and guest score. */
  function FromServer(isPlayer1: bool, g: ServerState): View {
    if isPlayer1 then View(g.ballX, g.ballY, g.paddle1Y, g.paddle2Y, g.ownerScore, g.guestScore)
    else View(g.ballX, g.ballY, g.paddle2Y, g.paddle1Y, g.guestScore, g.ownerScore)
  }

  /** The two score elements `draw` fills: the owner keeps the left one
      for itself, the guest gives it to the opponent. */
  function Scoreboard(isPlayer1: bool, v: View): (int, int) {
    if isPlayer1 then (v.playerScore, v.opponentScore) else (v.opponentScore, v.playerScore)
  }

  /** Both players see the same ball; each sees the other's paddle and
      score as the opponent's; and both scoreboards read owner score on
      the left, guest score on the right. */
  lemma ViewsMirror(g: ServerState)
    ensures var owner := FromServer(true, g); var guest := FromServer(false, g);
      owner.ballX == guest.ballX && owner.ballY == guest.ballY
      && owner.playerY == guest.opponentY && owner.opponentY == guest.playerY
      && owner.playerScore == guest.opponentScore && owner.opponentScore == guest.playerScore
      && owner.playerY == g.paddle1Y && guest.playerY == g.paddle2Y
      && Scoreboard(true, owner) == (g.ownerScore, g.guestScore)
      && Scoreboard(false, guest) == (g.ownerScore, g.guestScore)
  {
  }

  // ---------------------------------------------------------------------
  // The client object
  // ---------------------------------------------------------------------

  class PongGame {
    var isPlayer1: bool
    var gameRunning: bool
    var isPaused: bool
    var countingDown: bool
    var wPressed: bool
    var sPressed: bool
    var upPressed: bool
    var downPressed: bool
    var isDragging: bool
    var touchStartY: int
    var touchCurrentY: int
    var ballX: int
    var ballY: int
    var playerY: int
    var opponentY: int
    var playerScore: int
    var opponentScore: int
    /** What `setGamePauseState` has sent the server, oldest first. */
    var pauseSent: seq<bool>

    function PlayOf(): Play
      reads this
    {
      Play(gameRunning, isPaused, countingDown)
    }

    function KeysOf(): Keys
      reads this
    {
      Keys(wPressed, sPressed, upPressed, downPressed)
    }

    function TouchOf(): Touch
      reads this
    {
      Touch(isDragging, touchStartY, touchCurrentY)
    }

    function ViewOf(): View
      reads this
    {
      View(ballX, ballY, playerY, opponentY, playerScore, opponentScore)
    }

    /** The field initialisers. */
    constructor ()
      ensures PlayOf() == Play(false, false, false) && KeysOf() == NO_KEYS
      ensures TouchOf() == Touch(false, 0, 0) && ViewOf() == View(400, 300, 250, 250, 0, 0)
      ensures !isPlayer1 && pauseSent == []
    {
      isPlayer1 := false;
      gameRunning := false;
      isPaused := false;
      countingDown := false;
      wPressed := false;
      sPressed := false;
      upPressed := false;
      downPressed := false;
      isDragging := false;
      touchStartY := 0;
      touchCurrentY := 0;
      ballX := 400;
      ballY := 300;
      playerY := 250;
      opponentY := 250;
      playerScore := 0;
      opponentScore := 0;
      pauseSent := [];
    }

    /** The keydown handler. */
    method OnKeyDown(key: string)
      modifies this
      ensures KeysOf() == KeyDown(old(KeysOf()), key)
      ensures PlayOf() == old(PlayOf()) && TouchOf() == old(TouchOf()) && ViewOf() == old(ViewOf())
      ensures isPlayer1 == old(isPlayer1) && pauseSent == old(pauseSent)
    {
      if key == "w" || key == "W" {
        wPressed := true;
      } else if key == "s" || key == "S" {
        sPressed := true;
      }
      if key == "ArrowUp" {
        upPressed := true;
      } else if key == "ArrowDown" {
        downPressed := true;
      }
    }

    /** The keyup handler. */
    method OnKeyUp(key: string)
      modifies this
      ensures KeysOf() == KeyUp(old(KeysOf()), key)
      ensures PlayOf() == old(PlayOf()) && TouchOf() == old(TouchOf()) && ViewOf() == old(ViewOf())
      ensures isPlayer1 == old(isPlayer1) && pauseSent == old(pauseSent)
    {
      if key == "w" || key == "W" {
        wPressed := false;
      }
      if key == "s" || key == "S" {
        sPressed := false;
      }
      if key == "ArrowUp" {
        upPressed := false;
      }
      if key == "ArrowDown" {
        downPressed := false;
      }
    }

    /** The touchstart handler. */
    method OnTouchStart(y: int)
      modifies this
      ensures TouchOf() == TouchStarted(y)
      ensures PlayOf() == old(PlayOf()) && KeysOf() == old(KeysOf()) && ViewOf() == old(ViewOf())
      ensures isPlayer1 == old(isPlayer1) && pauseSent == old(pauseSent)
    {
      isDragging := true;
      touchStartY := y;
      touchCurrentY := touchStartY;
    }

    /** The touchmove handler. */
    method OnTouchMove(y: int)
      modifies this
      ensures (TouchOf(), KeysOf()) == TouchMoved(old(TouchOf()), old(KeysOf()), isPlayer1, y)
      ensures PlayOf() == old(PlayOf()) && ViewOf() == old(ViewOf())
      ensures isPlayer1 == old(isPlayer1) && pauseSent == old(pauseSent)
    {
      if !isDragging {
        return;
      }
      touchCurrentY := y;
      var deltaY := touchCurrentY - touchStartY;
      if deltaY > DRAG_THRESHOLD || deltaY < -DRAG_THRESHOLD {
        if deltaY < 0 {
          if isPlayer1 {
            wPressed := true;
          } else {
            upPressed := true;
          }
        } else {
          if isPlayer1 {
            sPressed := true;
          } else {
            downPressed := true;
          }
        }
      }
    }

    /** The touchend handler. */
    method OnTouchEnd()
      modifies this
      ensures (TouchOf(), KeysOf()) == TouchEnded(old(TouchOf()))
      ensures PlayOf() == old(PlayOf()) && ViewOf() == old(ViewOf())
      ensures isPlayer1 == old(isPlayer1) && pauseSent == old(pauseSent)
    {
      isDragging := false;
      wPressed := false;
      sPressed := false;
      upPressed := false;
      downPressed := false;
    }

    /** `handlePaddleMovement`: the move sent to the server, if any. */
    method HandlePaddleMovement() returns (sent: Option<PaddleMove>)
      ensures sent == Movement(isPaused, KeysOf())
    {
      if isPaused {
        return None;
      }
      var moveP1 := Still;
      var moveP2 := Still;
      if wPressed && !sPressed {
        moveP1 := Up;
      } else if sPressed && !wPressed {
        moveP1 := Down;
      } else {
        moveP1 := Still;
      }
      if upPressed && !downPressed {
        moveP2 := Up;
      } else if downPressed && !upPressed {
        moveP2 := Down;
      } else {
        moveP2 := Still;
      }
      sent := Some(PaddleMove(moveP1, moveP2));
    }

    /** `start`. */
    method Start()
      modifies this
      ensures PlayOf() == Started(old(PlayOf()))
      ensures KeysOf() == old(KeysOf()) && TouchOf() == old(TouchOf()) && ViewOf() == old(ViewOf())
      ensures isPlayer1 == old(isPlayer1) && pauseSent == old(pauseSent)
    {
      if gameRunning {
        return;
      }
      gameRunning := true;
    }

    /** `pauseGame`. */
    method PauseGame()
      modifies this
      ensures PlayOf() == PauseStep(old(PlayOf())).play
      ensures pauseSent == old(pauseSent) + PauseStep(old(PlayOf())).sent
      ensures KeysOf() == old(KeysOf()) && TouchOf() == old(TouchOf()) && ViewOf() == old(ViewOf())
      ensures isPlayer1 == old(isPlayer1)
    {
      if !gameRunning || isPaused {
        return;
      }
      isPaused := true;
      gameRunning := false;
      pauseSent := pauseSent + [true];
    }

    /** `resume`. */
    method Resume()
      modifies this
      ensures PlayOf() == ResumeStep(old(PlayOf())).play
      ensures pauseSent == old(pauseSent) + ResumeStep(old(PlayOf())).sent
      ensures KeysOf() == old(KeysOf()) && TouchOf() == old(TouchOf()) && ViewOf() == old(ViewOf())
      ensures isPlayer1 == old(isPlayer1)
    {
      if !isPaused {
        return;
      }
      isPaused := false;
      gameRunning := true;
      pauseSent := pauseSent + [false];
    }

    /** `startGame`, the start button. */
    method StartGame()
      modifies this
      ensures PlayOf() == StartClicked(old(PlayOf())).play
      ensures pauseSent == old(pauseSent) + StartClicked(old(PlayOf())).sent
      ensures KeysOf() == old(KeysOf()) && TouchOf() == old(TouchOf()) && ViewOf() == old(ViewOf())
      ensures isPlayer1 == old(isPlayer1)
    {
      if gameRunning && !isPaused {
        return;
      }
      if isPaused {
        Resume();
      } else {
        Start();
      }
    }

    /** The `game_pause_state` listener. */
    method OnGamePauseState(paused: bool)
      modifies this
      ensures PlayOf() == OnPauseState(old(PlayOf()), paused).play
      ensures pauseSent == old(pauseSent) + OnPauseState(old(PlayOf()), paused).sent
      ensures KeysOf() == old(KeysOf()) && TouchOf() == old(TouchOf()) && ViewOf() == old(ViewOf())
      ensures isPlayer1 == old(isPlayer1)
    {
      if paused {
        PauseGame();
      } else {
        Resume();
      }
    }

    /** `stop`. */
    method Stop()
      modifies this
      ensures PlayOf() == Stopped(old(PlayOf()))
      ensures KeysOf() == old(KeysOf()) && TouchOf() == old(TouchOf()) && ViewOf() == old(ViewOf())
      ensures isPlayer1 == old(isPlayer1) && pauseSent == old(pauseSent)
    {
      gameRunning := false;
      countingDown := false;
    }

    /** `handleGameStart`: records the side and starts the countdown. */
    method HandleGameStart(isOwner: bool)
      modifies this
      ensures PlayOf() == GameStarted(old(PlayOf()))
      ensures isPlayer1 == if old(countingDown) then old(isPlayer1) else isOwner
      ensures KeysOf() == old(KeysOf()) && TouchOf() == old(TouchOf()) && ViewOf() == old(ViewOf())
      ensures pauseSent == old(pauseSent)
    {
      if countingDown {
        return;
      }
      if gameRunning {
        Stop();
      }
      gameRunning := false;
      isPlayer1 := isOwner;
      countingDown := true;
    }

    /** The countdown interval's last tick. */
    method CountdownEnd()
      modifies this
      ensures PlayOf() == CountdownFinished(old(PlayOf()))
      ensures KeysOf() == old(KeysOf()) && TouchOf() == old(TouchOf()) && ViewOf() == old(ViewOf())
      ensures isPlayer1 == old(isPlayer1) && pauseSent == old(pauseSent)
    {
      if !countingDown {
        return;
      }
      countingDown := false;
      if !gameRunning {
        Start();
      }
    }

    /** `updateFromServer`. */
    method UpdateFromServer(g: ServerState)
      modifies this
      ensures ViewOf() == FromServer(isPlayer1, g)
      ensures PlayOf() == old(PlayOf()) && KeysOf() == old(KeysOf()) && TouchOf() == old(TouchOf())
      ensures isPlayer1 == old(isPlayer1) && pauseSent == old(pauseSent)
    {
      ballX := g.ballX;
      ballY := g.ballY;
      if isPlayer1 {
        playerY := g.paddle1Y;
        opponentY := g.paddle2Y;
        playerScore := g.ownerScore;
        opponentScore := g.guestScore;
      } else {
        playerY := g.paddle2Y;
        opponentY := g.paddle1Y;
        playerScore := g.guestScore;
        opponentScore := g.ownerScore;
      }
    }
  }
}
