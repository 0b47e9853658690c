/** The CLI's game page: the two paddles, the ball and the scores as the
    server reports them, and the local player's own paddle, which the page
    moves itself. */
module GamePage {
  import opened Wrappers
  import opened Keys
  import opened Events
  import opened PageResult

  /** The paddle's travel: its top edge stays between these, in the
      server's 800 x 600 coordinate space. */
  const PADDLE_MIN: real := 0.0
  const PADDLE_MAX: real := 500.0
  /** How far one key press moves the own paddle. */
  const PADDLE_STEP: real := 20.0

  /** Which of the two players this client is; the room's owner is player A. */
  datatype CurrentPlayer = PlayerA | PlayerB

  function CurrentPlayerOf(isPlayer1: bool): (c: CurrentPlayer)
    ensures c == PlayerA <==> isPlayer1
  {
    if isPlayer1 then PlayerA else PlayerB
  }

  /** A player on the field (`types::Player`). */
  datatype Player = Player(player: GameStartEventPlayer, posY: real, score: nat)

  datatype Position = Position(posY: real, posX: real)

  /** A paddle position reported by the server for one player. */
  datatype PaddleUpdateEvent = PaddleUpdateEvent(playerId: NumberString, yPos: real)

  datatype GameResultPlayer = GameResultPlayer(player: GameStartEventPlayer, score: nat)

  datatype GameResult = GameResult(won: bool, playerA: GameResultPlayer, playerB: GameResultPlayer)

  /** The page's fields as a value (the widget layout is left out). */
  datatype GameView = GameView(playerA: Player, playerB: Player, current: CurrentPlayer, ball: Position, needsUpdate: bool)

  /** `Game::new`: the owner is player A, each starts with score 0. */
  function Started(x: GameStartEvent): GameView {
    GameView(Player(x.owner, x.paddle1Y, 0), Player(x.guest, x.paddle2Y, 0), CurrentPlayerOf(x.isOwner),
             Position(x.ballY, x.ballX), true)
  }

  /** `update`: the server's state for everything except the own paddle. */
  function StateApplied(g: GameView, x: GameStateEvent): GameView {
    var a := if g.current == PlayerB then g.playerA.(posY := x.paddle1Y) else g.playerA;
    var b := if g.current == PlayerA then g.playerB.(posY := x.paddle2Y) else g.playerB;
    GameView(a.(score := x.ownerScore), b.(score := x.guestScore), g.current, Position(x.ballY, x.ballX), true)
  }

  function OwnPlayer(g: GameView): Player {
    if g.current == PlayerA then g.playerA else g.playerB
  }

  function OtherPlayer(g: GameView): Player {
    if g.current == PlayerA then g.playerB else g.playerA
  }

  /** `paddle_update`: the opponent's paddle moves, an update about the own
      player is ignored. */
  function PaddleApplied(g: GameView, x: PaddleUpdateEvent): GameView {
    if OwnPlayer(g).player.id == x.playerId then g
    else if g.current == PlayerA then g.(playerB := g.playerB.(posY := x.yPos), needsUpdate := true)
    else g.(playerA := g.playerA.(posY := x.yPos), needsUpdate := true)
  }

  function Max(a: real, b: real): real { if a >= b then a else b }
  function Min(a: real, b: real): real { if a <= b then a else b }

  /** The own paddle's next position for an Up or Down key. */
  function Stepped(pos: real, up: bool): real {
    if up then Max(PADDLE_MIN, pos - PADDLE_STEP) else Min(PADDLE_MAX, pos + PADDLE_STEP)
  }

  function WithOwnPos(g: GameView, pos: real): GameView {
    if g.current == PlayerA then g.(playerA := g.playerA.(posY := pos)) else g.(playerB := g.playerB.(posY := pos))
  }

  /** `update_position`: a move that changes the position is applied and
      reported to the application; one that does not changes nothing. */
  function PositionUpdated(g: GameView, up: bool): (GameView, Option<PageResults>) {
    var pos := OwnPlayer(g).posY;
    var newPos := Stepped(pos, up);
    if newPos != pos then (WithOwnPos(g, newPos).(needsUpdate := true), Some(UpdatePosition(newPos)))
    else (g, None)
  }

  /** `key_event`. */
  function OnKey(g: GameView, e: Event): (GameView, Option<PageResults>) {
    match e
    case Key(Esc) => (g, Some(BackToMenu))
    case Key(Up) => PositionUpdated(g, true)
    case Key(Down) => PositionUpdated(g, false)
    case _ => (g, None)
  }

  /** `game_over`: this client won exactly when its own final score is
      strictly greater; a draw is a loss for both. */
  function Outcome(g: GameView, x: GameOverEvent): GameResult {
    var won := if g.current == PlayerA then x.finalScore.owner > x.finalScore.guest
               else x.finalScore.guest > x.finalScore.owner;
    GameResult(won, GameResultPlayer(g.playerA.player, x.finalScore.owner),
               GameResultPlayer(g.playerB.player, x.finalScore.guest))
  }

  predicate InField(pos: real) {
    PADDLE_MIN <= pos <= PADDLE_MAX
  }

  // ---------------------------------------------------------------------
  // Properties
  // ---------------------------------------------------------------------

  /** The owner of the room is player A and every score starts at zero. */
  lemma StartedFromEvent(x: GameStartEvent)
    ensures Started(x).playerA.player == x.owner && Started(x).playerB.player == x.guest
    ensures Started(x).playerA.score == 0 && Started(x).playerB.score == 0
    ensures (Started(x).current == PlayerA) == x.isOwner
  {
  }

  /** A server state never overrides the paddle this client moves, and it
      sets everything else. */
  lemma StateKeepsOwnPaddle(g: GameView, x: GameStateEvent)
    ensures OwnPlayer(StateApplied(g, x)).posY == OwnPlayer(g).posY
    ensures OtherPlayer(StateApplied(g, x)).posY == (if g.current == PlayerA then x.paddle2Y else x.paddle1Y)
    ensures StateApplied(g, x).playerA.score == x.ownerScore && StateApplied(g, x).playerB.score == x.guestScore
    ensures StateApplied(g, x).ball == Position(x.ballY, x.ballX)
    ensures StateApplied(g, x).playerA.player == g.playerA.player && StateApplied(g, x).playerB.player == g.playerB.player
  {
  }

  /** A paddle update moves only the opponent, and one about the own player
      is ignored. */
  lemma PaddleUpdateMovesOpponent(g: GameView, x: PaddleUpdateEvent)
    ensures OwnPlayer(g).player.id == x.playerId ==> PaddleApplied(g, x) == g
    ensures OwnPlayer(g).player.id != x.playerId ==>
      OtherPlayer(PaddleApplied(g, x)).posY == x.yPos && OwnPlayer(PaddleApplied(g, x)) == OwnPlayer(g)
  {
  }

  /** The own paddle stays on the field, moves at most one step, and moves
      in the direction of the key; it is reported exactly when it moved. */
  lemma MoveStaysInField(g: GameView, up: bool)
    requires InField(OwnPlayer(g).posY)
    ensures var (g2, r) := PositionUpdated(g, up);
      var p, p2 := OwnPlayer(g).posY, OwnPlayer(g2).posY;
      && InField(p2)
      && (up ==> p - PADDLE_STEP <= p2 <= p)
      && (!up ==> p <= p2 <= p + PADDLE_STEP)
      && (r.Some? <==> p2 != p)
      && (r.Some? ==> r == Some(UpdatePosition(p2)))
      && OtherPlayer(g2) == OtherPlayer(g)
  {
  }

  /** At the top of the field Up reports nothing, at the bottom Down does not. */
  lemma MoveAtEdge(g: GameView)
    ensures OwnPlayer(g).posY == PADDLE_MIN ==> PositionUpdated(g, true) == (g, None)
    ensures OwnPlayer(g).posY == PADDLE_MAX ==> PositionUpdated(g, false) == (g, None)
  {
  }

  /** Exactly one of the two players of a decided game wins. */
  lemma OneWinner(g: GameView, x: GameOverEvent)
    requires x.finalScore.owner != x.finalScore.guest
    ensures var other := g.(current := if g.current == PlayerA then PlayerB else PlayerA);
      Outcome(g, x).won != Outcome(other, x).won
  {
  }

  /** The result carries the final scores, the owner's as player A's. */
  lemma OutcomeScores(g: GameView, x: GameOverEvent)
    ensures Outcome(g, x).playerA == GameResultPlayer(g.playerA.player, x.finalScore.owner)
    ensures Outcome(g, x).playerB == GameResultPlayer(g.playerB.player, x.finalScore.guest)
    ensures x.finalScore.owner == x.finalScore.guest ==> !Outcome(g, x).won
  {
  }

  // ---------------------------------------------------------------------
  // The page object
  // ---------------------------------------------------------------------

  class Game {
    var playerA: Player
    var playerB: Player
    var current: CurrentPlayer
    var ball: Position
    var needsUpdate: bool

    function View(): GameView
      reads this
    {
      GameView(playerA, playerB, current, ball, needsUpdate)
    }

    constructor (x: GameStartEvent)
      ensures View() == Started(x)
    {
      playerA := Player(x.owner, x.paddle1Y, 0);
      playerB := Player(x.guest, x.paddle2Y, 0);
      current := CurrentPlayerOf(x.isOwner);
      ball := Position(x.ballY, x.ballX);
      needsUpdate := true;
    }

    method Update(x: GameStateEvent)
      modifies this
      ensures View() == StateApplied(old(View()), x)
    {
      match current {
        case PlayerA => playerB := playerB.(posY := x.paddle2Y);
        case PlayerB => playerA := playerA.(posY := x.paddle1Y);
      }
      playerA := playerA.(score := x.ownerScore);
      playerB := playerB.(score := x.guestScore);
      ball := Position(x.ballY, x.ballX);
      needsUpdate := true;
    }

    method PaddleUpdate(x: PaddleUpdateEvent)
      modifies this
      ensures View() == PaddleApplied(old(View()), x)
    {
      var ownId := if current == PlayerA then playerA.player.id else playerB.player.id;
      if ownId == x.playerId {
        return;
      }
      if current == PlayerA {
        playerB := playerB.(posY := x.yPos);
      } else {
        playerA := playerA.(posY := x.yPos);
      }
      needsUpdate := true;
    }

    method Render()
      modifies this
      ensures View() == old(View()).(needsUpdate := false)
    {
      needsUpdate := false;
    }

    method UpdatePosition(up: bool) returns (r: Option<PageResults>)
      modifies this
      ensures (View(), r) == PositionUpdated(old(View()), up)
    {
      var pos := if current == PlayerA then playerA.posY else playerB.posY;
      var newPos := if up then Max(PADDLE_MIN, pos - PADDLE_STEP) else Min(PADDLE_MAX, pos + PADDLE_STEP);
      if newPos != pos {
        if current == PlayerA {
          playerA := playerA.(posY := newPos);
        } else {
          playerB := playerB.(posY := newPos);
        }
        needsUpdate := true;
        return Some(PageResults.UpdatePosition(newPos));
      }
      return None;
    }

    method KeyEvent(e: Event) returns (r: Option<PageResults>)
      modifies this
      ensures (View(), r) == OnKey(old(View()), e)
    {
      r := None;
      match e {
        case Key(k) =>
          match k {
            case Esc => return Some(BackToMenu);
            case Up => r := UpdatePosition(true);
            case Down => r := UpdatePosition(false);
            case _ =>
          }
        case _ =>
      }
    }

    method GameOver(x: GameOverEvent) returns (result: GameResult)
      ensures result == Outcome(View(), x)
    {
      var won := if current == PlayerA then x.finalScore.owner > x.finalScore.guest
                 else x.finalScore.guest > x.finalScore.owner;
      result := GameResult(won, GameResultPlayer(playerA.player, x.finalScore.owner),
                           GameResultPlayer(playerB.player, x.finalScore.guest));
    }
  }
}

/** The page that shows a finished game's result. */
module GameOverScreen {
  import opened Wrappers
  import opened Keys
  import opened PageResult
  import opened GamePage

  /** The title of the result box. */
  function Title(r: GameResult): (t: string)
    ensures t == "You won" <==> r.won
    ensures t == "You lost" <==> !r.won
  {
    if r.won then "You won" else "You lost"
  }

  class GameOverPage {
    const gameResult: GameResult
    var needsUpdate: bool

    constructor (result: GameResult)
      ensures gameResult == result && needsUpdate
    {
      gameResult := result;
      needsUpdate := true;
    }

    /** `key_event`: Esc or Enter leaves the page. */
    method KeyEvent(e: Event) returns (r: Option<PageResults>)
      ensures r == if e in {Key(Esc), Key(Enter)} then Some(PageResults.GameOver) else None
    {
      r := if e == Key(Esc) || e == Key(Enter) then Some(PageResults.GameOver) else None;
    }

    method Render()
      modifies this
      ensures !needsUpdate
    {
      needsUpdate := false;
    }
  }
}
