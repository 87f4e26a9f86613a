/**
 * The two-player Pong match of ping-pong.py: the state kept by PongGame,
 * the rules applied on each timer tick, the paddle keys and the
 * start/pause/reset buttons.
 *
 * The rules are first given as pure functions over a PongState value
 * (one function per step of the source), with the properties the game
 * promises stated on them and on runs of events.  The class PongGame
 * keeps the same state in mutable fields, updates it step by step as
 * the source does, and is proved to agree with the functions.
 */
module PingPong {

  // Geometry fixed by the window (setFixedSize) and by initGame.
  const FieldWidth: int := 800
  const FieldHeight: int := 600
  const PaddleWidth: int := 15
  const PaddleHeight: int := 100
  const BallSize: int := 15
  // Both paddles are drawn 20 units in from their side wall.
  const PaddleInset: int := 20
  // One key press moves a paddle by this much.
  const PaddleStep: int := 20
  const CenterX: int := 400
  const CenterY: int := 300
  const StartPaddleY: int := 250
  // Horizontal speed at start and at every serve (random.choice([-5, 5])).
  const BallSpeed: int := 5

  datatype Key = KeyW | KeyS | KeyI | KeyK | OtherKey

  /** The fields of PongGame that change during a match. */
  datatype PongState = PongState(
    running: bool,
    paused: bool,
    ballX: int,
    ballY: real,
    speedX: int,
    speedY: real,
    player1Y: int,
    player2Y: int,
    score1: nat,
    score2: nat)

  /** The values resetBall draws at random: a horizontal speed and a vertical speed. */
  datatype Serve = Serve(speedX: int, speedY: real)

  predicate ValidServe(v: Serve) {
    (v.speedX == BallSpeed || v.speedX == -BallSpeed) && -3.0 <= v.speedY <= 3.0
  }

  /** A value of random.uniform(-1, 1), added to the vertical speed on a paddle hit. */
  predicate ValidNudge(n: real) {
    -1.0 <= n <= 1.0
  }

  function Abs(x: int): int {
    if x < 0 then -x else x
  }

  /** Timer ticks and key presses only take effect in this state. */
  predicate Active(s: PongState) {
    s.running && !s.paused
  }

  /**
   * The paddle positions a match can reach from 250 in steps of 20:
   * the guards `y > 0` and `y < 500` each let a paddle take one step
   * past the edge, so the reachable range is -10 .. 510.
   */
  predicate PaddleReachable(y: int) {
    -10 <= y <= FieldHeight - PaddleHeight + 10 && y % PaddleStep == StartPaddleY % PaddleStep
  }

  /** What holds of every state of a match. */
  predicate Inv(s: PongState) {
    && (s.paused ==> s.running)
    && (s.speedX == BallSpeed || s.speedX == -BallSpeed)
    && PaddleReachable(s.player1Y)
    && PaddleReachable(s.player2Y)
  }

  /** The state initGame sets up: centred ball, centred paddles, no score, stopped. */
  function Initial(): (r: PongState)
    ensures Inv(r) && !r.running && !r.paused
    ensures r.score1 == 0 && r.score2 == 0
  {
    PongState(false, false, CenterX, CenterY as real, BallSpeed, BallSpeed as real,
              StartPaddleY, StartPaddleY, 0, 0)
  }

  /** startGame: only a stopped match starts, and it starts unpaused. */
  function Start(s: PongState): (r: PongState)
    ensures s.running ==> r == s
    ensures !s.running ==> Active(r)
    ensures r.(running := s.running, paused := s.paused) == s
    ensures Inv(s) ==> Inv(r)
  {
    if !s.running then s.(running := true, paused := false) else s
  }

  /** pauseGame: toggles the pause flag of a running match; nothing else. */
  function Pause(s: PongState): (r: PongState)
    ensures r.running == s.running
    ensures r.paused != s.paused <==> s.running
    ensures r.(paused := s.paused) == s
    ensures Inv(s) ==> Inv(r)
  {
    if s.running then s.(paused := !s.paused) else s
  }

  /** resetBall: the ball goes back to the centre with the drawn speeds. */
  function ServeBall(s: PongState, v: Serve): (r: PongState)
    requires ValidServe(v)
    ensures r.ballX == CenterX && r.ballY == CenterY as real
    ensures (r.speedX == BallSpeed || r.speedX == -BallSpeed) && -3.0 <= r.speedY <= 3.0
    ensures r.(ballX := s.ballX, ballY := s.ballY, speedX := s.speedX, speedY := s.speedY) == s
    ensures Inv(s) ==> Inv(r)
  {
    s.(ballX := CenterX, ballY := CenterY as real, speedX := v.speedX, speedY := v.speedY)
  }

  /** First step of a tick: the ball moves by its speed. */
  function Advance(s: PongState): (r: PongState)
    ensures r.ballX - s.ballX == s.speedX && r.ballY - s.ballY == s.speedY
    ensures r.(ballX := s.ballX, ballY := s.ballY) == s
  {
    s.(ballX := s.ballX + s.speedX, ballY := s.ballY + s.speedY)
  }

  predicate AtWall(s: PongState) {
    s.ballY <= 0.0 || s.ballY >= (FieldHeight - BallSize) as real
  }

  /** Top and bottom walls reflect the vertical speed. */
  function BounceWalls(s: PongState): (r: PongState)
    ensures AtWall(s) ==> r.speedY == -s.speedY
    ensures !AtWall(s) ==> r == s
    ensures r.(speedY := s.speedY) == s
  {
    if AtWall(s) then s.(speedY := -s.speedY) else s
  }

  /** The ball overlaps the left (player 1) paddle. */
  predicate LeftPaddleHit(s: PongState) {
    && s.ballX <= PaddleInset + PaddleWidth
    && s.ballY + BallSize as real >= s.player1Y as real
    && s.ballY <= (s.player1Y + PaddleHeight) as real
  }

  /** The ball overlaps the right (player 2) paddle. */
  predicate RightPaddleHit(s: PongState) {
    && s.ballX >= FieldWidth - PaddleInset - PaddleWidth - BallSize
    && s.ballY + BallSize as real >= s.player2Y as real
    && s.ballY <= (s.player2Y + PaddleHeight) as real
  }

  /** The left paddle sends the ball rightwards, at the same horizontal speed. */
  function LeftPaddle(s: PongState, nudge: real): (r: PongState)
    requires ValidNudge(nudge)
    ensures LeftPaddleHit(s) ==> r.speedX >= 0 && Abs(r.speedX) == Abs(s.speedX)
    ensures LeftPaddleHit(s) ==> -1.0 <= r.speedY - s.speedY <= 1.0
    ensures !LeftPaddleHit(s) ==> r == s
    ensures r.(speedX := s.speedX, speedY := s.speedY) == s
  {
    if LeftPaddleHit(s) then s.(speedX := Abs(s.speedX), speedY := s.speedY + nudge) else s
  }

  /** The right paddle sends the ball leftwards, at the same horizontal speed. */
  function RightPaddle(s: PongState, nudge: real): (r: PongState)
    requires ValidNudge(nudge)
    ensures RightPaddleHit(s) ==> r.speedX <= 0 && Abs(r.speedX) == Abs(s.speedX)
    ensures RightPaddleHit(s) ==> -1.0 <= r.speedY - s.speedY <= 1.0
    ensures !RightPaddleHit(s) ==> r == s
    ensures r.(speedX := s.speedX, speedY := s.speedY) == s
  {
    if RightPaddleHit(s) then s.(speedX := -Abs(s.speedX), speedY := s.speedY + nudge) else s
  }

  /** A ball past the left edge scores for player 2, past the right edge for player 1. */
  function Scoring(s: PongState, v: Serve): (r: PongState)
    requires ValidServe(v)
    ensures r.score2 == s.score2 + 1 <==> s.ballX < 0
    ensures r.score1 == s.score1 + 1 <==> s.ballX > FieldWidth
    ensures s.ballX < 0 || s.ballX > FieldWidth ==> r == ServeBall(r, v)
    ensures 0 <= s.ballX <= FieldWidth ==> r == s
    ensures r.score1 >= s.score1 && r.score2 >= s.score2
    ensures r.score1 + r.score2 <= s.score1 + s.score2 + 1
    // a point moves only the ball and the scorer's score
    ensures r.(ballX := s.ballX, ballY := s.ballY, speedX := s.speedX, speedY := s.speedY,
               score1 := s.score1, score2 := s.score2) == s
  {
    if s.ballX < 0 then ServeBall(s.(score2 := s.score2 + 1), v)
    else if s.ballX > FieldWidth then ServeBall(s.(score1 := s.score1 + 1), v)
    else s
  }

  /** updateGame: one timer tick. */
  function Tick(s: PongState, nudgeLeft: real, nudgeRight: real, v: Serve): (r: PongState)
    requires ValidNudge(nudgeLeft) && ValidNudge(nudgeRight) && ValidServe(v)
    ensures !Active(s) ==> r == s
    ensures r.running == s.running && r.paused == s.paused
    ensures r.player1Y == s.player1Y && r.player2Y == s.player2Y
    // at most one score changes, by exactly one
    ensures || (r.score1 == s.score1 && r.score2 == s.score2)
            || (r.score1 == s.score1 + 1 && r.score2 == s.score2)
            || (r.score1 == s.score1 && r.score2 == s.score2 + 1)
    ensures r.score2 == s.score2 + 1 <==> Active(s) && s.ballX + s.speedX < 0
    ensures r.score1 == s.score1 + 1 <==> Active(s) && s.ballX + s.speedX > FieldWidth
    // after a point the ball is served again from the centre
    ensures r.score1 != s.score1 || r.score2 != s.score2 ==>
              r.ballX == CenterX && r.ballY == CenterY as real && r.speedX == v.speedX && r.speedY == v.speedY
    // without a point the ball moves by its speed
    ensures Active(s) && 0 <= s.ballX + s.speedX <= FieldWidth ==>
              r.ballX == s.ballX + s.speedX && r.ballY == s.ballY + s.speedY
    // without a point or a paddle hit only the walls change the speed
    ensures Active(s) && 0 <= s.ballX + s.speedX <= FieldWidth
              && !LeftPaddleHit(Advance(s)) && !RightPaddleHit(Advance(s)) ==>
              r.speedX == s.speedX && r.speedY == (if AtWall(Advance(s)) then -s.speedY else s.speedY)
    ensures Inv(s) ==> Inv(r)
  {
    if !Active(s) then s
    else Scoring(RightPaddle(LeftPaddle(BounceWalls(Advance(s)), nudgeLeft), nudgeRight), v)
  }

  /** keyPressEvent: W/S move paddle 1, I/K move paddle 2, one step of 20. */
  function KeyPress(s: PongState, key: Key): (r: PongState)
    ensures !Active(s) ==> r == s
    ensures r.(player1Y := s.player1Y, player2Y := s.player2Y) == s
    ensures r.player1Y != s.player1Y ==> (key == KeyW || key == KeyS) && Abs(r.player1Y - s.player1Y) == PaddleStep
    ensures r.player2Y != s.player2Y ==> (key == KeyI || key == KeyK) && Abs(r.player2Y - s.player2Y) == PaddleStep
    ensures key == KeyW ==> r.player1Y <= s.player1Y
    ensures key == KeyS ==> r.player1Y >= s.player1Y
    ensures key == KeyI ==> r.player2Y <= s.player2Y
    ensures key == KeyK ==> r.player2Y >= s.player2Y
    // each key moves its paddle whenever its guard allows
    ensures Active(s) && key == KeyW && s.player1Y > 0 ==> r.player1Y == s.player1Y - PaddleStep
    ensures Active(s) && key == KeyS && s.player1Y < FieldHeight - PaddleHeight ==> r.player1Y == s.player1Y + PaddleStep
    ensures Active(s) && key == KeyI && s.player2Y > 0 ==> r.player2Y == s.player2Y - PaddleStep
    ensures Active(s) && key == KeyK && s.player2Y < FieldHeight - PaddleHeight ==> r.player2Y == s.player2Y + PaddleStep
    ensures Inv(s) ==> Inv(r)
  {
    if !Active(s) then s
    else
      var p1 :=
        if key == KeyW && s.player1Y > 0 then s.player1Y - PaddleStep
        else if key == KeyS && s.player1Y < FieldHeight - PaddleHeight then s.player1Y + PaddleStep
        else s.player1Y;
      var p2 :=
        if key == KeyI && s.player2Y > 0 then s.player2Y - PaddleStep
        else if key == KeyK && s.player2Y < FieldHeight - PaddleHeight then s.player2Y + PaddleStep
        else s.player2Y;
      s.(player1Y := p1, player2Y := p2)
  }

  /** What the window delivers to the game: button clicks, timer ticks, key presses. */
  datatype Event =
    | StartClicked
    | PauseClicked
    | ResetClicked
    | TimerTick(nudgeLeft: real, nudgeRight: real, serve: Serve)
    | KeyPressed(key: Key)

  predicate ValidEvent(e: Event) {
    e.TimerTick? ==> ValidNudge(e.nudgeLeft) && ValidNudge(e.nudgeRight) && ValidServe(e.serve)
  }

  predicate AllValid(events: seq<Event>) {
    forall i :: 0 <= i < |events| ==> ValidEvent(events[i])
  }

  /** One event, delivered by the window to the slot it is connected to. */
  function Step(s: PongState, e: Event): (r: PongState)
    requires ValidEvent(e)
    ensures Inv(s) ==> Inv(r)
    ensures e.ResetClicked? ==> r == Initial()
    ensures !e.ResetClicked? ==> r.score1 >= s.score1 && r.score2 >= s.score2
    ensures !e.ResetClicked? ==> r.score1 + r.score2 <= s.score1 + s.score2 + 1
  {
    match e
    case StartClicked => Start(s)
    case PauseClicked => Pause(s)
    case ResetClicked => Initial()
    case TimerTick(nl, nr, v) => Tick(s, nl, nr, v)
    case KeyPressed(k) => KeyPress(s, k)
  }

  /** The state after the events are delivered in order. */
  function Run(s: PongState, events: seq<Event>): (r: PongState)
    requires AllValid(events)
    ensures |events| > 0 && events[|events| - 1].ResetClicked? ==> r == Initial()
    decreases |events|
  {
    if events == [] then s else Run(Step(s, events[0]), events[1..])
  }

  /** Whatever happens in a match, the invariant holds throughout. */
  lemma {:induction false} RunPreservesInv(s: PongState, events: seq<Event>)
    requires Inv(s) && AllValid(events)
    ensures Inv(Run(s, events))
    decreases |events|
  {
    if events != [] {
      RunPreservesInv(Step(s, events[0]), events[1..]);
    }
  }

  /** From a fresh game, paddles stay in -10 .. 510 and the ball's horizontal speed is always 5 or -5. */
  lemma ReachableBounds(events: seq<Event>)
    requires AllValid(events)
    ensures var r := Run(Initial(), events);
      && -10 <= r.player1Y <= 510 && -10 <= r.player2Y <= 510
      && Abs(r.speedX) == BallSpeed
      && (r.paused ==> r.running)
  {
    RunPreservesInv(Initial(), events);
  }

  /**
   * Without a reset, scores never go down, and each event adds at most
   * one point in all.
   */
  lemma {:induction false} ScoresNeverDecrease(s: PongState, events: seq<Event>)
    requires AllValid(events)
    requires forall i :: 0 <= i < |events| ==> !events[i].ResetClicked?
    ensures Run(s, events).score1 >= s.score1 && Run(s, events).score2 >= s.score2
    ensures Run(s, events).score1 + Run(s, events).score2 <= s.score1 + s.score2 + |events|
    decreases |events|
  {
    if events != [] {
      ScoresNeverDecrease(Step(s, events[0]), events[1..]);
    }
  }

  /** Pausing twice while running gets back the same state; when stopped, pausing does nothing. */
  lemma PauseTwice(s: PongState)
    ensures Pause(Pause(s)) == s
    ensures !s.running ==> Pause(s) == s
  {
  }

  /** Reset restores the initial state from any state, so resetting twice is resetting once. */
  lemma ResetIdempotent(s: PongState)
    ensures Step(s, ResetClicked) == Initial()
    ensures Step(Step(s, ResetClicked), ResetClicked) == Step(s, ResetClicked)
  {
  }

  /**
   * A tick that returns the ball off the left paddle and scores no point
   * leaves it moving rightwards at speed 5; off the right paddle, leftwards.
   */
  lemma TickPaddleReturn(s: PongState, nudgeLeft: real, nudgeRight: real, v: Serve)
    requires Inv(s) && Active(s)
    requires ValidNudge(nudgeLeft) && ValidNudge(nudgeRight) && ValidServe(v)
    requires 0 <= s.ballX + s.speedX <= FieldWidth
    ensures LeftPaddleHit(BounceWalls(Advance(s))) ==> Tick(s, nudgeLeft, nudgeRight, v).speedX == BallSpeed
    ensures RightPaddleHit(BounceWalls(Advance(s))) ==> Tick(s, nudgeLeft, nudgeRight, v).speedX == -BallSpeed
  {
  }

  /**
   * The game window.  Its fields are the fields of PongGame that
   * initGame sets (the sizes are the constants above); each method does
   * what the method of the same name does, in the same order.
   */
  class PongGame {
    var gameRunning: bool
    var gamePaused: bool
    var ballX: int
    var ballY: real
    var ballSpeedX: int
    var ballSpeedY: real
    var player1Y: int
    var player2Y: int
    var player1Score: nat
    var player2Score: nat

    ghost function State(): PongState
      reads this
    {
      PongState(gameRunning, gamePaused, ballX, ballY, ballSpeedX, ballSpeedY,
                player1Y, player2Y, player1Score, player2Score)
    }

    ghost predicate Valid()
      reads this
    {
      Inv(State())
    }

    constructor ()
      ensures Valid() && State() == Initial()
    {
      new;
      InitGame();
    }

    method InitGame()
      modifies this
      ensures Valid() && State() == Initial()
    {
      player1Y := StartPaddleY;
      player2Y := StartPaddleY;
      ballX := CenterX;
      ballY := CenterY as real;
      ballSpeedX := BallSpeed;
      ballSpeedY := BallSpeed as real;
      player1Score := 0;
      player2Score := 0;
      gameRunning := false;
      gamePaused := false;
    }

    method StartGame()
      requires Valid()
      modifies this
      ensures Valid() && State() == Start(old(State()))
    {
      if !gameRunning {
        gameRunning := true;
        gamePaused := false;
      }
    }

    method PauseGame()
      requires Valid()
      modifies this
      ensures Valid() && State() == Pause(old(State()))
    {
      if gameRunning {
        if gamePaused {
          gamePaused := false;
        } else {
          gamePaused := true;
        }
      }
    }

    method ResetGame()
      modifies this
      ensures Valid() && State() == Initial()
    {
      InitGame();
    }

    method ResetBall(v: Serve)
      requires ValidServe(v)
      modifies this
      ensures State() == ServeBall(old(State()), v)
    {
      ballX := CenterX;
      ballY := CenterY as real;
      ballSpeedX := v.speedX;
      ballSpeedY := v.speedY;
    }

    method UpdateGame(nudgeLeft: real, nudgeRight: real, v: Serve)
      requires Valid() && ValidNudge(nudgeLeft) && ValidNudge(nudgeRight) && ValidServe(v)
      modifies this
      ensures State() == Tick(old(State()), nudgeLeft, nudgeRight, v) && Valid()
    {
      if !gameRunning || gamePaused {
        return;
      }
      ghost var s0 := State();
      ballX := ballX + ballSpeedX;
      ballY := ballY + ballSpeedY;
      ghost var s1 := State();
      assert s1 == Advance(s0);

      if ballY <= 0.0 || ballY >= (FieldHeight - BallSize) as real {
        ballSpeedY := -ballSpeedY;
      }
      ghost var s2 := State();
      assert s2 == BounceWalls(s1);

      if && ballX <= PaddleInset + PaddleWidth
         && ballY + BallSize as real >= player1Y as real
         && ballY <= (player1Y + PaddleHeight) as real
      {
        ballSpeedX := Abs(ballSpeedX);
        ballSpeedY := ballSpeedY + nudgeLeft;
      }
      ghost var s3 := State();
      assert s3 == LeftPaddle(s2, nudgeLeft);

      if && ballX >= FieldWidth - PaddleInset - PaddleWidth - BallSize
         && ballY + BallSize as real >= player2Y as real
         && ballY <= (player2Y + PaddleHeight) as real
      {
        ballSpeedX := -Abs(ballSpeedX);
        ballSpeedY := ballSpeedY + nudgeRight;
      }
      ghost var s4 := State();
      assert s4 == RightPaddle(s3, nudgeRight);

      if ballX < 0 {
        player2Score := player2Score + 1;
        ResetBall(v);
      } else if ballX > FieldWidth {
        player1Score := player1Score + 1;
        ResetBall(v);
      }
      assert State() == Scoring(s4, v) == Tick(s0, nudgeLeft, nudgeRight, v);
    }

    method KeyPressEvent(key: Key)
      requires Valid()
      modifies this
      ensures Valid() && State() == KeyPress(old(State()), key)
    {
      if !gameRunning || gamePaused {
        return;
      }
      if key == KeyW && player1Y > 0 {
        player1Y := player1Y - PaddleStep;
      } else if key == KeyS && player1Y < FieldHeight - PaddleHeight {
        player1Y := player1Y + PaddleStep;
      }
      if key == KeyI && player2Y > 0 {
        player2Y := player2Y - PaddleStep;
      } else if key == KeyK && player2Y < FieldHeight - PaddleHeight {
        player2Y := player2Y + PaddleStep;
      }
    }
  }
}
