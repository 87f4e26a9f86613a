# Pong and Bongo game rules in Dafny

This project models the game logic of two small games from the repository:

- `ping-pong.py`: a two-player Pong match in a fixed 800×600 window. The
  state is kept in the fields of the `PongGame` widget: running and paused
  flags, ball position and velocity, the two paddle heights and the two
  scores. The Start, Pause and Reset buttons, the 16 ms timer tick
  (`updateGame`), the serve after a point (`resetBall`) and the W/S and
  I/K paddle keys (`keyPressEvent`) change that state.
- `pongogame.py`: the console dice game "Bongo". Two players take turns
  rolling two dice. A roll of 3 and 3 wipes the roller's score. Any other
  double adds twice the sum. Any other roll adds the sum. The first player
  whose score reaches 100 after a roll wins.

Module `PingPong` (`ping_pong.dfy`) states each step of the Pong rules as a
pure function over a `PongState` value, with the invariant every match keeps
(`Inv`). It also gives functions that deliver a sequence of window events
(`Step`, `Run`), and lemmas over such runs. The class `PingPong.PongGame` has
the source's fields and methods. Each method updates the fields step by step
in the source's order. Each is proved to produce exactly the state the
matching function gives, and to keep `Inv`.

Module `Bongo` (`bongo.dfy`) states the roll, the per-roll scoring and one
turn as functions. `Play` plays a whole game over a given sequence of rolls.
The method `PlayBongo` is the game loop over a score table and a turn index,
and it is proved equal to `Play`.

The code fixes the field at 800×600 with 15×100 paddles. The paddle guards
(`player1_y > 0`, `player1_y < 500`) allow one 20-unit step past each edge,
so a paddle ranges over -10..510. There is no winning score: scores count up
until Reset. After a point the ball is served at a random horizontal speed
of ±5 and a random vertical speed in [-3, 3].

Randomness enters as parameters:

- the two `random.uniform(-1, 1)` nudges of a tick are `ValidNudge` reals;
- the `random.choice([-5, 5])` / `random.uniform(-3, 3)` serve is a
  `ValidServe` value;
- each die of `roll_dice` is an integer in 1..6.

## Model

| member | source | states |
|---|---|---|
| `PingPong.Initial` | ping-pong.py:76-94 | the starting state satisfies the match invariant, is neither running nor paused, and has both scores 0 |
| `PingPong.Start` | ping-pong.py:99-105 | a stopped match becomes running and unpaused; a running match is left exactly as it was; nothing but the two flags ever changes; the invariant is kept |
| `PingPong.Pause` | ping-pong.py:107-116 | the pause flag flips exactly when the match is running; `running` and every other field are never changed; the invariant is kept |
| `PingPong.ServeBall` | ping-pong.py:162-166 | after a serve the ball is at (400, 300) with horizontal speed 5 or -5 and vertical speed in [-3, 3]; scores, paddles and flags are untouched |
| `PingPong.Advance` | ping-pong.py:131-132 | the ball moves by exactly its speed on both axes; nothing else changes |
| `PingPong.BounceWalls` | ping-pong.py:134-136 | at or past the top (y ≤ 0) or bottom (y ≥ 585) wall the vertical speed is exactly negated; otherwise nothing changes; nothing but the vertical speed ever changes |
| `PingPong.LeftPaddle` | ping-pong.py:139-143 | after a left-paddle hit the horizontal speed is ≥ 0 with unchanged magnitude and the vertical speed moved by at most 1; without a hit nothing changes |
| `PingPong.RightPaddle` | ping-pong.py:146-150 | after a right-paddle hit the horizontal speed is ≤ 0 with unchanged magnitude and the vertical speed moved by at most 1; without a hit nothing changes |
| `PingPong.Scoring` | ping-pong.py:152-157 | player 2 gains a point exactly when the ball is left of x = 0, player 1 exactly when it is right of x = 800; a point serves the ball again; between the edges nothing changes; a point changes only the ball and the scorer's score, so the other score, the paddles and the flags stay as they were; the total rises by at most one |
| `PingPong.Tick` | ping-pong.py:127-157 | a tick of a stopped or paused match changes nothing; a tick never moves a paddle or a flag; at most one score changes, by exactly +1, player 2 exactly when the advanced ball is left of 0 and player 1 exactly when it is right of 800; after a point the ball is at the centre with the served speeds; without a point the ball moves by its speed; without a point or paddle hit the horizontal speed is unchanged and the vertical speed is negated exactly at a wall; the invariant is kept |
| `PingPong.KeyPress` | ping-pong.py:172-186 | keys of a stopped or paused match change nothing; only paddle heights change; paddle 1 moves only for W/S and paddle 2 only for I/K, each by exactly 20, W/I never downwards and S/K never upwards; in an active match each key does move its paddle whenever its guard (`y > 0` for W/I, `y < 500` for S/K) allows; the invariant (paddle in -10..510 on the 20-unit grid) is kept |
| `PingPong.Step` | ping-pong.py:72-97 | every button click, tick or key press keeps the match invariant; Reset yields the initial state; every other event never lowers a score and adds at most one point in all |
| `PingPong.Run` | ping-pong.py:96-97 | events delivered in order; a run whose last event is Reset ends in the initial state |
| `PingPong.RunPreservesInv` | ping-pong.py:76-186 | by induction over any sequence of events, the invariant holds after all of them |
| `PingPong.ReachableBounds` | ping-pong.py:81-82 | from a new game, every reachable state has both paddles in -10..510, horizontal speed ±5, and pause only while running |
| `PingPong.ScoresNeverDecrease` | ping-pong.py:152-157 | over any sequence of events without a reset, neither score goes down and the two together rise by at most one per event |
| `PingPong.PauseTwice` | ping-pong.py:107-116 | pausing twice restores the state; pausing a stopped match does nothing |
| `PingPong.ResetIdempotent` | ping-pong.py:118-120 | reset yields the initial state from any state, so a second reset changes nothing |
| `PingPong.TickPaddleReturn` | ping-pong.py:139-150 | when a tick scores no point, a left-paddle hit leaves the ball moving right at speed 5 and a right-paddle hit leaves it moving left at speed 5 |
| `PingPong.PongGame.constructor` | ping-pong.py:9-12 | a new game is in the initial state and satisfies the invariant |
| `PingPong.PongGame.InitGame` | ping-pong.py:76-94 | the fields are set to the initial state |
| `PingPong.PongGame.StartGame` | ping-pong.py:99-105 | the new fields are `Start` of the old ones; the invariant is kept |
| `PingPong.PongGame.PauseGame` | ping-pong.py:107-116 | the new fields are `Pause` of the old ones; the invariant is kept |
| `PingPong.PongGame.ResetGame` | ping-pong.py:118-120 | from any state the fields return to the initial state |
| `PingPong.PongGame.ResetBall` | ping-pong.py:162-166 | the new fields are `ServeBall` of the old ones |
| `PingPong.PongGame.UpdateGame` | ping-pong.py:127-157 | the in-place sequence of updates yields exactly `Tick` of the old state; the invariant is kept |
| `PingPong.PongGame.KeyPressEvent` | ping-pong.py:172-186 | the new fields are `KeyPress` of the old ones; the invariant is kept |
| `Bongo.RollDice` | pongogame.py:16-20 | each die is in 1..6, so the sum is in 2..12; `PlayBongo` obtains every roll through it |
| `Bongo.Gain` | pongogame.py:46-53 | a roll other than 3-3 adds between 3 and 24 points: four times the face for a double, the sum otherwise |
| `Bongo.ScoreAfterRoll` | pongogame.py:41-53 | a 3-3 roll sets the score to 0 whatever it was; any other roll raises it by 3..24; a non-negative score stays non-negative |
| `Bongo.Initial` | pongogame.py:24-26 | both scores start at 0 and nobody has won |
| `Bongo.Turn` | pongogame.py:41-65 | only the current player's score changes, by the roll's scoring; the turn is won exactly when that score reaches 100, by the current player; otherwise the turn passes to the other player, the index stays in {0, 1}, and a game in play stays in play |
| `Bongo.Play` | pongogame.py:29-65 | the game over a sequence of rolls: a won game used at most all the rolls and its winner, index 0 or 1, has at least 100; an unfinished game is well formed |
| `Bongo.BongoWipesScore` | pongogame.py:41-44 | a 3-3 roll leaves the roller at 0 and never ends the game |
| `Bongo.PlayOutcome` | pongogame.py:29-65 | by induction over the rolls: a finished game's winner reached 100, the loser is below 100, no score is negative, and the winner is the player whose turn the last used roll was; an unfinished game is in play with the turn advanced once per roll |
| `Bongo.PlayBongo` | pongogame.py:22-65 | the loop over the score table and turn index gives exactly `Play` from the initial state; a winner has ≥ 100 and the loser < 100; if the rolls run out, the game is still in play |

## Left out

- Qt presentation in `ping-pong.py` is not modelled: `initUI`, `paintEvent`, `updateScores`, `update()`, enabling buttons and changing their text, and starting and stopping the `QTimer`. It is rendering and event plumbing. Timer ticks are explicit `UpdateGame` calls (or `TimerTick` events).
- Qt key codes are reduced to the four keys the game reads plus one value for every other key.
- Random draws (`random.uniform`, `random.choice`, `random.randint`) are parameters constrained to their ranges. `UpdateGame` takes both paddle nudges and the serve on every tick, and uses each one only where the source would draw it.
- The vertical ball position and speed are `real`, so IEEE floating-point rounding is not modelled. The horizontal position and speed stay integers in the source and are `int` here.
- `pongogame.py` console I/O is not modelled: `print`, `input`, `time.sleep`, `display_welcome`, and the replay loop in `main`.
- `Bongo.PlayBongo`: the source loops until someone wins. The model consumes a finite sequence of rolls and returns `Unfinished` if they run out first.
- The score dictionary keyed by the two player names is a two-element sequence indexed by the turn index. The name list is that dictionary's keys in order.
- `sisitem.py` is not part of this model: it is a static greeting window with no game logic.
- Login, registration, SQLite persistence, match history and a 5-point win rule appear in none of these source files, so they are not modelled.
