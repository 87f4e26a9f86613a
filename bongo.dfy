/**
 * The dice game "Bongo" of pongogame.py: two players take turns rolling
 * two dice; a roll of 3 and 3 wipes the roller's score, any other double
 * adds twice the sum, anything else adds the sum; the first player whose
 * score reaches 100 after a roll wins.
 *
 * The rules are pure functions (a roll, a turn, a game over a sequence
 * of rolls); PlayBongo is the game loop, consuming the rolls one by one
 * as play_bongo does, and is proved to agree with Play.
 */
module Bongo {

  const TargetScore: int := 100
  // player_scores has two entries, and the turn index runs modulo its length.
  const PlayerCount: int := 2

  /** The two values of one roll of the dice. */
  datatype Roll = Roll(die1: int, die2: int)

  predicate IsDie(d: int) {
    1 <= d <= 6
  }

  predicate ValidRoll(r: Roll) {
    IsDie(r.die1) && IsDie(r.die2)
  }

  predicate AllValid(rolls: seq<Roll>) {
    forall i :: 0 <= i < |rolls| ==> ValidRoll(rolls[i])
  }

  /**
   * roll_dice: the two values random.randint(1, 6) draws are passed in;
   * each die of the roll is a face of a six-sided die.
   */
  function RollDice(draw1: int, draw2: int): (r: Roll)
    requires IsDie(draw1) && IsDie(draw2)
    ensures ValidRoll(r) && 2 <= r.die1 + r.die2 <= 12
  {
    Roll(draw1, draw2)
  }

  predicate IsBongo(r: Roll) {
    r.die1 == 3 && r.die2 == 3
  }

  predicate IsDouble(r: Roll) {
    r.die1 == r.die2
  }

  /** The points a roll other than 3-3 adds to the roller's score. */
  function Gain(r: Roll): (g: int)
    requires ValidRoll(r) && !IsBongo(r)
    ensures 3 <= g <= 24
    ensures IsDouble(r) ==> g == 4 * r.die1
    ensures !IsDouble(r) ==> g == r.die1 + r.die2
  {
    if r.die1 == r.die2 then (r.die1 + r.die2) * 2 else r.die1 + r.die2
  }

  /** The roller's score after a roll. */
  function ScoreAfterRoll(score: int, r: Roll): (s: int)
    requires ValidRoll(r)
    ensures IsBongo(r) ==> s == 0
    ensures !IsBongo(r) ==> score + 3 <= s <= score + 24
    ensures score >= 0 ==> s >= 0
  {
    if IsBongo(r) then 0 else score + Gain(r)
  }

  /** The game's variables: player_scores, by player index, and current_player_index. */
  datatype BongoState = BongoState(scores: seq<int>, current: int)

  predicate WellFormed(st: BongoState) {
    && |st.scores| == PlayerCount
    && 0 <= st.current < PlayerCount
    && st.scores[0] >= 0 && st.scores[1] >= 0
  }

  /** A state of a game nobody has won yet. */
  predicate InPlay(st: BongoState) {
    WellFormed(st) && st.scores[0] < TargetScore && st.scores[1] < TargetScore
  }

  /** The start of play_bongo: both scores 0, player 1 (index 0) to roll. */
  function Initial(): (st: BongoState)
    ensures InPlay(st) && st.scores[0] == st.scores[1] == 0
  {
    BongoState([0, 0], 0)
  }

  datatype TurnResult =
    | Winner(player: int, finalScores: seq<int>)
    | NextTurn(next: BongoState)

  function ScoresAfter(t: TurnResult): seq<int> {
    match t
    case Winner(_, sc) => sc
    case NextTurn(st) => st.scores
  }

  /** One pass of the loop of play_bongo: score the roll, then check for a win or pass the turn. */
  function Turn(st: BongoState, r: Roll): (t: TurnResult)
    requires WellFormed(st) && ValidRoll(r)
    ensures |ScoresAfter(t)| == PlayerCount
    ensures ScoresAfter(t)[st.current] == ScoreAfterRoll(st.scores[st.current], r)
    ensures ScoresAfter(t)[1 - st.current] == st.scores[1 - st.current]
    ensures t.Winner? <==> ScoreAfterRoll(st.scores[st.current], r) >= TargetScore
    ensures t.Winner? ==> t.player == st.current
    ensures t.NextTurn? ==> WellFormed(t.next) && t.next.current == 1 - st.current
    ensures t.NextTurn? && InPlay(st) ==> InPlay(t.next)
  {
    var scores := st.scores[st.current := ScoreAfterRoll(st.scores[st.current], r)];
    if scores[st.current] >= TargetScore then Winner(st.current, scores)
    else NextTurn(BongoState(scores, (st.current + 1) % PlayerCount))
  }

  /**
   * How a game fed with a given sequence of rolls ends: won, with the
   * final scores and the number of rolls left over, or still going when
   * the rolls run out.
   */
  datatype Outcome =
    | Won(winner: int, scores: seq<int>, unused: nat)
    | Unfinished(state: BongoState)

  function Play(st: BongoState, rolls: seq<Roll>): (o: Outcome)
    requires WellFormed(st) && AllValid(rolls)
    ensures o.Won? ==> o.unused < |rolls| && |o.scores| == PlayerCount
    ensures o.Won? ==> (o.winner == 0 || o.winner == 1) && o.scores[o.winner] >= TargetScore
    ensures o.Unfinished? ==> WellFormed(o.state)
    decreases |rolls|
  {
    if rolls == [] then Unfinished(st)
    else
      match Turn(st, rolls[0])
      case Winner(p, sc) => Won(p, sc, |rolls| - 1)
      case NextTurn(next) => Play(next, rolls[1..])
  }

  /**
   * The game ends with the roll that lifts the roller to 100 or more;
   * the winner is that roller, the loser is still below 100, no score
   * is negative, and the players have alternated, so the winner is fixed
   * by how many rolls were used.  A game the rolls do not finish is
   * still in play, with the turn passed once per roll.
   */
  lemma {:induction false} PlayOutcome(st: BongoState, rolls: seq<Roll>)
    requires InPlay(st) && AllValid(rolls)
    ensures match Play(st, rolls)
      case Won(w, sc, unused) =>
        && unused < |rolls|
        && (w == 0 || w == 1)
        && w == (st.current + |rolls| - unused - 1) % PlayerCount
        && |sc| == PlayerCount
        && sc[w] >= TargetScore && 0 <= sc[1 - w] < TargetScore
      case Unfinished(last) =>
        && InPlay(last)
        && last.current == (st.current + |rolls|) % PlayerCount
    decreases |rolls|
  {
    if rolls != [] {
      var t := Turn(st, rolls[0]);
      if t.NextTurn? {
        PlayOutcome(t.next, rolls[1..]);
      }
    }
  }

  /** A roll of 3 and 3 leaves the roller at 0, whatever the score was, and so never wins. */
  lemma BongoWipesScore(st: BongoState, r: Roll)
    requires WellFormed(st) && ValidRoll(r) && IsBongo(r)
    ensures Turn(st, r).NextTurn?
    ensures Turn(st, r).next.scores[st.current] == 0
  {
  }

  /**
   * play_bongo, fed with the rolls: the same loop over the score table
   * and the turn index, stopping at a win (or when the rolls run out).
   */
  method PlayBongo(rolls: seq<Roll>) returns (o: Outcome)
    requires AllValid(rolls)
    ensures o == Play(Initial(), rolls)
    ensures o.Won? ==> |o.scores| == PlayerCount && (o.winner == 0 || o.winner == 1)
    ensures o.Won? ==> o.scores[o.winner] >= TargetScore && 0 <= o.scores[1 - o.winner] < TargetScore
    ensures o.Unfinished? ==> InPlay(o.state)
  {
    var playerScores := [0, 0];
    var currentPlayerIndex := 0;
    var i := 0;
    while i < |rolls|
      invariant 0 <= i <= |rolls|
      invariant InPlay(BongoState(playerScores, currentPlayerIndex))
      invariant Play(BongoState(playerScores, currentPlayerIndex), rolls[i..]) == Play(Initial(), rolls)
    {
      ghost var before := BongoState(playerScores, currentPlayerIndex);
      assert rolls[i..][0] == rolls[i] && rolls[i..][1..] == rolls[i + 1..];
      var roll := RollDice(rolls[i].die1, rolls[i].die2);
      assert roll == rolls[i];
      var die1, die2 := roll.die1, roll.die2;
      if die1 == 3 && die2 == 3 {
        playerScores := playerScores[currentPlayerIndex := 0];
      } else if die1 == die2 {
        var scoreGained := (die1 + die2) * 2;
        playerScores := playerScores[currentPlayerIndex := playerScores[currentPlayerIndex] + scoreGained];
      } else {
        var scoreGained := die1 + die2;
        playerScores := playerScores[currentPlayerIndex := playerScores[currentPlayerIndex] + scoreGained];
      }
      i := i + 1;
      if playerScores[currentPlayerIndex] >= TargetScore {
        o := Won(currentPlayerIndex, playerScores, |rolls| - i);
        PlayOutcome(before, rolls[i - 1..]);
        return;
      }
      currentPlayerIndex := (currentPlayerIndex + 1) % |playerScores|;
    }
    o := Unfinished(BongoState(playerScores, currentPlayerIndex));
  }
}
