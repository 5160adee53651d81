/**
 * The game world object: the C struct GameWorld, whose fields the rule
 * engine and the frame update change in place. Its embedded array of 16
 * balls is an `array`, its two embedded cue sticks are `CueStick` objects
 * that never change identity, and the pointers into them are slot names.
 */
module WorldState {
  import opened Types
  import opened CueSticks

  class GameWorld {
    const balls: array<Ball>
    const cueStickP1: CueStick
    const cueStickP2: CueStick
    /** GetScreenHeight(), fixed by the window. */
    const screenHeight: nat
    var currentCueStick: Player
    var lastCueStick: Option<Player>
    var state: GameState
    var ballsState: BallsState
    var pocketedBalls: seq<int>
    var statistics: Statistics
    var applyRules: bool
    var changeCurrentPlayer: bool

    ghost predicate Valid() {
      balls.Length == BallCount + 1 && cueStickP1 != cueStickP2
    }

    /** The world's fields as a value. */
    function View(): World
      reads this, balls, cueStickP1, cueStickP2
    {
      World(balls[..], cueStickP1.View(), cueStickP2.View(), currentCueStick, lastCueStick,
            state, ballsState, pocketedBalls, statistics, applyRules, changeCurrentPlayer,
            screenHeight)
    }

    /** The stick the currentCueStick pointer designates. */
    function CurrentStick(): (cs: CueStick)
      reads this
      ensures cs == if currentCueStick == P1 then cueStickP1 else cueStickP2
    {
      if currentCueStick == P1 then cueStickP1 else cueStickP2
    }

    /**
     * The memory createGameWorld allocates with malloc, before setupEBP fills
     * it in. Its contents are indeterminate. setupEBP never writes the
     * pending-rules flag, the last stick or the first-hit number (which
     * resetStatistics keeps), so those three are parameters; every other
     * discrete field is overwritten by setupEBP and is taken to be zero.
     */
    constructor (screenHeight: nat, applyRules: bool, lastCueStick: Option<Player>, firstHit: int)
      ensures Valid() && fresh(balls) && fresh(cueStickP1) && fresh(cueStickP2)
      ensures View() == Blank(screenHeight, applyRules, lastCueStick, firstHit)
    {
      balls := new Ball[BallCount + 1](_ => ZeroBall);
      cueStickP1 := new CueStick.Zeroed();
      cueStickP2 := new CueStick.Zeroed();
      this.screenHeight := screenHeight;
      currentCueStick, this.lastCueStick := P1, lastCueStick;
      state, ballsState := Breaking, BallsStopped;
      pocketedBalls, statistics := [], ZeroStatistics(firstHit);
      this.applyRules, changeCurrentPlayer := applyRules, false;
      new;
      assert balls[..] == seq(BallCount + 1, _ => ZeroBall);
    }
  }

  const ZeroBall := Ball(ZeroVec, ZeroVec, Color(0, 0, 0, 0), false, 0, false, false)

  /** Zero statistics, but for the first-hit number left in memory. */
  function ZeroStatistics(firstHit: int): Statistics {
    Statistics(0, 0, 0, firstHit, false, seq(BallCount + 1, _ => false), [])
  }

  function Blank(screenHeight: nat, applyRules: bool, lastCueStick: Option<Player>, firstHit: int): World {
    World(seq(BallCount + 1, _ => ZeroBall), ZeroStick(), ZeroStick(), P1, lastCueStick, Breaking,
          BallsStopped, [], ZeroStatistics(firstHit), applyRules, false, screenHeight)
  }
}
