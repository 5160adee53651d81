/**
 * Value types of the 8 ball pool game: the balls, the per-turn statistics,
 * the two cue sticks and the discrete state of the game world.
 *
 * `World` is the one unified record of the world's discrete state. Positions
 * and velocities are kept as opaque pairs of reals: the model never computes
 * with them, it only records where the frame update copies them.
 */
module Types {

  datatype Option<T> = None | Some(value: T)

  /** A 2D vector (raylib's Vector2). */
  datatype Vec = Vec(x: real, y: real)

  const ZeroVec := Vec(0.0, 0.0)

  /** An RGBA colour (raylib's Color). */
  datatype Color = Color(r: int, g: int, b: int, a: int)

  const EbpYellow := Color(255, 215, 0, 255)
  const EbpBlue := Color(0, 100, 200, 255)
  const EbpRed := Color(220, 20, 60, 255)
  const EbpPurple := Color(75, 0, 130, 255)
  const EbpOrange := Color(255, 100, 0, 255)
  const EbpGreen := Color(0, 128, 0, 255)
  const EbpBrown := Color(139, 69, 19, 255)
  const White := Color(255, 255, 255, 255)
  const Black := Color(0, 0, 0, 255)
  const P1Color := Color(17, 50, 102, 255)
  const P2Color := Color(102, 17, 37, 255)

  /** Number of numbered balls; the world holds these plus the cue ball. */
  const BallCount := 15
  const CushionCount := 6
  const PocketCount := 6
  const BallRadius := 10.0
  /** The table rectangle `boundarie` starts at x = MARGIN and is 700 wide. */
  const TableX := 100.0
  const TableWidth := 700.0

  /**
   * Where resetCueBallPosition puts the cue ball back: a quarter of the table
   * width from its left edge, at half the screen height. The screen height is
   * an int and is halved with C's integer division before the conversion.
   */
  function HeadSpot(screenHeight: nat): Vec {
    Vec(TableX + TableWidth / 4.0, (screenHeight / 2) as real)
  }

  /** The rule state machine's states, in the order of the source's enum. */
  datatype GameState = Breaking | OpenTable | Playing | BallInHand | GameOver

  datatype BallsState = BallsStopped | BallsMoving

  /** Ready, then Hitting while the strike is animated, then Hit when it lands. */
  datatype StickState = Ready | Hitting | Hit

  datatype BallGroup = Undefined | Plain | Striped

  /** The two cue stick slots; replaces the currentCueStick / lastCueStick pointers. */
  datatype Player = P1 | P2

  function Other(p: Player): (q: Player)
    ensures q != p
  {
    if p == P1 then P2 else P1
  }

  /** One ball; number 0 is the cue ball, 8 the black, 1-7 plain and 9-15 striped. */
  datatype Ball = Ball(
    center: Vec,
    vel: Vec,
    color: Color,
    striped: bool,
    number: int,
    moving: bool,
    pocketed: bool)

  /**
   * The statistics of the turn in progress. The counter the rule engine calls
   * `ballsPocketed` is the length of `pocketedBalls` (the frame update's
   * `statistics.pocketedCount`).
   */
  datatype Statistics = Statistics(
    cueBallCushionHits: int,
    cueBallHits: int,
    ballCushionHits: int,
    cueBallFirstHitNumber: int,
    cueBallPocketed: bool,
    ballsTouchedCushion: seq<bool>,
    pocketedBalls: seq<int>)

  /**
   * A cue stick. `power`, `minPower` and `maxPower` are the fields the cue
   * stick update calls `impulse`, `minImpulse` and `maxImpulse`.
   */
  datatype Stick = Stick(
    target: Vec,
    distanceFromTarget: real,
    size: real,
    angle: real,
    powerTick: int,
    power: int,
    minPower: int,
    maxPower: int,
    hitPoint: Vec,
    color: Color,
    pocketedBalls: seq<int>,
    group: BallGroup,
    kind: Player,
    state: StickState)

  /** The discrete state of the game world. */
  datatype World = World(
    balls: seq<Ball>,
    cueStickP1: Stick,
    cueStickP2: Stick,
    currentCueStick: Player,
    lastCueStick: Option<Player>,
    state: GameState,
    ballsState: BallsState,
    pocketedBalls: seq<int>,
    statistics: Statistics,
    applyRules: bool,
    changeCurrentPlayer: bool,
    screenHeight: nat)
  {
    /** The stick in slot p. */
    function StickOf(p: Player): Stick {
      if p == P1 then cueStickP1 else cueStickP2
    }

    /** This world with slot p holding s. */
    function WithStick(p: Player, s: Stick): World {
      if p == P1 then this.(cueStickP1 := s) else this.(cueStickP2 := s)
    }
  }

  /** The shape every world has: 16 balls numbered 0-15 and 16 cushion flags. */
  ghost predicate WellFormed(w: World) {
    && |w.balls| == BallCount + 1
    && (forall i :: 0 <= i < |w.balls| ==> 0 <= w.balls[i].number <= BallCount)
    && |w.statistics.ballsTouchedCushion| == BallCount + 1
  }
}
