/**
 * The eight-ball rule and setup engine (src/EBPRules.c). The rule state
 * machine has real logic only in the Breaking state: a valid break opens the
 * table, an invalid one sets the table up again. setupEBP racks the balls,
 * arms both cue sticks and clears the turn statistics.
 *
 * Each operation is specified by a function on the `World` value and
 * implemented by a method on the `GameWorld` object that is proved to move
 * the object's view exactly as that function says.
 */
module EBPRules {
  import opened Types
  import opened CueSticks
  import opened WorldState
  import opened Rack

  // ---------------------------------------------------------------------
  // Counting the cushion flags
  // ---------------------------------------------------------------------

  /** The number of true entries of s. */
  function CountTrue(s: seq<bool>): (n: nat)
    ensures n <= |s|
  {
    if |s| == 0 then 0 else CountTrue(s[..|s| - 1]) + (if s[|s| - 1] then 1 else 0)
  }

  /** The indices whose flag is set. */
  function TrueIndices(s: seq<bool>): set<int> {
    set k | 0 <= k < |s| && s[k]
  }

  /** The count is the number of set flags, whichever way it is counted. */
  lemma {:induction false} CountTrueIsCardinality(s: seq<bool>)
    ensures CountTrue(s) == |TrueIndices(s)|
  {
    if |s| > 0 {
      var t := s[..|s| - 1];
      CountTrueIsCardinality(t);
      var last := |s| - 1;
      if s[last] {
        assert TrueIndices(s) == TrueIndices(t) + {last};
        assert last !in TrueIndices(t);
      } else {
        assert TrueIndices(s) == TrueIndices(t);
      }
    }
  }

  /** countBallsTouchedCushion: one pass over the 16 flags. */
  method CountBallsTouchedCushion(gw: GameWorld) returns (c: int)
    requires |gw.statistics.ballsTouchedCushion| == BallCount + 1
    ensures c == CountTrue(gw.statistics.ballsTouchedCushion)
    ensures 0 <= c <= BallCount + 1
  {
    var flags := gw.statistics.ballsTouchedCushion;
    c := 0;
    for i := 0 to BallCount + 1
      invariant c == CountTrue(flags[..i])
    {
      assert flags[..i + 1][..i] == flags[..i];
      if flags[i] {
        c := c + 1;
      }
    }
    assert flags[..BallCount + 1] == flags;
  }

  // ---------------------------------------------------------------------
  // The turn statistics
  // ---------------------------------------------------------------------

  /**
   * resetStatistics: the counters to 0, the cue-ball-pocketed flag and all
   * 16 cushion flags to false, and the turn's pocketed count to 0. The
   * number of the first ball hit is not touched.
   */
  function ResetStats(s: Statistics): (r: Statistics)
    ensures r.cueBallCushionHits == 0 && r.cueBallHits == 0 && r.ballCushionHits == 0
    ensures !r.cueBallPocketed && r.pocketedBalls == []
    ensures |r.ballsTouchedCushion| == BallCount + 1
    ensures forall k :: 0 <= k < |r.ballsTouchedCushion| ==> !r.ballsTouchedCushion[k]
    ensures r.cueBallFirstHitNumber == s.cueBallFirstHitNumber
  {
    s.(cueBallCushionHits := 0, cueBallHits := 0, ballCushionHits := 0, cueBallPocketed := false,
       ballsTouchedCushion := seq(BallCount + 1, _ => false), pocketedBalls := [])
  }

  /** After a reset no cushion flag is counted, and resetting twice is resetting once. */
  lemma ResetStatsCleared(s: Statistics)
    ensures CountTrue(ResetStats(s).ballsTouchedCushion) == 0
    ensures ResetStats(ResetStats(s)) == ResetStats(s)
  {
    var flags := ResetStats(s).ballsTouchedCushion;
    CountTrueIsCardinality(flags);
    assert TrueIndices(flags) == {};
  }

  method ResetStatistics(gw: GameWorld)
    modifies gw
    ensures gw.View() == old(gw.View()).(statistics := ResetStats(old(gw.statistics)))
  {
    gw.statistics := ResetStats(gw.statistics);
  }

  /**
   * The break test: the cue ball hit something, did not fall, and either
   * four or more balls touched a cushion or a ball was pocketed.
   */
  predicate BreakValid(s: Statistics) {
    s.cueBallHits > 0 && !s.cueBallPocketed && (CountTrue(s.ballsTouchedCushion) >= 4 || |s.pocketedBalls| > 0)
  }

  /** The break test in terms of the set of balls that touched a cushion. */
  lemma BreakValidMeans(s: Statistics)
    ensures BreakValid(s) <==>
            s.cueBallHits > 0 && !s.cueBallPocketed &&
            (|TrueIndices(s.ballsTouchedCushion)| >= 4 || |s.pocketedBalls| > 0)
  {
    CountTrueIsCardinality(s.ballsTouchedCushion);
  }

  /** Fresh statistics never make a valid break. */
  lemma ResetStatsNoBreak(s: Statistics)
    ensures !BreakValid(ResetStats(s))
  {
  }

  // ---------------------------------------------------------------------
  // Setting the table up
  // ---------------------------------------------------------------------

  /**
   * The inputs setupEBP takes from outside the model: the 26 values the
   * rack's three shuffles draw, and the 16 ball centres the default
   * positioning routine leaves.
   */
  datatype SetupInput = SetupInput(draws: seq<int>, placement: seq<Vec>)

  ghost predicate SetupInputOk(si: SetupInput) {
    RackDraws(si.draws) && |si.placement| == BallCount + 1
  }

  /**
   * A cue stick as setupEBP arms it. The compound literal never names
   * `.group`, so C zero-fills it. The model assumes that zero is
   * BALL_GROUP_UNDEFINED, the first enumerator of the ball-group enum; the
   * header declaring that enum is not part of this model.
   */
  function NewStick(kind: Player, color: Color, target: Vec): (s: Stick)
    ensures s.kind == kind && s.target == target && s.state == Ready && s.pocketedBalls == []
    ensures s.group == Undefined && s.minPower <= s.power <= s.maxPower
  {
    Stick(target, BallRadius, 300.0, 0.0, 10, 400, 0, 1400, ZeroVec, color, [], Undefined, kind, Ready)
  }

  /** The cue ball and the 15 racked balls, before the positioning routine runs. */
  function RackBalls(screenHeight: nat, lay: Layout): (r: seq<Ball>)
    requires |lay.colors| == |lay.striped| == |lay.numbers| == BallCount
    ensures |r| == BallCount + 1
  {
    [Ball(HeadSpot(screenHeight), ZeroVec, White, false, 0, false, false)] +
    seq(BallCount, k requires 0 <= k < BallCount =>
      Ball(ZeroVec, ZeroVec, lay.colors[k], lay.striped[k], lay.numbers[k], false, false))
  }

  /** The positioning routine's outcome: every ball moved to its given centre. */
  function Placed(balls: seq<Ball>, placement: seq<Vec>): (r: seq<Ball>)
    requires |placement| == |balls|
    ensures |r| == |balls|
    ensures forall k :: 0 <= k < |r| ==> r[k] == balls[k].(center := placement[k])
  {
    seq(|balls|, k requires 0 <= k < |balls| => balls[k].(center := placement[k]))
  }

  /**
   * setupEBP on the discrete state: a shuffled rack, both sticks armed and
   * aimed at the cue ball, P1 to break, no ball pocketed and the statistics
   * reset. The last stick, the pending rules flag and the screen are kept.
   */
  function SetupWorld(w: World, si: SetupInput): World
    requires SetupInputOk(si)
  {
    var balls := Placed(RackBalls(w.screenHeight, RackLayout(true, si.draws)), si.placement);
    w.(balls := balls,
       cueStickP1 := NewStick(P1, P1Color, balls[0].center),
       cueStickP2 := NewStick(P2, P2Color, balls[0].center),
       currentCueStick := P1,
       state := Breaking,
       ballsState := BallsStopped,
       pocketedBalls := [],
       statistics := ResetStats(w.statistics),
       changeCurrentPlayer := false)
  }

  /**
   * What setupEBP leaves alone: the pending-rules flag, the last stick and,
   * through resetStatistics, the first-hit number keep their old values.
   */
  lemma SetupKeepsUnwritten(w: World, si: SetupInput)
    requires SetupInputOk(si)
    ensures var r := SetupWorld(w, si);
            && r.applyRules == w.applyRules && r.lastCueStick == w.lastCueStick
            && r.statistics.cueBallFirstHitNumber == w.statistics.cueBallFirstHitNumber
            && r.screenHeight == w.screenHeight
  {
  }

  /** What setupEBP promises about the table it leaves. */
  lemma SetupFacts(w: World, si: SetupInput)
    requires SetupInputOk(si)
    ensures var r := SetupWorld(w, si);
            var lay := RackLayout(true, si.draws);
            && |r.balls| == BallCount + 1
            && r.balls[0].number == 0 && r.balls[0].color == White
            && (forall i :: 1 <= i <= BallCount ==> r.balls[i].number == lay.numbers[i - 1])
            && (forall i :: 0 <= i < |r.balls| ==> !r.balls[i].pocketed && !r.balls[i].moving)
            && (forall i :: 0 <= i < |r.balls| ==> r.balls[i].center == si.placement[i])
            && r.cueStickP1.state == Ready && r.cueStickP2.state == Ready
            && r.cueStickP1.pocketedBalls == [] && r.cueStickP2.pocketedBalls == []
            && r.cueStickP1.target == r.cueStickP2.target == si.placement[0]
            && r.state == Breaking && r.ballsState == BallsStopped && r.currentCueStick == P1
            && r.pocketedBalls == [] && r.statistics.pocketedBalls == []
  {
    var lay := RackLayout(true, si.draws);
    var pre := RackBalls(w.screenHeight, lay);
    assert forall i :: 1 <= i <= BallCount ==> pre[i].number == lay.numbers[i - 1];
  }

  /**
   * The racked balls carry the numbers 1 to 15 once each, are striped
   * exactly when numbered above 8, and have the colour of their number.
   */
  lemma SetupRacksEveryNumber(w: World, si: SetupInput)
    requires SetupInputOk(si)
    ensures var r := SetupWorld(w, si);
            && multiset(BallNumbers(r.balls[1..])) == multiset(OneToFifteen)
            && (forall i :: 1 <= i < |r.balls| ==> r.balls[i].striped == (r.balls[i].number > 8))
            && (forall i :: 1 <= i < |r.balls| ==> r.balls[i].color == ColorOf(r.balls[i].number))
  {
    var lay := RackLayout(true, si.draws);
    var r := SetupWorld(w, si);
    SetupFacts(w, si);
    RackNumbersPermutation(true, si.draws);
    RackStripedByNumber(true, si.draws);
    RackColorsMatchNumbers(true, si.draws);
    assert BallNumbers(r.balls[1..]) == lay.numbers;
  }

  /** The numbers of a run of balls, in order. */
  function BallNumbers(balls: seq<Ball>): (r: seq<int>)
    ensures |r| == |balls| && forall k :: 0 <= k < |balls| ==> r[k] == balls[k].number
  {
    seq(|balls|, k requires 0 <= k < |balls| => balls[k].number)
  }

  /** The ball-initialising loop of setupEBP. */
  method FillRack(gw: GameWorld, colors: array<Color>, striped: array<bool>, numbers: array<int>)
    requires gw.Valid() && colors.Length == BallCount && striped.Length == BallCount && numbers.Length == BallCount
    modifies gw.balls
    ensures gw.balls[..] == RackBalls(gw.screenHeight, Layout(colors[..], striped[..], numbers[..]))
  {
    gw.balls[0] := Ball(HeadSpot(gw.screenHeight), ZeroVec, White, false, 0, false, false);
    for i := 1 to BallCount + 1
      invariant forall m :: 1 <= m < i ==>
        gw.balls[m] == Ball(ZeroVec, ZeroVec, colors[m - 1], striped[m - 1], numbers[m - 1], false, false)
      invariant gw.balls[0] == Ball(HeadSpot(gw.screenHeight), ZeroVec, White, false, 0, false, false)
    {
      gw.balls[i] := Ball(ZeroVec, ZeroVec, colors[i - 1], striped[i - 1], numbers[i - 1], false, false);
    }
  }

  /** Stands for the positioning routine: each ball moves to its given centre. */
  method PlaceBalls(gw: GameWorld, placement: seq<Vec>)
    requires gw.Valid() && |placement| == BallCount + 1
    modifies gw.balls
    ensures gw.balls[..] == Placed(old(gw.balls[..]), placement)
  {
    for i := 0 to BallCount + 1
      invariant forall m :: 0 <= m < i ==> gw.balls[m] == old(gw.balls[m]).(center := placement[m])
      invariant forall m :: i <= m < BallCount + 1 ==> gw.balls[m] == old(gw.balls[m])
    {
      gw.balls[i] := gw.balls[i].(center := placement[i]);
    }
  }

  /** The balls setupEBP leaves: prepareBallData, the initialising loop, the positioning. */
  method RackTable(gw: GameWorld, si: SetupInput)
    requires gw.Valid() && SetupInputOk(si)
    modifies gw.balls
    ensures gw.balls[..] == Placed(RackBalls(gw.screenHeight, RackLayout(true, si.draws)), si.placement)
  {
    var colors := new Color[BallCount](_ => Black);
    var striped := new bool[BallCount];
    var numbers := new int[BallCount];
    PrepareBallData(colors, striped, numbers, true, si.draws);
    FillRack(gw, colors, striped, numbers);
    PlaceBalls(gw, si.placement);
  }

  /** Both sticks armed and aimed at the cue ball. */
  method ArmSticks(gw: GameWorld, target: Vec)
    requires gw.Valid()
    modifies gw.cueStickP1, gw.cueStickP2
    ensures gw.cueStickP1.View() == NewStick(P1, P1Color, target)
    ensures gw.cueStickP2.View() == NewStick(P2, P2Color, target)
  {
    gw.cueStickP1.Assign(NewStick(P1, P1Color, target));
    gw.cueStickP2.Assign(NewStick(P2, P2Color, target));
  }

  /**
   * setupEBP. The rack comes from prepareBallData; the positioning routine
   * is represented by the given centres.
   */
  method SetupEBP(gw: GameWorld, si: SetupInput)
    requires gw.Valid() && SetupInputOk(si)
    modifies gw, gw.balls, gw.cueStickP1, gw.cueStickP2
    ensures gw.View() == SetupWorld(old(gw.View()), si)
  {
    RackTable(gw, si);
    ArmSticks(gw, gw.balls[0].center);
    gw.currentCueStick := P1;
    gw.state := Breaking;
    gw.ballsState := BallsStopped;
    gw.pocketedBalls := [];
    ResetStatistics(gw);
    gw.changeCurrentPlayer := false;
  }

  /** resetCueBallPosition: the cue ball back on the head spot, in play. */
  function RespotCueBall(w: World): (r: World)
    requires |w.balls| > 0
    ensures |r.balls| == |w.balls| && r.balls[0].center == HeadSpot(w.screenHeight) && !r.balls[0].pocketed
    ensures forall k :: 1 <= k < |w.balls| ==> r.balls[k] == w.balls[k]
    ensures r.balls[0] == w.balls[0].(center := r.balls[0].center, pocketed := false)
    ensures r == w.(balls := r.balls)
  {
    w.(balls := w.balls[0 := w.balls[0].(center := HeadSpot(w.screenHeight), pocketed := false)])
  }

  method ResetCueBallPosition(gw: GameWorld)
    requires gw.Valid()
    modifies gw.balls
    ensures gw.View() == RespotCueBall(old(gw.View()))
  {
    gw.balls[0] := gw.balls[0].(center := HeadSpot(gw.screenHeight), pocketed := false);
  }

  // ---------------------------------------------------------------------
  // The rule state machine
  // ---------------------------------------------------------------------

  /** applyRulesBreaking: open the table on a valid break, set up again otherwise. */
  function ApplyRulesBreaking(w: World, si: SetupInput): World
    requires SetupInputOk(si)
  {
    if BreakValid(w.statistics) then w.(statistics := ResetStats(w.statistics), state := OpenTable)
    else SetupWorld(w, si)
  }

  /** applyRulesEBP: only the Breaking state has rules in the program. */
  function ApplyRules(w: World, si: SetupInput): (r: World)
    requires SetupInputOk(si)
    ensures w.state != Breaking ==> r == w
  {
    match w.state
    case Breaking => ApplyRulesBreaking(w, si)
    case _ => w
  }

  /** The outcome of a break, in both directions. */
  lemma BreakOutcome(w: World, si: SetupInput)
    requires SetupInputOk(si) && w.state == Breaking
    ensures var r := ApplyRules(w, si);
            && (r.state == OpenTable <==> BreakValid(w.statistics))
            && (r.state == Breaking <==> !BreakValid(w.statistics))
  {
  }

  /** A valid break opens the table with fresh statistics and leaves the rest alone. */
  lemma ValidBreak(w: World, si: SetupInput)
    requires SetupInputOk(si) && w.state == Breaking && BreakValid(w.statistics)
    ensures var r := ApplyRules(w, si);
            && r.state == OpenTable && r.statistics == ResetStats(w.statistics)
            && r.balls == w.balls && r.pocketedBalls == w.pocketedBalls
            && r.cueStickP1 == w.cueStickP1 && r.cueStickP2 == w.cueStickP2
            && r.currentCueStick == w.currentCueStick
  {
  }

  /** An invalid break racks again: Breaking, P1 to shoot, nothing pocketed. */
  lemma InvalidBreak(w: World, si: SetupInput)
    requires SetupInputOk(si) && w.state == Breaking && !BreakValid(w.statistics)
    ensures var r := ApplyRules(w, si);
            && r == SetupWorld(w, si)
            && r.state == Breaking && r.currentCueStick == P1 && r.pocketedBalls == []
            && r.statistics.pocketedBalls == [] && r.ballsState == BallsStopped
            && (forall i :: 0 <= i < |r.balls| ==> !r.balls[i].pocketed)
  {
    SetupFacts(w, si);
  }

  method ApplyRulesBreakingState(gw: GameWorld, si: SetupInput)
    requires gw.Valid() && SetupInputOk(si)
    requires |gw.statistics.ballsTouchedCushion| == BallCount + 1
    modifies gw, gw.balls, gw.cueStickP1, gw.cueStickP2
    ensures gw.View() == ApplyRulesBreaking(old(gw.View()), si)
  {
    var touched := CountBallsTouchedCushion(gw);
    if gw.statistics.cueBallHits > 0 && !gw.statistics.cueBallPocketed &&
       (touched >= 4 || |gw.statistics.pocketedBalls| > 0) {
      ResetStatistics(gw);
      gw.state := OpenTable;
    } else {
      SetupEBP(gw, si);
    }
  }

  /** The three rule handlers the program leaves empty: each changes nothing. */
  method ApplyRulesOpenTable(gw: GameWorld)
    ensures gw.View() == old(gw.View())
  {
  }

  method ApplyRulesPlaying(gw: GameWorld)
    ensures gw.View() == old(gw.View())
  {
  }

  method ApplyRulesBallInHand(gw: GameWorld)
    ensures gw.View() == old(gw.View())
  {
  }

  method ApplyRulesEBP(gw: GameWorld, si: SetupInput)
    requires gw.Valid() && SetupInputOk(si)
    requires |gw.statistics.ballsTouchedCushion| == BallCount + 1
    modifies gw, gw.balls, gw.cueStickP1, gw.cueStickP2
    ensures gw.View() == ApplyRules(old(gw.View()), si)
  {
    match gw.state
    case Breaking => ApplyRulesBreakingState(gw, si);
    case OpenTable => ApplyRulesOpenTable(gw);
    case Playing => ApplyRulesPlaying(gw);
    case BallInHand => ApplyRulesBallInHand(gw);
    case GameOver =>
  }

  // ---------------------------------------------------------------------
  // The bookkeeping invariant
  // ---------------------------------------------------------------------

  /** The numbers of the pocketed balls, in index order. */
  function PocketedNumbers(balls: seq<Ball>): (r: seq<int>)
    ensures |r| <= |balls|
  {
    if |balls| == 0 then []
    else PocketedNumbers(balls[..|balls| - 1]) +
         (if balls[|balls| - 1].pocketed then [balls[|balls| - 1].number] else [])
  }

  /** `s` is what was appended last to `g`. */
  predicate SuffixOf(s: seq<int>, g: seq<int>) {
    |s| <= |g| && g[|g| - |s|..] == s
  }

  /**
   * What the bookkeeping keeps true between frames: the cue ball is ball 0
   * and is never left pocketed, balls 1-15 carry the numbers 1-15, the
   * hit counter is not negative, a pocketed ball is at rest, the turn's list is the tail of the game's
   * list, and the game's list holds exactly the numbers of the pocketed
   * balls.
   */
  ghost predicate Inv(w: World) {
    && WellFormed(w)
    && w.balls[0].number == 0 && !w.balls[0].pocketed
    && w.statistics.cueBallHits >= 0
    && (forall i :: 1 <= i < |w.balls| ==> 1 <= w.balls[i].number <= BallCount)
    && (forall i :: 0 <= i < |w.balls| ==> w.balls[i].pocketed ==> !w.balls[i].moving)
    && SuffixOf(w.statistics.pocketedBalls, w.pocketedBalls)
    && multiset(w.pocketedBalls) == multiset(PocketedNumbers(w.balls))
  }

  lemma {:induction false} PocketedNumbersNone(balls: seq<Ball>)
    requires forall i :: 0 <= i < |balls| ==> !balls[i].pocketed
    ensures PocketedNumbers(balls) == []
  {
    if |balls| > 0 {
      PocketedNumbersNone(balls[..|balls| - 1]);
    }
  }

  /** Every listed number belongs to a pocketed ball. */
  lemma {:induction false} PocketedNumbersFrom(balls: seq<Ball>, n: int)
    requires n in PocketedNumbers(balls)
    ensures exists i :: 0 <= i < |balls| && balls[i].pocketed && balls[i].number == n
  {
    var last := |balls| - 1;
    if n in PocketedNumbers(balls[..last]) {
      PocketedNumbersFrom(balls[..last], n);
      var i :| 0 <= i < last && balls[..last][i].pocketed && balls[..last][i].number == n;
      assert balls[i] == balls[..last][i];
    } else {
      assert balls[last].pocketed && balls[last].number == n;
    }
  }

  /** With the cue ball in play, at most 15 numbers are listed. */
  lemma {:induction false} PocketedNumbersBound(balls: seq<Ball>)
    requires |balls| > 0 && !balls[0].pocketed
    ensures |PocketedNumbers(balls)| <= |balls| - 1
  {
    if |balls| > 1 {
      var t := balls[..|balls| - 1];
      assert t[0] == balls[0];
      PocketedNumbersBound(t);
    } else {
      assert balls[..0] == [];
    }
  }

  /** Pocketing an unpocketed ball adds its number to the listed numbers, once. */
  lemma {:induction false} PocketedNumbersPocket(balls: seq<Ball>, i: int, b: Ball)
    requires 0 <= i < |balls| && !balls[i].pocketed && b.pocketed && b.number == balls[i].number
    ensures multiset(PocketedNumbers(balls[i := b])) == multiset(PocketedNumbers(balls)) + multiset{b.number}
  {
    var last := |balls| - 1;
    var u := balls[i := b];
    if i == last {
      assert u[..last] == balls[..last];
    } else {
      assert u[..last] == balls[..last][i := b];
      PocketedNumbersPocket(balls[..last], i, b);
    }
  }

  /** Changing a ball without changing its number or its pocketed flag keeps the list. */
  lemma {:induction false} PocketedNumbersKeep(balls: seq<Ball>, i: int, b: Ball)
    requires 0 <= i < |balls| && b.pocketed == balls[i].pocketed && b.number == balls[i].number
    ensures PocketedNumbers(balls[i := b]) == PocketedNumbers(balls)
  {
    var last := |balls| - 1;
    var u := balls[i := b];
    if i == last {
      assert u[..last] == balls[..last];
    } else {
      assert u[..last] == balls[..last][i := b];
      PocketedNumbersKeep(balls[..last], i, b);
    }
  }

  /** Bounds the invariant gives: at most 15 balls listed, never the cue ball. */
  lemma InvBounds(w: World)
    requires Inv(w)
    ensures |w.pocketedBalls| <= BallCount
    ensures 0 !in w.pocketedBalls
    ensures |w.statistics.pocketedBalls| <= |w.pocketedBalls|
  {
    PocketedNumbersBound(w.balls);
    assert |w.pocketedBalls| == |multiset(w.pocketedBalls)| == |PocketedNumbers(w.balls)|;
    if 0 in w.pocketedBalls {
      assert 0 in multiset(PocketedNumbers(w.balls));
      PocketedNumbersFrom(w.balls, 0);
      assert false;
    }
  }

  /** A set-up table satisfies the invariant. */
  lemma SetupEstablishesInv(w: World, si: SetupInput)
    requires SetupInputOk(si)
    ensures Inv(SetupWorld(w, si))
  {
    var r := SetupWorld(w, si);
    SetupFacts(w, si);
    SetupRacksEveryNumber(w, si);
    RackLayoutRange(true, si.draws);
    PocketedNumbersNone(r.balls);
  }

  /** Every racked number is one of 1 to 15. */
  lemma RackLayoutRange(shuffle: bool, draws: seq<int>)
    requires shuffle ==> RackDraws(draws)
    ensures forall k :: 0 <= k < BallCount ==> 1 <= RackLayout(shuffle, draws).numbers[k] <= BallCount
  {
    var ns := RackLayout(shuffle, draws).numbers;
    RackNumbersPermutation(shuffle, draws);
    forall k | 0 <= k < BallCount
      ensures 1 <= ns[k] <= BallCount
    {
      assert ns[k] in multiset(OneToFifteen);
    }
  }

  /** The rules keep the invariant. */
  lemma ApplyRulesPreservesInv(w: World, si: SetupInput)
    requires SetupInputOk(si) && Inv(w)
    ensures Inv(ApplyRules(w, si))
  {
    if w.state == Breaking && !BreakValid(w.statistics) {
      SetupEstablishesInv(w, si);
    }
  }
}
