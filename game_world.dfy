/**
 * The discrete bookkeeping of one frame of updateGameWorld
 * (src/GameWorld.c): the shot trigger, the per-ball pass over cushions,
 * other balls and pockets, and the turn boundary that hands the table to
 * the other stick and runs the rules once.
 *
 * Geometry and physics are inputs: for every ball the frame supplies the
 * outcome of updateBall (centre, velocity, moving flag), which cushions it
 * hits, which balls it touches and which pockets hold more than half of it.
 */
module GameWorldUpdate {
  import opened Types
  import opened CueSticks
  import opened WorldState
  import opened EBPRules

  /** The outcome of updateBall for one ball. */
  datatype Motion = Motion(center: Vec, vel: Vec, moving: bool)

  /** The geometric outcomes for one ball in this frame. */
  datatype BallEvents = BallEvents(
    motion: Motion,
    cushionHits: seq<bool>,
    contacts: seq<bool>,
    inPocket: seq<bool>)

  predicate EventsOk(e: BallEvents) {
    |e.cushionHits| == CushionCount && |e.contacts| == BallCount + 1 && |e.inPocket| == PocketCount
  }

  /**
   * One frame's inputs: the left button press, whether the strike lands
   * (the stick reaching its Hit state), the wheel delta and the aim angle
   * for updateCueStick, the cue ball velocity the shot produces, the events
   * of each ball, and what a re-rack would draw.
   */
  datatype FrameInput = FrameInput(
    leftPressed: bool,
    strikeLands: bool,
    wheelMove: real,
    aimAngle: real,
    shotVelocity: Vec,
    events: seq<BallEvents>,
    setup: SetupInput)

  ghost predicate FrameInputOk(f: FrameInput) {
    && |f.events| == BallCount + 1
    && (forall i :: 0 <= i < |f.events| ==> EventsOk(f.events[i]))
    && SetupInputOk(f.setup)
  }

  // ---------------------------------------------------------------------
  // The shot
  // ---------------------------------------------------------------------

  /** The current stick through one frame of aiming: press, update, strike. */
  function Aimed(s: Stick, f: FrameInput): (r: Stick)
    ensures r.pocketedBalls == s.pocketedBalls && r.group == s.group && r.target == s.target
    ensures r.minPower == s.minPower && r.maxPower == s.maxPower
    ensures r.power == StepImpulse(s.power, f.wheelMove, s.minPower, s.maxPower)
  {
    var pressed := if f.leftPressed then s.(state := Hitting) else s;
    var updated := Updated(pressed, f.wheelMove, f.aimAngle);
    if f.strikeLands && updated.state == Hitting then updated.(state := Hit) else updated
  }

  /**
   * The shot phase: only while the balls are stopped, the current stick is
   * aimed, and when it has struck the cue ball takes the shot's velocity,
   * the stick goes back to Ready and the rules are armed.
   */
  function Shoot(w: World, f: FrameInput): World
    requires |w.balls| > 0
  {
    if w.ballsState != BallsStopped then w
    else
      var s := Aimed(w.StickOf(w.currentCueStick), f);
      if s.state == Hit then
        w.WithStick(w.currentCueStick, s.(state := Ready))
         .(balls := w.balls[0 := w.balls[0].(vel := f.shotVelocity)], applyRules := true)
      else w.WithStick(w.currentCueStick, s)
  }

  /** A shot fires exactly when the balls are stopped and the stick strikes; it then leaves the stick Ready
      with the rules armed and only the cue ball's velocity changed. */
  lemma ShotRules(w: World, f: FrameInput)
    requires |w.balls| > 0
    ensures var r := Shoot(w, f);
            && (w.ballsState != BallsStopped ==> r == w)
            && (w.ballsState == BallsStopped && Aimed(w.StickOf(w.currentCueStick), f).state == Hit ==>
                  r.applyRules && r.StickOf(r.currentCueStick).state == Ready && r.balls[0].vel == f.shotVelocity)
            && (Aimed(w.StickOf(w.currentCueStick), f).state != Hit ==> r.applyRules == w.applyRules && r.balls == w.balls)
            && (!w.applyRules && r.applyRules ==> w.ballsState == BallsStopped)
            && r.currentCueStick == w.currentCueStick && r.ballsState == w.ballsState
            && r.StickOf(Other(w.currentCueStick)) == w.StickOf(Other(w.currentCueStick))
            && |r.balls| == |w.balls|
            && (forall i :: 0 <= i < |w.balls| ==> r.balls[i] == w.balls[i].(vel := r.balls[i].vel))
            && (forall i :: 1 <= i < |w.balls| ==> r.balls[i] == w.balls[i])
            && r.statistics == w.statistics && r.pocketedBalls == w.pocketedBalls && r.state == w.state
  {
  }

  /** While the balls are stopped the current stick's power is the clamped one. */
  lemma ShotClampsPower(w: World, f: FrameInput)
    requires |w.balls| > 0 && w.ballsState == BallsStopped
    requires w.StickOf(w.currentCueStick).minPower <= w.StickOf(w.currentCueStick).maxPower
    ensures var s := Shoot(w, f).StickOf(w.currentCueStick);
            s.minPower <= s.power <= s.maxPower
  {
  }

  // ---------------------------------------------------------------------
  // One ball's pass
  // ---------------------------------------------------------------------

  /** updateBall's outcome applied to a ball. */
  function Advance(b: Ball, m: Motion): Ball {
    b.(center := m.center, vel := m.vel, moving := m.moving)
  }

  /** Some entry of s is set. */
  predicate AnySet(s: seq<bool>) {
    exists k :: 0 <= k < |s| && s[k]
  }

  /** The cushion-touch flag may be set once the cue ball has hit a ball, or outside the break. */
  predicate CushionGate(s: Statistics, state: GameState) {
    s.cueBallHits > 0 || state != Breaking
  }

  /** The cushion pass: a hit on any cushion marks the ball when the gate is open. */
  function CushionStep(s: Statistics, state: GameState, number: int, hits: seq<bool>): (r: Statistics)
    requires 0 <= number < |s.ballsTouchedCushion|
    ensures |r.ballsTouchedCushion| == |s.ballsTouchedCushion|
  {
    if AnySet(hits) && CushionGate(s, state)
    then s.(ballsTouchedCushion := s.ballsTouchedCushion[number := true])
    else s
  }

  /** The flag of the ball is set exactly when it hit a cushion through an open gate; nothing else changes. */
  lemma CushionStepMeans(s: Statistics, state: GameState, number: int, hits: seq<bool>)
    requires 0 <= number < |s.ballsTouchedCushion|
    ensures var r := CushionStep(s, state, number, hits);
            && r.ballsTouchedCushion[number] == (s.ballsTouchedCushion[number] || (AnySet(hits) && CushionGate(s, state)))
            && (forall k :: 0 <= k < |s.ballsTouchedCushion| && k != number ==> r.ballsTouchedCushion[k] == s.ballsTouchedCushion[k])
            && r.(ballsTouchedCushion := s.ballsTouchedCushion) == s
            && (state == Breaking && s.cueBallHits <= 0 ==> r == s)
  {
  }

  /** Ball j counts as a cue-ball contact: another ball, still on the table, touched. */
  predicate CueContact(balls: seq<Ball>, contacts: seq<bool>, j: int)
    requires 0 <= j < |balls| && |contacts| == |balls|
  {
    j != 0 && !balls[j].pocketed && contacts[j]
  }

  /** The contacts of the cue ball with balls 0..k-1, in index order. */
  function CueContacts(s: Statistics, balls: seq<Ball>, contacts: seq<bool>, k: nat): (r: Statistics)
    requires |contacts| == |balls| && k <= |balls|
    ensures r.(cueBallHits := s.cueBallHits, cueBallFirstHitNumber := s.cueBallFirstHitNumber) == s
  {
    if k == 0 then s
    else
      var t := CueContacts(s, balls, contacts, k - 1);
      if CueContact(balls, contacts, k - 1) then
        t.(cueBallFirstHitNumber := if t.cueBallHits == 0 then balls[k - 1].number else t.cueBallFirstHitNumber,
           cueBallHits := t.cueBallHits + 1)
      else t
  }

  /** The flags of the balls that count as contacts. */
  function ContactFlags(balls: seq<Ball>, contacts: seq<bool>): (r: seq<bool>)
    requires |contacts| == |balls|
    ensures |r| == |balls| && forall j :: 0 <= j < |balls| ==> r[j] == CueContact(balls, contacts, j)
  {
    seq(|balls|, j requires 0 <= j < |balls| => CueContact(balls, contacts, j))
  }

  /** The hit counter grows by one per contact. */
  lemma {:induction false} CueContactsCount(s: Statistics, balls: seq<Ball>, contacts: seq<bool>, k: nat)
    requires |contacts| == |balls| && k <= |balls|
    ensures CueContacts(s, balls, contacts, k).cueBallHits == s.cueBallHits + CountTrue(ContactFlags(balls, contacts)[..k])
  {
    if k > 0 {
      CueContactsCount(s, balls, contacts, k - 1);
      var flags := ContactFlags(balls, contacts);
      assert flags[..k][..k - 1] == flags[..k - 1];
    }
  }

  /** Without a contact nothing changes. */
  lemma {:induction false} CueContactsNone(s: Statistics, balls: seq<Ball>, contacts: seq<bool>, k: nat)
    requires |contacts| == |balls| && k <= |balls|
    requires forall j :: 0 <= j < k ==> !CueContact(balls, contacts, j)
    ensures CueContacts(s, balls, contacts, k) == s
  {
    if k > 0 {
      CueContactsNone(s, balls, contacts, k - 1);
    }
  }

  /** Once the cue ball has hit something, the recorded first hit stays. */
  lemma {:induction false} CueContactsKeepFirst(s: Statistics, balls: seq<Ball>, contacts: seq<bool>, k: nat)
    requires |contacts| == |balls| && k <= |balls| && s.cueBallHits > 0
    ensures CueContacts(s, balls, contacts, k).cueBallFirstHitNumber == s.cueBallFirstHitNumber
  {
    if k > 0 {
      CueContactsKeepFirst(s, balls, contacts, k - 1);
      CueContactsCount(s, balls, contacts, k - 1);
    }
  }

  /** Starting from no hit, the first ball touched, in index order, is the one recorded. */
  lemma {:induction false} CueContactsFirstHit(s: Statistics, balls: seq<Ball>, contacts: seq<bool>, k: nat, j: nat)
    requires |contacts| == |balls| && j < k <= |balls| && s.cueBallHits == 0
    requires CueContact(balls, contacts, j) && forall m :: 0 <= m < j ==> !CueContact(balls, contacts, m)
    ensures CueContacts(s, balls, contacts, k).cueBallFirstHitNumber == balls[j].number
  {
    if j == k - 1 {
      CueContactsNone(s, balls, contacts, k - 1);
    } else {
      CueContactsFirstHit(s, balls, contacts, k - 1, j);
      CueContactsCount(s, balls, contacts, k - 1);
      var flags := ContactFlags(balls, contacts);
      assert flags[..k - 1][j];
      CountTruePositive(flags[..k - 1], j);
    }
  }

  lemma {:induction false} CountTruePositive(s: seq<bool>, j: int)
    requires 0 <= j < |s| && s[j]
    ensures CountTrue(s) > 0
  {
    if j < |s| - 1 {
      var t := s[..|s| - 1];
      assert t[j];
      CountTruePositive(t, j);
    }
  }

  /**
   * Who is credited with ball n when the shooter's group is g: anybody's
   * ball goes to the shooter while the group is undefined; once it is
   * defined, an own-group ball goes to the shooter, a ball of the other
   * group to the opponent, and the 8 to nobody.
   */
  function Recipient(shooter: Player, g: BallGroup, n: int): Option<Player> {
    match g
    case Undefined => Some(shooter)
    case Plain => if n < 8 then Some(shooter) else if n > 8 then Some(Other(shooter)) else None
    case Striped => if n > 8 then Some(shooter) else if n < 8 then Some(Other(shooter)) else None
  }

  /** Ball n belongs to group g. */
  predicate InGroup(n: int, g: BallGroup) {
    (g == Plain && 1 <= n <= 7) || (g == Striped && 9 <= n <= 15)
  }

  /** Attribution in terms of group membership, for the numbered balls. */
  lemma RecipientMeans(shooter: Player, g: BallGroup, n: int)
    requires 1 <= n <= BallCount
    ensures Recipient(shooter, g, n) == Some(shooter) <==> g == Undefined || InGroup(n, g)
    ensures Recipient(shooter, g, n) == Some(Other(shooter)) <==> g != Undefined && !InGroup(n, g) && n != 8
    ensures Recipient(shooter, g, n) == None <==> g != Undefined && n == 8
  {
  }

  /** Credit ball n to whoever the current stick's group says. */
  function Attribute(w: World, n: int): World {
    match Recipient(w.currentCueStick, w.StickOf(w.currentCueStick).group, n)
    case None => w
    case Some(p) => w.WithStick(p, w.StickOf(p).(pocketedBalls := w.StickOf(p).pocketedBalls + [n]))
  }

  /**
   * A capture: the ball drops and stops. The cue ball marks the statistics
   * and goes back to the head spot; a numbered ball is credited (outside
   * the break) and appended to the turn's and the game's lists.
   */
  function Capture(w: World, i: int): World
    requires 0 <= i < |w.balls|
  {
    var b := w.balls[i].(pocketed := true, vel := ZeroVec, moving := false);
    var w1 := w.(balls := w.balls[i := b]);
    if i == 0 then RespotCueBall(w1.(statistics := w1.statistics.(cueBallPocketed := true)))
    else
      var w2 := if w.state != Breaking then Attribute(w1, b.number) else w1;
      w2.(statistics := w2.statistics.(pocketedBalls := w2.statistics.pocketedBalls + [b.number]),
          pocketedBalls := w2.pocketedBalls + [b.number])
  }

  /** The pocket pass: the first pocket holding the ball captures it, and one capture ends the pass. */
  function PocketStep(w: World, i: int, inPocket: seq<bool>): World
    requires 0 <= i < |w.balls|
  {
    if AnySet(inPocket) then Capture(w, i) else w
  }

  /** The whole pass of ball i; a pocketed ball is skipped. */
  function BallStep(w: World, i: int, e: BallEvents): (r: World)
    requires WellFormed(w) && 0 <= i < |w.balls| && EventsOk(e)
    ensures WellFormed(r)
  {
    if w.balls[i].pocketed then w
    else
      var w1 := w.(balls := w.balls[i := Advance(w.balls[i], e.motion)]);
      var w2 := w1.(statistics := CushionStep(w1.statistics, w1.state, w1.balls[i].number, e.cushionHits));
      var w3 := if i == 0 then w2.(statistics := CueContacts(w2.statistics, w2.balls, e.contacts, |w2.balls|)) else w2;
      PocketStep(w3, i, e.inPocket)
  }

  /** The passes of balls 0..k-1. */
  function BallsPass(w: World, events: seq<BallEvents>, k: nat): (r: World)
    requires WellFormed(w) && |events| == |w.balls| && k <= |w.balls|
    requires forall i :: 0 <= i < |events| ==> EventsOk(events[i])
    ensures WellFormed(r)
  {
    if k == 0 then w else BallStep(BallsPass(w, events, k - 1), k - 1, events[k - 1])
  }

  /** Some ball among the first k that was on the table before its pass is moving after it. */
  predicate MovingUpTo(before: seq<Ball>, after: seq<Ball>, k: int)
    requires |before| == |after|
  {
    exists m :: 0 <= m < k && m < |before| && !before[m].pocketed && after[m].moving
  }

  /** The `ballsMoving` flag of the ball loop. */
  predicate AnyMoving(before: seq<Ball>, after: seq<Ball>)
    requires |before| == |after|
  {
    MovingUpTo(before, after, |before|)
  }

  // ---------------------------------------------------------------------
  // The turn boundary and the whole frame
  // ---------------------------------------------------------------------

  /**
   * The end of the frame: the current stick aims at the cue ball; once the
   * balls have stopped and a shot was taken, the last stick is recorded,
   * the current stick passes to the other player, the rules run once and
   * the flag is cleared.
   */
  function Boundary(w: World, moving: bool, si: SetupInput): World
    requires |w.balls| > 0 && SetupInputOk(si)
  {
    var aimed := w.WithStick(w.currentCueStick, w.StickOf(w.currentCueStick).(target := w.balls[0].center));
    if moving then aimed.(ballsState := BallsMoving)
    else
      var stopped := aimed.(ballsState := BallsStopped);
      if !stopped.applyRules then stopped
      else
        ApplyRules(stopped.(lastCueStick := Some(stopped.currentCueStick),
                            currentCueStick := Other(stopped.currentCueStick)), si)
          .(applyRules := false)
  }

  /** One frame of updateGameWorld on the discrete state. */
  function Frame(w: World, f: FrameInput): World
    requires WellFormed(w) && FrameInputOk(f)
  {
    var shot := Shoot(w, f);
    var passed := BallsPass(shot, f.events, |shot.balls|);
    Boundary(passed, AnyMoving(shot.balls, passed.balls), f.setup)
  }

  // ---------------------------------------------------------------------
  // What the frame promises
  // ---------------------------------------------------------------------

  /** The credited stick's list grows by n, the other stick's does not change, and nothing else changes. */
  lemma AttributeMeans(w: World, n: int)
    ensures var r := Attribute(w, n);
            && r == w.(cueStickP1 := r.cueStickP1, cueStickP2 := r.cueStickP2)
            && (forall p :: r.StickOf(p) == w.StickOf(p).(pocketedBalls := r.StickOf(p).pocketedBalls))
            && (forall p ::
                  r.StickOf(p).pocketedBalls ==
                  if Recipient(w.currentCueStick, w.StickOf(w.currentCueStick).group, n) == Some(p)
                  then w.StickOf(p).pocketedBalls + [n] else w.StickOf(p).pocketedBalls)
  {
  }

  /**
   * A captured ball is pocketed and at rest; the cue ball is instead marked
   * in the statistics and respotted, never listed; a numbered ball is
   * appended to both lists, and during the break no stick is credited.
   */
  lemma CaptureMeans(w: World, i: int)
    requires 0 <= i < |w.balls|
    ensures var r := Capture(w, i);
            && |r.balls| == |w.balls|
            && (forall k :: 0 <= k < |w.balls| && k != i ==> r.balls[k] == w.balls[k])
            && r.balls[i].vel == ZeroVec && !r.balls[i].moving && r.balls[i].number == w.balls[i].number
            && r.state == w.state && r.currentCueStick == w.currentCueStick && r.applyRules == w.applyRules
            && r.lastCueStick == w.lastCueStick && r.ballsState == w.ballsState
            && (i == 0 ==>
                  && r.statistics == w.statistics.(cueBallPocketed := true)
                  && !r.balls[0].pocketed && r.balls[0].center == HeadSpot(w.screenHeight)
                  && r.pocketedBalls == w.pocketedBalls
                  && r.cueStickP1 == w.cueStickP1 && r.cueStickP2 == w.cueStickP2)
            && (i != 0 ==>
                  && r.balls[i].pocketed && r.balls[i].center == w.balls[i].center
                  && r.statistics == w.statistics.(pocketedBalls := w.statistics.pocketedBalls + [w.balls[i].number])
                  && r.pocketedBalls == w.pocketedBalls + [w.balls[i].number])
            && (i == 0 || w.state == Breaking ==> r.cueStickP1 == w.cueStickP1 && r.cueStickP2 == w.cueStickP2)
  {
    var b := w.balls[i].(pocketed := true, vel := ZeroVec, moving := false);
    AttributeMeans(w.(balls := w.balls[i := b]), b.number);
  }

  /**
   * One ball's pass: a pocketed ball is skipped, only ball i changes, at
   * most one number is appended, to both lists alike, and the turn state is
   * left to the boundary.
   */
  lemma BallStepMeans(w: World, i: int, e: BallEvents)
    requires WellFormed(w) && 0 <= i < |w.balls| && EventsOk(e)
    ensures var r := BallStep(w, i, e);
            && (w.balls[i].pocketed ==> r == w)
            && (forall k :: 0 <= k < |w.balls| && k != i ==> r.balls[k] == w.balls[k])
            && (!w.balls[i].pocketed && r.balls[i].moving ==> !r.balls[i].pocketed && e.motion.moving)
            && r.state == w.state && r.currentCueStick == w.currentCueStick && r.applyRules == w.applyRules
            && r.lastCueStick == w.lastCueStick && r.ballsState == w.ballsState && r.screenHeight == w.screenHeight
            && ((r.pocketedBalls == w.pocketedBalls && r.statistics.pocketedBalls == w.statistics.pocketedBalls) ||
                (r.pocketedBalls == w.pocketedBalls + [w.balls[i].number] &&
                 r.statistics.pocketedBalls == w.statistics.pocketedBalls + [w.balls[i].number]))
            && (w.state == Breaking ==> r.cueStickP1 == w.cueStickP1 && r.cueStickP2 == w.cueStickP2)
  {
    if !w.balls[i].pocketed {
      var w1 := w.(balls := w.balls[i := Advance(w.balls[i], e.motion)]);
      var w2 := w1.(statistics := CushionStep(w1.statistics, w1.state, w1.balls[i].number, e.cushionHits));
      var w3 := if i == 0 then w2.(statistics := CueContacts(w2.statistics, w2.balls, e.contacts, |w2.balls|)) else w2;
      assert w3.balls[i] == Advance(w.balls[i], e.motion);
      if AnySet(e.inPocket) {
        CaptureMeans(w3, i);
        assert BallStep(w, i, e) == Capture(w3, i);
        assert !BallStep(w, i, e).balls[i].moving;
      } else {
        assert BallStep(w, i, e) == w3;
        assert !BallStep(w, i, e).balls[i].pocketed;
      }
    }
  }

  /** The passes of balls 0..k-1 leave the later balls and the turn state alone. */
  lemma {:induction false} BallsPassFrame(w: World, events: seq<BallEvents>, k: nat)
    requires WellFormed(w) && |events| == |w.balls| && k <= |w.balls|
    requires forall i :: 0 <= i < |events| ==> EventsOk(events[i])
    ensures var r := BallsPass(w, events, k);
            && (forall m :: k <= m < |w.balls| ==> r.balls[m] == w.balls[m])
            && r.state == w.state && r.currentCueStick == w.currentCueStick && r.applyRules == w.applyRules
            && r.lastCueStick == w.lastCueStick && r.ballsState == w.ballsState && r.screenHeight == w.screenHeight
  {
    if k > 0 {
      BallsPassFrame(w, events, k - 1);
      BallStepMeans(BallsPass(w, events, k - 1), k - 1, events[k - 1]);
    }
  }

  /** Ball m is settled by its own pass: later passes do not touch it. */
  lemma {:induction false} BallsPassSettles(w: World, events: seq<BallEvents>, k: nat, m: nat)
    requires WellFormed(w) && |events| == |w.balls| && m < k <= |w.balls|
    requires forall i :: 0 <= i < |events| ==> EventsOk(events[i])
    ensures BallsPass(w, events, k).balls[m] == BallsPass(w, events, m + 1).balls[m]
  {
    if k > m + 1 {
      BallsPassSettles(w, events, k - 1, m);
      BallStepMeans(BallsPass(w, events, k - 1), k - 1, events[k - 1]);
    }
  }

  /** A ball that was pocketed stays as it was; one on the table that is moving after the pass is still on it. */
  lemma BallsPassBall(w: World, events: seq<BallEvents>, m: nat)
    requires WellFormed(w) && |events| == |w.balls| && m < |w.balls|
    requires forall i :: 0 <= i < |events| ==> EventsOk(events[i])
    ensures var r := BallsPass(w, events, |w.balls|);
            && (w.balls[m].pocketed ==> r.balls[m] == w.balls[m])
            && (!w.balls[m].pocketed && r.balls[m].moving ==> !r.balls[m].pocketed)
  {
    BallsPassSettles(w, events, |w.balls|, m);
    BallsPassFrame(w, events, m);
    BallStepMeans(BallsPass(w, events, m), m, events[m]);
  }

  /** One more ball's pass: the earlier balls stay, and ball i joins the moving test. */
  lemma MovingStep(w: World, events: seq<BallEvents>, i: nat)
    requires WellFormed(w) && |events| == |w.balls| && i < |w.balls|
    requires forall k :: 0 <= k < |events| ==> EventsOk(events[k])
    ensures var p, q := BallsPass(w, events, i), BallsPass(w, events, i + 1);
            && p.balls[i] == w.balls[i]
            && (p.balls[i].pocketed ==> q == p)
            && (MovingUpTo(w.balls, q.balls, i + 1) <==>
                  MovingUpTo(w.balls, p.balls, i) || (!w.balls[i].pocketed && q.balls[i].moving))
  {
    var p, q := BallsPass(w, events, i), BallsPass(w, events, i + 1);
    BallsPassFrame(w, events, i);
    BallStepMeans(p, i, events[i]);
    if MovingUpTo(w.balls, q.balls, i + 1) {
      var m :| 0 <= m < i + 1 && m < |w.balls| && !w.balls[m].pocketed && q.balls[m].moving;
      if m < i {
        assert p.balls[m] == q.balls[m];
      }
    }
    if MovingUpTo(w.balls, p.balls, i) {
      var m :| 0 <= m < i && m < |w.balls| && !w.balls[m].pocketed && p.balls[m].moving;
      assert p.balls[m] == q.balls[m];
    }
  }

  /** The moving balls the loop notices are exactly the balls left moving on the table. */
  lemma AnyMovingMeans(w: World, events: seq<BallEvents>)
    requires WellFormed(w) && |events| == |w.balls|
    requires forall i :: 0 <= i < |events| ==> EventsOk(events[i])
    requires forall m :: 0 <= m < |w.balls| ==> w.balls[m].pocketed ==> !w.balls[m].moving
    ensures var r := BallsPass(w, events, |w.balls|);
            AnyMoving(w.balls, r.balls) <==> exists m :: 0 <= m < |r.balls| && !r.balls[m].pocketed && r.balls[m].moving
  {
    var r := BallsPass(w, events, |w.balls|);
    if AnyMoving(w.balls, r.balls) {
      var m :| 0 <= m < |w.balls| && !w.balls[m].pocketed && r.balls[m].moving;
      BallsPassBall(w, events, m);
    }
    if exists m :: 0 <= m < |r.balls| && !r.balls[m].pocketed && r.balls[m].moving {
      var m :| 0 <= m < |r.balls| && !r.balls[m].pocketed && r.balls[m].moving;
      BallsPassBall(w, events, m);
    }
  }

  /** Appending n to both lists, or to neither, keeps the turn's gain equal to the game's. */
  lemma AppendToBoth(g0: seq<int>, s0: seq<int>, g: seq<int>, s: seq<int>, g1: seq<int>, s1: seq<int>, n: int)
    requires |g0| <= |g| && g[..|g0|] == g0 && s == s0 + g[|g0|..]
    requires (g1 == g && s1 == s) || (g1 == g + [n] && s1 == s + [n])
    ensures |g0| <= |g1| && g1[..|g0|] == g0 && s1 == s0 + g1[|g0|..]
  {
    if g1 != g {
      assert g1[..|g0|] == g[..|g0|];
      assert g1[|g0|..] == g[|g0|..] + [n];
    }
  }

  /**
   * The pass appends the same numbers, in the same order, to the turn's
   * and the game's list: the game's list keeps its old entries, and what
   * follows them is exactly what the turn's list gains.
   */
  lemma {:induction false} BallsPassAppendsToBoth(w: World, events: seq<BallEvents>, k: nat)
    requires WellFormed(w) && |events| == |w.balls| && k <= |w.balls|
    requires forall i :: 0 <= i < |events| ==> EventsOk(events[i])
    ensures var r := BallsPass(w, events, k);
            && |w.pocketedBalls| <= |r.pocketedBalls| && r.pocketedBalls[..|w.pocketedBalls|] == w.pocketedBalls
            && r.statistics.pocketedBalls == w.statistics.pocketedBalls + r.pocketedBalls[|w.pocketedBalls|..]
  {
    if k == 0 {
      assert w.pocketedBalls[|w.pocketedBalls|..] == [];
      assert w.statistics.pocketedBalls + [] == w.statistics.pocketedBalls;
    } else {
      BallsPassAppendsToBoth(w, events, k - 1);
      var p := BallsPass(w, events, k - 1);
      BallStepMeans(p, k - 1, events[k - 1]);
      var r := BallStep(p, k - 1, events[k - 1]);
      AppendToBoth(w.pocketedBalls, w.statistics.pocketedBalls, p.pocketedBalls, p.statistics.pocketedBalls,
                   r.pocketedBalls, r.statistics.pocketedBalls, p.balls[k - 1].number);
    }
  }

  /** During the break no stick is credited with any ball. */
  lemma {:induction false} BallsPassBreakCreditsNobody(w: World, events: seq<BallEvents>, k: nat)
    requires WellFormed(w) && |events| == |w.balls| && k <= |w.balls| && w.state == Breaking
    requires forall i :: 0 <= i < |events| ==> EventsOk(events[i])
    ensures var r := BallsPass(w, events, k);
            r.cueStickP1 == w.cueStickP1 && r.cueStickP2 == w.cueStickP2
  {
    if k > 0 {
      BallsPassBreakCreditsNobody(w, events, k - 1);
      BallsPassFrame(w, events, k - 1);
      BallStepMeans(BallsPass(w, events, k - 1), k - 1, events[k - 1]);
    }
  }

  /**
   * The boundary on its own: moving balls keep the turn; stopped balls with
   * the rules armed hand the table over (or re-rack after a failed break)
   * and clear the flag; stopped balls without them change no turn field.
   */
  lemma BoundaryMeans(w: World, moving: bool, si: SetupInput)
    requires |w.balls| > 0 && SetupInputOk(si)
    ensures var r := Boundary(w, moving, si);
            && (r.ballsState == BallsStopped <==> !moving)
            && (moving ==> r.currentCueStick == w.currentCueStick && r.applyRules == w.applyRules && r.state == w.state)
            && (!moving && !w.applyRules ==>
                  r.currentCueStick == w.currentCueStick && r.state == w.state && r.lastCueStick == w.lastCueStick)
            && (!moving && w.applyRules ==>
                  && r.lastCueStick == Some(w.currentCueStick) && !r.applyRules
                  && (if w.state == Breaking && !BreakValid(w.statistics)
                      then r.currentCueStick == P1 && r.state == Breaking
                      else r.currentCueStick == Other(w.currentCueStick)))
  {
    if !moving && w.applyRules {
      var aimed := w.WithStick(w.currentCueStick, w.StickOf(w.currentCueStick).(target := w.balls[0].center));
      var handed := aimed.(ballsState := BallsStopped)
                         .(lastCueStick := Some(w.currentCueStick), currentCueStick := Other(w.currentCueStick));
      if w.state == Breaking && !BreakValid(w.statistics) {
        InvalidBreak(handed, si);
      }
    }
  }

  /**
   * The turn boundary: the balls count as stopped exactly when no ball on
   * the table is moving. While they move the turn goes on; once they stop
   * after a shot, the last stick is the one that shot, the other player
   * takes the table (unless a failed break re-racks, which gives it to
   * P1), and the rules flag is cleared.
   */
  lemma TurnBoundary(w: World, f: FrameInput)
    requires WellFormed(w) && FrameInputOk(f)
    requires forall m :: 0 <= m < |w.balls| ==> w.balls[m].pocketed ==> !w.balls[m].moving
    ensures var shot := Shoot(w, f);
            var passed := BallsPass(shot, f.events, |shot.balls|);
            var r := Frame(w, f);
            && (r.ballsState == BallsStopped <==>
                  forall m :: 0 <= m < |passed.balls| ==> !passed.balls[m].pocketed ==> !passed.balls[m].moving)
            && (r.ballsState == BallsMoving ==>
                  r.currentCueStick == w.currentCueStick && r.applyRules == shot.applyRules && r.state == w.state)
            && (r.ballsState == BallsStopped && !shot.applyRules ==>
                  r.currentCueStick == w.currentCueStick && r.state == w.state && r.lastCueStick == w.lastCueStick)
            && (r.ballsState == BallsStopped && shot.applyRules ==>
                  && r.lastCueStick == Some(w.currentCueStick) && !r.applyRules
                  && (if w.state == Breaking && !BreakValid(passed.statistics)
                      then r.currentCueStick == P1 && r.state == Breaking
                      else r.currentCueStick == Other(w.currentCueStick)))
  {
    var shot := Shoot(w, f);
    ShotRules(w, f);
    BallsPassFrame(shot, f.events, |shot.balls|);
    AnyMovingMeans(shot, f.events);
    var passed := BallsPass(shot, f.events, |shot.balls|);
    BoundaryMeans(passed, AnyMoving(shot.balls, passed.balls), f.setup);
  }

  /** Appending the same number to both lists keeps the turn's list a tail of the game's. */
  lemma SuffixAppend(s: seq<int>, g: seq<int>, n: int)
    requires SuffixOf(s, g)
    ensures SuffixOf(s + [n], g + [n])
  {
    assert (g + [n])[|g + [n]| - |s + [n]|..] == g[|g| - |s|..] + [n];
  }

  /** A capture during a pass keeps the invariant. */
  lemma CapturePreservesInv(w: World, i: int)
    requires Inv(w) && 0 <= i < |w.balls| && !w.balls[i].pocketed
    ensures Inv(Capture(w, i))
  {
    var r := Capture(w, i);
    CaptureMeans(w, i);
    if i == 0 {
      assert r.balls == w.balls[0 := r.balls[0]];
      PocketedNumbersKeep(w.balls, 0, r.balls[0]);
    } else {
      assert r.balls == w.balls[i := r.balls[i]];
      PocketedNumbersPocket(w.balls, i, r.balls[i]);
      SuffixAppend(w.statistics.pocketedBalls, w.pocketedBalls, w.balls[i].number);
    }
  }

  /** Moving a ball that is on the table keeps the invariant. */
  lemma AdvancePreservesInv(w: World, i: int, m: Motion)
    requires Inv(w) && 0 <= i < |w.balls| && !w.balls[i].pocketed
    ensures Inv(w.(balls := w.balls[i := Advance(w.balls[i], m)]))
  {
    PocketedNumbersKeep(w.balls, i, Advance(w.balls[i], m));
  }

  /** New statistics with the same turn list and a hit counter that is not negative keep the invariant. */
  lemma StatisticsPreserveInv(w: World, s: Statistics)
    requires Inv(w) && s.cueBallHits >= 0 && s.pocketedBalls == w.statistics.pocketedBalls
    requires |s.ballsTouchedCushion| == |w.statistics.ballsTouchedCushion|
    ensures Inv(w.(statistics := s))
  {
  }

  /** One ball's pass keeps the invariant. */
  lemma BallStepPreservesInv(w: World, i: int, e: BallEvents)
    requires Inv(w) && 0 <= i < |w.balls| && EventsOk(e)
    ensures Inv(BallStep(w, i, e))
  {
    if !w.balls[i].pocketed {
      var w1 := w.(balls := w.balls[i := Advance(w.balls[i], e.motion)]);
      AdvancePreservesInv(w, i, e.motion);
      var s2 := CushionStep(w1.statistics, w1.state, w1.balls[i].number, e.cushionHits);
      CushionStepMeans(w1.statistics, w1.state, w1.balls[i].number, e.cushionHits);
      StatisticsPreserveInv(w1, s2);
      var w2 := w1.(statistics := s2);
      if i == 0 {
        var s3 := CueContacts(w2.statistics, w2.balls, e.contacts, |w2.balls|);
        CueContactsCount(w2.statistics, w2.balls, e.contacts, |w2.balls|);
        StatisticsPreserveInv(w2, s3);
      }
      var w3 := if i == 0 then w2.(statistics := CueContacts(w2.statistics, w2.balls, e.contacts, |w2.balls|)) else w2;
      assert BallStep(w, i, e) == PocketStep(w3, i, e.inPocket);
      if AnySet(e.inPocket) {
        CapturePreservesInv(w3, i);
      }
    }
  }

  lemma {:induction false} BallsPassPreservesInv(w: World, events: seq<BallEvents>, k: nat)
    requires Inv(w) && |events| == |w.balls| && k <= |w.balls|
    requires forall i :: 0 <= i < |events| ==> EventsOk(events[i])
    ensures Inv(BallsPass(w, events, k))
  {
    if k > 0 {
      BallsPassPreservesInv(w, events, k - 1);
      BallStepPreservesInv(BallsPass(w, events, k - 1), k - 1, events[k - 1]);
    }
  }

  /** The shot changes no number, no pocketed flag and no list. */
  lemma ShotPreservesInv(w: World, f: FrameInput)
    requires Inv(w)
    ensures Inv(Shoot(w, f))
  {
    var shot := Shoot(w, f);
    ShotRules(w, f);
    PocketedNumbersShot(w.balls, shot.balls);
  }

  /** The invariant is about the balls, the statistics and the game's list only. */
  lemma InvOnTable(w: World, v: World)
    requires Inv(w) && v.balls == w.balls && v.statistics == w.statistics && v.pocketedBalls == w.pocketedBalls
    ensures Inv(v)
  {
  }

  /** The boundary re-aims a stick and may run the rules, which keep the invariant. */
  lemma BoundaryPreservesInv(w: World, moving: bool, si: SetupInput)
    requires Inv(w) && SetupInputOk(si)
    ensures Inv(Boundary(w, moving, si))
  {
    var aimed := w.WithStick(w.currentCueStick, w.StickOf(w.currentCueStick).(target := w.balls[0].center));
    InvOnTable(w, aimed);
    if !moving && w.applyRules {
      var handed := aimed.(ballsState := BallsStopped)
                         .(lastCueStick := Some(w.currentCueStick), currentCueStick := Other(w.currentCueStick));
      InvOnTable(w, handed);
      ApplyRulesPreservesInv(handed, si);
      InvOnTable(ApplyRules(handed, si), ApplyRules(handed, si).(applyRules := false));
    } else if !moving {
      InvOnTable(w, aimed.(ballsState := BallsStopped));
    } else {
      InvOnTable(w, aimed.(ballsState := BallsMoving));
    }
  }

  /**
   * A frame keeps the invariant; with it, the game's list never holds more
   * than 15 numbers nor the cue ball between two set-ups.
   */
  lemma FramePreservesInv(w: World, f: FrameInput)
    requires Inv(w) && FrameInputOk(f)
    ensures Inv(Frame(w, f))
    ensures |Frame(w, f).pocketedBalls| <= BallCount && 0 !in Frame(w, f).pocketedBalls
  {
    var shot := Shoot(w, f);
    ShotPreservesInv(w, f);
    BallsPassPreservesInv(shot, f.events, |shot.balls|);
    var passed := BallsPass(shot, f.events, |shot.balls|);
    BoundaryPreservesInv(passed, AnyMoving(shot.balls, passed.balls), f.setup);
    InvBounds(Frame(w, f));
  }

  /** Changing only velocities keeps the listed numbers. */
  lemma {:induction false} PocketedNumbersShot(before: seq<Ball>, after: seq<Ball>)
    requires |before| == |after|
    requires forall i :: 0 <= i < |before| ==> after[i] == before[i].(vel := after[i].vel)
    ensures PocketedNumbers(after) == PocketedNumbers(before)
  {
    if |before| > 0 {
      PocketedNumbersShot(before[..|before| - 1], after[..|after| - 1]);
    }
  }

  // ---------------------------------------------------------------------
  // updateGameWorld on the GameWorld object
  // ---------------------------------------------------------------------

  /** The stick's part of the shot phase: the press, the update, the strike. */
  method AimStick(cs: CueStick, f: FrameInput)
    modifies cs
    ensures cs.View() == Aimed(old(cs.View()), f)
  {
    if f.leftPressed {
      cs.state := Hitting;
    }
    cs.Update(f.wheelMove, f.aimAngle);
    if f.strikeLands && cs.state == Hitting {
      cs.state := Hit;
    }
  }

  /** The stick has struck: the cue ball takes the shot, the stick is Ready, the rules are armed. */
  method Fire(gw: GameWorld, shotVelocity: Vec)
    requires gw.Valid()
    modifies gw, gw.balls, gw.CurrentStick()
    ensures var w := old(gw.View());
            gw.View() == w.WithStick(w.currentCueStick, w.StickOf(w.currentCueStick).(state := Ready))
                          .(balls := w.balls[0 := w.balls[0].(vel := shotVelocity)], applyRules := true)
  {
    var cs := gw.CurrentStick();
    cs.state := Ready;
    gw.balls[0] := gw.balls[0].(vel := shotVelocity);
    gw.applyRules := true;
  }

  method AimAndShoot(gw: GameWorld, f: FrameInput)
    requires gw.Valid()
    modifies gw, gw.balls, gw.cueStickP1, gw.cueStickP2
    ensures gw.View() == Shoot(old(gw.View()), f)
  {
    if gw.ballsState == BallsStopped {
      var cs := gw.CurrentStick();
      ghost var w0 := gw.View();
      AimStick(cs, f);
      assert gw.View() == w0.WithStick(w0.currentCueStick, Aimed(w0.StickOf(w0.currentCueStick), f));
      if cs.state == Hit {
        Fire(gw, f.shotVelocity);
      }
    }
  }

  /** The cushion loop of one ball, on the discrete flags only. */
  method CushionPass(gw: GameWorld, i: int, hits: seq<bool>)
    requires gw.Valid() && WellFormed(gw.View()) && 0 <= i < gw.balls.Length && |hits| == CushionCount
    modifies gw
    ensures gw.View() == old(gw.View()).(statistics :=
              CushionStep(old(gw.statistics), gw.state, gw.balls[i].number, hits))
  {
    ghost var s0 := gw.statistics;
    var number := gw.balls[i].number;
    for j := 0 to CushionCount
      invariant gw.statistics == CushionStep(s0, gw.state, number, hits[..j])
      invariant gw.View() == old(gw.View()).(statistics := gw.statistics)
    {
      assert AnySet(hits[..j + 1]) <==> AnySet(hits[..j]) || hits[j] by {
        assert forall k :: 0 <= k < j ==> hits[..j + 1][k] == hits[..j][k];
        if AnySet(hits[..j + 1]) && !hits[j] {
          var k :| 0 <= k < j + 1 && hits[..j + 1][k];
          assert hits[..j][k];
        }
        if AnySet(hits[..j]) {
          var k :| 0 <= k < j && hits[..j][k];
          assert hits[..j + 1][k];
        }
      }
      if hits[j] {
        if gw.statistics.cueBallHits > 0 || gw.state != Breaking {
          gw.statistics := gw.statistics.(ballsTouchedCushion := gw.statistics.ballsTouchedCushion[number := true]);
        }
      }
    }
    assert hits[..CushionCount] == hits;
  }

  /** The ball-against-ball loop of one ball; only the cue ball's contacts are counted. */
  method ContactPass(gw: GameWorld, i: int, contacts: seq<bool>)
    requires gw.Valid() && 0 <= i < gw.balls.Length && |contacts| == gw.balls.Length
    modifies gw
    ensures gw.View() == old(gw.View()).(statistics :=
              if i == 0 then CueContacts(old(gw.statistics), gw.balls[..], contacts, gw.balls.Length)
              else old(gw.statistics))
  {
    ghost var s0 := gw.statistics;
    for j := 0 to BallCount + 1
      invariant gw.statistics == if i == 0 then CueContacts(s0, gw.balls[..], contacts, j) else s0
      invariant gw.View() == old(gw.View()).(statistics := gw.statistics)
    {
      if j != i && !gw.balls[j].pocketed && contacts[j] {
        if i == 0 {
          if gw.statistics.cueBallHits == 0 {
            gw.statistics := gw.statistics.(cueBallFirstHitNumber := gw.balls[j].number);
          }
          gw.statistics := gw.statistics.(cueBallHits := gw.statistics.cueBallHits + 1);
        }
      }
    }
  }

  /** The attribution block: the nested tests on the shooter's group. */
  method AttributeBall(gw: GameWorld, n: int)
    requires gw.Valid()
    modifies gw.cueStickP1, gw.cueStickP2
    ensures gw.View() == Attribute(old(gw.View()), n)
  {
    var shooter := gw.CurrentStick();
    if shooter.group == Undefined {
      if gw.currentCueStick == P1 {
        gw.cueStickP1.Credit(n);
      } else {
        gw.cueStickP2.Credit(n);
      }
    } else if shooter.group == Plain {
      if gw.currentCueStick == P1 {
        if n < 8 {
          gw.cueStickP1.Credit(n);
        } else if n > 8 {
          gw.cueStickP2.Credit(n);
        }
      } else {
        if n < 8 {
          gw.cueStickP2.Credit(n);
        } else if n > 8 {
          gw.cueStickP1.Credit(n);
        }
      }
    } else if shooter.group == Striped {
      if gw.currentCueStick == P1 {
        if n > 8 {
          gw.cueStickP1.Credit(n);
        } else if n < 8 {
          gw.cueStickP2.Credit(n);
        }
      } else {
        if n > 8 {
          gw.cueStickP2.Credit(n);
        } else if n < 8 {
          gw.cueStickP1.Credit(n);
        }
      }
    }
  }

  /** What happens when a pocket holds ball i. */
  method CaptureBall(gw: GameWorld, i: int)
    requires gw.Valid() && 0 <= i < gw.balls.Length
    modifies gw, gw.balls, gw.cueStickP1, gw.cueStickP2
    ensures gw.View() == Capture(old(gw.View()), i)
  {
    gw.balls[i] := gw.balls[i].(pocketed := true, vel := ZeroVec, moving := false);
    if i == 0 {
      gw.statistics := gw.statistics.(cueBallPocketed := true);
      ResetCueBallPosition(gw);
    } else {
      var n := gw.balls[i].number;
      if gw.state != Breaking {
        AttributeBall(gw, n);
      }
      gw.statistics := gw.statistics.(pocketedBalls := gw.statistics.pocketedBalls + [n]);
      gw.pocketedBalls := gw.pocketedBalls + [n];
    }
  }

  /** The pocket loop of one ball: the first pocket that holds it captures it. */
  method PocketPass(gw: GameWorld, i: int, inPocket: seq<bool>)
    requires gw.Valid() && 0 <= i < gw.balls.Length && |inPocket| == PocketCount
    modifies gw, gw.balls, gw.cueStickP1, gw.cueStickP2
    ensures gw.View() == PocketStep(old(gw.View()), i, inPocket)
  {
    var j := 0;
    while j < PocketCount
      invariant 0 <= j <= PocketCount
      invariant forall k :: 0 <= k < j ==> !inPocket[k]
      invariant gw.View() == old(gw.View())
    {
      if inPocket[j] {
        CaptureBall(gw, i);
        return;
      }
      j := j + 1;
    }
  }

  /** The body of the ball loop for a ball on the table. */
  method ProcessBall(gw: GameWorld, i: int, e: BallEvents)
    requires gw.Valid() && WellFormed(gw.View()) && 0 <= i < gw.balls.Length && EventsOk(e)
    requires !gw.balls[i].pocketed
    modifies gw, gw.balls, gw.cueStickP1, gw.cueStickP2
    ensures gw.View() == BallStep(old(gw.View()), i, e)
  {
    gw.balls[i] := Advance(gw.balls[i], e.motion);
    CushionPass(gw, i, e.cushionHits);
    ContactPass(gw, i, e.contacts);
    PocketPass(gw, i, e.inPocket);
  }

  /** The current stick aims at the cue ball again. */
  method Reaim(gw: GameWorld)
    requires gw.Valid()
    modifies gw.CurrentStick()
    ensures var w := old(gw.View());
            gw.View() == w.WithStick(w.currentCueStick, w.StickOf(w.currentCueStick).(target := w.balls[0].center))
  {
    var cs := gw.CurrentStick();
    cs.target := gw.balls[0].center;
  }

  /** A shot has ended: record the stick that shot, pass the table on, run the rules once. */
  method HandOver(gw: GameWorld, si: SetupInput)
    requires gw.Valid() && WellFormed(gw.View()) && SetupInputOk(si)
    modifies gw, gw.balls, gw.cueStickP1, gw.cueStickP2
    ensures var w := old(gw.View());
            gw.View() == ApplyRules(w.(lastCueStick := Some(w.currentCueStick),
                                       currentCueStick := Other(w.currentCueStick)), si).(applyRules := false)
  {
    gw.lastCueStick := Some(gw.currentCueStick);
    if gw.currentCueStick == P1 {
      gw.currentCueStick := P2;
    } else {
      gw.currentCueStick := P1;
    }
    ApplyRulesEBP(gw, si);
    gw.applyRules := false;
  }

  /** After the ball loop: re-aim, then the turn boundary. */
  method EndFrame(gw: GameWorld, moving: bool, si: SetupInput)
    requires gw.Valid() && WellFormed(gw.View()) && SetupInputOk(si)
    modifies gw, gw.balls, gw.cueStickP1, gw.cueStickP2
    ensures gw.View() == Boundary(old(gw.View()), moving, si)
  {
    Reaim(gw);
    if moving {
      gw.ballsState := BallsMoving;
    } else {
      gw.ballsState := BallsStopped;
      if gw.applyRules {
        HandOver(gw, si);
      }
    }
  }

  /** The loop over the balls: each ball that is on the table is processed, and the moving flag is gathered. */
  method BallLoop(gw: GameWorld, events: seq<BallEvents>) returns (ballsMoving: bool)
    requires gw.Valid() && WellFormed(gw.View()) && |events| == BallCount + 1
    requires forall k :: 0 <= k < |events| ==> EventsOk(events[k])
    modifies gw, gw.balls, gw.cueStickP1, gw.cueStickP2
    ensures gw.View() == BallsPass(old(gw.View()), events, BallCount + 1)
    ensures ballsMoving == AnyMoving(old(gw.balls[..]), gw.balls[..])
  {
    ghost var start := gw.View();
    ballsMoving := false;
    for i := 0 to BallCount + 1
      invariant gw.View() == BallsPass(start, events, i)
      invariant ballsMoving == MovingUpTo(start.balls, gw.balls[..], i)
    {
      MovingStep(start, events, i);
      if gw.balls[i].pocketed {
        continue;
      }
      ProcessBall(gw, i, events[i]);
      if !ballsMoving && gw.balls[i].moving {
        ballsMoving := true;
      }
    }
  }

  /** updateGameWorld, on the discrete state. */
  method UpdateGameWorld(gw: GameWorld, f: FrameInput)
    requires gw.Valid() && WellFormed(gw.View()) && FrameInputOk(f)
    modifies gw, gw.balls, gw.cueStickP1, gw.cueStickP2
    ensures gw.View() == Frame(old(gw.View()), f)
  {
    AimAndShoot(gw, f);
    var ballsMoving := BallLoop(gw, f.events);
    EndFrame(gw, ballsMoving, f.setup);
  }

  /**
   * createGameWorld as written: malloc, then setupEBP. The pending-rules
   * flag, the last stick and the first-hit number keep whatever the
   * allocated memory held.
   */
  method CreateGameWorld(screenHeight: nat, heldApplyRules: bool, heldLast: Option<Player>, heldFirstHit: int,
                         si: SetupInput)
      returns (gw: GameWorld)
    requires SetupInputOk(si)
    ensures fresh(gw) && gw.Valid()
    ensures gw.View() == SetupWorld(Blank(screenHeight, heldApplyRules, heldLast, heldFirstHit), si)
    ensures gw.applyRules == heldApplyRules && gw.lastCueStick == heldLast
    ensures gw.statistics.cueBallFirstHitNumber == heldFirstHit
    ensures Inv(gw.View())
  {
    gw := new GameWorld(screenHeight, heldApplyRules, heldLast, heldFirstHit);
    SetupEBP(gw, si);
    SetupEstablishesInv(Blank(screenHeight, heldApplyRules, heldLast, heldFirstHit), si);
    SetupKeepsUnwritten(Blank(screenHeight, heldApplyRules, heldLast, heldFirstHit), si);
  }

  /** Without motion input no ball that was on the table is moving after the pass. */
  lemma StillBallsStayStill(w: World, events: seq<BallEvents>)
    requires WellFormed(w) && |events| == |w.balls|
    requires forall i :: 0 <= i < |events| ==> EventsOk(events[i])
    requires forall i :: 0 <= i < |events| ==> !events[i].motion.moving
    ensures !AnyMoving(w.balls, BallsPass(w, events, |w.balls|).balls)
  {
    var r := BallsPass(w, events, |w.balls|);
    forall m | 0 <= m < |w.balls| && !w.balls[m].pocketed
      ensures !r.balls[m].moving
    {
      BallsPassSettles(w, events, |w.balls|, m);
      BallsPassFrame(w, events, m);
      BallStepMeans(BallsPass(w, events, m), m, events[m]);
    }
  }

  /**
   * When the allocated memory happens to hold a set flag, the very first
   * frame in which the balls are at rest ends a turn that nobody played:
   * the last stick is recorded and the rules run, with no shot taken.
   */
  lemma StaleRulesFlagEndsTurn(screenHeight: nat, firstHit: int, si: SetupInput, f: FrameInput)
    requires SetupInputOk(si) && FrameInputOk(f) && !f.leftPressed
    requires forall i :: 0 <= i < |f.events| ==> !f.events[i].motion.moving
    ensures Inv(SetupWorld(Blank(screenHeight, true, None, firstHit), si))
    ensures var w := SetupWorld(Blank(screenHeight, true, None, firstHit), si);
            Frame(w, f).lastCueStick == Some(P1) && !Frame(w, f).applyRules
  {
    var w := SetupWorld(Blank(screenHeight, true, None, firstHit), si);
    SetupEstablishesInv(Blank(screenHeight, true, None, firstHit), si);
    SetupFacts(Blank(screenHeight, true, None, firstHit), si);
    var shot := Shoot(w, f);
    ShotRules(w, f);
    assert shot.applyRules && shot.currentCueStick == P1;
    var passed := BallsPass(shot, f.events, |shot.balls|);
    BallsPassFrame(shot, f.events, |shot.balls|);
    StillBallsStayStill(shot, f.events);
    BoundaryMeans(passed, false, f.setup);
  }

  /**
   * createGameWorld with the memory cleared first, as the rest of the code
   * evidently expects: no rules are pending, no stick has played yet and
   * no first hit is recorded.
   */
  method CreateGameWorldCleared(screenHeight: nat, si: SetupInput) returns (gw: GameWorld)
    requires SetupInputOk(si)
    ensures fresh(gw) && gw.Valid()
    ensures gw.View() == SetupWorld(Blank(screenHeight, false, None, 0), si)
    ensures Inv(gw.View())
  {
    gw := new GameWorld(screenHeight, false, None, 0);
    SetupEBP(gw, si);
    SetupEstablishesInv(Blank(screenHeight, false, None, 0), si);
  }

  /** From a cleared world, a frame without a shot leaves the break to P1 and runs no rules. */
  lemma FirstFrameWaitsForShot(screenHeight: nat, firstHit: int, si: SetupInput, f: FrameInput)
    requires SetupInputOk(si) && FrameInputOk(f) && !f.leftPressed
    ensures Inv(SetupWorld(Blank(screenHeight, false, None, firstHit), si))
    ensures var r := Frame(SetupWorld(Blank(screenHeight, false, None, firstHit), si), f);
            && r.currentCueStick == P1 && r.lastCueStick == None && !r.applyRules && r.state == Breaking
  {
    var w := SetupWorld(Blank(screenHeight, false, None, firstHit), si);
    SetupEstablishesInv(Blank(screenHeight, false, None, firstHit), si);
    SetupFacts(Blank(screenHeight, false, None, firstHit), si);
    var shot := Shoot(w, f);
    ShotRules(w, f);
    assert !shot.applyRules && shot.currentCueStick == P1;
    var passed := BallsPass(shot, f.events, |shot.balls|);
    BallsPassFrame(shot, f.events, |shot.balls|);
    BoundaryMeans(passed, AnyMoving(shot.balls, passed.balls), f.setup);
  }
}
