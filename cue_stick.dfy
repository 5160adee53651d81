/**
 * The cue stick's power adjustment (src/CueStick.c, updateCueStick): one
 * notch of the mouse wheel moves the power by 50, then the power is clamped
 * to [minPower, maxPower]. The aim angle comes from atan2 of the pointer
 * position and is an input here.
 */
module CueSticks {
  import opened Types

  /** The step of one wheel notch. */
  const ImpulseStep := 50

  /** The power after the wheel notch, before the clamp. */
  function Notched(power: int, wheelMove: real): int {
    if wheelMove < 0.0 then power + ImpulseStep
    else if wheelMove > 0.0 then power - ImpulseStep
    else power
  }

  /** The power after one update: the notch, then the clamp. */
  function StepImpulse(power: int, wheelMove: real, minPower: int, maxPower: int): (r: int)
    // the result lies in range whenever the range is not empty
    ensures minPower <= maxPower ==> minPower <= r <= maxPower
    // it is the notched power unless that falls outside the range
    ensures r == Notched(power, wheelMove) || r == minPower || r == maxPower
    // pulling the wheel back raises the power by 50, pushing it lowers it by 50
    ensures wheelMove < 0.0 && minPower <= power + ImpulseStep <= maxPower ==> r == power + ImpulseStep
    ensures wheelMove > 0.0 && minPower <= power - ImpulseStep <= maxPower ==> r == power - ImpulseStep
    // without a wheel move an in-range power stays as it is
    ensures wheelMove == 0.0 && minPower <= power <= maxPower ==> r == power
    // a power below the range ends at minPower, one above it at maxPower
    ensures Notched(power, wheelMove) < minPower ==> r == minPower
    ensures minPower <= maxPower < Notched(power, wheelMove) ==> r == maxPower
  {
    var p := Notched(power, wheelMove);
    if p < minPower then minPower else if p > maxPower then maxPower else p
  }

  /** The clamp is idempotent: a second update without a wheel move changes nothing. */
  lemma StepImpulseIdempotent(power: int, wheelMove: real, minPower: int, maxPower: int)
    requires minPower <= maxPower
    ensures var r := StepImpulse(power, wheelMove, minPower, maxPower);
            StepImpulse(r, 0.0, minPower, maxPower) == r
  {
  }

  /** The stick after one update, as a value: only the angle and the power change. */
  function Updated(s: Stick, wheelMove: real, aimAngle: real): (r: Stick)
    ensures r.(angle := s.angle, power := s.power) == s
    ensures r.angle == aimAngle
    ensures s.minPower <= s.maxPower ==> s.minPower <= r.power <= s.maxPower
  {
    s.(angle := aimAngle, power := StepImpulse(s.power, wheelMove, s.minPower, s.maxPower))
  }

  /** A cue stick whose fields the frame update changes in place. */
  class CueStick {
    var target: Vec
    var distanceFromTarget: real
    var size: real
    var angle: real
    var powerTick: int
    var power: int
    var minPower: int
    var maxPower: int
    var hitPoint: Vec
    var color: Color
    var pocketedBalls: seq<int>
    var group: BallGroup
    var kind: Player
    var state: StickState

    /** The stick's fields as a value. */
    function View(): Stick
      reads this
    {
      Stick(target, distanceFromTarget, size, angle, powerTick, power, minPower, maxPower,
            hitPoint, color, pocketedBalls, group, kind, state)
    }

    /** A stick with every field zero, as freshly allocated memory is taken to be. */
    constructor Zeroed()
      ensures View() == ZeroStick()
    {
      target, distanceFromTarget, size, angle := ZeroVec, 0.0, 0.0, 0.0;
      powerTick, power, minPower, maxPower := 0, 0, 0, 0;
      hitPoint, color, pocketedBalls := ZeroVec, Color(0, 0, 0, 0), [];
      group, kind, state := Undefined, P1, Ready;
    }

    /** updateCueStick: aim, then the wheel notch, then the clamp. */
    method Update(wheelMove: real, aimAngle: real)
      modifies this
      ensures View() == Updated(old(View()), wheelMove, aimAngle)
      ensures minPower <= maxPower ==> minPower <= power <= maxPower
    {
      angle := aimAngle;
      if wheelMove < 0.0 {
        power := power + ImpulseStep;
      } else if wheelMove > 0.0 {
        power := power - ImpulseStep;
      }
      if power < minPower {
        power := minPower;
      } else if power > maxPower {
        power := maxPower;
      }
    }

    /** `pocketedBalls[pocketedCount++] = n`: credit ball n to this stick. */
    method Credit(n: int)
      modifies this
      ensures View() == old(View()).(pocketedBalls := old(pocketedBalls) + [n])
    {
      pocketedBalls := pocketedBalls + [n];
    }

    /** A whole-struct assignment `stick = (CueStick) { ... }`. */
    method Assign(s: Stick)
      modifies this
      ensures View() == s
    {
      AssignAim(s);
      AssignPower(s);
      AssignRest(s);
    }

    /** The aiming part of Assign: target, distance, size and angle. */
    method AssignAim(s: Stick)
      modifies this
      ensures View() == old(View()).(target := s.target, distanceFromTarget := s.distanceFromTarget,
                                     size := s.size, angle := s.angle)
    {
      target, distanceFromTarget, size, angle := s.target, s.distanceFromTarget, s.size, s.angle;
    }

    /** The power part of Assign: the tick, the power and its range. */
    method AssignPower(s: Stick)
      modifies this
      ensures View() == old(View()).(powerTick := s.powerTick, power := s.power,
                                     minPower := s.minPower, maxPower := s.maxPower)
    {
      powerTick, power, minPower, maxPower := s.powerTick, s.power, s.minPower, s.maxPower;
    }

    /** The rest of Assign: the strike point, colour, credited balls, group, owner and state. */
    method AssignRest(s: Stick)
      modifies this
      ensures View() == old(View()).(hitPoint := s.hitPoint, color := s.color, pocketedBalls := s.pocketedBalls,
                                     group := s.group, kind := s.kind, state := s.state)
    {
      hitPoint, color, pocketedBalls := s.hitPoint, s.color, s.pocketedBalls;
      group, kind, state := s.group, s.kind, s.state;
    }
  }

  function ZeroStick(): Stick {
    Stick(ZeroVec, 0.0, 0.0, 0.0, 0, 0, 0, 0, ZeroVec, Color(0, 0, 0, 0), [], Undefined, P1, Ready)
  }
}
