/** The computer-driven car (class ComputerCar in main.py): it steers toward the
    waypoint it is currently chasing, moves on to the next waypoint once its
    bounding rectangle contains the current one, and stops computing anything when
    the path is exhausted. The path may grow at run time when the player clicks. */
module Pilot {
  import opened Basics
  import opened Kinematics

  /** The extra speed the computer car gets per level above the first. */
  const LEVEL_SPEEDUP: real := 0.111

  /** Current heading minus desired heading, corrected once: 360 is subtracted
      when the difference is at least 180, and nothing is added however negative
      it is. This is a single correction, not a reduction modulo 360. */
  function HeadingError(angle: real, desired: real): (d: real)
    ensures angle - desired >= 180.0 ==> d == angle - desired - 360.0
    ensures angle - desired < 180.0 ==> d == angle - desired
    ensures angle - desired < 540.0 ==> d < 180.0
  {
    var diff := angle - desired;
    if diff >= 180.0 then diff - 360.0 else diff
  }

  /** The heading the turn step aims at: the desired heading itself, or the
      same direction one full turn further on. */
  lemma AimIsDesiredDirection(angle: real, desired: real)
    ensures var aim := angle - HeadingError(angle, desired);
      aim == desired || aim == desired + 360.0
  {
  }

  /** The turn step of calculate_angle: turn toward the aimed heading by the
      current speed, but never by more than the remaining error. */
  function TurnStep(angle: real, desired: real, vel: real): (r: real)
    ensures var d := HeadingError(angle, desired);
      vel >= 0.0 ==> Abs(r - angle) == Min(vel, Abs(d))
    ensures var d := HeadingError(angle, desired); var aim := angle - d;
      vel >= 0.0 ==> (d > 0.0 ==> aim <= r <= angle) && (d <= 0.0 ==> angle <= r <= aim)
    ensures var d := HeadingError(angle, desired); var aim := angle - d;
      vel >= 0.0 ==> Abs(aim - r) == Max(Abs(d) - vel, 0.0)
    ensures vel >= Abs(HeadingError(angle, desired)) ==> r == desired || r == desired + 360.0
    ensures vel >= 0.0 && HeadingError(angle, desired) == 0.0 ==> r == angle
  {
    var d := HeadingError(angle, desired);
    if d > 0.0 then angle - Min(vel, Abs(d)) else angle + Min(vel, Abs(d))
  }

  /** The single correction does not always pick the shorter way round: heading
      0 and desired heading 260 give an error of -260, so the car turns 260
      degrees one way instead of 100 the other. */
  lemma SingleCorrectionMayTurnTheLongWay()
    ensures HeadingError(0.0, 260.0) == -260.0
    ensures TurnStep(0.0, 260.0, 2.4) == 2.4
  {
  }

  /** The desired heading of calculate_angle, in degrees: degrees(atan(dx / dy)),
      or 90 when the target is level with the car, plus 180 when the target lies
      below the car (y grows downward). */
  function DesiredHeading(x: real, y: real, target: Point, t: Trig): (h: real)
    ensures target.1 as real == y ==> h == 90.0
    ensures target.1 as real < y ==>
      h == t.atanDeg((target.0 as real - x) / (target.1 as real - y))
    ensures target.1 as real > y ==>
      h == t.atanDeg((target.0 as real - x) / (target.1 as real - y)) + 180.0
  {
    var xDiff := target.0 as real - x;
    var yDiff := target.1 as real - y;
    var base := if yDiff == 0.0 then 90.0 else t.atanDeg(xDiff / yDiff);
    if target.1 as real > y then base + 180.0 else base
  }

  /** Rect(x, y, width, height).collidepoint(p): the point lies in the half-open
      rectangle whose corner is the car position with coordinates truncated. */
  predicate Contains(x: real, y: real, s: Sprite, p: Point) {
    Trunc(x) <= p.0 < Trunc(x) + s.width && Trunc(y) <= p.1 < Trunc(y) + s.height
  }

  /** The moving state of the computer car: its kinematics, its path and the
      index of the waypoint it is chasing. */
  datatype Pursuit = Pursuit(kin: Kin, path: seq<Point>, current: nat)

  /** The waypoint index ranges over 0 .. |path|; |path| means "path exhausted". */
  predicate OnPath(s: Pursuit) {
    s.current <= |s.path|
  }

  /** ComputerCar.move: with a waypoint left, turn toward it, step the index if
      the car's rectangle contains it, then move; with the path exhausted, do
      nothing at all. */
  function ComputerMoved(s: Pursuit, t: Trig, sprite: Sprite): (r: Pursuit)
    ensures r.path == s.path && r.kin.vel == s.kin.vel
    ensures s.current >= |s.path| ==> r == s
    ensures s.current < |s.path| ==>
      && (r.current == s.current || r.current == s.current + 1)
      && (r.current == s.current + 1 <==> Contains(s.kin.x, s.kin.y, sprite, s.path[s.current]))
      && r.kin.angle == TurnStep(s.kin.angle, DesiredHeading(s.kin.x, s.kin.y, s.path[s.current], t), s.kin.vel)
      && r.kin.x == s.kin.x - s.kin.vel * t.sinDeg(r.kin.angle)
      && r.kin.y == s.kin.y - s.kin.vel * t.cosDeg(r.kin.angle)
    ensures OnPath(s) ==> OnPath(r)
    ensures s.kin.vel == 0.0 ==> r.kin == s.kin
  {
    if s.current >= |s.path| then s
    else
      var target := s.path[s.current];
      var angle := TurnStep(s.kin.angle, DesiredHeading(s.kin.x, s.kin.y, target, t), s.kin.vel);
      var next := if Contains(s.kin.x, s.kin.y, sprite, target) then s.current + 1 else s.current;
      Pursuit(Moved(s.kin.(angle := angle), t), s.path, next)
  }

  /** The state after `n` consecutive moves. */
  function Run(s: Pursuit, t: Trig, sprite: Sprite, n: nat): Pursuit
    decreases n
  {
    if n == 0 then s else Run(ComputerMoved(s, t, sprite), t, sprite, n - 1)
  }

  /** Over `n` moves the index never decreases, rises by at most one per move,
      never passes the end of the path, and the path is left as it was. */
  lemma {:induction false} RunProgress(s: Pursuit, t: Trig, sprite: Sprite, n: nat)
    requires OnPath(s)
    ensures var r := Run(s, t, sprite, n);
      && OnPath(r) && r.path == s.path
      && s.current <= r.current <= s.current + n
    decreases n
  {
    if n > 0 {
      RunProgress(ComputerMoved(s, t, sprite), t, sprite, n - 1);
    }
  }

  /** Once the path is exhausted, the computer car stays exactly where it is,
      however many moves follow. */
  lemma {:induction false} ExhaustedPathIsFinal(s: Pursuit, t: Trig, sprite: Sprite, n: nat)
    requires s.current >= |s.path|
    ensures Run(s, t, sprite, n) == s
    decreases n
  {
    if n > 0 {
      ExhaustedPathIsFinal(ComputerMoved(s, t, sprite), t, sprite, n - 1);
    }
  }

  /** A computer car at rest neither turns nor moves, however many moves follow;
      only its waypoint index may still advance. */
  lemma {:induction false} ParkedCarStays(s: Pursuit, t: Trig, sprite: Sprite, n: nat)
    requires s.kin.vel == 0.0
    ensures Run(s, t, sprite, n).kin == s.kin
    decreases n
  {
    if n > 0 {
      ParkedCarStays(ComputerMoved(s, t, sprite), t, sprite, n - 1);
    }
  }

  /** The speed of the computer car at `level` (next_level). */
  function LevelSpeed(maxVel: real, level: int): (v: real)
    ensures level >= 1 ==> v >= maxVel
    ensures level == 1 ==> v == maxVel
  {
    maxVel + (level - 1) as real * LEVEL_SPEEDUP
  }

  /** The speed ramp is strictly increasing in the level. */
  lemma LevelSpeedIncreases(maxVel: real, a: int, b: int)
    requires a < b
    ensures LevelSpeed(maxVel, a) < LevelSpeed(maxVel, b)
  {
  }

  /** ComputerCar.next_level(level): back to the start, heading up, at the speed
      of `level`, chasing the first waypoint of the same path. */
  function ComputerNextLevel(s: Pursuit, p: CarParams, level: int): (r: Pursuit)
    ensures r.path == s.path && r.current == 0 && OnPath(r)
    ensures r.kin.x == p.startX && r.kin.y == p.startY && r.kin.angle == 0.0
    ensures r.kin.vel == LevelSpeed(p.maxVel, level)
  {
    Pursuit(Home(p).(vel := LevelSpeed(p.maxVel, level)), s.path, 0)
  }

  /** AbstractCar.reset applied to the computer car: back to the start at rest;
      path and waypoint index are kept. */
  function ComputerReset(s: Pursuit, p: CarParams): (r: Pursuit)
    ensures r.path == s.path && r.current == s.current
    ensures r.kin == Home(p) && r.kin.vel == 0.0
  {
    s.(kin := Home(p))
  }

  /** path.append(point): the path grows by one point at its end; the index, the
      car and the existing waypoints keep their values, and a car whose path was
      exhausted has a waypoint to chase again. */
  function Appended(s: Pursuit, point: Point): (r: Pursuit)
    ensures r.kin == s.kin && r.current == s.current
    ensures |r.path| == |s.path| + 1 && r.path[..|s.path|] == s.path && r.path[|s.path|] == point
    ensures OnPath(s) ==> OnPath(r)
    ensures s.current == |s.path| ==> r.current < |r.path|
  {
    s.(path := s.path + [point])
  }

  /** A ComputerCar object: a car plus the waypoint state; its methods update
      the fields in place. */
  class ComputerCar {
    const car: Car
    var path: seq<Point>
    var currentPoint: nat

    /** The moving state as one value. */
    function State(): Pursuit
      reads this, car
    {
      Pursuit(car.State(), path, currentPoint)
    }

    /** ComputerCar(max_velocity, rotation_velocity, path): a car at its start,
        already at its top speed, chasing the first waypoint. */
    constructor (params: CarParams, sprite: Sprite, trig: Trig, path: seq<Point>)
      ensures fresh(car)
      ensures car.Params() == params && car.sprite == sprite && car.trig == trig
      ensures State() == Pursuit(Home(params).(vel := params.maxVel), path, 0)
    {
      var c := new Car(params, sprite, trig);
      c.vel := params.maxVel;
      car := c;
      this.path := path;
      currentPoint := 0;
    }

    /** calculate_angle (the turn toward the current waypoint). */
    method CalculateAngle()
      requires currentPoint < |path|
      modifies car
      ensures car.State() == old(car.State()).(angle :=
        TurnStep(old(car.angle), DesiredHeading(old(car.x), old(car.y), path[currentPoint], car.trig), old(car.vel)))
    {
      var target := path[currentPoint];
      var xDiff := target.0 as real - car.x;
      var yDiff := target.1 as real - car.y;
      var desiredAngle := if yDiff == 0.0 then 90.0 else car.trig.atanDeg(xDiff / yDiff);
      if target.1 as real > car.y {
        desiredAngle := desiredAngle + 180.0;
      }
      var difference := car.angle - desiredAngle;
      if difference >= 180.0 {
        difference := difference - 360.0;
      }
      if difference > 0.0 {
        car.angle := car.angle - Min(car.vel, Abs(difference));
      } else {
        car.angle := car.angle + Min(car.vel, Abs(difference));
      }
    }

    /** update_path_points: chase the next waypoint once the car's rectangle
        contains the current one. */
    method UpdatePathPoints()
      requires currentPoint < |path|
      modifies this
      ensures path == old(path)
      ensures currentPoint == if Contains(car.x, car.y, car.sprite, path[old(currentPoint)])
                              then old(currentPoint) + 1 else old(currentPoint)
    {
      var target := path[currentPoint];
      if Contains(car.x, car.y, car.sprite, target) {
        currentPoint := currentPoint + 1;
      }
    }

    method Move()
      modifies this, car
      ensures State() == ComputerMoved(old(State()), car.trig, car.sprite)
    {
      if currentPoint >= |path| {
        return;
      }
      CalculateAngle();
      UpdatePathPoints();
      car.Move();
    }

    method NextLevel(level: int)
      modifies this, car
      ensures State() == ComputerNextLevel(old(State()), car.Params(), level)
    {
      car.Reset();
      car.vel := car.maxVel + (level - 1) as real * LEVEL_SPEEDUP;
      currentPoint := 0;
    }

    /** path.append(point), as done for a mouse click. */
    method AppendPoint(point: Point)
      modifies this
      ensures path == old(path) + [point] && currentPoint == old(currentPoint)
      ensures State() == Appended(old(State()), point)
    {
      path := path + [point];
    }
  }
}
