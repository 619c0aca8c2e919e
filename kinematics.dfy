/** Car motion shared by both cars (class AbstractCar and its subclass PlayerCar in
    main.py): a scalar signed velocity clamped by min/max, a heading in degrees that
    rotation changes by plain addition, and a position integrated once per call.
    Sine, cosine and the pixel-mask overlap query are not modelled; they enter as
    given functions. */
module Kinematics {
  import opened Basics

  /** The velocity increment of one throttle tick (the same for every car). */
  const ACCELERATION: real := 0.08

  /** The trigonometry the game calls: sine and cosine of an angle given in degrees,
      and degrees(atan(z)). */
  datatype Trig = Trig(sinDeg: real -> real, cosDeg: real -> real, atanDeg: real -> real)

  /** The images whose pixel masks take part in collision tests. */
  datatype Image = TrackBorder | FinishLine | RedCar | GreenCar

  /** A car's sprite: its image and its size in pixels. */
  datatype Sprite = Sprite(image: Image, width: int, height: int)

  /** The mask-overlap query `mask.overlap(other, (dx, dy))` of the graphics
      library: the first pixel at which the mask of the second image, placed at
      offset (dx, dy), overlaps the mask of the first, if there is one. */
  type Overlap = (Image, Image, int, int) -> Option<Point>

  /** The moving part of a car: position (top-left of the sprite, y grows
      downward), heading in degrees (0 is up) and signed velocity. */
  datatype Kin = Kin(x: real, y: real, angle: real, vel: real)

  /** The fixed part of a car: top speed, rotation step and start position. */
  datatype CarParams = CarParams(maxVel: real, rotationVel: real, startX: real, startY: real)

  /** The speed band a player car stays in: at most `maxVel` forward and at most
      half of it in reverse. */
  predicate InBand(v: real, maxVel: real) {
    -maxVel / 2.0 <= v <= maxVel
  }

  /** Velocity after move_forward: `acceleration` more, capped at `maxVel`. */
  function ForwardVel(v: real, maxVel: real): (r: real)
    ensures r <= maxVel && r <= v + ACCELERATION
    ensures r == maxVel || r == v + ACCELERATION
    ensures InBand(v, maxVel) ==> InBand(r, maxVel)
  {
    Min(v + ACCELERATION, maxVel)
  }

  /** Velocity after move_backward: `acceleration` less, floored at `-maxVel / 2`. */
  function BackwardVel(v: real, maxVel: real): (r: real)
    ensures r >= -maxVel / 2.0 && r >= v - ACCELERATION
    ensures r == -maxVel / 2.0 || r == v - ACCELERATION
    ensures InBand(v, maxVel) ==> InBand(r, maxVel)
  {
    Max(v - ACCELERATION, -maxVel / 2.0)
  }

  /** Velocity after reduce_speed: half an `acceleration` less, floored at zero.
      A car in reverse therefore stops dead in one call instead of slowing down. */
  function IdleVel(v: real): (r: real)
    ensures r >= 0.0 && r >= v - ACCELERATION / 2.0
    ensures r == 0.0 || r == v - ACCELERATION / 2.0
    ensures v <= ACCELERATION / 2.0 ==> r == 0.0
    ensures r <= Max(v, 0.0)
    ensures forall maxVel: real :: InBand(v, maxVel) ==> InBand(r, maxVel)
  {
    Max(v - ACCELERATION / 2.0, 0.0)
  }

  /** Velocity after bounce: the direction flips and the magnitude halves. */
  function BounceVel(v: real): (r: real)
    ensures 2.0 * Abs(r) == Abs(v)
    ensures (v > 0.0 ==> r < 0.0) && (v < 0.0 ==> r > 0.0) && (v == 0.0 ==> r == 0.0)
    ensures forall maxVel: real :: InBand(v, maxVel) ==> InBand(r, maxVel)
  {
    -v / 2.0
  }

  /** move: one step of `vel` pixels along the heading; angle and velocity stay. */
  function Moved(k: Kin, t: Trig): (r: Kin)
    ensures r.angle == k.angle && r.vel == k.vel
    ensures k.vel == 0.0 ==> r == k
  {
    Kin(k.x - k.vel * t.sinDeg(k.angle), k.y - k.vel * t.cosDeg(k.angle), k.angle, k.vel)
  }

  /** For any trigonometry with sin^2 + cos^2 = 1, one move covers a distance of
      exactly |vel|. */
  lemma MoveCoversVelocity(k: Kin, t: Trig)
    requires t.sinDeg(k.angle) * t.sinDeg(k.angle) + t.cosDeg(k.angle) * t.cosDeg(k.angle) == 1.0
    ensures var r := Moved(k, t);
      (r.x - k.x) * (r.x - k.x) + (r.y - k.y) * (r.y - k.y) == k.vel * k.vel
  {
    var s, c, v := t.sinDeg(k.angle), t.cosDeg(k.angle), k.vel;
    calc {
      (v * s) * (v * s) + (v * c) * (v * c);
      v * v * (s * s + c * c);
      v * v;
    }
  }

  /** A car that ends one move from `k`'s position, with its own heading and
      velocity, stands `vel` pixels from there along that heading. */
  lemma OneStepFrom(k: Kin, r: Kin, t: Trig)
    requires r == Moved(k.(angle := r.angle, vel := r.vel), t)
    ensures r.x == k.x - r.vel * t.sinDeg(r.angle) && r.y == k.y - r.vel * t.cosDeg(r.angle)
  {
  }

  /** A car that ends two moves from `k`'s position along its own heading, the
      first at velocity `v` and the second at its own velocity, has covered both
      steps. */
  lemma TwoStepsFrom(k: Kin, r: Kin, v: real, t: Trig)
    requires r == Moved(Moved(k.(angle := r.angle, vel := v), t).(vel := r.vel), t)
    ensures r.x == k.x - v * t.sinDeg(r.angle) - r.vel * t.sinDeg(r.angle)
    ensures r.y == k.y - v * t.cosDeg(r.angle) - r.vel * t.cosDeg(r.angle)
  {
  }

  /** rotate(left, right): left turns by the rotation step, otherwise right turns
      back by it; left wins when both are asked for. */
  function Rotated(k: Kin, p: CarParams, left: bool, right: bool): (r: Kin)
    ensures r.x == k.x && r.y == k.y && r.vel == k.vel
    ensures left ==> r.angle == k.angle + p.rotationVel
    ensures !left && right ==> r.angle == k.angle - p.rotationVel
    ensures !left && !right ==> r == k
  {
    if left then k.(angle := k.angle + p.rotationVel)
    else if right then k.(angle := k.angle - p.rotationVel)
    else k
  }

  /** A left turn followed by a right turn brings the car back to the same
      heading; rotation never moves the car. */
  lemma LeftThenRightCancels(k: Kin, p: CarParams)
    ensures Rotated(Rotated(k, p, true, false), p, false, true) == k
  {
  }

  /** move_forward: accelerate, then move one step at the new velocity. */
  function Forward(k: Kin, p: CarParams, t: Trig): (r: Kin)
    ensures r.vel == ForwardVel(k.vel, p.maxVel) && r.angle == k.angle
    ensures r.x == k.x - r.vel * t.sinDeg(k.angle) && r.y == k.y - r.vel * t.cosDeg(k.angle)
  {
    Moved(k.(vel := ForwardVel(k.vel, p.maxVel)), t)
  }

  /** move_backward: decelerate toward reverse, then move one step at the new
      velocity. */
  function Backward(k: Kin, p: CarParams, t: Trig): (r: Kin)
    ensures r.vel == BackwardVel(k.vel, p.maxVel) && r.angle == k.angle
    ensures r.x == k.x - r.vel * t.sinDeg(k.angle) && r.y == k.y - r.vel * t.cosDeg(k.angle)
  {
    Moved(k.(vel := BackwardVel(k.vel, p.maxVel)), t)
  }

  /** reduce_speed: coast, then move one step at the new velocity. A car at rest
      stays exactly where it is. */
  function Idle(k: Kin, t: Trig): (r: Kin)
    ensures r.vel == IdleVel(k.vel) && r.angle == k.angle
    ensures r.x == k.x - r.vel * t.sinDeg(k.angle) && r.y == k.y - r.vel * t.cosDeg(k.angle)
    ensures k.vel == 0.0 ==> r == k
  {
    Moved(k.(vel := IdleVel(k.vel)), t)
  }

  /** bounce: reflect the velocity, then move one step at it, which pushes the car
      back by half of the step a plain move would have taken. */
  function Bounced(k: Kin, t: Trig): (r: Kin)
    ensures r.vel == BounceVel(k.vel) && r.angle == k.angle
    ensures r.x - k.x == -(Moved(k, t).x - k.x) / 2.0
    ensures r.y - k.y == -(Moved(k, t).y - k.y) / 2.0
  {
    Moved(k.(vel := BounceVel(k.vel)), t)
  }

  /** reset: the start position, heading up, at rest. */
  function Home(p: CarParams): Kin
  {
    Kin(p.startX, p.startY, 0.0, 0.0)
  }

  /** collide(mask, ox, oy): the overlap query, with the car's sprite placed at
      its position relative to (ox, oy), each coordinate truncated by int(). */
  function Collision(k: Kin, s: Sprite, mask: Image, ox: real, oy: real, overlap: Overlap): Option<Point>
  {
    overlap(mask, s.image, Trunc(k.x - ox), Trunc(k.y - oy))
  }

  /** The state after `n` consecutive ticks without throttle. */
  function IdleTicks(k: Kin, t: Trig, n: nat): Kin
    decreases n
  {
    if n == 0 then k else IdleTicks(Idle(k, t), t, n - 1)
  }

  /** Coasting lowers the velocity by half an acceleration per tick until it
      reaches zero, and never goes past it: after `n > 0` ticks it is exactly
      max(vel - n * acceleration / 2, 0), whatever the sign of the velocity. */
  lemma {:induction false} IdleTicksVelocity(k: Kin, t: Trig, n: nat)
    ensures n > 0 ==> IdleTicks(k, t, n).vel == Max(k.vel - n as real * ACCELERATION / 2.0, 0.0)
    ensures IdleTicks(k, t, n).angle == k.angle
    decreases n
  {
    if n > 0 {
      var k1 := Idle(k, t);
      IdleTicksVelocity(k1, t, n - 1);
      assert IdleTicks(k, t, n) == IdleTicks(k1, t, n - 1);
      var rest := (n - 1) as real * ACCELERATION / 2.0;
      assert rest == n as real * ACCELERATION / 2.0 - ACCELERATION / 2.0;
      assert IdleTicks(k1, t, n - 1).vel == Max(k1.vel - rest, 0.0);
      if k.vel - ACCELERATION / 2.0 < 0.0 {
        assert Max(k.vel - n as real * ACCELERATION / 2.0, 0.0) == 0.0;
      } else {
        assert k1.vel - rest == k.vel - n as real * ACCELERATION / 2.0;
      }
    }
  }

  /** A car at rest that keeps coasting stays exactly where it is. */
  lemma {:induction false} IdleAtRestStays(k: Kin, t: Trig, n: nat)
    requires k.vel == 0.0
    ensures IdleTicks(k, t, n) == k
    decreases n
  {
    if n > 0 {
      IdleAtRestStays(Idle(k, t), t, n - 1);
    }
  }

  /** Enough coasting ticks bring any velocity to exactly zero, and from then on
      the car no longer moves. */
  lemma IdleComesToRest(k: Kin, t: Trig, n: nat, m: nat)
    requires n > 0 && n as real * ACCELERATION / 2.0 >= k.vel
    ensures IdleTicks(k, t, n).vel == 0.0
    ensures IdleTicks(IdleTicks(k, t, n), t, m) == IdleTicks(k, t, n)
  {
    IdleTicksVelocity(k, t, n);
    IdleAtRestStays(IdleTicks(k, t, n), t, m);
  }

  /** A car object; its methods update the fields in place. */
  class Car {
    var x: real
    var y: real
    var angle: real
    var vel: real
    const maxVel: real
    const rotationVel: real
    const startX: real
    const startY: real
    const sprite: Sprite
    const trig: Trig

    /** The moving part of the car as one value. */
    function State(): Kin
      reads this
    {
      Kin(x, y, angle, vel)
    }

    /** The fixed part of the car as one value. */
    function Params(): CarParams
    {
      CarParams(maxVel, rotationVel, startX, startY)
    }

    constructor (params: CarParams, sprite: Sprite, trig: Trig)
      ensures State() == Home(params) && Params() == params
      ensures this.sprite == sprite && this.trig == trig
    {
      maxVel := params.maxVel;
      rotationVel := params.rotationVel;
      startX, startY := params.startX, params.startY;
      this.sprite := sprite;
      this.trig := trig;
      x, y := params.startX, params.startY;
      angle := 0.0;
      vel := 0.0;
    }

    method Rotate(left: bool, right: bool)
      modifies this
      ensures State() == Rotated(old(State()), Params(), left, right)
    {
      if left {
        angle := angle + rotationVel;
      } else if right {
        angle := angle - rotationVel;
      }
    }

    method MoveForward()
      modifies this
      ensures State() == Forward(old(State()), Params(), trig)
    {
      vel := Min(vel + ACCELERATION, maxVel);
      Move();
    }

    method MoveBackward()
      modifies this
      ensures State() == Backward(old(State()), Params(), trig)
    {
      vel := Max(vel - ACCELERATION, -maxVel / 2.0);
      Move();
    }

    method Move()
      modifies this
      ensures State() == Moved(old(State()), trig)
    {
      var horizontal := vel * trig.sinDeg(angle);
      var vertical := vel * trig.cosDeg(angle);
      x := x - horizontal;
      y := y - vertical;
    }

    method ReduceSpeed()
      modifies this
      ensures State() == Idle(old(State()), trig)
    {
      vel := Max(vel - ACCELERATION / 2.0, 0.0);
      Move();
    }

    /** collide(mask, ox, oy): the point of intersection with `mask` placed at
        (ox, oy), if any. */
    function Collide(mask: Image, ox: real, oy: real, overlap: Overlap): (poi: Option<Point>)
      reads this
      ensures poi == Collision(State(), sprite, mask, ox, oy, overlap)
    {
      overlap(mask, sprite.image, Trunc(x - ox), Trunc(y - oy))
    }

    method Bounce()
      modifies this
      ensures State() == Bounced(old(State()), trig)
    {
      vel := -vel / 2.0;
      Move();
    }

    method Reset()
      modifies this
      ensures State() == Home(Params())
    {
      x, y := startX, startY;
      angle := 0.0;
      vel := 0.0;
    }
  }
}
