/** The race controller of main.py: the player's controls (move_player), the
    collision consequences in their fixed order (handle_collision), the
    game-finished branch of the main loop, the event loop that extends the
    computer car's path on mouse clicks, and one full iteration of the main
    loop. Display, pauses and the system clock are not modelled; the clock
    reading enters as `now`, the keyboard as `Keys` and the event queue as a
    sequence of `Event`s. */
module Race {
  import opened Basics
  import opened Levels
  import opened Kinematics
  import opened Pilot

  /** Where the finish-line image is placed on the screen. */
  const FINISH_X: real := 115.0
  const FINISH_Y: real := 230.0

  /** PlayerCar(3, 3.5), starting at (160, 190). */
  const PLAYER: CarParams := CarParams(3.0, 3.5, 160.0, 190.0)

  /** ComputerCar(2.4, 3.48, PATH), starting at (135, 190). */
  const COMPUTER: CarParams := CarParams(2.4, 3.48, 135.0, 190.0)

  /** The waypoints of the track, in driving order. */
  const TRACK_PATH: seq<Point> := [
    (154, 111), (74, 74), (52, 196), (55, 398), (87, 470),
    (267, 635), (360, 531), (365, 467), (478, 428), (535, 560),
    (539, 623), (656, 570), (658, 433), (659, 378), (402, 324),
    (416, 231), (609, 231), (661, 154), (637, 79), (377, 60),
    (294, 65), (246, 199), (247, 336), (157, 306), (150, 234)
  ]

  /** What the model takes as given: the trigonometry, the mask-overlap query
      and the two car sprites. */
  datatype Env = Env(trig: Trig, overlap: Overlap, playerSprite: Sprite, computerSprite: Sprite)

  /** The whole game state: both cars and the level bookkeeping. */
  datatype World = World(player: Kin, computer: Pursuit, info: Info)

  /** The four keys read by move_player: q (left), d (right), z (forward), s (reverse). */
  datatype Keys = Keys(left: bool, right: bool, forward: bool, backward: bool)

  /** The events the main loop reacts to. A mouse click carries no point: the
      loop reads the cursor position when it handles the click. */
  datatype Event = Quit | KeyDown | MouseDown

  /** What one iteration of the main loop reads from outside: the clock
      reading of the key press that starts a waiting level, the event queue,
      the cursor position while the queue is handled, and the keyboard state. */
  datatype Input = Input(now: real, events: seq<Event>, cursor: Point, keys: Keys)

  /** What holds of every reachable state except possibly for the level bound:
      the player car is in its speed band, the waypoint index is in range, the
      computer car does not drive backward, and the level is at least 1. */
  predicate Consistent(w: World) {
    && InBand(w.player.vel, PLAYER.maxVel)
    && OnPath(w.computer)
    && w.computer.kin.vel >= 0.0
    && w.info.level >= 1
  }

  /** The invariant of the main loop: also, the level is at most LEVELS. */
  predicate Inv(w: World) {
    Consistent(w) && w.info.level <= LEVELS
  }

  /** The state the program starts in. */
  function InitialWorld(): (w: World)
    ensures Inv(w) && w.computer.path == TRACK_PATH && w.info == Initial(1)
    ensures w.player == Kin(160.0, 190.0, 0.0, 0.0)
    ensures w.computer.kin == Kin(135.0, 190.0, 0.0, 2.4) && w.computer.current == 0
  {
    World(Home(PLAYER), Pursuit(Home(COMPUTER).(vel := COMPUTER.maxVel), TRACK_PATH, 0), Initial(1))
  }

  /** move_player: each pressed key acts in the order q, d, z, s; without z and
      s the car coasts. */
  function PlayerDriven(k: Kin, p: CarParams, t: Trig, keys: Keys): (r: Kin)
    ensures InBand(k.vel, p.maxVel) ==> InBand(r.vel, p.maxVel)
    ensures !keys.forward && !keys.backward ==> r.vel == IdleVel(k.vel)
    ensures keys.forward && !keys.backward ==> r.vel == ForwardVel(k.vel, p.maxVel)
    ensures !keys.forward && keys.backward ==> r.vel == BackwardVel(k.vel, p.maxVel)
    ensures keys.forward && keys.backward ==> r.vel == BackwardVel(ForwardVel(k.vel, p.maxVel), p.maxVel)
    ensures r.angle == k.angle + (if keys.left then p.rotationVel else 0.0)
                               - (if keys.right then p.rotationVel else 0.0)
    ensures !(keys.forward && keys.backward) ==> r == Moved(k.(angle := r.angle, vel := r.vel), t)
    ensures keys.forward && keys.backward ==>
      r == Moved(Moved(k.(angle := r.angle, vel := ForwardVel(k.vel, p.maxVel)), t).(vel := r.vel), t)
  {
    Throttled(Steered(k, p, keys), p, t, keys)
  }

  /** Where move_player leaves the car with one throttle key or none: it turns
      first and then steps once along the new heading at the final velocity. */
  lemma PlayerDrivenPosition(k: Kin, p: CarParams, t: Trig, keys: Keys)
    ensures var r := PlayerDriven(k, p, t, keys);
      !(keys.forward && keys.backward) ==>
        r.x == k.x - r.vel * t.sinDeg(r.angle) && r.y == k.y - r.vel * t.cosDeg(r.angle)
  {
    if !(keys.forward && keys.backward) {
      OneStepFrom(k, PlayerDriven(k, p, t, keys), t);
    }
  }

  /** With both throttle keys held the car turns first and then steps twice
      along the new heading: once at the forward velocity, once at the final one. */
  lemma BothThrottlesPosition(k: Kin, p: CarParams, t: Trig, keys: Keys)
    ensures var r := PlayerDriven(k, p, t, keys);
      keys.forward && keys.backward ==>
        && r.x == k.x - ForwardVel(k.vel, p.maxVel) * t.sinDeg(r.angle) - r.vel * t.sinDeg(r.angle)
        && r.y == k.y - ForwardVel(k.vel, p.maxVel) * t.cosDeg(r.angle) - r.vel * t.cosDeg(r.angle)
  {
    if keys.forward && keys.backward {
      TwoStepsFrom(k, PlayerDriven(k, p, t, keys), ForwardVel(k.vel, p.maxVel), t);
    }
  }

  /** The turn keys of move_player: left first, then right; the car stays put. */
  function Steered(k: Kin, p: CarParams, keys: Keys): (r: Kin)
    ensures r.x == k.x && r.y == k.y && r.vel == k.vel
    ensures r.angle == k.angle + (if keys.left then p.rotationVel else 0.0)
                               - (if keys.right then p.rotationVel else 0.0)
  {
    var k1 := if keys.left then Rotated(k, p, true, false) else k;
    if keys.right then Rotated(k1, p, false, true) else k1
  }

  /** The throttle keys of move_player: forward first, then reverse, and a
      coasting step when neither is pressed; the heading is kept. */
  function Throttled(k: Kin, p: CarParams, t: Trig, keys: Keys): (r: Kin)
    ensures r.angle == k.angle
    ensures !keys.forward && !keys.backward ==> r.vel == IdleVel(k.vel)
    ensures keys.forward && !keys.backward ==> r.vel == ForwardVel(k.vel, p.maxVel)
    ensures !keys.forward && keys.backward ==> r.vel == BackwardVel(k.vel, p.maxVel)
    ensures keys.forward && keys.backward ==> r.vel == BackwardVel(ForwardVel(k.vel, p.maxVel), p.maxVel)
    ensures !(keys.forward && keys.backward) ==> r == Moved(k.(vel := r.vel), t)
    ensures keys.forward && keys.backward ==>
      r == Moved(Moved(k.(vel := ForwardVel(k.vel, p.maxVel)), t).(vel := r.vel), t)
  {
    if keys.forward && keys.backward then Backward(Forward(k, p, t), p, t)
    else if keys.forward then Forward(k, p, t)
    else if keys.backward then Backward(k, p, t)
    else Idle(k, t)
  }

  /** The player car's point of intersection with the finish line, if any. */
  function PlayerAtFinish(w: World, e: Env): Option<Point>
  {
    Collision(w.player, e.playerSprite, FinishLine, FINISH_X, FINISH_Y, e.overlap)
  }

  /** Whether the computer car touches the finish line. */
  predicate ComputerAtFinish(w: World, e: Env) {
    Collision(w.computer.kin, e.computerSprite, FinishLine, FINISH_X, FINISH_Y, e.overlap) != None
  }

  /** Whether the player car touches the track border. */
  predicate PlayerOnBorder(w: World, e: Env) {
    Collision(w.player, e.playerSprite, TrackBorder, 0.0, 0.0, e.overlap) != None
  }

  /** First rule of handle_collision: a player car touching the border bounces. */
  function BorderResolved(w: World, e: Env): (r: World)
    ensures r.computer == w.computer && r.info == w.info
    ensures PlayerOnBorder(w, e) ==> r.player == Bounced(w.player, e.trig)
    ensures !PlayerOnBorder(w, e) ==> r == w
    ensures Consistent(w) ==> Consistent(r)
  {
    if PlayerOnBorder(w, e) then w.(player := Bounced(w.player, e.trig)) else w
  }

  /** Second rule: the computer car reaching the finish line loses the game for
      the player: level 1 again, player car reset, computer car at level-1 speed. */
  function ComputerFinishResolved(w: World, e: Env): (r: World)
    ensures ComputerAtFinish(w, e) ==>
      && r.info == AfterReset() && r.info.level == 1
      && r.player == Home(PLAYER)
      && r.computer == ComputerNextLevel(w.computer, COMPUTER, 1)
      && r.computer.kin.vel == COMPUTER.maxVel
    ensures !ComputerAtFinish(w, e) ==> r == w
    ensures Consistent(w) ==> Consistent(r)
    ensures r.computer.path == w.computer.path
  {
    if ComputerAtFinish(w, e) then
      World(Home(PLAYER), ComputerNextLevel(w.computer, COMPUTER, 1), AfterReset())
    else w
  }

  /** Third rule: the player car touching the finish line bounces when the
      point of intersection has vertical component 0; otherwise the level is
      won: next level, player car reset, computer car reset at the new level's
      speed and back at the first waypoint. */
  function PlayerFinishResolved(w: World, e: Env): (r: World)
    ensures PlayerAtFinish(w, e) == None ==> r == w
    ensures PlayerAtFinish(w, e).Some? && PlayerAtFinish(w, e).value.1 == 0 ==>
      && r.info == w.info && r.computer == w.computer
      && r.player == Bounced(w.player, e.trig)
    ensures PlayerAtFinish(w, e).Some? && PlayerAtFinish(w, e).value.1 != 0 ==>
      && r.info == AfterNextLevel(w.info)
      && r.player == Home(PLAYER)
      && r.computer.current == 0 && r.computer.path == w.computer.path
      && r.computer.kin.vel == COMPUTER.maxVel + (r.info.level - 1) as real * LEVEL_SPEEDUP
      && r.computer.kin.x == COMPUTER.startX && r.computer.kin.y == COMPUTER.startY
      && r.computer.kin.angle == 0.0
    ensures Consistent(w) ==> Consistent(r)
  {
    match PlayerAtFinish(w, e)
    case None => w
    case Some(poi) =>
      if poi.1 == 0 then w.(player := Bounced(w.player, e.trig))
      else
        var info := AfterNextLevel(w.info);
        World(Home(PLAYER), ComputerNextLevel(w.computer, COMPUTER, info.level), info)
  }

  /** handle_collision: the three rules in their fixed order, each seeing the
      state the previous one left. One call raises the level by at most one. */
  function CollisionsResolved(w: World, e: Env): (r: World)
    ensures r.computer.path == w.computer.path
    ensures Consistent(w) ==> Consistent(r) && r.info.level <= w.info.level + 1
    ensures r.info.level == 1 || r.info.level == 2
         || r.info.level == w.info.level || r.info.level == w.info.level + 1
  {
    PlayerFinishResolved(ComputerFinishResolved(BorderResolved(w, e), e), e)
  }

  /** The game-finished branch of the main loop: once every level is won, the
      level info, the player car and the computer car are reset. The computer
      car's reset is the plain one: it is left at rest, chasing the same
      waypoint as before. */
  function VictoryResolved(w: World): (r: World)
    ensures Finished(w.info) ==>
      && r.info == AfterReset() && r.player == Home(PLAYER)
      && r.computer.kin == Home(COMPUTER) && r.computer.kin.vel == 0.0
      && r.computer.current == w.computer.current && r.computer.path == w.computer.path
    ensures !Finished(w.info) ==> r == w
    ensures Consistent(w) && w.info.level <= LEVELS + 1 ==> Inv(r)
  {
    if Finished(w.info) then
      World(Home(PLAYER), ComputerReset(w.computer, COMPUTER), AfterReset())
    else w
  }

  /** After the game is won, the computer car stays parked at its start, with
      heading 0, for as many moves as follow until a level is next started
      through next_level. */
  lemma VictoryParksComputer(w: World, e: Env, n: nat)
    requires Finished(w.info)
    ensures Run(VictoryResolved(w).computer, e.trig, e.computerSprite, n).kin == Home(COMPUTER)
  {
    ParkedCarStays(VictoryResolved(w).computer, e.trig, e.computerSprite, n);
  }

  /** The points that the event loop appends to the path: the cursor position
      `cursor`, once for each mouse click before the first quit event. */
  function Clicks(events: seq<Event>, cursor: Point): (r: seq<Point>)
    ensures |r| <= |events|
  {
    if events == [] then []
    else match events[0]
      case Quit => []
      case KeyDown => Clicks(events[1..], cursor)
      case MouseDown => [cursor] + Clicks(events[1..], cursor)
  }

  /** Every appended point is the cursor position, and a queue without a quit
      event that holds a click appends at least one point. */
  lemma {:induction false} ClicksAreCursor(events: seq<Event>, cursor: Point)
    ensures forall k :: 0 <= k < |Clicks(events, cursor)| ==> Clicks(events, cursor)[k] == cursor
    ensures Quit !in events && MouseDown in events ==> Clicks(events, cursor) != []
    decreases |events|
  {
    if events != [] {
      ClicksAreCursor(events[1..], cursor);
      if events[0] == KeyDown && MouseDown in events {
        assert MouseDown in events[1..];
      }
    }
  }

  /** Handling a queue in two parts appends the points of the first part and
      then those of the second, provided the first part holds no quit event. */
  lemma {:induction false} ClicksConcat(a: seq<Event>, b: seq<Event>, cursor: Point)
    requires Quit !in a
    ensures Clicks(a + b, cursor) == Clicks(a, cursor) + Clicks(b, cursor)
    decreases |a|
  {
    if a != [] {
      assert (a + b)[1..] == a[1..] + b;
      ClicksConcat(a[1..], b, cursor);
    } else {
      assert a + b == b;
    }
  }

  /** Everything after the first quit event is ignored. */
  lemma QuitDropsTheRest(a: seq<Event>, b: seq<Event>, cursor: Point)
    requires Quit !in a
    ensures Clicks(a + [Quit] + b, cursor) == Clicks(a, cursor)
  {
    ClicksConcat(a, [Quit] + b, cursor);
    assert a + [Quit] + b == a + ([Quit] + b);
  }

  /** Each click of a queue without a quit event appends one point, in order:
      one more click means one more point. */
  lemma {:induction false} EveryClickAppends(a: seq<Event>, cursor: Point)
    requires Quit !in a
    ensures Clicks(a + [MouseDown], cursor) == Clicks(a, cursor) + [cursor]
    ensures Clicks(a + [KeyDown], cursor) == Clicks(a, cursor)
  {
    ClicksConcat(a, [MouseDown], cursor);
    ClicksConcat(a, [KeyDown], cursor);
    assert [KeyDown][1..] == [];
    assert [MouseDown][1..] == [];
  }

  /** How Clicks consumes the event at index `i` of the queue. */
  lemma ClicksAt(events: seq<Event>, i: nat, cursor: Point)
    requires i < |events|
    ensures events[i] == Quit ==> Clicks(events[i..], cursor) == []
    ensures events[i] == KeyDown ==> Clicks(events[i..], cursor) == Clicks(events[i + 1..], cursor)
    ensures events[i] == MouseDown ==> Clicks(events[i..], cursor) == [cursor] + Clicks(events[i + 1..], cursor)
  {
    assert events[i..][1..] == events[i + 1..];
  }

  /** One iteration of the main loop: wait for the level to be started (the key
      press comes at time `now`), handle the events, drive the player car by the
      keys, move the computer car, resolve collisions and check for victory.
      The invariant is kept, and the path changes only by the clicked points. */
  function Ticked(w: World, e: Env, input: Input): (r: World)
    ensures Inv(w) ==> Inv(r)
    ensures r.computer.path == w.computer.path + Clicks(input.events, input.cursor)
  {
    var w1 := w.(info := if w.info.started then w.info else AfterStart(w.info, input.now));
    var w2 := w1.(computer := w1.computer.(path := w1.computer.path + Clicks(input.events, input.cursor)));
    var w3 := w2.(player := PlayerDriven(w2.player, PLAYER, e.trig, input.keys));
    var w4 := w3.(computer := ComputerMoved(w3.computer, e.trig, e.computerSprite));
    VictoryResolved(CollisionsResolved(w4, e))
  }

  /** The state after the main loop has run `n` times with the given inputs. */
  function Play(w: World, e: Env, inputs: seq<Input>): World
    decreases |inputs|
  {
    if inputs == [] then w
    else Play(Ticked(w, e, inputs[0]), e, inputs[1..])
  }

  /** Every state the game reaches from its start satisfies the invariant: the
      player car stays in its speed band, the waypoint index in range, and the
      level between 1 and LEVELS. */
  lemma {:induction false} PlayKeepsInvariant(w: World, e: Env, inputs: seq<Input>)
    requires Inv(w)
    ensures Inv(Play(w, e, inputs))
    decreases |inputs|
  {
    if inputs != [] {
      PlayKeepsInvariant(Ticked(w, e, inputs[0]), e, inputs[1..]);
    }
  }

  /** The running game: the two car objects and the GameInfo object of main.py. */
  class Game {
    const player: Car
    const computer: ComputerCar
    const info: GameInfo
    const overlap: Overlap

    /** The two cars are distinct objects with the program's parameters and the
        same trigonometry. */
    ghost predicate Valid() {
      && player != computer.car
      && player.Params() == PLAYER && computer.car.Params() == COMPUTER
      && player.trig == computer.car.trig
      && player.sprite.image == RedCar && computer.car.sprite.image == GreenCar
    }

    /** What the game takes as given, as one value. */
    function Environment(): Env {
      Env(player.trig, overlap, player.sprite, computer.car.sprite)
    }

    /** The whole game state as one value. */
    function Snapshot(): World
      reads player, computer, computer.car, info
    {
      World(player.State(), computer.State(), info.State())
    }

    /** The cars with the red and the green car images, whose (width, height)
        in pixels come from the loaded image files. */
    constructor (trig: Trig, overlap: Overlap, redCar: (int, int), greenCar: (int, int))
      ensures Valid() && fresh(player) && fresh(computer) && fresh(computer.car) && fresh(info)
      ensures Environment() == Env(trig, overlap, Sprite(RedCar, redCar.0, redCar.1), Sprite(GreenCar, greenCar.0, greenCar.1))
      ensures Snapshot() == InitialWorld()
    {
      player := new Car(PLAYER, Sprite(RedCar, redCar.0, redCar.1), trig);
      computer := new ComputerCar(COMPUTER, Sprite(GreenCar, greenCar.0, greenCar.1), trig, TRACK_PATH);
      info := new GameInfo(1);
      this.overlap := overlap;
    }

    method MovePlayer(keys: Keys)
      requires Valid()
      modifies player
      ensures player.State() == PlayerDriven(old(player.State()), PLAYER, player.trig, keys)
    {
      var moved := false;
      if keys.left {
        player.Rotate(true, false);
      }
      if keys.right {
        player.Rotate(false, true);
      }
      if keys.forward {
        moved := true;
        player.MoveForward();
      }
      if keys.backward {
        moved := true;
        player.MoveBackward();
      }
      if !moved {
        player.ReduceSpeed();
      }
    }

    method HandleCollision()
      requires Valid()
      modifies player, computer, computer.car, info
      ensures Snapshot() == CollisionsResolved(old(Snapshot()), Environment())
    {
      ghost var w0 := Snapshot();
      if player.Collide(TrackBorder, 0.0, 0.0, overlap) != None {
        player.Bounce();
      }
      ghost var w1 := Snapshot();
      assert w1 == BorderResolved(w0, Environment());
      if computer.car.Collide(FinishLine, FINISH_X, FINISH_Y, overlap) != None {
        info.Reset();
        player.Reset();
        computer.NextLevel(1);
      }
      ghost var w2 := Snapshot();
      assert w2 == ComputerFinishResolved(w1, Environment());
      var poi := player.Collide(FinishLine, FINISH_X, FINISH_Y, overlap);
      if poi != None {
        if poi.value.1 == 0 {
          player.Bounce();
        } else {
          info.NextLevel();
          player.Reset();
          computer.NextLevel(info.level);
        }
      }
      assert Snapshot() == PlayerFinishResolved(w2, Environment());
    }

    /** The game-finished branch of the main loop. */
    method CheckVictory()
      requires Valid()
      modifies player, computer.car, info
      ensures Snapshot() == VictoryResolved(old(Snapshot()))
    {
      if info.GameFinished() {
        info.Reset();
        player.Reset();
        computer.car.Reset();
      }
    }

    /** The blocking wait for a key press before a level, the key coming at `now`. */
    method WaitForStart(now: real)
      modifies info
      ensures info.State() == if old(info.started) then old(info.State()) else AfterStart(old(info.State()), now)
    {
      if !info.started {
        info.StartLevel(now);
      }
    }

    /** The event loop of one iteration: each click appends the cursor position
        to the computer car's path, a quit event ends the loop and asks the
        game to stop. */
    method ProcessEvents(events: seq<Event>, cursor: Point) returns (quit: bool)
      modifies computer
      ensures quit == (Quit in events)
      ensures computer.path == old(computer.path) + Clicks(events, cursor)
      ensures computer.currentPoint == old(computer.currentPoint)
    {
      quit := false;
      var i := 0;
      while i < |events|
        invariant 0 <= i <= |events|
        invariant computer.path + Clicks(events[i..], cursor) == old(computer.path) + Clicks(events, cursor)
        invariant forall j :: 0 <= j < i ==> events[j] != Quit
        invariant computer.currentPoint == old(computer.currentPoint)
      {
        ClicksAt(events, i, cursor);
        match events[i] {
          case Quit =>
            quit := true;
            break;
          case KeyDown =>
          case MouseDown =>
            ghost var before := computer.path;
            computer.AppendPoint(cursor);
            assert computer.path + Clicks(events[i + 1..], cursor) == before + ([cursor] + Clicks(events[i + 1..], cursor));
        }
        i := i + 1;
      }
    }

    /** One iteration of the main loop (drawing and the frame clock left out). */
    method Tick(now: real, events: seq<Event>, cursor: Point, keys: Keys) returns (running: bool)
      requires Valid()
      modifies player, computer, computer.car, info
      ensures running == (Quit !in events)
      ensures Snapshot() == Ticked(old(Snapshot()), Environment(), Input(now, events, cursor, keys))
    {
      WaitForStart(now);
      var quit := ProcessEvents(events, cursor);
      running := !quit;
      MovePlayer(keys);
      computer.Move();
      HandleCollision();
      CheckVictory();
    }
  }
}
