/** The per-frame simulation of the driving game, as functions on a value
    that holds the whole game state. `World` has one field per entry of the
    game-state record, plus `reports`, the scores passed to the game-over
    callback so far. A frame (`Step`) is the composition of the phases of
    the game loop, in the loop's order; each filter pass over a list of
    entities is a left fold, one element at a time, as the loop runs it. */
module Simulation {
  import opened Entities

  const ObstacleInterval := 1500
  const CoinInterval := 2000
  const PowerUpInterval := 15000
  const PassReward := 10
  const CoinReward := 50
  /** Particles in the burst of an obstacle the shield absorbs, of a crash,
      of a collected coin and of a collected power-up. */
  const ShieldBurst: nat := 15
  const CrashBurst: nat := 30
  const CoinBurst: nat := 12
  const PowerUpBurst: nat := 15
  const StartSpeed := 3.0
  const SpeedCap := 8.0
  const SpeedStep := 0.05
  const DifficultyEvery := 20

  /** The steering intents. */
  datatype Keys = Keys(left: bool, right: bool)

  datatype World = World(
    isRunning: bool,
    isPaused: bool,
    car: Car,
    obstacles: seq<Obstacle>,
    coins: seq<Coin>,
    powerUps: seq<PowerUp>,
    particles: seq<Particle>,
    keys: Keys,
    roadOffset: real,
    lastObstacleTime: int,
    lastCoinTime: int,
    lastPowerUpTime: int,
    score: int,
    distance: int,
    baseSpeed: real,
    touchStartX: real,
    shield: Timer,
    magnet: Timer,
    boost: Timer,
    reports: seq<int>)

  /** The state a session starts in. */
  function Initial(): World
  {
    World(true, false, StartCar, [], [], [], [], Keys(false, false), 0.0, 0, 0, 0,
          0, 0, StartSpeed, 0.0, Timer(false, 0), Timer(false, 0), Timer(false, 0), [])
  }

  /** The random draws one frame consumes: raw uniform draws in [0, 1) for
      the obstacle variant and its speed, lane and kind indices already
      floored, and the draws for each particle the frame creates (the
      particle pushed at position j of the particle list uses sparks(j)). */
  datatype Draws = Draws(obstacleVariant: real, obstacleLane: nat, obstacleSpeed: real,
                         coinLane: nat, powerUpKind: nat, powerUpLane: nat,
                         sparks: nat -> Jitter)
  {
    predicate InRange()
    {
      0.0 <= obstacleVariant < 1.0 && obstacleLane < Lanes && 0.0 <= obstacleSpeed < 1.0 &&
      coinLane < Lanes && powerUpKind < 3 && powerUpLane < Lanes
    }
  }

  // ---------------------------------------------------------------- particles

  /** One particle of a burst, at rest position (x, y) with full life. */
  function Spark(x: real, y: real, color: string, j: Jitter): Particle
  {
    Particle(x, y, (j.vx - 0.5) * 6.0, (j.vy - 0.5) * 6.0, 1.0, color, j.size * 4.0 + 2.0)
  }

  /** `count` particles pushed one after another onto `ps`; the one that
      lands at position j of the list is drawn with sparks(j). */
  function Emit(ps: seq<Particle>, x: real, y: real, color: string, count: nat, sparks: nat -> Jitter): (r: seq<Particle>)
    ensures |r| == |ps| + count
  {
    ps + seq(count, (k: nat) => Spark(x, y, color, sparks(|ps| + k)))
  }

  /** A burst of one more particle is the shorter burst with the next
      particle pushed at its end. */
  lemma EmitOneMore(ps: seq<Particle>, x: real, y: real, color: string, count: nat, sparks: nat -> Jitter)
    ensures Emit(ps, x, y, color, count + 1, sparks)
            == Emit(ps, x, y, color, count, sparks) + [Spark(x, y, color, sparks(|ps| + count))]
  {
    var longer := Emit(ps, x, y, color, count + 1, sparks);
    var shorter := Emit(ps, x, y, color, count, sparks) + [Spark(x, y, color, sparks(|ps| + count))];
    assert forall i :: 0 <= i < |longer| ==> longer[i] == shorter[i];
  }

  /** One frame of particle physics: move by the velocity, then gravity,
      then lose 0.02 of life. */
  function Decay(p: Particle): Particle
  {
    p.(x := p.x + p.vx, y := p.y + p.vy, vy := p.vy + 0.2, life := p.life - 0.02)
  }

  /** The particle filter: every particle decays and those with life left
      are kept, in order. */
  function Survivors(s: seq<Particle>): seq<Particle>
    decreases |s|
  {
    if s == [] then []
    else
      var p := Decay(s[|s| - 1]);
      Survivors(s[..|s| - 1]) + if p.life > 0.0 then [p] else []
  }

  function UpdateParticles(w: World): World
  {
    w.(particles := Survivors(w.particles))
  }

  // ------------------------------------------------------- speed, road, car

  /** The speed of this frame: the base speed, half as fast again while the
      boost is on. */
  function CurrentSpeed(boost: Timer, baseSpeed: real): (v: real)
    ensures baseSpeed >= 0.0 ==> baseSpeed <= v <= 1.5 * baseSpeed
    ensures baseSpeed > 0.0 ==> (v > baseSpeed <==> boost.active)
  {
    if boost.active then baseSpeed * 1.5 else baseSpeed
  }

  /** The road markings scroll by twice the speed and wrap to 0 past 70. */
  function Scroll(offset: real, v: real): (r: real)
    ensures r <= 70.0
    ensures 0.0 <= offset && 0.0 <= v ==> 0.0 <= r
    ensures offset + 2.0 * v <= 70.0 ==> r == offset + 2.0 * v
    ensures offset + 2.0 * v > 70.0 ==> r == 0.0
  {
    if offset + v * 2.0 > 70.0 then 0.0 else offset + v * 2.0
  }

  function ScrollRoad(w: World, v: real): World
  {
    w.(roadOffset := Scroll(w.roadOffset, v))
  }

  /** Steering: left wins over right; with neither held the tilt decays.
      The car is then clamped between the road edges less a margin of 5. */
  function Steer(car: Car, keys: Keys, roadX: real, roadWidth: real): (r: Car)
    ensures r == car.(x := r.x, tilt := r.tilt)
    ensures r.tilt == if keys.left then -0.1 else if keys.right then 0.1 else 0.9 * car.tilt
    ensures var lo := roadX + 5.0;
            var hi := roadX + roadWidth - car.width - 5.0;
            var target := if keys.left then car.x - car.speed
                          else if keys.right then car.x + car.speed
                          else car.x;
            && (lo <= hi ==> lo <= r.x <= hi)
            && r.x == Clamp(target, lo, hi)
            && Clamp(r.x, lo, hi) == r.x
            && (lo <= target <= hi ==> r.x == target)
  {
    var moved :=
      if keys.left then car.(x := car.x - car.speed, tilt := -0.1)
      else if keys.right then car.(x := car.x + car.speed, tilt := 0.1)
      else car.(tilt := car.tilt * 0.9);
    moved.(x := Clamp(moved.x, roadX + 5.0, roadX + roadWidth - car.width - 5.0))
  }

  function SteerCar(w: World, canvasWidth: real): World
  {
    w.(car := Steer(w.car, w.keys, RoadX(canvasWidth), RoadWidth(canvasWidth)))
  }

  // ------------------------------------------------------------------ timers

  /** A timer switches off once the clock is strictly past its end time. */
  function Expire(t: Timer, now: int): (r: Timer)
    ensures r.endTime == t.endTime
    ensures r.active <==> t.active && now <= t.endTime
  {
    if t.active && now > t.endTime then t.(active := false) else t
  }

  function ExpireTimers(w: World, now: int): World
  {
    w.(shield := Expire(w.shield, now), magnet := Expire(w.magnet, now), boost := Expire(w.boost, now))
  }

  function Duration(kind: PowerKind): int
  {
    match kind
    case Shield => 10000
    case Magnet => 8000
    case Boost => 5000
  }

  function PowerColor(kind: PowerKind): string
  {
    match kind
    case Shield => ShieldColor
    case Magnet => MagnetColor
    case Boost => BoostColor
  }

  // --------------------------------------------------------------- spawning

  /** A kind is due to spawn once strictly more than its interval has
      passed since it last spawned. */
  predicate Due(now: int, last: int, interval: int)
  {
    now - last > interval
  }

  function SpawnObstacle(w: World, now: int, canvasWidth: real, v: real, d: Draws): (r: World)
    requires d.InRange()
    ensures r == w.(obstacles := r.obstacles, lastObstacleTime := r.lastObstacleTime)
    ensures |r.obstacles| == |w.obstacles| + (if Due(now, w.lastObstacleTime, ObstacleInterval) then 1 else 0)
    ensures r.obstacles[..|w.obstacles|] == w.obstacles
    ensures r.lastObstacleTime == if Due(now, w.lastObstacleTime, ObstacleInterval) then now else w.lastObstacleTime
    ensures Due(now, w.lastObstacleTime, ObstacleInterval) ==>
              r.obstacles[|w.obstacles|] == NewObstacle(d.obstacleVariant, d.obstacleLane, d.obstacleSpeed, canvasWidth, v)
    ensures Due(now, w.lastObstacleTime, ObstacleInterval) ==>
              var o := r.obstacles[|w.obstacles|];
              && o.y == -o.height
              && v <= o.speed < v + 2.0
              && (LaneWidth(canvasWidth) >= o.width ==> OnRoad(canvasWidth, o.x, o.width))
  {
    if Due(now, w.lastObstacleTime, ObstacleInterval) then
      var o := NewObstacle(d.obstacleVariant, d.obstacleLane, d.obstacleSpeed, canvasWidth, v);
      LaneOnRoad(canvasWidth, d.obstacleLane, o.x, o.width);
      w.(obstacles := w.obstacles + [o], lastObstacleTime := now)
    else w
  }

  function SpawnCoin(w: World, now: int, canvasWidth: real, d: Draws): (r: World)
    requires d.InRange()
    ensures r == w.(coins := r.coins, lastCoinTime := r.lastCoinTime)
    ensures |r.coins| == |w.coins| + (if Due(now, w.lastCoinTime, CoinInterval) then 1 else 0)
    ensures r.coins[..|w.coins|] == w.coins
    ensures r.lastCoinTime == if Due(now, w.lastCoinTime, CoinInterval) then now else w.lastCoinTime
    ensures Due(now, w.lastCoinTime, CoinInterval) ==> r.coins[|w.coins|] == NewCoin(d.coinLane, canvasWidth)
    ensures Due(now, w.lastCoinTime, CoinInterval) ==>
              var c := r.coins[|w.coins|];
              && !c.collected
              && (LaneWidth(canvasWidth) >= 2.0 * c.radius ==> OnRoad(canvasWidth, c.x - c.radius, 2.0 * c.radius))
  {
    if Due(now, w.lastCoinTime, CoinInterval) then
      var c := NewCoin(d.coinLane, canvasWidth);
      LaneOnRoad(canvasWidth, d.coinLane, c.x - c.radius, 2.0 * c.radius);
      w.(coins := w.coins + [c], lastCoinTime := now)
    else w
  }

  function SpawnPowerUp(w: World, now: int, canvasWidth: real, d: Draws): (r: World)
    requires d.InRange()
    ensures r == w.(powerUps := r.powerUps, lastPowerUpTime := r.lastPowerUpTime)
    ensures |r.powerUps| == |w.powerUps| + (if Due(now, w.lastPowerUpTime, PowerUpInterval) then 1 else 0)
    ensures r.powerUps[..|w.powerUps|] == w.powerUps
    ensures r.lastPowerUpTime == if Due(now, w.lastPowerUpTime, PowerUpInterval) then now else w.lastPowerUpTime
    ensures Due(now, w.lastPowerUpTime, PowerUpInterval) ==>
              r.powerUps[|w.powerUps|] == NewPowerUp(d.powerUpKind, d.powerUpLane, canvasWidth)
    ensures Due(now, w.lastPowerUpTime, PowerUpInterval) ==>
              var p := r.powerUps[|w.powerUps|];
              && !p.collected
              && (LaneWidth(canvasWidth) >= p.width ==> OnRoad(canvasWidth, p.x, p.width))
  {
    if Due(now, w.lastPowerUpTime, PowerUpInterval) then
      var p := NewPowerUp(d.powerUpKind, d.powerUpLane, canvasWidth);
      LaneOnRoad(canvasWidth, d.powerUpLane, p.x, p.width);
      w.(powerUps := w.powerUps + [p], lastPowerUpTime := now)
    else w
  }

  // ---------------------------------------------------------- obstacle pass

  function Moved(o: Obstacle): Obstacle
  {
    o.(y := o.y + o.speed)
  }

  /** The obstacle, once moved this frame, overlaps the car. */
  predicate Hits(car: Car, o: Obstacle)
  {
    Overlaps(car.Box(), Moved(o).Box())
  }

  /** The obstacle, once moved, misses the car and has left the canvas. */
  predicate Passes(car: Car, height: real, o: Obstacle)
  {
    !Hits(car, o) && Moved(o).y >= height
  }

  /** The part of the state the obstacle pass updates; `kept` is the new
      obstacle list being built. */
  datatype ObstaclePass = ObstaclePass(kept: seq<Obstacle>, score: int, distance: int, particles: seq<Particle>,
                                       shield: Timer, isRunning: bool, reports: seq<int>)

  /** One obstacle of the filter: a hit is absorbed by an active shield or
      ends the game and reports the score; a miss still on the canvas is
      kept; a miss past the bottom is dropped and rewarded. The pass goes
      on after the game has ended. */
  function ObstacleStep(p: ObstaclePass, car: Car, o: Obstacle, height: real, sparks: nat -> Jitter): ObstaclePass
  {
    var m := Moved(o);
    if Hits(car, o) then
      if p.shield.active then
        p.(particles := Emit(p.particles, m.x + m.width / 2.0, m.y + m.height / 2.0, ShieldColor, ShieldBurst, sparks),
           shield := p.shield.(active := false))
      else
        p.(isRunning := false,
           particles := Emit(p.particles, car.CentreX(), car.CentreY(), CrashColor, CrashBurst, sparks),
           reports := p.reports + [p.score])
    else if m.y < height then
      p.(kept := p.kept + [m])
    else
      p.(score := p.score + PassReward, distance := p.distance + 1)
  }

  function ObstacleFold(p: ObstaclePass, car: Car, s: seq<Obstacle>, height: real, sparks: nat -> Jitter): ObstaclePass
    decreases |s|
  {
    if s == [] then p
    else ObstacleStep(ObstacleFold(p, car, s[..|s| - 1], height, sparks), car, s[|s| - 1], height, sparks)
  }

  function UpdateObstacles(w: World, height: real, sparks: nat -> Jitter): World
  {
    var p := ObstacleFold(ObstaclePass([], w.score, w.distance, w.particles, w.shield, w.isRunning, w.reports),
                          w.car, w.obstacles, height, sparks);
    w.(obstacles := p.kept, score := p.score, distance := p.distance, particles := p.particles,
       shield := p.shield, isRunning := p.isRunning, reports := p.reports)
  }

  /** How many of `s` hit the car. */
  function CountHits(car: Car, s: seq<Obstacle>): nat
    decreases |s|
  {
    if s == [] then 0
    else CountHits(car, s[..|s| - 1]) + if Hits(car, s[|s| - 1]) then 1 else 0
  }

  /** How many of `s` pass the car and leave the canvas. */
  function CountPassed(car: Car, height: real, s: seq<Obstacle>): nat
    decreases |s|
  {
    if s == [] then 0
    else CountPassed(car, height, s[..|s| - 1]) + if Passes(car, height, s[|s| - 1]) then 1 else 0
  }

  /** The moved obstacles of `s` that miss the car and stay on the canvas. */
  function KeptObstacles(car: Car, height: real, s: seq<Obstacle>): seq<Obstacle>
    decreases |s|
  {
    if s == [] then []
    else
      var o := s[|s| - 1];
      KeptObstacles(car, height, s[..|s| - 1]) +
        if !Hits(car, o) && Moved(o).y < height then [Moved(o)] else []
  }

  // -------------------------------------------------------------- coin pass

  /** A coin falls at the frame's speed, turns, and is pulled by an active
      magnet unless already collected. */
  function MoveCoin(car: Car, magnetOn: bool, v: real, c: Coin): Coin
  {
    var fallen := c.(y := c.y + v, rotation := c.rotation + 0.05);
    if magnetOn && !fallen.collected then Pull(car, fallen) else fallen
  }

  /** The coin, once moved, is picked up. */
  predicate Collects(car: Car, magnetOn: bool, v: real, c: Coin)
  {
    CoinPickup(car, MoveCoin(car, magnetOn, v, c))
  }

  /** The part of the state the coin pass updates. */
  datatype CoinPass = CoinPass(kept: seq<Coin>, score: int, particles: seq<Particle>)

  /** One coin of the filter. A picked-up coin is marked collected, which
      is exactly what makes the filter drop it, so it is not kept. */
  function CoinStep(p: CoinPass, car: Car, magnetOn: bool, c: Coin, v: real, height: real, sparks: nat -> Jitter): CoinPass
  {
    var m := MoveCoin(car, magnetOn, v, c);
    if CoinPickup(car, m) then
      p.(score := p.score + CoinReward, particles := Emit(p.particles, m.x, m.y, CoinColor, CoinBurst, sparks))
    else if m.y < height + 50.0 && !m.collected then
      p.(kept := p.kept + [m])
    else p
  }

  function CoinFold(p: CoinPass, car: Car, magnetOn: bool, s: seq<Coin>, v: real, height: real, sparks: nat -> Jitter): CoinPass
    decreases |s|
  {
    if s == [] then p
    else CoinStep(CoinFold(p, car, magnetOn, s[..|s| - 1], v, height, sparks), car, magnetOn, s[|s| - 1], v, height, sparks)
  }

  function UpdateCoins(w: World, v: real, height: real, sparks: nat -> Jitter): World
  {
    var p := CoinFold(CoinPass([], w.score, w.particles), w.car, w.magnet.active, w.coins, v, height, sparks);
    w.(coins := p.kept, score := p.score, particles := p.particles)
  }

  function CountCollected(car: Car, magnetOn: bool, v: real, s: seq<Coin>): nat
    decreases |s|
  {
    if s == [] then 0
    else CountCollected(car, magnetOn, v, s[..|s| - 1]) + if Collects(car, magnetOn, v, s[|s| - 1]) then 1 else 0
  }

  function KeptCoins(car: Car, magnetOn: bool, v: real, height: real, s: seq<Coin>): seq<Coin>
    decreases |s|
  {
    if s == [] then []
    else
      var m := MoveCoin(car, magnetOn, v, s[|s| - 1]);
      KeptCoins(car, magnetOn, v, height, s[..|s| - 1]) +
        if !CoinPickup(car, m) && m.y < height + 50.0 && !m.collected then [m] else []
  }

  // ---------------------------------------------------------- power-up pass

  function Fallen(p: PowerUp, v: real): PowerUp
  {
    p.(y := p.y + v)
  }

  /** The power-up, once moved, is not yet collected and overlaps the car. */
  predicate Grabs(car: Car, v: real, p: PowerUp)
  {
    !Fallen(p, v).collected && Overlaps(car.Box(), Fallen(p, v).Box())
  }

  /** The part of the state the power-up pass updates. */
  datatype PowerUpPass = PowerUpPass(kept: seq<PowerUp>, particles: seq<Particle>,
                                     shield: Timer, magnet: Timer, boost: Timer)

  /** Collecting a power-up starts its timer afresh, replacing any end time. */
  function Activate(p: PowerUpPass, kind: PowerKind, now: int): PowerUpPass
  {
    match kind
    case Shield => p.(shield := Timer(true, now + Duration(Shield)))
    case Magnet => p.(magnet := Timer(true, now + Duration(Magnet)))
    case Boost => p.(boost := Timer(true, now + Duration(Boost)))
  }

  /** One power-up of the filter: a grabbed one bursts and starts its
      timer and is dropped; otherwise it is kept while on the canvas. */
  function PowerUpStep(p: PowerUpPass, car: Car, u: PowerUp, v: real, now: int, height: real, sparks: nat -> Jitter): PowerUpPass
  {
    var m := Fallen(u, v);
    if Grabs(car, v, u) then
      Activate(p.(particles := Emit(p.particles, m.x + m.width / 2.0, m.y + m.height / 2.0,
                                    PowerColor(m.kind), PowerUpBurst, sparks)),
               m.kind, now)
    else if m.y < height && !m.collected then
      p.(kept := p.kept + [m])
    else p
  }

  function PowerUpFold(p: PowerUpPass, car: Car, s: seq<PowerUp>, v: real, now: int, height: real, sparks: nat -> Jitter): PowerUpPass
    decreases |s|
  {
    if s == [] then p
    else PowerUpStep(PowerUpFold(p, car, s[..|s| - 1], v, now, height, sparks), car, s[|s| - 1], v, now, height, sparks)
  }

  function UpdatePowerUps(w: World, v: real, now: int, height: real, sparks: nat -> Jitter): World
  {
    var p := PowerUpFold(PowerUpPass([], w.particles, w.shield, w.magnet, w.boost), w.car, w.powerUps, v, now, height, sparks);
    w.(powerUps := p.kept, particles := p.particles, shield := p.shield, magnet := p.magnet, boost := p.boost)
  }

  function CountGrabbed(car: Car, v: real, s: seq<PowerUp>): nat
    decreases |s|
  {
    if s == [] then 0
    else CountGrabbed(car, v, s[..|s| - 1]) + if Grabs(car, v, s[|s| - 1]) then 1 else 0
  }

  /** Some power-up of `kind` in `s` is grabbed. */
  predicate AnyGrabbed(car: Car, v: real, s: seq<PowerUp>, kind: PowerKind)
  {
    exists i :: 0 <= i < |s| && s[i].kind == kind && Grabs(car, v, s[i])
  }

  function KeptPowerUps(car: Car, v: real, height: real, s: seq<PowerUp>): seq<PowerUp>
    decreases |s|
  {
    if s == [] then []
    else
      var p := s[|s| - 1];
      KeptPowerUps(car, v, height, s[..|s| - 1]) +
        if !Grabs(car, v, p) && Fallen(p, v).y < height && !Fallen(p, v).collected then [Fallen(p, v)] else []
  }

  // -------------------------------------------------------------- difficulty

  /** The base speed after a frame that ends at `distance`: up by 0.05,
      capped at 8, on every frame whose distance is a positive multiple
      of 20. */
  function NextBaseSpeed(distance: int, base: real): (r: real)
    ensures base <= SpeedCap ==> base <= r <= SpeedCap
    ensures r != base ==> distance > 0 && distance % DifficultyEvery == 0
    ensures distance > 0 && distance % DifficultyEvery == 0 && base + SpeedStep <= SpeedCap ==> r == base + SpeedStep
    ensures distance > 0 && distance % DifficultyEvery == 0 && base + SpeedStep > SpeedCap ==> r == SpeedCap
  {
    if distance > 0 && distance % DifficultyEvery == 0 then
      (if SpeedCap < base + SpeedStep then SpeedCap else base + SpeedStep)
    else base
  }

  function RaiseDifficulty(w: World): World
  {
    w.(baseSpeed := NextBaseSpeed(w.distance, w.baseSpeed))
  }

  // -------------------------------------------------------------- one frame

  /** One frame of the game loop. Nothing happens once the game has ended
      or while it is paused. The frame's speed is fixed before the timers
      expire, so a boost that runs out this frame still applies to it. */
  function Step(w: World, now: int, canvasWidth: real, canvasHeight: real, d: Draws): (r: World)
    requires d.InRange()
    ensures !w.isRunning || w.isPaused ==> r == w
  {
    if !w.isRunning || w.isPaused then w
    else
      var v := CurrentSpeed(w.boost, w.baseSpeed);
      var moved := ExpireTimers(SteerCar(ScrollRoad(w, v), canvasWidth), now);
      var spawned := SpawnPowerUp(SpawnCoin(SpawnObstacle(moved, now, canvasWidth, v, d), now, canvasWidth, d),
                                  now, canvasWidth, d);
      var filtered := UpdatePowerUps(UpdateCoins(UpdateObstacles(spawned, canvasHeight, d.sparks),
                                                 v, canvasHeight, d.sparks),
                                     v, now, canvasHeight, d.sparks);
      RaiseDifficulty(UpdateParticles(filtered))
  }

  // ------------------------------------------------------------------ canvas

  /** Fitting the canvas to the window moves the car: centred across the
      canvas, with its bottom edge 50 above the canvas's bottom edge. This
      runs once before the first frame and again on every window resize. */
  function PlaceCar(w: World, canvasWidth: real, canvasHeight: real): (r: World)
    ensures r == w.(car := r.car) && r.car == w.car.(x := r.car.x, y := r.car.y)
    ensures r.car.CentreX() == canvasWidth / 2.0
    ensures r.car.y + r.car.height == canvasHeight - 50.0
  {
    w.(car := w.car.(x := canvasWidth / 2.0 - w.car.width / 2.0, y := canvasHeight - w.car.height - 50.0))
  }

  // ------------------------------------------------------------------- input

  predicate IsLeftKey(key: string) { key == "ArrowLeft" || key == "a" || key == "A" }
  predicate IsRightKey(key: string) { key == "ArrowRight" || key == "d" || key == "D" }
  predicate IsPauseKey(key: string) { key == " " || key == "p" || key == "P" }

  /** A key press sets the intent it names and the pause key toggles pause. */
  function KeyDown(w: World, key: string): (r: World)
    ensures r == w.(keys := r.keys, isPaused := r.isPaused)
    ensures r.keys.left == (w.keys.left || IsLeftKey(key))
    ensures r.keys.right == (w.keys.right || IsRightKey(key))
    ensures r.isPaused == (w.isPaused != IsPauseKey(key))
  {
    var w1 := if IsLeftKey(key) then w.(keys := w.keys.(left := true)) else w;
    var w2 := if IsRightKey(key) then w1.(keys := w1.keys.(right := true)) else w1;
    if IsPauseKey(key) then w2.(isPaused := !w2.isPaused) else w2
  }

  /** A key release clears the intent it names. */
  function KeyUp(w: World, key: string): (r: World)
    ensures r == w.(keys := r.keys)
    ensures r.keys.left == (w.keys.left && !IsLeftKey(key))
    ensures r.keys.right == (w.keys.right && !IsRightKey(key))
  {
    var w1 := if IsLeftKey(key) then w.(keys := w.keys.(left := false)) else w;
    if IsRightKey(key) then w1.(keys := w1.keys.(right := false)) else w1
  }

  function TouchStart(w: World, x: real): World
  {
    w.(touchStartX := x)
  }

  /** A drag of more than 10 to one side steers that way only; a smaller
      drag steers neither way. The drag is measured from the last sample. */
  function TouchMove(w: World, x: real): (r: World)
    ensures r == w.(keys := r.keys, touchStartX := r.touchStartX)
    ensures r.touchStartX == x
    ensures !(r.keys.left && r.keys.right)
    ensures x - w.touchStartX > 10.0 <==> r.keys.right
    ensures x - w.touchStartX < -10.0 <==> r.keys.left
  {
    var diff := x - w.touchStartX;
    var keys := if diff > 10.0 then Keys(false, true)
                else if diff < -10.0 then Keys(true, false)
                else Keys(false, false);
    w.(keys := keys, touchStartX := x)
  }

  /** Lifting the finger stops steering. */
  function TouchEnd(w: World): (r: World)
    ensures r == w.(keys := r.keys)
    ensures !r.keys.left && !r.keys.right
  {
    w.(keys := Keys(false, false))
  }

  // ------------------------------------------------------------------ a run

  /** What can happen to a session: input events and animation frames. */
  datatype Event =
    | KeyPress(key: string)
    | KeyRelease(key: string)
    | TouchBegin(x: real)
    | TouchDrag(x: real)
    | TouchLift
    | Resize(width: real, height: real)
    | Frame(now: int, canvasWidth: real, canvasHeight: real, draws: Draws)

  predicate Admissible(e: Event)
  {
    e.Frame? ==> e.draws.InRange()
  }

  function Apply(w: World, e: Event): World
    requires Admissible(e)
  {
    match e
    case KeyPress(key) => KeyDown(w, key)
    case KeyRelease(key) => KeyUp(w, key)
    case TouchBegin(x) => TouchStart(w, x)
    case TouchDrag(x) => TouchMove(w, x)
    case TouchLift => TouchEnd(w)
    case Resize(cw, ch) => PlaceCar(w, cw, ch)
    case Frame(now, cw, ch, d) => Step(w, now, cw, ch, d)
  }

  /** The state after the events `es`, in order. */
  function Run(w: World, es: seq<Event>): World
    requires forall i :: 0 <= i < |es| ==> Admissible(es[i])
    decreases |es|
  {
    if es == [] then w else Apply(Run(w, es[..|es| - 1]), es[|es| - 1])
  }
}
