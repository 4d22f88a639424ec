/** The game's mutable state and the code that changes it: the handlers of
    keyboard and touch input, the particle burst, and one frame of the
    game loop, phase by phase as the loop runs them. Each method is proved
    to move the state exactly as the function of module Simulation that
    specifies it, so every property proved there holds of the object. */
module Game {
  import opened Entities
  import opened Simulation

  /** The record the game loop and the handlers share. */
  class GameState {
    var isRunning: bool
    var isPaused: bool
    var car: Car
    var obstacles: seq<Obstacle>
    var coins: seq<Coin>
    var powerUps: seq<PowerUp>
    var particles: seq<Particle>
    var keys: Keys
    var roadOffset: real
    var lastObstacleTime: int
    var lastCoinTime: int
    var lastPowerUpTime: int
    var score: int
    var distance: int
    var baseSpeed: real
    var touchStartX: real
    var shield: Timer
    var magnet: Timer
    var boost: Timer
    /** The scores handed to the game-over callback, in call order. */
    ghost var reports: seq<int>

    /** The object's state as a value. */
    ghost function State(): World
      reads this
    {
      World(isRunning, isPaused, car, obstacles, coins, powerUps, particles, keys, roadOffset,
            lastObstacleTime, lastCoinTime, lastPowerUpTime, score, distance, baseSpeed, touchStartX,
            shield, magnet, boost, reports)
    }

    constructor()
      ensures State() == Initial()
    {
      isRunning := true;
      isPaused := false;
      car := StartCar;
      obstacles := [];
      coins := [];
      powerUps := [];
      particles := [];
      keys := Keys(false, false);
      roadOffset := 0.0;
      lastObstacleTime := 0;
      lastCoinTime := 0;
      lastPowerUpTime := 0;
      score := 0;
      distance := 0;
      baseSpeed := StartSpeed;
      touchStartX := 0.0;
      shield := Timer(false, 0);
      magnet := Timer(false, 0);
      boost := Timer(false, 0);
      reports := [];
    }

    // ------------------------------------------------------------- input

    method HandleKeyDown(key: string)
      modifies this`keys, this`isPaused
      ensures State() == Simulation.KeyDown(old(State()), key)
    {
      if IsLeftKey(key) {
        keys := keys.(left := true);
      }
      if IsRightKey(key) {
        keys := keys.(right := true);
      }
      if IsPauseKey(key) {
        isPaused := !isPaused;
      }
    }

    method HandleKeyUp(key: string)
      modifies this`keys
      ensures State() == Simulation.KeyUp(old(State()), key)
    {
      if IsLeftKey(key) {
        keys := keys.(left := false);
      }
      if IsRightKey(key) {
        keys := keys.(right := false);
      }
    }

    /** Fits the canvas to the window: re-places the car. */
    method ResizeCanvas(canvasWidth: real, canvasHeight: real)
      modifies this`car
      ensures State() == Simulation.PlaceCar(old(State()), canvasWidth, canvasHeight)
    {
      car := car.(x := canvasWidth / 2.0 - car.width / 2.0);
      car := car.(y := canvasHeight - car.height - 50.0);
    }

    method HandleTouchStart(x: real)
      modifies this`touchStartX
      ensures State() == Simulation.TouchStart(old(State()), x)
    {
      touchStartX := x;
    }

    method HandleTouchMove(x: real)
      modifies this`keys, this`touchStartX
      ensures State() == Simulation.TouchMove(old(State()), x)
    {
      var diff := x - touchStartX;
      if diff > 10.0 {
        keys := keys.(right := true);
        keys := keys.(left := false);
      } else if diff < -10.0 {
        keys := keys.(left := true);
        keys := keys.(right := false);
      } else {
        keys := keys.(left := false);
        keys := keys.(right := false);
      }
      touchStartX := x;
    }

    method HandleTouchEnd()
      modifies this`keys
      ensures State() == Simulation.TouchEnd(old(State()))
    {
      keys := keys.(left := false);
      keys := keys.(right := false);
    }

    // --------------------------------------------------------- particles

    /** Pushes `count` particles at (x, y), one at a time. */
    method CreateParticles(x: real, y: real, color: string, count: nat, sparks: nat -> Jitter)
      modifies this`particles
      ensures particles == Emit(old(particles), x, y, color, count, sparks)
    {
      var i := 0;
      while i < count
        invariant 0 <= i <= count
        invariant particles == Emit(old(particles), x, y, color, i, sparks)
      {
        EmitOneMore(old(particles), x, y, color, i, sparks);
        particles := particles + [Spark(x, y, color, sparks(|particles|))];
        i := i + 1;
      }
    }

    // ------------------------------------------------- the phases of a frame

    method UpdateRoadOffset(currentSpeed: real)
      modifies this`roadOffset
      ensures State() == ScrollRoad(old(State()), currentSpeed)
    {
      roadOffset := roadOffset + currentSpeed * 2.0;
      if roadOffset > 70.0 {
        roadOffset := 0.0;
      }
    }

    /** Steers by the held intent, then keeps the car on the road. */
    method UpdateCar(canvasWidth: real)
      modifies this`car
      ensures State() == SteerCar(old(State()), canvasWidth)
    {
      var roadWidth := canvasWidth * 0.7;
      var roadX := (canvasWidth - roadWidth) / 2.0;
      if keys.left {
        car := car.(x := car.x - car.speed, tilt := -0.1);
      } else if keys.right {
        car := car.(x := car.x + car.speed, tilt := 0.1);
      } else {
        car := car.(tilt := car.tilt * 0.9);
      }
      car := car.(x := Clamp(car.x, roadX + 5.0, roadX + roadWidth - car.width - 5.0));
    }

    method ExpirePowerUps(now: int)
      modifies this`shield, this`magnet, this`boost
      ensures State() == ExpireTimers(old(State()), now)
    {
      if shield.active && now > shield.endTime {
        shield := shield.(active := false);
      }
      if magnet.active && now > magnet.endTime {
        magnet := magnet.(active := false);
      }
      if boost.active && now > boost.endTime {
        boost := boost.(active := false);
      }
    }

    method SpawnObstacles(now: int, canvasWidth: real, currentSpeed: real, d: Draws)
      requires d.InRange()
      modifies this`obstacles, this`lastObstacleTime
      ensures State() == SpawnObstacle(old(State()), now, canvasWidth, currentSpeed, d)
    {
      if now - lastObstacleTime > ObstacleInterval {
        var o := NewObstacle(d.obstacleVariant, d.obstacleLane, d.obstacleSpeed, canvasWidth, currentSpeed);
        obstacles := obstacles + [o];
        lastObstacleTime := now;
      }
    }

    method SpawnCoins(now: int, canvasWidth: real, d: Draws)
      requires d.InRange()
      modifies this`coins, this`lastCoinTime
      ensures State() == SpawnCoin(old(State()), now, canvasWidth, d)
    {
      if now - lastCoinTime > CoinInterval {
        coins := coins + [NewCoin(d.coinLane, canvasWidth)];
        lastCoinTime := now;
      }
    }

    method SpawnPowerUps(now: int, canvasWidth: real, d: Draws)
      requires d.InRange()
      modifies this`powerUps, this`lastPowerUpTime
      ensures State() == SpawnPowerUp(old(State()), now, canvasWidth, d)
    {
      if now - lastPowerUpTime > PowerUpInterval {
        powerUps := powerUps + [NewPowerUp(d.powerUpKind, d.powerUpLane, canvasWidth)];
        lastPowerUpTime := now;
      }
    }

    /** One obstacle of the filter: moves it, then resolves a hit against
        the shield or ends the game and reports the score, keeps it while
        it is on the canvas, or rewards it for leaving. */
    method PassObstacle(kept: seq<Obstacle>, obstacle: Obstacle, height: real, sparks: nat -> Jitter)
        returns (kept': seq<Obstacle>)
      modifies this`score, this`distance, this`particles, this`shield, this`isRunning, this`reports
      ensures ObstaclePass(kept', score, distance, particles, shield, isRunning, reports)
              == ObstacleStep(ObstaclePass(kept, old(score), old(distance), old(particles), old(shield), old(isRunning), old(reports)),
                              car, obstacle, height, sparks)
    {
      kept' := kept;
      var o := obstacle.(y := obstacle.y + obstacle.speed);
      if Overlaps(car.Box(), o.Box()) {
        if shield.active {
          CreateParticles(o.x + o.width / 2.0, o.y + o.height / 2.0, ShieldColor, ShieldBurst, sparks);
          shield := shield.(active := false);
        } else {
          isRunning := false;
          CreateParticles(car.x + car.width / 2.0, car.y + car.height / 2.0, CrashColor, CrashBurst, sparks);
          reports := reports + [score];
        }
      } else if o.y < height {
        kept' := kept + [o];
      } else {
        score := score + PassReward;
        distance := distance + 1;
      }
    }

    /** The obstacle filter, over the obstacles as they were when it began. */
    method FilterObstacles(height: real, sparks: nat -> Jitter)
      modifies this`obstacles, this`score, this`distance, this`particles, this`shield, this`isRunning, this`reports
      ensures State() == UpdateObstacles(old(State()), height, sparks)
    {
      var pending := obstacles;
      var kept: seq<Obstacle> := [];
      ghost var start := ObstaclePass([], score, distance, particles, shield, isRunning, reports);
      var i := 0;
      while i < |pending|
        invariant 0 <= i <= |pending|
        invariant ObstaclePass(kept, score, distance, particles, shield, isRunning, reports)
                  == ObstacleFold(start, car, pending[..i], height, sparks)
      {
        kept := PassObstacle(kept, pending[i], height, sparks);
        assert pending[..i + 1][..i] == pending[..i];
        i := i + 1;
      }
      assert pending[..i] == pending;
      obstacles := kept;
    }

    /** One coin of the filter: moves and turns it, lets an active magnet
        pull it, collects it when close enough, and keeps it otherwise while
        it is on the canvas. */
    method PassCoin(kept: seq<Coin>, coin: Coin, currentSpeed: real, height: real, sparks: nat -> Jitter)
        returns (kept': seq<Coin>)
      modifies this`score, this`particles
      ensures CoinPass(kept', score, particles)
              == CoinStep(CoinPass(kept, old(score), old(particles)), car, magnet.active, coin, currentSpeed, height, sparks)
    {
      kept' := kept;
      var c := coin.(y := coin.y + currentSpeed, rotation := coin.rotation + 0.05);
      if magnet.active && !c.collected {
        var dx := car.x + car.width / 2.0 - c.x;
        var dy := car.y + car.height / 2.0 - c.y;
        if Near(dx, dy, 150.0) {
          c := c.(x := c.x + dx * 0.1, y := c.y + dy * 0.1);
        }
      }
      if CoinPickup(car, c) {
        c := c.(collected := true);
        score := score + CoinReward;
        CreateParticles(c.x, c.y, CoinColor, CoinBurst, sparks);
      }
      if c.y < height + 50.0 && !c.collected {
        kept' := kept + [c];
      }
    }

    /** The coin filter, over the coins as they were when it began. */
    method FilterCoins(currentSpeed: real, height: real, sparks: nat -> Jitter)
      modifies this`coins, this`score, this`particles
      ensures State() == UpdateCoins(old(State()), currentSpeed, height, sparks)
    {
      var pending := coins;
      var kept: seq<Coin> := [];
      ghost var start := CoinPass([], score, particles);
      var i := 0;
      while i < |pending|
        invariant 0 <= i <= |pending|
        invariant CoinPass(kept, score, particles) == CoinFold(start, car, magnet.active, pending[..i], currentSpeed, height, sparks)
      {
        kept := PassCoin(kept, pending[i], currentSpeed, height, sparks);
        assert pending[..i + 1][..i] == pending[..i];
        i := i + 1;
      }
      assert pending[..i] == pending;
      coins := kept;
    }

    /** One power-up of the filter: moves it; if the car touches it, it is
        collected and its timer starts afresh; otherwise it is kept while
        it is on the canvas. */
    method PassPowerUp(kept: seq<PowerUp>, powerUp: PowerUp, currentSpeed: real, now: int, height: real, sparks: nat -> Jitter)
        returns (kept': seq<PowerUp>)
      modifies this`particles, this`shield, this`magnet, this`boost
      ensures PowerUpPass(kept', particles, shield, magnet, boost)
              == PowerUpStep(PowerUpPass(kept, old(particles), old(shield), old(magnet), old(boost)),
                             car, powerUp, currentSpeed, now, height, sparks)
    {
      kept' := kept;
      var u := powerUp.(y := powerUp.y + currentSpeed);
      if !u.collected && Overlaps(car.Box(), u.Box()) {
        u := u.(collected := true);
        CreateParticles(u.x + u.width / 2.0, u.y + u.height / 2.0, PowerColor(u.kind), PowerUpBurst, sparks);
        match u.kind {
          case Shield => shield := Timer(true, now + 10000);
          case Magnet => magnet := Timer(true, now + 8000);
          case Boost => boost := Timer(true, now + 5000);
        }
      }
      if u.y < height && !u.collected {
        kept' := kept + [u];
      }
    }

    /** The power-up filter, over the power-ups as they were when it began. */
    method FilterPowerUps(currentSpeed: real, now: int, height: real, sparks: nat -> Jitter)
      modifies this`powerUps, this`particles, this`shield, this`magnet, this`boost
      ensures State() == UpdatePowerUps(old(State()), currentSpeed, now, height, sparks)
    {
      var pending := powerUps;
      var kept: seq<PowerUp> := [];
      ghost var start := PowerUpPass([], particles, shield, magnet, boost);
      var i := 0;
      while i < |pending|
        invariant 0 <= i <= |pending|
        invariant PowerUpPass(kept, particles, shield, magnet, boost)
                  == PowerUpFold(start, car, pending[..i], currentSpeed, now, height, sparks)
      {
        kept := PassPowerUp(kept, pending[i], currentSpeed, now, height, sparks);
        assert pending[..i + 1][..i] == pending[..i];
        i := i + 1;
      }
      assert pending[..i] == pending;
      powerUps := kept;
    }

    /** The particle filter: each particle moves, falls and fades, and is
        kept while it has life left. */
    method FilterParticles()
      modifies this`particles
      ensures State() == UpdateParticles(old(State()))
    {
      var pending := particles;
      var kept: seq<Particle> := [];
      var i := 0;
      while i < |pending|
        invariant 0 <= i <= |pending|
        invariant kept == Survivors(pending[..i])
      {
        var particle := pending[i];
        particle := particle.(x := particle.x + particle.vx, y := particle.y + particle.vy);
        particle := particle.(vy := particle.vy + 0.2);
        particle := particle.(life := particle.life - 0.02);
        if particle.life > 0.0 {
          kept := kept + [particle];
        }
        assert pending[..i + 1][..i] == pending[..i];
        i := i + 1;
      }
      assert pending[..i] == pending;
      particles := kept;
    }

    method IncreaseDifficulty()
      modifies this`baseSpeed
      ensures State() == RaiseDifficulty(old(State()))
    {
      if distance > 0 && distance % DifficultyEvery == 0 {
        baseSpeed := if SpeedCap < baseSpeed + SpeedStep then SpeedCap else baseSpeed + SpeedStep;
      }
    }

    // ------------------------------------------------------------ a frame

    /** One frame of the game loop at clock `now` on a canvas of the given
        size, with the frame's random draws. */
    method Tick(now: int, canvasWidth: real, canvasHeight: real, d: Draws)
      requires d.InRange()
      modifies this
      ensures State() == Step(old(State()), now, canvasWidth, canvasHeight, d)
    {
      if !isRunning {
        return;
      }
      if isPaused {
        return;
      }
      var currentSpeed := CurrentSpeed(boost, baseSpeed);
      UpdateRoadOffset(currentSpeed);
      UpdateCar(canvasWidth);
      ExpirePowerUps(now);
      ghost var moved := State();
      SpawnObstacles(now, canvasWidth, currentSpeed, d);
      SpawnCoins(now, canvasWidth, d);
      SpawnPowerUps(now, canvasWidth, d);
      ghost var spawned := State();
      assert moved == ExpireTimers(SteerCar(ScrollRoad(old(State()), currentSpeed), canvasWidth), now);
      assert spawned == SpawnPowerUp(SpawnCoin(SpawnObstacle(moved, now, canvasWidth, currentSpeed, d), now, canvasWidth, d),
                                     now, canvasWidth, d);
      FilterObstacles(canvasHeight, d.sparks);
      FilterCoins(currentSpeed, canvasHeight, d.sparks);
      FilterPowerUps(currentSpeed, now, canvasHeight, d.sparks);
      ghost var filtered := State();
      assert filtered == UpdatePowerUps(UpdateCoins(UpdateObstacles(spawned, canvasHeight, d.sparks),
                                                    currentSpeed, canvasHeight, d.sparks),
                                        currentSpeed, now, canvasHeight, d.sparks);
      FilterParticles();
      IncreaseDifficulty();
    }
  }
}
