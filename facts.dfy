/** What a frame of the simulation does, proved about the functions of
    module Simulation: the effect of each filter pass stated against
    independent counts and filters of its input, the progress a frame
    makes, and the invariants every reachable state keeps. */
module SimulationFacts {
  import opened Entities
  import opened Simulation
  import GameOver

  /** A burst appends exactly `count` particles, each at (x, y) with full
      life and the burst's colour, and leaves the earlier ones alone. */
  lemma EmitAppends(ps: seq<Particle>, x: real, y: real, color: string, count: nat, sparks: nat -> Jitter)
    ensures var r := Emit(ps, x, y, color, count, sparks);
            && |r| == |ps| + count
            && r[..|ps|] == ps
            && forall i :: |ps| <= i < |r| ==> r[i].x == x && r[i].y == y && r[i].life == 1.0 && r[i].color == color
  {
    var r := Emit(ps, x, y, color, count, sparks);
    assert r[..|ps|] == ps;
    forall i | |ps| <= i < |r|
      ensures r[i].x == x && r[i].y == y && r[i].life == 1.0 && r[i].color == color
    {
      assert r[i] == Spark(x, y, color, sparks(i));
    }
  }

  /** A single particle is kept, decayed, exactly when it has life left
      after decaying. */
  lemma SurvivorsOne(p: Particle)
    ensures Survivors([p]) == if Decay(p).life > 0.0 then [Decay(p)] else []
  {
    assert [p][..0] == [];
  }

  /** The particle filter works particle by particle: on a concatenation it
      is the filter of each part, one after the other. With SurvivorsOne and
      the empty list this fixes the result, its order and its repetitions. */
  lemma {:induction false} SurvivorsAppend(a: seq<Particle>, b: seq<Particle>)
    decreases |b|
    ensures Survivors(a + b) == Survivors(a) + Survivors(b)
  {
    if b == [] {
      assert a + b == a;
    } else {
      var init, last := b[..|b| - 1], b[|b| - 1];
      var tail := if Decay(last).life > 0.0 then [Decay(last)] else [];
      SurvivorsAppend(a, init);
      assert (a + b)[..|a + b| - 1] == a + init;
      assert (a + b)[|a + b| - 1] == last;
      assert Survivors(a + b) == Survivors(a + init) + tail;
      assert Survivors(b) == Survivors(init) + tail;
    }
  }

  /** The particle filter keeps exactly the decayed particles that still
      have life, so every kept particle has positive life, one frame's
      decay less than a particle it came from. */
  lemma {:induction false} SurvivorsAreDecayed(s: seq<Particle>)
    decreases |s|
    ensures |Survivors(s)| <= |s|
    ensures forall p :: p in Survivors(s) ==> p.life > 0.0 && exists q :: q in s && p == Decay(q)
    ensures forall q :: q in s && Decay(q).life > 0.0 ==> Decay(q) in Survivors(s)
  {
    if s != [] {
      var init := s[..|s| - 1];
      SurvivorsAreDecayed(init);
      assert s == init + [s[|s| - 1]];
      forall p | p in Survivors(s)
        ensures p.life > 0.0 && exists q :: q in s && p == Decay(q)
      {
        if p in Survivors(init) {
          var q :| q in init && p == Decay(q);
          assert q in s;
        } else {
          assert p == Decay(s[|s| - 1]);
        }
      }
    }
  }

  /** One obstacle of the pass: a miss past the bottom scores 10 and one
      unit of distance, and a hit without a shield reports the score. */
  lemma ObstacleStepScore(m: ObstaclePass, car: Car, o: Obstacle, height: real, sparks: nat -> Jitter)
    ensures var r := ObstacleStep(m, car, o, height, sparks);
            && r.score == (if Passes(car, height, o) then m.score + PassReward else m.score)
            && r.distance == (if Passes(car, height, o) then m.distance + 1 else m.distance)
            && r.reports == (if Hits(car, o) && !m.shield.active then m.reports + [m.score] else m.reports)
  {
    var mo := Moved(o);
    if Hits(car, o) {
      assert ObstacleStep(m, car, o, height, sparks).score == m.score;
    } else if mo.y < height {
      assert ObstacleStep(m, car, o, height, sparks) == m.(kept := m.kept + [mo]);
    } else {
      assert ObstacleStep(m, car, o, height, sparks) == m.(score := m.score + PassReward, distance := m.distance + 1);
    }
  }

  /** One obstacle of the pass: a hit bursts 15 particles against an
      active shield and 30 otherwise; a miss bursts none. */
  lemma ObstacleStepParticles(m: ObstaclePass, car: Car, o: Obstacle, height: real, sparks: nat -> Jitter)
    ensures |ObstacleStep(m, car, o, height, sparks).particles|
            == |m.particles| + (if !Hits(car, o) then 0 else if m.shield.active then ShieldBurst else CrashBurst)
  {
    var mo := Moved(o);
    if Hits(car, o) {
      if m.shield.active {
        var burst := Emit(m.particles, mo.x + mo.width / 2.0, mo.y + mo.height / 2.0, ShieldColor, ShieldBurst, sparks);
        assert ObstacleStep(m, car, o, height, sparks).particles == burst;
      } else {
        var burst := Emit(m.particles, car.CentreX(), car.CentreY(), CrashColor, CrashBurst, sparks);
        assert ObstacleStep(m, car, o, height, sparks).particles == burst;
      }
    } else {
      assert ObstacleStep(m, car, o, height, sparks).particles == m.particles;
    }
  }

  /** The obstacle pass, against its input `s`: every obstacle that misses
      the car and leaves the canvas adds 10 to the score and 1 to the
      distance, and those that miss and stay are kept, moved, in order. */
  lemma {:induction false} ObstacleFoldScore(p: ObstaclePass, car: Car, s: seq<Obstacle>, height: real, sparks: nat -> Jitter)
    decreases |s|
    ensures var r := ObstacleFold(p, car, s, height, sparks);
            && r.score == p.score + PassReward * CountPassed(car, height, s)
            && r.distance == p.distance + CountPassed(car, height, s)
            && r.kept == p.kept + KeptObstacles(car, height, s)
  {
    if s != [] {
      ObstacleFoldScore(p, car, s[..|s| - 1], height, sparks);
    }
  }

  /** The hits of the obstacle pass: the first hit is absorbed by an active
      shield, which it switches off (its end time stays); every other hit
      ends the game and reports once, and the pass carries on after the
      first report, so each fatal hit reports. */
  lemma {:induction false} ObstacleFoldHits(p: ObstaclePass, car: Car, s: seq<Obstacle>, height: real, sparks: nat -> Jitter)
    decreases |s|
    ensures var r := ObstacleFold(p, car, s, height, sparks);
            var hits := CountHits(car, s);
            var fatal := if p.shield.active && hits > 0 then hits - 1 else hits;
            && r.shield == p.shield.(active := p.shield.active && hits == 0)
            && r.isRunning == (p.isRunning && fatal == 0)
            && |r.reports| == |p.reports| + fatal
            && r.reports[..|p.reports|] == p.reports
  {
    if s != [] {
      var init := s[..|s| - 1];
      ObstacleFoldHits(p, car, init, height, sparks);
      var m := ObstacleFold(p, car, init, height, sparks);
      var r := ObstacleFold(p, car, s, height, sparks);
      if Hits(car, s[|s| - 1]) && !m.shield.active {
        assert r.reports == m.reports + [m.score];
        assert r.reports[..|p.reports|] == m.reports[..|p.reports|];
      }
    }
  }

  /** Each report of the obstacle pass is the score at the moment of the
      hit: at least the score the pass started from, at most the one it
      ends with, and a whole number of 10-point dodges above the start. */
  lemma {:induction false} ObstacleFoldReportedScores(p: ObstaclePass, car: Car, s: seq<Obstacle>, height: real, sparks: nat -> Jitter)
    decreases |s|
    ensures var r := ObstacleFold(p, car, s, height, sparks);
            && |p.reports| <= |r.reports|
            && forall i :: |p.reports| <= i < |r.reports| ==>
                 p.score <= r.reports[i] <= r.score && (r.reports[i] - p.score) % PassReward == 0
  {
    if s != [] {
      var init := s[..|s| - 1];
      ObstacleFoldReportedScores(p, car, init, height, sparks);
      ObstacleFoldScore(p, car, init, height, sparks);
      var m := ObstacleFold(p, car, init, height, sparks);
      ObstacleStepScore(m, car, s[|s| - 1], height, sparks);
    }
  }

  /** Each hit of the obstacle pass bursts particles: 15 for the one an
      active shield absorbs, 30 for each that ends the game. */
  lemma {:induction false} ObstacleFoldParticles(p: ObstaclePass, car: Car, s: seq<Obstacle>, height: real, sparks: nat -> Jitter)
    decreases |s|
    ensures var r := ObstacleFold(p, car, s, height, sparks);
            var hits := CountHits(car, s);
            var absorbed := if p.shield.active && hits > 0 then 1 else 0;
            |r.particles| == |p.particles| + ShieldBurst * absorbed + CrashBurst * (hits - absorbed)
  {
    if s != [] {
      var init, o := s[..|s| - 1], s[|s| - 1];
      ObstacleFoldParticles(p, car, init, height, sparks);
      ObstacleFoldHits(p, car, init, height, sparks);
      ObstacleStepParticles(ObstacleFold(p, car, init, height, sparks), car, o, height, sparks);
    }
  }

  /** The coin pass, against its input `s`: the score rises by exactly 50
      per coin picked up (after the fall and the magnet's pull), each
      pickup bursts 12 particles, and the coins neither picked up nor
      fallen past the canvas are kept, moved, in order. */
  lemma {:induction false} CoinFoldEffect(p: CoinPass, car: Car, magnetOn: bool, s: seq<Coin>, v: real, height: real, sparks: nat -> Jitter)
    decreases |s|
    ensures var r := CoinFold(p, car, magnetOn, s, v, height, sparks);
            var n := CountCollected(car, magnetOn, v, s);
            && r.score == p.score + CoinReward * n
            && r.kept == p.kept + KeptCoins(car, magnetOn, v, height, s)
            && |r.particles| == |p.particles| + CoinBurst * n
  {
    if s != [] {
      var init, c := s[..|s| - 1], s[|s| - 1];
      CoinFoldEffect(p, car, magnetOn, init, v, height, sparks);
      var m := CoinFold(p, car, magnetOn, init, v, height, sparks);
      var mc := MoveCoin(car, magnetOn, v, c);
      if CoinPickup(car, mc) {
        EmitAppends(m.particles, mc.x, mc.y, CoinColor, CoinBurst, sparks);
      }
    }
  }

  /** The magnet does not always reel a coin in. Each frame the coin first
      falls by v and is then pulled a tenth of the way back, so a coin
      straight below the car's centre by 9v ends the frame where it began.
      When 9v is at least the pickup reach (radius plus 20), that coin is
      never picked up while the speed stays v. For a coin of radius 15 the
      reach is 35, so this needs v >= 35/9: not the start speed of 3 (27
      below the centre is within reach), but a base speed of 4, reached
      after 20 rises (36 below), or a boosted start speed of 4.5 (40.5
      below). */
  lemma MagnetCanHoldCoinOutOfReach(car: Car, v: real, c: Coin)
    requires !c.collected && 0.0 < v < 15.0
    requires c.radius + 20.0 <= 9.0 * v
    requires c.x == car.CentreX() && c.y == car.CentreY() + 9.0 * v
    ensures var m := MoveCoin(car, true, v, c);
            && m.x == c.x && m.y == c.y && !m.collected
            && !CoinPickup(car, m)
  {
    var fallen := c.(y := c.y + v, rotation := c.rotation + 0.05);
    assert car.CentreY() - fallen.y == -10.0 * v;
    assert (-10.0 * v) * (-10.0 * v) < 150.0 * 150.0 by {
      assert 10.0 * v < 150.0;
    }
    assert Near(car.CentreX() - fallen.x, car.CentreY() - fallen.y, 150.0);
    var m := MoveCoin(car, true, v, c);
    assert car.CentreY() - m.y == 0.9 * (-10.0 * v);
    assert car.CentreX() - m.x == 0.0;
    var k := c.radius + 20.0;
    if k > 0.0 {
      var dx, dy := car.CentreX() - m.x, car.CentreY() - m.y;
      assert dy == -9.0 * v && dx * dx == 0.0;
      assert k * k <= (9.0 * v) * k <= (9.0 * v) * (9.0 * v) == dy * dy;
      assert !Near(dx, dy, k);
    }
  }

  lemma AnyGrabbedSnoc(car: Car, v: real, s: seq<PowerUp>, kind: PowerKind)
    requires s != []
    ensures AnyGrabbed(car, v, s, kind) <==>
              AnyGrabbed(car, v, s[..|s| - 1], kind) || (s[|s| - 1].kind == kind && Grabs(car, v, s[|s| - 1]))
  {
    var init := s[..|s| - 1];
    if AnyGrabbed(car, v, init, kind) {
      var i :| 0 <= i < |init| && init[i].kind == kind && Grabs(car, v, init[i]);
      assert s[i] == init[i];
    }
    if AnyGrabbed(car, v, s, kind) {
      var i :| 0 <= i < |s| && s[i].kind == kind && Grabs(car, v, s[i]);
      if i < |init| {
        assert init[i] == s[i];
      }
    }
  }

  /** One power-up of the pass: it is kept, moved, exactly when it is
      neither grabbed nor fallen past the canvas. */
  lemma PowerUpStepKept(m: PowerUpPass, car: Car, u: PowerUp, v: real, now: int, height: real, sparks: nat -> Jitter)
    ensures PowerUpStep(m, car, u, v, now, height, sparks).kept
            == if !Grabs(car, v, u) && Fallen(u, v).y < height && !Fallen(u, v).collected
               then m.kept + [Fallen(u, v)] else m.kept
  {
    var mu := Fallen(u, v);
    if Grabs(car, v, u) {
      var burst := Emit(m.particles, mu.x + mu.width / 2.0, mu.y + mu.height / 2.0, PowerColor(mu.kind), PowerUpBurst, sparks);
      assert Activate(m.(particles := burst), mu.kind, now).kept == m.kept;
    } else if mu.y < height && !mu.collected {
      assert PowerUpStep(m, car, u, v, now, height, sparks) == m.(kept := m.kept + [mu]);
    } else {
      assert PowerUpStep(m, car, u, v, now, height, sparks) == m;
    }
  }

  /** One power-up of the pass: a grab bursts 15 particles. */
  lemma PowerUpStepParticles(m: PowerUpPass, car: Car, u: PowerUp, v: real, now: int, height: real, sparks: nat -> Jitter)
    ensures |PowerUpStep(m, car, u, v, now, height, sparks).particles|
            == |m.particles| + if Grabs(car, v, u) then PowerUpBurst else 0
  {
    var mu := Fallen(u, v);
    if Grabs(car, v, u) {
      var burst := Emit(m.particles, mu.x + mu.width / 2.0, mu.y + mu.height / 2.0, PowerColor(mu.kind), PowerUpBurst, sparks);
      assert Activate(m.(particles := burst), mu.kind, now).particles == burst;
    } else {
      assert PowerUpStep(m, car, u, v, now, height, sparks).particles == m.particles;
    }
  }

  /** The power-up pass, against its input `s`: the power-ups neither
      grabbed nor fallen past the canvas are kept, moved, in order, and
      each grab bursts 15 particles. */
  lemma {:induction false} PowerUpFoldKept(p: PowerUpPass, car: Car, s: seq<PowerUp>, v: real, now: int, height: real, sparks: nat -> Jitter)
    decreases |s|
    ensures var r := PowerUpFold(p, car, s, v, now, height, sparks);
            && r.kept == p.kept + KeptPowerUps(car, v, height, s)
            && |r.particles| == |p.particles| + PowerUpBurst * CountGrabbed(car, v, s)
  {
    if s == [] {
      assert p.kept + [] == p.kept;
    } else {
      var init, u := s[..|s| - 1], s[|s| - 1];
      PowerUpFoldKept(p, car, init, v, now, height, sparks);
      var m := PowerUpFold(p, car, init, v, now, height, sparks);
      PowerUpStepKept(m, car, u, v, now, height, sparks);
      PowerUpStepParticles(m, car, u, v, now, height, sparks);
      if !Grabs(car, v, u) && Fallen(u, v).y < height && !Fallen(u, v).collected {
        assert KeptPowerUps(car, v, height, s) == KeptPowerUps(car, v, height, init) + [Fallen(u, v)];
        assert p.kept + KeptPowerUps(car, v, height, init) + [Fallen(u, v)]
            == p.kept + (KeptPowerUps(car, v, height, init) + [Fallen(u, v)]);
      } else {
        assert KeptPowerUps(car, v, height, s) == KeptPowerUps(car, v, height, init) + [];
        assert KeptPowerUps(car, v, height, init) + [] == KeptPowerUps(car, v, height, init);
      }
    }
  }

  /** The timers after the power-up pass: the timer of every kind grabbed
      in the pass is on with end time now plus its duration (10000, 8000
      or 5000 ms), whatever it was before; the other timers are untouched. */
  lemma {:induction false} PowerUpFoldTimers(p: PowerUpPass, car: Car, s: seq<PowerUp>, v: real, now: int, height: real, sparks: nat -> Jitter)
    decreases |s|
    ensures var r := PowerUpFold(p, car, s, v, now, height, sparks);
            && r.shield == (if AnyGrabbed(car, v, s, Shield) then Timer(true, now + 10000) else p.shield)
            && r.magnet == (if AnyGrabbed(car, v, s, Magnet) then Timer(true, now + 8000) else p.magnet)
            && r.boost == (if AnyGrabbed(car, v, s, Boost) then Timer(true, now + 5000) else p.boost)
  {
    if s != [] {
      PowerUpFoldTimers(p, car, s[..|s| - 1], v, now, height, sparks);
      AnyGrabbedSnoc(car, v, s, Shield);
      AnyGrabbedSnoc(car, v, s, Magnet);
      AnyGrabbedSnoc(car, v, s, Boost);
    }
  }

  /** The start of a frame (scroll, steer, expire timers) and the three
      spawns leave the score, the distance, the reports and the base speed
      alone, scroll the road at the frame's speed, and steer the car. */
  lemma PrepareAndSpawnKeepTotals(w: World, v: real, now: int, canvasWidth: real, d: Draws)
    requires d.InRange()
    ensures var spawned := SpawnPowerUp(SpawnCoin(SpawnObstacle(ExpireTimers(SteerCar(ScrollRoad(w, v), canvasWidth), now),
                                                                now, canvasWidth, v, d), now, canvasWidth, d), now, canvasWidth, d);
            && spawned.score == w.score && spawned.distance == w.distance && spawned.reports == w.reports
            && spawned.baseSpeed == w.baseSpeed && spawned.roadOffset == Scroll(w.roadOffset, v)
            && spawned.car == Steer(w.car, w.keys, RoadX(canvasWidth), RoadWidth(canvasWidth))
  {
    var moved := ExpireTimers(SteerCar(ScrollRoad(w, v), canvasWidth), now);
    assert moved.score == w.score && moved.distance == w.distance && moved.reports == w.reports;
    var a := SpawnObstacle(moved, now, canvasWidth, v, d);
    var b := SpawnCoin(a, now, canvasWidth, d);
    assert b.score == w.score && b.car == moved.car;
  }

  /** The obstacle phase of a frame, on the whole state: the score and the
      distance grow by the dodges, reports are appended, each a score the
      phase passed through, and the car, the road and the base speed stay. */
  lemma ObstaclePhase(w: World, height: real, sparks: nat -> Jitter)
    ensures var r := UpdateObstacles(w, height, sparks);
            var passed := CountPassed(w.car, height, w.obstacles);
            && r.score == w.score + PassReward * passed && r.distance == w.distance + passed
            && |w.reports| <= |r.reports| && r.reports[..|w.reports|] == w.reports
            && (forall i :: |w.reports| <= i < |r.reports| ==>
                  w.score <= r.reports[i] && (r.reports[i] - w.score) % PassReward == 0)
            && r.car == w.car && r.roadOffset == w.roadOffset && r.baseSpeed == w.baseSpeed
  {
    var p := ObstaclePass([], w.score, w.distance, w.particles, w.shield, w.isRunning, w.reports);
    ObstacleFoldScore(p, w.car, w.obstacles, height, sparks);
    ObstacleFoldHits(p, w.car, w.obstacles, height, sparks);
    ObstacleFoldReportedScores(p, w.car, w.obstacles, height, sparks);
  }

  /** The coin phase of a frame, on the whole state: 50 points per coin
      collected, and the distance, the reports, the car, the road and the
      base speed stay. */
  lemma CoinPhase(w: World, v: real, height: real, sparks: nat -> Jitter)
    ensures var r := UpdateCoins(w, v, height, sparks);
            && r.score == w.score + CoinReward * CountCollected(w.car, w.magnet.active, v, w.coins)
            && r.distance == w.distance && r.reports == w.reports
            && r.car == w.car && r.roadOffset == w.roadOffset && r.baseSpeed == w.baseSpeed
  {
    CoinFoldEffect(CoinPass([], w.score, w.particles), w.car, w.magnet.active, w.coins, v, height, sparks);
  }

  /** The power-up phase of a frame, on the whole state: the power-ups
      neither grabbed nor fallen past the canvas are kept, moved, in order;
      each grab bursts 15 particles; the timer of each kind grabbed restarts
      from now; score, distance, reports, car, road and base speed stay. */
  lemma PowerUpPhase(w: World, v: real, now: int, height: real, sparks: nat -> Jitter)
    ensures var r := UpdatePowerUps(w, v, now, height, sparks);
            && r.powerUps == KeptPowerUps(w.car, v, height, w.powerUps)
            && |r.particles| == |w.particles| + PowerUpBurst * CountGrabbed(w.car, v, w.powerUps)
            && r.shield == (if AnyGrabbed(w.car, v, w.powerUps, Shield) then Timer(true, now + 10000) else w.shield)
            && r.magnet == (if AnyGrabbed(w.car, v, w.powerUps, Magnet) then Timer(true, now + 8000) else w.magnet)
            && r.boost == (if AnyGrabbed(w.car, v, w.powerUps, Boost) then Timer(true, now + 5000) else w.boost)
            && r.score == w.score && r.distance == w.distance && r.reports == w.reports
            && r.car == w.car && r.roadOffset == w.roadOffset && r.baseSpeed == w.baseSpeed
  {
    var p := PowerUpPass([], w.particles, w.shield, w.magnet, w.boost);
    PowerUpFoldKept(p, w.car, w.powerUps, v, now, height, sparks);
    PowerUpFoldTimers(p, w.car, w.powerUps, v, now, height, sparks);
    assert p.kept + KeptPowerUps(w.car, v, height, w.powerUps) == KeptPowerUps(w.car, v, height, w.powerUps);
  }

  /** The particle phase of a frame, on the whole state: the particles
      still alive after one frame of motion and decay are kept, none is
      added, and nothing else changes. */
  lemma ParticlePhase(w: World)
    ensures var r := UpdateParticles(w);
            && |r.particles| <= |w.particles|
            && (forall p :: p in r.particles ==> p.life > 0.0)
            && r == w.(particles := r.particles)
  {
    SurvivorsAreDecayed(w.particles);
  }

  /** A drag is measured from where the touch began: a touch at x0 followed
      by a drag to x1 steers right exactly when x1 is more than 10 right of
      x0, and left exactly when it is more than 10 left of it. */
  lemma DragMeasuredFromTouchStart(w: World, x0: real, x1: real)
    ensures var r := TouchMove(TouchStart(w, x0), x1);
            && (r.keys.right <==> x1 - x0 > 10.0)
            && (r.keys.left <==> x1 - x0 < -10.0)
  {
  }

  /** How a state `r` has grown from a state `w` by play: the distance
      has not fallen, the score has risen by 10 per unit of distance plus
      a whole number of 50-point coins, and reports have only been
      appended, each a score at least `w`'s and a whole number of
      10-point steps above it. */
  ghost predicate Advanced(w: World, r: World)
  {
    var coinGain := (r.score - w.score) - PassReward * (r.distance - w.distance);
    && r.distance >= w.distance
    && coinGain >= 0 && coinGain % CoinReward == 0
    && |w.reports| <= |r.reports| && r.reports[..|w.reports|] == w.reports
    && (forall i :: |w.reports| <= i < |r.reports| ==>
          w.score <= r.reports[i] && (r.reports[i] - w.score) % PassReward == 0)
  }

  /** Growth is judged on the score, the distance and the reports alone:
      a state that agrees with `w` on those has grown from it the same. */
  lemma AdvancedFrom(w: World, s: World, f: World, r: World)
    requires s.score == w.score && s.distance == w.distance && s.reports == w.reports
    requires Advanced(s, f)
    requires r.score == f.score && r.distance == f.distance && r.reports == f.reports
    ensures Advanced(w, r)
  {
  }

  /** Dodges then coins: a state that gained 10 per unit of distance and
      appended reports from `w`'s score on, and then only coins, has
      grown from `w` by play. */
  lemma AdvancedByCounts(w: World, a: World, r: World, passed: nat, collected: nat)
    requires a.score == w.score + PassReward * passed && a.distance == w.distance + passed
    requires |w.reports| <= |a.reports| && a.reports[..|w.reports|] == w.reports
    requires forall i :: |w.reports| <= i < |a.reports| ==>
               w.score <= a.reports[i] && (a.reports[i] - w.score) % PassReward == 0
    requires r.score == a.score + CoinReward * collected && r.distance == a.distance && r.reports == a.reports
    ensures Advanced(w, r)
  {
  }

  /** The three filter passes of a frame together: the state grows by the
      dodges, the coins and the reports of the frame, and the car, the
      road and the base speed stay. */
  lemma FilterPhase(w: World, v: real, now: int, height: real, sparks: nat -> Jitter)
    ensures var r := UpdatePowerUps(UpdateCoins(UpdateObstacles(w, height, sparks), v, height, sparks), v, now, height, sparks);
            && Advanced(w, r)
            && r.car == w.car && r.roadOffset == w.roadOffset && r.baseSpeed == w.baseSpeed
  {
    var a := UpdateObstacles(w, height, sparks);
    ObstaclePhase(w, height, sparks);
    var b := UpdateCoins(a, v, height, sparks);
    CoinPhase(a, v, height, sparks);
    var r := UpdatePowerUps(b, v, now, height, sparks);
    assert r.score == b.score && r.distance == b.distance && r.reports == b.reports;
    AdvancedByCounts(w, a, r, CountPassed(w.car, height, w.obstacles), CountCollected(a.car, a.magnet.active, v, a.coins));
  }

  /** What one frame of a running, unpaused game does: the state grows by
      play (the score by 10 per unit of distance plus a multiple of 50,
      reports only appended), the road scrolls at the speed fixed at the
      start of the frame, the base speed follows the difficulty rule on the
      frame's final distance, and the car is steered by the keys held and
      clamped to the road, as nothing later in the frame moves it. */
  lemma StepProgress(w: World, now: int, canvasWidth: real, canvasHeight: real, d: Draws)
    requires d.InRange()
    requires w.isRunning && !w.isPaused
    ensures var r := Step(w, now, canvasWidth, canvasHeight, d);
            && Advanced(w, r)
            && r.roadOffset == Scroll(w.roadOffset, CurrentSpeed(w.boost, w.baseSpeed))
            && r.baseSpeed == NextBaseSpeed(r.distance, w.baseSpeed)
            && r.car == Steer(w.car, w.keys, RoadX(canvasWidth), RoadWidth(canvasWidth))
  {
    var v := CurrentSpeed(w.boost, w.baseSpeed);
    var spawned := SpawnPowerUp(SpawnCoin(SpawnObstacle(ExpireTimers(SteerCar(ScrollRoad(w, v), canvasWidth), now),
                                                        now, canvasWidth, v, d), now, canvasWidth, d), now, canvasWidth, d);
    PrepareAndSpawnKeepTotals(w, v, now, canvasWidth, d);
    var filtered := UpdatePowerUps(UpdateCoins(UpdateObstacles(spawned, canvasHeight, d.sparks), v, canvasHeight, d.sparks),
                                   v, now, canvasHeight, d.sparks);
    FilterPhase(spawned, v, now, canvasHeight, d.sparks);
    var r := Step(w, now, canvasWidth, canvasHeight, d);
    assert r == RaiseDifficulty(UpdateParticles(filtered));
    AdvancedFrom(w, spawned, filtered, r);
  }

  /** The invariant of every reachable state: score and distance are
      non-negative, the score is a multiple of 10, the base speed lies
      between its start value 3 and its cap 8, the car keeps its size and
      lateral speed, and every reported score is a non-negative multiple
      of 10. */
  ghost predicate Sane(w: World)
  {
    && 0 <= w.score && w.score % PassReward == 0
    && 0 <= w.distance
    && StartSpeed <= w.baseSpeed <= SpeedCap
    && w.car.width == StartCar.width && w.car.height == StartCar.height && w.car.speed == StartCar.speed
    && forall i :: 0 <= i < |w.reports| ==> 0 <= w.reports[i] && w.reports[i] % PassReward == 0
  }

  /** Growth by play from a sane state, with the base speed in range and
      the car's size kept, leads to a sane state. */
  lemma SaneAfterPlay(w: World, r: World)
    requires Sane(w) && Advanced(w, r)
    requires StartSpeed <= r.baseSpeed <= SpeedCap
    requires r.car.width == w.car.width && r.car.height == w.car.height && r.car.speed == w.car.speed
    ensures Sane(r)
  {
    var coinGain := (r.score - w.score) - PassReward * (r.distance - w.distance);
    var coins := coinGain / CoinReward;
    assert r.score == w.score + PassReward * ((r.distance - w.distance) + 5 * coins);
    forall i | 0 <= i < |r.reports|
      ensures 0 <= r.reports[i] && r.reports[i] % PassReward == 0
    {
      if i < |w.reports| {
        assert r.reports[i] == r.reports[..|w.reports|][i] == w.reports[i];
      } else {
        var steps := (r.reports[i] - w.score) / PassReward;
        assert r.reports[i] == w.score + PassReward * steps;
      }
    }
  }

  lemma ApplyKeepsSane(w: World, e: Event)
    requires Admissible(e) && Sane(w)
    ensures Sane(Apply(w, e))
  {
    var r := Apply(w, e);
    if e.Frame? && w.isRunning && !w.isPaused {
      StepProgress(w, e.now, e.canvasWidth, e.canvasHeight, e.draws);
      assert r == Step(w, e.now, e.canvasWidth, e.canvasHeight, e.draws);
      SaneAfterPlay(w, r);
    } else {
      assert r.score == w.score && r.distance == w.distance && r.reports == w.reports;
      assert r.baseSpeed == w.baseSpeed && r.car.width == w.car.width && r.car.height == w.car.height;
      assert r.car.speed == w.car.speed;
    }
  }

  /** Every state reached from a sane state by frames, input events and
      resizes keeps the invariant. */
  lemma {:induction false} RunKeepsSane(w: World, es: seq<Event>)
    requires Sane(w)
    requires forall i :: 0 <= i < |es| ==> Admissible(es[i])
    decreases |es|
    ensures Sane(Run(w, es))
  {
    if es != [] {
      RunKeepsSane(w, es[..|es| - 1]);
      ApplyKeepsSane(Run(w, es[..|es| - 1]), es[|es| - 1]);
    }
  }

  /** A session starts from the initial record with the car placed on the
      canvas, whatever the canvas size; that start is sane. */
  lemma StartIsSane(canvasWidth: real, canvasHeight: real)
    ensures Sane(Initial())
    ensures Sane(PlaceCar(Initial(), canvasWidth, canvasHeight))
  {
  }

  /** The game only ever adds 10 or 50 to the score, so the COINS figure of
      the game-over screen is 0 for the live score and for every score the
      game reports, whatever was collected, in every session. */
  lemma ReachableScoresShowNoCoins(canvasWidth: real, canvasHeight: real, es: seq<Event>)
    requires forall i :: 0 <= i < |es| ==> Admissible(es[i])
    ensures var r := Run(PlaceCar(Initial(), canvasWidth, canvasHeight), es);
            && GameOver.CoinsStat(r.score) == 0
            && forall i :: 0 <= i < |r.reports| ==> GameOver.CoinsStat(r.reports[i]) == 0
  {
    StartIsSane(canvasWidth, canvasHeight);
    RunKeepsSane(PlaceCar(Initial(), canvasWidth, canvasHeight), es);
  }

  /** Over any sequence of events the score and the distance never fall and
      the base speed never falls, from any state whose base speed is
      within the cap; reports are only ever appended. */
  lemma {:induction false} RunMonotone(w: World, es: seq<Event>)
    requires forall i :: 0 <= i < |es| ==> Admissible(es[i])
    requires w.baseSpeed <= SpeedCap
    decreases |es|
    ensures var r := Run(w, es);
            && w.score <= r.score && w.distance <= r.distance
            && w.baseSpeed <= r.baseSpeed <= SpeedCap
            && |w.reports| <= |r.reports| && r.reports[..|w.reports|] == w.reports
  {
    if es != [] {
      var init, e := es[..|es| - 1], es[|es| - 1];
      RunMonotone(w, init);
      var m := Run(w, init);
      if e.Frame? && m.isRunning && !m.isPaused {
        StepProgress(m, e.now, e.canvasWidth, e.canvasHeight, e.draws);
        var r := Run(w, es);
        assert r.reports[..|w.reports|] == r.reports[..|m.reports|][..|w.reports|];
      }
    }
  }

  /** The frame's speed is fixed before the timers expire: on the frame in
      which a boost runs out, the road still scrolls at 1.5 times the base
      speed. The boost is off afterwards unless a boost power-up was grabbed
      in the same frame, and then it is a fresh one, ending 5000 ms from now. */
  lemma BoostAppliesOnItsLastFrame(w: World, now: int, canvasWidth: real, canvasHeight: real, d: Draws)
    requires d.InRange()
    requires w.isRunning && !w.isPaused
    requires w.boost.active && now > w.boost.endTime
    ensures var r := Step(w, now, canvasWidth, canvasHeight, d);
            && r.roadOffset == Scroll(w.roadOffset, w.baseSpeed * 1.5)
            && (r.boost.active ==> r.boost.endTime == now + 5000)
  {
    StepProgress(w, now, canvasWidth, canvasHeight, d);
    var v := CurrentSpeed(w.boost, w.baseSpeed);
    var spawned := SpawnPowerUp(SpawnCoin(SpawnObstacle(ExpireTimers(SteerCar(ScrollRoad(w, v), canvasWidth), now),
                                                        now, canvasWidth, v, d), now, canvasWidth, d), now, canvasWidth, d);
    assert !spawned.boost.active;
    var b := UpdateCoins(UpdateObstacles(spawned, canvasHeight, d.sparks), v, canvasHeight, d.sparks);
    assert b.boost == spawned.boost;
    PowerUpPhase(b, v, now, canvasHeight, d.sparks);
    assert Step(w, now, canvasWidth, canvasHeight, d).boost == UpdatePowerUps(b, v, now, canvasHeight, d.sparks).boost;
  }

  /** The base speed rises on every frame that ends at a positive multiple
      of 20, not once per crossing: two frames in a row that both end at
      such a distance raise it twice. */
  lemma SpeedRisesOnEveryFrameAtMultiple(w: World, now1: int, now2: int, canvasWidth: real, canvasHeight: real, d1: Draws, d2: Draws)
    requires d1.InRange() && d2.InRange()
    requires w.isRunning && !w.isPaused
    requires w.baseSpeed + 2.0 * SpeedStep <= SpeedCap
    requires var w1 := Step(w, now1, canvasWidth, canvasHeight, d1);
             && w1.isRunning && !w1.isPaused
             && w1.distance > 0 && w1.distance % DifficultyEvery == 0
             && Step(w1, now2, canvasWidth, canvasHeight, d2).distance == w1.distance
    ensures var w1 := Step(w, now1, canvasWidth, canvasHeight, d1);
            Step(w1, now2, canvasWidth, canvasHeight, d2).baseSpeed == w.baseSpeed + 2.0 * SpeedStep
  {
    var w1 := Step(w, now1, canvasWidth, canvasHeight, d1);
    StepProgress(w, now1, canvasWidth, canvasHeight, d1);
    StepProgress(w1, now2, canvasWidth, canvasHeight, d2);
  }
}
