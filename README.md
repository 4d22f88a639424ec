# Driving game simulation in Dafny

This project models the per-frame simulation core of a browser arcade
driving game. The player's car moves left and right on a scrolling
three-lane road, dodges obstacles, collects coins and picks up timed power-ups
(shield, magnet, boost). The model also covers the numbers that the
game-over screen derives from the final score.

The model has five modules:

- `Entities` (`entities.dfy`) holds the game's value records: car, obstacle,
  coin, power-up, particle and effect timer. It also holds the collision
  tests, the magnet pull, the clamp that keeps the car on the road, the lane
  geometry, and the construction of newly spawned entities.
- `Simulation` (`simulation.dfy`) models the shared game state record as the
  value `World`. It adds a `reports` list, which records the scores handed to
  the game-over callback. Each phase of a frame is a function
  `World -> World`: speed, road scroll, steering, timer expiry, the three
  spawners, the obstacle, coin, power-up and particle filters, and the
  difficulty ramp. Each filter is a left fold of a one-element step. `Step` is
  one whole frame. The input handlers and the placement of the car on a
  resized canvas are functions too. `Run` replays a sequence of frames,
  input events and resizes.
- `SimulationFacts` (`facts.dfy`) proves what a frame does:
  - each filter's effect, against independent counts and filters of its input;
  - the progress a running frame makes;
  - an invariant that every reachable state keeps;
  - monotonicity of score, distance and speed over any run;
  - two timing properties of boost and difficulty.
- `Game` (`game.dfy`) holds the class `GameState`. Its fields are those of the
  state record, and its methods update them in place as the handlers and the
  game loop do. The filters are loops that build the kept list while updating
  the score, particles, shield, timers and running flag. Each method is proved
  to change the state exactly as the `Simulation` function that specifies it,
  so every lemma of `SimulationFacts` holds of the object.
- `GameOver` (`gameover.dfy`) covers the new-high-score banner, the high-score
  panel, the OBSTACLES and COINS figures and the encouragement message.

The frame's clock reading, the canvas size and the frame's random draws are
parameters of `Tick` and `Step`. The draws are a `Draws` record: the obstacle
variant and speed draws in [0, 1), lane and kind indices below 3, and one
jitter triple per particle created. Coordinates are real numbers. The
square-root distance tests are replaced by squared comparisons, which
`Entities.SquaredComparisonIsExact` shows give the same answer.

Base speed rises by 0.05 on every frame that ends at a positive multiple
of 20 of distance, not once for each multiple reached. Distance grows only
when an obstacle passes, and no obstacle may pass for several frames, so the
rise repeats at the same distance
(`SimulationFacts.SpeedRisesOnEveryFrameAtMultiple`).

The magnet does not always reel a coin in. Each frame a coin first falls by
the frame's speed v and is then pulled a tenth of the way towards the car's
centre, so a coin 9v straight below the centre stays where it is. Once v
is at least 35/9 that spot is beyond the pickup reach of 35 for a coin of
radius 15, and such a coin hovers there uncollected
(`SimulationFacts.MagnetCanHoldCoinOutOfReach`). The start speed of 3 is
too slow for this (27 below is within reach); a base speed of 4, reached
after 20 speed rises (36 below), or the boosted start speed of 4.5 (40.5
below) is fast enough.

Two properties of the game-over figures follow from the scoring rule. Every
reachable score, and every score reported to the callback, is a multiple of
10, so the COINS figure always shows 0 (`SimulationFacts.ReachableScoresShowNoCoins`).
OBSTACLES counts each coin as five obstacles (`GameOver.ObstaclesCountCoinsFiveTimes`).

## Model

| member | source | states |
|---|---|---|
| Entities.OverlapsIffCommonPoint | components/GameCanvas.tsx:422-429 | `Entities.Overlaps`, the strict-inequality box test, holds for rectangles with positive sides exactly when they share an interior point. |
| Entities.SquaredComparisonIsExact | components/GameCanvas.tsx:431-439 | Comparing the squared centre distance with the squared threshold gives the same answer as comparing the square-root distance with the threshold. |
| Entities.CoinPickupIffWithinReach | components/GameCanvas.tsx:431-439 | `Entities.CoinPickup` holds exactly when the coin is not collected and the true centre distance is below its radius plus 20. |
| Entities.Pull | components/GameCanvas.tsx:588-596 | A coin closer than 150 to the car's centre ends a tenth of the way closer on each axis; a farther coin is unchanged; radius, collected flag and rotation are kept. |
| Entities.PullClosesIn | components/GameCanvas.tsx:588-596 | One pull, on a coin within 150 of the car's centre, multiplies its squared distance to the centre by 0.81. |
| SimulationFacts.MagnetCanHoldCoinOutOfReach | components/GameCanvas.tsx:584-598 | Under `Simulation.MoveCoin` with the magnet on, a coin 9v straight below the car's centre ends the frame where it began, and is not picked up when 9v reaches its radius plus 20. For a radius-15 coin that needs v >= 35/9: a base speed of 4 (36 below) or the boosted start speed of 4.5 (40.5 below), not the start speed of 3. |
| Entities.Clamp | components/GameCanvas.tsx:481 | The result is never below the lower bound and never above the upper one when the bounds are ordered; an in-range value is unchanged, a low one becomes the lower bound and a high one the upper bound. When the bounds are crossed (a road narrower than the car plus margins) the result is the lower bound. |
| Entities.NewObstacle | components/GameCanvas.tsx:499-513 | A variant draw above 0.3 gives a 40 by 60 car, otherwise a 30 by 40 cone; it starts just above the canvas, centred in its lane and inside it when it fits; its speed lies in [current speed, current speed + 2). |
| Entities.NewCoin | components/GameCanvas.tsx:519-529 | A fresh coin of radius 15 at height -20, centred in its lane and inside it when it fits. |
| Entities.NewPowerUp | components/GameCanvas.tsx:535-548 | A fresh 30 by 30 power-up of the drawn kind at height -30, centred in its lane and inside it when it fits. |
| Entities.LaneOnRoad | components/GameCanvas.tsx:502-507 | Whatever lies inside one of the three lanes lies on the road, at least 10 from either edge. |
| Simulation.Emit | components/GameCanvas.tsx:408-420 | A burst of `count` particles lengthens the particle list by exactly `count`. |
| Simulation.EmitOneMore | components/GameCanvas.tsx:409-419 | A burst of one more particle is the shorter burst with the next particle pushed at the end, the step the particle loop takes. |
| Simulation.CurrentSpeed | components/GameCanvas.tsx:457-459 | For a non-negative base speed, the effective speed is between the base and 1.5 times the base; for a positive base it exceeds the base exactly when boost is active. |
| Simulation.Scroll | components/GameCanvas.tsx:460-463 | While the old offset plus twice the speed is at most 70, the new offset is that sum; past 70 it resets to 0. The offset never exceeds 70 and stays non-negative when the old offset and the speed are. |
| Simulation.Steer | components/GameCanvas.tsx:465-481 | Only the car's x and tilt change. The tilt follows the held direction or decays by 0.9. The new x is the steered x clamped between 5 inside the left road edge and 5 inside the right one less the car's width: it equals the steered x when that is in range, and a step past an edge stops exactly at that edge. |
| Simulation.Expire | components/GameCanvas.tsx:484-495 | A timer stays active exactly when it was active and the clock has not passed its end time; the end time is kept. |
| Simulation.SpawnObstacle | components/GameCanvas.tsx:498-515 | Only the obstacle list and its timestamp change. An obstacle is appended exactly when more than 1500 ms have passed, and then the timestamp becomes now. The appended obstacle is `Entities.NewObstacle` of the frame's variant, lane and speed draws, so its kind, size, lane and speed are those of the draws. It starts just above the canvas with a speed in [current speed, current speed + 2), and lies on the road whenever its lane is wide enough for it. |
| Simulation.SpawnCoin | components/GameCanvas.tsx:518-531 | Only the coin list and its timestamp change. After more than 2000 ms a coin is appended, and the timestamp becomes now. The coin is `Entities.NewCoin` of the frame's lane draw: uncollected, radius 15, at height -20, centred in the drawn lane, and on the road whenever its lane is wide enough. |
| Simulation.SpawnPowerUp | components/GameCanvas.tsx:534-550 | Only the power-up list and its timestamp change. After more than 15000 ms a power-up is appended, and the timestamp becomes now. It is `Entities.NewPowerUp` of the frame's kind and lane draws: uncollected, 30 by 30, of the drawn kind, in the drawn lane, and on the road whenever its lane is wide enough. |
| Simulation.NextBaseSpeed | components/GameCanvas.tsx:665-667 | Base speed changes only at a positive multiple of 20, and there rises by 0.05 or up to the cap of 8; a speed at most 8 never falls and never passes 8. |
| Simulation.Step | components/GameCanvas.tsx:441-446 | A frame leaves a stopped or paused game unchanged. |
| Simulation.KeyDown | components/GameCanvas.tsx:105-113 | Only the keys and the pause flag change. Left and right intents are set by their keys. The pause key toggles pause. |
| Simulation.KeyUp | components/GameCanvas.tsx:115-118 | Only the keys change; releasing a direction key clears that intent. |
| Simulation.TouchMove | components/GameCanvas.tsx:125-142 | The intents never both hold. Right holds exactly when the finger moved more than 10 to the right. Left holds exactly when it moved more than 10 to the left. The touch start becomes the new position. |
| Simulation.TouchEnd | components/GameCanvas.tsx:144-147 | Lifting the finger clears both intents and nothing else. |
| Simulation.PlaceCar | components/GameCanvas.tsx:94-101 | Fitting the canvas centres the car across it with its bottom edge 50 above the canvas's bottom; only the car's x and y change. |
| SimulationFacts.EmitAppends | components/GameCanvas.tsx:408-420 | A burst keeps the earlier particles; every new particle sits at the burst point with full life and the burst's colour. |
| SimulationFacts.SurvivorsAreDecayed | components/GameCanvas.tsx:643-654 | `Simulation.Survivors` keeps exactly the particles still alive after one frame of motion and decay (`Simulation.Decay`), and keeps no more particles than it was given. |
| SimulationFacts.SurvivorsOne | components/GameCanvas.tsx:643-654 | A single particle is kept, decayed, exactly when it has life left after one frame's decay. |
| SimulationFacts.SurvivorsAppend | components/GameCanvas.tsx:643-654 | The particle filter of a concatenation is the filter of each part in turn, so it keeps order and repetitions and treats each particle on its own. |
| SimulationFacts.ObstacleStepScore | components/GameCanvas.tsx:553-581 | `Simulation.ObstacleStep`, one obstacle of the filter, adds 10 points and 1 to distance exactly when the obstacle misses the car and leaves the canvas. It reports the current score exactly when it hits an unshielded car. |
| SimulationFacts.ObstacleStepParticles | components/GameCanvas.tsx:557-569 | One obstacle adds no particles on a miss, 15 when the shield absorbs it, and 30 when it crashes the car. |
| SimulationFacts.ObstacleFoldScore | components/GameCanvas.tsx:553-581 | Over `Simulation.ObstacleFold`, the whole obstacle filter, the score grows by 10 times the number of passed obstacles and distance by that number. The kept list is exactly the moved obstacles that miss the car and stay on the canvas. |
| SimulationFacts.ObstacleFoldHits | components/GameCanvas.tsx:556-569 | An active shield survives only if nothing hits, and absorbs only the first hit. The game stops exactly when a hit is not absorbed. Every such hit appends one report and earlier reports are kept. The filter goes on after the game has stopped. |
| SimulationFacts.ObstacleFoldReportedScores | components/GameCanvas.tsx:563-567 | Every score reported during the filter lies between the score before it and the score after it, and differs from the starting score by a multiple of 10. |
| SimulationFacts.ObstacleFoldParticles | components/GameCanvas.tsx:556-569 | The filter adds 15 particles for the absorbed hit and 30 for each other hit. |
| SimulationFacts.CoinFoldEffect | components/GameCanvas.tsx:583-612 | `Simulation.CoinFold`, the coin filter built from `Simulation.CoinStep`, adds 50 points and 12 particles for each coin picked up. Its kept list is exactly the moved coins not picked up, not collected and still within 50 below the canvas. |
| SimulationFacts.PowerUpStepKept | components/GameCanvas.tsx:614-640 | `Simulation.PowerUpStep` keeps one power-up, moved, exactly when it is not grabbed, not collected and still on the canvas. |
| SimulationFacts.PowerUpStepParticles | components/GameCanvas.tsx:618-621 | One power-up adds 15 particles exactly when it is grabbed. |
| SimulationFacts.PowerUpFoldKept | components/GameCanvas.tsx:614-640 | `Simulation.PowerUpFold`, the power-up filter, keeps exactly the moved power-ups that are not grabbed, not collected and still on the canvas, and adds 15 particles per grab. |
| SimulationFacts.PowerUpFoldTimers | components/GameCanvas.tsx:623-633 | Through `Simulation.Activate`, each effect timer restarts, with 10 s, 8 s or 5 s from now, exactly when a power-up of its kind is grabbed; otherwise it is untouched. |
| SimulationFacts.PrepareAndSpawnKeepTotals | components/GameCanvas.tsx:456-550 | The phases before the filters leave score, distance, reports and base speed alone, scroll the road, and change only the car's x and tilt. |
| SimulationFacts.ObstaclePhase | components/GameCanvas.tsx:553-581 | `Simulation.UpdateObstacles` adds 10 points and 1 distance per passed obstacle. It only appends reports, each at least the starting score and a multiple of 10 above it. It does not touch car, road or speed. |
| SimulationFacts.CoinPhase | components/GameCanvas.tsx:583-612 | `Simulation.UpdateCoins` adds 50 points per coin collected and changes neither distance, reports, car, road nor speed. |
| SimulationFacts.PowerUpPhase | components/GameCanvas.tsx:614-640 | `Simulation.UpdatePowerUps` keeps the moved power-ups neither grabbed nor fallen past the canvas, adds 15 particles per grab, restarts the timer of each kind grabbed from now, and changes neither score, distance, reports, car, road nor speed. |
| SimulationFacts.ParticlePhase | components/GameCanvas.tsx:643-654 | `Simulation.UpdateParticles` keeps only particles with life left, adds none, and changes nothing else. |
| SimulationFacts.FilterPhase | components/GameCanvas.tsx:553-640 | The three filters together never lower distance. The points they add beyond 10 per unit of distance are a multiple of 50. They only append reports, and do not touch car, road or speed. |
| SimulationFacts.StepProgress | components/GameCanvas.tsx:441-670 | A running frame grows the state by play (`SimulationFacts.Advanced`): distance never falls, the points beyond 10 per unit of distance are a multiple of 50, and reports are only appended. It scrolls the road at the frame's effective speed and sets base speed from the new distance. The car ends the frame steered and clamped exactly as `Simulation.Steer` from the keys held, as nothing later in the frame moves it. |
| SimulationFacts.ApplyKeepsSane | components/GameCanvas.tsx:441-670 | Any frame, input event or resize preserves the invariant. The invariant: score and every report are non-negative multiples of 10, and distance is non-negative. Base speed stays between 3 and 8, and the car keeps its size and steering step. |
| SimulationFacts.RunKeepsSane | components/GameCanvas.tsx:94-670 | Every state reached by frames, input events and resizes from a state satisfying that invariant satisfies it too. |
| SimulationFacts.StartIsSane | components/GameCanvas.tsx:64-101 | `Simulation.Initial`, the initial record, satisfies the invariant, before and after the car is placed on a canvas of any size. |
| SimulationFacts.ReachableScoresShowNoCoins | components/GameOverScreen.tsx:83 | In every session, started from the initial record with the car placed on a canvas of any size and driven by any frames, input events and resizes, the COINS figure shows 0 for the live score and for every score reported to the callback. |
| SimulationFacts.RunMonotone | components/GameCanvas.tsx:441-670 | Over any sequence of frames and events, score, distance and base speed never decrease. Base speed stays at most 8, and earlier reports are never changed. |
| SimulationFacts.DragMeasuredFromTouchStart | components/GameCanvas.tsx:121-142 | `Simulation.TouchStart` records where a touch began and the next drag is measured from there: it steers right exactly when it ends more than 10 right of that point, left exactly when more than 10 left of it. |
| SimulationFacts.BoostAppliesOnItsLastFrame | components/GameCanvas.tsx:457-495 | The frame's speed is fixed before the timers expire, so a frame that expires the boost still scrolls at 1.5 times the base speed. After that frame the boost is off, unless a boost power-up grabbed in it restarted the boost to end 5000 ms from now. |
| SimulationFacts.SpeedRisesOnEveryFrameAtMultiple | components/GameCanvas.tsx:665-667 | If the distance stays at a positive multiple of 20 for two frames, base speed rises on both, by 0.1 in total. |
| GameOver.ObstaclesStat | components/GameOverScreen.tsx:79 | OBSTACLES is the score divided by 10, rounded down. |
| GameOver.CoinsStat | components/GameOverScreen.tsx:83 | COINS is 0 for a multiple of 10, otherwise the score divided by 50, rounded down. |
| GameOver.ObstaclesCountCoinsFiveTimes | components/GameOverScreen.tsx:79 | After p passed obstacles and c coins, OBSTACLES shows p + 5c. |
| GameOver.CoinsStatIgnoresCoins | components/GameOverScreen.tsx:83 | After p passed obstacles and c coins, COINS shows 0 whatever c is. |
| GameOver.Encouragement | components/GameOverScreen.tsx:108-112 | Exactly one of the five messages shows, the one for the score's band (below 100, 500, 1000, 2000, or above). |
| GameOver.TierMonotone | components/GameOverScreen.tsx:108-112 | A higher score never gets a lower band. |
| GameOver.BannerOrPanel | components/GameOverScreen.tsx:17-67 | The new-high-score banner (`GameOver.IsNewHighScore`) and the high-score panel (`GameOver.ShowsHighScorePanel`) never show together, and one of them shows whenever a high score is stored. |
| Game.GameState.constructor | components/GameCanvas.tsx:64-84 | The object starts as the initial state record. |
| Game.GameState.HandleKeyDown | components/GameCanvas.tsx:105-113 | Changes the object exactly as `Simulation.KeyDown`. |
| Game.GameState.HandleKeyUp | components/GameCanvas.tsx:115-118 | Changes the object exactly as `Simulation.KeyUp`. |
| Game.GameState.ResizeCanvas | components/GameCanvas.tsx:94-99 | Re-places the car exactly as `Simulation.PlaceCar`. |
| Game.GameState.HandleTouchStart | components/GameCanvas.tsx:121-123 | Records the touch position and changes nothing else. |
| Game.GameState.HandleTouchMove | components/GameCanvas.tsx:125-142 | Changes the object exactly as `Simulation.TouchMove`. |
| Game.GameState.HandleTouchEnd | components/GameCanvas.tsx:144-147 | Changes the object exactly as `Simulation.TouchEnd`. |
| Game.GameState.CreateParticles | components/GameCanvas.tsx:408-420 | The push loop leaves the particle list equal to `Simulation.Emit` of the old list. |
| Game.GameState.UpdateRoadOffset | components/GameCanvas.tsx:460-463 | Scrolls the road as `Simulation.Scroll`. |
| Game.GameState.UpdateCar | components/GameCanvas.tsx:465-481 | Steers and clamps the car as `Simulation.Steer`. |
| Game.GameState.ExpirePowerUps | components/GameCanvas.tsx:484-495 | Switches off each timer as `Simulation.Expire`. |
| Game.GameState.SpawnObstacles | components/GameCanvas.tsx:498-515 | Changes the object exactly as `Simulation.SpawnObstacle`. |
| Game.GameState.SpawnCoins | components/GameCanvas.tsx:518-531 | Changes the object exactly as `Simulation.SpawnCoin`. |
| Game.GameState.SpawnPowerUps | components/GameCanvas.tsx:534-550 | Changes the object exactly as `Simulation.SpawnPowerUp`. |
| Game.GameState.PassObstacle | components/GameCanvas.tsx:554-580 | Handling one obstacle updates the kept list, score, distance, particles, shield, running flag and reports exactly as one step of the obstacle filter. |
| Game.GameState.FilterObstacles | components/GameCanvas.tsx:553-581 | The loop over the obstacles leaves the object exactly as `Simulation.UpdateObstacles`. |
| Game.GameState.PassCoin | components/GameCanvas.tsx:584-611 | Handling one coin updates the kept list, score and particles exactly as one step of the coin filter. |
| Game.GameState.FilterCoins | components/GameCanvas.tsx:583-612 | The loop over the coins leaves the object exactly as `Simulation.UpdateCoins`. |
| Game.GameState.PassPowerUp | components/GameCanvas.tsx:615-639 | Handling one power-up updates the kept list, particles and the three timers exactly as one step of the power-up filter. |
| Game.GameState.FilterPowerUps | components/GameCanvas.tsx:614-640 | The loop over the power-ups leaves the object exactly as `Simulation.UpdatePowerUps`. |
| Game.GameState.FilterParticles | components/GameCanvas.tsx:643-654 | The loop keeps exactly the decayed particles with life left (`Simulation.Survivors`). |
| Game.GameState.IncreaseDifficulty | components/GameCanvas.tsx:665-667 | Sets base speed as `Simulation.NextBaseSpeed`. |
| Game.GameState.Tick | components/GameCanvas.tsx:441-670 | One run of the game loop changes the object exactly as `Simulation.Step`, so the frame lemmas above hold of it. |

## Left out

- Drawing is not modelled: the road, car, obstacles, coins, power-ups, particles and clearing the canvas.
- The React state mirrors (score, distance, speed, pause and the three effect flags) are not modelled. Neither are the HUD, the overlays or the page layout.
- The window is not modelled. A resize is the `Resize` event, carrying the canvas size already derived from the window (its width capped at 600). Each frame takes the canvas size as a parameter, and the model does not tie that size to the last resize.
- Registering and removing the listeners, `preventDefault`, and scheduling with `requestAnimationFrame` are not modelled. A touch handler receives the touch's x coordinate as a number.
- `Date.now` and `Math.random` are parameters. The clock reading is a `Tick` argument. The random numbers are the `Draws` record, with lane and kind draws already floored to indices below 3.
- Floating-point rounding is not modelled: coordinates and speeds are exact reals.
- The particle velocity and size jitter, and the coin rotation, are carried but no property depends on them.
- `createParticles` defaults its count to 10. No caller uses the default, so every call in the model passes its count.
- The onGameOver callback is modelled only as the ghost list `reports` of the scores it receives. What the callback does with them (storing a high score, switching screens) is not part of this model.
- The game-over screen's count-up animation of the displayed score and its two buttons are not modelled. The start screen and the application pages are not part of this model either.
- Simulation.Step: its own contract covers only a stopped or paused frame; what a running frame does is stated by `SimulationFacts.StepProgress` and the phase lemmas.
