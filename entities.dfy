/** The entities of the driving game and the pure helpers the per-frame
    simulation uses on them: box overlap, coin pickup distance, the magnet
    pull, the clamp that keeps the car on the road, and the road and lane
    geometry that spawned entities are placed by. Coordinates are exact
    reals; wall-clock times are whole milliseconds. */
module Entities {

  /** An axis-aligned box: anything with x, y, width and height. */
  datatype Rect = Rect(x: real, y: real, width: real, height: real)

  /** The player's car. Only x and tilt change during play; speed is the
      lateral step per frame. */
  datatype Car = Car(x: real, y: real, width: real, height: real, speed: real, tilt: real)
  {
    function Box(): Rect { Rect(x, y, width, height) }
    function CentreX(): real { x + width / 2.0 }
    function CentreY(): real { y + height / 2.0 }
  }

  datatype ObstacleKind = Traffic | Cone

  datatype Obstacle = Obstacle(x: real, y: real, width: real, height: real, speed: real, kind: ObstacleKind)
  {
    function Box(): Rect { Rect(x, y, width, height) }
  }

  /** A coin; x and y are its centre. The rotation is cosmetic. */
  datatype Coin = Coin(x: real, y: real, radius: real, collected: bool, rotation: real)

  datatype PowerKind = Shield | Magnet | Boost

  datatype PowerUp = PowerUp(x: real, y: real, width: real, height: real, kind: PowerKind, collected: bool)
  {
    function Box(): Rect { Rect(x, y, width, height) }
  }

  /** A particle of a burst. Velocity, colour and size are cosmetic. */
  datatype Particle = Particle(x: real, y: real, vx: real, vy: real, life: real, color: string, size: real)

  /** An effect timer: whether the effect is on, and the wall-clock
      millisecond after which it switches off. */
  datatype Timer = Timer(active: bool, endTime: int)

  /** The three uniform draws in [0, 1) that give one particle its
      horizontal velocity, vertical velocity and size. */
  datatype Jitter = Jitter(vx: real, vy: real, size: real)

  const ShieldColor := "#00e5ff"
  const CrashColor := "#ff1744"
  const CoinColor := "#ffd700"
  const MagnetColor := "#ff4081"
  const BoostColor := "#76ff03"

  /** The car as it is at the start of a session. */
  const StartCar := Car(0.0, 0.0, 40.0, 70.0, 8.0, 0.0)

  /** The box-overlap test used for obstacles and power-ups: strict on every
      side, so boxes that only touch do not overlap. */
  predicate Overlaps(a: Rect, b: Rect)
  {
    a.x < b.x + b.width &&
    a.x + a.width > b.x &&
    a.y < b.y + b.height &&
    a.y + a.height > b.y
  }

  /** The point (px, py) lies in the open interior of r. */
  predicate Inside(r: Rect, px: real, py: real)
  {
    r.x < px < r.x + r.width && r.y < py < r.y + r.height
  }

  /** The distance sqrt(dx*dx + dy*dy) is below the bound k. The square
      root is avoided: for a non-negative distance d, d < k exactly when
      k is positive and d*d < k*k (see SquaredComparisonIsExact). */
  predicate Near(dx: real, dy: real, k: real)
  {
    k > 0.0 && dx * dx + dy * dy < k * k
  }

  /** The coin pickup test: the coin is not yet collected and its centre is
      closer to the car's centre than its radius plus a margin of 20. */
  predicate CoinPickup(car: Car, c: Coin)
  {
    !c.collected && Near(car.CentreX() - c.x, car.CentreY() - c.y, c.radius + 20.0)
  }

  /** The magnet's pull on one coin: a coin closer than 150 to the car's
      centre moves a tenth of the way towards it. */
  function Pull(car: Car, c: Coin): (r: Coin)
    ensures r.radius == c.radius && r.collected == c.collected && r.rotation == c.rotation
    ensures Near(car.CentreX() - c.x, car.CentreY() - c.y, 150.0) ==>
              car.CentreX() - r.x == 0.9 * (car.CentreX() - c.x) &&
              car.CentreY() - r.y == 0.9 * (car.CentreY() - c.y)
    ensures !Near(car.CentreX() - c.x, car.CentreY() - c.y, 150.0) ==> r == c
  {
    var dx := car.CentreX() - c.x;
    var dy := car.CentreY() - c.y;
    if Near(dx, dy, 150.0) then c.(x := c.x + dx * 0.1, y := c.y + dy * 0.1) else c
  }

  /** max(lo, min(v, hi)), the clamp that keeps the car on the road. */
  function Clamp(v: real, lo: real, hi: real): (r: real)
    ensures lo <= r
    ensures lo <= hi ==> r <= hi
    ensures lo <= v <= hi ==> r == v
    ensures v < lo ==> r == lo
    ensures lo <= hi < v ==> r == hi
    ensures hi < lo ==> r == lo
  {
    var m := if v < hi then v else hi;
    if lo > m then lo else m
  }

  /** The road is the middle 70% of the canvas. */
  function RoadWidth(canvasWidth: real): real { canvasWidth * 0.7 }
  function RoadX(canvasWidth: real): real { (canvasWidth - RoadWidth(canvasWidth)) / 2.0 }

  /** Three lanes share the road less a margin of 10 on either side. */
  const Lanes := 3
  function LaneWidth(canvasWidth: real): real { (RoadWidth(canvasWidth) - 20.0) / 3.0 }
  function LaneLeft(canvasWidth: real, lane: nat): real
  {
    RoadX(canvasWidth) + 10.0 + (lane as real) * LaneWidth(canvasWidth)
  }

  /** Whether [left, left + width] fits in lane `lane`. */
  predicate InLane(canvasWidth: real, lane: nat, left: real, width: real)
  {
    LaneLeft(canvasWidth, lane) <= left &&
    left + width <= LaneLeft(canvasWidth, lane) + LaneWidth(canvasWidth)
  }

  /** Whether [left, left + width] lies between the road's inner margins. */
  predicate OnRoad(canvasWidth: real, left: real, width: real)
  {
    RoadX(canvasWidth) + 10.0 <= left &&
    left + width <= RoadX(canvasWidth) + RoadWidth(canvasWidth) - 10.0
  }

  /** An obstacle spawned in `lane`: a car (40 by 60) when the variant draw
      exceeds 0.3, otherwise a cone (30 by 40), centred in its lane just
      above the canvas, falling at the current speed plus up to 2. */
  function NewObstacle(variantDraw: real, lane: nat, speedDraw: real, canvasWidth: real, currentSpeed: real): (o: Obstacle)
    ensures o.kind == (if variantDraw > 0.3 then Traffic else Cone)
    ensures o.width == (if o.kind == Traffic then 40.0 else 30.0)
    ensures o.height == (if o.kind == Traffic then 60.0 else 40.0)
    ensures o.y == -o.height
    ensures o.x + o.width / 2.0 == LaneLeft(canvasWidth, lane) + LaneWidth(canvasWidth) / 2.0
    ensures LaneWidth(canvasWidth) >= o.width ==> InLane(canvasWidth, lane, o.x, o.width)
    ensures 0.0 <= speedDraw < 1.0 ==> currentSpeed <= o.speed < currentSpeed + 2.0
  {
    var kind := if variantDraw > 0.3 then Traffic else Cone;
    var width := if kind == Traffic then 40.0 else 30.0;
    var height := if kind == Traffic then 60.0 else 40.0;
    var laneWidth := LaneWidth(canvasWidth);
    Obstacle(RoadX(canvasWidth) + 10.0 + (lane as real) * laneWidth + (laneWidth - width) / 2.0,
             -height, width, height, currentSpeed + speedDraw * 2.0, kind)
  }

  /** A coin spawned at the centre of `lane`, just above the canvas. */
  function NewCoin(lane: nat, canvasWidth: real): (c: Coin)
    ensures !c.collected && c.radius == 15.0 && c.y == -20.0
    ensures c.x == LaneLeft(canvasWidth, lane) + LaneWidth(canvasWidth) / 2.0
    ensures LaneWidth(canvasWidth) >= 2.0 * c.radius ==> InLane(canvasWidth, lane, c.x - c.radius, 2.0 * c.radius)
  {
    var laneWidth := LaneWidth(canvasWidth);
    Coin(RoadX(canvasWidth) + 10.0 + (lane as real) * laneWidth + laneWidth / 2.0, -20.0, 15.0, false, 0.0)
  }

  /** The power-up kinds in the order the kind draw indexes them. */
  function KindAt(index: nat): PowerKind
    requires index < 3
  {
    [Shield, Magnet, Boost][index]
  }

  /** A 30 by 30 power-up spawned at the centre of `lane`, just above the canvas. */
  function NewPowerUp(kindIndex: nat, lane: nat, canvasWidth: real): (p: PowerUp)
    requires kindIndex < 3
    ensures !p.collected && p.kind == KindAt(kindIndex)
    ensures p.width == 30.0 && p.height == 30.0 && p.y == -30.0
    ensures p.x + p.width / 2.0 == LaneLeft(canvasWidth, lane) + LaneWidth(canvasWidth) / 2.0
    ensures LaneWidth(canvasWidth) >= p.width ==> InLane(canvasWidth, lane, p.x, p.width)
  {
    var laneWidth := LaneWidth(canvasWidth);
    PowerUp(RoadX(canvasWidth) + 10.0 + (lane as real) * laneWidth + laneWidth / 2.0 - 15.0, -30.0, 30.0, 30.0,
            KindAt(kindIndex), false)
  }

  /** Every lane lies between the road's inner margins, so whatever fits in
      a lane is on the road. */
  lemma LaneOnRoad(canvasWidth: real, lane: nat, left: real, width: real)
    requires lane < Lanes
    ensures InLane(canvasWidth, lane, left, width) && width >= 0.0 ==> OnRoad(canvasWidth, left, width)
  {
    var lw := LaneWidth(canvasWidth);
    if InLane(canvasWidth, lane, left, width) && width >= 0.0 {
      assert lw >= 0.0;
      assert 3.0 * lw == RoadWidth(canvasWidth) - 20.0;
      assert (lane as real) * lw + lw <= 3.0 * lw by {
        if lane == 0 {} else if lane == 1 {} else { assert lane == 2; }
      }
    }
  }

  /** For two boxes of positive size, the strict overlap test holds exactly
      when some point lies inside both. */
  lemma OverlapsIffCommonPoint(a: Rect, b: Rect)
    requires a.width > 0.0 && a.height > 0.0 && b.width > 0.0 && b.height > 0.0
    ensures Overlaps(a, b) <==> exists px, py :: Inside(a, px, py) && Inside(b, px, py)
  {
    if Overlaps(a, b) {
      var lx := if a.x < b.x then b.x else a.x;
      var hx := if a.x + a.width < b.x + b.width then a.x + a.width else b.x + b.width;
      var ly := if a.y < b.y then b.y else a.y;
      var hy := if a.y + a.height < b.y + b.height then a.y + a.height else b.y + b.height;
      assert Inside(a, (lx + hx) / 2.0, (ly + hy) / 2.0) && Inside(b, (lx + hx) / 2.0, (ly + hy) / 2.0);
    }
  }

  /** Comparing squares is exact: for the true distance d >= 0 with
      d*d == dx*dx + dy*dy, d < k holds exactly when Near(dx, dy, k). */
  lemma SquaredComparisonIsExact(dx: real, dy: real, k: real, d: real)
    requires d >= 0.0 && d * d == dx * dx + dy * dy
    ensures d < k <==> Near(dx, dy, k)
  {
    var dd, dk, kk := d * d, d * k, k * k;
    if d < k {
      assert dd <= dk && dk < kk;
    } else if k > 0.0 {
      assert kk <= dk && dk <= dd;
    }
  }

  /** The coin pickup test with the square root put back: for the true
      distance d between the centres, a coin is picked up exactly when it
      is not yet collected and d is below its radius plus 20. */
  lemma CoinPickupIffWithinReach(car: Car, c: Coin, d: real)
    requires d >= 0.0
    requires d * d == (car.CentreX() - c.x) * (car.CentreX() - c.x) + (car.CentreY() - c.y) * (car.CentreY() - c.y)
    ensures CoinPickup(car, c) <==> !c.collected && d < c.radius + 20.0
  {
    SquaredComparisonIsExact(car.CentreX() - c.x, car.CentreY() - c.y, c.radius + 20.0, d);
  }

  /** The magnet pull shrinks the squared distance to the car's centre to
      81% of what it was, so a pulled coin strictly closes in unless it is
      already at the centre. */
  lemma PullClosesIn(car: Car, c: Coin)
    requires Near(car.CentreX() - c.x, car.CentreY() - c.y, 150.0)
    ensures var r := Pull(car, c);
            var (dx, dy) := (car.CentreX() - c.x, car.CentreY() - c.y);
            var (ex, ey) := (car.CentreX() - r.x, car.CentreY() - r.y);
            ex * ex + ey * ey == 0.81 * (dx * dx + dy * dy)
  {
    var dx, dy := car.CentreX() - c.x, car.CentreY() - c.y;
    var r := Pull(car, c);
    assert car.CentreX() - r.x == 0.9 * dx;
    assert car.CentreY() - r.y == 0.9 * dy;
    assert (0.9 * dx) * (0.9 * dx) == 0.81 * (dx * dx);
    assert (0.9 * dy) * (0.9 * dy) == 0.81 * (dy * dy);
  }
}
