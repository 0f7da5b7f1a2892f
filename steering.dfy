/** The steering rules of one entity, as functions of its state. The entity class in
    module Entities carries out each rule in place and is proved to agree with these. */
module Steering {
  import opened Geometry

  /** The trigonometry the rules call: Math.sin and Math.cos of an angle given in degrees,
      and Math.toDegrees(Math.atan(dx / dy)) as a function of the pair (dx, dy), so that
      the model never divides by zero. Nothing is assumed about the three functions. */
  datatype Trig = Trig(sinDeg: real -> real, cosDeg: real -> real, atanDeg: (real, real) -> real)

  datatype Option<T> = None | Some(value: T)

  /** What one entity's steering depends on and changes. */
  datatype EntityState = EntityState(
    location: Point,     // currentLocation
    previous: Point,     // oldLocation
    heading: real,       // entityMovementAngle, in degrees
    centre: Point,       // centreOfFlock
    flockAngle: real,    // flockMovementAngle
    predator: bool)      // isAPredator

  /** The values the simulation loop reads from the control panel. */
  datatype Parameters = Parameters(
    speed: real, cohesion: real, alignment: real, separation: real,
    nestAttraction: real, collisions: bool)

  // The world: positions wrap at 699 (x) and 499 (y).
  const WrapEdgeX: real := 699.0
  const WrapFarX: real := 698.0
  const WrapEdgeY: real := 499.0
  const WrapFarY: real := 498.0

  // The circular obstacle, with the radius 80 compared squared.
  const ObstacleCentre := Point(350.0, 250.0)
  const ObstacleRadiusSquared: real := 6400.0
  const ObstacleAvoidanceFactor: real := 0.03
  const BounceAngle: real := 180.0

  const PredatorCohesionFactor: real := 0.01
  const PredatorEvasionFactor: real := 0.5

  /** The side of the square box scanned around each entity. */
  const FlockDiameter: real := 50.0

  /** Half the side of the square a predator is drawn as. */
  const PredatorHalfSide: real := 2.0

  ghost predicate InWorld(p: Point) {
    0.0 <= p.x < WrapEdgeX && 0.0 <= p.y < WrapEdgeY
  }

  // ---------------------------------------------------------------- turn

  /** The heading after turning by d: one correction of 360 when the sum leaves [0, 360]. */
  function TurnHeading(h: real, d: real): (r: real)
    ensures r == h + d || r == h + d - 360.0 || r == h + d + 360.0
    ensures 0.0 <= h <= 360.0 && -360.0 <= d <= 360.0 ==> 0.0 <= r <= 360.0
  {
    var t := d + h;
    if t > 360.0 then t - 360.0
    else if t < 0.0 then t + 360.0
    else t
  }

  lemma TurnUndo(h: real, d: real)
    requires 0.0 <= h < 360.0 && 0.0 <= d < 360.0
    ensures TurnHeading(TurnHeading(h, d), -d) == h
  {
  }

  /** 360 itself is kept, not mapped to 0. */
  lemma TurnKeeps360()
    ensures TurnHeading(360.0, 0.0) == 360.0 && TurnHeading(350.0, 10.0) == 360.0
  {
  }

  function Turned(s: EntityState, d: real): EntityState {
    s.(heading := TurnHeading(s.heading, d))
  }

  // ---------------------------------------------------------------- move

  /** Which of the four branches of the movement code a heading takes; the code has no
      branch for a fifth case, and none is ever needed. */
  function MoveQuadrant(h: real): (q: int)
    ensures 0 <= q < 4
    ensures q == 0 <==> h <= 90.0
    ensures q == 3 <==> h > 270.0
  {
    if h <= 90.0 then 0
    else if h <= 180.0 && h > 90.0 then 1
    else if h <= 270.0 && h > 180.0 then 2
    else if h >= 270.0 then 3
    else 4
  }

  /** Where a step of length speed along heading h leads from p (0 degrees points up). */
  function MoveTarget(p: Point, h: real, speed: real, trig: Trig): (r: Point)
    ensures speed == 0.0 ==> r == p
  {
    match MoveQuadrant(h)
    case 0 => Point(p.x + trig.sinDeg(h) * speed, p.y - trig.cosDeg(h) * speed)
    case 1 => Point(p.x + trig.cosDeg(h - 90.0) * speed, p.y + trig.sinDeg(h - 90.0) * speed)
    case 2 => Point(p.x - trig.sinDeg(h - 180.0) * speed, p.y + trig.cosDeg(h - 180.0) * speed)
    case _ => Point(p.x - trig.cosDeg(h - 270.0) * speed, p.y - trig.sinDeg(h - 270.0) * speed)
  }

  function Moved(s: EntityState, speed: real, trig: Trig): (r: EntityState)
    ensures r.previous == s.location && r.heading == s.heading
    ensures speed == 0.0 ==> r.location == s.location
  {
    s.(previous := s.location, location := MoveTarget(s.location, s.heading, speed, trig))
  }

  // ---------------------------------------------------------------- wrap

  /** One axis of the toroidal wrap: at or below 0 goes to far, at or beyond edge to 0. */
  function WrapAxis(v: real, edge: real, far: real): (r: real)
    requires 0.0 <= far < edge
    ensures 0.0 <= r < edge
    ensures v <= 0.0 ==> r == far
    ensures v >= edge ==> r == 0.0
    ensures 0.0 < v < edge ==> r == v
  {
    var v' := if v <= 0.0 then far else v;
    if v' >= edge then 0.0 else v'
  }

  function Wrapped(s: EntityState): (r: EntityState)
    ensures InWorld(r.location)
    ensures r.heading == s.heading && r.previous == s.previous
  {
    s.(location := Point(WrapAxis(s.location.x, WrapEdgeX, WrapFarX),
                         WrapAxis(s.location.y, WrapEdgeY, WrapFarY)))
  }

  // ---------------------------------------------------------------- steering rules

  /** The angle the rules turn by to face target from p. */
  function Bearing(p: Point, target: Point, trig: Trig): real {
    trig.atanDeg(target.x - p.x, target.y - p.y)
  }

  /** The base cohesion rule, steering toward the flock centre by factor f. */
  function BaseCohesion(s: EntityState, f: real, trig: Trig): EntityState {
    s.(heading := s.heading + f * Bearing(s.location, s.centre, trig))
  }

  /** Cohesion as each variant carries it out: a predator uses its own fixed factor. */
  function Cohered(s: EntityState, f: real, trig: Trig): EntityState {
    if s.predator then BaseCohesion(s, PredatorCohesionFactor, trig)
    else BaseCohesion(s, f, trig)
  }

  function Separated(s: EntityState, f: real, trig: Trig): EntityState {
    if s.predator then s
    else s.(heading := s.heading - f * Bearing(s.location, s.centre, trig))
  }

  function Aligned(s: EntityState, f: real): EntityState {
    if s.predator then s
    else s.(heading := s.heading + f * (s.flockAngle - s.heading))
  }

  function NestAttracted(s: EntityState, nest: Point, f: real, trig: Trig): EntityState {
    if s.predator then s
    else s.(heading := s.heading + f * Bearing(s.location, nest, trig))
  }

  ghost predicate InsideObstacle(p: Point) {
    var dx := ObstacleCentre.x - p.x;
    var dy := ObstacleCentre.y - p.y;
    dx * dx + dy * dy <= ObstacleRadiusSquared
  }

  function ObstacleAvoided(s: EntityState, trig: Trig): (r: EntityState)
    ensures r.location == s.location && r.previous == s.previous
    ensures var steered := s.heading - ObstacleAvoidanceFactor * Bearing(s.location, ObstacleCentre, trig);
            (r.heading == steered - BounceAngle <==> InsideObstacle(s.location)) &&
            (r.heading == steered <==> !InsideObstacle(s.location))
  {
    var steered := s.heading - ObstacleAvoidanceFactor * Bearing(s.location, ObstacleCentre, trig);
    var dx := ObstacleCentre.x - s.location.x;
    var dy := ObstacleCentre.y - s.location.y;
    s.(heading := if dx * dx + dy * dy <= ObstacleRadiusSquared then steered - BounceAngle else steered)
  }

  /** The heading after fleeing, in order, from predators at the given positions. */
  function EvadedHeading(h: real, p: Point, predators: seq<Point>, trig: Trig): real
    decreases |predators|
  {
    if predators == [] then h
    else
      var last := |predators| - 1;
      EvadedHeading(h, p, predators[..last], trig) - PredatorEvasionFactor * Bearing(p, predators[last], trig)
  }

  /** Fleeing from one more predator subtracts its share of the bearing toward it. */
  lemma EvadedHeadingPrefix(h: real, p: Point, predators: seq<Point>, i: nat, trig: Trig)
    requires i < |predators|
    ensures EvadedHeading(h, p, predators[..i + 1], trig) ==
            EvadedHeading(h, p, predators[..i], trig) - PredatorEvasionFactor * Bearing(p, predators[i], trig)
  {
    assert predators[..i + 1][..i] == predators[..i];
  }

  function Evaded(s: EntityState, predators: seq<Point>, trig: Trig): EntityState {
    if s.predator then s
    else s.(heading := EvadedHeading(s.heading, s.location, predators, trig))
  }

  /** The total of the bearings toward the given predators. */
  function SumOfBearings(p: Point, predators: seq<Point>, trig: Trig): real
    decreases |predators|
  {
    if predators == [] then 0.0
    else Bearing(p, predators[0], trig) + SumOfBearings(p, predators[1..], trig)
  }

  lemma {:induction false} SumOfBearingsSnoc(p: Point, predators: seq<Point>, q: Point, trig: Trig)
    ensures SumOfBearings(p, predators + [q], trig) == SumOfBearings(p, predators, trig) + Bearing(p, q, trig)
    decreases |predators|
  {
    if predators != [] {
      assert (predators + [q])[1..] == predators[1..] + [q];
      SumOfBearingsSnoc(p, predators[1..], q, trig);
    }
  }

  /** Fleeing from several predators turns by half of the sum of their bearings. */
  lemma {:induction false} EvasionClosedForm(h: real, p: Point, predators: seq<Point>, trig: Trig)
    ensures EvadedHeading(h, p, predators, trig) == h - PredatorEvasionFactor * SumOfBearings(p, predators, trig)
    decreases |predators|
  {
    if predators != [] {
      var last := |predators| - 1;
      EvasionClosedForm(h, p, predators[..last], trig);
      assert predators == predators[..last] + [predators[last]];
      SumOfBearingsSnoc(p, predators[..last], predators[last], trig);
    }
  }

  /** Fleeing from two groups in turn is fleeing from both at once. */
  lemma {:induction false} EvasionSplits(h: real, p: Point, first: seq<Point>, second: seq<Point>, trig: Trig)
    ensures EvadedHeading(h, p, first + second, trig)
         == EvadedHeading(EvadedHeading(h, p, first, trig), p, second, trig)
    decreases |second|
  {
    if second == [] {
      assert first + second == first;
    } else {
      var last := |second| - 1;
      assert (first + second)[..|first + second| - 1] == first + second[..last];
      EvasionSplits(h, p, first, second[..last], trig);
    }
  }

  // ---------------------------------------------------------------- rule properties

  /** Alignment blends the heading toward the flock angle by the factor. */
  lemma AlignmentBlend(s: EntityState, f: real)
    requires !s.predator
    ensures f == 0.0 ==> Aligned(s, f) == s
    ensures f == 1.0 ==> Aligned(s, f).heading == s.flockAngle
    ensures 0.0 <= f <= 1.0 && s.heading <= s.flockAngle ==>
              s.heading <= Aligned(s, f).heading <= s.flockAngle
    ensures 0.0 <= f <= 1.0 && s.flockAngle <= s.heading ==>
              s.flockAngle <= Aligned(s, f).heading <= s.heading
  {
    var gap := s.flockAngle - s.heading;
    var step := f * gap;
    assert Aligned(s, f).heading == s.heading + step;
    if 0.0 <= f <= 1.0 {
      if gap >= 0.0 {
        MultiplyWithin(f, gap, step);
      } else {
        assert f * -gap == -step;
        MultiplyWithin(f, -gap, -step);
      }
    }
  }

  /** A fraction of a non-negative quantity lies between zero and the quantity. */
  lemma MultiplyWithin(f: real, g: real, product: real)
    requires 0.0 <= f <= 1.0 && 0.0 <= g && product == f * g
    ensures 0.0 <= product <= g
  {
    assert g - product == (1.0 - f) * g;
  }

  /** Separation by the same factor undoes cohesion exactly, and neither normalises. */
  lemma CohesionThenSeparation(s: EntityState, f: real, trig: Trig)
    requires !s.predator
    ensures Separated(Cohered(s, f, trig), f, trig) == s
    ensures Cohered(s, f, trig).heading == s.heading + f * Bearing(s.location, s.centre, trig)
  {
  }

  /** A predator's cohesion ignores the factor it is given. */
  lemma PredatorCohesionIgnoresFactor(s: EntityState, f: real, g: real, trig: Trig)
    requires s.predator
    ensures Cohered(s, f, trig) == Cohered(s, g, trig) == BaseCohesion(s, PredatorCohesionFactor, trig)
  {
  }

  /** Separation, alignment, nest attraction and fleeing leave a predator as it was. */
  lemma PredatorSkipsRules(s: EntityState, f: real, nest: Point, predators: seq<Point>, trig: Trig)
    requires s.predator
    ensures Separated(s, f, trig) == s && Aligned(s, f) == s
    ensures NestAttracted(s, nest, f, trig) == s && Evaded(s, predators, trig) == s
  {
  }

  // ---------------------------------------------------------------- one tick of one entity

  /** Movement and the heading rules up to obstacle avoidance, in the loop's order. */
  function Steered(s: EntityState, p: Parameters, nest: Point, trig: Trig): (r: EntityState)
    ensures r.previous == s.location
    ensures r.predator == s.predator && r.centre == s.centre && r.flockAngle == s.flockAngle
  {
    ObstacleAvoided(
      NestAttracted(
        Aligned(Separated(Cohered(Moved(s, p.speed, trig), p.cohesion, trig), p.separation, trig), p.alignment),
        nest, p.nestAttraction, trig),
      trig)
  }

  /** The rules the loop applies to one entity in one tick, in the loop's order. The
      collision rule is left out because it changes nothing, and fleeing sees no predators
      because the list of predators in sight is never filled. */
  function Step(s: EntityState, p: Parameters, nest: Point, trig: Trig): (r: EntityState)
    ensures InWorld(r.location)
    ensures r.previous == s.location
    ensures r.predator == s.predator && r.centre == s.centre && r.flockAngle == s.flockAngle
  {
    Wrapped(Evaded(Steered(s, p, nest, trig), [], trig))
  }

  // ---------------------------------------------------------------- spawning

  /** A spawn inside the obstacle is moved by (-100, -100); elsewhere it stays. */
  function Relocated(p: Point): (r: Point)
    ensures !InsideObstacle(p) ==> r == p
    ensures InsideObstacle(p) ==> r == Point(p.x - 100.0, p.y - 100.0)
  {
    var dx := ObstacleCentre.x - p.x;
    var dy := ObstacleCentre.y - p.y;
    if dx * dx + dy * dy <= ObstacleRadiusSquared then Point(p.x - 100.0, p.y - 100.0) else p
  }

  /** The relocation does not always lead out of the obstacle. */
  lemma RelocationMayStayInside()
    ensures InsideObstacle(Point(400.0, 300.0))
    ensures Relocated(Point(400.0, 300.0)) == Point(300.0, 200.0)
    ensures InsideObstacle(Point(300.0, 200.0))
  {
  }

  // ---------------------------------------------------------------- drawing

  /** The four edges of the square around p, top-left, top-right, bottom-right, bottom-left. */
  function PredatorBox(p: Point): (r: seq<Segment>)
    ensures |r| == 4
    ensures r[0].end == r[1].start && r[1].end == r[2].start && r[2].end == r[3].start
    ensures r[3].end == r[0].start
    ensures r[0].start == Point(p.x - PredatorHalfSide, p.y + PredatorHalfSide)
    ensures r[1].start == Point(p.x + PredatorHalfSide, p.y + PredatorHalfSide)
    ensures r[2].start == Point(p.x + PredatorHalfSide, p.y - PredatorHalfSide)
    ensures r[3].start == Point(p.x - PredatorHalfSide, p.y - PredatorHalfSide)
    ensures forall i :: 0 <= i < 4 ==>
              (r[i].start.x == p.x - PredatorHalfSide || r[i].start.x == p.x + PredatorHalfSide) &&
              (r[i].start.y == p.y - PredatorHalfSide || r[i].start.y == p.y + PredatorHalfSide)
  {
    var topLeft := Point(p.x - PredatorHalfSide, p.y + PredatorHalfSide);
    var topRight := Point(p.x + PredatorHalfSide, p.y + PredatorHalfSide);
    var bottomLeft := Point(p.x - PredatorHalfSide, p.y - PredatorHalfSide);
    var bottomRight := Point(p.x + PredatorHalfSide, p.y - PredatorHalfSide);
    [Segment(topLeft, topRight), Segment(topRight, bottomRight),
     Segment(bottomRight, bottomLeft), Segment(bottomLeft, topLeft)]
  }

  /** How many lines an entity puts on the canvas. */
  function LinesPerDraw(predator: bool): nat {
    if predator then 4 else 1
  }

  /** What drawing an entity in state s puts on the canvas: a dot, or a predator's square. */
  function Drawn(s: EntityState): (r: seq<Segment>)
    ensures |r| == LinesPerDraw(s.predator)
  {
    if s.predator then PredatorBox(s.location) else [Segment(s.location, s.location)]
  }

  // ---------------------------------------------------------------- flock statistics

  /** The running totals of the flock scan. */
  datatype FlockTotals = FlockTotals(count: real, sumX: real, sumY: real, sumAngles: real)

  /** The box test of the scan, which centres the box on the scanned entity itself. */
  predicate InOwnFlockBox(p: Point) {
    var xLower := p.x - FlockDiameter / 2.0;
    var xUpper := p.x + FlockDiameter / 2.0;
    var yLower := p.y - FlockDiameter / 2.0;
    var yUpper := p.y + FlockDiameter / 2.0;
    p.x >= xLower && p.x <= xUpper && p.y >= yLower && p.y <= yUpper
  }

  const NoTotals := FlockTotals(0.0, 0.0, 0.0, 0.0)

  /** One scanned entity's contribution: it is added when it passes the box test. */
  function Accumulated(t: FlockTotals, s: EntityState): FlockTotals {
    if InOwnFlockBox(s.location) then
      FlockTotals(t.count + 1.0, t.sumX + s.location.x, t.sumY + s.location.y, t.sumAngles + s.heading)
    else t
  }

  /** The totals after scanning the given entities in order, starting from t. */
  function Scanned(t: FlockTotals, states: seq<EntityState>): FlockTotals
    decreases |states|
  {
    if states == [] then t
    else Accumulated(Scanned(t, states[..|states| - 1]), states[|states| - 1])
  }

  /** Scanning one more entity accumulates it onto the totals so far. */
  lemma ScannedPrefix(t: FlockTotals, states: seq<EntityState>, i: nat)
    requires i < |states|
    ensures Scanned(t, states[..i + 1]) == Accumulated(Scanned(t, states[..i]), states[i])
  {
    assert states[..i + 1][..i] == states[..i];
  }

  /** Every scanned entity passes the box test, so each adds exactly one to the count. */
  lemma {:induction false} ScanCountsAll(t: FlockTotals, states: seq<EntityState>)
    ensures Scanned(t, states).count == t.count + |states| as real
    decreases |states|
  {
    if states != [] {
      ScanCountsAll(t, states[..|states| - 1]);
    }
  }

  /** The mean of a total over a count, undefined when the count is 0. */
  function Average(sum: real, count: real): (r: Option<real>)
    ensures r.None? <==> count == 0.0
    ensures r.Some? ==> r.value * count == sum
  {
    if count == 0.0 then None else Some(sum / count)
  }
}
