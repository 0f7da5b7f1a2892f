/** A simulated entity (a boid) and its predator variant. The predator is the same class
    with the flag isAPredator set by its constructor; each method that the predator
    overrides dispatches on that flag. Every method is proved to carry out the rule of
    the same name in module Steering on the entity's abstract state. */
module Entities {
  import opened Geometry
  import opened Drawing
  import opened Tools
  import opened Steering

  // ---------------------------------------------------------------- spawning

  /** Where the default constructor places an entity before the obstacle check: the x
      draw is mapped onto 0..700 and the y draw onto 500..0, limits given in that order. */
  function DefaultSpawnPoint(rx: real, ry: real): Point {
    Point(RandomValue(0.0, 700.0, rx), RandomValue(500.0, 0.0, ry))
  }

  /** The heading the default constructor draws, mapped onto 0..360. */
  function DefaultSpawnHeading(ra: real): real {
    RandomValue(0.0, 360.0, ra)
  }

  /** Where the flock constructor places an entity before the obstacle check. */
  function FlockSpawnPoint(topLeftLimit: Point, bottomRightLimit: Point, rx: real, ry: real): Point {
    Point(RandomValue(topLeftLimit.x, bottomRightLimit.x, rx), RandomValue(topLeftLimit.y, bottomRightLimit.y, ry))
  }

  /** v lies between two limits given in either order, including the first one and
      excluding the second one, as a draw mapped from the first toward the second does. */
  ghost predicate WithinLimits(v: real, first: real, second: real) {
    (first < second ==> first <= v < second) &&
    (first > second ==> second < v <= first) &&
    (first == second ==> v == first)
  }

  /** The default placement lies in [0, 700) x (0, 500] with a heading in [0, 360): the y
      limits are given in reverse, so 0 is excluded and 500 is included. */
  lemma DefaultSpawnRanges(rx: real, ry: real, ra: real)
    requires UnitDraw(rx) && UnitDraw(ry) && UnitDraw(ra)
    ensures 0.0 <= DefaultSpawnPoint(rx, ry).x < 700.0
    ensures 0.0 < DefaultSpawnPoint(rx, ry).y <= 500.0
    ensures 0.0 <= DefaultSpawnHeading(ra) < 360.0
  {
    RandomValueInRange(0.0, 700.0, rx);
    RandomValueInRange(500.0, 0.0, ry);
    RandomValueInRange(0.0, 360.0, ra);
  }

  /** The flock placement lies between the corners of the box, axis by axis. */
  lemma FlockSpawnWithinBox(topLeftLimit: Point, bottomRightLimit: Point, rx: real, ry: real)
    requires UnitDraw(rx) && UnitDraw(ry)
    ensures WithinLimits(FlockSpawnPoint(topLeftLimit, bottomRightLimit, rx, ry).x, topLeftLimit.x, bottomRightLimit.x)
    ensures WithinLimits(FlockSpawnPoint(topLeftLimit, bottomRightLimit, rx, ry).y, topLeftLimit.y, bottomRightLimit.y)
  {
    RandomValueInRange(topLeftLimit.x, bottomRightLimit.x, rx);
    RandomValueInRange(topLeftLimit.y, bottomRightLimit.y, ry);
  }

  // ---------------------------------------------------------------- views of several entities

  /** The current positions of the given entities. */
  ghost function PositionsOf(entities: seq<Entity>): (r: seq<Point>)
    reads entities, set e | e in entities :: e.currentLocation
    ensures |r| == |entities|
    ensures forall j :: 0 <= j < |entities| ==> r[j] == entities[j].currentLocation.Value()
    decreases |entities|
  {
    if entities == [] then []
    else PositionsOf(entities[..|entities| - 1]) + [entities[|entities| - 1].currentLocation.Value()]
  }

  /** The abstract states of the given entities. */
  ghost function StatesOf(entities: seq<Entity>): (r: seq<EntityState>)
    reads entities
    reads set e | e in entities :: e.currentLocation
    reads set e | e in entities :: e.oldLocation
    reads set e | e in entities :: e.centreOfFlock
    ensures |r| == |entities|
    ensures forall j :: 0 <= j < |entities| ==> r[j] == entities[j].State()
    decreases |entities|
  {
    if entities == [] then []
    else StatesOf(entities[..|entities| - 1]) + [entities[|entities| - 1].State()]
  }

  /** The predators among the given entities, in order. */
  function PredatorsAmong(entities: seq<Entity>): (r: seq<Entity>)
    ensures forall e :: e in r ==> e in entities && e.isAPredator
    ensures forall k :: 0 <= k < |entities| && entities[k].isAPredator ==> entities[k] in r
    ensures |r| <= |entities|
    decreases |entities|
  {
    if entities == [] then []
    else
      var front := entities[..|entities| - 1];
      var last := entities[|entities| - 1];
      assert forall k :: 0 <= k < |front| ==> front[k] == entities[k];
      PredatorsAmong(front) + (if last.isAPredator then [last] else [])
  }

  /** Looking at one more entity adds it to the predators found so far if it is one. */
  lemma PredatorsAmongPrefix(entities: seq<Entity>, i: nat)
    requires i < |entities|
    ensures PredatorsAmong(entities[..i + 1]) ==
            PredatorsAmong(entities[..i]) + if entities[i].isAPredator then [entities[i]] else []
  {
    assert entities[..i + 1][..i] == entities[..i];
  }

  // ---------------------------------------------------------------- the entity

  class Entity {
    const canvas: Canvas
    const isAPredator: bool

    var currentLocation: CartesianCoordinate
    var oldLocation: CartesianCoordinate
    var entityMovementAngle: real

    // What the flock scan adds up, and the averages it derives from the totals.
    var entitiesInFlock: real
    var sumOfXDistances: real
    var sumOfYDistances: real
    var sumOfAnglesInFlock: real
    var centreOfFlock: CartesianCoordinate
    var flockMovementAngle: real
    /** False once a scan found no entity, when the averages would be 0/0. */
    var flockStatisticsDefined: bool

    var predatorsInSight: seq<Entity>

    // The corners of the square a predator was last drawn as.
    var topLeftOfPredator: CartesianCoordinate?
    var topRightOfPredator: CartesianCoordinate?
    var bottomLeftOfPredator: CartesianCoordinate?
    var bottomRightOfCoordinate: CartesianCoordinate?

    /** The three coordinate objects of the entity are distinct, so that setting one of
        them leaves the others as they were. */
    ghost predicate Valid()
      reads this`currentLocation, this`oldLocation, this`centreOfFlock
    {
      currentLocation != oldLocation && currentLocation != centreOfFlock && oldLocation != centreOfFlock
    }

    /** No flock statistics have been stored: the flock centre and angle are still the
        ones the entity was created with. */
    ghost predicate StatisticsUnset()
      reads this`centreOfFlock, this`flockMovementAngle, centreOfFlock
    {
      centreOfFlock.Value() == Origin && flockMovementAngle == 0.0
    }

    ghost function Coords(): set<CartesianCoordinate>
      reads this`currentLocation, this`oldLocation, this`centreOfFlock
    {
      {currentLocation, oldLocation, centreOfFlock}
    }

    /** Ready to be simulated on canvas c: well formed, drawing on c, no predator in sight. */
    ghost predicate ReadyOn(c: Canvas)
      reads this`currentLocation, this`oldLocation, this`centreOfFlock, this`predatorsInSight
    {
      Valid() && canvas == c && predatorsInSight == []
    }

    ghost function State(): EntityState
      reads this`currentLocation, this`oldLocation, this`centreOfFlock
      reads this`entityMovementAngle, this`flockMovementAngle
      reads currentLocation, oldLocation, centreOfFlock
    {
      EntityState(currentLocation.Value(), oldLocation.Value(), entityMovementAngle,
                  centreOfFlock.Value(), flockMovementAngle, isAPredator)
    }

    ghost function Totals(): FlockTotals
      reads this`entitiesInFlock, this`sumOfXDistances, this`sumOfYDistances, this`sumOfAnglesInFlock
    {
      FlockTotals(entitiesInFlock, sumOfXDistances, sumOfYDistances, sumOfAnglesInFlock)
    }

    // -------------------------------------------------------------- construction

    /** An entity with every value at its default: all coordinates at (0, 0), heading 0. */
    constructor (canvas: Canvas)
      ensures this.canvas == canvas && !isAPredator
      ensures Valid() && fresh(Coords())
      ensures State() == EntityState(Origin, Origin, 0.0, Origin, 0.0, false)
      ensures Totals() == NoTotals && flockStatisticsDefined && predatorsInSight == []
    {
      this.canvas := canvas;
      isAPredator := false;
      currentLocation := new CartesianCoordinate.Blank();
      oldLocation := new CartesianCoordinate.Blank();
      centreOfFlock := new CartesianCoordinate.Blank();
      entityMovementAngle := 0.0;
      entitiesInFlock, sumOfXDistances, sumOfYDistances, sumOfAnglesInFlock := 0.0, 0.0, 0.0, 0.0;
      flockMovementAngle := 0.0;
      flockStatisticsDefined := true;
      predatorsInSight := [];
      topLeftOfPredator, topRightOfPredator, bottomLeftOfPredator, bottomRightOfCoordinate := null, null, null, null;
    }

    /** A plain entity at a random place with a random heading, given the three draws. */
    constructor Random(canvas: Canvas, rx: real, ry: real, ra: real)
      requires UnitDraw(rx) && UnitDraw(ry) && UnitDraw(ra)
      ensures this.canvas == canvas && !isAPredator
      ensures Valid() && fresh(Coords())
      ensures State() == EntityState(Relocated(DefaultSpawnPoint(rx, ry)), Origin, DefaultSpawnHeading(ra), Origin, 0.0, false)
      ensures flockStatisticsDefined && predatorsInSight == []
    {
      this.canvas := canvas;
      isAPredator := false;
      currentLocation := new CartesianCoordinate.Blank();
      oldLocation := new CartesianCoordinate.Blank();
      centreOfFlock := new CartesianCoordinate.Blank();
      entityMovementAngle := 0.0;
      entitiesInFlock, sumOfXDistances, sumOfYDistances, sumOfAnglesInFlock := 0.0, 0.0, 0.0, 0.0;
      flockMovementAngle := 0.0;
      flockStatisticsDefined := true;
      predatorsInSight := [];
      topLeftOfPredator, topRightOfPredator, bottomLeftOfPredator, bottomRightOfCoordinate := null, null, null, null;
      new;
      PlaceAtRandom(rx, ry, ra);
    }

    /** A predator: placed as a plain random entity is, then flagged as a predator. */
    constructor Predator(canvas: Canvas, rx: real, ry: real, ra: real)
      requires UnitDraw(rx) && UnitDraw(ry) && UnitDraw(ra)
      ensures this.canvas == canvas && isAPredator
      ensures Valid() && fresh(Coords())
      ensures State() == EntityState(Relocated(DefaultSpawnPoint(rx, ry)), Origin, DefaultSpawnHeading(ra), Origin, 0.0, true)
      ensures flockStatisticsDefined && predatorsInSight == []
    {
      this.canvas := canvas;
      isAPredator := true;
      currentLocation := new CartesianCoordinate.Blank();
      oldLocation := new CartesianCoordinate.Blank();
      centreOfFlock := new CartesianCoordinate.Blank();
      entityMovementAngle := 0.0;
      entitiesInFlock, sumOfXDistances, sumOfYDistances, sumOfAnglesInFlock := 0.0, 0.0, 0.0, 0.0;
      flockMovementAngle := 0.0;
      flockStatisticsDefined := true;
      predatorsInSight := [];
      topLeftOfPredator, topRightOfPredator, bottomLeftOfPredator, bottomRightOfCoordinate := null, null, null, null;
      new;
      PlaceAtRandom(rx, ry, ra);
    }

    /** A plain entity placed at random inside the box between two corners, with the
        given heading. */
    constructor Flock(canvas: Canvas, topLeftLimit: CartesianCoordinate, bottomRightLimit: CartesianCoordinate,
                      movementAngle: real, rx: real, ry: real)
      requires UnitDraw(rx) && UnitDraw(ry)
      ensures this.canvas == canvas && !isAPredator
      ensures Valid() && fresh(Coords())
      ensures State() == EntityState(Relocated(FlockSpawnPoint(topLeftLimit.Value(), bottomRightLimit.Value(), rx, ry)),
                                     Origin, movementAngle, Origin, 0.0, false)
      ensures flockStatisticsDefined && predatorsInSight == []
    {
      this.canvas := canvas;
      isAPredator := false;
      currentLocation := new CartesianCoordinate.Blank();
      oldLocation := new CartesianCoordinate.Blank();
      centreOfFlock := new CartesianCoordinate.Blank();
      entityMovementAngle := 0.0;
      entitiesInFlock, sumOfXDistances, sumOfYDistances, sumOfAnglesInFlock := 0.0, 0.0, 0.0, 0.0;
      flockMovementAngle := 0.0;
      flockStatisticsDefined := true;
      predatorsInSight := [];
      topLeftOfPredator, topRightOfPredator, bottomLeftOfPredator, bottomRightOfCoordinate := null, null, null, null;
      new;
      PlaceInBox(topLeftLimit, bottomRightLimit, rx, ry);
      SetEntityMovementAngle(movementAngle);
      CheckIfInsideObstacle();
    }

    /** The flock constructor's placement: x drawn between the box corners' x values, y
        between their y values. */
    method PlaceInBox(topLeftLimit: CartesianCoordinate, bottomRightLimit: CartesianCoordinate, rx: real, ry: real)
      requires UnitDraw(rx) && UnitDraw(ry)
      requires currentLocation != topLeftLimit && currentLocation != bottomRightLimit
      modifies currentLocation
      ensures currentLocation.Value() == FlockSpawnPoint(topLeftLimit.Value(), bottomRightLimit.Value(), rx, ry)
    {
      var randomX := new RandomNumberGenerator(topLeftLimit.GetX(), bottomRightLimit.GetX());
      var randomY := new RandomNumberGenerator(topLeftLimit.GetY(), bottomRightLimit.GetY());
      var x := randomX.Get(rx);
      currentLocation.SetX(x);
      var y := randomY.Get(ry);
      currentLocation.SetY(y);
    }

    /** The placement the random constructors share: three generators, the position and
        heading drawn from them, then the obstacle check. */
    method PlaceAtRandom(rx: real, ry: real, ra: real)
      requires Valid() && UnitDraw(rx) && UnitDraw(ry) && UnitDraw(ra)
      modifies currentLocation, this`entityMovementAngle
      ensures State() == old(State()).(location := Relocated(DefaultSpawnPoint(rx, ry)), heading := DefaultSpawnHeading(ra))
    {
      var randomX := new RandomNumberGenerator(0.0, 700.0);
      var randomY := new RandomNumberGenerator(500.0, 0.0);
      var randomAngle := new RandomNumberGenerator(0.0, 360.0);
      var x := randomX.Get(rx);
      currentLocation.SetX(x);
      var y := randomY.Get(ry);
      currentLocation.SetY(y);
      var angle := randomAngle.Get(ra);
      SetEntityMovementAngle(angle);
      CheckIfInsideObstacle();
    }

    /** A spawn inside the obstacle is shifted by -100 on both axes; the heading is kept. */
    method CheckIfInsideObstacle()
      requires Valid()
      modifies currentLocation
      ensures State() == old(State()).(location := Relocated(old(State()).location))
    {
      var xDistFromObstacle := ObstacleCentre.x - currentLocation.GetX();
      var yDistFromObstacle := ObstacleCentre.y - currentLocation.GetY();
      if xDistFromObstacle * xDistFromObstacle + yDistFromObstacle * yDistFromObstacle <= ObstacleRadiusSquared {
        currentLocation.SetX(currentLocation.GetX() - 100.0);
        currentLocation.SetY(currentLocation.GetY() - 100.0);
      }
    }

    // -------------------------------------------------------------- movement

    /** Steps speed units along the heading, remembering where the step started. */
    method Move(speed: real, trig: Trig)
      requires Valid()
      modifies currentLocation, oldLocation
      ensures State() == Moved(old(State()), speed, trig)
    {
      oldLocation.SetX(currentLocation.GetX());
      oldLocation.SetY(currentLocation.GetY());
      StepFromOldLocation(speed, trig);
    }

    /** The four quadrants of the heading, each stepping from the remembered location with
        the sine and cosine of the angle into that quadrant. */
    method StepFromOldLocation(speed: real, trig: Trig)
      requires Valid()
      modifies currentLocation
      ensures currentLocation.Value() == MoveTarget(oldLocation.Value(), entityMovementAngle, speed, trig)
    {
      var h := entityMovementAngle;
      if h <= 90.0 {
        currentLocation.SetX(oldLocation.GetX() + trig.sinDeg(h) * speed);
        currentLocation.SetY(oldLocation.GetY() - trig.cosDeg(h) * speed);
      } else if h <= 180.0 && h > 90.0 {
        currentLocation.SetX(oldLocation.GetX() + trig.cosDeg(h - 90.0) * speed);
        currentLocation.SetY(oldLocation.GetY() + trig.sinDeg(h - 90.0) * speed);
      } else if h <= 270.0 && h > 180.0 {
        currentLocation.SetX(oldLocation.GetX() - trig.sinDeg(h - 180.0) * speed);
        currentLocation.SetY(oldLocation.GetY() + trig.cosDeg(h - 180.0) * speed);
      } else if h >= 270.0 {
        currentLocation.SetX(oldLocation.GetX() - trig.cosDeg(h - 270.0) * speed);
        currentLocation.SetY(oldLocation.GetY() - trig.sinDeg(h - 270.0) * speed);
      }
    }

    /** Adds the adjustment to the heading, correcting once by 360 when the sum leaves [0, 360]. */
    method Turn(entityMovementAngleAdjustment: real)
      modifies this`entityMovementAngle
      ensures State() == Turned(old(State()), entityMovementAngleAdjustment)
    {
      entityMovementAngle := entityMovementAngleAdjustment + entityMovementAngle;
      if entityMovementAngle > 360.0 {
        entityMovementAngle := entityMovementAngle - 360.0;
      } else if entityMovementAngle < 0.0 {
        entityMovementAngle := entityMovementAngle + 360.0;
      }
    }

    /** Puts an entity that left the screen back on the opposite side. */
    method WrapPosition()
      requires Valid()
      modifies currentLocation
      ensures State() == Wrapped(old(State()))
    {
      if currentLocation.GetX() <= 0.0 {
        currentLocation.SetX(WrapFarX);
      }
      if currentLocation.GetY() <= 0.0 {
        currentLocation.SetY(WrapFarY);
      }
      if currentLocation.GetX() >= WrapEdgeX {
        currentLocation.SetX(0.0);
      }
      if currentLocation.GetY() >= WrapEdgeY {
        currentLocation.SetY(0.0);
      }
    }

    // -------------------------------------------------------------- drawing

    /** Puts the entity on the canvas: a dot at its location, or for a predator the four
        sides of a square around it. */
    method Draw()
      requires Valid()
      modifies canvas, this`topLeftOfPredator, this`topRightOfPredator
      modifies this`bottomLeftOfPredator, this`bottomRightOfCoordinate
      ensures canvas.lines == old(canvas.lines) + Drawn(State())
      ensures State() == old(State())
    {
      if isAPredator {
        DrawSquare();
      } else {
        canvas.DrawLineBetweenPoints(currentLocation, currentLocation);
      }
    }

    /** The predator's drawing: four new corner coordinates 2 away from the location on
        each axis, joined top-left, top-right, bottom-right, bottom-left and back. */
    method DrawSquare()
      modifies canvas, this`topLeftOfPredator, this`topRightOfPredator
      modifies this`bottomLeftOfPredator, this`bottomRightOfCoordinate
      ensures canvas.lines == old(canvas.lines) + PredatorBox(currentLocation.Value())
    {
      var x := currentLocation.GetX();
      var y := currentLocation.GetY();
      var topLeft := new CartesianCoordinate(x - PredatorHalfSide, y + PredatorHalfSide);
      var topRight := new CartesianCoordinate(x + PredatorHalfSide, y + PredatorHalfSide);
      var bottomLeft := new CartesianCoordinate(x - PredatorHalfSide, y - PredatorHalfSide);
      var bottomRight := new CartesianCoordinate(x + PredatorHalfSide, y - PredatorHalfSide);
      topLeftOfPredator, topRightOfPredator := topLeft, topRight;
      bottomLeftOfPredator, bottomRightOfCoordinate := bottomLeft, bottomRight;
      DrawClosedLoop(canvas, topLeft, topRight, bottomRight, bottomLeft);
    }

    /** Joins a to b, b to c, c to d and d back to a on the canvas. */
    static method DrawClosedLoop(canvas: Canvas, a: CartesianCoordinate, b: CartesianCoordinate,
                                 c: CartesianCoordinate, d: CartesianCoordinate)
      modifies canvas
      ensures canvas.lines == old(canvas.lines) + [Segment(a.Value(), b.Value()), Segment(b.Value(), c.Value()),
                                                   Segment(c.Value(), d.Value()), Segment(d.Value(), a.Value())]
    {
      canvas.DrawLineBetweenPoints(a, b);
      canvas.DrawLineBetweenPoints(b, c);
      canvas.DrawLineBetweenPoints(c, d);
      canvas.DrawLineBetweenPoints(d, a);
    }

    /** Removes as many lines as Draw puts on the canvas. */
    method Undraw()
      modifies canvas
      ensures canvas.lines == Popped(old(canvas.lines), LinesPerDraw(isAPredator))
    {
      if isAPredator {
        canvas.RemoveMostRecentLine();
        canvas.RemoveMostRecentLine();
        PoppedTwice(old(canvas.lines), 1, 1);
        canvas.RemoveMostRecentLine();
        PoppedTwice(old(canvas.lines), 2, 1);
        canvas.RemoveMostRecentLine();
        PoppedTwice(old(canvas.lines), 3, 1);
      } else {
        canvas.RemoveMostRecentLine();
      }
    }

    // -------------------------------------------------------------- flock statistics

    /** The scan of the flock box. The list it is given is replaced by a fresh empty one
        before the scan, so the totals end at zero, no predator is seen, and the averages
        are 0/0. */
    method CalculateFlockParameters(entities: seq<Entity>)
      requires Valid()
      modifies this`entitiesInFlock, this`sumOfXDistances, this`sumOfYDistances, this`sumOfAnglesInFlock
      modifies this`predatorsInSight, this`flockMovementAngle, this`flockStatisticsDefined, centreOfFlock
      ensures Totals() == NoTotals
      ensures predatorsInSight == old(predatorsInSight)
      ensures !flockStatisticsDefined
      ensures State() == old(State())
    {
      var scanned: seq<Entity> := [];
      entitiesInFlock := 0.0;
      sumOfXDistances := 0.0;
      sumOfYDistances := 0.0;
      sumOfAnglesInFlock := 0.0;
      ScanFlockBoxes(scanned);
      StoreFlockStatistics();
    }

    /** Adds up every listed entity that passes the box test, and records the predators
        among them as in sight. */
    method ScanFlockBoxes(entities: seq<Entity>)
      modifies this`entitiesInFlock, this`sumOfXDistances, this`sumOfYDistances, this`sumOfAnglesInFlock
      modifies this`predatorsInSight
      ensures Totals() == Scanned(old(Totals()), old(StatesOf(entities)))
      ensures predatorsInSight == old(predatorsInSight) + PredatorsAmong(entities)
    {
      ghost var states := StatesOf(entities);
      ghost var totals0, inSight0 := Totals(), predatorsInSight;
      var i := 0;
      while i < |entities|
        invariant 0 <= i <= |entities|
        invariant Totals() == Scanned(totals0, states[..i])
        invariant predatorsInSight == inSight0 + PredatorsAmong(entities[..i])
      {
        ScanFlockBox(entities[i], states[i]);
        assert Totals() == Scanned(totals0, states[..i + 1]) by { ScannedPrefix(totals0, states, i); }
        assert predatorsInSight == inSight0 + PredatorsAmong(entities[..i + 1]) by {
          PredatorsAmongPrefix(entities, i);
        }
        i := i + 1;
      }
      assert states[..i] == states;
      assert entities[..i] == entities;
    }

    /** One step of the scan: the box is centred on the scanned entity itself. */
    method ScanFlockBox(entity: Entity, ghost s: EntityState)
      requires entity.State() == s
      modifies this`entitiesInFlock, this`sumOfXDistances, this`sumOfYDistances, this`sumOfAnglesInFlock
      modifies this`predatorsInSight
      ensures Totals() == Accumulated(old(Totals()), s)
      ensures predatorsInSight == old(predatorsInSight) + if entity.isAPredator then [entity] else []
    {
      var x := entity.GetX();
      var y := entity.GetY();
      var xLowerBound := x - FlockDiameter / 2.0;
      var xUpperBound := x + FlockDiameter / 2.0;
      var yLowerBound := y - FlockDiameter / 2.0;
      var yUpperBound := y + FlockDiameter / 2.0;
      if x >= xLowerBound && x <= xUpperBound {
        if y >= yLowerBound && y <= yUpperBound {
          sumOfXDistances := sumOfXDistances + x;
          sumOfYDistances := sumOfYDistances + y;
          sumOfAnglesInFlock := sumOfAnglesInFlock + entity.GetEntityMovementAngle();
          entitiesInFlock := entitiesInFlock + 1.0;
          if entity.isAPredator {
            predatorsInSight := predatorsInSight + [entity];
          }
        }
      }
    }

    /** Divides the totals by the count; with a count of 0 the averages are undefined. */
    method StoreFlockStatistics()
      requires Valid()
      modifies centreOfFlock, this`flockMovementAngle, this`flockStatisticsDefined
      ensures flockStatisticsDefined <==> entitiesInFlock != 0.0
      ensures flockStatisticsDefined ==>
                centreOfFlock.Value().x * entitiesInFlock == sumOfXDistances &&
                centreOfFlock.Value().y * entitiesInFlock == sumOfYDistances &&
                flockMovementAngle * entitiesInFlock == sumOfAnglesInFlock
      ensures !flockStatisticsDefined ==> State() == old(State())
      ensures State().location == old(State()).location && State().heading == old(State()).heading
    {
      var centreX := Average(sumOfXDistances, entitiesInFlock);
      var centreY := Average(sumOfYDistances, entitiesInFlock);
      var angle := Average(sumOfAnglesInFlock, entitiesInFlock);
      if centreX.Some? && centreY.Some? && angle.Some? {
        centreOfFlock.SetX(centreX.value);
        centreOfFlock.SetY(centreY.value);
        flockMovementAngle := angle.value;
        flockStatisticsDefined := true;
      } else {
        flockStatisticsDefined := false;
      }
    }

    // -------------------------------------------------------------- steering rules

    /** Steers toward the flock centre; a predator does so with its own factor 0.01. */
    method ApplyCohesion(cohesionFactor: real, trig: Trig)
      modifies this`entityMovementAngle
      ensures State() == Cohered(old(State()), cohesionFactor, trig)
    {
      var xDist := centreOfFlock.GetX() - currentLocation.GetX();
      var yDist := centreOfFlock.GetY() - currentLocation.GetY();
      var angleRequiredForCohesion := trig.atanDeg(xDist, yDist);
      if isAPredator {
        entityMovementAngle := entityMovementAngle + PredatorCohesionFactor * angleRequiredForCohesion;
      } else {
        entityMovementAngle := entityMovementAngle + cohesionFactor * angleRequiredForCohesion;
      }
    }

    /** Steers away from the flock centre; a predator ignores it. */
    method ApplySeperation(seperationFactor: real, trig: Trig)
      modifies this`entityMovementAngle
      ensures State() == Separated(old(State()), seperationFactor, trig)
    {
      if !isAPredator {
        var xDist := centreOfFlock.GetX() - currentLocation.GetX();
        var yDist := centreOfFlock.GetY() - currentLocation.GetY();
        var angleRequiredForSeperation := trig.atanDeg(xDist, yDist);
        entityMovementAngle := entityMovementAngle - seperationFactor * angleRequiredForSeperation;
      }
    }

    /** Blends the heading toward the flock's heading; a predator ignores it. */
    method ApplyAlignment(alignmentFactor: real)
      modifies this`entityMovementAngle
      ensures State() == Aligned(old(State()), alignmentFactor)
    {
      if !isAPredator {
        var angleRequiredForAllignment := flockMovementAngle - entityMovementAngle;
        entityMovementAngle := entityMovementAngle + alignmentFactor * angleRequiredForAllignment;
      }
    }

    /** Steers toward the nest; a predator ignores it. */
    method ApplyNestAttraction(nestLocation: CartesianCoordinate, nestAttractionFactor: real, trig: Trig)
      modifies this`entityMovementAngle
      ensures State() == NestAttracted(old(State()), nestLocation.Value(), nestAttractionFactor, trig)
    {
      if !isAPredator {
        var xDist := nestLocation.GetX() - currentLocation.GetX();
        var yDist := nestLocation.GetY() - currentLocation.GetY();
        var angleRequiredForNest := trig.atanDeg(xDist, yDist);
        entityMovementAngle := entityMovementAngle + nestAttractionFactor * angleRequiredForNest;
      }
    }

    /** Steers away from the obstacle, and turns back by 180 degrees when inside it. */
    method ApplyObstacleAvoidance(trig: Trig)
      modifies this`entityMovementAngle
      ensures State() == ObstacleAvoided(old(State()), trig)
    {
      var xDistFromObstacle := ObstacleCentre.x - currentLocation.GetX();
      var yDistFromObstacle := ObstacleCentre.y - currentLocation.GetY();
      var squaredDistFromObstacle := xDistFromObstacle * xDistFromObstacle + yDistFromObstacle * yDistFromObstacle;
      var angleRequiredForObstacleAvoidance := trig.atanDeg(xDistFromObstacle, yDistFromObstacle);
      entityMovementAngle := entityMovementAngle - ObstacleAvoidanceFactor * angleRequiredForObstacleAvoidance;
      if squaredDistFromObstacle <= ObstacleRadiusSquared {
        entityMovementAngle := entityMovementAngle - BounceAngle;
      }
    }

    /** The collision rule. When enabled it replaces the list it is given by a fresh empty
        one before comparing, so no heading ever changes. */
    method ApplyCollisions(entities: seq<Entity>, collisionDetection: bool)
      modifies entities`entityMovementAngle
      ensures forall e :: e in entities ==> e.entityMovementAngle == old(e.entityMovementAngle)
    {
      if collisionDetection {
        var emptied: seq<Entity> := [];
        CollideAll(emptied);
      }
    }

    /** Compares every listed entity with every listed entity, itself included, and turns
        the two apart when they hold the same location object. When no two listed
        entities share a location object, each entity meets only itself, and so is
        turned by 90 and back by 90. */
    method CollideAll(entities: seq<Entity>)
      modifies entities`entityMovementAngle
      ensures DistinctLocations(entities) ==>
                forall k :: 0 <= k < |entities| ==>
                  entities[k].entityMovementAngle == TurnHeading(TurnHeading(old(entities[k].entityMovementAngle), 90.0), -90.0)
    {
      ghost var headings := seq(|entities|, k requires 0 <= k < |entities| reads entities => entities[k].entityMovementAngle);
      var i := 0;
      while i < |entities|
        invariant 0 <= i <= |entities|
        invariant DistinctLocations(entities) ==>
                    forall k :: 0 <= k < |entities| ==>
                      entities[k].entityMovementAngle == (if k < i then TurnHeading(TurnHeading(headings[k], 90.0), -90.0) else headings[k])
      {
        var entityForComparasonOne := entities[i];
        var j := 0;
        while j < |entities|
          invariant 0 <= j <= |entities|
          invariant DistinctLocations(entities) ==>
                      forall k :: 0 <= k < |entities| ==>
                        entities[k].entityMovementAngle ==
                          (if k < i || (k == i && i < j) then TurnHeading(TurnHeading(headings[k], 90.0), -90.0) else headings[k])
        {
          var entityForComparasonTwo := entities[j];
          if entityForComparasonOne.currentLocation == entityForComparasonTwo.currentLocation {
            entityForComparasonOne.Turn(90.0);
            entityForComparasonTwo.Turn(-90.0);
          }
          j := j + 1;
        }
        i := i + 1;
      }
    }

    /** Flees from each predator in sight in turn, then forgets them; a predator does
        neither. */
    method ApplyPredator(trig: Trig)
      modifies this`entityMovementAngle, this`predatorsInSight
      ensures isAPredator ==> State() == old(State()) && predatorsInSight == old(predatorsInSight)
      ensures !isAPredator ==> predatorsInSight == []
      ensures State() == Evaded(old(State()), old(PositionsOf(predatorsInSight)), trig)
      ensures old(predatorsInSight) == [] ==> State() == old(State())
    {
      if !isAPredator {
        if |predatorsInSight| != 0 {
          FleeFromAll(trig);
        }
        predatorsInSight := [];
      }
    }

    /** The loop of the evasion rule: turns away from each predator in sight, in order. */
    method FleeFromAll(trig: Trig)
      modifies this`entityMovementAngle
      ensures entityMovementAngle ==
                EvadedHeading(old(entityMovementAngle), currentLocation.Value(), old(PositionsOf(predatorsInSight)), trig)
    {
      ghost var targets := PositionsOf(predatorsInSight);
      ghost var h0 := entityMovementAngle;
      var i := 0;
      while i < |predatorsInSight|
        invariant 0 <= i <= |predatorsInSight|
        invariant entityMovementAngle == EvadedHeading(h0, currentLocation.Value(), targets[..i], trig)
        invariant forall j :: 0 <= j < |predatorsInSight| ==> predatorsInSight[j].currentLocation.Value() == targets[j]
      {
        var predator := predatorsInSight[i];
        var xDist := predator.GetX() - currentLocation.GetX();
        var yDist := predator.GetY() - currentLocation.GetY();
        var angleRequiredForSeperation := trig.atanDeg(xDist, yDist);
        entityMovementAngle := entityMovementAngle - PredatorEvasionFactor * angleRequiredForSeperation;
        assert entityMovementAngle == EvadedHeading(h0, currentLocation.Value(), targets[..i + 1], trig) by {
          EvadedHeadingPrefix(h0, currentLocation.Value(), targets, i, trig);
        }
        i := i + 1;
      }
      assert targets[..i] == targets;
    }

    // -------------------------------------------------------------- getters and setters

    function GetCurrentLocation(): CartesianCoordinate
      reads this`currentLocation
    {
      currentLocation
    }

    /** Replaces the location object; it must not be one of the entity's other two. */
    method SetCurrentLocation(currentLocation: CartesianCoordinate)
      requires currentLocation != oldLocation && currentLocation != centreOfFlock && Valid()
      modifies this`currentLocation
      ensures Valid() && GetCurrentLocation() == currentLocation
      ensures State() == old(State()).(location := currentLocation.Value())
    {
      this.currentLocation := currentLocation;
    }

    function GetX(): real
      reads this`currentLocation, currentLocation
    {
      currentLocation.GetX()
    }

    function GetY(): real
      reads this`currentLocation, currentLocation
    {
      currentLocation.GetY()
    }

    function GetEntityMovementAngle(): real
      reads this`entityMovementAngle
    {
      entityMovementAngle
    }

    method SetEntityMovementAngle(entityMovementAngle: real)
      modifies this`entityMovementAngle
      ensures State() == old(State()).(heading := entityMovementAngle)
    {
      this.entityMovementAngle := entityMovementAngle;
    }

    function GetFlockAngle(): real
      reads this`flockMovementAngle
    {
      flockMovementAngle
    }

    function GetPredator(): bool {
      isAPredator
    }
  }

  /** No two listed entities hold the same location object. */
  ghost predicate DistinctLocations(entities: seq<Entity>)
    reads entities`currentLocation
  {
    forall k, l :: 0 <= k < l < |entities| ==> entities[k].currentLocation != entities[l].currentLocation
  }

  /** Two entities are different objects and share no coordinate object. */
  ghost predicate Separate(a: Entity, b: Entity)
    reads a`currentLocation, a`oldLocation, a`centreOfFlock
    reads b`currentLocation, b`oldLocation, b`centreOfFlock
  {
    a != b && a.Coords() !! b.Coords()
  }

  /** A population in which every entity is ready on canvas c, none holds the nest
      coordinate, and no two entities share an object. */
  ghost predicate WellFormed(all: seq<Entity>, c: Canvas, nest: CartesianCoordinate)
    reads all`currentLocation, all`oldLocation, all`centreOfFlock, all`predatorsInSight
  {
    (forall k :: 0 <= k < |all| ==> all[k].ReadyOn(c) && nest !in all[k].Coords()) &&
    (forall k, l :: 0 <= k < l < |all| ==> Separate(all[k], all[l]))
  }

  /** Any two distinct places of a well-formed population hold distinct entities with
      disjoint coordinates. */
  lemma WellFormedApart(all: seq<Entity>, c: Canvas, nest: CartesianCoordinate, k: int, l: int)
    requires WellFormed(all, c, nest)
    requires 0 <= k < |all| && 0 <= l < |all| && k != l
    ensures all[k] != all[l] && all[k].Coords() !! all[l].Coords()
  {
    if k < l {
      assert Separate(all[k], all[l]);
    } else {
      assert Separate(all[l], all[k]);
    }
  }

  /** Two well-formed populations with nothing in common form one together. */
  lemma WellFormedConcat(a: seq<Entity>, b: seq<Entity>, c: Canvas, nest: CartesianCoordinate)
    requires WellFormed(a, c, nest) && WellFormed(b, c, nest)
    requires forall k, l :: 0 <= k < |a| && 0 <= l < |b| ==> Separate(a[k], b[l])
    ensures WellFormed(a + b, c, nest)
  {
    var all := a + b;
    forall k | 0 <= k < |all|
      ensures all[k].ReadyOn(c) && nest !in all[k].Coords()
    {
      if k < |a| {
        assert all[k] == a[k];
      } else {
        assert all[k] == b[k - |a|];
      }
    }
    forall k, l | 0 <= k < l < |all|
      ensures Separate(all[k], all[l])
    {
      if l < |a| {
        assert all[k] == a[k] && all[l] == a[l];
      } else if k < |a| {
        assert all[k] == a[k] && all[l] == b[l - |a|];
      } else {
        assert all[k] == b[k - |a|] && all[l] == b[l - |a|];
      }
    }
  }

  /** The getters report the entity's abstract state. */
  lemma GettersReadState(e: Entity)
    ensures e.GetX() == e.State().location.x && e.GetY() == e.State().location.y
    ensures e.GetEntityMovementAngle() == e.State().heading
    ensures e.GetFlockAngle() == e.State().flockAngle
    ensures e.GetPredator() == e.State().predator
    ensures e.GetCurrentLocation().Value() == e.State().location
  {
  }
}
