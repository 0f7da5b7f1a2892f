/** The control panel: the parameters the simulation loop reads, the listener bodies that
    change them, and the list of entities staged by the add buttons until the loop merges
    them. Widget construction and the label texts are not part of this model. */
module Window {
  import opened Geometry
  import opened Drawing
  import opened Tools
  import opened Steering
  import opened Entities

  /** The parameters before any slider is moved or button pressed. */
  const DefaultSettings := Parameters(1.0, 0.2, 0.1, 0.2, 0.0, false)

  /** The factor a factor slider stands for: a tenth of its value. */
  function SliderFactor(sliderValue: int): (factor: real)
    ensures 0 <= sliderValue <= 10 ==> 0.0 <= factor <= 1.0
    ensures factor * 10.0 == sliderValue as real
  {
    sliderValue as real / 10.0
  }

  /** How many entities the add-flock button stages: the loop counts from 1 up to the
      size slider, so a value below 1 stages none. */
  function FlockCount(sizeOfFlock: int): nat {
    if sizeOfFlock < 1 then 0 else sizeOfFlock
  }

  /** The top-left corner of the flock box, drawn inside 20..680 by 20..480. */
  function FlockBoxCorner(boxX: real, boxY: real): Point {
    Point(RandomValue(20.0, 680.0, boxX), RandomValue(20.0, 480.0, boxY))
  }

  /** The bottom-right corner, 20 below and 20 left of the top-left one. */
  function FlockBoxOppositeCorner(corner: Point): Point {
    Point(corner.x - 20.0, corner.y - 20.0)
  }

  /** The state of a flock member placed with draw d in the box at corner. */
  function FlockMemberState(corner: Point, angle: int, d: (real, real)): EntityState {
    EntityState(Relocated(FlockSpawnPoint(corner, FlockBoxOppositeCorner(corner), d.0, d.1)),
                Origin, angle as real, Origin, 0.0, false)
  }

  /** The corner lies in [20, 680) x [20, 480), and a flock member placed from it, before
      the obstacle check, lies within 20 below and left of it, the corner included. */
  lemma FlockMemberNearCorner(boxX: real, boxY: real, d: (real, real))
    requires UnitDraw(boxX) && UnitDraw(boxY) && UnitDraw(d.0) && UnitDraw(d.1)
    ensures 20.0 <= FlockBoxCorner(boxX, boxY).x < 680.0 && 20.0 <= FlockBoxCorner(boxX, boxY).y < 480.0
    ensures var corner := FlockBoxCorner(boxX, boxY);
            var p := FlockSpawnPoint(corner, FlockBoxOppositeCorner(corner), d.0, d.1);
            corner.x - 20.0 < p.x <= corner.x && corner.y - 20.0 < p.y <= corner.y
  {
    RandomValueInRange(20.0, 680.0, boxX);
    RandomValueInRange(20.0, 480.0, boxY);
    var corner := FlockBoxCorner(boxX, boxY);
    FlockSpawnWithinBox(corner, FlockBoxOppositeCorner(corner), d.0, d.1);
  }

  /** The given entities are the first members of a flock staged on canvas c: ready to be
      simulated, placed from the given draws, apart from one another. */
  ghost predicate FlockStaged(s: seq<Entity>, c: Canvas, corner: Point, angle: int, draws: seq<(real, real)>)
    reads s, set e | e in s :: e.currentLocation, set e | e in s :: e.oldLocation
    reads set e | e in s :: e.centreOfFlock
  {
    |s| <= |draws| &&
    (forall k :: 0 <= k < |s| ==> s[k].ReadyOn(c) && s[k].State() == FlockMemberState(corner, angle, draws[k])) &&
    (forall k, l :: 0 <= k < l < |s| ==> Separate(s[k], s[l]))
  }

  class Controls {
    const canvas: Canvas
    var trueFactor: real
    var speed: real
    var cohesionFactor: real
    var alignmentFactor: real
    var seperationFactor: real
    var nestAttractionFactor: real
    var collisionDetection: bool
    var entitiesToAdd: seq<Entity>

    ghost function Settings(): Parameters
      reads this`speed, this`cohesionFactor, this`alignmentFactor, this`seperationFactor
      reads this`nestAttractionFactor, this`collisionDetection
    {
      Parameters(speed, cohesionFactor, alignmentFactor, seperationFactor, nestAttractionFactor, collisionDetection)
    }

    /** The list passed in is not kept: the staging list starts fresh and empty. */
    constructor (canvas: Canvas, entitiesToAdd: seq<Entity>)
      ensures this.canvas == canvas
      ensures Settings() == DefaultSettings
      ensures this.entitiesToAdd == []
    {
      this.canvas := canvas;
      trueFactor := 0.0;
      speed := 1.0;
      cohesionFactor := 0.2;
      alignmentFactor := 0.1;
      seperationFactor := 0.2;
      nestAttractionFactor := 0.0;
      collisionDetection := false;
      this.entitiesToAdd := entitiesToAdd;
      this.entitiesToAdd := [];
    }

    // -------------------------------------------------------------- listeners

    /** The collision button flips collision detection. */
    method ToggleCollisions()
      modifies this`collisionDetection
      ensures collisionDetection == !old(collisionDetection)
      ensures Settings() == old(Settings()).(collisions := !old(collisionDetection))
    {
      if collisionDetection == true {
        collisionDetection := false;
      } else {
        collisionDetection := true;
      }
    }

    /** The speed is the speed slider's value itself. */
    method EntitySpeedSliderChanged(sliderValue: int)
      modifies this`speed
      ensures Settings() == old(Settings()).(speed := sliderValue as real)
    {
      speed := sliderValue as real;
    }

    method CohesionFactorSliderChanged(sliderValue: int)
      modifies this`trueFactor, this`cohesionFactor
      ensures trueFactor == sliderValue as real
      ensures Settings() == old(Settings()).(cohesion := SliderFactor(sliderValue))
    {
      trueFactor := sliderValue as real;
      cohesionFactor := trueFactor / 10.0;
    }

    method SeperationFactorSliderChanged(sliderValue: int)
      modifies this`trueFactor, this`seperationFactor
      ensures trueFactor == sliderValue as real
      ensures Settings() == old(Settings()).(separation := SliderFactor(sliderValue))
    {
      trueFactor := sliderValue as real;
      seperationFactor := trueFactor / 10.0;
    }

    method AlignmentFactorSliderChanged(sliderValue: int)
      modifies this`trueFactor, this`alignmentFactor
      ensures trueFactor == sliderValue as real
      ensures Settings() == old(Settings()).(alignment := SliderFactor(sliderValue))
    {
      trueFactor := sliderValue as real;
      alignmentFactor := trueFactor / 10.0;
    }

    method NestAttractionFactorSliderChanged(sliderValue: int)
      modifies this`trueFactor, this`nestAttractionFactor
      ensures trueFactor == sliderValue as real
      ensures Settings() == old(Settings()).(nestAttraction := SliderFactor(sliderValue))
    {
      trueFactor := sliderValue as real;
      nestAttractionFactor := trueFactor / 10.0;
    }

    /** Stages one plain entity placed at random. */
    method AddRandomEntity(rx: real, ry: real, ra: real)
      requires UnitDraw(rx) && UnitDraw(ry) && UnitDraw(ra)
      modifies this`entitiesToAdd
      ensures |entitiesToAdd| == |old(entitiesToAdd)| + 1
      ensures entitiesToAdd[..|old(entitiesToAdd)|] == old(entitiesToAdd)
      ensures forall k :: |old(entitiesToAdd)| <= k < |entitiesToAdd| ==>
                fresh(entitiesToAdd[k]) && fresh(entitiesToAdd[k].Coords()) && entitiesToAdd[k].ReadyOn(canvas) &&
                entitiesToAdd[k].State() ==
                  EntityState(Relocated(DefaultSpawnPoint(rx, ry)), Origin, DefaultSpawnHeading(ra), Origin, 0.0, false)
    {
      var flockComponent := new Entity.Random(canvas, rx, ry, ra);
      entitiesToAdd := entitiesToAdd + [flockComponent];
    }

    /** Stages one predator placed at random. */
    method AddRandomPredator(rx: real, ry: real, ra: real)
      requires UnitDraw(rx) && UnitDraw(ry) && UnitDraw(ra)
      modifies this`entitiesToAdd
      ensures |entitiesToAdd| == |old(entitiesToAdd)| + 1
      ensures entitiesToAdd[..|old(entitiesToAdd)|] == old(entitiesToAdd)
      ensures forall k :: |old(entitiesToAdd)| <= k < |entitiesToAdd| ==>
                fresh(entitiesToAdd[k]) && fresh(entitiesToAdd[k].Coords()) && entitiesToAdd[k].ReadyOn(canvas) &&
                entitiesToAdd[k].State() ==
                  EntityState(Relocated(DefaultSpawnPoint(rx, ry)), Origin, DefaultSpawnHeading(ra), Origin, 0.0, true)
    {
      var flockComponent := new Entity.Predator(canvas, rx, ry, ra);
      entitiesToAdd := entitiesToAdd + [flockComponent];
    }

    /** Stages a flock: one box corner is drawn from (boxX, boxY), then as many entities as
        the size slider says are placed in the box, all with the angle slider's heading;
        draws[k] places the k-th of them. */
    method AddFlock(sizeOfFlock: int, angleOfFlock: int, boxX: real, boxY: real, draws: seq<(real, real)>)
      requires UnitDraw(boxX) && UnitDraw(boxY)
      requires FlockCount(sizeOfFlock) <= |draws|
      requires forall k :: 0 <= k < |draws| ==> UnitDraw(draws[k].0) && UnitDraw(draws[k].1)
      modifies this`entitiesToAdd
      ensures |entitiesToAdd| == |old(entitiesToAdd)| + FlockCount(sizeOfFlock)
      ensures entitiesToAdd[..|old(entitiesToAdd)|] == old(entitiesToAdd)
      ensures forall k :: |old(entitiesToAdd)| <= k < |entitiesToAdd| ==>
                fresh(entitiesToAdd[k]) && fresh(entitiesToAdd[k].Coords())
      ensures FlockStaged(entitiesToAdd[|old(entitiesToAdd)|..], canvas, FlockBoxCorner(boxX, boxY), angleOfFlock, draws)
    {
      var topLeftLimit, bottomRightLimit := FlockBox(boxX, boxY);
      ghost var corner := FlockBoxCorner(boxX, boxY);
      ghost var added: seq<Entity> := [];
      var counter := 1;
      while counter <= sizeOfFlock
        invariant 1 <= counter <= FlockCount(sizeOfFlock) + 1 && |added| == counter - 1
        invariant entitiesToAdd == old(entitiesToAdd) + added
        invariant topLeftLimit.Value() == corner && bottomRightLimit.Value() == FlockBoxOppositeCorner(corner)
        invariant forall k :: 0 <= k < |added| ==> fresh(added[k]) && fresh(added[k].Coords())
        invariant FlockStaged(added, canvas, corner, angleOfFlock, draws)
      {
        StageFlockMember(topLeftLimit, bottomRightLimit, angleOfFlock, draws, counter - 1, added, corner);
        added := added + [entitiesToAdd[|entitiesToAdd| - 1]];
        counter := counter + 1;
      }
      assert entitiesToAdd[|old(entitiesToAdd)|..] == added;
    }

    /** Draws the flock box: its top-left corner inside 20..680 by 20..480 and its
        bottom-right corner 20 below and left of it. */
    static method FlockBox(boxX: real, boxY: real) returns (topLeftLimit: CartesianCoordinate, bottomRightLimit: CartesianCoordinate)
      requires UnitDraw(boxX) && UnitDraw(boxY)
      ensures topLeftLimit.Value() == FlockBoxCorner(boxX, boxY)
      ensures bottomRightLimit.Value() == FlockBoxOppositeCorner(FlockBoxCorner(boxX, boxY))
    {
      var randomXForBoxGenerator := new RandomNumberGenerator(20.0, 680.0);
      var randomYForBoxGenerator := new RandomNumberGenerator(20.0, 480.0);
      var flockBoxX := randomXForBoxGenerator.Get(boxX);
      var flockBoxY := randomYForBoxGenerator.Get(boxY);
      topLeftLimit := new CartesianCoordinate(flockBoxX, flockBoxY);
      bottomRightLimit := new CartesianCoordinate(flockBoxX - 20.0, flockBoxY - 20.0);
    }

    /** One iteration of the add-flock loop: stages the i-th member, placed in the box by
        draws[i], after the members staged so far. */
    method StageFlockMember(topLeftLimit: CartesianCoordinate, bottomRightLimit: CartesianCoordinate,
                            angleOfFlock: int, draws: seq<(real, real)>, i: nat,
                            ghost added: seq<Entity>, ghost corner: Point)
      requires i == |added| < |draws| && UnitDraw(draws[i].0) && UnitDraw(draws[i].1)
      requires topLeftLimit.Value() == corner && bottomRightLimit.Value() == FlockBoxOppositeCorner(corner)
      requires FlockStaged(added, canvas, corner, angleOfFlock, draws)
      modifies this`entitiesToAdd
      ensures |entitiesToAdd| == |old(entitiesToAdd)| + 1
      ensures entitiesToAdd == old(entitiesToAdd) + [entitiesToAdd[|entitiesToAdd| - 1]]
      ensures fresh(entitiesToAdd[|entitiesToAdd| - 1]) && fresh(entitiesToAdd[|entitiesToAdd| - 1].Coords())
      ensures FlockStaged(added + [entitiesToAdd[|entitiesToAdd| - 1]], canvas, corner, angleOfFlock, draws)
    {
      var flockCompoenent := new Entity.Flock(canvas, topLeftLimit, bottomRightLimit, angleOfFlock as real, draws[i].0, draws[i].1);
      entitiesToAdd := entitiesToAdd + [flockCompoenent];
      ghost var grown := added + [flockCompoenent];
      forall k, l | 0 <= k < l < |grown|
        ensures Separate(grown[k], grown[l])
      {
        if l < |added| {
          assert grown[k] == added[k] && grown[l] == added[l];
        } else {
          assert grown[k] == added[k] && grown[l] == flockCompoenent;
        }
      }
      forall k | 0 <= k < |grown|
        ensures grown[k].ReadyOn(canvas) && grown[k].State() == FlockMemberState(corner, angleOfFlock, draws[k])
      {
        if k < |added| {
          assert grown[k] == added[k];
        }
      }
    }

    // -------------------------------------------------------------- getters

    function GetSpeed(): real
      reads this`speed
    {
      speed
    }

    function GetCohesionFactor(): real
      reads this`cohesionFactor
    {
      cohesionFactor
    }

    function GetAlignmentFactor(): real
      reads this`alignmentFactor
    {
      alignmentFactor
    }

    function GetSeperationFactor(): real
      reads this`seperationFactor
    {
      seperationFactor
    }

    function GetNestAttractionFactor(): real
      reads this`nestAttractionFactor
    {
      nestAttractionFactor
    }

    function IsCollisionDetection(): bool
      reads this`collisionDetection
    {
      collisionDetection
    }

    function GetEntitiesToAdd(): seq<Entity>
      reads this`entitiesToAdd
    {
      entitiesToAdd
    }
  }

  /** The getters report the parameters the simulation loop uses. */
  lemma GettersReadSettings(c: Controls)
    ensures c.Settings() == Parameters(c.GetSpeed(), c.GetCohesionFactor(), c.GetAlignmentFactor(),
                                       c.GetSeperationFactor(), c.GetNestAttractionFactor(), c.IsCollisionDetection())
  {
  }
}
