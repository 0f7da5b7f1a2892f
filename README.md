# Boid flocking simulator — a Dafny model

The modelled system is a small Java simulation of a flock of birds ("entities") on a
700 × 500 canvas. Each entity has a location, a previous location and a heading in
degrees. Every tick of the simulation loop does three things:

1. It draws every entity. A bird is a dot: a zero-length line at its location. A predator is a closed square of four lines around its location.
2. For each entity, in list order, it applies the steering rules:
   - move by the speed along the heading;
   - cohesion, separation, alignment and nest attraction;
   - bounce off the circular obstacle;
   - collisions, which end up changing nothing;
   - evasion of the predators in sight;
   - wrap around the edges of the world;
   - undraw, which removes as many of the most recent lines as the entity's kind draws
     (one for a bird, four for a predator). Since every entity undraws in the same
     order it drew, the rule loop as a whole removes exactly what the draw loop added.
3. It appends to the population the entities that the control panel staged since the
   last tick, and empties the staged list.

The control panel's listeners change the parameters the rules read (speed and four
factors, plus the collision toggle). Its buttons stage a random bird, a random predator,
or a flock of birds spawned inside a small random box.

## Structure

The model keeps the program's form. Objects whose fields the Java code overwrites in
place are Dafny classes with `modifies` frames:
- coordinates, line segments and the random number generator;
- entities, the control panel and the program itself.

Module `Steering` restates every rule as a function on an `EntityState` value. Each
in-place method is proved against those functions (`ensures State() == Moved(old(State()), …)`).
What the program promises is then proved as lemmas about the functions:
- the world bounds after wrapping;
- turning is undone by the opposite turn;
- predators skip rules;
- evasion sums over predators;
- drawing then undrawing restores the canvas;
- ticks keep order and append what was staged.

Modules:
- `Geometry`: coordinate and segment classes.
- `Drawing`: the canvas, kept as the list of lines it shows.
- `Tools`: the random number generator.
- `Steering`: rule functions.
- `Entities`: the entity class.
- `Window`: the control panel.
- `Population`: whole-population functions.
- `Simulation`: the program and its tick.

`RandomEntity` and `PredatorialEntity` are modelled as constructors of the one `Entity`
class (`Random`, `Flock`, `Predator`). Java chooses the overrides by subclass dispatch.
The `isAPredator` flag is set exactly for `PredatorialEntity` instances
(`src/entity/PredatorialEntity.java:25`), so each modelled method that branches on it
selects the same override that dispatch would.

Trigonometry (`Math.sin`, `Math.cos`, `Math.atan` of angles in degrees) is a parameter
`trig: Trig` of uninterpreted functions. Nothing is assumed about it. A uniform random
draw in [0, 1) is a parameter `r` with `UnitDraw(r)`.

Two features of the code as written are followed faithfully:
- `calculateFlockParameters` first replaces the list it is given with a fresh empty list
  (`src/entity/Entity.java:224`). It therefore always scans nothing and ends with every
  total at 0. Its averages are 0/0 (NaN in Java), which the model records as
  `flockStatisticsDefined == false`. The loop over a real list is modelled separately as
  `ScanFlockBoxes`, and `Scanned` is its specification.
- The flock box test compares an entity with a box centred on that same entity
  (`src/entity/Entity.java:244-253`), so every scanned entity is inside it
  (`InOwnFlockBox` is always true).

The tick itself never calls `calculateFlockParameters`, so the centre of flock and the
flock angle keep the values each entity was created with. This is proved at two levels:
- For values, `RunKeepsFlockDefaults` covers any run of ticks.
- For the program object, `Simulation.FlockingProgram.NoFlockStatistics` is the
  invariant. The constructor establishes it, and `Tick` and every button method preserve
  it, so it holds in every state the program can reach. `UnsetMeansDefaults` turns it
  into `FlockDefaults` of the entities' states.

## Model

| member | source | states |
|---|---|---|
| Geometry.CartesianCoordinate.constructor | src/geometry/CartesianCoordinate.java:21-24 | the new coordinate holds the given x and y |
| Geometry.CartesianCoordinate.Blank | src/geometry/CartesianCoordinate.java:29-32 | the no-argument coordinate is the origin |
| Geometry.CartesianCoordinate.SetX | src/geometry/CartesianCoordinate.java:54-56 | x becomes the argument, y is unchanged |
| Geometry.CartesianCoordinate.SetY | src/geometry/CartesianCoordinate.java:62-64 | y becomes the argument, x is unchanged |
| Geometry.LineSegment.constructor | src/geometry/LineSegment.java:23-26 | the segment holds the two given coordinate objects themselves, not copies |
| Geometry.LineSegment.FromDoubles | src/geometry/LineSegment.java:35-38 | two new, distinct coordinate objects with the four given values |
| Geometry.LineSegment.SetStartPoint | src/geometry/LineSegment.java:44-46 | the start becomes the given object, the end is unchanged |
| Geometry.LineSegment.SetEndPoint | src/geometry/LineSegment.java:52-54 | the end becomes the given object, the start is unchanged |
| Drawing.Popped | src/entity/Entity.java:203-210 | removing k most recent lines leaves a prefix of length max(n-k, 0); an empty canvas stays empty |
| Drawing.PoppedTwice | src/entity/PredatorialEntity.java:102-113 | removing a lines then b lines equals removing a+b lines |
| Drawing.PoppedAfterDrawing | src/entity/Entity.java:196-210 | removing as many lines as were just drawn restores the canvas |
| Drawing.Canvas.DrawLineBetweenPoints | src/entity/Entity.java:197 | exactly one segment between the two current points is appended |
| Drawing.Canvas.RemoveMostRecentLine | src/entity/Entity.java:206 | exactly the most recent line is removed |
| Tools.RandomValueInRange | src/tools/RandomNumberGenerator.java:41-48 | a draw lies in [lower, upper) when lower < upper, in (upper, lower] when the limits are reversed, and equals the limit when they coincide |
| Tools.ScaledDraw | src/tools/RandomNumberGenerator.java:44 | a unit draw scales a positive width into [0, width) |
| Tools.NegativeScaledDraw | src/tools/RandomNumberGenerator.java:44 | a unit draw scales a negative width into (width, 0] |
| Tools.RandomNumberGenerator.constructor | src/tools/RandomNumberGenerator.java:26-35 | stores both limits as given, in the given order |
| Tools.RandomNumberGenerator.Get | src/tools/RandomNumberGenerator.java:41-48 | returns and stores lower + (upper - lower) * r |
| Steering.TurnHeading | src/entity/Entity.java:137-149 | the result is the sum corrected by at most one 360; it stays in [0, 360] for a heading in [0, 360] and a turn in [-360, 360] |
| Steering.TurnUndo | src/entity/Entity.java:137-149 | turning by d and then by -d restores any heading in [0, 360) |
| Steering.TurnKeeps360 | src/entity/Entity.java:141-147 | 360 itself is not reduced, and 350 + 10 gives 360 |
| Steering.MoveQuadrant | src/entity/Entity.java:100-129 | the four angle branches cover every real heading; the first is taken exactly when h <= 90, the last exactly when h > 270 |
| Steering.MoveTarget | src/entity/Entity.java:100-129 | speed 0 leaves the location where it was |
| Steering.Moved | src/entity/Entity.java:78-131 | the previous location becomes the old location; the heading is kept; speed 0 does not move |
| Steering.WrapAxis | src/entity/Entity.java:155-189 | the result is in [0, edge); at or below 0 it jumps to the far side, at or past the edge to 0, otherwise unchanged |
| Steering.Wrapped | src/entity/Entity.java:155-189 | a wrapped position lies inside the 699 × 499 world; heading and previous location are kept |
| Steering.ObstacleAvoided | src/entity/Entity.java:367-391 | the location is kept; inside the 80-radius circle around (350,250) the heading is the steered one minus 180, and outside it just the steered one (both directions) |
| Steering.EvasionClosedForm | src/entity/Entity.java:448-478 | evading a list of predators subtracts half the sum of their bearings from the heading |
| Steering.SumOfBearingsSnoc | src/entity/Entity.java:455-471 | one more predator in sight adds its bearing to the sum |
| Steering.EvasionSplits | src/entity/Entity.java:455-471 | evading two lists in turn is evading their concatenation |
| Steering.AlignmentBlend | src/entity/Entity.java:333-341 | factor 0 leaves a bird unchanged, factor 1 gives the flock angle, and factors in [0, 1] keep the heading between the two |
| Steering.MultiplyWithin | src/entity/Entity.java:336-339 | a factor in [0, 1] scales a non-negative difference into [0, difference] |
| Steering.CohesionThenSeparation | src/entity/Entity.java:293-326 | for a bird, separation with the same factor exactly undoes cohesion, which adds factor × bearing to the centre |
| Steering.PredatorCohesionIgnoresFactor | src/entity/PredatorialEntity.java:35-48 | a predator's cohesion ignores the slider and always uses 0.01 |
| Steering.PredatorSkipsRules | src/entity/PredatorialEntity.java:57-72 | separation, alignment, nest attraction and evasion leave a predator unchanged |
| Steering.Steered | src/FlockingProgram.java:122-138 | after the rules from move to obstacle avoidance, the previous location is the old location; kind, centre and flock angle are kept |
| Steering.Step | src/FlockingProgram.java:120-151 | after one full step the entity is inside the world; its previous location is where it started; kind, centre and flock angle are kept |
| Steering.Relocated | src/entity/RandomEntity.java:75-93 | a point outside the obstacle is kept; a point inside is moved by (-100, -100) |
| Steering.RelocationMayStayInside | src/entity/RandomEntity.java:75-93 | relocating once can leave an entity inside the obstacle: (400,300) goes to (300,200), still inside |
| Steering.PredatorBox | src/entity/PredatorialEntity.java:80-94 | a predator is drawn as four segments forming a closed loop through the corners (x-2, y+2), (x+2, y+2), (x+2, y-2), (x-2, y-2), in that order |
| Steering.Drawn | src/entity/Entity.java:196-198 | an entity draws as many lines as its undraw removes (1 for a bird, 4 for a predator) |
| Steering.ScanCountsAll | src/entity/Entity.java:240-277 | since every entity is inside its own flock box, the scan counts every entity of the list |
| Steering.Average | src/entity/Entity.java:279-284 | an average exists exactly when the count is non-zero, and average × count is the sum |
| Entities.DefaultSpawnRanges | src/entity/RandomEntity.java:22-40 | a random spawn lies in x ∈ [0, 700), y ∈ (0, 500], heading ∈ [0, 360) |
| Entities.FlockSpawnWithinBox | src/entity/RandomEntity.java:51-68 | a flock member spawns between the two box limits on each axis |
| Entities.PredatorsAmong | src/entity/Entity.java:265-271 | exactly the predators of the scanned list are added to those in sight: every one of them, and nothing else |
| Entities.Entity.constructor | src/entity/Entity.java:65-71 | a new entity is a bird at the origin with heading 0, no totals and no predators in sight |
| Entities.Entity.Random | src/entity/RandomEntity.java:22-40 | a bird at the relocated random spawn point with a random heading |
| Entities.Entity.Predator | src/entity/PredatorialEntity.java:21-27 | like a random bird, but a predator |
| Entities.Entity.Flock | src/entity/RandomEntity.java:51-68 | a bird at the relocated point drawn inside the box, with the flock's heading |
| Entities.Entity.PlaceInBox | src/entity/RandomEntity.java:58-63 | the location is drawn between the two box limits |
| Entities.Entity.PlaceAtRandom | src/entity/RandomEntity.java:26-38 | only the location (relocated) and heading change |
| Entities.Entity.CheckIfInsideObstacle | src/entity/RandomEntity.java:75-93 | only the location changes, to its relocation |
| Entities.Entity.Move | src/entity/Entity.java:78-131 | the new state is the move of the old one at the given speed |
| Entities.Entity.StepFromOldLocation | src/entity/Entity.java:100-129 | the location becomes the move target from the old location |
| Entities.Entity.Turn | src/entity/Entity.java:137-149 | the new state is the turn of the old one |
| Entities.Entity.WrapPosition | src/entity/Entity.java:155-189 | the new state is the wrap of the old one |
| Entities.Entity.Draw | src/entity/Entity.java:196-198 | appends exactly the entity's drawing and changes no state |
| Entities.Entity.DrawSquare | src/entity/PredatorialEntity.java:80-94 | appends exactly the predator square around the location |
| Entities.Entity.DrawClosedLoop | src/entity/PredatorialEntity.java:88-93 | appends the four sides a→b→c→d→a |
| Entities.Entity.Undraw | src/entity/Entity.java:203-210 | removes as many lines as this kind of entity draws |
| Entities.Entity.CalculateFlockParameters | src/entity/Entity.java:221-286 | as written: all totals end at 0, no predator is added, the statistics are undefined and the state is unchanged |
| Entities.Entity.ScanFlockBoxes | src/entity/Entity.java:240-277 | the totals are the old totals accumulated over every listed entity's state, and every listed predator is appended to those in sight |
| Entities.Entity.ScanFlockBox | src/entity/Entity.java:244-271 | one entity adds 1 to the count and its x, y and heading to the sums; it is appended to those in sight exactly when it is a predator |
| Entities.Entity.StoreFlockStatistics | src/entity/Entity.java:279-284 | the statistics are defined exactly when the count is non-zero; then centre and flock angle are the averages; location and heading never change |
| Entities.Entity.ApplyCohesion | src/entity/Entity.java:293-306 | the new state is the cohesion of the old one (predator version at PredatorialEntity.java:35-48) |
| Entities.Entity.ApplySeperation | src/entity/Entity.java:313-326 | the new state is the separation of the old one |
| Entities.Entity.ApplyAlignment | src/entity/Entity.java:333-341 | the new state is the alignment of the old one |
| Entities.Entity.ApplyNestAttraction | src/entity/Entity.java:348-361 | the new state is the nest attraction of the old one |
| Entities.Entity.ApplyObstacleAvoidance | src/entity/Entity.java:367-391 | the new state is the obstacle avoidance of the old one |
| Entities.Entity.ApplyCollisions | src/entity/Entity.java:399-443 | no entity's heading changes, whether collision detection is on or off |
| Entities.Entity.CollideAll | src/entity/Entity.java:412-437 | for distinct locations, each entity only hits itself, which turns its heading by +90 and then by -90; that is the identity for headings in [-90, 360) |
| Entities.Entity.ApplyPredator | src/entity/Entity.java:448-478 | a predator is unchanged; a bird's new state is the evasion of the old one from the predators in sight, and the list is then emptied |
| Entities.Entity.FleeFromAll | src/entity/Entity.java:455-471 | the heading becomes the evaded heading over all predators in sight, taken in list order |
| Entities.Entity.SetCurrentLocation | src/entity/Entity.java:497-499 | the entity now holds the given coordinate object, and only its location changes |
| Entities.Entity.SetEntityMovementAngle | src/entity/Entity.java:534-538 | only the heading changes |
| Entities.WellFormedApart | src/FlockingProgram.java:119-152 | entities of a well-formed population are distinct and share no coordinate objects |
| Entities.WellFormedConcat | src/FlockingProgram.java:160-172 | appending a separate well-formed list keeps the population well formed |
| Entities.GettersReadState | src/entity/Entity.java:489-557 | each getter returns the matching part of the entity's state |
| Window.SliderFactor | src/window/Controls.java:248-251 | the factor is a tenth of the slider value and lies in [0, 1] for slider values 0..10 |
| Window.FlockMemberNearCorner | src/window/Controls.java:382-397 | the box corner lies in [20, 680) × [20, 480); before the obstacle check, every flock member spawns at most 20 below and left of it |
| Window.Controls.constructor | src/window/Controls.java:90-98 | default settings (speed 1; cohesion 0.2, alignment 0.1, separation 0.2, nest attraction 0.0; collisions off) and an empty staging list |
| Window.Controls.ToggleCollisions | src/window/Controls.java:202-219 | collision detection flips and nothing else changes |
| Window.Controls.EntitySpeedSliderChanged | src/window/Controls.java:224-237 | speed becomes the slider value and nothing else changes |
| Window.Controls.CohesionFactorSliderChanged | src/window/Controls.java:242-258 | the cohesion factor becomes a tenth of the slider value |
| Window.Controls.SeperationFactorSliderChanged | src/window/Controls.java:264-279 | the separation factor becomes a tenth of the slider value |
| Window.Controls.AlignmentFactorSliderChanged | src/window/Controls.java:284-301 | the alignment factor becomes a tenth of the slider value |
| Window.Controls.NestAttractionFactorSliderChanged | src/window/Controls.java:306-321 | the nest attraction factor becomes a tenth of the slider value |
| Window.Controls.AddRandomEntity | src/window/Controls.java:326-339 | exactly one new random bird is appended and the earlier staged entities are kept |
| Window.Controls.AddRandomPredator | src/window/Controls.java:411-424 | exactly one new random predator is appended and the earlier staged entities are kept |
| Window.Controls.AddFlock | src/window/Controls.java:376-406 | exactly max(size, 0) new separate birds are appended, each with the flock's heading, spawned in the one box; the earlier staged entities are kept |
| Window.Controls.FlockBox | src/window/Controls.java:382-391 | the box corner is drawn in [20, 680) × [20, 480) and the opposite limit is 20 less on both axes |
| Window.Controls.StageFlockMember | src/window/Controls.java:394-402 | one more flock member is appended with the state its draw determines |
| Window.GettersReadSettings | src/window/Controls.java:434-484 | the getters return exactly the settings the tick uses |
| Population.DrawnAll | src/FlockingProgram.java:103-109 | drawing every entity appends as many lines as their footprint |
| Population.UndrawAllRestores | src/FlockingProgram.java:103-152 | undrawing every entity after drawing them all gives back the canvas as it was |
| Population.UndrawnOneMore | src/FlockingProgram.java:150 | undrawing the next entity removes its own line count |
| Population.FootprintBounds | src/FlockingProgram.java:103-109 | a population draws between 1 and 4 lines per entity, exactly 1 per bird |
| Population.StepAll | src/FlockingProgram.java:119-152 | every entity is stepped and none is lost |
| Population.TickStates | src/FlockingProgram.java:94-178 | a tick yields one state per live and staged entity |
| Population.StepAllSplits | src/FlockingProgram.java:119-152 | stepping a list is stepping each part: every entity's step depends only on its own state |
| Population.TickInWorld | src/FlockingProgram.java:119-152 | after a tick every previously live entity is inside the world |
| Population.TickKeepsOrder | src/FlockingProgram.java:154-174 | live entities keep their positions and remember where they were; staged entities follow unchanged, in staging order |
| Population.StagedProcessedNextTick | src/FlockingProgram.java:154-174 | an entity staged during one tick is stepped, at its appended position, in the next |
| Population.TickKeepsFlockDefaults | src/FlockingProgram.java:94-178 | with no flock statistics computed, centre and flock angle stay at their defaults through a tick |
| Population.RunLength | src/FlockingProgram.java:98-176 | after a run the population size is the initial size plus everything staged |
| Population.RunKeepsFlockDefaults | src/FlockingProgram.java:98-176 | centre and flock angle stay at their defaults through any run |
| Simulation.FlockingProgram.constructor | src/FlockingProgram.java:58-86 | fresh canvas, control panel and nest; empty lists, an empty canvas, default settings, the nest at (100, 100), and no flock statistics stored |
| Simulation.FlockingProgram.Tick | src/FlockingProgram.java:98-176 | one loop iteration: the population becomes the old one followed by the staged entities, their states are the tick of the old states, the staging list is emptied and the canvas ends as it began; if no flock statistics were stored before, none are after |
| Simulation.FlockingProgram.DrawAndApplyRules | src/FlockingProgram.java:103-152 | every live entity is stepped and the canvas ends as it began |
| Simulation.FlockingProgram.DrawAll | src/FlockingProgram.java:103-109 | appends every entity's drawing in list order and changes no state |
| Simulation.FlockingProgram.DrawEntity | src/FlockingProgram.java:107 | appends one entity's drawing |
| Simulation.FlockingProgram.ApplyRules | src/FlockingProgram.java:119-152 | every entity is stepped in list order, and the lines the population drew are removed |
| Simulation.FlockingProgram.UpdateEntity | src/FlockingProgram.java:120-151 | one more entity is stepped; the others keep their states |
| Simulation.FlockingProgram.StepLive | src/FlockingProgram.java:120-151 | the i-th entity's state becomes its step under the current settings; no other entity changes |
| Simulation.FlockingProgram.StepEntity | src/FlockingProgram.java:123-150 | the entity's new state is its step; it removes as many of the most recent lines as its kind draws; its predators-in-sight list is emptied |
| Simulation.FlockingProgram.SteerAndEvade | src/FlockingProgram.java:123-144 | the rules up to evasion give the steered state, and no other entity's heading changes |
| Simulation.FlockingProgram.SteerEntity | src/FlockingProgram.java:123-138 | move and the five steering rules give the steered state |
| Simulation.FlockingProgram.AddRandomEntityPressed | src/window/Controls.java:326-339 | one new bird is staged, with the relocated random spawn point, the random heading and the default flock centre and angle; the earlier staged entities are kept; the population stays well formed; if no flock statistics were stored before, none are after |
| Simulation.FlockingProgram.AddRandomPredatorPressed | src/window/Controls.java:411-424 | one new predator is staged, with the relocated random spawn point, the random heading and the default flock centre and angle; the earlier staged entities are kept; the population stays well formed; if no flock statistics were stored before, none are after |
| Simulation.FlockingProgram.AddFlockPressed | src/window/Controls.java:376-406 | max(size, 0) new birds are staged, each with the flock's heading and spawned from its draw in the one box, separate from each other; the population stays well formed; if no flock statistics were stored before, none are after |
| Simulation.FlockingProgram.Merge | src/FlockingProgram.java:154-174 | staged entities are appended in order and both staging lists emptied; nothing changes when none are staged |
| Simulation.FlockingProgram.AppendAll | src/FlockingProgram.java:162-169 | the population becomes the old one followed by the given entities |

## Left out

- Window, Obstacle, Utils, the Swing panels, labels, `repaint` and the 20 ms pause are not part of this model. The canvas is only the list of lines it shows, and the obstacle only its centre and radius.
- `main` and the endless `while (true)` loop are left out: one iteration is `Tick`, and a finite run is `Population.Run`.
- Concurrency is left out. The `synchronized` blocks and the listener threads that append to the staging list are not modelled: a listener runs between ticks.
- The sin, cos and atan functions and `Math.toRadians`/`Math.toDegrees` are uninterpreted parameters. Floating point is modelled as exact reals, with no rounding, infinity or NaN. The 0/0 averages are flagged by `flockStatisticsDefined` instead of stored as NaN.
- `java.util.Random` is left out. Each draw is a caller-supplied value in [0, 1).
- Entities.Entity.SetCurrentLocation: requires a coordinate object that is not one of the entity's other coordinates. Java would accept the shared object, which later aliases oldLocation.
- Removing the most recent line from an empty canvas is modelled as a no-op. What the Java canvas does then is not part of this model.
- `CollideAll` leaves out the throwaway `new Entity(canvas)` that the outer comparison loop would create on each iteration (`src/entity/Entity.java:417`). In the source that loop runs over the empty list put in place at line 405, so no such entity is ever created, and nothing would read one.
- `toString` of coordinates and segments is left out (text output).
- The sliders for flock size and flock angle only update labels. Their values are parameters of `AddFlock`.
- The Controls constructor is handed the program's entity list while that list is still null, and immediately replaces it with a fresh list. The model keeps only the fresh empty list.
- The program's `entitiesToAdd` field aliases the control panel's list. The model keeps both fields and states that both are empty after a tick.
