/** The program: a canvas, the control panel, the nest at (100,100), the live entities
    and the list the loop takes staged entities from. One pass of the simulation loop is
    a tick: draw every live entity, apply the rules to each and undraw it, then merge the
    staged entities into the live list. */
module Simulation {
  import opened Geometry
  import opened Drawing
  import opened Tools
  import opened Steering
  import opened Entities
  import opened Window
  import opened Population

  /** None of the given entities has had flock statistics stored. */
  ghost predicate AllUnset(es: seq<Entity>)
    reads es`centreOfFlock, es`flockMovementAngle, set e | e in es :: e.centreOfFlock
  {
    forall k :: 0 <= k < |es| ==> es[k].StatisticsUnset()
  }

  lemma UnsetMeansDefaults(es: seq<Entity>)
    ensures AllUnset(es) <==> FlockDefaults(StatesOf(es))
  {
  }

  class FlockingProgram {
    const canvas: Canvas
    const controls: Controls
    const nestLocation: CartesianCoordinate
    var entities: seq<Entity>
    var entitiesToAdd: seq<Entity>

    /** The live entities and the staged ones together form a well-formed population on
        the program's canvas, which the control panel shares. */
    ghost predicate Valid()
      reads this`entities, controls`entitiesToAdd
      reads entities`currentLocation, entities`oldLocation, entities`centreOfFlock, entities`predatorsInSight
      reads controls.entitiesToAdd`currentLocation, controls.entitiesToAdd`oldLocation
      reads controls.entitiesToAdd`centreOfFlock, controls.entitiesToAdd`predatorsInSight
    {
      controls.canvas == canvas && WellFormed(entities + controls.entitiesToAdd, canvas, nestLocation)
    }

    /** No entity, live or staged, has had flock statistics stored: each keeps the flock
        centre and angle it was created with. */
    ghost predicate NoFlockStatistics()
      reads this`entities, controls`entitiesToAdd
      reads entities`centreOfFlock, entities`flockMovementAngle, set e | e in entities :: e.centreOfFlock
      reads controls.entitiesToAdd`centreOfFlock, controls.entitiesToAdd`flockMovementAngle
      reads set e | e in controls.entitiesToAdd :: e.centreOfFlock
    {
      AllUnset(entities) && AllUnset(controls.entitiesToAdd)
    }

    /** The nest's coordinate, which no rule changes. */
    ghost function Nest(): Point
      reads nestLocation
    {
      nestLocation.Value()
    }

    /** The program starts with an empty canvas, no entities, nothing staged and the
        default parameters, with the nest at (100,100). The loop itself is left out. */
    constructor ()
      ensures fresh(canvas) && fresh(controls) && fresh(nestLocation)
      ensures Valid() && NoFlockStatistics()
      ensures entities == [] && entitiesToAdd == [] && controls.entitiesToAdd == []
      ensures canvas.lines == [] && controls.Settings() == DefaultSettings
      ensures Nest() == Point(100.0, 100.0)
    {
      var drawingCanvas := new Canvas();
      canvas := drawingCanvas;
      controls := new Controls(drawingCanvas, []);
      entities := [];
      entitiesToAdd := [];
      nestLocation := new CartesianCoordinate(100.0, 100.0);
    }

    /** The first i live entities have taken their step from the given states; the others
        still have them. */
    ghost predicate SteppedUpTo(i: nat, states: seq<EntityState>, p: Parameters, nest: Point, trig: Trig)
      reads this`entities, entities
      reads set e | e in entities :: e.currentLocation, set e | e in entities :: e.oldLocation
      reads set e | e in entities :: e.centreOfFlock
    {
      i <= |entities| == |states| &&
      forall k :: 0 <= k < |entities| ==>
        entities[k].State() == if k < i then Step(states[k], p, nest, trig) else states[k]
    }

    /** The staged entities have the given states. */
    ghost predicate StagedAre(staged: seq<EntityState>)
      reads controls`entitiesToAdd, controls.entitiesToAdd
      reads set e | e in controls.entitiesToAdd :: e.currentLocation
      reads set e | e in controls.entitiesToAdd :: e.oldLocation
      reads set e | e in controls.entitiesToAdd :: e.centreOfFlock
    {
      |staged| == |controls.entitiesToAdd| &&
      forall k :: 0 <= k < |controls.entitiesToAdd| ==> controls.entitiesToAdd[k].State() == staged[k]
    }

    // -------------------------------------------------------------- one tick

    /** One pass of the simulation loop. Every live entity takes one step with the
        parameters on the control panel, the canvas ends as it began, and what was staged
        joins the live list, in order, without having been stepped. */
    method Tick(trig: Trig)
      requires Valid()
      modifies canvas, this`entities, this`entitiesToAdd, controls`entitiesToAdd
      modifies entities`entityMovementAngle, entities`predatorsInSight
      modifies entities`topLeftOfPredator, entities`topRightOfPredator
      modifies entities`bottomLeftOfPredator, entities`bottomRightOfCoordinate
      modifies set e | e in entities :: e.currentLocation, set e | e in entities :: e.oldLocation
      ensures Valid()
      ensures entities == old(entities) + old(controls.entitiesToAdd)
      ensures entitiesToAdd == [] && controls.entitiesToAdd == []
      ensures canvas.lines == old(canvas.lines)
      ensures StatesOf(entities) ==
                TickStates(old(StatesOf(entities)), old(StatesOf(controls.entitiesToAdd)), old(controls.Settings()), Nest(), trig)
      ensures old(NoFlockStatistics()) ==> NoFlockStatistics()
    {
      ghost var live := StatesOf(entities);
      ghost var staged := StatesOf(controls.entitiesToAdd);
      ghost var p := controls.Settings();
      ghost var nest := Nest();
      ghost var unset := NoFlockStatistics();
      assert unset ==> FlockDefaults(live) && FlockDefaults(staged) by {
        UnsetMeansDefaults(entities);
        UnsetMeansDefaults(controls.entitiesToAdd);
      }
      DrawAndApplyRules(trig, live, staged, p, nest);
      Merge(StepAll(live, p, nest, trig), staged);
      StatesOfAll(entities, StepAll(live, p, nest, trig) + staged);
      if unset {
        assert NoFlockStatistics() by {
          TickKeepsFlockDefaults(live, staged, p, nest, trig);
          UnsetMeansDefaults(entities);
        }
      }
    }

    /** The draw phase followed by the rule loop: every live entity steps, and the
        canvas is left as it was. */
    method DrawAndApplyRules(trig: Trig, ghost states: seq<EntityState>, ghost staged: seq<EntityState>,
                             ghost p: Parameters, ghost nest: Point)
      requires Valid() && controls.Settings() == p && Nest() == nest
      requires |states| == |entities| && forall k :: 0 <= k < |entities| ==> entities[k].State() == states[k]
      requires |staged| == |controls.entitiesToAdd| &&
               forall k :: 0 <= k < |controls.entitiesToAdd| ==> controls.entitiesToAdd[k].State() == staged[k]
      modifies canvas
      modifies entities`entityMovementAngle, entities`predatorsInSight
      modifies entities`topLeftOfPredator, entities`topRightOfPredator
      modifies entities`bottomLeftOfPredator, entities`bottomRightOfCoordinate
      modifies set e | e in entities :: e.currentLocation, set e | e in entities :: e.oldLocation
      ensures Valid() && Nest() == nest
      ensures canvas.lines == old(canvas.lines)
      ensures forall k :: 0 <= k < |entities| ==> entities[k].State() == StepAll(states, p, nest, trig)[k]
      ensures forall k :: 0 <= k < |controls.entitiesToAdd| ==> controls.entitiesToAdd[k].State() == staged[k]
    {
      DrawAll(states, staged);
      ApplyRules(trig, states, staged, p, nest);
      UndrawAllRestores(old(canvas.lines), states);
    }

    /** The states after the merge are those of the stepped live entities followed by
        those of the staged ones. */
    lemma StatesOfAll(all: seq<Entity>, states: seq<EntityState>)
      requires |all| == |states| && forall k :: 0 <= k < |all| ==> all[k].State() == states[k]
      ensures StatesOf(all) == states
    {
    }

    /** The draw phase: every live entity, in list order, puts its lines on the canvas. */
    method DrawAll(ghost states: seq<EntityState>, ghost staged: seq<EntityState>)
      requires Valid()
      requires |states| == |entities| && forall k :: 0 <= k < |entities| ==> entities[k].State() == states[k]
      requires |staged| == |controls.entitiesToAdd| &&
               forall k :: 0 <= k < |controls.entitiesToAdd| ==> controls.entitiesToAdd[k].State() == staged[k]
      modifies canvas
      modifies entities`topLeftOfPredator, entities`topRightOfPredator
      modifies entities`bottomLeftOfPredator, entities`bottomRightOfCoordinate
      ensures Valid()
      ensures canvas.lines == old(canvas.lines) + DrawnAll(states)
      ensures forall k :: 0 <= k < |entities| ==> entities[k].State() == states[k]
      ensures forall k :: 0 <= k < |controls.entitiesToAdd| ==>
                controls.entitiesToAdd[k].State() == staged[k]
    {
      ghost var lines0 := canvas.lines;
      var i := 0;
      while i < |entities|
        invariant 0 <= i <= |entities|
        invariant Valid()
        invariant canvas.lines == lines0 + DrawnAll(states[..i])
        invariant forall k :: 0 <= k < |entities| ==> entities[k].State() == states[k]
        invariant forall k :: 0 <= k < |controls.entitiesToAdd| ==>
                    controls.entitiesToAdd[k].State() == staged[k]
      {
        DrawEntity(i, lines0, states, staged);
        i := i + 1;
      }
      assert states[..|entities|] == states;
    }

    /** One iteration of the draw phase, on the i-th live entity. */
    method DrawEntity(i: nat, ghost lines0: seq<Segment>, ghost states: seq<EntityState>, ghost staged: seq<EntityState>)
      requires Valid() && i < |entities| == |states|
      requires entities[i].State() == states[i]
      requires canvas.lines == lines0 + DrawnAll(states[..i])
      requires |staged| == |controls.entitiesToAdd| &&
               forall k :: 0 <= k < |controls.entitiesToAdd| ==> controls.entitiesToAdd[k].State() == staged[k]
      modifies canvas
      modifies {entities[i]}`topLeftOfPredator, {entities[i]}`topRightOfPredator
      modifies {entities[i]}`bottomLeftOfPredator, {entities[i]}`bottomRightOfCoordinate
      ensures Valid()
      ensures canvas.lines == lines0 + DrawnAll(states[..i + 1])
      ensures forall k :: 0 <= k < |entities| ==> entities[k].State() == old(entities[k].State())
      ensures forall k :: 0 <= k < |controls.entitiesToAdd| ==>
                controls.entitiesToAdd[k].State() == staged[k]
    {
      var entity := entities[i];
      assert entity.ReadyOn(canvas) by {
        assert (entities + controls.entitiesToAdd)[i] == entity;
      }
      entity.Draw();
      DrawnAllPrefix(states, i);
      assert canvas.lines == lines0 + (DrawnAll(states[..i]) + Drawn(states[i]));
    }

    /** The rule loop: each live entity in turn moves, applies cohesion, separation,
        alignment, nest attraction, obstacle avoidance, collisions and predator evasion,
        wraps and is undrawn. */
    method ApplyRules(trig: Trig, ghost states: seq<EntityState>, ghost staged: seq<EntityState>,
                      ghost p: Parameters, ghost nest: Point)
      requires Valid() && controls.Settings() == p && Nest() == nest
      requires |states| == |entities| && forall k :: 0 <= k < |entities| ==> entities[k].State() == states[k]
      requires StagedAre(staged)
      modifies canvas
      modifies entities`entityMovementAngle, entities`predatorsInSight
      modifies set e | e in entities :: e.currentLocation, set e | e in entities :: e.oldLocation
      ensures Valid() && Nest() == nest && StagedAre(staged)
      ensures canvas.lines == Popped(old(canvas.lines), Footprint(states))
      ensures forall k :: 0 <= k < |entities| ==> entities[k].State() == StepAll(states, p, nest, trig)[k]
    {
      ghost var lines0 := canvas.lines;
      var i := 0;
      while i < |entities|
        invariant 0 <= i <= |entities|
        invariant Valid() && Nest() == nest && StagedAre(staged)
        invariant canvas.lines == Popped(lines0, Footprint(states[..i]))
        invariant SteppedUpTo(i, states, p, nest, trig)
      {
        UpdateEntity(i, trig, lines0, states, staged, p, nest);
        i := i + 1;
      }
      assert states[..|entities|] == states;
    }

    /** One iteration of the rule loop, on the i-th live entity. No other entity changes:
        the collision rule is given the live list but turns nobody. */
    method UpdateEntity(i: nat, trig: Trig, ghost lines0: seq<Segment>, ghost states: seq<EntityState>,
                        ghost staged: seq<EntityState>, ghost p: Parameters, ghost nest: Point)
      requires Valid() && i < |entities| && SteppedUpTo(i, states, p, nest, trig) && StagedAre(staged)
      requires controls.Settings() == p && Nest() == nest
      requires canvas.lines == Popped(lines0, Footprint(states[..i]))
      modifies canvas, entities`entityMovementAngle, {entities[i]}`predatorsInSight
      modifies entities[i].currentLocation, entities[i].oldLocation
      ensures Valid() && Nest() == nest && SteppedUpTo(i + 1, states, p, nest, trig) && StagedAre(staged)
      ensures canvas.lines == Popped(lines0, Footprint(states[..i + 1]))
    {
      assert entities[i].State() == states[i];
      StepLive(i, trig);
      UndrawnOneMore(lines0, states, i);
      forall k | 0 <= k < |entities|
        ensures entities[k].State() == if k < i + 1 then Step(states[k], p, nest, trig) else states[k]
      {
        if k != i {
          assert entities[k].State() == old(entities[k].State());
        }
      }
    }

    /** The i-th live entity takes its step. No other entity changes: the collision rule is
        given the live list but turns nobody. */
    method StepLive(i: nat, trig: Trig)
      requires Valid() && i < |entities|
      modifies canvas, entities`entityMovementAngle, {entities[i]}`predatorsInSight
      modifies entities[i].currentLocation, entities[i].oldLocation
      ensures Valid() && Nest() == old(Nest())
      ensures entities[i].State() == Step(old(entities[i].State()), controls.Settings(), Nest(), trig)
      ensures canvas.lines == Popped(old(canvas.lines), LinesPerDraw(entities[i].isAPredator))
      ensures forall k :: 0 <= k < |entities| && k != i ==> entities[k].State() == old(entities[k].State())
      ensures forall k :: 0 <= k < |controls.entitiesToAdd| ==>
                controls.entitiesToAdd[k].State() == old(controls.entitiesToAdd[k].State())
    {
      ghost var all := entities + controls.entitiesToAdd;
      var entity := entities[i];
      assert all[i] == entity;
      forall k | 0 <= k < |all| && k != i
        ensures all[k] != entity && all[k].Coords() !! entity.Coords()
      {
        WellFormedApart(all, canvas, nestLocation, k, i);
      }
      StepEntity(entity, trig);
      forall k | 0 <= k < |entities| && k != i
        ensures entities[k].State() == old(entities[k].State())
      {
        assert all[k] == entities[k];
      }
      assert Valid() by {
        assert entities + controls.entitiesToAdd == all;
      }
      forall k | 0 <= k < |controls.entitiesToAdd|
        ensures controls.entitiesToAdd[k].State() == old(controls.entitiesToAdd[k].State())
      {
        assert all[|entities| + k] == controls.entitiesToAdd[k];
      }
    }

    /** The rules themselves, applied to one live entity in the loop's order. */
    method StepEntity(entity: Entity, trig: Trig)
      requires entity in entities && entity.ReadyOn(canvas) && nestLocation !in entity.Coords()
      modifies canvas, entities`entityMovementAngle, entity`predatorsInSight
      modifies entity.currentLocation, entity.oldLocation
      ensures entity.State() == Step(old(entity.State()), controls.Settings(), Nest(), trig)
      ensures canvas.lines == Popped(old(canvas.lines), LinesPerDraw(entity.isAPredator))
      ensures entity.predatorsInSight == []
      ensures forall e :: e in entities && e != entity ==> e.entityMovementAngle == old(e.entityMovementAngle)
    {
      SteerAndEvade(entity, trig);
      entity.WrapPosition();
      entity.Undraw();
    }

    /** Every rule of the loop but the wrap: the heading rules, collisions, which turn
        nobody, and predator evasion, which finds no predator in sight. */
    method SteerAndEvade(entity: Entity, trig: Trig)
      requires entity in entities && entity.ReadyOn(canvas) && nestLocation !in entity.Coords()
      modifies entities`entityMovementAngle, entity`predatorsInSight
      modifies entity.currentLocation, entity.oldLocation
      ensures entity.Valid() && entity.predatorsInSight == []
      ensures entity.State() == Evaded(Steered(old(entity.State()), controls.Settings(), Nest(), trig), [], trig)
      ensures forall e :: e in entities && e != entity ==> e.entityMovementAngle == old(e.entityMovementAngle)
    {
      SteerEntity(entity, trig);
      ghost var steered := entity.State();
      entity.ApplyCollisions(entities, controls.IsCollisionDetection());
      assert entity.State() == steered;
      entity.ApplyPredator(trig);
    }

    /** Movement and the heading rules up to obstacle avoidance. */
    method SteerEntity(entity: Entity, trig: Trig)
      requires entity.Valid() && nestLocation !in entity.Coords()
      modifies entity.currentLocation, entity.oldLocation, entity`entityMovementAngle
      ensures entity.State() == Steered(old(entity.State()), controls.Settings(), Nest(), trig)
    {
      entity.Move(controls.GetSpeed(), trig);
      entity.ApplyCohesion(controls.GetCohesionFactor(), trig);
      entity.ApplySeperation(controls.GetSeperationFactor(), trig);
      entity.ApplyAlignment(controls.GetAlignmentFactor());
      entity.ApplyNestAttraction(nestLocation, controls.GetNestAttractionFactor(), trig);
      entity.ApplyObstacleAvoidance(trig);
    }

    // -------------------------------------------------------------- control panel actions

    /** The add-random-entity button, pressed between two ticks. The new entity is
        staged, and the population stays well formed. */
    method AddRandomEntityPressed(rx: real, ry: real, ra: real)
      requires Valid() && UnitDraw(rx) && UnitDraw(ry) && UnitDraw(ra)
      modifies controls`entitiesToAdd
      ensures Valid()
      ensures |controls.entitiesToAdd| == |old(controls.entitiesToAdd)| + 1
      ensures controls.entitiesToAdd[..|old(controls.entitiesToAdd)|] == old(controls.entitiesToAdd)
      ensures !controls.entitiesToAdd[|old(controls.entitiesToAdd)|].State().predator
      ensures controls.entitiesToAdd[|old(controls.entitiesToAdd)|].State() ==
                EntityState(Relocated(DefaultSpawnPoint(rx, ry)), Origin, DefaultSpawnHeading(ra), Origin, 0.0, false)
      ensures old(NoFlockStatistics()) ==> NoFlockStatistics()
    {
      ghost var all := entities + controls.entitiesToAdd;
      controls.AddRandomEntity(rx, ry, ra);
      ghost var added := controls.entitiesToAdd[|old(controls.entitiesToAdd)|..];
      assert controls.entitiesToAdd == old(controls.entitiesToAdd) + added;
      assert WellFormed(added, canvas, nestLocation) by {
        forall k | 0 <= k < |added|
          ensures added[k].ReadyOn(canvas) && nestLocation !in added[k].Coords()
        {
          assert added[k] == controls.entitiesToAdd[|old(controls.entitiesToAdd)| + k];
        }
      }
      forall k, l | 0 <= k < |all| && 0 <= l < |added|
        ensures Separate(all[k], added[l])
      {
        assert added[l] == controls.entitiesToAdd[|old(controls.entitiesToAdd)| + l];
      }
      WellFormedConcat(all, added, canvas, nestLocation);
      assert entities + controls.entitiesToAdd == all + added;
    }

    /** The add-predator button, pressed between two ticks. */
    method AddRandomPredatorPressed(rx: real, ry: real, ra: real)
      requires Valid() && UnitDraw(rx) && UnitDraw(ry) && UnitDraw(ra)
      modifies controls`entitiesToAdd
      ensures Valid()
      ensures |controls.entitiesToAdd| == |old(controls.entitiesToAdd)| + 1
      ensures controls.entitiesToAdd[..|old(controls.entitiesToAdd)|] == old(controls.entitiesToAdd)
      ensures controls.entitiesToAdd[|old(controls.entitiesToAdd)|].State().predator
      ensures controls.entitiesToAdd[|old(controls.entitiesToAdd)|].State() ==
                EntityState(Relocated(DefaultSpawnPoint(rx, ry)), Origin, DefaultSpawnHeading(ra), Origin, 0.0, true)
      ensures old(NoFlockStatistics()) ==> NoFlockStatistics()
    {
      ghost var all := entities + controls.entitiesToAdd;
      controls.AddRandomPredator(rx, ry, ra);
      ghost var added := controls.entitiesToAdd[|old(controls.entitiesToAdd)|..];
      assert controls.entitiesToAdd == old(controls.entitiesToAdd) + added;
      assert WellFormed(added, canvas, nestLocation) by {
        forall k | 0 <= k < |added|
          ensures added[k].ReadyOn(canvas) && nestLocation !in added[k].Coords()
        {
          assert added[k] == controls.entitiesToAdd[|old(controls.entitiesToAdd)| + k];
        }
      }
      forall k, l | 0 <= k < |all| && 0 <= l < |added|
        ensures Separate(all[k], added[l])
      {
        assert added[l] == controls.entitiesToAdd[|old(controls.entitiesToAdd)| + l];
      }
      WellFormedConcat(all, added, canvas, nestLocation);
      assert entities + controls.entitiesToAdd == all + added;
    }

    /** The add-flock button, pressed between two ticks. */
    method AddFlockPressed(sizeOfFlock: int, angleOfFlock: int, boxX: real, boxY: real, draws: seq<(real, real)>)
      requires Valid() && UnitDraw(boxX) && UnitDraw(boxY)
      requires FlockCount(sizeOfFlock) <= |draws|
      requires forall k :: 0 <= k < |draws| ==> UnitDraw(draws[k].0) && UnitDraw(draws[k].1)
      modifies controls`entitiesToAdd
      ensures Valid()
      ensures |controls.entitiesToAdd| == |old(controls.entitiesToAdd)| + FlockCount(sizeOfFlock)
      ensures controls.entitiesToAdd[..|old(controls.entitiesToAdd)|] == old(controls.entitiesToAdd)
      ensures forall k :: |old(controls.entitiesToAdd)| <= k < |controls.entitiesToAdd| ==>
                !controls.entitiesToAdd[k].State().predator && controls.entitiesToAdd[k].State().heading == angleOfFlock as real
      ensures FlockStaged(controls.entitiesToAdd[|old(controls.entitiesToAdd)|..], canvas, FlockBoxCorner(boxX, boxY), angleOfFlock, draws)
      ensures old(NoFlockStatistics()) ==> NoFlockStatistics()
    {
      ghost var all := entities + controls.entitiesToAdd;
      ghost var unset := NoFlockStatistics();
      controls.AddFlock(sizeOfFlock, angleOfFlock, boxX, boxY, draws);
      ghost var added := controls.entitiesToAdd[|old(controls.entitiesToAdd)|..];
      assert controls.entitiesToAdd == old(controls.entitiesToAdd) + added;
      assert WellFormed(all + added, canvas, nestLocation) by {
        assert WellFormed(added, canvas, nestLocation) by {
          forall k | 0 <= k < |added|
            ensures nestLocation !in added[k].Coords()
          {
            assert added[k] == controls.entitiesToAdd[|old(controls.entitiesToAdd)| + k];
          }
        }
        forall k, l | 0 <= k < |all| && 0 <= l < |added|
          ensures Separate(all[k], added[l])
        {
          assert added[l] == controls.entitiesToAdd[|old(controls.entitiesToAdd)| + l];
        }
        WellFormedConcat(all, added, canvas, nestLocation);
      }
      assert entities + controls.entitiesToAdd == all + added;
      if unset {
        assert AllUnset(controls.entitiesToAdd) by {
          forall k | 0 <= k < |controls.entitiesToAdd|
            ensures controls.entitiesToAdd[k].StatisticsUnset()
          {
            if k >= |old(controls.entitiesToAdd)| {
              assert controls.entitiesToAdd[k] == added[k - |old(controls.entitiesToAdd)|];
            }
          }
        }
      }
    }

    /** The merge: the loop takes the control panel's staging list and, when it is not
        empty, appends its entities to the live list in order and clears it. The two
        names refer to the same list, so the control panel's list is cleared too. */
    method Merge(ghost front: seq<EntityState>, ghost back: seq<EntityState>)
      requires Valid()
      requires |entities| == |front| && forall k :: 0 <= k < |entities| ==> entities[k].State() == front[k]
      requires |controls.entitiesToAdd| == |back| &&
               forall k :: 0 <= k < |controls.entitiesToAdd| ==> controls.entitiesToAdd[k].State() == back[k]
      modifies this`entities, this`entitiesToAdd, controls`entitiesToAdd
      ensures Valid()
      ensures entities == old(entities) + old(controls.entitiesToAdd)
      ensures entitiesToAdd == [] && controls.entitiesToAdd == []
      ensures old(controls.entitiesToAdd) == [] ==> entities == old(entities)
      ensures |entities| == |front + back| && forall k :: 0 <= k < |entities| ==> entities[k].State() == (front + back)[k]
    {
      entitiesToAdd := controls.GetEntitiesToAdd();
      if |entitiesToAdd| != 0 {
        AppendAll(entitiesToAdd);
        entitiesToAdd := [];
        controls.entitiesToAdd := [];
      }
      assert entities + controls.entitiesToAdd == old(entities) + old(controls.entitiesToAdd);
    }

    /** The merge loop: appends the given entities to the live list, one by one. */
    method AppendAll(pending: seq<Entity>)
      modifies this`entities
      ensures entities == old(entities) + pending
    {
      var i := 0;
      while i < |pending|
        invariant 0 <= i <= |pending|
        invariant entities == old(entities) + pending[..i]
      {
        entities := entities + [pending[i]];
        assert pending[..i + 1] == pending[..i] + [pending[i]];
        i := i + 1;
      }
      assert pending[..i] == pending;
    }
  }
}
