/** One tick of the simulation loop over the whole population, as functions of the
    entities' states: the draw phase, the rule loop and the merge of staged entities.
    The program class in module Simulation carries the tick out in place and is proved
    to agree with these. */
module Population {
  import opened Geometry
  import opened Drawing
  import opened Steering

  // ---------------------------------------------------------------- the canvas

  /** How many lines the population puts on the canvas when drawn. */
  function Footprint(states: seq<EntityState>): nat
    decreases |states|
  {
    if states == [] then 0
    else Footprint(states[..|states| - 1]) + LinesPerDraw(states[|states| - 1].predator)
  }

  /** What the draw phase puts on the canvas: each entity's lines, in list order. */
  function DrawnAll(states: seq<EntityState>): (r: seq<Segment>)
    ensures |r| == Footprint(states)
    decreases |states|
  {
    if states == [] then []
    else DrawnAll(states[..|states| - 1]) + Drawn(states[|states| - 1])
  }

  /** Drawing one more entity of the list adds its lines on top. */
  lemma DrawnAllPrefix(states: seq<EntityState>, i: nat)
    requires i < |states|
    ensures DrawnAll(states[..i + 1]) == DrawnAll(states[..i]) + Drawn(states[i])
  {
    assert states[..i + 1][..i] == states[..i];
  }

  /** The rule loop undraws in list order, each entity popping the most recent lines, so
      an entity need not remove the lines it drew; but all together they remove exactly
      what the draw phase added. */
  lemma UndrawAllRestores(lines: seq<Segment>, states: seq<EntityState>)
    ensures Popped(lines + DrawnAll(states), Footprint(states)) == lines
  {
    PoppedAfterDrawing(lines, DrawnAll(states));
  }

  /** Undrawing one more entity of the list pops that entity's count of lines. */
  lemma FootprintPrefix(states: seq<EntityState>, i: nat)
    requires i < |states|
    ensures Footprint(states[..i + 1]) == Footprint(states[..i]) + LinesPerDraw(states[i].predator)
  {
    assert states[..i + 1][..i] == states[..i];
  }

  /** After the first i entities of the list have been undrawn, undrawing the next one
      leaves the canvas as if the first i + 1 had been undrawn together. */
  lemma UndrawnOneMore(lines: seq<Segment>, states: seq<EntityState>, i: nat)
    requires i < |states|
    ensures Popped(Popped(lines, Footprint(states[..i])), LinesPerDraw(states[i].predator)) ==
            Popped(lines, Footprint(states[..i + 1]))
  {
    FootprintPrefix(states, i);
    PoppedTwice(lines, Footprint(states[..i]), LinesPerDraw(states[i].predator));
  }

  /** A predator among the drawn entities adds four lines, any other entity one. */
  lemma {:induction false} FootprintBounds(states: seq<EntityState>)
    ensures |states| <= Footprint(states) <= 4 * |states|
    ensures (forall k :: 0 <= k < |states| ==> !states[k].predator) ==> Footprint(states) == |states|
    decreases |states|
  {
    if states != [] {
      var prefix := states[..|states| - 1];
      assert forall k :: 0 <= k < |prefix| ==> prefix[k] == states[k];
      FootprintBounds(prefix);
    }
  }

  // ---------------------------------------------------------------- the tick

  /** The rule loop: every live entity takes one step with the same parameters. */
  function StepAll(states: seq<EntityState>, p: Parameters, nest: Point, trig: Trig): (r: seq<EntityState>)
    ensures |r| == |states|
  {
    seq(|states|, k requires 0 <= k < |states| => Step(states[k], p, nest, trig))
  }

  /** A tick: the live entities step, then the staged ones are appended unstepped. */
  function TickStates(live: seq<EntityState>, staged: seq<EntityState>, p: Parameters, nest: Point, trig: Trig): (r: seq<EntityState>)
    ensures |r| == |live| + |staged|
  {
    StepAll(live, p, nest, trig) + staged
  }

  /** Each entity's step depends on no other entity: stepping a list is stepping its
      parts. */
  lemma StepAllSplits(a: seq<EntityState>, b: seq<EntityState>, p: Parameters, nest: Point, trig: Trig)
    ensures StepAll(a + b, p, nest, trig) == StepAll(a, p, nest, trig) + StepAll(b, p, nest, trig)
  {
    var whole := StepAll(a + b, p, nest, trig);
    var parts := StepAll(a, p, nest, trig) + StepAll(b, p, nest, trig);
    assert forall k :: 0 <= k < |whole| ==> whole[k] == parts[k] by {
      forall k | 0 <= k < |whole|
        ensures whole[k] == parts[k]
      {
        if k < |a| {
          assert (a + b)[k] == a[k];
        } else {
          assert (a + b)[k] == b[k - |a|];
        }
      }
    }
  }

  /** After a tick, every entity the rule loop processed lies in the wrapped world. */
  lemma TickInWorld(live: seq<EntityState>, staged: seq<EntityState>, p: Parameters, nest: Point, trig: Trig)
    ensures forall k :: 0 <= k < |live| ==> InWorld(TickStates(live, staged, p, nest, trig)[k].location)
  {
    var r := TickStates(live, staged, p, nest, trig);
    forall k | 0 <= k < |live|
      ensures InWorld(r[k].location)
    {
      assert r[k] == Step(live[k], p, nest, trig);
    }
  }

  /** The live list never shrinks: the old entities keep their places, each having taken
      one step, and the staged ones follow, in order and not yet stepped. */
  lemma TickKeepsOrder(live: seq<EntityState>, staged: seq<EntityState>, p: Parameters, nest: Point, trig: Trig)
    ensures |TickStates(live, staged, p, nest, trig)| >= |live|
    ensures forall k :: 0 <= k < |live| ==>
              TickStates(live, staged, p, nest, trig)[k].previous == live[k].location
    ensures TickStates(live, staged, p, nest, trig)[|live|..] == staged
  {
    var r := TickStates(live, staged, p, nest, trig);
    forall k | 0 <= k < |live|
      ensures r[k].previous == live[k].location
    {
      assert r[k] == Step(live[k], p, nest, trig);
    }
  }

  /** An entity staged before a merge is first processed by the rule loop in the next
      tick, with the parameters of that tick. */
  lemma StagedProcessedNextTick(live: seq<EntityState>, staged: seq<EntityState>, later: seq<EntityState>,
                                p: Parameters, q: Parameters, nest: Point, trig: Trig)
    ensures var next := TickStates(TickStates(live, staged, p, nest, trig), later, q, nest, trig);
            forall k :: 0 <= k < |staged| ==> next[|live| + k] == Step(staged[k], q, nest, trig)
  {
    var once := TickStates(live, staged, p, nest, trig);
    var next := TickStates(once, later, q, nest, trig);
    forall k | 0 <= k < |staged|
      ensures next[|live| + k] == Step(staged[k], q, nest, trig)
    {
      assert once[|live| + k] == staged[k];
      assert next[|live| + k] == Step(once[|live| + k], q, nest, trig);
    }
  }

  /** Every entity still has the flock centre and angle it was created with. */
  ghost predicate FlockDefaults(states: seq<EntityState>) {
    forall k :: 0 <= k < |states| ==> states[k].centre == Origin && states[k].flockAngle == 0.0
  }

  /** Since the flock statistics are never computed, a tick keeps every entity's flock
      centre at (0,0) and flock angle at 0. */
  lemma TickKeepsFlockDefaults(live: seq<EntityState>, staged: seq<EntityState>, p: Parameters, nest: Point, trig: Trig)
    requires FlockDefaults(live) && FlockDefaults(staged)
    ensures FlockDefaults(TickStates(live, staged, p, nest, trig))
  {
    var r := TickStates(live, staged, p, nest, trig);
    forall k | 0 <= k < |r|
      ensures r[k].centre == Origin && r[k].flockAngle == 0.0
    {
      if k < |live| {
        assert r[k] == Step(live[k], p, nest, trig);
      } else {
        assert r[k] == staged[k - |live|];
      }
    }
  }

  // ---------------------------------------------------------------- many ticks

  /** The population after one tick per entry of settings, staged[t] being what was
      staged during tick t. */
  function Run(states: seq<EntityState>, staged: seq<seq<EntityState>>, settings: seq<Parameters>,
               nest: Point, trig: Trig): seq<EntityState>
    requires |staged| == |settings|
    decreases |settings|
  {
    if settings == [] then states
    else
      var t := |settings| - 1;
      TickStates(Run(states, staged[..t], settings[..t], nest, trig), staged[t], settings[t], nest, trig)
  }

  /** The total of the sizes of the given lists. */
  function TotalSize(lists: seq<seq<EntityState>>): nat
    decreases |lists|
  {
    if lists == [] then 0 else TotalSize(lists[..|lists| - 1]) + |lists[|lists| - 1]|
  }

  /** Over many ticks the population grows by exactly what was staged: nothing is lost. */
  lemma {:induction false} RunLength(states: seq<EntityState>, staged: seq<seq<EntityState>>, settings: seq<Parameters>,
                                     nest: Point, trig: Trig)
    requires |staged| == |settings|
    ensures |Run(states, staged, settings, nest, trig)| == |states| + TotalSize(staged)
    decreases |settings|
  {
    if settings != [] {
      var t := |settings| - 1;
      RunLength(states, staged[..t], settings[..t], nest, trig);
    }
  }

  /** Over many ticks, as long as every staged entity starts with the flock defaults,
      every entity keeps them. */
  lemma {:induction false} RunKeepsFlockDefaults(states: seq<EntityState>, staged: seq<seq<EntityState>>,
                                                 settings: seq<Parameters>, nest: Point, trig: Trig)
    requires |staged| == |settings|
    requires FlockDefaults(states)
    requires forall t :: 0 <= t < |staged| ==> FlockDefaults(staged[t])
    ensures FlockDefaults(Run(states, staged, settings, nest, trig))
    decreases |settings|
  {
    if settings != [] {
      var t := |settings| - 1;
      RunKeepsFlockDefaults(states, staged[..t], settings[..t], nest, trig);
      TickKeepsFlockDefaults(Run(states, staged[..t], settings[..t], nest, trig), staged[t], settings[t], nest, trig);
    }
  }
}
