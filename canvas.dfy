/** The drawing surface the entities render on. Its implementation is not part of this
    model: it is kept as the sequence of lines it currently shows. */
module Drawing {
  import opened Geometry

  /** The lines left after removing the k most recent ones; an empty canvas stays empty. */
  function Popped(lines: seq<Segment>, k: nat): (r: seq<Segment>)
    ensures r <= lines
    ensures |r| == if k <= |lines| then |lines| - k else 0
  {
    if k <= |lines| then lines[..|lines| - k] else []
  }

  lemma PoppedTwice(lines: seq<Segment>, a: nat, b: nat)
    ensures Popped(Popped(lines, a), b) == Popped(lines, a + b)
  {
  }

  /** Removing as many lines as were just drawn gives back the canvas as it was. */
  lemma PoppedAfterDrawing(lines: seq<Segment>, drawn: seq<Segment>)
    ensures Popped(lines + drawn, |drawn|) == lines
  {
    assert (lines + drawn)[..|lines|] == lines;
  }

  class Canvas {
    ghost var lines: seq<Segment>

    constructor ()
      ensures lines == []
    {
      lines := [];
    }

    method DrawLineBetweenPoints(start: CartesianCoordinate, end: CartesianCoordinate)
      modifies this
      ensures lines == old(lines) + [Segment(start.Value(), end.Value())]
    {
      lines := lines + [Segment(start.Value(), end.Value())];
    }

    method RemoveMostRecentLine()
      modifies this
      ensures lines == Popped(old(lines), 1)
    {
      lines := Popped(lines, 1);
    }
  }
}
