/** The positioning system of the simulator: a mutable Cartesian coordinate that is
    shared by reference, and a line segment between two such coordinates. */
module Geometry {

  /** The value held by a coordinate at one moment. */
  datatype Point = Point(x: real, y: real)

  /** The value of a line segment at one moment: its two end points. */
  datatype Segment = Segment(start: Point, end: Point)

  const Origin := Point(0.0, 0.0)

  /** A 2-D location whose x and y are overwritten in place by its setters. */
  class CartesianCoordinate {
    var xPosition: real
    var yPosition: real

    ghost function Value(): Point
      reads this
    {
      Point(xPosition, yPosition)
    }

    constructor (x: real, y: real)
      ensures Value() == Point(x, y)
    {
      xPosition := x;
      yPosition := y;
    }

    /** The blank coordinate. */
    constructor Blank()
      ensures Value() == Origin
    {
      xPosition := 0.0;
      yPosition := 0.0;
    }

    function GetX(): real
      reads this
    {
      xPosition
    }

    function GetY(): real
      reads this
    {
      yPosition
    }

    method SetX(x: real)
      modifies this
      ensures GetX() == x && GetY() == old(GetY())
    {
      xPosition := x;
    }

    method SetY(y: real)
      modifies this
      ensures GetY() == y && GetX() == old(GetX())
    {
      yPosition := y;
    }
  }

  /** A line between two coordinate objects; it holds the objects, not copies of them. */
  class LineSegment {
    var ccStart: CartesianCoordinate
    var ccEnd: CartesianCoordinate

    ghost function Value(): Segment
      reads this, ccStart, ccEnd
    {
      Segment(ccStart.Value(), ccEnd.Value())
    }

    constructor (ccStart: CartesianCoordinate, ccEnd: CartesianCoordinate)
      ensures GetStartPoint() == ccStart && GetEndPoint() == ccEnd
    {
      this.ccStart := ccStart;
      this.ccEnd := ccEnd;
    }

    /** The constructor that builds both end points from four numbers. */
    constructor FromDoubles(startX: real, startY: real, endX: real, endY: real)
      ensures fresh(ccStart) && fresh(ccEnd) && ccStart != ccEnd
      ensures Value() == Segment(Point(startX, startY), Point(endX, endY))
    {
      ccStart := new CartesianCoordinate(startX, startY);
      ccEnd := new CartesianCoordinate(endX, endY);
    }

    method SetStartPoint(ccStart: CartesianCoordinate)
      modifies this
      ensures GetStartPoint() == ccStart && GetEndPoint() == old(GetEndPoint())
    {
      this.ccStart := ccStart;
    }

    method SetEndPoint(ccEnd: CartesianCoordinate)
      modifies this
      ensures GetEndPoint() == ccEnd && GetStartPoint() == old(GetStartPoint())
    {
      this.ccEnd := ccEnd;
    }

    function GetStartPoint(): CartesianCoordinate
      reads this
    {
      ccStart
    }

    function GetEndPoint(): CartesianCoordinate
      reads this
    {
      ccEnd
    }
  }
}
