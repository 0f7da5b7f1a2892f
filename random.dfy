/** The random number generator: a uniform draw r in [0, 1) mapped onto the range from
    the lower limit toward the upper one. The draw itself is supplied by the caller. */
module Tools {

  ghost predicate UnitDraw(r: real) {
    0.0 <= r < 1.0
  }

  /** The affine mapping of a draw onto the limits; the limits may be given in either order. */
  function RandomValue(lowerLimit: real, upperLimit: real, r: real): real
  {
    lowerLimit + (upperLimit - lowerLimit) * r
  }

  /** A mapped draw lies between the limits: it may equal the lower limit but never the
      upper one, whichever of the two is the larger. */
  lemma RandomValueInRange(lowerLimit: real, upperLimit: real, r: real)
    requires UnitDraw(r)
    ensures lowerLimit < upperLimit ==> lowerLimit <= RandomValue(lowerLimit, upperLimit, r) < upperLimit
    ensures lowerLimit > upperLimit ==> upperLimit < RandomValue(lowerLimit, upperLimit, r) <= lowerLimit
    ensures lowerLimit == upperLimit ==> RandomValue(lowerLimit, upperLimit, r) == lowerLimit
  {
    var w := upperLimit - lowerLimit;
    var p := w * r;
    assert RandomValue(lowerLimit, upperLimit, r) == lowerLimit + p;
    if w > 0.0 {
      ScaledDraw(w, r, p);
    } else if w < 0.0 {
      NegativeScaledDraw(w, r, p);
    }
  }

  /** A draw scales a positive width into [0, width). */
  lemma ScaledDraw(width: real, r: real, scaled: real)
    requires width > 0.0 && UnitDraw(r) && scaled == width * r
    ensures 0.0 <= scaled < width
  {
    assert width - scaled == width * (1.0 - r);
    assert width * (1.0 - r) > 0.0;
  }

  /** A draw scales a negative width into (width, 0]. */
  lemma NegativeScaledDraw(width: real, r: real, scaled: real)
    requires width < 0.0 && UnitDraw(r) && scaled == width * r
    ensures width < scaled <= 0.0
  {
    var magnitude := -width;
    assert magnitude * r == -scaled;
    ScaledDraw(magnitude, r, -scaled);
  }

  class RandomNumberGenerator {
    var lowerLimit: real
    var upperLimit: real
    var randomValue: real

    constructor (lowerLimit: real, upperLimit: real)
      ensures this.lowerLimit == lowerLimit && this.upperLimit == upperLimit
    {
      this.lowerLimit := lowerLimit;
      this.upperLimit := upperLimit;
      randomValue := 0.0;
    }

    /** Draws a value between the limits, given the uniform draw r. */
    method Get(r: real) returns (v: real)
      requires UnitDraw(r)
      modifies this`randomValue
      ensures v == randomValue == RandomValue(lowerLimit, upperLimit, r)
    {
      randomValue := lowerLimit + (upperLimit - lowerLimit) * r;
      v := randomValue;
    }
  }
}
