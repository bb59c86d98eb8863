/** blockDistance of src/domain/block-operation/validation.ts: how far apart two positions of one dimension
    are, compared with a reach by squares. */
module BlockDistance {

  /** The straight-line distance over these differences is greater than the reach. */
  predicate Farther(dx: real, dy: real, dz: real, reach: real) {
    dx * dx + dy * dy + dz * dz > reach * reach
  }

  function Abs(r: real): real { if r < 0.0 then -r else r }

  lemma SquareOfAbs(r: real)
    ensures Abs(r) * Abs(r) == r * r && r * r >= 0.0
  {
  }

  lemma ProductNonNegative(a: real, b: real)
    requires a >= 0.0 && b >= 0.0
    ensures a * b >= 0.0
  {
  }

  /** Squares of lengths compare as the lengths. */
  lemma SquaresCompare(a: real, b: real)
    requires a >= 0.0 && b >= 0.0
    ensures a * a > b * b <==> a > b
  {
    var d, e := a - b, a + b;
    assert a * a - b * b == d * e;
    if a > b {
      assert d * e > 0.0;
    } else {
      ProductNonNegative(-d, e);
    }
  }

  /** No axis counts more than another, nor its direction. */
  lemma AxesAreAlike(dx: real, dy: real, dz: real, reach: real)
    ensures Farther(dx, dy, dz, reach) == Farther(dy, dx, dz, reach) == Farther(dx, dz, dy, reach)
    ensures Farther(dx, dy, dz, reach) == Farther(-dx, dy, dz, reach)
  {
  }

  /** Along one axis the distance is the difference. */
  lemma AlongAnAxis(d: real, reach: real)
    requires reach >= 0.0
    ensures Farther(d, 0.0, 0.0, reach) <==> Abs(d) > reach
  {
    SquareOfAbs(d);
    SquaresCompare(Abs(d), reach);
  }

  /** A right angle adds squares: what two differences amount to can stand for them. */
  lemma RightAngle(dx: real, dy: real, dz: real, across: real, reach: real)
    requires across * across == dx * dx + dy * dy
    ensures Farther(dx, dy, dz, reach) <==> Farther(across, 0.0, dz, reach)
  {
  }

  /** With a length for the distance, as there is one over the reals, it is the lengths that compare. */
  lemma LengthDecides(length: real, dx: real, dy: real, dz: real, reach: real)
    requires length >= 0.0 && reach >= 0.0 && length * length == dx * dx + dy * dy + dz * dz
    ensures Farther(dx, dy, dz, reach) <==> length > reach
  {
    SquaresCompare(length, reach);
  }

  /** Nothing within reach differs by more than the reach in any coordinate. */
  lemma EachWithinReach(dx: real, dy: real, dz: real, reach: real)
    requires reach >= 0.0 && !Farther(dx, dy, dz, reach)
    ensures Abs(dx) <= reach && Abs(dy) <= reach && Abs(dz) <= reach
  {
    SquareOfAbs(dx);
    SquareOfAbs(dy);
    SquareOfAbs(dz);
    assert dx * dx <= reach * reach && dy * dy <= reach * reach && dz * dz <= reach * reach;
    SquaresCompare(Abs(dx), reach);
    SquaresCompare(Abs(dy), reach);
    SquaresCompare(Abs(dz), reach);
  }
}
