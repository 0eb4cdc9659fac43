/** The engine's two-component vector, reduced to what the aim pipeline uses.
    Reals stand in for single-precision floats. The engine gets a vector's
    length from a square root, which Dafny does not have, so a vector is held
    here by its direction (a unit vector) and its length; its components are
    the direction scaled by the length. */
module Vectors {

  /** A direction in the plane, as the components of a unit vector. */
  datatype Direction = Direction(dx: real, dy: real) {
    predicate IsUnit() {
      dx * dx + dy * dy == 1.0
    }

    function Opposite(): (r: Direction)
      ensures IsUnit() ==> r.IsUnit()
      ensures r.dx == -dx && r.dy == -dy
    {
      Direction(-dx, -dy)
    }
  }

  /** A vector of length `magnitude` along `direction`. The zero vector has
      length 0 and any direction. */
  datatype Vector2 = Vector2(direction: Direction, magnitude: real) {
    predicate Valid() {
      direction.IsUnit() && magnitude >= 0.0
    }

    function x(): (r: real) {
      direction.dx * magnitude
    }

    function y(): (r: real) {
      direction.dy * magnitude
    }
  }

  function Abs(k: real): (r: real)
    ensures r >= 0.0 && (r == k || r == -k)
  {
    if k < 0.0 then -k else k
  }

  /** `v.normalized`: the unit vector along `v`, or the zero vector when `v` is zero. */
  function Normalized(v: Vector2): (r: Vector2)
    requires v.Valid()
    ensures r.Valid() && r.direction == v.direction
    ensures v.magnitude > 0.0 ==> r.magnitude == 1.0
    ensures v.magnitude == 0.0 ==> r.magnitude == 0.0
    ensures v.x() == 0.0 ==> r.x() == 0.0
    ensures v.y() == 0.0 ==> r.y() == 0.0
  {
    var r := if v.magnitude == 0.0 then v else Vector2(v.direction, 1.0);
    if v.x() == 0.0 then SameLineZeroX(v, r); r
    else if v.y() == 0.0 then SameLineZeroY(v, r); r
    else r
  }

  /** `v * k`: every component is multiplied by `k`; the length by |k|; a
      negative factor turns the vector round. */
  function Scale(v: Vector2, k: real): (r: Vector2)
    requires v.Valid()
    ensures r.Valid()
    ensures r.x() == v.x() * k && r.y() == v.y() * k
    ensures r.magnitude == Abs(k) * v.magnitude
    ensures r.direction == if k < 0.0 then v.direction.Opposite() else v.direction
  {
    if k < 0.0 then
      var r := Vector2(v.direction.Opposite(), -k * v.magnitude);
      assert r.x() == (-v.direction.dx) * (-k * v.magnitude);
      r
    else
      Vector2(v.direction, k * v.magnitude)
  }

  /** A product with a factor in [0, 1] lies between 0 and the other factor. */
  lemma FractionBetween(e: real, p: real)
    requires 0.0 <= p <= 1.0
    ensures e >= 0.0 ==> 0.0 <= e * p <= e
    ensures e <= 0.0 ==> e <= e * p <= 0.0
  {
  }

  /** Multiplying by `k` keeps a value between two bounds between their multiples. */
  lemma ProductBetween(k: real, v: real, lo: real, hi: real)
    requires lo <= v <= hi
    ensures k >= 0.0 ==> k * lo <= k * v <= k * hi
    ensures k <= 0.0 ==> k * hi <= k * v <= k * lo
  {
  }

  /** Dividing by a positive number keeps the order. */
  lemma QuotientsOrdered(a: real, b: real, d: real)
    requires a <= b && d > 0.0
    ensures a / d <= b / d
  {
    var e := 1.0 / d;
    assert e > 0.0 && e * d == 1.0;
    assert a / d == e * a && b / d == e * b;
    ProductBetween(e, a, a, b);
  }

  /** A number at least as large as a positive divisor gives a quotient of at least 1. */
  lemma QuotientAtLeastOne(a: real, d: real)
    requires a >= d > 0.0
    ensures a / d >= 1.0
  {
    var e := 1.0 / d;
    assert e > 0.0 && e * d == 1.0;
    assert a / d == e * a;
    ProductBetween(e, a, d, a);
  }

  /** A vector along or against `v` has no vertical component when `v` has
      none, provided it is zero whenever `v` is. */
  lemma SameLineZeroY(v: Vector2, w: Vector2)
    requires v.y() == 0.0
    requires w.direction == v.direction || w.direction == v.direction.Opposite()
    requires v.magnitude == 0.0 ==> w.magnitude == 0.0
    ensures w.y() == 0.0
  {
    if v.magnitude != 0.0 {
      assert v.direction.dy == v.y() / v.magnitude;
      assert w.direction.dy == 0.0;
    }
  }

  /** The same for the horizontal component. */
  lemma SameLineZeroX(v: Vector2, w: Vector2)
    requires v.x() == 0.0
    requires w.direction == v.direction || w.direction == v.direction.Opposite()
    requires v.magnitude == 0.0 ==> w.magnitude == 0.0
    ensures w.x() == 0.0
  {
    if v.magnitude != 0.0 {
      assert v.direction.dx == v.x() / v.magnitude;
      assert w.direction.dx == 0.0;
    }
  }
}
