/**
 * The ball bound of the tree index: a center and a radius, where a negative
 * radius is the sentinel for an empty (not yet computed) bound.  It answers
 * distance-range queries against points and other balls, and grows greedily
 * to take in the columns of a data matrix.
 *
 * Vectors are sequences of reals.  Euclidean distance is not computable over
 * Dafny's reals (there is no square root), so every query takes the distance
 * function as a parameter and relies only on the properties in IsDistance.
 */
module BallBounds {

  type Vec = seq<real>

  /** A distance function between two vectors; the source always passes Euclidean distance. */
  type Metric = (Vec, Vec) -> real

  /** DBL_MAX, the largest finite double, used as "infinitely far". */
  const DblMax: real := 179769313486231570814527423731704356798070567525844996598917476803157260780028538760589558632766878171540458953514382464234321326889464182768467546703537516986049910576551282076245490090389328944075868508455133942304583236903222948165808559332123348274797826204144723168738177180919299881250404026184124858368.0

  /** The properties of Euclidean distance that the bound depends on. */
  ghost predicate IsDistance(dist: Metric)
  {
    && (forall a, b :: dist(a, b) >= 0.0)
    && (forall a, b :: dist(a, b) == dist(b, a))
    && (forall a :: dist(a, a) == 0.0)
  }

  /** The triangle inequality, needed only to relate the bound to the points it covers. */
  ghost predicate Triangle(dist: Metric)
  {
    forall a, b, c :: dist(a, c) <= dist(a, b) + dist(b, c)
  }

  /** A closed interval; mlpack's default-constructed Range is the empty (DBL_MAX, -DBL_MAX). */
  datatype Range = Range(lo: real, hi: real)

  const DefaultRange: Range := Range(DblMax, -DblMax)

  /** math::ClampNonNegative. */
  function ClampNonNegative(x: real): (r: real)
    ensures r >= 0.0 && r >= x
    ensures r == x || r == 0.0
  {
    if x > 0.0 then x else 0.0
  }

  /** The point halfway between c and p: c + 0.5 * (p - c), component by component. */
  function Halfway(c: Vec, p: Vec): (r: Vec)
    requires |c| == |p|
    ensures |r| == |c|
    ensures forall j :: 0 <= j < |r| ==> r[j] == c[j] + 0.5 * (p[j] - c[j])
  {
    seq(|c|, j requires 0 <= j < |c| => c[j] + 0.5 * (p[j] - c[j]))
  }

  /**
   * One step of the greedy update: a column farther than the radius moves the
   * center half of the way to it and grows the radius by half the excess; a
   * covered column changes nothing.
   */
  function ExpandStep(dist: Metric, c: Vec, r: real, p: Vec): (res: (Vec, real))
    requires |c| == |p|
    ensures |res.0| == |c| && res.1 >= r
    ensures dist(c, p) - r <= 0.0 ==> res == (c, r)
    ensures dist(c, p) - r > 0.0 ==> res == (Halfway(c, p), r + 0.5 * (dist(c, p) - r))
  {
    var excess := dist(c, p) - r;
    if excess > 0.0 then (Halfway(c, p), r + 0.5 * excess) else (c, r)
  }

  /** The columns from index 1 on must have the dimension of the (possibly seeded) center. */
  predicate Conformable(c: Vec, r: real, data: seq<Vec>)
  {
    && (r < 0.0 ==> |data| > 0)
    && forall j :: 1 <= j < |data| ==> |data[j]| == (if r < 0.0 then |data[0]| else |c|)
  }

  /** The greedy update applied to columns i, i+1, ... of data. */
  function ExpandFrom(dist: Metric, c: Vec, r: real, data: seq<Vec>, i: nat): (res: (Vec, real))
    requires forall j :: i <= j < |data| ==> |data[j]| == |c|
    ensures |res.0| == |c|
    ensures res.1 >= r
    decreases |data| - i
  {
    if i >= |data| then (c, r)
    else
      var next := ExpandStep(dist, c, r, data[i]);
      ExpandFrom(dist, next.0, next.1, data, i + 1)
  }

  /** operator|=(data): seed an empty bound at column 0, then take in columns 1 .. n-1. */
  function Expanded(dist: Metric, c: Vec, r: real, data: seq<Vec>): (res: (Vec, real))
    requires Conformable(c, r, data)
    ensures r < 0.0 ==> |res.0| == |data[0]| && res.1 >= 0.0
    ensures r >= 0.0 ==> |res.0| == |c| && res.1 >= r
  {
    if r < 0.0 then ExpandFrom(dist, data[0], 0.0, data, 1) else ExpandFrom(dist, c, r, data, 1)
  }

  class BallBound {
    var radius: real
    var center: Vec

    /** BallBound(): radius 0 (not the empty sentinel) and an empty center vector. */
    constructor ()
      ensures radius == 0.0 && center == []
    {
      radius := 0.0;
      center := [];
    }

    /** BallBound(dimension): radius 0 and a center of the given dimension (contents unspecified). */
    constructor OfDimension(dimension: nat)
      ensures radius == 0.0 && |center| == dimension
    {
      radius := 0.0;
      center := seq(dimension, _ => 0.0);
    }

    /** BallBound(radius, center): both stored as given, a negative radius included. */
    constructor WithRadiusAndCenter(radius: real, center: Vec)
      ensures this.radius == radius && this.center == center
    {
      this.radius := radius;
      this.center := center;
    }

    /** The const Radius() accessor. */
    function Radius(): (r: real)
      reads this
      ensures r == radius
    {
      radius
    }

    /** The const Center() accessor. */
    function Center(): (c: Vec)
      reads this
      ensures c == center
    {
      center
    }

    /** A write through the non-const Radius() reference. */
    method SetRadius(r: real)
      modifies this`radius
      ensures radius == r && center == old(center)
    {
      radius := r;
    }

    /** A write through the non-const Center() reference. */
    method SetCenter(c: Vec)
      modifies this`center
      ensures center == c && radius == old(radius)
    {
      center := c;
    }

    /** operator[](i): the extent of the ball in dimension i. */
    function Dim(i: nat): (r: Range)
      reads this
      requires radius >= 0.0 ==> i < |center|
      ensures radius < 0.0 ==> r == DefaultRange
      ensures radius >= 0.0 ==> r.lo <= center[i] <= r.hi && r.hi - r.lo == 2.0 * radius
      ensures radius >= 0.0 ==> center[i] - r.lo == r.hi - center[i]
    {
      if radius < 0.0 then DefaultRange else Range(center[i] - radius, center[i] + radius)
    }

    /** Contains(point). */
    function Contains(dist: Metric, point: Vec): (r: bool)
      reads this
      ensures r <==> radius >= 0.0 && dist(center, point) <= radius
    {
      if radius < 0.0 then false else dist(center, point) <= radius
    }

    /** MinDistance(point): how far the point is outside the ball, never below zero. */
    function MinDistance(dist: Metric, point: Vec): (r: real)
      reads this
      requires IsDistance(dist)
      ensures radius < 0.0 ==> r == DblMax
      ensures radius >= 0.0 ==> 0.0 <= r <= dist(center, point)
      ensures radius >= 0.0 && dist(center, point) > radius ==> r == dist(center, point) - radius
      ensures radius >= 0.0 && dist(center, point) <= radius ==> r == 0.0
    {
      if radius < 0.0 then DblMax else ClampNonNegative(dist(point, center) - radius)
    }

    /** MinDistance(other): the gap between the two balls; only this ball's radius is checked for the sentinel. */
    function MinDistanceToBound(dist: Metric, other: BallBound): (r: real)
      reads this, other
      requires IsDistance(dist)
      ensures radius < 0.0 ==> r == DblMax
      ensures radius >= 0.0 ==> r >= 0.0 && r >= dist(center, other.center) - radius - other.radius
      ensures radius >= 0.0 ==> r == 0.0 || r == dist(center, other.center) - radius - other.radius
    {
      if radius < 0.0 then DblMax
      else ClampNonNegative(dist(center, other.center) - radius - other.radius)
    }

    /** MaxDistance(point). */
    function MaxDistance(dist: Metric, point: Vec): (r: real)
      reads this
      requires IsDistance(dist)
      ensures radius < 0.0 ==> r == DblMax
      ensures radius >= 0.0 ==> r >= dist(center, point) && r - dist(center, point) == radius
    {
      if radius < 0.0 then DblMax else dist(point, center) + radius
    }

    /** MaxDistance(other); only this ball's radius is checked for the sentinel. */
    function MaxDistanceToBound(dist: Metric, other: BallBound): (r: real)
      reads this, other
      requires IsDistance(dist)
      ensures radius < 0.0 ==> r == DblMax
      ensures radius >= 0.0 ==> r - dist(center, other.center) == radius + other.radius
    {
      if radius < 0.0 then DblMax else dist(other.center, center) + radius + other.radius
    }

    /** RangeDistance(point): both distances from one evaluation of the metric. */
    function RangeDistance(dist: Metric, point: Vec): (r: Range)
      reads this
      requires IsDistance(dist)
      ensures r == Range(MinDistance(dist, point), MaxDistance(dist, point))
    {
      if radius < 0.0 then Range(DblMax, DblMax)
      else
        var d := dist(center, point);
        Range(ClampNonNegative(d - radius), d + radius)
    }

    /** RangeDistance(other). */
    function RangeDistanceToBound(dist: Metric, other: BallBound): (r: Range)
      reads this, other
      requires IsDistance(dist)
      ensures r == Range(MinDistanceToBound(dist, other), MaxDistanceToBound(dist, other))
    {
      if radius < 0.0 then Range(DblMax, DblMax)
      else
        var d := dist(center, other.center);
        var sumRadius := radius + other.radius;
        Range(ClampNonNegative(d - sumRadius), d + sumRadius)
    }

    /** operator|=(data): the greedy in-place update over the columns of data. */
    method Expand(dist: Metric, data: seq<Vec>)
      requires Conformable(center, radius, data)
      modifies this
      ensures (center, radius) == Expanded(dist, old(center), old(radius), data)
    {
      if radius < 0.0 {
        center := data[0];
        radius := 0.0;
      }
      ghost var target := Expanded(dist, old(center), old(radius), data);
      var i := 1;
      while i < |data|
        invariant i >= 1
        invariant forall j :: i <= j < |data| ==> |data[j]| == |center|
        invariant ExpandFrom(dist, center, radius, data, i) == target
        decreases |data| - i
      {
        var excess := dist(center, data[i]) - radius;
        if excess > 0.0 {
          center := Halfway(center, data[i]);
          radius := radius + 0.5 * excess;
        }
        i := i + 1;
      }
    }
  }

  // ---------------------------------------------------------------------------
  // Properties

  /** With the sentinel radius every query answers "infinitely far" / "not inside". */
  lemma EmptyBoundSentinel(b: BallBound, dist: Metric, point: Vec, other: BallBound, i: nat)
    requires IsDistance(dist) && b.radius < 0.0
    ensures !b.Contains(dist, point)
    ensures b.MinDistance(dist, point) == DblMax && b.MaxDistance(dist, point) == DblMax
    ensures b.MinDistanceToBound(dist, other) == DblMax && b.MaxDistanceToBound(dist, other) == DblMax
    ensures b.RangeDistance(dist, point) == Range(DblMax, DblMax)
    ensures b.RangeDistanceToBound(dist, other) == Range(DblMax, DblMax)
    ensures b.Dim(i) == DefaultRange && b.Dim(i).lo > b.Dim(i).hi
  {
  }

  /** For a non-empty ball, MinDistance <= distance to the center <= MaxDistance. */
  lemma MinBelowMax(b: BallBound, dist: Metric, point: Vec)
    requires IsDistance(dist) && b.radius >= 0.0
    ensures b.MinDistance(dist, point) <= dist(b.center, point) <= b.MaxDistance(dist, point)
  {
  }

  /** Soundness: every point inside the ball is within [MinDistance, MaxDistance] of the query point. */
  lemma PointDistanceSound(b: BallBound, dist: Metric, q: Vec, point: Vec)
    requires IsDistance(dist) && Triangle(dist)
    requires b.Contains(dist, q)
    ensures b.MinDistance(dist, point) <= dist(q, point) <= b.MaxDistance(dist, point)
  {
    assert dist(b.center, point) <= dist(b.center, q) + dist(q, point);
    assert dist(q, point) <= dist(q, b.center) + dist(b.center, point);
  }

  /** Soundness for two balls: points of the two balls are within [MinDistance, MaxDistance] of each other. */
  lemma BoundDistanceSound(a: BallBound, b: BallBound, dist: Metric, p: Vec, q: Vec)
    requires IsDistance(dist) && Triangle(dist)
    requires a.Contains(dist, p) && b.Contains(dist, q)
    ensures a.MinDistanceToBound(dist, b) <= dist(p, q) <= a.MaxDistanceToBound(dist, b)
  {
    assert dist(a.center, b.center) <= dist(a.center, p) + dist(p, b.center);
    assert dist(p, b.center) <= dist(p, q) + dist(q, b.center);
    assert dist(p, q) <= dist(p, a.center) + dist(a.center, q);
    assert dist(a.center, q) <= dist(a.center, b.center) + dist(b.center, q);
  }

  /** The greedy update never shrinks the radius, and a non-empty result always comes out. */
  lemma ExpandGrowsRadius(dist: Metric, c: Vec, r: real, data: seq<Vec>)
    requires Conformable(c, r, data)
    ensures Expanded(dist, c, r, data).1 >= r
    ensures r >= 0.0 || |data| > 0 ==> Expanded(dist, c, r, data).1 >= 0.0
  {
  }

  /** Seeding: an empty bound fed a single column becomes the point ball at that column. */
  lemma ExpandSeedsAtFirstColumn(dist: Metric, c: Vec, r: real, p: Vec)
    requires r < 0.0
    ensures Expanded(dist, c, r, [p]) == (p, 0.0)
  {
  }

  /** A non-empty bound never looks at column 0, however far away it is. */
  lemma {:induction false} ExpandSkipsFirstColumn(dist: Metric, c: Vec, r: real, p: Vec, data: seq<Vec>)
    requires r >= 0.0 && |data| > 0 && Conformable(c, r, data)
    ensures Conformable(c, r, [p] + data[1..])
    ensures Expanded(dist, c, r, data) == Expanded(dist, c, r, [p] + data[1..])
  {
    SameTail(dist, c, r, data, [p] + data[1..], 1);
  }

  lemma {:induction false} SameTail(dist: Metric, c: Vec, r: real, d1: seq<Vec>, d2: seq<Vec>, i: nat)
    requires i >= 1 && |d1| == |d2| >= 1 && d1[1..] == d2[1..]
    requires forall j :: i <= j < |d1| ==> |d1[j]| == |c|
    ensures forall j :: i <= j < |d2| ==> |d2[j]| == |c|
    ensures ExpandFrom(dist, c, r, d1, i) == ExpandFrom(dist, c, r, d2, i)
    decreases |d1| - i
  {
    if i < |d1| {
      assert d1[i] == d1[1..][i - 1] == d2[1..][i - 1] == d2[i];
      var next := ExpandStep(dist, c, r, d1[i]);
      SameTail(dist, next.0, next.1, d1, d2, i + 1);
    }
  }

  /** If the (seeded) ball already covers columns i.., the update leaves center and radius as they are. */
  lemma {:induction false} ExpandCoveredUnchanged(dist: Metric, c: Vec, r: real, data: seq<Vec>, i: nat)
    requires forall j :: i <= j < |data| ==> |data[j]| == |c|
    requires forall j :: i <= j < |data| ==> dist(c, data[j]) <= r
    ensures ExpandFrom(dist, c, r, data, i) == (c, r)
    decreases |data| - i
  {
    if i < |data| {
      ExpandCoveredUnchanged(dist, c, r, data, i + 1);
    }
  }

  /** A metric under which the halfway point is half as far from p as c is (true of Euclidean distance). */
  ghost predicate HalvesAlongSegment(dist: Metric)
  {
    forall c: Vec, p: Vec {:trigger Halfway(c, p)} :: |c| == |p| ==> dist(Halfway(c, p), p) == 0.5 * dist(c, p)
  }

  /** Taking in a point outside a non-empty bound leaves that point covered. */
  lemma StepCoversNewPoint(dist: Metric, c: Vec, r: real, p: Vec)
    requires IsDistance(dist) && HalvesAlongSegment(dist) && |c| == |p| && r >= 0.0
    ensures dist(ExpandStep(dist, c, r, p).0, p) <= ExpandStep(dist, c, r, p).1
  {
    if dist(c, p) - r > 0.0 {
      assert dist(Halfway(c, p), p) == 0.5 * dist(c, p);
    }
  }

  /** The update over columns i.. of a non-empty bound ends covering the last column. */
  lemma {:induction false} ExpandFromCoversLast(dist: Metric, c: Vec, r: real, data: seq<Vec>, i: nat)
    requires IsDistance(dist) && HalvesAlongSegment(dist) && r >= 0.0 && i < |data|
    requires forall j :: i <= j < |data| ==> |data[j]| == |c|
    ensures dist(ExpandFrom(dist, c, r, data, i).0, data[|data| - 1]) <= ExpandFrom(dist, c, r, data, i).1
    decreases |data| - i
  {
    var next := ExpandStep(dist, c, r, data[i]);
    if i == |data| - 1 {
      StepCoversNewPoint(dist, c, r, data[i]);
    } else {
      ExpandFromCoversLast(dist, next.0, next.1, data, i + 1);
    }
  }

  /** After operator|=, the bound holds the matrix's last column (though perhaps not the earlier ones). */
  lemma ExpandCoversLastColumn(dist: Metric, c: Vec, r: real, data: seq<Vec>)
    requires IsDistance(dist) && HalvesAlongSegment(dist) && Conformable(c, r, data)
    requires r < 0.0 || |data| > 1
    ensures dist(Expanded(dist, c, r, data).0, data[|data| - 1]) <= Expanded(dist, c, r, data).1
  {
    if |data| > 1 {
      if r < 0.0 {
        ExpandFromCoversLast(dist, data[0], 0.0, data, 1);
      } else {
        ExpandFromCoversLast(dist, c, r, data, 1);
      }
    }
  }

  /** Distance on the first coordinate only: a one-dimensional Euclidean distance. */
  function Line(a: Vec, b: Vec): real
  {
    if |a| == 0 || |b| == 0 then 0.0
    else if a[0] >= b[0] then a[0] - b[0] else b[0] - a[0]
  }

  /**
   * The update does not keep earlier points covered: on the line, the ball
   * [-1, 1] taking in the column 3 becomes [-0.5, 3.5], which no longer holds -1.
   */
  lemma ExpandMayUncoverEarlierPoint()
    ensures IsDistance(Line)
    ensures Line([0.0], [-1.0]) <= 1.0
    ensures Expanded(Line, [0.0], 1.0, [[0.0], [3.0]]) == ([1.5], 2.0)
    ensures Line([1.5], [-1.0]) > 2.0
    ensures Line([1.5], [3.0]) <= 2.0
  {
    var step := ExpandStep(Line, [0.0], 1.0, [3.0]);
    assert Line([0.0], [3.0]) == 3.0;
    assert Halfway([0.0], [3.0]) == [1.5];
    assert step == ([1.5], 2.0);
  }
}
