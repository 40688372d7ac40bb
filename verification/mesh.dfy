/**
 * Mesh::calculateMinMaxPoints: one pass over the vertex positions keeping a
 * running minimum and maximum per axis. As written, the maximum starts at
 * FLT_MIN (the smallest positive float, not the most negative one) and a
 * vertex that raises the maximum is not compared with the minimum.
 */
module Meshes {
  import opened Geometry

  /** The largest finite float, (2 - 2^-23) * 2^127. */
  const FLT_MAX: real := 340282346638528859811704183484516925440.0
  /** The smallest positive normal float, 2^-126. */
  const FLT_MIN: real := 1.0 / 85070591730234615865843651857942052864.0

  /** A running (minimum, maximum) pair for one axis. */
  datatype Bounds = Bounds(lo: real, hi: real)

  const Sentinels: Bounds := Bounds(FLT_MAX, FLT_MIN)

  function Coordinate(v: Vec3, axis: nat): real
    requires axis < 3
  {
    if axis == 0 then v.x else if axis == 1 then v.y else v.z
  }

  /** One axis of the vertex positions, in order. */
  function Axis(vertices: seq<Vec3>, axis: nat): (xs: seq<real>)
    requires axis < 3
    ensures |xs| == |vertices|
    ensures forall i :: 0 <= i < |vertices| ==> xs[i] == Coordinate(vertices[i], axis)
  {
    seq(|vertices|, i requires 0 <= i < |vertices| => Coordinate(vertices[i], axis))
  }

  /** One loop iteration on one axis, as written: raise the maximum, or else lower the minimum. */
  function Visit(b: Bounds, x: real): Bounds {
    if x > b.hi then b.(hi := x)
    else if x < b.lo then b.(lo := x)
    else b
  }

  /** The bounds the loop leaves for one axis, visiting `xs` front to back. */
  function AxisBounds(xs: seq<real>): Bounds {
    if xs == [] then Sentinels else Visit(AxisBounds(xs[..|xs| - 1]), xs[|xs| - 1])
  }

  /** The loop's next iteration on one axis. */
  lemma VisitNext(xs: seq<real>, i: nat)
    requires i < |xs|
    ensures AxisBounds(xs[..i + 1]) == Visit(AxisBounds(xs[..i]), xs[i])
  {
    assert xs[..i + 1][..i] == xs[..i];
  }

  class Mesh {
    var minX: real
    var maxX: real
    var minY: real
    var maxY: real
    var minZ: real
    var maxZ: real

    constructor ()
    {
    }

    /** calculateMinMaxPoints: each axis gets the bounds of its own coordinates only. */
    method CalculateMinMaxPoints(vertices: seq<Vec3>)
      modifies this
      ensures Bounds(minX, maxX) == AxisBounds(Axis(vertices, 0))
      ensures Bounds(minY, maxY) == AxisBounds(Axis(vertices, 1))
      ensures Bounds(minZ, maxZ) == AxisBounds(Axis(vertices, 2))
    {
      minX, maxX := FLT_MAX, FLT_MIN;
      minY, maxY := FLT_MAX, FLT_MIN;
      minZ, maxZ := FLT_MAX, FLT_MIN;
      ghost var xs, ys, zs := Axis(vertices, 0), Axis(vertices, 1), Axis(vertices, 2);
      var i := 0;
      while i < |vertices|
        invariant 0 <= i <= |vertices|
        invariant Bounds(minX, maxX) == AxisBounds(xs[..i])
        invariant Bounds(minY, maxY) == AxisBounds(ys[..i])
        invariant Bounds(minZ, maxZ) == AxisBounds(zs[..i])
      {
        var pos := vertices[i];
        VisitNext(xs, i);
        VisitNext(ys, i);
        VisitNext(zs, i);
        if pos.x > maxX {
          maxX := pos.x;
        } else if pos.x < minX {
          minX := pos.x;
        }
        if pos.y > maxY {
          maxY := pos.y;
        } else if pos.y < minY {
          minY := pos.y;
        }
        if pos.z > maxZ {
          maxZ := pos.z;
        } else if pos.z < minZ {
          minZ := pos.z;
        }
        i := i + 1;
      }
      assert xs[..i] == xs && ys[..i] == ys && zs[..i] == zs;
    }
  }

  /** With no vertices the sentinels are left in place. */
  lemma NoVerticesGivesSentinels(vertices: seq<Vec3>, axis: nat)
    requires vertices == [] && axis < 3
    ensures AxisBounds(Axis(vertices, axis)) == Bounds(FLT_MAX, FLT_MIN)
  {
  }

  /** The maximum is at least every coordinate and at least FLT_MIN. */
  lemma {:induction false} MaxIsUpperBound(xs: seq<real>)
    ensures FLT_MIN <= AxisBounds(xs).hi
    ensures forall i :: 0 <= i < |xs| ==> xs[i] <= AxisBounds(xs).hi
  {
    if xs != [] {
      var front := xs[..|xs| - 1];
      MaxIsUpperBound(front);
      assert forall i :: 0 <= i < |front| ==> xs[i] == front[i];
    }
  }

  /** The minimum never rises: it is at most FLT_MAX and only ever replaced by a smaller coordinate. */
  lemma {:induction false} MinNeverRises(xs: seq<real>)
    ensures AxisBounds(xs).lo <= FLT_MAX
    ensures AxisBounds(xs).lo <= AxisBounds(xs).hi || AxisBounds(xs).lo == FLT_MAX
  {
    if xs != [] {
      MinNeverRises(xs[..|xs| - 1]);
    }
  }

  /** Each final bound is its sentinel or one of the coordinates. */
  lemma {:induction false} BoundsComeFromInput(xs: seq<real>)
    ensures AxisBounds(xs).lo == FLT_MAX || AxisBounds(xs).lo in xs
    ensures AxisBounds(xs).hi == FLT_MIN || AxisBounds(xs).hi in xs
  {
    if xs != [] {
      var front := xs[..|xs| - 1];
      BoundsComeFromInput(front);
      assert xs == front + [xs[|xs| - 1]];
    }
  }

  /**
   * A coordinate that did not raise the running maximum when it was visited
   * is at least the final minimum; one that did raise it was never compared
   * with the minimum.
   */
  lemma {:induction false} MinBelowNonRaising(xs: seq<real>, i: nat)
    requires i < |xs| && xs[i] <= AxisBounds(xs[..i]).hi
    ensures AxisBounds(xs).lo <= xs[i]
    decreases |xs|
  {
    var front := xs[..|xs| - 1];
    if i == |xs| - 1 {
      assert front == xs[..i];
    } else {
      assert front[..i] == xs[..i];
      MinBelowNonRaising(front, i);
    }
  }

  /** Every coordinate negative: the maximum stays at FLT_MIN, above all of them. */
  lemma {:induction false} AllNegativeKeepsMaxSentinel(xs: seq<real>)
    requires forall i :: 0 <= i < |xs| ==> xs[i] < 0.0
    ensures AxisBounds(xs).hi == FLT_MIN
  {
    if xs != [] {
      AllNegativeKeepsMaxSentinel(xs[..|xs| - 1]);
    }
  }

  /** The maximum of a single vertex at x = -1 is reported as FLT_MIN, not -1. */
  lemma MaxSentinelCounterexample()
    ensures AxisBounds([-1.0]).hi == FLT_MIN
    ensures AxisBounds([-1.0]).hi != -1.0
  {
    assert [-1.0][..0] == [];
  }

  /** The minimum of a single vertex at x = 1 is reported as FLT_MAX, not 1. */
  lemma ElseIfCounterexample()
    ensures AxisBounds([1.0]).lo == FLT_MAX
    ensures AxisBounds([1.0]).lo != 1.0
  {
    assert [1.0][..0] == [];
  }

  // ---------------------------------------------------------------------------
  // The bounds evidently intended: the least and the greatest coordinate.

  function Min(a: real, b: real): real {
    if a <= b then a else b
  }

  function Max(a: real, b: real): real {
    if a >= b then a else b
  }

  /** Corrected iteration: both bounds are updated by every vertex. */
  function VisitBoth(b: Bounds, x: real): Bounds {
    Bounds(Min(b.lo, x), Max(b.hi, x))
  }

  /** Corrected loop: the maximum starts at the most negative float, -FLT_MAX. */
  function TrueBounds(xs: seq<real>): Bounds {
    if xs == [] then Bounds(FLT_MAX, -FLT_MAX) else VisitBoth(TrueBounds(xs[..|xs| - 1]), xs[|xs| - 1])
  }

  /** Float coordinates lie within [-FLT_MAX, FLT_MAX]. */
  predicate FloatRange(xs: seq<real>) {
    forall i :: 0 <= i < |xs| ==> -FLT_MAX <= xs[i] <= FLT_MAX
  }

  /**
   * For any non-empty list of float coordinates, the corrected bounds are the
   * least and the greatest coordinate: each is one of them and bounds them all.
   */
  lemma {:induction false} TrueBoundsAreExtremes(xs: seq<real>)
    requires FloatRange(xs)
    ensures forall i :: 0 <= i < |xs| ==> TrueBounds(xs).lo <= xs[i] <= TrueBounds(xs).hi
    ensures xs != [] ==> TrueBounds(xs).lo in xs && TrueBounds(xs).hi in xs
    ensures xs == [] ==> TrueBounds(xs) == Bounds(FLT_MAX, -FLT_MAX)
  {
    if xs != [] {
      var front := xs[..|xs| - 1];
      var last := xs[|xs| - 1];
      assert xs == front + [last];
      TrueBoundsAreExtremes(front);
      if front == [] {
        assert TrueBounds(xs) == Bounds(last, last);
      }
    }
  }
}
