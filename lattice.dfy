/**
 * The triangular barycentric lattice both splat generators walk: the points (u, v) with
 * u, v >= 0 and u + v <= m, visited u-major and then v ascending, and the barycentric
 * weights fu = u/m, fv = v/m, fw = 1 - fu - fv of a point.
 */
module Lattice {

  datatype Point = Point(u: int, v: int)

  /** The points the inner loop visits for one u: v = 0 .. m - u. */
  function Row(u: int, m: int): (r: seq<Point>)
    ensures |r| == if m - u + 1 <= 0 then 0 else m - u + 1
    ensures forall k :: 0 <= k < |r| ==> r[k] == Point(u, k)
  {
    if m - u + 1 <= 0 then [] else seq(m - u + 1, v => Point(u, v))
  }

  /** The points the outer loop has visited before row u, in visiting order. */
  function RowsBelow(u: nat, m: int): seq<Point>
  {
    if u == 0 then [] else RowsBelow(u - 1, m) + Row(u - 1, m)
  }

  /** Every point of the lattice of resolution m, in the order the loops visit them. */
  function Grid(m: int): seq<Point> {
    if m < 0 then [] else RowsBelow(m + 1, m)
  }

  predicate InTriangle(p: Point, m: int) {
    0 <= p.u && 0 <= p.v && p.u + p.v <= m
  }

  lemma {:induction false} RowsBelowLength(u: nat, m: int)
    requires u <= m + 1
    ensures 2 * |RowsBelow(u, m)| == u * (2 * m + 3 - u)
  {
    if u > 0 {
      RowsBelowLength(u - 1, m);
    }
  }

  /** (m+1)(m+2)/2 points: the count the source reserves. */
  lemma GridLength(m: int)
    requires m >= 0
    ensures |Grid(m)| == (m + 1) * (m + 2) / 2
  {
    RowsBelowLength(m + 1, m);
  }

  /** The rows before u hold exactly the lattice points with a smaller u. */
  lemma {:induction false} RowsBelowMembers(u: nat, m: int, p: Point)
    requires u <= m + 1
    ensures p in RowsBelow(u, m) <==> InTriangle(p, m) && p.u < u
  {
    if u > 0 {
      RowsBelowMembers(u - 1, m, p);
      assert p in Row(u - 1, m) <==> p.u == u - 1 && 0 <= p.v <= m - p.u by {
        if p.u == u - 1 && 0 <= p.v <= m - p.u {
          assert Row(u - 1, m)[p.v] == p;
        }
      }
    }
  }

  /** The grid holds exactly the points of the triangle. */
  lemma GridMembers(m: int, p: Point)
    ensures p in Grid(m) <==> InTriangle(p, m)
  {
    if m >= 0 {
      RowsBelowMembers(m + 1, m, p);
    }
  }

  /** Where row u starts in the visiting order. */
  function Offset(u: nat, m: int): nat {
    |RowsBelow(u, m)|
  }

  /** The rows before u are a prefix of the rows before any later w. */
  lemma {:induction false} RowsBelowPrefix(u: nat, w: nat, m: int)
    requires u <= w
    ensures RowsBelow(u, m) <= RowsBelow(w, m)
  {
    if u < w {
      RowsBelowPrefix(u, w - 1, m);
    }
  }

  /** Point (u, v) is visited at position Offset(u) + v. */
  lemma GridAt(m: int, u: nat, v: nat)
    requires u + v <= m
    ensures Offset(u, m) + v < |Grid(m)|
    ensures Grid(m)[Offset(u, m) + v] == Point(u, v)
  {
    RowsBelowPrefix(u + 1, m + 1, m);
    assert RowsBelow(u + 1, m) == RowsBelow(u, m) + Row(u, m);
    assert Grid(m)[Offset(u, m) + v] == RowsBelow(u + 1, m)[Offset(u, m) + v];
  }

  /** u-major, v ascending: the visiting order is strictly lexicographic. */
  predicate LexBefore(p: Point, q: Point) {
    p.u < q.u || (p.u == q.u && p.v < q.v)
  }

  lemma {:induction false} RowsBelowSorted(u: nat, m: int)
    requires u <= m + 1
    ensures forall i, j :: 0 <= i < j < |RowsBelow(u, m)| ==> LexBefore(RowsBelow(u, m)[i], RowsBelow(u, m)[j])
  {
    if u > 0 {
      RowsBelowSorted(u - 1, m);
      var below := RowsBelow(u - 1, m);
      var row := Row(u - 1, m);
      forall i | 0 <= i < |below|
        ensures below[i].u < u - 1
      {
        RowsBelowMembers(u - 1, m, below[i]);
      }
      assert RowsBelow(u, m) == below + row;
    }
  }

  lemma GridSorted(m: int)
    ensures forall i, j :: 0 <= i < j < |Grid(m)| ==> LexBefore(Grid(m)[i], Grid(m)[j])
  {
    if m >= 0 {
      RowsBelowSorted(m + 1, m);
    }
  }

  /** The first point is (0,0), the last of row 0 is (0,m) and the very last is (m,0). */
  lemma GridCorners(m: int)
    requires m >= 0
    ensures m < |Grid(m)|
    ensures Grid(m)[0] == Point(0, 0)
    ensures Grid(m)[m] == Point(0, m)
    ensures Grid(m)[|Grid(m)| - 1] == Point(m, 0)
  {
    GridAt(m, 0, 0);
    GridAt(m, 0, m);
    GridAt(m, m, 0);
    assert RowsBelow(m + 1, m) == RowsBelow(m, m) + Row(m, m);
  }

  /** The barycentric weights of a lattice point. */
  datatype Weights = Weights(fu: real, fv: real, fw: real)

  /** The weights of lattice point p: fu = u/m, fv = v/m, fw = 1 - fu - fv. */
  function BarycentricWeights(p: Point, m: int): (w: Weights)
    requires m > 0
    ensures w.fu + w.fv + w.fw == 1.0
    ensures w.fu * (m as real) == p.u as real && w.fv * (m as real) == p.v as real
  {
    var fu := (p.u as real) / (m as real);
    var fv := (p.v as real) / (m as real);
    Weights(fu, fv, 1.0 - fu - fv)
  }

  /** Inside the triangle the weights are a convex combination. */
  lemma WeightsConvex(p: Point, m: int)
    requires m > 0 && InTriangle(p, m)
    ensures var w := BarycentricWeights(p, m);
      0.0 <= w.fu <= 1.0 && 0.0 <= w.fv <= 1.0 && 0.0 <= w.fw <= 1.0
  {
    var mr := m as real;
    assert (p.u as real) / mr + (p.v as real) / mr == ((p.u + p.v) as real) / mr;
    assert ((p.u + p.v) as real) / mr <= 1.0;
  }

  /** The three corner points carry the unit weights of p0, p1 and p2. */
  lemma CornerWeights(m: int)
    requires m > 0
    ensures BarycentricWeights(Point(0, 0), m) == Weights(0.0, 0.0, 1.0)
    ensures BarycentricWeights(Point(m, 0), m) == Weights(1.0, 0.0, 0.0)
    ensures BarycentricWeights(Point(0, m), m) == Weights(0.0, 1.0, 0.0)
  {
  }

  /** f applied to each point of a run, in order: what a loop pushing f(p) for every visited p builds. */
  function MapPoints<T>(f: Point -> T, points: seq<Point>): (r: seq<T>)
    ensures |r| == |points|
    ensures forall i :: 0 <= i < |points| ==> r[i] == f(points[i])
  {
    seq(|points|, i requires 0 <= i < |points| => f(points[i]))
  }

  /** Pushing f(p) after mapping a run maps the run extended by p. */
  lemma MapPointsSnoc<T>(f: Point -> T, a: seq<Point>, p: Point)
    ensures MapPoints(f, a + [p]) == MapPoints(f, a) + [f(p)]
  {
    var l := MapPoints(f, a + [p]);
    var r := MapPoints(f, a) + [f(p)];
    forall i | 0 <= i < |l|
      ensures l[i] == r[i]
    {
      if i < |a| {
        assert (a + [p])[i] == a[i];
      }
    }
  }

  /**
   * The nested loops both samplers run: u from 0 to m, and for each u, v from 0 to m - u,
   * pushing the loop body's value f(Point(u, v)) each time.
   */
  method WalkLattice<T>(f: Point -> T, m: int) returns (out: seq<T>)
    requires m > 0
    ensures out == MapPoints(f, Grid(m))
  {
    out := [];
    var u := 0;
    assert RowsBelow(u, m) == [];
    while u <= m
      invariant 0 <= u <= m + 1
      invariant out == MapPoints(f, RowsBelow(u, m))
    {
      var v := 0;
      assert RowsBelow(u, m) + Row(u, m)[..v] == RowsBelow(u, m);
      while v <= m - u
        invariant 0 <= v <= m - u + 1
        invariant out == MapPoints(f, RowsBelow(u, m) + Row(u, m)[..v])
      {
        ghost var before := RowsBelow(u, m) + Row(u, m)[..v];
        assert RowsBelow(u, m) + Row(u, m)[..v + 1] == before + [Point(u, v)] by {
          assert Row(u, m)[..v + 1] == Row(u, m)[..v] + [Point(u, v)];
        }
        MapPointsSnoc(f, before, Point(u, v));
        out := out + [f(Point(u, v))];
        v := v + 1;
      }
      assert Row(u, m)[..v] == Row(u, m);
      assert RowsBelow(u + 1, m) == RowsBelow(u, m) + Row(u, m);
      u := u + 1;
    }
    assert RowsBelow(m + 1, m) == Grid(m);
  }
}
