/**
 * The batch calibration: p' = R·p + t with R a row-major 3×3 matrix, followed by
 * a closed axis-aligned box filter whose bounds are laid out
 * [xmin, xmax, ymin, ymax, zmin, zmax].
 */
module Calibration {
  import opened LidarTypes

  /** The reads the source makes of R, t and ranges stay in bounds. */
  predicate WellFormed(r: seq<real>, t: seq<real>, ranges: seq<real>) {
    |r| >= 9 && |t| >= 3 && |ranges| >= 6
  }

  /** R·p + t, R row-major. */
  function Apply(r: seq<real>, t: seq<real>, p: Point): Vec3
    requires |r| >= 9 && |t| >= 3
  {
    Vec3(r[0] * p.x + r[1] * p.y + r[2] * p.z + t[0],
         r[3] * p.x + r[4] * p.y + r[5] * p.z + t[1],
         r[6] * p.x + r[7] * p.y + r[8] * p.z + t[2])
  }

  /** Every coordinate lies in its closed interval. */
  predicate InBox(v: Vec3, ranges: seq<real>)
    requires |ranges| >= 6
  {
    && ranges[0] <= v.x <= ranges[1]
    && ranges[2] <= v.y <= ranges[3]
    && ranges[4] <= v.z <= ranges[5]
  }

  /** The transformed points that pass the box filter, in input order. */
  function Kept(r: seq<real>, t: seq<real>, ranges: seq<real>, ps: seq<Point>): (kept: seq<Vec3>)
    requires WellFormed(r, t, ranges)
    ensures |kept| <= |ps|
  {
    if ps == [] then []
    else
      var v := Apply(r, t, ps[|ps| - 1]);
      Kept(r, t, ranges, ps[..|ps| - 1]) + (if InBox(v, ranges) then [v] else [])
  }

  /** Indices of the input points that survive, ascending. */
  function KeptIndices(r: seq<real>, t: seq<real>, ranges: seq<real>, ps: seq<Point>): seq<nat>
    requires WellFormed(r, t, ranges)
  {
    if ps == [] then []
    else
      var n := |ps| - 1;
      KeptIndices(r, t, ranges, ps[..n]) + (if InBox(Apply(r, t, ps[n]), ranges) then [n] else [])
  }

  /** Kept[j] is the image of the input point at KeptIndices[j]. */
  lemma {:induction false} KeptAtIndices(r: seq<real>, t: seq<real>, ranges: seq<real>, ps: seq<Point>)
    requires WellFormed(r, t, ranges)
    ensures var kept, idx := Kept(r, t, ranges, ps), KeptIndices(r, t, ranges, ps);
      && |kept| == |idx|
      && forall j :: 0 <= j < |idx| ==> idx[j] < |ps| && kept[j] == Apply(r, t, ps[idx[j]])
  {
    if ps != [] {
      var n := |ps| - 1;
      var init := ps[..n];
      KeptAtIndices(r, t, ranges, init);
      var kept0, idx0 := Kept(r, t, ranges, init), KeptIndices(r, t, ranges, init);
      var kept, idx := Kept(r, t, ranges, ps), KeptIndices(r, t, ranges, ps);
      var v := Apply(r, t, ps[n]);
      assert kept == kept0 + (if InBox(v, ranges) then [v] else []);
      assert idx == idx0 + (if InBox(v, ranges) then [n] else []);
      forall j | 0 <= j < |idx|
        ensures idx[j] < |ps| && kept[j] == Apply(r, t, ps[idx[j]])
      {
        if j < |idx0| {
          assert idx[j] == idx0[j] && kept[j] == kept0[j];
          assert init[idx0[j]] == ps[idx0[j]];
        }
      }
    }
  }

  /** KeptIndices is ascending and holds exactly the indices whose image is in the box. */
  lemma {:induction false} KeptIndicesExact(r: seq<real>, t: seq<real>, ranges: seq<real>, ps: seq<Point>)
    requires WellFormed(r, t, ranges)
    ensures var idx := KeptIndices(r, t, ranges, ps);
      && (forall j :: 0 <= j < |idx| ==> idx[j] < |ps|)
      && (forall j, k :: 0 <= j < k < |idx| ==> idx[j] < idx[k])
      && (forall i :: 0 <= i < |ps| ==> (i in idx <==> InBox(Apply(r, t, ps[i]), ranges)))
  {
    if ps != [] {
      var n := |ps| - 1;
      var init := ps[..n];
      KeptIndicesExact(r, t, ranges, init);
      var idx0 := KeptIndices(r, t, ranges, init);
      var idx := KeptIndices(r, t, ranges, ps);
      assert idx == idx0 + (if InBox(Apply(r, t, ps[n]), ranges) then [n] else []);
      forall i | 0 <= i < n ensures init[i] == ps[i] { }
    }
  }

  /**
   * Kept is the selection of the transformed points at the ascending indices of
   * the points whose image is in the box: a point survives iff its image is in
   * the box, and survivors keep input order.
   */
  lemma KeptSelection(r: seq<real>, t: seq<real>, ranges: seq<real>, ps: seq<Point>)
    requires WellFormed(r, t, ranges)
    ensures var kept, idx := Kept(r, t, ranges, ps), KeptIndices(r, t, ranges, ps);
      && |kept| == |idx|
      && (forall j :: 0 <= j < |idx| ==> idx[j] < |ps| && kept[j] == Apply(r, t, ps[idx[j]]))
      && (forall j, k :: 0 <= j < k < |idx| ==> idx[j] < idx[k])
      && (forall i :: 0 <= i < |ps| ==> (i in idx <==> InBox(Apply(r, t, ps[i]), ranges)))
  {
    KeptAtIndices(r, t, ranges, ps);
    KeptIndicesExact(r, t, ranges, ps);
  }

  /** The frame is entirely rejected iff no point's image lies in the box. */
  lemma KeptEmptyIff(r: seq<real>, t: seq<real>, ranges: seq<real>, ps: seq<Point>)
    requires WellFormed(r, t, ranges)
    ensures Kept(r, t, ranges, ps) == [] <==> forall i :: 0 <= i < |ps| ==> !InBox(Apply(r, t, ps[i]), ranges)
  {
    KeptSelection(r, t, ranges, ps);
    var idx := KeptIndices(r, t, ranges, ps);
    if idx != [] {
      assert idx[0] in idx;
    }
  }

  /** Filtering a concatenation filters each part in turn: survivors keep input order. */
  lemma {:induction false} KeptAppend(r: seq<real>, t: seq<real>, ranges: seq<real>, a: seq<Point>, b: seq<Point>)
    requires WellFormed(r, t, ranges)
    ensures Kept(r, t, ranges, a + b) == Kept(r, t, ranges, a) + Kept(r, t, ranges, b)
  {
    if b == [] {
      assert a + b == a;
    } else {
      var init := b[..|b| - 1];
      assert (a + b)[..|a + b| - 1] == a + init;
      KeptAppend(r, t, ranges, a, init);
    }
  }

  const IdentityR: seq<real> := [1.0, 0.0, 0.0, 0.0, 1.0, 0.0, 0.0, 0.0, 1.0]
  const ZeroT: seq<real> := [0.0, 0.0, 0.0]

  /** The points whose positions lie in the box, untransformed, in input order. */
  function BoxFilter(ranges: seq<real>, ps: seq<Point>): seq<Vec3>
    requires |ranges| >= 6
  {
    if ps == [] then []
    else
      var v := Position(ps[|ps| - 1]);
      BoxFilter(ranges, ps[..|ps| - 1]) + (if InBox(v, ranges) then [v] else [])
  }

  /** With identity R and zero t the output is the input restricted to the box. */
  lemma {:induction false} KeptIdentity(ranges: seq<real>, ps: seq<Point>)
    requires |ranges| >= 6
    ensures Kept(IdentityR, ZeroT, ranges, ps) == BoxFilter(ranges, ps)
  {
    if ps != [] {
      var p := ps[|ps| - 1];
      assert Apply(IdentityR, ZeroT, p) == Position(p);
      KeptIdentity(ranges, ps[..|ps| - 1]);
    }
  }

  /** With identity R, zero t and a box containing every point, nothing is dropped. */
  lemma {:induction false} KeptIdentityAllInside(ranges: seq<real>, ps: seq<Point>)
    requires |ranges| >= 6
    requires forall i :: 0 <= i < |ps| ==> InBox(Position(ps[i]), ranges)
    ensures Kept(IdentityR, ZeroT, ranges, ps) == Positions(ps)
  {
    KeptIdentity(ranges, ps);
    BoxFilterAllInside(ranges, ps);
  }

  lemma {:induction false} BoxFilterAllInside(ranges: seq<real>, ps: seq<Point>)
    requires |ranges| >= 6
    requires forall i :: 0 <= i < |ps| ==> InBox(Position(ps[i]), ranges)
    ensures BoxFilter(ranges, ps) == Positions(ps)
  {
    if ps != [] {
      var init := ps[..|ps| - 1];
      BoxFilterAllInside(ranges, init);
      assert Positions(ps) == Positions(init) + [Position(ps[|ps| - 1])];
    }
  }

  /** A two-point frame [(1,2,3), (-10,-10,-10)] under identity R, zero t and box [0,5]^3 keeps (1,2,3) only. */
  lemma ExampleFrame()
    ensures Flatten(Kept(IdentityR, ZeroT, [0.0, 5.0, 0.0, 5.0, 0.0, 5.0],
                         [Point(1.0, 2.0, 3.0, 0.0, 0.0), Point(-10.0, -10.0, -10.0, 0.0, 0.0)]))
            == [1.0, 2.0, 3.0]
  {
    var ps := [Point(1.0, 2.0, 3.0, 0.0, 0.0), Point(-10.0, -10.0, -10.0, 0.0, 0.0)];
    var ranges := [0.0, 5.0, 0.0, 5.0, 0.0, 5.0];
    assert ps[..1] == [ps[0]];
    assert ps[..1][..0] == [];
    assert Kept(IdentityR, ZeroT, ranges, ps[..1]) == [Vec3(1.0, 2.0, 3.0)];
  }
}
