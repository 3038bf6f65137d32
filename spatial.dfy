/**
 * Spatial model of the world: continuous world coordinates, the discrete
 * region grid, and axis-aligned region bounds.
 *
 * `f64` values are modelled as `real` (no rounding, no NaN, no infinities
 * except where a division by zero is written out), and `i64` region indices
 * as unbounded `int`.
 */
module Spatial {
  import opened Primitives

  function Abs(n: int): nat {
    if n < 0 then -n else n
  }

  function AbsReal(r: real): real {
    if r < 0.0 then -r else r
  }

  /** `f64::min` on non-NaN values. */
  function MinReal(a: real, b: real): real {
    if a <= b then a else b
  }

  // ---------------------------------------------------------------------
  // World coordinates
  // ---------------------------------------------------------------------

  /** A point, or a vector, in the continuous 3D world. */
  datatype WorldCoordinate = WorldCoordinate(x: real, y: real, z: real)
  {
    static function Zero(): WorldCoordinate {
      WorldCoordinate(0.0, 0.0, 0.0)
    }

    /** The vector leading from this point to `other`. */
    function VectorTo(other: WorldCoordinate): (v: WorldCoordinate)
      ensures Add(v) == other
    {
      WorldCoordinate(other.x - x, other.y - y, other.z - z)
    }

    /** Vector addition; the origin is its neutral element on either side. */
    function Add(other: WorldCoordinate): (r: WorldCoordinate)
      ensures other == Zero() ==> r == this
      ensures this == Zero() ==> r == other
    {
      WorldCoordinate(x + other.x, y + other.y, z + other.z)
    }

    /** Multiplication of every component by `factor`: 1 keeps the vector, 0 collapses it to the origin. */
    function Scale(factor: real): (r: WorldCoordinate)
      ensures factor == 1.0 ==> r == this
      ensures factor == 0.0 ==> r == Zero()
    {
      WorldCoordinate(x * factor, y * factor, z * factor)
    }
  }

  /** The vector operations form a vector space over the reals. */
  lemma VectorLaws(a: WorldCoordinate, b: WorldCoordinate, v: WorldCoordinate, k: real, m: real)
    ensures a.VectorTo(a.Add(v)) == v
    ensures a.VectorTo(b) == b.VectorTo(a).Scale(-1.0)
    ensures a.Add(b) == b.Add(a)
    ensures a.Add(WorldCoordinate.Zero()) == a
    ensures v.Scale(1.0) == v && v.Scale(0.0) == WorldCoordinate.Zero()
    ensures v.Scale(k).Scale(m) == v.Scale(k * m)
    ensures a.Add(b).Scale(k) == a.Scale(k).Add(b.Scale(k))
  {
  }

  // ---------------------------------------------------------------------
  // Region grid
  // ---------------------------------------------------------------------

  /** The index of one cell of the region grid; each cell is owned by at most one server. */
  datatype RegionCoordinate = RegionCoordinate(x: int, y: int, z: int)
  {
    static function Center(): RegionCoordinate {
      RegionCoordinate(0, 0, 0)
    }

    /** Sum of the per-axis index differences. */
    function ManhattanDistance(other: RegionCoordinate): (d: int)
      ensures d >= 0
      ensures d == 0 <==> this == other
    {
      Abs(x - other.x) + Abs(y - other.y) + Abs(z - other.z)
    }

    /** The six face-adjacent cells: +x, -x, +y, -y, +z, -z. Diagonal cells are not adjacent. */
    function AdjacentRegions(): (rs: seq<RegionCoordinate>)
      ensures |rs| == 6
      ensures forall i :: 0 <= i < |rs| ==> ManhattanDistance(rs[i]) == 1
      ensures forall i, j :: 0 <= i < j < |rs| ==> rs[i] != rs[j]
      ensures this !in rs
    {
      [ RegionCoordinate(x + 1, y, z),
        RegionCoordinate(x - 1, y, z),
        RegionCoordinate(x, y + 1, z),
        RegionCoordinate(x, y - 1, z),
        RegionCoordinate(x, y, z + 1),
        RegionCoordinate(x, y, z - 1) ]
    }

    /**
     * Despite its name, the point `index * regionSize` on every axis: under
     * the floor map of `FromWorldCoordinate` that is the lower corner of this
     * cell, not its centre.
     */
    function ToWorldCenter(regionSize: real): (w: WorldCoordinate)
      ensures regionSize > 0.0 ==> InCell(this, regionSize, w)
    {
      WorldCoordinate(x as real * regionSize, y as real * regionSize, z as real * regionSize)
    }

    /** The cell a world point belongs to: floor division on every axis, cast to `i64`. */
    static function FromWorldCoordinate(coord: WorldCoordinate, regionSize: real): (r: RegionCoordinate)
      ensures InInt64(r.x) && InInt64(r.y) && InInt64(r.z)
    {
      RegionCoordinate(AxisCell(coord.x, regionSize), AxisCell(coord.y, regionSize), AxisCell(coord.z, regionSize))
    }
  }

  /** Rust's saturating `as i64` cast of an already floored value. */
  function SaturateInt64(n: int): (k: int)
    ensures InInt64(k)
    ensures InInt64(n) ==> k == n
    ensures n < INT64_MIN ==> k == INT64_MIN
    ensures n > INT64_MAX ==> k == INT64_MAX
  {
    if n < INT64_MIN then INT64_MIN else if n > INT64_MAX then INT64_MAX else n
  }

  /**
   * `(v / regionSize).floor() as i64` on one axis. Dividing by zero gives an
   * infinity of the sign of `v` (or NaN for `0.0 / 0.0`), which the cast
   * saturates to the extreme `i64` value (NaN becomes 0).
   */
  function AxisCell(v: real, regionSize: real): (k: int)
    ensures InInt64(k)
  {
    if regionSize == 0.0 then
      (if v > 0.0 then INT64_MAX else if v < 0.0 then INT64_MIN else 0)
    else
      SaturateInt64((v / regionSize).Floor)
  }

  /** The half-open interval `[k * s, k * s + s)` of axis values that cell index `k` covers. */
  predicate InAxisCell(k: int, s: real, v: real) {
    k as real * s <= v < k as real * s + s
  }

  /** `p` lies in the half-open cube of grid cell `r` for region size `s`. */
  predicate InCell(r: RegionCoordinate, s: real, p: WorldCoordinate) {
    InAxisCell(r.x, s, p.x) && InAxisCell(r.y, s, p.y) && InAxisCell(r.z, s, p.z)
  }

  /** An axis value whose floored quotient by `s` fits in an `i64`, so the cast does not saturate. */
  predicate AxisRepresentable(v: real, s: real)
    requires s != 0.0
  {
    INT64_MIN as real <= v / s < (INT64_MAX + 1) as real
  }

  predicate Representable(p: WorldCoordinate, s: real)
    requires s != 0.0
  {
    AxisRepresentable(p.x, s) && AxisRepresentable(p.y, s) && AxisRepresentable(p.z, s)
  }

  /** For `s > 0`: `a * s <= v` exactly when `a <= v / s`. */
  lemma ScaledOrder(a: real, v: real, s: real)
    requires s > 0.0
    ensures a * s <= v <==> a <= v / s
    ensures v < a * s <==> v / s < a
  {
    var q := v / s;
    assert q * s == v;
    assert a * s - v == (a - q) * s;
  }

  /** Dividing a product by one of its factors gives the other. */
  lemma DivCancel(a: real, s: real)
    requires s != 0.0
    ensures (a * s) / s == a
  {
  }

  /** Membership of cell `k` is the floor condition `k <= v / s < k + 1`. */
  lemma AxisCellOrder(k: int, v: real, s: real)
    requires s > 0.0
    ensures InAxisCell(k, s, v) <==> k as real <= v / s < (k + 1) as real
  {
    ScaledOrder(k as real, v, s);
    ScaledOrder((k + 1) as real, v, s);
    assert (k + 1) as real * s == k as real * s + s;
  }

  /**
   * For a positive region size and a value whose cell index fits in an
   * `i64`, the computed index is `k` exactly when `v` lies in `[k*s, (k+1)*s)`:
   * every such value belongs to exactly one cell.
   */
  lemma {:induction false} AxisCellExact(v: real, s: real, k: int)
    requires s > 0.0 && AxisRepresentable(v, s)
    ensures AxisCell(v, s) == k <==> InAxisCell(k, s, v)
  {
    var q := v / s;
    var f := q.Floor;
    assert f as real <= q < f as real + 1.0;
    assert InInt64(f);
    assert AxisCell(v, s) == f;
    AxisCellOrder(k, v, s);
  }

  /** Out-of-range values saturate to the extreme `i64` cell index instead of wrapping. */
  lemma AxisCellSaturates(v: real, s: real)
    requires s != 0.0
    ensures v / s < INT64_MIN as real ==> AxisCell(v, s) == INT64_MIN
    ensures v / s >= (INT64_MAX + 1) as real ==> AxisCell(v, s) == INT64_MAX
  {
    var q := v / s;
    assert q.Floor as real <= q < q.Floor as real + 1.0;
  }

  /** `FromWorldCoordinate(p, s)` is the one cell whose half-open cube holds `p`. */
  lemma {:induction false} FromWorldCoordinateCell(p: WorldCoordinate, s: real, r: RegionCoordinate)
    requires s > 0.0 && Representable(p, s)
    ensures RegionCoordinate.FromWorldCoordinate(p, s) == r <==> InCell(r, s, p)
  {
    AxisCellExact(p.x, s, r.x);
    AxisCellExact(p.y, s, r.y);
    AxisCellExact(p.z, s, r.z);
  }

  /** Every `v == a * s` with `k <= a < k + 1` lies in axis cell `k`. */
  lemma AxisCellOfScaled(k: int, a: real, s: real, v: real)
    requires s > 0.0 && InInt64(k) && k as real <= a < (k + 1) as real && v == a * s
    ensures AxisCell(v, s) == k
  {
    DivCancel(a, s);
  }

  /** For every `i64` cell and positive region size, the cell's reference point maps back to the cell. */
  lemma {:induction false} ToWorldCenterRoundTrip(r: RegionCoordinate, s: real)
    requires s > 0.0 && InInt64(r.x) && InInt64(r.y) && InInt64(r.z)
    ensures RegionCoordinate.FromWorldCoordinate(r.ToWorldCenter(s), s) == r
  {
    var w := r.ToWorldCenter(s);
    AxisCellOfScaled(r.x, r.x as real, s, w.x);
    AxisCellOfScaled(r.y, r.y as real, s, w.y);
    AxisCellOfScaled(r.z, r.z as real, s, w.z);
  }

  /** `(150, 50, -25)` at region size 100 lies in cell `(1, 0, -1)`. */
  lemma FromWorldCoordinateExample()
    ensures RegionCoordinate.FromWorldCoordinate(WorldCoordinate(150.0, 50.0, -25.0), 100.0)
         == RegionCoordinate(1, 0, -1)
  {
    FromWorldCoordinateCell(WorldCoordinate(150.0, 50.0, -25.0), 100.0, RegionCoordinate(1, 0, -1));
  }

  /** Manhattan distance is symmetric. */
  lemma ManhattanSymmetric(a: RegionCoordinate, b: RegionCoordinate)
    ensures a.ManhattanDistance(b) == b.ManhattanDistance(a)
  {
  }

  /** The adjacent regions are exactly the cells at Manhattan distance 1. */
  lemma {:induction false} AdjacentIffUnitDistance(r: RegionCoordinate, c: RegionCoordinate)
    ensures c in r.AdjacentRegions() <==> r.ManhattanDistance(c) == 1
  {
    var rs := r.AdjacentRegions();
    if r.ManhattanDistance(c) == 1 {
      if c.x != r.x {
        assert c.y == r.y && c.z == r.z;
        if c.x == r.x + 1 { assert c == rs[0]; } else { assert c == rs[1]; }
      } else if c.y != r.y {
        assert c.z == r.z;
        if c.y == r.y + 1 { assert c == rs[2]; } else { assert c == rs[3]; }
      } else {
        if c.z == r.z + 1 { assert c == rs[4]; } else { assert c == rs[5]; }
      }
    }
  }

  // ---------------------------------------------------------------------
  // Region bounds
  // ---------------------------------------------------------------------

  /** The axis-aligned box of world space a region covers; every face is inclusive. */
  datatype RegionBounds = RegionBounds(minX: real, maxX: real, minY: real, maxY: real, minZ: real, maxZ: real)
  {
    /** The invariant a region is expected to keep (not enforced by the constructors): min <= max on every axis. */
    predicate Valid() {
      minX <= maxX && minY <= maxY && minZ <= maxZ
    }

    /** The default region: the cube of half-extent 1000 around the origin. */
    static function Default(): (b: RegionBounds)
      ensures b.Valid() && b.Center() == WorldCoordinate.Zero() && b.HalfExtent() == 1000.0
    {
      RegionBounds(-1000.0, 1000.0, -1000.0, 1000.0, -1000.0, 1000.0)
    }

    /** The cube of the given half-extent around `center`. */
    static function FromCenter(center: WorldCoordinate, halfExtent: real): (b: RegionBounds)
      ensures b.Valid() <==> halfExtent >= 0.0
      ensures b.Center() == center && b.HalfExtent() == halfExtent
    {
      RegionBounds(center.x - halfExtent, center.x + halfExtent,
                   center.y - halfExtent, center.y + halfExtent,
                   center.z - halfExtent, center.z + halfExtent)
    }

    /** The midpoint of the box: equally far from the two faces on each axis. */
    function Center(): (c: WorldCoordinate)
      ensures c.x - minX == maxX - c.x && c.y - minY == maxY - c.y && c.z - minZ == maxZ - c.z
      ensures Valid() ==> Contains(c)
    {
      WorldCoordinate((minX + maxX) / 2.0, (minY + maxY) / 2.0, (minZ + maxZ) / 2.0)
    }

    /** Half the x-extent, taken as the half-extent of a box assumed to be a cube. */
    function HalfExtent(): (h: real)
      ensures Center().x - h == minX && Center().x + h == maxX
      ensures Valid() ==> h >= 0.0
    {
      (maxX - minX) / 2.0
    }

    /** Inclusive containment on all six faces. */
    function Contains(p: WorldCoordinate): (r: bool)
      ensures r <==> DistanceToBoundary(p) >= 0.0
    {
      p.x >= minX && p.x <= maxX &&
      p.y >= minY && p.y <= maxY &&
      p.z >= minZ && p.z <= maxZ
    }

    /**
     * The smallest of the six signed gaps between `p` and the faces: the
     * distance to the nearest face when `p` is inside (non-negative), and
     * negative when `p` is outside.
     */
    function DistanceToBoundary(p: WorldCoordinate): (d: real)
      ensures d <= p.x - minX && d <= maxX - p.x
      ensures d <= p.y - minY && d <= maxY - p.y
      ensures d <= p.z - minZ && d <= maxZ - p.z
      ensures d == p.x - minX || d == maxX - p.x ||
              d == p.y - minY || d == maxY - p.y ||
              d == p.z - minZ || d == maxZ - p.z
    {
      var dx := MinReal(p.x - minX, maxX - p.x);
      var dy := MinReal(p.y - minY, maxY - p.y);
      var dz := MinReal(p.z - minZ, maxZ - p.z);
      MinReal(MinReal(dx, dy), dz)
    }

    /** Closed-box intersection test: boxes that only touch on a face overlap. */
    function Overlaps(other: RegionBounds): (r: bool)
      ensures this == other ==> (r <==> Valid())
    {
      minX <= other.maxX && maxX >= other.minX &&
      minY <= other.maxY && maxY >= other.minY &&
      minZ <= other.maxZ && maxZ >= other.minZ
    }
  }

  /** `from_center(c, h)` holds exactly the points within `h` of `c` on every axis. */
  lemma FromCenterContains(c: WorldCoordinate, h: real, p: WorldCoordinate)
    ensures RegionBounds.FromCenter(c, h).Contains(p) <==>
      AbsReal(p.x - c.x) <= h && AbsReal(p.y - c.y) <= h && AbsReal(p.z - c.z) <= h
  {
  }

  /** `from_center(c, h)` holds `c` but not a point `h + eps` along x from it. */
  lemma FromCenterBoundary(c: WorldCoordinate, h: real, eps: real)
    requires h >= 0.0 && eps > 0.0
    ensures RegionBounds.FromCenter(c, h).Contains(c)
    ensures !RegionBounds.FromCenter(c, h).Contains(c.Add(WorldCoordinate(h + eps, 0.0, 0.0)))
  {
  }

  /** The sign of the boundary distance: positive strictly inside, zero on a face, negative outside. */
  lemma DistanceToBoundarySign(b: RegionBounds, p: WorldCoordinate)
    ensures b.DistanceToBoundary(p) >= 0.0 <==> b.Contains(p)
    ensures b.DistanceToBoundary(p) > 0.0 <==>
      b.minX < p.x < b.maxX && b.minY < p.y < b.maxY && b.minZ < p.z < b.maxZ
    ensures b.DistanceToBoundary(p) < 0.0 <==> !b.Contains(p)
  {
  }

  /** Overlap does not depend on the order of the two boxes. */
  lemma OverlapsSymmetric(a: RegionBounds, b: RegionBounds)
    ensures a.Overlaps(b) <==> b.Overlaps(a)
  {
  }

  /** For valid boxes, overlapping means sharing at least one point. */
  lemma {:induction false} OverlapsIffCommonPoint(a: RegionBounds, b: RegionBounds)
    requires a.Valid() && b.Valid()
    ensures a.Overlaps(b) <==> exists p :: a.Contains(p) && b.Contains(p)
  {
    if a.Overlaps(b) {
      var p := WorldCoordinate(
        if a.minX <= b.minX then b.minX else a.minX,
        if a.minY <= b.minY then b.minY else a.minY,
        if a.minZ <= b.minZ then b.minZ else a.minZ);
      assert a.Contains(p) && b.Contains(p);
    }
  }

  /** Two valid boxes that share exactly the face `x = a.maxX` overlap, and both hold a point of that face. */
  lemma SharedFaceOverlaps(a: RegionBounds, b: RegionBounds)
    requires a.Valid() && b.Valid()
    requires b.minX == a.maxX && b.minY == a.minY && b.maxY == a.maxY && b.minZ == a.minZ && b.maxZ == a.maxZ
    ensures a.Overlaps(b) && b.Overlaps(a)
    ensures a.Contains(WorldCoordinate(a.maxX, a.minY, a.minZ))
    ensures b.Contains(WorldCoordinate(a.maxX, a.minY, a.minZ))
  {
  }

  // ---------------------------------------------------------------------
  // Finding: `to_world_center` yields the corner of a cell, not its centre
  // ---------------------------------------------------------------------

  /** The closed box of grid cell `r` for region size `s`. */
  function CellBounds(r: RegionCoordinate, s: real): (b: RegionBounds)
    ensures s >= 0.0 ==> b.Valid()
  {
    RegionBounds(r.x as real * s, r.x as real * s + s,
                 r.y as real * s, r.y as real * s + s,
                 r.z as real * s, r.z as real * s + s)
  }

  /**
   * As written, the "centre" of a cell lies on the cell's boundary (distance 0
   * to its nearest face), differs from the cell box's centre, and is also
   * held by the box of the cell just below it on the x axis.
   */
  lemma ToWorldCenterIsCorner(r: RegionCoordinate, s: real)
    requires s > 0.0
    ensures CellBounds(r, s).DistanceToBoundary(r.ToWorldCenter(s)) == 0.0
    ensures r.ToWorldCenter(s) != CellBounds(r, s).Center()
    ensures CellBounds(RegionCoordinate(r.x - 1, r.y, r.z), s).Contains(r.ToWorldCenter(s))
  {
    var w, b := r.ToWorldCenter(s), CellBounds(r, s);
    assert b.minX == w.x && b.minY == w.y && b.minZ == w.z;
    assert b.Center().x == w.x + s / 2.0;
    assert (r.x - 1) as real * s + s == r.x as real * s;
  }

  /** The centre of cell `r`: half a region size past its lower corner on every axis. */
  function CellCenter(r: RegionCoordinate, s: real): (c: WorldCoordinate)
    ensures c == CellBounds(r, s).Center()
  {
    WorldCoordinate((r.x as real + 0.5) * s, (r.y as real + 0.5) * s, (r.z as real + 0.5) * s)
  }

  /** The corrected centre maps back to its cell. */
  lemma {:induction false} CellCenterRoundTrip(r: RegionCoordinate, s: real)
    requires s > 0.0 && InInt64(r.x) && InInt64(r.y) && InInt64(r.z)
    ensures RegionCoordinate.FromWorldCoordinate(CellCenter(r, s), s) == r
  {
    var c := CellCenter(r, s);
    AxisCellOfScaled(r.x, r.x as real + 0.5, s, c.x);
    AxisCellOfScaled(r.y, r.y as real + 0.5, s, c.y);
    AxisCellOfScaled(r.z, r.z as real + 0.5, s, c.z);
  }

  /** The corrected centre is half a region size away from every face of its cell. */
  lemma CellCenterDistance(r: RegionCoordinate, s: real)
    requires s > 0.0
    ensures CellBounds(r, s).DistanceToBoundary(CellCenter(r, s)) == s / 2.0
  {
    var c, b := CellCenter(r, s), CellBounds(r, s);
    assert c.x == b.minX + s / 2.0 && c.y == b.minY + s / 2.0 && c.z == b.minZ + s / 2.0;
  }
}
