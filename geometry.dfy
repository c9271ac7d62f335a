/**
  Vertices, the six bound fields and the per-vertex transforms of the viewer, as
  values. The vertex matrix keeps slot 0 unused, so every operation on the whole
  table leaves slot 0 alone and works on slots 1.. onwards.
 */
module Geometry {

  datatype Vertex = Vertex(x: real, y: real, z: real)

  /** A coordinate axis, stored in column 0, 1 or 2 of the vertex matrix. */
  datatype Axis = X | Y | Z

  function Coord(v: Vertex, a: Axis): real {
    match a
    case X => v.x
    case Y => v.y
    case Z => v.z
  }

  function WithCoord(v: Vertex, a: Axis, r: real): (w: Vertex)
    ensures Coord(w, a) == r
    ensures forall b :: b != a ==> Coord(w, b) == Coord(v, b)
  {
    match a
    case X => v.(x := r)
    case Y => v.(y := r)
    case Z => v.(z := r)
  }

  /** fmax and fmin on values that are not NaN. */
  function Max(a: real, b: real): real { if a >= b then a else b }

  function Min(a: real, b: real): real { if a <= b then a else b }

  // ---------------------------------------------------------------------------
  // Bounds
  // ---------------------------------------------------------------------------

  /** The six bound fields minX, minY, minZ, maxX, maxY, maxZ of the model data. */
  datatype Box = Box(minX: real, minY: real, minZ: real, maxX: real, maxY: real, maxZ: real)

  function Lo(b: Box, a: Axis): real {
    match a
    case X => b.minX
    case Y => b.minY
    case Z => b.minZ
  }

  function Hi(b: Box, a: Axis): real {
    match a
    case X => b.maxX
    case Y => b.maxY
    case Z => b.maxZ
  }

  /** DBL_MAX, the largest finite double, 2^1024 - 2^971. */
  const DblMax: real := 179769313486231570814527423731704356798070567525844996598917476803157260780028538760589558632766878171540458953514382464234321326889464182768467546703537516986049910576551282076245490090389328944075868508455133942304583236903222948165808559332123348274797826204144723168738177180919299881250404026184124858368.0

  /** DBL_MIN, the smallest positive normalised double, 2^-1022: a positive number, not the most negative double. */
  const DblMin: real := 1.0 / 44942328371557897693232629769725618340449424473557664318357520289433168951375240783177119330601884005280028469967848339414697442203604155623211857659868531094441973356216371319075554900311523529863270738021251442209537670585615720368478277635206809290837627671146574559986811484619929076208839082406056034304.0

  /** The bounds initialize() installs: every minimum at DBL_MAX, every maximum at DBL_MIN. */
  const Sentinel: Box := Box(DblMax, DblMax, DblMax, DblMin, DblMin, DblMin)

  predicate Contains(b: Box, v: Vertex) {
    && b.minX <= v.x <= b.maxX
    && b.minY <= v.y <= b.maxY
    && b.minZ <= v.z <= b.maxZ
  }

  /** `outer` reaches at least as far as `inner` on every side. */
  predicate Encloses(outer: Box, inner: Box) {
    && outer.minX <= inner.minX && outer.minY <= inner.minY && outer.minZ <= inner.minZ
    && outer.maxX >= inner.maxX && outer.maxY >= inner.maxY && outer.maxZ >= inner.maxZ
  }

  /**
    minMax: each bound becomes the min or max of its old value and the vertex's
    coordinate. The result is the smallest box around the old box and the vertex:
    it contains both, and each of its bounds is one of the two candidates.
   */
  function Widen(b: Box, v: Vertex): (r: Box)
    ensures Contains(r, v) && Encloses(r, b)
    ensures forall a :: Lo(r, a) == Lo(b, a) || Lo(r, a) == Coord(v, a)
    ensures forall a :: Hi(r, a) == Hi(b, a) || Hi(r, a) == Coord(v, a)
  {
    Box(Min(v.x, b.minX), Min(v.y, b.minY), Min(v.z, b.minZ),
        Max(v.x, b.maxX), Max(v.y, b.maxY), Max(v.z, b.maxZ))
  }

  /** The bounds after minMax has run on each vertex in turn, starting from `b`. */
  function WidenAll(b: Box, vs: seq<Vertex>): (r: Box)
    ensures Encloses(r, b)
    ensures forall i :: 0 <= i < |vs| ==> Contains(r, vs[i])
  {
    if vs == [] then b
    else
      var inner := WidenAll(b, vs[..|vs| - 1]);
      assert forall i :: 0 <= i < |vs| - 1 ==> vs[..|vs| - 1][i] == vs[i];
      Widen(inner, vs[|vs| - 1])
  }

  /** Every bound after the vertices are taken in is the starting bound or some vertex's coordinate. */
  lemma {:induction false} WidenAllAttains(b: Box, vs: seq<Vertex>, a: Axis)
    ensures Lo(WidenAll(b, vs), a) == Lo(b, a)
            || exists i :: 0 <= i < |vs| && Lo(WidenAll(b, vs), a) == Coord(vs[i], a)
    ensures Hi(WidenAll(b, vs), a) == Hi(b, a)
            || exists i :: 0 <= i < |vs| && Hi(WidenAll(b, vs), a) == Coord(vs[i], a)
  {
    if vs != [] {
      var n := |vs| - 1;
      WidenAllAttains(b, vs[..n], a);
      var inner := WidenAll(b, vs[..n]);
      assert WidenAll(b, vs) == Widen(inner, vs[n]);
      if Lo(WidenAll(b, vs), a) == Lo(inner, a) && Lo(inner, a) != Lo(b, a) {
        var i :| 0 <= i < n && Lo(inner, a) == Coord(vs[..n][i], a);
        assert vs[..n][i] == vs[i];
      }
      if Hi(WidenAll(b, vs), a) == Hi(inner, a) && Hi(inner, a) != Hi(b, a) {
        var i :| 0 <= i < n && Hi(inner, a) == Coord(vs[..n][i], a);
        assert vs[..n][i] == vs[i];
      }
    }
  }

  /**
    Starting from the sentinels, a non-empty load whose coordinates on `a` are
    finite doubles (at most DBL_MAX) ends with the minimum attained by a vertex.
   */
  lemma LoadedLowIsMinimum(vs: seq<Vertex>, a: Axis)
    requires |vs| >= 1
    requires forall i :: 0 <= i < |vs| ==> Coord(vs[i], a) <= DblMax
    ensures exists i :: 0 <= i < |vs| && Lo(WidenAll(Sentinel, vs), a) == Coord(vs[i], a)
    ensures forall i :: 0 <= i < |vs| ==> Lo(WidenAll(Sentinel, vs), a) <= Coord(vs[i], a)
  {
    WidenAllAttains(Sentinel, vs, a);
    var r := WidenAll(Sentinel, vs);
    assert Contains(r, vs[0]);
    if Lo(r, a) == DblMax {
      assert Coord(vs[0], a) == DblMax;
    }
  }

  /**
    The maximum starts from DBL_MIN, a positive number: it is attained by a vertex
    once some coordinate reaches DBL_MIN, and it stays DBL_MIN when every coordinate
    on that axis is smaller (for instance all negative).
   */
  lemma LoadedHighFromPositiveSentinel(vs: seq<Vertex>, a: Axis)
    ensures forall i :: 0 <= i < |vs| ==> Coord(vs[i], a) <= Hi(WidenAll(Sentinel, vs), a)
    ensures DblMin <= Hi(WidenAll(Sentinel, vs), a)
    ensures (exists i :: 0 <= i < |vs| && Coord(vs[i], a) >= DblMin) ==>
              exists i :: 0 <= i < |vs| && Hi(WidenAll(Sentinel, vs), a) == Coord(vs[i], a)
    ensures (forall i :: 0 <= i < |vs| ==> Coord(vs[i], a) <= DblMin) ==>
              Hi(WidenAll(Sentinel, vs), a) == DblMin
  {
    WidenAllAttains(Sentinel, vs, a);
    var r := WidenAll(Sentinel, vs);
    assert forall i :: 0 <= i < |vs| ==> Contains(r, vs[i]);
    if exists i :: 0 <= i < |vs| && Coord(vs[i], a) >= DblMin {
      var i :| 0 <= i < |vs| && Coord(vs[i], a) >= DblMin;
      assert Contains(r, vs[i]);
      if Hi(r, a) == DblMin {
        assert Coord(vs[i], a) == DblMin;
      }
    }
  }

  // ---------------------------------------------------------------------------
  // Transforms
  // ---------------------------------------------------------------------------

  /** One whole-table step. The rotations take c = cos(angle) and s = sin(angle). */
  datatype Transform =
    | Move(axis: Axis, delta: real)
    | Rotate(axis: Axis, c: real, s: real)
    | Scale(factor: real)
    | Recentre(center: Vertex, zoom: real)

  /** A rotation about axis `a` by the angle whose cosine is c and sine is s. */
  function Rotated(v: Vertex, a: Axis, c: real, s: real): Vertex {
    match a
    case X => Vertex(v.x, c * v.y - s * v.z, s * v.y + c * v.z)
    case Y => Vertex(c * v.x + s * v.z, v.y, -s * v.x + c * v.z)
    case Z => Vertex(c * v.x - s * v.y, s * v.x + c * v.y, v.z)
  }

  /** Scaling by f; a factor that is not positive leaves the vertex alone. */
  function Scaled(v: Vertex, f: real): Vertex {
    if f > 0.0 then Vertex(v.x * f, v.y * f, v.z * f) else v
  }

  /** Moving the centre to the origin and scaling by zm. */
  function Recentred(v: Vertex, ctr: Vertex, zm: real): Vertex {
    Vertex((v.x - ctr.x) * zm, (v.y - ctr.y) * zm, (v.z - ctr.z) * zm)
  }

  /** What a step does to one vertex. */
  function Apply(t: Transform, v: Vertex): Vertex {
    match t
    case Move(a, d) => WithCoord(v, a, Coord(v, a) + d)
    case Rotate(a, c, s) => Rotated(v, a, c, s)
    case Scale(f) => Scaled(v, f)
    case Recentre(ctr, zm) => Recentred(v, ctr, zm)
  }

  /** A step applied to the vertex table: slot 0 is left as it is, every later slot is transformed. */
  function Transformed(vs: seq<Vertex>, t: Transform): seq<Vertex> {
    seq(|vs|, i requires 0 <= i < |vs| => if i == 0 then vs[0] else Apply(t, vs[i]))
  }

  /** Steps applied in order, the first one first. */
  function TransformedAll(vs: seq<Vertex>, ts: seq<Transform>): seq<Vertex> {
    if ts == [] then vs
    else Transformed(TransformedAll(vs, ts[..|ts| - 1]), ts[|ts| - 1])
  }

  /** Every step leaves a table with no vertex slots (empty or released, or slot 0 only) alone. */
  lemma {:induction false} NoVerticesNothingChanges(vs: seq<Vertex>, ts: seq<Transform>)
    requires |vs| <= 1
    ensures TransformedAll(vs, ts) == vs
  {
    if ts != [] {
      NoVerticesNothingChanges(vs, ts[..|ts| - 1]);
      assert Transformed(vs, ts[|ts| - 1]) == vs;
    }
  }

  /** A move adds the offset on its own axis, in every slot from 1 on, and changes nothing else. */
  lemma MoveChangesOneAxis(vs: seq<Vertex>, a: Axis, d: real, i: nat)
    requires i < |vs|
    ensures |Transformed(vs, Move(a, d))| == |vs|
    ensures i >= 1 ==> Coord(Transformed(vs, Move(a, d))[i], a) == Coord(vs[i], a) + d
    ensures forall b :: (i == 0 || b != a) ==> Coord(Transformed(vs, Move(a, d))[i], b) == Coord(vs[i], b)
  {
  }

  /** Moving by d and then by -d on the same axis restores every vertex. */
  lemma MoveBack(vs: seq<Vertex>, a: Axis, d: real)
    ensures Transformed(Transformed(vs, Move(a, d)), Move(a, -d)) == vs
  {
    var r := Transformed(Transformed(vs, Move(a, d)), Move(a, -d));
    forall i | 0 <= i < |vs| ensures r[i] == vs[i] {
      if i > 0 {
        var w := Apply(Move(a, d), vs[i]);
        assert r[i] == Apply(Move(a, -d), w);
        forall b ensures Coord(r[i], b) == Coord(vs[i], b) { }
        AxesDetermineVertex(r[i], vs[i]);
      }
    }
  }

  lemma AxesDetermineVertex(v: Vertex, w: Vertex)
    requires forall b :: Coord(v, b) == Coord(w, b)
    ensures v == w
  {
    assert Coord(v, X) == Coord(w, X) && Coord(v, Y) == Coord(w, Y) && Coord(v, Z) == Coord(w, Z);
  }

  /** The squared length of the two coordinates a rotation about `a` mixes. */
  function PlaneNorm(v: Vertex, a: Axis): real {
    match a
    case X => v.y * v.y + v.z * v.z
    case Y => v.x * v.x + v.z * v.z
    case Z => v.x * v.x + v.y * v.y
  }

  /** The planar identity behind a rotation keeping length: (cp - sq)² + (sp + cq)² = p² + q² when c² + s² = 1. */
  lemma PlaneRotateNorm(c: real, s: real, p: real, q: real, p': real, q': real)
    requires c * c + s * s == 1.0 && p' == c * p - s * q && q' == s * p + c * q
    ensures p' * p' + q' * q' == p * p + q * q
  {
    assert p' * p' + q' * q' == (c * c + s * s) * (p * p + q * q);
  }

  /** A rotation keeps the coordinate on its axis and, when c² + s² = 1, the length in the other two. */
  lemma RotationKeepsLength(v: Vertex, a: Axis, c: real, s: real)
    requires c * c + s * s == 1.0
    ensures Coord(Apply(Rotate(a, c, s), v), a) == Coord(v, a)
    ensures PlaneNorm(Apply(Rotate(a, c, s), v), a) == PlaneNorm(v, a)
  {
    match a
    case X => RotateXKeepsLength(v, c, s);
    case Y => RotateYKeepsLength(v, c, s);
    case Z => RotateZKeepsLength(v, c, s);
  }

  lemma RotateXKeepsLength(v: Vertex, c: real, s: real)
    requires c * c + s * s == 1.0
    ensures Apply(Rotate(X, c, s), v).x == v.x
    ensures PlaneNorm(Apply(Rotate(X, c, s), v), X) == PlaneNorm(v, X)
  {
    var w := Apply(Rotate(X, c, s), v);
    assert w.y == c * v.y - s * v.z && w.z == s * v.y + c * v.z;
    PlaneRotateNorm(c, s, v.y, v.z, w.y, w.z);
  }

  lemma RotateYKeepsLength(v: Vertex, c: real, s: real)
    requires c * c + s * s == 1.0
    ensures Apply(Rotate(Y, c, s), v).y == v.y
    ensures PlaneNorm(Apply(Rotate(Y, c, s), v), Y) == PlaneNorm(v, Y)
  {
    var w := Apply(Rotate(Y, c, s), v);
    assert w.z == c * v.z - s * v.x && w.x == s * v.z + c * v.x;
    PlaneRotateNorm(c, s, v.z, v.x, w.z, w.x);
  }

  lemma RotateZKeepsLength(v: Vertex, c: real, s: real)
    requires c * c + s * s == 1.0
    ensures Apply(Rotate(Z, c, s), v).z == v.z
    ensures PlaneNorm(Apply(Rotate(Z, c, s), v), Z) == PlaneNorm(v, Z)
  {
    var w := Apply(Rotate(Z, c, s), v);
    assert w.x == c * v.x - s * v.y && w.y == s * v.x + c * v.y;
    PlaneRotateNorm(c, s, v.x, v.y, w.x, w.y);
  }

  /** The planar identity behind undoing a rotation: both components come back when c² + s² = 1. */
  lemma PlaneRotateBack(c: real, s: real, p: real, q: real)
    requires c * c + s * s == 1.0
    ensures c * (c * p - s * q) - -s * (s * p + c * q) == p
    ensures -s * (c * p - s * q) + c * (s * p + c * q) == q
  {
    assert c * (c * p - s * q) - -s * (s * p + c * q) == (c * c + s * s) * p;
    assert -s * (c * p - s * q) + c * (s * p + c * q) == (c * c + s * s) * q;
  }

  lemma RotateVertexBack(v: Vertex, a: Axis, c: real, s: real)
    requires c * c + s * s == 1.0
    ensures Apply(Rotate(a, c, -s), Apply(Rotate(a, c, s), v)) == v
  {
    match a
    case X => RotateXBack(v, c, s);
    case Y => RotateYBack(v, c, s);
    case Z => RotateZBack(v, c, s);
  }

  lemma RotateXBack(v: Vertex, c: real, s: real)
    requires c * c + s * s == 1.0
    ensures Apply(Rotate(X, c, -s), Apply(Rotate(X, c, s), v)) == v
  {
    var p, q := v.y, v.z;
    PlaneRotateBack(c, s, p, q);
    var w := Vertex(v.x, c * p - s * q, s * p + c * q);
    assert Apply(Rotate(X, c, s), v) == w;
    assert Apply(Rotate(X, c, -s), w) == Vertex(v.x, c * (c * p - s * q) - -s * (s * p + c * q), -s * (c * p - s * q) + c * (s * p + c * q));
  }

  lemma RotateYBack(v: Vertex, c: real, s: real)
    requires c * c + s * s == 1.0
    ensures Apply(Rotate(Y, c, -s), Apply(Rotate(Y, c, s), v)) == v
  {
    var p, q := v.x, v.z;
    PlaneRotateBack(c, -s, p, q);
    var w := Vertex(c * p + s * q, v.y, -s * p + c * q);
    assert Apply(Rotate(Y, c, s), v) == w;
    assert c * p - -s * q == c * p + s * q;
    assert c * (c * p - -s * q) - - -s * (-s * p + c * q) == c * (c * p + s * q) + -s * (-s * p + c * q);
    assert - -s * (c * p - -s * q) + c * (-s * p + c * q) == - -s * (c * p + s * q) + c * (-s * p + c * q);
  }

  lemma RotateZBack(v: Vertex, c: real, s: real)
    requires c * c + s * s == 1.0
    ensures Apply(Rotate(Z, c, -s), Apply(Rotate(Z, c, s), v)) == v
  {
    var p, q := v.x, v.y;
    PlaneRotateBack(c, s, p, q);
    var w := Vertex(c * p - s * q, s * p + c * q, v.z);
    assert Apply(Rotate(Z, c, s), v) == w;
    assert Apply(Rotate(Z, c, -s), w) == Vertex(c * (c * p - s * q) - -s * (s * p + c * q), -s * (c * p - s * q) + c * (s * p + c * q), v.z);
  }

  /** With c² + s² = 1, rotating by (c, -s), the angle's negation, undoes rotating by (c, s). */
  lemma RotateBack(vs: seq<Vertex>, a: Axis, c: real, s: real)
    requires c * c + s * s == 1.0
    ensures Transformed(Transformed(vs, Rotate(a, c, s)), Rotate(a, c, -s)) == vs
  {
    var r := Transformed(Transformed(vs, Rotate(a, c, s)), Rotate(a, c, -s));
    forall i | 0 <= i < |vs| ensures r[i] == vs[i] {
      if i > 0 {
        RotateVertexBack(vs[i], a, c, s);
      }
    }
  }

  /** A factor that is not positive leaves the whole table unchanged. */
  lemma ScaleNotPositiveKeeps(vs: seq<Vertex>, f: real)
    requires f <= 0.0
    ensures Transformed(vs, Scale(f)) == vs
  {
    var r := Transformed(vs, Scale(f));
    assert forall i :: 0 <= i < |vs| ==> r[i] == vs[i];
  }

  /** A positive factor multiplies every coordinate of every slot from 1 on. */
  lemma ScaleMultiplies(vs: seq<Vertex>, f: real, i: nat, a: Axis)
    requires f > 0.0 && 1 <= i < |vs|
    ensures Coord(Transformed(vs, Scale(f))[i], a) == Coord(vs[i], a) * f
  {
  }

  /** Scaling by f > 0 and then by 1/f restores every vertex. */
  lemma ScaleBack(vs: seq<Vertex>, f: real)
    requires f > 0.0
    ensures Transformed(Transformed(vs, Scale(f)), Scale(1.0 / f)) == vs
  {
    var r := Transformed(Transformed(vs, Scale(f)), Scale(1.0 / f));
    forall i | 0 <= i < |vs| ensures r[i] == vs[i] {
      if i > 0 {
        var v := vs[i];
        assert 1.0 / f > 0.0;
        assert v.x * f * (1.0 / f) == v.x && v.y * f * (1.0 / f) == v.y && v.z * f * (1.0 / f) == v.z;
      }
    }
  }

  // ---------------------------------------------------------------------------
  // Fit to the viewport (setInCenter)
  // ---------------------------------------------------------------------------

  /** 1.5 - 1.5 * (-1): the distance between the viewport limits -1.5 and 1.5. */
  const ViewportSpan: real := 1.5 - 1.5 * (-1.0)

  function Extent(b: Box, a: Axis): real { Hi(b, a) - Lo(b, a) }

  /** fmax(fmax(maxX - minX, maxY - minY), maxZ - minZ). */
  function MaxExtent(b: Box): real {
    Max(Max(b.maxX - b.minX, b.maxY - b.minY), b.maxZ - b.minZ)
  }

  /** The largest extent is at least every extent and is the extent of some axis. */
  lemma MaxExtentIsLargest(b: Box)
    ensures forall a :: Extent(b, a) <= MaxExtent(b)
    ensures exists a :: Extent(b, a) == MaxExtent(b)
  {
    assert Extent(b, X) == b.maxX - b.minX && Extent(b, Y) == b.maxY - b.minY && Extent(b, Z) == b.maxZ - b.minZ;
  }

  /** center = min + (max - min) / 2 on each axis. */
  function Center(b: Box): Vertex {
    Vertex(b.minX + (b.maxX - b.minX) / 2.0, b.minY + (b.maxY - b.minY) / 2.0, b.minZ + (b.maxZ - b.minZ) / 2.0)
  }

  /** zoom = 3 / (largest extent); the source divides by zero when that extent is 0. */
  function Zoom(b: Box): real
    requires MaxExtent(b) != 0.0
  {
    ViewportSpan / MaxExtent(b)
  }

  /** The step setInCenter applies to every vertex slot. */
  function Fit(b: Box): Transform
    requires MaxExtent(b) != 0.0
  {
    Recentre(Center(b), Zoom(b))
  }

  /** On every axis the recentring step subtracts the centre's coordinate and scales by the zoom. */
  lemma RecentreCoord(ctr: Vertex, zm: real, v: Vertex, a: Axis)
    ensures Coord(Apply(Recentre(ctr, zm), v), a) == (Coord(v, a) - Coord(ctr, a)) * zm
  {
    match a
    case X =>
    case Y =>
    case Z =>
  }

  /** The centre lies halfway between the bounds on every axis. */
  lemma CenterCoord(b: Box, a: Axis)
    ensures Coord(Center(b), a) == (Lo(b, a) + Hi(b, a)) / 2.0
  {
    match a
    case X =>
    case Y =>
    case Z =>
  }

  /** Equal centres give equal scaled offsets. */
  lemma OffsetScaled(x: real, c: real, m: real, z: real, r: real)
    requires c == m && r == (x - c) * z
    ensures r == (x - m) * z
  {
  }

  /** Recentring on the centre of a box: each coordinate's offset from the middle of the bounds, times the zoom. */
  lemma BoxRecentreCoord(b: Box, z: real, v: Vertex, a: Axis)
    ensures Coord(Apply(Recentre(Center(b), z), v), a) == (Coord(v, a) - (Lo(b, a) + Hi(b, a)) / 2.0) * z
  {
    RecentreCoord(Center(b), z, v, a);
    CenterCoord(b, a);
    OffsetScaled(Coord(v, a), Coord(Center(b), a), (Lo(b, a) + Hi(b, a)) / 2.0, z, Coord(Apply(Recentre(Center(b), z), v), a));
  }

  /** What the fit does to one coordinate: its offset from the middle of the bounds, times the zoom 3 / (largest extent). */
  lemma FitCoord(b: Box, v: Vertex, a: Axis)
    requires MaxExtent(b) != 0.0
    ensures Coord(Apply(Fit(b), v), a) == (Coord(v, a) - (Lo(b, a) + Hi(b, a)) / 2.0) * Zoom(b)
  {
    BoxRecentreCoord(b, Zoom(b), v, a);
  }

  /** The middle of [lo, hi] goes to 0 and the ends to opposite points. */
  lemma EndsOpposite(x: real, y: real, lo: real, hi: real, z: real, r: real, t: real)
    requires x == lo && y == hi
    requires r == (x - (lo + hi) / 2.0) * z && t == (y - (lo + hi) / 2.0) * z
    ensures r == -t
  {
    assert lo - (lo + hi) / 2.0 == -(hi - (lo + hi) / 2.0);
  }

  /** Recentring on the centre of a box, with any zoom, sends the lowest and highest coordinates to opposite points. */
  lemma RecentreCentres(b: Box, z: real, lo: Vertex, hi: Vertex, a: Axis)
    requires Coord(lo, a) == Lo(b, a) && Coord(hi, a) == Hi(b, a)
    ensures Coord(Apply(Recentre(Center(b), z), lo), a) == -Coord(Apply(Recentre(Center(b), z), hi), a)
  {
    BoxRecentreCoord(b, z, lo, a);
    BoxRecentreCoord(b, z, hi, a);
    EndsOpposite(Coord(lo, a), Coord(hi, a), Lo(b, a), Hi(b, a), z, Coord(Apply(Recentre(Center(b), z), lo), a), Coord(Apply(Recentre(Center(b), z), hi), a));
  }

  /** The lowest and highest coordinates on every axis land at opposite points: the box is centred on 0. */
  lemma FitCentres(b: Box, lo: Vertex, hi: Vertex, a: Axis)
    requires MaxExtent(b) != 0.0
    requires Coord(lo, a) == Lo(b, a) && Coord(hi, a) == Hi(b, a)
    ensures Coord(Apply(Fit(b), lo), a) == -Coord(Apply(Fit(b), hi), a)
  {
    RecentreCentres(b, Zoom(b), lo, hi, a);
  }

  /** The ends of an interval of length e, scaled by 3 / e, land on -1.5 and 1.5. */
  lemma EndsOnViewport(x: real, y: real, lo: real, hi: real, e: real, z: real, r: real, t: real)
    requires x == lo && y == hi && e > 0.0 && hi - lo == e && z == ViewportSpan / e
    requires r == (x - (lo + hi) / 2.0) * z && t == (y - (lo + hi) / 2.0) * z
    ensures r == -1.5 && t == 1.5
  {
    assert hi - (lo + hi) / 2.0 == e / 2.0;
    assert lo - (lo + hi) / 2.0 == -(e / 2.0);
    HalfExtentZoom(e);
  }

  /** Recentring on the centre of a box and scaling by 3 / e, e the extent on `a`, sends that axis's ends to -1.5 and 1.5. */
  lemma RecentreSpans(b: Box, e: real, lo: Vertex, hi: Vertex, a: Axis)
    requires e > 0.0 && Extent(b, a) == e
    requires Coord(lo, a) == Lo(b, a) && Coord(hi, a) == Hi(b, a)
    ensures Coord(Apply(Recentre(Center(b), ViewportSpan / e), lo), a) == -1.5
    ensures Coord(Apply(Recentre(Center(b), ViewportSpan / e), hi), a) == 1.5
  {
    var z := ViewportSpan / e;
    BoxRecentreCoord(b, z, lo, a);
    BoxRecentreCoord(b, z, hi, a);
    EndsOnViewport(Coord(lo, a), Coord(hi, a), Lo(b, a), Hi(b, a), e, z, Coord(Apply(Recentre(Center(b), z), lo), a), Coord(Apply(Recentre(Center(b), z), hi), a));
  }

  /** On an axis of largest extent the lowest and highest coordinates land exactly on -1.5 and 1.5. */
  lemma FitDominantAxis(b: Box, lo: Vertex, hi: Vertex, a: Axis)
    requires MaxExtent(b) > 0.0 && Extent(b, a) == MaxExtent(b)
    requires Coord(lo, a) == Lo(b, a) && Coord(hi, a) == Hi(b, a)
    ensures Coord(Apply(Fit(b), lo), a) == -1.5
    ensures Coord(Apply(Fit(b), hi), a) == 1.5
  {
    RecentreSpans(b, MaxExtent(b), lo, hi, a);
  }

  lemma HalfExtentZoom(e: real)
    requires e > 0.0
    ensures (e / 2.0) * (ViewportSpan / e) == 1.5
  {
  }

  /** A distance of at most h from the centre, scaled by z with h * z = 1.5, stays within 1.5. */
  lemma ScaledWithin(d: real, h: real, z: real)
    requires -h <= d <= h && z > 0.0 && h * z == 1.5
    ensures -1.5 <= d * z <= 1.5
  {
    assert d * z <= h * z;
    assert -h * z <= d * z;
  }

  /** The one-axis arithmetic of the fit: a coordinate in [lo, hi], with hi - lo <= e, lands in [-1.5, 1.5]. */
  lemma ViewportBound(x: real, lo: real, hi: real, e: real, r: real)
    requires lo <= x <= hi && hi - lo <= e && e > 0.0 && r == (x - (lo + hi) / 2.0) * (ViewportSpan / e)
    ensures -1.5 <= r <= 1.5
  {
    HalfExtentZoom(e);
    ScaledWithin(x - (lo + hi) / 2.0, e / 2.0, ViewportSpan / e);
  }

  /** A vertex in the box lies between the bounds on every axis. */
  lemma ContainsCoord(b: Box, v: Vertex, a: Axis)
    requires Contains(b, v)
    ensures Lo(b, a) <= Coord(v, a) <= Hi(b, a)
  {
    match a
    case X =>
    case Y =>
    case Z =>
  }

  /** Recentring a vertex of the box and scaling by 3 / e, for e at least every extent, lands it in [-1.5, 1.5]. */
  lemma RecentreInsideViewport(b: Box, e: real, v: Vertex, a: Axis)
    requires e > 0.0 && Extent(b, a) <= e && Contains(b, v)
    ensures -1.5 <= Coord(Apply(Recentre(Center(b), ViewportSpan / e), v), a) <= 1.5
  {
    ContainsCoord(b, v, a);
    BoxRecentreCoord(b, ViewportSpan / e, v, a);
    ViewportBound(Coord(v, a), Lo(b, a), Hi(b, a), e, Coord(Apply(Recentre(Center(b), ViewportSpan / e), v), a));
  }

  /** A vertex inside the box lands inside the viewport cube [-1.5, 1.5]^3. */
  lemma FitInsideViewport(b: Box, v: Vertex, a: Axis)
    requires MaxExtent(b) > 0.0 && Contains(b, v)
    ensures -1.5 <= Coord(Apply(Fit(b), v), a) <= 1.5
  {
    MaxExtentIsLargest(b);
    RecentreInsideViewport(b, MaxExtent(b), v, a);
  }

  /**
    setInCenter on a table whose slots 1.. lie in the box and attain its bounds on an
    axis of largest extent: that axis then spans exactly [-1.5, 1.5] and every vertex is
    inside the viewport cube.
   */
  lemma FitSpansViewport(vs: seq<Vertex>, b: Box, a: Axis, i: nat, j: nat)
    requires MaxExtent(b) > 0.0 && Extent(b, a) == MaxExtent(b)
    requires 1 <= i < |vs| && 1 <= j < |vs|
    requires Coord(vs[i], a) == Lo(b, a) && Coord(vs[j], a) == Hi(b, a)
    requires forall k :: 1 <= k < |vs| ==> Contains(b, vs[k])
    ensures Coord(Transformed(vs, Fit(b))[i], a) == -1.5
    ensures Coord(Transformed(vs, Fit(b))[j], a) == 1.5
    ensures forall k, a' :: 1 <= k < |vs| ==> -1.5 <= Coord(Transformed(vs, Fit(b))[k], a') <= 1.5
  {
    FitDominantAxis(b, vs[i], vs[j], a);
    forall k, a' | 1 <= k < |vs| ensures -1.5 <= Coord(Transformed(vs, Fit(b))[k], a') <= 1.5 {
      FitInsideViewport(b, vs[k], a');
    }
  }
}
