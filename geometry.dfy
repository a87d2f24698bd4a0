/** The small geometric value objects of the addressing model: an axis-aligned
    `Box`, a `Sphere`, and the `Boundary` of a point cloud. Coordinates are
    exact reals; the source's floats are not modelled. */
module Geometry {
  import opened Common

  datatype Vec3 = Vec3(x: real, y: real, z: real)

  function Mid(a: real, b: real): real {
    (a + b) / 2.0
  }

  /** `np.max` of a three-element size tuple. */
  function Max3(a: real, b: real, c: real): (m: real)
    ensures a <= m && b <= m && c <= m
    ensures m == a || m == b || m == c
  {
    if a >= b && a >= c then a else if b >= c then b else c
  }

  /** A box; either corner may be missing, in which case nothing is derived. */
  datatype Box = Box(min: Option<Vec3>, max: Option<Vec3>) {

    predicate Complete() {
      min.Some? && max.Some?
    }

    /** The per-axis midpoint: as far from `min` as from `max` on every axis. */
    function Center(): (c: Option<Vec3>)
      ensures c.Some? <==> Complete()
      ensures c.Some? ==>
        && c.value.x - min.value.x == max.value.x - c.value.x
        && c.value.y - min.value.y == max.value.y - c.value.y
        && c.value.z - min.value.z == max.value.z - c.value.z
    {
      if Complete() then
        Some(Vec3(Mid(min.value.x, max.value.x), Mid(min.value.y, max.value.y), Mid(min.value.z, max.value.z)))
      else None
    }

    /** The per-axis extent: adding it to `min` gives `max`. */
    function Size(): (s: Option<Vec3>)
      ensures s.Some? <==> Complete()
      ensures s.Some? ==>
        && min.value.x + s.value.x == max.value.x
        && min.value.y + s.value.y == max.value.y
        && min.value.z + s.value.z == max.value.z
    {
      if Complete() then
        Some(Vec3(max.value.x - min.value.x, max.value.y - min.value.y, max.value.z - min.value.z))
      else None
    }

    function MinX(): Option<real> {
      if min.Some? then Some(min.value.x) else None
    }

    /** As written in the source, `min_y` reads the x coordinate of `min`. */
    function MinY(): Option<real> {
      if min.Some? then Some(min.value.x) else None
    }

    /** As written in the source, `min_z` reads the x coordinate of `min`. */
    function MinZ(): Option<real> {
      if min.Some? then Some(min.value.x) else None
    }

    function MaxX(): Option<real> {
      if max.Some? then Some(max.value.x) else None
    }

    function MaxY(): Option<real> {
      if max.Some? then Some(max.value.y) else None
    }

    function MaxZ(): Option<real> {
      if max.Some? then Some(max.value.z) else None
    }

    function SizeX(): Option<real> {
      if Complete() then Some(Size().value.x) else None
    }

    function SizeY(): Option<real> {
      if Complete() then Some(Size().value.y) else None
    }

    function SizeZ(): Option<real> {
      if Complete() then Some(Size().value.z) else None
    }

    function CenterX(): Option<real> {
      if Complete() then Some(Center().value.x) else None
    }

    function CenterY(): Option<real> {
      if Complete() then Some(Center().value.y) else None
    }

    function CenterZ(): Option<real> {
      if Complete() then Some(Center().value.z) else None
    }

    /** The sphere at the box center whose diameter is the largest side. */
    function ToSphere(): (s: Option<Sphere>)
      ensures s.Some? <==> Complete()
      ensures s.Some? ==>
        && s.value.center == Center()
        && s.value.radius.Some?
        && 2.0 * s.value.radius.value == Max3(Size().value.x, Size().value.y, Size().value.z)
    {
      if Complete() then
        var size := Size().value;
        Some(Sphere(Center(), Some(Max3(size.x, size.y, size.z) / 2.0)))
      else None
    }
  }

  /** A sphere; either part may be missing, in which case nothing is derived. */
  datatype Sphere = Sphere(center: Option<Vec3>, radius: Option<real>) {

    predicate Complete() {
      center.Some? && radius.Some?
    }

    function CenterX(): Option<real> {
      if center.Some? then Some(center.value.x) else None
    }

    function CenterY(): Option<real> {
      if center.Some? then Some(center.value.y) else None
    }

    function CenterZ(): Option<real> {
      if center.Some? then Some(center.value.z) else None
    }

    function RadiusX(): Option<real> {
      radius
    }

    function RadiusY(): Option<real> {
      radius
    }

    function RadiusZ(): Option<real> {
      radius
    }

    /** The cube with the same center whose sides are all one diameter long. */
    function ToBox(): (b: Option<Box>)
      ensures b.Some? <==> Complete()
      ensures b.Some? ==>
        && b.value.Complete()
        && b.value.Center() == center
        && b.value.Size() == Some(Vec3(2.0 * radius.value, 2.0 * radius.value, 2.0 * radius.value))
    {
      if Complete() then
        var c, r := center.value, radius.value;
        Some(Box(Some(Vec3(c.x - r, c.y - r, c.z - r)), Some(Vec3(c.x + r, c.y + r, c.z + r))))
      else None
    }
  }

  /** The accessors read the stored corners, except that `min_y` and `min_z`
      both return the x coordinate of `min`. */
  lemma BoxAccessors(b: Box)
    ensures b.MinY() == b.MinX() && b.MinZ() == b.MinX()
    ensures b.min.Some? ==> b.MinX() == Some(b.min.value.x)
    ensures b.max.Some? ==> b.MaxX() == Some(b.max.value.x) && b.MaxY() == Some(b.max.value.y) && b.MaxZ() == Some(b.max.value.z)
    ensures b.Complete() ==> b.SizeX() == Some(b.max.value.x - b.min.value.x)
    ensures b.Complete() ==> b.CenterY() == Some((b.min.value.y + b.max.value.y) / 2.0)
    ensures !b.Complete() ==> b.SizeX() == b.SizeY() == b.SizeZ() == b.CenterX() == b.CenterY() == b.CenterZ() == None
  {
  }

  /** Every radius accessor of a sphere returns the one radius. */
  lemma SphereAccessors(s: Sphere)
    ensures s.RadiusX() == s.RadiusY() == s.RadiusZ() == s.radius
    ensures s.center.Some? ==> s.CenterZ() == Some(s.center.value.z)
  {
  }

  predicate IsCube(b: Box)
    requires b.Complete()
  {
    var s := b.Size().value;
    s.x == s.y == s.z
  }

  /** A sphere survives the trip through its bounding cube unchanged. */
  lemma SphereBoxSphere(s: Sphere)
    requires s.Complete()
    ensures s.ToBox().Some? && s.ToBox().value.ToSphere() == Some(s)
  {
  }

  /** A box survives the trip through `to_sphere` and back exactly when it is a
      cube: the two conversions are not inverse in general. */
  lemma BoxSphereBoxIffCube(b: Box)
    requires b.Complete()
    ensures b.ToSphere().Some? && b.ToSphere().value.ToBox().Some?
    ensures b.ToSphere().value.ToBox() == Some(b) <==> IsCube(b)
  {
    var size := b.Size().value;
    var m := Max3(size.x, size.y, size.z);
    var back := b.ToSphere().value.ToBox().value;
    if back == b {
      assert back.Size() == Some(Vec3(m, m, m));
    }
  }

  /** The coordinates an atom carries; any of them may be missing. */
  datatype Coords = Coords(x: Option<real>, y: Option<real>, z: Option<real>) {
    predicate Present() {
      x.Some? && y.Some? && z.Some?
    }
  }

  /** The bounding box and the box-centred bounding sphere of a point cloud.
      The sphere is kept by its center and by the SQUARE of its radius. */
  datatype Boundary = Boundary(box: Box, sphereCenter: Vec3, sphereRadiusSquared: real)

  function MinOf(s: seq<real>): (m: real)
    requires |s| > 0
    ensures forall i :: 0 <= i < |s| ==> m <= s[i]
    ensures exists i :: 0 <= i < |s| && s[i] == m
  {
    if |s| == 1 then s[0]
    else
      var rest := MinOf(s[1..]);
      if s[0] <= rest then s[0] else rest
  }

  function MaxOf(s: seq<real>): (m: real)
    requires |s| > 0
    ensures forall i :: 0 <= i < |s| ==> s[i] <= m
    ensures exists i :: 0 <= i < |s| && s[i] == m
  {
    if |s| == 1 then s[0]
    else
      var rest := MaxOf(s[1..]);
      if s[0] >= rest then s[0] else rest
  }

  function SquaredDistance(p: Vec3, q: Vec3): real {
    (p.x - q.x) * (p.x - q.x) + (p.y - q.y) * (p.y - q.y) + (p.z - q.z) * (p.z - q.z)
  }

  function Xs(ps: seq<Vec3>): (r: seq<real>)
    ensures |r| == |ps| && forall i :: 0 <= i < |ps| ==> r[i] == ps[i].x
  {
    seq(|ps|, i requires 0 <= i < |ps| => ps[i].x)
  }

  function Ys(ps: seq<Vec3>): (r: seq<real>)
    ensures |r| == |ps| && forall i :: 0 <= i < |ps| ==> r[i] == ps[i].y
  {
    seq(|ps|, i requires 0 <= i < |ps| => ps[i].y)
  }

  function Zs(ps: seq<Vec3>): (r: seq<real>)
    ensures |r| == |ps| && forall i :: 0 <= i < |ps| ==> r[i] == ps[i].z
  {
    seq(|ps|, i requires 0 <= i < |ps| => ps[i].z)
  }

  function DistancesSquared(ps: seq<Vec3>, c: Vec3): (r: seq<real>)
    ensures |r| == |ps| && forall i :: 0 <= i < |ps| ==> r[i] == SquaredDistance(ps[i], c)
  {
    seq(|ps|, i requires 0 <= i < |ps| => SquaredDistance(ps[i], c))
  }

  predicate AllPresent(cs: seq<Coords>) {
    forall i :: 0 <= i < |cs| ==> cs[i].Present()
  }

  function Points(cs: seq<Coords>): seq<Vec3>
    requires AllPresent(cs)
  {
    seq(|cs|, i requires 0 <= i < |cs| && AllPresent(cs) => Vec3(cs[i].x.value, cs[i].y.value, cs[i].z.value))
  }

  /** The box is the tightest axis-aligned box around the points: every point
      lies inside it and each of its six faces touches some point. */
  predicate TightBox(b: Box, ps: seq<Vec3>) {
    && b.Complete()
    && (forall i :: 0 <= i < |ps| ==>
          && b.min.value.x <= ps[i].x <= b.max.value.x
          && b.min.value.y <= ps[i].y <= b.max.value.y
          && b.min.value.z <= ps[i].z <= b.max.value.z)
    && (exists i :: 0 <= i < |ps| && ps[i].x == b.min.value.x)
    && (exists i :: 0 <= i < |ps| && ps[i].y == b.min.value.y)
    && (exists i :: 0 <= i < |ps| && ps[i].z == b.min.value.z)
    && (exists i :: 0 <= i < |ps| && ps[i].x == b.max.value.x)
    && (exists i :: 0 <= i < |ps| && ps[i].y == b.max.value.y)
    && (exists i :: 0 <= i < |ps| && ps[i].z == b.max.value.z)
  }

  /** The squared radius is the largest squared distance from the center to a point. */
  predicate FarthestPoint(c: Vec3, radiusSquared: real, ps: seq<Vec3>) {
    && (forall i :: 0 <= i < |ps| ==> SquaredDistance(ps[i], c) <= radiusSquared)
    && (exists i :: 0 <= i < |ps| && SquaredDistance(ps[i], c) == radiusSquared)
  }

  /** The per-axis minima and maxima of a non-empty point cloud. */
  function BoundingBox(ps: seq<Vec3>): (b: Box)
    requires |ps| > 0
    ensures TightBox(b, ps)
  {
    Box(Some(Vec3(MinOf(Xs(ps)), MinOf(Ys(ps)), MinOf(Zs(ps)))),
        Some(Vec3(MaxOf(Xs(ps)), MaxOf(Ys(ps)), MaxOf(Zs(ps)))))
  }

  /** What `Boundary` computes for a point cloud: the tight box, a sphere
      centred at the box center, and the squared distance to the farthest
      point as the sphere's squared radius. */
  predicate Encloses(b: Boundary, ps: seq<Vec3>) {
    && TightBox(b.box, ps)
    && b.box.Center() == Some(b.sphereCenter)
    && FarthestPoint(b.sphereCenter, b.sphereRadiusSquared, ps)
  }

  function BoundaryOfPoints(ps: seq<Vec3>): (b: Boundary)
    requires |ps| > 0
    ensures Encloses(b, ps)
  {
    var box := BoundingBox(ps);
    var center := box.Center().value;
    Boundary(box, center, MaxOf(DistancesSquared(ps, center)))
  }

  /** `Boundary(coords)`: fails with ValueError when there are no coordinates or
      one is missing; otherwise encloses the points. */
  function BoundaryOf(cs: seq<Coords>): (r: Result<Boundary>)
    ensures r.Err? <==> cs == [] || !AllPresent(cs)
    ensures r.Err? ==> r.error == ValueError
    ensures r.Ok? ==> Encloses(r.value, Points(cs))
  {
    if cs == [] || !AllPresent(cs) then Err(ValueError)
    else Ok(BoundaryOfPoints(Points(cs)))
  }
}
