/** Per-mesh bounds, the document size of the main mesh and the mesh role flags,
    as the exporter computes them in save (io_scene_cdp3d/export_cdp3d.py). */
module Geometry {
  import opened Wrappers

  datatype Vec3 = Vec3(x: real, y: real, z: real)

  function Sub(a: Vec3, b: Vec3): Vec3 {
    Vec3(a.x - b.x, a.y - b.y, a.z - b.z)
  }

  /** A vertex position multiplied componentwise by the object's scale. */
  function ScaleVertex(co: Vec3, scale: Vec3): Vec3 {
    Vec3(co.x * scale.x, co.y * scale.y, co.z * scale.z)
  }

  function ScaleAll(cos: seq<Vec3>, scale: Vec3): seq<Vec3> {
    seq(|cos|, i requires 0 <= i < |cos| => ScaleVertex(cos[i], scale))
  }

  datatype Axis = X | Y | Z

  function Coord(v: Vec3, a: Axis): real {
    match a
    case X => v.x
    case Y => v.y
    case Z => v.z
  }

  /** The running minimum of the exporter's vertex loop on one axis.  It starts at
      0.0: the seeding from the first vertex reads the freshly created mesh record,
      whose vertex list is still empty. */
  function Low(vs: seq<Vec3>, a: Axis): (r: real)
    ensures r <= 0.0
    ensures forall i :: 0 <= i < |vs| ==> r <= Coord(vs[i], a)
  {
    if vs == [] then 0.0
    else
      var low := Low(vs[..|vs| - 1], a);
      var c := Coord(vs[|vs| - 1], a);
      if low > c then c else low
  }

  /** The running maximum, also starting at 0.0. */
  function High(vs: seq<Vec3>, a: Axis): (r: real)
    ensures 0.0 <= r
    ensures forall i :: 0 <= i < |vs| ==> Coord(vs[i], a) <= r
  {
    if vs == [] then 0.0
    else
      var high := High(vs[..|vs| - 1], a);
      var c := Coord(vs[|vs| - 1], a);
      if high < c then c else high
  }

  datatype Box = Box(low: Vec3, high: Vec3)

  function BoundsOf(vs: seq<Vec3>): Box {
    Box(Vec3(Low(vs, X), Low(vs, Y), Low(vs, Z)), Vec3(High(vs, X), High(vs, Y), High(vs, Z)))
  }

  /** On every axis the box reaches from at most 0 to at least 0 and holds every vertex. */
  ghost predicate Encloses(b: Box, vs: seq<Vec3>) {
    && b.low.x <= 0.0 <= b.high.x
    && b.low.y <= 0.0 <= b.high.y
    && b.low.z <= 0.0 <= b.high.z
    && forall v :: v in vs ==>
         && b.low.x <= v.x <= b.high.x
         && b.low.y <= v.y <= b.high.y
         && b.low.z <= v.z <= b.high.z
  }

  /** Low is the least of 0 and the coordinates: a lower bound that is 0 or attained. */
  lemma {:induction false} LowIsLeast(vs: seq<Vec3>, a: Axis)
    ensures Low(vs, a) <= 0.0
    ensures forall v :: v in vs ==> Low(vs, a) <= Coord(v, a)
    ensures Low(vs, a) == 0.0 || exists v :: v in vs && Coord(v, a) == Low(vs, a)
  {
    if vs != [] {
      var init := vs[..|vs| - 1];
      LowIsLeast(init, a);
      assert vs == init + [vs[|vs| - 1]];
    }
  }

  /** High is the greatest of 0 and the coordinates: an upper bound that is 0 or attained. */
  lemma {:induction false} HighIsGreatest(vs: seq<Vec3>, a: Axis)
    ensures 0.0 <= High(vs, a)
    ensures forall v :: v in vs ==> Coord(v, a) <= High(vs, a)
    ensures High(vs, a) == 0.0 || exists v :: v in vs && Coord(v, a) == High(vs, a)
  {
    if vs != [] {
      var init := vs[..|vs| - 1];
      HighIsGreatest(init, a);
      assert vs == init + [vs[|vs| - 1]];
    }
  }

  lemma {:induction false} BoundsEnclose(vs: seq<Vec3>)
    ensures Encloses(BoundsOf(vs), vs)
  {
    LowIsLeast(vs, X); LowIsLeast(vs, Y); LowIsLeast(vs, Z);
    HighIsGreatest(vs, X); HighIsGreatest(vs, Y); HighIsGreatest(vs, Z);
    forall v | v in vs
      ensures BoundsOf(vs).low.x <= v.x <= BoundsOf(vs).high.x
      ensures BoundsOf(vs).low.y <= v.y <= BoundsOf(vs).high.y
      ensures BoundsOf(vs).low.z <= v.z <= BoundsOf(vs).high.z
    {
      assert Coord(v, X) == v.x && Coord(v, Y) == v.y && Coord(v, Z) == v.z;
    }
  }

  /** The vertex loop of save: scale each vertex, append it, and widen the six
      running extrema, which start at 0.0. */
  method ScanVertices(cos: seq<Vec3>, scale: Vec3) returns (verts: seq<Vec3>, box: Box)
    ensures verts == ScaleAll(cos, scale)
    ensures box == BoundsOf(verts)
    ensures Encloses(box, verts)
  {
    var lowx, highx, lowy, highy, lowz, highz := 0.0, 0.0, 0.0, 0.0, 0.0, 0.0;
    verts := [];
    for i := 0 to |cos|
      invariant verts == ScaleAll(cos[..i], scale)
      invariant lowx == Low(verts, X) && highx == High(verts, X)
      invariant lowy == Low(verts, Y) && highy == High(verts, Y)
      invariant lowz == Low(verts, Z) && highz == High(verts, Z)
    {
      var pos := ScaleVertex(cos[i], scale);
      if lowx > pos.x { lowx := pos.x; }
      if highx < pos.x { highx := pos.x; }
      if lowy > pos.y { lowy := pos.y; }
      if highy < pos.y { highy := pos.y; }
      if lowz > pos.z { lowz := pos.z; }
      if highz < pos.z { highz := pos.z; }
      assert (verts + [pos])[..|verts|] == verts;
      verts := verts + [pos];
    }
    assert cos[..|cos|] == cos;
    box := Box(Vec3(lowx, lowy, lowz), Vec3(highx, highy, highz));
    BoundsEnclose(verts);
  }

  /** The extents written for every mesh: length along X, height along Z, depth along Y. */
  datatype Size = Size(length: real, height: real, depth: real)

  function Extents(b: Box): Size {
    Size(b.high.x - b.low.x, b.high.z - b.low.z, b.high.y - b.low.y)
  }

  /** Every extent is non-negative and spans every vertex and the mesh origin. */
  lemma {:induction false} ExtentsCoverVertices(vs: seq<Vec3>)
    ensures var s := Extents(BoundsOf(vs));
            s.length >= 0.0 && s.height >= 0.0 && s.depth >= 0.0
    ensures var s := Extents(BoundsOf(vs));
            forall v, w :: v in vs && w in vs ==>
              v.x - w.x <= s.length && v.y - w.y <= s.depth && v.z - w.z <= s.height
  {
    BoundsEnclose(vs);
  }

  /** The snapping makep3d applies to the document length and depth. */
  function Snap(v: real): (r: real)
    ensures 19.95 <= v <= 20.05 ==> r == 20.0
    ensures 39.95 <= v <= 40.05 ==> r == 40.0
    ensures !(19.95 <= v <= 20.05) && !(39.95 <= v <= 40.05) ==> r == v
  {
    var a := if 19.95 <= v <= 20.05 then 20.0 else v;
    if 39.95 <= a <= 40.05 then 40.0 else a
  }

  function Max(a: real, b: real): real {
    if a >= b then a else b
  }

  /** The height recorded for the main mesh: its Z extent, unless a floor_level
      empty is present and its use is enabled, in which case twice the depth of
      the floor below the main mesh's origin. */
  function MainHeight(box: Box, floorLevel: Option<Vec3>, useFloorLevel: bool, mainLocation: Vec3): (h: real)
    ensures floorLevel.Some? && useFloorLevel ==> floorLevel.value.z == mainLocation.z - h / 2.0
    ensures !(floorLevel.Some? && useFloorLevel) ==> h == Extents(box).height
  {
    if floorLevel.Some? && useFloorLevel then -(floorLevel.value.z - mainLocation.z) * 2.0
    else box.high.z - box.low.z
  }

  /** The two windows in which Snap rounds a value to 20 or 40. */
  predicate InSnapWindow(v: real) {
    19.95 <= v <= 20.05 || 39.95 <= v <= 40.05
  }

  /** The document size taken from the main mesh: the height as recorded, and a
      length and depth symmetric about the main mesh's origin, snapped.  Each of
      length and depth lies within 0.05 of twice the box's larger reach from the
      origin on its axis, equals it outside the snap windows, and is 20 or 40
      inside them. */
  function DocumentSize(box: Box, height: real): (s: Size)
    ensures s.height == height
    ensures s.length + 0.05 >= 2.0 * box.high.x && s.length + 0.05 >= -2.0 * box.low.x
    ensures s.depth + 0.05 >= 2.0 * box.high.y && s.depth + 0.05 >= -2.0 * box.low.y
    ensures var v := 2.0 * Max(box.high.x, -box.low.x);
            && v - 0.05 <= s.length <= v + 0.05
            && (!InSnapWindow(v) ==> s.length == v)
            && (InSnapWindow(v) ==> s.length == 20.0 || s.length == 40.0)
    ensures var v := 2.0 * Max(box.high.y, -box.low.y);
            && v - 0.05 <= s.depth <= v + 0.05
            && (!InSnapWindow(v) ==> s.depth == v)
            && (InSnapWindow(v) ==> s.depth == 20.0 || s.depth == 40.0)
  {
    Size(Snap(Max(box.high.x, -box.low.x) * 2.0), height, Snap(Max(box.high.y, -box.low.y) * 2.0))
  }

  /** Unsnapped, the symmetric length and depth cover the main mesh's own extent
      and equal it exactly when the mesh is symmetric about its origin. */
  lemma {:induction false} SymmetricSizeCoversExtent(box: Box)
    requires box.low.x <= 0.0 <= box.high.x && box.low.y <= 0.0 <= box.high.y
    ensures Max(box.high.x, -box.low.x) * 2.0 >= Extents(box).length
    ensures Max(box.high.y, -box.low.y) * 2.0 >= Extents(box).depth
    ensures Max(box.high.x, -box.low.x) * 2.0 == Extents(box).length <==> box.high.x == -box.low.x
    ensures Max(box.high.y, -box.low.y) * 2.0 == Extents(box).depth <==> box.high.y == -box.low.y
  {
  }

  lemma {:induction false} SnapExamples()
    ensures Snap(19.96) == 20.0 && Snap(20.10) == 20.10
    ensures Snap(39.97) == 40.0 && Snap(40.10) == 40.10
  {
  }

  /** Snapping a value twice changes nothing more. */
  lemma {:induction false} SnapIdempotent(v: real)
    ensures Snap(Snap(v)) == Snap(v)
  {
  }

  /** The role a mesh plays in the model. */
  datatype Role = MainMesh | ShadowMesh | CollisionMesh | OtherMesh

  /** The flags of save: 3 for the main mesh, which also takes the shadow (4) and
      collision (8) bits when those meshes are missing; 4 for the shadow mesh, 8
      for the collision mesh and 2 for any other.  The record's flags start at 0. */
  function MeshFlags(role: Role, hasShadow: bool, hasCollision: bool): (flags: bv32)
    ensures flags & 1 != 0 <==> role == MainMesh
    ensures flags & 2 != 0 <==> role == MainMesh || role == OtherMesh
    ensures flags & 4 != 0 <==> role == ShadowMesh || (role == MainMesh && !hasShadow)
    ensures flags & 8 != 0 <==> role == CollisionMesh || (role == MainMesh && !hasCollision)
    ensures flags & !15 == 0
  {
    var flags: bv32 := 0;
    match role
    case MainMesh =>
      var f := flags | 3;
      var f := if hasShadow then f else f | 4;
      if hasCollision then f else f | 8
    case ShadowMesh => flags | 4
    case CollisionMesh => flags | 8
    case OtherMesh => flags | 2
  }

  /** The role a reader recovers from the flags. */
  function RoleOfFlags(flags: bv32): (r: Role)
    ensures r == MainMesh <==> flags & 1 != 0
    ensures r == OtherMesh <==> flags & 13 == 0
  {
    if flags & 1 != 0 then MainMesh
    else if flags & 4 != 0 then ShadowMesh
    else if flags & 8 != 0 then CollisionMesh
    else OtherMesh
  }

  lemma {:induction false} FlagsDetermineRole(role: Role, hasShadow: bool, hasCollision: bool)
    ensures RoleOfFlags(MeshFlags(role, hasShadow, hasCollision)) == role
  {
    var f := MeshFlags(role, hasShadow, hasCollision);
    if role != MainMesh {
      assert f & 1 == 0;
    }
  }

  lemma {:induction false} FlagExamples()
    ensures MeshFlags(MainMesh, false, false) == 15
    ensures MeshFlags(MainMesh, true, false) == 11
    ensures MeshFlags(MainMesh, true, true) == 3
    ensures MeshFlags(ShadowMesh, true, false) == 4
    ensures MeshFlags(CollisionMesh, false, true) == 8
    ensures MeshFlags(OtherMesh, true, true) == 2
  {
  }
}
