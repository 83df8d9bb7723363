/** The mesh rebuilding of load (io_scene_cdp3d/import_cdp3d.py): every P3D
    polygon becomes a Blender face with three loops whose UVs are the polygon's
    corners, each face takes the first material slot naming its kind and texture,
    and the Gouraud family of kinds is shaded smooth.  The floor-level empty is
    placed half the document height below the origin.  A mesh rebuilt this way
    saves back to the polygons it was read from. */
module P3dImport {
  import opened Wrappers
  import opened Materials
  import opened Geometry
  import opened Organiser

  /** A Blender face: the three vertex indices of a triangle. */
  datatype Face = Face(a: nat, b: nat, c: nat)

  /** What load sets on each face: its material slot and its smooth flag. */
  datatype FaceMaterial = FaceMaterial(slot: nat, smooth: bool)

  /** An entry of materials_used: a kind and a texture. */
  type MaterialEntry = (PolyMaterial, string)

  function FaceOf(pol: Polygon): Face {
    Face(pol.p1, pol.p2, pol.p3)
  }

  /** The UVs of the faces' loops, three per polygon in corner order. */
  function FaceUVs(polys: seq<Polygon>): (r: seq<UV>)
    ensures |r| == 3 * |polys|
    ensures forall i :: 0 <= i < |polys| ==>
              r[3 * i] == UV(polys[i].u1, polys[i].v1) &&
              r[3 * i + 1] == UV(polys[i].u2, polys[i].v2) &&
              r[3 * i + 2] == UV(polys[i].u3, polys[i].v3)
  {
    if polys == [] then []
    else
      var n := |polys| - 1;
      var p := polys[n];
      var r := FaceUVs(polys[..n]) + [UV(p.u1, p.v1), UV(p.u2, p.v2), UV(p.u3, p.v3)];
      assert forall i :: 0 <= i < n ==> polys[..n][i] == polys[i];
      r
  }

  /** The faces and loop UVs load builds from a mesh's polygons. */
  method CreateMeshFaces(polys: seq<Polygon>) returns (faces: seq<Face>, uvs: seq<UV>)
    ensures |faces| == |polys|
    ensures forall i :: 0 <= i < |polys| ==> faces[i] == FaceOf(polys[i])
    ensures uvs == FaceUVs(polys)
  {
    faces, uvs := [], [];
    for i := 0 to |polys|
      invariant |faces| == i
      invariant forall k :: 0 <= k < i ==> faces[k] == FaceOf(polys[k])
      invariant uvs == FaceUVs(polys[..i])
    {
      var p := polys[i];
      faces := faces + [Face(p.p1, p.p2, p.p3)];
      uvs := uvs + [UV(p.u1, p.v1)];
      uvs := uvs + [UV(p.u2, p.v2)];
      uvs := uvs + [UV(p.u3, p.v3)];
      assert polys[..i + 1][..i] == polys[..i];
    }
    assert polys[..|polys|] == polys;
  }

  /** The flat list of coordinates handed to the UV layer: u then v per loop. */
  function Flatten(uvs: seq<UV>): (r: seq<real>)
    ensures |r| == 2 * |uvs|
    ensures forall i :: 0 <= i < |uvs| ==> r[2 * i] == uvs[i].u && r[2 * i + 1] == uvs[i].v
  {
    if uvs == [] then []
    else
      var n := |uvs| - 1;
      assert forall i :: 0 <= i < n ==> uvs[..n][i] == uvs[i];
      Flatten(uvs[..n]) + [uvs[n].u, uvs[n].v]
  }

  /** Reading the flat list back in pairs. */
  function Unflatten(data: seq<real>): (r: seq<UV>)
    requires |data| % 2 == 0
    ensures |r| == |data| / 2
  {
    if data == [] then [] else [UV(data[0], data[1])] + Unflatten(data[2..])
  }

  /** The flat list loses nothing: each loop's UV is recovered from it. */
  lemma {:induction false} UnflattenFlatten(uvs: seq<UV>)
    ensures Unflatten(Flatten(uvs)) == uvs
  {
    var r := Unflatten(Flatten(uvs));
    forall i | 0 <= i < |uvs|
      ensures r[i] == uvs[i]
    {
      UnflattenAt(Flatten(uvs), i);
    }
  }

  lemma {:induction false} UnflattenAt(data: seq<real>, i: nat)
    requires |data| % 2 == 0 && i < |data| / 2
    ensures Unflatten(data)[i] == UV(data[2 * i], data[2 * i + 1])
  {
    if i > 0 {
      UnflattenAt(data[2..], i - 1);
    }
  }

  /** The kinds load shades smooth. */
  predicate Smooth(m: PolyMaterial) {
    m == Kind(Gouraud) || m == Kind(GouraudMetal) || m == Kind(GouraudMetalEnv)
  }

  /** The first entry of materials_used that names this kind and texture. */
  function FirstEntry(used: seq<MaterialEntry>, pol: Polygon): (r: Option<nat>)
    ensures r.None? <==> (pol.material, pol.texture) !in used
    ensures r.Some? ==> r.value < |used| && used[r.value] == (pol.material, pol.texture)
    ensures r.Some? ==> forall k :: 0 <= k < r.value ==> used[k] != (pol.material, pol.texture)
  {
    var key := (pol.material, pol.texture);
    if key in used then Some(IndexOf(used, key)) else None
  }

  /** The material slots and smooth flags load gives the faces.  A face whose
      kind and texture name no slot ends load with an error naming that face. */
  method AssignMaterials(polys: seq<Polygon>, used: seq<MaterialEntry>) returns (r: Result<seq<FaceMaterial>, nat>)
    ensures r.Ok? <==> forall i :: 0 <= i < |polys| ==> FirstEntry(used, polys[i]).Some?
    ensures r.Err? ==> r.error < |polys| && FirstEntry(used, polys[r.error]).None?
    ensures r.Err? ==> forall i :: 0 <= i < r.error ==> FirstEntry(used, polys[i]).Some?
    ensures r.Ok? ==> |r.value| == |polys|
    ensures r.Ok? ==> forall i :: 0 <= i < |polys| ==>
              Some(r.value[i].slot) == FirstEntry(used, polys[i]) &&
              (r.value[i].smooth <==> Smooth(polys[i].material))
  {
    var given: seq<FaceMaterial> := [];
    for i := 0 to |polys|
      invariant |given| == i
      invariant forall k :: 0 <= k < i ==> FirstEntry(used, polys[k]).Some?
      invariant forall k :: 0 <= k < i ==>
                  Some(given[k].slot) == FirstEntry(used, polys[k]) &&
                  (given[k].smooth <==> Smooth(polys[k].material))
    {
      var found := FirstEntry(used, polys[i]);
      if found.None? {
        return Err(i);
      }
      var entry := used[found.value];
      var smooth := false;
      if entry.0 == Kind(Gouraud) || entry.0 == Kind(GouraudMetal) || entry.0 == Kind(GouraudMetalEnv) {
        smooth := true;
      }
      given := given + [FaceMaterial(found.value, smooth)];
    }
    return Ok(given);
  }

  /** The names of the material slots add_material creates, one per entry. */
  function SlotNames(used: seq<MaterialEntry>): (r: seq<string>)
    ensures |r| == |used|
    ensures forall j :: 0 <= j < |used| ==> r[j] == GetMaterialName(used[j].0, used[j].1)
  {
    seq(|used|, j requires 0 <= j < |used| => GetMaterialName(used[j].0, used[j].1))
  }

  /** The loop triangle save sees for rebuilt face i: the face's vertices, the
      face's three loops and its material slot. */
  function RebuiltTriangle(polys: seq<Polygon>, i: nat, slot: nat): Triangle
    requires i < |polys|
  {
    Triangle(polys[i].p1, polys[i].p2, polys[i].p3, 3 * i, 3 * i + 1, 3 * i + 2, slot)
  }

  /** Load then save: a face rebuilt from a polygon of a known kind with a clean
      texture name, with the slot load chose, saves back to that very polygon. */
  lemma {:induction false} RebuiltFaceSavesBack(polys: seq<Polygon>, used: seq<MaterialEntry>, i: nat)
    requires i < |polys|
    requires FirstEntry(used, polys[i]).Some?
    requires polys[i].material.Kind? && Sanitised(polys[i].texture)
    ensures var tri := RebuiltTriangle(polys, i, FirstEntry(used, polys[i]).value);
            TriangleFits(tri, FaceUVs(polys), SlotNames(used)) &&
            MakePolygon(tri, FaceUVs(polys), SlotNames(used)) == polys[i]
  {
    var slot := FirstEntry(used, polys[i]).value;
    var uvs := FaceUVs(polys);
    var names := SlotNames(used);
    MaterialNameRoundTrip(polys[i].material.kind, polys[i].texture);
    assert names[slot] == GetMaterialName(polys[i].material, polys[i].texture);
    assert uvs[3 * i] == UV(polys[i].u1, polys[i].v1);
    assert uvs[3 * i + 1] == UV(polys[i].u2, polys[i].v2);
    assert uvs[3 * i + 2] == UV(polys[i].u3, polys[i].v3);
  }

  /** Load places the floor-level empty half the document height below the origin. */
  function FloorLevelPosition(height: real): Vec3 {
    Vec3(0.0, 0.0, -height / 2.0)
  }

  /** Load then save: with the floor-level empty in use, save records the
      loaded height again exactly when the main mesh sits at height zero. */
  lemma {:induction false} FloorLevelRoundTrip(box: Box, height: real, mainLocation: Vec3)
    ensures MainHeight(box, Some(FloorLevelPosition(height)), true, mainLocation) == height
            <==> mainLocation.z == 0.0
  {
  }
}
