/** The export transaction of save (io_scene_cdp3d/export_cdp3d.py): collect the
    document's texture list, find the main, shadow and collision meshes, give up
    when there is no main mesh, then turn every light and every non-empty mesh
    into a P3D record. */
module P3dExport {
  import opened Wrappers
  import opened Materials
  import opened Geometry
  import opened Organiser

  /** A mesh object as the exporter sees it after modifier evaluation: vertex
      coordinates before scaling, loop triangles, UV layers indexed by loop, and
      the names of its material slots. */
  datatype MeshObject = MeshObject(name: string, location: Vec3, scale: Vec3, vertices: seq<Vec3>,
                                   triangles: seq<Triangle>, uvLayers: seq<seq<UV>>, materials: seq<string>)

  /** A point light; its colour arrives already packed into an integer. */
  datatype LightObject = LightObject(name: string, location: Vec3, energy: real, color: int)

  datatype SceneObject = MeshOb(mesh: MeshObject) | LightOb(light: LightObject) | OtherOb

  datatype ExportOptions = ExportOptions(enableCorona: bool, enableFlares: bool, enableEnvironment: bool,
                                         useEmptyForFloorLevel: bool)

  datatype P3DLight = P3DLight(name: string, pos: Vec3, range: real, color: int,
                               showCorona: bool, showLensFlares: bool, lightupEnvironment: bool)

  datatype P3DMesh = P3DMesh(name: string, pos: Vec3, vertices: seq<Vec3>, numVertices: nat,
                             length: real, height: real, depth: real, flags: bv32,
                             textureInfos: seq<TextureInfo>, polys: seq<Polygon>, numPolys: nat)

  datatype Status = Cancelled | Finished

  /** The material get_textures_used gives a mesh that has none. */
  const DefaultMaterial := "f_colwhite.tga"

  /** The slots get_textures_used reads: the mesh's own, or the default alone. */
  function EffectiveMaterials(materials: seq<string>): (r: seq<string>)
    ensures |r| > 0
    ensures materials != [] ==> r == materials
  {
    if materials == [] then [DefaultMaterial] else materials
  }

  function TextureOf(material: string): string {
    GetMaterialTypeName(material).1
  }

  function TexturesOf(materials: seq<string>): seq<string> {
    seq(|materials|, i requires 0 <= i < |materials| => TextureOf(materials[i]))
  }

  function Elems<T>(s: seq<T>): set<T> {
    set x | x in s
  }

  /** The texture names of a list in first-seen order, each once. */
  function Dedup(s: seq<string>): (r: seq<string>)
    ensures Distinct(r)
    ensures forall x :: x in r <==> x in s
  {
    if s == [] then []
    else
      var init := Dedup(s[..|s| - 1]);
      var last := s[|s| - 1];
      assert s == s[..|s| - 1] + [last];
      if last in init then init else init + [last]
  }

  lemma {:induction false} TexturesOfSnoc(ms: seq<string>, m: string)
    ensures TexturesOf(ms + [m]) == TexturesOf(ms) + [TextureOf(m)]
  {
  }

  lemma {:induction false} DedupSnoc(s: seq<string>, x: string)
    ensures Dedup(s + [x]) == if x in Dedup(s) then Dedup(s) else Dedup(s) + [x]
  {
    assert (s + [x])[..|s|] == s;
  }

  /** The loop of get_textures_used: the texture of every material, each once, in
      slot order. */
  method ListTextures(materials: seq<string>) returns (textures: seq<string>)
    ensures textures == Dedup(TexturesOf(materials))
  {
    textures := [];
    for i := 0 to |materials|
      invariant textures == Dedup(TexturesOf(materials[..i]))
    {
      var tn := TextureOf(materials[i]);
      assert materials[..i + 1] == materials[..i] + [materials[i]];
      TexturesOfSnoc(materials[..i], materials[i]);
      DedupSnoc(TexturesOf(materials[..i]), tn);
      if tn !in textures {
        textures := textures + [tn];
      }
    }
    assert materials[..|materials|] == materials;
  }

  /** get_textures_used: give a mesh without materials the default one, then list
      the texture of every material slot once, in slot order. */
  method GetTexturesUsed(materials: seq<string>) returns (effective: seq<string>, textures: seq<string>)
    ensures effective == EffectiveMaterials(materials)
    ensures textures == Dedup(TexturesOf(effective))
  {
    effective := materials;
    if |effective| == 0 {
      effective := effective + [DefaultMaterial];
    }
    textures := ListTextures(effective);
  }

  /** list(set(...)): the elements of a set, each once, in an order the set
      does not fix. */
  method ListOfSet(s: set<string>) returns (r: seq<string>)
    ensures Distinct(r)
    ensures forall x :: x in r <==> x in s
  {
    r := [];
    var rest := s;
    while rest != {}
      invariant Distinct(r)
      invariant forall x :: x in s <==> x in r || x in rest
      invariant forall x :: x in r ==> x !in rest
      decreases rest
    {
      var x :| x in rest;
      r := r + [x];
      rest := rest - {x};
    }
  }

  /** The textures of every mesh object's materials. */
  function UsedTextures(objects: seq<SceneObject>): set<string> {
    if objects == [] then {}
    else
      var last := objects[|objects| - 1];
      UsedTextures(objects[..|objects| - 1]) +
        (if last.MeshOb? then Elems(TexturesOf(EffectiveMaterials(last.mesh.materials))) else {})
  }

  lemma {:induction false} UsedTexturesCover(objects: seq<SceneObject>, i: nat)
    requires i < |objects| && objects[i].MeshOb?
    ensures forall m :: m in EffectiveMaterials(objects[i].mesh.materials) ==> TextureOf(m) in UsedTextures(objects)
  {
    var n := |objects| - 1;
    var last := objects[n];
    var added := if last.MeshOb? then Elems(TexturesOf(EffectiveMaterials(last.mesh.materials))) else {};
    assert UsedTextures(objects) == UsedTextures(objects[..n]) + added;
    if i < n {
      assert objects[..n][i] == objects[i];
      UsedTexturesCover(objects[..n], i);
    } else {
      TexturesCover(EffectiveMaterials(last.mesh.materials));
    }
  }

  lemma {:induction false} TexturesCover(ms: seq<string>)
    ensures forall m :: m in ms ==> TextureOf(m) in Elems(TexturesOf(ms))
  {
    forall m | m in ms
      ensures TextureOf(m) in Elems(TexturesOf(ms))
    {
      var j :| 0 <= j < |ms| && ms[j] == m;
      assert TexturesOf(ms)[j] == TextureOf(m);
    }
  }

  /** The last mesh object with the given name: save keeps overwriting its
      choice while it walks the objects. */
  function FindLast(objects: seq<SceneObject>, name: string): (r: Option<nat>)
    ensures r.Some? ==> r.value < |objects| && objects[r.value].MeshOb? && objects[r.value].mesh.name == name
    ensures r.Some? ==> forall j :: r.value < j < |objects| ==> !(objects[j].MeshOb? && objects[j].mesh.name == name)
    ensures r.None? <==> forall j :: 0 <= j < |objects| ==> !(objects[j].MeshOb? && objects[j].mesh.name == name)
  {
    if objects == [] then None
    else
      var n := |objects| - 1;
      if objects[n].MeshOb? && objects[n].mesh.name == name then Some(n)
      else FindLast(objects[..n], name)
  }

  predicate MeshObjectFits(ob: MeshObject) {
    MeshFits(ob.triangles, ob.uvLayers, EffectiveMaterials(ob.materials))
  }

  predicate SceneFits(objects: seq<SceneObject>) {
    forall o :: o in objects && o.MeshOb? ==> MeshObjectFits(o.mesh)
  }

  /** What the second pass of save knows: the texture list, the positions of the
      main, shadow and collision meshes, main's location, the options and the
      floor_level empty. */
  datatype Context = Context(textures: seq<string>, main: nat, shadow: Option<nat>, collision: Option<nat>,
                             mainCenter: Vec3, options: ExportOptions, floorLevel: Option<Vec3>)

  /** The role of the object at position i, by the if/elif chain of save. */
  function RoleAt(i: nat, ctx: Context): (r: Role)
    ensures r == MainMesh <==> i == ctx.main
    ensures r == ShadowMesh ==> ctx.shadow == Some(i)
    ensures r == CollisionMesh ==> ctx.collision == Some(i) && ctx.shadow != Some(i)
    ensures r == OtherMesh <==> i != ctx.main && ctx.shadow != Some(i) && ctx.collision != Some(i)
  {
    if i == ctx.main then MainMesh
    else if ctx.shadow == Some(i) then ShadowMesh
    else if ctx.collision == Some(i) then CollisionMesh
    else OtherMesh
  }

  function ExportLight(l: LightObject, ctx: Context): P3DLight {
    P3DLight(SanitiseMeshName(l.name), Sub(l.location, ctx.mainCenter), l.energy, l.color,
             ctx.options.enableCorona, ctx.options.enableFlares, ctx.options.enableEnvironment)
  }

  /** The record save builds for a mesh object in a given role. */
  function ExportMesh(ob: MeshObject, role: Role, ctx: Context): (m: P3DMesh)
    requires MeshObjectFits(ob)
    ensures m.numVertices == |m.vertices| == |ob.vertices|
    ensures m.numPolys == |m.polys| && |m.textureInfos| == |ctx.textures|
    ensures forall i {:trigger Listed(m.polys[i], ctx.textures)} :: 0 <= i < |m.polys| ==> Listed(m.polys[i], ctx.textures)
  {
    var verts := ScaleAll(ob.vertices, ob.scale);
    var box := BoundsOf(verts);
    var ext := Extents(box);
    var height := if role == MainMesh then MainHeight(box, ctx.floorLevel, ctx.options.useEmptyForFloorLevel, ctx.mainCenter)
                  else ext.height;
    var polys := RawPolygons(ob.triangles, ob.uvLayers, EffectiveMaterials(ob.materials));
    var ordered := Organised(polys, ctx.textures);
    P3DMesh(SanitiseMeshName(ob.name), Sub(ob.location, ctx.mainCenter), verts, |verts|,
            ext.length, height, ext.depth, MeshFlags(role, ctx.shadow.Some?, ctx.collision.Some?),
            WithStarts(Tally(polys, ctx.textures)), ordered, |ordered|)
  }

  predicate NonEmpty(m: P3DMesh) {
    |m.vertices| > 0 && |m.polys| > 0
  }

  /** The number of light objects among the objects. */
  function LightCount(objects: seq<SceneObject>): (c: nat)
    ensures c <= |objects|
  {
    if objects == [] then 0
    else LightCount(objects[..|objects| - 1]) + (if objects[|objects| - 1].LightOb? then 1 else 0)
  }

  /** The lights of the document, in object order: one record per light object. */
  function ExportedLights(objects: seq<SceneObject>, ctx: Context): (r: seq<P3DLight>)
    ensures |r| <= |objects|
    ensures (forall i :: 0 <= i < |objects| ==> !objects[i].LightOb?) ==> r == []
    ensures |r| == LightCount(objects)
  {
    if objects == [] then []
    else
      var n := |objects| - 1;
      ExportedLights(objects[..n], ctx) + (if objects[n].LightOb? then [ExportLight(objects[n].light, ctx)] else [])
  }

  /** The light of object i comes after the lights of the light objects before
      it, so the document keeps the objects' order. */
  lemma {:induction false} ExportedLightAt(objects: seq<SceneObject>, ctx: Context, i: nat)
    requires i < |objects| && objects[i].LightOb?
    ensures LightCount(objects[..i]) < |ExportedLights(objects, ctx)|
    ensures ExportedLights(objects, ctx)[LightCount(objects[..i])] == ExportLight(objects[i].light, ctx)
  {
    var n := |objects| - 1;
    var init := ExportedLights(objects[..n], ctx);
    assert ExportedLights(objects, ctx) == init + (if objects[n].LightOb? then [ExportLight(objects[n].light, ctx)] else []);
    if i < n {
      ExportedLightAt(objects[..n], ctx, i);
      assert objects[..n][i] == objects[i];
      assert objects[..n][..i] == objects[..i];
    } else {
      assert objects[..i] == objects[..n];
    }
  }

  /** The meshes of the document, in object order: every mesh object whose
      record has at least one vertex and one polygon. */
  function ExportedMeshes(objects: seq<SceneObject>, ctx: Context): (r: seq<P3DMesh>)
    requires SceneFits(objects)
    ensures |r| <= |objects|
    ensures forall k :: 0 <= k < |r| ==> NonEmpty(r[k])
  {
    if objects == [] then []
    else
      var n := |objects| - 1;
      assert objects[n] in objects;
      var rest := ExportedMeshes(objects[..n], ctx);
      if objects[n].MeshOb? && NonEmpty(ExportMesh(objects[n].mesh, RoleAt(n, ctx), ctx))
      then rest + [ExportMesh(objects[n].mesh, RoleAt(n, ctx), ctx)]
      else rest
  }

  lemma {:induction false} SceneFitsPrefix(objects: seq<SceneObject>, n: nat)
    requires SceneFits(objects) && n <= |objects|
    ensures SceneFits(objects[..n])
  {
    forall o | o in objects[..n] ensures o in objects {
      var j :| 0 <= j < n && objects[..n][j] == o;
      assert objects[j] == o;
    }
  }

  /** The second pass one object further on: a light adds its record, a mesh
      with content adds its record, anything else adds nothing. */
  lemma {:induction false} ExportedSnoc(objects: seq<SceneObject>, i: nat, ctx: Context)
    requires SceneFits(objects) && i < |objects|
    ensures SceneFits(objects[..i]) && SceneFits(objects[..i + 1])
    ensures objects[i].MeshOb? ==> MeshObjectFits(objects[i].mesh)
    ensures ExportedLights(objects[..i + 1], ctx) ==
              ExportedLights(objects[..i], ctx) + (if objects[i].LightOb? then [ExportLight(objects[i].light, ctx)] else [])
    ensures ExportedMeshes(objects[..i + 1], ctx) ==
              if objects[i].MeshOb? && NonEmpty(ExportMesh(objects[i].mesh, RoleAt(i, ctx), ctx))
              then ExportedMeshes(objects[..i], ctx) + [ExportMesh(objects[i].mesh, RoleAt(i, ctx), ctx)]
              else ExportedMeshes(objects[..i], ctx)
  {
    SceneFitsPrefix(objects, i);
    SceneFitsPrefix(objects, i + 1);
    assert objects[i] in objects;
    assert objects[..i + 1][..i] == objects[..i];
    assert objects[..i + 1][i] == objects[i];
  }

  /** Every mesh the document holds has at least one vertex and one polygon. */
  lemma {:induction false} ExportedMeshesNonEmpty(objects: seq<SceneObject>, ctx: Context)
    requires SceneFits(objects)
    ensures forall m :: m in ExportedMeshes(objects, ctx) ==> NonEmpty(m)
  {
    if objects != [] {
      var n := |objects| - 1;
      SceneFitsPrefix(objects, n);
      ExportedMeshesNonEmpty(objects[..n], ctx);
    }
  }

  /** A mesh object without UV layers or without vertices adds nothing to the
      document. */
  lemma {:induction false} MeshWithoutContentIsSkipped(objects: seq<SceneObject>, ob: MeshObject, ctx: Context)
    requires SceneFits(objects + [MeshOb(ob)])
    requires ob.uvLayers == [] || ob.vertices == []
    ensures SceneFits(objects)
    ensures ExportedMeshes(objects + [MeshOb(ob)], ctx) == ExportedMeshes(objects, ctx)
  {
    var all := objects + [MeshOb(ob)];
    assert all[..|objects|] == objects;
    SceneFitsPrefix(all, |objects|);
    if ob.uvLayers == [] {
      NoLayersNoPolygons(ob.triangles, EffectiveMaterials(ob.materials), ctx.textures);
    }
  }

  /** The record of a mesh: its counters equal its list lengths, its flags give
      back its role, the main mesh sits at the origin, the first texture starts
      at polygon 0, each (texture, kind) run sits where the texture info says,
      and the polygons are those of a known kind, reordered. */
  lemma {:induction false} ExportMeshLayout(ob: MeshObject, role: Role, ctx: Context)
    requires MeshObjectFits(ob) && Distinct(ctx.textures)
    ensures var m := ExportMesh(ob, role, ctx);
            && m.numVertices == |m.vertices| == |ob.vertices|
            && m.numPolys == |m.polys|
            && |m.textureInfos| == |ctx.textures|
            && RoleOfFlags(m.flags) == role
            && (ob.location == ctx.mainCenter ==> m.pos == Vec3(0.0, 0.0, 0.0))
            && (|ctx.textures| > 0 ==> m.textureInfos[0].textureStart == 0)
  {
    FlagsDetermineRole(role, ctx.shadow.Some?, ctx.collision.Some?);
  }

  lemma {:induction false} ExportMeshPolygons(ob: MeshObject, role: Role, ctx: Context)
    requires MeshObjectFits(ob) && Distinct(ctx.textures)
    ensures var raw := RawPolygons(ob.triangles, ob.uvLayers, EffectiveMaterials(ob.materials));
            && |raw| == |ob.uvLayers| * |ob.triangles|
            && multiset(ExportMesh(ob, role, ctx).polys) == multiset(Kept(raw, ctx.textures))
  {
    var raw := RawPolygons(ob.triangles, ob.uvLayers, EffectiveMaterials(ob.materials));
    OrganisedIsPermutation(raw, ctx.textures);
  }

  lemma {:induction false} ExportMeshRuns(ob: MeshObject, role: Role, ctx: Context, t: nat, n: nat)
    requires MeshObjectFits(ob) && t < |ctx.textures| && n < 6
    ensures var m := ExportMesh(ob, role, ctx);
            var info := m.textureInfos[t];
            var start := info.textureStart + KindOffset(info, n);
            var count := CountOf(info, KindOrder[n]);
            && start + count <= |m.polys|
            && forall i :: start <= i < start + count ==> Matches(m.polys[i], ctx.textures[t], KindOrder[n])
  {
    var raw := RawPolygons(ob.triangles, ob.uvLayers, EffectiveMaterials(ob.materials));
    BucketPlacement(raw, ctx.textures, t, n);
  }

  /** The document size save records from the main mesh. */
  function MainDocumentSize(main: MeshObject, ctx: Context): Size {
    var box := BoundsOf(ScaleAll(main.vertices, main.scale));
    DocumentSize(box, MainHeight(box, ctx.floorLevel, ctx.options.useEmptyForFloorLevel, ctx.mainCenter))
  }

  /** The P3D document under construction. */
  class P3D {
    var textures: seq<string>
    var numTextures: nat
    var meshes: seq<P3DMesh>
    var numMeshes: nat
    var lights: seq<P3DLight>
    var numLights: nat
    var length: real
    var height: real
    var depth: real

    /** The counters always equal the lengths of their lists. */
    ghost predicate Valid()
      reads this
    {
      numTextures == |textures| && numMeshes == |meshes| && numLights == |lights|
    }

    constructor ()
      ensures Valid()
      ensures textures == [] && meshes == [] && lights == []
      ensures length == 0.0 && height == 0.0 && depth == 0.0
    {
      textures, meshes, lights := [], [], [];
      numTextures, numMeshes, numLights := 0, 0, 0;
      length, height, depth := 0.0, 0.0, 0.0;
    }
  }

  /** Lines 185-339 of save for one mesh object: the scaled vertices and their
      bounds, the main mesh's floor-level height, the flags, and the organised
      polygons with their texture infos.  The bounds are returned as well, for the
      document size. */
  method BuildMesh(ob: MeshObject, role: Role, ctx: Context) returns (m: P3DMesh, box: Box)
    requires MeshObjectFits(ob)
    requires Distinct(ctx.textures)
    requires forall mat :: mat in EffectiveMaterials(ob.materials) ==> TextureOf(mat) in ctx.textures
    ensures m == ExportMesh(ob, role, ctx)
    ensures box == BoundsOf(m.vertices)
  {
    var verts;
    verts, box := ScanVertices(ob.vertices, ob.scale);
    var ext := Extents(box);
    var height := ext.height;
    if role == MainMesh && ctx.floorLevel.Some? && ctx.options.useEmptyForFloorLevel {
      height := -(ctx.floorLevel.value.z - ctx.mainCenter.z) * 2.0;
    }
    var flags := MeshFlags(role, ctx.shadow.Some?, ctx.collision.Some?);
    var materials := EffectiveMaterials(ob.materials);
    var polys, infos := CollectPolygons(ob.triangles, ob.uvLayers, materials, ctx.textures);
    var ordered, started := ReorderPolygons(polys, ctx.textures, infos);
    m := P3DMesh(SanitiseMeshName(ob.name), Sub(ob.location, ctx.mainCenter), verts, |verts|,
                 ext.length, height, ext.depth, flags, started, ordered, |ordered|);
  }

  /** The first pass of save: the document's texture list and the last mesh
      objects named main, mainshad and maincoll. */
  method ScanObjects(objects: seq<SceneObject>) returns (textures: seq<string>, main: Option<nat>,
                                                        shad: Option<nat>, coll: Option<nat>)
    ensures Distinct(textures)
    ensures forall x :: x in textures <==> x in UsedTextures(objects)
    ensures main == FindLast(objects, "main")
    ensures shad == FindLast(objects, "mainshad")
    ensures coll == FindLast(objects, "maincoll")
  {
    textures := [];
    main, shad, coll := None, None, None;
    for i := 0 to |objects|
      invariant Distinct(textures)
      invariant forall x :: x in textures <==> x in UsedTextures(objects[..i])
      invariant main == FindLast(objects[..i], "main")
      invariant shad == FindLast(objects[..i], "mainshad")
      invariant coll == FindLast(objects[..i], "maincoll")
    {
      assert objects[..i + 1][..i] == objects[..i];
      if objects[i].MeshOb? {
        var _, used := GetTexturesUsed(objects[i].mesh.materials);
        textures := ListOfSet(Elems(textures) + Elems(used));
        assert Elems(used) == Elems(TexturesOf(EffectiveMaterials(objects[..i + 1][i].mesh.materials)));
        if objects[i].mesh.name == "main" { main := Some(i); }
        if objects[i].mesh.name == "mainshad" { shad := Some(i); }
        if objects[i].mesh.name == "maincoll" { coll := Some(i); }
      }
    }
    assert objects[..|objects|] == objects;
  }

  /** One step of the second pass of save: the object at position i becomes a
      light or a mesh of the document, and the main mesh fixes its size. */
  method ExportObject(p: P3D, objects: seq<SceneObject>, i: nat, ctx: Context)
    requires SceneFits(objects) && i < |objects|
    requires p.Valid() && p.textures == ctx.textures && Distinct(ctx.textures)
    requires forall x :: x in UsedTextures(objects) ==> x in ctx.textures
    requires ctx.main < |objects| && objects[ctx.main].MeshOb?
    requires p.lights == ExportedLights(objects[..i], ctx)
    requires p.meshes == ExportedMeshes(objects[..i], ctx)
    modifies p
    ensures p.Valid() && p.textures == ctx.textures
    ensures p.lights == ExportedLights(objects[..i + 1], ctx)
    ensures p.meshes == ExportedMeshes(objects[..i + 1], ctx)
    ensures i == ctx.main ==> Size(p.length, p.height, p.depth) == MainDocumentSize(objects[ctx.main].mesh, ctx)
    ensures i != ctx.main ==> p.length == old(p.length) && p.height == old(p.height) && p.depth == old(p.depth)
  {
    ExportedSnoc(objects, i, ctx);
    match objects[i]
    case LightOb(l) =>
      AddLight(p, ExportLight(l, ctx));
    case MeshOb(ob) =>
      UsedTexturesCover(objects, i);
      ExportMeshObject(p, ob, RoleAt(i, ctx), ctx);
    case OtherOb =>
  }

  /** A light object in the second pass of save: its record is appended. */
  method AddLight(p: P3D, light: P3DLight)
    requires p.Valid()
    modifies p
    ensures p.Valid() && p.lights == old(p.lights) + [light]
    ensures p.textures == old(p.textures) && p.meshes == old(p.meshes)
    ensures p.length == old(p.length) && p.height == old(p.height) && p.depth == old(p.depth)
  {
    p.numLights := p.numLights + 1;
    p.lights := p.lights + [light];
  }

  /** A mesh object in the second pass of save: its record is appended unless it
      has no vertex or no polygon, and the main mesh fixes the document size. */
  method ExportMeshObject(p: P3D, ob: MeshObject, role: Role, ctx: Context)
    requires MeshObjectFits(ob) && Distinct(ctx.textures)
    requires forall mat :: mat in EffectiveMaterials(ob.materials) ==> TextureOf(mat) in ctx.textures
    requires p.Valid()
    modifies p
    ensures p.Valid() && p.textures == old(p.textures) && p.lights == old(p.lights)
    ensures p.meshes == old(p.meshes) + (if NonEmpty(ExportMesh(ob, role, ctx)) then [ExportMesh(ob, role, ctx)] else [])
    ensures role == MainMesh ==> Size(p.length, p.height, p.depth) == MainDocumentSize(ob, ctx)
    ensures role != MainMesh ==> p.length == old(p.length) && p.height == old(p.height) && p.depth == old(p.depth)
  {
    var m, box := BuildMesh(ob, role, ctx);
    if role == MainMesh {
      var size := DocumentSize(box, m.height);
      p.height := m.height;
      p.length := size.length;
      p.depth := size.depth;
    }
    if |m.vertices| == 0 || |m.polys| == 0 {
      // an empty mesh is skipped
    } else {
      p.numMeshes := p.numMeshes + 1;
      p.meshes := p.meshes + [m];
    }
  }

  /** save: the document is written only when a main mesh exists; its counters
      equal the lengths of its lists, its textures are the distinct textures of all
      mesh objects, and its lights, meshes and size are those of the second pass. */
  method Save(objects: seq<SceneObject>, options: ExportOptions, floorLevel: Option<Vec3>)
    returns (status: Status, written: P3D?)
    requires SceneFits(objects)
    ensures status == Cancelled <==> FindLast(objects, "main").None?
    ensures status == Cancelled ==> written == null
    ensures status == Finished ==>
              && written != null && fresh(written) && written.Valid()
              && Distinct(written.textures)
              && (forall x :: x in written.textures <==> x in UsedTextures(objects))
              && var main := FindLast(objects, "main").value;
                 var ctx := Context(written.textures, main, FindLast(objects, "mainshad"), FindLast(objects, "maincoll"),
                                    objects[main].mesh.location, options, floorLevel);
                 && written.lights == ExportedLights(objects, ctx)
                 && written.meshes == ExportedMeshes(objects, ctx)
                 && Size(written.length, written.height, written.depth) == MainDocumentSize(objects[main].mesh, ctx)
  {
    var textures, main, shad, coll := ScanObjects(objects);
    if main.None? {
      return Cancelled, null;
    }
    var p := new P3D();
    p.textures := textures;
    p.numTextures := |textures|;

    var ctx := Context(textures, main.value, shad, coll, objects[main.value].mesh.location, options, floorLevel);
    ExportAll(p, objects, ctx);
    return Finished, p;
  }

  /** The second pass of save: every object in turn, lights and meshes appended
      to a document that starts with no lights and no meshes. */
  method ExportAll(p: P3D, objects: seq<SceneObject>, ctx: Context)
    requires SceneFits(objects)
    requires p.Valid() && p.textures == ctx.textures && Distinct(ctx.textures)
    requires forall x :: x in UsedTextures(objects) ==> x in ctx.textures
    requires ctx.main < |objects| && objects[ctx.main].MeshOb?
    requires p.lights == [] && p.meshes == []
    modifies p
    ensures p.Valid() && p.textures == ctx.textures
    ensures p.lights == ExportedLights(objects, ctx)
    ensures p.meshes == ExportedMeshes(objects, ctx)
    ensures Size(p.length, p.height, p.depth) == MainDocumentSize(objects[ctx.main].mesh, ctx)
  {
    for i := 0 to |objects|
      invariant p.Valid() && p.textures == ctx.textures
      invariant p.lights == ExportedLights(objects[..i], ctx)
      invariant p.meshes == ExportedMeshes(objects[..i], ctx)
      invariant ctx.main < i ==> Size(p.length, p.height, p.depth) == MainDocumentSize(objects[ctx.main].mesh, ctx)
    {
      ExportObject(p, objects, i, ctx);
    }
    assert objects[..|objects|] == objects;
  }
}
