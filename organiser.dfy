/** The polygon organiser of save (io_scene_cdp3d/export_cdp3d.py): polygons are
    collected for every UV layer and loop triangle, tallied per texture and kind,
    and re-emitted texture-major and, within a texture, in the fixed kind order
    f, fm, g, gm, gme, s.  A reader of the P3D file recovers each polygon's texture
    and kind from its position alone, through the per-texture counts and starts. */
module Organiser {
  import opened Wrappers
  import opened Materials

  datatype UV = UV(u: real, v: real)

  /** A loop triangle of the evaluated mesh: three vertex indices, the three loop
      indices that address the UV layers, and the slot of its material. */
  datatype Triangle = Triangle(v1: nat, v2: nat, v3: nat, l1: nat, l2: nat, l3: nat, materialIndex: nat)

  /** P3DPolygon: vertex indices, one UV pair per corner, material and texture. */
  datatype Polygon = Polygon(p1: nat, p2: nat, p3: nat,
                             u1: real, v1: real, u2: real, v2: real, u3: real, v3: real,
                             material: PolyMaterial, texture: string)

  /** P3DTextureInfo: six per-kind counts and the index of the texture's first polygon. */
  datatype TextureInfo = TextureInfo(numFlat: nat, numFlatMetal: nat, numGouraud: nat,
                                     numGouraudMetal: nat, numGouraudMetalEnv: nat, numShining: nat,
                                     textureStart: nat)

  const EmptyInfo := TextureInfo(0, 0, 0, 0, 0, 0, 0)

  /** The order in which kinds are emitted within a texture. */
  const KindOrder: seq<MaterialKind> := [Flat, FlatMetal, Gouraud, GouraudMetal, GouraudMetalEnv, Shining]

  function CountOf(ti: TextureInfo, k: MaterialKind): nat {
    match k
    case Flat => ti.numFlat
    case FlatMetal => ti.numFlatMetal
    case Gouraud => ti.numGouraud
    case GouraudMetal => ti.numGouraudMetal
    case GouraudMetalEnv => ti.numGouraudMetalEnv
    case Shining => ti.numShining
  }

  function Total(ti: TextureInfo): nat {
    ti.numFlat + ti.numFlatMetal + ti.numGouraud + ti.numGouraudMetal + ti.numGouraudMetalEnv + ti.numShining
  }

  /** The counts of the kinds that come before the n-th kind of KindOrder. */
  function KindOffset(ti: TextureInfo, n: nat): nat
    requires n <= 6
  {
    if n == 0 then 0 else KindOffset(ti, n - 1) + CountOf(ti, KindOrder[n - 1])
  }

  /** One of the counter increments of save: only the count of kind k grows. */
  function Bump(ti: TextureInfo, k: MaterialKind): (r: TextureInfo)
    ensures forall k' :: CountOf(r, k') == CountOf(ti, k') + (if k' == k then 1 else 0)
    ensures r.textureStart == ti.textureStart
  {
    match k
    case Flat => ti.(numFlat := ti.numFlat + 1)
    case FlatMetal => ti.(numFlatMetal := ti.numFlatMetal + 1)
    case Gouraud => ti.(numGouraud := ti.numGouraud + 1)
    case GouraudMetal => ti.(numGouraudMetal := ti.numGouraudMetal + 1)
    case GouraudMetalEnv => ti.(numGouraudMetalEnv := ti.numGouraudMetalEnv + 1)
    case Shining => ti.(numShining := ti.numShining + 1)
  }

  // ----- collecting polygons -------------------------------------------------

  /** A triangle's slots are valid for a UV layer and a material list. */
  predicate TriangleFits(tri: Triangle, layer: seq<UV>, materials: seq<string>) {
    tri.l1 < |layer| && tri.l2 < |layer| && tri.l3 < |layer| && tri.materialIndex < |materials|
  }

  predicate MeshFits(tris: seq<Triangle>, layers: seq<seq<UV>>, materials: seq<string>) {
    forall l, t :: l in layers && t in tris ==> TriangleFits(t, l, materials)
  }

  /** The polygon save builds for one triangle in one UV layer. */
  function MakePolygon(tri: Triangle, layer: seq<UV>, materials: seq<string>): Polygon
    requires TriangleFits(tri, layer, materials)
  {
    var (material, texture) := GetMaterialTypeName(materials[tri.materialIndex]);
    Polygon(tri.v1, tri.v2, tri.v3,
            layer[tri.l1].u, layer[tri.l1].v, layer[tri.l2].u, layer[tri.l2].v,
            layer[tri.l3].u, layer[tri.l3].v, material, texture)
  }

  function LayerPolygons(tris: seq<Triangle>, layer: seq<UV>, materials: seq<string>): seq<Polygon>
    requires forall t :: t in tris ==> TriangleFits(t, layer, materials)
  {
    seq(|tris|, i requires 0 <= i < |tris| => MakePolygon(tris[i], layer, materials))
  }

  /** Every UV layer contributes every triangle once, layer after layer, so a mesh
      yields layers × triangles polygons. */
  function RawPolygons(tris: seq<Triangle>, layers: seq<seq<UV>>, materials: seq<string>): (r: seq<Polygon>)
    requires MeshFits(tris, layers, materials)
    ensures |r| == |layers| * |tris|
  {
    if layers == [] then []
    else
      var n := |layers| - 1;
      assert forall l :: l in layers[..n] ==> l in layers;
      var last := LayerPolygons(tris, layers[n], materials);
      assert |last| == |tris|;
      MulSucc(n, |tris|);
      RawPolygons(tris, layers[..n], materials) + last
  }

  lemma {:induction false} MulSucc(n: nat, m: nat)
    ensures (n + 1) * m == n * m + m
  {
  }

  /** Where row l starts in a table of rows of the given width, counted out row
      by row. */
  function RowStart(l: nat, width: nat): nat {
    if l == 0 then 0 else RowStart(l - 1, width) + width
  }

  lemma {:induction false} RowStartIsProduct(l: nat, width: nat)
    ensures RowStart(l, width) == l * width
  {
    if l > 0 {
      RowStartIsProduct(l - 1, width);
      MulSucc(l - 1, width);
    }
  }

  /** An earlier row ends no later than a later row starts. */
  lemma {:induction false} RowStartBelow(l: nat, n: nat, width: nat)
    requires l < n
    ensures RowStart(l, width) + width <= RowStart(n, width)
  {
    if l < n - 1 {
      RowStartBelow(l, n - 1, width);
    }
  }

  /** The polygon at layer l and triangle j sits at position l × triangles + j:
      the layers come one after another, each in triangle order. */
  lemma {:induction false} RawPolygonsAt(tris: seq<Triangle>, layers: seq<seq<UV>>, materials: seq<string>, l: nat, j: nat)
    requires MeshFits(tris, layers, materials) && l < |layers| && j < |tris|
    ensures l * |tris| + j < |RawPolygons(tris, layers, materials)|
    ensures RawPolygons(tris, layers, materials)[l * |tris| + j] == MakePolygon(tris[j], layers[l], materials)
  {
    RawPolygonsRow(tris, layers, materials, l, j);
    RowStartIsProduct(l, |tris|);
  }

  /** RawPolygonsAt with the row's start counted out by RowStart. */
  lemma {:induction false} RawPolygonsRow(tris: seq<Triangle>, layers: seq<seq<UV>>, materials: seq<string>, l: nat, j: nat)
    requires MeshFits(tris, layers, materials) && l < |layers| && j < |tris|
    ensures RowStart(l, |tris|) + j < |RawPolygons(tris, layers, materials)|
    ensures RawPolygons(tris, layers, materials)[RowStart(l, |tris|) + j] == MakePolygon(tris[j], layers[l], materials)
  {
    var n := |layers| - 1;
    var m := |tris|;
    assert forall x :: x in layers[..n] ==> x in layers;
    var init := RawPolygons(tris, layers[..n], materials);
    var last := LayerPolygons(tris, layers[n], materials);
    assert RawPolygons(tris, layers, materials) == init + last;
    RowStartIsProduct(n, m);
    assert |init| == RowStart(n, m);
    if l < n {
      RowStartBelow(l, n, m);
      RawPolygonsRow(tris, layers[..n], materials, l, j);
      assert layers[..n][l] == layers[l];
    } else {
      assert (init + last)[RowStart(l, m) + j] == last[j];
    }
  }

  // ----- the tally -----------------------------------------------------------

  predicate Matches(p: Polygon, texture: string, k: MaterialKind) {
    p.texture == texture && p.material == Kind(k)
  }

  /** The polygons of one (texture, kind) pair, in their original order. */
  function Bucket(polys: seq<Polygon>, texture: string, k: MaterialKind): seq<Polygon> {
    if polys == [] then []
    else
      var last := polys[|polys| - 1];
      Bucket(polys[..|polys| - 1], texture, k) + (if Matches(last, texture, k) then [last] else [])
  }

  /** The texture info a fresh tally holds for one texture. */
  function InfoFor(polys: seq<Polygon>, texture: string): TextureInfo {
    TextureInfo(|Bucket(polys, texture, Flat)|, |Bucket(polys, texture, FlatMetal)|,
                |Bucket(polys, texture, Gouraud)|, |Bucket(polys, texture, GouraudMetal)|,
                |Bucket(polys, texture, GouraudMetalEnv)|, |Bucket(polys, texture, Shining)|, 0)
  }

  /** An info counts one texture: each kind's count is the size of that
      (texture, kind) bucket, and the start is still 0. */
  predicate Counts(info: TextureInfo, polys: seq<Polygon>, texture: string) {
    info.textureStart == 0 && forall k :: CountOf(info, k) == |Bucket(polys, texture, k)|
  }

  /** The counters save keeps: one info per texture, counting that texture. */
  function Tally(polys: seq<Polygon>, textures: seq<string>): (r: seq<TextureInfo>)
    ensures |r| == |textures|
    ensures forall t {:trigger Counts(r[t], polys, textures[t])} :: 0 <= t < |textures| ==> Counts(r[t], polys, textures[t])
  {
    seq(|textures|, t requires 0 <= t < |textures| => InfoFor(polys, textures[t]))
  }

  /** A bucket holds only polygons of its texture and kind. */
  lemma {:induction false} BucketMatches(polys: seq<Polygon>, texture: string, k: MaterialKind)
    ensures forall q :: q in Bucket(polys, texture, k) ==> Matches(q, texture, k)
  {
    if polys != [] {
      BucketMatches(polys[..|polys| - 1], texture, k);
    }
  }

  lemma {:induction false} BucketSnoc(polys: seq<Polygon>, p: Polygon, texture: string, k: MaterialKind)
    ensures Bucket(polys + [p], texture, k) == Bucket(polys, texture, k) + (if Matches(p, texture, k) then [p] else [])
  {
    assert (polys + [p])[..|polys|] == polys;
  }

  /** Adding one polygon bumps the count of its kind in its texture's info and
      leaves every other info alone; a polygon whose prefix was not recognised
      changes nothing. */
  lemma {:induction false} InfoForSnoc(polys: seq<Polygon>, p: Polygon, texture: string)
    ensures InfoFor(polys + [p], texture) ==
              if p.texture == texture && p.material.Kind? then Bump(InfoFor(polys, texture), p.material.kind)
              else InfoFor(polys, texture)
  {
    var after := InfoFor(polys + [p], texture);
    var before := InfoFor(polys, texture);
    var expected := if p.texture == texture && p.material.Kind? then Bump(before, p.material.kind) else before;
    forall k ensures CountOf(after, k) == CountOf(expected, k) {
      BucketSnoc(polys, p, texture, k);
      CountIsBucketSize(polys + [p], texture, k);
      CountIsBucketSize(polys, texture, k);
    }
    SameCounts(after, expected);
  }

  /** An info is determined by its six counts and its start. */
  lemma {:induction false} SameCounts(a: TextureInfo, b: TextureInfo)
    requires forall k :: CountOf(a, k) == CountOf(b, k)
    requires a.textureStart == b.textureStart
    ensures a == b
  {
    assert CountOf(a, Flat) == CountOf(b, Flat);
    assert CountOf(a, FlatMetal) == CountOf(b, FlatMetal);
    assert CountOf(a, Gouraud) == CountOf(b, Gouraud);
    assert CountOf(a, GouraudMetal) == CountOf(b, GouraudMetal);
    assert CountOf(a, GouraudMetalEnv) == CountOf(b, GouraudMetalEnv);
    assert CountOf(a, Shining) == CountOf(b, Shining);
  }

  lemma {:induction false} TallySnoc(polys: seq<Polygon>, p: Polygon, textures: seq<string>, i: nat)
    requires Distinct(textures) && i < |textures| && textures[i] == p.texture
    ensures Tally(polys + [p], textures) ==
              if p.material.Kind? then Tally(polys, textures)[i := Bump(Tally(polys, textures)[i], p.material.kind)]
              else Tally(polys, textures)
  {
    var before, after := Tally(polys, textures), Tally(polys + [p], textures);
    var expected := if p.material.Kind? then before[i := Bump(before[i], p.material.kind)] else before;
    forall t | 0 <= t < |textures| ensures after[t] == expected[t] {
      InfoForSnoc(polys, p, textures[t]);
    }
  }

  /** Lines 266-300 of save: for every UV layer and every loop triangle, build the
      polygon and bump the count of its kind in the info of its texture. */
  method CollectPolygons(tris: seq<Triangle>, layers: seq<seq<UV>>, materials: seq<string>, textures: seq<string>)
    returns (polys: seq<Polygon>, infos: seq<TextureInfo>)
    requires MeshFits(tris, layers, materials)
    requires Distinct(textures)
    requires forall m :: m in materials ==> GetMaterialTypeName(m).1 in textures
    ensures polys == RawPolygons(tris, layers, materials)
    ensures infos == Tally(polys, textures)
  {
    infos := seq(|textures|, _ => EmptyInfo);
    assert infos == Tally([], textures);
    polys := [];
    for l := 0 to |layers|
      invariant polys == RawPolygons(tris, layers[..l], materials)
      invariant infos == Tally(polys, textures)
    {
      assert layers[l] in layers;
      polys, infos := CollectLayer(polys, infos, tris, layers[l], materials, textures);
      assert layers[..l + 1][..l] == layers[..l];
    }
    assert layers[..|layers|] == layers;
  }

  lemma {:induction false} LayerPolygonsSnoc(tris: seq<Triangle>, j: nat, layer: seq<UV>, materials: seq<string>)
    requires j < |tris| && forall t :: t in tris ==> TriangleFits(t, layer, materials)
    ensures tris[j] in tris
    ensures LayerPolygons(tris[..j + 1], layer, materials) ==
              LayerPolygons(tris[..j], layer, materials) + [MakePolygon(tris[j], layer, materials)]
  {
    assert forall t :: t in tris[..j + 1] ==> t in tris;
    var a := LayerPolygons(tris[..j + 1], layer, materials);
    var b := LayerPolygons(tris[..j], layer, materials) + [MakePolygon(tris[j], layer, materials)];
    forall i | 0 <= i < j + 1 ensures a[i] == b[i] {
      assert tris[..j + 1][i] == tris[i];
      if i < j {
        assert tris[..j][i] == tris[i];
      }
    }
  }

  /** The triangle loop of save for one UV layer. */
  method CollectLayer(polys: seq<Polygon>, infos: seq<TextureInfo>, tris: seq<Triangle>, layer: seq<UV>,
                      materials: seq<string>, textures: seq<string>)
    returns (polys': seq<Polygon>, infos': seq<TextureInfo>)
    requires forall t :: t in tris ==> TriangleFits(t, layer, materials)
    requires Distinct(textures) && infos == Tally(polys, textures)
    requires forall m :: m in materials ==> GetMaterialTypeName(m).1 in textures
    ensures polys' == polys + LayerPolygons(tris, layer, materials)
    ensures infos' == Tally(polys', textures)
  {
    polys', infos' := polys, infos;
    for j := 0 to |tris|
      invariant polys' == polys + LayerPolygons(tris[..j], layer, materials)
      invariant infos' == Tally(polys', textures)
    {
      var tri := tris[j];
      assert tri in tris;
      var pol := MakePolygon(tri, layer, materials);
      assert pol.texture in textures by {
        assert materials[tri.materialIndex] in materials;
      }
      LayerPolygonsSnoc(tris, j, layer, materials);
      polys', infos' := AddPolygon(polys', infos', pol, textures);
    }
    assert tris[..|tris|] == tris;
  }

  /** The body of save's triangle loop once the polygon is built: append it and
      bump the count of its kind in the info of its texture. */
  method AddPolygon(polys: seq<Polygon>, infos: seq<TextureInfo>, pol: Polygon, textures: seq<string>)
    returns (polys': seq<Polygon>, infos': seq<TextureInfo>)
    requires Distinct(textures) && infos == Tally(polys, textures) && pol.texture in textures
    ensures polys' == polys + [pol]
    ensures infos' == Tally(polys', textures)
  {
    var i := IndexOf(textures, pol.texture);
    TallySnoc(polys, pol, textures, i);
    infos' := infos;
    if pol.material.Kind? {
      infos' := infos'[i := Bump(infos'[i], pol.material.kind)];
    }
    polys' := polys + [pol];
  }

  // ----- the reordering ------------------------------------------------------

  /** The polygons of one texture, kind by kind up to the n-th kind of KindOrder. */
  function GroupUpTo(polys: seq<Polygon>, texture: string, n: nat): seq<Polygon>
    requires n <= 6
  {
    if n == 0 then [] else GroupUpTo(polys, texture, n - 1) + Bucket(polys, texture, KindOrder[n - 1])
  }

  function Group(polys: seq<Polygon>, texture: string): seq<Polygon> {
    GroupUpTo(polys, texture, 6)
  }

  /** A polygon the reordering can emit: one of a listed texture and a known kind. */
  predicate Listed(q: Polygon, textures: seq<string>) {
    q.texture in textures && q.material.Kind?
  }

  /** m.polys after the reordering: texture by texture, each one kind by kind.
      Only polygons of a listed texture and a known kind are emitted. */
  function Organised(polys: seq<Polygon>, textures: seq<string>): (r: seq<Polygon>)
    ensures forall i {:trigger Listed(r[i], textures)} :: 0 <= i < |r| ==> Listed(r[i], textures)
  {
    if textures == [] then []
    else
      var n := |textures| - 1;
      var init := Organised(polys, textures[..n]);
      var group := Group(polys, textures[n]);
      GroupListed(polys, textures, n);
      assert forall i :: 0 <= i < |init| ==> Listed(init[i], textures[..n]) && init[i] in init;
      assert forall x :: x in textures[..n] ==> x in textures;
      assert forall i :: 0 <= i < |init| + |group| ==>
               (init + group)[i] == if i < |init| then init[i] else group[i - |init|];
      init + group
  }

  /** The group of texture n holds only polygons of that texture and a known kind. */
  lemma {:induction false} GroupListed(polys: seq<Polygon>, textures: seq<string>, n: nat)
    requires n < |textures|
    ensures forall i :: 0 <= i < |Group(polys, textures[n])| ==> Listed(Group(polys, textures[n])[i], textures)
  {
    forall k | 0 <= k < 6 {
      BucketMatches(polys, textures[n], KindOrder[k]);
    }
    GroupUpToMatches(polys, textures[n], 6);
  }

  lemma {:induction false} GroupUpToMatches(polys: seq<Polygon>, texture: string, n: nat)
    requires n <= 6
    requires forall k :: 0 <= k < 6 ==> forall q :: q in Bucket(polys, texture, KindOrder[k]) ==> Matches(q, texture, KindOrder[k])
    ensures forall q :: q in GroupUpTo(polys, texture, n) ==> q.texture == texture && q.material.Kind?
  {
    if n > 0 {
      GroupUpToMatches(polys, texture, n - 1);
    }
  }

  function SumTotals(infos: seq<TextureInfo>): nat {
    if infos == [] then 0 else SumTotals(infos[..|infos| - 1]) + Total(infos[|infos| - 1])
  }

  /** a is b with only its start changed. */
  predicate Restarted(a: TextureInfo, b: TextureInfo) {
    a.(textureStart := b.textureStart) == b
  }

  /** The infos after the start offsets are filled in: each texture starts where
      the previous one ends. */
  function WithStarts(infos: seq<TextureInfo>): (r: seq<TextureInfo>)
    ensures |r| == |infos|
    ensures forall t {:trigger Restarted(r[t], infos[t])} :: 0 <= t < |infos| ==> Restarted(r[t], infos[t])
    ensures |infos| > 0 ==> r[0].textureStart == infos[0].textureStart
  {
    seq(|infos|, t requires 0 <= t < |infos| =>
      infos[t].(textureStart := infos[0].textureStart + SumTotals(infos[..t])))
  }

  lemma {:induction false} SumTotalsSnoc(infos: seq<TextureInfo>, t: nat)
    requires t < |infos|
    ensures SumTotals(infos[..t + 1]) == SumTotals(infos[..t]) + Total(infos[t])
  {
    assert infos[..t + 1][..t] == infos[..t];
  }

  /** Lines 302-336 of save: fill in texture_start as a running sum of the previous
      texture's six counts, and append the polygons of each (texture, kind) pair,
      texture-major and in kind order, keeping their relative order. */
  method ReorderPolygons(polys: seq<Polygon>, textures: seq<string>, infos: seq<TextureInfo>)
    returns (ordered: seq<Polygon>, started: seq<TextureInfo>)
    requires |infos| == |textures|
    ensures ordered == Organised(polys, textures)
    ensures started == WithStarts(infos)
  {
    ordered := [];
    started := infos;
    for t := 0 to |textures|
      invariant ordered == Organised(polys, textures[..t])
      invariant |started| == |infos|
      invariant forall u :: 0 <= u < t ==> started[u] == WithStarts(infos)[u]
      invariant forall u :: t <= u < |infos| ==> started[u] == infos[u]
    {
      if t > 0 {
        var prev := started[t - 1];
        SumTotalsSnoc(infos, t - 1);
        started := started[t := started[t].(textureStart := prev.textureStart + Total(prev))];
      }
      ordered := AppendGroup(ordered, polys, textures[t]);
      assert textures[..t + 1][..t] == textures[..t];
    }
    assert textures[..|textures|] == textures;
  }

  /** The six scans for one texture, in kind order. */
  method AppendGroup(ordered: seq<Polygon>, polys: seq<Polygon>, texture: string)
    returns (extended: seq<Polygon>)
    ensures extended == ordered + Group(polys, texture)
  {
    extended := ordered;
    for n := 0 to 6
      invariant extended == ordered + GroupUpTo(polys, texture, n)
    {
      extended := AppendBucket(extended, polys, texture, KindOrder[n]);
    }
  }

  /** One of the six scans of save's reordering: append, in their original order,
      the polygons of one texture and one kind. */
  method AppendBucket(ordered: seq<Polygon>, polys: seq<Polygon>, texture: string, k: MaterialKind)
    returns (extended: seq<Polygon>)
    ensures extended == ordered + Bucket(polys, texture, k)
  {
    extended := ordered;
    for i := 0 to |polys|
      invariant extended == ordered + Bucket(polys[..i], texture, k)
    {
      BucketSnoc(polys[..i], polys[i], texture, k);
      assert polys[..i + 1] == polys[..i] + [polys[i]];
      if polys[i].texture == texture && polys[i].material == Kind(k) {
        extended := extended + [polys[i]];
      }
    }
    assert polys[..|polys|] == polys;
  }

  // ----- what the layout guarantees ------------------------------------------

  /** The closed form of the starts agrees with save's recurrence: the first texture
      keeps its start, and each later one starts where the previous one ends. */
  lemma {:induction false} StartsAreRunningSums(infos: seq<TextureInfo>, t: nat)
    requires 0 < t < |infos|
    ensures WithStarts(infos)[0].textureStart == infos[0].textureStart
    ensures WithStarts(infos)[t].textureStart == WithStarts(infos)[t - 1].textureStart + Total(infos[t - 1])
    ensures Total(WithStarts(infos)[t]) == Total(infos[t])
  {
    SumTotalsSnoc(infos, t - 1);
  }

  lemma {:induction false} TallyPrefix(polys: seq<Polygon>, textures: seq<string>, t: nat)
    requires t <= |textures|
    ensures Tally(polys, textures[..t]) == Tally(polys, textures)[..t]
  {
  }

  lemma {:induction false} GroupUpToLength(polys: seq<Polygon>, texture: string, n: nat)
    requires n <= 6
    ensures |GroupUpTo(polys, texture, n)| == KindOffset(InfoFor(polys, texture), n)
  {
    if n > 0 {
      GroupUpToLength(polys, texture, n - 1);
      var info := InfoFor(polys, texture);
      assert CountOf(info, KindOrder[n - 1]) == |Bucket(polys, texture, KindOrder[n - 1])|;
    }
  }

  lemma {:induction false} KindOffsetAll(ti: TextureInfo)
    ensures KindOffset(ti, 6) == Total(ti)
  {
    assert KindOffset(ti, 1) == ti.numFlat;
    assert KindOffset(ti, 2) == ti.numFlat + ti.numFlatMetal;
    assert KindOffset(ti, 3) == ti.numFlat + ti.numFlatMetal + ti.numGouraud;
    assert KindOffset(ti, 4) == KindOffset(ti, 3) + ti.numGouraudMetal;
    assert KindOffset(ti, 5) == KindOffset(ti, 4) + ti.numGouraudMetalEnv;
  }

  lemma {:induction false} GroupLength(polys: seq<Polygon>, texture: string)
    ensures |Group(polys, texture)| == Total(InfoFor(polys, texture))
  {
    GroupUpToLength(polys, texture, 6);
    KindOffsetAll(InfoFor(polys, texture));
  }

  /** The sum of all the counts is the number of polygons emitted. */
  lemma {:induction false} OrganisedLength(polys: seq<Polygon>, textures: seq<string>)
    ensures |Organised(polys, textures)| == SumTotals(Tally(polys, textures))
  {
    if textures != [] {
      var n := |textures| - 1;
      OrganisedLength(polys, textures[..n]);
      TallyPrefix(polys, textures, n);
      GroupLength(polys, textures[n]);
      var tally := Tally(polys, textures);
      assert tally[..n] == tally[..|tally| - 1];
    }
  }

  lemma {:induction false} OrganisedAppend(polys: seq<Polygon>, a: seq<string>, b: seq<string>)
    ensures Organised(polys, a + b) == Organised(polys, a) + Organised(polys, b)
  {
    if b == [] {
      assert a + b == a;
    } else {
      var n := |b| - 1;
      var ab := a + b;
      assert ab[..|ab| - 1] == a + b[..n];
      assert ab[|ab| - 1] == b[n];
      OrganisedAppend(polys, a, b[..n]);
      assert Organised(polys, ab) == Organised(polys, a + b[..n]) + Group(polys, b[n]);
      assert Organised(polys, b) == Organised(polys, b[..n]) + Group(polys, b[n]);
    }
  }

  lemma {:induction false} GroupUpToPrefix(polys: seq<Polygon>, texture: string, n: nat, m: nat)
    requires n <= m <= 6
    ensures |GroupUpTo(polys, texture, n)| <= |GroupUpTo(polys, texture, m)|
    ensures GroupUpTo(polys, texture, m)[..|GroupUpTo(polys, texture, n)|] == GroupUpTo(polys, texture, n)
  {
    if n < m {
      GroupUpToPrefix(polys, texture, n, m - 1);
    }
  }

  /** The emitted sequence around texture t: the textures before it, its group,
      the textures after it. */
  lemma {:induction false} OrganisedAround(polys: seq<Polygon>, textures: seq<string>, t: nat)
    requires t < |textures|
    ensures Organised(polys, textures) ==
              Organised(polys, textures[..t]) + Group(polys, textures[t]) + Organised(polys, textures[t + 1..])
  {
    var texture := textures[t];
    assert textures == textures[..t] + ([texture] + textures[t + 1..]);
    OrganisedAppend(polys, textures[..t], [texture] + textures[t + 1..]);
    OrganisedAppend(polys, [texture], textures[t + 1..]);
    assert [texture][..0] == [];
  }

  /** Texture t's start is the number of polygons emitted for the textures before it. */
  lemma {:induction false} StartIsPrefixLength(polys: seq<Polygon>, textures: seq<string>, t: nat)
    requires t < |textures|
    ensures WithStarts(Tally(polys, textures))[t].textureStart == |Organised(polys, textures[..t])|
  {
    OrganisedLength(polys, textures[..t]);
    TallyPrefix(polys, textures, t);
  }

  /** Within a texture's group: the kinds before the n-th, then the n-th kind's bucket. */
  lemma {:induction false} GroupAround(polys: seq<Polygon>, texture: string, n: nat)
    requires n < 6
    ensures var upto := GroupUpTo(polys, texture, n);
            var bucket := Bucket(polys, texture, KindOrder[n]);
            && |upto| + |bucket| <= |Group(polys, texture)|
            && Group(polys, texture)[..|upto| + |bucket|] == upto + bucket
  {
    GroupUpToPrefix(polys, texture, n + 1, 6);
  }

  lemma {:induction false} SliceOfMiddle<T>(whole: seq<T>, before: seq<T>, group: seq<T>, after: seq<T>, upto: seq<T>, b: seq<T>)
    requires whole == before + group + after
    requires |upto| + |b| <= |group| && group[..|upto| + |b|] == upto + b
    ensures |before| + |upto| + |b| <= |whole|
    ensures whole[|before| + |upto|..|before| + |upto| + |b|] == b
  {
    var start := |before| + |upto|;
    forall i | 0 <= i < |b| ensures whole[start + i] == b[i] {
      assert whole[start + i] == group[|upto| + i];
      assert group[|upto| + i] == group[..|upto| + |b|][|upto| + i];
    }
  }

  /** The bucket of texture t and the n-th kind, located by the lengths of what
      is emitted before it. */
  lemma {:induction false} BucketSlice(polys: seq<Polygon>, textures: seq<string>, t: nat, n: nat)
    requires t < |textures| && n < 6
    ensures var start := |Organised(polys, textures[..t])| + |GroupUpTo(polys, textures[t], n)|;
            var bucket := Bucket(polys, textures[t], KindOrder[n]);
            && start + |bucket| <= |Organised(polys, textures)|
            && Organised(polys, textures)[start..start + |bucket|] == bucket
  {
    var before, group, after := Organised(polys, textures[..t]), Group(polys, textures[t]), Organised(polys, textures[t + 1..]);
    var upto, bucket := GroupUpTo(polys, textures[t], n), Bucket(polys, textures[t], KindOrder[n]);
    OrganisedAround(polys, textures, t);
    GroupAround(polys, textures[t], n);
    SliceOfMiddle(Organised(polys, textures), before, group, after, upto, bucket);
  }

  lemma {:induction false} CountIsBucketSize(polys: seq<Polygon>, texture: string, k: MaterialKind)
    ensures CountOf(InfoFor(polys, texture), k) == |Bucket(polys, texture, k)|
  {
  }

  /** The heart of the format: the polygons of texture t and the n-th kind occupy
      exactly the range that starts at texture_start[t] plus the counts of the
      kinds before it and is as long as their count, in their original order. */
  lemma {:induction false} BucketPlacement(polys: seq<Polygon>, textures: seq<string>, t: nat, n: nat)
    requires t < |textures| && n < 6
    ensures var info := WithStarts(Tally(polys, textures))[t];
            var start := info.textureStart + KindOffset(info, n);
            var count := CountOf(info, KindOrder[n]);
            && start + count <= |Organised(polys, textures)|
            && Organised(polys, textures)[start..start + count] == Bucket(polys, textures[t], KindOrder[n])
            && forall i :: start <= i < start + count ==> Matches(Organised(polys, textures)[i], textures[t], KindOrder[n])
  {
    BucketRange(polys, textures, t, n);
    BucketRangeMatches(polys, textures, t, n);
  }

  lemma {:induction false} BucketRange(polys: seq<Polygon>, textures: seq<string>, t: nat, n: nat)
    requires t < |textures| && n < 6
    ensures var info := WithStarts(Tally(polys, textures))[t];
            var start := info.textureStart + KindOffset(info, n);
            var count := CountOf(info, KindOrder[n]);
            && start + count <= |Organised(polys, textures)|
            && Organised(polys, textures)[start..start + count] == Bucket(polys, textures[t], KindOrder[n])
  {
    PlacementStart(polys, textures, t, n);
    BucketSlice(polys, textures, t, n);
  }

  lemma {:induction false} BucketRangeMatches(polys: seq<Polygon>, textures: seq<string>, t: nat, n: nat)
    requires t < |textures| && n < 6
    ensures var info := WithStarts(Tally(polys, textures))[t];
            var start := info.textureStart + KindOffset(info, n);
            var count := CountOf(info, KindOrder[n]);
            start + count <= |Organised(polys, textures)| &&
            forall i :: start <= i < start + count ==> Matches(Organised(polys, textures)[i], textures[t], KindOrder[n])
  {
    var info := WithStarts(Tally(polys, textures))[t];
    var bucket := Bucket(polys, textures[t], KindOrder[n]);
    PlacementStart(polys, textures, t, n);
    BucketRange(polys, textures, t, n);
    BucketMatches(polys, textures[t], KindOrder[n]);
    SliceMatches(Organised(polys, textures), info.textureStart + KindOffset(info, n), bucket, textures[t], KindOrder[n]);
  }

  /** The recorded start and count of a bucket are the lengths the reordering
      emits before it and the bucket's own length. */
  lemma {:induction false} PlacementStart(polys: seq<Polygon>, textures: seq<string>, t: nat, n: nat)
    requires t < |textures| && n < 6
    ensures var info := WithStarts(Tally(polys, textures))[t];
            && info.textureStart + KindOffset(info, n)
               == |Organised(polys, textures[..t])| + |GroupUpTo(polys, textures[t], n)|
            && CountOf(info, KindOrder[n]) == |Bucket(polys, textures[t], KindOrder[n])|
  {
    var texture := textures[t];
    var info := WithStarts(Tally(polys, textures))[t];
    var counted := InfoFor(polys, texture);
    assert info == counted.(textureStart := info.textureStart);
    KindOffsetIgnoresStart(counted, info.textureStart, n);
    GroupUpToLength(polys, texture, n);
    StartIsPrefixLength(polys, textures, t);
    CountIsBucketSize(polys, texture, KindOrder[n]);
  }

  lemma {:induction false} SliceMatches(whole: seq<Polygon>, start: nat, bucket: seq<Polygon>, texture: string, k: MaterialKind)
    requires start + |bucket| <= |whole| && whole[start..start + |bucket|] == bucket
    requires forall q :: q in bucket ==> Matches(q, texture, k)
    ensures forall i :: start <= i < start + |bucket| ==> Matches(whole[i], texture, k)
  {
    forall i | start <= i < start + |bucket|
      ensures Matches(whole[i], texture, k)
    {
      assert whole[i] == bucket[i - start];
    }
  }

  lemma {:induction false} KindOffsetIgnoresStart(ti: TextureInfo, s: nat, n: nat)
    requires n <= 6
    ensures KindOffset(ti.(textureStart := s), n) == KindOffset(ti, n)
  {
    if n > 0 {
      KindOffsetIgnoresStart(ti, s, n - 1);
    }
  }

  // ----- nothing is lost but the unrecognised ---------------------------------

  /** The polygons the reordering keeps: those of a known kind whose texture is
      in the document's list, in their original order. */
  function Kept(polys: seq<Polygon>, textures: seq<string>): seq<Polygon> {
    if polys == [] then []
    else
      var last := polys[|polys| - 1];
      Kept(polys[..|polys| - 1], textures) + (if last.material.Kind? && last.texture in textures then [last] else [])
  }

  /** The position of a kind in KindOrder. */
  function KindRank(k: MaterialKind): (n: nat)
    ensures n < 6 && KindOrder[n] == k
    ensures forall i :: 0 <= i < 6 && KindOrder[i] == k ==> i == n
  {
    match k
    case Flat => 0
    case FlatMetal => 1
    case Gouraud => 2
    case GouraudMetal => 3
    case GouraudMetalEnv => 4
    case Shining => 5
  }

  /** The polygon p adds to the first n kinds of a texture's group. */
  function Added(p: Polygon, texture: string, n: nat): multiset<Polygon> {
    if p.texture == texture && p.material.Kind? && KindRank(p.material.kind) < n then multiset{p} else multiset{}
  }

  lemma {:induction false} GroupUpToSnoc(polys: seq<Polygon>, p: Polygon, texture: string, n: nat)
    requires n <= 6
    ensures multiset(GroupUpTo(polys + [p], texture, n)) == multiset(GroupUpTo(polys, texture, n)) + Added(p, texture, n)
  {
    if n > 0 {
      var k := KindOrder[n - 1];
      GroupUpToSnoc(polys, p, texture, n - 1);
      BucketAdds(polys, p, texture, n - 1);
      var prev := GroupUpTo(polys, texture, n - 1);
      var prev' := GroupUpTo(polys + [p], texture, n - 1);
      var b := Bucket(polys, texture, k);
      var b' := Bucket(polys + [p], texture, k);
      assert GroupUpTo(polys + [p], texture, n) == prev' + b';
      assert GroupUpTo(polys, texture, n) == prev + b;
      ShiftAdded(prev, prev', b, b', Added(p, texture, n - 1), Added(p, texture, n));
    }
  }

  /** Multiset bookkeeping of the two snoc lemmas: x' gains a over x, and y' with
      a gains what y gains with a'. */
  lemma {:induction false} ShiftAdded<T>(x: seq<T>, x': seq<T>, y: seq<T>, y': seq<T>, a: multiset<T>, a': multiset<T>)
    requires multiset(x') == multiset(x) + a
    requires multiset(y') + a == multiset(y) + a'
    ensures multiset(x' + y') == multiset(x + y) + a'
  {
    calc {
      multiset(x' + y');
      multiset(x') + multiset(y');
      multiset(x) + (multiset(y') + a);
      multiset(x) + (multiset(y) + a');
      multiset(x + y) + a';
    }
  }

  /** The bucket of the n-th kind gains p exactly when the first n + 1 kinds
      gain it and the first n do not. */
  lemma {:induction false} BucketAdds(polys: seq<Polygon>, p: Polygon, texture: string, n: nat)
    requires n < 6
    ensures multiset(Bucket(polys + [p], texture, KindOrder[n])) + Added(p, texture, n) ==
              multiset(Bucket(polys, texture, KindOrder[n])) + Added(p, texture, n + 1)
  {
    var k := KindOrder[n];
    BucketSnoc(polys, p, texture, k);
    if Matches(p, texture, k) {
      assert KindRank(p.material.kind) == n;
    } else {
      assert Added(p, texture, n + 1) == Added(p, texture, n);
    }
  }

  lemma {:induction false} GroupSnoc(polys: seq<Polygon>, p: Polygon, texture: string)
    ensures multiset(Group(polys + [p], texture)) ==
              multiset(Group(polys, texture)) +
              (if p.texture == texture && p.material.Kind? then multiset{p} else multiset{})
  {
    GroupUpToSnoc(polys, p, texture, 6);
    assert Added(p, texture, 6) == if p.texture == texture && p.material.Kind? then multiset{p} else multiset{};
  }

  lemma {:induction false} OrganisedSnoc(polys: seq<Polygon>, p: Polygon, textures: seq<string>)
    requires Distinct(textures)
    ensures multiset(Organised(polys + [p], textures)) ==
              multiset(Organised(polys, textures)) +
              (if p.material.Kind? && p.texture in textures then multiset{p} else multiset{})
  {
    if textures != [] {
      var n := |textures| - 1;
      var init := textures[..n];
      var last := textures[n];
      assert p.texture in textures <==> p.texture in init || p.texture == last by {
        assert textures == init + [last];
      }
      assert Distinct(init);
      OrganisedSnoc(polys, p, init);
      GroupSnoc(polys, p, last);
      var o := Organised(polys, init);
      var o' := Organised(polys + [p], init);
      var g := Group(polys, last);
      var g' := Group(polys + [p], last);
      var inInit := if p.material.Kind? && p.texture in init then multiset{p} else multiset{};
      var inLast := if p.texture == last && p.material.Kind? then multiset{p} else multiset{};
      var inAll := if p.material.Kind? && p.texture in textures then multiset{p} else multiset{};
      assert inInit + inLast == inAll by {
        if p.texture == last {
          assert p.texture !in init;
        }
      }
      assert Organised(polys + [p], textures) == o' + g';
      assert Organised(polys, textures) == o + g;
      ShiftAdded(o, o', g, g', inInit, inAll);
    }
  }

  /** The reordering is a permutation of the kept polygons: a polygon whose
      material prefix was not recognised is dropped, every other one is emitted
      exactly once. */
  lemma {:induction false} OrganisedIsPermutation(polys: seq<Polygon>, textures: seq<string>)
    requires Distinct(textures)
    ensures multiset(Organised(polys, textures)) == multiset(Kept(polys, textures))
  {
    if polys == [] {
      OrganisedOfNothing(textures);
    } else {
      var n := |polys| - 1;
      OrganisedIsPermutation(polys[..n], textures);
      assert polys == polys[..n] + [polys[n]];
      OrganisedSnoc(polys[..n], polys[n], textures);
    }
  }

  lemma {:induction false} GroupOfNothing(texture: string, n: nat)
    requires n <= 6
    ensures GroupUpTo([], texture, n) == []
  {
    if n > 0 {
      GroupOfNothing(texture, n - 1);
    }
  }

  lemma {:induction false} OrganisedOfNothing(textures: seq<string>)
    ensures Organised([], textures) == []
  {
    if textures != [] {
      OrganisedOfNothing(textures[..|textures| - 1]);
      GroupOfNothing(textures[|textures| - 1], 6);
    }
  }

  /** A mesh without UV layers yields no polygon at all, and so is never exported. */
  lemma {:induction false} NoLayersNoPolygons(tris: seq<Triangle>, materials: seq<string>, textures: seq<string>)
    ensures Organised(RawPolygons(tris, [], materials), textures) == []
  {
    OrganisedOfNothing(textures);
  }
}
