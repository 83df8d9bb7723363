# P3D / CCA export and import core, in Dafny

This project models the logic under the Blender calls of the Carmageddon-style
P3D/CCA add-on: `io_scene_cdp3d/export_cdp3d.py` (operator `save` and
`save_cca`) and `io_scene_cdp3d/import_cdp3d.py` (operator `load`, the mesh
rebuild in `create_meshes`, and `load_cca`). Blender objects become plain
records. Coordinates are `real`, and text is `string`.

The modules follow the pipeline:

- `Materials` (materials.dfy) holds the material-name convention:
  - `sanitise_material` and `sanitise_mesh_name`;
  - `get_material_type_name`, which splits "<prefix>_<texture>" into a kind and a texture;
  - `get_material_name`, which builds the name back.

  The convention round-trips for every known kind and every already-sanitised texture.
- `Geometry` (geometry.dfy) covers the bounds and sizes computed during export:
  - the vertex scan with its six running extrema;
  - the per-mesh extents;
  - the main mesh's symmetric document size, with the 20/40 snapping of makep3d;
  - the floor-level height override;
  - the main/shadow/collision flag bits and the role they give back.
- `Organiser` (organiser.dfy) covers the polygon organiser of `save`:
  - For every UV layer and loop triangle, it builds a polygon and bumps the counter of its kind in its texture's info.
  - Texture starts are a running sum of the previous texture's six counts.
  - Polygons are re-emitted texture-major, then kind by kind (f, fm, g, gm, gme, s), keeping their order.

  The lemmas prove the property a P3D reader relies on: the polygons of texture `t` and kind `k` are exactly the range that the start and counts name. They also prove that the output is a permutation of the polygons whose kind is known.
- `P3dExport` (export.dfy) is the export transaction, with the document as a `P3D` class whose counters always equal the lengths of its lists:
  - `get_textures_used`, which gives a mesh without materials the `f_colwhite.tga` material;
  - the first pass, which builds the document's texture list through a set and finds main, mainshad and maincoll;
  - the CANCELLED exit when there is no main mesh;
  - the second pass, which appends every light and every mesh that has at least one vertex and one polygon.
- `P3dImport` (import.dfy) covers the mesh rebuild of `load`:
  - faces and loop UVs;
  - the flat UV list;
  - the first matching material slot, and smooth shading for the Gouraud kinds;
  - the floor-level empty.

  A face rebuilt this way saves back to the polygon it came from. With main at height zero, the floor-level empty gives back the height.
- `Cca` (cca.dfy) covers the CCA anchor text:
  - `save_pos`: the offset from main in x, z, y order, zeros and a NOT FOUND tag when the object is missing;
  - `save_pos2`: the y offset only;
  - `save_cca`: the fixed line list;
  - `add_position`: text before '#', stripped, split at spaces, exactly three numbers, second and third swapped;
  - `add_position2`;
  - `load_cca`: line 6, then the header line and its fixed offsets `p+2 … p+25` without `p+5`.

  The top lemma shows that a file holding the saved lines where `load_cca` looks reads back every anchor `save_cca` wrote.
- `Wrappers` (wrappers.dfy) holds `Option`, `Result`, `Distinct` and `IndexOf` (`list.index`), which the exporter and the importer share.

In these places the code does something a reader might not expect; the model follows the code:

- The texture list is `list(set(...))`, so its order is not first-seen. `ListOfSet` promises only distinct elements and the right set.
- When several objects are named "main", the last one wins, because `save` overwrites its choice.
- `engine_pos` carries the scene Y offset, not Z.
- The per-mesh extrema start at 0.0 whatever the vertices, because the seeding reads the new record's empty vertex list. A mesh that does not straddle its origin therefore gets extents that include the origin.
- A CCA line with a non-numeric token, a missing header line or a missing line makes `load_cca` raise. The model turns each of these into an error that stops the reading, not into an absent anchor.

## Model

| member | source | states |
|---|---|---|
| Materials.SanitiseMaterial | io_scene_cdp3d/export_cdp3d.py:16-23 | the result is the name without a trailing ".tga", with each '.' and ' ' turned into '_', then ".tga"; it always ends in ".tga" and has no '.' or ' ' before it |
| Materials.SanitisedIsFixedPoint | io_scene_cdp3d/export_cdp3d.py:16-23 | a name is left unchanged exactly when it ends in ".tga" with no '.' or ' ' before that suffix |
| Materials.SanitiseMaterialIdempotent | io_scene_cdp3d/export_cdp3d.py:16-23 | sanitising twice equals sanitising once |
| Materials.SanitiseMeshName | io_scene_cdp3d/export_cdp3d.py:25-26 | same length, every ' ' becomes '_', every other character is kept, no ' ' is left |
| Materials.SplitFirst | io_scene_cdp3d/export_cdp3d.py:29 | split(sep, 1): the head has no separator; there is a tail exactly when the separator occurs, and head, separator and tail rebuild the text |
| Materials.SplitFirstAt | io_scene_cdp3d/export_cdp3d.py:29 | the split happens at the first separator, after a head without one |
| Materials.LookupPrefix | io_scene_cdp3d/export_cdp3d.py:33-45 | a prefix outside f, fm, g, gm, gme, s comes back as the raw prefix string |
| Materials.GetMaterialTypeName | io_scene_cdp3d/export_cdp3d.py:28-47 | a name without '_' is (GOURAUD, name) unchanged; otherwise the texture is sanitised |
| Materials.GetMaterialTypeNameSplit | io_scene_cdp3d/export_cdp3d.py:28-47 | for "<prefix>_<rest>" the kind comes from the prefix before the first '_' and the texture is the sanitised rest |
| Materials.UnknownPrefixIsRaw | io_scene_cdp3d/export_cdp3d.py:33-47 | a prefix that is none of f, fm, g, gm, gme, s is returned as the material itself |
| Materials.WallsExample | io_scene_cdp3d/export_cdp3d.py:31-32 | "walls" gives (GOURAUD, "walls") |
| Materials.MetalPlateExample | io_scene_cdp3d/export_cdp3d.py:28-47 | "fm_metal.plate" gives (FLAT_METAL, "metal_plate.tga") |
| Materials.SanitiseMetalPlate | io_scene_cdp3d/export_cdp3d.py:16-23 | "metal.plate" sanitises to "metal_plate.tga" |
| Materials.ColWhiteExample | io_scene_cdp3d/export_cdp3d.py:62-64 | the default material "f_colwhite.tga" is (FLAT, "colwhite.tga") |
| Materials.SanitiseColWhite | io_scene_cdp3d/export_cdp3d.py:16-23 | "colwhite.tga" is already sanitised |
| Materials.KindCode | io_scene_cdp3d/import_cdp3d.py:63-77 | each kind's prefix has no '_' and the exporter's table maps it back to the same kind |
| Materials.GetMaterialName | io_scene_cdp3d/import_cdp3d.py:63-78 | "<code>_" + texture for a known kind, the texture alone for any other value |
| Materials.MaterialNameRoundTrip | io_scene_cdp3d/import_cdp3d.py:63-78 | get_material_type_name(get_material_name((k, t))) == (k, t) for every known kind and every sanitised texture |
| Materials.MaterialTypeNameRoundTrip | io_scene_cdp3d/export_cdp3d.py:28-47 | a name with a known prefix and a sanitised texture survives export then import unchanged |
| Geometry.LowIsLeast | io_scene_cdp3d/export_cdp3d.py:195-216 | the running minimum is at most 0 and at most every coordinate, and it is 0 or attained |
| Geometry.HighIsGreatest | io_scene_cdp3d/export_cdp3d.py:195-216 | the running maximum is at least 0 and at least every coordinate, and it is 0 or attained |
| Geometry.Low | io_scene_cdp3d/export_cdp3d.py:195-216 | the minimum is at most 0 and at most the coordinate of every vertex on that axis |
| Geometry.High | io_scene_cdp3d/export_cdp3d.py:195-216 | the maximum is at least 0 and at least the coordinate of every vertex on that axis |
| Geometry.BoundsEnclose | io_scene_cdp3d/export_cdp3d.py:195-216 | on every axis low <= 0 <= high and every vertex lies between low and high |
| Geometry.ScanVertices | io_scene_cdp3d/export_cdp3d.py:195-217 | the vertex loop yields the vertices scaled componentwise and the box of their running extrema, which encloses them |
| Geometry.ExtentsCoverVertices | io_scene_cdp3d/export_cdp3d.py:221-223 | length, height and depth are non-negative and bound the distance between any two vertices on X, Z and Y |
| Geometry.MainHeight | io_scene_cdp3d/export_cdp3d.py:226-231 | with a floor level in use, its z is main's z minus half the height; otherwise the height is the mesh's own |
| Geometry.Snap | io_scene_cdp3d/export_cdp3d.py:244-247 | a value in [19.95, 20.05] becomes 20, one in [39.95, 40.05] becomes 40, any other is unchanged |
| Geometry.SnapExamples | io_scene_cdp3d/export_cdp3d.py:244-247 | 19.96 snaps to 20, 39.97 to 40, 20.10 and 40.10 stay |
| Geometry.SnapIdempotent | io_scene_cdp3d/export_cdp3d.py:244-247 | snapping twice equals snapping once |
| Geometry.SymmetricSizeCoversExtent | io_scene_cdp3d/export_cdp3d.py:239-241 | 2·max(high, −low) is at least the extent, with equality exactly when the mesh is symmetric about its origin |
| Geometry.DocumentSize | io_scene_cdp3d/export_cdp3d.py:239-247 | the height is kept; length and depth each lie within 0.05 of 2·max(high, −low) on their axis, equal it outside the snap windows [19.95, 20.05] and [39.95, 40.05], and are 20 or 40 inside them |
| Geometry.MeshFlags | io_scene_cdp3d/export_cdp3d.py:249-261 | bit 1 exactly for main, bit 2 for main or other, bit 4 for shadow or main without a shadow mesh, bit 8 for collision or main without a collision mesh, no other bit |
| Geometry.FlagsDetermineRole | io_scene_cdp3d/export_cdp3d.py:249-261 | the flags give back the mesh's role |
| Geometry.RoleOfFlags | io_scene_cdp3d/export_cdp3d.py:249-261 | main exactly when bit 1 is set, other exactly when bits 1, 4 and 8 are all clear |
| Geometry.FlagExamples | io_scene_cdp3d/export_cdp3d.py:249-261 | main alone 15, main with shadow 11, main with both 3, shadow 4, collision 8, other 2 |
| Wrappers.IndexOf | io_scene_cdp3d/export_cdp3d.py:276 | list.index: the position of the first occurrence |
| Organiser.Bump | io_scene_cdp3d/export_cdp3d.py:277-288 | only the counter of the polygon's kind grows, by one, and the start is kept |
| Organiser.RawPolygons | io_scene_cdp3d/export_cdp3d.py:268-300 | every UV layer re-emits every triangle: layers × triangles polygons |
| Organiser.RawPolygonsAt | io_scene_cdp3d/export_cdp3d.py:268-300 | the polygon built from layer l and triangle j sits at position l × triangles + j: layer after layer, each in triangle order |
| Organiser.Tally | io_scene_cdp3d/export_cdp3d.py:275-288 | one info per texture, with start 0 and each kind's counter equal to the number of polygons of that texture and kind |
| Organiser.InfoForSnoc | io_scene_cdp3d/export_cdp3d.py:275-288 | one more polygon bumps its kind in its texture's info; a polygon with an unrecognised prefix changes nothing |
| Organiser.TallySnoc | io_scene_cdp3d/export_cdp3d.py:275-288 | the tally after one more polygon is the old tally with the info of its texture bumped |
| Organiser.CollectPolygons | io_scene_cdp3d/export_cdp3d.py:266-300 | the nested layer/triangle loops build the polygons in layer-major order and infos equal to the tally of those polygons |
| Organiser.CollectLayer | io_scene_cdp3d/export_cdp3d.py:269-300 | one layer appends one polygon per triangle and keeps the infos equal to the tally |
| Organiser.AddPolygon | io_scene_cdp3d/export_cdp3d.py:275-300 | the polygon is appended and the infos stay equal to the tally |
| Organiser.BucketMatches | io_scene_cdp3d/export_cdp3d.py:314-336 | a bucket holds only polygons of its texture and kind |
| Organiser.ReorderPolygons | io_scene_cdp3d/export_cdp3d.py:302-336 | the reordering loop yields the texture-major, kind-ordered sequence and the infos with their starts filled in |
| Organiser.AppendGroup | io_scene_cdp3d/export_cdp3d.py:314-336 | the six scans for a texture append its group in kind order |
| Organiser.Organised | io_scene_cdp3d/export_cdp3d.py:314-336 | every emitted polygon has a listed texture and a known kind |
| Organiser.AppendBucket | io_scene_cdp3d/export_cdp3d.py:314-316 | one scan appends the polygons of one texture and kind in their original order |
| Organiser.WithStarts | io_scene_cdp3d/export_cdp3d.py:305-312 | one info per texture, each equal to its input except for the start, and the first start kept |
| Organiser.StartsAreRunningSums | io_scene_cdp3d/export_cdp3d.py:305-312 | texture_start[t] == texture_start[t−1] + the six counts of t−1, and the counts are kept |
| Organiser.StartIsPrefixLength | io_scene_cdp3d/export_cdp3d.py:305-312 | texture t's start is the number of polygons emitted for the textures before it |
| Organiser.OrganisedLength | io_scene_cdp3d/export_cdp3d.py:339 | the number of polygons emitted is the sum of all counts |
| Organiser.BucketPlacement | io_scene_cdp3d/export_cdp3d.py:302-336 | the polygons of texture t and kind k are exactly m.polys[start[t] + counts of earlier kinds .. + count[t][k]], in original order |
| Organiser.PlacementStart | io_scene_cdp3d/export_cdp3d.py:305-312 | a bucket's recorded start is the length emitted before it, and its count is its length |
| Organiser.OrganisedIsPermutation | io_scene_cdp3d/export_cdp3d.py:314-336 | the emitted polygons are a permutation of those with a known kind and a listed texture |
| Organiser.NoLayersNoPolygons | io_scene_cdp3d/export_cdp3d.py:268 | a mesh without UV layers yields no polygon |
| P3dExport.Dedup | io_scene_cdp3d/export_cdp3d.py:68-71 | no duplicates, and the same elements as the input |
| P3dExport.ListTextures | io_scene_cdp3d/export_cdp3d.py:68-73 | the texture of every material slot, once each, in first-seen order |
| P3dExport.GetTexturesUsed | io_scene_cdp3d/export_cdp3d.py:49-73 | a mesh without materials gets f_colwhite.tga; the textures are those of the slots, deduplicated |
| P3dExport.EffectiveMaterials | io_scene_cdp3d/export_cdp3d.py:60-66 | never empty, and the mesh's own materials whenever it has any |
| P3dExport.ListOfSet | io_scene_cdp3d/export_cdp3d.py:132 | list(set(...)): no duplicates and exactly the set's elements, in no fixed order |
| P3dExport.UsedTexturesCover | io_scene_cdp3d/export_cdp3d.py:130-132 | the texture of every material of every mesh object is in the document list, so the index lookup of save succeeds |
| P3dExport.FindLast | io_scene_cdp3d/export_cdp3d.py:130-138 | the last mesh object with the name, or none exactly when there is no such object |
| P3dExport.ScanObjects | io_scene_cdp3d/export_cdp3d.py:129-141 | the first pass yields a duplicate-free list of all used textures and the last main, mainshad and maincoll |
| P3dExport.RoleAt | io_scene_cdp3d/export_cdp3d.py:249-261 | main exactly for main's index; shadow only for mainshad's, collision only for maincoll's when it is not mainshad's; other exactly for any other index |
| P3dExport.ExportMesh | io_scene_cdp3d/export_cdp3d.py:185-339 | one vertex per object vertex and counters equal to list lengths, one texture info per document texture, every polygon with a listed texture and a known kind |
| P3dExport.ExportedLights | io_scene_cdp3d/export_cdp3d.py:166-182 | exactly as many lights as light objects, and none when no object is a light |
| P3dExport.ExportedLightAt | io_scene_cdp3d/export_cdp3d.py:166-182 | light object i's record sits right after those of the light objects before it, so the lights keep the objects' order |
| P3dExport.ExportedMeshes | io_scene_cdp3d/export_cdp3d.py:166-348 | at most one mesh per object, and each has a vertex and a polygon |
| P3dExport.ExportedMeshesNonEmpty | io_scene_cdp3d/export_cdp3d.py:341-347 | every mesh in the document has at least one vertex and one polygon |
| P3dExport.MeshWithoutContentIsSkipped | io_scene_cdp3d/export_cdp3d.py:341-347 | a mesh object without UV layers or vertices adds nothing to the document |
| P3dExport.ExportMeshLayout | io_scene_cdp3d/export_cdp3d.py:185-339 | counters equal list lengths, the flags give back the role, main sits at the origin, the first texture starts at 0 |
| P3dExport.ExportMeshPolygons | io_scene_cdp3d/export_cdp3d.py:266-339 | layers × triangles polygons are collected, and the mesh's polygons are a permutation of those of a known kind |
| P3dExport.ExportMeshRuns | io_scene_cdp3d/export_cdp3d.py:302-336 | in the written mesh each (texture, kind) run named by the texture info holds only polygons of that texture and kind |
| P3dExport.P3D.constructor | io_scene_cdp3d/export_cdp3d.py:97 | an empty document with counters equal to its list lengths |
| P3dExport.BuildMesh | io_scene_cdp3d/export_cdp3d.py:185-339 | the mesh record built step by step equals ExportMesh and its box is the bounds of its vertices |
| P3dExport.AddLight | io_scene_cdp3d/export_cdp3d.py:169-182 | num_lights += 1 with the light appended; nothing else changes |
| P3dExport.ExportMeshObject | io_scene_cdp3d/export_cdp3d.py:184-348 | the mesh is appended (num_meshes += 1) exactly when it has a vertex and a polygon; main fixes the document size |
| P3dExport.ExportObject | io_scene_cdp3d/export_cdp3d.py:168-348 | one step of the second pass extends lights and meshes as specified and keeps the counters equal to the lengths |
| P3dExport.ExportAll | io_scene_cdp3d/export_cdp3d.py:166-348 | the second pass yields all lights, all non-empty meshes, and main's document size |
| P3dExport.Save | io_scene_cdp3d/export_cdp3d.py:75-362 | CANCELLED with no document exactly when no mesh is named main; otherwise a fresh document with counters equal to lengths, duplicate-free used textures, and the specified lights, meshes and size |
| P3dImport.FaceUVs | io_scene_cdp3d/import_cdp3d.py:138-142 | 3 UVs per polygon, in corner order |
| P3dImport.CreateMeshFaces | io_scene_cdp3d/import_cdp3d.py:135-142 | faces[i] is polygon i's vertex triple and the UV list is 3·n corner UVs |
| P3dImport.Flatten | io_scene_cdp3d/import_cdp3d.py:155 | twice as many numbers, u then v per loop |
| P3dImport.UnflattenFlatten | io_scene_cdp3d/import_cdp3d.py:155 | the flat list loses nothing: every loop's UV is recovered from it |
| P3dImport.FirstEntry | io_scene_cdp3d/import_cdp3d.py:147-148 | the first materials_used entry with the polygon's kind and texture, none exactly when there is no such entry |
| P3dImport.AssignMaterials | io_scene_cdp3d/import_cdp3d.py:146-150 | every face gets the first matching slot and is smooth exactly for the Gouraud kinds; the first face without a slot is reported as an error |
| P3dImport.SlotNames | io_scene_cdp3d/import_cdp3d.py:132-133 | slot j is named get_material_name of entry j |
| P3dImport.RebuiltFaceSavesBack | io_scene_cdp3d/import_cdp3d.py:135-150 | a rebuilt face of a known kind with a sanitised texture is exported back to the very polygon it came from |
| P3dImport.FloorLevelRoundTrip | io_scene_cdp3d/import_cdp3d.py:227 | with floor_level at (0, 0, −height/2), export records that height again exactly when main sits at height 0 |
| Cca.StripLeft | io_scene_cdp3d/import_cdp3d.py:233 | removes exactly the leading whitespace |
| Cca.StripRight | io_scene_cdp3d/import_cdp3d.py:233 | removes exactly the trailing whitespace |
| Cca.StripPadded | io_scene_cdp3d/import_cdp3d.py:233 | text followed by whitespace strips back to itself |
| Cca.SplitAll | io_scene_cdp3d/import_cdp3d.py:234 | split(' '): pieces without separators that join back to the text |
| Cca.SplitJoin | io_scene_cdp3d/import_cdp3d.py:234 | splitting the join of separator-free pieces gives the pieces |
| Cca.ParseAll | io_scene_cdp3d/import_cdp3d.py:234 | all tokens read as numbers, in order, or some token is not a number |
| Cca.ReadPosition | io_scene_cdp3d/import_cdp3d.py:231-243 | a point is placed only from a line with exactly three tokens |
| Cca.ReadPositionMeaning | io_scene_cdp3d/import_cdp3d.py:231-243 | an error exactly when a token is not a number, nothing unless there are exactly three, else the point with its 2nd and 3rd numbers swapped |
| Cca.AddPosition | io_scene_cdp3d/import_cdp3d.py:231-243 | the in-place swap via a temporary computes that meaning |
| Cca.AddPositionExample | io_scene_cdp3d/import_cdp3d.py:231-243 | "1.0 2.0 3.0 # foo" places (1.0, 3.0, 2.0) |
| Cca.ExampleTokens | io_scene_cdp3d/import_cdp3d.py:232-234 | "1.0 2.0 3.0 # foo" gives the tokens "1.0", "2.0", "3.0" |
| Cca.EmptyTokenRaises | io_scene_cdp3d/import_cdp3d.py:232-234 | since float('') raises, a line with an empty token is an error, not a skipped line |
| Cca.CommentOnlyLineRaises | io_scene_cdp3d/import_cdp3d.py:232-234 | a line holding only a comment gives one empty token and raises |
| Cca.ReadPosition2 | io_scene_cdp3d/import_cdp3d.py:246-251 | an error exactly when the uncommented text is not a number, else (0, v, 0) |
| Cca.CommentSplits | io_scene_cdp3d/export_cdp3d.py:371 | what precedes the '#' of a written line is the numbers and the tabs |
| Cca.ThreeTokens | io_scene_cdp3d/export_cdp3d.py:371 | a save_pos line gives exactly its three number tokens back |
| Cca.SavePos | io_scene_cdp3d/export_cdp3d.py:364-371 | the line ends with the object's name and a newline |
| Cca.SavePos2 | io_scene_cdp3d/export_cdp3d.py:373-380 | the line ends with the object's name and a newline |
| Cca.SavePosRoundTrip | io_scene_cdp3d/export_cdp3d.py:364-371 | reading a save_pos line gives the offset from main with y and z back in place, zeros when the object is missing |
| Cca.ExactSavePosRoundTrip | io_scene_cdp3d/export_cdp3d.py:364-371 | when the numbers read back exactly, the line gives the offset from main itself |
| Cca.SavePos2RoundTrip | io_scene_cdp3d/export_cdp3d.py:373-380 | reading a save_pos2 line with add_position2 places (0, y offset, 0) |
| Cca.Offset | io_scene_cdp3d/import_cdp3d.py:265-287 | the table's line offsets lie in 2..25 and skip 5 |
| Cca.OffsetsIncrease | io_scene_cdp3d/import_cdp3d.py:265-287 | every entry has its own line, in table order |
| Cca.ListMeshes | io_scene_cdp3d/export_cdp3d.py:394-400 | the loop yields every mesh name followed by a space, whether there is a main, and main's location |
| Cca.CcaLines | io_scene_cdp3d/export_cdp3d.py:382-436 | 28 lines, with blank lines 1 and 3 and the minigun angle at line 7 |
| Cca.CcaLinesLayout | io_scene_cdp3d/export_cdp3d.py:407-434 | 28 lines; the centre of gravity at line 2, the minigun angle at line 7, and anchor j at line Offset(j) + 2 |
| Cca.WriteAnchors | io_scene_cdp3d/export_cdp3d.py:411-434 | the sequential writes produce every anchor line in table order, with the angle line after minigun_pos |
| Cca.SaveCca | io_scene_cdp3d/export_cdp3d.py:382-436 | save_cca writes exactly the fixed line list |
| Cca.StopsAtFirstError | io_scene_cdp3d/import_cdp3d.py:265-287 | after the first failing entry no later entry is read |
| Cca.ReadAnchor | io_scene_cdp3d/import_cdp3d.py:265-287 | engine_pos, read successfully, is placed at x = z = 0 |
| Cca.ReadAnchorsUpTo | io_scene_cdp3d/import_cdp3d.py:265-287 | at most one anchor per entry read, and an error-free read of n entries had the last entry's line in the file |
| Cca.AddAnchor | io_scene_cdp3d/import_cdp3d.py:265-287 | entry j is read with add_position, engine_pos with add_position2 |
| Cca.LoadEntry | io_scene_cdp3d/import_cdp3d.py:265-287 | one entry: a missing line or a failed read stops the table, else the anchor is created |
| Cca.LoadTable | io_scene_cdp3d/import_cdp3d.py:265-287 | the table read in order from the header line, stopping at the first error |
| Cca.LoadCca | io_scene_cdp3d/import_cdp3d.py:254-291 | line 6, then the first header line, then the table, each failure ending the load |
| Cca.ReadsBackEntry | io_scene_cdp3d/import_cdp3d.py:265-287 | a saved anchor line reads back as that anchor's offset from main |
| Cca.ReadsBackAnchors | io_scene_cdp3d/import_cdp3d.py:265-287 | lines holding the saved texts at the table's offsets read back as every anchor, without error |
| Cca.TableReadsBack | io_scene_cdp3d/import_cdp3d.py:265-287 | the same, for the whole table |
| Cca.BlockReadsBack | io_scene_cdp3d/import_cdp3d.py:263-287 | the saved block placed one line after the header reads back as every anchor |
| Cca.HeaderAt | io_scene_cdp3d/import_cdp3d.py:263 | index finds the header at the first line that is one |
| Cca.HeaderFollows | io_scene_cdp3d/import_cdp3d.py:261-263 | after lines without a header, the header is found there and line 6 is unchanged |
| Cca.ReadCca | io_scene_cdp3d/import_cdp3d.py:254-291 | an error-free load had line 6 and the header in the file, and it places at most the table's anchors and the centre of gravity |
| Cca.ReadCcaAt | io_scene_cdp3d/import_cdp3d.py:254-291 | a readable line 6 and an error-free table give the centre of gravity then the table's anchors |
| Cca.ReadCcaParts | io_scene_cdp3d/import_cdp3d.py:254-291 | the same for a file made of lines, the header, one line and the rest |
| Cca.LoadReadsBackBlock | io_scene_cdp3d/import_cdp3d.py:254-291 | a file with the saved centre of gravity on line 6 and the saved block after the header reads back as every anchor, without error |
| Cca.LoadReadsBackSavedBlock | io_scene_cdp3d/import_cdp3d.py:254-291 | save_cca's own lines placed where load_cca looks read back as every anchor save_cca wrote, without error |

## Left out

- Blender scene work is not modelled: traversal, visibility and selection, the depsgraph and modifier evaluation, `to_mesh`, `calc_loop_triangles`, collections and popups. The exporter receives the objects as a list of records with their triangles and UV layers.
- `if len(tri.loops) != 3: break` (export_cdp3d.py:270-271) is not modelled, because a loop triangle has exactly three loops.
- On import, `from_pydata`, the per-edge smooth flags, `remove_doubles` and the EdgeSplit modifier (import_cdp3d.py:144, 157-168) are left out as foreign mesh operations. Faces are modelled as built from the polygons, with face i owning loops 3i, 3i+1 and 3i+2.
- `create_meshes` loops over `range(m.num_polys)`. The model takes `num_polys` to be the length of the polygon list, as the exporter writes it.
- `add_material`'s shader node graph and the Principled BSDF constants (import_cdp3d.py:80-119) are left out. Only the slot names it creates are modelled (`SlotNames`).
- The lights of `load` (`create_lights`) are left out. So are `color_to_int` and `int_to_color`, which belong to p3d.py. An exported light's colour is an already-packed integer.
- The binary P3D codec and the `P3D*` record defaults are not part of this model; p3d.py is not part of this model. Counters, starts and flags are taken to start at 0.
- File I/O, the export log, `exported_meshes_string` of `save`, the printed messages, and the filesystem probing in `texture_exists`/`add_textures` are left out. A CCA file is its list of lines, each with its newline.
- Floating point is left out, and coordinates are `real`.
  - `{:.4g}` and `float()` are parameters: `Formatter` and `Parser`.
  - The CCA round trip assumes that every written number is a plain token the parser accepts (`Compatible`).
- Cca.SavePosRoundTrip: numbers are recovered as their text reads back (`Reread`), not exactly, because formatting rounds. Exact recovery is `ExactSavePosRoundTrip`, under the assumption that the parser reads each written number back exactly.
- `str.strip()` is modelled with the ASCII whitespace characters only.
- The `Parser` parameter that stands for `float()` is constrained only where a lemma says so. `float('')` always raises, but only `EmptyTokenRaises` and `CommentOnlyLineRaises` assume that the empty token is not a number. With a parser that accepts "", the other read functions would read such lines.
- A triangle whose `material_index` is past the last material slot is excluded by `TriangleFits` (through `MeshFits` and `SceneFits`, which `Save` requires). The source raises IndexError there, at `ob.data.materials[tri.material_index]` (export_cdp3d.py:275). The same holds for loop indices outside the UV layer. The model does not describe that failure.
- Material slots that are `None` are not modelled: materials are names. A mesh with any `None` slot makes the source fail at `mat.name` (export_cdp3d.py:69).
- Uniqueness of Blender object names is not modelled. The lookup of main, mainshad and maincoll picks the last object with the name, as the loop does.
- The output of `save_cca` on its own has no "--- Positions ---" line, and its centre of gravity sits at line 2, not line 6. So `load_cca` cannot read it directly. `LoadReadsBackSavedBlock` covers a file in which the saved lines sit where `load_cca` looks.
