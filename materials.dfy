/** The material-name convention shared by the exporter and the importer
    (io_scene_cdp3d/export_cdp3d.py and io_scene_cdp3d/import_cdp3d.py).

    A Blender material called "<prefix>_<texture>" stands for one of the six P3D
    shading kinds (the prefix) and a texture file name (the rest).  The exporter
    turns a material name into a (material, texture) pair; the importer builds the
    material name back from such a pair. */
module Materials {
  import opened Wrappers

  /** P3DMaterial's six shading kinds. */
  datatype MaterialKind = Flat | FlatMetal | Gouraud | GouraudMetal | GouraudMetalEnv | Shining

  /** The material slot of a polygon.  The exporter's prefix lookup has no default:
      an unrecognised prefix is carried along as the raw prefix string. */
  datatype PolyMaterial = Kind(kind: MaterialKind) | RawPrefix(prefix: string)

  predicate EndsWith(s: string, suffix: string) {
    |suffix| <= |s| && s[|s| - |suffix|..] == suffix
  }

  /** Python's str.replace for a single character. */
  function ReplaceChar(s: string, from: char, to: char): string {
    seq(|s|, i requires 0 <= i < |s| => if s[i] == from then to else s[i])
  }

  /** The characters sanitise_material turns into '_'. */
  predicate Unsafe(c: char) {
    c == '.' || c == ' '
  }

  /** The part of a material name that sanitise_material keeps: a trailing ".tga" is dropped. */
  function Stem(name: string): string {
    if EndsWith(name, ".tga") then name[..|name| - 4] else name
  }

  /** sanitise_material: drop a trailing ".tga", turn every '.' and ' ' into '_',
      and append ".tga" unless the name already ends in it. */
  function SanitiseMaterial(name: string): (r: string)
    ensures EndsWith(r, ".tga")
    ensures |r| == |Stem(name)| + 4
    ensures forall i :: 0 <= i < |r| - 4 ==> !Unsafe(r[i])
    ensures forall i :: 0 <= i < |Stem(name)| ==>
              r[i] == (if Unsafe(Stem(name)[i]) then '_' else Stem(name)[i])
  {
    var stem := Stem(name);
    var dotless := ReplaceChar(stem, '.', '_');
    var spaceless := ReplaceChar(dotless, ' ', '_');
    // No '.' is left, so the name cannot end in ".tga" here and the suffix is always added.
    assert forall i :: 0 <= i < |spaceless| ==> spaceless[i] != '.';
    assert |spaceless| >= 4 ==> spaceless[|spaceless| - 4..][0] != '.';
    var r := if EndsWith(spaceless, ".tga") then spaceless else spaceless + ".tga";
    r
  }

  /** A name is left alone by sanitise_material exactly when it already ends in
      ".tga" and has no '.' or ' ' before that suffix. */
  predicate Sanitised(t: string) {
    EndsWith(t, ".tga") && forall i :: 0 <= i < |t| - 4 ==> !Unsafe(t[i])
  }

  lemma {:induction false} SanitisedIsFixedPoint(t: string)
    ensures SanitiseMaterial(t) == t <==> Sanitised(t)
  {
    if Sanitised(t) {
      var r := SanitiseMaterial(t);
      assert Stem(t) == t[..|t| - 4];
      assert |r| == |t|;
      forall i | 0 <= i < |t| ensures r[i] == t[i] {
        if i >= |t| - 4 {
          assert r[|r| - 4..] == ".tga" == t[|t| - 4..];
          assert r[i] == r[|r| - 4..][i - (|t| - 4)];
        }
      }
    }
  }

  lemma {:induction false} SanitiseMaterialIdempotent(name: string)
    ensures SanitiseMaterial(SanitiseMaterial(name)) == SanitiseMaterial(name)
  {
    SanitisedIsFixedPoint(SanitiseMaterial(name));
  }

  /** sanitise_mesh_name: every ' ' becomes '_', nothing else changes. */
  function SanitiseMeshName(name: string): (r: string)
    ensures |r| == |name|
    ensures ' ' !in r
    ensures forall i :: 0 <= i < |name| && name[i] != ' ' ==> r[i] == name[i]
    ensures forall i :: 0 <= i < |name| && name[i] == ' ' ==> r[i] == '_'
  {
    ReplaceChar(name, ' ', '_')
  }

  /** Python's s.split(sep, 1): the text before the first sep and, if sep occurs,
      the text after it. */
  function SplitFirst(s: string, sep: char): (r: (string, Option<string>))
    ensures sep !in r.0
    ensures r.1.None? <==> sep !in s
    ensures r.1.None? ==> r.0 == s
    ensures r.1.Some? ==> s == r.0 + [sep] + r.1.value
  {
    if s == [] then ([], None)
    else if s[0] == sep then ([], Some(s[1..]))
    else
      var rest := SplitFirst(s[1..], sep);
      assert rest.1.Some? ==> s == [s[0]] + rest.0 + [sep] + rest.1.value;
      ([s[0]] + rest.0, rest.1)
  }

  /** The split point is unique: the first separator is the one after a separator-free head. */
  lemma {:induction false} SplitFirstAt(head: string, sep: char, tail: string)
    requires sep !in head
    ensures SplitFirst(head + [sep] + tail, sep) == (head, Some(tail))
  {
    if head != [] {
      var s := head + [sep] + tail;
      assert s[0] == head[0] != sep;
      assert s[1..] == head[1..] + [sep] + tail;
      SplitFirstAt(head[1..], sep, tail);
      assert head == [head[0]] + head[1..];
    } else {
      assert head + [sep] + tail == [sep] + tail;
    }
  }

  /** The prefix table of get_material_type_name, with no default entry. */
  function LookupPrefix(t: string): (m: PolyMaterial)
    ensures m.RawPrefix? ==> m.prefix == t
    ensures t !in ["f", "fm", "g", "gm", "gme", "s"] ==> m == RawPrefix(t)
  {
    if t == "f" then Kind(Flat)
    else if t == "fm" then Kind(FlatMetal)
    else if t == "g" then Kind(Gouraud)
    else if t == "gm" then Kind(GouraudMetal)
    else if t == "gme" then Kind(GouraudMetalEnv)
    else if t == "s" then Kind(Shining)
    else RawPrefix(t)
  }

  /** get_material_type_name: a name without '_' is Gouraud and is returned
      unsanitised; otherwise the text before the first '_' picks the material and
      the sanitised rest is the texture. */
  function GetMaterialTypeName(name: string): (r: (PolyMaterial, string))
    ensures '_' !in name ==> r == (Kind(Gouraud), name)
    ensures '_' in name ==> Sanitised(r.1)
  {
    var ar := SplitFirst(name, '_');
    if ar.1.None? then (Kind(Gouraud), name)
    else (LookupPrefix(ar.0), SanitiseMaterial(ar.1.value))
  }

  /** Whatever the rest contains, the material comes from the text before the first '_'. */
  lemma {:induction false} GetMaterialTypeNameSplit(prefix: string, rest: string)
    requires '_' !in prefix
    ensures GetMaterialTypeName(prefix + "_" + rest) == (LookupPrefix(prefix), SanitiseMaterial(rest))
  {
    SplitFirstAt(prefix, '_', rest);
  }

  /** The prefix get_material_name writes for each kind, before its '_'; the
      exporter's table maps it back to the same kind. */
  function KindCode(k: MaterialKind): (s: string)
    ensures LookupPrefix(s) == Kind(k)
    ensures '_' !in s
  {
    match k
    case Flat => "f"
    case FlatMetal => "fm"
    case Gouraud => "g"
    case GouraudMetal => "gm"
    case GouraudMetalEnv => "gme"
    case Shining => "s"
  }

  /** get_material_name: "<code>_" for a known kind (nothing for any other value)
      followed by the texture name. */
  function GetMaterialName(m: PolyMaterial, texture: string): (r: string)
    ensures m.RawPrefix? ==> r == texture
    ensures m.Kind? ==> r == KindCode(m.kind) + "_" + texture
  {
    var s := if m.Kind? then KindCode(m.kind) + "_" else "";
    s + texture
  }

  /** Importing a (kind, texture) pair and exporting the material again gives the
      same pair back, as long as the texture name is already sanitised. */
  lemma {:induction false} MaterialNameRoundTrip(k: MaterialKind, texture: string)
    requires Sanitised(texture)
    ensures GetMaterialTypeName(GetMaterialName(Kind(k), texture)) == (Kind(k), texture)
  {
    GetMaterialTypeNameSplit(KindCode(k), texture);
    SanitisedIsFixedPoint(texture);
  }

  /** The other direction: a name with a known prefix and an already sanitised
      texture survives export followed by import unchanged. */
  lemma {:induction false} MaterialTypeNameRoundTrip(prefix: string, texture: string)
    requires '_' !in prefix && LookupPrefix(prefix).Kind?
    requires Sanitised(texture)
    ensures var (m, t) := GetMaterialTypeName(prefix + "_" + texture);
            GetMaterialName(m, t) == prefix + "_" + texture
  {
    GetMaterialTypeNameSplit(prefix, texture);
    SanitisedIsFixedPoint(texture);
    KindCodeOfPrefix(prefix);
  }

  /** A prefix the table knows is the code of the kind it maps to. */
  lemma {:induction false} KindCodeOfPrefix(prefix: string)
    requires LookupPrefix(prefix).Kind?
    ensures KindCode(LookupPrefix(prefix).kind) == prefix
  {
  }

  /** A name whose prefix is not in the table keeps that prefix as its material. */
  lemma {:induction false} UnknownPrefixIsRaw(prefix: string, rest: string)
    requires '_' !in prefix
    requires prefix !in ["f", "fm", "g", "gm", "gme", "s"]
    ensures GetMaterialTypeName(prefix + "_" + rest).0 == RawPrefix(prefix)
  {
    GetMaterialTypeNameSplit(prefix, rest);
  }

  lemma {:induction false} WallsExample()
    ensures GetMaterialTypeName("walls") == (Kind(Gouraud), "walls")
  {
  }

  lemma {:induction false} MetalPlateExample()
    ensures GetMaterialTypeName("fm_metal.plate") == (Kind(FlatMetal), "metal_plate.tga")
  {
    SplitExample("fm", "metal.plate", "fm_metal.plate");
    SanitiseMetalPlate();
  }

  lemma {:induction false} SanitiseMetalPlate()
    ensures SanitiseMaterial("metal.plate") == "metal_plate.tga"
  {
    assert !EndsWith("metal.plate", ".tga") by { assert "metal.plate"[7] != '.'; }
  }

  /** The default material the exporter gives a mesh with no material. */
  lemma {:induction false} ColWhiteExample()
    ensures GetMaterialTypeName("f_colwhite.tga") == (Kind(Flat), "colwhite.tga")
  {
    SplitExample("f", "colwhite.tga", "f_colwhite.tga");
    SanitiseColWhite();
  }

  lemma {:induction false} SanitiseColWhite()
    ensures SanitiseMaterial("colwhite.tga") == "colwhite.tga"
  {
    SanitisedIsFixedPoint("colwhite.tga");
  }

  lemma {:induction false} SplitExample(prefix: string, rest: string, name: string)
    requires '_' !in prefix && name == prefix + "_" + rest
    ensures SplitFirst(name, '_') == (prefix, Some(rest))
  {
    SplitFirstAt(prefix, '_', rest);
  }
}
