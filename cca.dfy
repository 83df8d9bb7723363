/** The CCA anchor text.  save_pos, save_pos2 and save_cca write the positions of
    the named empties relative to the main mesh (io_scene_cdp3d/export_cdp3d.py);
    add_position, add_position2 and load_cca read them back through a fixed line
    table (io_scene_cdp3d/import_cdp3d.py).  A file is its list of lines. */
module Cca {
  import opened Wrappers
  import opened Materials
  import opened Geometry

  /** "{:.4g}" and float() are not modelled: the text a number is written as and
      the number a token reads as are parameters. */
  type Formatter = real -> string
  type Parser = string -> Option<real>

  // ----- text primitives -----------------------------------------------------

  /** The characters str.strip() removes (its ASCII ones). */
  predicate Whitespace(c: char) {
    c == ' ' || c == '\t' || c == '\n' || c == '\r' || c == '\U{B}' || c == '\U{C}' || '\U{1C}' <= c <= '\U{1F}'
  }

  function StripLeft(s: string): (r: string)
    ensures |r| <= |s| && r == s[|s| - |r|..]
    ensures forall i :: 0 <= i < |s| - |r| ==> Whitespace(s[i])
    ensures r == [] || !Whitespace(r[0])
  {
    if s != [] && Whitespace(s[0]) then StripLeft(s[1..]) else s
  }

  function StripRight(s: string): (r: string)
    ensures |r| <= |s| && r == s[..|r|]
    ensures forall i :: |r| <= i < |s| ==> Whitespace(s[i])
    ensures r == [] || !Whitespace(r[|r| - 1])
  {
    if s != [] && Whitespace(s[|s| - 1]) then StripRight(s[..|s| - 1]) else s
  }

  /** str.strip() */
  function Strip(s: string): string {
    StripRight(StripLeft(s))
  }

  /** Text with whitespace after it strips back to itself when it neither starts
      nor ends with whitespace. */
  lemma {:induction false} StripPadded(core: string, pad: string)
    requires core != [] && !Whitespace(core[0]) && !Whitespace(core[|core| - 1])
    requires forall c :: c in pad ==> Whitespace(c)
    ensures Strip(core + pad) == core
  {
    var s := core + pad;
    assert s[0] == core[0];
    assert s[|core| - 1] == core[|core| - 1];
    assert forall i :: |core| <= i < |s| ==> s[i] == pad[i - |core|];
    assert StripLeft(s) == s;
    var r := StripRight(s);
    assert |r| == |core|;
    assert r == s[..|core|] == core;
  }

  function JoinAll(pieces: seq<string>, sep: char): string
    requires |pieces| >= 1
  {
    if |pieces| == 1 then pieces[0] else pieces[0] + [sep] + JoinAll(pieces[1..], sep)
  }

  /** str.split(sep): the pieces between the separators, joined back by them; the
      empty text is one empty piece. */
  function SplitAll(s: string, sep: char): (r: seq<string>)
    ensures |r| >= 1
    ensures forall i :: 0 <= i < |r| ==> sep !in r[i]
    ensures JoinAll(r, sep) == s
    decreases |s|
  {
    var split := SplitFirst(s, sep);
    match split.1
    case None => [s]
    case Some(rest) =>
      var r := [split.0] + SplitAll(rest, sep);
      assert r[1..] == SplitAll(rest, sep);
      r
  }

  lemma {:induction false} SplitJoin(pieces: seq<string>, sep: char)
    requires |pieces| >= 1 && forall i :: 0 <= i < |pieces| ==> sep !in pieces[i]
    ensures SplitAll(JoinAll(pieces, sep), sep) == pieces
  {
    if |pieces| > 1 {
      SplitFirstAt(pieces[0], sep, JoinAll(pieces[1..], sep));
      SplitJoin(pieces[1..], sep);
      assert pieces == [pieces[0]] + pieces[1..];
    }
  }

  /** [float(i) for i in tokens]: None when a token is not a number. */
  function ParseAll(tokens: seq<string>, parse: Parser): (r: Option<seq<real>>)
    ensures r.Some? ==> |r.value| == |tokens| && forall i :: 0 <= i < |tokens| ==> parse(tokens[i]) == Some(r.value[i])
    ensures r.None? ==> exists i :: 0 <= i < |tokens| && parse(tokens[i]).None?
  {
    if tokens == [] then Some([])
    else
      var rest := ParseAll(tokens[1..], parse);
      if parse(tokens[0]).None? then None
      else if rest.None? then
        assert forall i :: 0 <= i < |tokens| - 1 ==> tokens[1..][i] == tokens[i + 1];
        None
      else Some([parse(tokens[0]).value] + rest.value)
  }

  // ----- reading a line ------------------------------------------------------

  datatype LoadError = NoSuchLine(index: nat) | NoHeader | NotANumber

  /** line.split('#')[0] */
  function BeforeComment(line: string): string {
    SplitFirst(line, '#').0
  }

  /** The tokens add_position converts: the uncommented text, stripped and split
      at every single space. */
  function Tokens(line: string): seq<string> {
    SplitAll(Strip(BeforeComment(line)), ' ')
  }

  /** What add_position makes of a line; it specifies the method AddPosition.  A
      point is created only from a line of exactly three tokens. */
  function ReadPosition(line: string, parse: Parser): (r: Result<Option<Vec3>, LoadError>)
    ensures r.Ok? && r.value.Some? ==> |Tokens(line)| == 3
  {
    match ParseAll(Tokens(line), parse)
    case None => Err(NotANumber)
    case Some(ns) => if |ns| != 3 then Ok(None) else Ok(Some(Vec3(ns[0], ns[2], ns[1])))
  }

  /** add_position raises when a token is not a number, creates nothing unless
      there are exactly three, and otherwise places the point with its second and
      third numbers swapped. */
  lemma {:induction false} ReadPositionMeaning(line: string, parse: Parser)
    ensures var r := ReadPosition(line, parse);
            var ts := Tokens(line);
            && (r.Err? <==> exists i :: 0 <= i < |ts| && parse(ts[i]).None?)
            && (r == Ok(None) <==> r.Ok? && |ts| != 3)
            && (r.Ok? && r.value.Some? ==>
                  && |ts| == 3
                  && parse(ts[0]) == Some(r.value.value.x)
                  && parse(ts[1]) == Some(r.value.value.z)
                  && parse(ts[2]) == Some(r.value.value.y))
  {
    var ts := Tokens(line);
    match ParseAll(ts, parse)
    case None =>
    case Some(ns) =>
      assert forall i :: 0 <= i < |ts| ==> parse(ts[i]).Some?;
  }

  /** float('') raises, so a line with an empty token (two spaces in a row, or
      nothing but a comment) raises rather than being skipped. */
  lemma {:induction false} EmptyTokenRaises(line: string, parse: Parser)
    requires parse("") == None
    requires "" in Tokens(line)
    ensures ReadPosition(line, parse) == Err(NotANumber)
  {
    var ts := Tokens(line);
    var i :| 0 <= i < |ts| && ts[i] == "";
    ReadPositionMeaning(line, parse);
    assert parse(ts[i]).None?;
  }

  /** A line holding only a comment is one empty token, so add_position raises. */
  lemma {:induction false} CommentOnlyLineRaises(parse: Parser)
    requires parse("") == None
    ensures ReadPosition("# note", parse) == Err(NotANumber)
  {
    var line := "# note";
    var split := SplitFirst(line, '#');
    assert split.0 + "#" + split.1.value == line;
    assert split.0 == "";
    assert Strip("") == "";
    assert SplitAll("", ' ') == [""];
    assert Tokens(line) == [""];
    EmptyTokenRaises(line, parse);
  }

  /** add_position: parse, check the count, swap the last two numbers in place.
      ReadPosition is the function that specifies this method: the two describe
      the same step, the method as the source's statements. */
  method AddPosition(line: string, parse: Parser) returns (r: Result<Option<Vec3>, LoadError>)
    ensures r == ReadPosition(line, parse)
  {
    var numbers := ParseAll(Tokens(line), parse);
    if numbers.None? {
      return Err(NotANumber);
    }
    var pos := numbers.value;
    if |pos| != 3 {
      return Ok(None);
    }
    var temp := pos[1];
    pos := pos[1 := pos[2]];
    pos := pos[2 := temp];
    return Ok(Some(Vec3(pos[0], pos[1], pos[2])));
  }

  /** add_position2: the whole uncommented text is one number v, placed at (0, v, 0). */
  function ReadPosition2(line: string, parse: Parser): (r: Result<Vec3, LoadError>)
    ensures r.Err? <==> parse(Strip(BeforeComment(line))).None?
    ensures r.Ok? ==> r.value.x == 0.0 && r.value.z == 0.0 && parse(Strip(BeforeComment(line))) == Some(r.value.y)
  {
    match parse(Strip(BeforeComment(line)))
    case None => Err(NotANumber)
    case Some(v) => Ok(Vec3(0.0, v, 0.0))
  }

  // ----- writing a line ------------------------------------------------------

  const NotFoundTag := "!!!NOT FOUND ON EXPORT  "

  /** A token that splits and strips as itself: not empty, no whitespace, no '#'. */
  predicate Plain(t: string) {
    t != [] && forall c :: c in t ==> !Whitespace(c) && c != '#'
  }

  /** The formatter writes plain tokens that the parser reads as numbers. */
  ghost predicate Compatible(fmt: Formatter, parse: Parser) {
    forall x :: Plain(fmt(x)) && parse(fmt(x)).Some?
  }

  /** The number a written value reads back as. */
  function Reread(fmt: Formatter, parse: Parser, x: real): real {
    match parse(fmt(x))
    case Some(v) => v
    case None => x
  }

  /** The offset from main of a named object, zeros when the scene lacks it. */
  function OffsetOf(locations: map<string, Vec3>, offset: Vec3, name: string): Vec3 {
    if name in locations then Sub(locations[name], offset) else Vec3(0.0, 0.0, 0.0)
  }

  function Comment(locations: map<string, Vec3>, name: string): string {
    " \t\t\t # " + (if name in locations then "" else NotFoundTag) + name + "\n"
  }

  /** save_pos: the offset written in x, z, y order, as one line whose comment
      ends with the object's name. */
  function SavePos(locations: map<string, Vec3>, offset: Vec3, name: string, fmt: Formatter): (s: string)
    ensures |s| > |name| && s[|s| - 1] == '\n' && s[|s| - 1 - |name|..|s| - 1] == name
  {
    var d := OffsetOf(locations, offset, name);
    fmt(d.x) + " " + fmt(d.z) + " " + fmt(d.y) + Comment(locations, name)
  }

  /** save_pos2: only the y offset, as one line whose comment ends with the
      object's name. */
  function SavePos2(locations: map<string, Vec3>, offset: Vec3, name: string, fmt: Formatter): (s: string)
    ensures |s| > |name| && s[|s| - 1] == '\n' && s[|s| - 1 - |name|..|s| - 1] == name
  {
    fmt(OffsetOf(locations, offset, name).y) + Comment(locations, name)
  }

  lemma {:induction false} CommentSplits(locations: map<string, Vec3>, name: string, body: string)
    requires '#' !in body
    ensures BeforeComment(body + Comment(locations, name)) == body + " \t\t\t "
  {
    var tail := " " + (if name in locations then "" else NotFoundTag) + name + "\n";
    assert body + Comment(locations, name) == (body + " \t\t\t ") + ['#'] + tail;
    SplitFirstAt(body + " \t\t\t ", '#', tail);
  }

  lemma {:induction false} JoinThree(a: string, b: string, c: string, sep: char)
    ensures JoinAll([a, b, c], sep) == a + [sep] + b + [sep] + c
  {
    assert [a, b, c][1..] == [b, c] && [b, c][1..] == [c];
    assert JoinAll([b, c], sep) == b + [sep] + c;
  }

  lemma {:induction false} StripThree(a: string, b: string, c: string)
    requires Plain(a) && Plain(c)
    ensures Strip(a + " " + b + " " + c + " \t\t\t ") == a + " " + b + " " + c
  {
    var core := a + " " + b + " " + c;
    assert core[0] == a[0] && core[|core| - 1] == c[|c| - 1];
    assert a[0] in a && c[|c| - 1] in c;
    StripPadded(core, " \t\t\t ");
  }

  lemma {:induction false} NoHashInThree(a: string, b: string, c: string)
    requires Plain(a) && Plain(b) && Plain(c)
    ensures '#' !in a + " " + b + " " + c
  {
  }

  /** Three plain numbers followed by a comment give exactly those three tokens. */
  lemma {:induction false} ThreeTokens(a: string, b: string, c: string, locations: map<string, Vec3>, name: string)
    requires Plain(a) && Plain(b) && Plain(c)
    ensures Tokens(a + " " + b + " " + c + Comment(locations, name)) == [a, b, c]
  {
    var core := a + " " + b + " " + c;
    NoHashInThree(a, b, c);
    CommentSplits(locations, name, core);
    var uncommented := BeforeComment(core + Comment(locations, name));
    assert uncommented == core + " \t\t\t ";
    StripThree(a, b, c);
    var stripped := Strip(uncommented);
    assert stripped == core;
    JoinThree(a, b, c, ' ');
    assert core == JoinAll([a, b, c], ' ');
    SplitJoin([a, b, c], ' ');
    assert SplitAll(stripped, ' ') == [a, b, c];
  }

  /** "1.0 2.0 3.0 # foo" places a point at (1.0, 3.0, 2.0). */
  lemma {:induction false} AddPositionExample(parse: Parser)
    requires parse("1.0") == Some(1.0) && parse("2.0") == Some(2.0) && parse("3.0") == Some(3.0)
    ensures ReadPosition("1.0 2.0 3.0 # foo", parse) == Ok(Some(Vec3(1.0, 3.0, 2.0)))
  {
    ExampleTokens();
    ParseAll3("1.0", "2.0", "3.0", parse);
  }

  lemma {:induction false} ExampleTokens()
    ensures Tokens("1.0 2.0 3.0 # foo") == ["1.0", "2.0", "3.0"]
  {
    ExampleUncommented();
    ExampleStripped();
    ExampleSplits();
  }

  lemma {:induction false} ExampleUncommented()
    ensures BeforeComment("1.0 2.0 3.0 # foo") == "1.0 2.0 3.0 "
  {
    assert "1.0 2.0 3.0 # foo" == "1.0 2.0 3.0 " + ['#'] + " foo";
    SplitFirstAt("1.0 2.0 3.0 ", '#', " foo");
  }

  lemma {:induction false} ExampleStripped()
    ensures Strip("1.0 2.0 3.0 ") == "1.0" + " " + "2.0" + " " + "3.0"
  {
    var core := "1.0" + " " + "2.0" + " " + "3.0";
    assert "1.0 2.0 3.0 " == core + " ";
    StripPadded(core, " ");
  }

  lemma {:induction false} ExampleSplits()
    ensures SplitAll("1.0" + " " + "2.0" + " " + "3.0", ' ') == ["1.0", "2.0", "3.0"]
  {
    var pieces := ["1.0", "2.0", "3.0"];
    assert ' ' !in pieces[0] && ' ' !in pieces[1] && ' ' !in pieces[2];
    SplitJoin(pieces, ' ');
    JoinThree("1.0", "2.0", "3.0", ' ');
  }

  lemma {:induction false} ParseAll3(a: string, b: string, c: string, parse: Parser)
    requires parse(a).Some? && parse(b).Some? && parse(c).Some?
    ensures ParseAll([a, b, c], parse) == Some([parse(a).value, parse(b).value, parse(c).value])
  {
    assert ParseAll([], parse) == Some([]);
    ParseCons(c, [], parse);
    assert [c] + [] == [c];
    ParseCons(b, [c], parse);
    assert [b] + [c] == [b, c];
    ParseCons(a, [b, c], parse);
    assert [a] + [b, c] == [a, b, c];
    assert ParseAll([a, b, c], parse).value == [parse(a).value, parse(b).value, parse(c).value];
  }

  lemma {:induction false} ParseCons(t: string, ts: seq<string>, parse: Parser)
    requires parse(t).Some? && ParseAll(ts, parse).Some?
    ensures ParseAll([t] + ts, parse) == Some([parse(t).value] + ParseAll(ts, parse).value)
  {
    var all := [t] + ts;
    assert all[0] == t && all[1..] == ts;
    assert ParseAll(all, parse).value == [parse(t).value] + ParseAll(ts, parse).value;
  }

  lemma {:induction false} ParseThree(a: string, b: string, c: string, fmt: Formatter, parse: Parser, x: real, y: real, z: real)
    requires Compatible(fmt, parse) && a == fmt(x) && b == fmt(y) && c == fmt(z)
    ensures ParseAll([a, b, c], parse) == Some([Reread(fmt, parse, x), Reread(fmt, parse, y), Reread(fmt, parse, z)])
  {
    assert parse(fmt(x)).Some? && parse(fmt(y)).Some? && parse(fmt(z)).Some?;
    assert ParseAll([], parse) == Some([]);
    ParseCons(c, [], parse);
    assert [c] + [] == [c];
    ParseCons(b, [c], parse);
    assert [b] + [c] == [b, c];
    ParseCons(a, [b, c], parse);
    assert [a] + [b, c] == [a, b, c];
    assert Reread(fmt, parse, x) == parse(a).value && Reread(fmt, parse, y) == parse(b).value;
    assert Reread(fmt, parse, z) == parse(c).value;
    assert ParseAll([a, b, c], parse).value == [Reread(fmt, parse, x), Reread(fmt, parse, y), Reread(fmt, parse, z)];
  }

  /** Reading back a save_pos line gives the offset from main with y and z back
      in place, each number as it reads back from its text. */
  lemma {:induction false} SavePosRoundTrip(locations: map<string, Vec3>, offset: Vec3, name: string, fmt: Formatter, parse: Parser)
    requires Compatible(fmt, parse)
    ensures var d := OffsetOf(locations, offset, name);
            ReadPosition(SavePos(locations, offset, name, fmt), parse) ==
              Ok(Some(Vec3(Reread(fmt, parse, d.x), Reread(fmt, parse, d.y), Reread(fmt, parse, d.z))))
  {
    var d := OffsetOf(locations, offset, name);
    var a, b, c := fmt(d.x), fmt(d.z), fmt(d.y);
    assert Plain(a) && Plain(b) && Plain(c);
    ThreeTokens(a, b, c, locations, name);
    ParseThree(a, b, c, fmt, parse, d.x, d.z, d.y);
  }

  /** Reading back a save_pos2 line puts the y offset at (0, y, 0). */
  lemma {:induction false} SavePos2RoundTrip(locations: map<string, Vec3>, offset: Vec3, name: string, fmt: Formatter, parse: Parser)
    requires Compatible(fmt, parse)
    ensures ReadPosition2(SavePos2(locations, offset, name, fmt), parse) ==
              Ok(Vec3(0.0, Reread(fmt, parse, OffsetOf(locations, offset, name).y), 0.0))
  {
    var a := fmt(OffsetOf(locations, offset, name).y);
    assert Plain(a);
    CommentSplits(locations, name, a);
    StripPadded(a, " \t\t\t ");
  }

  /** When the numbers read back exactly, the swap undoes save_pos's swap and the
      line gives the offset from main itself. */
  lemma {:induction false} ExactSavePosRoundTrip(locations: map<string, Vec3>, offset: Vec3, name: string, fmt: Formatter, parse: Parser)
    requires Compatible(fmt, parse)
    requires var d := OffsetOf(locations, offset, name);
             parse(fmt(d.x)) == Some(d.x) && parse(fmt(d.y)) == Some(d.y) && parse(fmt(d.z)) == Some(d.z)
    ensures ReadPosition(SavePos(locations, offset, name, fmt), parse) == Ok(Some(OffsetOf(locations, offset, name)))
  {
    SavePosRoundTrip(locations, offset, name, fmt, parse);
  }

  // ----- the anchor table ----------------------------------------------------

  const CogName := "center_of_gravity_pos"
  /** load_cca reads the centre of gravity from this line of the file. */
  const CogLine := 6
  const Header := "--- Positions ---\n"
  const AngleLine := "0.0\t\t\t # Angle of minigun (negative values for downpointing)\n"
  const NoMainWarning := "!!! No main mesh found, .cca values might be wrong if main is not centered."

  /** The anchors after the centre of gravity, in the order both save_cca and
      load_cca list them; the last, engine_pos, is a single number. */
  const AnchorCount := 23

  const AnchorNames: seq<string> := [
    "left_upper_wheel_pos", "right_lower_wheel_pos", "minigun_pos", "mines_pos", "missiles_pos",
    "driver_pos", "exhaust_pos", "exhaust2_pos", "flag_pos", "bomb_pos", "cockpit_cam_pos",
    "roof_cam_pos", "hood_cam_pos", "bumper_cam_pos", "rear_view_cam_pos", "left_side_cam_pos",
    "right_side_cam_pos", "driver1_cam_pos", "driver2_cam_pos", "driver3_cam_pos",
    "steering_wheel_pos", "car_cover_pos", "engine_pos"]
  const EngineIndex := 22

  /** The line of anchor j counted from the header line: 2, 3 and 4, then 6 to 25,
      the minigun angle line at 5 being skipped. */
  function Offset(j: nat): (o: nat)
    ensures 2 <= o && o != 5 && (j < AnchorCount ==> o <= 25)
  {
    if j < 3 then j + 2 else j + 3
  }

  /** Every table entry has a line of its own, in table order. */
  lemma {:induction false} OffsetsIncrease(j: nat, k: nat)
    requires j < k
    ensures Offset(j) < Offset(k)
  {
  }

  // ----- save_cca ------------------------------------------------------------

  /** The scene as save_cca sees it: the mesh objects' names in order and every
      object's location by name. */
  datatype CcaScene = CcaScene(meshNames: seq<string>, locations: map<string, Vec3>)

  predicate WellFormed(scene: CcaScene) {
    forall n :: n in scene.meshNames ==> n in scene.locations
  }

  /** Where main is, or the origin when there is no main mesh. */
  function MainOffset(scene: CcaScene): Vec3 {
    if "main" in scene.meshNames && "main" in scene.locations then scene.locations["main"] else Vec3(0.0, 0.0, 0.0)
  }

  /** Every mesh name followed by a space. */
  function MeshList(names: seq<string>): string {
    if names == [] then "" else MeshList(names[..|names| - 1]) + names[|names| - 1] + " "
  }

  function FirstLine(scene: CcaScene): string {
    (if "main" in scene.meshNames then "" else NoMainWarning) + "Meshes: " + MeshList(scene.meshNames) + "\n"
  }

  function AnchorText(scene: CcaScene, j: nat, fmt: Formatter): string
    requires j < AnchorCount
  {
    if j == EngineIndex then SavePos2(scene.locations, MainOffset(scene), AnchorNames[j], fmt)
    else SavePos(scene.locations, MainOffset(scene), AnchorNames[j], fmt)
  }

  /** The lines save_cca writes: the mesh list (after the warning when there is
      no main mesh), a blank line, the centre of gravity, a blank line, then the
      anchors with the minigun angle line after minigun_pos. */
  function CcaLines(scene: CcaScene, fmt: Formatter): (lines: seq<string>)
    ensures |lines| == 28 && lines[1] == "\n" && lines[3] == "\n" && lines[7] == AngleLine
  {
    [FirstLine(scene), "\n", SavePos(scene.locations, MainOffset(scene), CogName, fmt), "\n"] +
    seq(24, i requires 0 <= i < 24 => if i < 3 then AnchorText(scene, i, fmt)
                                      else if i == 3 then AngleLine
                                      else AnchorText(scene, i - 1, fmt))
  }

  /** The saved anchor of table entry j sits at line Offset(j) + 2: the saved block
      lines up with load_cca's table for a header at line 2. */
  lemma {:induction false} CcaLinesLayout(scene: CcaScene, fmt: Formatter)
    ensures |CcaLines(scene, fmt)| == 28
    ensures CcaLines(scene, fmt)[2] == SavePos(scene.locations, MainOffset(scene), CogName, fmt)
    ensures CcaLines(scene, fmt)[7] == AngleLine
    ensures forall j :: 0 <= j < AnchorCount ==> CcaLines(scene, fmt)[Offset(j) + 2] == AnchorText(scene, j, fmt)
  {
  }

  /** The number of lines save_cca has written before the anchor j. */
  function WrittenBefore(j: nat): nat {
    if j <= 3 then 4 + j else 5 + j
  }

  /** The first loop of save_cca: the mesh names, and main's location when there
      is a main mesh. */
  method ListMeshes(scene: CcaScene) returns (meshes: string, hasMain: bool, mpos: Vec3)
    requires WellFormed(scene)
    ensures meshes == MeshList(scene.meshNames)
    ensures hasMain <==> "main" in scene.meshNames
    ensures mpos == MainOffset(scene)
  {
    meshes := "";
    mpos := Vec3(0.0, 0.0, 0.0);
    hasMain := false;
    for i := 0 to |scene.meshNames|
      invariant meshes == MeshList(scene.meshNames[..i])
      invariant hasMain <==> "main" in scene.meshNames[..i]
      invariant mpos == MainOffset(CcaScene(scene.meshNames[..i], scene.locations))
    {
      assert scene.meshNames[..i + 1][..i] == scene.meshNames[..i];
      assert scene.meshNames[i] in scene.meshNames;
      meshes := meshes + scene.meshNames[i] + " ";
      if scene.meshNames[i] == "main" {
        hasMain := true;
        mpos := scene.locations["main"];
      }
    }
    assert scene.meshNames[..|scene.meshNames|] == scene.meshNames;
  }

  /** The anchor lines of save_cca, with the minigun angle line after the third. */
  method WriteAnchors(scene: CcaScene, mpos: Vec3, fmt: Formatter, head: seq<string>, ghost all: seq<string>)
    returns (lines: seq<string>)
    requires mpos == MainOffset(scene)
    requires |all| == 28 && all[7] == AngleLine
    requires forall j :: 0 <= j < AnchorCount ==> all[Offset(j) + 2] == AnchorText(scene, j, fmt)
    requires head == all[..4]
    ensures lines == all
  {
    lines := head;
    for j := 0 to AnchorCount
      invariant lines == all[..WrittenBefore(j)]
    {
      var at := WrittenBefore(j + 1) - 1;
      assert all[at] == AnchorText(scene, j, fmt);
      if j == 3 {
        assert all[..8] == all[..7] + [all[7]];
        lines := lines + [AngleLine];
      }
      var text := if j == EngineIndex then SavePos2(scene.locations, mpos, AnchorNames[j], fmt)
                  else SavePos(scene.locations, mpos, AnchorNames[j], fmt);
      assert all[..at + 1] == all[..at] + [all[at]];
      lines := lines + [text];
    }
    assert all[..28] == all;
  }

  /** save_cca: collect the mesh names and main's location, then write the lines
      one after another. */
  method SaveCca(scene: CcaScene, fmt: Formatter) returns (lines: seq<string>)
    requires WellFormed(scene)
    ensures lines == CcaLines(scene, fmt)
  {
    var meshes, hasMain, mpos := ListMeshes(scene);
    var warning := if hasMain then "" else NoMainWarning;
    lines := [warning + "Meshes: " + meshes + "\n", "\n"];
    lines := lines + [SavePos(scene.locations, mpos, CogName, fmt), "\n"];
    assert lines == CcaLines(scene, fmt)[..4];
    CcaLinesLayout(scene, fmt);
    lines := WriteAnchors(scene, mpos, fmt, lines, CcaLines(scene, fmt));
  }

  // ----- load_cca ------------------------------------------------------------

  /** An empty that load_cca creates. */
  datatype Placed = Placed(name: string, pos: Vec3)

  /** What load_cca makes of the line of table entry j; it specifies the method
      AddAnchor.  The engine entry always places a point on the y axis. */
  function ReadAnchor(line: string, j: nat, parse: Parser): (r: Result<Option<Vec3>, LoadError>)
    requires j < AnchorCount
    ensures j == EngineIndex && r.Ok? ==> r.value.Some? && r.value.value.x == 0.0 && r.value.value.z == 0.0
  {
    if j == EngineIndex then
      match ReadPosition2(line, parse)
      case Err(e) => Err(e)
      case Ok(v) => Ok(Some(v))
    else ReadPosition(line, parse)
  }

  /** The first n table entries, for a header at line p: the empties created,
      at most one per entry, and the error that stopped the reading, if any.  It
      specifies the methods LoadTable and LoadEntry.  A reading without error
      found every entry's line in the file. */
  function ReadAnchorsUpTo(content: seq<string>, p: nat, n: nat, parse: Parser): (r: (seq<Placed>, Option<LoadError>))
    requires n <= AnchorCount
    ensures |r.0| <= n
    ensures n > 0 && r.1.None? ==> p + Offset(n - 1) < |content|
  {
    if n == 0 then ([], None)
    else
      var before := ReadAnchorsUpTo(content, p, n - 1, parse);
      var j := n - 1;
      if before.1.Some? then before
      else if p + Offset(j) >= |content| then (before.0, Some(NoSuchLine(p + Offset(j))))
      else
        match ReadAnchor(content[p + Offset(j)], j, parse)
        case Err(e) => (before.0, Some(e))
        case Ok(v) => (before.0 + (if v.Some? then [Placed(AnchorNames[j], v.value)] else []), None)
  }

  /** Once an entry fails, the later ones are never read. */
  lemma {:induction false} StopsAtFirstError(content: seq<string>, p: nat, n: nat, m: nat, parse: Parser)
    requires n <= m <= AnchorCount && ReadAnchorsUpTo(content, p, n, parse).1.Some?
    ensures ReadAnchorsUpTo(content, p, m, parse) == ReadAnchorsUpTo(content, p, n, parse)
  {
    if m > n {
      StopsAtFirstError(content, p, n, m - 1, parse);
      var before := ReadAnchorsUpTo(content, p, m - 1, parse);
      assert before.1.Some?;
      assert ReadAnchorsUpTo(content, p, m, parse) == before;
    }
  }

  /** What load_cca does with the lines of a file: the centre of gravity from line
      6, then the table relative to the first header line. */
  function ReadCca(content: seq<string>, parse: Parser): (r: (seq<Placed>, Option<LoadError>))
    ensures r.1.None? ==> |content| > CogLine && Header in content
    ensures |r.0| <= AnchorCount + 1
  {
    if |content| <= CogLine then ([], Some(NoSuchLine(CogLine)))
    else
      match ReadPosition(content[CogLine], parse)
      case Err(e) => ([], Some(e))
      case Ok(c) =>
        var cog := if c.Some? then [Placed(CogName, c.value)] else [];
        if Header !in content then (cog, Some(NoHeader))
        else
          var rest := ReadAnchorsUpTo(content, IndexOf(content, Header), AnchorCount, parse);
          (cog + rest.0, rest.1)
  }

  /** One add_position or add_position2 call of load_cca, specified by the
      function ReadAnchor. */
  method AddAnchor(line: string, j: nat, parse: Parser) returns (r: Result<Option<Vec3>, LoadError>)
    requires j < AnchorCount
    ensures r == ReadAnchor(line, j, parse)
  {
    if j == EngineIndex {
      var engine := ReadPosition2(line, parse);
      r := if engine.Err? then Err(engine.error) else Ok(Some(engine.value));
    } else {
      r := AddPosition(line, parse);
    }
  }

  /** One more entry read after an error-free prefix: the step of ReadAnchorsUpTo
      that LoadEntry performs. */
  lemma {:induction false} UpToStep(content: seq<string>, p: nat, j: nat, parse: Parser, created: seq<Placed>, r: Result<Option<Vec3>, LoadError>)
    requires j < AnchorCount && p + Offset(j) < |content|
    requires ReadAnchorsUpTo(content, p, j, parse).0 == created && ReadAnchorsUpTo(content, p, j, parse).1.None?
    requires r == ReadAnchor(content[p + Offset(j)], j, parse)
    ensures ReadAnchorsUpTo(content, p, j + 1, parse).0 ==
              created + (if r.Ok? && r.value.Some? then [Placed(AnchorNames[j], r.value.value)] else [])
    ensures ReadAnchorsUpTo(content, p, j + 1, parse).1 == if r.Err? then Some(r.error) else None
  {
  }

  /** The table part of load_cca: the entries one after another from the header
      line p, stopping at the first error. */
  method LoadTable(content: seq<string>, p: nat, parse: Parser) returns (created: seq<Placed>, failure: Option<LoadError>)
    ensures created == ReadAnchorsUpTo(content, p, AnchorCount, parse).0
    ensures failure == ReadAnchorsUpTo(content, p, AnchorCount, parse).1
  {
    created := [];
    for j := 0 to AnchorCount
      invariant ReadAnchorsUpTo(content, p, j, parse).1.None?
      invariant ReadAnchorsUpTo(content, p, j, parse).0 == created
    {
      var stop;
      created, stop := LoadEntry(content, p, j, parse, created);
      if stop.Some? {
        StopsAtFirstError(content, p, j + 1, AnchorCount, parse);
        return created, stop;
      }
    }
    failure := None;
  }

  /** One entry of the table: its line is looked up and read, and a missing line
      or a failed read stops the table.  ReadAnchorsUpTo specifies this method, one
      entry at a time (UpToStep). */
  method LoadEntry(content: seq<string>, p: nat, j: nat, parse: Parser, created: seq<Placed>)
    returns (created': seq<Placed>, stop: Option<LoadError>)
    requires j < AnchorCount
    requires ReadAnchorsUpTo(content, p, j, parse).0 == created && ReadAnchorsUpTo(content, p, j, parse).1.None?
    ensures created' == ReadAnchorsUpTo(content, p, j + 1, parse).0
    ensures stop == ReadAnchorsUpTo(content, p, j + 1, parse).1
  {
    var i := p + Offset(j);
    if i >= |content| {
      return created, Some(NoSuchLine(i));
    }
    var r := AddAnchor(content[i], j, parse);
    UpToStep(content, p, j, parse, created, r);
    if r.Err? {
      return created, Some(r.error);
    }
    created' := created;
    if r.value.Some? {
      created' := created' + [Placed(AnchorNames[j], r.value.value)];
    }
    stop := None;
  }

  /** load_cca: the centre of gravity, the header lookup, then the table. */
  method LoadCca(content: seq<string>, parse: Parser) returns (created: seq<Placed>, failure: Option<LoadError>)
    ensures created == ReadCca(content, parse).0 && failure == ReadCca(content, parse).1
  {
    if |content| <= CogLine {
      return [], Some(NoSuchLine(CogLine));
    }
    var cog := AddPosition(content[CogLine], parse);
    if cog.Err? {
      return [], Some(cog.error);
    }
    created := if cog.value.Some? then [Placed(CogName, cog.value.value)] else [];
    if Header !in content {
      return created, Some(NoHeader);
    }
    var p := IndexOf(content, Header);
    var table, stop := LoadTable(content, p, parse);
    created := created + table;
    failure := stop;
  }

  // ----- reading back what was saved -----------------------------------------

  /** What load_cca creates for anchor j of a saved scene, each number as it reads
      back from its text. */
  function Recovered(scene: CcaScene, j: nat, fmt: Formatter, parse: Parser): Vec3
    requires j < AnchorCount
  {
    var d := OffsetOf(scene.locations, MainOffset(scene), AnchorNames[j]);
    if j == EngineIndex then Vec3(0.0, Reread(fmt, parse, d.y), 0.0)
    else Vec3(Reread(fmt, parse, d.x), Reread(fmt, parse, d.y), Reread(fmt, parse, d.z))
  }

  function RecoveredUpTo(scene: CcaScene, n: nat, fmt: Formatter, parse: Parser): seq<Placed>
    requires n <= AnchorCount
  {
    if n == 0 then []
    else RecoveredUpTo(scene, n - 1, fmt, parse) + [Placed(AnchorNames[n - 1], Recovered(scene, n - 1, fmt, parse))]
  }

  function RecoveredCog(scene: CcaScene, fmt: Formatter, parse: Parser): Vec3 {
    var d := OffsetOf(scene.locations, MainOffset(scene), CogName);
    Vec3(Reread(fmt, parse, d.x), Reread(fmt, parse, d.y), Reread(fmt, parse, d.z))
  }

  /** A saved anchor line reads back as the recovered anchor. */
  lemma {:induction false} ReadsBackEntry(scene: CcaScene, fmt: Formatter, parse: Parser, j: nat)
    requires Compatible(fmt, parse) && j < AnchorCount
    ensures ReadAnchor(AnchorText(scene, j, fmt), j, parse) == Ok(Some(Recovered(scene, j, fmt, parse)))
  {
    var offset := MainOffset(scene);
    if j == EngineIndex {
      SavePos2RoundTrip(scene.locations, offset, AnchorNames[j], fmt, parse);
    } else {
      SavePosRoundTrip(scene.locations, offset, AnchorNames[j], fmt, parse);
    }
  }

  /** Lines that hold the saved anchor texts at the table's offsets read back as
      every anchor, in table order, without error. */
  lemma {:induction false} ReadsBackAnchors(scene: CcaScene, fmt: Formatter, parse: Parser,
                                            content: seq<string>, p: nat, n: nat)
    requires n <= AnchorCount
    requires p + 25 < |content|
    requires forall j :: 0 <= j < AnchorCount ==>
               ReadAnchor(content[p + Offset(j)], j, parse) == Ok(Some(Recovered(scene, j, fmt, parse)))
    ensures ReadAnchorsUpTo(content, p, n, parse).0 == RecoveredUpTo(scene, n, fmt, parse)
    ensures ReadAnchorsUpTo(content, p, n, parse).1 == None
  {
    if n > 0 {
      var j := n - 1;
      ReadsBackAnchors(scene, fmt, parse, content, p, j);
      var r := ReadAnchor(content[p + Offset(j)], j, parse);
      assert r == Ok(Some(Recovered(scene, j, fmt, parse)));
      UpToStep(content, p, j, parse, RecoveredUpTo(scene, j, fmt, parse), r);
    }
  }

  /** The header is found at the first line that is one. */
  lemma {:induction false} HeaderAt(pre: seq<string>, rest: seq<string>)
    requires Header !in pre
    ensures Header in pre + [Header] + rest
    ensures IndexOf(pre + [Header] + rest, Header) == |pre|
  {
    var content := pre + [Header] + rest;
    assert content[|pre|] == Header;
    assert forall k :: 0 <= k < |pre| ==> content[k] == pre[k];
  }

  /** A file whose line 6 holds the saved centre of gravity and whose first header
      line is followed by one line and then the saved anchor block reads back as
      every anchor save_cca wrote, without error. */
  lemma {:induction false} LoadReadsBackSavedBlock(scene: CcaScene, fmt: Formatter, parse: Parser,
                                pre: seq<string>, gap: string, post: seq<string>)
    requires Compatible(fmt, parse)
    requires |pre| > CogLine && pre[CogLine] == CcaLines(scene, fmt)[2] && Header !in pre
    ensures ReadCca(pre + [Header, gap] + CcaLines(scene, fmt)[4..] + post, parse) ==
              ([Placed(CogName, RecoveredCog(scene, fmt, parse))] + RecoveredUpTo(scene, AnchorCount, fmt, parse), None)
  {
    var lines := CcaLines(scene, fmt);
    CcaLinesLayout(scene, fmt);
    var block := lines[4..];
    forall j | 0 <= j < AnchorCount
      ensures block[Offset(j) - 2] == AnchorText(scene, j, fmt)
    {
      assert block[Offset(j) - 2] == lines[Offset(j) + 2];
    }
    LoadReadsBackBlock(scene, fmt, parse, pre, gap, block, post);
  }

  /** The same for any block whose lines hold the saved anchor texts where the
      table looks for them. */
  lemma {:induction false} LoadReadsBackBlock(scene: CcaScene, fmt: Formatter, parse: Parser,
                                              pre: seq<string>, gap: string, block: seq<string>, post: seq<string>)
    requires Compatible(fmt, parse)
    requires |pre| > CogLine && pre[CogLine] == SavePos(scene.locations, MainOffset(scene), CogName, fmt)
    requires Header !in pre
    requires |block| == 24
    requires forall j :: 0 <= j < AnchorCount ==> block[Offset(j) - 2] == AnchorText(scene, j, fmt)
    ensures ReadCca(pre + [Header, gap] + block + post, parse) ==
              ([Placed(CogName, RecoveredCog(scene, fmt, parse))] + RecoveredUpTo(scene, AnchorCount, fmt, parse), None)
  {
    BlockReadsBack(scene, fmt, parse, pre, gap, block, post);
    SavePosRoundTrip(scene.locations, MainOffset(scene), CogName, fmt, parse);
    ReadCcaParts(pre, gap, block, post, parse, RecoveredCog(scene, fmt, parse), RecoveredUpTo(scene, AnchorCount, fmt, parse));
  }

  /** The table that follows the header and one more line is the saved block. */
  lemma {:induction false} BlockReadsBack(scene: CcaScene, fmt: Formatter, parse: Parser,
                                          pre: seq<string>, gap: string, block: seq<string>, post: seq<string>)
    requires Compatible(fmt, parse)
    requires |block| == 24
    requires forall j :: 0 <= j < AnchorCount ==> block[Offset(j) - 2] == AnchorText(scene, j, fmt)
    ensures ReadAnchorsUpTo(pre + [Header, gap] + block + post, |pre|, AnchorCount, parse) ==
              (RecoveredUpTo(scene, AnchorCount, fmt, parse), None)
  {
    var content := pre + [Header, gap] + block + post;
    var p := |pre|;
    forall j | 0 <= j < AnchorCount
      ensures content[p + Offset(j)] == AnchorText(scene, j, fmt)
    {
      BlockAt(pre, [Header, gap], block, post, Offset(j) - 2);
    }
    TableReadsBack(scene, fmt, parse, content, p);
  }

  lemma {:induction false} BlockAt<T>(pre: seq<T>, mid: seq<T>, block: seq<T>, post: seq<T>, k: nat)
    requires k < |block|
    ensures (pre + mid + block + post)[|pre| + |mid| + k] == block[k]
  {
  }

  /** How load_cca assembles its result: a file whose line 6 reads as a position
      and whose table after the first header reads without error creates that
      position and the table's anchors. */
  lemma {:induction false} ReadCcaParts(pre: seq<string>, gap: string, block: seq<string>, post: seq<string>,
                                        parse: Parser, cog: Vec3, table: seq<Placed>)
    requires |pre| > CogLine && Header !in pre
    requires ReadPosition(pre[CogLine], parse) == Ok(Some(cog))
    requires ReadAnchorsUpTo(pre + [Header, gap] + block + post, |pre|, AnchorCount, parse) == (table, None)
    ensures ReadCca(pre + [Header, gap] + block + post, parse) == ([Placed(CogName, cog)] + table, None)
  {
    HeaderFollows(pre, gap, block, post);
    ReadCcaAt(pre + [Header, gap] + block + post, parse, |pre|, cog, table);
  }

  /** In a file made of lines without a header, a header, one more line and the
      rest, the first header is at the header, and line 6 is unchanged. */
  lemma {:induction false} HeaderFollows(pre: seq<string>, gap: string, block: seq<string>, post: seq<string>)
    requires |pre| > CogLine && Header !in pre
    ensures Header in pre + [Header, gap] + block + post
    ensures IndexOf(pre + [Header, gap] + block + post, Header) == |pre|
    ensures (pre + [Header, gap] + block + post)[CogLine] == pre[CogLine]
  {
    var rest := block + post;
    assert pre + [Header, gap] + block + post == pre + [Header, gap] + rest;
    Regroup(pre, Header, gap, rest);
    HeaderAt(pre, [gap] + rest);
  }

  lemma {:induction false} ReadCcaAt(content: seq<string>, parse: Parser, p: nat, cog: Vec3, table: seq<Placed>)
    requires |content| > CogLine && ReadPosition(content[CogLine], parse) == Ok(Some(cog))
    requires Header in content && IndexOf(content, Header) == p
    requires ReadAnchorsUpTo(content, p, AnchorCount, parse) == (table, None)
    ensures ReadCca(content, parse) == ([Placed(CogName, cog)] + table, None)
  {
  }

  lemma {:induction false} Regroup<T>(pre: seq<T>, h: T, g: T, rest: seq<T>)
    ensures pre + [h, g] + rest == pre + [h] + ([g] + rest)
  {
    var a, b := pre + [h, g] + rest, pre + [h] + ([g] + rest);
    assert |a| == |b|;
    forall i | 0 <= i < |a| ensures a[i] == b[i] {
      if i < |pre| {
      } else if i == |pre| {
      } else if i == |pre| + 1 {
      } else {
        assert a[i] == rest[i - |pre| - 2];
      }
    }
  }

  /** A table whose lines hold the saved anchor texts reads back as every anchor. */
  lemma {:induction false} TableReadsBack(scene: CcaScene, fmt: Formatter, parse: Parser, content: seq<string>, p: nat)
    requires Compatible(fmt, parse)
    requires p + 25 < |content|
    requires forall j :: 0 <= j < AnchorCount ==> content[p + Offset(j)] == AnchorText(scene, j, fmt)
    ensures ReadAnchorsUpTo(content, p, AnchorCount, parse) == (RecoveredUpTo(scene, AnchorCount, fmt, parse), None)
  {
    forall j | 0 <= j < AnchorCount
      ensures ReadAnchor(content[p + Offset(j)], j, parse) == Ok(Some(Recovered(scene, j, fmt, parse)))
    {
      ReadsBackEntry(scene, fmt, parse, j);
    }
    ReadsBackAnchors(scene, fmt, parse, content, p, AnchorCount);
  }
}
