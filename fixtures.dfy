/**
  Worked loads. The cube's vertex lines carry, in order, the coordinates the unit tests
  of the moves imply for cube.obj (two of them off by 1e-6, as there); its twelve faces
  are one triangulation of that cube, two per side, and its other lines are a comment,
  an object name, attribute lines and a smoothing switch. The empty line list stands
  for a file that cannot be opened.
 */
module Fixtures {
  import opened ObjFormat
  import opened Geometry
  import opened MeshModel

  /** A comment and an object name: neither a vertex nor a face line. */
  function CubeHeader(): seq<string> { ["# cube", "o Cube"] }

  function CubeVertices(): seq<string> {
    [ "v 1 -1 -1", "v 1 -1 1",
      "v -1 -1 1", "v -1 -1 -1",
      "v 1 1 -0.999999", "v 0.999999 1 1.000001",
      "v -1 1 1", "v -1 1 -1" ]
  }

  /** Normal, texture and smoothing lines: "vn" and "vt" are not "v " lines. */
  function CubeAttributes(): seq<string> { ["vn 0 1 0", "vt 0.6 0.5", "s off"] }

  function CubeFaces(): seq<string> {
    [ "f 2 3 4", "f 8 7 6", "f 5 6 2", "f 6 7 3", "f 3 7 8", "f 1 4 8",
      "f 1 2 4", "f 5 8 6", "f 1 5 2", "f 2 6 3", "f 4 3 8", "f 5 1 8" ]
  }

  function CubeLines(): seq<string> { CubeHeader() + CubeVertices() + CubeAttributes() + CubeFaces() }

  /** A list of lines that all carry the tag is its own list of tagged lines. */
  lemma {:induction false} AllTagged(lines: seq<string>, tag: char)
    requires forall k :: 0 <= k < |lines| ==> HasTag(lines[k], tag)
    ensures TaggedLines(lines, tag) == lines
  {
    if lines != [] {
      AllTagged(lines[1..], tag);
    }
  }

  /** A list of lines none of which carries the tag has no tagged lines. */
  lemma {:induction false} NoneTagged(lines: seq<string>, tag: char)
    requires forall k :: 0 <= k < |lines| ==> !HasTag(lines[k], tag)
    ensures TaggedLines(lines, tag) == []
  {
    if lines != [] {
      NoneTagged(lines[1..], tag);
    }
  }

  lemma CubeVerticesTagged()
    ensures TaggedLines(CubeVertices(), 'v') == CubeVertices()
  {
    AllTagged(CubeVertices(), 'v');
  }

  lemma CubeOthersUntagged()
    ensures TaggedLines(CubeHeader(), 'v') == [] && TaggedLines(CubeAttributes(), 'v') == [] && TaggedLines(CubeFaces(), 'v') == []
  {
    NoneTagged(CubeHeader(), 'v');
    NoneTagged(CubeAttributes(), 'v');
    NoneTagged(CubeFaces(), 'v');
  }

  /** The tagged lines of a file in four parts are the parts' tagged lines, in order. */
  lemma TaggedLinesOfParts(h: seq<string>, v: seq<string>, a: seq<string>, f: seq<string>, tag: char)
    requires TaggedLines(h, tag) == [] && TaggedLines(a, tag) == []
    ensures TaggedLines(h + v + a + f, tag) == TaggedLines(v, tag) + TaggedLines(f, tag)
  {
    TaggedLinesAppend(h, v, tag);
    TaggedLinesAppend(h + v, a, tag);
    TaggedLinesAppend(h + v + a, f, tag);
  }

  lemma CubeVertexLines()
    ensures VertexLines(CubeLines()) == CubeVertices()
  {
    CubeVerticesTagged();
    CubeOthersUntagged();
    TaggedLinesOfParts(CubeHeader(), CubeVertices(), CubeAttributes(), CubeFaces(), 'v');
  }

  lemma CubeFacesTagged()
    ensures TaggedLines(CubeFaces(), 'f') == CubeFaces()
  {
    AllTagged(CubeFaces(), 'f');
  }

  lemma CubeOthersNotFaces()
    ensures TaggedLines(CubeHeader(), 'f') == [] && TaggedLines(CubeVertices(), 'f') == [] && TaggedLines(CubeAttributes(), 'f') == []
  {
    NoneTagged(CubeHeader(), 'f');
    NoneTagged(CubeVertices(), 'f');
    NoneTagged(CubeAttributes(), 'f');
  }

  lemma CubeFaceLines()
    ensures FaceLines(CubeLines()) == CubeFaces()
  {
    CubeFacesTagged();
    CubeOthersNotFaces();
    TaggedLinesOfParts(CubeHeader(), CubeVertices(), CubeAttributes(), CubeFaces(), 'f');
  }

  /** A face line made of the marker and three tokens is cut into exactly those four tokens. */
  lemma TriangleTokens(a: string, b: string, c: string)
    requires IsToken(a) && IsToken(b) && IsToken(c)
    ensures Tokens(Join(["f", a, b, c])) == ["f", a, b, c]
  {
    assert IsToken("f");
    TokensOfJoin(["f", a, b, c]);
  }

  lemma FirstCubeFaceText()
    ensures Join(["f", "2", "3", "4"]) == "f 2 3 4" && IndexValues(["f", "2", "3", "4"]) == [2, 3, 4]
  {
    assert LeadingNat("f") == 0 && LeadingNat("2") == 2 && LeadingNat("3") == 3 && LeadingNat("4") == 4;
    var ts := ["f", "2", "3", "4"];
    assert ts[1..] == ["2", "3", "4"] && ts[1..][1..] == ["3", "4"] && ts[1..][1..][1..] == ["4"];
  }

  /** "f 2 3 4", the first face of the cube: three slots holding 2, 3 and 4. */
  lemma FirstCubeFace()
    ensures IsFaceLine("f 2 3 4") && FaceOf("f 2 3 4") == FaceSpec(3, [2, 3, 4])
  {
    FirstCubeFaceText();
    TriangleTokens("2", "3", "4");
  }

  lemma ZeroTokenText()
    ensures Join(["f", "1", "0", "2"]) == "f 1 0 2" && IndexValues(["f", "1", "0", "2"]) == [1, 2]
  {
    assert LeadingNat("f") == 0 && LeadingNat("1") == 1 && LeadingNat("0") == 0 && LeadingNat("2") == 2;
    var ts := ["f", "1", "0", "2"];
    assert ts[1..] == ["1", "0", "2"] && ts[1..][1..] == ["0", "2"] && ts[1..][1..][1..] == ["2"];
  }

  /** A token reading as 0 is dropped but keeps its slot: "f 1 0 2" has three slots and stores 1, 2. */
  lemma ZeroTokenDropped()
    ensures IsFaceLine("f 1 0 2") && FaceOf("f 1 0 2") == FaceSpec(3, [1, 2])
  {
    ZeroTokenText();
    TriangleTokens("1", "0", "2");
  }

  /** Loading the cube gives 8 vertices and 12 faces, row k holding the k-th "v " line. */
  lemma CubeLoad(m: Model, scan: string -> Vertex)
    requires m.Represents(CubeLines(), scan)
    ensures m.countOfVertexes == 8 && m.countOfPolygons == 12
    ensures m.matrix.Length0 == 9 && m.arrayOfPolygon.Length == 13
    ensures forall k :: 1 <= k <= 8 ==> m.Row(k) == scan(CubeVertices()[k - 1])
  {
    CubeVertexLines();
    CubeFaceLines();
  }

  /** After loading the cube, face 1 holds the triangle 2, 3, 4. */
  lemma CubeFirstFaceLoaded(m: Model, scan: string -> Vertex)
    requires m.Represents(CubeLines(), scan)
    ensures m.arrayOfPolygon.Length == 13 && Stores(m.arrayOfPolygon[1], FaceSpec(3, [2, 3, 4]))
  {
    CubeFaceLines();
    FirstCubeFace();
    var fl := FaceLines(CubeLines());
    assert fl[0] == "f 2 3 4";
    assert Stores(m.arrayOfPolygon[1], FaceOf(fl[0]));
  }

  /** A file that cannot be opened reads as no lines: no vertices, no faces, sentinel bounds. */
  lemma UnopenedFileLoadsNothing(m: Model, scan: string -> Vertex)
    requires m.Represents([], scan)
    ensures m.countOfVertexes == 0 && m.countOfPolygons == 0
    ensures m.matrix.Length0 == 1 && m.arrayOfPolygon.Length == 1
    ensures m.bounds == Sentinel
  {
  }
}
