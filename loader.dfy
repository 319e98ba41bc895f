/**
 * The loader for the triangle-only subset of the Wavefront OBJ text format:
 * `v`, `vt`, `vn` and `f` records plus a comment line that carries a tangent.
 * Reading the file and converting text to numbers are outside the model: the
 * input is the sequence of lines the reader yields, each with its text (on
 * which the record kind is decided) and the numbers the scanner would extract
 * from it.
 */
module Loader {
  import opened Vectors
  import opened Model

  /** One `p/t/n` triple of a face record, with the file's 1-based indices. */
  datatype Corner = Corner(p: int, t: int, n: int)

  /** A face record: exactly three corners. */
  datatype Face = Face(c0: Corner, c1: Corner, c2: Corner)

  /** The numbers the scanner extracts from a line, already converted: the
      reals that follow the tag (each record keeps as many as it reads) and the
      nine integers of a face record. */
  datatype Scan = Scan(a: real, b: real, c: real, d: real, face: Face)

  /** One line as the reader yields it. */
  datatype Line = Line(text: string, scan: Scan)

  datatype Kind = PositionLine | TexcoordLine | NormalLine | FaceLine | TangentLine | OtherLine

  /** Which of the three index arrays a corner index belongs to. */
  datatype Attr = PositionAttr | TexcoordAttr | NormalAttr

  function CornerAt(f: Face, j: int): Corner
    requires 0 <= j < 3
  {
    if j == 0 then f.c0 else if j == 1 then f.c1 else f.c2
  }

  function Pick(c: Corner, a: Attr): int
  {
    match a
    case PositionAttr => c.p
    case TexcoordAttr => c.t
    case NormalAttr => c.n
  }

  /** The prefix test of the source: only the first two characters of the tag
      are compared. A line shorter than two characters never matches, because
      its terminator differs from every character of every tag. */
  predicate Matches(text: string, tag: string)
    requires |tag| >= 2
  {
    |text| >= 2 && text[0] == tag[0] && text[1] == tag[1]
  }

  /** The whole tag of the tangent extension. */
  const TangentTag: string := "# ext.tangent "

  /** The record kind of a line. The tags are tried in the order `v `, `vt`,
      `vn`, `f `, tangent extension, and the first match wins; since the five
      two-character prefixes differ, each kind holds exactly when its own
      prefix matches. Only `# ` is compared for the tangent extension, so
      every comment line that starts with `# ` is taken as a tangent. */
  function Classify(text: string): (k: Kind)
    ensures k == PositionLine <==> Matches(text, "v ")
    ensures k == TexcoordLine <==> Matches(text, "vt ")
    ensures k == NormalLine <==> Matches(text, "vn ")
    ensures k == FaceLine <==> Matches(text, "f ")
    ensures k == TangentLine <==> Matches(text, TangentTag)
    ensures |text| >= 2 && text[0] == '#' && text[1] == ' ' ==> k == TangentLine
  {
    if Matches(text, "v ") then PositionLine
    else if Matches(text, "vt ") then TexcoordLine
    else if Matches(text, "vn ") then NormalLine
    else if Matches(text, "f ") then FaceLine
    else if Matches(text, TangentTag) then TangentLine
    else OtherLine
  }

  /** `text` begins with all of `tag`. */
  predicate StartsWith(text: string, tag: string)
  {
    |tag| <= |text| && text[..|tag|] == tag
  }

  /** The classification the tangent test evidently intends: the whole tag is
      compared, so a line is a tangent exactly when it begins with
      `# ext.tangent `. It differs from `Classify` only on comment lines that
      `Classify` misreads as tangents, which it ignores. */
  function ClassifyExact(text: string): (k: Kind)
    ensures k == TangentLine <==> StartsWith(text, TangentTag)
    ensures k != Classify(text) ==> Classify(text) == TangentLine && k == OtherLine
  {
    if StartsWith(text, TangentTag) then
      assert text[0] == text[..|TangentTag|][0] && text[1] == text[..|TangentTag|][1];
      TangentLine
    else if Classify(text) == TangentLine then OtherLine
    else Classify(text)
  }

  function PositionOf(s: Scan): Vec3 { Vec3(s.a, s.b, s.c) }
  function TexcoordOf(s: Scan): Vec2 { Vec2(s.a, s.b) }
  function NormalOf(s: Scan): Vec3 { Vec3(s.a, s.b, s.c) }
  function TangentOf(s: Scan): Vec4 { Vec4(s.a, s.b, s.c, s.d) }

  /** The positions of the file: one per `v ` line, in file order. */
  function PositionsOf(lines: seq<Line>): seq<Vec3>
  {
    if |lines| == 0 then []
    else
      var last := lines[|lines| - 1];
      PositionsOf(lines[..|lines| - 1])
        + if Classify(last.text) == PositionLine then [PositionOf(last.scan)] else []
  }

  /** The texture coordinates of the file: one per `vt` line, in file order. */
  function TexcoordsOf(lines: seq<Line>): seq<Vec2>
  {
    if |lines| == 0 then []
    else
      var last := lines[|lines| - 1];
      TexcoordsOf(lines[..|lines| - 1])
        + if Classify(last.text) == TexcoordLine then [TexcoordOf(last.scan)] else []
  }

  /** The normals of the file: one per `vn` line, in file order. */
  function NormalsOf(lines: seq<Line>): seq<Vec3>
  {
    if |lines| == 0 then []
    else
      var last := lines[|lines| - 1];
      NormalsOf(lines[..|lines| - 1])
        + if Classify(last.text) == NormalLine then [NormalOf(last.scan)] else []
  }

  /** The tangents of the file: one per line starting `# `, in file order. */
  function TangentsOf(lines: seq<Line>): seq<Vec4>
  {
    if |lines| == 0 then []
    else
      var last := lines[|lines| - 1];
      TangentsOf(lines[..|lines| - 1])
        + if Classify(last.text) == TangentLine then [TangentOf(last.scan)] else []
  }

  /** The face records of the file, in file order. */
  function FacesOf(lines: seq<Line>): seq<Face>
  {
    if |lines| == 0 then []
    else
      var last := lines[|lines| - 1];
      FacesOf(lines[..|lines| - 1])
        + if Classify(last.text) == FaceLine then [last.scan.face] else []
  }

  /** The three 0-based indices one face contributes to one index array. */
  function FaceIndices(f: Face, a: Attr): seq<int>
  {
    [Pick(f.c0, a) - 1, Pick(f.c1, a) - 1, Pick(f.c2, a) - 1]
  }

  /** One index array: three entries per face, face after face. */
  function IndicesOf(faces: seq<Face>, a: Attr): (r: seq<int>)
    ensures |r| == 3 * |faces|
  {
    if |faces| == 0 then [] else IndicesOf(faces[..|faces| - 1], a) + FaceIndices(faces[|faces| - 1], a)
  }

  /** What the loader hands to the indexer for a given file. The three index
      arrays always have the same length, three per face record. */
  function Parsed(lines: seq<Line>): (d: MeshData)
    ensures |d.positionIndices| == |d.texcoordIndices| == |d.normalIndices| == 3 * |FacesOf(lines)|
  {
    var faces := FacesOf(lines);
    MeshData(
      PositionsOf(lines), TexcoordsOf(lines), NormalsOf(lines), TangentsOf(lines),
      IndicesOf(faces, PositionAttr), IndicesOf(faces, TexcoordAttr), IndicesOf(faces, NormalAttr))
  }

  /** Corner j of the k-th face lands at place 3k + j of each index array,
      holding the file's value minus one. */
  lemma {:induction false} IndicesOfAt(faces: seq<Face>, a: Attr, k: int, j: int)
    requires 0 <= k < |faces| && 0 <= j < 3
    ensures IndicesOf(faces, a)[3 * k + j] == Pick(CornerAt(faces[k], j), a) - 1
  {
    var prefix := faces[..|faces| - 1];
    if k < |faces| - 1 {
      IndicesOfAt(prefix, a, k, j);
      assert IndicesOf(faces, a)[3 * k + j] == IndicesOf(prefix, a)[3 * k + j];
    } else {
      assert IndicesOf(faces, a)[3 * k + j] == FaceIndices(faces[k], a)[j];
    }
  }

  /** Each line changes the parsed arrays by its kind alone: a `v `, `vt`,
      `vn` or tangent line appends exactly one record to its own array, a face
      line appends three entries to each index array, and any other line
      changes nothing. */
  lemma ParsedStep(lines: seq<Line>, line: Line)
    ensures var before, after, s := Parsed(lines), Parsed(lines + [line]), line.scan;
      match Classify(line.text)
      case PositionLine => after == before.(positions := before.positions + [PositionOf(s)])
      case TexcoordLine => after == before.(texcoords := before.texcoords + [TexcoordOf(s)])
      case NormalLine => after == before.(normals := before.normals + [NormalOf(s)])
      case TangentLine => after == before.(tangents := before.tangents + [TangentOf(s)])
      case FaceLine =>
        after == before.(
          positionIndices := before.positionIndices + FaceIndices(s.face, PositionAttr),
          texcoordIndices := before.texcoordIndices + FaceIndices(s.face, TexcoordAttr),
          normalIndices := before.normalIndices + FaceIndices(s.face, NormalAttr))
      case OtherLine => after == before
  {
    var all := lines + [line];
    assert all[..|all| - 1] == lines;
    if Classify(line.text) == FaceLine {
      assert FacesOf(all) == FacesOf(lines) + [line.scan.face];
      assert FacesOf(all)[..|FacesOf(all)| - 1] == FacesOf(lines);
    } else {
      assert FacesOf(all) == FacesOf(lines);
    }
  }

  /** The tangent array stays empty (a null pointer in the source) exactly
      when no line of the file is taken as a tangent. */
  lemma {:induction false} NoTangentsIff(lines: seq<Line>)
    ensures TangentsOf(lines) == [] <==> forall i :: 0 <= i < |lines| ==> Classify(lines[i].text) != TangentLine
  {
    if |lines| > 0 {
      var prefix := lines[..|lines| - 1];
      NoTangentsIff(prefix);
      assert forall i :: 0 <= i < |prefix| ==> prefix[i] == lines[i];
    }
  }

  /** The load loop: each line is tested against the tags in order, and the
      matching branch pushes onto its growable array; a face line pushes its
      three corners, decremented to 0-based, onto the three index arrays. */
  method ParseLines(lines: seq<Line>) returns (d: MeshData)
    ensures d == Parsed(lines)
  {
    var positions: seq<Vec3> := [];
    var texcoords: seq<Vec2> := [];
    var normals: seq<Vec3> := [];
    var tangents: seq<Vec4> := [];
    var positionIndices: seq<int> := [];
    var texcoordIndices: seq<int> := [];
    var normalIndices: seq<int> := [];

    var i := 0;
    while i < |lines|
      invariant 0 <= i <= |lines|
      invariant MeshData(positions, texcoords, normals, tangents, positionIndices, texcoordIndices, normalIndices)
        == Parsed(lines[..i])
    {
      var line := lines[i];
      assert lines[..i + 1] == lines[..i] + [line];
      ParsedStep(lines[..i], line);
      if Matches(line.text, "v ") {
        positions := positions + [PositionOf(line.scan)];
      } else if Matches(line.text, "vt ") {
        texcoords := texcoords + [TexcoordOf(line.scan)];
      } else if Matches(line.text, "vn ") {
        normals := normals + [NormalOf(line.scan)];
      } else if Matches(line.text, "f ") {
        var face := line.scan.face;
        ghost var before := Parsed(lines[..i]);
        var j := 0;
        while j < 3
          invariant 0 <= j <= 3
          invariant positionIndices == before.positionIndices + FaceIndices(face, PositionAttr)[..j]
          invariant texcoordIndices == before.texcoordIndices + FaceIndices(face, TexcoordAttr)[..j]
          invariant normalIndices == before.normalIndices + FaceIndices(face, NormalAttr)[..j]
        {
          var c := CornerAt(face, j);
          positionIndices := positionIndices + [c.p - 1];
          texcoordIndices := texcoordIndices + [c.t - 1];
          normalIndices := normalIndices + [c.n - 1];
          assert FaceIndices(face, PositionAttr)[..j + 1] == FaceIndices(face, PositionAttr)[..j] + [c.p - 1];
          assert FaceIndices(face, TexcoordAttr)[..j + 1] == FaceIndices(face, TexcoordAttr)[..j] + [c.t - 1];
          assert FaceIndices(face, NormalAttr)[..j + 1] == FaceIndices(face, NormalAttr)[..j] + [c.n - 1];
          j := j + 1;
        }
        assert FaceIndices(face, PositionAttr)[..3] == FaceIndices(face, PositionAttr);
        assert FaceIndices(face, TexcoordAttr)[..3] == FaceIndices(face, TexcoordAttr);
        assert FaceIndices(face, NormalAttr)[..3] == FaceIndices(face, NormalAttr);
      } else if Matches(line.text, TangentTag) {
        tangents := tangents + [TangentOf(line.scan)];
      }
      i := i + 1;
    }
    assert lines[..i] == lines;
    d := MeshData(positions, texcoords, normals, tangents, positionIndices, texcoordIndices, normalIndices);
  }

  /** Every corner of face `f` names an existing position, texture coordinate
      and normal, counting from one as the file does. */
  predicate FaceInRange(lines: seq<Line>, f: Face)
  {
    forall j :: 0 <= j < 3 ==>
      && 1 <= CornerAt(f, j).p <= |PositionsOf(lines)|
      && 1 <= CornerAt(f, j).t <= |TexcoordsOf(lines)|
      && 1 <= CornerAt(f, j).n <= |NormalsOf(lines)|
  }

  /** Face `f` can be resolved: its corners are in range, and when the file
      has tangents, each corner's position index also names a tangent. */
  predicate FaceResolvable(lines: seq<Line>, f: Face)
  {
    && FaceInRange(lines, f)
    && (TangentsOf(lines) != [] ==> forall j :: 0 <= j < 3 ==> CornerAt(f, j).p <= |TangentsOf(lines)|)
  }

  /** The vertex that corner j of face `f` denotes, read off the file: the
      referenced position, texture coordinate and normal, and the tangent at
      the corner's position index, or the default when the file has none. */
  function FileVertex(lines: seq<Line>, f: Face, j: int): Vertex
    requires 0 <= j < 3 && FaceResolvable(lines, f)
  {
    var c := CornerAt(f, j);
    Vertex(
      PositionsOf(lines)[c.p - 1],
      TexcoordsOf(lines)[c.t - 1],
      NormalsOf(lines)[c.n - 1],
      if TangentsOf(lines) == [] then DefaultTangent else TangentsOf(lines)[c.p - 1])
  }

  /** The indexer's bounds assertions all pass exactly when every face of the
      file is in range. */
  lemma BoundsIffFacesInRange(lines: seq<Line>)
    ensures BoundsHoldBefore(Parsed(lines), 3 * |FacesOf(lines)|) <==>
        forall k :: 0 <= k < |FacesOf(lines)| ==> FaceInRange(lines, FacesOf(lines)[k])
  {
    var d, faces := Parsed(lines), FacesOf(lines);
    if BoundsHoldBefore(d, 3 * |faces|) {
      forall k | 0 <= k < |faces| ensures FaceInRange(lines, faces[k]) {
        forall j | 0 <= j < 3
          ensures 1 <= CornerAt(faces[k], j).p <= |PositionsOf(lines)|
          ensures 1 <= CornerAt(faces[k], j).t <= |TexcoordsOf(lines)|
          ensures 1 <= CornerAt(faces[k], j).n <= |NormalsOf(lines)|
        {
          IndicesOfAt(faces, PositionAttr, k, j);
          IndicesOfAt(faces, TexcoordAttr, k, j);
          IndicesOfAt(faces, NormalAttr, k, j);
          assert CornerInBounds(d, 3 * k + j);
        }
      }
      assert forall k :: 0 <= k < |faces| ==> FaceInRange(lines, faces[k]);
    } else {
      var i :| 0 <= i < 3 * |faces| && !CornerInBounds(d, i);
      var k, j := i / 3, i % 3;
      assert i == 3 * k + j && 0 <= k < |faces|;
      IndicesOfAt(faces, PositionAttr, k, j);
      IndicesOfAt(faces, TexcoordAttr, k, j);
      IndicesOfAt(faces, NormalAttr, k, j);
      var c := CornerAt(faces[k], j);
      assert !(1 <= c.p <= |PositionsOf(lines)| && 1 <= c.t <= |TexcoordsOf(lines)| && 1 <= c.n <= |NormalsOf(lines)|);
      assert !FaceInRange(lines, faces[k]);
      assert !(forall k' :: 0 <= k' < |faces| ==> FaceInRange(lines, faces[k']));
    }
  }

  /** On a buildable file, every face resolves: in range, and with a
      tangent for each corner's position when the file has tangents. */
  lemma BuildableFaceResolvable(lines: seq<Line>, k: int)
    requires Buildable(Parsed(lines))
    requires 0 <= k < |FacesOf(lines)|
    ensures FaceResolvable(lines, FacesOf(lines)[k])
  {
    var d, faces := Parsed(lines), FacesOf(lines);
    BoundsIffFacesInRange(lines);
    if TangentsOf(lines) != [] {
      forall j | 0 <= j < 3 ensures CornerAt(faces[k], j).p <= |TangentsOf(lines)| {
        IndicesOfAt(faces, PositionAttr, k, j);
        assert BoundsHoldBefore(d, 3 * k + j + 1);
      }
    }
  }

  /** Vertex 3k + j of the built mesh is corner j of the k-th face record,
      resolved against the file's own 1-based numbering. */
  lemma SoupIsFileCorners(lines: seq<Line>, k: int, j: int)
    requires Buildable(Parsed(lines))
    requires 0 <= k < |FacesOf(lines)| && 0 <= j < 3
    ensures FaceResolvable(lines, FacesOf(lines)[k])
    ensures Soup(Parsed(lines))[3 * k + j] == FileVertex(lines, FacesOf(lines)[k], j)
  {
    var d, faces := Parsed(lines), FacesOf(lines);
    BuildableFaceResolvable(lines, k);
    var c, v := CornerAt(faces[k], j), Soup(d)[3 * k + j];
    IndicesOfAt(faces, PositionAttr, k, j);
    IndicesOfAt(faces, TexcoordAttr, k, j);
    IndicesOfAt(faces, NormalAttr, k, j);
    assert d.positionIndices[3 * k + j] == c.p - 1;
    assert d.texcoordIndices[3 * k + j] == c.t - 1;
    assert d.normalIndices[3 * k + j] == c.n - 1;
    assert v.position == PositionsOf(lines)[c.p - 1];
    assert v.texcoord == TexcoordsOf(lines)[c.t - 1];
    assert v.normal == NormalsOf(lines)[c.n - 1];
  }

  /** Loading a file: the lines are parsed, then indexed. The load stops at a
      failed bounds assertion exactly when some face refers past the end of
      (or before the start of) an attribute list. Otherwise the mesh has one
      triangle per face record and three vertex records per triangle, each
      the file's own corner; without any tangent line every tangent is the
      default (1, 0, 0, 1). */
  method LoadMesh(lines: seq<Line>) returns (r: BuildResult)
    requires TangentReadsDefined(Parsed(lines))
    ensures r.Aborted? <==> exists k :: 0 <= k < |FacesOf(lines)| && !FaceInRange(lines, FacesOf(lines)[k])
    ensures r.Built? ==>
      && (forall k :: 0 <= k < |FacesOf(lines)| ==> FaceResolvable(lines, FacesOf(lines)[k]))
      && r.mesh.faceNum == |FacesOf(lines)|
      && |r.mesh.vertices| == 3 * |FacesOf(lines)|
      && (forall k, j :: 0 <= k < |FacesOf(lines)| && 0 <= j < 3 ==>
            r.mesh.vertices[3 * k + j] == FileVertex(lines, FacesOf(lines)[k], j))
      && r.mesh.center == Center(r.mesh.vertices)
    ensures r.Built? ==> Buildable(Parsed(lines)) && r.mesh.vertices == Soup(Parsed(lines))
    ensures r.Built? && (forall i :: 0 <= i < |lines| ==> Classify(lines[i].text) != TangentLine) ==>
      forall v :: v in r.mesh.vertices ==> v.tangent == DefaultTangent
  {
    var d := ParseLines(lines);
    BoundsIffFacesInRange(lines);
    r := BuildMesh(d);
    if r.Built? {
      forall k | 0 <= k < |FacesOf(lines)| ensures FaceResolvable(lines, FacesOf(lines)[k]) {
        SoupIsFileCorners(lines, k, 0);
      }
      forall k, j | 0 <= k < |FacesOf(lines)| && 0 <= j < 3
        ensures r.mesh.vertices[3 * k + j] == FileVertex(lines, FacesOf(lines)[k], j)
      {
        SoupIsFileCorners(lines, k, j);
      }
      NoTangentsIff(lines);
    }
  }
}

module LoaderScenario {
  import opened Vectors
  import opened Model
  import opened Loader

  const NoFace: Face := Face(Corner(0, 0, 0), Corner(0, 0, 0), Corner(0, 0, 0))

  function Numbers(text: string, a: real, b: real, c: real): Line
  {
    Line(text, Scan(a, b, c, 0.0, NoFace))
  }

  /** A single triangle with one position, texture coordinate and normal per
      corner, and no tangent line. */
  function OneTriangle(): seq<Line>
  {
    [ Numbers("v 0 0 0", 0.0, 0.0, 0.0),
      Numbers("v 1 0 0", 1.0, 0.0, 0.0),
      Numbers("v 0 1 0", 0.0, 1.0, 0.0),
      Numbers("vt 0 0", 0.0, 0.0, 0.0),
      Numbers("vt 1 0", 1.0, 0.0, 0.0),
      Numbers("vt 0 1", 0.0, 1.0, 0.0),
      Numbers("vn 0 0 1", 0.0, 0.0, 1.0),
      Numbers("vn 0 0 1", 0.0, 0.0, 1.0),
      Numbers("vn 0 0 1", 0.0, 0.0, 1.0),
      Line("f 1/1/1 2/2/2 3/3/3", Scan(0.0, 0.0, 0.0, 0.0, Face(Corner(1, 1, 1), Corner(2, 2, 2), Corner(3, 3, 3)))) ]
  }

  /** The three `v ` lines collect the three positions, in file order. */
  lemma OneTrianglePositions()
    ensures Parsed(OneTriangle()[..3]) == MeshData([Vec3(0.0, 0.0, 0.0), Vec3(1.0, 0.0, 0.0), Vec3(0.0, 1.0, 0.0)], [], [], [], [], [], [])
  {
    var ls := OneTriangle();
    assert Parsed(ls[..0]) == MeshData([], [], [], [], [], [], []);
    assert Parsed(ls[..1]) == MeshData([Vec3(0.0, 0.0, 0.0)], [], [], [], [], [], []) by {
      assert ls[..1] == ls[..0] + [ls[0]];
      assert Classify(ls[0].text) == PositionLine;
      ParsedStep(ls[..0], ls[0]);
    }
    assert Parsed(ls[..2]) == MeshData([Vec3(0.0, 0.0, 0.0), Vec3(1.0, 0.0, 0.0)], [], [], [], [], [], []) by {
      assert ls[..2] == ls[..1] + [ls[1]];
      assert Classify(ls[1].text) == PositionLine;
      ParsedStep(ls[..1], ls[1]);
    }
    assert Parsed(ls[..3]) == MeshData([Vec3(0.0, 0.0, 0.0), Vec3(1.0, 0.0, 0.0), Vec3(0.0, 1.0, 0.0)], [], [], [], [], [], []) by {
      assert ls[..3] == ls[..2] + [ls[2]];
      assert Classify(ls[2].text) == PositionLine;
      ParsedStep(ls[..2], ls[2]);
    }
  }

  /** The three `vt` lines then collect the texture coordinates. */
  lemma OneTriangleTexcoords()
    ensures Parsed(OneTriangle()[..6]) == MeshData([Vec3(0.0, 0.0, 0.0), Vec3(1.0, 0.0, 0.0), Vec3(0.0, 1.0, 0.0)], [Vec2(0.0, 0.0), Vec2(1.0, 0.0), Vec2(0.0, 1.0)], [], [], [], [], [])
  {
    var ls := OneTriangle();
    OneTrianglePositions();
    assert Parsed(ls[..4]) == MeshData([Vec3(0.0, 0.0, 0.0), Vec3(1.0, 0.0, 0.0), Vec3(0.0, 1.0, 0.0)], [Vec2(0.0, 0.0)], [], [], [], [], []) by {
      assert ls[..4] == ls[..3] + [ls[3]];
      assert Classify(ls[3].text) == TexcoordLine;
      ParsedStep(ls[..3], ls[3]);
    }
    assert Parsed(ls[..5]) == MeshData([Vec3(0.0, 0.0, 0.0), Vec3(1.0, 0.0, 0.0), Vec3(0.0, 1.0, 0.0)], [Vec2(0.0, 0.0), Vec2(1.0, 0.0)], [], [], [], [], []) by {
      assert ls[..5] == ls[..4] + [ls[4]];
      assert Classify(ls[4].text) == TexcoordLine;
      ParsedStep(ls[..4], ls[4]);
    }
    assert Parsed(ls[..6]) == MeshData([Vec3(0.0, 0.0, 0.0), Vec3(1.0, 0.0, 0.0), Vec3(0.0, 1.0, 0.0)], [Vec2(0.0, 0.0), Vec2(1.0, 0.0), Vec2(0.0, 1.0)], [], [], [], [], []) by {
      assert ls[..6] == ls[..5] + [ls[5]];
      assert Classify(ls[5].text) == TexcoordLine;
      ParsedStep(ls[..5], ls[5]);
    }
  }

  /** The three `vn` lines then collect the normals. */
  lemma OneTriangleNormals()
    ensures Parsed(OneTriangle()[..9]) == MeshData([Vec3(0.0, 0.0, 0.0), Vec3(1.0, 0.0, 0.0), Vec3(0.0, 1.0, 0.0)], [Vec2(0.0, 0.0), Vec2(1.0, 0.0), Vec2(0.0, 1.0)], [Vec3(0.0, 0.0, 1.0), Vec3(0.0, 0.0, 1.0), Vec3(0.0, 0.0, 1.0)], [], [], [], [])
  {
    var ls := OneTriangle();
    OneTriangleTexcoords();
    assert Parsed(ls[..7]) == MeshData([Vec3(0.0, 0.0, 0.0), Vec3(1.0, 0.0, 0.0), Vec3(0.0, 1.0, 0.0)], [Vec2(0.0, 0.0), Vec2(1.0, 0.0), Vec2(0.0, 1.0)], [Vec3(0.0, 0.0, 1.0)], [], [], [], []) by {
      assert ls[..7] == ls[..6] + [ls[6]];
      assert Classify(ls[6].text) == NormalLine;
      ParsedStep(ls[..6], ls[6]);
    }
    assert Parsed(ls[..8]) == MeshData([Vec3(0.0, 0.0, 0.0), Vec3(1.0, 0.0, 0.0), Vec3(0.0, 1.0, 0.0)], [Vec2(0.0, 0.0), Vec2(1.0, 0.0), Vec2(0.0, 1.0)], [Vec3(0.0, 0.0, 1.0), Vec3(0.0, 0.0, 1.0)], [], [], [], []) by {
      assert ls[..8] == ls[..7] + [ls[7]];
      assert Classify(ls[7].text) == NormalLine;
      ParsedStep(ls[..7], ls[7]);
    }
    assert Parsed(ls[..9]) == MeshData([Vec3(0.0, 0.0, 0.0), Vec3(1.0, 0.0, 0.0), Vec3(0.0, 1.0, 0.0)], [Vec2(0.0, 0.0), Vec2(1.0, 0.0), Vec2(0.0, 1.0)], [Vec3(0.0, 0.0, 1.0), Vec3(0.0, 0.0, 1.0), Vec3(0.0, 0.0, 1.0)], [], [], [], []) by {
      assert ls[..9] == ls[..8] + [ls[8]];
      assert Classify(ls[8].text) == NormalLine;
      ParsedStep(ls[..8], ls[8]);
    }
  }

  /** What the loader collects from the single-triangle file: the face line
      contributes the 0-based corners 0, 1, 2 to each index array. */
  lemma OneTriangleParsed()
    ensures Parsed(OneTriangle()) == MeshData([Vec3(0.0, 0.0, 0.0), Vec3(1.0, 0.0, 0.0), Vec3(0.0, 1.0, 0.0)], [Vec2(0.0, 0.0), Vec2(1.0, 0.0), Vec2(0.0, 1.0)], [Vec3(0.0, 0.0, 1.0), Vec3(0.0, 0.0, 1.0), Vec3(0.0, 0.0, 1.0)], [], [0, 1, 2], [0, 1, 2], [0, 1, 2])
  {
    var ls := OneTriangle();
    OneTriangleNormals();
    assert Parsed(ls[..10]) == MeshData([Vec3(0.0, 0.0, 0.0), Vec3(1.0, 0.0, 0.0), Vec3(0.0, 1.0, 0.0)], [Vec2(0.0, 0.0), Vec2(1.0, 0.0), Vec2(0.0, 1.0)], [Vec3(0.0, 0.0, 1.0), Vec3(0.0, 0.0, 1.0), Vec3(0.0, 0.0, 1.0)], [], [0, 1, 2], [0, 1, 2], [0, 1, 2]) by {
      assert ls[..10] == ls[..9] + [ls[9]];
      assert Classify(ls[9].text) == FaceLine;
      ParsedStep(ls[..9], ls[9]);
    }
    assert ls[..10] == ls;
  }

  /** An ordinary comment line, such as an exporter's header, is read as a
      tangent. Appended to the single-triangle file, it makes the tangent
      array one entry long, so the indexer's unguarded tangent read at the
      second corner (position index 1) falls outside it. The whole-tag test
      ignores the line. */
  lemma CommentLineBecomesTangent()
    ensures var d := Parsed(OneTriangle() + [Numbers("# made by hand", 0.0, 0.0, 0.0)]);
      && IndicesReadable(d) && |d.tangents| == 1 && !TangentReadsDefined(d)
    ensures ClassifyExact("# made by hand") == OtherLine
  {
    var comment := Numbers("# made by hand", 0.0, 0.0, 0.0);
    OneTriangleParsed();
    assert Classify(comment.text) == TangentLine;
    ParsedStep(OneTriangle(), comment);
    var d := Parsed(OneTriangle() + [comment]);
    assert BoundsHoldBefore(d, 2);
    assert d.positionIndices[1] == 1;
    assert comment.text[2] != TangentTag[2];
  }

  /** The file builds into one triangle whose three vertices are the three
      positions in file order, all with the default tangent, centred at
      (0.5, 0.5, 0). */
  lemma OneTriangleScenario()
    ensures var d := Parsed(OneTriangle());
      && Buildable(d)
      && |d.positionIndices| / 3 == 1
      && |Soup(d)| == 3
      && Soup(d)[0].position == Vec3(0.0, 0.0, 0.0)
      && Soup(d)[1].position == Vec3(1.0, 0.0, 0.0)
      && Soup(d)[2].position == Vec3(0.0, 1.0, 0.0)
      && (forall i :: 0 <= i < 3 ==> Soup(d)[i].tangent == DefaultTangent)
      && Center(Soup(d)) == Vec3(0.5, 0.5, 0.0)
  {
    OneTriangleParsed();
    var d := Parsed(OneTriangle());
    assert BoundsHoldBefore(d, 3);
    var vs := Soup(d);
    assert vs[..2][..1] == vs[..1] && vs[..1][..0] == [] && vs[..3] == vs && vs[..3][..2] == vs[..2];
    assert BoxMin(vs[..1]) == Vec3(0.0, 0.0, 0.0);
    assert BoxMin(vs[..2]) == Vec3(0.0, 0.0, 0.0);
    assert BoxMax(vs[..1]) == Vec3(0.0, 0.0, 0.0);
    assert BoxMax(vs[..2]) == Vec3(1.0, 0.0, 0.0);
    assert BoxMin(vs) == Vec3(0.0, 0.0, 0.0);
    assert BoxMax(vs) == Vec3(1.0, 1.0, 0.0);
  }
}
