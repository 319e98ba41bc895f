/**
 * The mesh records and the indexer that turns the loader's parsed arrays into
 * a flat, render-ready "triangle soup": one vertex record per face corner,
 * three consecutive records per triangle, and the midpoint of the running
 * bounding box of the assembled positions.
 */
module Model {
  import opened Vectors

  /** One fully resolved corner of a triangle. */
  datatype Vertex = Vertex(position: Vec3, texcoord: Vec2, normal: Vec3, tangent: Vec4)

  /** The built mesh: the triangle count, the soup of vertex records and the
      centre of the bounding box. Nothing changes it once it is built. */
  datatype Mesh = Mesh(faceNum: nat, vertices: seq<Vertex>, center: Vec3)

  /** The seven growable arrays the loader accumulates and hands to the
      indexer. The tangent array of the source is a null pointer until the
      first tangent is pushed, so "no tangent data" is the empty sequence. */
  datatype MeshData = MeshData(
    positions: seq<Vec3>,
    texcoords: seq<Vec2>,
    normals: seq<Vec3>,
    tangents: seq<Vec4>,
    positionIndices: seq<int>,
    texcoordIndices: seq<int>,
    normalIndices: seq<int>)

  /** The three bounds assertions the indexer makes at each corner, in order. */
  datatype Check = PositionCheck | TexcoordCheck | NormalCheck

  /** The indexer either builds a mesh or stops the process at the first
      corner whose bounds assertion fails, naming that assertion. */
  datatype BuildResult = Built(mesh: Mesh) | Aborted(corner: nat, check: Check)

  /** The tangent every vertex gets when the file has no tangent data. */
  const DefaultTangent: Vec4 := Vec4(1.0, 0.0, 0.0, 1.0)

  /** The bounding box starts from these sentinels rather than from infinities. */
  const BoxSeed: real := 1000000.0
  const BoxMinSeed: Vec3 := Vec3(BoxSeed, BoxSeed, BoxSeed)
  const BoxMaxSeed: Vec3 := Vec3(-BoxSeed, -BoxSeed, -BoxSeed)

  /** The indexer walks the position indices and reads the texcoord and normal
      index at the same place, so those two arrays must be at least as long. */
  predicate IndicesReadable(d: MeshData)
  {
    |d.texcoordIndices| >= |d.positionIndices| && |d.normalIndices| >= |d.positionIndices|
  }

  /** Whether the given bounds assertion fails at corner `i`. */
  predicate CheckFails(d: MeshData, i: int, check: Check)
    requires IndicesReadable(d) && 0 <= i < |d.positionIndices|
  {
    match check
    case PositionCheck => !(0 <= d.positionIndices[i] < |d.positions|)
    case TexcoordCheck => !(0 <= d.texcoordIndices[i] < |d.texcoords|)
    case NormalCheck => !(0 <= d.normalIndices[i] < |d.normals|)
  }

  /** All three indices of corner `i` address an existing entry. */
  predicate CornerInBounds(d: MeshData, i: int)
    requires IndicesReadable(d) && 0 <= i < |d.positionIndices|
  {
    && 0 <= d.positionIndices[i] < |d.positions|
    && 0 <= d.texcoordIndices[i] < |d.texcoords|
    && 0 <= d.normalIndices[i] < |d.normals|
  }

  /** Every corner before `n` passes its bounds assertions. */
  predicate BoundsHoldBefore(d: MeshData, n: int)
    requires IndicesReadable(d) && n <= |d.positionIndices|
  {
    forall k :: 0 <= k < n ==> CornerInBounds(d, k)
  }

  /** The tangent read is not guarded by any assertion: when tangent data
      exists, every corner the indexer reaches (all corners up to and
      including it pass their assertions) must have its position index inside
      the tangent array, or the read is undefined. */
  predicate TangentReadsDefined(d: MeshData)
    requires IndicesReadable(d)
  {
    |d.tangents| > 0 ==>
      forall i :: 0 <= i < |d.positionIndices| && BoundsHoldBefore(d, i + 1) ==>
        d.positionIndices[i] < |d.tangents|
  }

  /** The vertex record the indexer assembles for corner `i`. */
  function Resolve(d: MeshData, i: int): Vertex
    requires IndicesReadable(d) && 0 <= i < |d.positionIndices| && CornerInBounds(d, i)
    requires |d.tangents| > 0 ==> d.positionIndices[i] < |d.tangents|
  {
    Vertex(
      d.positions[d.positionIndices[i]],
      d.texcoords[d.texcoordIndices[i]],
      d.normals[d.normalIndices[i]],
      if |d.tangents| > 0 then d.tangents[d.positionIndices[i]] else DefaultTangent)
  }

  /** Inputs for which the indexer runs to completion. */
  predicate Buildable(d: MeshData)
  {
    IndicesReadable(d) && BoundsHoldBefore(d, |d.positionIndices|) && TangentReadsDefined(d)
  }

  /** The expected vertex buffer: one record per entry of the position
      indices, record i drawn from corner i alone, the tangent looked up by the
      position index (never by the corner number) or defaulted. */
  function Soup(d: MeshData): (vs: seq<Vertex>)
    requires Buildable(d)
    ensures |vs| == |d.positionIndices|
    ensures forall i :: 0 <= i < |vs| ==>
      && CornerInBounds(d, i)
      && vs[i].position == d.positions[d.positionIndices[i]]
      && vs[i].texcoord == d.texcoords[d.texcoordIndices[i]]
      && vs[i].normal == d.normals[d.normalIndices[i]]
    ensures |d.tangents| == 0 ==> forall i :: 0 <= i < |vs| ==> vs[i].tangent == DefaultTangent
    ensures |d.tangents| > 0 ==> forall i :: 0 <= i < |vs| ==>
      0 <= d.positionIndices[i] < |d.tangents| && vs[i].tangent == d.tangents[d.positionIndices[i]]
  {
    seq(|d.positionIndices|, i requires 0 <= i < |d.positionIndices| =>
      assert BoundsHoldBefore(d, i + 1);
      Resolve(d, i))
  }

  /** The running lower corner of the bounding box, folded over the vertices
      in buffer order from the sentinel. */
  function BoxMin(vs: seq<Vertex>): Vec3
  {
    if |vs| == 0 then BoxMinSeed else Vec3Min(BoxMin(vs[..|vs| - 1]), vs[|vs| - 1].position)
  }

  /** The running upper corner of the bounding box. */
  function BoxMax(vs: seq<Vertex>): Vec3
  {
    if |vs| == 0 then BoxMaxSeed else Vec3Max(BoxMax(vs[..|vs| - 1]), vs[|vs| - 1].position)
  }

  /** The mesh centre: the midpoint of the bounding box. With no vertices the
      two sentinels cancel out and the centre is the origin. */
  function Center(vs: seq<Vertex>): (c: Vec3)
    ensures |vs| == 0 ==> c == Vec3(0.0, 0.0, 0.0)
  {
    var sum := Vec3Add(BoxMin(vs), BoxMax(vs));
    assert |vs| == 0 ==> sum == Vec3(0.0, 0.0, 0.0);
    Vec3Div(sum, 2.0)
  }

  function Coord(v: Vec3, axis: int): real
    requires 0 <= axis < 3
  {
    if axis == 0 then v.x else if axis == 1 then v.y else v.z
  }

  /** The box contains every assembled position. */
  lemma {:induction false} BoxContains(vs: seq<Vertex>, k: int)
    requires 0 <= k < |vs|
    ensures LessEq(BoxMin(vs), vs[k].position)
    ensures LessEq(vs[k].position, BoxMax(vs))
  {
    if k < |vs| - 1 {
      BoxContains(vs[..|vs| - 1], k);
    }
  }

  /** The box never extends past its sentinels: a coordinate beyond one
      million in magnitude is clamped to the sentinel. */
  lemma {:induction false} BoxWithinSeeds(vs: seq<Vertex>)
    ensures LessEq(BoxMin(vs), BoxMinSeed)
    ensures LessEq(BoxMaxSeed, BoxMax(vs))
  {
    if |vs| > 0 {
      BoxWithinSeeds(vs[..|vs| - 1]);
    }
  }

  /** The box is tight: on each axis its lower (upper) bound is either the
      sentinel or the coordinate of some assembled position. */
  lemma {:induction false} BoxAttained(vs: seq<Vertex>, axis: int)
    requires 0 <= axis < 3
    ensures Coord(BoxMin(vs), axis) == BoxSeed
         || exists k :: 0 <= k < |vs| && Coord(vs[k].position, axis) == Coord(BoxMin(vs), axis)
    ensures Coord(BoxMax(vs), axis) == -BoxSeed
         || exists k :: 0 <= k < |vs| && Coord(vs[k].position, axis) == Coord(BoxMax(vs), axis)
  {
    if |vs| > 0 {
      var prefix, last := vs[..|vs| - 1], |vs| - 1;
      BoxAttained(prefix, axis);
      assert Coord(BoxMin(vs), axis) == Min(Coord(BoxMin(prefix), axis), Coord(vs[last].position, axis));
      assert Coord(BoxMax(vs), axis) == Max(Coord(BoxMax(prefix), axis), Coord(vs[last].position, axis));
      assert forall k :: 0 <= k < |prefix| ==> prefix[k] == vs[k];
    }
  }

  /** The box depends on the vertex positions alone. */
  lemma {:induction false} BoxOfSamePositions(vs: seq<Vertex>, ws: seq<Vertex>)
    requires |vs| == |ws|
    requires forall i :: 0 <= i < |vs| ==> vs[i].position == ws[i].position
    ensures BoxMin(vs) == BoxMin(ws) && BoxMax(vs) == BoxMax(ws)
  {
    if |vs| > 0 {
      BoxOfSamePositions(vs[..|vs| - 1], ws[..|ws| - 1]);
    }
  }

  /** The centre is taken over the positions the faces reference: changing a
      position no corner refers to, or any texcoord, normal or tangent, leaves
      it as it was. */
  lemma CenterIgnoresUnreferencedPositions(d1: MeshData, d2: MeshData)
    requires Buildable(d1) && Buildable(d2)
    requires d1.positionIndices == d2.positionIndices
    requires forall p :: p in d1.positionIndices ==>
      0 <= p < |d1.positions| && 0 <= p < |d2.positions| && d1.positions[p] == d2.positions[p]
    ensures Center(Soup(d1)) == Center(Soup(d2))
  {
    BoxOfSamePositions(Soup(d1), Soup(d2));
  }

  /** The indexer. It walks the corners in order, checks the three bounds
      assertions of each before reading through its indices, fills one fresh
      vertex record per corner and widens the bounding box as it goes. The
      triangle count is the number of corners divided by three, truncated:
      nothing checks that the division is exact. */
  method BuildMesh(d: MeshData) returns (r: BuildResult)
    requires IndicesReadable(d)
    requires TangentReadsDefined(d)
    ensures r.Aborted? <==> !BoundsHoldBefore(d, |d.positionIndices|)
    ensures r.Aborted? ==>
      && r.corner < |d.positionIndices|
      && BoundsHoldBefore(d, r.corner)
      && CheckFails(d, r.corner, r.check)
      && (r.check != PositionCheck ==> !CheckFails(d, r.corner, PositionCheck))
      && (r.check == NormalCheck ==> !CheckFails(d, r.corner, TexcoordCheck))
    ensures r.Built? ==>
      && Buildable(d)
      && r.mesh.faceNum == |d.positionIndices| / 3
      && 3 * r.mesh.faceNum <= |r.mesh.vertices| < 3 * r.mesh.faceNum + 3
      && r.mesh.vertices == Soup(d)
      && r.mesh.center == Center(Soup(d))
  {
    var bboxMin := BoxMinSeed;
    var bboxMax := BoxMaxSeed;
    var numIndices := |d.positionIndices|;
    var numFaces := numIndices / 3;
    var vertices := new Vertex[numIndices];

    var i := 0;
    while i < numIndices
      invariant 0 <= i <= numIndices
      invariant BoundsHoldBefore(d, i)
      invariant forall k :: 0 <= k < i ==> CornerInBounds(d, k) && vertices[k] == Resolve(d, k)
      invariant bboxMin == BoxMin(vertices[..i])
      invariant bboxMax == BoxMax(vertices[..i])
    {
      var positionIdx := d.positionIndices[i];
      var texcoordIdx := d.texcoordIndices[i];
      var normalIdx := d.normalIndices[i];

      if !(0 <= positionIdx < |d.positions|) {
        assert !CornerInBounds(d, i);
        return Aborted(i, PositionCheck);
      }
      if !(0 <= texcoordIdx < |d.texcoords|) {
        assert !CornerInBounds(d, i);
        return Aborted(i, TexcoordCheck);
      }
      if !(0 <= normalIdx < |d.normals|) {
        assert !CornerInBounds(d, i);
        return Aborted(i, NormalCheck);
      }
      assert BoundsHoldBefore(d, i + 1);

      var tangent;
      if |d.tangents| > 0 {
        tangent := d.tangents[positionIdx];
      } else {
        tangent := DefaultTangent;
      }
      ghost var before := vertices[..i];
      vertices[i] := Vertex(d.positions[positionIdx], d.texcoords[texcoordIdx], d.normals[normalIdx], tangent);
      assert vertices[..i + 1][..i] == before;

      bboxMin := Vec3Min(bboxMin, vertices[i].position);
      bboxMax := Vec3Max(bboxMax, vertices[i].position);
      i := i + 1;
    }

    assert vertices[..] == vertices[..numIndices] == Soup(d);
    r := Built(Mesh(numFaces, vertices[..], Vec3Div(Vec3Add(bboxMin, bboxMax), 2.0)));
  }
}
