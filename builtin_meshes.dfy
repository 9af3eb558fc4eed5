/** The meshes the engine can build without loading a model: a triangle, a
    rectangle and a pentagon in the z = 0 plane and a unit cube, each as a
    constant vertex table and a 16-bit index table for an indexed triangle
    list. */
module BuiltinMeshes {
  import opened Geometry
  import opened TriangleLists

  datatype BuiltinMesh = Triangle | Rect | Pentagon | Cube

  /** The renderer's mesh vertex. */
  datatype MeshVertex = MeshVertex(position: Vec3, normal: Vec3, texCoords: Vec2)

  const TRIANGLE_VERTS: seq<MeshVertex> := [
    MeshVertex(Vec3(0.0, 1.0, 0.0), Vec3(0.0, 0.0, 1.0), Vec2(0.5, 0.0)),
    MeshVertex(Vec3(-1.0, -1.0, 0.0), Vec3(0.0, 0.0, 1.0), Vec2(0.0, 1.0)),
    MeshVertex(Vec3(1.0, -1.0, 0.0), Vec3(0.0, 0.0, 1.0), Vec2(1.0, 1.0))
  ]

  const TRIANGLE_INDICES: seq<nat> := [0, 1, 2]

  const RECT_VERTS: seq<MeshVertex> := [
    MeshVertex(Vec3(1.0, 1.0, 0.0), Vec3(0.0, 0.0, 1.0), Vec2(1.0, 0.0)),
    MeshVertex(Vec3(-1.0, 1.0, 0.0), Vec3(0.0, 0.0, 1.0), Vec2(0.0, 0.0)),
    MeshVertex(Vec3(1.0, -1.0, 0.0), Vec3(0.0, 0.0, 1.0), Vec2(1.0, 1.0)),
    MeshVertex(Vec3(-1.0, -1.0, 0.0), Vec3(0.0, 0.0, 1.0), Vec2(0.0, 1.0))
  ]

  const RECT_INDICES: seq<nat> := [0, 1, 2, 2, 1, 3]

  const PENTAGON_VERTS: seq<MeshVertex> := [
    MeshVertex(Vec3(-0.1736482, 0.9848077, 0.0), Vec3(0.0, 0.0, 1.0), Vec2(0.4131759, 0.99240386)),
    MeshVertex(Vec3(-0.9902681, 0.13917294, 0.0), Vec3(0.0, 0.0, 1.0), Vec2(0.0048659444, 0.56958647)),
    MeshVertex(Vec3(-0.43837098, -0.8987941, 0.0), Vec3(0.0, 0.0, 1.0), Vec2(0.28081453, 0.05060294)),
    MeshVertex(Vec3(0.71933996, -0.6946582, 0.0), Vec3(0.0, 0.0, 1.0), Vec2(0.85967, 0.1526709)),
    MeshVertex(Vec3(0.88294744, 0.4694718, 0.0), Vec3(0.0, 0.0, 1.0), Vec2(0.9414737, 0.7347359))
  ]

  const PENTAGON_INDICES: seq<nat> := [0, 1, 4, 1, 2, 4, 2, 3, 4]

  const CUBE_VERTS: seq<MeshVertex> := [
    MeshVertex(Vec3(0.5, 0.5, -0.5), Vec3(0.0, 0.0, -1.0), Vec2(1.0, 1.0)),
    MeshVertex(Vec3(0.5, -0.5, -0.5), Vec3(0.0, 0.0, -1.0), Vec2(1.0, 0.0)),
    MeshVertex(Vec3(-0.5, -0.5, -0.5), Vec3(0.0, 0.0, -1.0), Vec2(0.0, 0.0)),
    MeshVertex(Vec3(-0.5, -0.5, -0.5), Vec3(0.0, 0.0, -1.0), Vec2(0.0, 0.0)),
    MeshVertex(Vec3(-0.5, 0.5, -0.5), Vec3(0.0, 0.0, -1.0), Vec2(0.0, 1.0)),
    MeshVertex(Vec3(0.5, 0.5, -0.5), Vec3(0.0, 0.0, -1.0), Vec2(1.0, 1.0)),
    MeshVertex(Vec3(-0.5, -0.5, 0.5), Vec3(0.0, 0.0, 1.0), Vec2(0.0, 0.0)),
    MeshVertex(Vec3(0.5, -0.5, 0.5), Vec3(0.0, 0.0, 1.0), Vec2(1.0, 0.0)),
    MeshVertex(Vec3(0.5, 0.5, 0.5), Vec3(0.0, 0.0, 1.0), Vec2(1.0, 1.0)),
    MeshVertex(Vec3(0.5, 0.5, 0.5), Vec3(0.0, 0.0, 1.0), Vec2(1.0, 1.0)),
    MeshVertex(Vec3(-0.5, 0.5, 0.5), Vec3(0.0, 0.0, 1.0), Vec2(0.0, 1.0)),
    MeshVertex(Vec3(-0.5, -0.5, 0.5), Vec3(0.0, 0.0, 1.0), Vec2(0.0, 0.0)),
    MeshVertex(Vec3(-0.5, 0.5, 0.5), Vec3(-1.0, 0.0, 0.0), Vec2(1.0, 0.0)),
    MeshVertex(Vec3(-0.5, 0.5, -0.5), Vec3(-1.0, 0.0, 0.0), Vec2(1.0, 1.0)),
    MeshVertex(Vec3(-0.5, -0.5, -0.5), Vec3(-1.0, 0.0, 0.0), Vec2(0.0, 1.0)),
    MeshVertex(Vec3(-0.5, -0.5, -0.5), Vec3(-1.0, 0.0, 0.0), Vec2(0.0, 1.0)),
    MeshVertex(Vec3(-0.5, -0.5, 0.5), Vec3(-1.0, 0.0, 0.0), Vec2(0.0, 0.0)),
    MeshVertex(Vec3(-0.5, 0.5, 0.5), Vec3(-1.0, 0.0, 0.0), Vec2(1.0, 0.0)),
    MeshVertex(Vec3(0.5, -0.5, -0.5), Vec3(1.0, 0.0, 0.0), Vec2(0.0, 1.0)),
    MeshVertex(Vec3(0.5, 0.5, -0.5), Vec3(1.0, 0.0, 0.0), Vec2(1.0, 1.0)),
    MeshVertex(Vec3(0.5, 0.5, 0.5), Vec3(1.0, 0.0, 0.0), Vec2(1.0, 0.0)),
    MeshVertex(Vec3(0.5, 0.5, 0.5), Vec3(1.0, 0.0, 0.0), Vec2(1.0, 0.0)),
    MeshVertex(Vec3(0.5, -0.5, 0.5), Vec3(1.0, 0.0, 0.0), Vec2(0.0, 0.0)),
    MeshVertex(Vec3(0.5, -0.5, -0.5), Vec3(1.0, 0.0, 0.0), Vec2(0.0, 1.0)),
    MeshVertex(Vec3(-0.5, -0.5, -0.5), Vec3(0.0, -1.0, 0.0), Vec2(0.0, 1.0)),
    MeshVertex(Vec3(0.5, -0.5, -0.5), Vec3(0.0, -1.0, 0.0), Vec2(1.0, 1.0)),
    MeshVertex(Vec3(0.5, -0.5, 0.5), Vec3(0.0, -1.0, 0.0), Vec2(1.0, 0.0)),
    MeshVertex(Vec3(0.5, -0.5, 0.5), Vec3(0.0, -1.0, 0.0), Vec2(1.0, 0.0)),
    MeshVertex(Vec3(-0.5, -0.5, 0.5), Vec3(0.0, -1.0, 0.0), Vec2(0.0, 0.0)),
    MeshVertex(Vec3(-0.5, -0.5, -0.5), Vec3(0.0, -1.0, 0.0), Vec2(0.0, 1.0)),
    MeshVertex(Vec3(0.5, 0.5, 0.5), Vec3(0.0, 1.0, 0.0), Vec2(1.0, 0.0)),
    MeshVertex(Vec3(0.5, 0.5, -0.5), Vec3(0.0, 1.0, 0.0), Vec2(1.0, 1.0)),
    MeshVertex(Vec3(-0.5, 0.5, -0.5), Vec3(0.0, 1.0, 0.0), Vec2(0.0, 1.0)),
    MeshVertex(Vec3(-0.5, 0.5, -0.5), Vec3(0.0, 1.0, 0.0), Vec2(0.0, 1.0)),
    MeshVertex(Vec3(-0.5, 0.5, 0.5), Vec3(0.0, 1.0, 0.0), Vec2(0.0, 0.0)),
    MeshVertex(Vec3(0.5, 0.5, 0.5), Vec3(0.0, 1.0, 0.0), Vec2(1.0, 0.0))
  ]

  const CUBE_INDICES: seq<nat> := [
    0, 1, 2, 3, 4, 5, 6, 7, 8, 9, 10, 11, 12, 13, 14, 15, 16, 17,
    18, 19, 20, 21, 22, 23, 24, 25, 26, 27, 28, 29, 30, 31, 32, 33, 34, 35
  ]

  function Positions(vs: seq<MeshVertex>): (ps: seq<Vec3>)
    ensures |ps| == |vs| && forall i :: 0 <= i < |vs| ==> ps[i] == vs[i].position
  {
    seq(|vs|, i requires 0 <= i < |vs| => vs[i].position)
  }

  function TexCoords(vs: seq<MeshVertex>): (cs: seq<Vec2>)
    ensures |cs| == |vs| && forall i :: 0 <= i < |vs| ==> cs[i] == vs[i].texCoords
  {
    seq(|vs|, i requires 0 <= i < |vs| => vs[i].texCoords)
  }

  /** The flat tables: whole triangles, indices in range, positions in
      [-1, 1], texture coordinates in [0, 1], counter-clockwise winding. */
  lemma TriangleTablesWellFormed()
    ensures CounterClockwise(Positions(TRIANGLE_VERTS), TRIANGLE_INDICES)
    ensures WithinCube(Positions(TRIANGLE_VERTS), 1.0) && WithinUnitSquare(TexCoords(TRIANGLE_VERTS))
  {
  }

  lemma RectTablesWellFormed()
    ensures CounterClockwise(Positions(RECT_VERTS), RECT_INDICES)
    ensures WithinCube(Positions(RECT_VERTS), 1.0) && WithinUnitSquare(TexCoords(RECT_VERTS))
  {
    var ps := Positions(RECT_VERTS);
    assert ps == [Vec3(1.0, 1.0, 0.0), Vec3(-1.0, 1.0, 0.0), Vec3(1.0, -1.0, 0.0), Vec3(-1.0, -1.0, 0.0)];
    assert TriangleCount(RECT_INDICES) == 2;
    forall t: nat | t < 2
      ensures TriangleArea2(ps, RECT_INDICES, t) > 0.0
    {
      if t == 0 {
        assert TriangleArea2(ps, RECT_INDICES, 0) == SignedArea2(ps[0], ps[1], ps[2]);
      } else {
        assert TriangleArea2(ps, RECT_INDICES, 1) == SignedArea2(ps[2], ps[1], ps[3]);
      }
    }
  }

  lemma PentagonWinding()
    ensures CounterClockwise(Positions(PENTAGON_VERTS), PENTAGON_INDICES)
  {
  }

  lemma PentagonWithinBounds()
    ensures WithinCube(Positions(PENTAGON_VERTS), 1.0) && WithinUnitSquare(TexCoords(PENTAGON_VERTS))
  {
  }

  lemma PentagonTablesWellFormed()
    ensures CounterClockwise(Positions(PENTAGON_VERTS), PENTAGON_INDICES)
    ensures WithinCube(Positions(PENTAGON_VERTS), 1.0) && WithinUnitSquare(TexCoords(PENTAGON_VERTS))
  {
    PentagonWinding();
    PentagonWithinBounds();
  }

  lemma CubeDrawnInOrder()
    ensures |CUBE_VERTS| == 36 && IsIdentityIndexing(CUBE_INDICES, 36)
  {
  }

  lemma CubeIsTriangleList()
    ensures IsTriangleList(Positions(CUBE_VERTS), CUBE_INDICES)
  {
  }

  lemma CubeWithinBounds()
    ensures WithinCube(Positions(CUBE_VERTS), 0.5) && WithinUnitSquare(TexCoords(CUBE_VERTS))
  {
  }

  /** The cube: 36 vertices drawn in order, positions in [-0.5, 0.5]. */
  lemma CubeTablesWellFormed()
    ensures |CUBE_VERTS| == 36 && IsIdentityIndexing(CUBE_INDICES, 36)
    ensures IsTriangleList(Positions(CUBE_VERTS), CUBE_INDICES)
    ensures WithinCube(Positions(CUBE_VERTS), 0.5) && WithinUnitSquare(TexCoords(CUBE_VERTS))
  {
    CubeDrawnInOrder();
    CubeIsTriangleList();
    CubeWithinBounds();
  }

  /** `builtin_mesh`: each variant's own pair of tables. Every pair is a
      well-formed triangle list with 3, 6, 9 or 36 indices, every position
      lies in [-1, 1] on each axis and every texture coordinate in [0, 1];
      the three flat meshes wind counter-clockwise, and the cube draws its 36
      vertices in order. */
  function BuiltinMeshTables(kind: BuiltinMesh): (r: (seq<MeshVertex>, seq<nat>))
    ensures IsTriangleList(Positions(r.0), r.1)
    ensures |r.1| == match kind case Triangle => 3 case Rect => 6 case Pentagon => 9 case Cube => 36
    ensures WithinCube(Positions(r.0), 1.0)
    ensures WithinUnitSquare(TexCoords(r.0))
    ensures kind != Cube ==> CounterClockwise(Positions(r.0), r.1)
    ensures kind == Cube ==> |r.0| == 36 && IsIdentityIndexing(r.1, 36)
  {
    match kind
    case Triangle => TriangleTablesWellFormed(); (TRIANGLE_VERTS, TRIANGLE_INDICES)
    case Rect => RectTablesWellFormed(); (RECT_VERTS, RECT_INDICES)
    case Pentagon => PentagonTablesWellFormed(); (PENTAGON_VERTS, PENTAGON_INDICES)
    case Cube => CubeTablesWellFormed(); (CUBE_VERTS, CUBE_INDICES)
  }
}
