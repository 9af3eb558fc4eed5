/** The older constant mesh tables of the first prototype: a triangle, a
    rectangle and a pentagon with per-vertex colours, half the size of the
    renderer's built-in meshes. */
module LegacyMeshes {
  import opened Geometry
  import opened TriangleLists

  /** The prototype's vertex: position, colour and texture coordinates. */
  datatype ColorVertex = ColorVertex(position: Vec3, color: Vec3, texCoords: Vec2)

  const TRIANGLE_VERTS: seq<ColorVertex> := [
    ColorVertex(Vec3(0.0, 0.5, 0.0), Vec3(1.0, 0.0, 0.0), Vec2(0.5, 0.0)),
    ColorVertex(Vec3(-0.5, -0.5, 0.0), Vec3(0.0, 1.0, 0.0), Vec2(0.0, 1.0)),
    ColorVertex(Vec3(0.5, -0.5, 0.0), Vec3(0.0, 0.0, 1.0), Vec2(1.0, 1.0))
  ]

  const TRIANGLE_INDICES: seq<nat> := [0, 1, 2]

  const RECT_VERTS: seq<ColorVertex> := [
    ColorVertex(Vec3(0.5, 0.5, 0.0), Vec3(1.0, 0.0, 0.0), Vec2(1.0, 0.0)),
    ColorVertex(Vec3(-0.5, 0.5, 0.0), Vec3(0.0, 1.0, 0.0), Vec2(0.0, 0.0)),
    ColorVertex(Vec3(0.5, -0.5, 0.0), Vec3(0.0, 0.0, 1.0), Vec2(1.0, 1.0)),
    ColorVertex(Vec3(-0.5, -0.5, 0.0), Vec3(1.0, 0.0, 0.0), Vec2(0.0, 1.0))
  ]

  const RECT_INDICES: seq<nat> := [0, 1, 2, 2, 1, 3]

  const PENTAGON_VERTS: seq<ColorVertex> := [
    ColorVertex(Vec3(-0.0868241, 0.49240386, 0.0), Vec3(0.5, 0.0, 0.5), Vec2(0.4131759, 0.99240386)),
    ColorVertex(Vec3(-0.49513406, 0.06958647, 0.0), Vec3(0.5, 0.0, 0.5), Vec2(0.0048659444, 0.56958647)),
    ColorVertex(Vec3(-0.21918549, -0.44939706, 0.0), Vec3(0.5, 0.0, 0.5), Vec2(0.28081453, 0.05060294)),
    ColorVertex(Vec3(0.35966998, -0.3473291, 0.0), Vec3(0.5, 0.0, 0.5), Vec2(0.85967, 0.1526709)),
    ColorVertex(Vec3(0.44147372, 0.2347359, 0.0), Vec3(0.5, 0.0, 0.5), Vec2(0.9414737, 0.7347359))
  ]

  const PENTAGON_INDICES: seq<nat> := [0, 1, 4, 1, 2, 4, 2, 3, 4]

  function Positions(vs: seq<ColorVertex>): (ps: seq<Vec3>)
    ensures |ps| == |vs| && forall i :: 0 <= i < |vs| ==> ps[i] == vs[i].position
  {
    seq(|vs|, i requires 0 <= i < |vs| => vs[i].position)
  }

  function TexCoords(vs: seq<ColorVertex>): (cs: seq<Vec2>)
    ensures |cs| == |vs| && forall i :: 0 <= i < |vs| ==> cs[i] == vs[i].texCoords
  {
    seq(|vs|, i requires 0 <= i < |vs| => vs[i].texCoords)
  }

  /** Each table pair is a counter-clockwise triangle list (3, 6 and 9
      indices) with positions in [-0.5, 0.5] and texture coordinates in
      [0, 1]. */
  lemma TriangleTablesWellFormed()
    ensures |TRIANGLE_INDICES| == 3 && CounterClockwise(Positions(TRIANGLE_VERTS), TRIANGLE_INDICES)
    ensures WithinCube(Positions(TRIANGLE_VERTS), 0.5) && WithinUnitSquare(TexCoords(TRIANGLE_VERTS))
  {
  }

  lemma RectTablesWellFormed()
    ensures |RECT_INDICES| == 6 && CounterClockwise(Positions(RECT_VERTS), RECT_INDICES)
    ensures WithinCube(Positions(RECT_VERTS), 0.5) && WithinUnitSquare(TexCoords(RECT_VERTS))
  {
  }

  lemma PentagonWinding()
    ensures |PENTAGON_INDICES| == 9 && CounterClockwise(Positions(PENTAGON_VERTS), PENTAGON_INDICES)
  {
  }

  lemma PentagonWithinBounds()
    ensures WithinCube(Positions(PENTAGON_VERTS), 0.5) && WithinUnitSquare(TexCoords(PENTAGON_VERTS))
  {
  }

  lemma PentagonTablesWellFormed()
    ensures |PENTAGON_INDICES| == 9 && CounterClockwise(Positions(PENTAGON_VERTS), PENTAGON_INDICES)
    ensures WithinCube(Positions(PENTAGON_VERTS), 0.5) && WithinUnitSquare(TexCoords(PENTAGON_VERTS))
  {
    PentagonWinding();
    PentagonWithinBounds();
  }
}
