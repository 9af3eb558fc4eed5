/** Debug helpers of the renderer: the depth-visualisation toggle, the
    lightweight debug vertex with its buffer layout, and the constant
    full-screen quad and cube tables. */
module Debug {
  import opened Geometry
  import opened Input
  import opened TriangleLists
  import opened VertexLayouts

  // ---- toggle ----

  /** The flag after one event: a Z key release flips it, nothing else
      touches it. */
  function ToggledBy(flag: bool, e: WindowEvent): (r: bool)
    ensures IsKeyEvent(e, KeyZ, Released) ==> r == !flag
    ensures !IsKeyEvent(e, KeyZ, Released) ==> r == flag
  {
    if e.KeyboardInput? && e.state == Released && e.physicalKey == Code(KeyZ) then !flag else flag
  }

  /** The toggle is an involution: the same event twice restores the flag. */
  lemma ToggleInvolution(flag: bool, e: WindowEvent)
    ensures ToggledBy(ToggledBy(flag, e), e) == flag
  {
  }

  /** The flag after a run of events flips once per Z release. */
  function ToggledByAll(flag: bool, events: seq<WindowEvent>): bool
    decreases |events|
  {
    if events == [] then flag else ToggledByAll(ToggledBy(flag, events[0]), events[1..])
  }

  function ZReleases(events: seq<WindowEvent>): nat
    decreases |events|
  {
    if events == [] then 0
    else (if IsKeyEvent(events[0], KeyZ, Released) then 1 else 0) + ZReleases(events[1..])
  }

  /** After any run of events the flag is the initial flag exactly when the
      number of Z releases is even. */
  lemma {:induction false} ToggleParity(flag: bool, events: seq<WindowEvent>)
    ensures ToggledByAll(flag, events) == (if ZReleases(events) % 2 == 0 then flag else !flag)
    decreases |events|
  {
    if events != [] {
      ToggleParity(ToggledBy(flag, events[0]), events[1..]);
    }
  }

  /** Configurable state for debugging the renderer. */
  class DebugState {
    var visualizeDepthPass: bool

    /** `Default`: depth visualisation off. */
    constructor ()
      ensures !visualizeDepthPass
    {
      visualizeDepthPass := false;
    }

    method ProcessInput(e: WindowEvent)
      modifies this
      ensures visualizeDepthPass == ToggledBy(old(visualizeDepthPass), e)
    {
      if e.KeyboardInput? {
        if e.state == Released {
          if e.physicalKey == Code(KeyZ) {
            visualizeDepthPass := !visualizeDepthPass;
          }
        }
      }
    }
  }

  // ---- debug vertex ----

  /** A position and one set of texture coordinates. */
  datatype DebugVertex = DebugVertex(position: Vec3, texCoords: Vec2)

  /** `size_of::<DebugVertex>()`: three and two 32-bit floats. */
  const DEBUG_VERTEX_SIZE: nat := 3 * 4 + 2 * 4

  /** `DebugVertex::desc`: the position at location 0 and the texture
      coordinates at location 1, tightly packed in a 20-byte stride. */
  function DebugVertexLayout(): (l: VertexBufferLayout)
    ensures l.arrayStride == DEBUG_VERTEX_SIZE == 20 && l.stepMode == PerVertex
    ensures TightlyPacked(l) && AttributesFit(l) && AttributesDisjoint(l)
    ensures Locations(l) == {0, 1}
    ensures l.attributes[|l.attributes| - 1].offset + 8 == l.arrayStride
  {
    var l := VertexBufferLayout(DEBUG_VERTEX_SIZE, PerVertex,
                                [VertexAttribute(0, 0, Float32x3), VertexAttribute(3 * 4, 1, Float32x2)]);
    assert Formats(l) == [Float32x3, Float32x2];
    assert Formats(l)[..1] == [Float32x3];
    assert Locations(l) == {0, 1} by {
      assert l.attributes[0].shaderLocation == 0 && l.attributes[1].shaderLocation == 1;
    }
    TightlyPackedIsSound(l);
    l
  }

  // ---- tables ----

  const QUAD_VERTS: seq<DebugVertex> := [
    DebugVertex(Vec3(1.0, 1.0, 0.0), Vec2(1.0, 0.0)),
    DebugVertex(Vec3(-1.0, 1.0, 0.0), Vec2(0.0, 0.0)),
    DebugVertex(Vec3(1.0, -1.0, 0.0), Vec2(1.0, 1.0)),
    DebugVertex(Vec3(-1.0, -1.0, 0.0), Vec2(0.0, 1.0))
  ]

  const QUAD_INDICES: seq<nat> := [0, 1, 2, 2, 1, 3]

  const CUBE_VERTS: seq<DebugVertex> := [
    DebugVertex(Vec3(0.5, 0.5, -0.5), Vec2(1.0, 1.0)),
    DebugVertex(Vec3(0.5, -0.5, -0.5), Vec2(1.0, 0.0)),
    DebugVertex(Vec3(-0.5, -0.5, -0.5), Vec2(0.0, 0.0)),
    DebugVertex(Vec3(-0.5, -0.5, -0.5), Vec2(0.0, 0.0)),
    DebugVertex(Vec3(-0.5, 0.5, -0.5), Vec2(0.0, 1.0)),
    DebugVertex(Vec3(0.5, 0.5, -0.5), Vec2(1.0, 1.0)),
    DebugVertex(Vec3(-0.5, -0.5, 0.5), Vec2(0.0, 0.0)),
    DebugVertex(Vec3(0.5, -0.5, 0.5), Vec2(1.0, 0.0)),
    DebugVertex(Vec3(0.5, 0.5, 0.5), Vec2(1.0, 1.0)),
    DebugVertex(Vec3(0.5, 0.5, 0.5), Vec2(1.0, 1.0)),
    DebugVertex(Vec3(-0.5, 0.5, 0.5), Vec2(0.0, 1.0)),
    DebugVertex(Vec3(-0.5, -0.5, 0.5), Vec2(0.0, 0.0)),
    DebugVertex(Vec3(-0.5, 0.5, 0.5), Vec2(1.0, 0.0)),
    DebugVertex(Vec3(-0.5, 0.5, -0.5), Vec2(1.0, 1.0)),
    DebugVertex(Vec3(-0.5, -0.5, -0.5), Vec2(0.0, 1.0)),
    DebugVertex(Vec3(-0.5, -0.5, -0.5), Vec2(0.0, 1.0)),
    DebugVertex(Vec3(-0.5, -0.5, 0.5), Vec2(0.0, 0.0)),
    DebugVertex(Vec3(-0.5, 0.5, 0.5), Vec2(1.0, 0.0)),
    DebugVertex(Vec3(0.5, -0.5, -0.5), Vec2(0.0, 1.0)),
    DebugVertex(Vec3(0.5, 0.5, -0.5), Vec2(1.0, 1.0)),
    DebugVertex(Vec3(0.5, 0.5, 0.5), Vec2(1.0, 0.0)),
    DebugVertex(Vec3(0.5, 0.5, 0.5), Vec2(1.0, 0.0)),
    DebugVertex(Vec3(0.5, -0.5, 0.5), Vec2(0.0, 0.0)),
    DebugVertex(Vec3(0.5, -0.5, -0.5), Vec2(0.0, 1.0)),
    DebugVertex(Vec3(-0.5, -0.5, -0.5), Vec2(0.0, 1.0)),
    DebugVertex(Vec3(0.5, -0.5, -0.5), Vec2(1.0, 1.0)),
    DebugVertex(Vec3(0.5, -0.5, 0.5), Vec2(1.0, 0.0)),
    DebugVertex(Vec3(0.5, -0.5, 0.5), Vec2(1.0, 0.0)),
    DebugVertex(Vec3(-0.5, -0.5, 0.5), Vec2(0.0, 0.0)),
    DebugVertex(Vec3(-0.5, -0.5, -0.5), Vec2(0.0, 1.0)),
    DebugVertex(Vec3(0.5, 0.5, 0.5), Vec2(1.0, 0.0)),
    DebugVertex(Vec3(0.5, 0.5, -0.5), Vec2(1.0, 1.0)),
    DebugVertex(Vec3(-0.5, 0.5, -0.5), Vec2(0.0, 1.0)),
    DebugVertex(Vec3(-0.5, 0.5, -0.5), Vec2(0.0, 1.0)),
    DebugVertex(Vec3(-0.5, 0.5, 0.5), Vec2(0.0, 0.0)),
    DebugVertex(Vec3(0.5, 0.5, 0.5), Vec2(1.0, 0.0))
  ]

  const CUBE_INDICES: seq<nat> := [
    0, 1, 2, 3, 4, 5, 6, 7, 8, 9, 10, 11, 12, 13, 14, 15, 16, 17,
    18, 19, 20, 21, 22, 23, 24, 25, 26, 27, 28, 29, 30, 31, 32, 33, 34, 35
  ]

  function Positions(vs: seq<DebugVertex>): (ps: seq<Vec3>)
    ensures |ps| == |vs| && forall i :: 0 <= i < |vs| ==> ps[i] == vs[i].position
  {
    seq(|vs|, i requires 0 <= i < |vs| => vs[i].position)
  }

  function TexCoords(vs: seq<DebugVertex>): (cs: seq<Vec2>)
    ensures |cs| == |vs| && forall i :: 0 <= i < |vs| ==> cs[i] == vs[i].texCoords
  {
    seq(|vs|, i requires 0 <= i < |vs| => vs[i].texCoords)
  }

  /** The full-screen quad: four corners of [-1, 1]^2 and two
      counter-clockwise triangles. */
  lemma QuadTablesWellFormed()
    ensures |QUAD_VERTS| == 4 && |QUAD_INDICES| == 6
    ensures CounterClockwise(Positions(QUAD_VERTS), QUAD_INDICES)
    ensures WithinCube(Positions(QUAD_VERTS), 1.0) && WithinUnitSquare(TexCoords(QUAD_VERTS))
  {
  }

  lemma CubeDrawnInOrder()
    ensures |CUBE_VERTS| == 36 && IsIdentityIndexing(CUBE_INDICES, 36)
  {
  }

  lemma CubeIsTriangleList()
    ensures IsTriangleList(Positions(CUBE_VERTS), CUBE_INDICES)
  {
  }

  lemma CubeWithinBounds()
    ensures WithinCube(Positions(CUBE_VERTS), 0.5) && WithinUnitSquare(TexCoords(CUBE_VERTS))
  {
  }

  /** The cube spans [-0.5, 0.5] and draws its 36 vertices in order. */
  lemma CubeTablesWellFormed()
    ensures |CUBE_VERTS| == 36 && IsIdentityIndexing(CUBE_INDICES, 36)
    ensures IsTriangleList(Positions(CUBE_VERTS), CUBE_INDICES)
    ensures WithinCube(Positions(CUBE_VERTS), 0.5) && WithinUnitSquare(TexCoords(CUBE_VERTS))
  {
    CubeDrawnInOrder();
    CubeIsTriangleList();
    CubeWithinBounds();
  }
}
