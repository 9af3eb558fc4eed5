/** What makes a constant vertex/index table a usable indexed triangle
    list: every index names a vertex, the indices come in threes, and (for
    flat meshes) every triangle winds counter-clockwise seen from +z. */
module TriangleLists {
  import opened Geometry

  /** Every index is below the vertex count. */
  predicate IndicesInBounds(indices: seq<nat>, vertexCount: nat) {
    forall i :: 0 <= i < |indices| ==> indices[i] < vertexCount
  }

  function TriangleCount(indices: seq<nat>): nat {
    |indices| / 3
  }

  /** Twice the signed area of the xy projection of a triangle; positive
      exactly for counter-clockwise winding. */
  function SignedArea2(a: Vec3, b: Vec3, c: Vec3): real {
    (b.x - a.x) * (c.y - a.y) - (c.x - a.x) * (b.y - a.y)
  }

  /** Twice the signed area of triangle `t` of an index list. */
  function TriangleArea2(positions: seq<Vec3>, indices: seq<nat>, t: nat): real
    requires IndicesInBounds(indices, |positions|)
    requires 3 * t + 2 < |indices|
  {
    SignedArea2(positions[indices[3 * t]], positions[indices[3 * t + 1]], positions[indices[3 * t + 2]])
  }

  /** A well-formed triangle list: whole triangles only, every index in
      range. */
  predicate IsTriangleList(positions: seq<Vec3>, indices: seq<nat>) {
    |indices| % 3 == 0 && IndicesInBounds(indices, |positions|)
  }

  /** Every triangle of the list winds counter-clockwise. */
  predicate CounterClockwise(positions: seq<Vec3>, indices: seq<nat>) {
    IsTriangleList(positions, indices) &&
    forall t: nat :: t < TriangleCount(indices) ==> TriangleArea2(positions, indices, t) > 0.0
  }

  /** Every position lies in the axis-aligned cube [-bound, bound]^3. */
  predicate WithinCube(positions: seq<Vec3>, bound: real) {
    forall i :: 0 <= i < |positions| ==>
      -bound <= positions[i].x <= bound && -bound <= positions[i].y <= bound &&
      -bound <= positions[i].z <= bound
  }

  /** Every texture coordinate lies in the unit square. */
  predicate WithinUnitSquare(coords: seq<Vec2>) {
    forall i :: 0 <= i < |coords| ==> 0.0 <= coords[i].x <= 1.0 && 0.0 <= coords[i].y <= 1.0
  }

  /** The cube tables draw their vertices in order: index i is i. */
  predicate IsIdentityIndexing(indices: seq<nat>, n: nat) {
    |indices| == n && forall i :: 0 <= i < n ==> indices[i] == i
  }
}
