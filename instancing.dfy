/** Model instances: a position and a rotation per copy of a model, a grid
    generator for them, and the instance buffer that keeps a CPU array of
    their transforms and uploads it on request. */
module Instancing {
  import opened Geometry
  import opened VertexLayouts

  datatype ModelInstance = ModelInstance(position: Vec3, rotation: Quat)

  /** The instance in column x of row z: two units apart on the xz plane,
      shifted by the displacement, and turned by the angle about its own
      direction from the origin; the instance at the origin is not turned. */
  function GridInstance(m: Math, x: nat, z: nat, displacement: Vec3, angleRadians: real): (r: ModelInstance)
    ensures r.position == Sub3(Vec3(x as real * 2.0, 0.0, z as real * 2.0), displacement)
    ensures r.position == ZERO3 ==> r.rotation == m.axisAngle(UNIT_Z, 0.0)
    ensures r.position != ZERO3 ==> r.rotation == m.axisAngle(m.normalize(r.position), angleRadians)
  {
    var position := Sub3(Vec3(x as real * 2.0, 0.0, z as real * 2.0), displacement);
    var rotation := if position == ZERO3 then m.axisAngle(UNIT_Z, 0.0)
                    else m.axisAngle(m.normalize(position), angleRadians);
    ModelInstance(position, rotation)
  }

  /** One row of the grid, x from 0 up. */
  function GridRow(m: Math, z: nat, perRow: nat, displacement: Vec3, angleRadians: real): (r: seq<ModelInstance>)
    ensures |r| == perRow
    ensures forall x :: 0 <= x < perRow ==> r[x] == GridInstance(m, x, z, displacement, angleRadians)
  {
    seq(perRow, x requires 0 <= x => GridInstance(m, x, z, displacement, angleRadians))
  }

  /** `spawn_object_instances_as_grid`: the rows one after another, z from 0
      up (the outer loop of the source's `flat_map`). */
  function SpawnGrid(m: Math, numRows: nat, perRow: nat, displacement: Vec3, angleRadians: real)
    : seq<ModelInstance>
    decreases numRows
  {
    if numRows == 0 then []
    else SpawnGrid(m, numRows - 1, perRow, displacement, angleRadians) +
         GridRow(m, numRows - 1, perRow, displacement, angleRadians)
  }

  /** The position of column x of row z in a row-major sequence. */
  function RowMajorIndex(z: nat, x: nat, perRow: nat): nat {
    z * perRow + x
  }

  /** The grid holds `numRows * perRow` instances in row-major order:
      column x of row z is element `z * perRow + x`. */
  lemma {:induction false} SpawnGridRowMajor(m: Math, numRows: nat, perRow: nat, displacement: Vec3, angleRadians: real)
    ensures |SpawnGrid(m, numRows, perRow, displacement, angleRadians)| == numRows * perRow
    ensures forall z, x :: 0 <= z < numRows && 0 <= x < perRow ==>
              RowMajorIndex(z, x, perRow) < numRows * perRow &&
              SpawnGrid(m, numRows, perRow, displacement, angleRadians)[RowMajorIndex(z, x, perRow)] ==
              GridInstance(m, x, z, displacement, angleRadians)
    decreases numRows
  {
    if numRows > 0 {
      var last := numRows - 1;
      SpawnGridRowMajor(m, last, perRow, displacement, angleRadians);
      var front := SpawnGrid(m, last, perRow, displacement, angleRadians);
      var row := GridRow(m, last, perRow, displacement, angleRadians);
      var g := SpawnGrid(m, numRows, perRow, displacement, angleRadians);
      assert g == front + row;
      assert numRows * perRow == last * perRow + perRow;
      forall z, x | 0 <= z < numRows && 0 <= x < perRow
        ensures RowMajorIndex(z, x, perRow) < numRows * perRow
        ensures g[RowMajorIndex(z, x, perRow)] == GridInstance(m, x, z, displacement, angleRadians)
      {
        if z < last {
          assert z * perRow + x < last * perRow by {
            MulStrictlyBelow(z, last, perRow, x);
          }
          assert g[RowMajorIndex(z, x, perRow)] == front[RowMajorIndex(z, x, perRow)];
        } else {
          assert RowMajorIndex(z, x, perRow) == last * perRow + x;
          assert g[last * perRow + x] == row[x];
        }
      }
    }
  }

  /** A row before the last ends before the last row starts. */
  lemma MulStrictlyBelow(z: nat, last: nat, perRow: nat, x: nat)
    requires z < last && x < perRow
    ensures z * perRow + x < last * perRow
  {
    assert (z + 1) * perRow <= last * perRow by {
      assert last * perRow == (z + 1) * perRow + (last - z - 1) * perRow;
    }
  }

  /** Every element of the grid is some column of some row: the one this
      lemma returns. */
  lemma {:induction false} GridCellOf(numRows: nat, perRow: nat, k: nat) returns (z: nat, x: nat)
    requires k < numRows * perRow
    ensures z < numRows && x < perRow && k == RowMajorIndex(z, x, perRow)
    decreases numRows
  {
    var last := numRows - 1;
    assert numRows * perRow == last * perRow + perRow;
    if k < last * perRow {
      z, x := GridCellOf(last, perRow, k);
    } else {
      z, x := last, k - last * perRow;
    }
  }

  /** Two different grid cells hold instances at different positions. */
  lemma GridCellsApart(m: Math, xi: nat, zi: nat, xj: nat, zj: nat, displacement: Vec3, angleRadians: real)
    requires xi != xj || zi != zj
    ensures GridInstance(m, xi, zi, displacement, angleRadians).position !=
            GridInstance(m, xj, zj, displacement, angleRadians).position
  {
    if xi != xj {
      assert xi as real * 2.0 != xj as real * 2.0;
    } else {
      assert zi as real * 2.0 != zj as real * 2.0;
    }
  }

  /** No two grid instances share a position. */
  lemma SpawnGridPositionsDistinct(m: Math, numRows: nat, perRow: nat, displacement: Vec3, angleRadians: real,
                                   i: nat, j: nat)
    requires i < j < numRows * perRow
    ensures |SpawnGrid(m, numRows, perRow, displacement, angleRadians)| == numRows * perRow
    ensures SpawnGrid(m, numRows, perRow, displacement, angleRadians)[i].position !=
            SpawnGrid(m, numRows, perRow, displacement, angleRadians)[j].position
  {
    SpawnGridRowMajor(m, numRows, perRow, displacement, angleRadians);
    var zi, xi := GridCellOf(numRows, perRow, i);
    var zj, xj := GridCellOf(numRows, perRow, j);
    if xi == xj && zi == zj {
      assert false;
    }
    GridCellsApart(m, xi, zi, xj, zj, displacement, angleRadians);
  }

  /** The transform uploaded for an instance: its rotation, then its
      translation. */
  function InstanceTransform(m: Math, inst: ModelInstance): Mat4 {
    m.rotationTranslation(inst.rotation, inst.position)
  }

  function Transforms(m: Math, instances: seq<ModelInstance>): (r: seq<Mat4>)
    ensures |r| == |instances|
    ensures forall i :: 0 <= i < |r| ==> r[i] == InstanceTransform(m, instances[i])
  {
    seq(|instances|, i requires 0 <= i < |instances| => InstanceTransform(m, instances[i]))
  }

  class ModelInstanceBuffer {
    var instances: seq<ModelInstance>
    /** The transforms as last written to the CPU buffer. */
    const cpuBuffer: array<Mat4>
    /** What the GPU buffer holds. */
    var gpuCopy: seq<Mat4>

    ghost predicate Valid()
      reads this
    {
      cpuBuffer.Length == |instances|
    }

    /** `new`: one transform per instance, uploaded at creation. */
    constructor (m: Math, instances: seq<ModelInstance>)
      ensures Valid() && fresh(cpuBuffer)
      ensures this.instances == instances
      ensures cpuBuffer[..] == Transforms(m, instances) && gpuCopy == cpuBuffer[..]
    {
      this.instances := instances;
      var buffer := new Mat4[|instances|](i requires 0 <= i < |instances| => InstanceTransform(m, instances[i]));
      cpuBuffer := buffer;
      gpuCopy := buffer[..];
    }

    /** A write through `instances_mut`: one element is replaced; the number
        of instances cannot change, and neither buffer does until the next
        `WriteToGpu`. */
    method SetInstance(index: nat, inst: ModelInstance)
      requires Valid() && index < |instances|
      modifies this
      ensures Valid()
      ensures instances == old(instances)[index := inst]
      ensures gpuCopy == old(gpuCopy)
    {
      instances := instances[index := inst];
    }

    /** `write_to_gpu`: every CPU slot is refreshed from its instance, then
        the whole buffer is uploaded. */
    method WriteToGpu(m: Math)
      requires Valid()
      modifies this, cpuBuffer
      ensures Valid() && instances == old(instances)
      ensures cpuBuffer[..] == Transforms(m, instances)
      ensures gpuCopy == cpuBuffer[..]
    {
      for i := 0 to |instances|
        invariant Valid() && instances == old(instances)
        invariant forall k :: 0 <= k < i ==> cpuBuffer[k] == InstanceTransform(m, instances[k])
      {
        cpuBuffer[i] := InstanceTransform(m, instances[i]);
      }
      gpuCopy := cpuBuffer[..];
    }
  }

  const MODEL_INSTANCE_LAYOUT: VertexBufferLayout := VertexBufferLayout(64, PerInstance,
    [VertexAttribute(0, 3, Float32x4), VertexAttribute(4 * 4, 4, Float32x4),
     VertexAttribute(4 * 2 * 4, 5, Float32x4), VertexAttribute(4 * 3 * 4, 6, Float32x4)])

  lemma ModelInstanceLayoutPacked()
    ensures TightlyPacked(MODEL_INSTANCE_LAYOUT)
  {
    var fs := Formats(MODEL_INSTANCE_LAYOUT);
    assert fs == [Float32x4, Float32x4, Float32x4, Float32x4];
    assert SizeSum(fs[..0]) == 0;
    SizeSumPrefixStep(fs, 0);
    SizeSumPrefixStep(fs, 1);
    SizeSumPrefixStep(fs, 2);
    SizeSumPrefixStep(fs, 3);
    assert fs[..4] == fs;
  }

  /** `layout_desc()`: the 4x4 transform as four column vectors at
      locations 3 to 6, filling the 64-byte instance. */
  function ModelInstanceLayout(): (l: VertexBufferLayout)
    ensures l.arrayStride == 64 && l.stepMode == PerInstance
    ensures TightlyPacked(l) && AttributesFit(l) && AttributesDisjoint(l)
    ensures Locations(l) == {3, 4, 5, 6}
  {
    ModelInstanceLayoutPacked();
    assert Locations(MODEL_INSTANCE_LAYOUT) == {3, 4, 5, 6} by {
      var a := MODEL_INSTANCE_LAYOUT.attributes;
      assert a[0].shaderLocation == 3 && a[1].shaderLocation == 4;
      assert a[2].shaderLocation == 5 && a[3].shaderLocation == 6;
    }
    TightlyPackedIsSound(MODEL_INSTANCE_LAYOUT);
    MODEL_INSTANCE_LAYOUT
  }
}
