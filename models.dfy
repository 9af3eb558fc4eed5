/** The earlier instance buffer and grid generator. The buffer is filled
    once at creation and never changed; the grid turns every instance off
    the origin by a fixed 45 degrees. */
module LegacyModels {
  import opened Geometry
  import opened Instancing

  /** The fixed turn of the earlier grid. */
  function LegacyGridAngle(m: Math): real {
    m.toRadians(45.0)
  }

  /** `spawn_object_instances_as_grid` without an angle parameter: the
      same grid as the later generator with the angle fixed at 45 degrees. */
  function SpawnLegacyGrid(m: Math, numRows: nat, perRow: nat, displacement: Vec3): (r: seq<ModelInstance>)
    ensures |r| == numRows * perRow
    ensures forall z, x :: 0 <= z < numRows && 0 <= x < perRow ==>
              RowMajorIndex(z, x, perRow) < |r| &&
              r[RowMajorIndex(z, x, perRow)] == GridInstance(m, x, z, displacement, LegacyGridAngle(m))
  {
    SpawnGridRowMajor(m, numRows, perRow, displacement, LegacyGridAngle(m));
    SpawnGrid(m, numRows, perRow, displacement, LegacyGridAngle(m))
  }

  /** The earlier transform: the translation applied after the rotation,
      as a product of two matrices. */
  function LegacyInstanceTransform(m: Math, inst: ModelInstance): Mat4 {
    m.mul(m.translation(inst.position), m.fromQuat(inst.rotation))
  }

  datatype LegacyInstanceBuffer = LegacyInstanceBuffer(instances: seq<ModelInstance>, cpuBuffer: seq<Mat4>,
                                                       gpuCopy: seq<Mat4>)

  /** `new`: one transform per instance, uploaded at creation. */
  function NewLegacyInstanceBuffer(m: Math, instances: seq<ModelInstance>): (b: LegacyInstanceBuffer)
    ensures b.instances == instances && |b.cpuBuffer| == |instances| && b.gpuCopy == b.cpuBuffer
    ensures forall i :: 0 <= i < |instances| ==> b.cpuBuffer[i] == LegacyInstanceTransform(m, instances[i])
  {
    var transforms := seq(|instances|, i requires 0 <= i < |instances| => LegacyInstanceTransform(m, instances[i]));
    LegacyInstanceBuffer(instances, transforms, transforms)
  }

  function InstancesCount(b: LegacyInstanceBuffer): nat {
    |b.instances|
  }

  /** A new buffer holds one transform per instance counted. */
  lemma NewBufferCountsItsInstances(m: Math, instances: seq<ModelInstance>)
    ensures InstancesCount(NewLegacyInstanceBuffer(m, instances)) == |instances|
    ensures |NewLegacyInstanceBuffer(m, instances).gpuCopy| == InstancesCount(NewLegacyInstanceBuffer(m, instances))
  {
  }
}
