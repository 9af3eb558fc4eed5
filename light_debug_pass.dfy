/** The light debug overlay: one small tinted cube ("lamp") per point light,
    drawn over the finished frame. Lamps are collected every frame into a
    fixed buffer of 100 instances and the count is reset once the frame is
    finished; nothing is retained between frames. */
module LightDebugPass {
  import opened Geometry
  import opened Shading
  import opened GpuBuffers
  import opened Scenes
  import opened VertexLayouts
  import opened RenderPasses
  import Debug

  /** The per-instance data of one lamp. */
  datatype DebugMeshPackedInstance = DebugMeshPackedInstance(localToWorld: Mat4, colorTint: Vec3, padding: real)

  /** An unused slot: identity transform, white tint. */
  const DEFAULT_INSTANCE: DebugMeshPackedInstance := DebugMeshPackedInstance(MAT4_IDENTITY, ONE3, 0.0)

  /** Slots in the lamp instance buffer. */
  const LAMP_CAPACITY: nat := 100

  /** Lamps are drawn at a fifth of the debug cube's size. */
  const LAMP_SCALE: Vec3 := Vec3(0.2, 0.2, 0.2)

  /** The slot contents for a light: its colour as the tint, and a transform
      that scales the cube down and moves it to the light. The padding is kept. */
  function LampInstance(m: Math, inst: DebugMeshPackedInstance, light: PointLight): (r: DebugMeshPackedInstance)
    ensures r.colorTint == light.color && r.padding == inst.padding
    ensures r.localToWorld == m.scaleRotationTranslation(LAMP_SCALE, QUAT_IDENTITY, light.position)
  {
    inst.(colorTint := light.color,
          localToWorld := m.scaleRotationTranslation(LAMP_SCALE, QUAT_IDENTITY, light.position))
  }

  /** The instances after the lights were added one by one from slot `start`. */
  function FillLamps(m: Math, insts: seq<DebugMeshPackedInstance>, start: nat, lights: seq<PointLight>)
    : (r: seq<DebugMeshPackedInstance>)
    requires start + |lights| <= |insts|
    ensures |r| == |insts|
    decreases |lights|
  {
    if lights == [] then insts
    else
      var prev := FillLamps(m, insts, start, lights[..|lights| - 1]);
      prev[start + |lights| - 1 := LampInstance(m, prev[start + |lights| - 1], lights[|lights| - 1])]
  }

  /** The k-th light lands in slot `start + k`; every other slot is untouched. */
  lemma {:induction false} FillLampsPlaces(m: Math, insts: seq<DebugMeshPackedInstance>, start: nat,
                                           lights: seq<PointLight>)
    requires start + |lights| <= |insts|
    ensures forall k :: 0 <= k < |lights| ==>
              FillLamps(m, insts, start, lights)[start + k] == LampInstance(m, insts[start + k], lights[k])
    ensures forall i :: 0 <= i < |insts| && !(start <= i < start + |lights|) ==>
              FillLamps(m, insts, start, lights)[i] == insts[i]
    decreases |lights|
  {
    if lights != [] {
      var init := lights[..|lights| - 1];
      FillLampsPlaces(m, insts, start, init);
      forall k | 0 <= k < |init| ensures init[k] == lights[k] { }
    }
  }

  /** The lamp instance buffer. */
  class DebugMeshInstanceBuffer {
    const buffer: InstanceBuffer<DebugMeshPackedInstance>

    ghost predicate Valid()
      reads this, buffer
    {
      buffer.Valid() && |buffer.instances| == LAMP_CAPACITY
    }

    /** One hundred unused slots, uploaded at creation. */
    constructor ()
      ensures Valid() && fresh(buffer)
      ensures buffer.State() == Created(seq(LAMP_CAPACITY, _ => DEFAULT_INSTANCE))
    {
      buffer := new InstanceBuffer(seq(LAMP_CAPACITY, _ => DEFAULT_INSTANCE));
    }

    /** `set_local_to_world`: only that slot's transform changes. */
    method SetLocalToWorld(index: nat, localToWorld: Mat4)
      requires Valid() && index < LAMP_CAPACITY
      modifies buffer
      ensures Valid()
      ensures buffer.State() == Written(old(buffer.State()),
                old(buffer.instances)[index := old(buffer.instances[index]).(localToWorld := localToWorld)])
    {
      var v := buffer.Values(index);
      buffer.ValuesMut(index, v.(localToWorld := localToWorld));
    }

    /** `set_color_tint`: only that slot's tint changes. */
    method SetColorTint(index: nat, color: Vec3)
      requires Valid() && index < LAMP_CAPACITY
      modifies buffer
      ensures Valid()
      ensures buffer.State() == Written(old(buffer.State()),
                old(buffer.instances)[index := old(buffer.instances[index]).(colorTint := color)])
    {
      var v := buffer.Values(index);
      buffer.ValuesMut(index, v.(colorTint := color));
    }

    method UpdateGpu()
      requires Valid()
      modifies buffer
      ensures Valid()
      ensures buffer.State() == Uploaded(old(buffer.State()))
    {
      buffer.UpdateGpu();
    }

    method IsDirty() returns (d: bool)
      requires Valid()
      ensures d == buffer.dirty
      ensures !d ==> buffer.gpuCopy == buffer.instances
    {
      d := buffer.IsDirty();
    }
  }

  class LightDebugPass {
    const lampInstances: DebugMeshInstanceBuffer
    /** Lamps added since the last finished frame. */
    var lampCount: nat

    ghost predicate Valid()
      reads this, lampInstances, lampInstances.buffer
    {
      lampInstances.Valid() && lampCount <= LAMP_CAPACITY
    }

    function Instances(): seq<DebugMeshPackedInstance>
      reads this, lampInstances, lampInstances.buffer
    {
      lampInstances.buffer.instances
    }

    constructor ()
      ensures Valid() && fresh(lampInstances) && fresh(lampInstances.buffer)
      ensures lampCount == 0
      ensures lampInstances.buffer.State() == Created(seq(LAMP_CAPACITY, _ => DEFAULT_INSTANCE))
    {
      lampInstances := new DebugMeshInstanceBuffer();
      lampCount := 0;
    }

    /** `add_point_light`: the next free slot shows the light. Adding more
        lamps than the buffer holds panics in the source. */
    method AddPointLight(m: Math, light: PointLight)
      requires Valid() && lampCount < LAMP_CAPACITY
      modifies this, lampInstances.buffer
      ensures Valid()
      ensures lampCount == old(lampCount) + 1
      ensures lampInstances.buffer.State() ==
              Written(old(lampInstances.buffer.State()),
                      old(Instances())[old(lampCount) := LampInstance(m, old(Instances())[old(lampCount)], light)])
    {
      ghost var before := Instances();
      lampInstances.SetColorTint(lampCount, light.color);
      assert Instances() == before[lampCount := before[lampCount].(colorTint := light.color)];
      lampInstances.SetLocalToWorld(lampCount, m.scaleRotationTranslation(LAMP_SCALE, QUAT_IDENTITY, light.position));
      assert Instances() == before[lampCount := LampInstance(m, before[lampCount], light)];
      lampCount := lampCount + 1;
    }

    /** `prepare`: one lamp per point light of the scene, in order, after
        the lamps already added this frame; then the buffer is uploaded if
        anything changed, so the GPU copy ends up equal to the slots. */
    method Prepare(m: Math, scene: Scene)
      requires Valid() && lampCount + |scene.pointLights| <= LAMP_CAPACITY
      modifies this, lampInstances.buffer
      ensures Valid()
      ensures lampCount == old(lampCount) + |scene.pointLights|
      ensures Instances() == FillLamps(m, old(Instances()), old(lampCount), scene.pointLights)
      ensures !lampInstances.buffer.dirty && lampInstances.buffer.gpuCopy == Instances()
      ensures scene.pointLights == [] && !old(lampInstances.buffer.dirty) ==>
                lampInstances.buffer.State() == old(lampInstances.buffer.State())
    {
      var lights := scene.pointLights;
      for i := 0 to |lights|
        invariant Valid()
        invariant lampCount == old(lampCount) + i
        invariant Instances() == FillLamps(m, old(Instances()), old(lampCount), lights[..i])
        invariant lampInstances.buffer.dirty == (old(lampInstances.buffer.dirty) || i > 0)
        invariant i == 0 ==> lampInstances.buffer.State() == old(lampInstances.buffer.State())
      {
        AddPointLight(m, lights[i]);
        assert lights[..i + 1][..i] == lights[..i];
      }
      assert lights[..|lights|] == lights;
      var dirty := lampInstances.IsDirty();
      if dirty {
        lampInstances.UpdateGpu();
      }
    }

    /** `draw`: an overlay pass that keeps the frame's colour and depth and
        draws every index of the debug cube once per lamp added this frame. */
    method Draw() returns (pass: PassRecord)
      requires Valid()
      ensures pass.LightDebugOverlay? && pass.colorLoad.Load? && pass.depthLoad.Load?
      ensures pass.draw == DrawIndexed(0, |Debug.CUBE_INDICES|, 0, 0, lampCount)
      ensures pass.draw.indexEnd == 36 && pass.draw.instanceEnd <= LAMP_CAPACITY
    {
      Debug.CubeTablesWellFormed();
      pass := LightDebugOverlay(Load, Load, DrawIndexed(0, |Debug.CUBE_INDICES|, 0, 0, lampCount));
    }

    /** `finish_frame`: the next frame starts from slot 0. The slots keep
        their contents until they are overwritten. */
    method FinishFrame()
      requires Valid()
      modifies this
      ensures Valid() && lampCount == 0
    {
      lampCount := 0;
    }
  }

  /** The per-instance vertex layout: the transform as four column vectors at
      locations 2 to 5, the tint at location 6. */
  const INSTANCE_LAYOUT: VertexBufferLayout := VertexBufferLayout(80, PerInstance,
    [VertexAttribute(0, 2, Float32x4), VertexAttribute(4 * 4, 3, Float32x4),
     VertexAttribute(8 * 4, 4, Float32x4), VertexAttribute(12 * 4, 5, Float32x4),
     VertexAttribute(16 * 4, 6, Float32x4)])

  lemma InstanceLayoutPacked()
    ensures TightlyPacked(INSTANCE_LAYOUT)
  {
    var fs := Formats(INSTANCE_LAYOUT);
    assert fs == [Float32x4, Float32x4, Float32x4, Float32x4, Float32x4];
    assert SizeSum(fs[..0]) == 0;
    SizeSumPrefixStep(fs, 0);
    SizeSumPrefixStep(fs, 1);
    SizeSumPrefixStep(fs, 2);
    SizeSumPrefixStep(fs, 3);
    SizeSumPrefixStep(fs, 4);
    assert fs[..5] == fs;
  }

  lemma InstanceLayoutLocations()
    ensures Locations(INSTANCE_LAYOUT) == {2, 3, 4, 5, 6}
  {
    var l := INSTANCE_LAYOUT;
    assert l.attributes[0].shaderLocation == 2 && l.attributes[1].shaderLocation == 3;
    assert l.attributes[2].shaderLocation == 4 && l.attributes[3].shaderLocation == 5;
    assert l.attributes[4].shaderLocation == 6;
  }

  lemma LocationSetsDisjoint(vertexLocations: set<nat>, instanceLocations: set<nat>)
    requires vertexLocations == {0, 1} && instanceLocations == {2, 3, 4, 5, 6}
    ensures vertexLocations !! instanceLocations
  {
  }

  /** `vertex_layout()` of the lamp instances. Its locations follow the two
      of the debug cube's vertices, so the two buffers can be bound together. */
  function DebugMeshInstanceLayout(): (l: VertexBufferLayout)
    ensures l.arrayStride == 80 && l.stepMode == PerInstance
    ensures TightlyPacked(l) && AttributesFit(l) && AttributesDisjoint(l)
    ensures Locations(l) == {2, 3, 4, 5, 6}
    ensures Locations(l) !! Locations(Debug.DebugVertexLayout())
  {
    InstanceLayoutPacked();
    InstanceLayoutLocations();
    TightlyPackedIsSound(INSTANCE_LAYOUT);
    LocationSetsDisjoint(Locations(Debug.DebugVertexLayout()), Locations(INSTANCE_LAYOUT));
    INSTANCE_LAYOUT
  }
}
