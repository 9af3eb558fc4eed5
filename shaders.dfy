/** The uniform aggregates of the lit shader: per-frame values (camera,
    directional and spot lights, time, output format), per-model values
    (transforms and point lights) and per-submesh values (material constants
    and texture bindings). Lights are appended to fixed-capacity slot arrays
    with a count; a full array ignores further lights. Every setter goes
    through `values_mut` of the underlying dirty-tracked buffer. */
module Shaders {
  import opened Geometry
  import opened Shading
  import opened PackedStructs
  import opened GpuBuffers

  /** Capacities the shader source is compiled with. */
  const MAX_POINT_LIGHTS: nat := 4
  const MAX_DIRECTIONAL_LIGHTS: nat := 3
  const MAX_SPOT_LIGHTS: nat := 2

  // ---- fixed-capacity light arrays ----

  /** A fixed-size array of packed lights and the number of slots in use. */
  datatype LightSlots<L> = LightSlots(slots: seq<L>, count: nat)

  ghost predicate SlotsValid<L>(s: LightSlots<L>, capacity: nat) {
    |s.slots| == capacity && s.count <= capacity
  }

  /** The lights the shader reads: the first `count` slots. */
  function ActiveLights<L>(s: LightSlots<L>): seq<L>
    requires s.count <= |s.slots|
  {
    s.slots[..s.count]
  }

  /** An array of `capacity` default slots, none in use. */
  function EmptySlots<L>(capacity: nat, default: L): (s: LightSlots<L>)
    ensures SlotsValid(s, capacity) && ActiveLights(s) == []
  {
    LightSlots(seq(capacity, _ => default), 0)
  }

  /** Store `light` in slot `count` and bump the count, unless the array is
      full, in which case nothing changes. */
  function AddIfRoom<L>(s: LightSlots<L>, capacity: nat, light: L): (r: LightSlots<L>)
    requires |s.slots| == capacity
    ensures |r.slots| == capacity
    ensures SlotsValid(s, capacity) ==> SlotsValid(r, capacity)
    ensures SlotsValid(s, capacity) ==>
            ActiveLights(r) == if s.count < capacity then ActiveLights(s) + [light] else ActiveLights(s)
    ensures forall k :: 0 <= k < capacity && k != s.count ==> r.slots[k] == s.slots[k]
    ensures s.count >= capacity ==> r == s
  {
    if s.count < capacity then
      var r := LightSlots(s.slots[s.count := light], s.count + 1);
      assert r.slots[..r.count] == s.slots[..s.count] + [light];
      r
    else
      s
  }

  /** Reset the count; the stored slots stay as they were. */
  function ClearedSlots<L>(s: LightSlots<L>): (r: LightSlots<L>)
    ensures r.slots == s.slots && r.count == 0 && ActiveLights(r) == []
  {
    s.(count := 0)
  }

  /** `AddIfRoom` for each light in order. */
  function AddAll<L>(s: LightSlots<L>, capacity: nat, lights: seq<L>): LightSlots<L>
    requires |s.slots| == capacity
    decreases |lights|
  {
    if lights == [] then s
    else AddAll(AddIfRoom(s, capacity, lights[0]), capacity, lights[1..])
  }

  function Min(a: nat, b: nat): nat { if a <= b then a else b }

  /** Adding lights one by one keeps the first ones that fit, in order, and
      drops the rest. */
  lemma {:induction false} AddAllKeepsFirstThatFit<L>(s: LightSlots<L>, capacity: nat, lights: seq<L>)
    requires SlotsValid(s, capacity)
    ensures SlotsValid(AddAll(s, capacity, lights), capacity)
    ensures ActiveLights(AddAll(s, capacity, lights)) ==
            (ActiveLights(s) + lights)[..Min(capacity, s.count + |lights|)]
    decreases |lights|
  {
    if lights != [] {
      var s' := AddIfRoom(s, capacity, lights[0]);
      AddAllKeepsFirstThatFit(s', capacity, lights[1..]);
      var n := Min(capacity, s.count + |lights|);
      if s.count < capacity {
        assert ActiveLights(s') + lights[1..] == ActiveLights(s) + lights;
      } else {
        assert s' == s;
        assert s.count == capacity && n == capacity;
        assert (ActiveLights(s) + lights[1..])[..capacity] == ActiveLights(s);
        assert (ActiveLights(s) + lights)[..capacity] == ActiveLights(s);
      }
    }
  }

  /** After clearing, a frame's worth of lights leaves exactly the first
      `capacity` of them active. */
  lemma ClearThenAddAll<L>(s: LightSlots<L>, capacity: nat, lights: seq<L>)
    requires SlotsValid(s, capacity)
    ensures SlotsValid(AddAll(ClearedSlots(s), capacity, lights), capacity)
    ensures ActiveLights(AddAll(ClearedSlots(s), capacity, lights)) == lights[..Min(capacity, |lights|)]
  {
    AddAllKeepsFirstThatFit(ClearedSlots(s), capacity, lights);
  }

  // ---- bindings ----

  /** The kind of resource a bind group layout entry expects. */
  datatype BindingKind = UniformBuffer | FilteringSampler | FloatTexture2D

  datatype LayoutEntry = LayoutEntry(binding: nat, kind: BindingKind)

  /** A resource bound in a bind group: a buffer, a sampler, or the default
      view of a texture. */
  datatype BindingResource = BufferBinding(buffer: Handle) | SamplerBinding(sampler: Handle)
                           | TextureViewBinding(texture: Handle)

  datatype BindGroupEntry = BindGroupEntry(binding: nat, resource: BindingResource)

  function KindOf(r: BindingResource): BindingKind {
    match r
    case BufferBinding(_) => UniformBuffer
    case SamplerBinding(_) => FilteringSampler
    case TextureViewBinding(_) => FloatTexture2D
  }

  /** A bind group fits a layout when entry by entry the slots agree and
      each resource is of the kind the layout expects. */
  ghost predicate Matches(entries: seq<BindGroupEntry>, layout: seq<LayoutEntry>) {
    |entries| == |layout| &&
    forall i :: 0 <= i < |entries| ==>
      entries[i].binding == layout[i].binding && KindOf(entries[i].resource) == layout[i].kind
  }

  /** The layout of the per-frame and of the per-model bind group: one
      uniform buffer at binding 0. */
  function UniformBufferLayout(): (layout: seq<LayoutEntry>)
    ensures |layout| == 1 && layout[0].binding == 0 && layout[0].kind == UniformBuffer
  {
    [LayoutEntry(0, UniformBuffer)]
  }

  /** The bind group `GenericUniformBuffer::new` creates for its buffer. */
  function UniformBufferBindGroup(buffer: Handle): (entries: seq<BindGroupEntry>)
    ensures Matches(entries, UniformBufferLayout())
  {
    [BindGroupEntry(0, BufferBinding(buffer))]
  }

  // ---- per-frame uniforms ----

  datatype PerFramePackedUniforms = PerFramePackedUniforms(
    viewProjection: Mat4,
    viewPos: Vec4,
    directionalLights: LightSlots<PackedDirectionalLight>,
    spotLights: LightSlots<PackedSpotLight>,
    outputIsSrgb: nat,
    timeElapsedSeconds: real)

  ghost predicate PerFrameWellFormed(u: PerFramePackedUniforms) {
    SlotsValid(u.directionalLights, MAX_DIRECTIONAL_LIGHTS) && SlotsValid(u.spotLights, MAX_SPOT_LIGHTS)
  }

  /** `Default::default()`: identity projection, everything else zero. */
  const PER_FRAME_DEFAULT: PerFramePackedUniforms :=
    PerFramePackedUniforms(
      MAT4_IDENTITY, ZERO4,
      EmptySlots(MAX_DIRECTIONAL_LIGHTS, DIRECTIONAL_LIGHT_DEFAULT),
      EmptySlots(MAX_SPOT_LIGHTS, SPOT_LIGHT_DEFAULT),
      0, 0.0)

  class PerFrameShaderVals {
    const uniforms: GenericUniformBuffer<PerFramePackedUniforms>

    ghost predicate Valid()
      reads this, uniforms
    {
      uniforms.Valid() && PerFrameWellFormed(uniforms.values)
    }

    function Values(): PerFramePackedUniforms
      reads this, uniforms
    {
      uniforms.values
    }

    constructor (bindGroup: Handle)
      ensures Valid() && fresh(uniforms)
      ensures uniforms.State() == Created(PER_FRAME_DEFAULT)
      ensures uniforms.bindGroup == bindGroup
    {
      uniforms := new GenericUniformBuffer(PER_FRAME_DEFAULT, bindGroup);
    }

    method SetViewProjection(viewProjection: Mat4)
      requires Valid()
      modifies uniforms
      ensures Valid()
      ensures uniforms.State() ==
              Written(old(uniforms.State()), old(Values()).(viewProjection := viewProjection))
    {
      uniforms.ValuesMut(uniforms.values.(viewProjection := viewProjection));
    }

    /** The camera position is stored as a point: w = 1. */
    method SetViewPos(viewPos: Vec3)
      requires Valid()
      modifies uniforms
      ensures Valid()
      ensures Values().viewPos == Vec4(viewPos.x, viewPos.y, viewPos.z, 1.0)
      ensures uniforms.State() ==
              Written(old(uniforms.State()), old(Values()).(viewPos := Vec4(viewPos.x, viewPos.y, viewPos.z, 1.0)))
    {
      uniforms.ValuesMut(uniforms.values.(viewPos := Vec4(viewPos.x, viewPos.y, viewPos.z, 1.0)));
    }

    /** Both counts go to zero (two `values_mut` calls); the slots are kept. */
    method ClearLights()
      requires Valid()
      modifies uniforms
      ensures Valid()
      ensures ActiveLights(Values().directionalLights) == [] && ActiveLights(Values().spotLights) == []
      ensures uniforms.State() ==
              Written(old(uniforms.State()),
                      old(Values()).(directionalLights := ClearedSlots(old(Values()).directionalLights),
                                     spotLights := ClearedSlots(old(Values()).spotLights)))
    {
      uniforms.ValuesMut(uniforms.values.(directionalLights := ClearedSlots(uniforms.values.directionalLights)));
      uniforms.ValuesMut(uniforms.values.(spotLights := ClearedSlots(uniforms.values.spotLights)));
    }

    /** Marks the buffer dirty, then appends the packed light if one of the
        three slots is free. */
    method AddDirectionalLight(m: Math, light: DirectionalLight)
      requires Valid()
      modifies uniforms
      ensures Valid()
      ensures uniforms.State() ==
              Written(old(uniforms.State()),
                      old(Values()).(directionalLights := AddIfRoom(old(Values()).directionalLights,
                                                                   MAX_DIRECTIONAL_LIGHTS,
                                                                   PackDirectionalLight(m, light))))
    {
      var u := uniforms.values;
      var lights := u.directionalLights;
      if lights.count < MAX_DIRECTIONAL_LIGHTS {
        lights := LightSlots(lights.slots[lights.count := PackDirectionalLight(m, light)], lights.count + 1);
      }
      uniforms.ValuesMut(u.(directionalLights := lights));
    }

    /** The same append-if-room rule with the two spot-light slots. */
    method AddSpotLight(m: Math, light: SpotLight)
      requires Valid()
      modifies uniforms
      ensures Valid()
      ensures uniforms.State() ==
              Written(old(uniforms.State()),
                      old(Values()).(spotLights := AddIfRoom(old(Values()).spotLights,
                                                            MAX_SPOT_LIGHTS, PackSpotLight(m, light))))
    {
      var u := uniforms.values;
      var lights := u.spotLights;
      if lights.count < MAX_SPOT_LIGHTS {
        lights := LightSlots(lights.slots[lights.count := PackSpotLight(m, light)], lights.count + 1);
      }
      uniforms.ValuesMut(u.(spotLights := lights));
    }

    /** `time_elapsed.as_secs_f32()` is given as `seconds`. */
    method SetTimeElapsedSeconds(seconds: real)
      requires Valid()
      modifies uniforms
      ensures Valid()
      ensures uniforms.State() ==
              Written(old(uniforms.State()), old(Values()).(timeElapsedSeconds := seconds))
    {
      uniforms.ValuesMut(uniforms.values.(timeElapsedSeconds := seconds));
    }

    /** The flag is stored as the integer 1 or 0. */
    method SetOutputIsSrgb(isSrgb: bool)
      requires Valid()
      modifies uniforms
      ensures Valid()
      ensures Values().outputIsSrgb == (if isSrgb then 1 else 0)
      ensures uniforms.State() ==
              Written(old(uniforms.State()), old(Values()).(outputIsSrgb := if isSrgb then 1 else 0))
    {
      uniforms.ValuesMut(uniforms.values.(outputIsSrgb := if isSrgb then 1 else 0));
    }

    method UpdateGpu()
      requires Valid()
      modifies uniforms
      ensures Valid()
      ensures uniforms.State() == Uploaded(old(uniforms.State()))
    {
      uniforms.UpdateGpu();
    }

    method IsDirty() returns (d: bool)
      requires Valid()
      ensures d == uniforms.dirty
      ensures !d ==> uniforms.gpuCopy == uniforms.values
    {
      d := uniforms.IsDirty();
    }
  }

  // ---- per-model uniforms ----

  datatype PerModelPackedUniforms = PerModelPackedUniforms(
    localToWorld: Mat4,
    worldToLocal: Mat4,
    pointLights: LightSlots<PackedPointLight>,
    padding: seq<nat>)

  ghost predicate PerModelWellFormed(u: PerModelPackedUniforms) {
    SlotsValid(u.pointLights, MAX_POINT_LIGHTS)
  }

  const PER_MODEL_DEFAULT: PerModelPackedUniforms :=
    PerModelPackedUniforms(MAT4_IDENTITY, MAT4_IDENTITY,
                           EmptySlots(MAX_POINT_LIGHTS, POINT_LIGHT_DEFAULT), [0, 0, 0])

  class PerModelShaderVals {
    const uniforms: GenericUniformBuffer<PerModelPackedUniforms>

    ghost predicate Valid()
      reads this, uniforms
    {
      uniforms.Valid() && PerModelWellFormed(uniforms.values)
    }

    function Values(): PerModelPackedUniforms
      reads this, uniforms
    {
      uniforms.values
    }

    constructor (bindGroup: Handle)
      ensures Valid() && fresh(uniforms)
      ensures uniforms.State() == Created(PER_MODEL_DEFAULT)
      ensures uniforms.bindGroup == bindGroup
    {
      uniforms := new GenericUniformBuffer(PER_MODEL_DEFAULT, bindGroup);
    }

    /** Stores the transform and its inverse (two `values_mut` calls). */
    method SetLocalToWorld(m: Math, localToWorld: Mat4)
      requires Valid()
      modifies uniforms
      ensures Valid()
      ensures uniforms.State() ==
              Written(old(uniforms.State()),
                      old(Values()).(localToWorld := localToWorld, worldToLocal := m.inverse(localToWorld)))
    {
      uniforms.ValuesMut(uniforms.values.(localToWorld := localToWorld));
      uniforms.ValuesMut(uniforms.values.(worldToLocal := m.inverse(localToWorld)));
    }

    method ClearLights()
      requires Valid()
      modifies uniforms
      ensures Valid()
      ensures ActiveLights(Values().pointLights) == []
      ensures uniforms.State() ==
              Written(old(uniforms.State()),
                      old(Values()).(pointLights := ClearedSlots(old(Values()).pointLights)))
    {
      uniforms.ValuesMut(uniforms.values.(pointLights := ClearedSlots(uniforms.values.pointLights)));
    }

    /** Appends the packed light if one of the four slots is free. The source
        debug-asserts that the ambient and specular amounts lie in [0, 1]. */
    method AddPointLight(light: PointLight)
      requires Valid()
      requires 0.0 <= light.ambient <= 1.0 && 0.0 <= light.specular <= 1.0
      modifies uniforms
      ensures Valid()
      ensures uniforms.State() ==
              Written(old(uniforms.State()),
                      old(Values()).(pointLights := AddIfRoom(old(Values()).pointLights,
                                                             MAX_POINT_LIGHTS, PackPointLight(light))))
    {
      var u := uniforms.values;
      var lights := u.pointLights;
      if lights.count < MAX_POINT_LIGHTS {
        lights := LightSlots(lights.slots[lights.count := PackPointLight(light)], lights.count + 1);
      }
      uniforms.ValuesMut(u.(pointLights := lights));
    }

    method UpdateGpu()
      requires Valid()
      modifies uniforms
      ensures Valid()
      ensures uniforms.State() == Uploaded(old(uniforms.State()))
    {
      uniforms.UpdateGpu();
    }

    method IsDirty() returns (d: bool)
      requires Valid()
      ensures d == uniforms.dirty
      ensures !d ==> uniforms.gpuCopy == uniforms.values
    {
      d := uniforms.IsDirty();
    }
  }

  // ---- per-submesh uniforms ----

  const UNIFORMS_BINDING_SLOT: nat := 0
  const SAMPLER_BINDING_SLOT: nat := 1
  const DIFFUSE_VIEW_BINDING_SLOT: nat := 2
  const SPECULAR_VIEW_BINDING_SLOT: nat := 3
  const EMISSIVE_VIEW_BINDING_SLOT: nat := 4

  /** The per-submesh layout: the uniform buffer, a filtering sampler and the
      diffuse, specular and emissive textures, at slots 0 to 4. */
  function PerSubmeshLayout(): seq<LayoutEntry> {
    [LayoutEntry(UNIFORMS_BINDING_SLOT, UniformBuffer),
     LayoutEntry(SAMPLER_BINDING_SLOT, FilteringSampler),
     LayoutEntry(DIFFUSE_VIEW_BINDING_SLOT, FloatTexture2D),
     LayoutEntry(SPECULAR_VIEW_BINDING_SLOT, FloatTexture2D),
     LayoutEntry(EMISSIVE_VIEW_BINDING_SLOT, FloatTexture2D)]
  }

  /** The bind group `PerSubmeshShaderVals::new` creates. */
  function PerSubmeshBindGroup(buffer: Handle, sampler: Handle, material: Material): (entries: seq<BindGroupEntry>)
    ensures Matches(entries, PerSubmeshLayout())
    ensures forall i :: 0 <= i < |entries| ==> entries[i].binding == i
    ensures entries[2].resource == TextureViewBinding(material.diffuseMap)
    ensures entries[3].resource == TextureViewBinding(material.specularMap)
    ensures entries[4].resource == TextureViewBinding(material.emissiveMap)
  {
    [BindGroupEntry(UNIFORMS_BINDING_SLOT, BufferBinding(buffer)),
     BindGroupEntry(SAMPLER_BINDING_SLOT, SamplerBinding(sampler)),
     BindGroupEntry(DIFFUSE_VIEW_BINDING_SLOT, TextureViewBinding(material.diffuseMap)),
     BindGroupEntry(SPECULAR_VIEW_BINDING_SLOT, TextureViewBinding(material.specularMap)),
     BindGroupEntry(EMISSIVE_VIEW_BINDING_SLOT, TextureViewBinding(material.emissiveMap))]
  }

  /** Material constants and texture bindings for one submesh. It has no
      setter, so it is never dirty. */
  class PerSubmeshShaderVals {
    const uniforms: PackedMaterialConstants
    var gpuCopy: PackedMaterialConstants
    var dirty: bool
    const bindGroup: seq<BindGroupEntry>

    ghost predicate Valid()
      reads this
    {
      !dirty && gpuCopy == uniforms && Matches(bindGroup, PerSubmeshLayout())
    }

    constructor (m: Math, material: Material, buffer: Handle, sampler: Handle)
      ensures Valid()
      ensures uniforms == PackMaterial(material) && gpuCopy == uniforms
      ensures bindGroup == PerSubmeshBindGroup(buffer, sampler, material)
    {
      uniforms := PackMaterial(material);
      gpuCopy := PackMaterial(material);
      dirty := false;
      bindGroup := PerSubmeshBindGroup(buffer, sampler, material);
    }

    method UpdateGpu()
      requires Valid()
      modifies this
      ensures Valid()
      ensures gpuCopy == uniforms && !dirty
    {
      dirty := false;
      gpuCopy := uniforms;
    }

    method IsDirty() returns (d: bool)
      requires Valid()
      ensures !d
      ensures d == dirty
    {
      d := dirty;
    }
  }
}
