/** The earlier, single-uniform shader values of the first renderer: a
    per-frame buffer holding the view-projection matrix and the elapsed
    time, written to the GPU by an explicit call and with no dirty flag; a
    per-model bind group of one texture and its sampler; and the layout of
    a coloured, textured vertex. */
module LegacyShaders {
  import opened Geometry
  import opened VertexLayouts
  import opened Shaders

  /** The bytes of the per-frame buffer; the padding rounds it up to a
      multiple of 16 bytes. */
  datatype PerFrameBufferData = PerFrameBufferData(viewProjection: Mat4, timeElapsedSeconds: real, padding: Vec3)

  const PER_FRAME_INITIAL: PerFrameBufferData := PerFrameBufferData(MAT4_IDENTITY, 0.0, ZERO3)

  class PerFrameUniforms {
    var bufferData: PerFrameBufferData
    /** What the GPU buffer holds. */
    var gpuCopy: PerFrameBufferData
    const bindGroup: seq<BindGroupEntry>

    /** `new`: the buffer is created from the initial values, so it starts
        in sync; the bind group binds it at slot 0. */
    constructor (buffer: Handle)
      ensures bufferData == PER_FRAME_INITIAL && gpuCopy == bufferData
      ensures bindGroup == UniformBufferBindGroup(buffer)
    {
      bufferData := PER_FRAME_INITIAL;
      gpuCopy := PER_FRAME_INITIAL;
      bindGroup := UniformBufferBindGroup(buffer);
    }

    /** Takes effect on the GPU only with the next `WriteToGpu`. */
    method SetViewProjection(viewProjection: Mat4)
      modifies this
      ensures bufferData == old(bufferData).(viewProjection := viewProjection)
      ensures gpuCopy == old(gpuCopy)
    {
      bufferData := bufferData.(viewProjection := viewProjection);
    }

    /** The elapsed time, a duration, converted to seconds. */
    method SetTimeElapsedSeconds(seconds: real)
      requires seconds >= 0.0
      modifies this
      ensures bufferData == old(bufferData).(timeElapsedSeconds := seconds)
      ensures gpuCopy == old(gpuCopy)
    {
      bufferData := bufferData.(timeElapsedSeconds := seconds);
    }

    /** The whole record is copied, unconditionally. */
    method WriteToGpu()
      modifies this
      ensures gpuCopy == bufferData && bufferData == old(bufferData)
    {
      gpuCopy := bufferData;
    }
  }

  /** Slot 0 the diffuse texture's view, slot 1 its sampler. */
  function PerModelLayout(): seq<LayoutEntry> {
    [LayoutEntry(0, FloatTexture2D), LayoutEntry(1, FilteringSampler)]
  }

  /** The bind group `PerModelUniforms::new` creates for a texture. */
  function PerModelBindGroup(textureView: Handle, sampler: Handle): (entries: seq<BindGroupEntry>)
    ensures Matches(entries, PerModelLayout())
    ensures |entries| == 2 && entries[0].resource == TextureViewBinding(textureView)
    ensures entries[1].resource == SamplerBinding(sampler)
  {
    [BindGroupEntry(0, TextureViewBinding(textureView)), BindGroupEntry(1, SamplerBinding(sampler))]
  }

  const VERTEX_LAYOUT: VertexBufferLayout := VertexBufferLayout(32, PerVertex,
    [VertexAttribute(0, 0, Float32x3), VertexAttribute(3 * 4, 1, Float32x3),
     VertexAttribute(3 * 4 + 3 * 4, 2, Float32x2)])

  lemma VertexLayoutPacked()
    ensures TightlyPacked(VERTEX_LAYOUT)
  {
    var fs := Formats(VERTEX_LAYOUT);
    assert fs == [Float32x3, Float32x3, Float32x2];
    assert SizeSum(fs[..0]) == 0;
    SizeSumPrefixStep(fs, 0);
    SizeSumPrefixStep(fs, 1);
    SizeSumPrefixStep(fs, 2);
    assert fs[..3] == fs;
  }

  /** `Vertex::desc()`: position, colour and texture coordinates at
      locations 0, 1 and 2, one after the other, filling the 32-byte vertex. */
  function VertexLayout(): (l: VertexBufferLayout)
    ensures l.arrayStride == 32 && l.stepMode == PerVertex
    ensures TightlyPacked(l) && AttributesFit(l) && AttributesDisjoint(l)
    ensures Locations(l) == {0, 1, 2}
  {
    VertexLayoutPacked();
    assert Locations(VERTEX_LAYOUT) == {0, 1, 2} by {
      var a := VERTEX_LAYOUT.attributes;
      assert a[0].shaderLocation == 0 && a[1].shaderLocation == 1 && a[2].shaderLocation == 2;
    }
    TightlyPackedIsSound(VERTEX_LAYOUT);
    VERTEX_LAYOUT
  }
}
