/** CPU-side mirrors of GPU buffers with a dirty flag.

    A buffer keeps the values the program edits (`values`), an abstract
    picture of what the GPU currently holds (`gpuCopy`) and a flag saying the
    two may differ. Handing out a mutable reference marks the buffer dirty
    whether or not the caller writes; uploading copies the values across and
    clears the flag. The transitions are stated once, as functions on
    `BufferState`, and the classes are proved against them. */
module GpuBuffers {
  import opened Geometry

  datatype BufferState<T> = BufferState(values: T, gpuCopy: T, dirty: bool)

  /** The discipline every buffer keeps: a clean buffer is in sync. */
  ghost predicate InSync<T>(s: BufferState<T>) {
    !s.dirty ==> s.gpuCopy == s.values
  }

  /** A freshly created buffer: the GPU buffer is created from the initial
      values and the flag is clear. */
  function Created<T>(initial: T): (s: BufferState<T>)
    ensures InSync(s) && !s.dirty && s.values == initial
  {
    BufferState(initial, initial, false)
  }

  /** `values_mut()` followed by the caller's writes, which leave `v`. */
  function Written<T>(s: BufferState<T>, v: T): (r: BufferState<T>)
    ensures r.dirty && r.values == v && r.gpuCopy == s.gpuCopy
  {
    s.(values := v, dirty := true)
  }

  /** `update_gpu()`: clear the flag and copy the values to the GPU. */
  function Uploaded<T>(s: BufferState<T>): (r: BufferState<T>)
    ensures !r.dirty && r.gpuCopy == s.values && r.values == s.values
  {
    s.(gpuCopy := s.values, dirty := false)
  }

  /** One call on a buffer. */
  datatype BufferOp<T> = ValuesMut(v: T) | UpdateGpu

  function Step<T>(s: BufferState<T>, op: BufferOp<T>): BufferState<T> {
    match op
    case ValuesMut(v) => Written(s, v)
    case UpdateGpu => Uploaded(s)
  }

  /** The state after a sequence of calls, applied first to last. */
  function Run<T>(s: BufferState<T>, ops: seq<BufferOp<T>>): BufferState<T>
    decreases |ops|
  {
    if ops == [] then s else Step(Run(s, ops[..|ops| - 1]), ops[|ops| - 1])
  }

  /** Some call in `ops` hands out a mutable reference and no upload follows
      it, or the buffer was dirty already and no upload happens at all. */
  ghost predicate WrittenSinceUpload<T>(wasDirty: bool, ops: seq<BufferOp<T>>) {
    (exists i :: 0 <= i < |ops| && ops[i].ValuesMut? && UpdateGpu !in ops[i + 1..])
    || (wasDirty && UpdateGpu !in ops)
  }

  /** The flag is set exactly when some `values_mut` happened since the last
      `update_gpu` (or since construction, where the flag starts clear). */
  lemma {:induction false} DirtyIffWrittenSinceUpload<T>(s: BufferState<T>, ops: seq<BufferOp<T>>)
    ensures Run(s, ops).dirty <==> WrittenSinceUpload(s.dirty, ops)
    decreases |ops|
  {
    if ops != [] {
      var n := |ops| - 1;
      var init := ops[..n];
      DirtyIffWrittenSinceUpload(s, init);
      if ops[n].ValuesMut? {
        assert ops[n + 1..] == [];
      } else {
        forall i | 0 <= i < |ops| && ops[i].ValuesMut?
          ensures UpdateGpu in ops[i + 1..]
        {
          assert ops[i + 1..][n - i - 1] == ops[n];
        }
        assert ops[n] in ops;
      }
      if WrittenSinceUpload(s.dirty, init) && ops[n].ValuesMut? {
      }
      if WrittenSinceUpload(s.dirty, ops) && !ops[n].UpdateGpu? {
        if exists i :: 0 <= i < |ops| && ops[i].ValuesMut? && UpdateGpu !in ops[i + 1..] {
          var i :| 0 <= i < |ops| && ops[i].ValuesMut? && UpdateGpu !in ops[i + 1..];
        }
      }
    }
  }

  /** Every sequence of calls keeps a clean buffer in sync with the GPU. */
  lemma {:induction false} RunKeepsInSync<T>(s: BufferState<T>, ops: seq<BufferOp<T>>)
    requires InSync(s)
    ensures InSync(Run(s, ops))
    decreases |ops|
  {
    if ops != [] {
      RunKeepsInSync(s, ops[..|ops| - 1]);
    }
  }

  /** A second upload changes nothing. */
  lemma UploadIdempotent<T>(s: BufferState<T>)
    ensures Uploaded(Uploaded(s)) == Uploaded(s)
  {
  }

  /** A uniform buffer holding one value of type `T` (the per-frame, per-model
      uniform structs). */
  class GenericUniformBuffer<T> {
    var values: T
    var gpuCopy: T
    var dirty: bool
    /** The bind group created with the buffer; nothing replaces it. */
    const bindGroup: Handle

    function State(): BufferState<T>
      reads this
    {
      BufferState(values, gpuCopy, dirty)
    }

    ghost predicate Valid()
      reads this
    {
      InSync(State())
    }

    constructor (initial: T, bindGroup: Handle)
      ensures Valid()
      ensures State() == Created(initial)
      ensures this.bindGroup == bindGroup
    {
      values := initial;
      gpuCopy := initial;
      dirty := false;
      this.bindGroup := bindGroup;
    }

    /** `values()`: a read that leaves the values and the flag alone. */
    method Values() returns (v: T)
      ensures v == values
    {
      v := values;
    }

    /** `values_mut()` together with whatever the caller writes through the
        returned reference, which leaves `v`; `v == values` is allowed and
        still sets the flag. */
    method ValuesMut(v: T)
      requires Valid()
      modifies this
      ensures Valid()
      ensures State() == Written(old(State()), v)
    {
      dirty := true;
      values := v;
    }

    /** `update_gpu()` */
    method UpdateGpu()
      requires Valid()
      modifies this
      ensures Valid()
      ensures State() == Uploaded(old(State()))
    {
      dirty := false;
      gpuCopy := values;
    }

    /** `is_dirty()`; by `Valid()` a false answer means the GPU is in sync. */
    method IsDirty() returns (d: bool)
      requires Valid()
      ensures d == dirty
      ensures !d ==> gpuCopy == values
    {
      d := dirty;
    }

    /** `bind_group()` */
    method BindGroup() returns (h: Handle)
      ensures h == bindGroup
    {
      h := bindGroup;
    }
  }

  /** A buffer of per-instance values used as a vertex buffer. The whole
      sequence is uploaded at once. */
  class InstanceBuffer<T> {
    var instances: seq<T>
    var gpuCopy: seq<T>
    var dirty: bool

    function State(): BufferState<seq<T>>
      reads this
    {
      BufferState(instances, gpuCopy, dirty)
    }

    ghost predicate Valid()
      reads this
    {
      InSync(State())
    }

    constructor (initial: seq<T>)
      ensures Valid()
      ensures State() == Created(initial)
    {
      instances := initial;
      gpuCopy := initial;
      dirty := false;
    }

    /** `values(index)`; an out-of-range index panics in the source. */
    method Values(index: nat) returns (v: T)
      requires index < |instances|
      ensures v == instances[index]
    {
      v := instances[index];
    }

    /** `values_mut(index)` with the caller leaving `v` in that slot. The flag
        is set before indexing, but an out-of-range index panics. */
    method ValuesMut(index: nat, v: T)
      requires Valid()
      requires index < |instances|
      modifies this
      ensures Valid()
      ensures State() == Written(old(State()), old(instances)[index := v])
      ensures |instances| == old(|instances|)
      ensures forall k :: 0 <= k < |instances| && k != index ==> instances[k] == old(instances[k])
    {
      dirty := true;
      instances := instances[index := v];
    }

    /** `update_gpu()`: the entire slice goes to the GPU. */
    method UpdateGpu()
      requires Valid()
      modifies this
      ensures Valid()
      ensures State() == Uploaded(old(State()))
    {
      dirty := false;
      gpuCopy := instances;
    }

    method IsDirty() returns (d: bool)
      requires Valid()
      ensures d == dirty
      ensures !d ==> gpuCopy == instances
    {
      d := dirty;
    }
  }
}
