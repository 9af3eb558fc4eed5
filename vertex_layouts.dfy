/** Vertex buffer layouts: the byte stride of one element and, per shader
    input, its byte offset, shader location and format. A layout is sound
    when every attribute lies inside the stride and no two attributes
    overlap; the layouts of this program are all tightly packed, which
    implies both. */
module VertexLayouts {
  datatype VertexFormat = Float32x2 | Float32x3 | Float32x4

  /** Bytes per attribute of each format. */
  function FormatSize(f: VertexFormat): nat {
    match f
    case Float32x2 => 8
    case Float32x3 => 12
    case Float32x4 => 16
  }

  /** Whether the buffer advances per vertex or per instance. */
  datatype StepMode = PerVertex | PerInstance

  datatype VertexAttribute = VertexAttribute(offset: nat, shaderLocation: nat, format: VertexFormat)

  datatype VertexBufferLayout = VertexBufferLayout(
    arrayStride: nat, stepMode: StepMode, attributes: seq<VertexAttribute>)

  /** One past the last byte of an attribute. */
  function End(a: VertexAttribute): nat {
    a.offset + FormatSize(a.format)
  }

  predicate AttributesFit(l: VertexBufferLayout) {
    forall i :: 0 <= i < |l.attributes| ==> End(l.attributes[i]) <= l.arrayStride
  }

  /** Attributes are listed in address order and do not overlap. */
  predicate AttributesDisjoint(l: VertexBufferLayout) {
    forall i, j :: 0 <= i < j < |l.attributes| ==> End(l.attributes[i]) <= l.attributes[j].offset
  }

  function Locations(l: VertexBufferLayout): set<nat> {
    set i | 0 <= i < |l.attributes| :: l.attributes[i].shaderLocation
  }

  function Formats(l: VertexBufferLayout): (fs: seq<VertexFormat>)
    ensures |fs| == |l.attributes| && forall i :: 0 <= i < |fs| ==> fs[i] == l.attributes[i].format
  {
    seq(|l.attributes|, i requires 0 <= i < |l.attributes| => l.attributes[i].format)
  }

  /** The total size of a run of formats. */
  function SizeSum(fs: seq<VertexFormat>): nat
    decreases |fs|
  {
    if fs == [] then 0 else SizeSum(fs[..|fs| - 1]) + FormatSize(fs[|fs| - 1])
  }

  /** Every attribute starts where the previous one ends, the first at 0,
      and the stride is the total size: the layout of a `repr(C)` struct of
      float arrays. */
  predicate TightlyPacked(l: VertexBufferLayout) {
    var fs := Formats(l);
    (forall i :: 0 <= i < |fs| ==> l.attributes[i].offset == SizeSum(fs[..i])) &&
    l.arrayStride == SizeSum(fs)
  }

  /** Extending a prefix by one format adds that format's size. */
  lemma SizeSumPrefixStep(fs: seq<VertexFormat>, k: nat)
    requires k < |fs|
    ensures SizeSum(fs[..k + 1]) == SizeSum(fs[..k]) + FormatSize(fs[k])
  {
    assert fs[..k + 1][..k] == fs[..k];
  }

  lemma {:induction false} SizeSumMonotone(fs: seq<VertexFormat>, i: nat, j: nat)
    requires i <= j <= |fs|
    ensures SizeSum(fs[..i]) <= SizeSum(fs[..j])
    decreases j - i
  {
    if i < j {
      SizeSumMonotone(fs, i, j - 1);
      assert fs[..j][..j - 1] == fs[..j - 1];
    }
  }

  /** In a tightly packed layout each attribute ends where the sizes of
      it and its predecessors add up to. */
  lemma PackedEnd(l: VertexBufferLayout, i: nat)
    requires TightlyPacked(l) && i < |l.attributes|
    ensures End(l.attributes[i]) == SizeSum(Formats(l)[..i + 1])
  {
    var fs := Formats(l);
    assert fs[..i + 1][..i] == fs[..i];
  }

  lemma PackedAttributesFit(l: VertexBufferLayout)
    requires TightlyPacked(l)
    ensures AttributesFit(l)
  {
    var fs := Formats(l);
    forall i | 0 <= i < |fs|
      ensures End(l.attributes[i]) <= l.arrayStride
    {
      PackedEnd(l, i);
      SizeSumMonotone(fs, i + 1, |fs|);
      assert fs[..|fs|] == fs;
    }
  }

  lemma PackedAttributesDisjoint(l: VertexBufferLayout)
    requires TightlyPacked(l)
    ensures AttributesDisjoint(l)
  {
    var fs := Formats(l);
    forall i, j | 0 <= i < j < |fs|
      ensures End(l.attributes[i]) <= l.attributes[j].offset
    {
      PackedEnd(l, i);
      SizeSumMonotone(fs, i + 1, j);
    }
  }

  /** A tightly packed layout keeps every attribute inside the stride and
      the attributes apart. */
  lemma TightlyPackedIsSound(l: VertexBufferLayout)
    requires TightlyPacked(l)
    ensures AttributesFit(l) && AttributesDisjoint(l)
  {
    PackedAttributesFit(l);
    PackedAttributesDisjoint(l);
  }
}
