/** Assembly of a mesh from the objects of a parsed OBJ file: every object's
    vertices and indices are appended to one shared vertex buffer and one
    shared index buffer, and every object becomes a submesh that names its
    own run of indices and the vertex it starts from. Materials come from
    the MTL definitions, with defaults for what they leave out. */
module ObjModel {
  import opened Wrappers
  import opened Geometry
  import opened Shading
  import opened Materials
  import opened BuiltinMeshes

  // ---- materials ----

  /** A texture that could not be loaded. */
  datatype ContentError = TextureLoadFailed(path: string)

  /** The properties of an MTL material the renderer reads. */
  datatype ObjMaterial = ObjMaterial(
    ambient: Option<Vec3>,
    diffuse: Option<Vec3>,
    specular: Option<Vec3>,
    shininess: Option<real>,
    diffuseTexture: Option<string>,
    shininessTexture: Option<string>)

  /** Loading a texture file; the file system is a parameter. */
  type TextureLoader = string -> Result<Handle, ContentError>

  /** `create_texture`: an absent path takes the default texture. */
  function CreateTexture(load: TextureLoader, path: Option<string>, default: Handle): (r: Result<Handle, ContentError>)
    ensures path.None? ==> r == Ok(default)
    ensures path.Some? ==> r == load(path.value)
  {
    match path
    case Some(p) => load(p)
    case None => Ok(default)
  }

  /** `create_material`: the same material the builder makes from the MTL's
      colours and power and the two loaded maps, with the default emissive
      map. The diffuse texture is loaded first, so its failure is the one
      reported when both fail. */
  function CreateMaterial(load: TextureLoader, mat: ObjMaterial, defaults: DefaultTextures)
    : (r: Result<Material, ContentError>)
    ensures r.Ok? <==> CreateTexture(load, mat.diffuseTexture, defaults.diffuseMap).Ok? &&
                       CreateTexture(load, mat.shininessTexture, defaults.specularMap).Ok?
    ensures CreateTexture(load, mat.diffuseTexture, defaults.diffuseMap).Err? ==>
              r == Err(CreateTexture(load, mat.diffuseTexture, defaults.diffuseMap).error)
    ensures CreateTexture(load, mat.diffuseTexture, defaults.diffuseMap).Ok? &&
            CreateTexture(load, mat.shininessTexture, defaults.specularMap).Err? ==>
              r == Err(CreateTexture(load, mat.shininessTexture, defaults.specularMap).error)
    ensures r.Ok? ==> r.value == Build(
              MaterialBuilder(mat.ambient, mat.diffuse, mat.specular, mat.shininess,
                              Some(CreateTexture(load, mat.diffuseTexture, defaults.diffuseMap).value),
                              Some(CreateTexture(load, mat.shininessTexture, defaults.specularMap).value),
                              None),
              defaults)
    ensures r.Ok? ==> r.value.emissiveMap == defaults.emissiveMap
  {
    var diffuseMap := CreateTexture(load, mat.diffuseTexture, defaults.diffuseMap);
    if diffuseMap.Err? then Err(diffuseMap.error)
    else
      var specularMap := CreateTexture(load, mat.shininessTexture, defaults.specularMap);
      if specularMap.Err? then Err(specularMap.error)
      else
        Ok(Material(
          UnwrapOr(mat.ambient, DEFAULT_AMBIENT_COLOR),
          UnwrapOr(mat.diffuse, DEFAULT_DIFFUSE_COLOR),
          diffuseMap.value,
          UnwrapOr(mat.specular, DEFAULT_SPECULAR_COLOR),
          specularMap.value,
          UnwrapOr(mat.shininess, DEFAULT_SPECULAR_POWER),
          defaults.emissiveMap))
  }

  /** A material with no texture paths never fails and uses the default maps. */
  lemma UntexturedMaterialUsesDefaults(load: TextureLoader, mat: ObjMaterial, defaults: DefaultTextures)
    requires mat.diffuseTexture.None? && mat.shininessTexture.None?
    ensures CreateMaterial(load, mat, defaults).Ok?
    ensures CreateMaterial(load, mat, defaults).value.diffuseMap == defaults.diffuseMap
    ensures CreateMaterial(load, mat, defaults).value.specularMap == defaults.specularMap
  {
  }

  /** The materials of the MTL file in order, stopping at the first one that
      fails. */
  method CreateMaterials(load: TextureLoader, mats: seq<ObjMaterial>, defaults: DefaultTextures)
    returns (r: Result<seq<Material>, ContentError>)
    ensures r.Ok? <==> forall k :: 0 <= k < |mats| ==> CreateMaterial(load, mats[k], defaults).Ok?
    ensures r.Ok? ==> |r.value| == |mats|
    ensures r.Ok? ==> forall k :: 0 <= k < |mats| ==> r.value[k] == CreateMaterial(load, mats[k], defaults).value
    ensures r.Err? ==> exists k :: 0 <= k < |mats| && CreateMaterial(load, mats[k], defaults) == Err(r.error) &&
                                   forall j :: 0 <= j < k ==> CreateMaterial(load, mats[j], defaults).Ok?
  {
    var materials: seq<Material> := [];
    for i := 0 to |mats|
      invariant |materials| == i
      invariant forall k :: 0 <= k < i ==> CreateMaterial(load, mats[k], defaults).Ok?
      invariant forall k :: 0 <= k < i ==> materials[k] == CreateMaterial(load, mats[k], defaults).value
    {
      var m := CreateMaterial(load, mats[i], defaults);
      if m.Err? {
        return Err(m.error);
      }
      materials := materials + [m.value];
    }
    return Ok(materials);
  }

  // ---- mesh assembly ----

  /** One object of a parsed OBJ file: flat position, normal and texture
      coordinate arrays, its indices, and index arrays that are empty when
      the file was loaded triangulated and single-indexed. */
  datatype ObjMesh = ObjMesh(
    positions: seq<real>,
    normals: seq<real>,
    texcoords: seq<real>,
    indices: seq<nat>,
    faceArities: seq<nat>,
    normalIndices: seq<nat>,
    texcoordIndices: seq<nat>,
    materialId: Option<nat>)

  /** A run of the shared index buffer, the vertex its indices count from,
      and its material. */
  datatype Submesh = Submesh(indexStart: nat, indexEnd: nat, baseVertex: nat, material: Material)

  datatype Mesh = Mesh(vertices: seq<MeshVertex>, indices: seq<nat>, indexCount: nat, submeshes: seq<Submesh>)

  /** What `process_obj_mesh` asserts (a triangulated, single-index load),
      and what its indexing needs: texture coordinates for every vertex,
      normals for every vertex or none at all, and a material. */
  predicate Assemblable(mesh: ObjMesh, materialCount: nat) {
    mesh.faceArities == [] && mesh.normalIndices == [] && mesh.texcoordIndices == [] &&
    |mesh.positions| % 3 == 0 &&
    |mesh.texcoords| >= 2 * (|mesh.positions| / 3) &&
    (mesh.normals != [] ==> |mesh.normals| >= |mesh.positions|) &&
    mesh.materialId.Some? && mesh.materialId.value < materialCount
  }

  function VertexCount(mesh: ObjMesh): nat {
    |mesh.positions| / 3
  }

  /** Vertex i reads positions 3i to 3i+2, texture coordinates 2i and 2i+1,
      and normals 3i to 3i+2 when there are normals, else the zero vector. */
  function ObjVertex(mesh: ObjMesh, i: nat): MeshVertex
    requires |mesh.texcoords| >= 2 * VertexCount(mesh)
    requires mesh.normals != [] ==> |mesh.normals| >= |mesh.positions|
    requires i < VertexCount(mesh)
  {
    var p := mesh.positions;
    var n := mesh.normals;
    var t := mesh.texcoords;
    MeshVertex(
      Vec3(p[i * 3], p[i * 3 + 1], p[i * 3 + 2]),
      if n != [] then Vec3(n[i * 3], n[i * 3 + 1], n[i * 3 + 2]) else ZERO3,
      Vec2(t[i * 2], t[i * 2 + 1]))
  }

  function ObjVertices(mesh: ObjMesh): (vs: seq<MeshVertex>)
    requires |mesh.texcoords| >= 2 * VertexCount(mesh)
    requires mesh.normals != [] ==> |mesh.normals| >= |mesh.positions|
    ensures |vs| == VertexCount(mesh)
  {
    seq(VertexCount(mesh), i requires 0 <= i < VertexCount(mesh) => ObjVertex(mesh, i))
  }

  /** `process_obj_mesh`: appends the object's vertices and, verbatim, its
      indices to the shared buffers. The submesh covers exactly the appended
      indices, and its base vertex is where the object's vertices begin
      (`SubmeshesMatchObjects` states this of the whole mesh). */
  method ProcessObjMesh(mesh: ObjMesh, vertices: seq<MeshVertex>, indices: seq<nat>, materials: seq<Material>)
    returns (vertices': seq<MeshVertex>, indices': seq<nat>, submesh: Submesh)
    requires Assemblable(mesh, |materials|)
    ensures vertices' == vertices + ObjVertices(mesh)
    ensures indices' == indices + mesh.indices
    ensures submesh == Submesh(|indices|, |indices| + |mesh.indices|, |vertices|, materials[mesh.materialId.value])
  {
    var baseVertex := |vertices|;
    var baseIndex := |indices|;
    vertices' := vertices;
    for i := 0 to VertexCount(mesh)
      invariant vertices' == vertices + ObjVertices(mesh)[..i]
    {
      vertices' := vertices' + [ObjVertex(mesh, i)];
      assert ObjVertices(mesh)[..i + 1] == ObjVertices(mesh)[..i] + [ObjVertex(mesh, i)];
    }
    assert ObjVertices(mesh)[..VertexCount(mesh)] == ObjVertices(mesh);
    indices' := indices;
    for j := 0 to |mesh.indices|
      invariant indices' == indices + mesh.indices[..j]
    {
      indices' := indices' + [mesh.indices[j]];
      assert mesh.indices[..j + 1] == mesh.indices[..j] + [mesh.indices[j]];
    }
    assert mesh.indices[..|mesh.indices|] == mesh.indices;
    submesh := Submesh(baseIndex, baseIndex + |mesh.indices|, baseVertex, materials[mesh.materialId.value]);
  }

  /** Concatenation of a sequence of runs. */
  function Flatten<T>(runs: seq<seq<T>>): seq<T>
    decreases |runs|
  {
    if runs == [] then [] else Flatten(runs[..|runs| - 1]) + runs[|runs| - 1]
  }

  lemma FlattenStep<T>(runs: seq<seq<T>>, k: nat)
    requires k < |runs|
    ensures Flatten(runs[..k + 1]) == Flatten(runs[..k]) + runs[k]
  {
    assert runs[..k + 1][..k] == runs[..k];
  }

  /** The runs before k flatten to a prefix of the whole. */
  lemma {:induction false} FlattenPrefix<T>(runs: seq<seq<T>>, k: nat)
    requires k <= |runs|
    ensures Flatten(runs[..k]) <= Flatten(runs)
    decreases |runs| - k
  {
    if k == |runs| {
      assert runs[..k] == runs;
    } else {
      FlattenPrefix(runs, k + 1);
      FlattenStep(runs, k);
    }
  }

  /** Run k sits in the flattened sequence right after the runs before it. */
  lemma FlattenSlice<T>(runs: seq<seq<T>>, k: nat)
    requires k < |runs|
    ensures |Flatten(runs[..k])| + |runs[k]| <= |Flatten(runs)|
    ensures Flatten(runs)[|Flatten(runs[..k])|..|Flatten(runs[..k])| + |runs[k]|] == runs[k]
  {
    FlattenPrefix(runs, k + 1);
    FlattenStep(runs, k);
  }

  /** Every position of the flattened sequence lies in some run. */
  lemma {:induction false} FlattenLocate<T>(runs: seq<seq<T>>, p: nat)
    requires p < |Flatten(runs)|
    ensures exists k :: 0 <= k < |runs| && |Flatten(runs[..k])| <= p < |Flatten(runs[..k])| + |runs[k]|
    decreases |runs|
  {
    var n := |runs| - 1;
    var init := runs[..n];
    if p < |Flatten(init)| {
      FlattenLocate(init, p);
      var k :| 0 <= k < |init| && |Flatten(init[..k])| <= p < |Flatten(init[..k])| + |init[k]|;
      assert init[..k] == runs[..k];
    } else {
      assert |Flatten(runs[..n])| <= p < |Flatten(runs[..n])| + |runs[n]|;
    }
  }

  /** Runs start no earlier than the earlier runs end. */
  lemma FlattenOrdered<T>(runs: seq<seq<T>>, i: nat, j: nat)
    requires i < j <= |runs|
    ensures |Flatten(runs[..i])| + |runs[i]| <= |Flatten(runs[..j])|
  {
    FlattenStep(runs, i);
    FlattenPrefix(runs[..j], i + 1);
    assert runs[..j][..i + 1] == runs[..i + 1];
  }

  predicate AllAssemblable(ms: seq<ObjMesh>, materialCount: nat) {
    forall k :: 0 <= k < |ms| ==> Assemblable(ms[k], materialCount)
  }

  function VertexRuns(ms: seq<ObjMesh>, materialCount: nat): (rs: seq<seq<MeshVertex>>)
    requires AllAssemblable(ms, materialCount)
    ensures |rs| == |ms| && forall k :: 0 <= k < |ms| ==> rs[k] == ObjVertices(ms[k])
  {
    seq(|ms|, k requires 0 <= k < |ms| => ObjVertices(ms[k]))
  }

  function IndexRuns(ms: seq<ObjMesh>): (rs: seq<seq<nat>>)
    ensures |rs| == |ms| && forall k :: 0 <= k < |ms| ==> rs[k] == ms[k].indices
  {
    seq(|ms|, k requires 0 <= k < |ms| => ms[k].indices)
  }

  /** The submesh of object k: its indices follow those of the objects
      before it, and so do its vertices. */
  function SubmeshOf(ms: seq<ObjMesh>, materials: seq<Material>, k: nat): Submesh
    requires AllAssemblable(ms, |materials|) && k < |ms|
  {
    var start := |Flatten(IndexRuns(ms)[..k])|;
    Submesh(start, start + |ms[k].indices|, |Flatten(VertexRuns(ms, |materials|)[..k])|,
            materials[ms[k].materialId.value])
  }

  /** `create_mesh`: one submesh per object, in order, over the
      concatenated buffers; the index count is that of the whole buffer. */
  method CreateMesh(ms: seq<ObjMesh>, materials: seq<Material>) returns (mesh: Mesh)
    requires AllAssemblable(ms, |materials|)
    ensures mesh.vertices == Flatten(VertexRuns(ms, |materials|))
    ensures mesh.indices == Flatten(IndexRuns(ms))
    ensures mesh.indexCount == |mesh.indices|
    ensures |mesh.submeshes| == |ms|
    ensures forall k :: 0 <= k < |ms| ==> mesh.submeshes[k] == SubmeshOf(ms, materials, k)
  {
    var vertices: seq<MeshVertex> := [];
    var indices: seq<nat> := [];
    var submeshes: seq<Submesh> := [];
    ghost var vr := VertexRuns(ms, |materials|);
    ghost var ir := IndexRuns(ms);
    for i := 0 to |ms|
      invariant vertices == Flatten(vr[..i])
      invariant indices == Flatten(ir[..i])
      invariant |submeshes| == i
      invariant forall k :: 0 <= k < i ==> submeshes[k] == SubmeshOf(ms, materials, k)
    {
      var submesh;
      vertices, indices, submesh := ProcessObjMesh(ms[i], vertices, indices, materials);
      assert submesh == SubmeshOf(ms, materials, i);
      FlattenStep(vr, i);
      FlattenStep(ir, i);
      ghost var before := submeshes;
      submeshes := submeshes + [submesh];
      assert forall k :: 0 <= k < i ==> submeshes[k] == before[k];
    }
    assert vr[..|ms|] == vr && ir[..|ms|] == ir;
    mesh := Mesh(vertices, indices, |indices|, submeshes);
  }

  /** The submeshes of `create_mesh` cut the index buffer into the objects'
      own index lists, in order and without gaps, and each base vertex is
      where that object's vertices start in the vertex buffer. */
  lemma SubmeshesMatchObjects(ms: seq<ObjMesh>, materials: seq<Material>, k: nat)
    requires AllAssemblable(ms, |materials|) && k < |ms|
    ensures SubmeshOf(ms, materials, k).indexEnd <= |Flatten(IndexRuns(ms))|
    ensures Flatten(IndexRuns(ms))[SubmeshOf(ms, materials, k).indexStart..SubmeshOf(ms, materials, k).indexEnd]
            == ms[k].indices
    ensures SubmeshOf(ms, materials, k).baseVertex + VertexCount(ms[k]) <= |Flatten(VertexRuns(ms, |materials|))|
    ensures Flatten(VertexRuns(ms, |materials|))[SubmeshOf(ms, materials, k).baseVertex..
              SubmeshOf(ms, materials, k).baseVertex + VertexCount(ms[k])] == ObjVertices(ms[k])
  {
    FlattenSlice(IndexRuns(ms), k);
    FlattenSlice(VertexRuns(ms, |materials|), k);
  }

  /** The submesh ranges are contiguous, start at 0 and end at the total. */
  lemma SubmeshRangesContiguous(ms: seq<ObjMesh>, materials: seq<Material>)
    requires AllAssemblable(ms, |materials|)
    ensures |ms| > 0 ==> SubmeshOf(ms, materials, 0).indexStart == 0
    ensures |ms| > 0 ==> SubmeshOf(ms, materials, |ms| - 1).indexEnd == |Flatten(IndexRuns(ms))|
    ensures forall k :: 0 <= k < |ms| - 1 ==>
              SubmeshOf(ms, materials, k).indexEnd == SubmeshOf(ms, materials, k + 1).indexStart
  {
    var ir := IndexRuns(ms);
    forall k | 0 <= k < |ms| - 1
      ensures SubmeshOf(ms, materials, k).indexEnd == SubmeshOf(ms, materials, k + 1).indexStart
    {
      FlattenStep(ir, k);
    }
    if |ms| > 0 {
      assert ir[..0] == [];
      FlattenStep(ir, |ms| - 1);
      assert ir[..|ms|] == ir;
    }
  }

  /** Every index position belongs to exactly one submesh. */
  lemma SubmeshRangesPartition(ms: seq<ObjMesh>, materials: seq<Material>, p: nat)
    requires AllAssemblable(ms, |materials|) && p < |Flatten(IndexRuns(ms))|
    ensures exists k :: 0 <= k < |ms| &&
              SubmeshOf(ms, materials, k).indexStart <= p < SubmeshOf(ms, materials, k).indexEnd
    ensures forall i, j :: 0 <= i < j < |ms| ==>
              SubmeshOf(ms, materials, i).indexEnd <= SubmeshOf(ms, materials, j).indexStart
  {
    var ir := IndexRuns(ms);
    FlattenLocate(ir, p);
    var k :| 0 <= k < |ir| && |Flatten(ir[..k])| <= p < |Flatten(ir[..k])| + |ir[k]|;
    assert SubmeshOf(ms, materials, k).indexStart <= p < SubmeshOf(ms, materials, k).indexEnd;
    forall i, j | 0 <= i < j < |ms|
      ensures SubmeshOf(ms, materials, i).indexEnd <= SubmeshOf(ms, materials, j).indexStart
    {
      FlattenOrdered(ir, i, j);
    }
  }
}
