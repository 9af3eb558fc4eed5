/** The shader-side ("packed") layouts of lights and material constants.
    Each packed struct is a run of `Vec4`s; scalar properties of the light are
    stored in the otherwise unused `w` components. Packing is exact except for
    the direction normalisation and the cosine of the spot-light cut-offs,
    which go through the uninterpreted `Math`. */
module PackedStructs {
  import opened Geometry
  import opened Shading

  datatype PackedMaterialConstants = PackedMaterialConstants(
    ambientColor: Vec4, diffuseColor: Vec4, specularColor: Vec4)

  datatype PackedDirectionalLight = PackedDirectionalLight(direction: Vec4, color: Vec4)

  datatype PackedPointLight = PackedPointLight(
    position: Vec4, color: Vec4, attenuation: Vec4, padding: Vec4)

  datatype PackedSpotLight = PackedSpotLight(
    position: Vec4, direction: Vec4, color: Vec4, attenuation: Vec4)

  /** `Default` of the packed structs: every component zero. */
  const MATERIAL_CONSTANTS_DEFAULT := PackedMaterialConstants(ZERO4, ZERO4, ZERO4)
  const DIRECTIONAL_LIGHT_DEFAULT := PackedDirectionalLight(ZERO4, ZERO4)
  const POINT_LIGHT_DEFAULT := PackedPointLight(ZERO4, ZERO4, ZERO4, ZERO4)
  const SPOT_LIGHT_DEFAULT := PackedSpotLight(ZERO4, ZERO4, ZERO4, ZERO4)

  /** The xyz part of a `Vec4`. */
  function Xyz(v: Vec4): Vec3 { Vec3(v.x, v.y, v.z) }

  /** `vec3_w`: extend `xyz` with a fourth component. */
  function Vec3W(xyz: Vec3, w: real): (r: Vec4)
    ensures Xyz(r) == xyz && r.w == w
    ensures forall v: Vec4 :: Xyz(v) == xyz && v.w == w ==> v == r
  {
    Vec4(xyz.x, xyz.y, xyz.z, w)
  }

  // ---- material constants ----

  function PackMaterial(m: Material): (p: PackedMaterialConstants)
    ensures Xyz(p.ambientColor) == m.ambientColor && p.ambientColor.w == 0.0
    ensures Xyz(p.diffuseColor) == m.diffuseColor && p.diffuseColor.w == 0.0
    ensures Xyz(p.specularColor) == m.specularColor && p.specularColor.w == m.specularPower
  {
    PackedMaterialConstants(
      Vec3W(m.ambientColor, 0.0),
      Vec3W(m.diffuseColor, 0.0),
      Vec3W(m.specularColor, m.specularPower))
  }

  /** Reads a material back from its packed constants and its three maps. */
  function UnpackMaterial(p: PackedMaterialConstants, diffuseMap: Handle, specularMap: Handle,
                          emissiveMap: Handle): Material
  {
    Material(Xyz(p.ambientColor), Xyz(p.diffuseColor), diffuseMap,
             Xyz(p.specularColor), specularMap, p.specularColor.w, emissiveMap)
  }

  /** Packing drops only the texture maps. */
  lemma MaterialRoundTrip(m: Material)
    ensures UnpackMaterial(PackMaterial(m), m.diffuseMap, m.specularMap, m.emissiveMap) == m
  {
  }

  /** Exactly the constants whose ambient and diffuse `w` are zero come from
      some material. */
  lemma {:induction false} PackedMaterialImage(p: PackedMaterialConstants, d: Handle, s: Handle, e: Handle)
    ensures PackMaterial(UnpackMaterial(p, d, s, e)) == p <==>
            p.ambientColor.w == 0.0 && p.diffuseColor.w == 0.0
  {
    var q := PackMaterial(UnpackMaterial(p, d, s, e));
    if p.ambientColor.w == 0.0 && p.diffuseColor.w == 0.0 {
      assert q.ambientColor == p.ambientColor;
      assert q.diffuseColor == p.diffuseColor;
      assert q.specularColor == p.specularColor;
    }
  }

  // ---- directional light ----

  function PackDirectionalLight(m: Math, l: DirectionalLight): (p: PackedDirectionalLight)
    ensures Xyz(p.direction) == m.normalize(l.direction) && p.direction.w == l.ambient
    ensures Xyz(p.color) == l.color && p.color.w == l.specular
  {
    PackedDirectionalLight(
      Vec3W(m.normalize(l.direction), l.ambient),
      Vec3W(l.color, l.specular))
  }

  function UnpackDirectionalLight(p: PackedDirectionalLight): DirectionalLight {
    DirectionalLight(Xyz(p.direction), Xyz(p.color), p.direction.w, p.color.w)
  }

  /** Packing loses only the length of the direction: a light whose direction
      is already normalised survives the round trip unchanged. */
  lemma DirectionalLightRoundTrip(m: Math, l: DirectionalLight)
    ensures UnpackDirectionalLight(PackDirectionalLight(m, l))
            == l.(direction := m.normalize(l.direction))
    ensures m.normalize(l.direction) == l.direction ==>
            UnpackDirectionalLight(PackDirectionalLight(m, l)) == l
  {
  }

  // ---- point light ----

  function PackPointLight(l: PointLight): (p: PackedPointLight)
    ensures Xyz(p.position) == l.position && p.position.w == l.ambient
    ensures Xyz(p.color) == l.color && p.color.w == l.specular
    ensures p.attenuation ==
            Vec4(l.attenuation.constant, l.attenuation.linear, l.attenuation.quadratic, 0.0)
    ensures p.padding == ZERO4
  {
    PackedPointLight(
      Vec3W(l.position, l.ambient),
      Vec3W(l.color, l.specular),
      Vec4(l.attenuation.constant, l.attenuation.linear, l.attenuation.quadratic, 0.0),
      ZERO4)
  }

  function UnpackPointLight(p: PackedPointLight): PointLight {
    PointLight(
      Xyz(p.position), Xyz(p.color),
      LightAttenuation(p.attenuation.x, p.attenuation.y, p.attenuation.z),
      p.position.w, p.color.w)
  }

  /** Packing a point light is lossless. */
  lemma PointLightRoundTrip(l: PointLight)
    ensures UnpackPointLight(PackPointLight(l)) == l
  {
  }

  /** A packed point light comes from some light exactly when its unused
      attenuation component and its padding are zero. */
  lemma {:induction false} PackedPointLightImage(p: PackedPointLight)
    ensures PackPointLight(UnpackPointLight(p)) == p <==>
            p.attenuation.w == 0.0 && p.padding == ZERO4
  {
    var q := PackPointLight(UnpackPointLight(p));
    if p.attenuation.w == 0.0 && p.padding == ZERO4 {
      assert q.position == p.position && q.color == p.color;
      assert q.attenuation == p.attenuation;
    }
  }

  // ---- spot light ----

  function PackSpotLight(m: Math, l: SpotLight): (p: PackedSpotLight)
    ensures Xyz(p.position) == l.position && p.position.w == m.cos(l.cutoffRadians)
    ensures Xyz(p.direction) == m.normalize(l.direction) && p.direction.w == l.ambient
    ensures Xyz(p.color) == l.color && p.color.w == l.specular
    ensures Xyz(p.attenuation) ==
            Vec3(l.attenuation.constant, l.attenuation.linear, l.attenuation.quadratic)
    ensures p.attenuation.w == m.cos(l.outerCutoffRadians)
  {
    PackedSpotLight(
      Vec3W(l.position, m.cos(l.cutoffRadians)),
      Vec3W(m.normalize(l.direction), l.ambient),
      Vec3W(l.color, l.specular),
      Vec4(l.attenuation.constant, l.attenuation.linear, l.attenuation.quadratic,
           m.cos(l.outerCutoffRadians)))
  }

  /** Two spot lights pack alike exactly when they agree on everything except
      what packing keeps only through `normalize` and `cos`. */
  lemma {:induction false} SpotLightPackedAlike(m: Math, a: SpotLight, b: SpotLight)
    ensures PackSpotLight(m, a) == PackSpotLight(m, b) <==>
            a.position == b.position && a.color == b.color &&
            a.attenuation == b.attenuation &&
            a.ambient == b.ambient && a.specular == b.specular &&
            m.normalize(a.direction) == m.normalize(b.direction) &&
            m.cos(a.cutoffRadians) == m.cos(b.cutoffRadians) &&
            m.cos(a.outerCutoffRadians) == m.cos(b.outerCutoffRadians)
  {
    var pa, pb := PackSpotLight(m, a), PackSpotLight(m, b);
    if pa == pb {
      assert Xyz(pa.position) == Xyz(pb.position);
      assert Xyz(pa.direction) == Xyz(pb.direction);
      assert Xyz(pa.color) == Xyz(pb.color);
      assert Xyz(pa.attenuation) == Xyz(pb.attenuation);
    }
  }
}
