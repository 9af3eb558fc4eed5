/** The fluent material builder. Every property is optional; `Build` falls
    back to fixed constants for the colours and power and to the default
    textures for the maps. The builder is consumed and returned by value, so
    it is a datatype and each setter a function. */
module Materials {
  import opened Wrappers
  import opened Geometry
  import opened Shading

  /** The three fallback texture maps the content loader provides. */
  datatype DefaultTextures = DefaultTextures(diffuseMap: Handle, specularMap: Handle, emissiveMap: Handle)

  datatype MaterialBuilder = MaterialBuilder(
    ambientColor: Option<Vec3>,
    diffuseColor: Option<Vec3>,
    specularColor: Option<Vec3>,
    specularPower: Option<real>,
    diffuseMap: Option<Handle>,
    specularMap: Option<Handle>,
    emissiveMap: Option<Handle>)

  const DEFAULT_AMBIENT_COLOR: Vec3 := Vec3(1.0, 1.0, 1.0)
  const DEFAULT_DIFFUSE_COLOR: Vec3 := Vec3(1.0, 1.0, 1.0)
  const DEFAULT_SPECULAR_COLOR: Vec3 := Vec3(0.0, 0.0, 0.0)
  const DEFAULT_SPECULAR_POWER: real := 0.0

  /** `Option::unwrap_or` */
  function UnwrapOr<T>(o: Option<T>, fallback: T): T {
    if o.Some? then o.value else fallback
  }

  /** A builder with nothing set. */
  function NewBuilder(): (b: MaterialBuilder)
    ensures b.ambientColor.None? && b.diffuseColor.None? && b.specularColor.None?
    ensures b.specularPower.None?
    ensures b.diffuseMap.None? && b.specularMap.None? && b.emissiveMap.None?
  {
    MaterialBuilder(None, None, None, None, None, None, None)
  }

  function WithAmbientColor(b: MaterialBuilder, color: Vec3): MaterialBuilder {
    b.(ambientColor := Some(color))
  }
  function WithDiffuseColor(b: MaterialBuilder, color: Vec3): MaterialBuilder {
    b.(diffuseColor := Some(color))
  }
  function WithSpecularColor(b: MaterialBuilder, color: Vec3): MaterialBuilder {
    b.(specularColor := Some(color))
  }
  function WithSpecularPower(b: MaterialBuilder, power: real): MaterialBuilder {
    b.(specularPower := Some(power))
  }
  function WithDiffuseMap(b: MaterialBuilder, texture: Handle): MaterialBuilder {
    b.(diffuseMap := Some(texture))
  }
  function WithSpecularMap(b: MaterialBuilder, texture: Handle): MaterialBuilder {
    b.(specularMap := Some(texture))
  }
  function WithEmissiveMap(b: MaterialBuilder, texture: Handle): MaterialBuilder {
    b.(emissiveMap := Some(texture))
  }

  /** `build`: every set property passes through unchanged; every unset
      property takes its documented fallback. */
  function Build(b: MaterialBuilder, defaults: DefaultTextures): (m: Material)
    ensures m.ambientColor == (if b.ambientColor.Some? then b.ambientColor.value else DEFAULT_AMBIENT_COLOR)
    ensures m.diffuseColor == (if b.diffuseColor.Some? then b.diffuseColor.value else DEFAULT_DIFFUSE_COLOR)
    ensures m.specularColor == (if b.specularColor.Some? then b.specularColor.value else DEFAULT_SPECULAR_COLOR)
    ensures m.specularPower == (if b.specularPower.Some? then b.specularPower.value else DEFAULT_SPECULAR_POWER)
    ensures m.diffuseMap == (if b.diffuseMap.Some? then b.diffuseMap.value else defaults.diffuseMap)
    ensures m.specularMap == (if b.specularMap.Some? then b.specularMap.value else defaults.specularMap)
    ensures m.emissiveMap == (if b.emissiveMap.Some? then b.emissiveMap.value else defaults.emissiveMap)
  {
    Material(
      UnwrapOr(b.ambientColor, DEFAULT_AMBIENT_COLOR),
      UnwrapOr(b.diffuseColor, DEFAULT_DIFFUSE_COLOR),
      UnwrapOr(b.diffuseMap, defaults.diffuseMap),
      UnwrapOr(b.specularColor, DEFAULT_SPECULAR_COLOR),
      UnwrapOr(b.specularMap, defaults.specularMap),
      UnwrapOr(b.specularPower, DEFAULT_SPECULAR_POWER),
      UnwrapOr(b.emissiveMap, defaults.emissiveMap))
  }

  /** A builder with nothing set builds the all-defaults material. */
  lemma BuildEmpty(defaults: DefaultTextures)
    ensures Build(NewBuilder(), defaults) ==
            Material(Vec3(1.0, 1.0, 1.0), Vec3(1.0, 1.0, 1.0), defaults.diffuseMap,
                     Vec3(0.0, 0.0, 0.0), defaults.specularMap, 0.0, defaults.emissiveMap)
  {
  }

  /** Each setter fixes exactly its own property of the built material and
      leaves every other property as it would have been. */
  lemma SettersSetOnlyTheirOwnField(b: MaterialBuilder, d: DefaultTextures, c: Vec3, p: real, t: Handle)
    ensures Build(WithAmbientColor(b, c), d) == Build(b, d).(ambientColor := c)
    ensures Build(WithDiffuseColor(b, c), d) == Build(b, d).(diffuseColor := c)
    ensures Build(WithSpecularColor(b, c), d) == Build(b, d).(specularColor := c)
    ensures Build(WithSpecularPower(b, p), d) == Build(b, d).(specularPower := p)
    ensures Build(WithDiffuseMap(b, t), d) == Build(b, d).(diffuseMap := t)
    ensures Build(WithSpecularMap(b, t), d) == Build(b, d).(specularMap := t)
    ensures Build(WithEmissiveMap(b, t), d) == Build(b, d).(emissiveMap := t)
  {
  }

  /** Setting a property twice keeps the last value. */
  lemma LastSetterWins(b: MaterialBuilder, c1: Vec3, c2: Vec3, p1: real, p2: real, t1: Handle, t2: Handle)
    ensures WithAmbientColor(WithAmbientColor(b, c1), c2) == WithAmbientColor(b, c2)
    ensures WithDiffuseColor(WithDiffuseColor(b, c1), c2) == WithDiffuseColor(b, c2)
    ensures WithSpecularColor(WithSpecularColor(b, c1), c2) == WithSpecularColor(b, c2)
    ensures WithSpecularPower(WithSpecularPower(b, p1), p2) == WithSpecularPower(b, p2)
    ensures WithDiffuseMap(WithDiffuseMap(b, t1), t2) == WithDiffuseMap(b, t2)
    ensures WithSpecularMap(WithSpecularMap(b, t1), t2) == WithSpecularMap(b, t2)
    ensures WithEmissiveMap(WithEmissiveMap(b, t1), t2) == WithEmissiveMap(b, t2)
  {
  }

  /** A builder with every property set builds a material that ignores the
      default textures entirely. */
  lemma FullySetIgnoresDefaults(b: MaterialBuilder, d1: DefaultTextures, d2: DefaultTextures)
    requires b.diffuseMap.Some? && b.specularMap.Some? && b.emissiveMap.Some?
    ensures Build(b, d1) == Build(b, d2)
  {
  }
}
