/** The light and material records the renderer shades with. They carry no
    behaviour of their own. `Material` has two identical declarations in the
    renderer (the shading and the materials module); it is declared once here. */
module Shading {
  import opened Geometry

  datatype Material = Material(
    ambientColor: Vec3,
    diffuseColor: Vec3,
    diffuseMap: Handle,
    specularColor: Vec3,
    specularMap: Handle,
    specularPower: real,
    emissiveMap: Handle)

  datatype LightAttenuation = LightAttenuation(constant: real, linear: real, quadratic: real)

  datatype PointLight = PointLight(
    position: Vec3,
    color: Vec3,
    attenuation: LightAttenuation,
    ambient: real,
    specular: real)

  datatype DirectionalLight = DirectionalLight(
    direction: Vec3,
    color: Vec3,
    ambient: real,
    specular: real)

  datatype SpotLight = SpotLight(
    position: Vec3,
    direction: Vec3,
    cutoffRadians: real,
    outerCutoffRadians: real,
    color: Vec3,
    attenuation: LightAttenuation,
    ambient: real,
    specular: real)
}
