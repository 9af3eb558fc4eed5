/** A scene: the lights and models drawn together. It is a list of things,
    not a scene graph. A model is kept only as what placed it: its shared
    mesh and its transform. */
module Scenes {
  import opened Geometry
  import opened Shading

  /** A placed model: the mesh it shares with other models, and its
      position, rotation and scale. */
  datatype SceneModel = SceneModel(mesh: Handle, position: Vec3, rotation: Quat, scale: Vec3)

  datatype Scene = Scene(
    pointLights: seq<PointLight>,
    directionalLights: seq<DirectionalLight>,
    spotLights: seq<SpotLight>,
    models: seq<SceneModel>)

  /** `Scene::default()` */
  const EMPTY_SCENE: Scene := Scene([], [], [], [])
}
