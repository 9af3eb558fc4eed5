/** The demo scene the game host runs: ten crates, four point lights (the
    first orbiting the origin), one directional light and a spot light that
    follows the camera, viewed through either an arcball or a free-look
    controller, switched with the `C` key. */
module MultiCubeDemo {
  import opened Wrappers
  import opened Geometry
  import opened Shading
  import opened Shaders
  import opened Materials
  import opened Scenes
  import opened Cameras
  import opened Gameplay
  import opened Input
  import opened MathUtils
  import opened ObjModel
  import Renderer

  datatype CameraControllerType = Arcball | Freelook

  /** The other controller. */
  function Toggled(t: CameraControllerType): (r: CameraControllerType)
    ensures r != t
  {
    match t
    case Arcball => Freelook
    case Freelook => Arcball
  }

  /** The camera type after an event: a released `C` key switches it. */
  function CameraTypeAfter(t: CameraControllerType, e: WindowEvent): CameraControllerType {
    if IsKeyEvent(e, KeyC, Released) then Toggled(t) else t
  }

  /** Two `C` releases bring the first controller back. */
  lemma CameraToggleInvolution(t: CameraControllerType, e: WindowEvent)
    ensures CameraTypeAfter(CameraTypeAfter(t, e), e) == t
    ensures IsKeyEvent(e, KeyC, Released) <==> CameraTypeAfter(t, e) != t
  {
  }

  const POINT_LIGHTS: seq<PointLight> := [
    PointLight(Vec3(1.2, 1.0, 2.0), Vec3(0.8, 0.8, 0.8), LightAttenuation(1.0, 0.2, 0.01), 0.0425, 1.0),
    PointLight(Vec3(-4.0, 2.0, -12.0), Vec3(1.0, 0.0, 0.0), LightAttenuation(1.0, 0.2, 0.03), 0.0, 1.0),
    PointLight(Vec3(0.7, 0.2, 2.0), Vec3(1.0, 0.5, 0.0), LightAttenuation(1.0, 0.2, 0.03), 0.0, 1.0),
    PointLight(Vec3(2.3, -3.3, -4.0), Vec3(0.0, 0.0, 1.0), LightAttenuation(1.0, 0.2, 0.03), 0.0, 1.0)
  ]

  const DIRECTIONAL_LIGHT: DirectionalLight :=
    DirectionalLight(Vec3(0.0, -1.0, 0.0), Vec3(0.3, 0.3, 0.3), 0.01, 0.2)

  /** Cut-offs of 12.5 and 17.5 degrees, in radians. */
  const SPOT_LIGHT: SpotLight :=
    SpotLight(ZERO3, ZERO3, 0.2181662, 0.3054326, Vec3(0.8, 0.8, 0.8),
              LightAttenuation(1.0, 0.09, 0.032), 0.01, 1.0)

  const INITIAL_CUBE_POS: seq<Vec3> := [
    Vec3(0.0, 0.0, 0.0),
    Vec3(2.0, 5.0, -15.0),
    Vec3(-1.5, -2.2, -2.5),
    Vec3(-3.8, -2.0, -12.3),
    Vec3(2.4, -0.4, -3.5),
    Vec3(-1.7, 3.0, 7.5),
    Vec3(1.3, -2.0, -2.5),
    Vec3(1.5, 2.0, -2.5),
    Vec3(1.5, 0.2, -1.5),
    Vec3(-1.3, 1.0, -1.5)
  ]

  /** The crate material as the demo builds it: white specular colour,
      a power of 64 and the two crate maps, everything else by default. */
  function CrateBuilder(diffuseMap: Handle, specularMap: Handle): MaterialBuilder {
    WithSpecularMap(WithDiffuseMap(WithSpecularPower(WithSpecularColor(NewBuilder(), ONE3), 64.0),
                                   diffuseMap), specularMap)
  }

  /** The crate the demo builds is the crate the renderer hard-codes, with
      the default emissive map. */
  lemma CrateMatchesRendererCrate(diffuseMap: Handle, specularMap: Handle, defaults: DefaultTextures)
    ensures Build(CrateBuilder(diffuseMap, specularMap), defaults) ==
            Renderer.CrateMaterial(diffuseMap, specularMap, defaults.emissiveMap)
  {
  }

  lemma DemoPointLightsInRange()
    ensures forall i :: 0 <= i < |POINT_LIGHTS| ==>
              0.0 <= POINT_LIGHTS[i].ambient <= 1.0 && 0.0 <= POINT_LIGHTS[i].specular <= 1.0
  {
  }

  lemma DemoPointLightsAllActive()
    ensures |POINT_LIGHTS| == MAX_POINT_LIGHTS
    ensures ActiveLights(AddAll(EmptySlots(MAX_POINT_LIGHTS, POINT_LIGHTS[0]), MAX_POINT_LIGHTS, POINT_LIGHTS))
            == POINT_LIGHTS
  {
    var empty := EmptySlots(MAX_POINT_LIGHTS, POINT_LIGHTS[0]);
    ClearThenAddAll(empty, MAX_POINT_LIGHTS, POINT_LIGHTS);
    assert ClearedSlots(empty) == empty;
    assert POINT_LIGHTS[..Min(MAX_POINT_LIGHTS, |POINT_LIGHTS|)] == POINT_LIGHTS;
  }

  /** The demo's lights fit the shader's slots, so none is dropped (four
      point lights, whatever the comment beside them says), and every point
      light passes the ambient and specular range check. */
  lemma DemoLightsFitShaderSlots()
    ensures |POINT_LIGHTS| == MAX_POINT_LIGHTS
    ensures 1 <= MAX_DIRECTIONAL_LIGHTS && 1 <= MAX_SPOT_LIGHTS
    ensures forall i :: 0 <= i < |POINT_LIGHTS| ==>
              0.0 <= POINT_LIGHTS[i].ambient <= 1.0 && 0.0 <= POINT_LIGHTS[i].specular <= 1.0
    ensures ActiveLights(AddAll(EmptySlots(MAX_POINT_LIGHTS, POINT_LIGHTS[0]), MAX_POINT_LIGHTS, POINT_LIGHTS))
            == POINT_LIGHTS
  {
    DemoPointLightsInRange();
    DemoPointLightsAllActive();
  }

  class MultiCubeDemo {
    const arcball: ArcballCameraController
    const freelook: FreeLookCameraController
    var cameraType: CameraControllerType
    /** `sim_time_elapsed`, in seconds. */
    var simTimeElapsed: real
    var scene: Scene

    /** `new`: both controllers fresh, the arcball active, no time elapsed
        and an empty scene. */
    constructor ()
      ensures cameraType == Arcball && simTimeElapsed == 0.0 && scene == EMPTY_SCENE
      ensures arcball.Settings() == ArcballSettings(25.0, 25.0, -1.0, 25.0, 1.0, Some(20.0))
      ensures !arcball.allowMouseLook && arcball.mouseMotion == None && arcball.mouseScroll == None
      ensures freelook.fovY == 45.0 && freelook.yawDeg == -90.0 && freelook.pitchDeg == 0.0
      ensures fresh(arcball) && fresh(freelook)
    {
      arcball := new ArcballCameraController();
      freelook := new FreeLookCameraController();
      cameraType := Arcball;
      simTimeElapsed := 0.0;
      scene := EMPTY_SCENE;
    }

    /** `load_content`: decoding either crate map can fail, and the first
        failure is returned with the scene untouched. Otherwise the cube mesh
        is built with the crate material, and the scene gains ten crates
        sharing that mesh, the directional light, the spot light and the four
        point lights, in that order. */
    method LoadContent(diffuseMap: Result<Handle, ContentError>, specularMap: Result<Handle, ContentError>,
                       defaults: DefaultTextures, cubeMeshHandle: Handle)
      returns (r: Result<Mesh, ContentError>)
      modifies this
      ensures diffuseMap.Err? ==> r == Err(diffuseMap.error)
      ensures diffuseMap.Ok? && specularMap.Err? ==> r == Err(specularMap.error)
      ensures r.Err? ==> scene == old(scene)
      ensures r.Ok? <==> diffuseMap.Ok? && specularMap.Ok?
      ensures r.Ok? ==>
                r.value == Renderer.CubeMesh(Build(CrateBuilder(diffuseMap.value, specularMap.value), defaults))
      ensures r.Ok? ==> |scene.models| == |old(scene.models)| + |INITIAL_CUBE_POS|
      ensures r.Ok? ==> scene.models[..|old(scene.models)|] == old(scene.models)
      ensures r.Ok? ==> forall i :: 0 <= i < |INITIAL_CUBE_POS| ==>
                scene.models[|old(scene.models)| + i] ==
                SceneModel(cubeMeshHandle, INITIAL_CUBE_POS[i], QUAT_IDENTITY, ONE3)
      ensures r.Ok? ==> scene.directionalLights == old(scene.directionalLights) + [DIRECTIONAL_LIGHT]
      ensures r.Ok? ==> scene.spotLights == old(scene.spotLights) + [SPOT_LIGHT]
      ensures r.Ok? ==> scene.pointLights == old(scene.pointLights) + POINT_LIGHTS
      ensures cameraType == old(cameraType) && simTimeElapsed == old(simTimeElapsed)
    {
      if diffuseMap.Err? {
        return Err(diffuseMap.error);
      }
      if specularMap.Err? {
        return Err(specularMap.error);
      }
      var crate := Build(CrateBuilder(diffuseMap.value, specularMap.value), defaults);
      var mesh := Renderer.CubeMesh(crate);

      var models := scene.models;
      for i := 0 to |INITIAL_CUBE_POS|
        invariant |models| == |old(scene.models)| + i
        invariant models[..|old(scene.models)|] == old(scene.models)
        invariant forall k :: 0 <= k < i ==>
                    models[|old(scene.models)| + k] ==
                    SceneModel(cubeMeshHandle, INITIAL_CUBE_POS[k], QUAT_IDENTITY, ONE3)
      {
        models := models + [SceneModel(cubeMeshHandle, INITIAL_CUBE_POS[i], QUAT_IDENTITY, ONE3)];
      }
      scene := scene.(models := models);
      scene := scene.(directionalLights := scene.directionalLights + [DIRECTIONAL_LIGHT]);
      scene := scene.(spotLights := scene.spotLights + [SPOT_LIGHT]);

      var pointLights := scene.pointLights;
      for i := 0 to |POINT_LIGHTS|
        invariant pointLights == old(scene.pointLights) + POINT_LIGHTS[..i]
      {
        pointLights := pointLights + [POINT_LIGHTS[i]];
        assert POINT_LIGHTS[..i + 1] == POINT_LIGHTS[..i] + [POINT_LIGHTS[i]];
      }
      assert POINT_LIGHTS[..|POINT_LIGHTS|] == POINT_LIGHTS;
      scene := scene.(pointLights := pointLights);
      r := Ok(mesh);
    }

    /** `input`: a released `C` switches controllers first; the event then
        goes to the controller now active, whose answer is returned. The
        controller switch itself is never reported as used. */
    method Input(e: WindowEvent) returns (used: bool)
      modifies this, arcball, freelook
      ensures cameraType == CameraTypeAfter(old(cameraType), e)
      ensures cameraType == Arcball ==> (used <==> e.MouseInput? && e.button == LeftButton)
      ensures cameraType == Arcball && used ==> arcball.allowMouseLook == (e.state == Pressed)
      ensures cameraType == Freelook ==> (used <==> MoveFlagOfEvent(e).Some?)
      ensures cameraType == Freelook && used ==>
                freelook.Flag(MoveFlagOfEvent(e).value) == (e.state == Pressed)
      ensures cameraType == Arcball && !used ==> arcball.allowMouseLook == old(arcball.allowMouseLook)
      ensures cameraType == Arcball ==>
                arcball.mouseMotion == old(arcball.mouseMotion) && arcball.mouseScroll == old(arcball.mouseScroll)
      ensures cameraType == Arcball ==> unchanged(freelook)
      ensures cameraType == Freelook ==>
                forall flag :: MoveFlagOfEvent(e) != Some(flag) ==> freelook.Flag(flag) == old(freelook.Flag(flag))
      ensures cameraType == Freelook ==>
                freelook.mouseDelta == old(freelook.mouseDelta) &&
                freelook.scrollWheelDelta == old(freelook.scrollWheelDelta)
      ensures cameraType == Freelook ==>
                freelook.pitchDeg == old(freelook.pitchDeg) && freelook.yawDeg == old(freelook.yawDeg) &&
                freelook.fovY == old(freelook.fovY)
      ensures cameraType == Freelook ==> unchanged(arcball)
      ensures IsKeyEvent(e, KeyC, Released) ==> !used
      ensures scene == old(scene) && simTimeElapsed == old(simTimeElapsed)
    {
      if e.KeyboardInput? && e.physicalKey == Code(KeyC) && e.state == Released {
        cameraType := Toggled(cameraType);
      }
      match cameraType {
        case Arcball => used := arcball.ProcessInput(e);
        case Freelook => used := freelook.ProcessInput(e);
      }
    }

    /** `update_sim`: only the simulation clock advances. */
    method UpdateSim(deltaSecs: real)
      modifies this
      ensures simTimeElapsed == old(simTimeElapsed) + deltaSecs
      ensures scene == old(scene) && cameraType == old(cameraType)
    {
      simTimeElapsed := simTimeElapsed + deltaSecs;
    }

    /** The active controller moves the camera; the other controller and its
        accumulated input are left alone. The controllers are passed in
        rather than read from the fields, which keeps the frame reasoning
        local to the two calls. */
    static method UpdateActiveCamera(m: Math, cameraType: CameraControllerType,
                                     arcball: ArcballCameraController, freelook: FreeLookCameraController,
                                     camera: Camera, deltaSecs: real)
      requires camera.Valid()
      modifies arcball, freelook, camera
      ensures camera.Valid()
      ensures camera.viewportWidth == old(camera.viewportWidth)
      ensures camera.viewportHeight == old(camera.viewportHeight)
      ensures cameraType == Arcball ==>
                camera.eye ==
                ClampDistanceAsWritten(m, old(camera.target),
                                       ArcballUnclamped(m, old(camera.eye), old(camera.target), old(camera.up),
                                                        old(camera.worldUp), old(camera.viewportWidth),
                                                        old(camera.viewportHeight), Vec2OrZero(old(arcball.mouseMotion)),
                                                        Vec2OrZero(old(arcball.mouseScroll)), arcball.Settings(), deltaSecs),
                                       arcball.minDistance, arcball.maxDistance)
      ensures cameraType == Arcball ==> camera.target == old(camera.target) && camera.fovY == old(camera.fovY)
      ensures cameraType == Arcball ==> arcball.mouseMotion == None && arcball.mouseScroll == None
      ensures cameraType == Arcball ==> arcball.allowMouseLook == old(arcball.allowMouseLook)
      ensures cameraType == Arcball ==> unchanged(freelook)
      ensures cameraType == Freelook ==>
                camera.eye ==
                FreeLookPosition(old(camera.eye), m.forward(old(camera.eye), old(camera.target)), old(camera.up),
                                 FrameSpeed(freelook.moveSpeed, deltaSecs), old(freelook.moveForward),
                                 old(freelook.moveBackward), old(freelook.moveLeft), old(freelook.moveRight))
      ensures cameraType == Freelook ==>
                freelook.yawDeg ==
                YawClamp(old(freelook.yawDeg) + FrameSpeed(freelook.lookSpeed, deltaSecs) * Vec2OrZero(old(freelook.mouseDelta)).x)
      ensures cameraType == Freelook ==>
                freelook.pitchDeg ==
                old(freelook.pitchDeg) - FrameSpeed(freelook.lookSpeed, deltaSecs) * Vec2OrZero(old(freelook.mouseDelta)).y
      ensures cameraType == Freelook ==>
                freelook.fovY == FovClamp(old(freelook.fovY) + RealOrZero(old(freelook.scrollWheelDelta)))
      ensures cameraType == Freelook ==>
                camera.target == Add3(camera.eye, LookDirection(m, freelook.yawDeg, freelook.pitchDeg))
      ensures cameraType == Freelook ==> camera.fovY == m.toRadians(freelook.fovY)
      ensures cameraType == Freelook ==> freelook.mouseDelta == None && freelook.scrollWheelDelta == None
      ensures cameraType == Freelook ==> forall flag :: freelook.Flag(flag) == old(freelook.Flag(flag))
      ensures cameraType == Freelook ==> unchanged(arcball)
      ensures camera.up == old(camera.up) && camera.worldUp == old(camera.worldUp)
      ensures camera.aspect == old(camera.aspect) && camera.zNear == old(camera.zNear) && camera.zFar == old(camera.zFar)
    {
      match cameraType {
        case Arcball => arcball.UpdateCamera(m, camera, deltaSecs);
        case Freelook => freelook.UpdateCamera(m, camera, deltaSecs);
      }
    }

    /** `prepare_render`: the active controller moves the camera (see
        `UpdateActiveCamera`), the first spot light takes the camera's
        position and direction, and the first point light moves along its
        orbit for the simulation time. The scene must hold a spot and a point
        light (the indexing panics otherwise). */
    method PrepareRender(m: Math, camera: Camera, deltaSecs: real)
      requires camera.Valid() && |scene.spotLights| > 0 && |scene.pointLights| > 0
      modifies this, arcball, freelook, camera
      ensures camera.Valid()
      ensures camera.viewportWidth == old(camera.viewportWidth)
      ensures camera.viewportHeight == old(camera.viewportHeight)
      ensures scene.spotLights ==
              old(scene.spotLights)[0 := old(scene.spotLights)[0].(position := camera.eye,
                                                                  direction := camera.Forward(m))]
      ensures scene.pointLights ==
              old(scene.pointLights)[0 := old(scene.pointLights)[0].(position := OrbitPosition(m, simTimeElapsed))]
      ensures cameraType == Arcball ==>
                camera.eye ==
                ClampDistanceAsWritten(m, old(camera.target),
                                       ArcballUnclamped(m, old(camera.eye), old(camera.target), old(camera.up),
                                                        old(camera.worldUp), old(camera.viewportWidth),
                                                        old(camera.viewportHeight), Vec2OrZero(old(arcball.mouseMotion)),
                                                        Vec2OrZero(old(arcball.mouseScroll)), arcball.Settings(), deltaSecs),
                                       arcball.minDistance, arcball.maxDistance)
      ensures cameraType == Arcball ==> camera.target == old(camera.target) && camera.fovY == old(camera.fovY)
      ensures cameraType == Arcball ==> arcball.mouseMotion == None && arcball.mouseScroll == None
      ensures cameraType == Arcball ==> arcball.allowMouseLook == old(arcball.allowMouseLook)
      ensures cameraType == Arcball ==> unchanged(freelook)
      ensures cameraType == Freelook ==>
                camera.eye ==
                FreeLookPosition(old(camera.eye), old(m.forward(camera.eye, camera.target)), old(camera.up),
                                 FrameSpeed(freelook.moveSpeed, deltaSecs), old(freelook.moveForward),
                                 old(freelook.moveBackward), old(freelook.moveLeft), old(freelook.moveRight))
      ensures cameraType == Freelook ==>
                freelook.yawDeg ==
                YawClamp(old(freelook.yawDeg) + FrameSpeed(freelook.lookSpeed, deltaSecs) * Vec2OrZero(old(freelook.mouseDelta)).x)
      ensures cameraType == Freelook ==>
                freelook.pitchDeg ==
                old(freelook.pitchDeg) - FrameSpeed(freelook.lookSpeed, deltaSecs) * Vec2OrZero(old(freelook.mouseDelta)).y
      ensures cameraType == Freelook ==>
                freelook.fovY == FovClamp(old(freelook.fovY) + RealOrZero(old(freelook.scrollWheelDelta)))
      ensures cameraType == Freelook ==>
                camera.target == Add3(camera.eye, LookDirection(m, freelook.yawDeg, freelook.pitchDeg))
      ensures cameraType == Freelook ==> camera.fovY == m.toRadians(freelook.fovY)
      ensures cameraType == Freelook ==> freelook.mouseDelta == None && freelook.scrollWheelDelta == None
      ensures cameraType == Freelook ==> forall flag :: freelook.Flag(flag) == old(freelook.Flag(flag))
      ensures cameraType == Freelook ==> unchanged(arcball)
      ensures camera.up == old(camera.up) && camera.worldUp == old(camera.worldUp)
      ensures camera.aspect == old(camera.aspect) && camera.zNear == old(camera.zNear) && camera.zFar == old(camera.zFar)
      ensures scene.models == old(scene.models) && scene.directionalLights == old(scene.directionalLights)
      ensures cameraType == old(cameraType) && simTimeElapsed == old(simTimeElapsed)
    {
      UpdateActiveCamera(m, cameraType, arcball, freelook, camera, deltaSecs);
      var spot := scene.spotLights[0].(position := camera.eye, direction := camera.Forward(m));
      scene := scene.(spotLights := scene.spotLights[0 := spot]);
      var orbiting := scene.pointLights[0].(position := OrbitPosition(m, simTimeElapsed));
      scene := scene.(pointLights := scene.pointLights[0 := orbiting]);
    }

    /** `mouse_motion`: the motion goes to the active controller only. */
    method MouseMotion(deltaX: real, deltaY: real)
      modifies arcball, freelook
      ensures cameraType == Arcball ==>
                arcball.mouseMotion == (if old(arcball.allowMouseLook)
                                        then AccumulateVec2(old(arcball.mouseMotion), Vec2(deltaX, deltaY))
                                        else old(arcball.mouseMotion))
      ensures cameraType == Arcball ==>
                arcball.allowMouseLook == old(arcball.allowMouseLook) && arcball.mouseScroll == old(arcball.mouseScroll)
      ensures cameraType == Arcball ==> unchanged(freelook)
      ensures cameraType == Freelook ==>
                freelook.mouseDelta == AccumulateVec2(old(freelook.mouseDelta), Vec2(deltaX, deltaY))
      ensures cameraType == Freelook ==>
                freelook.scrollWheelDelta == old(freelook.scrollWheelDelta) &&
                forall flag :: freelook.Flag(flag) == old(freelook.Flag(flag))
      ensures cameraType == Freelook ==>
                freelook.pitchDeg == old(freelook.pitchDeg) && freelook.yawDeg == old(freelook.yawDeg) &&
                freelook.fovY == old(freelook.fovY)
      ensures cameraType == Freelook ==> unchanged(arcball)
    {
      match cameraType {
        case Arcball => arcball.ProcessMouseMotion(Vec2(deltaX, deltaY));
        case Freelook => freelook.ProcessMouseMotion(Vec2(deltaX, deltaY));
      }
    }

    /** `mouse_scroll_wheel`: the two components are swapped before the
        active controller sees them, so the free-look zoom follows the
        vertical wheel. */
    method MouseScrollWheel(deltaX: real, deltaY: real)
      modifies arcball, freelook
      ensures cameraType == Arcball ==>
                arcball.mouseScroll == AccumulateVec2(old(arcball.mouseScroll), Vec2(deltaY, deltaX))
      ensures cameraType == Arcball ==>
                arcball.allowMouseLook == old(arcball.allowMouseLook) && arcball.mouseMotion == old(arcball.mouseMotion)
      ensures cameraType == Arcball ==> unchanged(freelook)
      ensures cameraType == Freelook ==>
                freelook.scrollWheelDelta == AccumulateReal(old(freelook.scrollWheelDelta), deltaY)
      ensures cameraType == Freelook ==>
                freelook.mouseDelta == old(freelook.mouseDelta) &&
                forall flag :: freelook.Flag(flag) == old(freelook.Flag(flag))
      ensures cameraType == Freelook ==>
                freelook.pitchDeg == old(freelook.pitchDeg) && freelook.yawDeg == old(freelook.yawDeg) &&
                freelook.fovY == old(freelook.fovY)
      ensures cameraType == Freelook ==> unchanged(arcball)
    {
      match cameraType {
        case Arcball => arcball.ProcessMouseWheel(Vec2(deltaY, deltaX));
        case Freelook => freelook.ProcessMouseWheel(Vec2(deltaY, deltaX));
      }
    }

    /** `render_scene` */
    function RenderScene(): Scene
      reads this
    {
      scene
    }
  }
}
