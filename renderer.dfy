/** The renderer: owns the camera and its arcball controller, the per-frame
    shader values, the scene's three lights and ten cubes, the depth pass and
    the light debug pass, and turns each frame into an ordered list of render
    passes.

    Device, surface, queue, pipelines and command encoders are left out; a
    GPU resource is a `Handle`, uploading is the buffer state of
    `GpuBuffers`, and what a frame submits is its `PassRecord` list. */
module Renderer {
  import opened Wrappers
  import opened Geometry
  import opened Shading
  import opened Shaders
  import opened Scenes
  import opened RenderPasses
  import opened Cameras
  import opened Gameplay
  import opened Input
  import opened BuiltinMeshes
  import opened ObjModel
  import opened MathUtils
  import opened DepthPasses
  import LightDebugPass
  import Debug

  /** A window or surface size in physical pixels. */
  datatype Size = Size(width: nat, height: nat)

  /** Why the surface could not hand out a back buffer. */
  datatype SurfaceError = Lost | Outdated | OutOfMemory | Timeout

  const INITIAL_CUBE_POS: seq<Vec3> := [
    Vec3(0.0, 0.0, 0.0),
    Vec3(2.0, 5.0, -15.0),
    Vec3(-1.5, -2.2, -2.5),
    Vec3(-3.8, -2.0, -12.3),
    Vec3(2.4, -0.4, -3.5),
    Vec3(-1.7, 3.0, 7.5),
    Vec3(1.3, -2.0, -2.5),
    Vec3(1.5, 2.0, -2.5),
    Vec3(1.5, 0.2, -1.5),
    Vec3(-1.3, 1.0, -1.5)
  ]

  const CAMERA_POS: Vec3 := Vec3(1.5, 1.0, 5.0)
  const CAMERA_LOOK_AT: Vec3 := Vec3(0.0, 0.0, 0.0)
  const CAMERA_UP: Vec3 := Vec3(0.0, 1.0, 0.0)

  const POINT_LIGHT: PointLight :=
    PointLight(Vec3(1.2, 1.0, 2.0), Vec3(0.8, 0.8, 0.8), LightAttenuation(1.0, 0.09, 0.032), 0.0425, 1.0)
  const DIRECTIONAL_LIGHT: DirectionalLight :=
    DirectionalLight(Vec3(0.0, -1.0, 0.0), Vec3(0.3, 0.3, 0.3), 0.01, 1.0)
  /** Cut-offs of 12.5 and 17.5 degrees, in radians. */
  const SPOT_LIGHT: SpotLight :=
    SpotLight(ZERO3, ZERO3, 0.2181662, 0.3054326, Vec3(0.8, 0.8, 0.8),
              LightAttenuation(1.0, 0.09, 0.032), 0.01, 1.0)

  /** The main pass starts from opaque black and the far depth plane. */
  const CLEAR_COLOR: Color := Color(0.0, 0.0, 0.0, 1.0)
  const CLEAR_DEPTH: real := 1.0

  /** The crate material of the built-in cube: white ambient, diffuse and
      specular colour, a specular power of 64, and the three maps given. */
  function CrateMaterial(diffuseMap: Handle, specularMap: Handle, emissiveMap: Handle): (mat: Material)
    ensures mat.ambientColor == ONE3 && mat.diffuseColor == ONE3 && mat.specularColor == ONE3
    ensures mat.specularPower == 64.0
    ensures mat.diffuseMap == diffuseMap && mat.specularMap == specularMap && mat.emissiveMap == emissiveMap
  {
    Material(ONE3, ONE3, diffuseMap, ONE3, specularMap, 64.0, emissiveMap)
  }

  /** The cube mesh every model shares: the built-in cube tables, drawn as
      one submesh covering all 36 indices from vertex 0. */
  function CubeMesh(material: Material): (mesh: Mesh)
    ensures (mesh.vertices, mesh.indices) == BuiltinMeshTables(Cube)
    ensures mesh.indexCount == |mesh.indices| == |mesh.vertices| == 36
    ensures |mesh.submeshes| == 1
    ensures mesh.submeshes[0].indexStart == 0 && mesh.submeshes[0].indexEnd == mesh.indexCount
    ensures mesh.submeshes[0].baseVertex == 0 && mesh.submeshes[0].material == material
  {
    var tables := BuiltinMeshTables(Cube);
    Mesh(tables.0, tables.1, |tables.1|, [Submesh(0, |tables.1|, 0, material)])
  }

  /** The two per-frame setters the renderer calls for its directional and
      spot light. They are not part of this model, so they are given as
      functions on the per-frame values. */
  datatype LightSetters = LightSetters(
    setDirectionalLight: (PerFramePackedUniforms, DirectionalLight) -> PerFramePackedUniforms,
    setSpotLight: (PerFramePackedUniforms, SpotLight) -> PerFramePackedUniforms)

  /** The setters keep the light slots within their capacities. */
  ghost predicate KeepsWellFormed(setters: LightSetters) {
    (forall u, l :: PerFrameWellFormed(u) ==> PerFrameWellFormed(setters.setDirectionalLight(u, l))) &&
    (forall u, l :: PerFrameWellFormed(u) ==> PerFrameWellFormed(setters.setSpotLight(u, l)))
  }

  /** The per-frame values after `update` has written them: the camera's
      view-projection and position (as a point), both lights, and the
      elapsed time, in that order. */
  function PerFrameAfterUpdate(setters: LightSetters, u: PerFramePackedUniforms, viewProjection: Mat4,
                               eye: Vec3, directional: DirectionalLight, spot: SpotLight,
                               seconds: real): PerFramePackedUniforms
  {
    var u1 := u.(viewProjection := viewProjection).(viewPos := Vec4(eye.x, eye.y, eye.z, 1.0));
    var u2 := setters.setSpotLight(setters.setDirectionalLight(u1, directional), spot);
    u2.(timeElapsedSeconds := seconds)
  }

  /** The time and the camera written by `update` are what the shader sees
      when the light setters leave the camera fields alone. */
  lemma PerFrameAfterUpdateKeepsCameraAndTime(setters: LightSetters, u: PerFramePackedUniforms,
                                              viewProjection: Mat4, eye: Vec3,
                                              directional: DirectionalLight, spot: SpotLight, seconds: real)
    requires forall v, l :: setters.setDirectionalLight(v, l).viewProjection == v.viewProjection &&
                            setters.setDirectionalLight(v, l).viewPos == v.viewPos
    requires forall v, l :: setters.setSpotLight(v, l).viewProjection == v.viewProjection &&
                            setters.setSpotLight(v, l).viewPos == v.viewPos
    ensures var r := PerFrameAfterUpdate(setters, u, viewProjection, eye, directional, spot, seconds);
            r.viewProjection == viewProjection && r.viewPos == Vec4(eye.x, eye.y, eye.z, 1.0) &&
            r.timeElapsedSeconds == seconds
  {
    var u1 := u.(viewProjection := viewProjection).(viewPos := Vec4(eye.x, eye.y, eye.z, 1.0));
    var u2 := setters.setDirectionalLight(u1, directional);
    assert u2.viewProjection == viewProjection && u2.viewPos == u1.viewPos;
    var u3 := setters.setSpotLight(u2, spot);
    assert u3.viewProjection == viewProjection && u3.viewPos == u1.viewPos;
  }

  /** The passes of one presented frame, in order: the models, the lamp
      overlay, and the depth visualisation when it is switched on. */
  function FramePasses(modelCount: nat, lampCount: nat, visualizeDepth: bool): seq<PassRecord> {
    [MainPass(Clear(CLEAR_COLOR), Clear(CLEAR_DEPTH), modelCount),
     LightDebugOverlay(Load, Load, DrawIndexed(0, |Debug.CUBE_INDICES|, 0, 0, lampCount))]
    + (if visualizeDepth then [DepthVisualization(Load, DrawIndexed(0, |Debug.QUAD_INDICES|, 0, 0, 1))] else [])
  }

  /** Only the first pass clears; every later pass draws over it. The lamps
      are tested against the models' depth, one cube instance per lamp, and
      the depth visualisation, a single quad, comes last exactly when it is
      switched on. */
  lemma FramePassesOrder(modelCount: nat, lampCount: nat, visualizeDepth: bool)
    ensures var ps := FramePasses(modelCount, lampCount, visualizeDepth);
            |ps| == (if visualizeDepth then 3 else 2) &&
            ps[0] == MainPass(Clear(CLEAR_COLOR), Clear(CLEAR_DEPTH), modelCount) &&
            (forall i :: 1 <= i < |ps| ==> !ps[i].MainPass? && ps[i].colorLoad == Load) &&
            ps[1].LightDebugOverlay? && ps[1].depthLoad == Load &&
            ps[1].draw == DrawIndexed(0, 36, 0, 0, lampCount) &&
            (visualizeDepth <==> ps[|ps| - 1].DepthVisualization?) &&
            (visualizeDepth ==> ps[2].draw == DrawIndexed(0, 6, 0, 0, 1))
  {
    Debug.CubeTablesWellFormed();
    Debug.QuadTablesWellFormed();
  }

  /** The lamp count after one frame: `update` adds the orbiting light's
      lamp, and only a presented frame reaches `finish_frame`. */
  function LampCountAfterFrame(count: nat, presented: bool): nat {
    if presented then 0 else count + 1
  }

  function LampCountAfterFrames(count: nat, presented: seq<bool>): nat
    decreases |presented|
  {
    if presented == [] then count
    else LampCountAfterFrame(LampCountAfterFrames(count, presented[..|presented| - 1]), presented[|presented| - 1])
  }

  /** The number of frames at the end of a run that failed to present. */
  function TrailingFailures(presented: seq<bool>): nat
    decreases |presented|
  {
    if presented == [] || presented[|presented| - 1] then 0
    else TrailingFailures(presented[..|presented| - 1]) + 1
  }

  /** After a run of frames the lamp count is the number of frames since the
      last presented one, or grows by the whole run when none was. */
  lemma {:induction false} LampCountCountsUnpresentedFrames(count: nat, presented: seq<bool>)
    ensures LampCountAfterFrames(count, presented) ==
            if true in presented then TrailingFailures(presented) else count + |presented|
    decreases |presented|
  {
    if presented != [] {
      var init := presented[..|presented| - 1];
      LampCountCountsUnpresentedFrames(count, init);
      assert presented == init + [presented[|presented| - 1]];
      assert true in presented <==> true in init || presented[|presented| - 1];
    }
  }

  /** So a hundred frames in a row that fail to present use up all lamp
      slots, and the next `update` has none left for the orbiting light. */
  lemma HundredFailedFramesExhaustLamps(count: nat)
    ensures LampCountAfterFrames(count, seq(LightDebugPass.LAMP_CAPACITY, _ => false))
            >= LightDebugPass.LAMP_CAPACITY
  {
    var run := seq(LightDebugPass.LAMP_CAPACITY, _ => false);
    LampCountCountsUnpresentedFrames(count, run);
    assert !(true in run);
  }

  class Renderer {
    var windowSize: Size
    var surfaceSize: Size
    const perFrame: PerFrameShaderVals
    const depthPass: DepthPass
    const lightDebugPass: LightDebugPass.LightDebugPass
    /** `sys_time_elapsed`, in seconds. */
    var sysTimeElapsed: real
    const debugState: Debug.DebugState
    const camera: Camera
    const cameraController: ArcballCameraController
    var pointLight: PointLight
    var directionalLight: DirectionalLight
    var spotLight: SpotLight
    var models: seq<SceneModel>
    /** The mesh the ten models share. */
    const cubeMesh: Mesh
    var timeToUpdate: real

    /** The window, the surface configuration, the camera's viewport and the
        depth texture always have the same, non-zero size. */
    ghost predicate Valid()
      reads this, perFrame, perFrame.uniforms, lightDebugPass, lightDebugPass.lampInstances,
            lightDebugPass.lampInstances.buffer, camera, depthPass
    {
      perFrame.Valid() && lightDebugPass.Valid() && camera.Valid() &&
      windowSize.width > 0 && windowSize.height > 0 && surfaceSize == windowSize &&
      camera.viewportWidth == windowSize.width && camera.viewportHeight == windowSize.height &&
      depthPass.textureWidth == windowSize.width && depthPass.textureHeight == windowSize.height &&
      sysTimeElapsed >= 0.0
    }

    /** `new`: a camera at (1.5, 1, 5) looking at the origin with a 45 degree
        field of view, per-frame values told whether the surface is sRGB,
        ten cubes sharing one mesh, the three fixed lights, and fresh depth
        and light debug passes sized to the window. Texture loading and GPU
        object creation are given as handles. */
    constructor (m: Math, width: nat, height: nat, surfaceIsSrgb: bool, perFrameBindGroup: Handle,
                 cubeMeshHandle: Handle, crateDiffuse: Handle, crateSpecular: Handle, emission: Handle)
      requires width > 0 && height > 0
      ensures Valid()
      ensures windowSize == Size(width, height)
      ensures camera.eye == CAMERA_POS && camera.target == CAMERA_LOOK_AT && camera.up == CAMERA_UP
      ensures camera.fovY == m.toRadians(45.0) && camera.zNear == 0.1 && camera.zFar == 100.0
      ensures perFrame.Values() == PER_FRAME_DEFAULT.(outputIsSrgb := if surfaceIsSrgb then 1 else 0)
      ensures perFrame.uniforms.dirty
      ensures cubeMesh == CubeMesh(CrateMaterial(crateDiffuse, crateSpecular, emission))
      ensures |models| == |INITIAL_CUBE_POS|
      ensures forall i :: 0 <= i < |models| ==>
                models[i] == SceneModel(cubeMeshHandle, INITIAL_CUBE_POS[i], QUAT_IDENTITY, ONE3)
      ensures pointLight == POINT_LIGHT && directionalLight == DIRECTIONAL_LIGHT && spotLight == SPOT_LIGHT
      ensures sysTimeElapsed == 0.0 && timeToUpdate == 0.0
      ensures !debugState.visualizeDepthPass && lightDebugPass.lampCount == 0
      ensures cameraController.Settings() == ArcballSettings(25.0, 25.0, -1.0, 25.0, 1.0, Some(20.0))
      ensures fresh(perFrame) && fresh(perFrame.uniforms) && fresh(camera) && fresh(depthPass)
      ensures fresh(lightDebugPass) && fresh(lightDebugPass.lampInstances)
      ensures fresh(lightDebugPass.lampInstances.buffer) && fresh(debugState) && fresh(cameraController)
    {
      var cam := new Camera(CAMERA_POS, CAMERA_LOOK_AT, CAMERA_UP, m.toRadians(45.0), 0.1, 100.0,
                            width, height);
      var vals := new PerFrameShaderVals(perFrameBindGroup);
      vals.SetOutputIsSrgb(surfaceIsSrgb);
      var ms: seq<SceneModel> := [];
      for i := 0 to |INITIAL_CUBE_POS|
        invariant |ms| == i
        invariant forall k :: 0 <= k < i ==>
                    ms[k] == SceneModel(cubeMeshHandle, INITIAL_CUBE_POS[k], QUAT_IDENTITY, ONE3)
      {
        ms := ms + [SceneModel(cubeMeshHandle, INITIAL_CUBE_POS[i], QUAT_IDENTITY, ONE3)];
      }
      var depth := new DepthPass(width, height);
      var lamps := new LightDebugPass.LightDebugPass();
      windowSize := Size(width, height);
      surfaceSize := Size(width, height);
      perFrame := vals;
      depthPass := depth;
      lightDebugPass := lamps;
      sysTimeElapsed := 0.0;
      debugState := new Debug.DebugState();
      camera := cam;
      cameraController := new ArcballCameraController();
      pointLight := POINT_LIGHT;
      directionalLight := DIRECTIONAL_LIGHT;
      spotLight := SPOT_LIGHT;
      models := ms;
      cubeMesh := CubeMesh(CrateMaterial(crateDiffuse, crateSpecular, emission));
      timeToUpdate := 0.0;
    }

    /** `window_size`: never zero in either dimension. */
    function WindowSize(): (s: Size)
      reads this, perFrame, perFrame.uniforms, lightDebugPass, lightDebugPass.lampInstances,
            lightDebugPass.lampInstances.buffer, camera, depthPass
      ensures Valid() ==> s.width > 0 && s.height > 0
    {
      windowSize
    }

    /** `resize`: a size with a zero dimension is refused and nothing
        changes; any other size becomes the window, surface, depth texture
        and camera viewport size. */
    method Resize(width: nat, height: nat)
      requires Valid()
      modifies this, depthPass, camera
      ensures Valid()
      ensures width == 0 || height == 0 ==> windowSize == old(windowSize)
      ensures width > 0 && height > 0 ==> windowSize == Size(width, height)
      ensures camera.eye == old(camera.eye) && camera.target == old(camera.target)
      ensures camera.up == old(camera.up) && camera.fovY == old(camera.fovY)
      ensures camera.zNear == old(camera.zNear) && camera.zFar == old(camera.zFar)
      ensures models == old(models) && sysTimeElapsed == old(sysTimeElapsed)
      ensures pointLight == old(pointLight) && spotLight == old(spotLight)
      ensures directionalLight == old(directionalLight) && timeToUpdate == old(timeToUpdate)
    {
      if width == 0 || height == 0 {
        return;
      }
      windowSize := Size(width, height);
      surfaceSize := Size(width, height);
      depthPass.Resize(width, height);
      var _ := camera.SetViewportSize(width, height);
    }

    /** `input`: the depth-visualisation toggle sees every event; the
        camera controller decides whether the event was used. */
    method Input(e: WindowEvent) returns (used: bool)
      modifies debugState, cameraController
      ensures debugState.visualizeDepthPass == Debug.ToggledBy(old(debugState.visualizeDepthPass), e)
      ensures used <==> e.MouseInput? && e.button == LeftButton
      ensures used ==> cameraController.allowMouseLook == (e.state == Pressed)
      ensures !used ==> cameraController.allowMouseLook == old(cameraController.allowMouseLook)
      ensures cameraController.mouseMotion == old(cameraController.mouseMotion)
      ensures cameraController.mouseScroll == old(cameraController.mouseScroll)
    {
      debugState.ProcessInput(e);
      used := cameraController.ProcessInput(e);
    }

    /** `update`: the controller moves the camera, the spot light follows
        the camera, the clock advances, the per-frame values are written and
        uploaded, the point light moves along its orbit and gets a lamp in
        the light debug pass, and the lamps are uploaded. A lamp slot must be
        free: the slot index is out of bounds otherwise. */
    method Update(m: Math, setters: LightSetters, deltaSecs: real)
      requires Valid() && KeepsWellFormed(setters) && deltaSecs >= 0.0
      requires lightDebugPass.lampCount < LightDebugPass.LAMP_CAPACITY
      modifies this, camera, cameraController, perFrame.uniforms, lightDebugPass,
               lightDebugPass.lampInstances.buffer
      ensures Valid()
      ensures camera.eye ==
              ClampDistanceAsWritten(m, old(camera.target),
                                     ArcballUnclamped(m, old(camera.eye), old(camera.target), old(camera.up),
                                                      old(camera.worldUp), old(camera.viewportWidth),
                                                      old(camera.viewportHeight),
                                                      Vec2OrZero(old(cameraController.mouseMotion)),
                                                      Vec2OrZero(old(cameraController.mouseScroll)),
                                                      cameraController.Settings(), deltaSecs),
                                     cameraController.minDistance, cameraController.maxDistance)
      ensures camera.target == old(camera.target) && windowSize == old(windowSize)
      ensures cameraController.mouseMotion == None && cameraController.mouseScroll == None
      ensures spotLight == old(spotLight).(position := camera.eye, direction := camera.Forward(m))
      ensures sysTimeElapsed == old(sysTimeElapsed) + deltaSecs
      ensures pointLight == old(pointLight).(position := OrbitPosition(m, sysTimeElapsed))
      ensures directionalLight == old(directionalLight) && models == old(models)
      ensures perFrame.Values() ==
              PerFrameAfterUpdate(setters, old(perFrame.Values()), camera.ViewProjection(m), camera.eye,
                                  directionalLight, spotLight, sysTimeElapsed)
      ensures !perFrame.uniforms.dirty && perFrame.uniforms.gpuCopy == perFrame.Values()
      ensures lightDebugPass.lampCount == old(lightDebugPass.lampCount) + 1
      ensures lightDebugPass.Instances() ==
              old(lightDebugPass.Instances())[old(lightDebugPass.lampCount) :=
                LightDebugPass.LampInstance(m, old(lightDebugPass.Instances())[old(lightDebugPass.lampCount)],
                                            pointLight)]
      ensures !lightDebugPass.lampInstances.buffer.dirty
      ensures lightDebugPass.lampInstances.buffer.gpuCopy == lightDebugPass.Instances()
    {
      UpdateCameraAndUniforms(m, setters, deltaSecs);
      UpdateLamp(m);
    }

    /** The first half of `update`: the camera moves, the spot light follows
        it, the clock advances and the per-frame values are uploaded. */
    method UpdateCameraAndUniforms(m: Math, setters: LightSetters, deltaSecs: real)
      requires Valid() && KeepsWellFormed(setters) && deltaSecs >= 0.0
      modifies this, camera, cameraController, perFrame.uniforms
      ensures Valid()
      ensures camera.eye ==
              ClampDistanceAsWritten(m, old(camera.target),
                                     ArcballUnclamped(m, old(camera.eye), old(camera.target), old(camera.up),
                                                      old(camera.worldUp), old(camera.viewportWidth),
                                                      old(camera.viewportHeight),
                                                      Vec2OrZero(old(cameraController.mouseMotion)),
                                                      Vec2OrZero(old(cameraController.mouseScroll)),
                                                      cameraController.Settings(), deltaSecs),
                                     cameraController.minDistance, cameraController.maxDistance)
      ensures camera.target == old(camera.target) && windowSize == old(windowSize)
      ensures cameraController.mouseMotion == None && cameraController.mouseScroll == None
      ensures spotLight == old(spotLight).(position := camera.eye, direction := camera.Forward(m))
      ensures sysTimeElapsed == old(sysTimeElapsed) + deltaSecs
      ensures pointLight == old(pointLight)
      ensures directionalLight == old(directionalLight) && models == old(models)
      ensures perFrame.Values() ==
              PerFrameAfterUpdate(setters, old(perFrame.Values()), camera.ViewProjection(m), camera.eye,
                                  directionalLight, spotLight, sysTimeElapsed)
      ensures !perFrame.uniforms.dirty && perFrame.uniforms.gpuCopy == perFrame.Values()
    {
      cameraController.UpdateCamera(m, camera, deltaSecs);
      spotLight := spotLight.(position := camera.eye, direction := camera.Forward(m));
      sysTimeElapsed := sysTimeElapsed + deltaSecs;

      perFrame.SetViewProjection(camera.ViewProjection(m));
      perFrame.SetViewPos(camera.eye);
      perFrame.uniforms.ValuesMut(setters.setDirectionalLight(perFrame.Values(), directionalLight));
      perFrame.uniforms.ValuesMut(setters.setSpotLight(perFrame.Values(), spotLight));
      perFrame.SetTimeElapsedSeconds(sysTimeElapsed);
      perFrame.UpdateGpu();
    }

    /** The second half of `update`: the point light moves along its orbit
        and its lamp is added to the light debug pass, which is uploaded. */
    method UpdateLamp(m: Math)
      requires Valid() && lightDebugPass.lampCount < LightDebugPass.LAMP_CAPACITY
      modifies this, lightDebugPass, lightDebugPass.lampInstances.buffer
      ensures Valid()
      ensures windowSize == old(windowSize) && sysTimeElapsed == old(sysTimeElapsed)
      ensures spotLight == old(spotLight) && directionalLight == old(directionalLight) && models == old(models)
      ensures pointLight == old(pointLight).(position := OrbitPosition(m, sysTimeElapsed))
      ensures lightDebugPass.lampCount == old(lightDebugPass.lampCount) + 1
      ensures lightDebugPass.Instances() ==
              old(lightDebugPass.Instances())[old(lightDebugPass.lampCount) :=
                LightDebugPass.LampInstance(m, old(lightDebugPass.Instances())[old(lightDebugPass.lampCount)],
                                            pointLight)]
      ensures !lightDebugPass.lampInstances.buffer.dirty
      ensures lightDebugPass.lampInstances.buffer.gpuCopy == lightDebugPass.Instances()
    {
      pointLight := pointLight.(position := OrbitPosition(m, sysTimeElapsed));
      lightDebugPass.AddPointLight(m, pointLight);
      lightDebugPass.Prepare(m, EMPTY_SCENE);
    }

    /** `render`: when the surface hands out no back buffer the error is
        returned at once and the frame's lamps stay counted. Otherwise the
        frame is the three passes of `FramePasses`, drawn with the lamps
        added so far, after which the lamp count starts over. The per-frame
        values must have been uploaded (a debug assertion). */
    method Render(acquire: Result<(), SurfaceError>) returns (r: Result<seq<PassRecord>, SurfaceError>)
      requires Valid()
      requires acquire.Ok? ==> !perFrame.uniforms.dirty
      modifies lightDebugPass
      ensures Valid()
      ensures acquire.Err? ==> r == Err(acquire.error)
      ensures acquire.Err? ==> lightDebugPass.lampCount == old(lightDebugPass.lampCount)
      ensures acquire.Ok? ==>
                r == Ok(FramePasses(|models|, old(lightDebugPass.lampCount), debugState.visualizeDepthPass))
      ensures acquire.Ok? ==> lightDebugPass.lampCount == 0
    {
      if acquire.Err? {
        return Err(acquire.error);
      }
      var passes := [MainPass(Clear(CLEAR_COLOR), Clear(CLEAR_DEPTH), |models|)];
      var overlay := lightDebugPass.Draw();
      assert overlay == LightDebugOverlay(Load, Load, DrawIndexed(0, |Debug.CUBE_INDICES|, 0, 0,
                                                                  lightDebugPass.lampCount));
      passes := passes + [overlay];
      if debugState.visualizeDepthPass {
        var depth := depthPass.Draw();
        passes := passes + [depth];
      }
      assert passes == FramePasses(|models|, lightDebugPass.lampCount, debugState.visualizeDepthPass);
      lightDebugPass.FinishFrame();
      r := Ok(passes);
    }

    /** One frame as the event loop runs it: `update`, then `render`. The
        update always leaves the per-frame values uploaded, so the render's
        debug assertion holds whatever state the frame started in, and the
        lamp count follows `LampCountAfterFrame`. */
    method Frame(m: Math, setters: LightSetters, deltaSecs: real, acquire: Result<(), SurfaceError>)
      returns (r: Result<seq<PassRecord>, SurfaceError>)
      requires Valid() && KeepsWellFormed(setters) && deltaSecs >= 0.0
      requires lightDebugPass.lampCount < LightDebugPass.LAMP_CAPACITY
      modifies this, camera, cameraController, perFrame.uniforms, lightDebugPass,
               lightDebugPass.lampInstances.buffer
      ensures Valid()
      ensures lightDebugPass.lampCount == LampCountAfterFrame(old(lightDebugPass.lampCount), acquire.Ok?)
      ensures acquire.Err? ==> r == Err(acquire.error)
      ensures acquire.Ok? ==>
                r == Ok(FramePasses(|models|, old(lightDebugPass.lampCount) + 1, debugState.visualizeDepthPass))
      ensures windowSize == old(windowSize) && models == old(models)
    {
      Update(m, setters, deltaSecs);
      r := Render(acquire);
    }
  }
}
