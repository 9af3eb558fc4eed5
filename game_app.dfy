/** The host between the platform's event loop and the game: it owns the
    renderer and the game, forwards every event to them, reacts to a frame
    whose surface could not be acquired, and tracks whether the mouse is
    captured. The only game in the program is the multi-cube demo, so the
    host holds one directly. */
module GameApp {
  import opened Wrappers
  import opened Geometry
  import opened Input
  import opened Gameplay
  import opened Materials
  import opened ObjModel
  import opened MathUtils
  import opened RenderPasses
  import LightDebugPass
  import Debug
  import Renderer
  import MultiCubeDemo

  /** `CursorGrabMode::None` and `CursorGrabMode::Locked`. */
  datatype CursorGrabMode = NoGrab | Locked

  /** What `set_mouse_captured` asks of the window. */
  datatype CursorRequest = CursorRequest(grab: CursorGrabMode, visible: bool)

  /** What became of one frame. */
  datatype FrameOutcome =
    | Presented(passes: seq<PassRecord>)
      /** The surface was lost or outdated and was configured again with
          the current window size. */
    | Reconfigured(size: Renderer.Size)
      /** Any other surface error: the frame is dropped. */
    | Skipped(error: Renderer.SurfaceError)
      /** Out of memory: the host panics. */
    | Panicked

  class GameAppHost {
    const renderer: Renderer.Renderer
    const game: MultiCubeDemo.MultiCubeDemo
    var mouseCaptured: bool

    /** The renderer keeps its own invariant, and the game's arcball is not
        the renderer's: the two controllers are separate objects. */
    ghost predicate Valid()
      reads this, renderer, renderer.perFrame, renderer.perFrame.uniforms, renderer.lightDebugPass,
            renderer.lightDebugPass.lampInstances, renderer.lightDebugPass.lampInstances.buffer,
            renderer.camera, renderer.depthPass
    {
      renderer.Valid() && game.arcball != renderer.cameraController
    }

    /** `new`: the mouse starts out free. */
    constructor (renderer: Renderer.Renderer, game: MultiCubeDemo.MultiCubeDemo)
      requires renderer.Valid() && game.arcball != renderer.cameraController
      ensures Valid()
      ensures this.renderer == renderer && this.game == game && !mouseCaptured
    {
      this.renderer := renderer;
      this.game := game;
      mouseCaptured := false;
    }

    /** `load_content`: the game loads its content; a texture that fails to
        load is the error returned. */
    method LoadContent(diffuseMap: Result<Handle, ContentError>, specularMap: Result<Handle, ContentError>,
                       defaults: DefaultTextures, cubeMeshHandle: Handle)
      returns (r: Result<(), ContentError>)
      requires Valid()
      modifies game
      ensures Valid()
      ensures r.Ok? <==> diffuseMap.Ok? && specularMap.Ok?
      ensures diffuseMap.Err? ==> r == Err(diffuseMap.error)
      ensures diffuseMap.Ok? && specularMap.Err? ==> r == Err(specularMap.error)
      ensures r.Ok? ==> game.scene.spotLights == old(game.scene.spotLights) + [MultiCubeDemo.SPOT_LIGHT]
      ensures r.Ok? ==> game.scene.pointLights == old(game.scene.pointLights) + MultiCubeDemo.POINT_LIGHTS
      ensures r.Err? ==> game.scene == old(game.scene)
    {
      var loaded := game.LoadContent(diffuseMap, specularMap, defaults, cubeMeshHandle);
      if loaded.Err? {
        return Err(loaded.error);
      }
      r := Ok(());
    }

    /** `input`: the renderer sees every event first, and its answer is
        ignored; the game's answer is the host's. So a left-button event
        reaches both arcball controllers. */
    method Input(e: WindowEvent) returns (used: bool)
      requires Valid()
      modifies renderer.debugState, renderer.cameraController, game, game.arcball, game.freelook
      ensures Valid()
      ensures renderer.debugState.visualizeDepthPass ==
              Debug.ToggledBy(old(renderer.debugState.visualizeDepthPass), e)
      ensures renderer.cameraController.allowMouseLook ==
              if e.MouseInput? && e.button == LeftButton then e.state == Pressed
              else old(renderer.cameraController.allowMouseLook)
      ensures game.cameraType == MultiCubeDemo.CameraTypeAfter(old(game.cameraType), e)
      ensures game.cameraType == MultiCubeDemo.Arcball ==> (used <==> e.MouseInput? && e.button == LeftButton)
      ensures game.cameraType == MultiCubeDemo.Arcball && used ==> game.arcball.allowMouseLook == (e.state == Pressed)
      ensures game.cameraType == MultiCubeDemo.Arcball && !used ==>
                game.arcball.allowMouseLook == old(game.arcball.allowMouseLook)
      ensures game.cameraType == MultiCubeDemo.Arcball ==> unchanged(game.freelook)
      ensures game.cameraType == MultiCubeDemo.Freelook ==> (used <==> MoveFlagOfEvent(e).Some?)
      ensures game.cameraType == MultiCubeDemo.Freelook && used ==>
                game.freelook.Flag(MoveFlagOfEvent(e).value) == (e.state == Pressed)
      ensures game.cameraType == MultiCubeDemo.Freelook ==>
                forall flag :: MoveFlagOfEvent(e) != Some(flag) ==>
                  game.freelook.Flag(flag) == old(game.freelook.Flag(flag))
      ensures game.cameraType == MultiCubeDemo.Freelook ==> unchanged(game.arcball)
      ensures IsKeyEvent(e, KeyC, Released) ==> !used
      ensures game.scene == old(game.scene) && game.simTimeElapsed == old(game.simTimeElapsed)
      ensures mouseCaptured == old(mouseCaptured)
    {
      var _ := renderer.Input(e);
      used := game.Input(e);
    }

    /** `update_sim` */
    method UpdateSim(deltaSecs: real)
      requires Valid()
      modifies game
      ensures Valid()
      ensures game.simTimeElapsed == old(game.simTimeElapsed) + deltaSecs
      ensures game.scene == old(game.scene)
    {
      game.UpdateSim(deltaSecs);
    }

    /** `render`: the game prepares the frame (moving the camera, the spot
        light and the orbiting light), the renderer runs its update and
        render, and a failed frame is handled by its error: a lost or
        outdated surface is reconfigured with the current window size, out
        of memory panics, anything else skips the frame. The preconditions
        are the ones whose violation panics: the demo's light lists must
        hold a spot and a point light, and a lamp slot must be free. */
    method Render(m: Math, setters: Renderer.LightSetters, deltaSecs: real,
                  acquire: Result<(), Renderer.SurfaceError>)
      returns (outcome: FrameOutcome)
      requires Valid() && Renderer.KeepsWellFormed(setters) && deltaSecs >= 0.0
      requires |game.scene.spotLights| > 0 && |game.scene.pointLights| > 0
      requires renderer.lightDebugPass.lampCount < LightDebugPass.LAMP_CAPACITY
      modifies game, game.arcball, game.freelook, renderer, renderer.camera, renderer.cameraController,
               renderer.perFrame.uniforms, renderer.lightDebugPass, renderer.lightDebugPass.lampInstances.buffer,
               renderer.depthPass
      ensures Valid()
      ensures renderer.windowSize == old(renderer.windowSize) && renderer.models == old(renderer.models)
      ensures renderer.lightDebugPass.lampCount ==
              Renderer.LampCountAfterFrame(old(renderer.lightDebugPass.lampCount), acquire.Ok?)
      ensures acquire.Ok? ==>
                outcome == Presented(Renderer.FramePasses(|renderer.models|,
                                                          old(renderer.lightDebugPass.lampCount) + 1,
                                                          renderer.debugState.visualizeDepthPass))
      ensures acquire == Err(Renderer.Lost) || acquire == Err(Renderer.Outdated) ==>
                outcome == Reconfigured(old(renderer.windowSize))
      ensures acquire == Err(Renderer.OutOfMemory) ==> outcome == Panicked
      ensures acquire == Err(Renderer.Timeout) ==> outcome == Skipped(Renderer.Timeout)
      ensures |game.scene.pointLights| == old(|game.scene.pointLights|)
      ensures game.scene.pointLights[0].position == OrbitPosition(m, game.simTimeElapsed)
      ensures |game.scene.spotLights| == old(|game.scene.spotLights|)
      ensures game.cameraType == MultiCubeDemo.Arcball ==>
                game.scene.spotLights[0].position ==
                ClampDistanceAsWritten(m, old(renderer.camera.target),
                                       ArcballUnclamped(m, old(renderer.camera.eye), old(renderer.camera.target),
                                                        old(renderer.camera.up), old(renderer.camera.worldUp),
                                                        old(renderer.camera.viewportWidth),
                                                        old(renderer.camera.viewportHeight),
                                                        Vec2OrZero(old(game.arcball.mouseMotion)),
                                                        Vec2OrZero(old(game.arcball.mouseScroll)),
                                                        game.arcball.Settings(), deltaSecs),
                                       game.arcball.minDistance, game.arcball.maxDistance)
      ensures game.cameraType == MultiCubeDemo.Arcball ==>
                game.arcball.mouseMotion == None && game.arcball.mouseScroll == None
      ensures game.cameraType == MultiCubeDemo.Arcball ==> unchanged(game.freelook)
      ensures game.cameraType == MultiCubeDemo.Freelook ==>
                game.scene.spotLights[0].position ==
                FreeLookPosition(old(renderer.camera.eye), old(m.forward(renderer.camera.eye, renderer.camera.target)),
                                 old(renderer.camera.up), FrameSpeed(game.freelook.moveSpeed, deltaSecs),
                                 old(game.freelook.moveForward), old(game.freelook.moveBackward),
                                 old(game.freelook.moveLeft), old(game.freelook.moveRight))
      ensures game.cameraType == MultiCubeDemo.Freelook ==>
                game.freelook.yawDeg ==
                YawClamp(old(game.freelook.yawDeg) +
                         FrameSpeed(game.freelook.lookSpeed, deltaSecs) * Vec2OrZero(old(game.freelook.mouseDelta)).x)
      ensures game.cameraType == MultiCubeDemo.Freelook ==>
                game.freelook.fovY == FovClamp(old(game.freelook.fovY) + RealOrZero(old(game.freelook.scrollWheelDelta)))
      ensures game.cameraType == MultiCubeDemo.Freelook ==>
                game.freelook.mouseDelta == None && game.freelook.scrollWheelDelta == None
      ensures game.cameraType == MultiCubeDemo.Freelook ==> unchanged(game.arcball)
      ensures game.cameraType == old(game.cameraType) && game.simTimeElapsed == old(game.simTimeElapsed)
      ensures mouseCaptured == old(mouseCaptured)
    {
      PrepareGame(m, deltaSecs);
      outcome := RenderFrame(m, setters, deltaSecs, acquire);
    }

    /** The game's half of `render`: its `prepare_render` on the renderer's
        camera. */
    method PrepareGame(m: Math, deltaSecs: real)
      requires Valid() && |game.scene.spotLights| > 0 && |game.scene.pointLights| > 0
      modifies game, game.arcball, game.freelook, renderer.camera
      ensures Valid()
      ensures renderer.windowSize == old(renderer.windowSize) && renderer.models == old(renderer.models)
      ensures renderer.lightDebugPass.lampCount == old(renderer.lightDebugPass.lampCount)
      ensures |game.scene.pointLights| == old(|game.scene.pointLights|)
      ensures game.scene.pointLights[0].position == OrbitPosition(m, game.simTimeElapsed)
      ensures |game.scene.spotLights| == old(|game.scene.spotLights|)
      ensures game.cameraType == MultiCubeDemo.Arcball ==>
                game.scene.spotLights[0].position ==
                ClampDistanceAsWritten(m, old(renderer.camera.target),
                                       ArcballUnclamped(m, old(renderer.camera.eye), old(renderer.camera.target),
                                                        old(renderer.camera.up), old(renderer.camera.worldUp),
                                                        old(renderer.camera.viewportWidth),
                                                        old(renderer.camera.viewportHeight),
                                                        Vec2OrZero(old(game.arcball.mouseMotion)),
                                                        Vec2OrZero(old(game.arcball.mouseScroll)),
                                                        game.arcball.Settings(), deltaSecs),
                                       game.arcball.minDistance, game.arcball.maxDistance)
      ensures game.cameraType == MultiCubeDemo.Arcball ==>
                game.arcball.mouseMotion == None && game.arcball.mouseScroll == None
      ensures game.cameraType == MultiCubeDemo.Arcball ==> unchanged(game.freelook)
      ensures game.cameraType == MultiCubeDemo.Freelook ==>
                game.scene.spotLights[0].position ==
                FreeLookPosition(old(renderer.camera.eye), old(m.forward(renderer.camera.eye, renderer.camera.target)),
                                 old(renderer.camera.up), FrameSpeed(game.freelook.moveSpeed, deltaSecs),
                                 old(game.freelook.moveForward), old(game.freelook.moveBackward),
                                 old(game.freelook.moveLeft), old(game.freelook.moveRight))
      ensures game.cameraType == MultiCubeDemo.Freelook ==>
                game.freelook.yawDeg ==
                YawClamp(old(game.freelook.yawDeg) +
                         FrameSpeed(game.freelook.lookSpeed, deltaSecs) * Vec2OrZero(old(game.freelook.mouseDelta)).x)
      ensures game.cameraType == MultiCubeDemo.Freelook ==>
                game.freelook.fovY == FovClamp(old(game.freelook.fovY) + RealOrZero(old(game.freelook.scrollWheelDelta)))
      ensures game.cameraType == MultiCubeDemo.Freelook ==>
                game.freelook.mouseDelta == None && game.freelook.scrollWheelDelta == None
      ensures game.cameraType == MultiCubeDemo.Freelook ==> unchanged(game.arcball)
      ensures game.cameraType == old(game.cameraType) && game.simTimeElapsed == old(game.simTimeElapsed)
    {
      game.PrepareRender(m, renderer.camera, deltaSecs);
    }

    /** The renderer's half of `render`: its update and render, then the
        dispatch on a failed frame. */
    method RenderFrame(m: Math, setters: Renderer.LightSetters, deltaSecs: real,
                       acquire: Result<(), Renderer.SurfaceError>)
      returns (outcome: FrameOutcome)
      requires Valid() && Renderer.KeepsWellFormed(setters) && deltaSecs >= 0.0
      requires renderer.lightDebugPass.lampCount < LightDebugPass.LAMP_CAPACITY
      modifies renderer, renderer.camera, renderer.cameraController, renderer.perFrame.uniforms,
               renderer.lightDebugPass, renderer.lightDebugPass.lampInstances.buffer, renderer.depthPass
      ensures Valid()
      ensures renderer.windowSize == old(renderer.windowSize) && renderer.models == old(renderer.models)
      ensures renderer.lightDebugPass.lampCount ==
              Renderer.LampCountAfterFrame(old(renderer.lightDebugPass.lampCount), acquire.Ok?)
      ensures acquire.Ok? ==>
                outcome == Presented(Renderer.FramePasses(|renderer.models|,
                                                          old(renderer.lightDebugPass.lampCount) + 1,
                                                          renderer.debugState.visualizeDepthPass))
      ensures acquire == Err(Renderer.Lost) || acquire == Err(Renderer.Outdated) ==>
                outcome == Reconfigured(old(renderer.windowSize))
      ensures acquire == Err(Renderer.OutOfMemory) ==> outcome == Panicked
      ensures acquire == Err(Renderer.Timeout) ==> outcome == Skipped(Renderer.Timeout)
    {
      var r := renderer.Frame(m, setters, deltaSecs, acquire);
      match r {
        case Ok(passes) => outcome := Presented(passes);
        case Err(Lost) | Err(Outdated) =>
          var windowSize := renderer.WindowSize();
          renderer.Resize(windowSize.width, windowSize.height);
          outcome := Reconfigured(windowSize);
        case Err(OutOfMemory) => outcome := Panicked;
        case Err(e) => outcome := Skipped(e);
      }
    }

    /** `window_resized` */
    method WindowResized(width: nat, height: nat)
      requires Valid()
      modifies renderer, renderer.depthPass, renderer.camera
      ensures Valid()
      ensures width > 0 && height > 0 ==> renderer.windowSize == Renderer.Size(width, height)
      ensures width == 0 || height == 0 ==> renderer.windowSize == old(renderer.windowSize)
      ensures mouseCaptured == old(mouseCaptured)
    {
      renderer.Resize(width, height);
    }

    /** `scale_factor_changed`: the renderer is resized to the window's new
        inner size, which the platform reports. */
    method ScaleFactorChanged(innerSize: Renderer.Size)
      requires Valid()
      modifies renderer, renderer.depthPass, renderer.camera
      ensures Valid()
      ensures innerSize.width > 0 && innerSize.height > 0 ==> renderer.windowSize == innerSize
      ensures innerSize.width == 0 || innerSize.height == 0 ==> renderer.windowSize == old(renderer.windowSize)
    {
      renderer.Resize(innerSize.width, innerSize.height);
    }

    /** `mouse_motion`: the game's active controller accumulates it. */
    method MouseMotion(deltaX: real, deltaY: real)
      requires Valid()
      modifies game.arcball, game.freelook
      ensures Valid()
      ensures game.cameraType == MultiCubeDemo.Arcball ==>
                game.arcball.mouseMotion ==
                (if old(game.arcball.allowMouseLook)
                 then AccumulateVec2(old(game.arcball.mouseMotion), Vec2(deltaX, deltaY))
                 else old(game.arcball.mouseMotion))
      ensures game.cameraType == MultiCubeDemo.Arcball ==>
                game.arcball.allowMouseLook == old(game.arcball.allowMouseLook) &&
                game.arcball.mouseScroll == old(game.arcball.mouseScroll)
      ensures game.cameraType == MultiCubeDemo.Arcball ==> unchanged(game.freelook)
      ensures game.cameraType == MultiCubeDemo.Freelook ==>
                game.freelook.mouseDelta == AccumulateVec2(old(game.freelook.mouseDelta), Vec2(deltaX, deltaY))
      ensures game.cameraType == MultiCubeDemo.Freelook ==>
                game.freelook.scrollWheelDelta == old(game.freelook.scrollWheelDelta) &&
                forall flag :: game.freelook.Flag(flag) == old(game.freelook.Flag(flag))
      ensures game.cameraType == MultiCubeDemo.Freelook ==>
                game.freelook.pitchDeg == old(game.freelook.pitchDeg) && game.freelook.yawDeg == old(game.freelook.yawDeg) &&
                game.freelook.fovY == old(game.freelook.fovY)
      ensures game.cameraType == MultiCubeDemo.Freelook ==> unchanged(game.arcball)
    {
      game.MouseMotion(deltaX, deltaY);
    }

    /** `mouse_scroll_wheel`: the game's active controller accumulates it,
        with the components swapped. */
    method MouseScrollWheel(deltaX: real, deltaY: real)
      requires Valid()
      modifies game.arcball, game.freelook
      ensures Valid()
      ensures game.cameraType == MultiCubeDemo.Arcball ==>
                game.arcball.mouseScroll == AccumulateVec2(old(game.arcball.mouseScroll), Vec2(deltaY, deltaX))
      ensures game.cameraType == MultiCubeDemo.Arcball ==>
                game.arcball.allowMouseLook == old(game.arcball.allowMouseLook) &&
                game.arcball.mouseMotion == old(game.arcball.mouseMotion)
      ensures game.cameraType == MultiCubeDemo.Arcball ==> unchanged(game.freelook)
      ensures game.cameraType == MultiCubeDemo.Freelook ==>
                game.freelook.scrollWheelDelta == AccumulateReal(old(game.freelook.scrollWheelDelta), deltaY)
      ensures game.cameraType == MultiCubeDemo.Freelook ==>
                game.freelook.mouseDelta == old(game.freelook.mouseDelta) &&
                forall flag :: game.freelook.Flag(flag) == old(game.freelook.Flag(flag))
      ensures game.cameraType == MultiCubeDemo.Freelook ==>
                game.freelook.pitchDeg == old(game.freelook.pitchDeg) && game.freelook.yawDeg == old(game.freelook.yawDeg) &&
                game.freelook.fovY == old(game.freelook.fovY)
      ensures game.cameraType == MultiCubeDemo.Freelook ==> unchanged(game.arcball)
    {
      game.MouseScrollWheel(deltaX, deltaY);
    }

    /** `is_mouse_captured` */
    function IsMouseCaptured(): bool
      reads this
    {
      mouseCaptured
    }

    /** `set_mouse_captured`: a captured mouse has its cursor locked to the
        window and hidden; a released one is free and shown. A refused grab
        only logs a warning, so the flag is set either way. */
    method SetMouseCaptured(isCaptured: bool) returns (request: CursorRequest)
      requires Valid()
      modifies this
      ensures Valid()
      ensures IsMouseCaptured() == isCaptured
      ensures request.grab == (if isCaptured then Locked else NoGrab)
      ensures request.visible == !isCaptured
    {
      var grab := if isCaptured then Locked else NoGrab;
      request := CursorRequest(grab, !isCaptured);
      mouseCaptured := isCaptured;
    }
  }
}
