# squirrel renderer model

squirrel is a small wgpu renderer with a demo game and Python build scripts
for its WebAssembly build. This project models the core of it in Dafny:

- the renderer (`Renderer`): the camera and its arcball controller, the
  per-frame shader values, three lights, ten cubes, the depth-visualisation
  pass and the light debug pass. Each frame becomes an ordered list of
  render passes (`RenderPasses.PassRecord`);
- the CPU-side shader values (`Shaders`, `LegacyShaders`):
  - fixed-capacity light arrays with a count;
  - the bind groups;
  - the dirty/upload discipline of the generic uniform and instance buffers
    (`GpuBuffers`);
- the packed GPU structs (`PackedStructs`), the material builder
  (`Materials`), and instancing (`Instancing`, `LegacyModels`);
- the built-in mesh tables (`BuiltinMeshes`, `LegacyMeshes`, `Debug`) and
  their vertex layouts (`VertexLayouts`);
- assembly of a mesh from OBJ data (`ObjModel`);
- the free-look and arcball camera controllers (`Gameplay`, on `Cameras`);
- the game host (`GameApp`) and the multi-cube demo game (`MultiCubeDemo`);
- the Python web build (`BuildTools`, `WebBuild`, `BuildWeb`).

Modelling conventions:

- Floats are `real`.
- Every geometric primitive goes through the record `Geometry.Math` of
  uninterpreted functions (normalize, length, sin, cos, to_radians,
  quaternion rotation, matrix builders, inverse, look-at and perspective),
  so each property holds whatever those functions return. Where a property
  needs exact arithmetic (a rotation keeps its radius, a normalized vector
  has length 1), the lemma says so in its precondition.
- GPU objects are `Handle`s.
- A buffer's state is the triple values / GPU copy / dirty flag.
- A class stands for each Rust struct whose fields the source updates in
  place; its methods state the whole new state.

Two consequences of the source are proved rather than assumed:

- **Lamp count after failed frames.** `render` returns at
  `src/renderer.rs:435` without reaching `finish_frame`, so the failed
  frame's lamp stays counted. `Renderer.LampCountCountsUnpresentedFrames`
  shows that the lamp count equals the number of frames since the last
  presented one. `Renderer.HundredFailedFramesExhaustLamps` shows that a
  hundred failed frames in a row use up all 100 lamp slots, after which the
  next `update` would index past the instance buffer.
- **Free-look yaw clamp.** The clamp maps values below -90 to -89
  (`Gameplay.YawClampNotMonotone`), so it is not monotone.

## Model

| member | source | states |
|---|---|---|
| BuildTools.FromStr | pygametools/lib/build.py:17-24 | `dev`/`Dev` give Dev and `release`/`Release` give Release, each as an if-and-only-if; every other string is the error carrying the exception's message |
| BuildTools.FromStrTestedSpellings | pygametools/tests/test_build.py:7-14 | the four spellings the unit tests use parse to their modes, and `nope` is rejected |
| BuildTools.FromStrModeName | pygametools/lib/build.py:17-24 | each mode's canonical name parses back to that mode |
| BuildTools.FromStrAcceptsOnlyFour | pygametools/lib/build.py:17-24 | parsing succeeds for exactly four strings |
| BuildTools.PosixJoin | pygametools/lib/build.py:39 | an absolute second part replaces the first; otherwise the result starts with the first part; it always ends with the second part |
| BuildTools.PosixJoinSeparates | pygametools/lib/build.py:39 | a relative name joined onto a directory not ending in `/` gets exactly one `/` between them |
| BuildTools.NewWebBuildConfig | pygametools/lib/build.py:30-39 | mode, verbosity and output directory are kept; the package directory is joined onto the output directory, so it lies below it unless it is absolute |
| BuildTools.ContentDir | pygametools/lib/build.py:41-42 | content is read from `content` whatever the configuration |
| BuildTools.DefaultPackageDir | pygametools/web_build.py:84-95 | with the command line's defaults the package goes to `webpkg/pkg` |
| BuildWeb.FromStr | build-web.py:22-28 | only the lower-case names parse, each as an if-and-only-if; everything else is the error with the same message |
| BuildWeb.FromStrAgreesWithLibrary | build-web.py:22-28 | agrees with the library parser on every string except `Dev` and `Release`, which only the library accepts |
| WebBuild.WasmPackArgs | pygametools/web_build.py:18-25 | six arguments: a web-target build into the package directory, ending in `--dev` exactly for Dev and `--release` exactly for Release |
| WebBuild.Build | pygametools/web_build.py:17-37 | runs `wasm-pack` with those arguments and reports success exactly when the return code is 0 |
| WebBuild.IndexFrom | pygametools/web_build.py:62 | returns the first occurrence at or after the start position; none exactly when there is no occurrence |
| WebBuild.ReplaceFirst | pygametools/web_build.py:62 | a string without the pattern is unchanged; otherwise only the first occurrence is replaced |
| WebBuild.DestDirMirrorsContent | pygametools/web_build.py:61-62 | every directory the content walk yields is mirrored below the output content directory, even one containing `content` again |
| WebBuild.ParseCommand | pygametools/web_build.py:137-146 | each command is recognised by its one-letter and its full spelling, as an if-and-only-if |
| WebBuild.QuitIndex | pygametools/web_build.py:134-140 | the position of the first quit line, or the number of lines when there is none |
| WebBuild.SessionRunsUpToFirstQuit | pygametools/web_build.py:134-146 | the console session has one effect per line up to and including the first quit, each the effect of that line's command; the lines after the first quit are ignored |
| WebBuild.RunCommand | pygametools/web_build.py:137-146 | the dispatch of one command has the effect the session specification assigns it |
| WebBuild.CommandLoop | pygametools/web_build.py:134-146 | the loop performs exactly the session's effects, and it quits exactly when some line is a quit |
| WebBuild.ConfigOf | pygametools/web_build.py:106-111 | the configuration takes the parsed mode and the output directory, with the package directory joined onto it |
| WebBuild.PackageAndServe | pygametools/web_build.py:119-146 | after the build: the package step unless skipped, then (when interactive) the server start and the session's effects |
| WebBuild.RunMain | pygametools/web_build.py:80-148 | aborts exactly when a build was run and failed, and then only that build happened; otherwise build step, package step, server and session come in order |
| Cameras.Camera.constructor | src/renderer.rs:186-195 | the camera holds the given eye, target, up (also as world up), field of view, clip planes and non-empty viewport |
| Cameras.Camera.Reorient | src/gameplay.rs:315 | eye and target are replaced; nothing else changes |
| Cameras.Camera.SetFovY | src/gameplay.rs:169 | only the field of view changes |
| Cameras.Camera.SetViewportSize | src/renderer.rs:377-379 | fails exactly for a zero width or height and then changes nothing; otherwise the viewport and aspect ratio follow the new size |
| Debug.ToggledBy | src/renderer/debug.rs:11-23 | the depth-visualisation flag flips exactly on a released Z key |
| Debug.ToggleInvolution | src/renderer/debug.rs:11-23 | the same event applied twice restores the flag |
| Debug.ToggleParity | src/renderer/debug.rs:11-23 | after a sequence of events the flag is flipped exactly when the number of Z releases is odd |
| Debug.DebugState.constructor | src/renderer/debug.rs:4-8 | the depth visualisation starts switched off |
| Debug.DebugState.ProcessInput | src/renderer/debug_state.rs:11-23 | the flag after an event is the toggle function of the old flag and the event |
| Debug.DebugVertexLayout | src/renderer/debug.rs:39-56 | stride 20, per vertex, tightly packed and therefore fitting and non-overlapping, locations {0, 1} |
| Debug.QuadTablesWellFormed | src/renderer/debug.rs:60-80 | 4 vertices and 6 indices forming counter-clockwise triangles inside [-1, 1]³, the whole clip-space square, with texture coordinates in the unit square |
| Debug.CubeTablesWellFormed | src/renderer/debug.rs:82-233 | 36 vertices drawn in order as a triangle list inside [-0.5, 0.5]³, with texture coordinates in the unit square |
| DepthPasses.Max1 | src/renderer/passes/depth_pass.rs:240-241 | at least 1 and at least the input, and equal to the input when that is positive |
| DepthPasses.DepthPass.constructor | src/renderer/passes/depth_pass.rs:36-163 | the depth texture has the surface size, with each side at least 1 |
| DepthPasses.DepthPass.Resize | src/renderer/passes/depth_pass.rs:170-198 | the depth texture is recreated at the new surface size, with each side at least 1 |
| DepthPasses.DepthPass.Draw | src/renderer/passes/depth_pass.rs:200-228 | a pass over the existing image draws the 6 quad indices once |
| GameApp.GameAppHost.constructor | src/game_app.rs:18-24 | keeps the renderer and game; the mouse starts free |
| GameApp.GameAppHost.LoadContent | src/game_app.rs:26-28 | succeeds exactly when both crate textures load; the first failure is the error and leaves the scene unchanged; on success the demo's lights are appended |
| GameApp.GameAppHost.Input | src/game_app.rs:34-40 | the renderer sees every event, so a left-button event sets the renderer's arcball and, when the arcball is the game's active controller, the game's arcball too; a movement key sets the free-look's flag when it is active and no other flag; the inactive controller, the scene and the game clock are unchanged; the answer is the game's, which a camera-switch key never uses |
| GameApp.GameAppHost.UpdateSim | src/game_app.rs:42-44 | the game's clock advances by the frame time and the scene is unchanged |
| GameApp.GameAppHost.Render | src/game_app.rs:46-66 | a presented frame yields its passes; a lost or outdated surface is reconfigured with the current window size; out of memory panics; a timeout skips the frame; the lamp count follows `LampCountAfterFrame` and the primary light orbits; the spot light sits at the eye the active controller moved to (the arcball's clamp as written, or the free-look's keys), the free-look's yaw and field of view are updated, the active controller's pending input is drained and the inactive controller is untouched |
| GameApp.GameAppHost.PrepareGame | src/game_app.rs:47 | the game's `prepare_render` on the renderer's camera, with the same camera, spot light, yaw, field of view and drained-input facts as `Render`; the renderer's window size, models and lamp count are kept |
| GameApp.GameAppHost.RenderFrame | src/game_app.rs:49-65 | the renderer's update and render followed by the surface-error dispatch, with the same outcome and lamp-count facts as `Render` |
| GameApp.GameAppHost.WindowResized | src/game_app.rs:69-71 | a non-zero size becomes the renderer's window size; a zero size changes nothing |
| GameApp.GameAppHost.ScaleFactorChanged | src/game_app.rs:74-77 | the renderer is resized to the window's inner size, with the same zero-size rule |
| GameApp.GameAppHost.MouseMotion | src/game_app.rs:80-82 | the active controller accumulates the motion (the arcball only while mouse look is allowed); its other state and the whole inactive controller are unchanged |
| GameApp.GameAppHost.MouseScrollWheel | src/game_app.rs:85-87 | the active controller accumulates the wheel with the components swapped; its other state and the whole inactive controller are unchanged |
| GameApp.GameAppHost.SetMouseCaptured | src/game_app.rs:93-113 | the flag is set either way; a captured mouse is locked and hidden, a released one is free and shown |
| Gameplay.AccumulatedVec2IsSum | src/gameplay.rs:110-112 | between updates the motion accumulator holds the sum of every delta received, and is `None` exactly when none arrived |
| Gameplay.AccumulatedRealIsSum | src/gameplay.rs:114-116 | the wheel accumulator holds the sum of the deltas, and is `None` exactly when none arrived |
| Gameplay.YawClamp | src/gameplay.rs:146-150 | the result is within [-90, 89], and an in-range yaw is unchanged |
| Gameplay.YawClampNotMonotone | src/gameplay.rs:146-150 | -90.5 clamps to -89 while -90 stays -90, so a smaller yaw gives a larger result |
| Gameplay.YawClampIdempotent | src/gameplay.rs:146-150 | clamping twice is clamping once |
| Gameplay.FovClamp | src/gameplay.rs:165-169 | the field of view ends within [1, 60], unchanged when in range and at the nearer bound otherwise |
| Gameplay.MoveFlagOf | src/gameplay.rs:76-108 | each movement flag belongs to exactly its arrow key and its WASD key |
| Gameplay.OppositeMovesCancel | src/gameplay.rs:124-138 | forward with backward, and left with right, cancel; no key held leaves the eye in place |
| Gameplay.FreeLookCameraController.constructor | src/gameplay.rs:58-72 | speeds 4, no key held, no pending input, pitch 0, yaw -90, field of view 45 |
| Gameplay.FreeLookCameraController.ProcessInput | src/gameplay.rs:76-108 | an event is used exactly when it is a movement key; that flag follows the key's press state and every other flag is kept |
| Gameplay.FreeLookCameraController.ProcessMouseMotion | src/gameplay.rs:110-112 | only the mouse accumulator changes, by the delta |
| Gameplay.FreeLookCameraController.ProcessMouseWheel | src/gameplay.rs:114-116 | only the wheel accumulator changes, by the delta's x |
| Gameplay.FreeLookCameraController.UpdateCamera | src/gameplay.rs:118-174 | the eye moves by the held keys; yaw is clamped and pitch is not; the field of view is clamped to [1, 60]; the target is one look direction ahead; the pending input is cleared; the rest of the camera is kept |
| Gameplay.Signum | src/gameplay.rs:285 | ±1, positive exactly for non-negative input (so `signum(0.0)` is 1) |
| Gameplay.GimbalGuard | src/gameplay.rs:282-291 | the vertical rotation is dropped exactly when the view direction after the horizontal rotation is within cos⁻¹(0.99) of world up (yAngle ≥ 0) or of world down (yAngle < 0); away from both poles it is always applied |
| Gameplay.ClampDistanceWithinBounds | src/gameplay.rs:300-312 | with exact normalize and length, the corrected clamp puts the eye at least the minimum and at most the maximum distance from the pivot |
| Gameplay.ClampAsWrittenAtExample | src/gameplay.rs:300-312 | as written, the clamp maps pivot (30,0,0) with eye (30.5,0,0) and bounds 1..20 to (1,0,0) |
| Gameplay.ExampleEyeBeyondMaximum | src/gameplay.rs:300-312 | (1,0,0) is more than 20 units from (30,0,0) |
| Gameplay.ClampDistanceAsWrittenEscapes | src/gameplay.rs:303-309 | as written, the clamp can put the eye outside the allowed distance: the example above ends 29 units from the pivot |
| Gameplay.ClampAgreesAtOrigin | src/gameplay.rs:300-312 | with the pivot at the origin the code as written and the correction agree |
| Gameplay.ArcballCameraController.constructor | src/gameplay.rs:209-221 | speeds 25, scroll direction -1, scroll speed 25, distances 1 to 20, mouse look off, nothing pending |
| Gameplay.ArcballCameraController.ProcessInput | src/gameplay.rs:225-238 | used exactly for left-button events, which set mouse look to the button's pressed state; nothing else changes |
| Gameplay.ArcballCameraController.ProcessMouseMotion | src/gameplay.rs:240-244 | motion accumulates only while mouse look is allowed |
| Gameplay.ArcballCameraController.ProcessMouseWheel | src/gameplay.rs:246-248 | the wheel accumulator grows by the delta |
| Gameplay.ArcballCameraController.UpdateCamera | src/gameplay.rs:250-320 | the eye is the rotated and zoomed orbit position passed through the distance clamp as the code writes it (`ClampDistanceAsWritten`, whose clamped branches leave the pivot out: see Findings); the target is unchanged; the pending input is cleared; the rest of the camera is kept |
| Gameplay.ArcballDistanceBound | src/gameplay.rs:250-320 | with exact normalize and length and the target at the origin (where the renderer's camera looks at start), the update as written keeps the eye 1 to 20 units from the target whenever the unclamped eye does not land on the target |
| Gameplay.ClampAsWrittenWithinBoundsAtOrigin | src/gameplay.rs:300-312 | with the pivot at the origin, the clamp as written with the arcball's bounds 1 and 20 leaves the eye 1 to 20 units from the pivot |
| GpuBuffers.Created | src/renderer/gpu_buffers.rs:53-84 | a new buffer holds its initial values, matches its GPU copy and is clean |
| GpuBuffers.Written | src/renderer/gpu_buffers.rs:94-97 | a write replaces the values and marks the buffer dirty, leaving the GPU copy behind |
| GpuBuffers.Uploaded | src/renderer/gpu_buffers.rs:104-108 | an upload copies the values to the GPU and clears the flag |
| GpuBuffers.DirtyIffWrittenSinceUpload | src/renderer/gpu_buffers.rs:94-111 | after any run of writes and uploads, the buffer is dirty exactly when a write came after the last upload (or it was dirty and nothing was uploaded) |
| GpuBuffers.RunKeepsInSync | src/renderer/gpu_buffers.rs:94-111 | every run of operations keeps "clean means the GPU copy equals the values" |
| GpuBuffers.UploadIdempotent | src/renderer/gpu_buffers.rs:104-108 | a second upload changes nothing |
| GpuBuffers.GenericUniformBuffer.constructor | src/renderer/uniforms_buffers.rs:50-84 | the buffer state is `Created` from the initial values, bound through the given bind group |
| GpuBuffers.GenericUniformBuffer.Values | src/renderer/gpu_buffers.rs:86-92 | returns the current CPU values |
| GpuBuffers.GenericUniformBuffer.ValuesMut | src/renderer/uniforms_buffers.rs:86-91 | the state becomes `Written` with the new values |
| GpuBuffers.GenericUniformBuffer.UpdateGpu | src/renderer/uniforms_buffers.rs:98-101 | the state becomes `Uploaded` |
| GpuBuffers.GenericUniformBuffer.IsDirty | src/renderer/gpu_buffers.rs:109-111 | reports the flag; a clean buffer's GPU copy equals its values |
| GpuBuffers.GenericUniformBuffer.BindGroup | src/renderer/gpu_buffers.rs:118-120 | returns the bind group created with the buffer |
| GpuBuffers.InstanceBuffer.constructor | src/renderer/gpu_buffers.rs:151-168 | the instance array starts `Created` and clean |
| GpuBuffers.InstanceBuffer.Values | src/renderer/gpu_buffers.rs:170-176 | returns the indexed instance |
| GpuBuffers.InstanceBuffer.ValuesMut | src/renderer/gpu_buffers.rs:178-182 | only the indexed instance changes and the buffer becomes dirty |
| GpuBuffers.InstanceBuffer.UpdateGpu | src/renderer/gpu_buffers.rs:196-203 | all instances are uploaded and the flag cleared |
| GpuBuffers.InstanceBuffer.IsDirty | src/renderer/gpu_buffers.rs:205-207 | reports the flag; when clean the GPU copy equals the instances |
| Instancing.GridInstance | src/renderer/instancing.rs:149-162 | the cell (x, z) sits at (2x, 0, 2z) minus the displacement; it is rotated about its own direction by the angle, except at the origin, which gets the zero-angle rotation |
| Instancing.GridRow | src/renderer/instancing.rs:148-163 | one instance per column, in order |
| Instancing.SpawnGridRowMajor | src/renderer/instancing.rs:141-166 | the grid has rows × columns instances, and instance z·columns + x is cell (x, z) |
| Instancing.GridCellOf | src/renderer/instancing.rs:141-166 | every index of the grid is the row-major index of exactly one cell |
| Instancing.GridCellsApart | src/renderer/instancing.rs:149-153 | distinct cells have distinct positions |
| Instancing.SpawnGridPositionsDistinct | src/renderer/instancing.rs:141-166 | no two instances of a grid share a position |
| Instancing.Transforms | src/renderer/instancing.rs:129-136 | one raw matrix per instance, in the instances' order |
| Instancing.ModelInstanceBuffer.constructor | src/renderer/instancing.rs:32-51 | the CPU and GPU buffers hold each instance's transform |
| Instancing.ModelInstanceBuffer.SetInstance | src/renderer/instancing.rs:65-68 | only the indexed instance changes; the GPU copy stays behind until written |
| Instancing.ModelInstanceBuffer.WriteToGpu | src/renderer/instancing.rs:70-89 | the array of transforms is rebuilt from the instances and uploaded |
| Instancing.ModelInstanceLayoutPacked | src/renderer/instancing.rs:91-120 | the four matrix columns follow each other without gaps |
| Instancing.ModelInstanceLayout | src/renderer/instancing.rs:91-120 | stride 64, per instance, fitting and non-overlapping, locations {3, 4, 5, 6} |
| BuiltinMeshes.TriangleTablesWellFormed | src/renderer/meshes.rs:29-48 | one counter-clockwise triangle inside [-1, 1]³, with texture coordinates in the unit square |
| BuiltinMeshes.RectTablesWellFormed | src/renderer/meshes.rs:51-75 | two counter-clockwise triangles, inside the same bounds |
| BuiltinMeshes.PentagonTablesWellFormed | src/renderer/meshes.rs:78-107 | three counter-clockwise triangles, inside the same bounds |
| BuiltinMeshes.CubeTablesWellFormed | src/renderer/meshes.rs:110-296 | 36 vertices drawn in order as a triangle list inside [-0.5, 0.5]³ |
| BuiltinMeshes.BuiltinMeshTables | src/renderer/meshes.rs:19-26 | every built-in mesh is an indexed triangle list (3, 6, 9 or 36 indices, each in range) inside [-1, 1]³ with texture coordinates in the unit square; the flat meshes wind counter-clockwise, and the cube's vertices are drawn in order |
| LegacyMeshes.TriangleTablesWellFormed | src/meshes.rs:5-22 | one counter-clockwise triangle inside [-0.5, 0.5]³, with texture coordinates in the unit square |
| LegacyMeshes.RectTablesWellFormed | src/meshes.rs:24-46 | two counter-clockwise triangles, inside the same bounds |
| LegacyMeshes.PentagonTablesWellFormed | src/meshes.rs:48-76 | three counter-clockwise triangles, inside the same bounds |
| LegacyShaders.PerFrameUniforms.constructor | src/shaders.rs:17-65 | initial values uploaded, bound through a single uniform-buffer entry |
| LegacyShaders.PerFrameUniforms.SetViewProjection | src/shaders.rs:66-70 | only the view-projection of the CPU values changes; the GPU copy waits for the next write |
| LegacyShaders.PerFrameUniforms.SetTimeElapsedSeconds | src/shaders.rs:72-75 | only the time of the CPU values changes |
| LegacyShaders.PerFrameUniforms.WriteToGpu | src/shaders.rs:77-81 | the GPU copy becomes the CPU values |
| LegacyShaders.PerModelBindGroup | src/shaders.rs:114-141 | a texture view at binding 0 and a sampler at binding 1, matching the layout |
| LegacyShaders.VertexLayoutPacked | src/shaders.rs:157-180 | position, colour and texture coordinates follow each other without gaps |
| LegacyShaders.VertexLayout | src/shaders.rs:157-180 | stride 32, per vertex, fitting and non-overlapping, locations {0, 1, 2} |
| LightDebugPass.LampInstance | src/renderer/passes/light_debug_pass.rs:123-136 | a lamp is tinted with the light's colour and placed at its position at scale 0.2 without rotation |
| LightDebugPass.FillLamps | src/renderer/passes/light_debug_pass.rs:140-143 | adding lamps from a start slot keeps the number of slots |
| LightDebugPass.FillLampsPlaces | src/renderer/passes/light_debug_pass.rs:140-143 | lamp k lands in slot start + k, and every slot outside that range is unchanged |
| LightDebugPass.DebugMeshInstanceBuffer.constructor | src/renderer/passes/light_debug_pass.rs:210-227 | 100 default lamp instances, clean |
| LightDebugPass.DebugMeshInstanceBuffer.SetLocalToWorld | src/renderer/passes/light_debug_pass.rs:228-231 | only the indexed lamp's transform changes, and the buffer is dirty |
| LightDebugPass.DebugMeshInstanceBuffer.SetColorTint | src/renderer/passes/light_debug_pass.rs:233-236 | only the indexed lamp's tint changes, and the buffer is dirty |
| LightDebugPass.DebugMeshInstanceBuffer.UpdateGpu | src/renderer/passes/light_debug_pass.rs:284-286 | the lamp instances are uploaded |
| LightDebugPass.DebugMeshInstanceBuffer.IsDirty | src/renderer/passes/light_debug_pass.rs:288-290 | reports the flag; when clean the GPU copy is current |
| LightDebugPass.LightDebugPass.constructor | src/renderer/passes/light_debug_pass.rs:35-122 | no lamps counted, over a fresh buffer of 100 default instances |
| LightDebugPass.LightDebugPass.AddPointLight | src/renderer/passes/light_debug_pass.rs:123-136 | the lamp goes into the next free slot (a free slot is required, since indexing past the buffer panics) and the count grows by one |
| LightDebugPass.LightDebugPass.Prepare | src/renderer/passes/light_debug_pass.rs:140-149 | every scene light is added in order after the existing lamps, and a dirty buffer is uploaded, so afterwards the GPU copy is current |
| LightDebugPass.LightDebugPass.Draw | src/renderer/passes/light_debug_pass.rs:151-188 | an overlay over the existing colour and depth draws the 36 cube indices once per counted lamp |
| LightDebugPass.LightDebugPass.FinishFrame | src/renderer/passes/light_debug_pass.rs:190-192 | the lamp count starts over |
| LightDebugPass.InstanceLayoutPacked | src/renderer/passes/light_debug_pass.rs:245-280 | the matrix columns and the tint follow each other without gaps |
| LightDebugPass.InstanceLayoutLocations | src/renderer/passes/light_debug_pass.rs:245-280 | the instance attributes use locations 2 to 6 |
| LightDebugPass.DebugMeshInstanceLayout | src/renderer/passes/light_debug_pass.rs:245-280 | stride 80, per instance, fitting and non-overlapping, with locations disjoint from the debug vertex's |
| Materials.NewBuilder | src/renderer/materials.rs:49-58 | a new builder has no field set |
| Materials.Build | src/renderer/materials.rs:110-126 | every field that was set is used; an unset colour or power takes the shading default, and an unset texture takes the default texture |
| Materials.BuildEmpty | src/renderer/materials.rs:110-126 | an empty builder yields the all-defaults material |
| Materials.SettersSetOnlyTheirOwnField | src/renderer/materials.rs:63-105 | each setter changes only its own field of the built material |
| Materials.LastSetterWins | src/renderer/materials.rs:63-105 | setting a field twice is setting it once to the last value |
| Materials.FullySetIgnoresDefaults | src/renderer/materials.rs:110-126 | with all three textures set, the default textures do not matter |
| MathUtils.RotateAroundPivotKeepsRadius | src/math_utils.rs:5-10 | with exact trigonometry the point lies at the radius from the pivot |
| MathUtils.OrbitPosition | src/renderer.rs:408-417 | the orbiting light's x and y are the unit-circle point at 24° per second, and its z equals its y |
| MathUtils.OrbitOnUnitCircle | src/renderer.rs:408-417 | with exact trigonometry the orbit stays on the unit circle in x and y |
| LegacyModels.SpawnLegacyGrid | src/renderer/models.rs:94-118 | rows × columns instances in row-major order, each rotated by 45° |
| LegacyModels.NewLegacyInstanceBuffer | src/renderer/models.rs:19-37 | one uploaded transform per instance, in order |
| LegacyModels.NewBufferCountsItsInstances | src/renderer/models.rs:42-44 | the instance count is the number of instances given, and the GPU buffer holds that many |
| MultiCubeDemo.Toggled | src/game_app/multi_cube_demo.rs:203-206 | the camera switch always picks the other controller |
| MultiCubeDemo.CameraToggleInvolution | src/game_app/multi_cube_demo.rs:196-208 | the same event twice restores the controller, and the controller changes exactly on a released C key |
| MultiCubeDemo.CrateMatchesRendererCrate | src/game_app/multi_cube_demo.rs:149-154 | the demo's crate material is the renderer's built-in crate material |
| MultiCubeDemo.DemoPointLightsInRange | src/game_app/multi_cube_demo.rs:34-79 | every demo point light has its ambient and specular amounts in [0, 1] |
| MultiCubeDemo.DemoPointLightsAllActive | src/game_app/multi_cube_demo.rs:34-79 | the demo has exactly as many point lights as the shader has slots, and adding them to empty slots makes all of them active, in order |
| MultiCubeDemo.DemoLightsFitShaderSlots | src/game_app/multi_cube_demo.rs:177-183 | the demo's four point lights (not the three its comment claims) fill the shader's slots exactly, none is dropped, and each passes the range check of `add_point_light` |
| MultiCubeDemo.MultiCubeDemo.constructor | src/game_app/multi_cube_demo.rs:114-122 | starts with the arcball, an empty scene and zero time |
| MultiCubeDemo.MultiCubeDemo.LoadContent | src/game_app/multi_cube_demo.rs:126-186 | fails with the first texture error and leaves the scene alone; otherwise appends one cube per initial position, then one directional, one spot and the point lights |
| MultiCubeDemo.MultiCubeDemo.Input | src/game_app/multi_cube_demo.rs:188-219 | C released toggles the controller; the event then goes to the active controller, whose answer is returned; the inactive controller is unchanged, and so is the active one's state other than what the event sets |
| MultiCubeDemo.MultiCubeDemo.UpdateSim | src/game_app/multi_cube_demo.rs:221-223 | game time advances by the frame time |
| MultiCubeDemo.MultiCubeDemo.UpdateActiveCamera | src/game_app/multi_cube_demo.rs:226-235 | only the active controller updates the camera and the other is untouched: the arcball orbits, zooms and clamps as written around the unchanged target and keeps the field of view; the free-look moves the eye by the held keys, clamps its new yaw, turns its pitch, clamps and applies its field of view and looks along its yaw and pitch; the active controller's pending input is cleared, its other state kept, and the camera's up vectors, aspect and depth range are kept |
| MultiCubeDemo.MultiCubeDemo.PrepareRender | src/game_app/multi_cube_demo.rs:225-250 | the camera and the controllers end as `UpdateActiveCamera` states; the first spot light then follows the camera and the first point light orbits with game time; nothing else in the scene changes |
| MultiCubeDemo.MultiCubeDemo.MouseMotion | src/game_app/multi_cube_demo.rs:252-263 | only the active controller receives the motion: its other state and the whole inactive controller are unchanged |
| MultiCubeDemo.MultiCubeDemo.MouseScrollWheel | src/game_app/multi_cube_demo.rs:265-276 | only the active controller receives the wheel, with x and y swapped: its other state and the whole inactive controller are unchanged |
| ObjModel.CreateTexture | src/content/obj_model.rs:77-87 | no path gives the default texture; a path gives what loading it gives |
| ObjModel.CreateMaterial | src/content/obj_model.rs:71-119 | fails exactly when one of its two textures fails, with the diffuse texture's error when it fails and otherwise the specular texture's; otherwise the material's values come from the MTL data or the defaults, with the default emissive map |
| ObjModel.UntexturedMaterialUsesDefaults | src/content/obj_model.rs:71-119 | a material without textures always succeeds and uses the default diffuse and specular maps |
| ObjModel.CreateMaterials | src/content/obj_model.rs:49-55 | succeeds exactly when every material does, keeping their order; otherwise the error is the first failing material's |
| ObjModel.ObjVertices | src/content/obj_model.rs:225-245 | one vertex per position triple |
| ObjModel.ProcessObjMesh | src/content/obj_model.rs:188-267 | the object's vertices and indices are appended, and its submesh covers the appended index range from the old vertex count, with the object's material |
| ObjModel.CreateMesh | src/content/obj_model.rs:126-178 | the vertex and index buffers are the concatenation of the objects', in order, and submesh k is object k's |
| ObjModel.SubmeshesMatchObjects | src/content/obj_model.rs:240-266 | each submesh's index range in the mesh is exactly its object's indices, and its vertices start at its base vertex |
| ObjModel.SubmeshRangesContiguous | src/content/obj_model.rs:126-178 | the submeshes tile the index buffer: the first starts at 0, each ends where the next begins, and the last ends at the end |
| ObjModel.SubmeshRangesPartition | src/content/obj_model.rs:126-178 | every index lies in some submesh, and submesh ranges do not overlap |
| PackedStructs.Vec3W | src/renderer/shaders/packed_structs.rs:119-121 | the only vector with the given xyz and w |
| PackedStructs.PackMaterial | src/renderer/shaders/packed_structs.rs:35-43 | the three colours go to xyz; w is 0, 0 and the specular power |
| PackedStructs.MaterialRoundTrip | src/renderer/shaders/packed_structs.rs:35-43 | unpacking a packed material (with its textures) restores it |
| PackedStructs.PackedMaterialImage | src/renderer/shaders/packed_structs.rs:35-43 | a packed value is a material's image exactly when its ambient and diffuse w are 0 |
| PackedStructs.PackDirectionalLight | src/renderer/shaders/packed_structs.rs:54-61 | the normalized direction carries the ambient amount, and the colour carries the specular amount |
| PackedStructs.DirectionalLightRoundTrip | src/renderer/shaders/packed_structs.rs:54-61 | unpacking restores the light, up to normalizing its direction, and restores it exactly when the direction was already normalized |
| PackedStructs.PackPointLight | src/renderer/shaders/packed_structs.rs:74-88 | position with ambient, colour with specular, attenuation with w 0 and zero padding |
| PackedStructs.PointLightRoundTrip | src/renderer/shaders/packed_structs.rs:74-88 | unpacking a packed point light restores it |
| PackedStructs.PackedPointLightImage | src/renderer/shaders/packed_structs.rs:74-88 | a packed value is a point light's image exactly when its attenuation w and its padding are zero |
| PackedStructs.PackSpotLight | src/renderer/shaders/packed_structs.rs:101-115 | the cosines of the two cut-offs go into the position and attenuation w, and the ambient and specular amounts into the direction and colour w |
| PackedStructs.SpotLightPackedAlike | src/renderer/shaders/packed_structs.rs:101-115 | two spot lights pack alike exactly when they agree on everything the packing keeps |
| Renderer.CrateMaterial | src/renderer.rs:281-310 | white colours, specular power 64, and the given textures |
| Renderer.CubeMesh | src/renderer.rs:262-312 | the built-in cube's tables, 36 indices, one submesh over all of them with the crate material |
| Renderer.PerFrameAfterUpdateKeepsCameraAndTime | src/renderer.rs:398-406 | if the light setters leave the view-projection and the eye alone, the per-frame values `update` writes hold the camera's view-projection and eye and the elapsed time |
| Renderer.FramePassesOrder | src/renderer.rs:434-506 | only the main pass clears; the lamp overlay follows it, drawing the 36 cube indices per lamp; the depth quad comes last exactly when visualisation is on |
| Renderer.LampCountCountsUnpresentedFrames | src/renderer.rs:426-501 | after a run of frames the lamp count is the number of frames since the last presented one (or has grown by the whole run) |
| Renderer.HundredFailedFramesExhaustLamps | src/renderer.rs:426-501 | a hundred failed frames in a row leave no lamp slot free |
| Renderer.Renderer.constructor | src/renderer.rs:108-355 | camera at (1.5, 1, 5) looking at the origin with a 45° field of view and clip planes 0.1 to 100; sRGB flag stored; ten cubes at the initial positions sharing the crate mesh; the three lights; depth visualisation off; no lamps |
| Renderer.Renderer.WindowSize | src/renderer.rs:509-511 | the window size is never zero |
| Renderer.Renderer.Resize | src/renderer.rs:361-382 | a zero side is ignored; otherwise the window, surface, depth texture and camera viewport take the new size, and nothing else changes |
| Renderer.Renderer.Input | src/renderer.rs:384-387 | the debug state sees every event, and the arcball's answer (left button) is returned |
| Renderer.Renderer.Update | src/renderer.rs:389-432 | the arcball moves the camera (with the clamp as written) around the unchanged target; the spot light follows it; time advances; the per-frame values are written and uploaded; the point light orbits; its lamp is added and uploaded |
| Renderer.Renderer.UpdateCameraAndUniforms | src/renderer.rs:390-406 | the first half of `update`: the arcball moves the eye with the clamp as written, the spot light takes the eye and view direction, time advances, and the per-frame values are written and uploaded |
| Renderer.Renderer.UpdateLamp | src/renderer.rs:408-431 | the point light orbits with the elapsed time, and its lamp is appended and uploaded |
| Renderer.Renderer.Render | src/renderer.rs:434-506 | with no back buffer, returns the error and keeps the lamp count; otherwise returns the frame's passes and restarts the lamp count |
| Renderer.Renderer.Frame | src/game_app.rs:46-49 | update then render: a presented frame's passes draw one more lamp than were counted before it, a failed frame returns its surface error, and the lamp count follows `LampCountAfterFrame` |
| Shaders.EmptySlots | src/renderer/shaders.rs:60-70 | default slots, none in use |
| Shaders.AddIfRoom | src/renderer/shaders.rs:88-98 | appends into slot `count` exactly when there is room; a full array is unchanged, and the other slots are never touched |
| Shaders.ClearedSlots | src/renderer/shaders.rs:82-85 | no light is active afterwards, and the slot contents are kept |
| Shaders.AddAllKeepsFirstThatFit | src/renderer/shaders.rs:88-98 | adding lights one by one keeps the ones that fit, in order, and drops the rest |
| Shaders.ClearThenAddAll | src/renderer/shaders.rs:82-111 | after clearing, a frame's lights leave exactly the first capacity of them active |
| Shaders.UniformBufferLayout | src/renderer/shaders.rs:123-137 | a single uniform-buffer entry at binding 0 |
| Shaders.UniformBufferBindGroup | src/renderer/gpu_buffers.rs:68-75 | the buffer's bind group matches the uniform-buffer layout |
| Shaders.PerFrameShaderVals.constructor | src/renderer/shaders.rs:60-70 | default per-frame values, clean |
| Shaders.PerFrameShaderVals.SetViewProjection | src/renderer/shaders.rs:72-75 | a write of only the view-projection |
| Shaders.PerFrameShaderVals.SetViewPos | src/renderer/shaders.rs:77-80 | the camera position is stored as a point (w = 1) |
| Shaders.PerFrameShaderVals.ClearLights | src/renderer/shaders.rs:82-85 | no directional or spot light is active, the slot contents are kept, and the buffer is marked written |
| Shaders.PerFrameShaderVals.AddDirectionalLight | src/renderer/shaders.rs:88-98 | the buffer is marked written, and the packed light is appended if one of three slots is free |
| Shaders.PerFrameShaderVals.AddSpotLight | src/renderer/shaders.rs:101-111 | the same append-if-room rule with two slots |
| Shaders.PerFrameShaderVals.SetTimeElapsedSeconds | src/renderer/shaders.rs:113-116 | a write of only the time |
| Shaders.PerFrameShaderVals.SetOutputIsSrgb | src/renderer/shaders.rs:118-121 | the flag is stored as 1 or 0 |
| Shaders.PerFrameShaderVals.UpdateGpu | src/renderer/shaders.rs:147-150 | the values are uploaded |
| Shaders.PerFrameShaderVals.IsDirty | src/renderer/shaders.rs:151-153 | reports the flag; a clean buffer's GPU copy is current |
| Shaders.PerModelShaderVals.constructor | src/renderer/shaders.rs:176-187 | default per-model values, clean |
| Shaders.PerModelShaderVals.SetLocalToWorld | src/renderer/shaders.rs:189-194 | the transform and its inverse are written |
| Shaders.PerModelShaderVals.ClearLights | src/renderer/shaders.rs:196-199 | no point light is active |
| Shaders.PerModelShaderVals.AddPointLight | src/renderer/shaders.rs:201-214 | the light must pass the range check of the debug assertions, and is appended if one of four slots is free |
| Shaders.PerModelShaderVals.UpdateGpu | src/renderer/shaders.rs:234-237 | the values are uploaded |
| Shaders.PerModelShaderVals.IsDirty | src/renderer/shaders.rs:238-240 | reports the flag; a clean buffer's GPU copy is current |
| Shaders.PerSubmeshBindGroup | src/renderer/shaders.rs:277-349 | buffer, sampler and the material's three texture views at bindings 0 to 4, matching the per-submesh layout |
| Shaders.PerSubmeshShaderVals.constructor | src/renderer/shaders.rs:277-349 | the packed material constants, uploaded, with the material's bind group |
| Shaders.PerSubmeshShaderVals.UpdateGpu | src/renderer/shaders.rs:407-410 | the constants are uploaded |
| Shaders.PerSubmeshShaderVals.IsDirty | src/renderer/shaders.rs:412-414 | never dirty, since nothing writes the constants after creation |
| VertexLayouts.TightlyPackedIsSound | src/renderer/instancing.rs:91-120 | a layout whose attributes follow each other without gaps fits its stride, and no two of its attributes overlap |

## Left out

- Device, surface, queue, pipelines, shader modules, command encoders and presentation: these are GPU effects. A GPU object is a `Handle`, an upload is the buffer state, and a frame is its list of `PassRecord`s.
- Floating point: `f32` arithmetic, rounding, NaN and the `u32`/`f64` casts are modelled on `real`, and the geometric primitives are uninterpreted. The debug assertion that an inverse is not NaN is not modelled.
- The camera API the controllers and the renderer call (`reorient`, `set_fov_y`, `set_viewport_size`, viewport size, world up) comes from a newer camera than `src/camera.rs`, which only shows the fields and `view_projection_matrix`. `Cameras.Camera` is inferred from those call sites.
- The renderer's per-frame light setters `set_directional_light` and `set_spot_light` are not part of this model's sources. `Renderer.LightSetters` takes them as given functions that keep the slots well formed. The model does not know whether they also keep the camera fields (`viewProjection`, `viewPos`), so `Renderer.PerFrameAfterUpdateKeepsCameraAndTime` assumes it.
- The per-model loop of `update` (`src/renderer.rs:420-423`, `set_point_light` and `prepare` on each model) is not modelled: its callees are not part of this model's sources.
- `light_debug_pass.prepare(&queue)` at `src/renderer.rs:431` has no scene argument, unlike the `prepare` in the light debug pass. It is modelled as that `prepare` with an empty scene.
- `src/game_app.rs` calls `render(scene, delta)` on a renderer whose `render` takes neither. `Renderer.Renderer.Frame` runs the renderer's own `update` and `render` in that place.
- `src/content/obj_model.rs:93-116` falls back on `shading::DEFAULT_*`, which the shown `src/renderer/shading.rs` does not define. The model takes these to be the material builder's defaults of `src/renderer/materials.rs:43-46` (white ambient and diffuse, black specular, power 0), so `ObjModel.CreateMaterial` and `Materials.Build` share one set of constants.
- The shader's light capacities come from `lit_shader`, which is outside this model. The capacities 4, 3 and 2 are named constants.
- AddDirectionalLight and AddSpotLight (`Shaders.PerFrameShaderVals`) model a release build. `src/renderer/shaders.rs:91` and `:104` debug-assert that a slot is free, so in a debug build a light added to a full array panics. The model instead follows the `if` right after each assertion and ignores the light. `AddPointLight`'s range assertions (`:202-203`) are a precondition, because no code path handles a light out of range; its capacity assertion (`:208`) sits inside the `if` and always holds.
- ArcballDistanceBound: the 1-to-20 distance bound is proved for the update as written only with the target at the origin. Once the free-look has moved the target elsewhere, the clamped branches can put the eye outside the bounds (`Gameplay.ClampDistanceAsWrittenEscapes`). The corrected clamp keeps the bound for every pivot (`Gameplay.ClampDistanceWithinBounds`).
- GameApp.GameAppHost.Render: the game's step is stated through the spot light it moves, the free-look's yaw and field of view, and the drained input. The free-look's pitch and look target, and the camera after that step, are stated by `MultiCubeDemo.MultiCubeDemo.PrepareRender` and not repeated, because the renderer's own `update` then moves the same camera again (`Renderer.Renderer.Update`).
- Texture decoding, `.obj`/`.mtl` parsing (tobj) and file loading become inputs: the loaded meshes, the textures' `Result`s, and a texture loader function.
- The `load_obj_mesh` glue, which creates the GPU buffers and carries the name string, is covered by `ObjModel.CreateMaterials` and `ObjModel.CreateMesh`.
- ObjModel.ProcessObjMesh: its contract states only the appended buffers and the submesh. That the submesh's index range is exactly the object's indices inside the whole mesh is stated for the assembled mesh by `ObjModel.SubmeshesMatchObjects`.
- The assertions of `process_obj_mesh` (triangulated, single index) and the `expect` on a missing material become the precondition `Assemblable`.
- Cursor grabbing is the returned `CursorRequest`. The platform's refusal is only a logged warning, so it changes nothing.
- `Box<dyn GameApp>` is the concrete `MultiCubeDemo`, the only game in the program.
- `render_scene` is a plain field read and has no contract.
- Logging (`warn!`, `error!`, `logging.*`, `print`) is not modelled.
- Out of memory panics in `src/game_app.rs:58-60`. This is the `Panicked` outcome rather than a precondition, so that the other surface errors stay reachable.
- The twin files `src/renderer/debug.rs` / `src/renderer/debug_state.rs` and `src/renderer/gpu_buffers.rs` / `src/renderer/uniforms_buffers.rs` hold the same code. Each pair is modelled once.
- `build-web.py` repeats `build`, `package`, `main` and the console loop of `pygametools/web_build.py` line for line. `WebBuild` models them once; only its stricter `from_str` is separate (`BuildWeb`).
- The directory walk and file copies of `package` are effects. They are one `PackageTo` action, and only the mapping from source to destination directories is modelled.
- The HTTP server thread and its port parsing are effects. They are the `StartServer`/`StopServer` actions.
- The console ends after the given lines. End of input, which raises in the source, is not modelled.
- The return codes of builds started from the console are ignored, as in the source. Only the first build's code is an input.
- `argparse` rejects a mode other than `dev`/`release` before `main` runs: `WebBuild.ArgsAdmitted` is that precondition.
- The frame-time accumulator `time_to_update` of the renderer is only initialised, as in the source.

## Findings

| source | as written | input that shows it | evidently intended | confidence | as-written member | corrected member |
|---|---|---|---|---|---|---|
| src/gameplay.rs:303-309 | the arcball clamp sets the eye to `pivot_to_camera.normalize() * distance`, without adding the pivot back | pivot (30, 0, 0), eye after zoom (30.5, 0, 0), distances 1 to 20: the eye becomes (1, 0, 0), 29 units from the pivot | `pivot + pivot_to_camera.normalize() * distance`, which keeps the eye between the minimum and the maximum distance from the pivot | not executed | Gameplay.ClampDistanceAsWrittenEscapes | Gameplay.ClampDistanceWithinBounds |

The arcball's `UpdateCamera`, and the renderer and demo operations built on it, follow the clamp as written. `Gameplay.ClampDistance` is the intended clamp, and `Gameplay.ClampAgreesAtOrigin` shows that the two agree while the target is at the origin.
