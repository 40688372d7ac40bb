# GFX_Engine forward renderer and maze logic, modelled in Dafny

This project models the frame logic of GFX_Engine, a small OpenGL forward
renderer with a maze game built on top of it. It also models the parts of the
material system, the JSON deserializers and the two game controllers that the
renderer and the game depend on.

The OpenGL device is a class, `Gl.Device`. It holds an abstract state record
(`GlState`: capabilities, masks, clear values, viewport, bound framebuffer,
active unit, per-unit texture and sampler bindings, uniforms) and the ordered
log of every call made so far (`trace`). `Step` gives the effect of one call on
the state, and `Replay` gives the effect of a list of calls. Each operation that
talks to GL is specified by the calls it appends to the log. Lemmas then say
what those calls do to the state.

The model covers:

- **`ForwardRenderer`.**
  - `initialize` creates the sky and the postprocess pass only when their
    configuration keys are present.
  - `deserialize` reads the sky colours, and `invertDummyVariable` flips the
    dummy flag.
  - `render` builds one command per mesh renderer, picks the first camera and
    splits the commands into an opaque and a transparent list. It sorts the
    transparent list back to front along the camera's forward direction. It
    then draws clear → opaque → sky → transparent → postprocess.
- **`PipelineState::setup`**, as a device-state transition.
- **The material hierarchy** (`Material` → `TintedMaterial` → `TexturedMaterial`
  → `LitMaterial`). One class with a `kind` field holds it. Its `setup` and
  `deserialize` run parent-first.
- **`LightComponent::deserialize`** and the `deserializeComponent` type dispatch.
- **`Mesh::calculateMinMaxPoints`**, with its two quirks (see Findings).
- **The collision scans and `update`** of the scarecrow controller and of the
  free camera controller.

Modules, one per source file, plus `Geometry` (glm vectors and matrices), `Gl`
(the device), `Json` (nlohmann::json values), `Ecs` (entities and components)
and `Wrappers` (`Option`).

## Model

| member | source | states |
|---|---|---|
| Renderer.ForwardRenderer.Initialize | source/common/systems/forward-renderer.cpp:7-100 | The window size is stored. A sky (sphere plus a textured sky material) exists iff the configuration contains "sky". A postprocess pass exists iff it contains "postprocess", and then the framebuffer gets its colour and depth attachments and framebuffer 0 is left bound. No other call is made, and no other field changes. |
| Renderer.CreateSky | source/common/systems/forward-renderer.cpp:12-52 | The sky is present exactly when "sky" is present. Its material is a fresh textured material built from the named image. |
| Renderer.CreatePostprocess | source/common/systems/forward-renderer.cpp:55-99 | The pass is present exactly when "postprocess" is present. The four attach calls are logged only then. Its material samples the colour target with the named fragment shader. |
| Renderer.SkyMaterialDrawsInside | source/common/systems/forward-renderer.cpp:25-51 | The sky material culls front faces and tests depth with GL_LEQUAL. It does not blend, writes depth, has white tint and alpha threshold 1, is not transparent, and can be set up. |
| Renderer.PostprocessMaterialSkipsDepth | source/common/systems/forward-renderer.cpp:92-98 | The postprocess material is the default pipeline with depth writes off. It uses the configured fragment shader, samples the colour target with its own sampler, and can be set up. |
| Renderer.AttachEffect | source/common/systems/forward-renderer.cpp:57-74 | After the attach calls, the colour and depth targets are attached to the new framebuffer and framebuffer 0 is bound. |
| Renderer.ForwardRenderer.Deserialize | source/common/systems/forward-renderer.hpp:69-85 | Each sky colour is elements [0], [1], [2] of its key when the key is present, and is unchanged otherwise. The three keys are independent, and no other field changes. |
| Renderer.SkyColourSettles | source/common/systems/forward-renderer.hpp:71-83 | Reading the same data twice gives the same colour as reading it once. A present key decides the colour whatever it was before, and an absent key keeps it. |
| Renderer.ForwardRenderer.InvertDummyVariable | source/common/systems/forward-renderer.hpp:60 | `dummy` is negated and nothing else changes, so two calls restore it. |
| Renderer.ForwardRenderer.constructor | source/common/systems/forward-renderer.hpp:48 | `dummy` starts false, and there is no sky, no postprocess pass and no command. |
| Renderer.CollectCommands | source/common/systems/forward-renderer.cpp:125-147 | The loop yields the first camera, and the opaque and transparent lists of the commands in entity order. |
| Renderer.CommandsAreMeshRenderers | source/common/systems/forward-renderer.cpp:132-138 | Each entity with a mesh renderer yields exactly one command, in entity order. The command carries that entity's matrix, mesh and material, and its centre is the image of the local origin. |
| Renderer.CollectNext | source/common/systems/forward-renderer.cpp:128-146 | One more entity appends its command, if it has one, to the transparent list when its material is transparent and to the opaque list otherwise. |
| Renderer.SplitPartitions | source/common/systems/forward-renderer.cpp:139-145 | The two lists together hold every command exactly once. The transparent list holds only transparent commands, and the opaque list only the others. |
| Renderer.CameraAmongFirst | source/common/systems/forward-renderer.cpp:130 | The camera picked is the first entity that has one; no camera is picked exactly when no entity has one. |
| Renderer.ForwardIsDifference | source/common/systems/forward-renderer.cpp:162-166 | The forward direction is M·(0,0,-1,1) minus M·(0,0,0,1), before normalisation. |
| Renderer.BackToFrontIgnoresLength | source/common/systems/forward-renderer.cpp:166-179 | Scaling the forward direction by any positive factor, which is what normalisation does, leaves the sort order unchanged. |
| Renderer.SortByDepth | source/common/systems/forward-renderer.cpp:169-179 | The sorted list is a permutation of its input, and no command lies further along the forward direction than one before it. |
| Renderer.SortIsStable | source/common/systems/forward-renderer.cpp:169-179 | Commands at equal depth keep their entity order. |
| Renderer.InsertAtDepth | source/common/systems/forward-renderer.cpp:169-179 | Inserting a command places it after every command at its own depth and leaves the other depths alone. |
| Renderer.ClearEffect | source/common/systems/forward-renderer.cpp:185-202 | After the clearing calls, the viewport covers the window, the clear colour is black and the clear depth 1. Colour and depth writes are all on, and the off-screen framebuffer is bound iff there is a postprocess pass. |
| Renderer.ClearTargets | source/common/systems/forward-renderer.cpp:185-202 | The calls made are the viewport, the clear values and the masks, the framebuffer binding when there is a postprocess pass, then the clear. |
| Renderer.DrawCommands | source/common/systems/forward-renderer.cpp:205-213 | Each command, in list order: its material's setup, "transform" = VP·localToWorld, and its draw. |
| Renderer.DrawCommand | source/common/systems/forward-renderer.cpp:208-212 | One command: its material's setup calls, then the "transform" upload, then the draw. |
| Renderer.DrawSky | source/common/systems/forward-renderer.cpp:215-256 | When there is a sky: its material's setup, "transform" = alwaysBehind·VP·translate(camera position), and the sphere draw. Otherwise nothing. |
| Renderer.SkyIsBehindAndAroundCamera | source/common/systems/forward-renderer.cpp:227-251 | Every vertex of the sky lands with clip z equal to w, so depth 1 after the divide. The sky model moves the origin to the camera's world position. |
| Renderer.ApplyPostprocess | source/common/systems/forward-renderer.cpp:269-277 | When there is a postprocess pass: bind framebuffer 0, the material's setup, bind the vertex array, and draw 3 vertices. Otherwise nothing. |
| Renderer.DrawOpaquePass | source/common/systems/forward-renderer.cpp:185-213 | The clearing calls followed by every opaque command's calls. |
| Renderer.DrawTransparentPass | source/common/systems/forward-renderer.cpp:215-277 | The sky's calls, then every transparent command's calls, then the postprocess calls. |
| Renderer.ForwardRenderer.DrawFrame | source/common/systems/forward-renderer.cpp:182-277 | The whole frame is appended to the log: clear, opaque commands, sky, transparent commands, postprocess. |
| Renderer.DrawOrder | source/common/systems/forward-renderer.cpp:205-277 | A frame draws the opaque meshes in list order, then the sky sphere if there is a sky, then the transparent meshes in list order. The postprocess pass draws no mesh. |
| Renderer.SetupDrawsNothing | source/common/material/material.cpp:9-102 | Setting up any material makes no draw call. |
| Renderer.ForwardRenderer.Render | source/common/systems/forward-renderer.cpp:123-278 | The opaque list is always the collected opaque commands. With no camera, the transparent list is the collected one and no GL call is made. With a camera, the transparent list is sorted back to front along the first camera's forward direction, and the log gains exactly the frame for those lists and VP = projection·view. The settings fields never change. |
| Renderer.ForwardRenderer.SortAndDraw | source/common/systems/forward-renderer.cpp:169-277 | The sort, followed by the frame for the sorted list. |
| Renderer.ForwardRenderer.SceneIsQuiet | source/common/systems/forward-renderer.cpp:205-277 | No material drawn in the next frame makes a draw call while it is set up. |
| Pipeline.PipelineState.Setup | source/common/material/pipeline-state.hpp:43-80 | The colour mask, the depth mask, then culling, blending and depth testing are logged in the order of the code. The device state becomes the replay of those calls. |
| Pipeline.SetupEffect | source/common/material/pipeline-state.hpp:43-80 | After setup, the masks equal the struct's. Each capability is enabled iff its flag is set. Its parameters equal the struct's when enabled and are untouched when disabled. |
| Pipeline.SetupIdempotent | source/common/material/pipeline-state.hpp:43-80 | Applying setup twice gives the same device state as applying it once. |
| Pipeline.SetupIndependentOfPrevious | source/common/material/pipeline-state.hpp:43-80 | Two devices that differ before setup agree afterwards on the masks and on every enabled capability's parameters. |
| Pipeline.DefaultSetupDisablesAll | source/common/material/pipeline-state.hpp:14-38 | With the defaults, setup disables culling, blending and depth testing, and turns on all colour channels and depth writes. |
| Materials.Material.Setup | source/common/material/material.cpp:9-102 | The calls of the material's own class, parent first, are logged, and the device state is their replay. |
| Materials.Material.SetupTinted | source/common/material/material.cpp:28-32 | The parent's calls, then "tint". |
| Materials.Material.SetupTextured | source/common/material/material.cpp:41-57 | The parent's calls, "alphaThreshold", unit 0 made active, the texture and sampler bound only when present, and "tex" = 0. |
| Materials.Material.SetupLit | source/common/material/material.cpp:69-102 | The parent's calls, each present map on units 0 to 4, and unit 0 active at the end. |
| Materials.TintedSetupEffect | source/common/material/material.cpp:9-13 | After the tinted setup, the pipeline state is applied, the shader is in use, and its "tint" is the material's tint. |
| Materials.TexturedSetupEffect | source/common/material/material.cpp:41-57 | After the textured setup, "tint", "alphaThreshold" and "tex" = 0 are set. Unit 0 is active, with the texture and sampler bound there when present, and every other unit is unchanged. |
| Materials.UnitZeroBindingsEffect | source/common/material/material.cpp:48-52 | A present texture or sampler is bound to unit 0. An absent one leaves the binding as it was. |
| Materials.LitSetupEffect | source/common/material/material.cpp:69-101 | Each present map is bound with the shared sampler on its own unit and its "material.<name>" uniform names that unit. An absent map leaves its unit as the parent left it. Unit 0 is active at the end. |
| Materials.Material.Deserialize | source/common/material/material.cpp:16-128 | A missing or non-string "shader" gives `ok == false` after the pipeline state is read. Otherwise the fields are what the class's deserialize chain reads. |
| Materials.Material.DeserializePlain | source/common/material/material.cpp:16-24 | The pipeline state is read only when present. Then the shader is required, and "transparent" is read. |
| Materials.DecodeIgnoresNonObjects | source/common/material/material.cpp:17 | At every level, deserializing a non-object changes nothing. |
| Materials.DecodeFields | source/common/material/material.cpp:19-23 | A present "transparent", "tint" or "alphaThreshold" gives its value. An absent one gives false, opaque white or 0. "texture" and "sampler" are looked up by their name, or by "" when absent. A level never touches the fields of levels below it. |
| Materials.LitDecodeMaps | source/common/material/material.cpp:105-128 | Each lit map is looked up when its key is present and keeps its value otherwise. The sampler is read again unconditionally. |
| Lights.LightComponent.Deserialize | source/common/components/light.cpp:10-40 | The light's new fields are DecodedLight of its old fields and the data. |
| Lights.LightTypeCodes | source/common/components/light.cpp:18-25 | DIRECTIONAL gives 0, POINT gives 1 and SPOT gives 2. Nothing else gives a code. |
| Lights.LightIgnoresNonObjects | source/common/components/light.cpp:12-13 | A non-object leaves the light unchanged. |
| Lights.LightTypeRead | source/common/components/light.cpp:15-25 | The type string defaults to "DIRECTIONAL". A recognised string sets its code, and an unrecognised one keeps the previous code. |
| Lights.LightOptionalFields | source/common/components/light.cpp:16-39 | Direction, diffuse and specular are always read, with default (1,1,1). Attenuation is read only for a non-zero code, with default (1,0,0). The cone angles are read from "cone_angles.in" and "cone_angles.out" only for code 2, with defaults 10 and 80 degrees, as radians. |
| ComponentDeserializer.DeserializeComponent | source/common/components/component-deserializer.hpp:20-49 | The kind added is the one the type string (default "") picks. No match adds nothing. A match appends exactly one component of that kind, which reads the same JSON. The entity's transform is untouched. |
| ComponentDeserializer.NewComponent | source/common/components/component-deserializer.hpp:22-46 | A component exists iff the type matches an ID, and its kind is that ID's. |
| ComponentDeserializer.KindForFirstMatch | source/common/components/component-deserializer.hpp:24-46 | The kind picked is the first in the if-else order whose ID equals the type. None is picked exactly when no ID does. |
| ComponentDeserializer.KindForInvertsIdOf | source/common/components/component-deserializer.hpp:24-46 | Each kind is picked by its own ID and by no other string. |
| Meshes.Mesh.CalculateMinMaxPoints | source/common/mesh/mesh.hpp:87-113 | Each axis's (min, max) is the as-written running bounds of that axis's coordinates alone. |
| Meshes.NoVerticesGivesSentinels | source/common/mesh/mesh.hpp:89-94 | With no vertices, the bounds stay FLT_MAX and FLT_MIN. |
| Meshes.MaxIsUpperBound | source/common/mesh/mesh.hpp:90-99 | The maximum is at least every coordinate and at least FLT_MIN. |
| Meshes.MinBelowNonRaising | source/common/mesh/mesh.hpp:98-101 | A coordinate that did not raise the running maximum is at least the final minimum. |
| Meshes.BoundsComeFromInput | source/common/mesh/mesh.hpp:95-112 | Each final bound is its sentinel or one of the coordinates. |
| Meshes.AllNegativeKeepsMaxSentinel | source/common/mesh/mesh.hpp:90-99 | When every coordinate is negative, the maximum stays FLT_MIN. |
| Meshes.MaxSentinelCounterexample | source/common/mesh/mesh.hpp:90-99 | A single vertex at x = -1 reports maxX = FLT_MIN, not -1. |
| Meshes.ElseIfCounterexample | source/common/mesh/mesh.hpp:98-101 | A single vertex at x = 1 reports minX = FLT_MAX, not 1. |
| Meshes.TrueBoundsAreExtremes | source/common/mesh/mesh.hpp:87-113 | The corrected bounds of a non-empty list of float coordinates are its least and greatest elements. |
| ScarecrowController.IsCollide | source/common/systems/scarecrow-controller.hpp:88-122 | The result is the classification of the entities in iteration order. |
| ScarecrowController.CollisionClassifies | source/common/systems/scarecrow-controller.hpp:96-120 | The result is 1, -1 or 0. It is 0 iff no wall or zwall passes its box test. It is 1 iff the first body to pass a test passes the wall test. It is -1 iff that body passes only the zwall test. |
| ScarecrowController.WithinIsAbs | source/common/systems/scarecrow-controller.hpp:103 | The box tests are the `abs(d) < r` comparisons. |
| ScarecrowController.Update | source/common/systems/scarecrow-controller.hpp:46-75 | Each controlled scarecrow's velocity becomes its flip: x negated on a zwall hit, and z negated on a wall hit or in the turning region. Its angular velocity is kept. |
| ScarecrowController.CollisionFlipsExclusive | source/common/systems/scarecrow-controller.hpp:64-72 | Outside the turning region, one update never reverses both x and z. |
| ScarecrowController.FreeScarecrowKeepsVelocity | source/common/systems/scarecrow-controller.hpp:64-72 | A scarecrow touching no wall and outside the turning region keeps its velocity. |
| ScarecrowController.MarkerlessBodiesIgnored | source/common/systems/scarecrow-controller.hpp:96-118 | Entities with neither wall component never change the result. |
| CameraControl.FreeCameraControllerSystem.IsCollide | source/common/systems/free-camera-controller.hpp:144-186 | The result is the scan's. The menu is requested when a scarecrow passes its test before the scan stops, and nothing else changes. |
| CameraControl.CameraScanMeaning | source/common/systems/free-camera-controller.hpp:152-184 | The scan returns true iff some wall or zwall passes its box test, which is iff the scarecrow classification is non-zero. It touches a scarecrow iff one passes its test no later than the first hit. |
| CameraControl.ScarecrowAfterWallIgnored | source/common/systems/free-camera-controller.hpp:167-169 | A scarecrow after the first colliding wall is never looked at. |
| CameraControl.FreeCameraControllerSystem.Update | source/common/systems/free-camera-controller.hpp:41-131 | With no entity holding both a camera and a controller, nothing changes. Otherwise the first such entity's position and rotation, and the system's fields, become CameraStep's result, and no other entity moves. |
| CameraControl.FirstTrueFirst | source/common/systems/free-camera-controller.hpp:46-52 | The entity selected is the first with both components; none is selected exactly when no entity has both. |
| CameraControl.ClampPitchBounds | source/common/systems/free-camera-controller.hpp:70-71 | The pitch ends in [-0.99·π/2, 0.99·π/2]. A pitch already inside is kept, and one outside goes to the nearer limit. |
| CameraControl.WrapAngleRange | source/common/systems/free-camera-controller.hpp:74 | The yaw ends in [0, 2π), and a yaw already in that range is kept. |
| CameraControl.FrontIsProduct | source/common/systems/free-camera-controller.hpp:99 | Front is M·(0,0,-1,0) with w dropped. |
| CameraControl.UpIsProduct | source/common/systems/free-camera-controller.hpp:100 | Up is M·(0,1,0,0) with w dropped. |
| CameraControl.ForwardProbeOutcome | source/common/systems/free-camera-controller.hpp:109-111 | A W step that collides is undone exactly, and one that does not collide stands. |
| CameraControl.BackwardProbeOutcome | source/common/systems/free-camera-controller.hpp:113-115 | An S step is taken only after a check that found no collision, and a step that then collides is undone exactly. |
| CameraControl.CameraStepGuarantees | source/common/systems/free-camera-controller.hpp:69-130 | After update, the pitch is within the limit and roll is untouched. Ending in the exit region requests the menu, and a request is never withdrawn. The latch changes only on a shift edge. |
| CameraControl.IdleCameraStays | source/common/systems/free-camera-controller.hpp:69-130 | With no key held and nothing in reach, the camera stays put and only its angles are normalised. |
| CameraControl.FreeCameraControllerSystem.Walk | source/common/systems/free-camera-controller.hpp:109-115 | The W probe, then the S probe. The collision flag is the second check's, and the menu is requested if either check touched a scarecrow. |
| CameraControl.FreeCameraControllerSystem.Finish | source/common/systems/free-camera-controller.hpp:119-130 | A and D turn the yaw, Q and E move along up, and the exit region requests the menu. |
| Ecs.CollisionPointIsProduct | source/common/systems/scarecrow-controller.hpp:100 | The point each collision test compares against is localToWorld·(position, 1) with w dropped. |

## Left out

- The GL device is abstract. Pixels, shader compilation, texture and mesh upload, sampler parameters and GL object creation (`glGen*`) are not modelled. GL names are inputs, gathered in `Renderer.Resources`. `destroy` (forward-renderer.cpp:102-121) is not modelled.
- `GL_DRAW_FRAMEBUFFER` is modelled as the single framebuffer binding the device keeps.
- Floats are exact reals, so rounding is not modelled. FLT_MAX and FLT_MIN are their exact values. The π constants (`HalfPi`, `TwoPi`, `DegreesToRadians`) are decimal approximations.
- Renderer.ForwardRenderer.Render: the camera's projection and view matrices are given values in `Ecs.Camera`. The C++ code computes the projection from `windowSize` (forward-renderer.cpp:182) and the view from the owner's matrix. Only their product's place in the calls is modelled.
- `Entity.localToWorld` (getLocalToWorldMatrix) is a stored field, not computed from the parent chain and the local transform. It does not follow a change of the entity's position. When the camera controller moves the camera entity, its stored matrix stays as it was. This matters to a later collision scan only if the camera entity is also a wall, zwall or scarecrow.
- `Transform::toMat4` is a function parameter of the camera controller's `update`.
- Renderer.SortByDepth: the forward direction is not normalised (forward-renderer.cpp:166). `BackToFrontIgnoresLength` shows that scaling by a positive factor gives the same order.
- Renderer.SortByDepth: it is a stable insertion sort on a sequence, not an in-place sort of a vector. `std::sort` promises no order among commands at equal depth. The model's choice, entity order (SortIsStable), is one order `std::sort` may produce, not the only one.
- Renderer.ForwardRenderer.Render: it takes the collected lists as values, draws them, and then assigns them to `opaqueCommands` and `transparentCommands`, rather than pushing into the member vectors and sorting them in place. The permutation and back-to-front order of the transparent list are stated on `SortByDepth`, which `Render`'s `ensures` names.
- The world's entity set is a sequence in iteration order. The entities are distinct objects.
- Lighting: `render` never fills `lightSources` and uploads no light uniforms, so no light array is modelled.
- JSON type errors: nlohmann's `value` and `get` throw when a present key holds the wrong JSON type. The readers require instead that a present key holds the expected type (`Json.KeyFits` and the `KeysFit` predicates of materials, lights and the renderer). The throw is not modelled.
- ComponentDeserializer.DeserializeComponent: requires `data` to be a JSON object, because `value("type", "")` throws on anything else (component-deserializer.hpp:21). The throw is not modelled.
- Materials.Material.Deserialize: a missing or non-string "shader" makes `data["shader"].get<std::string>()` throw (material.cpp:22). It is modelled as `ok == false`, with the pipeline state already read and nothing more read. `PipelineState::deserialize` is not shown (declaration only), so it is a function parameter. AssetLoader is a map from names to ids.
- Materials.Material.Setup: requires a shader, and for lit materials a sampler whenever a map is present (`Ready`). The C++ code dereferences both unconditionally, so their absence is undefined behaviour there.
- The IDs of the camera, free camera controller, movement, mesh renderer and metal components are declared in headers that are not part of this model. They are assumed to be "Camera", "Free Camera Controller", "Movement", "Mesh Renderer" and "metal". `KindForInvertsIdOf` depends on all ten IDs being distinct. The deserializers of those components are parameters (`ComponentDeserializer.Decoders`).
- When "sky" or "postprocess" is absent, the C++ members `skyMaterial` and `postprocessMaterial` are left uninitialised. They are modelled as `None`.
- The local `colorTarget` shadows the member of the same name (forward-renderer.cpp:64), so `destroy` deletes an unset member. This is not modelled, because `destroy` is not.
- In the free camera controller, mouse input, mouse locking, `exit`, the commented-out field-of-view code and the unused `right` vector are not modelled. `app->changeState("menu")` is the flag `menuRequested`. Key states are inputs.
- `Mesh`'s constructor, `draw` and destructor are not modelled; only `calculateMinMaxPoints` is.

## Findings

| source | as written | input that shows it | evidently intended | confidence | as-written member | corrected member |
|---|---|---|---|---|---|---|
| source/common/mesh/mesh.hpp:90-101 | The maximum starts at FLT_MIN, the smallest positive float. A vertex that raises the running maximum is never compared with the minimum (`else if`). | One vertex at x = -1 gives maxX = FLT_MIN. One vertex at x = 1 gives minX = FLT_MAX. | Start the maximum at -FLT_MAX and compare every vertex with both bounds, so the bounds are the least and greatest coordinate. | high, not executed | Meshes.MaxSentinelCounterexample, Meshes.ElseIfCounterexample | Meshes.TrueBoundsAreExtremes |
