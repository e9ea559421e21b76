# Progressive ray tracer and ray marcher: per-frame state machines

This project models the two Unity camera components of the renderer,
`RayTracingMaster` (a progressive path tracer) and `RayMarchingMaster` (a
non-progressive signed-distance-field ray marcher), and proves what they keep
true from frame to frame.

- `engine.dfy` (module `Engine`): the engine objects the components drive.
  `Transform` carries the `hasChanged` flag, `RenderTexture` has a fixed size
  and a `created` flag set by `Create` and cleared by `Release`, and
  `ComputeBuffer` has a count and a stride. `GpuEvent` records these
  GPU-visible calls in a ghost log kept by each component: release, create,
  dispatch (with the texture bound as its `Result`), blit, blend and
  bounce-depth upload. `NeedsRealloc` and
  `ReplaceTarget` are the lazy render-target test and the release-then-create
  step. Both components use them.
- `dispatch.dfy` (module `Dispatch`): the 8 x 8 thread-group grid. The group
  count per axis is the ceiling of the pixel count divided by 8.
- `ray_tracing.dfy` (module `RayTracing`): the path tracer. Its state between
  frames is the sample counter, the bounce depth and the target's size
  (`TracerState`). `UpdateStep`, `InitStep`, `RenderStep` and `FrameStep`
  state one step each as functions. The lemmas prove how the counter evolves
  over runs of frames. The class `RayTracingMaster` does the same steps on its
  fields. Each of its methods is proved to follow the matching function.
- `ray_marching.dfy` (module `RayMarching`): the ray marcher. It has the
  `useShader` bypass, the Update that only clears flags, and the byte layout
  of the `Shape` record checked against the stride of the shape buffer.

Engine callbacks become explicit methods that the caller runs in frame order:
the constructor (field initialisers plus `Awake`), `Update` and
`OnRenderImage`. `Screen.width` and `Screen.height` are parameters.
`Input.GetKeyDown` becomes the `Keys` value passed to `Update`. A transform
that moves becomes a `Transform` whose `hasChanged` is set before the call.

Some behaviour of the code, stated here because a reader might expect otherwise:

- The marcher's `Update` only clears the change flags and rebuilds no scene
  buffer.
- `SetUpScene` is never called and releases no earlier buffer.
- No code falls back to a pass-through when a dispatch or allocation fails;
  the marcher's only pass-through is `useShader`.
- The tracer restarts accumulation on reallocation of its target; no scene
  buffer exists.

## Model

| member | source | states |
|---|---|---|
| `Engine.NeedsRealloc` | Assets/Scripts/RayTracingMaster.cs:43 | the target is reallocated exactly when it is missing or its size differs from the screen's |
| `Engine.ReplaceEvents` | Assets/Scripts/RayTracingMaster.cs:44-51 | on replacement, the old target's release is issued before the new target's creation, and the creation comes last |
| `Engine.ReplaceTarget` | Assets/Scripts/RayMarchingMaster.cs:52-58 | the old target (if any) is released; the new one is fresh, of the requested size, random-write enabled and created; the events are release then create |
| `Dispatch.ThreadGroups` | Assets/Scripts/RayTracingMaster.cs:59-60 | the group count covers the axis, `w <= 8*g`, with less than one group of overhang, `8*g < w + 8` |
| `Dispatch.PixelCovered` | Assets/Scripts/RayMarchingMaster.cs:65-67 | every pixel index below the screen size lies in a dispatched group |
| `Dispatch.ThreadGroupsLeast` | Assets/Scripts/RayMarchingMaster.cs:65-66 | no smaller group count covers the axis |
| `Dispatch.ThreadGroupsExamples` | Assets/Scripts/RayTracingMaster.cs:59-61 | 800x600 dispatches 100x75 groups, 801x601 dispatches 101x76 |
| `RayTracing.BounceAfterKeys` | Assets/Scripts/RayTracingMaster.cs:26-32 | `=` raises the depth by 1 and wins over `-`; `-` lowers it by 1 only when it is not 0; the depth changes exactly when one of these applies; a non-negative depth stays non-negative |
| `RayTracing.UpdateStep` | Assets/Scripts/RayTracingMaster.cs:24-40 | a flagged transform or a depth change sets the sample to 0; with neither, the sample is unchanged; the target is untouched |
| `RayTracing.InitStep` | Assets/Scripts/RayTracingMaster.cs:42-53 | afterwards the target has the screen's size; a fitting target leaves the state unchanged; reallocation sets the sample to 0 |
| `RayTracing.RenderStep` | Assets/Scripts/RayTracingMaster.cs:55-69 | the blend gets the sample as it is after InitRenderTexture (0 when the target was reallocated), the counter ends one higher, and the grid covers the screen with less than one group of overhang |
| `RayTracing.FrameStep` | Assets/Scripts/RayTracingMaster.cs:24-69 | within one frame (Update then render), a flagged transform, a depth key or a resize makes the blend get 0; otherwise it gets the carried-over sample; the counter ends one above the value handed to the blend |
| `RayTracing.Blends` | Assets/Scripts/RayTracingMaster.cs:66-68 | a run of frames hands exactly one sample value to the blend per frame |
| `RayTracing.BlendsAppend` | Assets/Scripts/RayTracingMaster.cs:66-68 | running two stretches of frames in turn equals running their concatenation, in blends and in final state |
| `RayTracing.QuietFramesCount` | Assets/Scripts/RayTracingMaster.cs:66-68 | over frames with no key, no change and no resize, the blend gets start, start+1, start+2, ...; start is the current sample if the target fits, else 0 |
| `RayTracing.ChangeRestartsCount` | Assets/Scripts/RayTracingMaster.cs:33-39 | a frame with a moved transform hands 0 to the blend, and the quiet frames after it hand 1, 2, 3, ... |
| `RayTracing.FreshTracerCounts` | Assets/Scripts/RayTracingMaster.cs:12 | a new tracer left alone for ten frames hands 0 through 9 to the blend |
| `RayTracing.BouncesStayNonNegative` | Assets/Scripts/RayTracingMaster.cs:14-32 | from a non-negative depth (such as the default 4), no sequence of frames makes the depth negative |
| `RayTracing.InitStepIdempotent` | Assets/Scripts/RayTracingMaster.cs:43 | a second InitRenderTexture at the same size changes nothing |
| `RayTracing.RayTracingMaster.constructor` | Assets/Scripts/RayTracingMaster.cs:12-22 | sample 0, depth 4, no target; the watch list is the camera's transform, then the light's |
| `RayTracing.RayTracingMaster.Update` | Assets/Scripts/RayTracingMaster.cs:24-40 | the depth the shader got first, then the new state is `UpdateStep` of the old one, with `flagged` meaning some watched flag was set on entry; afterwards every watched flag is false |
| `RayTracing.RayTracingMaster.ClearChangeFlags` | Assets/Scripts/RayTracingMaster.cs:33-39 | every watched flag ends false (a transform listed twice included); the sample is 0 exactly when some watched flag was set |
| `RayTracing.RayTracingMaster.InitRenderTexture` | Assets/Scripts/RayTracingMaster.cs:42-53 | the new state is `InitStep` of the old one; the target is random-write enabled; reallocation gives a fresh target and logs the release before the creation; otherwise the target and the log are unchanged; at most one texture stays created |
| `RayTracing.RayTracingMaster.Render` | Assets/Scripts/RayTracingMaster.cs:55-69 | the state, grid and blend value are `RenderStep` of the old state; the log gains any reallocation, then the dispatch, then the blend with the handed sample |
| `RayTracing.RayTracingMaster.OnRenderImage` | Assets/Scripts/RayTracingMaster.cs:71-74 | the bounce depth goes to the shader, then Render runs |
| `RayTracing.ChangeReportedOnce` | Assets/Scripts/RayTracingMaster.cs:33-39 | once every watched flag is clear, an Update with no key and no moved transform leaves the counter, depth and target unchanged |
| `RayMarching.SizeOf` | Assets/Scripts/RayMarchingMaster.cs:20-28 | every Shape field type has a positive size that is a multiple of 4 bytes |
| `RayMarching.StrideAppend` | Assets/Scripts/RayMarchingMaster.cs:19-29 | the size of a concatenated field list is the sum of the parts' sizes |
| `RayMarching.FieldsTileRecord` | Assets/Scripts/RayMarchingMaster.cs:19-29 | each field starts where the previous one ends, on a 4-byte boundary, within the stride, and the last one ends at the stride |
| `RayMarching.StrideAligned` | Assets/Scripts/RayMarchingMaster.cs:19-29 | a record of such fields has a stride that is a multiple of 4 |
| `RayMarching.ShapeStrideMatchesBuffer` | Assets/Scripts/RayMarchingMaster.cs:19-32 | the Shape fields (4 + 4*12 + 4 + 12 + 4 + 4 bytes) add up to exactly 76, the stride passed when the shape buffer is created |
| `RayMarching.RayMarchingMaster.constructor` | Assets/Scripts/RayMarchingMaster.cs:13-39 | no target and no shape buffer; the watch list is the camera's transform, then the light's |
| `RayMarching.RayMarchingMaster.SetUpScene` | Assets/Scripts/RayMarchingMaster.cs:31-33 | a fresh one-record buffer whose stride is the Shape layout's size |
| `RayMarching.RayMarchingMaster.Update` | Assets/Scripts/RayMarchingMaster.cs:41-48 | every watched flag ends false and the component itself is unchanged |
| `RayMarching.RayMarchingMaster.InitRenderTexture` | Assets/Scripts/RayMarchingMaster.cs:50-60 | afterwards the target has the screen's size and is random-write enabled; reallocation happens only for a missing or mis-sized target, gives a fresh texture, and logs the release before the creation |
| `RayMarching.RayMarchingMaster.Render` | Assets/Scripts/RayMarchingMaster.cs:62-69 | the target fits the screen, the grid covers it with less than one group of overhang, and the log gains any reallocation, then the dispatch, then the copy of the target |
| `RayMarching.RayMarchingMaster.OnRenderImage` | Assets/Scripts/RayMarchingMaster.cs:71-78 | with `useShader` off, only the source-to-destination copy is logged and the target is untouched; with it on, the target is sized (the same object when it already fits, a fresh one when replaced), dispatched over the ceiling grid and copied to the destination |

## Left out

- The `Result` binding (`SetTexture(0, "Result", target)`, Assets/Scripts/RayTracingMaster.cs:58, Assets/Scripts/RayMarchingMaster.cs:64) is not logged as a separate call. The model folds it into the `Dispatched` event, which names the bound texture; the order of the binding within the frame is not recorded.
- The remaining `RenderTexture` constructor arguments (depth buffer 0, `RenderTextureFormat.ARGBFloat`, `RenderTextureReadWrite.Linear`, Assets/Scripts/RayTracingMaster.cs:48, Assets/Scripts/RayMarchingMaster.cs:56) are not modelled. The model keeps only the size, `enableRandomWrite` and `created`; the high-precision linear format is not represented.
- Float shader uniforms are not modelled. These are the camera-to-world and inverse-projection matrices, the skybox texture, the light direction and intensity, and the `Random.value` pixel jitter. Only the bounce-depth upload is logged.
- The additive blend shader (`Hidden/AddShader`) and the lazy creation of `_addMaterial` are not modelled. The shader's source is not part of this model. The model records only the sample value handed to the blend.
- RayTracing.RenderStep: counts `_currentSample` as an unbounded `nat`. The source's `uint` would wrap after 2^32 frames. The float conversion when the value is passed as `_Sample` is also not modelled.
- RayTracing.BounceAfterKeys: models `maxBounceNumber` as an integer. The source's float starts at the integral default 4. A non-integral value from the inspector would never reach 0 and could go negative.
- Dispatch.ThreadGroups: computes the ceiling in integers. The source's `Mathf.CeilToInt(w / 8f)` agrees with it for every realistic screen size.
- The execution of the compute dispatch and of `Graphics.Blit` is left out. These are engine I/O; the model logs them as events.
- Unity's lifecycle ordering is left to the caller. The model calls the constructor, then `Update` and `OnRenderImage` per frame.
- `Movement.cs` (player input and movement) and `Tools/Specular Proof.cs` are not part of this model.
- Random scene generation, sphere placement and filling the shape buffer are left out. The code does none of this. `SetUpScene` only allocates a one-record buffer.
- Both constructors assume a directional light is assigned. When none is, the source's `Awake` throws at `directionalLight.transform` (Assets/Scripts/RayTracingMaster.cs:21, Assets/Scripts/RayMarchingMaster.cs:38) and leaves the watch list as just the camera's transform. The marcher then keeps working, since it never reads the light again; the tracer throws in `SetShaderParameters` (Assets/Scripts/RayTracingMaster.cs:82) on every frame and never renders. The model does not capture this error path.
