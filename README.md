# Camera rendering core of a custom render pipeline

This project models the per-camera core of a Unity custom scriptable render
pipeline. Four parts of it are modelled:

- **Camera renderer.** It decides, for one camera, whether to copy the colour
  and depth attachments, whether to render at a scaled size, and whether to use
  an intermediate buffer and post-processing. It culls, sizes the buffer, sets up
  lighting and post-FX, binds and clears the targets, and draws opaque geometry,
  the skybox, the attachment copies and transparent geometry. It then routes the
  image to the camera target, releases what it acquired, and submits.
- **Lighting packer.** It packs the visible lights into 4 directional slots and
  64 other-light (point and spot) slots, first come first served in visibility
  order. It makes one shadow reservation per packed light, fills the
  per-object light index map, and uploads the counts and slot arrays.
- **Post-FX stack.** It covers the bloom pyramid (prefilter, downsampling, and
  additive or scattering combination), the colour-grading LUT bake, FXAA, and the
  final blit, which may rescale.
- **Camera settings.** It composes the camera's render scale with the pipeline's.

Everything the renderer and the stack record goes into one shared command
stream (`Commands.CommandLog`). Beside the stream is a ledger of the temporary
render textures that are alive. A command the ledger does not allow cannot be
recorded:

- acquiring a texture that is already alive;
- releasing one that is not alive;
- binding, drawing into or copying a released texture.

Each stage is a method whose contract gives its new command stream as a pure
function of its inputs, and gives its new ledger as well. Lemmas about those
functions state what the source promises. Examples:

- every texture acquired for a camera is released again;
- the last target the post-FX stack binds is the camera target;
- the final pass draws exactly the expected shader passes;
- the pyramid depth is the first halving that no longer fits;
- the light index map is a bijection onto the used slots.

Engine answers that the renderer cannot compute itself are parameters of
`CameraRenderer.Render`:

- the camera's settings component, if there is one;
- the culling result, `None` when culling fails;
- whether the device copies textures directly;
- whether the editor's scene window is present.

Floats are modelled as reals. Rendering-layer masks are modelled as 32-bit
patterns.

Details of the code as written, which the model follows:

- Scaled rendering is decided on the composed scale before it is clamped
  (`Assets/CustomRP/Runtime/CameraRenderer.cs:69-70`). The clamp to [0.1, 2] is
  applied only to the buffer size (`:78`). The decision is the same either way,
  because clamping never moves a scale into the ±1% band.
- The bloom pyramid depth follows the loop at
  `Assets/CustomRP/Runtime/PostFXStack.cs:119-137`. The pyramid starts at half the
  prefilter size. A 1920×1080 camera at scale 0.5 with 6 iterations and a limit of
  8 builds 5 levels (`PostFX.HalfScaleScenario`), not 6.
- The final blit rescales only when the buffer width differs from the camera's
  pixel width (`Assets/CustomRP/Runtime/PostFXStack.cs:261`). Heights are not
  compared.
- On the rescaling path the FXAA draw always uses the `FXAA` pass
  (`Assets/CustomRP/Runtime/PostFXStack.cs:274`), even when the graded buffer was
  written with luma in alpha. The direct path chooses between `FXAA` and
  `FXAAWithLuma` (`:264`). The model records the passes as written
  (`PostFX.FinalPasses`).

## Model

| member | source | states |
|---|---|---|
| Settings.GetRenderScale | Assets/CustomRP/Runtime/CameraSettings.cs:33-37 | Inherit passes the pipeline scale through, Override replaces it by the camera's scale, Multiply multiplies the two; nothing clamps the result |
| Settings.DefaultInheritsScale | Assets/CustomRP/Runtime/CameraSettings.cs:17-31 | a camera with default settings renders at the pipeline's scale, and its final blend discards the destination |
| Settings.OverrideIgnoresArgument | Assets/CustomRP/Runtime/CameraSettings.cs:35 | under Override the pipeline scale has no influence on the result |
| Settings.NoClamping | Assets/CustomRP/Runtime/CameraSettings.cs:36 | Multiply can leave the [0.1, 2] inspector range: 2 × 2 gives 4 |
| Scaling.ClampScale | Assets/CustomRP/Runtime/CameraRenderer.cs:78 | the clamped scale lies in [0.1, 2], equals the input inside that range and the nearer bound outside it |
| Scaling.ProductIsMultiplication | Assets/CustomRP/Runtime/CameraRenderer.cs:79-80 | the scaled pixel count used for the buffer size is the pixel count times the scale |
| Scaling.Truncate | Assets/CustomRP/Runtime/CameraRenderer.cs:79-80 | the integer cast of a non-negative size is its floor: at most the value and within 1 of it |
| Scaling.ScaledBounds | Assets/CustomRP/Runtime/CameraRenderer.cs:77-80 | scaling up gives between n and 2n pixels; scaling down gives at most n and at least a tenth of n, rounded down |
| Scaling.ScaledAtLimits | Assets/CustomRP/Runtime/CameraRenderer.cs:77-80 | scales of 2 or more give exactly 2n, a scale of exactly 1 gives n, scales of 0.1 or less give n / 10 rounded down |
| Commands.PyramidId | Assets/CustomRP/Runtime/PostFXStack.cs:84-89 | the 32 pyramid texture names are consecutive after `_BloomPyramid0` and distinct from the camera renderer's textures |
| Commands.Balance | Assets/CustomRP/Runtime/CameraRenderer.cs:193-205 | in a stream the ledger accepts, each texture is acquired as often as it is released, up to whether it was alive at the start and at the end |
| Commands.SegmentBalance | Assets/CustomRP/Runtime/CameraRenderer.cs:193-205 | the same balance holds for any piece of an accepted stream, between the ledgers before and after it |
| Commands.BalancedWhenEmpty | Assets/CustomRP/Runtime/CameraRenderer.cs:193-205 | a stream that starts and ends with no live textures releases every texture exactly as often as it acquires it |
| LightingPacker.PackedIndices | Assets/CustomRP/Runtime/Lighting.cs:94-118 | the lights given slots of one kind are at most the capacity, are valid visible indices, and are in strictly increasing visibility order |
| LightingPacker.PackedCount | Assets/CustomRP/Runtime/Lighting.cs:94-118 | the published count of a kind is the number of candidate lights of that kind, cut at the capacity (4 or 64) |
| LightingPacker.Admission | Assets/CustomRP/Runtime/Lighting.cs:98-117 | light i gets a slot iff it passes the layer test, is of the slot's type, and fewer candidates than the capacity precede it (both directions) |
| LightingPacker.PackedStep | Assets/CustomRP/Runtime/Lighting.cs:98-117 | one more visible light either takes the next slot of its kind, with a reservation of that kind, or changes nothing |
| LightingPacker.PackedPrefix | Assets/CustomRP/Runtime/Lighting.cs:94-123 | the slots given out for a prefix of the visible lights are a prefix of those given out for all of them |
| LightingPacker.IndexMap | Assets/CustomRP/Runtime/Lighting.cs:120-128 | the index map has the culling-supplied length; each visible light's entry is its other-light slot or -1, and every later entry is -1 |
| LightingPacker.MapEntryIsSlot | Assets/CustomRP/Runtime/Lighting.cs:105-121 | a non-negative index-map entry names an other-light slot that holds exactly that light |
| LightingPacker.SlotIsMapped | Assets/CustomRP/Runtime/Lighting.cs:105-121 | each other-light slot is named by the index-map entry of the light it holds |
| LightingPacker.IndexMapBijective | Assets/CustomRP/Runtime/Lighting.cs:95-121 | index-map entries lie in [-1, otherLightCount); distinct lights never share a slot; directional lights always map to -1 |
| LightingPacker.ReservationsMatchSlots | Assets/CustomRP/Runtime/Lighting.cs:51-85 | a light has a directional (other) shadow reservation iff it has a directional (other) slot; there is one reservation per packed light |
| LightingPacker.DroppedLightLeavesNoTrace | Assets/CustomRP/Runtime/Lighting.cs:98-118 | a light outside the camera's layers, or of a rectangle or disc type, gets no slot, no reservation and index -1 |
| LightingPacker.FiveDirectionalLights | Assets/CustomRP/Runtime/Lighting.cs:100-104 | with five directional lights in view the first four take the slots and the fifth is dropped |
| LightingPacker.PointLightSlot | Assets/CustomRP/Runtime/Lighting.cs:59-69 | a point light's slot has spot angles (0, 1), no direction, and the light's layer mask |
| LightingPacker.AngleRangeInv | Assets/CustomRP/Runtime/Lighting.cs:80-83 | the reciprocal spot-cone range is positive and at most 1000, whatever the cosines |
| LightingPacker.Lighting.SetupDirectionalLight | Assets/CustomRP/Runtime/Lighting.cs:51-57 | only slot `index` changes: it gets the light's colour, negated forward axis, mask and a new directional reservation |
| LightingPacker.Lighting.SetupPointLight | Assets/CustomRP/Runtime/Lighting.cs:59-69 | only other-light slot `index` changes, to the point light's data; one other-shadow reservation is appended |
| LightingPacker.Lighting.SetupSpotLight | Assets/CustomRP/Runtime/Lighting.cs:71-85 | only other-light slot `index` changes, to the spot light's data with its cone angles; one other-shadow reservation is appended |
| LightingPacker.Lighting.SetupLight | Assets/CustomRP/Runtime/Lighting.cs:95-118 | a light is admitted into its kind's next slot exactly when it matches the layers and there is room; otherwise slots, counts and reservations are unchanged and its index is -1 |
| LightingPacker.Lighting.PackLight | Assets/CustomRP/Runtime/Lighting.cs:94-123 | one loop iteration keeps the invariant: the slots below each count hold the packed lights of the prefix, the rest are untouched, and the reservations are those of the prefix |
| LightingPacker.Lighting.PackAll | Assets/CustomRP/Runtime/Lighting.cs:94-123 | after the loop the slots hold exactly the packed lights in slot order, the reservations are those of the packing, and the index map is filled for every visible light |
| LightingPacker.Lighting.FillUnused | Assets/CustomRP/Runtime/Lighting.cs:125-128 | the entries after the visible lights become -1, completing the index map |
| LightingPacker.Lighting.PublishLights | Assets/CustomRP/Runtime/Lighting.cs:137-151 | both counts are always set; a kind's slot arrays are uploaded only when its count is positive |
| LightingPacker.Lighting.SetupLights | Assets/CustomRP/Runtime/Lighting.cs:89-155 | the slots, reservations, published counts and uploads match the packing of all visible lights; the keyword and the index map are set exactly when lights-per-object is on |
| LightingPacker.Lighting.Setup | Assets/CustomRP/Runtime/Lighting.cs:39-49 | one camera's lighting setup leaves every packed light in its slot of its kind, the packing's reservations, the keyword as asked, the index map of the packing under lights-per-object (the old map otherwise), and the uploads of both counts and arrays |
| PostFX.Ordinal | Assets/CustomRP/Runtime/PostFXStack.cs:7-25 | each shader pass is drawn with its declaration index, below 17 |
| PostFX.PassAt | Assets/CustomRP/Runtime/PostFXStack.cs:7-25 | every index below 17 names the pass declared there, the inverse of the ordinal |
| PostFX.OrdinalInjective | Assets/CustomRP/Runtime/PostFXStack.cs:7-25 | distinct passes are drawn with distinct indices |
| PostFX.GradingPass | Assets/CustomRP/Runtime/PostFXStack.cs:246 | the LUT pass found by offsetting from ColorGradingNone is the one for the tone-mapping mode, in both directions |
| PostFX.LogCFlag | Assets/CustomRP/Runtime/PostFXStack.cs:247 | the LUT is baked in log C (flag 1) iff HDR is on and some tone mapping is applied; otherwise the flag is 0 |
| PostFX.FinalLoad | Assets/CustomRP/Runtime/PostFXStack.cs:324-333 | the final blit discards the camera target's contents iff the blend ignores the destination and the whole viewport is drawn |
| PostFX.DefaultBlendDiscards | Assets/CustomRP/Runtime/CameraSettings.cs:28-31 | the default one-zero blend over the full viewport discards; any partial viewport loads |
| PostFX.DepthIsFirstMisfit | Assets/CustomRP/Runtime/PostFXStack.cs:119-137 | the pyramid depth is at most the iteration budget, every level below it fits the downscale limit, and the next either exceeds the budget or does not fit |
| PostFX.AtLeastOneLevel | Assets/CustomRP/Runtime/PostFXStack.cs:103-125 | when the bloom guard passes, the first pyramid level always fits |
| PostFX.HalfScaleScenario | Assets/CustomRP/Runtime/PostFXStack.cs:119-137 | a 480×270 bloom start with 6 iterations and limit 8 builds 5 levels |
| PostFX.FinalIntensity | Assets/CustomRP/Runtime/PostFXStack.cs:141-152 | additive bloom ends at the configured intensity; scattering ends at the smaller of it and 0.95 |
| PostFX.BloomLedger | Assets/CustomRP/Runtime/PostFXStack.cs:117-171 | after the prefilter, the pyramid and its collapse, only `_BloomResult` is left alive |
| PostFX.FXAACommands | Assets/CustomRP/Runtime/PostFXStack.cs:218-230 | both quality keywords are set; Low enables only the low keyword, Medium only the medium one, High neither; the FXAA parameters follow |
| PostFX.GradingAcquisitions | Assets/CustomRP/Runtime/PostFXStack.cs:239-253 | baking the LUT acquires only the LUT texture and releases nothing |
| PostFX.GradingReleases | Assets/CustomRP/Runtime/PostFXStack.cs:239-253 | the parameter uploads and the LUT bake release no texture |
| PostFX.GradingTargets | Assets/CustomRP/Runtime/PostFXStack.cs:239-253 | the LUT bake binds only the LUT texture |
| PostFX.GradingPasses | Assets/CustomRP/Runtime/PostFXStack.cs:246-250 | the LUT bake draws only the tone-mapping pass |
| PostFX.AntialiasAcquisitions | Assets/CustomRP/Runtime/PostFXStack.cs:254-259 | the graded intermediate buffer is acquired iff FXAA is on |
| PostFX.AntialiasReleases | Assets/CustomRP/Runtime/PostFXStack.cs:254-259 | the FXAA preparation releases nothing |
| PostFX.AntialiasTargets | Assets/CustomRP/Runtime/PostFXStack.cs:254-259 | with FXAA the graded buffer is bound; without it nothing is |
| PostFX.AntialiasPasses | Assets/CustomRP/Runtime/PostFXStack.cs:254-259 | with FXAA, grading stores luma in alpha unless alpha is kept |
| PostFX.OutputAcquisitions | Assets/CustomRP/Runtime/PostFXStack.cs:261-286 | the output acquires `_FinalResult` iff it rescales |
| PostFX.OutputReleases | Assets/CustomRP/Runtime/PostFXStack.cs:261-286 | the output releases the FXAA buffer iff FXAA is on, then `_FinalResult` iff it rescales |
| PostFX.OutputTargets | Assets/CustomRP/Runtime/PostFXStack.cs:261-286 | the output binds the camera target last, after `_FinalResult` when rescaling |
| PostFX.RescaledOutputTargets | Assets/CustomRP/Runtime/PostFXStack.cs:269-286 | a rescaling output binds `_FinalResult` and then the camera target |
| PostFX.DirectOutputTargets | Assets/CustomRP/Runtime/PostFXStack.cs:261-268 | a direct output binds only the camera target |
| PostFX.OutputPasses | Assets/CustomRP/Runtime/PostFXStack.cs:261-286 | the passes of the direct and rescaling outputs, including the FXAA pass used on the rescaling path |
| PostFX.FinalAcquisitions | Assets/CustomRP/Runtime/PostFXStack.cs:232-289 | the final pass acquires the LUT, then the FXAA buffer iff FXAA, then `_FinalResult` iff rescaling |
| PostFX.FinalReleases | Assets/CustomRP/Runtime/PostFXStack.cs:232-289 | it releases exactly those textures, the LUT last |
| PostFX.FinalTargets | Assets/CustomRP/Runtime/PostFXStack.cs:232-289 | it binds the LUT, the FXAA buffer iff FXAA, `_FinalResult` iff rescaling, and the camera target exactly once, last |
| PostFX.FinalPasses | Assets/CustomRP/Runtime/PostFXStack.cs:232-289 | the exact sequence of shader passes the final pass draws, for every combination of FXAA, keep-alpha and rescaling |
| PostFX.FinalEndsAtCamera | Assets/CustomRP/Runtime/PostFXStack.cs:232-289 | the final pass ends by drawing into the camera target |
| PostFX.RenderEndsAtCamera | Assets/CustomRP/Runtime/PostFXStack.cs:307-316 | whether or not bloom runs, the last target the stack binds is the camera target |
| PostFX.KeepsPostFXCameras | Assets/CustomRP/Runtime/PostFXStack.cs:303 | the camera-type test keeps post-FX for game and scene-view cameras only |
| PostFX.PostFXStack.Setup | Assets/CustomRP/Runtime/PostFXStack.cs:291-305 | the stack stores the frame's parameters; it is active iff settings were given and the camera is a game or scene-view camera |
| PostFX.PostFXStack.Draw | Assets/CustomRP/Runtime/PostFXStack.cs:318-322 | one full-screen draw from a live source into a live target, discarding the target's contents; the ledger is unchanged |
| PostFX.PostFXStack.DrawFinal | Assets/CustomRP/Runtime/PostFXStack.cs:324-333 | the final blend mode, then a draw into the camera target with the load action of `FinalLoad` over the camera's viewport |
| PostFX.PostFXStack.Prefilter | Assets/CustomRP/Runtime/PostFXStack.cs:108-118 | the threshold is set, `_BloomPrefilter` is acquired at the start size and drawn from the source |
| PostFX.PostFXStack.RecordLevel | Assets/CustomRP/Runtime/PostFXStack.cs:128-132 | one pyramid level: two fresh textures, a horizontal blur into the first and a vertical blur into the second |
| PostFX.PostFXStack.BlurLevel | Assets/CustomRP/Runtime/PostFXStack.cs:124-137 | one iteration of the downsampling loop keeps its invariant: i levels built, the ids and sizes advanced |
| PostFX.PostFXStack.BuildPyramid | Assets/CustomRP/Runtime/PostFXStack.cs:119-137 | the loop builds `PyramidDepth` levels, leaves all their textures alive, and ends with `fromId` on the top level's second texture |
| PostFX.PostFXStack.StartCombining | Assets/CustomRP/Runtime/PostFXStack.cs:138-152 | the prefilter is released, bicubic upsampling is set, and the combine and final passes and intensities follow the bloom mode |
| PostFX.PostFXStack.CombineLevel | Assets/CustomRP/Runtime/PostFXStack.cs:157-162 | one upsampling step combines the running result into the level below and releases both inputs |
| PostFX.PostFXStack.CombineNext | Assets/CustomRP/Runtime/PostFXStack.cs:156-163 | one iteration of the upsampling loop keeps its invariant |
| PostFX.PostFXStack.CombinePyramid | Assets/CustomRP/Runtime/PostFXStack.cs:155-163 | combining from the top down leaves only level 0's first texture of the pyramid alive |
| PostFX.PostFXStack.ReleaseAndCombine | Assets/CustomRP/Runtime/PostFXStack.cs:153-163 | with several levels, the top level's unread texture is released and the pyramid is combined down to `_BloomPyramid0` |
| PostFX.PostFXStack.CollapsePyramid | Assets/CustomRP/Runtime/PostFXStack.cs:153-166 | the whole pyramid is released except one texture: `_BloomPyramid0`, or `_BloomPyramid1` when there is a single level |
| PostFX.PostFXStack.FinishBloom | Assets/CustomRP/Runtime/PostFXStack.cs:167-171 | `_BloomResult` is acquired at buffer size and drawn from the top with the source as second input; the top is released |
| PostFX.PostFXStack.DoBloom | Assets/CustomRP/Runtime/PostFXStack.cs:90-174 | returns the guard's verdict; when bloom is skipped nothing is recorded, otherwise the whole bloom run is recorded and only `_BloomResult` stays alive |
| PostFX.PostFXStack.ConfigureColorAdjustments | Assets/CustomRP/Runtime/PostFXStack.cs:176-185 | uploads the colour-adjustment and colour-filter parameters |
| PostFX.PostFXStack.ConfigureWhiteBalance | Assets/CustomRP/Runtime/PostFXStack.cs:187-191 | uploads the white-balance coefficients |
| PostFX.PostFXStack.ConfigureSplitToning | Assets/CustomRP/Runtime/PostFXStack.cs:193-199 | uploads the shadow and highlight tints |
| PostFX.PostFXStack.ConfigureChannelMixer | Assets/CustomRP/Runtime/PostFXStack.cs:201-206 | uploads the three mixer rows |
| PostFX.PostFXStack.ConfigureShadowsMidtonesHighlights | Assets/CustomRP/Runtime/PostFXStack.cs:208-216 | uploads the three tints and the ranges |
| PostFX.PostFXStack.ConfigureFXAA | Assets/CustomRP/Runtime/PostFXStack.cs:218-230 | sets the quality keywords for the configured quality, then the FXAA parameters |
| PostFX.PostFXStack.BakeColorGradingLUT | Assets/CustomRP/Runtime/PostFXStack.cs:239-253 | the LUT is acquired at resolution² × resolution and drawn with the tone-mapping pass; the final blend is reset to one-zero |
| PostFX.PostFXStack.Antialias | Assets/CustomRP/Runtime/PostFXStack.cs:254-259 | with FXAA, the graded buffer is acquired and drawn into; without it nothing is recorded |
| PostFX.PostFXStack.Output | Assets/CustomRP/Runtime/PostFXStack.cs:261-286 | draws straight to the camera target, or through `_FinalResult` with the bicubic flag, and releases the FXAA buffer and `_FinalResult` |
| PostFX.PostFXStack.DoFinal | Assets/CustomRP/Runtime/PostFXStack.cs:232-289 | records the grading, antialiasing and output steps in order and leaves the ledger as it found it |
| PostFX.PostFXStack.Render | Assets/CustomRP/Runtime/PostFXStack.cs:307-316 | runs bloom and then the final pass on `_BloomResult`, which is released, or the final pass on the source alone; the ledger is left as it was |
| CameraRendering.PlanFields | Assets/CustomRP/Runtime/CameraRenderer.cs:56-70 | the per-camera decisions: settings or defaults, the post-FX override, reflection-specific copy flags, the composed scale, and the ±1% scaling band |
| CameraRendering.PlanProperties | Assets/CustomRP/Runtime/CameraRenderer.cs:56-98 | copies and post-FX force an intermediate buffer; without one the buffer has the camera's pixel size; post-FX runs only for game and scene-view cameras; the scene window never scales; cameras without settings inherit scale, light mask and no FXAA |
| CameraRendering.BufferSizeBounds | Assets/CustomRP/Runtime/CameraRenderer.cs:76-84 | a scaled buffer is between the pixel size and twice it when scaling up, and between a tenth of it and the pixel size when scaling down |
| CameraRendering.BufferSizeLimits | Assets/CustomRP/Runtime/CameraRenderer.cs:76-84 | an unscaled buffer has the pixel size; scales of 2 or more double it; scales of 0.1 or less keep a tenth |
| CameraRendering.ClearTable | Assets/CustomRP/Runtime/CameraRenderer.cs:150-171 | the depth, colour and background-colour clears for each clear flag, with Depth and Nothing forced to Color when there is an intermediate buffer |
| CameraRendering.PlainGameCamera | Assets/CustomRP/Runtime/CameraRenderer.cs:50-113 | a 1920×1080 game camera with default settings records cull, lighting, clear, opaque, skybox, transparent and submit, and no temporary textures |
| CameraRendering.HalfScaleGameCamera | Assets/CustomRP/Runtime/CameraRenderer.cs:50-113 | at scale 0.5 the same camera renders into 960×540 attachments and blits them to the camera target |
| CameraRendering.SetupAcquisitions | Assets/CustomRP/Runtime/CameraRenderer.cs:148-176 | setup acquires the colour and depth attachments and binds the colour attachment iff there is an intermediate buffer |
| CameraRendering.CopyOneFacts | Assets/CustomRP/Runtime/CameraRenderer.cs:213-231 | one attachment copy acquires its copy texture and uses the camera material's draw only when textures cannot be copied directly |
| CameraRendering.CopyAcquisitions | Assets/CustomRP/Runtime/CameraRenderer.cs:212-237 | the copies acquire the colour copy iff requested, then the depth copy iff requested |
| CameraRendering.CopyReleases | Assets/CustomRP/Runtime/CameraRenderer.cs:212-237 | making the copies releases nothing |
| CameraRendering.CopyDraws | Assets/CustomRP/Runtime/CameraRenderer.cs:212-237 | without direct texture copy, colour is drawn with pass 0 and depth with pass 1; with it nothing is drawn |
| CameraRendering.GeometryAcquisitions | Assets/CustomRP/Runtime/CameraRenderer.cs:115-143 | geometry drawing acquires exactly the requested copy textures |
| CameraRendering.GeometryReleases | Assets/CustomRP/Runtime/CameraRenderer.cs:115-143 | geometry drawing releases nothing |
| CameraRendering.CopyPasses | Assets/CustomRP/Runtime/CameraRenderer.cs:115-143 | the camera-material passes drawn during geometry are those of the copies |
| CameraRendering.CleanupReleases | Assets/CustomRP/Runtime/CameraRenderer.cs:193-205 | cleanup releases the attachments and the copies made, and only with an intermediate buffer |
| CameraRendering.CameraReleasesWhatItAcquires | Assets/CustomRP/Runtime/CameraRenderer.cs:148-205 | the textures released by cleanup are exactly those acquired by setup and the copies, in the same order |
| CameraRendering.FinalBlitTargets | Assets/CustomRP/Runtime/CameraRenderer.cs:245-256 | the renderer's final blit binds only the camera target, draws pass 0, and acquires and releases nothing |
| CameraRendering.RoutingEndsAtCamera | Assets/CustomRP/Runtime/CameraRenderer.cs:104-109 | with an intermediate buffer, the image always ends up drawn into the camera target, by the post-FX stack or by the final blit |
| CameraRendering.CameraRenderer.Cull | Assets/CustomRP/Runtime/CameraRenderer.cs:184-191 | culling succeeds iff the camera yields culling parameters, with shadow distance min(max distance, far plane); a failure records nothing and keeps the previous culling results |
| CameraRendering.CameraRenderer.Setup | Assets/CustomRP/Runtime/CameraRenderer.cs:148-176 | the intermediate buffer is used iff scaling, copying or post-FX; the attachments are then acquired and bound, and the clear follows the effective flags |
| CameraRendering.CameraRenderer.AcquireAttachments | Assets/CustomRP/Runtime/CameraRenderer.cs:158-163 | both attachments are acquired at buffer size and bound without loading |
| CameraRendering.CameraRenderer.ClearTargets | Assets/CustomRP/Runtime/CameraRenderer.cs:168-174 | the clear, then the missing texture bound as both copies |
| CameraRendering.CameraRenderer.Draw | Assets/CustomRP/Runtime/CameraRenderer.cs:239-243 | one camera-material blit between live textures, pass 1 for depth and 0 for colour |
| CameraRendering.CameraRenderer.CopyAttachment | Assets/CustomRP/Runtime/CameraRenderer.cs:213-231 | one copy texture is acquired and filled by a texture copy or a blit |
| CameraRendering.CameraRenderer.CopyAttachments | Assets/CustomRP/Runtime/CameraRenderer.cs:212-237 | the requested copies are made; after blits the attachments are bound again with their contents loaded |
| CameraRendering.CameraRenderer.DrawVisibleGeometry | Assets/CustomRP/Runtime/CameraRenderer.cs:115-143 | opaque, skybox, the copies if any, transparent, with the camera's layer mask and the lights-per-object flag |
| CameraRendering.CameraRenderer.DrawFinal | Assets/CustomRP/Runtime/CameraRenderer.cs:245-256 | the colour attachment is blitted to the camera target with the final blend mode, which is reset to one-zero afterwards |
| CameraRendering.CameraRenderer.Cleanup | Assets/CustomRP/Runtime/CameraRenderer.cs:193-205 | with an intermediate buffer the attachments and the copies made are released; otherwise nothing is |
| CameraRendering.CameraRenderer.Submit | Assets/CustomRP/Runtime/CameraRenderer.cs:178-182 | the frame ends with a submit |
| CameraRendering.CameraRenderer.Decide | Assets/CustomRP/Runtime/CameraRenderer.cs:56-72 | the copy flags, post-FX settings and scaling decision the renderer records agree with the per-camera plan |
| CameraRendering.CameraRenderer.SizeBuffer | Assets/CustomRP/Runtime/CameraRenderer.cs:76-91 | HDR needs both the pipeline and the camera; the buffer is the clamped, truncated scaled size or the pixel size |
| CameraRendering.CameraRenderer.PrepareLighting | Assets/CustomRP/Runtime/CameraRenderer.cs:94 | lights are filtered by the camera's mask only when it asks for it, and the lighting state afterwards is the packing of the culled lights: slots, reservations, keyword, index map and uploads |
| CameraRendering.CameraRenderer.SetupPostFX | Assets/CustomRP/Runtime/CameraRenderer.cs:95-98 | the post-FX stack receives the plan's settings, size and HDR flag, with FXAA only when the camera allows it |
| CameraRendering.CameraRenderer.SizeAndLight | Assets/CustomRP/Runtime/CameraRenderer.cs:76-94 | sizing and lighting record the buffer size and lighting setup, and leave the lighting state that the packing of the culled lights gives |
| CameraRendering.CameraRenderer.Prepare | Assets/CustomRP/Runtime/CameraRenderer.cs:76-98 | after sizing, lighting and post-FX setup, the renderer's state and the stack agree with the plan, and the lighting state is the packing of the culled lights |
| CameraRendering.CameraRenderer.Route | Assets/CustomRP/Runtime/CameraRenderer.cs:104-109 | active post-FX renders from the colour attachment; otherwise an intermediate buffer gets the final blit; otherwise nothing |
| CameraRendering.CameraRenderer.RenderStages | Assets/CustomRP/Runtime/CameraRenderer.cs:100-112 | setup, geometry, routing, cleanup and submit are recorded in order, and the ledger returns to where it started |
| CameraRendering.CameraRenderer.RenderCulled | Assets/CustomRP/Runtime/CameraRenderer.cs:76-112 | after a successful cull the whole frame is recorded, the lighting state is the packing of the culled lights, and every texture acquired is released |
| CameraRendering.CameraRenderer.CullAndRender | Assets/CustomRP/Runtime/CameraRenderer.cs:73-112 | a failed cull records nothing and leaves lighting, the post-FX stack, the culling results, HDR, the buffer size and the intermediate-buffer flag untouched; a successful one records the whole frame and leaves the packing's lighting state |
| CameraRendering.CameraRenderer.Render | Assets/CustomRP/Runtime/CameraRenderer.cs:50-113 | one camera's frame: the stream is the plan's frame commands and the lighting state (slots, reservations, keyword, index map, uploads) is the packing of the culled lights; when culling fails nothing is recorded and lighting, the post-FX stack and the frame state are untouched; no temporary texture outlives the frame |

## Left out

- The engine and the GPU are outside the model. Culling, `DrawRenderers`, `DrawSkybox`, command-buffer execution and submission become abstract commands in one stream. The model keeps only their order and the texture ledger. The per-subsystem buffers are flushed before control passes back, so one stream keeps the same order.
- The `Shadows` class is not part of this model. A shadow reservation stands for the shadow-data vector it returns. Shadow setup, rendering and cleanup (`Lighting.Cleanup`) are not modelled.
- Float arithmetic is modelled with reals, without rounding. This covers the render scale and the buffer-size product, where truncation is explicit. The cosines of the spot angles are a foreign computation and are given as inputs.
- The numeric content of the parameter uploads is opaque. This covers the bloom threshold vector, the colour-adjustment, white-balance, split-toning, channel-mixer and shadows-midtones-highlights blocks, the LUT parameters and the FXAA configuration. Light colours, positions and reinterpreted masks are carried as data, not computed.
- Texture formats, filter modes, sample and profiler markers, the buffer name, `PrepareBuffer`, gizmos and the unsupported-shader pass are cosmetic or editor-only and are left out.
- Dynamic batching and GPU instancing only tune the drawing settings, so they are left out. The per-object data flags are reduced to the lights-per-object flag.
- `CameraRenderer.Editor.cs` is left out except for one effect. At line 58 it switches scaling off for scene-view cameras, which is the `sceneWindow` parameter of `Render`. The post-FX stack's editor part (`ApplySceneViewState`) is not part of this model.
- The pipeline's loop over cameras (`CustomRenderPipeline.cs`) is left out. Each camera leaves the ledger as it found it, so a sequence of cameras does too.
- The `_BloomPyramid` names are consecutive integer ids. The constructor registers the 32 names in order so that they are consecutive (`PostFXStack.cs:84-89`). The model gives them consecutive values instead of modelling the engine's name table.
- PostFX.PostFXStack.DoBloom: requires `0 <= maxIterations <= 16` as an assumption: the post-FX settings type, which would bound the field, is not part of this model. A negative count would make the source release a pyramid texture it never acquired, and the model does not describe that.
- CameraRendering.CameraRenderer.Render: requires that a lights-per-object index map be long enough for the visible lights, which the engine guarantees. It also requires that no temporary texture of this camera is alive before the frame.
- The pipeline-wide settings, shadow settings and post-FX settings are plain data and are mirrored as datatypes. Their inspector ranges are not enforced, except the bloom iteration bound above.
