/**
 * The per-camera renderer: a linear sequence of stages (cull, size the
 * buffer, set up lighting and post-FX, bind and clear the targets, draw the
 * geometry with optional attachment copies, route the image to the display,
 * release everything, submit) recorded into the shared command log. A camera
 * whose culling fails records nothing.
 *
 * Engine answers the renderer cannot compute itself are parameters of
 * `Render`: the camera's own settings component, the culling result, whether
 * the device copies textures directly, and whether the editor's scene window
 * is present.
 */
module CameraRendering {
  import opened Commands
  import opened Settings
  import opened Scaling
  import PostFX
  import LightingPacker

  // ---------------------------------------------------------------------------
  // Per-frame decisions
  // ---------------------------------------------------------------------------

  /** A camera without a settings component uses a fresh default settings object. */
  function CameraSettingsOf(component: Option<CameraSettings>): CameraSettings {
    if component.Some? then component.value else DefaultCameraSettings
  }

  /** Reflection cameras follow the pipeline's reflection flags; others need the pipeline and the camera to agree. */
  predicate CopiesColor(t: CameraType, buffers: CameraBufferSettings, s: CameraSettings) {
    if t == Reflection then buffers.copyColorReflection else buffers.copyColor && s.copyColor
  }

  predicate CopiesDepth(t: CameraType, buffers: CameraBufferSettings, s: CameraSettings) {
    if t == Reflection then buffers.copyDepthReflection else buffers.copyDepth && s.copyDepth
  }

  /** The camera's own post-FX settings replace the pipeline's when it overrides them. */
  function PostFXSettingsFor(s: CameraSettings, pipeline: Option<PostFXSettings>): Option<PostFXSettings> {
    if s.overridePostFX then s.postFXSettings else pipeline
  }

  /** Scaling is switched on by a scale more than one percent away from 1, before any clamping. */
  predicate ScaledRendering(scale: real) {
    scale < 0.99 || scale > 1.01
  }

  /** The camera's pixel size scaled by the clamped scale, or exactly the pixel size when not scaling. */
  function BufferSize(camera: Camera, scale: real, scaled: bool): PostFX.Size {
    if scaled then
      PostFX.Size(Scaled(camera.pixelWidth, scale), Scaled(camera.pixelHeight, scale))
    else
      PostFX.Size(camera.pixelWidth, camera.pixelHeight)
  }

  /** With an intermediate buffer the clear flags Depth and Nothing are forced to Color. */
  function EffectiveClearFlags(flags: ClearFlags, intermediate: bool): ClearFlags {
    if intermediate && ClearFlagsValue(flags) > ClearFlagsValue(Color) then Color else flags
  }

  /** Depth is cleared up to Depth, colour up to Color, and to the background colour only for Color. */
  function ClearCommand(flags: ClearFlags): Command {
    ClearRenderTarget(ClearFlagsValue(flags) <= ClearFlagsValue(Depth),
                      ClearFlagsValue(flags) <= ClearFlagsValue(Color),
                      flags == Color)
  }

  /** `Mathf.Min(maxShadowDistance, farClipPlane)`. */
  function ShadowDistance(maxShadowDistance: real, farClipPlane: real): real {
    if maxShadowDistance <= farClipPlane then maxShadowDistance else farClipPlane
  }

  /** Lights are filtered by the camera's layer mask only when it asks for it; otherwise by all layers. */
  function LightsMask(s: CameraSettings): bv32 {
    if s.maskLights then s.renderingLayerMask else AllLayers
  }

  /** The FXAA settings handed to the post-FX stack: the pipeline's, enabled only if the camera allows FXAA. */
  function AllowedFXAA(buffers: CameraBufferSettings, s: CameraSettings): FXAASettings {
    buffers.fxaa.(enabled := buffers.fxaa.enabled && s.allowFXAA)
  }

  /** Everything `Render` decides before it records the camera's stages. */
  datatype Plan = Plan(
    settings: CameraSettings,
    useColorTexture: bool,
    useDepthTexture: bool,
    postFX: Option<PostFXSettings>,
    renderScale: real,
    useScaledRendering: bool,
    useHDR: bool,
    bufferSize: PostFX.Size,
    fxaa: FXAASettings,
    postFXActive: bool,
    useIntermediateBuffer: bool)

  /**
   * The decisions for one camera. In the editor (`sceneWindow`) a scene-view
   * camera never renders scaled.
   */
  function PlanFrame(camera: Camera, component: Option<CameraSettings>, buffers: CameraBufferSettings,
                     pipelinePostFX: Option<PostFXSettings>, sceneWindow: bool): Plan
  {
    var s := CameraSettingsOf(component);
    var scale := GetRenderScale(s, buffers.renderScale);
    var scaled := ScaledRendering(scale) && !(sceneWindow && camera.cameraType == SceneView);
    var postFX := PostFXSettingsFor(s, pipelinePostFX);
    var color := CopiesColor(camera.cameraType, buffers, s);
    var depth := CopiesDepth(camera.cameraType, buffers, s);
    var active := postFX.Some? && PostFX.KeepsPostFX(camera.cameraType);
    Plan(s, color, depth, postFX, scale, scaled, buffers.allowHDR && camera.allowHDR,
         BufferSize(camera, scale, scaled), AllowedFXAA(buffers, s), active, scaled || color || depth || active)
  }

  /** What the post-FX stack's final pass reads once `Render` has set it up. */
  function PostFXConfig(camera: Camera, p: Plan, buffers: CameraBufferSettings, lutResolution: int): PostFX.FinalConfig
    requires p.postFX.Some?
  {
    PostFX.FinalConfig(p.postFX.value.toneMapping, p.useHDR, p.settings.keepAlpha, p.fxaa.enabled, p.fxaa.quality,
                       lutResolution, p.bufferSize, camera.pixelWidth, buffers.bicubicRescaling,
                       p.settings.finalBlendMode, camera.fullRect)
  }

  /** The bloom iteration bound the post-FX stack relies on, when post-FX is on. */
  predicate BloomBounded(postFX: Option<PostFXSettings>) {
    postFX.Some? ==> 0 <= postFX.value.bloom.maxIterations <= MaxBloomPyramidLevels
  }

  // ---------------------------------------------------------------------------
  // The recorded stages
  // ---------------------------------------------------------------------------

  /** A full-screen copy with the camera material: pass 1 copies depth, pass 0 colour. */
  function BlitCommands(from: Target, to: Target, isDepth: bool): seq<Command> {
    [SetGlobalTexture(SourceTexture, from), SetRenderTarget(to, DontCare),
     DrawProcedural(CameraMaterial, if isDepth then 1 else 0)]
  }

  /**
   * The final blit of the colour attachment to the camera target with the
   * camera's blend mode, which is reset to one-zero afterwards. The load
   * action follows the same rule as the post-FX stack's final blit.
   */
  function FinalBlitCommands(blend: FinalBlendMode, fullRect: bool): seq<Command> {
    [SetGlobalFloat(CameraSrcBlend, blend.source as real), SetGlobalFloat(CameraDstBlend, blend.destination as real),
     SetGlobalTexture(SourceTexture, Temp(ColorAttachmentId)),
     SetRenderTarget(CameraTarget, PostFX.FinalLoad(blend, fullRect)), SetViewport,
     DrawProcedural(CameraMaterial, 0),
     SetGlobalFloat(CameraSrcBlend, 1.0), SetGlobalFloat(CameraDstBlend, 0.0)]
  }

  /**
   * Camera properties, the attachments when an intermediate buffer is used,
   * the clear, and the missing texture bound in place of the copies.
   */
  function SetupCommands(intermediate: bool, size: PostFX.Size, flags: ClearFlags): seq<Command> {
    [SetupCameraProperties]
    + (if intermediate then AttachmentCommands(size) else [])
    + ClearCommands(EffectiveClearFlags(flags, intermediate))
  }

  /** The clear, then the missing texture bound as both copies until they are made. */
  function ClearCommands(flags: ClearFlags): seq<Command> {
    [ClearCommand(flags), SetGlobalTexture(CameraColorTexture, MissingTexture), SetGlobalTexture(CameraDepthTexture, MissingTexture)]
  }

  /** The two attachments at buffer size, bound as colour and depth targets. */
  function AttachmentCommands(size: PostFX.Size): seq<Command> {
    [Acquire(ColorAttachmentId, size.width, size.height), Acquire(DepthAttachmentId, size.width, size.height),
     SetRenderTargets(Temp(ColorAttachmentId), Temp(DepthAttachmentId), DontCare)]
  }

  /** One attachment copy: the copy texture, filled by a texture copy or by a blit. */
  function CopyOne(attachment: int, copy: int, size: PostFX.Size, isDepth: bool, copySupported: bool): seq<Command> {
    [Acquire(copy, size.width, size.height)]
    + (if copySupported then [CopyTexture(Temp(attachment), Temp(copy))]
       else BlitCommands(Temp(attachment), Temp(copy), isDepth))
  }

  /** The requested copies; after blits the attachments are bound again with their contents loaded. */
  function CopyCommands(color: bool, depth: bool, size: PostFX.Size, copySupported: bool): seq<Command> {
    (if color then CopyOne(ColorAttachmentId, ColorTextureId, size, false, copySupported) else [])
    + (if depth then CopyOne(DepthAttachmentId, DepthTextureId, size, true, copySupported) else [])
    + (if !copySupported then [SetRenderTargets(Temp(ColorAttachmentId), Temp(DepthAttachmentId), Load)] else [])
  }

  /** Opaque geometry, the skybox, the copies if any, then transparent geometry. */
  function GeometryCommands(mask: bv32, lightsPerObject: bool, color: bool, depth: bool, size: PostFX.Size,
                            copySupported: bool): seq<Command> {
    [DrawRenderers(Opaque, mask, lightsPerObject), DrawSkybox]
    + (if color || depth then CopyCommands(color, depth, size, copySupported) else [])
    + [DrawRenderers(Transparent, mask, lightsPerObject)]
  }

  /** The attachments, and the copies, released only when an intermediate buffer was used. */
  function CleanupCommands(intermediate: bool, color: bool, depth: bool): seq<Command> {
    if intermediate then
      [Release(ColorAttachmentId), Release(DepthAttachmentId)]
      + (if color then [Release(ColorTextureId)] else []) + (if depth then [Release(DepthTextureId)] else [])
    else []
  }

  /** The image goes through the post-FX stack, or one final blit, or was drawn to the camera target already. */
  function RoutingCommands(camera: Camera, p: Plan, buffers: CameraBufferSettings, lutResolution: int): seq<Command>
    requires p.postFXActive ==> p.postFX.Some? && BloomBounded(p.postFX)
  {
    if p.postFXActive then
      PostFX.RenderCommands(PostFXConfig(camera, p, buffers, lutResolution), p.postFX.value.bloom,
                            PostFX.BloomStart(p.postFX.value.bloom, camera, p.bufferSize), Temp(ColorAttachmentId))
    else if p.useIntermediateBuffer then
      FinalBlitCommands(p.settings.finalBlendMode, camera.fullRect)
    else []
  }

  /** From binding the targets to the submit. */
  function StageCommands(camera: Camera, p: Plan, buffers: CameraBufferSettings, lightsPerObject: bool,
                         lutResolution: int, copySupported: bool): seq<Command>
    requires p.postFXActive ==> p.postFX.Some? && BloomBounded(p.postFX)
  {
    SetupCommands(p.useIntermediateBuffer, p.bufferSize, camera.clearFlags)
    + GeometryCommands(p.settings.renderingLayerMask, lightsPerObject, p.useColorTexture, p.useDepthTexture,
                       p.bufferSize, copySupported)
    + RoutingCommands(camera, p, buffers, lutResolution)
    + CleanupCommands(p.useIntermediateBuffer, p.useColorTexture, p.useDepthTexture)
    + [Submit]
  }

  /** Everything one camera whose culling succeeds records, in order. */
  function FrameCommands(camera: Camera, p: Plan, buffers: CameraBufferSettings, shadows: ShadowSettings,
                         lightsPerObject: bool, lutResolution: int, copySupported: bool): seq<Command>
    requires p.postFXActive ==> p.postFX.Some? && BloomBounded(p.postFX)
  {
    [Cull(ShadowDistance(shadows.maxDistance, camera.farClipPlane)), SetGlobalVector(CameraBufferSize),
     SetupLighting(LightsMask(p.settings), lightsPerObject)]
    + StageCommands(camera, p, buffers, lightsPerObject, lutResolution, copySupported)
  }

  /** None of the ids the camera renderer and the post-FX stack acquire is alive. */
  predicate FrameIdsFree(live: set<int>) {
    live !! CameraIds && PostFX.BloomIdsFree(live) && PostFX.FinalIdsFree(live)
  }

  /** The ledger through one camera's frame, from `live` back to `live`. */
  lemma FrameLedger(live: set<int>, intermediate: bool, color: bool, depth: bool)
    requires FrameIdsFree(live) && ((color || depth) ==> intermediate)
    ensures var l1 := if intermediate then live + {ColorAttachmentId} + {DepthAttachmentId} else live;
            var l2 := l1 + (if color then {ColorTextureId} else {}) + (if depth then {DepthTextureId} else {});
            && ColorAttachmentId !in live && DepthAttachmentId !in live
            && (color ==> ColorTextureId !in l1) && (depth ==> DepthTextureId !in l1)
            && (intermediate ==> ColorAttachmentId in l2 && DepthAttachmentId in l2)
            && (intermediate ==> ColorAttachmentId in l1 && DepthAttachmentId in l1)
            && (intermediate && color ==> ColorTextureId in l2)
            && (intermediate && depth ==> DepthTextureId in l2)
            && PostFX.BloomIdsFree(l2) && PostFX.FinalIdsFree(l2)
  {
    var l1 := if intermediate then live + {ColorAttachmentId} + {DepthAttachmentId} else live;
    var l2 := l1 + (if color then {ColorTextureId} else {}) + (if depth then {DepthTextureId} else {});
    assert l2 - live <= CameraIds;
    assert l2 !! PyramidRange(0, 2 * MaxBloomPyramidLevels);
  }
  /** Cleanup releases exactly what setup and the copies acquired, so the ledger ends where it began. */
  lemma FrameLedgerCloses(live: set<int>, l1: set<int>, l2: set<int>, l3: set<int>, intermediate: bool, color: bool,
                          depth: bool)
    requires FrameIdsFree(live) && ((color || depth) ==> intermediate)
    requires l1 == if intermediate then live + {ColorAttachmentId} + {DepthAttachmentId} else live
    requires l2 == l1 + (if color then {ColorTextureId} else {}) + (if depth then {DepthTextureId} else {})
    requires l3 == if intermediate then
                     l2 - {ColorAttachmentId} - {DepthAttachmentId} - (if color then {ColorTextureId} else {})
                     - (if depth then {DepthTextureId} else {})
                   else l2
    ensures l3 == live
  {
    assert forall id :: id in l3 <==> id in live;
  }


  /** `Setup`'s commands one at a time. */
  lemma SetupShape(origin: seq<Command>, intermediate: bool, size: PostFX.Size, flags: ClearFlags)
    ensures origin + SetupCommands(intermediate, size, flags)
         == origin + [SetupCameraProperties] + (if intermediate then AttachmentCommands(size) else [])
            + ClearCommands(EffectiveClearFlags(flags, intermediate))
  {
  }

  /** The final blit one command at a time. */
  lemma FinalBlitShape(origin: seq<Command>, blend: FinalBlendMode, fullRect: bool)
    ensures origin + FinalBlitCommands(blend, fullRect)
         == origin + [SetGlobalFloat(CameraSrcBlend, blend.source as real)]
            + [SetGlobalFloat(CameraDstBlend, blend.destination as real)]
            + [SetGlobalTexture(SourceTexture, Temp(ColorAttachmentId))]
            + [SetRenderTarget(CameraTarget, PostFX.FinalLoad(blend, fullRect))] + [SetViewport]
            + [DrawProcedural(CameraMaterial, 0)]
            + [SetGlobalFloat(CameraSrcBlend, 1.0)] + [SetGlobalFloat(CameraDstBlend, 0.0)]
  {
  }

  /** The cleanup one release at a time, and the ledger it leaves. */
  lemma CleanupShape(origin: seq<Command>, live: set<int>, color: bool, depth: bool)
    ensures origin + CleanupCommands(true, color, depth)
         == origin + [Release(ColorAttachmentId)] + [Release(DepthAttachmentId)]
            + (if color then [Release(ColorTextureId)] else []) + (if depth then [Release(DepthTextureId)] else [])
    ensures ColorTextureId in live ==> ColorTextureId in live - {ColorAttachmentId} - {DepthAttachmentId}
    ensures DepthTextureId in live
        ==> DepthTextureId in live - {ColorAttachmentId} - {DepthAttachmentId} - (if color then {ColorTextureId} else {})
  {
  }

  /** The geometry stage split at the copies. */
  lemma GeometryShape(origin: seq<Command>, mask: bv32, lightsPerObject: bool, color: bool, depth: bool,
                      size: PostFX.Size, copySupported: bool)
    ensures origin + GeometryCommands(mask, lightsPerObject, color, depth, size, copySupported)
         == origin + [DrawRenderers(Opaque, mask, lightsPerObject)] + [DrawSkybox]
            + (if color || depth then CopyCommands(color, depth, size, copySupported) else [])
            + [DrawRenderers(Transparent, mask, lightsPerObject)]
  {
  }

  /** The copy stage split at its steps. */
  lemma CopyShape(origin: seq<Command>, color: bool, depth: bool, size: PostFX.Size, copySupported: bool)
    ensures origin + CopyCommands(color, depth, size, copySupported)
         == origin + (if color then CopyOne(ColorAttachmentId, ColorTextureId, size, false, copySupported) else [])
            + (if depth then CopyOne(DepthAttachmentId, DepthTextureId, size, true, copySupported) else [])
            + (if !copySupported then [SetRenderTargets(Temp(ColorAttachmentId), Temp(DepthAttachmentId), Load)]
               else [])
  {
  }

  /** The stages of a frame in the order `Render` records them. */
  lemma FrameShape(origin: seq<Command>, camera: Camera, p: Plan, buffers: CameraBufferSettings,
                   shadows: ShadowSettings, lightsPerObject: bool, lutResolution: int, copySupported: bool)
    requires p.postFXActive ==> p.postFX.Some? && BloomBounded(p.postFX)
    ensures origin + FrameCommands(camera, p, buffers, shadows, lightsPerObject, lutResolution, copySupported)
         == origin + [Cull(ShadowDistance(shadows.maxDistance, camera.farClipPlane))]
            + [SetGlobalVector(CameraBufferSize)] + [SetupLighting(LightsMask(p.settings), lightsPerObject)]
            + StageCommands(camera, p, buffers, lightsPerObject, lutResolution, copySupported)
  {
  }

  /** The stages one at a time. */
  lemma StageShape(origin: seq<Command>, camera: Camera, p: Plan, buffers: CameraBufferSettings,
                   lightsPerObject: bool, lutResolution: int, copySupported: bool)
    requires p.postFXActive ==> p.postFX.Some? && BloomBounded(p.postFX)
    ensures origin + StageCommands(camera, p, buffers, lightsPerObject, lutResolution, copySupported)
         == origin + SetupCommands(p.useIntermediateBuffer, p.bufferSize, camera.clearFlags)
            + GeometryCommands(p.settings.renderingLayerMask, lightsPerObject, p.useColorTexture, p.useDepthTexture,
                               p.bufferSize, copySupported)
            + RoutingCommands(camera, p, buffers, lutResolution)
            + CleanupCommands(p.useIntermediateBuffer, p.useColorTexture, p.useDepthTexture)
            + [Submit]
  {
    Regroup5(origin, SetupCommands(p.useIntermediateBuffer, p.bufferSize, camera.clearFlags),
             GeometryCommands(p.settings.renderingLayerMask, lightsPerObject, p.useColorTexture, p.useDepthTexture,
                              p.bufferSize, copySupported),
             RoutingCommands(camera, p, buffers, lutResolution),
             CleanupCommands(p.useIntermediateBuffer, p.useColorTexture, p.useDepthTexture), [Submit]);
  }

  /** The routing decisions: post-FX needs settings, and the intermediate buffer follows from its causes. */
  predicate Routed(p: Plan) {
    && (p.postFXActive ==> p.postFX.Some?)
    && p.useIntermediateBuffer == (p.useScaledRendering || p.useColorTexture || p.useDepthTexture || p.postFXActive)
  }

  /**
   * The decisions that follow from the primary ones: HDR, the buffer size,
   * the FXAA settings, whether post-FX runs and whether an intermediate
   * buffer is needed.
   */
  predicate Coherent(camera: Camera, buffers: CameraBufferSettings, p: Plan) {
    && p.useHDR == (buffers.allowHDR && camera.allowHDR)
    && p.bufferSize == BufferSize(camera, p.renderScale, p.useScaledRendering)
    && p.fxaa == AllowedFXAA(buffers, p.settings)
    && p.postFXActive == (p.postFX.Some? && PostFX.KeepsPostFX(camera.cameraType))
    && p.useIntermediateBuffer == (p.useScaledRendering || p.useColorTexture || p.useDepthTexture || p.postFXActive)
  }

  /** The plan's fields, each in terms of the decision it records. */
  lemma PlanFields(camera: Camera, component: Option<CameraSettings>, buffers: CameraBufferSettings,
                   pipelinePostFX: Option<PostFXSettings>, sceneWindow: bool, p: Plan)
    requires p == PlanFrame(camera, component, buffers, pipelinePostFX, sceneWindow)
    ensures p.settings == CameraSettingsOf(component)
    ensures p.postFX == PostFXSettingsFor(p.settings, pipelinePostFX)
    ensures p.useColorTexture == CopiesColor(camera.cameraType, buffers, p.settings)
    ensures p.useDepthTexture == CopiesDepth(camera.cameraType, buffers, p.settings)
    ensures p.renderScale == GetRenderScale(p.settings, buffers.renderScale)
    ensures p.useScaledRendering == (ScaledRendering(p.renderScale) && !(sceneWindow && camera.cameraType == SceneView))
    ensures Coherent(camera, buffers, p)
  {
  }

  // ---------------------------------------------------------------------------
  // Properties of the plan
  // ---------------------------------------------------------------------------

  /**
   * Scaling up never shrinks the buffer and at most doubles it; scaling down
   * never grows it and keeps at least a tenth of each dimension.
   */
  lemma BufferSizeBounds(camera: Camera, scale: real)
    ensures var size := BufferSize(camera, scale, true);
            && (scale >= 1.0 ==>
                  && camera.pixelWidth <= size.width <= 2 * camera.pixelWidth
                  && camera.pixelHeight <= size.height <= 2 * camera.pixelHeight)
            && (scale <= 1.0 ==>
                  && size.width <= camera.pixelWidth <= 10 * size.width + 9
                  && size.height <= camera.pixelHeight <= 10 * size.height + 9)
  {
    ScaledBounds(camera.pixelWidth, scale);
    ScaledBounds(camera.pixelHeight, scale);
  }

  /**
   * Without scaling the buffer is exactly the camera's pixel size, whatever
   * the scale; with scaling, a scale beyond the clamp range is clamped, so a
   * scale of 2 or more doubles both dimensions and one of 0.1 or less keeps
   * a tenth of each.
   */
  lemma BufferSizeLimits(camera: Camera, scale: real, scaled: bool)
    ensures !scaled ==> BufferSize(camera, scale, scaled) == PostFX.Size(camera.pixelWidth, camera.pixelHeight)
    ensures scaled && scale >= 2.0 ==>
              BufferSize(camera, scale, scaled) == PostFX.Size(2 * camera.pixelWidth, 2 * camera.pixelHeight)
    ensures scaled && scale <= 0.1 ==>
              var size := BufferSize(camera, scale, scaled);
              && 10 * size.width <= camera.pixelWidth < 10 * size.width + 10
              && 10 * size.height <= camera.pixelHeight < 10 * size.height + 10
  {
    ScaledAtLimits(camera.pixelWidth, scale);
    ScaledAtLimits(camera.pixelHeight, scale);
  }

  /**
   * The clear for each clear-flags value. With an intermediate buffer depth
   * and colour are always cleared, to the background colour unless the
   * camera draws a skybox; without one the camera's own flags apply.
   */
  lemma ClearTable(flags: ClearFlags)
    ensures ClearCommand(EffectiveClearFlags(flags, true)) == ClearRenderTarget(true, true, flags != Skybox)
    ensures ClearCommand(EffectiveClearFlags(flags, false))
         == ClearRenderTarget(flags != Nothing, flags == Skybox || flags == Color, flags == Color)
  {
  }

  /** What every plan guarantees, whatever the camera and its settings. */
  lemma PlanProperties(camera: Camera, component: Option<CameraSettings>, buffers: CameraBufferSettings,
                       pipelinePostFX: Option<PostFXSettings>, sceneWindow: bool)
    ensures var p := PlanFrame(camera, component, buffers, pipelinePostFX, sceneWindow);
            && (p.useColorTexture || p.useDepthTexture || p.postFXActive ==> p.useIntermediateBuffer)
            && (!p.useIntermediateBuffer ==> p.bufferSize == PostFX.Size(camera.pixelWidth, camera.pixelHeight))
            && (p.postFXActive ==> camera.cameraType == Game || camera.cameraType == SceneView)
            && ((sceneWindow && camera.cameraType == SceneView) ==>
                  !p.useScaledRendering && p.bufferSize == PostFX.Size(camera.pixelWidth, camera.pixelHeight))
            && (camera.cameraType == Reflection ==>
                  p.useColorTexture == buffers.copyColorReflection && p.useDepthTexture == buffers.copyDepthReflection)
            && (component.None? ==>
                  p.renderScale == buffers.renderScale && LightsMask(p.settings) == AllLayers && !p.fxaa.enabled)
  {
    PostFX.KeepsPostFXCameras(camera.cameraType);
    DefaultInheritsScale(buffers.renderScale);
  }

  /** A 1920x1080 game camera with default settings and nothing to copy, scale or post-process. */
  lemma PlainGameCamera()
    ensures var camera := Camera(Game, 1920, 1080, true, true, Skybox, 1000.0);
            var buffers := CameraBufferSettings(true, false, false, false, false, Off, 1.0, FXAASettings(false, Low));
            var p := PlanFrame(camera, None, buffers, None, false);
            && !p.useIntermediateBuffer && p.bufferSize == PostFX.Size(1920, 1080)
            && FrameCommands(camera, p, buffers, DefaultShadowSettings, false, 32, true)
               == [Cull(100.0), SetGlobalVector(CameraBufferSize), SetupLighting(AllLayers, false),
                   SetupCameraProperties, ClearRenderTarget(true, true, false),
                   SetGlobalTexture(CameraColorTexture, MissingTexture),
                   SetGlobalTexture(CameraDepthTexture, MissingTexture),
                   DrawRenderers(Opaque, AllLayers, false), DrawSkybox, DrawRenderers(Transparent, AllLayers, false),
                   Submit]
  {
  }

  /** The same camera at half scale renders into 960x540 attachments and blits them to the screen. */
  lemma HalfScaleGameCamera()
    ensures var camera := Camera(Game, 1920, 1080, true, true, Skybox, 1000.0);
            var buffers := CameraBufferSettings(true, false, false, false, false, Off, 0.5, FXAASettings(false, Low));
            var p := PlanFrame(camera, None, buffers, None, false);
            && p.useIntermediateBuffer && p.bufferSize == PostFX.Size(960, 540)
            && SetupCommands(p.useIntermediateBuffer, p.bufferSize, camera.clearFlags)
               == [SetupCameraProperties, Acquire(ColorAttachmentId, 960, 540), Acquire(DepthAttachmentId, 960, 540),
                   SetRenderTargets(Temp(ColorAttachmentId), Temp(DepthAttachmentId), DontCare),
                   ClearRenderTarget(true, true, false), SetGlobalTexture(CameraColorTexture, MissingTexture),
                   SetGlobalTexture(CameraDepthTexture, MissingTexture)]
            && RoutingCommands(camera, p, buffers, 32) == FinalBlitCommands(FinalBlendMode(BlendOne, BlendZero), true)
  {
    ProductIsMultiplication(1920, 0.5);
    ProductIsMultiplication(1080, 0.5);
  }

  // ---------------------------------------------------------------------------
  // Properties of the recorded stages
  // ---------------------------------------------------------------------------

  lemma SetupCollect<T>(intermediate: bool, size: PostFX.Size, flags: ClearFlags, f: Command -> seq<T>)
    ensures Collect(SetupCommands(intermediate, size, flags), f)
         == f(SetupCameraProperties)
            + (if intermediate then
                 f(Acquire(ColorAttachmentId, size.width, size.height))
                 + f(Acquire(DepthAttachmentId, size.width, size.height))
                 + f(SetRenderTargets(Temp(ColorAttachmentId), Temp(DepthAttachmentId), DontCare))
               else [])
            + (f(ClearCommand(EffectiveClearFlags(flags, intermediate)))
               + f(SetGlobalTexture(CameraColorTexture, MissingTexture))
               + f(SetGlobalTexture(CameraDepthTexture, MissingTexture)))
  {
    var head := [SetupCameraProperties];
    var mid := if intermediate then
                 [Acquire(ColorAttachmentId, size.width, size.height), Acquire(DepthAttachmentId, size.width, size.height),
                  SetRenderTargets(Temp(ColorAttachmentId), Temp(DepthAttachmentId), DontCare)]
               else [];
    var tail := [ClearCommand(EffectiveClearFlags(flags, intermediate)),
                 SetGlobalTexture(CameraColorTexture, MissingTexture),
                 SetGlobalTexture(CameraDepthTexture, MissingTexture)];
    assert SetupCommands(intermediate, size, flags) == head + mid + tail;
    CollectConcat(head + mid, tail, f);
    CollectConcat(head, mid, f);
    CollectSingle(SetupCameraProperties, f);
    if intermediate {
      Collect3(mid[0], mid[1], mid[2], f);
    }
    Collect3(tail[0], tail[1], tail[2], f);
  }

  lemma CopyOneCollect<T>(attachment: int, copy: int, size: PostFX.Size, isDepth: bool, copySupported: bool,
                          f: Command -> seq<T>)
    ensures Collect(CopyOne(attachment, copy, size, isDepth, copySupported), f)
         == f(Acquire(copy, size.width, size.height))
            + (if copySupported then f(CopyTexture(Temp(attachment), Temp(copy)))
               else f(SetGlobalTexture(SourceTexture, Temp(attachment))) + f(SetRenderTarget(Temp(copy), DontCare))
                    + f(DrawProcedural(CameraMaterial, if isDepth then 1 else 0)))
  {
    var head := [Acquire(copy, size.width, size.height)];
    var rest := if copySupported then [CopyTexture(Temp(attachment), Temp(copy))]
                else BlitCommands(Temp(attachment), Temp(copy), isDepth);
    CollectConcat(head, rest, f);
    CollectSingle(head[0], f);
    if copySupported {
      CollectSingle(rest[0], f);
    } else {
      Collect3(rest[0], rest[1], rest[2], f);
    }
  }

  lemma CopyCollect<T>(color: bool, depth: bool, size: PostFX.Size, copySupported: bool, f: Command -> seq<T>)
    ensures Collect(CopyCommands(color, depth, size, copySupported), f)
         == (if color then Collect(CopyOne(ColorAttachmentId, ColorTextureId, size, false, copySupported), f) else [])
            + (if depth then Collect(CopyOne(DepthAttachmentId, DepthTextureId, size, true, copySupported), f)
               else [])
            + (if !copySupported then f(SetRenderTargets(Temp(ColorAttachmentId), Temp(DepthAttachmentId), Load))
               else [])
  {
    var a := if color then CopyOne(ColorAttachmentId, ColorTextureId, size, false, copySupported) else [];
    var b := if depth then CopyOne(DepthAttachmentId, DepthTextureId, size, true, copySupported) else [];
    var c := if !copySupported then [SetRenderTargets(Temp(ColorAttachmentId), Temp(DepthAttachmentId), Load)] else [];
    CollectConcat(a + b, c, f);
    CollectConcat(a, b, f);
    if !copySupported {
      CollectSingle(c[0], f);
    }
  }

  lemma GeometryCollect<T>(mask: bv32, lightsPerObject: bool, color: bool, depth: bool, size: PostFX.Size,
                           copySupported: bool, f: Command -> seq<T>)
    ensures Collect(GeometryCommands(mask, lightsPerObject, color, depth, size, copySupported), f)
         == f(DrawRenderers(Opaque, mask, lightsPerObject)) + f(DrawSkybox)
            + (if color || depth then Collect(CopyCommands(color, depth, size, copySupported), f) else [])
            + f(DrawRenderers(Transparent, mask, lightsPerObject))
  {
    var head := [DrawRenderers(Opaque, mask, lightsPerObject), DrawSkybox];
    var mid := if color || depth then CopyCommands(color, depth, size, copySupported) else [];
    var tail := [DrawRenderers(Transparent, mask, lightsPerObject)];
    CollectConcat(head + mid, tail, f);
    CollectConcat(head, mid, f);
    Collect2(head[0], head[1], f);
    CollectSingle(tail[0], f);
  }

  lemma CleanupCollect<T>(color: bool, depth: bool, f: Command -> seq<T>)
    ensures Collect(CleanupCommands(true, color, depth), f)
         == f(Release(ColorAttachmentId)) + f(Release(DepthAttachmentId))
            + (if color then f(Release(ColorTextureId)) else []) + (if depth then f(Release(DepthTextureId)) else [])
  {
    var a := [Release(ColorAttachmentId), Release(DepthAttachmentId)];
    var b := if color then [Release(ColorTextureId)] else [];
    var c := if depth then [Release(DepthTextureId)] else [];
    CollectConcat(a + b, c, f);
    CollectConcat(a, b, f);
    Collect2(a[0], a[1], f);
    if color {
      CollectSingle(b[0], f);
    }
    if depth {
      CollectSingle(c[0], f);
    }
  }

  /** Only an intermediate buffer acquires anything in `Setup`: the colour and the depth attachment. */
  lemma SetupAcquisitions(intermediate: bool, size: PostFX.Size, flags: ClearFlags)
    ensures Collect(SetupCommands(intermediate, size, flags), AcquiredId)
         == if intermediate then [ColorAttachmentId, DepthAttachmentId] else []
    ensures Collect(SetupCommands(intermediate, size, flags), ReleasedId) == []
    ensures Collect(SetupCommands(intermediate, size, flags), BoundTarget)
         == if intermediate then [Temp(ColorAttachmentId)] else []
  {
    SetupCollect(intermediate, size, flags, AcquiredId);
    SetupCollect(intermediate, size, flags, ReleasedId);
    SetupCollect(intermediate, size, flags, BoundTarget);
  }

  /** One copy acquires its texture and, when blitted, draws pass 1 for depth and pass 0 for colour. */
  lemma CopyOneFacts(attachment: int, copy: int, size: PostFX.Size, isDepth: bool, copySupported: bool)
    ensures Collect(CopyOne(attachment, copy, size, isDepth, copySupported), AcquiredId) == [copy]
    ensures Collect(CopyOne(attachment, copy, size, isDepth, copySupported), ReleasedId) == []
    ensures Collect(CopyOne(attachment, copy, size, isDepth, copySupported), DrawnPass(CameraMaterial))
         == if copySupported then [] else [if isDepth then 1 else 0]
  {
    CopyOneCollect(attachment, copy, size, isDepth, copySupported, AcquiredId);
    CopyOneCollect(attachment, copy, size, isDepth, copySupported, ReleasedId);
    CopyOneCollect(attachment, copy, size, isDepth, copySupported, DrawnPass(CameraMaterial));
  }

  /** The copies acquire their textures, colour before depth. */
  lemma CopyAcquisitions(color: bool, depth: bool, size: PostFX.Size, copySupported: bool)
    ensures Collect(CopyCommands(color, depth, size, copySupported), AcquiredId)
         == (if color then [ColorTextureId] else []) + (if depth then [DepthTextureId] else [])
  {
    CopyOneFacts(ColorAttachmentId, ColorTextureId, size, false, copySupported);
    CopyOneFacts(DepthAttachmentId, DepthTextureId, size, true, copySupported);
    CopyCollect(color, depth, size, copySupported, AcquiredId);
  }

  /** The copies release nothing. */
  lemma CopyReleases(color: bool, depth: bool, size: PostFX.Size, copySupported: bool)
    ensures Collect(CopyCommands(color, depth, size, copySupported), ReleasedId) == []
  {
    CopyOneFacts(ColorAttachmentId, ColorTextureId, size, false, copySupported);
    CopyOneFacts(DepthAttachmentId, DepthTextureId, size, true, copySupported);
    CopyCollect(color, depth, size, copySupported, ReleasedId);
  }

  /** Blitted copies draw pass 0 for colour and pass 1 for depth. */
  lemma CopyDraws(color: bool, depth: bool, size: PostFX.Size, copySupported: bool)
    ensures Collect(CopyCommands(color, depth, size, copySupported), DrawnPass(CameraMaterial))
         == if copySupported then [] else (if color then [0] else []) + (if depth then [1] else [])
  {
    CopyOneFacts(ColorAttachmentId, ColorTextureId, size, false, copySupported);
    CopyOneFacts(DepthAttachmentId, DepthTextureId, size, true, copySupported);
    CopyCollect(color, depth, size, copySupported, DrawnPass(CameraMaterial));
  }

  /** The geometry stage acquires the copy textures requested, colour before depth. */
  lemma GeometryAcquisitions(mask: bv32, lightsPerObject: bool, color: bool, depth: bool, size: PostFX.Size,
                             copySupported: bool)
    ensures Collect(GeometryCommands(mask, lightsPerObject, color, depth, size, copySupported), AcquiredId)
         == (if color then [ColorTextureId] else []) + (if depth then [DepthTextureId] else [])
  {
    CopyAcquisitions(color, depth, size, copySupported);
    GeometryCollect(mask, lightsPerObject, color, depth, size, copySupported, AcquiredId);
  }

  /** The geometry stage releases nothing. */
  lemma GeometryReleases(mask: bv32, lightsPerObject: bool, color: bool, depth: bool, size: PostFX.Size,
                         copySupported: bool)
    ensures Collect(GeometryCommands(mask, lightsPerObject, color, depth, size, copySupported), ReleasedId) == []
  {
    CopyReleases(color, depth, size, copySupported);
    GeometryCollect(mask, lightsPerObject, color, depth, size, copySupported, ReleasedId);
  }

  /** Without direct copy support colour is copied with the camera material's pass 0 and depth with pass 1. */
  lemma CopyPasses(mask: bv32, lightsPerObject: bool, color: bool, depth: bool, size: PostFX.Size,
                   copySupported: bool)
    ensures Collect(GeometryCommands(mask, lightsPerObject, color, depth, size, copySupported),
                    DrawnPass(CameraMaterial))
         == if copySupported then [] else (if color then [0] else []) + (if depth then [1] else [])
  {
    CopyDraws(color, depth, size, copySupported);
    GeometryCollect(mask, lightsPerObject, color, depth, size, copySupported, DrawnPass(CameraMaterial));
  }

  /** With an intermediate buffer the cleanup releases the attachments, then the copies; otherwise nothing. */
  lemma CleanupReleases(intermediate: bool, color: bool, depth: bool)
    ensures Collect(CleanupCommands(intermediate, color, depth), ReleasedId)
         == if intermediate then
              [ColorAttachmentId, DepthAttachmentId]
              + (if color then [ColorTextureId] else []) + (if depth then [DepthTextureId] else [])
            else []
    ensures Collect(CleanupCommands(intermediate, color, depth), AcquiredId) == []
  {
    if intermediate {
      CleanupCollect(color, depth, ReleasedId);
      CleanupCollect(color, depth, AcquiredId);
    }
  }

  /**
   * The camera releases exactly the textures it acquired, in the order it
   * acquired them: the copies only exist with an intermediate buffer.
   */
  lemma CameraReleasesWhatItAcquires(intermediate: bool, size: PostFX.Size, flags: ClearFlags, mask: bv32,
                                     lightsPerObject: bool, color: bool, depth: bool, copySupported: bool)
    requires color || depth ==> intermediate
    ensures Collect(SetupCommands(intermediate, size, flags)
                    + GeometryCommands(mask, lightsPerObject, color, depth, size, copySupported), AcquiredId)
         == Collect(CleanupCommands(intermediate, color, depth), ReleasedId)
  {
    CollectConcat(SetupCommands(intermediate, size, flags),
                  GeometryCommands(mask, lightsPerObject, color, depth, size, copySupported), AcquiredId);
    SetupAcquisitions(intermediate, size, flags);
    GeometryAcquisitions(mask, lightsPerObject, color, depth, size, copySupported);
    CleanupReleases(intermediate, color, depth);
  }

  /** The final blit binds the camera target once, draws pass 0 once and acquires nothing. */
  lemma FinalBlitTargets(blend: FinalBlendMode, fullRect: bool)
    ensures Collect(FinalBlitCommands(blend, fullRect), BoundTarget) == [CameraTarget]
    ensures Collect(FinalBlitCommands(blend, fullRect), DrawnPass(CameraMaterial)) == [0]
    ensures Collect(FinalBlitCommands(blend, fullRect), AcquiredId) == []
    ensures Collect(FinalBlitCommands(blend, fullRect), ReleasedId) == []
  {
    var cs := FinalBlitCommands(blend, fullRect);
    var a := cs[..3];
    var b := cs[3..6];
    var c := cs[6..];
    assert cs == a + b + c;
    FinalBlitCollect(a, b, c, BoundTarget);
    FinalBlitCollect(a, b, c, DrawnPass(CameraMaterial));
    FinalBlitCollect(a, b, c, AcquiredId);
    FinalBlitCollect(a, b, c, ReleasedId);
  }

  lemma FinalBlitCollect<T>(a: seq<Command>, b: seq<Command>, c: seq<Command>, f: Command -> seq<T>)
    requires |a| == 3 && |b| == 3 && |c| == 2
    ensures Collect(a + b + c, f) == f(a[0]) + f(a[1]) + f(a[2]) + (f(b[0]) + f(b[1]) + f(b[2])) + (f(c[0]) + f(c[1]))
  {
    CollectConcat(a + b, c, f);
    CollectConcat(a, b, f);
    assert a == [a[0], a[1], a[2]];
    assert b == [b[0], b[1], b[2]];
    assert c == [c[0], c[1]];
    Collect3(a[0], a[1], a[2], f);
    Collect3(b[0], b[1], b[2], f);
    Collect2(c[0], c[1], f);
  }

  /** Whenever an intermediate buffer is used, the last target the frame's routing binds is the camera target. */
  lemma RoutingEndsAtCamera(camera: Camera, p: Plan, buffers: CameraBufferSettings, lutResolution: int)
    requires p.postFXActive ==> p.postFX.Some? && BloomBounded(p.postFX)
    requires p.useIntermediateBuffer
    ensures var targets := Collect(RoutingCommands(camera, p, buffers, lutResolution), BoundTarget);
            |targets| > 0 && targets[|targets| - 1] == CameraTarget
    ensures !p.postFXActive ==> Collect(RoutingCommands(camera, p, buffers, lutResolution), BoundTarget) == [CameraTarget]
  {
    if p.postFXActive {
      var bloom := p.postFX.value.bloom;
      PostFX.RenderEndsAtCamera(PostFXConfig(camera, p, buffers, lutResolution), bloom,
                                PostFX.BloomStart(bloom, camera, p.bufferSize), Temp(ColorAttachmentId));
    } else {
      FinalBlitTargets(p.settings.finalBlendMode, camera.fullRect);
    }
  }

  // ---------------------------------------------------------------------------
  // The renderer
  // ---------------------------------------------------------------------------

  class CameraRenderer {
    const lighting: LightingPacker.Lighting
    const postFXStack: PostFX.PostFXStack
    var camera: Camera
    var cullingResults: LightingPacker.CullingResults
    var useHDR: bool
    var useScaledRendering: bool
    var useColorTexture: bool
    var useDepthTexture: bool
    var useIntermediateBuffer: bool
    var bufferSize: PostFX.Size

    ghost predicate Valid()
      reads lighting
    {
      lighting.Valid()
    }

    constructor ()
      ensures Valid() && fresh(lighting) && fresh(postFXStack)
      ensures !useIntermediateBuffer && !useColorTexture && !useDepthTexture
    {
      lighting := new LightingPacker.Lighting();
      postFXStack := new PostFX.PostFXStack();
      camera := Camera(Game, 0, 0, true, false, Skybox, 0.0);
      cullingResults := LightingPacker.CullingResults([], 0);
      useHDR, useScaledRendering := false, false;
      useColorTexture, useDepthTexture, useIntermediateBuffer := false, false, false;
      bufferSize := PostFX.Size(0, 0);
    }

    /** Culls with the shadow distance limited by the far plane; records nothing when the camera cannot be culled. */
    method Cull(log: CommandLog, maxShadowDistance: real, culling: Option<LightingPacker.CullingResults>)
      returns (ok: bool)
      requires log.Valid()
      modifies log, this`cullingResults
      ensures log.Valid() && log.live == old(log.live)
      ensures ok == culling.Some?
      ensures ok ==> cullingResults == culling.value
      ensures ok ==> log.commands == old(log.commands) + [Command.Cull(ShadowDistance(maxShadowDistance, camera.farClipPlane))]
      ensures !ok ==> log.commands == old(log.commands) && cullingResults == old(cullingResults)
    {
      if culling.Some? {
        log.Append(Command.Cull(if maxShadowDistance <= camera.farClipPlane then maxShadowDistance else camera.farClipPlane));
        cullingResults := culling.value;
        return true;
      }
      return false;
    }

    /**
     * Decides on the intermediate buffer and, with it, acquires and binds the
     * attachments; clears according to the (possibly forced) clear flags and
     * binds the missing texture in place of the copies.
     */
    method Setup(log: CommandLog)
      requires log.Valid() && ColorAttachmentId !in log.live && DepthAttachmentId !in log.live
      modifies log, this`useIntermediateBuffer
      ensures log.Valid()
      ensures useIntermediateBuffer == (useScaledRendering || useColorTexture || useDepthTexture || postFXStack.IsActive())
      ensures log.live == if useIntermediateBuffer then old(log.live) + {ColorAttachmentId} + {DepthAttachmentId}
                          else old(log.live)
      ensures log.commands == old(log.commands) + SetupCommands(useIntermediateBuffer, bufferSize, camera.clearFlags)
    {
      log.Append(SetupCameraProperties);
      var flags := camera.clearFlags;
      useIntermediateBuffer := useScaledRendering || useColorTexture || useDepthTexture || postFXStack.IsActive();
      if useIntermediateBuffer {
        if ClearFlagsValue(flags) > ClearFlagsValue(Color) {
          flags := Color;
        }
        AcquireAttachments(log);
      }
      assert log.commands == old(log.commands) + [SetupCameraProperties]
                             + (if useIntermediateBuffer then AttachmentCommands(bufferSize) else []);
      ClearTargets(log, flags);
      SetupShape(old(log.commands), useIntermediateBuffer, bufferSize, camera.clearFlags);
    }

    /** Clears the bound targets as `flags` say and binds the missing texture as both copies. */
    method ClearTargets(log: CommandLog, flags: ClearFlags)
      requires log.Valid()
      modifies log
      ensures log.Valid() && log.live == old(log.live)
      ensures log.commands == old(log.commands) + ClearCommands(flags)
    {
      log.Append(ClearRenderTarget(ClearFlagsValue(flags) <= ClearFlagsValue(Depth),
                                   ClearFlagsValue(flags) <= ClearFlagsValue(Color), flags == Color));
      log.Append(SetGlobalTexture(CameraColorTexture, MissingTexture));
      log.Append(SetGlobalTexture(CameraDepthTexture, MissingTexture));
    }

    /** The colour and depth attachments at buffer size, bound for drawing. */
    method AcquireAttachments(log: CommandLog)
      requires log.Valid() && ColorAttachmentId !in log.live && DepthAttachmentId !in log.live
      modifies log
      ensures log.Valid() && log.live == old(log.live) + {ColorAttachmentId} + {DepthAttachmentId}
      ensures log.commands == old(log.commands) + AttachmentCommands(bufferSize)
    {
      log.Append(Acquire(ColorAttachmentId, bufferSize.width, bufferSize.height));
      log.Append(Acquire(DepthAttachmentId, bufferSize.width, bufferSize.height));
      log.Append(SetRenderTargets(Temp(ColorAttachmentId), Temp(DepthAttachmentId), DontCare));
    }

    method Draw(log: CommandLog, from: Target, to: Target, isDepth: bool)
      requires log.Valid() && Readable(log.live, from) && Readable(log.live, to)
      modifies log
      ensures log.Valid() && log.live == old(log.live)
      ensures log.commands == old(log.commands) + BlitCommands(from, to, isDepth)
    {
      log.Append(SetGlobalTexture(SourceTexture, from));
      log.Append(SetRenderTarget(to, DontCare));
      log.Append(DrawProcedural(CameraMaterial, if isDepth then 1 else 0));
    }

    /** Copies one attachment into a fresh texture, directly or by a blit. */
    method CopyAttachment(log: CommandLog, attachment: int, copy: int, isDepth: bool, copyTextureSupported: bool)
      requires log.Valid() && attachment in log.live && copy !in log.live
      modifies log
      ensures log.Valid() && log.live == old(log.live) + {copy}
      ensures log.commands == old(log.commands) + CopyOne(attachment, copy, bufferSize, isDepth, copyTextureSupported)
    {
      log.Append(Acquire(copy, bufferSize.width, bufferSize.height));
      if copyTextureSupported {
        log.Append(CopyTexture(Temp(attachment), Temp(copy)));
      } else {
        Draw(log, Temp(attachment), Temp(copy), isDepth);
      }
    }

    /** The requested copies of the attachments; after blits the attachments are bound again. */
    method CopyAttachments(log: CommandLog, copyTextureSupported: bool)
      requires log.Valid()
      requires useColorTexture ==> ColorAttachmentId in log.live && ColorTextureId !in log.live
      requires useDepthTexture ==> DepthAttachmentId in log.live && DepthTextureId !in log.live
      requires !copyTextureSupported ==> ColorAttachmentId in log.live && DepthAttachmentId in log.live
      modifies log
      ensures log.Valid()
      ensures log.live == old(log.live) + (if useColorTexture then {ColorTextureId} else {})
                          + (if useDepthTexture then {DepthTextureId} else {})
      ensures log.commands == old(log.commands)
                              + CopyCommands(useColorTexture, useDepthTexture, bufferSize, copyTextureSupported)
    {
      ghost var origin, before := log.commands, log.live;
      if useColorTexture {
        CopyAttachment(log, ColorAttachmentId, ColorTextureId, false, copyTextureSupported);
      }
      ghost var colorCopy := if useColorTexture then CopyOne(ColorAttachmentId, ColorTextureId, bufferSize, false, copyTextureSupported) else [];
      assert log.commands == origin + colorCopy;
      assert log.live == before + (if useColorTexture then {ColorTextureId} else {});
      if useDepthTexture {
        CopyAttachment(log, DepthAttachmentId, DepthTextureId, true, copyTextureSupported);
      }
      ghost var depthCopy := if useDepthTexture then CopyOne(DepthAttachmentId, DepthTextureId, bufferSize, true, copyTextureSupported) else [];
      assert log.commands == origin + colorCopy + depthCopy;
      if !copyTextureSupported {
        log.Append(SetRenderTargets(Temp(ColorAttachmentId), Temp(DepthAttachmentId), Load));
      }
      CopyShape(old(log.commands), useColorTexture, useDepthTexture, bufferSize, copyTextureSupported);
    }

    /** Opaque geometry, the skybox, the copies when any is requested, then transparent geometry. */
    method DrawVisibleGeometry(log: CommandLog, useLightsPerObject: bool, renderingLayerMask: bv32,
                               copyTextureSupported: bool)
      requires log.Valid()
      requires useColorTexture ==> ColorAttachmentId in log.live && ColorTextureId !in log.live
      requires useDepthTexture ==> DepthAttachmentId in log.live && DepthTextureId !in log.live
      requires (useColorTexture || useDepthTexture) && !copyTextureSupported
               ==> ColorAttachmentId in log.live && DepthAttachmentId in log.live
      modifies log
      ensures log.Valid()
      ensures log.live == old(log.live) + (if useColorTexture then {ColorTextureId} else {})
                          + (if useDepthTexture then {DepthTextureId} else {})
      ensures log.commands == old(log.commands)
                              + GeometryCommands(renderingLayerMask, useLightsPerObject, useColorTexture,
                                                 useDepthTexture, bufferSize, copyTextureSupported)
    {
      log.Append(DrawRenderers(Opaque, renderingLayerMask, useLightsPerObject));
      log.Append(DrawSkybox);
      if useColorTexture || useDepthTexture {
        CopyAttachments(log, copyTextureSupported);
      }
      log.Append(DrawRenderers(Transparent, renderingLayerMask, useLightsPerObject));
      GeometryShape(old(log.commands), renderingLayerMask, useLightsPerObject, useColorTexture, useDepthTexture,
                    bufferSize, copyTextureSupported);
    }

    /** The colour attachment blitted to the camera target with the camera's final blend mode. */
    method DrawFinal(log: CommandLog, finalBlendMode: FinalBlendMode)
      requires log.Valid() && ColorAttachmentId in log.live
      modifies log
      ensures log.Valid() && log.live == old(log.live)
      ensures log.commands == old(log.commands) + FinalBlitCommands(finalBlendMode, camera.fullRect)
    {
      log.Append(SetGlobalFloat(CameraSrcBlend, finalBlendMode.source as real));
      log.Append(SetGlobalFloat(CameraDstBlend, finalBlendMode.destination as real));
      log.Append(SetGlobalTexture(SourceTexture, Temp(ColorAttachmentId)));
      log.Append(SetRenderTarget(CameraTarget,
                                 if finalBlendMode.destination == BlendZero && camera.fullRect then DontCare else Load));
      assert log.commands[|log.commands| - 1] == SetRenderTarget(CameraTarget, PostFX.FinalLoad(finalBlendMode, camera.fullRect));
      log.Append(SetViewport);
      log.Append(DrawProcedural(CameraMaterial, 0));
      log.Append(SetGlobalFloat(CameraSrcBlend, 1.0));
      log.Append(SetGlobalFloat(CameraDstBlend, 0.0));
      FinalBlitShape(old(log.commands), finalBlendMode, camera.fullRect);
    }

    /** Releases the attachments and the copies; nothing when no intermediate buffer was used. */
    method Cleanup(log: CommandLog)
      requires log.Valid()
      requires useIntermediateBuffer ==> ColorAttachmentId in log.live && DepthAttachmentId in log.live
      requires useIntermediateBuffer && useColorTexture ==> ColorTextureId in log.live
      requires useIntermediateBuffer && useDepthTexture ==> DepthTextureId in log.live
      modifies log
      ensures log.Valid()
      ensures log.live == if useIntermediateBuffer then
                            old(log.live) - {ColorAttachmentId} - {DepthAttachmentId}
                            - (if useColorTexture then {ColorTextureId} else {})
                            - (if useDepthTexture then {DepthTextureId} else {})
                          else old(log.live)
      ensures log.commands == old(log.commands) + CleanupCommands(useIntermediateBuffer, useColorTexture, useDepthTexture)
    {
      if useIntermediateBuffer {
        CleanupShape(old(log.commands), old(log.live), useColorTexture, useDepthTexture);
        log.Append(Release(ColorAttachmentId));
        log.Append(Release(DepthAttachmentId));
        if useColorTexture {
          log.Append(Release(ColorTextureId));
        }
        if useDepthTexture {
          log.Append(Release(DepthTextureId));
        }
      }
    }

    method Submit(log: CommandLog)
      requires log.Valid()
      modifies log
      ensures log.Valid() && log.live == old(log.live)
      ensures log.commands == old(log.commands) + [Command.Submit]
    {
      log.Append(Command.Submit);
    }

    /** The decisions taken before culling are the plan's. */
    ghost predicate Decided(camera: Camera, p: Plan)
      reads this`camera, this`useColorTexture, this`useDepthTexture, this`useScaledRendering
    {
      && this.camera == camera && useColorTexture == p.useColorTexture && useDepthTexture == p.useDepthTexture
      && useScaledRendering == p.useScaledRendering
    }

    /** The decisions taken after culling are the plan's. */
    ghost predicate Prepared(p: Plan)
      reads this`useHDR, this`bufferSize, this`useIntermediateBuffer, postFXStack
    {
      && useHDR == p.useHDR && bufferSize == p.bufferSize && useIntermediateBuffer == p.useIntermediateBuffer
      && postFXStack.IsActive() == p.postFXActive
    }

    /** The post-FX stack runs exactly when the plan says so, configured with the frame's state. */
    ghost predicate PostFXReady(p: Plan, buffers: CameraBufferSettings, lutResolution: int)
      reads this`camera, this`bufferSize, postFXStack
    {
      && postFXStack.IsActive() == p.postFXActive
      && (p.postFXActive ==> (
            && p.postFX == postFXStack.settings
            && postFXStack.Config() == PostFXConfig(camera, p, buffers, lutResolution)
            && postFXStack.camera == camera && postFXStack.bufferSize == bufferSize))
    }

    /**
     * One camera's frame. The copy flags, the post-FX settings and the render
     * scale are decided first; a camera that cannot be culled stops there and
     * records nothing. Otherwise the buffer is sized, lighting and the post-FX
     * stack are set up, and the stages are recorded in order, leaving the
     * ledger as it found it.
     */
    method Render(log: CommandLog, camera: Camera, bufferSettings: CameraBufferSettings, useLightsPerObject: bool,
                  shadowSettings: ShadowSettings, postFXSettings: Option<PostFXSettings>, colorLUTResolution: int,
                  component: Option<CameraSettings>, culling: Option<LightingPacker.CullingResults>,
                  copyTextureSupported: bool, sceneWindow: bool)
      requires Valid() && log.Valid() && FrameIdsFree(log.live)
      requires BloomBounded(PostFXSettingsFor(CameraSettingsOf(component), postFXSettings))
      requires culling.Some? && useLightsPerObject
               ==> |culling.value.visibleLights| <= culling.value.lightIndexMapLength
      modifies this, log, lighting, lighting.dirLights, lighting.otherLights, postFXStack
      ensures Valid() && log.Valid() && log.live == old(log.live)
      ensures Decided(camera, PlanFrame(camera, component, bufferSettings, postFXSettings, sceneWindow))
      ensures culling.None? ==> log.commands == old(log.commands) && lighting.Untouched() && unchanged(postFXStack)
      ensures culling.None? ==> unchanged(this`cullingResults, this`useHDR, this`bufferSize, this`useIntermediateBuffer)
      ensures var p := PlanFrame(camera, component, bufferSettings, postFXSettings, sceneWindow);
              culling.Some? ==> (
                && log.commands == old(log.commands)
                     + FrameCommands(camera, p, bufferSettings, shadowSettings, useLightsPerObject, colorLUTResolution,
                                     copyTextureSupported)
                && Prepared(p)
                && lighting.LightsSetUp(culling.value.visibleLights, culling.value.lightIndexMapLength,
                                        useLightsPerObject, LightsMask(p.settings)))
    {
      ghost var p := PlanFrame(camera, component, bufferSettings, postFXSettings, sceneWindow);
      PlanFields(camera, component, bufferSettings, postFXSettings, sceneWindow, p);
      var cameraSettings, postFX, renderScale := Decide(camera, bufferSettings, component, postFXSettings, sceneWindow);
      assert Decided(camera, p);
      CullAndRender(log, cameraSettings, postFX, renderScale, bufferSettings, shadowSettings, useLightsPerObject,
                    colorLUTResolution, culling, copyTextureSupported, p);
    }

    /** Culls, and records the rest of the frame only when culling succeeds. */
    method CullAndRender(log: CommandLog, cameraSettings: CameraSettings, postFX: Option<PostFXSettings>,
                         renderScale: real, bufferSettings: CameraBufferSettings, shadowSettings: ShadowSettings,
                         useLightsPerObject: bool, colorLUTResolution: int,
                         culling: Option<LightingPacker.CullingResults>, copyTextureSupported: bool, ghost p: Plan)
      requires Valid() && log.Valid() && FrameIdsFree(log.live)
      requires culling.Some? && useLightsPerObject
               ==> |culling.value.visibleLights| <= culling.value.lightIndexMapLength
      requires Decided(camera, p) && Coherent(camera, bufferSettings, p) && BloomBounded(p.postFX)
      requires p.settings == cameraSettings && p.postFX == postFX && p.renderScale == renderScale
      modifies log, this`cullingResults, this`useHDR, this`bufferSize, this`useIntermediateBuffer
      modifies lighting, lighting.dirLights, lighting.otherLights, postFXStack
      ensures Valid() && log.Valid() && log.live == old(log.live)
      ensures culling.None? ==> log.commands == old(log.commands) && lighting.Untouched() && unchanged(postFXStack)
      ensures culling.None? ==> unchanged(this`cullingResults, this`useHDR, this`bufferSize, this`useIntermediateBuffer)
      ensures culling.Some? ==> (
                && log.commands == old(log.commands)
                     + FrameCommands(camera, p, bufferSettings, shadowSettings, useLightsPerObject, colorLUTResolution,
                                     copyTextureSupported)
                && Prepared(p)
                && lighting.LightsSetUp(culling.value.visibleLights, culling.value.lightIndexMapLength,
                                        useLightsPerObject, LightsMask(p.settings)))
    {
      var ok := Cull(log, shadowSettings.maxDistance, culling);
      if !ok {
        return;
      }
      RenderCulled(log, cameraSettings, postFX, renderScale, bufferSettings, shadowSettings, useLightsPerObject,
                   colorLUTResolution, copyTextureSupported, p, old(log.commands));
    }

    /** The frame of a camera that was culled, from sizing the buffer to the submit. */
    method RenderCulled(log: CommandLog, cameraSettings: CameraSettings, postFX: Option<PostFXSettings>,
                        renderScale: real, bufferSettings: CameraBufferSettings, shadowSettings: ShadowSettings,
                        useLightsPerObject: bool, colorLUTResolution: int, copyTextureSupported: bool,
                        ghost p: Plan, ghost origin: seq<Command>)
      requires Valid() && log.Valid() && FrameIdsFree(log.live)
      requires log.commands == origin + [Command.Cull(ShadowDistance(shadowSettings.maxDistance, camera.farClipPlane))]
      requires useLightsPerObject ==> |cullingResults.visibleLights| <= cullingResults.lightIndexMapLength
      requires Decided(camera, p) && Coherent(camera, bufferSettings, p) && BloomBounded(p.postFX)
      requires p.settings == cameraSettings && p.postFX == postFX && p.renderScale == renderScale
      modifies log, this`useHDR, this`bufferSize, this`useIntermediateBuffer
      modifies lighting, lighting.dirLights, lighting.otherLights, postFXStack
      ensures Valid() && log.Valid() && log.live == old(log.live)
      ensures log.commands == origin + FrameCommands(camera, p, bufferSettings, shadowSettings, useLightsPerObject,
                                                     colorLUTResolution, copyTextureSupported)
      ensures Prepared(p)
      ensures lighting.LightsSetUp(cullingResults.visibleLights, cullingResults.lightIndexMapLength, useLightsPerObject,
                                   LightsMask(p.settings))
    {
      Prepare(log, cameraSettings, postFX, renderScale, bufferSettings, useLightsPerObject, colorLUTResolution, p);
      RenderStages(log, cameraSettings, bufferSettings, useLightsPerObject, colorLUTResolution, copyTextureSupported,
                   p);
      FrameShape(origin, camera, p, bufferSettings, shadowSettings, useLightsPerObject, colorLUTResolution,
                 copyTextureSupported);
    }

    /**
     * The decisions taken before culling: which attachments are copied, which
     * post-FX settings apply, the render scale and whether it scales. In the
     * editor a scene-view camera never renders scaled.
     */
    method Decide(camera: Camera, bufferSettings: CameraBufferSettings, component: Option<CameraSettings>,
                  postFXSettings: Option<PostFXSettings>, sceneWindow: bool)
      returns (cameraSettings: CameraSettings, postFX: Option<PostFXSettings>, renderScale: real)
      modifies this`camera, this`useColorTexture, this`useDepthTexture, this`useScaledRendering
      ensures this.camera == camera && cameraSettings == CameraSettingsOf(component)
      ensures postFX == PostFXSettingsFor(cameraSettings, postFXSettings)
      ensures useColorTexture == CopiesColor(camera.cameraType, bufferSettings, cameraSettings)
      ensures useDepthTexture == CopiesDepth(camera.cameraType, bufferSettings, cameraSettings)
      ensures renderScale == GetRenderScale(cameraSettings, bufferSettings.renderScale)
      ensures useScaledRendering == (ScaledRendering(renderScale) && !(sceneWindow && camera.cameraType == SceneView))
    {
      this.camera := camera;
      cameraSettings := if component.Some? then component.value else DefaultCameraSettings;
      if camera.cameraType == Reflection {
        useColorTexture := bufferSettings.copyColorReflection;
        useDepthTexture := bufferSettings.copyDepthReflection;
      } else {
        useColorTexture := bufferSettings.copyColor && cameraSettings.copyColor;
        useDepthTexture := bufferSettings.copyDepth && cameraSettings.copyDepth;
      }
      postFX := postFXSettings;
      if cameraSettings.overridePostFX {
        postFX := cameraSettings.postFXSettings;
      }
      renderScale := GetRenderScale(cameraSettings, bufferSettings.renderScale);
      useScaledRendering := renderScale < 0.99 || renderScale > 1.01;
      if sceneWindow && camera.cameraType == SceneView {
        useScaledRendering := false;
      }
    }

    /**
     * Sizes the buffer, sets up lighting with the camera's light mask and
     * hands the frame's state to the post-FX stack.
     */
    method Prepare(log: CommandLog, cameraSettings: CameraSettings, postFX: Option<PostFXSettings>, renderScale: real,
                   bufferSettings: CameraBufferSettings, useLightsPerObject: bool, colorLUTResolution: int,
                   ghost p: Plan)
      requires log.Valid() && lighting.Valid()
      requires useLightsPerObject ==> |cullingResults.visibleLights| <= cullingResults.lightIndexMapLength
      requires Decided(camera, p) && Coherent(camera, bufferSettings, p)
      requires p.settings == cameraSettings && p.postFX == postFX && p.renderScale == renderScale
      modifies log, this`useHDR, this`bufferSize, lighting, lighting.dirLights, lighting.otherLights, postFXStack
      ensures log.Valid() && log.live == old(log.live) && lighting.Valid()
      ensures log.commands == old(log.commands) + [SetGlobalVector(CameraBufferSize)]
                              + [SetupLighting(LightsMask(p.settings), useLightsPerObject)]
      ensures useHDR == p.useHDR && bufferSize == p.bufferSize
      ensures lighting.LightsSetUp(cullingResults.visibleLights, cullingResults.lightIndexMapLength, useLightsPerObject,
                                   LightsMask(p.settings))
      ensures PostFXReady(p, bufferSettings, colorLUTResolution)
    {
      SizeAndLight(log, cameraSettings, renderScale, bufferSettings, useLightsPerObject, p);
      SetupPostFX(cameraSettings, postFX, bufferSettings, colorLUTResolution, p);
    }

    /** The buffer's size and format, then lighting filtered by the camera's light mask. */
    method SizeAndLight(log: CommandLog, cameraSettings: CameraSettings, renderScale: real,
                        bufferSettings: CameraBufferSettings, useLightsPerObject: bool, ghost p: Plan)
      requires log.Valid() && lighting.Valid()
      requires useLightsPerObject ==> |cullingResults.visibleLights| <= cullingResults.lightIndexMapLength
      requires Decided(camera, p) && Coherent(camera, bufferSettings, p)
      requires p.settings == cameraSettings && p.renderScale == renderScale
      modifies log, this`useHDR, this`bufferSize, lighting, lighting.dirLights, lighting.otherLights
      ensures log.Valid() && log.live == old(log.live) && lighting.Valid()
      ensures log.commands == old(log.commands) + [SetGlobalVector(CameraBufferSize)]
                              + [SetupLighting(LightsMask(p.settings), useLightsPerObject)]
      ensures useHDR == p.useHDR && bufferSize == p.bufferSize
      ensures lighting.LightsSetUp(cullingResults.visibleLights, cullingResults.lightIndexMapLength, useLightsPerObject,
                                   LightsMask(p.settings))
    {
      SizeBuffer(log, bufferSettings, renderScale);
      PrepareLighting(log, cameraSettings, useLightsPerObject);
    }

    /** Lighting filtered by the camera's light mask. */
    method PrepareLighting(log: CommandLog, cameraSettings: CameraSettings, useLightsPerObject: bool)
      requires log.Valid() && lighting.Valid()
      requires useLightsPerObject ==> |cullingResults.visibleLights| <= cullingResults.lightIndexMapLength
      modifies log, lighting, lighting.dirLights, lighting.otherLights
      ensures log.Valid() && log.live == old(log.live) && lighting.Valid()
      ensures log.commands == old(log.commands) + [Command.SetupLighting(LightsMask(cameraSettings), useLightsPerObject)]
      ensures lighting.LightsSetUp(cullingResults.visibleLights, cullingResults.lightIndexMapLength, useLightsPerObject,
                                   LightsMask(cameraSettings))
    {
      var mask := if cameraSettings.maskLights then cameraSettings.renderingLayerMask else AllLayers;
      lighting.Setup(cullingResults, useLightsPerObject, mask);
      log.Append(Command.SetupLighting(mask, useLightsPerObject));
    }

    /** The post-FX stack takes over the frame's state, with FXAA only where the camera allows it. */
    method SetupPostFX(cameraSettings: CameraSettings, postFX: Option<PostFXSettings>,
                       bufferSettings: CameraBufferSettings, colorLUTResolution: int, ghost p: Plan)
      requires Coherent(camera, bufferSettings, p)
      requires p.settings == cameraSettings && p.postFX == postFX && p.useHDR == useHDR && p.bufferSize == bufferSize
      modifies postFXStack
      ensures PostFXReady(p, bufferSettings, colorLUTResolution)
    {
      var fxaa := bufferSettings.fxaa.(enabled := bufferSettings.fxaa.enabled && cameraSettings.allowFXAA);
      postFXStack.Setup(camera, bufferSize, postFX, cameraSettings.keepAlpha, useHDR, colorLUTResolution,
                        cameraSettings.finalBlendMode, bufferSettings.bicubicRescaling, fxaa);
    }

    /**
     * HDR when both the pipeline and the camera allow it; the buffer is the
     * pixel size, scaled when scaling; its size is published to the shaders.
     */
    method SizeBuffer(log: CommandLog, bufferSettings: CameraBufferSettings, renderScale: real)
      requires log.Valid()
      modifies log, this`useHDR, this`bufferSize
      ensures log.Valid() && log.live == old(log.live)
      ensures log.commands == old(log.commands) + [SetGlobalVector(CameraBufferSize)]
      ensures useHDR == (bufferSettings.allowHDR && camera.allowHDR)
      ensures bufferSize == BufferSize(camera, renderScale, useScaledRendering)
    {
      useHDR := bufferSettings.allowHDR && camera.allowHDR;
      if useScaledRendering {
        var scale := ClampScale(renderScale);
        bufferSize := PostFX.Size(Truncate(Product(camera.pixelWidth, scale)),
                                  Truncate(Product(camera.pixelHeight, scale)));
      } else {
        bufferSize := PostFX.Size(camera.pixelWidth, camera.pixelHeight);
      }
      log.Append(SetGlobalVector(CameraBufferSize));
    }

    /** From binding the targets to the submit, for a camera whose plan is `p`. */
    method RenderStages(log: CommandLog, cameraSettings: CameraSettings, bufferSettings: CameraBufferSettings,
                        useLightsPerObject: bool, colorLUTResolution: int, copyTextureSupported: bool, ghost p: Plan)
      requires log.Valid() && FrameIdsFree(log.live)
      requires Decided(camera, p) && Routed(p) && BloomBounded(p.postFX)
      requires p.settings == cameraSettings && p.bufferSize == bufferSize
      requires PostFXReady(p, bufferSettings, colorLUTResolution)
      modifies log, this`useIntermediateBuffer
      ensures log.Valid() && log.live == old(log.live)
      ensures useIntermediateBuffer == p.useIntermediateBuffer
      ensures log.commands == old(log.commands) + StageCommands(camera, p, bufferSettings, useLightsPerObject,
                                                                colorLUTResolution, copyTextureSupported)
    {
      ghost var before := log.live;
      FrameLedger(before, p.useIntermediateBuffer, useColorTexture, useDepthTexture);
      Setup(log);
      assert useIntermediateBuffer == p.useIntermediateBuffer;
      ghost var afterSetup, setupEnd := log.live, log.commands;
      assert setupEnd == old(log.commands) + SetupCommands(p.useIntermediateBuffer, p.bufferSize, camera.clearFlags);
      DrawVisibleGeometry(log, useLightsPerObject, cameraSettings.renderingLayerMask, copyTextureSupported);
      ghost var afterGeometry, geometryEnd := log.live, log.commands;
      assert geometryEnd == setupEnd + GeometryCommands(p.settings.renderingLayerMask, useLightsPerObject,
                                                        p.useColorTexture, p.useDepthTexture, p.bufferSize,
                                                        copyTextureSupported);
      Route(log, cameraSettings, bufferSettings, colorLUTResolution, p);
      ghost var routingEnd := log.commands;
      Cleanup(log);
      assert log.commands == routingEnd + CleanupCommands(p.useIntermediateBuffer, p.useColorTexture,
                                                          p.useDepthTexture);
      FrameLedgerCloses(before, afterSetup, afterGeometry, log.live, useIntermediateBuffer, useColorTexture,
                        useDepthTexture);
      Submit(log);
      StageShape(old(log.commands), camera, p, bufferSettings, useLightsPerObject, colorLUTResolution,
                 copyTextureSupported);
    }

    /** After the geometry: the post-FX stack, or a plain blit when drawing went to the intermediate buffer. */
    method Route(log: CommandLog, cameraSettings: CameraSettings, bufferSettings: CameraBufferSettings,
                 colorLUTResolution: int, ghost p: Plan)
      requires log.Valid() && PostFX.BloomIdsFree(log.live) && PostFX.FinalIdsFree(log.live)
      requires useIntermediateBuffer ==> ColorAttachmentId in log.live
      requires Routed(p) && BloomBounded(p.postFX)
      requires p.settings == cameraSettings && p.bufferSize == bufferSize
      requires p.useIntermediateBuffer == useIntermediateBuffer
      requires PostFXReady(p, bufferSettings, colorLUTResolution)
      modifies log
      ensures log.Valid() && log.live == old(log.live)
      ensures log.commands == old(log.commands) + RoutingCommands(camera, p, bufferSettings, colorLUTResolution)
    {
      if postFXStack.IsActive() {
        postFXStack.Render(log, Temp(ColorAttachmentId));
      } else if useIntermediateBuffer {
        DrawFinal(log, cameraSettings.finalBlendMode);
      }
    }
  }
}
