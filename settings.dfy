/**
 * Configuration records read by the renderer: per-camera settings, the
 * pipeline-wide camera buffer settings, shadow settings and the post-FX
 * settings asset. Rendering-layer masks are 32-bit patterns (`bv32`); the
 * integer -1 of the inspector is the all-ones pattern.
 */
module Settings {

  datatype Option<T> = None | Some(value: T)

  const AllLayers: bv32 := 0xFFFF_FFFF

  // Ordinals of the engine's blend factors used here.
  const BlendZero: nat := 0
  const BlendOne: nat := 1

  datatype RenderScaleMode = Inherit | Multiply | Override

  /** Source and destination blend factors of the final blit, as engine ordinals. */
  datatype FinalBlendMode = FinalBlendMode(source: nat, destination: nat)

  datatype BloomMode = Additive | Scattering

  datatype BloomSettings = BloomSettings(
    ignoreRenderScale: bool,
    maxIterations: int,
    downscaleLimit: int,
    bicubicUpsampling: bool,
    intensity: real,
    fadeFireflies: bool,
    mode: BloomMode,
    scatter: real)

  /** Tone-mapping modes in declaration order: None = 0, ACES = 1, Neutral = 2, Reinhard = 3. */
  datatype ToneMappingMode = NoToneMapping | ACES | Neutral | Reinhard

  /** The post-FX settings asset; colour-grading parameter blocks are not modelled. */
  datatype PostFXSettings = PostFXSettings(bloom: BloomSettings, toneMapping: ToneMappingMode)

  datatype CameraSettings = CameraSettings(
    copyColor: bool,
    copyDepth: bool,
    renderingLayerMask: bv32,
    overridePostFX: bool,
    postFXSettings: Option<PostFXSettings>,
    allowFXAA: bool,
    keepAlpha: bool,
    maskLights: bool,
    renderScaleMode: RenderScaleMode,
    renderScale: real,
    finalBlendMode: FinalBlendMode)

  /** Field initialisers of a freshly constructed camera settings object. */
  const DefaultCameraSettings: CameraSettings := CameraSettings(
    copyColor := true,
    copyDepth := true,
    renderingLayerMask := AllLayers,
    overridePostFX := false,
    postFXSettings := None,
    allowFXAA := false,
    keepAlpha := false,
    maskLights := false,
    renderScaleMode := Inherit,
    renderScale := 1.0,
    finalBlendMode := FinalBlendMode(BlendOne, BlendZero))

  /**
   * The camera's render scale composed with the pipeline-wide one. The result
   * is not clamped: the [0.1, 2] range of `renderScale` is only an inspector hint.
   */
  function GetRenderScale(settings: CameraSettings, scale: real): (r: real)
    ensures settings.renderScaleMode == Inherit ==> r == scale
    ensures settings.renderScaleMode == Override ==> r == settings.renderScale
    ensures settings.renderScaleMode == Multiply ==> r == scale * settings.renderScale
  {
    if settings.renderScaleMode == Inherit then scale
    else if settings.renderScaleMode == Override then settings.renderScale
    else scale * settings.renderScale
  }

  /** A camera without its own settings passes the pipeline scale through unchanged. */
  lemma DefaultInheritsScale(scale: real)
    ensures GetRenderScale(DefaultCameraSettings, scale) == scale
    ensures DefaultCameraSettings.finalBlendMode.destination == BlendZero
  {
  }

  /** Override ignores the pipeline scale; nothing keeps the result inside [0.1, 2]. */
  lemma OverrideIgnoresArgument(settings: CameraSettings, a: real, b: real)
    requires settings.renderScaleMode == Override
    ensures GetRenderScale(settings, a) == GetRenderScale(settings, b)
  {
  }

  lemma NoClamping()
    ensures GetRenderScale(DefaultCameraSettings.(renderScaleMode := Multiply, renderScale := 2.0), 2.0) == 4.0
  {
  }

  datatype BicubicRescalingMode = Off | UpOnly | UpAndDown

  datatype FXAAQuality = Low | Medium | High

  datatype FXAASettings = FXAASettings(enabled: bool, quality: FXAAQuality)

  /** Pipeline-wide buffer settings (a struct: every call gets its own copy). */
  datatype CameraBufferSettings = CameraBufferSettings(
    allowHDR: bool,
    copyColor: bool,
    copyColorReflection: bool,
    copyDepth: bool,
    copyDepthReflection: bool,
    bicubicRescaling: BicubicRescalingMode,
    renderScale: real,
    fxaa: FXAASettings)

  datatype MapSize = Map256 | Map512 | Map1024 | Map2048 | Map4096 | Map8192

  datatype ShadowFilter = PCF2x2 | PCF3x3 | PCF5x5 | PCF7x7

  datatype CascadeBlendMode = Hard | Soft | Dither

  datatype DirectionalShadows = DirectionalShadows(
    atlasSize: MapSize,
    filter: ShadowFilter,
    cascadeCount: int,
    cascadeRatio1: real,
    cascadeRatio2: real,
    cascadeRatio3: real,
    cascadeFade: real,
    cascadeBlend: CascadeBlendMode)

  datatype OtherShadows = OtherShadows(atlasSize: MapSize, filter: ShadowFilter)

  datatype ShadowSettings = ShadowSettings(
    maxDistance: real,
    distanceFade: real,
    directional: DirectionalShadows,
    other: OtherShadows)

  const DefaultShadowSettings: ShadowSettings := ShadowSettings(
    100.0, 0.1,
    DirectionalShadows(Map1024, PCF2x2, 4, 0.1, 0.25, 0.5, 0.1, Hard),
    OtherShadows(Map1024, PCF2x2))

  /** The engine's camera types; `CameraTypeValue` gives their flag values. */
  datatype CameraType = Game | SceneView | Preview | VR | Reflection

  function CameraTypeValue(t: CameraType): nat {
    match t
    case Game => 1
    case SceneView => 2
    case Preview => 4
    case Reflection => 8
    case VR => 256
  }

  /** The engine's clear flags; `ClearFlagsValue` gives their ordinals. */
  datatype ClearFlags = Skybox | Color | Depth | Nothing

  function ClearFlagsValue(f: ClearFlags): nat {
    match f
    case Skybox => 1
    case Color => 2
    case Depth => 3
    case Nothing => 4
  }

  /**
   * What the renderer reads from a camera. `fullRect` stands for
   * `camera.rect == (0, 0, 1, 1)`.
   */
  datatype Camera = Camera(
    cameraType: CameraType,
    pixelWidth: nat,
    pixelHeight: nat,
    fullRect: bool,
    allowHDR: bool,
    clearFlags: ClearFlags,
    farClipPlane: real)
}
