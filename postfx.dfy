/**
 * The post-processing stack: the bloom pyramid, the colour-grading LUT, FXAA
 * and the final (possibly rescaling) blit to the camera target, recorded into
 * the shared command log.
 */
module PostFX {
  import opened Commands
  import opened Settings

  // ---------------------------------------------------------------------------
  // Shader passes
  // ---------------------------------------------------------------------------

  /** Passes of the post-FX shader, in declaration order. */
  datatype Pass =
    | BloomAdd | BloomHorizontal | BloomPrefilter | BloomPrefilterFireflies
    | BloomScatter | BloomScatterFinal | BloomVertical | Copy
    | ColorGradingNone | ColorGradingACES | ColorGradingNeutral | ColorGradingReinhard
    | ApplyColorGrading | ApplyColorGradingWithLuma | FinalRescale | FXAA | FXAAWithLuma

  const PassCount: nat := 17

  /** The pass index handed to the draw call, `(int)pass`. */
  function Ordinal(p: Pass): (n: nat)
    ensures n < PassCount
  {
    match p
    case BloomAdd => 0
    case BloomHorizontal => 1
    case BloomPrefilter => 2
    case BloomPrefilterFireflies => 3
    case BloomScatter => 4
    case BloomScatterFinal => 5
    case BloomVertical => 6
    case Copy => 7
    case ColorGradingNone => 8
    case ColorGradingACES => 9
    case ColorGradingNeutral => 10
    case ColorGradingReinhard => 11
    case ApplyColorGrading => 12
    case ApplyColorGradingWithLuma => 13
    case FinalRescale => 14
    case FXAA => 15
    case FXAAWithLuma => 16
  }

  /** The pass with a given index: the inverse of `Ordinal`. */
  function PassAt(n: nat): (p: Pass)
    requires n < PassCount
    ensures Ordinal(p) == n
  {
    if n == 0 then BloomAdd
    else if n == 1 then BloomHorizontal
    else if n == 2 then BloomPrefilter
    else if n == 3 then BloomPrefilterFireflies
    else if n == 4 then BloomScatter
    else if n == 5 then BloomScatterFinal
    else if n == 6 then BloomVertical
    else if n == 7 then Copy
    else if n == 8 then ColorGradingNone
    else if n == 9 then ColorGradingACES
    else if n == 10 then ColorGradingNeutral
    else if n == 11 then ColorGradingReinhard
    else if n == 12 then ApplyColorGrading
    else if n == 13 then ApplyColorGradingWithLuma
    else if n == 14 then FinalRescale
    else if n == 15 then FXAA
    else FXAAWithLuma
  }

  /** Distinct passes are drawn with distinct indices. */
  lemma OrdinalInjective(p: Pass, q: Pass)
    requires Ordinal(p) == Ordinal(q)
    ensures p == q
  {
    assert PassAt(Ordinal(p)) == p;
    assert PassAt(Ordinal(q)) == q;
  }

  function ToneMappingOrdinal(m: ToneMappingMode): nat {
    match m
    case NoToneMapping => 0
    case ACES => 1
    case Neutral => 2
    case Reinhard => 3
  }

  /** `ColorGradingNone + (int)mode`: the grading pass is found by offset, not by a branch. */
  function GradingPass(m: ToneMappingMode): (p: Pass)
    ensures m == NoToneMapping <==> p == ColorGradingNone
    ensures m == ACES <==> p == ColorGradingACES
    ensures m == Neutral <==> p == ColorGradingNeutral
    ensures m == Reinhard <==> p == ColorGradingReinhard
  {
    PassAt(Ordinal(ColorGradingNone) + ToneMappingOrdinal(m))
  }

  /** `_ColorGradingLUTInLogC`: 1 exactly when HDR is on and some tone mapping is applied. */
  function LogCFlag(useHDR: bool, m: ToneMappingMode): (r: real)
    ensures r == 1.0 <==> useHDR && m != NoToneMapping
    ensures r == 0.0 || r == 1.0
  {
    if useHDR && GradingPass(m) != ColorGradingNone then 1.0 else 0.0
  }

  // ---------------------------------------------------------------------------
  // Colour-grading parameter blocks
  // ---------------------------------------------------------------------------

  /** The colour-adjustment, white-balance, split-toning, channel-mixer and SMH parameter blocks. */
  const ConfigureCommands: seq<Command> := [
    SetGlobalVector(ColorAdjustments), SetGlobalVector(ColorFilter),
    SetGlobalVector(WhiteBalance),
    SetGlobalVector(SplitToningShadows), SetGlobalVector(SplitToningHighlights),
    SetGlobalVector(ChannelMixerRed), SetGlobalVector(ChannelMixerGreen), SetGlobalVector(ChannelMixerBlue),
    SetGlobalVector(SmhShadows), SetGlobalVector(SmhMidtones), SetGlobalVector(SmhHighlights),
    SetGlobalVector(SmhRange)]

  /** The parameter blocks uploaded by each of the five configuration steps, in the order the final pass runs them. */
  lemma ConfigureShape(origin: seq<Command>)
    ensures origin + ConfigureCommands
         == origin + [SetGlobalVector(ColorAdjustments), SetGlobalVector(ColorFilter)]
            + [SetGlobalVector(WhiteBalance)]
            + [SetGlobalVector(SplitToningShadows), SetGlobalVector(SplitToningHighlights)]
            + [SetGlobalVector(ChannelMixerRed), SetGlobalVector(ChannelMixerGreen), SetGlobalVector(ChannelMixerBlue)]
            + [SetGlobalVector(SmhShadows), SetGlobalVector(SmhMidtones), SetGlobalVector(SmhHighlights),
               SetGlobalVector(SmhRange)]
  {
  }

  // ---------------------------------------------------------------------------
  // Draws
  // ---------------------------------------------------------------------------

  /** A full-screen draw from one texture into another, discarding the old contents. */
  function DrawCommands(from: Target, to: Target, pass: Pass): seq<Command> {
    [SetGlobalTexture(PostFXSource, from), SetRenderTarget(to, DontCare),
     DrawProcedural(PostFXMaterial, Ordinal(pass))]
  }

  /**
   * The load action of a final blit: the old contents of the camera target
   * can be discarded only when the blend ignores them and the whole target is drawn.
   */
  function FinalLoad(blend: FinalBlendMode, fullRect: bool): (a: LoadAction)
    ensures a == DontCare <==> blend.destination == BlendZero && fullRect
  {
    if blend.destination == BlendZero && fullRect then DontCare else Load
  }

  /** A full-screen draw into the camera target with the camera's final blend mode. */
  function DrawFinalCommands(blend: FinalBlendMode, fullRect: bool, from: Target, pass: Pass): seq<Command> {
    [SetGlobalFloat(FinalSrcBlend, blend.source as real),
     SetGlobalFloat(FinalDstBlend, blend.destination as real),
     SetGlobalTexture(PostFXSource, from), SetRenderTarget(CameraTarget, FinalLoad(blend, fullRect)),
     SetViewport, DrawProcedural(PostFXMaterial, Ordinal(pass))]
  }

  /** The final blit in the order its commands are recorded. */
  lemma DrawFinalShape(origin: seq<Command>, blend: FinalBlendMode, fullRect: bool, from: Target, pass: Pass)
    ensures origin + DrawFinalCommands(blend, fullRect, from, pass)
         == origin + [SetGlobalFloat(FinalSrcBlend, blend.source as real)]
            + [SetGlobalFloat(FinalDstBlend, blend.destination as real)]
            + [SetGlobalTexture(PostFXSource, from)] + [SetRenderTarget(CameraTarget, FinalLoad(blend, fullRect))]
            + [SetViewport] + [DrawProcedural(PostFXMaterial, Ordinal(pass))]
  {
  }

  /** A camera without settings of its own, drawing the whole target, never loads the old contents. */
  lemma DefaultBlendDiscards()
    ensures FinalLoad(DefaultCameraSettings.finalBlendMode, true) == DontCare
    ensures forall blend :: FinalLoad(blend, false) == Load
  {
  }

  // ---------------------------------------------------------------------------
  // Bloom: guard, pyramid depth, intensities
  // ---------------------------------------------------------------------------

  datatype Size = Size(width: nat, height: nat)

  /** Integer halving of both dimensions (`/ 2` on non-negative ints). */
  function Half(s: Size): Size {
    Size(s.width / 2, s.height / 2)
  }

  /** `s` halved `k` times. */
  function HalveN(s: Size, k: nat): Size
    decreases k
  {
    if k == 0 then s else HalveN(Half(s), k - 1)
  }

  lemma {:induction false} HalveNSucc(s: Size, k: nat)
    ensures HalveN(s, k + 1) == Half(HalveN(s, k))
    decreases k
  {
    if k > 0 {
      HalveNSucc(Half(s), k - 1);
    }
  }

  predicate Fits(s: Size, limit: int) {
    s.width >= limit && s.height >= limit
  }

  /** The size bloom starts from: half the camera's pixels, or half the scaled buffer. */
  function BloomStart(bloom: BloomSettings, camera: Camera, bufferSize: Size): Size {
    if bloom.ignoreRenderScale then Half(Size(camera.pixelWidth, camera.pixelHeight))
    else Half(bufferSize)
  }

  /** Bloom runs unless it has no iterations, no intensity, or a start size below twice the limit. */
  predicate BloomProceeds(bloom: BloomSettings, start: Size) {
    !(bloom.maxIterations == 0 || bloom.intensity <= 0.0 ||
      start.height < bloom.downscaleLimit * 2 || start.width < bloom.downscaleLimit * 2)
  }

  /** The number of pyramid levels built from `s` with at most `remaining` iterations. */
  function PyramidDepth(s: Size, limit: int, remaining: nat): nat
    decreases remaining
  {
    if remaining == 0 || s.height < limit || s.width < limit then 0
    else 1 + PyramidDepth(Half(s), limit, remaining - 1)
  }

  lemma DepthStep(s: Size, limit: int, m: nat)
    requires m > 0 && Fits(s, limit)
    ensures PyramidDepth(s, limit, m) == 1 + PyramidDepth(Half(s), limit, m - 1)
  {
  }

  /**
   * The depth is the number of halvings that keep both sizes at or above the
   * limit, cut at the iteration budget: every level below it fits, and the
   * level at it either exhausts the budget or does not fit.
   */
  lemma {:induction false} DepthIsFirstMisfit(s: Size, limit: int, m: nat)
    ensures PyramidDepth(s, limit, m) <= m
    ensures forall k :: 0 <= k < PyramidDepth(s, limit, m) ==> Fits(HalveN(s, k), limit)
    ensures PyramidDepth(s, limit, m) == m || !Fits(HalveN(s, PyramidDepth(s, limit, m)), limit)
    decreases m
  {
    if m == 0 || !Fits(s, limit) {
      assert HalveN(s, 0) == s;
    } else {
      DepthIsFirstMisfit(Half(s), limit, m - 1);
      var n := PyramidDepth(s, limit, m);
      forall k | 0 <= k < n
        ensures Fits(HalveN(s, k), limit)
      {
        if k > 0 {
          assert HalveN(s, k) == HalveN(Half(s), k - 1);
        }
      }
      assert HalveN(s, n) == HalveN(Half(s), n - 1);
    }
  }

  /** When bloom proceeds the pyramid has at least one level: the first halving always fits. */
  lemma AtLeastOneLevel(bloom: BloomSettings, start: Size)
    requires bloom.maxIterations >= 0 && BloomProceeds(bloom, start)
    ensures PyramidDepth(Half(start), bloom.downscaleLimit, bloom.maxIterations) >= 1
  {
    var limit := bloom.downscaleLimit;
    assert start.width / 2 >= limit by {
      if limit > 0 {
        assert start.width >= 2 * limit;
      }
    }
    assert start.height / 2 >= limit by {
      if limit > 0 {
        assert start.height >= 2 * limit;
      }
    }
  }

  /**
   * A 1920x1080 camera at render scale 0.5 with at most 6 iterations and a
   * limit of 8: bloom starts at 480x270 and builds 5 levels, down to 15x8.
   */
  lemma HalfScaleScenario()
    ensures PyramidDepth(Half(Size(480, 270)), 8, 6) == 5
  {
    assert PyramidDepth(Size(7, 4), 8, 1) == 0;
    assert PyramidDepth(Size(15, 8), 8, 2) == 1;
    assert PyramidDepth(Size(30, 16), 8, 3) == 2;
    assert PyramidDepth(Size(60, 33), 8, 4) == 3;
    assert PyramidDepth(Size(120, 67), 8, 5) == 4;
  }

  /** Intensity while combining pyramid levels. */
  function CombineIntensity(bloom: BloomSettings): real {
    if bloom.mode == Additive then 1.0 else bloom.scatter
  }

  /** Intensity of the last combination with the source: scattering never exceeds 0.95. */
  function FinalIntensity(bloom: BloomSettings): (r: real)
    ensures bloom.mode == Additive ==> r == bloom.intensity
    ensures bloom.mode == Scattering ==> r <= 0.95 && r <= bloom.intensity
    ensures bloom.mode == Scattering ==> r == bloom.intensity || r == 0.95
  {
    if bloom.mode == Additive then bloom.intensity
    else if bloom.intensity < 0.95 then bloom.intensity else 0.95
  }

  function CombinePass(mode: BloomMode): Pass {
    if mode == Additive then BloomAdd else BloomScatter
  }

  function FinalPass(mode: BloomMode): Pass {
    if mode == Additive then BloomAdd else BloomScatterFinal
  }

  /** The pyramid texture the final bloom pass reads: level 0's first buffer, or its second when there is one level. */
  function TopOfPyramid(levels: nat): int {
    if levels == 1 then BloomPyramidId + 1 else BloomPyramidId
  }

  /** The last commands of a bloom run: the result is acquired at buffer size and the top of the pyramid released. */
  function BloomFinish(bloom: BloomSettings, source: Target, levels: nat, bufferSize: Size): seq<Command> {
    FinishCommands(FinalIntensity(bloom), source, TopOfPyramid(levels), FinalPass(bloom.mode), bufferSize)
  }

  /** `_BloomResult` at buffer size, drawn from the combined pyramid `top` with the source as second input. */
  function FinishCommands(intensity: real, source: Target, top: int, pass: Pass, bufferSize: Size): seq<Command> {
    [SetGlobalFloat(BloomIntensity, intensity), SetGlobalTexture(PostFXSource2, source),
     Acquire(BloomResultId, bufferSize.width, bufferSize.height)]
    + DrawCommands(Temp(top), Temp(BloomResultId), pass)
    + [Release(top)]
  }

  /** Ids bloom acquires, none of which may be alive when it starts. */
  predicate BloomIdsFree(live: set<int>) {
    BloomPrefilterId !in live && BloomResultId !in live && live !! PyramidRange(0, 2 * MaxBloomPyramidLevels)
  }

  /** The texture level `i` blurs: the prefilter for level 0, else the second texture of the level below. */
  function LevelSource(i: nat): int {
    if i == 0 then BloomPrefilterId else BloomPyramidId + 2 * i - 1
  }

  /** Pyramid level `i` at size `s`: two textures, a horizontal blur into the first and a vertical one into the second. */
  function LevelCommands(s: Size, i: nat): seq<Command>
    requires i < MaxBloomPyramidLevels
  {
    var from := LevelSource(i);
    [Acquire(PyramidId(2 * i), s.width, s.height), Acquire(PyramidId(2 * i + 1), s.width, s.height)]
    + DrawCommands(Temp(from), Temp(PyramidId(2 * i)), BloomHorizontal)
    + DrawCommands(Temp(PyramidId(2 * i)), Temp(PyramidId(2 * i + 1)), BloomVertical)
  }

  /** The first `k` pyramid levels, level `i` at `s` halved `i` times. */
  function DownsampleCommands(s: Size, k: nat): seq<Command>
    requires k <= MaxBloomPyramidLevels
  {
    if k == 0 then [] else DownsampleCommands(s, k - 1) + LevelCommands(HalveN(s, k - 1), k - 1)
  }

  lemma LevelShape(s: Size, i: nat, fromId: int)
    requires i < MaxBloomPyramidLevels
    requires fromId == LevelSource(i)
    ensures LevelCommands(s, i)
         == [Acquire(BloomPyramidId + 2 * i, s.width, s.height), Acquire(BloomPyramidId + 2 * i + 1, s.width, s.height)]
            + DrawCommands(Temp(fromId), Temp(BloomPyramidId + 2 * i), BloomHorizontal)
            + DrawCommands(Temp(BloomPyramidId + 2 * i), Temp(BloomPyramidId + 2 * i + 1), BloomVertical)
  {
  }

  /** The ledger across pyramid level `i`: its source is alive, its two ids are not, and afterwards both are. */
  lemma LevelLedger(base: set<int>, i: nat)
    requires i < MaxBloomPyramidLevels
    requires BloomPrefilterId in base && base !! PyramidRange(0, 2 * MaxBloomPyramidLevels)
    ensures LevelSource(i) in base + PyramidRange(0, 2 * i)
    ensures BloomPyramidId + 2 * i !in base + PyramidRange(0, 2 * i)
    ensures BloomPyramidId + 2 * i + 1 !in base + PyramidRange(0, 2 * i)
    ensures base + PyramidRange(0, 2 * i) + {BloomPyramidId + 2 * i} + {BloomPyramidId + 2 * i + 1}
         == base + PyramidRange(0, 2 * i + 2)
  {
    RangeGrows(2 * i);
    RangeGrows(2 * i + 1);
  }

  lemma DownsampleStep(s: Size, k: nat)
    requires k < MaxBloomPyramidLevels
    ensures DownsampleCommands(s, k + 1) == DownsampleCommands(s, k) + LevelCommands(HalveN(s, k), k)
  {
  }

  /**
   * The texture combined in while the upsampling counter is `i`: the second
   * texture of the top level at first, afterwards the result of the previous step.
   */
  function CombineSource(levels: nat, i: nat): int {
    if i + 1 == levels then BloomPyramidId + 2 * levels - 1 else BloomPyramidId + 2 * i
  }

  /** Combining into level `l`: its second texture is the other input; both inputs are released afterwards. */
  function CombineStep(levels: nat, l: nat, pass: Pass): seq<Command> {
    [SetGlobalTexture(PostFXSource2, Temp(BloomPyramidId + 2 * l + 1))]
    + DrawCommands(Temp(CombineSource(levels, l + 1)), Temp(BloomPyramidId + 2 * l), pass)
    + [Release(CombineSource(levels, l + 1)), Release(BloomPyramidId + 2 * l + 1)]
  }

  /** Combining levels `levels - 2` down to `l`, top to bottom. */
  function CombineCommands(levels: nat, l: nat, pass: Pass): seq<Command>
    decreases levels - l
  {
    if l + 1 >= levels then [] else CombineCommands(levels, l + 1, pass) + CombineStep(levels, l, pass)
  }

  /** The ledger of the upsampling loop at counter `i`: the levels above `i` are gone, the running result is alive. */
  function CombineLive(base: set<int>, levels: nat, i: nat): set<int> {
    (base - PyramidRange(2 * i, 2 * levels)) + {CombineSource(levels, i)}
  }

  /** The ledger as the upsampling loop ends: the whole pyramid has gone but for level 0's first texture. */
  lemma CombineEnd(base: set<int>, levels: nat)
    requires 2 <= levels
    ensures CombineLive(base, levels, 0) == (base - PyramidRange(0, 2 * levels)) + {BloomPyramidId}
  {
  }

  /** The ledger as the upsampling loop starts: only the unread texture of the top level has gone. */
  lemma CombineStart(live: set<int>, levels: nat)
    requires 2 <= levels
    requires BloomPyramidId + 2 * levels - 1 in live && BloomPyramidId + 2 * levels - 2 !in live
    ensures live == CombineLive(live, levels, levels - 1)
  {
    var lhs := (live - PyramidRange(2 * levels - 2, 2 * levels)) + {BloomPyramidId + 2 * levels - 1};
    assert forall id :: id in live <==> id in lhs;
  }

  /** One more upsampling step, in the order the loop records it. */
  lemma CombineUnfold(origin: seq<Command>, levels: nat, i: nat, pass: Pass)
    requires 1 <= i < levels
    ensures origin + CombineCommands(levels, i - 1, pass)
         == origin + CombineCommands(levels, i, pass)
            + [SetGlobalTexture(PostFXSource2, Temp(BloomPyramidId + 2 * i - 1))]
            + DrawCommands(Temp(CombineSource(levels, i)), Temp(BloomPyramidId + 2 * i - 2), pass)
            + [Release(CombineSource(levels, i))] + [Release(BloomPyramidId + 2 * i - 1)]
  {
    var set2 := [SetGlobalTexture(PostFXSource2, Temp(BloomPyramidId + 2 * i - 1))];
    var draw := DrawCommands(Temp(CombineSource(levels, i)), Temp(BloomPyramidId + 2 * i - 2), pass);
    var rel := [Release(CombineSource(levels, i)), Release(BloomPyramidId + 2 * i - 1)];
    assert CombineStep(levels, i - 1, pass) == set2 + draw + rel;
    assert CombineCommands(levels, i - 1, pass) == CombineCommands(levels, i, pass) + (set2 + draw + rel);
    assert rel == [Release(CombineSource(levels, i))] + [Release(BloomPyramidId + 2 * i - 1)];
  }

  /** The ledger across one upsampling step: both inputs go, the level below stays as the new running result. */
  lemma CombineLedger(base: set<int>, levels: nat, i: nat, fromId: int)
    requires 1 <= i < levels && fromId == CombineSource(levels, i)
    requires PyramidRange(0, 2 * levels - 2) <= base
    ensures BloomPyramidId + 2 * i - 1 in (base - PyramidRange(2 * i, 2 * levels)) + {fromId}
    ensures BloomPyramidId + 2 * i - 2 in (base - PyramidRange(2 * i, 2 * levels)) + {fromId}
    ensures fromId != BloomPyramidId + 2 * i - 1
    ensures ((base - PyramidRange(2 * i, 2 * levels)) + {fromId}) - {fromId} - {BloomPyramidId + 2 * i - 1}
         == (base - PyramidRange(2 * (i - 1), 2 * levels)) + {BloomPyramidId + 2 * i - 2}
  {
    var lhs := ((base - PyramidRange(2 * i, 2 * levels)) + {fromId}) - {fromId} - {BloomPyramidId + 2 * i - 1};
    var rhs := (base - PyramidRange(2 * (i - 1), 2 * levels)) + {BloomPyramidId + 2 * i - 2};
    assert BloomPyramidId + 2 * i - 2 in base;
    assert forall id :: id in lhs <==> id in rhs;
  }

  function PrefilterPass(fadeFireflies: bool): Pass {
    if fadeFireflies then BloomPrefilterFireflies else BloomPrefilter
  }

  /** The threshold, then the source filtered into `_BloomPrefilter` at the start size. */
  function PrefilterCommands(source: Target, start: Size, pass: Pass): seq<Command> {
    [SetGlobalVector(BloomThreshold), Acquire(BloomPrefilterId, start.width, start.height)]
    + DrawCommands(source, Temp(BloomPrefilterId), pass)
  }

  /** Between building and combining: the prefilter goes, the upsampling parameters are set. */
  function CombineSetup(bloom: BloomSettings): seq<Command> {
    [Release(BloomPrefilterId), SetGlobalFloat(BloomBicubicUpsampling, if bloom.bicubicUpsampling then 1.0 else 0.0),
     SetGlobalFloat(BloomIntensity, CombineIntensity(bloom))]
  }

  /** The ends of the pyramid once it is built: the second texture of the top level, or the unused first texture of a single level. */
  function PyramidRelease(levels: nat): seq<Command> {
    if levels > 1 then [Release(BloomPyramidId + 2 * levels - 2)] else [Release(BloomPyramidId)]
  }

  /** Folding the pyramid back to a single texture. */
  function CollapseCommands(levels: nat, pass: Pass): seq<Command> {
    PyramidRelease(levels) + CombineCommands(levels, 0, pass)
  }

  /** A collapse of several levels: one release, then the combining steps. */
  lemma CollapseSplit(origin: seq<Command>, levels: nat, pass: Pass)
    requires levels > 1
    ensures origin + CollapseCommands(levels, pass)
         == origin + [Release(BloomPyramidId + 2 * levels - 2)] + CombineCommands(levels, 0, pass)
  {
  }

  /** The ledger as the pyramid is collapsed: what the first release leaves and what the combining loop needs. */
  lemma CollapseLedger(live: set<int>, levels: nat)
    requires 1 <= levels <= MaxBloomPyramidLevels && PyramidRange(0, 2 * levels) <= live
    ensures levels > 1 ==>
      var rest := live - {BloomPyramidId + 2 * levels - 2};
      BloomPyramidId + 2 * levels - 2 in live
      && PyramidRange(0, 2 * levels - 2) <= rest && BloomPyramidId + 2 * levels - 1 in rest
      && BloomPyramidId + 2 * levels - 2 !in rest
      && (rest - PyramidRange(0, 2 * levels)) + {BloomPyramidId} == (live - PyramidRange(0, 2 * levels)) + {BloomPyramidId}
    ensures levels == 1 ==>
      BloomPyramidId in live && live - {BloomPyramidId} == (live - PyramidRange(0, 2)) + {BloomPyramidId + 1}
  {
    if levels == 1 {
      var lhs, rhs := live - {BloomPyramidId}, (live - PyramidRange(0, 2)) + {BloomPyramidId + 1};
      assert forall id :: id in lhs <==> id in rhs;
    } else {
      var rest := live - {BloomPyramidId + 2 * levels - 2};
      var lhs, rhs := rest - PyramidRange(0, 2 * levels), live - PyramidRange(0, 2 * levels);
      assert forall id :: id in lhs <==> id in rhs;
    }
  }

  /** Everything a bloom run records, given that it proceeds. */
  function BloomCommands(bloom: BloomSettings, source: Target, start: Size, bufferSize: Size): seq<Command>
    requires 0 <= bloom.maxIterations <= MaxBloomPyramidLevels
  {
    var levels := PyramidDepth(Half(start), bloom.downscaleLimit, bloom.maxIterations);
    assert levels <= MaxBloomPyramidLevels by {
      DepthIsFirstMisfit(Half(start), bloom.downscaleLimit, bloom.maxIterations);
    }
    PrefilterCommands(source, start, PrefilterPass(bloom.fadeFireflies))
    + DownsampleCommands(Half(start), levels)
    + CombineSetup(bloom)
    + CollapseCommands(levels, CombinePass(bloom.mode))
    + BloomFinish(bloom, source, levels, bufferSize)
  }

  /** `BloomCommands` in the order a bloom run records it, piece by piece. */
  lemma BloomShape(origin: seq<Command>, bloom: BloomSettings, source: Target, start: Size, bufferSize: Size)
    requires 0 <= bloom.maxIterations <= MaxBloomPyramidLevels
    ensures var levels := PyramidDepth(Half(start), bloom.downscaleLimit, bloom.maxIterations);
      levels <= MaxBloomPyramidLevels &&
      origin + BloomCommands(bloom, source, start, bufferSize)
      == origin + PrefilterCommands(source, start, PrefilterPass(bloom.fadeFireflies))
         + DownsampleCommands(Half(start), levels)
         + CombineSetup(bloom)
         + CollapseCommands(levels, CombinePass(bloom.mode))
         + BloomFinish(bloom, source, levels, bufferSize)
  {
    DepthIsFirstMisfit(Half(start), bloom.downscaleLimit, bloom.maxIterations);
  }

  /** The ledger across a whole bloom run: only `_BloomResult` is left behind. */
  lemma BloomLedger(base: set<int>, levels: nat, top: int)
    requires 1 <= levels <= MaxBloomPyramidLevels && top in PyramidRange(0, 2 * levels)
    requires BloomIdsFree(base)
    ensures var built := (base + {BloomPrefilterId}) + PyramidRange(0, 2 * levels);
      var collapsed := ((built - {BloomPrefilterId}) - PyramidRange(0, 2 * levels)) + {top};
      PyramidRange(0, 2 * levels) <= built - {BloomPrefilterId}
      && collapsed == base + {top} && (collapsed - {top}) + {BloomResultId} == base + {BloomResultId}
  {
    var built := (base + {BloomPrefilterId}) + PyramidRange(0, 2 * levels);
    var collapsed := ((built - {BloomPrefilterId}) - PyramidRange(0, 2 * levels)) + {top};
    assert forall id :: id in collapsed <==> id in base + {top};
    assert top !in base;
  }

  /** Ids the final pass acquires. */
  predicate FinalIdsFree(live: set<int>) {
    ColorGradingLUTId !in live && ColorGradingResultId !in live && FinalResultId !in live
  }

  // ---------------------------------------------------------------------------
  // Colour grading, FXAA and the final blit
  // ---------------------------------------------------------------------------

  /** What the final pass reads from the stack's fields. */
  datatype FinalConfig = FinalConfig(
    toneMapping: ToneMappingMode,
    useHDR: bool,
    keepAlpha: bool,
    fxaa: bool,
    quality: FXAAQuality,
    lutResolution: int,
    bufferSize: Size,
    pixelWidth: nat,
    bicubicRescaling: BicubicRescalingMode,
    blend: FinalBlendMode,
    fullRect: bool)

  /** Only the widths decide whether the final blit rescales. */
  predicate Rescales(c: FinalConfig) {
    c.bufferSize.width != c.pixelWidth
  }

  /** Bicubic sampling of the rescale: always for UpAndDown, only when scaling up for UpOnly. */
  predicate BicubicSampling(mode: BicubicRescalingMode, bufferWidth: nat, pixelWidth: nat) {
    mode == UpAndDown || (mode == UpOnly && bufferWidth < pixelWidth)
  }

  /** Baking the LUT: the parameter blocks, the LUT texture and the grading draw into it. */
  function GradingCommands(c: FinalConfig, source: Target): seq<Command> {
    ConfigureCommands + LUTCommands(c, source)
  }

  /**
   * The LUT, `lutResolution` squared wide and `lutResolution` high, baked from
   * the source with the tone-mapping pass; the final blend is reset to one-zero.
   */
  function LUTCommands(c: FinalConfig, source: Target): seq<Command> {
    [Acquire(ColorGradingLUTId, c.lutResolution * c.lutResolution, c.lutResolution)]
    + [SetGlobalVector(ColorGradingLUTParameters), SetGlobalFloat(ColorGradingLUTInLogC, LogCFlag(c.useHDR, c.toneMapping))]
    + DrawCommands(source, Temp(ColorGradingLUTId), GradingPass(c.toneMapping))
    + [SetGlobalVector(ColorGradingLUTParameters), SetGlobalFloat(FinalSrcBlend, 1.0), SetGlobalFloat(FinalDstBlend, 0.0)]
  }

  /** Whether the keyword stream `cs` leaves `k` enabled: the last command setting it decides. */
  function KeywordState(cs: seq<Command>, k: Keyword): Option<bool> {
    if cs == [] then None
    else if cs[|cs| - 1].SetKeyword? && cs[|cs| - 1].keyword == k then Some(cs[|cs| - 1].enabled)
    else KeywordState(cs[..|cs| - 1], k)
  }

  /**
   * The FXAA quality keywords, then the FXAA parameters. Both keywords are set,
   * and the one matching the quality, if any, is the only one left enabled.
   */
  function FXAACommands(q: FXAAQuality): (cs: seq<Command>)
    ensures KeywordState(cs, FXAAQualityLow) == Some(q == Low)
    ensures KeywordState(cs, FXAAQualityMedium) == Some(q == Medium)
    ensures |cs| == 3 && cs[2] == SetGlobalVector(FXAAConfig)
    ensures forall i :: 0 <= i < 2 ==> cs[i].SetKeyword?
  {
    var keywords := match q
      case Low => [SetKeyword(FXAAQualityLow, true), SetKeyword(FXAAQualityMedium, false)]
      case Medium => [SetKeyword(FXAAQualityMedium, true), SetKeyword(FXAAQualityLow, false)]
      case High => [SetKeyword(FXAAQualityMedium, false), SetKeyword(FXAAQualityLow, false)];
    KeywordsOfThree(keywords[0], keywords[1], SetGlobalVector(FXAAConfig), FXAAQualityLow);
    KeywordsOfThree(keywords[0], keywords[1], SetGlobalVector(FXAAConfig), FXAAQualityMedium);
    [keywords[0], keywords[1], SetGlobalVector(FXAAConfig)]
  }

  /** The keyword state left by two commands followed by one that sets no keyword. */
  lemma KeywordsOfThree(a: Command, b: Command, c: Command, k: Keyword)
    requires !c.SetKeyword?
    ensures KeywordState([a, b, c], k)
         == if b.SetKeyword? && b.keyword == k then Some(b.enabled)
            else if a.SetKeyword? && a.keyword == k then Some(a.enabled)
            else None
  {
    assert [a, b, c][..2] == [a, b];
    assert KeywordState([a, b, c], k) == KeywordState([a, b], k);
    assert [a, b][..1] == [a];
    assert KeywordState([a, b], k)
        == if b.SetKeyword? && b.keyword == k then Some(b.enabled) else KeywordState([a], k);
    assert [a][..0] == [];
    assert KeywordState([a], k) == if a.SetKeyword? && a.keyword == k then Some(a.enabled) else None;
  }

  /** With FXAA, grading first goes into an intermediate buffer, with luma in alpha unless alpha is kept. */
  function AntialiasCommands(c: FinalConfig, source: Target): seq<Command> {
    if c.fxaa then
      FXAACommands(c.quality)
      + [Acquire(ColorGradingResultId, c.bufferSize.width, c.bufferSize.height)]
      + DrawCommands(source, Temp(ColorGradingResultId),
                     if c.keepAlpha then ApplyColorGrading else ApplyColorGradingWithLuma)
    else []
  }

  /** Output: straight to the camera target, or through `_FinalResult` and a rescaling blit. */
  function OutputCommands(c: FinalConfig, source: Target): seq<Command> {
    if !Rescales(c) then
      if c.fxaa then
        DrawFinalCommands(c.blend, c.fullRect, Temp(ColorGradingResultId), if c.keepAlpha then FXAA else FXAAWithLuma)
        + [Release(ColorGradingResultId)]
      else
        DrawFinalCommands(c.blend, c.fullRect, source, ApplyColorGrading)
    else
      [Acquire(FinalResultId, c.bufferSize.width, c.bufferSize.height)] + IntoFinalResult(c, source)
      + [SetGlobalFloat(CopyBicubic, if BicubicSampling(c.bicubicRescaling, c.bufferSize.width, c.pixelWidth) then 1.0 else 0.0)]
      + DrawFinalCommands(c.blend, c.fullRect, Temp(FinalResultId), FinalRescale)
      + [Release(FinalResultId)]
  }

  /** When rescaling: the graded (and possibly antialiased) image drawn into `_FinalResult`. */
  function IntoFinalResult(c: FinalConfig, source: Target): seq<Command> {
    if c.fxaa then
      DrawCommands(Temp(ColorGradingResultId), Temp(FinalResultId), FXAA) + [Release(ColorGradingResultId)]
    else
      DrawCommands(source, Temp(FinalResultId), ApplyColorGrading)
  }

  /** Everything the final pass records, ending with the release of the LUT. */
  function FinalCommands(c: FinalConfig, source: Target): seq<Command> {
    GradingCommands(c, source) + AntialiasCommands(c, source) + OutputCommands(c, source)
    + [Release(ColorGradingLUTId)]
  }

  /** What `Render` records: bloom and the final pass on `_BloomResult`, or the final pass on the source alone. */
  function RenderCommands(c: FinalConfig, bloom: BloomSettings, start: Size, source: Target): seq<Command>
    requires 0 <= bloom.maxIterations <= MaxBloomPyramidLevels
  {
    if BloomProceeds(bloom, start) then
      BloomCommands(bloom, source, start, c.bufferSize) + FinalCommands(c, Temp(BloomResultId)) + [Release(BloomResultId)]
    else
      FinalCommands(c, source)
  }

  /** The final pass split at the steps `DoFinal` takes. */
  lemma FinalShape(origin: seq<Command>, c: FinalConfig, source: Target)
    ensures origin + FinalCommands(c, source)
         == origin + ConfigureCommands + LUTCommands(c, source) + AntialiasCommands(c, source)
            + OutputCommands(c, source) + [Release(ColorGradingLUTId)]
  {
  }

  /** The LUT bake split at its steps. */
  lemma LUTShape(origin: seq<Command>, c: FinalConfig, source: Target, flag: real)
    requires flag == LogCFlag(c.useHDR, c.toneMapping)
    ensures origin + LUTCommands(c, source)
         == origin + [Acquire(ColorGradingLUTId, c.lutResolution * c.lutResolution, c.lutResolution)]
            + [SetGlobalVector(ColorGradingLUTParameters)] + [SetGlobalFloat(ColorGradingLUTInLogC, flag)]
            + DrawCommands(source, Temp(ColorGradingLUTId), GradingPass(c.toneMapping))
            + [SetGlobalVector(ColorGradingLUTParameters)] + [SetGlobalFloat(FinalSrcBlend, 1.0)]
            + [SetGlobalFloat(FinalDstBlend, 0.0)]
  {
  }

  /** The ledger through the final pass: LUT, intermediate buffer and final result come and go. */
  lemma FinalLedger(live: set<int>)
    requires FinalIdsFree(live)
    ensures ColorGradingResultId !in live + {ColorGradingLUTId}
    ensures FinalResultId !in live + {ColorGradingLUTId} + {ColorGradingResultId}
    ensures FinalResultId !in live + {ColorGradingLUTId}
    ensures ColorGradingResultId in live + {ColorGradingLUTId} + {ColorGradingResultId}
    ensures (live + {ColorGradingLUTId} + {ColorGradingResultId}) - {ColorGradingResultId} == live + {ColorGradingLUTId}
    ensures ColorGradingLUTId in live + {ColorGradingLUTId}
    ensures (live + {ColorGradingLUTId}) - {ColorGradingLUTId} == live
  {
  }

  /** The ledger through the rescaling output: `_FinalResult` is released again. */
  lemma OutputLedger(live: set<int>)
    requires FinalResultId !in live
    ensures ColorGradingResultId in live ==> ColorGradingResultId in live + {FinalResultId}
    ensures ColorGradingResultId in live ==> FinalResultId in (live + {FinalResultId}) - {ColorGradingResultId}
    ensures ColorGradingResultId in live
        ==> ((live + {FinalResultId}) - {ColorGradingResultId}) - {FinalResultId} == live - {ColorGradingResultId}
    ensures FinalResultId in live + {FinalResultId}
    ensures (live + {FinalResultId}) - {FinalResultId} == live
  {
  }

  /** The ledger around the final pass on `_BloomResult`. */
  lemma RenderLedger(live: set<int>)
    requires BloomIdsFree(live) && FinalIdsFree(live)
    ensures FinalIdsFree(live + {BloomResultId})
    ensures BloomResultId in live + {BloomResultId}
    ensures (live + {BloomResultId}) - {BloomResultId} == live
  {
  }

  /** The direct output split at its steps. */
  lemma DirectShape(origin: seq<Command>, c: FinalConfig, source: Target)
    requires !Rescales(c)
    ensures c.fxaa ==> (origin + OutputCommands(c, source)
         == origin + DrawFinalCommands(c.blend, c.fullRect, Temp(ColorGradingResultId),
                                       if c.keepAlpha then FXAA else FXAAWithLuma)
            + [Release(ColorGradingResultId)])
    ensures !c.fxaa ==> (origin + OutputCommands(c, source)
         == origin + DrawFinalCommands(c.blend, c.fullRect, source, ApplyColorGrading))
  {
  }

  /** The rescaling output split at its steps. */
  lemma RescaleShape(origin: seq<Command>, c: FinalConfig, source: Target, bicubic: real)
    requires Rescales(c)
    requires bicubic == if BicubicSampling(c.bicubicRescaling, c.bufferSize.width, c.pixelWidth) then 1.0 else 0.0
    ensures c.fxaa ==> (origin + OutputCommands(c, source)
         == origin + [Acquire(FinalResultId, c.bufferSize.width, c.bufferSize.height)]
            + DrawCommands(Temp(ColorGradingResultId), Temp(FinalResultId), FXAA) + [Release(ColorGradingResultId)]
            + [SetGlobalFloat(CopyBicubic, bicubic)]
            + DrawFinalCommands(c.blend, c.fullRect, Temp(FinalResultId), FinalRescale)
            + [Release(FinalResultId)])
    ensures !c.fxaa ==> (origin + OutputCommands(c, source)
         == origin + [Acquire(FinalResultId, c.bufferSize.width, c.bufferSize.height)]
            + DrawCommands(source, Temp(FinalResultId), ApplyColorGrading)
            + [SetGlobalFloat(CopyBicubic, bicubic)]
            + DrawFinalCommands(c.blend, c.fullRect, Temp(FinalResultId), FinalRescale)
            + [Release(FinalResultId)])
  {
  }

  /** `Render` split at its steps. */
  lemma RenderShape(origin: seq<Command>, c: FinalConfig, bloom: BloomSettings, start: Size, source: Target)
    requires 0 <= bloom.maxIterations <= MaxBloomPyramidLevels && BloomProceeds(bloom, start)
    ensures origin + RenderCommands(c, bloom, start, source)
         == origin + BloomCommands(bloom, source, start, c.bufferSize) + FinalCommands(c, Temp(BloomResultId))
            + [Release(BloomResultId)]
  {
  }

  lemma DrawCollect<T>(from: Target, to: Target, pass: Pass, f: Command -> seq<T>)
    ensures Collect(DrawCommands(from, to, pass), f)
         == f(SetGlobalTexture(PostFXSource, from)) + f(SetRenderTarget(to, DontCare))
            + f(DrawProcedural(PostFXMaterial, Ordinal(pass)))
  {
    Collect3(SetGlobalTexture(PostFXSource, from), SetRenderTarget(to, DontCare),
             DrawProcedural(PostFXMaterial, Ordinal(pass)), f);
  }

  lemma DrawFinalCollect<T>(blend: FinalBlendMode, fullRect: bool, from: Target, pass: Pass, f: Command -> seq<T>)
    requires forall name, v :: f(SetGlobalFloat(name, v)) == []
    requires forall name, t :: f(SetGlobalTexture(name, t)) == []
    requires f(SetViewport) == []
    ensures Collect(DrawFinalCommands(blend, fullRect, from, pass), f)
         == f(SetRenderTarget(CameraTarget, FinalLoad(blend, fullRect)))
            + f(DrawProcedural(PostFXMaterial, Ordinal(pass)))
  {
    var a := [SetGlobalFloat(FinalSrcBlend, blend.source as real),
              SetGlobalFloat(FinalDstBlend, blend.destination as real),
              SetGlobalTexture(PostFXSource, from)];
    var b := [SetRenderTarget(CameraTarget, FinalLoad(blend, fullRect)),
              SetViewport, DrawProcedural(PostFXMaterial, Ordinal(pass))];
    assert DrawFinalCommands(blend, fullRect, from, pass) == a + b;
    CollectConcat(a, b, f);
    Collect3(a[0], a[1], a[2], f);
    Collect3(b[0], b[1], b[2], f);
  }

  /** A projection that ignores global parameters, viewports and releases of nothing it tracks. */
  ghost predicate IgnoresParameters<T>(f: Command -> seq<T>) {
    (forall name, v :: f(SetGlobalFloat(name, v)) == []) &&
    (forall name, t :: f(SetGlobalTexture(name, t)) == []) &&
    (forall name :: f(SetGlobalVector(name)) == []) &&
    (forall k, e :: f(SetKeyword(k, e)) == []) &&
    f(SetViewport) == []
  }

  lemma GradingCollect<T>(c: FinalConfig, source: Target, f: Command -> seq<T>)
    requires IgnoresParameters(f)
    ensures Collect(GradingCommands(c, source), f)
         == f(Acquire(ColorGradingLUTId, c.lutResolution * c.lutResolution, c.lutResolution))
            + f(SetRenderTarget(Temp(ColorGradingLUTId), DontCare))
            + f(DrawProcedural(PostFXMaterial, Ordinal(GradingPass(c.toneMapping))))
  {
    CollectNone(ConfigureCommands, f);
    CollectConcat(ConfigureCommands, LUTCommands(c, source), f);
    LUTCollect(c, source, f);
  }

  lemma LUTCollect<T>(c: FinalConfig, source: Target, f: Command -> seq<T>)
    requires IgnoresParameters(f)
    ensures Collect(LUTCommands(c, source), f)
         == f(Acquire(ColorGradingLUTId, c.lutResolution * c.lutResolution, c.lutResolution))
            + f(SetRenderTarget(Temp(ColorGradingLUTId), DontCare))
            + f(DrawProcedural(PostFXMaterial, Ordinal(GradingPass(c.toneMapping))))
  {
    var lut := c.lutResolution;
    var p1 := [Acquire(ColorGradingLUTId, lut * lut, lut)];
    var p2 := [SetGlobalVector(ColorGradingLUTParameters), SetGlobalFloat(ColorGradingLUTInLogC, LogCFlag(c.useHDR, c.toneMapping))];
    var p3 := DrawCommands(source, Temp(ColorGradingLUTId), GradingPass(c.toneMapping));
    var p4 := [SetGlobalVector(ColorGradingLUTParameters), SetGlobalFloat(FinalSrcBlend, 1.0), SetGlobalFloat(FinalDstBlend, 0.0)];
    var s2 := p1 + p2;
    assert Collect(s2, f) == f(p1[0]) by {
      CollectSingle(p1[0], f);
      CollectConcat(p1, p2, f);
      Collect2(p2[0], p2[1], f);
    }
    var s3 := s2 + p3;
    assert Collect(s3, f) == f(p1[0]) + f(p3[1]) + f(p3[2]) by {
      CollectConcat(s2, p3, f);
      DrawCollect(source, Temp(ColorGradingLUTId), GradingPass(c.toneMapping), f);
    }
    assert Collect(s3 + p4, f) == Collect(s3, f) by {
      CollectConcat(s3, p4, f);
      Collect3(p4[0], p4[1], p4[2], f);
    }
    assert LUTCommands(c, source) == s3 + p4;
  }


  lemma FinalCollect<T>(c: FinalConfig, source: Target, f: Command -> seq<T>, g: seq<T>, a: seq<T>, o: seq<T>,
                        whole: seq<T>)
    requires Collect(GradingCommands(c, source), f) == g
    requires Collect(AntialiasCommands(c, source), f) == a
    requires Collect(OutputCommands(c, source), f) == o
    requires whole == g + a + o + f(Release(ColorGradingLUTId))
    ensures Collect(FinalCommands(c, source), f) == whole
  {
    var gc, ac, oc := GradingCommands(c, source), AntialiasCommands(c, source), OutputCommands(c, source);
    CollectConcat(gc, ac, f);
    CollectConcat(gc + ac, oc, f);
    CollectConcat(gc + ac + oc, [Release(ColorGradingLUTId)], f);
    CollectSingle(Release(ColorGradingLUTId), f);
  }

  lemma AntialiasCollect<T>(c: FinalConfig, source: Target, f: Command -> seq<T>)
    requires IgnoresParameters(f)
    ensures Collect(AntialiasCommands(c, source), f)
         == if c.fxaa then
              f(Acquire(ColorGradingResultId, c.bufferSize.width, c.bufferSize.height))
              + f(SetRenderTarget(Temp(ColorGradingResultId), DontCare))
              + f(DrawProcedural(PostFXMaterial,
                                 Ordinal(if c.keepAlpha then ApplyColorGrading else ApplyColorGradingWithLuma)))
            else []
  {
    if c.fxaa {
      var pass := if c.keepAlpha then ApplyColorGrading else ApplyColorGradingWithLuma;
      var a := FXAACommands(c.quality);
      var b := [Acquire(ColorGradingResultId, c.bufferSize.width, c.bufferSize.height)];
      var d := DrawCommands(source, Temp(ColorGradingResultId), pass);
      CollectConcat(a, b, f);
      CollectConcat(a + b, d, f);
      Collect3(a[0], a[1], a[2], f);
      assert a == [a[0], a[1], a[2]];
      CollectSingle(b[0], f);
      DrawCollect(source, Temp(ColorGradingResultId), pass, f);
    } else {
      CollectNone([], f);
    }
  }

  lemma DirectCollect<T>(c: FinalConfig, source: Target, f: Command -> seq<T>)
    requires IgnoresParameters(f) && !Rescales(c)
    ensures Collect(OutputCommands(c, source), f)
         == f(SetRenderTarget(CameraTarget, FinalLoad(c.blend, c.fullRect)))
            + f(DrawProcedural(PostFXMaterial,
                               Ordinal(if !c.fxaa then ApplyColorGrading else if c.keepAlpha then FXAA else FXAAWithLuma)))
            + (if c.fxaa then f(Release(ColorGradingResultId)) else [])
  {
    var cgr := Temp(ColorGradingResultId);
    if c.fxaa {
      var pass := if c.keepAlpha then FXAA else FXAAWithLuma;
      DrawFinalCollect(c.blend, c.fullRect, cgr, pass, f);
      CollectConcat(DrawFinalCommands(c.blend, c.fullRect, cgr, pass), [Release(ColorGradingResultId)], f);
      CollectSingle(Release(ColorGradingResultId), f);
    } else {
      DrawFinalCollect(c.blend, c.fullRect, source, ApplyColorGrading, f);
    }
  }

  lemma IntoFinalResultCollect<T>(c: FinalConfig, source: Target, f: Command -> seq<T>)
    requires IgnoresParameters(f)
    ensures Collect(IntoFinalResult(c, source), f)
         == f(SetRenderTarget(Temp(FinalResultId), DontCare))
            + f(DrawProcedural(PostFXMaterial, Ordinal(if c.fxaa then FXAA else ApplyColorGrading)))
            + (if c.fxaa then f(Release(ColorGradingResultId)) else [])
  {
    var cgr, fr := Temp(ColorGradingResultId), Temp(FinalResultId);
    if c.fxaa {
      DrawCollect(cgr, fr, FXAA, f);
      CollectConcat(DrawCommands(cgr, fr, FXAA), [Release(ColorGradingResultId)], f);
      CollectSingle(Release(ColorGradingResultId), f);
    } else {
      DrawCollect(source, fr, ApplyColorGrading, f);
    }
  }

  lemma RescaleCollect<T>(c: FinalConfig, source: Target, f: Command -> seq<T>)
    requires IgnoresParameters(f) && Rescales(c)
    ensures Collect(OutputCommands(c, source), f)
         == f(Acquire(FinalResultId, c.bufferSize.width, c.bufferSize.height))
            + (f(SetRenderTarget(Temp(FinalResultId), DontCare))
               + f(DrawProcedural(PostFXMaterial, Ordinal(if c.fxaa then FXAA else ApplyColorGrading)))
               + (if c.fxaa then f(Release(ColorGradingResultId)) else []))
            + (f(SetRenderTarget(CameraTarget, FinalLoad(c.blend, c.fullRect)))
               + f(DrawProcedural(PostFXMaterial, Ordinal(FinalRescale))))
            + f(Release(FinalResultId))
  {
    var a := [Acquire(FinalResultId, c.bufferSize.width, c.bufferSize.height)];
    var b := IntoFinalResult(c, source);
    var d := [SetGlobalFloat(CopyBicubic,
                             if BicubicSampling(c.bicubicRescaling, c.bufferSize.width, c.pixelWidth) then 1.0 else 0.0)];
    var e := DrawFinalCommands(c.blend, c.fullRect, Temp(FinalResultId), FinalRescale);
    var r := [Release(FinalResultId)];
    var ca, cb := Collect(a, f), Collect(b, f);
    assert Collect(a + b, f) == ca + cb by {
      CollectConcat(a, b, f);
    }
    assert Collect(a + b + d, f) == ca + cb by {
      CollectConcat(a + b, d, f);
      CollectSingle(d[0], f);
    }
    var ce := Collect(e, f);
    assert Collect(a + b + d + e, f) == ca + cb + ce by {
      CollectConcat(a + b + d, e, f);
    }
    assert Collect(a + b + d + e + r, f) == ca + cb + ce + f(r[0]) by {
      CollectConcat(a + b + d + e, r, f);
      CollectSingle(r[0], f);
    }
    assert ca == f(a[0]) by {
      CollectSingle(a[0], f);
    }
    IntoFinalResultCollect(c, source, f);
    DrawFinalCollect(c.blend, c.fullRect, Temp(FinalResultId), FinalRescale, f);
    assert OutputCommands(c, source) == a + b + d + e + r;
  }

  lemma OutputCollect<T>(c: FinalConfig, source: Target, f: Command -> seq<T>)
    requires IgnoresParameters(f)
    ensures !Rescales(c) ==>
      Collect(OutputCommands(c, source), f)
      == f(SetRenderTarget(CameraTarget, FinalLoad(c.blend, c.fullRect)))
         + f(DrawProcedural(PostFXMaterial,
                            Ordinal(if !c.fxaa then ApplyColorGrading else if c.keepAlpha then FXAA else FXAAWithLuma)))
         + (if c.fxaa then f(Release(ColorGradingResultId)) else [])
    ensures Rescales(c) ==>
      Collect(OutputCommands(c, source), f)
      == f(Acquire(FinalResultId, c.bufferSize.width, c.bufferSize.height))
         + (f(SetRenderTarget(Temp(FinalResultId), DontCare))
            + f(DrawProcedural(PostFXMaterial, Ordinal(if c.fxaa then FXAA else ApplyColorGrading)))
            + (if c.fxaa then f(Release(ColorGradingResultId)) else []))
         + (f(SetRenderTarget(CameraTarget, FinalLoad(c.blend, c.fullRect)))
            + f(DrawProcedural(PostFXMaterial, Ordinal(FinalRescale))))
         + f(Release(FinalResultId))
  {
    if Rescales(c) {
      RescaleCollect(c, source, f);
    } else {
      DirectCollect(c, source, f);
    }
  }

  lemma OutputAcquisitions(c: FinalConfig, source: Target)
    ensures Collect(OutputCommands(c, source), AcquiredId)
         == (if Rescales(c) then [FinalResultId] else [])
  {
    assert IgnoresParameters(AcquiredId);
    OutputCollect(c, source, AcquiredId);
  }

  lemma OutputReleases(c: FinalConfig, source: Target)
    ensures Collect(OutputCommands(c, source), ReleasedId)
         == (if c.fxaa then [ColorGradingResultId] else []) + (if Rescales(c) then [FinalResultId] else [])
  {
    assert IgnoresParameters(ReleasedId);
    OutputCollect(c, source, ReleasedId);
  }

  lemma OutputTargets(c: FinalConfig, source: Target)
    ensures Collect(OutputCommands(c, source), BoundTarget)
         == (if Rescales(c) then [Temp(FinalResultId), CameraTarget] else [CameraTarget])
  {
    if Rescales(c) {
      RescaledOutputTargets(c, source);
    } else {
      DirectOutputTargets(c, source);
    }
  }

  lemma RescaledOutputTargets(c: FinalConfig, source: Target)
    requires Rescales(c)
    ensures Collect(OutputCommands(c, source), BoundTarget) == [Temp(FinalResultId), CameraTarget]
  {
    assert IgnoresParameters(BoundTarget);
    RescaleCollect(c, source, BoundTarget);
  }

  lemma DirectOutputTargets(c: FinalConfig, source: Target)
    requires !Rescales(c)
    ensures Collect(OutputCommands(c, source), BoundTarget) == [CameraTarget]
  {
    assert IgnoresParameters(BoundTarget);
    DirectCollect(c, source, BoundTarget);
  }

  lemma OutputPasses(c: FinalConfig, source: Target)
    ensures Collect(OutputCommands(c, source), DrawnPass(PostFXMaterial))
         == (if !Rescales(c) then
                 [Ordinal(if !c.fxaa then ApplyColorGrading else if c.keepAlpha then FXAA else FXAAWithLuma)]
               else
                 [Ordinal(if c.fxaa then FXAA else ApplyColorGrading), Ordinal(FinalRescale)])
  {
    assert IgnoresParameters(DrawnPass(PostFXMaterial));
    OutputCollect(c, source, DrawnPass(PostFXMaterial));
  }

  lemma AntialiasTargets(c: FinalConfig, source: Target)
    ensures Collect(AntialiasCommands(c, source), BoundTarget) == (if c.fxaa then [Temp(ColorGradingResultId)] else [])
  {
    assert IgnoresParameters(BoundTarget);
    AntialiasCollect(c, source, BoundTarget);
  }

  lemma AntialiasPasses(c: FinalConfig, source: Target)
    ensures Collect(AntialiasCommands(c, source), DrawnPass(PostFXMaterial)) == (if c.fxaa then [Ordinal(if c.keepAlpha then ApplyColorGrading else ApplyColorGradingWithLuma)] else [])
  {
    assert IgnoresParameters(DrawnPass(PostFXMaterial));
    AntialiasCollect(c, source, DrawnPass(PostFXMaterial));
  }

  lemma GradingAcquisitions(c: FinalConfig, source: Target)
    ensures Collect(GradingCommands(c, source), AcquiredId) == [ColorGradingLUTId]
  {
    assert IgnoresParameters(AcquiredId);
    GradingCollect(c, source, AcquiredId);
  }

  lemma GradingReleases(c: FinalConfig, source: Target)
    ensures Collect(GradingCommands(c, source), ReleasedId) == []
  {
    assert IgnoresParameters(ReleasedId);
    GradingCollect(c, source, ReleasedId);
  }

  lemma GradingPasses(c: FinalConfig, source: Target)
    ensures Collect(GradingCommands(c, source), DrawnPass(PostFXMaterial)) == [Ordinal(GradingPass(c.toneMapping))]
  {
    assert IgnoresParameters(DrawnPass(PostFXMaterial));
    GradingCollect(c, source, DrawnPass(PostFXMaterial));
  }

  lemma AntialiasAcquisitions(c: FinalConfig, source: Target)
    ensures Collect(AntialiasCommands(c, source), AcquiredId) == if c.fxaa then [ColorGradingResultId] else []
  {
    assert IgnoresParameters(AcquiredId);
    AntialiasCollect(c, source, AcquiredId);
  }

  lemma AntialiasReleases(c: FinalConfig, source: Target)
    ensures Collect(AntialiasCommands(c, source), ReleasedId) == []
  {
    assert IgnoresParameters(ReleasedId);
    AntialiasCollect(c, source, ReleasedId);
  }

  lemma GradingTargets(c: FinalConfig, source: Target)
    ensures Collect(GradingCommands(c, source), BoundTarget) == [Temp(ColorGradingLUTId)]
  {
    assert IgnoresParameters(BoundTarget);
    GradingCollect(c, source, BoundTarget);
  }

  /** Textures acquired by the final pass, in order: the LUT, the FXAA buffer iff FXAA, the rescale buffer iff rescaling. */
  lemma FinalAcquisitions(c: FinalConfig, source: Target)
    ensures Collect(FinalCommands(c, source), AcquiredId)
         == [ColorGradingLUTId] + (if c.fxaa then [ColorGradingResultId] else [])
            + (if Rescales(c) then [FinalResultId] else [])
  {
    var f := AcquiredId;
    var a := if c.fxaa then [ColorGradingResultId] else [];
    var o := if Rescales(c) then [FinalResultId] else [];
    GradingAcquisitions(c, source);
    AntialiasAcquisitions(c, source);
    OutputAcquisitions(c, source);
    assert [ColorGradingLUTId] + a + o == [ColorGradingLUTId] + a + o + f(Release(ColorGradingLUTId));
    FinalCollect(c, source, f, [ColorGradingLUTId], a, o, [ColorGradingLUTId] + a + o);
  }

  /** Textures released by the final pass, in order; together with the acquisitions each is released once. */
  lemma FinalReleases(c: FinalConfig, source: Target)
    ensures Collect(FinalCommands(c, source), ReleasedId)
         == (if c.fxaa then [ColorGradingResultId] else []) + (if Rescales(c) then [FinalResultId] else [])
            + [ColorGradingLUTId]
  {
    var f := ReleasedId;
    var o := (if c.fxaa then [ColorGradingResultId] else []) + (if Rescales(c) then [FinalResultId] else []);
    GradingReleases(c, source);
    AntialiasReleases(c, source);
    OutputReleases(c, source);
    assert o + [ColorGradingLUTId] == [] + [] + o + f(Release(ColorGradingLUTId));
    FinalCollect(c, source, f, [], [], o, o + [ColorGradingLUTId]);
  }

  /**
   * Render targets bound by the final pass, in order: the camera target is
   * bound exactly once, last.
   */
  lemma FinalTargets(c: FinalConfig, source: Target)
    ensures Collect(FinalCommands(c, source), BoundTarget)
         == [Temp(ColorGradingLUTId)] + (if c.fxaa then [Temp(ColorGradingResultId)] else [])
            + (if Rescales(c) then [Temp(FinalResultId), CameraTarget] else [CameraTarget])
  {
    var f := BoundTarget;
    var a := if c.fxaa then [Temp(ColorGradingResultId)] else [];
    var o := if Rescales(c) then [Temp(FinalResultId), CameraTarget] else [CameraTarget];
    GradingTargets(c, source);
    AntialiasTargets(c, source);
    OutputTargets(c, source);
    assert [Temp(ColorGradingLUTId)] + a + o == [Temp(ColorGradingLUTId)] + a + o + f(Release(ColorGradingLUTId));
    FinalCollect(c, source, f, [Temp(ColorGradingLUTId)], a, o, [Temp(ColorGradingLUTId)] + a + o);
  }

  /**
   * Passes drawn by the final pass, in order. The rescale path draws `FXAA`
   * even when the graded buffer was written by `ApplyColorGradingWithLuma`.
   */
  lemma FinalPasses(c: FinalConfig, source: Target)
    ensures Collect(FinalCommands(c, source), DrawnPass(PostFXMaterial))
         == [Ordinal(GradingPass(c.toneMapping))]
            + (if c.fxaa then [Ordinal(if c.keepAlpha then ApplyColorGrading else ApplyColorGradingWithLuma)] else [])
            + (if !Rescales(c) then
                 [Ordinal(if !c.fxaa then ApplyColorGrading else if c.keepAlpha then FXAA else FXAAWithLuma)]
               else
                 [Ordinal(if c.fxaa then FXAA else ApplyColorGrading), Ordinal(FinalRescale)])
  {
    var f := DrawnPass(PostFXMaterial);
    var g := [Ordinal(GradingPass(c.toneMapping))];
    var a := if c.fxaa then [Ordinal(if c.keepAlpha then ApplyColorGrading else ApplyColorGradingWithLuma)] else [];
    var o := if !Rescales(c) then
               [Ordinal(if !c.fxaa then ApplyColorGrading else if c.keepAlpha then FXAA else FXAAWithLuma)]
             else
               [Ordinal(if c.fxaa then FXAA else ApplyColorGrading), Ordinal(FinalRescale)];
    GradingPasses(c, source);
    AntialiasPasses(c, source);
    OutputPasses(c, source);
    assert g + a + o == g + a + o + f(Release(ColorGradingLUTId));
    FinalCollect(c, source, f, g, a, o, g + a + o);
  }

  /** Releasing the bloom result after the final pass binds no further target. */
  lemma ReleaseBindsNothing(pre: seq<Command>, fin: seq<Command>)
    ensures Collect(pre + fin + [Release(BloomResultId)], BoundTarget)
         == Collect(pre, BoundTarget) + Collect(fin, BoundTarget)
  {
    CollectConcat(pre + fin, [Release(BloomResultId)], BoundTarget);
    CollectConcat(pre, fin, BoundTarget);
    CollectSingle(Release(BloomResultId), BoundTarget);
  }

  /** Whether or not bloom runs, the last target the stack binds is the camera target. */
  lemma RenderEndsAtCamera(c: FinalConfig, bloom: BloomSettings, start: Size, source: Target)
    requires 0 <= bloom.maxIterations <= MaxBloomPyramidLevels
    ensures var targets := Collect(RenderCommands(c, bloom, start, source), BoundTarget);
            |targets| > 0 && targets[|targets| - 1] == CameraTarget
  {
    if BloomProceeds(bloom, start) {
      FinalEndsAtCamera(c, Temp(BloomResultId));
      ReleaseKeepsLastTarget(BloomCommands(bloom, source, start, c.bufferSize), FinalCommands(c, Temp(BloomResultId)));
    } else {
      FinalEndsAtCamera(c, source);
    }
  }

  /** The final pass ends drawing into the camera target. */
  lemma FinalEndsAtCamera(c: FinalConfig, source: Target)
    ensures var targets := Collect(FinalCommands(c, source), BoundTarget);
            |targets| > 0 && targets[|targets| - 1] == CameraTarget
  {
    FinalTargets(c, source);
  }

  /** Work recorded before, and the release of the bloom result after, leave the last bound target as it is. */
  lemma ReleaseKeepsLastTarget(pre: seq<Command>, fin: seq<Command>)
    requires var targets := Collect(fin, BoundTarget); |targets| > 0 && targets[|targets| - 1] == CameraTarget
    ensures var targets := Collect(pre + fin + [Release(BloomResultId)], BoundTarget);
            |targets| > 0 && targets[|targets| - 1] == CameraTarget
  {
    ReleaseBindsNothing(pre, fin);
  }


  // ---------------------------------------------------------------------------
  // The stack
  // ---------------------------------------------------------------------------

  /** Post-FX applies to game and scene-view cameras only (`cameraType <= SceneView`). */
  predicate KeepsPostFX(t: CameraType) {
    CameraTypeValue(t) <= CameraTypeValue(SceneView)
  }

  lemma KeepsPostFXCameras(t: CameraType)
    ensures KeepsPostFX(t) <==> t == Game || t == SceneView
  {
  }

  class PostFXStack {
    var settings: Option<PostFXSettings>
    var keepAlpha: bool
    var useHDR: bool
    var bicubicRescaling: BicubicRescalingMode
    var fxaa: FXAASettings
    var colorLUTResolution: int
    var bufferSize: Size
    var camera: Camera
    var finalBlendMode: FinalBlendMode

    constructor ()
      ensures settings == None
    {
      settings := None;
      keepAlpha, useHDR := false, false;
      bicubicRescaling := Off;
      fxaa := FXAASettings(false, Low);
      colorLUTResolution := 0;
      bufferSize := Size(0, 0);
      camera := Camera(Game, 0, 0, true, false, Skybox, 0.0);
      finalBlendMode := FinalBlendMode(BlendOne, BlendZero);
    }

    predicate IsActive()
      reads this
    {
      settings.Some?
    }

    /** Takes over the camera's per-frame state; settings are dropped for cameras other than game and scene view. */
    method Setup(camera: Camera, bufferSize: Size, settings: Option<PostFXSettings>, keepAlpha: bool,
                 useHDR: bool, colorLUTResolution: int, finalBlendMode: FinalBlendMode,
                 bicubicRescaling: BicubicRescalingMode, fxaa: FXAASettings)
      modifies this
      ensures this.settings == if KeepsPostFX(camera.cameraType) then settings else None
      ensures IsActive() <==> settings.Some? && (camera.cameraType == Game || camera.cameraType == SceneView)
      ensures this.camera == camera && this.bufferSize == bufferSize && this.keepAlpha == keepAlpha
      ensures this.useHDR == useHDR && this.colorLUTResolution == colorLUTResolution
      ensures this.finalBlendMode == finalBlendMode && this.bicubicRescaling == bicubicRescaling
      ensures this.fxaa == fxaa
    {
      this.fxaa := fxaa;
      this.bicubicRescaling := bicubicRescaling;
      this.bufferSize := bufferSize;
      this.finalBlendMode := finalBlendMode;
      this.colorLUTResolution := colorLUTResolution;
      this.keepAlpha := keepAlpha;
      this.useHDR := useHDR;
      this.camera := camera;
      this.settings := if CameraTypeValue(camera.cameraType) <= CameraTypeValue(SceneView) then settings else None;
    }

    /** What the final pass reads from the fields. */
    function Config(): FinalConfig
      reads this
      requires settings.Some?
    {
      FinalConfig(settings.value.toneMapping, useHDR, keepAlpha, fxaa.enabled, fxaa.quality, colorLUTResolution,
                  bufferSize, camera.pixelWidth, bicubicRescaling, finalBlendMode, camera.fullRect)
    }

    method Draw(log: CommandLog, from: Target, to: Target, pass: Pass)
      requires log.Valid() && Readable(log.live, from) && Readable(log.live, to)
      modifies log
      ensures log.Valid() && log.live == old(log.live)
      ensures log.commands == old(log.commands) + DrawCommands(from, to, pass)
    {
      log.Append(SetGlobalTexture(PostFXSource, from));
      log.Append(SetRenderTarget(to, DontCare));
      log.Append(DrawProcedural(PostFXMaterial, Ordinal(pass)));
    }

    method DrawFinal(log: CommandLog, from: Target, pass: Pass)
      requires log.Valid() && Readable(log.live, from)
      modifies log
      ensures log.Valid() && log.live == old(log.live)
      ensures log.commands == old(log.commands) + DrawFinalCommands(finalBlendMode, camera.fullRect, from, pass)
    {
      log.Append(SetGlobalFloat(FinalSrcBlend, finalBlendMode.source as real));
      log.Append(SetGlobalFloat(FinalDstBlend, finalBlendMode.destination as real));
      log.Append(SetGlobalTexture(PostFXSource, from));
      log.Append(SetRenderTarget(CameraTarget, FinalLoad(finalBlendMode, camera.fullRect)));
      log.Append(SetViewport);
      log.Append(DrawProcedural(PostFXMaterial, Ordinal(pass)));
      DrawFinalShape(old(log.commands), finalBlendMode, camera.fullRect, from, pass);
    }

    /**
     * The state of the downsampling loop once `i` levels are built, `origin`
     * and `base` being the stream and the ledger before the first one.
     */
    ghost predicate Downsampled(log: CommandLog, s: Size, i: nat, fromId: int, toId: int, width: nat, height: nat,
                                origin: seq<Command>, base: set<int>)
      reads log
    {
      i <= MaxBloomPyramidLevels && Size(width, height) == HalveN(s, i)
      && toId == BloomPyramidId + 2 * i + 1 && fromId == LevelSource(i)
      && log.Valid() && log.live == base + PyramidRange(0, 2 * i)
      && log.commands == origin + DownsampleCommands(s, i)
    }

    /** Pyramid level `i` at size `size`, blurred from the texture `fromId`. */
    method RecordLevel(log: CommandLog, size: Size, i: nat, fromId: int, toId: int)
      requires i < MaxBloomPyramidLevels && fromId == LevelSource(i) && toId == BloomPyramidId + 2 * i + 1
      requires log.Valid() && fromId in log.live && toId - 1 !in log.live && toId !in log.live
      modifies log
      ensures log.Valid() && log.live == old(log.live) + {BloomPyramidId + 2 * i} + {BloomPyramidId + 2 * i + 1}
      ensures log.commands == old(log.commands) + LevelCommands(size, i)
    {
      var midId := toId - 1;
      log.Append(Acquire(midId, size.width, size.height));
      log.Append(Acquire(toId, size.width, size.height));
      Draw(log, Temp(fromId), Temp(midId), BloomHorizontal);
      Draw(log, Temp(midId), Temp(toId), BloomVertical);
      LevelShape(size, i, fromId);
    }

    /**
     * One iteration of the downsampling loop: both textures of level `i`
     * acquired at the current size, a horizontal blur into the first and a
     * vertical one into the second, then the size halved.
     */
    method BlurLevel(log: CommandLog, s: Size, i: nat, fromId: int, toId: int, width: nat, height: nat,
                     ghost origin: seq<Command>, ghost base: set<int>)
      returns (i': nat, fromId': int, toId': int, width': nat, height': nat)
      requires i < MaxBloomPyramidLevels && Downsampled(log, s, i, fromId, toId, width, height, origin, base)
      requires BloomPrefilterId in base && base !! PyramidRange(0, 2 * MaxBloomPyramidLevels)
      modifies log
      ensures i' == i + 1 && Downsampled(log, s, i', fromId', toId', width', height', origin, base)
    {
      LevelLedger(base, i);
      RecordLevel(log, Size(width, height), i, fromId, toId);
      DownsampleStep(s, i);
      HalveNSucc(s, i);
      fromId' := toId;
      toId' := toId + 2;
      width', height' := width / 2, height / 2;
      i' := i + 1;
    }

    /**
     * The downsampling loop of `DoBloom`, from the first level's size `s`:
     * it stops when the iteration budget is spent or a side falls below the limit.
     */
    method BuildPyramid(log: CommandLog, s: Size, limit: int, maxIterations: int)
      returns (levels: nat, fromId: int, toId: int)
      requires log.Valid() && 0 <= maxIterations <= MaxBloomPyramidLevels
      requires BloomPrefilterId in log.live && log.live !! PyramidRange(0, 2 * MaxBloomPyramidLevels)
      modifies log
      ensures levels == PyramidDepth(s, limit, maxIterations) && levels <= maxIterations
      ensures fromId == LevelSource(levels) && toId == BloomPyramidId + 2 * levels + 1
      ensures log.Valid() && log.live == old(log.live) + PyramidRange(0, 2 * levels)
      ensures log.commands == old(log.commands) + DownsampleCommands(s, levels)
    {
      var width: nat, height: nat := s.width, s.height;
      fromId := BloomPrefilterId;
      toId := BloomPyramidId + 1;
      var i: nat := 0;
      ghost var depth := PyramidDepth(s, limit, maxIterations);
      DepthIsFirstMisfit(s, limit, maxIterations);
      while i < maxIterations
        invariant i <= maxIterations && i <= depth
        invariant Downsampled(log, s, i, fromId, toId, width, height, old(log.commands), old(log.live))
      {
        if height < limit || width < limit {
          break;
        }
        i, fromId, toId, width, height := BlurLevel(log, s, i, fromId, toId, width, height, old(log.commands), old(log.live));
      }
      levels := i;
    }

    /**
     * The state of the upsampling loop at counter `i`: the levels above `i`
     * are folded into `fromId`, and the commands so far are the top steps.
     */
    ghost predicate Combining(log: CommandLog, levels: nat, i: nat, fromId: int, toId: int, pass: Pass,
                              origin: seq<Command>, base: set<int>)
      reads log
    {
      i < levels && fromId == CombineSource(levels, i) && toId == BloomPyramidId + 2 * i - 2
      && log.Valid() && log.live == CombineLive(base, levels, i)
      && log.commands == origin + CombineCommands(levels, i, pass)
    }

    /**
     * One step of the upsampling loop of `DoBloom` at counter `i`: the level
     * below is combined with the running result, and both inputs are released.
     */
    method CombineLevel(log: CommandLog, levels: nat, i: nat, fromId: int, toId: int, pass: Pass,
                        ghost origin: seq<Command>, ghost base: set<int>)
      requires 1 <= i < levels <= MaxBloomPyramidLevels
      requires fromId == CombineSource(levels, i) && toId == BloomPyramidId + 2 * i - 2
      requires PyramidRange(0, 2 * levels - 2) <= base
      requires log.Valid() && log.live == (base - PyramidRange(2 * i, 2 * levels)) + {fromId}
      requires log.commands == origin + CombineCommands(levels, i, pass)
      modifies log
      ensures log.Valid() && log.live == (base - PyramidRange(2 * (i - 1), 2 * levels)) + {toId}
      ensures log.commands == origin + CombineCommands(levels, i - 1, pass)
    {
      CombineLedger(base, levels, i, fromId);
      log.Append(SetGlobalTexture(PostFXSource2, Temp(toId + 1)));
      Draw(log, Temp(fromId), Temp(toId), pass);
      log.Append(Release(fromId));
      log.Append(Release(toId + 1));
      CombineUnfold(origin, levels, i, pass);
    }

    /** One iteration of the upsampling loop, from the loop state at `i` to the loop state at `i - 1`. */
    method CombineNext(log: CommandLog, levels: nat, i: nat, fromId: int, toId: int, pass: Pass,
                       ghost origin: seq<Command>, ghost base: set<int>) returns (nextFrom: int, nextTo: int)
      requires 1 <= i && levels <= MaxBloomPyramidLevels && PyramidRange(0, 2 * levels - 2) <= base
      requires Combining(log, levels, i, fromId, toId, pass, origin, base)
      modifies log
      ensures Combining(log, levels, i - 1, nextFrom, nextTo, pass, origin, base)
    {
      CombineLevel(log, levels, i, fromId, toId, pass, origin, base);
      nextFrom, nextTo := toId, toId - 2;
    }

    /** The upsampling loop of `DoBloom`, for a pyramid of at least two levels; it ends at level 0's first texture. */
    method CombinePyramid(log: CommandLog, levels: nat, top: int, below: int, pass: Pass) returns (fromId: int)
      requires 2 <= levels <= MaxBloomPyramidLevels
      requires top == BloomPyramidId + 2 * levels - 1 && below == BloomPyramidId + 2 * levels - 4
      requires log.Valid() && PyramidRange(0, 2 * levels - 2) <= log.live
      requires top in log.live && BloomPyramidId + 2 * levels - 2 !in log.live
      modifies log
      ensures fromId == BloomPyramidId
      ensures log.Valid() && log.live == (old(log.live) - PyramidRange(0, 2 * levels)) + {BloomPyramidId}
      ensures log.commands == old(log.commands) + CombineCommands(levels, 0, pass)
    {
      ghost var origin, base := log.commands, log.live;
      fromId := top;
      var toId := below;
      var i: nat := levels - 1;
      CombineStart(base, levels);
      assert log.commands == origin + CombineCommands(levels, i, pass);
      while i > 0
        invariant Combining(log, levels, i, fromId, toId, pass, origin, base)
      {
        fromId, toId := CombineNext(log, levels, i, fromId, toId, pass, origin, base);
        i := i - 1;
      }
      CombineEnd(base, levels);
    }

    /**
     * After the pyramid of `levels` levels is built: release the texture the
     * upsampling does not read, then combine the levels from the top down.
     * Answers the texture holding the combined pyramid.
     */
    method CollapsePyramid(log: CommandLog, levels: nat, fromId: int, toId: int, combinePass: Pass) returns (top: int)
      requires 1 <= levels <= MaxBloomPyramidLevels
      requires fromId == LevelSource(levels) && toId == BloomPyramidId + 2 * levels + 1
      requires log.Valid() && PyramidRange(0, 2 * levels) <= log.live
      modifies log
      ensures top == TopOfPyramid(levels)
      ensures log.Valid() && log.live == (old(log.live) - PyramidRange(0, 2 * levels)) + {top}
      ensures log.commands == old(log.commands) + CollapseCommands(levels, combinePass)
    {
      CollapseLedger(log.live, levels);
      if levels > 1 {
        top := ReleaseAndCombine(log, levels, fromId, combinePass);
      } else {
        log.Append(Release(BloomPyramidId));
        top := fromId;
        assert CollapseCommands(levels, combinePass) == [Release(BloomPyramidId)];
      }
    }

    /** The collapse of a pyramid of several levels. */
    method ReleaseAndCombine(log: CommandLog, levels: nat, fromId: int, combinePass: Pass) returns (top: int)
      requires 2 <= levels <= MaxBloomPyramidLevels && fromId == BloomPyramidId + 2 * levels - 1
      requires log.Valid() && PyramidRange(0, 2 * levels) <= log.live
      modifies log
      ensures top == BloomPyramidId
      ensures log.Valid() && log.live == (old(log.live) - PyramidRange(0, 2 * levels)) + {top}
      ensures log.commands == old(log.commands) + CollapseCommands(levels, combinePass)
    {
      ghost var origin := log.commands;
      CollapseLedger(log.live, levels);
      log.Append(Release(fromId - 1));
      top := CombinePyramid(log, levels, fromId, fromId - 3, combinePass);
      CollapseSplit(origin, levels, combinePass);
    }

    /** The threshold, then the source filtered into `_BloomPrefilter`. */
    method Prefilter(log: CommandLog, source: Target, width: nat, height: nat, pass: Pass)
      requires log.Valid() && Readable(log.live, source) && BloomPrefilterId !in log.live
      modifies log
      ensures log.Valid() && log.live == old(log.live) + {BloomPrefilterId}
      ensures log.commands == old(log.commands) + PrefilterCommands(source, Size(width, height), pass)
    {
      log.Append(SetGlobalVector(BloomThreshold));
      log.Append(Acquire(BloomPrefilterId, width, height));
      Draw(log, source, Temp(BloomPrefilterId), pass);
    }

    /** Releases the prefilter and picks the passes and intensities of the bloom mode. */
    method StartCombining(log: CommandLog, bloom: BloomSettings) returns (combinePass: Pass, finalPass: Pass, finalIntensity: real)
      requires log.Valid() && BloomPrefilterId in log.live
      modifies log
      ensures combinePass == CombinePass(bloom.mode) && finalPass == FinalPass(bloom.mode)
      ensures finalIntensity == FinalIntensity(bloom)
      ensures log.Valid() && log.live == old(log.live) - {BloomPrefilterId}
      ensures log.commands == old(log.commands) + CombineSetup(bloom)
    {
      log.Append(Release(BloomPrefilterId));
      log.Append(SetGlobalFloat(BloomBicubicUpsampling, if bloom.bicubicUpsampling then 1.0 else 0.0));
      if bloom.mode == Additive {
        combinePass, finalPass := BloomAdd, BloomAdd;
        log.Append(SetGlobalFloat(BloomIntensity, 1.0));
        finalIntensity := bloom.intensity;
      } else {
        combinePass, finalPass := BloomScatter, BloomScatterFinal;
        log.Append(SetGlobalFloat(BloomIntensity, bloom.scatter));
        finalIntensity := if bloom.intensity < 0.95 then bloom.intensity else 0.95;
      }
    }

    /** The last bloom step: `_BloomResult` at buffer size from the combined pyramid and the source. */
    method FinishBloom(log: CommandLog, source: Target, top: int, finalPass: Pass, finalIntensity: real)
      requires log.Valid() && Readable(log.live, source) && top in log.live && BloomResultId !in log.live
      requires BloomResultId != top
      modifies log
      ensures log.Valid() && log.live == (old(log.live) - {top}) + {BloomResultId}
      ensures log.commands == old(log.commands) + FinishCommands(finalIntensity, source, top, finalPass, bufferSize)
    {
      log.Append(SetGlobalFloat(BloomIntensity, finalIntensity));
      log.Append(SetGlobalTexture(PostFXSource2, source));
      log.Append(Acquire(BloomResultId, bufferSize.width, bufferSize.height));
      Draw(log, Temp(top), Temp(BloomResultId), finalPass);
      log.Append(Release(top));
    }

    /**
     * Bloom: a prefilter at half resolution, a pyramid of blurred levels, the
     * levels combined back from the top, and the result combined with the
     * source at buffer size into `_BloomResult`, the only texture left alive.
     * Records nothing and answers false when bloom is switched off or the
     * image is too small.
     */
    method DoBloom(log: CommandLog, source: Target) returns (r: bool)
      requires settings.Some? && 0 <= settings.value.bloom.maxIterations <= MaxBloomPyramidLevels
      requires log.Valid() && Readable(log.live, source) && BloomIdsFree(log.live)
      modifies log
      ensures log.Valid()
      ensures r == BloomProceeds(settings.value.bloom, BloomStart(settings.value.bloom, camera, bufferSize))
      ensures !r ==> log.commands == old(log.commands) && log.live == old(log.live)
      ensures r ==> log.live == old(log.live) + {BloomResultId}
      ensures r ==> log.commands == old(log.commands)
                    + BloomCommands(settings.value.bloom, source,
                                    BloomStart(settings.value.bloom, camera, bufferSize), bufferSize)
    {
      var bloom := settings.value.bloom;
      var width: nat, height: nat;
      if bloom.ignoreRenderScale {
        width, height := camera.pixelWidth / 2, camera.pixelHeight / 2;
      } else {
        width, height := bufferSize.width / 2, bufferSize.height / 2;
      }
      if bloom.maxIterations == 0 || bloom.intensity <= 0.0 ||
         height < bloom.downscaleLimit * 2 || width < bloom.downscaleLimit * 2 {
        return false;
      }
      ghost var start := Size(width, height);
      ghost var base := log.live;
      Prefilter(log, source, width, height, PrefilterPass(bloom.fadeFireflies));
      width, height := width / 2, height / 2;
      var levels, fromId, toId := BuildPyramid(log, Size(width, height), bloom.downscaleLimit, bloom.maxIterations);
      AtLeastOneLevel(bloom, start);
      BloomLedger(base, levels, TopOfPyramid(levels));
      var combinePass, finalPass, finalIntensity := StartCombining(log, bloom);
      fromId := CollapsePyramid(log, levels, fromId, toId, combinePass);
      FinishBloom(log, source, fromId, finalPass, finalIntensity);
      BloomShape(old(log.commands), bloom, source, start, bufferSize);
      return true;
    }

    method ConfigureColorAdjustments(log: CommandLog)
      requires log.Valid()
      modifies log
      ensures log.Valid() && log.live == old(log.live)
      ensures log.commands == old(log.commands) + [SetGlobalVector(ColorAdjustments), SetGlobalVector(ColorFilter)]
    {
      log.Append(SetGlobalVector(ColorAdjustments));
      log.Append(SetGlobalVector(ColorFilter));
    }

    method ConfigureWhiteBalance(log: CommandLog)
      requires log.Valid()
      modifies log
      ensures log.Valid() && log.live == old(log.live)
      ensures log.commands == old(log.commands) + [SetGlobalVector(WhiteBalance)]
    {
      log.Append(SetGlobalVector(WhiteBalance));
    }

    method ConfigureSplitToning(log: CommandLog)
      requires log.Valid()
      modifies log
      ensures log.Valid() && log.live == old(log.live)
      ensures log.commands == old(log.commands)
                              + [SetGlobalVector(SplitToningShadows), SetGlobalVector(SplitToningHighlights)]
    {
      log.Append(SetGlobalVector(SplitToningShadows));
      log.Append(SetGlobalVector(SplitToningHighlights));
    }

    method ConfigureChannelMixer(log: CommandLog)
      requires log.Valid()
      modifies log
      ensures log.Valid() && log.live == old(log.live)
      ensures log.commands == old(log.commands)
                              + [SetGlobalVector(ChannelMixerRed), SetGlobalVector(ChannelMixerGreen),
                                 SetGlobalVector(ChannelMixerBlue)]
    {
      log.Append(SetGlobalVector(ChannelMixerRed));
      log.Append(SetGlobalVector(ChannelMixerGreen));
      log.Append(SetGlobalVector(ChannelMixerBlue));
    }

    method ConfigureShadowsMidtonesHighlights(log: CommandLog)
      requires log.Valid()
      modifies log
      ensures log.Valid() && log.live == old(log.live)
      ensures log.commands == old(log.commands)
                              + [SetGlobalVector(SmhShadows), SetGlobalVector(SmhMidtones),
                                 SetGlobalVector(SmhHighlights), SetGlobalVector(SmhRange)]
    {
      log.Append(SetGlobalVector(SmhShadows));
      log.Append(SetGlobalVector(SmhMidtones));
      log.Append(SetGlobalVector(SmhHighlights));
      log.Append(SetGlobalVector(SmhRange));
    }

    /** The quality keywords for FXAA, then its thresholds. */
    method ConfigureFXAA(log: CommandLog)
      requires log.Valid()
      modifies log
      ensures log.Valid() && log.live == old(log.live)
      ensures log.commands == old(log.commands) + FXAACommands(fxaa.quality)
    {
      if fxaa.quality == Low {
        log.Append(SetKeyword(FXAAQualityLow, true));
        log.Append(SetKeyword(FXAAQualityMedium, false));
      } else if fxaa.quality == Medium {
        log.Append(SetKeyword(FXAAQualityMedium, true));
        log.Append(SetKeyword(FXAAQualityLow, false));
      } else {
        log.Append(SetKeyword(FXAAQualityMedium, false));
        log.Append(SetKeyword(FXAAQualityLow, false));
      }
      log.Append(SetGlobalVector(FXAAConfig));
    }

    /** Bakes the colour-grading LUT from the source with the tone-mapping pass. */
    method BakeColorGradingLUT(log: CommandLog, source: Target)
      requires settings.Some? && log.Valid() && Readable(log.live, source) && ColorGradingLUTId !in log.live
      modifies log
      ensures log.Valid() && log.live == old(log.live) + {ColorGradingLUTId}
      ensures log.commands == old(log.commands) + LUTCommands(Config(), source)
    {
      var lutHeight := colorLUTResolution;
      var lutWidth := colorLUTResolution * colorLUTResolution;
      log.Append(Acquire(ColorGradingLUTId, lutWidth, lutHeight));
      log.Append(SetGlobalVector(ColorGradingLUTParameters));
      var pass := GradingPass(settings.value.toneMapping);
      log.Append(SetGlobalFloat(ColorGradingLUTInLogC, if useHDR && pass != ColorGradingNone then 1.0 else 0.0));
      Draw(log, source, Temp(ColorGradingLUTId), pass);
      log.Append(SetGlobalVector(ColorGradingLUTParameters));
      log.Append(SetGlobalFloat(FinalSrcBlend, 1.0));
      log.Append(SetGlobalFloat(FinalDstBlend, 0.0));
      LUTShape(old(log.commands), Config(), source, if useHDR && pass != ColorGradingNone then 1.0 else 0.0);
    }

    /** With FXAA on: grades the source into `_ColorGradingResult`, luma in alpha unless alpha is kept. */
    method Antialias(log: CommandLog, source: Target)
      requires settings.Some? && log.Valid() && Readable(log.live, source) && ColorGradingResultId !in log.live
      modifies log
      ensures log.Valid() && log.live == if fxaa.enabled then old(log.live) + {ColorGradingResultId} else old(log.live)
      ensures log.commands == old(log.commands) + AntialiasCommands(Config(), source)
    {
      if fxaa.enabled {
        ConfigureFXAA(log);
        log.Append(Acquire(ColorGradingResultId, bufferSize.width, bufferSize.height));
        Draw(log, source, Temp(ColorGradingResultId), if keepAlpha then ApplyColorGrading else ApplyColorGradingWithLuma);
      }
    }

    /**
     * The final blit to the camera target: direct when the buffer has the
     * camera's width, otherwise through `_FinalResult` and a rescaling draw.
     * With FXAA the graded image comes from `_ColorGradingResult`, released here.
     */
    method Output(log: CommandLog, source: Target)
      requires settings.Some? && log.Valid() && FinalResultId !in log.live
      requires if fxaa.enabled then ColorGradingResultId in log.live else Readable(log.live, source)
      modifies log
      ensures log.Valid()
      ensures log.live == if fxaa.enabled then old(log.live) - {ColorGradingResultId} else old(log.live)
      ensures log.commands == old(log.commands) + OutputCommands(Config(), source)
    {
      if bufferSize.width == camera.pixelWidth {
        DirectShape(old(log.commands), Config(), source);
        if fxaa.enabled {
          DrawFinal(log, Temp(ColorGradingResultId), if keepAlpha then FXAA else FXAAWithLuma);
          log.Append(Release(ColorGradingResultId));
        } else {
          DrawFinal(log, source, ApplyColorGrading);
        }
      } else {
        OutputLedger(log.live);
        log.Append(Acquire(FinalResultId, bufferSize.width, bufferSize.height));
        if fxaa.enabled {
          Draw(log, Temp(ColorGradingResultId), Temp(FinalResultId), FXAA);
          log.Append(Release(ColorGradingResultId));
        } else {
          Draw(log, source, Temp(FinalResultId), ApplyColorGrading);
        }
        var bicubicSampling := bicubicRescaling == UpAndDown || (bicubicRescaling == UpOnly && bufferSize.width < camera.pixelWidth);
        log.Append(SetGlobalFloat(CopyBicubic, if bicubicSampling then 1.0 else 0.0));
        DrawFinal(log, Temp(FinalResultId), FinalRescale);
        log.Append(Release(FinalResultId));
        RescaleShape(old(log.commands), Config(), source, if bicubicSampling then 1.0 else 0.0);
      }
    }

    /**
     * The final pass: the grading parameters, the LUT, optional FXAA and the
     * blit to the camera target. Every texture it acquires is released again.
     */
    method DoFinal(log: CommandLog, source: Target)
      requires settings.Some? && log.Valid() && Readable(log.live, source) && FinalIdsFree(log.live)
      modifies log
      ensures log.Valid() && log.live == old(log.live)
      ensures log.commands == old(log.commands) + FinalCommands(Config(), source)
    {
      FinalLedger(log.live);
      ConfigureColorAdjustments(log);
      ConfigureWhiteBalance(log);
      ConfigureSplitToning(log);
      ConfigureChannelMixer(log);
      ConfigureShadowsMidtonesHighlights(log);
      ConfigureShape(old(log.commands));
      BakeColorGradingLUT(log, source);
      Antialias(log, source);
      Output(log, source);
      log.Append(Release(ColorGradingLUTId));
      FinalShape(old(log.commands), Config(), source);
    }

    /**
     * Post-processing of one camera: bloom when it proceeds, then the final
     * pass on `_BloomResult` (released afterwards) or on the source itself.
     */
    method Render(log: CommandLog, source: Target)
      requires settings.Some? && 0 <= settings.value.bloom.maxIterations <= MaxBloomPyramidLevels
      requires log.Valid() && Readable(log.live, source) && BloomIdsFree(log.live) && FinalIdsFree(log.live)
      modifies log
      ensures log.Valid() && log.live == old(log.live)
      ensures log.commands == old(log.commands)
                              + RenderCommands(Config(), settings.value.bloom,
                                               BloomStart(settings.value.bloom, camera, bufferSize), source)
    {
      var bloomed := DoBloom(log, source);
      if bloomed {
        RenderLedger(old(log.live));
        DoFinal(log, Temp(BloomResultId));
        log.Append(Release(BloomResultId));
        RenderShape(old(log.commands), Config(), settings.value.bloom,
                    BloomStart(settings.value.bloom, camera, bufferSize), source);
      } else {
        DoFinal(log, source);
      }
    }
  }
}
