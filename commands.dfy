/**
 * The abstract command stream that the camera renderer and the post-processing
 * stack record into, and the ledger of temporary render textures that are
 * alive at each point of it.
 *
 * Every temporary texture is named by an integer shader property id. The
 * ledger is the set of ids obtained by `GetTemporaryRT` and not yet given back
 * by `ReleaseTemporaryRT`.
 */
module Commands {

  // Shader property ids of the temporary textures. Only their distinctness matters.
  const ColorAttachmentId: int := 1
  const DepthAttachmentId: int := 2
  const ColorTextureId: int := 3
  const DepthTextureId: int := 4
  const BloomPrefilterId: int := 10
  const BloomResultId: int := 11
  const ColorGradingLUTId: int := 12
  const ColorGradingResultId: int := 13
  const FinalResultId: int := 14
  /** `_BloomPyramid0`; the post-processing stack reserves the 32 consecutive names after it. */
  const BloomPyramidId: int := 100
  const MaxBloomPyramidLevels: int := 16

  /** Ids owned by the camera renderer. */
  const CameraIds: set<int> := {ColorAttachmentId, DepthAttachmentId, ColorTextureId, DepthTextureId}

  /** The id of the k-th bloom pyramid texture. */
  function PyramidId(k: int): (id: int)
    requires 0 <= k < 2 * MaxBloomPyramidLevels
    ensures BloomPyramidId <= id < BloomPyramidId + 2 * MaxBloomPyramidLevels
    ensures id !in CameraIds
  {
    BloomPyramidId + k
  }

  /** The set of pyramid ids `_BloomPyramid<lo>` up to but excluding `_BloomPyramid<hi>`. */
  function PyramidRange(lo: int, hi: int): (r: set<int>)
    ensures forall id :: id in r <==> BloomPyramidId + lo <= id < BloomPyramidId + hi
    decreases hi - lo
  {
    if hi <= lo then {} else PyramidRange(lo, hi - 1) + {BloomPyramidId + hi - 1}
  }

  lemma RangeGrows(k: int)
    requires 0 <= k
    ensures PyramidRange(0, k + 1) == PyramidRange(0, k) + {BloomPyramidId + k}
  {
  }

  datatype Target = Temp(id: int) | CameraTarget | MissingTexture

  datatype LoadAction = DontCare | Load

  datatype Material = CameraMaterial | PostFXMaterial

  datatype RenderQueue = Opaque | Transparent

  /** The global shader properties the renderer and the post-FX stack set, named after their shader identifiers. */
  datatype Property =
    | CameraBufferSize | CameraColorTexture | CameraDepthTexture | SourceTexture | CameraSrcBlend | CameraDstBlend
    | PostFXSource | PostFXSource2 | BloomThreshold | BloomBicubicUpsampling | BloomIntensity
    | ColorGradingLUTParameters | ColorGradingLUTInLogC | FinalSrcBlend | FinalDstBlend | CopyBicubic | FXAAConfig
    | ColorAdjustments | ColorFilter | WhiteBalance | SplitToningShadows | SplitToningHighlights
    | ChannelMixerRed | ChannelMixerGreen | ChannelMixerBlue | SmhShadows | SmhMidtones | SmhHighlights | SmhRange

  /** The FXAA quality shader keywords. */
  datatype Keyword = FXAAQualityLow | FXAAQualityMedium

  datatype Command =
    | Acquire(id: int, width: int, height: int)
    | Release(id: int)
    | SetGlobalTexture(name: Property, tex: Target)
    | SetGlobalFloat(name: Property, value: real)
    /** A vector or colour parameter block whose numeric content is not modelled. */
    | SetGlobalVector(name: Property)
    | SetKeyword(keyword: Keyword, enabled: bool)
    | SetRenderTarget(target: Target, load: LoadAction)
    | SetRenderTargets(color: Target, depth: Target, load: LoadAction)
    | ClearRenderTarget(clearDepth: bool, clearColor: bool, toBackground: bool)
    | SetViewport
    | DrawProcedural(material: Material, pass: int)
    | CopyTexture(from: Target, to: Target)
    | SetupCameraProperties
    | Cull(shadowDistance: real)
    | SetupLighting(layerMask: bv32, lightsPerObject: bool)
    | DrawRenderers(queue: RenderQueue, layerMask: bv32, lightsPerObject: bool)
    | DrawSkybox
    | Submit

  /** A target may be bound, drawn into or copied only while it is not a released temporary. */
  predicate Readable(live: set<int>, t: Target) {
    t.Temp? ==> t.id in live
  }

  /** What the ledger demands of one command. */
  predicate Allowed(live: set<int>, c: Command) {
    match c
    case Acquire(id, _, _) => id !in live
    case Release(id) => id in live
    case SetGlobalTexture(_, t) => Readable(live, t)
    case SetRenderTarget(t, _) => Readable(live, t)
    case SetRenderTargets(col, dep, _) => Readable(live, col) && Readable(live, dep)
    case CopyTexture(a, b) => Readable(live, a) && Readable(live, b)
    case _ => true
  }

  /** The ledger after one command. */
  function Step(live: set<int>, c: Command): (r: set<int>)
    ensures c.Acquire? ==> r == live + {c.id}
    ensures c.Release? ==> r == live - {c.id}
    ensures !c.Acquire? && !c.Release? ==> r == live
  {
    match c
    case Acquire(id, _, _) => live + {id}
    case Release(id) => live - {id}
    case _ => live
  }

  /** What running a stream against a ledger ends in. */
  datatype Outcome = Broken | Alive(ids: set<int>)

  /**
   * Runs the stream from the ledger `live`: the ids alive at its end, or
   * `Broken` if some command is not allowed by the ledger at its position.
   */
  function Run(live: set<int>, cs: seq<Command>): Outcome
  {
    if cs == [] then Alive(live)
    else
      var before := Run(live, cs[..|cs| - 1]);
      if before.Alive? && Allowed(before.ids, cs[|cs| - 1]) then Alive(Step(before.ids, cs[|cs| - 1])) else Broken
  }

  function AcquireCount(cs: seq<Command>, id: int): nat
  {
    if cs == [] then 0
    else AcquireCount(cs[..|cs| - 1], id) + (if cs[|cs| - 1].Acquire? && cs[|cs| - 1].id == id then 1 else 0)
  }

  function ReleaseCount(cs: seq<Command>, id: int): nat
  {
    if cs == [] then 0
    else ReleaseCount(cs[..|cs| - 1], id) + (if cs[|cs| - 1].Release? && cs[|cs| - 1].id == id then 1 else 0)
  }

  /** Appending five streams after a prefix, regrouped one stream at a time. */
  lemma Regroup5(origin: seq<Command>, a: seq<Command>, b: seq<Command>, c: seq<Command>, d: seq<Command>, e: seq<Command>)
    ensures origin + (a + b + c + d + e) == origin + a + b + c + d + e
  {
  }

  lemma AppendOne(live: set<int>, cs: seq<Command>, c: Command)
    ensures Run(live, cs + [c])
         == if Run(live, cs).Alive? && Allowed(Run(live, cs).ids, c) then Alive(Step(Run(live, cs).ids, c)) else Broken
  {
    assert (cs + [c])[..|cs + [c]| - 1] == cs;
  }

  /**
   * In a stream that runs without breaking, every texture is acquired exactly
   * as often as it is released, up to whether it was alive at the start and is
   * alive at the end. In particular a stream that starts and ends with an empty
   * ledger pairs every acquisition with exactly one release.
   */
  lemma {:induction false} Balance(live: set<int>, cs: seq<Command>, id: int)
    requires Run(live, cs).Alive?
    ensures AcquireCount(cs, id) + (if id in live then 1 else 0)
         == ReleaseCount(cs, id) + (if id in Run(live, cs).ids then 1 else 0)
  {
    if cs != [] {
      Balance(live, cs[..|cs| - 1], id);
    }
  }

  /** Running a stream in two pieces is running it in one. */
  lemma {:induction false} Concat(live: set<int>, a: seq<Command>, b: seq<Command>)
    ensures Run(live, a + b) == if Run(live, a).Alive? then Run(Run(live, a).ids, b) else Broken
    decreases |b|
  {
    if b == [] {
      assert a + b == a;
    } else {
      var b', c := b[..|b| - 1], b[|b| - 1];
      assert b == b' + [c];
      assert a + b == (a + b') + [c];
      Concat(live, a, b');
      AppendOne(live, a + b', c);
      if Run(live, a).Alive? {
        AppendOne(Run(live, a).ids, b', c);
      }
    }
  }

  /** A command that neither acquires nor releases. */
  predicate Neutral(c: Command) {
    !c.Acquire? && !c.Release?
  }

  /** A stream of neutral commands, each allowed by `live`, leaves the ledger as it is. */
  lemma {:induction false} NeutralStream(live: set<int>, cs: seq<Command>)
    requires forall k :: 0 <= k < |cs| ==> Neutral(cs[k]) && Allowed(live, cs[k])
    ensures Run(live, cs) == Alive(live)
  {
    if cs != [] {
      NeutralStream(live, cs[..|cs| - 1]);
    }
  }

  /**
   * Balance of the piece `b` recorded after `a`: within `b` an id is acquired
   * as often as it is released, up to whether it was alive before and after `b`.
   */
  lemma SegmentBalance(a: seq<Command>, b: seq<Command>, id: int)
    requires Run({}, a + b).Alive?
    ensures Run({}, a).Alive?
    ensures AcquireCount(b, id) + (if id in Run({}, a).ids then 1 else 0)
         == ReleaseCount(b, id) + (if id in Run({}, a + b).ids then 1 else 0)
  {
    Concat({}, a, b);
    Balance(Run({}, a).ids, b, id);
  }

  lemma BalancedWhenEmpty(cs: seq<Command>, id: int)
    requires Run({}, cs) == Alive({})
    ensures AcquireCount(cs, id) == ReleaseCount(cs, id)
  {
    Balance({}, cs, id);
  }

  /** `f` applied to every command of the stream, the results concatenated in order. */
  function Collect<T>(cs: seq<Command>, f: Command -> seq<T>): seq<T>
  {
    if cs == [] then [] else Collect(cs[..|cs| - 1], f) + f(cs[|cs| - 1])
  }

  lemma {:induction false} CollectConcat<T>(a: seq<Command>, b: seq<Command>, f: Command -> seq<T>)
    ensures Collect(a + b, f) == Collect(a, f) + Collect(b, f)
    decreases |b|
  {
    if b == [] {
      assert a + b == a;
    } else {
      var b', c := b[..|b| - 1], b[|b| - 1];
      assert b == b' + [c];
      assert a + b == (a + b') + [c];
      assert (a + b')[..|a + b'|] == a + b';
      CollectConcat(a, b', f);
    }
  }

  lemma CollectSingle<T>(c: Command, f: Command -> seq<T>)
    ensures Collect([c], f) == f(c)
  {
    assert [c][..0] == [];
  }

  lemma {:induction false} CollectNone<T>(cs: seq<Command>, f: Command -> seq<T>)
    requires forall k :: 0 <= k < |cs| ==> f(cs[k]) == []
    ensures Collect(cs, f) == []
  {
    if cs != [] {
      CollectNone(cs[..|cs| - 1], f);
    }
  }

  lemma Collect2<T>(a: Command, b: Command, f: Command -> seq<T>)
    ensures Collect([a, b], f) == f(a) + f(b)
  {
    assert [a, b] == [a] + [b];
    CollectConcat([a], [b], f);
    CollectSingle(a, f);
    CollectSingle(b, f);
  }

  lemma Collect3<T>(a: Command, b: Command, c: Command, f: Command -> seq<T>)
    ensures Collect([a, b, c], f) == f(a) + f(b) + f(c)
  {
    assert [a, b, c] == [a, b] + [c];
    CollectConcat([a, b], [c], f);
    Collect2(a, b, f);
    CollectSingle(c, f);
  }

  function AcquiredId(c: Command): seq<int> {
    if c.Acquire? then [c.id] else []
  }

  function ReleasedId(c: Command): seq<int> {
    if c.Release? then [c.id] else []
  }

  /** The colour target bound by a command, if it binds one. */
  function BoundTarget(c: Command): seq<Target> {
    if c.SetRenderTarget? then [c.target] else if c.SetRenderTargets? then [c.color] else []
  }

  /** The pass of a procedural draw with the given material. */
  function DrawnPass(material: Material): Command -> seq<int> {
    (c: Command) => if c.DrawProcedural? && c.material == material then [c.pass] else []
  }

  /**
   * The command stream with its ledger. Recording a command the ledger does
   * not allow (a second acquisition of a live id, a release of a dead one, a
   * read of a released texture) is a precondition violation.
   */
  class CommandLog {
    var commands: seq<Command>
    var live: set<int>

    ghost predicate Valid()
      reads this
    {
      Run({}, commands) == Alive(live)
    }

    constructor ()
      ensures Valid() && commands == [] && live == {}
    {
      commands := [];
      live := {};
    }

    method Append(c: Command)
      requires Valid() && Allowed(live, c)
      modifies this
      ensures Valid()
      ensures commands == old(commands) + [c]
      ensures live == Step(old(live), c)
    {
      AppendOne({}, commands, c);
      commands := commands + [c];
      live := Step(live, c);
    }
  }
}
