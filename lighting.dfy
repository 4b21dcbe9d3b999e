/**
 * The lighting packer: turns the culling results' visible lights into the
 * fixed-capacity directional (4) and other (point and spot, 64) light slots
 * that shaders read, makes one shadow reservation per packed light, and fills
 * the per-object light index map.
 *
 * Admission is first-come in visibility order; there is no ranking by
 * distance or intensity.
 */
module LightingPacker {

  const MaxDirLightCount: nat := 4
  const MaxOtherLightCount: nat := 64

  /** Light types in the engine's declaration order. */
  datatype LightType = Spot | Directional | Point | Rectangle | Disc

  datatype Vec3 = Vec3(x: real, y: real, z: real)

  datatype Vec4 = Vec4(x: real, y: real, z: real, w: real)

  function Neg(v: Vec3): Vec3 {
    Vec3(-v.x, -v.y, -v.z)
  }

  function Max(a: real, b: real): real {
    if a >= b then a else b
  }

  /**
   * One entry of the culling results' visible-light list. `forward` and
   * `position` are the third and fourth columns of the light's local-to-world
   * matrix; `innerCos` and `outerCos` are the cosines of half the inner and
   * outer spot angles, which the engine computes.
   */
  datatype VisibleLight = VisibleLight(
    lightType: LightType,
    finalColor: Vec4,
    forward: Vec3,
    position: Vec3,
    range: real,
    innerCos: real,
    outerCos: real,
    layerMask: bv32)

  /** What culling hands the packer: the visible lights and the length of its light index map. */
  datatype CullingResults = CullingResults(visibleLights: seq<VisibleLight>, lightIndexMapLength: nat)

  /**
   * A shadow reservation, keyed by the light's visible index. It also stands
   * for the shadow-data vector the shadow subsystem returns for it.
   */
  datatype ShadowReservation = DirectionalShadow(visibleIndex: nat) | OtherShadow(visibleIndex: nat)

  datatype DirLightData = DirLightData(color: Vec4, direction: Vec3, mask: bv32, shadow: ShadowReservation)

  /** Spot-angle vector (x, y, 0, 0). */
  datatype SpotAngles = SpotAngles(x: real, y: real)

  datatype OtherLightData = OtherLightData(
    color: Vec4,
    position: Vec3,
    invRangeSqr: real,
    direction: Vec3,
    mask: bv32,
    spotAngles: SpotAngles,
    shadow: ShadowReservation)

  const EmptyDirLight: DirLightData :=
    DirLightData(Vec4(0.0, 0.0, 0.0, 0.0), Vec3(0.0, 0.0, 0.0), 0, DirectionalShadow(0))
  const EmptyOtherLight: OtherLightData :=
    OtherLightData(Vec4(0.0, 0.0, 0.0, 0.0), Vec3(0.0, 0.0, 0.0), 0.0, Vec3(0.0, 0.0, 0.0), 0,
                   SpotAngles(0.0, 0.0), OtherShadow(0))

  /** Global shader parameters the packer sets. An upload sends a whole slot array, stale slots included. */
  datatype LightingCommand =
    | SetGlobalInt(name: string, value: int)
    | UploadDirectional(dirSlots: seq<DirLightData>)
    | UploadOther(otherSlots: seq<OtherLightData>)

  // ---------------------------------------------------------------------------
  // Specification of the packing

  datatype Kind = DirKind | OtherKind

  function Capacity(kind: Kind): nat {
    if kind == DirKind then MaxDirLightCount else MaxOtherLightCount
  }

  predicate Matches(l: VisibleLight, renderingLayerMask: bv32) {
    l.layerMask & renderingLayerMask != 0
  }

  /** The light passes the layer test and is of a type handled by the slots of `kind`. */
  predicate OfKind(l: VisibleLight, renderingLayerMask: bv32, kind: Kind) {
    Matches(l, renderingLayerMask) &&
    if kind == DirKind then l.lightType == Directional else l.lightType == Point || l.lightType == Spot
  }

  /** How many lights of `ls` are candidates for the slots of `kind`. */
  function CountKind(ls: seq<VisibleLight>, mask: bv32, kind: Kind): nat {
    if ls == [] then 0
    else CountKind(ls[..|ls| - 1], mask, kind) + (if OfKind(ls[|ls| - 1], mask, kind) then 1 else 0)
  }

  /**
   * The visible indices that receive a slot of `kind`, in slot order: a
   * candidate is admitted while fewer than `Capacity(kind)` were admitted before it.
   */
  function PackedIndices(ls: seq<VisibleLight>, mask: bv32, kind: Kind): (r: seq<nat>)
    ensures |r| <= Capacity(kind)
    ensures forall k :: 0 <= k < |r| ==> r[k] < |ls|
    ensures forall k, k' :: 0 <= k < k' < |r| ==> r[k] < r[k']
  {
    if ls == [] then []
    else
      var p := PackedIndices(ls[..|ls| - 1], mask, kind);
      if OfKind(ls[|ls| - 1], mask, kind) && |p| < Capacity(kind) then p + [|ls| - 1] else p
  }

  /** Index-map entry of visible light i: the other-light slot it was given, or -1. */
  function MapEntry(ls: seq<VisibleLight>, mask: bv32, i: nat): int
    requires i < |ls|
  {
    var p := PackedIndices(ls[..i], mask, OtherKind);
    if OfKind(ls[i], mask, OtherKind) && |p| < MaxOtherLightCount then |p| else -1
  }

  /** The whole index map handed back to culling: entries past the visible lights are -1. */
  function IndexMap(ls: seq<VisibleLight>, mask: bv32, length: nat): (m: seq<int>)
    requires |ls| <= length
    ensures |m| == length
    ensures forall j :: 0 <= j < |ls| ==> m[j] == MapEntry(ls, mask, j)
    ensures forall j :: |ls| <= j < length ==> m[j] == -1
  {
    seq(length, j requires 0 <= j < length => if j < |ls| then MapEntry(ls, mask, j) else -1)
  }

  /** The shadow reservations made, in the order they are made. */
  function Reservations(ls: seq<VisibleLight>, mask: bv32): seq<ShadowReservation> {
    if ls == [] then []
    else
      var pre := ls[..|ls| - 1];
      var n := |ls| - 1;
      var r := Reservations(pre, mask);
      if OfKind(ls[n], mask, DirKind) && |PackedIndices(pre, mask, DirKind)| < MaxDirLightCount then
        r + [DirectionalShadow(n)]
      else if OfKind(ls[n], mask, OtherKind) && |PackedIndices(pre, mask, OtherKind)| < MaxOtherLightCount then
        r + [OtherShadow(n)]
      else r
  }

  function InvRangeSqr(range: real): real {
    1.0 / Max(range * range, 0.00001)
  }

  /** Reciprocal of the cosine range of the spot cone, guarded below by 0.001. */
  function AngleRangeInv(innerCos: real, outerCos: real): (r: real)
    ensures 0.0 < r <= 1000.0
  {
    1.0 / Max(innerCos - outerCos, 0.001)
  }

  /** Slot contents of a packed directional light with visible index i. */
  function DirData(l: VisibleLight, i: nat): DirLightData {
    DirLightData(l.finalColor, Neg(l.forward), l.layerMask, DirectionalShadow(i))
  }

  /** Slot contents of a packed point or spot light with visible index i. */
  function OtherData(l: VisibleLight, i: nat): OtherLightData {
    if l.lightType == Point then
      OtherLightData(l.finalColor, l.position, InvRangeSqr(l.range), Vec3(0.0, 0.0, 0.0),
                     l.layerMask, SpotAngles(0.0, 1.0), OtherShadow(i))
    else
      var inv := AngleRangeInv(l.innerCos, l.outerCos);
      OtherLightData(l.finalColor, l.position, InvRangeSqr(l.range), Neg(l.forward),
                     l.layerMask, SpotAngles(inv, -l.outerCos * inv), OtherShadow(i))
  }

  /** The global parameters published after packing. */
  function Uploads(dirCount: nat, otherCount: nat, dirs: seq<DirLightData>, others: seq<OtherLightData>)
    : seq<LightingCommand>
  {
    [SetGlobalInt("_DirectionalLightCount", dirCount)]
    + (if dirCount > 0 then [UploadDirectional(dirs)] else [])
    + [SetGlobalInt("_OtherLightCount", otherCount)]
    + (if otherCount > 0 then [UploadOther(others)] else [])
  }

  // ---------------------------------------------------------------------------
  // Properties of the specification

  function Min(a: nat, b: nat): nat {
    if a <= b then a else b
  }

  /** The published count of a kind is the number of candidates, cut at the capacity. */
  lemma {:induction false} PackedCount(ls: seq<VisibleLight>, mask: bv32, kind: Kind)
    ensures |PackedIndices(ls, mask, kind)| == Min(CountKind(ls, mask, kind), Capacity(kind))
  {
    if ls != [] {
      PackedCount(ls[..|ls| - 1], mask, kind);
    }
  }

  /** First-come admission: light i gets a slot iff it is a candidate and fewer than capacity candidates precede it. */
  lemma {:induction false} Admission(ls: seq<VisibleLight>, mask: bv32, kind: Kind, i: nat)
    requires i < |ls|
    ensures i in PackedIndices(ls, mask, kind)
        <==> OfKind(ls[i], mask, kind) && CountKind(ls[..i], mask, kind) < Capacity(kind)
  {
    var n := |ls| - 1;
    var pre := ls[..n];
    if i < n {
      Admission(pre, mask, kind, i);
      assert pre[..i] == ls[..i];
    } else {
      assert pre == ls[..i];
      PackedCount(pre, mask, kind);
    }
  }

  /** Extending the prefix by one light admits it or leaves the slots as they were. */
  lemma PackedStep(ls: seq<VisibleLight>, mask: bv32, kind: Kind, i: nat)
    requires i < |ls|
    ensures var p := PackedIndices(ls[..i], mask, kind);
      PackedIndices(ls[..i + 1], mask, kind)
        == if OfKind(ls[i], mask, kind) && |p| < Capacity(kind) then p + [i] else p
    ensures var r := Reservations(ls[..i], mask);
      Reservations(ls[..i + 1], mask)
        == if OfKind(ls[i], mask, DirKind) && |PackedIndices(ls[..i], mask, DirKind)| < MaxDirLightCount then
             r + [DirectionalShadow(i)]
           else if OfKind(ls[i], mask, OtherKind) && |PackedIndices(ls[..i], mask, OtherKind)| < MaxOtherLightCount then
             r + [OtherShadow(i)]
           else r
  {
    assert ls[..i + 1][..i] == ls[..i];
  }

  /** The slots given out for a prefix of the light list are a prefix of those for the whole list. */
  lemma {:induction false} PackedPrefix(ls: seq<VisibleLight>, mask: bv32, kind: Kind, j: nat)
    requires j <= |ls|
    ensures PackedIndices(ls[..j], mask, kind) <= PackedIndices(ls, mask, kind)
  {
    if j < |ls| {
      PackedPrefix(ls[..|ls| - 1], mask, kind, j);
      assert ls[..|ls| - 1][..j] == ls[..j];
    } else {
      assert ls[..j] == ls;
    }
  }

  /** A non-negative index-map entry names the slot that holds that very light. */
  lemma MapEntryIsSlot(ls: seq<VisibleLight>, mask: bv32, i: nat)
    requires i < |ls|
    requires MapEntry(ls, mask, i) >= 0
    ensures MapEntry(ls, mask, i) < |PackedIndices(ls, mask, OtherKind)|
    ensures PackedIndices(ls, mask, OtherKind)[MapEntry(ls, mask, i)] == i
  {
    PackedPrefix(ls, mask, OtherKind, i + 1);
    assert ls[..i + 1][..i] == ls[..i];
  }

  /** Every other-light slot k is named by exactly the index-map entry of the light it holds. */
  lemma SlotIsMapped(ls: seq<VisibleLight>, mask: bv32, k: nat)
    requires k < |PackedIndices(ls, mask, OtherKind)|
    ensures var v := PackedIndices(ls, mask, OtherKind)[k]; MapEntry(ls, mask, v) == k
  {
    var all := PackedIndices(ls, mask, OtherKind);
    var v := all[k];
    assert v in all;
    Admission(ls, mask, OtherKind, v);
    PackedCount(ls[..v], mask, OtherKind);
    var e := MapEntry(ls, mask, v);
    assert e >= 0;
    MapEntryIsSlot(ls, mask, v);
    assert all[e] == v == all[k];
  }

  /**
   * The index map is a bijection between the lights with a non-negative entry
   * and the slots [0, otherLightCount); directional lights always map to -1.
   */
  lemma IndexMapBijective(ls: seq<VisibleLight>, mask: bv32, i: nat, j: nat)
    requires i < |ls| && j < |ls|
    ensures ls[i].lightType == Directional ==> MapEntry(ls, mask, i) == -1
    ensures MapEntry(ls, mask, i) >= -1
    ensures MapEntry(ls, mask, i) < |PackedIndices(ls, mask, OtherKind)|
    ensures MapEntry(ls, mask, i) >= 0 && MapEntry(ls, mask, i) == MapEntry(ls, mask, j) ==> i == j
  {
    if MapEntry(ls, mask, i) >= 0 {
      MapEntryIsSlot(ls, mask, i);
      if MapEntry(ls, mask, j) >= 0 {
        MapEntryIsSlot(ls, mask, j);
      }
    }
  }

  /** Exactly one reservation per packed light, keyed by its visible index and of its slot's kind. */
  lemma {:induction false} ReservationsMatchSlots(ls: seq<VisibleLight>, mask: bv32, i: nat)
    ensures DirectionalShadow(i) in Reservations(ls, mask) <==> i in PackedIndices(ls, mask, DirKind)
    ensures OtherShadow(i) in Reservations(ls, mask) <==> i in PackedIndices(ls, mask, OtherKind)
    ensures |Reservations(ls, mask)| == |PackedIndices(ls, mask, DirKind)| + |PackedIndices(ls, mask, OtherKind)|
  {
    if ls != [] {
      ReservationsMatchSlots(ls[..|ls| - 1], mask, i);
    }
  }

  /** A light failing the layer test, or of an unhandled type, gets no slot, no reservation and a -1 entry. */
  lemma DroppedLightLeavesNoTrace(ls: seq<VisibleLight>, mask: bv32, i: nat)
    requires i < |ls|
    requires !Matches(ls[i], mask) || ls[i].lightType == Rectangle || ls[i].lightType == Disc
    ensures i !in PackedIndices(ls, mask, DirKind) && i !in PackedIndices(ls, mask, OtherKind)
    ensures DirectionalShadow(i) !in Reservations(ls, mask) && OtherShadow(i) !in Reservations(ls, mask)
    ensures MapEntry(ls, mask, i) == -1
  {
    Admission(ls, mask, DirKind, i);
    Admission(ls, mask, OtherKind, i);
    ReservationsMatchSlots(ls, mask, i);
  }

  /** With five directional lights in view, the first four take the slots and the fifth is dropped. */
  lemma FiveDirectionalLights(l: VisibleLight)
    requires l.lightType == Directional && l.layerMask == 1
    ensures PackedIndices([l, l, l, l, l], 1, DirKind) == [0, 1, 2, 3]
  {
    var ls := [l, l, l, l, l];
    assert PackedIndices(ls[..1], 1, DirKind) == [0] by { assert ls[..1][..0] == []; }
    assert PackedIndices(ls[..2], 1, DirKind) == [0, 1] by { assert ls[..2][..1] == ls[..1]; }
    assert PackedIndices(ls[..3], 1, DirKind) == [0, 1, 2] by { assert ls[..3][..2] == ls[..2]; }
    assert PackedIndices(ls[..4], 1, DirKind) == [0, 1, 2, 3] by { assert ls[..4][..3] == ls[..3]; }
    assert ls[..5][..4] == ls[..4];
    assert ls[..5] == ls;
  }

  /** A point light's slot has no cone and no direction, only its mask. */
  lemma PointLightSlot(l: VisibleLight, i: nat)
    requires l.lightType == Point
    ensures OtherData(l, i).spotAngles == SpotAngles(0.0, 1.0)
    ensures OtherData(l, i).direction == Vec3(0.0, 0.0, 0.0)
    ensures OtherData(l, i).mask == l.layerMask
  {
  }

  /**
   * Slots below `count` hold, in order, `data` of the lights of `ls` packed
   * into the slots of `kind`; the rest are as in `before`.
   */
  ghost predicate SlotsHold<D>(slots: seq<D>, ls: seq<VisibleLight>, mask: bv32, kind: Kind, count: nat,
                               before: seq<D>, data: (VisibleLight, nat) -> D)
  {
    var p := PackedIndices(ls, mask, kind);
    |slots| == |before| == Capacity(kind) && count == |p| &&
    (forall k :: 0 <= k < count ==> p[k] < |ls| && slots[k] == data(ls[p[k]], p[k])) &&
    (forall k :: count <= k < Capacity(kind) ==> slots[k] == before[k])
  }

  /** The directional slots hold the packed directional lights of `ls`. */
  ghost predicate DirSlotsHold(slots: seq<DirLightData>, ls: seq<VisibleLight>, mask: bv32, count: nat,
                               before: seq<DirLightData>)
  {
    SlotsHold(slots, ls, mask, DirKind, count, before, DirData)
  }

  /** The other-light slots hold the packed point and spot lights of `ls`. */
  ghost predicate OtherSlotsHold(slots: seq<OtherLightData>, ls: seq<VisibleLight>, mask: bv32, count: nat,
                                 before: seq<OtherLightData>)
  {
    SlotsHold(slots, ls, mask, OtherKind, count, before, OtherData)
  }

  lemma SlotsTake<D>(slots: seq<D>, ls: seq<VisibleLight>, mask: bv32, kind: Kind, i: nat, count: nat,
                     before: seq<D>, data: (VisibleLight, nat) -> D)
    requires i < |ls| && SlotsHold(slots, ls[..i], mask, kind, count, before, data)
    requires OfKind(ls[i], mask, kind) && count < Capacity(kind)
    ensures SlotsHold(slots[count := data(ls[i], i)], ls[..i + 1], mask, kind, count + 1, before, data)
  {
    PackedStep(ls, mask, kind, i);
    var p, p' := PackedIndices(ls[..i], mask, kind), PackedIndices(ls[..i + 1], mask, kind);
    var slots' := slots[count := data(ls[i], i)];
    assert p' == p + [i];
    forall k | 0 <= k < count + 1
      ensures p'[k] < i + 1 && slots'[k] == data(ls[..i + 1][p'[k]], p'[k])
    {
      if k < count {
        assert p'[k] == p[k] && ls[..i + 1][p[k]] == ls[..i][p[k]];
      }
    }
  }

  lemma SlotsSkip<D>(slots: seq<D>, ls: seq<VisibleLight>, mask: bv32, kind: Kind, i: nat, count: nat,
                     before: seq<D>, data: (VisibleLight, nat) -> D)
    requires i < |ls| && SlotsHold(slots, ls[..i], mask, kind, count, before, data)
    requires !(OfKind(ls[i], mask, kind) && count < Capacity(kind))
    ensures SlotsHold(slots, ls[..i + 1], mask, kind, count, before, data)
  {
    PackedStep(ls, mask, kind, i);
    var p := PackedIndices(ls[..i], mask, kind);
    assert PackedIndices(ls[..i + 1], mask, kind) == p;
    forall k | 0 <= k < count
      ensures p[k] < i + 1 && slots[k] == data(ls[..i + 1][p[k]], p[k])
    {
      assert ls[..i + 1][p[k]] == ls[..i][p[k]];
    }
  }

  /** The reservations after one visible light, whichever way it went. */
  lemma ReservationsAfter(ls: seq<VisibleLight>, mask: bv32, i: nat, dirCount: nat, otherCount: nat,
                          r: seq<ShadowReservation>, r': seq<ShadowReservation>, before: seq<ShadowReservation>)
    requires i < |ls| && r == before + Reservations(ls[..i], mask)
    requires dirCount == |PackedIndices(ls[..i], mask, DirKind)| && otherCount == |PackedIndices(ls[..i], mask, OtherKind)|
    requires r' == if OfKind(ls[i], mask, DirKind) && dirCount < MaxDirLightCount then r + [DirectionalShadow(i)]
                   else if OfKind(ls[i], mask, OtherKind) && otherCount < MaxOtherLightCount then r + [OtherShadow(i)]
                   else r
    ensures r' == before + Reservations(ls[..i + 1], mask)
  {
    PackedStep(ls, mask, DirKind, i);
  }

  /** `SlotsStep` for the slots and count after one visible light, whichever way it went. */
  lemma SlotsAfter<D>(slots: seq<D>, slots': seq<D>, ls: seq<VisibleLight>, mask: bv32, kind: Kind, i: nat,
                      count: nat, count': nat, before: seq<D>, data: (VisibleLight, nat) -> D)
    requires i < |ls| && SlotsHold(slots, ls[..i], mask, kind, count, before, data)
    requires var admitted := OfKind(ls[i], mask, kind) && count < Capacity(kind);
             && slots' == (if admitted then slots[count := data(ls[i], i)] else slots)
             && count' == if admitted then count + 1 else count
    ensures SlotsHold(slots', ls[..i + 1], mask, kind, count', before, data)
  {
    SlotsStep(slots, ls, mask, kind, i, count, before, data);
  }

  lemma SlotsStep<D>(slots: seq<D>, ls: seq<VisibleLight>, mask: bv32, kind: Kind, i: nat, count: nat,
                     before: seq<D>, data: (VisibleLight, nat) -> D)
    requires i < |ls| && SlotsHold(slots, ls[..i], mask, kind, count, before, data)
    ensures OfKind(ls[i], mask, kind) && count < Capacity(kind) ==>
      SlotsHold(slots[count := data(ls[i], i)], ls[..i + 1], mask, kind, count + 1, before, data)
    ensures !(OfKind(ls[i], mask, kind) && count < Capacity(kind)) ==>
      SlotsHold(slots, ls[..i + 1], mask, kind, count, before, data)
  {
    if OfKind(ls[i], mask, kind) && count < Capacity(kind) {
      SlotsTake(slots, ls, mask, kind, i, count, before, data);
    } else {
      SlotsSkip(slots, ls, mask, kind, i, count, before, data);
    }
  }

  /** The first `upTo` entries of `m` are those of the index map for `ls`. */
  predicate MapFilled(m: seq<int>, ls: seq<VisibleLight>, mask: bv32, upTo: nat)
  {
    upTo <= |m| && |ls| <= |m| &&
    forall j :: 0 <= j < upTo ==> m[j] == if j < |ls| then MapEntry(ls, mask, j) else -1
  }

  lemma MapFilledStep(m: seq<int>, ls: seq<VisibleLight>, mask: bv32, i: nat, e: int)
    requires MapFilled(m, ls, mask, i) && i < |m|
    requires e == if i < |ls| then MapEntry(ls, mask, i) else -1
    ensures MapFilled(m[i := e], ls, mask, i + 1)
  {
  }

  lemma MapFilledComplete(m: seq<int>, ls: seq<VisibleLight>, mask: bv32)
    requires MapFilled(m, ls, mask, |m|)
    ensures m == IndexMap(ls, mask, |m|)
  {
  }

  // ---------------------------------------------------------------------------
  // The packer

  class Lighting {
    /** The static directional slot arrays (colour, direction and mask, shadow data), one record per slot. */
    var dirLights: array<DirLightData>
    /** The static other-light slot arrays, one record per slot. */
    var otherLights: array<OtherLightData>
    /** Reservations made with the shadow subsystem. */
    var reservations: seq<ShadowReservation>
    /** Recorded global-parameter commands. */
    var commands: seq<LightingCommand>
    /** The `_LIGHTS_PER_OBJECT` shader keyword. */
    var lightsPerObjectKeyword: bool
    /** The index map last handed back to culling. */
    var lightIndexMap: seq<int>

    ghost predicate Valid()
      reads this
    {
      dirLights.Length == MaxDirLightCount && otherLights.Length == MaxOtherLightCount
    }

    constructor ()
      ensures Valid() && fresh(dirLights) && fresh(otherLights)
      ensures reservations == [] && commands == [] && !lightsPerObjectKeyword && lightIndexMap == []
    {
      dirLights := new DirLightData[MaxDirLightCount](_ => EmptyDirLight);
      otherLights := new OtherLightData[MaxOtherLightCount](_ => EmptyOtherLight);
      reservations := [];
      commands := [];
      lightsPerObjectKeyword := false;
      lightIndexMap := [];
    }

    method ReserveDirectionalShadows(visibleIndex: nat) returns (data: ShadowReservation)
      modifies this`reservations
      ensures data == DirectionalShadow(visibleIndex)
      ensures reservations == old(reservations) + [data]
    {
      data := DirectionalShadow(visibleIndex);
      reservations := reservations + [data];
    }

    method ReserveOtherShadows(visibleIndex: nat) returns (data: ShadowReservation)
      modifies this`reservations
      ensures data == OtherShadow(visibleIndex)
      ensures reservations == old(reservations) + [data]
    {
      data := OtherShadow(visibleIndex);
      reservations := reservations + [data];
    }

    method SetupDirectionalLight(index: nat, visibleIndex: nat, light: VisibleLight)
      requires Valid() && index < MaxDirLightCount
      modifies this`reservations, dirLights
      ensures dirLights[..] == old(dirLights[..])[index := DirData(light, visibleIndex)]
      ensures reservations == old(reservations) + [DirectionalShadow(visibleIndex)]
    {
      var direction := Neg(light.forward);
      var shadow := ReserveDirectionalShadows(visibleIndex);
      dirLights[index] := DirLightData(light.finalColor, direction, light.layerMask, shadow);
    }

    method SetupPointLight(index: nat, visibleIndex: nat, light: VisibleLight)
      requires Valid() && index < MaxOtherLightCount && light.lightType == Point
      modifies this`reservations, otherLights
      ensures otherLights[..] == old(otherLights[..])[index := OtherData(light, visibleIndex)]
      ensures reservations == old(reservations) + [OtherShadow(visibleIndex)]
    {
      var invRangeSqr := InvRangeSqr(light.range);
      var shadow := ReserveOtherShadows(visibleIndex);
      otherLights[index] := OtherLightData(light.finalColor, light.position, invRangeSqr,
        Vec3(0.0, 0.0, 0.0), light.layerMask, SpotAngles(0.0, 1.0), shadow);
    }

    method SetupSpotLight(index: nat, visibleIndex: nat, light: VisibleLight)
      requires Valid() && index < MaxOtherLightCount && light.lightType == Spot
      modifies this`reservations, otherLights
      ensures otherLights[..] == old(otherLights[..])[index := OtherData(light, visibleIndex)]
      ensures reservations == old(reservations) + [OtherShadow(visibleIndex)]
    {
      var invRangeSqr := InvRangeSqr(light.range);
      var direction := Neg(light.forward);
      var angleRangeInv := AngleRangeInv(light.innerCos, light.outerCos);
      var shadow := ReserveOtherShadows(visibleIndex);
      otherLights[index] := OtherLightData(light.finalColor, light.position, invRangeSqr, direction,
        light.layerMask, SpotAngles(angleRangeInv, -light.outerCos * angleRangeInv), shadow);
      assert otherLights[index] == OtherData(light, visibleIndex);
    }

    /** One iteration of the packing loop: admit visible light i into the slots of its kind if there is room. */
    method PackLight(ls: seq<VisibleLight>, mask: bv32, i: nat, dirCount: nat, otherCount: nat,
                     ghost dirsBefore: seq<DirLightData>, ghost othersBefore: seq<OtherLightData>,
                     ghost reservationsBefore: seq<ShadowReservation>)
      returns (newIndex: int, dirCount': nat, otherCount': nat)
      requires Valid() && i < |ls|
      requires DirSlotsHold(dirLights[..], ls[..i], mask, dirCount, dirsBefore)
      requires OtherSlotsHold(otherLights[..], ls[..i], mask, otherCount, othersBefore)
      requires reservations == reservationsBefore + Reservations(ls[..i], mask)
      modifies this`reservations, dirLights, otherLights
      ensures DirSlotsHold(dirLights[..], ls[..i + 1], mask, dirCount', dirsBefore)
      ensures OtherSlotsHold(otherLights[..], ls[..i + 1], mask, otherCount', othersBefore)
      ensures reservations == reservationsBefore + Reservations(ls[..i + 1], mask)
      ensures newIndex == MapEntry(ls, mask, i)
    {
      PackedStep(ls, mask, DirKind, i);
      PackedStep(ls, mask, OtherKind, i);
      assert dirCount == |PackedIndices(ls[..i], mask, DirKind)|;
      assert otherCount == |PackedIndices(ls[..i], mask, OtherKind)|;
      ghost var dirs0, others0, reservations0 := dirLights[..], otherLights[..], reservations;
      newIndex, dirCount', otherCount' := SetupLight(ls[i], i, mask, dirCount, otherCount);
      ReservationsAfter(ls, mask, i, dirCount, otherCount, reservations0, reservations, reservationsBefore);
      SlotsAfter(dirs0, dirLights[..], ls, mask, DirKind, i, dirCount, dirCount', dirsBefore, DirData);
      SlotsAfter(others0, otherLights[..], ls, mask, OtherKind, i, otherCount, otherCount', othersBefore, OtherData);
    }

    /** The branches of the packing loop's body for one visible light, by type, while its slots have room. */
    method SetupLight(light: VisibleLight, i: nat, mask: bv32, dirCount: nat, otherCount: nat)
      returns (newIndex: int, dirCount': nat, otherCount': nat)
      requires Valid()
      modifies this`reservations, dirLights, otherLights
      ensures var admitted := OfKind(light, mask, DirKind) && dirCount < MaxDirLightCount;
              && dirLights[..] == (if admitted then old(dirLights[..])[dirCount := DirData(light, i)] else old(dirLights[..]))
              && dirCount' == if admitted then dirCount + 1 else dirCount
      ensures var admitted := OfKind(light, mask, OtherKind) && otherCount < MaxOtherLightCount;
              && otherLights[..] == (if admitted then old(otherLights[..])[otherCount := OtherData(light, i)]
                                     else old(otherLights[..]))
              && otherCount' == (if admitted then otherCount + 1 else otherCount)
              && newIndex == if admitted then otherCount else -1
      ensures reservations
              == if OfKind(light, mask, DirKind) && dirCount < MaxDirLightCount then
                   old(reservations) + [DirectionalShadow(i)]
                 else if OfKind(light, mask, OtherKind) && otherCount < MaxOtherLightCount then
                   old(reservations) + [OtherShadow(i)]
                 else old(reservations)
    {
      dirCount', otherCount' := dirCount, otherCount;
      newIndex := -1;
      if Matches(light, mask) {
        if light.lightType == Directional {
          if dirCount < MaxDirLightCount {
            SetupDirectionalLight(dirCount, i, light);
            dirCount' := dirCount + 1;
          }
        } else if light.lightType == Point {
          if otherCount < MaxOtherLightCount {
            newIndex := otherCount;
            SetupPointLight(otherCount, i, light);
            otherCount' := otherCount + 1;
          }
        } else if light.lightType == Spot {
          if otherCount < MaxOtherLightCount {
            newIndex := otherCount;
            SetupSpotLight(otherCount, i, light);
            otherCount' := otherCount + 1;
          }
        }
      }
    }

    /** Sets the light counts, and uploads a kind's slot arrays only when its count is positive. */
    method PublishLights(dirCount: nat, otherCount: nat)
      modifies this`commands
      ensures commands == old(commands) + Uploads(dirCount, otherCount, dirLights[..], otherLights[..])
    {
      commands := commands + [SetGlobalInt("_DirectionalLightCount", dirCount)];
      if dirCount > 0 {
        commands := commands + [UploadDirectional(dirLights[..])];
      }
      commands := commands + [SetGlobalInt("_OtherLightCount", otherCount)];
      if otherCount > 0 {
        commands := commands + [UploadOther(otherLights[..])];
      }
    }

    /**
     * The packing loop over all visible lights, recording each light's slot in
     * `indexMap` when lights-per-object is enabled.
     */
    method PackAll(ls: seq<VisibleLight>, mask: bv32, indexMap: array<int>, useLightsPerObject: bool)
      returns (dirCount: nat, otherCount: nat)
      requires Valid()
      requires useLightsPerObject ==> |ls| <= indexMap.Length
      modifies this`reservations, dirLights, otherLights, indexMap
      ensures DirSlotsHold(dirLights[..], ls, mask, dirCount, old(dirLights[..]))
      ensures OtherSlotsHold(otherLights[..], ls, mask, otherCount, old(otherLights[..]))
      ensures reservations == old(reservations) + Reservations(ls, mask)
      ensures useLightsPerObject ==> MapFilled(indexMap[..], ls, mask, |ls|)
    {
      ghost var dirsBefore, othersBefore := dirLights[..], otherLights[..];
      dirCount, otherCount := 0, 0;
      var i := 0;
      while i < |ls|
        invariant 0 <= i <= |ls|
        invariant DirSlotsHold(dirLights[..], ls[..i], mask, dirCount, dirsBefore)
        invariant OtherSlotsHold(otherLights[..], ls[..i], mask, otherCount, othersBefore)
        invariant reservations == old(reservations) + Reservations(ls[..i], mask)
        invariant useLightsPerObject ==> MapFilled(indexMap[..], ls, mask, i)
      {
        var newIndex;
        newIndex, dirCount, otherCount := PackLight(ls, mask, i, dirCount, otherCount, dirsBefore, othersBefore, old(reservations));
        if useLightsPerObject {
          MapFilledStep(indexMap[..], ls, mask, i, newIndex);
          indexMap[i] := newIndex;
        }
        i := i + 1;
      }
      assert ls[..i] == ls;
    }

    /** Marks the index-map entries after the visible lights as unused (-1). */
    static method FillUnused(ls: seq<VisibleLight>, mask: bv32, indexMap: array<int>)
      requires MapFilled(indexMap[..], ls, mask, |ls|)
      modifies indexMap
      ensures indexMap[..] == IndexMap(ls, mask, indexMap.Length)
    {
      var i := |ls|;
      while i < indexMap.Length
        invariant |ls| <= i <= indexMap.Length
        invariant MapFilled(indexMap[..], ls, mask, i)
      {
        MapFilledStep(indexMap[..], ls, mask, i, -1);
        indexMap[i] := -1;
        i := i + 1;
      }
      MapFilledComplete(indexMap[..], ls, mask);
    }

    method SetupLights(visibleLights: seq<VisibleLight>, indexMapLength: nat,
                       useLightsPerObject: bool, renderingLayerMask: bv32)
      requires Valid()
      requires useLightsPerObject ==> |visibleLights| <= indexMapLength
      modifies this, dirLights, otherLights
      ensures Valid() && dirLights == old(dirLights) && otherLights == old(otherLights)
      ensures DirSlotsHold(dirLights[..], visibleLights, renderingLayerMask,
                           |PackedIndices(visibleLights, renderingLayerMask, DirKind)|, old(dirLights[..]))
      ensures OtherSlotsHold(otherLights[..], visibleLights, renderingLayerMask,
                             |PackedIndices(visibleLights, renderingLayerMask, OtherKind)|, old(otherLights[..]))
      ensures reservations == old(reservations) + Reservations(visibleLights, renderingLayerMask)
      ensures lightsPerObjectKeyword == useLightsPerObject
      ensures useLightsPerObject ==> lightIndexMap == IndexMap(visibleLights, renderingLayerMask, indexMapLength)
      ensures !useLightsPerObject ==> lightIndexMap == old(lightIndexMap)
      ensures commands == old(commands) + Uploads(
        |PackedIndices(visibleLights, renderingLayerMask, DirKind)|,
        |PackedIndices(visibleLights, renderingLayerMask, OtherKind)|,
        dirLights[..], otherLights[..])
    {
      var indexMap := new int[if useLightsPerObject then indexMapLength else 0];
      var dirCount, otherCount := PackAll(visibleLights, renderingLayerMask, indexMap, useLightsPerObject);
      if useLightsPerObject {
        FillUnused(visibleLights, renderingLayerMask, indexMap);
        lightIndexMap := indexMap[..];
        lightsPerObjectKeyword := true;
      } else {
        lightsPerObjectKeyword := false;
      }
      PublishLights(dirCount, otherCount);
    }

    /**
     * The state lighting setup leaves, relative to the state before it: the
     * packing of `ls` in the slots (stale slots past the counts kept), its
     * reservations, the keyword, the index map when lights-per-object is on
     * (the old map otherwise), and the uploads of both counts and arrays.
     */
    twostate predicate LightsSetUp(ls: seq<VisibleLight>, indexMapLength: nat, useLightsPerObject: bool, mask: bv32)
      requires useLightsPerObject ==> |ls| <= indexMapLength
      reads this, dirLights, otherLights
    {
      var dirCount, otherCount := |PackedIndices(ls, mask, DirKind)|, |PackedIndices(ls, mask, OtherKind)|;
      && dirLights == old(dirLights) && otherLights == old(otherLights)
      && DirSlotsHold(dirLights[..], ls, mask, dirCount, old(dirLights[..]))
      && OtherSlotsHold(otherLights[..], ls, mask, otherCount, old(otherLights[..]))
      && reservations == old(reservations) + Reservations(ls, mask)
      && lightsPerObjectKeyword == useLightsPerObject
      && (useLightsPerObject ==> lightIndexMap == IndexMap(ls, mask, indexMapLength))
      && (!useLightsPerObject ==> lightIndexMap == old(lightIndexMap))
      && commands == old(commands) + Uploads(dirCount, otherCount, dirLights[..], otherLights[..])
    }

    /** Nothing of the lighting state has changed: fields, slots and recorded commands. */
    twostate predicate Untouched()
      reads this, dirLights, otherLights
    {
      unchanged(this) && unchanged(dirLights) && unchanged(otherLights)
    }

    /** Lighting setup for one camera: shadow setup and rendering are not part of this model. */
    method Setup(cullingResults: CullingResults, useLightsPerObject: bool, renderingLayerMask: bv32)
      requires Valid()
      requires useLightsPerObject ==> |cullingResults.visibleLights| <= cullingResults.lightIndexMapLength
      modifies this, dirLights, otherLights
      ensures Valid()
      ensures LightsSetUp(cullingResults.visibleLights, cullingResults.lightIndexMapLength, useLightsPerObject,
                          renderingLayerMask)
    {
      SetupLights(cullingResults.visibleLights, cullingResults.lightIndexMapLength,
                  useLightsPerObject, renderingLayerMask);
    }
  }
}
