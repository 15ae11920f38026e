/** The records of the preset document (agents/schema.py, BurstSettings
    through PresetSchema). Each record has a smart constructor that does what
    the record's `__post_init__` does — clamp every bounded field, check every
    path and palette — and fails as a whole if any check fails; a `ToJson`
    that emits the `to_dict` layout; and a decoder with a round-trip lemma
    showing that the layout loses nothing. */
module PresetSchema {
  import opened Wrappers
  import opened Primitives
  import opened Json

  // ---------------------------------------------------------------- burst

  datatype Burst = Burst(intervalSec: real, count: int) {
    predicate Valid() {
      intervalSec >= 0.0 && InRange(count, 0, MaxBurstCount)
    }
  }

  /** BurstSettings: the interval saturates at 0 from below and the count
      into [0, 100000]; a NaN interval is rejected. */
  function MakeBurst(intervalSec: Num, count: int): (r: Result<Burst>)
    ensures r.Success? <==> intervalSec.Val?
    ensures r.Success? ==> r.value.Valid()
    ensures r.Success? ==> IsNearest(r.value.intervalSec, intervalSec.x, Some(0.0), None)
    ensures r.Success? ==> IsNearestInt(r.value.count, count, 0, MaxBurstCount)
  {
    var interval :- Clamp(intervalSec, Some(0.0), None);
    Success(Burst(interval, ClampInt(count, 0, MaxBurstCount)))
  }

  const BurstKeys: seq<string> := ["interval_sec", "count"]

  function BurstValues(b: Burst): (vs: seq<Option<Json>>)
    ensures |vs| == |BurstKeys|
  {
    [ Req(Float(b.intervalSec)),
      Req(JInt(b.count)) ]
  }

  function BurstToJson(b: Burst): (j: Json)
    ensures Keys(j) == BurstKeys
  {
    ObjKeys(BurstKeys, BurstValues(b));
    Obj(BurstKeys, BurstValues(b))
  }

  function BurstFromJson(j: Json): Option<Burst> {
    var interval :- Field(j, "interval_sec", AsNum);
    var count :- Field(j, "count", AsInt);
    Some(Burst(interval, count))
  }

  lemma BurstRoundTrip(b: Burst)
    ensures BurstFromJson(BurstToJson(b)) == Some(b)
  {
    ObjGet(BurstKeys, BurstValues(b));
    assert BurstKeys[0] == "interval_sec" && BurstKeys[1] == "count";
  }

  // ----------------------------------------------------------- spawn band

  datatype SpawnBand = SpawnBand(y: real, height: real) {
    predicate Valid() {
      InBounds(y, Some(0.0), Some(1.0)) && InBounds(height, Some(0.0), Some(1.0))
    }
  }

  /** SpawnBand: both coordinates saturate into [0, 1]. */
  function MakeSpawnBand(y: Num, height: Num): (r: Result<SpawnBand>)
    ensures r.Success? <==> y.Val? && height.Val?
    ensures r.Success? ==> r.value.Valid()
    ensures r.Success? ==> IsNearest(r.value.y, y.x, Some(0.0), Some(1.0))
    ensures r.Success? ==> IsNearest(r.value.height, height.x, Some(0.0), Some(1.0))
  {
    var y' :- Clamp(y, Some(0.0), Some(1.0));
    var height' :- Clamp(height, Some(0.0), Some(1.0));
    Success(SpawnBand(y', height'))
  }

  const SpawnBandKeys: seq<string> := ["y", "height"]

  function SpawnBandValues(s: SpawnBand): (vs: seq<Option<Json>>)
    ensures |vs| == |SpawnBandKeys|
  {
    [ Req(Float(s.y)),
      Req(Float(s.height)) ]
  }

  function SpawnBandToJson(s: SpawnBand): (j: Json)
    ensures Keys(j) == SpawnBandKeys
  {
    ObjKeys(SpawnBandKeys, SpawnBandValues(s));
    Obj(SpawnBandKeys, SpawnBandValues(s))
  }

  function SpawnBandFromJson(j: Json): Option<SpawnBand> {
    var y :- Field(j, "y", AsNum);
    var height :- Field(j, "height", AsNum);
    Some(SpawnBand(y, height))
  }

  lemma SpawnBandRoundTrip(s: SpawnBand)
    ensures SpawnBandFromJson(SpawnBandToJson(s)) == Some(s)
  {
    ObjGet(SpawnBandKeys, SpawnBandValues(s));
    assert SpawnBandKeys[0] == "y" && SpawnBandKeys[1] == "height";
  }

  // -------------------------------------------------------------- emitter

  /** `seed & 0xFFFFFFFF` on a Python integer: the low 32 bits, read as an
      unsigned number, for negative seeds too. */
  function Mask32(seed: int): (r: int)
    ensures 0 <= r < TwoTo32
    ensures (seed - r) % TwoTo32 == 0
    ensures 0 <= seed < TwoTo32 ==> r == seed
  {
    seed % TwoTo32
  }

  datatype Emitter = Emitter(
    kind: string,
    ratePerSec: int,
    spawnBand: SpawnBand,
    burst: Option<Burst>,
    randomSeed: Option<int>)
  {
    predicate Valid() {
      && InRange(ratePerSec, 0, MaxParticleRate)
      && spawnBand.Valid()
      && (burst.Some? ==> burst.value.Valid())
      && (randomSeed.Some? ==> 0 <= randomSeed.value < TwoTo32)
    }
  }

  /** EmitterSettings: the rate saturates into [0, 100000] and a present seed
      is reduced modulo 2^32 (it wraps, it does not saturate). An integer
      field cannot be NaN, so in this model construction never fails. */
  function MakeEmitter(kind: string, ratePerSec: int, spawnBand: SpawnBand, burst: Option<Burst>, randomSeed: Option<int>)
    : (e: Emitter)
    ensures e.Valid() <==> spawnBand.Valid() && (burst.Some? ==> burst.value.Valid())
    ensures e.kind == kind && e.spawnBand == spawnBand && e.burst == burst
    ensures IsNearestInt(e.ratePerSec, ratePerSec, 0, MaxParticleRate)
    ensures e.randomSeed.Some? <==> randomSeed.Some?
    ensures randomSeed.Some? ==> 0 <= e.randomSeed.value < TwoTo32
    ensures randomSeed.Some? ==> (randomSeed.value - e.randomSeed.value) % TwoTo32 == 0
  {
    var seed := if randomSeed.Some? then Some(Mask32(randomSeed.value)) else None;
    Emitter(kind, ClampInt(ratePerSec, 0, MaxParticleRate), spawnBand, burst, seed)
  }

  const EmitterKeys: seq<string> := ["type", "rate_per_sec", "spawn_band", "burst", "random_seed"]

  function EmitterValues(e: Emitter): (vs: seq<Option<Json>>)
    ensures |vs| == |EmitterKeys|
  {
    [ Req(Str(e.kind)),
      Req(JInt(e.ratePerSec)),
      Req(SpawnBandToJson(e.spawnBand)),
      Opt(e.burst, BurstToJson),
      Opt(e.randomSeed, (n: int) => JInt(n)) ]
  }

  /** The `burst` and `random_seed` keys are present exactly when the
      emitter has a burst and a seed. */
  function EmitterToJson(e: Emitter): (j: Json)
    ensures HasKey(j, "burst") <==> e.burst.Some?
    ensures HasKey(j, "random_seed") <==> e.randomSeed.Some?
  {
    assert EmitterKeys[3] == "burst" && EmitterKeys[4] == "random_seed";
    ObjGet(EmitterKeys, EmitterValues(e));
    Obj(EmitterKeys, EmitterValues(e))
  }

  function EmitterFromJson(j: Json): Option<Emitter> {
    var kind :- Field(j, "type", AsStr);
    var rate :- Field(j, "rate_per_sec", AsInt);
    var band :- Field(j, "spawn_band", SpawnBandFromJson);
    var burst :- OptField(j, "burst", BurstFromJson);
    var seed :- OptField(j, "random_seed", AsInt);
    Some(Emitter(kind, rate, band, burst, seed))
  }

  lemma EmitterRoundTrip(e: Emitter)
    ensures EmitterFromJson(EmitterToJson(e)) == Some(e)
  {
    ObjGet(EmitterKeys, EmitterValues(e));
    assert EmitterKeys[0] == "type" && EmitterKeys[1] == "rate_per_sec" && EmitterKeys[2] == "spawn_band";
    assert EmitterKeys[3] == "burst" && EmitterKeys[4] == "random_seed";
    SpawnBandRoundTrip(e.spawnBand);
    if e.burst.Some? {
      BurstRoundTrip(e.burst.value);
    }
  }

  // ----------------------------------------------------------- appearance

  datatype SizeRange = SizeRange(min: real, max: real) {
    predicate Valid() {
      0.0 <= min <= max
    }
  }

  /** SizeRange: `min` saturates at 0 from below, then `max` saturates from
      below at the already clamped `min`; neither has an upper bound. */
  function MakeSizeRange(min: Num, max: Num): (r: Result<SizeRange>)
    ensures r.Success? <==> min.Val? && max.Val?
    ensures r.Success? ==> r.value.Valid()
    ensures r.Success? ==> IsNearest(r.value.min, min.x, Some(0.0), None)
    ensures r.Success? ==> IsNearest(r.value.max, max.x, Some(r.value.min), None)
  {
    var min' :- Clamp(min, Some(0.0), None);
    var max' :- Clamp(max, Some(if min' >= 0.0 then min' else 0.0), None);
    Success(SizeRange(min', max'))
  }

  const SizeRangeKeys: seq<string> := ["min", "max"]

  function SizeRangeValues(s: SizeRange): (vs: seq<Option<Json>>)
    ensures |vs| == |SizeRangeKeys|
  {
    [ Req(Float(s.min)),
      Req(Float(s.max)) ]
  }

  function SizeRangeToJson(s: SizeRange): (j: Json)
    ensures Keys(j) == SizeRangeKeys
  {
    ObjKeys(SizeRangeKeys, SizeRangeValues(s));
    Obj(SizeRangeKeys, SizeRangeValues(s))
  }

  function SizeRangeFromJson(j: Json): Option<SizeRange> {
    var min :- Field(j, "min", AsNum);
    var max :- Field(j, "max", AsNum);
    Some(SizeRange(min, max))
  }

  lemma SizeRangeRoundTrip(s: SizeRange)
    ensures SizeRangeFromJson(SizeRangeToJson(s)) == Some(s)
  {
    ObjGet(SizeRangeKeys, SizeRangeValues(s));
    assert SizeRangeKeys[0] == "min" && SizeRangeKeys[1] == "max";
  }

  /** Every entry of the list is a non-empty string. */
  predicate AllNonEmpty(xs: seq<string>) {
    forall i :: 0 <= i < |xs| ==> xs[i] != ""
  }

  datatype Appearance = Appearance(palette: seq<string>, sizePx: SizeRange, sprite: string) {
    predicate Valid() {
      |palette| > 0 && AllNonEmpty(palette) && sizePx.Valid() && sprite != ""
    }
  }

  /** AppearanceSettings: the palette keeps its non-empty colors and must
      keep at least one; the sprite only has to be non-empty (it need not be
      a runtime path). */
  function MakeAppearance(palette: seq<string>, sizePx: SizeRange, sprite: string): (r: Result<Appearance>)
    ensures r.Success? <==> HasColor(palette) && sprite != ""
    ensures r.Success? ==> r.value.palette == NonEmptyEntries(palette)
    ensures r.Success? ==> r.value.sizePx == sizePx && r.value.sprite == sprite
    ensures r.Success? ==> (r.value.Valid() <==> sizePx.Valid())
  {
    var colors :- EnsurePalette(palette);
    if sprite == "" then Failure("sprite path cannot be empty")
    else
      assert forall i :: 0 <= i < |colors| ==> colors[i] in colors;
      Success(Appearance(colors, sizePx, sprite))
  }

  const AppearanceKeys: seq<string> := ["palette", "size_px", "sprite"]

  function AppearanceValues(a: Appearance): (vs: seq<Option<Json>>)
    ensures |vs| == |AppearanceKeys|
  {
    [ Req(Strs(a.palette)),
      Req(SizeRangeToJson(a.sizePx)),
      Req(Str(a.sprite)) ]
  }

  function AppearanceToJson(a: Appearance): (j: Json)
    ensures Keys(j) == AppearanceKeys
  {
    ObjKeys(AppearanceKeys, AppearanceValues(a));
    Obj(AppearanceKeys, AppearanceValues(a))
  }

  function AppearanceFromJson(j: Json): Option<Appearance> {
    var palette :- Field(j, "palette", AsStrs);
    var size :- Field(j, "size_px", SizeRangeFromJson);
    var sprite :- Field(j, "sprite", AsStr);
    Some(Appearance(palette, size, sprite))
  }

  lemma AppearanceRoundTrip(a: Appearance)
    ensures AppearanceFromJson(AppearanceToJson(a)) == Some(a)
  {
    ObjGet(AppearanceKeys, AppearanceValues(a));
    assert AppearanceKeys[0] == "palette" && AppearanceKeys[1] == "size_px" && AppearanceKeys[2] == "sprite";
    StrsRoundTrip(a.palette);
    SizeRangeRoundTrip(a.sizePx);
  }

  // --------------------------------------------------------------- motion

  datatype Motion = Motion(
    drag: real,
    swayAmp: real,
    swayFreq: real,
    spinDegPerSec: real,
    gravity: real,
    glideLift: real)
  {
    predicate Valid() {
      && InBounds(drag, Some(0.0), Some(5.0))
      && InBounds(swayAmp, Some(0.0), Some(180.0))
      && InBounds(swayFreq, Some(0.0), Some(5.0))
      && InBounds(spinDegPerSec, Some(-720.0), Some(720.0))
      && InBounds(gravity, Some(-5000.0), Some(5000.0))
      && InBounds(glideLift, Some(0.0), Some(5.0))
    }
  }

  /** MotionSettings: each coefficient saturates into its own fixed range. */
  function MakeMotion(drag: Num, swayAmp: Num, swayFreq: Num, spinDegPerSec: Num, gravity: Num, glideLift: Num)
    : (r: Result<Motion>)
    ensures r.Success? <==> drag.Val? && swayAmp.Val? && swayFreq.Val? && spinDegPerSec.Val? && gravity.Val? && glideLift.Val?
    ensures r.Success? ==> r.value.Valid()
    ensures r.Success? ==> IsNearest(r.value.drag, drag.x, Some(0.0), Some(5.0))
    ensures r.Success? ==> IsNearest(r.value.swayAmp, swayAmp.x, Some(0.0), Some(180.0))
    ensures r.Success? ==> IsNearest(r.value.swayFreq, swayFreq.x, Some(0.0), Some(5.0))
    ensures r.Success? ==> IsNearest(r.value.spinDegPerSec, spinDegPerSec.x, Some(-720.0), Some(720.0))
    ensures r.Success? ==> IsNearest(r.value.gravity, gravity.x, Some(-5000.0), Some(5000.0))
    ensures r.Success? ==> IsNearest(r.value.glideLift, glideLift.x, Some(0.0), Some(5.0))
  {
    var drag' :- Clamp(drag, Some(0.0), Some(5.0));
    var swayAmp' :- Clamp(swayAmp, Some(0.0), Some(180.0));
    var swayFreq' :- Clamp(swayFreq, Some(0.0), Some(5.0));
    var spin' :- Clamp(spinDegPerSec, Some(-720.0), Some(720.0));
    var gravity' :- Clamp(gravity, Some(-5000.0), Some(5000.0));
    var lift' :- Clamp(glideLift, Some(0.0), Some(5.0));
    Success(Motion(drag', swayAmp', swayFreq', spin', gravity', lift'))
  }

  /** A motion record whose every coefficient is already in range comes out
      of construction unchanged. */
  lemma MakeMotionKeepsValid(m: Motion)
    requires m.Valid()
    ensures MakeMotion(Val(m.drag), Val(m.swayAmp), Val(m.swayFreq), Val(m.spinDegPerSec), Val(m.gravity), Val(m.glideLift))
         == Success(m)
  {
  }

  const SwayKeys: seq<string> := ["amp", "freq"]
  const SpinKeys: seq<string> := ["deg_per_sec"]
  const GlideKeys: seq<string> := ["lift"]

  function SwayValues(m: Motion): (vs: seq<Option<Json>>)
    ensures |vs| == |SwayKeys|
  {
    [Req(Float(m.swayAmp)), Req(Float(m.swayFreq))]
  }

  function SpinValues(m: Motion): (vs: seq<Option<Json>>)
    ensures |vs| == |SpinKeys|
  {
    [Req(Float(m.spinDegPerSec))]
  }

  function GlideValues(m: Motion): (vs: seq<Option<Json>>)
    ensures |vs| == |GlideKeys|
  {
    [Req(Float(m.glideLift))]
  }

  const MotionKeys: seq<string> := ["drag", "sway", "spin", "gravity", "glide"]

  function MotionValues(m: Motion): (vs: seq<Option<Json>>)
    ensures |vs| == |MotionKeys|
  {
    [ Req(Float(m.drag)),
      Req(Obj(SwayKeys, SwayValues(m))),
      Req(Obj(SpinKeys, SpinValues(m))),
      Req(Float(m.gravity)),
      Req(Obj(GlideKeys, GlideValues(m))) ]
  }

  function MotionToJson(m: Motion): (j: Json)
    ensures Keys(j) == MotionKeys
  {
    ObjKeys(MotionKeys, MotionValues(m));
    Obj(MotionKeys, MotionValues(m))
  }

  function MotionFromJson(j: Json): Option<Motion> {
    var drag :- Field(j, "drag", AsNum);
    var sway :- Get(j, "sway");
    var amp :- Field(sway, "amp", AsNum);
    var freq :- Field(sway, "freq", AsNum);
    var spin :- Get(j, "spin");
    var deg :- Field(spin, "deg_per_sec", AsNum);
    var gravity :- Field(j, "gravity", AsNum);
    var glide :- Get(j, "glide");
    var lift :- Field(glide, "lift", AsNum);
    Some(Motion(drag, amp, freq, deg, gravity, lift))
  }

  lemma MotionRoundTrip(m: Motion)
    ensures MotionFromJson(MotionToJson(m)) == Some(m)
  {
    ObjGet(MotionKeys, MotionValues(m));
    assert MotionKeys[0] == "drag" && MotionKeys[1] == "sway" && MotionKeys[2] == "spin" && MotionKeys[3] == "gravity" && MotionKeys[4] == "glide";
    assert SwayKeys[0] == "amp" && SwayKeys[1] == "freq" && SpinKeys[0] == "deg_per_sec" && GlideKeys[0] == "lift";
    ObjGet(SwayKeys, SwayValues(m));
    ObjGet(SpinKeys, SpinValues(m));
    ObjGet(GlideKeys, GlideValues(m));
  }

  // --------------------------------------------------------- accumulation

  datatype Accumulation = Accumulation(enabled: bool, mode: string, maxHeightPx: real, diffusion: real) {
    predicate Valid() {
      InBounds(maxHeightPx, Some(0.0), Some(MaxAccumulationHeight)) && InBounds(diffusion, Some(0.0), Some(1.0))
    }
  }

  /** AccumulationSettings: the height saturates into [0, 512] and the
      diffusion into [0, 1]. */
  function MakeAccumulation(enabled: bool, mode: string, maxHeightPx: Num, diffusion: Num): (r: Result<Accumulation>)
    ensures r.Success? <==> maxHeightPx.Val? && diffusion.Val?
    ensures r.Success? ==> r.value.Valid() && r.value.enabled == enabled && r.value.mode == mode
    ensures r.Success? ==> IsNearest(r.value.maxHeightPx, maxHeightPx.x, Some(0.0), Some(MaxAccumulationHeight))
    ensures r.Success? ==> IsNearest(r.value.diffusion, diffusion.x, Some(0.0), Some(1.0))
  {
    var height :- Clamp(maxHeightPx, Some(0.0), Some(MaxAccumulationHeight));
    var diffusion' :- Clamp(diffusion, Some(0.0), Some(1.0));
    Success(Accumulation(enabled, mode, height, diffusion'))
  }

  const AccumulationKeys: seq<string> := ["enabled", "mode", "max_height_px", "diffusion"]

  function AccumulationValues(a: Accumulation): (vs: seq<Option<Json>>)
    ensures |vs| == |AccumulationKeys|
  {
    [ Req(JBool(a.enabled)),
      Req(Str(a.mode)),
      Req(Float(a.maxHeightPx)),
      Req(Float(a.diffusion)) ]
  }

  function AccumulationToJson(a: Accumulation): (j: Json)
    ensures Keys(j) == AccumulationKeys
  {
    ObjKeys(AccumulationKeys, AccumulationValues(a));
    Obj(AccumulationKeys, AccumulationValues(a))
  }

  function AccumulationFromJson(j: Json): Option<Accumulation> {
    var enabled :- Field(j, "enabled", AsBool);
    var mode :- Field(j, "mode", AsStr);
    var height :- Field(j, "max_height_px", AsNum);
    var diffusion :- Field(j, "diffusion", AsNum);
    Some(Accumulation(enabled, mode, height, diffusion))
  }

  lemma AccumulationRoundTrip(a: Accumulation)
    ensures AccumulationFromJson(AccumulationToJson(a)) == Some(a)
  {
    ObjGet(AccumulationKeys, AccumulationValues(a));
    assert AccumulationKeys[0] == "enabled" && AccumulationKeys[1] == "mode" && AccumulationKeys[2] == "max_height_px" && AccumulationKeys[3] == "diffusion";
  }

  // ------------------------------------------------------------- obstacle

  datatype ObstacleSettings = ObstacleSettings(collideMask: string, stickiness: real) {
    predicate Valid() {
      IsRuntimePath(collideMask) && InBounds(stickiness, Some(0.0), Some(1.0))
    }
  }

  /** ObstacleSettings: the collision mask must be a runtime path and the
      stickiness saturates into [0, 1]. */
  function MakeObstacleSettings(collideMask: string, stickiness: Num): (r: Result<ObstacleSettings>)
    ensures r.Success? <==> IsRuntimePath(collideMask) && stickiness.Val?
    ensures r.Success? ==> r.value.Valid() && r.value.collideMask == collideMask
    ensures r.Success? ==> IsNearest(r.value.stickiness, stickiness.x, Some(0.0), Some(1.0))
  {
    var mask :- EnsureRuntimePath(collideMask);
    var stickiness' :- Clamp(stickiness, Some(0.0), Some(1.0));
    Success(ObstacleSettings(mask, stickiness'))
  }

  const ObstacleSettingsKeys: seq<string> := ["collide_mask", "stickiness"]

  function ObstacleSettingsValues(o: ObstacleSettings): (vs: seq<Option<Json>>)
    ensures |vs| == |ObstacleSettingsKeys|
  {
    [ Req(Str(o.collideMask)),
      Req(Float(o.stickiness)) ]
  }

  function ObstacleSettingsToJson(o: ObstacleSettings): (j: Json)
    ensures Keys(j) == ObstacleSettingsKeys
  {
    ObjKeys(ObstacleSettingsKeys, ObstacleSettingsValues(o));
    Obj(ObstacleSettingsKeys, ObstacleSettingsValues(o))
  }

  function ObstacleSettingsFromJson(j: Json): Option<ObstacleSettings> {
    var mask :- Field(j, "collide_mask", AsStr);
    var stickiness :- Field(j, "stickiness", AsNum);
    Some(ObstacleSettings(mask, stickiness))
  }

  lemma ObstacleSettingsRoundTrip(o: ObstacleSettings)
    ensures ObstacleSettingsFromJson(ObstacleSettingsToJson(o)) == Some(o)
  {
    ObjGet(ObstacleSettingsKeys, ObstacleSettingsValues(o));
    assert ObstacleSettingsKeys[0] == "collide_mask" && ObstacleSettingsKeys[1] == "stickiness";
  }

  // ------------------------------------------------------- fx, background

  datatype Background = Background(gradient: seq<string>, cycleByClock: bool) {
    predicate Valid() {
      |gradient| > 0 && AllNonEmpty(gradient)
    }
  }

  /** BackgroundSettings: the gradient is filtered like a palette and must
      keep at least one color. */
  function MakeBackground(gradient: seq<string>, cycleByClock: bool): (r: Result<Background>)
    ensures r.Success? <==> HasColor(gradient)
    ensures r.Success? ==> r.value.Valid()
    ensures r.Success? ==> r.value.gradient == NonEmptyEntries(gradient) && r.value.cycleByClock == cycleByClock
  {
    var colors :- EnsurePalette(gradient);
    assert forall i :: 0 <= i < |colors| ==> colors[i] in colors;
    Success(Background(colors, cycleByClock))
  }

  const BackgroundKeys: seq<string> := ["gradient", "cycle_by_clock"]

  function BackgroundValues(b: Background): (vs: seq<Option<Json>>)
    ensures |vs| == |BackgroundKeys|
  {
    [ Req(Strs(b.gradient)),
      Req(JBool(b.cycleByClock)) ]
  }

  function BackgroundToJson(b: Background): (j: Json)
    ensures Keys(j) == BackgroundKeys
  {
    ObjKeys(BackgroundKeys, BackgroundValues(b));
    Obj(BackgroundKeys, BackgroundValues(b))
  }

  function BackgroundFromJson(j: Json): Option<Background> {
    var gradient :- Field(j, "gradient", AsStrs);
    var cycle :- Field(j, "cycle_by_clock", AsBool);
    Some(Background(gradient, cycle))
  }

  lemma BackgroundRoundTrip(b: Background)
    ensures BackgroundFromJson(BackgroundToJson(b)) == Some(b)
  {
    ObjGet(BackgroundKeys, BackgroundValues(b));
    assert BackgroundKeys[0] == "gradient" && BackgroundKeys[1] == "cycle_by_clock";
    StrsRoundTrip(b.gradient);
  }

  datatype FX = FX(bloom: real, background: Background) {
    predicate Valid() {
      InBounds(bloom, Some(0.0), Some(2.0)) && background.Valid()
    }
  }

  /** FXSettings: the bloom saturates into [0, 2]. */
  function MakeFX(bloom: Num, background: Background): (r: Result<FX>)
    ensures r.Success? <==> bloom.Val?
    ensures r.Success? ==> (r.value.Valid() <==> background.Valid()) && r.value.background == background
    ensures r.Success? ==> IsNearest(r.value.bloom, bloom.x, Some(0.0), Some(2.0))
  {
    var bloom' :- Clamp(bloom, Some(0.0), Some(2.0));
    Success(FX(bloom', background))
  }

  const FXKeys: seq<string> := ["bloom", "background"]

  function FXValues(f: FX): (vs: seq<Option<Json>>)
    ensures |vs| == |FXKeys|
  {
    [ Req(Float(f.bloom)),
      Req(BackgroundToJson(f.background)) ]
  }

  function FXToJson(f: FX): (j: Json)
    ensures Keys(j) == FXKeys
  {
    ObjKeys(FXKeys, FXValues(f));
    Obj(FXKeys, FXValues(f))
  }

  function FXFromJson(j: Json): Option<FX> {
    var bloom :- Field(j, "bloom", AsNum);
    var background :- Field(j, "background", BackgroundFromJson);
    Some(FX(bloom, background))
  }

  lemma FXRoundTrip(f: FX)
    ensures FXFromJson(FXToJson(f)) == Some(f)
  {
    ObjGet(FXKeys, FXValues(f));
    assert FXKeys[0] == "bloom" && FXKeys[1] == "background";
    BackgroundRoundTrip(f.background);
  }

  // -------------------------------------------------------------- targets

  datatype Targets = Targets(fps: int, internalScale: real) {
    predicate Valid() {
      InRange(fps, 1, 240) && InBounds(internalScale, Some(0.1), Some(1.0))
    }
  }

  /** TargetsSettings: fps saturates into [1, 240] and the internal render
      scale into [0.1, 1.0]. */
  function MakeTargets(fps: int, internalScale: Num): (r: Result<Targets>)
    ensures r.Success? <==> internalScale.Val?
    ensures r.Success? ==> r.value.Valid()
    ensures r.Success? ==> IsNearestInt(r.value.fps, fps, 1, 240)
    ensures r.Success? ==> IsNearest(r.value.internalScale, internalScale.x, Some(0.1), Some(1.0))
  {
    var scale :- Clamp(internalScale, Some(0.1), Some(1.0));
    Success(Targets(ClampInt(fps, 1, 240), scale))
  }

  const TargetsKeys: seq<string> := ["fps", "internal_scale"]

  function TargetsValues(t: Targets): (vs: seq<Option<Json>>)
    ensures |vs| == |TargetsKeys|
  {
    [ Req(JInt(t.fps)),
      Req(Float(t.internalScale)) ]
  }

  function TargetsToJson(t: Targets): (j: Json)
    ensures Keys(j) == TargetsKeys
  {
    ObjKeys(TargetsKeys, TargetsValues(t));
    Obj(TargetsKeys, TargetsValues(t))
  }

  function TargetsFromJson(j: Json): Option<Targets> {
    var fps :- Field(j, "fps", AsInt);
    var scale :- Field(j, "internal_scale", AsNum);
    Some(Targets(fps, scale))
  }

  lemma TargetsRoundTrip(t: Targets)
    ensures TargetsFromJson(TargetsToJson(t)) == Some(t)
  {
    ObjGet(TargetsKeys, TargetsValues(t));
    assert TargetsKeys[0] == "fps" && TargetsKeys[1] == "internal_scale";
  }

  // --------------------------------------------------------------- preset

  /** PresetSchema: a top-level document. It has no validation of its own;
      it is valid when all its parts are. */
  datatype Preset = Preset(
    name: string,
    emitter: Emitter,
    appearance: Appearance,
    motion: Motion,
    accumulation: Accumulation,
    obstacle: ObstacleSettings,
    fx: FX,
    targets: Targets,
    notes: string)
  {
    predicate Valid() {
      && emitter.Valid()
      && appearance.Valid()
      && motion.Valid()
      && accumulation.Valid()
      && obstacle.Valid()
      && fx.Valid()
      && targets.Valid()
    }
  }

  const PresetKeys: seq<string> := ["version", "name", "emitter", "appearance", "motion", "accumulation", "obstacle", "fx", "targets", "notes"]

  function PresetValues(p: Preset): (vs: seq<Option<Json>>)
    ensures |vs| == |PresetKeys|
  {
    [ Req(Str(SchemaVersion)),
      Req(Str(p.name)),
      Req(EmitterToJson(p.emitter)),
      Req(AppearanceToJson(p.appearance)),
      Req(MotionToJson(p.motion)),
      Req(AccumulationToJson(p.accumulation)),
      Req(ObstacleSettingsToJson(p.obstacle)),
      Req(FXToJson(p.fx)),
      Req(TargetsToJson(p.targets)),
      Req(Str(p.notes)) ]
  }

  /** The preset document: version "1.0" first, then every part under its key. */
  function PresetToJson(p: Preset): (j: Json)
    ensures Keys(j) == PresetKeys
  {
    ObjKeys(PresetKeys, PresetValues(p));
    Obj(PresetKeys, PresetValues(p))
  }

  function PresetFromJson(j: Json): Option<Preset> {
    var version :- Field(j, "version", AsStr);
    if version != SchemaVersion then None
    else
      var name :- Field(j, "name", AsStr);
      var emitter :- Field(j, "emitter", EmitterFromJson);
      var appearance :- Field(j, "appearance", AppearanceFromJson);
      var motion :- Field(j, "motion", MotionFromJson);
      var accumulation :- Field(j, "accumulation", AccumulationFromJson);
      var obstacle :- Field(j, "obstacle", ObstacleSettingsFromJson);
      var fx :- Field(j, "fx", FXFromJson);
      var targets :- Field(j, "targets", TargetsFromJson);
      var notes :- Field(j, "notes", AsStr);
      Some(Preset(name, emitter, appearance, motion, accumulation, obstacle, fx, targets, notes))
  }

  /** What each key of the preset document holds. */
  lemma PresetGets(p: Preset)
    ensures var j := PresetToJson(p);
      && Get(j, "version") == Some(JStr(SchemaVersion)) && Get(j, "name") == Some(Str(p.name))
      && Get(j, "emitter") == Some(EmitterToJson(p.emitter))
      && Get(j, "appearance") == Some(AppearanceToJson(p.appearance))
      && Get(j, "motion") == Some(MotionToJson(p.motion))
      && Get(j, "accumulation") == Some(AccumulationToJson(p.accumulation))
      && Get(j, "obstacle") == Some(ObstacleSettingsToJson(p.obstacle))
      && Get(j, "fx") == Some(FXToJson(p.fx)) && Get(j, "targets") == Some(TargetsToJson(p.targets))
      && Get(j, "notes") == Some(Str(p.notes))
  {
    ObjGet(PresetKeys, PresetValues(p));
    assert PresetKeys[0] == "version" && PresetKeys[1] == "name" && PresetKeys[2] == "emitter" && PresetKeys[3] == "appearance";
    assert PresetKeys[4] == "motion" && PresetKeys[5] == "accumulation" && PresetKeys[6] == "obstacle";
    assert PresetKeys[7] == "fx" && PresetKeys[8] == "targets" && PresetKeys[9] == "notes";
  }

  /** The preset document carries version "1.0" and decodes back to the
      preset it was made from. */
  lemma PresetRoundTrip(p: Preset)
    ensures Get(PresetToJson(p), "version") == Some(JStr(SchemaVersion))
    ensures PresetFromJson(PresetToJson(p)) == Some(p)
  {
    PresetGets(p);
    EmitterRoundTrip(p.emitter);
    AppearanceRoundTrip(p.appearance);
    MotionRoundTrip(p.motion);
    AccumulationRoundTrip(p.accumulation);
    ObstacleSettingsRoundTrip(p.obstacle);
    FXRoundTrip(p.fx);
    TargetsRoundTrip(p.targets);
  }
}
