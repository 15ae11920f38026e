/** The preset agent (agents/preset_agent.py): turns a free-form request
    into a preset document with lightweight heuristics — a slug for the
    name, the rate capped by the constraints, one of three motion profiles
    picked by keyword, a default palette, and truncated notes. */
module PresetAgent {
  import opened Wrappers
  import opened Primitives
  import opened Json
  import opened Text
  import opened PresetSchema

  /** PresetConstraints, with its defaults. */
  datatype PresetConstraints = PresetConstraints(
    maxParticles: int := MaxParticleRate,
    targetFps: int := 60,
    internalScale: Num := Val(0.75))

  const DefaultSprite: string := "res://runtime/preset_sprite.png"

  /** PresetRequest, with its defaults. */
  datatype PresetRequest = PresetRequest(
    prompt: string,
    palette: Option<seq<string>> := None,
    emitterType: string := "generic",
    baseName: string := "custom",
    desiredRate: int := 2000,
    burstInterval: Option<Num> := None,
    burstCount: Option<int> := None,
    sprite: string := DefaultSprite,
    notes: Option<string> := None)

  // ------------------------------------------------------------ motion

  /** The three motion profiles. */
  datatype Energy = High | Low | Mid

  /** `_choose_motion`'s rule table: "storm" or "strong" anywhere in the
      lower-cased prompt wins, then "calm" or "gentle", else the default. */
  function ChooseEnergy(prompt: string): (e: Energy)
    ensures e == High <==> exists i :: OccursAt(Lower(prompt), "storm", i) || OccursAt(Lower(prompt), "strong", i)
    ensures e == Low <==> e != High && exists i :: OccursAt(Lower(prompt), "calm", i) || OccursAt(Lower(prompt), "gentle", i)
  {
    var p := Lower(prompt);
    if Contains(p, "storm") || Contains(p, "strong") then High
    else if Contains(p, "calm") || Contains(p, "gentle") then Low
    else Mid
  }

  /** The coefficients of each profile, as the agent writes them. Each
      lies inside the motion bounds, so the schema keeps the keyword
      arguments exactly as written. */
  function Profile(e: Energy): (m: Motion)
    ensures m.Valid()
    ensures MakeMotion(Val(m.drag), Val(m.swayAmp), Val(m.swayFreq), Val(m.spinDegPerSec), Val(m.gravity), Val(m.glideLift)) == Success(m)
  {
    match e
    case High => Motion(0.05, 50.0, 0.9, 120.0, 320.0, 0.4)
    case Low => Motion(0.18, 18.0, 0.4, 40.0, 120.0, 0.2)
    case Mid => Motion(0.12, 30.0, 0.6, 90.0, 240.0, 0.3)
  }

  /** `_choose_motion`: every profile lies inside the motion bounds, so
      building it clamps nothing and cannot fail, and the record is the
      profile the rule table picks. */
  function ChooseMotion(prompt: string): (m: Motion)
    ensures m.Valid()
    ensures m == Profile(ChooseEnergy(prompt))
  {
    var p := Profile(ChooseEnergy(prompt));
    MakeMotion(Val(p.drag), Val(p.swayAmp), Val(p.swayFreq), Val(p.spinDegPerSec), Val(p.gravity), Val(p.glideLift)).value
  }

  /** Lower-casing distributes over concatenation. */
  lemma LowerAppend(a: string, b: string)
    ensures Lower(a + b) == Lower(a) + Lower(b)
  {
  }

  /** A lower-case keyword spliced anywhere into a prompt is found in the
      lower-cased prompt. */
  lemma KeywordFound(pre: string, word: string, post: string)
    requires Lower(word) == word
    ensures Contains(Lower(pre + word + post), word)
  {
    LowerAppend(pre + word, post);
    LowerAppend(pre, word);
    var p := Lower(pre + word + post);
    assert p == Lower(pre) + word + Lower(post);
    assert p[|pre|..|pre| + |word|] == word;
    assert OccursAt(p, word, |pre|);
  }

  /** "storm" or "strong" anywhere in the prompt, in any case mix the ASCII
      lower-casing folds, selects the high-energy profile, whatever else the
      prompt says ("calm" and "gentle" included). */
  lemma {:induction false} StormWins(pre: string, post: string)
    ensures ChooseEnergy(pre + "storm" + post) == High
    ensures ChooseEnergy(pre + "strong" + post) == High
  {
    KeywordFound(pre, "storm", post);
    KeywordFound(pre, "strong", post);
  }

  /** "calm" or "gentle" selects the low-energy profile unless a high-energy
      keyword is also present. */
  lemma {:induction false} CalmUnlessStorm(pre: string, word: string, post: string)
    requires word == "calm" || word == "gentle"
    requires !Contains(Lower(pre + word + post), "storm") && !Contains(Lower(pre + word + post), "strong")
    ensures ChooseEnergy(pre + word + post) == Low
  {
    KeywordFound(pre, word, post);
  }

  /** Motion selection ignores case: a prompt and its lower case pick the
      same profile. */
  lemma ChooseEnergyIgnoresCase(prompt: string)
    ensures ChooseEnergy(Lower(prompt)) == ChooseEnergy(prompt)
  {
    LowerIdempotent(prompt);
  }

  // -------------------------------------------------------- appearance

  const DefaultPalette: seq<string> := ["#ffffff", "#dddddd", "#bbbbbb"]

  /** `if not palette: palette = [...]`: an absent or empty palette means
      the three greys. */
  function PaletteOrDefault(palette: Option<seq<string>>): (p: seq<string>)
    ensures palette.None? || palette.value == [] ==> p == DefaultPalette
    ensures palette.Some? && palette.value != [] ==> p == palette.value
  {
    if palette.None? || palette.value == [] then DefaultPalette else palette.value
  }

  /** `_appearance`: sizes 6 to 14 px, the palette or its default, and the
      sprite as requested. It fails exactly when the sprite is empty or the
      palette is non-empty but has no non-empty color. */
  function ChooseAppearance(palette: Option<seq<string>>, sprite: string): (r: Result<Appearance>)
    ensures r.Success? <==> HasColor(PaletteOrDefault(palette)) && sprite != ""
    ensures r.Success? ==> r.value.Valid()
    ensures r.Success? ==> r.value.palette == NonEmptyEntries(PaletteOrDefault(palette))
    ensures r.Success? ==> r.value.sizePx == SizeRange(6.0, 14.0) && r.value.sprite == sprite
  {
    var size := MakeSizeRange(Val(6.0), Val(14.0)).value;
    MakeAppearance(PaletteOrDefault(palette), size, sprite)
  }

  /** The default palette has colors, so only a non-empty palette made of
      empty strings alone is rejected. */
  lemma PaletteFailure(palette: Option<seq<string>>)
    ensures !HasColor(PaletteOrDefault(palette)) <==>
      palette.Some? && |palette.value| > 0 && forall i :: 0 <= i < |palette.value| ==> palette.value[i] == ""
  {
    assert DefaultPalette[0] in DefaultPalette;
    if palette.Some? && |palette.value| > 0 {
      var p := palette.value;
      if HasColor(p) {
        var c :| c in p && c != "";
        var i :| 0 <= i < |p| && p[i] == c;
        assert p[i] != "";
      } else {
        forall i | 0 <= i < |p|
          ensures p[i] == ""
        {
          assert p[i] in p;
        }
      }
    }
  }

  // ------------------------------------------------------------- notes

  /** `s[:n]`. */
  function Truncate(s: string, n: nat): (r: string)
    ensures r <= s
    ensures |r| == if |s| <= n then |s| else n
  {
    if |s| <= n then s else s[..n]
  }

  /** `request.notes or request.prompt`: absent or empty notes fall back
      to the prompt. */
  function NotesSource(req: PresetRequest): string {
    if req.notes.Some? && req.notes.value != "" then req.notes.value else req.prompt
  }

  /** `request.base_name or request.prompt`. */
  function SlugSource(req: PresetRequest): string {
    if req.baseName != "" then req.baseName else req.prompt
  }

  // ---------------------------------------------------------- generate

  /** The burst, when the request gives both its interval and its count. */
  function ChooseBurst(req: PresetRequest): (r: Result<Option<Burst>>)
    ensures r.Failure? <==> req.burstInterval.Some? && req.burstCount.Some? && req.burstInterval.value.NaN?
    ensures r.Success? ==> (r.value.Some? <==> req.burstInterval.Some? && req.burstCount.Some?)
    ensures r.Success? && r.value.Some? ==> r.value.value.Valid()
    ensures r.Success? && r.value.Some? ==> IsNearest(r.value.value.intervalSec, req.burstInterval.value.x, Some(0.0), None)
    ensures r.Success? && r.value.Some? ==> IsNearestInt(r.value.value.count, req.burstCount.value, 0, MaxBurstCount)
  {
    if req.burstInterval.Some? && req.burstCount.Some? then
      var b :- MakeBurst(req.burstInterval.value, req.burstCount.value);
      Success(Some(b))
    else Success(None)
  }

  /** `int(clamp(float(desired_rate), min_value=1.0, max_value=max_particles))`. */
  function CapRate(desired: int, maxParticles: int): (r: int)
    ensures maxParticles >= 1 ==> IsNearestInt(r, desired, 1, maxParticles)
    ensures maxParticles < 1 ==> r == maxParticles
  {
    ClampInt(desired, 1, maxParticles)
  }

  /** The smaller of two integers. */
  function MinInt(a: int, b: int): int {
    if a <= b then a else b
  }

  /** The emitter of a generated preset. Its rate is the request's rate
      saturated into [1, max_particles] and then into the schema's
      [0, 100000]: with a cap of at least 1 it is the nearest rate to the
      request in [1, min(cap, 100000)]; with a cap below 1 it is 0. The
      burst is present exactly when the request gives both interval and
      count; no seed is set. */
  function ChooseEmitter(c: PresetConstraints, req: PresetRequest): (r: Result<Emitter>)
    ensures r.Failure? <==> req.burstInterval.Some? && req.burstCount.Some? && req.burstInterval.value.NaN?
    ensures r.Success? ==> r.value.Valid()
    ensures r.Success? ==> 0 <= r.value.ratePerSec <= MaxParticleRate
    ensures r.Success? && c.maxParticles >= 0 ==> r.value.ratePerSec <= c.maxParticles
    ensures r.Success? && c.maxParticles >= 1 ==>
      IsNearestInt(r.value.ratePerSec, req.desiredRate, 1, MinInt(c.maxParticles, MaxParticleRate))
    ensures r.Success? && c.maxParticles < 1 ==> r.value.ratePerSec == 0
    ensures r.Success? ==> (r.value.burst.Some? <==> req.burstInterval.Some? && req.burstCount.Some?)
    ensures r.Success? && r.value.burst.Some? ==>
      IsNearestInt(r.value.burst.value.count, req.burstCount.value, 0, MaxBurstCount)
    ensures r.Success? ==> r.value.randomSeed.None? && r.value.kind == req.emitterType
    ensures r.Success? ==> r.value.spawnBand == SpawnBand(0.05, 0.02)
  {
    var burst :- ChooseBurst(req);
    var band := MakeSpawnBand(Val(0.05), Val(0.02)).value;
    Success(MakeEmitter(req.emitterType, CapRate(req.desiredRate, c.maxParticles), band, burst, None))
  }

  const MaskPath: string := "res://runtime/obstacles_mask.png"
  const BackgroundGradient: seq<string> := ["#0b1120", "#1e293b"]

  /** The accumulation settings every preset gets; building them clamps
      nothing. */
  function FixedAccumulation(): (a: Accumulation)
    ensures a == Accumulation(true, "heightmap", 180.0, 0.08) && a.Valid()
  {
    MakeAccumulation(true, "heightmap", Val(180.0), Val(0.08)).value
  }

  /** The obstacle settings every preset gets: the default mask, which is
      a runtime path, and stickiness 0.2. */
  function FixedObstacle(): (o: ObstacleSettings)
    ensures o == ObstacleSettings(MaskPath, 0.2) && o.Valid()
  {
    assert MaskPath[..|RuntimePrefix|] == RuntimePrefix;
    MakeObstacleSettings(MaskPath, Val(0.2)).value
  }

  /** The effects every preset gets: bloom 0.2 over a fixed two-color
      gradient that does not follow the clock. */
  function FixedFX(): (f: FX)
    ensures f == FX(0.2, Background(BackgroundGradient, false)) && f.Valid()
  {
    NonEmptyEntriesFilled(BackgroundGradient);
    assert BackgroundGradient[0] in BackgroundGradient;
    var background := MakeBackground(BackgroundGradient, false).value;
    MakeFX(Val(0.2), background).value
  }

  /** Why generation can fail: a NaN burst interval, an unusable palette or
      sprite, or a NaN internal scale in the constraints. */
  predicate GenerateFails(c: PresetConstraints, req: PresetRequest) {
    || (req.burstInterval.Some? && req.burstCount.Some? && req.burstInterval.value.NaN?)
    || !HasColor(PaletteOrDefault(req.palette))
    || req.sprite == ""
    || c.internalScale.NaN?
  }

  /** `PresetAgent.generate`: fails exactly for the reasons above, and
      otherwise yields a valid preset named by the slug of the base name (or
      of the prompt), with the chosen emitter, appearance and motion, the
      fixed parts, the targets of the constraints and truncated notes. */
  function Generate(c: PresetConstraints, req: PresetRequest): (r: Result<Preset>)
    ensures r.Failure? <==> GenerateFails(c, req)
    ensures r.Success? ==> r.value.Valid()
    ensures r.Success? ==> IsSlug(r.value.name)
    ensures r.Success? && req.baseName != "" ==> r.value.name == Slugify(req.baseName)
    ensures r.Success? && req.baseName == "" ==> r.value.name == Slugify(req.prompt)
    ensures r.Success? ==> r.value.emitter == ChooseEmitter(c, req).value
    ensures r.Success? ==> r.value.appearance == ChooseAppearance(req.palette, req.sprite).value
    ensures r.Success? ==> r.value.motion == Profile(ChooseEnergy(req.prompt))
    ensures r.Success? ==> r.value.accumulation == FixedAccumulation()
    ensures r.Success? ==> r.value.obstacle == FixedObstacle() && r.value.fx == FixedFX()
    ensures r.Success? ==> IsNearestInt(r.value.targets.fps, c.targetFps, 1, 240)
    ensures r.Success? ==> IsNearest(r.value.targets.internalScale, c.internalScale.x, Some(0.1), Some(1.0))
    ensures r.Success? ==> r.value.notes <= NotesSource(req) && |r.value.notes| <= 80
    ensures r.Success? ==> |r.value.notes| == MinInt(|NotesSource(req)|, 80)
  {
    var emitter :- ChooseEmitter(c, req);
    var appearance :- ChooseAppearance(req.palette, req.sprite);
    var targets :- MakeTargets(c.targetFps, c.internalScale);
    Success(Preset(Slugify(SlugSource(req)), emitter, appearance, ChooseMotion(req.prompt),
                   FixedAccumulation(), FixedObstacle(), FixedFX(), targets, Truncate(NotesSource(req), 80)))
  }

  /** The rate of a generated preset is at most 100000, at most the cap
      when the cap is not negative, and at least 1 when the cap is. */
  lemma GenerateRate(c: PresetConstraints, req: PresetRequest)
    requires !GenerateFails(c, req)
    ensures var rate := Generate(c, req).value.emitter.ratePerSec;
      && 0 <= rate <= MaxParticleRate
      && (c.maxParticles >= 0 ==> rate <= c.maxParticles)
      && (c.maxParticles >= 1 ==> rate >= 1)
  {
  }

  /** The three greys are all kept by the palette filter. */
  lemma DefaultPaletteKept()
    ensures NonEmptyEntries(DefaultPalette) == DefaultPalette
  {
    NonEmptyEntriesFilled(DefaultPalette);
  }

  /** With no palette, or an empty one, the preset gets the three greys. */
  lemma DefaultPaletteUsed(c: PresetConstraints, req: PresetRequest)
    requires req.palette.None? || req.palette.value == []
    requires !GenerateFails(c, req)
    ensures Generate(c, req).value.appearance.palette == DefaultPalette
  {
    DefaultPaletteKept();
  }

  /** The rate example: a cap of 1000 holds a request of 200000 to 1000. */
  lemma RateExample()
    ensures Generate(PresetConstraints(maxParticles := 1000), PresetRequest("storm of petals", desiredRate := 2 * MaxParticleRate, baseName := "Storm")).Success?
    ensures Generate(PresetConstraints(maxParticles := 1000), PresetRequest("storm of petals", desiredRate := 2 * MaxParticleRate, baseName := "Storm")).value.emitter.ratePerSec == 1000
  {
    assert DefaultPalette[0] in DefaultPalette;
  }
}
