# falls runtime schemas — a Dafny model

This project models the validation-and-serialisation layer of the *falls*
runtime generator: the agents that turn structured requests into the JSON
documents a Godot runtime reads (preset, forcefield, obstacles, sequence,
exporter, timekeeper, UI hints and asset pack), and the schema records
those documents are built from.

The model is functional:

- Floats are `real`. A float that reaches `clamp` is a `Num`, which is either
  a real or `NaN`.
- Every schema record is a datatype built by a `Make…` smart constructor that
  returns a `Result`. A failure stands for the Python `ValidationError`.
- Every `to_dict` is a `…ToJson` function into a small ordered JSON datatype.
  An optional key is emitted only when its field is present.
- Each `…ToJson` has a `…FromJson` decoder, and a round-trip lemma proves that
  decoding gives back the record.
- Each agent's `generate` is a pure `Generate` function. Its contract relates
  the document to the request.

Modules follow the program:

- `Wrappers`: `Option` and `Result`.
- `Json`: ordered objects, lookup, encoders, decoders and round-trip lemmas
  for lists.
- `Primitives`: `clamp`, `ensure_runtime_path`, `ensure_palette` and the
  schema constants.
- One schema module per document:
  - `PresetSchema`
  - `ForcefieldSchema`
  - `ObstaclesSchema`
  - `SequenceSchema`
  - `ExporterSchema`
  - `TimekeeperSchema`
  - `UIHintsSchema`
  - `AssetPackSchema`
- `Text`: ASCII lower-casing, substring search and `_slugify`.
- One module per agent:
  - `PresetAgent`
  - `ForceFieldAgent`
  - `AssetPackAgent`
  - `ObstacleAgent`
  - `ExporterAgent`
  - `SequenceAgent`
  - `TimekeeperAgent`
  - `UIHintsAgent`

Where a clamp keeps a number inside bounds, the contracts state it with
`IsNearest` or `IsNearestInt`. Such a contract says the result lies in the
interval and is no farther from the input than any other point of it. This
fixes the result uniquely, and it says both "unchanged when inside" and
"the nearest bound when outside".

Some behaviours are easy to misread:

- `clamp` applies the lower bound first and the upper bound last. When the
  lower bound exceeds the upper bound, the result is the upper bound.
  - This is why the preset agent's emitter rate is at most `max_particles`
    only when `max_particles` is not negative. A negative cap gives 0, which
    is the schema's own lower bound.
  - For the same reason, a negative forcefield `max_speed` gives speed and
    vortex 0.
- The emitter's `random_seed` wraps modulo 2^32, because `& 0xFFFFFFFF` on a
  Python integer is a reduction modulo 2^32. The exporter's `seed`
  saturates into [0, 2^32 - 1] instead. `ExporterSchema.SeedPoliciesDiffer`
  shows one input where the two policies disagree.
- `if self.burst:` is true for every `BurstSettings` instance, because the
  class defines neither `__bool__` nor `__len__`. So `burst` is emitted
  exactly when it is present.

## Model

| member | source | states |
|---|---|---|
| Primitives.Clamp | agents/schema.py:22-31 | NaN fails whatever the bounds; otherwise, with lo ≤ hi, the result is the point of [lo, hi] nearest the input (in-range values unchanged, out-of-range ones the nearest bound); the upper bound applies last, so with lo > hi the result is hi |
| Primitives.ClampIdempotent | agents/schema.py:22-31 | clamping an already clamped value changes nothing |
| Primitives.ClampExamples | tests/test_agents.py:16-18 | clamp(500, 0, 200) = 200, clamp(-10, 0, 200) = 0, and a NaN input fails |
| Primitives.ClampInt | agents/schema.py:64 | `int(clamp(float(n), lo, hi))` for an integer (overflow of `float(n)` aside): the nearest integer of [lo, hi]; hi when lo > hi |
| Primitives.ClampIntIsClamp | agents/schema.py:64 | the integer clamp agrees with the real clamp applied to the integer |
| Primitives.ClampTwice | agents/forcefield_agent.py:41-46 | two clamps with a common lower bound act as one clamp to the smaller upper bound |
| Primitives.ClampOpt | agents/schema.py:296-301 | an optional number: absent stays absent, a NaN fails, a present one is clamped |
| Primitives.ClampEach | agents/schema.py:305 | a list comprehension of clamps: fails iff some element is NaN, else the same length with each element clamped |
| Primitives.ClampFixed | agents/schema.py:302-305 | an optional fixed-arity list: a present list of the wrong length fails, otherwise each component is clamped; absent stays absent |
| Primitives.EnsureRuntimePath | agents/schema.py:34-39 | succeeds iff the path starts with `res://runtime/`, and then returns it unchanged |
| Primitives.NonEmptyEntries | agents/schema.py:43 | exactly the non-empty entries: each non-empty string occurs as often as in the input, the empty string never |
| Primitives.NonEmptyEntriesAppend | agents/schema.py:43 | the filter distributes over concatenation, so it keeps the input order |
| Primitives.NonEmptyEntriesFilled | agents/schema.py:43 | a list without empty entries passes unchanged |
| Primitives.EnsurePalette | agents/schema.py:42-46 | fails iff no entry is non-empty; otherwise the non-empty entries in order, never an empty list |
| Json.ObjGet | agents/schema.py:98-108 | in a dictionary filled from distinct keys, every key reads back its value, and a key whose value is None is absent |
| Json.ObjPrefix | agents/schema.py:476-479 | keys that are always filled come first in the object, in their order |
| Json.ArrRoundTrip | agents/schema.py:336 | a list encoded element by element decodes back when each element does |
| PresetSchema.MakeBurst | agents/schema.py:57-64 | in the model, fails iff the interval is NaN; the interval saturates at 0 from below, the count into [0, 100000] |
| PresetSchema.BurstToJson | agents/schema.py:66-67 | the burst dictionary has keys interval_sec, count, in that order |
| PresetSchema.BurstRoundTrip | agents/schema.py:66-67 | the burst dictionary decodes back to the burst |
| PresetSchema.MakeSpawnBand | agents/schema.py:70-77 | fails iff a field is NaN; y and height saturate into [0, 1] |
| PresetSchema.SpawnBandToJson | agents/schema.py:79-80 | the spawn band dictionary has keys y, height |
| PresetSchema.SpawnBandRoundTrip | agents/schema.py:79-80 | the spawn band dictionary decodes back |
| PresetSchema.Mask32 | agents/schema.py:95-96 | `seed & 0xFFFFFFFF`: a value in [0, 2^32) congruent to the seed modulo 2^32, equal to it when already in range |
| PresetSchema.MakeEmitter | agents/schema.py:83-96 | in the model never fails; the rate saturates into [0, 100000]; a present seed becomes the value in [0, 2^32) congruent to it modulo 2^32; kind, spawn band and burst are kept |
| PresetSchema.EmitterToJson | agents/schema.py:98-108 | `burst` is emitted iff a burst is present and `random_seed` iff a seed is present |
| PresetSchema.EmitterRoundTrip | agents/schema.py:98-108 | the emitter dictionary decodes back to the emitter |
| PresetSchema.MakeSizeRange | agents/schema.py:111-118 | fails iff a bound is NaN; min saturates at 0 and max at min from below, with no upper bound, so 0 ≤ min ≤ max |
| PresetSchema.SizeRangeToJson | agents/schema.py:120-121 | the size range dictionary has keys min, max |
| PresetSchema.SizeRangeRoundTrip | agents/schema.py:120-121 | the size range decodes back |
| PresetSchema.MakeAppearance | agents/schema.py:124-133 | fails iff the palette has no non-empty color or the sprite is empty; the palette keeps its non-empty colors in order; the sprite needs no runtime prefix |
| PresetSchema.AppearanceToJson | agents/schema.py:135-140 | the appearance dictionary has keys palette, size_px, sprite |
| PresetSchema.AppearanceRoundTrip | agents/schema.py:135-140 | the appearance decodes back |
| PresetSchema.MakeMotion | agents/schema.py:143-158 | fails iff a field is NaN; each coefficient saturates into its own interval |
| PresetSchema.MakeMotionKeepsValid | agents/schema.py:152-158 | a motion already inside its bounds is rebuilt unchanged |
| PresetSchema.MotionToJson | agents/schema.py:160-167 | the motion dictionary has keys drag, sway, spin, gravity, glide, with sway, spin and glide nested |
| PresetSchema.MotionRoundTrip | agents/schema.py:160-167 | the nested sway/spin/glide dictionary decodes back to the motion |
| PresetSchema.MakeAccumulation | agents/schema.py:170-179 | fails iff a number is NaN; the height saturates into [0, 512] and the diffusion into [0, 1] |
| PresetSchema.AccumulationToJson | agents/schema.py:181-187 | the accumulation dictionary has keys enabled, mode, max_height_px, diffusion |
| PresetSchema.AccumulationRoundTrip | agents/schema.py:181-187 | the accumulation decodes back |
| PresetSchema.MakeObstacleSettings | agents/schema.py:190-197 | fails iff the mask is not a runtime path or the stickiness is NaN; the stickiness saturates into [0, 1] |
| PresetSchema.ObstacleSettingsToJson | agents/schema.py:199-200 | the obstacle settings dictionary has keys collide_mask, stickiness |
| PresetSchema.ObstacleSettingsRoundTrip | agents/schema.py:199-200 | the obstacle settings decode back |
| PresetSchema.MakeBackground | agents/schema.py:203-209 | fails iff the gradient has no non-empty color; it keeps the non-empty colors in order |
| PresetSchema.BackgroundToJson | agents/schema.py:211-212 | the background dictionary has keys gradient, cycle_by_clock |
| PresetSchema.BackgroundRoundTrip | agents/schema.py:211-212 | the background decodes back |
| PresetSchema.MakeFX | agents/schema.py:215-221 | fails iff the bloom is NaN; the bloom saturates into [0, 2] |
| PresetSchema.FXToJson | agents/schema.py:223-224 | the effects dictionary has keys bloom, background |
| PresetSchema.FXRoundTrip | agents/schema.py:223-224 | the effects decode back |
| PresetSchema.MakeTargets | agents/schema.py:227-234 | in the model, fails iff the scale is NaN; fps saturates into [1, 240] and the internal scale into [0.1, 1] |
| PresetSchema.TargetsToJson | agents/schema.py:236-237 | the targets dictionary has keys fps, internal_scale |
| PresetSchema.TargetsRoundTrip | agents/schema.py:236-237 | the targets decode back |
| PresetSchema.PresetToJson | agents/schema.py:268-280 | the preset document's keys are, in order, version, name, emitter, appearance, motion, accumulation, obstacle, fx, targets, notes |
| PresetSchema.PresetGets | agents/schema.py:268-280 | each key of the preset document holds version "1.0", the name, the notes, or the serialised part |
| PresetSchema.PresetRoundTrip | agents/schema.py:268-280 | the preset document carries version "1.0" and decodes back to the preset |
| ForcefieldSchema.MakeForceEvent | agents/schema.py:283-309 | fails iff a present number is NaN or a present center is not a pair; t saturates at 0, dir_deg into [0, 360], speed into [0, 400], dur at 0, center components into [0, 1], radius into [0, 0.5], vortex into [0, 500]; absent fields stay absent |
| ForcefieldSchema.ForceEventToJson | agents/schema.py:311-325 | `t` and `type` always; each optional key iff its field is present |
| ForcefieldSchema.ForceEventRoundTrip | agents/schema.py:311-325 | the event dictionary decodes back to the event |
| ForcefieldSchema.ForcefieldToJson | agents/schema.py:333-338 | the forcefield document has keys version, timeline, texture |
| ForcefieldSchema.ForcefieldRoundTrip | agents/schema.py:328-338 | version "1.0"; the i-th timeline item is the i-th event's dictionary; the document decodes back |
| ForcefieldSchema.ForcefieldTexture | agents/schema.py:337 | the prebaked-texture flag sits under `texture.use_prebaked` |
| ObstaclesSchema.MakeClearRule | agents/schema.py:341-351 | fails iff a present radius is NaN; the radius saturates into [0, 4096]; trigger, action, at and gte are kept |
| ObstaclesSchema.ClearRuleToJson | agents/schema.py:353-361 | `at`, `gte` and `radius_px` are emitted iff present |
| ObstaclesSchema.ClearRuleRoundTrip | agents/schema.py:353-361 | the clear rule decodes back |
| ObstaclesSchema.MakeDrawOp | agents/schema.py:364-382 | fails iff a present pos is not a pair, a present rect has not 4 components, or a present number is NaN; components and radius saturate into [0, 1] |
| ObstaclesSchema.DrawOpToJson | agents/schema.py:384-392 | `op` and `mode` always; `pos`, `radius`, `rect` iff present |
| ObstaclesSchema.DrawOpRoundTrip | agents/schema.py:384-392 | the draw operation decodes back |
| ObstaclesSchema.MakeObstacles | agents/schema.py:395-402 | fails iff the mask path is not a runtime path; rules and operations are kept in order |
| ObstaclesSchema.ObstaclesToJson | agents/schema.py:404-410 | the obstacles document has keys version, clear_rules, draw_ops, mask |
| ObstaclesSchema.ObstaclesRoundTrip | agents/schema.py:404-410 | version "1.0", the mask under key "mask", and the document decodes back with both lists in order |
| SequenceSchema.EnsureRuntimeValues | agents/schema.py:420 | fails iff some apply value is not a runtime path; otherwise keys, values and order are unchanged |
| SequenceSchema.MakeSequenceTrack | agents/schema.py:413-420 | fails iff t is NaN or an apply value is not a runtime path; t saturates at 0 |
| SequenceSchema.ApplyToJson | agents/schema.py:423 | the apply mapping is an object whose keys are the mapping's keys in order |
| SequenceSchema.ApplyRoundTrip | agents/schema.py:423 | the apply mapping decodes back, keys in order |
| SequenceSchema.TrackToJson | agents/schema.py:422-423 | a track dictionary has keys t, apply |
| SequenceSchema.TrackRoundTrip | agents/schema.py:422-423 | a track `{t, apply}` decodes back |
| SequenceSchema.SequenceToJson | agents/schema.py:431-436 | the sequence document has keys version, tracks, loop |
| SequenceSchema.SequenceRoundTrip | agents/schema.py:431-436 | version "1.0", the loop flag under "loop", and the document decodes back with tracks in order |
| ExporterSchema.MakeCapture | agents/schema.py:439-451 | in the model, fails iff the duration is NaN; w and h saturate into [1, 4096], fps into [1, 240], the duration into [0, 120] |
| ExporterSchema.CaptureToJson | agents/schema.py:453-460 | the capture dictionary has keys type, w, h, fps, dur_sec |
| ExporterSchema.CaptureRoundTrip | agents/schema.py:453-460 | the capture `{type, w, h, fps, dur_sec}` decodes back |
| ExporterSchema.MakeExporter | agents/schema.py:463-473 | in the model never fails; a present seed saturates into [0, 2^32 - 1]; capture and watermark are kept |
| ExporterSchema.SeedPoliciesDiffer | agents/schema.py:471-473 | at 2^32 and at -1 the exporter's saturation and the emitter's wrap-around give different seeds |
| ExporterSchema.ExporterToJson | agents/schema.py:475-484 | `version` and `capture` come first and always; `watermark` and `seed` iff present |
| ExporterSchema.ExporterRoundTrip | agents/schema.py:475-484 | version "1.0", the watermark payload unchanged, and the document decodes back |
| TimekeeperSchema.AdjustToJson | agents/schema.py:492-493 | an adjustment dictionary has keys parameter, values |
| TimekeeperSchema.AdjustRoundTrip | agents/schema.py:487-493 | an adjustment `{parameter, values}` decodes back |
| TimekeeperSchema.TimekeeperToJson | agents/schema.py:501-506 | the keys are version, region, adjustments |
| TimekeeperSchema.TimekeeperRoundTrip | agents/schema.py:496-506 | version "1.0" and the document decodes back, adjustments in order |
| UIHintsSchema.UIHintsToJson | agents/schema.py:514-519 | the keys are version, tips, recommended_presets |
| UIHintsSchema.UIHintsRoundTrip | agents/schema.py:509-519 | version "1.0" and both lists decode back in order |
| AssetPackSchema.AssetPackToJson | agents/schema.py:527-532 | the keys are version, required_assets, missing_assets |
| AssetPackSchema.AssetPackRoundTrip | agents/schema.py:522-532 | version "1.0" and both lists decode back in order |
| Text.Lower | agents/preset_agent.py:54 | ASCII lower-casing: same length, no upper-case letter left, other characters unchanged |
| Text.LowerIdempotent | agents/preset_agent.py:59 | lower-casing twice is lower-casing once |
| Text.Contains | agents/preset_agent.py:60 | `needle in hay` holds iff the needle occurs at some position |
| Text.ReplaceRuns | agents/preset_agent.py:54 | `re.sub(r"[^a-z0-9]+", "_", s)`: only `[a-z0-9_]` with no `__`, empty iff the input is |
| Text.ReplaceRunsKeepsAlnums | agents/preset_agent.py:54 | the substitution keeps every letter and digit, in order |
| Text.SlugWordsJoin | agents/preset_agent.py:54 | a run of separators after a word becomes a single underscore, followed by the replacement of the rest |
| Text.ReplaceRunsWords | agents/preset_agent.py:54 | the substitution yields the text's words joined by single underscores, with at most underscores before and after |
| Text.Strip | agents/preset_agent.py:54 | `strip("_")`: no underscore left at either end; empty iff the input is all underscores; a string with no underscore at either end is unchanged |
| Text.StripSlice | agents/preset_agent.py:54 | `strip("_")` cuts only underscores and leaves no underscore at either end |
| Text.StripKeepsAlnums | agents/preset_agent.py:54 | stripping keeps every letter and digit |
| Text.SlugifyJoinsWords | agents/preset_agent.py:53-55 | the slug is exactly the lower-cased text's maximal runs of `[a-z0-9]` joined by single underscores, or "preset" when there is none |
| Text.Slugify | agents/preset_agent.py:53-55 | a non-empty string over `[a-z0-9_]`, no `__`, no underscore at either end, with the letters and digits of the lower-cased text in order; "preset" when the text has none |
| Text.SlugifyIdempotent | agents/preset_agent.py:53-55 | a slug is its own slug |
| Text.SlugIsFixed | agents/preset_agent.py:53-55 | any string meeting the slug shape is returned unchanged |
| Text.SlugExampleFallback | agents/preset_agent.py:55 | a name without letters or digits slugifies to "preset" |
| PresetAgent.ChooseEnergy | agents/preset_agent.py:58-64 | the high-energy profile iff "storm" or "strong" occurs in the lower-cased prompt; the low one iff not, and "calm" or "gentle" occurs; otherwise the default |
| PresetAgent.Profile | agents/preset_agent.py:61-64 | each profile's coefficients lie inside the motion bounds, so the schema keeps them exactly as written |
| PresetAgent.ChooseMotion | agents/preset_agent.py:58-64 | every profile lies inside the motion bounds, so building it clamps nothing |
| PresetAgent.StormWins | agents/preset_agent.py:60-61 | "storm" or "strong" anywhere selects the high-energy profile, even when "calm" or "gentle" also appears |
| PresetAgent.CalmUnlessStorm | agents/preset_agent.py:62-63 | "calm" or "gentle" selects the low-energy profile when no high-energy keyword is present |
| PresetAgent.ChooseEnergyIgnoresCase | agents/preset_agent.py:59 | a prompt and its lower case select the same profile |
| PresetAgent.PaletteOrDefault | agents/preset_agent.py:68-69 | an absent or empty palette becomes the three greys; any other palette is kept |
| PresetAgent.ChooseAppearance | agents/preset_agent.py:66-71 | fails iff the palette after defaulting has no color or the sprite is empty; size 6–14; palette filtered in order |
| PresetAgent.PaletteFailure | agents/preset_agent.py:67-71 | the appearance palette fails iff the request gives a non-empty palette made only of empty strings |
| PresetAgent.Truncate | agents/preset_agent.py:91 | `s[:n]`: a prefix of length min(len(s), n) |
| PresetAgent.ChooseBurst | agents/preset_agent.py:76-78 | a burst is present iff both interval and count are given; then the count lies in [0, 100000] and the interval is ≥ 0 |
| PresetAgent.CapRate | agents/preset_agent.py:75 | with a cap ≥ 1, the integer of [1, cap] nearest the requested rate; with a cap below 1, the cap itself (the upper bound applies last) |
| PresetAgent.ChooseEmitter | agents/preset_agent.py:75-84 | the rate lies in [0, 100000]; with a cap ≥ 1 it is the rate of [1, min(cap, 100000)] nearest the request; with a cap < 1 it is 0; burst as requested; no seed; spawn band (0.05, 0.02) |
| PresetAgent.FixedAccumulation | agents/preset_agent.py:87 | the fixed accumulation is valid and built unchanged |
| PresetAgent.FixedObstacle | agents/preset_agent.py:88 | the fixed obstacle settings use the runtime mask path, so they are valid |
| PresetAgent.FixedFX | agents/preset_agent.py:89 | the fixed effects and gradient are valid and built unchanged |
| PresetAgent.Generate | agents/preset_agent.py:73-102 | in the model, fails exactly for a NaN burst interval, an unusable palette, an empty sprite or a NaN scale; otherwise a valid preset whose name is the slug of base_name, or of the prompt when base_name is empty; targets clamped from the constraints; notes a prefix of (notes or prompt) of length min(len, 80) |
| PresetAgent.GenerateRate | agents/preset_agent.py:75 | the emitted rate is ≤ 100000, ≤ max_particles when that is ≥ 0, and ≥ 1 when it is ≥ 1 |
| PresetAgent.DefaultPaletteUsed | agents/preset_agent.py:68-69 | with no palette, or an empty one, the preset gets the three greys |
| PresetAgent.RateExample | tests/test_agents.py:22-27 | max_particles 1000 with a request of 200000 succeeds with rate 1000 |
| ForceFieldAgent.ApplyConstraints | agents/forcefield_agent.py:40-56 | fails iff a present number is NaN or the center is not a pair; presence of speed and vortex kept; t, dir_deg, dur, center and radius get only the schema's clamps |
| ForceFieldAgent.SpeedCapped | agents/forcefield_agent.py:41-43 | a present speed ends at the point of [0, min(max_speed, 400)] nearest the request (0 when max_speed < 0) |
| ForceFieldAgent.VortexCapped | agents/forcefield_agent.py:44-46 | a present vortex ends at the point of [0, min(1.25 max_speed, 500)] nearest the request (0 when max_speed < 0) |
| ForceFieldAgent.ApplyAll | agents/forcefield_agent.py:59 | all-or-nothing: fails iff some event fails, else one constrained event per spec in order |
| ForceFieldAgent.Generate | agents/forcefield_agent.py:58-60 | the timeline has the length and order of the request's events; the texture flag is passed through |
| ForceFieldAgent.GenerateDocument | agents/forcefield_agent.py:58-60 | the document has version "1.0", one timeline item per spec, and the flag under `texture.use_prebaked`, and it decodes back |
| ForceFieldAgent.GenerateOmitsAbsent | agents/forcefield_agent.py:41-46 | an event's `speed` and `vortex` keys appear iff the spec gave them |
| ForceFieldAgent.SpeedExample | tests/test_agents.py:31-39 | max_speed 150 with a requested speed of 500 gives exactly 150 |
| AssetPackAgent.FirstIndex | agents/assetpack_agent.py:20 | the position of an element's first occurrence |
| AssetPackAgent.Dedup | agents/assetpack_agent.py:20 | `list(dict.fromkeys(xs))`: no duplicates, the same elements, in first-occurrence order |
| AssetPackAgent.DedupDistinct | agents/assetpack_agent.py:20 | a list without duplicates is its own de-duplication |
| AssetPackAgent.DedupIdempotent | agents/assetpack_agent.py:20 | de-duplicating twice is de-duplicating once |
| AssetPackAgent.Missing | agents/assetpack_agent.py:22 | exactly the required assets not available, as a subsequence of the required list |
| AssetPackAgent.Generate | agents/assetpack_agent.py:19-23 | never fails; required de-duplicated in first-occurrence order; missing is its subsequence of unavailable assets; every required asset not missing is available |
| AssetPackAgent.GenerateExample | agents/assetpack_agent.py:20-22 | required ["a","a","b"] with "a" available gives required ["a","b"] and missing ["b"] |
| ObstacleAgent.Generate | agents/obstacle_agent.py:20-25 | fails iff the mask path is not a runtime path; rules and operations pass through in order and length |
| ObstacleAgent.DefaultMaskAccepted | agents/obstacle_agent.py:14 | the default mask path `res://runtime/obstacles_mask.png` is accepted |
| ObstacleAgent.GenerateDocument | agents/obstacle_agent.py:20-25 | the document has version "1.0" and the mask under "mask", and it decodes back to the request's rules, operations and path |
| ExporterAgent.Generate | agents/exporter_agent.py:20-21 | in the model never fails; capture and watermark unchanged; a present seed saturates into [0, 2^32 - 1] |
| ExporterAgent.GenerateDocument | agents/exporter_agent.py:21 | `version` and `capture` first; `watermark` and `seed` iff given; the watermark unchanged; the document decodes back |
| SequenceAgent.Generate | agents/sequence_agent.py:19-20 | never fails; tracks and loop flag pass through in order and length |
| SequenceAgent.LoopsByDefault | agents/sequence_agent.py:13 | without a flag the sequence loops |
| SequenceAgent.GenerateDocument | agents/sequence_agent.py:19-20 | the document is `{version, tracks, loop}` and decodes back to the request's tracks and flag |
| TimekeeperAgent.Generate | agents/timekeeper_agent.py:19-20 | never fails; region and adjustments pass through, the adjustments in order and length |
| TimekeeperAgent.GenerateDocument | agents/timekeeper_agent.py:19-20 | the document is `{version, region, adjustments}` and decodes back to the request's region and adjustments |
| UIHintsAgent.Generate | agents/uihints_agent.py:19-20 | never fails; tips and recommended presets pass through exactly, in order |
| UIHintsAgent.GenerateDocument | agents/uihints_agent.py:19-20 | the document is `{version, tips, recommended_presets}` and decodes back to both lists |

## Left out

- tools/generate_runtime_files.py is not modelled. It is the command-line driver: argument parsing, reading defaults, creating directories and writing files. All of it is I/O.
- agents/__init__.py is not modelled. It only re-exports names.
- JSON text is not modelled. Indentation, `ensure_ascii` and the trailing newline are left out; documents stop at the JSON value.
- The integer/float distinction in JSON output is not modelled. A Python float field that receives an int inside its bounds keeps the int, and so prints without a decimal point. Every float field is modelled as a real and encoded as a number.
- IEEE floating point is reduced to reals plus NaN, for these reasons:
  - Infinities are not modelled. They could pass a clamp that has only a lower bound.
  - `int(...)` of a non-integral float is not modelled, because integer fields are integers from the start.
  - Loss of precision in `float(seed)` for very large seeds is not modelled.
- PresetSchema.MakeBurst, PresetSchema.MakeEmitter, PresetSchema.MakeTargets, ExporterSchema.MakeCapture, ExporterSchema.MakeExporter, PresetAgent.Generate and ExporterAgent.Generate: `float(n)` raises OverflowError when |n| ≥ 2^1024, and this is not modelled. It happens at agents/schema.py lines 64, 93, 233, 448-450 and 473, and at agents/preset_agent.py line 75. For such integers the model succeeds where the source raises. So "fails iff" and "never fails" in these contracts hold only for integers below that size.
- ForceFieldAgent.ApplyConstraints: `max_speed` is a real, so a NaN cap is not modelled. Python's comparisons would ignore a NaN cap.
- PresetAgent.Generate: `internal_scale` may be NaN, as in the source. `max_particles` and `target_fps` are integers.
- ObstaclesSchema.MakeClearRule: `gte` is stored as given, and its type does not admit NaN. The source never validates `gte`, so a NaN there would simply pass through.
- Text.Lower: `str.lower()` and the `re` engine are modelled over ASCII only. Unicode case mapping, and letters outside `[a-z]`, are left out.
- SequenceSchema.MakeSequenceTrack: `apply` is an ordered list of key/value pairs, iterated the way a dictionary iterates. A Python dictionary cannot hold a key twice; the list does not enforce this, and nothing here depends on it.
- Error message texts are left out, and so is which of several errors fires first. A failure carries a short message that is not specified.
- The agents' constructors fall back with `constraints or PresetConstraints()` and `constraints or ForcefieldConstraints()`. `Generate` takes the constraints the agent holds instead. A caller without constraints passes `PresetConstraints()` or `ForcefieldConstraints()`, whose defaults are those of the dataclasses.
- The default factories of the document classes are not modelled. Examples are the default `PresetSchema` parts and the default `CaptureSettings`. No agent uses them.
- The `version` field of every document is the constant "1.0". No agent ever overrides it.
- Watermarks and seasonal `values` are opaque payloads. They are carried as uninterpreted JSON values and never inspected.
