/** The records of the exporter document (agents/schema.py, CaptureSettings
    and ExporterSchema): what to capture, an optional watermark and an
    optional seed. */
module ExporterSchema {
  import opened Wrappers
  import opened Primitives
  import opened Json

  /** The largest exporter seed, 2^32 - 1. */
  const MaxSeed: int := TwoTo32 - 1

  datatype Capture = Capture(kind: string, w: int, h: int, fps: int, durSec: real) {
    predicate Valid() {
      && InRange(w, 1, MaxExportResolution)
      && InRange(h, 1, MaxExportResolution)
      && InRange(fps, 1, 240)
      && InBounds(durSec, Some(0.0), Some(MaxExportDuration))
    }
  }

  /** CaptureSettings: width and height saturate into [1, 4096], fps into
      [1, 240] and the duration into [0, 120] seconds; only a NaN duration
      is rejected. */
  function MakeCapture(kind: string, w: int, h: int, fps: int, durSec: Num): (r: Result<Capture>)
    ensures r.Success? <==> durSec.Val?
    ensures r.Success? ==> r.value.Valid() && r.value.kind == kind
    ensures r.Success? ==> IsNearestInt(r.value.w, w, 1, MaxExportResolution)
    ensures r.Success? ==> IsNearestInt(r.value.h, h, 1, MaxExportResolution)
    ensures r.Success? ==> IsNearestInt(r.value.fps, fps, 1, 240)
    ensures r.Success? ==> IsNearest(r.value.durSec, durSec.x, Some(0.0), Some(MaxExportDuration))
  {
    var dur :- Clamp(durSec, Some(0.0), Some(MaxExportDuration));
    Success(Capture(kind, ClampInt(w, 1, MaxExportResolution), ClampInt(h, 1, MaxExportResolution),
                    ClampInt(fps, 1, 240), dur))
  }

  const CaptureKeys: seq<string> := ["type", "w", "h", "fps", "dur_sec"]

  function CaptureValues(c: Capture): (vs: seq<Option<Json>>)
    ensures |vs| == |CaptureKeys|
  {
    [ Req(Str(c.kind)),
      Req(JInt(c.w)),
      Req(JInt(c.h)),
      Req(JInt(c.fps)),
      Req(Float(c.durSec)) ]
  }

  function CaptureToJson(c: Capture): (j: Json)
    ensures Keys(j) == CaptureKeys
  {
    ObjKeys(CaptureKeys, CaptureValues(c));
    Obj(CaptureKeys, CaptureValues(c))
  }

  function CaptureFromJson(j: Json): Option<Capture> {
    var kind :- Field(j, "type", AsStr);
    var w :- Field(j, "w", AsInt);
    var h :- Field(j, "h", AsInt);
    var fps :- Field(j, "fps", AsInt);
    var dur :- Field(j, "dur_sec", AsNum);
    Some(Capture(kind, w, h, fps, dur))
  }

  lemma CaptureRoundTrip(c: Capture)
    ensures CaptureFromJson(CaptureToJson(c)) == Some(c)
  {
    assert CaptureKeys[0] == "type" && CaptureKeys[1] == "w" && CaptureKeys[2] == "h";
    assert CaptureKeys[3] == "fps" && CaptureKeys[4] == "dur_sec";
    ObjGet(CaptureKeys, CaptureValues(c));
  }

  /** ExporterSchema. The watermark is an opaque payload carried as given. */
  datatype Exporter = Exporter(capture: Capture, watermark: Option<Json>, seed: Option<int>) {
    predicate Valid() {
      capture.Valid() && (seed.Some? ==> InRange(seed.value, 0, MaxSeed))
    }
  }

  /** ExporterSchema: a present seed saturates into [0, 2^32 - 1] (unlike
      the emitter's seed, which wraps); everything else is kept as given.
      An integer cannot be NaN, so in this model construction never fails. */
  function MakeExporter(capture: Capture, watermark: Option<Json>, seed: Option<int>): (e: Exporter)
    ensures e.Valid() <==> capture.Valid()
    ensures e.capture == capture && e.watermark == watermark
    ensures e.seed.Some? <==> seed.Some?
    ensures seed.Some? ==> IsNearestInt(e.seed.value, seed.value, 0, MaxSeed)
  {
    Exporter(capture, watermark, if seed.Some? then Some(ClampInt(seed.value, 0, MaxSeed)) else None)
  }

  /** The two seed policies part ways outside [0, 2^32): one past the top,
      the emitter wraps to 0 and the exporter saturates to 2^32 - 1; at -1,
      the emitter wraps to 2^32 - 1 and the exporter saturates to 0. */
  lemma SeedPoliciesDiffer()
    ensures (TwoTo32 % TwoTo32, MakeExporter(Capture("video", 1, 1, 1, 0.0), None, Some(TwoTo32)).seed) == (0, Some(MaxSeed))
    ensures ((-1) % TwoTo32, MakeExporter(Capture("video", 1, 1, 1, 0.0), None, Some(-1)).seed) == (MaxSeed, Some(0))
  {
  }

  const ExporterKeys: seq<string> := ["version", "capture", "watermark", "seed"]

  function ExporterValues(e: Exporter): (vs: seq<Option<Json>>)
    ensures |vs| == |ExporterKeys|
  {
    [ Req(Str(SchemaVersion)),
      Req(CaptureToJson(e.capture)),
      e.watermark,
      Opt(e.seed, (n: int) => JInt(n)) ]
  }

  /** `version` and `capture` are always emitted; `watermark` and `seed`
      exactly when present. */
  function ExporterToJson(e: Exporter): (j: Json)
    ensures HasKey(j, "version") && HasKey(j, "capture")
    ensures HasKey(j, "watermark") <==> e.watermark.Some?
    ensures HasKey(j, "seed") <==> e.seed.Some?
    ensures |Keys(j)| >= 2 && Keys(j)[..2] == ["version", "capture"]
  {
    assert ExporterKeys[0] == "version" && ExporterKeys[1] == "capture" && ExporterKeys[2] == "watermark" && ExporterKeys[3] == "seed";
    ObjGet(ExporterKeys, ExporterValues(e));
    ObjPrefix(ExporterKeys, ExporterValues(e), 2);
    Obj(ExporterKeys, ExporterValues(e))
  }

  function ExporterFromJson(j: Json): Option<Exporter> {
    var version :- Field(j, "version", AsStr);
    if version != SchemaVersion then None
    else
      var capture :- Field(j, "capture", CaptureFromJson);
      var watermark :- OptField(j, "watermark", AsAny);
      var seed :- OptField(j, "seed", AsInt);
      Some(Exporter(capture, watermark, seed))
  }

  /** The exporter document carries version "1.0" and decodes back to the
      document, the watermark payload unchanged. */
  lemma ExporterRoundTrip(e: Exporter)
    ensures Get(ExporterToJson(e), "version") == Some(JStr(SchemaVersion))
    ensures Get(ExporterToJson(e), "watermark") == e.watermark
    ensures ExporterFromJson(ExporterToJson(e)) == Some(e)
  {
    assert ExporterKeys[0] == "version" && ExporterKeys[1] == "capture" && ExporterKeys[2] == "watermark" && ExporterKeys[3] == "seed";
    ObjGet(ExporterKeys, ExporterValues(e));
    CaptureRoundTrip(e.capture);
  }
}
