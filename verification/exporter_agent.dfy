/** The exporter agent (agents/exporter_agent.py): hands the capture
    settings, watermark and seed to the exporter document. */
module ExporterAgent {
  import opened Wrappers
  import opened Primitives
  import opened Json
  import opened ExporterSchema

  /** ExporterRequest: watermark and seed default to absent. */
  datatype ExporterRequest = ExporterRequest(
    capture: Capture,
    watermark: Option<Json> := None,
    seed: Option<int> := None)

  /** `ExporterAgent.generate`: never fails; the capture and the watermark
      pass through unchanged and a present seed saturates into
      [0, 2^32 - 1]. */
  function Generate(req: ExporterRequest): (e: Exporter)
    ensures e.Valid() <==> req.capture.Valid()
    ensures e.capture == req.capture && e.watermark == req.watermark
    ensures e.seed.Some? <==> req.seed.Some?
    ensures req.seed.Some? ==> IsNearestInt(e.seed.value, req.seed.value, 0, MaxSeed)
  {
    MakeExporter(req.capture, req.watermark, req.seed)
  }

  /** The generated document always starts with `version` and `capture`,
      holds `watermark` and `seed` exactly when the request gave them, and
      decodes back to the document. */
  lemma GenerateDocument(req: ExporterRequest)
    ensures var j := ExporterToJson(Generate(req));
      && |Keys(j)| >= 2 && Keys(j)[..2] == ["version", "capture"]
      && Get(j, "version") == Some(JStr(SchemaVersion))
      && (HasKey(j, "watermark") <==> req.watermark.Some?)
      && (HasKey(j, "seed") <==> req.seed.Some?)
      && Get(j, "watermark") == req.watermark
      && ExporterFromJson(j) == Some(Generate(req))
  {
    ExporterRoundTrip(Generate(req));
  }
}
