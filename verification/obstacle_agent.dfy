/** The obstacle agent (agents/obstacle_agent.py): hands already built clear
    rules and draw operations to the obstacles document, with the mask path
    it was given. */
module ObstacleAgent {
  import opened Wrappers
  import opened Primitives
  import opened Json
  import opened ObstaclesSchema

  /** ObstacleRequest; the mask path defaults to the runtime obstacle mask. */
  datatype ObstacleRequest = ObstacleRequest(
    clearRules: seq<ClearRule>,
    drawOps: seq<DrawOp>,
    maskPath: string := DefaultMaskPath)

  /** `ObstacleAgent.generate`: the rules and operations pass through in
      order and length; a mask path outside `res://runtime/` fails. */
  function Generate(req: ObstacleRequest): (r: Result<Obstacles>)
    ensures r.Success? <==> IsRuntimePath(req.maskPath)
    ensures r.Success? ==> r.value.Valid()
    ensures r.Success? ==> r.value.clearRules == req.clearRules && r.value.drawOps == req.drawOps
    ensures r.Success? ==> r.value.maskPath == req.maskPath
  {
    MakeObstacles(req.clearRules, req.drawOps, req.maskPath)
  }

  /** The default mask path is a runtime path, so a request that keeps it
      always succeeds. */
  lemma DefaultMaskAccepted(clearRules: seq<ClearRule>, drawOps: seq<DrawOp>)
    ensures Generate(ObstacleRequest(clearRules, drawOps)).Success?
  {
    assert DefaultMaskPath[..|RuntimePrefix|] == RuntimePrefix;
  }

  /** The generated document carries version "1.0", puts the mask path under
      "mask", and decodes back to the given rules, operations and path. */
  lemma GenerateDocument(req: ObstacleRequest)
    requires Generate(req).Success?
    ensures var j := ObstaclesToJson(Generate(req).value);
      && Get(j, "version") == Some(JStr(SchemaVersion))
      && Get(j, "mask") == Some(JStr(req.maskPath))
      && ObstaclesFromJson(j) == Some(Obstacles(req.clearRules, req.drawOps, req.maskPath))
  {
    ObstaclesRoundTrip(Generate(req).value);
  }
}
