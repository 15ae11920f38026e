/** The timekeeper agent (agents/timekeeper_agent.py): hands a region and
    its seasonal adjustments to the timekeeper document. */
module TimekeeperAgent {
  import opened Wrappers
  import opened Primitives
  import opened Json
  import opened TimekeeperSchema

  datatype TimekeeperRequest = TimekeeperRequest(region: string, adjustments: seq<SeasonalAdjust>)

  /** `TimekeeperAgent.generate`: validates nothing and never fails; region
      and adjustments pass through, the adjustments in order and length. */
  function Generate(req: TimekeeperRequest): (t: Timekeeper)
    ensures t.region == req.region && t.adjustments == req.adjustments
  {
    Timekeeper(req.region, req.adjustments)
  }

  /** The generated document is `{version, region, adjustments}` and decodes
      back to the given region and adjustments. */
  lemma GenerateDocument(req: TimekeeperRequest)
    ensures var j := TimekeeperToJson(Generate(req));
      && Keys(j) == ["version", "region", "adjustments"]
      && Get(j, "version") == Some(JStr(SchemaVersion))
      && TimekeeperFromJson(j) == Some(Timekeeper(req.region, req.adjustments))
  {
    TimekeeperRoundTrip(Generate(req));
  }
}
