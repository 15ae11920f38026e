/** The UI hints agent (agents/uihints_agent.py): hands tips and recommended
    preset names to the UI hints document. */
module UIHintsAgent {
  import opened Wrappers
  import opened Primitives
  import opened Json
  import opened UIHintsSchema

  datatype UIHintsRequest = UIHintsRequest(tips: seq<string>, recommendedPresets: seq<string>)

  /** `UIHintsAgent.generate`: never fails; both lists pass through exactly,
      in order. */
  function Generate(req: UIHintsRequest): (u: UIHints)
    ensures u.tips == req.tips && u.recommendedPresets == req.recommendedPresets
  {
    UIHints(req.tips, req.recommendedPresets)
  }

  /** The generated document is `{version, tips, recommended_presets}` and
      decodes back to both lists, in order. */
  lemma GenerateDocument(req: UIHintsRequest)
    ensures var j := UIHintsToJson(Generate(req));
      && Keys(j) == ["version", "tips", "recommended_presets"]
      && Get(j, "version") == Some(JStr(SchemaVersion))
      && UIHintsFromJson(j) == Some(UIHints(req.tips, req.recommendedPresets))
  {
    UIHintsRoundTrip(Generate(req));
  }
}
