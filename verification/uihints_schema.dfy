/** The UI hints document (agents/schema.py, UIHintsSchema): tips and
    recommended preset names, as given. */
module UIHintsSchema {
  import opened Wrappers
  import opened Primitives
  import opened Json

  datatype UIHints = UIHints(tips: seq<string>, recommendedPresets: seq<string>)

  const UIHintsKeys: seq<string> := ["version", "tips", "recommended_presets"]

  function UIHintsValues(u: UIHints): (vs: seq<Option<Json>>)
    ensures |vs| == |UIHintsKeys|
  {
    [ Req(Str(SchemaVersion)),
      Req(Strs(u.tips)),
      Req(Strs(u.recommendedPresets)) ]
  }

  function UIHintsToJson(u: UIHints): (j: Json)
    ensures Keys(j) == UIHintsKeys
  {
    ObjKeys(UIHintsKeys, UIHintsValues(u));
    Obj(UIHintsKeys, UIHintsValues(u))
  }

  function UIHintsFromJson(j: Json): Option<UIHints> {
    var version :- Field(j, "version", AsStr);
    if version != SchemaVersion then None
    else
      var tips :- Field(j, "tips", AsStrs);
      var presets :- Field(j, "recommended_presets", AsStrs);
      Some(UIHints(tips, presets))
  }

  /** The UI hints document carries version "1.0" and decodes back to both
      lists, in order. */
  lemma UIHintsRoundTrip(u: UIHints)
    ensures Get(UIHintsToJson(u), "version") == Some(JStr(SchemaVersion))
    ensures UIHintsFromJson(UIHintsToJson(u)) == Some(u)
  {
    assert UIHintsKeys[0] == "version" && UIHintsKeys[1] == "tips" && UIHintsKeys[2] == "recommended_presets";
    ObjGet(UIHintsKeys, UIHintsValues(u));
    StrsRoundTrip(u.tips);
    StrsRoundTrip(u.recommendedPresets);
  }
}
