/** The asset pack document (agents/schema.py, AssetPackSchema): the
    assets a runtime needs and those of them that are missing. */
module AssetPackSchema {
  import opened Wrappers
  import opened Primitives
  import opened Json

  datatype AssetPack = AssetPack(requiredAssets: seq<string>, missingAssets: seq<string>)

  const AssetPackKeys: seq<string> := ["version", "required_assets", "missing_assets"]

  function AssetPackValues(a: AssetPack): (vs: seq<Option<Json>>)
    ensures |vs| == |AssetPackKeys|
  {
    [ Req(Str(SchemaVersion)),
      Req(Strs(a.requiredAssets)),
      Req(Strs(a.missingAssets)) ]
  }

  function AssetPackToJson(a: AssetPack): (j: Json)
    ensures Keys(j) == AssetPackKeys
  {
    ObjKeys(AssetPackKeys, AssetPackValues(a));
    Obj(AssetPackKeys, AssetPackValues(a))
  }

  function AssetPackFromJson(j: Json): Option<AssetPack> {
    var version :- Field(j, "version", AsStr);
    if version != SchemaVersion then None
    else
      var required :- Field(j, "required_assets", AsStrs);
      var missing :- Field(j, "missing_assets", AsStrs);
      Some(AssetPack(required, missing))
  }

  /** The asset pack document carries version "1.0" and decodes back to both
      lists, in order. */
  lemma AssetPackRoundTrip(a: AssetPack)
    ensures Get(AssetPackToJson(a), "version") == Some(JStr(SchemaVersion))
    ensures AssetPackFromJson(AssetPackToJson(a)) == Some(a)
  {
    assert AssetPackKeys[0] == "version" && AssetPackKeys[1] == "required_assets" && AssetPackKeys[2] == "missing_assets";
    ObjGet(AssetPackKeys, AssetPackValues(a));
    StrsRoundTrip(a.requiredAssets);
    StrsRoundTrip(a.missingAssets);
  }
}
