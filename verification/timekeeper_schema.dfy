/** The records of the timekeeper document (agents/schema.py,
    SeasonalAdjust and TimekeeperSchema): a region and the seasonal
    adjustments to apply in it. Nothing here is validated. */
module TimekeeperSchema {
  import opened Wrappers
  import opened Primitives
  import opened Json

  /** The region a timekeeper document names unless told otherwise. */
  const DefaultRegion: string := "UTC"

  /** One parameter and its per-season values; the values are an opaque
      payload carried as given. */
  datatype SeasonalAdjust = SeasonalAdjust(parameter: string, values: Json)

  const AdjustKeys: seq<string> := ["parameter", "values"]

  function AdjustValues(a: SeasonalAdjust): (vs: seq<Option<Json>>)
    ensures |vs| == |AdjustKeys|
  {
    [ Req(Str(a.parameter)),
      Req(a.values) ]
  }

  function AdjustToJson(a: SeasonalAdjust): (j: Json)
    ensures Keys(j) == AdjustKeys
  {
    ObjKeys(AdjustKeys, AdjustValues(a));
    Obj(AdjustKeys, AdjustValues(a))
  }

  function AdjustFromJson(j: Json): Option<SeasonalAdjust> {
    var parameter :- Field(j, "parameter", AsStr);
    var values :- Get(j, "values");
    Some(SeasonalAdjust(parameter, values))
  }

  lemma AdjustRoundTrip(a: SeasonalAdjust)
    ensures AdjustFromJson(AdjustToJson(a)) == Some(a)
  {
    assert AdjustKeys[0] == "parameter" && AdjustKeys[1] == "values";
    ObjGet(AdjustKeys, AdjustValues(a));
  }

  datatype Timekeeper = Timekeeper(region: string := DefaultRegion, adjustments: seq<SeasonalAdjust> := [])

  const TimekeeperKeys: seq<string> := ["version", "region", "adjustments"]

  function TimekeeperValues(t: Timekeeper): (vs: seq<Option<Json>>)
    ensures |vs| == |TimekeeperKeys|
  {
    [ Req(Str(SchemaVersion)),
      Req(Str(t.region)),
      Req(Arr(t.adjustments, AdjustToJson)) ]
  }

  function TimekeeperToJson(t: Timekeeper): (j: Json)
    ensures Keys(j) == TimekeeperKeys
  {
    ObjKeys(TimekeeperKeys, TimekeeperValues(t));
    Obj(TimekeeperKeys, TimekeeperValues(t))
  }

  function TimekeeperFromJson(j: Json): Option<Timekeeper> {
    var version :- Field(j, "version", AsStr);
    if version != SchemaVersion then None
    else
      var region :- Field(j, "region", AsStr);
      var adjustments :- Field(j, "adjustments", (a: Json) => DecodeArr(a, AdjustFromJson));
      Some(Timekeeper(region, adjustments))
  }

  /** The timekeeper document carries version "1.0" and decodes back to the
      document, adjustments in order. */
  lemma TimekeeperRoundTrip(t: Timekeeper)
    ensures Get(TimekeeperToJson(t), "version") == Some(JStr(SchemaVersion))
    ensures TimekeeperFromJson(TimekeeperToJson(t)) == Some(t)
  {
    assert TimekeeperKeys[0] == "version" && TimekeeperKeys[1] == "region" && TimekeeperKeys[2] == "adjustments";
    ObjGet(TimekeeperKeys, TimekeeperValues(t));
    forall a | a in t.adjustments
      ensures AdjustFromJson(AdjustToJson(a)) == Some(a)
    {
      AdjustRoundTrip(a);
    }
    ArrRoundTrip(t.adjustments, AdjustToJson, AdjustFromJson);
  }
}
