/** The records of the forcefield document (agents/schema.py, ForceEvent and
    ForcefieldSchema): a timeline of wind, gust and vortex events, each of
    whose numeric fields saturates into its own range on construction. */
module ForcefieldSchema {
  import opened Wrappers
  import opened Primitives
  import opened Json

  /** An optional number lies in [lo, hi] when present. */
  predicate OptIn(v: Option<real>, lo: real, hi: real) {
    v.Some? ==> lo <= v.value <= hi
  }

  datatype ForceEvent = ForceEvent(
    t: real,
    kind: string,
    dirDeg: Option<real>,
    speed: Option<real>,
    dur: Option<real>,
    center: Option<seq<real>>,
    radius: Option<real>,
    vortex: Option<real>)
  {
    predicate Valid() {
      && t >= 0.0
      && OptIn(dirDeg, 0.0, 360.0)
      && OptIn(speed, 0.0, MaxWindSpeed)
      && (dur.Some? ==> dur.value >= 0.0)
      && (center.Some? ==> |center.value| == 2 && forall i :: 0 <= i < 2 ==> 0.0 <= center.value[i] <= 1.0)
      && OptIn(radius, 0.0, MaxTornadoRadius)
      && OptIn(vortex, 0.0, MaxVortexSpeed)
    }
  }

  /** The inputs of a ForceEvent that construction accepts: a number for
      `t`, no NaN among the present optional numbers, and a center, if any,
      that is a pair of numbers. */
  predicate EventInputsOk(t: Num, dirDeg: Option<Num>, speed: Option<Num>, dur: Option<Num>,
                          center: Option<seq<Num>>, radius: Option<Num>, vortex: Option<Num>)
  {
    && t.Val?
    && !IsNaN(dirDeg) && !IsNaN(speed) && !IsNaN(dur)
    && FixedOk(center, 2)
    && !IsNaN(radius) && !IsNaN(vortex)
  }

  /** ForceEvent: `t` saturates at 0 from below, and every optional field
      that is present saturates into its range: direction [0, 360], speed
      [0, 400], duration [0, ∞), center components [0, 1], radius [0, 0.5],
      vortex [0, 500]. An absent field stays absent; a center that is not a
      pair, or a NaN anywhere, rejects the whole event. */
  function MakeForceEvent(t: Num, kind: string, dirDeg: Option<Num>, speed: Option<Num>, dur: Option<Num>,
                          center: Option<seq<Num>>, radius: Option<Num>, vortex: Option<Num>)
    : (r: Result<ForceEvent>)
    ensures r.Success? <==> EventInputsOk(t, dirDeg, speed, dur, center, radius, vortex)
    ensures r.Success? ==> r.value.Valid() && r.value.kind == kind
    ensures r.Success? ==> IsNearest(r.value.t, t.x, Some(0.0), None)
    ensures r.Success? ==> ClampOpt(dirDeg, Some(0.0), Some(360.0)) == Success(r.value.dirDeg)
    ensures r.Success? ==> ClampOpt(speed, Some(0.0), Some(MaxWindSpeed)) == Success(r.value.speed)
    ensures r.Success? ==> ClampOpt(dur, Some(0.0), None) == Success(r.value.dur)
    ensures r.Success? ==> ClampFixed(center, 2, 0.0, 1.0) == Success(r.value.center)
    ensures r.Success? ==> ClampOpt(radius, Some(0.0), Some(MaxTornadoRadius)) == Success(r.value.radius)
    ensures r.Success? ==> ClampOpt(vortex, Some(0.0), Some(MaxVortexSpeed)) == Success(r.value.vortex)
  {
    var t' :- Clamp(t, Some(0.0), None);
    var dir' :- ClampOpt(dirDeg, Some(0.0), Some(360.0));
    var speed' :- ClampOpt(speed, Some(0.0), Some(MaxWindSpeed));
    var dur' :- ClampOpt(dur, Some(0.0), None);
    var center' :- ClampFixed(center, 2, 0.0, 1.0);
    var radius' :- ClampOpt(radius, Some(0.0), Some(MaxTornadoRadius));
    var vortex' :- ClampOpt(vortex, Some(0.0), Some(MaxVortexSpeed));
    Success(ForceEvent(t', kind, dir', speed', dur', center', radius', vortex'))
  }

  const ForceEventKeys: seq<string> := ["t", "type", "dir_deg", "speed", "dur", "center", "radius", "vortex"]

  function ForceEventValues(e: ForceEvent): (vs: seq<Option<Json>>)
    ensures |vs| == |ForceEventKeys|
  {
    [ Req(Float(e.t)),
      Req(Str(e.kind)),
      Opt(e.dirDeg, Float),
      Opt(e.speed, Float),
      Opt(e.dur, Float),
      Opt(e.center, Nums),
      Opt(e.radius, Float),
      Opt(e.vortex, Float) ]
  }

  /** `t` and `type` are always emitted; every optional key is emitted
      exactly when its field is present. */
  function ForceEventToJson(e: ForceEvent): (j: Json)
    ensures HasKey(j, "t") && HasKey(j, "type")
    ensures HasKey(j, "dir_deg") <==> e.dirDeg.Some?
    ensures HasKey(j, "speed") <==> e.speed.Some?
    ensures HasKey(j, "dur") <==> e.dur.Some?
    ensures HasKey(j, "center") <==> e.center.Some?
    ensures HasKey(j, "radius") <==> e.radius.Some?
    ensures HasKey(j, "vortex") <==> e.vortex.Some?
  {
    assert ForceEventKeys[0] == "t" && ForceEventKeys[1] == "type" && ForceEventKeys[2] == "dir_deg" && ForceEventKeys[3] == "speed";
    assert ForceEventKeys[4] == "dur" && ForceEventKeys[5] == "center" && ForceEventKeys[6] == "radius" && ForceEventKeys[7] == "vortex";
    ObjGet(ForceEventKeys, ForceEventValues(e));
    Obj(ForceEventKeys, ForceEventValues(e))
  }

  function ForceEventFromJson(j: Json): Option<ForceEvent> {
    var t :- Field(j, "t", AsNum);
    var kind :- Field(j, "type", AsStr);
    var dir :- OptField(j, "dir_deg", AsNum);
    var speed :- OptField(j, "speed", AsNum);
    var dur :- OptField(j, "dur", AsNum);
    var center :- OptField(j, "center", AsNums);
    var radius :- OptField(j, "radius", AsNum);
    var vortex :- OptField(j, "vortex", AsNum);
    Some(ForceEvent(t, kind, dir, speed, dur, center, radius, vortex))
  }

  /** What each key of an event's JSON holds. */
  lemma ForceEventGets(e: ForceEvent)
    ensures var j := ForceEventToJson(e);
      && Get(j, "t") == Some(Float(e.t)) && Get(j, "type") == Some(Str(e.kind))
      && Get(j, "dir_deg") == Opt(e.dirDeg, Float) && Get(j, "speed") == Opt(e.speed, Float)
      && Get(j, "dur") == Opt(e.dur, Float) && Get(j, "center") == Opt(e.center, Nums)
      && Get(j, "radius") == Opt(e.radius, Float) && Get(j, "vortex") == Opt(e.vortex, Float)
  {
    assert ForceEventKeys[0] == "t" && ForceEventKeys[1] == "type" && ForceEventKeys[2] == "dir_deg" && ForceEventKeys[3] == "speed";
    assert ForceEventKeys[4] == "dur" && ForceEventKeys[5] == "center" && ForceEventKeys[6] == "radius" && ForceEventKeys[7] == "vortex";
    ObjGet(ForceEventKeys, ForceEventValues(e));
  }

  lemma ForceEventRoundTrip(e: ForceEvent)
    ensures ForceEventFromJson(ForceEventToJson(e)) == Some(e)
  {
    ForceEventGets(e);
    if e.center.Some? {
      NumsRoundTrip(e.center.value);
    }
  }

  /** ForcefieldSchema: the timeline of already built events and the flag
      asking for a prebaked force texture. It validates nothing itself. */
  datatype Forcefield = Forcefield(timeline: seq<ForceEvent>, usePrebakedTexture: bool) {
    predicate Valid() {
      forall i :: 0 <= i < |timeline| ==> timeline[i].Valid()
    }
  }

  const ForcefieldKeys: seq<string> := ["version", "timeline", "texture"]
  const TextureKeys: seq<string> := ["use_prebaked"]

  function ForcefieldValues(f: Forcefield): (vs: seq<Option<Json>>)
    ensures |vs| == |ForcefieldKeys|
  {
    [ Req(Str(SchemaVersion)),
      Req(Arr(f.timeline, ForceEventToJson)),
      Req(Obj(TextureKeys, [Req(JBool(f.usePrebakedTexture))])) ]
  }

  function ForcefieldToJson(f: Forcefield): (j: Json)
    ensures Keys(j) == ForcefieldKeys
  {
    ObjKeys(ForcefieldKeys, ForcefieldValues(f));
    Obj(ForcefieldKeys, ForcefieldValues(f))
  }

  function ForcefieldFromJson(j: Json): Option<Forcefield> {
    var version :- Field(j, "version", AsStr);
    if version != SchemaVersion then None
    else
      var timeline :- Field(j, "timeline", (t: Json) => DecodeArr(t, ForceEventFromJson));
      var texture :- Get(j, "texture");
      var prebaked :- Field(texture, "use_prebaked", AsBool);
      Some(Forcefield(timeline, prebaked))
  }

  /** The forcefield document carries version "1.0", lists the events in
      timeline order (the i-th array item is the i-th event), and decodes
      back to the document. */
  lemma ForcefieldRoundTrip(f: Forcefield)
    ensures Get(ForcefieldToJson(f), "version") == Some(JStr(SchemaVersion))
    ensures Get(ForcefieldToJson(f), "timeline").Some?
    ensures var items := Get(ForcefieldToJson(f), "timeline").value;
      items.JArr? && |items.items| == |f.timeline|
      && forall i :: 0 <= i < |f.timeline| ==> items.items[i] == ForceEventToJson(f.timeline[i])
    ensures ForcefieldFromJson(ForcefieldToJson(f)) == Some(f)
  {
    assert ForcefieldKeys[0] == "version" && ForcefieldKeys[1] == "timeline" && ForcefieldKeys[2] == "texture";
    assert TextureKeys[0] == "use_prebaked";
    ObjGet(ForcefieldKeys, ForcefieldValues(f));
    ObjGet(TextureKeys, [Req(JBool(f.usePrebakedTexture))]);
    forall e | e in f.timeline
      ensures ForceEventFromJson(ForceEventToJson(e)) == Some(e)
    {
      ForceEventRoundTrip(e);
    }
    ArrRoundTrip(f.timeline, ForceEventToJson, ForceEventFromJson);
  }

  /** The flag sits under `texture.use_prebaked`. */
  lemma ForcefieldTexture(f: Forcefield)
    ensures Get(ForcefieldToJson(f), "texture").Some?
    ensures Get(Get(ForcefieldToJson(f), "texture").value, "use_prebaked") == Some(JBool(f.usePrebakedTexture))
  {
    assert ForcefieldKeys[2] == "texture" && TextureKeys[0] == "use_prebaked";
    ObjGet(ForcefieldKeys, ForcefieldValues(f));
    ObjGet(TextureKeys, [Req(JBool(f.usePrebakedTexture))]);
  }
}
