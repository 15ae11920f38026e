/** The records of the obstacles document (agents/schema.py, ClearRule,
    DrawOp and ObstaclesSchema): rules that clear accumulated particles,
    drawing operations on the obstacle mask, and the mask's runtime path. */
module ObstaclesSchema {
  import opened Wrappers
  import opened Primitives
  import opened Json

  /** The largest clearing radius, in pixels. */
  const MaxClearRadius: real := 4096.0

  /** The mask path an obstacles document uses unless told otherwise. */
  const DefaultMaskPath: string := "res://runtime/obstacles_mask.png"

  /** The drawing mode a DrawOp uses unless told otherwise. */
  const DefaultDrawMode: string := "solid"

  datatype ClearRule = ClearRule(
    trigger: string,
    action: string,
    at: Option<string>,
    gte: Option<real>,
    radiusPx: Option<real>)
  {
    predicate Valid() {
      radiusPx.Some? ==> 0.0 <= radiusPx.value <= MaxClearRadius
    }
  }

  /** ClearRule: only a present radius is checked, saturating into
      [0, 4096]; `at` and `gte` are kept as given. */
  function MakeClearRule(trigger: string, action: string, at: Option<string>, gte: Option<real>, radiusPx: Option<Num>)
    : (r: Result<ClearRule>)
    ensures r.Success? <==> !IsNaN(radiusPx)
    ensures r.Success? ==> r.value.Valid()
    ensures r.Success? ==> r.value.trigger == trigger && r.value.action == action && r.value.at == at && r.value.gte == gte
    ensures r.Success? ==> ClampOpt(radiusPx, Some(0.0), Some(MaxClearRadius)) == Success(r.value.radiusPx)
  {
    var radius :- ClampOpt(radiusPx, Some(0.0), Some(MaxClearRadius));
    Success(ClearRule(trigger, action, at, gte, radius))
  }

  const ClearRuleKeys: seq<string> := ["trigger", "action", "at", "gte", "radius_px"]

  function ClearRuleValues(c: ClearRule): (vs: seq<Option<Json>>)
    ensures |vs| == |ClearRuleKeys|
  {
    [ Req(Str(c.trigger)),
      Req(Str(c.action)),
      Opt(c.at, Str),
      Opt(c.gte, Float),
      Opt(c.radiusPx, Float) ]
  }

  /** `trigger` and `action` are always emitted; `at`, `gte` and
      `radius_px` exactly when present. */
  function ClearRuleToJson(c: ClearRule): (j: Json)
    ensures HasKey(j, "trigger") && HasKey(j, "action")
    ensures HasKey(j, "at") <==> c.at.Some?
    ensures HasKey(j, "gte") <==> c.gte.Some?
    ensures HasKey(j, "radius_px") <==> c.radiusPx.Some?
  {
    assert ClearRuleKeys[0] == "trigger" && ClearRuleKeys[1] == "action" && ClearRuleKeys[2] == "at";
    assert ClearRuleKeys[3] == "gte" && ClearRuleKeys[4] == "radius_px";
    ObjGet(ClearRuleKeys, ClearRuleValues(c));
    Obj(ClearRuleKeys, ClearRuleValues(c))
  }

  function ClearRuleFromJson(j: Json): Option<ClearRule> {
    var trigger :- Field(j, "trigger", AsStr);
    var action :- Field(j, "action", AsStr);
    var at :- OptField(j, "at", AsStr);
    var gte :- OptField(j, "gte", AsNum);
    var radius :- OptField(j, "radius_px", AsNum);
    Some(ClearRule(trigger, action, at, gte, radius))
  }

  lemma ClearRuleRoundTrip(c: ClearRule)
    ensures ClearRuleFromJson(ClearRuleToJson(c)) == Some(c)
  {
    assert ClearRuleKeys[0] == "trigger" && ClearRuleKeys[1] == "action" && ClearRuleKeys[2] == "at";
    assert ClearRuleKeys[3] == "gte" && ClearRuleKeys[4] == "radius_px";
    ObjGet(ClearRuleKeys, ClearRuleValues(c));
  }

  /** Every component of a coordinate list lies in [0, 1]. */
  predicate AllUnit(xs: seq<real>) {
    forall i :: 0 <= i < |xs| ==> 0.0 <= xs[i] <= 1.0
  }

  datatype DrawOp = DrawOp(
    op: string,
    pos: Option<seq<real>>,
    radius: Option<real>,
    rect: Option<seq<real>>,
    mode: string := DefaultDrawMode)
  {
    predicate Valid() {
      && (pos.Some? ==> |pos.value| == 2 && AllUnit(pos.value))
      && (radius.Some? ==> 0.0 <= radius.value <= 1.0)
      && (rect.Some? ==> |rect.value| == 4 && AllUnit(rect.value))
    }
  }

  /** DrawOp: a present position must be a pair and a present rectangle a
      quadruple; their components and a present radius saturate into the
      unit interval. Any other arity, or a NaN, rejects the operation. */
  function MakeDrawOp(op: string, pos: Option<seq<Num>>, radius: Option<Num>, rect: Option<seq<Num>>, mode: string := DefaultDrawMode)
    : (r: Result<DrawOp>)
    ensures r.Success? <==> FixedOk(pos, 2) && !IsNaN(radius) && FixedOk(rect, 4)
    ensures r.Success? ==> r.value.Valid() && r.value.op == op && r.value.mode == mode
    ensures r.Success? ==> ClampFixed(pos, 2, 0.0, 1.0) == Success(r.value.pos)
    ensures r.Success? ==> ClampOpt(radius, Some(0.0), Some(1.0)) == Success(r.value.radius)
    ensures r.Success? ==> ClampFixed(rect, 4, 0.0, 1.0) == Success(r.value.rect)
  {
    var pos' :- ClampFixed(pos, 2, 0.0, 1.0);
    var radius' :- ClampOpt(radius, Some(0.0), Some(1.0));
    var rect' :- ClampFixed(rect, 4, 0.0, 1.0);
    Success(DrawOp(op, pos', radius', rect', mode))
  }

  const DrawOpKeys: seq<string> := ["op", "mode", "pos", "radius", "rect"]

  function DrawOpValues(d: DrawOp): (vs: seq<Option<Json>>)
    ensures |vs| == |DrawOpKeys|
  {
    [ Req(Str(d.op)),
      Req(Str(d.mode)),
      Opt(d.pos, Nums),
      Opt(d.radius, Float),
      Opt(d.rect, Nums) ]
  }

  /** `op` and `mode` are always emitted; `pos`, `radius` and `rect`
      exactly when present. */
  function DrawOpToJson(d: DrawOp): (j: Json)
    ensures HasKey(j, "op") && HasKey(j, "mode")
    ensures HasKey(j, "pos") <==> d.pos.Some?
    ensures HasKey(j, "radius") <==> d.radius.Some?
    ensures HasKey(j, "rect") <==> d.rect.Some?
  {
    assert DrawOpKeys[0] == "op" && DrawOpKeys[1] == "mode" && DrawOpKeys[2] == "pos";
    assert DrawOpKeys[3] == "radius" && DrawOpKeys[4] == "rect";
    ObjGet(DrawOpKeys, DrawOpValues(d));
    Obj(DrawOpKeys, DrawOpValues(d))
  }

  function DrawOpFromJson(j: Json): Option<DrawOp> {
    var op :- Field(j, "op", AsStr);
    var mode :- Field(j, "mode", AsStr);
    var pos :- OptField(j, "pos", AsNums);
    var radius :- OptField(j, "radius", AsNum);
    var rect :- OptField(j, "rect", AsNums);
    Some(DrawOp(op, pos, radius, rect, mode))
  }

  lemma DrawOpRoundTrip(d: DrawOp)
    ensures DrawOpFromJson(DrawOpToJson(d)) == Some(d)
  {
    assert DrawOpKeys[0] == "op" && DrawOpKeys[1] == "mode" && DrawOpKeys[2] == "pos";
    assert DrawOpKeys[3] == "radius" && DrawOpKeys[4] == "rect";
    ObjGet(DrawOpKeys, DrawOpValues(d));
    if d.pos.Some? {
      NumsRoundTrip(d.pos.value);
    }
    if d.rect.Some? {
      NumsRoundTrip(d.rect.value);
    }
  }

  datatype Obstacles = Obstacles(clearRules: seq<ClearRule>, drawOps: seq<DrawOp>, maskPath: string) {
    predicate Valid() {
      IsRuntimePath(maskPath)
    }
  }

  /** ObstaclesSchema: the rules and operations are kept as given, in order;
      the mask path must be a runtime path. */
  function MakeObstacles(clearRules: seq<ClearRule>, drawOps: seq<DrawOp>, maskPath: string): (r: Result<Obstacles>)
    ensures r.Success? <==> IsRuntimePath(maskPath)
    ensures r.Success? ==> r.value.Valid()
    ensures r.Success? ==> r.value.clearRules == clearRules && r.value.drawOps == drawOps && r.value.maskPath == maskPath
  {
    var mask :- EnsureRuntimePath(maskPath);
    Success(Obstacles(clearRules, drawOps, mask))
  }

  const ObstaclesKeys: seq<string> := ["version", "clear_rules", "draw_ops", "mask"]

  function ObstaclesValues(o: Obstacles): (vs: seq<Option<Json>>)
    ensures |vs| == |ObstaclesKeys|
  {
    [ Req(Str(SchemaVersion)),
      Req(Arr(o.clearRules, ClearRuleToJson)),
      Req(Arr(o.drawOps, DrawOpToJson)),
      Req(Str(o.maskPath)) ]
  }

  function ObstaclesToJson(o: Obstacles): (j: Json)
    ensures Keys(j) == ObstaclesKeys
  {
    ObjKeys(ObstaclesKeys, ObstaclesValues(o));
    Obj(ObstaclesKeys, ObstaclesValues(o))
  }

  function ObstaclesFromJson(j: Json): Option<Obstacles> {
    var version :- Field(j, "version", AsStr);
    if version != SchemaVersion then None
    else
      var rules :- Field(j, "clear_rules", (r: Json) => DecodeArr(r, ClearRuleFromJson));
      var ops :- Field(j, "draw_ops", (d: Json) => DecodeArr(d, DrawOpFromJson));
      var mask :- Field(j, "mask", AsStr);
      Some(Obstacles(rules, ops, mask))
  }

  /** The obstacles document carries version "1.0" and the mask path under
      `mask`, and decodes back to the document, lists in order. */
  lemma ObstaclesRoundTrip(o: Obstacles)
    ensures Get(ObstaclesToJson(o), "version") == Some(JStr(SchemaVersion))
    ensures Get(ObstaclesToJson(o), "mask") == Some(JStr(o.maskPath))
    ensures ObstaclesFromJson(ObstaclesToJson(o)) == Some(o)
  {
    assert ObstaclesKeys[0] == "version" && ObstaclesKeys[1] == "clear_rules" && ObstaclesKeys[2] == "draw_ops" && ObstaclesKeys[3] == "mask";
    ObjGet(ObstaclesKeys, ObstaclesValues(o));
    forall c | c in o.clearRules
      ensures ClearRuleFromJson(ClearRuleToJson(c)) == Some(c)
    {
      ClearRuleRoundTrip(c);
    }
    ArrRoundTrip(o.clearRules, ClearRuleToJson, ClearRuleFromJson);
    forall d | d in o.drawOps
      ensures DrawOpFromJson(DrawOpToJson(d)) == Some(d)
    {
      DrawOpRoundTrip(d);
    }
    ArrRoundTrip(o.drawOps, DrawOpToJson, DrawOpFromJson);
  }
}
