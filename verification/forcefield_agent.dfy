/** The forcefield agent (agents/forcefield_agent.py): builds a forcefield
    document from event specifications, capping speeds by its constraints
    before the schema applies its own caps. */
module ForceFieldAgent {
  import opened Wrappers
  import opened Primitives
  import opened Json
  import opened ForcefieldSchema

  /** ForceEventSpec: the raw fields of one event. */
  datatype ForceEventSpec = ForceEventSpec(
    t: Num,
    kind: string,
    dirDeg: Option<Num> := None,
    speed: Option<Num> := None,
    dur: Option<Num> := None,
    center: Option<seq<Num>> := None,
    radius: Option<Num> := None,
    vortex: Option<Num> := None)

  /** ForcefieldConstraints, with its default cap. */
  datatype ForcefieldConstraints = ForcefieldConstraints(maxSpeed: real := MaxWindSpeed)

  datatype ForcefieldRequest = ForcefieldRequest(
    prompt: string,
    events: seq<ForceEventSpec>,
    usePrebakedTexture: bool := false)

  function MinReal(a: real, b: real): real {
    if a <= b then a else b
  }

  /** The number a clamp produced, fed back into a constructor. */
  function ToNum(v: Option<real>): Option<Num> {
    if v.Some? then Some(Val(v.value)) else None
  }

  /** The inputs the schema accepts for this spec. */
  predicate SpecOk(e: ForceEventSpec) {
    EventInputsOk(e.t, e.dirDeg, e.speed, e.dur, e.center, e.radius, e.vortex)
  }

  /** `_apply_constraints`: a present speed is first clamped into
      [0, max_speed] and a present vortex into [0, 1.25 * max_speed]; the
      other fields reach the event unchanged, and the event's own checks
      then clamp every field. A NaN in any present number, or a center that
      is not a pair, rejects the event. */
  function ApplyConstraints(c: ForcefieldConstraints, e: ForceEventSpec): (r: Result<ForceEvent>)
    ensures r.Failure? <==> !SpecOk(e)
    ensures r.Success? ==> r.value.Valid() && r.value.kind == e.kind
    ensures r.Success? ==> (r.value.speed.Some? <==> e.speed.Some?) && (r.value.vortex.Some? <==> e.vortex.Some?)
    ensures r.Success? ==> IsNearest(r.value.t, e.t.x, Some(0.0), None)
    ensures r.Success? ==> ClampOpt(e.dirDeg, Some(0.0), Some(360.0)) == Success(r.value.dirDeg)
    ensures r.Success? ==> ClampOpt(e.dur, Some(0.0), None) == Success(r.value.dur)
    ensures r.Success? ==> ClampFixed(e.center, 2, 0.0, 1.0) == Success(r.value.center)
    ensures r.Success? ==> ClampOpt(e.radius, Some(0.0), Some(MaxTornadoRadius)) == Success(r.value.radius)
  {
    var speed :- ClampOpt(e.speed, Some(0.0), Some(c.maxSpeed));
    var vortex :- ClampOpt(e.vortex, Some(0.0), Some(c.maxSpeed * 1.25));
    MakeForceEvent(e.t, e.kind, e.dirDeg, ToNum(speed), e.dur, e.center, e.radius, ToNum(vortex))
  }

  /** The two caps on a speed act as one: with a non-negative `max_speed`
      a present speed ends at the point of [0, min(max_speed, 400)] nearest
      the request; with a negative one it ends at 0. */
  lemma SpeedCapped(c: ForcefieldConstraints, e: ForceEventSpec)
    requires ApplyConstraints(c, e).Success? && e.speed.Some?
    ensures var r := ApplyConstraints(c, e).value;
      r.speed.Some? &&
      (c.maxSpeed >= 0.0 ==> IsNearest(r.speed.value, e.speed.value.x, Some(0.0), Some(MinReal(c.maxSpeed, MaxWindSpeed)))) &&
      (c.maxSpeed < 0.0 ==> r.speed.value == 0.0)
  {
    if c.maxSpeed >= 0.0 {
      ClampTwice(e.speed.value.x, 0.0, c.maxSpeed, MaxWindSpeed);
    }
  }

  /** Likewise for a vortex, against [0, min(1.25 * max_speed, 500)]. */
  lemma VortexCapped(c: ForcefieldConstraints, e: ForceEventSpec)
    requires ApplyConstraints(c, e).Success? && e.vortex.Some?
    ensures var r := ApplyConstraints(c, e).value;
      r.vortex.Some? &&
      (c.maxSpeed >= 0.0 ==> IsNearest(r.vortex.value, e.vortex.value.x, Some(0.0), Some(MinReal(c.maxSpeed * 1.25, MaxVortexSpeed)))) &&
      (c.maxSpeed < 0.0 ==> r.vortex.value == 0.0)
  {
    if c.maxSpeed >= 0.0 {
      ClampTwice(e.vortex.value.x, 0.0, c.maxSpeed * 1.25, MaxVortexSpeed);
    }
  }

  /** Every spec of the list is one the schema accepts. */
  predicate AllOk(specs: seq<ForceEventSpec>) {
    forall i :: 0 <= i < |specs| ==> SpecOk(specs[i])
  }

  /** `events` is `specs` with the constraints applied to each, in order. */
  predicate Applied(c: ForcefieldConstraints, specs: seq<ForceEventSpec>, events: seq<ForceEvent>) {
    |events| == |specs| && forall i :: 0 <= i < |specs| ==> ApplyConstraints(c, specs[i]) == Success(events[i])
  }

  /** `[self._apply_constraints(event) for event in request.events]`:
      all-or-nothing, one event per spec, in order. */
  function ApplyAll(c: ForcefieldConstraints, specs: seq<ForceEventSpec>): (r: Result<seq<ForceEvent>>)
    ensures r.Failure? <==> !AllOk(specs)
    ensures r.Success? ==> Applied(c, specs, r.value)
  {
    if |specs| == 0 then Success([])
    else
      var head :- ApplyConstraints(c, specs[0]);
      var tail :- ApplyAll(c, specs[1..]);
      ApplyCons(c, specs, head, tail);
      Success([head] + tail)
  }

  /** One step of `ApplyAll`: a failing tail fails the whole list, and a
      constrained head before a constrained tail is a constrained list. */
  lemma ApplyCons(c: ForcefieldConstraints, specs: seq<ForceEventSpec>, head: ForceEvent, tail: seq<ForceEvent>)
    requires |specs| > 0 && ApplyConstraints(c, specs[0]) == Success(head)
    requires Applied(c, specs[1..], tail)
    ensures Applied(c, specs, [head] + tail)
  {
    assert forall i :: 1 <= i < |specs| ==> specs[i] == specs[1..][i - 1];
  }

  /** `ForceFieldAgent.generate`: the timeline has one constrained event per
      spec, in order, and the texture flag is passed through. */
  function Generate(c: ForcefieldConstraints, req: ForcefieldRequest): (r: Result<Forcefield>)
    ensures r.Failure? <==> exists i :: 0 <= i < |req.events| && !SpecOk(req.events[i])
    ensures r.Success? ==> r.value.Valid()
    ensures r.Success? ==> |r.value.timeline| == |req.events|
    ensures r.Success? ==> forall i :: 0 <= i < |req.events| ==> ApplyConstraints(c, req.events[i]) == Success(r.value.timeline[i])
    ensures r.Success? ==> r.value.usePrebakedTexture == req.usePrebakedTexture
  {
    var events :- ApplyAll(c, req.events);
    Success(Forcefield(events, req.usePrebakedTexture))
  }

  /** The generated document carries version "1.0", one timeline item per
      spec in order, the flag under `texture.use_prebaked`, and decodes
      back to the forcefield. */
  lemma GenerateDocument(c: ForcefieldConstraints, req: ForcefieldRequest)
    requires Generate(c, req).Success?
    ensures var j := ForcefieldToJson(Generate(c, req).value);
      && Get(j, "version") == Some(JStr(SchemaVersion))
      && Get(j, "timeline").Some? && Get(j, "timeline").value.JArr?
      && |Get(j, "timeline").value.items| == |req.events|
      && Get(j, "texture").Some?
      && Get(Get(j, "texture").value, "use_prebaked") == Some(JBool(req.usePrebakedTexture))
      && ForcefieldFromJson(j) == Some(Generate(c, req).value)
  {
    var f := Generate(c, req).value;
    ForcefieldRoundTrip(f);
    ForcefieldTexture(f);
  }

  /** An event's `speed` and `vortex` keys appear in the generated timeline
      exactly when its spec gave them. */
  lemma GenerateOmitsAbsent(c: ForcefieldConstraints, req: ForcefieldRequest, i: nat)
    requires Generate(c, req).Success? && i < |req.events|
    ensures var t := Get(ForcefieldToJson(Generate(c, req).value), "timeline");
      && t.Some? && t.value.JArr? && i < |t.value.items|
      && (HasKey(t.value.items[i], "speed") <==> req.events[i].speed.Some?)
      && (HasKey(t.value.items[i], "vortex") <==> req.events[i].vortex.Some?)
  {
    var f := Generate(c, req).value;
    ForcefieldRoundTrip(f);
    assert ApplyConstraints(c, req.events[i]) == Success(f.timeline[i]);
  }

  /** The speed example: a cap of 150 holds a requested 500 to exactly 150. */
  lemma SpeedExample()
    ensures var r := Generate(ForcefieldConstraints(150.0),
        ForcefieldRequest("intense gust", [ForceEventSpec(Val(0.0), "gust", dirDeg := Some(Val(90.0)), speed := Some(Val(500.0)), dur := Some(Val(5.0)))]));
      r.Success? && |r.value.timeline| == 1 && r.value.timeline[0].speed == Some(150.0)
  {
    var spec := ForceEventSpec(Val(0.0), "gust", dirDeg := Some(Val(90.0)), speed := Some(Val(500.0)), dur := Some(Val(5.0)));
    assert SpecOk(spec);
    SpeedCapped(ForcefieldConstraints(150.0), spec);
  }
}
