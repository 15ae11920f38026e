/** The records of the sequence document (agents/schema.py, SequenceTrack
    and SequenceSchema): timed tracks that swap runtime resources in. */
module SequenceSchema {
  import opened Wrappers
  import opened Primitives
  import opened Json

  /** Every value of an `apply` mapping is a runtime path. */
  predicate AllRuntimeValues(apply: seq<(string, string)>) {
    forall i :: 0 <= i < |apply| ==> IsRuntimePath(apply[i].1)
  }

  /** `{key: ensure_runtime_path(value) for key, value in apply.items()}`:
      the mapping comes back unchanged, keys and order included, when every
      value is a runtime path, and is rejected otherwise. */
  function EnsureRuntimeValues(apply: seq<(string, string)>): (r: Result<seq<(string, string)>>)
    ensures r.Success? <==> AllRuntimeValues(apply)
    ensures r.Success? ==> r.value == apply
  {
    if |apply| == 0 then Success([])
    else
      var value :- EnsureRuntimePath(apply[0].1);
      var rest :- EnsureRuntimeValues(apply[1..]);
      assert forall i :: 1 <= i < |apply| ==> apply[i] == apply[1..][i - 1];
      assert [(apply[0].0, value)] + rest == apply;
      Success([(apply[0].0, value)] + rest)
  }

  /** A track: at time `t`, bind each key of `apply` to a runtime resource.
      The mapping is an ordered list of pairs, as a dictionary iterates. */
  datatype SequenceTrack = SequenceTrack(t: real, apply: seq<(string, string)>) {
    predicate Valid() {
      t >= 0.0 && AllRuntimeValues(apply)
    }
  }

  /** SequenceTrack: `t` saturates at 0 from below and every value of the
      mapping must be a runtime path; the keys are kept as given. */
  function MakeSequenceTrack(t: Num, apply: seq<(string, string)>): (r: Result<SequenceTrack>)
    ensures r.Success? <==> t.Val? && AllRuntimeValues(apply)
    ensures r.Success? ==> r.value.Valid() && r.value.apply == apply
    ensures r.Success? ==> IsNearest(r.value.t, t.x, Some(0.0), None)
  {
    var t' :- Clamp(t, Some(0.0), None);
    var apply' :- EnsureRuntimeValues(apply);
    Success(SequenceTrack(t', apply'))
  }

  /** The mapping as a JSON object of strings, in iteration order. */
  function ApplyToJson(apply: seq<(string, string)>): (j: Json)
    ensures j.JObj? && Keys(j) == seq(|apply|, i requires 0 <= i < |apply| => apply[i].0)
  {
    JObj(seq(|apply|, i requires 0 <= i < |apply| => (apply[i].0, Str(apply[i].1))))
  }

  function ApplyFromFields(fields: seq<(string, Json)>): Option<seq<(string, string)>> {
    if |fields| == 0 then Some([])
    else
      var value :- AsStr(fields[0].1);
      var rest :- ApplyFromFields(fields[1..]);
      Some([(fields[0].0, value)] + rest)
  }

  function ApplyFromJson(j: Json): Option<seq<(string, string)>> {
    if j.JObj? then ApplyFromFields(j.fields) else None
  }

  lemma {:induction false} ApplyRoundTrip(apply: seq<(string, string)>)
    ensures ApplyFromJson(ApplyToJson(apply)) == Some(apply)
    decreases |apply|
  {
    var fields := ApplyToJson(apply).fields;
    if |apply| > 0 {
      assert fields[1..] == ApplyToJson(apply[1..]).fields;
      ApplyRoundTrip(apply[1..]);
      assert [(apply[0].0, apply[0].1)] + apply[1..] == apply;
    }
  }

  const TrackKeys: seq<string> := ["t", "apply"]

  function TrackValues(s: SequenceTrack): (vs: seq<Option<Json>>)
    ensures |vs| == |TrackKeys|
  {
    [ Req(Float(s.t)),
      Req(ApplyToJson(s.apply)) ]
  }

  function TrackToJson(s: SequenceTrack): (j: Json)
    ensures Keys(j) == TrackKeys
  {
    ObjKeys(TrackKeys, TrackValues(s));
    Obj(TrackKeys, TrackValues(s))
  }

  function TrackFromJson(j: Json): Option<SequenceTrack> {
    var t :- Field(j, "t", AsNum);
    var apply :- Field(j, "apply", ApplyFromJson);
    Some(SequenceTrack(t, apply))
  }

  lemma TrackRoundTrip(s: SequenceTrack)
    ensures TrackFromJson(TrackToJson(s)) == Some(s)
  {
    assert TrackKeys[0] == "t" && TrackKeys[1] == "apply";
    ObjGet(TrackKeys, TrackValues(s));
    ApplyRoundTrip(s.apply);
  }

  /** SequenceSchema: the tracks, in order, and whether the sequence loops.
      It validates nothing itself. */
  datatype Sequence = Sequence(tracks: seq<SequenceTrack>, loop: bool) {
    predicate Valid() {
      forall i :: 0 <= i < |tracks| ==> tracks[i].Valid()
    }
  }

  const SequenceKeys: seq<string> := ["version", "tracks", "loop"]

  function SequenceValues(s: Sequence): (vs: seq<Option<Json>>)
    ensures |vs| == |SequenceKeys|
  {
    [ Req(Str(SchemaVersion)),
      Req(Arr(s.tracks, TrackToJson)),
      Req(JBool(s.loop)) ]
  }

  function SequenceToJson(s: Sequence): (j: Json)
    ensures Keys(j) == SequenceKeys
  {
    ObjKeys(SequenceKeys, SequenceValues(s));
    Obj(SequenceKeys, SequenceValues(s))
  }

  function SequenceFromJson(j: Json): Option<Sequence> {
    var version :- Field(j, "version", AsStr);
    if version != SchemaVersion then None
    else
      var tracks :- Field(j, "tracks", (t: Json) => DecodeArr(t, TrackFromJson));
      var loop :- Field(j, "loop", AsBool);
      Some(Sequence(tracks, loop))
  }

  /** The sequence document carries version "1.0" and the loop flag, and
      decodes back to the document, tracks in order. */
  lemma SequenceRoundTrip(s: Sequence)
    ensures Get(SequenceToJson(s), "version") == Some(JStr(SchemaVersion))
    ensures Get(SequenceToJson(s), "loop") == Some(JBool(s.loop))
    ensures SequenceFromJson(SequenceToJson(s)) == Some(s)
  {
    assert SequenceKeys[0] == "version" && SequenceKeys[1] == "tracks" && SequenceKeys[2] == "loop";
    ObjGet(SequenceKeys, SequenceValues(s));
    forall t | t in s.tracks
      ensures TrackFromJson(TrackToJson(t)) == Some(t)
    {
      TrackRoundTrip(t);
    }
    ArrRoundTrip(s.tracks, TrackToJson, TrackFromJson);
  }
}
