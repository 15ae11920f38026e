/** The sequence agent (agents/sequence_agent.py): hands already built
    tracks and the loop flag to the sequence document. */
module SequenceAgent {
  import opened Wrappers
  import opened Primitives
  import opened Json
  import opened SequenceSchema

  /** SequenceRequest; a sequence loops unless told otherwise. */
  datatype SequenceRequest = SequenceRequest(tracks: seq<SequenceTrack>, loop: bool := true)

  /** `SequenceAgent.generate`: never fails; the tracks pass through in
      order and length, and so does the flag. */
  function Generate(req: SequenceRequest): (s: Sequence)
    ensures s.tracks == req.tracks && s.loop == req.loop
    ensures s.Valid() <==> forall i :: 0 <= i < |req.tracks| ==> req.tracks[i].Valid()
  {
    Sequence(req.tracks, req.loop)
  }

  /** Without a flag the generated sequence loops. */
  lemma LoopsByDefault(tracks: seq<SequenceTrack>)
    ensures Generate(SequenceRequest(tracks)).loop
  {
  }

  /** The generated document is `{version, tracks, loop}` with the flag as
      given, and decodes back to the given tracks and flag. */
  lemma GenerateDocument(req: SequenceRequest)
    ensures var j := SequenceToJson(Generate(req));
      && Keys(j) == ["version", "tracks", "loop"]
      && Get(j, "version") == Some(JStr(SchemaVersion))
      && Get(j, "loop") == Some(JBool(req.loop))
      && SequenceFromJson(j) == Some(Sequence(req.tracks, req.loop))
  {
    SequenceRoundTrip(Generate(req));
  }
}
