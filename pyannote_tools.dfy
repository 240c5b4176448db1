/** The diarization response of the pyannote service and its JSON form.
    The dataclasses do not check the annotated field types, so the fields
    hold whatever JSON value the document had. */
module PyannoteTools {
  import opened Wrappers
  import opened JsonValue

  datatype Segment = Segment(start: Value, end: Value, speaker: Value)

  datatype Response = Response(diarizationModel: Value, diarization: seq<Segment>, embeddingModel: Value, embeddings: Value)

  const SegmentKeys: set<string> := {"start", "end", "speaker"}
  const ResponseKeys: set<string> := {"diarization_model", "diarization", "embedding_model", "embeddings"}

  /** `DiarizationResponseSegment.to_json`. */
  function SegmentToJson(s: Segment): (r: Value)
    ensures r.Dict? && r.fields.Keys == SegmentKeys
  {
    Dict(map["start" := s.start, "end" := s.end, "speaker" := s.speaker])
  }

  /** `DiarizationResponseSegment.from_json`: reads start, end and speaker in
      that order, KeyError for the first one missing. */
  function SegmentFromJson(v: Value): (r: Result<Segment>)
    ensures v.Dict? && SegmentKeys <= v.fields.Keys <==> r.Ok?
    ensures r.Ok? ==> r.value == Segment(v.fields["start"], v.fields["end"], v.fields["speaker"])
    ensures r.Err? && v.Dict? ==> r.error.KeyError? && r.error.key in SegmentKeys && r.error.key !in v.fields
  {
    var d :- AsObject(v);
    var start :- Get(d, "start");
    var end :- Get(d, "end");
    var speaker :- Get(d, "speaker");
    Ok(Segment(start, end, speaker))
  }

  function SegmentsToJson(ss: seq<Segment>): (r: seq<Value>)
    ensures |r| == |ss|
    ensures forall i :: 0 <= i < |ss| ==> r[i] == SegmentToJson(ss[i])
  {
    seq(|ss|, i requires 0 <= i < |ss| => SegmentToJson(ss[i]))
  }

  /** `[DiarizationResponseSegment.from_json(x) for x in items]`: the first failure wins. */
  function SegmentsFromJson(items: seq<Value>): (r: Result<seq<Segment>>)
    ensures r.Ok? ==> |r.value| == |items|
    ensures r.Ok? ==> forall i :: 0 <= i < |items| ==> SegmentFromJson(items[i]) == Ok(r.value[i])
    ensures r.Err? ==> exists i :: 0 <= i < |items| && SegmentFromJson(items[i]).Err?
    decreases |items|
  {
    if items == [] then Ok([])
    else
      var first :- SegmentFromJson(items[0]);
      var rest :- SegmentsFromJson(items[1..]);
      assert forall i :: 1 <= i < |items| ==> items[i] == items[1..][i - 1];
      Ok([first] + rest)
  }

  /** Iterating `value["diarization"]`: a list yields its items; an empty
      string or dict yields nothing; a non-empty string or dict yields
      strings, which `from_json` cannot index by key; anything else is not
      iterable. */
  function DiarizationItems(v: Value): (r: Result<seq<Segment>>)
    ensures v.List? ==> r == SegmentsFromJson(v.items)
    ensures !v.List? && r.Ok? ==> r.value == []
  {
    match v
    case List(items) => SegmentsFromJson(items)
    case Str(s) => if s == [] then Ok([]) else Err(TypeError("string indices must be integers"))
    case Dict(fields) => if fields == map[] then Ok([]) else Err(TypeError("string indices must be integers"))
    case _ => Err(TypeError("not iterable"))
  }

  /** `DiarizationResponse.to_json`. */
  function ResponseToJson(r: Response): (j: Value)
    ensures j.Dict? && j.fields.Keys == ResponseKeys
    ensures j.fields["diarization"] == List(SegmentsToJson(r.diarization))
  {
    Dict(map[
      "diarization_model" := r.diarizationModel,
      "diarization" := List(SegmentsToJson(r.diarization)),
      "embedding_model" := r.embeddingModel,
      "embeddings" := r.embeddings])
  }

  /** `DiarizationResponse.from_json`: the keys are read in the order
      diarization_model, diarization, embedding_model, embeddings. */
  function ResponseFromJson(v: Value): (r: Result<Response>)
    ensures r.Ok? <==> v.Dict? && ResponseKeys <= v.fields.Keys && DiarizationItems(v.fields["diarization"]).Ok?
    ensures r.Ok? ==> r.value == Response(v.fields["diarization_model"], DiarizationItems(v.fields["diarization"]).value,
                                          v.fields["embedding_model"], v.fields["embeddings"])
    ensures v.Dict? && !("diarization_model" in v.fields && "diarization" in v.fields) ==> r.Err? && r.error.KeyError?
  {
    var d :- AsObject(v);
    var model :- Get(d, "diarization_model");
    var raw :- Get(d, "diarization");
    var segments :- DiarizationItems(raw);
    var embeddingModel :- Get(d, "embedding_model");
    var embeddings :- Get(d, "embeddings");
    Ok(Response(model, segments, embeddingModel, embeddings))
  }

  lemma {:induction false} SegmentsRoundTrip(ss: seq<Segment>)
    ensures SegmentsFromJson(SegmentsToJson(ss)) == Ok(ss)
    decreases |ss|
  {
    if ss != [] {
      SegmentsRoundTrip(ss[1..]);
      assert SegmentsToJson(ss)[1..] == SegmentsToJson(ss[1..]);
      assert ss == [ss[0]] + ss[1..];
    }
  }

  /** Segments survive a to_json/from_json round trip. */
  lemma {:induction false} SegmentRoundTrip(s: Segment)
    ensures SegmentFromJson(SegmentToJson(s)) == Ok(s)
  {
  }

  /** Responses survive a to_json/from_json round trip. */
  lemma {:induction false} ResponseRoundTrip(r: Response)
    ensures ResponseFromJson(ResponseToJson(r)) == Ok(r)
  {
    SegmentsRoundTrip(r.diarization);
  }

  /** Keys other than the four are dropped: from_json reads the same
      response from a document with extra keys. */
  lemma {:induction false} ExtraKeysIgnored(d: Object, extra: Object)
    requires ResponseKeys <= d.Keys
    requires extra.Keys !! ResponseKeys
    ensures ResponseFromJson(Dict(d + extra)) == ResponseFromJson(Dict(d))
  {
    assert forall k :: k in ResponseKeys ==> (d + extra)[k] == d[k];
  }

  /** The request parameters with None values removed. */
  function RequestParams(diarizationModel: string, embeddingModel: string, token: Option<string>): (r: map<string, string>)
    ensures r.Keys == {"diarization_model", "embedding_model"} + (if token.Some? then {"huggingface_token"} else {})
    ensures r["diarization_model"] == diarizationModel && r["embedding_model"] == embeddingModel
    ensures token.Some? ==> r["huggingface_token"] == token.value
  {
    var params := map["diarization_model" := Some(diarizationModel), "embedding_model" := Some(embeddingModel), "huggingface_token" := token];
    map k | k in params && params[k].Some? :: params[k].value
  }
}
