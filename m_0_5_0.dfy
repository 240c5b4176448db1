/** `migrate_0_5_0` of the migrations package: the `diarization.json` of
    every diarization item records the configuration of the pipeline that
    produced it (checkpoint, models, batch sizes, clustering) and keeps its
    result under `segments` instead of `diarization`. */
module Migration050 {
  import opened Wrappers
  import opened JsonValue
  import opened Text
  import opened Disk
  import opened MigrationSteps
  import opened VideoWalk

  const DiarizationJson := "diarization.json"

  /** The one pipeline whose configuration the step knows. */
  const Pipeline31 := "pyannote/speaker-diarization-3.1"

  /** The keys the step adds to a converted document. */
  const ConfigKeys: set<string> := {"checkpoint", "segmentation_model", "segmentation_batch_size",
    "embedding_model", "embedding_batch_size", "embedding_exclude_overlap", "clustering"}

  /** `"checkpoint" in dia`, for every kind of document: a key of an
      object, an item of a list, a substring of a string; a scalar is not a
      container (TypeError). */
  function HasCheckpoint(dia: Value): Result<bool> {
    match dia
    case Dict(fields) => Ok("checkpoint" in fields)
    case List(items) => Ok(Str("checkpoint") in items)
    case Set(elems) => Ok(Str("checkpoint") in elems)
    case Str(s) => Ok(Contains(s, "checkpoint"))
    case _ => Err(TypeError("argument is not iterable"))
  }

  /** The configuration recorded for a run of the pipeline `checkpoint`,
      with `embedding` the embedding model the old document named: the
      pipeline 3.1 gets its known models, batch sizes and clustering, any
      other checkpoint the "unknown" ones, and a truthy `embedding` is kept
      over the default embedding model. */
  function Config(checkpoint: Value, embedding: Value): (r: Object)
    ensures r.Keys == ConfigKeys
    ensures r["checkpoint"] == checkpoint
    ensures checkpoint == Str(Pipeline31) ==>
      r["segmentation_model"] == Str("pyannote/segmentation-3.0") &&
      r["segmentation_batch_size"] == Num(32.0) && r["embedding_batch_size"] == Num(32.0) &&
      r["embedding_exclude_overlap"] == Bool(true) && r["clustering"] == Str("AgglomerativeClustering")
    ensures checkpoint != Str(Pipeline31) ==>
      r["segmentation_model"] == Null &&
      r["segmentation_batch_size"] == Num(-1.0) && r["embedding_batch_size"] == Num(-1.0) &&
      r["embedding_exclude_overlap"] == Bool(false) && r["clustering"] == Str("unknown")
    ensures Truthy(embedding) ==> r["embedding_model"] == embedding
    ensures !Truthy(embedding) ==>
      r["embedding_model"] == (if checkpoint == Str(Pipeline31) then Str("pyannote/wespeaker-voxceleb-resnet34-LM") else Null)
  {
    var known := checkpoint == Str(Pipeline31);
    map[
      "checkpoint" := checkpoint,
      "segmentation_model" := if known then Str("pyannote/segmentation-3.0") else Null,
      "segmentation_batch_size" := if known then Num(32.0) else Num(-1.0),
      "embedding_model" :=
        if Truthy(embedding) then embedding
        else if known then Str("pyannote/wespeaker-voxceleb-resnet34-LM") else Null,
      "embedding_batch_size" := if known then Num(32.0) else Num(-1.0),
      "embedding_exclude_overlap" := Bool(known),
      "clustering" := Str(if known then "AgglomerativeClustering" else "unknown")
    ]
  }

  /** The converted diarization document: `diarization_model` becomes
      `checkpoint` ("unknown" when absent) with its `Config`, the result
      moves from `diarization` to `segments` (KeyError when absent), and
      every other key is kept. */
  function Rewrite(dia: Object): (r: Result<Object>)
    ensures r.Ok? <==> "diarization" in dia
    ensures r.Err? ==> r.error == KeyError("diarization")
    ensures r.Ok? ==> r.value.Keys == dia.Keys - {"diarization_model", "diarization"} + ConfigKeys + {"segments"}
    ensures r.Ok? ==> r.value["segments"] == dia["diarization"]
    ensures r.Ok? ==> forall k :: k in ConfigKeys ==>
      r.value[k] == Config(GetOr(dia, "diarization_model", Str("unknown")), GetOr(dia, "embedding_model", Null))[k]
    ensures r.Ok? ==> forall k :: k in dia && k !in ConfigKeys && k !in {"diarization_model", "diarization", "segments"} ==>
      r.value[k] == dia[k]
  {
    var checkpoint := GetOr(dia, "diarization_model", Str("unknown"));
    var embedding := GetOr(dia, "embedding_model", Null);
    var segments :- Get(dia, "diarization");
    var rest := dia - {"diarization_model", "embedding_model", "diarization"};
    Ok(rest + Config(checkpoint, embedding)["segments" := segments])
  }

  /** Whether an item's metadata lets the step go on to its diarization:
      an item without a `metadata.json` file does, an item whose metadata
      is an object does exactly when its `item_type` is "diarization", and
      metadata that is not JSON or not an object raises. */
  function DiarizationItem(codec: Codec, metadata: Option<string>): (r: Result<bool>)
    ensures metadata.None? ==> r == Ok(true)
    ensures metadata.Some? ==> (r.Ok? <==> Loads(codec, metadata.value).Ok? && Loads(codec, metadata.value).value.Dict?)
    ensures metadata.Some? && r.Ok? ==>
      (r.value <==> GetOr(Loads(codec, metadata.value).value.fields, "item_type", Null) == Str("diarization"))
  {
    if metadata.None? then Ok(true)
    else
      var v :- Loads(codec, metadata.value);
      if !v.Dict? then Err(AttributeError("object has no attribute 'get'"))
      else Ok(GetOr(v.fields, "item_type", Null) == Str("diarization"))
  }

  /** The step for one content item, from the texts of its `metadata.json`
      and its `diarization.json`: an item that is not a diarization item, an
      item without a diarization file and a document that already has a
      checkpoint are passed over; any other document that is an object is
      replaced by the sorted dump of its `Rewrite`, and one that is not
      raises. */
  function ItemPlan(codec: Codec, metadata: Option<string>, current: Option<string>): (r: Result<Option<string>>)
    ensures DiarizationItem(codec, metadata).Err? ==> r.Err?
    ensures DiarizationItem(codec, metadata) == Ok(false) ==> r == Ok(None)
    ensures DiarizationItem(codec, metadata).Ok? && current.None? ==> r == Ok(None)
    ensures (DiarizationItem(codec, metadata).Ok? && current.Some? && Loads(codec, current.value).Ok? &&
               Loads(codec, current.value).value.Dict? && "checkpoint" in Loads(codec, current.value).value.fields) ==>
      r == Ok(None)
    ensures r.Ok? && r.value.Some? ==>
      DiarizationItem(codec, metadata) == Ok(true) && current.Some? &&
      Loads(codec, current.value).Ok? && Loads(codec, current.value).value.Dict? &&
      "checkpoint" !in Loads(codec, current.value).value.fields &&
      Rewrite(Loads(codec, current.value).value.fields).Ok? &&
      r.value.value == codec.sortedDumps(Dict(Rewrite(Loads(codec, current.value).value.fields).value))
  {
    var goOn :- DiarizationItem(codec, metadata);
    if !goOn || current.None? then Ok(None)
    else
      var dia :- Loads(codec, current.value);
      var done :- HasCheckpoint(dia);
      if done then Ok(None)
      else if !dia.Dict? then
        Err(if dia.Str? then AttributeError("'str' object has no attribute 'pop'") else TypeError("pop expected at most 1 argument"))
      else
        var converted :- Rewrite(dia.fields);
        Ok(Some(codec.sortedDumps(Dict(converted))))
  }

  /** The plan handed to the walk over the items' `diarization.json`. */
  function Plan(codec: Codec): (p: VideoWalk.Plan)
    ensures WritesOnlyFiles(p)
  {
    (metadata: Option<string>, current: Option<string>) => ItemPlan(codec, metadata, current)
  }

  /** A codec whose `json.loads` reads back what its sorted `json.dumps`
      writes. */
  ghost predicate RoundTrips(codec: Codec) {
    forall v :: codec.loads(codec.sortedDumps(v)) == Some(v)
  }

  /** The step is done once per document: with a codec that reads back
      what it writes, a converted document is passed over the next time. */
  lemma {:induction false} RewriteIsFinal(codec: Codec, metadata: Option<string>, text: string)
    requires RoundTrips(codec)
    requires ItemPlan(codec, metadata, Some(text)).Ok? && ItemPlan(codec, metadata, Some(text)).value.Some?
    ensures ItemPlan(codec, metadata, ItemPlan(codec, metadata, Some(text)).value) == Ok(None)
  {
    var dia := Loads(codec, text).value.fields;
    var converted := Rewrite(dia).value;
    assert codec.loads(codec.sortedDumps(Dict(converted))) == Some(Dict(converted));
    assert "checkpoint" in converted;
  }

  /** At version 0.5.0 the video table, when it is a directory, is walked
      over the items' `diarization.json`, and the metadata comes back with
      version 0.6.0 and every other key as it was; the step raises exactly
      when some item does, and otherwise leaves the file system
      `Rewritten`. Any other version leaves everything as it was. */
  method Migrate(fs: Fs, codec: Codec, storagePath: Path, metadata: Object) returns (fs': Fs, r: Result<Object>)
    ensures "version" !in metadata ==> fs' == fs && r == Err(KeyError("version"))
    ensures "version" in metadata && metadata["version"] != Str("0.5.0") ==> fs' == fs && r == Ok(metadata)
    ensures "version" in metadata && metadata["version"] == Str("0.5.0") && !IsDir(fs, storagePath + ["video"]) ==>
      fs' == fs && r.Ok?
    ensures "version" in metadata && metadata["version"] == Str("0.5.0") && IsDir(fs, storagePath + ["video"]) ==>
      (r.Ok? <==> AllOk(Plan(codec), fs, storagePath + ["video"], DiarizationJson)) &&
      (r.Ok? ==> fs' == Rewritten(Plan(codec), fs, storagePath + ["video"], DiarizationJson))
    ensures r.Ok? ==> r.value.Keys == metadata.Keys && r.value["version"] == StepVersion("0.5.0", "0.6.0", metadata["version"])
    ensures r.Ok? ==> forall k :: k in metadata && k != "version" ==> r.value[k] == metadata[k]
  {
    var at := AtVersion(metadata, "0.5.0");
    if at.Err? {
      return fs, Err(at.error);
    }
    if !at.value {
      return fs, Ok(metadata);
    }
    var tableP := storagePath + ["video"];
    fs' := fs;
    if IsDir(fs, tableP) {
      var err;
      fs', err := Walk(fs, Plan(codec), tableP, DiarizationJson);
      if err.Some? {
        return fs', Err(err.value);
      }
    }
    r := Ok(With(metadata, "version", Str("0.6.0")));
  }

  /** What the step leaves at one item of a well-formed file system where
      no item fails: its `diarization.json` holds the converted document
      when the item plan converts it, and is unchanged otherwise. */
  lemma {:induction false} ItemRewritten(codec: Codec, fs: Fs, tableP: Path, q: Path)
    requires Tree(fs)
    requires AllOk(Plan(codec), fs, tableP, DiarizationJson)
    requires Slot(fs, tableP, DiarizationJson, q) && IsFile(fs, q)
    ensures ItemPlan(codec, TextAt(fs, Parent(q) + [MetadataJson]), Some(fs[q].text)).Ok?
    ensures ItemPlan(codec, TextAt(fs, Parent(q) + [MetadataJson]), Some(fs[q].text)).value.None? ==>
      Rewritten(Plan(codec), fs, tableP, DiarizationJson)[q] == fs[q]
    ensures ItemPlan(codec, TextAt(fs, Parent(q) + [MetadataJson]), Some(fs[q].text)).value.Some? ==>
      Rewritten(Plan(codec), fs, tableP, DiarizationJson)[q] ==
        File(ItemPlan(codec, TextAt(fs, Parent(q) + [MetadataJson]), Some(fs[q].text)).value.value)
  {
    var plan := Plan(codec);
    assert ItemResult(plan, fs, q).Ok?;
    assert Parent(q) + [DiarizationJson] == q by {
      SlotParts(fs, tableP, DiarizationJson, q);
    }
    assert IsDir(fs, Parent(q));
    RewrittenAt(plan, fs, tableP, DiarizationJson, q);
  }

  /** A diarization document that is an object without a checkpoint and
      without a `diarization` result makes the step raise. */
  lemma {:induction false} MissingResultFails(codec: Codec, fs: Fs, tableP: Path, q: Path, dia: Object)
    requires Slot(fs, tableP, DiarizationJson, q) && IsFile(fs, q)
    requires DiarizationItem(codec, TextAt(fs, Parent(q) + [MetadataJson])) == Ok(true)
    requires codec.loads(fs[q].text) == Some(Dict(dia))
    requires "checkpoint" !in dia && "diarization" !in dia
    ensures !AllOk(Plan(codec), fs, tableP, DiarizationJson)
  {
    assert ItemPlan(codec, TextAt(fs, Parent(q) + [MetadataJson]), TextAt(fs, q)).Err?;
    assert ItemResult(Plan(codec), fs, q).Err?;
  }
}
