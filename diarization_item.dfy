/** `DiarizationItem`: a content item holding a speaker diarization of
    an audio item, stored as `diarization.json` next to its metadata, with
    the source it was made from and the models that made it. */
module DiarizationItem {
  import opened Wrappers
  import opened JsonValue
  import opened Disk
  import opened FilesMixin
  import opened MetadataMixin
  import opened FilterableMixin
  import opened PyannoteTools
  import FlagsMixin
  import BaseItem

  const DiarizationType: string := "diarization"

  /** The file holding the diarization itself. */
  const DiarizationJson: string := "diarization.json"

  /** The item's object is a diarization item. */
  predicate IsDiarization(item: BaseItem.Item) {
    item.itemType == DiarizationType
  }

  /** The `diarization` getter over what `load_json_file` returned: None
      (a missing file, or a document holding `null`) stays None and any
      other document is parsed by `Diarization.from_json`. */
  function DiarizationOf(raw: Result<Option<Value>>): (r: Result<Option<Response>>)
    ensures raw.Err? ==> r == Err(raw.error)
    ensures raw == Ok(None) || raw == Ok(Some(Null)) ==> r == Ok(None)
    ensures r.Ok? && r.value.Some? <==>
      raw.Ok? && raw.value.Some? && !raw.value.value.Null? && ResponseFromJson(raw.value.value).Ok?
    ensures r.Ok? && r.value.Some? ==> ResponseFromJson(raw.value.value) == Ok(r.value.value)
    ensures raw.Ok? && raw.value.Some? && !raw.value.value.Null? && ResponseFromJson(raw.value.value).Err? ==>
      r == Err(ResponseFromJson(raw.value.value).error)
  {
    var v :- raw;
    if v.None? || v.value.Null? then Ok(None)
    else
      var d :- ResponseFromJson(v.value);
      Ok(Some(d))
  }

  /** A `diarization.json` holding `null` gives no diarization. */
  lemma {:induction false} NullDiarizationIsNone(cache: map<string, Value>, filesPath: Path, fs: Fs, codec: Codec)
    requires DiarizationJson !in cache && IsFile(fs, filesPath + [DiarizationJson])
    requires codec.loads(fs[filesPath + [DiarizationJson]].text) == Some(Null)
    ensures DiarizationOf(JsonRead(cache, filesPath, fs, codec, DiarizationJson, true)) == Ok(None)
  {
    assert JsonRead(cache, filesPath, fs, codec, DiarizationJson, true) == Ok(Some(Null));
  }

  /** The `diarization` getter. */
  method GetDiarization(item: BaseItem.Item, fs: Fs, codec: Codec) returns (r: Result<Option<Response>>)
    requires IsDiarization(item)
    modifies item.files
    ensures r == DiarizationOf(JsonRead(old(item.files.jsonCache), item.files.filesPath, fs, codec, DiarizationJson, true))
    ensures (item.files.textCache, item.files.jsonCache) ==
      JsonLoadCaches(old(item.files.textCache), old(item.files.jsonCache), item.files.filesPath, fs, codec, DiarizationJson, true)
  {
    var raw := item.files.LoadJson(fs, codec, DiarizationJson, true);
    r := DiarizationOf(raw);
  }

  /** The `diarization` setter: the response's `to_json` document is saved
      through the JSON file helper. */
  method SetDiarization(item: BaseItem.Item, fs: Fs, codec: Codec, value: Response) returns (fs': Fs, err: Option<Error>)
    requires IsDiarization(item)
    modifies item.files
    ensures (fs', err) == SaveTextSpec(fs, item.files.filesPath, DiarizationJson, JsonText(codec, ResponseToJson(value)))
    ensures (item.files.textCache, item.files.jsonCache) ==
      JsonSaveCaches(old(item.files.textCache), old(item.files.jsonCache), codec, DiarizationJson, ResponseToJson(value), err)
  {
    fs', err := item.files.SaveJson(fs, codec, DiarizationJson, ResponseToJson(value));
  }

  /** After a successful set, the getter returns the diarization that was
      set: the cached document parses back to it. */
  lemma {:induction false} SetThenGetDiarization(cache: map<string, Value>, filesPath: Path, fs: Fs, codec: Codec, value: Response)
    requires SaveTextSpec(fs, filesPath, DiarizationJson, JsonText(codec, ResponseToJson(value))).1.None?
    ensures DiarizationOf(JsonRead(JsonCacheAfterSave(cache, DiarizationJson, ResponseToJson(value), None), filesPath,
                                   SaveTextSpec(fs, filesPath, DiarizationJson, JsonText(codec, ResponseToJson(value))).0,
                                   codec, DiarizationJson, true))
         == Ok(Some(value))
  {
    ReadAfterSaveJson(cache, filesPath, fs, codec, DiarizationJson, ResponseToJson(value));
    ResponseRoundTrip(value);
  }

  /** `diarization_model` over what the getter returned: None without a
      diarization (a loaded diarization is always truthy). */
  function DiarizationModelOf(d: Result<Option<Response>>): (r: Result<Value>)
    ensures d.Err? ==> r == Err(d.error)
    ensures d == Ok(None) ==> r == Ok(Null)
    ensures d.Ok? && d.value.Some? ==> r == Ok(d.value.value.diarizationModel)
  {
    var x :- d;
    if x.None? then Ok(Null) else Ok(x.value.diarizationModel)
  }

  /** `embedding_model`, likewise. */
  function EmbeddingModelOf(d: Result<Option<Response>>): (r: Result<Value>)
    ensures d.Err? ==> r == Err(d.error)
    ensures d == Ok(None) ==> r == Ok(Null)
    ensures d.Ok? && d.value.Some? ==> r == Ok(d.value.value.embeddingModel)
  {
    var x :- d;
    if x.None? then Ok(Null) else Ok(x.value.embeddingModel)
  }

  /** The `diarization_model` property: the getter runs once for the test
      and, when there is a diarization, once more for the field; the second
      run is served by the cache the first one filled, so the property is
      the model of the first reading and the caches are those of one read. */
  method DiarizationModel(item: BaseItem.Item, fs: Fs, codec: Codec) returns (r: Result<Value>)
    requires IsDiarization(item)
    modifies item.files
    ensures r == DiarizationModelOf(DiarizationOf(JsonRead(old(item.files.jsonCache), item.files.filesPath, fs, codec, DiarizationJson, true)))
    ensures (item.files.textCache, item.files.jsonCache) ==
      JsonLoadCaches(old(item.files.textCache), old(item.files.jsonCache), item.files.filesPath, fs, codec, DiarizationJson, true)
  {
    var first := GetDiarization(item, fs, codec);
    if first.Err? {
      return Err(first.error);
    }
    if first.value.None? {
      return Ok(Null);
    }
    var second := GetDiarization(item, fs, codec);
    r := DiarizationModelOf(second);
  }

  /** The `embedding_model` property, read the same way. */
  method EmbeddingModel(item: BaseItem.Item, fs: Fs, codec: Codec) returns (r: Result<Value>)
    requires IsDiarization(item)
    modifies item.files
    ensures r == EmbeddingModelOf(DiarizationOf(JsonRead(old(item.files.jsonCache), item.files.filesPath, fs, codec, DiarizationJson, true)))
    ensures (item.files.textCache, item.files.jsonCache) ==
      JsonLoadCaches(old(item.files.textCache), old(item.files.jsonCache), item.files.filesPath, fs, codec, DiarizationJson, true)
  {
    var first := GetDiarization(item, fs, codec);
    if first.Err? {
      return Err(first.error);
    }
    if first.value.None? {
      return Ok(Null);
    }
    var second := GetDiarization(item, fs, codec);
    r := EmbeddingModelOf(second);
  }

  /** After a successful set, both model properties read the models of
      the diarization that was set. */
  lemma {:induction false} ModelsAfterSet(cache: map<string, Value>, filesPath: Path, fs: Fs, codec: Codec, value: Response)
    requires SaveTextSpec(fs, filesPath, DiarizationJson, JsonText(codec, ResponseToJson(value))).1.None?
    ensures var d := DiarizationOf(JsonRead(JsonCacheAfterSave(cache, DiarizationJson, ResponseToJson(value), None), filesPath,
                                            SaveTextSpec(fs, filesPath, DiarizationJson, JsonText(codec, ResponseToJson(value))).0,
                                            codec, DiarizationJson, true));
      DiarizationModelOf(d) == Ok(value.diarizationModel) && EmbeddingModelOf(d) == Ok(value.embeddingModel)
  {
    SetThenGetDiarization(cache, filesPath, fs, codec, value);
  }

  /** `DiarizationItem.build_metadata(*, source, audio_id=None, **kwargs)`:
      TypeError without source; otherwise the base item's keys (flags,
      item_type "diarization") united with source and audio_id, an absent
      audio_id stored as None. Any other keyword is refused. */
  function BuildMetadata(kwargs: Object): (r: Result<Object>)
    ensures "source" !in kwargs ==> r.Err? && r.error.TypeError?
    ensures "source" in kwargs && (exists k :: k in kwargs && k != "flags" && k != "source" && k != "audio_id") ==>
      r.Err? && r.error.ValueError?
    ensures r.Ok? <==> ("source" in kwargs && (forall k :: k in kwargs ==> k == "flags" || k == "source" || k == "audio_id") &&
                        FlagsMixin.FlagsArgOk(kwargs))
    ensures r.Ok? ==>
      r.value == map["flags" := Set(FlagsMixin.FlagsArg(kwargs)), "item_type" := Str(DiarizationType),
                     "source" := kwargs["source"], "audio_id" := GetOr(kwargs, "audio_id", Null)]
  {
    if "source" !in kwargs then Err(TypeError("missing required keyword-only argument: 'source'"))
    else
      var rest := kwargs - {"source", "audio_id"};
      RestKeywords(kwargs);
      var base :- BaseItem.BuildMetadata(DiarizationType, rest);
      var extra := map["source" := kwargs["source"], "audio_id" := GetOr(kwargs, "audio_id", Null)];
      assert base + extra == base["source" := extra["source"]]["audio_id" := extra["audio_id"]];
      Ok(base + extra)
  }

  /** The keywords passed down the chain are those other than source and
      audio_id; the flags keyword among them is unchanged. */
  lemma {:induction false} RestKeywords(kwargs: Object)
    ensures var rest := kwargs - {"source", "audio_id"};
      && ((forall k :: k in rest ==> k == "flags") <==> (forall k :: k in kwargs ==> k == "flags" || k == "source" || k == "audio_id"))
      && FlagsMixin.FlagsArgOk(rest) == FlagsMixin.FlagsArgOk(kwargs)
      && (FlagsMixin.FlagsArgOk(rest) ==> FlagsMixin.FlagsArg(rest) == FlagsMixin.FlagsArg(kwargs))
  {
    var rest := kwargs - {"source", "audio_id"};
    assert forall k :: k in kwargs && k != "source" && k != "audio_id" ==> k in rest;
  }

  /** What reflection sees of `DiarizationItem` over the table of its base:
      the class constant's annotation and five annotated properties. */
  function Info(base: map<string, FilterableAttribute>): ClassInfo {
    ClassInfo([base], [("DIARIZATION_JSON", "ClassVar[str]")], [
      ("source", "str"), ("audio_id", "str | None"), ("diarization", "Diarization | None"),
      ("diarization_model", "str | None"), ("embedding_model", "str | None")])
  }

  /** Reflection declares the class constant and the five properties in order over the base table. */
  lemma {:induction false} Declared(base: map<string, FilterableAttribute>)
    ensures Declare(Declare(MergeBases([base]), Info(base).annotations), Info(base).properties) ==
      base["DIARIZATION_JSON" := FilterableAttribute("DIARIZATION_JSON", "ClassVar[str]")]["source" := FilterableAttribute("source", "str")]["audio_id" := FilterableAttribute("audio_id", "str | None")]["diarization" := FilterableAttribute("diarization", "Diarization | None")]["diarization_model" := FilterableAttribute("diarization_model", "str | None")]["embedding_model" := FilterableAttribute("embedding_model", "str | None")]
  {
    MergeOneBase(base);
    var p0 := ("DIARIZATION_JSON", "ClassVar[str]");
    var p1 := ("source", "str");
    var p2 := ("audio_id", "str | None");
    var p3 := ("diarization", "Diarization | None");
    var p4 := ("diarization_model", "str | None");
    var p5 := ("embedding_model", "str | None");
    DeclareSnoc(base, [], p0);
    assert Info(base).annotations == [] + [p0];
    DeclareSnoc(base["DIARIZATION_JSON" := FilterableAttribute("DIARIZATION_JSON", "ClassVar[str]")], [], p1);
    DeclareSnoc(base["DIARIZATION_JSON" := FilterableAttribute("DIARIZATION_JSON", "ClassVar[str]")], [] + [p1], p2);
    DeclareSnoc(base["DIARIZATION_JSON" := FilterableAttribute("DIARIZATION_JSON", "ClassVar[str]")], [] + [p1] + [p2], p3);
    DeclareSnoc(base["DIARIZATION_JSON" := FilterableAttribute("DIARIZATION_JSON", "ClassVar[str]")], [] + [p1] + [p2] + [p3], p4);
    DeclareSnoc(base["DIARIZATION_JSON" := FilterableAttribute("DIARIZATION_JSON", "ClassVar[str]")], [] + [p1] + [p2] + [p3] + [p4], p5);
    assert Info(base).properties == [] + [p1] + [p2] + [p3] + [p4] + [p5];
  }

  /** The class constant and the diarization itself have no operators and are dropped. */
  lemma {:induction false} Kept(base: map<string, FilterableAttribute>)
    requires forall k :: k in base ==> Operators(base[k].annotation) != {}
    ensures KeepFilterable(
      base["DIARIZATION_JSON" := FilterableAttribute("DIARIZATION_JSON", "ClassVar[str]")]["source" := FilterableAttribute("source", "str")]["audio_id" := FilterableAttribute("audio_id", "str | None")]["diarization" := FilterableAttribute("diarization", "Diarization | None")]["diarization_model" := FilterableAttribute("diarization_model", "str | None")]["embedding_model" := FilterableAttribute("embedding_model", "str | None")]) ==
      ((base - {"DIARIZATION_JSON"})["source" := FilterableAttribute("source", "str")]["audio_id" := FilterableAttribute("audio_id", "str | None")] - {"diarization"})["diarization_model" := FilterableAttribute("diarization_model", "str | None")]["embedding_model" := FilterableAttribute("embedding_model", "str | None")]
  {
    KeepFilterableAll(base);
    assert Operators("ClassVar[str]") == {} && Operators("Diarization | None") == {} && Operators("str") != {} && Operators("str | None") != {};
    KeepFilterableUpdate(base, "DIARIZATION_JSON", FilterableAttribute("DIARIZATION_JSON", "ClassVar[str]"));
    KeepFilterableUpdate(base["DIARIZATION_JSON" := FilterableAttribute("DIARIZATION_JSON", "ClassVar[str]")], "source", FilterableAttribute("source", "str"));
    KeepFilterableUpdate(base["DIARIZATION_JSON" := FilterableAttribute("DIARIZATION_JSON", "ClassVar[str]")]["source" := FilterableAttribute("source", "str")], "audio_id", FilterableAttribute("audio_id", "str | None"));
    KeepFilterableUpdate(base["DIARIZATION_JSON" := FilterableAttribute("DIARIZATION_JSON", "ClassVar[str]")]["source" := FilterableAttribute("source", "str")]["audio_id" := FilterableAttribute("audio_id", "str | None")], "diarization", FilterableAttribute("diarization", "Diarization | None"));
    KeepFilterableUpdate(base["DIARIZATION_JSON" := FilterableAttribute("DIARIZATION_JSON", "ClassVar[str]")]["source" := FilterableAttribute("source", "str")]["audio_id" := FilterableAttribute("audio_id", "str | None")]["diarization" := FilterableAttribute("diarization", "Diarization | None")], "diarization_model", FilterableAttribute("diarization_model", "str | None"));
    KeepFilterableUpdate(base["DIARIZATION_JSON" := FilterableAttribute("DIARIZATION_JSON", "ClassVar[str]")]["source" := FilterableAttribute("source", "str")]["audio_id" := FilterableAttribute("audio_id", "str | None")]["diarization" := FilterableAttribute("diarization", "Diarization | None")]["diarization_model" := FilterableAttribute("diarization_model", "str | None")], "embedding_model", FilterableAttribute("embedding_model", "str | None"));
  }

  /** `DiarizationItem._get_filterable_attributes()` over the table of its
      base: source, audio_id and the two model names are added with eq and
      ne; the class constant and the diarization are not filterable. */
  lemma {:induction false} AttributesTable(base: map<string, FilterableAttribute>)
    requires forall k :: k in base ==> Operators(base[k].annotation) != {}
    ensures AttributesSpec(Info(base)) ==
      ((base - {"DIARIZATION_JSON"})["source" := FilterableAttribute("source", "str")]["audio_id" := FilterableAttribute("audio_id", "str | None")] - {"diarization"})["diarization_model" := FilterableAttribute("diarization_model", "str | None")]["embedding_model" := FilterableAttribute("embedding_model", "str | None")]
  {
    Declared(base);
    Kept(base);
  }

  /** Reading attribute `name` of a diarization item whose metadata getter
      returned md and whose diarization getter returned d. */
  function Attribute(md: Result<Option<Object>>, d: Result<Option<Response>>, name: string): (r: Result<Value>)
    ensures name == "source" ==> r == Subscript(md, "source")
    ensures name == "audio_id" ==> r == GetKey(md, "audio_id")
    ensures name == "diarization_model" ==> r == DiarizationModelOf(d)
    ensures name == "embedding_model" ==> r == EmbeddingModelOf(d)
    ensures name == "item_type" ==> r == Ok(Str(DiarizationType))
  {
    if name == "source" then Subscript(md, "source")
    else if name == "audio_id" then GetKey(md, "audio_id")
    else if name == "diarization_model" then DiarizationModelOf(d)
    else if name == "embedding_model" then EmbeddingModelOf(d)
    else BaseItem.Attribute(DiarizationType, md, name)
  }
}
