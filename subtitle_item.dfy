/** `SubtitleItem`: a content item holding one subtitle file, with its
    source, its main language and every language it contains, and optional
    references to the audio, diarization and Whisper model it was made
    from. */
module SubtitleItem {
  import opened Wrappers
  import opened JsonValue
  import opened Disk
  import opened Text
  import opened MetadataMixin
  import FlagsMixin
  import opened FilterableMixin
  import BaseItem

  const SubtitleType: string := "subtitle"

  /** The main-language value of a subtitle holding several languages. */
  const MultiLang: string := "multi"

  /** The keyword-only arguments `SubtitleItem.build_metadata` consumes. */
  predicate Own(k: string) {
    k == "source" || k == "lang" || k == "langs" || k == "subtitle_file" ||
    k == "audio_id" || k == "diarization_id" || k == "whisper_model"
  }

  /** The four required ones are all given. */
  predicate HasRequired(kwargs: Object) {
    "source" in kwargs && "lang" in kwargs && "langs" in kwargs && "subtitle_file" in kwargs
  }

  /** The keywords left for the layers below. */
  function Rest(kwargs: Object): (r: Object)
    ensures forall k :: k in r <==> k in kwargs && !Own(k)
    ensures forall k :: k in r ==> r[k] == kwargs[k]
  {
    map k | k in kwargs && !Own(k) :: kwargs[k]
  }

  /** The seven keys this layer writes. */
  function OwnValues(kwargs: Object): Object
    requires HasRequired(kwargs)
  {
    map["source" := kwargs["source"], "lang" := kwargs["lang"], "langs" := kwargs["langs"],
        "subtitle_file" := kwargs["subtitle_file"], "audio_id" := GetOr(kwargs, "audio_id", Null),
        "diarization_id" := GetOr(kwargs, "diarization_id", Null), "whisper_model" := GetOr(kwargs, "whisper_model", Null)]
  }

  /** `SubtitleItem.build_metadata(*, source, lang, langs, subtitle_file,
      audio_id=None, diarization_id=None, whisper_model=None, **kwargs)`:
      TypeError when a required keyword is missing; otherwise the base
      item's keys (flags, item_type "subtitle") united with all seven keys,
      the absent references stored as None. Any other keyword is refused. */
  function BuildMetadata(kwargs: Object): (r: Result<Object>)
    ensures !HasRequired(kwargs) ==> r.Err? && r.error.TypeError?
    ensures HasRequired(kwargs) && (exists k :: k in kwargs && k != "flags" && !Own(k)) ==> r.Err? && r.error.ValueError?
    ensures r.Ok? <==> HasRequired(kwargs) && (forall k :: k in kwargs ==> k == "flags" || Own(k)) && FlagsMixin.FlagsArgOk(kwargs)
    ensures r.Ok? ==>
      r.value == map["flags" := Set(FlagsMixin.FlagsArg(kwargs)), "item_type" := Str(SubtitleType)] + OwnValues(kwargs)
  {
    if !HasRequired(kwargs) then Err(TypeError("missing a required keyword-only argument"))
    else
      var rest := Rest(kwargs);
      assert FlagsMixin.FlagsArgOk(rest) == FlagsMixin.FlagsArgOk(kwargs);
      var base :- BaseItem.BuildMetadata(SubtitleType, rest);
      Ok(base + OwnValues(kwargs))
  }

  /** `source`, `lang` and `subtitle_file`: read from the metadata. */
  function Source(md: Result<Option<Object>>): Result<Value> {
    Subscript(md, "source")
  }

  /** `lang`: the main language, possibly `MultiLang`. */
  function Lang(md: Result<Option<Object>>): Result<Value> {
    Subscript(md, "lang")
  }

  /** `langs`: the frozenset of the stored languages. */
  function Langs(md: Result<Option<Object>>): (r: Result<set<Value>>)
    ensures r.Ok? <==> Subscript(md, "langs").Ok? && ToSet(Subscript(md, "langs").value).Ok?
    ensures r.Ok? ==> r == ToSet(Subscript(md, "langs").value)
  {
    var v :- Subscript(md, "langs");
    ToSet(v)
  }

  /** What a subtitle item's metadata reads back as, right after
      `build_metadata` made it: each required keyword as given, each
      absent reference as None, and langs as the set of the given ones. */
  lemma {:induction false} AccessorsReadBack(kwargs: Object)
    requires BuildMetadata(kwargs).Ok?
    ensures var md := Ok(Some(BuildMetadata(kwargs).value));
      Source(md) == Ok(kwargs["source"]) && Lang(md) == Ok(kwargs["lang"]) &&
      Subscript(md, "subtitle_file") == Ok(kwargs["subtitle_file"]) &&
      Langs(md) == ToSet(kwargs["langs"]) &&
      GetKey(md, "audio_id") == Ok(GetOr(kwargs, "audio_id", Null)) &&
      GetKey(md, "diarization_id") == Ok(GetOr(kwargs, "diarization_id", Null)) &&
      GetKey(md, "whisper_model") == Ok(GetOr(kwargs, "whisper_model", Null))
  {
    var own := OwnValues(kwargs);
    var m := BuildMetadata(kwargs).value;
    assert m == map["flags" := Set(FlagsMixin.FlagsArg(kwargs)), "item_type" := Str(SubtitleType)] + own;
    assert m["source"] == kwargs["source"] && m["lang"] == kwargs["lang"] && m["langs"] == kwargs["langs"];
    assert m["subtitle_file"] == kwargs["subtitle_file"] && m["audio_id"] == own["audio_id"];
    assert m["diarization_id"] == own["diarization_id"] && m["whisper_model"] == own["whisper_model"];
  }

  /** Which parser `load_transcription` hands the file text to: the SRT
      parser with the item's main language, or the JSON model validator.
      The parsers themselves are not part of this model. */
  datatype Parse = SrtParse(content: string, lang: Value) | JsonParse(content: string)

  /** `subtitle_path`: the item directory joined with subtitle_file. */
  function SubtitlePath(filesPath: Path, md: Result<Option<Object>>): (r: Result<Path>)
    ensures r.Ok? <==> Subscript(md, "subtitle_file").Ok? && Subscript(md, "subtitle_file").value.Str?
    ensures r.Ok? ==> r.value == filesPath + [Subscript(md, "subtitle_file").value.s]
  {
    var f :- Subscript(md, "subtitle_file");
    if f.Str? then Ok(filesPath + [f.s]) else Err(TypeError("unsupported operand type(s) for /"))
  }

  /** The subtitle file exists: its name is a string and the file is there. */
  predicate Readable(fs: Fs, filesPath: Path, md: Result<Option<Object>>) {
    SubtitlePath(filesPath, md).Ok? && IsFile(fs, SubtitlePath(filesPath, md).value)
  }

  /** The name of a readable subtitle file. */
  function FileName(fs: Fs, filesPath: Path, md: Result<Option<Object>>): string
    requires Readable(fs, filesPath, md)
  {
    Subscript(md, "subtitle_file").value.s
  }

  /** `load_transcription`: the file is read first (OSError when it cannot
      be), then a ".srt" name goes to the SRT parser with `lang`, a ".json"
      name to the JSON validator, and any other name raises ValueError. */
  function LoadTranscription(fs: Fs, filesPath: Path, md: Result<Option<Object>>): (r: Result<Parse>)
    ensures SubtitlePath(filesPath, md).Ok? && !Readable(fs, filesPath, md) ==> r.Err? && r.error.OSError?
    ensures r.Ok? <==> (Readable(fs, filesPath, md) &&
      ((EndsWith(FileName(fs, filesPath, md), ".srt") && Lang(md).Ok?) ||
       (!EndsWith(FileName(fs, filesPath, md), ".srt") && EndsWith(FileName(fs, filesPath, md), ".json"))))
    ensures r.Ok? && EndsWith(FileName(fs, filesPath, md), ".srt") ==>
      r.value == SrtParse(fs[SubtitlePath(filesPath, md).value].text, Lang(md).value)
    ensures r.Ok? && !EndsWith(FileName(fs, filesPath, md), ".srt") ==>
      r.value == JsonParse(fs[SubtitlePath(filesPath, md).value].text)
    ensures (Readable(fs, filesPath, md) && !EndsWith(FileName(fs, filesPath, md), ".srt") &&
             !EndsWith(FileName(fs, filesPath, md), ".json")) ==> r.Err? && r.error.ValueError?
  {
    var path :- SubtitlePath(filesPath, md);
    var content :- ReadText(fs, path);
    var name := Subscript(md, "subtitle_file").value.s;
    if EndsWith(name, ".srt") then
      var lang :- Lang(md);
      Ok(SrtParse(content, lang))
    else if EndsWith(name, ".json") then Ok(JsonParse(content))
    else Err(ValueError("File is not compatible"))
  }

  /** What reflection sees of `SubtitleItem` over the table of its base:
      eight annotated properties. */
  function Info(base: map<string, FilterableAttribute>): ClassInfo {
    ClassInfo([base], [], [
      ("source", "str"), ("lang", "str"), ("langs", "frozenset[str]"), ("subtitle_file", "str"),
      ("subtitle_path", "pathlib.Path"), ("audio_id", "str | None"), ("diarization_id", "str | None"),
      ("whisper_model", "str | None")])
  }

  /** Reflection declares the eight properties in order over the base table. */
  lemma {:induction false} Declared(base: map<string, FilterableAttribute>)
    ensures Declare(Declare(MergeBases([base]), Info(base).annotations), Info(base).properties) ==
      base["source" := FilterableAttribute("source", "str")]["lang" := FilterableAttribute("lang", "str")]["langs" := FilterableAttribute("langs", "frozenset[str]")]["subtitle_file" := FilterableAttribute("subtitle_file", "str")]["subtitle_path" := FilterableAttribute("subtitle_path", "pathlib.Path")]["audio_id" := FilterableAttribute("audio_id", "str | None")]["diarization_id" := FilterableAttribute("diarization_id", "str | None")]["whisper_model" := FilterableAttribute("whisper_model", "str | None")]
  {
    MergeOneBase(base);
    var p0 := ("source", "str");
    var p1 := ("lang", "str");
    var p2 := ("langs", "frozenset[str]");
    var p3 := ("subtitle_file", "str");
    var p4 := ("subtitle_path", "pathlib.Path");
    var p5 := ("audio_id", "str | None");
    var p6 := ("diarization_id", "str | None");
    var p7 := ("whisper_model", "str | None");
    assert Info(base).annotations == [];
    DeclareSnoc(base, [], p0);
    DeclareSnoc(base, [] + [p0], p1);
    DeclareSnoc(base, [] + [p0] + [p1], p2);
    DeclareSnoc(base, [] + [p0] + [p1] + [p2], p3);
    DeclareSnoc(base, [] + [p0] + [p1] + [p2] + [p3], p4);
    DeclareSnoc(base, [] + [p0] + [p1] + [p2] + [p3] + [p4], p5);
    DeclareSnoc(base, [] + [p0] + [p1] + [p2] + [p3] + [p4] + [p5], p6);
    DeclareSnoc(base, [] + [p0] + [p1] + [p2] + [p3] + [p4] + [p5] + [p6], p7);
    assert Info(base).properties == [] + [p0] + [p1] + [p2] + [p3] + [p4] + [p5] + [p6] + [p7];
  }

  /** Of those, only the path has no operators and is dropped. */
  lemma {:induction false} Kept(base: map<string, FilterableAttribute>)
    requires forall k :: k in base ==> Operators(base[k].annotation) != {}
    ensures KeepFilterable(
      base["source" := FilterableAttribute("source", "str")]["lang" := FilterableAttribute("lang", "str")]["langs" := FilterableAttribute("langs", "frozenset[str]")]["subtitle_file" := FilterableAttribute("subtitle_file", "str")]["subtitle_path" := FilterableAttribute("subtitle_path", "pathlib.Path")]["audio_id" := FilterableAttribute("audio_id", "str | None")]["diarization_id" := FilterableAttribute("diarization_id", "str | None")]["whisper_model" := FilterableAttribute("whisper_model", "str | None")]) ==
      (base["source" := FilterableAttribute("source", "str")]["lang" := FilterableAttribute("lang", "str")]["langs" := FilterableAttribute("langs", "frozenset[str]")]["subtitle_file" := FilterableAttribute("subtitle_file", "str")] - {"subtitle_path"})["audio_id" := FilterableAttribute("audio_id", "str | None")]["diarization_id" := FilterableAttribute("diarization_id", "str | None")]["whisper_model" := FilterableAttribute("whisper_model", "str | None")]
  {
    KeepFilterableAll(base);
    assert Operators("frozenset[str]") != {} && Operators("pathlib.Path") == {} && Operators("str") != {} && Operators("str | None") != {};
    KeepFilterableUpdate(base, "source", FilterableAttribute("source", "str"));
    KeepFilterableUpdate(base["source" := FilterableAttribute("source", "str")], "lang", FilterableAttribute("lang", "str"));
    KeepFilterableUpdate(base["source" := FilterableAttribute("source", "str")]["lang" := FilterableAttribute("lang", "str")], "langs", FilterableAttribute("langs", "frozenset[str]"));
    KeepFilterableUpdate(base["source" := FilterableAttribute("source", "str")]["lang" := FilterableAttribute("lang", "str")]["langs" := FilterableAttribute("langs", "frozenset[str]")], "subtitle_file", FilterableAttribute("subtitle_file", "str"));
    KeepFilterableUpdate(base["source" := FilterableAttribute("source", "str")]["lang" := FilterableAttribute("lang", "str")]["langs" := FilterableAttribute("langs", "frozenset[str]")]["subtitle_file" := FilterableAttribute("subtitle_file", "str")], "subtitle_path", FilterableAttribute("subtitle_path", "pathlib.Path"));
    KeepFilterableUpdate(base["source" := FilterableAttribute("source", "str")]["lang" := FilterableAttribute("lang", "str")]["langs" := FilterableAttribute("langs", "frozenset[str]")]["subtitle_file" := FilterableAttribute("subtitle_file", "str")]["subtitle_path" := FilterableAttribute("subtitle_path", "pathlib.Path")], "audio_id", FilterableAttribute("audio_id", "str | None"));
    KeepFilterableUpdate(base["source" := FilterableAttribute("source", "str")]["lang" := FilterableAttribute("lang", "str")]["langs" := FilterableAttribute("langs", "frozenset[str]")]["subtitle_file" := FilterableAttribute("subtitle_file", "str")]["subtitle_path" := FilterableAttribute("subtitle_path", "pathlib.Path")]["audio_id" := FilterableAttribute("audio_id", "str | None")], "diarization_id", FilterableAttribute("diarization_id", "str | None"));
    KeepFilterableUpdate(base["source" := FilterableAttribute("source", "str")]["lang" := FilterableAttribute("lang", "str")]["langs" := FilterableAttribute("langs", "frozenset[str]")]["subtitle_file" := FilterableAttribute("subtitle_file", "str")]["subtitle_path" := FilterableAttribute("subtitle_path", "pathlib.Path")]["audio_id" := FilterableAttribute("audio_id", "str | None")]["diarization_id" := FilterableAttribute("diarization_id", "str | None")], "whisper_model", FilterableAttribute("whisper_model", "str | None"));
  }

  /** `SubtitleItem._get_filterable_attributes()` over the table of its
      base: every property but the path is added, langs with the
      collection operators and the others with eq and ne. */
  lemma {:induction false} AttributesTable(base: map<string, FilterableAttribute>)
    requires forall k :: k in base ==> Operators(base[k].annotation) != {}
    ensures AttributesSpec(Info(base)) ==
      (base["source" := FilterableAttribute("source", "str")]["lang" := FilterableAttribute("lang", "str")]["langs" := FilterableAttribute("langs", "frozenset[str]")]["subtitle_file" := FilterableAttribute("subtitle_file", "str")] - {"subtitle_path"})["audio_id" := FilterableAttribute("audio_id", "str | None")]["diarization_id" := FilterableAttribute("diarization_id", "str | None")]["whisper_model" := FilterableAttribute("whisper_model", "str | None")]
  {
    Declared(base);
    Kept(base);
  }

  /** Reading attribute `name` of a subtitle item. */
  function Attribute(md: Result<Option<Object>>, name: string): (r: Result<Value>)
    ensures Own(name) && name != "langs" && name != "audio_id" && name != "diarization_id" && name != "whisper_model" ==>
      r == Subscript(md, name)
    ensures name == "langs" ==> (r.Ok? <==> Langs(md).Ok?) && (r.Ok? ==> r.value == Set(Langs(md).value))
    ensures name == "audio_id" || name == "diarization_id" || name == "whisper_model" ==> r == GetKey(md, name)
    ensures name == "item_type" ==> r == Ok(Str(SubtitleType))
  {
    if name == "source" || name == "lang" || name == "subtitle_file" then Subscript(md, name)
    else if name == "langs" then
      var langs :- Langs(md);
      Ok(Set(langs))
    else if name == "audio_id" || name == "diarization_id" || name == "whisper_model" then GetKey(md, name)
    else BaseItem.Attribute(SubtitleType, md, name)
  }
}
