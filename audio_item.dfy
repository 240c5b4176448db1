/** `AudioItem`: a content item holding one audio file, named in its
    metadata under "audio_file". */
module AudioItem {
  import opened Wrappers
  import opened JsonValue
  import opened Disk
  import MetadataMixin
  import FlagsMixin
  import opened FilterableMixin
  import BaseItem

  const AudioType: string := "audio"

  /** `AudioItem.build_metadata(*, audio_file=None, **kwargs)`: ValueError
      when audio_file is absent or None; otherwise the base item's keys
      (flags, item_type "audio") plus audio_file. Any other keyword,
      `source` included, is left over and refused. */
  function BuildMetadata(kwargs: Object): (r: Result<Object>)
    ensures GetOr(kwargs, "audio_file", Null).Null? ==> r.Err? && r.error.ValueError?
    ensures (exists k :: k in kwargs && k != "flags" && k != "audio_file") ==> r.Err? && r.error.ValueError?
    ensures r.Ok? <==>
      !GetOr(kwargs, "audio_file", Null).Null? && (forall k :: k in kwargs ==> k == "flags" || k == "audio_file") &&
      FlagsMixin.FlagsArgOk(kwargs)
    ensures r.Ok? ==> r.value == map["flags" := Set(FlagsMixin.FlagsArg(kwargs)), "item_type" := Str(AudioType),
                                     "audio_file" := kwargs["audio_file"]]
  {
    var audioFile := GetOr(kwargs, "audio_file", Null);
    if audioFile.Null? then Err(ValueError("audio_file"))
    else
      var rest := kwargs - {"audio_file"};
      assert forall k :: k in kwargs && k != "audio_file" ==> k in rest;
      assert FlagsMixin.FlagsArgOk(rest) == FlagsMixin.FlagsArgOk(kwargs);
      var base :- BaseItem.BuildMetadata(AudioType, rest);
      Ok(base["audio_file" := audioFile])
  }

  /** `audio_path`: the item directory joined with audio_file, which must
      be a string. */
  function AudioPath(filesPath: Path, md: Result<Option<Object>>): (r: Result<Path>)
    ensures r.Ok? <==> MetadataMixin.Subscript(md, "audio_file").Ok? && MetadataMixin.Subscript(md, "audio_file").value.Str?
    ensures r.Ok? ==> r.value == filesPath + [MetadataMixin.Subscript(md, "audio_file").value.s]
  {
    var audioFile :- MetadataMixin.Subscript(md, "audio_file");
    if audioFile.Str? then Ok(filesPath + [audioFile.s]) else Err(TypeError("unsupported operand type(s) for /"))
  }

  /** `audio_checksum`: `get_checksum` (the parameter checksum) over the
      bytes of the audio file; OSError when it cannot be read. */
  function AudioChecksum(checksum: string -> string, fs: Fs, filesPath: Path, md: Result<Option<Object>>): (r: Result<Value>)
    ensures r.Ok? <==> AudioPath(filesPath, md).Ok? && IsFile(fs, AudioPath(filesPath, md).value)
    ensures r.Ok? ==> r.value == Str(checksum(fs[AudioPath(filesPath, md).value].text))
    ensures AudioPath(filesPath, md).Ok? && r.Err? ==> r.error.OSError?
  {
    var path :- AudioPath(filesPath, md);
    var bytes :- ReadText(fs, path);
    Ok(Str(checksum(bytes)))
  }

  /** Two audio items whose audio files hold the same bytes have the same
      checksum, wherever they are. */
  lemma {:induction false} SameBytesSameChecksum(checksum: string -> string, fs: Fs, p: Path, md: Result<Option<Object>>,
                              fs': Fs, p': Path, md': Result<Option<Object>>)
    requires AudioPath(p, md).Ok? && AudioPath(p', md').Ok?
    requires IsFile(fs, AudioPath(p, md).value) && IsFile(fs', AudioPath(p', md').value)
    requires fs[AudioPath(p, md).value].text == fs'[AudioPath(p', md').value].text
    ensures AudioChecksum(checksum, fs, p, md) == AudioChecksum(checksum, fs', p', md')
    ensures AudioChecksum(checksum, fs, p, md).Ok?
  {
  }

  /** What reflection sees of `AudioItem` over the table of its base: no
      annotation of its own and three annotated properties. */
  function Info(base: map<string, FilterableAttribute>): ClassInfo {
    ClassInfo([base], [], [("audio_file", "str"), ("audio_path", "pathlib.Path"), ("audio_checksum", "str")])
  }

  /** `AudioItem._get_filterable_attributes()` over the table of its base:
      audio_file is added, audio_path is declared and dropped (a path has no
      operators, so an inherited audio_path would go too), audio_checksum is
      added. */
  lemma {:induction false} AttributesTable(base: map<string, FilterableAttribute>)
    requires forall k :: k in base ==> Operators(base[k].annotation) != {}
    ensures AttributesSpec(Info(base)) ==
      (base["audio_file" := FilterableAttribute("audio_file", "str")] - {"audio_path"})
        ["audio_checksum" := FilterableAttribute("audio_checksum", "str")]
  {
    var p0, p1, p2 := ("audio_file", "str"), ("audio_path", "pathlib.Path"), ("audio_checksum", "str");
    MergeOneBase(base);
    DeclareSnoc(base, [], p0);
    DeclareSnoc(base, [p0], p1);
    DeclareSnoc(base, [p0, p1], p2);
    assert [] + [p0] == [p0] && [p0] + [p1] == [p0, p1] && [p0, p1] + [p2] == Info(base).properties;
    var a0, a1, a2 := FilterableAttribute(p0.0, p0.1), FilterableAttribute(p1.0, p1.1), FilterableAttribute(p2.0, p2.1);
    assert Operators(p0.1) != {} && Operators(p1.1) == {};
    KeepFilterableAll(base);
    KeepFilterableUpdate(base, p0.0, a0);
    KeepFilterableUpdate(base[p0.0 := a0], p1.0, a1);
    KeepFilterableUpdate(base[p0.0 := a0][p1.0 := a1], p2.0, a2);
  }

  /** Reading attribute `name` of an audio item in directory filesPath. */
  function Attribute(checksum: string -> string, fs: Fs, filesPath: Path, md: Result<Option<Object>>, name: string): (r: Result<Value>)
    ensures name == "audio_file" ==> r == MetadataMixin.Subscript(md, "audio_file")
    ensures name == "audio_checksum" ==> r == AudioChecksum(checksum, fs, filesPath, md)
    ensures name == "item_type" ==> r == Ok(Str(AudioType))
  {
    if name == "audio_file" then MetadataMixin.Subscript(md, "audio_file")
    else if name == "audio_checksum" then AudioChecksum(checksum, fs, filesPath, md)
    else BaseItem.Attribute(AudioType, md, name)
  }
}
