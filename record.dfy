/** `Record`: a stored record of one model (a channel or a video) kept in
    the directory `<storage>/<model_name>/<id>/`. Channel and video records
    list the file mixins before `Record` among their bases, so their file
    helpers and their `metadata` are the mixins' ones, working in the
    record directory; `Record`'s own file helpers are shadowed there and are
    modelled separately (`OwnSaveText`, `OwnSaveJson`). */
module Record {
  import opened Wrappers
  import opened JsonValue
  import opened Disk
  import opened FilesMixin
  import MetadataMixin

  class Record {
    const storagePath: Path
    const modelName: string
    const id: string
    /** The record's file cache, working in `record_path`. */
    const files: Files

    constructor (storagePath: Path, modelName: string, id: string)
      ensures this.storagePath == storagePath && this.modelName == modelName && this.id == id
      ensures fresh(files) && files.filesPath == storagePath + [modelName, id]
      ensures files.textCache == map[] && files.jsonCache == map[]
    {
      this.storagePath := storagePath;
      this.modelName := modelName;
      this.id := id;
      files := new Files(storagePath + [modelName, id]);
    }

    /** `model_path`: the directory of all records of this model. */
    function ModelPath(): Path {
      storagePath + [modelName]
    }

    /** `record_path`. */
    function RecordPath(): Path {
      storagePath + [modelName, id]
    }

    /** The files of the record are those of its directory. */
    predicate Valid() {
      files.filesPath == RecordPath()
    }

    /** What the `metadata` getter returns right now. */
    function Metadata(fs: Fs, codec: Codec): Result<Option<Object>>
      reads files
    {
      MetadataMixin.Proxy(JsonRead(files.jsonCache, files.filesPath, fs, codec, MetadataMixin.MetadataJson, true))
    }

    /** `exists()`: the record directory exists and its metadata loads to
        something other than None; the metadata is read only when the
        directory exists, and an unreadable one raises. */
    method Exists(fs: Fs, codec: Codec) returns (r: Result<bool>)
      requires Valid()
      modifies files
      ensures var m := old(Metadata(fs, codec));
        (r == Ok(true) <==> IsDir(fs, RecordPath()) && m.Ok? && m.value.Some?) &&
        (r == Ok(false) <==> !IsDir(fs, RecordPath()) || m == Ok(None)) &&
        (r.Err? ==> IsDir(fs, RecordPath()) && m.Err? && r.error == m.error)
      ensures (files.textCache, files.jsonCache) == MetadataMixin.LoadedIfDir(old(files.textCache), old(files.jsonCache), fs, RecordPath(), codec)
    {
      if !IsDir(fs, RecordPath()) {
        return Ok(false);
      }
      var m := MetadataMixin.GetMetadata(files, fs, codec);
      if m.Err? {
        return Err(m.error);
      }
      r := Ok(m.value.Some?);
    }

    /** `create(**kwargs)`: ValueError("Already exists") for an existing
        record; otherwise the model directory and the record directory are
        made (without parents, an existing one is fine) and the keyword
        arguments are saved as `metadata.json`. */
    method Create(fs: Fs, codec: Codec, kwargs: Object) returns (fs': Fs, err: Option<Error>)
      requires Valid()
      modifies files
      ensures var m := old(Metadata(fs, codec));
        var loaded := MetadataMixin.LoadedIfDir(old(files.textCache), old(files.jsonCache), fs, RecordPath(), codec);
        if IsDir(fs, RecordPath()) && !(m.Ok? && m.value.None?) then
          fs' == fs && err.Some? && (files.textCache, files.jsonCache) == loaded &&
          (m.Err? ==> err.value == m.error) && (m.Ok? ==> err.value == ValueError("Already exists"))
        else
          (fs', err) == CreateSpec(fs, ModelPath(), RecordPath(), codec, kwargs) &&
          (files.textCache, files.jsonCache) ==
            (if MadeDirs(fs, ModelPath(), RecordPath()).Ok?
             then JsonSaveCaches(loaded.0, loaded.1, codec, MetadataMixin.MetadataJson, Dict(kwargs), err)
             else loaded)
    {
      var e := Exists(fs, codec);
      if e.Err? {
        return fs, Some(e.error);
      }
      if e.value {
        return fs, Some(ValueError("Already exists"));
      }
      var m1 := Mkdir(fs, ModelPath(), false, true);
      if m1.Err? {
        return fs, Some(m1.error);
      }
      var m2 := Mkdir(m1.value, RecordPath(), false, true);
      if m2.Err? {
        return m1.value, Some(m2.error);
      }
      fs', err := files.SaveJson(m2.value, codec, MetadataMixin.MetadataJson, Dict(kwargs));
    }

    /** `Record.save_text_file` (shadowed in channel and video records):
        ValueError when the record directory does not exist, which is
        never made here. */
    method OwnSaveText(fs: Fs, name: string, value: Value) returns (fs': Fs, err: Option<Error>)
      modifies files
      ensures (fs', err) == OwnSaveTextSpec(fs, RecordPath(), name, value)
      ensures files.textCache == TextCacheAfterSave(old(files.textCache), name, value, err)
      ensures files.jsonCache == old(files.jsonCache)
    {
      files.textCache := files.textCache - {name};
      if RecordPath() !in fs {
        return fs, Some(ValueError("Record directory does not exist! Virtual record?"));
      }
      var path := RecordPath() + [name];
      if value.Null? {
        var u := Unlink(fs, path, true);
        if u.Err? {
          return fs, Some(u.error);
        }
        fs' := u.value;
      } else if value.Str? {
        var w := WriteText(fs, path, value.s);
        if w.Err? {
          return fs, Some(w.error);
        }
        fs' := w.value;
      } else {
        return fs, Some(TypeError("not a str"));
      }
      err := None;
      if !value.Null? {
        files.textCache := files.textCache[name := value.s];
      }
    }

    /** `Record.save_json_file` (shadowed in channel and video records):
        only a dict, a list or None is accepted (TypeError otherwise), and
        the text is the standard `json.dumps`. */
    method OwnSaveJson(fs: Fs, codec: Codec, name: string, value: Value) returns (fs': Fs, err: Option<Error>)
      modifies files
      ensures var t := OwnJsonText(codec, value);
        if t.Err? then
          fs' == fs && err == Some(t.error) && files.textCache == old(files.textCache) && files.jsonCache == old(files.jsonCache) - {name}
        else
          (fs', err) == OwnSaveTextSpec(fs, RecordPath(), name, t.value) &&
          files.textCache == TextCacheAfterSave(old(files.textCache), name, t.value, err) &&
          files.jsonCache == JsonCacheAfterSave(old(files.jsonCache), name, value, err)
    {
      var before := files.jsonCache;
      files.jsonCache := files.jsonCache - {name};
      var t := OwnJsonText(codec, value);
      if t.Err? {
        return fs, Some(t.error);
      }
      fs', err := OwnSaveText(fs, name, t.value);
      files.jsonCache := JsonCacheAfterSave(before, name, value, err);
    }
  }

  /** The two `mkdir(exist_ok=True)` calls of `create`. */
  function MadeDirs(fs: Fs, modelPath: Path, recordPath: Path): (r: Result<Fs>)
    ensures r.Ok? ==> IsDir(r.value, modelPath) && IsDir(r.value, recordPath)
  {
    var m1 :- Mkdir(fs, modelPath, false, true);
    var m2 :- Mkdir(m1, recordPath, false, true);
    assert IsDir(m2, modelPath);
    Ok(m2)
  }

  /** The file system and outcome of `create` on a record that does not
      exist: a failing `mkdir` keeps what was made before it. */
  function CreateSpec(fs: Fs, modelPath: Path, recordPath: Path, codec: Codec, kwargs: Object): (Fs, Option<Error>) {
    var m1 := Mkdir(fs, modelPath, false, true);
    if m1.Err? then (fs, Some(m1.error))
    else
      var m2 := Mkdir(m1.value, recordPath, false, true);
      if m2.Err? then (m1.value, Some(m2.error))
      else SaveTextSpec(m2.value, recordPath, MetadataMixin.MetadataJson, JsonText(codec, Dict(kwargs)))
  }

  /** A record whose `metadata.json` holds `null` does not exist: the
      metadata read for `exists()` is None. */
  lemma {:induction false} NullMetadataMeansAbsent(rec: Record, fs: Fs, codec: Codec)
    requires rec.Valid() && MetadataMixin.MetadataJson !in rec.files.jsonCache
    requires IsFile(fs, rec.RecordPath() + [MetadataMixin.MetadataJson])
    requires codec.loads(fs[rec.RecordPath() + [MetadataMixin.MetadataJson]].text) == Some(Null)
    ensures rec.Metadata(fs, codec) == Ok(None)
  {
    MetadataMixin.NullDocumentIsNone(rec.files.jsonCache, rec.files.filesPath, fs, codec, MetadataMixin.MetadataJson);
  }

  /** After a successful `create`, the record exists: its directory is
      there and its metadata, read through the updated cache, is the
      keyword arguments; read afresh it is their `json_dumps` text. */
  lemma {:induction false} CreatedExists(fs: Fs, modelPath: Path, recordPath: Path, codec: Codec, kwargs: Object, cache: map<string, Value>)
    requires CreateSpec(fs, modelPath, recordPath, codec, kwargs).1.None?
    ensures var fs' := CreateSpec(fs, modelPath, recordPath, codec, kwargs).0;
      IsDir(fs', recordPath) &&
      MetadataMixin.Proxy(JsonRead(JsonCacheAfterSave(cache, MetadataMixin.MetadataJson, Dict(kwargs), None), recordPath, fs', codec, MetadataMixin.MetadataJson, true))
        == Ok(Some(kwargs)) &&
      TextAt(fs', recordPath + [MetadataMixin.MetadataJson]) == Some(codec.dumps(Dict(kwargs)))
  {
    var m2 := MadeDirs(fs, modelPath, recordPath).value;
    SaveTextWrites(m2, recordPath, MetadataMixin.MetadataJson, JsonText(codec, Dict(kwargs)));
    var fs' := CreateSpec(fs, modelPath, recordPath, codec, kwargs).0;
    assert fs' == SaveTextSpec(m2, recordPath, MetadataMixin.MetadataJson, JsonText(codec, Dict(kwargs))).0;
    assert IsDir(fs', recordPath) by {
      var m := Mkdir(m2, recordPath, true, true);
      assert m == Ok(m2);
    }
    MetadataMixin.SetThenGet(cache, recordPath, m2, codec, kwargs);
  }

  /** What `Record.save_json_file` hands to `save_text_file`: None stays
      None, a dict or list becomes its `json.dumps` text (which refuses
      sets), anything else raises TypeError. */
  function OwnJsonText(codec: Codec, value: Value): (r: Result<Value>)
    ensures r.Ok? <==> value.Null? || ((value.Dict? || value.List?) && !HasSet(value))
    ensures r.Ok? && value.Null? ==> r.value == Null
    ensures r.Ok? && !value.Null? ==> r.value == Str(codec.stdDumps(value))
    ensures r.Err? ==> r.error.TypeError?
  {
    if value.Null? then Ok(Null)
    else if value.Dict? || value.List? then
      var t :- StdDumps(codec, value);
      Ok(Str(t))
    else Err(TypeError("not a dict or list"))
  }

  /** The file system and outcome of `Record.save_text_file`. */
  function OwnSaveTextSpec(fs: Fs, recordPath: Path, name: string, value: Value): (r: (Fs, Option<Error>))
    ensures recordPath !in fs ==> r == (fs, Some(ValueError("Record directory does not exist! Virtual record?")))
  {
    if recordPath !in fs then (fs, Some(ValueError("Record directory does not exist! Virtual record?")))
    else if value.Null? then
      var u := Unlink(fs, recordPath + [name], true);
      if u.Ok? then (u.value, None) else (fs, Some(u.error))
    else if value.Str? then
      var w := WriteText(fs, recordPath + [name], value.s);
      if w.Ok? then (w.value, None) else (fs, Some(w.error))
    else (fs, Some(TypeError("not a str")))
  }

  /** In an existing record directory `Record.save_text_file` does what the
      mixin's `save_text_file` does there; they differ only for a missing
      directory, which the mixin creates and `Record` refuses. */
  lemma {:induction false} OwnSaveTextAgrees(fs: Fs, recordPath: Path, name: string, value: Value)
    requires IsDir(fs, recordPath)
    ensures OwnSaveTextSpec(fs, recordPath, name, value) == SaveTextSpec(fs, recordPath, name, value)
  {
    assert Mkdir(fs, recordPath, true, true) == Ok(fs);
  }

  /** For a missing record directory the two differ: `Record` raises
      ValueError and writes nothing. */
  lemma {:induction false} OwnSaveTextRefusesMissingDir(fs: Fs, recordPath: Path, name: string, s: string)
    requires recordPath !in fs
    ensures OwnSaveTextSpec(fs, recordPath, name, Str(s)).0 == fs
    ensures OwnSaveTextSpec(fs, recordPath, name, Str(s)).1 == Some(ValueError("Record directory does not exist! Virtual record?"))
  {
  }
}
