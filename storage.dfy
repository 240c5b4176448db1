/** `Storage`: the root of the record store. Its directory holds the
    storage's own `metadata.json`, which carries the storage format
    "version", and one table directory per record model ("channel",
    "video") with one directory per record. Opening a storage creates a
    missing one and migrates an older format. Records are looked up through
    an identity map keyed by (model name, id). The storage's own metadata is
    read and written through the file helpers of `FilesMixin`, with
    `files_path` the storage directory. */
module Storage {
  import opened Wrappers
  import opened JsonValue
  import opened Disk
  import opened FilesMixin
  import MetadataMixin
  import opened MigrationSteps
  import Migration010
  import Record

  const MetadataJson := MetadataMixin.MetadataJson
  const MetadataMissing := "Storage metadata.json is missing!"
  const NotMigrated := "Storage was not migrated to current version!"
  const Unhashable := "unhashable version"

  /** `Storage.build_metadata(**kwargs)`: the keywords go down to
      `MetadataMixin`, which refuses any, and the result is exactly the
      current version. */
  function BuildMetadata(kwargs: Object, current: string): (r: Result<Object>)
    ensures r.Ok? <==> kwargs == map[]
    ensures r.Err? ==> r.error.ValueError?
    ensures r.Ok? ==> r.value == map["version" := Str(current)]
  {
    var base :- MetadataMixin.BuildMetadata(kwargs);
    Ok(base["version" := Str(current)])
  }

  /** The version after one pass of the inline steps: 0.1.0 becomes 0.2.0
      and then 0.3.0, 0.2.0 becomes 0.3.0, any other version stays. */
  function Pass(v: Value): Value {
    StepVersion("0.2.0", "0.3.0", StepVersion("0.1.0", "0.2.0", v))
  }

  /** The record conversion of the inline `migrate_0_1_0`, listing the
      tables in the given orders, ended in w. */
  ghost predicate WalkOf(codec: Codec, fs: Fs, path: Path, w: Migration010.Walked,
                         channels: seq<string>, videos: seq<string>, orders: seq<seq<string>>) {
    && |orders| == |videos|
    && w == Migration010.Converted(codec, fs, path, channels, videos, orders)
    && Migration010.ConvertedFits(codec, fs, path, channels, videos, orders)
  }

  /** What the inline `migrate_0_1_0` does to the file system when the
      storage metadata is md and its record conversion ends in w: at
      version 0.1.0 the records are converted, then the storage metadata is
      saved with version 0.2.0. */
  function Step010(codec: Codec, fs: Fs, path: Path, md: Object, w: Migration010.Walked): (Fs, Option<Error>) {
    if "version" !in md then (fs, Some(KeyError("version")))
    else if md["version"] != Str("0.1.0") then (fs, None)
    else
      if w.err.Some? then (w.fs, w.err)
      else SaveTextSpec(w.fs, path, MetadataJson, JsonText(codec, Dict(With(md, "version", Str("0.2.0")))))
  }

  /** What the inline `migrate_0_2_0` does: at version 0.2.0 the storage
      metadata is saved with version 0.3.0. */
  function Step020(codec: Codec, fs: Fs, path: Path, md: Object): (Fs, Option<Error>) {
    if "version" !in md then (fs, Some(KeyError("version")))
    else if md["version"] != Str("0.2.0") then (fs, None)
    else SaveTextSpec(fs, path, MetadataJson, JsonText(codec, Dict(With(md, "version", Str("0.3.0")))))
  }

  /** The storage metadata after the inline 0.1.0 step. */
  function After010(md: Object): Object
    requires "version" in md
  {
    if md["version"] == Str("0.1.0") then With(md, "version", Str("0.2.0")) else md
  }

  /** One pass of `migrate`'s loop over the file system: the two inline
      steps in turn, the second seeing what the first saved. */
  function Steps(codec: Codec, fs: Fs, path: Path, md: Object, w: Migration010.Walked): (Fs, Option<Error>)
    requires "version" in md
  {
    var s1 := Step010(codec, fs, path, md, w);
    if s1.1.Some? then s1
    else Step020(codec, s1.0, path, After010(md))
  }

  /** What `migrate` does to the file system and whether it raises, for the
      storage metadata md: KeyError without a version, TypeError for a
      version that cannot be put in a set, the inline steps, and ValueError
      when the version reached is not the current one. */
  function MigrateSpec(codec: Codec, fs: Fs, path: Path, md: Object, current: string, w: Migration010.Walked)
    : (Fs, Option<Error>)
  {
    if "version" !in md then (fs, Some(KeyError("version")))
    else if !Hashable(md["version"]) then (fs, Some(TypeError(Unhashable)))
    else
      var s := Steps(codec, fs, path, md, w);
      if s.1.Some? then s
      else if Pass(md["version"]) != Str(current) then (s.0, Some(ValueError(NotMigrated)))
      else s
  }

  /** The storage metadata `__init__` finds, with the file system it
      leaves: a missing storage directory is made with its parents and given
      the metadata of `build_metadata()`; an existing one must hold
      `metadata.json`. */
  function Opened(codec: Codec, fs: Fs, path: Path, current: string): (Fs, Result<Object>) {
    if path !in fs then
      match Mkdir(fs, path, true, false)
      case Err(e) => (fs, Err(e))
      case Ok(fs1) =>
        var md := map["version" := Str(current)];
        var s := SaveTextSpec(fs1, path, MetadataJson, JsonText(codec, Dict(md)));
        if s.1.Some? then (s.0, Err(s.1.value)) else (s.0, Ok(md))
    else
      match MetadataMixin.Proxy(JsonRead(map[], path, fs, codec, MetadataJson, true))
      case Err(e) => (fs, Err(e))
      case Ok(None) => (fs, Err(ValueError(MetadataMissing)))
      case Ok(Some(md)) => (fs, Ok(md))
  }

  /** What `exists()` returns for a record just made, its cache empty: the
      record directory exists and its `metadata.json` loads to a mapping. */
  function FreshExists(fs: Fs, codec: Codec, recordP: Path): (r: Result<bool>)
    ensures !IsDir(fs, recordP) ==> r == Ok(false)
    ensures IsDir(fs, recordP) ==>
      var m := MetadataMixin.Proxy(JsonRead(map[], recordP, fs, codec, MetadataJson, true));
      (r.Ok? <==> m.Ok?) && (r.Ok? ==> (r.value <==> m.value.Some?)) && (r.Err? ==> r.error == m.error)
  {
    if !IsDir(fs, recordP) then Ok(false)
    else
      var m :- MetadataMixin.Proxy(JsonRead(map[], recordP, fs, codec, MetadataJson, true));
      Ok(m.Some?)
  }

  /** A record directory whose `metadata.json` holds `null` is not a
      record: `get_record` finds nothing there. */
  lemma {:induction false} NullMetadataNotFound(fs: Fs, codec: Codec, recordP: Path)
    requires IsDir(fs, recordP) && IsFile(fs, recordP + [MetadataJson])
    requires codec.loads(fs[recordP + [MetadataJson]].text) == Some(Null)
    ensures FreshExists(fs, codec, recordP) == Ok(false)
  {
    MetadataMixin.NullDocumentIsNone(map[], recordP, fs, codec, MetadataJson);
  }

  /** `not record_filter or record_filter(record)`, the filter judging a
      record by its id. */
  predicate Passes(keep: Option<string -> bool>, id: string) {
    keep.None? || keep.value(id)
  }

  /** What `get_record` finds for (modelName, id) with this identity map:
      a cached record without looking at the disk, otherwise whether a new
      record exists. */
  function Lookup(cache: map<(string, string), Record.Record>, fs: Fs, codec: Codec, path: Path,
                  modelName: string, id: string): (r: Result<bool>)
    ensures (modelName, id) in cache ==> r == Ok(true)
    ensures (modelName, id) !in cache ==> r == FreshExists(fs, codec, path + [modelName, id])
  {
    if (modelName, id) in cache then Ok(true) else FreshExists(fs, codec, path + [modelName, id])
  }

  /** The ids `list_records` yields when the table of modelName lists
      `names` in this order and the identity map is `cache`: a record is
      yielded when `get_record` finds it and it passes the filter. A failing
      `exists()` stops the listing. */
  function Selected(fs: Fs, codec: Codec, path: Path, modelName: string, cache: map<(string, string), Record.Record>,
                    keep: Option<string -> bool>, names: seq<string>): (seq<string>, Option<Error>)
    decreases |names|
  {
    if names == [] then ([], None)
    else
      var prev := Selected(fs, codec, path, modelName, cache, keep, names[..|names| - 1]);
      var n := names[|names| - 1];
      if prev.1.Some? then prev
      else match Lookup(cache, fs, codec, path, modelName, n)
        case Err(e) => (prev.0, Some(e))
        case Ok(b) => (prev.0 + (if b && Passes(keep, n) then [n] else []), None)
  }

  /** A listing that went through yields exactly the listed records that
      pass the filter and are cached or exist. */
  lemma {:induction false} SelectedExactly(fs: Fs, codec: Codec, path: Path, modelName: string,
                                           cache: map<(string, string), Record.Record>,
                                           keep: Option<string -> bool>, names: seq<string>)
    requires Selected(fs, codec, path, modelName, cache, keep, names).1.None?
    ensures forall n :: n in Selected(fs, codec, path, modelName, cache, keep, names).0 <==>
      n in names && Passes(keep, n) &&
      ((modelName, n) in cache || FreshExists(fs, codec, path + [modelName, n]) == Ok(true))
    decreases |names|
  {
    if names != [] {
      var init := names[..|names| - 1];
      SelectedExactly(fs, codec, path, modelName, cache, keep, init);
      assert names == init + [names[|names| - 1]];
    }
  }

  lemma {:induction false} WithTwice(d: Object, key: string, a: Value, b: Value)
    ensures With(With(d, key, a), key, b) == With(d, key, b)
  {
    assert d[key := a][key := b] == d[key := b];
  }

  lemma {:induction false} WithSame(d: Object, key: string)
    requires key in d
    ensures With(d, key, d[key]) == d
  {
    assert d[key := d[key]] == d;
  }

  /** One more listed name: the listing stops at a failing `exists()`,
      and otherwise yields the name when its record is found and passes
      the filter. */
  lemma {:induction false} SelectedSnoc(fs: Fs, codec: Codec, path: Path, modelName: string, cache: map<(string, string), Record.Record>,
                     keep: Option<string -> bool>, names: seq<string>, n: string)
    requires Selected(fs, codec, path, modelName, cache, keep, names).1.None?
    ensures Selected(fs, codec, path, modelName, cache, keep, names + [n]) ==
      match Lookup(cache, fs, codec, path, modelName, n)
      case Err(e) => (Selected(fs, codec, path, modelName, cache, keep, names).0, Some(e))
      case Ok(b) => (Selected(fs, codec, path, modelName, cache, keep, names).0 + (if b && Passes(keep, n) then [n] else []), None)
  {
    assert (names + [n])[..|names|] == names;
  }

  /** The ids of some records, in order. */
  function Ids(records: seq<Record.Record>): (r: seq<string>)
    ensures |r| == |records|
    ensures forall j :: 0 <= j < |records| ==> r[j] == records[j].id
  {
    seq(|records|, j requires 0 <= j < |records| => records[j].id)
  }

  class Storage {
    const path: Path
    /** The storage's own file cache, working in the storage directory. */
    const files: Files
    /** `_record_cache`, the identity map of records. */
    var recordCache: map<(string, string), Record.Record>

    /** The first lines of `__init__`: an empty identity map and the path. */
    constructor (path: Path)
      ensures this.path == path && fresh(files) && files.filesPath == path
      ensures files.textCache == map[] && files.jsonCache == map[]
      ensures recordCache == map[]
    {
      this.path := path;
      files := new Files(path);
      recordCache := map[];
    }

    predicate Valid() {
      files.filesPath == path
    }

    /** Every record in the identity map is the record of its key. */
    predicate CacheValid()
      reads this
    {
      forall k :: k in recordCache ==>
        && recordCache[k].storagePath == path && recordCache[k].modelName == k.0 && recordCache[k].id == k.1
        && recordCache[k].Valid()
    }

    /** The storage metadata sits in the JSON cache, as a mapping. */
    predicate Loaded()
      reads files
    {
      MetadataJson in files.jsonCache && files.jsonCache[MetadataJson].Dict?
    }

    /** The cached storage metadata. */
    function Md(): Object
      reads files
      requires Loaded()
    {
      files.jsonCache[MetadataJson].fields
    }

    /** The rest of `__init__`: a missing storage is made and given fresh
        metadata, an existing one without `metadata.json` is refused, and
        then the storage is migrated. */
    method Init(fs: Fs, codec: Codec, current: string)
      returns (fs': Fs, err: Option<Error>, ghost w: Migration010.Walked,
               ghost channels: seq<string>, ghost videos: seq<string>, ghost orders: seq<seq<string>>)
      requires Valid() && files.textCache == map[] && files.jsonCache == map[]
      modifies files
      ensures var o := Opened(codec, fs, path, current);
        if o.1.Err? then fs' == o.0 && err == Some(o.1.error)
        else
          && (fs', err) == MigrateSpec(codec, o.0, path, o.1.value, current, w)
          && ("version" in o.1.value && o.1.value["version"] == Str("0.1.0") ==> WalkOf(codec, o.0, path, w, channels, videos, orders))
      ensures err.None? ==>
        Opened(codec, fs, path, current).1.Ok? && Loaded() && Md() == With(Opened(codec, fs, path, current).1.value, "version", Str(current))
    {
      w, channels, videos, orders := Migration010.Walked(fs, None, None), [], [], [];
      fs' := fs;
      if path !in fs {
        var made := Mkdir(fs, path, true, false);
        if made.Err? {
          return fs, Some(made.error), w, channels, videos, orders;
        }
        var md := BuildMetadata(map[], current);
        fs', err := MetadataMixin.SetMetadata(files, made.value, codec, Dict(md.value));
        if err.Some? {
          return fs', err, w, channels, videos, orders;
        }
      }
      var m := MetadataMixin.GetMetadata(files, fs', codec);
      if m.Err? {
        return fs', Some(m.error), w, channels, videos, orders;
      }
      if m.value.None? {
        return fs', Some(ValueError(MetadataMissing)), w, channels, videos, orders;
      }
      fs', err, w, channels, videos, orders := Migrate(fs', codec, current);
    }

    /** `self.metadata["version"]` once the storage metadata is cached. */
    method Version(fs: Fs, codec: Codec) returns (r: Result<Value>)
      requires Valid() && Loaded()
      modifies files
      ensures files.textCache == old(files.textCache) && files.jsonCache == old(files.jsonCache)
      ensures r == MetadataMixin.Subscript(Ok(Some(Md())), "version")
    {
      var m := MetadataMixin.GetMetadata(files, fs, codec);
      r := MetadataMixin.Subscript(m, "version");
    }

    /** The inline `migrate_0_1_0`: it converts the records as the 0.1.0
        step of the migrations package does, then saves the storage's own
        metadata with version 0.2.0. */
    method Migrate010(fs: Fs, codec: Codec)
      returns (fs': Fs, err: Option<Error>, ghost w: Migration010.Walked,
               ghost channels: seq<string>, ghost videos: seq<string>, ghost orders: seq<seq<string>>)
      requires Valid() && Loaded()
      modifies files
      ensures (fs', err) == Step010(codec, fs, path, old(Md()), w)
      ensures var md := old(Md());
        "version" in md && md["version"] == Str("0.1.0") ==> WalkOf(codec, fs, path, w, channels, videos, orders)
      ensures var md := old(Md());
        if "version" in md && md["version"] == Str("0.1.0") && w.err.None? then
          (files.textCache, files.jsonCache) ==
            JsonSaveCaches(old(files.textCache), old(files.jsonCache), codec, MetadataJson, Dict(With(md, "version", Str("0.2.0"))), err)
        else files.textCache == old(files.textCache) && files.jsonCache == old(files.jsonCache)
      ensures err.None? ==> Loaded() && "version" in old(Md()) && Md() == After010(old(Md()))
    {
      w, channels, videos, orders := Migration010.Walked(fs, None, None), [], [], [];
      var m := MetadataMixin.GetMetadata(files, fs, codec);
      var version := MetadataMixin.Subscript(m, "version");
      if version.Err? {
        return fs, Some(version.error), w, channels, videos, orders;
      }
      if version.value != Str("0.1.0") {
        return fs, None, w, channels, videos, orders;
      }
      var walked;
      walked, channels, videos, orders := Migration010.ConvertRecords(fs, codec, path);
      w := walked;
      if walked.err.Some? {
        return walked.fs, walked.err, w, channels, videos, orders;
      }
      m := MetadataMixin.GetMetadata(files, walked.fs, codec);
      fs', err := MetadataMixin.SetMetadata(files, walked.fs, codec, Dict(With(m.value.value, "version", Str("0.2.0"))));
    }

    /** The inline `migrate_0_2_0`: nothing on disk changes but the
        storage's own metadata, saved with version 0.3.0. */
    method Migrate020(fs: Fs, codec: Codec) returns (fs': Fs, err: Option<Error>)
      requires Valid() && Loaded()
      modifies files
      ensures (fs', err) == Step020(codec, fs, path, old(Md()))
      ensures var md := old(Md());
        if "version" in md && md["version"] == Str("0.2.0") then
          (files.textCache, files.jsonCache) ==
            JsonSaveCaches(old(files.textCache), old(files.jsonCache), codec, MetadataJson, Dict(With(md, "version", Str("0.3.0"))), err)
        else files.textCache == old(files.textCache) && files.jsonCache == old(files.jsonCache)
      ensures err.None? ==>
        && Loaded() && "version" in old(Md())
        && Md() == (if old(Md())["version"] == Str("0.2.0") then With(old(Md()), "version", Str("0.3.0")) else old(Md()))
    {
      var m := MetadataMixin.GetMetadata(files, fs, codec);
      var version := MetadataMixin.Subscript(m, "version");
      if version.Err? {
        return fs, Some(version.error);
      }
      if version.value != Str("0.2.0") {
        return fs, None;
      }
      fs', err := MetadataMixin.SetMetadata(files, fs, codec, Dict(With(m.value.value, "version", Str("0.3.0"))));
    }

    /** One pass of `migrate`'s loop: `migrate_0_1_0`, then
        `migrate_0_2_0` on what the first one left, then whether the
        version changed. */
    method OnePass(fs: Fs, codec: Codec, version: Value)
      returns (fs': Fs, err: Option<Error>, changed: bool, ghost w: Migration010.Walked,
               ghost channels: seq<string>, ghost videos: seq<string>, ghost orders: seq<seq<string>>)
      requires Valid() && Loaded() && "version" in Md() && Md()["version"] == version
      modifies files
      ensures (fs', err) == Steps(codec, fs, path, old(Md()), w)
      ensures old(Md())["version"] == Str("0.1.0") ==> WalkOf(codec, fs, path, w, channels, videos, orders)
      ensures err.None? ==> Loaded() && Md() == With(old(Md()), "version", Pass(old(Md())["version"]))
      ensures err.None? ==> (changed <==> Pass(old(Md())["version"]) != old(Md())["version"])
    {
      ghost var md := Md();
      changed := false;
      var e1;
      fs', e1, w, channels, videos, orders := Migrate010(fs, codec);
      if e1.Some? {
        return fs', e1, changed, w, channels, videos, orders;
      }
      fs', err := Migrate020(fs', codec);
      if err.Some? {
        return;
      }
      if md["version"] == Str("0.1.0") {
        WithTwice(md, "version", Str("0.2.0"), Str("0.3.0"));
      } else if md["version"] != Str("0.2.0") {
        WithSame(md, "version");
      }
      var after := Version(fs', codec);
      changed := after != Ok(version);
    }

    /** `migrate`: passes of the inline steps until a pass leaves the
        version as it found it, then the version must be the current one.
        Every pass starts from a version no earlier pass started from, so the
        "cyclic migration" ValueError is never raised: a pass that changes
        the version leaves 0.3.0, which the next pass keeps. On success the
        cached metadata is the storage's own with the current version. */
    method Migrate(fs: Fs, codec: Codec, current: string)
      returns (fs': Fs, err: Option<Error>, ghost w: Migration010.Walked,
               ghost channels: seq<string>, ghost videos: seq<string>, ghost orders: seq<seq<string>>)
      requires Valid() && Loaded()
      modifies files
      ensures (fs', err) == MigrateSpec(codec, fs, path, old(Md()), current, w)
      ensures var md := old(Md());
        "version" in md && md["version"] == Str("0.1.0") ==> WalkOf(codec, fs, path, w, channels, videos, orders)
      ensures err.None? ==> Loaded() && Md() == With(old(Md()), "version", Str(current))
    {
      w, channels, videos, orders := Migration010.Walked(fs, None, None), [], [], [];
      ghost var md0 := Md();
      var visited: set<Value> := {};
      fs' := fs;
      while true
        invariant Valid() && Loaded()
        invariant visited == {} ==> fs' == fs && Md() == md0
        invariant visited != {} ==>
          && "version" in md0 && Hashable(md0["version"]) && visited == {md0["version"]}
          && Pass(md0["version"]) != md0["version"]
          && (fs', None) == Steps(codec, fs, path, md0, w)
          && Md() == With(md0, "version", Pass(md0["version"]))
          && (md0["version"] == Str("0.1.0") ==> WalkOf(codec, fs, path, w, channels, videos, orders))
        decreases if visited == {} then 1 else 0
      {
        var version := Version(fs', codec);
        if version.Err? {
          return fs', Some(version.error), w, channels, videos, orders;
        }
        if !Hashable(version.value) {
          return fs', Some(TypeError(Unhashable)), w, channels, videos, orders;
        }
        assert version.value !in visited;
        ghost var first := visited == {};
        visited := visited + {version.value};
        var e, changed;
        ghost var w1, ch, vi, or;
        fs', e, changed, w1, ch, vi, or := OnePass(fs', codec, version.value);
        if first {
          w, channels, videos, orders := w1, ch, vi, or;
        } else if e.None? {
          WithTwice(md0, "version", Pass(md0["version"]), Pass(md0["version"]));
        }
        if e.Some? {
          return fs', e, w, channels, videos, orders;
        }
        if !changed {
          break;
        }
      }
      var version := Version(fs', codec);
      err := if version.value != Str(current) then Some(ValueError(NotMigrated)) else None;
    }

    /** `get_record`: a record in the identity map is returned as it is,
        without checking that it still exists; otherwise a new record is
        made, and it is cached and returned when it exists, None otherwise. */
    method GetRecord(fs: Fs, codec: Codec, modelName: string, id: string) returns (r: Result<Option<Record.Record>>)
      requires CacheValid()
      modifies this
      ensures CacheValid()
      ensures (modelName, id) in old(recordCache) ==>
        r == Ok(Some(old(recordCache)[(modelName, id)])) && recordCache == old(recordCache)
      ensures (modelName, id) !in old(recordCache) ==>
        var e := FreshExists(fs, codec, path + [modelName, id]);
        && (r.Ok? <==> e.Ok?) && (r.Err? ==> r.error == e.error)
        && (r.Ok? ==> (r.value.Some? <==> e.value))
        && (r.Ok? && r.value.Some? ==> fresh(r.value.value) && recordCache == old(recordCache)[(modelName, id) := r.value.value])
        && (!(r.Ok? && r.value.Some?) ==> recordCache == old(recordCache))
      ensures r.Ok? && r.value.Some? ==>
        (modelName, id) in recordCache && recordCache[(modelName, id)] == r.value.value
      ensures var l := Lookup(old(recordCache), fs, codec, path, modelName, id);
        (r.Err? ==> l == Err(r.error)) && (r.Ok? ==> l == Ok(r.value.Some?))
      ensures recordCache.Keys >= old(recordCache).Keys
      ensures forall k :: k in old(recordCache) ==> recordCache[k] == old(recordCache)[k]
      ensures forall k :: k in recordCache && k != (modelName, id) ==> k in old(recordCache)
    {
      var key := (modelName, id);
      if key in recordCache {
        return Ok(Some(recordCache[key]));
      }
      var record := new Record.Record(path, modelName, id);
      assert record.RecordPath() == path + [modelName, id];
      var e := record.Exists(fs, codec);
      if e.Err? {
        return Err(e.error);
      }
      if e.value {
        recordCache := recordCache[key := record];
        return Ok(Some(record));
      }
      r := Ok(None);
    }

    /** One round of `list_records`' loop: the record of name n is looked
        up and, when found and kept by the filter, appended. */
    method Visit(fs: Fs, codec: Codec, modelName: string, keep: Option<string -> bool>, n: string,
                 ghost cache0: map<(string, string), Record.Record>, ghost names: seq<string>, records: seq<Record.Record>)
      returns (records': seq<Record.Record>, err: Option<Error>)
      requires CacheValid()
      requires Selected(fs, codec, path, modelName, cache0, keep, names) == (Ids(records), None)
      requires (modelName, n) in recordCache <==> (modelName, n) in cache0
      requires forall j :: 0 <= j < |records| ==>
        (modelName, records[j].id) in recordCache && recordCache[(modelName, records[j].id)] == records[j]
      modifies this
      ensures CacheValid()
      ensures Selected(fs, codec, path, modelName, cache0, keep, names + [n]) == (Ids(records'), err)
      ensures forall j :: 0 <= j < |records'| ==>
        (modelName, records'[j].id) in recordCache && recordCache[(modelName, records'[j].id)] == records'[j]
      ensures forall m :: m != n ==> ((modelName, m) in recordCache <==> (modelName, m) in old(recordCache))
    {
      ghost var before := recordCache;
      var r := GetRecord(fs, codec, modelName, n);
      assert Lookup(cache0, fs, codec, path, modelName, n) == Lookup(before, fs, codec, path, modelName, n);
      SelectedSnoc(fs, codec, path, modelName, cache0, keep, names, n);
      if r.Err? {
        return records, Some(r.error);
      }
      err := None;
      if r.value.Some? && Passes(keep, n) {
        records' := records + [r.value.value];
        assert Ids(records') == Ids(records) + [n];
      } else {
        records' := records;
        assert Ids(records) + [] == Ids(records');
      }
    }

    /** The loop of `list_records` over the listed names all: the records
        found and kept, in order, up to the first failing `exists()`. */
    method SelectRecords(fs: Fs, codec: Codec, modelName: string, keep: Option<string -> bool>, all: seq<string>)
      returns (records: seq<Record.Record>, err: Option<Error>, ghost names: seq<string>)
      requires CacheValid()
      requires forall i, j :: 0 <= i < j < |all| ==> all[i] != all[j]
      modifies this
      ensures CacheValid()
      ensures err.None? ==> names == all
      ensures |names| <= |all| && names == all[..|names|]
      ensures Selected(fs, codec, path, modelName, old(recordCache), keep, names) == (Ids(records), err)
      ensures forall j :: 0 <= j < |records| ==>
        (modelName, records[j].id) in recordCache && recordCache[(modelName, records[j].id)] == records[j]
    {
      records, err, names := [], None, [];
      ghost var cache0 := recordCache;
      var i := 0;
      while i < |all|
        invariant 0 <= i <= |all| && err.None?
        invariant CacheValid()
        invariant Selected(fs, codec, path, modelName, cache0, keep, all[..i]) == (Ids(records), None)
        invariant forall j :: 0 <= j < |records| ==>
          (modelName, records[j].id) in recordCache && recordCache[(modelName, records[j].id)] == records[j]
        invariant forall j :: i <= j < |all| ==> ((modelName, all[j]) in recordCache <==> (modelName, all[j]) in cache0)
      {
        assert all[..i + 1] == all[..i] + [all[i]];
        ghost var before := recordCache;
        records, err := Visit(fs, codec, modelName, keep, all[i], cache0, all[..i], records);
        if err.Some? {
          return records, err, all[..i + 1];
        }
        forall j | i < j < |all|
          ensures (modelName, all[j]) in recordCache <==> (modelName, all[j]) in cache0
        {
          assert all[j] != all[i];
          assert (modelName, all[j]) in recordCache <==> (modelName, all[j]) in before;
        }
        i := i + 1;
      }
      assert all[..i] == all;
      names := all;
    }

    /** `list_records`: nothing for a missing table; otherwise the records
        the table lists, in the listing's order, that `get_record` finds and
        the filter keeps. Every record listed is the one in the identity
        map. */
    method ListRecords(fs: Fs, codec: Codec, modelName: string, keep: Option<string -> bool>)
      returns (records: seq<Record.Record>, err: Option<Error>, ghost names: seq<string>)
      requires CacheValid()
      modifies this
      ensures CacheValid()
      ensures path + [modelName] !in fs ==> records == [] && err.None? && recordCache == old(recordCache)
      ensures path + [modelName] in fs ==>
        match Scandir(fs, path + [modelName])
        case Err(e) => records == [] && err == Some(e) && recordCache == old(recordCache)
        case Ok(children) =>
          && Visited(names, children, err.None?)
          && Selected(fs, codec, path, modelName, old(recordCache), keep, names) == (Ids(records), err)
      ensures forall j :: 0 <= j < |records| ==>
        (modelName, records[j].id) in recordCache && recordCache[(modelName, records[j].id)] == records[j]
    {
      records, err, names := [], None, [];
      var tableP := path + [modelName];
      if tableP !in fs {
        return;
      }
      var listed := Scandir(fs, tableP);
      if listed.Err? {
        return [], Some(listed.error), [];
      }
      var all := Listing(listed.value);
      records, err, names := SelectRecords(fs, codec, modelName, keep, all);
    }
  }

  /** The storage metadata the inline 0.1.0 step saves is the storage's
      own with version 0.2.0, whatever records it converted: the step keeps
      the storage metadata apart from the record metadata it reads. */
  lemma {:induction false} StepKeepsStorageMetadata(codec: Codec, fs: Fs, path: Path, md: Object, w: Migration010.Walked)
    requires "version" in md && md["version"] == Str("0.1.0")
    requires Step010(codec, fs, path, md, w).1.None?
    ensures TextAt(Step010(codec, fs, path, md, w).0, path + [MetadataJson]) ==
      Some(codec.dumps(Dict(With(md, "version", Str("0.2.0")))))
  {
    SaveTextWrites(w.fs, path, MetadataJson, JsonText(codec, Dict(With(md, "version", Str("0.2.0")))));
  }

  /** A storage opens only at the version its pass of the inline steps
      reaches: never at 0.1.0 or 0.2.0, and from 0.1.0 or 0.2.0 only when
      the current version is 0.3.0. A version the steps do not know opens
      exactly when it is the current one and then nothing on disk changes. */
  lemma {:induction false} MigrateOutcome(codec: Codec, fs: Fs, path: Path, md: Object, current: string, w: Migration010.Walked)
    ensures MigrateSpec(codec, fs, path, md, current, w).1.None? ==>
      "version" in md && Pass(md["version"]) == Str(current) && current != "0.1.0" && current != "0.2.0"
    ensures "version" in md && md["version"] != Str("0.1.0") && md["version"] != Str("0.2.0") && Hashable(md["version"]) ==>
      MigrateSpec(codec, fs, path, md, current, w) ==
        (fs, if md["version"] == Str(current) then None else Some(ValueError(NotMigrated)))
  {
  }

  /** A storage made by `__init__` is written at the current version; it
      then opens without a step running exactly when the current version is
      neither 0.1.0 nor 0.2.0. */
  lemma {:induction false} NewStorageOpens(codec: Codec, fs: Fs, path: Path, current: string, w: Migration010.Walked)
    requires path !in fs
    requires Opened(codec, fs, path, current).1.Ok?
    requires current != "0.1.0" && current != "0.2.0"
    ensures Opened(codec, fs, path, current).1.value == map["version" := Str(current)]
    ensures TextAt(Opened(codec, fs, path, current).0, path + [MetadataJson]) == Some(codec.dumps(Dict(map["version" := Str(current)])))
    ensures MigrateSpec(codec, Opened(codec, fs, path, current).0, path, map["version" := Str(current)], current, w) ==
      (Opened(codec, fs, path, current).0, None)
  {
    var fs1 := Mkdir(fs, path, true, false).value;
    SaveTextWrites(fs1, path, MetadataJson, JsonText(codec, Dict(map["version" := Str(current)])));
  }
}
