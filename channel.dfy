/** `ChannelRecord`: a record of model "channel", holding flags and the
    Holodex and YouTube information of a channel. Its url properties are
    functions of what the info getters return; `from_holodex` makes or
    refreshes the record of a channel the Holodex API reported. */
module Channel {
  import opened Wrappers
  import opened JsonValue
  import opened Disk
  import opened FilesMixin
  import MetadataMixin
  import FlagsMixin
  import HolodexMixin
  import Record
  import Storage

  const ModelName := "channel"
  const YoutubeChannelUrl := "https://www.youtube.com/channel/"
  const HolodexChannelUrl := "https://holodex.net/channel/"
  /** What Python raises for `record.create(metadata)`: `create` takes
      keyword arguments only. */
  const PositionalCreate := "create() takes 1 positional argument but 2 were given"

  /** A url property: the prefix followed by `str(id)` when the id is
      truthy, None when it is not; a failing read of the id raises. */
  function Url(codec: Codec, prefix: string, id: Result<Value>): (r: Result<Option<string>>)
    ensures r.Ok? <==> id.Ok?
    ensures id.Err? ==> r == Err(id.error)
    ensures r.Ok? ==> (r.value.Some? <==> Truthy(id.value))
    ensures r.Ok? && r.value.Some? ==>
      && |prefix| <= |r.value.value|
      && r.value.value[..|prefix|] == prefix
      && r.value.value[|prefix|..] == PyStr(codec, id.value)
  {
    var v :- id;
    if Truthy(v) then Ok(Some(prefix + PyStr(codec, v))) else Ok(None)
  }

  /** `youtube_url`, from what the Holodex and YouTube info getters return. */
  function YoutubeUrl(codec: Codec, holodex: Result<Option<Object>>, youtube: Result<Option<Object>>): Result<Option<string>> {
    Url(codec, YoutubeChannelUrl, HolodexMixin.YoutubeId(holodex, youtube))
  }

  /** `holodex_url`, from what the Holodex and YouTube info getters return. */
  function HolodexUrl(codec: Codec, holodex: Result<Option<Object>>, youtube: Result<Option<Object>>): Result<Option<string>> {
    Url(codec, HolodexChannelUrl, HolodexMixin.HolodexId(holodex, youtube))
  }

  /** A channel known only to Holodex, under a non-empty id, has both urls,
      each ending in that id; a channel without any info has neither. */
  lemma {:induction false} UrlsFromInfo(codec: Codec, h: Object, s: string)
    requires h != map[] && "id" in h && h["id"] == Str(s) && s != []
    ensures YoutubeUrl(codec, Ok(Some(h)), Ok(None)) == Ok(Some(YoutubeChannelUrl + s))
    ensures HolodexUrl(codec, Ok(Some(h)), Ok(None)) == Ok(Some(HolodexChannelUrl + s))
    ensures YoutubeUrl(codec, Ok(None), Ok(None)) == Ok(None)
    ensures HolodexUrl(codec, Ok(None), Ok(None)) == Ok(None)
  {
    HolodexMixin.IdsFromOneInfo(Some(h), None);
    HolodexMixin.IdsFromOneInfo(None, None);
  }

  /** `default_metadata or {}`. */
  function OrEmpty(defaults: Option<Object>): Object {
    if defaults.Some? then defaults.value else map[]
  }

  /** What reading `holodex_info` of a record whose directory is recordP
      returns while its `holodex.json` is not cached. */
  function StoredInfo(fs: Fs, codec: Codec, recordP: Path): Result<Option<Object>> {
    MetadataMixin.Proxy(JsonRead(map[], recordP, fs, codec, HolodexMixin.HolodexJson, true))
  }

  /** The `elif` branch of `from_holodex` for a record that exists: the
      info is saved when asked to, or when the stored info is missing or
      empty. */
  function Refresh(fs: Fs, codec: Codec, recordP: Path, info: Value, update: bool): (r: (Fs, Option<Error>))
    ensures !update && StoredInfo(fs, codec, recordP).Ok? && HolodexMixin.Filled(StoredInfo(fs, codec, recordP).value) ==>
      r == (fs, None)
    ensures !update && StoredInfo(fs, codec, recordP).Err? ==> r == (fs, Some(StoredInfo(fs, codec, recordP).error))
    ensures (update || (StoredInfo(fs, codec, recordP).Ok? && !HolodexMixin.Filled(StoredInfo(fs, codec, recordP).value))) ==>
      r == SaveTextSpec(fs, recordP, HolodexMixin.HolodexJson, JsonText(codec, info))
  {
    if update then SaveTextSpec(fs, recordP, HolodexMixin.HolodexJson, JsonText(codec, info))
    else match StoredInfo(fs, codec, recordP)
      case Err(e) => (fs, Some(e))
      case Ok(h) =>
        if HolodexMixin.Filled(h) then (fs, None)
        else SaveTextSpec(fs, recordP, HolodexMixin.HolodexJson, JsonText(codec, info))
  }

  /** What `from_holodex` does to the file system, as written: a record
      not yet stored is never created, since `create` is handed its metadata
      positionally. */
  function FromHolodexSpec(fs: Fs, codec: Codec, storagePath: Path, id: string, info: Value,
                           defaults: Option<Object>, update: bool): (Fs, Option<Error>)
  {
    var recordP := storagePath + [ModelName, id];
    match Storage.FreshExists(fs, codec, recordP)
    case Err(e) => (fs, Some(e))
    case Ok(true) => Refresh(fs, codec, recordP, info, update)
    case Ok(false) =>
      match FlagsMixin.BuildMetadata(OrEmpty(defaults))
      case Err(e) => (fs, Some(e))
      case Ok(_) => (fs, Some(TypeError(PositionalCreate)))
  }

  /** `create(**metadata)` followed by the `holodex_info` setter, for a
      record that does not exist. */
  function Created(fs: Fs, codec: Codec, modelP: Path, recordP: Path, md: Object, info: Value): (Fs, Option<Error>) {
    var c := Record.CreateSpec(fs, modelP, recordP, codec, md);
    if c.1.Some? then c else SaveTextSpec(c.0, recordP, HolodexMixin.HolodexJson, JsonText(codec, info))
  }

  /** What `from_holodex` does to the file system with the metadata passed
      to `create` as keyword arguments. */
  function FromHolodexFixedSpec(fs: Fs, codec: Codec, storagePath: Path, id: string, info: Value,
                                defaults: Option<Object>, update: bool): (Fs, Option<Error>)
  {
    var recordP := storagePath + [ModelName, id];
    match Storage.FreshExists(fs, codec, recordP)
    case Err(e) => (fs, Some(e))
    case Ok(true) => Refresh(fs, codec, recordP, info, update)
    case Ok(false) =>
      match FlagsMixin.BuildMetadata(OrEmpty(defaults))
      case Err(e) => (fs, Some(e))
      case Ok(md) => Created(fs, codec, storagePath + [ModelName], recordP, md, info)
  }

  /** As written, a channel that is not stored yet makes `from_holodex`
      raise TypeError once its metadata is built, and nothing is written. */
  lemma {:induction false} NewChannelNeverStored(fs: Fs, codec: Codec, storagePath: Path, id: string, info: Value, defaults: Option<Object>, update: bool)
    requires !IsDir(fs, storagePath + [ModelName, id])
    requires FlagsMixin.BuildMetadata(OrEmpty(defaults)).Ok?
    ensures FromHolodexSpec(fs, codec, storagePath, id, info, defaults, update) == (fs, Some(TypeError(PositionalCreate)))
  {
  }

  /** Saving a file in a directory keeps the directory. */
  lemma {:induction false} SaveKeepsDir(fs: Fs, dir: Path, name: string, value: Value)
    requires IsDir(fs, dir)
    requires SaveTextSpec(fs, dir, name, value).1.None?
    ensures IsDir(SaveTextSpec(fs, dir, name, value).0, dir)
  {
    assert Mkdir(fs, dir, true, true) == Ok(fs);
  }

  /** After `create(**md)` and the `holodex_info` setter went through, the
      record's directory exists, `metadata.json` holds the dumped metadata
      and `holodex.json` the dumped info. */
  lemma {:induction false} CreatedStored(fs: Fs, codec: Codec, modelP: Path, recordP: Path, md: Object, info: Value)
    requires Created(fs, codec, modelP, recordP, md, info).1.None?
    requires !info.Null?
    ensures var fs' := Created(fs, codec, modelP, recordP, md, info).0;
      && IsDir(fs', recordP)
      && TextAt(fs', recordP + [MetadataMixin.MetadataJson]) == Some(codec.dumps(Dict(md)))
      && TextAt(fs', recordP + [HolodexMixin.HolodexJson]) == Some(codec.dumps(info))
  {
    var c := Record.CreateSpec(fs, modelP, recordP, codec, md);
    Record.CreatedExists(fs, modelP, recordP, codec, md, map[]);
    SaveTextWrites(c.0, recordP, HolodexMixin.HolodexJson, JsonText(codec, info));
    SaveKeepsDir(c.0, recordP, HolodexMixin.HolodexJson, JsonText(codec, info));
    assert recordP + [MetadataMixin.MetadataJson] != recordP + [HolodexMixin.HolodexJson] by {
      assert (recordP + [MetadataMixin.MetadataJson])[|recordP|] != (recordP + [HolodexMixin.HolodexJson])[|recordP|];
    }
  }

  /** With `create` called as intended, a channel that was not stored is
      afterwards: its directory exists, `metadata.json` holds the dumped
      metadata built from the defaults and `holodex.json` the dumped info. */
  lemma {:induction false} NewChannelStored(fs: Fs, codec: Codec, storagePath: Path, id: string, info: Value,
                         defaults: Option<Object>, update: bool, md: Object)
    requires Storage.FreshExists(fs, codec, storagePath + [ModelName, id]) == Ok(false)
    requires FlagsMixin.BuildMetadata(OrEmpty(defaults)) == Ok(md)
    requires FromHolodexFixedSpec(fs, codec, storagePath, id, info, defaults, update).1.None?
    requires !info.Null?
    ensures var fs' := FromHolodexFixedSpec(fs, codec, storagePath, id, info, defaults, update).0;
      var recordP := storagePath + [ModelName, id];
      && IsDir(fs', recordP)
      && TextAt(fs', recordP + [MetadataMixin.MetadataJson]) == Some(codec.dumps(Dict(md)))
      && TextAt(fs', recordP + [HolodexMixin.HolodexJson]) == Some(codec.dumps(info))
  {
    CreatedStored(fs, codec, storagePath + [ModelName], storagePath + [ModelName, id], md, info);
  }

  /** Path q is there in fs' exactly as in fs. */
  ghost predicate Keeps(fs: Fs, fs': Fs, q: Path) {
    (q in fs' <==> q in fs) && (q in fs ==> fs'[q] == fs[q])
  }

  /** Saving a file touches only that file and the directories on its way. */
  lemma {:induction false} SaveKeeps(fs: Fs, dir: Path, name: string, value: Value, q: Path)
    requires !(q <= dir) && q != dir + [name]
    ensures Keeps(fs, SaveTextSpec(fs, dir, name, value).0, q)
  {
  }

  /** Creating a record and saving its info touches only the record's
      files and the directories on their way. */
  lemma {:induction false} CreatedKeeps(fs: Fs, codec: Codec, modelP: Path, recordP: Path, md: Object, info: Value, q: Path)
    requires !(q <= modelP) && !(q <= recordP)
    requires q != recordP + [MetadataMixin.MetadataJson] && q != recordP + [HolodexMixin.HolodexJson]
    ensures Keeps(fs, Created(fs, codec, modelP, recordP, md, info).0, q)
  {
    var m1 := Mkdir(fs, modelP, false, true);
    if m1.Ok? {
      var m2 := Mkdir(m1.value, recordP, false, true);
      if m2.Ok? {
        SaveKeeps(m2.value, recordP, MetadataMixin.MetadataJson, Dict(md), q);
        SaveKeeps(m2.value, recordP, MetadataMixin.MetadataJson, JsonText(codec, Dict(md)), q);
        var c := Record.CreateSpec(fs, modelP, recordP, codec, md);
        SaveKeeps(c.0, recordP, HolodexMixin.HolodexJson, JsonText(codec, info), q);
      }
    }
  }

  /** A path that leaves a table at the table's own depth is neither a
      prefix of nor equal to any path inside the table. */
  lemma {:induction false} Outside(q: Path, p: Path, table: Path)
    requires |table| <= |q| && |table| <= |p|
    requires p[..|table|] == table && q[..|table|] != table
    ensures !(q <= p) && q != p
  {
  }

  /** Refreshing a record's info touches only its `holodex.json` and the
      directories on its way. */
  lemma {:induction false} RefreshKeeps(fs: Fs, codec: Codec, recordP: Path, info: Value, update: bool, q: Path)
    requires !(q <= recordP) && q != recordP + [HolodexMixin.HolodexJson]
    ensures Keeps(fs, Refresh(fs, codec, recordP, info, update).0, q)
  {
    SaveKeeps(fs, recordP, HolodexMixin.HolodexJson, JsonText(codec, info), q);
  }

  /** Whatever `from_holodex` does to a channel stays under the storage's
      channel table: any path of at least that depth outside it is kept. */
  lemma {:induction false} FixedSpecKeeps(fs: Fs, codec: Codec, storagePath: Path, id: string, info: Value,
                       defaults: Option<Object>, update: bool, q: Path)
    requires |q| > |storagePath| && q[..|storagePath| + 1] != storagePath + [ModelName]
    ensures Keeps(fs, FromHolodexFixedSpec(fs, codec, storagePath, id, info, defaults, update).0, q)
  {
    var modelP := storagePath + [ModelName];
    var recordP := storagePath + [ModelName, id];
    var holodexP := recordP + [HolodexMixin.HolodexJson];
    var metaP := recordP + [MetadataMixin.MetadataJson];
    assert recordP[..|modelP|] == modelP && holodexP[..|modelP|] == modelP && metaP[..|modelP|] == modelP;
    Outside(q, modelP, modelP);
    Outside(q, recordP, modelP);
    Outside(q, holodexP, modelP);
    Outside(q, metaP, modelP);
    match Storage.FreshExists(fs, codec, recordP) {
      case Err(_) =>
      case Ok(true) => RefreshKeeps(fs, codec, recordP, info, update, q);
      case Ok(false) =>
        match FlagsMixin.BuildMetadata(OrEmpty(defaults)) {
          case Err(_) =>
          case Ok(md) => CreatedKeeps(fs, codec, modelP, recordP, md, info, q);
        }
    }
  }

  /** `from_holodex` as written: `from_holodex_id` makes a new record
      object, which is created when it does not exist (raising TypeError,
      see FromHolodexSpec) and otherwise has its Holodex info refreshed. */
  method FromHolodex(fs: Fs, codec: Codec, storagePath: Path, id: string, info: Value,
                     defaults: Option<Object>, update: bool)
    returns (fs': Fs, r: Result<Record.Record>)
    ensures r.Ok? ==> fresh(r.value) && r.value.Valid()
    ensures r.Ok? ==> r.value.storagePath == storagePath && r.value.modelName == ModelName && r.value.id == id
    ensures (fs', if r.Err? then Some(r.error) else None) == FromHolodexSpec(fs, codec, storagePath, id, info, defaults, update)
  {
    var record := new Record.Record(storagePath, ModelName, id);
    assert record.RecordPath() == storagePath + [ModelName, id];
    fs' := fs;
    var e := ExistsFresh(record, fs, codec);
    if e.Err? {
      return fs, Err(e.error);
    }
    if !e.value {
      var md := FlagsMixin.BuildMetadata(OrEmpty(defaults));
      if md.Err? {
        return fs, Err(md.error);
      }
      return fs, Err(TypeError(PositionalCreate));
    }
    var err;
    fs', err := RefreshInfo(record, fs, codec, info, update);
    r := if err.Some? then Err(err.value) else Ok(record);
  }

  /** `record.exists()` on a record object just made: its cache is empty,
      so the answer is the one read from the disk, and afterwards the cache
      holds at most the metadata. */
  method ExistsFresh(record: Record.Record, fs: Fs, codec: Codec) returns (e: Result<bool>)
    requires record.Valid() && record.files.jsonCache == map[]
    modifies record.files
    ensures e == Storage.FreshExists(fs, codec, record.RecordPath())
    ensures forall n :: n in record.files.jsonCache ==> n == MetadataMixin.MetadataJson
    ensures e == Ok(false) ==> !IsDir(fs, record.RecordPath()) || record.Metadata(fs, codec) == Ok(None)
  {
    ghost var m := record.Metadata(fs, codec);
    assert m == MetadataMixin.Proxy(JsonRead(map[], record.RecordPath(), fs, codec, MetadataMixin.MetadataJson, true));
    e := record.Exists(fs, codec);
    if e.Ok? && e.value {
      assert e == Ok(true);
    } else if e.Ok? {
      assert e == Ok(false);
    }
  }

  /** `from_holodex` with `create(**metadata)`. */
  method FromHolodexFixed(fs: Fs, codec: Codec, storagePath: Path, id: string, info: Value,
                          defaults: Option<Object>, update: bool)
    returns (fs': Fs, r: Result<Record.Record>)
    ensures r.Ok? ==> fresh(r.value) && r.value.Valid()
    ensures r.Ok? ==> r.value.storagePath == storagePath && r.value.modelName == ModelName && r.value.id == id
    ensures (fs', if r.Err? then Some(r.error) else None) == FromHolodexFixedSpec(fs, codec, storagePath, id, info, defaults, update)
  {
    var record := new Record.Record(storagePath, ModelName, id);
    assert record.RecordPath() == storagePath + [ModelName, id];
    fs' := fs;
    var e := ExistsFresh(record, fs, codec);
    if e.Err? {
      return fs, Err(e.error);
    }
    var err;
    if !e.value {
      var md := FlagsMixin.BuildMetadata(OrEmpty(defaults));
      if md.Err? {
        return fs, Err(md.error);
      }
      fs', err := CreateNew(record, fs, codec, md.value, info);
    } else {
      fs', err := RefreshInfo(record, fs, codec, info, update);
    }
    r := if err.Some? then Err(err.value) else Ok(record);
  }

  /** `record.create(**metadata)` and the `holodex_info` setter on a record
      found not to exist. */
  method CreateNew(record: Record.Record, fs: Fs, codec: Codec, md: Object, info: Value) returns (fs': Fs, err: Option<Error>)
    requires record.Valid()
    requires !IsDir(fs, record.RecordPath()) || record.Metadata(fs, codec) == Ok(None)
    modifies record.files
    ensures (fs', err) == Created(fs, codec, record.ModelPath(), record.RecordPath(), md, info)
  {
    fs', err := record.Create(fs, codec, md);
    if err.Some? {
      return;
    }
    fs', err := HolodexMixin.SetHolodexInfo(record.files, fs', codec, info);
  }

  /** The `elif` branch on a record found to exist: its cache holds at most
      its metadata, so `holodex_info` is read from the disk. */
  method RefreshInfo(record: Record.Record, fs: Fs, codec: Codec, info: Value, update: bool) returns (fs': Fs, err: Option<Error>)
    requires record.Valid()
    requires forall n :: n in record.files.jsonCache ==> n == MetadataMixin.MetadataJson
    modifies record.files
    ensures (fs', err) == Refresh(fs, codec, record.RecordPath(), info, update)
  {
    if !update {
      var h := HolodexMixin.GetHolodexInfo(record.files, fs, codec);
      if h.Err? {
        return fs, Some(h.error);
      }
      if HolodexMixin.Filled(h.value) {
        return fs, None;
      }
    }
    fs', err := HolodexMixin.SetHolodexInfo(record.files, fs, codec, info);
  }

  /** `channel_id` of a video record, as its metadata reads now. */
  function ChannelIdOf(v: Record.Record, fs: Fs, codec: Codec): Result<Value>
    reads v.files
  {
    MetadataMixin.Subscript(v.Metadata(fs, codec), "channel_id")
  }

  /** The videos of channel id among the listed videos, in order; reading a
      video's `channel_id` can raise, which stops the listing. */
  function OwnVideos(id: string, fs: Fs, codec: Codec, videos: seq<Record.Record>): (seq<Record.Record>, Option<Error>)
    reads set v | v in videos :: v.files
    decreases |videos|
  {
    if videos == [] then ([], None)
    else
      var prev := OwnVideos(id, fs, codec, videos[..|videos| - 1]);
      var v := videos[|videos| - 1];
      if prev.1.Some? then prev
      else match ChannelIdOf(v, fs, codec)
        case Err(e) => (prev.0, Some(e))
        case Ok(c) => (prev.0 + (if c == Str(id) then [v] else []), None)
  }

  /** A listing of a channel's videos that went through holds exactly the
      listed videos whose `channel_id` is the channel's id. */
  lemma {:induction false} OwnVideosExactly(id: string, fs: Fs, codec: Codec, videos: seq<Record.Record>)
    requires OwnVideos(id, fs, codec, videos).1.None?
    ensures forall v :: v in OwnVideos(id, fs, codec, videos).0 <==> v in videos && ChannelIdOf(v, fs, codec) == Ok(Str(id))
    decreases |videos|
  {
    if videos != [] {
      var init := videos[..|videos| - 1];
      OwnVideosExactly(id, fs, codec, init);
      assert videos == init + [videos[|videos| - 1]];
    }
  }

  /** Once reading a `channel_id` raised, the later videos change nothing. */
  lemma {:induction false} ErrorSticks(id: string, fs: Fs, codec: Codec, videos: seq<Record.Record>, k: nat)
    requires k <= |videos|
    requires OwnVideos(id, fs, codec, videos[..k]).1.Some?
    ensures OwnVideos(id, fs, codec, videos) == OwnVideos(id, fs, codec, videos[..k])
    decreases |videos|
  {
    if k < |videos| {
      var init := videos[..|videos| - 1];
      assert init[..k] == videos[..k];
      ErrorSticks(id, fs, codec, init, k);
    } else {
      assert videos[..k] == videos;
    }
  }

  /** `list_videos`: the videos of the storage's listing whose channel is
      this one. */
  method ListVideos(storage: Storage.Storage, fs: Fs, codec: Codec, id: string)
    returns (videos: seq<Record.Record>, err: Option<Error>, listed: seq<Record.Record>, ghost names: seq<string>)
    requires storage.CacheValid()
    modifies storage
    ensures storage.CacheValid()
    ensures err.None? && storage.path + ["video"] in fs ==>
      && Scandir(fs, storage.path + ["video"]).Ok?
      && Visited(names, Scandir(fs, storage.path + ["video"]).value, true)
      && Storage.Selected(fs, codec, storage.path, "video", old(storage.recordCache), None, names) == (Storage.Ids(listed), None)
    ensures err.None? ==> (videos, err) == OwnVideos(id, fs, codec, listed)
    ensures err.None? ==> forall v :: v in videos <==> v in listed && ChannelIdOf(v, fs, codec) == Ok(Str(id))
  {
    var listErr;
    listed, listErr, names := storage.ListRecords(fs, codec, "video", None);
    if listErr.Some? {
      return [], listErr, listed, names;
    }
    videos, err := FilterOwn(fs, codec, id, listed);
    if err.None? {
      OwnVideosExactly(id, fs, codec, listed);
    }
  }

  /** The loop of `list_videos` over the listed videos. */
  method FilterOwn(fs: Fs, codec: Codec, id: string, listed: seq<Record.Record>) returns (videos: seq<Record.Record>, err: Option<Error>)
    ensures (videos, err) == OwnVideos(id, fs, codec, listed)
  {
    videos, err := [], None;
    var i := 0;
    while i < |listed|
      invariant 0 <= i <= |listed|
      invariant OwnVideos(id, fs, codec, listed[..i]) == (videos, None)
    {
      assert listed[..i + 1][..i] == listed[..i];
      assert listed[..i + 1][i] == listed[i];
      var c := ChannelIdOf(listed[i], fs, codec);
      if c.Err? {
        assert OwnVideos(id, fs, codec, listed[..i + 1]) == (videos, Some(c.error));
        ErrorSticks(id, fs, codec, listed, i + 1);
        return videos, Some(c.error);
      }
      ghost var before := videos;
      if c.value == Str(id) {
        videos := videos + [listed[i]];
      }
      assert videos == before + (if c.value == Str(id) then [listed[i]] else []);
      i := i + 1;
    }
    assert listed[..i] == listed;
  }
}
