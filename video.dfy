/** `VideoRecord`: a record of model "video", holding its channel id, flags,
    Holodex and YouTube information and the state of its YouTube subtitles.
    Its computed properties are functions of what the info getters return;
    `from_holodex` makes or refreshes the record (and its channel), and the
    YouTube fetch turns a download error into a flag and marks the
    subtitles that never came as missing. */
module Video {
  import opened Wrappers
  import opened JsonValue
  import opened Disk
  import opened FilesMixin
  import MetadataMixin
  import FlagsMixin
  import HolodexMixin
  import Storage
  import Channel
  import Record

  const ModelName := "video"
  const YoutubeWatchUrl := "https://www.youtube.com/watch?v="
  const HolodexWatchUrl := "https://holodex.net/watch/"
  const ChannelIdRequired := "channel_id is required"
  const Gitignore := ".gitignore"
  const GitignoreText := "/content\n"
  const Missing := "missing"
  /** Seconds in a day, the unit of the fetch's age threshold. */
  const Day: real := 86400.0

  /** The defaults a channel first met through one of its videos gets:
      only the mentions-only flag. */
  const ChannelDefaults: Object := map["flags" := Set({Str(FlagsMixin.MentionsOnly)})]

  /** What reading the JSON file name of a record gives through its cache. */
  function View(cache: map<string, Value>, filesPath: Path, fs: Fs, codec: Codec, name: string): Result<Option<Object>> {
    MetadataMixin.Proxy(JsonRead(cache, filesPath, fs, codec, name, true))
  }

  /** `info and (raw := info.get(key))`: the value under key when the info
      is non-empty and the value is truthy. */
  function Field(info: Option<Object>, key: string): (r: Option<Value>)
    ensures r.Some? <==> HolodexMixin.Filled(info) && key in info.value && Truthy(info.value[key])
    ensures r.Some? ==> r.value == info.value[key]
  {
    if HolodexMixin.Filled(info) && Truthy(GetOr(info.value, key, Null)) then Some(info.value[key]) else None
  }

  /** The first candidate present: the reference for the fallback chains. */
  function FirstSome(cands: seq<Option<Value>>): (r: Option<Value>)
    ensures r.Some? <==> exists i :: 0 <= i < |cands| && cands[i].Some?
    ensures r.Some? ==> exists i :: 0 <= i < |cands| && cands[i] == r && forall j :: 0 <= j < i ==> cands[j].None?
  {
    if cands == [] then None
    else if cands[0].Some? then cands[0]
    else
      var r := FirstSome(cands[1..]);
      if r.Some? then
        var i :| 0 <= i < |cands[1..]| && cands[1..][i] == r && forall j :: 0 <= j < i ==> cands[1..][j].None?;
        assert cands[i + 1] == r && forall j :: 0 <= j < i + 1 ==> cands[j].None?;
        r
      else
        assert forall i :: 1 <= i < |cands| ==> cands[i] == cands[1..][i - 1];
        r
  }

  /** The raw `published_at` value, read as the property does: the Holodex
      info's "published_at", then its "available_at", then the YouTube
      info's "upload_date", then its "release_date". The YouTube info is
      read only when the Holodex one gives nothing. */
  function PublishedRaw(h: Result<Option<Object>>, y: Result<Option<Object>>): Result<Option<Value>> {
    var hi :- h;
    if Field(hi, "published_at").Some? then Ok(Field(hi, "published_at"))
    else if Field(hi, "available_at").Some? then Ok(Field(hi, "available_at"))
    else
      var yi :- y;
      if Field(yi, "upload_date").Some? then Ok(Field(yi, "upload_date"))
      else Ok(Field(yi, "release_date"))
  }

  /** The raw publication date is the first present of the four fields,
      and the YouTube info is not consulted when the Holodex info has one. */
  lemma {:induction false} PublishedRawIsFirst(h: Option<Object>, y: Result<Option<Object>>)
    ensures y.Ok? ==> PublishedRaw(Ok(h), y) == Ok(FirstSome([Field(h, "published_at"), Field(h, "available_at"),
                                                             Field(y.value, "upload_date"), Field(y.value, "release_date")]))
    ensures Field(h, "published_at").Some? || Field(h, "available_at").Some? ==>
      PublishedRaw(Ok(h), y) == PublishedRaw(Ok(h), Ok(None))
    ensures Field(h, "published_at").None? && Field(h, "available_at").None? && y.Err? ==>
      PublishedRaw(Ok(h), y) == Err(y.error)
  {
    if y.Ok? {
      var cands := [Field(h, "published_at"), Field(h, "available_at"), Field(y.value, "upload_date"), Field(y.value, "release_date")];
      assert cands[1..] == [cands[1], cands[2], cands[3]];
      assert cands[1..][1..] == [cands[2], cands[3]];
      assert cands[1..][1..][1..] == [cands[3]];
      assert cands[1..][1..][1..][1..] == [];
    }
  }

  /** A date and time: `local` seconds and, for an aware value, the offset
      from UTC in seconds. */
  datatype Stamp = Stamp(local: real, offset: Option<real>)

  /** The UTC instant of an aware value, the basis of comparisons. */
  function Instant(s: Stamp): real
    requires s.offset.Some?
  {
    s.local - s.offset.value
  }

  /** `published_at`: the first raw date parsed with
      `datetime.fromisoformat` (the parser, an external, is a parameter);
      a naive value is taken to be UTC; None without any date. */
  function PublishedAt(h: Result<Option<Object>>, y: Result<Option<Object>>, parse: Value -> Result<Stamp>): (r: Result<Option<Stamp>>)
    ensures PublishedRaw(h, y).Err? ==> r == Err(PublishedRaw(h, y).error)
    ensures PublishedRaw(h, y) == Ok(None) ==> r == Ok(None)
    ensures PublishedRaw(h, y).Ok? && PublishedRaw(h, y).value.Some? ==>
      var p := parse(PublishedRaw(h, y).value.value);
      && (r.Ok? <==> p.Ok?)
      && (p.Err? ==> r == Err(p.error))
      && (p.Ok? ==> r.value.Some? && r.value.value.local == p.value.local)
      && (p.Ok? && p.value.offset.Some? ==> r.value.value == p.value)
    ensures r.Ok? && r.value.Some? ==> r.value.value.offset.Some?
    ensures r.Ok? && r.value.Some? && parse(PublishedRaw(h, y).value.value).value.offset.None? ==> r.value.value.offset == Some(0.0)
  {
    var raw :- PublishedRaw(h, y);
    if raw.None? then Ok(None)
    else
      var v :- parse(raw.value);
      Ok(Some(if v.offset.None? then Stamp(v.local, Some(0.0)) else v))
  }

  /** `title`: the Holodex title when truthy, else the YouTube title when
      truthy, else None. */
  function Title(h: Result<Option<Object>>, y: Result<Option<Object>>): Result<Option<Value>> {
    var hi :- h;
    if Field(hi, "title").Some? then Ok(Field(hi, "title"))
    else
      var yi :- y;
      Ok(Field(yi, "title"))
  }

  /** The title is the first present of the two titles, and the YouTube
      info is not consulted when the Holodex info has one. */
  lemma {:induction false} TitleIsFirst(h: Option<Object>, y: Result<Option<Object>>)
    ensures y.Ok? ==> Title(Ok(h), y) == Ok(FirstSome([Field(h, "title"), Field(y.value, "title")]))
    ensures Field(h, "title").Some? ==> Title(Ok(h), y) == Ok(Some(h.value["title"]))
    ensures Field(h, "title").None? && y.Err? ==> Title(Ok(h), y) == Err(y.error)
  {
    if y.Ok? {
      var cands := [Field(h, "title"), Field(y.value, "title")];
      assert cands[1..] == [cands[1]];
      assert cands[1..][1..] == [];
    }
  }

  /** `youtube_url`, from what the info getters return. */
  function YoutubeUrl(codec: Codec, holodex: Result<Option<Object>>, youtube: Result<Option<Object>>): Result<Option<string>> {
    Channel.Url(codec, YoutubeWatchUrl, HolodexMixin.YoutubeId(holodex, youtube))
  }

  /** `holodex_url`, from what the info getters return. */
  function HolodexUrl(codec: Codec, holodex: Result<Option<Object>>, youtube: Result<Option<Object>>): Result<Option<string>> {
    Channel.Url(codec, HolodexWatchUrl, HolodexMixin.HolodexId(holodex, youtube))
  }

  /** A video whose infos both carry the id s has both urls, each ending in
      s; one without any info has neither. */
  lemma {:induction false} UrlsFromInfo(codec: Codec, h: Object, y: Object, s: string)
    requires "id" in h && h["id"] == Str(s) && "id" in y && y["id"] == Str(s) && s != []
    ensures YoutubeUrl(codec, Ok(Some(h)), Ok(Some(y))) == Ok(Some(YoutubeWatchUrl + s))
    ensures HolodexUrl(codec, Ok(Some(h)), Ok(Some(y))) == Ok(Some(HolodexWatchUrl + s))
    ensures YoutubeUrl(codec, Ok(None), Ok(None)) == Ok(None)
    ensures HolodexUrl(codec, Ok(None), Ok(None)) == Ok(None)
  {
    assert "id" in h.Keys && "id" in y.Keys;
    HolodexMixin.IdsFromOneInfo(Some(h), Some(y));
    HolodexMixin.IdsFromOneInfo(None, None);
  }

  /** `VideoRecord.build_metadata(*, channel_id=None, **kwargs)`: ValueError
      unless channel_id is truthy; otherwise the flags layer builds the rest
      and channel_id is added. */
  function BuildMetadata(kwargs: Object): (r: Result<Object>)
    ensures !Truthy(GetOr(kwargs, "channel_id", Null)) ==> r == Err(ValueError(ChannelIdRequired))
    ensures Truthy(GetOr(kwargs, "channel_id", Null)) ==>
      r.Ok? == FlagsMixin.BuildMetadata(kwargs - {"channel_id"}).Ok?
    ensures r.Ok? ==>
      && r.value.Keys == {"flags", "channel_id"}
      && r.value["channel_id"] == kwargs["channel_id"]
      && r.value["flags"] == FlagsMixin.BuildMetadata(kwargs - {"channel_id"}).value["flags"]
  {
    var channelId := GetOr(kwargs, "channel_id", Null);
    if !Truthy(channelId) then Err(ValueError(ChannelIdRequired))
    else
      var base :- FlagsMixin.BuildMetadata(kwargs - {"channel_id"});
      Ok(With(base, "channel_id", channelId))
  }

  /** The metadata a video gets: its flags from the flags keyword alone and
      its channel id; any other keyword is refused. */
  lemma {:induction false} BuiltMetadata(kwargs: Object, cid: string)
    requires kwargs.Keys <= {"flags", "channel_id"} && "channel_id" in kwargs && kwargs["channel_id"] == Str(cid) && cid != []
    requires FlagsMixin.FlagsArgOk(kwargs)
    ensures BuildMetadata(kwargs) == Ok(map["flags" := Set(FlagsMixin.FlagsArg(kwargs)), "channel_id" := Str(cid)])
  {
    var rest := kwargs - {"channel_id"};
    assert FlagsMixin.FlagsArgOk(rest) && FlagsMixin.FlagsArg(rest) == FlagsMixin.FlagsArg(kwargs) by {
      assert "flags" in kwargs <==> "flags" in rest;
    }
    assert forall k :: k in rest ==> k == "flags";
  }

  /** `youtube_subtitles`: the metadata's "youtube_subtitles" mapping, the
      empty one when absent; AttributeError without metadata and TypeError
      for a stored value that is not a mapping. */
  function YoutubeSubtitles(md: Result<Option<Object>>): (r: Result<Object>)
    ensures md.Err? ==> r == Err(md.error)
    ensures md == Ok(None) ==> r.Err? && r.error.AttributeError?
    ensures md.Ok? && md.value.Some? && "youtube_subtitles" !in md.value.value ==> r == Ok(map[])
    ensures md.Ok? && md.value.Some? && "youtube_subtitles" in md.value.value ==>
      (r.Ok? <==> md.value.value["youtube_subtitles"].Dict?) &&
      (r.Ok? ==> r.value == md.value.value["youtube_subtitles"].fields)
    ensures r.Ok? ==> md.Ok? && md.value.Some?
  {
    var raw :- MetadataMixin.GetKey(md, "youtube_subtitles");
    var v := if md.value.value.Keys >= {"youtube_subtitles"} then raw else Dict(map[]);
    AsObject(v)
  }

  /** `dict(metadata, youtube_subtitles=value)`. */
  function WithSubtitles(md: Object, value: Object): Object {
    With(md, "youtube_subtitles", Dict(value))
  }

  /** The subtitles written by the setter read back, and only that key of
      the metadata changes. */
  lemma {:induction false} SubtitlesReadBack(md: Object, value: Object)
    ensures YoutubeSubtitles(Ok(Some(WithSubtitles(md, value)))) == Ok(value)
    ensures WithSubtitles(md, value).Keys == md.Keys + {"youtube_subtitles"}
    ensures forall k :: k in md && k != "youtube_subtitles" ==> WithSubtitles(md, value)[k] == md[k]
  {
  }

  /** The `youtube_subtitles` setter: `self.metadata = dict(self.metadata,
      youtube_subtitles=value)`; TypeError without metadata. */
  method SetYoutubeSubtitles(f: Files, fs: Fs, codec: Codec, value: Object) returns (fs': Fs, err: Option<Error>)
    modifies f
    ensures var m := View(old(f.jsonCache), f.filesPath, fs, codec, MetadataMixin.MetadataJson);
      var loaded := JsonLoadCaches(old(f.textCache), old(f.jsonCache), f.filesPath, fs, codec, MetadataMixin.MetadataJson, true);
      if m.Ok? && m.value.Some? then
        var doc := Dict(WithSubtitles(m.value.value, value));
        (fs', err) == SaveTextSpec(fs, f.filesPath, MetadataMixin.MetadataJson, JsonText(codec, doc)) &&
        (f.textCache, f.jsonCache) == JsonSaveCaches(loaded.0, loaded.1, codec, MetadataMixin.MetadataJson, doc, err)
      else
        fs' == fs && err.Some? && (m.Err? ==> err.value == m.error) && (m.Ok? ==> err.value.TypeError?) &&
        (f.textCache, f.jsonCache) == loaded
  {
    var md := MetadataMixin.GetMetadata(f, fs, codec);
    if md.Err? {
      return fs, Some(md.error);
    }
    if md.value.None? {
      return fs, Some(TypeError("'NoneType' object is not iterable"));
    }
    fs', err := MetadataMixin.SetMetadata(f, fs, codec, Dict(WithSubtitles(md.value.value, value)));
  }

  // ---------------------------------------------------------------------
  // from_holodex

  /** What `from_holodex` does to the file system, as written: an existing
      video has its info refreshed; for a new one the channel is made or
      refreshed first (without updating its info), and then `create` is
      handed the metadata positionally and raises TypeError. */
  function FromHolodexSpec(fs: Fs, codec: Codec, storagePath: Path, id: string, info: Value,
                           channelId: string, channelInfo: Value, defaults: Option<Object>, update: bool): (Fs, Option<Error>)
  {
    var recordP := storagePath + [ModelName, id];
    match Storage.FreshExists(fs, codec, recordP)
    case Err(e) => (fs, Some(e))
    case Ok(true) => Channel.Refresh(fs, codec, recordP, info, update)
    case Ok(false) => NewSpec(fs, codec, storagePath, channelId, channelInfo, defaults)
  }

  /** `from_holodex` as written on a video that is not stored. */
  function NewSpec(fs: Fs, codec: Codec, storagePath: Path, channelId: string, channelInfo: Value, defaults: Option<Object>): (Fs, Option<Error>) {
    var ch := Channel.FromHolodexSpec(fs, codec, storagePath, channelId, channelInfo, Some(ChannelDefaults), false);
    if ch.1.Some? then ch
    else
      match BuildMetadata(With(Channel.OrEmpty(defaults), "channel_id", Str(channelId)))
      case Err(e) => (ch.0, Some(e))
      case Ok(_) => (ch.0, Some(TypeError(Channel.PositionalCreate)))
  }

  /** What `from_holodex` does to the file system with `create(**metadata)`
      for both the channel and the video. */
  function FromHolodexFixedSpec(fs: Fs, codec: Codec, storagePath: Path, id: string, info: Value,
                                channelId: string, channelInfo: Value, defaults: Option<Object>, update: bool): (Fs, Option<Error>)
  {
    var recordP := storagePath + [ModelName, id];
    match Storage.FreshExists(fs, codec, recordP)
    case Err(e) => (fs, Some(e))
    case Ok(true) => Channel.Refresh(fs, codec, recordP, info, update)
    case Ok(false) => NewFixedSpec(fs, codec, storagePath, id, info, channelId, channelInfo, defaults)
  }

  /** `from_holodex` with `create(**metadata)` on a video that is not
      stored. */
  function NewFixedSpec(fs: Fs, codec: Codec, storagePath: Path, id: string, info: Value,
                        channelId: string, channelInfo: Value, defaults: Option<Object>): (Fs, Option<Error>) {
    AfterChannel(Channel.FromHolodexFixedSpec(fs, codec, storagePath, channelId, channelInfo, Some(ChannelDefaults), false),
                 codec, storagePath, id, info, channelId, defaults)
  }

  /** The video's own creation once its channel step ended in ch. */
  function AfterChannel(ch: (Fs, Option<Error>), codec: Codec, storagePath: Path, id: string, info: Value,
                        channelId: string, defaults: Option<Object>): (Fs, Option<Error>) {
    if ch.1.Some? then ch
    else
      match BuildMetadata(With(Channel.OrEmpty(defaults), "channel_id", Str(channelId)))
      case Err(e) => (ch.0, Some(e))
      case Ok(md) => Channel.Created(ch.0, codec, storagePath + [ModelName], storagePath + [ModelName, id], md, info)
  }

  /** As written, `from_holodex` on a video that is not stored always
      raises. */
  lemma {:induction false} NewVideoNeverStored(fs: Fs, codec: Codec, storagePath: Path, id: string, info: Value,
                            channelId: string, channelInfo: Value, defaults: Option<Object>, update: bool)
    requires !IsDir(fs, storagePath + [ModelName, id])
    ensures FromHolodexSpec(fs, codec, storagePath, id, info, channelId, channelInfo, defaults, update).1.Some?
  {
  }

  /** With `create` called as intended, a new video is stored under its
      channel: its metadata holds the channel's id and its flags, and its
      Holodex info is saved; a channel met for the first time this way is
      stored with the mentions-only flag alone. */
  lemma {:induction false} NewVideoStored(fs: Fs, codec: Codec, storagePath: Path, id: string, info: Value,
                       channelId: string, channelInfo: Value, defaults: Option<Object>, update: bool, md: Object)
    requires Storage.FreshExists(fs, codec, storagePath + [ModelName, id]) == Ok(false)
    requires BuildMetadata(With(Channel.OrEmpty(defaults), "channel_id", Str(channelId))) == Ok(md)
    requires FromHolodexFixedSpec(fs, codec, storagePath, id, info, channelId, channelInfo, defaults, update).1.None?
    requires !info.Null?
    ensures var fs' := FromHolodexFixedSpec(fs, codec, storagePath, id, info, channelId, channelInfo, defaults, update).0;
      var recordP := storagePath + [ModelName, id];
      && IsDir(fs', recordP)
      && TextAt(fs', recordP + [MetadataMixin.MetadataJson]) == Some(codec.dumps(Dict(md)))
      && TextAt(fs', recordP + [HolodexMixin.HolodexJson]) == Some(codec.dumps(info))
      && md["channel_id"] == Str(channelId)
    ensures FlagsMixin.BuildMetadata(ChannelDefaults) == Ok(map["flags" := Set({Str(FlagsMixin.MentionsOnly)})])
  {
    var recordP := storagePath + [ModelName, id];
    var ch := Channel.FromHolodexFixedSpec(fs, codec, storagePath, channelId, channelInfo, Some(ChannelDefaults), false);
    Channel.CreatedStored(ch.0, codec, storagePath + [ModelName], recordP, md, info);
    assert ToSet(Set({Str(FlagsMixin.MentionsOnly)})) == Ok({Str(FlagsMixin.MentionsOnly)});
  }

  /** `from_holodex` as written. */
  method FromHolodex(fs: Fs, codec: Codec, storagePath: Path, id: string, info: Value,
                     channelId: string, channelInfo: Value, defaults: Option<Object>, update: bool)
    returns (fs': Fs, r: Result<Record.Record>)
    ensures r.Ok? ==> fresh(r.value) && r.value.Valid()
    ensures r.Ok? ==> r.value.storagePath == storagePath && r.value.modelName == ModelName && r.value.id == id
    ensures (fs', if r.Err? then Some(r.error) else None) ==
      FromHolodexSpec(fs, codec, storagePath, id, info, channelId, channelInfo, defaults, update)
  {
    var record := new Record.Record(storagePath, ModelName, id);
    assert record.RecordPath() == storagePath + [ModelName, id];
    fs' := fs;
    var e := Channel.ExistsFresh(record, fs, codec);
    ghost var spec := FromHolodexSpec(fs, codec, storagePath, id, info, channelId, channelInfo, defaults, update);
    if e.Err? {
      assert spec == (fs, Some(e.error));
      return fs, Err(e.error);
    }
    var err;
    if !e.value {
      assert spec == NewSpec(fs, codec, storagePath, channelId, channelInfo, defaults);
      fs', err := CreateAsWritten(fs, codec, storagePath, channelId, channelInfo, defaults);
    } else {
      assert spec == Channel.Refresh(fs, codec, storagePath + [ModelName, id], info, update);
      fs', err := Channel.RefreshInfo(record, fs, codec, info, update);
    }
    r := if err.Some? then Err(err.value) else Ok(record);
  }

  /** `from_holodex` with `create(**metadata)`. */
  method FromHolodexFixed(fs: Fs, codec: Codec, storagePath: Path, id: string, info: Value,
                          channelId: string, channelInfo: Value, defaults: Option<Object>, update: bool)
    returns (fs': Fs, r: Result<Record.Record>)
    ensures r.Ok? ==> fresh(r.value) && r.value.Valid()
    ensures r.Ok? ==> r.value.storagePath == storagePath && r.value.modelName == ModelName && r.value.id == id
    ensures (fs', if r.Err? then Some(r.error) else None) ==
      FromHolodexFixedSpec(fs, codec, storagePath, id, info, channelId, channelInfo, defaults, update)
  {
    var record := new Record.Record(storagePath, ModelName, id);
    assert record.RecordPath() == storagePath + [ModelName, id];
    fs' := fs;
    var e := Channel.ExistsFresh(record, fs, codec);
    ghost var spec := FromHolodexFixedSpec(fs, codec, storagePath, id, info, channelId, channelInfo, defaults, update);
    if e.Err? {
      assert spec == (fs, Some(e.error));
      return fs, Err(e.error);
    }
    var err;
    if !e.value {
      assert spec == NewFixedSpec(fs, codec, storagePath, id, info, channelId, channelInfo, defaults);
      fs', err := CreateFixed(record, fs, codec, info, channelId, channelInfo, defaults);
    } else {
      assert spec == Channel.Refresh(fs, codec, storagePath + [ModelName, id], info, update);
      fs', err := Channel.RefreshInfo(record, fs, codec, info, update);
    }
    r := if err.Some? then Err(err.value) else Ok(record);
  }

  /** The new-video branch of `from_holodex` as written: the channel is
      obtained, the metadata built, and `create` raises. */
  method CreateAsWritten(fs: Fs, codec: Codec, storagePath: Path, channelId: string, channelInfo: Value, defaults: Option<Object>)
    returns (fs': Fs, err: Option<Error>)
    ensures (fs', err) == NewSpec(fs, codec, storagePath, channelId, channelInfo, defaults)
  {
    var channel;
    fs', channel := Channel.FromHolodex(fs, codec, storagePath, channelId, channelInfo, Some(ChannelDefaults), false);
    if channel.Err? {
      return fs', Some(channel.error);
    }
    var md := BuildMetadata(With(Channel.OrEmpty(defaults), "channel_id", Str(channel.value.id)));
    if md.Err? {
      return fs', Some(md.error);
    }
    return fs', Some(TypeError(Channel.PositionalCreate));
  }

  /** The new-video branch of `from_holodex` with `create(**metadata)`. */
  method CreateFixed(record: Record.Record, fs: Fs, codec: Codec, info: Value, channelId: string, channelInfo: Value, defaults: Option<Object>)
    returns (fs': Fs, err: Option<Error>)
    requires record.Valid() && record.modelName == ModelName
    requires !IsDir(fs, record.RecordPath()) || record.Metadata(fs, codec) == Ok(None)
    requires forall n :: n in record.files.jsonCache ==> n == MetadataMixin.MetadataJson
    modifies record.files
    ensures (fs', err) == NewFixedSpec(fs, codec, record.storagePath, record.id, info, channelId, channelInfo, defaults)
  {
    var channel;
    fs', channel := Channel.FromHolodexFixed(fs, codec, record.storagePath, channelId, channelInfo, Some(ChannelDefaults), false);
    ghost var ch := Channel.FromHolodexFixedSpec(fs, codec, record.storagePath, channelId, channelInfo, Some(ChannelDefaults), false);
    assert NewFixedSpec(fs, codec, record.storagePath, record.id, info, channelId, channelInfo, defaults)
      == AfterChannel(ch, codec, record.storagePath, record.id, info, channelId, defaults);
    if channel.Err? {
      return fs', Some(channel.error);
    }
    fs', err := FinishFixed(record, fs, fs', codec, info, channelId, channelInfo, defaults);
  }

  /** The new video's metadata built and the video created, once the
      channel step went through. */
  method FinishFixed(record: Record.Record, fs0: Fs, fs: Fs, codec: Codec, info: Value, channelId: string, channelInfo: Value, defaults: Option<Object>)
    returns (fs': Fs, err: Option<Error>)
    requires record.Valid() && record.modelName == ModelName
    requires !IsDir(fs0, record.RecordPath()) || record.Metadata(fs0, codec) == Ok(None)
    requires forall n :: n in record.files.jsonCache ==> n == MetadataMixin.MetadataJson
    requires (fs, None) == Channel.FromHolodexFixedSpec(fs0, codec, record.storagePath, channelId, channelInfo, Some(ChannelDefaults), false)
    modifies record.files
    ensures (fs', err) == AfterChannel((fs, None), codec, record.storagePath, record.id, info, channelId, defaults)
  {
    var md := BuildMetadata(With(Channel.OrEmpty(defaults), "channel_id", Str(channelId)));
    if md.Err? {
      return fs, Some(md.error);
    }
    KeptVideo(record, fs0, fs, codec, channelId, channelInfo);
    assert record.RecordPath() == record.storagePath + [ModelName, record.id];
    fs', err := NewVideo(record, fs, codec, md.value, info);
  }

  /** The channel step keeps the video's directory and metadata file, so
      the video is as absent after it as before. */
  lemma {:induction false} KeptVideo(record: Record.Record, fs: Fs, fs': Fs, codec: Codec, channelId: string, channelInfo: Value)
    requires record.Valid() && record.modelName == ModelName
    requires !IsDir(fs, record.RecordPath()) || record.Metadata(fs, codec) == Ok(None)
    requires forall n :: n in record.files.jsonCache ==> n == MetadataMixin.MetadataJson
    requires fs' == Channel.FromHolodexFixedSpec(fs, codec, record.storagePath, channelId, channelInfo, Some(ChannelDefaults), false).0
    ensures !IsDir(fs', record.RecordPath()) || record.Metadata(fs', codec) == Ok(None)
  {
    var sp := record.storagePath;
    var recordP := record.RecordPath();
    var metaP := recordP + [MetadataMixin.MetadataJson];
    assert recordP == sp + [ModelName, record.id];
    assert recordP[..|sp| + 1] == sp + [ModelName] != sp + [Channel.ModelName];
    assert metaP[..|sp| + 1] == sp + [ModelName];
    Channel.FixedSpecKeeps(fs, codec, sp, channelId, channelInfo, Some(ChannelDefaults), false, recordP);
    Channel.FixedSpecKeeps(fs, codec, sp, channelId, channelInfo, Some(ChannelDefaults), false, metaP);
    assert TextAt(fs', metaP) == TextAt(fs, metaP);
  }

  /** The video's own `create(**metadata)` and `holodex_info` setter, on
      the file system the channel step left. */
  method NewVideo(record: Record.Record, fs: Fs, codec: Codec, md: Object, info: Value) returns (fs': Fs, err: Option<Error>)
    requires record.Valid()
    requires !IsDir(fs, record.RecordPath()) || record.Metadata(fs, codec) == Ok(None)
    modifies record.files
    ensures (fs', err) == Channel.Created(fs, codec, record.ModelPath(), record.RecordPath(), md, info)
  {
    fs', err := record.Create(fs, codec, md);
    if err.Some? {
      return;
    }
    fs', err := HolodexMixin.SetHolodexInfo(record.files, fs', codec, info);
  }

  // ---------------------------------------------------------------------
  // update_gitignore

  /** What `update_gitignore` does, given what the flags getter returned:
      with the membership flag a missing `.gitignore` in the record
      directory is written with "/content\n"; without it an existing one is
      unlinked; otherwise nothing changes. */
  function GitignoreSpec(flags: Result<set<Value>>, fs: Fs, recordP: Path): (r: (Fs, Option<Error>))
    ensures flags.Err? ==> r == (fs, Some(flags.error))
    ensures r.1.None? ==> flags.Ok? && (recordP + [Gitignore] in r.0 <==> Str(FlagsMixin.YoutubeMembership) in flags.value)
    ensures r.1.None? && recordP + [Gitignore] in r.0 ==>
      r.0[recordP + [Gitignore]] == (if recordP + [Gitignore] in fs then fs[recordP + [Gitignore]] else File(GitignoreText))
    ensures forall q :: q != recordP + [Gitignore] ==> (q in r.0 <==> q in fs) && (q in fs ==> r.0[q] == fs[q])
    ensures r.1.Some? ==> r.0 == fs
    ensures flags.Ok? && r.1.Some? ==> r.1.value.OSError?
    ensures flags.Ok? && IsDir(fs, recordP) && !IsDir(fs, recordP + [Gitignore]) ==> r.1.None?
  {
    var p := recordP + [Gitignore];
    match flags
    case Err(e) => (fs, Some(e))
    case Ok(fl) =>
      if Str(FlagsMixin.YoutubeMembership) in fl && p !in fs then
        match WriteText(fs, p, GitignoreText)
        case Ok(fs') => (fs', None)
        case Err(e) => (fs, Some(e))
      else if Str(FlagsMixin.YoutubeMembership) !in fl && p in fs then
        match Unlink(fs, p, false)
        case Ok(fs') => (fs', None)
        case Err(e) => (fs, Some(e))
      else (fs, None)
  }

  /** A second `update_gitignore` after one that went through changes
      nothing: the flags read the same (the metadata file is untouched and
      the second read is served as the first was) and `.gitignore` is
      already as they require. */
  lemma {:induction false} UpdateGitignoreTwice(textCache: map<string, string>, jsonCache: map<string, Value>, recordP: Path, fs: Fs, codec: Codec)
    requires GitignoreSpec(FlagsMixin.FlagsOf(View(jsonCache, recordP, fs, codec, MetadataMixin.MetadataJson)), fs, recordP).1.None?
    ensures var flags := FlagsMixin.FlagsOf(View(jsonCache, recordP, fs, codec, MetadataMixin.MetadataJson));
      var fs' := GitignoreSpec(flags, fs, recordP).0;
      var c := JsonLoadCaches(textCache, jsonCache, recordP, fs, codec, MetadataMixin.MetadataJson, true);
      && FlagsMixin.FlagsOf(View(c.1, recordP, fs', codec, MetadataMixin.MetadataJson)) == flags
      && GitignoreSpec(flags, fs', recordP) == (fs', None)
      && JsonLoadCaches(c.0, c.1, recordP, fs', codec, MetadataMixin.MetadataJson, true) == c
  {
    var flags := FlagsMixin.FlagsOf(View(jsonCache, recordP, fs, codec, MetadataMixin.MetadataJson));
    var fs' := GitignoreSpec(flags, fs, recordP).0;
    var metaP := recordP + [MetadataMixin.MetadataJson];
    assert metaP != recordP + [Gitignore] by {
      assert metaP[|recordP|] != (recordP + [Gitignore])[|recordP|];
    }
    assert TextAt(fs', metaP) == TextAt(fs, metaP);
    LoadAgain(textCache, jsonCache, recordP, fs, codec, MetadataMixin.MetadataJson);
    LoadAgain(textCache, jsonCache, recordP, fs', codec, MetadataMixin.MetadataJson);
  }

  /** `update_gitignore`: the flags are read, and read again for the
      `elif` when the first test fails. */
  method UpdateGitignore(f: Files, fs: Fs, codec: Codec) returns (fs': Fs, err: Option<Error>)
    modifies f
    ensures (fs', err) == GitignoreSpec(FlagsMixin.FlagsOf(View(old(f.jsonCache), f.filesPath, fs, codec, MetadataMixin.MetadataJson)), fs, f.filesPath)
    ensures (f.textCache, f.jsonCache) == JsonLoadCaches(old(f.textCache), old(f.jsonCache), f.filesPath, fs, codec, MetadataMixin.MetadataJson, true)
  {
    var p := f.filesPath + [Gitignore];
    LoadAgain(f.textCache, f.jsonCache, f.filesPath, fs, codec, MetadataMixin.MetadataJson);
    var flags := FlagsMixin.GetFlags(f, fs, codec);
    if flags.Err? {
      return fs, Some(flags.error);
    }
    if Str(FlagsMixin.YoutubeMembership) in flags.value && p !in fs {
      var w := WriteText(fs, p, GitignoreText);
      if w.Err? {
        return fs, Some(w.error);
      }
      return w.value, None;
    }
    var again := FlagsMixin.GetFlags(f, fs, codec);
    assert again == flags;
    if Str(FlagsMixin.YoutubeMembership) !in again.value && p in fs {
      var u := Unlink(fs, p, false);
      if u.Err? {
        return fs, Some(u.error);
      }
      return u.value, None;
    }
    return fs, None;
  }

  // ---------------------------------------------------------------------
  // _fetch_youtube_subtitles__skip_missing

  /** `published_at is None or published_at <= week_ago`, comparing the
      aware values as instants. */
  predicate IsOld(published: Option<Stamp>, weekAgo: real)
    requires published.Some? ==> published.value.offset.Some?
  {
    published.None? || Instant(published.value) <= weekAgo
  }

  /** The requested languages with no stored YouTube subtitle. */
  function MissingLangs(langs: seq<string>, stored: set<Value>): set<string> {
    set l | l in langs && Str(l) !in stored
  }

  /** `subs | {lang: "missing" for lang in missing}`. */
  function MarkedMissing(subs: Object, missing: set<string>): (r: Object)
    ensures r.Keys == subs.Keys + missing
    ensures forall l :: l in missing ==> r[l] == Str(Missing)
    ensures forall k :: k in subs && k !in missing ==> r[k] == subs[k]
  {
    Merge(subs, map l | l in missing :: Str(Missing))
  }

  /** The `youtube_subtitles |= ...` step: the getter, then the setter with
      the merged mapping (its metadata read is served by the cache). */
  function MarkSpec(m: Result<Option<Object>>, fs: Fs, filesPath: Path, codec: Codec, missing: set<string>): (Fs, Option<Error>) {
    match YoutubeSubtitles(m)
    case Err(e) => (fs, Some(e))
    case Ok(subs) =>
      SaveTextSpec(fs, filesPath, MetadataMixin.MetadataJson, JsonText(codec, Dict(WithSubtitles(m.value.value, MarkedMissing(subs, missing)))))
  }

  /** What `_fetch_youtube_subtitles__skip_missing(langs, days)` does, given
      the info and metadata views, the current instant `now`, and the
      languages of the stored YouTube subtitle items (or the error listing
      them raised). */
  function SkipMissingSpec(h: Result<Option<Object>>, y: Result<Option<Object>>, m: Result<Option<Object>>, fs: Fs, filesPath: Path,
                           codec: Codec, parse: Value -> Result<Stamp>, now: real, days: int, langs: seq<string>,
                           storedLangs: Result<set<Value>>): (r: (Fs, Option<Error>))
    ensures PublishedAt(h, y, parse).Ok? && !IsOld(PublishedAt(h, y, parse).value, now - days as real * Day) ==> r == (fs, None)
    ensures PublishedAt(h, y, parse).Ok? && storedLangs.Ok? && MissingLangs(langs, storedLangs.value) == {} ==> r == (fs, None)
    ensures r.1.None? && r.0 != fs ==>
      && PublishedAt(h, y, parse).Ok? && IsOld(PublishedAt(h, y, parse).value, now - days as real * Day)
      && storedLangs.Ok? && MissingLangs(langs, storedLangs.value) != {}
  {
    match PublishedAt(h, y, parse)
    case Err(e) => (fs, Some(e))
    case Ok(published) =>
      if !IsOld(published, now - days as real * Day) then (fs, None)
      else
        match storedLangs
        case Err(e) => (fs, Some(e))
        case Ok(stored) =>
          var missing := MissingLangs(langs, stored);
          if missing == {} then (fs, None)
          else MarkSpec(m, fs, filesPath, codec, missing)
  }

  /** On an old video whose subtitle mapping reads, every requested
      language without a stored YouTube subtitle is marked "missing" in the
      metadata written, and every other entry of the mapping is kept. */
  lemma {:induction false} SkipMissingMarks(h: Result<Option<Object>>, y: Result<Option<Object>>, md: Object, fs: Fs, filesPath: Path, codec: Codec,
                         parse: Value -> Result<Stamp>, now: real, days: int, langs: seq<string>, stored: set<Value>)
    requires PublishedAt(h, y, parse).Ok? && IsOld(PublishedAt(h, y, parse).value, now - days as real * Day)
    requires YoutubeSubtitles(Ok(Some(md))).Ok?
    requires MissingLangs(langs, stored) != {}
    ensures var r := SkipMissingSpec(h, y, Ok(Some(md)), fs, filesPath, codec, parse, now, days, langs, Ok(stored));
      var subs := YoutubeSubtitles(Ok(Some(md))).value;
      var w := WithSubtitles(md, MarkedMissing(subs, MissingLangs(langs, stored)));
      r.1.None? ==>
        && TextAt(r.0, filesPath + [MetadataMixin.MetadataJson]) == Some(codec.dumps(Dict(w)))
        && YoutubeSubtitles(Ok(Some(w))).Ok?
        && (forall l :: l in langs && Str(l) !in stored ==> YoutubeSubtitles(Ok(Some(w))).value[l] == Str(Missing))
        && (forall k :: k in subs && !(k in langs && Str(k) !in stored) ==> YoutubeSubtitles(Ok(Some(w))).value[k] == subs[k])
        && (forall k :: k in YoutubeSubtitles(Ok(Some(w))).value ==> k in subs || (k in langs && Str(k) !in stored))
  {
    var subs := YoutubeSubtitles(Ok(Some(md))).value;
    var missing := MissingLangs(langs, stored);
    var w := WithSubtitles(md, MarkedMissing(subs, missing));
    SubtitlesReadBack(md, MarkedMissing(subs, missing));
    SaveTextWrites(fs, filesPath, MetadataMixin.MetadataJson, JsonText(codec, Dict(w)));
  }

  /** The three views a video's computed properties read are the same
      through the caches c0 and c1. */
  ghost predicate ViewsKept(c0: map<string, Value>, c1: map<string, Value>, filesPath: Path, fs: Fs, codec: Codec) {
    && View(c1, filesPath, fs, codec, HolodexMixin.HolodexJson) == View(c0, filesPath, fs, codec, HolodexMixin.HolodexJson)
    && View(c1, filesPath, fs, codec, HolodexMixin.YoutubeJson) == View(c0, filesPath, fs, codec, HolodexMixin.YoutubeJson)
    && View(c1, filesPath, fs, codec, MetadataMixin.MetadataJson) == View(c0, filesPath, fs, codec, MetadataMixin.MetadataJson)
  }

  /** A cached read of any file keeps the three views. */
  lemma {:induction false} ReadKeepsViews(textCache: map<string, string>, jsonCache: map<string, Value>, filesPath: Path, fs: Fs, codec: Codec, name: string)
    ensures ViewsKept(jsonCache, JsonLoadCaches(textCache, jsonCache, filesPath, fs, codec, name, true).1, filesPath, fs, codec)
  {
    LoadKeepsReads(textCache, jsonCache, filesPath, fs, codec, name, HolodexMixin.HolodexJson);
    LoadKeepsReads(textCache, jsonCache, filesPath, fs, codec, name, HolodexMixin.YoutubeJson);
    LoadKeepsReads(textCache, jsonCache, filesPath, fs, codec, name, MetadataMixin.MetadataJson);
  }

  /** The `published_at` property read through the getters: the YouTube
      info is read only when the Holodex one has neither date. */
  method ReadPublishedAt(f: Files, fs: Fs, codec: Codec, parse: Value -> Result<Stamp>) returns (r: Result<Option<Stamp>>)
    modifies f
    ensures r == PublishedAt(View(old(f.jsonCache), f.filesPath, fs, codec, HolodexMixin.HolodexJson),
                             View(old(f.jsonCache), f.filesPath, fs, codec, HolodexMixin.YoutubeJson), parse)
    ensures ViewsKept(old(f.jsonCache), f.jsonCache, f.filesPath, fs, codec)
  {
    ReadKeepsViews(f.textCache, f.jsonCache, f.filesPath, fs, codec, HolodexMixin.HolodexJson);
    var h := HolodexMixin.GetHolodexInfo(f, fs, codec);
    if h.Err? {
      return Err(h.error);
    }
    if Field(h.value, "published_at").Some? || Field(h.value, "available_at").Some? {
      return PublishedAt(h, Ok(None), parse);
    }
    ReadKeepsViews(f.textCache, f.jsonCache, f.filesPath, fs, codec, HolodexMixin.YoutubeJson);
    var y := HolodexMixin.GetYoutubeInfo(f, fs, codec);
    r := PublishedAt(h, y, parse);
  }

  /** The `youtube_subtitles |= ...` step. */
  method MarkMissing(f: Files, fs: Fs, codec: Codec, missing: set<string>) returns (fs': Fs, err: Option<Error>)
    modifies f
    ensures (fs', err) == MarkSpec(View(old(f.jsonCache), f.filesPath, fs, codec, MetadataMixin.MetadataJson), fs, f.filesPath, codec, missing)
  {
    LoadAgain(f.textCache, f.jsonCache, f.filesPath, fs, codec, MetadataMixin.MetadataJson);
    var md := MetadataMixin.GetMetadata(f, fs, codec);
    var subs := YoutubeSubtitles(md);
    if subs.Err? {
      return fs, Some(subs.error);
    }
    fs', err := SetYoutubeSubtitles(f, fs, codec, MarkedMissing(subs.value, missing));
  }

  /** `_fetch_youtube_subtitles__skip_missing(langs, days)`. The property
      `published_at` is evaluated a second time for the comparison; that
      read is served by the cache and gives the same value. */
  method SkipMissing(f: Files, fs: Fs, codec: Codec, parse: Value -> Result<Stamp>, now: real, days: int, langs: seq<string>,
                     storedLangs: Result<set<Value>>) returns (fs': Fs, err: Option<Error>)
    modifies f
    ensures (fs', err) == SkipMissingSpec(View(old(f.jsonCache), f.filesPath, fs, codec, HolodexMixin.HolodexJson),
                                          View(old(f.jsonCache), f.filesPath, fs, codec, HolodexMixin.YoutubeJson),
                                          View(old(f.jsonCache), f.filesPath, fs, codec, MetadataMixin.MetadataJson),
                                          fs, f.filesPath, codec, parse, now, days, langs, storedLangs)
  {
    var published := ReadPublishedAt(f, fs, codec, parse);
    if published.Err? {
      return fs, Some(published.error);
    }
    if !IsOld(published.value, now - days as real * Day) {
      return fs, None;
    }
    if storedLangs.Err? {
      return fs, Some(storedLangs.error);
    }
    var missing := MissingLangs(langs, storedLangs.value);
    if missing == {} {
      return fs, None;
    }
    fs', err := MarkMissing(f, fs, codec, missing);
  }

  // ---------------------------------------------------------------------
  // fetch_youtube

  /** The days after which missing subtitles are given up, the default of
      the skip step. */
  const SkipDays := 7

  /** How far `fetch_youtube` gets before its `else` clause: `published_at`
      is evaluated for the log line, the YouTube id is read, and the
      download of that id either completes (None) or raises. */
  function Fetched(h: Result<Option<Object>>, y: Result<Option<Object>>, parse: Value -> Result<Stamp>,
                   download: Value -> Option<Error>): (r: Result<Option<Error>>)
    ensures PublishedAt(h, y, parse).Err? ==> r == Err(PublishedAt(h, y, parse).error)
    ensures r.Ok? ==> HolodexMixin.YoutubeId(h, y).Ok? && r.value == download(HolodexMixin.YoutubeId(h, y).value)
  {
    var _ :- PublishedAt(h, y, parse);
    var id :- HolodexMixin.YoutubeId(h, y);
    Ok(download(id))
  }

  /** The flags set the error path assigns: the stored flags, as strings,
      with the flag the error classifies as; None when it does not reach
      the setter. */
  function NewFlags(e: Error, m: Result<Option<Object>>): Option<set<string>> {
    var flag := FlagsMixin.FromYtDlpError(e);
    var flags := FlagsMixin.FlagsOf(m);
    if flag.Some? && flags.Ok? then Some(Strings(flags.value) + {flag.value}) else None
  }

  /** The `except DownloadError` clause, and what escapes the `try`: an
      error that is not a DownloadError, or one with no flag, is raised;
      otherwise the flag is added to the flags, the new set being written in
      the order `order`. */
  function Flagged(e: Error, m: Result<Option<Object>>, fs: Fs, filesPath: Path, codec: Codec, order: seq<string>): (r: (Fs, Option<Error>))
    ensures FlagsMixin.FromYtDlpError(e).None? ==> r == (fs, Some(e))
    ensures FlagsMixin.FromYtDlpError(e).Some? && r.1.Some? ==>
      r.1.value.OSError? || (FlagsMixin.FlagsOf(m).Err? && r.1.value == FlagsMixin.FlagsOf(m).error)
    ensures FlagsMixin.FromYtDlpError(e).Some? && FlagsMixin.FlagsOf(m).Ok? ==> r.1 != Some(e)
  {
    match FlagsMixin.FromYtDlpError(e)
    case None => (fs, Some(e))
    case Some(flag) =>
      match FlagsMixin.FlagsOf(m)
      case Err(x) => (fs, Some(x))
      case Ok(_) => SaveTextSpec(fs, filesPath, MetadataMixin.MetadataJson, JsonText(codec, Dict(FlagsMixin.WithFlags(m.value.value, order))))
  }

  /** What `fetch_youtube(download_subtitles=langs)` does to the file
      system, apart from storing what the download brought: an empty or
      absent language list skips the subtitle step. */
  function FetchSpec(c: map<string, Value>, filesPath: Path, fs: Fs, codec: Codec, parse: Value -> Result<Stamp>,
                     download: Value -> Option<Error>, langs: seq<string>, now: real, storedLangs: Result<set<Value>>,
                     order: seq<string>): (Fs, Option<Error>)
  {
    var h := View(c, filesPath, fs, codec, HolodexMixin.HolodexJson);
    var y := View(c, filesPath, fs, codec, HolodexMixin.YoutubeJson);
    var m := View(c, filesPath, fs, codec, MetadataMixin.MetadataJson);
    match Fetched(h, y, parse, download)
    case Err(e) => (fs, Some(e))
    case Ok(Some(e)) => Flagged(e, m, fs, filesPath, codec, order)
    case Ok(None) =>
      if langs == [] then (fs, None)
      else SkipMissingSpec(h, y, m, fs, filesPath, codec, parse, now, SkipDays, langs, storedLangs)
  }

  /** A classified download error is swallowed: the flag joins the stored
      flags, and the metadata written reads back as exactly that set. */
  lemma {:induction false} FlagAdded(e: Error, md: Object, fs: Fs, filesPath: Path, codec: Codec, order: seq<string>)
    requires NewFlags(e, Ok(Some(md))).Some?
    requires forall s :: s in order <==> s in NewFlags(e, Ok(Some(md))).value
    ensures var r := Flagged(e, Ok(Some(md)), fs, filesPath, codec, order);
      var w := FlagsMixin.WithFlags(md, order);
      && (r.1.None? ==> TextAt(r.0, filesPath + [MetadataMixin.MetadataJson]) == Some(codec.dumps(Dict(w))))
      && (r.1.Some? ==> r.1.value.OSError?)
      && FlagsMixin.FlagsOf(Ok(Some(w))).Ok?
      && Strings(FlagsMixin.FlagsOf(Ok(Some(w))).value) == Strings(FlagsMixin.FlagsOf(Ok(Some(md))).value) + {FlagsMixin.FromYtDlpError(e).value}
  {
    var w := FlagsMixin.WithFlags(md, order);
    FlagsMixin.FlagsRoundTrip(md, NewFlags(e, Ok(Some(md))).value, order);
    SaveTextWrites(fs, filesPath, MetadataMixin.MetadataJson, JsonText(codec, Dict(w)));
  }

  /** The `except` clause: the flag, then the flags read, then the setter
      (its own metadata read, like the repeated flags reads of the clause,
      is served by the cache). */
  method FlagError(f: Files, fs: Fs, codec: Codec, e: Error) returns (fs': Fs, err: Option<Error>, order: seq<string>)
    modifies f
    ensures var m := View(old(f.jsonCache), f.filesPath, fs, codec, MetadataMixin.MetadataJson);
      && (fs', err) == Flagged(e, m, fs, f.filesPath, codec, order)
      && (NewFlags(e, m).Some? ==> forall s :: s in order <==> s in NewFlags(e, m).value)
  {
    var flag := FlagsMixin.FromYtDlpError(e);
    if flag.None? {
      return fs, Some(e), [];
    }
    LoadAgain(f.textCache, f.jsonCache, f.filesPath, fs, codec, MetadataMixin.MetadataJson);
    var flags := FlagsMixin.GetFlags(f, fs, codec);
    if flags.Err? {
      return fs, Some(flags.error), [];
    }
    fs', err, order := FlagsMixin.SetFlags(f, fs, codec, Strings(flags.value) + {flag.value});
  }

  /** `fetch_youtube(download_subtitles=langs)`: the download is the
      outcome `download` gives for the video's YouTube id, `now` is the
      current instant and `storedLangs` the languages of the stored YouTube
      subtitle items. */
  method FetchYoutube(f: Files, fs: Fs, codec: Codec, parse: Value -> Result<Stamp>, download: Value -> Option<Error>,
                      langs: seq<string>, now: real, storedLangs: Result<set<Value>>)
    returns (fs': Fs, err: Option<Error>, order: seq<string>)
    modifies f
    ensures (fs', err) == FetchSpec(old(f.jsonCache), f.filesPath, fs, codec, parse, download, langs, now, storedLangs, order)
    ensures var c := old(f.jsonCache);
      var d := Fetched(View(c, f.filesPath, fs, codec, HolodexMixin.HolodexJson), View(c, f.filesPath, fs, codec, HolodexMixin.YoutubeJson), parse, download);
      var m := View(c, f.filesPath, fs, codec, MetadataMixin.MetadataJson);
      d.Ok? && d.value.Some? && NewFlags(d.value.value, m).Some? ==> forall s :: s in order <==> s in NewFlags(d.value.value, m).value
  {
    ghost var c := f.jsonCache;
    ghost var h := View(c, f.filesPath, fs, codec, HolodexMixin.HolodexJson);
    ghost var y := View(c, f.filesPath, fs, codec, HolodexMixin.YoutubeJson);
    ghost var m := View(c, f.filesPath, fs, codec, MetadataMixin.MetadataJson);
    order := [];
    var d := ReadAndDownload(f, fs, codec, parse, download);
    assert d == Fetched(h, y, parse, download);
    if d.Err? {
      return fs, Some(d.error), [];
    }
    if d.value.Some? {
      fs', err, order := FlagError(f, fs, codec, d.value.value);
      return;
    }
    if langs == [] {
      return fs, None, [];
    }
    fs', err := SkipMissing(f, fs, codec, parse, now, SkipDays, langs, storedLangs);
  }

  /** The `try` body of `fetch_youtube` up to the download's outcome: the
      logged `published_at`, then `youtube_id` (the Holodex info is read
      only when the YouTube one is empty), then the download of that id. */
  method ReadAndDownload(f: Files, fs: Fs, codec: Codec, parse: Value -> Result<Stamp>, download: Value -> Option<Error>)
    returns (d: Result<Option<Error>>)
    modifies f
    ensures d == Fetched(View(old(f.jsonCache), f.filesPath, fs, codec, HolodexMixin.HolodexJson),
                         View(old(f.jsonCache), f.filesPath, fs, codec, HolodexMixin.YoutubeJson), parse, download)
    ensures ViewsKept(old(f.jsonCache), f.jsonCache, f.filesPath, fs, codec)
  {
    var published := ReadPublishedAt(f, fs, codec, parse);
    if published.Err? {
      return Err(published.error);
    }
    ReadKeepsViews(f.textCache, f.jsonCache, f.filesPath, fs, codec, HolodexMixin.YoutubeJson);
    var y := HolodexMixin.GetYoutubeInfo(f, fs, codec);
    var h: Result<Option<Object>> := Ok(None);
    if y.Ok? && !HolodexMixin.Filled(y.value) {
      ReadKeepsViews(f.textCache, f.jsonCache, f.filesPath, fs, codec, HolodexMixin.HolodexJson);
      h := HolodexMixin.GetHolodexInfo(f, fs, codec);
    }
    var id := HolodexMixin.YoutubeId(h, y);
    if id.Err? {
      return Err(id.error);
    }
    d := Ok(download(id.value));
  }
}
