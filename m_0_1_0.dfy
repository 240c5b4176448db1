/** `migrate_0_1_0` of the migrations package, whose record conversion
    `Storage` also runs inline: channel and video metadata get `flags`
    instead of booleans, a video's skipped subtitle languages become
    `youtube_subtitles` marked "missing", the files under a video's
    `subtitles/` become subtitle content items under `content/`, and its
    `.gitignore` follows the rename. */
module Migration010 {
  import opened Wrappers
  import opened JsonValue
  import opened Text
  import opened Disk
  import opened MigrationSteps
  import FlagsMixin

  const MetadataJson := "metadata.json"
  const Content := "content"
  const Subtitles := "subtitles"
  const Gitignore := ".gitignore"

  /** A channel's metadata in the 0.2.0 format: `refresh_holodex_info`
      and `refresh_videos` (true when absent) are dropped, and each that
      was falsy becomes the flag holodex-preserve, respectively
      mentions-only. Metadata that is not an object cannot take the new key
      (TypeError). */
  function ChannelMetadata(v: Value): (r: Result<Object>)
    ensures r.Ok? <==> v.Dict?
    ensures r.Err? ==> r.error.TypeError?
    ensures r.Ok? ==> r.value.Keys == v.fields.Keys - {"refresh_holodex_info", "refresh_videos"} + {"flags"}
    ensures r.Ok? ==> r.value["flags"].Set? && forall f :: f in Strings(r.value["flags"].elems) <==>
      || (f == FlagsMixin.HolodexPreserve && !Truthy(GetOr(v.fields, "refresh_holodex_info", Bool(true))))
      || (f == FlagsMixin.MentionsOnly && !Truthy(GetOr(v.fields, "refresh_videos", Bool(true))))
    ensures r.Ok? ==> forall k :: k in v.fields && k !in {"refresh_holodex_info", "refresh_videos", "flags"} ==>
      r.value[k] == v.fields[k]
  {
    var md :- AsObject(v);
    var (refreshInfo, md1) := Pop(md, "refresh_holodex_info", Bool(true));
    var (refreshVideos, md2) := Pop(md1, "refresh_videos", Bool(true));
    var flags := (if Truthy(refreshInfo) then {} else {FlagsMixin.HolodexPreserve})
      + (if Truthy(refreshVideos) then {} else {FlagsMixin.MentionsOnly});
    Ok(md2["flags" := StrSet(flags)])
  }

  /** `youtube_subtitles` from `skip_subtitles`: every listed language but
      "all" (a video without any subtitles) is "missing". */
  function MissingLangs(skip: Value): (r: Result<map<string, Value>>)
    ensures r.Ok? <==> skip.List? && forall i :: 0 <= i < |skip.items| ==> skip.items[i].Str?
    ensures r.Err? ==> r.error.TypeError?
    ensures r.Ok? ==> forall l :: l in r.value <==> l != "all" && Str(l) in skip.items
    ensures r.Ok? ==> forall l :: l in r.value ==> r.value[l] == Str("missing")
  {
    if skip.List? && forall i :: 0 <= i < |skip.items| ==> skip.items[i].Str? then
      Ok(map x | x in skip.items && x.Str? && x.s != "all" :: x.s := Str("missing"))
    else Err(TypeError("skip_subtitles is not a list of strings"))
  }

  /** A video's metadata in the 0.2.0 format: `members_only` (false when
      absent) becomes the flag youtube-membership, `skip_subtitles` (empty
      when absent) becomes `youtube_subtitles` when it names a language
      other than "all", and every other key is kept. */
  function VideoMetadata(v: Value): (r: Result<Object>)
    ensures r.Ok? <==> v.Dict? && MissingLangs(GetOr(v.fields, "skip_subtitles", List([]))).Ok?
    ensures r.Err? ==> r.error.TypeError?
    ensures r.Ok? ==>
      var missing := MissingLangs(GetOr(v.fields, "skip_subtitles", List([]))).value;
      forall k :: k in r.value <==>
        || (k in v.fields && k != "members_only" && k != "skip_subtitles")
        || k == "flags"
        || (k == "youtube_subtitles" && missing != map[])
    ensures r.Ok? ==> ("flags" in r.value && r.value["flags"].Set? &&
      Strings(r.value["flags"].elems) ==
        (if Truthy(GetOr(v.fields, "members_only", Bool(false))) then {FlagsMixin.YoutubeMembership} else {}))
    ensures r.Ok? ==>
      var missing := MissingLangs(GetOr(v.fields, "skip_subtitles", List([]))).value;
      missing != map[] ==> "youtube_subtitles" in r.value && r.value["youtube_subtitles"] == Dict(missing)
    ensures r.Ok? ==> forall k :: (k in v.fields && k !in {"members_only", "skip_subtitles", "flags"} &&
      (k != "youtube_subtitles" || MissingLangs(GetOr(v.fields, "skip_subtitles", List([]))).value == map[])) ==>
      k in r.value && r.value[k] == v.fields[k]
  {
    var md :- AsObject(v);
    var missing :- MissingLangs(GetOr(md, "skip_subtitles", List([])));
    var flags := if Truthy(GetOr(md, "members_only", Bool(false))) then {FlagsMixin.YoutubeMembership} else {};
    var md1 := (md - {"members_only", "skip_subtitles"})["flags" := StrSet(flags)];
    Ok(if missing != map[] then md1["youtube_subtitles" := Dict(missing)] else md1)
  }

  /** `name.split(".")` unpacked into source, language and extension:
      ValueError unless the name has exactly two dots; the three parts
      joined by dots give the name back. */
  function SubtitleName(name: string): (r: Result<(string, string, string)>)
    ensures r.Ok? <==> Count(name, '.') == 2
    ensures r.Err? ==> r.error.ValueError?
    ensures r.Ok? ==> name == r.value.0 + "." + r.value.1 + "." + r.value.2
    ensures r.Ok? ==> '.' !in r.value.0 && '.' !in r.value.1 && '.' !in r.value.2
  {
    var parts := Split(name, '.');
    SplitCount(name, '.');
    if |parts| != 3 then Err(ValueError("wrong number of values to unpack"))
    else
      SplitJoin(name, '.');
      assert Join(parts, ".") == parts[0] + "." + (parts[1] + "." + parts[2]) by {
        assert parts[1..][1..] == [parts[2]];
        assert Join(parts[1..], ".") == parts[1] + "." + Join([parts[2]], ".");
      }
      Ok((parts[0], parts[1], parts[2]))
  }

  /** The content ID of the subtitle item a file moves to. */
  function ContentId(source: string, lang: string): string {
    source + "-subtitles-" + lang
  }

  /** The metadata of the subtitle item made from the file `name`. */
  function SubtitleMetadata(source: string, lang: string, name: string): Object {
    map["item_type" := Str("subtitle"), "source" := Str(source), "lang" := Str(lang), "subtitle_file" := Str(name)]
  }

  /** One entry `name` of a video's `subtitles/`: the item directory
      `content/<source>-subtitles-<lang>` is made, the file is copied into
      it under its own name next to the item's `metadata.json`, and the
      original is removed. */
  function SubtitleStep(codec: Codec, fs: Fs, recordP: Path, name: string): (r: Result<Fs>)
    ensures r.Ok? ==> SubtitleName(name).Ok? && IsFile(fs, recordP + [Subtitles, name])
  {
    var (source, lang, _) :- SubtitleName(name);
    var itemP := recordP + [Content, ContentId(source, lang)];
    var fs1 :- Mkdir(fs, itemP, true, true);
    var bytes :- ReadText(fs1, recordP + [Subtitles, name]);
    var fs2 :- WriteText(fs1, itemP + [name], bytes);
    var fs3 :- WriteText(fs2, itemP + [MetadataJson], codec.dumps(Dict(SubtitleMetadata(source, lang, name))));
    Unlink(fs3, recordP + [Subtitles, name], false)
  }

  /** No subtitle file name, with its two dots, is "metadata.json", which
      has one. */
  lemma {:induction false} NotMetadataName(source: string, lang: string, ext: string)
    requires '.' !in source && '.' !in lang
    ensures source + "." + lang + "." + ext != MetadataJson
  {
    var n := source + "." + lang + "." + ext;
    if n == MetadataJson {
      assert n[|source|] == '.' && n[|source| + 1 + |lang|] == '.';
      assert forall i | 0 <= i < |MetadataJson| && i != 8 :: MetadataJson[i] != '.';
    }
  }

  /** What a successful move leaves: the item directory, holding the
      subtitle item's metadata and a copy of the file under its own name,
      and no original. */
  lemma {:induction false} SubtitleMoved(codec: Codec, fs: Fs, recordP: Path, name: string)
    requires SubtitleStep(codec, fs, recordP, name).Ok?
    ensures
      var parts := SubtitleName(name).value;
      var itemP := recordP + [Content, ContentId(parts.0, parts.1)];
      var fs' := SubtitleStep(codec, fs, recordP, name).value;
      && IsDir(fs', itemP)
      && recordP + [Subtitles, name] !in fs'
      && fs'[itemP + [MetadataJson]] == File(codec.dumps(Dict(SubtitleMetadata(parts.0, parts.1, name))))
      && fs'[itemP + [name]] == fs[recordP + [Subtitles, name]]
  {
    var parts := SubtitleName(name).value;
    var itemP := recordP + [Content, ContentId(parts.0, parts.1)];
    var src := recordP + [Subtitles, name];
    assert src != itemP + [name] && src != itemP + [MetadataJson] by {
      assert src[|recordP|] == Subtitles;
      assert (itemP + [name])[|recordP|] == Content;
      assert (itemP + [MetadataJson])[|recordP|] == Content;
    }
    assert name != MetadataJson by {
      NotMetadataName(parts.0, parts.1, parts.2);
    }
    var fs1 := Mkdir(fs, itemP, true, true).value;
    assert fs1[src] == fs[src];
  }

  /** The entries `names` of `subtitles/`, moved in the order given; the
      first failure stops. */
  function SubtitlesFold(codec: Codec, fs: Fs, recordP: Path, names: seq<string>): (Fs, Option<Error>)
    decreases |names|
  {
    if names == [] then (fs, None)
    else match SubtitleStep(codec, fs, recordP, names[0])
      case Err(e) => (fs, Some(e))
      case Ok(fs1) => SubtitlesFold(codec, fs1, recordP, names[1..])
  }

  /** A video's `subtitles/`, when it exists, becomes content: `content/`
      is made, the entries are moved in the order `order`, and the emptied
      `subtitles/` is removed. */
  function MoveSubtitlesSpec(codec: Codec, fs: Fs, recordP: Path, order: seq<string>): (Fs, Option<Error>) {
    var subP := recordP + [Subtitles];
    if subP !in fs then (fs, None)
    else match Mkdir(fs, recordP + [Content], true, true)
      case Err(e) => (fs, Some(e))
      case Ok(fs1) =>
        match Scandir(fs1, subP)
        case Err(e) => (fs1, Some(e))
        case Ok(_) =>
          var (fs2, err) := SubtitlesFold(codec, fs1, recordP, order);
          if err.Some? then (fs2, err)
          else match Rmdir(fs2, subP)
            case Err(e) => (fs2, Some(e))
            case Ok(fs3) => (fs3, None)
  }

  /** `order` lists the entries of `subtitles/` as they were when the walk
      listed them. */
  ghost predicate SubFits(fs: Fs, recordP: Path, order: seq<string>) {
    var made := Mkdir(fs, recordP + [Content], true, true);
    recordP + [Subtitles] in fs && made.Ok? && IsDir(made.value, recordP + [Subtitles]) ==>
      IsListing(order, Children(made.value, recordP + [Subtitles]))
  }

  /** A successful move leaves no `subtitles/` behind. */
  lemma {:induction false} SubtitlesRemoved(codec: Codec, fs: Fs, recordP: Path, order: seq<string>)
    requires MoveSubtitlesSpec(codec, fs, recordP, order).1.None?
    ensures recordP + [Subtitles] !in MoveSubtitlesSpec(codec, fs, recordP, order).0
  {
  }

  /** The `.gitignore` of a record, when it exists, ignores `/content`
      where it ignored `/subtitles`. */
  function GitignoreStep(fs: Fs, recordP: Path): (r: Result<Fs>)
    ensures recordP + [Gitignore] !in fs ==> r == Ok(fs)
    ensures r.Ok? && recordP + [Gitignore] in fs ==> (IsFile(fs, recordP + [Gitignore]) &&
      r.value == fs[recordP + [Gitignore] := File(Replace(fs[recordP + [Gitignore]].text, "/subtitles\n", "/content\n"))])
  {
    var p := recordP + [Gitignore];
    if p !in fs then Ok(fs)
    else
      var text :- ReadText(fs, p);
      WriteText(fs, p, Replace(text, "/subtitles\n", "/content\n"))
  }

  /** A `.gitignore` that does not ignore `/subtitles` is written back as
      it was. */
  lemma {:induction false} GitignoreKept(fs: Fs, recordP: Path)
    requires IsFile(fs, recordP + [Gitignore])
    requires !Contains(fs[recordP + [Gitignore]].text, "/subtitles\n")
    requires IsDir(fs, recordP)
    ensures GitignoreStep(fs, recordP) == Ok(fs)
  {
    var p := recordP + [Gitignore];
    ReplaceAbsent(fs[p].text, "/subtitles\n", "/content\n");
    assert Parent(p) == recordP;
    assert fs[p := File(fs[p].text)] == fs;
  }

  /** A record's `metadata.json`, when it is a file, converted by
      `convert` and written back with `json_dumps`; the converted metadata
      is returned with the new file system. */
  function MetadataStep(codec: Codec, convert: Value -> Result<Object>, fs: Fs, recordP: Path): (r: Result<(Fs, Option<Object>)>)
    ensures !IsFile(fs, recordP + [MetadataJson]) ==> r == Ok((fs, None))
    ensures r.Ok? && IsFile(fs, recordP + [MetadataJson]) ==>
      && Loads(codec, fs[recordP + [MetadataJson]].text).Ok?
      && convert(Loads(codec, fs[recordP + [MetadataJson]].text).value).Ok?
      && r.value.1 == Some(convert(Loads(codec, fs[recordP + [MetadataJson]].text).value).value)
      && r.value.0 == fs[recordP + [MetadataJson] := File(codec.dumps(Dict(r.value.1.value)))]
  {
    var p := recordP + [MetadataJson];
    if !IsFile(fs, p) then Ok((fs, None))
    else
      var v :- Loads(codec, fs[p].text);
      var md :- convert(v);
      var fs1 :- WriteText(fs, p, codec.dumps(Dict(md)));
      Ok((fs1, Some(md)))
  }

  /** Where a walk stopped: the file system, the failure, and the
      metadata of the last record whose `metadata.json` was converted. */
  datatype Walked = Walked(fs: Fs, err: Option<Error>, last: Option<Object>)

  function Latest(earlier: Option<Object>, later: Option<Object>): Option<Object> {
    if later.Some? then later else earlier
  }

  /** The channel table's records `names`, converted in the order given. */
  function ChannelsFold(codec: Codec, fs: Fs, tableP: Path, names: seq<string>): Walked
    decreases |names|
  {
    if names == [] then Walked(fs, None, None)
    else
      var w := ChannelsFold(codec, fs, tableP, names[..|names| - 1]);
      if w.err.Some? then w
      else match MetadataStep(codec, ChannelMetadata, w.fs, tableP + [names[|names| - 1]])
        case Err(e) => Walked(w.fs, Some(e), w.last)
        case Ok((fs1, last)) => Walked(fs1, None, Latest(w.last, last))
  }

  /** A record's `metadata.json` below the table tableP. */
  predicate RecordMetadataPath(tableP: Path, p: Path) {
    |p| == |tableP| + 2 && p[..|tableP|] == tableP && p[|tableP| + 1] == MetadataJson
  }

  /** The channel walk rewrites the channels' `metadata.json` files and
      nothing else: no entry appears or disappears, and every other entry
      keeps its contents. */
  lemma {:induction false} ChannelsFoldFrame(codec: Codec, fs: Fs, tableP: Path, names: seq<string>)
    ensures ChannelsFold(codec, fs, tableP, names).fs.Keys == fs.Keys
    ensures forall p :: p in fs && !RecordMetadataPath(tableP, p) ==> ChannelsFold(codec, fs, tableP, names).fs[p] == fs[p]
    decreases |names|
  {
    if names != [] {
      ChannelsFoldFrame(codec, fs, tableP, names[..|names| - 1]);
      var w := ChannelsFold(codec, fs, tableP, names[..|names| - 1]);
      var recordP := tableP + [names[|names| - 1]];
      assert RecordMetadataPath(tableP, recordP + [MetadataJson]) by {
        assert (recordP + [MetadataJson])[..|tableP|] == tableP;
      }
    }
  }

  /** One record of the video table: its metadata, its subtitles, then
      its `.gitignore`. */
  function VideoRecordSpec(codec: Codec, fs: Fs, recordP: Path, order: seq<string>): Walked {
    match MetadataStep(codec, VideoMetadata, fs, recordP)
    case Err(e) => Walked(fs, Some(e), None)
    case Ok((fs1, last)) =>
      var (fs2, err) := MoveSubtitlesSpec(codec, fs1, recordP, order);
      if err.Some? then Walked(fs2, err, last)
      else match GitignoreStep(fs2, recordP)
        case Err(e) => Walked(fs2, Some(e), last)
        case Ok(fs3) => Walked(fs3, None, last)
  }

  ghost predicate RecordFits(codec: Codec, fs: Fs, recordP: Path, order: seq<string>) {
    var step := MetadataStep(codec, VideoMetadata, fs, recordP);
    step.Ok? ==> SubFits(step.value.0, recordP, order)
  }

  /** The video table's records `names`, converted in the order given,
      `orders[k]` being the order the k-th record's subtitles were moved
      in. */
  function VideosFold(codec: Codec, fs: Fs, tableP: Path, names: seq<string>, orders: seq<seq<string>>): Walked
    requires |orders| == |names|
    decreases |names|
  {
    if names == [] then Walked(fs, None, None)
    else
      var w := VideosFold(codec, fs, tableP, names[..|names| - 1], orders[..|orders| - 1]);
      if w.err.Some? then w
      else
        var v := VideoRecordSpec(codec, w.fs, tableP + [names[|names| - 1]], orders[|orders| - 1]);
        Walked(v.fs, v.err, Latest(w.last, v.last))
  }

  ghost predicate VideosFit(codec: Codec, fs: Fs, tableP: Path, names: seq<string>, orders: seq<seq<string>>)
    requires |orders| == |names|
    decreases |names|
  {
    names == [] ||
    (var w := VideosFold(codec, fs, tableP, names[..|names| - 1], orders[..|orders| - 1]);
     && VideosFit(codec, fs, tableP, names[..|names| - 1], orders[..|orders| - 1])
     && (w.err.None? ==> RecordFits(codec, w.fs, tableP + [names[|names| - 1]], orders[|orders| - 1])))
  }

  /** The whole record conversion: the channel table, then the video
      table; either missing is an OSError from `os.scandir`. */
  function Converted(codec: Codec, fs: Fs, storagePath: Path,
                     channels: seq<string>, videos: seq<string>, orders: seq<seq<string>>): Walked
    requires |orders| == |videos|
  {
    match Scandir(fs, storagePath + ["channel"])
    case Err(e) => Walked(fs, Some(e), None)
    case Ok(_) =>
      var c := ChannelsFold(codec, fs, storagePath + ["channel"], channels);
      if c.err.Some? then c
      else match Scandir(c.fs, storagePath + ["video"])
        case Err(e) => Walked(c.fs, Some(e), c.last)
        case Ok(_) =>
          var v := VideosFold(codec, c.fs, storagePath + ["video"], videos, orders);
          Walked(v.fs, v.err, Latest(c.last, v.last))
  }

  /** The orders of a conversion are those of the directory listings it
      made: each table's records once each, all of them unless the walk
      stopped, and each video's subtitles as `VideosFit` states. */
  ghost predicate ConvertedFits(codec: Codec, fs: Fs, storagePath: Path,
                                channels: seq<string>, videos: seq<string>, orders: seq<seq<string>>)
    requires |orders| == |videos|
  {
    var channelP := storagePath + ["channel"];
    var videoP := storagePath + ["video"];
    var c := ChannelsFold(codec, fs, channelP, channels);
    IsDir(fs, channelP) ==>
      && Visited(channels, Children(fs, channelP), c.err.None?)
      && (c.err.None? && IsDir(c.fs, videoP) ==>
            && Visited(videos, Children(c.fs, videoP), VideosFold(codec, c.fs, videoP, videos, orders).err.None?)
            && VideosFit(codec, c.fs, videoP, videos, orders))
  }

  /** The subtitles of the video at recordP. */
  method MoveSubtitles(fs: Fs, codec: Codec, recordP: Path) returns (fs': Fs, err: Option<Error>, ghost order: seq<string>)
    ensures SubFits(fs, recordP, order)
    ensures (fs', err) == MoveSubtitlesSpec(codec, fs, recordP, order)
  {
    order := [];
    var subP := recordP + [Subtitles];
    if subP !in fs {
      return fs, None, order;
    }
    var made := Mkdir(fs, recordP + [Content], true, true);
    if made.Err? {
      return fs, Some(made.error), order;
    }
    fs' := made.value;
    var listed := Scandir(fs', subP);
    if listed.Err? {
      return fs', Some(listed.error), order;
    }
    var names := Listing(listed.value);
    order := names;
    ghost var fs1 := fs';
    var i := 0;
    while i < |names|
      invariant 0 <= i <= |names|
      invariant SubtitlesFold(codec, fs1, recordP, names) == SubtitlesFold(codec, fs', recordP, names[i..])
    {
      assert names[i..][0] == names[i] && names[i..][1..] == names[i + 1..];
      var step := SubtitleStep(codec, fs', recordP, names[i]);
      if step.Err? {
        return fs', Some(step.error), order;
      }
      fs' := step.value;
      i := i + 1;
    }
    var removed := Rmdir(fs', subP);
    if removed.Err? {
      return fs', Some(removed.error), order;
    }
    fs' := removed.value;
    err := None;
  }

  /** One record of the video table. */
  method VisitVideoRecord(fs: Fs, codec: Codec, recordP: Path) returns (w: Walked, ghost order: seq<string>)
    ensures RecordFits(codec, fs, recordP, order)
    ensures w == VideoRecordSpec(codec, fs, recordP, order)
  {
    order := [];
    var step := MetadataStep(codec, VideoMetadata, fs, recordP);
    if step.Err? {
      return Walked(fs, Some(step.error), None), order;
    }
    var (fs1, last) := step.value;
    var fs2, err;
    fs2, err, order := MoveSubtitles(fs1, codec, recordP);
    if err.Some? {
      return Walked(fs2, err, last), order;
    }
    var g := GitignoreStep(fs2, recordP);
    if g.Err? {
      return Walked(fs2, Some(g.error), last), order;
    }
    w := Walked(g.value, None, last);
  }

  /** The channel table at tableP, a directory. */
  method WalkChannels(fs: Fs, codec: Codec, tableP: Path) returns (w: Walked, ghost names: seq<string>)
    requires IsDir(fs, tableP)
    ensures Visited(names, Children(fs, tableP), w.err.None?)
    ensures w == ChannelsFold(codec, fs, tableP, names)
  {
    var listed := Listing(Children(fs, tableP));
    w := Walked(fs, None, None);
    names := [];
    var i := 0;
    while i < |listed|
      invariant 0 <= i <= |listed|
      invariant names == listed[..i]
      invariant w.err.None? && w == ChannelsFold(codec, fs, tableP, names)
    {
      var step := MetadataStep(codec, ChannelMetadata, w.fs, tableP + [listed[i]]);
      ghost var names' := names + [listed[i]];
      assert names'[..|names'| - 1] == names;
      assert listed[..i + 1] == names';
      names := names';
      if step.Err? {
        return Walked(w.fs, Some(step.error), w.last), names;
      }
      w := Walked(step.value.0, None, Latest(w.last, step.value.1));
      i := i + 1;
    }
    assert listed[..i] == listed;
  }

  /** Converting one more video record extends the fold by that record. */
  lemma {:induction false} VideosStep(codec: Codec, fs: Fs, tableP: Path, names: seq<string>, orders: seq<seq<string>>,
                   name: string, order: seq<string>, v: Walked)
    requires |orders| == |names| && VideosFit(codec, fs, tableP, names, orders)
    requires VideosFold(codec, fs, tableP, names, orders).err.None?
    requires RecordFits(codec, VideosFold(codec, fs, tableP, names, orders).fs, tableP + [name], order)
    requires v == VideoRecordSpec(codec, VideosFold(codec, fs, tableP, names, orders).fs, tableP + [name], order)
    ensures VideosFit(codec, fs, tableP, names + [name], orders + [order])
    ensures VideosFold(codec, fs, tableP, names + [name], orders + [order])
         == Walked(v.fs, v.err, Latest(VideosFold(codec, fs, tableP, names, orders).last, v.last))
  {
    var names', orders' := names + [name], orders + [order];
    assert names'[..|names'| - 1] == names && orders'[..|orders'| - 1] == orders;
  }

  /** One pass of the loop over the video table: the record name is
      converted and the walk so far extended by it. */
  method WalkVideo(fs: Fs, codec: Codec, tableP: Path, ghost names: seq<string>, ghost orders: seq<seq<string>>,
                   name: string, w: Walked) returns (w': Walked, ghost order: seq<string>)
    requires |orders| == |names| && VideosFit(codec, fs, tableP, names, orders)
    requires w.err.None? && w == VideosFold(codec, fs, tableP, names, orders)
    ensures VideosFit(codec, fs, tableP, names + [name], orders + [order])
    ensures w' == VideosFold(codec, fs, tableP, names + [name], orders + [order])
  {
    var v;
    v, order := VisitVideoRecord(w.fs, codec, tableP + [name]);
    VideosStep(codec, fs, tableP, names, orders, name, order, v);
    w' := Walked(v.fs, v.err, Latest(w.last, v.last));
  }

  /** The video table at tableP, a directory. */
  method WalkVideos(fs: Fs, codec: Codec, tableP: Path) returns (w: Walked, ghost names: seq<string>, ghost orders: seq<seq<string>>)
    requires IsDir(fs, tableP)
    ensures |orders| == |names|
    ensures Visited(names, Children(fs, tableP), w.err.None?)
    ensures VideosFit(codec, fs, tableP, names, orders)
    ensures w == VideosFold(codec, fs, tableP, names, orders)
  {
    var listed := Listing(Children(fs, tableP));
    w := Walked(fs, None, None);
    names, orders := [], [];
    var i := 0;
    while i < |listed|
      invariant 0 <= i <= |listed|
      invariant names == listed[..i] && |orders| == i
      invariant VideosFit(codec, fs, tableP, names, orders)
      invariant w.err.None? && w == VideosFold(codec, fs, tableP, names, orders)
    {
      ghost var order;
      w, order := WalkVideo(fs, codec, tableP, names, orders, listed[i], w);
      assert listed[..i + 1] == names + [listed[i]];
      names, orders := names + [listed[i]], orders + [order];
      if w.err.Some? {
        return w, names, orders;
      }
      i := i + 1;
    }
    assert listed[..i] == listed;
  }

  /** The record conversion of the storage at storagePath. */
  method ConvertRecords(fs: Fs, codec: Codec, storagePath: Path)
    returns (w: Walked, ghost channels: seq<string>, ghost videos: seq<string>, ghost orders: seq<seq<string>>)
    ensures |orders| == |videos|
    ensures ConvertedFits(codec, fs, storagePath, channels, videos, orders)
    ensures w == Converted(codec, fs, storagePath, channels, videos, orders)
  {
    channels, videos, orders := [], [], [];
    var channelP := storagePath + ["channel"];
    var listed := Scandir(fs, channelP);
    if listed.Err? {
      return Walked(fs, Some(listed.error), None), channels, videos, orders;
    }
    var c;
    c, channels := WalkChannels(fs, codec, channelP);
    if c.err.Some? {
      return c, channels, videos, orders;
    }
    var videoP := storagePath + ["video"];
    var listedVideos := Scandir(c.fs, videoP);
    if listedVideos.Err? {
      return Walked(c.fs, Some(listedVideos.error), c.last), channels, videos, orders;
    }
    var v;
    v, videos, orders := WalkVideos(c.fs, codec, videoP);
    w := Walked(v.fs, v.err, Latest(c.last, v.last));
  }

  /** What `migrate_0_1_0` returns: `dict(metadata, version="0.2.0")`,
      where `metadata` names, by then, the last record metadata the walk
      converted, when there was one. */
  function Returned(metadata: Object, last: Option<Object>): Object {
    With(if last.Some? then last.value else metadata, "version", Str("0.2.0"))
  }

  /** `migrate_0_1_0` as written: at version 0.1.0 the records are
      converted as `Converted` states, and the result is `Returned`. Any
      other version leaves everything as it was. */
  method Migrate(fs: Fs, codec: Codec, storagePath: Path, metadata: Object)
    returns (fs': Fs, r: Result<Object>, ghost channels: seq<string>, ghost videos: seq<string>, ghost orders: seq<seq<string>>)
    ensures |orders| == |videos|
    ensures "version" !in metadata ==> fs' == fs && r == Err(KeyError("version"))
    ensures "version" in metadata && metadata["version"] != Str("0.1.0") ==> fs' == fs && r == Ok(metadata)
    ensures "version" in metadata && metadata["version"] == Str("0.1.0") ==>
      var w := Converted(codec, fs, storagePath, channels, videos, orders);
      && ConvertedFits(codec, fs, storagePath, channels, videos, orders)
      && fs' == w.fs
      && (r.Ok? <==> w.err.None?)
      && (r.Err? ==> r.error == w.err.value)
      && (r.Ok? ==> r.value == Returned(metadata, w.last))
  {
    channels, videos, orders := [], [], [];
    var at := AtVersion(metadata, "0.1.0");
    if at.Err? {
      return fs, Err(at.error), channels, videos, orders;
    }
    if !at.value {
      return fs, Ok(metadata), channels, videos, orders;
    }
    var w;
    w, channels, videos, orders := ConvertRecords(fs, codec, storagePath);
    fs' := w.fs;
    if w.err.Some? {
      return fs', Err(w.err.value), channels, videos, orders;
    }
    r := Ok(Returned(metadata, w.last));
  }

  /** A channel record whose metadata is an object is converted without
      error, and the converted metadata carries `flags`. */
  lemma {:induction false} ChannelStepFlags(codec: Codec, fs: Fs, recordP: Path, md: Object)
    requires IsDir(fs, recordP) && IsFile(fs, recordP + [MetadataJson])
    requires codec.loads(fs[recordP + [MetadataJson]].text) == Some(Dict(md))
    ensures MetadataStep(codec, ChannelMetadata, fs, recordP).Ok?
    ensures MetadataStep(codec, ChannelMetadata, fs, recordP).value.1.Some?
    ensures "flags" in MetadataStep(codec, ChannelMetadata, fs, recordP).value.1.value
    ensures MetadataStep(codec, ChannelMetadata, fs, recordP).value.0.Keys == fs.Keys
  {
    assert Parent(recordP + [MetadataJson]) == recordP;
    assert ChannelMetadata(Dict(md)).Ok?;
  }

  /** A walk over one channel is that channel's metadata step. */
  lemma {:induction false} OneChannel(codec: Codec, fs: Fs, tableP: Path, name: string)
    ensures ChannelsFold(codec, fs, tableP, [name]) ==
      match MetadataStep(codec, ChannelMetadata, fs, tableP + [name])
      case Err(e) => Walked(fs, Some(e), None)
      case Ok((fs1, last)) => Walked(fs1, None, last)
  {
    assert [name][..0] == [];
  }

  /** The step as written does not hand back the storage metadata: in a
      storage whose only channel has metadata that is an object, and whose
      video table is empty, it returns that channel's converted metadata,
      which carries `flags`, instead of the storage metadata (which has
      none) with the new version. */
  lemma {:induction false} ReturnsRecordMetadata(codec: Codec, fs: Fs, storagePath: Path, name: string, md: Object, metadata: Object)
    requires IsDir(fs, storagePath + ["channel"]) && IsDir(fs, storagePath + ["video"])
    requires Children(fs, storagePath + ["channel"]) == {name}
    requires IsDir(fs, storagePath + ["channel", name])
    requires IsFile(fs, storagePath + ["channel", name, MetadataJson])
    requires codec.loads(fs[storagePath + ["channel", name, MetadataJson]].text) == Some(Dict(md))
    requires "flags" !in metadata
    ensures IsListing([name], Children(fs, storagePath + ["channel"]))
    ensures Converted(codec, fs, storagePath, [name], [], []).err.None?
    ensures Returned(metadata, Converted(codec, fs, storagePath, [name], [], []).last) != With(metadata, "version", Str("0.2.0"))
  {
    var recordP := storagePath + ["channel"] + [name];
    assert recordP == storagePath + ["channel", name];
    assert recordP + [MetadataJson] == storagePath + ["channel", name, MetadataJson];
    ChannelStepFlags(codec, fs, recordP, md);
    OneChannel(codec, fs, storagePath + ["channel"], name);
    var step := MetadataStep(codec, ChannelMetadata, fs, recordP);
    var c := ChannelsFold(codec, fs, storagePath + ["channel"], [name]);
    assert c.fs == step.value.0 && c.err.None? && c.last == step.value.1;
    assert storagePath + ["video"] in fs;
    assert IsDir(c.fs, storagePath + ["video"]) by {
      ChannelsFoldFrame(codec, fs, storagePath + ["channel"], [name]);
      assert !RecordMetadataPath(storagePath + ["channel"], storagePath + ["video"]);
    }
    var w := Converted(codec, fs, storagePath, [name], [], []);
    assert w.last == step.value.1;
    assert "flags" in Returned(metadata, w.last);
  }
}
