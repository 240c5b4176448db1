/** The archive.ragtag.moe downloader's decision rules: how the files of a
    search hit are classified, which hits are accepted, which files are
    selected for download and which of them are fetched. The HTTP requests
    and the temporary directory are left out; a fetched file is recorded by
    the path it is written to. */
module RagtagTools {
  import opened Wrappers
  import opened JsonValue
  import opened Text

  datatype FileType = Ragtag | Info | Chat | VideoOnly | AudioOnly | Video | Thumbnail | Unsupported

  datatype RagtagFile = RagtagFile(fileType: FileType, fileName: string, fileSize: Value, url: Option<string>, path: Option<string>)

  const ContentHost: string := "https://content.archive.ragtag.moe/"

  /** What a hit says about its files: the video id, the drive base, the
      video and audio format ids and the file list. */
  datatype Header = Header(videoId: string, driveBase: string, videoFormat: string, audioFormat: string, files: seq<Value>)

  /** The condition of each classification rule. */
  predicate Matches(t: FileType, name: string, h: Header) {
    match t
    case Info => EndsWith(name, ".info.json")
    case Chat => EndsWith(name, ".chat.json") || EndsWith(name, ".live_chat.json")
    case VideoOnly => StartsWith(name, h.videoId + ".f" + h.videoFormat + ".")
    case AudioOnly => StartsWith(name, h.videoId + ".f" + h.audioFormat + ".")
    case Video => name == h.videoId + ".webm" || name == h.videoId + ".mp4" || name == h.videoId + ".mkv"
    case Thumbnail => EndsWith(name, ".webp") || EndsWith(name, ".jpg") || EndsWith(name, ".png")
    case _ => false
  }

  /** The order in which the rules are tried; the hit file and the fallback
      come last. */
  function Priority(t: FileType): nat {
    match t
    case Info => 0
    case Chat => 1
    case VideoOnly => 2
    case AudioOnly => 3
    case Video => 4
    case Thumbnail => 5
    case Unsupported => 6
    case Ragtag => 7
  }

  /** The if/elif chain of `RagtagFile.from_hit`: the first matching rule
      decides; with no match the file is "unsupported" when that is allowed
      and an error otherwise. */
  function Classify(name: string, h: Header, allowUnsupported: bool): (r: Result<FileType>)
    ensures r.Ok? ==> r.value == Unsupported || Matches(r.value, name, h)
    ensures r.Ok? ==> forall t: FileType :: Priority(t) < Priority(r.value) ==> !Matches(t, name, h)
    ensures r.Ok? ==> r.value != Ragtag
    ensures r.Err? <==> !allowUnsupported && forall t: FileType :: !Matches(t, name, h)
    ensures r.Err? ==> r.error.ValueError?
  {
    if Matches(Info, name, h) then Ok(Info)
    else if Matches(Chat, name, h) then Ok(Chat)
    else if Matches(VideoOnly, name, h) then Ok(VideoOnly)
    else if Matches(AudioOnly, name, h) then Ok(AudioOnly)
    else if Matches(Video, name, h) then Ok(Video)
    else if Matches(Thumbnail, name, h) then Ok(Thumbnail)
    else if allowUnsupported then Ok(Unsupported)
    else Err(ValueError("Unsupported ragtag file"))
  }

  /** A JSON string, or AttributeError where Python would call a string
      method on something else. */
  function AsStr(v: Value): (r: Result<string>)
    ensures r.Ok? <==> v.Str?
    ensures r.Ok? ==> r.value == v.s
    ensures r.Err? ==> r.error.AttributeError?
  {
    if v.Str? then Ok(v.s) else Err(AttributeError("not a string"))
  }

  /** What `for file_info in files` runs over: the items of a list; an
      empty dict or an empty string runs over nothing; anything else fails
      (a number or null is not iterable, and the keys of a non-empty dict
      or the characters of a non-empty string cannot be subscripted with
      "name"). */
  function FileItems(v: Value): Option<seq<Value>> {
    if v.List? then Some(v.items)
    else if v == Dict(map[]) || v == Str("") then Some([])
    else None
  }

  /** The `_source` object of a hit, when the hit is an object with one. */
  predicate HasSource(hit: Value) {
    hit.Dict? && "_source" in hit.fields && hit.fields["_source"].Dict?
  }

  /** What `from_hit` needs of a hit before it reads the file list: `_id`,
      `_source` with `drive_base`, a string `format_id` holding exactly one
      "+", and an iterable `files`. */
  predicate HeaderReadable(hit: Value) {
    && HasSource(hit)
    && "_id" in hit.fields
    && var src := hit.fields["_source"].fields;
    && "drive_base" in src
    && "format_id" in src && src["format_id"].Str?
    && |Split(src["format_id"].s, '+')| == 2
    && "files" in src && FileItems(src["files"]).Some?
  }

  /** The lookups at the top of `from_hit`: `_id`, `_source.drive_base`,
      `_source.format_id` split at "+" into exactly two ids, and
      `_source.files`. The id and the drive base are only formatted into
      f-strings, so a value that is not a string is used as `str` renders
      it. */
  function ReadHeader(codec: Codec, hit: Value): (r: Result<Header>)
    ensures r.Ok? <==> HeaderReadable(hit)
    ensures r.Ok? ==>
      var src := hit.fields["_source"].fields;
      var ids := Split(src["format_id"].s, '+');
      r.value == Header(PyStr(codec, hit.fields["_id"]), PyStr(codec, src["drive_base"]), ids[0], ids[1], FileItems(src["files"]).value)
    ensures r.Ok? ==> |Split(r.value.videoFormat + "+" + r.value.audioFormat, '+')| == 2
    ensures r.Ok? && hit.fields["_id"].Str? ==> r.value.videoId == hit.fields["_id"].s
  {
    var h :- AsObject(hit);
    var idValue :- Get(h, "_id");
    var sourceValue :- Get(h, "_source");
    var source :- AsObject(sourceValue);
    var driveValue :- Get(source, "drive_base");
    var formatValue :- Get(source, "format_id");
    var formatId :- AsStr(formatValue);
    var ids := Split(formatId, '+');
    if |ids| != 2 then Err(ValueError("not enough or too many values to unpack"))
    else
      var filesValue :- Get(source, "files");
      var items := FileItems(filesValue);
      if items.None? then Err(TypeError("files cannot be iterated as file entries"))
      else
        SplitJoin(formatId, '+');
        Ok(Header(PyStr(codec, idValue), PyStr(codec, driveValue), ids[0], ids[1], items.value))
  }

  /** `format_id` must hold exactly one "+". */
  lemma {:induction false} FormatNeedsOnePlus(formatId: string)
    ensures |Split(formatId, '+')| == 2 <==> Count(formatId, '+') == 1
  {
    SplitCount(formatId, '+');
  }

  /** The download URL of a file of the hit. */
  function FileUrl(h: Header, name: string): string {
    ContentHost + h.driveBase + "/" + h.videoId + "/" + name
  }

  /** One entry of the file list: its name classified, its size if given,
      its URL on the content host, no local path yet. */
  function FileEntry(info: Value, h: Header, allowUnsupported: bool): (r: Result<RagtagFile>)
    ensures r.Ok? ==> info.Dict? && "name" in info.fields && info.fields["name"] == Str(r.value.fileName)
    ensures r.Ok? ==> Classify(r.value.fileName, h, allowUnsupported) == Ok(r.value.fileType)
    ensures r.Ok? ==> r.value.url == Some(FileUrl(h, r.value.fileName)) && r.value.path == None
    ensures r.Ok? ==> r.value.fileSize == GetOr(info.fields, "size", Null)
  {
    var d :- AsObject(info);
    var nameValue :- Get(d, "name");
    var name :- AsStr(nameValue);
    var t :- Classify(name, h, allowUnsupported);
    Ok(RagtagFile(t, name, GetOr(d, "size", Null), Some(FileUrl(h, name)), None))
  }

  /** The files of a list of entries, each read with the same header; the
      first entry that fails fails them all. */
  function Entries(items: seq<Value>, h: Header, allowUnsupported: bool): (r: Result<seq<RagtagFile>>)
    ensures r.Ok? <==> forall i :: 0 <= i < |items| ==> FileEntry(items[i], h, allowUnsupported).Ok?
    ensures r.Ok? ==> |r.value| == |items| && forall i :: 0 <= i < |items| ==> FileEntry(items[i], h, allowUnsupported) == Ok(r.value[i])
    decreases |items|
  {
    if items == [] then Ok([])
    else
      var first :- FileEntry(items[0], h, allowUnsupported);
      var rest :- Entries(items[1..], h, allowUnsupported);
      assert forall i :: 1 <= i < |items| ==> items[i] == items[1..][i - 1];
      Ok([first] + rest)
  }

  /** Entries that each read as the corresponding file read as those files. */
  lemma {:induction false} EntriesAre(items: seq<Value>, h: Header, allowUnsupported: bool, files: seq<RagtagFile>)
    requires |files| == |items|
    requires forall k :: 0 <= k < |items| ==> FileEntry(items[k], h, allowUnsupported) == Ok(files[k])
    ensures Entries(items, h, allowUnsupported) == Ok(files)
  {
    var e := Entries(items, h, allowUnsupported);
    assert e.Ok? && |e.value| == |files|;
    forall k | 0 <= k < |files|
      ensures e.value[k] == files[k]
    {
      assert Ok(e.value[k]) == FileEntry(items[k], h, allowUnsupported);
    }
    assert e.value == files;
  }

  /** What `from_hit` returns, as a function of the hit. */
  function HitFiles(codec: Codec, hit: Value, allowUnsupported: bool): Result<seq<RagtagFile>> {
    var h :- ReadHeader(codec, hit);
    Entries(h.files, h, allowUnsupported)
  }

  /** `RagtagFile.from_hit`: one file per entry of the list, in order; the
      first entry that cannot be read or classified fails the whole hit. */
  method FromHit(codec: Codec, hit: Value, allowUnsupported: bool) returns (r: Result<seq<RagtagFile>>)
    ensures ReadHeader(codec, hit).Err? ==> r == Err(ReadHeader(codec, hit).error)
    ensures r.Ok? <==> ReadHeader(codec, hit).Ok? && forall i :: 0 <= i < |ReadHeader(codec, hit).value.files| ==>
                         FileEntry(ReadHeader(codec, hit).value.files[i], ReadHeader(codec, hit).value, allowUnsupported).Ok?
    ensures r.Ok? ==> |r.value| == |ReadHeader(codec, hit).value.files| &&
                      forall i :: 0 <= i < |r.value| ==>
                        FileEntry(ReadHeader(codec, hit).value.files[i], ReadHeader(codec, hit).value, allowUnsupported) == Ok(r.value[i])
    ensures r.Ok? <==> HitFiles(codec, hit, allowUnsupported).Ok?
    ensures r.Ok? ==> r.value == HitFiles(codec, hit, allowUnsupported).value
  {
    var header := ReadHeader(codec, hit);
    if header.Err? {
      return Err(header.error);
    }
    var h := header.value;
    r := ReadEntries(h.files, h, allowUnsupported);
  }

  /** The loop of `from_hit` over the file list: each entry is read in turn
      and appended; the first that fails ends the loop with its error. */
  method ReadEntries(items: seq<Value>, h: Header, allowUnsupported: bool) returns (r: Result<seq<RagtagFile>>)
    ensures r.Ok? <==> Entries(items, h, allowUnsupported).Ok?
    ensures r.Ok? ==> r.value == Entries(items, h, allowUnsupported).value
  {
    var fileList: seq<RagtagFile> := [];
    for i := 0 to |items|
      invariant |fileList| == i
      invariant forall k :: 0 <= k < i ==> FileEntry(items[k], h, allowUnsupported) == Ok(fileList[k])
    {
      var entry := FileEntry(items[i], h, allowUnsupported);
      if entry.Err? {
        return Err(entry.error);
      }
      fileList := fileList + [entry.value];
    }
    EntriesAre(items, h, allowUnsupported, fileList);
    return Ok(fileList);
  }

  /** The hit lookup of `download_video`: no hits is RagtagNotFound; the
      first hit is used and must come from the youtube-archive index and
      carry the requested id. `hits[0]` on a non-empty dict is KeyError, on
      a string it gives a character whose `.get` is AttributeError, and on
      a number TypeError; a first hit that is not a dict has no `.get`
      (AttributeError). */
  function PickHit(searchResult: Value, videoId: string): (r: Result<Value>)
    ensures r.Ok? ==> r.value.Dict? && r.value.fields.Keys >= {"_index", "_id"}
    ensures r.Ok? ==> r.value.fields["_index"] == Str("youtube-archive") && r.value.fields["_id"] == Str(videoId)
    ensures r.Ok? ==> Hits(searchResult).Ok? && Hits(searchResult).value.List? && |Hits(searchResult).value.items| >= 1 && Hits(searchResult).value.items[0] == r.value
    ensures r == Err(RagtagNotFound) <==> Hits(searchResult).Ok? && !Truthy(Hits(searchResult).value)
    ensures (Hits(searchResult).Ok? && Hits(searchResult).value.List? && Hits(searchResult).value.items != [] &&
             !Hits(searchResult).value.items[0].Dict?) ==> r.Err? && r.error.AttributeError?
  {
    var hits :- Hits(searchResult);
    if !Truthy(hits) then Err(RagtagNotFound)
    else if hits.Dict? then Err(KeyError("0"))
    else if hits.Str? then Err(AttributeError("'str' object has no attribute 'get'"))
    else if !hits.List? then Err(TypeError("object is not subscriptable"))
    else
      var hit := hits.items[0];
      if !hit.Dict? then Err(AttributeError("object has no attribute 'get'"))
      else if GetOr(hit.fields, "_index", Null) != Str("youtube-archive") then Err(ValueError("Unsupported hit _index"))
      else if GetOr(hit.fields, "_id", Null) != Str(videoId) then Err(ValueError("Unexpected video ID!"))
      else Ok(hit)
  }

  /** `search_result["hits"]["hits"]`. */
  function Hits(searchResult: Value): Result<Value> {
    var outer :- AsObject(searchResult);
    var hitsObject :- Get(outer, "hits");
    var inner :- AsObject(hitsObject);
    Get(inner, "hits")
  }

  function OfType(files: seq<RagtagFile>, t: FileType): (r: seq<RagtagFile>)
    ensures forall x :: x in r <==> x in files && x.fileType == t
    ensures |r| <= |files|
  {
    if files == [] then []
    else (if files[0].fileType == t then [files[0]] else []) + OfType(files[1..], t)
  }

  predicate HasType(files: seq<RagtagFile>, t: FileType) {
    exists i | 0 <= i < |files| :: files[i].fileType == t
  }

  /** The selection in `download_video`, written as the source builds it. */
  function Select(all: seq<RagtagFile>, downloadAudio: bool, downloadChat: bool): seq<RagtagFile> {
    var base := OfType(all, Ragtag) + OfType(all, Info);
    var withAudio := if downloadAudio then base + OfType(all, AudioOnly) else base;
    var withVideo := if downloadAudio && !HasType(withAudio, AudioOnly) then withAudio + OfType(all, Video) else withAudio;
    if downloadChat then withVideo + OfType(all, Chat) else withVideo
  }

  /** What is selected: info files always, audio-only files when audio is
      wanted, whole videos when audio is wanted and there is no audio-only
      file, chat files when chat is wanted, and nothing else. */
  lemma {:induction false} SelectSpec(all: seq<RagtagFile>, downloadAudio: bool, downloadChat: bool, x: RagtagFile)
    requires forall i :: 0 <= i < |all| ==> all[i].fileType != Ragtag
    ensures x in Select(all, downloadAudio, downloadChat) <==>
      x in all &&
      match x.fileType
      case Info => true
      case AudioOnly => downloadAudio
      case Video => downloadAudio && !HasType(all, AudioOnly)
      case Chat => downloadChat
      case _ => false
  {
    var base := OfType(all, Ragtag) + OfType(all, Info);
    var withAudio := if downloadAudio then base + OfType(all, AudioOnly) else base;
    if downloadAudio {
      if HasType(all, AudioOnly) {
        var i :| 0 <= i < |all| && all[i].fileType == AudioOnly;
        assert all[i] in withAudio;
        var j :| 0 <= j < |withAudio| && withAudio[j] == all[i];
        assert HasType(withAudio, AudioOnly);
      } else {
        assert !HasType(withAudio, AudioOnly) by {
          forall j | 0 <= j < |withAudio|
            ensures withAudio[j].fileType != AudioOnly
          {
            assert withAudio[j] in withAudio;
          }
        }
      }
    }
  }

  /** Files read from a hit have no path yet, and neither has anything
      selected from them. */
  lemma {:induction false} SelectedHaveNoPath(all: seq<RagtagFile>, downloadAudio: bool, downloadChat: bool)
    requires forall i :: 0 <= i < |all| ==> all[i].path.None?
    ensures forall i :: 0 <= i < |Select(all, downloadAudio, downloadChat)| ==> Select(all, downloadAudio, downloadChat)[i].path.None?
  {
    var sel := Select(all, downloadAudio, downloadChat);
    forall i | 0 <= i < |sel|
      ensures sel[i].path.None?
    {
      var x := sel[i];
      assert x in sel;
      assert x in all;
    }
  }

  lemma {:induction false} HitFilesHaveNoPath(codec: Codec, hit: Value, allowUnsupported: bool)
    requires HitFiles(codec, hit, allowUnsupported).Ok?
    ensures forall i :: 0 <= i < |HitFiles(codec, hit, allowUnsupported).value| ==> HitFiles(codec, hit, allowUnsupported).value[i].path.None?
  {
    var h := ReadHeader(codec, hit).value;
    var files := Entries(h.files, h, allowUnsupported).value;
    assert forall i :: 0 <= i < |files| ==> FileEntry(h.files[i], h, allowUnsupported) == Ok(files[i]);
  }

  /** The local path of a file in the download directory. */
  function LocalPath(dir: string, name: string): string {
    dir + "/" + name
  }

  /** The download loop: every file without a path is fetched from its URL
      into the download directory; files that have a path are left alone. */
  method DownloadAll(files: seq<RagtagFile>, dir: string) returns (fetched: seq<Option<string>>, done: seq<RagtagFile>)
    ensures |done| == |files|
    ensures forall i :: 0 <= i < |files| ==>
      done[i] == (if files[i].path.Some? then files[i] else files[i].(path := Some(LocalPath(dir, files[i].fileName))))
    ensures forall i :: 0 <= i < |done| ==> done[i].path.Some?
    ensures fetched == Fetched(files)
  {
    fetched := [];
    done := [];
    for i := 0 to |files|
      invariant |done| == i
      invariant forall k :: 0 <= k < i ==>
        done[k] == (if files[k].path.Some? then files[k] else files[k].(path := Some(LocalPath(dir, files[k].fileName))))
      invariant fetched == Fetched(files[..i])
    {
      assert files[..i + 1] == files[..i] + [files[i]];
      FetchedSnoc(files[..i], files[i]);
      if files[i].path.Some? {
        done := done + [files[i]];
        continue;
      }
      fetched := fetched + [files[i].url];
      done := done + [files[i].(path := Some(LocalPath(dir, files[i].fileName)))];
    }
    assert files[..|files|] == files;
  }

  /** The URLs requested for a list of files: those of the files without a path, in order. */
  function Fetched(files: seq<RagtagFile>): (r: seq<Option<string>>)
    ensures |r| <= |files|
  {
    if files == [] then []
    else (if files[0].path.None? then [files[0].url] else []) + Fetched(files[1..])
  }

  lemma {:induction false} FetchedSnoc(files: seq<RagtagFile>, f: RagtagFile)
    ensures Fetched(files + [f]) == Fetched(files) + (if f.path.None? then [f.url] else [])
    decreases |files|
  {
    if files == [] {
      assert Fetched([f])[..] == Fetched([f]);
      assert [f][1..] == [];
    } else {
      var head := if files[0].path.None? then [files[0].url] else [];
      var tail := if f.path.None? then [f.url] else [];
      assert (files + [f])[0] == files[0];
      assert (files + [f])[1..] == files[1..] + [f];
      FetchedSnoc(files[1..], f);
      assert Fetched(files + [f]) == head + (Fetched(files[1..]) + tail);
      assert head + (Fetched(files[1..]) + tail) == (head + Fetched(files[1..])) + tail;
    }
  }

  /** The tail of `download_video`: the hit is written and appended as a
      "ragtag" file already on disk, then the selection is fetched. */
  method FetchSelection(sel: seq<RagtagFile>, videoId: string, dir: string)
    returns (done: seq<RagtagFile>, fetched: seq<Option<string>>)
    requires forall i :: 0 <= i < |sel| ==> sel[i].path.None?
    ensures |done| == |sel| + 1
    ensures forall i :: 0 <= i < |sel| ==> done[i] == sel[i].(path := Some(LocalPath(dir, sel[i].fileName)))
    ensures done[|sel|] == RagtagFile(Ragtag, videoId + ".ragtag.json", Null, None, Some(LocalPath(dir, videoId + ".ragtag.json")))
    ensures forall i :: 0 <= i < |done| ==> done[i].path.Some?
    ensures fetched == Fetched(sel)
  {
    var hitName := videoId + ".ragtag.json";
    var hitFile := RagtagFile(Ragtag, hitName, Null, None, Some(LocalPath(dir, hitName)));
    var files := sel + [hitFile];
    FetchedSnoc(sel, hitFile);
    fetched, done := DownloadAll(files, dir);
    assert forall i :: 0 <= i < |sel| ==> files[i] == sel[i];
    assert files[|sel|] == hitFile;
  }

  /** `download_video` without the network: the hit is picked and
      checked, its files classified and selected, the hit itself is added as
      a "ragtag" file already on disk, and the rest are fetched. */
  method DownloadVideo(codec: Codec, searchResult: Value, videoId: string, downloadAudio: bool, downloadChat: bool,
                       allowUnsupported: bool, dir: string)
    returns (r: Result<seq<RagtagFile>>, fetched: seq<Option<string>>)
    ensures PickHit(searchResult, videoId).Err? ==> r == Err(PickHit(searchResult, videoId).error) && fetched == []
    ensures r.Ok? ==> (|r.value| >= 1 && r.value[|r.value| - 1] ==
      RagtagFile(Ragtag, videoId + ".ragtag.json", Null, None, Some(LocalPath(dir, videoId + ".ragtag.json"))))
    ensures r.Ok? ==> forall i :: 0 <= i < |r.value| ==> r.value[i].path.Some?
    ensures r.Ok? <==> PickHit(searchResult, videoId).Ok? && HitFiles(codec, PickHit(searchResult, videoId).value, allowUnsupported).Ok?
    ensures r.Ok? ==>
      var sel := Select(HitFiles(codec, PickHit(searchResult, videoId).value, allowUnsupported).value, downloadAudio, downloadChat);
      && |r.value| == |sel| + 1
      && (forall i :: 0 <= i < |sel| ==> r.value[i] == sel[i].(path := Some(LocalPath(dir, sel[i].fileName))))
      && fetched == Fetched(sel)
  {
    fetched := [];
    var hit := PickHit(searchResult, videoId);
    if hit.Err? {
      return Err(hit.error), [];
    }
    var all := FromHit(codec, hit.value, allowUnsupported);
    if all.Err? {
      return Err(all.error), [];
    }
    HitFilesHaveNoPath(codec, hit.value, allowUnsupported);
    SelectedHaveNoPath(all.value, downloadAudio, downloadChat);
    var done;
    done, fetched := FetchSelection(Select(all.value, downloadAudio, downloadChat), videoId, dir);
    return Ok(done), fetched;
  }
}
