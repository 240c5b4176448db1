/** The streams.rubyruby.net downloader's decision rules: the response
    status check, how the listed files are classified, which are selected
    and which are fetched. The HTTP requests, the progress logging and the
    temporary directory are left out. */
module RubyRubyTools {
  import opened Wrappers
  import opened JsonValue
  import opened Text

  datatype FileType = RubyRuby | Info | Description | Readme | Chat | VideoOnly | AudioOnly | Video | Thumbnail | Unsupported

  datatype RubyRubyFile = RubyRubyFile(fileType: FileType, fileName: string, fileSize: Value, url: Value, path: Option<string>)

  /** The part of a file name after its first "." (the whole name when it has none). */
  function AfterFirstDot(name: string): (r: string)
    ensures '.' !in name ==> r == name
    ensures '.' in name ==> exists i | 0 <= i < |name| :: name[i] == '.' && '.' !in name[..i] && r == name[i + 1..]
  {
    var parts := SplitOnce(name, '.');
    parts[|parts| - 1]
  }

  /** The condition of each classification rule. */
  predicate Matches(t: FileType, name: string, mime: string) {
    match t
    case AudioOnly => StartsWith(mime, "audio/")
    case Video => StartsWith(mime, "video/") && '+' in AfterFirstDot(name)
    case VideoOnly => StartsWith(mime, "video/")
    case Thumbnail => StartsWith(mime, "image/") || EndsWith(name, ".webp") || EndsWith(name, ".jpg") || EndsWith(name, ".png")
    case Chat => Contains(name, ".live_chat.json")
    case Info => EndsWith(name, ".info")
    case Description => EndsWith(name, ".description")
    case Readme => name == "README.md"
    case _ => false
  }

  /** The order in which the rules are tried. */
  function Priority(t: FileType): nat {
    match t
    case AudioOnly => 0
    case Video => 1
    case VideoOnly => 2
    case Thumbnail => 3
    case Chat => 4
    case Info => 5
    case Description => 6
    case Readme => 7
    case Unsupported => 8
    case RubyRuby => 9
  }

  /** The if/elif chain of `RubyRubyFile.from_data`: the first matching rule
      decides; with no match the file is "unsupported" when that is allowed
      and an error otherwise. */
  function Classify(name: string, mime: string, allowUnsupported: bool): (r: Result<FileType>)
    ensures r.Ok? ==> r.value == Unsupported || Matches(r.value, name, mime)
    ensures r.Ok? ==> forall t: FileType :: Priority(t) < Priority(r.value) ==> !Matches(t, name, mime)
    ensures r.Ok? ==> r.value != RubyRuby
    ensures r.Err? <==> !allowUnsupported && forall t: FileType :: !Matches(t, name, mime)
    ensures r.Err? ==> r.error.ValueError?
  {
    if Matches(AudioOnly, name, mime) then Ok(AudioOnly)
    else if Matches(Video, name, mime) then Ok(Video)
    else if Matches(VideoOnly, name, mime) then Ok(VideoOnly)
    else if Matches(Thumbnail, name, mime) then Ok(Thumbnail)
    else if Matches(Chat, name, mime) then Ok(Chat)
    else if Matches(Info, name, mime) then Ok(Info)
    else if Matches(Description, name, mime) then Ok(Description)
    else if Matches(Readme, name, mime) then Ok(Readme)
    else if allowUnsupported then Ok(Unsupported)
    else Err(ValueError("Unsupported rubyruby file"))
  }

  /** A JSON string, or AttributeError where Python would call a string
      method on something else. */
  function AsStr(v: Value): (r: Result<string>)
    ensures r.Ok? <==> v.Str?
    ensures r.Ok? ==> r.value == v.s
    ensures r.Err? ==> r.error.AttributeError?
  {
    if v.Str? then Ok(v.s) else Err(AttributeError("not a string"))
  }

  /** An entry holding every key `from_data` reads, with a string name and
      a string MIME type. */
  predicate Readable(data: Value) {
    && data.Dict?
    && "name" in data.fields && "file" in data.fields
    && "size" in data.fields && "@microsoft.graph.downloadUrl" in data.fields
    && data.fields["name"].Str?
    && data.fields["file"].Dict? && "mimeType" in data.fields["file"].fields
    && data.fields["file"].fields["mimeType"].Str?
  }

  function NameOf(data: Value): string
    requires Readable(data)
  {
    data.fields["name"].s
  }

  function MimeOf(data: Value): string
    requires Readable(data)
  {
    data.fields["file"].fields["mimeType"].s
  }

  /** `RubyRubyFile.from_data`: name and MIME type are read and classified
      first; the size and download URL are then required. */
  function FromData(data: Value, allowUnsupported: bool): (r: Result<RubyRubyFile>)
    ensures r.Ok? <==> Readable(data) && Classify(NameOf(data), MimeOf(data), allowUnsupported).Ok?
    ensures r.Ok? ==> r.value == RubyRubyFile(Classify(NameOf(data), MimeOf(data), allowUnsupported).value, NameOf(data),
                                              data.fields["size"], data.fields["@microsoft.graph.downloadUrl"], None)
    ensures data.Dict? && "name" !in data.fields ==> r == Err(KeyError("name"))
  {
    var d :- AsObject(data);
    var nameValue :- Get(d, "name");
    var fileValue :- Get(d, "file");
    var file :- AsObject(fileValue);
    var mimeValue :- Get(file, "mimeType");
    var mime :- AsStr(mimeValue);
    var name :- AsStr(nameValue);
    var t :- Classify(name, mime, allowUnsupported);
    var size :- Get(d, "size");
    var url :- Get(d, "@microsoft.graph.downloadUrl");
    Ok(RubyRubyFile(t, name, size, url, None))
  }

  /** The list comprehension over `rubyruby_info["files"]`: the first entry
      that fails fails the whole list. */
  function AllFiles(items: seq<Value>, allowUnsupported: bool): (r: Result<seq<RubyRubyFile>>)
    ensures r.Ok? <==> forall i :: 0 <= i < |items| ==> FromData(items[i], allowUnsupported).Ok?
    ensures r.Ok? ==> |r.value| == |items| && forall i :: 0 <= i < |items| ==> FromData(items[i], allowUnsupported) == Ok(r.value[i])
    decreases |items|
  {
    if items == [] then Ok([])
    else
      var first :- FromData(items[0], allowUnsupported);
      var rest :- AllFiles(items[1..], allowUnsupported);
      assert forall i :: 1 <= i < |items| ==> items[i] == items[1..][i - 1];
      Ok([first] + rest)
  }

  /** The status check after the listing request: 404 is RubyRubyNotFound,
      any other status from 400 up is RubyRubyError. */
  function CheckStatus(status: int): (r: Result<()>)
    ensures r.Ok? <==> status < 400
    ensures status == 404 ==> r == Err(RubyRubyNotFound)
    ensures status >= 400 && status != 404 ==> r == Err(RubyRubyError(status))
  {
    if status == 404 then Err(RubyRubyNotFound)
    else if status >= 400 then Err(RubyRubyError(status))
    else Ok(())
  }

  function OfType(files: seq<RubyRubyFile>, t: FileType): (r: seq<RubyRubyFile>)
    ensures forall x :: x in r <==> x in files && x.fileType == t
  {
    if files == [] then []
    else (if files[0].fileType == t then [files[0]] else []) + OfType(files[1..], t)
  }

  predicate HasType(files: seq<RubyRubyFile>, t: FileType) {
    exists i | 0 <= i < |files| :: files[i].fileType == t
  }

  /** The selection in `download_video`, written as the source builds it. */
  function Select(all: seq<RubyRubyFile>, downloadAudio: bool, downloadChat: bool): seq<RubyRubyFile> {
    var base := OfType(all, RubyRuby) + OfType(all, Info);
    var withAudio := if downloadAudio then base + OfType(all, AudioOnly) else base;
    var withVideo := if downloadAudio && !HasType(withAudio, AudioOnly) then withAudio + OfType(all, Video) else withAudio;
    if downloadChat then withVideo + OfType(all, Chat) else withVideo
  }

  /** What is selected: info files always, audio-only files when audio is
      wanted, videos when audio is wanted and there is no audio-only file,
      chat files when chat is wanted, and nothing else. */
  lemma {:induction false} SelectSpec(all: seq<RubyRubyFile>, downloadAudio: bool, downloadChat: bool, x: RubyRubyFile)
    requires forall i :: 0 <= i < |all| ==> all[i].fileType != RubyRuby
    ensures x in Select(all, downloadAudio, downloadChat) <==>
      x in all &&
      match x.fileType
      case Info => true
      case AudioOnly => downloadAudio
      case Video => downloadAudio && !HasType(all, AudioOnly)
      case Chat => downloadChat
      case _ => false
  {
    var base := OfType(all, RubyRuby) + OfType(all, Info);
    var withAudio := if downloadAudio then base + OfType(all, AudioOnly) else base;
    if downloadAudio {
      if HasType(all, AudioOnly) {
        var i :| 0 <= i < |all| && all[i].fileType == AudioOnly;
        assert all[i] in withAudio;
        var j :| 0 <= j < |withAudio| && withAudio[j] == all[i];
        assert HasType(withAudio, AudioOnly);
      } else {
        assert !HasType(withAudio, AudioOnly) by {
          forall j | 0 <= j < |withAudio|
            ensures withAudio[j].fileType != AudioOnly
          {
            assert withAudio[j] in withAudio;
          }
        }
      }
    }
  }

  /** Files read from the listing have no path yet, and neither has
      anything selected from them. */
  lemma {:induction false} SelectedHaveNoPath(all: seq<RubyRubyFile>, downloadAudio: bool, downloadChat: bool)
    requires forall i :: 0 <= i < |all| ==> all[i].path.None?
    ensures forall i :: 0 <= i < |Select(all, downloadAudio, downloadChat)| ==> Select(all, downloadAudio, downloadChat)[i].path.None?
  {
    var sel := Select(all, downloadAudio, downloadChat);
    forall i | 0 <= i < |sel|
      ensures sel[i].path.None?
    {
      var x := sel[i];
      assert x in sel;
      assert x in all;
    }
  }

  function LocalPath(dir: string, name: string): string {
    dir + "/" + name
  }

  /** The URLs requested for a list of files: those of the files without a path, in order. */
  function Fetched(files: seq<RubyRubyFile>): seq<Value> {
    if files == [] then []
    else (if files[0].path.None? then [files[0].url] else []) + Fetched(files[1..])
  }

  lemma {:induction false} FetchedSnoc(files: seq<RubyRubyFile>, f: RubyRubyFile)
    ensures Fetched(files + [f]) == Fetched(files) + (if f.path.None? then [f.url] else [])
    decreases |files|
  {
    if files == [] {
      assert [f][1..] == [];
    } else {
      var head := if files[0].path.None? then [files[0].url] else [];
      var tail := if f.path.None? then [f.url] else [];
      assert (files + [f])[0] == files[0];
      assert (files + [f])[1..] == files[1..] + [f];
      FetchedSnoc(files[1..], f);
      assert Fetched(files + [f]) == head + (Fetched(files[1..]) + tail);
      assert head + (Fetched(files[1..]) + tail) == (head + Fetched(files[1..])) + tail;
    }
  }

  /** The download loop: files without a path are fetched into the
      download directory; files with a path are skipped. */
  method DownloadAll(files: seq<RubyRubyFile>, dir: string) returns (fetched: seq<Value>, done: seq<RubyRubyFile>)
    ensures |done| == |files|
    ensures forall i :: 0 <= i < |files| ==>
      done[i] == (if files[i].path.Some? then files[i] else files[i].(path := Some(LocalPath(dir, files[i].fileName))))
    ensures fetched == Fetched(files)
  {
    fetched := [];
    done := [];
    for i := 0 to |files|
      invariant |done| == i
      invariant forall k :: 0 <= k < i ==>
        done[k] == (if files[k].path.Some? then files[k] else files[k].(path := Some(LocalPath(dir, files[k].fileName))))
      invariant fetched == Fetched(files[..i])
    {
      assert files[..i + 1] == files[..i] + [files[i]];
      FetchedSnoc(files[..i], files[i]);
      if files[i].path.Some? {
        done := done + [files[i]];
        continue;
      }
      fetched := fetched + [files[i].url];
      done := done + [files[i].(path := Some(LocalPath(dir, files[i].fileName)))];
    }
    assert files[..|files|] == files;
  }

  /** The tail of `download_video`: the listing is written and appended as
      a "rubyruby" file already on disk, then the selection is fetched. */
  method FetchSelection(sel: seq<RubyRubyFile>, videoId: string, dir: string)
    returns (done: seq<RubyRubyFile>, fetched: seq<Value>)
    requires forall i :: 0 <= i < |sel| ==> sel[i].path.None?
    ensures |done| == |sel| + 1
    ensures forall i :: 0 <= i < |sel| ==> done[i] == sel[i].(path := Some(LocalPath(dir, sel[i].fileName)))
    ensures done[|sel|] == RubyRubyFile(RubyRuby, videoId + ".rubyruby.json", Null, Null, Some(LocalPath(dir, videoId + ".rubyruby.json")))
    ensures forall i :: 0 <= i < |done| ==> done[i].path.Some?
    ensures fetched == Fetched(sel)
  {
    var name := videoId + ".rubyruby.json";
    var listing := RubyRubyFile(RubyRuby, name, Null, Null, Some(LocalPath(dir, name)));
    var files := sel + [listing];
    FetchedSnoc(sel, listing);
    fetched, done := DownloadAll(files, dir);
    assert forall i :: 0 <= i < |sel| ==> files[i] == sel[i];
    assert files[|sel|] == listing;
  }

  /** `download_video` without the network: the status is checked, the
      listed files classified and selected, the listing itself is added as
      a "rubyruby" file already on disk, and the rest are fetched. */
  method DownloadVideo(status: int, info: Value, videoId: string, downloadAudio: bool, downloadChat: bool,
                       allowUnsupported: bool, dir: string)
    returns (r: Result<seq<RubyRubyFile>>, fetched: seq<Value>)
    ensures status >= 400 ==> r == CheckStatus(status).PropagateFailure() && fetched == []
    ensures r.Ok? ==> (|r.value| >= 1 && r.value[|r.value| - 1] ==
      RubyRubyFile(RubyRuby, videoId + ".rubyruby.json", Null, Null, Some(LocalPath(dir, videoId + ".rubyruby.json"))))
    ensures r.Ok? ==> forall i :: 0 <= i < |r.value| ==> r.value[i].path.Some?
    ensures r.Ok? <==> status < 400 && info.Dict? && "files" in info.fields && info.fields["files"].List?
                       && AllFiles(info.fields["files"].items, allowUnsupported).Ok?
    ensures r.Ok? ==>
      var sel := Select(AllFiles(info.fields["files"].items, allowUnsupported).value, downloadAudio, downloadChat);
      && |r.value| == |sel| + 1
      && (forall i :: 0 <= i < |sel| ==> r.value[i] == sel[i].(path := Some(LocalPath(dir, sel[i].fileName))))
      && fetched == Fetched(sel)
  {
    var checked := CheckStatus(status);
    if checked.Err? {
      return Err(checked.error), [];
    }
    var d := AsObject(info);
    if d.Err? {
      return Err(d.error), [];
    }
    var filesValue := Get(d.value, "files");
    if filesValue.Err? {
      return Err(filesValue.error), [];
    }
    if !filesValue.value.List? {
      return Err(TypeError("files is not a list")), [];
    }
    var all := AllFiles(filesValue.value.items, allowUnsupported);
    if all.Err? {
      return Err(all.error), [];
    }
    var sel := Select(all.value, downloadAudio, downloadChat);
    assert forall i :: 0 <= i < |all.value| ==> all.value[i].path.None?;
    SelectedHaveNoPath(all.value, downloadAudio, downloadChat);
    var done;
    done, fetched := FetchSelection(sel, videoId, dir);
    return Ok(done), fetched;
  }
}
