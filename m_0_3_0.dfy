/** `migrate_0_3_0` of the migrations package: the storage is marked as
    public, and every subtitle and audio item of every video is renamed to
    its content ID, built from its type, its source, the checksum of its
    file and the file's name. */
module Migration030 {
  import opened Wrappers
  import opened JsonValue
  import opened Text
  import opened Disk
  import opened MigrationSteps

  const MetadataJson := "metadata.json"
  const Content := "content"

  const MissingParts := "At least one content ID part is required"

  /** The characters a content ID part keeps: the complement of the class
      `[^a-zA-Z0-9\-]`. */
  predicate Allowed(c: char) {
    ('a' <= c <= 'z') || ('A' <= c <= 'Z') || ('0' <= c <= '9') || c == '-'
  }

  predicate AllAllowed(s: string) {
    forall i :: 0 <= i < |s| ==> Allowed(s[i])
  }

  /** s without its leading run of characters that are not allowed. */
  function SkipRun(s: string): (r: string)
    ensures |r| <= |s|
    ensures r == [] || Allowed(r[0])
  {
    if s == [] || Allowed(s[0]) then s else SkipRun(s[1..])
  }

  /** `re.sub(r"[^a-zA-Z0-9\-]+", "-", s)`: every maximal run of characters
      that are not allowed becomes one "-". */
  function Sanitise(s: string): (r: string)
    ensures AllAllowed(r)
    ensures |r| <= |s|
    ensures r == [] <==> s == []
    decreases |s|
  {
    if s == [] then []
    else if Allowed(s[0]) then [s[0]] + Sanitise(s[1..])
    else "-" + Sanitise(SkipRun(s[1..]))
  }

  /** A string of allowed characters is left as it is. */
  lemma {:induction false} SanitiseKeepsAllowed(s: string)
    requires AllAllowed(s)
    ensures Sanitise(s) == s
  {
    if s != [] {
      SanitiseKeepsAllowed(s[1..]);
    }
  }

  /** Sanitising twice is sanitising once. */
  lemma {:induction false} SanitiseIdempotent(s: string)
    ensures Sanitise(Sanitise(s)) == Sanitise(s)
  {
    SanitiseKeepsAllowed(Sanitise(s));
  }

  /** The substitution read one character at a time: an allowed character
      is copied, a character that is not allowed becomes "-" when it starts
      a run and is dropped when it continues one. */
  function Dashes(s: string, inRun: bool): string
    decreases |s|
  {
    if s == [] then []
    else if Allowed(s[0]) then [s[0]] + Dashes(s[1..], false)
    else (if inRun then [] else "-") + Dashes(s[1..], true)
  }

  /** Inside a run, the rest of the run is dropped. */
  lemma {:induction false} DashesInRun(s: string)
    ensures Dashes(s, true) == Dashes(SkipRun(s), false)
    decreases |s|
  {
    if s != [] && !Allowed(s[0]) {
      DashesInRun(s[1..]);
    }
  }

  /** `Sanitise` is the character-by-character substitution. */
  lemma {:induction false} SanitiseIsDashes(s: string)
    ensures Sanitise(s) == Dashes(s, false)
    decreases |s|
  {
    if s != [] {
      if Allowed(s[0]) {
        SanitiseIsDashes(s[1..]);
      } else {
        SanitiseIsDashes(SkipRun(s[1..]));
        DashesInRun(s[1..]);
      }
    }
  }

  /** Whether a run of characters that are not allowed is open after a. */
  function RunAfter(a: string, inRun: bool): bool {
    if a == [] then inRun else !Allowed(a[|a| - 1])
  }

  lemma {:induction false} DashesAppend(a: string, b: string, inRun: bool)
    ensures Dashes(a + b, inRun) == Dashes(a, inRun) + Dashes(b, RunAfter(a, inRun))
    decreases |a|
  {
    if a == [] {
      assert a + b == b;
    } else {
      assert (a + b)[0] == a[0] && (a + b)[1..] == a[1..] + b;
      DashesAppend(a[1..], b, !Allowed(a[0]));
      if |a| > 1 {
        assert a[1..][|a| - 2] == a[|a| - 1];
      }
    }
  }

  /** A non-empty run of characters that are not allowed gives one "-" when
      it opens and nothing when it continues. */
  lemma {:induction false} DashesOfRun(run: string, inRun: bool)
    requires forall i :: 0 <= i < |run| ==> !Allowed(run[i])
    ensures Dashes(run, inRun) == (if inRun || run == [] then [] else "-")
    decreases |run|
  {
    if run != [] {
      DashesOfRun(run[1..], true);
    }
  }

  lemma {:induction false} DashesAtAllowed(a: string, c: char, b: string)
    requires Allowed(c)
    ensures Dashes(a + [c] + b, false) == Dashes(a, false) + [c] + Dashes(b, false)
  {
    var x := [c] + b;
    assert a + [c] + b == a + x;
    DashesAppend(a, x, false);
    assert x[0] == c && x[1..] == b;
  }

  /** Text that does not start inside a run reads the same either way. */
  lemma {:induction false} DashesFromAllowed(b: string)
    requires b == [] || Allowed(b[0])
    ensures Dashes(b, true) == Dashes(b, false)
  {
  }

  lemma {:induction false} DashesAtRun(a: string, run: string, b: string)
    requires a == [] || Allowed(a[|a| - 1])
    requires run != [] && forall i :: 0 <= i < |run| ==> !Allowed(run[i])
    requires b == [] || Allowed(b[0])
    ensures Dashes(a + run + b, false) == Dashes(a, false) + "-" + Dashes(b, false)
  {
    var x := run + b;
    assert a + run + b == a + x;
    DashesAppend(a, x, false);
    assert !RunAfter(a, false);
    DashesAppend(run, b, false);
    assert RunAfter(run, false);
    DashesOfRun(run, false);
    DashesFromAllowed(b);
    var da, dx, db := Dashes(a, false), Dashes(x, false), Dashes(b, false);
    assert dx == "-" + db;
    assert da + dx == da + "-" + db;
  }

  /** An allowed character is kept where it is, and the text on each side
      is sanitised independently. */
  lemma {:induction false} SanitiseAtAllowed(a: string, c: char, b: string)
    requires Allowed(c)
    ensures Sanitise(a + [c] + b) == Sanitise(a) + [c] + Sanitise(b)
  {
    SanitiseIsDashes(a + [c] + b);
    SanitiseIsDashes(a);
    SanitiseIsDashes(b);
    DashesAtAllowed(a, c, b);
  }

  /** A maximal run of characters that are not allowed becomes exactly one
      "-". */
  lemma {:induction false} SanitiseAtRun(a: string, run: string, b: string)
    requires a == [] || Allowed(a[|a| - 1])
    requires run != [] && forall i :: 0 <= i < |run| ==> !Allowed(run[i])
    requires b == [] || Allowed(b[0])
    ensures Sanitise(a + run + b) == Sanitise(a) + "-" + Sanitise(b)
  {
    SanitiseIsDashes(a + run + b);
    SanitiseIsDashes(a);
    SanitiseIsDashes(b);
    DashesAtRun(a, run, b);
  }

  function Sanitised(xs: seq<string>): (r: seq<string>)
    ensures |r| == |xs|
    ensures forall i :: 0 <= i < |r| ==> r[i] == Sanitise(xs[i])
  {
    seq(|xs|, i requires 0 <= i < |xs| => Sanitise(xs[i]))
  }

  /** `_migrate_0_3_0__build_content_id(item_type, *parts)`: the sanitised
      type and parts joined by "_"; ValueError without parts. */
  function BuildContentId(itemType: string, parts: seq<string>): (r: Result<string>)
    ensures r.Err? <==> parts == []
    ensures r.Err? ==> r.error == ValueError(MissingParts)
    ensures r.Ok? ==> forall i :: 0 <= i < |r.value| ==> Allowed(r.value[i]) || r.value[i] == '_'
    ensures r.Ok? ==> Split(r.value, '_') == Sanitised([itemType] + parts)
  {
    if parts == [] then Err(ValueError(MissingParts))
    else
      var id := Join(Sanitised([itemType] + parts), "_");
      JoinAlphabet(Sanitised([itemType] + parts));
      JoinSplit(Sanitised([itemType] + parts), '_');
      Ok(id)
  }

  /** Joining allowed strings with "_" uses allowed characters and "_"
      only. */
  lemma {:induction false} JoinAlphabet(xs: seq<string>)
    requires forall i :: 0 <= i < |xs| ==> AllAllowed(xs[i])
    ensures forall k :: 0 <= k < |Join(xs, "_")| ==> Allowed(Join(xs, "_")[k]) || Join(xs, "_")[k] == '_'
    ensures forall i :: 0 <= i < |xs| ==> '_' !in xs[i]
    decreases |xs|
  {
    if |xs| >= 2 {
      JoinAlphabet(xs[1..]);
      var j := Join(xs, "_");
      var rest := Join(xs[1..], "_");
      assert j == xs[0] + "_" + rest;
      forall k | 0 <= k < |j|
        ensures Allowed(j[k]) || j[k] == '_'
      {
        if k < |xs[0]| {
          assert j[k] == xs[0][k];
        } else if k > |xs[0]| {
          assert j[k] == rest[k - |xs[0]| - 1];
        }
      }
    }
  }

  /** The content ID of a subtitle or audio item has four parts, the
      first of which is the item type itself. */
  lemma {:induction false} TypeLeadsId(itemType: string, parts: seq<string>)
    requires itemType == "subtitle" || itemType == "audio"
    requires |parts| == 3
    ensures BuildContentId(itemType, parts).Ok?
    ensures |Split(BuildContentId(itemType, parts).value, '_')| == 4
    ensures Split(BuildContentId(itemType, parts).value, '_')[0] == itemType
  {
    assert AllAllowed(itemType) by {
      forall i | 0 <= i < |itemType|
        ensures Allowed(itemType[i])
      {
        assert 'a' <= itemType[i] <= 'z';
      }
    }
    SanitiseKeepsAllowed(itemType);
  }

  /** The item types whose directories are renamed. */
  predicate NamedType(t: Value) {
    t == Str("subtitle") || t == Str("audio")
  }

  /** The metadata key naming the item's file. */
  function FileKey(t: Value): string {
    if t == Str("subtitle") then "subtitle_file" else "audio_file"
  }

  /** The item's metadata.json read as an object, when it is a file whose
      text is JSON for an object. */
  function ItemDoc(codec: Codec, fs: Fs, itemP: Path): Option<Object> {
    match TextAt(fs, itemP + [MetadataJson])
    case None => None
    case Some(t) =>
      match codec.loads(t)
      case Some(Dict(md)) => Some(md)
      case _ => None
  }

  /** What the step needs of the metadata md to compute a name: item_type,
      and for a subtitle or audio item a string file name naming a file of
      the item, and a source. */
  predicate DocRenamable(fs: Fs, itemP: Path, md: Object) {
    && "item_type" in md
    && (NamedType(md["item_type"]) ==>
          var key := FileKey(md["item_type"]);
          && key in md && md[key].Str?
          && IsFile(fs, itemP + [md[key].s])
          && "source" in md)
  }

  /** The parts of the new name: the source, the checksum of the file's
      content and the file's name. */
  function DocParts(codec: Codec, checksum: string -> string, fs: Fs, itemP: Path, md: Object): seq<string>
    requires DocRenamable(fs, itemP, md) && NamedType(md["item_type"])
  {
    var name := md[FileKey(md["item_type"])].s;
    [PyStr(codec, md["source"]), checksum(fs[itemP + [name]].text), name]
  }

  /** Reading the item's metadata.json: OSError when it is not a file,
      ValueError when it is not JSON, TypeError when it is not an object. */
  function ReadItemDoc(codec: Codec, fs: Fs, itemP: Path): (r: Result<Object>)
    ensures r.Ok? <==> ItemDoc(codec, fs, itemP).Some?
    ensures r.Ok? ==> ItemDoc(codec, fs, itemP) == Some(r.value)
  {
    var text :- ReadText(fs, itemP + [MetadataJson]);
    var v :- Loads(codec, text);
    AsObject(v)
  }

  /** The name the step gives an item with metadata md: a subtitle or audio
      item gets the content ID of its type and its parts, and an item of
      another type keeps its name (None, with a warning). Missing keys
      raise KeyError and an unreadable file OSError. */
  function DocContentId(codec: Codec, checksum: string -> string, fs: Fs, itemP: Path, md: Object): (r: Result<Option<string>>)
    ensures r.Ok? <==> DocRenamable(fs, itemP, md)
    ensures r.Ok? ==> (r.value.None? <==> !NamedType(md["item_type"]))
    ensures r.Ok? && r.value.Some? ==>
      r.value.value == BuildContentId(md["item_type"].s, DocParts(codec, checksum, fs, itemP, md)).value
    ensures r.Ok? && r.value.Some? ==>
      (forall i :: 0 <= i < |r.value.value| ==> Allowed(r.value.value[i]) || r.value.value[i] == '_')
    ensures r.Ok? && r.value.Some? ==>
      |Split(r.value.value, '_')| == 4 && Split(r.value.value, '_')[0] in {"subtitle", "audio"}
  {
    var itemType :- Get(md, "item_type");
    if !NamedType(itemType) then Ok(None)
    else
      var name :- Get(md, FileKey(itemType));
      if !name.Str? then Err(TypeError("expected str, bytes or os.PathLike object"))
      else
        var content :- ReadText(fs, itemP + [name.s]);
        var source :- Get(md, "source");
        var parts := [PyStr(codec, source), checksum(content), name.s];
        TypeLeadsId(itemType.s, parts);
        Ok(Some(BuildContentId(itemType.s, parts).value))
  }

  /** The name `_migrate_0_3_0__content_item` gives the item at itemP: the
      name its metadata document gives it, once that document reads as an
      object; metadata that is missing is OSError, that is not JSON
      ValueError and that is not an object TypeError. */
  function NewContentId(codec: Codec, checksum: string -> string, fs: Fs, itemP: Path): (r: Result<Option<string>>)
    ensures r.Ok? <==> ItemDoc(codec, fs, itemP).Some? && DocRenamable(fs, itemP, ItemDoc(codec, fs, itemP).value)
    ensures r.Ok? ==> IsFile(fs, itemP + [MetadataJson])
    ensures r.Ok? ==> r == DocContentId(codec, checksum, fs, itemP, ItemDoc(codec, fs, itemP).value)
    ensures r.Ok? && r.value.Some? ==>
      (forall i :: 0 <= i < |r.value.value| ==> Allowed(r.value.value[i]) || r.value.value[i] == '_')
    ensures r.Ok? && r.value.Some? ==>
      |Split(r.value.value, '_')| == 4 && Split(r.value.value, '_')[0] in {"subtitle", "audio"}
  {
    var md :- ReadItemDoc(codec, fs, itemP);
    DocContentId(codec, checksum, fs, itemP, md)
  }

  /** `_migrate_0_3_0__content_item`: the item directory is renamed to its
      content ID within the same parent; an item of another type is left
      where it is. */
  function ContentItem(codec: Codec, checksum: string -> string, fs: Fs, itemP: Path): (r: Result<Fs>)
    requires itemP != []
  {
    var id :- NewContentId(codec, checksum, fs, itemP);
    if id.None? then Ok(fs) else RenameDir(fs, itemP, Parent(itemP) + [id.value])
  }

  /** After a move, a file of the moved directory is read at its new
      place. */
  lemma {:induction false} MovedRead(fs: Fs, src: Path, dst: Path, x: string)
    requires IsFile(fs, src + [x])
    ensures ReadText(Move(fs, src, dst), dst + [x]) == ReadText(fs, src + [x])
  {
    MoveSpec(fs, src, dst);
    assert (src + [x])[|src|..] == [x];
  }

  /** Renaming is done once per item: the renamed item gets the same
      content ID at its new place, which is its name, so the step leaves it
      where it is. */
  lemma {:induction false} ContentItemIsFinal(codec: Codec, checksum: string -> string, fs: Fs, itemP: Path)
    requires itemP != []
    requires ContentItem(codec, checksum, fs, itemP).Ok?
    requires NewContentId(codec, checksum, fs, itemP).value.Some?
    ensures var newP := Parent(itemP) + [NewContentId(codec, checksum, fs, itemP).value.value];
      var fs' := ContentItem(codec, checksum, fs, itemP).value;
      && IsDir(fs', newP)
      && NewContentId(codec, checksum, fs', newP) == NewContentId(codec, checksum, fs, itemP)
      && ContentItem(codec, checksum, fs', newP) == Ok(fs')
  {
    var id := NewContentId(codec, checksum, fs, itemP).value.value;
    var newP := Parent(itemP) + [id];
    var fs' := ContentItem(codec, checksum, fs, itemP).value;
    assert Parent(newP) == Parent(itemP);
    if newP != itemP {
      assert fs' == Move(fs, itemP, newP);
      MoveSpec(fs, itemP, newP);
      assert newP + itemP[|itemP|..] == newP;
      MovedRead(fs, itemP, newP, MetadataJson);
      var md := AsObject(Loads(codec, ReadText(fs, itemP + [MetadataJson]).value).value).value;
      var name := md[if md["item_type"] == Str("subtitle") then "subtitle_file" else "audio_file"];
      MovedRead(fs, itemP, newP, name.s);
    }
  }

  /** `_migrate_0_3_0__video`'s loop over the entries `names` of a content
      directory, in the order given: every entry that is a directory with a
      `metadata.json` is renamed in turn; the first failure stops the walk. */
  function ItemsFold(codec: Codec, checksum: string -> string, fs: Fs, contentP: Path, names: seq<string>): (Fs, Option<Error>)
    decreases |names|
  {
    if names == [] then (fs, None)
    else
      var itemP := contentP + [names[0]];
      if !(IsDir(fs, itemP) && itemP + [MetadataJson] in fs) then
        ItemsFold(codec, checksum, fs, contentP, names[1..])
      else
        match ContentItem(codec, checksum, fs, itemP)
        case Err(e) => (fs, Some(e))
        case Ok(fs1) => ItemsFold(codec, checksum, fs1, contentP, names[1..])
  }

  /** `_migrate_0_3_0__video`: the items of a video with a content
      directory, walked in the order `order`. */
  function VideoFold(codec: Codec, checksum: string -> string, fs: Fs, videoP: Path, order: seq<string>): (Fs, Option<Error>) {
    if IsDir(fs, videoP + [Content]) then ItemsFold(codec, checksum, fs, videoP + [Content], order) else (fs, None)
  }

  /** `_migrate_0_3_0__video_table`'s loop over the videos `videos`, with
      `orders[k]` the order the k-th video's items were walked in; a video
      is visited when it is a directory with a `metadata.json`. */
  function VideosFold(codec: Codec, checksum: string -> string, fs: Fs, tableP: Path,
                      videos: seq<string>, orders: seq<seq<string>>): (Fs, Option<Error>)
    requires |orders| == |videos|
    decreases |videos|
  {
    if videos == [] then (fs, None)
    else
      var (fs1, err) := VideosFold(codec, checksum, fs, tableP, videos[..|videos| - 1], orders[..|orders| - 1]);
      var videoP := tableP + [videos[|videos| - 1]];
      if err.Some? || !(IsDir(fs1, videoP) && videoP + [MetadataJson] in fs1) then (fs1, err)
      else VideoFold(codec, checksum, fs1, videoP, orders[|orders| - 1])
  }

  /** Every visited video's items were walked in an order listing its
      content directory as it was when the walk reached it. */
  ghost predicate OrdersFit(codec: Codec, checksum: string -> string, fs: Fs, tableP: Path,
                            videos: seq<string>, orders: seq<seq<string>>)
    requires |orders| == |videos|
    decreases |videos|
  {
    videos == [] ||
    (var (fs1, err) := VideosFold(codec, checksum, fs, tableP, videos[..|videos| - 1], orders[..|orders| - 1]);
     var videoP := tableP + [videos[|videos| - 1]];
     && OrdersFit(codec, checksum, fs, tableP, videos[..|videos| - 1], orders[..|orders| - 1])
     && (err.None? && IsDir(fs1, videoP) && videoP + [MetadataJson] in fs1 && IsDir(fs1, videoP + [Content]) ==>
           IsListing(orders[|orders| - 1], Children(fs1, videoP + [Content]))))
  }

  /** `_migrate_0_3_0__video` on the video at videoP; `order` is the order
      its content directory was listed in. */
  method MigrateVideo(fs: Fs, codec: Codec, checksum: string -> string, videoP: Path)
    returns (fs': Fs, err: Option<Error>, ghost order: seq<string>)
    ensures IsDir(fs, videoP + [Content]) ==> IsListing(order, Children(fs, videoP + [Content]))
    ensures (fs', err) == VideoFold(codec, checksum, fs, videoP, order)
  {
    var contentP := videoP + [Content];
    if !IsDir(fs, contentP) {
      return fs, None, [];
    }
    var names := Listing(Children(fs, contentP));
    order := names;
    fs', err := fs, None;
    var i := 0;
    while i < |names|
      invariant 0 <= i <= |names|
      invariant ItemsFold(codec, checksum, fs, contentP, names) == ItemsFold(codec, checksum, fs', contentP, names[i..])
    {
      var itemP := contentP + [names[i]];
      assert names[i..][0] == names[i] && names[i..][1..] == names[i + 1..];
      if IsDir(fs', itemP) && itemP + [MetadataJson] in fs' {
        var step := ContentItem(codec, checksum, fs', itemP);
        if step.Err? {
          return fs', Some(step.error), names;
        }
        fs' := step.value;
      }
      i := i + 1;
    }
  }

  /** `_migrate_0_3_0__video_table` on the table at tableP: `videos` are
      the entries visited, in order, each once; without a failure they are
      all the entries of the table. */
  method MigrateTable(fs: Fs, codec: Codec, checksum: string -> string, tableP: Path)
    returns (fs': Fs, err: Option<Error>, ghost videos: seq<string>, ghost orders: seq<seq<string>>)
    requires IsDir(fs, tableP)
    ensures |orders| == |videos|
    ensures Visited(videos, Children(fs, tableP), err.None?)
    ensures OrdersFit(codec, checksum, fs, tableP, videos, orders)
    ensures (fs', err) == VideosFold(codec, checksum, fs, tableP, videos, orders)
  {
    var names := Listing(Children(fs, tableP));
    fs', err := fs, None;
    videos, orders := [], [];
    var i := 0;
    while i < |names|
      invariant 0 <= i <= |names|
      invariant videos == names[..i] && |orders| == i
      invariant OrdersFit(codec, checksum, fs, tableP, videos, orders)
      invariant (fs', None) == VideosFold(codec, checksum, fs, tableP, videos, orders)
    {
      var videoP := tableP + [names[i]];
      ghost var order: seq<string> := [];
      var fs1 := fs';
      var e: Option<Error> := None;
      if IsDir(fs', videoP) && videoP + [MetadataJson] in fs' {
        fs1, e, order := MigrateVideo(fs', codec, checksum, videoP);
      }
      ghost var videos' := videos + [names[i]];
      ghost var orders' := orders + [order];
      assert videos'[..|videos'| - 1] == videos && orders'[..|orders'| - 1] == orders;
      assert names[..i + 1] == videos';
      videos, orders := videos', orders';
      fs' := fs1;
      if e.Some? {
        return fs', e, videos, orders;
      }
      i := i + 1;
    }
    assert names[..i] == names;
  }

  /** At version 0.3.0 the metadata gets `git_privacy` "public" and
      version 0.4.0, every other key as it was, and the video table, when
      it is a directory, is walked as `VideosFold` states (the step raises
      when the walk does). Any other version leaves everything as it was. */
  method Migrate(fs: Fs, codec: Codec, checksum: string -> string, storagePath: Path, metadata: Object)
    returns (fs': Fs, r: Result<Object>, ghost videos: seq<string>, ghost orders: seq<seq<string>>)
    ensures "version" !in metadata ==> fs' == fs && r == Err(KeyError("version"))
    ensures "version" in metadata && metadata["version"] != Str("0.3.0") ==> fs' == fs && r == Ok(metadata)
    ensures "version" in metadata && metadata["version"] == Str("0.3.0") && !IsDir(fs, storagePath + ["video"]) ==>
      fs' == fs && r.Ok?
    ensures "version" in metadata && metadata["version"] == Str("0.3.0") && IsDir(fs, storagePath + ["video"]) ==>
      && |orders| == |videos|
      && OrdersFit(codec, checksum, fs, storagePath + ["video"], videos, orders)
      && Visited(videos, Children(fs, storagePath + ["video"]), r.Ok?)
      && VideosFold(codec, checksum, fs, storagePath + ["video"], videos, orders) ==
           (fs', if r.Err? then Some(r.error) else None)
    ensures r.Ok? && "version" in metadata && metadata["version"] == Str("0.3.0") ==>
      && r.value.Keys == metadata.Keys + {"git_privacy"}
      && r.value["git_privacy"] == Str("public")
      && r.value["version"] == Str("0.4.0")
      && (forall k :: k in metadata && k != "version" && k != "git_privacy" ==> r.value[k] == metadata[k])
  {
    videos, orders := [], [];
    var at := AtVersion(metadata, "0.3.0");
    if at.Err? {
      return fs, Err(at.error), videos, orders;
    }
    if !at.value {
      return fs, Ok(metadata), videos, orders;
    }
    var md := With(metadata, "git_privacy", Str("public"));
    var tableP := storagePath + ["video"];
    fs' := fs;
    if IsDir(fs, tableP) {
      var err;
      fs', err, videos, orders := MigrateTable(fs, codec, checksum, tableP);
      if err.Some? {
        return fs', Err(err.value), videos, orders;
      }
    }
    r := Ok(With(md, "version", Str("0.4.0")));
  }
}
