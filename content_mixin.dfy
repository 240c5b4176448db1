/** `ContentMixin`: the content items of a record, kept as one directory
    each under `<files_path>/content/`. Listing is read-only: an item is
    identified by the class whose `item_type` its metadata names, and a
    filter is evaluated on the item's attributes. The order in which the
    directory lists its entries is a parameter (`names`). */
module ContentMixin {
  import opened Wrappers
  import opened JsonValue
  import opened Disk
  import opened FilesMixin
  import MetadataMixin
  import opened FilterableMixin
  import BaseItem
  import AudioItem
  import SubtitleItem
  import DiarizationItem

  /** `content_path`: files_path / "content/". */
  function ContentPath(filesPath: Path): (p: Path)
    ensures |p| == |filesPath| + 1 && Parent(p) == filesPath
  {
    assert (filesPath + ["content"])[..|filesPath|] == filesPath;
    filesPath + ["content"]
  }

  /** `CONTENT_ITEM_TYPES`, in the order of the union they are read from. */
  const ContentItemTypes: seq<string> :=
    [AudioItem.AudioType, BaseItem.BaseType, DiarizationItem.DiarizationType, SubtitleItem.SubtitleType]

  /** The index of the first class whose `item_type` equals t. */
  function FirstMatch(types: seq<string>, t: Value): (r: Option<nat>)
    ensures r.Some? ==> r.value < |types| && Str(types[r.value]) == t
    ensures r.Some? ==> forall j :: 0 <= j < r.value ==> Str(types[j]) != t
    ensures r.None? ==> forall j :: 0 <= j < |types| ==> Str(types[j]) != t
    decreases |types|
  {
    if types == [] then None
    else if Str(types[0]) == t then Some(0)
    else
      match FirstMatch(types[1..], t)
      case None => None
      case Some(i) => Some(i + 1)
  }

  /** The object `get_content` returns: an instance of the class with this
      `item_type`, working in directory `path`. */
  datatype Entry = Entry(itemType: string, path: Path)

  /** What the metadata getter of a freshly made item at path returns. */
  function ItemMetadata(fs: Fs, codec: Codec, path: Path): Result<Option<Object>> {
    MetadataMixin.Proxy(JsonRead(map[], path, fs, codec, MetadataMixin.MetadataJson, true))
  }

  /** `get_content(id_)`: None when the item does not exist; otherwise the
      first class whose `item_type` equals `metadata["item_type"]`, and
      ValueError when none does. Reading the metadata raises as the getter
      does, and a metadata without "item_type" raises KeyError. */
  function GetContent(fs: Fs, codec: Codec, filesPath: Path, id: string): (r: Result<Option<Entry>>)
    ensures var path := ContentPath(filesPath) + [id];
      var md := ItemMetadata(fs, codec, path);
      (!IsDir(fs, path) ==> r == Ok(None)) &&
      (IsDir(fs, path) && md.Err? ==> r == Err(md.error)) &&
      (IsDir(fs, path) && md == Ok(None) ==> r == Ok(None)) &&
      (IsDir(fs, path) && md.Ok? && md.value.Some? && "item_type" !in md.value.value ==> r == Err(KeyError("item_type"))) &&
      (r.Ok? && r.value.Some? <==>
        IsDir(fs, path) && md.Ok? && md.value.Some? && "item_type" in md.value.value &&
        md.value.value["item_type"].Str? && md.value.value["item_type"].s in ContentItemTypes) &&
      (r.Ok? && r.value.Some? ==> r.value.value == Entry(md.value.value["item_type"].s, path)) &&
      (IsDir(fs, path) && md.Ok? && md.value.Some? && "item_type" in md.value.value &&
       !(md.value.value["item_type"].Str? && md.value.value["item_type"].s in ContentItemTypes) ==>
         r == Err(ValueError("Unexpected item type")))
  {
    var path := ContentPath(filesPath) + [id];
    if !IsDir(fs, path) then Ok(None)
    else
      var md :- ItemMetadata(fs, codec, path);
      if md.None? then Ok(None)
      else
        var t :- Get(md.value, "item_type");
        match FirstMatch(ContentItemTypes, t)
        case Some(i) => Ok(Some(Entry(ContentItemTypes[i], path)))
        case None => Err(ValueError("Unexpected item type"))
  }

  /** An item made by `BaseItem.create` with a known `item_type` is found
      again by `get_content`, once the JSON codec reads back what it
      writes. */
  lemma {:induction false} CreatedItemFound(fs: Fs, codec: Codec, filesPath: Path, id: string, metadata: Object)
    requires BaseItem.CreateSpec(fs, ContentPath(filesPath) + [id], codec, metadata).1.None?
    requires codec.loads(codec.dumps(Dict(metadata))) == Some(Dict(metadata))
    requires "item_type" in metadata && metadata["item_type"].Str? && metadata["item_type"].s in ContentItemTypes
    ensures GetContent(BaseItem.CreateSpec(fs, ContentPath(filesPath) + [id], codec, metadata).0, codec, filesPath, id)
         == Ok(Some(Entry(metadata["item_type"].s, ContentPath(filesPath) + [id])))
  {
    var path := ContentPath(filesPath) + [id];
    var m := Mkdir(fs, path, true, true).value;
    SaveTextWrites(m, path, MetadataMixin.MetadataJson, JsonText(codec, Dict(metadata)));
    var fs' := BaseItem.CreateSpec(fs, path, codec, metadata).0;
    assert IsDir(fs', path) by {
      assert Mkdir(m, path, true, true) == Ok(m);
    }
    assert TextAt(fs', path + [MetadataMixin.MetadataJson]) == Some(codec.dumps(Dict(metadata)));
  }

  /** Reading attribute `name` of a listed item: the attribute getter of
      its class over a fresh instance's metadata (and, for a diarization,
      its `diarization.json`); `checksum` is `get_checksum`. */
  function ItemGetter(checksum: string -> string, fs: Fs, codec: Codec, e: Entry): Getter {
    var md := ItemMetadata(fs, codec, e.path);
    if e.itemType == AudioItem.AudioType then
      (name: string) => AudioItem.Attribute(checksum, fs, e.path, md, name)
    else if e.itemType == DiarizationItem.DiarizationType then
      var d := DiarizationItem.DiarizationOf(JsonRead(map[], e.path, fs, codec, DiarizationItem.DiarizationJson, true));
      (name: string) => DiarizationItem.Attribute(md, d, name)
    else if e.itemType == SubtitleItem.SubtitleType then
      (name: string) => SubtitleItem.Attribute(md, name)
    else
      (name: string) => BaseItem.Attribute(e.itemType, md, name)
  }

  /** Every item answers `item_type` with its class's own. */
  lemma {:induction false} ItemTypeRead(checksum: string -> string, fs: Fs, codec: Codec, e: Entry)
    ensures ItemGetter(checksum, fs, codec, e)("item_type") == Ok(Str(e.itemType))
  {
  }

  /** `not item_filter or item_filter(item)`: no filter accepts all. */
  function Accepts(filter: Option<seq<Clause>>, x: Getter): (r: Result<bool>)
    ensures filter.None? ==> r == Ok(true)
  {
    match filter
    case None => Ok(true)
    case Some(cs) => EvalAll(cs, x)
  }

  /** The entry named n is an item that passes the filter. */
  predicate Selected(fs: Fs, codec: Codec, checksum: string -> string, filesPath: Path, filter: Option<seq<Clause>>,
                     n: string, e: Entry)
  {
    GetContent(fs, codec, filesPath, n) == Ok(Some(e)) && Accepts(filter, ItemGetter(checksum, fs, codec, e)) == Ok(true)
  }

  /** The loop of `list_content` over the directory entries names, in
      order: the items yielded, and the error that stopped the generator. */
  function ListEntries(fs: Fs, codec: Codec, checksum: string -> string, filesPath: Path, names: seq<string>,
                       filter: Option<seq<Clause>>): (r: (seq<Entry>, Option<Error>))
    decreases |names|
  {
    if names == [] then ([], None)
    else
      var rest := ListEntries(fs, codec, checksum, filesPath, names[1..], filter);
      if !IsDir(fs, ContentPath(filesPath) + [names[0]]) then rest
      else
        match GetContent(fs, codec, filesPath, names[0])
        case Err(err) => ([], Some(err))
        case Ok(None) => rest
        case Ok(Some(e)) =>
          match Accepts(filter, ItemGetter(checksum, fs, codec, e))
          case Err(err) => ([], Some(err))
          case Ok(b) => if b then ([e] + rest.0, rest.1) else rest
  }

  /** `list_content(item_filter)`: nothing without a content directory,
      OSError when it is not a directory, else the loop over its entries. */
  function ListContent(fs: Fs, codec: Codec, checksum: string -> string, filesPath: Path, names: seq<string>,
                       filter: Option<seq<Clause>>): (r: (seq<Entry>, Option<Error>))
    ensures ContentPath(filesPath) !in fs ==> r == ([], None)
    ensures ContentPath(filesPath) in fs && !IsDir(fs, ContentPath(filesPath)) ==> r.0 == [] && r.1.Some? && r.1.value.OSError?
  {
    if ContentPath(filesPath) !in fs then ([], None)
    else
      match Scandir(fs, ContentPath(filesPath))
      case Err(err) => ([], Some(err))
      case Ok(_) => ListEntries(fs, codec, checksum, filesPath, names, filter)
  }

  /** Every yielded item is an existing item among the entries that passes
      the filter. */
  lemma {:induction false} ListedAreSelected(fs: Fs, codec: Codec, checksum: string -> string, filesPath: Path,
                                             names: seq<string>, filter: Option<seq<Clause>>)
    ensures forall e :: e in ListEntries(fs, codec, checksum, filesPath, names, filter).0 ==>
      exists n :: n in names && Selected(fs, codec, checksum, filesPath, filter, n, e)
    decreases |names|
  {
    if names != [] {
      ListedAreSelected(fs, codec, checksum, filesPath, names[1..], filter);
      forall e | e in ListEntries(fs, codec, checksum, filesPath, names, filter).0
        ensures exists n :: n in names && Selected(fs, codec, checksum, filesPath, filter, n, e)
      {
        var rest := ListEntries(fs, codec, checksum, filesPath, names[1..], filter).0;
        if e in rest {
          var n :| n in names[1..] && Selected(fs, codec, checksum, filesPath, filter, n, e);
          assert n in names;
        } else {
          assert Selected(fs, codec, checksum, filesPath, filter, names[0], e);
        }
      }
    }
  }

  /** When the generator runs to the end, every existing item among the
      entries that passes the filter is yielded; entries that are not
      directories are never yielded. */
  lemma {:induction false} SelectedAreListed(fs: Fs, codec: Codec, checksum: string -> string, filesPath: Path,
                                             names: seq<string>, filter: Option<seq<Clause>>, n: string, e: Entry)
    requires ListEntries(fs, codec, checksum, filesPath, names, filter).1.None?
    requires n in names && Selected(fs, codec, checksum, filesPath, filter, n, e)
    ensures e in ListEntries(fs, codec, checksum, filesPath, names, filter).0
    decreases |names|
  {
    var path := ContentPath(filesPath) + [names[0]];
    if n != names[0] {
      assert n in names[1..];
      if IsDir(fs, path) && GetContent(fs, codec, filesPath, names[0]).Ok? && GetContent(fs, codec, filesPath, names[0]).value.Some? {
        var e0 := GetContent(fs, codec, filesPath, names[0]).value.value;
        assert Accepts(filter, ItemGetter(checksum, fs, codec, e0)).Ok?;
      }
      SelectedAreListed(fs, codec, checksum, filesPath, names[1..], filter, n, e);
    }
  }

  /** `frozenset(x.<name> for x in items)`: the attribute of each item in
      order; the first that raises ends it, and an unhashable value raises
      TypeError. */
  function Collect(checksum: string -> string, fs: Fs, codec: Codec, es: seq<Entry>, name: string): (r: Result<set<Value>>)
    decreases |es|
  {
    if es == [] then Ok({})
    else
      var v :- ItemGetter(checksum, fs, codec, es[0])(name);
      if !Hashable(v) then Err(TypeError("unhashable type"))
      else
        var rest :- Collect(checksum, fs, codec, es[1..], name);
        Ok({v} + rest)
  }

  /** The collection completes exactly when every item's attribute reads
      and is hashable. */
  lemma {:induction false} CollectOk(checksum: string -> string, fs: Fs, codec: Codec, es: seq<Entry>, name: string)
    ensures Collect(checksum, fs, codec, es, name).Ok? <==>
      forall i :: 0 <= i < |es| ==> ItemGetter(checksum, fs, codec, es[i])(name).Ok? && Hashable(ItemGetter(checksum, fs, codec, es[i])(name).value)
    decreases |es|
  {
    if es != [] {
      CollectOk(checksum, fs, codec, es[1..], name);
      assert forall i :: 1 <= i < |es| ==> es[i] == es[1..][i - 1];
    }
  }

  /** A completed collection is exactly the items' values. */
  lemma {:induction false} CollectIsImage(checksum: string -> string, fs: Fs, codec: Codec, es: seq<Entry>, name: string)
    requires Collect(checksum, fs, codec, es, name).Ok?
    ensures forall v :: v in Collect(checksum, fs, codec, es, name).value <==>
      exists i :: 0 <= i < |es| && ItemGetter(checksum, fs, codec, es[i])(name) == Ok(v)
    decreases |es|
  {
    if es != [] {
      var tail := es[1..];
      CollectIsImage(checksum, fs, codec, tail, name);
      var v0 := ItemGetter(checksum, fs, codec, es[0])(name).value;
      var r := Collect(checksum, fs, codec, es, name).value;
      assert r == {v0} + Collect(checksum, fs, codec, tail, name).value;
      forall v | v in r
        ensures exists i :: 0 <= i < |es| && ItemGetter(checksum, fs, codec, es[i])(name) == Ok(v)
      {
        if v != v0 {
          var i :| 0 <= i < |tail| && ItemGetter(checksum, fs, codec, tail[i])(name) == Ok(v);
          assert es[i + 1] == tail[i];
        }
      }
      forall v, i | 0 <= i < |es| && ItemGetter(checksum, fs, codec, es[i])(name) == Ok(v)
        ensures v in r
      {
        if i > 0 {
          assert tail[i - 1] == es[i];
        }
      }
    }
  }

  /** The body shared by `audio_sources`, `diarization_sources`,
      `subtitle_sources` and `subtitle_langs`: the class's `build_filter()`
      (which raises first when it fails), then the attribute `name` over
      the listed items. An item's attribute raises before the generator
      reaches the error that stops it. */
  function Sources(fs: Fs, codec: Codec, checksum: string -> string, filesPath: Path, names: seq<string>,
                   attrs: map<string, FilterableAttribute>, itemType: string, name: string): (r: Result<set<Value>>)
    ensures BaseItem.BuildFilter(attrs, itemType, []).Err? ==> r == Err(BaseItem.BuildFilter(attrs, itemType, []).error)
  {
    var cs :- BaseItem.BuildFilter(attrs, itemType, []);
    var listed := ListContent(fs, codec, checksum, filesPath, names, Some(cs));
    var vs :- Collect(checksum, fs, codec, listed.0, name);
    if listed.1.Some? then Err(listed.1.value) else Ok(vs)
  }

  /** The attribute tables of the three item classes as written. */
  function AudioAttributes(): map<string, FilterableAttribute> {
    AttributesSpec(AudioItem.Info(BaseItem.Attributes()))
  }

  function DiarizationAttributes(): map<string, FilterableAttribute> {
    AttributesSpec(DiarizationItem.Info(BaseItem.Attributes()))
  }

  function SubtitleAttributes(): map<string, FilterableAttribute> {
    AttributesSpec(SubtitleItem.Info(BaseItem.Attributes()))
  }

  /** `audio_sources`. */
  function AudioSources(fs: Fs, codec: Codec, checksum: string -> string, filesPath: Path, names: seq<string>): Result<set<Value>> {
    Sources(fs, codec, checksum, filesPath, names, AudioAttributes(), AudioItem.AudioType, "source")
  }

  /** `diarization_sources`. */
  function DiarizationSources(fs: Fs, codec: Codec, checksum: string -> string, filesPath: Path, names: seq<string>): Result<set<Value>> {
    Sources(fs, codec, checksum, filesPath, names, DiarizationAttributes(), DiarizationItem.DiarizationType, "source")
  }

  /** `subtitle_sources`. */
  function SubtitleSources(fs: Fs, codec: Codec, checksum: string -> string, filesPath: Path, names: seq<string>): Result<set<Value>> {
    Sources(fs, codec, checksum, filesPath, names, SubtitleAttributes(), SubtitleItem.SubtitleType, "source")
  }

  /** `subtitle_langs`. */
  function SubtitleLangs(fs: Fs, codec: Codec, checksum: string -> string, filesPath: Path, names: seq<string>): Result<set<Value>> {
    Sources(fs, codec, checksum, filesPath, names, SubtitleAttributes(), SubtitleItem.SubtitleType, "lang")
  }

  /** As written, none of the three item tables has "item_type". */
  lemma {:induction false} AudioTableLacksType()
    ensures "item_type" !in AudioAttributes()
  {
    AudioItem.AttributesTable(BaseItem.Attributes());
  }

  lemma {:induction false} DiarizationTableLacksType()
    ensures "item_type" !in DiarizationAttributes()
  {
    DiarizationItem.AttributesTable(BaseItem.Attributes());
  }

  lemma {:induction false} SubtitleTableLacksType()
    ensures "item_type" !in SubtitleAttributes()
  {
    SubtitleItem.AttributesTable(BaseItem.Attributes());
  }

  /** So, as written, the four properties raise ValueError whatever is
      stored. */
  lemma {:induction false} AsWrittenSourcesRaise(fs: Fs, codec: Codec, checksum: string -> string, filesPath: Path, names: seq<string>)
    ensures AudioSources(fs, codec, checksum, filesPath, names).Err?
    ensures AudioSources(fs, codec, checksum, filesPath, names).error.ValueError?
    ensures DiarizationSources(fs, codec, checksum, filesPath, names).Err?
    ensures DiarizationSources(fs, codec, checksum, filesPath, names).error.ValueError?
    ensures SubtitleSources(fs, codec, checksum, filesPath, names).Err?
    ensures SubtitleSources(fs, codec, checksum, filesPath, names).error.ValueError?
    ensures SubtitleLangs(fs, codec, checksum, filesPath, names).Err?
    ensures SubtitleLangs(fs, codec, checksum, filesPath, names).error.ValueError?
  {
    AudioTableLacksType();
    DiarizationTableLacksType();
    SubtitleTableLacksType();
    BaseItem.BuildFilterRaises(AudioAttributes(), AudioItem.AudioType, []);
    BaseItem.BuildFilterRaises(DiarizationAttributes(), DiarizationItem.DiarizationType, []);
    BaseItem.BuildFilterRaises(SubtitleAttributes(), SubtitleItem.SubtitleType, []);
  }

  /** With "item_type" filterable as "str", the filter `build_filter()`
      makes accepts exactly the items of the class. */
  lemma {:induction false} TypeFilterSelects(attrs: map<string, FilterableAttribute>, itemType: string, checksum: string -> string,
                          fs: Fs, codec: Codec, e: Entry)
    requires "item_type" in attrs && attrs["item_type"] == FilterableAttribute("item_type", "str")
    ensures BaseItem.BuildFilter(attrs, itemType, []).Ok?
    ensures Accepts(Some(BaseItem.BuildFilter(attrs, itemType, []).value), ItemGetter(checksum, fs, codec, e))
         == Ok(e.itemType == itemType)
  {
    var cs := BaseItem.BuildFilter(attrs, itemType, []).value;
    var g := ItemGetter(checksum, fs, codec, e);
    ItemTypeRead(checksum, fs, codec, e);
    BaseItem.CorrectedFilterSelectsType(attrs, itemType, [], g);
    assert Eval(cs[0], g) == Ok(Str(e.itemType) == Str(itemType));
    assert cs[1..] == [];
    assert EvalAll(cs[1..], g) == Ok(true);
    assert (Str(e.itemType) == Str(itemType)) == (e.itemType == itemType);
  }

  /** The items a completed, type-filtered listing yields are the items
      of that class among the entries. */
  lemma {:induction false} ListedOfType(attrs: map<string, FilterableAttribute>, itemType: string, fs: Fs, codec: Codec,
                     checksum: string -> string, filesPath: Path, names: seq<string>, cs: seq<Clause>)
    requires "item_type" in attrs && attrs["item_type"] == FilterableAttribute("item_type", "str")
    requires cs == BaseItem.BuildFilter(attrs, itemType, []).value
    ensures forall e :: e in ListContent(fs, codec, checksum, filesPath, names, Some(cs)).0 ==>
      e.itemType == itemType && exists n :: n in names && GetContent(fs, codec, filesPath, n) == Ok(Some(e))
    ensures Tree(fs) && ListContent(fs, codec, checksum, filesPath, names, Some(cs)).1.None? ==>
      forall n: string, e: Entry :: n in names && GetContent(fs, codec, filesPath, n) == Ok(Some(e)) && e.itemType == itemType ==>
        e in ListContent(fs, codec, checksum, filesPath, names, Some(cs)).0
  {
    var listed := ListContent(fs, codec, checksum, filesPath, names, Some(cs));
    forall e | e in listed.0
      ensures e.itemType == itemType && exists n :: n in names && GetContent(fs, codec, filesPath, n) == Ok(Some(e))
    {
      assert listed == ListEntries(fs, codec, checksum, filesPath, names, Some(cs));
      ListedAreSelected(fs, codec, checksum, filesPath, names, Some(cs));
      var n :| n in names && Selected(fs, codec, checksum, filesPath, Some(cs), n, e);
      TypeFilterSelects(attrs, itemType, checksum, fs, codec, e);
    }
    if Tree(fs) && listed.1.None? {
      forall n: string, e: Entry | n in names && GetContent(fs, codec, filesPath, n) == Ok(Some(e)) && e.itemType == itemType
        ensures e in listed.0
      {
        TypeFilterSelects(attrs, itemType, checksum, fs, codec, e);
        assert IsDir(fs, ContentPath(filesPath) + [n]);
        assert Parent(ContentPath(filesPath) + [n]) == ContentPath(filesPath);
        assert listed == ListEntries(fs, codec, checksum, filesPath, names, Some(cs));
        SelectedAreListed(fs, codec, checksum, filesPath, names, Some(cs), n, e);
      }
    }
  }

  /** Each value of a completed property is the attribute of an item of
      the class among the entries. */
  lemma {:induction false} SourcesFromItemsOfType(attrs: map<string, FilterableAttribute>, itemType: string, name: string,
                               fs: Fs, codec: Codec, checksum: string -> string, filesPath: Path, names: seq<string>, v: Value)
    requires "item_type" in attrs && attrs["item_type"] == FilterableAttribute("item_type", "str")
    requires Sources(fs, codec, checksum, filesPath, names, attrs, itemType, name).Ok?
    requires v in Sources(fs, codec, checksum, filesPath, names, attrs, itemType, name).value
    ensures exists n: string, e: Entry :: n in names && GetContent(fs, codec, filesPath, n) == Ok(Some(e)) && e.itemType == itemType &&
                                          ItemGetter(checksum, fs, codec, e)(name) == Ok(v)
  {
    TypeFilterSelects(attrs, itemType, checksum, fs, codec, Entry(itemType, []));
    var cs := BaseItem.BuildFilter(attrs, itemType, []).value;
    var es := ListContent(fs, codec, checksum, filesPath, names, Some(cs)).0;
    assert v in Collect(checksum, fs, codec, es, name).value;
    CollectIsImage(checksum, fs, codec, es, name);
    ListedOfType(attrs, itemType, fs, codec, checksum, filesPath, names, cs);
    var i :| 0 <= i < |es| && ItemGetter(checksum, fs, codec, es[i])(name) == Ok(v);
    assert es[i] in es;
    var n :| n in names && GetContent(fs, codec, filesPath, n) == Ok(Some(es[i]));
  }

  /** In a well-formed tree, the attribute of every item of the class
      among the entries is in a completed property. */
  lemma {:induction false} ItemsOfTypeInSources(attrs: map<string, FilterableAttribute>, itemType: string, name: string,
                             fs: Fs, codec: Codec, checksum: string -> string, filesPath: Path, names: seq<string>,
                             n: string, e: Entry, v: Value)
    requires Tree(fs)
    requires "item_type" in attrs && attrs["item_type"] == FilterableAttribute("item_type", "str")
    requires Sources(fs, codec, checksum, filesPath, names, attrs, itemType, name).Ok?
    requires n in names && GetContent(fs, codec, filesPath, n) == Ok(Some(e)) && e.itemType == itemType
    requires ItemGetter(checksum, fs, codec, e)(name) == Ok(v)
    ensures v in Sources(fs, codec, checksum, filesPath, names, attrs, itemType, name).value
  {
    TypeFilterSelects(attrs, itemType, checksum, fs, codec, Entry(itemType, []));
    var cs := BaseItem.BuildFilter(attrs, itemType, []).value;
    var listed := ListContent(fs, codec, checksum, filesPath, names, Some(cs));
    var es := listed.0;
    assert Collect(checksum, fs, codec, es, name).Ok? && listed.1.None?;
    ListedOfType(attrs, itemType, fs, codec, checksum, filesPath, names, cs);
    assert e in es;
    var i :| 0 <= i < |es| && es[i] == e;
    CollectIsImage(checksum, fs, codec, es, name);
  }

  /** An audio item has no `source`: with "item_type" filterable,
      `audio_sources` raises AttributeError as soon as one audio item is
      listed. */
  lemma {:induction false} AudioSourcesNeedNoAudio(attrs: map<string, FilterableAttribute>, fs: Fs, codec: Codec, checksum: string -> string,
                                filesPath: Path, names: seq<string>)
    requires "item_type" in attrs && attrs["item_type"] == FilterableAttribute("item_type", "str")
    requires ListContent(fs, codec, checksum, filesPath, names, Some(BaseItem.BuildFilter(attrs, AudioItem.AudioType, []).value)).0 != []
    ensures Sources(fs, codec, checksum, filesPath, names, attrs, AudioItem.AudioType, "source").Err?
    ensures Sources(fs, codec, checksum, filesPath, names, attrs, AudioItem.AudioType, "source").error.AttributeError?
  {
    TypeFilterSelects(attrs, AudioItem.AudioType, checksum, fs, codec, Entry(AudioItem.AudioType, []));
    var cs := BaseItem.BuildFilter(attrs, AudioItem.AudioType, []).value;
    var es := ListContent(fs, codec, checksum, filesPath, names, Some(cs)).0;
    ListedOfType(attrs, AudioItem.AudioType, fs, codec, checksum, filesPath, names, cs);
    assert es[0] in es;
    assert es[0].itemType == AudioItem.AudioType;
    assert ItemGetter(checksum, fs, codec, es[0])("source").Err?;
  }
}
