/** `BaseItem`: a content item of a video, kept in its own directory with a
    `metadata.json` naming its `item_type`. The item classes (base, audio,
    diarization, subtitle) share this one Dafny class; `itemType` is the
    class's `item_type`, and what a subclass adds is stated by module-level
    functions over what the metadata getter returns. */
module BaseItem {
  import opened Wrappers
  import opened JsonValue
  import opened Disk
  import opened FilesMixin
  import MetadataMixin
  import FlagsMixin
  import opened FilterableMixin

  const BaseType: string := "base"

  class Item {
    /** The `item_type` of the item's class. */
    const itemType: string
    /** The item's file cache, working in the item directory `path`. */
    const files: Files

    constructor (itemType: string, path: Path)
      ensures this.itemType == itemType
      ensures fresh(files) && files.filesPath == path
      ensures files.textCache == map[] && files.jsonCache == map[]
    {
      this.itemType := itemType;
      files := new Files(path);
    }

    /** What the `metadata` getter returns right now. */
    function Metadata(fs: Fs, codec: Codec): Result<Option<Object>>
      reads files
    {
      MetadataMixin.Proxy(JsonRead(files.jsonCache, files.filesPath, fs, codec, MetadataMixin.MetadataJson, true))
    }

    /** `exists()`: the item path is a directory and its metadata is not
        None; the metadata is read only for a directory. */
    method Exists(fs: Fs, codec: Codec) returns (r: Result<bool>)
      modifies files
      ensures var m := old(Metadata(fs, codec));
        (r == Ok(true) <==> IsDir(fs, files.filesPath) && m.Ok? && m.value.Some?) &&
        (r == Ok(false) <==> !IsDir(fs, files.filesPath) || m == Ok(None)) &&
        (r.Err? ==> IsDir(fs, files.filesPath) && m.Err? && r.error == m.error)
      ensures (files.textCache, files.jsonCache) ==
        MetadataMixin.LoadedIfDir(old(files.textCache), old(files.jsonCache), fs, files.filesPath, codec)
    {
      if !IsDir(fs, files.filesPath) {
        return Ok(false);
      }
      var m := MetadataMixin.GetMetadata(files, fs, codec);
      if m.Err? {
        return Err(m.error);
      }
      r := Ok(m.value.Some?);
    }

    /** `create(metadata)`: ValueError("Already exists") for an existing
        item; otherwise the directory is made with its parents (an existing
        one is fine) and the metadata is assigned. */
    method Create(fs: Fs, codec: Codec, metadata: Object) returns (fs': Fs, err: Option<Error>)
      modifies files
      ensures var m := old(Metadata(fs, codec));
        var loaded := MetadataMixin.LoadedIfDir(old(files.textCache), old(files.jsonCache), fs, files.filesPath, codec);
        if IsDir(fs, files.filesPath) && !(m.Ok? && m.value.None?) then
          fs' == fs && err.Some? && (files.textCache, files.jsonCache) == loaded &&
          (m.Err? ==> err.value == m.error) && (m.Ok? ==> err.value == ValueError("Already exists"))
        else
          (fs', err) == CreateSpec(fs, files.filesPath, codec, metadata) &&
          (files.textCache, files.jsonCache) ==
            (if Mkdir(fs, files.filesPath, true, true).Ok?
             then JsonSaveCaches(loaded.0, loaded.1, codec, MetadataMixin.MetadataJson, Dict(metadata), err)
             else loaded)
    {
      var e := Exists(fs, codec);
      if e.Err? {
        return fs, Some(e.error);
      }
      if e.value {
        return fs, Some(ValueError("Already exists"));
      }
      var m := Mkdir(fs, files.filesPath, true, true);
      if m.Err? {
        return fs, Some(m.error);
      }
      fs', err := MetadataMixin.SetMetadata(files, m.value, codec, Dict(metadata));
    }
  }

  /** The file system and outcome of `create` on an item that does not
      exist. */
  function CreateSpec(fs: Fs, path: Path, codec: Codec, metadata: Object): (Fs, Option<Error>) {
    var m := Mkdir(fs, path, true, true);
    if m.Err? then (fs, Some(m.error))
    else SaveTextSpec(m.value, path, MetadataMixin.MetadataJson, JsonText(codec, Dict(metadata)))
  }

  /** After a successful `create`, the item exists: its directory is there
      and its metadata, read through the updated cache, is the one given. */
  lemma {:induction false} CreatedExists(fs: Fs, path: Path, codec: Codec, metadata: Object, cache: map<string, Value>)
    requires CreateSpec(fs, path, codec, metadata).1.None?
    ensures var fs' := CreateSpec(fs, path, codec, metadata).0;
      IsDir(fs', path) &&
      MetadataMixin.Proxy(JsonRead(JsonCacheAfterSave(cache, MetadataMixin.MetadataJson, Dict(metadata), None), path, fs', codec, MetadataMixin.MetadataJson, true))
        == Ok(Some(metadata))
  {
    var m := Mkdir(fs, path, true, true).value;
    var doc := JsonText(codec, Dict(metadata));
    SaveTextWrites(m, path, MetadataMixin.MetadataJson, doc);
    assert Mkdir(m, path, true, true) == Ok(m);
    MetadataMixin.SetThenGet(cache, path, m, codec, metadata);
  }

  /** `BaseItem.build_metadata(**kwargs)` called on a class whose
      `item_type` is itemType: the flags layer below, with "item_type" added.
      Any keyword other than flags is left over and refused. */
  function BuildMetadata(itemType: string, kwargs: Object): (r: Result<Object>)
    ensures r.Ok? <==> (forall k :: k in kwargs ==> k == "flags") && FlagsMixin.FlagsArgOk(kwargs)
    ensures (exists k :: k in kwargs && k != "flags") ==> r.Err? && r.error.ValueError?
    ensures r.Ok? ==> r.value == map["flags" := Set(FlagsMixin.FlagsArg(kwargs)), "item_type" := Str(itemType)]
  {
    var base :- FlagsMixin.BuildMetadata(kwargs);
    Ok(base["item_type" := Str(itemType)])
  }

  /** What reflection sees of `BaseItem` as written: of its bases only
      `FilterableMixin` is filterable, `item_type` is annotated
      "ClassVar[str]" and `files_path` is a property annotated
      "pathlib.Path". */
  const BaseItemInfo: ClassInfo :=
    ClassInfo([AttributesSpec(FilterableMixinInfo)], [("item_type", "ClassVar[str]")], [("files_path", "pathlib.Path")])

  /** `BaseItem._get_filterable_attributes()` as written: neither
      annotation has an operator, so the table is empty. */
  function Attributes(): (r: map<string, FilterableAttribute>)
    ensures r == map[]
  {
    assert Operators("ClassVar[str]") == {} && Operators("pathlib.Path") == {};
    AttributesSpec(BaseItemInfo)
  }

  /** `BaseItem` with `item_type` annotated "str", as evidently intended. */
  const BaseItemInfoCorrected: ClassInfo :=
    ClassInfo([AttributesSpec(FilterableMixinInfo)], [("item_type", "str")], [("files_path", "pathlib.Path")])

  /** The corrected table: `item_type` alone, with eq and ne. */
  function AttributesCorrected(): (r: map<string, FilterableAttribute>)
    ensures r == map["item_type" := FilterableAttribute("item_type", "str")]
  {
    assert Operators("str") == {"eq", "ne"} && Operators("pathlib.Path") == {};
    AttributesSpec(BaseItemInfoCorrected)
  }

  /** The clause `build_filter` puts first. */
  function TypePart(itemType: string): FilterPart {
    FilterPart("item_type", "eq", itemType)
  }

  /** `build_filter(*parts)` of a class with attribute table attrs and
      `item_type` itemType: the item_type clause first, then the parts. */
  function BuildFilter(attrs: map<string, FilterableAttribute>, itemType: string, parts: seq<FilterPart>): (r: Result<seq<Clause>>)
    ensures r.Ok? <==> Usable(attrs, TypePart(itemType)) && forall i :: 0 <= i < |parts| ==> Usable(attrs, parts[i])
    ensures r.Ok? ==> |r.value| == |parts| + 1 && r.value[0] == Clause(attrs["item_type"], "eq", itemType)
    ensures r.Err? ==> r.error.ValueError?
  {
    var all := [TypePart(itemType)] + parts;
    BuildFilterSpecProperties(attrs, all);
    AllUsable(attrs, TypePart(itemType), parts);
    assert all[0] == TypePart(itemType);
    BuildFilterSpec(attrs, all)
  }

  /** Every clause of [p] + parts is usable exactly when p and every one
      of parts is. */
  lemma {:induction false} AllUsable(attrs: map<string, FilterableAttribute>, p: FilterPart, parts: seq<FilterPart>)
    ensures (forall i :: 0 <= i < |[p] + parts| ==> Usable(attrs, ([p] + parts)[i]))
      <==> Usable(attrs, p) && forall i :: 0 <= i < |parts| ==> Usable(attrs, parts[i])
  {
    var all := [p] + parts;
    assert all[0] == p;
    assert forall i :: 0 <= i < |parts| ==> all[i + 1] == parts[i];
  }

  /** As written, `build_filter` raises ValueError("Not filterable
      attribute") for every class whose table has no "item_type" entry,
      whatever parts it is given. */
  lemma {:induction false} BuildFilterRaises(attrs: map<string, FilterableAttribute>, itemType: string, parts: seq<FilterPart>)
    requires "item_type" !in attrs
    ensures BuildFilter(attrs, itemType, parts).Err?
    ensures BuildFilter(attrs, itemType, parts).error.ValueError?
  {
  }

  /** Reading attribute `name` of an item of class item_type itemType
      whose metadata getter returned md: `item_type` is the class
      attribute and `flags` the flags getter; the subclasses add their own
      properties in front of these. */
  function Attribute(itemType: string, md: Result<Option<Object>>, name: string): (r: Result<Value>)
    ensures name == "item_type" ==> r == Ok(Str(itemType))
    ensures name != "item_type" && name != "flags" ==> r.Err? && r.error.AttributeError?
  {
    if name == "item_type" then Ok(Str(itemType))
    else if name == "flags" then
      var flags :- FlagsMixin.FlagsOf(md);
      Ok(Set(flags))
    else Err(AttributeError(name))
  }

  /** With `item_type` filterable, the first clause of the corrected
      `build_filter` accepts exactly the objects whose `item_type` is the
      class's own: the filter selects the items of that class. */
  lemma {:induction false} CorrectedFilterSelectsType(attrs: map<string, FilterableAttribute>, itemType: string, parts: seq<FilterPart>, x: Getter)
    requires "item_type" in attrs && attrs["item_type"] == FilterableAttribute("item_type", "str")
    requires forall i :: 0 <= i < |parts| ==> Usable(attrs, parts[i])
    requires x("item_type").Ok?
    ensures BuildFilter(attrs, itemType, parts).Ok?
    ensures Eval(BuildFilter(attrs, itemType, parts).value[0], x) == Ok(x("item_type").value == Str(itemType))
  {
  }
}
