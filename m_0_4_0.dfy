/** `migrate_0_4_0` of the migrations package: every subtitle item gets its
    list of languages (`langs`) from its single `lang`, and the metadata of
    every content item of every video is written back with sorted keys. */
module Migration040 {
  import opened Wrappers
  import opened JsonValue
  import opened Disk
  import opened MigrationSteps
  import opened VideoWalk

  /** One item's metadata after the step: a subtitle item gets
      `langs = [lang]`, replacing any `langs` it had (KeyError without a
      `lang`); any other item is kept as it is. `metadata.get` on a
      document that is not an object raises AttributeError. */
  function ItemMetadata(v: Value): (r: Result<Object>)
    ensures !v.Dict? ==> r.Err? && r.error.AttributeError?
    ensures v.Dict? && GetOr(v.fields, "item_type", Null) != Str("subtitle") ==> r == Ok(v.fields)
    ensures v.Dict? && GetOr(v.fields, "item_type", Null) == Str("subtitle") ==>
      (r.Ok? <==> "lang" in v.fields) && (r.Err? ==> r.error == KeyError("lang"))
    ensures v.Dict? && GetOr(v.fields, "item_type", Null) == Str("subtitle") && r.Ok? ==>
      r.value.Keys == v.fields.Keys + {"langs"} && r.value["langs"] == List([v.fields["lang"]]) &&
      forall k :: k in v.fields && k != "langs" ==> r.value[k] == v.fields[k]
  {
    if !v.Dict? then Err(AttributeError("object has no attribute 'get'"))
    else if GetOr(v.fields, "item_type", Null) == Str("subtitle") then
      var lang :- Get(v.fields, "lang");
      Ok(With(v.fields, "langs", List([lang])))
    else Ok(v.fields)
  }

  /** The new text of an item's `metadata.json`: its `json.loads` (a
      ValueError for text that is not JSON) converted and dumped with
      sorted keys. */
  function ItemText(codec: Codec, text: string): (r: Result<string>)
    ensures r.Ok? <==> Loads(codec, text).Ok? && ItemMetadata(Loads(codec, text).value).Ok?
    ensures r.Ok? ==> r.value == codec.sortedDumps(Dict(ItemMetadata(Loads(codec, text).value).value))
  {
    var v :- Loads(codec, text);
    var md :- ItemMetadata(v);
    Ok(codec.sortedDumps(Dict(md)))
  }

  /** The step for one content item: an entry whose `metadata.json` is a
      file has it rewritten; any other entry is passed over. */
  function ItemPlan(codec: Codec, metadata: Option<string>, current: Option<string>): (r: Result<Option<string>>)
    ensures current.None? ==> r == Ok(None)
    ensures current.Some? ==> (r.Ok? <==> ItemText(codec, current.value).Ok?)
    ensures current.Some? && r.Ok? ==> r.value == Some(ItemText(codec, current.value).value)
  {
    if current.None? then Ok(None)
    else
      var t :- ItemText(codec, current.value);
      Ok(Some(t))
  }

  /** The plan handed to the walk; the walked file is `metadata.json`
      itself. */
  function Plan(codec: Codec): (p: VideoWalk.Plan)
    ensures WritesOnlyFiles(p)
  {
    (metadata: Option<string>, current: Option<string>) => ItemPlan(codec, metadata, current)
  }

  /** At version 0.4.0 the video table, when it is a directory, is walked,
      and the metadata comes back with version 0.5.0 and every other key as
      it was; the step raises exactly when some item's conversion does, and
      otherwise leaves the file system `Rewritten`. Any other version
      leaves everything as it was. */
  method Migrate(fs: Fs, codec: Codec, storagePath: Path, metadata: Object) returns (fs': Fs, r: Result<Object>)
    ensures "version" !in metadata ==> fs' == fs && r == Err(KeyError("version"))
    ensures "version" in metadata && metadata["version"] != Str("0.4.0") ==> fs' == fs && r == Ok(metadata)
    ensures "version" in metadata && metadata["version"] == Str("0.4.0") && !IsDir(fs, storagePath + ["video"]) ==>
      fs' == fs && r.Ok?
    ensures "version" in metadata && metadata["version"] == Str("0.4.0") && IsDir(fs, storagePath + ["video"]) ==>
      (r.Ok? <==> AllOk(Plan(codec), fs, storagePath + ["video"], MetadataJson)) &&
      (r.Ok? ==> fs' == Rewritten(Plan(codec), fs, storagePath + ["video"], MetadataJson))
    ensures r.Ok? ==> r.value.Keys == metadata.Keys && r.value["version"] == StepVersion("0.4.0", "0.5.0", metadata["version"])
    ensures r.Ok? ==> forall k :: k in metadata && k != "version" ==> r.value[k] == metadata[k]
  {
    var at := AtVersion(metadata, "0.4.0");
    if at.Err? {
      return fs, Err(at.error);
    }
    if !at.value {
      return fs, Ok(metadata);
    }
    var tableP := storagePath + ["video"];
    fs' := fs;
    if IsDir(fs, tableP) {
      var err;
      fs', err := Walk(fs, Plan(codec), tableP, MetadataJson);
      if err.Some? {
        return fs', Err(err.value);
      }
    }
    r := Ok(With(metadata, "version", Str("0.5.0")));
  }

  /** What the step leaves, entry by entry, in a well-formed file system
      where no item fails: the `metadata.json` of every content item of a
      visited video holds the sorted dump of its converted metadata, and
      every other entry is unchanged. */
  lemma {:induction false} EveryItemRewritten(codec: Codec, fs: Fs, tableP: Path)
    requires Tree(fs)
    requires AllOk(Plan(codec), fs, tableP, MetadataJson)
    ensures Rewritten(Plan(codec), fs, tableP, MetadataJson).Keys == fs.Keys
    ensures forall q :: Slot(fs, tableP, MetadataJson, q) && IsFile(fs, q) ==>
      ItemText(codec, fs[q].text).Ok? &&
      Rewritten(Plan(codec), fs, tableP, MetadataJson)[q] == File(ItemText(codec, fs[q].text).value)
    ensures forall q :: q in fs && !(Slot(fs, tableP, MetadataJson, q) && IsFile(fs, q)) ==>
      Rewritten(Plan(codec), fs, tableP, MetadataJson)[q] == fs[q]
  {
    var p := Plan(codec);
    forall q | Slot(fs, tableP, MetadataJson, q) && IsFile(fs, q)
      ensures ItemText(codec, fs[q].text).Ok?
      ensures Writes(p, fs, tableP, MetadataJson, q)
      ensures ItemResult(p, fs, q).value.value == ItemText(codec, fs[q].text).value
    {
      assert ItemResult(p, fs, q).Ok?;
      assert Parent(q) + [MetadataJson] == q by {
        SlotParts(fs, tableP, MetadataJson, q);
      }
      assert IsDir(fs, Parent(q));
    }
  }

  /** A subtitle item without "lang" makes the step raise. */
  lemma {:induction false} MissingLangFails(codec: Codec, fs: Fs, tableP: Path, q: Path, md: Object)
    requires Slot(fs, tableP, MetadataJson, q) && IsFile(fs, q)
    requires codec.loads(fs[q].text) == Some(Dict(md))
    requires GetOr(md, "item_type", Null) == Str("subtitle") && "lang" !in md
    ensures !AllOk(Plan(codec), fs, tableP, MetadataJson)
  {
    assert ItemText(codec, fs[q].text).Err?;
    assert ItemResult(Plan(codec), fs, q).Err?;
  }
}
