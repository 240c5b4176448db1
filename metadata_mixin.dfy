/** `MetadataMixin`: an object's `metadata.json`, read as a read-only
    mapping and written through the JSON file helpers, and the bottom of
    the `build_metadata` chain, which refuses every keyword it is left
    with. */
module MetadataMixin {
  import opened Wrappers
  import opened JsonValue
  import opened Disk
  import opened FilesMixin

  const MetadataJson: string := "metadata.json"

  /** `None if raw is None else MappingProxyType(raw)` over what
      `load_json_file` returned: a missing file and a document holding
      `null` are both None, and any other document that is not a mapping
      raises TypeError. */
  function Proxy(raw: Result<Option<Value>>): (r: Result<Option<Object>>)
    ensures raw.Err? ==> r == Err(raw.error)
    ensures raw == Ok(None) || raw == Ok(Some(Null)) ==> r == Ok(None)
    ensures r.Ok? && r.value.Some? <==> raw.Ok? && raw.value.Some? && raw.value.value.Dict?
    ensures r.Ok? && r.value.Some? ==> r.value.value == raw.value.value.fields
    ensures raw.Ok? ==> (r.Err? <==> raw.value.Some? && !raw.value.value.Dict? && !raw.value.value.Null?)
    ensures raw.Ok? && r.Err? ==> r.error.TypeError?
  {
    match raw
    case Err(e) => Err(e)
    case Ok(None) => Ok(None)
    case Ok(Some(v)) =>
      if v.Null? then Ok(None)
      else if v.Dict? then Ok(Some(v.fields))
      else Err(TypeError("not a mapping"))
  }

  /** The `metadata` getter: None when `metadata.json` is absent. */
  method GetMetadata(f: Files, fs: Fs, codec: Codec) returns (r: Result<Option<Object>>)
    modifies f
    ensures r == Proxy(JsonRead(old(f.jsonCache), f.filesPath, fs, codec, MetadataJson, true))
    ensures (f.textCache, f.jsonCache) == JsonLoadCaches(old(f.textCache), old(f.jsonCache), f.filesPath, fs, codec, MetadataJson, true)
  {
    var raw := f.LoadJson(fs, codec, MetadataJson, true);
    r := Proxy(raw);
  }

  /** The `metadata` setter: `save_json_file("metadata.json", value)`. */
  method SetMetadata(f: Files, fs: Fs, codec: Codec, value: Value) returns (fs': Fs, err: Option<Error>)
    modifies f
    ensures (fs', err) == SaveTextSpec(fs, f.filesPath, MetadataJson, JsonText(codec, value))
    ensures (f.textCache, f.jsonCache) == JsonSaveCaches(old(f.textCache), old(f.jsonCache), codec, MetadataJson, value, err)
  {
    fs', err := f.SaveJson(fs, codec, MetadataJson, value);
  }

  /** `self.metadata[key]` on what the getter returned: TypeError without
      metadata, KeyError without the key. */
  function Subscript(md: Result<Option<Object>>, key: string): (r: Result<Value>)
    ensures r.Ok? <==> md.Ok? && md.value.Some? && key in md.value.value
    ensures r.Ok? ==> r.value == md.value.value[key]
    ensures md.Err? ==> r == Err(md.error)
    ensures md == Ok(None) ==> r.Err? && r.error.TypeError?
    ensures md.Ok? && md.value.Some? && key !in md.value.value ==> r.Err? && r.error.KeyError?
  {
    var m :- md;
    if m.None? then Err(TypeError("'NoneType' object is not subscriptable"))
    else Get(m.value, key)
  }

  /** `self.metadata.get(key, None)`: None for a missing key, and
      AttributeError without metadata. */
  function GetKey(md: Result<Option<Object>>, key: string): (r: Result<Value>)
    ensures md.Ok? && md.value.Some? ==> r == Ok(GetOr(md.value.value, key, Null))
    ensures md.Err? ==> r == Err(md.error)
    ensures md == Ok(None) ==> r.Err? && r.error.AttributeError?
  {
    var m :- md;
    if m.None? then Err(AttributeError("'NoneType' object has no attribute 'get'"))
    else Ok(GetOr(m.value, key, Null))
  }

  /** The caches after an `exists()` check of a directory: the metadata is
      loaded only when the directory exists. */
  function LoadedIfDir(textCache: map<string, string>, jsonCache: map<string, Value>, fs: Fs, path: Path, codec: Codec)
    : (c: (map<string, string>, map<string, Value>))
    ensures !IsDir(fs, path) ==> c == (textCache, jsonCache)
    ensures IsDir(fs, path) ==> c == JsonLoadCaches(textCache, jsonCache, path, fs, codec, MetadataJson, true)
  {
    if IsDir(fs, path) then JsonLoadCaches(textCache, jsonCache, path, fs, codec, MetadataJson, true)
    else (textCache, jsonCache)
  }

  /** `MetadataMixin.build_metadata(**kwargs)`: ValueError for any keyword
      left over, so each layer above must consume its own keys; with none
      the result is the empty dict. */
  function BuildMetadata(kwargs: Object): (r: Result<Object>)
    ensures r.Ok? <==> kwargs == map[]
    ensures r.Ok? ==> r.value == map[]
    ensures r.Err? ==> r.error.ValueError?
  {
    if kwargs != map[] then Err(ValueError("Extra metadata keys")) else Ok(map[])
  }

  /** A document whose text is `null` reads as None, as a missing file
      does, both on the first read and from the cache afterwards. */
  lemma {:induction false} NullDocumentIsNone(cache: map<string, Value>, filesPath: Path, fs: Fs, codec: Codec, name: string)
    requires name !in cache && IsFile(fs, filesPath + [name])
    requires codec.loads(fs[filesPath + [name]].text) == Some(Null)
    ensures Proxy(JsonRead(cache, filesPath, fs, codec, name, true)) == Ok(None)
    ensures var raw := JsonRead(cache, filesPath, fs, codec, name, true);
      Proxy(JsonRead(JsonCacheAfterRead(cache, name, raw), filesPath, fs, codec, name, true)) == Ok(None)
  {
    var raw := JsonRead(cache, filesPath, fs, codec, name, true);
    assert raw == Ok(Some(Null));
    var cache' := JsonCacheAfterRead(cache, name, raw);
    assert name in cache' && cache'[name] == Null;
  }

  /** A metadata getter followed by the setter with the same mapping writes
      the mapping back and caches it: reading again gives the same mapping. */
  lemma {:induction false} SetThenGet(cache: map<string, Value>, filesPath: Path, fs: Fs, codec: Codec, md: Object)
    requires SaveTextSpec(fs, filesPath, MetadataJson, JsonText(codec, Dict(md))).1.None?
    ensures Proxy(JsonRead(JsonCacheAfterSave(cache, MetadataJson, Dict(md), None), filesPath,
                           SaveTextSpec(fs, filesPath, MetadataJson, JsonText(codec, Dict(md))).0, codec, MetadataJson, true))
         == Ok(Some(md))
  {
    ReadAfterSaveJson(cache, filesPath, fs, codec, MetadataJson, Dict(md));
  }
}
