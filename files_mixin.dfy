/** `FilesMixin`: the text and JSON files of an object kept in one
    directory (`files_path`), read through a per-object cache. The file
    system is passed in and handed back as a value; the cache lives in the
    object. The cache's two kinds of keys, ("text", name) and ("json",
    name), are kept as two maps. What each operation reads and leaves in the
    cache is given by functions over plain maps, so the read-after-write and
    coherence properties are stated once, as lemmas about those functions. */
module FilesMixin {
  import opened Wrappers
  import opened JsonValue
  import opened Disk

  class Files {
    const filesPath: Path
    /** The ("text", name) entries of `_cache`. */
    var textCache: map<string, string>
    /** The ("json", name) entries of `_cache`. */
    var jsonCache: map<string, Value>

    constructor (filesPath: Path)
      ensures this.filesPath == filesPath
      ensures textCache == map[] && jsonCache == map[]
    {
      this.filesPath := filesPath;
      textCache := map[];
      jsonCache := map[];
    }

    /** `load_text_file`. */
    method LoadText(fs: Fs, name: string, fromCache: bool) returns (r: Option<string>)
      modifies this
      ensures r == TextRead(old(textCache), filesPath, fs, name, fromCache)
      ensures textCache == TextCacheAfterRead(old(textCache), filesPath, fs, name, fromCache)
      ensures jsonCache == old(jsonCache)
    {
      if name !in textCache || !fromCache {
        textCache := textCache - {name};
        var path := filesPath + [name];
        if IsFile(fs, path) {
          textCache := textCache[name := ReadText(fs, path).value];
        }
      } else {
        assert textCache[name := textCache[name]] == textCache;
      }
      r := if name in textCache then Some(textCache[name]) else None;
    }

    /** `load_json_file`: the text is read bypassing the text cache. */
    method LoadJson(fs: Fs, codec: Codec, name: string, fromCache: bool) returns (r: Result<Option<Value>>)
      modifies this
      ensures r == JsonRead(old(jsonCache), filesPath, fs, codec, name, fromCache)
      ensures (textCache, jsonCache) == JsonLoadCaches(old(textCache), old(jsonCache), filesPath, fs, codec, name, fromCache)
    {
      if name !in jsonCache || !fromCache {
        jsonCache := jsonCache - {name};
        var text := LoadText(fs, name, false);
        if text.Some? {
          var v := Loads(codec, text.value);
          if v.Err? {
            return Err(v.error);
          }
          jsonCache := jsonCache[name := v.value];
        }
      } else {
        assert jsonCache[name := jsonCache[name]] == jsonCache;
      }
      r := Ok(if name in jsonCache then Some(jsonCache[name]) else None);
      assert jsonCache == JsonCacheAfterRead(old(jsonCache), name, r);
      assert textCache == JsonLoadCaches(old(textCache), old(jsonCache), filesPath, fs, codec, name, fromCache).0;
    }

    /** `save_text_file`. Whatever was done before an error stays done. */
    method SaveText(fs: Fs, name: string, value: Value) returns (fs': Fs, err: Option<Error>)
      modifies this
      ensures (fs', err) == SaveTextSpec(fs, filesPath, name, value)
      ensures textCache == TextCacheAfterSave(old(textCache), name, value, err)
      ensures jsonCache == old(jsonCache)
    {
      textCache := textCache - {name};
      var m := Mkdir(fs, filesPath, true, true);
      if m.Err? {
        return fs, Some(m.error);
      }
      fs' := m.value;
      var path := filesPath + [name];
      if value.Null? {
        var u := Unlink(fs', path, true);
        if u.Err? {
          return fs', Some(u.error);
        }
        fs' := u.value;
      } else if value.Str? {
        var w := WriteText(fs', path, value.s);
        if w.Err? {
          return fs', Some(w.error);
        }
        fs' := w.value;
      } else {
        return fs', Some(TypeError("not a str"));
      }
      err := None;
      if !value.Null? {
        textCache := textCache[name := value.s];
      }
    }

    /** `save_json_file`: the value is written as `json_dumps` text (None
        deletes the file), and the value itself, not its parsed text, is
        cached. */
    method SaveJson(fs: Fs, codec: Codec, name: string, value: Value) returns (fs': Fs, err: Option<Error>)
      modifies this
      ensures (fs', err) == SaveTextSpec(fs, filesPath, name, JsonText(codec, value))
      ensures (textCache, jsonCache) == JsonSaveCaches(old(textCache), old(jsonCache), codec, name, value, err)
    {
      var before := jsonCache;
      jsonCache := jsonCache - {name};
      fs', err := SaveText(fs, name, JsonText(codec, value));
      jsonCache := JsonCacheAfterSave(before, name, value, err);
    }
  }

  /** What `load_text_file` returns: the cached text when asked to use the
      cache and there is one, otherwise the file's text (None when it is
      missing or not a file). */
  function TextRead(cache: map<string, string>, filesPath: Path, fs: Fs, name: string, fromCache: bool): (r: Option<string>)
    ensures fromCache && name in cache ==> r == Some(cache[name])
    ensures !(fromCache && name in cache) ==> (r.Some? <==> IsFile(fs, filesPath + [name]))
    ensures !(fromCache && name in cache) && r.Some? ==> r.value == fs[filesPath + [name]].text
  {
    if fromCache && name in cache then Some(cache[name]) else TextAt(fs, filesPath + [name])
  }

  /** The text entries after `load_text_file`: the text read is cached, and a
      missing file drops a stale entry. */
  function TextCacheAfterRead(cache: map<string, string>, filesPath: Path, fs: Fs, name: string, fromCache: bool): (c: map<string, string>)
    ensures forall n :: n != name ==> (n in c <==> n in cache)
    ensures forall n :: n != name && n in c && n in cache ==> c[n] == cache[n]
    ensures name in c <==> TextRead(cache, filesPath, fs, name, fromCache).Some?
    ensures name in c ==> Some(c[name]) == TextRead(cache, filesPath, fs, name, fromCache)
  {
    var r := TextRead(cache, filesPath, fs, name, fromCache);
    if r.Some? then cache[name := r.value] else cache - {name}
  }

  /** What `load_json_file` returns: the cached value when asked to use the
      cache and there is one, otherwise the file's text parsed, None when the
      file is missing and ValueError when its text is not JSON. */
  function JsonRead(cache: map<string, Value>, filesPath: Path, fs: Fs, codec: Codec, name: string, fromCache: bool): (r: Result<Option<Value>>)
    ensures fromCache && name in cache ==> r == Ok(Some(cache[name]))
    ensures !(fromCache && name in cache) ==>
      match TextAt(fs, filesPath + [name])
      case None => r == Ok(None)
      case Some(t) => (r.Ok? <==> codec.loads(t).Some?) && (r.Ok? ==> r.value == codec.loads(t))
    ensures r.Err? ==> r.error.ValueError?
  {
    if fromCache && name in cache then Ok(Some(cache[name]))
    else
      match TextAt(fs, filesPath + [name])
      case None => Ok(None)
      case Some(t) =>
        match Loads(codec, t)
        case Ok(v) => Ok(Some(v))
        case Err(e) => Err(e)
  }

  /** The JSON entries after `load_json_file`: the value read is cached;
      a missing file or a parse error leaves no entry. */
  function JsonCacheAfterRead(cache: map<string, Value>, name: string, r: Result<Option<Value>>): (c: map<string, Value>)
    ensures forall n :: n != name ==> (n in c <==> n in cache)
    ensures forall n :: n != name && n in c && n in cache ==> c[n] == cache[n]
    ensures name in c <==> r.Ok? && r.value.Some?
    ensures name in c ==> r == Ok(Some(c[name]))
  {
    if r.Ok? && r.value.Some? then cache[name := r.value.value] else cache - {name}
  }

  /** Both cache maps after `load_json_file`: the text entry is refreshed
      unless the JSON entry was served from the cache. */
  function JsonLoadCaches(textCache: map<string, string>, jsonCache: map<string, Value>, filesPath: Path, fs: Fs, codec: Codec, name: string, fromCache: bool)
    : (c: (map<string, string>, map<string, Value>))
    ensures fromCache && name in jsonCache ==> c == (textCache, jsonCache)
    ensures !(fromCache && name in jsonCache) ==> c.0 == TextCacheAfterRead(textCache, filesPath, fs, name, false)
    ensures c.1 == JsonCacheAfterRead(jsonCache, name, JsonRead(jsonCache, filesPath, fs, codec, name, fromCache))
  {
    if fromCache && name in jsonCache then
      assert jsonCache[name := jsonCache[name]] == jsonCache;
      (textCache, jsonCache)
    else
      (TextCacheAfterRead(textCache, filesPath, fs, name, false),
       JsonCacheAfterRead(jsonCache, name, JsonRead(jsonCache, filesPath, fs, codec, name, fromCache)))
  }

  /** Both cache maps after `save_json_file`. */
  function JsonSaveCaches(textCache: map<string, string>, jsonCache: map<string, Value>, codec: Codec, name: string, value: Value, err: Option<Error>)
    : (c: (map<string, string>, map<string, Value>))
    ensures c.0 == TextCacheAfterSave(textCache, name, JsonText(codec, value), err)
    ensures c.1 == JsonCacheAfterSave(jsonCache, name, value, err)
  {
    (TextCacheAfterSave(textCache, name, JsonText(codec, value), err), JsonCacheAfterSave(jsonCache, name, value, err))
  }

  /** What `save_json_file` hands to `save_text_file`: None stays None,
      anything else becomes its `json_dumps` text. */
  function JsonText(codec: Codec, value: Value): (t: Value)
    ensures t.Null? <==> value.Null?
    ensures t.Str? <==> !value.Null?
    ensures t.Str? ==> t.s == codec.dumps(value)
  {
    if value.Null? then Null else Str(codec.dumps(value))
  }

  /** The file system and outcome of `save_text_file`: files_path is made
      with its parents (an existing one is fine), then None unlinks the file
      (a missing one is fine), a string is written and any other value
      raises TypeError. The directories made before an error stay. */
  function SaveTextSpec(fs: Fs, filesPath: Path, name: string, value: Value): (Fs, Option<Error>) {
    var m := Mkdir(fs, filesPath, true, true);
    if m.Err? then (fs, Some(m.error))
    else if value.Null? then
      var u := Unlink(m.value, filesPath + [name], true);
      if u.Ok? then (u.value, None) else (m.value, Some(u.error))
    else if value.Str? then
      var w := WriteText(m.value, filesPath + [name], value.s);
      if w.Ok? then (w.value, None) else (m.value, Some(w.error))
    else (m.value, Some(TypeError("not a str")))
  }

  /** The text entries after `save_text_file`: the entry is dropped first
      and the string saved is cached once the write succeeded. */
  function TextCacheAfterSave(cache: map<string, string>, name: string, value: Value, err: Option<Error>): (c: map<string, string>)
    ensures forall n :: n != name ==> (n in c <==> n in cache)
    ensures forall n :: n != name && n in c && n in cache ==> c[n] == cache[n]
    ensures name in c <==> err.None? && value.Str?
    ensures name in c ==> c[name] == value.s
  {
    if err.None? && value.Str? then cache[name := value.s] else cache - {name}
  }

  /** The JSON entries after `save_json_file`: the value saved, unless it
      was None or saving failed. */
  function JsonCacheAfterSave(cache: map<string, Value>, name: string, value: Value, err: Option<Error>): (c: map<string, Value>)
    ensures forall n :: n != name ==> (n in c <==> n in cache)
    ensures forall n :: n != name && n in c && n in cache ==> c[n] == cache[n]
    ensures name in c <==> err.None? && !value.Null?
    ensures name in c ==> c[name] == value
  {
    if err.None? && !value.Null? then cache[name := value] else cache - {name}
  }

  /** Every file other than the one at path reads the same in fs'. */
  ghost predicate Unchanged(fs: Fs, fs': Fs, path: Path) {
    forall q :: q != path && TextAt(fs, q).Some? ==> TextAt(fs', q) == TextAt(fs, q)
  }

  /** Every cached text is the text of its file. */
  predicate TextsMatch(cache: map<string, string>, filesPath: Path, fs: Fs) {
    forall n :: n in cache ==> TextAt(fs, filesPath + [n]) == Some(cache[n])
  }

  /** Every cached value was either parsed from its file or written to it. */
  predicate ValuesMatch(cache: map<string, Value>, filesPath: Path, fs: Fs, codec: Codec) {
    forall n :: n in cache ==>
      TextAt(fs, filesPath + [n]).Some? &&
      (codec.loads(TextAt(fs, filesPath + [n]).value) == Some(cache[n]) || codec.dumps(cache[n]) == TextAt(fs, filesPath + [n]).value)
  }

  /** Saving writes (or removes) the one file and no other. */
  lemma {:induction false} SaveTextWrites(fs: Fs, filesPath: Path, name: string, value: Value)
    ensures SaveTextSpec(fs, filesPath, name, value).1.None? ==>
      TextAt(SaveTextSpec(fs, filesPath, name, value).0, filesPath + [name]) == (if value.Str? then Some(value.s) else None)
    ensures SaveTextSpec(fs, filesPath, name, value).1.None? ==> value.Null? || value.Str?
    ensures Unchanged(fs, SaveTextSpec(fs, filesPath, name, value).0, filesPath + [name])
  {
  }

  /** With a coherent cache, a cached read gives what a fresh read gives, and
      reading keeps the cache coherent. */
  lemma {:induction false} TextReadCoherent(cache: map<string, string>, filesPath: Path, fs: Fs, name: string, fromCache: bool)
    requires TextsMatch(cache, filesPath, fs)
    ensures TextRead(cache, filesPath, fs, name, fromCache) == TextAt(fs, filesPath + [name])
    ensures TextsMatch(TextCacheAfterRead(cache, filesPath, fs, name, fromCache), filesPath, fs)
  {
    var c := TextCacheAfterRead(cache, filesPath, fs, name, fromCache);
    forall n | n in c
      ensures TextAt(fs, filesPath + [n]) == Some(c[n])
    {
      if n == name {
        assert Some(c[n]) == TextRead(cache, filesPath, fs, name, fromCache);
      }
    }
  }

  /** Reading JSON keeps the cached values coherent. */
  lemma {:induction false} JsonReadCoherent(cache: map<string, Value>, filesPath: Path, fs: Fs, codec: Codec, name: string, fromCache: bool)
    requires ValuesMatch(cache, filesPath, fs, codec)
    ensures ValuesMatch(JsonCacheAfterRead(cache, name, JsonRead(cache, filesPath, fs, codec, name, fromCache)), filesPath, fs, codec)
  {
    var r := JsonRead(cache, filesPath, fs, codec, name, fromCache);
    var c := JsonCacheAfterRead(cache, name, r);
    forall n | n in c
      ensures TextAt(fs, filesPath + [n]).Some? &&
        (codec.loads(TextAt(fs, filesPath + [n]).value) == Some(c[n]) || codec.dumps(c[n]) == TextAt(fs, filesPath + [n]).value)
    {
      if n == name && !(fromCache && name in cache) {
        assert r == Ok(Some(c[n]));
      }
    }
  }

  /** After `save_text_file(name, s)` succeeds, `load_text_file(name)`
      returns s, with or without the cache; after saving None it returns
      None. */
  lemma {:induction false} ReadAfterSaveText(cache: map<string, string>, filesPath: Path, fs: Fs, name: string, value: Value, fromCache: bool)
    requires SaveTextSpec(fs, filesPath, name, value).1.None?
    ensures TextRead(TextCacheAfterSave(cache, name, value, None), filesPath, SaveTextSpec(fs, filesPath, name, value).0, name, fromCache)
         == (if value.Str? then Some(value.s) else None)
  {
    SaveTextWrites(fs, filesPath, name, value);
  }

  /** After `save_json_file(name, v)` succeeds, a cached `load_json_file`
      returns v itself, whatever its text parses back to; after saving None
      the file is gone and the load returns None. */
  lemma {:induction false} ReadAfterSaveJson(cache: map<string, Value>, filesPath: Path, fs: Fs, codec: Codec, name: string, value: Value)
    requires SaveTextSpec(fs, filesPath, name, JsonText(codec, value)).1.None?
    ensures JsonRead(JsonCacheAfterSave(cache, name, value, None), filesPath, SaveTextSpec(fs, filesPath, name, JsonText(codec, value)).0, codec, name, true)
         == Ok(if value.Null? then None else Some(value))
  {
    SaveTextWrites(fs, filesPath, name, JsonText(codec, value));
  }

  /** Saving text keeps the other cached texts coherent and makes the saved
      one coherent. */
  lemma {:induction false} SaveTextCoherent(cache: map<string, string>, filesPath: Path, fs: Fs, name: string, value: Value)
    requires TextsMatch(cache, filesPath, fs)
    ensures var (fs', err) := SaveTextSpec(fs, filesPath, name, value);
      TextsMatch(TextCacheAfterSave(cache, name, value, err), filesPath, fs')
  {
    var (fs', err) := SaveTextSpec(fs, filesPath, name, value);
    SaveTextWrites(fs, filesPath, name, value);
    var c := TextCacheAfterSave(cache, name, value, err);
    forall n | n in c
      ensures TextAt(fs', filesPath + [n]) == Some(c[n])
    {
      if n != name {
        assert (filesPath + [n])[|filesPath|] == n;
      }
    }
  }

  /** Saving JSON keeps the cached values coherent with the files: the
      saved value's file holds its `json_dumps` text. */
  lemma {:induction false} SaveJsonCoherent(cache: map<string, Value>, filesPath: Path, fs: Fs, codec: Codec, name: string, value: Value)
    requires ValuesMatch(cache, filesPath, fs, codec)
    ensures var (fs', err) := SaveTextSpec(fs, filesPath, name, JsonText(codec, value));
      ValuesMatch(JsonCacheAfterSave(cache, name, value, err), filesPath, fs', codec)
  {
    var (fs', err) := SaveTextSpec(fs, filesPath, name, JsonText(codec, value));
    SaveTextWrites(fs, filesPath, name, JsonText(codec, value));
    var c := JsonCacheAfterSave(cache, name, value, err);
    forall n | n in c
      ensures TextAt(fs', filesPath + [n]).Some? &&
        (codec.loads(TextAt(fs', filesPath + [n]).value) == Some(c[n]) || codec.dumps(c[n]) == TextAt(fs', filesPath + [n]).value)
    {
      if n != name {
        assert (filesPath + [n])[|filesPath|] == n;
        assert TextAt(fs', filesPath + [n]) == TextAt(fs, filesPath + [n]);
      }
    }
  }

  /** Saving text leaves a cached JSON value of the same name in place: a
      cached load still returns it although the file now holds other text. */
  lemma {:induction false} SaveTextKeepsStaleJson(cache: map<string, Value>, filesPath: Path, fs: Fs, codec: Codec, name: string, s: string)
    requires name in cache
    requires SaveTextSpec(fs, filesPath, name, Str(s)).1.None?
    ensures JsonRead(cache, filesPath, SaveTextSpec(fs, filesPath, name, Str(s)).0, codec, name, true) == Ok(Some(cache[name]))
    ensures JsonRead(cache, filesPath, SaveTextSpec(fs, filesPath, name, Str(s)).0, codec, name, false).Ok? <==> codec.loads(s).Some?
  {
    SaveTextWrites(fs, filesPath, name, Str(s));
  }

  /** A second cached `load_json_file` on the same file system returns what
      the first returned and leaves both caches as the first left them:
      repeated reads of a property within one operation agree. */
  lemma {:induction false} LoadAgain(textCache: map<string, string>, jsonCache: map<string, Value>, filesPath: Path, fs: Fs, codec: Codec, name: string)
    ensures var c := JsonLoadCaches(textCache, jsonCache, filesPath, fs, codec, name, true);
      && JsonRead(c.1, filesPath, fs, codec, name, true) == JsonRead(jsonCache, filesPath, fs, codec, name, true)
      && JsonLoadCaches(c.0, c.1, filesPath, fs, codec, name, true) == c
  {
    var c := JsonLoadCaches(textCache, jsonCache, filesPath, fs, codec, name, true);
    if name !in jsonCache {
      var t := TextCacheAfterRead(textCache, filesPath, fs, name, false);
      assert TextCacheAfterRead(t, filesPath, fs, name, false) == t;
      if name in c.1 {
        assert c.1[name := c.1[name]] == c.1;
      } else {
        assert c.1 - {name} == c.1;
      }
    }
  }

  /** Loading one JSON file leaves what a cached load of any name returns
      as it was: another name's entry is untouched, and the same name reads
      as it did. */
  lemma {:induction false} LoadKeepsReads(textCache: map<string, string>, jsonCache: map<string, Value>, filesPath: Path, fs: Fs, codec: Codec, name: string, other: string)
    ensures JsonRead(JsonLoadCaches(textCache, jsonCache, filesPath, fs, codec, name, true).1, filesPath, fs, codec, other, true)
         == JsonRead(jsonCache, filesPath, fs, codec, other, true)
  {
    if other == name {
      LoadAgain(textCache, jsonCache, filesPath, fs, codec, name);
    }
  }
}
