/** `HolodexMixin` (with the `youtube_info` file of `YoutubeMixin` it builds
    on): the `holodex.json` and `youtube.json` documents of a record and the
    id fallback between them. The two ids are functions of what the two info
    getters return; each getter reads through the object's JSON cache, so a
    second read inside one property returns the first read's value. */
module HolodexMixin {
  import opened Wrappers
  import opened JsonValue
  import opened Disk
  import opened FilesMixin
  import MetadataMixin

  const HolodexJson: string := "holodex.json"
  const YoutubeJson: string := "youtube.json"

  /** The `holodex_info` getter: None when the file is absent. */
  method GetHolodexInfo(f: Files, fs: Fs, codec: Codec) returns (r: Result<Option<Object>>)
    modifies f
    ensures r == MetadataMixin.Proxy(JsonRead(old(f.jsonCache), f.filesPath, fs, codec, HolodexJson, true))
    ensures (f.textCache, f.jsonCache) == JsonLoadCaches(old(f.textCache), old(f.jsonCache), f.filesPath, fs, codec, HolodexJson, true)
  {
    var raw := f.LoadJson(fs, codec, HolodexJson, true);
    r := MetadataMixin.Proxy(raw);
  }

  /** The `holodex_info` setter: None deletes the file. */
  method SetHolodexInfo(f: Files, fs: Fs, codec: Codec, value: Value) returns (fs': Fs, err: Option<Error>)
    modifies f
    ensures (fs', err) == SaveTextSpec(fs, f.filesPath, HolodexJson, JsonText(codec, value))
    ensures (f.textCache, f.jsonCache) == JsonSaveCaches(old(f.textCache), old(f.jsonCache), codec, HolodexJson, value, err)
  {
    fs', err := f.SaveJson(fs, codec, HolodexJson, value);
  }

  /** The `youtube_info` getter of `YoutubeMixin`. */
  method GetYoutubeInfo(f: Files, fs: Fs, codec: Codec) returns (r: Result<Option<Object>>)
    modifies f
    ensures r == MetadataMixin.Proxy(JsonRead(old(f.jsonCache), f.filesPath, fs, codec, YoutubeJson, true))
    ensures (f.textCache, f.jsonCache) == JsonLoadCaches(old(f.textCache), old(f.jsonCache), f.filesPath, fs, codec, YoutubeJson, true)
  {
    var raw := f.LoadJson(fs, codec, YoutubeJson, true);
    r := MetadataMixin.Proxy(raw);
  }

  /** A mapping view is truthy when it is present and non-empty. */
  predicate Filled(info: Option<Object>) {
    info.Some? && info.value != map[]
  }

  /** `info.get("id")` on a filled view. */
  function IdIn(info: Object): Value {
    GetOr(info, "id", Null)
  }

  /** `holodex_id`: the Holodex info's "id" when that info is non-empty,
      else the YouTube info's "id" when that one is non-empty, else None.
      The YouTube info is read only when the Holodex one is empty. */
  function HolodexId(holodex: Result<Option<Object>>, youtube: Result<Option<Object>>): (r: Result<Value>)
    ensures holodex.Err? ==> r == Err(holodex.error)
    ensures holodex.Ok? && Filled(holodex.value) ==> r == Ok(IdIn(holodex.value.value))
    ensures holodex.Ok? && !Filled(holodex.value) && youtube.Err? ==> r == Err(youtube.error)
    ensures holodex.Ok? && !Filled(holodex.value) && youtube.Ok? ==>
      r == Ok(if Filled(youtube.value) then IdIn(youtube.value.value) else Null)
  {
    var h :- holodex;
    if Filled(h) then Ok(IdIn(h.value))
    else
      var y :- youtube;
      Ok(if Filled(y) then IdIn(y.value) else Null)
  }

  /** `youtube_id`: the mirror image, YouTube info first. */
  function YoutubeId(holodex: Result<Option<Object>>, youtube: Result<Option<Object>>): (r: Result<Value>)
    ensures youtube.Err? ==> r == Err(youtube.error)
    ensures youtube.Ok? && Filled(youtube.value) ==> r == Ok(IdIn(youtube.value.value))
    ensures youtube.Ok? && !Filled(youtube.value) && holodex.Err? ==> r == Err(holodex.error)
    ensures youtube.Ok? && !Filled(youtube.value) && holodex.Ok? ==>
      r == Ok(if Filled(holodex.value) then IdIn(holodex.value.value) else Null)
  {
    var y :- youtube;
    if Filled(y) then Ok(IdIn(y.value))
    else
      var h :- holodex;
      Ok(if Filled(h) then IdIn(h.value) else Null)
  }

  /** The fallback looks at whether the first info is non-empty, not at
      whether it has an id: a non-empty Holodex info without "id" gives no
      Holodex id even when the YouTube info has one. */
  lemma {:induction false} FallbackNeedsEmptyInfo(h: Object, youtube: Result<Option<Object>>)
    requires h != map[] && "id" !in h
    ensures HolodexId(Ok(Some(h)), youtube) == Ok(Null)
  {
  }

  /** When only one of the two infos is non-empty, both ids come from it;
      when both are, each id comes from its own info. */
  lemma {:induction false} IdsFromOneInfo(holodex: Option<Object>, youtube: Option<Object>)
    ensures Filled(holodex) && !Filled(youtube) ==>
      HolodexId(Ok(holodex), Ok(youtube)) == YoutubeId(Ok(holodex), Ok(youtube)) == Ok(IdIn(holodex.value))
    ensures !Filled(holodex) && Filled(youtube) ==>
      HolodexId(Ok(holodex), Ok(youtube)) == YoutubeId(Ok(holodex), Ok(youtube)) == Ok(IdIn(youtube.value))
    ensures Filled(holodex) && Filled(youtube) ==>
      HolodexId(Ok(holodex), Ok(youtube)) == Ok(IdIn(holodex.value)) && YoutubeId(Ok(holodex), Ok(youtube)) == Ok(IdIn(youtube.value))
    ensures !Filled(holodex) && !Filled(youtube) ==>
      HolodexId(Ok(holodex), Ok(youtube)) == YoutubeId(Ok(holodex), Ok(youtube)) == Ok(Null)
  {
  }
}
