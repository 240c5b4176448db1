/** `Flags` and `FlagsMixin`: the string flags kept in an object's
    metadata under "flags", the flag a yt-dlp download error stands for, and
    the `build_metadata` layer that adds the flags. */
module FlagsMixin {
  import opened Wrappers
  import opened JsonValue
  import opened Disk
  import opened Text
  import opened FilesMixin
  import MetadataMixin

  const MentionsOnly: string := "mentions-only"
  const HolodexPreserve: string := "holodex-preserve"
  const YoutubePreserve: string := "youtube-preserve"
  const YoutubePrivate: string := "youtube-private"
  const YoutubeUnavailable: string := "youtube-unavailable"
  const YoutubeMembership: string := "youtube-membership"
  const YoutubeAgeRestricted: string := "youtube-age-restricted"
  const SubtitleTranscription: string := "transcription"
  const SubtitleTranslation: string := "translation"

  predicate MembershipMessage(msg: string) {
    Contains(msg, "members-only") || Contains(msg, "This video is available to this channel's members")
  }

  predicate PrivateMessage(msg: string) {
    Contains(msg, "Private video") || Contains(msg, "This video is private")
  }

  predicate UnavailableMessage(msg: string) {
    Contains(msg, "Video unavailable")
  }

  predicate AgeMessage(msg: string) {
    Contains(msg, "Sign in to confirm your age")
  }

  /** `Flags.from_yt_dlp_error`: None for anything but a DownloadError;
      otherwise the message is checked for membership, then privacy, then
      unavailability, then age confirmation, and the first hit decides. */
  function FromYtDlpError(e: Error): (r: Option<string>)
    ensures !e.DownloadError? ==> r == None
    ensures r == Some(YoutubeMembership) <==> e.DownloadError? && MembershipMessage(e.msg)
    ensures r == Some(YoutubePrivate) <==> e.DownloadError? && !MembershipMessage(e.msg) && PrivateMessage(e.msg)
    ensures r == Some(YoutubeUnavailable) <==>
      e.DownloadError? && !MembershipMessage(e.msg) && !PrivateMessage(e.msg) && UnavailableMessage(e.msg)
    ensures r == Some(YoutubeAgeRestricted) <==>
      e.DownloadError? && !MembershipMessage(e.msg) && !PrivateMessage(e.msg) && !UnavailableMessage(e.msg) && AgeMessage(e.msg)
    ensures r.None? <==>
      !e.DownloadError? || (!MembershipMessage(e.msg) && !PrivateMessage(e.msg) && !UnavailableMessage(e.msg) && !AgeMessage(e.msg))
  {
    if !e.DownloadError? then None
    else if MembershipMessage(e.msg) then Some(YoutubeMembership)
    else if PrivateMessage(e.msg) then Some(YoutubePrivate)
    else if UnavailableMessage(e.msg) then Some(YoutubeUnavailable)
    else if AgeMessage(e.msg) then Some(YoutubeAgeRestricted)
    else None
  }

  /** `frozenset(self.metadata.get("flags", []))` over what the metadata
      getter returned: AttributeError without metadata, the empty set
      without a "flags" key. */
  function FlagsOf(metadata: Result<Option<Object>>): (r: Result<set<Value>>)
    ensures metadata.Err? ==> r == Err(metadata.error)
    ensures metadata == Ok(None) ==> r.Err? && r.error.AttributeError?
    ensures metadata.Ok? && metadata.value.Some? && "flags" !in metadata.value.value ==> r == Ok({})
    ensures metadata.Ok? && metadata.value.Some? && "flags" in metadata.value.value ==> r == ToSet(metadata.value.value["flags"])
  {
    match metadata
    case Err(e) => Err(e)
    case Ok(None) => Err(AttributeError("'NoneType' object has no attribute 'get'"))
    case Ok(Some(md)) => if "flags" in md then ToSet(md["flags"]) else Ok({})
  }

  /** The `flags` getter. */
  method GetFlags(f: Files, fs: Fs, codec: Codec) returns (r: Result<set<Value>>)
    modifies f
    ensures r == FlagsOf(MetadataMixin.Proxy(JsonRead(old(f.jsonCache), f.filesPath, fs, codec, MetadataMixin.MetadataJson, true)))
    ensures (f.textCache, f.jsonCache) ==
      JsonLoadCaches(old(f.textCache), old(f.jsonCache), f.filesPath, fs, codec, MetadataMixin.MetadataJson, true)
  {
    var md := MetadataMixin.GetMetadata(f, fs, codec);
    r := FlagsOf(md);
  }

  /** The strings of a sequence as a JSON list. */
  function StrList(xs: seq<string>): (r: Value)
    ensures r.List? && |r.items| == |xs|
    ensures forall i :: 0 <= i < |xs| ==> r.items[i] == Str(xs[i])
  {
    List(seq(|xs|, i requires 0 <= i < |xs| => Str(xs[i])))
  }

  /** The metadata written by the `flags` setter: `dict(metadata,
      flags=list(value))` with the set's elements in `stored` order. */
  function WithFlags(md: Object, stored: seq<string>): (r: Object)
    ensures r.Keys == md.Keys + {"flags"}
    ensures r["flags"] == StrList(stored)
    ensures forall k :: k in md && k != "flags" ==> r[k] == md[k]
  {
    md["flags" := StrList(stored)]
  }

  /** The `flags` setter: the metadata is read, only its "flags" key is
      replaced by the set as a list (in the set's iteration order, returned
      as `stored`) and the result is saved; TypeError without metadata. */
  method SetFlags(f: Files, fs: Fs, codec: Codec, value: set<string>) returns (fs': Fs, err: Option<Error>, stored: seq<string>)
    modifies f
    ensures forall s :: s in value <==> s in stored
    ensures forall i, j :: 0 <= i < j < |stored| ==> stored[i] != stored[j]
    ensures var m := MetadataMixin.Proxy(JsonRead(old(f.jsonCache), f.filesPath, fs, codec, MetadataMixin.MetadataJson, true));
      var loaded := JsonLoadCaches(old(f.textCache), old(f.jsonCache), f.filesPath, fs, codec, MetadataMixin.MetadataJson, true);
      if m.Ok? && m.value.Some? then
        var doc := Dict(WithFlags(m.value.value, stored));
        (fs', err) == SaveTextSpec(fs, f.filesPath, MetadataMixin.MetadataJson, JsonText(codec, doc)) &&
        (f.textCache, f.jsonCache) == JsonSaveCaches(loaded.0, loaded.1, codec, MetadataMixin.MetadataJson, doc, err)
      else
        fs' == fs && err.Some? && (m.Err? ==> err.value == m.error) && (m.Ok? ==> err.value.TypeError?) &&
        (f.textCache, f.jsonCache) == loaded
  {
    stored := Listing(value);
    var md := MetadataMixin.GetMetadata(f, fs, codec);
    if md.Err? {
      return fs, Some(md.error), stored;
    }
    if md.value.None? {
      return fs, Some(TypeError("'NoneType' object is not iterable")), stored;
    }
    fs', err := MetadataMixin.SetMetadata(f, fs, codec, Dict(WithFlags(md.value.value, stored)));
  }

  /** The flags keyword can be turned into a set: it is absent, None, or a
      collection of hashable values. */
  predicate FlagsArgOk(kwargs: Object) {
    "flags" in kwargs && !kwargs["flags"].Null? ==> ToSet(kwargs["flags"]).Ok?
  }

  /** `set(flags)`, the empty set when flags is absent or None. */
  function FlagsArg(kwargs: Object): set<Value>
    requires FlagsArgOk(kwargs)
  {
    if "flags" in kwargs && !kwargs["flags"].Null? then ToSet(kwargs["flags"]).value else {}
  }

  /** `FlagsMixin.build_metadata(*, flags=None, **kwargs)`: the keywords
      other than flags go down the chain first (so a leftover keyword is
      reported before a bad flags value), then "flags" is added as
      `set(flags)`, the empty set when flags is absent or None. */
  function BuildMetadata(kwargs: Object): (r: Result<Object>)
    ensures r.Ok? <==> (forall k :: k in kwargs ==> k == "flags") && FlagsArgOk(kwargs)
    ensures (exists k :: k in kwargs && k != "flags") ==> r.Err? && r.error.ValueError?
    ensures r.Ok? ==> r.value == map["flags" := Set(FlagsArg(kwargs))]
  {
    var flags := GetOr(kwargs, "flags", Null);
    var rest := kwargs - {"flags"};
    assert forall k :: k in kwargs && k != "flags" ==> k in rest;
    var base :- MetadataMixin.BuildMetadata(rest);
    var elems :- if flags.Null? then Ok({}) else ToSet(flags);
    Ok(base["flags" := Set(elems)])
  }

  /** The flags set written by the setter reads back as the same set of
      strings. */
  lemma {:induction false} FlagsRoundTrip(md: Object, value: set<string>, stored: seq<string>)
    requires forall s :: s in value <==> s in stored
    ensures FlagsOf(Ok(Some(WithFlags(md, stored)))).Ok?
    ensures Strings(FlagsOf(Ok(Some(WithFlags(md, stored)))).value) == value
  {
    var items := StrList(stored).items;
    assert forall i :: 0 <= i < |items| ==> Hashable(items[i]);
    var r := FlagsOf(Ok(Some(WithFlags(md, stored)))).value;
    forall s | s in value
      ensures Str(s) in r
    {
      var i :| 0 <= i < |stored| && stored[i] == s;
      assert items[i] == Str(s);
    }
    forall s | Str(s) in r
      ensures s in value
    {
      var i :| 0 <= i < |items| && items[i] == Str(s);
    }
  }
}
